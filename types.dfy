/**
 * The records of src/types.ts: the stored `Session`, the client metadata it
 * carries, the plugin options the core reads, and the calls the plugin makes
 * on its store adapter.
 *
 * A JSON value (`JsonValue`, `JsonObject`, `JsonArray`) is module `Json`.
 * Epochs are integers of milliseconds; a `Date` argument is passed as its epoch.
 */
module Types {
  import opened Wrappers
  import opened Json

  /** `metas`: the user agent is required, the IP address optional. */
  datatype Metas = Metas(detectedIPAddress: Option<string>, detectedUserAgent: string)

  /** A session record. `destroy`, `reload` and `save` are behaviour, not data:
      the plugin attaches them when it binds a record to a request. */
  datatype Session = Session(
    id: string,
    createdAtEpoch: int,
    updatedAtEpoch: int,
    expiresAtEpoch: Option<int>,
    data: JsonObject,
    metas: Metas)

  /** The fields of `SessionPluginOptions` that the hooks read. */
  datatype PluginOptions = PluginOptions(cookieName: string, initialSession: JsonObject)

  /** One call on the `ISessionStoreAdapter` contract, with its arguments.
      `createSession` takes the data, the expiry epoch if any, and the metas. */
  datatype StoreCall =
    | CreateSessionCall(sessionData: JsonObject, expiresAt: Option<int>, metas: Metas)
    | ReadSessionByIdCall(id: string)
    | UpdateSessionByIdCall(id: string, session: Session)
    | DeleteSessionByIdCall(id: string)

  /** Which adapter calls raise. A call that raises changes nothing in the store.
      The in-memory adapter never raises; other backends can, and the plugin
      catches every such exception. `deleteFails` is a delete that reports
      failure by returning false and removes nothing, as the contract allows
      (src/types.ts:96-107); the plugin ignores the boolean. An update that
      returns false is not told apart from one that raises: the persist hook
      does nothing after the update either way. */
  datatype Faults = Faults(createThrows: bool, readThrows: bool, updateThrows: bool, deleteThrows: bool,
                           deleteFails: bool)

  /** `readSessionById`: the record stored under `id`, or null. */
  function Lookup(store: map<string, Session>, id: string): (r: Option<Session>)
    ensures r.Some? <==> id in store
    ensures r.Some? ==> r.value == store[id]
  {
    if id in store then Some(store[id]) else None
  }

  /** Every record is stored under its own id. */
  predicate WellKeyed(store: map<string, Session>)
  {
    forall k :: k in store ==> store[k].id == k
  }
}
