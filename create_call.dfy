/**
 * The resolve hook calls `createSession(initialSession, metas)` with two
 * arguments (src/pluginFactory.ts:70-73), but the adapter method takes
 * `(sessionData, expiresAt, metas)` (src/types.ts:83-90). In JavaScript the
 * metas object is then bound to `expiresAt` and `metas` is undefined.
 *
 * `MockAdapter.MockSessionAdapter.CreateSession` and `Lifecycle.Resolve` model
 * the call in the interface's form, with no expiry. This module models the
 * call as written, against the in-memory adapter.
 */
module CreateCall {
  import opened Wrappers
  import opened Types
  import opened Lifecycle
  import Json
  import MockAdapter

  /** A JavaScript value in one argument position of `createSession`, as far
      as the mock's body tells them apart. */
  datatype JsArg = Undefined | Null | DateValue(epoch: int) | MetasValue(metas: Metas)

  /** The mock's `createSession` either raises a `TypeError` or builds a
      record with this expiry, this `detectedIPAddress` and this
      `detectedUserAgent` (undefined when the `metas` argument has none). */
  datatype CreateOutcome = Raises | Creates(expiresAtEpoch: Option<int>, ipAddress: string, userAgent: Option<string>)

  /** The mock's body on the given `expiresAt` and `metas` arguments:
      `expiresAt.getTime()` is called on any value other than null and
      undefined, and only a date has it; then `metas.detectedIPAddress || ""`
      and `metas.detectedUserAgent` are read, which raises only on null and
      undefined: a date has neither property, so both read as undefined. */
  function MockCreate(expiresAt: JsArg, metas: JsArg): (r: CreateOutcome)
    ensures r.Raises? <==> expiresAt.MetasValue? || metas.Undefined? || metas.Null?
    ensures r.Creates? && expiresAt.DateValue? ==> r.expiresAtEpoch == Some(expiresAt.epoch)
    ensures r.Creates? && !expiresAt.DateValue? ==> r.expiresAtEpoch == None
    ensures r.Creates? && metas.MetasValue? ==>
              r.userAgent == Some(metas.metas.detectedUserAgent)
              && (metas.metas.detectedIPAddress.Some? ==> r.ipAddress == metas.metas.detectedIPAddress.value)
              && (metas.metas.detectedIPAddress.None? ==> r.ipAddress == "")
    ensures r.Creates? && metas.DateValue? ==> r.ipAddress == "" && r.userAgent == None
  {
    if expiresAt.MetasValue? then Raises
    else
      var expiry := if expiresAt.DateValue? then Some(expiresAt.epoch) else None;
      match metas
      case MetasValue(m) => Creates(expiry, m.detectedIPAddress.GetOr(""), Some(m.detectedUserAgent))
      case DateValue(_) => Creates(expiry, "", None)
      case _ => Raises
  }

  /** Called in the interface's form, the mock builds exactly the record
      `MockAdapter.NewRecord` describes. */
  lemma InterfaceCallMatchesNewRecord(id: string, sessionData: Json.JsonObject, expiry: Option<int>,
                                      metas: Metas, now: int)
    ensures var r := MockCreate(if expiry.Some? then DateValue(expiry.value) else Null, MetasValue(metas));
            var s := MockAdapter.NewRecord(id, sessionData, expiry, metas, now);
            r.Creates? && r.expiresAtEpoch == s.expiresAtEpoch
            && Some(r.ipAddress) == s.metas.detectedIPAddress && r.userAgent == Some(s.metas.detectedUserAgent)
  {
  }

  /** An adapter call as the code makes it: `createSession` with its three
      argument positions as JavaScript values, or one of the other calls. */
  datatype WrittenCall =
    | WrittenCreate(sessionData: Json.JsonObject, expiresAt: JsArg, metas: JsArg)
    | AdapterCall(call: StoreCall)

  /** `Resolved` with the adapter calls recorded as written. */
  datatype ResolvedAsWritten = ResolvedAsWritten(
    session: Option<Session>, calls: seq<WrittenCall>, actions: seq<CookieAction>,
    store: map<string, Session>, created: bool)

  /** The calls of the model's trace, none of which is a create. */
  function AsAdapterCalls(cs: seq<StoreCall>): (r: seq<WrittenCall>)
    ensures |r| == |cs| && forall i :: 0 <= i < |cs| ==> r[i] == AdapterCall(cs[i])
  {
    if cs == [] then [] else [AdapterCall(cs[0])] + AsAdapterCalls(cs[1..])
  }

  /** The resolve hook as written: `createSession(initialSession, metas)`
      puts the metas object in the `expiresAt` position and leaves `metas`
      undefined; the call raises whenever the mock would on those arguments,
      and the hook then catches the error. */
  function ResolveAsWritten(options: PluginOptions, cookie: Option<string>, metas: Metas,
                            store: map<string, Session>, nextId: string, now: int, faults: Faults): ResolvedAsWritten
  {
    var call := WrittenCreate(options.initialSession, MetasValue(metas), Undefined);
    var raises := MockCreate(call.expiresAt, call.metas).Raises?;
    var o := Resolve(options, cookie, metas, store, nextId, now, faults.(createThrows := faults.createThrows || raises));
    ResolvedAsWritten(o.session, if cookie.None? then [call] else AsAdapterCalls(o.calls), o.actions, o.store, o.created)
  }

  /** As written, a request without a cookie makes the two-argument call and
      never gets a session from the in-memory adapter: the call raises,
      nothing is bound, no cookie is set, and the store is unchanged. Called
      with `null` for `expiresAt`, the same request is bound a new record
      that never expires. */
  lemma {:induction false} TwoArgumentCreateNeverBinds(options: PluginOptions, metas: Metas,
                                                      store: map<string, Session>, nextId: string, now: int)
    ensures MockCreate(MetasValue(metas), Undefined) == Raises
    ensures var o := ResolveAsWritten(options, None, metas, store, nextId, now, NoFaults);
            o.calls == [WrittenCreate(options.initialSession, MetasValue(metas), Undefined)]
            && o.session.None? && o.actions == [] && o.store == store && !o.created
    ensures MockCreate(Null, MetasValue(metas)).Creates?
    ensures var o := Resolve(options, None, metas, store, nextId, now, NoFaults);
            o.session.Some? && o.session.value.id == nextId && o.session.value.expiresAtEpoch == None
            && o.actions == [SetCookie(options.cookieName, nextId)]
  {
    NoCookieCreatesOnce(options, metas, store, nextId, now, NoFaults);
  }

  /** With a cookie, the bad call is never reached: as written and as
      intended, the hook binds, reads, sets and stores the same. */
  lemma CookieRequestsUnaffected(options: PluginOptions, cookie: string, metas: Metas,
                                 store: map<string, Session>, nextId: string, now: int, faults: Faults)
    ensures var w := ResolveAsWritten(options, Some(cookie), metas, store, nextId, now, faults);
            var o := Resolve(options, Some(cookie), metas, store, nextId, now, faults);
            w.session == o.session && w.calls == AsAdapterCalls(o.calls) && w.actions == o.actions
            && w.store == o.store && w.created == o.created
  {
  }
}
