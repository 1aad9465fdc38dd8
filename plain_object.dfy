/**
 * The in-memory adapter's dictionary is a plain object literal `{}`
 * (src/adapters/mock.ts:28, 137), and `readSessionById` reads it with
 * `this.mockSessionStore[sessionId]` (src/adapters/mock.ts:81). A plain
 * object inherits the members of `Object.prototype`, so a key that names one
 * of them reads as a non-null value although no record was ever stored.
 *
 * This module models that read as written. The rest of the model uses own
 * properties only (`Types.Lookup`, `MockSessionAdapter.ReadSessionById`).
 * Writes under the key "__proto__", which replace the object's prototype
 * instead of adding an entry, are not modelled.
 */
module PlainObject {
  import opened Wrappers
  import opened Text
  import opened Types
  import opened Serial
  import opened CookieParse
  import Lifecycle

  /** The members every plain object inherits from `Object.prototype`. */
  const ObjectPrototypeKeys: set<string> := {
    "constructor", "hasOwnProperty", "isPrototypeOf", "propertyIsEnumerable",
    "toLocaleString", "toString", "valueOf", "__proto__",
    "__defineGetter__", "__defineSetter__", "__lookupGetter__", "__lookupSetter__"
  }

  /** What `readSessionById` returns as written: null, a copy of a stored
      record, or, for an inherited member, a non-null object that carries the
      `destroy`/`reload`/`save` functions but no record field at all
      (spreading a function or `Object.prototype` copies nothing). */
  datatype ReadResult = Null | Record(session: Session) | Phantom

  /** `this.mockSessionStore[sessionId]`, then the `== null` test. */
  function ReadSessionByIdAsWritten(store: map<string, Session>, sessionId: string): (r: ReadResult)
    ensures r.Record? <==> sessionId in store
    ensures r.Record? ==> r.session == store[sessionId]
    ensures r.Phantom? <==> sessionId !in store && sessionId in ObjectPrototypeKeys
  {
    if sessionId in store then Record(store[sessionId])
    else if sessionId in ObjectPrototypeKeys then Phantom
    else Null
  }

  /** Off the inherited names, the read as written is the own-property read. */
  lemma AsWrittenAgreesOffPrototype(store: map<string, Session>, sessionId: string)
    requires sessionId !in ObjectPrototypeKeys
    ensures ReadSessionByIdAsWritten(store, sessionId).Null? <==> Lookup(store, sessionId).None?
    ensures Lookup(store, sessionId).Some? ==>
              ReadSessionByIdAsWritten(store, sessionId) == Record(Lookup(store, sessionId).value)
  {
  }

  /** Generated ids never collide with an inherited name: every one of those
      has a length other than 18. */
  lemma SerialIdsAreNotPrototypeKeys(id: string)
    requires SerialShaped(id)
    ensures id !in ObjectPrototypeKeys
  {
  }

  /** What the resolve hook binds for a request with a cookie: nothing, a
      stored record, or a phantom. */
  datatype Binding = Unbound | Bound(session: Session) | BoundPhantom

  /** The cookie branch of the resolve hook over the read as written: the id
      is extracted and guarded as in `Lifecycle.Resolve`, and any non-null
      read result is bound (src/pluginFactory.ts:118). */
  function ResolveCookieAsWritten(cookie: string, store: map<string, Session>, faults: Faults): (b: Binding)
    ensures b.Bound? ==> ResolveCookieId(cookie) in store && b.session == store[ResolveCookieId(cookie)]
    ensures b.BoundPhantom? <==> PassesSentinelGuard(ResolveCookieId(cookie)) && !faults.readThrows
                                 && ResolveCookieId(cookie) !in store && ResolveCookieId(cookie) in ObjectPrototypeKeys
  {
    var id := ResolveCookieId(cookie);
    if !PassesSentinelGuard(id) || faults.readThrows then Unbound
    else match ReadSessionByIdAsWritten(store, id)
      case Null => Unbound
      case Record(s) => Bound(s)
      case Phantom => BoundPhantom
  }

  /** Off the inherited names, the hook as written binds exactly what
      `Lifecycle.Resolve` binds. */
  lemma ResolveAsWrittenAgreesOffPrototype(options: PluginOptions, cookie: string, metas: Metas,
                                           store: map<string, Session>, nextId: string, now: int, faults: Faults)
    requires ResolveCookieId(cookie) !in ObjectPrototypeKeys
    ensures var o := Lifecycle.Resolve(options, Some(cookie), metas, store, nextId, now, faults);
            var b := ResolveCookieAsWritten(cookie, store, faults);
            (b.Unbound? <==> o.session.None?) && (b.Bound? ==> o.session == Some(b.session))
  {
  }

  /** The cookie "constructor": both hooks extract it whole and the sentinel
      guard lets it through, so resolve reads it; with no such record stored,
      the own-property read yields null, and `Lifecycle.Resolve` binds
      nothing, but the read as written yields a phantom, which the hook as
      written binds as the request's session. */
  lemma {:induction false} ConstructorCookieBindsPhantom(options: PluginOptions, metas: Metas,
                                                        store: map<string, Session>, nextId: string, now: int)
    requires forall k :: k in store ==> SerialShaped(k)
    ensures ResolveCookieId("constructor") == "constructor"
    ensures PassesSentinelGuard("constructor")
    ensures Lookup(store, "constructor") == None
    ensures ReadSessionByIdAsWritten(store, "constructor") == Phantom
    ensures Lifecycle.Resolve(options, Some("constructor"), metas, store, nextId, now, Lifecycle.NoFaults).session == None
    ensures ResolveCookieAsWritten("constructor", store, Lifecycle.NoFaults) == BoundPhantom
  {
    var c := "constructor";
    assert !SerialShaped(c) by { assert |c| == 11; }
    assert NoLineTerminator(c);
    assert !IsWhitespace(c[0]) && !IsWhitespace(c[|c| - 1]);
    assert c !in Sentinels by { assert |c| == 11; }
    Lifecycle.PlainIdResolves(c);
  }
}
