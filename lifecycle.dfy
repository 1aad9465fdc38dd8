/**
 * The session lifecycle of src/pluginFactory.ts: the `preHandler` hook that
 * resolves a request's session, the `onSend` hook that persists it, and the
 * `destroy` capability attached to a bound session.
 *
 * Each hook is a method on `SessionPlugin` over an explicit `Request` and the
 * in-memory store adapter. What a hook does is also stated as a pure function
 * of the request and the store (`Resolve`, `Persist`, `DestroyOutcome`), and
 * the methods are proved to do exactly that; the lemmas are about those
 * functions. Response cookies are recorded as actions; which adapter calls
 * raise is a `Faults` parameter; `Date.now()` is the `now` parameter.
 */
module Lifecycle {
  import opened Wrappers
  import opened Json
  import opened Text
  import opened Types
  import opened Serial
  import opened CookieParse
  import opened MetasParsing
  import opened MockAdapter

  /** `reply.cookie(name, value)` and `reply.clearCookie(name)`. */
  datatype CookieAction = SetCookie(name: string, value: string) | ClearCookie(name: string)

  const NoFaults: Faults := Faults(false, false, false, false, false)

  /** What the resolve hook does: the session it binds (if any), the adapter
      calls it makes, the cookies it sets, the store afterwards, and whether
      the adapter created a record (and so drew an id). */
  datatype Resolved = Resolved(
    session: Option<Session>, calls: seq<StoreCall>, actions: seq<CookieAction>,
    store: map<string, Session>, created: bool)

  /** The resolve hook (src/pluginFactory.ts:56-132). Without a cookie it
      creates a session from `initialSession` and sets the cookie to its id.
      With one it extracts the id and, if the id passes the sentinel guard,
      binds whatever the adapter reads; a failed or empty read binds nothing. */
  function Resolve(options: PluginOptions, cookie: Option<string>, metas: Metas,
                   store: map<string, Session>, nextId: string, now: int, faults: Faults): Resolved
  {
    if cookie.None? then
      var call := CreateSessionCall(options.initialSession, None, metas);
      if faults.createThrows then Resolved(None, [call], [], store, false)
      else
        var s := NewRecord(nextId, options.initialSession, None, metas, now);
        Resolved(Some(s), [call], [SetCookie(options.cookieName, s.id)], store[s.id := s], true)
    else
      var id := ResolveCookieId(cookie.value);
      if !PassesSentinelGuard(id) then Resolved(None, [], [], store, false)
      else if faults.readThrows then Resolved(None, [ReadSessionByIdCall(id)], [], store, false)
      else Resolved(Lookup(store, id), [ReadSessionByIdCall(id)], [], store, false)
  }

  /** What the persist hook does: its adapter calls and the store afterwards. */
  datatype Persisted = Persisted(calls: seq<StoreCall>, store: map<string, Session>)

  /** `JSON.stringify` of a record's `data`, or of `undefined` for no record. */
  function StoredDataText(prev: Option<Session>): Option<seq<Token>>
  {
    StringifyData(if prev.Some? then Some(prev.value.data) else None)
  }

  /** The persist hook's diff: `JSON.stringify` of the bound data against
      that of the stored record's data. */
  predicate DataChanged(session: Session, prev: Option<Session>)
  {
    StringifyData(Some(session.data)) != StoredDataText(prev)
  }

  /** The record the persist hook writes: the bound session under the cookie's
      id, stamped `now`. */
  function NextSession(session: Session, id: string, now: int): Session
  {
    session.(id := id, updatedAtEpoch := now)
  }

  /** The persist hook (src/pluginFactory.ts:134-211). With a bound session and
      a cookie id that passes the guard, it reads the stored record and writes
      the session back only if the serialised `data` differs. */
  function Persist(session: Option<Session>, cookie: Option<string>,
                   store: map<string, Session>, now: int, faults: Faults): Persisted
  {
    if session.None? then Persisted([], store)
    else
      var sessionId := PersistCookieId(cookie);
      if sessionId.None? || !PassesSentinelGuard(sessionId.value) then Persisted([], store)
      else
        var id := sessionId.value;
        var prev := if faults.readThrows then None else Lookup(store, id);
        if DataChanged(session.value, prev) then
          var next := NextSession(session.value, id, now);
          Persisted([ReadSessionByIdCall(id), UpdateSessionByIdCall(id, next)],
                    if faults.updateThrows then store else store[id := next])
        else Persisted([ReadSessionByIdCall(id)], store)
  }

  /** What `destroy()` does: its result, the bound session afterwards, its
      adapter calls, its cookie actions and the store afterwards. */
  datatype Destroyed = Destroyed(
    ok: bool, session: Option<Session>, calls: seq<StoreCall>, actions: seq<CookieAction>,
    store: map<string, Session>)

  /** `destroy()` (src/pluginFactory.ts:38-53): delete first; unless that
      raises, reset `data` to `{}` and clear the cookie unless the reply went
      out. A delete that returns false is taken as done. */
  function DestroyOutcome(session: Option<Session>, replySent: bool, cookieName: string,
                          store: map<string, Session>, faults: Faults): Destroyed
  {
    if session.None? then Destroyed(false, None, [], [], store)
    else
      var call := DeleteSessionByIdCall(session.value.id);
      if faults.deleteThrows then Destroyed(false, session, [call], [], store)
      else
        Destroyed(true, Some(session.value.(data := [])), [call],
                  if replySent then [] else [ClearCookie(cookieName)],
                  if faults.deleteFails then store else store - {session.value.id})
  }

  /** A request as the hooks see it: the session cookie, the client's
      addresses and user agent, and what the hooks record on it. */
  class Request {
    const cookie: Option<string>
    const ips: Option<seq<string>>
    const ip: string
    const userAgent: Option<string>
    var session: Option<Session>
    var replySent: bool
    var cookieActions: seq<CookieAction>
    /** The adapter calls made for this request, in order. */
    ghost var storeCalls: seq<StoreCall>

    constructor (cookie: Option<string>, ips: Option<seq<string>>, ip: string, userAgent: Option<string>)
      ensures this.cookie == cookie && this.ips == ips && this.ip == ip && this.userAgent == userAgent
      ensures session == None && !replySent && cookieActions == [] && storeCalls == []
    {
      this.cookie := cookie;
      this.ips := ips;
      this.ip := ip;
      this.userAgent := userAgent;
      session := None;
      replySent := false;
      cookieActions := [];
      storeCalls := [];
    }

    /** The route handler assigns `request.session.data`. */
    method AssignData(data: JsonObject)
      modifies this
      ensures session == if old(session).Some? then Some(old(session).value.(data := data)) else None
      ensures replySent == old(replySent) && cookieActions == old(cookieActions) && storeCalls == old(storeCalls)
    {
      if session.Some? {
        session := Some(session.value.(data := data));
      }
    }

    /** The reply goes out. */
    method Send()
      modifies this
      ensures replySent
      ensures session == old(session) && cookieActions == old(cookieActions) && storeCalls == old(storeCalls)
    {
      replySent := true;
    }
  }

  class SessionPlugin {
    const options: PluginOptions
    const storeAdapter: MockSessionAdapter

    constructor (options: PluginOptions, storeAdapter: MockSessionAdapter)
      ensures this.options == options && this.storeAdapter == storeAdapter
    {
      this.options := options;
      this.storeAdapter := storeAdapter;
    }

    /** The `preHandler` hook. */
    method PreHandler(request: Request, now: int, faults: Faults)
      modifies request, storeAdapter
      ensures var o := Resolve(options, request.cookie, RequestMetas(request.ips, request.ip, request.userAgent),
                               old(storeAdapter.mockSessionStore), old(storeAdapter.NextId()), now, faults);
              && request.session == (if o.session.Some? then o.session else old(request.session))
              && request.cookieActions == old(request.cookieActions) + o.actions
              && request.storeCalls == old(request.storeCalls) + o.calls
              && storeAdapter.mockSessionStore == o.store
              && storeAdapter.idsDrawn == old(storeAdapter.idsDrawn) + (if o.created then 1 else 0)
      ensures request.replySent == old(request.replySent)
      ensures storeAdapter.getUniqId == old(storeAdapter.getUniqId)
    {
      var session: Option<Session> := None;
      var sessionId: Option<string> := None;
      var metas := RequestMetas(request.ips, request.ip, request.userAgent);

      if request.cookie.None? {
        request.storeCalls := request.storeCalls + [CreateSessionCall(options.initialSession, None, metas)];
        if !faults.createThrows {
          var created := storeAdapter.CreateSession(options.initialSession, None, metas, now);
          session := Some(created);
          sessionId := Some(created.id);
          request.cookieActions := request.cookieActions + [SetCookie(options.cookieName, created.id)];
        }
      } else {
        sessionId := Some(ResolveCookieId(request.cookie.value));
      }

      if session.None? && sessionId.Some? && PassesSentinelGuard(sessionId.value) {
        request.storeCalls := request.storeCalls + [ReadSessionByIdCall(sessionId.value)];
        if faults.readThrows {
          session := None;
        } else {
          session := storeAdapter.ReadSessionById(sessionId.value);
        }
      }

      if session.Some? {
        request.session := session;
      }
    }

    /** The `onSend` hook. */
    method OnSend(request: Request, now: int, faults: Faults)
      modifies request, storeAdapter
      ensures var o := Persist(old(request.session), request.cookie, old(storeAdapter.mockSessionStore), now, faults);
              && request.storeCalls == old(request.storeCalls) + o.calls
              && storeAdapter.mockSessionStore == o.store
      ensures request.session == old(request.session) && request.replySent == old(request.replySent)
      ensures request.cookieActions == old(request.cookieActions)
      ensures storeAdapter.getUniqId == old(storeAdapter.getUniqId) && storeAdapter.idsDrawn == old(storeAdapter.idsDrawn)
    {
      if request.session.None? {
        return;
      }
      var sessionData := request.session.value;
      var sessionId := PersistCookieId(request.cookie);

      if sessionId.Some? && PassesSentinelGuard(sessionId.value) {
        var id := sessionId.value;
        var prevData: Option<Session> := None;
        request.storeCalls := request.storeCalls + [ReadSessionByIdCall(id)];
        if !faults.readThrows {
          prevData := storeAdapter.ReadSessionById(id);
        }
        var nextSession := NextSession(sessionData, id, now);
        if DataChanged(sessionData, prevData) {
          request.storeCalls := request.storeCalls + [UpdateSessionByIdCall(id, nextSession)];
          if !faults.updateThrows {
            var ok := storeAdapter.UpdateSessionById(id, nextSession);
          }
        }
      }
    }

    /** `request.session.destroy()`. */
    method Destroy(request: Request, faults: Faults) returns (ok: bool)
      modifies request, storeAdapter
      ensures var o := DestroyOutcome(old(request.session), old(request.replySent), options.cookieName,
                                      old(storeAdapter.mockSessionStore), faults);
              && ok == o.ok && request.session == o.session
              && request.cookieActions == old(request.cookieActions) + o.actions
              && request.storeCalls == old(request.storeCalls) + o.calls
              && storeAdapter.mockSessionStore == o.store
      ensures request.replySent == old(request.replySent)
      ensures storeAdapter.getUniqId == old(storeAdapter.getUniqId) && storeAdapter.idsDrawn == old(storeAdapter.idsDrawn)
    {
      if request.session.None? {
        return false;
      }
      request.storeCalls := request.storeCalls + [DeleteSessionByIdCall(request.session.value.id)];
      if faults.deleteThrows {
        return false;
      }
      if !faults.deleteFails {
        var deleted := storeAdapter.DeleteSessionById(request.session.value.id);
      }
      request.session := Some(request.session.value.(data := []));
      if !request.replySent {
        request.cookieActions := request.cookieActions + [ClearCookie(options.cookieName)];
      }
      ok := true;
    }
  }

  /** A request without a cookie calls `createSession` exactly once, with the
      initial data; on success it binds the new record and sets the cookie to
      its id, on failure it binds nothing and sets nothing. */
  lemma NoCookieCreatesOnce(options: PluginOptions, metas: Metas, store: map<string, Session>,
                            nextId: string, now: int, faults: Faults)
    ensures var o := Resolve(options, None, metas, store, nextId, now, faults);
            && o.calls == [CreateSessionCall(options.initialSession, None, metas)]
            && (o.session.Some? <==> !faults.createThrows)
            && (o.session.Some? ==>
                  o.session.value.id == nextId && o.session.value.data == options.initialSession
                  && o.actions == [SetCookie(options.cookieName, nextId)]
                  && Lookup(o.store, nextId) == o.session)
            && (o.session.None? ==> o.actions == [] && o.store == store)
  {
  }

  /** A request with a cookie never creates and never sets a cookie; it reads
      at most once, and what it binds is exactly the stored record under the
      extracted id: no fallback session. Conversely, a guarded id whose read
      does not raise binds whatever is stored under it. */
  lemma CookieNeverCreates(options: PluginOptions, cookie: string, metas: Metas, store: map<string, Session>,
                           nextId: string, now: int, faults: Faults)
    ensures var o := Resolve(options, Some(cookie), metas, store, nextId, now, faults);
            && !o.created && o.actions == [] && o.store == store
            && (forall c :: c in o.calls ==> c == ReadSessionByIdCall(ResolveCookieId(cookie)))
            && |o.calls| <= 1
            && (o.session.Some? ==> !faults.readThrows && o.session == Lookup(store, ResolveCookieId(cookie)))
            && (Lookup(store, ResolveCookieId(cookie)).None? ==> o.session.None?)
            && (PassesSentinelGuard(ResolveCookieId(cookie)) && !faults.readThrows ==>
                  o.session == Lookup(store, ResolveCookieId(cookie)))
  {
  }

  /** Resolve reads the store exactly when a cookie is present and its id
      passes the sentinel guard. */
  lemma ResolveReadsIffGuarded(options: PluginOptions, cookie: Option<string>, metas: Metas,
                               store: map<string, Session>, nextId: string, now: int, faults: Faults)
    ensures var o := Resolve(options, cookie, metas, store, nextId, now, faults);
            (exists c :: c in o.calls && c.ReadSessionByIdCall?)
            <==> cookie.Some? && PassesSentinelGuard(ResolveCookieId(cookie.value))
  {
    var o := Resolve(options, cookie, metas, store, nextId, now, faults);
    if cookie.Some? && PassesSentinelGuard(ResolveCookieId(cookie.value)) {
      assert o.calls[0] in o.calls;
    }
  }

  /** Persist touches the store (reads, and perhaps writes) exactly when a
      session is bound and the cookie's id exists and passes the guard. */
  lemma PersistReadsIffGuarded(session: Option<Session>, cookie: Option<string>,
                               store: map<string, Session>, now: int, faults: Faults)
    ensures var o := Persist(session, cookie, store, now, faults);
            (o.calls != []) <==> session.Some? && PersistCookieId(cookie).Some? && PassesSentinelGuard(PersistCookieId(cookie).value)
    ensures var o := Persist(session, cookie, store, now, faults);
            o.calls != [] ==> o.calls[0] == ReadSessionByIdCall(PersistCookieId(cookie).value)
  {
  }

  /** Without a cookie, persist reads and writes nothing: the absent cookie
      parses as "undefined", which the guard rejects. */
  lemma {:induction false} PersistWithoutCookieDoesNothing(session: Option<Session>, store: map<string, Session>,
                                                           now: int, faults: Faults)
    ensures Persist(session, None, store, now, faults) == Persisted([], store)
  {
    AbsentCookieReadsUndefined();
    TrimUnchanged("undefined");
  }

  /** Write avoidance: persist calls `updateSessionById` exactly when the
      bound session's `data` differs, up to `undefined` members, from the data
      of the record it just read; a missing or unreadable record always
      triggers the write. */
  lemma {:induction false} WriteAvoidance(session: Option<Session>, cookie: Option<string>,
                                          store: map<string, Session>, now: int, faults: Faults)
    ensures var o := Persist(session, cookie, store, now, faults);
            var id := PersistCookieId(cookie);
            var prev := if faults.readThrows || id.None? then None else Lookup(store, id.value);
            (exists c :: c in o.calls && c.UpdateSessionByIdCall?)
            <==> (session.Some? && id.Some? && PassesSentinelGuard(id.value)
                  && (prev.None? || Canon(JObject(session.value.data)) != Canon(JObject(prev.value.data))))
  {
    var o := Persist(session, cookie, store, now, faults);
    var id := PersistCookieId(cookie);
    if session.Some? && id.Some? && PassesSentinelGuard(id.value) {
      var prev := if faults.readThrows then None else Lookup(store, id.value);
      StringifyDataEqualIff(Some(session.value.data), if prev.Some? then Some(prev.value.data) else None);
      if |o.calls| == 2 {
        assert o.calls[1] in o.calls;
      }
    }
  }

  /** The written record takes its id from the cookie, not from `session.id`,
      is stamped `now`, and copies every other field; only that key changes,
      and a failed write changes nothing. */
  lemma WrittenRecord(session: Option<Session>, cookie: Option<string>,
                      store: map<string, Session>, now: int, faults: Faults)
    ensures var o := Persist(session, cookie, store, now, faults);
            forall c :: c in o.calls && c.UpdateSessionByIdCall? ==>
              && session.Some? && PersistCookieId(cookie) == Some(c.id)
              && c.session.id == c.id && c.session.updatedAtEpoch == now
              && c.session.createdAtEpoch == session.value.createdAtEpoch
              && c.session.expiresAtEpoch == session.value.expiresAtEpoch
              && c.session.data == session.value.data && c.session.metas == session.value.metas
              && o.store == (if faults.updateThrows then store else store[c.id := c.session])
    ensures var o := Persist(session, cookie, store, now, faults);
            (forall c :: c in o.calls ==> !c.UpdateSessionByIdCall?) ==> o.store == store
  {
    var o := Persist(session, cookie, store, now, faults);
    if |o.calls| == 2 {
      assert o.calls[1] in o.calls;
    }
  }

  /** A handler that changes only `expiresAtEpoch` (to `-1` or anything
      else) has that change dropped: the stored data read back is unchanged,
      so persist does not write. */
  lemma {:induction false} ExpiryChangeAloneNotWritten(session: Session, expiresAt: Option<int>, cookie: Option<string>,
                                                       store: map<string, Session>, now: int, faults: Faults)
    requires PersistCookieId(cookie).Some? && PersistCookieId(cookie).value in store
    requires store[PersistCookieId(cookie).value].data == session.data
    ensures !faults.readThrows ==>
              Persist(Some(session.(expiresAtEpoch := expiresAt)), cookie, store, now, faults).store == store
  {
    var s := session.(expiresAtEpoch := expiresAt);
    WriteAvoidance(Some(s), cookie, store, now, faults);
    WrittenRecord(Some(s), cookie, store, now, faults);
  }

  /** The hooks and `destroy` keep every record under its own id. */
  lemma ResolveKeepsWellKeyed(options: PluginOptions, cookie: Option<string>, metas: Metas,
                              store: map<string, Session>, nextId: string, now: int, faults: Faults)
    requires WellKeyed(store)
    ensures WellKeyed(Resolve(options, cookie, metas, store, nextId, now, faults).store)
  {
    var next := NewRecord(nextId, options.initialSession, None, metas, now);
    StoreOpsKeepWellKeyed(store, nextId, options.initialSession, None, metas, now, next, nextId);
  }

  lemma PersistKeepsWellKeyed(session: Option<Session>, cookie: Option<string>,
                              store: map<string, Session>, now: int, faults: Faults)
    requires WellKeyed(store)
    ensures WellKeyed(Persist(session, cookie, store, now, faults).store)
  {
    if session.Some? && PersistCookieId(cookie).Some? {
      var id := PersistCookieId(cookie).value;
      var next := NextSession(session.value, id, now);
      StoreOpsKeepWellKeyed(store, id, [], None, Metas(None, ""), now, next, id);
    }
  }

  lemma DestroyKeepsWellKeyed(session: Option<Session>, replySent: bool, cookieName: string,
                              store: map<string, Session>, faults: Faults)
    requires WellKeyed(store)
    ensures WellKeyed(DestroyOutcome(session, replySent, cookieName, store, faults).store)
  {
  }

  /** `destroy()` without a bound session returns false and touches nothing;
      a delete that raises makes it return false and leave `data` as it was.
      Otherwise it returns true, empties `data` and keeps every other field,
      and clears the cookie exactly when the reply has not been sent; the
      store loses exactly the session's id, unless the delete returned false,
      in which case the store keeps it. */
  lemma DestroyCases(session: Option<Session>, replySent: bool, cookieName: string,
                     store: map<string, Session>, faults: Faults)
    ensures var o := DestroyOutcome(session, replySent, cookieName, store, faults);
            && (session.None? ==> !o.ok && o.calls == [] && o.actions == [] && o.store == store && o.session == None)
            && (session.Some? ==> o.calls == [DeleteSessionByIdCall(session.value.id)])
            && (session.Some? && faults.deleteThrows ==> !o.ok && o.session == session && o.actions == [] && o.store == store)
            && (session.Some? && !faults.deleteThrows ==>
                  && o.ok && o.session == Some(session.value.(data := []))
                  && (o.actions == [ClearCookie(cookieName)] <==> !replySent)
                  && (o.actions == [] <==> replySent))
            && (session.Some? && !faults.deleteThrows && !faults.deleteFails ==>
                  o.store == store - {session.value.id})
            && (session.Some? && !faults.deleteThrows && faults.deleteFails ==> o.store == store)
  {
  }

  /** The id of a generated session can be carried by a cookie: it is
      extracted whole by both hooks and passes the guard. */
  lemma GeneratedIdResolves(id: string)
    requires SerialShaped(id)
    ensures ResolveCookieId(id) == id && PersistCookieId(Some(id)) == Some(id) && PassesSentinelGuard(id)
  {
    SerialIdIsPlain(id);
    assert id !in Sentinels by { assert |id| == 18; }
    PlainIdResolves(id);
  }

  /** A generated id has no line terminator and no whitespace at its ends. */
  lemma SerialIdIsPlain(id: string)
    requires SerialShaped(id)
    ensures NoLineTerminator(id) && !IsWhitespace(id[0]) && !IsWhitespace(id[|id| - 1])
  {
    forall i | 0 <= i < |id| ensures !IsLineTerminator(id[i]) && !IsWhitespace(id[i]) {
      SerialCharIsPlain(id[i]);
    }
  }

  /** Serial characters are neither whitespace nor line terminators. */
  lemma SerialCharIsPlain(c: char)
    requires IsLowerHex(c) || c == '-'
    ensures !IsLineTerminator(c) && !IsWhitespace(c)
  {
  }

  /** An id with no line terminator, no whitespace at its ends and not itself
      a sentinel is carried through both hooks unchanged and passes the guard. */
  lemma PlainIdResolves(id: string)
    requires NoLineTerminator(id) && id != [] && !IsWhitespace(id[0]) && !IsWhitespace(id[|id| - 1])
    requires id !in Sentinels
    ensures ResolveCookieId(id) == id && PersistCookieId(Some(id)) == Some(id) && PassesSentinelGuard(id)
  {
    WholeCookieIsId(id);
    SentinelGuardCases(id);
  }

  /** One request without a cookie creates a session; a later request whose
      cookie holds that id binds the very same record. */
  lemma {:induction false} CreatedSessionResolvesLater(options: PluginOptions, metas1: Metas, metas2: Metas,
                                                       store: map<string, Session>, nextId: string,
                                                       nextId2: string, now1: int, now2: int)
    requires SerialShaped(nextId)
    ensures var first := Resolve(options, None, metas1, store, nextId, now1, NoFaults);
            var second := Resolve(options, Some(nextId), metas2, first.store, nextId2, now2, NoFaults);
            first.actions == [SetCookie(options.cookieName, nextId)]
            && second.session.Some? && second.session == first.session
  {
    GeneratedIdResolves(nextId);
  }

  /** After a successful `destroy()` on a request whose cookie holds the
      session's id, persist finds no stored record and writes the session
      back, now with empty `data`: the destroyed id is stored again. */
  lemma {:induction false} DestroyThenPersistWritesBack(session: Session, cookieName: string,
                                                        store: map<string, Session>, now: int)
    requires NoLineTerminator(session.id) && PassesSentinelGuard(session.id)
    ensures var d := DestroyOutcome(Some(session), false, cookieName, store, NoFaults);
            var p := Persist(d.session, Some(session.id), d.store, now, NoFaults);
            && d.ok && session.id !in d.store
            && p.calls == [ReadSessionByIdCall(session.id), UpdateSessionByIdCall(session.id, session.(data := [], updatedAtEpoch := now))]
            && p.store == d.store[session.id := session.(data := [], updatedAtEpoch := now)]
  {
    WholeCookieIsId(session.id);
  }

  /** The cookie "a\nb" is looked up by resolve but never persisted. */
  lemma {:induction false} InteriorTerminatorNeverPersisted(session: Session, store: map<string, Session>,
                                                            now: int, faults: Faults)
    ensures Persist(Some(session), Some("a\nb"), store, now, faults) == Persisted([], store)
    ensures PassesSentinelGuard(ResolveCookieId("a\nb"))
  {
    InteriorTerminatorExample();
    assert !IsWhitespace("a\nb"[0]) && !IsWhitespace("a\nb"[2]);
    SentinelGuardCases("a\nb");
  }

  /** End to end on one adapter: a first request without a cookie gets a new
      session and its cookie, and the handler changes `data`. The reply does
      not persist that change: the request still has no cookie, so the store
      keeps the initial data. */
  method FirstVisit(plugin: SessionPlugin, data: JsonObject, ip: string, now: int) returns (request: Request)
    modifies plugin.storeAdapter
    ensures fresh(request)
    ensures request.session.Some? && request.session.value.id == old(plugin.storeAdapter.NextId())
    ensures request.cookieActions == [SetCookie(plugin.options.cookieName, old(plugin.storeAdapter.NextId()))]
    ensures request.storeCalls == [CreateSessionCall(plugin.options.initialSession, None,
                                                     RequestMetas(None, ip, None))]
    ensures var id := old(plugin.storeAdapter.NextId());
            id in plugin.storeAdapter.mockSessionStore
            && plugin.storeAdapter.mockSessionStore[id].data == plugin.options.initialSession
  {
    request := new Request(None, None, ip, None);
    plugin.PreHandler(request, now, NoFaults);
    request.AssignData(data);
    PersistWithoutCookieDoesNothing(request.session, plugin.storeAdapter.mockSessionStore, now, NoFaults);
    plugin.OnSend(request, now, NoFaults);
  }

  /** `destroy()` called after the reply went out: the record is deleted and
      `data` emptied, but no cookie is cleared. */
  method DestroyAfterSend(plugin: SessionPlugin, request: Request) returns (ok: bool)
    requires request.session.Some?
    modifies request, plugin.storeAdapter
    ensures ok && request.replySent
    ensures request.cookieActions == old(request.cookieActions)
    ensures request.session == Some(old(request.session).value.(data := []))
    ensures plugin.storeAdapter.mockSessionStore == old(plugin.storeAdapter.mockSessionStore) - {old(request.session).value.id}
  {
    request.Send();
    ok := plugin.Destroy(request, NoFaults);
  }
}
