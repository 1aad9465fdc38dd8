/**
 * `MockSessionAdapter` (src/adapters/mock.ts): the in-memory implementation of
 * the `ISessionStoreAdapter` contract of src/types.ts, a dictionary from id to
 * record plus a swappable id generator.
 *
 * A generator `() => string` is a stream of ids: `getUniqId(k)` is the id it
 * yields on its `k`-th call, and `idsDrawn` counts the calls made so far.
 * `Date.now()` is the `now` parameter. The dictionary is a map with the
 * semantics of own properties; what a plain JavaScript object does beyond that
 * is module `PlainObject`.
 */
module MockAdapter {
  import opened Wrappers
  import opened Json
  import opened Types
  import opened Serial

  /** The default generator, `generateUniqSerial`, over one nibble stream: the
      `k`-th id takes draws `15 * k` to `15 * k + 14`. */
  function SerialIds(random: nat -> Nibble): nat -> string
  {
    (k: nat) => GenerateUniqSerial(IdDraws(random, k))
  }

  /** The draws seen by the `k`-th default id. */
  function IdDraws(random: nat -> Nibble, k: nat): nat -> Nibble
  {
    (j: nat) => random(15 * k + j)
  }

  /** Each default id is a serial and consumes its own 15 draws and no other. */
  lemma SerialIdsUseOwnDraws(r1: nat -> Nibble, r2: nat -> Nibble, k: nat)
    requires forall j: nat :: 15 * k <= j < 15 * k + 15 ==> r1(j) == r2(j)
    ensures SerialShaped(SerialIds(r1)(k))
    ensures SerialIds(r1)(k) == SerialIds(r2)(k)
  {
    var d1, d2 := IdDraws(r1, k), IdDraws(r2, k);
    forall j: nat | j < 15 ensures d1(j) == d2(j) {
      assert d1(j) == r1(15 * k + j) && d2(j) == r2(15 * k + j);
    }
    SerialUsesFifteenDraws(d1, d2);
    assert SerialIds(r1)(k) == GenerateUniqSerial(d1);
  }

  /** The record `createSession` builds and stores. */
  function NewRecord(id: string, sessionData: JsonObject, expiresAt: Option<int>, metas: Metas, now: int): (s: Session)
    ensures s.id == id && s.data == sessionData
    ensures s.createdAtEpoch == now && s.updatedAtEpoch == now
    ensures s.expiresAtEpoch == expiresAt
    ensures s.metas.detectedUserAgent == metas.detectedUserAgent
    ensures s.metas.detectedIPAddress.Some?
    ensures metas.detectedIPAddress.Some? ==> s.metas.detectedIPAddress == metas.detectedIPAddress
    ensures metas.detectedIPAddress.None? ==> s.metas.detectedIPAddress == Some("")
  {
    Session(id, now, now, expiresAt, sessionData,
            Metas(Some(metas.detectedIPAddress.GetOr("")), metas.detectedUserAgent))
  }

  class MockSessionAdapter {
    var mockSessionStore: map<string, Session>
    var getUniqId: nat -> string
    var idsDrawn: nat

    /** A fresh adapter: an empty store and the default generator over `random`. */
    constructor (random: nat -> Nibble)
      ensures mockSessionStore == map[]
      ensures getUniqId == SerialIds(random) && idsDrawn == 0
    {
      mockSessionStore := map[];
      getUniqId := SerialIds(random);
      idsDrawn := 0;
    }

    /** The id the next `createSession` will use. */
    function NextId(): string
      reads this
    {
      getUniqId(idsDrawn)
    }

    /** Later creates take their ids from `uniqIdGenerator`, from its first one on. */
    method SetUniqIdGenerator(uniqIdGenerator: nat -> string)
      modifies this
      ensures getUniqId == uniqIdGenerator && idsDrawn == 0
      ensures mockSessionStore == old(mockSessionStore)
      ensures NextId() == uniqIdGenerator(0)
    {
      getUniqId := uniqIdGenerator;
      idsDrawn := 0;
    }

    /** Stores and returns a new record under the generator's next id. An
        existing entry under that id is overwritten. */
    method CreateSession(sessionData: JsonObject, expiresAt: Option<int>, metas: Metas, now: int) returns (session: Session)
      modifies this
      ensures session == NewRecord(old(NextId()), sessionData, expiresAt, metas, now)
      ensures mockSessionStore == old(mockSessionStore)[session.id := session]
      ensures getUniqId == old(getUniqId) && idsDrawn == old(idsDrawn) + 1
    {
      var sessionId := getUniqId(idsDrawn);
      idsDrawn := idsDrawn + 1;
      session := NewRecord(sessionId, sessionData, expiresAt, metas, now);
      mockSessionStore := mockSessionStore[sessionId := session];
    }

    /** The record stored under `sessionId`, or null; it never raises. */
    method ReadSessionById(sessionId: string) returns (session: Option<Session>)
      ensures session.Some? <==> sessionId in mockSessionStore
      ensures session.Some? ==> session.value == mockSessionStore[sessionId]
    {
      session := Lookup(mockSessionStore, sessionId);
    }

    /** Stores `session` under `sessionId`, whatever `session.id` says. */
    method UpdateSessionById(sessionId: string, session: Session) returns (ok: bool)
      modifies this
      ensures ok
      ensures mockSessionStore == old(mockSessionStore)[sessionId := session]
      ensures getUniqId == old(getUniqId) && idsDrawn == old(idsDrawn)
    {
      mockSessionStore := mockSessionStore[sessionId := session];
      ok := true;
    }

    /** Removes `sessionId`; succeeds whether or not it was present. */
    method DeleteSessionById(sessionId: string) returns (ok: bool)
      modifies this
      ensures ok
      ensures mockSessionStore == old(mockSessionStore) - {sessionId}
      ensures getUniqId == old(getUniqId) && idsDrawn == old(idsDrawn)
    {
      mockSessionStore := mockSessionStore - {sessionId};
      ok := true;
    }

    /** Empties the store. */
    method Clear()
      modifies this
      ensures mockSessionStore == map[]
      ensures getUniqId == old(getUniqId) && idsDrawn == old(idsDrawn)
    {
      mockSessionStore := map[];
    }
  }

  /** What a test does: create, then read the new id back. */
  method CreateThenRead(adapter: MockSessionAdapter, sessionData: JsonObject, expiresAt: Option<int>, metas: Metas, now: int)
    returns (created: Session, read: Option<Session>)
    modifies adapter
    ensures read == Some(created)
    ensures created.id == old(adapter.NextId()) && created.data == sessionData
    ensures created.createdAtEpoch == now && created.updatedAtEpoch == now
  {
    created := adapter.CreateSession(sessionData, expiresAt, metas, now);
    read := adapter.ReadSessionById(created.id);
  }

  /** Update then delete: only the named key changes, and a deleted key reads as null. */
  method UpdateThenDelete(adapter: MockSessionAdapter, key: string, session: Session, other: string)
    returns (afterUpdate: Option<Session>, afterDelete: Option<Session>)
    requires other != key
    modifies adapter
    ensures afterUpdate == Some(session) && afterDelete == None
    ensures other in old(adapter.mockSessionStore) <==> other in adapter.mockSessionStore
    ensures other in adapter.mockSessionStore ==> adapter.mockSessionStore[other] == old(adapter.mockSessionStore)[other]
  {
    var ok := adapter.UpdateSessionById(key, session);
    afterUpdate := adapter.ReadSessionById(key);
    ok := adapter.DeleteSessionById(key);
    afterDelete := adapter.ReadSessionById(key);
  }

  /** After `clear()` every read is null, and the generator is kept. */
  method ClearThenRead(adapter: MockSessionAdapter, sessionId: string) returns (read: Option<Session>)
    modifies adapter
    ensures read == None
    ensures adapter.NextId() == old(adapter.NextId())
  {
    adapter.Clear();
    read := adapter.ReadSessionById(sessionId);
  }

  /** Creating under a generated id keeps every record under its own id; an
      update does so when the key is the record's id, as the plugin's are. */
  lemma StoreOpsKeepWellKeyed(store: map<string, Session>, id: string, sessionData: JsonObject,
                              expiresAt: Option<int>, metas: Metas, now: int, s: Session, k: string)
    requires WellKeyed(store)
    ensures WellKeyed(store[id := NewRecord(id, sessionData, expiresAt, metas, now)])
    ensures s.id == k ==> WellKeyed(store[k := s])
    ensures WellKeyed(store - {k})
  {
  }
}
