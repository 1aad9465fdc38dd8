# fastify-custom-session: a Dafny model of the session core

This project models the session protocol of the fastify-custom-session plugin and proves properties of the model:

- **The resolve hook** (`preHandler` in `src/pluginFactory.ts`). A request without a session cookie gets a new session from the store adapter, and the reply sets the cookie to its id. A request with a cookie has its id extracted and passed through a sentinel guard. The guarded id is then looked up in the store, and the record found, if any, is bound to the request.
- **The persist hook** (`onSend`). It extracts the id from the cookie again and re-reads the stored record. It writes the bound session back only when `JSON.stringify` of its `data` differs from that of the stored record's `data`.
- **`destroy()`** on a bound session. It deletes the record first. Unless the delete raises, it then resets `data` to `{}` and clears the cookie, and it clears the cookie only if the reply has not been sent. The boolean the delete returns is ignored, so a delete that reports failure with `false` still counts as done.
- **The in-memory store adapter** `MockSessionAdapter`, the reference implementation of the store contract.
- **The helpers**: cookie-to-id extraction, client metadata extraction, and the `xxxx-xxxx-xxx-xxxx` serial id generator.

Modules, one concept each:

| file | module | models |
|---|---|---|
| `wrappers.dfy` | `Wrappers` | `Option` (null/undefined) |
| `json.dfy` | `Json` | JSON values with ordered, optionally-undefined object members; `JSON.stringify` as a token sequence |
| `text.dfy` | `Text` | `String.prototype.trim` and the regular-expression line terminators |
| `types.dfy` | `Types` | `Session`, its metas, the options the hooks read, the adapter calls, faults |
| `serial.dfy` | `Serial` | `generateUniqSerial` over an abstract stream of nibbles 0..15 |
| `cookie_parse.dfy` | `CookieParse` | `parseSessionIdFromCookieData`, the inline cookie patterns, the sentinel guard |
| `metas.dfy` | `MetasParsing` | `parseSessionMetasFromRequest` and the resolve hook's inline copy |
| `mock_adapter.dfy` | `MockAdapter` | `MockSessionAdapter` as a class over `map<string, Session>` |
| `lifecycle.dfy` | `Lifecycle` | the two hooks and `destroy` as methods on `SessionPlugin` and `Request`, each proved equal to a pure function (`Resolve`, `Persist`, `DestroyOutcome`) |
| `plain_object.dfy` | `PlainObject` | the adapter's read on a plain JavaScript object, which inherits `Object.prototype` |
| `create_call.dfy` | `CreateCall` | the resolve hook's two-argument `createSession` call, as JavaScript binds it |

Behaviours of the code that the model makes explicit:

- **JSON comparison.** Object members are ordered and a member may be undefined. Stringify output is equal exactly when the values are equal once undefined members are dropped (`Json.StringifyEqualIff`). Write avoidance is therefore a structural comparison.
- **Inline cookie patterns.** The hooks use `^(.*)$` as the unsigned pattern. So a cookie without a line terminator is its own id, `.signature` suffix included. The signed branch runs only for a cookie that starts with a line terminator, and it then drops the last character.
- **Absent cookie in the persist hook.** The persist hook passes an absent cookie to `exec`, which turns `undefined` into the text `"undefined"`; the guard then rejects it. On a first visit the handler's changes to `data` are therefore never written (`Lifecycle.FirstVisit`).
- **Destroy then persist.** After a successful `destroy()` on a request whose cookie holds the id, the persist hook finds no record and writes the session back with empty `data` (`Lifecycle.DestroyThenPersistWritesBack`).
- **The two-argument create.** The resolve hook passes the metas object where `expiresAt` belongs, and the in-memory adapter then raises. The rest of the model uses the interface's form; `CreateCall` models the call as written (see Findings).
- **Prototype keys.** A cookie naming an `Object.prototype` member, such as `constructor`, passes the guard. Reading it from the plain-object store yields a non-null phantom session (see Findings).

Other files of the repository describe behaviour that the code of the core does not have; the model follows the code:

- The `ttl` option (src/types.ts:129-134) is never read, so it gives no session an expiry and no cookie a max-age.
- The `getUniqId` option (src/types.ts:153-157) is never read, so the adapter's own generator is used.
- A session found expired on read is deleted and recreated (tests/customSessionPlugin.test.ts:264-358); the code never compares `expiresAtEpoch` with the clock.
- Setting `expiresAtEpoch` to `-1` expires the session (tests/customSessionPlugin.test.ts:541-619); the code gives `-1` no meaning, and persist writes `expiresAtEpoch` only together with a change to `data`, so a change to it alone is never stored (`Lifecycle.ExpiryChangeAloneNotWritten`).
- The signed pattern's second group is meant as a signature (src/pluginFactory.ts:94); it is never checked, and the unsigned pattern, tried first, already takes the signature as part of the id.

## Model

| member | source | states |
|---|---|---|
| Json.StringifyEqualIff | src/pluginFactory.ts:196-199 | two JSON values serialise to the same text exactly when they are equal after dropping undefined object members |
| Json.StringifyDataEqualIff | src/pluginFactory.ts:188-199 | the persist hook's two serialisations are equal exactly when both are `undefined`, or both data objects are equal after dropping undefined members |
| Json.StringifyPrefixFree | src/pluginFactory.ts:196-197 | serialisation is injective on canonical values and no serialisation is a proper prefix of another |
| Json.StringifyCanon | src/pluginFactory.ts:196-197 | undefined members leave no trace in the serialisation |
| Json.CanonIsCanonical | src/types.ts:16-34 | dropping undefined members yields a value with no undefined member |
| Json.Stringify | src/pluginFactory.ts:196-197 | `JSON.stringify` of a defined value; its properties are stated by `Json.StringifyEqualIff`, `Json.StringifyCanon` and `Json.StringifyPrefixFree` |
| Text.TrimSpec | src/pluginFactory.ts:105-108 | `trim` returns the infix between leading and trailing whitespace, and the result neither starts nor ends with whitespace |
| Text.TrimEmptyIff | src/helpers/parseSessionMetasFromRequest.ts:15-16 | `s.trim() === ""` exactly when `s` is whitespace only |
| Text.TrimUnchanged | src/pluginFactory.ts:105-108 | a string with no whitespace at either end is its own trim |
| Text.Trim | src/pluginFactory.ts:105-108 | `String.prototype.trim`; its properties are stated by `Text.TrimSpec`, `Text.TrimEmptyIff` and `Text.TrimUnchanged` |
| Serial.GenerateUniqSerial | src/serial.ts:1-6 | 18 characters; dashes at 4, 9 and 13; a lower-case hexadecimal digit everywhere else |
| Serial.HexDigit | src/serial.ts:3-4 | `r.toString(16)` of a nibble is a lower-case hexadecimal digit |
| Serial.ReplaceX | src/serial.ts:2 | replacing the placeholders keeps the template's length |
| Serial.XRun | src/serial.ts:2-5 | a run of `k` placeholders consumes the next `k` draws, in order |
| Serial.SerialLayout | src/serial.ts:2-5 | the serial is the first 15 draws in order, grouped 4-4-3-4 and joined by dashes |
| Serial.SerialUsesFifteenDraws | src/serial.ts:2-5 | two nibble streams that agree on their first 15 draws give the same serial |
| CookieParse.ParseSessionIdFromCookieData | src/helpers/parseSessionIdFromCookieData.ts:9-21 | the unsigned group wins even if the signed pattern also matches; otherwise the signed group, whose signature is ignored; otherwise the input unchanged |
| CookieParse.MatchUnsigned | src/pluginFactory.ts:81 | `^(.*)$` matches exactly the strings without a line terminator, with the whole string as group |
| CookieParse.MatchSigned | src/pluginFactory.ts:82 | `^([^.].*).(.*)$` matches exactly when some split exists, and its group is the longest split prefix |
| CookieParse.ResolveCookieId | src/pluginFactory.ts:81-99 | the resolve hook's id extraction; its properties are stated by `CookieParse.WholeCookieIsId`, `CookieParse.SignedBranchOnlyAfterLeadingTerminator`, `CookieParse.HooksDisagreeWithoutMatch` and `CookieParse.HooksAgreeOnMatch` |
| CookieParse.PersistCookieId | src/pluginFactory.ts:140-161 | the persist hook finds an id exactly when one of the two patterns matches the cookie text |
| CookieParse.WholeCookieIsId | src/pluginFactory.ts:81-89 | with the inline patterns, both hooks take a cookie without a line terminator whole, signature suffix included |
| CookieParse.SignedBranchOnlyAfterLeadingTerminator | src/pluginFactory.ts:81-97 | the signed branch runs exactly when the cookie starts with a line terminator and has no other |
| CookieParse.HooksDisagreeWithoutMatch | src/pluginFactory.ts:159-161 | where neither pattern matches, resolve uses the raw cookie and persist finds no id |
| CookieParse.HooksAgreeOnMatch | src/pluginFactory.ts:143-158 | where a pattern matches, both hooks extract the same id |
| CookieParse.AbsentCookieReadsUndefined | src/pluginFactory.ts:140-150 | an absent cookie parses, in the persist hook, as the id "undefined" |
| CookieParse.InteriorTerminatorExample | src/pluginFactory.ts:81-99 | "a\nb" is its own id in resolve and has no id in persist |
| CookieParse.SentinelGuardCases | src/pluginFactory.ts:102-109 | blank ids fail the guard; an id without whitespace at its ends passes exactly when it is not "", "undefined", "null" or "__proto__" |
| CookieParse.PassesSentinelGuard | src/pluginFactory.ts:102-109 | the guard on the trimmed id used by both hooks (also src/pluginFactory.ts:163-168); its cases are stated by `CookieParse.SentinelGuardCases` |
| MetasParsing.FilterLoopback | src/helpers/parseSessionMetasFromRequest.ts:7-9 | the result holds exactly the addresses other than "127.0.0.1", is empty exactly when every address is the loopback, and starts with the first other address |
| MetasParsing.DetectedIPAddress | src/helpers/parseSessionMetasFromRequest.ts:7-12 | the address is never "127.0.0.1"; it is the first candidate that is not the loopback, and undefined exactly when there is none |
| MetasParsing.DetectedUserAgent | src/helpers/parseSessionMetasFromRequest.ts:14-18 | undefined exactly when the header is absent or whitespace only; otherwise the header untrimmed |
| MetasParsing.ParseSessionMetasFromRequest | src/helpers/parseSessionMetasFromRequest.ts:3-24 | the helper's result pairs `MetasParsing.DetectedIPAddress` and `MetasParsing.DetectedUserAgent`, whose contracts state its fields; `MetasParsing.InlineMetasVersusHelper` compares it with the hook's inline copy |
| MetasParsing.RequestMetas | src/pluginFactory.ts:61-66 | the same address as the helper; the user agent is never empty, and an absent or empty header becomes "<not-set>" |
| MetasParsing.InlineMetasVersusHelper | src/pluginFactory.ts:61-66 | the inline metas agree with the helper on the address, and on the user agent wherever the helper finds one; " " is kept inline and dropped by the helper |
| MetasParsing.EmptyProxyListNoFallback | src/helpers/parseSessionMetasFromRequest.ts:7 | a present but empty `ips` list yields no address and does not fall back to `ip` |
| MetasParsing.Ipv6LoopbackKept | src/helpers/parseSessionMetasFromRequest.ts:7-9 | "::1" is kept, alone or after a filtered "127.0.0.1" |
| Types.Lookup | src/types.ts:91-95 | a read yields a session exactly when the id is stored, and then the stored one |
| MockAdapter.SerialIdsUseOwnDraws | src/adapters/mock.ts:25 | each id of the default generator is a serial that depends only on its own 15 draws |
| MockAdapter.NewRecord | src/adapters/mock.ts:46-57 | a new record has the given id and data, `createdAtEpoch == updatedAtEpoch == now`, the given expiry, the user agent unchanged, and the address or "" |
| MockAdapter.MockSessionAdapter.constructor | src/adapters/mock.ts:25-32 | a new adapter has an empty store and the default generator |
| MockAdapter.MockSessionAdapter.SetUniqIdGenerator | src/adapters/mock.ts:34-36 | later creates take their ids from the new generator; the store is unchanged |
| MockAdapter.MockSessionAdapter.CreateSession | src/adapters/mock.ts:38-77 | stores and returns the new record under the generator's next id, overwriting any entry with that id |
| MockAdapter.MockSessionAdapter.ReadSessionById | src/adapters/mock.ts:79-103 | returns the record stored under the id, or null when there is none; never raises |
| MockAdapter.MockSessionAdapter.UpdateSessionById | src/adapters/mock.ts:105-115 | stores the session under the given key, not under `session.id`, and returns true; nothing else changes |
| MockAdapter.MockSessionAdapter.DeleteSessionById | src/adapters/mock.ts:117-126 | removes the key and returns true, whether or not it was present; nothing else changes |
| MockAdapter.MockSessionAdapter.Clear | src/adapters/mock.ts:136-138 | empties the store |
| MockAdapter.CreateThenRead | src/adapters/mock.ts:47-97 | reading a just-created id returns the created record, with its id, data and timestamps |
| MockAdapter.UpdateThenDelete | src/adapters/mock.ts:105-121 | after an update the key reads as the session, after a delete as null, and every other key is untouched |
| MockAdapter.ClearThenRead | src/adapters/mock.ts:136-138 | after `clear()` every read is null |
| MockAdapter.StoreOpsKeepWellKeyed | src/adapters/mock.ts:70 | creating under a fresh id, updating a record under its own id, and deleting all keep every record under its own id |
| Lifecycle.SessionPlugin.PreHandler | src/pluginFactory.ts:56-132 | the hook binds, calls, sets cookies and changes the store exactly as `Resolve` says, and keeps any earlier binding when it binds nothing |
| Lifecycle.SessionPlugin.OnSend | src/pluginFactory.ts:134-211 | the hook calls the adapter and changes the store exactly as `Persist` says; the binding and the cookies are untouched |
| Lifecycle.SessionPlugin.Destroy | src/pluginFactory.ts:38-53 | the result, binding, cookies, calls and store are exactly as `DestroyOutcome` says |
| Lifecycle.Resolve | src/pluginFactory.ts:56-132 | the resolve hook as a function; `Lifecycle.SessionPlugin.PreHandler` is proved to do what it says, and its properties are stated by `Lifecycle.NoCookieCreatesOnce`, `Lifecycle.CookieNeverCreates`, `Lifecycle.ResolveReadsIffGuarded` and `Lifecycle.ResolveKeepsWellKeyed` |
| Lifecycle.Persist | src/pluginFactory.ts:134-211 | the persist hook as a function; `Lifecycle.SessionPlugin.OnSend` is proved to do what it says, and its properties are stated by `Lifecycle.PersistReadsIffGuarded`, `Lifecycle.WriteAvoidance`, `Lifecycle.WrittenRecord` and `Lifecycle.PersistKeepsWellKeyed` |
| Lifecycle.DestroyOutcome | src/pluginFactory.ts:38-53 | `destroy()` as a function; `Lifecycle.SessionPlugin.Destroy` is proved to do what it says, and its cases are stated by `Lifecycle.DestroyCases` |
| Lifecycle.NoCookieCreatesOnce | src/pluginFactory.ts:68-79 | with no cookie, `createSession` is called exactly once with `initialSession`; on success the new record is bound and stored and the cookie is set to its id; on failure nothing is bound or set |
| Lifecycle.CookieNeverCreates | src/pluginFactory.ts:80-131 | with a cookie, nothing is created or set, at most one read is made, and any binding is exactly the stored record: no fallback session. Conversely, when the id passes the guard and the read does not raise, the record stored under it is bound |
| Lifecycle.ResolveReadsIffGuarded | src/pluginFactory.ts:102-116 | resolve reads exactly when a cookie is present and its id passes the sentinel guard |
| Lifecycle.PersistReadsIffGuarded | src/pluginFactory.ts:135-178 | persist calls the adapter exactly when a session is bound and the cookie's id exists and passes the guard, and its first call is the read |
| Lifecycle.PersistWithoutCookieDoesNothing | src/pluginFactory.ts:140-168 | with no cookie, persist makes no call and leaves the store unchanged |
| Lifecycle.WriteAvoidance | src/pluginFactory.ts:170-208 | `updateSessionById` is called exactly when the record read is missing or unreadable, or its data differs (undefined members aside) from the bound data |
| Lifecycle.WrittenRecord | src/pluginFactory.ts:179-205 | the written record takes its id from the cookie, is stamped `now` and copies every other field; only that key changes, a failed write changes nothing, and no write leaves the store unchanged |
| Lifecycle.ExpiryChangeAloneNotWritten | src/pluginFactory.ts:179-201 | when the stored record under the cookie's id has the bound session's data, a session that differs only in `expiresAtEpoch` is not written, unless the read raises |
| Lifecycle.ResolveKeepsWellKeyed | src/pluginFactory.ts:68-75 | resolve keeps every stored record under its own id |
| Lifecycle.PersistKeepsWellKeyed | src/pluginFactory.ts:179-201 | persist keeps every stored record under its own id, since it writes under the id it stamps |
| Lifecycle.DestroyKeepsWellKeyed | src/pluginFactory.ts:43 | destroy keeps every stored record under its own id |
| Lifecycle.DestroyCases | src/pluginFactory.ts:38-53 | without a session: false and no effect; a delete that raises: false, session and store intact; otherwise the result is true, the session is kept with only `data` set to `{}`, and the cookie is cleared exactly when the reply was not sent. The store then is exactly the old store less the session's id, or the old store unchanged when the delete returned `false` |
| Lifecycle.DestroyAfterSend | src/pluginFactory.ts:42-48 | `destroy()` after the reply was sent succeeds, deletes only the session's id and empties its data, but clears no cookie |
| Lifecycle.GeneratedIdResolves | src/pluginFactory.ts:81-109 | a serial id in a cookie is extracted whole by both hooks and passes the guard |
| Lifecycle.SerialIdIsPlain | src/serial.ts:2-4 | a serial has no line terminator and no whitespace at its ends |
| Lifecycle.PlainIdResolves | src/pluginFactory.ts:81-109 | an id with no line terminator, no whitespace at its ends and no sentinel value is extracted whole and passes the guard |
| Lifecycle.CreatedSessionResolvesLater | src/pluginFactory.ts:68-116 | a session created for a request without a cookie is bound again, unchanged, by a later request carrying its id |
| Lifecycle.DestroyThenPersistWritesBack | src/pluginFactory.ts:170-201 | after a successful destroy, persist finds no record and writes the session back under its id, with empty data, stamped `now` |
| Lifecycle.InteriorTerminatorNeverPersisted | src/pluginFactory.ts:143-168 | the cookie "a\nb" passes the guard in resolve, but persist makes no call for it |
| Lifecycle.FirstVisit | src/pluginFactory.ts:68-168 | on a first visit the session is created and its cookie set, and the handler's changes to data are not persisted |
| PlainObject.ReadSessionByIdAsWritten | src/adapters/mock.ts:79-98 | on a plain object, a read returns the stored record for a stored key, a phantom for an unstored inherited name, and null otherwise |
| PlainObject.AsWrittenAgreesOffPrototype | src/adapters/mock.ts:81-85 | away from the inherited names, the read as written is the own-property read |
| PlainObject.SerialIdsAreNotPrototypeKeys | src/serial.ts:2 | no serial id is an inherited name |
| CreateCall.MockCreate | src/adapters/mock.ts:46-57 | the mock's create raises exactly when `expiresAt` is an object other than a date, or `metas` is null or undefined; otherwise the record has the date's epoch or no expiry, and the metas' address or "" and their user agent; a date passed as `metas` gives the address "" and an undefined user agent |
| CreateCall.InterfaceCallMatchesNewRecord | src/adapters/mock.ts:46-57 | called in the interface's form, the mock builds the expiry and metas that `MockAdapter.NewRecord` states |
| CreateCall.ResolveAsWritten | src/pluginFactory.ts:68-79 | the resolve hook with the call as written: its trace records `createSession` with the metas object in the `expiresAt` position and `metas` undefined; its properties are stated by `CreateCall.TwoArgumentCreateNeverBinds` and `CreateCall.CookieRequestsUnaffected` |
| CreateCall.TwoArgumentCreateNeverBinds | src/pluginFactory.ts:68-79 | as written, a request without a cookie makes one create call with the metas object as `expiresAt` and `metas` undefined; the mock raises, nothing is bound, no cookie is set and the store is unchanged; called with `null` for `expiresAt`, the request is bound a new record that never expires and its cookie is set |
| CreateCall.CookieRequestsUnaffected | src/pluginFactory.ts:80-131 | with a cookie, the hook as written binds, reads, sets cookies and changes the store exactly as the interface form does |
| PlainObject.ResolveCookieAsWritten | src/pluginFactory.ts:80-131 | the cookie branch of the resolve hook over the read as written: a bound record is the one stored under the extracted id, and a phantom is bound exactly when the id passes the guard, the read does not raise, and the id is an unstored inherited name |
| PlainObject.ResolveAsWrittenAgreesOffPrototype | src/pluginFactory.ts:80-131 | when the extracted id is not an inherited name, the hook as written binds exactly what `Lifecycle.Resolve` binds |
| PlainObject.ConstructorCookieBindsPhantom | src/pluginFactory.ts:102-131 | the cookie "constructor" passes the guard and no record is stored under it, so `Lifecycle.Resolve` binds nothing; yet the read as written returns a phantom, and the hook as written binds it |

## Left out

- Fastify plumbing is not modelled: `decorateRequest`, hook registration, the `fastify-plugin` wrapper, and `FASTIFY_VERSION_TARGET`. Cookies set or cleared are recorded as actions; their serialisation, `cookieOptions` and `@fastify/cookie` signing are not modelled.
- The store contract `ISessionStoreAdapter` is not a trait (traits are not used in this model). The hooks run against `MockSessionAdapter`, and a backend that raises is modelled by the `Faults` parameter. A call that raises changes nothing, and the hooks catch it as the code does. The hooks ignore the boolean that `deleteSessionById` and `updateSessionById` return (src/pluginFactory.ts:43, 201). A delete that returns `false` and removes nothing is the `deleteFails` fault, and `destroy()` still returns true for it. An update that returns `false` is modelled as one that raises, since the persist hook does the same thing after either.
- The postgres, firebase and prisma adapters, `src/index.ts` and `@types/index.d.ts` are not part of this model.
- `src/constants.ts` is not part of this model. `parseSessionIdFromCookieData` is therefore stated over any pair of matchers, and only the patterns written inline in the hooks are modelled exactly.
- CreateCall.ResolveAsWritten: it does not count the draw from the id generator that the mock makes before it raises (src/adapters/mock.ts:47).
- The bound session's `destroy`, `reload` and `save` functions are not values in the model. `destroy` is `SessionPlugin.Destroy`. `reload` and `save` are no-ops and are left out.
- JavaScript reference aliasing is not modelled. Records are values: the mock's stored `data` is not shared with the caller's object, and the bound session is not a shallow copy of the stored record. A handler mutation that would, in JavaScript, reach a stored object without an update is not captured.
- Logging (`console.error`, `debug`) is not modelled, since it has no effect on state.
- Async execution and concurrent requests are not modelled: each hook runs to completion before the next starts.
- Time is an integer epoch parameter in place of `Date`/`Date.now()`. JSON numbers are integers; floating point is left out.
- `Math.random` is an abstract stream of nibbles 0..15.
- Json.Stringify: it yields a sequence of tokens, not characters. A string token stands for its escaped text, so the model assumes escaping is injective. Number formatting is not modelled.
- MockAdapter.MockSessionAdapter.SetUniqIdGenerator: a generator is a stream of ids indexed by how many it has yielded, so installing one restarts at its first id. A generator whose results depend on outside state is not captured.
- Writes under the key "__proto__", which on a plain object replace its prototype, are not modelled. The hooks' guard rejects that key.
- The options `ttl`, `password` and `getUniqId` of `SessionPluginOptions` (src/types.ts:120-134, 153-157) are not modelled, because `src/pluginFactory.ts` never reads them.
- Lazy expiry on read (tests/customSessionPlugin.test.ts:264-358) and an `expiresAtEpoch` of `-1` meaning "expired" (tests/customSessionPlugin.test.ts:541-619) are not modelled, because the code has neither; `-1` is an ordinary value, written only together with a change to `data`.
- CookieParse.MatchSigned: strings are sequences of Unicode scalar values, while the patterns, which lack the `u` flag, match UTF-16 code units. When the cookie ends in a character outside the Basic Multilingual Plane, the greedy split drops that whole character, where the code drops only its low surrogate. A string that is one such character has no split in the model, but the code matches it, with its high surrogate as the group. No other member depends on code units: the other patterns and `trim` only test for characters of the Basic Multilingual Plane.
- MetasParsing.RequestMetas: the hook reads `request.headers["user-agent"]` as a string. A header given as an array is not modelled.

## Findings

| source | as written | input that shows it | evidently intended | confidence | as-written member | corrected member |
|---|---|---|---|---|---|---|
| src/adapters/mock.ts:81-85 | the store is a plain object `{}`, read with `store[id]`, so an unstored id that names an `Object.prototype` member reads as non-null; the guard at src/pluginFactory.ts:102-109 excludes only "__proto__" of these names | cookie `constructor` on an empty store: the read returns a non-null object with no `id` or `data`, and the hook as written binds it as the session | an unstored id reads as null (own properties only, as with a `Map` or `Object.create(null)`) | not executed; high | PlainObject.ConstructorCookieBindsPhantom | MockAdapter.MockSessionAdapter.ReadSessionById |
| src/pluginFactory.ts:70-73 | `createSession(initialSession, { detectedIPAddress, detectedUserAgent })` passes two arguments to a method whose parameters are `(sessionData, expiresAt, metas)`; the metas object becomes `expiresAt`, and the mock calls `expiresAt.getTime()` on it | any request without a session cookie, with the in-memory adapter: the adapter raises, the hook catches it, and no session or cookie results | `createSession(initialSession, null, { detectedIPAddress, detectedUserAgent })`: a new session with no expiry, as the `expiresAtEpoch` null expected at tests/customSessionPlugin.test.ts:109-110 | not executed; medium (TypeScript's checker rejects the two-argument call, so this text may not build as it stands) | CreateCall.TwoArgumentCreateNeverBinds | Lifecycle.NoCookieCreatesOnce |
