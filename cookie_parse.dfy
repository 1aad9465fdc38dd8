/**
 * Extracting a session id from the session cookie's value:
 * `parseSessionIdFromCookieData` (src/helpers/parseSessionIdFromCookieData.ts)
 * and its two inline copies in the plugin's hooks.
 *
 * A regular expression's `exec` is modelled by what it yields: `None` for no
 * match, `Some(g)` for a match whose first capture group is `g`. The helper's
 * patterns live in a constants file that is not part of this model, so the
 * helper is stated over any pair of matchers; the hooks use the patterns
 * written inline, `^(.*)$` and `^([^.].*).(.*)$`, which are modelled exactly.
 */
module CookieParse {
  import opened Wrappers
  import opened Text

  /** The three-way branch: the unsigned pattern's group if it matches, else
      the signed pattern's group if that matches, else the input unchanged.
      The signature part of a signed match is not looked at. */
  function ParseSessionIdFromCookieData(
    cookieData: string,
    unsignedPattern: string -> Option<string>,
    signedPattern: string -> Option<string>): (id: string)
    ensures unsignedPattern(cookieData).Some? ==> id == unsignedPattern(cookieData).value
    ensures unsignedPattern(cookieData).None? && signedPattern(cookieData).Some? ==>
              id == signedPattern(cookieData).value
    ensures unsignedPattern(cookieData).None? && signedPattern(cookieData).None? ==> id == cookieData
  {
    match unsignedPattern(cookieData)
    case Some(sid) => sid
    case None =>
      match signedPattern(cookieData)
      case Some(sid) => sid
      case None => cookieData
  }

  /** `/^(.*)$/i.exec(s)`: without the multiline flag `.` matches any character
      but a line terminator, so the pattern matches exactly the strings without
      one, and the group is the whole string. */
  function MatchUnsigned(s: string): (m: Option<string>)
    ensures m.Some? <==> NoLineTerminator(s)
    ensures m.Some? ==> m.value == s
  {
    if NoLineTerminator(s) then Some(s) else None
  }

  /** A way to read `s` as `^([^.].*).(.*)$` with the first group `s[..k]`:
      a first character other than `.`, then `k - 1` characters and the
      separator, then the rest, none of them a line terminator. */
  predicate SignedSplit(s: string, k: nat)
  {
    1 <= k < |s| && s[0] != '.' && NoLineTerminator(s[1..])
  }

  /** `/^([^.].*).(.*)$/i.exec(s)`: the first `.*` is greedy, so the group is
      the longest prefix that leaves the separator: everything but the last
      character. The `[^.]` class does match a line terminator. */
  function MatchSigned(s: string): (m: Option<string>)
    ensures m.Some? <==> exists k: nat :: SignedSplit(s, k)
    ensures m.Some? ==> SignedSplit(s, |m.value|) && m.value == s[..|m.value|]
    ensures m.Some? ==> forall k: nat :: SignedSplit(s, k) ==> k <= |m.value|
  {
    if |s| >= 2 && s[0] != '.' && NoLineTerminator(s[1..]) then
      assert SignedSplit(s, |s| - 1);
      Some(s[..|s| - 1])
    else None
  }

  /** The id the resolve hook extracts from a present cookie (src/pluginFactory.ts:81-99). */
  function ResolveCookieId(cookieData: string): string
  {
    ParseSessionIdFromCookieData(cookieData, MatchUnsigned, MatchSigned)
  }

  /** What the cookie value becomes as an argument of `exec`: an absent cookie
      is `undefined`, which `exec` turns into the text "undefined". */
  function CookieText(cookie: Option<string>): string
  {
    if cookie.Some? then cookie.value else "undefined"
  }

  /** The id the persist hook extracts (src/pluginFactory.ts:143-161): the same
      two patterns, but null where neither matches. */
  function PersistCookieId(cookie: Option<string>): (id: Option<string>)
    ensures id.Some? <==> MatchUnsigned(CookieText(cookie)).Some? || MatchSigned(CookieText(cookie)).Some?
  {
    var text := CookieText(cookie);
    match MatchUnsigned(text)
    case Some(sid) => Some(sid)
    case None => MatchSigned(text)
  }

  /** With the inline patterns, a cookie without a line terminator is its own
      id: a signed cookie keeps its `.signature` suffix. */
  lemma WholeCookieIsId(cookieData: string)
    requires NoLineTerminator(cookieData)
    ensures ResolveCookieId(cookieData) == cookieData
    ensures PersistCookieId(Some(cookieData)) == Some(cookieData)
  {
  }

  /** The signed branch of the inline code runs exactly when the cookie starts
      with a line terminator and has no other one; it then drops the last
      character. */
  lemma SignedBranchOnlyAfterLeadingTerminator(cookieData: string)
    ensures (MatchUnsigned(cookieData).None? && MatchSigned(cookieData).Some?)
        <==> (|cookieData| >= 2 && IsLineTerminator(cookieData[0]) && NoLineTerminator(cookieData[1..]))
  {
    if |cookieData| >= 2 && IsLineTerminator(cookieData[0]) {
      assert !NoLineTerminator(cookieData);
    }
    if MatchUnsigned(cookieData).None? && MatchSigned(cookieData).Some? {
      assert !IsLineTerminator(cookieData[0]) ==> NoLineTerminator(cookieData);
    }
  }

  /** Where neither inline pattern matches, the two hooks disagree: resolve
      falls back to the raw value, persist to no id at all. */
  lemma HooksDisagreeWithoutMatch(cookieData: string)
    requires MatchUnsigned(cookieData).None? && MatchSigned(cookieData).None?
    ensures ResolveCookieId(cookieData) == cookieData
    ensures PersistCookieId(Some(cookieData)) == None
  {
  }

  /** Elsewhere they agree. */
  lemma HooksAgreeOnMatch(cookieData: string)
    requires MatchUnsigned(cookieData).Some? || MatchSigned(cookieData).Some?
    ensures PersistCookieId(Some(cookieData)) == Some(ResolveCookieId(cookieData))
  {
  }

  /** An absent cookie reaches the persist hook's guard as the text "undefined". */
  lemma AbsentCookieReadsUndefined()
    ensures PersistCookieId(None) == Some("undefined")
  {
    assert NoLineTerminator("undefined");
  }

  /** "a\nb": resolve takes the raw value, persist finds no id. */
  lemma InteriorTerminatorExample()
    ensures ResolveCookieId("a\nb") == "a\nb"
    ensures PersistCookieId(Some("a\nb")) == None
  {
    assert IsLineTerminator("a\nb"[1]);
    assert IsLineTerminator("a\nb"[1..][0]);
  }

  /** The hooks' guard on an extracted id: after `trim`, it is none of "",
      "undefined", "null", "__proto__". */
  const Sentinels: set<string> := {"", "undefined", "null", "__proto__"}

  predicate PassesSentinelGuard(id: string)
  {
    Trim(id) !in Sentinels
  }

  /** Blank ids and padded sentinels are rejected; an id with no whitespace at
      its ends passes exactly when it is not itself a sentinel. */
  lemma SentinelGuardCases(id: string)
    ensures AllWhitespace(id) ==> !PassesSentinelGuard(id)
    ensures Trim(id) in Sentinels ==> !PassesSentinelGuard(id)
    ensures (id == [] || (!IsWhitespace(id[0]) && !IsWhitespace(id[|id| - 1]))) ==>
              (PassesSentinelGuard(id) <==> id !in Sentinels)
  {
    TrimEmptyIff(id);
    if id == [] || (!IsWhitespace(id[0]) && !IsWhitespace(id[|id| - 1])) {
      TrimUnchanged(id);
    }
  }
}
