/**
 * JSON values as the session payload types them (`JsonValue`, `JsonObject`,
 * `JsonArray`), and `JSON.stringify` as the persist phase uses it to decide
 * whether the payload changed.
 *
 * An object is the ordered sequence of its own enumerable properties, because
 * `JSON.stringify` emits them in that order. A property's value is optional
 * (`[Key in string]?: JsonValue`): a property holding `undefined` is present in
 * the object but is skipped by `JSON.stringify`. Numbers are integers.
 *
 * Serialised text is modelled as a sequence of JSON tokens; a string token
 * carries its text unescaped, which stands for JSON's (injective) string
 * escaping.
 */
module Json {
  import opened Wrappers

  datatype JsonValue =
    | JString(s: string)
    | JNumber(n: int)
    | JBool(b: bool)
    | JObject(members: seq<Member>)
    | JArray(items: seq<JsonValue>)
    | JNull

  /** One property of a `JsonObject`; `None` is a property whose value is `undefined`. */
  datatype Member = Member(key: string, value: Option<JsonValue>)

  /** A `JsonObject`, the type of a session's `data`. */
  type JsonObject = seq<Member>

  datatype Token =
    | TString(s: string)
    | TNumber(n: int)
    | TTrue
    | TFalse
    | TNull
    | TBeginObject
    | TEndObject
    | TBeginArray
    | TEndArray
    | TColon
    | TComma

  /** `JSON.stringify(j)` for a value that is not `undefined`. */
  function Stringify(j: JsonValue): seq<Token>
  {
    match j
    case JString(s) => [TString(s)]
    case JNumber(n) => [TNumber(n)]
    case JBool(b) => if b then [TTrue] else [TFalse]
    case JNull => [TNull]
    case JArray(items) => [TBeginArray] + StringifyItems(items, true) + [TEndArray]
    case JObject(ms) => [TBeginObject] + StringifyMembers(ms, true) + [TEndObject]
  }

  /** The elements of an array, separated by commas; `first` says no element was emitted yet. */
  function StringifyItems(items: seq<JsonValue>, first: bool): seq<Token>
  {
    if items == [] then []
    else (if first then [] else [TComma]) + Stringify(items[0]) + StringifyItems(items[1..], false)
  }

  /** The properties of an object as `"key":value` pairs separated by commas;
      properties whose value is `undefined` are skipped and emit no comma. */
  function StringifyMembers(ms: seq<Member>, first: bool): seq<Token>
  {
    if ms == [] then []
    else match ms[0].value
      case None => StringifyMembers(ms[1..], first)
      case Some(v) =>
        (if first then [] else [TComma]) + [TString(ms[0].key), TColon] + Stringify(v)
        + StringifyMembers(ms[1..], false)
  }

  /** `JSON.stringify(d)` where `d` may be `undefined` (`None`); the result
      `undefined` is `None`, which differs from every string. */
  function StringifyData(d: Option<JsonObject>): Option<seq<Token>>
  {
    match d
    case None => None
    case Some(ms) => Some(Stringify(JObject(ms)))
  }

  /** The value with every `undefined`-valued property removed, at every depth. */
  function Canon(j: JsonValue): JsonValue
  {
    match j
    case JArray(items) => JArray(CanonItems(items))
    case JObject(ms) => JObject(CanonMembers(ms))
    case _ => j
  }

  function CanonItems(items: seq<JsonValue>): seq<JsonValue>
  {
    if items == [] then [] else [Canon(items[0])] + CanonItems(items[1..])
  }

  function CanonMembers(ms: seq<Member>): seq<Member>
  {
    if ms == [] then []
    else match ms[0].value
      case None => CanonMembers(ms[1..])
      case Some(v) => [Member(ms[0].key, Some(Canon(v)))] + CanonMembers(ms[1..])
  }

  /** No property anywhere in `j` holds `undefined`. */
  predicate IsCanonical(j: JsonValue)
  {
    match j
    case JArray(items) => ItemsCanonical(items)
    case JObject(ms) => MembersCanonical(ms)
    case _ => true
  }

  predicate ItemsCanonical(items: seq<JsonValue>)
  {
    items == [] || (IsCanonical(items[0]) && ItemsCanonical(items[1..]))
  }

  predicate MembersCanonical(ms: seq<Member>)
  {
    ms == [] || (ms[0].value.Some? && IsCanonical(ms[0].value.value) && MembersCanonical(ms[1..]))
  }

  /** The first token of a serialised value: never a comma or a closing bracket. */
  lemma StringifyStarts(j: JsonValue)
    ensures |Stringify(j)| > 0
    ensures Stringify(j)[0] !in {TComma, TEndArray, TEndObject}
  {
  }

  /** After a run of array elements comes the closing bracket exactly when the run is empty. */
  lemma ItemsHead(xs: seq<JsonValue>, first: bool, close: Token, r: seq<Token>)
    requires close in {TEndArray, TEndObject}
    ensures (StringifyItems(xs, first) + ([close] + r))[0] == close <==> xs == []
  {
    if xs != [] {
      StringifyStarts(xs[0]);
    }
  }

  /** After a run of defined properties comes the closing brace exactly when the run is empty. */
  lemma MembersHead(ms: seq<Member>, first: bool, close: Token, r: seq<Token>)
    requires MembersCanonical(ms)
    requires close in {TEndArray, TEndObject}
    ensures (StringifyMembers(ms, first) + ([close] + r))[0] == close <==> ms == []
  {
  }

  /** Dropping `undefined` properties does not change the serialisation. */
  lemma {:induction false} StringifyCanon(j: JsonValue)
    ensures Stringify(Canon(j)) == Stringify(j)
    decreases j
  {
    match j
    case JArray(items) => ItemsCanon(items, true);
    case JObject(ms) => MembersCanon(ms, true);
    case _ =>
  }

  lemma {:induction false} ItemsCanon(items: seq<JsonValue>, first: bool)
    ensures StringifyItems(CanonItems(items), first) == StringifyItems(items, first)
    decreases items
  {
    if items != [] {
      StringifyCanon(items[0]);
      ItemsCanon(items[1..], false);
      assert CanonItems(items)[0] == Canon(items[0]);
      assert CanonItems(items)[1..] == CanonItems(items[1..]);
    }
  }

  lemma {:induction false} MembersCanon(ms: seq<Member>, first: bool)
    ensures StringifyMembers(CanonMembers(ms), first) == StringifyMembers(ms, first)
    decreases ms
  {
    if ms != [] {
      match ms[0].value
      case None => MembersCanon(ms[1..], first);
      case Some(v) =>
        StringifyCanon(v);
        MembersCanon(ms[1..], false);
        var c := CanonMembers(ms);
        assert c[0] == Member(ms[0].key, Some(Canon(v)));
        assert c[1..] == CanonMembers(ms[1..]);
    }
  }

  /** `Canon` yields canonical values. */
  lemma {:induction false} CanonIsCanonical(j: JsonValue)
    ensures IsCanonical(Canon(j))
    decreases j
  {
    match j
    case JArray(items) => CanonItemsCanonical(items);
    case JObject(ms) => CanonMembersCanonical(ms);
    case _ =>
  }

  lemma {:induction false} CanonItemsCanonical(items: seq<JsonValue>)
    ensures ItemsCanonical(CanonItems(items))
    decreases items
  {
    if items != [] {
      CanonIsCanonical(items[0]);
      CanonItemsCanonical(items[1..]);
      assert CanonItems(items)[1..] == CanonItems(items[1..]);
    }
  }

  lemma {:induction false} CanonMembersCanonical(ms: seq<Member>)
    ensures MembersCanonical(CanonMembers(ms))
    decreases ms
  {
    if ms != [] {
      CanonMembersCanonical(ms[1..]);
      match ms[0].value
      case None =>
      case Some(v) =>
        CanonIsCanonical(v);
        assert CanonMembers(ms)[1..] == CanonMembers(ms[1..]);
    }
  }

  /** A canonical value's serialisation is never a proper prefix of, nor
      different from, another canonical value's: what follows it is determined. */
  lemma {:induction false} StringifyPrefixFree(a: JsonValue, b: JsonValue, r1: seq<Token>, r2: seq<Token>)
    requires IsCanonical(a) && IsCanonical(b)
    requires Stringify(a) + r1 == Stringify(b) + r2
    ensures a == b && r1 == r2
    decreases a
  {
    var sa, sb := Stringify(a), Stringify(b);
    StringifyStarts(a);
    StringifyStarts(b);
    assert sa[0] == (sa + r1)[0] == (sb + r2)[0] == sb[0];
    match a
    case JArray(xs) =>
      var ys := b.items;
      ConcatParts([TBeginArray], StringifyItems(xs, true), [TEndArray], r1);
      ConcatParts([TBeginArray], StringifyItems(ys, true), [TEndArray], r2);
      ItemsPrefixFree(xs, ys, true, TEndArray, r1, r2);
    case JObject(xs) =>
      var ys := b.members;
      ConcatParts([TBeginObject], StringifyMembers(xs, true), [TEndObject], r1);
      ConcatParts([TBeginObject], StringifyMembers(ys, true), [TEndObject], r2);
      MembersPrefixFree(xs, ys, true, TEndObject, r1, r2);
    case _ =>
      assert r1 == (sa + r1)[1..] == (sb + r2)[1..] == r2;
  }

  lemma {:induction false} ItemsPrefixFree(xs: seq<JsonValue>, ys: seq<JsonValue>, first: bool,
                                           close: Token, r1: seq<Token>, r2: seq<Token>)
    requires ItemsCanonical(xs) && ItemsCanonical(ys)
    requires close in {TEndArray, TEndObject}
    requires StringifyItems(xs, first) + ([close] + r1) == StringifyItems(ys, first) + ([close] + r2)
    ensures xs == ys && r1 == r2
    decreases xs
  {
    var l, r := StringifyItems(xs, first) + ([close] + r1), StringifyItems(ys, first) + ([close] + r2);
    ItemsHead(xs, first, close, r1);
    ItemsHead(ys, first, close, r2);
    assert l[0] == r[0];
    if xs == [] {
      assert r1 == l[1..] == r[1..] == r2;
    } else {
      var n := if first then 0 else 1;
      var tx := StringifyItems(xs[1..], false) + ([close] + r1);
      var ty := StringifyItems(ys[1..], false) + ([close] + r2);
      ItemSplit(xs, first, close, r1);
      ItemSplit(ys, first, close, r2);
      assert Stringify(xs[0]) + tx == Stringify(ys[0]) + ty by { assert l[n..] == r[n..]; }
      StringifyPrefixFree(xs[0], ys[0], tx, ty);
      ItemsPrefixFree(xs[1..], ys[1..], false, close, r1, r2);
      assert xs == [xs[0]] + xs[1..];
      assert ys == [ys[0]] + ys[1..];
    }
  }

  lemma {:induction false} MembersPrefixFree(xs: seq<Member>, ys: seq<Member>, first: bool,
                                             close: Token, r1: seq<Token>, r2: seq<Token>)
    requires MembersCanonical(xs) && MembersCanonical(ys)
    requires close in {TEndArray, TEndObject}
    requires StringifyMembers(xs, first) + ([close] + r1) == StringifyMembers(ys, first) + ([close] + r2)
    ensures xs == ys && r1 == r2
    decreases xs
  {
    var l, r := StringifyMembers(xs, first) + ([close] + r1), StringifyMembers(ys, first) + ([close] + r2);
    MembersHead(xs, first, close, r1);
    MembersHead(ys, first, close, r2);
    assert l[0] == r[0];
    if xs == [] {
      assert r1 == l[1..] == r[1..] == r2;
    } else {
      var n := if first then 0 else 1;
      var vx, vy := xs[0].value.value, ys[0].value.value;
      var tx := StringifyMembers(xs[1..], false) + ([close] + r1);
      var ty := StringifyMembers(ys[1..], false) + ([close] + r2);
      MemberSplit(xs, first, close, r1);
      MemberSplit(ys, first, close, r2);
      assert xs[0].key == ys[0].key by { assert l[n] == r[n]; }
      assert Stringify(vx) + tx == Stringify(vy) + ty by { assert l[n + 2..] == r[n + 2..]; }
      StringifyPrefixFree(vx, vy, tx, ty);
      MembersPrefixFree(xs[1..], ys[1..], false, close, r1, r2);
      assert xs == [xs[0]] + xs[1..];
      assert ys == [ys[0]] + ys[1..];
    }
  }

  /** Cutting a serialisation after its leading tokens `a`. */
  lemma ConcatParts<T>(a: seq<T>, b: seq<T>, c: seq<T>, d: seq<T>)
    ensures |((a + b) + c) + d| >= |a|
    ensures forall i :: 0 <= i < |a| ==> (((a + b) + c) + d)[i] == a[i]
    ensures (((a + b) + c) + d)[|a|..] == b + (c + d)
  {
    assert ((a + b) + c) + d == a + (b + (c + d));
  }

  /** Where the first element sits in the serialisation of an array's elements. */
  lemma ItemSplit(xs: seq<JsonValue>, first: bool, close: Token, r: seq<Token>)
    requires xs != []
    ensures var t, n := StringifyItems(xs, first) + ([close] + r), if first then 0 else 1;
      |t| >= n && t[n..] == Stringify(xs[0]) + (StringifyItems(xs[1..], false) + ([close] + r))
  {
    var sep: seq<Token> := if first then [] else [TComma];
    ConcatParts(sep, Stringify(xs[0]), StringifyItems(xs[1..], false), [close] + r);
  }

  /** Where the key and the value of the first defined property sit in the serialisation. */
  lemma MemberSplit(ms: seq<Member>, first: bool, close: Token, r: seq<Token>)
    requires MembersCanonical(ms) && ms != []
    ensures var t, n := StringifyMembers(ms, first) + ([close] + r), if first then 0 else 1;
      |t| > n + 2 && t[n] == TString(ms[0].key) &&
      t[n + 2..] == Stringify(ms[0].value.value) + (StringifyMembers(ms[1..], false) + ([close] + r))
  {
    var n := if first then 0 else 1;
    var head := (if first then [] else [TComma]) + [TString(ms[0].key), TColon];
    assert |head| == n + 2 && head[n] == TString(ms[0].key);
    ConcatParts(head, Stringify(ms[0].value.value), StringifyMembers(ms[1..], false), [close] + r);
    StringifyStarts(ms[0].value.value);
  }

  /** `JSON.stringify` gives equal text exactly for values that are equal once
      their `undefined` properties are dropped. */
  lemma StringifyEqualIff(a: JsonValue, b: JsonValue)
    ensures Stringify(a) == Stringify(b) <==> Canon(a) == Canon(b)
  {
    StringifyCanon(a);
    StringifyCanon(b);
    if Stringify(a) == Stringify(b) {
      CanonIsCanonical(a);
      CanonIsCanonical(b);
      assert Stringify(Canon(a)) + [] == Stringify(Canon(b)) + [];
      StringifyPrefixFree(Canon(a), Canon(b), [], []);
    }
  }

  /** The persist phase's comparison of two optional payloads: equal text exactly
      when both are present and canonically equal, or both are absent. */
  lemma StringifyDataEqualIff(d: Option<JsonObject>, e: Option<JsonObject>)
    ensures StringifyData(d) == StringifyData(e) <==>
      (d.None? && e.None?) || (d.Some? && e.Some? && Canon(JObject(d.value)) == Canon(JObject(e.value)))
  {
    if d.Some? && e.Some? {
      StringifyEqualIff(JObject(d.value), JObject(e.value));
    }
  }
}
