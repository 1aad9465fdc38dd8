/**
 * `generateUniqSerial` (src/serial.ts): the template `xxxx-xxxx-xxx-xxxx`
 * with every `x` replaced, left to right, by one random hexadecimal digit.
 * The random source (`Math.floor(Math.random() * 16)`) is a stream of
 * nibbles: `draw(k)` is the k-th digit value drawn.
 */
module Serial {

  type Nibble = n: int | 0 <= n < 16

  const Template: string := "xxxx-xxxx-xxx-xxxx"

  const HexDigits: string := "0123456789abcdef"

  /** `r.toString(16)` for `0 <= r < 16`. */
  function HexDigit(n: Nibble): (c: char)
    ensures IsLowerHex(c)
  {
    HexDigits[n]
  }

  predicate IsLowerHex(c: char)
  {
    ('0' <= c <= '9') || ('a' <= c <= 'f')
  }

  /** `t.replace(/[x]/g, ...)` where the replacement callback's calls draw
      `draw(next)`, `draw(next + 1)`, ... in order of the placeholders. */
  function ReplaceX(t: string, draw: nat -> Nibble, next: nat): (r: string)
    ensures |r| == |t|
  {
    if t == [] then []
    else if t[0] == 'x' then [HexDigit(draw(next))] + ReplaceX(t[1..], draw, next + 1)
    else [t[0]] + ReplaceX(t[1..], draw, next)
  }

  /** `generateUniqSerial()`: 18 characters, dashes at 4, 9 and 13, a lower-case
      hexadecimal digit everywhere else. */
  function GenerateUniqSerial(draw: nat -> Nibble): (id: string)
    ensures SerialShaped(id)
  {
    TemplateLayout(draw);
    LayoutShape(draw);
    ReplaceX(Template, draw, 0)
  }

  /** The shape of a serial: 18 characters, dashes at 4, 9 and 13, a
      lower-case hexadecimal digit everywhere else. */
  predicate SerialShaped(id: string)
  {
    && |id| == 18
    && id[4] == '-' && id[9] == '-' && id[13] == '-'
    && forall i :: 0 <= i < 18 && i != 4 && i != 9 && i != 13 ==> IsLowerHex(id[i])
  }

  /** `k` placeholders. */
  function Xs(k: nat): string
  {
    seq(k, _ => 'x')
  }

  /** Draws `n` to `n + k - 1`, rendered in order. */
  function Hexes(draw: nat -> Nibble, n: nat, k: nat): string
  {
    seq(k, i requires 0 <= i < k => HexDigit(draw(n + i)))
  }

  lemma HexesLowerHex(draw: nat -> Nibble, n: nat, k: nat)
    ensures forall i :: 0 <= i < k ==> IsLowerHex(Hexes(draw, n, k)[i])
  {
    forall i | 0 <= i < k
      ensures IsLowerHex(Hexes(draw, n, k)[i])
    {
      assert Hexes(draw, n, k)[i] == HexDigit(draw(n + i));
    }
  }

  /** A run of `k` placeholders consumes the next `k` draws, in order. */
  lemma {:induction false} XRun(k: nat, rest: string, draw: nat -> Nibble, next: nat)
    ensures ReplaceX(Xs(k) + rest, draw, next) == Hexes(draw, next, k) + ReplaceX(rest, draw, next + k)
  {
    if k == 0 {
      assert Xs(k) + rest == rest;
      assert Hexes(draw, next, k) == [];
    } else {
      var t := Xs(k) + rest;
      assert t[0] == 'x' && t[1..] == Xs(k - 1) + rest;
      XRun(k - 1, rest, draw, next + 1);
      assert Hexes(draw, next, k) == [HexDigit(draw(next))] + Hexes(draw, next + 1, k - 1);
    }
  }

  /** A dash is copied and consumes no draw. */
  lemma Dash(rest: string, draw: nat -> Nibble, next: nat)
    ensures ReplaceX("-" + rest, draw, next) == "-" + ReplaceX(rest, draw, next)
  {
    assert ("-" + rest)[1..] == rest;
  }

  /** The first 15 draws in order, grouped 4-4-3-4 and joined by dashes. */
  function Layout(draw: nat -> Nibble): string
  {
    Hexes(draw, 0, 4) + ("-" + (Hexes(draw, 4, 4) + ("-" + (Hexes(draw, 8, 3) + ("-" + Hexes(draw, 11, 4))))))
  }

  lemma LayoutShape(draw: nat -> Nibble)
    ensures |Layout(draw)| == 18
    ensures Layout(draw)[4] == '-' && Layout(draw)[9] == '-' && Layout(draw)[13] == '-'
    ensures forall i :: 0 <= i < 18 && i != 4 && i != 9 && i != 13 ==> IsLowerHex(Layout(draw)[i])
  {
    var l := Layout(draw);
    HexesLowerHex(draw, 0, 4);
    HexesLowerHex(draw, 4, 4);
    HexesLowerHex(draw, 8, 3);
    HexesLowerHex(draw, 11, 4);
    forall i | 0 <= i < 18 && i != 4 && i != 9 && i != 13
      ensures IsLowerHex(l[i])
    {
      if i < 4 { assert l[i] == Hexes(draw, 0, 4)[i]; }
      else if i < 9 { assert l[i] == Hexes(draw, 4, 4)[i - 5]; }
      else if i < 13 { assert l[i] == Hexes(draw, 8, 3)[i - 10]; }
      else { assert l[i] == Hexes(draw, 11, 4)[i - 14]; }
    }
  }

  /** The serial is the first 15 draws in order: exactly one draw per `x`,
      consumed left to right. */
  lemma SerialLayout(draw: nat -> Nibble)
    ensures GenerateUniqSerial(draw) == Layout(draw)
  {
    TemplateLayout(draw);
  }

  lemma TemplateShape()
    ensures Template == Xs(4) + ("-" + (Xs(4) + ("-" + (Xs(3) + ("-" + Xs(4))))))
  {
  }

  /** The last dash and group: draws 11 to 14. */
  lemma LastGroup(draw: nat -> Nibble)
    ensures ReplaceX("-" + Xs(4), draw, 11) == "-" + Hexes(draw, 11, 4)
  {
    Dash(Xs(4), draw, 11);
    XRun(4, [], draw, 11);
    assert Xs(4) + [] == Xs(4);
  }

  /** The third group onwards: draws 8 to 14. */
  lemma ThirdGroup(draw: nat -> Nibble)
    ensures ReplaceX("-" + (Xs(3) + ("-" + Xs(4))), draw, 8)
         == "-" + (Hexes(draw, 8, 3) + ("-" + Hexes(draw, 11, 4)))
  {
    Dash(Xs(3) + ("-" + Xs(4)), draw, 8);
    XRun(3, "-" + Xs(4), draw, 8);
    LastGroup(draw);
  }

  /** The second group onwards: draws 4 to 14. */
  lemma SecondGroup(draw: nat -> Nibble)
    ensures ReplaceX("-" + (Xs(4) + ("-" + (Xs(3) + ("-" + Xs(4))))), draw, 4)
         == "-" + (Hexes(draw, 4, 4) + ("-" + (Hexes(draw, 8, 3) + ("-" + Hexes(draw, 11, 4)))))
  {
    Dash(Xs(4) + ("-" + (Xs(3) + ("-" + Xs(4)))), draw, 4);
    XRun(4, "-" + (Xs(3) + ("-" + Xs(4))), draw, 4);
    ThirdGroup(draw);
  }

  /** The template read as its groups: the first 15 draws, grouped. */
  lemma GroupsLayout(draw: nat -> Nibble)
    ensures ReplaceX(Xs(4) + ("-" + (Xs(4) + ("-" + (Xs(3) + ("-" + Xs(4)))))), draw, 0) == Layout(draw)
  {
    XRun(4, "-" + (Xs(4) + ("-" + (Xs(3) + ("-" + Xs(4))))), draw, 0);
    SecondGroup(draw);
  }

  lemma TemplateLayout(draw: nat -> Nibble)
    ensures ReplaceX(Template, draw, 0) == Layout(draw)
  {
    TemplateShape();
    GroupsLayout(draw);
  }

  /** Runs of draws that agree render alike. */
  lemma HexesAgree(d1: nat -> Nibble, d2: nat -> Nibble, n: nat, k: nat)
    requires forall j: nat :: n <= j < n + k ==> d1(j) == d2(j)
    ensures Hexes(d1, n, k) == Hexes(d2, n, k)
  {
    forall i | 0 <= i < k
      ensures Hexes(d1, n, k)[i] == Hexes(d2, n, k)[i]
    {
      assert d1(n + i) == d2(n + i);
    }
  }

  /** Only the first 15 draws matter. */
  lemma SerialUsesFifteenDraws(d1: nat -> Nibble, d2: nat -> Nibble)
    requires forall k: nat :: k < 15 ==> d1(k) == d2(k)
    ensures GenerateUniqSerial(d1) == GenerateUniqSerial(d2)
  {
    SerialLayout(d1);
    SerialLayout(d2);
    HexesAgree(d1, d2, 0, 4);
    HexesAgree(d1, d2, 4, 4);
    HexesAgree(d1, d2, 8, 3);
    HexesAgree(d1, d2, 11, 4);
  }
}
