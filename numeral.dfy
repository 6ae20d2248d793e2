/**
 * The numeric reading of the product form's text fields. The form's price and
 * quantity inputs hold decimal literals; `Parse` recognises them, and the
 * predicates below give what `parseFloat` and `parseInt` make of a literal.
 */
module Numeral {
  import opened Wrappers

  predicate IsDigit(c: char) { '0' <= c <= '9' }

  predicate AllDigits(s: string) {
    forall i :: 0 <= i < |s| ==> IsDigit(s[i])
  }

  /** An optional '-', the digits before the point, whether a point is written, and the digits after it. */
  datatype Literal = Literal(negative: bool, whole: string, point: bool, fraction: string)

  predicate WellFormed(n: Literal) {
    && AllDigits(n.whole)
    && AllDigits(n.fraction)
    && (n.point || n.fraction == "")
    && |n.whole| + |n.fraction| > 0
  }

  /** The text of a literal. */
  function Show(n: Literal): string {
    Sign(n.negative) + (n.whole + (Point(n.point) + n.fraction))
  }

  /** Position of the first '.', or the length when there is none. */
  function PointIndex(s: string): (k: nat)
    ensures k <= |s|
    ensures k < |s| ==> s[k] == '.'
    ensures forall i :: 0 <= i < k ==> s[i] != '.'
  {
    if s == [] || s[0] == '.' then 0 else 1 + PointIndex(s[1..])
  }

  /** The text after an optional leading '-'. */
  function Unsigned(s: string): string {
    if |s| > 0 && s[0] == '-' then s[1..] else s
  }

  /** Reads `s` as a decimal literal; what `isNaN(s)` rejects is `None`. */
  function Parse(s: string): (r: Option<Literal>)
    ensures r.Some? ==> WellFormed(r.value)
  {
    var body := Unsigned(s);
    var k := PointIndex(body);
    var fraction := if k < |body| then body[k + 1..] else "";
    if AllDigits(body[..k]) && AllDigits(fraction) && k + |fraction| > 0 then
      Some(Literal(|s| > 0 && s[0] == '-', body[..k], k < |body|, fraction))
    else
      None
  }

  /** A recognised literal is exactly the text it was read from. */
  lemma ParseLossless(s: string)
    ensures Parse(s).Some? ==> Show(Parse(s).value) == s
  {
    if Parse(s).Some? {
      var n := Parse(s).value;
      SignSplit(s);
      PointSplit(Unsigned(s), PointIndex(Unsigned(s)));
      assert Show(n) == Sign(n.negative) + (n.whole + (Point(n.point) + n.fraction));
    }
  }

  function Sign(negative: bool): string {
    if negative then "-" else ""
  }

  function Point(point: bool): string {
    if point then "." else ""
  }

  /** A text is its optional '-' followed by the rest. */
  lemma SignSplit(s: string)
    ensures s == Sign(|s| > 0 && s[0] == '-') + Unsigned(s)
  {
    if |s| > 0 && s[0] == '-' {
      assert s == [s[0]] + s[1..];
    }
  }

  /** A text with a point at `k`, or none when `k` is its length, is what comes before, the point, and what follows. */
  lemma PointSplit(body: string, k: nat)
    requires k <= |body|
    requires k < |body| ==> body[k] == '.'
    ensures body == body[..k] + (Point(k < |body|) + (if k < |body| then body[k + 1..] else ""))
  {
    if k < |body| {
      assert body == body[..k] + ([body[k]] + body[k + 1..]);
    } else {
      assert body == body[..k] + "";
    }
  }

  /** Every well-formed literal is read back from its own text. */
  lemma ParseShow(n: Literal)
    requires WellFormed(n)
    ensures Parse(Show(n)) == Some(n)
  {
    var body := n.whole + (Point(n.point) + n.fraction);
    UnsignedOfShow(n);
    FirstPointOfShow(n);
    assert body[..|n.whole|] == n.whole;
    assert n.point ==> body[|n.whole| + 1..] == n.fraction;
  }

  /** The first point in the text of a literal is the one after its whole digits. */
  lemma FirstPointOfShow(n: Literal)
    requires WellFormed(n)
    ensures PointIndex(n.whole + (Point(n.point) + n.fraction)) == |n.whole|
  {
    var tail := Point(n.point) + n.fraction;
    PointIndexOfDigits(n.whole, tail);
    if n.point {
      assert tail[0] == '.';
    } else {
      assert tail == [];
    }
  }

  /** Dropping the sign from the text of a literal leaves its digits and point. */
  lemma UnsignedOfShow(n: Literal)
    requires WellFormed(n)
    ensures Unsigned(Show(n)) == n.whole + (Point(n.point) + n.fraction)
    ensures (|Show(n)| > 0 && Show(n)[0] == '-') == n.negative
  {
    var body := n.whole + (Point(n.point) + n.fraction);
    assert Show(n) == Sign(n.negative) + body;
    if n.negative {
      assert Show(n)[1..] == body;
    } else if |n.whole| > 0 {
      assert Show(n)[0] == n.whole[0];
    } else {
      assert n.point;
      assert Show(n)[0] == '.';
    }
  }

  /** The first point of `d + rest` is the first point of `rest` when `d` is all digits. */
  lemma {:induction false} PointIndexOfDigits(d: string, rest: string)
    requires AllDigits(d)
    ensures PointIndex(d + rest) == |d| + PointIndex(rest)
  {
    if d != [] {
      assert (d + rest)[1..] == d[1..] + rest;
      PointIndexOfDigits(d[1..], rest);
    } else {
      assert d + rest == rest;
    }
  }

  predicate HasNonZero(s: string) {
    exists i :: 0 <= i < |s| && s[i] != '0'
  }

  function DigitValue(c: char): nat
    requires IsDigit(c)
  {
    c as int - '0' as int
  }

  /** The value of a string of decimal digits. */
  function Value(s: string): nat
    requires AllDigits(s)
  {
    if s == [] then 0 else Value(s[..|s| - 1]) * 10 + DigitValue(s[|s| - 1])
  }

  /** A digit string denotes a non-zero number exactly when one of its digits is not '0'. */
  lemma {:induction false} ValuePositiveIff(s: string)
    requires AllDigits(s)
    ensures Value(s) > 0 <==> HasNonZero(s)
    decreases |s|
  {
    if s != [] {
      var p := s[..|s| - 1];
      ValuePositiveIff(p);
      if HasNonZero(p) {
        var i :| 0 <= i < |p| && p[i] != '0';
        assert s[i] != '0';
      }
      if HasNonZero(s) {
        var i :| 0 <= i < |s| && s[i] != '0';
        if i < |p| {
          assert p[i] != '0';
        }
      }
    }
  }

  /** `parseFloat(s) > 0` for a literal. */
  predicate IsPositive(n: Literal) {
    !n.negative && (HasNonZero(n.whole) || HasNonZero(n.fraction))
  }

  /**
   * `parseInt(s)` for a literal: `None` (NaN) when no digit stands before the
   * point, as in ".5"; otherwise the signed value of the digits before the point.
   */
  function IntegerPart(n: Literal): (r: Option<int>)
    requires WellFormed(n)
    ensures r.None? <==> n.whole == ""
    ensures r.Some? ==> (r.value < 0 <==> n.negative && HasNonZero(n.whole))
  {
    if n.whole == "" then None
    else
      ValuePositiveIff(n.whole);
      var v: int := Value(n.whole);
      Some(if n.negative then -v else v)
  }
}
