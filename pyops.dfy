/** The few pieces of Python's built-in semantics that the modelled code relies on:
    floor division, slice-bound normalisation, the `in` test on strings and
    ASCII `str.lower()`. */
module PyOps {

  /** Python's `a // b`: the quotient rounded toward negative infinity
      (Dafny's own `/` is Euclidean and differs for a negative divisor). */
  function FloorDiv(a: int, b: int): (q: int)
    requires b != 0
    ensures b > 0 ==> b * q <= a < b * q + b
    ensures b < 0 ==> b * q + b < a <= b * q
  {
    if b > 0 then a / b else (-a) / (-b)
  }

  /** Python's `a % b`: the remainder has the sign of the divisor. */
  function FloorMod(a: int, b: int): (r: int)
    requires b != 0
    ensures a == b * FloorDiv(a, b) + r
    ensures b > 0 ==> 0 <= r < b
    ensures b < 0 ==> b < r <= 0
  {
    a - b * FloorDiv(a, b)
  }

  /** `math.ceil(a / b)` for integers (exact; the float rounding of very large
      operands is not modelled). */
  function CeilDiv(a: int, b: int): (q: int)
    requires b != 0
    ensures b > 0 ==> b * q - b < a <= b * q
    ensures b < 0 ==> b * q <= a < b * q - b
  {
    -FloorDiv(-a, b)
  }

  /** The position a Python slice bound `x` denotes in a sequence of length `n`:
      negative bounds count from the end, and out-of-range bounds are clamped. */
  function SliceBound(x: int, n: nat): (r: nat)
    ensures r <= n
    ensures 0 <= x <= n ==> r == x
    ensures x > n ==> r == n
    ensures x < 0 && 0 <= x + n ==> r == x + n
    ensures x + n < 0 ==> r == 0
  {
    if x < 0 then (if x + n < 0 then 0 else x + n) else (if x > n then n else x)
  }

  /** Python's `s[lo:hi]`. */
  function Slice<T>(s: seq<T>, lo: int, hi: int): (r: seq<T>)
    ensures |r| <= |s|
    ensures SliceBound(lo, |s|) <= SliceBound(hi, |s|) ==>
              r == s[SliceBound(lo, |s|)..SliceBound(hi, |s|)]
    ensures SliceBound(hi, |s|) < SliceBound(lo, |s|) ==> r == []
  {
    var a, b := SliceBound(lo, |s|), SliceBound(hi, |s|);
    if a <= b then s[a..b] else []
  }

  /** Python's `needle in hay` on strings, computed by scanning. */
  function Contains(needle: string, hay: string): (b: bool)
    decreases |hay|
  {
    if |needle| <= |hay| && hay[..|needle|] == needle then true
    else if hay == [] then false
    else Contains(needle, hay[1..])
  }

  /** Substring occurrence stated directly. */
  ghost predicate OccursAt(needle: string, hay: string, i: int)
  {
    0 <= i && i + |needle| <= |hay| && hay[i..i + |needle|] == needle
  }

  /** The scan finds `needle` exactly when it occurs somewhere in `hay`. */
  lemma {:induction false} ContainsIffOccurs(needle: string, hay: string)
    ensures Contains(needle, hay) <==> exists i :: OccursAt(needle, hay, i)
    decreases |hay|
  {
    if |needle| <= |hay| && hay[..|needle|] == needle {
      assert OccursAt(needle, hay, 0);
    } else if hay == [] {
    } else {
      ContainsIffOccurs(needle, hay[1..]);
      if exists i :: OccursAt(needle, hay[1..], i) {
        var i :| OccursAt(needle, hay[1..], i);
        assert hay[1..][i..i + |needle|] == hay[i + 1..i + 1 + |needle|];
        assert OccursAt(needle, hay, i + 1);
      }
      if exists i :: OccursAt(needle, hay, i) {
        var i :| OccursAt(needle, hay, i);
        assert i != 0;
        assert hay[1..][i - 1..i - 1 + |needle|] == hay[i..i + |needle|];
        assert OccursAt(needle, hay[1..], i - 1);
      }
    }
  }

  /** A needle at least as long as the text, and different from it, does not
      occur in it. */
  lemma NotContainedWhenNotShorter(needle: string, hay: string)
    requires |needle| >= |hay| && needle != hay
    ensures !Contains(needle, hay)
  {
    ContainsIffOccurs(needle, hay);
  }

  /** A needle whose first character appears at no position where it could
      start does not occur. */
  lemma NotContainedWithoutFirstChar(needle: string, hay: string)
    requires |needle| > 0
    requires forall i :: 0 <= i <= |hay| - |needle| ==> hay[i] != needle[0]
    ensures !Contains(needle, hay)
  {
    ContainsIffOccurs(needle, hay);
  }

  /** An ASCII decimal digit (`[0-9]` in a regular expression). */
  predicate IsDigit(c: char)
  {
    '0' <= c <= '9'
  }

  function LowerChar(c: char): (d: char)
    ensures 'A' <= c <= 'Z' ==> 'a' <= d <= 'z' && d as int - c as int == 32
    ensures !('A' <= c <= 'Z') ==> d == c
  {
    if 'A' <= c <= 'Z' then (c as int + 32) as char else c
  }

  /** `str.lower()` restricted to ASCII letters. */
  function Lower(s: string): (r: string)
    ensures |r| == |s|
    ensures forall i :: 0 <= i < |s| ==> r[i] == LowerChar(s[i])
  {
    if s == [] then [] else [LowerChar(s[0])] + Lower(s[1..])
  }
}
