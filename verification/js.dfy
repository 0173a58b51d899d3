/** The pieces of JavaScript semantics the core relies on: division that can
    yield NaN or an infinity, Math.round, Array.prototype.slice with a
    negative start, reverse, and the rendering of a rounded number. Numbers
    are exact reals here; IEEE rounding of finite values is not modelled. */
module Js {
  import opened Types

  /** `num / den` on JavaScript numbers. */
  function Divide(num: real, den: real): (r: Num)
    ensures r.Finite? <==> den != 0.0
    ensures den != 0.0 ==> r.v * den == num
  {
    if den != 0.0 then Finite(num / den)
    else if num > 0.0 then PosInfinity
    else if num < 0.0 then NegInfinity
    else NaN
  }

  /** `x > c` for a JavaScript number `x` and a finite `c`: NaN compares
      false with everything. */
  predicate GreaterThan(x: Num, c: real)
  {
    match x
    case Finite(v) => v > c
    case PosInfinity => true
    case NegInfinity => false
    case NaN => false
  }

  /** Math.round: the nearest integer, halves rounded up. */
  function Round(x: real): (r: int)
    ensures x - 0.5 < r as real <= x + 0.5
  {
    (x + 0.5).Floor
  }

  /** Math.round on a JavaScript number; NaN and the infinities are unchanged. */
  function RoundNum(x: Num): Num
  {
    if x.Finite? then Finite(Round(x.v) as real) else x
  }

  /** `x * k` for a positive finite `k`. */
  function ScaleNum(x: Num, k: real): Num
    requires k > 0.0
  {
    if x.Finite? then Finite(x.v * k) else x
  }

  /** `1 - x`. */
  function OneMinus(x: Num): Num
  {
    match x
    case Finite(v) => Finite(1.0 - v)
    case PosInfinity => NegInfinity
    case NegInfinity => PosInfinity
    case NaN => NaN
  }

  /** Array.prototype.slice(start) on an array `s`: a negative start counts
      from the end and is clamped at 0, a non-negative one is clamped at |s|.
      The result is always a suffix of `s`. */
  function SliceFrom<T>(s: seq<T>, start: int): (r: seq<T>)
    ensures |r| <= |s| && r == s[|s| - |r|..]
    ensures start < 0 ==> |r| == if -start < |s| then -start else |s|
    ensures start >= 0 ==> |r| == if start < |s| then |s| - start else 0
  {
    if start < 0 then
      (if |s| + start > 0 then s[|s| + start..] else s)
    else
      (if start < |s| then s[start..] else [])
  }

  /** Array.prototype.reverse, as a value. */
  function Reverse<T>(s: seq<T>): (r: seq<T>)
    ensures |r| == |s|
    ensures forall k :: 0 <= k < |s| ==> r[k] == s[|s| - 1 - k]
  {
    if s == [] then [] else Reverse(s[1..]) + [s[0]]
  }

  function DigitChar(d: nat): char
    requires d < 10
  {
    "0123456789"[d]
  }

  /** The decimal rendering of a natural number, without leading zeros. */
  function NatToString(n: nat): (r: string)
    ensures |r| >= 1
    ensures forall k :: 0 <= k < |r| ==> '0' <= r[k] <= '9'
    decreases n
  {
    if n < 10 then [DigitChar(n)] else NatToString(n / 10) + [DigitChar(n % 10)]
  }

  /** String(x) for a JavaScript number holding an integer, NaN or an infinity. */
  function NumToString(x: Num): (r: string)
    ensures '\n' !in r
  {
    match x
    case NaN => "NaN"
    case PosInfinity => "Infinity"
    case NegInfinity => "-Infinity"
    case Finite(v) =>
      var i := v.Floor;
      if i < 0 then "-" + NatToString(-i) else NatToString(i)
  }
}
