/** Small shared vocabulary: an optional value, real-number helpers and the
    one-decimal rounding that JavaScript's `toFixed(1)` performs on the
    statistics pages. */
module Base {

  datatype Option<+T> = None | Some(value: T) {
    function GetOr(default: T): T {
      match this
      case Some(v) => v
      case None => default
    }
  }

  datatype Result<+T> = Ok(value: T) | Err(message: string)

  function MinR(a: real, b: real): real { if a <= b then a else b }

  function MaxR(a: real, b: real): real { if a >= b then a else b }

  /** `Math.min(1, Math.max(0, x))` */
  function Clamp01(x: real): (r: real)
    ensures 0.0 <= r <= 1.0
    ensures 0.0 <= x <= 1.0 ==> r == x
    ensures x < 0.0 ==> r == 0.0
    ensures x > 1.0 ==> r == 1.0
  {
    MinR(1.0, MaxR(0.0, x))
  }

  /** Rounding to one decimal place, half away from zero for the
      non-negative values the statistics produce; stands for `toFixed(1)`
      followed by `parseFloat`. */
  function Round1(x: real): real {
    ((x * 10.0 + 0.5).Floor as real) / 10.0
  }

  lemma Round1Close(x: real)
    ensures x - 0.05 < Round1(x) <= x + 0.05
  {
    var f := (x * 10.0 + 0.5).Floor;
    assert f as real <= x * 10.0 + 0.5 < f as real + 1.0;
  }

  lemma Round1Monotone(x: real, y: real)
    requires x <= y
    ensures Round1(x) <= Round1(y)
  {
    assert (x * 10.0 + 0.5).Floor <= (y * 10.0 + 0.5).Floor;
  }

  /** Rounding keeps a percentage inside [0, 100]. */
  lemma Round1Percent(x: real)
    requires 0.0 <= x <= 100.0
    ensures 0.0 <= Round1(x) <= 100.0
  {
    Round1Monotone(0.0, x);
    Round1Monotone(x, 100.0);
    assert Round1(0.0) == 0.0;
    assert (100.0 * 10.0 + 0.5).Floor == 1000;
  }

  /** `total > 0 ? (count / total * 100).toFixed(1) : "0.0"`, as a number. */
  function Percent1(count: int, total: int): (r: real)
    ensures total <= 0 ==> r == 0.0
    ensures 0 <= count <= total ==> 0.0 <= r <= 100.0
    ensures total > 0 ==> count as real / total as real * 100.0 - 0.05 < r <= count as real / total as real * 100.0 + 0.05
  {
    if total > 0 then
      var x := count as real / total as real * 100.0;
      Round1Close(x);
      if 0 <= count <= total then
        DivAtMostOne(count as real, total as real);
        Round1Percent(x);
        Round1(x)
      else Round1(x)
    else 0.0
  }

  lemma DivAtMostOne(a: real, b: real)
    requires 0.0 <= a <= b && b > 0.0
    ensures 0.0 <= a / b <= 1.0
  {
    assert a / b * b == a;
  }

  /** A percentage computed from a smaller count over the same total is no larger. */
  lemma Percent1Monotone(a: int, b: int, total: int)
    requires a <= b
    ensures Percent1(a, total) <= Percent1(b, total)
  {
    if total > 0 {
      var x := a as real / total as real * 100.0;
      var y := b as real / total as real * 100.0;
      assert a as real / total as real <= b as real / total as real;
      Round1Monotone(x, y);
    }
  }

  function SumReal(s: seq<real>): real
    decreases |s|
  {
    if s == [] then 0.0 else SumReal(s[..|s| - 1]) + s[|s| - 1]
  }

  function SumInt(s: seq<int>): int
    decreases |s|
  {
    if s == [] then 0 else SumInt(s[..|s| - 1]) + s[|s| - 1]
  }

  lemma {:induction false} SumRealBounds(s: seq<real>, lo: real, hi: real)
    requires forall i :: 0 <= i < |s| ==> lo <= s[i] <= hi
    ensures |s| as real * lo <= SumReal(s) <= |s| as real * hi
    decreases |s|
  {
    if s != [] {
      SumRealBounds(s[..|s| - 1], lo, hi);
    }
  }
}
