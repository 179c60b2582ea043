/**
 * Shared vocabulary of the model: optional values, random draws, JavaScript
 * numbers that may be NaN, 3-vectors, quality badges, display metrics and the
 * rounding helpers that mirror Math.floor / Math.round.
 */
module Prelude {

  datatype Option<T> = None | Some(value: T)

  /** One value of Math.random(): a real in [0, 1). */
  type Draw = r: real | 0.0 <= r < 1.0

  /**
   * A JavaScript number read from an object field. NaN stands for both NaN
   * and undefined: every comparison with it is false.
   */
  datatype JsNumber = Num(v: real) | NaN

  datatype Vec3 = Vec3(x: real, y: real, z: real)

  const Origin := Vec3(0.0, 0.0, 0.0)

  /** `p` moved up by `dy` along the y axis (`position.y += dy`). */
  function Raise(p: Vec3, dy: real): (q: Vec3)
    ensures q.x == p.x && q.z == p.z && q.y - p.y == dy
  {
    Vec3(p.x, p.y + dy, p.z)
  }

  /**
   * A quality badge `{ status, color }`. The colour is the CSS hex string
   * read as a number ('#4CAF50' is 0x4CAF50).
   */
  datatype Quality = Quality(status: string, color: int)

  /** The display metric (`currentDisplayData` / `dataType`). */
  datatype Metric = CO2 | Temperature | Humidity | Pressure | Ozone | OtherMetric

  /** The metric named by a `dataType` string. */
  function MetricOf(name: string): (m: Metric)
    ensures m == OtherMetric <==> name !in {"co2", "temperature", "humidity", "pressure", "ozone"}
  {
    if name == "co2" then CO2
    else if name == "temperature" then Temperature
    else if name == "humidity" then Humidity
    else if name == "pressure" then Pressure
    else if name == "ozone" then Ozone
    else OtherMetric
  }

  function Abs(x: real): (r: real)
    ensures r >= 0.0 && (r == x || r == -x)
  {
    if x < 0.0 then -x else x
  }

  /** Math.floor. */
  function Floor(x: real): (n: int)
    ensures n as real <= x < n as real + 1.0
  {
    x.Floor
  }

  /** Math.round: the nearest integer, halves rounded up. */
  function Round(x: real): (n: int)
    ensures x - 0.5 < n as real <= x + 0.5
  {
    Floor(x + 0.5)
  }

  /** `Math.round(x * 10) / 10`. */
  function RoundTo1(x: real): (r: real)
    ensures x - 0.05 < r <= x + 0.05
  {
    Round(x * 10.0) as real / 10.0
  }

  /** `Math.round(x * 100) / 100`. */
  function RoundTo2(x: real): (r: real)
    ensures x - 0.005 < r <= x + 0.005
  {
    Round(x * 100.0) as real / 100.0
  }

  function Min(a: real, b: real): (r: real)
    ensures r <= a && r <= b && (r == a || r == b)
  {
    if a <= b then a else b
  }

  function Max(a: real, b: real): (r: real)
    ensures r >= a && r >= b && (r == a || r == b)
  {
    if a >= b then a else b
  }

  /** `values.reduce((sum, val) => sum + val, 0)`, folded from the left. */
  function Sum(s: seq<real>): real
  {
    if s == [] then 0.0 else Sum(s[..|s| - 1]) + s[|s| - 1]
  }

  /** Smallest element of a non-empty sequence. */
  function MinOf(s: seq<real>): (r: real)
    requires |s| > 0
    ensures r in s && forall i :: 0 <= i < |s| ==> r <= s[i]
  {
    if |s| == 1 then s[0] else Min(MinOf(s[..|s| - 1]), s[|s| - 1])
  }

  /** Largest element of a non-empty sequence. */
  function MaxOf(s: seq<real>): (r: real)
    requires |s| > 0
    ensures r in s && forall i :: 0 <= i < |s| ==> s[i] <= r
  {
    if |s| == 1 then s[0] else Max(MaxOf(s[..|s| - 1]), s[|s| - 1])
  }

  /** Element-wise bounds give bounds on the sum. */
  lemma {:induction false} SumBounds(s: seq<real>, lo: real, hi: real)
    requires forall i :: 0 <= i < |s| ==> lo <= s[i] <= hi
    ensures |s| as real * lo <= Sum(s) <= |s| as real * hi
  {
    if s != [] {
      SumBounds(s[..|s| - 1], lo, hi);
    }
  }

  /** The arithmetic mean of a non-empty sequence. */
  function Mean(s: seq<real>): real
    requires s != []
  {
    Sum(s) / |s| as real
  }

  /** Dividing bounds `n * lo <= a <= n * hi` by a positive `n`. */
  lemma DivideBounds(a: real, n: real, lo: real, hi: real)
    requires n > 0.0 && n * lo <= a <= n * hi
    ensures lo <= a / n <= hi
  {
    var q := a / n;
    assert a == q * n;
    assert n * (q - lo) >= 0.0 && n * (hi - q) >= 0.0;
  }

  /** The mean lies between the smallest and the largest element. */
  lemma MeanWithinBounds(s: seq<real>)
    requires s != []
    ensures MinOf(s) <= Mean(s) <= MaxOf(s)
  {
    SumBounds(s, MinOf(s), MaxOf(s));
    DivideBounds(Sum(s), |s| as real, MinOf(s), MaxOf(s));
  }

  /** `s` contains `sub` as a contiguous piece (String.prototype.includes). */
  predicate Contains(s: string, sub: string)
  {
    (|sub| <= |s| && s[..|sub|] == sub) || (s != [] && Contains(s[1..], sub))
  }
}
