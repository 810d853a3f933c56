/**
 * The random-integer helper every planner is built on
 * (`UtilsService.randomIntFromInterval`, and its copy in the old scene component).
 *
 * `Math.random()` is not modelled as a generator: the draw `r` is a parameter in [0, 1).
 */
module Utils {

  /** A closed integer interval [lo, hi], the arguments of one `randomIntFromInterval` call. */
  datatype Interval = Interval(lo: int, hi: int)

  predicate In(n: int, iv: Interval) {
    iv.lo <= n <= iv.hi
  }

  /** `Math.floor(r * (max - min + 1) + min)` for the draw `r = Math.random()`. */
  function RandomIntFromInterval(min: int, max: int, r: real): (n: int)
    requires 0.0 <= r < 1.0
    ensures min <= max ==> min <= n <= max
    ensures min == max ==> n == min
  {
    var width := (max - min + 1) as real;
    ScaledDrawBounds(r, max - min + 1);
    (r * width + min as real).Floor
  }

  /** 0 <= r * w < w for a draw r in [0, 1) and a positive width w. */
  lemma ScaledDrawBounds(r: real, w: int)
    requires 0.0 <= r < 1.0
    ensures w >= 1 ==> 0.0 <= r * w as real < w as real
  {
    if w >= 1 {
      assert (1.0 - r) * w as real > 0.0;
    }
  }

  /** The draw that lands exactly on `k`. */
  function DrawFor(min: int, max: int, k: int): (r: real)
    requires min <= k <= max
    ensures 0.0 <= r < 1.0
  {
    var w := (max - min + 1) as real;
    assert (k - min) as real < w;
    (k - min) as real / w
  }

  /** Every integer of [min, max] is produced by some draw. */
  lemma EveryValueReachable(min: int, max: int, k: int)
    requires min <= k <= max
    ensures RandomIntFromInterval(min, max, DrawFor(min, max, k)) == k
  {
    var w := (max - min + 1) as real;
    var r := DrawFor(min, max, k);
    assert r * w == (k - min) as real;
    assert r * w + min as real == k as real;
  }

  /** A sequence of integer draws meets, call by call, a sequence of intervals. */
  predicate Fits(draws: seq<int>, ivs: seq<Interval>) {
    |draws| == |ivs| && forall i :: 0 <= i < |ivs| ==> In(draws[i], ivs[i])
  }

  predicate ProperDraws(rs: seq<real>) {
    forall i :: 0 <= i < |rs| ==> 0.0 <= rs[i] < 1.0
  }

  predicate NonEmpty(ivs: seq<Interval>) {
    forall i :: 0 <= i < |ivs| ==> ivs[i].lo <= ivs[i].hi
  }

  /** The integers that successive `randomIntFromInterval` calls return for raw draws `rs`. */
  function DrawAll(ivs: seq<Interval>, rs: seq<real>): (draws: seq<int>)
    requires |rs| == |ivs| && ProperDraws(rs)
    ensures NonEmpty(ivs) ==> Fits(draws, ivs)
    ensures |draws| == |ivs|
    decreases |ivs|
  {
    if ivs == [] then []
    else [RandomIntFromInterval(ivs[0].lo, ivs[0].hi, rs[0])] + DrawAll(ivs[1..], rs[1..])
  }

  /** Conversely, every integer draw sequence that fits the intervals is produced by some raw draws. */
  lemma {:induction false} FittingDrawsReachable(ivs: seq<Interval>, draws: seq<int>)
    requires Fits(draws, ivs)
    ensures exists rs :: |rs| == |ivs| && ProperDraws(rs) && DrawAll(ivs, rs) == draws
    decreases |ivs|
  {
    if ivs == [] {
      assert DrawAll([], []) == [];
    } else {
      assert Fits(draws[1..], ivs[1..]) by {
        forall i | 0 <= i < |ivs| - 1 ensures In(draws[1..][i], ivs[1..][i]) {
          assert In(draws[i + 1], ivs[i + 1]);
        }
      }
      FittingDrawsReachable(ivs[1..], draws[1..]);
      var rest :| |rest| == |ivs| - 1 && ProperDraws(rest) && DrawAll(ivs[1..], rest) == draws[1..];
      assert In(draws[0], ivs[0]);
      var r0 := DrawFor(ivs[0].lo, ivs[0].hi, draws[0]);
      EveryValueReachable(ivs[0].lo, ivs[0].hi, draws[0]);
      var rs := [r0] + rest;
      assert rs[1..] == rest;
      assert ProperDraws(rs);
      assert DrawAll(ivs, rs) == [draws[0]] + draws[1..];
      assert draws == [draws[0]] + draws[1..];
    }
  }
}
