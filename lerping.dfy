/** The integer colour interpolator of the sketch: `lerpOverTime` moves one
    colour scalar toward its target with a tick counter that all five colour
    scalars share, and `computeLerping` runs it once per scalar per frame. */
module Lerping {
  import opened P5Math

  /** Frames a full interpolation may take (`lerpTime`). */
  const LerpTime := 480

  /** The value `lerpOverTime` returns together with the shared counter it leaves. */
  datatype Lerped = Lerped(value: int, count: nat)

  /** `floor(lerp(value, target, c / lerpTime))` is the integer division
      `value + (target - value) * c / lerpTime` (Dafny's `/` floors for a
      positive divisor). */
  lemma FlooredLerpIsDivision(value: int, target: int, c: int)
    requires 1 <= c <= LerpTime
    ensures Lerp(value as real, target as real, c as real / LerpTime as real).Floor
            == value + (target - value) * c / LerpTime
  {
    var d := target - value;
    var q := d * c / LerpTime;
    var rem := d * c - LerpTime * q;
    assert 0 <= rem < LerpTime;
    assert (d * c) as real == (d as real) * (c as real);
    calc {
      Lerp(value as real, target as real, c as real / LerpTime as real);
      (c as real / LerpTime as real) * (d as real) + value as real;
      (d * c) as real / LerpTime as real + value as real;
      (value + q) as real + rem as real / LerpTime as real;
    }
  }

  /** The step that `(target - value) * c / lerpTime` takes lies between 0 and
      the whole distance, and is the whole distance when c == lerpTime. */
  lemma StepBetween(d: int, c: int)
    requires 1 <= c <= LerpTime
    ensures 0 <= d ==> 0 <= d * c / LerpTime <= d
    ensures d <= 0 ==> d <= d * c / LerpTime <= 0
    ensures c == LerpTime ==> d * c / LerpTime == d
  {
    var p := d * c;
    var q, rem := p / LerpTime, p % LerpTime;
    assert p == LerpTime * q + rem && 0 <= rem < LerpTime;
    ProductBetween(d, c);
    if c == LerpTime {
      assert p == LerpTime * d;
    }
  }

  lemma ProductBetween(d: int, c: int)
    requires 1 <= c <= LerpTime
    ensures 0 <= d ==> 0 <= d * c <= d * LerpTime
    ensures d <= 0 ==> d * LerpTime <= d * c <= 0
  {
    assert d * LerpTime - d * c == d * (LerpTime - c);
  }

  /** `floor(lerp(value, target, c / lerpTime))`: never outside the interval
      between `value` and `target`, and exactly `target` on the last tick. */
  function FlooredLerp(value: int, target: int, c: int): (r: int)
    requires 1 <= c <= LerpTime
    ensures value <= target ==> value <= r <= target
    ensures target <= value ==> target <= r <= value
    ensures c == LerpTime ==> r == target
  {
    FlooredLerpIsDivision(value, target, c);
    StepBetween(target - value, c);
    Lerp(value as real, target as real, c as real / LerpTime as real).Floor
  }

  /** `next` is no farther from `target` than `value` was, strictly closer
      when `value` was off target. */
  predicate Toward(value: int, target: int, next: int) {
    && (value == target ==> next == target)
    && (value < target ==> value < next <= target)
    && (target < value ==> target <= next < value)
  }

  /** `lerpOverTime(value, target)` with the shared counter `count`. While the
      value is off target and the counter is below lerpTime, the counter
      grows by one and the value moves strictly toward the target without
      passing it; otherwise the value snaps to the target and the counter
      is reset to 0. */
  function LerpOverTime(value: int, target: int, count: nat): (r: Lerped)
    ensures value != target && count < LerpTime ==>
      && r.count == count + 1
      && (value < target ==> value < r.value <= target)
      && (target < value ==> target <= r.value < value)
      && (count + 1 == LerpTime ==> r.value == target)
    ensures !(value != target && count < LerpTime) ==> r == Lerped(target, 0)
    ensures Toward(value, target, r.value)
  {
    if value != target && count < LerpTime then
      var c := count + 1;
      var floored := FlooredLerp(value, target, c);
      // keep the interpolation from hanging just short of the target
      var nudged := if target > floored then floored + 1
                    else if target < floored then floored - 1
                    else floored;
      Lerped(nudged, c)
    else
      Lerped(target, 0)
  }

  /** One scalar interpolated `k` frames in a row, on its own counter. */
  function LerpRepeat(value: int, target: int, count: nat, k: nat): Lerped
    decreases k
  {
    if k == 0 then Lerped(value, count)
    else
      var s := LerpOverTime(value, target, count);
      LerpRepeat(s.value, target, s.count, k - 1)
  }

  /** A scalar that is on target stays there. */
  lemma {:induction false} LerpStaysOnTarget(target: int, count: nat, k: nat)
    ensures LerpRepeat(target, target, count, k).value == target
    decreases k
  {
    if k > 0 {
      LerpStaysOnTarget(target, 0, k - 1);
    }
  }

  /** A scalar driven alone reaches its target within lerpTime frames of a
      fresh counter (and within one frame of a saturated one). */
  lemma {:induction false} LerpArrives(value: int, target: int, count: nat, k: nat)
    requires k >= 1 && k >= LerpTime - count
    ensures LerpRepeat(value, target, count, k).value == target
    decreases k
  {
    var s := LerpOverTime(value, target, count);
    if value == target || count >= LerpTime || count + 1 == LerpTime {
      assert s.value == target;
      LerpStaysOnTarget(target, s.count, k - 1);
    } else {
      LerpArrives(s.value, target, s.count, k - 1);
    }
  }

  /** The five colour scalars: `bgColor`, `fillAlpha`, `fillBrightness`,
      `strokeAlpha`, `strokeBrightness` (and, for targets, their `*Target`s). */
  datatype Palette = Palette(bg: int, fillAlpha: int, fillBrightness: int,
                             strokeAlpha: int, strokeBrightness: int)

  /** The ranges the colour values live in: a hue-like background in 0..360,
      alphas and brightnesses in 0..100. */
  predicate InRanges(p: Palette) {
    && 0 <= p.bg <= 360
    && 0 <= p.fillAlpha <= 100 && 0 <= p.fillBrightness <= 100
    && 0 <= p.strokeAlpha <= 100 && 0 <= p.strokeBrightness <= 100
  }

  /** The five scalars of a palette, in `computeLerping`'s order. */
  function Scalars(p: Palette): (r: seq<int>)
    ensures |r| == 5
  {
    [p.bg, p.fillAlpha, p.fillBrightness, p.strokeAlpha, p.strokeBrightness]
  }

  /** The summed distances of `a`'s scalars from `b`'s. */
  function GapSum(a: seq<int>, b: seq<int>): nat
    requires |a| == |b|
  {
    if |a| == 0 then 0 else Abs(a[0] - b[0]) + GapSum(a[1..], b[1..])
  }

  /** Total distance of a palette from its targets. */
  function Distance(c: Palette, t: Palette): nat {
    GapSum(Scalars(c), Scalars(t))
  }

  datatype LerpFrame = LerpFrame(colors: Palette, count: nat)

  lemma TowardCloser(value: int, target: int, next: int)
    requires Toward(value, target, next)
    ensures Abs(next - target) <= Abs(value - target)
    ensures value != target ==> Abs(next - target) < Abs(value - target)
  {
  }

  /** Scalars that each move toward their targets bring the summed
      distance down, strictly unless every scalar was on target. */
  lemma {:induction false} GapSumShrinks(a: seq<int>, b: seq<int>, n: seq<int>)
    requires |a| == |b| == |n|
    requires forall i :: 0 <= i < |a| ==> Toward(a[i], b[i], n[i])
    ensures GapSum(n, b) <= GapSum(a, b)
    ensures a != b ==> GapSum(n, b) < GapSum(a, b)
  {
    if |a| > 0 {
      TowardCloser(a[0], b[0], n[0]);
      assert forall i :: 0 <= i < |a| - 1 ==> Toward(a[1..][i], b[1..][i], n[1..][i]);
      GapSumShrinks(a[1..], b[1..], n[1..]);
      assert a == [a[0]] + a[1..] && b == [b[0]] + b[1..];
    }
  }

  /** Distance shrinks when every scalar moves toward its target. */
  lemma DistanceShrinks(c: Palette, t: Palette, n: Palette)
    requires Toward(c.bg, t.bg, n.bg) && Toward(c.fillAlpha, t.fillAlpha, n.fillAlpha)
    requires Toward(c.fillBrightness, t.fillBrightness, n.fillBrightness)
    requires Toward(c.strokeAlpha, t.strokeAlpha, n.strokeAlpha)
    requires Toward(c.strokeBrightness, t.strokeBrightness, n.strokeBrightness)
    ensures c != t ==> Distance(n, t) < Distance(c, t)
  {
    var sc, st, sn := Scalars(c), Scalars(t), Scalars(n);
    assert forall i :: 0 <= i < 5 ==> Toward(sc[i], st[i], sn[i]);
    GapSumShrinks(sc, st, sn);
    if sc == st {
      assert c == t by {
        assert c.bg == sc[0] == st[0] == t.bg && c.fillAlpha == sc[1] == st[1] == t.fillAlpha;
        assert c.fillBrightness == sc[2] == st[2] == t.fillBrightness;
        assert c.strokeAlpha == sc[3] == st[3] == t.strokeAlpha;
        assert c.strokeBrightness == sc[4] == st[4] == t.strokeBrightness;
      }
    }
  }

  /** A value and target in one interval give a result in that interval. */
  lemma TowardStaysBetween(value: int, target: int, next: int, lo: int, hi: int)
    requires Toward(value, target, next)
    ensures lo <= value <= hi && lo <= target <= hi ==> lo <= next <= hi
  {
  }

  /** What `computeLerping` does to the colours and the shared counter in
      one frame: the five calls in source order, threading the counter. A
      palette on target stays there (and leaves the counter at 0); otherwise
      the total distance to the targets strictly shrinks. Values stay in
      their ranges, and a converged last scalar leaves the counter at 0. */
  function LerpColors(c: Palette, t: Palette, count: nat): (r: LerpFrame)
    ensures c == t ==> r == LerpFrame(t, 0)
    ensures c != t ==> Distance(r.colors, t) < Distance(c, t)
    ensures InRanges(c) && InRanges(t) ==> InRanges(r.colors)
    ensures c.strokeBrightness == t.strokeBrightness ==> r.count == 0
  {
    var bg := LerpOverTime(c.bg, t.bg, count);
    var fa := LerpOverTime(c.fillAlpha, t.fillAlpha, bg.count);
    var fb := LerpOverTime(c.fillBrightness, t.fillBrightness, fa.count);
    var sa := LerpOverTime(c.strokeAlpha, t.strokeAlpha, fb.count);
    var sb := LerpOverTime(c.strokeBrightness, t.strokeBrightness, sa.count);
    var n := Palette(bg.value, fa.value, fb.value, sa.value, sb.value);
    DistanceShrinks(c, t, n);
    TowardStaysBetween(c.bg, t.bg, n.bg, 0, 360);
    TowardStaysBetween(c.fillAlpha, t.fillAlpha, n.fillAlpha, 0, 100);
    TowardStaysBetween(c.fillBrightness, t.fillBrightness, n.fillBrightness, 0, 100);
    TowardStaysBetween(c.strokeAlpha, t.strokeAlpha, n.strokeAlpha, 0, 100);
    TowardStaysBetween(c.strokeBrightness, t.strokeBrightness, n.strokeBrightness, 0, 100);
    LerpFrame(n, sb.count)
  }

  /** The five calls share one counter, and a scalar already on its target
      resets it: from an on-target scalar `i` on, what the frame does (the
      scalars from `i` and the counter it leaves) depends neither on the
      counter the frame started with nor on the scalars before `i`. */
  lemma ConvergedResetsCounter(c: Palette, c2: Palette, t: Palette, count: nat, count2: nat, i: int)
    requires 0 <= i < 5 && Scalars(c)[i] == Scalars(t)[i]
    requires forall j :: i <= j < 5 ==> Scalars(c2)[j] == Scalars(c)[j]
    ensures LerpColors(c, t, count).count == LerpColors(c2, t, count2).count
    ensures forall j :: i <= j < 5 ==>
      Scalars(LerpColors(c, t, count).colors)[j] == Scalars(LerpColors(c2, t, count2).colors)[j]
  {
    var bg, bg2 := LerpOverTime(c.bg, t.bg, count), LerpOverTime(c2.bg, t.bg, count2);
    var fa, fa2 := LerpOverTime(c.fillAlpha, t.fillAlpha, bg.count), LerpOverTime(c2.fillAlpha, t.fillAlpha, bg2.count);
    var fb, fb2 := LerpOverTime(c.fillBrightness, t.fillBrightness, fa.count), LerpOverTime(c2.fillBrightness, t.fillBrightness, fa2.count);
    var sa, sa2 := LerpOverTime(c.strokeAlpha, t.strokeAlpha, fb.count), LerpOverTime(c2.strokeAlpha, t.strokeAlpha, fb2.count);
    var sb, sb2 := LerpOverTime(c.strokeBrightness, t.strokeBrightness, sa.count), LerpOverTime(c2.strokeBrightness, t.strokeBrightness, sa2.count);
    var r, r2 := LerpColors(c, t, count), LerpColors(c2, t, count2);
    assert r == LerpFrame(Palette(bg.value, fa.value, fb.value, sa.value, sb.value), sb.count);
    assert r2 == LerpFrame(Palette(bg2.value, fa2.value, fb2.value, sa2.value, sb2.value), sb2.count);
    var sc, sc2 := Scalars(c), Scalars(c2);
    assert sc2[4] == sc[4];
    if i <= 3 { assert sc2[3] == sc[3]; }
    if i <= 2 { assert sc2[2] == sc[2]; }
    if i <= 1 { assert sc2[1] == sc[1]; }
    if i == 0 { assert sc2[0] == sc[0]; }
    // the on-target scalar resets the counter in both frames
    if i == 0 {
      assert bg == bg2 == Lerped(t.bg, 0);
    } else if i == 1 {
      assert fa == fa2 == Lerped(t.fillAlpha, 0);
    } else if i == 2 {
      assert fb == fb2 == Lerped(t.fillBrightness, 0);
    } else if i == 3 {
      assert sa == sa2 == Lerped(t.strokeAlpha, 0);
    } else {
      assert sb == sb2 == Lerped(t.strokeBrightness, 0);
    }
  }

  /** The reset matters: with the background on target and the counter at
      300, the fill alpha moving from 0 to 100 takes the step of tick 1 and
      reaches only 1, where on the counter it was handed it would reach 63. */
  lemma SharedCounterExample()
    ensures LerpColors(Palette(360, 0, 0, 0, 0), Palette(360, 100, 0, 0, 0), 300).colors.fillAlpha == 1
    ensures LerpOverTime(0, 100, 300).value == 63
  {
    FlooredLerpIsDivision(0, 100, 1);
    FlooredLerpIsDivision(0, 100, 301);
  }

  /** `k` consecutive frames of `computeLerping` with fixed targets. */
  function LerpColorsRepeat(c: Palette, t: Palette, count: nat, k: nat): LerpFrame
    decreases k
  {
    if k == 0 then LerpFrame(c, count)
    else
      var f := LerpColors(c, t, count);
      LerpColorsRepeat(f.colors, t, f.count, k - 1)
  }

  /** No scalar of `c` is farther than `k` from its target. */
  predicate Within(c: Palette, t: Palette, k: int) {
    && Abs(c.bg - t.bg) <= k
    && Abs(c.fillAlpha - t.fillAlpha) <= k && Abs(c.fillBrightness - t.fillBrightness) <= k
    && Abs(c.strokeAlpha - t.strokeAlpha) <= k && Abs(c.strokeBrightness - t.strokeBrightness) <= k
  }

  /** Whatever the shared counter, one `computeLerping` frame brings every
      off-target scalar at least one step closer and keeps the others on
      target, so the largest distance shrinks by at least one. */
  lemma WithinShrinks(c: Palette, t: Palette, count: nat, k: int)
    requires k >= 1 && Within(c, t, k)
    ensures Within(LerpColors(c, t, count).colors, t, k - 1)
  {
    var bg := LerpOverTime(c.bg, t.bg, count);
    var fa := LerpOverTime(c.fillAlpha, t.fillAlpha, bg.count);
    var fb := LerpOverTime(c.fillBrightness, t.fillBrightness, fa.count);
    var sa := LerpOverTime(c.strokeAlpha, t.strokeAlpha, fb.count);
    var sb := LerpOverTime(c.strokeBrightness, t.strokeBrightness, sa.count);
    assert LerpColors(c, t, count).colors == Palette(bg.value, fa.value, fb.value, sa.value, sb.value);
    TowardCloser(c.bg, t.bg, bg.value);
    TowardCloser(c.fillAlpha, t.fillAlpha, fa.value);
    TowardCloser(c.fillBrightness, t.fillBrightness, fb.value);
    TowardCloser(c.strokeAlpha, t.strokeAlpha, sa.value);
    TowardCloser(c.strokeBrightness, t.strokeBrightness, sb.value);
  }

  /** Despite the shared counter being reset by whichever scalar is already
      on target, all five scalars reach their targets within as many frames
      as the largest of their distances, and stay there. */
  lemma {:induction false} ColorsArrive(c: Palette, t: Palette, count: nat, k: nat)
    requires Within(c, t, k)
    ensures LerpColorsRepeat(c, t, count, k).colors == t
    decreases k
  {
    if k == 0 {
      assert c == t;
    } else {
      WithinShrinks(c, t, count, k);
      var f := LerpColors(c, t, count);
      ColorsArrive(f.colors, t, f.count, k - 1);
    }
  }

  /** Palettes in range are at most 360 apart in every scalar, so any such
      colours reach any such targets within 360 frames, which is less than
      one lerpTime (480 frames). */
  lemma ColorsArriveInLerpTime(c: Palette, t: Palette, count: nat, k: nat)
    requires InRanges(c) && InRanges(t) && k >= 360
    ensures LerpColorsRepeat(c, t, count, k).colors == t
  {
    ColorsArrive(c, t, count, k);
  }
}
