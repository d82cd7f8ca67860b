/** The view window of AudioController (audio/controller.js): the visible
    range of sample indices, the single clamping gate every change goes
    through, the zoom-to-span mapping, the pixel-to-sample map, the pan and
    wheel rules, and the partition of a frame into stripes. Everything here is
    a value computation; the class in module Audio applies it to its fields. */
module ViewWindow {
  import opened JsValues

  /** The visible range [min, max) of sample indices (offsetMin, offsetMax). */
  datatype Window = Window(min: int, max: int)

  /** A window inside `total` samples with at least one sample in view. */
  predicate Inside(w: Window, total: int)
  {
    0 <= w.min < w.max <= total
  }

  /** setOffsetRange on finite bounds: round both, swap if reversed, clamp
      min to [0, total] and max to [min + 1, total] (min + 1 wins). */
  function Normalize(min: real, max: real, total: nat): (w: Window)
    ensures 0 <= w.min <= total
    ensures w.min + 1 <= w.max
    ensures w.max <= total || (w.min == total && w.max == total + 1)
    // the window overshoots the samples exactly when its start is clamped to the end,
    // which with samples present happens exactly when both rounded bounds reach the end
    ensures w.max == total + 1 <==> w.min == total
    ensures total >= 1 ==> (w.min == total <==> Min(Round(min), Round(max)) >= total)
    ensures total >= 1 && w.min < total ==> Inside(w, total)
  {
    var a, b := Round(min), Round(max);
    var lo, hi := (if a > b then b else a), (if a > b then a else b);
    var lo' := Max(0, Min(lo, total));
    Window(lo', Max(lo' + 1, Min(hi, total)))
  }

  /** Which window the gate picks: the start is the smaller rounded bound
      clamped to [0, total], and the end is the larger rounded bound clamped
      to [start + 1, total], start + 1 winning. */
  lemma NormalizeRounds(min: real, max: real, total: nat)
    ensures var w, lo := Normalize(min, max, total), Min(Round(min), Round(max));
            (lo < 0 ==> w.min == 0) && (0 <= lo <= total ==> w.min == lo) && (lo > total ==> w.min == total)
    ensures var w, hi := Normalize(min, max, total), Max(Round(min), Round(max));
            (w.min < hi <= total ==> w.max == hi)
            && (hi > total ==> w.max == Max(w.min + 1, total))
            && (hi <= w.min ==> w.max == w.min + 1)
  {
  }

  /** The order of the two bounds does not matter. */
  lemma NormalizeSymmetric(a: real, b: real, total: nat)
    ensures Normalize(a, b, total) == Normalize(b, a, total)
  {
  }

  /** A window that is already inside the samples passes the gate unchanged. */
  lemma NormalizeKeepsInside(w: Window, total: nat)
    requires Inside(w, total)
    ensures Normalize(w.min as real, w.max as real, total) == w
  {
  }

  /** The gate is idempotent: applying it to its own result changes nothing,
      including the overshooting window (total, total + 1). */
  lemma NormalizeIdempotent(a: real, b: real, total: nat)
    ensures var w := Normalize(a, b, total);
            Normalize(w.min as real, w.max as real, total) == w
  {
  }

  /** Requesting (-50, 2000) over 1000 samples shows everything. */
  lemma NormalizeScenario()
    ensures Normalize(-50.0, 2000.0, 1000) == Window(0, 1000)
  {
  }

  /** A window past the end is clamped to the one-sample window (total, total + 1). */
  lemma NormalizeOvershoot()
    ensures Normalize(5000.0, 6000.0, 1000) == Window(1000, 1001)
  {
  }

  /** applyZoom's span: round(total / max(1, value)), clamped to [1, total]
      (1 is overridden by total when there are no samples). */
  function ZoomSpan(total: nat, value: real): (span: int)
    ensures 0 <= span <= total
    ensures total >= 1 ==> 1 <= span
    ensures value <= 1.0 ==> span == total
    // above 1 the span is Math.round(total / value), clamped to [1, total]
    ensures value > 1.0 && 1 < span < total ==>
              span as real - 0.5 <= total as real / value < span as real + 0.5
    ensures value > 1.0 && total >= 1 && span == 1 ==> total as real / value < 1.5
    ensures value > 1.0 && total >= 2 && span == total ==> total as real / value >= total as real - 0.5
  {
    var v := if value < 1.0 then 1.0 else value;
    var s := Round(total as real / v);
    var s1 := if s < 1 then 1 else s;
    if s1 > total then total else s1
  }

  /** applyZoom before its final setOffsetRange: a window of `span` centred on
      the current midpoint, shifted right if it starts before 0, then left if
      it ends after total. It always lies inside [0, total] and keeps the span. */
  function ZoomTarget(w: Window, total: nat, span: int): (r: (real, real))
    requires 0 <= span <= total
    ensures 0.0 <= r.0 && r.1 <= total as real
    ensures r.1 - r.0 == span as real
    // centred on the old midpoint when that fits
    ensures var lo := (w.min + w.max) as real / 2.0 - span as real / 2.0;
            0.0 <= lo && lo + span as real <= total as real ==> r == (lo, lo + span as real)
    // otherwise pushed back against the edge it crossed
    ensures var lo := (w.min + w.max) as real / 2.0 - span as real / 2.0;
            lo < 0.0 ==> r == (0.0, span as real)
    ensures var lo := (w.min + w.max) as real / 2.0 - span as real / 2.0;
            lo + span as real > total as real ==> r == ((total - span) as real, total as real)
  {
    var mid := (w.min + w.max) as real / 2.0;
    var lo0, hi0 := mid - span as real / 2.0, mid + span as real / 2.0;
    var lo1, hi1 := (if lo0 < 0.0 then 0.0 else lo0), (if lo0 < 0.0 then hi0 - lo0 else hi0);
    if hi1 > total as real then
      var lo2 := lo1 - (hi1 - total as real);
      (if lo2 < 0.0 then 0.0 else lo2, total as real)
    else
      (lo1, hi1)
  }

  /** The window applyZoom(value) installs, for a finite value. */
  function ZoomWindow(w: Window, total: nat, value: real): Window
  {
    var r := ZoomTarget(w, total, ZoomSpan(total, value));
    Normalize(r.0, r.1, total)
  }

  /** With samples present, the zoomed window lies inside the samples and
      shows exactly ZoomSpan samples, whatever the window was before. */
  lemma {:induction false} ZoomWindowSpan(w: Window, total: nat, value: real)
    requires total >= 1
    ensures var z := ZoomWindow(w, total, value);
            Inside(z, total) && z.max - z.min == ZoomSpan(total, value)
  {
    var span := ZoomSpan(total, value);
    var r := ZoomTarget(w, total, span);
    RoundShift(r.0, span);
    assert r.1 == r.0 + span as real;
    RoundMonotone(0.0, r.0);
    RoundMonotone(r.1, total as real);
  }

  /** With samples present, the zoomed window is the span centred on the old
      midpoint (its start rounded), or the span against the edge the centred
      window would cross. */
  lemma {:induction false} ZoomWindowCentred(w: Window, total: nat, value: real)
    requires total >= 1
    ensures var span := ZoomSpan(total, value);
            var lo := (w.min + w.max) as real / 2.0 - span as real / 2.0;
            ZoomWindow(w, total, value)
            == if lo < 0.0 then Window(0, span)
               else if lo + span as real > total as real then Window(total - span, total)
               else Window(Round(lo), Round(lo) + span)
  {
    var span := ZoomSpan(total, value);
    var r := ZoomTarget(w, total, span);
    ZoomWindowSpan(w, total, value);
    NormalizeRounds(r.0, r.1, total);
    RoundMonotone(r.0, r.1);
    RoundMonotone(0.0, r.0);
    RoundMonotone(r.0, total as real);
    RoundShift(0.0, total - span);
  }

  /** Any zoom factor of at most 1 shows all samples, from any window. */
  lemma ZoomOutShowsAll(w: Window, total: nat, value: real)
    requires total >= 1 && value <= 1.0
    ensures ZoomWindow(w, total, value) == Window(0, total)
  {
    ZoomWindowSpan(w, total, value);
  }

  /** Zooming (0, 1000) by 10 gives the 100 samples around the middle. */
  lemma ZoomScenario()
    ensures ZoomWindow(Window(0, 1000), 1000, 10.0) == Window(450, 550)
  {
    assert ZoomSpan(1000, 10.0) == 100;
  }

  /** canvasXtoT: linear interpolation from offsetMin at pixel 0 to
      offsetMax at pixel `clientWidth`, extrapolating outside the canvas. */
  function CanvasXtoT(offsetX: real, clientWidth: real, w: Window): (t: real)
    requires clientWidth > 0.0
    ensures t == w.min as real + (w.max - w.min) as real * (offsetX / clientWidth)
  {
    var x := offsetX / clientWidth;
    w.min as real * (1.0 - x) + w.max as real * x
  }

  /** Pixel 0 maps to offsetMin and pixel clientWidth to offsetMax; a pixel
      distance maps to a proportional sample distance anywhere on the line. */
  lemma CanvasXtoTLinear(x1: real, x2: real, clientWidth: real, w: Window)
    requires clientWidth > 0.0
    ensures CanvasXtoT(0.0, clientWidth, w) == w.min as real
    ensures CanvasXtoT(clientWidth, clientWidth, w) == w.max as real
    ensures CanvasXtoT(x1, clientWidth, w) - CanvasXtoT(x2, clientWidth, w)
            == (w.max - w.min) as real * ((x1 - x2) / clientWidth)
  {
  }

  /** The drag shift of mouseup: `(t1 - t2) | 0` for the sample times under
      the press and release pixels. */
  function PanDelta(pressX: real, releaseX: real, clientWidth: real, w: Window): int
    requires clientWidth > 0.0
  {
    ToInt32(CanvasXtoT(pressX, clientWidth, w) - CanvasXtoT(releaseX, clientWidth, w))
  }

  /** Dragging right by d pixels moves the window left by about d pixels'
      worth of samples: the shift is the truncated proportional distance. */
  lemma PanDeltaProportional(pressX: real, releaseX: real, clientWidth: real, w: Window)
    requires clientWidth > 0.0
    requires -(TWO_31 as real) < (w.max - w.min) as real * ((pressX - releaseX) / clientWidth) < TWO_31 as real
    ensures PanDelta(pressX, releaseX, clientWidth, w)
            == Trunc((w.max - w.min) as real * ((pressX - releaseX) / clientWidth))
  {
    CanvasXtoTLinear(pressX, releaseX, clientWidth, w);
  }

  /** A pan that keeps the window inside the samples moves it rigidly. */
  lemma PanInsideKeepsSpan(w: Window, total: nat, dt: int)
    requires Inside(Window(w.min + dt, w.max + dt), total)
    ensures Normalize((w.min + dt) as real, (w.max + dt) as real, total) == Window(w.min + dt, w.max + dt)
  {
    NormalizeKeepsInside(Window(w.min + dt, w.max + dt), total);
  }

  /** The wheel factor `1.5 ** -Math.sign(wheelDelta)`. */
  function WheelFactor(wheelDelta: int): (f: real)
    ensures wheelDelta > 0 ==> f < 1.0
    ensures wheelDelta < 0 ==> f > 1.0
    ensures wheelDelta == 0 ==> f == 1.0
  {
    if wheelDelta > 0 then 2.0 / 3.0 else if wheelDelta < 0 then 1.5 else 1.0
  }

  /** The bounds the wheel handler passes to setOffsetRange: the window scaled
      by the factor about its midpoint. */
  function WheelTarget(w: Window, wheelDelta: int): (r: (real, real))
    ensures (r.0 + r.1) / 2.0 == (w.min + w.max) as real / 2.0
    ensures r.1 - r.0 == (w.max - w.min) as real * WheelFactor(wheelDelta)
  {
    var mid := (w.min + w.max) as real / 2.0;
    var len := (w.max - w.min) as real;
    var span := len * WheelFactor(wheelDelta);
    (mid - span / 2.0, mid + span / 2.0)
  }

  /** A wheel event without direction leaves a window inside the samples as it is. */
  lemma WheelNeutral(w: Window, total: nat)
    requires Inside(w, total)
    ensures var r := WheelTarget(w, 0); Normalize(r.0, r.1, total) == w
  {
    var r := WheelTarget(w, 0);
    assert r == (w.min as real, w.max as real);
    NormalizeKeepsInside(w, total);
  }

  /** Zooming in with the wheel never widens a window that is inside the samples. */
  lemma {:induction false} WheelInNarrows(w: Window, total: nat, wheelDelta: int)
    requires Inside(w, total) && wheelDelta > 0
    ensures var r := WheelTarget(w, wheelDelta); var z := Normalize(r.0, r.1, total);
            Inside(z, total) && z.max - z.min <= w.max - w.min
  {
    var r := WheelTarget(w, wheelDelta);
    assert w.min as real <= r.0 <= r.1 <= w.max as real;
    RoundMonotone(w.min as real, r.0);
    RoundMonotone(r.0, r.1);
    RoundMonotone(r.1, w.max as real);
  }

  /** The window that overshoots the samples, (total, total + 1), is a fixed
      point of the wheel in every direction: its bounds round back to total
      and total + 1 for each of the three factors. */
  lemma {:induction false} WheelKeepsOvershoot(total: nat, wheelDelta: int)
    ensures var w := Window(total, total + 1); var r := WheelTarget(w, wheelDelta);
            Normalize(r.0, r.1, total) == w
  {
    var w := Window(total, total + 1);
    var r := WheelTarget(w, wheelDelta);
    var f := WheelFactor(wheelDelta);
    assert f == 2.0 / 3.0 || f == 1.0 || f == 1.5;
    assert r == (total as real + 0.5 - f / 2.0, total as real + 0.5 + f / 2.0);
    assert total as real - 0.5 <= r.0 < total as real + 0.5;
    assert Round(r.0) == total;
    assert total as real + 0.5 <= r.1 < total as real + 1.5;
    assert Round(r.1) == total + 1;
    NormalizeRounds(r.0, r.1, total);
  }

  /** What drawFrame captures for its scheduled callback: the analysis range
      `t_min = offsetMin - fft_size / 2`, `t_max = offsetMax - fft_size / 2`,
      the number of stripes and the canvas height. */
  datatype Frame = Frame(tMin: real, tMax: real, stripes: nat, height: int)

  function FrameOf(w: Window, fftSize: int, stripes: nat, height: int): Frame
  {
    Frame(w.min as real - fftSize as real / 2.0, w.max as real - fftSize as real / 2.0, stripes, height)
  }

  /** One stripe: the shader's uOffsetMin/uOffsetMax and the canvas rows
      (top, rows) it is drawn into. */
  datatype Stripe = Stripe(uOffsetMin: int, uOffsetMax: int, top: int, rows: int)

  /** The step `dt = (t_max - t_min) / ns`; unused when there are no stripes. */
  function StripeStep(f: Frame): real
  {
    if f.stripes == 0 then 0.0 else (f.tMax - f.tMin) / f.stripes as real
  }

  /** The analysis position of stripe boundary k, `t_min + dt * k`. */
  function Position(f: Frame, k: nat): real
  {
    f.tMin + StripeStep(f) * k as real
  }

  /** The sample index of stripe boundary k, `t_min + dt * k | 0`. */
  function Boundary(f: Frame, k: nat): int
  {
    ToInt32(Position(f, k))
  }

  /** The canvas rows per stripe, `h / ns`. */
  function StripeRows(f: Frame): real
  {
    if f.stripes == 0 then 0.0 else f.height as real / f.stripes as real
  }

  /** Stripe k of frame f. */
  function StripeAt(f: Frame, k: nat): Stripe
  {
    Stripe(Boundary(f, k), Boundary(f, k + 1), ToInt32(StripeRows(f) * k as real), ToInt32(StripeRows(f)))
  }

  /** `(a / n) * n == a` for the stripe step. */
  lemma StepTimesCount(a: real, n: real)
    requires n > 0.0
    ensures (a / n) * n == a
  {
  }

  /** The last boundary is t_max. */
  lemma LastBoundaryPosition(f: Frame)
    requires f.stripes >= 1
    ensures Position(f, f.stripes) == f.tMax
  {
    StepTimesCount(f.tMax - f.tMin, f.stripes as real);
  }

  /** The stripes partition [t_min, t_max]: the first starts at `t_min | 0`,
      the last ends at `t_max | 0`, and each ends where the next begins. */
  lemma {:induction false} StripesPartition(f: Frame)
    requires f.stripes >= 1
    ensures StripeAt(f, 0).uOffsetMin == ToInt32(f.tMin)
    ensures StripeAt(f, f.stripes - 1).uOffsetMax == ToInt32(f.tMax)
    ensures forall k: nat :: k + 1 < f.stripes ==> StripeAt(f, k).uOffsetMax == StripeAt(f, k + 1).uOffsetMin
  {
    LastBoundaryPosition(f);
    var last := f.stripes - 1;
    assert Boundary(f, last + 1) == Boundary(f, f.stripes);
  }

  /** For a range that is not reversed, boundary k lies in [t_min, t_max]
      and boundaries move forward with k. */
  lemma {:induction false} BoundaryPosition(f: Frame, j: nat, k: nat)
    requires f.tMin <= f.tMax && f.stripes >= 1
    requires j <= k <= f.stripes
    ensures f.tMin <= Position(f, j) <= Position(f, k) <= f.tMax
  {
    var dt := StripeStep(f);
    assert 0.0 <= dt by {
      assert f.tMax - f.tMin >= 0.0 && f.stripes as real > 0.0;
    }
    var pj, pk, pn := Position(f, j), Position(f, k), Position(f, f.stripes);
    assert pj == f.tMin + dt * j as real;
    assert pk == f.tMin + dt * k as real;
    assert pn == f.tMin + dt * f.stripes as real;
    ScaleMonotone(dt, 0.0, j as real);
    ScaleMonotone(dt, j as real, k as real);
    ScaleMonotone(dt, k as real, f.stripes as real);
    assert f.tMin <= pj <= pk <= pn;
    LastBoundaryPosition(f);
    assert pn == f.tMax;
  }

  lemma ScaleMonotone(c: real, x: real, y: real)
    requires 0.0 <= c && x <= y
    ensures c * x <= c * y
  {
    assert c * y - c * x == c * (y - x);
  }

  /** When the analysis range fits in 32 bits and is not reversed, no stripe
      is reversed and the boundaries never decrease. */
  lemma {:induction false} StripesOrdered(f: Frame, j: nat, k: nat)
    requires f.tMin <= f.tMax
    requires -(TWO_31 as real) < f.tMin && f.tMax < TWO_31 as real
    requires j <= k <= f.stripes
    ensures Boundary(f, j) <= Boundary(f, k)
  {
    if j == k {
      return;
    }
    BoundaryPosition(f, j, k);
    TruncMonotone(Position(f, j), Position(f, k));
  }
}
