/** AudioController (audio/controller.js) as a stateful object: the sample
    buffer it visualises, the view window (offsetMin, offsetMax), the queue of
    frames scheduled with requestAnimationFrame and the pending_frames
    counter that mirrors it, and the press position remembered between
    mousedown and mouseup. */
module Audio {
  import opened JsValues
  import opened ViewWindow

  /** The waveform buffer holds 2048 x 2048 texels of 4 channels. */
  const FB_SIZE: nat := 2048 * 2048 * 4

  /** What setOffsetRange guarantees about the window once samples exist:
      the start inside [0, total], at least one sample in view, and an end
      past the samples only for the window (total, total + 1). */
  predicate Shown(w: Window, total: nat)
  {
    0 <= w.min <= total && w.min + 1 <= w.max <= total + 1
    && (w.max == total + 1 ==> w.min == total)
  }

  /** Every window setOffsetRange produces is shown correctly. */
  lemma NormalizeShown(min: real, max: real, total: nat)
    ensures Shown(Normalize(min, max, total), total)
  {
  }

  /** The stripes of a frame, top to bottom. */
  function FrameStripes(f: Frame): (r: seq<Stripe>)
    ensures |r| == f.stripes
  {
    seq(f.stripes, k requires 0 <= k < f.stripes => StripeAt(f, k))
  }

  /** The stripe loop of drawFrame's callback: stripe k is analysed over the
      sample boundaries k and k + 1 of the frame and drawn into rows
      `h / ns * k | 0` onwards. The stripes tile the frame's range: the first
      starts at t_min, the last ends at t_max, and each ends where the next
      begins. */
  method DrawStripes(f: Frame) returns (stripes: seq<Stripe>)
    ensures stripes == FrameStripes(f)
    ensures f.stripes >= 1 ==>
              stripes[0].uOffsetMin == ToInt32(f.tMin)
              && stripes[|stripes| - 1].uOffsetMax == ToInt32(f.tMax)
              && forall k :: 0 <= k < |stripes| - 1 ==> stripes[k].uOffsetMax == stripes[k + 1].uOffsetMin
  {
    stripes := [];
    var k := 0;
    while k < f.stripes
      invariant 0 <= k <= f.stripes
      invariant |stripes| == k
      invariant forall j :: 0 <= j < k ==> stripes[j] == StripeAt(f, j)
    {
      stripes := stripes + [StripeAt(f, k)];
      k := k + 1;
    }
    if f.stripes >= 1 {
      StripesPartition(f);
    }
  }

  class AudioController {
    const fftSize: int
    /** The number of stripes a frame is drawn in (NUM_STRIPES). */
    const numStripes: nat
    const canvasHeight: int
    const clientWidth: real

    /** The decoded samples; None until start() has installed them. */
    var audioSamples: Option<seq<Num>>
    var offsetMin: int
    var offsetMax: int
    var pendingFrames: int
    /** The frames whose requestAnimationFrame callback has not run yet, oldest first. */
    var scheduled: seq<Frame>
    /** The x coordinate of the last mousedown, until mouseout. */
    var initialPos: Option<real>

    /** The counter counts the scheduled callbacks, and the canvas has a width. */
    predicate Queued()
      reads this
    {
      pendingFrames == |scheduled| && clientWidth > 0.0
    }

    predicate Valid()
      reads this
    {
      Queued() && (audioSamples.Some? ==> Shown(View(), |audioSamples.value|))
    }

    function View(): Window
      reads this
    {
      Window(offsetMin, offsetMax)
    }

    /** The frame drawFrame would schedule for the current window. */
    function CurrentFrame(): Frame
      reads this
    {
      FrameOf(View(), fftSize, numStripes, canvasHeight)
    }

    /** Whether setOffsetRange(min, max) changes the window. */
    predicate Accepts(min: Num, max: Num)
      reads this
    {
      audioSamples.Some? && min.Finite? && max.Finite?
    }

    constructor(fftSize: int, numStripes: nat, canvasHeight: int, clientWidth: real)
      requires clientWidth > 0.0
      ensures Valid()
      ensures this.fftSize == fftSize && this.numStripes == numStripes
      ensures this.canvasHeight == canvasHeight && this.clientWidth == clientWidth
      ensures audioSamples.None? && offsetMin == 0 && offsetMax == 0
      ensures pendingFrames == 0 && scheduled == [] && initialPos.None?
    {
      this.fftSize := fftSize;
      this.numStripes := numStripes;
      this.canvasHeight := canvasHeight;
      this.clientWidth := clientWidth;
      audioSamples := None;
      offsetMin, offsetMax := 0, 0;
      pendingFrames := 0;
      scheduled := [];
      initialPos := None;
    }

    /** setOffsetRange(min, max, {draw}): without samples or with a bound
        that is not finite nothing happens; otherwise the window becomes the
        normalised bounds and, when `draw` is set, a frame of it is scheduled. */
    method SetOffsetRange(min: Num, max: Num, draw: bool)
      requires Queued()
      modifies this
      ensures Queued()
      ensures audioSamples == old(audioSamples) && initialPos == old(initialPos)
      ensures !old(Accepts(min, max)) ==> unchanged(this)
      ensures old(Accepts(min, max)) ==>
                View() == Normalize(min.value, max.value, |audioSamples.value|)
                && scheduled == old(scheduled) + (if draw then [CurrentFrame()] else [])
      ensures old(Valid()) || old(Accepts(min, max)) ==> Valid()
    {
      if audioSamples.None? {
        return;
      }
      var total := |audioSamples.value|;
      if !min.Finite? || !max.Finite? {
        return;
      }
      var lo, hi := Round(min.value), Round(max.value);
      if lo > hi {
        lo, hi := hi, lo;
      }
      lo := Max(0, Min(lo, total));
      hi := Max(lo + 1, Min(hi, total));
      offsetMin, offsetMax := lo, hi;
      NormalizeShown(min.value, max.value, total);
      if draw {
        DrawFrame();
      }
    }

    /** applyZoom(value): re-centres a window of ZoomSpan samples on the
        current midpoint, shifted back inside the samples, and draws it. */
    method ApplyZoom(value: Num)
      requires Valid()
      modifies this
      ensures Valid()
      ensures audioSamples == old(audioSamples) && initialPos == old(initialPos)
      ensures old(audioSamples).None? || !value.Finite? ==> unchanged(this)
      ensures old(audioSamples).Some? && value.Finite? ==>
                View() == ZoomWindow(old(View()), |audioSamples.value|, value.value)
                && scheduled == old(scheduled) + [CurrentFrame()]
      ensures old(audioSamples).Some? && value.Finite? && |audioSamples.value| >= 1 ==>
                Inside(View(), |audioSamples.value|)
                && offsetMax - offsetMin == ZoomSpan(|audioSamples.value|, value.value)
      ensures old(audioSamples).Some? && value.Finite? && |audioSamples.value| >= 1 ==>
                var total := |audioSamples.value|;
                var span := ZoomSpan(total, value.value);
                var lo := (old(offsetMin) + old(offsetMax)) as real / 2.0 - span as real / 2.0;
                View() == if lo < 0.0 then Window(0, span)
                          else if lo + span as real > total as real then Window(total - span, total)
                          else Window(Round(lo), Round(lo) + span)
    {
      if audioSamples.None? || !value.Finite? {
        return;
      }
      var total := |audioSamples.value|;
      var span := ZoomSpan(total, value.value);
      var r := ZoomTarget(View(), total, span);
      SetOffsetRange(Finite(r.0), Finite(r.1), true);
      if total >= 1 {
        ZoomWindowSpan(old(View()), total, value.value);
        ZoomWindowCentred(old(View()), total, value.value);
      }
    }

    /** drawFrame(): counts one more pending frame and schedules the frame of
        the current window. */
    method DrawFrame()
      requires Queued()
      modifies this
      ensures Queued()
      ensures pendingFrames == old(pendingFrames) + 1
      ensures scheduled == old(scheduled) + [old(CurrentFrame())]
      ensures audioSamples == old(audioSamples) && initialPos == old(initialPos)
      ensures View() == old(View())
    {
      pendingFrames := pendingFrames + 1;
      scheduled := scheduled + [CurrentFrame()];
    }

    /** The requestAnimationFrame callback of the oldest scheduled frame: it
        uncounts the frame and draws its stripes. */
    method RunFrame() returns (stripes: seq<Stripe>)
      requires Valid() && scheduled != []
      modifies this
      ensures Valid()
      ensures pendingFrames == old(pendingFrames) - 1
      ensures scheduled == old(scheduled[1..])
      ensures audioSamples == old(audioSamples) && View() == old(View())
      ensures initialPos == old(initialPos)
      ensures stripes == FrameStripes(old(scheduled[0]))
    {
      var f := scheduled[0];
      scheduled := scheduled[1..];
      pendingFrames := pendingFrames - 1;
      stripes := DrawStripes(f);
    }

    /** onmousedown: remember where the drag started. */
    method MouseDown(offsetX: real)
      modifies this
      ensures initialPos == Some(offsetX)
      ensures audioSamples == old(audioSamples) && View() == old(View())
      ensures pendingFrames == old(pendingFrames) && scheduled == old(scheduled)
    {
      initialPos := Some(offsetX);
    }

    /** onmouseout: forget the drag. */
    method MouseOut()
      modifies this
      ensures initialPos.None?
      ensures audioSamples == old(audioSamples) && View() == old(View())
      ensures pendingFrames == old(pendingFrames) && scheduled == old(scheduled)
    {
      initialPos := None;
    }

    /** onmouseup: with a drag in progress and no frame pending, shift the
        window by the truncated sample distance between press and release;
        a shift of 0 does nothing. The press position is kept. */
    method MouseUp(offsetX: real)
      requires Valid()
      modifies this
      ensures Valid()
      ensures audioSamples == old(audioSamples) && initialPos == old(initialPos)
      ensures old(initialPos).None? || old(pendingFrames) != 0 ==> unchanged(this)
      ensures old(initialPos).Some? && old(pendingFrames) == 0 ==>
                var dt := PanDelta(old(initialPos).value, offsetX, clientWidth, old(View()));
                if dt == 0 || audioSamples.None? then unchanged(this)
                else View() == Normalize((old(offsetMin) + dt) as real, (old(offsetMax) + dt) as real, |audioSamples.value|)
                     && scheduled == old(scheduled) + [CurrentFrame()]
    {
      if initialPos.None? {
        return;
      }
      if pendingFrames != 0 {
        return;
      }
      var t2 := CanvasXtoT(offsetX, clientWidth, View());
      var t1 := CanvasXtoT(initialPos.value, clientWidth, View());
      var dt := ToInt32(t1 - t2);
      assert dt == PanDelta(initialPos.value, offsetX, clientWidth, View());
      if -1 < dt < 1 {
        return;
      }
      var min, max := (offsetMin + dt) as real, (offsetMax + dt) as real;
      SetOffsetRange(Finite(min), Finite(max), true);
    }

    /** onclick: ctrl+shift shows all samples (a TypeError before samples
        exist, since `audioSamples.length` is read first), ctrl moves the
        start to the clicked sample and shift moves the end there. */
    method Click(offsetX: real, ctrlKey: bool, shiftKey: bool) returns (threw: bool)
      requires Valid()
      modifies this
      ensures Valid()
      ensures audioSamples == old(audioSamples) && initialPos == old(initialPos)
      ensures threw <==> ctrlKey && shiftKey && old(audioSamples).None?
      ensures old(audioSamples).None? || !(ctrlKey || shiftKey) ==> unchanged(this)
      ensures old(audioSamples).Some? && (ctrlKey || shiftKey) ==>
                var t := ToInt32(CanvasXtoT(offsetX, clientWidth, old(View())));
                var total := |audioSamples.value|;
                View() == (if ctrlKey && shiftKey then Normalize(0.0, total as real, total)
                           else if ctrlKey then Normalize(t as real, old(offsetMax) as real, total)
                           else Normalize(old(offsetMin) as real, t as real, total))
                && scheduled == old(scheduled) + [CurrentFrame()]
    {
      var t := CanvasXtoT(offsetX, clientWidth, View());
      threw := false;
      if ctrlKey && shiftKey {
        if audioSamples.None? {
          threw := true;
          return;
        }
        SetOffsetRange(Finite(0.0), Finite(|audioSamples.value| as real), true);
      } else if ctrlKey {
        SetOffsetRange(Finite(ToInt32(t) as real), Finite(offsetMax as real), true);
      } else if shiftKey {
        SetOffsetRange(Finite(offsetMin as real), Finite(ToInt32(t) as real), true);
      }
    }

    /** onmousewheel: with no frame pending, scale the window about its
        midpoint by 2/3 (wheel up) or 1.5 (wheel down). */
    method Wheel(wheelDelta: int)
      requires Valid()
      modifies this
      ensures Valid()
      ensures audioSamples == old(audioSamples) && initialPos == old(initialPos)
      ensures old(pendingFrames) != 0 || old(audioSamples).None? ==> unchanged(this)
      ensures old(pendingFrames) == 0 && old(audioSamples).Some? ==>
                var r := WheelTarget(old(View()), wheelDelta);
                View() == Normalize(r.0, r.1, |audioSamples.value|)
                && scheduled == old(scheduled) + [CurrentFrame()]
    {
      if pendingFrames != 0 {
        return;
      }
      var r := WheelTarget(View(), wheelDelta);
      SetOffsetRange(Finite(r.0), Finite(r.1), true);
    }

    /** The part of start() after resampling: keep at most FB_SIZE samples,
        show all of them without drawing, then draw one frame. */
    method InstallSamples(decoded: seq<Num>)
      requires Queued()
      modifies this
      ensures Valid()
      ensures audioSamples == Some(if |decoded| > FB_SIZE then decoded[..FB_SIZE] else decoded)
      ensures |audioSamples.value| == Min(|decoded|, FB_SIZE)
      ensures View() == Normalize(0.0, |audioSamples.value| as real, |audioSamples.value|)
      ensures |decoded| >= 1 ==> View() == Window(0, |audioSamples.value|)
      ensures scheduled == old(scheduled) + [CurrentFrame()]
      ensures initialPos == old(initialPos)
    {
      var samples := decoded;
      if |samples| > FB_SIZE {
        samples := samples[..FB_SIZE];
      }
      audioSamples := Some(samples);
      SetOffsetRange(Finite(0.0), Finite(|samples| as real), false);
      if |samples| >= 1 {
        NormalizeKeepsInside(Window(0, |samples|), |samples|);
      }
      DrawFrame();
    }
  }
}
