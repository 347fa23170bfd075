/** The scroll handler of script.js (lines 66-95): the scroll offset becomes
    a fraction of the canvas container's scrollable height, the fraction
    becomes a frame index, the playback state changes (and a repaint is
    requested) only when the index does, and the heading and the scroll
    prompt fade out linearly between offsets 50 and 450. Arithmetic is exact. */
module ScrollMapper {
  import FramePath
  import opened RealMath

  /** `Math.max(0, Math.min(1, scrollTop / maxCanvasScroll))` (script.js:73). */
  function ScrollFraction(scrollTop: real, maxCanvasScroll: real): (f: real)
    requires maxCanvasScroll > 0.0
    ensures 0.0 <= f <= 1.0
    ensures f == 0.0 <==> scrollTop <= 0.0
    ensures f == 1.0 <==> scrollTop >= maxCanvasScroll
    ensures 0.0 < scrollTop < maxCanvasScroll ==> f * maxCanvasScroll == scrollTop
  {
    Max(0.0, Min(1.0, scrollTop / maxCanvasScroll))
  }

  /** A larger offset never gives a smaller fraction. */
  lemma ScrollFractionMonotone(a: real, b: real, maxCanvasScroll: real)
    requires maxCanvasScroll > 0.0
    requires a <= b
    ensures ScrollFraction(a, maxCanvasScroll) <= ScrollFraction(b, maxCanvasScroll)
  {
    assert a / maxCanvasScroll <= b / maxCanvasScroll by {
      assert b / maxCanvasScroll - a / maxCanvasScroll == (b - a) / maxCanvasScroll;
    }
  }

  /** `Math.min(frameCount - 1, Math.floor(fraction * frameCount))`
      (script.js:76-79): the last frame, or the floor of the scaled fraction. */
  function FrameIndex(fraction: real): (k: int)
    ensures k <= FramePath.FrameCount - 1
    ensures 0.0 <= fraction ==> 0 <= k
    ensures k == FramePath.FrameCount - 1
         || k as real <= fraction * FramePath.FrameCount as real < k as real + 1.0
  {
    var scaled := (fraction * FramePath.FrameCount as real).Floor;
    if FramePath.FrameCount - 1 <= scaled then FramePath.FrameCount - 1 else scaled
  }

  /** A larger fraction never gives an earlier frame. */
  lemma FrameIndexMonotone(a: real, b: real)
    requires a <= b
    ensures FrameIndex(a) <= FrameIndex(b)
  {
  }

  /** A fraction of exactly 1 shows the last frame, and so does every fraction
      in its last 1/50th. */
  lemma FrameIndexAtEnd(fraction: real)
    requires (FramePath.FrameCount - 1) as real / FramePath.FrameCount as real <= fraction
    ensures FrameIndex(fraction) == FramePath.FrameCount - 1
  {
  }

  /** Each frame k owns the fractions in [k/50, (k+1)/50), the last frame
      also owning 1. */
  lemma FrameIndexBand(fraction: real, k: int)
    requires 0 <= k < FramePath.FrameCount
    requires k as real <= fraction * FramePath.FrameCount as real < (k + 1) as real
    ensures FrameIndex(fraction) == k
  {
  }

  /** The frame index for a scroll offset. */
  function ScrollFrameIndex(scrollTop: real, maxCanvasScroll: real): (k: int)
    requires maxCanvasScroll > 0.0
    ensures 0 <= k < FramePath.FrameCount
    ensures scrollTop <= 0.0 ==> k == 0
    ensures scrollTop >= maxCanvasScroll ==> k == FramePath.FrameCount - 1
  {
    FrameIndex(ScrollFraction(scrollTop, maxCanvasScroll))
  }

  /** Scrolling further down never shows an earlier frame. */
  lemma ScrollFrameIndexMonotone(a: real, b: real, maxCanvasScroll: real)
    requires maxCanvasScroll > 0.0
    requires a <= b
    ensures ScrollFrameIndex(a, maxCanvasScroll) <= ScrollFrameIndex(b, maxCanvasScroll)
  {
    ScrollFractionMonotone(a, b, maxCanvasScroll);
    FrameIndexMonotone(ScrollFraction(a, maxCanvasScroll), ScrollFraction(b, maxCanvasScroll));
  }

  /** Opacity of the heading and the scroll prompt (script.js:87-94): 1 up
      to an offset of 50, then `Math.max(0, 1 - (scrollTop - 50) / 400)`. */
  function Opacity(scrollTop: real): (o: real)
    ensures 0.0 <= o <= 1.0
    ensures scrollTop <= 50.0 ==> o == 1.0
    ensures scrollTop >= 450.0 ==> o == 0.0
    ensures 50.0 <= scrollTop <= 450.0 ==> o * 400.0 == 450.0 - scrollTop
  {
    if scrollTop > 50.0 then Max(0.0, 1.0 - (scrollTop - 50.0) / 400.0) else 1.0
  }

  /** The code clamps only from below; it agrees everywhere with the linear
      ramp clamped to [0, 1] on both sides. */
  lemma OpacityIsClampedRamp(scrollTop: real)
    ensures Opacity(scrollTop) == Clamp(1.0 - (scrollTop - 50.0) / 400.0, 0.0, 1.0)
  {
  }

  /** Scrolling further down never makes the heading more opaque. */
  lemma OpacityMonotone(a: real, b: real)
    requires a <= b
    ensures Opacity(b) <= Opacity(a)
  {
  }

  /** The shared playback state `aotState`. */
  datatype Playback = Playback(frame: int)

  /** What one scroll event does: the new playback state, whether
      `requestAnimationFrame(render)` was called, and the opacities written
      to the heading and to the scroll prompt. */
  datatype ScrollOutcome = ScrollOutcome(
    state: Playback,
    renderRequested: bool,
    overlayOpacity: real,
    promptOpacity: real)

  /** The scroll event listener (script.js:66-95). */
  function OnScroll(s: Playback, scrollTop: real, maxCanvasScroll: real): (r: ScrollOutcome)
    requires maxCanvasScroll > 0.0
    ensures 0 <= r.state.frame < FramePath.FrameCount
    ensures r.state.frame == ScrollFrameIndex(scrollTop, maxCanvasScroll)
    ensures r.renderRequested <==> r.state != s
    ensures r.overlayOpacity == r.promptOpacity
    ensures r.overlayOpacity == Opacity(scrollTop)
  {
    var frameIndex := ScrollFrameIndex(scrollTop, maxCanvasScroll);
    var opacity := Opacity(scrollTop);
    if s.frame != frameIndex then
      ScrollOutcome(Playback(frameIndex), true, opacity, opacity)
    else
      ScrollOutcome(s, false, opacity, opacity)
  }

  /** Two scroll events at the same offset: the second changes nothing and
      requests no repaint. */
  lemma OnScrollSettles(s: Playback, scrollTop: real, maxCanvasScroll: real)
    requires maxCanvasScroll > 0.0
    ensures var first := OnScroll(s, scrollTop, maxCanvasScroll);
            var second := OnScroll(first.state, scrollTop, maxCanvasScroll);
            second.state == first.state && !second.renderRequested
  {
  }

  /** At the top nothing moves; at an offset of 450 out of 1000 the fraction
      is 0.45, the frame is 22 and the heading is fully transparent. */
  lemma ScrollScenarios()
    ensures OnScroll(Playback(0), 0.0, 1000.0) == ScrollOutcome(Playback(0), false, 1.0, 1.0)
    ensures OnScroll(Playback(0), 450.0, 1000.0) == ScrollOutcome(Playback(22), true, 0.0, 0.0)
  {
  }
}
