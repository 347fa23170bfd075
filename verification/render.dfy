/** `render` of script.js (lines 42-63): a readiness guard, then a "cover"
    crop that scales the whole image uniformly by the larger of the two
    canvas/image ratios and centres it on the canvas. Pixels are not
    modelled; a paint is the destination rectangle handed to `drawImage`
    after the whole canvas is cleared. */
module Renderer {
  import opened Wrappers
  import opened RealMath

  /** One entry of the `images` array: its source path, its natural size
      (0 x 0 until it has loaded) and the browser's `complete` flag. */
  datatype Image = Image(src: string, width: int, height: int, complete: bool)

  /** The canvas backing store, sized to the window's inner size. */
  datatype Canvas = Canvas(width: nat, height: nat)

  /** Destination rectangle of `drawImage`; the source rectangle is always
      the whole image. */
  datatype Rect = Rect(x: real, y: real, w: real, h: real)

  /** The guard of script.js:44: the entry exists and has completed. */
  predicate Ready(images: seq<Image>, frame: int) {
    0 <= frame < |images| && images[frame].complete
  }

  /** A loaded image has a positive natural size. */
  predicate Drawable(images: seq<Image>, frame: int) {
    Ready(images, frame) ==> images[frame].width > 0 && images[frame].height > 0
  }

  /** The rectangle covers the whole canvas. */
  predicate Covers(r: Rect, c: Canvas) {
    r.x <= 0.0 && r.y <= 0.0
    && r.x + r.w >= c.width as real && r.y + r.h >= c.height as real
  }

  /** The rectangle's centre is the canvas's centre. */
  predicate Centred(r: Rect, c: Canvas) {
    2.0 * r.x + r.w == c.width as real && 2.0 * r.y + r.h == c.height as real
  }

  /** `Math.max(canvas.width / img.width, canvas.height / img.height)`
      (script.js:49-51): the smallest uniform scale at which the image covers
      the canvas; it fits one side exactly. */
  function CoverRatio(iw: real, ih: real, cw: real, ch: real): (ratio: real)
    requires iw > 0.0 && ih > 0.0 && cw >= 0.0 && ch >= 0.0
    ensures ratio >= 0.0
    ensures iw * ratio >= cw && ih * ratio >= ch
    ensures iw * ratio == cw || ih * ratio == ch
  {
    Max(cw / iw, ch / ih)
  }

  /** No smaller uniform scale covers the canvas. */
  lemma CoverRatioIsLeast(iw: real, ih: real, cw: real, ch: real, scale: real)
    requires iw > 0.0 && ih > 0.0 && cw >= 0.0 && ch >= 0.0
    requires iw * scale >= cw && ih * scale >= ch
    ensures CoverRatio(iw, ih, cw, ch) <= scale
  {
  }

  /** The destination rectangle (script.js:53-54, 59-62): the scaled size,
      shifted by half of the (non-positive) leftover on each axis. */
  function CoverRect(iw: int, ih: int, c: Canvas): (r: Rect)
    requires iw > 0 && ih > 0
    ensures Covers(r, c)
    ensures Centred(r, c)
    ensures r.w * ih as real == r.h * iw as real
    ensures r.w == c.width as real || r.h == c.height as real
  {
    var ratio := CoverRatio(iw as real, ih as real, c.width as real, c.height as real);
    var w := iw as real * ratio;
    var h := ih as real * ratio;
    Rect((c.width as real - w) / 2.0, (c.height as real - h) / 2.0, w, h)
  }

  /** One call of `render`: None when the guard returns early, otherwise the
      rectangle the current frame is drawn into. */
  function Render(images: seq<Image>, frame: int, c: Canvas): (r: Option<Rect>)
    requires Drawable(images, frame)
    ensures r.None? <==> !Ready(images, frame)
    ensures r.Some? ==> Covers(r.value, c) && Centred(r.value, c)
    ensures r.Some? ==> r.value.w * images[frame].height as real == r.value.h * images[frame].width as real
  {
    if !Ready(images, frame) then None
    else Some(CoverRect(images[frame].width, images[frame].height, c))
  }

  /** The paint depends only on the frame's own image and the canvas: loading
      any other entry leaves it as it was. */
  lemma RenderIgnoresOtherFrames(images: seq<Image>, frame: int, c: Canvas, j: int, img: Image)
    requires Drawable(images, frame)
    requires 0 <= j < |images| && j != frame
    ensures Drawable(images[j := img], frame)
    ensures Render(images[j := img], frame, c) == Render(images, frame, c)
  {
  }
}
