/** The script as a whole, as one state and the events the browser
    delivers to it: an image load, a scroll, a window resize, and the
    animation frame that runs the renders the scroll handler queued. */
module Page {
  import opened Wrappers
  import FramePath
  import opened Renderer
  import Preloader
  import ScrollMapper

  /** The `images` array, `aotState`, the `imagesLoaded` counter, the canvas
      size, and how many `requestAnimationFrame(render)` callbacks wait for
      the next animation frame. */
  datatype Page = Page(
    images: seq<Image>,
    playback: ScrollMapper.Playback,
    loaded: nat,
    canvas: Canvas,
    queuedRenders: nat)

  datatype Event =
    | Loaded(index: nat, width: int, height: int)
    | Scrolled(scrollTop: real, maxCanvasScroll: real)
    | Resized(innerWidth: nat, innerHeight: nat)
    | AnimationFrame

  /** A state change and the paint it made, if any. */
  datatype StepOutcome = StepOutcome(page: Page, paint: Option<Rect>)

  /** What holds of the page at every point of its life. */
  predicate Inv(p: Page) {
    && |p.images| == FramePath.FrameCount
    && (forall i :: 0 <= i < |p.images| ==> p.images[i].src == FramePath.CurrentFrame(i))
    && (forall i :: 0 <= i < |p.images| && p.images[i].complete ==>
          p.images[i].width > 0 && p.images[i].height > 0)
    && 0 <= p.playback.frame < FramePath.FrameCount
    && p.loaded == Preloader.CountReady(p.images)
  }

  /** The events the browser can deliver in state `p`: an image loads once,
      at a positive size; the canvas container is taller than the window. */
  predicate Enabled(p: Page, e: Event) {
    match e
    case Loaded(i, w, h) => i < |p.images| && !p.images[i].complete && w > 0 && h > 0
    case Scrolled(_, maxCanvasScroll) => maxCanvasScroll > 0.0
    case Resized(_, _) => true
    case AnimationFrame => true
  }

  lemma {:induction false} CountReadyNone(images: seq<Image>)
    requires forall i :: 0 <= i < |images| ==> !images[i].complete
    ensures Preloader.CountReady(images) == 0
    decreases |images|
  {
    if |images| > 0 {
      CountReadyNone(images[..|images| - 1]);
    }
  }

  /** Start-up (script.js:17-40): the preload loop, then `resizeCanvas`,
      whose render finds frame 0 not yet loaded. */
  function Init(width: nat, height: nat): (r: StepOutcome)
    ensures Inv(r.page)
    ensures r.page.canvas == Canvas(width, height)
    ensures r.page.playback.frame == 0 && r.page.loaded == 0
    ensures r.paint.None?
  {
    var images := Preloader.InitialImages();
    CountReadyNone(images);
    var p := Page(images, ScrollMapper.Playback(0), 0, Canvas(width, height), 0);
    StepOutcome(p, Render(p.images, p.playback.frame, p.canvas))
  }

  /** The paint `render()` makes in state `p`. */
  function Paint(p: Page): (r: Option<Rect>)
    requires Inv(p)
    ensures r.None? <==> !p.images[p.playback.frame].complete
    ensures r.Some? ==> Covers(r.value, p.canvas) && Centred(r.value, p.canvas)
  {
    Render(p.images, p.playback.frame, p.canvas)
  }

  /** Every entry keeps its path, and a loaded entry stays loaded. */
  predicate Grows(before: seq<Image>, after: seq<Image>) {
    && |after| == |before|
    && (forall i :: 0 <= i < |before| ==> after[i].src == before[i].src)
    && (forall i :: 0 <= i < |before| && before[i].complete ==> after[i].complete)
  }

  /** The onload of image `index` (script.js:25-29). */
  function OnLoaded(p: Page, index: nat, width: int, height: int): (r: StepOutcome)
    requires Inv(p) && Enabled(p, Loaded(index, width, height))
    ensures Inv(r.page) && Grows(p.images, r.page.images)
    ensures r.page.images[index].complete
    ensures r.page.loaded == p.loaded + 1
    ensures r.paint.Some? <==> index == 0 && r.page.images[p.playback.frame].complete
    ensures r.paint.Some? ==> Covers(r.paint.value, r.page.canvas)
    ensures r.page.playback == p.playback && r.page.canvas == p.canvas
    ensures r.page.queuedRenders == p.queuedRenders
  {
    var out := Preloader.OnLoad(p.images, p.loaded, index, width, height);
    Preloader.OnLoadKeepsCount(p.images, p.loaded, index, width, height);
    var q := p.(images := out.images, loaded := out.loaded);
    StepOutcome(q, if out.renderRequested then Paint(q) else None)
  }

  /** The scroll listener (script.js:66-95): a repaint is queued for the
      next animation frame only when the frame changes. */
  function OnScrolled(p: Page, scrollTop: real, maxCanvasScroll: real): (r: StepOutcome)
    requires Inv(p) && maxCanvasScroll > 0.0
    ensures Inv(r.page) && r.page.images == p.images
    ensures r.paint.None?
    ensures r.page.playback.frame == ScrollMapper.ScrollFrameIndex(scrollTop, maxCanvasScroll)
    ensures r.page.queuedRenders == p.queuedRenders + (if r.page.playback == p.playback then 0 else 1)
    ensures r.page.canvas == p.canvas
  {
    var out := ScrollMapper.OnScroll(p.playback, scrollTop, maxCanvasScroll);
    var queued := if out.renderRequested then p.queuedRenders + 1 else p.queuedRenders;
    StepOutcome(p.(playback := out.state, queuedRenders := queued), None)
  }

  /** `resizeCanvas` (script.js:33-37): new canvas size, then an immediate
      render. */
  function OnResized(p: Page, innerWidth: nat, innerHeight: nat): (r: StepOutcome)
    requires Inv(p)
    ensures Inv(r.page) && r.page.images == p.images
    ensures r.page.canvas == Canvas(innerWidth, innerHeight)
    ensures r.page.playback == p.playback && r.page.queuedRenders == p.queuedRenders
    ensures r.paint.Some? <==> p.images[p.playback.frame].complete
    ensures r.paint.Some? ==> Covers(r.paint.value, r.page.canvas)
  {
    var q := p.(canvas := Canvas(innerWidth, innerHeight));
    StepOutcome(q, Paint(q))
  }

  /** The animation frame runs the queued `render` callbacks; they all paint
      the same frame on the same canvas, so one paint stands for them. */
  function OnAnimationFrame(p: Page): (r: StepOutcome)
    requires Inv(p)
    ensures Inv(r.page) && r.page.images == p.images
    ensures r.page.queuedRenders == 0
    ensures r.paint.Some? <==> p.queuedRenders > 0 && p.images[p.playback.frame].complete
    ensures r.paint.Some? ==> Covers(r.paint.value, r.page.canvas)
    ensures r.page.playback == p.playback && r.page.canvas == p.canvas
  {
    var q := p.(queuedRenders := 0);
    StepOutcome(q, if p.queuedRenders > 0 then Paint(q) else None)
  }

  /** One event. */
  function Step(p: Page, e: Event): (r: StepOutcome)
    requires Inv(p) && Enabled(p, e)
    ensures Inv(r.page) && Grows(p.images, r.page.images)
    ensures r.paint.Some? ==> Covers(r.paint.value, r.page.canvas)
    ensures !e.Scrolled? ==> r.page.playback == p.playback
    ensures !e.Resized? ==> r.page.canvas == p.canvas
  {
    match e
    case Loaded(i, w, h) => OnLoaded(p, i, w, h)
    case Scrolled(scrollTop, maxCanvasScroll) => OnScrolled(p, scrollTop, maxCanvasScroll)
    case Resized(w, h) => OnResized(p, w, h)
    case AnimationFrame => OnAnimationFrame(p)
  }

  /** Delivers events in order; None when one of them cannot happen.
      Whatever the browser delivers, the page keeps its invariant (the frame
      index stays in range, the counter equals the number of loaded images),
      every entry keeps its path, and a loaded image stays loaded. */
  function Run(p: Page, events: seq<Event>): (r: Option<Page>)
    requires Inv(p)
    ensures r.Some? ==> Inv(r.value) && Grows(p.images, r.value.images)
    decreases |events|
  {
    if |events| == 0 then Some(p)
    else if !Enabled(p, events[0]) then None
    else Run(Step(p, events[0]).page, events[1..])
  }
}
