/** The preloader of script.js (lines 17-31): one image per frame with its
    path from `currentFrame`, and an onload callback that counts loads and
    asks for a paint only when frame 0 arrives. The browser's asynchronous
    loading is abstracted to a load event carrying the natural size. */
module Preloader {
  import FramePath
  import opened Renderer

  /** Entry `i` as the loop creates it: its path requested, not loaded. */
  function InitialImage(i: nat): Image {
    Image(FramePath.CurrentFrame(i), 0, 0, false)
  }

  /** The `images` array right after the loop: every path requested, nothing
      loaded yet. */
  function InitialImages(): (images: seq<Image>)
    ensures |images| == FramePath.FrameCount
    ensures forall i :: 0 <= i < |images| ==> images[i].src == FramePath.CurrentFrame(i)
    ensures forall i :: 0 <= i < |images| ==> !images[i].complete
  {
    seq(FramePath.FrameCount, i requires 0 <= i => InitialImage(i))
  }

  /** The preload loop (script.js:22-31), one `images.push` per index. */
  method Preload() returns (images: seq<Image>)
    ensures images == InitialImages()
  {
    images := [];
    var i := 0;
    while i < FramePath.FrameCount
      invariant 0 <= i <= FramePath.FrameCount
      invariant |images| == i
      invariant forall k :: 0 <= k < i ==> images[k] == InitialImage(k)
    {
      images := images + [InitialImage(i)];
      i := i + 1;
    }
    assert images == InitialImages();
  }

  /** The fifty preloaded paths are pairwise distinct. */
  lemma InitialPathsDistinct(i: nat, j: nat)
    requires i < j < FramePath.FrameCount
    ensures InitialImages()[i].src != InitialImages()[j].src
  {
    FramePath.CurrentFrameInjective(i, j);
  }

  /** Number of entries whose load has completed. */
  function CountReady(images: seq<Image>): (n: nat)
    ensures n <= |images|
  {
    if |images| == 0 then 0
    else CountReady(images[..|images| - 1]) + (if images[|images| - 1].complete then 1 else 0)
  }

  /** What one onload callback does. */
  datatype LoadOutcome = LoadOutcome(images: seq<Image>, loaded: nat, renderRequested: bool)

  /** The onload callback of image `i` (script.js:25-29), once the browser
      has decoded it at `width` x `height`. */
  function OnLoad(images: seq<Image>, loaded: nat, i: nat, width: int, height: int): (r: LoadOutcome)
    requires i < |images|
    ensures |r.images| == |images|
    ensures r.images[i] == Image(images[i].src, width, height, true)
    ensures forall j :: 0 <= j < |images| && j != i ==> r.images[j] == images[j]
    ensures forall j :: 0 <= j < |images| && images[j].complete ==> r.images[j].complete
    ensures r.loaded == loaded + 1
    ensures r.renderRequested <==> i == 0
  {
    var img := Image(images[i].src, width, height, true);
    LoadOutcome(images[i := img], loaded + 1, i == 0)
  }

  /** Completing one entry that had not completed adds exactly one to the
      number of completed entries. */
  lemma {:induction false} CountReadyComplete(images: seq<Image>, i: nat, img: Image)
    requires i < |images|
    requires !images[i].complete && img.complete
    ensures CountReady(images[i := img]) == CountReady(images) + 1
    decreases |images|
  {
    var updated := images[i := img];
    var last := |images| - 1;
    if i == last {
      assert updated[..last] == images[..last];
    } else {
      assert updated[..last] == images[..last][i := img];
      CountReadyComplete(images[..last], i, img);
    }
  }

  /** Since every image loads at most once, the `imagesLoaded` counter keeps
      counting exactly the completed images. */
  lemma OnLoadKeepsCount(images: seq<Image>, loaded: nat, i: nat, width: int, height: int)
    requires i < |images|
    requires !images[i].complete
    requires loaded == CountReady(images)
    ensures OnLoad(images, loaded, i, width, height).loaded
         == CountReady(OnLoad(images, loaded, i, width, height).images)
  {
    CountReadyComplete(images, i, Image(images[i].src, width, height, true));
  }
}
