# Scroll-driven frame animation: a Dafny model

The site plays a 50-frame image sequence as the reader scrolls. `script.js`
preloads the frames, maps the scroll offset to a frame index, paints that
frame onto a full-window canvas with a "cover" crop, fades the heading out,
reveals story sections once they come into view, and toggles background
audio. This project models the decision rules under that wiring as pure
Dafny functions over exact `int`/`real` arithmetic and proves what they
promise.

Modules, one per component of the script:

- `Wrappers`: `Option`, for `undefined` and for parses that fail.
- `RealMath`: `Math.min`, `Math.max` and a two-sided clamp on exact reals.
- `FramePath`: `currentFrame`, the index-to-path generator. It has an inverse
  `ParseFramePath`, so the naming is injective.
- `ScrollMapper`: scroll fraction, frame index, heading opacity, and the
  playback-state update done by the scroll listener.
- `Renderer`: the readiness guard of `render` and the cover-crop geometry.
- `Preloader`: the preload loop and the onload callback with its counter.
- `Reveal`: the IntersectionObserver callback, which only ever adds `is-visible`.
- `AudioToggle`: the click handler's two-state machine.
- `Page`: the whole script as one state driven by browser events (image load,
  scroll, resize, animation frame), with an invariant kept by every run.

Browser effects are outputs rather than actions. A paint is the destination
rectangle given to `drawImage` after the canvas is cleared. A queued
`requestAnimationFrame(render)` is a counter that the next animation frame
drains. The audio element's `play()`/`pause()` become a `Command`.
Opacities are the values written to the two elements' styles.

## Model

| member | source | states |
|---|---|---|
| FramePath.Decimal | script.js:14 | the decimal rendering of a number is a non-empty digit string with no leading zero (except for 0) |
| FramePath.PadStart | script.js:14 | padding reaches the width (or keeps a longer string), the original string is the suffix, and the prefix is all fill characters |
| FramePath.ValueOfDecimal | script.js:14 | reading the decimal rendering back yields the number |
| FramePath.ValueLeadingZeros | script.js:14 | zero padding does not change the numeric value of the digits |
| FramePath.FrameNumberValue | script.js:14 | the padded frame number is all digits and its value is index + 1 |
| FramePath.CurrentFrame | script.js:13-15 | every path starts with ./AOT_VIDEO/ezgif-frame-, ends with .jpg, and has at least three characters between them, all of them decimal digits |
| FramePath.ParseFramePath | script.js:13-15 | a path parses to index i only if it is the prefix, then digits whose value is i + 1, then .jpg |
| FramePath.ParseCurrentFrame | script.js:13-15 | parsing the path of any index gives that index back |
| FramePath.CurrentFrameInjective | script.js:9-15 | two indices give the same path if and only if they are equal |
| FramePath.ThreeDigitFrameNumber | script.js:14 | below 999 the frame number is exactly the hundreds, tens and units digits of index + 1 |
| FramePath.FirstAndLastFrame | script.js:9-15 | index 0 names ezgif-frame-001.jpg and index 49 names ezgif-frame-050.jpg |
| ScrollMapper.ScrollFraction | script.js:70-73 | the fraction lies in [0,1]; it is 0 exactly when scrollTop is at most 0 and 1 exactly when scrollTop reaches maxCanvasScroll; in between it times maxCanvasScroll is scrollTop |
| ScrollMapper.ScrollFractionMonotone | script.js:73 | the fraction never decreases as the offset grows |
| ScrollMapper.FrameIndex | script.js:76-79 | the index is at most 49 and non-negative for non-negative fractions; unless it is the last frame it is the floor of fraction times 50 |
| ScrollMapper.FrameIndexMonotone | script.js:76-79 | a larger fraction never gives an earlier frame |
| ScrollMapper.FrameIndexAtEnd | script.js:76-79 | every fraction from 49/50 on, 1 included, shows the last frame |
| ScrollMapper.FrameIndexBand | script.js:76-79 | frame k is shown for the fractions whose scaled value lies in [k, k+1) |
| ScrollMapper.ScrollFrameIndex | script.js:70-79 | the frame for an offset lies in [0,49]; offsets at or above the top give frame 0 and offsets at or past the end give frame 49 |
| ScrollMapper.ScrollFrameIndexMonotone | script.js:70-79 | scrolling further down never shows an earlier frame |
| ScrollMapper.Opacity | script.js:87-94 | opacity lies in [0,1]; it is 1 up to offset 50 and 0 from 450 on, and linear between (opacity times 400 equals 450 minus the offset) |
| ScrollMapper.OpacityIsClampedRamp | script.js:87-94 | the code's lower-only clamp equals the ramp 1 - (offset - 50)/400 clamped to [0,1] on both sides |
| ScrollMapper.OpacityMonotone | script.js:87-94 | scrolling further down never makes the heading more opaque |
| ScrollMapper.OnScroll | script.js:66-94 | the new frame is the mapped index; a render is requested exactly when the frame changes, and otherwise the state is unchanged; heading and prompt get the same opacity |
| ScrollMapper.OnScrollSettles | script.js:81-84 | a second scroll event at the same offset leaves the playback state as the first event set it and requests no render |
| ScrollMapper.ScrollScenarios | script.js:66-94 | from frame 0, offset 0 of 1000 keeps frame 0 with no render at opacity 1, and offset 450 of 1000 moves to frame 22 with one render at opacity 0 |
| Renderer.CoverRatio | script.js:49-51 | the scaled image covers the canvas on both axes and fits one axis exactly |
| Renderer.CoverRatioIsLeast | script.js:49-51 | no smaller uniform scale covers the canvas |
| Renderer.CoverRect | script.js:49-62 | the destination rectangle covers the canvas, has non-positive shifts, is centred on the canvas, keeps the image's aspect ratio, and matches the canvas on one axis |
| Renderer.Render | script.js:42-63 | render paints nothing exactly when the current entry is absent or not complete; otherwise it paints a covering, centred, aspect-preserving rectangle |
| Renderer.RenderIgnoresOtherFrames | script.js:44-46 | changing any other entry of the image array does not change the paint |
| Preloader.InitialImages | script.js:17-31 | after the preload loop there are 50 entries, entry i has the path of frame i, and none has loaded |
| Preloader.Preload | script.js:22-31 | the loop builds exactly that array |
| Preloader.InitialPathsDistinct | script.js:22-31 | the 50 preloaded paths are pairwise distinct |
| Preloader.OnLoad | script.js:25-29 | onload marks only its own entry loaded, leaves every other entry alone, never unloads one, adds exactly one to the counter, and requests a render exactly for index 0 |
| Preloader.CountReadyComplete | script.js:19-26 | completing one entry that had not completed adds one to the number of completed entries |
| Preloader.OnLoadKeepsCount | script.js:19-26 | when each image loads once, imagesLoaded stays equal to the number of loaded images |
| Reveal.Observe | script.js:104-111 | after a callback an element is visible exactly when it was visible before or some entry reported it intersecting, so nothing is removed |
| Reveal.ObserveIdempotent | script.js:106-107 | delivering the same batch twice reveals nothing more than delivering it once |
| Reveal.ObserveBatches | script.js:104-111 | two callbacks in a row reveal the same elements as one callback with both batches |
| AudioToggle.Click | script.js:133-146 | a click flips isPlaying; afterwards muted is present and the icon is iconMuted exactly when not playing; other classes are untouched; pause is issued exactly when it was playing |
| AudioToggle.ClickTwice | script.js:133-146 | two clicks restore isPlaying, and restore class list and icon when the control showed its state |
| Page.Init | script.js:17-40 | start-up leaves a page that satisfies the invariant, at frame 0 with no image loaded, sized to the window, and paints nothing |
| Page.Paint | script.js:42-63 | a paint happens exactly when the current frame has loaded, and it covers the canvas and is centred on it |
| Page.OnLoaded | script.js:25-29 | an image load keeps the invariant, marks that image loaded, adds one to the counter, paints exactly when it is frame 0 and the current frame is then loaded, and leaves frame, canvas and queue unchanged |
| Page.OnScrolled | script.js:66-84 | a scroll paints nothing directly, moves to the mapped frame, and queues one render exactly when the frame changed |
| Page.OnResized | script.js:33-39 | a resize sets the canvas to the window size and repaints at once, exactly when the current frame has loaded |
| Page.OnAnimationFrame | script.js:83 | the animation frame drains the queued renders, paints exactly when one was queued and the current frame has loaded, and leaves frame and canvas unchanged |
| Page.Step | script.js:17-95 | every event keeps the invariant, keeps every path, never unloads an image, and any paint covers the canvas; only a scroll changes the frame and only a resize changes the canvas |
| Page.Run | script.js:17-95 | after any sequence of enabled events the frame index is in [0,49], the counter equals the number of loaded images, and no image loses its path or its loaded flag |

## Left out

- Canvas pixels (`clearRect`, `drawImage`): a paint is the rectangle it would draw. Repainting is a pure function of the image and the canvas size, so equal inputs give the same paint.
- Timing of `requestAnimationFrame`: the model keeps a count of queued callbacks, and the next animation frame runs them. All of them paint the same frame on the same canvas, so the model shows one paint.
- DOM lookups and style writes: the model returns the opacity values; it does not write them anywhere.
- Image loading: asynchronous order and the browser's `complete` semantics are not modelled. Readiness is an abstract flag, and a load event supplies the natural size.
- A frame that fails to load blanks the canvas in the script; the model keeps the previous paint. A failed image reports `complete` with a width of 0, so the guard at script.js:44 lets it through: the canvas is cleared, and `drawImage` then draws nothing or throws. The model has no failed-load event, so such a frame never becomes ready.
- Renderer.Render: requires a loaded image to have a positive natural size. For a zero-sized image the script computes an infinite ratio, clears the canvas and draws nothing. The model does not follow that path.
- Page.Enabled: an image loads at most once, and its size is positive; `Page.Run` makes no promise about a sequence that contains an event that is not enabled. The browser fires `load` once per `src` assignment. `imagesLoaded` counts events, and it equals the number of loaded images only under this assumption.
- IEEE floating point: division, `Math.floor` and the crop ratio use exact real arithmetic. Rounding of the quotient near a frame boundary is not modelled.
- A `maxCanvasScroll` at or below 0 is a precondition failure. In the script the clamp at script.js:73 still gives a finite fraction in most of these cases. With a negative `maxCanvasScroll` and a positive offset the fraction is 0, so the frame is 0. With `maxCanvasScroll` equal to 0 and a positive offset it is 1, so the frame is 49. Only 0/0 at the top gives NaN. Then the frame index is NaN, `aotState.frame` becomes NaN, and `render` returns at script.js:44 because `images[NaN]` is undefined.
- FramePath.CurrentFrame: takes a natural-number index. The script calls it only with 0 to 49. So negative or fractional JavaScript numbers are not modelled. Nor are indices at or above 2^53 - 1, where JavaScript numbers lose precision and two indices can give the same path. From 10^21 on, `toString` also switches to exponent notation. Injectivity over all of nat is a property of the model.
- The IntersectionObserver's 30% threshold geometry: it is reduced to the `isIntersecting` flag of each entry. The commented-out `unobserve` call is not modelled; it would not change which elements are revealed.
- Audio `play()`/`pause()` and the rejection of `play()`: a click only issues a `Command`. The state flips to playing even when the browser refuses to play, as in the script. The volume of 0.3 (script.js:125) is not modelled.
- The initial class list and icon of the audio control come from the page markup, which is not part of this model. So `ClickTwice` restores them only when the control already showed its state.
- Window resize plumbing: only the fact that a resize sets the canvas size and re-runs the same guard and crop math is modelled.
