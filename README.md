# NEOLAB page script, modelled in Dafny

This project models the page script `js/script.js` of a single-page product site. The core is the
ABOUT section's scroll-driven logo sequence. It has 151 square frames (`assets/logosequence/logo_00000.png`
to `logo_00150.png`), all preloaded when the page loads. Each frame is painted onto a canvas as the
ABOUT section scrolls through the viewport. The smaller pieces of the same script are modelled beside it:
the typewriter reveal, the product-category filter, the poster path derived from a 3D model path, and
the active navigation link.

Layout:

- `frame_path.dfy` (module `Frames`): the sequence configuration and `getFramePath`. The proofs show the
  zero-padded number field can be read back, so distinct frames get distinct paths.
- `scroll_mapper.dfy` (module `ScrollMapper`): the pure part of `updateFrameFromScroll`. It covers the
  off-screen clamps, the progress ratio and its scaling onto the frame range. Geometry uses exact reals.
- `player.dfy` (module `Player`): class `SequencePlayer`. Its fields are the closure variables of the
  sequence: `images`, `loadedImages`, `currentFrame`, `scheduledRender` and `hasRenderedInitialFrame`.
  It also holds the browser state the sequence drives: pending animation-frame callbacks, attached
  listeners, and the frames handed to the canvas. Browser events are method calls: `MarkComplete` (the
  browser resolves an image and queues its `onload` or `onerror` task), `HandleImageLoad` (one queued
  handler runs), `AnimationFrame`, `OnScroll` and `OnResize`. `ImageResolved` is an image resolving with
  its handler as the next event. `Valid()` is the load gate, and `AnimationFrame` states the
  single-flight, last-write-wins paint.
- `player_scenarios.dfy` (module `PlayerScenarios`): clients that drive a three-frame player. They
  cover images resolving in reverse order, a failed first frame (its error handler running at once, or
  after another slot's handler), images loading in order, a first animation frame after loading, and a
  burst of scrolls that collapses into one paint.
- `marking.dfy` (module `Marking`): the "remove `active`, add it back on a match" loop. It is shared by
  the navigation links and the filter buttons.
- `nav_links.dfy` (module `NavLinks`): `setActiveNavLink`.
- `products.dfy` (module `Products`): the catalogue, `filterProducts`, and the poster path. The poster
  path uses `String.prototype.replace` with a string pattern and a replacement without `$` patterns,
  which rewrites the first match only.
- `typewriter.dfy` (module `TypewriterEffect`): `typeWriter`, as a class with an explicit timer.
- `wrappers.dfy` (module `Wrappers`): `Option`.

The script installs the same handler for `onload` and `onerror`, and in HTML a broken image also
reports `complete`. So either outcome sets the slot's `complete` flag, and its handler increments
`loadedImages`. The browser sets `complete` first and runs the handler later, possibly after other
slots' handlers. So `loadedImages` may lag behind the number of complete slots. The first-frame block
then runs in whichever handler first finds slot 0 complete, which need not be slot 0's own handler.

The two outcomes differ only when a frame is painted. The canvas's `drawImage` throws an
`InvalidStateError` for a broken image, and the exception ends the handler at that point. So if slot 0
fails, the first-frame block throws in the handler that runs it. If that is not the last handler, the
all-resolved block runs later and throws before it adds the listeners. If it is the last handler, the
all-resolved block never runs. Either way scrolling never drives the sequence
(`PlayerScenarios.FailedFirstFrame`, `PlayerScenarios.ErrorHandlerOvertaken`).

The section-relative mapping is monotone only while the section intersects the viewport. A section
wholly below the viewport selects the last frame. As it enters, the target falls back to frame 0.
`TargetMonotone` is therefore stated for intersecting rectangles only.

## Model

| member | source | states |
|---|---|---|
| Frames.Decimal | js/script.js:227 | `String(n)` of a non-negative integer is a non-empty string of decimal digits |
| Frames.PadStart | js/script.js:227 | `padStart` keeps its input as the suffix, prepends only the fill character, and reaches the width without ever truncating |
| Frames.ValueOfDecimal | js/script.js:227 | the digits of `String(n)` denote `n` |
| Frames.ValueSkipsZeros | js/script.js:227 | leading `'0'` padding does not change the denoted number |
| Frames.DecimalShort | js/script.js:227 | a number below 10^w has at most w digits, so frame numbers below 100000 pad to exactly five |
| Frames.PaddedNumber | js/script.js:227 | `String(n).padStart(5, '0')` is at least five digits wide, ends with the digits of `n`, denotes `n`, and is exactly five wide below 100000 |
| Frames.FramePath | js/script.js:225-228 | a frame path starts with the base path and the prefix, ends with the extension, and has at least five characters between them |
| Frames.FramePathSplit | js/script.js:225-228 | a frame path is the base path and prefix, then the padded absolute frame number, then the extension |
| Frames.FramePathLayout | js/script.js:225-228 | the field between the prefix and the extension of any frame path is a padded number field denoting `startIndex + i` |
| Frames.FramePathInjective | js/script.js:225-228 | distinct frame numbers give distinct paths |
| Frames.AboutFirstFrame | js/script.js:210-216 | with the page's configuration (151 frames from 0, `assets/logosequence/`, `logo_`, `.png`), frame 0 is `assets/logosequence/logo_00000.png` |
| Frames.AboutLastFrame | js/script.js:210-216 | with the page's configuration, the last frame, 150, is `assets/logosequence/logo_00150.png` |
| ScrollMapper.Clamp01 | js/script.js:298 | `Math.max(0, Math.min(1, x))` lies in [0, 1], is `x` inside that range, 0 below it and 1 above it |
| ScrollMapper.Progress | js/script.js:295-298 | scroll progress lies in [0, 1] for any geometry; a zero total distance acts as +Infinity and becomes 1 |
| ScrollMapper.IntersectingFrame | js/script.js:300-303 | the intersecting-branch target lies in [0, frameCount-1] |
| ScrollMapper.TargetFrame | js/script.js:273-303 | for any rectangle and window height the target lies in [0, frameCount-1]; `bottom <= 0` gives 0 and takes precedence; otherwise `top >= windowHeight` gives frameCount-1 |
| ScrollMapper.ScaledFloor | js/script.js:302 | `Math.floor(scrollProgress * (frameCount - 1))`: the largest integer not above the progress scaled onto the frame steps |
| ScrollMapper.ScaledFloorMonotone | js/script.js:302 | a larger progress never gives a smaller scaled floor |
| ScrollMapper.IntersectingFrameIsFloor | js/script.js:300-303 | in the intersecting branch the outer `Math.min` never applies: the target is `floor(progress*(frameCount-1))` |
| ScrollMapper.TargetIsScaledFloor | js/script.js:273-303 | for a section that neither lies above nor below the viewport, the target frame is `floor(progress*(frameCount-1))` |
| ScrollMapper.ProgressUnclamped | js/script.js:292-298 | for a real rectangle that intersects the viewport, progress is exactly `(windowHeight - top)/(height + windowHeight)`, so the clamp never applies |
| ScrollMapper.HalfwayFrame | js/script.js:292-303 | a section as tall as the viewport with its top at 0 selects `floor(0.5*(frameCount-1))` |
| ScrollMapper.HalfwayOfThree | js/script.js:292-303 | with three frames that position selects frame 1 |
| ScrollMapper.ProgressMonotone | js/script.js:295-298 | with height and window height fixed, a smaller `rect.top` never gives a smaller progress, whatever the sign of the total distance |
| ScrollMapper.TargetMonotone | js/script.js:292-303 | with height and window height fixed, and both positions intersecting, a smaller `rect.top` never selects an earlier frame |
| Player.WindowHeight | js/script.js:271 | `window.innerHeight || document.documentElement.clientHeight`: the inner height unless it is 0, then the client height (a function without a contract of its own; `ScrolledFrame` passes it to the mapper) |
| Player.Drawable | js/script.js:263 | `drawImage` accepts the slot's image: it is complete and not broken; a broken image makes it throw (a predicate used in the contracts below) |
| Player.IsComplete | js/script.js:255 | the paint guard `image && image.complete`: the slot holds an image and it is complete (a predicate used in the contracts below) |
| Player.ScrolledFrame | js/script.js:266-271 | with no ABOUT section the frame is kept; otherwise it is the mapper's target, and it stays within range |
| Player.CompleteCount | js/script.js:312 | the number of resolved slots never exceeds the number of slots |
| Player.CompleteCountFull | js/script.js:320 | the count equals the number of slots exactly when every slot has resolved |
| Player.CompleteCountResolve | js/script.js:312 | resolving one pending slot raises the count by exactly one, whichever slot it is |
| Player.CompleteCountNone | js/script.js:331-338 | right after the preload loop, no slot has resolved |
| Player.SequencePlayer.Valid | js/script.js:311-327 | the load gate: the counter never exceeds the number of resolved slots; the first-frame block has run at most once, only after slot 0 resolved, and lags behind slot 0 only while a handler is pending; listeners are attached exactly when every handler has run and slot 0 is drawable; until then the frame is 0 (a predicate that the methods below keep) |
| Player.SequencePlayer.CanPaint | js/script.js:253-255 | whether `renderFrame` gets past its guard: the index names a slot whose image is complete (a predicate used by `RenderFrame`) |
| Player.SequencePlayer.Paints | js/script.js:253-263 | `renderFrame(frameIndex)` hands an image to the canvas without throwing: the index names a slot whose image is drawable (a predicate used by `RenderFrame` and `AnimationFrame`) |
| Player.SequencePlayer.constructor | js/script.js:218-222 | initial state: frame 0, no loads counted, no first frame shown, no listeners attached; the initial `resizeCanvas` leaves one render pending, every slot holds its frame's path, not yet complete, and no slot has failed |
| Player.SequencePlayer.Preload | js/script.js:331-338 | slot i receives an image whose source is `getFramePath(i)` and which is still loading |
| Player.SequencePlayer.RequestRender | js/script.js:230-237 | sets the flag; schedules a callback only when none is pending, so there is never more than one |
| Player.SequencePlayer.ResizeCanvas | js/script.js:239-251 | as far as the sequence is concerned, only requests a render |
| Player.SequencePlayer.RenderFrame | js/script.js:253-264 | returns early unless the slot exists and its image is `complete`; throws exactly when the image got past the guard but is broken; paints exactly when it is complete and not broken |
| Player.SequencePlayer.AnimationFrame | js/script.js:233-236 | clears the flag and paints the `currentFrame` current when it runs, if that slot is drawable; keeps the load gate |
| Player.SequencePlayer.UpdateFrameFromScroll | js/script.js:266-309 | `currentFrame` becomes the target; a render is requested, and the flag raised, only when the target differs, so a repeat with unchanged geometry changes nothing |
| Player.SequencePlayer.HandleImageLoad | js/script.js:311-327 | runs while some complete image's handler is pending; the counter rises by one; the first-frame block runs in the first handler that finds slot 0 complete, and at most once; an exception from painting a broken frame 0 ends the handler; the all-resolved block runs when the counter first reaches frameCount |
| Player.SequencePlayer.MarkComplete | js/script.js:334-336 | the browser resolves a pending slot: it becomes `complete`, and broken exactly when it failed; its handler becomes pending and nothing else changes |
| Player.SequencePlayer.CompleteLoading | js/script.js:320-326 | the all-resolved block paints frame 0, then attaches the listeners and evaluates the scroll once; if frame 0 is broken it throws and attaches nothing |
| Player.SequencePlayer.ImageResolved | js/script.js:334-336 | a slot resolves and its handler runs next: the slot becomes complete, and broken exactly when it failed; handlers already pending stay pending; listeners are attached exactly when every handler has run and slot 0 is drawable, whatever the order; the handler throws exactly when it paints a broken frame 0; frame 0 is painted by the first handler that finds slot 0 loaded, and again when the last handler runs |
| Player.SequencePlayer.OnScroll | js/script.js:323 | scrolling moves the frame only once the listener is attached |
| Player.SequencePlayer.OnResize | js/script.js:324 | a resize requests a render only once the listener is attached |
| PlayerScenarios.ReverseOrderLoad | js/script.js:311-327 | slots resolving last-first: listeners are not attached early, and when slot 0 resolves, frame 0 is painted by the first-frame block and again by the all-resolved block |
| PlayerScenarios.FailedFirstFrame | js/script.js:311-327 | when slot 0 fails and the others load, the handler throws when slot 0 resolves and again when the last slot resolves; no listener is attached and nothing is painted |
| PlayerScenarios.ErrorHandlerOvertaken | js/script.js:311-327 | when slot 0 fails and slot 1's `onload` handler runs before slot 0's `onerror` handler, slot 1's handler throws in the first-frame block; slot 0's handler does not throw; the last handler throws; no listener is attached and nothing is painted |
| PlayerScenarios.LoadedInOrder | js/script.js:311-327 | after slots 0, 1 and 2 load in order, the listeners are attached, frame 0 has been painted twice, one render is pending and no slot has failed |
| PlayerScenarios.LoadedAndPainted | js/script.js:311-327 | after in-order loading and one animation frame, frame 0 has been painted three times and nothing is pending |
| PlayerScenarios.CollapsedRepaint | js/script.js:230-237 | two scrolls before an animation frame leave one callback pending, which paints only the last selected frame; a repeated scroll requests nothing |
| Marking.MarkActive | js/script.js:195-200 | afterwards exactly the elements whose attribute equals the wanted value are active |
| NavLinks.LastReached | js/script.js:185-193 | the chosen section is reached and no later section is; with none, no section is reached |
| NavLinks.Reached | js/script.js:187-190 | the test `pageYOffset >= offsetTop - navHeight - 100` (a predicate used by the contracts below) |
| NavLinks.CurrentId | js/script.js:185-193 | with no section reached the id is `''`; a non-empty id is the id of a reached section |
| NavLinks.SetActiveNavLink | js/script.js:184-201 | `current` is the id of the last section in document order with `pageYOffset >= offsetTop - navHeight - 100`, or `''`; exactly the links with href `#`+current become active |
| Products.WithCategory | js/script.js:126 | the filter yields only products of the category and is no longer than its input |
| Products.WithCategoryCounts | js/script.js:124-126 | every product of the category is kept as often as it appears, and no other product |
| Products.WithCategoryAppend | js/script.js:126 | the filter distributes over concatenation, so it keeps the original order |
| Products.FilterProducts | js/script.js:122-137 | `'all'` shows the list unchanged; any other category shows exactly its products; exactly the buttons of that category become active |
| Products.CatalogueByCategory | js/script.js:64-83 | each catalogue category selects its one product |
| Products.IndexOf | js/script.js:93-95 | the first position where the pattern occurs, or -1 exactly when it occurs nowhere |
| Products.ReplaceFirst | js/script.js:93-95 | `replace` with a string pattern rewrites only the first occurrence and keeps the text around it; a pattern that occurs nowhere leaves the string unchanged |
| Products.PosterPath | js/script.js:91-95 | the poster path is the model path with the first `assets/` replaced by `assets/posters/`, then the first `.glb` replaced by `.png`; its properties are stated by the two lemmas below |
| Products.PosterDirectory | js/script.js:94 | in `assets/NAME.glb` the first `assets/` is the leading one, so the first step gives `assets/posters/NAME.glb` |
| Products.PosterExtension | js/script.js:95 | in `assets/posters/NAME.glb`, with no dot in NAME, the first `.glb` is the extension, so the second step gives `assets/posters/NAME.png` |
| Products.PosterPathOfModel | js/script.js:91-95 | `assets/NAME.glb`, with no dot in NAME, has the poster `assets/posters/NAME.png` |
| Products.PosterPathUnmatched | js/script.js:93-95 | a model path with neither `assets/` nor `.glb` in it is its own poster path |
| TypewriterEffect.Typewriter.constructor | js/script.js:2-20 | clears the element and runs `type` once: the first character is shown, or, for empty text, the callback is scheduled |
| TypewriterEffect.Typewriter.Type | js/script.js:6-17 | shows one more character and re-arms the timer, or, once all characters are shown, schedules the callback |
| TypewriterEffect.Typewriter.TimerFired | js/script.js:10 | after k runs of `type` the text content is the first min(k, length) characters; the callback is scheduled at most once, and only once the whole text is shown |
| TypewriterEffect.TypeAll | js/script.js:2-20 | after one tick per character, the whole text is shown, the timer chain has stopped, and the callback was scheduled exactly once if one was given |

## Left out

- Canvas drawing and sizing are not modelled: `getContext`, `setTransform`, `scale`, `clearRect`, `drawImage`, and the canvas width and height times `devicePixelRatio` (js/script.js:239-263). A paint is recorded as the frame index handed to the canvas, and `resizeCanvas` is reduced to its render request. Of `drawImage`, only the `InvalidStateError` it throws for a broken image is modelled.
- Image fetch and decode are not modelled: `new Image()`, `decoding = 'async'`, the network. Resolving is one abstract event per slot. The browser's guarantee that each image resolves once, and then fires exactly one of `onload`/`onerror`, is a precondition of `MarkComplete` (the slot is still pending) and of `HandleImageLoad` (some complete image's handler has not run). Which slot a pending handler belongs to is not tracked, because the handler never looks at its event.
- Event-loop plumbing is replaced by explicit method calls: `requestAnimationFrame`, `setTimeout` delays (150 ms per character, 500 ms before the callback), `addEventListener`, and the passive-listener option. Listener attachment is a flag.
- The `IntersectionObserver` that starts the typewriter once per element (`dataset.animated`, threshold 0.5) is not modelled. Neither is the callback's effect of making the waitlist button visible.
- IEEE-754 rounding of the progress division and multiplication is not modelled; geometry uses exact reals. `innerHeight || clientHeight` is modelled as a zero test, and NaN and undefined heights are not modelled.
- Negative frame numbers: the absolute frame number is a natural number. `String` of a negative number, which would put the minus sign inside the padding, is not modelled; the page's `startIndex` is 0.
- Product card markup (`innerHTML`, `model-viewer` attributes), smooth-scroll navigation (`scrollTo`) and the contact form (`console.log`, `alert`, `reset`) are UI and I/O with no logic of their own.
- The write-only global `currentCategory` (js/script.js:120, 123) is not modelled, because nothing reads it.
- Missing attributes in `setActiveNavLink`: section ids and link hrefs are strings. A missing `id` attribute (`null`, which would make the wanted href `#null`) and a missing `.sticky-nav` element are not modelled. The navigation bar height is read once rather than once per section; it is the same value.
- Slot paths in the player's invariant: the invariant keeps only that every slot holds an image. The source path of each slot is stated by the constructor and `Preload`, and `ImageResolved` states that the path is kept, but the path is not part of the invariant.
- Frames.FramePathInjective and Frames.Decimal: frame numbers are unbounded naturals. In JavaScript, `startIndex + frameNumber` is a double, so above 2^53 distinct frame numbers can round to the same value and share a path. `String(n)` switches to exponent notation from 10^21. The page's frame numbers are 0 to 150.
- TypewriterEffect.Typewriter.Type: a text is a sequence of characters, one per `charAt` step. JavaScript counts `length` and `charAt` in UTF-16 code units, so a character outside the Basic Multilingual Plane takes two ticks and shows half a surrogate pair in between. Products.IndexOf also counts positions in characters rather than code units.
- Products.ReplaceFirst: the replacement string is inserted literally. The `$&`, `$$`, `` $` `` and `$'` patterns that `String.prototype.replace` expands are not modelled. The page's replacements `assets/posters/` and `.png` contain no `$`.
