# Echo Link landing page: screen binding, capture and scroll paging

This project is a Dafny model of the logic in `src/main.ts`, the three.js
landing page of Echo Link. The page shows a point-of-sale model whose screen
displays a live capture of an HTML document. Scroll position drives the rig
between section keyframes, and wheel, touch and keyboard input page from
section to section. The model covers:

- **UV projection** (`uv_projection.dfy`, module `UVProjection`).
  `setUVsForMaterialGroupAndGetAspect` picks the draw group of a material
  slot and walks its triangles, collecting the used vertices, their bounding
  box and the sum of the face normals. It then chooses a projection plane:
  across the dominant normal axis, or the two axes of largest extent when
  the normal sum is negligible. Each used vertex gets a planar (U, V) with V
  flipped, written in place into the uv attribute, and the function returns
  the clamped aspect ratio. The geometry is a class whose `uv` array is
  written in place.
- **Capture pipeline** (`capture.dfy`, module `Capture`). The capture target
  is sized to the aspect, `Math.max(2, Math.round(1024 * aspect))` by 1024.
  Snapshots are single-flight: a `capturing` flag drops requests while one
  is pending. The render loop polls for a capture at most every 1000/30 ms.
- **Screen binding** (`screen_binding.dfy`, module `ScreenBinding`).
  `findIndex` looks for the first slot whose name, trimmed and lower-cased,
  is `material.003`. The binding then projects that slot's UVs and resizes
  the capture. It swaps only that slot for a clone that shows the capture
  through its emissive channel, and turns off shadows.
- **Scroll keyframes** (`scroll_keyframes.dfy`, module `ScrollKeyframes`).
  This covers `clamp01`, `getSegmentAndT` and `closestSectionIndex`, plus
  the rig-scale lerp between two keyframes.
- **Section paging** (`paging.dfy`, module `Paging`). A `Pager` class holds
  the handlers, which share `isPaging`, `currentIndex` and `targetIndex`:
  - wheel, touch with a 40 px swipe threshold, and keyboard handlers;
  - the navigation-link click;
  - `scrollToIndex`;
  - a settle watcher that ends paging within 2 px of the target;
  - the re-measure on resize.
- **Pointer tilt** (`pointer_tilt.dfy`, module `PointerTilt`). The pointer
  target lies in [-1, 1]² and is damped by ×0.2 per frame. The model proves
  that the damping converges.

`wrappers.dfy` holds the `Option` type and `real_math.dfy` the absolute value, minimum and maximum shared by the modules. Numbers are modelled as `real`.
Integer sizes such as the capture width are `int`.

## Model

| member | source | states |
|---|---|---|
| `UVProjection.MinMaxAt` | src/main.ts:244-245 | `Vector3.min`/`max` take the scalar minimum and maximum along every axis |
| `UVProjection.VertexAt` | src/main.ts:234 | `getIndex(i)` reads the index buffer when there is one, else is the identity; the vertex exists |
| `UVProjection.TriangleCount` | src/main.ts:236 | the `i += 3` loop over `[start, start + count)` runs ⌈count/3⌉ times: 3n covers count and overshoots by under 3 |
| `UVProjection.FirstGroupWith` | src/main.ts:223 | `groups.find` by material index gives the first matching group, and none only when no group matches |
| `UVProjection.SelectGroup` | src/main.ts:219-223 | without groups, the full-range group for material 0; otherwise the first group for the material, else `groups[0]` |
| `UVProjection.Extend` | src/main.ts:244-245 | growing the box by a point always gives a box (the ±Infinity start becomes that point) |
| `UVProjection.Extend3` | src/main.ts:244-245 | growing by a triangle's three corners gives a box |
| `UVProjection.ExtendCovers` | src/main.ts:244-245 | growing the box by a vertex keeps every used vertex, and the new one, inside it |
| `UVProjection.ExtendLeast` | src/main.ts:244-245 | growing the box by a vertex keeps it inside any box that holds the used vertices and the new one |
| `UVProjection.Extend3Covers` | src/main.ts:238-245 | one triangle's `used.add` and `min`/`max` updates keep every used vertex inside the box |
| `UVProjection.Extend3Least` | src/main.ts:238-245 | one triangle's updates keep the box within any box holding the used vertices |
| `UVProjection.CoversStep` | src/main.ts:236-251 | the k-th iteration keeps the used vertices inside `min`/`max` |
| `UVProjection.LeastStep` | src/main.ts:236-251 | the k-th iteration keeps `min`/`max` the least box of the used vertices |
| `UVProjection.WalkTriangles` | src/main.ts:231-251 | the walk specification: `used`, `min`/`max` and `nSum` after the first k triangles of the group, starting from the empty set, the ±Infinity box and the zero vector |
| `UVProjection.WalkStep` | src/main.ts:236-251 | iteration k adds triangle k's three vertices to `used`, its corners to `min`/`max` and its face normal `(p1 - p0) × (p2 - p0)` to `nSum` |
| `UVProjection.WalkCovers` | src/main.ts:231-251 | after the loop every used vertex exists and lies inside `min`/`max`; the box is still ±Infinity exactly when no vertex was used |
| `UVProjection.WalkLeast` | src/main.ts:231-251 | after the loop `min`/`max` lies within every box holding the used vertices |
| `UVProjection.WalkEncloses` | src/main.ts:231-251 | `min`/`max` after the loop is exactly the bounding box of the used vertices |
| `UVProjection.WalkShape` | src/main.ts:231-251 | the walk marks only existing vertices, and its box is empty only when nothing was marked |
| `UVProjection.WalkUsed` | src/main.ts:236-238 | `used` is exactly the set of vertices named by the group's index slots, in both directions |
| `UVProjection.WalkGroup` | src/main.ts:227-251 | the triangle loop accumulates `used`, `min`/`max` and `nSum` exactly as the walk specification describes them |
| `UVProjection.FirstLargestExists` | src/main.ts:257-260 | every magnitude vector has a first largest axis, which the comparison chain needs |
| `UVProjection.FirstLargestUnique` | src/main.ts:257-260 | that first largest axis is unique |
| `UVProjection.PlaneByMagnitude` | src/main.ts:257-260 | the `ax >= ay && ax >= az` chain returns two different axes, and the axis it leaves out has a magnitude at least that of each of the two |
| `UVProjection.DominantPlane` | src/main.ts:255-260 | the plane across the axis of largest \|nSum\| is two different axes |
| `UVProjection.DominantPlaneSpec` | src/main.ts:255-260 | the `ax >= ay && ax >= az` chain picks the plane across the first axis of largest \|n\|, ties going to x, then y |
| `UVProjection.DominantPlaneScaleInvariant` | src/main.ts:255-260 | `nSum.normalize()` cannot change the plane: scaling the normal by any positive factor picks the same plane |
| `UVProjection.AbsVecScale` | src/main.ts:256-257 | the absolute components of a positively scaled normal are the scaled absolute components |
| `UVProjection.PlaneByMagnitudeScale` | src/main.ts:257-260 | the comparison chain on magnitudes is unchanged by a positive scale |
| `UVProjection.InsertBySpan` | src/main.ts:263-267 | stable insertion into the list sorted by the comparator `b.v - a.v` adds one element |
| `UVProjection.SortBySpan` | src/main.ts:263-267 | the reference stable sort keeps the length of the entry list |
| `UVProjection.InsertBySpanPermutes` | src/main.ts:267 | insertion adds exactly the inserted axis, as a multiset |
| `UVProjection.SortBySpanPermutes` | src/main.ts:267 | the sort returns a permutation of its input |
| `UVProjection.InsertBySpanSorted` | src/main.ts:267 | insertion into a list sorted by descending span keeps it sorted |
| `UVProjection.InsertBySpanBounded` | src/main.ts:267 | insertion brings in no span above a common bound |
| `UVProjection.SortBySpanSorted` | src/main.ts:267 | the sort returns the entries in descending span |
| `UVProjection.SortYZ` | src/main.ts:263-267 | the sort of [y, z] keeps the order unless z is strictly larger |
| `UVProjection.InsertIntoSingle` | src/main.ts:267 | stable insertion into a one-element list |
| `UVProjection.InsertIntoPair` | src/main.ts:267 | stable insertion into a two-element list |
| `UVProjection.SortXYZ` | src/main.ts:262-268 | the sort of [x, y, z] by descending span, spelled out for all six orders |
| `UVProjection.LargestSpanPlaneSorts` | src/main.ts:262-268 | the fallback plane's case table is `entries[0].ax, entries[1].ax` of the stable sort |
| `UVProjection.LargestSpanPlaneSpec` | src/main.ts:262-268 | the fallback picks the first axis of largest extent, then the first axis of largest extent among the other two (ties keep x, y, z order) |
| `UVProjection.PlaneFromOrder` | src/main.ts:262-268 | three distinct axes in descending extent, ties in x, y, z order, make the first two the fallback plane |
| `UVProjection.LargestSpanPlane` | src/main.ts:262-268 | the fallback's U is an axis of largest extent and V an axis of largest extent among the other two; U differs from V |
| `UVProjection.ProjectionPlane` | src/main.ts:254-269 | the plane is the dominant-normal plane when `nSum.lengthSq() > 1e-12`, else the largest-span plane, and (x, y) for the ±Infinity box of an empty group; U and V are always two different axes |
| `UVProjection.ClampedSpan` | src/main.ts:272-273 | `Math.max(1e-6, max - min)` is at least 1e-6; it equals the extent when that is at least 1e-6, else 1e-6 (always 1e-6 for the ±Infinity box) |
| `UVProjection.Aspect` | src/main.ts:272-274 | `uSpan / vSpan` is always positive; it is 1 when no vertex was used |
| `UVProjection.ProjectVertex` | src/main.ts:282-286 | U is the vertex's offset from `min` along the U axis over the clamped span, V is 1 minus the same along the V axis; its bounds and faces are stated by the two lemmas below |
| `UVProjection.ScaledCoordInUnit` | src/main.ts:284-285 | a coordinate inside the box lands in [0, 1] after subtracting the minimum and dividing by the clamped span |
| `UVProjection.ProjectVertexInUnitSquare` | src/main.ts:282-286 | every vertex inside the box gets U and V in [0, 1] |
| `UVProjection.ProjectVertexFaces` | src/main.ts:284-285 | U runs from 0 at the low face to 1 at the high face; V is flipped, from 1 at the low face to 0 at the high face (unclamped extents) |
| `UVProjection.Project` | src/main.ts:213-274 | the projector's plan: the marked vertices lie in a box, the aspect is positive, and U differs from V |
| `UVProjection.ProjectedUV` | src/main.ts:281-287 | the uv buffer after the write-back has the length of the one before |
| `UVProjection.ProjectedUVAt` | src/main.ts:281-287 | entries 2w and 2w+1 hold vertex w's (U, V) when w is used, and the previous values otherwise |
| `UVProjection.ProjectedUVAdd` | src/main.ts:281-287 | one `uv.setXY(vi, U, V)` turns the buffer for `used` into the buffer for `used ∪ {vi}`, whatever the visiting order |
| `UVProjection.ProjectedUVKeeps` | src/main.ts:281-287 | vertices outside `used` keep both their uv entries |
| `UVProjection.ProjectedUVInUnit` | src/main.ts:281-287 | used vertices inside the box get U and V in [0, 1] |
| `UVProjection.ProjectedUVSpec` | src/main.ts:236-287 | after the projection, the vertices the group's triangles reference have U and V in [0, 1], and every other vertex keeps its previous UV |
| `UVProjection.WriteProjectedUVs` | src/main.ts:281-287 | the `used.forEach` loop leaves the uv array equal to the projected buffer of its previous contents |
| `UVProjection.PlanProjection` | src/main.ts:213-274 | group selection, the walk, the plane and the aspect compute exactly the projector's plan |
| `UVProjection.BufferGeometry.constructor` | src/main.ts:213-221 | a geometry with its position, index, groups and optional uv attribute, its buffers in range |
| `UVProjection.BufferGeometry.PriorUV` | src/main.ts:276-279 | the buffer the write-back starts from has two entries per vertex: the attribute's contents, or zeros |
| `UVProjection.BufferGeometry.EnsureUVAttribute` | src/main.ts:276-279 | a missing uv attribute is created fresh and zero-filled, two floats per vertex; an existing one is kept as it was |
| `UVProjection.BufferGeometry.WriteBack` | src/main.ts:281-289 | the geometry's own uv array becomes the projected buffer of its previous contents |
| `UVProjection.BufferGeometry.SetUVsForMaterialGroupAndGetAspect` | src/main.ts:209-292 | returns 1 and writes nothing without positions; otherwise returns the plan's aspect, leaves the uv attribute (created if absent) equal to the projected buffer, and keeps the geometry's invariant |
| `Capture.Round` | src/main.ts:139 | `Math.round` is the integer within half of x, halves rounding up |
| `Capture.CaptureWidth` | src/main.ts:138-139 | `TEX_W` is never below 2 |
| `Capture.CaptureWidthSpec` | src/main.ts:138-139 | `TEX_W` is 1024 × aspect rounded to the nearest integer when that is at least 1.5, and 2 below it |
| `Capture.CaptureWidthMonotone` | src/main.ts:139 | a wider screen never gets a narrower capture |
| `Capture.ThrottleOpen` | src/main.ts:488-491 | the render loop's poll is due when more than 1000/30 ms have passed since the last one |
| `Capture.CaptureSession.constructor` | src/main.ts:65-111 | module start-up: no root and no raster library yet, nothing in flight, `lastCapture = 0`, texture and iframe 1024 × 1024; an existing `#screenCanvas` is reused with its own size, a new one is 1024 × 1024 |
| `Capture.CaptureSession.LoadRoot` | src/main.ts:186-193 | `screenRoot` becomes the element found, or null; a found root is sized to the current TEX_W × TEX_H; nothing else changes |
| `Capture.CaptureSession.InjectLibrary` | src/main.ts:122-134 | `h2c` is set once the library is available; nothing else changes |
| `Capture.OnFrameLoad` | src/main.ts:185-198 | the iframe's load handler: the root is looked up and sized; without it the handler stops; with it the library is injected and, when the script loads, the first capture starts unless one is in flight and is still in flight afterwards; `lastCapture`, the canvas, the texture and the completed count are kept, and so is the root box when no root is found |
| `Capture.CaptureSession.ResizeToAspect` | src/main.ts:137-158 | the session afterwards is `ResizedState` of the session before: every box resized, the canvas blank, the texture marked once more |
| `Capture.ResizedState` | src/main.ts:137-158 | the session after `resizeScreenCaptureToAspect`: texture, canvas and iframe boxes, and the root's when there is one, become CaptureWidth(aspect) × 1024, the canvas is blank and the texture marked once more |
| `Capture.ResizedStateIsResizedTo` | src/main.ts:137-158 | after the resize the texture, canvas, iframe and (when present) root boxes are all CaptureWidth(aspect) × 1024, the canvas bitmap is blank (setting `width` clears it), the texture is marked dirty once, and nothing else changes |
| `Capture.ResizeTwiceSameAspect` | src/main.ts:137-158 | resizing twice to the same aspect leaves every box as one resize leaves it; only the texture is marked once more |
| `Capture.CaptureSession.BeginCapture` | src/main.ts:160-162 | a capture starts exactly when the root and the raster library are present and none is in flight; it raises the flag and issues one raster call; otherwise nothing changes |
| `Capture.CaptureSession.CompleteCapture` | src/main.ts:163-182 | a drawn snapshot replaces the canvas contents and marks the texture dirty; a rejected raster call changes neither; a `drawImage` that throws after the `clearRect` leaves the canvas blank and the texture unmarked; in every case the flag is released and the boxes are kept |
| `Capture.CaptureSession.AnimateTick` | src/main.ts:487-491 | with root, library and more than 1000/30 ms since the last poll, the time stamp moves to now and a capture starts unless one is in flight; otherwise nothing changes; the root and library presence, the boxes, the canvas and the texture are kept either way |
| `Capture.BackToBackCaptures` | src/main.ts:160-162 | of two requests with nothing settling between, the first issues exactly one raster call when a capture can start (root and library present, none in flight) and none otherwise; the second is always dropped |
| `ScreenBinding.TrimStart` | src/main.ts:349 | the longest suffix not starting with white space; everything removed is white space |
| `ScreenBinding.TrimEnd` | src/main.ts:349 | the longest prefix not ending with white space; everything removed is white space |
| `ScreenBinding.Trim` | src/main.ts:349 | `trim` is the left trim of the right trim |
| `ScreenBinding.TrimEnds` | src/main.ts:349 | the trimmed name is empty or starts and ends with a character that is not white space, and it is empty exactly when the name is all white space |
| `ScreenBinding.LowerChar` | src/main.ts:349 | the model's `toLowerCase` on one character maps A-Z to a-z and keeps every other character (ASCII-only, see Left out) |
| `ScreenBinding.ToLower` | src/main.ts:349 | the model's lower-casing, character by character, keeps the length (JavaScript's need not; see Left out) |
| `ScreenBinding.IsScreenName` | src/main.ts:349 | the `findIndex` callback: the name, trimmed and lower-cased, equals the key |
| `ScreenBinding.ScreenKeyIsLowered` | src/main.ts:8 | the key compared against is the lower-cased `SCREEN_MAT_NAME` |
| `ScreenBinding.TrimStartAllWhitespace` | src/main.ts:349 | leading white space does not affect the left trim |
| `ScreenBinding.TrimEndAllWhitespace` | src/main.ts:349 | trailing white space does not affect the right trim |
| `ScreenBinding.TrimEndPrefix` | src/main.ts:349 | the right trim of p + s is p + TrimEnd(s), unless s is all white space |
| `ScreenBinding.TrimIgnoresPadding` | src/main.ts:349 | `trim` ignores white-space padding on either side |
| `ScreenBinding.MatchIgnoresPadding` | src/main.ts:349 | the slot test ignores white space around the name |
| `ScreenBinding.LowerKeepsWhitespace` | src/main.ts:349 | lower-casing neither creates nor removes white space |
| `ScreenBinding.TrimStartLower` | src/main.ts:349 | the left trim commutes with lower-casing |
| `ScreenBinding.TrimEndLower` | src/main.ts:349 | the right trim commutes with lower-casing |
| `ScreenBinding.LowerIdempotent` | src/main.ts:349 | lower-casing twice is lower-casing once |
| `ScreenBinding.LowerOfTrim` | src/main.ts:349 | trim-then-lower is lower-then-trim |
| `ScreenBinding.MatchIgnoresCase` | src/main.ts:349 | names that agree up to letter case are both screen names or neither (the comparison is case-insensitive) |
| `ScreenBinding.TrimUnpadded` | src/main.ts:349 | a name with no white space at either end is unchanged by `trim` |
| `ScreenBinding.LowerCaseExample` | src/main.ts:349 | "material.003" names the screen slot |
| `ScreenBinding.UpperCaseExample` | src/main.ts:349 | "MATERIAL.003" names the screen slot |
| `ScreenBinding.PaddedExample` | src/main.ts:349 | "Material.003" padded with two spaces in front and a newline behind names the screen slot |
| `ScreenBinding.ScreenNameExamples` | src/main.ts:349 | the constant, its upper-case form and a padded mixed-case form all match |
| `ScreenBinding.OtherNameExamples` | src/main.ts:349 | "material.004", "material.0030" and the empty name (a missing material) do not match |
| `ScreenBinding.FindIndexFrom` | src/main.ts:349 | the `findIndex` scan from k returns the first element the callback accepts, and -1 only when none does |
| `ScreenBinding.FindIndex` | src/main.ts:349 | `findIndex` returns the first accepted index, and -1 exactly when no element is accepted |
| `ScreenBinding.FindScreenSlot` | src/main.ts:348-350 | the screen slot is the first slot whose trimmed, lower-cased name is the key, and -1 exactly when there is none |
| `ScreenBinding.ScreenSlotHoldsMaterial` | src/main.ts:349 | the slot found always holds a material, since a missing one has the empty name |
| `ScreenBinding.ScreenMaterial` | src/main.ts:359-368 | the clone keeps the base's name and has black color, no map, white emissive from the capture at 1.6, tone mapping and double sides; cloning a clone changes nothing |
| `ScreenBinding.SwapScreenSlot` | src/main.ts:370-371 | only the screen slot is replaced, by the clone of its material; every other slot is kept |
| `ScreenBinding.SwapIdempotent` | src/main.ts:344-375 | binding twice is binding once: the search finds the same slot again, and swapping it again changes nothing |
| `ScreenBinding.SwapTwice` | src/main.ts:370-371 | swapping the same slot twice is swapping it once, since the clone already shows the capture |
| `ScreenBinding.FirstMatchUnchanged` | src/main.ts:349 | slot lists that agree on names up to a first match share that first match |
| `ScreenBinding.Mesh.constructor` | src/main.ts:344-348 | a mesh whose single material counts as a one-slot list, with its shadow flags as the load handler left them |
| `ScreenBinding.Mesh.ProjectScreenUVs` | src/main.ts:353 | step 1: the aspect and the uv buffer are those of the projection for the slot's group; the existing uv attribute is written in place (a missing one is created fresh); without positions the aspect is 1 and the uv attribute is untouched |
| `ScreenBinding.Mesh.SwapInScreenMaterial` | src/main.ts:356-374 | steps 2-4: the capture session becomes `ResizedState` for the aspect, only the slot is swapped for its clone, shadows are off, and the uv attribute is untouched |
| `ScreenBinding.Mesh.BindScreenSlot` | src/main.ts:353-374 | steps 1-4: projected UVs written in place into the existing uv attribute, or into a fresh one (untouched without positions), the whole capture session as `ResizedState` for the projection's aspect, only the slot swapped, shadows off |
| `ScreenBinding.Mesh.ApplyHTMLTexture` | src/main.ts:345-375 | per mesh: returns the screen slot found; without one nothing changes; with one the slot is bound, its aspect and UVs are the projection's, written in place into the existing uv attribute or a fresh one, and the capture session is `ResizedState` for that aspect |
| `ScrollKeyframes.Clamp01` | src/main.ts:516 | the point of [0, 1] nearest to x |
| `ScrollKeyframes.ScanFrom` | src/main.ts:519-523 | the pair scan from pair k, returning at the first pair whose half-open interval holds y; stated by `ScanFromSpec` |
| `ScrollKeyframes.SegmentAndT` | src/main.ts:517-524 | `getSegmentAndT`: (0, 0) before the first top, else the scan from pair 0; stated by `SegmentAndTSpec` |
| `ScrollKeyframes.ScanFromSpec` | src/main.ts:519-523 | the pair scan from k finds the first pair whose half-open interval holds y, at the clamped fraction, else the last pair at t = 1 |
| `ScrollKeyframes.SegmentAndTSpec` | src/main.ts:517-524 | (0, 0) before the first top; the first pair holding y at its clamped fraction; else the last pair at t = 1; always a valid pair with t in [0, 1] |
| `ScrollKeyframes.NoSegmentMeansLast` | src/main.ts:523 | a sample at or past the first top that lies in no pair maps to the last pair at t = 1 |
| `ScrollKeyframes.IncreasingBelowLast` | src/main.ts:519-523 | with increasing tops, every top is at most the last |
| `ScrollKeyframes.PastLastTop` | src/main.ts:519-523 | with increasing tops, a sample at or past the last top gives the last pair at t = 1 |
| `ScrollKeyframes.SegmentExamples` | src/main.ts:517-524 | worked values for tops [0, 1000, 3000]: 500 gives (0, 0.5), -100 gives (0, 0), 4000 gives (1, 1) |
| `ScrollKeyframes.GetSegmentAndT` | src/main.ts:517-524 | the loop returns exactly the specified segment, a valid pair with t in [0, 1] |
| `ScrollKeyframes.Lerp` | src/main.ts:509 | the scale lerp is a at t = 0 and b at t = 1 |
| `ScrollKeyframes.LerpWithin` | src/main.ts:509 | for t in [0, 1] the lerp stays between its end points |
| `ScrollKeyframes.RigScale` | src/main.ts:509 | the rig scale is the lerp between the scales of the segment's two keyframes at its t; bounded by `RigScaleBounds` |
| `ScrollKeyframes.RigScaleBounds` | src/main.ts:408-412 | with the page's keyframe scales the rig scale stays within [1.15, 1.9] for every scroll sample |
| `ScrollKeyframes.ClosestIn` | src/main.ts:423-430 | the closest top among the first n, the earliest of equally close ones (strict `<`); 0 for no tops |
| `ScrollKeyframes.ClosestSectionIndex` | src/main.ts:423-430 | the scan returns an index at minimal distance, strictly closer than every earlier one; 0 with no sections |
| `Paging.ClampIndex` | src/main.ts:432 | the index pulled into the section range: kept when in range, 0 below, the last above |
| `Paging.StepMovesOneSection` | src/main.ts:432-470 | a page step moves the target at most one section, and exactly one when not at the end |
| `Paging.WheelStep` | src/main.ts:450-452 | the sign of deltaY: positive pages down, negative up, zero does not move |
| `Paging.SwipeStep` | src/main.ts:460-463 | a move under 40 px is no gesture; an upward swipe pages down, a downward one pages up |
| `Paging.KeyStep` | src/main.ts:469-470 | ArrowDown, PageDown and Space page down; ArrowUp and PageUp page up; other keys do nothing |
| `Paging.SectionForHref` | src/main.ts:476 | the first section whose "#id" is the link's href, and -1 exactly when none is |
| `Paging.Pager.constructor` | src/main.ts:482-483 | start-up: tops measured, not paging, current index the section closest to the scroll offset |
| `Paging.Pager.ScrollToIndex` | src/main.ts:431-435 | clamp, start paging, target that section and request a smooth scroll to its top |
| `Paging.Pager.StartSettleWatcher` | src/main.ts:437-446 | the watcher runs afterwards; a running one is not started twice; nothing else changes |
| `Paging.Pager.SettleTick` | src/main.ts:439-445 | within 2 px of the target's top paging ends, the target becomes current and the watcher stops; otherwise nothing changes |
| `Paging.Pager.OnWheel` | src/main.ts:448-454 | ignored while paging; otherwise one step by the sign of deltaY (none for 0) and the watcher started |
| `Paging.Pager.OnTouchStart` | src/main.ts:457 | records the touch's start position, even while paging |
| `Paging.Pager.OnTouchEnd` | src/main.ts:458-465 | ignored while paging or under 40 px; otherwise one step against the swipe direction and the watcher started |
| `Paging.Pager.OnKeyDown` | src/main.ts:467-471 | ignored while paging or for other keys; the paging keys step one section and start the watcher |
| `Paging.Pager.OnNavClick` | src/main.ts:472-479 | a link naming a section jumps straight to it, even while paging; any other link changes nothing |
| `Paging.Pager.OnResize` | src/main.ts:525-527 | tops re-measured and the current index re-picked as the closest section; paging state kept |
| `PointerTilt.Damp` | src/main.ts:503-504 | one damping step shrinks the signed gap to the target by 0.8 and never overshoots |
| `PointerTilt.DampCloser` | src/main.ts:503-504 | every step strictly closes a non-zero gap |
| `PointerTilt.DampTimesSigned` | src/main.ts:503-504 | after n frames the signed gap is 0.8ⁿ times the initial one |
| `PointerTilt.DampTimesGap` | src/main.ts:503-504 | after n frames the distance to the target is 0.8ⁿ times the initial distance |
| `PointerTilt.PowBound` | src/main.ts:33 | 0.8ⁿ is positive and at most 1 / (1 + 0.2n) |
| `PointerTilt.DampConverges` | src/main.ts:503-504 | the damped pointer gets within any eps > 0 of a fixed target |
| `PointerTilt.Tilt.constructor` | src/main.ts:29-30 | pointer and target start at the origin |
| `PointerTilt.Tilt.OnPointerMove` | src/main.ts:34-37 | the target is the pointer mapped to [-1, 1] on each axis (inside the viewport); the damped pointer is untouched |
| `PointerTilt.Tilt.OnPointerLeave` | src/main.ts:38 | `pointerleave` and `blur` reset the target to the centre |
| `PointerTilt.Tilt.Step` | src/main.ts:503-504 | the frame moves each coordinate one damping step toward its target; the target is kept |

## Left out

- Numbers are exact reals. Float64 rounding, NaN and Infinity are not modelled, except where the source relies on Infinity or NaN: the ±Infinity start box is the `Empty` bound, and the NaN sort for an empty group becomes the (x, y) plane.
- The uv attribute is a `Float32Array`, so stored values are rounded to single precision. The model stores exact reals.
- Out-of-range buffer reads, which return `undefined` in JavaScript, are excluded by the `WellFormed` geometry invariant: indices are in range and every group's slots exist.
- `nSum.normalize()` is not computed. `DominantPlaneScaleInvariant` proves that it cannot change the chosen plane, so the model compares the un-normalised sum.
- The order in which `used.forEach` visits vertices is not modelled: the write loop picks any remaining vertex, and `ProjectedUVAdd` shows that the result does not depend on the order.
- `LargestSpanPlane` is the fallback plane written as a case table. `LargestSpanPlaneSorts` checks it against a stable insertion sort standing in for `Array.prototype.sort`.
- `needsUpdate` flags are modelled as version counters on the capture session and are not modelled on materials. Sampling settings (`generateMipmaps`, filters) are not modelled.
- The uv attribute's `needsUpdate` (src/main.ts:288-289) is not modelled: it only asks the renderer to re-upload the buffer, and the model has no renderer.
- The canvas bitmap is abstracted to a count of snapshots drawn plus whether it is blank. The html2canvas call is a count of raster calls, and how it settles is the `CaptureOutcome` given to `CompleteCapture`. The iframe's load handler is `OnFrameLoad`: its waits for fonts, an animation frame and 50 ms are collapsed into one step, and whether the html2canvas script loads (or the frame already has it) is the `scriptLoads` parameter. A rejected script load ends the handler with the library still missing. The MutationObserver and the iframe's resize listener are not modelled. They only call `captureHTMLToCanvas`, which is `BeginCapture`.
- `performance.now()`, `window.scrollY`, `innerWidth`/`innerHeight` and pointer or touch coordinates are parameters. `window.scrollTo` is recorded as a log of requested offsets. `setInterval`/`clearInterval` become a flag plus the callback as a method.
- `root.traverse` is not modelled. The binding is stated per mesh (`ScreenBinding.Mesh.ApplyHTMLTexture`) and the traversal would apply it to every mesh.
- `o.material = Array.isArray(o.material) ? mats : mats[0]` is modelled as the slot list itself: a single material is a one-slot list.
- `LowerChar` and `ToLower` lower-case only ASCII A-Z and keep every other character, so they keep the length. JavaScript's `toLowerCase` also maps letters outside ASCII ('É' to 'é'), and some to two characters ('İ' to "i\u0307"). Neither is modelled. For the slot test this changes no answer. A non-ASCII character that `ToLower` keeps is not a character of the key "material.003". Under the Unicode mappings JavaScript uses, it lower-cases to a string that is not one of the key's characters either: the only character outside A-Z that lower-cases to ASCII is the Kelvin sign, to "k". So names with such characters fail both tests, and all-ASCII names get the same answer from both.
- The renderer, scene, camera, lights, GLTF loading, loader overlay, fonts, GSAP and camera aspect on resize are not modelled.
- The rig's position lerp, the quaternion slerp and the yaw/pitch tilt rotation are not modelled. The tilt damping that feeds them is modelled, and so is the scale lerp.
- `computeSectionTops` (DOM measurement) is not modelled. The tops are given as a sequence, one per section in keyframe order. `getSegmentAndT` returns the last pair index as `keyframes.length - 2`, and the model writes it as `|tops| - 2`. The two agree because the page builds one section per keyframe.
- `UVProjection.Project` states only the shape of the plan (box, positive aspect, two distinct axes). The meaning of each part is stated by the lemmas about the walk, the plane and the aspect.
- `UVProjection.ProjectedUV` states only the length of the buffer. Its contents are stated by `ProjectedUVAt`, `ProjectedUVKeeps`, `ProjectedUVInUnit` and `ProjectedUVSpec`.
