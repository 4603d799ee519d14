/**
 * The HTML-to-texture capture pipeline: sizing the capture target to the
 * screen's aspect ratio, and the single-flight snapshot session that copies
 * the hidden document's #screen-root into the screen canvas.
 *
 * The raster primitive (html2canvas) is asynchronous. Its call is split into
 * BeginCapture (the guard, the flag, the call issued) and CompleteCapture
 * (the await resuming, the clear and the draw, then the `finally`). The
 * canvas bitmap is abstracted to a count of snapshots drawn plus whether it
 * is blank; the texture's `needsUpdate` raises to a version counter.
 */
module Capture {
  import opened Wrappers

  /**
   * How a capture in flight settles: the snapshot is drawn; the raster call
   * rejects before the canvas is touched; or the canvas is cleared and the
   * draw then throws, leaving it blank.
   */
  datatype CaptureOutcome = Drawn | RasterFailed | DrawFailed

  /** `TEX_H` after any resize: the reference capture height in pixels. */
  const TexHeight: int := 1024

  /** `SCREEN_FPS`: the polling rate cap of the render loop. */
  const ScreenFps: real := 30.0

  /** Minimum time between two polling captures, in milliseconds. */
  const CaptureInterval: real := 1000.0 / ScreenFps

  /** `Math.round`: the nearest integer, halves rounded up. */
  function Round(x: real): (n: int)
    ensures x - 0.5 < n as real <= x + 0.5
  {
    (x + 0.5).Floor
  }

  /**
   * `TEX_W = Math.max(2, Math.round(TEX_H * aspect))`: the capture width
   * is the height times the aspect, rounded, and never below 2.
   */
  function CaptureWidth(aspect: real): (w: int)
    ensures w >= 2
  {
    var r := Round(TexHeight as real * aspect);
    if r > 2 then r else 2
  }

  /**
   * The two regimes of the capture width: 1024 * aspect rounded to the
   * nearest integer once that is at least 2, and the floor of 2 below it.
   */
  lemma CaptureWidthSpec(aspect: real)
    ensures 1024.0 * aspect >= 1.5 ==> 1024.0 * aspect - 0.5 < CaptureWidth(aspect) as real <= 1024.0 * aspect + 0.5
    ensures 1024.0 * aspect < 1.5 ==> CaptureWidth(aspect) == 2
  {
  }

  /** A wider screen never gets a narrower capture. */
  lemma CaptureWidthMonotone(a: real, b: real)
    requires a <= b
    ensures CaptureWidth(a) <= CaptureWidth(b)
  {
    FloorMonotone(1024.0 * a + 0.5, 1024.0 * b + 0.5);
  }

  lemma FloorMonotone(x: real, y: real)
    requires x <= y
    ensures x.Floor <= y.Floor
  {
    assert x.Floor as real <= x <= y < y.Floor as real + 1.0;
  }

  /** The render loop's throttle: more than 1000/30 ms since the last polling capture. */
  predicate ThrottleOpen(now: real, lastCapture: real)
  {
    now - lastCapture > CaptureInterval
  }

  /** A width and a height in pixels. */
  datatype Box = Box(w: int, h: int)

  /** A snapshot of every field of a capture session. */
  datatype SessionState = SessionState(
    rootPresent: bool, libraryLoaded: bool, capturing: bool, lastCapture: real,
    tex: Box, canvas: Box, frame: Box, root: Box,
    canvasVersion: nat, canvasBlank: bool, textureVersion: nat, rasterCalls: nat, completed: nat)

  /** The capture session: the module-level state of the pipeline. */
  class CaptureSession {
    /** `screenRoot` was found in the hidden document. */
    var rootPresent: bool
    /** `h2c`: the raster primitive is available. */
    var libraryLoaded: bool
    /** A capture has been issued and has not finished. */
    var capturing: bool
    /** Time stamp of the last polling capture (ms). */
    var lastCapture: real
    /** `TEX_W` x `TEX_H`. */
    var tex: Box
    /** The capture canvas, the hidden iframe's box and the root's box. */
    var canvas: Box
    var frame: Box
    var root: Box
    /** Number of snapshots drawn into the canvas. */
    var canvasVersion: nat
    /** The canvas bitmap holds no snapshot: new, just resized, or cleared by a failed draw. */
    var canvasBlank: bool
    /** Number of times the texture was marked for re-upload. */
    var textureVersion: nat
    /** Raster calls issued, and raster calls that have finished. */
    ghost var rasterCalls: nat
    ghost var completed: nat

    /**
     * Single-flight: every raster call issued has finished except the one
     * in flight, and `capturing` says exactly whether there is one.
     */
    ghost predicate Valid()
      reads this
    {
      && rasterCalls == completed + (if capturing then 1 else 0)
      && tex.h == TexHeight && tex.w >= 2
    }

    ghost function State(): SessionState
      reads this
    {
      SessionState(rootPresent, libraryLoaded, capturing, lastCapture,
        tex, canvas, frame, root,
        canvasVersion, canvasBlank, textureVersion, rasterCalls, completed)
    }

    /**
     * Module initialisation, before the hidden document has loaded: no root
     * and no raster primitive yet, idle, 1024 x 1024 texture and iframe. A
     * `#screenCanvas` already in the page is reused with its own size
     * (`existingCanvas`); only a newly created canvas is sized 1024 x 1024.
     * The root box means nothing until a root is found.
     */
    constructor (existingCanvas: Option<Box>)
      ensures Valid()
      ensures !rootPresent && !libraryLoaded
      ensures !capturing && lastCapture == 0.0
      ensures tex == Box(1024, 1024) && frame == Box(1024, 1024)
      ensures canvas == (if existingCanvas.Some? then existingCanvas.value else Box(1024, 1024))
      ensures canvasVersion == 0 && canvasBlank && textureVersion == 0 && rasterCalls == 0 && completed == 0
    {
      rootPresent, libraryLoaded := false, false;
      capturing, lastCapture := false, 0.0;
      tex, frame, root := Box(1024, 1024), Box(1024, 1024), Box(1024, 1024);
      canvas := if existingCanvas.Some? then existingCanvas.value else Box(1024, 1024);
      canvasVersion, canvasBlank, textureVersion := 0, true, 0;
      rasterCalls, completed := 0, 0;
    }

    /**
     * The iframe's load handler looking up `#screen-root`: the root is
     * present exactly when found, and a found root is sized to the current
     * capture box (which a resize may already have changed).
     */
    method LoadRoot(found: bool)
      requires Valid()
      modifies this
      ensures Valid()
      ensures rootPresent == found
      ensures found ==> root == tex
      ensures !found ==> root == old(root)
      ensures libraryLoaded == old(libraryLoaded) && capturing == old(capturing) && lastCapture == old(lastCapture)
      ensures tex == old(tex) && canvas == old(canvas) && frame == old(frame)
      ensures canvasVersion == old(canvasVersion) && canvasBlank == old(canvasBlank) && textureVersion == old(textureVersion)
      ensures rasterCalls == old(rasterCalls) && completed == old(completed)
    {
      rootPresent := found;
      if found {
        root := tex;
      }
    }

    /**
     * `injectHtml2Canvas` once html2canvas is available, whether it was
     * already on the iframe's window or its script has just loaded: `h2c`
     * is set and nothing else changes.
     */
    method InjectLibrary()
      requires Valid()
      modifies this
      ensures Valid()
      ensures libraryLoaded
      ensures rootPresent == old(rootPresent) && capturing == old(capturing) && lastCapture == old(lastCapture)
      ensures tex == old(tex) && canvas == old(canvas) && frame == old(frame) && root == old(root)
      ensures canvasVersion == old(canvasVersion) && canvasBlank == old(canvasBlank) && textureVersion == old(textureVersion)
      ensures rasterCalls == old(rasterCalls) && completed == old(completed)
    {
      libraryLoaded := true;
    }

    /**
     * `resizeScreenCaptureToAspect`: every capture box becomes
     * CaptureWidth(aspect) x 1024 (the root's only when there is one), the
     * canvas bitmap is reset to blank by the size change, and the texture is
     * marked dirty. The dimensions depend on `aspect` alone, so a second call
     * with the same aspect leaves them as they are.
     */
    method ResizeToAspect(aspect: real)
      requires Valid()
      modifies this
      ensures Valid()
      ensures State() == ResizedState(old(State()), aspect)
    {
      var b := Box(CaptureWidth(aspect), TexHeight);
      if rootPresent {
        root := b;
      }
      tex, canvas, frame := b, b, b;
      canvasBlank, textureVersion := true, textureVersion + 1;
    }

    /**
     * `captureHTMLToCanvas` up to its `await`: a no-op when the root or the
     * raster primitive is missing or a capture is in flight; otherwise it
     * raises the flag and issues exactly one raster call.
     */
    method BeginCapture() returns (started: bool)
      requires Valid()
      modifies this
      ensures Valid()
      ensures started == (old(rootPresent) && old(libraryLoaded) && !old(capturing))
      ensures !started ==> unchanged(this)
      ensures started ==> capturing && rasterCalls == old(rasterCalls) + 1
      ensures started ==> completed == old(completed) && lastCapture == old(lastCapture)
      ensures started ==> tex == old(tex)
      ensures started ==> canvasVersion == old(canvasVersion) && textureVersion == old(textureVersion)
      ensures canvasBlank == old(canvasBlank)
      ensures rootPresent == old(rootPresent) && libraryLoaded == old(libraryLoaded)
      ensures canvas == old(canvas) && frame == old(frame) && root == old(root)
    {
      if !rootPresent || !libraryLoaded || capturing {
        return false;
      }
      capturing := true;
      rasterCalls := rasterCalls + 1;
      started := true;
    }

    /**
     * The rest of `captureHTMLToCanvas`, when the raster call settles. A
     * drawn snapshot replaces the canvas contents and marks the texture
     * dirty. A rejected raster call leaves both alone. A draw that throws
     * after the clear leaves the canvas blank and the texture unmarked.
     * In every case the flag is released.
     */
    method CompleteCapture(outcome: CaptureOutcome)
      requires Valid()
      requires capturing
      modifies this
      ensures Valid()
      ensures !capturing && completed == old(completed) + 1 && rasterCalls == old(rasterCalls)
      ensures outcome == Drawn ==>
        && canvasVersion == old(canvasVersion) + 1 && !canvasBlank
        && textureVersion == old(textureVersion) + 1
      ensures outcome == RasterFailed ==>
        && canvasVersion == old(canvasVersion) && canvasBlank == old(canvasBlank)
        && textureVersion == old(textureVersion)
      ensures outcome == DrawFailed ==>
        && canvasVersion == old(canvasVersion) && canvasBlank
        && textureVersion == old(textureVersion)
      ensures rootPresent == old(rootPresent) && libraryLoaded == old(libraryLoaded)
      ensures lastCapture == old(lastCapture) && tex == old(tex)
      ensures canvas == old(canvas) && frame == old(frame) && root == old(root)
    {
      match outcome {
        case Drawn =>
          canvasBlank := false;
          canvasVersion := canvasVersion + 1;
          textureVersion := textureVersion + 1;
        case RasterFailed =>
        case DrawFailed =>
          canvasBlank := true;
      }
      capturing := false;
      completed := completed + 1;
    }

    /**
     * The capture check at the top of `animate`: when the root and the
     * primitive are there and the throttle is open, the time stamp moves to
     * `now` and a capture is requested (dropped if one is in flight).
     */
    method AnimateTick(now: real) returns (started: bool)
      requires Valid()
      modifies this
      ensures Valid()
      ensures var gate := old(rootPresent) && old(libraryLoaded) && ThrottleOpen(now, old(lastCapture));
        && (!gate ==> unchanged(this) && !started)
        && (gate ==> lastCapture == now && started == !old(capturing))
      ensures started ==> capturing && rasterCalls == old(rasterCalls) + 1
      ensures !started ==> rasterCalls == old(rasterCalls) && capturing == old(capturing)
      ensures completed == old(completed)
      ensures canvasVersion == old(canvasVersion) && textureVersion == old(textureVersion)
      ensures canvasBlank == old(canvasBlank)
      ensures tex == old(tex)
      ensures rootPresent == old(rootPresent) && libraryLoaded == old(libraryLoaded)
      ensures canvas == old(canvas) && frame == old(frame) && root == old(root)
    {
      started := false;
      if rootPresent && libraryLoaded && now - lastCapture > CaptureInterval {
        lastCapture := now;
        started := BeginCapture();
      }
    }
  }

  /**
   * `resizeScreenCaptureToAspect(aspect)` took the session from `before` to
   * `after`: texture, canvas, iframe and (when present) root boxes are
   * CaptureWidth(aspect) x 1024, the canvas is blank, the texture has been
   * marked once more, and nothing else has changed.
   */
  predicate ResizedTo(after: SessionState, before: SessionState, aspect: real)
  {
    && after.tex == Box(CaptureWidth(aspect), TexHeight)
    && after.canvas == after.tex && after.frame == after.tex
    && (after.rootPresent ==> after.root == after.tex)
    && (!after.rootPresent ==> after.root == before.root)
    && after.textureVersion == before.textureVersion + 1 && after.canvasBlank
    && after.rootPresent == before.rootPresent && after.libraryLoaded == before.libraryLoaded
    && after.capturing == before.capturing && after.lastCapture == before.lastCapture
    && after.canvasVersion == before.canvasVersion
    && after.rasterCalls == before.rasterCalls && after.completed == before.completed
  }

  /** The snapshot `ResizeToAspect` leaves behind, given the one it started from. */
  ghost function ResizedState(before: SessionState, aspect: real): SessionState
  {
    var b := Box(CaptureWidth(aspect), TexHeight);
    before.(tex := b, canvas := b, frame := b, root := if before.rootPresent then b else before.root,
      canvasBlank := true, textureVersion := before.textureVersion + 1)
  }

  /** What `ResizeToAspect` leaves behind is exactly what a resize promises. */
  lemma ResizedStateIsResizedTo(before: SessionState, aspect: real)
    ensures ResizedTo(ResizedState(before, aspect), before, aspect)
  {
  }

  /**
   * Resizing twice to the same aspect leaves every box as the first resize
   * left it; only the texture is marked once more.
   */
  lemma ResizeTwiceSameAspect(s: SessionState, aspect: real)
    ensures ResizedState(ResizedState(s, aspect), aspect)
         == ResizedState(s, aspect).(textureVersion := s.textureVersion + 2)
  {
  }

  /**
   * Two capture requests back to back (a DOM mutation and a resize, say)
   * while nothing settles in between: the first issues a raster call
   * exactly when a capture can start, and the second is always dropped.
   */
  method BackToBackCaptures(s: CaptureSession) returns (first: bool, second: bool)
    requires s.Valid()
    modifies s
    ensures s.Valid()
    ensures first == (old(s.rootPresent) && old(s.libraryLoaded) && !old(s.capturing))
    ensures !second
    ensures s.rasterCalls == old(s.rasterCalls) + (if first then 1 else 0)
    ensures first ==> s.capturing
  {
    first := s.BeginCapture();
    second := s.BeginCapture();
  }

  /**
   * The iframe's load handler from the root lookup to its first capture
   * request, with the waits for fonts, a frame and 50 ms collapsed:
   * without a root it stops; if html2canvas cannot be loaded it stops
   * with the rejection; otherwise it asks for a capture, which starts
   * unless one is already in flight.
   */
  method OnFrameLoad(s: CaptureSession, found: bool, scriptLoads: bool) returns (started: bool)
    requires s.Valid()
    modifies s
    ensures s.Valid()
    ensures started == (found && scriptLoads && !old(s.capturing))
    ensures s.rootPresent == found
    ensures found ==> s.root == s.tex
    ensures s.libraryLoaded == (old(s.libraryLoaded) || (found && scriptLoads))
    ensures s.rasterCalls == old(s.rasterCalls) + (if started then 1 else 0)
    ensures s.tex == old(s.tex) && s.canvas == old(s.canvas) && s.frame == old(s.frame)
    ensures s.canvasVersion == old(s.canvasVersion) && s.textureVersion == old(s.textureVersion)
    ensures started ==> s.capturing
    ensures !started ==> s.capturing == old(s.capturing)
    ensures s.lastCapture == old(s.lastCapture) && s.canvasBlank == old(s.canvasBlank) && s.completed == old(s.completed)
    ensures !found ==> s.root == old(s.root)
  {
    s.LoadRoot(found);
    if !found || !scriptLoads {
      return false;
    }
    s.InjectLibrary();
    started := s.BeginCapture();
  }
}
