/**
 MainActivity.kt: the per-frame analysis step on the camera thread, the FPS
 counter and the display-mode toggle. The native OpenCV entry points are
 opaque functions given as a parameter; the clock is a parameter too.
 */
module Activity {
  import opened Wrappers
  import opened Gl
  import RenderModel
  import RenderTrace
  import opened Renderer
  import opened FrameRate

  /** The part of a CameraX frame the analysis reads: the Y plane and its metadata. */
  datatype ImageProxy = ImageProxy(yPlane: seq<Byte>, width: int, height: int, rotationDegrees: int)

  /** A native transform: (luma, width, height, rotation) to an output image, or null. */
  type Transformer = (seq<Byte>, int, int, int) -> Option<seq<Byte>>

  /** The two JNI entry points `processFrame` (edge detection) and `rotateRawFrame`. */
  datatype Native = Native(processFrame: Transformer, rotateRawFrame: Transformer)

  /** The transform selected by the display mode, applied to one frame's luma. */
  function Transform(native: Native, showProcessed: bool, image: ImageProxy): Option<seq<Byte>> {
    var transform := if showProcessed then native.processFrame else native.rotateRawFrame;
    transform(image.yPlane, image.width, image.height, image.rotationDegrees)
  }

  class MainActivity {
    var showProcessed: bool
    var frameCount: int
    var lastFpsTime: int
    const renderer: GLRenderer

    /** glSurfaceView.requestRender() calls. */
    ghost var renderRequests: nat
    /** Every FPS value posted to the on-screen label, in order. */
    ghost var fpsShown: seq<int>

    ghost function Counter(): FpsCounter
      reads this
    {
      FpsCounter(frameCount, lastFpsTime)
    }

    ghost predicate Valid()
      reads this, renderer
    {
      renderer.Valid()
    }

    /** A fresh activity at clock reading `now`, showing processed frames, with a new renderer. */
    constructor (now: int)
      ensures showProcessed && Counter() == FpsCounter(0, now)
      ensures fresh(renderer) && renderer.State() == RenderModel.Initial()
      ensures renderRequests == 0 && fpsShown == []
      ensures Valid()
    {
      showProcessed := true;
      frameCount := 0;
      lastFpsTime := now;
      renderer := new GLRenderer();
      renderRequests := 0;
      fpsShown := [];
    }

    /** The toggle button: flip between processed and raw display. */
    method ToggleShowProcessed()
      modifies this`showProcessed
      ensures showProcessed == !old(showProcessed)
    {
      showProcessed := !showProcessed;
    }

    /** One updateFPS call at clock reading `now`. */
    method UpdateFps(now: int)
      modifies this`frameCount, this`lastFpsTime, this`fpsShown
      ensures var t := FrameRate.UpdateFps(old(Counter()), now);
        Counter() == t.counter && fpsShown == old(fpsShown) + Shown(t)
    {
      frameCount := Wrap32(frameCount + 1);
      var timeDiff := now - lastFpsTime;
      if timeDiff >= FpsUpdateIntervalMs {
        var fps := Fps(frameCount, timeDiff);
        fpsShown := fpsShown + [fps];
        frameCount := 0;
        lastFpsTime := now;
      }
    }
  }

  class ImageAnalyzer {
    /** The scratch luma buffer, reused across frames of the same size. */
    var yDataBuffer: array?<Byte>
    const activity: MainActivity

    constructor (activity: MainActivity)
      ensures this.activity == activity && yDataBuffer == null
    {
      this.activity := activity;
      yDataBuffer := null;
    }

    /**
     Analyse one camera frame at clock reading `now`: copy the luma into the
     scratch buffer, run the transform the display mode selects, publish a
     non-null result to the renderer and request a render, then count the frame.
     */
    method ProcessImage(image: ImageProxy, native: Native, now: int)
      requires activity.Valid()
      modifies this, yDataBuffer, activity, activity.renderer
      ensures activity.Valid() && activity.showProcessed == old(activity.showProcessed)
      ensures yDataBuffer != null && yDataBuffer[..] == image.yPlane
      ensures old(yDataBuffer) != null && old(yDataBuffer).Length == |image.yPlane| ==>
        yDataBuffer == old(yDataBuffer)
      ensures old(yDataBuffer) == null || old(yDataBuffer).Length != |image.yPlane| ==>
        fresh(yDataBuffer)
      ensures match Transform(native, activity.showProcessed, image)
        case Some(data) =>
          activity.renderer.State() ==
            RenderModel.UpdateTexture(old(activity.renderer.State()), data, image.width, image.height) &&
          activity.renderRequests == old(activity.renderRequests) + 1
        case None =>
          activity.renderer.State() == old(activity.renderer.State()) &&
          activity.renderRequests == old(activity.renderRequests)
      ensures activity.renderer.State() ==
        RenderTrace.Run(old(activity.renderer.State()), Emitted(native, activity.showProcessed, Analyze(image)))
      ensures var t := FrameRate.UpdateFps(old(activity.Counter()), now);
        activity.Counter() == t.counter && activity.fpsShown == old(activity.fpsShown) + Shown(t)
    {
      var ySize := |image.yPlane|;
      var yData: array<Byte>;
      if yDataBuffer != null && yDataBuffer.Length == ySize {
        yData := yDataBuffer;
      } else {
        yData := new Byte[ySize];
        yDataBuffer := yData;
      }
      forall i | 0 <= i < ySize {
        yData[i] := image.yPlane[i];
      }
      assert yData[..] == image.yPlane;

      var processedData := if activity.showProcessed
        then native.processFrame(yData[..], image.width, image.height, image.rotationDegrees)
        else native.rotateRawFrame(yData[..], image.width, image.height, image.rotationDegrees);
      ghost var before := activity.renderer.State();
      match processedData {
        case Some(data) =>
          activity.renderer.UpdateTexture(data, image.width, image.height);
          activity.renderRequests := activity.renderRequests + 1;
          assert [RenderTrace.Publish(data, image.width, image.height)][1..] == [];
        case None =>
      }
      activity.UpdateFps(now);
    }
  }

  /** One callback of the running app, on whichever thread delivers it. */
  datatype Callback = Analyze(image: ImageProxy) | Toggle | Render

  /** The display mode after a callback. */
  function Next(showProcessed: bool, cb: Callback): bool {
    if cb.Toggle? then !showProcessed else showProcessed
  }

  /** The renderer calls a callback makes: a publish for a successful analysis, a draw for a render. */
  function Emitted(native: Native, showProcessed: bool, cb: Callback): seq<RenderTrace.Event> {
    match cb
    case Analyze(image) =>
      (match Transform(native, showProcessed, image)
       case Some(data) => [RenderTrace.Publish(data, image.width, image.height)]
       case None => [])
    case Toggle => []
    case Render => [RenderTrace.Draw]
  }

  /** The renderer calls of a whole run of callbacks, starting in display mode `showProcessed`. */
  function Events(native: Native, showProcessed: bool, cbs: seq<Callback>): seq<RenderTrace.Event>
    decreases |cbs|
  {
    if cbs == [] then []
    else Emitted(native, showProcessed, cbs[0]) + Events(native, Next(showProcessed, cbs[0]), cbs[1..])
  }

  function Toggles(cbs: seq<Callback>): nat
    decreases |cbs|
  {
    if cbs == [] then 0 else (if cbs[0].Toggle? then 1 else 0) + Toggles(cbs[1..])
  }

  /** The display mode in effect at callback `i`: flipped once per earlier toggle. */
  function ModeAt(showProcessed: bool, cbs: seq<Callback>, i: nat): bool
    requires i <= |cbs|
  {
    if Toggles(cbs[..i]) % 2 == 0 then showProcessed else !showProcessed
  }

  /** `f` is the output of a successful transform of some analysed frame, in the mode then in effect. */
  ghost predicate ProducedBy(native: Native, showProcessed: bool, cbs: seq<Callback>, f: Frame) {
    exists i | 0 <= i < |cbs| ::
      cbs[i].Analyze? &&
      Transform(native, ModeAt(showProcessed, cbs, i), cbs[i].image) == Some(f.pixels) &&
      f.width == cbs[i].image.width && f.height == cbs[i].image.height
  }

  lemma ModeAtShift(showProcessed: bool, cbs: seq<Callback>, j: nat)
    requires j < |cbs| - 1
    ensures ModeAt(showProcessed, cbs, j + 1) == ModeAt(Next(showProcessed, cbs[0]), cbs[1..], j)
  {
    assert cbs[..j + 1][0] == cbs[0];
    assert cbs[..j + 1][1..] == cbs[1..][..j];
  }

  /** Every frame a run publishes is a transform output of one of its analysed frames. */
  lemma {:induction false} PublishedAreProduced(native: Native, showProcessed: bool, cbs: seq<Callback>)
    ensures forall f | f in RenderTrace.Published(Events(native, showProcessed, cbs)) ::
      ProducedBy(native, showProcessed, cbs, f)
    decreases |cbs|
  {
    if cbs != [] {
      var next := Next(showProcessed, cbs[0]);
      var head := Emitted(native, showProcessed, cbs[0]);
      var tail := Events(native, next, cbs[1..]);
      PublishedAreProduced(native, next, cbs[1..]);
      RenderTrace.PublishedAppend(head, tail);
      forall f | f in RenderTrace.Published(Events(native, showProcessed, cbs))
        ensures ProducedBy(native, showProcessed, cbs, f)
      {
        if f in RenderTrace.Published(head) {
          assert cbs[..0] == [];
          assert ModeAt(showProcessed, cbs, 0) == showProcessed;
          assert RenderTrace.Published(head) == RenderTrace.Published(head[1..]) + [RenderTrace.FrameOf(head[0])] by {
            assert head[1..] == [];
          }
        } else {
          assert f in RenderTrace.Published(tail);
          var j :| 0 <= j < |cbs[1..]| && cbs[1..][j].Analyze? &&
            Transform(native, ModeAt(next, cbs[1..], j), cbs[1..][j].image) == Some(f.pixels) &&
            f.width == cbs[1..][j].image.width && f.height == cbs[1..][j].image.height;
          ModeAtShift(showProcessed, cbs, j);
          assert cbs[j + 1] == cbs[1..][j];
        }
      }
    }
  }

  /**
   Starting with no frame pending, everything the renderer uploads during any
   run of analyses, toggles and renders is the output of a successful transform
   of one of the analysed frames, at that frame's size: a null result is never
   shown, and nothing else reaches the texture.
   */
  lemma {:induction false} OnlyTransformOutputsUploaded(r: RenderModel.Renderer, native: Native, showProcessed: bool,
                                     cbs: seq<Callback>)
    requires !r.updateTexture
    ensures var r' := RenderTrace.Run(r, Events(native, showProcessed, cbs));
      |r.gpu.uploads| <= |r'.gpu.uploads| &&
      forall i | |r.gpu.uploads| <= i < |r'.gpu.uploads| ::
        ProducedBy(native, showProcessed, cbs, r'.gpu.uploads[i])
  {
    var evs := Events(native, showProcessed, cbs);
    RenderTrace.RunUploads(r, evs);
    RenderTrace.HandedArePublished(evs);
    PublishedAreProduced(native, showProcessed, cbs);
    var handed := RenderTrace.Handed(evs);
    var r' := RenderTrace.Run(r, evs);
    assert r'.gpu.uploads == r.gpu.uploads + handed;
    forall i | |r.gpu.uploads| <= i < |r'.gpu.uploads|
      ensures ProducedBy(native, showProcessed, cbs, r'.gpu.uploads[i])
    {
      assert r'.gpu.uploads[i] == handed[i - |r.gpu.uploads|];
    }
  }
}
