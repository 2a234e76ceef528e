/**
 The frame handoff over whole interleavings. The producer (updateTexture, on the
 camera thread) and the consumer (onDrawFrame, on the render thread) each act
 atomically, so any run is a sequence of Publish and Draw events applied to the
 renderer in order.
 */
module RenderTrace {
  import opened Gl
  import opened RenderModel

  /** One atomic call on the handoff. */
  datatype Event = Publish(data: seq<Byte>, width: int, height: int) | Draw

  function FrameOf(e: Event): Frame
    requires e.Publish?
  {
    Frame(e.data, e.width, e.height)
  }

  function Step(r: Renderer, e: Event): Renderer {
    match e
    case Publish(data, width, height) => UpdateTexture(r, data, width, height)
    case Draw => DrawFrame(r)
  }

  function Run(r: Renderer, evs: seq<Event>): Renderer
    decreases |evs|
  {
    if evs == [] then r else Run(Step(r, evs[0]), evs[1..])
  }

  /**
   Latest-wins, defined from the events alone: a published frame reaches the
   texture exactly when the very next call is a draw; otherwise a later publish
   supersedes it (or it is still pending at the end).
   */
  function Handed(evs: seq<Event>): seq<Frame>
    decreases |evs|
  {
    if |evs| < 2 then []
    else (if evs[0].Publish? && evs[1].Draw? then [FrameOf(evs[0])] else []) + Handed(evs[1..])
  }

  /** The frame pending before the run, delivered only if the run starts with a draw. */
  function Leading(r: Renderer, evs: seq<Event>): seq<Frame> {
    if evs != [] && evs[0].Draw? then Drained(r) else []
  }

  function CountDraws(evs: seq<Event>): nat
    decreases |evs|
  {
    if evs == [] then 0 else (if evs[0].Draw? then 1 else 0) + CountDraws(evs[1..])
  }

  function CountPublishes(evs: seq<Event>): nat
    decreases |evs|
  {
    if evs == [] then 0 else (if evs[0].Publish? then 1 else 0) + CountPublishes(evs[1..])
  }

  /** Every published frame, in order. */
  function Published(evs: seq<Event>): seq<Frame>
    decreases |evs|
  {
    if evs == [] then [] else (if evs[0].Publish? then [FrameOf(evs[0])] else []) + Published(evs[1..])
  }

  /** `xs` is `ys` with some elements left out: each element of `xs` uses up its own element of `ys`, in order. */
  predicate SubSeq<T(==)>(xs: seq<T>, ys: seq<T>)
    decreases |ys|
  {
    xs == [] ||
    (ys != [] && ((xs[0] == ys[0] && SubSeq(xs[1..], ys[1..])) || SubSeq(xs, ys[1..])))
  }

  /** Strict 1:1 cadence: publish f0, draw, publish f1, draw, and so on. */
  function Alternate(fs: seq<Frame>): seq<Event>
    decreases |fs|
  {
    if fs == [] then []
    else [Publish(fs[0].pixels, fs[0].width, fs[0].height), Draw] + Alternate(fs[1..])
  }

  /** The texture uploads of any run are exactly the latest-wins deliveries. */
  lemma {:induction false} RunUploads(r: Renderer, evs: seq<Event>)
    ensures Run(r, evs).gpu.uploads == r.gpu.uploads + Leading(r, evs) + Handed(evs)
    decreases |evs|
  {
    if evs != [] {
      var r1 := Step(r, evs[0]);
      RunUploads(r1, evs[1..]);
      if evs[0].Publish? {
        assert r1.gpu.uploads == r.gpu.uploads;
        assert Leading(r1, evs[1..]) == (if |evs| >= 2 && evs[1].Draw? then [FrameOf(evs[0])] else []);
      } else {
        assert Leading(r1, evs[1..]) == [];
      }
    }
  }

  /** The frame of a run's last publish is still pending at its end: it is not lost. */
  lemma {:induction false} LastPublishPending(r: Renderer, evs: seq<Event>)
    requires evs != [] && evs[|evs| - 1].Publish?
    ensures Drained(Run(r, evs)) == [FrameOf(evs[|evs| - 1])]
    decreases |evs|
  {
    if |evs| > 1 {
      LastPublishPending(Step(r, evs[0]), evs[1..]);
    }
  }

  /**
   No frame is delivered twice: each delivery uses up its own publish, in
   publish order, and one draw.
   */
  lemma {:induction false} HandedBounds(evs: seq<Event>)
    ensures SubSeq(Handed(evs), Published(evs))
    ensures |Handed(evs)| <= CountPublishes(evs)
    ensures |Handed(evs)| <= CountDraws(evs)
    decreases |evs|
  {
    if |evs| >= 2 {
      HandedBounds(evs[1..]);
      if evs[0].Publish? {
        assert Published(evs)[1..] == Published(evs[1..]);
      } else {
        assert Published(evs) == Published(evs[1..]);
      }
      if evs[0].Publish? && evs[1].Draw? {
        assert CountDraws(evs[1..]) == 1 + CountDraws(evs[2..]);
        HandedBounds(evs[2..]);
        assert Handed(evs[1..]) == Handed(evs[2..]);
        assert Handed(evs)[0] == Published(evs)[0];
        assert Handed(evs)[1..] == Handed(evs[1..]);
      } else {
        assert Handed(evs) == Handed(evs[1..]);
      }
    }
  }

  /** Only published frames are ever handed to the texture. */
  lemma {:induction false} HandedArePublished(evs: seq<Event>)
    ensures forall f | f in Handed(evs) :: f in Published(evs)
    decreases |evs|
  {
    if |evs| >= 2 {
      HandedArePublished(evs[1..]);
    }
  }

  lemma {:induction false} PublishedAppend(xs: seq<Event>, ys: seq<Event>)
    ensures Published(xs + ys) == Published(xs) + Published(ys)
    decreases |xs|
  {
    if xs == [] {
      assert xs + ys == ys;
    } else {
      assert (xs + ys)[0] == xs[0];
      assert (xs + ys)[1..] == xs[1..] + ys;
      PublishedAppend(xs[1..], ys);
    }
  }

  lemma {:induction false} AlternateHandsAll(fs: seq<Frame>)
    ensures Handed(Alternate(fs)) == fs
    decreases |fs|
  {
    if fs != [] {
      var rest := Alternate(fs[1..]);
      AlternateHandsAll(fs[1..]);
      var evs := Alternate(fs);
      assert evs[1..] == [Draw] + rest;
      assert Handed([Draw] + rest) == Handed(rest) by {
        if rest != [] {
          assert ([Draw] + rest)[1..] == rest;
        }
      }
    }
  }

  /** Under a strict 1:1 cadence every published frame is uploaded exactly once, in order. */
  lemma {:induction false} AlternationDeliversAll(r: Renderer, fs: seq<Frame>)
    ensures Run(r, Alternate(fs)).gpu.uploads == r.gpu.uploads + fs
  {
    RunUploads(r, Alternate(fs));
    AlternateHandsAll(fs);
  }

  /**
   Every draw of a run is one 4-vertex triangle strip with the renderer's program
   and texture and both attribute arrays enabled; nothing outside the per-frame
   state changes, and no attribute array stays enabled afterwards.
   */
  lemma {:induction false} RunDraws(r: Renderer, evs: seq<Event>)
    requires Valid(r)
    ensures var r' := Run(r, evs);
      |r'.gpu.draws| == |r.gpu.draws| + CountDraws(evs) &&
      r'.gpu.draws[..|r.gpu.draws|] == r.gpu.draws &&
      (forall i | |r.gpu.draws| <= i < |r'.gpu.draws| ::
         r'.gpu.draws[i] == DrawCall(TriangleStrip, 0, VertexCount, r.program, r.textureId,
                                     {r.positionHandle, r.textureCoordHandle})) &&
      SameHandles(r, r') && SameResources(r.gpu, r'.gpu) && Valid(r')
    decreases |evs|
  {
    if evs != [] {
      var r1 := Step(r, evs[0]);
      RunDraws(r1, evs[1..]);
      var r' := Run(r, evs);
      assert r' == Run(r1, evs[1..]);
      if evs[0].Draw? {
        assert r1.gpu.draws[..|r.gpu.draws|] == r.gpu.draws;
        assert r'.gpu.draws[..|r1.gpu.draws|] == r1.gpu.draws;
        assert r'.gpu.draws[..|r.gpu.draws|] == r'.gpu.draws[..|r1.gpu.draws|][..|r.gpu.draws|];
      }
    }
  }
}
