/**
 The renderer of GLRenderer.kt as a value: its fields and the GL context it
 drives, and one function per operation. The class in renderer.dfy is proved
 to follow these functions; the lemmas here and in render_trace.dfy are about them.
 */
module RenderModel {
  import opened Wrappers
  import opened Gl

  /** Vertices of the full-screen quad drawn as one triangle strip. */
  const VertexCount := 4
  /** glTexParameteri calls made when the texture is configured. */
  const TexParamCount := 4

  datatype Renderer = Renderer(
    program: int,
    positionHandle: int,
    textureCoordHandle: int,
    textureHandle: int,
    textureId: int,
    textureData: Option<seq<Byte>>,   // the pending slot: latest published frame,
    textureWidth: int,                // its width and height,
    textureHeight: int,
    updateTexture: bool,              // and the dirty flag
    gpu: Gpu)

  /** What the GL driver answers while the surface is created. */
  datatype Replies = Replies(
    vertexShader: int, vertexCompiled: bool,
    fragmentShader: int, fragmentCompiled: bool,
    program: int, linked: bool,
    positionLocation: int, textureCoordLocation: int, textureLocation: int,
    texture: int)

  /** How surface creation ends, decided from the driver's answers alone. */
  datatype Setup = CompileFailed | LinkFailed | Ready

  /** Result of loadShader: the context afterwards and the returned shader name (0 on failure). */
  datatype Compiled = Compiled(gpu: Gpu, shader: int)

  /** The field initialisers of GLRenderer, in a context where nothing was created yet. */
  function Initial(): Renderer {
    Renderer(0, 0, 0, 0, 0, None, 0, 0, false, Fresh())
  }

  /**
   The renderer's invariant between calls: a set dirty flag always has a frame
   behind it, and no vertex attribute array is left enabled.
   */
  predicate Valid(r: Renderer) {
    (r.updateTexture ==> r.textureData.Some?) && r.gpu.enabledAttribs == {}
  }

  /** The frame the next draw uploads: the pending one if the flag is set, else none. */
  function Drained(r: Renderer): seq<Frame> {
    if r.updateTexture && r.textureData.Some?
    then [Frame(r.textureData.value, r.textureWidth, r.textureHeight)]
    else []
  }

  predicate SameSlot(r: Renderer, r': Renderer) {
    r'.textureData == r.textureData && r'.textureWidth == r.textureWidth &&
    r'.textureHeight == r.textureHeight && r'.updateTexture == r.updateTexture
  }

  predicate SameHandles(r: Renderer, r': Renderer) {
    r'.program == r.program && r'.positionHandle == r.positionHandle &&
    r'.textureCoordHandle == r.textureCoordHandle && r'.textureHandle == r.textureHandle &&
    r'.textureId == r.textureId
  }

  /** GL objects and texture configuration: what only setup and teardown may change. */
  predicate SameResources(g: Gpu, g': Gpu) {
    g'.shaders == g.shaders && g'.programs == g.programs && g'.textures == g.textures &&
    g'.params == g.params && g'.texGenCalls == g.texGenCalls &&
    g'.texParamCalls == g.texParamCalls && g'.viewport == g.viewport
  }

  /** Per-frame GL state: what only a draw may change. */
  predicate SameFrameState(g: Gpu, g': Gpu) {
    g'.images == g.images && g'.uploads == g.uploads && g'.draws == g.draws &&
    g'.clears == g.clears && g'.enabledAttribs == g.enabledAttribs
  }

  predicate TextureConfigured(g: Gpu, t: int) {
    (t, MinFilter) in g.params && g.params[(t, MinFilter)] == Linear &&
    (t, MagFilter) in g.params && g.params[(t, MagFilter)] == Linear &&
    (t, WrapS) in g.params && g.params[(t, WrapS)] == ClampToEdge &&
    (t, WrapT) in g.params && g.params[(t, WrapT)] == ClampToEdge
  }

  function Outcome(q: Replies): Setup {
    if q.vertexShader == 0 || !q.vertexCompiled || q.fragmentShader == 0 || !q.fragmentCompiled
    then CompileFailed
    else if q.program == 0 || !q.linked then LinkFailed
    else Ready
  }

  /** updateTexture: the producer overwrites the slot and raises the flag. */
  function UpdateTexture(r: Renderer, data: seq<Byte>, width: int, height: int): (r': Renderer)
    ensures Drained(r') == [Frame(data, width, height)]
    ensures r'.gpu == r.gpu && SameHandles(r, r')
  {
    r.(textureData := Some(data), textureWidth := width, textureHeight := height, updateTexture := true)
  }

  /** updateTextureData: bind the renderer's texture and re-specify it from the frame. */
  function UpdateTextureData(g: Gpu, textureId: int, data: seq<Byte>, width: int, height: int): (g': Gpu)
    ensures g'.images == g.images[textureId := Frame(data, width, height)]
    ensures g'.uploads == g.uploads + [Frame(data, width, height)]
    ensures g'.boundTexture == textureId
    ensures SameResources(g, g') && g'.draws == g.draws && g'.enabledAttribs == g.enabledAttribs
  {
    TexImage2D(BindTexture(g, textureId), Frame(data, width, height))
  }

  /**
   onDrawFrame: drain the slot if the flag is set, then draw the quad once and
   disable both attribute arrays again.
   */
  function DrawFrame(r: Renderer): (r': Renderer)
    ensures !r'.updateTexture
    ensures r'.textureData == r.textureData && r'.textureWidth == r.textureWidth &&
            r'.textureHeight == r.textureHeight
    ensures SameHandles(r, r') && SameResources(r.gpu, r'.gpu)
    ensures r'.gpu.uploads == r.gpu.uploads + Drained(r)
    ensures r'.gpu.images == if Drained(r) == [] then r.gpu.images
                             else r.gpu.images[r.textureId := Drained(r)[0]]
    ensures r'.gpu.draws == r.gpu.draws +
      [DrawCall(TriangleStrip, 0, VertexCount, r.program, r.textureId,
                r.gpu.enabledAttribs + {r.positionHandle, r.textureCoordHandle})]
    ensures r'.gpu.enabledAttribs == r.gpu.enabledAttribs - {r.positionHandle, r.textureCoordHandle}
    ensures r'.gpu.clears == r.gpu.clears + 1
  {
    var r1 := r.(gpu := Clear(r.gpu));
    var r2 :=
      if r1.updateTexture then
        r1.(gpu := match r1.textureData
                   case Some(data) => UpdateTextureData(r1.gpu, r1.textureId, data, r1.textureWidth, r1.textureHeight)
                   case None => r1.gpu,
            updateTexture := false)
      else r1;
    var g1 := EnableAttrib(EnableAttrib(UseProgram(r2.gpu, r2.program), r2.positionHandle), r2.textureCoordHandle);
    assert g1.enabledAttribs == r.gpu.enabledAttribs + {r.positionHandle, r.textureCoordHandle};
    var g2 := DrawArrays(BindTexture(g1, r2.textureId), TriangleStrip, 0, VertexCount);
    r2.(gpu := DisableAttrib(DisableAttrib(g2, r2.positionHandle), r2.textureCoordHandle))
  }

  /**
   loadShader: create a shader object and compile it; on a failed compile delete
   it and answer 0. A status query on name 0 leaves the status at 0.
   */
  function LoadShader(g: Gpu, name: int, compileStatus: bool): (c: Compiled)
    ensures c.shader != 0 <==> name != 0 && compileStatus
    ensures c.shader != 0 ==> c.shader == name && c.gpu == g.(shaders := g.shaders + {name})
    ensures c.shader == 0 ==> c.gpu == g.(shaders := g.shaders - {name})
  {
    var g1 := CreateShader(g, name);
    var compiled := if name == 0 then false else compileStatus;
    if !compiled then Compiled(DeleteShader(g1, name), 0) else Compiled(g1, name)
  }

  /**
   onSurfaceCreated: compile both shaders, link them, look up the locations and
   create and configure the texture; stop early on a compile or link failure.
   */
  function SurfaceCreated(r: Renderer, q: Replies): (r': Renderer)
    ensures SameSlot(r, r') && SameFrameState(r.gpu, r'.gpu)
    ensures Outcome(q) != Ready ==>
      SameHandles(r, r') && r'.gpu.programs <= r.gpu.programs &&
      r'.gpu.textures == r.gpu.textures && r'.gpu.params == r.gpu.params &&
      r'.gpu.texGenCalls == r.gpu.texGenCalls && r'.gpu.texParamCalls == r.gpu.texParamCalls
    ensures (Outcome(q) == CompileFailed && q.vertexShader != 0 && q.vertexCompiled &&
             q.vertexShader != q.fragmentShader) ==> q.vertexShader in r'.gpu.shaders
    ensures (Outcome(q) == CompileFailed && q.fragmentShader != 0 && q.fragmentCompiled &&
             q.fragmentShader != q.vertexShader) ==> q.fragmentShader in r'.gpu.shaders
    ensures Outcome(q) == CompileFailed ==> r'.gpu.programs == r.gpu.programs
    ensures Outcome(q) == LinkFailed ==>
      r'.gpu.shaders == r.gpu.shaders + {q.vertexShader, q.fragmentShader} &&
      r'.gpu.programs == r.gpu.programs - {q.program}
    ensures Outcome(q) == Ready ==>
      r'.program == q.program && r'.positionHandle == q.positionLocation &&
      r'.textureCoordHandle == q.textureCoordLocation && r'.textureHandle == q.textureLocation &&
      r'.textureId == q.texture &&
      q.program in r'.gpu.programs && q.texture in r'.gpu.textures &&
      r'.gpu.shaders == r.gpu.shaders - {q.vertexShader, q.fragmentShader} &&
      r'.gpu.texGenCalls == r.gpu.texGenCalls + 1 &&
      r'.gpu.texParamCalls == r.gpu.texParamCalls + TexParamCount &&
      TextureConfigured(r'.gpu, q.texture)
  {
    var v := LoadShader(r.gpu, q.vertexShader, q.vertexCompiled);
    var f := LoadShader(v.gpu, q.fragmentShader, q.fragmentCompiled);
    if v.shader == 0 || f.shader == 0 then
      r.(gpu := f.gpu)
    else
      var g1 := CreateProgram(f.gpu, q.program);
      var linked := if q.program == 0 then false else q.linked;
      if !linked then
        r.(gpu := DeleteProgram(g1, q.program))
      else
        var g2 := DeleteShader(DeleteShader(g1, v.shader), f.shader);
        r.(program := q.program, positionHandle := q.positionLocation,
           textureCoordHandle := q.textureCoordLocation, textureHandle := q.textureLocation,
           textureId := q.texture, gpu := CreateTexture(g2, q.texture))
  }

  /** Generate the texture and fix its filtering and wrapping, once. */
  function CreateTexture(g: Gpu, t: int): (g': Gpu)
    ensures t in g'.textures && g'.texGenCalls == g.texGenCalls + 1
    ensures g'.texParamCalls == g.texParamCalls + TexParamCount && TextureConfigured(g', t)
    ensures g'.shaders == g.shaders && g'.programs == g.programs && SameFrameState(g, g')
  {
    var g1 := BindTexture(GenTexture(g, t), t);
    TexParameter(TexParameter(TexParameter(TexParameter(g1,
      MinFilter, Linear), MagFilter, Linear), WrapS, ClampToEdge), WrapT, ClampToEdge)
  }

  /** onSurfaceChanged: only the viewport changes. */
  function SurfaceChanged(r: Renderer, width: int, height: int): (r': Renderer)
    ensures r'.gpu.viewport == (width, height)
    ensures SameSlot(r, r') && SameHandles(r, r') && SameFrameState(r.gpu, r'.gpu)
    ensures r'.gpu.shaders == r.gpu.shaders && r'.gpu.programs == r.gpu.programs &&
            r'.gpu.textures == r.gpu.textures && r'.gpu.params == r.gpu.params
    ensures r'.gpu.texGenCalls == r.gpu.texGenCalls && r'.gpu.texParamCalls == r.gpu.texParamCalls &&
            r'.gpu.boundTexture == r.gpu.boundTexture && r'.gpu.currentProgram == r.gpu.currentProgram
  {
    r.(gpu := Viewport(r.gpu, width, height))
  }

  /** cleanup: release the texture and the program if they are held, and zero both handles. */
  function Cleanup(r: Renderer): (r': Renderer)
    ensures r'.textureId == 0 && r'.program == 0
    ensures r'.gpu.textures == if r.textureId != 0 then r.gpu.textures - {r.textureId} else r.gpu.textures
    ensures r'.gpu.programs == if r.program != 0 then r.gpu.programs - {r.program} else r.gpu.programs
    ensures r.textureId == 0 && r.program == 0 ==> r' == r
    ensures r'.gpu.images == if r.textureId != 0 then r.gpu.images - {r.textureId} else r.gpu.images
    ensures SameSlot(r, r') && r'.gpu.shaders == r.gpu.shaders
    ensures r'.gpu.uploads == r.gpu.uploads && r'.gpu.draws == r.gpu.draws &&
            r'.gpu.enabledAttribs == r.gpu.enabledAttribs
    ensures r'.positionHandle == r.positionHandle && r'.textureCoordHandle == r.textureCoordHandle &&
            r'.textureHandle == r.textureHandle
    ensures r'.gpu.texGenCalls == r.gpu.texGenCalls && r'.gpu.texParamCalls == r.gpu.texParamCalls &&
            r'.gpu.currentProgram == r.gpu.currentProgram && r'.gpu.viewport == r.gpu.viewport &&
            r'.gpu.clears == r.gpu.clears
  {
    var r1 := if r.textureId != 0 then r.(gpu := DeleteTexture(r.gpu, r.textureId), textureId := 0) else r;
    if r1.program != 0 then r1.(gpu := DeleteProgram(r1.gpu, r1.program), program := 0) else r1
  }

  // Properties of the handoff and the lifecycle

  /** Two publishes before a draw: only the second frame is ever uploaded. */
  lemma LatestWins(r: Renderer, d1: seq<Byte>, w1: int, h1: int, d2: seq<Byte>, w2: int, h2: int)
    ensures var r' := DrawFrame(UpdateTexture(UpdateTexture(r, d1, w1, h1), d2, w2, h2));
      r'.gpu.uploads == r.gpu.uploads + [Frame(d2, w2, h2)] &&
      r'.gpu.images == r.gpu.images[r.textureId := Frame(d2, w2, h2)]
  {
  }

  /** A second draw with no publish in between uploads nothing and leaves the texture as it was. */
  lemma NoDoubleDelivery(r: Renderer)
    ensures var r1 := DrawFrame(r);
      DrawFrame(r1).gpu.uploads == r1.gpu.uploads && DrawFrame(r1).gpu.images == r1.gpu.images &&
      |DrawFrame(r1).gpu.draws| == |r1.gpu.draws| + 1
  {
  }

  /** Every operation keeps the invariant. */
  lemma OperationsKeepValid(r: Renderer, data: seq<Byte>, width: int, height: int, q: Replies)
    requires Valid(r)
    ensures Valid(UpdateTexture(r, data, width, height))
    ensures Valid(DrawFrame(r))
    ensures Valid(SurfaceCreated(r, q))
    ensures Valid(SurfaceChanged(r, width, height))
    ensures Valid(Cleanup(r))
  {
  }

  /** cleanup twice is cleanup once: the second call deletes nothing. */
  lemma CleanupIdempotent(r: Renderer)
    ensures Cleanup(Cleanup(r)) == Cleanup(r)
  {
  }

  /** After a successful setup, cleanup releases exactly what setup created and keeps the pending frame. */
  lemma SetupThenCleanup(r: Renderer, q: Replies)
    requires Outcome(q) == Ready && q.texture != 0
    ensures var r' := Cleanup(SurfaceCreated(r, q));
      r'.program == 0 && r'.textureId == 0 &&
      q.program !in r'.gpu.programs && q.texture !in r'.gpu.textures &&
      r'.gpu.programs == r.gpu.programs - {q.program} &&
      r'.gpu.textures == r.gpu.textures - {q.texture} &&
      r'.gpu.shaders == r.gpu.shaders - {q.vertexShader, q.fragmentShader} &&
      SameSlot(r, r')
  {
  }
}
