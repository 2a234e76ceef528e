/**
 GLRenderer.kt as a class: the same fields, updated in place by the same
 methods. The GL context is a ghost field that each GL call updates. Every
 method is proved to take the renderer's state (State()) exactly as the
 matching function of RenderModel does.
 */
module Renderer {
  import opened Wrappers
  import opened Gl
  import RenderModel

  class GLRenderer {
    var program: int
    var positionHandle: int
    var textureCoordHandle: int
    var textureHandle: int
    var textureId: int

    var textureData: Option<seq<Byte>>
    var textureWidth: int
    var textureHeight: int
    var updateTexture: bool

    ghost var gpu: Gpu

    ghost function State(): RenderModel.Renderer
      reads this
    {
      RenderModel.Renderer(program, positionHandle, textureCoordHandle, textureHandle, textureId,
                           textureData, textureWidth, textureHeight, updateTexture, gpu)
    }

    ghost predicate Valid()
      reads this
    {
      RenderModel.Valid(State())
    }

    constructor ()
      ensures State() == RenderModel.Initial() && Valid()
    {
      program, positionHandle, textureCoordHandle, textureHandle, textureId := 0, 0, 0, 0, 0;
      textureData, textureWidth, textureHeight, updateTexture := None, 0, 0, false;
      gpu := Fresh();
    }

    /** Producer side: overwrite the pending frame and raise the flag. */
    method UpdateTexture(data: seq<Byte>, width: int, height: int)
      requires Valid()
      modifies this
      ensures Valid()
      ensures textureData == Some(data) && textureWidth == width && textureHeight == height && updateTexture
      ensures State() == RenderModel.UpdateTexture(old(State()), data, width, height)
    {
      textureData := Some(data);
      textureWidth := width;
      textureHeight := height;
      updateTexture := true;
    }

    /** Consumer side: drain the pending frame if dirty, then draw the quad once. */
    method OnDrawFrame()
      requires Valid()
      modifies this
      ensures Valid() && !updateTexture
      ensures gpu.uploads == old(gpu.uploads) + RenderModel.Drained(old(State()))
      ensures |gpu.draws| == |old(gpu.draws)| + 1
      ensures State() == RenderModel.DrawFrame(old(State()))
    {
      gpu := Clear(gpu);
      if updateTexture {
        if textureData.Some? {
          UpdateTextureData(textureData.value, textureWidth, textureHeight);
        }
        updateTexture := false;
      }
      gpu := UseProgram(gpu, program);
      gpu := EnableAttrib(gpu, positionHandle);
      gpu := EnableAttrib(gpu, textureCoordHandle);
      gpu := BindTexture(gpu, textureId);
      gpu := DrawArrays(gpu, TriangleStrip, 0, RenderModel.VertexCount);
      gpu := DisableAttrib(gpu, positionHandle);
      gpu := DisableAttrib(gpu, textureCoordHandle);
    }

    /** Upload one frame into the renderer's texture. */
    method UpdateTextureData(data: seq<Byte>, width: int, height: int)
      modifies this
      ensures gpu.images == old(gpu.images)[textureId := Frame(data, width, height)]
      ensures State() == old(State()).(gpu := RenderModel.UpdateTextureData(old(gpu), textureId, data, width, height))
    {
      gpu := BindTexture(gpu, textureId);
      gpu := TexImage2D(gpu, Frame(data, width, height));
    }

    /** Create and compile one shader; the driver answers its name and compile status. */
    method LoadShader(name: int, compileStatus: bool) returns (shader: int)
      modifies this
      ensures shader != 0 <==> name != 0 && compileStatus
      ensures RenderModel.Compiled(gpu, shader) == RenderModel.LoadShader(old(gpu), name, compileStatus)
      ensures State() == old(State()).(gpu := gpu)
    {
      gpu := CreateShader(gpu, name);
      var compiled := if name == 0 then false else compileStatus;
      if !compiled {
        gpu := DeleteShader(gpu, name);
        return 0;
      }
      shader := name;
    }

    /** Surface created: build the program and the texture, or stop on a compile or link failure. */
    method OnSurfaceCreated(q: RenderModel.Replies)
      requires Valid()
      modifies this
      ensures Valid()
      ensures State() == RenderModel.SurfaceCreated(old(State()), q)
    {
      ghost var r0 := State();
      var vertexShader := LoadShader(q.vertexShader, q.vertexCompiled);
      ghost var v := RenderModel.LoadShader(r0.gpu, q.vertexShader, q.vertexCompiled);
      assert v == RenderModel.Compiled(gpu, vertexShader);
      var fragmentShader := LoadShader(q.fragmentShader, q.fragmentCompiled);
      ghost var f := RenderModel.LoadShader(v.gpu, q.fragmentShader, q.fragmentCompiled);
      assert f == RenderModel.Compiled(gpu, fragmentShader);
      assert State() == r0.(gpu := f.gpu);
      if vertexShader == 0 || fragmentShader == 0 {
        assert State() == RenderModel.SurfaceCreated(r0, q);
        return;
      }
      gpu := CreateProgram(gpu, q.program);
      var linked := if q.program == 0 then false else q.linked;
      if !linked {
        gpu := DeleteProgram(gpu, q.program);
        assert State() == RenderModel.SurfaceCreated(r0, q);
        return;
      }
      gpu := DeleteShader(gpu, vertexShader);
      gpu := DeleteShader(gpu, fragmentShader);
      program := q.program;
      positionHandle := q.positionLocation;
      textureCoordHandle := q.textureCoordLocation;
      textureHandle := q.textureLocation;
      CreateTexture(q.texture);
      assert State() == RenderModel.SurfaceCreated(r0, q);
    }

    /** Generate the texture named `name`, bind it and fix its filtering and wrapping. */
    method CreateTexture(name: int)
      modifies this
      ensures textureId == name
      ensures State() == old(State()).(textureId := name, gpu := RenderModel.CreateTexture(old(gpu), name))
    {
      gpu := GenTexture(gpu, name);
      textureId := name;
      gpu := BindTexture(gpu, textureId);
      gpu := TexParameter(gpu, MinFilter, Linear);
      gpu := TexParameter(gpu, MagFilter, Linear);
      gpu := TexParameter(gpu, WrapS, ClampToEdge);
      gpu := TexParameter(gpu, WrapT, ClampToEdge);
    }

    /** Surface changed: only the viewport follows the new size. */
    method OnSurfaceChanged(width: int, height: int)
      requires Valid()
      modifies this
      ensures Valid()
      ensures State() == RenderModel.SurfaceChanged(old(State()), width, height)
    {
      gpu := Viewport(gpu, width, height);
    }

    /** Release the texture and the program if held, and zero both handles. */
    method Cleanup()
      requires Valid()
      modifies this
      ensures Valid() && textureId == 0 && program == 0
      ensures State() == RenderModel.Cleanup(old(State()))
    {
      if textureId != 0 {
        gpu := DeleteTexture(gpu, textureId);
        textureId := 0;
      }
      if program != 0 {
        gpu := DeleteProgram(gpu, program);
        program := 0;
      }
    }
  }
}
