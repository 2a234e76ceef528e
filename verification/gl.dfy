/** Option, for the nullable values of the Kotlin source (`ByteArray?`). */
module Wrappers {
  datatype Option<+T> = None | Some(value: T)
}

/**
 An abstract OpenGL ES 2.0 context: the objects, bindings and counters that the
 renderer's GL calls change. Each GL entry point the renderer uses is a function
 from the context before the call to the context after it. Names handed out by
 the driver (glCreateShader, glCreateProgram, glGenTextures) are arguments, since
 the driver is outside the model.
 */
module Gl {

  /** A JVM `Byte`. */
  newtype Byte = b: int | -128 <= b < 128

  /** A single-channel luminance image as given to glTexImage2D with GL_LUMINANCE. */
  datatype Frame = Frame(pixels: seq<Byte>, width: int, height: int)

  /** The primitive mode of glDrawArrays; the renderer only uses GL_TRIANGLE_STRIP. */
  datatype DrawMode = TriangleStrip

  datatype TexParam = MinFilter | MagFilter | WrapS | WrapT
  datatype TexParamValue = Linear | ClampToEdge

  /** One glDrawArrays call, with the program, 2D texture and attribute arrays in effect. */
  datatype DrawCall = DrawCall(mode: DrawMode, first: int, count: int,
                               program: int, texture: int, attribs: set<int>)

  datatype Gpu = Gpu(
    shaders: set<int>,                               // live shader objects
    programs: set<int>,                              // live program objects
    textures: set<int>,                              // live texture names
    images: map<int, Frame>,                         // storage of each texture
    params: map<(int, TexParam), TexParamValue>,     // glTexParameteri settings per texture
    boundTexture: int,                               // GL_TEXTURE_2D binding
    currentProgram: int,                             // glUseProgram
    enabledAttribs: set<int>,                        // enabled vertex attribute arrays
    viewport: (int, int),
    clears: nat,                                     // glClear calls
    texGenCalls: nat,                                // glGenTextures calls
    texParamCalls: nat,                              // glTexParameteri calls
    uploads: seq<Frame>,                             // every glTexImage2D, in order
    draws: seq<DrawCall>)                            // every glDrawArrays, in order

  /** A context in which nothing has been created or drawn yet. */
  function Fresh(): Gpu {
    Gpu({}, {}, {}, map[], map[], 0, 0, {}, (0, 0), 0, 0, 0, [], [])
  }

  function Clear(g: Gpu): Gpu {
    g.(clears := g.clears + 1)
  }

  /** glCreateShader answered `name`; 0 is the driver's error value and creates nothing. */
  function CreateShader(g: Gpu, name: int): Gpu {
    if name == 0 then g else g.(shaders := g.shaders + {name})
  }

  function DeleteShader(g: Gpu, name: int): Gpu {
    g.(shaders := g.shaders - {name})
  }

  function CreateProgram(g: Gpu, name: int): Gpu {
    if name == 0 then g else g.(programs := g.programs + {name})
  }

  function DeleteProgram(g: Gpu, name: int): Gpu {
    g.(programs := g.programs - {name})
  }

  function UseProgram(g: Gpu, name: int): Gpu {
    g.(currentProgram := name)
  }

  /** glGenTextures(1, …) answered `name`. */
  function GenTexture(g: Gpu, name: int): Gpu {
    g.(textures := g.textures + {name}, texGenCalls := g.texGenCalls + 1)
  }

  function BindTexture(g: Gpu, name: int): Gpu {
    g.(boundTexture := name)
  }

  /** glTexParameteri on the bound GL_TEXTURE_2D. */
  function TexParameter(g: Gpu, p: TexParam, v: TexParamValue): Gpu {
    g.(params := g.params[(g.boundTexture, p) := v], texParamCalls := g.texParamCalls + 1)
  }

  /** glTexImage2D on the bound GL_TEXTURE_2D: a full (re)specification of its storage. */
  function TexImage2D(g: Gpu, f: Frame): Gpu {
    g.(images := g.images[g.boundTexture := f], uploads := g.uploads + [f])
  }

  /** glDeleteTextures of one name; 0 is silently ignored, and a deleted bound texture unbinds. */
  function DeleteTexture(g: Gpu, name: int): Gpu {
    if name == 0 then g
    else g.(textures := g.textures - {name},
            images := g.images - {name},
            params := map k | k in g.params && k.0 != name :: g.params[k],
            boundTexture := if g.boundTexture == name then 0 else g.boundTexture)
  }

  function EnableAttrib(g: Gpu, index: int): Gpu {
    g.(enabledAttribs := g.enabledAttribs + {index})
  }

  function DisableAttrib(g: Gpu, index: int): Gpu {
    g.(enabledAttribs := g.enabledAttribs - {index})
  }

  function DrawArrays(g: Gpu, mode: DrawMode, first: int, count: int): Gpu {
    g.(draws := g.draws + [DrawCall(mode, first, count, g.currentProgram, g.boundTexture, g.enabledAttribs)])
  }

  function Viewport(g: Gpu, width: int, height: int): Gpu {
    g.(viewport := (width, height))
  }
}
