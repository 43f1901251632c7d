/** Types shared by the whole crate (src/lib.rs, src/objects.rs), plus the
    values that stand in for the graphics driver: object handles, the outcome
    of a `create_*` call, and the target dialect selected by `cfg`. */
module Golem {

  datatype Option<+T> = None | Some(value: T)

  /** `GolemError`: the recoverable error conditions. */
  datatype GolemError =
    | ShaderCompilationError(log: string)
    | ContextError(message: string)
    | NoSuchUniform(uniformName: string)
    | NotCurrentProgram

  datatype Result<+T> = Ok(value: T) | Err(error: GolemError)

  /** A driver object name (program, shader, buffer, texture, framebuffer). */
  type Handle = nat

  /** What a driver `create_*` call returned: a fresh handle, or the driver's
      message, which `?` wraps into `ContextError` through `From<String>`. */
  datatype Created = Created(handle: Handle) | DriverError(message: string)

  newtype U8 = x: int | 0 <= x < 0x100
  newtype U32 = x: int | 0 <= x < 0x1_0000_0000

  /** The GLSL dialect: desktop GLSL, or WebGL's GLSL ES 1.0, which the
      source selects with `cfg(target_arch = "wasm32")`. */
  datatype Dialect = Desktop | Web

  datatype Position = Input | Output

  datatype NumberType = Int | Float

  /** `Dimension`, whose discriminants are the vector/matrix sizes. */
  datatype Dimension = D2 | D3 | D4 {
    function Value(): (n: nat)
      ensures 2 <= n <= 4
      ensures n == 2 <==> this == D2
      ensures n == 3 <==> this == D3
    {
      match this
      case D2 => 2
      case D3 => 3
      case D4 => 4
    }
  }

  datatype ColorFormat = RGB | RGBA {
    /** Bytes per pixel, as documented for `get_pixel_data`. */
    function BytesPerPixel(): (b: nat)
      ensures b == 3 || b == 4
      ensures b == 4 <==> this == RGBA
    {
      match this
      case RGB => 3
      case RGBA => 4
    }

    /** The driver format enum passed to `tex_image_2d` and friends. */
    function GlFormat(): (code: int)
      ensures code == GL_RGB || code == GL_RGBA
      ensures code == GL_RGBA <==> this == RGBA
    {
      match this
      case RGB => GL_RGB
      case RGBA => GL_RGBA
    }
  }

  const GL_RGB: int := 0x1907
  const GL_RGBA: int := 0x1908

  /** `Position::glsl_string`: the storage qualifier of a declaration. The same
      two definitions appear in attribute.rs, shader.rs and program.rs. */
  function Qualifier(dialect: Dialect, pos: Position): (q: string)
    ensures |q| >= 3 && q[|q| - 1] == ' '
    ensures forall i :: 0 <= i < |q| - 1 ==> q[i] != ' '
    ensures (dialect == Desktop) <==> q in {"in ", "out "}
    ensures (pos == Input) <==> q in {"in ", "attribute "}
    ensures dialect == Web && pos == Output ==> q == "varying "
  {
    match (dialect, pos)
    case (Desktop, Input) => "in "
    case (Desktop, Output) => "out "
    case (Web, Input) => "attribute "
    case (Web, Output) => "varying "
  }

  /** Within one dialect the two qualifiers already differ in their first
      character, so a declaration's first character fixes its position. */
  lemma QualifierFirstCharDistinguishes(dialect: Dialect, p1: Position, p2: Position)
    requires Qualifier(dialect, p1)[0] == Qualifier(dialect, p2)[0]
    ensures p1 == p2
  {
  }
}
