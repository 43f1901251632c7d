# golem core, modelled in Dafny

golem is a thin OpenGL/WebGL wrapper for Rust. This project models the parts
of it whose behaviour can be stated exactly. Driver calls are abstracted away.

- **GLSL declaration generation.** Attribute and uniform descriptors become
  shader declaration text. Each declaration is specified by a pure `Render`
  function. The appending `as_glsl`/`write_type` methods take the shader text
  and return it extended by exactly that text.
- **Buffer capacity tracking.** This covers the tracked byte length, the
  "reallocate at twice the data size" rule, and the strict bound on sub-writes.
  The driver's store is a ghost byte sequence.
- **Texture dimension tracking.** This covers the recorded width and height
  and the bounds asserted by `set_image` and `set_subimage`. The parameter
  state (filters, wrap modes) is read off a ghost log of driver calls.
- **Bound-slot logic.** A `Context` object holds the two context-wide slots,
  `current_program` and `current_surface`. Shader programs and surfaces read
  and write them.
- **Vertex builder.** A progress counter walks the attribute list, and each
  `add` appends that value's floats.

One Dafny module per source file:

| Dafny module | file | what |
|---|---|---|
| `Golem` (golem.dfy) | src/lib.rs | `Dimension`, `ColorFormat`, `Position`, `NumberType`, `GolemError`; `Position::glsl_string` for both dialects |
| `Format` (format.dfy) | — | decimal rendering of `{}` for unsigned integers, and splitting lemmas for strings |
| `Attributes` (attribute.dfy) | src/attribute.rs | `Attribute`: `new`, `name`, `size`, `as_glsl` |
| `Uniforms` (uniform.dfy) | src/uniform.rs | `Uniform::new`, `as_glsl`, recursive `write_type` |
| `LegacyProgram` (program.dfy) | src/program.rs | the older tuple-enum `Attribute` and `UniformType` |
| `Buffers` (buffer.dfy) | src/buffer.rs | `Buffer`, `VertexBuffer`, `ElementBuffer` |
| `Textures` (texture.dfy) | src/texture.rs | `Texture`, `TextureFilter`, `TextureWrap` |
| `GolemContext` (context.dfy) | src/context.rs | the two slots and the initial state |
| `Shader` (shader.dfy) | src/shader.rs | `ShaderProgram`: `is_bound`, `set_uniform`, `bind` |
| `Surfaces` (surface.dfy) | src/surface.rs | `Surface`: `new`, `bind`, `unbind`, `is_bound`, `texture`, `get_pixel_data` |
| `Input` (input.dfy) | src/input.rs | `VertexBuilder` and `Vertex` |

The source files are snapshots from different moments and do not form one
crate. Each file is modelled on its own terms:

- src/shader.rs:45-183 repeats the `Attribute`, `AttributeType`,
  `Position::glsl_string`, `Uniform` and `UniformType` definitions of
  src/attribute.rs and src/uniform.rs text for text. They are modelled once,
  in `Attributes` and `Uniforms`. The table below names the shader.rs lines in each such row.
- src/program.rs has its own attribute enum with raw `u8` sizes. It is
  `LegacyProgram`.

Modelling choices:

- **GLSL dialect.** The source picks it with `cfg(target_arch = "wasm32")`.
  Here it is the parameter `Dialect`: `Desktop` means `in`/`out`, and `Web`
  means `attribute`/`varying`.
- **Driver results are parameters.** `create_*` results arrive as a `Created`
  value: a handle, or the driver's message. `?` turns the message into
  `ContextError` through `From<String>` (src/lib.rs:64-68). The result of
  `bind_uniform` and the bytes that `read_pixels` delivers are parameters too.
- **Driver effects are ghost logs.** A texture keeps a log of `TexCall`s; the
  context keeps a log of `DriverCall`s.
- **`assert!`s are preconditions.** The `assert!`s in buffer.rs, texture.rs
  and surface.rs become `requires` clauses.
- **`panic!`s are outcomes.** The `panic!`s of input.rs, and its
  out-of-range index, are `Panic(message)` outcomes. The two `panic!`s carry
  the source's messages. The index panic carries only the "index out of bounds"
  prefix of Rust's message, without the length and index that follow it.
- **Bodies not in these files.** `ShaderProgram::is_bound`, `set_uniform` and
  `bind` call `Context::is_program_bound`, `bind_uniform` and `bind_program`,
  whose bodies are not part of this model. Following the crate's design, they
  are taken as:
  - comparing `current_program` with the program's id;
  - issuing the uniform upload;
  - storing the program in `current_program`.

## Model

| member | source | states |
|---|---|---|
| Golem.Dimension.Value | src/lib.rs:37-42 | The discriminants are 2, 3 and 4, one per variant |
| Golem.ColorFormat.BytesPerPixel | src/surface.rs:66-67 | 3 bytes per pixel for RGB and 4 for RGBA |
| Golem.ColorFormat.GlFormat | src/texture.rs:52-55 | RGB maps to GL_RGB (0x1907) and RGBA to GL_RGBA (0x1908) |
| Golem.Qualifier | src/attribute.rs:16-36 | The qualifier ends in its only space. All four keywords are pinned: Desktop gives "in " for Input and "out " for Output; Web gives "attribute " for Input and "varying " for Output. The same in src/program.rs:25-45 and src/shader.rs:67-87 |
| Golem.QualifierFirstCharDistinguishes | src/attribute.rs:16-36 | Within one dialect, the two qualifiers already differ in their first character |
| Format.NatToString | src/uniform.rs:44 | Rust's `{}` for an unsigned integer: non-empty, all digits, a leading '0' only for zero, one digit exactly below 10 |
| Format.ParseNatToString | src/uniform.rs:44 | Reading the decimal text back gives the number (round trip) |
| Format.NatToStringInjective | src/uniform.rs:44 | Different numbers have different decimal texts |
| Attributes.NameIsConstructorName | src/attribute.rs:39-48 | `name()` returns exactly the name given to `new`, and the type is kept |
| Attributes.Size | src/attribute.rs:50-58 | Scalar gives 1, Vector(n) gives n, Matrix(m,n) gives m·n; always within [1,16]; 1 exactly for scalars. The same `size` is at src/shader.rs:101-109 |
| Attributes.TypeText | src/attribute.rs:67-71 | The type text ends in a space and contains no other space |
| Attributes.TypeTextKeywords | src/attribute.rs:67-71 | The texts are exactly "float ", "vec{n} " and "mat{m}x{n} " |
| Attributes.EffectivePosition | src/attribute.rs:63-64 | On the web dialect, outside the vertex stage, the position is Output whatever was asked; otherwise it is the requested position |
| Attributes.WebFragmentIsVarying | src/attribute.rs:63-66 | A web fragment-stage declaration starts with "varying " for either requested position |
| Attributes.AsGlsl | src/attribute.rs:60-75 | Appends exactly qualifier ++ type ++ name ++ ";", with the web stage remap. The existing prefix is kept, and the result ends with ';'. The same `as_glsl` is at src/shader.rs:111-126 |
| Attributes.TypeTextPrefixFree | src/attribute.rs:67-72 | No type text is a proper prefix of another text that starts with a type text: the keyword and the rest both match |
| Attributes.RenderDetermines | src/attribute.rs:60-75 | Equal declarations come from the same attribute, written at the same effective position |
| Uniforms.NewKeepsFields | src/uniform.rs:9-11 | `new` stores the given name and type unchanged |
| Uniforms.TypeText | src/uniform.rs:35-47 | Array text ends in ']' (no trailing space). Base types end in a space. UserType text is emitted verbatim |
| Uniforms.TypeTextKeywords | src/uniform.rs:36-41 | "int "/"float "; "ivec{n} " for Int and "vec{n} " for Float; "mat{n} "; "sampler2D " |
| Uniforms.WriteType | src/uniform.rs:31-48 | The recursive `write_type` appends exactly the type's text, for every type (terminates on the boxed structure). The same `write_type` is at src/shader.rs:163-182 |
| Uniforms.AsGlsl | src/uniform.rs:13-18 | Appends exactly "uniform " ++ type ++ name ++ ";". The existing prefix is kept, and the result ends with ';'. The same `as_glsl` is at src/shader.rs:153-158 |
| Uniforms.ArrayTextIsElementThenBrackets | src/uniform.rs:42-45 | A nested array renders as its innermost element type, then one "[k]" per level, innermost level first |
| Uniforms.BracketsDetermine | src/uniform.rs:44 | A run of "[k]" brackets before text that does not open a bracket splits only one way: the lengths and the rest match |
| Uniforms.KeywordRoundTrip | src/uniform.rs:36-41 | Each base type's keyword reads back as that type, so different base types have different keywords |
| Uniforms.KeywordDetermines | src/uniform.rs:36-41 | Two base-type texts that start a common text are the same type, with the same rest |
| Uniforms.ElementAndLengthsDetermine | src/uniform.rs:42-45 | A type is fixed by its innermost element type and its list of array lengths |
| Uniforms.TypeTextDetermines | src/uniform.rs:31-48 | Without UserType, the type text, followed by text that does not open a bracket, fixes the type |
| Uniforms.RenderDetermines | src/uniform.rs:13-18 | Without UserType, and with names not starting with '[', equal declarations come from the same uniform |
| LegacyProgram.NewUniformKeepsFields | src/program.rs:101-108 | `Uniform::new` stores the name and type unchanged |
| LegacyProgram.Name | src/program.rs:48-56 | The name is the name field of whichever variant it is |
| LegacyProgram.SizeAsWritten | src/program.rs:58-66 | As written, the Matrix size is (m·n) mod 256, because the u8 product wraps before widening |
| LegacyProgram.SizeAsWrittenWrapsAt256 | src/program.rs:64 | A 16x16 matrix attribute gets size 0 as written, against 256 intended |
| LegacyProgram.Size | src/program.rs:58-66 | Intended size: 1, then n, then m·n computed without wrap-around |
| LegacyProgram.SizeAsWrittenAgreesInRange | src/program.rs:64 | Both sizes agree whenever m·n fits in a byte |
| LegacyProgram.TypeText | src/program.rs:73-77 | The type text ends in a space and contains no other space |
| LegacyProgram.TypeTextDetermines | src/program.rs:74-76 | Equal type texts mean the same variant with the same sizes |
| LegacyProgram.AsGlsl | src/program.rs:69-81 | Appends exactly qualifier ++ ("float " / "vec{n} " / "mat{m}x{n} ") ++ name ++ ";", with no stage remap. The prefix is kept |
| LegacyProgram.RenderDetermines | src/program.rs:69-81 | Equal declarations come from the same attribute (name included) at the same position |
| Buffers.WordBytesRoundTrip | src/buffer.rs:74 | The four little-endian bytes of a word read back as that word |
| Buffers.CastSlice | src/buffer.rs:74-75 | An f32/u32 slice casts to 4 × its element count bytes |
| Buffers.WordsOfCastSlice | src/buffer.rs:74 | The cast to bytes loses nothing: the bytes read back as the original words |
| Buffers.GrownLength | src/buffer.rs:77-84 | If d ≥ length, the new length is exactly 2·d; otherwise length is unchanged. It is never below d or the old length |
| Buffers.SecondWriteDoesNotGrow | src/buffer.rs:77 | Writing the same non-empty data again does not reallocate |
| Buffers.SubWriteFitsAfterGrowth | src/buffer.rs:77-94 | Right after a growing write of d > 0 bytes (the length becomes 2·d), a write of d2 bytes at offset 0 passes the strict bound exactly when d2 < 2·d |
| Buffers.Buffer.constructor | src/buffer.rs:62 | A new buffer has tracked length 0 and an empty store |
| Buffers.Buffer.New | src/buffer.rs:58-63 | A driver failure gives `ContextError` with its message. Otherwise a fresh buffer of length 0 |
| Buffers.Buffer.SetData | src/buffer.rs:71-89 | Length becomes GrownLength(old length, d) and never decreases. The store's first d bytes are the data; the tail is kept when there is no reallocation |
| Buffers.Buffer.SetSubData | src/buffer.rs:91-99 | Requires start + d < length (byte offset). Splices the bytes in at start, with length unchanged |
| Buffers.VertexBuffer.New | src/buffer.rs:6-8 | As `Buffer::new`: an error is passed on, otherwise size 0 |
| Buffers.VertexBuffer.Size | src/buffer.rs:18-20 | The tracked byte capacity (the store's length), not an element count |
| Buffers.VertexBuffer.SetData | src/buffer.rs:10-12 | Size becomes GrownLength(old size, 4·n). The store's first 4·n bytes are exactly the little-endian cast of the floats and read back as them. Without reallocation the bytes past 4·n are kept |
| Buffers.VertexBuffer.SetSubData | src/buffer.rs:14-16 | Requires start + 4·n < size. Splices the cast bytes in at byte offset start |
| Buffers.ElementBuffer.New | src/buffer.rs:30-32 | As `Buffer::new`: an error is passed on, otherwise size 0 |
| Buffers.ElementBuffer.Size | src/buffer.rs:42-44 | The tracked byte capacity, not an element count |
| Buffers.ElementBuffer.SetData | src/buffer.rs:34-36 | Size becomes GrownLength(old size, 4·n). The store's first 4·n bytes are exactly the little-endian cast of the indices and read back as them. Without reallocation the bytes past 4·n are kept |
| Buffers.ElementBuffer.SetSubData | src/buffer.rs:38-40 | Requires start + 4·n < size. Splices the cast bytes in at byte offset start |
| Textures.TextureFilter.ToGl | src/texture.rs:140-147 | Linear maps to GL_LINEAR and Nearest to GL_NEAREST, both ways |
| Textures.FilterCodesDistinct | src/texture.rs:140-147 | Different filters give different codes |
| Textures.TextureWrap.ToGl | src/texture.rs:155-163 | Repeat, ClampToEdge and MirroredRepeat map to their three GL codes, and each code identifies its mode |
| Textures.WrapCodesDistinct | src/texture.rs:155-163 | Different wrap modes give different codes |
| Textures.ParamValue | src/texture.rs:109-116 | The value a parameter was last set to: Some only if such a setting was issued, None only if none was |
| Textures.ParamValueSkips | src/texture.rs:109-116 | Calls that do not set a parameter leave its value as it was |
| Textures.Texture.constructor | src/texture.rs:17-23 | A new texture has width 0 and height 0, and minification Linear |
| Textures.Texture.New | src/texture.rs:13-26 | A driver failure gives `ContextError`. Otherwise a fresh 0x0 texture whose only logged call sets MIN_FILTER to LINEAR, so the minification filter reads as LINEAR |
| Textures.Texture.SetImage | src/texture.rs:45-73 | Width and height are `u32`, as in the source. Requires both below MAX_TEXTURE_SIZE (the enum 0x0D33); data may be None. `width()`/`height()` then return the values passed in, and the upload plus mipmap are logged |
| Textures.Texture.SetSubimage | src/texture.rs:75-107 | Requires x + width ≤ width() and y + height ≤ height(). The dimensions are unchanged; the upload plus mipmap are logged |
| Textures.Texture.SetTextureParam | src/texture.rs:109-116 | Logs the setting; the parameter then reads as the value |
| Textures.Texture.SetMinification | src/texture.rs:118-120 | The MIN filter reads as the filter's code, and the dimensions are unchanged |
| Textures.Texture.SetMagnification | src/texture.rs:122-124 | The MAG filter reads as the filter's code, and the dimensions are unchanged |
| Textures.Texture.SetWrapH | src/texture.rs:126-128 | WRAP_S reads as the mode's code, and the dimensions are unchanged |
| Textures.Texture.SetWrapV | src/texture.rs:130-132 | WRAP_T reads as the mode's code, and the dimensions are unchanged |
| Textures.ImageCallsKeepParams | src/texture.rs:57-72 | Uploading an image never changes the filter or wrap settings |
| Textures.SetImageThenSubimage | src/texture.rs:45-107 | After `set_image(w, h)`, every sub-rectangle inside w x h is accepted, and the dimensions stay w x h |
| GolemContext.Context.constructor | src/context.rs:128-129 | A new context has both slots empty |
| Shader.ShaderProgram.constructor | src/shader.rs:13-19 | The program keeps its context, its ids and its input list |
| Shader.ShaderProgram.IsBound | src/shader.rs:22-24 | Holds exactly when the context's current program is Some(id), reading `is_program_bound` as that comparison |
| Shader.ShaderProgram.SetUniform | src/shader.rs:26-32 | Not bound: `Err(NotCurrentProgram)` and no driver call. Bound: exactly the driver's result, after one uniform upload |
| Shader.SetUniformUnbound | src/shader.rs:26-32 | On a fresh context, `set_uniform` is refused with `NotCurrentProgram` |
| Shader.ShaderProgram.Bind | src/shader.rs:34-36 | Makes this the current program (`is_bound` then holds), handing the driver the stored input list |
| Shader.BindTwice | src/shader.rs:34-36 | Binding twice leaves the same current program as binding once |
| Surfaces.Surface.constructor | src/surface.rs:17-21 | Stores the context, id and texture; `texture()` is that texture |
| Surfaces.Surface.New | src/surface.rs:13-22 | A driver failure gives `ContextError`. Otherwise a fresh surface holding the given texture |
| Surfaces.Surface.IsBound | src/surface.rs:55-60 | Holds exactly when the context's current surface is Some(id); None gives false |
| Surfaces.Surface.Bind | src/surface.rs:27-33 | As written: `current_program` becomes Some(id); `current_surface` and `is_bound` are unchanged; binds the framebuffer |
| Surfaces.Surface.Unbind | src/surface.rs:36-42 | As written: `current_program` becomes None; `current_surface` is unchanged; binds the screen |
| Surfaces.BindThenIsBound | src/surface.rs:27-60 | On a fresh context, a surface is not bound after `bind` |
| Surfaces.Surface.BindAsRenderTarget | src/surface.rs:24-33 | Intended `bind`: `current_surface` becomes Some(id), so `is_bound` holds; `current_program` is untouched |
| Surfaces.Surface.UnbindRenderTarget | src/surface.rs:35-42 | Intended `unbind`: `current_surface` becomes None; `current_program` is untouched |
| Surfaces.PixelCheckAsWrittenAcceptsEmptySlice | src/surface.rs:79-80 | As written, 65536x65536 RGBA needs 2^34 bytes, but the u32 product wraps to 0, so an empty slice passes |
| Surfaces.PixelChecksAgreeWithoutWrap | src/surface.rs:78-80 | The unwrapped check accepts a subset of what the written check accepts, and both agree when the product fits in u32 |
| Surfaces.Surface.GetPixelData | src/surface.rs:68-96 | Requires `is_bound()` and `PixelBufferLargeEnough`: data.len() ≥ width·height·bpp computed without wrap-around. This is the corrected check; the u32 check as written is `PixelBufferLargeEnoughAsWritten` (see Findings). The first width·height·bpp bytes receive the pixels, and the rest are kept. Logs bind, read and screen rebind |
| Surfaces.BindAsRenderTargetThenRead | src/surface.rs:62-96 | With the intended `bind`, a 2x2 RGBA read fills a 16-byte buffer with the pixels |
| Input.VertexBuilder.constructor | src/input.rs:19-24 | A new builder holds the attribute list and an empty buffer |
| Input.VertexBuilder.Start | src/input.rs:26-31 | `start` yields a vertex with progress 0 |
| Input.Vertex.Add | src/input.rs:44-54 | Past the end: index panic. Mismatch: the "bad type" panic. Match: appends `to_buffer(val)` and progress rises by exactly 1. A panic changes nothing |
| Input.Vertex.Build | src/input.rs:56-60 | Succeeds exactly when progress equals the attribute count; otherwise the "not filled out" panic |
| Input.FillTwoAttributes | src/input.rs:33-60 | Two separate runs, since `build` consumes the vertex: add one of two attributes then build, which panics with "not filled out"; add both then build, which succeeds, and `data()` is both values' floats in order |

## Left out

- Buffers.WordBytes: `bytemuck::cast_slice` gives native-endian bytes. The model fixes little-endian, the order of x86 and wasm32; big-endian targets are not modelled.
- src/context.rs beyond its two slots is not part of this model. That covers viewport, clearing, blending, depth, canvas lookup, vertex arrays and draw calls: all are direct driver calls.
- src/depth.rs, src/objects.rs beyond `UniformValue`, and the bundled example programs are not part of this model. They are driver mappings and windowing demos.
- `Texture::bind`, `Buffer::bind`, `VertexBuffer::bind`, `ElementBuffer::bind` and every `Drop` deletion are left out. They are plain driver calls with no state of the crate's own.
- `Surface::texture_mut` is left out. It only lends the field mutably, and the texture's own methods are modelled.
- `Rc`/`RefCell` sharing of the context is not modelled. The slots are plain fields of one `Context` object.
- Floating-point `UniformValue` payloads are carried as 32-bit patterns and never inspected. Integer payloads are `I32`, and each array payload has its fixed length.
- The `GlType`/`VertexType` trait bodies are not part of this model. `Vertex.Add` takes `matches` and `to_buffer` as function parameters, and reads `to_buffer` as appending `toBuffer(val)` and touching nothing else. The claim that the vertex buffer only grows rests on that reading of the unseen trait body.
- input.rs's own `VertexBuffer`/`ElementBuffer::send_data`, `Buffer::send_data`, `Uniforms`, `vec2` and `rgba` are left out. They forward to a `Context::send_data` whose body is not part of this model, or only build values.
- The `log::trace!` calls are omitted.
- Surfaces.Surface.GetPixelData: row padding from the driver's pack alignment is not modelled. Rows are taken as tightly packed.
- Surfaces.Surface.GetPixelData: it requires the unwrapped product (`PixelBufferLargeEnough`), which is stricter than the u32 check as written (`PixelBufferLargeEnoughAsWritten`, see Findings); Surfaces.PixelChecksAgreeWithoutWrap relates the two. The required length is width·height·bpp, as the code computes it. The doc comment at src/surface.rs:66-67 says `(width - x) * (height - y)`; the model follows the code.
- Surfaces.Surface.GetPixelData: the `i32` casts of x, y, width and height are not modelled.
- Textures.Texture.SetSubimage: `x + width` and `y + height` are compared without 32-bit wrap-around. A debug build panics on that overflow; a release build wraps.
- Textures.Texture.SetImage: the `i32` casts passed to the driver are not modelled.
- Buffers.Buffer.SetSubData: `start + data_length` is compared without word-size overflow, and the `start as i32` cast is not modelled.
- Buffers.Buffer.SetData: `new_length as i32` passed to `buffer_data_size` is not truncated. The contents of a freshly reallocated store are left unspecified (any bytes), because the driver leaves them undefined.
- Input.Vertex.Add: a panic unwinds in the source, and the consumed vertex is gone. The model returns `Panic` with the state unchanged, so nothing after a panic is observable anyway.
- LegacyProgram.SizeAsWritten: this is the release-build behaviour. A debug build panics on the `u8` overflow instead.
- `Texture::width`, `Texture::height` and `VertexBuilder::data` are plain reads (`Width`, `Height`, `Data`). The rows that use them state their contracts.

## Findings

| source | as written | input that shows it | evidently intended | confidence | as-written member | corrected member |
|---|---|---|---|---|---|---|
| src/program.rs:64 | `(m * n) as i32` multiplies two `u8`s, so the product wraps (release) or panics (debug) before widening | `Matrix(16, 16, "m")`: size 0 instead of 256 | widen first, then multiply | not executed | LegacyProgram.SizeAsWrittenWrapsAt256 | LegacyProgram.Size |
| src/surface.rs:79-80 | `width * height * bytes_per_pixel` is formed in `u32`, so the length check can wrap and pass a slice that is far too short | width = height = 65536, RGBA, `data.len() == 0`: passes the check, but the read needs 2^34 bytes | the check compares against the true product | not executed | Surfaces.PixelCheckAsWrittenAcceptsEmptySlice | Surfaces.Surface.GetPixelData |
| src/surface.rs:28 | `bind` stores the framebuffer in `current_program`, while `is_bound` reads `current_surface` (src/surface.rs:56) | a fresh context, `surface.bind()`, then `surface.is_bound()`: false, so `get_pixel_data` fails its first assertion | `bind`/`unbind` operate on `current_surface` | not executed | Surfaces.BindThenIsBound | Surfaces.BindAsRenderTargetThenRead |
