/** Render-to-texture surfaces (src/surface.rs). */
module Surfaces {
  import opened Golem
  import opened GolemContext
  import Textures

  /** The byte count `get_pixel_data` expects: width x height x bytes per pixel. */
  function PixelBytes(width: U32, height: U32, format: ColorFormat): nat
  {
    width as nat * height as nat * format.BytesPerPixel()
  }

  /** The length check as written: the product is formed in `u32`, so in a
      release build it wraps modulo 2^32 before the comparison. */
  predicate PixelBufferLargeEnoughAsWritten(width: U32, height: U32, format: ColorFormat, len: nat)
  {
    len >= PixelBytes(width, height, format) % 0x1_0000_0000
  }

  /** The check without wrapping. */
  predicate PixelBufferLargeEnough(width: U32, height: U32, format: ColorFormat, len: nat)
  {
    len >= PixelBytes(width, height, format)
  }

  /** A 65536 x 65536 RGBA read needs 2^34 bytes, but the wrapped product is 0,
      so the check as written accepts an empty slice. */
  lemma PixelCheckAsWrittenAcceptsEmptySlice()
    ensures PixelBytes(65536, 65536, RGBA) == 0x4_0000_0000
    ensures PixelBufferLargeEnoughAsWritten(65536, 65536, RGBA, 0)
    ensures !PixelBufferLargeEnough(65536, 65536, RGBA, 0)
  {
  }

  /** The unwrapped check only drops the wrapped cases: it accepts a subset of
      what the written check accepts, and the two agree whenever the product
      fits in 32 bits. */
  lemma PixelChecksAgreeWithoutWrap(width: U32, height: U32, format: ColorFormat, len: nat)
    ensures PixelBufferLargeEnough(width, height, format, len) ==> PixelBufferLargeEnoughAsWritten(width, height, format, len)
    ensures PixelBytes(width, height, format) < 0x1_0000_0000 ==>
              (PixelBufferLargeEnough(width, height, format, len) <==> PixelBufferLargeEnoughAsWritten(width, height, format, len))
  {
  }

  class Surface {
    const ctx: Context
    const id: Handle
    /** The colour attachment; `texture()` returns it. */
    const texture: Textures.Texture

    constructor (ctx: Context, id: Handle, texture: Textures.Texture)
      ensures this.ctx == ctx && this.id == id && this.texture == texture
    {
      this.ctx := ctx;
      this.id := id;
      this.texture := texture;
    }

    /** `Surface::new`: a new framebuffer backed by `texture`; a driver failure
        becomes `ContextError`. */
    static method New(ctx: Context, texture: Textures.Texture, created: Created) returns (r: Result<Surface>)
      ensures created.DriverError? ==> r == Err(ContextError(created.message))
      ensures created.Created? ==> r.Ok? && fresh(r.value)
      ensures created.Created? ==> r.value.ctx == ctx && r.value.id == created.handle && r.value.texture == texture
    {
      match created {
        case DriverError(msg) => r := Err(ContextError(msg));
        case Created(h) =>
          var s := new Surface(ctx, h, texture);
          r := Ok(s);
      }
    }

    /** `is_bound`: reads the context's current-surface slot. */
    function IsBound(): (bound: bool)
      reads this, ctx
      ensures bound <==> ctx.currentSurface == Some(id)
    {
      ctx.currentSurface == Some(id)
    }

    /** `bind` as written: stores the framebuffer in the current-PROGRAM slot
        and binds it on the driver; the current-surface slot is untouched. */
    method Bind()
      modifies ctx`currentProgram, ctx`calls
      ensures ctx.currentProgram == Some(id)
      ensures ctx.currentSurface == old(ctx.currentSurface)
      ensures IsBound() == old(IsBound())
      ensures ctx.calls == old(ctx.calls) + [BindFramebuffer(Some(id))]
    {
      ctx.currentProgram := Some(id);
      ctx.calls := ctx.calls + [BindFramebuffer(Some(id))];
    }

    /** `unbind` as written: clears the current-program slot and restores the
        default framebuffer. */
    static method Unbind(ctx: Context)
      modifies ctx`currentProgram, ctx`calls
      ensures ctx.currentProgram == None
      ensures ctx.currentSurface == old(ctx.currentSurface)
      ensures ctx.calls == old(ctx.calls) + [BindFramebuffer(None)]
    {
      ctx.currentProgram := None;
      ctx.calls := ctx.calls + [BindFramebuffer(None)];
    }

    /** `bind` as evidently intended: records the framebuffer in the
        current-surface slot, which `is_bound` reads. */
    method BindAsRenderTarget()
      modifies ctx`currentSurface, ctx`calls
      ensures IsBound()
      ensures ctx.currentProgram == old(ctx.currentProgram)
      ensures ctx.calls == old(ctx.calls) + [BindFramebuffer(Some(id))]
    {
      ctx.currentSurface := Some(id);
      ctx.calls := ctx.calls + [BindFramebuffer(Some(id))];
    }

    /** `unbind` as evidently intended: clears the current-surface slot. */
    static method UnbindRenderTarget(ctx: Context)
      modifies ctx`currentSurface, ctx`calls
      ensures ctx.currentSurface == None
      ensures ctx.currentProgram == old(ctx.currentProgram)
      ensures ctx.calls == old(ctx.calls) + [BindFramebuffer(None)]
    {
      ctx.currentSurface := None;
      ctx.calls := ctx.calls + [BindFramebuffer(None)];
    }

    /** `get_pixel_data`: asserts the surface is bound and the slice is long
        enough, then reads `width x height` pixels into the front of `data`.
        `pixels` stands for the bytes the driver's `read_pixels` delivers. The
        framebuffer is bound for the read and the default one restored after. */
    method GetPixelData(x: U32, y: U32, width: U32, height: U32, format: ColorFormat,
                        data: array<bv8>, pixels: seq<bv8>)
      requires IsBound()
      requires PixelBufferLargeEnough(width, height, format, data.Length)
      requires |pixels| == PixelBytes(width, height, format)
      modifies data, ctx`calls
      ensures data[..|pixels|] == pixels
      ensures data[|pixels|..] == old(data[|pixels|..])
      ensures ctx.calls == old(ctx.calls) + [BindFramebuffer(Some(id)),
                                             ReadPixels(x as nat, y as nat, width as nat, height as nat, format.GlFormat()),
                                             BindFramebuffer(None)]
    {
      // read_pixels writes the whole rectangle into the slice at once.
      forall i | 0 <= i < |pixels| {
        data[i] := pixels[i];
      }
      ctx.calls := ctx.calls + [BindFramebuffer(Some(id)),
                                ReadPixels(x as nat, y as nat, width as nat, height as nat, format.GlFormat()),
                                BindFramebuffer(None)];
    }
  }

  /** With `bind` as written, a surface bound on a fresh context does not
      count as bound, so `get_pixel_data` would fail its first assertion. */
  method BindThenIsBound() returns (bound: bool)
    ensures !bound
  {
    var ctx := new Context();
    var tex := new Textures.Texture(1);
    var s := new Surface(ctx, 2, tex);
    s.Bind();
    bound := s.IsBound();
  }

  /** With the intended `bind`, a bound surface can be read back. */
  method BindAsRenderTargetThenRead(pixels: seq<bv8>) returns (data: seq<bv8>)
    requires |pixels| == 16
    ensures data == pixels
  {
    var ctx := new Context();
    var tex := new Textures.Texture(1);
    var s := new Surface(ctx, 2, tex);
    s.BindAsRenderTarget();
    var buf := new bv8[16];
    s.GetPixelData(0, 0, 2, 2, RGBA, buf, pixels);
    data := buf[..];
  }
}
