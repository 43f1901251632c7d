/** Textures with recorded dimensions (src/texture.rs). Driver calls are kept
    as a ghost log of what was issued. */
module Textures {
  import opened Golem

  /** `glow::MAX_TEXTURE_SIZE` is the enum that names the driver limit (0x0D33),
      not the limit itself; the assertion compares against the enum value. */
  const MAX_TEXTURE_SIZE: int := 0x0D33

  const GL_TEXTURE_MAG_FILTER: int := 0x2800
  const GL_TEXTURE_MIN_FILTER: int := 0x2801
  const GL_TEXTURE_WRAP_S: int := 0x2802
  const GL_TEXTURE_WRAP_T: int := 0x2803
  const GL_NEAREST: int := 0x2600
  const GL_LINEAR: int := 0x2601
  const GL_REPEAT: int := 0x2901
  const GL_CLAMP_TO_EDGE: int := 0x812F
  const GL_MIRRORED_REPEAT: int := 0x8370

  datatype TextureFilter = Linear | Nearest {
    /** `to_gl`: the filter enum; the two filters get different codes. */
    function ToGl(): (code: int)
      ensures code == GL_LINEAR || code == GL_NEAREST
      ensures code == GL_LINEAR <==> this == Linear
    {
      match this
      case Linear => GL_LINEAR
      case Nearest => GL_NEAREST
    }
  }

  datatype TextureWrap = Repeat | ClampToEdge | MirroredRepeat {
    /** `to_gl`: the wrap enum; the three modes get different codes. */
    function ToGl(): (code: int)
      ensures code in {GL_REPEAT, GL_CLAMP_TO_EDGE, GL_MIRRORED_REPEAT}
      ensures code == GL_REPEAT <==> this == Repeat
      ensures code == GL_CLAMP_TO_EDGE <==> this == ClampToEdge
    {
      match this
      case Repeat => GL_REPEAT
      case ClampToEdge => GL_CLAMP_TO_EDGE
      case MirroredRepeat => GL_MIRRORED_REPEAT
    }
  }

  lemma FilterCodesDistinct(f1: TextureFilter, f2: TextureFilter)
    requires f1.ToGl() == f2.ToGl()
    ensures f1 == f2
  {
  }

  lemma WrapCodesDistinct(w1: TextureWrap, w2: TextureWrap)
    requires w1.ToGl() == w2.ToGl()
    ensures w1 == w2
  {
  }

  /** The driver calls a texture issues on its own object. */
  datatype TexCall =
    | TexImage2D(width: nat, height: nat, format: int, data: Option<seq<bv8>>)
    | TexSubImage2D(x: nat, y: nat, subWidth: nat, subHeight: nat, subFormat: int, pixels: seq<bv8>)
    | GenerateMipmap
    | TexParameter(param: int, value: int)

  /** The value a texture parameter was last set to in a call log. */
  function ParamValue(log: seq<TexCall>, param: int): (v: Option<int>)
    ensures v.Some? ==> TexParameter(param, v.value) in log
    ensures v.None? ==> forall c :: c in log ==> !(c.TexParameter? && c.param == param)
  {
    if log == [] then None
    else
      var last := log[|log| - 1];
      if last.TexParameter? && last.param == param then Some(last.value)
      else ParamValue(log[..|log| - 1], param)
  }

  /** Appending a call that does not set `param` leaves its value as it was. */
  lemma {:induction false} ParamValueSkips(log: seq<TexCall>, calls: seq<TexCall>, param: int)
    requires forall c :: c in calls ==> !(c.TexParameter? && c.param == param)
    ensures ParamValue(log + calls, param) == ParamValue(log, param)
    decreases |calls|
  {
    if calls == [] {
      assert log + calls == log;
    } else {
      var all := log + calls;
      assert all[..|all| - 1] == log + calls[..|calls| - 1];
      assert all[|all| - 1] == calls[|calls| - 1] && calls[|calls| - 1] in calls;
      ParamValueSkips(log, calls[..|calls| - 1], param);
    }
  }

  class Texture {
    const id: Handle
    var width: U32
    var height: U32
    ghost var log: seq<TexCall>

    function Width(): U32
      reads this
    {
      width
    }

    function Height(): U32
      reads this
    {
      height
    }

    /** Zero width and height: not yet given an image. `new` also sets the
        minification filter to `Linear`. */
    constructor (id: Handle)
      ensures this.id == id && Width() == 0 && Height() == 0
      ensures log == [TexParameter(GL_TEXTURE_MIN_FILTER, GL_LINEAR)]
      ensures ParamValue(log, GL_TEXTURE_MIN_FILTER) == Some(GL_LINEAR)
    {
      this.id := id;
      width := 0;
      height := 0;
      log := [TexParameter(GL_TEXTURE_MIN_FILTER, Linear.ToGl())];
    }

    /** `Texture::new`: a driver failure becomes `ContextError`; otherwise a
        fresh 0x0 texture whose minification filter is `Linear`. */
    static method New(created: Created) returns (r: Result<Texture>)
      ensures created.DriverError? ==> r == Err(ContextError(created.message))
      ensures created.Created? ==> r.Ok? && fresh(r.value)
      ensures created.Created? ==> r.value.id == created.handle && r.value.Width() == 0 && r.value.Height() == 0
      ensures created.Created? ==> r.value.log == [TexParameter(GL_TEXTURE_MIN_FILTER, GL_LINEAR)]
      ensures created.Created? ==> ParamValue(r.value.log, GL_TEXTURE_MIN_FILTER) == Some(GL_LINEAR)
    {
      match created {
        case DriverError(msg) => r := Err(ContextError(msg));
        case Created(h) =>
          var t := new Texture(h);
          r := Ok(t);
      }
    }

    /** `set_image`: asserts both dimensions below `MAX_TEXTURE_SIZE`, records
        them and uploads `data`, which may be absent (storage only). */
    method SetImage(data: Option<seq<bv8>>, width: U32, height: U32, color: ColorFormat)
      requires (width as int) < MAX_TEXTURE_SIZE
      requires (height as int) < MAX_TEXTURE_SIZE
      modifies this
      ensures Width() == width && Height() == height
      ensures log == old(log) + [TexImage2D(width as nat, height as nat, color.GlFormat(), data), GenerateMipmap]
    {
      this.width := width;
      this.height := height;
      log := log + [TexImage2D(width as nat, height as nat, color.GlFormat(), data), GenerateMipmap];
    }

    /** `set_subimage`: asserts the rectangle lies inside the recorded image;
        takes `&self`, so the recorded dimensions stay. */
    method SetSubimage(data: seq<bv8>, x: U32, y: U32, width: U32, height: U32, color: ColorFormat)
      requires x as int + width as int <= this.width as int
      requires y as int + height as int <= this.height as int
      modifies this`log
      ensures log == old(log) + [TexSubImage2D(x as nat, y as nat, width as nat, height as nat, color.GlFormat(), data), GenerateMipmap]
      ensures Width() == old(Width()) && Height() == old(Height())
    {
      log := log + [TexSubImage2D(x as nat, y as nat, width as nat, height as nat, color.GlFormat(), data), GenerateMipmap];
    }

    method SetTextureParam(param: int, value: int)
      modifies this`log
      ensures log == old(log) + [TexParameter(param, value)]
      ensures ParamValue(log, param) == Some(value)
    {
      log := log + [TexParameter(param, value)];
    }

    /** `set_minification`. */
    method SetMinification(min: TextureFilter)
      modifies this`log
      ensures log == old(log) + [TexParameter(GL_TEXTURE_MIN_FILTER, min.ToGl())]
      ensures ParamValue(log, GL_TEXTURE_MIN_FILTER) == Some(min.ToGl())
      ensures Width() == old(Width()) && Height() == old(Height())
    {
      SetTextureParam(GL_TEXTURE_MIN_FILTER, min.ToGl());
    }

    /** `set_magnification`. */
    method SetMagnification(max: TextureFilter)
      modifies this`log
      ensures log == old(log) + [TexParameter(GL_TEXTURE_MAG_FILTER, max.ToGl())]
      ensures ParamValue(log, GL_TEXTURE_MAG_FILTER) == Some(max.ToGl())
      ensures Width() == old(Width()) && Height() == old(Height())
    {
      SetTextureParam(GL_TEXTURE_MAG_FILTER, max.ToGl());
    }

    /** `set_wrap_h`: the horizontal (S) wrap mode. */
    method SetWrapH(wrap: TextureWrap)
      modifies this`log
      ensures log == old(log) + [TexParameter(GL_TEXTURE_WRAP_S, wrap.ToGl())]
      ensures ParamValue(log, GL_TEXTURE_WRAP_S) == Some(wrap.ToGl())
      ensures Width() == old(Width()) && Height() == old(Height())
    {
      SetTextureParam(GL_TEXTURE_WRAP_S, wrap.ToGl());
    }

    /** `set_wrap_v`: the vertical (T) wrap mode. */
    method SetWrapV(wrap: TextureWrap)
      modifies this`log
      ensures log == old(log) + [TexParameter(GL_TEXTURE_WRAP_T, wrap.ToGl())]
      ensures ParamValue(log, GL_TEXTURE_WRAP_T) == Some(wrap.ToGl())
      ensures Width() == old(Width()) && Height() == old(Height())
    {
      SetTextureParam(GL_TEXTURE_WRAP_T, wrap.ToGl());
    }
  }

  /** Uploading images never disturbs the filter and wrap settings. */
  lemma ImageCallsKeepParams(log: seq<TexCall>, w: nat, h: nat, format: int, data: Option<seq<bv8>>, param: int)
    ensures ParamValue(log + [TexImage2D(w, h, format, data), GenerateMipmap], param) == ParamValue(log, param)
  {
    ParamValueSkips(log, [TexImage2D(w, h, format, data), GenerateMipmap], param);
  }

  /** A texture freshly given a `width` x `height` image accepts exactly the
      sub-rectangles that fit inside it. */
  method SetImageThenSubimage(t: Texture, data: seq<bv8>, w: U32, h: U32, x: U32, y: U32, sw: U32, sh: U32)
    requires (w as int) < MAX_TEXTURE_SIZE && (h as int) < MAX_TEXTURE_SIZE
    requires x as int + sw as int <= w as int && y as int + sh as int <= h as int
    modifies t
    ensures t.Width() == w && t.Height() == h
  {
    t.SetImage(None, w, h, RGBA);
    t.SetSubimage(data, x, y, sw, sh, RGBA);
  }
}
