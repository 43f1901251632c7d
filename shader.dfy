/** Shader programs (src/shader.rs). Its Attribute and Uniform declarations are
    the same definitions as src/attribute.rs and src/uniform.rs, modelled once in
    `Attributes` and `Uniforms`. */
module Shader {
  import opened Golem
  import opened GolemContext
  import Attributes
  import Uniforms
  import Buffers

  class ShaderProgram {
    const ctx: Context
    const id: Handle
    const vertex: Handle
    const fragment: Handle
    /** The vertex-input attributes, kept for attribute binding at `bind`. */
    const input: seq<Attributes.Attribute>

    /** The program is built by the context (not part of this model). */
    constructor (ctx: Context, id: Handle, vertex: Handle, fragment: Handle, input: seq<Attributes.Attribute>)
      ensures this.ctx == ctx && this.id == id && this.vertex == vertex
      ensures this.fragment == fragment && this.input == input
    {
      this.ctx := ctx;
      this.id := id;
      this.vertex := vertex;
      this.fragment := fragment;
      this.input := input;
    }

    /** `is_bound`: the context's current program is this one. */
    function IsBound(): (bound: bool)
      reads this, ctx
      ensures bound <==> ctx.currentProgram == Some(id)
    {
      ctx.currentProgram == Some(id)
    }

    /** `set_uniform`: refused with `NotCurrentProgram`, and no driver call,
        unless this program is bound; otherwise the result of the driver's
        `bind_uniform`, passed in as `driverResult`. */
    method SetUniform(name: string, value: Uniforms.UniformValue, driverResult: Result<()>)
      returns (r: Result<()>)
      modifies ctx`calls
      ensures !old(IsBound()) ==> r == Err(NotCurrentProgram) && ctx.calls == old(ctx.calls)
      ensures old(IsBound()) ==> r == driverResult && ctx.calls == old(ctx.calls) + [BindUniform(id, name, value)]
    {
      if IsBound() {
        ctx.calls := ctx.calls + [BindUniform(id, name, value)];
        r := driverResult;
      } else {
        r := Err(NotCurrentProgram);
      }
    }

    /** `bind`: makes this the context's current program, handing the stored
        input list and the vertex buffer to the driver. */
    method Bind(vb: Buffers.VertexBuffer)
      modifies ctx`currentProgram, ctx`calls
      ensures IsBound()
      ensures ctx.currentProgram == Some(id)
      ensures ctx.calls == old(ctx.calls) + [BindProgram(id, input, vb.buffer.id)]
    {
      ctx.currentProgram := Some(id);
      ctx.calls := ctx.calls + [BindProgram(id, input, vb.buffer.id)];
    }
  }

  /** Binding twice in a row leaves the same current program as binding once. */
  method BindTwice(p: ShaderProgram, vb: Buffers.VertexBuffer)
    modifies p.ctx`currentProgram, p.ctx`calls
    ensures p.ctx.currentProgram == Some(p.id)
  {
    p.Bind(vb);
    ghost var once := p.ctx.currentProgram;
    p.Bind(vb);
    assert p.ctx.currentProgram == once;
  }

  /** A uniform set on a program that was never bound in a fresh context is
      refused, and the driver is not called. */
  method SetUniformUnbound(name: string, value: Uniforms.UniformValue, driverResult: Result<()>)
    returns (r: Result<()>)
    ensures r == Err(NotCurrentProgram)
  {
    var ctx := new Context();
    var p := new ShaderProgram(ctx, 1, 2, 3, []);
    r := p.SetUniform(name, value, driverResult);
    assert ctx.calls == [];
  }
}
