/** The shared context state that the core reads and writes: the two
    context-wide slots of `ContextContents` (src/context.rs), and a ghost log
    of the context-level driver calls the core issues. */
module GolemContext {
  import opened Golem
  import Attributes
  import Uniforms

  datatype DriverCall =
    | BindProgram(program: Handle, input: seq<Attributes.Attribute>, vertexBuffer: Handle)
    | BindUniform(uniformProgram: Handle, name: string, value: Uniforms.UniformValue)
    | BindFramebuffer(target: Option<Handle>)
    | ReadPixels(x: nat, y: nat, width: nat, height: nat, format: int)

  class Context {
    /** `current_program`: the program the context counts as bound. */
    var currentProgram: Option<Handle>
    /** `current_surface`: the framebuffer the context counts as bound. */
    var currentSurface: Option<Handle>
    ghost var calls: seq<DriverCall>

    /** A new context has neither slot set. */
    constructor ()
      ensures currentProgram == None && currentSurface == None && calls == []
    {
      currentProgram := None;
      currentSurface := None;
      calls := [];
    }
  }
}
