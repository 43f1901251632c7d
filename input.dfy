/** The vertex builder of src/input.rs: a vertex is filled attribute by
    attribute, each value appending its floats to the builder's buffer. The
    source's `GlType`/`VertexType` callbacks are parameters here: `matches`
    says whether an attribute accepts the value's type, `toBuffer` gives the
    floats (as 32-bit patterns) the value writes. */
module Input {
  import LegacyProgram

  /** A `panic!` ends the call with its message; `Done` is normal return. */
  datatype Outcome = Done | Panic(message: string)

  const BAD_TYPE: string := "TODO bad type in vertex"
  const NOT_FILLED: string := "Vertex not filled out completely before build()"
  /** The prefix of Rust's slice-index panic message; the full message goes on
      with the length and the index, which the model does not render. */
  const INDEX_OUT_OF_BOUNDS: string := "index out of bounds"

  class VertexBuilder {
    const attr: seq<LegacyProgram.Attribute>
    var buffer: seq<bv32>

    /** `new`: an empty buffer over the given attribute list. */
    constructor (attr: seq<LegacyProgram.Attribute>)
      ensures this.attr == attr && buffer == []
    {
      this.attr := attr;
      buffer := [];
    }

    /** `data`: everything appended so far, in order. */
    function Data(): seq<bv32>
      reads this
    {
      buffer
    }

    /** `start`: a vertex that has filled no attribute yet. */
    method Start() returns (v: Vertex)
      ensures fresh(v) && v.builder == this && v.progress == 0 && v.Valid()
    {
      v := new Vertex(this);
    }
  }

  class Vertex {
    const builder: VertexBuilder
    /** How many attributes this vertex has filled. */
    var progress: nat

    ghost predicate Valid()
      reads this
    {
      progress <= |builder.attr|
    }

    constructor (builder: VertexBuilder)
      ensures this.builder == builder && progress == 0 && Valid()
    {
      this.builder := builder;
      progress := 0;
    }

    /** `add`: indexes the attribute list at `progress` (a panic past its end);
        on a type match appends the value's floats and advances by one, on a
        mismatch panics. A panic leaves the state as it was. */
    method Add<T>(val: T, matches: LegacyProgram.Attribute -> bool, toBuffer: T -> seq<bv32>)
      returns (outcome: Outcome)
      requires Valid()
      modifies this, builder
      ensures Valid()
      ensures old(progress) == |builder.attr| ==>
                outcome == Panic(INDEX_OUT_OF_BOUNDS) && progress == old(progress) && builder.buffer == old(builder.buffer)
      ensures old(progress) < |builder.attr| && !matches(builder.attr[old(progress)]) ==>
                outcome == Panic(BAD_TYPE) && progress == old(progress) && builder.buffer == old(builder.buffer)
      ensures old(progress) < |builder.attr| && matches(builder.attr[old(progress)]) ==>
                outcome == Done && progress == old(progress) + 1 && builder.buffer == old(builder.buffer) + toBuffer(val)
    {
      if progress >= |builder.attr| {
        outcome := Panic(INDEX_OUT_OF_BOUNDS);
      } else if matches(builder.attr[progress]) {
        builder.buffer := builder.buffer + toBuffer(val);
        progress := progress + 1;
        outcome := Done;
      } else {
        outcome := Panic(BAD_TYPE);
      }
    }

    /** `build`: panics unless every attribute was filled. */
    method Build() returns (outcome: Outcome)
      ensures outcome == Done <==> progress == |builder.attr|
      ensures outcome != Done ==> outcome == Panic(NOT_FILLED)
    {
      if progress != |builder.attr| {
        outcome := Panic(NOT_FILLED);
      } else {
        outcome := Done;
      }
    }
  }

  /** Two separate runs over a two-attribute vertex with matching values: one
      that adds the first value and builds, which panics, and one that adds both
      and builds, which succeeds with their floats in order. `build` consumes
      the vertex, so each run ends there. */
  method FillTwoAttributes<T>(attr: seq<LegacyProgram.Attribute>, a: T, b: T,
                              matches: LegacyProgram.Attribute -> bool, toBuffer: T -> seq<bv32>)
    returns (afterOne: Outcome, afterTwo: Outcome, data: seq<bv32>)
    requires |attr| == 2 && matches(attr[0]) && matches(attr[1])
    ensures afterOne == Panic(NOT_FILLED)
    ensures afterTwo == Done
    ensures data == toBuffer(a) + toBuffer(b)
  {
    var partial := new VertexBuilder(attr);
    var v1 := partial.Start();
    var r := v1.Add(a, matches, toBuffer);
    afterOne := v1.Build();
    var builder := new VertexBuilder(attr);
    var v := builder.Start();
    r := v.Add(a, matches, toBuffer);
    r := v.Add(b, matches, toBuffer);
    afterTwo := v.Build();
    data := builder.Data();
  }
}
