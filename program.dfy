/** The older descriptor snapshot of src/program.rs: an attribute is a tuple
    enum carrying its name, and its vector and matrix sizes are raw `u8`s. */
module LegacyProgram {
  import opened Golem
  import opened Format

  datatype Attribute =
    | Scalar(name: string)
    | Vector(n: U8, name: string)
    | Matrix(m: U8, n: U8, name: string)

  /** The older uniform type: matrices carry a number type and two sizes, and
      samplers a dimension. The file generates no text for uniforms. */
  datatype UniformType =
    | Scalar(kind: NumberType)
    | Vector(kind: NumberType, dim: U8)
    | Matrix(kind: NumberType, rows: U8, cols: U8)
    | Sampler(dim: U8)
    | Array(elem: UniformType, len: nat)
    | UserType(text: string)

  /** `Uniform::new(name, u_type)` is this constructor. */
  datatype Uniform = Uniform(name: string, uType: UniformType)

  /** `Uniform::new` stores the name and type unchanged. */
  lemma NewUniformKeepsFields(name: string, t: UniformType)
    ensures Uniform(name, t).name == name && Uniform(name, t).uType == t
  {
  }

  /** `name()`: the name field of whichever variant it is. */
  function Name(a: Attribute): (r: string)
    ensures a.Scalar? ==> a == Attribute.Scalar(r)
    ensures a.Vector? ==> a == Attribute.Vector(a.n, r)
    ensures a.Matrix? ==> a == Attribute.Matrix(a.m, a.n, r)
  {
    match a
    case Scalar(name) => name
    case Vector(_, name) => name
    case Matrix(_, _, name) => name
  }

  /** `size()` as written: `(m * n) as i32`, where the product of two `u8`s is
      itself a `u8` and wraps (a release build) before it is widened. */
  function SizeAsWritten(a: Attribute): (r: int)
    ensures 0 <= r < 256
    ensures a.Matrix? ==> r == (a.m as int * a.n as int) % 256
  {
    match a
    case Scalar(_) => 1
    case Vector(n, _) => n as int
    case Matrix(m, n, _) => (m as int * n as int) % 256
  }

  /** A 16x16 matrix attribute is reported with size 0 instead of 256. */
  lemma SizeAsWrittenWrapsAt256()
    ensures SizeAsWritten(Attribute.Matrix(16, 16, "m")) == 0
    ensures Size(Attribute.Matrix(16, 16, "m")) == 256
  {
  }

  /** The component count the attribute occupies: 1, n or m * n, computed
      without wrapping (the product widened before multiplying). */
  function Size(a: Attribute): (r: int)
    ensures 0 <= r <= 255 * 255
    ensures a.Scalar? ==> r == 1
    ensures a.Vector? ==> r == a.n as int
    ensures a.Matrix? ==> r == a.m as int * a.n as int
  {
    match a
    case Scalar(_) => 1
    case Vector(n, _) => n as int
    case Matrix(m, n, _) => m as int * n as int
  }

  /** Where the product fits in a byte, the two sizes agree. */
  lemma SizeAsWrittenAgreesInRange(a: Attribute)
    requires a.Matrix? ==> a.m as int * a.n as int < 256
    ensures SizeAsWritten(a) == Size(a)
  {
  }

  /** The GLSL type keyword with its trailing space. */
  function TypeText(a: Attribute): (r: string)
    ensures |r| >= 2 && r[|r| - 1] == ' '
    ensures forall i :: 0 <= i < |r| - 1 ==> r[i] != ' '
  {
    match a
    case Scalar(_) => "float "
    case Vector(n, _) => "vec" + NatToString(n as nat) + " "
    case Matrix(m, n, _) => "mat" + NatToString(m as nat) + "x" + NatToString(n as nat) + " "
  }

  /** The declaration `as_glsl` appends. This snapshot never remaps the
      position by stage. */
  function Render(a: Attribute, dialect: Dialect, pos: Position): string
  {
    Qualifier(dialect, pos) + TypeText(a) + Name(a) + ";"
  }

  /** `as_glsl`: pushes qualifier, type, name and ";" onto `shader`. */
  method AsGlsl(a: Attribute, dialect: Dialect, pos: Position, shader: string) returns (out: string)
    ensures out == shader + Render(a, dialect, pos)
    ensures |out| > |shader| && out[..|shader|] == shader
    ensures out[|out| - 1] == ';'
  {
    out := shader + Qualifier(dialect, pos);
    // The source's `match` yields the type text and the name together.
    var glType, name := TypeText(a), Name(a);
    out := out + glType;
    out := out + name;
    out := out + ";";
  }

  /** The keyword lies before the first space; what precedes it names the
      variant and its sizes. */
  lemma TypeTextDetermines(a1: Attribute, a2: Attribute)
    requires TypeText(a1) == TypeText(a2)
    ensures a1.Scalar? <==> a2.Scalar?
    ensures a1.Vector? ==> a2.Vector? && a1.n == a2.n
    ensures a1.Matrix? ==> a2.Matrix? && a1.m == a2.m && a1.n == a2.n
  {
    var s := TypeText(a1);
    assert s[0] == TypeText(a2)[0];
    if a1.Vector? {
      var d1, d2 := NatToString(a1.n as nat), NatToString(a2.n as nat);
      assert s == "vec" + d1 + " " && s == "vec" + d2 + " ";
      assert d1 == s[3..|s| - 1] == d2;
      NatToStringInjective(a1.n as nat, a2.n as nat);
    } else if a1.Matrix? {
      var m1, m2 := NatToString(a1.m as nat), NatToString(a2.m as nat);
      var n1, n2 := NatToString(a1.n as nat), NatToString(a2.n as nat);
      var body := s[3..|s| - 1];
      assert s == "mat" + m1 + "x" + n1 + " " && s == "mat" + m2 + "x" + n2 + " ";
      assert body == m1 + ['x'] + n1 && body == m2 + ['x'] + n2;
      SplitAtDelimiter(m1, n1, m2, n2, 'x');
      NatToStringInjective(a1.m as nat, a2.m as nat);
      NatToStringInjective(a1.n as nat, a2.n as nat);
    }
  }

  lemma RenderSplit(dialect: Dialect, a: Attribute, pos: Position)
    ensures Render(a, dialect, pos) == Qualifier(dialect, pos) + (TypeText(a) + (Name(a) + ";"))
  {
    Regroup4(Qualifier(dialect, pos), TypeText(a), Name(a), ";");
  }

  /** A declaration of this snapshot determines the attribute, name included,
      and the position it was written with. */
  lemma {:induction false} RenderDetermines(dialect: Dialect, a1: Attribute, p1: Position,
                                            a2: Attribute, p2: Position)
    requires Render(a1, dialect, p1) == Render(a2, dialect, p2)
    ensures a1 == a2 && p1 == p2
  {
    var q1, q2 := Qualifier(dialect, p1), Qualifier(dialect, p2);
    var t1, t2 := TypeText(a1), TypeText(a2);
    var n1, n2 := Name(a1) + ";", Name(a2) + ";";
    RenderSplit(dialect, a1, p1);
    RenderSplit(dialect, a2, p2);
    assert q1[0] == (q1 + (t1 + n1))[0] == (q2 + (t2 + n2))[0] == q2[0];
    QualifierFirstCharDistinguishes(dialect, p1, p2);
    SplitEqual(q1, t1 + n1, q2, t2 + n2);
    SplitAfterSpace(t1, n1, t2, n2);
    TypeTextDetermines(a1, a2);
    SplitEqual(Name(a1), ";", Name(a2), ";");
  }
}
