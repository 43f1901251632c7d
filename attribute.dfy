/** Vertex attribute descriptors and the GLSL declarations generated from them
    (src/attribute.rs; src/shader.rs repeats the same definitions). */
module Attributes {
  import opened Golem
  import opened Format

  datatype AttributeType = Scalar | Vector(n: Dimension) | Matrix(m: Dimension, n: Dimension)

  /** `Attribute::new(name, value)` is this constructor; `name()` is the field. */
  datatype Attribute = Attribute(name: string, value: AttributeType)

  /** `name()` returns the name the attribute was built with. */
  lemma NameIsConstructorName(name: string, value: AttributeType)
    ensures Attribute(name, value).name == name
    ensures Attribute(name, value).value == value
  {
  }

  /** `size()`: the number of float components the attribute occupies. */
  function Size(a: Attribute): (r: int)
    ensures 1 <= r <= 16
    ensures a.value.Scalar? <==> r == 1
    ensures a.value.Vector? ==> r == a.value.n.Value()
    ensures a.value.Matrix? ==> r == a.value.m.Value() * a.value.n.Value() && r >= 4
  {
    match a.value
    case Scalar => 1
    case Vector(n) => n.Value()
    case Matrix(m, n) => m.Value() * n.Value()
  }

  /** The GLSL type keyword with its trailing space. */
  function TypeText(t: AttributeType): (r: string)
    ensures |r| >= 2 && r[|r| - 1] == ' '
    ensures forall i :: 0 <= i < |r| - 1 ==> r[i] != ' '
  {
    match t
    case Scalar => "float "
    case Vector(n) => "vec" + NatToString(n.Value()) + " "
    case Matrix(m, n) => "mat" + NatToString(m.Value()) + "x" + NatToString(n.Value()) + " "
  }

  /** On the web dialect a declaration outside the vertex stage is always
      written with the `Output` qualifier (`varying`), whatever was asked. */
  function EffectivePosition(dialect: Dialect, isVertex: bool, pos: Position): (p: Position)
    ensures dialect == Desktop || isVertex ==> p == pos
    ensures dialect == Web && !isVertex ==> p == Output
  {
    if dialect == Web && !isVertex then Output else pos
  }

  /** The declaration `as_glsl` appends: qualifier, type, name and ";". */
  function Render(a: Attribute, dialect: Dialect, isVertex: bool, pos: Position): string
  {
    Qualifier(dialect, EffectivePosition(dialect, isVertex, pos)) + TypeText(a.value) + a.name + ";"
  }

  /** `as_glsl`: pushes the declaration onto `shader` piece by piece. */
  method AsGlsl(a: Attribute, dialect: Dialect, isVertex: bool, pos: Position, shader: string)
    returns (out: string)
    ensures out == shader + Render(a, dialect, isVertex, pos)
    ensures |out| > |shader| && out[..|shader|] == shader
    ensures out[|out| - 1] == ';'
  {
    var effective := EffectivePosition(dialect, isVertex, pos);
    out := shader + Qualifier(dialect, effective);
    out := out + TypeText(a.value);
    out := out + a.name;
    out := out + ";";
  }

  /** The type keywords: "float ", "vec{n} " and "mat{m}x{n} ". */
  lemma TypeTextKeywords(t: AttributeType)
    ensures t.Scalar? ==> TypeText(t) == "float "
    ensures t.Vector? ==> TypeText(t) == ['v', 'e', 'c', DigitChar(t.n.Value()), ' ']
    ensures t.Matrix? ==> TypeText(t) == ['m', 'a', 't', DigitChar(t.m.Value()), 'x', DigitChar(t.n.Value()), ' ']
  {
  }

  /** A fragment-stage declaration on the web dialect reads "varying ..." for
      either requested position. */
  lemma WebFragmentIsVarying(a: Attribute, pos: Position)
    ensures Render(a, Web, false, pos) == Render(a, Web, false, Output)
    ensures Render(a, Web, false, pos)[..8] == "varying "
  {
  }

  /** Two type keywords that start a common text are the same keyword. */
  lemma TypeTextPrefixFree(t1: AttributeType, t2: AttributeType, r1: string, r2: string)
    requires TypeText(t1) + r1 == TypeText(t2) + r2
    ensures t1 == t2 && r1 == r2
  {
    TypeTextKeywords(t1);
    TypeTextKeywords(t2);
    var s1, s2 := TypeText(t1), TypeText(t2);
    assert s1[0] == (s1 + r1)[0] == (s2 + r2)[0] == s2[0];
    assert |s1| == |s2|;
    SplitEqual(s1, r1, s2, r2);
    if t1.Vector? {
      assert s1[3] == s2[3];
    } else if t1.Matrix? {
      assert s1[3] == s2[3] && s1[5] == s2[5];
    }
  }

  lemma RenderSplit(a: Attribute, dialect: Dialect, isVertex: bool, pos: Position)
    ensures Render(a, dialect, isVertex, pos)
            == Qualifier(dialect, EffectivePosition(dialect, isVertex, pos)) + (TypeText(a.value) + (a.name + ";"))
  {
    Regroup4(Qualifier(dialect, EffectivePosition(dialect, isVertex, pos)), TypeText(a.value), a.name, ";");
  }

  /** A declaration determines the attribute it was generated from and the
      position it was written with: no two attributes share a declaration. */
  lemma {:induction false} RenderDetermines(dialect: Dialect, isVertex: bool,
                                            a1: Attribute, p1: Position,
                                            a2: Attribute, p2: Position)
    requires Render(a1, dialect, isVertex, p1) == Render(a2, dialect, isVertex, p2)
    ensures a1 == a2
    ensures EffectivePosition(dialect, isVertex, p1) == EffectivePosition(dialect, isVertex, p2)
  {
    var e1, e2 := EffectivePosition(dialect, isVertex, p1), EffectivePosition(dialect, isVertex, p2);
    var q1, q2 := Qualifier(dialect, e1), Qualifier(dialect, e2);
    var rest1, rest2 := TypeText(a1.value) + (a1.name + ";"), TypeText(a2.value) + (a2.name + ";");
    RenderSplit(a1, dialect, isVertex, p1);
    RenderSplit(a2, dialect, isVertex, p2);
    assert q1[0] == (q1 + rest1)[0] == (q2 + rest2)[0] == q2[0];
    QualifierFirstCharDistinguishes(dialect, e1, e2);
    SplitEqual(q1, rest1, q2, rest2);
    TypeTextPrefixFree(a1.value, a2.value, a1.name + ";", a2.name + ";");
    SplitEqual(a1.name, ";", a2.name, ";");
  }
}
