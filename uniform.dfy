/** Uniform descriptors and their GLSL declarations (src/uniform.rs; src/shader.rs
    repeats the same definitions). */
module Uniforms {
  import opened Golem
  import opened Format

  datatype UniformType =
    | Scalar(kind: NumberType)
    | Vector(kind: NumberType, dim: Dimension)
    | Matrix(dim: Dimension)
    | Sampler2D
    | Array(elem: UniformType, len: nat)
    | UserType(text: string)

  /** `Uniform::new(name, u_type)` is this constructor. */
  datatype Uniform = Uniform(name: string, uType: UniformType)

  newtype I32 = x: int | -0x8000_0000 <= x < 0x8000_0000

  /** Fixed-size arrays of `f32` (as 32-bit patterns) and of `i32`. */
  type F32x2 = s: seq<bv32> | |s| == 2 witness [0, 0]
  type F32x3 = s: seq<bv32> | |s| == 3 witness [0, 0, 0]
  type F32x4 = s: seq<bv32> | |s| == 4 witness [0, 0, 0, 0]
  type F32x9 = s: seq<bv32> | |s| == 9 witness [0, 0, 0, 0, 0, 0, 0, 0, 0]
  type F32x16 = s: seq<bv32> | |s| == 16 witness [0, 0, 0, 0, 0, 0, 0, 0, 0, 0, 0, 0, 0, 0, 0, 0]
  type I32x2 = s: seq<I32> | |s| == 2 witness [0, 0]
  type I32x3 = s: seq<I32> | |s| == 3 witness [0, 0, 0]
  type I32x4 = s: seq<I32> | |s| == 4 witness [0, 0, 0, 0]

  /** Values handed to the driver by `set_uniform`. Floating-point components
      are carried as their 32-bit patterns; nothing here inspects them. */
  datatype UniformValue =
    | IntValue(i: I32)
    | FloatValue(f: bv32)
    | Vector2(v2: F32x2)
    | Vector3(v3: F32x3)
    | Vector4(v4: F32x4)
    | IVector2(iv2: I32x2)
    | IVector3(iv3: I32x3)
    | IVector4(iv4: I32x4)
    | Matrix2(m2: F32x4)
    | Matrix3(m3: F32x9)
    | Matrix4(m4: F32x16)

  /** `new` stores the given name and type unchanged. */
  lemma NewKeepsFields(name: string, t: UniformType)
    ensures Uniform(name, t).name == name && Uniform(name, t).uType == t
  {
  }

  /** The text `write_type` pushes for a type. */
  function TypeText(t: UniformType): (r: string)
    ensures t.Array? ==> |r| >= 3 && r[|r| - 1] == ']'
    ensures !t.Array? && !t.UserType? ==> |r| >= 2 && r[|r| - 1] == ' '
    ensures t.UserType? ==> r == t.text
  {
    match t
    case Scalar(Int) => "int "
    case Scalar(Float) => "float "
    case Vector(Int, d) => "ivec" + NatToString(d.Value()) + " "
    case Vector(Float, d) => "vec" + NatToString(d.Value()) + " "
    case Matrix(d) => "mat" + NatToString(d.Value()) + " "
    case Sampler2D => "sampler2D "
    case Array(e, k) => TypeText(e) + ("[" + NatToString(k) + "]")
    case UserType(s) => s
  }

  /** The declaration `as_glsl` appends. */
  function Render(u: Uniform): string
  {
    "uniform " + TypeText(u.uType) + u.name + ";"
  }

  /** `write_type`: recurses into an array's element type first, then pushes
      the array's own bracket. */
  method WriteType(t: UniformType, shader: string) returns (out: string)
    ensures out == shader + TypeText(t)
    decreases t
  {
    match t {
      case Scalar(Int) => out := shader + "int ";
      case Scalar(Float) => out := shader + "float ";
      case Vector(Int, d) => out := shader + ("ivec" + NatToString(d.Value()) + " ");
      case Vector(Float, d) => out := shader + ("vec" + NatToString(d.Value()) + " ");
      case Matrix(d) => out := shader + ("mat" + NatToString(d.Value()) + " ");
      case Sampler2D => out := shader + "sampler2D ";
      case Array(e, k) =>
        out := WriteType(e, shader);
        out := out + ("[" + NatToString(k) + "]");
      case UserType(s) => out := shader + s;
    }
  }

  /** `as_glsl`: "uniform ", the type, the name, ";". */
  method AsGlsl(u: Uniform, shader: string) returns (out: string)
    ensures out == shader + Render(u)
    ensures |out| > |shader| && out[..|shader|] == shader
    ensures out[|out| - 1] == ';'
  {
    out := shader + "uniform ";
    out := WriteType(u.uType, out);
    out := out + u.name;
    out := out + ";";
  }

  /** The innermost non-array type of a (possibly nested) array type. */
  function ElementType(t: UniformType): (e: UniformType)
    ensures !e.Array?
  {
    if t.Array? then ElementType(t.elem) else t
  }

  /** The array lengths of a nested array type, innermost first. */
  function Lengths(t: UniformType): seq<nat>
  {
    if t.Array? then Lengths(t.elem) + [t.len] else []
  }

  /** One "[k]" per length, in the order given. */
  function Brackets(ks: seq<nat>): string
  {
    if ks == [] then "" else Brackets(ks[..|ks| - 1]) + Bracket(ks[|ks| - 1])
  }

  /** The bracket of one length. */
  function Bracket(k: nat): string
  {
    "[" + NatToString(k) + "]"
  }

  /** A nested array renders as its element type's text followed by the
      brackets of every level, the innermost level's first. */
  lemma {:induction false} ArrayTextIsElementThenBrackets(t: UniformType)
    ensures TypeText(t) == TypeText(ElementType(t)) + Brackets(Lengths(t))
    decreases t
  {
    if t.Array? {
      var e, ls, k := ElementType(t.elem), Lengths(t.elem), t.len;
      ArrayTextIsElementThenBrackets(t.elem);
      assert TypeText(t) == TypeText(t.elem) + Bracket(k);
      var ks := ls + [k];
      assert ks[..|ks| - 1] == ls;
      assert Brackets(ks) == Brackets(ls) + Bracket(k);
      Associate(TypeText(e), Brackets(ls), Bracket(k));
    }
  }

  /** The fixed keywords of the non-array, non-user types. */
  lemma TypeTextKeywords(t: UniformType)
    ensures t.Scalar? ==> TypeText(t) == (if t.kind == Int then "int " else "float ")
    ensures t.Vector? && t.kind == Int ==> TypeText(t) == ['i', 'v', 'e', 'c', DigitChar(t.dim.Value()), ' ']
    ensures t.Vector? && t.kind == Float ==> TypeText(t) == ['v', 'e', 'c', DigitChar(t.dim.Value()), ' ']
    ensures t.Matrix? ==> TypeText(t) == ['m', 'a', 't', DigitChar(t.dim.Value()), ' ']
    ensures t.Sampler2D? ==> TypeText(t) == "sampler2D "
  {
  }

  /** No opaque user-written type text anywhere inside. */
  predicate NoUserType(t: UniformType)
  {
    match t
    case UserType(_) => false
    case Array(e, _) => NoUserType(e)
    case _ => true
  }

  /** A name that cannot be mistaken for an array bracket: GLSL identifiers
      never start with '['. */
  predicate NotBracketStart(s: string)
  {
    s == [] || s[0] != '['
  }

  /** Brackets unfold from the front as well as from the back. */
  lemma {:induction false} BracketsFront(ks: seq<nat>)
    requires ks != []
    ensures Brackets(ks) == Bracket(ks[0]) + Brackets(ks[1..])
    decreases |ks|
  {
    var n := |ks| - 1;
    var front, rest := ks[..n], ks[1..];
    if n == 0 {
      assert front == [] && rest == [];
    } else {
      assert Brackets(ks) == Brackets(front) + Bracket(ks[n]);
      BracketsFront(front);
      assert front[1..] == rest[..n - 1];
      assert Brackets(rest) == Brackets(rest[..n - 1]) + Bracket(ks[n]);
      Associate(Bracket(ks[0]), Brackets(front[1..]), Bracket(ks[n]));
    }
  }

  lemma Regroup(d: string, x: string)
    ensures ("[" + d + "]") + x == ['['] + (d + [']'] + x)
  {
  }

  lemma BracketsOpen(ks: seq<nat>, r: string)
    requires ks != []
    ensures Brackets(ks) + r == ['['] + (NatToString(ks[0]) + [']'] + (Brackets(ks[1..]) + r))
  {
    BracketsFront(ks);
    Regroup(NatToString(ks[0]), Brackets(ks[1..]) + r);
  }

  lemma BracketsOpenWithBracket(ks: seq<nat>, r: string)
    requires ks != []
    ensures !NotBracketStart(Brackets(ks) + r)
  {
    BracketsOpen(ks, r);
  }

  /** A run of brackets followed by text that does not open a bracket splits
      only one way. */
  lemma {:induction false} BracketsDetermine(ks1: seq<nat>, r1: string, ks2: seq<nat>, r2: string)
    requires Brackets(ks1) + r1 == Brackets(ks2) + r2
    requires NotBracketStart(r1) && NotBracketStart(r2)
    ensures ks1 == ks2 && r1 == r2
    decreases |ks1|
  {
    if ks1 != [] && ks2 != [] {
      BracketsOpen(ks1, r1);
      BracketsOpen(ks2, r2);
      var d1, d2 := NatToString(ks1[0]), NatToString(ks2[0]);
      var tail1, tail2 := Brackets(ks1[1..]) + r1, Brackets(ks2[1..]) + r2;
      SplitEqual(['['], d1 + [']'] + tail1, ['['], d2 + [']'] + tail2);
      SplitAtDelimiter(d1, tail1, d2, tail2, ']');
      NatToStringInjective(ks1[0], ks2[0]);
      BracketsDetermine(ks1[1..], r1, ks2[1..], r2);
      assert ks1 == [ks1[0]] + ks1[1..] && ks2 == [ks2[0]] + ks2[1..];
    } else if ks1 != [] {
      assert Brackets(ks2) + r2 == r2;
      BracketsOpenWithBracket(ks1, r1);
    } else if ks2 != [] {
      assert Brackets(ks1) + r1 == r1;
      BracketsOpenWithBracket(ks2, r2);
    }
  }

  /** The keyword text of a non-array, non-user type, without the space. */
  function Keyword(t: UniformType): string
    requires !t.Array? && !t.UserType?
  {
    var s := TypeText(t);
    s[..|s| - 1]
  }

  function DimensionOf(c: char): Option<Dimension>
  {
    if c == '2' then Some(D2) else if c == '3' then Some(D3) else if c == '4' then Some(D4) else None
  }

  /** Reads a keyword back. */
  function KeywordType(k: string): Option<UniformType>
  {
    if k == "int" then Some(Scalar(Int))
    else if k == "float" then Some(Scalar(Float))
    else if k == "sampler2D" then Some(Sampler2D)
    else if |k| == 5 && k[..4] == "ivec" && DimensionOf(k[4]).Some? then Some(Vector(Int, DimensionOf(k[4]).value))
    else if |k| == 4 && k[..3] == "vec" && DimensionOf(k[3]).Some? then Some(Vector(Float, DimensionOf(k[3]).value))
    else if |k| == 4 && k[..3] == "mat" && DimensionOf(k[3]).Some? then Some(Matrix(DimensionOf(k[3]).value))
    else None
  }

  lemma DimensionOfDigit(d: Dimension)
    ensures DimensionOf(DigitChar(d.Value())) == Some(d)
  {
  }

  lemma VectorKeywordRoundTrip(t: UniformType)
    requires t.Vector?
    ensures KeywordType(Keyword(t)) == Some(t)
  {
    TypeTextKeywords(t);
    DimensionOfDigit(t.dim);
    var k := Keyword(t);
    if t.kind == Int {
      assert k == ['i', 'v', 'e', 'c', DigitChar(t.dim.Value())];
      assert k[..4] == "ivec" && k[4] == DigitChar(t.dim.Value());
    } else {
      assert k == ['v', 'e', 'c', DigitChar(t.dim.Value())];
      assert k[..3] == "vec" && k[3] == DigitChar(t.dim.Value());
    }
  }

  lemma MatrixKeywordRoundTrip(t: UniformType)
    requires t.Matrix?
    ensures KeywordType(Keyword(t)) == Some(t)
  {
    TypeTextKeywords(t);
    DimensionOfDigit(t.dim);
    var k := Keyword(t);
    assert k == ['m', 'a', 't', DigitChar(t.dim.Value())];
    assert k[..3] == "mat" && k[3] == DigitChar(t.dim.Value());
  }

  /** Every keyword reads back as its type, so different types have different
      keywords. */
  lemma KeywordRoundTrip(t: UniformType)
    requires !t.Array? && !t.UserType?
    ensures TypeText(t) == Keyword(t) + " "
    ensures ' ' !in Keyword(t)
    ensures KeywordType(Keyword(t)) == Some(t)
  {
    TypeTextKeywords(t);
    if t.Vector? {
      VectorKeywordRoundTrip(t);
    } else if t.Matrix? {
      MatrixKeywordRoundTrip(t);
    }
  }

  lemma KeywordDetermines(t1: UniformType, t2: UniformType, r1: string, r2: string)
    requires !t1.Array? && !t1.UserType? && !t2.Array? && !t2.UserType?
    requires TypeText(t1) + r1 == TypeText(t2) + r2
    ensures t1 == t2 && r1 == r2
  {
    KeywordRoundTrip(t1);
    KeywordRoundTrip(t2);
    SplitAtDelimiter(Keyword(t1), r1, Keyword(t2), r2, ' ');
  }

  /** A type is fixed by its element type and its array lengths. */
  lemma {:induction false} ElementAndLengthsDetermine(t1: UniformType, t2: UniformType)
    requires ElementType(t1) == ElementType(t2) && Lengths(t1) == Lengths(t2)
    ensures t1 == t2
    decreases t1
  {
    if t1.Array? {
      assert |Lengths(t1)| > 0;
      assert t2.Array?;
      var n := |Lengths(t1)| - 1;
      assert Lengths(t1)[..n] == Lengths(t1.elem) && Lengths(t2)[..n] == Lengths(t2.elem);
      assert t1.len == Lengths(t1)[n] == Lengths(t2)[n] == t2.len;
      ElementAndLengthsDetermine(t1.elem, t2.elem);
    }
  }

  lemma {:induction false} NoUserTypeElement(t: UniformType)
    requires NoUserType(t)
    ensures NoUserType(ElementType(t)) && !ElementType(t).UserType?
    decreases t
  {
    if t.Array? {
      NoUserTypeElement(t.elem);
    }
  }

  /** A type without user text, followed by text that does not open a
      bracket, splits only one way. */
  lemma TypeTextDetermines(t1: UniformType, x1: string, t2: UniformType, x2: string)
    requires NoUserType(t1) && NoUserType(t2)
    requires NotBracketStart(x1) && NotBracketStart(x2)
    requires TypeText(t1) + x1 == TypeText(t2) + x2
    ensures t1 == t2 && x1 == x2
  {
    var e1, e2 := ElementType(t1), ElementType(t2);
    var b1, b2 := Brackets(Lengths(t1)), Brackets(Lengths(t2));
    ArrayTextIsElementThenBrackets(t1);
    ArrayTextIsElementThenBrackets(t2);
    NoUserTypeElement(t1);
    NoUserTypeElement(t2);
    Associate(TypeText(e1), b1, x1);
    Associate(TypeText(e2), b2, x2);
    KeywordDetermines(e1, e2, b1 + x1, b2 + x2);
    BracketsDetermine(Lengths(t1), x1, Lengths(t2), x2);
    ElementAndLengthsDetermine(t1, t2);
  }

  lemma RenderSplit(u: Uniform)
    ensures Render(u) == "uniform " + (TypeText(u.uType) + (u.name + ";"))
  {
  }

  /** A uniform declaration determines the uniform, provided its type holds no
      user-written text and its name does not start with '['. */
  lemma RenderDetermines(u1: Uniform, u2: Uniform)
    requires NoUserType(u1.uType) && NoUserType(u2.uType)
    requires NotBracketStart(u1.name) && NotBracketStart(u2.name)
    requires Render(u1) == Render(u2)
    ensures u1 == u2
  {
    var n1, n2 := u1.name + ";", u2.name + ";";
    RenderSplit(u1);
    RenderSplit(u2);
    SplitEqual("uniform ", TypeText(u1.uType) + n1, "uniform ", TypeText(u2.uType) + n2);
    assert n1[0] != '[' && n2[0] != '[';
    TypeTextDetermines(u1.uType, n1, u2.uType, n2);
    SplitEqual(u1.name, ";", u2.name, ";");
  }
}
