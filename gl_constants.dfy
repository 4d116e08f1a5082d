/** The total tables from SFML's enumerations to OpenGL constants used when a blend mode
    is applied and when primitives are drawn. Each table has an inverse, so that distinct
    enumerators always reach the driver as distinct constants. */
module GlConstants {
  import opened Graphics

  const GL_ZERO: nat := 0
  const GL_ONE: nat := 1
  const GL_SRC_COLOR: nat := 0x0300
  const GL_ONE_MINUS_SRC_COLOR: nat := 0x0301
  const GL_SRC_ALPHA: nat := 0x0302
  const GL_ONE_MINUS_SRC_ALPHA: nat := 0x0303
  const GL_DST_ALPHA: nat := 0x0304
  const GL_ONE_MINUS_DST_ALPHA: nat := 0x0305
  const GL_DST_COLOR: nat := 0x0306
  const GL_ONE_MINUS_DST_COLOR: nat := 0x0307

  const GL_FUNC_ADD: nat := 0x8006
  const GL_FUNC_SUBTRACT: nat := 0x800A
  const GL_FUNC_REVERSE_SUBTRACT: nat := 0x800B

  const GL_POINTS: nat := 0
  const GL_LINES: nat := 1
  const GL_LINE_STRIP: nat := 3
  const GL_TRIANGLES: nat := 4
  const GL_TRIANGLE_STRIP: nat := 5
  const GL_TRIANGLE_FAN: nat := 6
  const GL_QUADS: nat := 7

  /** Reads an OpenGL blend-factor constant back as an SFML factor. */
  function GlConstantToFactor(c: nat): Option<Factor>
  {
    if c == GL_ZERO then Some(Zero)
    else if c == GL_ONE then Some(One)
    else if c == GL_SRC_COLOR then Some(SrcColor)
    else if c == GL_ONE_MINUS_SRC_COLOR then Some(OneMinusSrcColor)
    else if c == GL_DST_COLOR then Some(DstColor)
    else if c == GL_ONE_MINUS_DST_COLOR then Some(OneMinusDstColor)
    else if c == GL_SRC_ALPHA then Some(SrcAlpha)
    else if c == GL_ONE_MINUS_SRC_ALPHA then Some(OneMinusSrcAlpha)
    else if c == GL_DST_ALPHA then Some(DstAlpha)
    else if c == GL_ONE_MINUS_DST_ALPHA then Some(OneMinusDstAlpha)
    else None
  }

  /** factorToGlConstant: every factor has its own constant, which reads back as it. */
  function FactorToGlConstant(f: Factor): (r: nat)
    ensures GlConstantToFactor(r) == Some(f)
    ensures r <= GL_ONE_MINUS_DST_COLOR
  {
    match f
    case Zero => GL_ZERO
    case One => GL_ONE
    case SrcColor => GL_SRC_COLOR
    case OneMinusSrcColor => GL_ONE_MINUS_SRC_COLOR
    case DstColor => GL_DST_COLOR
    case OneMinusDstColor => GL_ONE_MINUS_DST_COLOR
    case SrcAlpha => GL_SRC_ALPHA
    case OneMinusSrcAlpha => GL_ONE_MINUS_SRC_ALPHA
    case DstAlpha => GL_DST_ALPHA
    case OneMinusDstAlpha => GL_ONE_MINUS_DST_ALPHA
  }

  /** Reads an OpenGL blend-equation constant back as an SFML equation. */
  function GlConstantToEquation(c: nat): Option<Equation>
  {
    if c == GL_FUNC_ADD then Some(Add)
    else if c == GL_FUNC_SUBTRACT then Some(Subtract)
    else if c == GL_FUNC_REVERSE_SUBTRACT then Some(ReverseSubtract)
    else None
  }

  /** equationToGlConstant: every equation has its own constant, which reads back as it. */
  function EquationToGlConstant(e: Equation): (r: nat)
    ensures GlConstantToEquation(r) == Some(e)
    ensures GL_FUNC_ADD <= r <= GL_FUNC_REVERSE_SUBTRACT
  {
    match e
    case Add => GL_FUNC_ADD
    case Subtract => GL_FUNC_SUBTRACT
    case ReverseSubtract => GL_FUNC_REVERSE_SUBTRACT
  }

  /** Reads an OpenGL primitive mode back as an SFML primitive type. */
  function GlModeToPrimitive(mode: nat): Option<PrimitiveType>
  {
    if mode == GL_POINTS then Some(Points)
    else if mode == GL_LINES then Some(Lines)
    else if mode == GL_LINE_STRIP then Some(LineStrip)
    else if mode == GL_TRIANGLES then Some(Triangles)
    else if mode == GL_TRIANGLE_STRIP then Some(TriangleStrip)
    else if mode == GL_TRIANGLE_FAN then Some(TriangleFan)
    else if mode == GL_QUADS then Some(Quads)
    else None
  }

  /** The `modes` table of drawPrimitives, indexed by primitive type. */
  function PrimitiveToGlMode(t: PrimitiveType): (mode: nat)
    ensures GlModeToPrimitive(mode) == Some(t)
    ensures mode <= GL_QUADS && mode != 2
  {
    match t
    case Points => GL_POINTS
    case Lines => GL_LINES
    case LineStrip => GL_LINE_STRIP
    case Triangles => GL_TRIANGLES
    case TriangleStrip => GL_TRIANGLE_STRIP
    case TriangleFan => GL_TRIANGLE_FAN
    case Quads => GL_QUADS
  }

  /** Each table's reading-back is also a right inverse: a constant that reads back as a
      value is that value's constant, so no two constants name one value. */
  lemma ConstantsReadBack(c: nat)
    ensures GlConstantToFactor(c).Some? ==> FactorToGlConstant(GlConstantToFactor(c).value) == c
    ensures GlConstantToEquation(c).Some? ==> EquationToGlConstant(GlConstantToEquation(c).value) == c
    ensures GlModeToPrimitive(c).Some? ==> PrimitiveToGlMode(GlModeToPrimitive(c).value) == c
  {
  }

  /** Distinct blend modes reach the driver as distinct constant sextuples. */
  lemma BlendConstantsInjective(m1: BlendMode, m2: BlendMode)
    requires FactorToGlConstant(m1.colorSrcFactor) == FactorToGlConstant(m2.colorSrcFactor)
    requires FactorToGlConstant(m1.colorDstFactor) == FactorToGlConstant(m2.colorDstFactor)
    requires FactorToGlConstant(m1.alphaSrcFactor) == FactorToGlConstant(m2.alphaSrcFactor)
    requires FactorToGlConstant(m1.alphaDstFactor) == FactorToGlConstant(m2.alphaDstFactor)
    requires EquationToGlConstant(m1.colorEquation) == EquationToGlConstant(m2.colorEquation)
    requires EquationToGlConstant(m1.alphaEquation) == EquationToGlConstant(m2.alphaEquation)
    ensures m1 == m2
  {
    assert GlConstantToFactor(FactorToGlConstant(m1.colorSrcFactor)) == Some(m2.colorSrcFactor);
    assert GlConstantToFactor(FactorToGlConstant(m1.colorDstFactor)) == Some(m2.colorDstFactor);
    assert GlConstantToFactor(FactorToGlConstant(m1.alphaSrcFactor)) == Some(m2.alphaSrcFactor);
    assert GlConstantToFactor(FactorToGlConstant(m1.alphaDstFactor)) == Some(m2.alphaDstFactor);
    assert GlConstantToEquation(EquationToGlConstant(m1.colorEquation)) == Some(m2.colorEquation);
    assert GlConstantToEquation(EquationToGlConstant(m1.alphaEquation)) == Some(m2.alphaEquation);
  }
}
