/** Value types shared by the render-state cache, the draw dispatcher and the sprite:
    colours, transforms, blend modes, textures, shaders, render states, vertices, views,
    and the abstract graphics commands that stand for the OpenGL calls. */
module Graphics {

  datatype Option<T> = None | Some(value: T)

  /** One colour channel (sf::Uint8). */
  type Channel = x: int | 0 <= x < 256

  /** sf::Color. */
  datatype Color = Color(r: Channel, g: Channel, b: Channel, a: Channel)

  const White: Color := Color(255, 255, 255, 255)
  /** What a default-constructed sf::Color holds. */
  const Black: Color := Color(0, 0, 0, 255)
  const Transparent: Color := Color(0, 0, 0, 0)

  datatype Vector2 = Vector2(x: real, y: real)

  /** sf::IntRect; the default rectangle is all zeros. */
  datatype IntRect = IntRect(left: int, top: int, width: int, height: int)

  const EmptyRect: IntRect := IntRect(0, 0, 0, 0)

  /** sf::FloatRect. */
  datatype FloatRect = FloatRect(left: real, top: real, width: real, height: real)

  /** The 16 floats of sf::Transform::getMatrix, column-major 4x4. */
  type Matrix = m: seq<real> | |m| == 16 witness [0.0, 0.0, 0.0, 0.0, 0.0, 0.0, 0.0, 0.0, 0.0, 0.0, 0.0, 0.0, 0.0, 0.0, 0.0, 0.0]

  /** The all-zero matrix that stands for "no texture transform" in the cache. */
  const ZeroMatrix: Matrix := [0.0, 0.0, 0.0, 0.0, 0.0, 0.0, 0.0, 0.0, 0.0, 0.0, 0.0, 0.0, 0.0, 0.0, 0.0, 0.0]

  /** sf::Transform: a 3x3 matrix (a00 .. a22) whose equality is entry-wise. */
  datatype Transform = Transform(a00: real, a01: real, a02: real,
                                 a10: real, a11: real, a12: real,
                                 a20: real, a21: real, a22: real)

  const Identity: Transform := Transform(1.0, 0.0, 0.0, 0.0, 1.0, 0.0, 0.0, 0.0, 1.0)

  /** Transform::getMatrix: the 3x3 matrix embedded in a column-major 4x4 one. */
  function MatrixOf(t: Transform): (m: Matrix)
    ensures m[0] == t.a00 && m[4] == t.a01 && m[12] == t.a02
    ensures m[1] == t.a10 && m[5] == t.a11 && m[13] == t.a12
    ensures m[3] == t.a20 && m[7] == t.a21 && m[15] == t.a22
    ensures m[10] == 1.0 && m != ZeroMatrix
  {
    [t.a00, t.a10, 0.0, t.a20,
     t.a01, t.a11, 0.0, t.a21,
     0.0,   0.0,   1.0, 0.0,
     t.a02, t.a12, 0.0, t.a22]
  }

  /** Transform::transformPoint (exact arithmetic in place of float). */
  function TransformPoint(t: Transform, p: Vector2): Vector2
  {
    Vector2(t.a00 * p.x + t.a01 * p.y + t.a02, t.a10 * p.x + t.a11 * p.y + t.a12)
  }

  /** Transform::combine: the matrix product a * b. */
  function Combine(a: Transform, b: Transform): Transform
  {
    Transform(a.a00 * b.a00 + a.a01 * b.a10 + a.a02 * b.a20,
              a.a00 * b.a01 + a.a01 * b.a11 + a.a02 * b.a21,
              a.a00 * b.a02 + a.a01 * b.a12 + a.a02 * b.a22,
              a.a10 * b.a00 + a.a11 * b.a10 + a.a12 * b.a20,
              a.a10 * b.a01 + a.a11 * b.a11 + a.a12 * b.a21,
              a.a10 * b.a02 + a.a11 * b.a12 + a.a12 * b.a22,
              a.a20 * b.a00 + a.a21 * b.a10 + a.a22 * b.a20,
              a.a20 * b.a01 + a.a21 * b.a11 + a.a22 * b.a21,
              a.a20 * b.a02 + a.a21 * b.a12 + a.a22 * b.a22)
  }

  /** sf::BlendMode::Factor. */
  datatype Factor = Zero | One | SrcColor | OneMinusSrcColor | DstColor | OneMinusDstColor
                  | SrcAlpha | OneMinusSrcAlpha | DstAlpha | OneMinusDstAlpha

  /** sf::BlendMode::Equation. */
  datatype Equation = Add | Subtract | ReverseSubtract

  /** sf::BlendMode: six fields, compared field by field. */
  datatype BlendMode = BlendMode(colorSrcFactor: Factor, colorDstFactor: Factor, colorEquation: Equation,
                                 alphaSrcFactor: Factor, alphaDstFactor: Factor, alphaEquation: Equation)

  /** sf::BlendAlpha, also the default blend mode of a RenderStates. */
  const BlendAlpha: BlendMode := BlendMode(SrcAlpha, OneMinusSrcAlpha, Add, One, OneMinusSrcAlpha, Add)

  /** The parts of sf::Texture the cache and the sprite look at: the logical cache id
      (never recycled), whether the texture is a RenderTexture's FBO attachment, its
      size, its power-of-two actual size and whether its pixels are flipped. */
  datatype Texture = Texture(cacheId: nat, fboAttachment: bool, size: (nat, nat),
                             actualSize: (nat, nat), pixelsFlipped: bool)

  /** The parts of sf::Shader the dispatcher looks at: its native program handle and
      whether it asked for its textures to be re-bound. */
  datatype Shader = Shader(handle: nat, textureBindRequired: bool)

  /** sf::RenderStates: borrowed texture, texture transform and shader are optional. */
  datatype RenderStates = RenderStates(transform: Transform, blendMode: BlendMode,
                                       texture: Option<Texture>, textureTransform: Option<Transform>,
                                       shader: Option<Shader>, shaderIsBound: bool, color: Color)

  /** RenderStates(): identity transform, alpha blending, no texture, no shader. */
  const DefaultStates: RenderStates := RenderStates(Identity, BlendAlpha, None, None, None, false, White)

  /** sf::Vertex. */
  datatype Vertex = Vertex(position: Vector2, color: Color, texCoords: Vector2)

  /** sf::PrimitiveType, in declaration order. */
  datatype PrimitiveType = Points | Lines | LineStrip | Triangles | TriangleStrip | TriangleFan | Quads

  /** The parts of sf::VertexBuffer a draw looks at. */
  datatype VertexBuffer = VertexBuffer(handle: nat, vertexCount: nat, primitiveType: PrimitiveType)

  /** sf::View, treated as an opaque value: the projection and viewport it stands for are
      applied as a whole by the ApplyView command. */
  datatype View = View(center: Vector2, size: Vector2, rotation: real, viewport: FloatRect)

  /** What the running OpenGL implementation offers (GLEXT_* flags, Shader::isAvailable,
      VertexBuffer::isAvailable). */
  datatype Caps = Caps(multitexture: bool, blendFuncSeparate: bool, blendMinmax: bool,
                       blendSubtract: bool, blendEquationSeparate: bool,
                       shaderAvailable: bool, vertexBufferAvailable: bool)

  /** A capability set in which every blend mode can be expressed exactly. */
  predicate FullBlendCaps(caps: Caps)
  {
    caps.blendFuncSeparate && caps.blendMinmax && caps.blendSubtract && caps.blendEquationSeparate
  }

  /** Where the vertex attribute pointers point. */
  datatype PointerSource = UserVertices | VertexCacheArray | BufferOffsets

  /** The graphics commands the core issues, in place of the OpenGL calls. Texture and
      shader identities are logical ids; 0 stands for "none" (unbind). */
  datatype Command =
    | ActivateTextureUnit0                       // glClientActiveTexture / glActiveTexture(GL_TEXTURE0)
    | SetBaselineStates                          // cull face, lighting, depth and alpha test off; 2D texturing and blending on
    | EnableClientArrays                         // vertex, colour and texture-coordinate arrays on
    | LoadIdentity                               // model-view matrix := identity
    | LoadModelMatrix(transform: Transform)      // model-view matrix := transform
    | ApplyView(view: View)                      // glViewport and projection matrix of a view
    | BlendFunc(src: nat, dst: nat)
    | BlendFuncSeparate(colorSrc: nat, colorDst: nat, alphaSrc: nat, alphaDst: nat)
    | BlendEquation(equation: nat)
    | BlendEquationSeparate(colorEquation: nat, alphaEquation: nat)
    | BindTexture(textureId: nat)                // Texture::bind(texture, Texture::Pixels)
    | BindTextureOnly(textureId: nat)            // Texture::bindOnly(texture)
    | LoadTextureMatrix(matrix: Matrix)          // texture matrix := matrix
    | BindShader(program: nat)                   // Shader::bind
    | BindShaderTexture(program: nat)            // Shader::bindCurrentTexture
    | BindShaderTextures(program: nat)           // Shader::bindTextures
    | SetColourUniform(program: nat, color: Color)
    | BindVertexBuffer(handle: nat)              // VertexBuffer::bind
    | SetTexCoordsArray(enabled: bool)           // glEnable/DisableClientState(GL_TEXTURE_COORD_ARRAY)
    | SetVertexPointers(source: PointerSource, texCoords: bool)
    | SetTexCoordPointer(source: PointerSource)
    | DrawArrays(mode: nat, first: nat, count: nat)
    | Clear(color: Color)                        // glClearColor + glClear
  {
    /** One of the calls applyBlendMode makes. */
    predicate IsBlend()
    {
      BlendFunc? || BlendFuncSeparate? || BlendEquation? || BlendEquationSeparate?
    }

    /** A (re)binding of a texture. */
    predicate IsTextureBind()
    {
      BindTexture? || BindTextureOnly?
    }

    /** Anything applyTexture emits. */
    predicate IsTexture()
    {
      BindTexture? || BindTextureOnly? || LoadTextureMatrix?
    }
  }
}
