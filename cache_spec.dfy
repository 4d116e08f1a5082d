/** A value-level description of what each step of RenderTarget's state cache does: the
    commands it issues and the cache record it leaves behind. The imperative methods in
    module RenderTargets are proved to do exactly this; the lemmas in CacheProperties and
    GlSemantics say what it means. */
module CacheSpec {
  import opened Graphics
  import opened GlConstants

  /** StatesCache::VertexCacheSize: draws of at most this many vertices are pre-transformed. */
  const VertexCacheSize: nat := 4

  /** The cacheable fields of RenderTarget::StatesCache (the scratch vertexCache aside).
      `lastColourProgram` is not a field of the original record: it is the correction of
      the colour-uniform elision (see ColourAppliedAsWritten), naming the shader program
      whose colour uniform `lastColor` was last sent to, if that is known. */
  datatype CacheFields = CacheFields(glStatesSet: bool, enable: bool, lastBlendMode: BlendMode,
                                     lastTextureId: nat, lastTextureMatrix: Matrix,
                                     lastProgram: nat, lastColor: Color, lastColourProgram: Option<nat>,
                                     lastVBO: nat, lastRenderTargetView: nat, useVertexCache: bool,
                                     texCoordsArrayEnabled: bool)

  /** The record setActive stores for a context that has none: glStatesSet and enable are
      false, lastBlendMode and lastColor are what sf::BlendMode and sf::Color construct by
      default (alpha blending, opaque black), and the plain integer and flag fields, which
      the code leaves uninitialised, are given fixed values here. */
  const NewCache: CacheFields := CacheFields(false, false, BlendAlpha, 0, ZeroMatrix, 0, Black, None, 0, 0, false, false)

  /** The cache entry of a context after setActive: created when absent, then with
      `enable` cleared when `clear` holds. */
  function ActivatedCache(c: Option<CacheFields>, clear: bool): CacheFields
  {
    var base := if c.Some? then c.value else NewCache;
    if clear then base.(enable := false) else base
  }

  /** The logical id a draw's texture is cached under (0 for none). */
  function TextureId(t: Option<Texture>): nat
  {
    if t.Some? then t.value.cacheId else 0
  }

  /** The 16 entries a draw's texture transform is cached under (all zeros for none). */
  function TextureMatrix(tt: Option<Transform>): Matrix
  {
    if tt.Some? then MatrixOf(tt.value) else ZeroMatrix
  }

  /** Whether a texture is a RenderTexture's FBO attachment. */
  predicate IsFboTexture(t: Option<Texture>)
  {
    t.Some? && t.value.fboAttachment
  }

  // ---------------------------------------------------------------- applyBlendMode

  /** The calls applyBlendMode makes, depending on what the driver offers. */
  function BlendCommands(caps: Caps, mode: BlendMode): seq<Command>
  {
    (if caps.blendFuncSeparate
     then [BlendFuncSeparate(FactorToGlConstant(mode.colorSrcFactor), FactorToGlConstant(mode.colorDstFactor),
                             FactorToGlConstant(mode.alphaSrcFactor), FactorToGlConstant(mode.alphaDstFactor))]
     else [BlendFunc(FactorToGlConstant(mode.colorSrcFactor), FactorToGlConstant(mode.colorDstFactor))])
    + (if caps.blendMinmax && caps.blendSubtract
       then (if caps.blendEquationSeparate
             then [BlendEquationSeparate(EquationToGlConstant(mode.colorEquation), EquationToGlConstant(mode.alphaEquation))]
             else [BlendEquation(EquationToGlConstant(mode.colorEquation))])
       else [])
  }

  // ---------------------------------------------------------------- applyTexture

  /** The calls applyTexture makes: with a texture transform it binds the texture
      (unless only the transform is to be applied) and loads the transform's matrix;
      without one it binds the texture in pixel coordinates. */
  function ApplyTextureCommands(states: RenderStates, transformOnly: bool): seq<Command>
  {
    if states.textureTransform.Some?
    then (if transformOnly then [] else [BindTextureOnly(TextureId(states.texture))])
         + [LoadTextureMatrix(MatrixOf(states.textureTransform.value))]
    else [BindTexture(TextureId(states.texture))]
  }

  /** The cache after applyTexture. */
  function ApplyTextureCache(c: CacheFields, states: RenderStates): CacheFields
  {
    c.(lastTextureId := TextureId(states.texture), lastTextureMatrix := TextureMatrix(states.textureTransform))
  }

  // ---------------------------------------------------------------- resetGLStates

  /** The calls resetGLStates makes once the target is active. */
  function ResetCommands(caps: Caps): seq<Command>
  {
    (if caps.multitexture then [ActivateTextureUnit0] else [])
    + [SetBaselineStates, LoadIdentity, EnableClientArrays]
    + BlendCommands(caps, BlendAlpha)
    + ApplyTextureCommands(DefaultStates, false)
    + (if caps.shaderAvailable then [BindShader(0)] else [])
    + (if caps.vertexBufferAvailable then [BindVertexBuffer(0)] else [])
  }

  /** The cache after resetGLStates, step by step as the code assigns it (setView's
      invalidation of the applied view included). */
  function ResetBaseline(c: CacheFields): CacheFields
  {
    var c1 := c.(glStatesSet := true);
    var c2 := c1.(lastBlendMode := BlendAlpha);
    var c3 := ApplyTextureCache(c2, DefaultStates);
    var c4 := c3.(texCoordsArrayEnabled := true, useVertexCache := false, lastVBO := 0, lastProgram := 0,
                  lastColourProgram := None);
    var c5 := c4.(lastRenderTargetView := 0);
    c5.(enable := true)
  }

  // ---------------------------------------------------------------- setupDraw

  /** The cache setupDraw works on: reset first if no baseline state was ever set. */
  function PreparedCache(c: CacheFields): CacheFields
  {
    if c.glStatesSet then c else ResetBaseline(c)
  }

  /** Model-view matrix: identity for pre-transformed vertices (only when not already in
      that mode), the draw's transform otherwise (applyTransform). */
  function TransformCommands(c: CacheFields, useVertexCache: bool, transform: Transform): seq<Command>
  {
    if useVertexCache then (if !c.enable || !c.useVertexCache then [LoadIdentity] else [])
    else if transform == Identity then [LoadIdentity]
    else [LoadModelMatrix(transform)]
  }

  /** applyCurrentView, issued when the cache is off or another target's view is applied. */
  function ViewCommands(c: CacheFields, targetId: nat, view: View): seq<Command>
  {
    if !c.enable || c.lastRenderTargetView != targetId then [ApplyView(view)] else []
  }

  function ViewCache(c: CacheFields, targetId: nat): CacheFields
  {
    if !c.enable || c.lastRenderTargetView != targetId then c.(lastRenderTargetView := targetId) else c
  }

  /** The blend mode is applied when the cache is off or the mode differs. */
  predicate BlendApplied(c: CacheFields, mode: BlendMode)
  {
    !c.enable || mode != c.lastBlendMode
  }

  function BlendPhaseCommands(c: CacheFields, caps: Caps, mode: BlendMode): seq<Command>
  {
    if BlendApplied(c, mode) then BlendCommands(caps, mode) else []
  }

  function BlendPhaseCache(c: CacheFields, mode: BlendMode): CacheFields
  {
    if BlendApplied(c, mode) then c.(lastBlendMode := mode) else c
  }

  /** The texture is re-applied unconditionally when the cache is off or the texture is an
      FBO attachment. */
  predicate TextureForced(c: CacheFields, states: RenderStates)
  {
    !c.enable || IsFboTexture(states.texture)
  }

  /** Otherwise it is re-applied when its id or its 16-entry matrix differ from the cache. */
  predicate SameTextureTransform(c: CacheFields, states: RenderStates)
  {
    TextureId(states.texture) == c.lastTextureId && c.lastTextureMatrix == TextureMatrix(states.textureTransform)
  }

  function TexturePhaseCommands(c: CacheFields, states: RenderStates): seq<Command>
  {
    if TextureForced(c, states) then ApplyTextureCommands(states, false)
    else if TextureId(states.texture) != c.lastTextureId || !SameTextureTransform(c, states)
    then ApplyTextureCommands(states, c.enable && TextureId(states.texture) == c.lastTextureId)
    else []
  }

  function TexturePhaseCache(c: CacheFields, states: RenderStates): CacheFields
  {
    if TextureForced(c, states) then ApplyTextureCache(c, states)
    else if TextureId(states.texture) != c.lastTextureId || !SameTextureTransform(c, states)
    then ApplyTextureCache(c, states)
    else c
  }

  /** `textureChanged` of setupDraw: the texture itself (not only its transform) was re-bound
      on the diffing path. */
  predicate TextureChanged(c: CacheFields, states: RenderStates)
  {
    !TextureForced(c, states)
    && (TextureId(states.texture) != c.lastTextureId || !SameTextureTransform(c, states))
    && !(c.enable && TextureId(states.texture) == c.lastTextureId)
  }

  /** Whether the caller pre-bound a shader whose program differs from the cached one. */
  predicate ShaderChanged(c: CacheFields, states: RenderStates)
  {
    states.shader.Some? && states.shaderIsBound && states.shader.value.handle != c.lastProgram
  }

  /** Shader handling: for a pre-bound shader its texture bindings are refreshed when
      needed; an unbound shader is bound for this draw. */
  function ShaderPhaseCommands(c: CacheFields, states: RenderStates, textureChanged: bool): seq<Command>
  {
    if states.shader.Some? && states.shaderIsBound then
      var s := states.shader.value;
      var changed := s.handle != c.lastProgram;
      (if !c.enable || changed || textureChanged || s.textureBindRequired then [BindShaderTexture(s.handle)] else [])
      + (if !c.enable || changed || s.textureBindRequired then [BindShaderTextures(s.handle)] else [])
    else if states.shader.Some? then [BindShader(states.shader.value.handle)]
    else []
  }

  function ShaderPhaseCache(c: CacheFields, states: RenderStates): CacheFields
  {
    if states.shader.Some? && states.shaderIsBound then c.(lastProgram := states.shader.value.handle)
    else if states.shader.None? then c.(lastProgram := 0)
    else c
  }

  /** The colour test as the code writes it: the uniform is set when a shader is used and
      the cache is off, the colour differs from the cached one, or a different pre-bound
      shader is in use. A shader that is not pre-bound never counts as changed, since
      lastProgram only follows pre-bound shaders. */
  predicate ColourAppliedAsWritten(c: CacheFields, states: RenderStates)
  {
    states.shader.Some? && (!c.enable || states.color != c.lastColor || ShaderChanged(c, states))
  }

  /** The corrected test: also set the uniform when it was last sent to another program
      (or it is not known where it went). */
  predicate ColourApplied(c: CacheFields, states: RenderStates)
  {
    states.shader.Some?
    && (!c.enable || states.color != c.lastColor || c.lastColourProgram != Some(states.shader.value.handle))
  }

  function ColourPhaseCommands(c: CacheFields, states: RenderStates): seq<Command>
  {
    if ColourApplied(c, states) then [SetColourUniform(states.shader.value.handle, states.color)] else []
  }

  /** The corrected record: the colour and the program it went to, or, when the cache is
      off and no colour is sent, no claim about where the cached colour is held. */
  function ColourPhaseCache(c: CacheFields, states: RenderStates): CacheFields
  {
    if ColourApplied(c, states)
    then c.(lastColor := states.color, lastColourProgram := Some(states.shader.value.handle))
    else if !c.enable then c.(lastColourProgram := None)
    else c
  }

  /** Everything setupDraw issues, in order. */
  function SetupDrawCommands(c: CacheFields, caps: Caps, targetId: nat, view: View,
                             useVertexCache: bool, states: RenderStates): seq<Command>
  {
    var p := PreparedCache(c);
    (if c.glStatesSet then [] else ResetCommands(caps))
    + TransformCommands(p, useVertexCache, states.transform)
    + ViewCommands(p, targetId, view)
    + BlendPhaseCommands(p, caps, states.blendMode)
    + TexturePhaseCommands(p, states)
    + ShaderPhaseCommands(p, states, TextureChanged(p, states))
    + ColourPhaseCommands(p, states)
  }

  /** The cache after setupDraw. No phase changes a field a later phase compares, so each
      phase sees the fields as they were on entry. */
  function SetupDrawCache(c: CacheFields, targetId: nat, states: RenderStates): CacheFields
  {
    var p := PreparedCache(c);
    var c1 := ViewCache(p, targetId);
    var c2 := BlendPhaseCache(c1, states.blendMode);
    var c3 := TexturePhaseCache(c2, states);
    var c4 := ShaderPhaseCache(c3, states);
    ColourPhaseCache(c4, states)
  }

  // ---------------------------------------------------------------- clear

  /** What clear issues: the texture is unbound first, then the colour buffer cleared. */
  function ClearCommands(color: Color): seq<Command>
  {
    ApplyTextureCommands(DefaultStates, false) + [Clear(color)]
  }

  // ---------------------------------------------------------------- cleanupDraw

  function CleanupCommands(states: RenderStates): seq<Command>
  {
    (if states.shader.Some? && !states.shaderIsBound then [BindShader(0)] else [])
    + (if IsFboTexture(states.texture) then ApplyTextureCommands(DefaultStates, false) else [])
  }

  function CleanupCache(c: CacheFields, states: RenderStates): CacheFields
  {
    var c1 := if IsFboTexture(states.texture) then ApplyTextureCache(c, DefaultStates) else c;
    c1.(enable := true)
  }

  // ---------------------------------------------------------------- draw (vertex list)

  /** Pre-transform is used iff the draw is small enough for the vertex cache. */
  predicate UsesVertexCache(vertexCount: nat)
  {
    vertexCount <= VertexCacheSize
  }

  /** The texture-coordinate array is needed with a texture or a shader. */
  predicate NeedsTexCoords(states: RenderStates)
  {
    states.texture.Some? || states.shader.Some?
  }

  /** What draw(vertices, ...) issues between setupDraw and the draw call; `s` is the cache
      as setupDraw left it. */
  function VertexPrepareCommands(s: CacheFields, useVertexCache: bool, enableTexCoords: bool): seq<Command>
  {
    (if !s.enable || s.lastVBO != 0 then [BindVertexBuffer(0)] else [])
    + (if !s.enable || enableTexCoords != s.texCoordsArrayEnabled then [SetTexCoordsArray(enableTexCoords)] else [])
    + (if !s.enable || !useVertexCache || !s.useVertexCache
       then [SetVertexPointers(if useVertexCache then VertexCacheArray else UserVertices, enableTexCoords)]
       else if enableTexCoords && !s.texCoordsArrayEnabled then [SetTexCoordPointer(VertexCacheArray)]
       else [])
  }

  /** Everything a vertex-list draw of `count` > 0 vertices issues on an active target whose
      context cache is `a`. */
  function DrawVerticesCommands(a: CacheFields, caps: Caps, targetId: nat, view: View,
                                count: nat, primitive: PrimitiveType, states: RenderStates): seq<Command>
  {
    var useVC := UsesVertexCache(count);
    SetupDrawCommands(a, caps, targetId, view, useVC, states)
    + VertexPrepareCommands(SetupDrawCache(a, targetId, states), useVC, NeedsTexCoords(states))
    + [DrawArrays(PrimitiveToGlMode(primitive), 0, count)]
    + CleanupCommands(states)
  }

  /** The cache after such a draw. */
  function DrawVerticesCache(a: CacheFields, targetId: nat, count: nat, states: RenderStates): CacheFields
  {
    var s := SetupDrawCache(a, targetId, states);
    var s1 := if !s.enable || s.lastVBO != 0 then s.(lastVBO := 0) else s;
    CleanupCache(s1, states).(useVertexCache := UsesVertexCache(count),
                              texCoordsArrayEnabled := NeedsTexCoords(states))
  }

  // ---------------------------------------------------------------- draw (vertex buffer)

  /** The sanity check and clamp of draw(vertexBuffer, first, count): None when the draw is
      skipped, otherwise the number of vertices drawn. */
  function ClampedCount(buffer: VertexBuffer, firstVertex: nat, vertexCount: nat): Option<nat>
  {
    if firstVertex > buffer.vertexCount then None
    else
      var n := if vertexCount < buffer.vertexCount - firstVertex then vertexCount else buffer.vertexCount - firstVertex;
      if n == 0 || buffer.handle == 0 then None else Some(n)
  }

  function BufferPrepareCommands(s: CacheFields, buffer: VertexBuffer): seq<Command>
  {
    (if !s.enable || s.lastVBO != buffer.handle then [BindVertexBuffer(buffer.handle), SetVertexPointers(BufferOffsets, true)] else [])
    + (if !s.enable || !s.texCoordsArrayEnabled then [SetTexCoordsArray(true)] else [])
  }

  function DrawBufferCommands(a: CacheFields, caps: Caps, targetId: nat, view: View, buffer: VertexBuffer,
                              firstVertex: nat, count: nat, states: RenderStates): seq<Command>
  {
    SetupDrawCommands(a, caps, targetId, view, false, states)
    + BufferPrepareCommands(SetupDrawCache(a, targetId, states), buffer)
    + [DrawArrays(PrimitiveToGlMode(buffer.primitiveType), firstVertex, count)]
    + CleanupCommands(states)
  }

  function DrawBufferCache(a: CacheFields, targetId: nat, buffer: VertexBuffer, states: RenderStates): CacheFields
  {
    var s := SetupDrawCache(a, targetId, states);
    var s1 := if !s.enable || s.lastVBO != buffer.handle then s.(lastVBO := buffer.handle) else s;
    CleanupCache(s1, states).(useVertexCache := false, texCoordsArrayEnabled := true)
  }

  /** Proof plumbing, not a claim about the model: appending two runs of commands one after
      the other appends their concatenation. */
  lemma Appended(t: seq<Command>, a: seq<Command>, b: seq<Command>)
    ensures t + a + b == t + (a + b)
  {
  }

  /** Proof plumbing, not a claim about the model: four runs of commands concatenated,
      regrouped behind the first. */
  lemma Regrouped(a: seq<Command>, b: seq<Command>, c: seq<Command>, d: seq<Command>)
    ensures a + b + c + d == a + (b + c + d)
  {
  }

  /** Proof plumbing, not a claim about the model: seven runs of commands concatenated,
      regrouped behind the first. */
  lemma RegroupedSeven(a: seq<Command>, b: seq<Command>, c: seq<Command>, d: seq<Command>,
                       e: seq<Command>, f: seq<Command>, h: seq<Command>)
    ensures a + b + c + d + e + f + h == a + (b + c + d + e + f + h)
  {
  }
}
