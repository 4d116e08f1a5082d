/** What the issued commands do to the graphics context, and the soundness of the cache:
    whenever the cache is enabled it mirrors the context's state, every draw is issued
    with the state its RenderStates asks for, and every draw leaves the cache mirroring
    the context again. A false cache hit would break exactly these theorems. */
module GlSemantics {
  import opened Graphics
  import opened GlConstants
  import opened CacheSpec
  import opened CacheProperties

  /** The texture matrix the context holds: either the one Texture::bind loads for a
      texture in pixel coordinates, or one loaded explicitly. */
  datatype TextureMatrixState = PixelsOf(textureId: nat) | Loaded(matrix: Matrix)

  /** The blend function and equation constants the context holds. */
  datatype GlBlend = GlBlend(colorSrc: nat, colorDst: nat, alphaSrc: nat, alphaDst: nat,
                             colorEquation: nat, alphaEquation: nat)

  /** Where a vertex attribute array is read from: a client-side array, or the vertex
      buffer that was bound when the pointer was set. */
  datatype ArraySource = FromClient(source: PointerSource) | FromBuffer(handle: nat)

  /** The part of the context's state that the cache tracks; `colourUniform` holds the
      colour uniform of each shader program that was sent one, `pointers` the source of
      the position and colour arrays and `texCoordPointer` that of the texture
      coordinates. */
  datatype GlState = GlState(blend: GlBlend, texture: nat, textureMatrix: TextureMatrixState,
                             model: Transform, vbo: nat, texCoordsArray: bool, program: nat,
                             colourUniform: map<nat, Color>, view: Option<View>,
                             pointers: ArraySource, texCoordPointer: ArraySource)

  /** glVertexPointer and its kind read from the bound vertex buffer when there is one. */
  function ArrayAt(g: GlState, source: PointerSource): ArraySource
  {
    if g.vbo == 0 then FromClient(source) else FromBuffer(g.vbo)
  }

  /** The effect of one command on the context. */
  function Step(g: GlState, cmd: Command): GlState
  {
    match cmd
    case LoadIdentity => g.(model := Identity)
    case LoadModelMatrix(t) => g.(model := t)
    case ApplyView(v) => g.(view := Some(v))
    case BlendFunc(s, d) => g.(blend := g.blend.(colorSrc := s, colorDst := d, alphaSrc := s, alphaDst := d))
    case BlendFuncSeparate(cs, cd, asf, adf) => g.(blend := g.blend.(colorSrc := cs, colorDst := cd, alphaSrc := asf, alphaDst := adf))
    case BlendEquation(e) => g.(blend := g.blend.(colorEquation := e, alphaEquation := e))
    case BlendEquationSeparate(ce, ae) => g.(blend := g.blend.(colorEquation := ce, alphaEquation := ae))
    case BindTexture(id) => g.(texture := id, textureMatrix := PixelsOf(id))
    case BindTextureOnly(id) => g.(texture := id)
    case LoadTextureMatrix(m) => g.(textureMatrix := Loaded(m))
    case BindShader(p) => g.(program := p)
    case SetColourUniform(p, col) => g.(colourUniform := g.colourUniform[p := col])
    case BindVertexBuffer(h) => g.(vbo := h)
    case SetTexCoordsArray(e) => g.(texCoordsArray := e)
    case EnableClientArrays => g.(texCoordsArray := true)
    case SetVertexPointers(src, withTexCoords) =>
      g.(pointers := ArrayAt(g, src), texCoordPointer := if withTexCoords then ArrayAt(g, src) else g.texCoordPointer)
    case SetTexCoordPointer(src) => g.(texCoordPointer := ArrayAt(g, src))
    case _ => g
  }

  /** The effect of a command sequence, in order. */
  function Exec(g: GlState, cmds: seq<Command>): GlState
    decreases |cmds|
  {
    if cmds == [] then g else Exec(Step(g, cmds[0]), cmds[1..])
  }

  lemma {:induction false} ExecAppend(g: GlState, a: seq<Command>, b: seq<Command>)
    ensures Exec(g, a + b) == Exec(Exec(g, a), b)
    decreases |a|
  {
    if a == [] {
      assert a + b == b;
    } else {
      assert (a + b)[1..] == a[1..] + b;
      ExecAppend(Step(g, a[0]), a[1..], b);
    }
  }

  lemma ExecOne(g: GlState, c: Command)
    ensures Exec(g, [c]) == Step(g, c)
  {
    assert [c][1..] == [];
  }

  lemma ExecTwo(g: GlState, c: Command, d: Command)
    ensures Exec(g, [c, d]) == Step(Step(g, c), d)
  {
    assert [c, d] == [c] + [d];
    ExecAppend(g, [c], [d]);
    ExecOne(g, c);
    ExecOne(Step(g, c), d);
  }

  /** The constants a blend mode stands for. */
  function GlBlendOf(mode: BlendMode): GlBlend
  {
    GlBlend(FactorToGlConstant(mode.colorSrcFactor), FactorToGlConstant(mode.colorDstFactor),
            FactorToGlConstant(mode.alphaSrcFactor), FactorToGlConstant(mode.alphaDstFactor),
            EquationToGlConstant(mode.colorEquation), EquationToGlConstant(mode.alphaEquation))
  }

  /** The texture matrix a cache entry claims is loaded. */
  function CachedTextureMatrix(c: CacheFields): TextureMatrixState
  {
    if c.lastTextureMatrix == ZeroMatrix then PixelsOf(c.lastTextureId) else Loaded(c.lastTextureMatrix)
  }

  /** The texture matrix a draw asks for. */
  function WantedTextureMatrix(states: RenderStates): TextureMatrixState
  {
    if states.textureTransform.Some? then Loaded(MatrixOf(states.textureTransform.value))
    else PixelsOf(TextureId(states.texture))
  }

  /** The cached colour is held by the program it was last sent to. */
  predicate ColourMirrors(c: CacheFields, g: GlState)
  {
    c.lastColourProgram.Some? ==>
      c.lastColourProgram.value in g.colourUniform && g.colourUniform[c.lastColourProgram.value] == c.lastColor
  }

  /** The attribute pointers are where the cache's record says the last draw left them:
      in the bound vertex buffer, or in the context's vertex cache array. */
  predicate PointersMirror(c: CacheFields, g: GlState)
  {
    && (c.lastVBO != 0 ==> g.pointers == FromBuffer(c.lastVBO) && g.texCoordPointer == FromBuffer(c.lastVBO))
    && (c.useVertexCache ==>
          && g.pointers == FromClient(VertexCacheArray)
          && (c.texCoordsArrayEnabled ==> g.texCoordPointer == FromClient(VertexCacheArray)))
  }

  /** An enabled cache that names this target as the owner of the applied view tells the
      truth about the view. */
  predicate ViewMirrors(c: CacheFields, g: GlState, targetId: nat, view: View)
  {
    c.enable && c.lastRenderTargetView == targetId ==> g.view == Some(view)
  }

  /** An enabled cache tells the truth about the context. */
  predicate Mirrors(c: CacheFields, g: GlState)
  {
    c.enable ==>
      && g.blend == GlBlendOf(c.lastBlendMode)
      && g.texture == c.lastTextureId
      && g.textureMatrix == CachedTextureMatrix(c)
      && g.vbo == c.lastVBO
      && g.texCoordsArray == c.texCoordsArrayEnabled
      && (c.useVertexCache ==> g.model == Identity)
      && ColourMirrors(c, g)
      && PointersMirror(c, g)
  }

  /** The shader of a draw, if any, holds the draw's colour. */
  predicate ShaderColourCorrect(g: GlState, states: RenderStates)
  {
    states.shader.Some? ==>
      states.shader.value.handle in g.colourUniform && g.colourUniform[states.shader.value.handle] == states.color
  }

  /** The context is in the state a draw with these RenderStates through this view needs;
      a pre-bound program is the caller's, so only one the draw binds itself is stated. */
  predicate DrawStateCorrect(g: GlState, states: RenderStates, useVertexCache: bool, view: View)
  {
    && g.view == Some(view)
    && (states.shader.Some? && !states.shaderIsBound ==> g.program == states.shader.value.handle)
    && g.blend == GlBlendOf(states.blendMode)
    && g.texture == TextureId(states.texture)
    && g.textureMatrix == WantedTextureMatrix(states)
    && g.model == (if useVertexCache then Identity else states.transform)
    && ShaderColourCorrect(g, states)
  }

  lemma BlendCommandsEffect(g: GlState, caps: Caps, mode: BlendMode)
    requires FullBlendCaps(caps)
    ensures Exec(g, BlendCommands(caps, mode)) == g.(blend := GlBlendOf(mode))
  {
    var f := BlendFuncSeparate(FactorToGlConstant(mode.colorSrcFactor), FactorToGlConstant(mode.colorDstFactor),
                               FactorToGlConstant(mode.alphaSrcFactor), FactorToGlConstant(mode.alphaDstFactor));
    var e := BlendEquationSeparate(EquationToGlConstant(mode.colorEquation), EquationToGlConstant(mode.alphaEquation));
    assert BlendCommands(caps, mode) == [f, e];
    ExecTwo(g, f, e);
  }

  lemma ApplyTextureEffect(g: GlState, states: RenderStates, transformOnly: bool)
    ensures var g' := Exec(g, ApplyTextureCommands(states, transformOnly));
      && g'.textureMatrix == WantedTextureMatrix(states)
      && g'.texture == (if states.textureTransform.Some? && transformOnly then g.texture else TextureId(states.texture))
      && g' == g.(texture := g'.texture, textureMatrix := g'.textureMatrix)
  {
    var id := TextureId(states.texture);
    if states.textureTransform.Some? {
      var m := MatrixOf(states.textureTransform.value);
      if transformOnly {
        assert ApplyTextureCommands(states, transformOnly) == [LoadTextureMatrix(m)];
        ExecOne(g, LoadTextureMatrix(m));
      } else {
        assert ApplyTextureCommands(states, transformOnly) == [BindTextureOnly(id), LoadTextureMatrix(m)];
        ExecTwo(g, BindTextureOnly(id), LoadTextureMatrix(m));
      }
    } else {
      ExecOne(g, BindTexture(id));
    }
  }

  /** What resetGLStates' commands do to the context. */
  lemma ResetEffect(g: GlState, caps: Caps)
    requires FullBlendCaps(caps)
    ensures var g' := Exec(g, ResetCommands(caps));
      && g'.model == Identity && g'.texCoordsArray
      && g'.blend == GlBlendOf(BlendAlpha)
      && g'.texture == 0 && g'.textureMatrix == PixelsOf(0)
      && g'.vbo == (if caps.vertexBufferAvailable then 0 else g.vbo)
      && g'.view == g.view && g'.pointers == g.pointers
  {
    var states := (if caps.multitexture then [ActivateTextureUnit0] else []) + [SetBaselineStates, LoadIdentity, EnableClientArrays]
                  + BlendCommands(caps, BlendAlpha) + ApplyTextureCommands(DefaultStates, false);
    var unbind := (if caps.shaderAvailable then [BindShader(0)] else []) + (if caps.vertexBufferAvailable then [BindVertexBuffer(0)] else []);
    Appended(states, if caps.shaderAvailable then [BindShader(0)] else [], if caps.vertexBufferAvailable then [BindVertexBuffer(0)] else []);
    ResetStatesEffect(g, caps);
    ExecAppend(g, states, unbind);
    UnbindEffect(Exec(g, states), caps);
  }

  /** The first part of resetGLStates: baseline states, alpha blending, no texture. */
  lemma ResetStatesEffect(g: GlState, caps: Caps)
    requires FullBlendCaps(caps)
    ensures var g' := Exec(g, (if caps.multitexture then [ActivateTextureUnit0] else []) + [SetBaselineStates, LoadIdentity, EnableClientArrays]
                              + BlendCommands(caps, BlendAlpha) + ApplyTextureCommands(DefaultStates, false));
      && g'.model == Identity && g'.texCoordsArray
      && g'.blend == GlBlendOf(BlendAlpha)
      && g'.texture == 0 && g'.textureMatrix == PixelsOf(0)
      && g'.vbo == g.vbo
      && g'.view == g.view && g'.pointers == g.pointers
  {
    var pre := (if caps.multitexture then [ActivateTextureUnit0] else []);
    var base := [SetBaselineStates, LoadIdentity, EnableClientArrays];
    var blend := BlendCommands(caps, BlendAlpha);
    var tex := ApplyTextureCommands(DefaultStates, false);
    if caps.multitexture { ExecOne(g, ActivateTextureUnit0); }
    assert Exec(g, pre) == g;
    BaseEffect(g);
    ExecAppend(g, pre, base);
    var g1 := Exec(g, base);
    BlendCommandsEffect(g1, caps, BlendAlpha);
    ExecAppend(g, pre + base, blend);
    var g2 := Exec(g1, blend);
    ApplyTextureEffect(g2, DefaultStates, false);
    ExecAppend(g, pre + base + blend, tex);
  }

  /** The end of resetGLStates: unbinding the program and the vertex buffer. */
  lemma UnbindEffect(g: GlState, caps: Caps)
    ensures var g' := Exec(g, (if caps.shaderAvailable then [BindShader(0)] else []) + (if caps.vertexBufferAvailable then [BindVertexBuffer(0)] else []));
      g' == g.(program := g'.program, vbo := if caps.vertexBufferAvailable then 0 else g.vbo)
  {
    var sh := (if caps.shaderAvailable then [BindShader(0)] else []);
    var vb := (if caps.vertexBufferAvailable then [BindVertexBuffer(0)] else []);
    if caps.shaderAvailable { ExecOne(g, BindShader(0)); }
    ExecAppend(g, sh, vb);
    var g4 := Exec(g, sh);
    if caps.vertexBufferAvailable { ExecOne(g4, BindVertexBuffer(0)); }
  }

  lemma BaseEffect(g: GlState)
    ensures Exec(g, [SetBaselineStates, LoadIdentity, EnableClientArrays])
         == g.(model := Identity, texCoordsArray := true)
  {
    assert [SetBaselineStates, LoadIdentity, EnableClientArrays] == [SetBaselineStates] + [LoadIdentity, EnableClientArrays];
    ExecAppend(g, [SetBaselineStates], [LoadIdentity, EnableClientArrays]);
    ExecOne(g, SetBaselineStates);
    ExecTwo(g, LoadIdentity, EnableClientArrays);
  }

  /** resetGLStates leaves a cache that mirrors the context (the vertex-buffer binding is
      only known when that capability exists or nothing was ever bound). */
  lemma ResetSound(c: CacheFields, g: GlState, caps: Caps)
    requires FullBlendCaps(caps)
    requires caps.vertexBufferAvailable || g.vbo == 0
    ensures Mirrors(ResetBaseline(c), Exec(g, ResetCommands(caps)))
    ensures Exec(g, ResetCommands(caps)).model == Identity
    ensures Exec(g, ResetCommands(caps)).view == g.view
  {
    ResetEffect(g, caps);
  }

  // ---------------------------------------------------------------- setupDraw, phase by phase

  lemma TransformEffect(g: GlState, c: CacheFields, useVertexCache: bool, transform: Transform)
    requires Mirrors(c, g)
    ensures var g' := Exec(g, TransformCommands(c, useVertexCache, transform));
      && g' == g.(model := g'.model)
      && g'.model == (if useVertexCache then Identity else transform)
  {
    var cmds := TransformCommands(c, useVertexCache, transform);
    if cmds != [] { ExecOne(g, cmds[0]); assert cmds == [cmds[0]]; }
  }

  lemma ViewEffect(g: GlState, c: CacheFields, targetId: nat, view: View)
    requires ViewMirrors(c, g, targetId, view)
    ensures var g' := Exec(g, ViewCommands(c, targetId, view));
      g' == g.(view := Some(view))
  {
    var cmds := ViewCommands(c, targetId, view);
    if cmds != [] { ExecOne(g, cmds[0]); }
  }

  lemma BlendPhaseEffect(g: GlState, c: CacheFields, caps: Caps, mode: BlendMode)
    requires FullBlendCaps(caps)
    requires c.enable ==> g.blend == GlBlendOf(c.lastBlendMode)
    ensures Exec(g, BlendPhaseCommands(c, caps, mode)) == g.(blend := GlBlendOf(mode))
  {
    if BlendApplied(c, mode) { BlendCommandsEffect(g, caps, mode); }
  }

  /** The texture phase leaves the texture and the texture matrix the draw asks for; in the
      case where it binds nothing, the cache's mirror of the context already holds them. */
  lemma TexturePhaseEffect(g: GlState, c: CacheFields, states: RenderStates)
    requires c.enable ==> g.texture == c.lastTextureId && g.textureMatrix == CachedTextureMatrix(c)
    ensures var g' := Exec(g, TexturePhaseCommands(c, states));
      && g' == g.(texture := g'.texture, textureMatrix := g'.textureMatrix)
      && g'.texture == TextureId(states.texture)
      && g'.textureMatrix == WantedTextureMatrix(states)
  {
    if TextureForced(c, states) {
      ApplyTextureEffect(g, states, false);
    } else if TextureId(states.texture) != c.lastTextureId || !SameTextureTransform(c, states) {
      ApplyTextureEffect(g, states, c.enable && TextureId(states.texture) == c.lastTextureId);
    } else if states.textureTransform.Some? {
      assert c.lastTextureMatrix == MatrixOf(states.textureTransform.value);
    }
  }

  /** Commands that only bind shaders change nothing but the program. */
  lemma {:induction false} ProgramOnlyEffect(g: GlState, cmds: seq<Command>)
    requires forall i :: 0 <= i < |cmds| ==>
      cmds[i].BindShader? || cmds[i].BindShaderTexture? || cmds[i].BindShaderTextures?
    ensures Exec(g, cmds) == g.(program := Exec(g, cmds).program)
    decreases |cmds|
  {
    if cmds != [] {
      ProgramOnlyEffect(Step(g, cmds[0]), cmds[1..]);
    }
  }

  lemma ShaderPhaseEffect(g: GlState, c: CacheFields, states: RenderStates, textureChanged: bool)
    ensures var g' := Exec(g, ShaderPhaseCommands(c, states, textureChanged));
      && g' == g.(program := g'.program)
      && (states.shader.Some? && !states.shaderIsBound ==> g'.program == states.shader.value.handle)
  {
    ProgramOnlyEffect(g, ShaderPhaseCommands(c, states, textureChanged));
    if states.shader.Some? && !states.shaderIsBound {
      ExecOne(g, BindShader(states.shader.value.handle));
    }
  }

  /** The colour phase leaves the draw's colour in the draw's shader, and the cache's
      record of where the colour was sent stays true. */
  lemma ColourPhaseEffect(g: GlState, c: CacheFields, states: RenderStates)
    requires c.enable ==> ColourMirrors(c, g)
    ensures var g' := Exec(g, ColourPhaseCommands(c, states));
      && g' == g.(colourUniform := g'.colourUniform)
      && ShaderColourCorrect(g', states)
      && ColourMirrors(ColourPhaseCache(c, states), g')
  {
    if ColourApplied(c, states) {
      ExecOne(g, SetColourUniform(states.shader.value.handle, states.color));
    }
  }

  /** setupDraw on a cache that mirrors the context, and whose claim about this target's
      view holds (checked on the record it works from, after the reset if one is due),
      issues commands after which the context is in the state the draw asks for; the
      vertex-buffer binding, the texture coordinate array and the attribute pointers are
      still those the resulting cache records. */
  lemma SetupDrawSound(c: CacheFields, g: GlState, caps: Caps, targetId: nat, view: View,
                       useVertexCache: bool, states: RenderStates)
    requires FullBlendCaps(caps)
    requires caps.vertexBufferAvailable || g.vbo == 0
    requires Mirrors(c, g) && ViewMirrors(PreparedCache(c), g, targetId, view)
    ensures var g' := Exec(g, SetupDrawCommands(c, caps, targetId, view, useVertexCache, states));
      var s := SetupDrawCache(c, targetId, states);
      && DrawStateCorrect(g', states, useVertexCache, view)
      && ColourMirrors(s, g')
      && (s.enable ==> g'.vbo == s.lastVBO && g'.texCoordsArray == s.texCoordsArrayEnabled && PointersMirror(s, g'))
  {
    var p := PreparedCache(c);
    var r := if c.glStatesSet then [] else ResetCommands(caps);
    var rest := SetupPhases(p, caps, targetId, view, useVertexCache, states);
    SetupDrawSplit(c, caps, targetId, view, useVertexCache, states);
    if !c.glStatesSet { ResetSound(c, g, caps); }
    var g0 := Exec(g, r);
    assert Mirrors(p, g0);
    PhasesSound(p, g0, caps, targetId, view, useVertexCache, states);
    ExecAppend(g, r, rest);
    SetupDrawCacheRecords(c, targetId, states);
    ColourPhaseCacheAgrees(c, targetId, states);
    ArraysCarried(p, SetupDrawCache(c, targetId, states), g0, Exec(g0, rest));
  }

  /** The commands setupDraw issues once the reset, if one is due, is behind it. */
  function SetupPhases(p: CacheFields, caps: Caps, targetId: nat, view: View,
                       useVertexCache: bool, states: RenderStates): seq<Command>
  {
    TransformCommands(p, useVertexCache, states.transform)
    + ViewCommands(p, targetId, view)
    + BlendPhaseCommands(p, caps, states.blendMode)
    + TexturePhaseCommands(p, states)
    + ShaderPhaseCommands(p, states, TextureChanged(p, states))
    + ColourPhaseCommands(p, states)
  }

  lemma SetupDrawSplit(c: CacheFields, caps: Caps, targetId: nat, view: View,
                       useVertexCache: bool, states: RenderStates)
    ensures SetupDrawCommands(c, caps, targetId, view, useVertexCache, states)
         == (if c.glStatesSet then [] else ResetCommands(caps))
            + SetupPhases(PreparedCache(c), caps, targetId, view, useVertexCache, states)
  {
    var p := PreparedCache(c);
    var r := if c.glStatesSet then [] else ResetCommands(caps);
    var t := TransformCommands(p, useVertexCache, states.transform);
    var v := ViewCommands(p, targetId, view);
    var b := BlendPhaseCommands(p, caps, states.blendMode);
    var x := TexturePhaseCommands(p, states);
    var sh := ShaderPhaseCommands(p, states, TextureChanged(p, states));
    var co := ColourPhaseCommands(p, states);
    assert SetupDrawCommands(c, caps, targetId, view, useVertexCache, states) == r + t + v + b + x + sh + co;
    RegroupedSeven(r, t, v, b, x, sh, co);
  }

  /** The phases of setupDraw after the reset, on a record that mirrors the context: the
      context ends in the state the draw asks for, with the vertex-buffer binding and the
      attribute arrays untouched. */
  lemma PhasesSound(p: CacheFields, g0: GlState, caps: Caps, targetId: nat, view: View,
                    useVertexCache: bool, states: RenderStates)
    requires FullBlendCaps(caps)
    requires Mirrors(p, g0) && ViewMirrors(p, g0, targetId, view)
    ensures var g' := Exec(g0, SetupPhases(p, caps, targetId, view, useVertexCache, states));
      && DrawStateCorrect(g', states, useVertexCache, view)
      && g'.vbo == g0.vbo && g'.texCoordsArray == g0.texCoordsArray
      && g'.pointers == g0.pointers && g'.texCoordPointer == g0.texCoordPointer
      && ColourMirrors(ColourPhaseCache(p, states), g')
  {
    var t := TransformCommands(p, useVertexCache, states.transform);
    var v := ViewCommands(p, targetId, view);
    var b := BlendPhaseCommands(p, caps, states.blendMode);
    var x := TexturePhaseCommands(p, states);
    var sh := ShaderPhaseCommands(p, states, TextureChanged(p, states));
    var co := ColourPhaseCommands(p, states);
    TransformEffect(g0, p, useVertexCache, states.transform);
    var g1 := Exec(g0, t);
    ViewEffect(g1, p, targetId, view);
    var g2 := Exec(g1, v);
    BlendPhaseEffect(g2, p, caps, states.blendMode);
    var g3 := Exec(g2, b);
    TexturePhaseEffect(g3, p, states);
    var g4 := Exec(g3, x);
    ShaderPhaseEffect(g4, p, states, TextureChanged(p, states));
    var g5 := Exec(g4, sh);
    ColourPhaseEffect(g5, p, states);
    ExecAppend(g0, t, v);
    ExecAppend(g0, t + v, b);
    ExecAppend(g0, t + v + b, x);
    ExecAppend(g0, t + v + b + x, sh);
    ExecAppend(g0, t + v + b + x + sh, co);
  }

  /** A record whose vertex-array fields are those of one that mirrors the context, over a
      context whose arrays are unchanged, mirrors those arrays too. */
  lemma ArraysCarried(p: CacheFields, s: CacheFields, g0: GlState, g': GlState)
    requires Mirrors(p, g0)
    requires s.enable == p.enable && s.lastVBO == p.lastVBO && s.useVertexCache == p.useVertexCache
             && s.texCoordsArrayEnabled == p.texCoordsArrayEnabled
    requires g'.vbo == g0.vbo && g'.texCoordsArray == g0.texCoordsArray
             && g'.pointers == g0.pointers && g'.texCoordPointer == g0.texCoordPointer
    ensures s.enable ==> g'.vbo == s.lastVBO && g'.texCoordsArray == s.texCoordsArrayEnabled && PointersMirror(s, g')
  {
  }

  // ---------------------------------------------------------------- the draw entry points

  lemma VertexPrepareEffect(g: GlState, s: CacheFields, useVertexCache: bool, enableTexCoords: bool)
    requires s.enable ==> g.vbo == s.lastVBO && g.texCoordsArray == s.texCoordsArrayEnabled && PointersMirror(s, g)
    ensures var g' := Exec(g, VertexPrepareCommands(s, useVertexCache, enableTexCoords));
      var source := FromClient(if useVertexCache then VertexCacheArray else UserVertices);
      && g' == g.(vbo := 0, texCoordsArray := enableTexCoords, pointers := g'.pointers, texCoordPointer := g'.texCoordPointer)
      && g'.pointers == source
      && (enableTexCoords ==> g'.texCoordPointer == source)
  {
    var v1 := if !s.enable || s.lastVBO != 0 then [BindVertexBuffer(0)] else [];
    var v2 := if !s.enable || enableTexCoords != s.texCoordsArrayEnabled then [SetTexCoordsArray(enableTexCoords)] else [];
    var v3 := if !s.enable || !useVertexCache || !s.useVertexCache
              then [SetVertexPointers(if useVertexCache then VertexCacheArray else UserVertices, enableTexCoords)]
              else if enableTexCoords && !s.texCoordsArrayEnabled then [SetTexCoordPointer(VertexCacheArray)]
              else [];
    assert VertexPrepareCommands(s, useVertexCache, enableTexCoords) == v1 + v2 + v3;
    if v1 != [] { ExecOne(g, v1[0]); }
    var g1 := Exec(g, v1);
    if v2 != [] { ExecOne(g1, v2[0]); }
    var g2 := Exec(g1, v2);
    assert g2 == g.(vbo := 0, texCoordsArray := enableTexCoords);
    PointerPrepareEffect(g2, s, useVertexCache, enableTexCoords);
    ExecAppend(g, v1, v2);
    ExecAppend(g, v1 + v2, v3);
  }

  /** The pointer step of a vertex-list draw, once no vertex buffer is bound. */
  lemma PointerPrepareEffect(g: GlState, s: CacheFields, useVertexCache: bool, enableTexCoords: bool)
    requires g.vbo == 0
    requires s.enable && s.useVertexCache ==>
      g.pointers == FromClient(VertexCacheArray) && (s.texCoordsArrayEnabled ==> g.texCoordPointer == FromClient(VertexCacheArray))
    ensures var v3 := if !s.enable || !useVertexCache || !s.useVertexCache
              then [SetVertexPointers(if useVertexCache then VertexCacheArray else UserVertices, enableTexCoords)]
              else if enableTexCoords && !s.texCoordsArrayEnabled then [SetTexCoordPointer(VertexCacheArray)]
              else [];
      var g' := Exec(g, v3);
      var source := FromClient(if useVertexCache then VertexCacheArray else UserVertices);
      && g' == g.(pointers := g'.pointers, texCoordPointer := g'.texCoordPointer)
      && g'.pointers == source
      && (enableTexCoords ==> g'.texCoordPointer == source)
  {
    if !s.enable || !useVertexCache || !s.useVertexCache {
      ExecOne(g, SetVertexPointers(if useVertexCache then VertexCacheArray else UserVertices, enableTexCoords));
    } else if enableTexCoords && !s.texCoordsArrayEnabled {
      ExecOne(g, SetTexCoordPointer(VertexCacheArray));
    }
  }

  lemma BufferPrepareEffect(g: GlState, s: CacheFields, buffer: VertexBuffer)
    requires s.enable ==> g.vbo == s.lastVBO && g.texCoordsArray == s.texCoordsArrayEnabled && PointersMirror(s, g)
    ensures var g' := Exec(g, BufferPrepareCommands(s, buffer));
      && g' == g.(vbo := buffer.handle, texCoordsArray := true, pointers := g'.pointers, texCoordPointer := g'.texCoordPointer)
      && (buffer.handle != 0 ==> g'.pointers == FromBuffer(buffer.handle) && g'.texCoordPointer == FromBuffer(buffer.handle))
  {
    var b1 := if !s.enable || s.lastVBO != buffer.handle then [BindVertexBuffer(buffer.handle), SetVertexPointers(BufferOffsets, true)] else [];
    var b2 := if !s.enable || !s.texCoordsArrayEnabled then [SetTexCoordsArray(true)] else [];
    assert BufferPrepareCommands(s, buffer) == b1 + b2;
    if b1 != [] { ExecTwo(g, b1[0], b1[1]); }
    var g1 := Exec(g, b1);
    if b2 != [] { ExecOne(g1, b2[0]); }
    ExecAppend(g, b1, b2);
  }

  lemma CleanupEffect(g: GlState, states: RenderStates)
    ensures var g' := Exec(g, CleanupCommands(states));
      if IsFboTexture(states.texture)
      then g' == g.(program := g'.program, texture := 0, textureMatrix := PixelsOf(0))
      else g' == g.(program := g'.program)
  {
    var c1 := if states.shader.Some? && !states.shaderIsBound then [BindShader(0)] else [];
    var c2 := if IsFboTexture(states.texture) then ApplyTextureCommands(DefaultStates, false) else [];
    assert CleanupCommands(states) == c1 + c2;
    if c1 != [] { ExecOne(g, c1[0]); }
    var g1 := Exec(g, c1);
    if c2 != [] { ExecOne(g1, BindTexture(0)); assert c2 == [BindTexture(0)]; }
    ExecAppend(g, c1, c2);
  }

  /** The draw call changes nothing; cleanupDraw then does what `CleanupEffect` says. */
  lemma FinishEffect(g: GlState, draw: Command, states: RenderStates)
    requires draw.DrawArrays?
    ensures var g' := Exec(g, [draw] + CleanupCommands(states));
      if IsFboTexture(states.texture)
      then g' == g.(program := g'.program, texture := 0, textureMatrix := PixelsOf(0))
      else g' == g.(program := g'.program)
  {
    ExecOne(g, draw);
    ExecAppend(g, [draw], CleanupCommands(states));
    CleanupEffect(g, states);
  }

  /** A vertex-list draw on a cache that mirrors the context issues its draw call with the
      context in the state the RenderStates and the view ask for, no vertex buffer bound,
      the attribute pointers on the caller's vertices or the vertex cache as the draw
      uses them, and the texture coordinate array on exactly when a texture or shader is
      used; afterwards the cache mirrors the context again, the view included. */
  lemma DrawVerticesSound(a: CacheFields, g: GlState, caps: Caps, targetId: nat, view: View,
                          count: nat, primitive: PrimitiveType, states: RenderStates)
    requires FullBlendCaps(caps)
    requires caps.vertexBufferAvailable || g.vbo == 0
    requires Mirrors(a, g) && ViewMirrors(PreparedCache(a), g, targetId, view)
    ensures var useVC := UsesVertexCache(count);
      var ready := SetupDrawCommands(a, caps, targetId, view, useVC, states)
                   + VertexPrepareCommands(SetupDrawCache(a, targetId, states), useVC, NeedsTexCoords(states));
      var gd := Exec(g, ready);
      && DrawVerticesCommands(a, caps, targetId, view, count, primitive, states)
         == ready + [DrawArrays(PrimitiveToGlMode(primitive), 0, count)] + CleanupCommands(states)
      && DrawStateCorrect(gd, states, useVC, view)
      && gd.vbo == 0 && gd.texCoordsArray == NeedsTexCoords(states)
      && gd.pointers == FromClient(if useVC then VertexCacheArray else UserVertices)
      && (NeedsTexCoords(states) ==> gd.texCoordPointer == gd.pointers)
    ensures var g' := Exec(g, DrawVerticesCommands(a, caps, targetId, view, count, primitive, states));
      var s := DrawVerticesCache(a, targetId, count, states);
      Mirrors(s, g') && ViewMirrors(s, g', targetId, view) && g'.vbo == 0
  {
    var useVC := UsesVertexCache(count);
    var setup := SetupDrawCommands(a, caps, targetId, view, useVC, states);
    var s := SetupDrawCache(a, targetId, states);
    var prep := VertexPrepareCommands(s, useVC, NeedsTexCoords(states));
    var d := [DrawArrays(PrimitiveToGlMode(primitive), 0, count)];
    var cl := CleanupCommands(states);
    SetupDrawSound(a, g, caps, targetId, view, useVC, states);
    var g1 := Exec(g, setup);
    VertexPrepareEffect(g1, s, useVC, NeedsTexCoords(states));
    ExecAppend(g, setup, prep);
    var gd := Exec(g, setup + prep);
    FinishEffect(gd, d[0], states);
    Appended(setup + prep, d, cl);
    ExecAppend(g, setup + prep, d + cl);
    DrawVerticesCacheRecords(a, targetId, count, states);
    SetupDrawCacheRecords(a, targetId, states);
    var f := DrawVerticesCache(a, targetId, count, states);
    assert PointersMirror(f, gd);
    DrawLeavesMirror(f, s, gd, Exec(gd, d + cl), states, useVC, targetId, view);
  }

  /** What a draw leaves, from the driver state at its draw call and the record it ends
      with: the record mirrors the driver, the view claim included. */
  lemma DrawLeavesMirror(f: CacheFields, s: CacheFields, gd: GlState, g': GlState, states: RenderStates,
                         useVertexCache: bool, targetId: nat, view: View)
    requires DrawStateCorrect(gd, states, useVertexCache, view) && ColourMirrors(s, gd)
    requires gd.vbo == f.lastVBO && gd.texCoordsArray == f.texCoordsArrayEnabled && PointersMirror(f, gd)
    requires if IsFboTexture(states.texture)
             then g' == gd.(program := g'.program, texture := 0, textureMatrix := PixelsOf(0))
             else g' == gd.(program := g'.program)
    requires f.enable && f.lastBlendMode == states.blendMode && f.lastRenderTargetView == targetId
    requires f.lastTextureId == (if IsFboTexture(states.texture) then 0 else TextureId(states.texture))
    requires f.lastTextureMatrix == (if IsFboTexture(states.texture) then ZeroMatrix else TextureMatrix(states.textureTransform))
    requires f.useVertexCache ==> useVertexCache
    requires f.lastColor == s.lastColor && f.lastColourProgram == s.lastColourProgram
    ensures Mirrors(f, g') && ViewMirrors(f, g', targetId, view)
  {
  }

  /** The same for a draw from a vertex buffer: the buffer is bound and the texture
      coordinate array is on when the draw call is issued. */
  lemma DrawBufferSound(a: CacheFields, g: GlState, caps: Caps, targetId: nat, view: View,
                        buffer: VertexBuffer, firstVertex: nat, count: nat, states: RenderStates)
    requires FullBlendCaps(caps)
    requires caps.vertexBufferAvailable || g.vbo == 0
    requires Mirrors(a, g) && ViewMirrors(PreparedCache(a), g, targetId, view)
    ensures var ready := SetupDrawCommands(a, caps, targetId, view, false, states)
                         + BufferPrepareCommands(SetupDrawCache(a, targetId, states), buffer);
      var gd := Exec(g, ready);
      && DrawBufferCommands(a, caps, targetId, view, buffer, firstVertex, count, states)
         == ready + [DrawArrays(PrimitiveToGlMode(buffer.primitiveType), firstVertex, count)] + CleanupCommands(states)
      && DrawStateCorrect(gd, states, false, view)
      && gd.vbo == buffer.handle && gd.texCoordsArray
      && (buffer.handle != 0 ==> gd.pointers == FromBuffer(buffer.handle) && gd.texCoordPointer == FromBuffer(buffer.handle))
    ensures var g' := Exec(g, DrawBufferCommands(a, caps, targetId, view, buffer, firstVertex, count, states));
      var s := DrawBufferCache(a, targetId, buffer, states);
      Mirrors(s, g') && ViewMirrors(s, g', targetId, view)
  {
    var setup := SetupDrawCommands(a, caps, targetId, view, false, states);
    var s := SetupDrawCache(a, targetId, states);
    var prep := BufferPrepareCommands(s, buffer);
    var d := [DrawArrays(PrimitiveToGlMode(buffer.primitiveType), firstVertex, count)];
    var cl := CleanupCommands(states);
    SetupDrawSound(a, g, caps, targetId, view, false, states);
    var g1 := Exec(g, setup);
    BufferPrepareEffect(g1, s, buffer);
    ExecAppend(g, setup, prep);
    var gd := Exec(g, setup + prep);
    FinishEffect(gd, d[0], states);
    Appended(setup + prep, d, cl);
    ExecAppend(g, setup + prep, d + cl);
    assert DrawBufferCommands(a, caps, targetId, view, buffer, firstVertex, count, states) == setup + prep + d + cl;
    DrawBufferCacheRecords(a, targetId, buffer, states);
    var f := DrawBufferCache(a, targetId, buffer, states);
    assert PointersMirror(f, gd);
    DrawLeavesMirror(f, s, gd, Exec(gd, d + cl), states, false, targetId, view);
  }

  /** setActive keeps the cache truthful: a cache that is created or whose `enable` is
      cleared claims nothing, and one kept as it was still mirrors the context. */
  lemma ActivationSound(c: Option<CacheFields>, clear: bool, g: GlState)
    requires c.Some? && !clear ==> Mirrors(c.value, g)
    ensures Mirrors(ActivatedCache(c, clear), g)
  {
  }

  /** The colour fields setupDraw leaves are those of its colour phase. */
  lemma ColourPhaseCacheAgrees(c: CacheFields, targetId: nat, states: RenderStates)
    ensures var p := PreparedCache(c); var s := SetupDrawCache(c, targetId, states); var q := ColourPhaseCache(p, states);
      s.lastColor == q.lastColor && s.lastColourProgram == q.lastColourProgram && s.enable == q.enable
  {
    SetupDrawCacheRecords(c, targetId, states);
  }

  /** clear unbinds the texture through the cache, so the cache still mirrors the context. */
  lemma ClearSound(c: CacheFields, g: GlState, color: Color)
    requires Mirrors(c, g)
    ensures Mirrors(ApplyTextureCache(c, DefaultStates), Exec(g, ClearCommands(color)))
    ensures Exec(g, ClearCommands(color)).texture == 0
  {
    ExecTwo(g, BindTexture(0), Clear(color));
    assert ClearCommands(color) == [BindTexture(0), Clear(color)];
  }
}
