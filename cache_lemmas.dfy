/** Properties of the render-state cache: what setupDraw leaves in the cache, exactly when
    it re-applies the blend mode and the texture, and how many blend and texture commands a
    run of draws issues. */
module CacheProperties {
  import opened Graphics
  import opened GlConstants
  import opened CacheSpec

  // ---------------------------------------------------------------- counting commands

  function CountBlend(cmds: seq<Command>): nat
    decreases |cmds|
  {
    if cmds == [] then 0 else (if cmds[0].IsBlend() then 1 else 0) + CountBlend(cmds[1..])
  }

  function CountTexture(cmds: seq<Command>): nat
    decreases |cmds|
  {
    if cmds == [] then 0 else (if cmds[0].IsTexture() then 1 else 0) + CountTexture(cmds[1..])
  }

  lemma {:induction false} CountAppend(a: seq<Command>, b: seq<Command>)
    ensures CountBlend(a + b) == CountBlend(a) + CountBlend(b)
    ensures CountTexture(a + b) == CountTexture(a) + CountTexture(b)
    decreases |a|
  {
    if a == [] {
      assert a + b == b;
    } else {
      assert (a + b)[1..] == a[1..] + b;
      CountAppend(a[1..], b);
    }
  }

  lemma CountOne(c: Command)
    ensures CountBlend([c]) == (if c.IsBlend() then 1 else 0)
    ensures CountTexture([c]) == (if c.IsTexture() then 1 else 0)
  {
    assert [c][1..] == [];
  }

  lemma CountTwo(c: Command, d: Command)
    ensures CountBlend([c, d]) == (if c.IsBlend() then 1 else 0) + (if d.IsBlend() then 1 else 0)
    ensures CountTexture([c, d]) == (if c.IsTexture() then 1 else 0) + (if d.IsTexture() then 1 else 0)
  {
    assert [c, d] == [c] + [d];
    CountAppend([c], [d]);
    CountOne(c);
    CountOne(d);
  }

  /** How many commands applyBlendMode issues: one or two, all of them blend commands. */
  function BlendCommandCount(caps: Caps): (n: nat)
    ensures 1 <= n <= 2
  {
    if caps.blendMinmax && caps.blendSubtract then 2 else 1
  }

  lemma BlendCommandsCount(caps: Caps, mode: BlendMode)
    ensures CountBlend(BlendCommands(caps, mode)) == BlendCommandCount(caps) == |BlendCommands(caps, mode)|
    ensures CountTexture(BlendCommands(caps, mode)) == 0
  {
    var cmds := BlendCommands(caps, mode);
    if caps.blendMinmax && caps.blendSubtract {
      CountTwo(cmds[0], cmds[1]);
      assert cmds == [cmds[0], cmds[1]];
    } else {
      CountOne(cmds[0]);
      assert cmds == [cmds[0]];
    }
  }

  lemma ApplyTextureCount(states: RenderStates, transformOnly: bool)
    ensures CountBlend(ApplyTextureCommands(states, transformOnly)) == 0
    ensures CountTexture(ApplyTextureCommands(states, transformOnly)) >= 1
  {
    var cmds := ApplyTextureCommands(states, transformOnly);
    if |cmds| == 2 {
      CountTwo(cmds[0], cmds[1]);
      assert cmds == [cmds[0], cmds[1]];
    } else {
      CountOne(cmds[0]);
      assert cmds == [cmds[0]];
    }
  }

  // ---------------------------------------------------------------- one setupDraw

  /** After setupDraw the cache records what the draw applied: this target's view, the
      draw's blend mode, its texture id and texture matrix, its shader program when the
      caller pre-bound one (0 for no shader), its colour when a shader is used. The
      remaining fields are those of the (possibly reset) cache. */
  lemma SetupDrawCacheRecords(c: CacheFields, targetId: nat, states: RenderStates)
    ensures var p := PreparedCache(c); var s := SetupDrawCache(c, targetId, states);
      && s.glStatesSet && s.enable == p.enable
      && s.lastRenderTargetView == targetId
      && s.lastBlendMode == states.blendMode
      && s.lastTextureId == TextureId(states.texture)
      && s.lastTextureMatrix == TextureMatrix(states.textureTransform)
      && s.lastProgram == (if states.shader.Some? && states.shaderIsBound then states.shader.value.handle
                           else if states.shader.None? then 0 else p.lastProgram)
      && s.lastColor == (if states.shader.Some? then states.color else p.lastColor)
      && s.lastColourProgram == (if states.shader.Some? then Some(states.shader.value.handle)
                                 else if !p.enable then None else p.lastColourProgram)
      && s.lastVBO == p.lastVBO && s.useVertexCache == p.useVertexCache
      && s.texCoordsArrayEnabled == p.texCoordsArrayEnabled
  {
    var p := PreparedCache(c);
    var c1 := ViewCache(p, targetId);
    assert c1 == p.(lastRenderTargetView := targetId);
    var c2 := BlendPhaseCache(c1, states.blendMode);
    assert c2 == c1.(lastBlendMode := states.blendMode);
    var c3 := TexturePhaseCache(c2, states);
    assert c3 == c2.(lastTextureId := TextureId(states.texture), lastTextureMatrix := TextureMatrix(states.textureTransform));
    var c4 := ShaderPhaseCache(c3, states);
    assert c4 == c3.(lastProgram := c4.lastProgram);
  }

  /** A cache that was never set up is reset first: the reset leaves exactly the baseline
      state of resetGLStates. */
  lemma ResetBaselineState(c: CacheFields)
    ensures var r := ResetBaseline(c);
      && r.glStatesSet && r.enable && r.texCoordsArrayEnabled && !r.useVertexCache
      && r.lastVBO == 0 && r.lastProgram == 0 && r.lastBlendMode == BlendAlpha
      && r.lastTextureId == 0 && r.lastTextureMatrix == ZeroMatrix && r.lastRenderTargetView == 0
      && r.lastColor == c.lastColor && r.lastColourProgram == None
  {
  }

  lemma TransformCount(c: CacheFields, useVertexCache: bool, transform: Transform)
    ensures CountBlend(TransformCommands(c, useVertexCache, transform)) == 0
    ensures CountTexture(TransformCommands(c, useVertexCache, transform)) == 0
  {
    var cmds := TransformCommands(c, useVertexCache, transform);
    if cmds != [] { CountOne(cmds[0]); assert cmds == [cmds[0]]; }
  }

  lemma ViewCount(c: CacheFields, targetId: nat, view: View)
    ensures CountBlend(ViewCommands(c, targetId, view)) == 0
    ensures CountTexture(ViewCommands(c, targetId, view)) == 0
  {
    var cmds := ViewCommands(c, targetId, view);
    if cmds != [] { CountOne(cmds[0]); assert cmds == [cmds[0]]; }
  }

  lemma ShaderColourCount(c: CacheFields, states: RenderStates, textureChanged: bool)
    ensures CountBlend(ShaderPhaseCommands(c, states, textureChanged) + ColourPhaseCommands(c, states)) == 0
    ensures CountTexture(ShaderPhaseCommands(c, states, textureChanged) + ColourPhaseCommands(c, states)) == 0
  {
    var sh := ShaderPhaseCommands(c, states, textureChanged);
    var co := ColourPhaseCommands(c, states);
    CountAppend(sh, co);
    if co != [] { CountOne(co[0]); assert co == [co[0]]; }
    if states.shader.Some? && states.shaderIsBound {
      var s := states.shader.value;
      var changed := s.handle != c.lastProgram;
      var a := if !c.enable || changed || textureChanged || s.textureBindRequired then [BindShaderTexture(s.handle)] else [];
      var b := if !c.enable || changed || s.textureBindRequired then [BindShaderTextures(s.handle)] else [];
      assert sh == a + b;
      CountAppend(a, b);
      if a != [] { CountOne(a[0]); }
      if b != [] { CountOne(b[0]); }
    } else if sh != [] {
      CountOne(sh[0]);
      assert sh == [sh[0]];
    }
  }

  lemma ResetCount(caps: Caps)
    ensures CountBlend(ResetCommands(caps)) == BlendCommandCount(caps)
    ensures CountTexture(ResetCommands(caps)) == 1
  {
    var pre := (if caps.multitexture then [ActivateTextureUnit0] else []);
    var base := [SetBaselineStates, LoadIdentity, EnableClientArrays];
    var blend := BlendCommands(caps, BlendAlpha);
    var tex := ApplyTextureCommands(DefaultStates, false);
    var sh := (if caps.shaderAvailable then [BindShader(0)] else []);
    var vb := (if caps.vertexBufferAvailable then [BindVertexBuffer(0)] else []);
    assert ResetCommands(caps) == pre + base + blend + tex + sh + vb;
    PlainCount(pre);
    PlainCount(base);
    BlendCommandsCount(caps, BlendAlpha);
    assert tex == [BindTexture(0)];
    CountOne(BindTexture(0));
    PlainCount(sh);
    PlainCount(vb);
    CountAppend(pre, base);
    CountAppend(pre + base, blend);
    CountAppend(pre + base + blend, tex);
    CountAppend(pre + base + blend + tex, sh);
    CountAppend(pre + base + blend + tex + sh, vb);
  }

  /** Commands that are neither blend nor texture commands count as nothing. */
  lemma {:induction false} PlainCount(cmds: seq<Command>)
    requires forall i :: 0 <= i < |cmds| ==> !cmds[i].IsBlend() && !cmds[i].IsTexture()
    ensures CountBlend(cmds) == 0 && CountTexture(cmds) == 0
    decreases |cmds|
  {
    if cmds != [] {
      PlainCount(cmds[1..]);
    }
  }

  /** The split of setupDraw's commands into its reset part and its diffing phases. */
  lemma SetupDrawCounts(c: CacheFields, caps: Caps, targetId: nat, view: View,
                        useVertexCache: bool, states: RenderStates)
    ensures var p := PreparedCache(c);
      var blend := BlendPhaseCommands(p, caps, states.blendMode);
      var tex := TexturePhaseCommands(p, states);
      var cmds := SetupDrawCommands(c, caps, targetId, view, useVertexCache, states);
      && CountBlend(cmds) == (if c.glStatesSet then 0 else BlendCommandCount(caps)) + CountBlend(blend)
      && CountTexture(cmds) == (if c.glStatesSet then 0 else 1) + CountTexture(tex)
      && CountBlend(tex) == 0 && CountTexture(blend) == 0
  {
    var p := PreparedCache(c);
    var r := if c.glStatesSet then [] else ResetCommands(caps);
    var t := TransformCommands(p, useVertexCache, states.transform);
    var v := ViewCommands(p, targetId, view);
    var b := BlendPhaseCommands(p, caps, states.blendMode);
    var x := TexturePhaseCommands(p, states);
    var sc := ShaderPhaseCommands(p, states, TextureChanged(p, states)) + ColourPhaseCommands(p, states);
    assert SetupDrawCommands(c, caps, targetId, view, useVertexCache, states) == r + t + v + b + x + sc;
    CountAppend(r + t + v + b + x, sc);
    CountAppend(r + t + v + b, x);
    CountAppend(r + t + v, b);
    CountAppend(r + t, v);
    CountAppend(r, t);
    if !c.glStatesSet { ResetCount(caps); }
    TransformCount(p, useVertexCache, states.transform);
    ViewCount(p, targetId, view);
    if BlendApplied(p, states.blendMode) { BlendCommandsCount(caps, states.blendMode); }
    if TextureForced(p, states) {
      ApplyTextureCount(states, false);
    } else if x != [] {
      ApplyTextureCount(states, p.enable && TextureId(states.texture) == p.lastTextureId);
    }
    ShaderColourCount(p, states, TextureChanged(p, states));
  }

  /** setupDraw on a cache that is set up issues blend commands iff the cache is off or the
      blend mode differs from the cached one; afterwards the cached mode is the draw's. */
  lemma BlendReappliedIff(c: CacheFields, caps: Caps, targetId: nat, view: View,
                          useVertexCache: bool, states: RenderStates)
    requires c.glStatesSet
    ensures CountBlend(SetupDrawCommands(c, caps, targetId, view, useVertexCache, states))
         == (if !c.enable || states.blendMode != c.lastBlendMode then BlendCommandCount(caps) else 0)
    ensures SetupDrawCache(c, targetId, states).lastBlendMode == states.blendMode
  {
    SetupDrawCounts(c, caps, targetId, view, useVertexCache, states);
    if BlendApplied(c, states.blendMode) { BlendCommandsCount(caps, states.blendMode); }
  }

  /** setupDraw on a cache that is set up issues a texture command iff the cache is off, the
      texture is an FBO attachment, or its id or 16-entry matrix differ from the cached ones. */
  lemma TextureReappliedIff(c: CacheFields, caps: Caps, targetId: nat, view: View,
                            useVertexCache: bool, states: RenderStates)
    requires c.glStatesSet
    ensures CountTexture(SetupDrawCommands(c, caps, targetId, view, useVertexCache, states)) > 0
        <==> (!c.enable || IsFboTexture(states.texture)
              || TextureId(states.texture) != c.lastTextureId
              || TextureMatrix(states.textureTransform) != c.lastTextureMatrix)
  {
    SetupDrawCounts(c, caps, targetId, view, useVertexCache, states);
    var x := TexturePhaseCommands(c, states);
    if TextureForced(c, states) {
      ApplyTextureCount(states, false);
    } else if x != [] {
      ApplyTextureCount(states, c.enable && TextureId(states.texture) == c.lastTextureId);
    }
  }

  /** setupDraw on a cache that is set up applies the view iff the cache is off or another
      target's view is the one applied; afterwards this target owns the applied view. */
  lemma ViewReappliedIff(c: CacheFields, caps: Caps, targetId: nat, view: View,
                         useVertexCache: bool, states: RenderStates)
    requires c.glStatesSet
    ensures ApplyView(view) in SetupDrawCommands(c, caps, targetId, view, useVertexCache, states)
        <==> (!c.enable || c.lastRenderTargetView != targetId)
    ensures SetupDrawCache(c, targetId, states).lastRenderTargetView == targetId
  {
    var t := TransformCommands(c, useVertexCache, states.transform);
    var v := ViewCommands(c, targetId, view);
    var b := BlendPhaseCommands(c, caps, states.blendMode);
    var x := TexturePhaseCommands(c, states);
    var sh := ShaderPhaseCommands(c, states, TextureChanged(c, states));
    var co := ColourPhaseCommands(c, states);
    assert SetupDrawCommands(c, caps, targetId, view, useVertexCache, states) == [] + t + v + b + x + sh + co;
    assert ApplyView(view) !in t;
    assert ApplyView(view) !in b;
    assert ApplyView(view) !in x;
    assert ApplyView(view) !in sh;
    assert ApplyView(view) !in co;
    SetupDrawCacheRecords(c, targetId, states);
  }

  /** setView clears lastRenderTargetView in the record of the context current at the call;
      since every initialised target has a non-zero id, the next setupDraw of any target on
      that context re-applies its view. The records of other contexts are not cleared, so a
      record that still names this target skips the view there (ViewReappliedIff). */
  lemma ViewReappliedAfterSetView(c: CacheFields, caps: Caps, targetId: nat, view: View,
                                  useVertexCache: bool, states: RenderStates)
    requires targetId != 0
    ensures var cmds := SetupDrawCommands(c.(lastRenderTargetView := 0), caps, targetId, view, useVertexCache, states);
      exists i :: 0 <= i < |cmds| && cmds[i] == ApplyView(view)
    ensures SetupDrawCache(c.(lastRenderTargetView := 0), targetId, states).lastRenderTargetView == targetId
  {
    var c0 := c.(lastRenderTargetView := 0);
    var p := PreparedCache(c0);
    assert p.lastRenderTargetView == 0;
    var r := if c0.glStatesSet then [] else ResetCommands(caps);
    var t := TransformCommands(p, useVertexCache, states.transform);
    var v := ViewCommands(p, targetId, view);
    assert v == [ApplyView(view)];
    var head := r + t + v;
    assert head[|r + t|] == ApplyView(view);
    var cmds := SetupDrawCommands(c0, caps, targetId, view, useVertexCache, states);
    assert cmds == head + BlendPhaseCommands(p, caps, states.blendMode) + TexturePhaseCommands(p, states)
                   + ShaderPhaseCommands(p, states, TextureChanged(p, states)) + ColourPhaseCommands(p, states);
    assert cmds[|r + t|] == ApplyView(view);
    SetupDrawCacheRecords(c0, targetId, states);
  }

  // ---------------------------------------------------------------- runs of draws

  /** One vertex-list draw of a run: its states and vertex count. */
  datatype DrawCall = DrawCall(states: RenderStates, count: nat, primitive: PrimitiveType)

  /** A run of vertex-list draws against one target that stays active on its context:
      the commands of each draw, in order. */
  function RunCommands(c: CacheFields, caps: Caps, targetId: nat, view: View, calls: seq<DrawCall>): seq<seq<Command>>
    decreases |calls|
  {
    if calls == [] then []
    else if calls[0].count == 0 then [[]] + RunCommands(c, caps, targetId, view, calls[1..])
    else
      [DrawVerticesCommands(c, caps, targetId, view, calls[0].count, calls[0].primitive, calls[0].states)]
      + RunCommands(DrawVerticesCache(c, targetId, calls[0].count, calls[0].states), caps, targetId, view, calls[1..])
  }

  function Flatten(s: seq<seq<Command>>): seq<Command>
    decreases |s|
  {
    if s == [] then [] else s[0] + Flatten(s[1..])
  }

  /** The blend modes of a run's non-empty draws. */
  function BlendModes(calls: seq<DrawCall>): seq<BlendMode>
    decreases |calls|
  {
    if calls == [] then []
    else (if calls[0].count == 0 then [] else [calls[0].states.blendMode]) + BlendModes(calls[1..])
  }

  /** Independent reference count, taken from the back: how many entries of `modes` differ
      from the entry before them (the first one is compared with `first`). */
  function Changes<T(==)>(first: T, modes: seq<T>): nat
    decreases |modes|
  {
    if modes == [] then 0
    else Changes(first, modes[..|modes| - 1])
         + (if modes[|modes| - 1] != (if |modes| == 1 then first else modes[|modes| - 2]) then 1 else 0)
  }

  lemma {:induction false} ChangesCons<T>(first: T, m: T, rest: seq<T>)
    ensures Changes(first, [m] + rest) == (if m != first then 1 else 0) + Changes(m, rest)
    decreases |rest|
  {
    var s := [m] + rest;
    if rest == [] {
      assert s[..|s| - 1] == [];
    } else {
      var rest' := rest[..|rest| - 1];
      assert s[..|s| - 1] == [m] + rest';
      ChangesCons(first, m, rest');
      assert s[|s| - 1] == rest[|rest| - 1];
      if |rest| == 1 {
        assert s[|s| - 2] == m;
      } else {
        assert s[|s| - 2] == rest[|rest| - 2];
      }
    }
  }

  lemma {:induction false} FlattenCons(x: seq<Command>, s: seq<seq<Command>>)
    ensures Flatten([x] + s) == x + Flatten(s)
  {
    assert ([x] + s)[1..] == s;
  }

  lemma VertexPrepareCount(s: CacheFields, useVertexCache: bool, enableTexCoords: bool)
    ensures CountBlend(VertexPrepareCommands(s, useVertexCache, enableTexCoords)) == 0
    ensures CountTexture(VertexPrepareCommands(s, useVertexCache, enableTexCoords)) == 0
  {
    PlainCount(VertexPrepareCommands(s, useVertexCache, enableTexCoords));
  }

  lemma CleanupCount(states: RenderStates)
    ensures CountBlend(CleanupCommands(states)) == 0
    ensures CountTexture(CleanupCommands(states)) == (if IsFboTexture(states.texture) then 1 else 0)
  {
    var c1 := if states.shader.Some? && !states.shaderIsBound then [BindShader(0)] else [];
    var c2 := if IsFboTexture(states.texture) then ApplyTextureCommands(DefaultStates, false) else [];
    assert CleanupCommands(states) == c1 + c2;
    CountAppend(c1, c2);
    PlainCount(c1);
    if c2 != [] { CountOne(BindTexture(0)); assert c2 == [BindTexture(0)]; }
  }

  /** What a vertex-list draw issues after setupDraw: no blend command, and a texture
      command only when cleanupDraw unbinds an FBO texture. */
  lemma VertexTailCount(s: CacheFields, useVC: bool, count: nat, primitive: PrimitiveType, states: RenderStates)
    ensures var tail := VertexPrepareCommands(s, useVC, NeedsTexCoords(states))
                        + [DrawArrays(PrimitiveToGlMode(primitive), 0, count)] + CleanupCommands(states);
      && CountBlend(tail) == 0
      && CountTexture(tail) == (if IsFboTexture(states.texture) then 1 else 0)
  {
    var v := VertexPrepareCommands(s, useVC, NeedsTexCoords(states));
    var d := [DrawArrays(PrimitiveToGlMode(primitive), 0, count)];
    var cl := CleanupCommands(states);
    VertexPrepareCount(s, useVC, NeedsTexCoords(states));
    CleanupCount(states);
    CountOne(d[0]);
    CountAppend(v, d);
    CountAppend(v + d, cl);
  }

  lemma DrawVerticesTail(a: CacheFields, caps: Caps, targetId: nat, view: View,
                         count: nat, primitive: PrimitiveType, states: RenderStates)
    ensures var useVC := UsesVertexCache(count);
      var s := SetupDrawCache(a, targetId, states);
      var tail := VertexPrepareCommands(s, useVC, NeedsTexCoords(states))
                  + [DrawArrays(PrimitiveToGlMode(primitive), 0, count)] + CleanupCommands(states);
      && DrawVerticesCommands(a, caps, targetId, view, count, primitive, states)
         == SetupDrawCommands(a, caps, targetId, view, useVC, states) + tail
      && CountBlend(tail) == 0
      && CountTexture(tail) == (if IsFboTexture(states.texture) then 1 else 0)
  {
    var useVC := UsesVertexCache(count);
    var s := SetupDrawCache(a, targetId, states);
    VertexTailCount(s, useVC, count, primitive, states);
    var v := VertexPrepareCommands(s, useVC, NeedsTexCoords(states));
    var d := [DrawArrays(PrimitiveToGlMode(primitive), 0, count)];
    var cl := CleanupCommands(states);
    var setup := SetupDrawCommands(a, caps, targetId, view, useVC, states);
    Regrouped(setup, v, d, cl);
  }

  /** The blend and texture commands of one vertex-list draw on a cache that is set up. */
  lemma DrawVerticesCounts(c: CacheFields, caps: Caps, targetId: nat, view: View,
                           count: nat, primitive: PrimitiveType, states: RenderStates)
    requires c.glStatesSet
    ensures CountBlend(DrawVerticesCommands(c, caps, targetId, view, count, primitive, states))
         == (if !c.enable || states.blendMode != c.lastBlendMode then BlendCommandCount(caps) else 0)
    ensures !IsFboTexture(states.texture) ==>
      (CountTexture(DrawVerticesCommands(c, caps, targetId, view, count, primitive, states)) > 0
       <==> (!c.enable || TextureId(states.texture) != c.lastTextureId
             || TextureMatrix(states.textureTransform) != c.lastTextureMatrix))
  {
    DrawVerticesTail(c, caps, targetId, view, count, primitive, states);
    var setup := SetupDrawCommands(c, caps, targetId, view, UsesVertexCache(count), states);
    var cmds := DrawVerticesCommands(c, caps, targetId, view, count, primitive, states);
    CountAppend(setup, cmds[|setup|..]);
    BlendReappliedIff(c, caps, targetId, view, UsesVertexCache(count), states);
    TextureReappliedIff(c, caps, targetId, view, UsesVertexCache(count), states);
  }

  /** The cache a run continues from after its first draw (an empty draw changes nothing). */
  function NextCache(c: CacheFields, targetId: nat, call: DrawCall): CacheFields
  {
    if call.count == 0 then c else DrawVerticesCache(c, targetId, call.count, call.states)
  }

  /** The commands of one draw of a run (none for an empty draw). */
  function CallCommands(c: CacheFields, caps: Caps, targetId: nat, view: View, call: DrawCall): seq<Command>
  {
    if call.count == 0 then [] else DrawVerticesCommands(c, caps, targetId, view, call.count, call.primitive, call.states)
  }

  /** A run is its first draw followed by the rest of the run from the cache that draw leaves. */
  lemma RunStep(c: CacheFields, caps: Caps, targetId: nat, view: View, calls: seq<DrawCall>)
    requires calls != []
    ensures Flatten(RunCommands(c, caps, targetId, view, calls))
         == CallCommands(c, caps, targetId, view, calls[0])
            + Flatten(RunCommands(NextCache(c, targetId, calls[0]), caps, targetId, view, calls[1..]))
  {
    var run := RunCommands(NextCache(c, targetId, calls[0]), caps, targetId, view, calls[1..]);
    assert RunCommands(c, caps, targetId, view, calls) == [CallCommands(c, caps, targetId, view, calls[0])] + run;
    FlattenCons(CallCommands(c, caps, targetId, view, calls[0]), run);
  }

  /** One draw of a run on an enabled cache: its blend commands, and the cache it leaves
      enabled, set up and holding the draw's blend mode. */
  lemma CallBlendCount(c: CacheFields, caps: Caps, targetId: nat, view: View, call: DrawCall)
    requires c.glStatesSet && c.enable
    ensures var n := NextCache(c, targetId, call);
      && n.glStatesSet && n.enable
      && (call.count > 0 ==> n.lastBlendMode == call.states.blendMode)
      && (call.count == 0 ==> n.lastBlendMode == c.lastBlendMode)
      && CountBlend(CallCommands(c, caps, targetId, view, call))
         == (if call.count > 0 && call.states.blendMode != c.lastBlendMode then BlendCommandCount(caps) else 0)
  {
    if call.count > 0 {
      DrawVerticesCacheRecords(c, targetId, call.count, call.states);
      DrawVerticesCounts(c, caps, targetId, view, call.count, call.primitive, call.states);
    }
  }

  /** Proof plumbing, not a claim about the model: distributivity, stated once so that the
      run proofs stay within the solver's budget. */
  lemma ScaledSum(k: nat, d: nat, n: nat)
    ensures k * (d + n) == k * d + k * n
  {
  }

  /** In a run of draws from a cache that is set up and enabled, the number of blend
      commands is the per-call count times the number of changes of blend mode between
      consecutive draws (the first draw compared with the cached mode). */
  lemma {:induction false} RunBlendCount(c: CacheFields, caps: Caps, targetId: nat, view: View, calls: seq<DrawCall>)
    requires c.glStatesSet && c.enable
    ensures CountBlend(Flatten(RunCommands(c, caps, targetId, view, calls)))
         == BlendCommandCount(caps) * Changes(c.lastBlendMode, BlendModes(calls))
    decreases |calls|
  {
    if calls != [] {
      var call := calls[0];
      var rest := calls[1..];
      var c' := NextCache(c, targetId, call);
      var cmds := CallCommands(c, caps, targetId, view, call);
      RunStep(c, caps, targetId, view, calls);
      CountAppend(cmds, Flatten(RunCommands(c', caps, targetId, view, rest)));
      CallBlendCount(c, caps, targetId, view, call);
      RunBlendCount(c', caps, targetId, view, rest);
      assert BlendModes(calls) == (if call.count == 0 then [] else [call.states.blendMode]) + BlendModes(rest);
      if call.count == 0 {
        assert [] + BlendModes(rest) == BlendModes(rest);
      } else {
        ChangesCons(c.lastBlendMode, call.states.blendMode, BlendModes(rest));
        ScaledSum(BlendCommandCount(caps), if call.states.blendMode != c.lastBlendMode then 1 else 0,
                  Changes(call.states.blendMode, BlendModes(rest)));
      }
    }
  }

  /** The cache after a vertex-list draw: enabled and set up, with the draw's blend mode,
      texture (the default one after an FBO texture, which cleanupDraw unbinds), no vertex
      buffer bound, and the vertex-cache and texture-coordinate flags of this draw. */
  lemma DrawVerticesCacheRecords(a: CacheFields, targetId: nat, count: nat, states: RenderStates)
    ensures var f := DrawVerticesCache(a, targetId, count, states);
      && f.glStatesSet && f.enable
      && f.lastBlendMode == states.blendMode
      && f.lastTextureId == (if IsFboTexture(states.texture) then 0 else TextureId(states.texture))
      && f.lastTextureMatrix == (if IsFboTexture(states.texture) then ZeroMatrix else TextureMatrix(states.textureTransform))
      && f.lastVBO == 0 && f.lastRenderTargetView == targetId
      && f.useVertexCache == UsesVertexCache(count)
      && f.texCoordsArrayEnabled == NeedsTexCoords(states)
      && f.lastColor == SetupDrawCache(a, targetId, states).lastColor
      && f.lastColourProgram == SetupDrawCache(a, targetId, states).lastColourProgram
  {
    SetupDrawCacheRecords(a, targetId, states);
  }

  /** The cache after a vertex-buffer draw: as after a vertex-list draw, with the buffer's
      handle recorded as bound and the texture-coordinate array on. */
  lemma DrawBufferCacheRecords(a: CacheFields, targetId: nat, buffer: VertexBuffer, states: RenderStates)
    ensures var f := DrawBufferCache(a, targetId, buffer, states);
      && f.glStatesSet && f.enable
      && f.lastBlendMode == states.blendMode
      && f.lastTextureId == (if IsFboTexture(states.texture) then 0 else TextureId(states.texture))
      && f.lastTextureMatrix == (if IsFboTexture(states.texture) then ZeroMatrix else TextureMatrix(states.textureTransform))
      && f.lastVBO == buffer.handle && f.lastRenderTargetView == targetId
      && !f.useVertexCache && f.texCoordsArrayEnabled
      && f.lastColor == SetupDrawCache(a, targetId, states).lastColor
      && f.lastColourProgram == SetupDrawCache(a, targetId, states).lastColourProgram
  {
    SetupDrawCacheRecords(a, targetId, states);
  }

  /** The texture key a draw is cached under. */
  function TextureKeys(calls: seq<DrawCall>): seq<(nat, Matrix)>
    decreases |calls|
  {
    if calls == [] then []
    else (if calls[0].count == 0 then [] else [(TextureId(calls[0].states.texture), TextureMatrix(calls[0].states.textureTransform))])
         + TextureKeys(calls[1..])
  }

  /** How many draws of a run issue at least one texture command. */
  function TextureWorkDraws(run: seq<seq<Command>>): nat
    decreases |run|
  {
    if run == [] then 0 else (if CountTexture(run[0]) > 0 then 1 else 0) + TextureWorkDraws(run[1..])
  }

  /** In a run of draws without FBO textures from a cache that is set up and enabled, a draw
      touches the texture exactly when its texture id or texture matrix differs from the
      previous draw's (the first draw compared with the cache). */
  lemma {:induction false} RunTextureWork(c: CacheFields, caps: Caps, targetId: nat, view: View, calls: seq<DrawCall>)
    requires c.glStatesSet && c.enable
    requires forall i :: 0 <= i < |calls| ==> !IsFboTexture(calls[i].states.texture)
    ensures TextureWorkDraws(RunCommands(c, caps, targetId, view, calls))
         == Changes((c.lastTextureId, c.lastTextureMatrix), TextureKeys(calls))
    decreases |calls|
  {
    if calls != [] {
      var call := calls[0];
      var rest := calls[1..];
      assert forall i :: 0 <= i < |rest| ==> !IsFboTexture(rest[i].states.texture) by {
        forall i | 0 <= i < |rest| ensures !IsFboTexture(rest[i].states.texture) {
          assert rest[i] == calls[i + 1];
        }
      }
      var key := (TextureId(call.states.texture), TextureMatrix(call.states.textureTransform));
      assert TextureKeys(calls) == (if call.count == 0 then [] else [key]) + TextureKeys(rest);
      if call.count == 0 {
        RunTextureWork(c, caps, targetId, view, rest);
        assert [] + TextureKeys(rest) == TextureKeys(rest);
      } else {
        var c' := DrawVerticesCache(c, targetId, call.count, call.states);
        DrawVerticesCacheRecords(c, targetId, call.count, call.states);
        RunTextureWork(c', caps, targetId, view, rest);
        DrawVerticesCounts(c, caps, targetId, view, call.count, call.primitive, call.states);
        ChangesCons((c.lastTextureId, c.lastTextureMatrix), key, TextureKeys(rest));
      }
    }
  }
}
