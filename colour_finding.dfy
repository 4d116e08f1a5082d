/** The colour-uniform elision of setupDraw as the code writes it, and an input on which it
    leaves a shader without the draw's colour. The rest of the model uses the corrected
    test CacheSpec.ColourApplied, for which GlSemantics.DrawVerticesSound proves that every
    shader holds the draw's colour when the draw call is issued. */
module ColourUniformFinding {
  import opened Graphics
  import opened CacheSpec
  import opened GlSemantics

  /** The colour phase as written: the test is evaluated on the cache as setupDraw found
      it, and only `lastColor` is recorded. */
  function ColourPhaseCommandsAsWritten(c: CacheFields, states: RenderStates): (cmds: seq<Command>)
    ensures cmds != [] <==> ColourAppliedAsWritten(c, states)
    ensures cmds != [] ==> cmds == [SetColourUniform(states.shader.value.handle, states.color)]
  {
    if ColourAppliedAsWritten(c, states) then [SetColourUniform(states.shader.value.handle, states.color)] else []
  }

  function ColourPhaseCacheAsWritten(c: CacheFields, states: RenderStates): (r: CacheFields)
    ensures r == c.(lastColor := r.lastColor)
    ensures r.lastColor == (if ColourAppliedAsWritten(c, states) then states.color else c.lastColor)
  {
    if ColourAppliedAsWritten(c, states) then c.(lastColor := states.color) else c
  }

  const Red: Color := Color(255, 0, 0, 255)

  /** Two shaders that the caller did not bind beforehand. */
  const ShaderA: Shader := Shader(1, false)
  const ShaderB: Shader := Shader(2, false)

  const DrawWithA: RenderStates := DefaultStates.(shader := Some(ShaderA), color := Red)
  const DrawWithB: RenderStates := DefaultStates.(shader := Some(ShaderB), color := Red)

  /** A context right after resetGLStates, in which no shader was ever sent a colour. */
  const FreshContext: GlState := GlState(GlBlendOf(BlendAlpha), 0, PixelsOf(0), Identity, 0, true, 0, map[], None,
                                        FromClient(UserVertices), FromClient(UserVertices))

  /** Draw with shader A in red, then with shader B in red: as written, the second draw's
      shader and colour phases leave shader B without any colour, because lastProgram does
      not follow shaders that are not pre-bound and the cached colour is already red. */
  lemma ColourElisionAsWrittenCounterexample()
    ensures var c0 := ResetBaseline(NewCache);
      var g1 := Exec(FreshContext, ShaderPhaseCommands(c0, DrawWithA, false) + ColourPhaseCommandsAsWritten(c0, DrawWithA));
      var c1 := ShaderPhaseCache(ColourPhaseCacheAsWritten(c0, DrawWithA), DrawWithA);
      var g2 := Exec(g1, ShaderPhaseCommands(c1, DrawWithB, false) + ColourPhaseCommandsAsWritten(c1, DrawWithB));
      && ShaderColourCorrect(g1, DrawWithA)
      && ColourPhaseCommandsAsWritten(c1, DrawWithB) == []
      && !ShaderColourCorrect(g2, DrawWithB)
  {
    var c0 := ResetBaseline(NewCache);
    assert c0.enable && c0.lastColor == Black && c0.lastProgram == 0;
    var sh1 := ShaderPhaseCommands(c0, DrawWithA, false);
    assert sh1 == [BindShader(1)];
    var co1 := ColourPhaseCommandsAsWritten(c0, DrawWithA);
    assert co1 == [SetColourUniform(1, Red)];
    ExecTwo(FreshContext, BindShader(1), SetColourUniform(1, Red));
    assert sh1 + co1 == [BindShader(1), SetColourUniform(1, Red)];
    var g1 := Exec(FreshContext, sh1 + co1);
    assert g1.colourUniform == map[1 := Red];
    var c1 := ShaderPhaseCache(ColourPhaseCacheAsWritten(c0, DrawWithA), DrawWithA);
    assert c1.lastColor == Red && c1.lastProgram == 0 && c1.enable;
    var sh2 := ShaderPhaseCommands(c1, DrawWithB, false);
    assert sh2 == [BindShader(2)];
    assert ColourPhaseCommandsAsWritten(c1, DrawWithB) == [];
    assert sh2 + [] == [BindShader(2)];
    ExecOne(g1, BindShader(2));
  }

  /** On the same input the corrected test sends shader B its colour. */
  lemma ColourElisionCorrected()
    ensures var c0 := ResetBaseline(NewCache);
      var c1 := ShaderPhaseCache(ColourPhaseCache(c0, DrawWithA), DrawWithA);
      ColourPhaseCommands(c1, DrawWithB) == [SetColourUniform(ShaderB.handle, Red)]
  {
    var c0 := ResetBaseline(NewCache);
    assert c0.lastColourProgram == None;
    var c1 := ShaderPhaseCache(ColourPhaseCache(c0, DrawWithA), DrawWithA);
    assert c1.lastColourProgram == Some(ShaderA.handle);
  }

  const DrawBlackWithA: RenderStates := DefaultStates.(shader := Some(ShaderA), color := Black)

  /** The first draw after a reset, in opaque black with a shader that is not pre-bound: as
      written the colour test sees the default colour of the new record and sends nothing,
      so the shader is left without its colour; the corrected test sends it. */
  lemma FirstBlackDrawAsWrittenCounterexample()
    ensures var c0 := ResetBaseline(NewCache);
      var g1 := Exec(FreshContext, ShaderPhaseCommands(c0, DrawBlackWithA, false)
                                   + ColourPhaseCommandsAsWritten(c0, DrawBlackWithA));
      && ColourPhaseCommandsAsWritten(c0, DrawBlackWithA) == []
      && !ShaderColourCorrect(g1, DrawBlackWithA)
      && ColourPhaseCommands(c0, DrawBlackWithA) == [SetColourUniform(ShaderA.handle, Black)]
  {
    var c0 := ResetBaseline(NewCache);
    assert c0.enable && c0.lastColor == Black && c0.lastProgram == 0 && c0.lastColourProgram == None;
    var sh := ShaderPhaseCommands(c0, DrawBlackWithA, false);
    assert sh == [BindShader(1)];
    assert ColourPhaseCommandsAsWritten(c0, DrawBlackWithA) == [];
    assert sh + [] == [BindShader(1)];
    ExecOne(FreshContext, BindShader(1));
  }
}
