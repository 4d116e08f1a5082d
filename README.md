# SFML render-state cache and sprite, modelled in Dafny

This project models the render-state cache and draw dispatcher of `sf::RenderTarget` in
this SFML branch, together with `sf::Sprite`. The properties it proves come from the code
of `RenderTarget.cpp` and `Sprite.cpp`.

A render target never talks to the graphics driver directly here. Every OpenGL call it
would make is appended as a `Command` value to a `CommandLog`. Redundant-state elision
then becomes a statement about that trace.

The project has these parts:

- `graphics.dfy` (module `Graphics`) holds the value types: colours, rectangles,
  transforms, blend modes, textures, shaders, render states, vertices, vertex buffers,
  views, the driver's capabilities and the command vocabulary.
- `gl_constants.dfy` (module `GlConstants`) holds `factorToGlConstant`,
  `equationToGlConstant` and the primitive-mode table. Each comes with its inverse, so
  each mapping is proved total and injective.
- `cache_spec.dfy` (module `CacheSpec`) describes each step of the cache as values:
  - the `CacheFields` record of `StatesCache`;
  - for every step (`setActive`, `resetGLStates`, each phase of `setupDraw`,
    `cleanupDraw`, both `draw` overloads, `clear`), the commands it issues and the record
    it leaves.
- `render_target.dfy` (module `RenderTargets`) is the imperative model:
  - classes `StatesCache`, `Registry` and `RenderTarget`;
  - `Registry` holds the file-scope globals: the id counter, the context-to-target map,
    the context-to-cache map and `lastActiveContextId`;
  - every method is proved to issue exactly the `CacheSpec` commands and to leave exactly
    the `CacheSpec` record;
  - the `vertexCache` fill loop is a `while` loop over the cache's array.
- `cache_lemmas.dfy` (module `CacheProperties`) proves the diffing claims:
  - a blend or texture command is issued iff the cache is off or the value differs;
  - the view command is issued iff the cache is off or another target's view is applied;
  - what each cache field holds after each step;
  - over a whole sequence of draws, blend and texture work is done once per change.
- `gl_state.dfy` (module `GlSemantics`) interprets the command trace as a driver state.
  It proves the cache sound: whenever the cache is on it mirrors the driver, every draw
  reaches the driver with the state its `RenderStates` asks for, and every draw leaves
  the cache mirroring the driver again.
- `colour_finding.dfy` (module `ColourUniformFinding`) and parts of `sprite.dfy` hold the
  discrepancies listed under Findings: each as the code writes it, with the input that
  shows it.
- `sprite.dfy` (module `Sprites`) models `sf::Sprite`. It is the class `Sprite`, proved
  against value-level functions with these lemmas:
  - setting the rectangle is idempotent;
  - the rectangle-reset rule holds both ways;
  - local bounds are never negative;
  - the drawn quad covers the local bounds and samples exactly the texture rectangle.

`isActive` is the predicate `Registry.IsActive`: the map has an entry for the context
and that entry is the target's id. It reads the registry and changes nothing. The
activation guard `isActive(m_id) || setActive(true)` is the method
`RenderTarget.EnsureActive`.

Where the code and its comments or documentation differ, the code is followed. For
example, `setActive(true)` clears `enable` only when the context differs from the last
activated one. It does not clear it when another target becomes active on the same
context.

There are three exceptions, each listed under Findings. In each, the code as written is
a separate member with a counterexample, and the rest of the model runs a corrected
version:

- `RenderTargets.RenderTarget.ColourPhase` runs the corrected colour-uniform test. It
  uses the added cache field `lastColourProgram`.
- `Sprites.Sprite.UpdateTexCoords` computes the corrected texture transform for flipped
  storage.
- `Sprites.Sprite.SetTexture` recomputes the transforms for every new texture.

## Model

| member | source | states |
|---|---|---|
| `RenderTargets.Registry.constructor` | src/SFML/Graphics/RenderTarget.cpp:74-87 | The id counter starts at 1, both maps are empty and the last active context is `(Uint64) -1`. |
| `RenderTargets.Registry.GetUniqueId` | src/SFML/Graphics/RenderTarget.cpp:70-77 | The id returned is the old counter: never 0. The counter grows by one, so successive ids strictly increase. Nothing else changes. |
| `RenderTargets.StatesCache.constructor` | src/SFML/Graphics/RenderTarget.cpp:524-530 | A new cache has `glStatesSet` and `enable` false and a fresh vertex cache of `VertexCacheSize` entries. |
| `RenderTargets.Registry.Activate` | src/SFML/Graphics/RenderTarget.cpp:511-565 | setActive always returns true. It creates the context's cache when absent with `glStatesSet`/`enable` false. It clears `enable` only when the last active context differed and the target was not already active there. It records the target (active) or erases the entry (inactive), so `isActive` holds afterwards or fails for every id. It keeps every other cache as the same object and sets the last context. |
| `RenderTargets.Registry.CreateCache` | src/SFML/Graphics/RenderTarget.cpp:524-530 | A context without a cache gets a fresh one with `glStatesSet` and `enable` false; an existing cache is kept as it is. The registry stays valid, and the other maps and the counter are unchanged. |
| `RenderTargets.Registry.RecordTarget` | src/SFML/Graphics/RenderTarget.cpp:543-561 | Activating records the target under the context and deactivating erases the context's entry. `changed` (whether setActive may clear `enable`) is false exactly when activating a target already recorded there. Nothing else changes. |
| `RenderTargets.Registry.IsActive` | src/SFML/Graphics/RenderTarget.cpp:90-98 | isActive: the context has an entry in the target map and it is this id. It reads only the registry. The contracts of `Activate` and `EnsureActive` are stated with it. |
| `CacheSpec.ActivatedCache` | src/SFML/Graphics/RenderTarget.cpp:523-561 | The context's record after setActive: an absent record is `NewCache`, and `enable` is cleared when asked. `NewCache` has `glStatesSet` and `enable` false, alpha blending and opaque black (the default-constructed `BlendMode` and `Color`). |
| `RenderTargets.RenderTarget.SetActive` | src/SFML/Graphics/RenderTarget.cpp:511-565 | The target's setActive: the same post-state as `Registry.Activate` for the target's own id. |
| `RenderTargets.RenderTarget.EnsureActive` | src/SFML/Graphics/RenderTarget.cpp:361 | `isActive(m_id) \|\| setActive(true)`: afterwards the target is active. If it already was, the registry and its cache are untouched. Otherwise the cache is created or has `enable` cleared as setActive says, and only the map entry and the last context change. The cache a draw then works on is `ActiveEntry`. |
| `GlSemantics.ActivationSound` | src/SFML/Graphics/RenderTarget.cpp:534-561 | A cache that activation does not disable was mirroring the driver and still does: clearing `enable` only on a context change is enough. |
| `RenderTargets.RenderTarget.constructor` | src/SFML/Graphics/RenderTarget.cpp:183-190 | Id 0 ("no target"), default views, an empty sprite buffer. |
| `RenderTargets.RenderTarget.Initialize` | src/SFML/Graphics/RenderTarget.cpp:682-694 | The default view covers the target's size and becomes the current view. The target takes the next unique id; the maps are untouched. |
| `RenderTargets.RenderTarget.SetView` | src/SFML/Graphics/RenderTarget.cpp:224-231 | Stores the view, activates the target and invalidates the applied view (`lastRenderTargetView := 0`) in the record of the context current at the call; no other cache field changes and no other context's record is touched. |
| `RenderTargets.RenderTarget.ApplyCurrentView` | src/SFML/Graphics/RenderTarget.cpp:698-713 | Issues the view and records this target as the one whose view is applied. |
| `RenderTargets.RenderTarget.ApplyBlendMode` | src/SFML/Graphics/RenderTarget.cpp:717-761 | Issues the blend function (separate or not) and the equation when the driver has it, and records the mode. |
| `RenderTargets.RenderTarget.ApplyTransform` | src/SFML/Graphics/RenderTarget.cpp:765-773 | Loads the identity for the identity transform, the matrix otherwise. |
| `RenderTargets.RenderTarget.ApplyTexture` | src/SFML/Graphics/RenderTarget.cpp:777-803 | With a texture transform: binds the texture unless only the transform is wanted, then loads that matrix. Without one: binds the texture in pixel coordinates. Afterwards `lastTextureId` is the texture's cache id (0 for none) and `lastTextureMatrix` the transform's 16 entries (all zeros for none). |
| `RenderTargets.RenderTarget.ApplyShader` | src/SFML/Graphics/RenderTarget.cpp:807-810 | Binds the given program, or program 0 for none. |
| `RenderTargets.RenderTarget.IssueBaselineStates` | src/SFML/Graphics/RenderTarget.cpp:637-655 | Texture unit 0 when multitexturing exists, then the fixed baseline states, the identity model-view and the client arrays. |
| `RenderTargets.RenderTarget.ApplyDefaultStates` | src/SFML/Graphics/RenderTarget.cpp:657-662 | Marks the states set, applies alpha blending and unbinds the texture, with the matching cache fields. |
| `RenderTargets.RenderTarget.UnbindProgramAndBuffer` | src/SFML/Graphics/RenderTarget.cpp:663-667 | Unbinds the program when shaders exist and the vertex buffer when buffers exist. |
| `RenderTargets.RenderTarget.ResetCacheStates` | src/SFML/Graphics/RenderTarget.cpp:637-677 | The whole reset sequence on an active target. The cache ends with `glStatesSet`, `enable` and `texCoordsArrayEnabled` true, `useVertexCache` false, `lastVBO` = `lastProgram` = 0, `lastBlendMode` = alpha, no texture, and the view invalidated. |
| `RenderTargets.RenderTarget.ResetGLStates` | src/SFML/Graphics/RenderTarget.cpp:620-679 | Activates the target, then leaves exactly the reset record and issues exactly the reset commands. |
| `CacheSpec.ResetCommands` | src/SFML/Graphics/RenderTarget.cpp:637-677 | The commands resetGLStates issues, in order. `GlSemantics.ResetEffect` says what they do to the driver; `CacheProperties.ResetCount` counts them. |
| `CacheSpec.ResetBaseline` | src/SFML/Graphics/RenderTarget.cpp:657-677 | The record resetGLStates leaves. `CacheProperties.ResetBaselineState` gives it field by field. |
| `CacheProperties.ResetBaselineState` | src/SFML/Graphics/RenderTarget.cpp:657-677 | The reset record field by field, whatever the cache held before; the cached colour is kept. |
| `GlSemantics.ResetEffect` | src/SFML/Graphics/RenderTarget.cpp:637-672 | On a driver with full blending support (`FullBlendCaps`), the reset commands leave the identity model-view, the texture-coordinate array, alpha blending and no texture. They leave no vertex buffer bound when the driver has vertex buffers, and the old binding otherwise. The view and the pointers are untouched. |
| `GlSemantics.ResetSound` | src/SFML/Graphics/RenderTarget.cpp:620-679 | The record resetGLStates leaves mirrors the driver state its commands produce. |
| `CacheProperties.ResetCount` | src/SFML/Graphics/RenderTarget.cpp:661-662 | A reset issues one blend application and exactly one texture command. |
| `RenderTargets.RenderTarget.SetupGLStates` | src/SFML/Graphics/RenderTarget.cpp:199-207 | Activates the target and resets it exactly when its context's states were never set. |
| `RenderTargets.RenderTarget.ClearTarget` | src/SFML/Graphics/RenderTarget.cpp:210-220 | Unbinds the texture through the cache, then clears with the colour. |
| `GlSemantics.ClearSound` | src/SFML/Graphics/RenderTarget.cpp:210-220 | Clearing keeps the cache mirroring the driver and leaves no texture bound. |
| `RenderTargets.RenderTarget.TransformPhase` | src/SFML/Graphics/RenderTarget.cpp:820-829 | Pre-transformed draws load the identity only when the cache is off or was not in vertex-cache mode; other draws apply their transform. |
| `RenderTargets.RenderTarget.ViewPhase` | src/SFML/Graphics/RenderTarget.cpp:831-834 | The view is applied when the cache is off or another target's view is applied; only `lastRenderTargetView` changes. |
| `RenderTargets.RenderTarget.BlendPhase` | src/SFML/Graphics/RenderTarget.cpp:836-838 | The blend mode is applied when the cache is off or the mode differs; only `lastBlendMode` changes. |
| `RenderTargets.RenderTarget.TexturePhase` | src/SFML/Graphics/RenderTarget.cpp:840-865 | FBO textures and a disabled cache rebind. Otherwise the texture is rebound when the id differs, and only the transform is reloaded when the id matches but the matrix does not. Reports whether the texture changed. |
| `RenderTargets.RenderTarget.ShaderPhase` | src/SFML/Graphics/RenderTarget.cpp:874-901 | A pre-bound shader rebinds its current texture / its textures under the code's conditions and is recorded as the current program. No shader records program 0. A shader that is not pre-bound is bound. |
| `RenderTargets.RenderTarget.ColourPhase` | src/SFML/Graphics/RenderTarget.cpp:903-911 | The colour uniform is sent unless the cache is on and this very program already holds this colour (corrected test, see Findings). |
| `RenderTargets.RenderTarget.SetupDrawPhases` | src/SFML/Graphics/RenderTarget.cpp:820-911 | The phases in the code's order: the trace is their concatenation and the record is `SetupDrawCache`. |
| `RenderTargets.RenderTarget.PrepareStates` | src/SFML/Graphics/RenderTarget.cpp:817-818 | A cache whose states were never set is reset: it gets exactly the reset record and the trace gains exactly the reset commands. Otherwise nothing changes. The registry is untouched either way. |
| `RenderTargets.RenderTarget.SetupDraw` | src/SFML/Graphics/RenderTarget.cpp:814-912 | Resets first if the states were never set, then runs the phases. The registry is unchanged. |
| `CacheProperties.BlendReappliedIff` | src/SFML/Graphics/RenderTarget.cpp:836-838 | setupDraw issues blend commands iff the cache is off or the draw's blend mode differs from the cached one; afterwards the cached mode is the draw's. |
| `CacheProperties.TextureReappliedIff` | src/SFML/Graphics/RenderTarget.cpp:840-865 | setupDraw issues a texture command iff the cache is off, the texture is an FBO attachment, or the id or the 16-entry matrix differs. So an enabled cache with the same id and matrix issues none for a non-FBO texture. |
| `CacheProperties.ViewReappliedIff` | src/SFML/Graphics/RenderTarget.cpp:831-834 | On a cache that is set up, setupDraw issues the target's `ApplyView` iff the cache is off or `lastRenderTargetView` names another target. So an enabled cache that already records this target issues none. Afterwards the record names this target. |
| `CacheProperties.ViewReappliedAfterSetView` | src/SFML/Graphics/RenderTarget.cpp:831-834 | On the record setView invalidated, that of the context current at the call, the next setupDraw of a (non-zero) target applies its view and records it. |
| `CacheProperties.SetupDrawCacheRecords` | src/SFML/Graphics/RenderTarget.cpp:814-912 | What every field holds after setupDraw: states set, the draw's view owner, blend mode, texture id and matrix; program and colour as the shader rules say; `enable` and the buffer fields untouched. |
| `CacheProperties.SetupDrawCounts` | src/SFML/Graphics/RenderTarget.cpp:814-865 | Blend and texture commands in setupDraw come only from the reset and from the blend and texture phases. |
| `CacheSpec.BlendCommands` | src/SFML/Graphics/RenderTarget.cpp:717-761 | What applyBlendMode issues for each driver variant. `GlSemantics.BlendCommandsEffect` and `CacheProperties.BlendCommandsCount` give its meaning. |
| `CacheSpec.ApplyTextureCommands` | src/SFML/Graphics/RenderTarget.cpp:777-803 | What applyTexture issues. `GlSemantics.ApplyTextureEffect` gives its effect. |
| `CacheSpec.ApplyTextureCache` | src/SFML/Graphics/RenderTarget.cpp:777-803 | What applyTexture records: the texture id and the texture matrix. |
| `CacheSpec.ViewCommands` | src/SFML/Graphics/RenderTarget.cpp:831-834 | The view phase: one `ApplyView` when the cache is off or another target owns the view, else nothing. `CacheProperties.ViewReappliedIff`, `CacheProperties.ViewReappliedAfterSetView` and `GlSemantics.ViewEffect` say what it means. |
| `CacheSpec.TexturePhaseCommands` | src/SFML/Graphics/RenderTarget.cpp:840-865 | The texture phase in the code's three cases. `CacheProperties.TextureReappliedIff` and `GlSemantics.TexturePhaseEffect` say what it means. |
| `CacheSpec.ColourAppliedAsWritten` | src/SFML/Graphics/RenderTarget.cpp:874-911 | The code's colour test. `ColourUniformFinding.ColourElisionAsWrittenCounterexample` shows where it fails. |
| `CacheSpec.ColourApplied` | src/SFML/Graphics/RenderTarget.cpp:903-911 | The corrected colour test: send unless the cache is on and this program already holds this colour. `GlSemantics.ColourPhaseEffect` proves it truthful. |
| `CacheSpec.SetupDrawCommands` | src/SFML/Graphics/RenderTarget.cpp:814-912 | Everything setupDraw issues: the reset when due, then the phases in order. `GlSemantics.SetupDrawSound` gives its effect. |
| `CacheSpec.SetupDrawCache` | src/SFML/Graphics/RenderTarget.cpp:814-912 | The record setupDraw leaves. `CacheProperties.SetupDrawCacheRecords` gives it field by field. |
| `CacheSpec.CleanupCommands` | src/SFML/Graphics/RenderTarget.cpp:929-942 | What cleanupDraw issues. `GlSemantics.CleanupEffect` and `CacheProperties.CleanupCount` say what it means. |
| `CacheSpec.CleanupCache` | src/SFML/Graphics/RenderTarget.cpp:929-942 | What cleanupDraw records: the texture entries reset for an FBO texture, and `enable` set to true whatever it was. |
| `CacheSpec.VertexPrepareCommands` | src/SFML/Graphics/RenderTarget.cpp:385-422 | The buffer unbind, the texture-coordinate switch and the pointer set-up of a vertex draw. `GlSemantics.VertexPrepareEffect` gives its effect. |
| `CacheSpec.DrawVerticesCommands` | src/SFML/Graphics/RenderTarget.cpp:383-429 | Everything a vertex draw issues on an active target. `GlSemantics.DrawVerticesSound` and `CacheProperties.DrawVerticesCounts` say what it means. |
| `CacheSpec.DrawVerticesCache` | src/SFML/Graphics/RenderTarget.cpp:383-429 | The record after a vertex draw. `CacheProperties.DrawVerticesCacheRecords` gives its fields. |
| `CacheSpec.ClampedCount` | src/SFML/Graphics/RenderTarget.cpp:452-460 | The buffer draw's range check. The draw is skipped when `firstVertex` is past the end. Otherwise the count is clamped to the vertices left, and the draw is skipped for an empty range or a buffer without a native handle. `RenderTargets.RenderTarget.DrawBuffer` is proved against it. |
| `CacheSpec.DrawBufferCommands` | src/SFML/Graphics/RenderTarget.cpp:479-505 | Everything a buffer draw issues on an active target. `GlSemantics.DrawBufferSound` gives its effect. |
| `CacheSpec.DrawBufferCache` | src/SFML/Graphics/RenderTarget.cpp:479-505 | The record after a buffer draw. `CacheProperties.DrawBufferCacheRecords` gives its fields. |
| `CacheProperties.BlendCommandsCount` | src/SFML/Graphics/RenderTarget.cpp:717-761 | One blend application is one or two commands and contains no texture command. |
| `CacheProperties.ApplyTextureCount` | src/SFML/Graphics/RenderTarget.cpp:777-803 | applyTexture issues at least one texture command and no blend command. |
| `CacheProperties.CleanupCount` | src/SFML/Graphics/RenderTarget.cpp:929-942 | cleanupDraw issues a texture command exactly for an FBO texture. |
| `CacheProperties.RunBlendCount` | src/SFML/Graphics/RenderTarget.cpp:963-966 | Over any sequence of draws on an enabled cache, blend commands are issued once per change of blend mode, never for a repeated mode. |
| `CacheProperties.RunTextureWork` | src/SFML/Graphics/RenderTarget.cpp:968-973 | Over any sequence of non-FBO draws on an enabled cache, texture work is done exactly once per change of (texture id, matrix). |
| `GlSemantics.BlendCommandsEffect` | src/SFML/Graphics/RenderTarget.cpp:717-761 | With full blending support the driver ends with exactly the mode's constants, and nothing else changes. |
| `GlSemantics.ApplyTextureEffect` | src/SFML/Graphics/RenderTarget.cpp:777-803 | The driver ends with the draw's texture and texture matrix (the bound texture kept when only the transform is applied); nothing else changes. |
| `GlSemantics.TransformEffect` | src/SFML/Graphics/RenderTarget.cpp:820-829 | The model-view becomes the identity for pre-transformed draws and the draw's transform otherwise. |
| `GlSemantics.ViewEffect` | src/SFML/Graphics/RenderTarget.cpp:831-834 | Take a cache whose claim about the applied view is true: when it is on and records this target as the view owner, the driver has this target's view. Then the driver ends with this target's view, whether or not the phase issues the command. Nothing else changes. |
| `GlSemantics.BlendPhaseEffect` | src/SFML/Graphics/RenderTarget.cpp:836-838 | Take a driver with full blending support (`FullBlendCaps`) and a cache whose blend entry is right whenever it is on. Then the driver ends with the draw's blend mode, whether or not a command was issued. |
| `GlSemantics.TexturePhaseEffect` | src/SFML/Graphics/RenderTarget.cpp:840-865 | If the cached texture entries are right whenever the cache is on, the driver ends with the draw's texture and matrix. |
| `GlSemantics.ShaderPhaseEffect` | src/SFML/Graphics/RenderTarget.cpp:874-901 | The shader phase changes only the current program. A shader that is not pre-bound is the current program afterwards. |
| `GlSemantics.ColourPhaseEffect` | src/SFML/Graphics/RenderTarget.cpp:903-911 | With the corrected test, the draw's shader holds the draw's colour afterwards and the colour record stays truthful. |
| `GlSemantics.SetupDrawSound` | src/SFML/Graphics/RenderTarget.cpp:814-912 | Start from a mirroring cache whose view claim holds on the record the phases see. setupDraw then leaves the driver with the draw's view, blend mode, texture, matrix, transform and shader colour, and with the program of a shader that is not pre-bound. The vertex-buffer binding, the texture-coordinate array and the attribute pointers stay as the resulting record states. |
| `GlSemantics.PhasesSound` | src/SFML/Graphics/RenderTarget.cpp:820-911 | On a driver with full blending support (`FullBlendCaps`), the phases after the reset, run on a mirroring record, give the driver the draw's state as above. They leave the buffer binding, the texture-coordinate array and the pointers unchanged. |
| `RenderTargets.RenderTarget.DrawPrimitives` | src/SFML/Graphics/RenderTarget.cpp:916-925 | One draw call with the GL mode of the primitive type. |
| `GlConstants.PrimitiveToGlMode` | src/SFML/Graphics/RenderTarget.cpp:919-921 | The mode table is total and invertible; no type maps to the unused constant 2. |
| `GlConstants.FactorToGlConstant` | src/SFML/Graphics/RenderTarget.cpp:140-159 | Every factor has a constant, and the constant determines the factor. |
| `GlConstants.EquationToGlConstant` | src/SFML/Graphics/RenderTarget.cpp:163-175 | Every equation has a constant in the FUNC_ADD..FUNC_REVERSE_SUBTRACT range, and the constant determines the equation. |
| `GlConstants.GlConstantToFactor` | src/SFML/Graphics/RenderTarget.cpp:140-159 | factorToGlConstant read backwards. `FactorToGlConstant`'s contract makes it a left inverse. |
| `GlConstants.GlConstantToEquation` | src/SFML/Graphics/RenderTarget.cpp:163-175 | equationToGlConstant read backwards. |
| `GlConstants.GlModeToPrimitive` | src/SFML/Graphics/RenderTarget.cpp:919-921 | The `modes` table read backwards. |
| `GlConstants.ConstantsReadBack` | src/SFML/Graphics/RenderTarget.cpp:140-175 | Every constant that reads back as a value is that value's constant, for all three tables. So each table is a bijection onto its constants. |
| `GlConstants.BlendConstantsInjective` | src/SFML/Graphics/RenderTarget.cpp:722-743 | Two blend modes that produce the same six constants are equal. |
| `RenderTargets.RenderTarget.CleanupDraw` | src/SFML/Graphics/RenderTarget.cpp:929-942 | Unbinds a shader that was not pre-bound, unbinds an FBO texture through applyTexture, and re-enables the cache. |
| `GlSemantics.CleanupEffect` | src/SFML/Graphics/RenderTarget.cpp:929-942 | Cleanup changes at most the program and, for an FBO texture, resets the texture to none. |
| `RenderTargets.PreTransformed` | src/SFML/Graphics/RenderTarget.cpp:376-379 | A cached vertex has the transformed position and the original colour and texture coordinates. |
| `RenderTargets.RenderTarget.PreTransform` | src/SFML/Graphics/RenderTarget.cpp:371-381 | After the loop, the first `vertexCount` cache entries are the pre-transformed vertices; the rest of the array is unchanged. |
| `RenderTargets.RenderTarget.PrepareVertexPointers` | src/SFML/Graphics/RenderTarget.cpp:385-422 | Unbinds any vertex buffer, switches the texture-coordinate array when needed, and re-points the arrays at the user's vertices or the vertex cache when the mode changed. |
| `GlSemantics.VertexPrepareEffect` | src/SFML/Graphics/RenderTarget.cpp:385-422 | Afterwards the driver has no vertex buffer, and has the texture-coordinate array exactly when the draw needs it. The vertex pointers read the caller's vertices or the vertex cache, as the draw chose; so does the texture-coordinate pointer when it is needed. This holds both when the pointers are re-set and when they are kept from an earlier draw. |
| `GlSemantics.PointerPrepareEffect` | src/SFML/Graphics/RenderTarget.cpp:401-421 | With no buffer bound, the pointer step leaves the pointers on the chosen client array. The cache's vertex-cache mode stands for pointers set by an earlier draw. |
| `RenderTargets.RenderTarget.FinishVertexDraw` | src/SFML/Graphics/RenderTarget.cpp:385-429 | Pointer set-up, the draw call and cleanup, then `useVertexCache` and `texCoordsArrayEnabled` record this draw. |
| `RenderTargets.RenderTarget.DrawFromSetup` | src/SFML/Graphics/RenderTarget.cpp:383-429 | setupDraw followed by the rest of the draw: the trace and record are `DrawVerticesCommands`/`DrawVerticesCache`. |
| `RenderTargets.RenderTarget.DrawActiveVertices` | src/SFML/Graphics/RenderTarget.cpp:369-429 | Pre-transform is chosen iff the count is at most `VertexCacheSize`, and then the cache holds the pre-transformed vertices. |
| `RenderTargets.RenderTarget.DrawVertices` | src/SFML/Graphics/RenderTarget.cpp:345-431 | No vertices or zero vertices: nothing changes and nothing is issued. Otherwise: activation, then exactly the vertex-draw commands and record. |
| `CacheProperties.DrawVerticesCacheRecords` | src/SFML/Graphics/RenderTarget.cpp:424-429 | After a vertex draw the cache is enabled, `useVertexCache` is the pre-transform choice, `texCoordsArrayEnabled` is (texture or shader), `lastVBO` is 0, and the blend and texture fields are the draw's (none after an FBO texture). |
| `CacheProperties.DrawVerticesCounts` | src/SFML/Graphics/RenderTarget.cpp:383-429 | A whole vertex draw issues blend commands iff the cache is off or the mode differs, and, for a non-FBO texture, texture commands iff the cache is off or the id or matrix differs. |
| `GlSemantics.DrawVerticesSound` | src/SFML/Graphics/RenderTarget.cpp:345-431 | The draw call reaches the driver with the state and view the draw asks for and no vertex buffer. The attribute pointers are on the caller's vertices or on the vertex cache, as the draw uses them, and the texture-coordinate array is right. Afterwards the record mirrors the driver, the view claim included. |
| `RenderTargets.RenderTarget.PrepareBufferPointers` | src/SFML/Graphics/RenderTarget.cpp:481-497 | Binds the buffer and sets the pointers when the cache is off or another buffer is bound; always enables texture coordinates when needed. |
| `GlSemantics.DrawLeavesMirror` | src/SFML/Graphics/RenderTarget.cpp:424-429 | Take the driver state at a draw call and the record the draw ends with. After cleanup the record mirrors the driver, with the pointers, the colour record and the view claim included. |
| `GlSemantics.BufferPrepareEffect` | src/SFML/Graphics/RenderTarget.cpp:481-497 | Afterwards the driver has this buffer bound and the texture-coordinate array on. All pointers read from this buffer, whether set now or at an earlier draw of the same buffer. |
| `RenderTargets.RenderTarget.FinishBufferDraw` | src/SFML/Graphics/RenderTarget.cpp:481-505 | Buffer set-up, the draw call of the clamped range and cleanup, then `useVertexCache` false and `texCoordsArrayEnabled` true. |
| `RenderTargets.RenderTarget.DrawActiveBuffer` | src/SFML/Graphics/RenderTarget.cpp:479-505 | setupDraw without pre-transform, then the buffer draw: exactly `DrawBufferCommands`/`DrawBufferCache`. |
| `RenderTargets.RenderTarget.DrawCheckedBuffer` | src/SFML/Graphics/RenderTarget.cpp:472-506 | Activation, then the buffer draw on the context's cache. |
| `RenderTargets.RenderTarget.DrawBuffer` | src/SFML/Graphics/RenderTarget.cpp:442-507 | No buffer support, `firstVertex` past the end, an empty clamped range or no native handle: a no-op. Otherwise the count is clamped to `count - firstVertex` and the draw issued. |
| `CacheProperties.DrawBufferCacheRecords` | src/SFML/Graphics/RenderTarget.cpp:492-505 | After a buffer draw `lastVBO` is the buffer's handle, `useVertexCache` is false, texture coordinates are on and the cache is enabled. |
| `GlSemantics.DrawBufferSound` | src/SFML/Graphics/RenderTarget.cpp:442-507 | The buffer draw reaches the driver with the requested state and view, this buffer bound, and the pointers reading from it. Afterwards the record mirrors the driver, the view claim included. |
| `RenderTargets.RenderTarget.DrawWholeBuffer` | src/SFML/Graphics/RenderTarget.cpp:435-438 | Draws the whole buffer from vertex 0. |
| `RenderTargets.RenderTarget.GetSpriteVBO` | src/SFML/Graphics/RenderTarget.cpp:262-291 | Activates the target. An empty sprite buffer becomes the 4-vertex white unit-square strip; an existing one is left alone. |
| `ColourUniformFinding.ColourPhaseCommandsAsWritten` | src/SFML/Graphics/RenderTarget.cpp:903-911 | The code's colour test: the colour is sent iff that test holds, and then to the draw's shader. |
| `ColourUniformFinding.ColourPhaseCacheAsWritten` | src/SFML/Graphics/RenderTarget.cpp:903-911 | As written only `lastColor` is recorded, and only when the colour is sent. |
| `ColourUniformFinding.ColourElisionAsWrittenCounterexample` | src/SFML/Graphics/RenderTarget.cpp:874-911 | Two draws in red with two shaders that are not pre-bound: as written the second shader never receives its colour. |
| `ColourUniformFinding.FirstBlackDrawAsWrittenCounterexample` | src/SFML/Graphics/RenderTarget.cpp:524-530 | The first draw after a reset is in opaque black with a shader that is not pre-bound. As written, the test compares against the new record's default colour and sends nothing, so the shader lacks its colour. The corrected test sends it. |
| `ColourUniformFinding.ColourElisionCorrected` | src/SFML/Graphics/RenderTarget.cpp:874-911 | On the same input the corrected test sends the second shader its colour. |
| `Sprites.Sprite.constructor` | src/SFML/Graphics/Sprite.cpp:38-43 | No texture, the empty rectangle, white, identity transforms. |
| `Sprites.Sprite.FromTexture` | src/SFML/Graphics/Sprite.cpp:47-53 | The default sprite given the texture; its rectangle becomes the whole texture. |
| `Sprites.Sprite.FromTextureRect` | src/SFML/Graphics/Sprite.cpp:57-64 | Texture and rectangle taken as given, white, transforms computed for them. |
| `Sprites.Sprite.UpdatePositions` | src/SFML/Graphics/Sprite.cpp:158-166 | Only the vertex transform changes, to the one for the current rectangle. |
| `Sprites.Sprite.UpdateTexCoords` | src/SFML/Graphics/Sprite.cpp:170-195 | Only the texture transform changes, to the (corrected) one for the current texture and rectangle. |
| `Sprites.Sprite.SetTexture` | src/SFML/Graphics/Sprite.cpp:68-78 | The new state is `WithTexture` of the old one; the sprite's consistency is kept. |
| `Sprites.Sprite.SetTextureRect` | src/SFML/Graphics/Sprite.cpp:82-90 | The new state is `WithTextureRect` of the old one; consistency is kept. |
| `Sprites.Sprite.SetColor` | src/SFML/Graphics/Sprite.cpp:94-97 | getColor returns the colour set; nothing else changes. |
| `Sprites.Sprite.Draw` | src/SFML/Graphics/Sprite.cpp:139-154 | No texture: nothing changes and nothing is issued. With a texture (a shader required): the target's sprite buffer is created if empty, then drawn whole with the sprite's submitted states. |
| `Sprites.Sprite.GetColor` | src/SFML/Graphics/Sprite.cpp:115-118 | getColor returns the sprite's colour. `SetColor`'s contract is stated with it. |
| `Sprites.Sprite.GetLocalBounds` | src/SFML/Graphics/Sprite.cpp:122-128 | getLocalBounds is anchored at the origin and its width and height are never negative. |
| `Sprites.LocalBounds` | src/SFML/Graphics/Sprite.cpp:122-128 | Left and top are 0; width and height are the absolute extents of the rectangle, never negative. |
| `Sprites.VertexTransformScales` | src/SFML/Graphics/Sprite.cpp:158-166 | The vertex transform sends the unit square onto the local bounds. |
| `Sprites.TexCoordTransformAsWritten` | src/SFML/Graphics/Sprite.cpp:170-195 | The code's texture transform; for unflipped textures it is the corrected one. |
| `Sprites.TexCoordTransformOf` | src/SFML/Graphics/Sprite.cpp:170-195 | The corrected texture transform: its scale and origin are the rectangle's width and left over the storage width. |
| `Sprites.TexCoordsFollowRect` | src/SFML/Graphics/Sprite.cpp:170-195 | The corrected transform sends each unit-square point to the texel, as `Texture::bind` normalises it, of the matching point of the rectangle, flipped storage included. |
| `Sprites.TexCoordsAsWrittenAgreeIff` | src/SFML/Graphics/Sprite.cpp:183-188 | The code's transform equals the corrected one iff the storage is not flipped or the rectangle starts at the top row. |
| `Sprites.FlippedTexCoordsAsWrittenCounterexample` | src/SFML/Graphics/Sprite.cpp:183-188 | For the lower half of a flipped 10x10 texture the code samples from height 1.5, outside the texture, instead of 0.5. |
| `Sprites.Refreshed` | src/SFML/Graphics/Sprite.cpp:87-88 | Recomputing both transforms makes the sprite consistent and keeps texture, rectangle and colour. |
| `Sprites.WithTextureRect` | src/SFML/Graphics/Sprite.cpp:82-90 | The rectangle becomes the new one. The same rectangle changes nothing at all. Texture and colour are kept, and consistency is preserved. |
| `Sprites.TextureRectIdempotent` | src/SFML/Graphics/Sprite.cpp:82-90 | Setting the same rectangle twice is setting it once. |
| `Sprites.FullRect` | src/SFML/Graphics/Sprite.cpp:77 | The whole-texture rectangle starts at the origin and its bounds are the texture's size. |
| `Sprites.WithTextureAsWritten` | src/SFML/Graphics/Sprite.cpp:68-78 | The code's setTexture: always takes the texture, resets the rectangle under the rule, and keeps the old transforms when the rectangle is unchanged. |
| `Sprites.WithTexture` | src/SFML/Graphics/Sprite.cpp:68-78 | Corrected setTexture: always takes the texture. The rectangle becomes the whole texture when `resetRect` holds or the sprite had neither texture nor rectangle; otherwise it is kept. The result is consistent. |
| `Sprites.RectResetIff` | src/SFML/Graphics/Sprite.cpp:75-77 | setTexture changes the rectangle iff the reset rule holds and the whole texture differs from the current rectangle. |
| `Sprites.SetTextureIdempotent` | src/SFML/Graphics/Sprite.cpp:68-78 | Setting the same texture twice with the same flag is setting it once. |
| `Sprites.WithTextureAsWrittenAgrees` | src/SFML/Graphics/Sprite.cpp:68-78 | Whenever the code's setTexture changes the rectangle it agrees with the corrected one. |
| `Sprites.StaleTexCoordsAsWrittenCounterexample` | src/SFML/Graphics/Sprite.cpp:68-78 | Swapping a padded texture for an unpadded one of the same size with a reset leaves the code's sprite inconsistent; the corrected one stays consistent. |
| `Sprites.SubmittedStates` | src/SFML/Graphics/Sprite.cpp:148-151 | The submitted states carry the sprite's texture, texture transform and colour, and keep the caller's blend mode and shader. |
| `Sprites.SubmittedQuadCoversBounds` | src/SFML/Graphics/Sprite.cpp:148-152 | Under the submitted transform each unit-square point lands where the matching point of the local bounds lands under the caller's and the sprite's transforms. |
| `Sprites.SubmittedTexCoordsFollowRect` | src/SFML/Graphics/Sprite.cpp:150-152 | Under the submitted texture transform the quad samples exactly the sprite's texture rectangle. |

## Left out

- OpenGL calls, `Texture::bind`, `Shader::bind` and `VertexBuffer::bind` are `Command` values in a trace; their effect on the driver is the interpreter in `GlSemantics`, not the real driver.
- `Context::getActiveContextId` is the parameter `ctx`. The `GLEXT_*` flags, `Shader::isAvailable` and `VertexBuffer::isAvailable` are the parameter `caps`.
- The mutex around the id counter and the maps is left out: the model is single-threaded.
- `StatesCache::VertexCacheSize` is 4: RenderTarget.hpp is not part of this model, and 4 is the SFML 2 value.
- Floats are exact reals: no rounding, infinities or NaN. `getViewport`, `mapPixelToCoords` and `mapCoordsToPixel` are left out. `applyCurrentView`'s viewport and projection are one `ApplyView(view)` command.
- `getSize` belongs to the derived targets, so `Initialize` takes the size as a parameter. `View::reset` is not part of this model: `ViewOfRect` gives its centre, size and rotation.
- `pushGLStates`/`popGLStates` are left out, apart from the `resetGLStates` that `pushGLStates` performs: they only save and restore the driver's matrix stacks.
- The macOS `setActive(false)` workaround, the `SFML_DEBUG` assertions, the OpenGL ES `Quads` checks and `err()` logging are left out. So is `checkShaderIsBoundState`, which only reports.
- `getCache`'s fallback static cache (an `assert(false)` path) is out of reach: `Registry.Valid` keeps every context in the target map present in the cache map.
- `StatesCache` integer and flag fields that the code leaves uninitialised at creation get fixed values in `NewCache`. `lastBlendMode` and `lastColor` are what `sf::BlendMode` and `sf::Color` construct by default: alpha blending and opaque black (0, 0, 0, 255). Color.hpp and BlendMode.cpp are not part of this model, so these two defaults are SFML 2's documented ones.
- `RenderTargets.RenderTarget.ResetCacheStates`: the closing `setView(getView())` is applied as its effect on an active target (`lastRenderTargetView := 0`, the view unchanged), not as a call.
- `RenderTargets.Registry.GetUniqueId`: the 64-bit counter is unbounded here; its wrap-around after 2^64 ids is not modelled.
- `RenderTargets.RenderTarget.DrawBuffer`: the `GLint`/`GLsizei` casts of `firstVertex` and the count are not modelled; counts are unbounded naturals.
- `GlSemantics.ResetSound`: proved only for a driver with separate blend functions, separate blend equations, min/max and subtract (`FullBlendCaps`), and, without vertex buffers, none bound. With fewer blend extensions the code sets only part of the blend state, which the interpreter does not track.
- `GlSemantics.ResetEffect`: the same `FullBlendCaps` precondition. No vertex buffer is bound afterwards only on a driver that has vertex buffers, because only then does the reset unbind one.
- `GlSemantics.BlendPhaseEffect`: the same `FullBlendCaps` precondition.
- `GlSemantics.PhasesSound`: the same `FullBlendCaps` precondition.
- `GlSemantics.SetupDrawSound`: the same `FullBlendCaps` and vertex-buffer preconditions.
- `GlSemantics.DrawVerticesSound`: the same `FullBlendCaps` and vertex-buffer preconditions.
- `GlSemantics.DrawBufferSound`: the same `FullBlendCaps` and vertex-buffer preconditions.
- `GlSemantics.SetupDrawSound`: the current program is asserted only for a shader that is not pre-bound. For a pre-bound shader the caller bound it. Without a shader the code binds nothing and only checks program 0 in an `SFML_DEBUG` assertion, which is left out.
- `GlSemantics.ViewEffect`: the claim that the target recorded in `lastRenderTargetView` has its view applied (`ViewMirrors`) is a precondition of each draw, not an invariant carried across every target's `setView`. `setView` and `resetGLStates` zero `lastRenderTargetView` only in the record of the context current at the call, and `setActive` never clears another context's record. So when a target's view is set while another context is current, a record of a context the target was drawn on before still names the target with the cache enabled. The next draw there skips the view (`CacheProperties.ViewReappliedIff`) and `ViewMirrors` fails for it. In this model the context is a parameter of each call. The overriding `setActive` of a derived target that makes its own context current is not part of this model, so whether a target can be drawn from two contexts is left open, and the view claim is promised only for the context the view was set on.
- `GlSemantics.SetupDrawSound`: the same `ViewMirrors` precondition, which the code does not keep across contexts (see `GlSemantics.ViewEffect`).
- `GlSemantics.DrawVerticesSound`: the same `ViewMirrors` precondition, which the code does not keep across contexts (see `GlSemantics.ViewEffect`).
- `GlSemantics.DrawBufferSound`: the same `ViewMirrors` precondition, which the code does not keep across contexts (see `GlSemantics.ViewEffect`).
- `GlSemantics.DrawVerticesSound`: the caller's vertex array is one `UserVertices` source. It is not told apart from one draw to the next, because the code re-points the attribute arrays on every draw that does not use the vertex cache.
- `RenderTargets.RenderTarget.ColourPhase`: runs the corrected colour test, not the code's (see Findings). It adds the cache field `lastColourProgram`, the program the cached colour was sent to. It also adds a branch that forgets that program when a draw without a shader runs on a disabled cache. The code as written is `ColourUniformFinding.ColourPhaseCommandsAsWritten`.
- `Sprites.Sprite.UpdateTexCoords`: computes the corrected texture transform `TexCoordTransformOf`, not the code's origin for flipped storage (see Findings). The code as written is `Sprites.TexCoordTransformAsWritten`.
- `Sprites.Sprite.SetTexture`: recomputes the transforms for every new texture, where the code does so only when the rectangle changes (see Findings). The code as written is `Sprites.WithTextureAsWritten`.
- `GlSemantics.BlendCommandsEffect`: stated for `FullBlendCaps` only, for the same reason; the other driver variants are covered by the command counts of `CacheProperties.BlendCommandsCount`.
- Shader internals are opaque events: `bindCurrentTexture`, `bindTextures` and `setColourUniform`. Clearing the shader's `textureBindRequired` flag after a rebind is not modelled; the flag is an input of each draw.
- `draw(const Drawable&, ...)` is a virtual call into the drawable and is left out.
- `RenderTargets.RenderTarget.GetSpriteVBO`: buffer creation is the parameter `allocatedHandle`, and `create`/`update` are taken to succeed (the code asserts it). The buffer's contents are the field `spriteVertices`.
- `Sprites.Sprite.Draw`: the missing-shader diagnostic is a precondition. A release build would go on drawing without a shader; that is not modelled. The program's one visible call site fails this precondition: examples/test_optimisation/Test.cpp:67 draws `sf::Sprite(offscreen.getTexture())` with no shader.
- `Sprites.Sprite.SetTextureRect`: a different rectangle on a sprite without a texture dereferences a null texture in `updateTexCoords`, so it is a precondition.
- `Sprites.Ratio`: division by a zero storage size (an infinity or NaN in floats) gives 0.
- The `sf::Transformable` part of the sprite is the field `transform`, initialised to the identity. Its setters, `getGlobalBounds` and `Transform::transformRect` are not part of this model. `getTexture` and `getTextureRect` are plain field reads.
- The sprite's texture pointer is the texture's value; the texture's lifetime is not modelled.

## Findings

| source | as written | input that shows it | evidently intended | confidence | as-written member | corrected member |
|---|---|---|---|---|---|---|
| src/SFML/Graphics/RenderTarget.cpp:874-911 | The colour uniform is skipped when the cache is on, the colour equals `lastColor`, and `lastProgram` did not change. `lastProgram` is only updated for pre-bound shaders, and a disabled cache still records the colour. | Reset the cache, draw in red with shader A (not pre-bound), then draw in red with shader B (not pre-bound). Shader B is never sent red. Likewise, a first draw in opaque black after a reset, with a shader that is not pre-bound, matches the record's default colour and is never sent (`FirstBlackDrawAsWrittenCounterexample`). | Send the colour unless this same program already holds it: the cache records which program `lastColor` belongs to (`lastColourProgram`). | medium, not executed | `ColourUniformFinding.ColourElisionAsWrittenCounterexample` | `GlSemantics.ColourPhaseEffect` |
| src/SFML/Graphics/Sprite.cpp:183-188 | For flipped storage, `yorigin` stays `top / actualHeight` and `size.y / actualHeight` is added to it. | A flipped 10x10 texture stored as 10x10, rectangle (0, 5, 10, 5): the quad's corner (0, 0) samples at v = 1.5, outside the texture. | Mirror the origin as `Texture::bind` mirrors rows: `(size.y - top) / actualHeight`, which gives 0.5. | medium, not executed | `Sprites.FlippedTexCoordsAsWrittenCounterexample` | `Sprites.TexCoordsFollowRect` |
| src/SFML/Graphics/Sprite.cpp:68-78 | setTexture recomputes the baked texture transform only through setTextureRect, so not when the rectangle stays the same. | A sprite on a 10x10 texture stored as 16x16 gets a 10x10 texture stored as 10x10 with `resetRect`. The rectangle stays (0, 0, 10, 10), and the texture transform keeps the scale 10/16. | Recompute the transforms for every new texture, so that the sprite always shows its rectangle of its current texture. | medium, not executed | `Sprites.StaleTexCoordsAsWrittenCounterexample` | `Sprites.WithTexture` |
