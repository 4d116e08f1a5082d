/** sf::RenderTarget and the state it shares through globals: the id counter, the map from
    each context to its active target, the per-context StatesCache records and the id of
    the context last activated. The OpenGL calls are appended to a CommandLog; every method
    is proved to issue exactly the commands, and leave exactly the cache, that module
    CacheSpec describes. */
module RenderTargets {
  import opened Graphics
  import opened GlConstants
  import opened CacheSpec

  /** `(sf::Uint64) -1`, the initial value of lastActiveContextId. */
  const NoContext: nat := 0xFFFF_FFFF_FFFF_FFFF

  /** The commands issued to the graphics driver, in order. */
  class CommandLog {
    var trace: seq<Command>

    constructor()
      ensures trace == []
    {
      trace := [];
    }

    method Issue(cmds: seq<Command>)
      modifies this
      ensures trace == old(trace) + cmds
    {
      trace := trace + cmds;
    }
  }

  const BlankVertex: Vertex := Vertex(Vector2(0.0, 0.0), White, Vector2(0.0, 0.0))

  /** RenderTarget::StatesCache: the cacheable fields and the scratch buffer of
      pre-transformed vertices. `lastTextureMatrix` holds the 16 floats as a sequence. */
  class StatesCache {
    var glStatesSet: bool
    var enable: bool
    var lastBlendMode: BlendMode
    var lastTextureId: nat
    var lastTextureMatrix: Matrix
    var lastProgram: nat
    var lastColor: Color
    var lastColourProgram: Option<nat>
    var lastVBO: nat
    var lastRenderTargetView: nat
    var useVertexCache: bool
    var texCoordsArrayEnabled: bool
    const vertexCache: array<Vertex>

    /** The cacheable fields as one value. */
    function Fields(): CacheFields
      reads this
    {
      CacheFields(glStatesSet, enable, lastBlendMode, lastTextureId, lastTextureMatrix, lastProgram,
                  lastColor, lastColourProgram, lastVBO, lastRenderTargetView, useVertexCache,
                  texCoordsArrayEnabled)
    }

    /** The record setActive creates for a context without one. */
    constructor()
      ensures Fields() == NewCache
      ensures fresh(vertexCache) && vertexCache.Length == VertexCacheSize
    {
      glStatesSet := false;
      enable := false;
      lastBlendMode := NewCache.lastBlendMode;
      lastTextureId := NewCache.lastTextureId;
      lastTextureMatrix := NewCache.lastTextureMatrix;
      lastProgram := NewCache.lastProgram;
      lastColor := NewCache.lastColor;
      lastColourProgram := NewCache.lastColourProgram;
      lastVBO := NewCache.lastVBO;
      lastRenderTargetView := NewCache.lastRenderTargetView;
      useVertexCache := NewCache.useVertexCache;
      texCoordsArrayEnabled := NewCache.texCoordsArrayEnabled;
      vertexCache := new Vertex[VertexCacheSize](_ => BlankVertex);
    }
  }

  /** The globals of RenderTarget.cpp: the counter of getUniqueId, contextRenderTargetMap,
      contextStatesCacheMap and lastActiveContextId. */
  class Registry {
    var nextId: nat
    var contextTargets: map<nat, nat>
    var contextCaches: map<nat, StatesCache>
    var lastActiveContextId: nat

    /** A target is only recorded as active on a context that has a cache (so getCache's
        fallback is never reached), every cache has its full vertex buffer, and no two
        contexts share a cache. */
    predicate Valid()
      reads this
    {
      && nextId >= 1
      && contextTargets.Keys <= contextCaches.Keys
      && (forall k :: k in contextCaches ==> contextCaches[k].vertexCache.Length == VertexCacheSize)
      && (forall k, l :: k in contextCaches && l in contextCaches && k != l ==> contextCaches[k] != contextCaches[l])
    }

    constructor()
      ensures Valid()
      ensures nextId == 1 && contextTargets == map[] && contextCaches == map[]
      ensures lastActiveContextId == NoContext
    {
      nextId := 1;
      contextTargets := map[];
      contextCaches := map[];
      lastActiveContextId := NoContext;
    }

    /** isActive: the context's entry exists and names this target. */
    predicate IsActive(ctx: nat, id: nat)
      reads this
    {
      ctx in contextTargets && contextTargets[ctx] == id
    }

    /** The cache objects a call on this context may update. */
    function CacheFrame(ctx: nat): set<object>
      reads this
    {
      if ctx in contextCaches then {contextCaches[ctx], contextCaches[ctx].vertexCache} else {}
    }

    function CacheSet(ctx: nat): set<StatesCache>
      reads this
    {
      if ctx in contextCaches then {contextCaches[ctx]} else {}
    }

    /** The cache entry of a context, if it has one. */
    function Entry(ctx: nat): Option<CacheFields>
      reads this, contextCaches.Values
    {
      if ctx in contextCaches then Some(contextCaches[ctx].Fields()) else None
    }

    /** setActive clears `enable` when the context differs from the one last activated,
        unless it activates the target that is already active there. */
    predicate ActivationClears(ctx: nat, id: nat, active: bool)
      reads this
    {
      lastActiveContextId != ctx && (active ==> !IsActive(ctx, id))
    }

    /** The cache entry a call guarded by `isActive(m_id) || setActive(true)` works on. */
    function ActiveEntry(ctx: nat, id: nat): CacheFields
      reads this, contextCaches.Values
    {
      ActivatedCache(Entry(ctx), ActivationClears(ctx, id, true))
    }

    /** Every context cache recorded before is still recorded, as the same object, and
        `ctx` has one; a cache created for it is new. */
    twostate predicate Grown(ctx: nat)
      reads this
    {
      && contextCaches.Keys == old(contextCaches).Keys + {ctx}
      && (forall k :: k in old(contextCaches) ==> contextCaches[k] == old(contextCaches)[k])
      && (ctx !in old(contextCaches) ==> fresh(contextCaches[ctx]) && fresh(contextCaches[ctx].vertexCache))
    }

    /** The registry after `isActive(m_id) || setActive(true)` for the target `id`: the
        target is active, and the map and the last context change only when it was not. */
    twostate predicate Activated(ctx: nat, id: nat)
      reads this
    {
      && Valid() && IsActive(ctx, id) && ctx in contextCaches && Grown(ctx)
      && nextId == old(nextId)
      && (if old(IsActive(ctx, id))
          then unchanged(this)
          else contextTargets == old(contextTargets)[ctx := id] && lastActiveContextId == ctx)
    }

    /** getUniqueId: the counter starts at 1 and is post-incremented. */
    method GetUniqueId() returns (id: nat)
      requires Valid()
      modifies this
      ensures Valid()
      ensures id == old(nextId) && id >= 1 && nextId == id + 1
      ensures contextTargets == old(contextTargets) && contextCaches == old(contextCaches)
      ensures lastActiveContextId == old(lastActiveContextId)
    {
      id := nextId;
      nextId := nextId + 1;
    }

    /** The first step of setActive: a context without a cache gets a new one. */
    method CreateCache(ctx: nat)
      requires Valid()
      modifies this
      ensures Valid() && ctx in contextCaches && Grown(ctx)
      ensures contextCaches[ctx].Fields() == ActivatedCache(old(Entry(ctx)), false)
      ensures contextTargets == old(contextTargets) && lastActiveContextId == old(lastActiveContextId) && nextId == old(nextId)
    {
      if ctx !in contextCaches {
        var created := new StatesCache();
        contextCaches := contextCaches[ctx := created];
      }
    }

    /** The map update of setActive: the target is recorded (active) or the context's entry
        erased (inactive). `changed` is false only when the target was already recorded, the
        one case in which setActive leaves `enable` alone. */
    method RecordTarget(ctx: nat, id: nat, active: bool) returns (changed: bool)
      requires Valid() && ctx in contextCaches
      modifies this
      ensures Valid()
      ensures contextTargets == if active then old(contextTargets)[ctx := id] else old(contextTargets) - {ctx}
      ensures changed == (active ==> !old(IsActive(ctx, id)))
      ensures contextCaches == old(contextCaches) && lastActiveContextId == old(lastActiveContextId) && nextId == old(nextId)
    {
      if active {
        if ctx !in contextTargets {
          contextTargets := contextTargets[ctx := id];
          changed := true;
        } else if contextTargets[ctx] != id {
          contextTargets := contextTargets[ctx := id];
          changed := true;
        } else {
          assert contextTargets == contextTargets[ctx := id];
          changed := false;
        }
      } else {
        if ctx in contextTargets {
          contextTargets := contextTargets - {ctx};
        } else {
          assert contextTargets == contextTargets - {ctx};
        }
        changed := true;
      }
    }

    /** The body of RenderTarget::setActive for the target `id`. */
    method Activate(ctx: nat, id: nat, active: bool) returns (r: bool)
      requires Valid()
      modifies this, CacheSet(ctx)
      ensures Valid() && r && ctx in contextCaches && Grown(ctx)
      ensures contextCaches[ctx].Fields() == ActivatedCache(old(Entry(ctx)), old(ActivationClears(ctx, id, active)))
      ensures contextTargets == if active then old(contextTargets)[ctx := id] else old(contextTargets) - {ctx}
      ensures lastActiveContextId == ctx && nextId == old(nextId)
    {
      CreateCache(ctx);
      var cache := contextCaches[ctx];
      var resetCache := false;
      if lastActiveContextId != ctx {
        lastActiveContextId := ctx;
        resetCache := true;
      }
      var changed := RecordTarget(ctx, id, active);
      if resetCache && changed {
        cache.enable := false;
      }
      r := true;
    }
  }

  /** The view View::reset(rect) leaves on a default-constructed view. */
  function ViewOfRect(rect: FloatRect): (v: View)
    ensures v.size == Vector2(rect.width, rect.height) && v.rotation == 0.0
    ensures v.center == Vector2(rect.left + rect.width / 2.0, rect.top + rect.height / 2.0)
  {
    View(Vector2(rect.left + rect.width / 2.0, rect.top + rect.height / 2.0),
         Vector2(rect.width, rect.height), 0.0, FloatRect(0.0, 0.0, 1.0, 1.0))
  }

  /** A default-constructed sf::View. */
  const DefaultView: View := ViewOfRect(FloatRect(0.0, 0.0, 1000.0, 1000.0))

  /** A small draw's vertex as the pre-transform stores it in the vertex cache. */
  function PreTransformed(t: Transform, v: Vertex): (r: Vertex)
    ensures r.position == TransformPoint(t, v.position)
    ensures r.color == v.color && r.texCoords == v.texCoords
  {
    v.(position := TransformPoint(t, v.position))
  }

  /** Proof plumbing, not a claim about the model: a trace extended by seven runs of commands
      is the trace extended by their concatenation. */
  lemma Prefixed(t: seq<Command>, a: seq<Command>, b: seq<Command>, c: seq<Command>, d: seq<Command>,
                 e: seq<Command>, f: seq<Command>, g: seq<Command>)
    ensures t + a + b + c + d + e + f + g == t + (a + b + c + d + e + f + g)
  {
  }

  /** setupDraw on a cache whose states are set leaves what it leaves on the cache before
      that reset. */
  lemma PreparedSetupDraw(c: CacheFields, targetId: nat, states: RenderStates)
    ensures SetupDrawCache(PreparedCache(c), targetId, states) == SetupDrawCache(c, targetId, states)
  {
    assert PreparedCache(PreparedCache(c)) == PreparedCache(c);
  }

  /** The calls of resetGLStates in the three groups the methods of RenderTarget issue. */
  lemma ResetCommandsGrouped(caps: Caps, t0: seq<Command>, t1: seq<Command>, t3: seq<Command>, t: seq<Command>)
    requires t1 == t0 + ((if caps.multitexture then [ActivateTextureUnit0] else []) + [SetBaselineStates, LoadIdentity, EnableClientArrays])
    requires t3 == t1 + (BlendCommands(caps, BlendAlpha) + ApplyTextureCommands(DefaultStates, false))
    requires t == t3 + ((if caps.shaderAvailable then [BindShader(0)] else []) + (if caps.vertexBufferAvailable then [BindVertexBuffer(0)] else []))
    ensures t == t0 + ResetCommands(caps)
  {
    var p := (if caps.multitexture then [ActivateTextureUnit0] else []) + [SetBaselineStates, LoadIdentity, EnableClientArrays];
    var q := BlendCommands(caps, BlendAlpha);
    var r := ApplyTextureCommands(DefaultStates, false);
    var u := (if caps.shaderAvailable then [BindShader(0)] else []) + (if caps.vertexBufferAvailable then [BindVertexBuffer(0)] else []);
    assert ResetCommands(caps) == p + q + r + u;
    Appended(t0, p, q + r);
    Appended(t0 + p, q, r);
    Appended(t0, p + q, r);
    Appended(t0, p + q + r, u);
  }

  /** The contents getSpriteVBO uploads: the unit square in triangle-strip order, white,
      with texture coordinates equal to the positions. */
  const SpriteQuad: seq<Vertex> := [
    Vertex(Vector2(0.0, 0.0), White, Vector2(0.0, 0.0)),
    Vertex(Vector2(0.0, 1.0), White, Vector2(0.0, 1.0)),
    Vertex(Vector2(1.0, 0.0), White, Vector2(1.0, 0.0)),
    Vertex(Vector2(1.0, 1.0), White, Vector2(1.0, 1.0))]

  /** sf::RenderTarget. The active context and the driver's capabilities are passed in as
      `ctx` and `caps`; `spriteVertices` stands for the contents of the sprite VBO. */
  class RenderTarget {
    var id: nat
    var view: View
    var defaultView: View
    var spriteVBO: VertexBuffer
    var spriteVertices: seq<Vertex>

    constructor()
      ensures id == 0 && view == DefaultView && defaultView == DefaultView
      ensures spriteVBO == VertexBuffer(0, 0, TriangleStrip) && spriteVertices == []
    {
      id := 0;
      view := DefaultView;
      defaultView := DefaultView;
      spriteVBO := VertexBuffer(0, 0, TriangleStrip);
      spriteVertices := [];
    }

    /** initialize: views covering the target, and a fresh id. */
    method Initialize(reg: Registry, size: (nat, nat))
      requires reg.Valid()
      modifies this, reg
      ensures reg.Valid()
      ensures defaultView == ViewOfRect(FloatRect(0.0, 0.0, size.0 as real, size.1 as real)) && view == defaultView
      ensures id == old(reg.nextId) && id >= 1 && reg.nextId == id + 1
      ensures reg.contextTargets == old(reg.contextTargets) && reg.contextCaches == old(reg.contextCaches)
      ensures reg.lastActiveContextId == old(reg.lastActiveContextId)
      ensures spriteVBO == old(spriteVBO) && spriteVertices == old(spriteVertices)
    {
      defaultView := ViewOfRect(FloatRect(0.0, 0.0, size.0 as real, size.1 as real));
      view := defaultView;
      id := reg.GetUniqueId();
    }

    /** setActive(active). */
    method SetActive(reg: Registry, ctx: nat, active: bool) returns (r: bool)
      requires reg.Valid()
      modifies reg, reg.CacheSet(ctx)
      ensures reg.Valid() && r && ctx in reg.contextCaches && reg.Grown(ctx)
      ensures reg.contextCaches[ctx].Fields() == ActivatedCache(old(reg.Entry(ctx)), old(reg.ActivationClears(ctx, id, active)))
      ensures reg.contextTargets == if active then old(reg.contextTargets)[ctx := id] else old(reg.contextTargets) - {ctx}
      ensures reg.lastActiveContextId == ctx && reg.nextId == old(reg.nextId)
    {
      r := reg.Activate(ctx, id, active);
    }

    /** `isActive(m_id) || setActive(true)`, the guard of every public operation. */
    method EnsureActive(reg: Registry, ctx: nat)
      requires reg.Valid()
      modifies reg, reg.CacheSet(ctx)
      ensures reg.Activated(ctx, id)
      ensures reg.contextCaches[ctx].Fields() == old(reg.ActiveEntry(ctx, id))
    {
      if !reg.IsActive(ctx, id) {
        var _ := SetActive(reg, ctx, true);
      }
    }

    /** applyCurrentView, cache side: the view is applied as a whole. */
    method ApplyCurrentView(cache: StatesCache, log: CommandLog)
      modifies cache, log
      ensures log.trace == old(log.trace) + [ApplyView(view)]
      ensures cache.Fields() == old(cache.Fields()).(lastRenderTargetView := id)
    {
      log.Issue([ApplyView(view)]);
      cache.lastRenderTargetView := id;
    }

    /** applyBlendMode. */
    method ApplyBlendMode(mode: BlendMode, cache: StatesCache, log: CommandLog, caps: Caps)
      modifies cache, log
      ensures log.trace == old(log.trace) + BlendCommands(caps, mode)
      ensures cache.Fields() == old(cache.Fields()).(lastBlendMode := mode)
    {
      if caps.blendFuncSeparate {
        log.Issue([BlendFuncSeparate(FactorToGlConstant(mode.colorSrcFactor), FactorToGlConstant(mode.colorDstFactor),
                                     FactorToGlConstant(mode.alphaSrcFactor), FactorToGlConstant(mode.alphaDstFactor))]);
      } else {
        log.Issue([BlendFunc(FactorToGlConstant(mode.colorSrcFactor), FactorToGlConstant(mode.colorDstFactor))]);
      }
      if caps.blendMinmax && caps.blendSubtract {
        if caps.blendEquationSeparate {
          log.Issue([BlendEquationSeparate(EquationToGlConstant(mode.colorEquation), EquationToGlConstant(mode.alphaEquation))]);
        } else {
          log.Issue([BlendEquation(EquationToGlConstant(mode.colorEquation))]);
        }
      }
      cache.lastBlendMode := mode;
    }

    /** applyTransform. */
    method ApplyTransform(transform: Transform, log: CommandLog)
      modifies log
      ensures log.trace == old(log.trace) + (if transform == Identity then [LoadIdentity] else [LoadModelMatrix(transform)])
    {
      if transform == Identity {
        log.Issue([LoadIdentity]);
      } else {
        log.Issue([LoadModelMatrix(transform)]);
      }
    }

    /** applyTexture. */
    method ApplyTexture(states: RenderStates, cache: StatesCache, log: CommandLog, applyTransformOnly: bool)
      modifies cache, log
      ensures log.trace == old(log.trace) + ApplyTextureCommands(states, applyTransformOnly)
      ensures cache.Fields() == ApplyTextureCache(old(cache.Fields()), states)
    {
      if states.textureTransform.Some? {
        if !applyTransformOnly {
          log.Issue([BindTextureOnly(TextureId(states.texture))]);
        }
        log.Issue([LoadTextureMatrix(MatrixOf(states.textureTransform.value))]);
      } else {
        log.Issue([BindTexture(TextureId(states.texture))]);
      }
      cache.lastTextureId := TextureId(states.texture);
      cache.lastTextureMatrix := TextureMatrix(states.textureTransform);
    }

    /** applyShader: binds the shader, or unbinds with none. */
    method ApplyShader(shader: Option<Shader>, log: CommandLog)
      modifies log
      ensures log.trace == old(log.trace) + [BindShader(if shader.Some? then shader.value.handle else 0)]
    {
      log.Issue([BindShader(if shader.Some? then shader.value.handle else 0)]);
    }

    /** setView: stores the view and forces it to be re-applied by the next draw on the
        context current at the call; the records of other contexts are left as they were. */
    method SetView(v: View, reg: Registry, ctx: nat)
      requires reg.Valid()
      modifies this, reg, reg.CacheSet(ctx)
      ensures view == v && id == old(id) && defaultView == old(defaultView)
      ensures spriteVBO == old(spriteVBO) && spriteVertices == old(spriteVertices)
      ensures reg.Activated(ctx, id)
      ensures reg.contextCaches[ctx].Fields() == old(reg.ActiveEntry(ctx, id)).(lastRenderTargetView := 0)
    {
      view := v;
      EnsureActive(reg, ctx);
      reg.contextCaches[ctx].lastRenderTargetView := 0;
    }

    /** The first calls of resetGLStates: texture unit 0, the fixed states and the client
        arrays. */
    method IssueBaselineStates(log: CommandLog, caps: Caps)
      modifies log
      ensures log.trace == old(log.trace) + ((if caps.multitexture then [ActivateTextureUnit0] else [])
                                             + [SetBaselineStates, LoadIdentity, EnableClientArrays])
    {
      ghost var t0 := log.trace;
      if caps.multitexture {
        log.Issue([ActivateTextureUnit0]);
      }
      log.Issue([SetBaselineStates, LoadIdentity, EnableClientArrays]);
      Appended(t0, if caps.multitexture then [ActivateTextureUnit0] else [], [SetBaselineStates, LoadIdentity, EnableClientArrays]);
    }

    /** The unbinding of resetGLStates: no shader, no vertex buffer, when available. */
    method UnbindProgramAndBuffer(log: CommandLog, caps: Caps)
      modifies log
      ensures log.trace == old(log.trace) + ((if caps.shaderAvailable then [BindShader(0)] else [])
                                             + (if caps.vertexBufferAvailable then [BindVertexBuffer(0)] else []))
    {
      ghost var t0 := log.trace;
      var shaderAvailable := caps.shaderAvailable;
      var vertexBufferAvailable := caps.vertexBufferAvailable;
      if shaderAvailable {
        ApplyShader(None, log);
      }
      ghost var t1 := log.trace;
      if vertexBufferAvailable {
        log.Issue([BindVertexBuffer(0)]);
      }
      assert log.trace == t1 + (if caps.vertexBufferAvailable then [BindVertexBuffer(0)] else []);
      Appended(t0, if caps.shaderAvailable then [BindShader(0)] else [], if caps.vertexBufferAvailable then [BindVertexBuffer(0)] else []);
    }

    /** The default blending and the unbound texture that resetGLStates applies through
        the cache, once the baseline is marked as set. */
    method ApplyDefaultStates(cache: StatesCache, log: CommandLog, caps: Caps)
      modifies cache, log
      ensures log.trace == old(log.trace) + (BlendCommands(caps, BlendAlpha) + ApplyTextureCommands(DefaultStates, false))
      ensures cache.Fields() == ApplyTextureCache(old(cache.Fields()).(glStatesSet := true).(lastBlendMode := BlendAlpha), DefaultStates)
    {
      ghost var c := cache.Fields();
      ghost var t0 := log.trace;
      cache.glStatesSet := true;
      assert cache.Fields() == c.(glStatesSet := true);
      ApplyBlendMode(BlendAlpha, cache, log, caps);
      ghost var c2 := c.(glStatesSet := true).(lastBlendMode := BlendAlpha);
      assert cache.Fields() == c2;
      ApplyTexture(DefaultStates, cache, log, false);
      Appended(t0, BlendCommands(caps, BlendAlpha), ApplyTextureCommands(DefaultStates, false));
    }

    /** The part of resetGLStates that follows the activation. Its closing
        `setView(getView())` finds the target active, so it only invalidates the applied
        view. */
    method ResetCacheStates(cache: StatesCache, log: CommandLog, caps: Caps)
      modifies cache, log
      ensures log.trace == old(log.trace) + ResetCommands(caps)
      ensures cache.Fields() == ResetBaseline(old(cache.Fields()))
    {
      ghost var c := cache.Fields();
      ghost var t0 := log.trace;
      IssueBaselineStates(log, caps);
      ghost var t1 := log.trace;
      ApplyDefaultStates(cache, log, caps);
      ghost var c3 := cache.Fields();
      ghost var t3 := log.trace;
      UnbindProgramAndBuffer(log, caps);
      ResetCommandsGrouped(caps, t0, t1, t3, log.trace);
      cache.texCoordsArrayEnabled := true;
      cache.useVertexCache := false;
      cache.lastVBO := 0;
      cache.lastProgram := 0;
      cache.lastColourProgram := None;
      cache.lastRenderTargetView := 0;
      cache.enable := true;
      assert ResetBaseline(c) == c3.(texCoordsArrayEnabled := true, useVertexCache := false, lastVBO := 0, lastProgram := 0,
                                     lastColourProgram := None, lastRenderTargetView := 0, enable := true);
    }

    /** resetGLStates. */
    method ResetGLStates(reg: Registry, log: CommandLog, ctx: nat, caps: Caps)
      requires reg.Valid()
      modifies reg, reg.CacheSet(ctx), log
      ensures reg.Activated(ctx, id)
      ensures reg.contextCaches[ctx].Fields() == ResetBaseline(old(reg.ActiveEntry(ctx, id)))
      ensures log.trace == old(log.trace) + ResetCommands(caps)
    {
      EnsureActive(reg, ctx);
      ResetCacheStates(reg.contextCaches[ctx], log, caps);
    }

    /** setupDraw's model-view step. */
    method TransformPhase(useVertexCache: bool, transform: Transform, cache: StatesCache, log: CommandLog)
      modifies log
      ensures log.trace == old(log.trace) + TransformCommands(cache.Fields(), useVertexCache, transform)
    {
      if useVertexCache {
        if !cache.enable || !cache.useVertexCache {
          log.Issue([LoadIdentity]);
        }
      } else {
        ApplyTransform(transform, log);
      }
    }

    /** setupDraw's view step. */
    method ViewPhase(cache: StatesCache, log: CommandLog)
      modifies cache, log
      ensures log.trace == old(log.trace) + ViewCommands(old(cache.Fields()), id, view)
      ensures cache.Fields() == ViewCache(old(cache.Fields()), id)
      ensures cache.Fields() == old(cache.Fields()).(lastRenderTargetView := cache.lastRenderTargetView)
    {
      if !cache.enable || cache.lastRenderTargetView != id {
        ApplyCurrentView(cache, log);
      }
    }

    /** setupDraw's blend step. */
    method BlendPhase(mode: BlendMode, cache: StatesCache, log: CommandLog, caps: Caps)
      modifies cache, log
      ensures log.trace == old(log.trace) + BlendPhaseCommands(old(cache.Fields()), caps, mode)
      ensures cache.Fields() == BlendPhaseCache(old(cache.Fields()), mode)
      ensures cache.Fields() == old(cache.Fields()).(lastBlendMode := cache.lastBlendMode)
    {
      if !cache.enable || mode != cache.lastBlendMode {
        ApplyBlendMode(mode, cache, log, caps);
      }
    }

    /** setupDraw's texture step; the result is its `textureChanged`. */
    method TexturePhase(states: RenderStates, cache: StatesCache, log: CommandLog) returns (textureChanged: bool)
      modifies cache, log
      ensures log.trace == old(log.trace) + TexturePhaseCommands(old(cache.Fields()), states)
      ensures cache.Fields() == TexturePhaseCache(old(cache.Fields()), states)
      ensures cache.Fields() == old(cache.Fields()).(lastTextureId := cache.lastTextureId, lastTextureMatrix := cache.lastTextureMatrix)
      ensures textureChanged == TextureChanged(old(cache.Fields()), states)
    {
      textureChanged := false;
      if !cache.enable || (states.texture.Some? && states.texture.value.fboAttachment) {
        ApplyTexture(states, cache, log, false);
      } else {
        var textureId := TextureId(states.texture);
        var textureMatrix := TextureMatrix(states.textureTransform);
        var sameTextureTransform := textureId == cache.lastTextureId && cache.lastTextureMatrix == textureMatrix;
        if !cache.enable || (textureId != cache.lastTextureId || !sameTextureTransform) {
          var applyTransformOnly := cache.enable && textureId == cache.lastTextureId;
          ApplyTexture(states, cache, log, applyTransformOnly);
          textureChanged := !applyTransformOnly;
        }
      }
    }

    /** setupDraw's shader step. */
    method ShaderPhase(states: RenderStates, textureChanged: bool, cache: StatesCache, log: CommandLog)
      modifies cache, log
      ensures log.trace == old(log.trace) + ShaderPhaseCommands(old(cache.Fields()), states, textureChanged)
      ensures cache.Fields() == ShaderPhaseCache(old(cache.Fields()), states)
      ensures cache.Fields() == old(cache.Fields()).(lastProgram := cache.lastProgram)
    {
      if states.shader.Some? && states.shaderIsBound {
        var shader := states.shader.value;
        var textureBindRequired := shader.textureBindRequired;
        var shaderChanged := shader.handle != cache.lastProgram;
        if !cache.enable || shaderChanged || textureChanged || textureBindRequired {
          log.Issue([BindShaderTexture(shader.handle)]);
        }
        if !cache.enable || shaderChanged || textureBindRequired {
          log.Issue([BindShaderTextures(shader.handle)]);
        }
        cache.lastProgram := shader.handle;
      } else if states.shader.None? {
        cache.lastProgram := 0;
      }
      if states.shader.Some? && !states.shaderIsBound {
        ApplyShader(states.shader, log);
      }
    }

    /** setupDraw's colour step, with the corrected test (see ColourApplied). */
    method ColourPhase(states: RenderStates, cache: StatesCache, log: CommandLog)
      modifies cache, log
      ensures log.trace == old(log.trace) + ColourPhaseCommands(old(cache.Fields()), states)
      ensures cache.Fields() == ColourPhaseCache(old(cache.Fields()), states)
    {
      if states.shader.Some? {
        var handle := states.shader.value.handle;
        if !cache.enable || states.color != cache.lastColor || cache.lastColourProgram != Some(handle) {
          log.Issue([SetColourUniform(handle, states.color)]);
          cache.lastColor := states.color;
          cache.lastColourProgram := Some(handle);
        }
      } else if !cache.enable {
        cache.lastColourProgram := None;
      }
    }

    /** The steps of setupDraw once the baseline states are set. */
    method SetupDrawPhases(useVertexCache: bool, states: RenderStates, cache: StatesCache, log: CommandLog, caps: Caps)
      requires cache.glStatesSet
      modifies cache, log
      ensures cache.Fields() == SetupDrawCache(old(cache.Fields()), id, states)
      ensures log.trace == old(log.trace)
        + TransformCommands(old(cache.Fields()), useVertexCache, states.transform)
        + ViewCommands(old(cache.Fields()), id, view)
        + BlendPhaseCommands(old(cache.Fields()), caps, states.blendMode)
        + TexturePhaseCommands(old(cache.Fields()), states)
        + ShaderPhaseCommands(old(cache.Fields()), states, TextureChanged(old(cache.Fields()), states))
        + ColourPhaseCommands(old(cache.Fields()), states)
    {
      ghost var p := cache.Fields();
      TransformPhase(useVertexCache, states.transform, cache, log);
      assert cache.Fields() == p;
      ViewPhase(cache, log);
      ghost var c1 := cache.Fields();
      assert c1 == ViewCache(p, id);
      BlendPhase(states.blendMode, cache, log, caps);
      assert BlendPhaseCommands(c1, caps, states.blendMode) == BlendPhaseCommands(p, caps, states.blendMode);
      ghost var c2 := cache.Fields();
      assert c2 == BlendPhaseCache(c1, states.blendMode);
      var textureChanged := TexturePhase(states, cache, log);
      assert TexturePhaseCommands(c2, states) == TexturePhaseCommands(p, states);
      assert TextureChanged(c2, states) == TextureChanged(p, states);
      ghost var c3 := cache.Fields();
      assert c3 == TexturePhaseCache(c2, states);
      ShaderPhase(states, textureChanged, cache, log);
      assert ShaderPhaseCommands(c3, states, textureChanged) == ShaderPhaseCommands(p, states, textureChanged);
      ghost var c4 := cache.Fields();
      assert c4 == ShaderPhaseCache(c3, states);
      assert c4.enable == p.enable && c4.lastColor == p.lastColor && c4.lastColourProgram == p.lastColourProgram;
      ColourPhase(states, cache, log);
      assert ColourPhaseCommands(c4, states) == ColourPhaseCommands(p, states);
      assert cache.Fields() == ColourPhaseCache(c4, states);
    }

    /** The start of setupDraw: a context whose states were never set is reset first. */
    method PrepareStates(cache: StatesCache, reg: Registry, log: CommandLog, ctx: nat, caps: Caps)
      requires reg.Valid() && reg.IsActive(ctx, id) && ctx in reg.contextCaches && cache == reg.contextCaches[ctx]
      modifies reg, cache, log
      ensures unchanged(reg)
      ensures cache.Fields() == PreparedCache(old(cache.Fields()))
      ensures log.trace == old(log.trace) + (if old(cache.glStatesSet) then [] else ResetCommands(caps))
    {
      if !cache.glStatesSet {
        ResetGLStates(reg, log, ctx, caps);
      }
    }

    /** setupDraw on the active target's cache. */
    method SetupDraw(useVertexCache: bool, states: RenderStates, cache: StatesCache,
                     reg: Registry, log: CommandLog, ctx: nat, caps: Caps)
      requires reg.Valid() && reg.IsActive(ctx, id) && ctx in reg.contextCaches && cache == reg.contextCaches[ctx]
      modifies reg, cache, log
      ensures unchanged(reg)
      ensures cache.Fields() == SetupDrawCache(old(cache.Fields()), id, states)
      ensures log.trace == old(log.trace) + SetupDrawCommands(old(cache.Fields()), caps, id, view, useVertexCache, states)
    {
      ghost var c := cache.Fields();
      ghost var t0 := log.trace;
      PrepareStates(cache, reg, log, ctx, caps);
      ghost var p := cache.Fields();
      ghost var r: seq<Command> := if c.glStatesSet then [] else ResetCommands(caps);
      ghost var tr := TransformCommands(p, useVertexCache, states.transform);
      ghost var v := ViewCommands(p, id, view);
      ghost var b := BlendPhaseCommands(p, caps, states.blendMode);
      ghost var x := TexturePhaseCommands(p, states);
      ghost var sh := ShaderPhaseCommands(p, states, TextureChanged(p, states));
      ghost var co := ColourPhaseCommands(p, states);
      SetupDrawPhases(useVertexCache, states, cache, log, caps);
      assert log.trace == t0 + r + tr + v + b + x + sh + co;
      Prefixed(t0, r, tr, v, b, x, sh, co);
      assert SetupDrawCommands(c, caps, id, view, useVertexCache, states) == r + tr + v + b + x + sh + co;
      PreparedSetupDraw(c, id, states);
    }

    /** cleanupDraw. */
    method CleanupDraw(states: RenderStates, cache: StatesCache, log: CommandLog)
      modifies cache, log
      ensures log.trace == old(log.trace) + CleanupCommands(states)
      ensures cache.Fields() == CleanupCache(old(cache.Fields()), states)
    {
      if states.shader.Some? && !states.shaderIsBound {
        ApplyShader(None, log);
      }
      if states.texture.Some? && states.texture.value.fboAttachment {
        ApplyTexture(DefaultStates, cache, log, false);
      }
      cache.enable := true;
    }

    /** drawPrimitives: the draw call with the primitive's OpenGL mode. */
    method DrawPrimitives(primitive: PrimitiveType, firstVertex: nat, vertexCount: nat, log: CommandLog)
      modifies log
      ensures log.trace == old(log.trace) + [DrawArrays(PrimitiveToGlMode(primitive), firstVertex, vertexCount)]
    {
      log.Issue([DrawArrays(PrimitiveToGlMode(primitive), firstVertex, vertexCount)]);
    }

    /** Fills the vertex cache with the pre-transformed vertices of a small draw. */
    method PreTransform(vertices: seq<Vertex>, vertexCount: nat, transform: Transform, cache: StatesCache)
      requires vertexCount <= |vertices| && vertexCount <= cache.vertexCache.Length
      modifies cache.vertexCache
      ensures forall k :: 0 <= k < vertexCount ==> cache.vertexCache[k] == PreTransformed(transform, vertices[k])
      ensures cache.vertexCache[vertexCount..] == old(cache.vertexCache[vertexCount..])
    {
      var i := 0;
      while i < vertexCount
        invariant 0 <= i <= vertexCount
        invariant forall k :: 0 <= k < i ==> cache.vertexCache[k] == PreTransformed(transform, vertices[k])
        invariant cache.vertexCache[vertexCount..] == old(cache.vertexCache[vertexCount..])
      {
        cache.vertexCache[i] := PreTransformed(transform, vertices[i]);
        i := i + 1;
      }
    }

    /** The vertex buffer unbinding, texture-coordinate switch and pointer set-up of
        draw(vertices, ...), between setupDraw and the draw call. */
    method PrepareVertexPointers(useVertexCache: bool, enableTexCoordsArray: bool, cache: StatesCache, log: CommandLog)
      modifies cache, log
      ensures log.trace == old(log.trace) + VertexPrepareCommands(old(cache.Fields()), useVertexCache, enableTexCoordsArray)
      ensures cache.Fields() == if !old(cache.enable) || old(cache.lastVBO) != 0 then old(cache.Fields()).(lastVBO := 0) else old(cache.Fields())
    {
      ghost var t0 := log.trace;
      ghost var s := cache.Fields();
      ghost var unbind: seq<Command> := if !s.enable || s.lastVBO != 0 then [BindVertexBuffer(0)] else [];
      ghost var texCoords: seq<Command> :=
        if !s.enable || enableTexCoordsArray != s.texCoordsArrayEnabled then [SetTexCoordsArray(enableTexCoordsArray)] else [];
      if !cache.enable || cache.lastVBO != 0 {
        log.Issue([BindVertexBuffer(0)]);
        cache.lastVBO := 0;
      }
      assert log.trace == t0 + unbind;
      if !cache.enable || enableTexCoordsArray != cache.texCoordsArrayEnabled {
        log.Issue([SetTexCoordsArray(enableTexCoordsArray)]);
      }
      assert log.trace == t0 + unbind + texCoords;
      ghost var t1 := log.trace;
      if !cache.enable || !useVertexCache || !cache.useVertexCache {
        log.Issue([SetVertexPointers(if useVertexCache then VertexCacheArray else UserVertices, enableTexCoordsArray)]);
      } else if enableTexCoordsArray && !cache.texCoordsArrayEnabled {
        log.Issue([SetTexCoordPointer(VertexCacheArray)]);
      }
      Regrouped(t0, unbind, texCoords, log.trace[|t1|..]);
    }

    /** What draw(vertices, ...) does after setupDraw: pointers, the draw call, cleanupDraw
        and the cache update. */
    method FinishVertexDraw(useVertexCache: bool, vertexCount: nat, primitive: PrimitiveType, states: RenderStates,
                            cache: StatesCache, log: CommandLog)
      modifies cache, log
      ensures log.trace == old(log.trace) + (VertexPrepareCommands(old(cache.Fields()), useVertexCache, NeedsTexCoords(states))
                                             + [DrawArrays(PrimitiveToGlMode(primitive), 0, vertexCount)] + CleanupCommands(states))
      ensures var s := old(cache.Fields());
        cache.Fields() == CleanupCache(if !s.enable || s.lastVBO != 0 then s.(lastVBO := 0) else s, states)
                          .(useVertexCache := useVertexCache, texCoordsArrayEnabled := NeedsTexCoords(states))
    {
      ghost var t0 := log.trace;
      var enableTexCoordsArray := states.texture.Some? || states.shader.Some?;
      ghost var prepare := VertexPrepareCommands(cache.Fields(), useVertexCache, enableTexCoordsArray);
      PrepareVertexPointers(useVertexCache, enableTexCoordsArray, cache, log);
      ghost var s1 := cache.Fields();
      ghost var draw := [DrawArrays(PrimitiveToGlMode(primitive), 0, vertexCount)];
      DrawPrimitives(primitive, 0, vertexCount, log);
      ghost var cleanup := CleanupCommands(states);
      CleanupDraw(states, cache, log);
      ghost var s2 := cache.Fields();
      assert s2 == CleanupCache(s1, states);
      cache.useVertexCache := useVertexCache;
      cache.texCoordsArrayEnabled := enableTexCoordsArray;
      assert cache.Fields() == s2.(useVertexCache := useVertexCache, texCoordsArrayEnabled := enableTexCoordsArray);
      Appended(t0, prepare, draw);
      Appended(t0, prepare + draw, cleanup);
    }

    /** draw(vertices, ...) from setupDraw on, the vertex cache being filled already. */
    method DrawFromSetup(useVertexCache: bool, vertexCount: nat, primitive: PrimitiveType, states: RenderStates,
                         cache: StatesCache, reg: Registry, log: CommandLog, ctx: nat, caps: Caps)
      requires reg.Valid() && reg.IsActive(ctx, id) && ctx in reg.contextCaches && cache == reg.contextCaches[ctx]
      requires useVertexCache == UsesVertexCache(vertexCount)
      modifies reg, cache, log
      ensures unchanged(reg)
      ensures cache.Fields() == DrawVerticesCache(old(cache.Fields()), id, vertexCount, states)
      ensures log.trace == old(log.trace) + DrawVerticesCommands(old(cache.Fields()), caps, id, view, vertexCount, primitive, states)
    {
      ghost var a := cache.Fields();
      ghost var t0 := log.trace;
      ghost var setup := SetupDrawCommands(a, caps, id, view, useVertexCache, states);
      SetupDraw(useVertexCache, states, cache, reg, log, ctx, caps);
      ghost var s := cache.Fields();
      assert s == SetupDrawCache(a, id, states);
      ghost var prepare := VertexPrepareCommands(s, useVertexCache, NeedsTexCoords(states));
      ghost var draw := [DrawArrays(PrimitiveToGlMode(primitive), 0, vertexCount)];
      ghost var cleanup := CleanupCommands(states);
      FinishVertexDraw(useVertexCache, vertexCount, primitive, states, cache, log);
      Appended(t0, setup, prepare + draw + cleanup);
      Regrouped(setup, prepare, draw, cleanup);
      assert DrawVerticesCommands(a, caps, id, view, vertexCount, primitive, states) == setup + prepare + draw + cleanup;
    }

    /** draw(vertices, ...) once the target is active. */
    method DrawActiveVertices(vertices: seq<Vertex>, vertexCount: nat, primitive: PrimitiveType, states: RenderStates,
                              cache: StatesCache, reg: Registry, log: CommandLog, ctx: nat, caps: Caps)
      requires reg.Valid() && reg.IsActive(ctx, id) && ctx in reg.contextCaches && cache == reg.contextCaches[ctx]
      requires 0 < vertexCount <= |vertices| && cache.vertexCache.Length == VertexCacheSize
      modifies reg, cache, cache.vertexCache, log
      ensures unchanged(reg)
      ensures cache.Fields() == DrawVerticesCache(old(cache.Fields()), id, vertexCount, states)
      ensures log.trace == old(log.trace) + DrawVerticesCommands(old(cache.Fields()), caps, id, view, vertexCount, primitive, states)
      ensures UsesVertexCache(vertexCount) ==>
        forall k :: 0 <= k < vertexCount ==> cache.vertexCache[k] == PreTransformed(states.transform, vertices[k])
    {
      var useVertexCache := vertexCount <= VertexCacheSize;
      if useVertexCache {
        PreTransform(vertices, vertexCount, states.transform, cache);
      }
      DrawFromSetup(useVertexCache, vertexCount, primitive, states, cache, reg, log, ctx, caps);
    }

    /** draw(vertices, vertexCount, type, states). `vertices` is None for a null pointer. */
    method DrawVertices(vertices: Option<seq<Vertex>>, vertexCount: nat, primitive: PrimitiveType,
                        states: RenderStates, reg: Registry, log: CommandLog, ctx: nat, caps: Caps)
      requires reg.Valid()
      requires vertices.Some? ==> vertexCount <= |vertices.value|
      modifies reg, reg.CacheFrame(ctx), log
      ensures vertices.None? || vertexCount == 0 ==>
        unchanged(reg) && unchanged(reg.CacheFrame(ctx)) && log.trace == old(log.trace)
      ensures vertices.Some? && vertexCount > 0 ==>
        && reg.Activated(ctx, id)
        && reg.contextCaches[ctx].Fields() == DrawVerticesCache(old(reg.ActiveEntry(ctx, id)), id, vertexCount, states)
        && log.trace == old(log.trace) + DrawVerticesCommands(old(reg.ActiveEntry(ctx, id)), caps, id, view, vertexCount, primitive, states)
        && (UsesVertexCache(vertexCount) ==>
              forall k :: 0 <= k < vertexCount ==>
                reg.contextCaches[ctx].vertexCache[k] == PreTransformed(states.transform, vertices.value[k]))
    {
      if vertices.None? || vertexCount == 0 {
        return;
      }
      EnsureActive(reg, ctx);
      DrawActiveVertices(vertices.value, vertexCount, primitive, states, reg.contextCaches[ctx], reg, log, ctx, caps);
    }

    /** The buffer binding and texture-coordinate switch of draw(vertexBuffer, ...). */
    method PrepareBufferPointers(buffer: VertexBuffer, cache: StatesCache, log: CommandLog)
      modifies cache, log
      ensures log.trace == old(log.trace) + BufferPrepareCommands(old(cache.Fields()), buffer)
      ensures cache.Fields() == if !old(cache.enable) || old(cache.lastVBO) != buffer.handle
                                then old(cache.Fields()).(lastVBO := buffer.handle) else old(cache.Fields())
    {
      ghost var s := cache.Fields();
      if !cache.enable || cache.lastVBO != buffer.handle {
        log.Issue([BindVertexBuffer(buffer.handle), SetVertexPointers(BufferOffsets, true)]);
        cache.lastVBO := buffer.handle;
      }
      if !cache.enable || !cache.texCoordsArrayEnabled {
        log.Issue([SetTexCoordsArray(true)]);
      }
    }

    /** What draw(vertexBuffer, ...) does after setupDraw. */
    method FinishBufferDraw(buffer: VertexBuffer, firstVertex: nat, count: nat, states: RenderStates,
                            cache: StatesCache, log: CommandLog)
      modifies cache, log
      ensures log.trace == old(log.trace) + (BufferPrepareCommands(old(cache.Fields()), buffer)
                                             + [DrawArrays(PrimitiveToGlMode(buffer.primitiveType), firstVertex, count)]
                                             + CleanupCommands(states))
      ensures var s := old(cache.Fields());
        cache.Fields() == CleanupCache(if !s.enable || s.lastVBO != buffer.handle then s.(lastVBO := buffer.handle) else s, states)
                          .(useVertexCache := false, texCoordsArrayEnabled := true)
    {
      ghost var t0 := log.trace;
      ghost var prepare := BufferPrepareCommands(cache.Fields(), buffer);
      PrepareBufferPointers(buffer, cache, log);
      ghost var s1 := cache.Fields();
      ghost var draw := [DrawArrays(PrimitiveToGlMode(buffer.primitiveType), firstVertex, count)];
      DrawPrimitives(buffer.primitiveType, firstVertex, count, log);
      ghost var cleanup := CleanupCommands(states);
      CleanupDraw(states, cache, log);
      ghost var s2 := cache.Fields();
      assert s2 == CleanupCache(s1, states);
      cache.useVertexCache := false;
      cache.texCoordsArrayEnabled := true;
      assert cache.Fields() == s2.(useVertexCache := false, texCoordsArrayEnabled := true);
      Appended(t0, prepare, draw);
      Appended(t0, prepare + draw, cleanup);
    }

    /** draw(vertexBuffer, ...) once the target is active. */
    method DrawActiveBuffer(buffer: VertexBuffer, firstVertex: nat, count: nat, states: RenderStates,
                            cache: StatesCache, reg: Registry, log: CommandLog, ctx: nat, caps: Caps)
      requires reg.Valid() && reg.IsActive(ctx, id) && ctx in reg.contextCaches && cache == reg.contextCaches[ctx]
      modifies reg, cache, log
      ensures unchanged(reg)
      ensures cache.Fields() == DrawBufferCache(old(cache.Fields()), id, buffer, states)
      ensures log.trace == old(log.trace) + DrawBufferCommands(old(cache.Fields()), caps, id, view, buffer, firstVertex, count, states)
    {
      ghost var a := cache.Fields();
      ghost var t0 := log.trace;
      ghost var setup := SetupDrawCommands(a, caps, id, view, false, states);
      SetupDraw(false, states, cache, reg, log, ctx, caps);
      ghost var s := cache.Fields();
      assert s == SetupDrawCache(a, id, states);
      ghost var prepare := BufferPrepareCommands(s, buffer);
      ghost var draw := [DrawArrays(PrimitiveToGlMode(buffer.primitiveType), firstVertex, count)];
      ghost var cleanup := CleanupCommands(states);
      FinishBufferDraw(buffer, firstVertex, count, states, cache, log);
      Appended(t0, setup, prepare + draw + cleanup);
      Regrouped(setup, prepare, draw, cleanup);
      assert DrawBufferCommands(a, caps, id, view, buffer, firstVertex, count, states) == setup + prepare + draw + cleanup;
    }

    /** draw(vertexBuffer, ...) past its sanity checks, with the clamped count. */
    method DrawCheckedBuffer(buffer: VertexBuffer, firstVertex: nat, count: nat, states: RenderStates,
                             reg: Registry, log: CommandLog, ctx: nat, caps: Caps)
      requires reg.Valid()
      modifies reg, reg.CacheSet(ctx), log
      ensures reg.Activated(ctx, id)
      ensures reg.contextCaches[ctx].Fields() == DrawBufferCache(old(reg.ActiveEntry(ctx, id)), id, buffer, states)
      ensures log.trace == old(log.trace) + DrawBufferCommands(old(reg.ActiveEntry(ctx, id)), caps, id, view, buffer, firstVertex, count, states)
    {
      EnsureActive(reg, ctx);
      DrawActiveBuffer(buffer, firstVertex, count, states, reg.contextCaches[ctx], reg, log, ctx, caps);
    }

    /** draw(vertexBuffer, firstVertex, vertexCount, states). */
    method DrawBuffer(buffer: VertexBuffer, firstVertex: nat, vertexCount: nat, states: RenderStates,
                      reg: Registry, log: CommandLog, ctx: nat, caps: Caps)
      requires reg.Valid()
      modifies reg, reg.CacheSet(ctx), log
      ensures !caps.vertexBufferAvailable || ClampedCount(buffer, firstVertex, vertexCount).None? ==>
        unchanged(reg) && unchanged(reg.CacheSet(ctx)) && log.trace == old(log.trace)
      ensures caps.vertexBufferAvailable && ClampedCount(buffer, firstVertex, vertexCount).Some? ==>
        && reg.Activated(ctx, id)
        && reg.contextCaches[ctx].Fields() == DrawBufferCache(old(reg.ActiveEntry(ctx, id)), id, buffer, states)
        && log.trace == old(log.trace) + DrawBufferCommands(old(reg.ActiveEntry(ctx, id)), caps, id, view, buffer, firstVertex,
                                                            ClampedCount(buffer, firstVertex, vertexCount).value, states)
    {
      if caps.vertexBufferAvailable && firstVertex <= buffer.vertexCount {
        var count := if vertexCount < buffer.vertexCount - firstVertex then vertexCount else buffer.vertexCount - firstVertex;
        if count != 0 && buffer.handle != 0 {
          ghost var clamped := ClampedCount(buffer, firstVertex, vertexCount);
          assert clamped == Some(count);
          DrawCheckedBuffer(buffer, firstVertex, count, states, reg, log, ctx, caps);
          assert count == clamped.value;
        }
      }
    }

    /** draw(vertexBuffer, states): the whole buffer. */
    method DrawWholeBuffer(buffer: VertexBuffer, states: RenderStates, reg: Registry, log: CommandLog, ctx: nat, caps: Caps)
      requires reg.Valid()
      modifies reg, reg.CacheSet(ctx), log
      ensures !caps.vertexBufferAvailable || buffer.vertexCount == 0 || buffer.handle == 0 ==>
        unchanged(reg) && unchanged(reg.CacheSet(ctx)) && log.trace == old(log.trace)
      ensures caps.vertexBufferAvailable && buffer.vertexCount > 0 && buffer.handle != 0 ==>
        && reg.Activated(ctx, id)
        && reg.contextCaches[ctx].Fields() == DrawBufferCache(old(reg.ActiveEntry(ctx, id)), id, buffer, states)
        && log.trace == old(log.trace) + DrawBufferCommands(old(reg.ActiveEntry(ctx, id)), caps, id, view, buffer, 0,
                                                            buffer.vertexCount, states)
    {
      DrawBuffer(buffer, 0, buffer.vertexCount, states, reg, log, ctx, caps);
    }

    /** clear: unbinds the texture through the cache, then clears. */
    method ClearTarget(color: Color, reg: Registry, log: CommandLog, ctx: nat)
      requires reg.Valid()
      modifies reg, reg.CacheSet(ctx), log
      ensures reg.Activated(ctx, id)
      ensures reg.contextCaches[ctx].Fields() == ApplyTextureCache(old(reg.ActiveEntry(ctx, id)), DefaultStates)
      ensures log.trace == old(log.trace) + ClearCommands(color)
    {
      EnsureActive(reg, ctx);
      ApplyTexture(DefaultStates, reg.contextCaches[ctx], log, false);
      log.Issue([Clear(color)]);
    }

    /** setupGLStates: reset the states on first use only. */
    method SetupGLStates(reg: Registry, log: CommandLog, ctx: nat, caps: Caps)
      requires reg.Valid()
      modifies reg, reg.CacheSet(ctx), log
      ensures reg.Activated(ctx, id)
      ensures reg.contextCaches[ctx].Fields() == PreparedCache(old(reg.ActiveEntry(ctx, id)))
      ensures log.trace == old(log.trace) + (if old(reg.ActiveEntry(ctx, id)).glStatesSet then [] else ResetCommands(caps))
    {
      EnsureActive(reg, ctx);
      if !reg.contextCaches[ctx].glStatesSet {
        ResetGLStates(reg, log, ctx, caps);
      }
    }

    /** getSpriteVBO: activates the target and, on first use, creates and fills the
        four-vertex buffer; `allocatedHandle` is the handle the allocation yields. */
    method GetSpriteVBO(reg: Registry, ctx: nat, allocatedHandle: nat) returns (vbo: VertexBuffer)
      requires reg.Valid()
      modifies this, reg, reg.CacheSet(ctx)
      ensures view == old(view) && id == old(id) && defaultView == old(defaultView)
      ensures reg.Activated(ctx, id)
      ensures reg.contextCaches[ctx].Fields() == old(reg.ActiveEntry(ctx, id))
      ensures vbo == spriteVBO
      ensures old(spriteVBO.vertexCount) == 0 ==> spriteVBO == VertexBuffer(allocatedHandle, 4, TriangleStrip) && spriteVertices == SpriteQuad
      ensures old(spriteVBO.vertexCount) != 0 ==> spriteVBO == old(spriteVBO) && spriteVertices == old(spriteVertices)
    {
      EnsureActive(reg, ctx);
      if spriteVBO.vertexCount == 0 {
        spriteVBO := VertexBuffer(allocatedHandle, 4, TriangleStrip);
        spriteVertices := SpriteQuad;
      }
      vbo := spriteVBO;
    }
  }
}
