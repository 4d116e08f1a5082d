/** sf::Sprite of this SFML branch: a textured quad drawn from the render target's shared
    unit-square vertex buffer. The sprite bakes two transforms: the vertex transform scales
    the unit square to the local bounds, and the texture transform maps the unit square to
    the normalised coordinates of the texture rectangle. */
module Sprites {
  import opened Graphics
  import opened CacheSpec
  import opened RenderTargets

  /** x / d, the source's float division by an unsigned size; a zero divisor (an
      infinity or NaN in floats) gives 0. */
  function Ratio(x: real, d: nat): (q: real)
    ensures d > 0 ==> q * (d as real) == x
    ensures d == 0 ==> q == 0.0
  {
    if d == 0 then 0.0 else x / (d as real)
  }

  /** std::abs on the rectangle's signed extents. */
  function Abs(x: int): (a: nat)
    ensures a == x || a == -x
  {
    if x < 0 then -x else x
  }

  /** A transform whose last row is (0, 0, 1), as every sf::Transformable produces. */
  predicate Affine(t: Transform)
  {
    t.a20 == 0.0 && t.a21 == 0.0 && t.a22 == 1.0
  }

  /** getLocalBounds: anchored at the origin, as large as the texture rectangle whatever
      the signs of its extents. */
  function LocalBounds(rect: IntRect): (b: FloatRect)
    ensures b.left == 0.0 && b.top == 0.0
    ensures b.width >= 0.0 && b.height >= 0.0
    ensures b.width == rect.width as real || b.width == -(rect.width as real)
    ensures b.height == rect.height as real || b.height == -(rect.height as real)
  {
    FloatRect(0.0, 0.0, Abs(rect.width) as real, Abs(rect.height) as real)
  }

  /** updatePositions: the transform that stretches the unit square to the local bounds. */
  function VertexTransformOf(rect: IntRect): (t: Transform)
    ensures Affine(t)
  {
    var bounds := LocalBounds(rect);
    Transform(bounds.width, 0.0, 0.0,
              0.0, bounds.height, 0.0,
              0.0, 0.0, 1.0)
  }

  /** The point (x, y) of the unit square stretched over the extents of b. */
  function ScaledTo(b: FloatRect, p: Vector2): Vector2
  {
    Vector2(p.x * b.width, p.y * b.height)
  }

  /** The vertex transform sends the unit-square point p to p scaled by the local bounds. */
  lemma VertexTransformScales(rect: IntRect, p: Vector2)
    ensures TransformPoint(VertexTransformOf(rect), p) == ScaledTo(LocalBounds(rect), p)
  {
  }

  /** Texture::bind in pixel mode: a pixel position in the texture's own top-down
      coordinates in normalised coordinates of its (power-of-two) storage, with the rows
      counted from the bottom when the pixels are stored flipped. This is the reference
      against which the sprite's texture transform is judged. */
  function TexelOf(t: Texture, p: Vector2): (q: Vector2)
    ensures q.x == Ratio(p.x, t.actualSize.0)
  {
    Vector2(Ratio(p.x, t.actualSize.0),
            if t.pixelsFlipped then Ratio(t.size.1 as real - p.y, t.actualSize.1) else Ratio(p.y, t.actualSize.1))
  }

  /** updateTexCoords as the code writes it: for flipped pixels the vertical origin
      top / actualHeight is kept and size.y / actualHeight added to it. */
  function TexCoordTransformAsWritten(t: Texture, rect: IntRect): (m: Transform)
    ensures Affine(m)
    ensures !t.pixelsFlipped ==> m == TexCoordTransformOf(t, rect)
  {
    var left := rect.left as real;
    var right := left + rect.width as real;
    var top := rect.top as real;
    var bottom := top + rect.height as real;
    var xscale := Ratio(right - left, t.actualSize.0);
    var yscale := Ratio(bottom - top, t.actualSize.1);
    var xorigin := Ratio(left, t.actualSize.0);
    var yorigin := Ratio(top, t.actualSize.1);
    if t.pixelsFlipped then
      Transform(xscale, 0.0, xorigin, 0.0, -yscale, yorigin + Ratio(t.size.1 as real, t.actualSize.1), 0.0, 0.0, 1.0)
    else
      Transform(xscale, 0.0, xorigin, 0.0, yscale, yorigin, 0.0, 0.0, 1.0)
  }

  /** updateTexCoords, corrected: for flipped pixels the vertical origin is mirrored
      (size.y - top) / actualHeight, as Texture::bind mirrors every row. */
  function TexCoordTransformOf(t: Texture, rect: IntRect): (m: Transform)
    ensures Affine(m)
    ensures m.a00 == Ratio(rect.width as real, t.actualSize.0) && m.a02 == Ratio(rect.left as real, t.actualSize.0)
  {
    var left := rect.left as real;
    var right := left + rect.width as real;
    var top := rect.top as real;
    var bottom := top + rect.height as real;
    var xscale := Ratio(right - left, t.actualSize.0);
    var yscale := Ratio(bottom - top, t.actualSize.1);
    var xorigin := Ratio(left, t.actualSize.0);
    var yorigin := Ratio(top, t.actualSize.1);
    if t.pixelsFlipped then
      Transform(xscale, 0.0, xorigin, 0.0, -yscale, Ratio(t.size.1 as real, t.actualSize.1) - yorigin, 0.0, 0.0, 1.0)
    else
      Transform(xscale, 0.0, xorigin, 0.0, yscale, yorigin, 0.0, 0.0, 1.0)
  }

  /** a * (x / d) + y / d == (a * x + y) / d for a non-zero divisor. */
  lemma RatioLinear(a: real, x: real, y: real, d: nat)
    requires d > 0
    ensures a * Ratio(x, d) + Ratio(y, d) == Ratio(a * x + y, d)
  {
    var D := d as real;
    var qx, qy, q := Ratio(x, d), Ratio(y, d), Ratio(a * x + y, d);
    assert qx * D == x && qy * D == y && q * D == a * x + y;
    assert (a * qx + qy) * D == a * (qx * D) + qy * D;
    assert (a * qx + qy) * D == q * D;
  }

  /** The corrected texture transform sends the point p of the unit square to the texel of
      the matching point of the texture rectangle: the drawn quad shows exactly that
      rectangle of the texture. */
  lemma TexCoordsFollowRect(t: Texture, rect: IntRect, p: Vector2)
    requires t.actualSize.0 > 0 && t.actualSize.1 > 0
    ensures TransformPoint(TexCoordTransformOf(t, rect), p)
         == TexelOf(t, Vector2(rect.left as real + p.x * rect.width as real, rect.top as real + p.y * rect.height as real))
  {
    var m := TexCoordTransformOf(t, rect);
    var w, h, l, tp := rect.width as real, rect.height as real, rect.left as real, rect.top as real;
    var H := t.size.1 as real;
    RatioLinear(p.x, w, l, t.actualSize.0);
    assert p.x * w == w * p.x;
    if t.pixelsFlipped {
      RatioLinear(-p.y, h, H - tp, t.actualSize.1);
      var yo := Ratio(tp, t.actualSize.1);
      var S := Ratio(H, t.actualSize.1);
      var mid := Ratio(H - tp, t.actualSize.1);
      assert mid * (t.actualSize.1 as real) == (S - yo) * (t.actualSize.1 as real);
      assert mid == S - yo;
      assert H - (tp + p.y * h) == -p.y * h + (H - tp);
    } else {
      RatioLinear(p.y, h, tp, t.actualSize.1);
      assert p.y * h == h * p.y;
    }
  }

  /** The code's texture transform agrees with the corrected one exactly when the pixels are
      not flipped or the rectangle starts at the top row. */
  lemma TexCoordsAsWrittenAgreeIff(t: Texture, rect: IntRect)
    requires t.actualSize.1 > 0
    ensures TexCoordTransformAsWritten(t, rect) == TexCoordTransformOf(t, rect) <==> !t.pixelsFlipped || rect.top == 0
  {
    if t.pixelsFlipped {
      var D := t.actualSize.1 as real;
      var yo := Ratio(rect.top as real, t.actualSize.1);
      assert yo * D == rect.top as real;
      if rect.top != 0 {
        assert yo != 0.0;
        assert TexCoordTransformAsWritten(t, rect).a12 != TexCoordTransformOf(t, rect).a12;
      }
    }
  }

  /** A flipped 10x10 texture stored without padding. */
  const FlippedTexture: Texture := Texture(1, true, (10, 10), (10, 10), true)

  /** Its lower half. */
  const LowerHalf: IntRect := IntRect(0, 5, 10, 5)

  /** The corner (0, 0) of the sprite's quad: as written it samples at height 1.5, outside
      the texture, where the lower half starts at 0.5. */
  lemma FlippedTexCoordsAsWrittenCounterexample()
    ensures TransformPoint(TexCoordTransformAsWritten(FlippedTexture, LowerHalf), Vector2(0.0, 0.0)).y == 1.5
    ensures TexelOf(FlippedTexture, Vector2(0.0, 5.0)).y == 0.5
    ensures TransformPoint(TexCoordTransformOf(FlippedTexture, LowerHalf), Vector2(0.0, 0.0)).y == 0.5
  {
    assert Ratio(5.0, 10) == 0.5;
    assert Ratio(10.0, 10) == 1.0;
  }

  /** The state sf::Sprite keeps besides its sf::Transformable part. */
  datatype SpriteFields = SpriteFields(texture: Option<Texture>, textureRect: IntRect, color: Color,
                                       vertexTransform: Transform, textureTransform: Transform)

  /** Sprite(): no texture, the empty rectangle, white, identity transforms. */
  const DefaultSprite: SpriteFields := SpriteFields(None, EmptyRect, White, Identity, Identity)

  /** Both baked transforms describe the current rectangle of the current texture. */
  predicate Consistent(s: SpriteFields)
  {
    s.texture.Some? ==>
      && s.vertexTransform == VertexTransformOf(s.textureRect)
      && s.textureTransform == TexCoordTransformOf(s.texture.value, s.textureRect)
  }

  /** updatePositions followed by updateTexCoords. */
  function Refreshed(s: SpriteFields): (r: SpriteFields)
    requires s.texture.Some?
    ensures Consistent(r)
    ensures r.texture == s.texture && r.textureRect == s.textureRect && r.color == s.color
  {
    s.(vertexTransform := VertexTransformOf(s.textureRect),
       textureTransform := TexCoordTransformOf(s.texture.value, s.textureRect))
  }

  /** setTextureRect: nothing happens on the current rectangle; otherwise the rectangle is
      taken and both transforms recomputed, which reads the texture. */
  function WithTextureRect(s: SpriteFields, rect: IntRect): (r: SpriteFields)
    requires s.texture.Some? || rect == s.textureRect
    ensures r.textureRect == rect && r.texture == s.texture && r.color == s.color
    ensures rect == s.textureRect ==> r == s
    ensures Consistent(s) ==> Consistent(r)
  {
    if rect != s.textureRect then Refreshed(s.(textureRect := rect)) else s
  }

  /** Setting the same rectangle twice is setting it once. */
  lemma TextureRectIdempotent(s: SpriteFields, rect: IntRect)
    requires s.texture.Some? || rect == s.textureRect
    ensures WithTextureRect(WithTextureRect(s, rect), rect) == WithTextureRect(s, rect)
  {
  }

  /** The whole texture as a rectangle. */
  function FullRect(t: Texture): (rect: IntRect)
    ensures rect.left == 0 && rect.top == 0
    ensures LocalBounds(rect) == FloatRect(0.0, 0.0, t.size.0 as real, t.size.1 as real)
  {
    IntRect(0, 0, t.size.0, t.size.1)
  }

  /** setTexture takes the whole texture as rectangle when asked to, or when the sprite had
      neither a texture nor a rectangle. */
  predicate ResetsRect(s: SpriteFields, resetRect: bool)
  {
    resetRect || (s.texture.None? && s.textureRect == EmptyRect)
  }

  /** setTexture as the code writes it: the transforms are only recomputed through
      setTextureRect, hence not when the rectangle stays the same. */
  function WithTextureAsWritten(s: SpriteFields, t: Texture, resetRect: bool): (r: SpriteFields)
    ensures r.texture == Some(t) && r.color == s.color
    ensures r.textureRect == (if ResetsRect(s, resetRect) then FullRect(t) else s.textureRect)
    ensures r.textureRect == s.textureRect ==> r.vertexTransform == s.vertexTransform && r.textureTransform == s.textureTransform
  {
    var swapped := s.(texture := Some(t));
    if ResetsRect(s, resetRect) then WithTextureRect(swapped, FullRect(t)) else swapped
  }

  /** setTexture, corrected: the rectangle follows the same rule, and the transforms are
      recomputed for the new texture whether or not the rectangle changed. */
  function WithTexture(s: SpriteFields, t: Texture, resetRect: bool): (r: SpriteFields)
    ensures r.texture == Some(t) && r.color == s.color
    ensures Consistent(r)
    ensures ResetsRect(s, resetRect) ==> r.textureRect == FullRect(t)
    ensures !ResetsRect(s, resetRect) ==> r.textureRect == s.textureRect
  {
    var rect := if ResetsRect(s, resetRect) then FullRect(t) else s.textureRect;
    Refreshed(s.(texture := Some(t), textureRect := rect))
  }

  /** The rectangle changes only under the reset rule. */
  lemma RectResetIff(s: SpriteFields, t: Texture, resetRect: bool)
    ensures WithTexture(s, t, resetRect).textureRect != s.textureRect <==> ResetsRect(s, resetRect) && FullRect(t) != s.textureRect
  {
  }

  /** Setting the same texture twice with the same flag is setting it once. */
  lemma SetTextureIdempotent(s: SpriteFields, t: Texture, resetRect: bool)
    ensures WithTexture(WithTexture(s, t, resetRect), t, resetRect) == WithTexture(s, t, resetRect)
  {
    var r := WithTexture(s, t, resetRect);
    assert ResetsRect(r, resetRect) == resetRect;
  }

  /** Whenever the code's setTexture changes the rectangle it agrees with the corrected one. */
  lemma WithTextureAsWrittenAgrees(s: SpriteFields, t: Texture, resetRect: bool)
    requires ResetsRect(s, resetRect) && FullRect(t) != s.textureRect
    ensures WithTextureAsWritten(s, t, resetRect) == WithTexture(s, t, resetRect)
  {
  }

  /** A 10x10 texture padded to 16x16, and one that is not padded. */
  const PaddedTexture: Texture := Texture(1, false, (10, 10), (16, 16), false)
  const UnpaddedTexture: Texture := Texture(2, false, (10, 10), (10, 10), false)

  /** Swapping the padded texture for the unpadded one with a reset: the rectangle stays
      (0, 0, 10, 10), so as written the sprite keeps the padded texture's scale 10/16 and
      shows only part of the new texture. */
  lemma StaleTexCoordsAsWrittenCounterexample()
    ensures var s := WithTexture(DefaultSprite, PaddedTexture, false);
      && Consistent(s)
      && !Consistent(WithTextureAsWritten(s, UnpaddedTexture, true))
      && Consistent(WithTexture(s, UnpaddedTexture, true))
  {
    var s := WithTexture(DefaultSprite, PaddedTexture, false);
    assert s.textureRect == FullRect(UnpaddedTexture);
    var r := WithTextureAsWritten(s, UnpaddedTexture, true);
    assert r.textureTransform.a00 == Ratio(10.0, 16);
    assert Ratio(10.0, 16) != Ratio(10.0, 10);
    assert TexCoordTransformOf(UnpaddedTexture, r.textureRect).a00 == Ratio(10.0, 10);
  }

  /** One row of the matrix product applied to a point: the row (c0, c1, c2) of a * b maps
      (x, y) where the row (r0, r1, r2) of a maps q = b(x, y), when b's bottom row is affine. */
  lemma RowProduct(r0: real, r1: real, r2: real, b00: real, b01: real, b02: real,
                   b10: real, b11: real, b12: real, b20: real, b21: real, b22: real,
                   x: real, y: real, c0: real, c1: real, c2: real, qx: real, qy: real)
    requires b20 == 0.0 && b21 == 0.0 && b22 == 1.0
    requires c0 == r0 * b00 + r1 * b10 + r2 * b20
    requires c1 == r0 * b01 + r1 * b11 + r2 * b21
    requires c2 == r0 * b02 + r1 * b12 + r2 * b22
    requires qx == b00 * x + b01 * y + b02 && qy == b10 * x + b11 * y + b12
    ensures c0 * x + c1 * y + c2 == r0 * qx + r1 * qy + r2
  {
  }

  /** The product of two transforms with affine bottom rows has one. */
  lemma AffineCombine(a: Transform, b: Transform)
    requires Affine(a) && Affine(b)
    ensures Affine(Combine(a, b))
  {
  }

  lemma CombinedX(a: Transform, b: Transform, p: Vector2)
    requires Affine(b)
    ensures TransformPoint(Combine(a, b), p).x == TransformPoint(a, TransformPoint(b, p)).x
  {
    var c, q := Combine(a, b), TransformPoint(b, p);
    RowProduct(a.a00, a.a01, a.a02, b.a00, b.a01, b.a02, b.a10, b.a11, b.a12, b.a20, b.a21, b.a22,
               p.x, p.y, c.a00, c.a01, c.a02, q.x, q.y);
  }

  lemma CombinedY(a: Transform, b: Transform, p: Vector2)
    requires Affine(b)
    ensures TransformPoint(Combine(a, b), p).y == TransformPoint(a, TransformPoint(b, p)).y
  {
    var c, q := Combine(a, b), TransformPoint(b, p);
    RowProduct(a.a10, a.a11, a.a12, b.a00, b.a01, b.a02, b.a10, b.a11, b.a12, b.a20, b.a21, b.a22,
               p.x, p.y, c.a10, c.a11, c.a12, q.x, q.y);
  }

  lemma TransformPointCombine(a: Transform, b: Transform, p: Vector2)
    requires Affine(b)
    ensures TransformPoint(Combine(a, b), p) == TransformPoint(a, TransformPoint(b, p))
  {
    CombinedX(a, b, p);
    CombinedY(a, b, p);
  }

  /** The states draw submits: the caller's transform times the sprite's transform times
      the vertex transform, the sprite's texture, its texture transform and its colour; the
      caller's blend mode and shader are kept. */
  function SubmittedStates(s: SpriteFields, transform: Transform, states: RenderStates): (r: RenderStates)
    requires s.texture.Some?
    ensures r.texture == s.texture && r.textureTransform == Some(s.textureTransform) && r.color == s.color
    ensures r.blendMode == states.blendMode && r.shader == states.shader && r.shaderIsBound == states.shaderIsBound
  {
    states.(transform := Combine(states.transform, Combine(transform, s.vertexTransform)),
            texture := s.texture,
            textureTransform := Some(s.textureTransform),
            color := s.color)
  }

  /** A point moved by inner to q and then by the composition of outer and mid lands where
      mid and then outer move q. */
  lemma ComposedPoint(outer: Transform, mid: Transform, inner: Transform, p: Vector2, q: Vector2)
    requires Affine(mid) && Affine(inner) && TransformPoint(inner, p) == q
    ensures TransformPoint(Combine(outer, Combine(mid, inner)), p) == TransformPoint(outer, TransformPoint(mid, q))
  {
    AffineCombine(mid, inner);
    TransformPointCombine(outer, Combine(mid, inner), p);
    TransformPointCombine(mid, inner, p);
  }

  /** The quad of a sprite whose vertex transform is current: the unit-square point p lands where the point p scaled to
      the local bounds lands under the caller's and the sprite's transforms. */
  lemma SubmittedQuadCoversBounds(s: SpriteFields, transform: Transform, states: RenderStates, p: Vector2)
    requires s.texture.Some? && s.vertexTransform == VertexTransformOf(s.textureRect) && Affine(transform)
    ensures TransformPoint(SubmittedStates(s, transform, states).transform, p)
        == TransformPoint(states.transform, TransformPoint(transform, ScaledTo(LocalBounds(s.textureRect), p)))
  {
    VertexTransformScales(s.textureRect, p);
    ComposedPoint(states.transform, transform, s.vertexTransform, p, ScaledTo(LocalBounds(s.textureRect), p));
    assert SubmittedStates(s, transform, states).transform == Combine(states.transform, Combine(transform, s.vertexTransform));
  }

  /** The quad of a sprite whose texture transform is current samples exactly its texture
      rectangle. */
  lemma SubmittedTexCoordsFollowRect(s: SpriteFields, transform: Transform, states: RenderStates, p: Vector2)
    requires s.texture.Some? && s.textureTransform == TexCoordTransformOf(s.texture.value, s.textureRect)
    requires s.texture.value.actualSize.0 > 0 && s.texture.value.actualSize.1 > 0
    ensures var r := s.textureRect;
      TransformPoint(SubmittedStates(s, transform, states).textureTransform.value, p)
        == TexelOf(s.texture.value, Vector2(r.left as real + p.x * r.width as real, r.top as real + p.y * r.height as real))
  {
    var t := s.texture.value;
    TexCoordsFollowRect(t, s.textureRect, p);
    assert SubmittedStates(s, transform, states).textureTransform == Some(TexCoordTransformOf(t, s.textureRect));
  }

  /** sf::Sprite. `transform` stands for the sf::Transformable part (getTransform). */
  class Sprite {
    var texture: Option<Texture>
    var textureRect: IntRect
    var color: Color
    var vertexTransform: Transform
    var textureTransform: Transform
    var transform: Transform

    function Fields(): SpriteFields
      reads this
    {
      SpriteFields(texture, textureRect, color, vertexTransform, textureTransform)
    }

    predicate Valid()
      reads this
    {
      Consistent(Fields()) && Affine(transform)
    }

    /** Sprite(). */
    constructor()
      ensures Valid()
      ensures Fields() == DefaultSprite && transform == Identity
    {
      texture := None;
      textureRect := EmptyRect;
      color := White;
      vertexTransform := Identity;
      textureTransform := Identity;
      transform := Identity;
    }

    /** Sprite(texture): the default sprite given the texture, whose whole area it shows. */
    constructor FromTexture(t: Texture)
      ensures Valid()
      ensures Fields() == WithTexture(DefaultSprite, t, false) && transform == Identity
      ensures textureRect == FullRect(t) && color == White
    {
      texture := None;
      textureRect := EmptyRect;
      color := White;
      vertexTransform := Identity;
      textureTransform := Identity;
      transform := Identity;
      new;
      SetTexture(t, false);
    }

    /** Sprite(texture, rectangle). */
    constructor FromTextureRect(t: Texture, rect: IntRect)
      ensures Valid()
      ensures Fields() == Refreshed(SpriteFields(Some(t), rect, White, Identity, Identity)) && transform == Identity
    {
      texture := Some(t);
      textureRect := rect;
      color := White;
      vertexTransform := Identity;
      textureTransform := Identity;
      transform := Identity;
      new;
      UpdatePositions();
      UpdateTexCoords();
    }

    /** updatePositions. */
    method UpdatePositions()
      modifies this
      ensures Fields() == old(Fields()).(vertexTransform := VertexTransformOf(textureRect))
      ensures transform == old(transform)
    {
      vertexTransform := VertexTransformOf(textureRect);
    }

    /** updateTexCoords, which needs the texture. */
    method UpdateTexCoords()
      requires texture.Some?
      modifies this
      ensures texture == old(texture)
      ensures Fields() == old(Fields()).(textureTransform := TexCoordTransformOf(texture.value, textureRect))
      ensures transform == old(transform)
    {
      textureTransform := TexCoordTransformOf(texture.value, textureRect);
    }

    /** setTexture(texture, resetRect), with the corrected recomputation. */
    method SetTexture(t: Texture, resetRect: bool)
      modifies this
      ensures Fields() == WithTexture(old(Fields()), t, resetRect)
      ensures transform == old(transform)
      ensures old(Valid()) ==> Valid()
    {
      var oldTexture := texture;
      texture := Some(t);
      if resetRect || (oldTexture.None? && textureRect == EmptyRect) {
        textureRect := FullRect(t);
      }
      UpdatePositions();
      UpdateTexCoords();
    }

    /** setTextureRect: a different rectangle is taken and the transforms recomputed. */
    method SetTextureRect(rect: IntRect)
      requires texture.Some? || rect == textureRect
      modifies this
      ensures Fields() == WithTextureRect(old(Fields()), rect)
      ensures transform == old(transform)
      ensures old(Valid()) ==> Valid()
    {
      if rect != textureRect {
        textureRect := rect;
        UpdatePositions();
        UpdateTexCoords();
      }
    }

    /** setColor: only the colour changes, and getColor returns it. */
    method SetColor(c: Color)
      modifies this
      ensures GetColor() == c
      ensures Fields() == old(Fields()).(color := c) && transform == old(transform)
    {
      color := c;
    }

    /** getColor. */
    function GetColor(): Color
      reads this
    {
      color
    }

    /** getLocalBounds: anchored at the origin and never negative in size. */
    function GetLocalBounds(): (b: FloatRect)
      reads this
      ensures b.left == 0.0 && b.top == 0.0 && b.width >= 0.0 && b.height >= 0.0
    {
      LocalBounds(textureRect)
    }

    /** draw: a sprite without a texture draws nothing; otherwise the sprite's states are
        submitted with the target's shared quad buffer, drawn whole. The source's shader
        check (a diagnostic and a debug assertion) is a precondition. */
    method Draw(target: RenderTarget, states: RenderStates, reg: Registry, log: CommandLog,
                ctx: nat, caps: Caps, allocatedHandle: nat)
      requires texture.Some? ==> states.shader.Some?
      requires reg.Valid()
      modifies target, reg, reg.CacheSet(ctx), log
      ensures texture.None? ==>
        unchanged(target) && unchanged(reg) && unchanged(reg.CacheSet(ctx)) && log.trace == old(log.trace)
      ensures texture.Some? ==>
        && target.id == old(target.id) && target.view == old(target.view)
        && reg.Valid() && reg.IsActive(ctx, target.id) && ctx in reg.contextCaches
        && (old(target.spriteVBO.vertexCount) == 0 ==> target.spriteVBO == VertexBuffer(allocatedHandle, 4, TriangleStrip))
        && (old(target.spriteVBO.vertexCount) != 0 ==> target.spriteVBO == old(target.spriteVBO))
        && var entry := old(reg.ActiveEntry(ctx, target.id));
           var submitted := SubmittedStates(Fields(), transform, states);
           if caps.vertexBufferAvailable && target.spriteVBO.handle != 0 then
             && reg.contextCaches[ctx].Fields() == DrawBufferCache(entry, target.id, target.spriteVBO, submitted)
             && log.trace == old(log.trace) + DrawBufferCommands(entry, caps, target.id, target.view, target.spriteVBO, 0,
                                                                 target.spriteVBO.vertexCount, submitted)
           else
             reg.contextCaches[ctx].Fields() == entry && log.trace == old(log.trace)
    {
      if texture.Some? {
        var submitted := SubmittedStates(Fields(), transform, states);
        var vbo := target.GetSpriteVBO(reg, ctx, allocatedHandle);
        assert reg.ActiveEntry(ctx, target.id) == reg.contextCaches[ctx].Fields();
        target.DrawWholeBuffer(vbo, submitted, reg, log, ctx, caps);
      }
    }
  }
}
