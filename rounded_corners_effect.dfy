// The corner-rounding shader effect (effect/rounded_corners_effect.ts): the
// uniform values computed from a window's bounds and settings, and the
// effect object that caches uniform locations and pushes the values.
module RoundedCornersEffect {
  import opened Wrappers
  import opened Types

  /** The values pushed to the shader. bounds and borderedAreaBounds are [x1, y1, x2, y2]. */
  datatype Uniforms = Uniforms(
    bounds: seq<real>,
    clipRadius: real,
    borderWidth: real,
    borderColor: Color,
    borderedAreaBounds: seq<real>,
    borderedAreaClipRadius: real,
    pixelStep: seq<real>,
    exponent: real)

  // JavaScript number semantics needed for the radius clamp. A value of
  // None stands for `undefined` or NaN, which carry through arithmetic.

  /** a[i], or undefined past the end of the array. */
  function ArrayAt(a: seq<real>, i: int): (r: Option<real>)
    ensures r.Some? <==> 0 <= i < |a|
    ensures r.Some? ==> r.value == a[i]
  {
    if 0 <= i < |a| then Some(a[i]) else None
  }

  /** Subtraction, NaN when either operand is not a number. */
  function JsSub(a: Option<real>, b: Option<real>): (r: Option<real>)
    ensures r.Some? <==> a.Some? && b.Some?
    ensures r.Some? ==> r.value == a.value - b.value
  {
    if a.Some? && b.Some? then Some(a.value - b.value) else None
  }

  /** Math.min of two values: NaN as soon as one of them is NaN. */
  function JsMin(a: Option<real>, b: Option<real>): (r: Option<real>)
    ensures r.Some? <==> a.Some? && b.Some?
    ensures r.Some? ==>
      (r.value <= a.value && r.value <= b.value && (r.value == a.value || r.value == b.value))
  {
    if a.Some? && b.Some? then Some(if a.value <= b.value then a.value else b.value) else None
  }

  /** `a > b`, which is false whenever b is NaN. */
  predicate JsGreater(a: real, b: Option<real>)
  {
    b.Some? && a > b.value
  }

  /** The window bounds shrunk by the configured padding, as [x1, y1, x2, y2]. */
  function PaddedBounds(scale: real, cfg: RoundedCornerSettings, wb: Bounds): (b: seq<real>)
    ensures |b| == 4
  {
    [wb.x1 + cfg.padding.left * scale, wb.y1 + cfg.padding.top * scale,
     wb.x2 - cfg.padding.right * scale, wb.y2 - cfg.padding.bottom * scale]
  }

  /** Bounds moved inwards by d on every side. */
  function Inset(b: seq<real>, d: real): (r: seq<real>)
    requires |b| == 4
    ensures |r| == 4
    ensures r[0] - b[0] == d && r[1] - b[1] == d && b[2] - r[2] == d && b[3] - r[3] == d
  {
    [b[0] + d, b[1] + d, b[2] - d, b[3] - d]
  }

  /** Radius of the bordered area before it follows the clamp: snapped to 0 below 0.001. */
  function InnerRadiusBase(outerRadius: real, borderWidth: real): (r: real)
    ensures r == 0.0 || r >= 0.001
    ensures r != 0.0 ==> r == outerRadius - borderWidth
  {
    if outerRadius - borderWidth < 0.001 then 0.0 else outerRadius - borderWidth
  }

  /** The squircle exponent before clamping: 2 for no smoothing, 12 for full smoothing. */
  function BaseExponent(cfg: RoundedCornerSettings): real
  {
    cfg.smoothing * 10.0 + 2.0
  }

  /** Divisions the computation performs must not be by zero. */
  predicate WellFormedInputs(scale: real, cfg: RoundedCornerSettings, actorWidth: real, actorHeight: real)
  {
    actorWidth != 0.0 && actorHeight != 0.0 && cfg.borderRadius * scale != 0.0
    && BaseExponent(cfg) != 0.0
  }

  /** Exponent and radius after the clamp. */
  datatype Clamped = Clamped(exponent: real, radius: real)

  /**
   * The clamp: when the radius exceeds the limit, the radius becomes the
   * limit and the exponent shrinks in the same proportion; a NaN limit
   * never compares smaller.
   */
  function ClampRadius(exponent0: real, radius0: real, maxRadius: Option<real>): (c: Clamped)
    requires radius0 != 0.0
    ensures !JsGreater(radius0, maxRadius) ==> c == Clamped(exponent0, radius0)
    ensures JsGreater(radius0, maxRadius) ==>
      c.radius == maxRadius.value && c.exponent == exponent0 * (maxRadius.value / radius0)
  {
    if JsGreater(radius0, maxRadius) then Clamped(exponent0 * (maxRadius.value / radius0), maxRadius.value)
    else Clamped(exponent0, radius0)
  }

  /**
   * The uniforms exactly as the source computes them: the limit on the
   * radius reads bounds[3] - bounds[0] and bounds[4] - bounds[1], and
   * bounds has four entries, so the limit is NaN.
   */
  function UniformsAsWritten(scale: real, borderWidthPref: real, cfg: RoundedCornerSettings,
                                   wb: Bounds, actorWidth: real, actorHeight: real): (u: Uniforms)
    requires WellFormedInputs(scale, cfg, actorWidth, actorHeight)
    ensures |u.bounds| == 4 && |u.borderedAreaBounds| == 4 && |u.pixelStep| == 2
    ensures u.borderWidth == borderWidthPref * scale && u.borderColor == cfg.borderColor
  {
    UniformsFrom(scale, borderWidthPref, cfg, wb, actorWidth, actorHeight, AsWrittenClamp(scale, cfg, wb))
  }

  /** The clamp as written: the limit is min(bounds[3] - bounds[0], bounds[4] - bounds[1]). */
  function AsWrittenClamp(scale: real, cfg: RoundedCornerSettings, wb: Bounds): Clamped
    requires cfg.borderRadius * scale != 0.0 && BaseExponent(cfg) != 0.0
  {
    var bounds := PaddedBounds(scale, cfg, wb);
    var maxRadius := JsMin(JsSub(ArrayAt(bounds, 3), ArrayAt(bounds, 0)),
                           JsSub(ArrayAt(bounds, 4), ArrayAt(bounds, 1)));
    ClampRadius(BaseExponent(cfg), cfg.borderRadius * scale * 0.5 * BaseExponent(cfg), maxRadius)
  }

  /**
   * The uniforms updateUniforms computes around a clamped exponent and
   * radius: the padded bounds, the scaled border width, the bordered area
   * inside them, its radius in proportion, and the pixel steps.
   */
  function UniformsFrom(scale: real, borderWidthPref: real, cfg: RoundedCornerSettings,
                        wb: Bounds, actorWidth: real, actorHeight: real, clamped: Clamped): Uniforms
    requires WellFormedInputs(scale, cfg, actorWidth, actorHeight)
  {
    var borderWidth := borderWidthPref * scale;
    var outerRadius := cfg.borderRadius * scale;
    var bounds := PaddedBounds(scale, cfg, wb);
    Uniforms(bounds, clamped.radius, borderWidth, cfg.borderColor, Inset(bounds, borderWidth),
             InnerRadiusBase(outerRadius, borderWidth) * (clamped.radius / outerRadius),
             [1.0 / actorWidth, 1.0 / actorHeight], clamped.exponent)
  }

  /**
   * As written, the clamp never fires: the radius is always half the outer
   * radius times the unclamped exponent, however small the window.
   */
  lemma AsWrittenNeverClamps(scale: real, borderWidthPref: real, cfg: RoundedCornerSettings,
                             wb: Bounds, actorWidth: real, actorHeight: real)
    requires WellFormedInputs(scale, cfg, actorWidth, actorHeight)
    ensures var u := UniformsAsWritten(scale, borderWidthPref, cfg, wb, actorWidth, actorHeight);
      u.exponent == BaseExponent(cfg) && u.clipRadius == cfg.borderRadius * scale * 0.5 * BaseExponent(cfg)
  {
    assert ArrayAt(PaddedBounds(scale, cfg, wb), 4).None?;
  }

  /** The smaller of the width and the height of bounds [x1, y1, x2, y2]. */
  function MaxRadius(b: seq<real>): (r: real)
    requires |b| == 4
    ensures r <= b[2] - b[0] && r <= b[3] - b[1]
    ensures r == b[2] - b[0] || r == b[3] - b[1]
  {
    if b[2] - b[0] <= b[3] - b[1] then b[2] - b[0] else b[3] - b[1]
  }

  /**
   * The limit the source computes, with only its two array indices moved
   * back inside the bounds, is exactly MaxRadius: no halving is involved.
   */
  lemma CorrectedIndicesGiveSmallerSide(b: seq<real>)
    requires |b| == 4
    ensures JsMin(JsSub(ArrayAt(b, 2), ArrayAt(b, 0)), JsSub(ArrayAt(b, 3), ArrayAt(b, 1))) == Some(MaxRadius(b))
  {
    var w := JsSub(ArrayAt(b, 2), ArrayAt(b, 0));
    var h := JsSub(ArrayAt(b, 3), ArrayAt(b, 1));
    assert w == Some(b[2] - b[0]) && h == Some(b[3] - b[1]);
  }

  /**
   * A 40 x 40 window with a 12 pixel radius at full smoothing gets a clip
   * radius of 72 from the code as written: larger than the window itself.
   */
  lemma AsWrittenRadiusExceedsWindow()
    ensures var cfg := RoundedCornerSettings(KeepRoundedCorners(false, false), 12.0, 1.0,
                                             Padding(0.0, 0.0, 0.0, 0.0), Color(1.0, 1.0, 1.0, 1.0), true);
      var u := UniformsAsWritten(1.0, 0.0, cfg, Bounds(0.0, 0.0, 40.0, 40.0), 40.0, 40.0);
      u.clipRadius == 72.0 && u.clipRadius > MaxRadius(u.bounds)
  {
    var cfg := RoundedCornerSettings(KeepRoundedCorners(false, false), 12.0, 1.0,
                                     Padding(0.0, 0.0, 0.0, 0.0), Color(1.0, 1.0, 1.0, 1.0), true);
    AsWrittenNeverClamps(1.0, 0.0, cfg, Bounds(0.0, 0.0, 40.0, 40.0), 40.0, 40.0);
  }

  /**
   * The uniforms with the intended clamp: the radius (and the exponent in
   * proportion) is limited to the smaller of the bounds' width and height.
   */
  function IntendedUniforms(scale: real, borderWidthPref: real, cfg: RoundedCornerSettings,
                          wb: Bounds, actorWidth: real, actorHeight: real): (u: Uniforms)
    requires WellFormedInputs(scale, cfg, actorWidth, actorHeight)
    ensures u.bounds == PaddedBounds(scale, cfg, wb) && u.borderColor == cfg.borderColor
    ensures u.borderWidth == borderWidthPref * scale
    ensures u.borderedAreaBounds == Inset(u.bounds, u.borderWidth)
    ensures |u.pixelStep| == 2
    ensures u.clipRadius <= MaxRadius(u.bounds)
    ensures var r0 := cfg.borderRadius * scale * 0.5 * BaseExponent(cfg);
      u.clipRadius == (if r0 > MaxRadius(u.bounds) then MaxRadius(u.bounds) else r0)
  {
    UniformsFrom(scale, borderWidthPref, cfg, wb, actorWidth, actorHeight, IntendedClamp(scale, cfg, wb))
  }

  /** The intended clamp of the exponent and radius, limited by the smaller side of the padded bounds. */
  function IntendedClamp(scale: real, cfg: RoundedCornerSettings, wb: Bounds): Clamped
    requires cfg.borderRadius * scale != 0.0 && BaseExponent(cfg) != 0.0
  {
    ClampRadius(BaseExponent(cfg), cfg.borderRadius * scale * 0.5 * BaseExponent(cfg),
                Some(MaxRadius(PaddedBounds(scale, cfg, wb))))
  }

  /** The pixel steps are the reciprocals of the actor's width and height. */
  lemma IntendedPixelStep(scale: real, borderWidthPref: real, cfg: RoundedCornerSettings,
                          wb: Bounds, actorWidth: real, actorHeight: real)
    requires WellFormedInputs(scale, cfg, actorWidth, actorHeight)
    ensures var u := IntendedUniforms(scale, borderWidthPref, cfg, wb, actorWidth, actorHeight);
      u.pixelStep[0] * actorWidth == 1.0 && u.pixelStep[1] * actorHeight == 1.0
  {
  }

  /** The clamp keeps the radius at half the outer radius times the exponent, clamped or not. */
  lemma ClampProportional(outerRadius: real, exponent0: real, maxRadius: real)
    requires outerRadius != 0.0 && exponent0 != 0.0
    ensures var c := ClampRadius(exponent0, outerRadius * 0.5 * exponent0, Some(maxRadius));
      c.radius == outerRadius * 0.5 * c.exponent
  {
    if outerRadius * 0.5 * exponent0 > maxRadius {
      ClampKeepsRatio(outerRadius, exponent0, maxRadius);
    }
  }

  /** The intended clamp keeps the radius at half the outer radius times the exponent. */
  lemma IntendedRadiusFollowsExponent(scale: real, borderWidthPref: real, cfg: RoundedCornerSettings,
                                      wb: Bounds, actorWidth: real, actorHeight: real)
    requires WellFormedInputs(scale, cfg, actorWidth, actorHeight)
    ensures var u := IntendedUniforms(scale, borderWidthPref, cfg, wb, actorWidth, actorHeight);
      u.clipRadius == cfg.borderRadius * scale * 0.5 * u.exponent
  {
    var c := IntendedClamp(scale, cfg, wb);
    ClampProportional(cfg.borderRadius * scale, BaseExponent(cfg), MaxRadius(PaddedBounds(scale, cfg, wb)));
    assert c.radius == cfg.borderRadius * scale * 0.5 * c.exponent;
    var u := IntendedUniforms(scale, borderWidthPref, cfg, wb, actorWidth, actorHeight);
    assert u.clipRadius == c.radius && u.exponent == c.exponent;
  }

  /** The inner clip radius stands to the inner radius as the clip radius to the outer radius. */
  lemma IntendedInnerRadiusInProportion(scale: real, borderWidthPref: real, cfg: RoundedCornerSettings,
                                        wb: Bounds, actorWidth: real, actorHeight: real)
    requires WellFormedInputs(scale, cfg, actorWidth, actorHeight)
    ensures var u := IntendedUniforms(scale, borderWidthPref, cfg, wb, actorWidth, actorHeight);
      u.borderedAreaClipRadius * (cfg.borderRadius * scale)
        == InnerRadiusBase(cfg.borderRadius * scale, u.borderWidth) * u.clipRadius
  {
    InnerRadiusInProportion(scale, borderWidthPref, cfg, wb, actorWidth, actorHeight, IntendedClamp(scale, cfg, wb));
  }

  lemma InnerRadiusInProportion(scale: real, borderWidthPref: real, cfg: RoundedCornerSettings,
                                wb: Bounds, actorWidth: real, actorHeight: real, clamped: Clamped)
    requires WellFormedInputs(scale, cfg, actorWidth, actorHeight)
    ensures var u := UniformsFrom(scale, borderWidthPref, cfg, wb, actorWidth, actorHeight, clamped);
      u.borderedAreaClipRadius * (cfg.borderRadius * scale)
        == InnerRadiusBase(cfg.borderRadius * scale, u.borderWidth) * u.clipRadius
  {
    var outerRadius := cfg.borderRadius * scale;
    RatioTimesDenominator(InnerRadiusBase(outerRadius, borderWidthPref * scale), clamped.radius, outerRadius);
  }

  /** Multiplying a ratio back by its denominator. */
  lemma RatioTimesDenominator(a: real, b: real, c: real)
    requires c != 0.0
    ensures a * (b / c) * c == a * b
  {
  }

  /** Scaling the exponent by maxRadius / radius scales the radius to exactly maxRadius. */
  lemma ClampKeepsRatio(outerRadius: real, exponent0: real, maxRadius: real)
    requires outerRadius != 0.0 && exponent0 != 0.0
    ensures outerRadius * 0.5 * (exponent0 * (maxRadius / (outerRadius * 0.5 * exponent0))) == maxRadius
  {
    var r0 := outerRadius * 0.5 * exponent0;
    assert r0 != 0.0;
    calc {
      outerRadius * 0.5 * (exponent0 * (maxRadius / r0));
      (outerRadius * 0.5 * exponent0) * (maxRadius / r0);
      r0 * (maxRadius / r0);
      maxRadius;
    }
  }

  /** Where the clamp would not fire anyway, the code as written computes the intended uniforms. */
  lemma AsWrittenAgreesWhenRadiusFits(scale: real, borderWidthPref: real, cfg: RoundedCornerSettings,
                                      wb: Bounds, actorWidth: real, actorHeight: real)
    requires WellFormedInputs(scale, cfg, actorWidth, actorHeight)
    requires cfg.borderRadius * scale * 0.5 * BaseExponent(cfg) <= MaxRadius(PaddedBounds(scale, cfg, wb))
    ensures UniformsAsWritten(scale, borderWidthPref, cfg, wb, actorWidth, actorHeight)
         == IntendedUniforms(scale, borderWidthPref, cfg, wb, actorWidth, actorHeight)
  {
    assert ArrayAt(PaddedBounds(scale, cfg, wb), 4).None?;
    assert AsWrittenClamp(scale, cfg, wb) == IntendedClamp(scale, cfg, wb);
  }

  /** Names of the uniforms, in the order their locations are looked up. */
  const UNIFORM_NAMES: seq<string> := ["bounds", "clipRadius", "borderWidth", "borderColor",
    "borderedAreaBounds", "borderedAreaClipRadius", "exponent", "pixelStep"]

  /** One Shell.GLSLEffect.set_uniform_float call: location, number of floats, values. */
  datatype UniformWrite = UniformWrite(location: int, count: nat, values: seq<real>)

  predicate HasAllLocations(locations: map<string, int>)
  {
    forall k | k in UNIFORM_NAMES :: k in locations
  }

  function ColorValues(c: Color): seq<real>
  {
    [c.r, c.g, c.b, c.a]
  }

  /** The eight calls #setUniforms makes, in its order (pixelStep before exponent). */
  function UniformWrites(locations: map<string, int>, u: Uniforms): (w: seq<UniformWrite>)
    requires HasAllLocations(locations)
    ensures |w| == 8
  {
    [UniformWrite(locations["bounds"], 4, u.bounds),
     UniformWrite(locations["clipRadius"], 1, [u.clipRadius]),
     UniformWrite(locations["borderWidth"], 1, [u.borderWidth]),
     UniformWrite(locations["borderColor"], 4, ColorValues(u.borderColor)),
     UniformWrite(locations["borderedAreaBounds"], 4, u.borderedAreaBounds),
     UniformWrite(locations["borderedAreaClipRadius"], 1, [u.borderedAreaClipRadius]),
     UniformWrite(locations["pixelStep"], 2, u.pixelStep),
     UniformWrite(locations["exponent"], 1, [u.exponent])]
  }

  /**
   * For any uniforms of the shapes updateUniforms produces (as written or
   * with the intended clamp), every call passes exactly as many values as
   * it declares, and every uniform is written once.
   */
  lemma WritesMatchDeclaredCounts(locations: map<string, int>, u: Uniforms)
    requires HasAllLocations(locations)
    requires |u.bounds| == 4 && |u.borderedAreaBounds| == 4 && |u.pixelStep| == 2
    ensures var w := UniformWrites(locations, u);
      (forall i | 0 <= i < |w| :: |w[i].values| == w[i].count)
      && (forall k | k in UNIFORM_NAMES :: exists i | 0 <= i < |w| :: w[i].location == locations[k])
  {
    var w := UniformWrites(locations, u);
    assert w[0].location == locations["bounds"];
    assert w[1].location == locations["clipRadius"];
    assert w[2].location == locations["borderWidth"];
    assert w[3].location == locations["borderColor"];
    assert w[4].location == locations["borderedAreaBounds"];
    assert w[5].location == locations["borderedAreaClipRadius"];
    assert w[6].location == locations["pixelStep"];
    assert w[7].location == locations["exponent"];
  }

  /** The static Effect.uniforms table of uniform locations, shared by every effect. */
  class UniformTable {
    var locations: map<string, int>

    constructor ()
      ensures locations == map k | k in UNIFORM_NAMES :: 0
    {
      locations := map k | k in UNIFORM_NAMES :: 0;
    }
  }

  /** A RoundedCornersEffect attached to a window: the calls it made to its shader, its repaints. */
  class Effect {
    const table: UniformTable
    var writes: seq<UniformWrite>
    var repaints: nat
    var enabled: bool

    /** Looks up the location of every uniform, in declaration order, and stores it in the shared table. */
    constructor (table: UniformTable, locate: string -> int)
      modifies table
      ensures this.table == table && writes == [] && repaints == 0 && enabled
      ensures table.locations.Keys == old(table.locations.Keys) + set k | k in UNIFORM_NAMES
      ensures forall k | k in UNIFORM_NAMES :: table.locations[k] == locate(k)
      ensures forall k | k in table.locations && k !in UNIFORM_NAMES :: table.locations[k] == old(table.locations[k])
    {
      this.table := table;
      writes := [];
      repaints := 0;
      enabled := true;
      new;
      var i := 0;
      while i < |UNIFORM_NAMES|
        invariant 0 <= i <= |UNIFORM_NAMES|
        invariant writes == [] && repaints == 0 && enabled
        invariant table.locations.Keys == old(table.locations.Keys) + set k | k in UNIFORM_NAMES[..i]
        invariant forall k | k in UNIFORM_NAMES[..i] :: k in table.locations && table.locations[k] == locate(k)
        invariant forall k | k in table.locations && k !in UNIFORM_NAMES[..i] :: table.locations[k] == old(table.locations[k])
      {
        var name := UNIFORM_NAMES[i];
        assert UNIFORM_NAMES[..i + 1] == UNIFORM_NAMES[..i] + [name];
        table.locations := table.locations[name := locate(name)];
        i := i + 1;
      }
      assert UNIFORM_NAMES[..i] == UNIFORM_NAMES;
    }

    /** #setUniforms: the eight uniform writes, then one repaint request. */
    method SetUniforms(u: Uniforms)
      requires HasAllLocations(table.locations)
      modifies this
      ensures writes == old(writes) + UniformWrites(table.locations, u)
      ensures repaints == old(repaints) + 1 && enabled == old(enabled)
    {
      var locations := table.locations;
      writes := writes + [UniformWrite(locations["bounds"], 4, u.bounds)];
      writes := writes + [UniformWrite(locations["clipRadius"], 1, [u.clipRadius])];
      writes := writes + [UniformWrite(locations["borderWidth"], 1, [u.borderWidth])];
      writes := writes + [UniformWrite(locations["borderColor"], 4, ColorValues(u.borderColor))];
      writes := writes + [UniformWrite(locations["borderedAreaBounds"], 4, u.borderedAreaBounds)];
      writes := writes + [UniformWrite(locations["borderedAreaClipRadius"], 1, [u.borderedAreaClipRadius])];
      writes := writes + [UniformWrite(locations["pixelStep"], 2, u.pixelStep)];
      writes := writes + [UniformWrite(locations["exponent"], 1, [u.exponent])];
      repaints := repaints + 1;
    }

    /**
     * updateUniforms as written: computes the uniforms for a window, whose
     * radius limit is NaN so that the clamp never fires, and pushes them.
     */
    method UpdateUniforms(scale: real, borderWidthPref: real, cfg: RoundedCornerSettings,
                          wb: Bounds, actorWidth: real, actorHeight: real)
      requires HasAllLocations(table.locations)
      requires WellFormedInputs(scale, cfg, actorWidth, actorHeight)
      modifies this
      ensures writes == old(writes) + UniformWrites(table.locations,
        UniformsAsWritten(scale, borderWidthPref, cfg, wb, actorWidth, actorHeight))
      ensures repaints == old(repaints) + 1 && enabled == old(enabled)
    {
      SetUniforms(UniformsAsWritten(scale, borderWidthPref, cfg, wb, actorWidth, actorHeight));
    }

    /** updateUniforms with the radius limited to the smaller side of the padded bounds. */
    method UpdateUniformsIntended(scale: real, borderWidthPref: real, cfg: RoundedCornerSettings,
                                  wb: Bounds, actorWidth: real, actorHeight: real)
      requires HasAllLocations(table.locations)
      requires WellFormedInputs(scale, cfg, actorWidth, actorHeight)
      modifies this
      ensures writes == old(writes) + UniformWrites(table.locations,
        IntendedUniforms(scale, borderWidthPref, cfg, wb, actorWidth, actorHeight))
      ensures repaints == old(repaints) + 1 && enabled == old(enabled)
    {
      SetUniforms(IntendedUniforms(scale, borderWidthPref, cfg, wb, actorWidth, actorHeight));
    }
  }
}
