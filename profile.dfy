/**
 * An atmosphere profile asset and the settings object it owns. The settings
 * object is shared by reference: every planet instance that uses the profile
 * reads, and clamps, the same fields. `SettingsValue` is a snapshot of those
 * fields, so that the validation rules can be stated as pure functions.
 */
module Profile {
  import opened Engine

  /** Range of the three internal scale factors that the normalised sliders map into. */
  const MIN_SCALE_FACTOR: real := 0.0001
  const MAX_SCALE_FACTOR: real := 0.01

  datatype SettingsValue = SettingsValue(
    planetRadius: real,
    atmosphereHeight: real,
    densityScale: real,
    densityEdgeSmoothness: real,
    rayleighScaleHeightNorm: real,
    mieScaleHeightNorm: real,
    ozoneCenterAltitudeNorm: real,
    ozoneWidth: real,
    rayleighScatteringCoeff: Color,
    rayleighScaleFactor: real,
    rayleighScaleFactorInternal: real,
    mieScatteringCoeff: Color,
    mieScaleFactor: real,
    mieScaleFactorInternal: real,
    ozoneAbsorptionCoeff: Color,
    ozoneScaleFactor: real,
    ozoneScaleFactorInternal: real,
    mieG: real,
    sunIntensity: real,
    ambientIntensity: real,
    atmosphereTint: Color)

  /** The field initialisers of a freshly constructed settings object. */
  const DefaultSettings: SettingsValue := SettingsValue(
    1.0, 1.0, 15.0, 0.2, 0.084, 0.012, 0.25, 0.3,
    Color(5.8, 13.5, 33.1, 1.0), 0.1, 0.001,
    Color(3.9, 3.9, 3.9, 1.0), 0.1, 0.001,
    Color(0.6, 1.9, 0.05, 1.0), 0.1, 0.001,
    0.76, 20.0, 0.01, Color(1.0, 1.0, 1.0, 1.0))

  /** The internal factor a normalised slider stands for. */
  function InternalScaleFactor(slider: real): (r: real)
    ensures MIN_SCALE_FACTOR <= r <= MAX_SCALE_FACTOR
    ensures slider <= 0.0 ==> r == MIN_SCALE_FACTOR
    ensures slider >= 1.0 ==> r == MAX_SCALE_FACTOR
  {
    Lerp(MIN_SCALE_FACTOR, MAX_SCALE_FACTOR, slider)
  }

  lemma InternalScaleFactorMonotone(s1: real, s2: real)
    requires s1 <= s2
    ensures InternalScaleFactor(s1) <= InternalScaleFactor(s2)
  {
    var c1, c2 := Clamp01(s1), Clamp01(s2);
    assert c1 <= c2;
    MulNonNegative(MAX_SCALE_FACTOR - MIN_SCALE_FACTOR, c2 - c1);
  }

  /** Clamping the slider first does not change the factor, because `Lerp` clamps too. */
  lemma InternalScaleFactorOfClamped(slider: real)
    ensures InternalScaleFactor(Clamp01(slider)) == InternalScaleFactor(slider)
  {
  }

  /** The internal factors agree with their sliders: the derived-state invariant. */
  predicate InternalFactorsSynced(v: SettingsValue) {
    && v.rayleighScaleFactorInternal == InternalScaleFactor(v.rayleighScaleFactor)
    && v.mieScaleFactorInternal == InternalScaleFactor(v.mieScaleFactor)
    && v.ozoneScaleFactorInternal == InternalScaleFactor(v.ozoneScaleFactor)
  }

  /** `UpdateInternalScaleFactors` on a snapshot: the three internal factors are recomputed, nothing else moves. */
  function WithInternalFactors(v: SettingsValue): (r: SettingsValue)
    ensures InternalFactorsSynced(r)
    ensures r.(rayleighScaleFactorInternal := v.rayleighScaleFactorInternal,
               mieScaleFactorInternal := v.mieScaleFactorInternal,
               ozoneScaleFactorInternal := v.ozoneScaleFactorInternal) == v
  {
    v.(rayleighScaleFactorInternal := InternalScaleFactor(v.rayleighScaleFactor),
       mieScaleFactorInternal := InternalScaleFactor(v.mieScaleFactor),
       ozoneScaleFactorInternal := InternalScaleFactor(v.ozoneScaleFactor))
  }

  /** A fresh settings object does not satisfy the derived-state invariant: 0.001 is not Lerp(0.0001, 0.01, 0.1). */
  lemma DefaultInternalFactorsStale()
    ensures !InternalFactorsSynced(DefaultSettings)
    ensures InternalScaleFactor(DefaultSettings.rayleighScaleFactor) == 0.00109
  {
  }

  predicate RgbNonNegative(c: Color) { c.r >= 0.0 && c.g >= 0.0 && c.b >= 0.0 }

  /** Every documented range that `OnValidate` enforces. */
  predicate InRange(v: SettingsValue) {
    && 0.0 <= v.rayleighScaleFactor <= 1.0
    && 0.0 <= v.mieScaleFactor <= 1.0
    && 0.0 <= v.ozoneScaleFactor <= 1.0
    && v.planetRadius >= 0.1
    && v.atmosphereHeight >= 0.0
    && 0.01 <= v.rayleighScaleHeightNorm <= 0.99
    && 0.01 <= v.mieScaleHeightNorm <= 0.99
    && 0.0 <= v.ozoneCenterAltitudeNorm <= 1.0
    && v.ozoneWidth >= 0.01
    && v.densityScale >= 0.0
    && 0.0 <= v.densityEdgeSmoothness <= 1.0
    && -0.99 <= v.mieG <= 0.99
    && RgbNonNegative(v.rayleighScatteringCoeff)
    && RgbNonNegative(v.mieScatteringCoeff)
    && RgbNonNegative(v.ozoneAbsorptionCoeff)
    && v.sunIntensity >= 0.0
    && v.ambientIntensity >= 0.0
  }

  /** The r, g and b channels made non-negative; alpha is left as it is. */
  function ClampRgb(c: Color): (r: Color)
    ensures RgbNonNegative(r)
    ensures r.a == c.a
    ensures RgbNonNegative(c) ==> r == c
  {
    c.(r := Max(0.0, c.r), g := Max(0.0, c.g), b := Max(0.0, c.b))
  }

  /** The three normalised sliders clamped into [0, 1]. */
  function ClampSliders(v: SettingsValue): SettingsValue {
    v.(rayleighScaleFactor := Clamp01(v.rayleighScaleFactor),
       mieScaleFactor := Clamp01(v.mieScaleFactor),
       ozoneScaleFactor := Clamp01(v.ozoneScaleFactor))
  }

  /** Dimensions: a planet of at least 0.1 units and a non-negative shell. */
  function ClampDimensions(v: SettingsValue): SettingsValue {
    v.(planetRadius := Max(0.1, v.planetRadius),
       atmosphereHeight := Max(0.0, v.atmosphereHeight))
  }

  /** Component profiles: normalised scale heights in [0.01, 0.99], ozone centre in [0, 1], width at least 0.01. */
  function ClampComponentProfiles(v: SettingsValue): SettingsValue {
    v.(rayleighScaleHeightNorm := Clamp(v.rayleighScaleHeightNorm, 0.01, 0.99),
       mieScaleHeightNorm := Clamp(v.mieScaleHeightNorm, 0.01, 0.99),
       ozoneCenterAltitudeNorm := Clamp01(v.ozoneCenterAltitudeNorm),
       ozoneWidth := Max(0.01, v.ozoneWidth))
  }

  /** Density and edge: a non-negative density multiplier and an edge smoothness in [0, 1]. */
  function ClampDensity(v: SettingsValue): SettingsValue {
    v.(densityScale := Max(0.0, v.densityScale),
       densityEdgeSmoothness := Clamp01(v.densityEdgeSmoothness))
  }

  /** Optical coefficients: Mie anisotropy in [-0.99, 0.99] and non-negative colour channels. */
  function ClampOptical(v: SettingsValue): SettingsValue {
    v.(mieG := Clamp(v.mieG, -0.99, 0.99),
       rayleighScatteringCoeff := ClampRgb(v.rayleighScatteringCoeff),
       mieScatteringCoeff := ClampRgb(v.mieScatteringCoeff),
       ozoneAbsorptionCoeff := ClampRgb(v.ozoneAbsorptionCoeff))
  }

  /** Lighting: non-negative sun and ambient intensities. */
  function ClampLighting(v: SettingsValue): SettingsValue {
    v.(sunIntensity := Max(0.0, v.sunIntensity),
       ambientIntensity := Max(0.0, v.ambientIntensity))
  }

  /** What the profile's `OnValidate` leaves in a settings object whose fields were `v`. */
  function Validated(v: SettingsValue): (r: SettingsValue)
    ensures InRange(r) && InternalFactorsSynced(r)
  {
    InternalScaleFactorOfClamped(v.rayleighScaleFactor);
    InternalScaleFactorOfClamped(v.mieScaleFactor);
    InternalScaleFactorOfClamped(v.ozoneScaleFactor);
    ClampLighting(ClampOptical(ClampDensity(ClampComponentProfiles(ClampDimensions(
      WithInternalFactors(ClampSliders(v)))))))
  }

  /**
   * The tint and the alpha of the three coefficient colours are never touched,
   * and internal factors that were already in line with their sliders stay.
   */
  lemma ValidatedKeepsUntouched(v: SettingsValue)
    ensures Validated(v).atmosphereTint == v.atmosphereTint
    ensures Validated(v).rayleighScatteringCoeff.a == v.rayleighScatteringCoeff.a
    ensures Validated(v).mieScatteringCoeff.a == v.mieScatteringCoeff.a
    ensures Validated(v).ozoneAbsorptionCoeff.a == v.ozoneAbsorptionCoeff.a
    ensures InternalFactorsSynced(v) ==>
              && Validated(v).rayleighScaleFactorInternal == v.rayleighScaleFactorInternal
              && Validated(v).mieScaleFactorInternal == v.mieScaleFactorInternal
              && Validated(v).ozoneScaleFactorInternal == v.ozoneScaleFactorInternal
  {
    InternalScaleFactorOfClamped(v.rayleighScaleFactor);
    InternalScaleFactorOfClamped(v.mieScaleFactor);
    InternalScaleFactorOfClamped(v.ozoneScaleFactor);
  }

  /** Settings already in range, with synced internal factors, are left exactly as they were. */
  lemma ValidatedKeepsInRange(v: SettingsValue)
    requires InRange(v) && InternalFactorsSynced(v)
    ensures Validated(v) == v
  {
  }

  /** `OnValidate` is idempotent. */
  lemma ValidatedIdempotent(v: SettingsValue)
    ensures Validated(Validated(v)) == Validated(v)
  {
    ValidatedKeepsInRange(Validated(v));
  }

  /**
   * In-range fields keep their value even when other fields are out of range;
   * only the three internal factors may move then (when they were stale).
   * This lemma covers the sliders, the dimensions and the Mie anisotropy;
   * `ValidatedKeepsProfileFields` and `ValidatedKeepsDensityAndLighting` cover the rest.
   */
  lemma ValidatedFieldwise(v: SettingsValue)
    ensures v.planetRadius >= 0.1 ==> Validated(v).planetRadius == v.planetRadius
    ensures v.planetRadius < 0.1 ==> Validated(v).planetRadius == 0.1
    ensures v.atmosphereHeight >= 0.0 ==> Validated(v).atmosphereHeight == v.atmosphereHeight
    ensures v.atmosphereHeight < 0.0 ==> Validated(v).atmosphereHeight == 0.0
    ensures 0.0 <= v.rayleighScaleFactor <= 1.0 ==> Validated(v).rayleighScaleFactor == v.rayleighScaleFactor
    ensures 0.0 <= v.mieScaleFactor <= 1.0 ==> Validated(v).mieScaleFactor == v.mieScaleFactor
    ensures 0.0 <= v.ozoneScaleFactor <= 1.0 ==> Validated(v).ozoneScaleFactor == v.ozoneScaleFactor
    ensures -0.99 <= v.mieG <= 0.99 ==> Validated(v).mieG == v.mieG
    ensures v.mieG > 0.99 ==> Validated(v).mieG == 0.99
  {
  }

  /** The component-profile fields: in-range values are kept, and a too-narrow ozone layer is widened to 0.01. */
  lemma ValidatedKeepsProfileFields(v: SettingsValue)
    ensures 0.01 <= v.rayleighScaleHeightNorm <= 0.99 ==> Validated(v).rayleighScaleHeightNorm == v.rayleighScaleHeightNorm
    ensures 0.01 <= v.mieScaleHeightNorm <= 0.99 ==> Validated(v).mieScaleHeightNorm == v.mieScaleHeightNorm
    ensures 0.0 <= v.ozoneCenterAltitudeNorm <= 1.0 ==> Validated(v).ozoneCenterAltitudeNorm == v.ozoneCenterAltitudeNorm
    ensures v.ozoneWidth >= 0.01 ==> Validated(v).ozoneWidth == v.ozoneWidth
    ensures v.ozoneWidth < 0.01 ==> Validated(v).ozoneWidth == 0.01
  {
    var s2 := ClampComponentProfiles(ClampDimensions(WithInternalFactors(ClampSliders(v))));
    assert Validated(v) == ClampLighting(ClampOptical(ClampDensity(s2)));
    assert Validated(v).rayleighScaleHeightNorm == s2.rayleighScaleHeightNorm;
    assert Validated(v).mieScaleHeightNorm == s2.mieScaleHeightNorm;
    assert Validated(v).ozoneCenterAltitudeNorm == s2.ozoneCenterAltitudeNorm;
    assert Validated(v).ozoneWidth == s2.ozoneWidth;
  }

  /** Density, coefficient colours and lighting: in-range values are kept, negative ones become 0. */
  lemma ValidatedKeepsDensityAndLighting(v: SettingsValue)
    ensures v.densityScale >= 0.0 ==> Validated(v).densityScale == v.densityScale
    ensures v.densityScale < 0.0 ==> Validated(v).densityScale == 0.0
    ensures 0.0 <= v.densityEdgeSmoothness <= 1.0 ==> Validated(v).densityEdgeSmoothness == v.densityEdgeSmoothness
    ensures RgbNonNegative(v.rayleighScatteringCoeff) ==> Validated(v).rayleighScatteringCoeff == v.rayleighScatteringCoeff
    ensures RgbNonNegative(v.mieScatteringCoeff) ==> Validated(v).mieScatteringCoeff == v.mieScatteringCoeff
    ensures RgbNonNegative(v.ozoneAbsorptionCoeff) ==> Validated(v).ozoneAbsorptionCoeff == v.ozoneAbsorptionCoeff
    ensures v.sunIntensity >= 0.0 ==> Validated(v).sunIntensity == v.sunIntensity
    ensures v.ambientIntensity >= 0.0 ==> Validated(v).ambientIntensity == v.ambientIntensity
    ensures v.ambientIntensity < 0.0 ==> Validated(v).ambientIntensity == 0.0
  {
  }

  /** The settings object of a profile; its fields are updated in place by the profile and by planet instances. */
  class AtmosphereSettings {
    var planetRadius: real
    var atmosphereHeight: real
    var densityScale: real
    var densityEdgeSmoothness: real
    var rayleighScaleHeightNorm: real
    var mieScaleHeightNorm: real
    var ozoneCenterAltitudeNorm: real
    var ozoneWidth: real
    var rayleighScatteringCoeff: Color
    var rayleighScaleFactor: real
    var rayleighScaleFactorInternal: real
    var mieScatteringCoeff: Color
    var mieScaleFactor: real
    var mieScaleFactorInternal: real
    var ozoneAbsorptionCoeff: Color
    var ozoneScaleFactor: real
    var ozoneScaleFactorInternal: real
    var mieG: real
    var sunIntensity: real
    var ambientIntensity: real
    var atmosphereTint: Color

    /** The current field values as one snapshot. */
    function Value(): SettingsValue
      reads this
    {
      SettingsValue(planetRadius, atmosphereHeight, densityScale, densityEdgeSmoothness,
                    rayleighScaleHeightNorm, mieScaleHeightNorm, ozoneCenterAltitudeNorm, ozoneWidth,
                    rayleighScatteringCoeff, rayleighScaleFactor, rayleighScaleFactorInternal,
                    mieScatteringCoeff, mieScaleFactor, mieScaleFactorInternal,
                    ozoneAbsorptionCoeff, ozoneScaleFactor, ozoneScaleFactorInternal,
                    mieG, sunIntensity, ambientIntensity, atmosphereTint)
    }

    constructor ()
      ensures Value() == DefaultSettings
    {
      planetRadius, atmosphereHeight, densityScale, densityEdgeSmoothness := 1.0, 1.0, 15.0, 0.2;
      rayleighScaleHeightNorm, mieScaleHeightNorm := 0.084, 0.012;
      ozoneCenterAltitudeNorm, ozoneWidth := 0.25, 0.3;
      rayleighScatteringCoeff := Color(5.8, 13.5, 33.1, 1.0);
      rayleighScaleFactor, rayleighScaleFactorInternal := 0.1, 0.001;
      mieScatteringCoeff := Color(3.9, 3.9, 3.9, 1.0);
      mieScaleFactor, mieScaleFactorInternal := 0.1, 0.001;
      ozoneAbsorptionCoeff := Color(0.6, 1.9, 0.05, 1.0);
      ozoneScaleFactor, ozoneScaleFactorInternal := 0.1, 0.001;
      mieG, sunIntensity, ambientIntensity := 0.76, 20.0, 0.01;
      atmosphereTint := Color(1.0, 1.0, 1.0, 1.0);
    }

    method UpdateInternalScaleFactors()
      modifies this`rayleighScaleFactorInternal, this`mieScaleFactorInternal, this`ozoneScaleFactorInternal
      ensures rayleighScaleFactorInternal == InternalScaleFactor(rayleighScaleFactor)
      ensures mieScaleFactorInternal == InternalScaleFactor(mieScaleFactor)
      ensures ozoneScaleFactorInternal == InternalScaleFactor(ozoneScaleFactor)
      ensures Value() == WithInternalFactors(old(Value()))
    {
      rayleighScaleFactorInternal := Lerp(MIN_SCALE_FACTOR, MAX_SCALE_FACTOR, rayleighScaleFactor);
      mieScaleFactorInternal := Lerp(MIN_SCALE_FACTOR, MAX_SCALE_FACTOR, mieScaleFactor);
      ozoneScaleFactorInternal := Lerp(MIN_SCALE_FACTOR, MAX_SCALE_FACTOR, ozoneScaleFactor);
    }

    /** The clamping half of the profile's `OnValidate`, applied to this object in the source's order. */
    method Validate()
      modifies this
      ensures Value() == Validated(old(Value()))
    {
      ghost var v := Value();
      rayleighScaleFactor := Clamp01(rayleighScaleFactor);
      mieScaleFactor := Clamp01(mieScaleFactor);
      ozoneScaleFactor := Clamp01(ozoneScaleFactor);
      assert Value() == ClampSliders(v);
      UpdateInternalScaleFactors();
      ClampDimensionsInPlace();
      ClampComponentProfilesInPlace();
      ClampDensityInPlace();
      ClampOpticalInPlace();
      ClampLightingInPlace();
    }

    method ClampDimensionsInPlace()
      modifies this`planetRadius, this`atmosphereHeight
      ensures Value() == ClampDimensions(old(Value()))
    {
      planetRadius := Max(0.1, planetRadius);
      atmosphereHeight := Max(0.0, atmosphereHeight);
    }

    method ClampComponentProfilesInPlace()
      modifies this`rayleighScaleHeightNorm, this`mieScaleHeightNorm, this`ozoneCenterAltitudeNorm, this`ozoneWidth
      ensures Value() == ClampComponentProfiles(old(Value()))
    {
      rayleighScaleHeightNorm := Clamp(rayleighScaleHeightNorm, 0.01, 0.99);
      mieScaleHeightNorm := Clamp(mieScaleHeightNorm, 0.01, 0.99);
      ozoneCenterAltitudeNorm := Clamp01(ozoneCenterAltitudeNorm);
      ozoneWidth := Max(0.01, ozoneWidth);
    }

    method ClampDensityInPlace()
      modifies this`densityScale, this`densityEdgeSmoothness
      ensures Value() == ClampDensity(old(Value()))
    {
      densityScale := Max(0.0, densityScale);
      densityEdgeSmoothness := Clamp01(densityEdgeSmoothness);
    }

    method ClampOpticalInPlace()
      modifies this`mieG, this`rayleighScatteringCoeff, this`mieScatteringCoeff, this`ozoneAbsorptionCoeff
      ensures Value() == ClampOptical(old(Value()))
    {
      mieG := Clamp(mieG, -0.99, 0.99);
      rayleighScatteringCoeff := ClampRgb(rayleighScatteringCoeff);
      mieScatteringCoeff := ClampRgb(mieScatteringCoeff);
      ozoneAbsorptionCoeff := ClampRgb(ozoneAbsorptionCoeff);
    }

    method ClampLightingInPlace()
      modifies this`sunIntensity, this`ambientIntensity
      ensures Value() == ClampLighting(old(Value()))
    {
      sunIntensity := Max(0.0, sunIntensity);
      ambientIntensity := Max(0.0, ambientIntensity);
    }
  }

  /** A profile asset: a reference to its (possibly missing) settings object. */
  class AtmosphereProfile {
    var settings: AtmosphereSettings?

    constructor ()
      ensures settings != null && fresh(settings) && settings.Value() == DefaultSettings
    {
      settings := new AtmosphereSettings();
    }

    /** Replaces missing settings by defaults, then clamps every field into its range, in place. */
    method OnValidate()
      modifies this, settings
      ensures settings != null
      ensures old(settings) != null ==> settings == old(settings) && settings.Value() == Validated(old(settings.Value()))
      ensures old(settings) == null ==> fresh(settings) && settings.Value() == Validated(DefaultSettings)
    {
      if settings == null {
        settings := new AtmosphereSettings();
      }
      settings.Validate();
    }

    /** On load the internal factors are brought back in line with the sliders. */
    method OnEnable()
      modifies settings
      ensures settings == old(settings)
      ensures settings != null ==> settings.Value() == WithInternalFactors(old(settings.Value()))
      ensures settings != null ==> InternalFactorsSynced(settings.Value())
    {
      if settings != null {
        settings.UpdateInternalScaleFactors();
      }
    }
  }
}
