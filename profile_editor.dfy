/**
 * The profile inspector's preview graphs: density against altitude for the
 * Rayleigh, Mie and ozone components, and the resulting extinction per colour
 * channel, sampled at 101 evenly spaced altitudes and mapped into a GUI
 * rectangle.
 */
module ProfileEditor {
  import opened Engine
  import opened Profile

  const GRAPH_SAMPLES: nat := 100
  const EPSILON: real := 0.000001

  /** Exponential falloff with scale height `scaleHeight`, blended towards zero at the top of the shell by `edgeSmoothness`. */
  function GetDensity(altitude: real, normAltitude: real, scaleHeight: real, edgeSmoothness: real): (r: real)
    ensures r >= 0.0
  {
    var h := Max(EPSILON, scaleHeight);
    var expDensity := Exp(-altitude / h);
    var fade := Clamp01(1.0 - normAltitude);
    MulNonNegative(expDensity, fade);
    var smoothedDensity := expDensity * fade;
    Lerp(expDensity, smoothedDensity, edgeSmoothness)
  }

  /**
   * The smoothed density never exceeds the raw exponential; it equals it without
   * smoothing or at the bottom of the shell, and at the top it is the raw value
   * scaled by one minus the (clamped) smoothness.
   */
  lemma GetDensitySpec(altitude: real, normAltitude: real, scaleHeight: real, edgeSmoothness: real)
    ensures GetDensity(altitude, normAltitude, scaleHeight, edgeSmoothness) <= Exp(-altitude / Max(EPSILON, scaleHeight))
    ensures edgeSmoothness <= 0.0 || normAltitude <= 0.0 ==>
              GetDensity(altitude, normAltitude, scaleHeight, edgeSmoothness) == Exp(-altitude / Max(EPSILON, scaleHeight))
    ensures normAltitude >= 1.0 ==>
              GetDensity(altitude, normAltitude, scaleHeight, edgeSmoothness)
              == (1.0 - Clamp01(edgeSmoothness)) * Exp(-altitude / Max(EPSILON, scaleHeight))
  {
    var e := Exp(-altitude / Max(EPSILON, scaleHeight));
    var fade := Clamp01(1.0 - normAltitude);
    MulNonNegative(e, fade);
    MulNonNegative(e, 1.0 - fade);
  }

  /** At the ground with no fade the density is exactly 1; with full smoothing it vanishes at the top. */
  lemma GetDensityEnds(scaleHeight: real, edgeSmoothness: real, altitude: real)
    ensures GetDensity(0.0, 0.0, scaleHeight, edgeSmoothness) == 1.0
    ensures edgeSmoothness >= 1.0 ==> GetDensity(altitude, 1.0, scaleHeight, edgeSmoothness) == 0.0
  {
    GetDensitySpec(0.0, 0.0, scaleHeight, edgeSmoothness);
    GetDensitySpec(altitude, 1.0, scaleHeight, edgeSmoothness);
    assert -0.0 / Max(EPSILON, scaleHeight) == 0.0;
  }

  /** A Gaussian bump of relative width `ozoneWidth` centred at `ozoneCenterNormAlt`. */
  function GetOzoneDensity(normAltitude: real, ozoneCenterNormAlt: real, ozoneWidth: real): (r: real)
    ensures 0.0 < r <= 1.0
    ensures normAltitude == ozoneCenterNormAlt ==> r == 1.0
  {
    var x := (normAltitude - ozoneCenterNormAlt) / Max(EPSILON, ozoneWidth * 0.5);
    MulNonNegative(x, x);
    MulNonNegative(-x, -x);
    Exp(-x * x)
  }

  /** The ozone profile is symmetric about its centre. */
  lemma GetOzoneDensitySymmetric(d: real, ozoneCenterNormAlt: real, ozoneWidth: real)
    ensures GetOzoneDensity(ozoneCenterNormAlt + d, ozoneCenterNormAlt, ozoneWidth)
            == GetOzoneDensity(ozoneCenterNormAlt - d, ozoneCenterNormAlt, ozoneWidth)
  {
    var m := Max(EPSILON, ozoneWidth * 0.5);
    var x := ((ozoneCenterNormAlt + d) - ozoneCenterNormAlt) / m;
    var y := ((ozoneCenterNormAlt - d) - ozoneCenterNormAlt) / m;
    assert y == -x;
  }

  /** The normalised altitude of sample `i`, that is `i / GRAPH_SAMPLES`. */
  function NormAltitude(i: nat): real {
    i as real / 100.0
  }

  /** Samples cover [0, 1] in strictly ascending order. */
  lemma NormAltitudeAscending(i: nat, j: nat)
    requires i < j <= GRAPH_SAMPLES
    ensures 0.0 <= NormAltitude(i) < NormAltitude(j) <= 1.0
  {
  }

  /** The extinction coefficient of one colour channel from the three scattering strengths at one altitude. */
  function ChannelExtinction(betaR: real, betaM: real, betaO: real, dR: real, dM: real, dO: real, densityScale: real): real {
    (betaR * dR + betaM * dM + betaO * dO) * densityScale
  }

  lemma ChannelExtinctionMonotone(betaR: real, betaM: real, betaO: real, dR: real, dM: real, dO: real, s1: real, s2: real)
    requires betaR >= 0.0 && betaM >= 0.0 && betaO >= 0.0 && dR >= 0.0 && dM >= 0.0 && dO >= 0.0
    requires s1 <= s2
    ensures ChannelExtinction(betaR, betaM, betaO, dR, dM, dO, s1) <= ChannelExtinction(betaR, betaM, betaO, dR, dM, dO, s2)
  {
    MulNonNegative(betaR, dR);
    MulNonNegative(betaM, dM);
    MulNonNegative(betaO, dO);
    MulNonNegative(betaR * dR + betaM * dM + betaO * dO, s2 - s1);
  }

  /** The values the sampling loop computes once from the settings before it starts. */
  datatype GraphParams = GraphParams(
    atmoHeight: real, rayleighH: real, mieH: real,
    edgeSmoothness: real, ozoneCenter: real, ozoneWidth: real,
    betaR: Color, betaM: Color, betaO: Color, densityScale: real)

  /** An absolute height from a fraction of the shell thickness, floored at `EPSILON`. */
  function ScaleHeightOf(heightNorm: real, atmoHeight: real): (r: real)
    ensures r >= EPSILON
  {
    Max(EPSILON, heightNorm * atmoHeight)
  }

  /** The shell thickness and absolute scale heights floored at `EPSILON`; each β is a coefficient times its internal factor. */
  function GraphParamsOf(v: SettingsValue): (g: GraphParams)
    ensures g.atmoHeight >= EPSILON && g.rayleighH >= EPSILON && g.mieH >= EPSILON
  {
    var atmoHeight := Max(EPSILON, v.atmosphereHeight);
    GraphParams(atmoHeight,
                ScaleHeightOf(v.rayleighScaleHeightNorm, atmoHeight),
                ScaleHeightOf(v.mieScaleHeightNorm, atmoHeight),
                v.densityEdgeSmoothness, v.ozoneCenterAltitudeNorm, v.ozoneWidth,
                ScaleColor(v.rayleighScatteringCoeff, v.rayleighScaleFactorInternal),
                ScaleColor(v.mieScatteringCoeff, v.mieScaleFactorInternal),
                ScaleColor(v.ozoneAbsorptionCoeff, v.ozoneScaleFactorInternal),
                v.densityScale)
  }

  /** The altitude of a sample: its normalised altitude times the shell thickness. */
  function AltitudeOf(normAltitude: real, atmoHeight: real): real {
    normAltitude * atmoHeight
  }

  /** The component densities at sample `i`. */
  function RayleighDensityAt(g: GraphParams, i: nat): real {
    GetDensity(AltitudeOf(NormAltitude(i), g.atmoHeight), NormAltitude(i), g.rayleighH, g.edgeSmoothness)
  }
  function MieDensityAt(g: GraphParams, i: nat): real {
    GetDensity(AltitudeOf(NormAltitude(i), g.atmoHeight), NormAltitude(i), g.mieH, g.edgeSmoothness)
  }
  function OzoneDensityAt(g: GraphParams, i: nat): real {
    GetOzoneDensity(NormAltitude(i), g.ozoneCenter, g.ozoneWidth)
  }

  /** Colour channel 0, 1 or 2 (red, green, blue). */
  function Channel(c: Color, channel: int): real {
    if channel == 0 then c.r else if channel == 1 then c.g else c.b
  }

  /** The extinction of one channel at sample `i`. */
  function ExtinctionAt(g: GraphParams, i: nat, channel: int): real {
    ChannelExtinction(Channel(g.betaR, channel), Channel(g.betaM, channel), Channel(g.betaO, channel),
                      RayleighDensityAt(g, i), MieDensityAt(g, i), OzoneDensityAt(g, i), g.densityScale)
  }

  /** The six curves of the preview. */
  datatype Curve = RayleighDensity | MieDensity | OzoneDensity | RedExtinction | GreenExtinction | BlueExtinction

  /** The y value curve `c` plots at sample `i`; densities are divided by the maximum density 1 and clamped. */
  function CurveValue(g: GraphParams, c: Curve, i: nat): real {
    match c
    case RayleighDensity => Clamp01(RayleighDensityAt(g, i) / 1.0)
    case MieDensity => Clamp01(MieDensityAt(g, i) / 1.0)
    case OzoneDensity => Clamp01(OzoneDensityAt(g, i))
    case RedExtinction => ExtinctionAt(g, i, 0)
    case GreenExtinction => ExtinctionAt(g, i, 1)
    case BlueExtinction => ExtinctionAt(g, i, 2)
  }

  /** The first `n` points of curve `c`. */
  function CurvePoints(g: GraphParams, c: Curve, n: nat): (r: seq<Vector2>)
    ensures |r| == n
  {
    if n == 0 then [] else CurvePoints(g, c, n - 1) + [Vector2(NormAltitude(n - 1), CurveValue(g, c, n - 1))]
  }

  /** Point `k` of a curve sits at normalised altitude `k / 100` and plots that sample's value. */
  lemma {:induction false} CurvePointsSpec(g: GraphParams, c: Curve, n: nat)
    ensures forall k :: 0 <= k < n ==> CurvePoints(g, c, n)[k] == Vector2(NormAltitude(k), CurveValue(g, c, k))
  {
    if n > 0 {
      CurvePointsSpec(g, c, n - 1);
    }
  }

  /** Density curves stay within [0, 1]. */
  lemma DensityCurvesInUnitRange(g: GraphParams, c: Curve, i: nat)
    requires c == RayleighDensity || c == MieDensity || c == OzoneDensity
    ensures 0.0 <= CurveValue(g, c, i) <= 1.0
  {
  }

  lemma ScaledChannelNonNegative(c: Color, f: real, channel: int)
    requires RgbNonNegative(c) && f >= 0.0
    ensures Channel(ScaleColor(c, f), channel) >= 0.0
  {
    MulNonNegative(c.r, f);
    MulNonNegative(c.g, f);
    MulNonNegative(c.b, f);
  }

  /**
   * With non-negative coefficients and internal factors, a higher density
   * multiplier never lowers the extinction of any channel at any sample.
   */
  lemma ExtinctionMonotoneInDensityScale(v: SettingsValue, s: real, i: nat, channel: int)
    requires RgbNonNegative(v.rayleighScatteringCoeff) && RgbNonNegative(v.mieScatteringCoeff)
    requires RgbNonNegative(v.ozoneAbsorptionCoeff)
    requires v.rayleighScaleFactorInternal >= 0.0 && v.mieScaleFactorInternal >= 0.0 && v.ozoneScaleFactorInternal >= 0.0
    requires v.densityScale <= s
    ensures ExtinctionAt(GraphParamsOf(v), i, channel) <= ExtinctionAt(GraphParamsOf(v.(densityScale := s)), i, channel)
  {
    var g := GraphParamsOf(v);
    assert GraphParamsOf(v.(densityScale := s)) == g.(densityScale := s);
    ScaledChannelNonNegative(v.rayleighScatteringCoeff, v.rayleighScaleFactorInternal, channel);
    ScaledChannelNonNegative(v.mieScatteringCoeff, v.mieScaleFactorInternal, channel);
    ScaledChannelNonNegative(v.ozoneAbsorptionCoeff, v.ozoneScaleFactorInternal, channel);
    ChannelExtinctionMonotone(Channel(g.betaR, channel), Channel(g.betaM, channel), Channel(g.betaO, channel),
                              RayleighDensityAt(g, i), MieDensityAt(g, i), OzoneDensityAt(g, i), v.densityScale, s);
  }

  /** The running maximum over the first `n` samples' channel extinctions, starting from `EPSILON`. */
  function MaxExtinction(g: GraphParams, n: nat): real {
    if n == 0 then EPSILON
    else Max(Max(Max(MaxExtinction(g, n - 1), ExtinctionAt(g, n - 1, 0)), ExtinctionAt(g, n - 1, 1)), ExtinctionAt(g, n - 1, 2))
  }

  /** The running maximum is at least `EPSILON`, bounds every sampled channel, and is one of them or `EPSILON`. */
  lemma {:induction false} MaxExtinctionSpec(g: GraphParams, n: nat)
    ensures MaxExtinction(g, n) >= EPSILON
    ensures forall k, ch :: 0 <= k < n && 0 <= ch < 3 ==> ExtinctionAt(g, k, ch) <= MaxExtinction(g, n)
    ensures MaxExtinction(g, n) == EPSILON
            || exists k, ch :: 0 <= k < n && 0 <= ch < 3 && MaxExtinction(g, n) == ExtinctionAt(g, k, ch)
  {
    if n > 0 {
      MaxExtinctionSpec(g, n - 1);
      var m := MaxExtinction(g, n);
      if m != EPSILON && m != MaxExtinction(g, n - 1) {
        assert m == ExtinctionAt(g, n - 1, 0) || m == ExtinctionAt(g, n - 1, 1) || m == ExtinctionAt(g, n - 1, 2);
      }
    }
  }

  /** `MapToGraph`: a normalised point in the rectangle, with y growing upwards (0 at the bottom edge). */
  function MapToGraph(normX: real, normY: real, graphRect: Rect): (r: Vector2)
    ensures normX <= 0.0 ==> r.x == graphRect.XMin()
    ensures normX >= 1.0 ==> r.x == graphRect.XMax()
    ensures normY <= 0.0 ==> r.y == graphRect.YMax()
    ensures normY >= 1.0 ==> r.y == graphRect.YMin()
    ensures graphRect.width >= 0.0 ==> graphRect.XMin() <= r.x <= graphRect.XMax()
    ensures graphRect.height >= 0.0 ==> graphRect.YMin() <= r.y <= graphRect.YMax()
  {
    Vector2(Lerp(graphRect.XMin(), graphRect.XMax(), normX), Lerp(graphRect.YMax(), graphRect.YMin(), normY))
  }

  /** The y value a raw point is plotted at: divided by the (floored) maximum and clamped. */
  function NormalisedY(y: real, maxValue: real): (r: real)
    ensures 0.0 <= r <= 1.0
  {
    Clamp01(y / Max(maxValue, EPSILON))
  }

  /** Maps every raw point into the rectangle, keeping count and order. */
  method MapPointsToGraph(rawPoints: seq<Vector2>, graphRect: Rect, maxValue: real) returns (mappedPoints: seq<Vector2>)
    ensures |mappedPoints| == |rawPoints|
    ensures forall i :: 0 <= i < |rawPoints| ==>
              mappedPoints[i] == MapToGraph(rawPoints[i].x, NormalisedY(rawPoints[i].y, maxValue), graphRect)
    ensures graphRect.height >= 0.0 ==>
              forall i :: 0 <= i < |mappedPoints| ==> graphRect.YMin() <= mappedPoints[i].y <= graphRect.YMax()
  {
    mappedPoints := [];
    var maxV := Max(maxValue, EPSILON);
    for i := 0 to |rawPoints|
      invariant |mappedPoints| == i
      invariant forall k :: 0 <= k < i ==>
                  mappedPoints[k] == MapToGraph(rawPoints[k].x, NormalisedY(rawPoints[k].y, maxValue), graphRect)
    {
      var point := rawPoints[i];
      var normX := point.x;
      var normY := Clamp01(point.y / maxV);
      mappedPoints := mappedPoints + [MapToGraph(normX, normY, graphRect)];
    }
  }

  /** The points as 3D vertices in the z = 0 plane; a missing list gives an empty array. */
  method ConvertToVector3Array(points2D: Option<seq<Vector2>>) returns (points3D: array<Vector3>)
    ensures fresh(points3D)
    ensures points2D.None? ==> points3D.Length == 0
    ensures points2D.Some? ==> points3D.Length == |points2D.value|
    ensures points2D.Some? ==>
              forall i :: 0 <= i < points3D.Length ==>
                points3D[i] == Vector3(points2D.value[i].x, points2D.value[i].y, 0.0)
  {
    if points2D.None? {
      return new Vector3[0];
    }
    var points := points2D.value;
    points3D := new Vector3[|points|];
    for i := 0 to |points|
      invariant forall k :: 0 <= k < i ==> points3D[k] == Vector3(points[k].x, points[k].y, 0.0)
    {
      points3D[i] := Vector3(points[i].x, points[i].y, 0.0);
    }
  }

  /**
   * One pass of the sampling loop: the point each of the six curves gets at
   * sample `i`, y being the clamped density or the channel extinction.
   */
  method SamplePoints(g: GraphParams, i: nat)
    returns (rayleigh: Vector2, mie: Vector2, ozone: Vector2, red: Vector2, green: Vector2, blue: Vector2)
    ensures rayleigh == Vector2(NormAltitude(i), CurveValue(g, RayleighDensity, i))
    ensures mie == Vector2(NormAltitude(i), CurveValue(g, MieDensity, i))
    ensures ozone == Vector2(NormAltitude(i), CurveValue(g, OzoneDensity, i))
    ensures red == Vector2(NormAltitude(i), CurveValue(g, RedExtinction, i))
    ensures green == Vector2(NormAltitude(i), CurveValue(g, GreenExtinction, i))
    ensures blue == Vector2(NormAltitude(i), CurveValue(g, BlueExtinction, i))
  {
    var normAltitude := NormAltitude(i);
    var altitude := AltitudeOf(normAltitude, g.atmoHeight);

    var densityR := GetDensity(altitude, normAltitude, g.rayleighH, g.edgeSmoothness);
    var densityM := GetDensity(altitude, normAltitude, g.mieH, g.edgeSmoothness);
    var densityOzone := GetOzoneDensity(normAltitude, g.ozoneCenter, g.ozoneWidth);

    // the maximum density the curves are divided by is 1
    rayleigh := Vector2(normAltitude, Clamp01(densityR / 1.0));
    mie := Vector2(normAltitude, Clamp01(densityM / 1.0));
    ozone := Vector2(normAltitude, Clamp01(densityOzone));

    var rExt := ChannelExtinction(g.betaR.r, g.betaM.r, g.betaO.r, densityR, densityM, densityOzone, g.densityScale);
    var gExt := ChannelExtinction(g.betaR.g, g.betaM.g, g.betaO.g, densityR, densityM, densityOzone, g.densityScale);
    var bExt := ChannelExtinction(g.betaR.b, g.betaM.b, g.betaO.b, densityR, densityM, densityOzone, g.densityScale);

    red := Vector2(normAltitude, rExt);
    green := Vector2(normAltitude, gExt);
    blue := Vector2(normAltitude, bExt);
  }

  /** What the inspector draws: the six sampled curves and the extinction maximum. */
  datatype GraphData = GraphData(
    rayleighDensity: seq<Vector2>, mieDensity: seq<Vector2>, ozoneDensity: seq<Vector2>,
    finalR: seq<Vector2>, finalG: seq<Vector2>, finalB: seq<Vector2>, maxRgbExtinction: real)

  /** The graph data sampled under `g` at the 101 normalised altitudes. */
  ghost function SampledGraph(g: GraphParams): GraphData {
    GraphData(CurvePoints(g, RayleighDensity, GRAPH_SAMPLES + 1), CurvePoints(g, MieDensity, GRAPH_SAMPLES + 1),
              CurvePoints(g, OzoneDensity, GRAPH_SAMPLES + 1), CurvePoints(g, RedExtinction, GRAPH_SAMPLES + 1),
              CurvePoints(g, GreenExtinction, GRAPH_SAMPLES + 1), CurvePoints(g, BlueExtinction, GRAPH_SAMPLES + 1),
              MaxExtinction(g, GRAPH_SAMPLES + 1))
  }

  /**
   * Each curve has `GRAPH_SAMPLES + 1` points at the ascending normalised
   * altitudes `k / 100`; the density curves stay in [0, 1], the extinction
   * curves plot each channel's extinction, and the maximum is at least
   * `EPSILON` and at least every plotted extinction.
   */
  lemma SampledGraphSpec(g: GraphParams)
    ensures var d := SampledGraph(g);
      && |d.rayleighDensity| == |d.mieDensity| == |d.ozoneDensity| == GRAPH_SAMPLES + 1
      && |d.finalR| == |d.finalG| == |d.finalB| == GRAPH_SAMPLES + 1
      && (forall k :: 0 <= k <= GRAPH_SAMPLES ==>
            && d.rayleighDensity[k].x == NormAltitude(k) && 0.0 <= d.rayleighDensity[k].y <= 1.0
            && d.mieDensity[k].x == NormAltitude(k) && 0.0 <= d.mieDensity[k].y <= 1.0
            && d.ozoneDensity[k].x == NormAltitude(k) && 0.0 <= d.ozoneDensity[k].y <= 1.0)
      && (forall k :: 0 <= k <= GRAPH_SAMPLES ==>
            && d.finalR[k] == Vector2(NormAltitude(k), ExtinctionAt(g, k, 0))
            && d.finalG[k] == Vector2(NormAltitude(k), ExtinctionAt(g, k, 1))
            && d.finalB[k] == Vector2(NormAltitude(k), ExtinctionAt(g, k, 2)))
      && d.maxRgbExtinction >= EPSILON
      && (forall k, ch :: 0 <= k <= GRAPH_SAMPLES && 0 <= ch < 3 ==> ExtinctionAt(g, k, ch) <= d.maxRgbExtinction)
  {
    var n := GRAPH_SAMPLES + 1;
    CurvePointsSpec(g, RayleighDensity, n);
    CurvePointsSpec(g, MieDensity, n);
    CurvePointsSpec(g, OzoneDensity, n);
    CurvePointsSpec(g, RedExtinction, n);
    CurvePointsSpec(g, GreenExtinction, n);
    CurvePointsSpec(g, BlueExtinction, n);
    forall k | 0 <= k <= GRAPH_SAMPLES
      ensures 0.0 <= CurveValue(g, RayleighDensity, k) <= 1.0
      ensures 0.0 <= CurveValue(g, MieDensity, k) <= 1.0
      ensures 0.0 <= CurveValue(g, OzoneDensity, k) <= 1.0
    {
      DensityCurvesInUnitRange(g, RayleighDensity, k);
      DensityCurvesInUnitRange(g, MieDensity, k);
      DensityCurvesInUnitRange(g, OzoneDensity, k);
    }
    MaxExtinctionSpec(g, n);
  }

  /**
   * The sampling loop: 101 samples of each curve, in order of altitude, and the
   * largest channel extinction seen, floored at `EPSILON` (see `MaxExtinctionSpec`).
   */
  method SampleCurves(g: GraphParams) returns (data: GraphData)
    ensures data == SampledGraph(g)
  {
    var maxRgbExtinction := EPSILON;
    var rayleigh, mie, ozone := [], [], [];
    var red, green, blue := [], [], [];

    for i := 0 to GRAPH_SAMPLES + 1
      invariant rayleigh == CurvePoints(g, RayleighDensity, i)
      invariant mie == CurvePoints(g, MieDensity, i)
      invariant ozone == CurvePoints(g, OzoneDensity, i)
      invariant red == CurvePoints(g, RedExtinction, i)
      invariant green == CurvePoints(g, GreenExtinction, i)
      invariant blue == CurvePoints(g, BlueExtinction, i)
      invariant maxRgbExtinction == MaxExtinction(g, i)
    {
      var pR, pM, pO, pRed, pGreen, pBlue := SamplePoints(g, i);
      rayleigh := rayleigh + [pR];
      mie := mie + [pM];
      ozone := ozone + [pO];
      red := red + [pRed];
      green := green + [pGreen];
      blue := blue + [pBlue];
      maxRgbExtinction := Max(Max(Max(maxRgbExtinction, pRed.y), pGreen.y), pBlue.y);
    }

    MaxExtinctionSpec(g, GRAPH_SAMPLES + 1);
    maxRgbExtinction := Max(maxRgbExtinction, EPSILON);
    data := GraphData(rayleigh, mie, ozone, red, green, blue, maxRgbExtinction);
  }

  /** The inspector of a profile asset, holding the sampled curves it draws. */
  class AtmosphereProfileEditor {
    var profile: AtmosphereProfile?
    var settings: AtmosphereSettings?
    var rayleighDensityPoints: seq<Vector2>
    var mieDensityPoints: seq<Vector2>
    var ozoneDensityPoints: seq<Vector2>
    var finalRPoints: seq<Vector2>
    var finalGPoints: seq<Vector2>
    var finalBPoints: seq<Vector2>
    var maxRgbExtinction: real

    constructor ()
      ensures profile == null && settings == null
      ensures rayleighDensityPoints == mieDensityPoints == ozoneDensityPoints == []
      ensures finalRPoints == finalGPoints == finalBPoints == []
      ensures maxRgbExtinction == EPSILON
    {
      profile, settings := null, null;
      rayleighDensityPoints, mieDensityPoints, ozoneDensityPoints := [], [], [];
      finalRPoints, finalGPoints, finalBPoints := [], [], [];
      maxRgbExtinction := EPSILON;
    }

    /**
     * Binds the inspector to `target`. With usable settings it first brings their
     * internal scale factors in line with the sliders, then samples the curves.
     */
    method OnEnable(target: AtmosphereProfile?)
      modifies this, if target != null && target.settings != null then {target.settings} else {}
      ensures profile == target
      ensures target != null && target.settings != null ==>
                && settings == target.settings
                && settings.Value() == WithInternalFactors(old(target.settings.Value()))
                && InternalFactorsSynced(settings.Value())
                && Plotted(GraphParamsOf(settings.Value()))
      ensures target == null || target.settings == null ==> settings == old(settings) && Data() == old(Data())
    {
      profile := target;
      if profile != null && profile.settings != null {
        var s := profile.settings;
        s.UpdateInternalScaleFactors();
        settings := s;
        RecalculateGraphData();
      }
    }

    /**
     * One inspector pass. `settingsChanged` is what the GUI change check around the
     * default inspector reports, and `repaint` says whether the current event is a repaint.
     * Without a bound profile or settings nothing changes. Otherwise missing profile
     * settings are replaced by defaults, the inspector re-reads the profile's settings,
     * and on a change or a repaint it resamples the curves.
     */
    method OnInspectorGUI(settingsChanged: bool, repaint: bool)
      modifies this`settings, if profile != null then {profile} else {}
      modifies this`rayleighDensityPoints, this`mieDensityPoints, this`ozoneDensityPoints
      modifies this`finalRPoints, this`finalGPoints, this`finalBPoints, this`maxRgbExtinction
      ensures old(profile) == null || old(settings) == null ==> unchanged(this) && (profile != null ==> unchanged(profile))
      ensures old(profile) != null && old(settings) != null ==>
                && profile.settings != null
                && settings == profile.settings
                && (old(profile.settings) != null ==> profile.settings == old(profile.settings))
                && (old(profile.settings) == null ==> fresh(profile.settings) && profile.settings.Value() == DefaultSettings)
                && (settingsChanged || repaint ==> Plotted(GraphParamsOf(settings.Value())))
                && (!settingsChanged && !repaint ==> Data() == old(Data()))
    {
      if profile == null || settings == null {
        return;
      }
      if profile.settings == null {
        profile.settings := new AtmosphereSettings();
      }
      settings := profile.settings;
      if settingsChanged || repaint {
        RecalculateGraphData();
      }
    }

    /** The six curves and the extinction maximum the inspector currently holds. */
    function Data(): GraphData
      reads this
    {
      GraphData(rayleighDensityPoints, mieDensityPoints, ozoneDensityPoints,
                finalRPoints, finalGPoints, finalBPoints, maxRgbExtinction)
    }

    /** The six curves and the extinction maximum are those sampled under `g`. */
    ghost predicate Plotted(g: GraphParams)
      reads this
    {
      Data() == SampledGraph(g)
    }

    /** Resamples all six curves from the current settings; does nothing without settings. */
    method RecalculateGraphData()
      modifies this`rayleighDensityPoints, this`mieDensityPoints, this`ozoneDensityPoints
      modifies this`finalRPoints, this`finalGPoints, this`finalBPoints, this`maxRgbExtinction
      ensures old(settings) == null ==> unchanged(this)
      ensures settings != null ==> Plotted(GraphParamsOf(old(settings.Value())))
    {
      if settings == null {
        return;
      }
      var s := settings;
      var g := GraphParamsOf(s.Value());
      var data := SampleCurves(g);
      rayleighDensityPoints := data.rayleighDensity;
      mieDensityPoints := data.mieDensity;
      ozoneDensityPoints := data.ozoneDensity;
      finalRPoints := data.finalR;
      finalGPoints := data.finalG;
      finalBPoints := data.finalB;
      maxRgbExtinction := data.maxRgbExtinction;
    }
  }
}
