# Atmospheric scattering for Unity: a Dafny model of the core

The repository is a Unity package. It draws planetary atmospheres as sphere
meshes through a URP renderer feature. This project models its five core
scripts and proves properties about them:

- **`AtmosphereProfile`** (module `Profile`). The atmosphere's settings
  record, its default values, and `OnValidate`/`OnEnable`. These clamp every
  setting into the bounds `OnValidate` enforces (the predicate `InRange`).
  Three of these bounds are wider than the inspector slider's range:
  `densityScale` and `ambientIntensity` are only floored at 0, and
  `ozoneWidth` is only floored at 0.01. They also derive the
  three "internal" scattering factors: each slider value is interpolated
  between `MIN_SCALE_FACTOR` and `MAX_SCALE_FACTOR`.
- **`PlanetAtmosphere`** (module `Planet`). The per-planet component, with
  scaled radii derived from the transform's lossy scale. It also holds the
  static registry of active atmospheres and the rules for being added to or
  removed from it.
- **`AtmosphereFeature`** (module `Feature`). The renderer feature:
  - creating and disposing its mesh, material and passes;
  - deciding which passes to enqueue for a camera (sky always, internal haze
    only when the camera is inside some atmosphere);
  - recording a pass;
  - executing it: one sun-direction global, then one instanced draw per live
    atmosphere whose visual radius clears its planet surface.
- **`AtmosphereProfileEditor`** (module `ProfileEditor`). The profile
  inspector's graph data: density curves for Rayleigh, Mie and ozone, the
  per-channel extinction curves, their maximum, and the mapping of points
  into a GUI rectangle.
- **`AtmosphereEditor`** (module `Inspector`). The planet inspector:
  - checking whether the active URP renderer has the atmosphere feature,
    through a frame-stamped static cache;
  - the lifetime of the embedded profile editor.

Module `Engine` holds the engine value types (vectors, colours, `Rect`) and
the `Mathf` helpers the scripts call.

Objects whose fields the scripts update in place are Dafny classes:
`AtmosphereSettings`, `AtmosphereProfile`, `PlanetAtmosphere`, the registry,
`AtmosphereFeature`, both editors and the feature cache. Each state-changing
method gives its new state in terms of a pure function of the old state
(`Validated`, `ClampDimensions`, `Registered`, `RemoveFirst`, `ScaledRadii`,
`ExecuteCommands`, `EnqueuedPasses`, `SampledGraph`, `FeatureStatus`). The
behavioural properties are proved about those functions.

Floats are modelled as `real`. `Mathf.Lerp` and `Mathf.Clamp01` clamp the
interpolation parameter, as Unity's do. `Mathf.Exp` is a stand-in. The curve properties are stated through its contract,
and the solver may still unfold the body in a proof. The contract says it is positive, equals 1 at 0, is at most 1 for non-positive arguments, and
is monotone (`Engine.ExpMonotone`). Its values are not the exponential's.

The script's comment beside the default `rayleighScaleFactor` says that 0.1
maps to the default internal factor 0.001. `Profile.DefaultInternalFactorsStale`
shows that interpolation actually gives 0.00109, so the default record is not
in sync. Only `UpdateInternalScaleFactors` resynchronises the factors, and
its callers are all editor-side: `AtmosphereProfile.OnEnable` is compiled
only in the editor, `OnValidate` is an editor callback, and the profile
inspector's `OnEnable` is the third caller. The internal factors are not
serialized. So in a player build a profile keeps the initial 0.001 whatever
its sliders say. The model follows the editor, where the factors are kept in
sync.

## Model

| member | source | states |
|---|---|---|
| Engine.Clamp | Runtime/Scripts/AtmosphereProfile.cs:127-128 | `Mathf.Clamp`: the result lies in [lo, hi], equals the value inside the range, and equals the nearest bound outside it |
| Engine.Clamp01 | Runtime/Scripts/AtmosphereProfile.cs:115-117 | `Mathf.Clamp01`: the result is in [0, 1] and is the identity on [0, 1] |
| Engine.Lerp | Runtime/Scripts/AtmosphereProfile.cs:102-104 | `Mathf.Lerp` clamps t: it gives a for t ≤ 0 and b for t ≥ 1, and always lies between a and b |
| Engine.Exp | Editor/AtmosphereProfileEditor.cs:382-388 | the exponential's stand-in is positive, 1 at 0, and at most 1 for non-positive arguments |
| Engine.ExpMonotone | Editor/AtmosphereProfileEditor.cs:382-388 | the exponential's stand-in is non-decreasing |
| Profile.InternalScaleFactor | Runtime/Scripts/AtmosphereProfile.cs:102-104 | an internal factor always lies in [MIN_SCALE_FACTOR, MAX_SCALE_FACTOR] and hits each bound at the slider's ends |
| Profile.InternalScaleFactorMonotone | Runtime/Scripts/AtmosphereProfile.cs:102-104 | raising a slider never lowers its internal factor |
| Profile.InternalScaleFactorOfClamped | Runtime/Scripts/AtmosphereProfile.cs:115-120 | clamping a slider before deriving its factor changes nothing |
| Profile.WithInternalFactors | Runtime/Scripts/AtmosphereProfile.cs:99-105 | after recomputation the three internal factors agree with their sliders, and no other setting changes |
| Profile.DefaultInternalFactorsStale | Runtime/Scripts/AtmosphereProfile.cs:57-59 | the default record's internal Rayleigh factor (0.001) is not what its slider (0.1) maps to (0.00109) |
| Profile.ClampRgb | Runtime/Scripts/AtmosphereProfile.cs:138-140 | after clamping, red, green and blue are non-negative, alpha is kept, and a colour that was already non-negative is unchanged |
| Profile.Validated | Runtime/Scripts/AtmosphereProfile.cs:111-145 | validation leaves every field within the bounds `OnValidate` enforces (`InRange`) and the internal factors in sync |
| Profile.ValidatedKeepsUntouched | Runtime/Scripts/AtmosphereProfile.cs:137-140 | validation keeps the tint and the coefficients' alpha, and keeps internal factors that were already in sync |
| Profile.ValidatedKeepsInRange | Runtime/Scripts/AtmosphereProfile.cs:113-144 | a record already in range and in sync passes validation unchanged |
| Profile.ValidatedIdempotent | Runtime/Scripts/AtmosphereProfile.cs:113-144 | validating twice is the same as validating once |
| Profile.ValidatedFieldwise | Runtime/Scripts/AtmosphereProfile.cs:115-137 | the three sliders, the dimensions and mie G keep values already in range; planet radius is floored at 0.1, height at 0, mie G capped at 0.99 |
| Profile.ValidatedKeepsProfileFields | Runtime/Scripts/AtmosphereProfile.cs:127-130 | both scale heights, the ozone centre and the ozone width keep values already in range; a narrower ozone width becomes 0.01 |
| Profile.ValidatedKeepsDensityAndLighting | Runtime/Scripts/AtmosphereProfile.cs:133-144 | density scale, edge smoothness, the three coefficient colours and both intensities keep values already in range; negative density scale and ambient intensity become 0 |
| Profile.ClampSliders | Runtime/Scripts/AtmosphereProfile.cs:115-117 | the first stage of validation; its effect is stated by `Profile.ValidatedFieldwise` |
| Profile.ClampDimensions | Runtime/Scripts/AtmosphereProfile.cs:123-124 | the dimension stage, also re-applied by the planet; `Planet.DimensionClampRedundant` and `Profile.ValidatedFieldwise` state its effect |
| Profile.ClampComponentProfiles | Runtime/Scripts/AtmosphereProfile.cs:127-130 | the component-profile stage; its effect is stated by `Profile.ValidatedKeepsProfileFields` |
| Profile.ClampDensity | Runtime/Scripts/AtmosphereProfile.cs:133-134 | the density stage; its effect is stated by `Profile.ValidatedKeepsDensityAndLighting` |
| Profile.ClampOptical | Runtime/Scripts/AtmosphereProfile.cs:137-140 | the optical stage; its effect is stated by `Profile.ClampRgb`, `Profile.ValidatedFieldwise` and `Profile.ValidatedKeepsDensityAndLighting` |
| Profile.ClampLighting | Runtime/Scripts/AtmosphereProfile.cs:143-144 | the lighting stage; its effect is stated by `Profile.ValidatedKeepsDensityAndLighting` |
| Profile.AtmosphereSettings.constructor | Runtime/Scripts/AtmosphereProfile.cs:17-96 | a new settings object holds the default values |
| Profile.AtmosphereSettings.UpdateInternalScaleFactors | Runtime/Scripts/AtmosphereProfile.cs:99-105 | each internal factor becomes its slider's interpolated value; nothing else changes |
| Profile.AtmosphereSettings.Validate | Runtime/Scripts/AtmosphereProfile.cs:115-144 | the object's new state is the validation of its old state |
| Profile.AtmosphereSettings.ClampDimensionsInPlace | Runtime/Scripts/AtmosphereProfile.cs:123-124 | only planet radius and height are clamped |
| Profile.AtmosphereSettings.ClampComponentProfilesInPlace | Runtime/Scripts/AtmosphereProfile.cs:127-130 | only the scale-height, ozone-centre and ozone-width fields are clamped |
| Profile.AtmosphereSettings.ClampDensityInPlace | Runtime/Scripts/AtmosphereProfile.cs:133-134 | only density scale and edge smoothness are clamped |
| Profile.AtmosphereSettings.ClampOpticalInPlace | Runtime/Scripts/AtmosphereProfile.cs:137-140 | only mie G and the three coefficient colours are clamped |
| Profile.AtmosphereSettings.ClampLightingInPlace | Runtime/Scripts/AtmosphereProfile.cs:143-144 | only the sun and ambient intensities are clamped |
| Profile.AtmosphereProfile.constructor | Runtime/Scripts/AtmosphereProfile.cs:108 | a new profile owns a fresh settings object with the defaults |
| Profile.AtmosphereProfile.OnValidate | Runtime/Scripts/AtmosphereProfile.cs:111-145 | missing settings are replaced by validated defaults; existing settings are validated in place, so settings are never null afterwards |
| Profile.AtmosphereProfile.OnEnable | Runtime/Scripts/AtmosphereProfile.cs:148-155 | existing settings get their internal factors resynchronised; nothing else changes |
| Planet.RemoveFirst | Runtime/Scripts/PlanetAtmosphere.cs:97 | `List.Remove` shortens the list by one exactly when the element is present, and otherwise leaves the list unchanged |
| Planet.RemoveFirstMultiset | Runtime/Scripts/PlanetAtmosphere.cs:97 | removal takes away exactly one occurrence and keeps the rest |
| Planet.RemoveFirstNoDuplicates | Runtime/Scripts/PlanetAtmosphere.cs:97 | in a duplicate-free registry, removal keeps it duplicate-free and leaves the element absent |
| Planet.WithoutRemoveFirst | Runtime/Scripts/PlanetAtmosphere.cs:97 | removing an instance does not disturb the other registered instances or their order |
| Planet.AppendNoDuplicates | Runtime/Scripts/PlanetAtmosphere.cs:83-84 | adding an absent instance keeps the registry duplicate-free |
| Planet.Registered | Runtime/Scripts/PlanetAtmosphere.cs:83-87 | the registration rule; `Planet.RegisteredSpec` proves what it guarantees |
| Planet.RegisteredSpec | Runtime/Scripts/PlanetAtmosphere.cs:83-87 | after synchronisation the instance is registered iff enabled, there are no duplicates, and the others are unchanged |
| Planet.AverageScale | Runtime/Scripts/PlanetAtmosphere.cs:37-42 | the average scale is non-negative and three times it is the sum of the absolute components |
| Planet.AverageScaleUniform | Runtime/Scripts/PlanetAtmosphere.cs:37-42 | a uniform scale k, even with a mirrored axis, averages to abs(k) |
| Planet.ScaledRadii | Runtime/Scripts/PlanetAtmosphere.cs:75-76 | the derived radii; `Planet.ScaledRadiiOrdered` and `Planet.ScaledRadiiProportional` prove their order and proportionality |
| Planet.ScaledRadiiOrdered | Runtime/Scripts/PlanetAtmosphere.cs:72-76 | with clamped dimensions, 0 ≤ scaled planet radius ≤ scaled atmosphere radius |
| Planet.ScaledRadiiProportional | Runtime/Scripts/PlanetAtmosphere.cs:75-76 | both scaled radii are proportional to the average scale |
| Planet.OuterRadius | Runtime/Scripts/PlanetAtmosphere.cs:32-33 | the unscaled outer radius, with height floored at 0 and the result floored at the planet radius |
| Planet.VisualRadius | Runtime/Scripts/PlanetAtmosphere.cs:32-34 | the visual mesh radius; `Planet.VisualRadiusAtLeastPlanet` and `Planet.VisualRadiusIsOuterRadius` state its properties |
| Planet.VisualRadiusAtLeastPlanet | Runtime/Scripts/PlanetAtmosphere.cs:32-34 | the visual radius is never below the scaled planet radius |
| Planet.VisualRadiusIsOuterRadius | Runtime/Scripts/PlanetAtmosphere.cs:32-34 | for a non-negative height the visual radius equals the derived scaled atmosphere radius |
| Planet.DimensionClampRedundant | Runtime/Scripts/PlanetAtmosphere.cs:71-73 | the "redundant but safe" re-clamp changes nothing on validated settings |
| Planet.Registry.constructor | Runtime/Scripts/PlanetAtmosphere.cs:20 | the registry starts empty |
| Planet.Registry.Add | Runtime/Scripts/PlanetAtmosphere.cs:84 | appends the instance, keeps the registry duplicate-free when it was absent, and touches no other entry |
| Planet.Registry.Remove | Runtime/Scripts/PlanetAtmosphere.cs:97 | removes the first occurrence; a duplicate-free registry stays so and no longer holds the instance |
| Planet.Registry.Sync | Runtime/Scripts/PlanetAtmosphere.cs:83-87 | the instance is present afterwards iff requested; other entries are untouched |
| Planet.PlanetAtmosphere.constructor | Runtime/Scripts/PlanetAtmosphere.cs:9-17 | a new component has no cached settings, zero radii, and the "never seen" lossy scale |
| Planet.PlanetAtmosphere.UpdateDerivedSettings | Runtime/Scripts/PlanetAtmosphere.cs:45-90 | an invalid profile clears the radii and cache; a valid one caches its settings, derives ordered radii and syncs registration with enabled; other registrations are untouched |
| Planet.PlanetAtmosphere.RecomputeRadii | Runtime/Scripts/PlanetAtmosphere.cs:68-76 | re-clamps the dimensions and sets the radii to the scaled radii, which are ordered |
| Planet.PlanetAtmosphere.OnEnable | Runtime/Scripts/PlanetAtmosphere.cs:92-95 | forces a derived-settings update; with a valid profile the instance is registered iff enabled |
| Planet.PlanetAtmosphere.OnDisable | Runtime/Scripts/PlanetAtmosphere.cs:96-99 | unregisters the instance and clears its cached settings and lossy scale |
| Planet.PlanetAtmosphere.OnValidate | Runtime/Scripts/PlanetAtmosphere.cs:100-109 | afterwards the instance is registered iff it is enabled and its profile is valid; with a valid profile the shared dimensions are clamped and the radii are the ordered scaled radii; with an invalid one settings and radii are cleared; the lossy scale is recorded |
| Planet.PlanetAtmosphere.GetScaledVisualAtmosphereRadius | Runtime/Scripts/PlanetAtmosphere.cs:24-35 | 0 without settings; otherwise the floored outer radius times the average scale, at least the scaled planet radius. With cached settings nothing changes. Without them it runs the full derived-settings update when a profile is assigned, valid or not, and changes nothing when none is |
| Feature.SlotOf | Runtime/Scripts/AtmosphereFeature.cs:82 | an entry is drawn only when non-null, active, enabled and holding settings |
| Feature.Snapshot | Runtime/Scripts/AtmosphereFeature.cs:80-82 | the pass sees each registry entry, in order, as its slot |
| Feature.EnqueuedPasses | Runtime/Scripts/AtmosphereFeature.cs:176-203 | the passes `AddRenderPasses` enqueues; `Feature.EnqueuedPassesSpec` proves which and in what order |
| Feature.EnqueuedPassesSpec | Runtime/Scripts/AtmosphereFeature.cs:176-203 | nothing is enqueued unless all resources exist and some atmosphere is registered; sky comes first; haze is second exactly when the camera is inside a live atmosphere |
| Feature.CameraInsideAnyIgnoresSkips | Runtime/Scripts/AtmosphereFeature.cs:187-191 | skipped entries never affect the inside-atmosphere test |
| Feature.CameraOnBoundaryIsOutside | Runtime/Scripts/AtmosphereFeature.cs:189-191 | a camera exactly on the shell is not inside (strict comparison) |
| Feature.BlockFor | Runtime/Scripts/AtmosphereFeature.cs:92-112 | both scale heights sent to the shader are at least MIN_SCALE_HEIGHT, and the block carries the pass index |
| Feature.ScaleHeightsFollowShell | Runtime/Scripts/AtmosphereFeature.cs:92-94 | above the floor, the Rayleigh and the Mie scale heights are each their normalised value times the shell thickness |
| Feature.DrawFor | Runtime/Scripts/AtmosphereFeature.cs:82-121 | the draw one registry entry yields; `Feature.DrawForLive` and `Feature.DrawsIgnoreSkips` state when there is one |
| Feature.Draws | Runtime/Scripts/AtmosphereFeature.cs:80-122 | at most one draw per registry entry |
| Feature.DrawsWellFormed | Runtime/Scripts/AtmosphereFeature.cs:96-121 | every draw uses the pass index and has floored scale heights |
| Feature.DrawsConcat | Runtime/Scripts/AtmosphereFeature.cs:80-122 | the draws of a split registry are the draws of each part, in order |
| Feature.DrawsStep | Runtime/Scripts/AtmosphereFeature.cs:80-122 | each loop iteration appends exactly that entry's draw |
| Feature.DrawsIgnoreSkips | Runtime/Scripts/AtmosphereFeature.cs:82 | skipped entries contribute no draw |
| Feature.DrawForLive | Runtime/Scripts/AtmosphereFeature.cs:114-121 | a live atmosphere is drawn iff its visual radius exceeds its planet radius plus the margin |
| Feature.ExecuteCommands | Runtime/Scripts/AtmosphereFeature.cs:73-123 | the commands a pass execution records; `Feature.ExecuteCommandsSpec` proves their shape |
| Feature.ExecuteCommandsSpec | Runtime/Scripts/AtmosphereFeature.cs:73-123 | no commands without material, mesh or atmospheres; otherwise the sun direction comes first, then at most one well-formed draw per entry |
| Feature.ExecutePass | Runtime/Scripts/AtmosphereFeature.cs:73-123 | the loop records exactly the specified command sequence for the registry's current contents |
| Feature.DrawInstance | Runtime/Scripts/AtmosphereFeature.cs:82-121 | the loop body issues exactly that slot's specified draw |
| Feature.SunDirection | Runtime/Scripts/AtmosphereFeature.cs:138-143 | the main light's negated forward if present, else the negated forward of the directional `RenderSettings.sun`, else straight down |
| Feature.RecordRenderGraph | Runtime/Scripts/AtmosphereFeature.cs:124-150 | a pass is recorded iff material and mesh exist, atmospheres are registered and the camera is not a preview; it carries the pass resources and the sun direction |
| Feature.RecordThenExecute | Runtime/Scripts/AtmosphereFeature.cs:124-150 | a recorded pass always executes to a non-empty list that sets that sun direction first and then draws well-formed instances |
| Feature.AtmosphereFeature.constructor | Runtime/Scripts/AtmosphereFeature.cs:19-27 | a new feature renders before transparents and owns no resources |
| Feature.AtmosphereFeature.DisposeInstances | Runtime/Scripts/AtmosphereFeature.cs:166-172 | all owned resources are released; the pass event is kept |
| Feature.AtmosphereFeature.Dispose | Runtime/Scripts/AtmosphereFeature.cs:173-175 | disposing the feature releases every owned resource |
| Feature.AtmosphereFeature.Create | Runtime/Scripts/AtmosphereFeature.cs:153-165 | a missing mesh, shader or material leaves the feature disposed; otherwise it holds them and the sky and haze passes with their indices and tags |
| Feature.AtmosphereFeature.AddRenderPasses | Runtime/Scripts/AtmosphereFeature.cs:176-203 | the early-exit loop enqueues exactly the specified passes |
| ProfileEditor.GetDensity | Editor/AtmosphereProfileEditor.cs:382-388 | a density sample is never negative |
| ProfileEditor.GetDensitySpec | Editor/AtmosphereProfileEditor.cs:382-388 | the density never exceeds the unsmoothed exponential, equals it without smoothing or at the surface, and is scaled by 1 − smoothness at the top |
| ProfileEditor.GetDensityEnds | Editor/AtmosphereProfileEditor.cs:382-388 | the density is 1 at the surface, and 0 at the top with full smoothing |
| ProfileEditor.GetOzoneDensity | Editor/AtmosphereProfileEditor.cs:390-394 | the ozone density is in (0, 1] and peaks at the layer centre |
| ProfileEditor.GetOzoneDensitySymmetric | Editor/AtmosphereProfileEditor.cs:390-394 | the ozone layer is symmetric about its centre |
| ProfileEditor.NormAltitudeAscending | Editor/AtmosphereProfileEditor.cs:165-167 | sample altitudes are strictly increasing within [0, 1] |
| ProfileEditor.ChannelExtinction | Editor/AtmosphereProfileEditor.cs:182-184 | one channel's extinction; `ProfileEditor.ChannelExtinctionMonotone` proves it grows with the density scale |
| ProfileEditor.ChannelExtinctionMonotone | Editor/AtmosphereProfileEditor.cs:178-184 | with non-negative coefficients and densities, extinction grows with the density scale |
| ProfileEditor.ScaleHeightOf | Editor/AtmosphereProfileEditor.cs:147-149 | graphed scale heights are floored at EPSILON |
| ProfileEditor.GraphParamsOf | Editor/AtmosphereProfileEditor.cs:147-153 | the height and both scale heights the loop uses are at least EPSILON |
| ProfileEditor.CurvePoints | Editor/AtmosphereProfileEditor.cs:165-191 | a curve of n samples has n points |
| ProfileEditor.CurvePointsSpec | Editor/AtmosphereProfileEditor.cs:165-191 | point k of a curve is the k-th sample altitude paired with the curve's value there |
| ProfileEditor.DensityCurvesInUnitRange | Editor/AtmosphereProfileEditor.cs:170-176 | density curves lie in [0, 1], so the fixed maximum of 1 bounds them |
| ProfileEditor.ScaledChannelNonNegative | Editor/AtmosphereProfileEditor.cs:151-153 | a clamped coefficient scaled by a non-negative factor has non-negative channels |
| ProfileEditor.ExtinctionMonotoneInDensityScale | Editor/AtmosphereProfileEditor.cs:151-184 | raising the profile's density scale never lowers any extinction sample |
| ProfileEditor.MaxExtinction | Editor/AtmosphereProfileEditor.cs:156-193 | the running maximum of the extinction samples; `ProfileEditor.MaxExtinctionSpec` proves it is an upper bound that is attained or EPSILON |
| ProfileEditor.MaxExtinctionSpec | Editor/AtmosphereProfileEditor.cs:156-193 | the running maximum bounds every channel's extinction, is at least EPSILON, and is attained or equals EPSILON |
| ProfileEditor.SampledGraph | Editor/AtmosphereProfileEditor.cs:155-200 | the graph data the sampling loop stores; `ProfileEditor.SampledGraphSpec` states its properties |
| ProfileEditor.SampledGraphSpec | Editor/AtmosphereProfileEditor.cs:136-201 | the graph has 101 points per curve at the sample altitudes; densities are in [0, 1]; extinction points hold the channel values; the maximum bounds them |
| ProfileEditor.SamplePoints | Editor/AtmosphereProfileEditor.cs:167-188 | one iteration computes each curve's point at that sample |
| ProfileEditor.SampleCurves | Editor/AtmosphereProfileEditor.cs:155-193 | the sampling loop produces exactly the specified graph |
| ProfileEditor.MapToGraph | Editor/AtmosphereProfileEditor.cs:350-355 | x grows left to right and y is flipped; normalised coordinates in [0, 1] land inside the rectangle, with the ends on its edges |
| ProfileEditor.NormalisedY | Editor/AtmosphereProfileEditor.cs:360-365 | a point's normalised height is in [0, 1] |
| ProfileEditor.MapPointsToGraph | Editor/AtmosphereProfileEditor.cs:357-369 | each point maps through the rectangle mapping, in order, and every mapped y lies inside the rectangle |
| ProfileEditor.ConvertToVector3Array | Editor/AtmosphereProfileEditor.cs:371-380 | a fresh array of the same points with z = 0, empty for a null list |
| ProfileEditor.AtmosphereProfileEditor.constructor | Editor/AtmosphereProfileEditor.cs:28-38 | the editor starts with no profile, empty curves and maximum EPSILON |
| ProfileEditor.AtmosphereProfileEditor.OnEnable | Editor/AtmosphereProfileEditor.cs:40-51 | with a valid target the factors are resynchronised and the graph is plotted from the updated settings; otherwise neither the settings nor the curves change |
| ProfileEditor.AtmosphereProfileEditor.OnInspectorGUI | Editor/AtmosphereProfileEditor.cs:53-118 | without a bound profile or settings nothing changes; otherwise missing profile settings become fresh defaults, the inspector holds the profile's settings, and the curves are resampled from them exactly on a change or a repaint |
| ProfileEditor.AtmosphereProfileEditor.RecalculateGraphData | Editor/AtmosphereProfileEditor.cs:136-201 | with settings, the stored curves and maximum become the sampled graph of those settings; without settings nothing changes |
| Inspector.GetActiveRendererData | Editor/AtmosphereEditor.cs:234-243 | a renderer is found iff the pipeline is URP with a non-empty renderer list whose first entry exists, and that entry is returned |
| Inspector.HasAtmosphereFeature | Editor/AtmosphereEditor.cs:250-256 | some renderer feature is a non-null atmosphere feature; `Inspector.CheckFeature` is proved against it |
| Inspector.FeatureStatus | Editor/AtmosphereEditor.cs:245-258 | the feature check's answer; `Inspector.CheckFeature` and `Inspector.FeatureStatusKnownIffRenderer` state it |
| Inspector.CheckFeature | Editor/AtmosphereEditor.cs:245-258 | unknown without a URP pipeline or renderer; otherwise true iff some renderer feature is the atmosphere feature |
| Inspector.FeatureStatusKnownIffRenderer | Editor/AtmosphereEditor.cs:234-258 | for the active pipeline, the status is known exactly when a renderer data is found |
| Inspector.FeatureCache.constructor | Editor/AtmosphereEditor.cs:19-22 | the static cache starts empty, at frame −1 |
| Inspector.FeatureCache.Invalidate | Editor/AtmosphereEditor.cs:59-64 | the cache is emptied and any later query refreshes it |
| Inspector.FeatureCache.Refresh | Editor/AtmosphereEditor.cs:81-89 | a stale cache is recomputed to the true status; a fresh one is left alone; afterwards it is fresh for this frame |
| Inspector.AtmosphereEditor.constructor | Editor/AtmosphereEditor.cs:12-16 | a new inspector holds no profile editor and no current profile |
| Inspector.AtmosphereEditor.OnEnable | Editor/AtmosphereEditor.cs:24-47 | a valid assigned profile gets a fresh, plotted editor, and its settings' internal factors are resynchronised; an invalid one clears both; the cache is invalidated |
| Inspector.AtmosphereEditor.OnDisable | Editor/AtmosphereEditor.cs:49-57 | the embedded editor is released, the current profile is forgotten if one was held, and the editor/profile pairing stays consistent |
| Inspector.AtmosphereEditor.ReleaseProfileEditor | Editor/AtmosphereEditor.cs:147-153 | drops the embedded editor, and the current profile only if an editor was held |
| Inspector.AtmosphereEditor.EmbedProfileEditor | Editor/AtmosphereEditor.cs:185-197 | an editor for the same profile is kept and the settings are untouched; otherwise a valid profile gets a fresh plotted editor, with its internal factors resynchronised, or both are cleared |
| Inspector.AtmosphereEditor.OnInspectorGUI | Editor/AtmosphereEditor.cs:66-229 | refreshes the cache, leaving a fresh one as it was; an invalid profile or a missing feature releases the editor; a valid profile with the feature embeds one; settings change only when a new editor resynchronises them; the pairing stays consistent |

## Left out

- Rendering, GUI drawing, help boxes, gizmos, logging, `SetDirty` and `serializedObject` bookkeeping are left out: they have no state the model could check.
- Engine calls are parameters of the model, not modelled code. These are: `Resources.Load`, `Shader.Find`, `CoreUtils.CreateEngineMaterial`, `GraphicsSettings.currentRenderPipeline`, `Time.frameCount` (the parameter `frame`), and the profile field the inspector's `PropertyField` assigns (the parameter `profileAsset`).
- `CoreUtils.Destroy` and `DestroyImmediate` are modelled as dropping the reference, because object destruction is engine-side.
- Engine.Exp: a rational stand-in for `Mathf.Exp`. The curve properties are stated through positivity, its value at 0, a bound for non-positive arguments and monotonicity. The curve values are not the exponential's.
- Profile.AtmosphereProfile.OnEnable: the method is compiled only in the editor (`#if UNITY_EDITOR`, `AtmosphereProfile.cs:147-156`). The model has no build configuration, so it always includes the method. A player build, where nothing resynchronises the internal factors, is not modelled.
- Float precision, rounding, NaN and infinities are not modelled, because every quantity is a `real`.
- `Matrix4x4.TRS` and the shader property IDs are not modelled. A draw records position, rotation and scale as values, and the property block as a record.
- Normalising the sun direction is not modelled, because it needs square roots, which `real` lacks. The direction is the negated forward axis: the third column of the main light's `localToWorldMatrix`, or the sun transform's `forward`. The matrix is a light's `forward` field.
- Feature.SunDirection: requires `mainLightIndex ≥ -1`, the range URP produces (−1 means no main light).
- Feature.RecordRenderGraph: the texture attachments and render-graph builder calls are not modelled, only the pass data and when a pass is recorded.
- The render-type test at `AtmosphereFeature.cs:130` always passes in the model, because URP's camera render type has only the two values Base and Overlay. The camera's render type is kept as a field, and the preview flag decides.
- Editor-mode repair of stale settings inside `ExecutePass` (its call to `UpdateDerivedSettings` while iterating the registry) is left out. That call can remove the instance from the list under iteration, which the model does not represent. The list is read as a snapshot instead.
- Feature.ExecutePass: the draws are collected first and then prefixed by the sun-direction command. The command sequence is the same one the script records.
- The second, redundant `currentSettings` null-check inside the draw loop is folded into the slot's liveness.
- `PlanetAtmosphere.Update` polling the transform is not modelled, because it only calls `UpdateDerivedSettings`, which is modelled. The transform is modelled as the component's `lossyScale` and `position` fields.
- ProfileEditor.AtmosphereProfileEditor.OnInspectorGUI: the default inspector's field edits, `ApplyModifiedProperties`, `SetDirty`, the warning log and `Repaint` are not modelled, because they belong to the editor's serialization and GUI. The change check and the event type are parameters.
- The graph-drawing routines, the legend and `NormalizeColor` are left out, because they are pure GUI painting.
- Inspector.AtmosphereEditor.OnInspectorGUI: the call into the embedded editor's `OnInspectorGUI` and the `SetDirty` after it are not modelled. That pass is modelled on its own as `ProfileEditor.AtmosphereProfileEditor.OnInspectorGUI`, and chaining it here would bring the embedded editor's fields into this method's frame.
- `AtmosphereEditor.OnInspectorGUI`'s null-`target` early return is not modelled, because a Dafny receiver is never null.
- The serialized property's type check is not modelled: the field is declared as `AtmosphereProfile` (`PlanetAtmosphere.cs:9`), so the property is always an object reference. A property that is not found is the `None` case.
- Inspector.AtmosphereEditor.OnEnable: when the profile property is not found, the current profile is kept (as the script does), so `Valid()` is not promised in that case.
- The static feature cache is modelled as one `FeatureCache` object shared by every inspector.
- The graph sampling divides by the literal 100.0 for `GRAPH_SAMPLES`. The script's `maxDensityValue` of 1 is a constant in the model. The loop-invariant values the script computes before the loop are bundled in `GraphParams`.
