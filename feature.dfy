/**
 * The renderer feature: two passes (sky and internal haze) over one mesh and
 * material, the per-frame decision which of them to enqueue, and the draw
 * commands a pass records for the listed planet instances. Engine calls
 * (enqueueing a pass, setting a global vector, drawing a mesh) are modelled
 * as values appended to an output sequence.
 */
module Feature {
  import opened Engine
  import opened Profile
  import opened Planet

  /** The floor for the scale heights sent to the shader. */
  const MIN_SCALE_HEIGHT: real := 0.00001
  /** Radius of the sphere mesh the atmosphere is drawn with. */
  const BASE_MESH_RADIUS: real := 0.5
  /** How far the visual radius must exceed the planet radius for a draw. */
  const VISUAL_MARGIN: real := 0.00001

  const SKY_PASS_INDEX: int := 0
  const HAZE_PASS_INDEX: int := 1
  const SKY_PROFILER_TAG: string := "Atmosphere Sky"
  const HAZE_PROFILER_TAG: string := "Atmosphere Haze (Internal)"

  /** Loaded engine assets, by identity. */
  datatype Mesh = Mesh(id: nat)
  datatype Shader = Shader(id: nat)
  datatype Material = Material(id: nat)

  /** A point in URP's frame at which a pass runs; `BeforeRenderingTransparents` is 450. */
  datatype RenderPassEvent = RenderPassEvent(order: int)
  const BeforeRenderingTransparents: RenderPassEvent := RenderPassEvent(450)

  /** An atmosphere render pass: the material, mesh and shader pass it draws with. */
  datatype Pass = Pass(
    material: Option<Material>,
    mesh: Option<Mesh>,
    shaderPassIndex: int,
    profilerTag: string,
    renderPassEvent: RenderPassEvent)

  /** The per-instance shader parameters written into the property block before a draw. */
  datatype PropertyBlock = PropertyBlock(
    planetWorldPosition: Vector3,
    planetRadius: real,
    atmosphereRadius: real,
    rayleighScaleHeight: real,
    mieScaleHeight: real,
    densityScale: real,
    rayleighScatteringCoeff: Color,
    mieScatteringCoeff: Color,
    ozoneAbsorptionCoeff: Color,
    mieG: real,
    ozoneCenterAltitudeNorm: real,
    ozoneWidth: real,
    sunIntensity: real,
    atmosphereTint: Color,
    shaderPassIndex: int,
    densityEdgeSmoothness: real,
    ambientIntensity: real)

  /** Commands recorded into the raster command buffer. */
  datatype Command =
    | SetGlobalSunDirection(direction: Vector3)
    | DrawMesh(mesh: Mesh, position: Vector3, rotation: Quaternion, uniformScale: real,
               material: Material, submesh: int, shaderPass: int, block: PropertyBlock)

  /** What a recorded pass hands to its render function. */
  datatype PassData = PassData(
    runtimeMaterial: Option<Material>,
    sphereMesh: Option<Mesh>,
    shaderPassIndex: int,
    sunDirection: Vector3)

  /** URP's camera render types. */
  datatype CameraRenderType = Base | Overlay
  datatype CameraData = CameraData(isPreviewCamera: bool, renderType: CameraRenderType)
  /** A visible light, by the forward axis of its local-to-world matrix (column 2). */
  datatype VisibleLight = VisibleLight(forward: Vector3)
  datatype LightData = LightData(mainLightIndex: int, visibleLights: seq<VisibleLight>)
  /** `RenderSettings.sun`, when one is set. */
  datatype SunLight = SunLight(isDirectional: bool, forward: Vector3)

  /** What the renderer reads of one listed instance during a frame. */
  datatype InstanceView = InstanceView(
    position: Vector3,
    rotation: Quaternion,
    scaledPlanetRadius: real,
    scaledAtmosphereRadius: real,
    settings: SettingsValue,
    averageScale: real)

  /** A list entry as the renderer sees it: skipped (destroyed, inactive or without settings) or live. */
  datatype Slot = Skip | Live(view: InstanceView)

  function SlotOf(p: PlanetAtmosphere?): (r: Slot)
    reads p, if p != null then {p.currentSettings} else {}
    ensures r.Live? <==> p != null && p.IsActiveAndEnabled() && p.currentSettings != null
  {
    if p == null || !p.IsActiveAndEnabled() || p.currentSettings == null then Skip
    else Live(InstanceView(p.position, p.rotation, p.scaledPlanetRadius, p.scaledAtmosphereRadius,
                           p.currentSettings.Value(), AverageScale(p.lossyScale)))
  }

  /** The whole list, entry by entry, as the renderer sees it. */
  function Snapshot(items: seq<PlanetAtmosphere?>): (r: seq<Slot>)
    reads set i | 0 <= i < |items| :: items[i]
    reads set i | 0 <= i < |items| && items[i] != null :: items[i].currentSettings
    ensures |r| == |items|
    ensures forall i :: 0 <= i < |items| ==> r[i] == SlotOf(items[i])
    decreases |items|
  {
    if |items| == 0 then []
    else Snapshot(items[..|items| - 1]) + [SlotOf(items[|items| - 1])]
  }

  // ---------------------------------------------------------------- pass scheduling

  /** The camera is strictly inside the physical outer sphere of a live instance. */
  predicate CameraInside(slot: Slot, cameraPos: Vector3) {
    slot.Live? &&
    SqrMagnitude(Sub(cameraPos, slot.view.position)) < slot.view.scaledAtmosphereRadius * slot.view.scaledAtmosphereRadius
  }

  predicate CameraInsideAny(slots: seq<Slot>, cameraPos: Vector3) {
    exists i :: 0 <= i < |slots| && CameraInside(slots[i], cameraPos)
  }

  /** The passes enqueued for one camera, in order. */
  function EnqueuedPasses(material: Option<Material>, mesh: Option<Mesh>, sky: Option<Pass>, haze: Option<Pass>,
                          cameraPos: Vector3, slots: seq<Slot>): seq<Pass> {
    if material.None? || mesh.None? || |slots| == 0 then []
    else if sky.None? then []
    else [sky.value] + (if CameraInsideAny(slots, cameraPos) && haze.Some? then [haze.value] else [])
  }

  /**
   * Nothing is enqueued without resources, instances or a sky pass; otherwise the sky
   * pass comes first, and the haze pass follows exactly when the camera is inside
   * some live instance's sphere.
   */
  lemma EnqueuedPassesSpec(material: Option<Material>, mesh: Option<Mesh>, sky: Option<Pass>, haze: Option<Pass>,
                           cameraPos: Vector3, slots: seq<Slot>)
    ensures var r := EnqueuedPasses(material, mesh, sky, haze, cameraPos, slots);
      && |r| <= 2
      && (r != [] <==> material.Some? && mesh.Some? && sky.Some? && |slots| > 0)
      && (r != [] ==> r[0] == sky.value)
      && (|r| == 2 <==> material.Some? && mesh.Some? && sky.Some? && haze.Some? && CameraInsideAny(slots, cameraPos))
      && (|r| == 2 ==> r[1] == haze.value)
  {
  }

  /** Skipped entries never put the camera inside, wherever they are in the list. */
  lemma CameraInsideAnyIgnoresSkips(a: seq<Slot>, b: seq<Slot>, cameraPos: Vector3)
    ensures CameraInsideAny(a + [Skip] + b, cameraPos) == CameraInsideAny(a + b, cameraPos)
  {
    var s, t := a + [Skip] + b, a + b;
    if CameraInsideAny(s, cameraPos) {
      var i :| 0 <= i < |s| && CameraInside(s[i], cameraPos);
      if i < |a| {
        assert t[i] == s[i];
      } else {
        assert i > |a|;
        assert t[i - 1] == s[i];
      }
    }
    if CameraInsideAny(t, cameraPos) {
      var i :| 0 <= i < |t| && CameraInside(t[i], cameraPos);
      if i < |a| {
        assert s[i] == t[i];
      } else {
        assert s[i + 1] == t[i];
      }
    }
  }

  /** A camera on the sphere itself is not inside: the test is strict. */
  lemma CameraOnBoundaryIsOutside(v: InstanceView, cameraPos: Vector3)
    requires SqrMagnitude(Sub(cameraPos, v.position)) == v.scaledAtmosphereRadius * v.scaledAtmosphereRadius
    ensures !CameraInsideAny([Live(v)], cameraPos)
  {
  }

  // ---------------------------------------------------------------- draws

  /** The shader parameters for one instance. */
  function BlockFor(v: InstanceView, shaderPassIndex: int): (b: PropertyBlock)
    ensures b.rayleighScaleHeight >= MIN_SCALE_HEIGHT && b.mieScaleHeight >= MIN_SCALE_HEIGHT
    ensures b.shaderPassIndex == shaderPassIndex
  {
    var s := v.settings;
    var scaledAtmosphereHeight := Max(0.0, v.scaledAtmosphereRadius - v.scaledPlanetRadius);
    PropertyBlock(
      v.position, v.scaledPlanetRadius, v.scaledAtmosphereRadius,
      Max(MIN_SCALE_HEIGHT, s.rayleighScaleHeightNorm * scaledAtmosphereHeight),
      Max(MIN_SCALE_HEIGHT, s.mieScaleHeightNorm * scaledAtmosphereHeight),
      s.densityScale,
      ScaleColor(s.rayleighScatteringCoeff, s.rayleighScaleFactorInternal),
      ScaleColor(s.mieScatteringCoeff, s.mieScaleFactorInternal),
      ScaleColor(s.ozoneAbsorptionCoeff, s.ozoneScaleFactorInternal),
      s.mieG, s.ozoneCenterAltitudeNorm, s.ozoneWidth, s.sunIntensity, s.atmosphereTint,
      shaderPassIndex, s.densityEdgeSmoothness, s.ambientIntensity)
  }

  /** Above the floor, the Rayleigh and Mie scale heights are their norm times the shell thickness. */
  lemma ScaleHeightsFollowShell(v: InstanceView, shaderPassIndex: int)
    requires v.scaledAtmosphereRadius >= v.scaledPlanetRadius
    requires v.settings.rayleighScaleHeightNorm * (v.scaledAtmosphereRadius - v.scaledPlanetRadius) >= MIN_SCALE_HEIGHT
    ensures BlockFor(v, shaderPassIndex).rayleighScaleHeight
            == v.settings.rayleighScaleHeightNorm * (v.scaledAtmosphereRadius - v.scaledPlanetRadius)
    ensures v.settings.mieScaleHeightNorm * (v.scaledAtmosphereRadius - v.scaledPlanetRadius) >= MIN_SCALE_HEIGHT ==>
              BlockFor(v, shaderPassIndex).mieScaleHeight
              == v.settings.mieScaleHeightNorm * (v.scaledAtmosphereRadius - v.scaledPlanetRadius)
  {
  }

  /** The draw one entry contributes, if any. */
  function DrawFor(slot: Slot, mesh: Mesh, material: Material, shaderPassIndex: int): seq<Command> {
    match slot
    case Skip => []
    case Live(v) =>
      var scaledVisualRadius := VisualRadius(v.settings, v.averageScale);
      if scaledVisualRadius <= v.scaledPlanetRadius + VISUAL_MARGIN then []
      else
        var requiredScale := scaledVisualRadius / BASE_MESH_RADIUS;
        if requiredScale <= 0.0 then []
        else [DrawMesh(mesh, v.position, v.rotation, requiredScale, material, 0, shaderPassIndex, BlockFor(v, shaderPassIndex))]
  }

  predicate WellFormedDraw(c: Command, shaderPassIndex: int) {
    && c.DrawMesh?
    && c.shaderPass == shaderPassIndex
    && c.block.shaderPassIndex == shaderPassIndex
    && c.uniformScale > 0.0
    && c.block.rayleighScaleHeight >= MIN_SCALE_HEIGHT
    && c.block.mieScaleHeight >= MIN_SCALE_HEIGHT
  }

  /** The draws for a list of entries, in list order. */
  function Draws(slots: seq<Slot>, mesh: Mesh, material: Material, shaderPassIndex: int): (r: seq<Command>)
    ensures |r| <= |slots|
    decreases |slots|
  {
    if |slots| == 0 then []
    else
      var prefix := Draws(slots[..|slots| - 1], mesh, material, shaderPassIndex);
      prefix + DrawFor(slots[|slots| - 1], mesh, material, shaderPassIndex)
  }

  /** Every draw uses the pass's shader pass, a positive scale and scale heights of at least `MIN_SCALE_HEIGHT`. */
  lemma {:induction false} DrawsWellFormed(slots: seq<Slot>, mesh: Mesh, material: Material, shaderPassIndex: int)
    ensures forall c :: c in Draws(slots, mesh, material, shaderPassIndex) ==> WellFormedDraw(c, shaderPassIndex)
    decreases |slots|
  {
    if |slots| > 0 {
      DrawsWellFormed(slots[..|slots| - 1], mesh, material, shaderPassIndex);
    }
  }

  /** Draws follow list order: the draws of a concatenation are the concatenation of the draws. */
  lemma {:induction false} DrawsConcat(a: seq<Slot>, b: seq<Slot>, mesh: Mesh, material: Material, shaderPassIndex: int)
    ensures Draws(a + b, mesh, material, shaderPassIndex)
            == Draws(a, mesh, material, shaderPassIndex) + Draws(b, mesh, material, shaderPassIndex)
    decreases |b|
  {
    if |b| == 0 {
      assert a + b == a;
    } else {
      var b' := b[..|b| - 1];
      assert (a + b)[..|a + b| - 1] == a + b';
      assert (a + b)[|a + b| - 1] == b[|b| - 1];
      DrawsConcat(a, b', mesh, material, shaderPassIndex);
    }
  }

  /** Extending the prefix by one entry appends that entry's draw. */
  lemma DrawsStep(slots: seq<Slot>, i: nat, mesh: Mesh, material: Material, shaderPassIndex: int)
    requires i < |slots|
    ensures Draws(slots[..i + 1], mesh, material, shaderPassIndex)
            == Draws(slots[..i], mesh, material, shaderPassIndex) + DrawFor(slots[i], mesh, material, shaderPassIndex)
  {
    assert slots[..i + 1][..i] == slots[..i];
  }

  /** A skipped entry contributes nothing and does not stop the entries after it. */
  lemma DrawsIgnoreSkips(a: seq<Slot>, b: seq<Slot>, mesh: Mesh, material: Material, shaderPassIndex: int)
    ensures Draws(a + [Skip] + b, mesh, material, shaderPassIndex) == Draws(a + b, mesh, material, shaderPassIndex)
  {
    DrawsConcat(a + [Skip], b, mesh, material, shaderPassIndex);
    assert (a + [Skip])[..|a|] == a;
    assert Draws(a + [Skip], mesh, material, shaderPassIndex) == Draws(a, mesh, material, shaderPassIndex);
    DrawsConcat(a, b, mesh, material, shaderPassIndex);
  }

  /**
   * A live instance whose cached radii came from a refresh (planet radius at least 0,
   * outer radius the visual one) is drawn exactly when its shell is thicker than the
   * margin; the second, `requiredScale`, test never rejects it.
   */
  lemma DrawForLive(v: InstanceView, mesh: Mesh, material: Material, shaderPassIndex: int)
    requires v.scaledPlanetRadius >= 0.0
    ensures |DrawFor(Live(v), mesh, material, shaderPassIndex)| == 1
            <==> VisualRadius(v.settings, v.averageScale) > v.scaledPlanetRadius + VISUAL_MARGIN
  {
  }

  /** The commands a pass records for one frame. */
  function ExecuteCommands(data: PassData, slots: seq<Slot>): seq<Command> {
    if data.runtimeMaterial.None? || data.sphereMesh.None? || |slots| == 0 then []
    else [SetGlobalSunDirection(data.sunDirection)]
         + Draws(slots, data.sphereMesh.value, data.runtimeMaterial.value, data.shaderPassIndex)
  }

  /** At most one draw per entry, after the sun direction, each using the pass's shader pass. */
  lemma ExecuteCommandsSpec(data: PassData, slots: seq<Slot>)
    ensures var r := ExecuteCommands(data, slots);
      && (data.runtimeMaterial.None? || data.sphereMesh.None? || |slots| == 0 ==> r == [])
      && (r != [] ==> r[0] == SetGlobalSunDirection(data.sunDirection) && |r| <= |slots| + 1)
      && (forall k :: 1 <= k < |r| ==> WellFormedDraw(r[k], data.shaderPassIndex))
  {
    var r := ExecuteCommands(data, slots);
    if r != [] {
      var d := Draws(slots, data.sphereMesh.value, data.runtimeMaterial.value, data.shaderPassIndex);
      DrawsWellFormed(slots, data.sphereMesh.value, data.runtimeMaterial.value, data.shaderPassIndex);
      assert r == [SetGlobalSunDirection(data.sunDirection)] + d;
      forall k | 1 <= k < |r|
        ensures WellFormedDraw(r[k], data.shaderPassIndex)
      {
        assert r[k] == d[k - 1];
        assert d[k - 1] in d;
      }
    }
  }

  /**
   * The render function of a pass: sets the sun direction, then draws each live
   * instance whose visual shell is wide enough, in list order.
   */
  method ExecutePass(data: PassData, registry: Registry) returns (cmds: seq<Command>)
    ensures cmds == ExecuteCommands(data, Snapshot(registry.items))
  {
    var items := registry.items;
    ghost var slots := Snapshot(items);
    if data.runtimeMaterial.None? || data.sphereMesh.None? || |items| == 0 {
      return [];
    }
    var mesh, material := data.sphereMesh.value, data.runtimeMaterial.value;
    // the sun direction is recorded first; the draws follow in list order
    var draws: seq<Command> := [];
    assert slots[..0] == [];
    for i := 0 to |items|
      invariant draws == Draws(slots[..i], mesh, material, data.shaderPassIndex)
    {
      var draw := DrawInstance(items[i], mesh, material, data.shaderPassIndex);
      assert slots[i] == SlotOf(items[i]);
      DrawsStep(slots, i, mesh, material, data.shaderPassIndex);
      draws := draws + draw;
    }
    assert slots[..|items|] == slots;
    cmds := [SetGlobalSunDirection(data.sunDirection)] + draws;
  }

  /** One iteration of the render function's loop: the draw for one list entry, if any. */
  method DrawInstance(atmosphere: PlanetAtmosphere?, mesh: Mesh, material: Material, shaderPassIndex: int)
    returns (draw: seq<Command>)
    ensures draw == DrawFor(SlotOf(atmosphere), mesh, material, shaderPassIndex)
  {
    if atmosphere == null || !atmosphere.IsActiveAndEnabled() || atmosphere.currentSettings == null {
      return [];
    }
    var settings := atmosphere.currentSettings;
    ghost var v := InstanceView(atmosphere.position, atmosphere.rotation, atmosphere.scaledPlanetRadius,
                                atmosphere.scaledAtmosphereRadius, settings.Value(), AverageScale(atmosphere.lossyScale));

    var scaledAtmosphereHeight := Max(0.0, atmosphere.scaledAtmosphereRadius - atmosphere.scaledPlanetRadius);
    var scaledRayleighH := Max(MIN_SCALE_HEIGHT, settings.rayleighScaleHeightNorm * scaledAtmosphereHeight);
    var scaledMieH := Max(MIN_SCALE_HEIGHT, settings.mieScaleHeightNorm * scaledAtmosphereHeight);
    var block := PropertyBlock(
      atmosphere.position, atmosphere.scaledPlanetRadius, atmosphere.scaledAtmosphereRadius,
      scaledRayleighH, scaledMieH, settings.densityScale,
      ScaleColor(settings.rayleighScatteringCoeff, settings.rayleighScaleFactorInternal),
      ScaleColor(settings.mieScatteringCoeff, settings.mieScaleFactorInternal),
      ScaleColor(settings.ozoneAbsorptionCoeff, settings.ozoneScaleFactorInternal),
      settings.mieG, settings.ozoneCenterAltitudeNorm, settings.ozoneWidth, settings.sunIntensity,
      settings.atmosphereTint, shaderPassIndex, settings.densityEdgeSmoothness, settings.ambientIntensity);
    assert block == BlockFor(v, shaderPassIndex);

    // the instance has settings, so the visual radius needs no refresh
    var scaledVisualRadius := VisualRadius(settings.Value(), AverageScale(atmosphere.lossyScale));
    if scaledVisualRadius <= atmosphere.scaledPlanetRadius + VISUAL_MARGIN {
      return [];
    }
    var requiredScale := scaledVisualRadius / BASE_MESH_RADIUS;
    if requiredScale <= 0.0 {
      return [];
    }
    draw := [DrawMesh(mesh, atmosphere.position, atmosphere.rotation, requiredScale,
                      material, 0, shaderPassIndex, block)];
  }

  // ---------------------------------------------------------------- recording

  /** The main visible light when its index is in range, else a directional scene sun, else straight down. */
  function SunDirection(light: LightData, sun: Option<SunLight>): (r: Vector3)
    requires light.mainLightIndex >= -1
    ensures 0 <= light.mainLightIndex < |light.visibleLights| ==> r == Neg(light.visibleLights[light.mainLightIndex].forward)
    ensures !(0 <= light.mainLightIndex < |light.visibleLights|) && sun.Some? && sun.value.isDirectional
            ==> r == Neg(sun.value.forward)
    ensures !(0 <= light.mainLightIndex < |light.visibleLights|) && !(sun.Some? && sun.value.isDirectional)
            ==> r == Down
  {
    var mainLightIndex := light.mainLightIndex;
    if mainLightIndex != -1 && mainLightIndex < |light.visibleLights| then
      Neg(light.visibleLights[mainLightIndex].forward)
    else if sun.Some? && sun.value.isDirectional then
      Neg(sun.value.forward)
    else
      Down
  }

  /** Recording a pass: nothing without resources or instances, nothing for preview cameras. */
  function RecordRenderGraph(pass: Pass, registryCount: nat, camera: CameraData, light: LightData, sun: Option<SunLight>): (r: Option<PassData>)
    requires light.mainLightIndex >= -1
    ensures r.Some? <==> pass.material.Some? && pass.mesh.Some? && registryCount > 0 && !camera.isPreviewCamera
    ensures r.Some? ==> r.value == PassData(pass.material, pass.mesh, pass.shaderPassIndex, SunDirection(light, sun))
  {
    if pass.material.None? || pass.mesh.None? || registryCount == 0 then None
    else if camera.isPreviewCamera || !(camera.renderType.Base? || camera.renderType.Overlay?) then None
    else Some(PassData(pass.material, pass.mesh, pass.shaderPassIndex, SunDirection(light, sun)))
  }

  /** A recorded pass, run over the list it was recorded for, first sets the chosen sun direction and draws with the pass's index. */
  lemma RecordThenExecute(pass: Pass, slots: seq<Slot>, camera: CameraData, light: LightData, sun: Option<SunLight>)
    requires light.mainLightIndex >= -1
    requires RecordRenderGraph(pass, |slots|, camera, light, sun).Some?
    ensures var cmds := ExecuteCommands(RecordRenderGraph(pass, |slots|, camera, light, sun).value, slots);
      && cmds != []
      && cmds[0] == SetGlobalSunDirection(SunDirection(light, sun))
      && forall k :: 1 <= k < |cmds| ==> WellFormedDraw(cmds[k], pass.shaderPassIndex)
  {
    ExecuteCommandsSpec(RecordRenderGraph(pass, |slots|, camera, light, sun).value, slots);
  }

  // ---------------------------------------------------------------- the feature object

  class AtmosphereFeature {
    var renderPassEvent: RenderPassEvent
    var loadedAtmosphereMesh: Option<Mesh>
    var skyPass: Option<Pass>
    var internalHazePass: Option<Pass>
    var runtimeMaterialInstance: Option<Material>

    constructor ()
      ensures renderPassEvent == BeforeRenderingTransparents
      ensures loadedAtmosphereMesh.None? && skyPass.None? && internalHazePass.None? && runtimeMaterialInstance.None?
    {
      renderPassEvent := BeforeRenderingTransparents;
      loadedAtmosphereMesh, skyPass, internalHazePass, runtimeMaterialInstance := None, None, None, None;
    }

    predicate Disposed()
      reads this
    {
      loadedAtmosphereMesh.None? && skyPass.None? && internalHazePass.None? && runtimeMaterialInstance.None?
    }

    method DisposeInstances()
      modifies this
      ensures Disposed() && renderPassEvent == old(renderPassEvent)
    {
      runtimeMaterialInstance := None;
      skyPass := None;
      internalHazePass := None;
      loadedAtmosphereMesh := None;
    }

    method Dispose()
      modifies this
      ensures Disposed() && renderPassEvent == old(renderPassEvent)
    {
      DisposeInstances();
    }

    /**
     * Loads the mesh, finds the shader and creates the material (their outcomes are
     * the parameters); any failure leaves every resource and pass unset. On success
     * the sky pass uses shader pass 0 and the haze pass shader pass 1.
     */
    method Create(meshResource: Option<Mesh>, shader: Option<Shader>, createdMaterial: Option<Material>)
      modifies this
      ensures renderPassEvent == old(renderPassEvent)
      ensures meshResource.None? || shader.None? || createdMaterial.None? ==> Disposed()
      ensures meshResource.Some? && shader.Some? && createdMaterial.Some? ==>
                && loadedAtmosphereMesh == meshResource
                && runtimeMaterialInstance == createdMaterial
                && skyPass == Some(Pass(createdMaterial, meshResource, SKY_PASS_INDEX, SKY_PROFILER_TAG, renderPassEvent))
                && internalHazePass == Some(Pass(createdMaterial, meshResource, HAZE_PASS_INDEX, HAZE_PROFILER_TAG, renderPassEvent))
    {
      DisposeInstances();
      loadedAtmosphereMesh := meshResource;
      if loadedAtmosphereMesh.None? {
        DisposeInstances();
        return;
      }
      if shader.None? {
        DisposeInstances();
        return;
      }
      runtimeMaterialInstance := createdMaterial;
      if runtimeMaterialInstance.None? {
        DisposeInstances();
        return;
      }
      skyPass := Some(Pass(runtimeMaterialInstance, loadedAtmosphereMesh, SKY_PASS_INDEX, SKY_PROFILER_TAG, renderPassEvent));
      internalHazePass := Some(Pass(runtimeMaterialInstance, loadedAtmosphereMesh, HAZE_PASS_INDEX, HAZE_PROFILER_TAG, renderPassEvent));
    }

    /** The passes enqueued for a camera at `cameraPos`, in order. */
    method AddRenderPasses(cameraPos: Vector3, registry: Registry) returns (enqueued: seq<Pass>)
      ensures enqueued == EnqueuedPasses(runtimeMaterialInstance, loadedAtmosphereMesh, skyPass, internalHazePass,
                                         cameraPos, Snapshot(registry.items))
    {
      var items := registry.items;
      ghost var slots := Snapshot(items);
      if runtimeMaterialInstance.None? || loadedAtmosphereMesh.None? || |items| == 0 {
        return [];
      }
      if skyPass.Some? {
        enqueued := [skyPass.value];
      } else {
        return [];
      }
      var cameraIsInsideAnyAtmosphere := false;
      var i := 0;
      while i < |items|
        invariant 0 <= i <= |items|
        invariant cameraIsInsideAnyAtmosphere ==> CameraInsideAny(slots, cameraPos)
        invariant !cameraIsInsideAnyAtmosphere ==> forall j :: 0 <= j < i ==> !CameraInside(slots[j], cameraPos)
      {
        var atmosphere := items[i];
        if atmosphere != null && atmosphere.IsActiveAndEnabled() && atmosphere.currentSettings != null {
          var distSq := SqrMagnitude(Sub(cameraPos, atmosphere.position));
          var atmosphereRadiusSq := atmosphere.scaledAtmosphereRadius * atmosphere.scaledAtmosphereRadius;
          if distSq < atmosphereRadiusSq {
            assert CameraInside(slots[i], cameraPos);
            cameraIsInsideAnyAtmosphere := true;
            break;
          }
        }
        i := i + 1;
      }
      if cameraIsInsideAnyAtmosphere {
        if internalHazePass.Some? {
          enqueued := enqueued + [internalHazePass.value];
        }
      }
    }
  }
}
