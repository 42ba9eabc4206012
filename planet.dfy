/**
 * Planet atmosphere instances and the process-wide list of active instances
 * that the renderer feature walks every frame. A list entry that is `null`
 * stands for a Unity object that has been destroyed while still listed.
 */
module Planet {
  import opened Engine
  import opened Profile

  predicate NoDuplicates<T(==)>(s: seq<T>) {
    forall i, j :: 0 <= i < j < |s| ==> s[i] != s[j]
  }

  /** `List.Remove`: the first occurrence of `x` is taken out, if there is one. */
  function RemoveFirst<T(==)>(s: seq<T>, x: T): (r: seq<T>)
    ensures x !in s ==> r == s
    ensures |r| == if x in s then |s| - 1 else |s|
  {
    if |s| == 0 then []
    else if s[0] == x then
      assert s == [s[0]] + s[1..];
      s[1..]
    else
      var rest := RemoveFirst(s[1..], x);
      assert s == [s[0]] + s[1..];
      [s[0]] + rest
  }

  /** `Remove` keeps every other entry and introduces none. */
  lemma {:induction false} RemoveFirstMembers<T>(s: seq<T>, x: T, y: T)
    ensures y in RemoveFirst(s, x) ==> y in s
    ensures y != x ==> (y in RemoveFirst(s, x) <==> y in s)
  {
    if |s| > 0 && s[0] != x {
      RemoveFirstMembers(s[1..], x, y);
      assert s == [s[0]] + s[1..];
    }
  }

  /** `Remove` takes exactly one copy of `x` out of the list's multiset of entries, when there is one. */
  lemma {:induction false} RemoveFirstMultiset<T>(s: seq<T>, x: T)
    ensures multiset(RemoveFirst(s, x)) == multiset(s) - multiset{x}
  {
    if |s| > 0 {
      assert s == [s[0]] + s[1..];
      if s[0] != x {
        RemoveFirstMultiset(s[1..], x);
      }
    }
  }

  /** The entries of `s` other than `x`, in their order: what "nothing else changes" means for the list. */
  function Without<T(==)>(s: seq<T>, x: T): (r: seq<T>)
    ensures x !in r
  {
    if |s| == 0 then []
    else
      assert s == [s[0]] + s[1..];
      (if s[0] == x then [] else [s[0]]) + Without(s[1..], x)
  }

  lemma {:induction false} WithoutConcat<T>(a: seq<T>, b: seq<T>, x: T)
    ensures Without(a + b, x) == Without(a, x) + Without(b, x)
  {
    if |a| == 0 {
      assert a + b == b;
    } else {
      assert (a + b)[1..] == a[1..] + b;
      WithoutConcat(a[1..], b, x);
    }
  }

  lemma {:induction false} RemoveFirstAt<T>(s: seq<T>, x: T, i: int)
    requires 0 <= i < |s| && s[i] == x && x !in s[..i]
    ensures RemoveFirst(s, x) == s[..i] + s[i + 1..]
  {
    if i > 0 {
      assert s[1..][..i - 1] == s[1..i];
      assert x !in s[1..][..i - 1];
      RemoveFirstAt(s[1..], x, i - 1);
      assert s[1..][i..] == s[i + 1..];
      assert s[..i] == [s[0]] + s[1..i];
    }
  }

  /** Removing `x` does not reorder, add or drop any other entry. */
  lemma {:induction false} WithoutRemoveFirst<T>(s: seq<T>, x: T)
    ensures Without(RemoveFirst(s, x), x) == Without(s, x)
  {
    if |s| > 0 && s[0] != x {
      WithoutRemoveFirst(s[1..], x);
      WithoutConcat([s[0]], RemoveFirst(s[1..], x), x);
    }
  }

  lemma WithoutAppend<T>(s: seq<T>, x: T)
    ensures Without(s + [x], x) == Without(s, x)
  {
    WithoutConcat(s, [x], x);
    assert Without([x], x) == [];
  }

  /** In a list without duplicates, `Remove` takes out every occurrence and keeps the list duplicate-free. */
  lemma {:induction false} RemoveFirstNoDuplicates<T>(s: seq<T>, x: T)
    requires NoDuplicates(s)
    ensures NoDuplicates(RemoveFirst(s, x))
    ensures x !in RemoveFirst(s, x)
  {
    if |s| > 0 {
      assert NoDuplicates(s[1..]);
      if s[0] == x {
        assert forall j :: 1 <= j < |s| ==> s[j] != s[0];
      } else {
        RemoveFirstNoDuplicates(s[1..], x);
        assert s[0] !in s[1..];
        RemoveFirstMembers(s[1..], x, s[0]);
      }
    }
  }

  /** What `List.Remove` keeps: no duplicates, none of `x`, the others in order. */
  lemma RemoveFirstFacts<T>(s: seq<T>, x: T)
    ensures NoDuplicates(s) ==> NoDuplicates(RemoveFirst(s, x)) && x !in RemoveFirst(s, x)
    ensures Without(RemoveFirst(s, x), x) == Without(s, x)
  {
    if NoDuplicates(s) {
      RemoveFirstNoDuplicates(s, x);
    }
    WithoutRemoveFirst(s, x);
  }

  lemma AppendNoDuplicates<T>(s: seq<T>, x: T)
    requires NoDuplicates(s) && x !in s
    ensures NoDuplicates(s + [x])
  {
  }

  /** The registration step of `UpdateDerivedSettings`: add when enabled and absent, remove when disabled and present. */
  function Registered<T(==)>(s: seq<T>, x: T, enabled: bool): seq<T> {
    if enabled && x !in s then s + [x]
    else if !enabled && x in s then RemoveFirst(s, x)
    else s
  }

  lemma RegisteredSpec<T>(s: seq<T>, x: T, enabled: bool)
    requires NoDuplicates(s)
    ensures NoDuplicates(Registered(s, x, enabled))
    ensures x in Registered(s, x, enabled) <==> enabled
    ensures Without(Registered(s, x, enabled), x) == Without(s, x)
  {
    if enabled && x !in s {
      AppendNoDuplicates(s, x);
      WithoutAppend(s, x);
    } else if !enabled && x in s {
      RemoveFirstNoDuplicates(s, x);
      WithoutRemoveFirst(s, x);
    }
  }

  /** Mean of the absolute lossy-scale components, floored at zero. */
  function AverageScale(s: Vector3): (r: real)
    ensures r >= 0.0
    ensures 3.0 * r == Abs(s.x) + Abs(s.y) + Abs(s.z)
  {
    Max(0.0, (Abs(s.x) + Abs(s.y) + Abs(s.z)) / 3.0)
  }

  /** A uniform scale `k` on all three axes averages to `|k|`; mirroring an axis does not change the average. */
  lemma AverageScaleUniform(k: real)
    ensures AverageScale(Vector3(k, k, k)) == Abs(k)
    ensures AverageScale(Vector3(-k, k, k)) == Abs(k)
  {
  }

  datatype Radii = Radii(planet: real, atmosphere: real)

  /** The scaled planet and outer (physical) radii computed from settings `v` at average scale `avg`. */
  function ScaledRadii(v: SettingsValue, avg: real): Radii {
    var planet := v.planetRadius * avg;
    Radii(planet, planet + v.atmosphereHeight * avg)
  }

  /** With clamped dimensions and a non-negative scale the radii are ordered. */
  lemma ScaledRadiiOrdered(v: SettingsValue, avg: real)
    requires v.planetRadius >= 0.1 && v.atmosphereHeight >= 0.0 && avg >= 0.0
    ensures 0.0 <= ScaledRadii(v, avg).planet <= ScaledRadii(v, avg).atmosphere
  {
    MulNonNegative(v.planetRadius, avg);
    MulNonNegative(v.atmosphereHeight, avg);
  }

  /** Two instances sharing one settings object at average scales `a1` and `a2` have radii in the ratio `a1 : a2`. */
  lemma ScaledRadiiProportional(v: SettingsValue, a1: real, a2: real)
    ensures ScaledRadii(v, a1).planet * a2 == ScaledRadii(v, a2).planet * a1
    ensures ScaledRadii(v, a1).atmosphere * a2 == ScaledRadii(v, a2).atmosphere * a1
  {
    assert ScaledRadii(v, a1).atmosphere * a2 == (v.planetRadius + v.atmosphereHeight) * a1 * a2;
    assert ScaledRadii(v, a2).atmosphere * a1 == (v.planetRadius + v.atmosphereHeight) * a2 * a1;
  }

  /** The radius the visual mesh is scaled to: the outer radius, never below the planet. */
  function VisualRadius(v: SettingsValue, avg: real): real {
    OuterRadius(v.planetRadius, v.atmosphereHeight) * avg
  }

  /** The unscaled outer radius, with a negative height counted as zero. */
  function OuterRadius(planetRadius: real, atmosphereHeight: real): real {
    Max(planetRadius, planetRadius + Max(0.0, atmosphereHeight))
  }

  lemma VisualRadiusAtLeastPlanet(v: SettingsValue, avg: real)
    requires avg >= 0.0
    ensures VisualRadius(v, avg) >= v.planetRadius * avg
  {
    MulNonNegative(OuterRadius(v.planetRadius, v.atmosphereHeight) - v.planetRadius, avg);
  }

  /** Once the height has been clamped, the visual radius is the cached physical outer radius. */
  lemma VisualRadiusIsOuterRadius(v: SettingsValue, avg: real)
    requires v.atmosphereHeight >= 0.0
    ensures VisualRadius(v, avg) == ScaledRadii(v, avg).atmosphere
  {
  }

  /** The dimension clamp an instance re-applies to the shared settings is a no-op after the profile's own validation. */
  lemma DimensionClampRedundant(v: SettingsValue)
    ensures ClampDimensions(Validated(v)) == Validated(v)
  {
  }

  /** The list of active instances. */
  class Registry {
    var items: seq<PlanetAtmosphere?>

    predicate Valid()
      reads this
    {
      NoDuplicates(items)
    }

    constructor ()
      ensures items == [] && Valid()
    {
      items := [];
    }

    method Add(p: PlanetAtmosphere)
      modifies this
      ensures items == old(items) + [p]
      ensures old(Valid()) && p !in old(items) ==> Valid()
      ensures Without(items, p) == Without(old(items), p)
    {
      items := items + [p];
      WithoutAppend(old(items), p);
    }

    method Remove(p: PlanetAtmosphere)
      modifies this
      ensures items == RemoveFirst(old(items), p)
      ensures old(Valid()) ==> Valid() && p !in items
      ensures Without(items, p) == Without(old(items), p)
    {
      var s := items;
      var i := 0;
      while i < |s| && s[i] != p
        invariant 0 <= i <= |s|
        invariant p !in s[..i]
      {
        i := i + 1;
      }
      if i < |s| {
        RemoveFirstAt(s, p, i);
        items := s[..i] + s[i + 1..];
      } else {
        assert s[..i] == s;
      }
      RemoveFirstFacts(s, p);
    }

    /** Adds `p` when `present` and it is absent, removes it when not `present` and it is listed. */
    method Sync(p: PlanetAtmosphere, present: bool)
      modifies this
      ensures items == Registered(old(items), p, present)
      ensures old(Valid()) ==> Valid() && (p in items <==> present)
      ensures Without(items, p) == Without(old(items), p)
    {
      if present && p !in items {
        Add(p);
      } else if !present && p in items {
        Remove(p);
      }
    }
  }

  /** A planet's atmosphere component, with the transform values it reads. */
  class PlanetAtmosphere {
    const registry: Registry
    var atmosphereProfile: AtmosphereProfile?
    var currentSettings: AtmosphereSettings?
    var scaledPlanetRadius: real
    var scaledAtmosphereRadius: real
    var lastLossyScale: Vector3
    var enabled: bool
    var activeInHierarchy: bool
    var position: Vector3
    var rotation: Quaternion
    var lossyScale: Vector3

    constructor (registry: Registry, profile: AtmosphereProfile?, enabled: bool, lossyScale: Vector3)
      ensures this.registry == registry && atmosphereProfile == profile
      ensures this.enabled == enabled && this.lossyScale == lossyScale
      ensures currentSettings == null && scaledPlanetRadius == 0.0 && scaledAtmosphereRadius == 0.0
      ensures lastLossyScale == Vector3(-1.0, -1.0, -1.0)
    {
      this.registry := registry;
      atmosphereProfile := profile;
      currentSettings := null;
      scaledPlanetRadius, scaledAtmosphereRadius := 0.0, 0.0;
      lastLossyScale := Vector3(-1.0, -1.0, -1.0);
      this.enabled := enabled;
      activeInHierarchy := true;
      position := Vector3(0.0, 0.0, 0.0);
      rotation := Quaternion(0.0, 0.0, 0.0, 1.0);
      this.lossyScale := lossyScale;
    }

    predicate IsActiveAndEnabled()
      reads this
    {
      activeInHierarchy && enabled
    }

    /** The profile is assigned and has a settings object. */
    predicate ProfileValid()
      reads this, atmosphereProfile
    {
      atmosphereProfile != null && atmosphereProfile.settings != null
    }

    /** The shared settings object that `UpdateDerivedSettings` may clamp. */
    function SettingsFrame(): set<object>
      reads this, atmosphereProfile
    {
      if ProfileValid() then {atmosphereProfile.settings} else {}
    }

    /** The state `UpdateDerivedSettings` leaves behind, relative to the state it started in. */
    twostate predicate DerivedSettingsUpdated(valid: bool)
      reads this, registry, atmosphereProfile, currentSettings
    {
      && atmosphereProfile == old(atmosphereProfile)
      && valid == old(ProfileValid())
      && lastLossyScale == lossyScale
      && (valid ==>
            && currentSettings == atmosphereProfile.settings
            && currentSettings != null
            && currentSettings.Value() == ClampDimensions(old(atmosphereProfile.settings.Value()))
            && Radii(scaledPlanetRadius, scaledAtmosphereRadius) == ScaledRadii(currentSettings.Value(), AverageScale(lossyScale))
            && registry.items == Registered(old(registry.items), this, enabled))
      && (!valid ==>
            && currentSettings == null
            && scaledPlanetRadius == 0.0 && scaledAtmosphereRadius == 0.0
            && registry.items == if old(currentSettings) != null then RemoveFirst(old(registry.items), this) else old(registry.items))
    }

    /**
     * Re-reads the profile: on a valid profile the shared dimensions are clamped, the
     * scaled radii recomputed and the registration synchronised with `enabled`; on an
     * invalid one the caches are cleared and the instance is delisted if it had settings.
     */
    method UpdateDerivedSettings() returns (valid: bool)
      modifies this`currentSettings, this`scaledPlanetRadius, this`scaledAtmosphereRadius, this`lastLossyScale
      modifies registry, SettingsFrame()
      ensures DerivedSettingsUpdated(valid)
      ensures valid ==> 0.0 <= scaledPlanetRadius <= scaledAtmosphereRadius
      ensures old(registry.Valid()) ==> registry.Valid()
      ensures old(registry.Valid()) && valid ==> (this in registry.items <==> enabled)
      ensures Without(registry.items, this) == Without(old(registry.items), this)
    {
      var profileChanged := true;
      var currentLossyScale := lossyScale;
      var scaleChanged := SqrMagnitude(Sub(currentLossyScale, lastLossyScale)) > 0.000001;
      var hadValidSettingsBefore := currentSettings != null;

      if atmosphereProfile == null || atmosphereProfile.settings == null {
        if hadValidSettingsBefore && this in registry.items {
          registry.Remove(this);
        }
        currentSettings := null;
        lastLossyScale := currentLossyScale;
        scaledPlanetRadius, scaledAtmosphereRadius := 0.0, 0.0;
        return false;
      }

      currentSettings := atmosphereProfile.settings;
      if profileChanged || scaleChanged || !hadValidSettingsBefore {
        RecomputeRadii(currentSettings);
        lastLossyScale := currentLossyScale;
      }
      registry.Sync(this, enabled);
      return true;
    }

    /** The valid path's recomputation: clamp the shared dimensions, then scale them by the average scale. */
    method RecomputeRadii(settings: AtmosphereSettings)
      modifies this`scaledPlanetRadius, this`scaledAtmosphereRadius, settings
      ensures settings.Value() == ClampDimensions(old(settings.Value()))
      ensures Radii(scaledPlanetRadius, scaledAtmosphereRadius) == ScaledRadii(settings.Value(), AverageScale(lossyScale))
      ensures 0.0 <= scaledPlanetRadius <= scaledAtmosphereRadius
    {
      var avgWorldScale := AverageScale(lossyScale);
      settings.planetRadius := Max(0.1, settings.planetRadius);
      settings.atmosphereHeight := Max(0.0, settings.atmosphereHeight);
      scaledPlanetRadius := settings.planetRadius * avgWorldScale;
      scaledAtmosphereRadius := scaledPlanetRadius + settings.atmosphereHeight * avgWorldScale;
      ScaledRadiiOrdered(settings.Value(), avgWorldScale);
    }

    /** Forces a refresh on enable: the scale cache is invalidated, then the derived settings are recomputed. */
    method OnEnable()
      modifies this`currentSettings, this`scaledPlanetRadius, this`scaledAtmosphereRadius, this`lastLossyScale
      modifies registry, SettingsFrame()
      ensures DerivedSettingsUpdated(old(ProfileValid()))
      ensures old(registry.Valid()) ==> registry.Valid()
      ensures old(registry.Valid()) && old(ProfileValid()) ==> (this in registry.items <==> enabled)
      ensures Without(registry.items, this) == Without(old(registry.items), this)
    {
      lastLossyScale := Vector3(-999.0, -999.0, -999.0);
      var _ := UpdateDerivedSettings();
    }

    /** Delists the instance and drops its settings cache. */
    method OnDisable()
      modifies this`currentSettings, this`lastLossyScale, registry
      ensures registry.items == RemoveFirst(old(registry.items), this)
      ensures currentSettings == null && lastLossyScale == Vector3(-1.0, -1.0, -1.0)
      ensures old(registry.Valid()) ==> registry.Valid() && this !in registry.items
      ensures Without(registry.items, this) == Without(old(registry.items), this)
    {
      registry.Remove(this);
      currentSettings := null;
      lastLossyScale := Vector3(-1.0, -1.0, -1.0);
    }

    /** Refreshes, then makes membership agree with "enabled and the profile is valid". */
    method OnValidate()
      modifies this`currentSettings, this`scaledPlanetRadius, this`scaledAtmosphereRadius, this`lastLossyScale
      modifies registry, SettingsFrame()
      ensures old(registry.Valid()) ==> registry.Valid()
      ensures old(registry.Valid()) ==> (this in registry.items <==> enabled && old(ProfileValid()))
      ensures Without(registry.items, this) == Without(old(registry.items), this)
      ensures old(ProfileValid()) ==> currentSettings == old(atmosphereProfile.settings)
      ensures !old(ProfileValid()) ==> currentSettings == null && scaledPlanetRadius == 0.0 && scaledAtmosphereRadius == 0.0
      ensures old(ProfileValid()) ==>
                && currentSettings != null
                && currentSettings.Value() == ClampDimensions(old(atmosphereProfile.settings.Value()))
                && Radii(scaledPlanetRadius, scaledAtmosphereRadius) == ScaledRadii(currentSettings.Value(), AverageScale(lossyScale))
                && 0.0 <= scaledPlanetRadius <= scaledAtmosphereRadius
      ensures lastLossyScale == lossyScale
    {
      var isValidNow := UpdateDerivedSettings();
      // enabled: add when valid and absent, remove when invalid and present; disabled: remove when present
      registry.Sync(this, enabled && isValidNow);
    }

    /**
     * The radius of the visual mesh. Without cached settings it first tries a refresh
     * (when a profile is assigned) and returns 0 if there are still none.
     */
    method GetScaledVisualAtmosphereRadius() returns (r: real)
      modifies this`currentSettings, this`scaledPlanetRadius, this`scaledAtmosphereRadius, this`lastLossyScale
      modifies registry, SettingsFrame()
      ensures currentSettings == null ==> r == 0.0
      ensures currentSettings != null ==> r == VisualRadius(currentSettings.Value(), AverageScale(lossyScale))
      ensures currentSettings != null ==> r >= currentSettings.planetRadius * AverageScale(lossyScale)
      ensures old(currentSettings) != null ==>
                unchanged(this, registry) && currentSettings.Value() == old(currentSettings.Value())
      ensures currentSettings == null <==> old(currentSettings) == null && !old(ProfileValid())
      ensures old(currentSettings) == null && old(ProfileValid()) ==> DerivedSettingsUpdated(true)
      ensures old(currentSettings) == null && !old(ProfileValid()) ==>
                if old(atmosphereProfile) == null then unchanged(this, registry) else DerivedSettingsUpdated(false)
      ensures old(registry.Valid()) ==> registry.Valid()
      ensures Without(registry.items, this) == Without(old(registry.items), this)
    {
      var avgWorldScale := AverageScale(lossyScale);
      if currentSettings == null {
        if atmosphereProfile != null {
          var _ := UpdateDerivedSettings();
        }
        if currentSettings == null {
          return 0.0;
        }
      }
      var settings := currentSettings;
      // the height is floored at zero and the outer radius at the planet radius
      var unscaledPhysicalOuterRadius := OuterRadius(settings.planetRadius, settings.atmosphereHeight);
      r := unscaledPhysicalOuterRadius * avgWorldScale;
      assert avgWorldScale == AverageScale(lossyScale);
      assert r == VisualRadius(settings.Value(), avgWorldScale);
      VisualRadiusAtLeastPlanet(settings.Value(), avgWorldScale);
    }
  }
}
