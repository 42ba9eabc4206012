/**
 * The planet component's inspector: a cached check that the active render
 * pipeline's first renderer carries the atmosphere feature, and the embedded
 * profile inspector it keeps only while the assigned profile is usable and the
 * feature is present.
 */
module Inspector {
  import opened Engine
  import opened Profile
  import opened ProfileEditor

  /** The kinds of renderer feature the check tells apart. */
  datatype FeatureKind = AtmosphereFeatureKind | OtherFeatureKind

  /** A renderer asset; a `None` entry is a feature slot whose object is missing. */
  class RendererData {
    var rendererFeatures: seq<Option<FeatureKind>>

    constructor (features: seq<Option<FeatureKind>>)
      ensures rendererFeatures == features
    {
      rendererFeatures := features;
    }
  }

  /**
   * A render pipeline asset. Only a Universal one has a renderer list, and that
   * list may itself be missing (`None`) or hold missing entries (`null`).
   */
  class PipelineAsset {
    const isUniversal: bool
    var rendererDataList: Option<seq<RendererData?>>

    constructor (isUniversal: bool, rendererDataList: Option<seq<RendererData?>>)
      ensures this.isUniversal == isUniversal && this.rendererDataList == rendererDataList
    {
      this.isUniversal := isUniversal;
      this.rendererDataList := rendererDataList;
    }
  }

  /** The first renderer of a Universal pipeline, when the list has one; `null` otherwise. */
  function GetActiveRendererData(activePipeline: PipelineAsset?): (r: RendererData?)
    reads activePipeline
    ensures r != null <==>
              && activePipeline != null && activePipeline.isUniversal
              && activePipeline.rendererDataList.Some?
              && |activePipeline.rendererDataList.value| > 0
              && activePipeline.rendererDataList.value[0] != null
    ensures r != null ==> r == activePipeline.rendererDataList.value[0]
  {
    if activePipeline != null && activePipeline.isUniversal then
      match activePipeline.rendererDataList
      case Some(list) => if |list| > 0 then list[0] else null
      case None => null
    else
      null
  }

  /** Whether some present feature of the list is the atmosphere feature. */
  predicate HasAtmosphereFeature(features: seq<Option<FeatureKind>>) {
    exists i :: 0 <= i < |features| && features[i] == Some(AtmosphereFeatureKind)
  }

  /**
   * The tri-state answer of the feature check: unknown without a Universal
   * pipeline or a renderer, otherwise whether the renderer has the feature.
   */
  ghost function FeatureStatus(activePipeline: PipelineAsset?, rendererData: RendererData?): Option<bool>
    reads rendererData
  {
    if activePipeline == null || !activePipeline.isUniversal || rendererData == null then None
    else Some(HasAtmosphereFeature(rendererData.rendererFeatures))
  }

  /** A linear search over the renderer's features that stops at the first atmosphere feature. */
  method CheckFeature(activePipeline: PipelineAsset?, rendererData: RendererData?) returns (r: Option<bool>)
    ensures r == FeatureStatus(activePipeline, rendererData)
    ensures r.None? <==> activePipeline == null || !activePipeline.isUniversal || rendererData == null
    ensures r == Some(true) <==>
              && r.Some? && rendererData != null
              && exists i :: 0 <= i < |rendererData.rendererFeatures| &&
                             rendererData.rendererFeatures[i] == Some(AtmosphereFeatureKind)
  {
    if activePipeline == null || !activePipeline.isUniversal || rendererData == null {
      return None;
    }
    var features := rendererData.rendererFeatures;
    for i := 0 to |features|
      invariant forall k :: 0 <= k < i ==> features[k] != Some(AtmosphereFeatureKind)
    {
      var feature := features[i];
      if feature.Some? && feature.value == AtmosphereFeatureKind {
        return Some(true);
      }
    }
    return Some(false);
  }

  /** Whenever a renderer is found the check gives a definite answer, and only then. */
  lemma FeatureStatusKnownIffRenderer(activePipeline: PipelineAsset?)
    ensures FeatureStatus(activePipeline, GetActiveRendererData(activePipeline)).Some?
            <==> GetActiveRendererData(activePipeline) != null
  {
  }

  /**
   * The feature-check cache shared by every planet inspector: the last answer,
   * the pipeline and renderer it was computed for and the frame it was computed in.
   */
  class FeatureCache {
    var isFeatureAddedCache: Option<bool>
    var checkedPipelineAsset: PipelineAsset?
    var checkedRendererData: RendererData?
    var lastCheckFrame: int

    constructor ()
      ensures isFeatureAddedCache == None && checkedPipelineAsset == null && checkedRendererData == null
      ensures lastCheckFrame == -1
    {
      isFeatureAddedCache := None;
      checkedPipelineAsset, checkedRendererData := null, null;
      lastCheckFrame := -1;
    }

    /** The cached answer is stale for this frame, pipeline and renderer. */
    predicate NeedsRefresh(frame: nat, activePipeline: PipelineAsset?, rendererData: RendererData?)
      reads this
    {
      frame != lastCheckFrame || activePipeline != checkedPipelineAsset || rendererData != checkedRendererData
    }

    /** Forgets the cached answer, so that the next check in any frame recomputes it. */
    method Invalidate()
      modifies this
      ensures lastCheckFrame == -1 && isFeatureAddedCache == None
      ensures checkedPipelineAsset == null && checkedRendererData == null
      ensures forall frame: nat, p, d :: NeedsRefresh(frame, p, d)
    {
      lastCheckFrame := -1;
      isFeatureAddedCache := None;
      checkedPipelineAsset := null;
      checkedRendererData := null;
    }

    /**
     * Recomputes the answer when it is stale; afterwards it is fresh for this
     * frame, pipeline and renderer. A fresh answer is kept as it is.
     */
    method Refresh(frame: nat, activePipeline: PipelineAsset?, rendererData: RendererData?)
      modifies this
      ensures !NeedsRefresh(frame, activePipeline, rendererData)
      ensures old(NeedsRefresh(frame, activePipeline, rendererData)) ==>
                isFeatureAddedCache == FeatureStatus(activePipeline, rendererData)
      ensures !old(NeedsRefresh(frame, activePipeline, rendererData)) ==> unchanged(this)
    {
      if frame != lastCheckFrame || activePipeline != checkedPipelineAsset || rendererData != checkedRendererData {
        isFeatureAddedCache := CheckFeature(activePipeline, rendererData);
        checkedPipelineAsset := activePipeline;
        checkedRendererData := rendererData;
        lastCheckFrame := frame;
      }
    }
  }

  /** The inspector of one planet atmosphere component. */
  class AtmosphereEditor {
    /** The cache is static in the inspector class, so every inspector shares one. */
    const cache: FeatureCache
    /** Whether the component's `atmosphereProfile` property was found when the inspector was enabled. */
    var profilePropertyFound: bool
    var profileEditor: AtmosphereProfileEditor?
    var currentProfile: AtmosphereProfile?

    constructor (cache: FeatureCache)
      ensures this.cache == cache
      ensures !profilePropertyFound && profileEditor == null && currentProfile == null
    {
      this.cache := cache;
      profilePropertyFound := false;
      profileEditor := null;
      currentProfile := null;
    }

    /** An embedded inspector is held exactly when a current profile is tracked. */
    predicate Valid()
      reads this
    {
      (profileEditor == null) == (currentProfile == null)
    }

    /**
     * Looks the profile property up (`None`: not found) and embeds an inspector
     * for its profile when that profile has settings; a previous embedded
     * inspector is dropped. The feature cache is invalidated in every case.
     */
    method OnEnable(profileProperty: Option<AtmosphereProfile?>)
      modifies this, cache
      modifies if profileProperty.Some? && profileProperty.value != null && profileProperty.value.settings != null
               then {profileProperty.value.settings} else {}
      ensures profilePropertyFound == profileProperty.Some?
      ensures profileProperty.None? ==> profileEditor == null && currentProfile == old(currentProfile)
      ensures profileProperty.Some? ==> Valid()
      ensures profileProperty.Some? && (profileProperty.value == null || profileProperty.value.settings == null) ==>
                profileEditor == null && currentProfile == null
      ensures profileProperty.Some? && profileProperty.value != null && profileProperty.value.settings != null ==>
                && currentProfile == profileProperty.value
                && profileEditor != null && fresh(profileEditor)
                && profileEditor.profile == currentProfile
                && profileEditor.Plotted(GraphParamsOf(currentProfile.settings.Value()))
      ensures profileProperty.Some? && profileProperty.value != null && profileProperty.value.settings != null ==>
                profileProperty.value.settings.Value() == WithInternalFactors(old(profileProperty.value.settings.Value()))
      ensures cache.lastCheckFrame == -1 && cache.isFeatureAddedCache == None
      ensures cache.checkedPipelineAsset == null && cache.checkedRendererData == null
    {
      profilePropertyFound := profileProperty.Some?;
      profileEditor := null;
      if profileProperty.Some? {
        currentProfile := profileProperty.value;
        if currentProfile != null && currentProfile.settings != null {
          var e := new AtmosphereProfileEditor();
          e.OnEnable(currentProfile);
          profileEditor := e;
        } else {
          currentProfile := null;
        }
      }
      cache.Invalidate();
    }

    /** Releases a held embedded inspector together with the profile it was tracking. */
    method OnDisable()
      modifies this`profileEditor, this`currentProfile
      ensures profileEditor == null
      ensures old(profileEditor) != null ==> currentProfile == null
      ensures old(profileEditor) == null ==> currentProfile == old(currentProfile)
      ensures Valid() <== old(Valid())
    {
      ReleaseProfileEditor();
    }

    /** Drops the embedded inspector and the tracked profile, if an inspector is held. */
    method ReleaseProfileEditor()
      modifies this`profileEditor, this`currentProfile
      ensures profileEditor == null
      ensures currentProfile == if old(profileEditor) != null then null else old(currentProfile)
    {
      if profileEditor != null {
        profileEditor := null;
        currentProfile := null;
      }
    }

    /**
     * Makes sure an embedded inspector for `profileAsset` is held: one is
     * created when none is held or the tracked profile differs, and then only
     * if the profile has settings; otherwise inspector and profile are cleared.
     */
    method EmbedProfileEditor(profileAsset: AtmosphereProfile?)
      modifies this`profileEditor, this`currentProfile
      modifies if profileAsset != null && profileAsset.settings != null then {profileAsset.settings} else {}
      ensures old(profileEditor) != null && old(currentProfile) == profileAsset ==>
                profileEditor == old(profileEditor) && currentProfile == old(currentProfile)
      ensures (old(profileEditor) == null || old(currentProfile) != profileAsset) &&
              profileAsset != null && profileAsset.settings != null ==>
                && currentProfile == profileAsset
                && profileEditor != null && fresh(profileEditor)
                && profileEditor.profile == profileAsset
                && profileEditor.Plotted(GraphParamsOf(profileAsset.settings.Value()))
      ensures (old(profileEditor) == null || old(currentProfile) != profileAsset) &&
              (profileAsset == null || profileAsset.settings == null) ==>
                profileEditor == null && currentProfile == null
      ensures profileAsset != null && profileAsset.settings != null ==>
                profileAsset.settings.Value() ==
                  if old(profileEditor) != null && old(currentProfile) == profileAsset
                  then old(profileAsset.settings.Value())
                  else WithInternalFactors(old(profileAsset.settings.Value()))
    {
      var profileChanged := currentProfile != profileAsset;
      if profileEditor == null || profileChanged {
        if profileAsset != null && profileAsset.settings != null {
          var e := new AtmosphereProfileEditor();
          e.OnEnable(profileAsset);
          profileEditor := e;
          currentProfile := profileAsset;
        } else {
          profileEditor := null;
          currentProfile := null;
        }
      }
    }

    /**
     * One inspector repaint in frame `frame`, with `activePipeline` the project's
     * current pipeline and `profileAsset` the profile assigned in the property
     * field. Refreshes the feature cache, then keeps an embedded inspector only
     * for a profile with settings while the feature is known to be present.
     */
    method OnInspectorGUI(frame: nat, activePipeline: PipelineAsset?, profileAsset: AtmosphereProfile?)
      modifies this`profileEditor, this`currentProfile, cache
      modifies if profileAsset != null && profileAsset.settings != null then {profileAsset.settings} else {}
      ensures !profilePropertyFound ==> unchanged(this, cache)
      ensures profilePropertyFound ==>
                && !cache.NeedsRefresh(frame, activePipeline, GetActiveRendererData(activePipeline))
                && (old(cache.NeedsRefresh(frame, activePipeline, GetActiveRendererData(activePipeline))) ==>
                      cache.isFeatureAddedCache == FeatureStatus(activePipeline, GetActiveRendererData(activePipeline)))
      ensures profilePropertyFound && (profileAsset == null || profileAsset.settings == null) ==>
                && profileEditor == null
                && currentProfile == if old(profileEditor) != null then null else old(currentProfile)
      ensures profilePropertyFound && profileAsset != null && profileAsset.settings != null &&
              cache.isFeatureAddedCache == Some(true) ==>
                && currentProfile == profileAsset && profileEditor != null
                && (old(profileEditor) != null && old(currentProfile) == profileAsset ==>
                      profileEditor == old(profileEditor))
                && (old(profileEditor) == null || old(currentProfile) != profileAsset ==>
                      && fresh(profileEditor) && profileEditor.profile == profileAsset
                      && profileEditor.Plotted(GraphParamsOf(profileAsset.settings.Value())))
      ensures profilePropertyFound && profileAsset != null && profileAsset.settings != null &&
              cache.isFeatureAddedCache != Some(true) ==>
                && profileEditor == null
                && currentProfile == if old(profileEditor) != null then null else old(currentProfile)
      ensures profilePropertyFound && !old(cache.NeedsRefresh(frame, activePipeline, GetActiveRendererData(activePipeline))) ==>
                unchanged(cache)
      ensures profileAsset != null && profileAsset.settings != null ==>
                profileAsset.settings.Value() ==
                  if && profilePropertyFound && cache.isFeatureAddedCache == Some(true)
                     && (old(profileEditor) == null || old(currentProfile) != profileAsset)
                  then WithInternalFactors(old(profileAsset.settings.Value()))
                  else old(profileAsset.settings.Value())
      ensures Valid() <== old(Valid())
    {
      if !profilePropertyFound {
        return;
      }
      var activeRendererData := GetActiveRendererData(activePipeline);
      cache.Refresh(frame, activePipeline, activeRendererData);

      var isProfileValid := profileAsset != null && profileAsset.settings != null;
      if !isProfileValid {
        ReleaseProfileEditor();
      } else if cache.isFeatureAddedCache == Some(true) {
        EmbedProfileEditor(profileAsset);
      } else {
        ReleaseProfileEditor();
      }
    }
  }
}
