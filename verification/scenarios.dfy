/**
 * Concrete frames whose whole pass sequence is known in advance.
 */
module Scenarios {
  import opened Frames
  import opened RenderTargets
  import opened Passes
  import opened Decisions
  import opened Sequencer

  const NoProviders := Providers([], [], [], [], [], [])

  /**
   * Directional shadows only, a skybox camera, no depth or opaque texture,
   * no post-processing, no stereo, rendering straight to the camera target;
   * the remaining flags are free.
   */
  predicate ShadowedSkyboxFrame(f: FrameState)
  {
    && f.renderDirectionalShadows
    && !f.renderLocalShadows
    && !f.requiresScreenSpaceShadowResolve
    && !f.isSceneViewCamera
    && !f.requiresDepthTexture
    && !f.isStereoEnabled
    && !f.intermediateColor.withoutDepthAttachment
    && !f.postProcessEnabled
    && f.clearFlags == Skybox
    && !f.requiresOpaqueTexture
    && !f.isOffscreenRender
  }

  const ShadowedSkyboxPasses := [DirectionalShadow, SetupForwardRendering, CreateRenderTextures, SetupConstants,
                                 OpaqueForward, DrawSkybox, TransparentForward]

  /** With these flags the sequence is exactly the seven passes listed, whatever the handle names. */
  lemma ShadowedSkyboxSequence(f: FrameState, t: HandleTable)
    requires ShadowedSkyboxFrame(f)
    ensures BuildSequence(f, NoProviders, t) == ShadowedSkyboxPasses
  {
    ShadowedSkyboxContents(f, t);
    SequenceSorted(f, NoProviders, t);
    ShadowedSkyboxDetermined(BuildSequence(f, NoProviders, t));
  }

  lemma ShadowedSkyboxDetermined(s: seq<PassKind>)
    requires Sorted(s)
    requires multiset(s) == multiset(ShadowedSkyboxPasses)
    ensures s == ShadowedSkyboxPasses
  {
    ShadowedSkyboxRanks();
    SortedDeterminedByContents(s, ShadowedSkyboxPasses);
  }

  lemma ShadowedSkyboxRanks()
    ensures StrictlySorted(ShadowedSkyboxPasses)
  {
    var e := ShadowedSkyboxPasses;
    forall i | 0 <= i < |e| - 1
      ensures Rank(e[i]) < Rank(e[i + 1])
    {
      assert i == 0 || i == 1 || i == 2 || i == 3 || i == 4 || i == 5;
    }
    StrictlySortedByNeighbours(e);
  }

  lemma ShadowedSkyboxContents(f: FrameState, t: HandleTable)
    requires ShadowedSkyboxFrame(f)
    ensures multiset(BuildSequence(f, NoProviders, t)) == multiset(ShadowedSkyboxPasses)
  {
    forall k
      ensures multiset(BuildSequence(f, NoProviders, t))[k] == multiset(ShadowedSkyboxPasses)[k]
    {
      ShadowedSkyboxCount(f, t, k);
    }
  }

  lemma ShadowedSkyboxCount(f: FrameState, t: HandleTable, k: PassKind)
    requires ShadowedSkyboxFrame(f)
    ensures multiset(BuildSequence(f, NoProviders, t))[k] == multiset(ShadowedSkyboxPasses)[k]
  {
    if k.Extension? {
      NoProviderPasses(f, t, k);
    } else {
      Count(f, NoProviders, t, k);
      ShadowedSkyboxGuards(f, t, k);
    }
  }

  /** Without providers no provider pass occurs. */
  lemma NoProviderPasses(f: FrameState, t: HandleTable, k: PassKind)
    requires k.Extension?
    ensures multiset(BuildSequence(f, NoProviders, t))[k] == 0
  {
    Occurrences(f, NoProviders, t, k);
    SlotStageAt(f, NoProviders, t, k.slot);
    assert NoProviders.Registered(k.slot) == [];
  }

  /** Under these flags the guards admit exactly the seven listed passes. */
  lemma ShadowedSkyboxGuards(f: FrameState, t: HandleTable, k: PassKind)
    requires ShadowedSkyboxFrame(f)
    requires !k.Extension?
    ensures multiset(ShadowedSkyboxPasses)[k] == if Enqueued(f, t, k) then 1 else 0
  {
    if Rank(k) < 5 {
      ShadowGuards(f, t, k);
    } else if Rank(k) < 9 {
      SetupGuards(f, t, k);
    } else if Rank(k) < 15 {
      OpaqueGuards(f, t, k);
    } else if Rank(k) < 19 {
      TransparentGuards(f, t, k);
    } else {
      LateGuards(f, t, k);
    }
  }

  // The five range lemmas below only split the case analysis of
  // `ShadowedSkyboxGuards` into pieces the solver handles cheaply.
  lemma ShadowGuards(f: FrameState, t: HandleTable, k: PassKind)
    requires ShadowedSkyboxFrame(f)
    requires !k.Extension? && Rank(k) < 5
    ensures multiset(ShadowedSkyboxPasses)[k] == if Enqueued(f, t, k) then 1 else 0
  {
  }

  lemma SetupGuards(f: FrameState, t: HandleTable, k: PassKind)
    requires ShadowedSkyboxFrame(f)
    requires !k.Extension? && 5 <= Rank(k) < 9
    ensures multiset(ShadowedSkyboxPasses)[k] == if Enqueued(f, t, k) then 1 else 0
  {
  }

  lemma OpaqueGuards(f: FrameState, t: HandleTable, k: PassKind)
    requires ShadowedSkyboxFrame(f)
    requires !k.Extension? && 9 <= Rank(k) < 15
    ensures multiset(ShadowedSkyboxPasses)[k] == if Enqueued(f, t, k) then 1 else 0
  {
  }

  lemma TransparentGuards(f: FrameState, t: HandleTable, k: PassKind)
    requires ShadowedSkyboxFrame(f)
    requires !k.Extension? && 15 <= Rank(k) < 19
    ensures multiset(ShadowedSkyboxPasses)[k] == if Enqueued(f, t, k) then 1 else 0
  {
    assert !RequiresDepthAttachment(f);
    assert DepthHandle(f, t) == CameraTarget;
  }

  lemma LateGuards(f: FrameState, t: HandleTable, k: PassKind)
    requires ShadowedSkyboxFrame(f)
    requires !k.Extension? && Rank(k) >= 19
    ensures multiset(ShadowedSkyboxPasses)[k] == if Enqueued(f, t, k) then 1 else 0
  {
    assert !RequiresColorAttachment(f);
    assert ColorHandle(f, t) == CameraTarget;
  }

  /**
   * Stereo with a depth texture, a screen-space shadow resolve and opaque-only
   * post effects: the prepass, the resolve, both XR passes and both
   * post-processes join the five unconditional passes.
   */
  lemma StereoPostProcessPresent(f: FrameState, p: Providers, t: HandleTable)
    requires f.isStereoEnabled && f.requiresDepthTexture
    requires f.renderDirectionalShadows && f.requiresScreenSpaceShadowResolve
    requires f.postProcessEnabled && f.hasOpaqueOnlyEffects
    ensures var s := BuildSequence(f, p, t);
      && DepthOnly in s && ScreenSpaceShadowResolve in s && CreateRenderTextures in s
      && BeginXR in s && OpaqueForward in s && OpaquePostProcess in s
      && TransparentForward in s && TransparentPostProcess in s && EndXR in s
  {
    Present(f, p, t, DepthOnly);
    Present(f, p, t, ScreenSpaceShadowResolve);
    Present(f, p, t, CreateRenderTextures);
    Present(f, p, t, BeginXR);
    Present(f, p, t, OpaqueForward);
    Present(f, p, t, OpaquePostProcess);
    Present(f, p, t, TransparentForward);
    Present(f, p, t, TransparentPostProcess);
    Present(f, p, t, EndXR);
  }

  /**
   * In that frame the prepass precedes the resolve, the resolve precedes the
   * render textures, and each post-process runs before the next stage.
   */
  lemma StereoPostProcessOrder(f: FrameState, p: Providers, t: HandleTable)
    ensures var s := BuildSequence(f, p, t);
      && Precedes(s, DepthOnly, ScreenSpaceShadowResolve)
      && Precedes(s, ScreenSpaceShadowResolve, CreateRenderTextures)
      && Precedes(s, OpaquePostProcess, TransparentForward)
      && Precedes(s, TransparentPostProcess, EndXR)
  {
    SequenceSorted(f, p, t);
    StereoPostProcessOrderIn(BuildSequence(f, p, t));
  }

  /** The stereo post-process order, in any sorted sequence. */
  lemma StereoPostProcessOrderIn(s: seq<PassKind>)
    requires Sorted(s)
    ensures
      && Precedes(s, DepthOnly, ScreenSpaceShadowResolve)
      && Precedes(s, ScreenSpaceShadowResolve, CreateRenderTextures)
      && Precedes(s, OpaquePostProcess, TransparentForward)
      && Precedes(s, TransparentPostProcess, EndXR)
  {
    SortedPrecedes(s, DepthOnly, ScreenSpaceShadowResolve);
    SortedPrecedes(s, ScreenSpaceShadowResolve, CreateRenderTextures);
    SortedPrecedes(s, OpaquePostProcess, TransparentForward);
    SortedPrecedes(s, TransparentPostProcess, EndXR);
  }
}
