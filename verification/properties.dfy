/**
 * Properties of the pass sequence every frame gets: which passes are present
 * under which flags, how often, in what relative order, and where the
 * providers' passes are spliced in.
 */
module SequencerProperties {
  import opened Frames
  import opened RenderTargets
  import opened Passes
  import opened Decisions
  import opened Sequencer

  /** The five unconditional passes occur exactly once each. */
  lemma FixedPassesOnce(f: FrameState, p: Providers, t: HandleTable)
    ensures var s := BuildSequence(f, p, t);
      && multiset(s)[SetupForwardRendering] == 1
      && multiset(s)[CreateRenderTextures] == 1
      && multiset(s)[SetupConstants] == 1
      && multiset(s)[OpaqueForward] == 1
      && multiset(s)[TransparentForward] == 1
  {
    Once(f, p, t, SetupForwardRendering);
    Once(f, p, t, CreateRenderTextures);
    Once(f, p, t, SetupConstants);
    Once(f, p, t, OpaqueForward);
    Once(f, p, t, TransparentForward);
  }

  /** The five unconditional passes come in skeleton order. */
  lemma FixedSkeletonOrder(f: FrameState, p: Providers, t: HandleTable)
    ensures var s := BuildSequence(f, p, t);
      && Precedes(s, SetupForwardRendering, CreateRenderTextures)
      && Precedes(s, CreateRenderTextures, SetupConstants)
      && Precedes(s, SetupConstants, OpaqueForward)
      && Precedes(s, OpaqueForward, TransparentForward)
  {
    SequenceSorted(f, p, t);
    FixedSkeletonOrderIn(BuildSequence(f, p, t));
  }

  /** The skeleton order of the unconditional passes, in any sorted sequence. */
  lemma FixedSkeletonOrderIn(s: seq<PassKind>)
    requires Sorted(s)
    ensures
      && Precedes(s, SetupForwardRendering, CreateRenderTextures)
      && Precedes(s, CreateRenderTextures, SetupConstants)
      && Precedes(s, SetupConstants, OpaqueForward)
      && Precedes(s, OpaqueForward, TransparentForward)
  {
    SortedPrecedes(s, SetupForwardRendering, CreateRenderTextures);
    SortedPrecedes(s, CreateRenderTextures, SetupConstants);
    SortedPrecedes(s, SetupConstants, OpaqueForward);
    SortedPrecedes(s, OpaqueForward, TransparentForward);
  }

  /** No pass of the skeleton is enqueued twice. */
  lemma AtMostOnce(f: FrameState, p: Providers, t: HandleTable, k: PassKind)
    requires !k.Extension?
    ensures multiset(BuildSequence(f, p, t))[k] <= 1
  {
    Count(f, p, t, k);
  }

  /** Stereo forces the depth prepass, whatever the other flags say. */
  lemma StereoForcesDepthPrepass(f: FrameState, p: Providers, t: HandleTable)
    requires f.isStereoEnabled
    ensures DepthOnly in BuildSequence(f, p, t)
  {
    Present(f, p, t, DepthOnly);
  }

  /**
   * The depth prepass and the depth copy exclude each other; with a named depth
   * attachment the copy runs exactly when depth is requested and no prepass ran.
   */
  lemma PrepassOrDepthCopy(f: FrameState, p: Providers, t: HandleTable)
    ensures var s := BuildSequence(f, p, t);
      && (DepthOnly in s <==> RequiresDepthPrepass(f))
      && !(DepthOnly in s && CopyDepth in s)
      && (t.depthAttachment != CameraTarget ==>
            (CopyDepth in s <==> f.requiresDepthTexture && DepthOnly !in s))
  {
    var s := BuildSequence(f, p, t);
    Presence(f, p, t, DepthOnly);
    Presence(f, p, t, CopyDepth);
    assert Enqueued(f, t, DepthOnly) == RequiresDepthPrepass(f);
    assert t.depthAttachment != CameraTarget ==>
      (Enqueued(f, t, CopyDepth) <==> f.requiresDepthTexture && !RequiresDepthPrepass(f));
  }

  /**
   * The transparent post-process and the final blit exclude each other; the
   * post-process runs exactly when post-processing is on, and the blit only
   * when it is off and the render is not offscreen.
   */
  lemma PostProcessOrFinalBlit(f: FrameState, p: Providers, t: HandleTable)
    ensures var s := BuildSequence(f, p, t);
      && !(TransparentPostProcess in s && FinalBlit in s)
      && (TransparentPostProcess in s <==> f.postProcessEnabled)
      && (FinalBlit in s ==> !f.postProcessEnabled && !f.isOffscreenRender)
  {
    var s := BuildSequence(f, p, t);
    Presence(f, p, t, TransparentPostProcess);
    Presence(f, p, t, FinalBlit);
    assert FinalBlit in s ==> Enqueued(f, t, FinalBlit);
  }

  /**
   * With a named colour texture, the final blit runs exactly when
   * post-processing is off, the render is not offscreen and colour went to the
   * intermediate texture.
   */
  lemma FinalBlitGuard(f: FrameState, p: Providers, t: HandleTable)
    requires t.color != CameraTarget
    ensures FinalBlit in BuildSequence(f, p, t) <==>
      !f.postProcessEnabled && !f.isOffscreenRender && RequiresColorAttachment(f)
  {
    Presence(f, p, t, FinalBlit);
  }

  /** The XR passes come as a pair, exactly in stereo. */
  lemma XRPaired(f: FrameState, p: Providers, t: HandleTable)
    ensures var s := BuildSequence(f, p, t);
      && (BeginXR in s <==> f.isStereoEnabled)
      && (EndXR in s <==> f.isStereoEnabled)
      && multiset(s)[BeginXR] == multiset(s)[EndXR]
  {
    var s := BuildSequence(f, p, t);
    Count(f, p, t, BeginXR);
    Count(f, p, t, EndXR);
    assert Enqueued(f, t, BeginXR) == Enqueued(f, t, EndXR) == f.isStereoEnabled;
  }

  /**
   * The XR passes bracket the frame: the begin pass after the render textures
   * and before the opaque pass, the end pass after the transparent pass.
   */
  lemma XROrder(f: FrameState, p: Providers, t: HandleTable)
    ensures var s := BuildSequence(f, p, t);
      && Precedes(s, CreateRenderTextures, BeginXR)
      && Precedes(s, BeginXR, OpaqueForward)
      && Precedes(s, TransparentForward, EndXR)
  {
    SequenceSorted(f, p, t);
    XROrderIn(BuildSequence(f, p, t));
  }

  /** The XR bracketing order, in any sorted sequence. */
  lemma XROrderIn(s: seq<PassKind>)
    requires Sorted(s)
    ensures
      && Precedes(s, CreateRenderTextures, BeginXR)
      && Precedes(s, BeginXR, OpaqueForward)
      && Precedes(s, TransparentForward, EndXR)
  {
    SortedPrecedes(s, CreateRenderTextures, BeginXR);
    SortedPrecedes(s, BeginXR, OpaqueForward);
    SortedPrecedes(s, TransparentForward, EndXR);
  }

  /** Every after-render pass comes before the XR end pass. */
  lemma AfterRenderBeforeEndXR(f: FrameState, p: Providers, t: HandleTable)
    ensures var s := BuildSequence(f, p, t);
      forall i, j :: 0 <= i < |s| && 0 <= j < |s| && s[i].Extension? && s[i].slot == AfterRender && s[j] == EndXR
        ==> i < j
  {
    SequenceSorted(f, p, t);
  }

  /**
   * The screen-space shadow resolve runs exactly when directional shadows
   * need it, and then both the directional shadow map and the depth prepass
   * it samples come earlier.
   */
  lemma ScreenSpaceShadowInputsFirst(f: FrameState, p: Providers, t: HandleTable)
    ensures var s := BuildSequence(f, p, t);
      && (ScreenSpaceShadowResolve in s <==> f.renderDirectionalShadows && f.requiresScreenSpaceShadowResolve)
      && (ScreenSpaceShadowResolve in s ==> DirectionalShadow in s && DepthOnly in s)
      && Precedes(s, DirectionalShadow, ScreenSpaceShadowResolve)
      && Precedes(s, DepthOnly, ScreenSpaceShadowResolve)
  {
    var s := BuildSequence(f, p, t);
    Presence(f, p, t, ScreenSpaceShadowResolve);
    Presence(f, p, t, DirectionalShadow);
    Presence(f, p, t, DepthOnly);
    assert Enqueued(f, t, ScreenSpaceShadowResolve) == (f.renderDirectionalShadows && f.requiresScreenSpaceShadowResolve);
    assert Enqueued(f, t, ScreenSpaceShadowResolve) ==> Enqueued(f, t, DirectionalShadow) && Enqueued(f, t, DepthOnly);
    Ordered(f, p, t, DirectionalShadow, ScreenSpaceShadowResolve);
    Ordered(f, p, t, DepthOnly, ScreenSpaceShadowResolve);
  }

  /**
   * Every slot holds one pass per registered provider, in registration order;
   * the gated slots are filled exactly when their gating pass is present, and
   * the after-skybox slot whether or not the skybox is drawn.
   */
  lemma SlotContents(f: FrameState, p: Providers, t: HandleTable)
    ensures var s := BuildSequence(f, p, t);
      && SlotPasses(s, AfterDepthPrepass) == (if DepthOnly in s then p.afterDepthPrepass else [])
      && SlotPasses(s, AfterOpaquePostprocess) == (if OpaquePostProcess in s then p.afterOpaquePostprocess else [])
      && forall slot :: slot != AfterDepthPrepass && slot != AfterOpaquePostprocess ==>
           SlotPasses(s, slot) == p.Registered(slot)
  {
    GatedSlots(f, p, t);
    forall slot | slot != AfterDepthPrepass && slot != AfterOpaquePostprocess
      ensures SlotPasses(BuildSequence(f, p, t), slot) == p.Registered(slot)
    {
      SlotCount(f, p, t, slot);
    }
  }

  lemma GatedSlots(f: FrameState, p: Providers, t: HandleTable)
    ensures var s := BuildSequence(f, p, t);
      && SlotPasses(s, AfterDepthPrepass) == (if DepthOnly in s then p.afterDepthPrepass else [])
      && SlotPasses(s, AfterOpaquePostprocess) == (if OpaquePostProcess in s then p.afterOpaquePostprocess else [])
  {
    var s := BuildSequence(f, p, t);
    Presence(f, p, t, DepthOnly);
    Presence(f, p, t, OpaquePostProcess);
    SlotCount(f, p, t, AfterDepthPrepass);
    SlotCount(f, p, t, AfterOpaquePostprocess);
    assert SlotEnqueued(f, AfterDepthPrepass) == Enqueued(f, t, DepthOnly);
    assert SlotEnqueued(f, AfterOpaquePostprocess) == Enqueued(f, t, OpaquePostProcess);
  }

  /** The skybox is drawn exactly for skybox-clearing cameras; the after-skybox passes do not depend on it. */
  lemma SkyboxIndependentSlot(f: FrameState, p: Providers, t: HandleTable)
    ensures var s := BuildSequence(f, p, t);
      && (DrawSkybox in s <==> f.clearFlags == Skybox)
      && SlotPasses(s, AfterSkybox) == p.afterSkybox
  {
    var s := BuildSequence(f, p, t);
    Presence(f, p, t, DrawSkybox);
    SlotCount(f, p, t, AfterSkybox);
    assert Enqueued(f, t, DrawSkybox) == (f.clearFlags == Skybox);
    assert SlotEnqueued(f, AfterSkybox);
  }

  /** The after-opaque passes sit immediately after the opaque pass, in registration order. */
  lemma AfterOpaqueAdjacent(f: FrameState, p: Providers, t: HandleTable) returns (i: nat)
    ensures var s := BuildSequence(f, p, t);
      && i + |p.afterOpaque| < |s|
      && s[i] == OpaqueForward
      && forall k :: 0 <= k < |p.afterOpaque| ==> s[i + 1 + k] == Extension(AfterOpaque, p.afterOpaque[k])
  {
    i := BlockPosition(Stages(f, p, t), 9);
    OpaqueBlock(f, p, t);
    OpaqueBlockAt(BuildSequence(f, p, t), i, p.afterOpaque);
  }

  /** Reads the opaque pass and its providers' passes off a block found at `i`. */
  lemma OpaqueBlockAt(s: seq<PassKind>, i: nat, ps: seq<ProviderId>)
    requires i + |[OpaqueForward] + ExtPasses(AfterOpaque, ps)| <= |s|
    requires s[i..i + |[OpaqueForward] + ExtPasses(AfterOpaque, ps)|] == [OpaqueForward] + ExtPasses(AfterOpaque, ps)
    ensures i + |ps| < |s| && s[i] == OpaqueForward
    ensures forall k :: 0 <= k < |ps| ==> s[i + 1 + k] == Extension(AfterOpaque, ps[k])
  {
    var block := [OpaqueForward] + ExtPasses(AfterOpaque, ps);
    assert s[i] == block[0];
    forall k | 0 <= k < |ps|
      ensures s[i + 1 + k] == Extension(AfterOpaque, ps[k])
    {
      assert s[i + 1 + k] == s[i..i + |block|][1 + k];
    }
  }

  /** Stages 9 and 10 hold the opaque pass and then the after-opaque passes. */
  lemma OpaqueBlock(f: FrameState, p: Providers, t: HandleTable)
    ensures Stages(f, p, t)[9] + Stages(f, p, t)[10] == [OpaqueForward] + ExtPasses(AfterOpaque, p.afterOpaque)
  {
    StagesAt(f, p, t, 9);
    StagesAt(f, p, t, 10);
  }

  /** The remaining conditional passes appear exactly under their flags. */
  lemma OptionalPassGuards(f: FrameState, p: Providers, t: HandleTable)
    ensures var s := BuildSequence(f, p, t);
      && (DirectionalShadow in s <==> f.renderDirectionalShadows)
      && (LocalShadow in s <==> f.renderLocalShadows)
      && (OpaquePostProcess in s <==> f.postProcessEnabled && f.hasOpaqueOnlyEffects)
      && (CopyColor in s <==> f.requiresOpaqueTexture)
  {
    var s := BuildSequence(f, p, t);
    Presence(f, p, t, DirectionalShadow);
    Presence(f, p, t, LocalShadow);
    Presence(f, p, t, OpaquePostProcess);
    Presence(f, p, t, CopyColor);
    assert Enqueued(f, t, DirectionalShadow) == f.renderDirectionalShadows;
    assert Enqueued(f, t, LocalShadow) == f.renderLocalShadows;
    assert Enqueued(f, t, OpaquePostProcess) == (f.postProcessEnabled && f.hasOpaqueOnlyEffects);
    assert Enqueued(f, t, CopyColor) == f.requiresOpaqueTexture;
  }

  /**
   * The shadow passes precede the forward setup, the opaque post-process
   * follows the opaque pass, and the opaque-texture copy sits between the
   * opaque and the transparent pass.
   */
  lemma OptionalPassOrder(f: FrameState, p: Providers, t: HandleTable)
    ensures var s := BuildSequence(f, p, t);
      && Precedes(s, DirectionalShadow, SetupForwardRendering)
      && Precedes(s, LocalShadow, SetupForwardRendering)
      && Precedes(s, OpaqueForward, OpaquePostProcess)
      && Precedes(s, OpaqueForward, CopyColor)
      && Precedes(s, CopyColor, TransparentForward)
  {
    SequenceSorted(f, p, t);
    OptionalPassOrderIn(BuildSequence(f, p, t));
  }

  /** The order of the conditional passes, in any sorted sequence. */
  lemma OptionalPassOrderIn(s: seq<PassKind>)
    requires Sorted(s)
    ensures
      && Precedes(s, DirectionalShadow, SetupForwardRendering)
      && Precedes(s, LocalShadow, SetupForwardRendering)
      && Precedes(s, OpaqueForward, OpaquePostProcess)
      && Precedes(s, OpaqueForward, CopyColor)
      && Precedes(s, CopyColor, TransparentForward)
  {
    SortedPrecedes(s, DirectionalShadow, SetupForwardRendering);
    SortedPrecedes(s, LocalShadow, SetupForwardRendering);
    SortedPrecedes(s, OpaqueForward, OpaquePostProcess);
    SortedPrecedes(s, OpaqueForward, CopyColor);
    SortedPrecedes(s, CopyColor, TransparentForward);
  }

  /**
   * The editor's scene-view depth copy runs only in editor builds for
   * scene-view cameras, after the depth prepass it copies, as the last pass.
   */
  lemma SceneViewDepthCopyLast(f: FrameState, p: Providers, t: HandleTable)
    ensures var s := BuildSequence(f, p, t);
      && (SceneViewDepthCopy in s <==> f.isEditor && f.isSceneViewCamera)
      && (SceneViewDepthCopy in s ==> DepthOnly in s && s[|s| - 1] == SceneViewDepthCopy)
      && Precedes(s, DepthOnly, SceneViewDepthCopy)
  {
    var s := BuildSequence(f, p, t);
    Presence(f, p, t, SceneViewDepthCopy);
    Presence(f, p, t, DepthOnly);
    assert Enqueued(f, t, SceneViewDepthCopy) ==> Enqueued(f, t, DepthOnly);
    Ordered(f, p, t, DepthOnly, SceneViewDepthCopy);
    LastRankLast(f, p, t);
  }

  /** A pass of the last rank, once present, is the final pass. */
  lemma LastRankLast(f: FrameState, p: Providers, t: HandleTable)
    ensures var s := BuildSequence(f, p, t);
      SceneViewDepthCopy in s ==> s[|s| - 1] == SceneViewDepthCopy
  {
    var s := BuildSequence(f, p, t);
    if SceneViewDepthCopy in s {
      SequenceSorted(f, p, t);
      LastRankIsLast(s);
    }
  }

  /**
   * On a reachable state the depth copy runs exactly for a mono, non-scene-view
   * camera without the screen-space resolve that requests depth and can copy it.
   */
  lemma DepthCopyPath(s: SetupState, f: FrameState, p: Providers)
    requires Consistent(s)
    ensures CopyDepth in Setup(s, f, p).passes <==>
      f.requiresDepthTexture && f.canCopyDepth && !f.isStereoEnabled
      && !f.isSceneViewCamera && !f.requiresScreenSpaceShadowResolve
  {
    var t := Setup(s, f, p).state.handles;
    Presence(f, p, t, CopyDepth);
    assert Enqueued(f, t, CopyDepth) == (DepthHandle(f, t) != CameraTarget);
  }

  /**
   * On a reachable state the final blit runs exactly when post-processing is
   * off, the render is on-screen and the probe, asked whether depth went to an
   * attachment (which is whether the depth copy runs), wants an intermediate
   * colour texture.
   */
  lemma FinalBlitPath(s: SetupState, f: FrameState, p: Providers)
    requires Consistent(s)
    ensures var r := Setup(s, f, p);
      FinalBlit in r.passes <==>
        !f.postProcessEnabled && !f.isOffscreenRender && f.intermediateColor.Answer(CopyDepth in r.passes)
  {
    var t := Setup(s, f, p).state.handles;
    DepthCopyPath(s, f, p);
    Presence(f, p, t, FinalBlit);
    assert Enqueued(f, t, FinalBlit) ==
      (!f.postProcessEnabled && !f.isOffscreenRender && ColorHandle(f, t) != CameraTarget);
  }
}
