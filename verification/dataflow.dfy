/**
 * Which render targets each pass binds, and the ordering invariant of the
 * sequence: every handle a pass needs is the camera target or was produced
 * (allocated or written) by an earlier pass of the same frame.
 */
module Dataflow {
  import opened Frames
  import opened RenderTargets
  import opened Passes
  import opened Decisions
  import opened Sequencer
  import opened SequencerProperties

  /** The handles a slot's provider passes receive. */
  function SlotNeeds(slot: Slot, t: HandleTable, color: RenderTargetHandle, depth: RenderTargetHandle): set<RenderTargetHandle>
  {
    match slot
    case AfterDepthPrepass => {t.depthTexture}
    case AfterOpaque => {color, depth}
    case AfterOpaquePostprocess => {color}
    case AfterSkybox => {color, depth}
    case AfterTransparent => {color, depth}
    case AfterRender => {}
  }

  /**
   * The handles a pass binds that must already exist. The screen-space
   * resolve samples the directional shadow map and the depth texture.
   */
  function Needs(k: PassKind, t: HandleTable, color: RenderTargetHandle, depth: RenderTargetHandle): set<RenderTargetHandle>
  {
    match k
    case ScreenSpaceShadowResolve => {t.directionalShadowmap, t.depthTexture}
    case OpaqueForward => {color, depth}
    case OpaquePostProcess => {color}
    case CopyDepth => {depth}
    case CopyColor => {color}
    case TransparentForward => {color, depth}
    case TransparentPostProcess => {color}
    case FinalBlit => {color}
    case SceneViewDepthCopy => {t.depthTexture}
    case Extension(slot, _) => SlotNeeds(slot, t, color, depth)
    case _ => {}
  }

  /** The handles a pass allocates or fills for later passes. */
  function Produces(k: PassKind, t: HandleTable, color: RenderTargetHandle, depth: RenderTargetHandle): set<RenderTargetHandle>
  {
    match k
    case DirectionalShadow => {t.directionalShadowmap}
    case LocalShadow => {t.localShadowmap}
    case DepthOnly => {t.depthTexture}
    case ScreenSpaceShadowResolve => {t.screenSpaceShadowmap}
    case CreateRenderTextures => {color, depth}
    case CopyDepth => {t.depthTexture}
    case CopyColor => {t.opaqueColor}
    case _ => {}
  }

  /** Every needed handle is the camera target or produced strictly earlier. */
  predicate FlowRespected(s: seq<PassKind>, t: HandleTable, color: RenderTargetHandle, depth: RenderTargetHandle)
  {
    forall i, h :: 0 <= i < |s| && h in Needs(s[i], t, color, depth) ==>
      h == CameraTarget || exists j :: 0 <= j < i && h in Produces(s[j], t, color, depth)
  }

  /** A producer of lower rank that is present supplies `h` to the pass at `i`. */
  lemma ProducedBy(s: seq<PassKind>, t: HandleTable, color: RenderTargetHandle, depth: RenderTargetHandle,
                   i: int, producer: PassKind, h: RenderTargetHandle)
    requires Sorted(s) && 0 <= i < |s|
    requires producer in s && Rank(producer) < Rank(s[i])
    requires h in Produces(producer, t, color, depth)
    ensures exists j :: 0 <= j < i && h in Produces(s[j], t, color, depth)
  {
    EarlierOccurrence(s, i, producer);
    var j :| 0 <= j < i && s[j] == producer;
  }

  /**
   * The sequence respects the ordering invariant for every frame state and
   * every handle table, with the colour and depth targets the setup resolves.
   */
  lemma SequenceRespectsFlow(f: FrameState, p: Providers, t: HandleTable)
    ensures FlowRespected(BuildSequence(f, p, t), t, ColorHandle(f, t), DepthHandle(f, t))
  {
    var s := BuildSequence(f, p, t);
    var color, depth := ColorHandle(f, t), DepthHandle(f, t);
    forall i, h | 0 <= i < |s| && h in Needs(s[i], t, color, depth) && h != CameraTarget
      ensures exists j :: 0 <= j < i && h in Produces(s[j], t, color, depth)
    {
      PassFlow(f, p, t, i, h);
    }
  }

  /** The handles one pass needs are supplied by passes before it. */
  lemma PassFlow(f: FrameState, p: Providers, t: HandleTable, i: int, h: RenderTargetHandle)
    requires 0 <= i < |BuildSequence(f, p, t)|
    requires h in Needs(BuildSequence(f, p, t)[i], t, ColorHandle(f, t), DepthHandle(f, t))
    requires h != CameraTarget
    ensures exists j :: 0 <= j < i && h in Produces(BuildSequence(f, p, t)[j], t, ColorHandle(f, t), DepthHandle(f, t))
  {
    var k := BuildSequence(f, p, t)[i];
    if k == ScreenSpaceShadowResolve {
      ResolveFlow(f, p, t, i, h);
    } else if k == SceneViewDepthCopy || (k.Extension? && k.slot == AfterDepthPrepass) {
      DepthTextureFlow(f, p, t, i, h);
    } else {
      AttachmentFlow(f, p, t, i, h);
    }
  }

  /** The resolve finds the directional shadow map and the prepass depth already produced. */
  lemma ResolveFlow(f: FrameState, p: Providers, t: HandleTable, i: int, h: RenderTargetHandle)
    requires 0 <= i < |BuildSequence(f, p, t)|
    requires BuildSequence(f, p, t)[i] == ScreenSpaceShadowResolve
    requires h in {t.directionalShadowmap, t.depthTexture}
    ensures exists j :: 0 <= j < i && h in Produces(BuildSequence(f, p, t)[j], t, ColorHandle(f, t), DepthHandle(f, t))
  {
    var s := BuildSequence(f, p, t);
    SequenceSorted(f, p, t);
    assert ScreenSpaceShadowResolve in s;
    Presence(f, p, t, ScreenSpaceShadowResolve);
    Presence(f, p, t, DirectionalShadow);
    Presence(f, p, t, DepthOnly);
    if h == t.directionalShadowmap {
      ProducedBy(s, t, ColorHandle(f, t), DepthHandle(f, t), i, DirectionalShadow, h);
    } else {
      ProducedBy(s, t, ColorHandle(f, t), DepthHandle(f, t), i, DepthOnly, h);
    }
  }

  /** The scene-view copy and the after-prepass passes find the prepass depth already produced. */
  lemma DepthTextureFlow(f: FrameState, p: Providers, t: HandleTable, i: int, h: RenderTargetHandle)
    requires 0 <= i < |BuildSequence(f, p, t)|
    requires var k := BuildSequence(f, p, t)[i];
      k == SceneViewDepthCopy || (k.Extension? && k.slot == AfterDepthPrepass)
    requires h == t.depthTexture
    ensures exists j :: 0 <= j < i && h in Produces(BuildSequence(f, p, t)[j], t, ColorHandle(f, t), DepthHandle(f, t))
  {
    var s := BuildSequence(f, p, t);
    SequenceSorted(f, p, t);
    var k := s[i];
    assert k in s;
    Presence(f, p, t, DepthOnly);
    if k.Extension? {
      Occurrences(f, p, t, k);
      SlotStageAt(f, p, t, AfterDepthPrepass);
    } else {
      Presence(f, p, t, k);
    }
    ProducedBy(s, t, ColorHandle(f, t), DepthHandle(f, t), i, DepthOnly, h);
  }

  /** Every other pass needs only the colour and depth targets, allocated by the render-texture pass. */
  lemma AttachmentFlow(f: FrameState, p: Providers, t: HandleTable, i: int, h: RenderTargetHandle)
    requires 0 <= i < |BuildSequence(f, p, t)|
    requires var k := BuildSequence(f, p, t)[i];
      !(k == ScreenSpaceShadowResolve || k == SceneViewDepthCopy || (k.Extension? && k.slot == AfterDepthPrepass))
    requires h in Needs(BuildSequence(f, p, t)[i], t, ColorHandle(f, t), DepthHandle(f, t))
    ensures exists j :: 0 <= j < i && h in Produces(BuildSequence(f, p, t)[j], t, ColorHandle(f, t), DepthHandle(f, t))
  {
    var s := BuildSequence(f, p, t);
    SequenceSorted(f, p, t);
    Presence(f, p, t, CreateRenderTextures);
    ProducedBy(s, t, ColorHandle(f, t), DepthHandle(f, t), i, CreateRenderTextures, h);
  }

  /**
   * A setup call on any reachable state keeps the canonical names, produces a
   * sequence that respects the ordering invariant, gates the depth copy and
   * the final blit on the attachment decisions, and is repeatable: a second
   * call with the same frame yields the same frame.
   */
  lemma SetupRespectsFlow(st: SetupState, f: FrameState, p: Providers)
    requires Consistent(st)
    ensures var r := Setup(st, f, p);
      && Consistent(r.state)
      && r.state.handles == CanonicalTable
      && FlowRespected(r.passes, r.state.handles, r.colorHandle, r.depthHandle)
      && (CopyDepth in r.passes <==> RequiresDepthAttachment(f))
      && (FinalBlit in r.passes <==> !f.postProcessEnabled && !f.isOffscreenRender && RequiresColorAttachment(f))
      && Setup(r.state, f, p) == r
  {
    var r := Setup(st, f, p);
    SequenceRespectsFlow(f, p, CanonicalTable);
    CanonicalTableWellFormed();
    PrepassOrDepthCopy(f, p, CanonicalTable);
    FinalBlitGuard(f, p, CanonicalTable);
  }
}
