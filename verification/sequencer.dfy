/**
 * The pass sequencer: from the frame state, the registered providers and the
 * handle table, the ordered list of passes one camera renders with.
 *
 * The sequence is built as 23 stages, one per step of the skeleton, and every
 * stage holds only passes of its own rank; the sequence is their concatenation.
 * The transparent post-process and the final blit are the two branches of one
 * choice and share stage 19.
 */
module Sequencer {
  import opened Frames
  import opened RenderTargets
  import opened Passes
  import opened Decisions

  /**
   * The guard the setup tests before enqueuing a pass of the fixed skeleton.
   * Provider passes are not governed here but per slot, by `SlotEnqueued`.
   */
  predicate Enqueued(f: FrameState, t: HandleTable, k: PassKind)
  {
    match k
    case DirectionalShadow => f.renderDirectionalShadows
    case LocalShadow => f.renderLocalShadows
    case SetupForwardRendering => true
    case DepthOnly => RequiresDepthPrepass(f)
    case ScreenSpaceShadowResolve => RequiresScreenSpaceShadowPass(f)
    case CreateRenderTextures => true
    case BeginXR => f.isStereoEnabled
    case SetupConstants => true
    case OpaqueForward => true
    case OpaquePostProcess => RequiresOpaquePostProcess(f)
    case DrawSkybox => f.clearFlags == Skybox
    case CopyDepth => DepthHandle(f, t) != CameraTarget
    case CopyColor => f.requiresOpaqueTexture
    case TransparentForward => true
    case TransparentPostProcess => f.postProcessEnabled
    case FinalBlit => !f.postProcessEnabled && !f.isOffscreenRender && ColorHandle(f, t) != CameraTarget
    case EndXR => f.isStereoEnabled
    case SceneViewDepthCopy => f.isEditor && f.isSceneViewCamera
    case Extension(_, _) => false
  }

  /** Whether the provider loop of a slot runs: two slots sit inside the branch of the pass they follow. */
  predicate SlotEnqueued(f: FrameState, slot: Slot)
  {
    match slot
    case AfterDepthPrepass => RequiresDepthPrepass(f)
    case AfterOpaquePostprocess => RequiresOpaquePostProcess(f)
    case _ => true
  }

  /** A skeleton pass, enqueued under its guard. */
  function Fixed(f: FrameState, t: HandleTable, k: PassKind): (r: seq<PassKind>)
    ensures forall x :: x in r ==> x == k
  {
    if Enqueued(f, t, k) then [k] else []
  }

  /** The passes of a slot's providers, enqueued when the slot's loop runs. */
  function SlotStage(f: FrameState, p: Providers, slot: Slot): (r: seq<PassKind>)
    ensures forall x :: x in r ==> x.Extension? && x.slot == slot
  {
    if SlotEnqueued(f, slot) then ExtPasses(slot, p.Registered(slot)) else []
  }

  /**
   * Stage `i` of the skeleton: the passes of rank `i` this frame enqueues, in
   * enqueue order. The guards of the post-process and of the final blit
   * exclude each other, so stage 19 holds at most one of them.
   */
  function Stage(f: FrameState, p: Providers, t: HandleTable, i: nat): seq<PassKind>
    requires i < StageCount
  {
    match i
    case 0 => Fixed(f, t, DirectionalShadow)
    case 1 => Fixed(f, t, LocalShadow)
    case 2 => Fixed(f, t, SetupForwardRendering)
    case 3 => Fixed(f, t, DepthOnly)
    case 4 => SlotStage(f, p, AfterDepthPrepass)
    case 5 => Fixed(f, t, ScreenSpaceShadowResolve)
    case 6 => Fixed(f, t, CreateRenderTextures)
    case 7 => Fixed(f, t, BeginXR)
    case 8 => Fixed(f, t, SetupConstants)
    case 9 => Fixed(f, t, OpaqueForward)
    case 10 => SlotStage(f, p, AfterOpaque)
    case 11 => Fixed(f, t, OpaquePostProcess)
    case 12 => SlotStage(f, p, AfterOpaquePostprocess)
    case 13 => Fixed(f, t, DrawSkybox)
    case 14 => SlotStage(f, p, AfterSkybox)
    case 15 => Fixed(f, t, CopyDepth)
    case 16 => Fixed(f, t, CopyColor)
    case 17 => Fixed(f, t, TransparentForward)
    case 18 => SlotStage(f, p, AfterTransparent)
    case 19 => Fixed(f, t, TransparentPostProcess) + Fixed(f, t, FinalBlit)
    case 20 => SlotStage(f, p, AfterRender)
    case 21 => Fixed(f, t, EndXR)
    case _ => Fixed(f, t, SceneViewDepthCopy)
  }

  /** Stage `i` holds only passes of rank `i`. */
  lemma StageRanked(f: FrameState, p: Providers, t: HandleTable, i: nat)
    requires i < StageCount
    ensures forall k :: k in Stage(f, p, t, i) ==> Rank(k) == i
  {
    if i < 6 {
      EarlyStageRanked(f, p, t, i);
    } else if i < 12 {
      OpaqueStageRanked(f, p, t, i);
    } else if i < 18 {
      TransparentStageRanked(f, p, t, i);
    } else {
      LateStageRanked(f, p, t, i);
    }
  }

  // The four range lemmas below only split the case analysis into pieces the
  // solver handles cheaply; together they are `StageRanked`.
  lemma EarlyStageRanked(f: FrameState, p: Providers, t: HandleTable, i: nat)
    requires i < 6
    ensures forall k :: k in Stage(f, p, t, i) ==> Rank(k) == i
  {
  }

  lemma OpaqueStageRanked(f: FrameState, p: Providers, t: HandleTable, i: nat)
    requires 6 <= i < 12
    ensures forall k :: k in Stage(f, p, t, i) ==> Rank(k) == i
  {
  }

  lemma TransparentStageRanked(f: FrameState, p: Providers, t: HandleTable, i: nat)
    requires 12 <= i < 18
    ensures forall k :: k in Stage(f, p, t, i) ==> Rank(k) == i
  {
  }

  lemma LateStageRanked(f: FrameState, p: Providers, t: HandleTable, i: nat)
    requires 18 <= i < StageCount
    ensures forall k :: k in Stage(f, p, t, i) ==> Rank(k) == i
  {
  }

  /** The 23 stages of a frame, in skeleton order. */
  function Stages(f: FrameState, p: Providers, t: HandleTable): (st: seq<seq<PassKind>>)
    ensures |st| == StageCount
  {
    [Stage(f, p, t, 0), Stage(f, p, t, 1), Stage(f, p, t, 2), Stage(f, p, t, 3), Stage(f, p, t, 4),
     Stage(f, p, t, 5), Stage(f, p, t, 6), Stage(f, p, t, 7), Stage(f, p, t, 8), Stage(f, p, t, 9),
     Stage(f, p, t, 10), Stage(f, p, t, 11), Stage(f, p, t, 12), Stage(f, p, t, 13), Stage(f, p, t, 14),
     Stage(f, p, t, 15), Stage(f, p, t, 16), Stage(f, p, t, 17), Stage(f, p, t, 18), Stage(f, p, t, 19),
     Stage(f, p, t, 20), Stage(f, p, t, 21), Stage(f, p, t, 22)]
  }

  /** Entry `i` of the stage list is stage `i` of the skeleton. */
  lemma StagesAt(f: FrameState, p: Providers, t: HandleTable, i: nat)
    requires i < StageCount
    ensures Stages(f, p, t)[i] == Stage(f, p, t, i)
  {
    if i < 12 {
      EarlyStagesAt(f, p, t, i);
    } else {
      LateStagesAt(f, p, t, i);
    }
  }

  // Split into two ranges for the solver's sake only.
  lemma EarlyStagesAt(f: FrameState, p: Providers, t: HandleTable, i: nat)
    requires i < 12
    ensures Stages(f, p, t)[i] == Stage(f, p, t, i)
  {
  }

  lemma LateStagesAt(f: FrameState, p: Providers, t: HandleTable, i: nat)
    requires 12 <= i < StageCount
    ensures Stages(f, p, t)[i] == Stage(f, p, t, i)
  {
  }

  /** Every stage holds only passes of its own rank. */
  lemma StagesRanked(f: FrameState, p: Providers, t: HandleTable)
    ensures Ranked(Stages(f, p, t), 0)
  {
    var st := Stages(f, p, t);
    forall i, k | 0 <= i < |st| && k in st[i]
      ensures Rank(k) == i
    {
      StagesAt(f, p, t, i);
      StageRanked(f, p, t, i);
    }
  }

  /** The pass sequence of one camera: the stages, concatenated in skeleton order. */
  function BuildSequence(f: FrameState, p: Providers, t: HandleTable): seq<PassKind>
  {
    Flatten(Stages(f, p, t))
  }

  /** Ranks never decrease along the sequence. */
  lemma SequenceSorted(f: FrameState, p: Providers, t: HandleTable)
    ensures Sorted(BuildSequence(f, p, t))
  {
    StagesRanked(f, p, t);
    FlattenSorted(Stages(f, p, t), 0);
  }

  /** A pass of lower rank comes before a pass of higher rank, whenever both occur. */
  lemma Ordered(f: FrameState, p: Providers, t: HandleTable, a: PassKind, b: PassKind)
    requires Rank(a) < Rank(b)
    ensures Precedes(BuildSequence(f, p, t), a, b)
  {
    SequenceSorted(f, p, t);
    SortedPrecedes(BuildSequence(f, p, t), a, b);
  }

  /** How often `k` occurs in the sequence: exactly as often as in the stage of its rank. */
  lemma Occurrences(f: FrameState, p: Providers, t: HandleTable, k: PassKind)
    ensures multiset(BuildSequence(f, p, t))[k] == multiset(Stage(f, p, t, Rank(k)))[k]
    ensures k in BuildSequence(f, p, t) <==> k in Stage(f, p, t, Rank(k))
  {
    StagesRanked(f, p, t);
    FlattenCount(Stages(f, p, t), 0, k);
    StagesAt(f, p, t, Rank(k));
  }

  /** The providers whose passes occur in a slot are those of the slot's stage. */
  lemma SlotOccurrences(f: FrameState, p: Providers, t: HandleTable, slot: Slot)
    ensures SlotPasses(BuildSequence(f, p, t), slot) == SlotPasses(Stage(f, p, t, SlotRank(slot)), slot)
  {
    StagesRanked(f, p, t);
    FlattenSlotPasses(Stages(f, p, t), 0, slot);
    StagesAt(f, p, t, SlotRank(slot));
  }

  /** A skeleton pass occurs once when its guard holds and not at all otherwise. */
  lemma Count(f: FrameState, p: Providers, t: HandleTable, k: PassKind)
    requires !k.Extension?
    ensures multiset(BuildSequence(f, p, t))[k] == if Enqueued(f, t, k) then 1 else 0
    ensures k in BuildSequence(f, p, t) <==> Enqueued(f, t, k)
  {
    Occurrences(f, p, t, k);
    if Rank(k) < 6 {
      EarlyStageCount(f, p, t, k);
    } else if Rank(k) < 12 {
      OpaqueStageCount(f, p, t, k);
    } else if Rank(k) < 18 {
      TransparentStageCount(f, p, t, k);
    } else {
      LateStageCount(f, p, t, k);
    }
  }

  /** A skeleton pass whose guard holds is in the sequence. */
  lemma Present(f: FrameState, p: Providers, t: HandleTable, k: PassKind)
    requires !k.Extension? && Enqueued(f, t, k)
    ensures k in BuildSequence(f, p, t)
  {
    Presence(f, p, t, k);
  }

  /** A skeleton pass whose guard holds occurs exactly once. */
  lemma Once(f: FrameState, p: Providers, t: HandleTable, k: PassKind)
    requires !k.Extension? && Enqueued(f, t, k)
    ensures multiset(BuildSequence(f, p, t))[k] == 1
  {
    Count(f, p, t, k);
  }

  /** A skeleton pass is in the sequence exactly when its guard holds. */
  lemma Presence(f: FrameState, p: Providers, t: HandleTable, k: PassKind)
    requires !k.Extension?
    ensures k in BuildSequence(f, p, t) <==> Enqueued(f, t, k)
  {
    Count(f, p, t, k);
  }

  // The four range lemmas below only split the case analysis of `Count` into
  // pieces the solver handles cheaply.
  lemma EarlyStageCount(f: FrameState, p: Providers, t: HandleTable, k: PassKind)
    requires !k.Extension? && Rank(k) < 6
    ensures multiset(Stage(f, p, t, Rank(k)))[k] == if Enqueued(f, t, k) then 1 else 0
  {
  }

  lemma OpaqueStageCount(f: FrameState, p: Providers, t: HandleTable, k: PassKind)
    requires !k.Extension? && 6 <= Rank(k) < 12
    ensures multiset(Stage(f, p, t, Rank(k)))[k] == if Enqueued(f, t, k) then 1 else 0
  {
  }

  lemma TransparentStageCount(f: FrameState, p: Providers, t: HandleTable, k: PassKind)
    requires !k.Extension? && 12 <= Rank(k) < 18
    ensures multiset(Stage(f, p, t, Rank(k)))[k] == if Enqueued(f, t, k) then 1 else 0
  {
  }

  lemma LateStageCount(f: FrameState, p: Providers, t: HandleTable, k: PassKind)
    requires !k.Extension? && Rank(k) >= 18
    ensures multiset(Stage(f, p, t, Rank(k)))[k] == if Enqueued(f, t, k) then 1 else 0
  {
  }

  /** Each slot holds its providers' passes, in registration order, when its loop runs, and nothing otherwise. */
  lemma SlotCount(f: FrameState, p: Providers, t: HandleTable, slot: Slot)
    ensures SlotPasses(BuildSequence(f, p, t), slot) == if SlotEnqueued(f, slot) then p.Registered(slot) else []
  {
    SlotOccurrences(f, p, t, slot);
    SlotStageAt(f, p, t, slot);
    SlotPassesOfExt(slot, p.Registered(slot), slot);
  }

  lemma SlotStageAt(f: FrameState, p: Providers, t: HandleTable, slot: Slot)
    ensures Stage(f, p, t, SlotRank(slot)) == SlotStage(f, p, slot)
  {
    match slot {
      case AfterDepthPrepass =>
      case AfterOpaque =>
      case AfterOpaquePostprocess =>
      case AfterSkybox =>
      case AfterTransparent =>
      case AfterRender =>
    }
  }

  /** Enqueues one pass per provider of a slot, in registration order, behind the passes already queued. */
  method EnqueueProviders(queue: seq<PassKind>, slot: Slot, providers: seq<ProviderId>) returns (q: seq<PassKind>)
    ensures q == queue + ExtPasses(slot, providers)
  {
    q := queue;
    var i := 0;
    while i < |providers|
      invariant 0 <= i <= |providers|
      invariant q == queue + ExtPasses(slot, providers[..i])
    {
      assert ExtPasses(slot, providers[..i + 1]) == ExtPasses(slot, providers[..i]) + [Extension(slot, providers[i])];
      q := q + [Extension(slot, providers[i])];
      i := i + 1;
    }
    assert providers[..i] == providers;
  }

  /** The result of one call of the setup: the state kept afterwards, the passes and the two resolved targets. */
  datatype Frame = Frame(state: SetupState, passes: seq<PassKind>, colorHandle: RenderTargetHandle, depthHandle: RenderTargetHandle)

  /** One call of the setup: initialise if needed, then sequence the passes with the initialised handles. */
  function Setup(s: SetupState, f: FrameState, p: Providers): (r: Frame)
    ensures r.state == InitState(s)
    ensures Consistent(s) ==> r.state.handles == CanonicalTable
    ensures Consistent(s) ==> (r.colorHandle != CameraTarget <==> RequiresColorAttachment(f))
    ensures Consistent(s) ==> (r.depthHandle != CameraTarget <==> RequiresDepthAttachment(f))
  {
    var st := InitState(s);
    Frame(st, BuildSequence(f, p, st.handles), ColorHandle(f, st.handles), DepthHandle(f, st.handles))
  }
}
