/**
 * Render-target handles and the one-time initialisation that names them.
 * A handle is either the camera's own target (the sentinel the setup compares
 * against), a handle that has not been named yet, or a named texture.
 */
module RenderTargets {

  datatype RenderTargetHandle = CameraTarget | Unassigned | Named(name: string)

  /** The seven handles the renderer setup owns. */
  datatype HandleTable = HandleTable(
    color: RenderTargetHandle,
    depthAttachment: RenderTargetHandle,
    depthTexture: RenderTargetHandle,
    opaqueColor: RenderTargetHandle,
    directionalShadowmap: RenderTargetHandle,
    localShadowmap: RenderTargetHandle,
    screenSpaceShadowmap: RenderTargetHandle)

  const UnnamedTable := HandleTable(Unassigned, Unassigned, Unassigned, Unassigned, Unassigned, Unassigned, Unassigned)

  /** The shader property names the initialisation gives the handles. */
  const CanonicalTable := HandleTable(
    Named("_CameraColorTexture"),
    Named("_CameraDepthAttachment"),
    Named("_CameraDepthTexture"),
    Named("_CameraOpaqueTexture"),
    Named("_DirectionalShadowmapTexture"),
    Named("_LocalShadowmapTexture"),
    Named("_ScreenSpaceShadowMapTexture"))

  /** No handle of the table is the camera-target sentinel. */
  predicate SentinelFree(t: HandleTable)
  {
    && t.color != CameraTarget
    && t.depthAttachment != CameraTarget
    && t.depthTexture != CameraTarget
    && t.opaqueColor != CameraTarget
    && t.directionalShadowmap != CameraTarget
    && t.localShadowmap != CameraTarget
    && t.screenSpaceShadowmap != CameraTarget
  }

  /** No two handles of the table share a name. */
  predicate Distinct(t: HandleTable)
  {
    var hs := [t.color, t.depthAttachment, t.depthTexture, t.opaqueColor,
               t.directionalShadowmap, t.localShadowmap, t.screenSpaceShadowmap];
    forall i, j :: 0 <= i < j < |hs| ==> hs[i] != hs[j]
  }

  /** The state the setup object keeps between frames. */
  datatype SetupState = SetupState(initialized: bool, handles: HandleTable)

  const FreshState := SetupState(false, UnnamedTable)

  /** The invariant every reachable state keeps: once initialised, the names are the canonical ones. */
  predicate Consistent(s: SetupState)
  {
    s.initialized ==> s.handles == CanonicalTable
  }

  /** The guarded one-time initialisation. */
  function InitState(s: SetupState): (r: SetupState)
    ensures r.initialized
    ensures s.initialized ==> r == s
    ensures Consistent(s) ==> Consistent(r) && r.handles == CanonicalTable
  {
    if s.initialized then s
    else SetupState(true, CanonicalTable)
  }

  /** A second initialisation changes nothing. */
  lemma InitIdempotent(s: SetupState)
    ensures InitState(InitState(s)) == InitState(s)
  {
  }

  /** The canonical names are usable texture handles: none is the sentinel and no two alias. */
  lemma CanonicalTableWellFormed()
    ensures SentinelFree(CanonicalTable)
    ensures Distinct(CanonicalTable)
  {
  }

  /** Any number of initialisations from a fresh object leaves the canonical names. */
  lemma {:induction false} InitRepeated(n: nat)
    ensures InitTimes(FreshState, n + 1).initialized
    ensures InitTimes(FreshState, n + 1).handles == CanonicalTable
    ensures InitTimes(FreshState, n + 1) == InitTimes(FreshState, 1)
  {
    if n > 0 {
      InitRepeated(n - 1);
      InitIdempotent(InitTimes(FreshState, n));
    }
  }

  /** `n` successive initialisations. */
  function InitTimes(s: SetupState, n: nat): SetupState
  {
    if n == 0 then s else InitState(InitTimes(s, n - 1))
  }

  /** The setup object, holding its state across frames. */
  class DefaultRendererSetup {
    var state: SetupState

    ghost predicate Valid()
      reads this
    {
      Consistent(state)
    }

    constructor ()
      ensures Valid()
      ensures !state.initialized
    {
      state := FreshState;
    }

    method Init()
      requires Valid()
      modifies this
      ensures Valid()
      ensures state.initialized && state.handles == CanonicalTable
      ensures old(state.initialized) ==> state == old(state)
    {
      state := InitState(state);
    }
  }
}
