/**
 * The per-frame decisions the renderer setup derives from the frame state
 * before it enqueues anything: whether a depth prepass runs, whether depth
 * and colour go to intermediate attachments, and which handles the opaque
 * and transparent passes render into.
 */
module Decisions {
  import opened Frames
  import opened RenderTargets

  /**
   * A depth-only prepass is needed for the screen-space shadow resolve, for
   * scene-view cameras, when depth is requested but cannot be copied, and
   * always in stereo (multisampled depth cannot be resolved there).
   */
  function RequiresDepthPrepass(f: FrameState): (r: bool)
    ensures f.isStereoEnabled ==> r
    ensures f.requiresScreenSpaceShadowResolve || f.isSceneViewCamera ==> r
    ensures !r ==> !f.requiresDepthTexture || f.canCopyDepth
    ensures r ==> f.isStereoEnabled || f.requiresScreenSpaceShadowResolve || f.isSceneViewCamera
                  || (f.requiresDepthTexture && !f.canCopyDepth)
  {
    (f.requiresScreenSpaceShadowResolve
     || f.isSceneViewCamera
     || (f.requiresDepthTexture && !f.canCopyDepth))
    || f.isStereoEnabled
  }

  /** Depth is kept in an attachment exactly when it is requested and no prepass produces it. */
  function RequiresDepthAttachment(f: FrameState): (r: bool)
    ensures r <==> f.requiresDepthTexture && f.canCopyDepth && !f.isStereoEnabled
                   && !f.isSceneViewCamera && !f.requiresScreenSpaceShadowResolve
  {
    f.requiresDepthTexture && !RequiresDepthPrepass(f)
  }

  /**
   * The engine's probe, asked with the depth-attachment decision: frames that
   * keep depth in an attachment get the probe's answer for that case, all
   * other frames the answer without one.
   */
  function RequiresColorAttachment(f: FrameState): (r: bool)
    ensures f.requiresDepthTexture && f.canCopyDepth && !f.isStereoEnabled
            && !f.isSceneViewCamera && !f.requiresScreenSpaceShadowResolve
            ==> r == f.intermediateColor.withDepthAttachment
    ensures RequiresDepthPrepass(f) || !f.requiresDepthTexture ==> r == f.intermediateColor.withoutDepthAttachment
  {
    f.intermediateColor.Answer(RequiresDepthAttachment(f))
  }

  function RequiresOpaquePostProcess(f: FrameState): bool
  {
    f.postProcessEnabled && f.hasOpaqueOnlyEffects
  }

  function RequiresScreenSpaceShadowPass(f: FrameState): bool
  {
    f.renderDirectionalShadows && f.requiresScreenSpaceShadowResolve
  }

  /** The colour target: the intermediate texture when one is required, else the camera target. */
  function ColorHandle(f: FrameState, t: HandleTable): (r: RenderTargetHandle)
    ensures r == CameraTarget || r == t.color
    ensures t.color != CameraTarget ==> (r != CameraTarget <==> RequiresColorAttachment(f))
  {
    if RequiresColorAttachment(f) then t.color else CameraTarget
  }

  /** The depth target: the depth attachment when one is required, else the camera target. */
  function DepthHandle(f: FrameState, t: HandleTable): (r: RenderTargetHandle)
    ensures r == CameraTarget || r == t.depthAttachment
    ensures t.depthAttachment != CameraTarget ==> (r != CameraTarget <==> RequiresDepthAttachment(f))
  {
    if RequiresDepthAttachment(f) then t.depthAttachment else CameraTarget
  }

  /** In stereo the depth prepass is forced, whatever else the frame asks for. */
  lemma StereoForcesPrepass(f: FrameState)
    requires f.isStereoEnabled
    ensures RequiresDepthPrepass(f)
    ensures !RequiresDepthAttachment(f)
  {
  }

  /** The prepass and the depth attachment exclude each other; both may be absent. */
  lemma PrepassExcludesDepthAttachment(f: FrameState)
    ensures !(RequiresDepthPrepass(f) && RequiresDepthAttachment(f))
    ensures !RequiresDepthPrepass(f) && !RequiresDepthAttachment(f) <==> !RequiresDepthPrepass(f) && !f.requiresDepthTexture
  {
  }
}
