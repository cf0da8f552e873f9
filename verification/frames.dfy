/**
 * The per-camera frame state the renderer setup reads. Every field is a flag
 * that the engine computes before the setup runs; the three engine queries
 * whose bodies are not part of this model (the depth-copy capability check,
 * the intermediate-colour probe and the opaque-only post-process query) are
 * carried as uninterpreted inputs.
 */
module Frames {

  /** The camera's clear mode; only `Skybox` changes the pass sequence. */
  datatype CameraClearFlags = Skybox | SolidColor | Depth | Nothing

  /**
   * The answer of the engine's intermediate-colour-texture probe. The probe
   * takes the depth-attachment decision as an argument, so the model keeps
   * one answer for each value of that argument.
   */
  datatype ColorProbe = ColorProbe(withDepthAttachment: bool, withoutDepthAttachment: bool)
  {
    function Answer(requiresDepthAttachment: bool): bool
    {
      if requiresDepthAttachment then withDepthAttachment else withoutDepthAttachment
    }
  }

  datatype FrameState = FrameState(
    renderDirectionalShadows: bool,
    renderLocalShadows: bool,
    requiresScreenSpaceShadowResolve: bool,
    isSceneViewCamera: bool,
    requiresDepthTexture: bool,
    // whether the platform can copy depth after the opaque pass
    canCopyDepth: bool,
    isStereoEnabled: bool,
    intermediateColor: ColorProbe,
    postProcessEnabled: bool,
    // whether the post-process layer has effects that run before transparents
    hasOpaqueOnlyEffects: bool,
    clearFlags: CameraClearFlags,
    requiresOpaqueTexture: bool,
    isOffscreenRender: bool,
    // the build is an editor build (the UNITY_EDITOR sections are compiled in)
    isEditor: bool)
}
