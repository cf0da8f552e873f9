# Lightweight render pipeline: default renderer setup

This project models the per-camera pass sequencer of the lightweight render
pipeline's `DefaultRendererSetup`. For every camera and frame, `Setup` reads
a handful of frame flags and enqueues an ordered list of render passes:

- the shadow passes;
- forward-rendering setup;
- an optional depth-only prepass;
- the screen-space shadow resolve;
- render-texture creation;
- XR begin;
- the lighting constants;
- the opaque pass and its post-process;
- the skybox;
- the depth and colour copies;
- the transparent pass;
- the transparent post-process or the final blit;
- XR end;
- the editor's scene-view depth copy.

At six fixed slots it also enqueues one pass for each camera component that
implements the slot's interface. The first call of `Setup` also runs a guarded
one-time `Init`, which names the seven render-target handles.

The model is functional:

- `Frames.FrameState` holds the frame flags.
- `Passes.Providers` lists the registered providers, per slot and in
  registration order.
- `Sequencer.BuildSequence` returns the `seq<PassKind>` that `Setup` would
  enqueue.
- `Sequencer.Enqueued` is the condition the setup tests before enqueuing
  each skeleton pass, and `Sequencer.SlotEnqueued` says whether a slot's
  provider loop runs.

The sequence is built as 23 stages, one per step of the skeleton. Every
`PassKind` has a rank, which is the index of its stage. The sequence is
therefore sorted by rank (`Sequencer.SequenceSorted`), and every
relative-order property follows from that. One pass can be counted by looking
at its own stage only (`Sequencer.Occurrences`), which gives `Sequencer.Count`:
a skeleton pass occurs exactly when its condition holds.

The setup reads three engine queries whose bodies are not part of this model.
Each one is an input field of `FrameState`:

- `canCopyDepth` stands for `LightweightForwardRenderer.CanCopyDepth`.
- `intermediateColor` stands for `RequiresIntermediateColorTexture`. That
  query takes the depth-attachment decision as an argument, so the model keeps
  one answer for each value of the argument.
- `hasOpaqueOnlyEffects` stands for `HasOpaqueOnlyEffects`.

The `#if UNITY_EDITOR` code becomes the `isEditor` flag.

The `Dataflow` module records which handles each pass binds (`Needs`) and which
handles it allocates or fills (`Produces`). It then proves the ordering
invariant a sequential executor relies on: a pass only uses a handle that is
the camera target or that an earlier pass produced. The source passes handles to each pass's `Setup`
call but does not say which of them are read. The read/write split is this
model's reading of those arguments. The screen-space resolve is taken to
sample the directional shadow map and the depth texture.

## Model

| member | source | states |
|---|---|---|
| RenderTargets.InitState | com.unity.render-pipelines.lightweight/LWRP/DefaultRendererSetup.cs:42-80 | after the call the object is initialised; an already-initialised object is returned unchanged; from any reachable state the seven handles carry the fixed shader names |
| RenderTargets.DefaultRendererSetup.Init | com.unity.render-pipelines.lightweight/LWRP/DefaultRendererSetup.cs:42-80 | the method on the setup object: afterwards the object is initialised with the canonical names, and a second call leaves its state unchanged |
| RenderTargets.InitIdempotent | com.unity.render-pipelines.lightweight/LWRP/DefaultRendererSetup.cs:42-45 | a second initialisation changes neither the flag nor the handle names |
| RenderTargets.InitRepeated | com.unity.render-pipelines.lightweight/LWRP/DefaultRendererSetup.cs:42-80 | any number n+1 of initialisations of a fresh object gives the same state as one: initialised, with the canonical names |
| RenderTargets.CanonicalTableWellFormed | com.unity.render-pipelines.lightweight/LWRP/DefaultRendererSetup.cs:71-77 | none of the seven names is the camera-target sentinel and no two handles alias |
| Decisions.RequiresDepthPrepass | com.unity.render-pipelines.lightweight/LWRP/DefaultRendererSetup.cs:129-136 | the prepass is required exactly when stereo, the screen-space resolve or a scene-view camera forces it, or depth is requested and cannot be copied; in particular a frame without a prepass either wants no depth texture or can copy depth |
| Decisions.RequiresColorAttachment | com.unity.render-pipelines.lightweight/LWRP/DefaultRendererSetup.cs:168-174 | the intermediate-colour probe is asked with the depth-attachment decision: a frame that keeps depth in an attachment gets the probe's answer for that case, a frame with a prepass or without a depth request the answer without one |
| Decisions.RequiresOpaquePostProcess | com.unity.render-pipelines.lightweight/LWRP/DefaultRendererSetup.cs:195-196 | the opaque post-process runs when post-processing is on and the layer has opaque-only effects |
| Decisions.RequiresScreenSpaceShadowPass | com.unity.render-pipelines.lightweight/LWRP/DefaultRendererSetup.cs:161-162 | the screen-space resolve runs when directional shadows are rendered and the resolve is requested |
| Decisions.RequiresDepthAttachment | com.unity.render-pipelines.lightweight/LWRP/DefaultRendererSetup.cs:129-168 | in terms of the frame flags, depth goes to an attachment exactly for a mono, non-scene-view camera without the screen-space resolve that requests depth and can copy it |
| Decisions.ColorHandle | com.unity.render-pipelines.lightweight/LWRP/DefaultRendererSetup.cs:169-174 | the colour target is either the intermediate texture or the camera target, and is not the camera target exactly when the probe asks for an intermediate texture |
| Decisions.DepthHandle | com.unity.render-pipelines.lightweight/LWRP/DefaultRendererSetup.cs:175 | the depth target is either the depth attachment or the camera target, and is not the camera target exactly when a depth attachment is required |
| Decisions.StereoForcesPrepass | com.unity.render-pipelines.lightweight/LWRP/DefaultRendererSetup.cs:135-136 | in stereo the prepass is required and the depth attachment is not |
| Decisions.PrepassExcludesDepthAttachment | com.unity.render-pipelines.lightweight/LWRP/DefaultRendererSetup.cs:168 | prepass and depth attachment are never both required; both are absent exactly when depth is not requested and no prepass is forced |
| Passes.SlotRank | com.unity.render-pipelines.lightweight/LWRP/DefaultRendererSetup.cs:157-241 | the skeleton step at which each provider loop runs: after-prepass right after the depth-only pass, after-opaque right after the opaque pass, after-opaque-postprocess after the opaque post-process, after-skybox after the skybox, after-transparent after the transparent pass, after-render after the post-process/blit choice; every step is one of the 23 |
| Passes.Rank | com.unity.render-pipelines.lightweight/LWRP/DefaultRendererSetup.cs:138-253 | the skeleton step at which each pass is enqueued, in the order the source enqueues them; the transparent post-process and the final blit, the two branches of one if/else, share a step; every step is one of the 23 |
| Sequencer.SequenceSorted | com.unity.render-pipelines.lightweight/LWRP/DefaultRendererSetup.cs:115-255 | the passes of a frame come in skeleton order: along the sequence the rank of a pass never decreases, whatever the flags and providers |
| Sequencer.BuildSequence | com.unity.render-pipelines.lightweight/LWRP/DefaultRendererSetup.cs:115-255 | the passes one setup call enqueues, as the concatenation of the 23 skeleton stages; what the sequence satisfies is stated by the `Sequencer` lemmas below and by `SequencerProperties` |
| Sequencer.Enqueued | com.unity.render-pipelines.lightweight/LWRP/DefaultRendererSetup.cs:138-253 | the condition the setup tests before enqueuing each skeleton pass, one case per `if` of the source; `Sequencer.Count` states that a pass occurs exactly when it holds |
| Sequencer.SlotEnqueued | com.unity.render-pipelines.lightweight/LWRP/DefaultRendererSetup.cs:152-241 | which provider loops run: the after-prepass loop inside the prepass branch, the after-opaque-postprocess loop inside the opaque post-process branch, the other four always; `Sequencer.SlotCount` states the consequence |
| Sequencer.Ordered | com.unity.render-pipelines.lightweight/LWRP/DefaultRendererSetup.cs:138-253 | a pass enqueued at an earlier step of the skeleton precedes every pass enqueued at a later step, whenever both occur |
| Sequencer.Count | com.unity.render-pipelines.lightweight/LWRP/DefaultRendererSetup.cs:138-253 | a skeleton pass occurs once when the condition the setup tests before enqueuing it holds, and not at all otherwise |
| Sequencer.SlotCount | com.unity.render-pipelines.lightweight/LWRP/DefaultRendererSetup.cs:157-241 | a slot holds one pass per registered provider, in registration order, when its loop runs, and no pass otherwise; two loops sit inside the prepass and opaque post-process branches |
| Sequencer.Occurrences | com.unity.render-pipelines.lightweight/LWRP/DefaultRendererSetup.cs:138-253 | each pass occurs in the sequence as often as in the one stage of its rank, so presence is decided by that stage's condition alone |
| Sequencer.EnqueueProviders | com.unity.render-pipelines.lightweight/LWRP/DefaultRendererSetup.cs:157-158 | the provider loop appends one pass per provider, in registration order, behind what is already queued |
| Sequencer.Setup | com.unity.render-pipelines.lightweight/LWRP/DefaultRendererSetup.cs:115-118 | a setup call initialises first; on a reachable state the handles are the canonical ones and the resolved colour and depth targets leave the camera target exactly when the attachment decisions ask for it |
| SequencerProperties.FixedPassesOnce | com.unity.render-pipelines.lightweight/LWRP/DefaultRendererSetup.cs:150-224 | forward setup, render-texture creation, constants, opaque and transparent passes each occur exactly once in every frame |
| SequencerProperties.FixedSkeletonOrder | com.unity.render-pipelines.lightweight/LWRP/DefaultRendererSetup.cs:150-224 | those five passes come in the order forward setup, render textures, constants, opaque, transparent |
| SequencerProperties.AtMostOnce | com.unity.render-pipelines.lightweight/LWRP/DefaultRendererSetup.cs:138-253 | no pass of the skeleton is enqueued twice in a frame |
| SequencerProperties.StereoForcesDepthPrepass | com.unity.render-pipelines.lightweight/LWRP/DefaultRendererSetup.cs:135-155 | in stereo the depth-only pass is in the sequence whatever the other flags are |
| SequencerProperties.PrepassOrDepthCopy | com.unity.render-pipelines.lightweight/LWRP/DefaultRendererSetup.cs:152-215 | the depth-only pass is present exactly when the prepass is required; it never appears together with the depth copy; with a named depth attachment the copy appears exactly when depth is requested and there is no prepass |
| SequencerProperties.PostProcessOrFinalBlit | com.unity.render-pipelines.lightweight/LWRP/DefaultRendererSetup.cs:229-238 | transparent post-process and final blit never both appear; the post-process appears exactly when post-processing is on; the blit needs post-processing off and an on-screen render |
| SequencerProperties.FinalBlitGuard | com.unity.render-pipelines.lightweight/LWRP/DefaultRendererSetup.cs:229-238 | with a named colour texture, the blit appears exactly when post-processing is off, the render is on-screen and colour went to the intermediate texture |
| SequencerProperties.XRPaired | com.unity.render-pipelines.lightweight/LWRP/DefaultRendererSetup.cs:181-246 | XR begin and XR end appear together, exactly in stereo, equally often |
| SequencerProperties.XROrder | com.unity.render-pipelines.lightweight/LWRP/DefaultRendererSetup.cs:178-246 | XR begin comes after render-texture creation and before the opaque pass; XR end comes after the transparent pass |
| SequencerProperties.AfterRenderBeforeEndXR | com.unity.render-pipelines.lightweight/LWRP/DefaultRendererSetup.cs:240-246 | every after-render provider pass comes before XR end |
| SequencerProperties.ScreenSpaceShadowInputsFirst | com.unity.render-pipelines.lightweight/LWRP/DefaultRendererSetup.cs:130-166 | the resolve appears exactly with directional shadows and the resolve flag, and then the directional shadow pass and the depth-only pass both appear before it |
| SequencerProperties.SlotContents | com.unity.render-pipelines.lightweight/LWRP/DefaultRendererSetup.cs:157-241 | each slot holds one pass per registered provider, in registration order; after-prepass passes appear exactly when the depth-only pass does, after-opaque-postprocess passes exactly when the opaque post-process does, the other four slots always |
| SequencerProperties.SkyboxIndependentSlot | com.unity.render-pipelines.lightweight/LWRP/DefaultRendererSetup.cs:205-209 | the skybox is drawn exactly for skybox-clearing cameras, while the after-skybox slot holds exactly the registered providers, in registration order, either way |
| SequencerProperties.AfterOpaqueAdjacent | com.unity.render-pipelines.lightweight/LWRP/DefaultRendererSetup.cs:190-193 | the after-opaque passes sit immediately after the opaque pass, in registration order |
| SequencerProperties.OptionalPassGuards | com.unity.render-pipelines.lightweight/LWRP/DefaultRendererSetup.cs:138-221 | the shadow passes, the opaque post-process and the opaque-texture copy appear exactly under their flags |
| SequencerProperties.OptionalPassOrder | com.unity.render-pipelines.lightweight/LWRP/DefaultRendererSetup.cs:138-224 | the shadow passes precede forward setup; the opaque post-process follows the opaque pass; the colour copy sits between the opaque and transparent passes |
| SequencerProperties.SceneViewDepthCopyLast | com.unity.render-pipelines.lightweight/LWRP/DefaultRendererSetup.cs:248-254 | the scene-view depth copy appears exactly in editor builds for scene-view cameras, after the depth-only pass it copies, and is then the last pass |
| SequencerProperties.DepthCopyPath | com.unity.render-pipelines.lightweight/LWRP/DefaultRendererSetup.cs:129-215 | on a reachable state the depth copy runs exactly for a mono, non-scene-view camera without the screen-space resolve that requests depth and can copy it |
| SequencerProperties.FinalBlitPath | com.unity.render-pipelines.lightweight/LWRP/DefaultRendererSetup.cs:168-238 | on a reachable state the final blit runs exactly when post-processing is off, the render is on-screen and the colour probe, asked whether depth went to an attachment (whether the depth copy runs), wants an intermediate texture |
| Dataflow.SlotNeeds | com.unity.render-pipelines.lightweight/LWRP/DefaultRendererSetup.cs:82-113 | the handles each provider interface hands to its pass: the depth texture after the prepass; colour and depth after opaque, skybox and transparent; colour alone after the opaque post-process; nothing after render |
| Dataflow.Needs | com.unity.render-pipelines.lightweight/LWRP/DefaultRendererSetup.cs:140-251 | the handles each pass's setup call binds as inputs: colour and depth for the forward passes, colour for the post-processes, copy and blit sources, the depth texture for the scene-view copy, the slot's handles for a provider pass; the resolve's two inputs (directional shadow map, depth texture) are this model's reading of what the resolve samples, not arguments of the resolve's setup call, which receives only the descriptor and its output |
| Dataflow.Produces | com.unity.render-pipelines.lightweight/LWRP/DefaultRendererSetup.cs:140-219 | the handles each pass allocates or fills: the shadow passes their shadow maps, the depth-only pass and the depth copy the depth texture, the resolve its screen-space map, render-texture creation the colour and depth targets, the colour copy the opaque texture |
| Dataflow.SequenceRespectsFlow | com.unity.render-pipelines.lightweight/LWRP/DefaultRendererSetup.cs:138-254 | for every frame and handle table, every handle a pass needs is the camera target or was produced by an earlier pass |
| Dataflow.SetupRespectsFlow | com.unity.render-pipelines.lightweight/LWRP/DefaultRendererSetup.cs:115-255 | a setup call on a reachable state keeps the canonical names, respects the ordering invariant, and has the depth copy exactly with a depth attachment and the blit exactly when post-processing is off, the render is on-screen and colour went to the intermediate texture; repeating the call with the same frame gives the same result |
| Scenarios.ShadowedSkyboxSequence | com.unity.render-pipelines.lightweight/LWRP/DefaultRendererSetup.cs:138-224 | directional shadows only, skybox clear, no depth or opaque texture, no post-processing, no stereo and colour on the camera target give exactly: directional shadow, forward setup, render textures, constants, opaque, skybox, transparent |
| Scenarios.StereoPostProcessPresent | com.unity.render-pipelines.lightweight/LWRP/DefaultRendererSetup.cs:130-246 | stereo with a depth texture, a screen-space resolve and opaque-only effects has the depth-only pass, the resolve, render textures, both XR passes, both forward passes and both post-processes |
| Scenarios.StereoPostProcessOrder | com.unity.render-pipelines.lightweight/LWRP/DefaultRendererSetup.cs:152-246 | in every frame the depth-only pass precedes the resolve, the resolve precedes render-texture creation, the opaque post-process precedes the transparent pass and the transparent post-process precedes XR end |

## Left out

- The visual-effect-graph operators (`SimplexNoise2D.cs`, `ValueNoise1D.cs`, `VFXOperatorFmod.cs`). They only build engine-owned expression trees, and `Fmod` is floating-point arithmetic, so they have no behaviour of their own to state.
- The bodies of `CanCopyDepth`, `RequiresIntermediateColorTexture` and `HasOpaqueOnlyEffects`. They are engine code and become input flags.
- `GetCameraClearFlag`, `GetRendererConfiguration` and the camera's background colour. They only parameterise passes and never change which passes are enqueued.
- Per-pass `Setup` parameters: texture descriptors, MSAA sample counts, clear flags and colours, renderer configuration, dynamic batching and the local-light limits. All of these are engine data with no effect on the order of passes. Only the handles a pass binds are kept, in the `Dataflow` module.
- `renderer.Clear`, `SetupPerObjectLightIndices` and `CreateRTDesc`. These are engine calls with no effect on the sequence. The model starts each frame from an empty queue, which is what `Clear` gives.
- The construction of the pass objects in `Init`. Pass identity does not show in the sequence, so `Init` models only the guard flag and the handle names.
- The provider discovery through `camera.GetComponents<T>()`. It becomes an explicit provider list per slot. A provider that returns no pass is not modelled: every registered provider contributes exactly one pass.
- GPU execution of the enqueued passes.
- SequencerProperties.PrepassOrDepthCopy: the "copy exactly when" half assumes a depth-attachment handle that is not the camera-target sentinel. The source compares against that sentinel. `Dataflow.SetupRespectsFlow` removes the assumption for every reachable setup state, through `RenderTargets.CanonicalTableWellFormed`.
- SequencerProperties.FinalBlitGuard: the "blit exactly when" statement assumes a colour handle that is not the camera-target sentinel. `Dataflow.SetupRespectsFlow` removes the assumption for every reachable setup state, through `RenderTargets.CanonicalTableWellFormed`.
