# Desk scene: texture slots, materials, uniforms, render passes and view input

A Dafny model of the discrete logic of a small OpenGL desk scene (a desk,
a coffee mug, a laptop with a 5 x 12 key grid, a desk lamp, a floor and a
back wall, rendered with a shadow-map depth pass and a lit pass), and of the
view manager that turns mouse, scroll wheel, keyboard and clock input into
camera calls and a projection.

The GPU is abstracted away. What remains, and what is modelled:

- **Texture slot table** (`textures.dfy`, module `Textures`): sixteen
  `(tag, id)` slots and a loaded count. Loading appends at the count and
  fails on an undecodable image or a channel count other than 3 or 4;
  lookups are a first-match scan of the loaded prefix; binding maps texture
  unit `i` to slot `i`; teardown resets the loaded prefix. The image
  decoder's outcome and the GPU's texture id are inputs.
- **Materials** (`materials.dfy`, module `Materials`): the list of tagged
  materials the scene registers, its lookup `FindMaterial`, and the fixed
  preset table that `SetShaderMaterial` actually pushes to the shader.
- **Uniform protocol** (`uniforms.dfy`, module `UniformProtocol`): a shader
  program is a map from uniform name to value (or no program at all). Each
  setter writes a fixed set of names and nothing else; `WritesOnly` states
  that framing. Matrices are opaque values built from their arguments
  (`geometry.dfy`).
- **Render passes** (`render.dfy`, module `Render`; `scene.dfy`, module
  `Scene`): both passes as command lists run against the main and the depth
  program. A draw records the meshes and both programs' uniforms at that
  moment. The scene's constants, the draw lists of the depth pass and of
  the six `Draw*` routines, and the 60-key grid are written out.
- **Projection selection** (`projection.dfy`, module `SceneProjection`):
  perspective or orthographic parameters chosen by a flag and sized by the
  screen; each upload to the shader is recorded as an event.
- **View input** (`view.dfy`, module `ViewInput`): first-mouse handling,
  the scroll-speed clamp, keyboard polling with the projection toggle, and
  per-frame timing. Camera calls are recorded as events; held keys and
  clock readings are inputs.

Shared pieces: `wrappers.dfy` (`Option`), `tag_search.dfy` (the
first-match index used by both the texture and the material lookup).

## Model

| member | source | states |
|---|---|---|
| Textures.NewRegistry | 7-1_FinalProjectMilestones/Source/SceneManager.cpp:202-214 | a fresh table has all sixteen slots set to tag "/0" and id -1, and a loaded count of 0 |
| Textures.SlotOf | 7-1_FinalProjectMilestones/Source/SceneManager.cpp:373-391 | the slot of a tag is the smallest loaded index carrying it, or -1 when no loaded slot does; slots at or beyond the count never match |
| Textures.CreateGLTexture | 7-1_FinalProjectMilestones/Source/SceneManager.cpp:238-300 | a load succeeds exactly for a decoded 3- or 4-channel image; success writes (tag, id) at the count, raises the count by one and leaves every other slot alone; failure leaves the table unchanged; the unchecked capacity becomes a precondition |
| Textures.LoadThenFind | 7-1_FinalProjectMilestones/Source/SceneManager.cpp:238-300 | after a successful load the new tag resolves to the new slot unless an earlier slot already has it (first match wins), and every other tag resolves as before |
| Textures.FindTextureSlot | 7-1_FinalProjectMilestones/Source/SceneManager.cpp:373-391 | the loop with its found flag returns the first loaded slot with the tag, or -1 |
| Textures.FindTextureID | 7-1_FinalProjectMilestones/Source/SceneManager.cpp:345-363 | the loop returns the id of that same first slot, or -1 when the tag is not loaded |
| Textures.BindGLTextures | 7-1_FinalProjectMilestones/Source/SceneManager.cpp:310-317 | texture unit u holds slot u's texture for exactly the loaded slots |
| Textures.SamplerUnitHoldsTaggedTexture | 7-1_FinalProjectMilestones/Source/SceneManager.cpp:310-317 | the unit a slot lookup yields is bound to the texture the id lookup yields |
| Textures.DestroyGLTextures | 7-1_FinalProjectMilestones/Source/SceneManager.cpp:326-335 | the ids of the loaded slots are released in slot order, and resetting only the loaded prefix restores the table to its freshly constructed state |
| Textures.LoadAll | 7-1_FinalProjectMilestones/Source/SceneManager.cpp:674-693 | a run of loads keeps the table valid; the count rises by the number of supported images; loaded plus failed equals the number of requests |
| Textures.LoadAllKeepsFound | 7-1_FinalProjectMilestones/Source/SceneManager.cpp:238-300 | once a tag resolves to a slot, no later load moves it, not even a load under the same tag |
| Textures.LoadAllSlotsInOrder | 7-1_FinalProjectMilestones/Source/SceneManager.cpp:238-300 | when every image loads and the tags are fresh, the k-th request's tag resolves to slot count + k |
| Textures.SceneTexturesAllLoad | 7-1_FinalProjectMilestones/Source/SceneManager.cpp:674-693 | with nine decodable images, preparing the scene loads nine textures, reports no failure, and puts the k-th tag in slot k |
| Textures.ShadowUnitFreeIff | 7-1_FinalProjectMilestones/Source/SceneManager.cpp:1090-1093 | the shadow map's unit 15 is free of content textures exactly when at most fifteen textures are loaded |
| Materials.MaterialPreset | 7-1_FinalProjectMilestones/Source/SceneManager.cpp:547-621 | the preset is total over tags: shininess is one of 32, 64, 128, 256, ambient strength lies in (0, 0.3], and any tag outside the seven known ones gets the default preset |
| Materials.PresetTable | 7-1_FinalProjectMilestones/Source/SceneManager.cpp:547-621 | floor and wall share their coefficients, the lamp base reuses the laptop's, the seven tags give five distinct presets, none of them the default, and the default is white with strength 0.05 and shininess 32 |
| Materials.PresetStrength | 7-1_FinalProjectMilestones/Source/SceneManager.cpp:547-621 | only the lamp shade's preset has ambient strength 0.3; every other tag gets 0.05 or 0.03 |
| Materials.FindMaterial | 7-1_FinalProjectMilestones/Source/SceneManager.cpp:402-429 | as written: an empty list reports false; otherwise the first entry with the tag is copied and the result is true whether or not one matched |
| Materials.FindMaterialMissReportsFound | 7-1_FinalProjectMilestones/Source/SceneManager.cpp:402-429 | a non-empty list without the tag still reports true and leaves the output unchanged |
| Materials.FindMaterialChecked | 7-1_FinalProjectMilestones/Source/SceneManager.cpp:402-429 | the corrected lookup reports true exactly when some entry carries the tag, and then copies the first such entry's coefficients |
| Materials.FindMaterialCheckedAgrees | 7-1_FinalProjectMilestones/Source/SceneManager.cpp:402-429 | the corrected and the written lookup give the same output and differ only in the flag on a miss in a non-empty list |
| Materials.FirstRegisteredWins | 7-1_FinalProjectMilestones/Source/SceneManager.cpp:402-429 | with a tag registered twice, the lookup returns the earlier entry |
| Materials.RegistryMatchesPresetOnlyForLampShade | 7-1_FinalProjectMilestones/Source/SceneManager.cpp:696-759 | of the seven registered materials, only the lamp shade's coefficients equal the preset the renderer pushes for its tag |
| UniformProtocol.SetShaderColor | 7-1_FinalProjectMilestones/Source/SceneManager.cpp:478-495 | sets texturing off and the colour, writes nothing else, and does nothing without a program |
| UniformProtocol.SetShaderTexture | 7-1_FinalProjectMilestones/Source/SceneManager.cpp:505-520 | always sets texturing on; points the sampler at the tag's slot only when the tag is loaded and otherwise keeps the old sampler value |
| UniformProtocol.SamplerSeesTaggedTexture | 7-1_FinalProjectMilestones/Source/SceneManager.cpp:505-520 | after texturing with a loaded tag, the sampler's unit is bound to that tag's texture |
| UniformProtocol.SetTextureUVScale | 7-1_FinalProjectMilestones/Source/SceneManager.cpp:530-536 | writes only the tiling factors |
| UniformProtocol.SetShaderMaterial | 7-1_FinalProjectMilestones/Source/SceneManager.cpp:547-621 | writes exactly the five material uniforms, with the preset for the tag |
| UniformProtocol.SetUseLighting | 7-1_FinalProjectMilestones/Source/SceneManager.cpp:1123 | writes only the lighting switch |
| UniformProtocol.SetTransformations | 7-1_FinalProjectMilestones/Source/SceneManager.cpp:439-468 | writes only the model matrix, built from the given scale, rotations and position |
| UniformProtocol.SetModelMatrix | 7-1_FinalProjectMilestones/Source/SceneManager.cpp:631-649 | writes the model matrix to the main and the depth program, each only when present, and nothing else |
| UniformProtocol.SetModelMatrixIsTwoWrites | 7-1_FinalProjectMilestones/Source/SceneManager.cpp:631-649 | the dual write is the single-program write applied to each program, so both receive the identical value |
| Render.WritesWithinSetters | 7-1_FinalProjectMilestones/Source/SceneManager.cpp:439-649 | any command list changes the main program only in setter uniforms and the depth program only in its model matrix |
| Render.Step | 7-1_FinalProjectMilestones/Source/SceneManager.cpp:439-649 | each scene-manager call writes only its own names on each program |
| Render.Exec | 7-1_FinalProjectMilestones/Source/SceneManager.cpp:1115-1365 | running a list records one draw per draw call, and at the end only names the list writes differ |
| Render.ExecTraceFrame | 7-1_FinalProjectMilestones/Source/SceneManager.cpp:1115-1365 | what every draw sees differs from the state before the list only in names the list writes |
| Render.ExecAppend | 7-1_FinalProjectMilestones/Source/SceneManager.cpp:1098-1103 | running two lists in turn is running their concatenation: draws are concatenated and the second list starts where the first ended |
| Render.PieceRun | 7-1_FinalProjectMilestones/Source/SceneManager.cpp:1115-1134 | one object of the lit pass draws its mesh once, last, with its own model matrix in the main program |
| Render.PieceKeeps | 7-1_FinalProjectMilestones/Source/SceneManager.cpp:1115-1134 | a uniform none of an object's setup calls writes reaches its draw unchanged |
| Render.LitPassRun | 7-1_FinalProjectMilestones/Source/SceneManager.cpp:1098-1103 | the lit routines draw their objects in order, each with its own mesh and model matrix |
| Render.DepthPassRun | 7-1_FinalProjectMilestones/Source/SceneManager.cpp:961-1044 | the depth pass draws its items in order, each with its model matrix on every program present, and never needs the main program |
| Render.DepthPass | 7-1_FinalProjectMilestones/Source/SceneManager.cpp:943-1048 | each shadow draw sees its own mesh, its model matrix on the depth program (and on the main program when present) and the light-space matrix |
| Render.LitPass | 7-1_FinalProjectMilestones/Source/SceneManager.cpp:1058-1106 | each lit draw sees its own mesh, its model matrix, the light-space matrix and the shadow sampler on unit 15 |
| Render.ExecStaysLit | 7-1_FinalProjectMilestones/Source/SceneManager.cpp:1115-1365 | once lighting is on, a list that never switches it off draws everything lit |
| Render.LitPassAllLit | 7-1_FinalProjectMilestones/Source/SceneManager.cpp:1058-1106 | if the first object switches lighting on and none switches it off, every lit draw is lit, including objects that never set the switch |
| Scene.WallSameInBothPasses | 7-1_FinalProjectMilestones/Source/SceneManager.cpp:1037-1042 | both passes place the wall identically, its bottom face on the floor's top face |
| Scene.KeyGridPositions | 7-1_FinalProjectMilestones/Source/SceneManager.cpp:1016-1028 | key (row, col) is centred at (-2.31 + 0.44 col, 0.902, -1.1 + 0.385 row), and distinct cells hold distinct keys |
| Scene.KeysOnLaptopBase | 7-1_FinalProjectMilestones/Source/SceneManager.cpp:126-134 | the placement constants are consistent: every key of the grid lies inside the laptop base's footprint |
| Scene.LitGeometry | 7-1_FinalProjectMilestones/Source/SceneManager.cpp:1098-1103 | the lit pass draws desk, mug, handle, laptop base, screen, panel, the 60 keys, lamp base, stem, shade, floor, wall |
| Scene.PassesDrawSameGeometry | 7-1_FinalProjectMilestones/Source/SceneManager.cpp:943-1048 | both passes draw 71 placed meshes and the same multiset of them |
| Scene.PassOrdersDiffer | 7-1_FinalProjectMilestones/Source/SceneManager.cpp:978-1000 | the passes are not equal as sequences: the fourth draw is the laptop base in one and the lamp base in the other |
| Scene.RenderDepthPass | 7-1_FinalProjectMilestones/Source/SceneManager.cpp:943-1048 | the scene's shadow pass draws its 71 items, each with its own model matrix and the light-space matrix |
| Scene.RenderScene | 7-1_FinalProjectMilestones/Source/SceneManager.cpp:1058-1106 | the scene's lit pass draws its 71 items, each with its model matrix, the light-space matrix and the shadow sampler |
| Scene.KeyDrawnInSolidColor | 7-1_FinalProjectMilestones/Source/SceneManager.cpp:1229-1250 | every key is drawn untextured in the key colour with lighting on, whatever the previous draw left |
| Scene.TextureAfterColor | 7-1_FinalProjectMilestones/Source/SceneManager.cpp:1189-1190 | setting a colour and then a texture draws textured, with the colour still in the program |
| Scene.LaptopBaseDrawnTextured | 7-1_FinalProjectMilestones/Source/SceneManager.cpp:1188-1200 | the laptop base's metal colour is overridden by its texture |
| Scene.StemDrawnLikeLampBase | 7-1_FinalProjectMilestones/Source/SceneManager.cpp:1329-1349 | the lamp stem is drawn with exactly the lamp base's settings; only the model matrix differs |
| Scene.BarePieceInherits | 7-1_FinalProjectMilestones/Source/SceneManager.cpp:1342-1349 | an object with no setup calls inherits every setting of the object before it |
| Scene.EveryLitDrawIsLit | 7-1_FinalProjectMilestones/Source/SceneManager.cpp:1058-1106 | every draw of the scene's lit pass has lighting on |
| SceneProjection.UpdateProjectionMatrix | 7-1_FinalProjectMilestones/Source/SceneManager.cpp:1405-1447 | perspective gives (45, w/h, 0.1, 100); orthographic gives a box of height 40 centred on the origin whose aspect is w/h; the projection is uploaded exactly when a shader is attached |
| SceneProjection.SetProjectionMode | 7-1_FinalProjectMilestones/Source/SceneManager.cpp:1373-1385 | stores the mode and recomputes: (45, w/h, 0.1, 100) in perspective mode, the box (±20·w/h, ±20, 0.1, 100) otherwise; the new projection is uploaded twice when a shader is attached |
| SceneProjection.SetScreenDimensions | 7-1_FinalProjectMilestones/Source/SceneManager.cpp:1392-1397 | stores the size, keeps the mode and recomputes the projection for the new w/h, uploading exactly that value once when a shader is attached |
| SceneProjection.ModeDeterminesProjection | 7-1_FinalProjectMilestones/Source/SceneManager.cpp:1373-1385 | after a mode switch the projection depends only on the mode and the screen size |
| SceneProjection.SetProjectionModeIdempotent | 7-1_FinalProjectMilestones/Source/SceneManager.cpp:1373-1385 | repeating a mode switch changes nothing but the upload log |
| SceneProjection.ToggleRoundTrip | 7-1_FinalProjectMilestones/Source/SceneManager.cpp:1373-1385 | switching away and back restores the projection |
| SceneProjection.ResizeAndSwitchCommute | 7-1_FinalProjectMilestones/Source/SceneManager.cpp:1392-1397 | resizing and switching mode in either order give the same projection |
| ViewInput.NewView | 7-1_FinalProjectMilestones/Source/ViewManager.cpp:18-62 | the cursor starts at the window centre (500, 400) with the first event pending, perspective view, zoom 80, sensitivity 0.1, one zero mouse movement sent to the camera, and the shader manager it was given |
| ViewInput.MouseCall | 7-1_FinalProjectMilestones/Source/ViewManager.cpp:132-154 | the first event first moves the remembered position to the cursor, so its offsets are zero; an event at the remembered position also sends zero; later events send the sensitivity times the distance moved, with y reversed |
| ViewInput.MousePosition | 7-1_FinalProjectMilestones/Source/ViewManager.cpp:126-155 | the position is remembered and the first-event flag cleared even without a camera; the camera, when present, receives exactly one movement call |
| ViewInput.MouseOffsetsTelescope | 7-1_FinalProjectMilestones/Source/ViewManager.cpp:138-154 | over a run of mouse events the x offsets sum to the sensitivity times the distance from the last remembered position to the final one |
| ViewInput.FirstMouseEventIsStill | 7-1_FinalProjectMilestones/Source/ViewManager.cpp:130-136 | the first event sends a zero movement, and no later event raises the first-event flag again |
| ViewInput.MouseScroll | 7-1_FinalProjectMilestones/Source/ViewManager.cpp:165-172 | the speed becomes old + offset clamped to [0.1, 10], so it always lies in that range; without a camera nothing changes |
| ViewInput.ScrollMonotone | 7-1_FinalProjectMilestones/Source/ViewManager.cpp:165-172 | more scrolling never gives a lower speed |
| ViewInput.MovementCalls | 7-1_FinalProjectMilestones/Source/ViewManager.cpp:195-222 | one keyboard call per held movement key, each with the frame's time step |
| ViewInput.MovementKeysMapToDirections | 7-1_FinalProjectMilestones/Source/ViewManager.cpp:195-222 | W, S, A, D, Q, E move forward, backward, left, right, up, down: a direction is called exactly when its key is held, once per held key |
| ViewInput.ProcessKeyboardEvents | 7-1_FinalProjectMilestones/Source/ViewManager.cpp:180-232 | Escape requests closing even without a camera, which otherwise ends the polling; P selects perspective, O orthographic, O wins when both are held, neither keeps the mode |
| ViewInput.PrepareSceneView | 7-1_FinalProjectMilestones/Source/ViewManager.cpp:240-277 | the time step is now minus the previous frame, keys are polled before the projection is chosen so a toggle acts in the same frame; orthographic is the box (±10, ±10, 0.1, 100), perspective is (zoom, 1000/800, 0.1, 100); the chosen projection is uploaded exactly when a shader manager is present |
| ViewInput.FrameDeltasTelescope | 7-1_FinalProjectMilestones/Source/ViewManager.cpp:247-249 | the time steps of a run of frames add up to the clock time elapsed since the frame before them |
| ViewInput.GetWindowWidth | 7-1_FinalProjectMilestones/Source/ViewManager.cpp:284-290 | the reported width is the window-creation width 1000 |
| ViewInput.GetWindowHeight | 7-1_FinalProjectMilestones/Source/ViewManager.cpp:295-301 | the reported height is the window-creation height 800 |
| ViewInput.PerspectiveUsesWindowAspect | 7-1_FinalProjectMilestones/Source/ViewManager.cpp:262-266 | the perspective view's aspect is the reported width over height, 1.25 |

## Left out

- OpenGL calls (texture upload, mipmaps, framebuffers, viewport, culling, texture-unit activation): only the bookkeeping they keep is modelled.
- Image decoding: each file's outcome (failure, or some channel count) and the id the GPU hands out are inputs of a load.
- Matrix mathematics: matrices are opaque values built from their arguments; `float` is modelled as `real` with no rounding, and the double-to-float conversions of the mouse and scroll callbacks are not modelled.
- Textures.CreateGLTexture: the source never checks the sixteen-slot capacity, so a successful load is required to have a free slot.
- SceneProjection.UpdateProjectionMatrix: a screen height of 0 would divide by zero in the source; it is a precondition.
- UniformProtocol.SetShaderMaterial: the program pointer is dereferenced without a check, so a program is required; the same holds for the lighting switch and hence for the lit pass.
- ViewInput.PrepareSceneView: the camera is dereferenced without a check, so a camera is required.
- Render.DepthPass: the depth shader manager is dereferenced without a check when the depth pass begins, so a depth program is required; the same holds for Scene.RenderDepthPass.
- The view and camera-position uploads at the end of `PrepareSceneView`: the camera's view matrix and position belong to the camera, whose code is not part of this model. The projection upload beside them, gated on the shader manager, is modelled.
- Camera internals (`ProcessKeyboard`, `ProcessMouseMovement`, position, yaw and pitch): each call is recorded as an event with its arguments.
- The light uniforms set in `PrepareScene` and the light override block of `RenderScene`: constant uniform writes with no decisions.
- `InitShadowMap` and its unused duplicate, and the depth-pass viewport and framebuffer switches: GPU state only.
- `LoadShaders` in ShaderManager.cpp: file input and shader compilation.
- GLFW window creation and callback registration; key states and clock readings are inputs.
- Console logging.
- The shader manager's setters are modelled as map writes, each into its own program whichever program OpenGL has bound; during the depth pass the model matrix written through the main shader manager is therefore taken to reach the main program, as the program's own comment intends; `SceneManager.h` is not part of this model, so the projection state's initial values are an input.
- ViewManager.h holds declarations only.

## Findings

| source | as written | input that shows it | evidently intended | confidence | as-written member | corrected member |
|---|---|---|---|---|---|---|
| 7-1_FinalProjectMilestones/Source/SceneManager.cpp:402-429 | `FindMaterial` returns true for any non-empty material list, also when no entry carries the tag | the seven scene materials and the tag "unknownTag": reports true, output unchanged | report true only when an entry with the tag was found | not executed | Materials.FindMaterialMissReportsFound | Materials.FindMaterialChecked |
