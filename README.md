# Desk scene: texture/material registries and view input state, in Dafny

This project models the state-holding core of a small OpenGL desk-scene
viewer (a lamp, a monitor, a keyboard, a cup, pencils, a book and a donut
seen through a free-fly camera). Two parts of it carry logic:

* **The scene manager's registries** (`SceneManager.cpp`). Textures are
  registered into a fixed array of `{ID, tag}` records. A fill counter
  says how many records are in use. `CreateGLTexture` appends a record, and
  only after a decode that yields 3 or 4 channels. `FindTextureSlot` and
  `FindTextureID` are front-to-back scans that return the first exact,
  case-sensitive match, or -1. `BindGLTextures` binds texture unit *i* to
  record *i*. Materials are a growable list filled by `DefineObjectMaterials`.
  `FindMaterial` scans that list, and `SetShaderMaterial` uploads what it
  finds.
* **The view manager's input state machine** (`ViewManager.cpp`). It keeps
  the mouse bookkeeping (first-event flag, last position), the frame clock,
  and the orthographic/perspective toggle. It also assigns the camera's
  position, front and up vectors directly on the O, Q and E keys.

Files:

* `values.dfy`: `Option` and `Vec3`.
* `tag_lookup.dfy`: `FirstIndexOf`, the first-match scan both registries
  use, and what is proved about it. This includes the characterisation as
  "least matching index, or -1" and the shadowing of duplicate tags.
* `scene_data.dfy`: the records and the scene content (seven texture tags
  and seven materials). It also has `Register`/`RegisterAll`, the
  value-level meaning of texture registration, with the lemmas about them.
* `scene_manager.dfy`: class `SceneManager`. It holds the record array, the
  fill counter and the material list, and has one method per operation. Each
  method is proved against the functions above.
* `view_manager.dfy`: class `Camera` (the fields the view manager assigns)
  and class `ViewManager` (the file-level input state of `ViewManager.cpp`).
  It also has the pure functions and lemmas that specify them.

Inputs from outside the program are parameters:

* `Upload(id, channels)`, or `None` for a file that cannot be decoded,
  stands for what the image decoder and `glGenTextures` return.
* `Keys` stands for the keys held during a frame.
* `currentFrame` stands for the clock reading.
* `movedPosition` is where the camera's own W/A/S/D movement leaves it.
* `uninitialised` is the contents of the never-initialised local material
  in `SetShaderMaterial`.

The model follows the code as written:

* Tags are not unique. A duplicate is registered and shadowed, not rejected.
* Holding P flips the projection on every frame it is held; there is no debounce.
* The scene's lower-case tags (`"monscreen"`, `"pckey"`, ...) are modelled
  as the misses they are. `SceneData.SceneTagLookups` proves this.

## Model

| member | source | states |
|---|---|---|
| `TagLookup.FirstIndexOfIsFirst` | SceneManager.cpp:189-207 | The scan's answer is -1 exactly when no tag equals the key. Otherwise it is the least index whose tag equals the key exactly (case-sensitive). |
| `TagLookup.FirstIndexOfAppend` | SceneManager.cpp:163-181 | A lookup in `a + b` returns the entry in `a` whenever `a` holds the tag, so a later duplicate is shadowed. Otherwise it returns `|a|` plus the index in `b`, or -1. |
| `SceneData.RegisterAllKeepsPrefix` | SceneManager.cpp:113-116 | Any run of registrations only appends. Earlier records keep their slots, and the registry never exceeds its 16 records. |
| `SceneData.RegisterThenFind` | SceneManager.cpp:94-118 | After an accepted registration of a tag that fits, the first-match lookup finds a record with that tag. If the tag was new, that is the new record at the old count, holding this load's texture name. If the tag was already registered, the earlier record still wins. |
| `SceneData.RegisterAllAccepted` | SceneManager.cpp:94-118 | When every decode has 3 or 4 channels and the records fit, registration appends one record per call, in call order, each with its own texture name. |
| `SceneData.RegisterAsWrittenAgreesWhileRoom` | SceneManager.cpp:94-118 | While a record is free, the registration step as written (append on an accepted decode, no capacity test) gives the same registry as the corrected step. |
| `SceneData.SeventeenthLoadOverflows` | SceneManager.cpp:113-118 | With all 16 records in use, an accepted load as written still succeeds. It leaves 17 records, the first 16 unchanged and record 16, one past the array, holding the new `{ID, tag}`. The corrected step leaves the registry unchanged. |
| `SceneData.SceneTagLookups` | SceneManager.cpp:496-512 | In the scene's registration order, woodTexture..donutTex sit at slots 0..6. The lower-case spellings passed to SetShaderTexture by the render pass (lines 578, 589, 600, 611, 663) find nothing. |
| `SceneData.SceneTextureSlots` | SceneManager.cpp:496-512 | If all seven loads succeed from an empty registry, the registered tags are exactly the scene's tags in call order. Each record holds the texture name of its own load. |
| `SceneData.SceneMaterialsFindOwnEntry` | SceneManager.cpp:373-444 | The seven material tags are pairwise distinct, so in the scene's material list each tag's lookup finds its own entry. |
| `Scene.SceneManager.CreateGLTexture` | SceneManager.cpp:61-125 | Returns true iff the image decoded with 3 or 4 channels and a record is free. Then it writes `{ID, tag}` at the old count, adds exactly one to the count and leaves every other record alone. On a failed decode, another channel count or a full array, the array and count are unchanged. |
| `Scene.SceneManager.LoadSceneTextures` | SceneManager.cpp:496-512 | The registry afterwards is the old one with the seven scene tags registered in order. Each tag is registered only if its load is accepted. |
| `Scene.SceneManager.BindGLTextures` | SceneManager.cpp:133-141 | Texture unit i is bound to the texture name of record i for every record in use, and no other unit is bound. |
| `Scene.SceneManager.FindTextureSlot` | SceneManager.cpp:189-207 | Returns the first-match index over the registered tags, so it lies in [-1, count). The registry is not modified. |
| `Scene.SceneManager.FindTextureID` | SceneManager.cpp:163-181 | Returns -1 exactly when the tag is not registered, that is, when FindTextureSlot returns -1. Otherwise it returns the texture name in the first record with that tag. |
| `Scene.SceneManager.SetShaderTexture` | SceneManager.cpp:315-326 | Switches texturing on and sets the sampler to the tag's slot. The slot is -1 exactly for a tag that is not registered. |
| `Scene.SceneManager.FindMaterial` | SceneManager.cpp:215-242 | Returns false iff the list is empty and true otherwise, even on a miss. It copies the five lighting values (not the tag) of the first matching entry, and only when there is a match. On a miss the caller's material is untouched. |
| `Scene.SceneManager.SetShaderMaterial` | SceneManager.cpp:348-366 | Uploads nothing iff no material is defined. A defined tag uploads its first entry's values. An undefined tag in a non-empty list uploads the uninitialised local's values. |
| `Scene.SceneManager.DefineObjectMaterials` | SceneManager.cpp:373-444 | Appends the seven scene materials to the list in order: lampBody, lampKnob, cup, pencil, monitor, monitorStand, bluebook. |
| `View.MouseMoved` | ViewManager.cpp:125-138 | The first event yields zero offsets. Later events yield x - lastX and lastY - y (y reversed). Afterwards the event is the last position and the first-event flag is down. |
| `View.MouseRunTelescopes` | ViewManager.cpp:120-142 | Over any run of mouse events, the offsets passed to the camera add up to the motion from the reference point to the last event. The reference is the first event itself if no event had been seen. The flag stays down. |
| `View.FrameDeltasSumToElapsed` | ViewManager.cpp:222-225 | Over any run of frames, the per-frame deltas add up to the time since the frame before the run. The last frame time is the last reading. |
| `View.HeldMoves` | ViewManager.cpp:194-205 | The number of camera movement calls equals the number of held W/S/A/D keys. Each moves gDeltaTime * 5. |
| `View.HeldMovesFollowKeys` | ViewManager.cpp:194-205 | The calls come in the handler's order W, S, A, D (forward, backward, left, right), with strictly increasing rank, so no direction repeats. A direction is moved exactly when its key is held. |
| `View.PositionAfterKeys` | ViewManager.cpp:166-209 | O restores (0, 5, 12) before movement. Q adds the speed to y and E subtracts it. x and z are those left by the reset or the W/A/S/D movement. |
| `View.SelectProjection` | ViewManager.cpp:233-242 | The projection is orthographic iff the toggle is set. Orthographic uses a ±10 volume; perspective uses the camera zoom and a 1000/800 aspect. Both use near 0.1 and far 100. |
| `View.ViewManager.constructor` | ViewManager.cpp:49-60 | The camera starts at position (0, 5, 12), front (0, -0.5, -2), up (0, 1, 0) and zoom 80. No mouse event has been seen, and the last position is the window centre (500, 400). The clock is at 0 and perspective is selected. |
| `View.ViewManager.MousePositionCallback` | ViewManager.cpp:120-142 | The new mouse bookkeeping and the returned offsets are those of MouseMoved from the old bookkeeping. Afterwards the first-event flag is down. |
| `View.ViewManager.ProcessKeyboardEvents` | ViewManager.cpp:164-210 | P flips the projection toggle, so two presses restore it. O resets position, front and up but not zoom. Escape requests close. The position follows PositionAfterKeys at speed gDeltaTime * 5. |
| `View.ViewManager.PrepareSceneView` | ViewManager.cpp:217-247 | Sets gDeltaTime to now minus the previous frame time, then records now as the last frame time. Keyboard handling runs at the new speed: O resets front and up, which are otherwise kept, and zoom is kept. The projection is chosen from the updated toggle, and the view position is the camera position. |

## Left out

- OpenGL calls are outside the model, so no GPU state is modelled; only the returned texture name is. This covers texture creation, parameters, upload, mipmaps, binding and uniform writes.
- stb_image decoding is an input: an optional `Upload` carrying the decoded channel count.
- `DestroyGLTextures` (SceneManager.cpp:149-155): it only calls `glGenTextures` to overwrite each record's name. That is a foreign call with no effect the model could state beyond "names replaced".
- `SetTransformations`: its glm matrix composition is float trigonometry.
- `SetShaderColor`, `SetTextureUVScale` and `SetupSceneLights`: each only pushes constant uniforms to the shader manager.
- `RenderScene`: a fixed sequence of transforms, draw calls and explicit texture-unit bindings: `glActiveTexture(GL_TEXTURE0)` (SceneManager.cpp:552), `GL_TEXTURE1`, and the bare `GL_TEXTURE` constant (lines 649 and 665). Its tag strings are used only as lookup inputs in `SceneData.SceneTagLookups`.
- Scene.SceneManager.SetShaderTexture: the `NULL != m_pShaderManager` guard (SceneManager.cpp:318) is dropped. The model's scene manager always has a shader manager, so texturing is always switched on.
- `PrepareScene` and mesh loading: the `ShapeMeshes` collaborator is not part of this model.
- The GLFW window, callback registration, key polling, `glfwGetTime` and `Mouse_Scroll_Callback`: keys and the clock are inputs, and scrolling only reaches camera code.
- The bodies of `Camera::ProcessMouseMovement`, `ProcessKeyboard`, `ProcessMouseScroll` and `GetViewMatrix` are not part of this model. Yaw, pitch and the view matrix are therefore not modelled. The model's camera keeps its front vector under mouse motion.
- View and projection matrix values: only the selected mode and its parameters are modelled.
- The null-camera early return in `ProcessKeyboardEvents`: the model's view manager always owns a camera.
- Console logging.
- Scene.SceneManager.FindTextureID: texture names are unbounded naturals. The source's conversion of a `GLuint` name to `int` is not modelled.
- View.ViewManager.MousePositionCallback: the source's `double`-to-`float` narrowing and float rounding are idealised as exact reals. The same holds for every other coordinate and time.
- Scene.SceneManager.constructor: the record array holds 16 records, taken from the comment at SceneManager.cpp:131, and starts with a fill count of 0. SceneManager.h, which declares both, is not part of this model.
- View.ViewManager.constructor: the file-level variables of ViewManager.cpp become fields of the one view-manager object.

## Findings

| source | as written | input that shows it | evidently intended | confidence | as-written member | corrected member |
|---|---|---|---|---|---|---|
| SceneManager.cpp:113-116 | `CreateGLTexture` writes `m_textureIDs[m_loadedTextures]` after checking only the decode and the channel count, never the fill count | a 17th successful 3-channel load, with 16 records in use: returns true, writes index 16 and sets the count to 17 | refuse the load (return false, registry unchanged) when all 16 records are in use | medium, not executed (array size from the comment at line 131) | `SceneData.SeventeenthLoadOverflows` | `Scene.SceneManager.CreateGLTexture` |
