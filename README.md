# Grafika_komputerowa: interaction layer and OBJ loaders in Dafny

This project models the logic of a small first-person OpenGL scene. The player walks around a room, looks at bottles on a desk, picks one up with E, drinks it with F, and gets progressively "intoxicated". Intoxication shakes the camera and wears off after ten seconds. The two OBJ loaders that feed the scene its meshes are modelled as well.

Modules (one file each):

- `Vectors` (`vectors.dfy`): `glm::vec3` / `glm::vec2` over exact reals.
- `Collision` (`collision.dfy`): `AABB::contains`, and the collider scan in `processInput`.
- `Focus` (`focus.dfy`): `getDrinkableInFocus`, the first-match ray test over the bottles.
- `Interaction` (`interaction.dfy`): the game state as a value. It has one function per block of code that changes the globals:
  - the intoxication countdown;
  - the camera shake;
  - the drinking countdown;
  - the three blocks of `processInput`;
  - `mouse_callback`.

  It also holds the invariant those blocks keep, and the lemmas stating what each block promises.
- `GameLoop` (`game_state.dfy`): the same globals as fields of a class. Its methods update the fields in place as the C++ does. Each method is proved to produce exactly the state the matching `Interaction` function computes, and to keep the invariant.
- `SceneData` (`scene.dfy`): the four colliders and four bottles that `initOpenGLProgram` registers, and facts about the starting position.
- `TinyObj` (`tinyobj.dfy`): what `tinyobj::LoadObj` returns, as plain values. It also defines the corner order that both loaders' nested loops follow.
- `MeshModel` (`model.dfy`): `Model::loadModel`. This covers de-indexing into one vertex per corner, the identity index buffer, the normal/texcoord defaults with the V flip, the material base directory, the first-texture choice and the failure path.
- `ObjLoader` (`model_loader.dfy`): `loadOBJ`. It flattens positions three floats per corner, derives `vertexCount`, and returns early on failure.
- `Wrappers` (`wrappers.dfy`): `Option`.

Values the code gets from trigonometry, `normalize`, `cross`, the clock or a foreign library are parameters of the model:
- the camera basis and view ray;
- the shake's sine and cosine;
- the frame time;
- tinyobj's parse result;
- the VAO name.

In several places a reader might expect behaviour the code does not have. The model follows the code:

- **Nearest versus first.** One might expect focus to go to the bottle nearest the view ray or nearest the camera. The code returns the first registered bottle that passes both tests (`Focus.FirstMatchIsNotNearest`).
- **Shadows.** One might expect omnidirectional shadow maps, six light transforms per light. No such code exists: `drawScene` is one lit pass, so there is nothing of it to model.
- **Radius 0.** One might expect a bottle lying exactly on the view ray to be found even with radius 0. The code compares `distSq < radius * radius` strictly, so with radius 0 nothing is ever found (`Focus.ZeroRadiusFocusesNothing`).
- **Press, release, press.** One might expect pressing E, releasing it and pressing it again to leave a bottle held. The code toggles on every rising edge, so the second press drops the bottle (`Interaction.PressReleasePressDrops`).

## Model

| member | source | states |
|---|---|---|
| Collision.Contains | main_file.cpp:33-37 | the point is inside exactly when each coordinate lies between the two corners' coordinates inclusively, in whichever order the corners are given |
| Collision.CornerOrderIrrelevant | main_file.cpp:33-37 | swapping `min` and `max` on any combination of axes does not change the test |
| Collision.CornersAreInside | main_file.cpp:33-37 | the test is inclusive: both corners are inside the box |
| Collision.IsColliding | main_file.cpp:127-135 | the scan with early `break` reports a collision exactly when some collider contains the feet point |
| Focus.FirstInFocus | main_file.cpp:84-102 | the result is -1 exactly when no drinkable passes both tests (projection in [0, maxDistance], distSq strictly below radius²); otherwise it is an index that passes and every earlier index fails |
| Focus.GetDrinkableInFocus | main_file.cpp:84-102 | the loop with `continue` and early `return` yields the first index in focus, or -1 |
| Focus.OnRayWithinReachIsInFocus | main_file.cpp:89-98 | a drinkable exactly on a unit view ray, in front and within reach, is in focus for any nonzero radius |
| Focus.BeyondReachIsNotInFocus | main_file.cpp:92-93 | a drinkable whose projection exceeds maxDistance is never in focus, however near the ray it lies |
| Focus.ZeroRadiusFocusesNothing | main_file.cpp:98 | with radius 0 the strict test rejects every drinkable, so the result is -1 |
| Focus.FirstMatchIsNotNearest | main_file.cpp:88-100 | of two drinkables on the ray within reach, the one registered first is returned even when the second is nearer |
| Interaction.ClampPitch | main_file.cpp:194-195 | the clamped pitch lies in [-89, 89]; it is unchanged inside that range and saturates at the nearer bound outside it |
| Interaction.ShakeAmplitude | main_file.cpp:544 | the amplitude 0.15 + 0.05·level lies within [0.15, 0.35] for levels 0..4 |
| Interaction.InitialStateValid | main_file.cpp:51-69 | the initial globals satisfy the invariant: level 0, nothing held, not drinking, pitch 0 |
| Interaction.DecayPreservesInv | main_file.cpp:535-540 | the intoxication countdown keeps the invariant; in particular an expired timer means level 0 |
| Interaction.ShakePreservesInv | main_file.cpp:542-557 | the camera shake keeps the pitch within ±89 and the rest of the invariant |
| Interaction.DrinkTimerPreservesInv | main_file.cpp:561-571 | the drinking countdown keeps the level within 0..4 and "drinking implies holding" |
| Interaction.InputPreservesInv | main_file.cpp:112-170 | processInput keeps the invariant: no pick-up or drop while drinking, and no drink without a held bottle |
| Interaction.MovementOnlyMoves | main_file.cpp:116-139 | the movement block changes the camera position and nothing else |
| Interaction.InputKeepsIntoxication | main_file.cpp:112-170 | processInput leaves the intoxication level and timer unchanged |
| Interaction.FramePreservesInv | main_file.cpp:535-574 | a whole frame (decay, shake, drink countdown, processInput) keeps the invariant, so the level never leaves 0..4 and drinking always implies holding |
| Interaction.MousePreservesInv | main_file.cpp:172-195 | a mouse event keeps the pitch within ±89 and the rest of the invariant |
| Interaction.IntoxicationCountdown | main_file.cpp:535-540 | in a frame in which no drink finishes (none under way, or one with more than dt left), a positive timer drops by dt and the level is reset to 0 (not decremented) when it reaches zero or below; an expired timer leaves timer and level alone |
| Interaction.DrinkTimerRunsOut | main_file.cpp:561-571 | the drinking countdown on its own, whatever the keys: when the timer runs out within dt, drinking stops, the bottle is put down, the level becomes min(4, level+1) and the intoxication timer restarts at 10; with time left only the timer drops by dt; with no drink nothing changes |
| Interaction.DrinkFinishes | main_file.cpp:535-571 | across a whole frame with E and F released (a rising E later in the same frame would pick a bottle up again), a drink whose timer runs out ends with nothing held, the intoxication timer at 10 and the level one above its value after that frame's intoxication countdown (at most 4) |
| Interaction.MovementAllOrNothing | main_file.cpp:127-139 | after processInput the camera is at the proposed position when the feet point (0.4 below) is in no collider, and exactly where it was otherwise; no partial or sliding move |
| Interaction.ProposedPositionIsSumOfSteps | main_file.cpp:116-125 | the four sequential key tests add up to one unnormalised step per axis: forward or back along frontNoY, right or left along `right`, nothing when both or neither key of an axis is down |
| Interaction.OpposingKeysCancel | main_file.cpp:118-125 | W with S and A with D cancel, and with no direction key the proposal is the current position |
| Interaction.PickUpToggles | main_file.cpp:141-156 | on a rising edge of E while not drinking, the held index becomes the focused index if nothing was held (-1 when nothing is in focus) and -1 otherwise; E held from the last frame, or any E while drinking, leaves it unchanged; the edge flag records E |
| Interaction.DrinkStarts | main_file.cpp:158-167 | drinking starts, with the timer at 3, exactly on a rising edge of F while a bottle is held and no drink is under way; otherwise drinking state and timer are unchanged; the edge flag records F |
| Interaction.PressReleasePressDrops | main_file.cpp:141-156 | pressing E, releasing and pressing again picks up the focused bottle, keeps it, then drops it |
| Interaction.FirstMouseEventDoesNotTurn | main_file.cpp:173-190 | the first mouse event only records the cursor; yaw and pitch stay put |
| Interaction.ShakeIsBounded | main_file.cpp:542-551 | at level 0 the shake changes nothing; otherwise the yaw moves by at most the level's amplitude |
| Interaction.DrinkCompletesAfterDuration | main_file.cpp:531-571 | over frames, each of positive length, totalling exactly the 3-second drink (E and F released in all of them), the drink ends in the last frame: nothing held, timer 10, level one above the start (at most 4) if the intoxication timer outlasted the drink, else 1 |
| GameLoop.GameState.constructor | main_file.cpp:51-69 | the globals start at their declared values (camera at (1, 0.5, -0.4), yaw -90, pitch 0, cursor at 250, first-mouse set) and satisfy the invariant |
| GameLoop.GameState.DecayIntoxication | main_file.cpp:535-540 | the in-place countdown leaves the state the decay function computes, and keeps the invariant |
| GameLoop.GameState.ShakeCamera | main_file.cpp:542-557 | the in-place shake leaves the state the shake function computes, and keeps the invariant |
| GameLoop.GameState.UpdateDrinking | main_file.cpp:561-571 | the in-place drinking countdown leaves the state the drink-timer function computes, and keeps the invariant |
| GameLoop.GameState.ProcessInput | main_file.cpp:112-170 | processInput leaves the state of movement, then E, then F, and keeps the invariant |
| GameLoop.GameState.MoveCamera | main_file.cpp:113-139 | the sequential key updates and the collider scan leave the state the movement gate computes, and keep the invariant |
| GameLoop.GameState.HandlePickUpKey | main_file.cpp:141-156 | the E block leaves the state the pick-up function computes, and keeps the invariant |
| GameLoop.GameState.HandleDrinkKey | main_file.cpp:158-167 | the F block leaves the state the drink-key function computes, and keeps the invariant |
| GameLoop.GameState.RunFrame | main_file.cpp:531-574 | one pass of the frame loop leaves the state one frame step computes, and keeps the invariant |
| GameLoop.GameState.MouseCallback | main_file.cpp:172-195 | the in-place mouse handler leaves the state the mouse function computes, with the pitch clamped |
| SceneData.StartIsFree | main_file.cpp:237-240 | the starting feet point lies in none of the four registered colliders |
| SceneData.NothingInFocusAtStart | main_file.cpp:229-232 | looking ahead from the start, no bottle is in focus (all are 0.9 away, beyond the 0.5 reach) |
| SceneData.DeskStopsPlayer | main_file.cpp:237 | walking straight ahead from the start for 0.8 s would put the feet inside the desk box, so the camera does not move at all |
| TinyObj.FlatIndicesAt | model.cpp:40-41 | corner j of shape s is visited at position (corners of the earlier shapes) + j: shape order, then index order |
| TinyObj.FlatIndicesFrom | model.cpp:40-41 | every visited corner comes from some shape at that position, so nothing is added |
| TinyObj.FlatIndicesLength | modelLoader.cpp:21-22 | the loops visit exactly as many corners as the shapes' index counts add up to |
| MeshModel.FindLastOf | model.cpp:31 | `find_last_of` gives npos when no character of the set occurs, and otherwise the position of the last occurrence |
| MeshModel.BaseDir | model.cpp:31 | the base directory is a prefix of the path |
| MeshModel.BaseDirIsLastSeparatorPrefix | model.cpp:31 | the base directory is the empty string when the path has no '/' or '\\' (npos + 1 wraps to 0); otherwise it ends with the last separator, and no separator follows it in the path |
| MeshModel.BaseDirIdempotent | model.cpp:31 | taking the base directory of a base directory changes nothing |
| MeshModel.TexturePathInBaseDir | model.cpp:85 | a texture named without separators, joined to the base directory, lies in that same directory |
| MeshModel.Expand | model.cpp:40-75 | de-indexing yields exactly one vertex per corner |
| MeshModel.ExpandAt | model.cpp:42-72 | vertex k is the vertex of corner k: position copied from `attrib.vertices[3vi..3vi+2]`; normal copied when normals exist and the index is non-negative, zero otherwise; texcoords (u, 1 - v) when texcoords exist and the index is non-negative, (0, 0) otherwise |
| MeshModel.ExpandConcat | model.cpp:40-41 | de-indexing two runs of corners gives each run's vertices, one after the other |
| MeshModel.FirstTexture | model.cpp:80-91 | no index exactly when no material has a non-empty diffuse texture name; otherwise the index of the first that does |
| MeshModel.TextureIsFirstNamed | model.cpp:77-99 | with no named texture nothing is loaded; otherwise exactly one file is loaded, base directory + the first non-empty name |
| MeshModel.IndexedDrawMatchesMesh | model.cpp:72-73 | drawing through the identity index buffer visits corner j of shape s at its flat position, with that corner's vertex |
| MeshModel.Model.constructor | model.cpp:8-9 | `loadModel` starts from an empty vertex list, an empty index list and no texture |
| MeshModel.Model.LoadModel | model.cpp:25-100 | failure gives "Failed to load model: " + path before anything is appended; success appends one vertex per corner, keeps the index buffer the identity on the vertices, and loads the first named texture from the base directory |
| MeshModel.Model.AppendMesh | model.cpp:40-75 | the nested loops append the de-indexed vertices of all shapes in order, keeping the index buffer the identity |
| MeshModel.Model.AppendShape | model.cpp:41-74 | the corner loop appends one vertex per corner and `indices.size()` as each index |
| MeshModel.Model.LoadFirstTexture | model.cpp:77-96 | the material scan with `break` loads base directory + the first non-empty diffuse name, or nothing |
| ObjLoader.FlatPositions | modelLoader.cpp:19-27 | the flat array holds exactly three floats per corner |
| ObjLoader.FlatPositionsAt | modelLoader.cpp:22-26 | floats 3k, 3k+1 and 3k+2 are `attrib.vertices[3vi+0..2]` for corner k |
| ObjLoader.FlatPositionsConcat | modelLoader.cpp:21-27 | the array for two runs of corners is each run's array, one after the other |
| ObjLoader.LoadersAgreeOnPositions | modelLoader.cpp:23-25 | the three floats loadOBJ uploads for corner k are the position of vertex k that Model::loadModel builds from the same parse |
| ObjLoader.LoadOBJ | modelLoader.cpp:7-43 | on failure it returns false and leaves `vao` and `vertexCount` alone; on success it returns true, uploads the flattened positions, and sets `vertexCount` to the total number of corners (`size / 3`) |
| ObjLoader.AppendPositions | modelLoader.cpp:22-26 | the corner loop appends the three position floats of each corner in order |

## Left out

- OpenGL, GLFW and GLEW calls are not modelled: window setup, `drawScene`, `Model::Draw`, `Model::setupMesh`, texture upload, the VAO/VBO creation in `loadOBJ`, `windowResizeCallback` and `error_callback`. They are foreign calls. `loadOBJ` receives the generated VAO name as a parameter. `Model` records the file name it passes to `loadTexture`, not the GL texture.
- `Model::loadTexture` and lodepng decoding are not modelled: they are a foreign library and I/O. Whether the texture file decodes is not modelled.
- tinyobj parsing is a foreign library. Its result is an input, with the guarantee that every index it returns is in range stated as a precondition.
- `shaderprogram.cpp` is file I/O and thin GL wrappers, and is not part of this model.
- Trigonometry and normalisation are not modelled. This covers:
  - `updateCameraDirection` and the `cameraFront` it derives from yaw and pitch;
  - `getRayDirection`;
  - `normalize` and `cross` in `processInput`;
  - the shake frequency and the sine and cosine of the shake phase;
  - the bottles' hover, spin and held-bottle matrices.

  The camera basis (`frontNoY`, `right`), the unit view ray and the shake's sine and cosine are inputs instead.
- `glfwGetTime` and the `deltaTime` / `totalTime` / `lastFrame` bookkeeping are not modelled. The frame time is a parameter.
- Floating point rounding is not modelled: coordinates, timers and angles are exact reals. The double cursor coordinates that `mouse_callback` stores into float `lastX` / `lastY` are reals too.
- Console output is left out: `warn` / `err` printing, the debug lines and the "no valid texture" warning. The `foundTexture` flag only feeds that warning.
- The `Model*` of each drinkable is left out; it is only used for drawing.
- `Model::Model` (model.cpp:8-11) is an empty constructor followed by `LoadModel`. The thrown exception is an error result here, and the object is then not used; `setupMesh` is GL.
- MeshModel.Model.LoadModel: the index buffer holds unbounded naturals. Truncation to 32-bit `unsigned int` past 2^32 corners is not modelled.
- ObjLoader.LoadOBJ: `vertexCount` is an unbounded integer. The `size_t` to `int` conversion past 2^31 - 1 corners is not modelled.
- modelLoader.h declarations are not modelled. They declare a second `Model` struct and `loadModel` that have no definitions.
