# Free-look camera

This is a model of the reusable free-look `Camera` of the OpenGL exercises and of the input
handling that drives it in the camera exercise.

The camera keeps nine public fields:

- a position;
- a right/up/forward basis (`xAxis`, `yAxis`, `zAxis`), derived from yaw and pitch;
- yaw and pitch;
- a movement speed;
- a look sensitivity;
- a vertical field of view.

`translate` moves the camera and then resets its speed. `accelerate` sets a one-shot speed
multiplier. `rotate` accumulates yaw and pitch, with an optional pitch clamp. `zoom` clamps
the field of view. `getViewMatrix` assembles the view matrix. The private `update` recomputes
the basis.

The exercise keeps a global camera at (0, 0, 3) and the last mouse position. Its handlers
turn key states, mouse moves and scroll offsets into camera calls.

The model has three modules:

- `Glm` (glm.dfy) holds the part of glm the camera uses: vectors, column-major 4x4 matrices,
  `cross`, `clamp` and the matrix products.
- `FreeLookCamera` (camera.dfy) holds the `Camera` class. Its methods change the fields in place,
  and each method states the new value of every field it may change.
- `CameraExercise` (camera_exercise.dfy) holds the class `Globals`. Its fields are the mouse
  state and a reference to the camera. Its methods model `processInput`, `mouse_callback`
  and `scroll_callback`.

Sine, cosine and `glm::normalize` are not computed. They are supplied as a `MathLib` value
stored in the camera. The only assumption about normalisation is that it rescales a vector
by a strictly positive factor. With that assumption, together with the exact algebra of the
cross product with the world up vector, the model proves these results:

- the right axis stays a positive multiple of the forward axis crossed with the world up
  vector, and so horizontal (see "## Left out" for the straight-up and straight-down
  headings, where that cross product is zero in exact reals);
- no key ever changes the camera's height;
- the pitch stays within [-89, 89] whenever the clamp applies.

A key-handling quirk follows from `translate` resetting the speed: holding shift doubles the
speed of only the first movement key handled in a frame. It is modelled as written and
proved as lemmas.

## Model

| member | source | states |
|---|---|---|
| Glm.Clamp | shared/src/camera/camera.cpp:52 | glm::clamp: the result is at most hi and at least lo, keeps an in-range value, and gives the nearer bound for an out-of-range one |
| Glm.WithEntry | shared/src/camera/camera.cpp:70-82 | assigning `m[c][r]` changes exactly that entry and no other |
| FreeLookCamera.BasisShape | shared/src/camera/camera.cpp:88-96 | after update, forward is a positive multiple of the heading, right a positive multiple of cross(forward, UP) = (-z.z, 0, z.x) and so horizontal, and up a positive multiple of cross(right, forward) |
| FreeLookCamera.RightOfForwardIsLevel | shared/src/camera/camera.cpp:94 | any positive multiple of cross(forward, UP) has y-component 0 |
| FreeLookCamera.DefaultAxesRightOfForward | shared/src/camera/camera.cpp:5-7 | the default RIGHT axis is cross(FORWARD, UP) itself, so the default axes already keep the invariant every update restores |
| FreeLookCamera.LookAtMapsPoint | shared/src/camera/camera.cpp:67-86 | the view matrix sends a world point p to (x·(p-pos), y·(p-pos), -z·(p-pos), 1): the 3x3 block has rows xAxis, yAxis, -zAxis, the fourth column is that block applied to -position, and the bottom row is (0, 0, 0, 1) |
| FreeLookCamera.LookAtMapsDirection | shared/src/camera/camera.cpp:67-86 | a direction (w = 0) is only rotated onto the axes, never translated |
| FreeLookCamera.LookAtCentresEye | shared/src/camera/camera.cpp:67-86 | the camera's own position is sent to the origin |
| FreeLookCamera.DefaultLookAtIsIdentity | shared/src/camera/camera.cpp:5-8 | a camera at the origin with the default axes has the identity view matrix |
| FreeLookCamera.AcceleratedDisplacement | shared/src/camera/camera.cpp:40-43 | a translate at speed 2.5·f covers f times the distance of one at speed 2.5 |
| FreeLookCamera.PitchAfter | shared/src/camera/camera.cpp:46-52 | with the clamp, the new pitch lies in [-89, 89] and an in-range sum is kept; without it, the sum is kept as it is |
| FreeLookCamera.Camera.constructor | shared/src/camera/camera.cpp:16-25 | the default camera: origin, axes (1,0,0), (0,1,0), (0,0,-1), yaw -90, pitch 0, speed 2.5, sensitivity 0.1, field of view 45; its right axis is already the forward axis crossed with UP |
| FreeLookCamera.Camera.At | shared/src/camera/camera.cpp:27-30 | the defaults with the given position and the basis `update` computes for the default angles |
| FreeLookCamera.Camera.Oriented | shared/src/camera/camera.cpp:32-36 | the given position, the given yaw and the pitch stored unclamped, and the basis for those angles |
| FreeLookCamera.Camera.Translate | shared/src/camera/camera.cpp:40-43 | the position moves by translation·speed·deltaTime, and the speed becomes 2.5 whatever it was; no other field changes |
| FreeLookCamera.Camera.Rotate | shared/src/camera/camera.cpp:45-55 | yaw grows by xOffset·sensitivity and is never clamped; pitch is PitchAfter of the sum, in [-89, 89] when constrainPitch holds, which is the default (camera.hpp:25); the basis is recomputed |
| FreeLookCamera.Camera.Zoom | shared/src/camera/camera.cpp:57-61 | the field of view becomes clamp(fovY - yOffset, 1, 45), so it always lies in [1, 45] |
| FreeLookCamera.Camera.Accelerate | shared/src/camera/camera.cpp:63-65 | the speed becomes 2.5·factor, overwriting any earlier multiplier; factor defaults to 2, which gives 5 (camera.hpp:27) |
| FreeLookCamera.Camera.GetViewMatrix | shared/src/camera/camera.cpp:67-86 | the product rotation·translation built entry by entry equals the LookAt closed form, and no field changes |
| FreeLookCamera.Camera.Update | shared/src/camera/camera.cpp:88-96 | the axes become the Basis for the current yaw and pitch, and the right axis is a positive multiple of the forward axis crossed with UP |
| CameraExercise.TravelSnoc | shared/src/camera/camera.cpp:40-43 | one more translate at the end of a run moves at the speed the run left behind |
| CameraExercise.TravelTranslates | shared/src/camera/camera.cpp:40-43 | a run of translates started from a shifted position ends shifted by the same offset |
| CameraExercise.StartSpeedOnlyAffectsFirstMove | exercises/1.getting-started/6.camera/exercise1/src/main.cpp:254-264 | the speed before a run of translates affects only the first move, because each translate resets the speed |
| CameraExercise.TravelKeepsHeight | shared/src/camera/camera.cpp:40-43 | translates along horizontal directions never change the height |
| CameraExercise.MovementsAreLevel | exercises/1.getting-started/6.camera/exercise1/src/main.cpp:257-264 | with a horizontal right axis, every W/S/A/D direction is horizontal |
| CameraExercise.ShiftWithOpposingKeysDrifts | exercises/1.getting-started/6.camera/exercise1/src/main.cpp:254-260 | with shift, W and S held, the camera ends one ordinary step forward instead of staying put |
| CameraExercise.ShiftAloneKeepsDoubledSpeed | exercises/1.getting-started/6.camera/exercise1/src/main.cpp:254-264 | with shift held and no movement key, no translate happens and the speed stays at 5 for the next frame |
| CameraExercise.YawTelescopes | exercises/1.getting-started/6.camera/exercise1/src/main.cpp:273-290 | after a run of mouse events, the yaw has turned by (last x - starting x)·sensitivity, where the start is the recorded x or, before the first event, the first event's own x |
| CameraExercise.Globals.constructor | exercises/1.getting-started/6.camera/exercise1/src/main.cpp:98-102 | the initial globals: lastX 400, lastY 300, firstMouse set, and a camera at (0, 0, 3) with the defaults and the default basis |
| CameraExercise.Globals.ProcessInput | exercises/1.getting-started/6.camera/exercise1/src/main.cpp:249-265 | escape requests a close; shift starts the run at speed 5; then W, S, A and D translate in that order; the camera ends at TravelFrom of those moves, with speed SpeedAfter, at the same height |
| CameraExercise.Globals.MouseCallback | exercises/1.getting-started/6.camera/exercise1/src/main.cpp:273-290 | rotate receives the offsets (0, 0) on the first event and afterwards (xPos - lastX, lastY - yPos), y inverted; pitch is clamped to [-89, 89], the basis is recomputed, the position is recorded and firstMouse is cleared |
| CameraExercise.Globals.MouseMoves | exercises/1.getting-started/6.camera/exercise1/src/main.cpp:273-290 | a run of mouse events, each handled by MouseCallback, leaves the yaw at YawAfter of the run, which YawTelescopes puts in closed form; after a non-empty run the pitch lies in [-89, 89], the basis is the Basis of the final angles and the last position is recorded; an empty run changes nothing |
| CameraExercise.Globals.ScrollCallback | exercises/1.getting-started/6.camera/exercise1/src/main.cpp:293-295 | yOffset is passed to zoom unchanged, so the field of view stays in [1, 45] |

## Left out

- Floating-point arithmetic: every float is an exact real. The casts from double to float in the callbacks are therefore identities. For the default-constructed camera, which runs no update, the view matrix is the identity in floats too. For Camera(ORIGIN), whose update goes through cosine, sine and normalize, it is the identity only approximately in floats.
- Sine, cosine, `glm::radians` and `glm::normalize` inside `update` are not computed. They come from the `MathLib` value. All that is assumed of normalisation is that it rescales a vector by a positive factor. The orthonormality of the basis is not modelled.
- FreeLookCamera.Rescales: the assumption also covers the zero vector, so the model's normalize returns the zero vector unchanged. glm divides by a zero length there and gives NaN. In exact reals this case is reached when the cosine of the pitch is 0, that is at a pitch of ±90, which the clamp rules out, so only Oriented or Rotate with constrainPitch false can reach it. There, cross(forward, UP) is zero, the model's right and up axes are the zero vector, and "the right axis is horizontal" holds only because of this choice. The case does not arise in the float program: no finite float angle, `glm::radians(90.0f)` included, has a cosine of exactly 0, so forward keeps a tiny horizontal part, cross(forward, UP) stays far above float underflow, and normalize gives a finite, horizontal right axis.
- FreeLookCamera.Camera.At: the delegated default constructor first stores the origin as the position. The model stores the given position at once, because nothing reads the default before it is replaced.
- FreeLookCamera.Camera.Oriented: the delegated Camera(position) first stores the default angles and computes their basis. The model stores the given values at once and makes only the final update, because nothing reads the intermediate values before they are replaced.
- The destructor does nothing and is not modelled.
- GLFW is not modelled. The keys held during a frame arrive as a value, and the frame time arrives as a parameter. Closing the window is returned as a flag instead of being sent to the window.
- `main()`, the window resize callback, the render loop, shaders and textures are not part of this model.
- CameraExercise.Globals.ProcessInput: the directions are stated in terms of the camera's axes. The axes do not change during the call, because translate and accelerate cannot change them.
