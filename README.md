# Wormhole viewer: camera navigation, image buffer and control logic

A model of the non-graphics core of a real-time wormhole viewer (a Direct3D 12
program that renders two panoramic skyboxes bent through a two-sheeted
wormhole). Floats are modelled as `real`, 3-vectors as the datatype
`Vectors.Vec3`.

- `vectors.dfy` (module `Vectors`): vectors, dot and cross products, and the
  laws of vector length. Dafny has no square root on `real`, so the length
  function (`XMVector3Length`) is a parameter `length: Vec3 -> real` of every
  operation that needs it, constrained where a proof needs it by
  `IsEuclideanLength` (non-negative, its square is the dot product). The
  scaling law `|c v| = |c| |v|` and the behaviour of `Normalize` are proved
  from those laws.
- `wormhole.dfy` (module `WormholeParameters`): the four-float `Wormhole`
  aggregate, its defaults, the slider bounds that are its only mutators, and
  its layout as four root constants.
- `camera.dfy` (module `Cameras`): `Sign`, `CrossSpace`, the shared
  relocation protocol of every translation (step scaled by the sheet's sign,
  candidate, reflection out of the throat ball, `l` from the new radius and the
  old sign, negated on a crossing, `r` from the new position), the frame
  rotations, `LookAt`, `UpdateView`, `SetResolutionFOV`, and the `Camera`
  class whose methods update its fields in place.
- `rgba_image.dfy` (module `Images`): the CPU image `RGBAImage` as a class
  over `array?<real>` (set/get of a pixel, setup, release, copy and move), the
  byte-to-float pixel conversion, and the resource-state bookkeeping of
  `RGBAImageGPU` against the barriers recorded on a command list.
- `app.dfy` (module `App`): the program's globals as the `Viewer` class, the
  command-line parser (with `wcstol` written out for decimal strings), the
  per-frame dispatch of keyboard and mouse state to camera calls (including
  the F2 override/orbit toggle), the window-resize clamp and the camera set-up
  of `Init`.

Two consequences of the code are worth stating:
- a fresh camera has `l = 1.0` (Camera.h:22), so it starts on the positive
  sheet; `LookAt` from a fresh camera therefore gives `l = +|eye|`;
- on the throat sphere `l` becomes 0, whose sign is -1 whatever the
  crossing flag says, so from the negative sheet the sign stays although a
  crossing is reported; at the centre the sign never flips (the reflection
  direction is the zero vector and the camera stays inside);
  `Cameras.RelocateOnThroatSphere` and `Cameras.RelocateAtCentre` state
  what happens there.

## Model

| member | source | states |
|---|---|---|
| `WormholeParameters.Default` | Wormhole.h:12 | mass 0.1, radius 0.5, length 0, pad 0; the result lies in the slider ranges and its radius is strictly positive |
| `WormholeParameters.ApplySliders` | main.cc:100-102 | after the sliders, radius and mass lie in [0.00001, 4] and length in [0, 6]; an in-range value is taken as dragged; pad is untouched |
| `WormholeParameters.SliderRangeRadiusPositive` | main.cc:100 | every wormhole the sliders can produce has a throat ball of positive radius |
| `WormholeParameters.RootConstantsRoundTrip` | Wormhole.h:7-10 | the struct is exactly four floats mass, radius, length, pad: packing as four root constants and reading them back is the identity both ways |
| `Cameras.Sign` | Camera.h:86-89 | the result is 1 or -1, and it is 1 exactly when the argument is strictly positive (zero counts as the negative sheet) |
| `Cameras.CrossSpace` | Camera.h:115-134 | a crossing is reported exactly when the candidate's length is at most the throat radius; without a crossing the candidate comes back unchanged |
| `Cameras.CrossSpaceIgnoresOldPosition` | Camera.h:115-134 | the previous position never influences the result |
| `Cameras.CrossSpaceReflects` | Camera.h:124-130 | a candidate with 0 < length <= radius is reported as a crossing and moved along its own ray by a factor at least 1, to distance 2 radius - length, never inside the throat sphere |
| `Cameras.CrossSpacePassesOutside` | Camera.h:132-133 | a candidate outside the throat sphere is returned as it is, with no crossing |
| `Cameras.Step` | Camera.h:163-167 | the candidate of a move is the position plus dt times speed times the sheet's sign along the axis; on the negative sheet (l <= 0) the step is reversed |
| `Cameras.Relocate` | Camera.h:142-158 | the new position is what CrossSpace returns for the candidate, r is its length, and abs(l) = abs(r - radius) |
| `Cameras.RelocateLandsOutside` | Camera.h:142-158 | after a move to a candidate off the centre, r is the length of the new position, r >= radius, and abs(l) = r - radius |
| `Cameras.SheetFlipsIffCrossing` | Camera.h:146-150 | for a candidate neither at the centre nor on the throat sphere, the sign of the new l is the old sign negated exactly when CrossSpace reports a crossing |
| `Cameras.RelocateOnThroatSphere` | Camera.h:142-158 | a candidate exactly on the throat sphere stays where it is with l = 0, whose sign is -1 |
| `Cameras.RelocateAtCentre` | Camera.h:124-130 | a candidate at the centre stays there with r = 0 and l = radius times the old sign, on the old sheet |
| `Cameras.ReflectionExample` | Camera.h:142-158 | from the positive sheet, with the default throat, a candidate at (0.2, 0, 0) lands at (0.8, 0, 0) with l = -0.3 and r = 0.8 |
| `Cameras.StepDistance` | Camera.h:163-167 | for a unit axis the candidate of a move lies at distance abs(dt) speed from the position |
| `Cameras.PitchKeepsOrthonormal` | Camera.h:227-234 | with a true rotation, Pitch keeps an orthonormal basis orthonormal (right is the fixed axis) |
| `Cameras.TurnYKeepsOrthonormal` | Camera.h:235-243 | with a true rotation, RotateY keeps an orthonormal basis orthonormal |
| `Cameras.YawKeepsOrthonormal` | Camera.h:244-251 | with a true rotation, Yaw keeps an orthonormal basis orthonormal (up is the fixed axis) |
| `Cameras.RollKeepsOrthonormal` | Camera.h:252-259 | with a true rotation, Roll keeps an orthonormal basis orthonormal (look is the fixed axis) |
| `Cameras.LookAtFrame` | Camera.h:94-96 | the right axis is orthogonal to the view direction and to the world up vector, and up is orthogonal to look and right |
| `Cameras.LookAtFrameOrthonormal` | Camera.h:92-96 | unless target = eye or worldUp is parallel to the view direction, LookAt builds an orthonormal basis whose look axis reaches the target from the eye |
| `Cameras.ViewMatrixCoordinates` | Camera.h:273-285 | the view matrix sends a point to its offset from the eye measured along right, up and look; the eye goes to the origin |
| `Cameras.ViewMatrixAxes` | Camera.h:282-285 | for an orthonormal basis the view matrix turns right, up and look into the x, y and z axes |
| `Cameras.ReorthonormalizedIsOrthonormal` | Camera.h:269-271 | UpdateView's re-orthonormalization yields an orthonormal basis whenever look is non-zero and not parallel to up |
| `Cameras.ReorthonormalizedFixesRightHandedBasis` | Camera.h:269-271 | an orthonormal basis with right = up x look is left exactly as it is |
| `Cameras.ResolutionFOV` | Camera.h:64-71 | width and height are stored, aspect * height = width, fovX is the degrees converted with pi / 180, and fovY * aspect = fovX |
| `Cameras.Camera.constructor` | Camera.h:10-23 | axis-aligned orthonormal basis at (2, 2, 2), l = 1 (positive sheet), fovY, 1280 x 720, speed 10, rotate rate 1, near 0.1, far 100 |
| `Cameras.Camera.SetResolutionFOV` | Camera.h:64-71 | the optics become ResolutionFOV of the arguments; basis, position, l, r and tuning are unchanged |
| `Cameras.Camera.SetPosition` | Camera.h:142-158 | position, l and r become the relocation of the supplied position from the old position and old l; basis, optics and tuning are unchanged |
| `Cameras.Camera.Walk` | Camera.h:161-182 | the relocation of position + look (dt sign(l) speed); the basis is unchanged |
| `Cameras.Camera.Strafe` | Camera.h:183-204 | the relocation of position + right (dt sign(l) speed); the basis is unchanged |
| `Cameras.Camera.Fly` | Camera.h:205-226 | the relocation of position + up (dt sign(l) speed); the basis is unchanged |
| `Cameras.Camera.LookAt` | Camera.h:92-113 | the basis becomes LookAtFrame; position = eye, r = abs(eye), l = abs(eye) times the old sign, without subtracting the radius |
| `Cameras.Camera.Pitch` | Camera.h:227-234 | only up and look turn, about right, by angle times the rotate rate; position, l and r are unchanged |
| `Cameras.Camera.RotateY` | Camera.h:235-243 | all three basis vectors turn about the world y axis; position, l and r are unchanged |
| `Cameras.Camera.Yaw` | Camera.h:244-251 | only right and look turn, about up; position, l and r are unchanged |
| `Cameras.Camera.Roll` | Camera.h:252-259 | only right and up turn, about look; position, l and r are unchanged |
| `Cameras.Camera.UpdateView` | Camera.h:262-286 | the basis is re-orthonormalized and the view matrix is built from it and the position; position, l and r are unchanged |
| `Images.PixelInBounds` | RGBAImage.h:28 | every pixel (i, j) of a width x height image has its four floats inside a buffer of width height 4 floats |
| `Images.CopyN` | RGBAImage.h:131 | a fresh buffer holding the first n floats of the source |
| `Images.ConvertedPixel` | RGBAImage.h:102-108 | the four floats of pixel p are its three bytes divided by 255, then alpha 1 |
| `Images.ConvertedRoundTrip` | RGBAImage.h:98-108 | the conversion writes 4 floats per 3 bytes, every value lies in [0, 1], every alpha is 1, and the colour bytes read back unchanged |
| `Images.WithColour` | RGBAImage.h:31-37 | writing a colour at an offset keeps the length, reads back as that colour, and leaves every float outside the three colour slots alone |
| `Images.PixelsDisjoint` | RGBAImage.h:28 | two different pixels (i, j) with j below the width start at least four floats apart, so they never share a float |
| `Images.SetThenAt` | RGBAImage.h:26-37 | after setting pixel (i, j), reading it gives the colour set, reading any other pixel gives its old colour, and the pixel's alpha is unchanged |
| `Images.RGBAImage.PixelAccessible` | RGBAImage.h:26-30 | in a consistent image every pixel inside width x height has all four floats inside the buffer |
| `Images.RGBAImage.At` | RGBAImage.h:26-30 | the colour of pixel (i, j) is the three floats starting at (i width + j) 4 |
| `Images.RGBAImage.IsValid` | RGBAImage.h:170-173 | for a consistent image, operator bool is true exactly when the image owns a non-empty buffer |
| `Images.RGBAImage.constructor` | RGBAImage.h:39-42 | an empty image: null buffer, size 0 x 0, operator bool false |
| `Images.RGBAImage.FromBitmap` | RGBAImage.h:98-108 | the conversion loop fills a fresh w h 4 buffer with the converted bitmap |
| `Images.RGBAImage.Copy` | RGBAImage.h:128-132 | same size, a fresh buffer equal to the source's first width height 4 floats |
| `Images.RGBAImage.Move` | RGBAImage.h:148-153 | takes over the buffer and size; the source is left null and 0 x 0 |
| `Images.RGBAImage.Release` | RGBAImage.h:112-122 | the buffer is null and the size 0 x 0 from any state, so operator bool is false and a second call changes nothing |
| `Images.RGBAImage.Setup` | RGBAImage.h:18-25 | for w h > 0: size w x h and a fresh buffer of w h 4 floats, 255 first and 0 elsewhere; for w h = 0 the allocation throws and nothing changes |
| `Images.RGBAImage.Set` | RGBAImage.h:31-37 | the buffer becomes WithColour of the old buffer at the pixel's offset: At(i, j) afterwards is (r, g, b) and every other float, alpha included, is unchanged |
| `Images.RGBAImage.CopyAssign` | RGBAImage.h:134-146 | self-assignment changes nothing; otherwise a fresh copy of the data, with width taken from the other image's height |
| `Images.RGBAImage.CopyAssignIntended` | RGBAImage.h:134-146 | copy assignment with width from width: the target has the source's size and data and stays valid |
| `Images.RGBAImage.MoveAssign` | RGBAImage.h:155-169 | self-move changes nothing; otherwise takes the buffer and size and leaves the source null and 0 x 0 |
| `Images.CopyAssignShapeConsistency` | RGBAImage.h:142-143 | the size copy assignment gives matches the copied data exactly when the source is square or of height 0 |
| `Images.CopyAssignOverrunExample` | RGBAImage.h:142-143 | a 1 x 2 source yields a 2 x 2 target holding 8 floats, whose pixel (1, 1) would start at float 12 |
| `Images.ReplayAppend` | RGBAImage.h:298-302 | recording a barrier from the state the wrapper believes in keeps the replayed resource state in step with it |
| `Images.RGBAImageGPU.Empty` | RGBAImage.h:208-211 | no texture, size 0 x 0, state Common |
| `Images.RGBAImageGPU.constructor` | RGBAImage.h:213-218 | a fresh texture of the given size, created in state Common |
| `Images.RGBAImageGPU.AsUAV` | RGBAImage.h:298-302 | records a transition from the current state to UnorderedAccess and then believes it |
| `Images.RGBAImageGPU.AsGraphicsSRV` | RGBAImage.h:304-308 | records a transition from the current state to PixelShaderResource and then believes it |
| `Images.RGBAImageGPU.AsComputeSRV` | RGBAImage.h:310-314 | records a transition from the current state to NonPixelShaderResource and then believes it |
| `Images.RGBAImageGPU.Upload` | RGBAImage.h:316-357 | refused with nothing changed unless the image has the texture's width and height; otherwise transitions to CopyDest then PixelShaderResource |
| `Images.RGBAImageGPU.MoveAssign` | RGBAImage.h:188-206 | self-move changes nothing; otherwise takes every field and leaves the source empty in state Common |
| `App.Wcstol` | main.cc:145 | the result always lies within a 32-bit long |
| `App.Saturate` | main.cc:145 | a magnitude beyond a long gives LONG_MAX, or LONG_MIN when negative; an in-range one keeps its value and sign |
| `App.ToUint32` | main.cc:145 | storing a long into a uint32_t keeps it modulo 2^32 |
| `App.WcstolDecimal` | main.cc:145 | wcstol reads back every decimal spelling within the range of a long |
| `App.WcstolSaturatesHigh` | main.cc:145 | a decimal spelling beyond a long reads as LONG_MAX |
| `App.WcstolSaturatesLow` | main.cc:145 | a negative spelling beyond a long reads as LONG_MIN |
| `App.WcstolNegativeWraps` | main.cc:145 | "-n" reads back as -n and is stored as 2^32 - n |
| `App.WcstolNoDigits` | main.cc:145 | a string that does not start with a space, a sign or a digit reads as 0 |
| `App.NotFlagWithoutDash` | main.cc:143-151 | an argument that does not start with a dash is none of the six flag spellings |
| `App.ParseWithoutFlags` | main.cc:141-155 | without flags the loop leaves the three globals as they were |
| `App.Run` | main.cc:141-155 | the loop from argument i: a warp switch already on stays on; it ends on only if it was on or some argument from i on is a warp flag; it fails only when the last argument is a width or height flag; the width (height) ends as it was or as the value of the argument after some width (height) flag from i on |
| `App.Parse` | main.cc:141-155 | the whole loop fails only when the last argument is a width or height flag, sets the warp switch only if it was set or some argument is a warp flag, and leaves the width (height) as it was or sets it to the value of the argument after some width (height) flag |
| `App.ParseSeesWarp` | main.cc:141-155 | a warp flag anywhere, even one consumed as the value of -w or -h, sets the warp switch |
| `App.ParseWarpIff` | main.cc:141-155 | when the loop succeeds, the warp switch ends on exactly when it was on or some argument is a warp flag |
| `App.ParseWidth` | main.cc:143-146 | "-w n" or "--width n" sets the client width to n and changes nothing else |
| `App.ParseHeight` | main.cc:147-150 | "-h n" or "--height n" sets the client height to n and changes nothing else |
| `App.RunAppend` | main.cc:141-155 | arguments appended after a command line that parses are read from the globals it left, as the loop carries on over them |
| `App.ParseAppendWidth` | main.cc:143-146 | the last width flag wins: appending "-w n" or "--width n" to any command line that parses sets the width to n and keeps everything else it parsed |
| `App.ParseAppendHeight` | main.cc:147-150 | the last height flag wins: appending "-h n" or "--height n" to any command line that parses sets the height to n and keeps everything else it parsed |
| `App.ParseValueIsRetested` | main.cc:143-150 | in "-w -h 5" the width takes "-h" (value 0), and "-h" is then still tested and sets the height to 5 |
| `App.ParseValueFlagLastFails` | main.cc:143-150 | a width or height flag in last place makes the loop read past the end of argv |
| `App.Viewer.constructor` | main.cc:13-20 | client 1280 x 720, render 1920 x 1080, no warp, override and orbit both false |
| `App.Viewer.ParseCommandLineArguments` | main.cc:141-155 | the loop fails exactly when Parse does, and otherwise leaves the globals as Parse says |
| `App.Viewer.ParseOne` | main.cc:143-154 | one pass of the loop body advances the index and agrees with one pass of Run |
| `App.MoveCommands` | main.cc:515-538 | none while the position is overridden; otherwise one call per held movement key, each the call of a held key (A strafes by -delta, D by delta, W walks by delta, S by -delta, Space flies by -delta, C by delta), in the key order A, D, W, S, Space, C |
| `App.RollCommands` | main.cc:539-546 | one call per held roll key, whatever the flags: Q rolls by minus twice the delta and E by twice the delta, and no roll is issued without its key |
| `App.MouseCommands` | main.cc:585-589 | with the right button exactly a yaw by min(x motion times frameTime 1e-4, 3.1416926/36) and a pitch by minus min(y motion times frameTime 1e-4, 3.1416926/36); nothing otherwise |
| `App.MouseCapOnlyFromAbove` | main.cc:587-588 | a scaled motion at or below the cap, including any negative one, passes unchanged; a larger one is cut to the cap |
| `App.Dispatch` | main.cc:502-589 | F2 negates both the position override and the orbit flag; without F2 both stay |
| `App.OverrideBlocksMovement` | main.cc:515-551 | with the position override set no movement call and no LookAt is issued |
| `App.MovementKeysWithoutOverride` | main.cc:515-551 | without the override each movement key issues its call with the frame's delta, and F1 its LookAt |
| `App.ShiftMultipliesDelta` | main.cc:506-514 | left shift multiplies the movement delta by 10 |
| `App.FlagsToggleTogether` | main.cc:555-558 | flags that start equal stay equal |
| `App.OrbitCalls` | main.cc:553-579 | entering orbit issues one move to (radius + length + 0.81, 0, 0) exactly when F2 turns orbiting on; every orbiting frame issues exactly one orbit step, by the cosine and sine of the frame's orbit angle, and no other frame does |
| `App.IdleFrame` | main.cc:502-589 | a frame with no movement, roll, F1 or F2 key and without the right button issues only the orbit step, and that only while orbiting |
| `App.OrbitKeepsDistance` | main.cc:573-578 | an orbit step with a true cosine and sine keeps y = 0 and the distance from the y axis |
| `App.FrameWithoutLookAt` | main.cc:548-551 | unless F1 is pressed without the override, a frame issues no LookAt |
| `App.Apply` | main.cc:515-589 | one call moves the camera to the pose Effect gives for it, following the Camera method's own contract; optics, tuning and view are kept |
| `App.Execute` | main.cc:515-589 | the camera ends in the pose Executed gives for the calls in order; optics and tuning are kept; turns alone keep position, l and r; without LookAt an orthonormal basis stays orthonormal |
| `App.ExecutedConcat` | main.cc:515-589 | carrying out two batches of calls is carrying out the second from where the first ended |
| `App.ExecutedTurnsKeepPlace` | main.cc:539-546 | rolls, yaws and pitches alone never change position, l or r |
| `App.ExecutedKeepsOrthonormal` | main.cc:515-589 | with true rotations and no LookAt, every sequence of calls keeps an orthonormal basis orthonormal |
| `App.Viewer.UpdateCamera` | main.cc:502-590 | the flags end as Dispatch says and stay in step; the camera ends in the pose Executed gives for Dispatch's calls; optics, tuning and the view matrix are unchanged and the basis stays orthonormal when no LookAt is issued |
| `App.Resized` | main.cc:698-702 | on a changed request each dimension is taken as requested, or 1 where 0 was requested; an unchanged one is left alone |
| `App.ResizedIdempotent` | main.cc:698-702 | repeating the same resize request changes nothing more |
| `App.Viewer.Resize` | main.cc:696-702 | the client size becomes Resized of the old size and the request; nothing else changes |
| `App.LevelViewOrthonormal` | Camera.h:92-96 | a LookAt whose eye and target are apart at the same height, with the world y axis up, builds an orthonormal basis |
| `App.InitialViewOrthonormal` | main.cc:909 | the initial LookAt from (2, 0, 2) toward (-1, 0, -1) with y up gives an orthonormal basis |
| `App.InitialEyeOffCentre` | main.cc:909 | the initial eye (2, 0, 2) has a positive distance from the centre, so the initial r is positive |
| `App.Viewer.InitCamera` | main.cc:909-911 | the camera gets the initial LookAt and the render resolution with 65 degrees; tuning and the view matrix are kept; from a fresh camera l = r |

## Left out

- Floating-point rounding and NaN: floats are reals, so `r <= radius` and the other comparisons are exact.
- The numeric content of `XMVector3Length`, `XMMatrixRotationAxis`, `XMMatrixRotationY`, `std::cosf` and `std::sinf`: lengths, rotations, cosines and sines are parameters, constrained only where a lemma needs it (`IsEuclideanLength`, `IsRotation`, cos^2 + sin^2 = 1).
- `UpdateProj` and `XMMatrixPerspectiveFovLH` (the projection matrix numerics), and the trivial accessors and setters of Camera.h (`SetPosition(x, y, z)`, `SetPositionXM`, `SetNearZ`, `SetFarZ`, `SetL`, the getters, the unused `NegDir`).
- The camera constructor leaves `r`, `m_aspect`, `m_fovX` and the view matrix uninitialized; the model gives them placeholder values and promises nothing about them until `LookAt`, `SetResolutionFOV` and `UpdateView` run.
- `Cameras.SheetFlipsIffCrossing`: excludes a candidate at the centre or exactly on the throat sphere, because there the sign of `l` does not follow the crossing flag (see `RelocateOnThroatSphere`, `RelocateAtCentre`).
- `Cameras.CrossSpaceReflects`: requires a candidate off the centre, because at the centre the reflection direction is the zero vector (see `RelocateAtCentre`).
- `WormholeParameters.SliderRangeRadiusPositive`: rests on `ApplySliders` clamping every slider value into its range. ImGui's `SliderFloat` is not part of this model: whether a value typed into a slider can leave the range depends on ImGui's version and flags, and the model assumes it cannot.
- A step long enough to cross the throat twice is reflected once only, as in the source; the reflected point is not re-checked.
- The 32-bit wrap-around of the image index arithmetic (`width * height * 4`, `(i * width + j) * 4`) and of `new float[...]`: modelled on unbounded naturals.
- The WIC decoding in the `RGBAImage(LPCWSTR)` constructor: `FromBitmap` starts from the decoded size and 24-bit RGB bytes.
- Out-of-range `At`/`Set` and a copy from a buffer shorter than its size are undefined behaviour in C++; the model requires them not to happen.
- GPU resource creation, `GetCopyableFootprints`, `UpdateSubresources`, the upload contents and `textureDesc` of `RGBAImageGPU`; its barriers are modelled as the `state` field and the list of recorded transitions. The empty `Download` is not modelled.
- `wcstol` is modelled for ASCII white space, an optional sign and decimal digits; other wide characters only end the number. `CommandLineToArgvW` is replaced by the argument list itself.
- DirectInput polling (`InputHelper.h`): the key map, right button and mouse motion are an `Input` value. The frame timing and FPS code, the window, device, swap chain, fence, fullscreen and ImGui code of main.cc, and the renderer headers (WormholeRender.h, Skymap.h, ScreenQuad.h, DescriptorHeap.h, common.h) are not part of this model: they are Direct3D 12 and Win32 I/O.
- Of `Init`, only the camera set-up is modelled (`App.Viewer.InitCamera`).

## Findings

| source | as written | input that shows it | evidently intended | confidence | as-written member | corrected member |
|---|---|---|---|---|---|---|
| RGBAImage.h:142 | copy assignment sets `width = other.height` | a 1 x 2 source gives a 2 x 2 target that holds only 8 floats, so `At(1, 1)` would read float 12 (`Images.CopyAssignOverrunExample`, `Images.CopyAssignShapeConsistency`) | `width = other.width` | high; not executed | `Images.RGBAImage.CopyAssign` | `Images.RGBAImage.CopyAssignIntended` |
