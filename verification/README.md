# SPCaptureView mode and selection model

This project models the mode and selection logic of `SPCaptureView`, the camera view of
GOCaptureView. That logic decides what the view may do next:

- the flash and focus cycles and the torch toggle;
- the photo/video and live-photo state machine, each step guarded by an enable flag;
- starting and stopping a recording, and the flags restored when it finishes;
- the coupling between depth-data delivery, portrait-matte delivery and matte delivery;
- the choice of the default camera and of the next camera when cameras are toggled;
- the count of distinct camera positions, which sets the view's camera-toggle flag (a flag no operation of the view reads);
- the mapping of device and interface orientations to video orientations.

The model has five modules:

- `CaptureTypes` holds the value types: the view's mode enums, the devices the discovery
  session reports (identity, position, device type), and the capability and enable flags of
  the photo output. A movie output is modelled only by whether it is recording.
- `Modes` holds the pure step functions behind the mode buttons, with their cycle and
  involution lemmas.
- `Orientation` holds the two failable video-orientation initialisers, the rotation
  handler's guard and configureSession's initial preview orientation.
- `DeviceSelection` holds the `first(where:)` searches and the camera choices of
  toggleCamera and configureSession. It also holds uniqueDevicePositionsCount, which stays a
  loop over the device list.
- `CaptureView` holds the class `CaptureView`, whose fields are the view's private mode and
  enable fields. Each public operation is a method that changes only the fields its
  `modifies` frame names and keeps the invariant `Valid()`:
  - the tap gesture is attached exactly when focus is not locked;
  - matte delivery is enabled only while depth delivery mode is on;
  - a movie output exists only in video mode;
  - the current camera is one the discovery session reports;
  - the photo output enables only what it supports.

Work the view sends to its session queue or to the main queue is modelled as one atomic
step right after the guard that the public operation checks. Framework outcomes that the
view only observes are method parameters:

- whether camera access was granted;
- whether an input or output could be created or added;
- whether the session is running;
- what the photo output supports after the camera or the session preset changes.

## Model

| member | source | states |
|---|---|---|
| Modes.NextFlashMode | Classes/SPCaptureView.swift:762 | one flash press always changes the flash mode |
| Modes.FlashCycleHasPeriodThree | Classes/SPCaptureView.swift:761-763 | three flash presses restore the mode, two do not, and the cycle visits off, on and auto |
| Modes.NextFocusMode | Classes/SPCaptureView.swift:786 | one focus press always changes the mode; the new mode is locked exactly when the old one was continuous autofocus |
| Modes.FocusCycleHasPeriodThree | Classes/SPCaptureView.swift:786 | three focus presses restore the focus mode, two do not |
| Modes.TorchTarget | Classes/SPCaptureView.swift:745-746 | the requested torch mode is never auto; it is on exactly when the torch is off |
| Modes.TorchAfterToggle | Classes/SPCaptureView.swift:742-757 | the torch either keeps its mode or takes the target; it changes exactly when the device could be locked, has a torch, supports the target and the target differs |
| Modes.TorchToggleTwiceRestores | Classes/SPCaptureView.swift:742-757 | on a device supporting on and off, two torch presses restore off or on; auto is switched off |
| Modes.Flip | Classes/SPCaptureView.swift:458 | the on/off flip always changes the switch |
| Modes.FlipTwiceRestores | Classes/SPCaptureView.swift:458 | two flips restore the switch, so two live-photo toggles restore the mode |
| Modes.PortraitAfterToggle | Classes/SPCaptureView.swift:889-894 | with depth off the portrait mode ends off; the mode changes exactly when it was on or depth is on |
| Modes.PortraitToggleTwiceRestores | Classes/SPCaptureView.swift:889-894 | with depth on the portrait toggle is a flip, so two toggles restore it |
| Orientation.VideoOrientationFromInterface | Classes/SPCaptureView.swift:1009-1017 | the interface initialiser fails exactly on the unknown orientation |
| Orientation.VideoOrientationFromDevice | Classes/SPCaptureView.swift:999-1007 | the device initialiser succeeds exactly on portrait and landscape orientations, and there it agrees with the interface initialiser with landscape left and right exchanged |
| Orientation.InitialisersAreBijectiveOnTheirDomain | Classes/SPCaptureView.swift:998-1018 | both initialisers are injective where they succeed and reach every video orientation; exchanging landscape twice changes nothing |
| Orientation.OrientationOnRotation | Classes/SPCaptureView.swift:985-995 | the rotation handler sets the device initialiser's orientation and leaves the preview unchanged exactly for unknown, face-up and face-down |
| Orientation.InitialVideoOrientation | Classes/SPCaptureView.swift:215-222 | the preview starts in portrait for an unknown window orientation, otherwise in the same-named orientation |
| DeviceSelection.FirstMatching | Classes/SPCaptureView.swift:489-493 | the search returns the index of a matching device with no matching device before it, and nothing exactly when no device matches |
| DeviceSelection.PreferredFor | Classes/SPCaptureView.swift:473-486 | the preferred position is back exactly when the current one is not back, so front and unspecified go to back and back goes to front; back goes with the dual camera and front with the TrueDepth camera |
| DeviceSelection.NextCamera | Classes/SPCaptureView.swift:487-495 | the next camera is a listed device at the preferred position; it is the first exact match, else the first device at the position, and there is none exactly when no device sits there |
| DeviceSelection.DefaultDevice | Classes/SPCaptureView.swift:195-200 | the default device of a type and position is a listed device of that type and position, and exists exactly when one is listed |
| DeviceSelection.DefaultCamera | Classes/SPCaptureView.swift:193-205 | the default camera is a back dual camera, else a back wide-angle camera, else a front wide-angle camera, and there is none exactly when none of these exists |
| DeviceSelection.DefaultCameraIsNeverTrueDepth | Classes/SPCaptureView.swift:193-205 | the default camera is never a TrueDepth camera and never at an unspecified position |
| DeviceSelection.UniqueDevicePositionsCount | Classes/SPCaptureView.swift:1020-1028 | the loop's count equals the number of distinct positions in the device list |
| DeviceSelection.DistinctPositionsBounds | Classes/SPCaptureView.swift:1020-1028 | the distinct-position count is at most the list length and at most three, and it is zero exactly when the list is empty |
| DeviceSelection.ToggleNeedsTwoDevices | Classes/SPCaptureView.swift:300 | the camera-toggle flag can only be set when two listed devices sit at different positions |
| CaptureView.EnableSupportedDeliveries | Classes/SPCaptureView.swift:247-252 | after configuration every supported delivery and every available matte type is enabled, the output stays consistent and its capabilities are unchanged |
| CaptureView.RestorePhotoDeliveries | Classes/SPCaptureView.swift:672-684 | back in photo mode each supported delivery is on and any other keeps its setting; the enabled matte types become the available ones when some are available and are unchanged otherwise; consistency and capabilities are kept |
| CaptureView.KeepAvailable | Classes/SPCaptureView.swift:643 | the matte types kept after a capability change are exactly the enabled ones that are still available |
| CaptureView.Reconfigure | Classes/SPCaptureView.swift:643 | after a camera or preset change the output has the new capabilities, stays consistent, and keeps a delivery or matte type enabled exactly when it was enabled and is still supported |
| CaptureView.ReconfigureWithSameCapabilities | Classes/SPCaptureView.swift:510 | putting the old input back, which leaves the capabilities as they were, leaves a consistent output unchanged |
| CaptureView.PhotoDeliveriesSurviveVideoRoundTrip | Classes/SPCaptureView.swift:631-688 | after switching to video and back, the output has its photo-preset capabilities and every supported delivery on, whatever the video preset supported, and every matte type enabled before is enabled again |
| CaptureView.CaptureView.constructor | Classes/SPCaptureView.swift:73-155 | the fields start at their declared values, setup is not authorized when access is refused, and the tap gesture is attached |
| CaptureView.CaptureView.ConfigureSession | Classes/SPCaptureView.swift:184-265 | nothing changes unless setup has succeeded so far; setup stays successful exactly when a default camera exists and its input and the photo output are added; on success the default camera is current, supported deliveries are on and depth and portrait modes follow support |
| CaptureView.CaptureView.SessionRunningChanged | Classes/SPCaptureView.swift:292-302 | the enable flags follow the running state; live-photo toggling also needs live capture enabled, camera toggling more than one distinct position |
| CaptureView.CaptureView.Flash | Classes/SPCaptureView.swift:761-763 | only the flash mode changes, to the next in the cycle |
| CaptureView.CaptureView.Focus | Classes/SPCaptureView.swift:782-793 | with a current camera, the focus mode advances and the tap gesture is attached exactly when the new mode is not locked |
| CaptureView.CaptureView.ToggleLivePhotoMode | Classes/SPCaptureView.swift:452-461 | the live-photo mode flips in photo mode with live toggling enabled, and is unchanged otherwise |
| CaptureView.CaptureView.ToggleToVideo | Classes/SPCaptureView.swift:631-655 | only from photo mode with toggling enabled: video mode, and when the session accepts a movie output, an idle one and the high preset's capabilities; otherwise nothing changes |
| CaptureView.CaptureView.ToggleToPhoto | Classes/SPCaptureView.swift:658-688 | only from video mode with toggling enabled: photo mode, no movie output, the photo preset's capabilities and the supported deliveries back on; otherwise nothing changes |
| CaptureView.CaptureView.RecordVideo | Classes/SPCaptureView.swift:692-727 | nothing happens without a movie output; otherwise taking photos, camera toggling and photo/video toggling are disabled and the output records; the album choice is taken only when recording starts |
| CaptureView.CaptureView.DidFinishRecording | Classes/SPCaptureView.swift:928-979 | the output is idle again; taking photos and photo/video toggling are enabled; camera toggling is enabled exactly when there is more than one distinct position |
| CaptureView.CaptureView.ToggleDepthDataDeliveryMode | Classes/SPCaptureView.swift:859-880 | nothing changes unless depth delivery is enabled; otherwise depth mode flips, portrait mode equals it, and matte delivery is on exactly when depth is on |
| CaptureView.CaptureView.TogglePortraitEffectsMatteDeliveryMode | Classes/SPCaptureView.swift:883-895 | nothing changes unless matte and portrait delivery are enabled; otherwise portrait mode flips, and it never turns on while depth is off |
| CaptureView.CaptureView.SetSemanticSegmentationMatteTypes | Classes/SPCaptureView.swift:898-903 | the requested matte types are replaced only while matte delivery is enabled |
| CaptureView.CaptureView.ToggleCamera | Classes/SPCaptureView.swift:464-528 | with no next camera or no new input nothing changes; otherwise the next camera becomes current if its input is accepted and brings its capabilities, the current camera's position changes to the preferred one, and deliveries and matte types are reset to what the output now supports, while matte delivery and the depth and portrait modes stay as they were |
| CaptureView.MatteOutlivesDepthSupport | Classes/SPCaptureView.swift:510-522 | switching from a back dual camera with depth and matte delivery on to a front camera without depth support leaves matte delivery and depth mode on while depth delivery is neither supported nor enabled |
| CaptureView.CaptureView.ToggleToPhotoAsWritten | Classes/SPCaptureView.swift:658-667 | the queued step traps exactly when the guard passes and there is no movie output; when it does not trap it keeps the invariant and leaves the same photo mode, movie output, photo-preset capabilities, restored deliveries and matte types as ToggleToPhoto, and with the guard failing nothing changes |
| CaptureView.NilMovieOutputTrap | Classes/SPCaptureView.swift:640-667 | a view with one back camera, a running session and a refused movie output reaches the trap |

## Left out

- takePhoto: the photo-settings construction, the in-progress capture delegates and the live-photo counter are framework calls and asynchronous bookkeeping.
- GOPhotoCaptureProcessor.swift is not part of this model: it forwards framework callbacks, encodes images and writes to the photo library.
- config, resume, stop and the runtime-error and interruption handlers only start and stop the session and report to the delegate.
- Zoom, exposure, ISO, white balance, quality prioritisation and the device lock calls inside focus are left out: their effects belong to the capture device. Focus keeps only the view's focus mode and its tap gesture.
- Torch: the torch mode belongs to the capture device, not the view, so it is modelled by the functions TorchTarget and TorchAfterToggle rather than a field of the view.
- layoutSubviews and the focus image are preview geometry.
- The dispatch queues, the key-value observers and the notification wiring are left out. Each queued step is one atomic method, so interleavings between a guard and its queued work are not modelled.
- The audio input, the session preset's value, video stabilisation, codec choice, output file names, background tasks and photo-library saves are framework I/O. The preset's effect on what the photo output supports is modelled through Reconfigure. The audio input is force-unwrapped in configureSession (line 237), which traps when there is no audio device; the model does not capture that trap.
- Torch: the torch step force-unwraps the current video input (line 744) and traps without one; the torch functions take the current torch mode as given and do not capture that trap.
- isToggleCameraEnabled: the flag is written at setup, by the running-state observer, by recordVideo and by the recording-finished callback, but no operation of the view reads it; toggleCamera has no guard, so the model's ToggleCamera has none either and the flag only records what the view would show.
- RecordVideo: the start of a recording is modelled as immediate; a stop request is deferred, leaving the output recording until DidFinishRecording. The recording error and success flag are not modelled.
- DefaultDevice: the system's default device of a type and position is taken to be the first such device in the discovery session's list.
- ToggleCamera: requires a current camera, because the source force-unwraps the current video input; without one the source traps.
- Focus: requires a current camera, because the queued step reads the force-unwrapped current video input before it changes the focus mode; without one the source traps.
- ConfigureSession: requires matte delivery to be off, because the view runs it only once, as the first step init queues, before any toggle can turn matte delivery on.
- ConfigureSession: does not set the initial preview orientation; the preview layer is not part of the view's state, and that orientation is modelled separately by the function InitialVideoOrientation.
- Reconfigure: the photo output's capabilities after a camera or preset change come from the framework and are parameters. An enabled delivery or matte type the new capabilities do not support is taken to be switched off.

## Findings

| source | as written | input that shows it | evidently intended | confidence | as-written member | corrected member |
|---|---|---|---|---|---|---|
| Classes/SPCaptureView.swift:667 | toggleToPhoto's queued step force-unwraps the movie output | toggleToVideo while the session refuses the movie output (line 640), then toggleToPhoto: captureMode is video but there is no movie output, so the unwrap traps | remove the movie output only when there is one, then switch back to photo mode | not executed | CaptureView.CaptureView.ToggleToPhotoAsWritten | CaptureView.CaptureView.ToggleToPhoto |
