/** The capture view's mode and selection state and the public operations that change
    it. Work the view sends to its session queue or to the main queue is taken to run
    atomically right after the guard that the calling operation checks, so each
    operation below is one step. Framework calls whose outcome the view only observes
    (whether an input or output could be added, whether the session is running, what
    the photo output supports after a camera or preset change) are parameters. */
module CaptureView {
  import opened CaptureTypes
  import opened Modes
  import opened DeviceSelection

  /** The types of the list that are available, in the list's order. */
  function KeepAvailable(types: seq<MatteType>, available: seq<MatteType>): (r: seq<MatteType>)
    ensures forall t :: t in r <==> t in types && t in available
    ensures |r| <= |types|
  {
    if types == [] then []
    else if types[0] in available then [types[0]] + KeepAvailable(types[1..], available)
    else KeepAvailable(types[1..], available)
  }

  /** Keeping the available types of a list that holds only available types keeps all of it. */
  lemma {:induction false} KeepAvailableKeepsAvailable(types: seq<MatteType>, available: seq<MatteType>)
    requires forall t :: t in types ==> t in available
    ensures KeepAvailable(types, available) == types
  {
    if types != [] {
      KeepAvailableKeepsAvailable(types[1..], available);
      assert [types[0]] + types[1..] == types;
    }
  }

  /** The photo output once a camera or session-preset change has given it new
      capabilities: an enabled delivery that is no longer supported is off, and a matte
      type that is no longer available is no longer enabled. */
  function Reconfigure(o: PhotoOutput, c: Capabilities): (r: PhotoOutput)
    ensures r.Supports() == c
    ensures r.Consistent()
    ensures r.isLivePhotoCaptureEnabled <==> o.isLivePhotoCaptureEnabled && c.isLivePhotoCaptureSupported
    ensures r.isDepthDataDeliveryEnabled <==> o.isDepthDataDeliveryEnabled && c.isDepthDataDeliverySupported
    ensures r.isPortraitEffectsMatteDeliveryEnabled <==>
              o.isPortraitEffectsMatteDeliveryEnabled && c.isPortraitEffectsMatteDeliverySupported
    ensures forall t :: t in r.enabledSemanticSegmentationMatteTypes <==>
              t in o.enabledSemanticSegmentationMatteTypes && t in c.availableSemanticSegmentationMatteTypes
  {
    PhotoOutput(c.isLivePhotoCaptureSupported, o.isLivePhotoCaptureEnabled && c.isLivePhotoCaptureSupported,
                c.isDepthDataDeliverySupported, o.isDepthDataDeliveryEnabled && c.isDepthDataDeliverySupported,
                c.isPortraitEffectsMatteDeliverySupported,
                o.isPortraitEffectsMatteDeliveryEnabled && c.isPortraitEffectsMatteDeliverySupported,
                c.availableSemanticSegmentationMatteTypes,
                KeepAvailable(o.enabledSemanticSegmentationMatteTypes, c.availableSemanticSegmentationMatteTypes))
  }

  /** A change that leaves the capabilities as they were leaves a consistent output as it was. */
  lemma ReconfigureWithSameCapabilities(o: PhotoOutput)
    requires o.Consistent()
    ensures Reconfigure(o, o.Supports()) == o
  {
    KeepAvailableKeepsAvailable(o.enabledSemanticSegmentationMatteTypes, o.availableSemanticSegmentationMatteTypes);
  }

  /** The photo output's flags as configureSession and toggleCamera set them: every
      supported delivery enabled and every available matte type enabled. */
  function EnableSupportedDeliveries(o: PhotoOutput): (r: PhotoOutput)
    ensures r.Consistent()
    ensures r.Supports() == o.Supports()
    ensures r.isLivePhotoCaptureSupported ==> r.isLivePhotoCaptureEnabled
    ensures r.isDepthDataDeliverySupported ==> r.isDepthDataDeliveryEnabled
    ensures r.isPortraitEffectsMatteDeliverySupported ==> r.isPortraitEffectsMatteDeliveryEnabled
    ensures forall t :: t in r.availableSemanticSegmentationMatteTypes ==> t in r.enabledSemanticSegmentationMatteTypes
  {
    o.(isLivePhotoCaptureEnabled := o.isLivePhotoCaptureSupported,
       isDepthDataDeliveryEnabled := o.isDepthDataDeliverySupported,
       isPortraitEffectsMatteDeliveryEnabled := o.isPortraitEffectsMatteDeliverySupported,
       enabledSemanticSegmentationMatteTypes := o.availableSemanticSegmentationMatteTypes)
  }

  /** The photo output's flags as toggleToPhoto sets them: each supported delivery is
      switched on and an unsupported one keeps its setting; the enabled matte types
      become the available ones only when some are available. */
  function RestorePhotoDeliveries(o: PhotoOutput): (r: PhotoOutput)
    ensures o.Consistent() ==> r.Consistent()
    ensures r.Supports() == o.Supports()
    ensures r.isLivePhotoCaptureEnabled <==> o.isLivePhotoCaptureSupported || o.isLivePhotoCaptureEnabled
    ensures r.isDepthDataDeliveryEnabled <==> o.isDepthDataDeliverySupported || o.isDepthDataDeliveryEnabled
    ensures r.isPortraitEffectsMatteDeliveryEnabled <==> o.isPortraitEffectsMatteDeliverySupported || o.isPortraitEffectsMatteDeliveryEnabled
    ensures o.availableSemanticSegmentationMatteTypes != [] ==>
              r.enabledSemanticSegmentationMatteTypes == o.availableSemanticSegmentationMatteTypes
    ensures o.availableSemanticSegmentationMatteTypes == [] ==>
              r.enabledSemanticSegmentationMatteTypes == o.enabledSemanticSegmentationMatteTypes
  {
    o.(isLivePhotoCaptureEnabled := o.isLivePhotoCaptureSupported || o.isLivePhotoCaptureEnabled,
       isDepthDataDeliveryEnabled := o.isDepthDataDeliverySupported || o.isDepthDataDeliveryEnabled,
       isPortraitEffectsMatteDeliveryEnabled := o.isPortraitEffectsMatteDeliverySupported || o.isPortraitEffectsMatteDeliveryEnabled,
       enabledSemanticSegmentationMatteTypes :=
         if o.availableSemanticSegmentationMatteTypes != [] then o.availableSemanticSegmentationMatteTypes
         else o.enabledSemanticSegmentationMatteTypes)
  }

  /** A trip to the video preset and back, as toggleToVideo and toggleToPhoto make it,
      leaves the photo output with its photo-preset capabilities and with every supported
      delivery on, whatever the video preset supported; whatever was enabled before is
      enabled again. */
  lemma PhotoDeliveriesSurviveVideoRoundTrip(o: PhotoOutput, video: Capabilities)
    requires o.Consistent()
    ensures var r := RestorePhotoDeliveries(Reconfigure(Reconfigure(o, video), o.Supports()));
      && r.Consistent()
      && r.Supports() == o.Supports()
      && (r.isLivePhotoCaptureEnabled <==> o.isLivePhotoCaptureSupported)
      && (r.isDepthDataDeliveryEnabled <==> o.isDepthDataDeliverySupported)
      && (r.isPortraitEffectsMatteDeliveryEnabled <==> o.isPortraitEffectsMatteDeliverySupported)
      && (o.availableSemanticSegmentationMatteTypes != [] ==>
            r.enabledSemanticSegmentationMatteTypes == o.availableSemanticSegmentationMatteTypes)
      && (forall t :: t in o.enabledSemanticSegmentationMatteTypes ==> t in r.enabledSemanticSegmentationMatteTypes)
  {
  }

  function SwitchFor(b: bool): Switch {
    if b then Switch.On else Switch.Off
  }

  class CaptureView {
    /** The devices the discovery session reports (wide-angle, dual and TrueDepth cameras). */
    const devices: seq<Device>

    var setupResult: SessionSetupResult
    /** The device of the current video input; none until configureSession adds one. */
    var videoDevice: Option<Device>
    var photoOutput: PhotoOutput
    var movieFileOutput: Option<MovieFileOutput>

    var flashMode: FlashMode
    var focusMode: FocusMode
    /** Whether the tap-to-focus gesture is attached to the preview. */
    var tapGestureAttached: bool
    var livePhotoMode: Switch
    var captureMode: CaptureMode
    var depthDataDeliveryMode: Switch
    var portraitEffectsMatteDeliveryMode: Switch
    var matteDeliveryEnabled: bool
    var semanticSegmentationMatteTypes: seq<MatteType>

    var isTakePhotoEnabled: bool
    var isToggleLivePhotoEnabled: bool
    var isToggleCameraEnabled: bool
    var isToggleToPhotoOrVideoEnabled: bool
    var isSavePhotoAlbum: bool

    /** The coupling rules every operation keeps:
        the tap gesture is attached exactly when focus is not locked;
        matte delivery is only enabled while depth delivery mode is on;
        a movie output exists only in video mode;
        the current device is one the discovery session reports;
        the photo output enables only what it supports. */
    ghost predicate Valid()
      reads this
    {
      && (tapGestureAttached <==> focusMode != Locked)
      && (matteDeliveryEnabled ==> depthDataDeliveryMode == Switch.On)
      && (movieFileOutput.Some? ==> captureMode == Video)
      && (videoDevice.Some? ==> videoDevice.value in devices)
      && photoOutput.Consistent()
    }

    /** init(frame:): the declared initial values; setup is marked not authorized when
        camera access is refused; the tap gesture is attached to the preview. The photo
        output's capabilities are those it will have once the default camera is added. */
    constructor (devices: seq<Device>, isLivePhotoCaptureSupported: bool, isDepthDataDeliverySupported: bool,
                 isPortraitEffectsMatteDeliverySupported: bool, availableMatteTypes: seq<MatteType>,
                 accessGranted: bool)
      ensures Valid()
      ensures this.devices == devices
      ensures setupResult == (if accessGranted then Success else NotAuthorized)
      ensures videoDevice == None && movieFileOutput == None
      ensures photoOutput == PhotoOutput(isLivePhotoCaptureSupported, false, isDepthDataDeliverySupported, false,
                                         isPortraitEffectsMatteDeliverySupported, false, availableMatteTypes, [])
      ensures flashMode == FlashMode.Off && focusMode == ContinuousAutoFocus && tapGestureAttached
      ensures livePhotoMode == Switch.Off && captureMode == Photo
      ensures depthDataDeliveryMode == Switch.Off && portraitEffectsMatteDeliveryMode == Switch.Off
      ensures !matteDeliveryEnabled && semanticSegmentationMatteTypes == []
      ensures !isTakePhotoEnabled && !isToggleLivePhotoEnabled && !isToggleCameraEnabled
      ensures !isToggleToPhotoOrVideoEnabled && !isSavePhotoAlbum
    {
      this.devices := devices;
      setupResult := if accessGranted then Success else NotAuthorized;
      videoDevice := None;
      photoOutput := PhotoOutput(isLivePhotoCaptureSupported, false, isDepthDataDeliverySupported, false,
                                 isPortraitEffectsMatteDeliverySupported, false, availableMatteTypes, []);
      movieFileOutput := None;
      flashMode := FlashMode.Off;
      focusMode := ContinuousAutoFocus;
      tapGestureAttached := true;
      livePhotoMode := Switch.Off;
      captureMode := Photo;
      depthDataDeliveryMode := Switch.Off;
      portraitEffectsMatteDeliveryMode := Switch.Off;
      matteDeliveryEnabled := false;
      semanticSegmentationMatteTypes := [];
      isTakePhotoEnabled := false;
      isToggleLivePhotoEnabled := false;
      isToggleCameraEnabled := false;
      isToggleToPhotoOrVideoEnabled := false;
      isSavePhotoAlbum := false;
    }

    /** configureSession: does nothing unless setup has succeeded so far. It takes the
        default camera; without one, or when its input cannot be added, setup fails.
        Otherwise the camera becomes the current device, and when the photo output can be
        added every supported delivery is enabled, the requested matte types are the
        available ones and the depth and portrait modes start on exactly when supported;
        when it cannot, setup fails. A successful setup leaves a back or front camera
        that is not a TrueDepth camera as the current device. The view runs it once, as
        the first step init queues, before any toggle can turn matte delivery on. */
    method ConfigureSession(inputAdded: bool, photoOutputAdded: bool)
      requires Valid()
      requires !matteDeliveryEnabled
      modifies this`setupResult, this`videoDevice, this`photoOutput, this`semanticSegmentationMatteTypes,
               this`depthDataDeliveryMode, this`portraitEffectsMatteDeliveryMode
      ensures Valid()
      ensures old(setupResult) != Success ==> unchanged(this)
      ensures setupResult == Success <==>
                old(setupResult) == Success && DefaultCamera(devices).Some? && inputAdded && photoOutputAdded
      ensures old(setupResult) == Success && setupResult != Success ==> setupResult == ConfigurationFailed
      ensures videoDevice == if old(setupResult) == Success && DefaultCamera(devices).Some? && inputAdded
                             then DefaultCamera(devices) else old(videoDevice)
      ensures setupResult == Success ==>
                && photoOutput == EnableSupportedDeliveries(old(photoOutput))
                && semanticSegmentationMatteTypes == old(photoOutput).availableSemanticSegmentationMatteTypes
                && depthDataDeliveryMode == SwitchFor(old(photoOutput).isDepthDataDeliverySupported)
                && portraitEffectsMatteDeliveryMode == SwitchFor(old(photoOutput).isPortraitEffectsMatteDeliverySupported)
                && videoDevice.Some? && videoDevice.value.position != Unspecified
                && videoDevice.value.deviceType != TrueDepthCamera
      ensures setupResult != Success ==>
                unchanged(this`photoOutput, this`semanticSegmentationMatteTypes,
                          this`depthDataDeliveryMode, this`portraitEffectsMatteDeliveryMode)
    {
      if setupResult != Success {
        return;
      }
      var camera := DefaultCamera(devices);
      if camera.None? || !inputAdded {
        setupResult := ConfigurationFailed;
        return;
      }
      videoDevice := camera;
      DefaultCameraIsNeverTrueDepth(devices);
      if photoOutputAdded {
        semanticSegmentationMatteTypes := photoOutput.availableSemanticSegmentationMatteTypes;
        depthDataDeliveryMode := SwitchFor(photoOutput.isDepthDataDeliverySupported);
        portraitEffectsMatteDeliveryMode := SwitchFor(photoOutput.isPortraitEffectsMatteDeliverySupported);
        photoOutput := EnableSupportedDeliveries(photoOutput);
      } else {
        setupResult := ConfigurationFailed;
      }
    }

    /** The session's isRunning observer: taking photos and switching photo/video follow
        the running state; live-photo toggling also needs live-photo capture enabled;
        camera toggling also needs more than one distinct camera position. */
    method SessionRunningChanged(isRunning: bool)
      requires Valid()
      modifies this`isTakePhotoEnabled, this`isToggleLivePhotoEnabled, this`isToggleCameraEnabled,
               this`isToggleToPhotoOrVideoEnabled
      ensures Valid()
      ensures isTakePhotoEnabled == isRunning && isToggleToPhotoOrVideoEnabled == isRunning
      ensures isToggleLivePhotoEnabled == (isRunning && photoOutput.isLivePhotoCaptureEnabled)
      ensures isToggleCameraEnabled == (isRunning && |DistinctPositions(devices)| > 1)
    {
      var positions := UniqueDevicePositionsCount(devices);
      isTakePhotoEnabled := isRunning;
      isToggleLivePhotoEnabled := isRunning && photoOutput.isLivePhotoCaptureEnabled;
      isToggleCameraEnabled := isRunning && positions > 1;
      isToggleToPhotoOrVideoEnabled := isRunning;
    }

    /** flash(): advance the flash cycle. */
    method Flash()
      requires Valid()
      modifies this`flashMode
      ensures Valid()
      ensures flashMode == NextFlashMode(old(flashMode))
    {
      flashMode := NextFlashMode(flashMode);
    }

    /** focus(point:): needs a current device, since the queued step reads the current
        input's device first (the input is force-unwrapped). It advances the focus cycle,
        then attaches the tap gesture exactly when the new mode is not locked. */
    method Focus()
      requires Valid()
      requires videoDevice.Some?
      modifies this`focusMode, this`tapGestureAttached
      ensures Valid()
      ensures focusMode == NextFocusMode(old(focusMode))
      ensures tapGestureAttached <==> old(focusMode) != ContinuousAutoFocus
    {
      focusMode := NextFocusMode(focusMode);
      tapGestureAttached := focusMode != Locked;
    }

    /** toggleLivePhotoMode: in photo mode and with live-photo toggling enabled, flip
        live-photo mode; otherwise nothing changes. */
    method ToggleLivePhotoMode()
      requires Valid()
      modifies this`livePhotoMode
      ensures Valid()
      ensures livePhotoMode == if old(captureMode == Photo && isToggleLivePhotoEnabled)
                               then Flip(old(livePhotoMode)) else old(livePhotoMode)
    {
      if !(captureMode == Photo && isToggleLivePhotoEnabled) {
        return;
      }
      livePhotoMode := Flip(livePhotoMode);
    }

    /** toggleToVideo: from photo mode, with photo/video toggling enabled, switch to video
        mode. If the session accepts a movie output, it switches to the high-quality
        preset, which gives the photo output the capabilities videoCapabilities, and attaches
        a fresh, idle movie output. Otherwise nothing changes. */
    method ToggleToVideo(canAddOutput: bool, videoCapabilities: Capabilities)
      requires Valid()
      modifies this`captureMode, this`movieFileOutput, this`photoOutput
      ensures Valid()
      ensures old(captureMode == Photo && isToggleToPhotoOrVideoEnabled) ==>
                && captureMode == Video
                && movieFileOutput == (if canAddOutput then Some(MovieFileOutput(false)) else old(movieFileOutput))
                && photoOutput == (if canAddOutput then Reconfigure(old(photoOutput), videoCapabilities)
                                   else old(photoOutput))
      ensures !old(captureMode == Photo && isToggleToPhotoOrVideoEnabled) ==> unchanged(this)
    {
      if !(captureMode == Photo && isToggleToPhotoOrVideoEnabled) {
        return;
      }
      captureMode := Video;
      if canAddOutput {
        photoOutput := Reconfigure(photoOutput, videoCapabilities);
        movieFileOutput := Some(MovieFileOutput(false));
      }
    }

    /** toggleToPhoto: from video mode, with photo/video toggling enabled, switch to photo
        mode, drop the movie output (if there is one), switch back to the photo preset,
        which gives the photo output the capabilities photoCapabilities, and switch the
        supported deliveries back on. Otherwise nothing changes. */
    method ToggleToPhoto(photoCapabilities: Capabilities)
      requires Valid()
      modifies this`captureMode, this`movieFileOutput, this`photoOutput, this`semanticSegmentationMatteTypes
      ensures Valid()
      ensures old(captureMode == Video && isToggleToPhotoOrVideoEnabled) ==>
                && captureMode == Photo
                && movieFileOutput == None
                && photoOutput == RestorePhotoDeliveries(Reconfigure(old(photoOutput), photoCapabilities))
                && photoOutput.Supports() == photoCapabilities
                && semanticSegmentationMatteTypes ==
                     if photoCapabilities.availableSemanticSegmentationMatteTypes != []
                     then photoCapabilities.availableSemanticSegmentationMatteTypes
                     else old(semanticSegmentationMatteTypes)
      ensures !old(captureMode == Video && isToggleToPhotoOrVideoEnabled) ==> unchanged(this)
    {
      if !(captureMode == Video && isToggleToPhotoOrVideoEnabled) {
        return;
      }
      captureMode := Photo;
      movieFileOutput := None;
      photoOutput := Reconfigure(photoOutput, photoCapabilities);
      if photoOutput.availableSemanticSegmentationMatteTypes != [] {
        semanticSegmentationMatteTypes := photoOutput.availableSemanticSegmentationMatteTypes;
      }
      photoOutput := RestorePhotoDeliveries(photoOutput);
    }

    /** toggleToPhoto as written: the queued step force-unwraps the movie output, so it
        traps when the earlier toggleToVideo could not add one; otherwise it is ToggleToPhoto. */
    method ToggleToPhotoAsWritten(photoCapabilities: Capabilities) returns (trapped: bool)
      requires Valid()
      modifies this`captureMode, this`movieFileOutput, this`photoOutput, this`semanticSegmentationMatteTypes
      ensures trapped <==> old(captureMode == Video && isToggleToPhotoOrVideoEnabled && movieFileOutput.None?)
      ensures !trapped ==> Valid()
      ensures !trapped && old(captureMode == Video && isToggleToPhotoOrVideoEnabled) ==>
                && captureMode == Photo
                && movieFileOutput == None
                && photoOutput == RestorePhotoDeliveries(Reconfigure(old(photoOutput), photoCapabilities))
                && photoOutput.Supports() == photoCapabilities
                && semanticSegmentationMatteTypes ==
                     if photoCapabilities.availableSemanticSegmentationMatteTypes != []
                     then photoCapabilities.availableSemanticSegmentationMatteTypes
                     else old(semanticSegmentationMatteTypes)
      ensures !old(captureMode == Video && isToggleToPhotoOrVideoEnabled) ==> unchanged(this)
    {
      trapped := captureMode == Video && isToggleToPhotoOrVideoEnabled && movieFileOutput.None?;
      if !trapped {
        ToggleToPhoto(photoCapabilities);
      }
    }

    /** recordVideo: without a movie output nothing happens. Otherwise taking photos,
        toggling cameras and switching photo/video are disabled; an idle output starts
        recording (remembering whether to save to the photo album), and a recording one is
        asked to stop, which the framework reports later through DidFinishRecording. */
    method RecordVideo(saveToPhotoAlbum: bool)
      requires Valid()
      modifies this`isTakePhotoEnabled, this`isToggleCameraEnabled, this`isToggleToPhotoOrVideoEnabled,
               this`isSavePhotoAlbum, this`movieFileOutput
      ensures Valid()
      ensures old(movieFileOutput).None? ==> unchanged(this)
      ensures old(movieFileOutput).Some? ==>
                && !isTakePhotoEnabled && !isToggleCameraEnabled && !isToggleToPhotoOrVideoEnabled
                && movieFileOutput == Some(MovieFileOutput(true))
      ensures old(movieFileOutput).Some? && !old(movieFileOutput).value.isRecording ==>
                isSavePhotoAlbum == saveToPhotoAlbum
      ensures old(movieFileOutput).Some? && old(movieFileOutput).value.isRecording ==>
                isSavePhotoAlbum == old(isSavePhotoAlbum)
    {
      if movieFileOutput.None? {
        return;
      }
      isTakePhotoEnabled := false;
      isToggleCameraEnabled := false;
      isToggleToPhotoOrVideoEnabled := false;
      if !movieFileOutput.value.isRecording {
        isSavePhotoAlbum := saveToPhotoAlbum;
        movieFileOutput := Some(MovieFileOutput(true));
      }
    }

    /** The recording-finished callback: the movie output is idle again; taking photos and
        switching photo/video are re-enabled, and camera toggling is enabled exactly when
        the devices offer more than one distinct position. */
    method DidFinishRecording()
      requires Valid()
      modifies this`movieFileOutput, this`isTakePhotoEnabled, this`isToggleCameraEnabled,
               this`isToggleToPhotoOrVideoEnabled
      ensures Valid()
      ensures movieFileOutput == if old(movieFileOutput).Some? then Some(MovieFileOutput(false)) else None
      ensures isTakePhotoEnabled && isToggleToPhotoOrVideoEnabled
      ensures isToggleCameraEnabled <==> |DistinctPositions(devices)| > 1
    {
      if movieFileOutput.Some? {
        movieFileOutput := Some(MovieFileOutput(false));
      }
      isTakePhotoEnabled := true;
      var positions := UniqueDevicePositionsCount(devices);
      isToggleCameraEnabled := positions > 1;
      isToggleToPhotoOrVideoEnabled := true;
    }

    /** toggleDepthDataDeliveryMode: only while the photo output delivers depth data.
        Depth mode flips, portrait-matte mode follows it, and matte delivery is enabled
        exactly when depth mode is on. */
    method ToggleDepthDataDeliveryMode()
      requires Valid()
      modifies this`depthDataDeliveryMode, this`portraitEffectsMatteDeliveryMode, this`matteDeliveryEnabled
      ensures Valid()
      ensures old(photoOutput.isDepthDataDeliveryEnabled) ==>
                && depthDataDeliveryMode == Flip(old(depthDataDeliveryMode))
                && portraitEffectsMatteDeliveryMode == depthDataDeliveryMode
                && (matteDeliveryEnabled <==> depthDataDeliveryMode == Switch.On)
      ensures !old(photoOutput.isDepthDataDeliveryEnabled) ==> unchanged(this)
    {
      if !photoOutput.isDepthDataDeliveryEnabled {
        return;
      }
      depthDataDeliveryMode := Flip(depthDataDeliveryMode);
      portraitEffectsMatteDeliveryMode := depthDataDeliveryMode;
      matteDeliveryEnabled := depthDataDeliveryMode == Switch.On;
    }

    /** togglePortraitEffectsMatteDeliveryMode: only while matte delivery is enabled and
        the photo output delivers portrait mattes. It never turns portrait mode on while
        depth mode is off; since matte delivery implies depth mode on, it acts as a flip. */
    method TogglePortraitEffectsMatteDeliveryMode()
      requires Valid()
      modifies this`portraitEffectsMatteDeliveryMode
      ensures Valid()
      ensures old(matteDeliveryEnabled && photoOutput.isPortraitEffectsMatteDeliveryEnabled) ==>
                && portraitEffectsMatteDeliveryMode ==
                     PortraitAfterToggle(old(portraitEffectsMatteDeliveryMode), depthDataDeliveryMode)
                && portraitEffectsMatteDeliveryMode == Flip(old(portraitEffectsMatteDeliveryMode))
      ensures !old(matteDeliveryEnabled && photoOutput.isPortraitEffectsMatteDeliveryEnabled) ==>
                portraitEffectsMatteDeliveryMode == old(portraitEffectsMatteDeliveryMode)
      ensures portraitEffectsMatteDeliveryMode == Switch.On && old(portraitEffectsMatteDeliveryMode) == Switch.Off ==>
                depthDataDeliveryMode == Switch.On
    {
      if !(matteDeliveryEnabled && photoOutput.isPortraitEffectsMatteDeliveryEnabled) {
        return;
      }
      portraitEffectsMatteDeliveryMode := PortraitAfterToggle(portraitEffectsMatteDeliveryMode, depthDataDeliveryMode);
    }

    /** setSemanticSegmentationMatteTypes: replaces the requested matte types, only while
        matte delivery is enabled. */
    method SetSemanticSegmentationMatteTypes(types: seq<MatteType>)
      requires Valid()
      modifies this`semanticSegmentationMatteTypes
      ensures Valid()
      ensures semanticSegmentationMatteTypes == if old(matteDeliveryEnabled) then types
                                                else old(semanticSegmentationMatteTypes)
    {
      if !matteDeliveryEnabled {
        return;
      }
      semanticSegmentationMatteTypes := types;
    }

    /** toggleCamera: needs a current device (the input is force-unwrapped). It picks
        NextCamera for the current position; with no such device, or when the new input
        cannot be created, nothing changes. Otherwise the new device becomes current if the
        session accepts its input, giving the photo output the capabilities newCapabilities
        (else the old input is put back and the capabilities stay). The photo output then
        enables exactly what it supports, and the requested matte types are the available
        ones. Matte delivery and the depth and portrait modes are left as they were. */
    method ToggleCamera(inputCreated: bool, canAddInput: bool, newCapabilities: Capabilities)
      requires Valid()
      requires videoDevice.Some?
      modifies this`videoDevice, this`photoOutput, this`semanticSegmentationMatteTypes
      ensures Valid()
      ensures NextCamera(old(videoDevice).value.position, devices).None? || !inputCreated ==> unchanged(this)
      ensures NextCamera(old(videoDevice).value.position, devices).Some? && inputCreated ==>
                && videoDevice == (if canAddInput then NextCamera(old(videoDevice).value.position, devices)
                                   else old(videoDevice))
                && photoOutput.Supports() == (if canAddInput then newCapabilities else old(photoOutput).Supports())
                && photoOutput == EnableSupportedDeliveries(Reconfigure(old(photoOutput), photoOutput.Supports()))
                && semanticSegmentationMatteTypes == photoOutput.availableSemanticSegmentationMatteTypes
      ensures videoDevice.Some? && videoDevice != old(videoDevice) ==>
                && videoDevice.value.position == PreferredFor(old(videoDevice).value.position).0
                && videoDevice.value.position != old(videoDevice).value.position
    {
      var next := NextCamera(videoDevice.value.position, devices);
      if next.None? || !inputCreated {
        return;
      }
      var capabilities := photoOutput.Supports();
      if canAddInput {
        videoDevice := next;
        capabilities := newCapabilities;
      }
      semanticSegmentationMatteTypes := capabilities.availableSemanticSegmentationMatteTypes;
      photoOutput := EnableSupportedDeliveries(Reconfigure(photoOutput, capabilities));
    }
  }

  /** Switching from a back dual camera that delivers depth to a front camera that does
      not leaves matte delivery and depth mode on, while the photo output no longer
      supports depth data. */
  method MatteOutlivesDepthSupport() returns (view: CaptureView)
    ensures view.Valid()
    ensures view.matteDeliveryEnabled && view.depthDataDeliveryMode == Switch.On
    ensures !view.photoOutput.isDepthDataDeliverySupported && !view.photoOutput.isDepthDataDeliveryEnabled
  {
    var back := Device(0, Back, DualCamera);
    var front := Device(1, Front, WideAngleCamera);
    view := new CaptureView([back, front], false, true, false, [], true);
    assert HasDevice(view.devices, DualCamera, Back) by { assert back in view.devices; }
    view.ConfigureSession(true, true);
    view.ToggleDepthDataDeliveryMode();
    view.ToggleDepthDataDeliveryMode();
    view.ToggleCamera(true, true, Capabilities(false, false, false, []));
  }

  /** The view reaches the force-unwrap trap of toggleToPhoto as written: setup succeeds,
      the session runs, the session refuses the movie output, and the user switches back
      to photo mode. */
  method NilMovieOutputTrap() returns (trapped: bool)
    ensures trapped
  {
    var view := new CaptureView([Device(0, Back, WideAngleCamera)], false, false, false, [], true);
    view.ConfigureSession(true, true);
    view.SessionRunningChanged(true);
    view.ToggleToVideo(false, Capabilities(false, false, false, []));
    trapped := view.ToggleToPhotoAsWritten(Capabilities(false, false, false, []));
  }
}
