/** The two ways the view turns a screen orientation into a video orientation for the
    preview connection: from the device's physical orientation when it rotates, and
    from the window's interface orientation when the session is first configured. */
module Orientation {
  import opened CaptureTypes

  datatype DeviceOrientation = Unknown | Portrait | PortraitUpsideDown | LandscapeLeft | LandscapeRight | FaceUp | FaceDown

  datatype InterfaceOrientation = Unknown | Portrait | PortraitUpsideDown | LandscapeLeft | LandscapeRight

  datatype VideoOrientation = Portrait | PortraitUpsideDown | LandscapeRight | LandscapeLeft

  /** The device orientation's isPortrait. */
  predicate IsPortrait(d: DeviceOrientation) {
    d == DeviceOrientation.Portrait || d == DeviceOrientation.PortraitUpsideDown
  }

  /** The device orientation's isLandscape. */
  predicate IsLandscape(d: DeviceOrientation) {
    d == DeviceOrientation.LandscapeLeft || d == DeviceOrientation.LandscapeRight
  }

  /** Exchanges the two landscape video orientations and keeps the portrait ones. */
  function SwapLandscape(v: VideoOrientation): (r: VideoOrientation)
  {
    match v
    case LandscapeLeft => VideoOrientation.LandscapeRight
    case LandscapeRight => VideoOrientation.LandscapeLeft
    case _ => v
  }

  /** The interface orientation that carries the same name as a device orientation;
      face-up and face-down have none and become unknown. */
  function SameNamedInterfaceOrientation(d: DeviceOrientation): InterfaceOrientation {
    match d
    case Portrait => InterfaceOrientation.Portrait
    case PortraitUpsideDown => InterfaceOrientation.PortraitUpsideDown
    case LandscapeLeft => InterfaceOrientation.LandscapeLeft
    case LandscapeRight => InterfaceOrientation.LandscapeRight
    case _ => InterfaceOrientation.Unknown
  }

  /** The failable initialiser from an interface orientation: each named orientation maps
      to the video orientation of the same name, unknown to nothing. */
  function VideoOrientationFromInterface(i: InterfaceOrientation): (r: Option<VideoOrientation>)
    ensures r.None? <==> i == InterfaceOrientation.Unknown
  {
    match i
    case Portrait => Some(VideoOrientation.Portrait)
    case PortraitUpsideDown => Some(VideoOrientation.PortraitUpsideDown)
    case LandscapeLeft => Some(VideoOrientation.LandscapeLeft)
    case LandscapeRight => Some(VideoOrientation.LandscapeRight)
    case Unknown => None
  }

  /** The failable initialiser from a device orientation. It is defined exactly on the
      portrait and landscape orientations, and there it agrees with the interface
      initialiser except that landscape left and right are exchanged (the device's
      landscape-left is the interface's landscape-right). */
  function VideoOrientationFromDevice(d: DeviceOrientation): (r: Option<VideoOrientation>)
    ensures r.Some? <==> IsPortrait(d) || IsLandscape(d)
    ensures r.Some? ==> VideoOrientationFromInterface(SameNamedInterfaceOrientation(d)) == Some(SwapLandscape(r.value))
  {
    match d
    case Portrait => Some(VideoOrientation.Portrait)
    case PortraitUpsideDown => Some(VideoOrientation.PortraitUpsideDown)
    case LandscapeLeft => Some(VideoOrientation.LandscapeRight)
    case LandscapeRight => Some(VideoOrientation.LandscapeLeft)
    case _ => None
  }

  /** Both initialisers are injective and together cover every video orientation;
      exchanging the landscape orientations twice changes nothing. */
  lemma InitialisersAreBijectiveOnTheirDomain(a: DeviceOrientation, b: DeviceOrientation,
                                              i: InterfaceOrientation, j: InterfaceOrientation,
                                              v: VideoOrientation)
    ensures VideoOrientationFromDevice(a).Some? && VideoOrientationFromDevice(a) == VideoOrientationFromDevice(b) ==> a == b
    ensures VideoOrientationFromInterface(i).Some? && VideoOrientationFromInterface(i) == VideoOrientationFromInterface(j) ==> i == j
    ensures SwapLandscape(SwapLandscape(v)) == v
    ensures exists d :: VideoOrientationFromDevice(d) == Some(v)
    ensures exists w :: VideoOrientationFromInterface(w) == Some(v)
  {
    match v
    case Portrait =>
      assert VideoOrientationFromDevice(DeviceOrientation.Portrait) == Some(v);
      assert VideoOrientationFromInterface(InterfaceOrientation.Portrait) == Some(v);
    case PortraitUpsideDown =>
      assert VideoOrientationFromDevice(DeviceOrientation.PortraitUpsideDown) == Some(v);
      assert VideoOrientationFromInterface(InterfaceOrientation.PortraitUpsideDown) == Some(v);
    case LandscapeLeft =>
      assert VideoOrientationFromDevice(DeviceOrientation.LandscapeRight) == Some(v);
      assert VideoOrientationFromInterface(InterfaceOrientation.LandscapeLeft) == Some(v);
    case LandscapeRight =>
      assert VideoOrientationFromDevice(DeviceOrientation.LandscapeLeft) == Some(v);
      assert VideoOrientationFromInterface(InterfaceOrientation.LandscapeRight) == Some(v);
  }

  /** orientationNotification: the preview connection gets a new video orientation only
      when the device initialiser yields one and the device is in a portrait or
      landscape orientation; otherwise the connection keeps its orientation. */
  function OrientationOnRotation(d: DeviceOrientation): (r: Option<VideoOrientation>)
    ensures r == VideoOrientationFromDevice(d) // the isPortrait/isLandscape guard adds nothing
    ensures r.None? <==> d in {DeviceOrientation.Unknown, DeviceOrientation.FaceUp, DeviceOrientation.FaceDown}
  {
    var v := VideoOrientationFromDevice(d);
    if v.Some? && (IsPortrait(d) || IsLandscape(d)) then v else None
  }

  /** The preview's initial video orientation in configureSession: portrait, unless the
      window reports a known interface orientation, which is then used as named. */
  function InitialVideoOrientation(window: InterfaceOrientation): (r: VideoOrientation)
    ensures window == InterfaceOrientation.Unknown ==> r == VideoOrientation.Portrait
    ensures window != InterfaceOrientation.Unknown ==> VideoOrientationFromInterface(window) == Some(r)
  {
    var v := if window != InterfaceOrientation.Unknown then VideoOrientationFromInterface(window) else None;
    if v.Some? then v.value else VideoOrientation.Portrait
  }
}
