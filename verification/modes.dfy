/** The step functions behind the view's mode buttons: the flash cycle, the focus
    cycle, the torch toggle, the on/off switches and the portrait-matte toggle.
    CaptureView.CaptureView applies them to its fields. */
module Modes {
  import opened CaptureTypes

  /** flash(): off becomes on, on becomes auto, auto becomes off. */
  function NextFlashMode(m: FlashMode): (r: FlashMode)
    ensures r != m
  {
    match m
    case Off => FlashMode.On
    case On => FlashMode.Auto
    case Auto => FlashMode.Off
  }

  /** Three presses of the flash button restore the mode and no fewer do, so the
      button visits every flash mode. */
  lemma FlashCycleHasPeriodThree(m: FlashMode)
    ensures NextFlashMode(NextFlashMode(NextFlashMode(m))) == m
    ensures NextFlashMode(NextFlashMode(m)) != m
    ensures {NextFlashMode(m), NextFlashMode(NextFlashMode(m)), m} == {FlashMode.Off, FlashMode.On, FlashMode.Auto}
  {
  }

  /** focus(point:): locked becomes autoFocus, autoFocus becomes continuousAutoFocus,
      and every other mode becomes locked. */
  function NextFocusMode(m: FocusMode): (r: FocusMode)
    ensures r != m
    ensures r == Locked <==> m == ContinuousAutoFocus
  {
    match m
    case Locked => AutoFocus
    case AutoFocus => ContinuousAutoFocus
    case ContinuousAutoFocus => Locked
  }

  /** Three focus presses restore the focus mode and no fewer do. */
  lemma FocusCycleHasPeriodThree(m: FocusMode)
    ensures NextFocusMode(NextFocusMode(NextFocusMode(m))) == m
    ensures NextFocusMode(NextFocusMode(m)) != m
  {
  }

  /** The torch mode torch() asks for: on when the torch is off, off otherwise. */
  function TorchTarget(current: TorchMode): (r: TorchMode)
    ensures r != TorchMode.Auto
    ensures r == TorchMode.On <==> current == TorchMode.Off
  {
    if current.Off? then TorchMode.On else TorchMode.Off
  }

  /** The device's torch mode after torch(): the target is applied only when the device
      could be locked for configuration, has a torch and supports the target mode. */
  function TorchAfterToggle(current: TorchMode, lockSucceeded: bool, hasTorch: bool,
                            supportedModes: set<TorchMode>): (r: TorchMode)
    ensures r == current || r == TorchTarget(current)
    ensures r != current <==> lockSucceeded && hasTorch && TorchTarget(current) in supportedModes && current != TorchTarget(current)
  {
    if lockSucceeded && hasTorch && TorchTarget(current) in supportedModes then TorchTarget(current) else current
  }

  /** On a device that supports both on and off, two torch presses from off or on
      restore the torch mode; a torch in auto is switched off. */
  lemma TorchToggleTwiceRestores(current: TorchMode, supportedModes: set<TorchMode>)
    requires current != TorchMode.Auto
    requires TorchMode.On in supportedModes && TorchMode.Off in supportedModes
    ensures TorchAfterToggle(TorchAfterToggle(current, true, true, supportedModes), true, true, supportedModes) == current
    ensures TorchAfterToggle(TorchMode.Auto, true, true, supportedModes) == TorchMode.Off
  {
  }

  /** The on/off flip used by toggleLivePhotoMode and toggleDepthDataDeliveryMode. */
  function Flip(s: Switch): (r: Switch)
    ensures r != s
  {
    if s.On? then Switch.Off else Switch.On
  }

  lemma FlipTwiceRestores(s: Switch)
    ensures Flip(Flip(s)) == s
  {
  }

  /** togglePortraitEffectsMatteDeliveryMode's step: portrait mode on becomes off;
      off becomes on only while depth-data delivery is on. */
  function PortraitAfterToggle(portrait: Switch, depth: Switch): (r: Switch)
    ensures depth == Switch.Off ==> r == Switch.Off
    ensures r != portrait <==> portrait == Switch.On || depth == Switch.On
  {
    if portrait.On? then Switch.Off
    else if depth.Off? then Switch.Off
    else Switch.On
  }

  /** With depth delivery on, the portrait toggle is a flip: two presses restore it. */
  lemma PortraitToggleTwiceRestores(portrait: Switch)
    ensures PortraitAfterToggle(PortraitAfterToggle(portrait, Switch.On), Switch.On) == portrait
    ensures PortraitAfterToggle(portrait, Switch.On) == Flip(portrait)
  {
  }
}
