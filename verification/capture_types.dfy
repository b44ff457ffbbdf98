/** Value types shared by the capture view model: the view's private mode enums,
    the camera devices the discovery session reports, and the capability flags of
    the photo and movie outputs that the view reads and sets. */
module CaptureTypes {

  datatype Option<T> = None | Some(value: T)

  /** Outcome of session setup, in the order of the view's SessionSetupResult raw values. */
  datatype SessionSetupResult = Success | NotAuthorized | ConfigurationFailed

  /** The view's flash setting; raw values 0, 1, 2 match the framework's flash modes. */
  datatype FlashMode = Off | On | Auto

  /** The framework's focus modes that the focus cycle moves through. */
  datatype FocusMode = Locked | AutoFocus | ContinuousAutoFocus

  /** The framework's torch modes of a capture device. */
  datatype TorchMode = Off | On | Auto

  /** The view's two-valued switches: live-photo mode, depth-data delivery mode and
      portrait-effects-matte delivery mode are each one of these. */
  datatype Switch = On | Off

  datatype CaptureMode = Photo | Video

  /** A camera's physical position. */
  datatype Position = Unspecified | Back | Front

  /** The device types the discovery session is asked for. */
  datatype DeviceType = WideAngleCamera | DualCamera | TrueDepthCamera

  /** A video capture device as far as device choice is concerned: its identity, where it
      sits and what kind of camera it is. */
  datatype Device = Device(uniqueID: nat, position: Position, deviceType: DeviceType)

  /** Semantic segmentation matte types the photo output may deliver. */
  datatype MatteType = Hair | Skin | Teeth | Glasses

  /** What the photo output supports with the current camera input and session preset. */
  datatype Capabilities = Capabilities(
    isLivePhotoCaptureSupported: bool,
    isDepthDataDeliverySupported: bool,
    isPortraitEffectsMatteDeliverySupported: bool,
    availableSemanticSegmentationMatteTypes: seq<MatteType>)

  /** The photo output's capability flags: what the hardware supports and what the view
      has enabled. */
  datatype PhotoOutput = PhotoOutput(
    isLivePhotoCaptureSupported: bool,
    isLivePhotoCaptureEnabled: bool,
    isDepthDataDeliverySupported: bool,
    isDepthDataDeliveryEnabled: bool,
    isPortraitEffectsMatteDeliverySupported: bool,
    isPortraitEffectsMatteDeliveryEnabled: bool,
    availableSemanticSegmentationMatteTypes: seq<MatteType>,
    enabledSemanticSegmentationMatteTypes: seq<MatteType>)
  {
    /** The output's capabilities, without what is enabled. */
    function Supports(): Capabilities {
      Capabilities(isLivePhotoCaptureSupported, isDepthDataDeliverySupported,
                   isPortraitEffectsMatteDeliverySupported, availableSemanticSegmentationMatteTypes)
    }

    /** The framework refuses to enable a delivery the output does not support, and to
        enable a matte type it does not offer. */
    predicate Consistent() {
      && (isLivePhotoCaptureEnabled ==> isLivePhotoCaptureSupported)
      && (isDepthDataDeliveryEnabled ==> isDepthDataDeliverySupported)
      && (isPortraitEffectsMatteDeliveryEnabled ==> isPortraitEffectsMatteDeliverySupported)
      && (forall t :: t in enabledSemanticSegmentationMatteTypes ==> t in availableSemanticSegmentationMatteTypes)
    }
  }

  /** A movie file output; only whether it is recording matters to the view. */
  datatype MovieFileOutput = MovieFileOutput(isRecording: bool)
}
