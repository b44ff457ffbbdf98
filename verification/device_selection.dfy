/** How the view chooses a camera: the default camera when the session is configured,
    the next camera when the user toggles cameras, and how many distinct camera
    positions the discovery session offers (which sets the view's camera-toggle flag). */
module DeviceSelection {
  import opened CaptureTypes

  /** The condition of both first(where:) searches in toggleCamera: a device at the
      position and, when a device type is given, of that type. */
  predicate Matches(d: Device, position: Position, deviceType: Option<DeviceType>) {
    d.position == position && (deviceType.Some? ==> d.deviceType == deviceType.value)
  }

  /** The index of the first device that matches, as first(where:) finds it. */
  function FirstMatching(devices: seq<Device>, position: Position, deviceType: Option<DeviceType>): (r: Option<nat>)
    ensures r.Some? ==> r.value < |devices| && Matches(devices[r.value], position, deviceType)
    ensures r.Some? ==> forall j :: 0 <= j < r.value ==> !Matches(devices[j], position, deviceType)
    ensures r.None? <==> forall j :: 0 <= j < |devices| ==> !Matches(devices[j], position, deviceType)
  {
    if devices == [] then None
    else if Matches(devices[0], position, deviceType) then Some(0)
    else
      match FirstMatching(devices[1..], position, deviceType)
      case None => None
      case Some(k) => Some(k + 1)
  }

  /** toggleCamera's preference: from the front (or an unspecified position) go to a back
      dual camera, from the back go to a front TrueDepth camera. */
  function PreferredFor(current: Position): (r: (Position, DeviceType))
    ensures r.0 != current && r.0 != Unspecified
    ensures r.0 == Back <==> current != Back
    ensures r.0 == Back <==> r.1 == DualCamera
    ensures r.0 == Front <==> r.1 == TrueDepthCamera
  {
    match current
    case Back => (Front, TrueDepthCamera)
    case _ => (Back, DualCamera)
  }

  /** The camera toggleCamera switches to: the first device with the preferred position
      and device type, else the first device with the preferred position, else none. */
  function NextCamera(current: Position, devices: seq<Device>): (r: Option<Device>)
    ensures r.Some? ==> r.value in devices && r.value.position == PreferredFor(current).0
    ensures r.None? <==> forall d :: d in devices ==> d.position != PreferredFor(current).0
    ensures forall k :: 0 <= k < |devices| && devices[k].position == PreferredFor(current).0
                        && devices[k].deviceType == PreferredFor(current).1
                        && (forall j :: 0 <= j < k ==> !(devices[j].position == PreferredFor(current).0
                                                          && devices[j].deviceType == PreferredFor(current).1))
                        ==> r == Some(devices[k])
    ensures (forall j :: 0 <= j < |devices| ==> devices[j].deviceType != PreferredFor(current).1
                                                || devices[j].position != PreferredFor(current).0)
            ==> forall k :: 0 <= k < |devices| && devices[k].position == PreferredFor(current).0
                            && (forall j :: 0 <= j < k ==> devices[j].position != PreferredFor(current).0)
                            ==> r == Some(devices[k])
  {
    var (position, deviceType) := PreferredFor(current);
    var exact := FirstMatching(devices, position, Some(deviceType));
    if exact.Some? then Some(devices[exact.value])
    else
      var byPosition := FirstMatching(devices, position, None);
      if byPosition.Some? then Some(devices[byPosition.value]) else None
  }

  /** The system's default device of a type at a position, taken as the first such device. */
  function DefaultDevice(devices: seq<Device>, deviceType: DeviceType, position: Position): (r: Option<Device>)
    ensures r.Some? ==> r.value in devices && r.value.deviceType == deviceType && r.value.position == position
    ensures r.None? <==> !HasDevice(devices, deviceType, position)
  {
    var i := FirstMatching(devices, position, Some(deviceType));
    if i.Some? then
      Some(devices[i.value])
    else
      assert forall d :: d in devices ==> !(d.deviceType == deviceType && d.position == position) by {
        forall d | d in devices ensures !(d.deviceType == deviceType && d.position == position) {
          var j :| 0 <= j < |devices| && devices[j] == d;
        }
      }
      None
  }

  predicate HasDevice(devices: seq<Device>, deviceType: DeviceType, position: Position) {
    exists d :: d in devices && d.deviceType == deviceType && d.position == position
  }

  /** configureSession's camera: a back dual camera, else a back wide-angle camera, else
      a front wide-angle camera; with none of these the configuration fails. */
  function DefaultCamera(devices: seq<Device>): (r: Option<Device>)
    ensures r.Some? ==> r.value in devices
    ensures HasDevice(devices, DualCamera, Back) ==> r.Some? && r.value.deviceType == DualCamera && r.value.position == Back
    ensures !HasDevice(devices, DualCamera, Back) && HasDevice(devices, WideAngleCamera, Back)
            ==> r.Some? && r.value.deviceType == WideAngleCamera && r.value.position == Back
    ensures !HasDevice(devices, DualCamera, Back) && !HasDevice(devices, WideAngleCamera, Back)
            && HasDevice(devices, WideAngleCamera, Front)
            ==> r.Some? && r.value.deviceType == WideAngleCamera && r.value.position == Front
    ensures r.None? <==> !HasDevice(devices, DualCamera, Back) && !HasDevice(devices, WideAngleCamera, Back)
                         && !HasDevice(devices, WideAngleCamera, Front)
  {
    var dual := DefaultDevice(devices, DualCamera, Back);
    if dual.Some? then dual
    else
      var back := DefaultDevice(devices, WideAngleCamera, Back);
      if back.Some? then back
      else DefaultDevice(devices, WideAngleCamera, Front)
  }

  /** The default camera is never a TrueDepth camera and never at an unspecified position. */
  lemma DefaultCameraIsNeverTrueDepth(devices: seq<Device>)
    ensures DefaultCamera(devices).Some? ==> DefaultCamera(devices).value.deviceType != TrueDepthCamera
    ensures DefaultCamera(devices).Some? ==> DefaultCamera(devices).value.position != Unspecified
  {
  }

  /** The positions of the devices, without repetition or order. */
  function DistinctPositions(devices: seq<Device>): set<Position> {
    set d | d in devices :: d.position
  }

  predicate NoDuplicates<T(==)>(s: seq<T>) {
    forall i, j :: 0 <= i < j < |s| ==> s[i] != s[j]
  }

  lemma DistinctPositionsAppend(devices: seq<Device>, d: Device)
    ensures DistinctPositions(devices + [d]) == DistinctPositions(devices) + {d.position}
  {
    assert forall e :: e in devices + [d] <==> e in devices || e == d;
  }

  /** A sequence without repetitions has as many distinct elements as it has elements. */
  lemma {:induction false} NoDuplicatesCardinality<T>(s: seq<T>)
    requires NoDuplicates(s)
    ensures |set x | x in s| == |s|
  {
    if s != [] {
      NoDuplicatesCardinality(s[1..]);
      assert (set x | x in s) == (set x | x in s[1..]) + {s[0]};
      assert s[0] !in (set x | x in s[1..]);
    }
  }

  /** uniqueDevicePositionsCount: walks the devices, appending each position not yet
      seen, and returns how many positions it collected. */
  method UniqueDevicePositionsCount(devices: seq<Device>) returns (count: nat)
    ensures count == |DistinctPositions(devices)|
  {
    var uniqueDevicePositions: seq<Position> := [];
    for i := 0 to |devices|
      invariant NoDuplicates(uniqueDevicePositions)
      invariant (set p | p in uniqueDevicePositions) == DistinctPositions(devices[..i])
    {
      assert devices[..i + 1] == devices[..i] + [devices[i]];
      DistinctPositionsAppend(devices[..i], devices[i]);
      if devices[i].position !in uniqueDevicePositions {
        uniqueDevicePositions := uniqueDevicePositions + [devices[i].position];
      }
    }
    assert devices[..|devices|] == devices;
    NoDuplicatesCardinality(uniqueDevicePositions);
    count := |uniqueDevicePositions|;
  }

  /** There are never more distinct positions than devices, nor more than the three
      positions there are, and there are none exactly when there are no devices. */
  lemma {:induction false} DistinctPositionsBounds(devices: seq<Device>)
    ensures |DistinctPositions(devices)| <= |devices|
    ensures |DistinctPositions(devices)| <= 3
    ensures |DistinctPositions(devices)| == 0 <==> devices == []
  {
    if devices != [] {
      DistinctPositionsBounds(devices[1..]);
      assert DistinctPositions(devices) == DistinctPositions(devices[1..]) + {devices[0].position};
      assert devices[0].position in DistinctPositions(devices);
    }
    forall p | p in DistinctPositions(devices) ensures p in {Unspecified, Back, Front} {
      match p
      case Unspecified =>
      case Back =>
      case Front =>
    }
    SubsetCardinality(DistinctPositions(devices), {Unspecified, Back, Front});
  }

  lemma SubsetCardinality<T>(a: set<T>, b: set<T>)
    requires a <= b
    ensures |a| <= |b|
  {
    assert b == a + (b - a);
  }

  /** The camera-toggle flag needs at least two positions, which needs at least two devices. */
  lemma ToggleNeedsTwoDevices(devices: seq<Device>)
    requires |DistinctPositions(devices)| > 1
    ensures |devices| >= 2
    ensures exists i, j :: 0 <= i < j < |devices| && devices[i].position != devices[j].position
  {
    DistinctPositionsBounds(devices);
    if forall j :: 0 <= j < |devices| ==> devices[j].position == devices[0].position {
      assert DistinctPositions(devices) <= {devices[0].position};
      SubsetCardinality(DistinctPositions(devices), {devices[0].position});
      assert false;
    }
    var j :| 0 <= j < |devices| && devices[j].position != devices[0].position;
    assert 0 < j;
  }
}
