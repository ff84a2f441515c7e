/** The two helpers of vr_utilities.py: reshaping the runtime's 3x4
    device-to-tracking matrix into a translation and a rotation, and
    selecting the indices of the connected, validly tracked controllers. */
module VrUtilities {

  /** A translation vector. The reshape only moves the runtime's floats
      around, so `real` stands in for them. */
  type Vector3 = v: seq<real> | |v| == 3 witness [0.0, 0.0, 0.0]

  /** A 3x3 rotation block, row-major. */
  type Matrix33 = m: seq<seq<real>> | |m| == 3 && forall r :: 0 <= r < 3 ==> |m[r]| == 3
    witness [[0.0, 0.0, 0.0], [0.0, 0.0, 0.0], [0.0, 0.0, 0.0]]

  /** HmdMatrix34_t: three rows of four columns; column 3 is the translation. */
  type Matrix34 = m: seq<seq<real>> | |m| == 3 && forall r :: 0 <= r < 3 ==> |m[r]| == 4
    witness [[0.0, 0.0, 0.0, 0.0], [0.0, 0.0, 0.0, 0.0], [0.0, 0.0, 0.0, 0.0]]

  /** The pair (translation, rotation) that convert_matrix returns. */
  datatype Transform = Transform(translation: Vector3, rotation: Matrix33)

  /** The runtime's ETrackedDeviceClass. */
  datatype DeviceClass = Invalid | Hmd | Controller | GenericTracker | TrackingReference | DisplayRedirect

  /** The fields of TrackedDevicePose_t that the program reads. */
  datatype TrackedDevicePose = TrackedDevicePose(
    deviceToAbsoluteTracking: Matrix34,
    poseIsValid: bool,
    deviceIsConnected: bool)

  /** k_unTrackedDeviceIndex_Hmd: the head-mounted display's reserved slot. */
  const HmdIndex: nat := 0

  /** convert_matrix: column 3 becomes the translation, the leading 3x3
      block the rotation; every entry keeps its position. */
  function ConvertMatrix(mat: Matrix34): (r: Transform)
    ensures forall i :: 0 <= i < 3 ==> r.translation[i] == mat[i][3]
    ensures forall i, j :: 0 <= i < 3 && 0 <= j < 3 ==> r.rotation[i][j] == mat[i][j]
  {
    Transform([mat[0][3], mat[1][3], mat[2][3]],
              [[mat[0][0], mat[0][1], mat[0][2]],
               [mat[1][0], mat[1][1], mat[1][2]],
               [mat[2][0], mat[2][1], mat[2][2]]])
  }

  /** The inverse reshape: put the translation back as column 3. */
  function Assemble(tr: Transform): Matrix34
  {
    [tr.rotation[0] + [tr.translation[0]],
     tr.rotation[1] + [tr.translation[1]],
     tr.rotation[2] + [tr.translation[2]]]
  }

  /** The reshape loses no entry of the 3x4 matrix ... */
  lemma AssembleAfterConvert(mat: Matrix34)
    ensures Assemble(ConvertMatrix(mat)) == mat
  {
    var m := Assemble(ConvertMatrix(mat));
    forall r | 0 <= r < 3 ensures m[r] == mat[r] {
      assert |m[r]| == |mat[r]| == 4;
      forall c | 0 <= c < 4 ensures m[r][c] == mat[r][c] {
      }
    }
  }

  /** ... and invents none. */
  lemma ConvertAfterAssemble(tr: Transform)
    ensures ConvertMatrix(Assemble(tr)) == tr
  {
    var r := ConvertMatrix(Assemble(tr));
    assert r.translation == tr.translation;
    forall i | 0 <= i < 3 ensures r.rotation[i] == tr.rotation[i] {
      assert |r.rotation[i]| == |tr.rotation[i]| == 3;
    }
  }

  /** The three tests get_controller_idxs applies to slot i, in its order:
      connected, valid pose, and the runtime classes it as a controller. */
  predicate IsLiveController(poses: seq<TrackedDevicePose>, deviceClass: nat -> DeviceClass, i: nat)
    requires i < |poses|
  {
    poses[i].deviceIsConnected && poses[i].poseIsValid && deviceClass(i) == Controller
  }

  predicate StrictlyAscending(s: seq<nat>)
  {
    forall j, k :: 0 <= j < k < |s| ==> s[j] < s[k]
  }

  /** The indices d >= i that pass the three tests, in ascending order. */
  function ControllersFrom(poses: seq<TrackedDevicePose>, deviceClass: nat -> DeviceClass, i: nat): (r: seq<nat>)
    ensures forall k :: 0 <= k < |r| ==> i <= r[k] < |poses|
    ensures StrictlyAscending(r)
    decreases |poses| - i
  {
    if i >= |poses| then []
    else if IsLiveController(poses, deviceClass, i) then [i] + ControllersFrom(poses, deviceClass, i + 1)
    else ControllersFrom(poses, deviceClass, i + 1)
  }

  /** What get_controller_idxs returns: the scan starts at 1, past the HMD slot. */
  function ControllerIdxs(poses: seq<TrackedDevicePose>, deviceClass: nat -> DeviceClass): seq<nat>
  {
    ControllersFrom(poses, deviceClass, 1)
  }

  /** Soundness and completeness of the scan from i. */
  lemma {:induction false} ControllersFromMembers(poses: seq<TrackedDevicePose>, deviceClass: nat -> DeviceClass, i: nat, d: nat)
    ensures d in ControllersFrom(poses, deviceClass, i) <==> i <= d < |poses| && IsLiveController(poses, deviceClass, d)
    decreases |poses| - i
  {
    if i < |poses| {
      ControllersFromMembers(poses, deviceClass, i + 1, d);
    }
  }

  /** An index is selected exactly when it is not the HMD slot, lies inside
      the pose array and passes all three tests. */
  lemma ControllerIdxsMembers(poses: seq<TrackedDevicePose>, deviceClass: nat -> DeviceClass)
    ensures forall d :: d in ControllerIdxs(poses, deviceClass) <==> 1 <= d < |poses| && IsLiveController(poses, deviceClass, d)
  {
    forall d ensures d in ControllerIdxs(poses, deviceClass) <==> 1 <= d < |poses| && IsLiveController(poses, deviceClass, d) {
      if d >= 0 {
        ControllersFromMembers(poses, deviceClass, 1, d);
      }
    }
  }

  /** The scan from i reads nothing but the two flags of slots i.. and the
      class of the slots whose flags are both set. */
  lemma {:induction false} ControllersFromFrame(
    p: seq<TrackedDevicePose>, c: nat -> DeviceClass,
    q: seq<TrackedDevicePose>, e: nat -> DeviceClass, i: nat)
    requires |p| == |q|
    requires forall d :: i <= d < |p| ==>
      p[d].deviceIsConnected == q[d].deviceIsConnected && p[d].poseIsValid == q[d].poseIsValid
    requires forall d :: i <= d < |p| && p[d].deviceIsConnected && p[d].poseIsValid ==> c(d) == e(d)
    ensures ControllersFrom(p, c, i) == ControllersFrom(q, e, i)
    decreases |p| - i
  {
    if i < |p| {
      ControllersFromFrame(p, c, q, e, i + 1);
    }
  }

  /** The device-class query matters only for slots that are connected and
      validly tracked: two oracles that agree there select the same indices. */
  lemma ClassQueriedOnlyForLiveDevices(poses: seq<TrackedDevicePose>, c: nat -> DeviceClass, e: nat -> DeviceClass)
    requires forall d :: 1 <= d < |poses| && poses[d].deviceIsConnected && poses[d].poseIsValid ==> c(d) == e(d)
    ensures ControllerIdxs(poses, c) == ControllerIdxs(poses, e)
  {
    ControllersFromFrame(poses, c, poses, e, 1);
  }

  /** Whatever sits in the HMD slot, the selection is the same. */
  lemma HmdSlotDoesNotAffectSelection(poses: seq<TrackedDevicePose>, deviceClass: nat -> DeviceClass, p0: TrackedDevicePose)
    requires |poses| > 0
    ensures ControllerIdxs(poses[HmdIndex := p0], deviceClass) == ControllerIdxs(poses, deviceClass)
  {
    ControllersFromFrame(poses[HmdIndex := p0], deviceClass, poses, deviceClass, 1);
  }

  /** get_controller_idxs. `queried` records, for the proof only, the
      slots for which the runtime's device class is asked. */
  method GetControllerIdxs(poses: seq<TrackedDevicePose>, deviceClass: nat -> DeviceClass)
    returns (idxs: seq<nat>, ghost queried: seq<nat>)
    ensures idxs == ControllerIdxs(poses, deviceClass)
    ensures forall d :: d in idxs <==> 1 <= d < |poses| && IsLiveController(poses, deviceClass, d)
    ensures StrictlyAscending(idxs)
    ensures |poses| <= 1 ==> idxs == []
    ensures forall d :: d in queried <==> 1 <= d < |poses| && poses[d].deviceIsConnected && poses[d].poseIsValid
  {
    idxs, queried := [], [];
    var i := 1;
    while i < |poses|
      invariant 1 <= i
      invariant idxs + ControllersFrom(poses, deviceClass, i) == ControllerIdxs(poses, deviceClass)
      invariant forall d :: d in queried <==> 1 <= d < i && d < |poses| && poses[d].deviceIsConnected && poses[d].poseIsValid
    {
      var pose := poses[i];
      if pose.deviceIsConnected {
        if pose.poseIsValid {
          queried := queried + [i];
          var cls := deviceClass(i);
          if cls == Controller {
            idxs := idxs + [i];
          }
        }
      }
      i := i + 1;
    }
    ControllerIdxsMembers(poses, deviceClass);
  }
}
