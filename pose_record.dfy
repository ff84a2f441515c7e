/** The Pose class of main.py: one timestamped snapshot holding the HMD's
    transform and a transform for every selected controller. The record is
    never changed after its constructor runs, so it is a value here. */
module PoseRecords {
  import opened VrUtilities

  /** t is passed through as given; hmdPose and each controller value are
      the (translation, rotation) pair of convert_matrix. */
  datatype PoseRecord = PoseRecord(t: real, hmdPose: Transform, controllerPoses: map<nat, Transform>)

  /** The record Pose(t, poses) holds. The HMD slot must exist: the source
      indexes it unconditionally. */
  function PoseOf(t: real, poses: seq<TrackedDevicePose>, deviceClass: nat -> DeviceClass): (r: PoseRecord)
    requires |poses| > 0
    ensures r.t == t
    ensures r.hmdPose == ConvertMatrix(poses[HmdIndex].deviceToAbsoluteTracking)
    ensures forall d :: d in r.controllerPoses <==> 1 <= d < |poses| && IsLiveController(poses, deviceClass, d)
    ensures forall d :: d in r.controllerPoses ==> d < |poses| && r.controllerPoses[d] == ConvertMatrix(poses[d].deviceToAbsoluteTracking)
  {
    var idxs := ControllerIdxs(poses, deviceClass);
    ControllerIdxsMembers(poses, deviceClass);
    PoseRecord(t, ConvertMatrix(poses[HmdIndex].deviceToAbsoluteTracking),
               map d | d in idxs :: ConvertMatrix(poses[d].deviceToAbsoluteTracking))
  }

  /** An invalid HMD pose only draws a warning: the record depends on the
      HMD slot through its matrix alone, not through either of its flags. */
  lemma HmdFlagsDoNotAffectRecord(t: real, poses: seq<TrackedDevicePose>, deviceClass: nat -> DeviceClass, p0: TrackedDevicePose)
    requires |poses| > 0
    requires p0.deviceToAbsoluteTracking == poses[HmdIndex].deviceToAbsoluteTracking
    ensures PoseOf(t, poses[HmdIndex := p0], deviceClass) == PoseOf(t, poses, deviceClass)
  {
  }

  /** Pose.__init__: stores t, converts the HMD slot, then fills the
      controller dictionary one selected index at a time. The returned flag
      is the "invalid pose" warning it prints. */
  method BuildPose(t: real, poses: seq<TrackedDevicePose>, deviceClass: nat -> DeviceClass)
    returns (rec: PoseRecord, invalidHmdWarning: bool)
    requires |poses| > 0
    ensures rec == PoseOf(t, poses, deviceClass)
    ensures invalidHmdWarning <==> !poses[HmdIndex].poseIsValid
  {
    invalidHmdWarning := !poses[HmdIndex].poseIsValid;
    var hmd := ConvertMatrix(poses[HmdIndex].deviceToAbsoluteTracking);
    var controllerPoses: map<nat, Transform> := map[];
    var idxs;
    ghost var queried;
    idxs, queried := GetControllerIdxs(poses, deviceClass);
    var k := 0;
    while k < |idxs|
      invariant k <= |idxs|
      invariant controllerPoses == map d | d in idxs[..k] :: ConvertMatrix(poses[d].deviceToAbsoluteTracking)
    {
      var d := idxs[k];
      controllerPoses := controllerPoses[d := ConvertMatrix(poses[d].deviceToAbsoluteTracking)];
      assert idxs[..k + 1] == idxs[..k] + [d];
      k := k + 1;
    }
    assert idxs[..k] == idxs;
    rec := PoseRecord(t, hmd, controllerPoses);
  }
}
