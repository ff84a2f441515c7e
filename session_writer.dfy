/** save_poses_json's in-memory part: each record is turned into its
    attribute dictionary (pose.__dict__, with the numpy arrays already
    turned into nested lists by .tolist()), in record order. The dump to
    text and the file write belong to the JSON library and the OS. */
module SessionWriter {
  import opened VrUtilities
  import opened PoseRecords

  datatype Option<+T> = None | Some(value: T)

  /** The Python values json.dumps receives: floats, lists, and dicts keyed
      either by attribute name or by device index. */
  datatype Value =
    | Num(x: real)
    | List(items: seq<Value>)
    | Fields(byName: map<string, Value>)
    | Indexed(byIndex: map<nat, Value>)

  function Vector3Value(v: seq<real>): Value
    requires |v| == 3
  {
    List([Num(v[0]), Num(v[1]), Num(v[2])])
  }

  /** [translation.tolist(), rotation.tolist()]. */
  function TransformValue(tr: Transform): Value
  {
    List([Vector3Value(tr.translation),
          List([Vector3Value(tr.rotation[0]), Vector3Value(tr.rotation[1]), Vector3Value(tr.rotation[2])])])
  }

  /** pose.__dict__: the three attributes the constructor assigns. */
  function PoseDict(rec: PoseRecord): (v: Value)
    ensures v.Fields? && v.byName.Keys == {"t", "hmd_pose", "controller_poses"}
    ensures v.byName["t"] == Num(rec.t)
    ensures v.byName["controller_poses"].Indexed?
    ensures v.byName["controller_poses"].byIndex.Keys == rec.controllerPoses.Keys
  {
    Fields(map[
      "t" := Num(rec.t),
      "hmd_pose" := TransformValue(rec.hmdPose),
      "controller_poses" := ControllersValue(rec.controllerPoses)])
  }

  /** The controller_poses dictionary, keyed by device index. */
  function ControllersValue(cp: map<nat, Transform>): Value
  {
    Indexed(map d | d in cp :: TransformValue(cp[d]))
  }

  function DecodeVector3(v: Value): Option<Vector3>
  {
    if v.List? && |v.items| == 3 && v.items[0].Num? && v.items[1].Num? && v.items[2].Num?
    then Some([v.items[0].x, v.items[1].x, v.items[2].x])
    else None
  }

  /** Reads a [translation, rotation] pair back. */
  function DecodeTransform(v: Value): Option<Transform>
  {
    if v.List? && |v.items| == 2 && v.items[1].List? && |v.items[1].items| == 3 then
      var t := DecodeVector3(v.items[0]);
      var r0 := DecodeVector3(v.items[1].items[0]);
      var r1 := DecodeVector3(v.items[1].items[1]);
      var r2 := DecodeVector3(v.items[1].items[2]);
      if t.Some? && r0.Some? && r1.Some? && r2.Some?
      then Some(Transform(t.value, [r0.value, r1.value, r2.value]))
      else None
    else None
  }

  /** Reads one dumped record back. */
  function DecodePose(v: Value): Option<PoseRecord>
  {
    if v.Fields? && "t" in v.byName && "hmd_pose" in v.byName && "controller_poses" in v.byName then
      var t := v.byName["t"];
      var hmd := DecodeTransform(v.byName["hmd_pose"]);
      var cp := DecodeControllers(v.byName["controller_poses"]);
      if t.Num? && hmd.Some? && cp.Some?
      then Some(PoseRecord(t.x, hmd.value, cp.value))
      else None
    else None
  }

  function DecodeControllers(v: Value): Option<map<nat, Transform>>
  {
    if v.Indexed? && forall d | d in v.byIndex :: DecodeTransform(v.byIndex[d]).Some?
    then Some(map d | d in v.byIndex :: DecodeTransform(v.byIndex[d]).value)
    else None
  }

  function DecodeSession(vs: seq<Value>): Option<seq<PoseRecord>>
  {
    if |vs| == 0 then Some([])
    else
      var head := DecodePose(vs[0]);
      var tail := DecodeSession(vs[1..]);
      if head.Some? && tail.Some? then Some([head.value] + tail.value) else None
  }

  lemma Vector3RoundTrip(v: Vector3)
    ensures DecodeVector3(Vector3Value(v)) == Some(v)
  {
    assert [v[0], v[1], v[2]] == v;
  }

  /** A dumped [translation, rotation] pair reads back as the same transform. */
  lemma TransformRoundTrip(tr: Transform)
    ensures DecodeTransform(TransformValue(tr)) == Some(tr)
  {
    Vector3RoundTrip(tr.translation);
    Vector3RoundTrip(tr.rotation[0]);
    Vector3RoundTrip(tr.rotation[1]);
    Vector3RoundTrip(tr.rotation[2]);
    assert [tr.rotation[0], tr.rotation[1], tr.rotation[2]] == tr.rotation;
  }

  lemma ControllersRoundTrip(cp: map<nat, Transform>)
    ensures DecodeControllers(ControllersValue(cp)) == Some(cp)
  {
    var enc := ControllersValue(cp).byIndex;
    forall d | d in enc ensures DecodeTransform(enc[d]) == Some(cp[d]) {
      assert enc[d] == TransformValue(cp[d]);
      TransformRoundTrip(cp[d]);
    }
    var back := DecodeControllers(ControllersValue(cp));
    assert back.Some?;
    assert back.value.Keys == cp.Keys;
    assert back.value == cp;
  }

  /** A dumped record reads back as the same record: same t, same HMD
      transform, same controller indices and transforms. */
  lemma PoseRoundTrip(rec: PoseRecord)
    ensures DecodePose(PoseDict(rec)) == Some(rec)
  {
    var v := PoseDict(rec);
    assert v.byName["hmd_pose"] == TransformValue(rec.hmdPose);
    assert v.byName["controller_poses"] == ControllersValue(rec.controllerPoses);
    TransformRoundTrip(rec.hmdPose);
    ControllersRoundTrip(rec.controllerPoses);
  }

  /** Reading back the whole reformatted list gives the records, same count,
      same order. */
  lemma {:induction false} SessionRoundTrip(poses: seq<PoseRecord>, reformat: seq<Value>)
    requires |reformat| == |poses|
    requires forall k :: 0 <= k < |poses| ==> reformat[k] == PoseDict(poses[k])
    ensures DecodeSession(reformat) == Some(poses)
  {
    if |poses| > 0 {
      PoseRoundTrip(poses[0]);
      SessionRoundTrip(poses[1..], reformat[1..]);
      assert poses == [poses[0]] + poses[1..];
    }
  }

  /** The loop of save_poses_json that builds `reformat`. */
  method Reformat(poses: seq<PoseRecord>) returns (reformat: seq<Value>)
    ensures |reformat| == |poses|
    ensures forall k :: 0 <= k < |poses| ==> reformat[k] == PoseDict(poses[k])
  {
    reformat := [];
    for i := 0 to |poses|
      invariant |reformat| == i
      invariant forall k :: 0 <= k < i ==> reformat[k] == PoseDict(poses[k])
    {
      reformat := reformat + [PoseDict(poses[i])];
    }
  }
}
