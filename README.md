# OpenVR pose grabber — verified model of the capture core

The program polls a VR runtime for tracked-device poses and keeps a
timestamped record per loop pass: the head-mounted display's transform and
one transform per connected, validly tracked controller. A keyboard thread
starts and stops the capture; at the end the records are dumped as JSON.
This project models the part of it that is logic rather than runtime calls:

- `vr_utilities.dfy` (module `VrUtilities`): `convert_matrix`, the reshape
  of the runtime's 3x4 device-to-tracking matrix into a translation
  (column 3) and a rotation (the leading 3x3 block), with its inverse; and
  `get_controller_idxs`, the scan of slots 1..n-1 that keeps the connected,
  validly tracked slots the runtime classes as controllers. The runtime's
  device-class query is a function parameter (an oracle).
- `pose_record.dfy` (module `PoseRecords`): the `Pose` constructor, as a
  value (`PoseRecord`) specified by `PoseOf` and built imperatively by
  `BuildPose`, which fills the controller dictionary in a loop.
- `session_writer.dfy` (module `SessionWriter`): the reformat loop of
  `save_poses_json` (`pose.__dict__` per record, in order) and a decoder
  that reads the dumped values back, with round-trip lemmas.
- `capture.dfy` (module `Capture`): `poll_keyboard`'s flag rule
  (`PressKey`, with Python's `str.rstrip()` as `RStrip`) and the main
  loop's per-pass decision (`TickStep`); `Run` plays an interleaving of key
  presses and loop passes; class `CaptureSession` holds the two flags and
  the session buffer and has `Key`, `Tick` and `Replay` methods proved
  against those functions.

The time stamp `t` is an opaque `real` handed to each loop pass. It is read
at main.py:73 against `start_t`, and `t` counts seconds from the clock read
at main.py:59, after runtime init; it is not measured from the start key.
The stop flag can be set before start, and a session stopped that way has
no records (`StopBeforeStartRecordsNothing`).

## Model

| member | source | states |
|---|---|---|
| `VrUtilities.ConvertMatrix` | vr_utilities.py:37-47 | translation[i] is mat[i][3] and rotation[i][j] is mat[i][j] for i, j in 0..2; translation has 3 entries, rotation is 3x3 (by type), translation is first in the pair |
| `VrUtilities.AssembleAfterConvert` | vr_utilities.py:43-47 | putting the translation back as column 3 rebuilds the original 3x4 matrix: the reshape drops no entry |
| `VrUtilities.ConvertAfterAssemble` | vr_utilities.py:43-47 | reshaping a reassembled matrix gives back the same (translation, rotation): the reshape adds nothing |
| `VrUtilities.ControllersFrom` | vr_utilities.py:24-33 | the scan from slot i yields only indices in [i, len(poses)), strictly ascending, so without duplicates |
| `VrUtilities.ControllersFromMembers` | vr_utilities.py:24-33 | d is in the scan from i exactly when i <= d < len(poses) and slot d is connected, valid and classed as a controller |
| `VrUtilities.ControllerIdxsMembers` | vr_utilities.py:16-34 | soundness and completeness of get_controller_idxs: d is returned iff 1 <= d < len(poses) and slot d passes all three tests; index 0 is never returned |
| `VrUtilities.ControllersFromFrame` | vr_utilities.py:24-33 | the scan depends only on the connected and valid flags of the slots, and on the device class only of slots with both flags set |
| `VrUtilities.ClassQueriedOnlyForLiveDevices` | vr_utilities.py:26-31 | two device-class oracles that agree on the connected and valid slots give the same selection: the class of other slots is never used |
| `VrUtilities.HmdSlotDoesNotAffectSelection` | vr_utilities.py:24 | replacing the pose in slot 0 by any other leaves the selection unchanged |
| `VrUtilities.GetControllerIdxs` | vr_utilities.py:16-34 | the loop returns the scan's result: sound and complete, strictly ascending, empty when there are at most one pose; the class is queried for exactly the connected and valid slots >= 1 |
| `PoseRecords.PoseOf` | main.py:35-45 | t is stored unchanged; hmd_pose is convert_matrix of slot 0 whatever its flags; the controller keys are exactly the selected indices and each value is convert_matrix of that slot |
| `PoseRecords.HmdFlagsDoNotAffectRecord` | main.py:38-41 | an invalid (or disconnected) HMD slot yields the same complete record as a valid one with the same matrix; only the warning differs |
| `PoseRecords.BuildPose` | main.py:36-45 | the constructor's dictionary-filling loop builds exactly PoseOf's record, and the warning is raised iff the HMD pose is invalid |
| `SessionWriter.PoseDict` | main.py:24-27 | a record's attribute dictionary has exactly the fields t, hmd_pose and controller_poses, t is the record's time and controller_poses has the record's controller indices as keys |
| `SessionWriter.TransformRoundTrip` | main.py:40-41 | the [translation, rotation] nested lists read back as the same transform |
| `SessionWriter.ControllersRoundTrip` | main.py:42-45 | the controller_poses dictionary reads back with the same device indices and the same transform per index |
| `SessionWriter.PoseRoundTrip` | main.py:24-27 | a record's attribute dictionary decodes (by the model's decoder) as the same record: same t, same HMD transform, same controller indices and transforms |
| `SessionWriter.SessionRoundTrip` | main.py:24-27 | the reformatted list decodes (by the model's decoder) as the record list: same count, same order, same records |
| `SessionWriter.Reformat` | main.py:25-27 | the reformat loop has one entry per record, in record order, each being that record's attribute dictionary |
| `Capture.RStrip` | main.py:19 | str.rstrip(): the result is a prefix of the input, does not end in whitespace, and only whitespace was removed |
| `Capture.QuitKeyOfOneRead` | main.py:14-19 | for a one-character (or empty) read, the stop test holds exactly for "q", never for ENTER |
| `Capture.PressKey` | main.py:15-21 | after a key, start is set iff it was set or the key is ENTER, stop is set iff it was set or the key strips to "q"; no flag is cleared, records and loop state are untouched |
| `Capture.TickStep` | main.py:60-75 | before start a pass changes nothing, even with stop set; after start a pass that sees stop exits with no record; any other pass appends exactly PoseOf of its poses and keeps earlier records |
| `Capture.Run` | main.py:54-78 | the state after an interleaving of key presses and loop passes; nothing changes after the loop exits, and a loop that exits during the run has both flags set |
| `Capture.RunIsMonotonic` | main.py:60-75 | over any interleaving of keys and passes, set flags stay set and earlier records are a prefix of later ones |
| `Capture.AtMostOneRecordPerPoll` | main.py:70-75 | the buffer grows by at most one record per loop pass; key presses add none |
| `Capture.StopSetMeansNoMoreRecords` | main.py:62-68 | once stop is set, no further record is appended whatever follows |
| `Capture.StopBeforeStartRecordsNothing` | main.py:60-68 | from any reachable state before start, a q press at any position with no ENTER before it ends the session with zero records, whatever events follow |
| `Capture.RunKeepsConsistent` | main.py:60-75 | in every reachable state the loop has exited only with both flags set, and records exist only after start |
| `Capture.CaptureSession.constructor` | main.py:7-57 | a new session has both flags unset (the two events of lines 7-8), an empty buffer (`poses = []` at line 57) and the loop running |
| `Capture.CaptureSession.Key` | main.py:14-21 | handling one read updates the flags as PressKey says; the started and stopped messages appear only when the flag was still unset |
| `Capture.CaptureSession.Tick` | main.py:60-78 | one loop pass updates the session as TickStep says and reports waiting, exiting, or appending with the invalid-HMD warning |
| `Capture.CaptureSession.Replay` | main.py:54-78 | feeding events until the loop exits leaves the session in Run's state |

## Left out

- OpenVR calls (`openvr.init`, `waitGetPoses`, `getTrackedDeviceClass`, `shutdown`): foreign runtime. The pose array is an input and the device class an oracle function `nat -> DeviceClass`.
- `PoseRecords.PoseOf`, `PoseRecords.BuildPose`: require a non-empty pose array, because the source indexes the HMD slot unconditionally (an empty array would raise IndexError); the runtime always delivers its fixed-size array.
- Velocity, angular velocity and tracking-result fields of the runtime's pose struct: never read by the program.
- Threads, `threading.Event` and `sys.stdin.read`: the two threads are modelled as one interleaved sequence of events; atomicity of the flags is not modelled.
- `time.time()`, `time.sleep` and `round(..., 3)`: wall clock and float rounding; `t` is a supplied value, so timestamp order is not a property of the model.
- Floating point: entries are `real`; the reshape only moves them.
- `json.dumps`, `json.loads`, the file write and prints: library I/O. The integer-to-string key conversion belongs to the JSON library; the decoder here reads back the Python values handed to `json.dumps`, not the text. Dictionary order is not modelled (Dafny maps are unordered). The source's dicts keep insertion order (attributes t, hmd_pose, controller_poses; controller indices ascending), and json.dumps writes keys in that order. The printed messages appear only as the flags returned by `Key`, `Tick` and `BuildPose`.
- numpy arrays and `.tolist()`: vectors and matrices are `seq<real>` and `seq<seq<real>>`.
- The diagnostic `__main__` loop of vr_utilities.py (lines 49-69): polling, sleeping and a float comparison, no logic of the core.
- What happens to key presses after the loop has exited: the keyboard thread keeps running, but nothing reads the flags any more, so `Run` stops there.
