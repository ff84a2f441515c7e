/** The start/stop gating of main.py: the keyboard thread's flag rule
    (poll_keyboard) and the capture loop's per-tick decision. The two
    threads share only the two flags, so an interleaving of key presses and
    loop ticks is modelled as one sequence of events. */
module Capture {
  import opened VrUtilities
  import opened PoseRecords

  /** Python's str.isspace for one character. */
  predicate IsSpace(c: char)
  {
    ('\t' <= c <= '\r') || ('\U{1C}' <= c <= ' ') || c == '\U{85}' || c == '\U{A0}' ||
    c == '\U{1680}' || ('\U{2000}' <= c <= '\U{200A}') || c == '\U{2028}' || c == '\U{2029}' ||
    c == '\U{202F}' || c == '\U{205F}' || c == '\U{3000}'
  }

  /** str.rstrip() with no argument: the longest prefix not ending in
      whitespace, after which only whitespace follows. */
  function RStrip(s: string): (r: string)
    ensures |r| <= |s| && r == s[..|r|]
    ensures |r| == 0 || !IsSpace(r[|r| - 1])
    ensures forall k :: |r| <= k < |s| ==> IsSpace(s[k])
    decreases |s|
  {
    if |s| > 0 && IsSpace(s[|s| - 1]) then RStrip(s[..|s| - 1]) else s
  }

  /** The stop test of poll_keyboard: input.rstrip() == 'q'. */
  predicate IsQuitKey(input: string)
  {
    RStrip(input) == "q"
  }

  /** For what sys.stdin.read(1) returns (one character, or none at end of
      input) the stop test is exactly "the character is q"; ENTER is never
      a stop key. */
  lemma QuitKeyOfOneRead(input: string)
    requires |input| <= 1
    ensures IsQuitKey(input) <==> input == "q"
    ensures input == "\n" ==> !IsQuitKey(input)
  {
  }

  /** The shared state: the two events' flags, the session buffer, and
      whether the loop has left its `while True`. */
  datatype Gate = Gate(startSet: bool, stopSet: bool, records: seq<PoseRecord>, exited: bool)

  const Initial := Gate(false, false, [], false)

  /** One character handled by poll_keyboard. The two tests are independent
      ifs; each sets its flag only if it is not yet set, and nothing clears
      a flag. Stop may be set before start. */
  function PressKey(g: Gate, input: string): (g': Gate)
    ensures g'.startSet <==> g.startSet || input == "\n"
    ensures g'.stopSet <==> g.stopSet || IsQuitKey(input)
    ensures g'.records == g.records && g'.exited == g.exited
  {
    var g1 := if input == "\n" && !g.startSet then g.(startSet := true) else g;
    if IsQuitKey(input) && !g1.stopSet then g1.(stopSet := true) else g1
  }

  /** One pass of the capture loop. Until start is set it only sleeps, even
      when stop is already set; once started, stop is checked before the
      poses are fetched, and a pass that sees it leaves the loop without a
      record; any other pass appends exactly one record. */
  function TickStep(g: Gate, t: real, poses: seq<TrackedDevicePose>, deviceClass: nat -> DeviceClass): (g': Gate)
    requires !g.exited
    requires g.startSet && !g.stopSet ==> |poses| > 0
    ensures g'.startSet == g.startSet && g'.stopSet == g.stopSet
    ensures !g.startSet ==> g' == g
    ensures g.startSet && g.stopSet ==> g'.exited && g'.records == g.records
    ensures g.startSet && !g.stopSet ==> !g'.exited && g'.records == g.records + [PoseOf(t, poses, deviceClass)]
  {
    if !g.startSet then g
    else if g.stopSet then g.(exited := true)
    else g.(records := g.records + [PoseOf(t, poses, deviceClass)])
  }

  /** A key press on the keyboard thread, or one pass of the capture loop
      with the time read at main.py's line 73 (seconds from the clock read
      at line 59, after runtime init; not measured from the start key), the
      poses waitGetPoses delivered and the runtime's device classes at that
      moment. */
  datatype Event =
    | Press(input: string)
    | Poll(t: real, poses: seq<TrackedDevicePose>, deviceClass: nat -> DeviceClass)

  /** waitGetPoses always fills the HMD slot. */
  predicate PollsHavePoses(events: seq<Event>)
  {
    forall k :: 0 <= k < |events| && events[k].Poll? ==> |events[k].poses| > 0
  }

  /** One event applied to a loop that has not exited yet. */
  function Step(g: Gate, e: Event): Gate
    requires !g.exited
    requires e.Poll? ==> |e.poses| > 0
  {
    match e
    case Press(input) => PressKey(g, input)
    case Poll(t, poses, deviceClass) => TickStep(g, t, poses, deviceClass)
  }

  /** The state after an interleaving of events; once the loop has exited,
      nothing further happens to the session, and the loop exits during the
      run only on a pass that found both flags set. */
  function Run(g: Gate, events: seq<Event>): (r: Gate)
    requires PollsHavePoses(events)
    ensures g.exited ==> r == g
    ensures r.exited && !g.exited ==> r.startSet && r.stopSet
    decreases |events|
  {
    if |events| == 0 || g.exited then g
    else Run(Step(g, events[0]), events[1..])
  }

  function PollCount(events: seq<Event>): nat
  {
    if |events| == 0 then 0 else (if events[0].Poll? then 1 else 0) + PollCount(events[1..])
  }

  /** Flags are never cleared and the session buffer is append-only. */
  lemma {:induction false} RunIsMonotonic(g: Gate, events: seq<Event>)
    requires PollsHavePoses(events)
    ensures g.startSet ==> Run(g, events).startSet
    ensures g.stopSet ==> Run(g, events).stopSet
    ensures g.records <= Run(g, events).records
    decreases |events|
  {
    if |events| > 0 && !g.exited {
      RunIsMonotonic(Step(g, events[0]), events[1..]);
    }
  }

  /** Each pass adds at most one record, and key presses add none. */
  lemma {:induction false} AtMostOneRecordPerPoll(g: Gate, events: seq<Event>)
    requires PollsHavePoses(events)
    ensures |Run(g, events).records| <= |g.records| + PollCount(events)
    decreases |events|
  {
    if |events| > 0 && !g.exited {
      AtMostOneRecordPerPoll(Step(g, events[0]), events[1..]);
    }
  }

  /** Once stop is set, no further record is ever appended: before start
      the loop only sleeps, and the first pass after start exits. */
  lemma {:induction false} StopSetMeansNoMoreRecords(g: Gate, events: seq<Event>)
    requires PollsHavePoses(events)
    requires g.stopSet
    ensures Run(g, events).records == g.records
    decreases |events|
  {
    if |events| > 0 && !g.exited {
      StopSetMeansNoMoreRecords(Step(g, events[0]), events[1..]);
    }
  }

  /** A q pressed while start is still unset, with no ENTER before it,
      ends the session with no records at all, whatever follows. */
  lemma {:induction false} StopBeforeStartRecordsNothing(g: Gate, events: seq<Event>, k: nat)
    requires PollsHavePoses(events)
    requires Consistent(g) && !g.startSet
    requires k < |events| && events[k].Press? && IsQuitKey(events[k].input)
    requires forall j :: 0 <= j < k && events[j].Press? ==> events[j].input != "\n"
    ensures Run(g, events).records == []
    decreases k
  {
    var g1 := Step(g, events[0]);
    if k == 0 {
      StopSetMeansNoMoreRecords(g1, events[1..]);
    } else {
      assert Consistent(g1) && !g1.startSet;
      forall j | 0 <= j < k - 1 && events[1..][j].Press? ensures events[1..][j].input != "\n" {
        assert events[1..][j] == events[j + 1];
      }
      StopBeforeStartRecordsNothing(g1, events[1..], k - 1);
    }
  }

  /** What every reachable state satisfies: the loop exits only after both
      flags were seen, and a record exists only after start. */
  predicate Consistent(g: Gate)
  {
    (g.exited ==> g.startSet && g.stopSet) && (|g.records| > 0 ==> g.startSet)
  }

  lemma {:induction false} RunKeepsConsistent(g: Gate, events: seq<Event>)
    requires PollsHavePoses(events)
    requires Consistent(g)
    ensures Consistent(Run(g, events))
    decreases |events|
  {
    if |events| > 0 && !g.exited {
      RunKeepsConsistent(Step(g, events[0]), events[1..]);
    }
  }

  datatype TickOutcome = Waiting | Exit | Appended(invalidHmdWarning: bool)

  /** The state the keyboard thread and the capture loop share. */
  class CaptureSession {
    var startSet: bool
    var stopSet: bool
    var records: seq<PoseRecord>
    var exited: bool

    function State(): Gate
      reads this
    {
      Gate(startSet, stopSet, records, exited)
    }

    constructor ()
      ensures State() == Initial
    {
      startSet, stopSet, records, exited := false, false, [], false;
    }

    /** poll_keyboard's body for one read; the two results say whether the
        "started" and the "stopped" messages are printed. */
    method Key(input: string) returns (startedNow: bool, stoppedNow: bool)
      modifies this
      ensures State() == PressKey(old(State()), input)
      ensures startedNow <==> input == "\n" && !old(startSet)
      ensures stoppedNow <==> IsQuitKey(input) && !old(stopSet)
    {
      startedNow, stoppedNow := false, false;
      if input == "\n" && !startSet {
        startSet := true;
        startedNow := true;
      }
      if IsQuitKey(input) && !stopSet {
        stopSet := true;
        stoppedNow := true;
      }
    }

    /** One pass of the `while True` loop of main.py. */
    method Tick(t: real, poses: seq<TrackedDevicePose>, deviceClass: nat -> DeviceClass) returns (outcome: TickOutcome)
      requires !exited
      requires startSet && !stopSet ==> |poses| > 0
      modifies this
      ensures State() == TickStep(old(State()), t, poses, deviceClass)
      ensures outcome == if !old(startSet) then Waiting
                         else if old(stopSet) then Exit
                         else Appended(!poses[HmdIndex].poseIsValid)
    {
      if !startSet {
        return Waiting;
      }
      if stopSet {
        exited := true;
        return Exit;
      }
      var rec, warned := BuildPose(t, poses, deviceClass);
      records := records + [rec];
      outcome := Appended(warned);
    }

    /** Feeds an interleaving of key presses and loop passes to the session
        until the loop exits or the events run out. */
    method Replay(events: seq<Event>)
      requires PollsHavePoses(events)
      modifies this
      ensures State() == Run(old(State()), events)
    {
      var i := 0;
      while i < |events| && !exited
        invariant i <= |events|
        invariant Run(old(State()), events) == Run(State(), events[i..])
      {
        assert events[i..][1..] == events[i + 1..];
        match events[i] {
          case Press(input) =>
            var _, _ := Key(input);
          case Poll(t, poses, deviceClass) =>
            var _ := Tick(t, poses, deviceClass);
        }
        i := i + 1;
      }
    }
  }
}
