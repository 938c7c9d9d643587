/**
 * FaceDetection.jsx (and its inline copy in HannaConsole.jsx): the presence
 * hysteresis run on every detector tick. A visitor counts as arrived after
 * four consecutive frames with a face, and as gone once a frame without a face
 * comes more than five seconds after the face was last seen. Time is the
 * tick's `Date.now()`, passed in as `now`.
 */
module FaceDetection {
  import opened Common

  /** FRAMES_NEEDED_FOR_ACTIVATION. */
  const FramesNeeded: nat := 4
  /** SECONDS_TO_CONSIDER_LOST, compared in milliseconds. */
  const SecondsToConsiderLost: nat := 5
  const LostAfterMs: int := SecondsToConsiderLost * 1000

  /** The three refs: consecutive detections, face present, last time a face was seen. */
  datatype Presence = Presence(consecutive: nat, present: bool, lastSeen: int)

  /** The refs' initial values. */
  const Initial: Presence := Presence(0, false, 0)

  /** One detector tick: a face was found (`detections.length > 0`) or not. */
  datatype Frame = FaceSeen(now: int) | NoFace(now: int)

  /** The callbacks the hysteresis fires. */
  datatype Signal = Detected | Lost

  datatype Outcome = Outcome(next: Presence, signal: Option<Signal>)

  /** `handleFacePresent` / `handleFaceAbsent` on the refs. */
  function Step(p: Presence, f: Frame): Outcome
  {
    match f
    case FaceSeen(now) =>
      var count := p.consecutive + 1;
      if !p.present && count >= FramesNeeded
      then Outcome(Presence(count, true, now), Some(Detected))
      else Outcome(Presence(count, p.present, now), None)
    case NoFace(now) =>
      if p.present && now - p.lastSeen > LostAfterMs
      then Outcome(Presence(0, false, p.lastSeen), Some(Lost))
      else Outcome(Presence(0, p.present, p.lastSeen), None)
  }

  datatype Trace = Trace(final: Presence, signals: seq<Signal>)

  /** The ticks in order, with the callbacks they fired. */
  function Run(p: Presence, frames: seq<Frame>): Trace
    decreases |frames|
  {
    if frames == [] then Trace(p, [])
    else
      var o := Step(p, frames[0]);
      var rest := Run(o.next, frames[1..]);
      Trace(rest.final, (if o.signal.Some? then [o.signal.value] else []) + rest.signals)
  }

  function Other(s: Signal): Signal
  {
    if s == Detected then Lost else Detected
  }

  /** The signals alternate, starting with `first`. */
  ghost predicate AlternatesFrom(signals: seq<Signal>, first: Signal)
    decreases |signals|
  {
    signals == [] || (signals[0] == first && AlternatesFrom(signals[1..], Other(first)))
  }

  /** The callback the presence flag allows next. */
  function Expected(p: Presence): Signal
  {
    if p.present then Lost else Detected
  }

  /** "Detected" fires exactly when no face was present and this frame brings the
      consecutive count to four or more; it then sets the flag. A face frame never fires "lost". */
  lemma DetectedAtThreshold(p: Presence, now: int)
    ensures var o := Step(p, FaceSeen(now));
      && (o.signal == Some(Detected) <==> !p.present && p.consecutive + 1 >= FramesNeeded)
      && o.signal != Some(Lost)
      && o.next.present == (p.present || o.signal == Some(Detected))
      && o.next.consecutive == p.consecutive + 1 && o.next.lastSeen == now
  {
  }

  /** While the flag is set, face frames never fire "detected" again. */
  lemma PresentNeverRefires(p: Presence, frames: seq<Frame>)
    requires p.present
    requires forall i :: 0 <= i < |frames| ==> frames[i].FaceSeen?
    ensures Run(p, frames).signals == []
    ensures Run(p, frames).final.present
    decreases |frames|
  {
    if frames != [] {
      PresentNeverRefires(Step(p, frames[0]).next, frames[1..]);
    }
  }

  /** Every frame without a face resets the counter; "lost" fires exactly when a face was
      present and was last seen more than 5000 ms ago, and then clears the flag. */
  lemma LostAfterTimeout(p: Presence, now: int)
    ensures var o := Step(p, NoFace(now));
      && o.next.consecutive == 0 && o.next.lastSeen == p.lastSeen
      && (o.signal == Some(Lost) <==> p.present && now - p.lastSeen > 5000)
      && o.signal != Some(Detected)
      && o.next.present == (p.present && o.signal != Some(Lost))
  {
  }

  /** Within five seconds of the last face, and in particular at the same timestamp as
      the latest face frame, a frame without a face cannot fire "lost". */
  lemma NoLostWithinWindow(p: Presence, seen: int, now: int)
    requires now - seen <= LostAfterMs
    ensures Step(Step(p, FaceSeen(seen)).next, NoFace(now)).signal == None
  {
  }

  /** Over any frame sequence the callbacks alternate, starting with the one the flag
      allows, and the final flag records which came last. */
  lemma {:induction false} RunAlternates(p: Presence, frames: seq<Frame>)
    ensures AlternatesFrom(Run(p, frames).signals, Expected(p))
    ensures Run(p, frames).final.present == (if |Run(p, frames).signals| % 2 == 0 then p.present else !p.present)
    decreases |frames|
  {
    if frames != [] {
      var o := Step(p, frames[0]);
      RunAlternates(o.next, frames[1..]);
      var rest := Run(o.next, frames[1..]);
      if o.signal.Some? {
        assert o.signal.value == Expected(p);
        assert Expected(o.next) == Other(Expected(p));
        var all := [o.signal.value] + rest.signals;
        assert all[1..] == rest.signals;
      } else {
        assert o.next.present == p.present;
        assert Run(p, frames).signals == rest.signals;
      }
    }
  }

  /** From the initial refs, "detected" and "lost" strictly alternate, beginning with "detected". */
  lemma DetectedThenLostAlternate(frames: seq<Frame>)
    ensures AlternatesFrom(Run(Initial, frames).signals, Detected)
  {
    RunAlternates(Initial, frames);
  }

  /** The number of face frames at the end of the sequence, uninterrupted. */
  function TrailingSeen(frames: seq<Frame>): (n: nat)
    ensures n <= |frames|
    ensures forall i :: |frames| - n <= i < |frames| ==> frames[i].FaceSeen?
    decreases |frames|
  {
    if frames == [] || frames[|frames| - 1].NoFace? then 0
    else TrailingSeen(frames[..|frames| - 1]) + 1
  }

  /** Started from a zero counter, the counter is the length of the current run of face frames. */
  lemma {:induction false} CounterCountsTrailingFaces(p: Presence, frames: seq<Frame>)
    requires p.consecutive == 0
    ensures Run(p, frames).final.consecutive == TrailingSeen(frames)
    decreases |frames|
  {
    if frames != [] {
      var init := frames[..|frames| - 1];
      RunSplitLast(p, init, frames[|frames| - 1]);
      assert init + [frames[|frames| - 1]] == frames;
      CounterCountsTrailingFaces(p, init);
    }
  }

  lemma {:induction false} RunSplitLast(p: Presence, frames: seq<Frame>, f: Frame)
    ensures Run(p, frames + [f]).final == Step(Run(p, frames).final, f).next
    decreases |frames|
  {
    if frames == [] {
      assert [f][1..] == [];
    } else {
      assert (frames + [f])[1..] == frames[1..] + [f];
      RunSplitLast(Step(p, frames[0]).next, frames[1..], f);
    }
  }

  /** Detection needs four uninterrupted face frames: when a tick fires "detected" after
      `frames` (run from the initial refs), it is a face frame and so are the three before it. */
  lemma DetectionNeedsFourInARow(frames: seq<Frame>, f: Frame)
    requires Step(Run(Initial, frames).final, f).signal == Some(Detected)
    ensures f.FaceSeen?
    ensures |frames| >= FramesNeeded - 1
    ensures forall i :: |frames| - (FramesNeeded - 1) <= i < |frames| ==> frames[i].FaceSeen?
  {
    CounterCountsTrailingFaces(Initial, frames);
  }

  /** The detector refs of the component, updated in place on every tick. */
  class FaceTracker {
    var consecutive: nat   // consecutiveDetectionsRef
    var present: bool      // facePresentRef
    var lastSeen: int      // lastSeenRef

    function State(): Presence
      reads this
    {
      Presence(consecutive, present, lastSeen)
    }

    constructor ()
      ensures State() == Initial
    {
      consecutive := 0;
      present := false;
      lastSeen := 0;
    }

    /** `handleFacePresent`: stamp the time, count the frame, fire "detected" at the threshold. */
    method HandleFacePresent(now: int) returns (detected: bool)
      modifies this
      ensures lastSeen == now && consecutive == old(consecutive) + 1
      ensures detected <==> !old(present) && consecutive >= FramesNeeded
      ensures present == (old(present) || detected)
      ensures Step(old(State()), FaceSeen(now)) == Outcome(State(), if detected then Some(Detected) else None)
    {
      lastSeen := now;
      consecutive := consecutive + 1;
      detected := false;
      if !present && consecutive >= FramesNeeded {
        present := true;
        detected := true;
      }
    }

    /** `handleFaceAbsent`: reset the count, fire "lost" once the face has been gone too long. */
    method HandleFaceAbsent(now: int) returns (lost: bool)
      modifies this
      ensures consecutive == 0 && lastSeen == old(lastSeen)
      ensures lost <==> old(present) && now - lastSeen > LostAfterMs
      ensures present == (old(present) && !lost)
      ensures Step(old(State()), NoFace(now)) == Outcome(State(), if lost then Some(Lost) else None)
    {
      consecutive := 0;
      lost := false;
      if present && now - lastSeen > LostAfterMs {
        present := false;
        lost := true;
      }
    }
  }
}
