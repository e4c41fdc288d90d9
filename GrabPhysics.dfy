/**
 * The grab life cycle of a grabbable mesh in the XR scene: a pointer
 * press starts a grab, each move records one position and one timestamp
 * in buffers that keep only the most recent five samples, and a pointer
 * release with at least two samples throws the object with the velocity
 * those samples give. Pressing X and Y on the left controller while
 * holding an anchorable object anchors it instead, and a hider reports
 * the anchored position once.
 *
 * Positions are values the model only stores; the velocity computation,
 * the ray adjustment and the physics-engine calls are left out. What a
 * release would hand to the physics is recorded as the grab state at
 * that moment.
 */
module GrabPhysics {
  import opened Results

  /** The `maxEntries` bound of the sample window. */
  const MaxEntries: nat := 5

  /** A point in scene coordinates, as reported by a pointer event. */
  datatype Position = Position(x: real, y: real, z: real)

  /** A grab in progress: the pointer holding it and its recent samples. */
  datatype DownState = DownState(pointerId: int, positions: seq<Position>, timestamps: seq<int>)

  datatype Handness = Left | Right

  /** The answer of `checkIfObjectHeldByPointer`. */
  datatype ObjectHeldCheck = ObjectHeldCheck(objectHeldByPointer: bool, handness: Option<Handness>)

  function Min(a: int, b: int): int
  {
    if a < b then a else b
  }

  /**
   * Which hand, if any, holds this mesh: `leftHeld`/`rightHeld` are the
   * uuids of the objects the two pointers hold (None when a hand holds
   * nothing). The left hand is asked first.
   */
  function CheckIfObjectHeldByPointer(leftHeld: Option<string>, rightHeld: Option<string>, meshUuid: string): (r: ObjectHeldCheck)
    ensures r.objectHeldByPointer <==> r.handness.Some?
    ensures r.handness == Some(Left) <==> leftHeld == Some(meshUuid)
    ensures r.handness == Some(Right) <==> leftHeld != Some(meshUuid) && rightHeld == Some(meshUuid)
  {
    if leftHeld.Some? && leftHeld.value == meshUuid then
      ObjectHeldCheck(true, Some(Left))
    else if rightHeld.Some? && rightHeld.value == meshUuid then
      ObjectHeldCheck(true, Some(Right))
    else
      ObjectHeldCheck(false, None)
  }

  /**
   * One recorded move on a buffer: push the new sample and, when the
   * buffer then holds more than `MaxEntries`, shift the oldest out.
   */
  function Record<T>(buffer: seq<T>, sample: T): (r: seq<T>)
    ensures |r| > 0 && r[|r| - 1] == sample
    ensures |buffer| < MaxEntries ==> r == buffer + [sample]
    ensures |buffer| <= MaxEntries ==> |r| <= MaxEntries
  {
    var pushed := buffer + [sample];
    if |pushed| > MaxEntries then pushed[1..] else pushed
  }

  /** The buffer a grab holds after recording `samples` in order, starting empty. */
  function Replay<T>(samples: seq<T>): (r: seq<T>)
    ensures |r| <= MaxEntries
  {
    if |samples| == 0 then [] else Record(Replay(samples[..|samples| - 1]), samples[|samples| - 1])
  }

  /** Recording onto the recent window of `s` gives the recent window of `s` extended by the sample. */
  lemma RecordRecentWindow<T>(s: seq<T>, sample: T)
    ensures Record(s[|s| - Min(|s|, MaxEntries)..], sample)
         == (s + [sample])[|s| + 1 - Min(|s| + 1, MaxEntries)..]
  {
    var m := Min(|s|, MaxEntries);
    var t := s + [sample];
    assert s[|s| - m..] + [sample] == t[|s| - m..];
    if m == MaxEntries {
      assert t[|s| - m..][1..] == t[|t| - MaxEntries..];
    }
  }

  /** The buffer holds the most recent `MaxEntries` samples (all of them while fewer), in arrival order. */
  lemma {:induction false} ReplayIsRecentSamples<T>(samples: seq<T>)
    ensures Replay(samples) == samples[|samples| - Min(|samples|, MaxEntries)..]
  {
    if |samples| > 0 {
      var prefix := samples[..|samples| - 1];
      ReplayIsRecentSamples(prefix);
      RecordRecentWindow(prefix, samples[|samples| - 1]);
      assert prefix + [samples[|samples| - 1]] == samples;
    }
  }

  /** Recording one more sample extends the replay by one `Record` step. */
  lemma ReplaySnoc<T>(samples: seq<T>, sample: T)
    ensures Replay(samples + [sample]) == Record(Replay(samples), sample)
  {
    assert (samples + [sample])[..|samples|] == samples;
  }

  /** Two sample streams of equal length give buffers of equal length. */
  lemma ReplayLength<T, U>(a: seq<T>, b: seq<U>)
    requires |a| == |b|
    ensures |Replay(a)| == |Replay(b)| == Min(|a|, MaxEntries)
  {
    ReplayIsRecentSamples(a);
    ReplayIsRecentSamples(b);
  }

  /**
   * One grabbable mesh. `samples`/`times` hold everything recorded since
   * the current grab began; `reported` the positions sent as the hider's
   * object position; `grabbed` the pointer ids passed to `handleGrab`;
   * `released` the grab state each `handleRelease` was computed from.
   */
  class Grabbable {
    const isAnchorable: bool
    var downState: Option<DownState>
    var isAnchored: bool
    var isObjectSet: bool
    var reported: seq<Position>
    var grabbed: seq<int>
    var released: seq<DownState>
    ghost var samples: seq<Position>
    ghost var times: seq<int>

    /**
     * The buffers of a grab in progress are the recent window of what was
     * recorded since it began; a release always had at least two
     * samples; the hider's position is reported at most once, exactly
     * when `isObjectSet` holds.
     */
    ghost predicate Valid()
      reads this
    {
      && (downState.Some? ==>
            && |samples| == |times|
            && downState.value.positions == Replay(samples)
            && downState.value.timestamps == Replay(times))
      && (forall k :: 0 <= k < |released| ==>
            2 <= |released[k].positions| == |released[k].timestamps| <= MaxEntries)
      && |reported| <= 1
      && (isObjectSet <==> |reported| == 1)
    }

    constructor(anchorable: bool)
      ensures Valid()
      ensures isAnchorable == anchorable
      ensures downState == None && !isAnchored && !isObjectSet
      ensures reported == [] && grabbed == [] && released == []
    {
      isAnchorable := anchorable;
      downState := None;
      isAnchored := false;
      isObjectSet := false;
      reported := [];
      grabbed := [];
      released := [];
      samples := [];
      times := [];
    }

    /** While a grab is in progress its two buffers are equally long, at most five, and the latest samples in order. */
    lemma BuffersAreRecentWindow()
      requires Valid() && downState.Some?
      ensures |downState.value.positions| == |downState.value.timestamps| == Min(|samples|, MaxEntries)
      ensures downState.value.positions == samples[|samples| - Min(|samples|, MaxEntries)..]
      ensures downState.value.timestamps == times[|times| - Min(|times|, MaxEntries)..]
    {
      ReplayLength(samples, times);
      ReplayIsRecentSamples(samples);
      ReplayIsRecentSamples(times);
    }

    /**
     * `onPointerDown`: start a grab when the mesh is there and visible,
     * no grab is in progress and the event is a pointer intersection;
     * anchoring does not prevent it.
     */
    method PointerDown(meshPresent: bool, visible: bool, isXIntersection: bool, pointerId: int)
      requires Valid()
      modifies this
      ensures Valid()
      ensures if meshPresent && visible && old(downState).None? && isXIntersection then
                && downState == Some(DownState(pointerId, [], []))
                && grabbed == old(grabbed) + [pointerId]
              else
                downState == old(downState) && grabbed == old(grabbed)
      ensures isAnchored == old(isAnchored) && isObjectSet == old(isObjectSet)
      ensures reported == old(reported) && released == old(released)
    {
      if meshPresent && visible && downState.None? && isXIntersection {
        downState := Some(DownState(pointerId, [], []));
        samples := [];
        times := [];
        grabbed := grabbed + [pointerId];
      }
    }

    /**
     * `onPointerUp`: ignored unless it comes from the grabbing pointer and
     * the object is not anchored; then the object is released only when
     * at least two samples were recorded, which ends the grab.
     */
    method PointerUp(pointerId: int)
      requires Valid()
      modifies this
      ensures Valid()
      ensures if old(downState).Some? && old(downState).value.pointerId == pointerId && !old(isAnchored)
                 && |old(downState).value.positions| > 1 then
                downState == None && released == old(released) + [old(downState).value]
              else
                downState == old(downState) && released == old(released)
      ensures isAnchored == old(isAnchored) && isObjectSet == old(isObjectSet)
      ensures reported == old(reported) && grabbed == old(grabbed)
    {
      if downState.None? || downState.value.pointerId != pointerId || isAnchored {
        return;
      }
      if |downState.value.positions| > 1 {
        BuffersAreRecentWindow();
        released := released + [downState.value];
        downState := None;
      }
    }

    /**
     * `handleAnchor`: with a rigid body present, anchor the object; a
     * hider whose object is not yet set ends the grab and reports the
     * mesh's world position, once.
     */
    method HandleAnchor(rigidBodyPresent: bool, meHiding: bool, worldPosition: Position)
      requires Valid()
      modifies this
      ensures Valid()
      ensures isAnchored == (old(isAnchored) || rigidBodyPresent)
      ensures if rigidBodyPresent && meHiding && !old(isObjectSet) then
                isObjectSet && downState == None && reported == old(reported) + [worldPosition]
              else
                isObjectSet == old(isObjectSet) && downState == old(downState) && reported == old(reported)
      ensures grabbed == old(grabbed) && released == old(released)
    {
      if !rigidBodyPresent {
        return;
      }
      isAnchored := true;
      if meHiding && !isObjectSet {
        isObjectSet := true;
        downState := None;
        reported := reported + [worldPosition];
      }
    }

    /**
     * `onPointerMove`: ignored while anchored, with no grab in progress,
     * without the mesh, for a non-intersection event, or when
     * `CheckIfObjectHeldByPointer` finds that neither hand holds this mesh
     * (`leftHeld` and `rightHeld` are the uuids the two pointers hold).
     * X and Y pressed on an anchorable object end the grab and anchor it;
     * otherwise the point and the event's time are recorded in the sample
     * window.
     */
    method PointerMove(meshPresent: bool, isXIntersection: bool,
                       leftHeld: Option<string>, rightHeld: Option<string>, meshUuid: string,
                       xPressed: bool, yPressed: bool, point: Position, timestamp: int,
                       rigidBodyPresent: bool, meHiding: bool, worldPosition: Position)
      requires Valid()
      modifies this
      ensures Valid()
      ensures old(isAnchored) || old(downState).None? || !meshPresent || !isXIntersection
              || (leftHeld != Some(meshUuid) && rightHeld != Some(meshUuid)) ==>
                && downState == old(downState) && isAnchored == old(isAnchored)
                && isObjectSet == old(isObjectSet) && reported == old(reported)
      ensures !old(isAnchored) && old(downState).Some? && meshPresent && isXIntersection
              && (leftHeld == Some(meshUuid) || rightHeld == Some(meshUuid)) ==>
                if xPressed && yPressed && isAnchorable then
                  && downState == None
                  && isAnchored == rigidBodyPresent
                  && (if rigidBodyPresent && meHiding && !old(isObjectSet) then
                        isObjectSet && reported == old(reported) + [worldPosition]
                      else
                        isObjectSet == old(isObjectSet) && reported == old(reported))
                else
                  && downState == Some(old(downState).value.(
                       positions := Record(old(downState).value.positions, point),
                       timestamps := Record(old(downState).value.timestamps, timestamp)))
                  && isAnchored == old(isAnchored) && isObjectSet == old(isObjectSet)
                  && reported == old(reported)
      ensures grabbed == old(grabbed) && released == old(released)
    {
      if isAnchored || !meshPresent || downState.None? || !isXIntersection {
        return;
      }
      var held := CheckIfObjectHeldByPointer(leftHeld, rightHeld, meshUuid);
      if held.handness.None? || !held.objectHeldByPointer {
        return;
      }
      if xPressed && yPressed && isAnchorable {
        downState := None;
        HandleAnchor(rigidBodyPresent, meHiding, worldPosition);
        return;
      }
      RecordSample(point, timestamp);
    }

    /** Push one sample onto both buffers and shift the oldest out once they exceed `MaxEntries`. */
    method RecordSample(point: Position, timestamp: int)
      requires Valid() && downState.Some?
      modifies this
      ensures Valid()
      ensures downState == Some(old(downState).value.(
                positions := Record(old(downState).value.positions, point),
                timestamps := Record(old(downState).value.timestamps, timestamp)))
      ensures samples == old(samples) + [point] && times == old(times) + [timestamp]
      ensures isAnchored == old(isAnchored) && isObjectSet == old(isObjectSet)
      ensures reported == old(reported) && grabbed == old(grabbed) && released == old(released)
    {
      var state := downState.value;
      var positions := state.positions + [point];
      var timestamps := state.timestamps + [timestamp];
      BuffersAreRecentWindow();
      if |positions| > MaxEntries {
        positions := positions[1..];
        timestamps := timestamps[1..];
      }
      ReplaySnoc(samples, point);
      ReplaySnoc(times, timestamp);
      samples := samples + [point];
      times := times + [timestamp];
      downState := Some(state.(positions := positions, timestamps := timestamps));
    }
  }
}
