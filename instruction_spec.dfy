// The turn-by-turn instruction engine of PathInstructionGenerator, as pure
// functions over its session state and the shared guidance snapshot. The class
// in path_instruction_generator.dfy is proved to follow these functions; the
// lemmas here state what one tick, and a start, do.

module InstructionSpec {
  import opened Wrappers
  import opened Spatial

  /** The inspector-tunable fields of PathInstructionGenerator. */
  datatype Tuning = Tuning(
    turnThresholdDeg: real,
    defaultArriveDistance: real,
    updateInterval: real,
    advanceCornerDistance: real,
    distanceUpdateStep: real,
    hysteresisAngle: real,      // declared by the component, read nowhere
    flipDebounceTime: real,
    invertTurnDirections: bool)

  /** The values the component ships with. */
  const Defaults: Tuning := Tuning(25.0, 1.2, 0.25, 1.0, 5.0, 10.0, 0.4, true)

  /**
   * An instruction text. The text embeds the distance printed with one decimal,
   * so two texts are equal exactly when kind and rounded distance agree.
   */
  datatype Instruction = WalkStraight(meters: real) | TurnLeft(meters: real) | TurnRight(meters: real)

  function Mirror(i: Instruction): Instruction
  {
    match i
    case WalkStraight(m) => WalkStraight(m)
    case TurnLeft(m) => TurnRight(m)
    case TurnRight(m) => TurnLeft(m)
  }

  /** Heading classification: straight inside the threshold, otherwise the sign of the angle, optionally inverted. */
  function Classify(angle: real, distToNext: real, t: Tuning): Instruction
  {
    var meters := Round1(distToNext);
    if Abs(angle) < t.turnThresholdDeg then WalkStraight(meters)
    else if (angle > 0.0) != t.invertTurnDirections then TurnLeft(meters)
    else TurnRight(meters)
  }

  lemma ClassifyKinds(angle: real, distToNext: real, t: Tuning)
    ensures Classify(angle, distToNext, t).WalkStraight? <==> Abs(angle) < t.turnThresholdDeg
    ensures Classify(angle, distToNext, t).TurnLeft? <==>
              !(Abs(angle) < t.turnThresholdDeg) && ((angle > 0.0) != t.invertTurnDirections)
    ensures distToNext - 0.05 <= Classify(angle, distToNext, t).meters <= distToNext + 0.05
  {
    Round1Close(distToNext);
  }

  /** Flipping the inversion flag swaps every left for a right and back. */
  lemma ClassifyInvertMirrors(angle: real, distToNext: real, t: Tuning)
    ensures Classify(angle, distToNext, t.(invertTurnDirections := !t.invertTurnDirections))
         == Mirror(Classify(angle, distToNext, t))
  {
  }

  /** Turning the other way round gives the mirrored instruction (for any non-zero angle, or a positive threshold). */
  lemma ClassifyOppositeAngleMirrors(angle: real, distToNext: real, t: Tuning)
    requires angle != 0.0 || t.turnThresholdDeg > 0.0
    ensures Classify(-angle, distToNext, t) == Mirror(Classify(angle, distToNext, t))
  {
  }

  /** The shared NavigationState snapshot. An instruction of None is the empty text "". */
  datatype Guidance = Guidance(instruction: Option<Instruction>, remainingDistance: real, arrived: bool)

  /** The snapshot after a hard reset: "", -1, false. */
  const Cleared: Guidance := Guidance(None, -1.0, false)

  /**
   * The events SendEventImmediate handles. A distance update carries the
   * number its "0.0" text parses back to.
   */
  datatype Event = InstructionEvent(instruction: Instruction) | DistanceUpdate(text: real) | ArrivedEvent

  function Apply(out: Guidance, e: Event): Guidance
  {
    match e
    case InstructionEvent(i) => out.(instruction := Some(i))
    case DistanceUpdate(d) => out.(remainingDistance := d)
    case ArrivedEvent => out.(arrived := true)
  }

  /** The per-session fields of PathInstructionGenerator that a tick reads and writes. */
  datatype Session = Session(
    corners: seq<Vec3>,
    currentIndex: int,
    arriveDistance: real,
    lastInstructionSent: Option<Instruction>,
    lastDistanceSentValue: real,
    pendingInstruction: Option<Instruction>,
    pendingSince: real)

  /** A running session: at least two corners and a target corner in [1, |corners| - 1]. */
  predicate Navigable(s: Session)
  {
    |s.corners| >= 2 && 1 <= s.currentIndex <= |s.corners| - 1
  }

  function ArriveDistanceFor(arriveDist: real, t: Tuning): real
  {
    if arriveDist > 0.0 then arriveDist else t.defaultArriveDistance
  }

  /** The session StartNavigation seeds before its forced tick. */
  function Opening(corners: seq<Vec3>, arriveDistance: real): Session
  {
    Session(corners, 1, arriveDistance, None, -1.0, None, 0.0)
  }

  /** Mathf.Clamp on ints. */
  function Clamp(v: int, lo: int, hi: int): int
  {
    if v < lo then lo else if v > hi then hi else v
  }

  /** ComputeRemainingDistance: to the target corner, then along the remaining corners, all flattened. */
  function RemainingDistance(g: Geometry, corners: seq<Vec3>, currentIndex: int, userFlat: Vec3): real
    requires |corners| >= 1
  {
    var idx := Clamp(currentIndex, 0, |corners| - 1);
    g.distance(userFlat, Flat(corners[idx])) + PathLength(g, FlatAll(corners[idx..]))
  }

  lemma RemainingDistanceNonNegative(g: Geometry, corners: seq<Vec3>, currentIndex: int, userFlat: Vec3)
    requires |corners| >= 1
    ensures RemainingDistance(g, corners, currentIndex, userFlat) >= 0.0
  {
    var idx := Clamp(currentIndex, 0, |corners| - 1);
    PathLengthNonNegative(g, FlatAll(corners[idx..]));
    assert g.distance(userFlat, Flat(corners[idx])) >= 0.0;
  }

  /** What one tick observes, before it touches any state. */
  datatype Reading =
    | Arrival
    | Heading(index: int, advanced: bool, instruction: Instruction, remaining: real)

  /**
   * The geometric part of GenerateInstruction: the remaining distance (taken
   * before any advance), the arrival test against the last corner, the advance
   * by at most one corner and the classified heading towards the target corner.
   */
  function Observe(g: Geometry, t: Tuning, s: Session, userPos: Vec3, userForward: Vec3): Reading
    requires Navigable(s)
  {
    var userFlat := Flat(userPos);
    var remaining := RemainingDistance(g, s.corners, s.currentIndex, userFlat);
    var destFlat := Flat(s.corners[|s.corners| - 1]);
    if g.distance(userFlat, destFlat) <= s.arriveDistance then Arrival
    else
      var advanced := s.currentIndex < |s.corners| - 1
                      && g.distance(userFlat, Flat(s.corners[s.currentIndex])) < t.advanceCornerDistance;
      var index := if advanced then s.currentIndex + 1 else s.currentIndex;
      var nextFlat := Flat(s.corners[index]);
      var distToNext := g.distance(userFlat, nextFlat);
      var angle := g.signedAngle(g.normalized(Flat(userForward)), g.normalized(Sub(nextFlat, userFlat)));
      Heading(index, advanced, Classify(angle, distToNext, t), remaining)
  }

  /** SendInstructionNow. */
  function SendNow(s: Session, out: Guidance, instr: Instruction, remaining: real): (Session, Guidance)
  {
    (s.(lastInstructionSent := Some(instr), lastDistanceSentValue := remaining),
     Apply(Apply(out, InstructionEvent(instr)), DistanceUpdate(Round1(remaining))))
  }

  /** When the candidate instr started being pending, counting this tick. */
  function CandidateSince(s: Session, instr: Instruction, now: real): real
  {
    if s.pendingInstruction == Some(instr) then s.pendingSince else now
  }

  /** The debounce of a non-forced tick. */
  function Debounce(t: Tuning, s: Session, out: Guidance, instr: Instruction, remaining: real, now: real): (Session, Guidance)
  {
    if Some(instr) == s.lastInstructionSent then (s, out)
    else
      var s1 := if s.pendingInstruction != Some(instr) then s.(pendingInstruction := Some(instr), pendingSince := now) else s;
      if now - s1.pendingSince >= t.flipDebounceTime then
        var (s2, o2) := SendNow(s1, out, instr, remaining);
        (s2.(pendingInstruction := None), o2)
      else (s1, out)
  }

  /** A distance update is due when none was sent yet or the distance dropped by at least the step. */
  predicate DistanceDue(t: Tuning, s: Session, remaining: real)
  {
    s.lastDistanceSentValue < 0.0 || s.lastDistanceSentValue - remaining >= t.distanceUpdateStep
  }

  /** The distance throttle of a non-forced tick. */
  function Throttle(t: Tuning, s: Session, out: Guidance, remaining: real): (Session, Guidance)
  {
    if DistanceDue(t, s, remaining)
    then (s.(lastDistanceSentValue := remaining), Apply(out, DistanceUpdate(Round1(remaining))))
    else (s, out)
  }

  /** GenerateInstruction: one tick, forced or not, from the session and snapshot before it. */
  function Generate(g: Geometry, t: Tuning, s: Session, out: Guidance, userPos: Vec3, userForward: Vec3,
                    now: real, force: bool): (Session, Guidance)
    requires Navigable(s)
  {
    match Observe(g, t, s, userPos, userForward)
    case Arrival =>
      (s, Apply(Apply(out, ArrivedEvent), DistanceUpdate(0.0)))
    case Heading(index, advanced, instr, remaining) =>
      var s1 := s.(currentIndex := index,
                   pendingInstruction := if advanced then None else s.pendingInstruction);
      if force then SendNow(s1, out, instr, remaining)
      else
        var (s2, o2) := Debounce(t, s1, out, instr, remaining, now);
        Throttle(t, s2, o2, remaining)
  }

  /** Generate after a heading reading, one step unfolded: the state after the advance, then send or debounce and throttle. */
  lemma GenerateOnHeading(g: Geometry, t: Tuning, s: Session, out: Guidance, userPos: Vec3, userForward: Vec3,
                          now: real, force: bool, index: int, advanced: bool, instr: Instruction, remaining: real)
    requires Navigable(s)
    requires advanced ==> index == s.currentIndex + 1
    requires !advanced ==> index == s.currentIndex
    requires var userFlat := Flat(userPos);
      && g.distance(userFlat, Flat(s.corners[|s.corners| - 1])) > s.arriveDistance
      && remaining == RemainingDistance(g, s.corners, s.currentIndex, userFlat)
      && (advanced <==> s.currentIndex < |s.corners| - 1
                        && g.distance(userFlat, Flat(s.corners[s.currentIndex])) < t.advanceCornerDistance)
      && 0 <= index < |s.corners|
      && instr == Classify(g.signedAngle(g.normalized(Flat(userForward)),
                                         g.normalized(Sub(Flat(s.corners[index]), userFlat))),
                           g.distance(userFlat, Flat(s.corners[index])), t)
    ensures var s1 := s.(currentIndex := index, pendingInstruction := if advanced then None else s.pendingInstruction);
      Generate(g, t, s, out, userPos, userForward, now, force)
      == if force then SendNow(s1, out, instr, remaining)
         else Throttle(t, Debounce(t, s1, out, instr, remaining, now).0, Debounce(t, s1, out, instr, remaining, now).1, remaining)
  {
    assert Observe(g, t, s, userPos, userForward) == Heading(index, advanced, instr, remaining);
  }

  /** Generate within the arrival distance, unfolded. */
  lemma GenerateOnArrival(g: Geometry, t: Tuning, s: Session, out: Guidance, userPos: Vec3, userForward: Vec3,
                          now: real, force: bool)
    requires Navigable(s)
    requires g.distance(Flat(userPos), Flat(s.corners[|s.corners| - 1])) <= s.arriveDistance
    ensures Generate(g, t, s, out, userPos, userForward, now, force)
         == (s, Apply(Apply(out, ArrivedEvent), DistanceUpdate(0.0)))
  {
  }

  /** What the generator's invariant needs from a tick: the same corners, still navigable, the sentinel-or-distance rule kept. */
  lemma GenerateKeepsInvariant(g: Geometry, t: Tuning, s: Session, out: Guidance, userPos: Vec3, userForward: Vec3,
                               now: real, force: bool)
    requires Navigable(s)
    requires s.lastDistanceSentValue == -1.0 || s.lastDistanceSentValue >= 0.0
    ensures var s' := Generate(g, t, s, out, userPos, userForward, now, force).0;
      && s'.corners == s.corners && Navigable(s')
      && (s'.lastDistanceSentValue == -1.0 || s'.lastDistanceSentValue >= 0.0)
  {
    GenerateKeepsSession(g, t, s, out, userPos, userForward, now, force);
    SentDistanceIsSentinelOrDistance(g, t, s, out, userPos, userForward, now, force);
  }

  // ---------------------------------------------------------------------------
  // What one tick does

  /**
   * A tick keeps the session navigable, keeps its corners and arrival distance,
   * raises the target index by at most one, and never clears the arrived flag.
   */
  lemma GenerateKeepsSession(g: Geometry, t: Tuning, s: Session, out: Guidance, userPos: Vec3, userForward: Vec3,
                             now: real, force: bool)
    requires Navigable(s)
    ensures var (s', o') := Generate(g, t, s, out, userPos, userForward, now, force);
      && Navigable(s')
      && s'.corners == s.corners && s'.arriveDistance == s.arriveDistance
      && s.currentIndex <= s'.currentIndex <= s.currentIndex + 1
      && (out.arrived ==> o'.arrived)
  {
    match Observe(g, t, s, userPos, userForward)
    case Arrival =>
    case Heading(index, advanced, instr, remaining) =>
      var s1 := s.(currentIndex := index, pendingInstruction := if advanced then None else s.pendingInstruction);
      assert Navigable(s1);
      if !force {
        DebounceSpec(t, s1, out, instr, remaining, now);
      }
  }

  /**
   * The target index advances exactly when the user is not yet at the last
   * corner, the target is not the last corner, and the user is within the
   * advance distance of the target.
   */
  lemma AdvanceIffNearTarget(g: Geometry, t: Tuning, s: Session, out: Guidance, userPos: Vec3, userForward: Vec3,
                             now: real, force: bool)
    requires Navigable(s)
    ensures var s' := Generate(g, t, s, out, userPos, userForward, now, force).0;
      var userFlat := Flat(userPos);
      s'.currentIndex == s.currentIndex + 1 <==>
        && g.distance(userFlat, Flat(s.corners[|s.corners| - 1])) > s.arriveDistance
        && s.currentIndex < |s.corners| - 1
        && g.distance(userFlat, Flat(s.corners[s.currentIndex])) < t.advanceCornerDistance
  {
  }

  /**
   * Within the arrival distance of the last corner a tick sets arrived and a
   * zero distance and changes nothing else: no advance, no new instruction.
   * Outside it the arrived flag is left as it was. There is no once-only
   * guard: every tick near the destination repeats the arrival signal.
   */
  lemma ArrivalTick(g: Geometry, t: Tuning, s: Session, out: Guidance, userPos: Vec3, userForward: Vec3,
                    now: real, force: bool)
    requires Navigable(s)
    ensures var (s', o') := Generate(g, t, s, out, userPos, userForward, now, force);
      if g.distance(Flat(userPos), Flat(s.corners[|s.corners| - 1])) <= s.arriveDistance
      then s' == s && o' == out.(arrived := true, remainingDistance := 0.0)
      else o'.arrived == out.arrived
  {
  }

  /** After an advance, any pending candidate of a non-forced tick was started in this very tick. */
  lemma AdvanceRestartsDwell(g: Geometry, t: Tuning, s: Session, out: Guidance, userPos: Vec3, userForward: Vec3,
                             now: real)
    requires Navigable(s)
    ensures var s' := Generate(g, t, s, out, userPos, userForward, now, false).0;
      s'.currentIndex == s.currentIndex + 1 ==> s'.pendingInstruction.None? || s'.pendingSince == now
  {
  }

  /**
   * A forced tick (the one StartNavigation runs) ignores the clock and the
   * debounce: unless the user is already at the destination it publishes the
   * instruction and the remaining distance at once.
   */
  lemma ForcedTickEmits(g: Geometry, t: Tuning, s: Session, out: Guidance, userPos: Vec3, userForward: Vec3,
                        now: real, later: real)
    requires Navigable(s)
    ensures Generate(g, t, s, out, userPos, userForward, now, true)
         == Generate(g, t, s, out, userPos, userForward, later, true)
    ensures var (s', o') := Generate(g, t, s, out, userPos, userForward, now, true);
      var r := Observe(g, t, s, userPos, userForward);
      r.Heading? ==>
        && o'.instruction == Some(r.instruction) && s'.lastInstructionSent == o'.instruction
        && s'.lastDistanceSentValue == r.remaining && o'.remainingDistance == Round1(r.remaining)
        && s'.pendingInstruction == (if r.advanced then None else s.pendingInstruction)
        && o'.arrived == out.arrived
  {
  }

  // ---------------------------------------------------------------------------
  // Debounce

  /**
   * The debounce in closed form: an instruction equal to the last one sent
   * changes nothing; any other is published once it has been the pending
   * candidate for at least flipDebounceTime, and otherwise becomes or stays the
   * candidate, with the time it first became the candidate.
   */
  lemma DebounceSpec(t: Tuning, s: Session, out: Guidance, instr: Instruction, remaining: real, now: real)
    ensures var (s', o') := Debounce(t, s, out, instr, remaining, now);
      && (Some(instr) == s.lastInstructionSent ==> s' == s && o' == out)
      && (Some(instr) != s.lastInstructionSent ==>
            var since := CandidateSince(s, instr, now);
            if now - since >= t.flipDebounceTime
            then s' == s.(lastInstructionSent := Some(instr), lastDistanceSentValue := remaining,
                          pendingInstruction := None, pendingSince := since)
                 && o' == out.(instruction := Some(instr), remainingDistance := Round1(remaining))
            else s' == s.(pendingInstruction := Some(instr), pendingSince := since) && o' == out)
  {
  }

  /** With a positive dwell time, a candidate seen for the first time is never published in the same tick. */
  lemma FreshCandidateWaits(t: Tuning, s: Session, out: Guidance, instr: Instruction, remaining: real, now: real)
    requires t.flipDebounceTime > 0.0
    requires s.pendingInstruction != Some(instr)
    ensures Debounce(t, s, out, instr, remaining, now).0.lastInstructionSent == s.lastInstructionSent
    ensures Debounce(t, s, out, instr, remaining, now).1 == out
  {
  }

  /**
   * A change that reverts on the next tick publishes nothing. The reverted
   * candidate stays pending with its original start time, so if it comes back
   * once flipDebounceTime has passed since then, it is published at once.
   */
  lemma RevertPublishesNothing(t: Tuning, s: Session, out: Guidance, b: Instruction, rb: real, t1: real,
                               a: Instruction, ra: real, t2: real)
    requires t.flipDebounceTime > 0.0
    requires s.lastInstructionSent == Some(a) && b != a && s.pendingInstruction != Some(b)
    ensures var (s1, o1) := Debounce(t, s, out, b, rb, t1);
      var (s2, o2) := Debounce(t, s1, o1, a, ra, t2);
      && o2 == out && s2.lastInstructionSent == Some(a)
      && s2.pendingInstruction == Some(b) && s2.pendingSince == t1
  {
  }

  // ---------------------------------------------------------------------------
  // Distance throttling

  /**
   * Once a distance has been sent, the throttle only ever replaces it by one at
   * least distanceUpdateStep smaller.
   */
  lemma ThrottledDistanceDecreases(t: Tuning, s: Session, out: Guidance, remaining: real)
    requires s.lastDistanceSentValue >= 0.0
    ensures var (s', o') := Throttle(t, s, out, remaining);
      (s' == s && o' == out)
      || (s'.lastDistanceSentValue == remaining <= s.lastDistanceSentValue - t.distanceUpdateStep
          && o'.remainingDistance == Round1(remaining))
  {
  }

  /**
   * In a non-forced tick that publishes no instruction, the snapshot's distance
   * changes only through the throttle; a tick that publishes an instruction
   * publishes the remaining distance with it.
   */
  lemma TickDistanceReports(g: Geometry, t: Tuning, s: Session, out: Guidance, userPos: Vec3, userForward: Vec3,
                            now: real)
    requires Navigable(s)
    ensures var r := Observe(g, t, s, userPos, userForward);
      var (s', o') := Generate(g, t, s, out, userPos, userForward, now, false);
      r.Heading? ==>
        && o'.instruction == (if s'.lastInstructionSent == s.lastInstructionSent then out.instruction else s'.lastInstructionSent)
        && (s'.lastInstructionSent != s.lastInstructionSent ==> o'.remainingDistance == Round1(r.remaining))
        && (s'.lastInstructionSent == s.lastInstructionSent ==>
              if DistanceDue(t, s, r.remaining)
              then o'.remainingDistance == Round1(r.remaining) && s'.lastDistanceSentValue == r.remaining
              else o'.remainingDistance == out.remainingDistance && s'.lastDistanceSentValue == s.lastDistanceSentValue)
  {
    var r := Observe(g, t, s, userPos, userForward);
    if r.Heading? {
      DebounceSpec(t, s.(currentIndex := r.index, pendingInstruction := if r.advanced then None else s.pendingInstruction),
                   out, r.instruction, r.remaining, now);
    }
  }

  /**
   * The last sent distance is either the sentinel -1 ("nothing sent yet") or a
   * real distance, never negative; a tick preserves this.
   */
  lemma SentDistanceIsSentinelOrDistance(g: Geometry, t: Tuning, s: Session, out: Guidance, userPos: Vec3,
                                         userForward: Vec3, now: real, force: bool)
    requires Navigable(s)
    requires s.lastDistanceSentValue == -1.0 || s.lastDistanceSentValue >= 0.0
    ensures var s' := Generate(g, t, s, out, userPos, userForward, now, force).0;
      s'.lastDistanceSentValue == -1.0 || s'.lastDistanceSentValue >= 0.0
  {
    RemainingDistanceNonNegative(g, s.corners, s.currentIndex, Flat(userPos));
  }

  // ---------------------------------------------------------------------------
  // Starting a session

  /**
   * The forced tick of an accepted start: the target index is 1, or already 2
   * when the user stands within the advance distance of corner 1; guidance is
   * published at once unless the user is already at the destination.
   */
  lemma StartTick(g: Geometry, t: Tuning, corners: seq<Vec3>, arriveDistance: real, out: Guidance,
                  userPos: Vec3, userForward: Vec3, now: real)
    requires |corners| >= 2
    ensures var s := Opening(corners, arriveDistance);
      var (s', o') := Generate(g, t, s, out, userPos, userForward, now, true);
      && 1 <= s'.currentIndex <= 2 && s'.currentIndex < |corners|
      && s'.pendingInstruction.None?
      && (Observe(g, t, s, userPos, userForward).Arrival? ==> s' == s && o' == out.(arrived := true, remainingDistance := 0.0))
      && (Observe(g, t, s, userPos, userForward).Heading? ==>
            o'.instruction.Some? && s'.lastInstructionSent == o'.instruction
            && s'.lastDistanceSentValue == RemainingDistance(g, corners, 1, Flat(userPos))
            && o'.remainingDistance == Round1(s'.lastDistanceSentValue))
  {
  }

  // ---------------------------------------------------------------------------
  // Path fingerprint

  /** ComputeCornerHash: `hash = hash * 23 + p.GetHashCode()` from 17, in unchecked 32-bit arithmetic. */
  function CornerHash(g: Geometry, pts: seq<Vec3>): (h: int)
    ensures -0x8000_0000 <= h < 0x8000_0000
  {
    if pts == [] then 17
    else Wrap32(CornerHash(g, pts[..|pts| - 1]) * 23 + g.hashCode(pts[|pts| - 1]))
  }

  /** The fingerprint depends only on the corners' hash codes, in order. */
  lemma {:induction false} CornerHashByCodes(g: Geometry, a: seq<Vec3>, b: seq<Vec3>)
    requires |a| == |b|
    requires forall i :: 0 <= i < |a| ==> g.hashCode(a[i]) == g.hashCode(b[i])
    ensures CornerHash(g, a) == CornerHash(g, b)
  {
    if a != [] {
      CornerHashByCodes(g, a[..|a| - 1], b[..|b| - 1]);
    }
  }
}
