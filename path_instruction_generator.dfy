// PathInstructionGenerator: the component that runs a navigation session over a
// corner list and publishes instructions, distances and arrival to the shared
// NavigationState. Each method is proved to follow the functions of
// InstructionSpec.

module InstructionEngine {
  import opened Wrappers
  import opened Spatial
  import opened InstructionSpec

  /**
   * The static NavigationState the app polls: an instruction text (None for ""),
   * the remaining distance and the arrived flag.
   */
  class NavigationState {
    var instruction: Option<Instruction>
    var remainingDistance: real
    var arrived: bool

    constructor ()
      ensures Snapshot() == Cleared
    {
      instruction := None;
      remainingDistance := -1.0;
      arrived := false;
    }

    function Snapshot(): Guidance
      reads this
    {
      Guidance(instruction, remainingDistance, arrived)
    }
  }

  class PathInstructionGenerator {
    const tuning: Tuning
    const geo: Geometry
    const nav: NavigationState

    var user: Transform?
    var corners: seq<Vec3>          // [] stands for a null array
    var currentIndex: int
    var timer: real
    var arriveDistance: real
    var running: bool
    var lastInstructionSent: Option<Instruction>
    var lastDistanceSentValue: real
    var pendingInstruction: Option<Instruction>
    var pendingSince: real
    var activeDestinationId: Option<string>
    var activeCornerHash: int

    /** The fields a tick reads and writes. */
    function State(): Session
      reads this
    {
      Session(corners, currentIndex, arriveDistance, lastInstructionSent, lastDistanceSentValue,
              pendingInstruction, pendingSince)
    }

    /** The fields only StartNavigation and HardReset write. */
    function RunInfo(): (bool, Transform?, Option<string>, int)
      reads this
    {
      (running, user, activeDestinationId, activeCornerHash)
    }

    /** The field values HardReset leaves. */
    predicate IsReset()
      reads this
    {
      && user == null && corners == [] && currentIndex == 0 && timer == 0.0
      && activeDestinationId.None? && activeCornerHash == 0
      && lastInstructionSent.None? && lastDistanceSentValue == -1.0
      && pendingInstruction.None? && pendingSince == 0.0
    }

    /**
     * A running session has a user, at least two corners, a target corner in
     * [1, |corners| - 1], a last sent distance that is the sentinel or a real
     * distance, and the fingerprint of its own corners. A stopped generator is
     * fully reset and the snapshot is cleared.
     */
    ghost predicate Valid()
      reads this, nav
    {
      && (running ==>
            && user != null && Navigable(State())
            && (lastDistanceSentValue == -1.0 || lastDistanceSentValue >= 0.0)
            && activeCornerHash == CornerHash(geo, corners))
      && (!running ==> IsReset() && nav.Snapshot() == Cleared)
    }

    /** Awake: a new generator starts hard-reset. */
    constructor (tuning: Tuning, geo: Geometry, nav: NavigationState)
      modifies nav
      ensures Valid() && !running
      ensures this.tuning == tuning && this.geo == geo && this.nav == nav
    {
      this.tuning := tuning;
      this.geo := geo;
      this.nav := nav;
      new;
      HardReset();
    }

    /**
     * The effect of StartNavigation: a missing user, a null or too short corner
     * list, or the running session's own destination and fingerprint leave
     * everything as it was; anything else starts a new session on a copy of the
     * corners and runs the forced first tick.
     */
    twostate predicate StartEffect(userCamera: Transform?, navCorners: Option<seq<Vec3>>, destNodeId: Option<string>,
                                   arriveDist: real, now: real)
      reads this, nav, userCamera
    {
      if userCamera == null || navCorners.None? || |navCorners.value| < 2 then
        unchanged(this) && unchanged(nav)
      else if old(running) && destNodeId == old(activeDestinationId) && CornerHash(geo, navCorners.value) == old(activeCornerHash) then
        unchanged(this) && unchanged(nav)
      else
        var opening := Opening(navCorners.value, ArriveDistanceFor(arriveDist, tuning));
        && RunInfo() == (true, userCamera, destNodeId, CornerHash(geo, navCorners.value))
        && timer == 0.0
        && (State(), nav.Snapshot())
           == Generate(geo, tuning, opening, old(nav.Snapshot()), userCamera.position, userCamera.forward, now, true)
    }

    /** StartNavigation. `navCorners` is None for a null array; `now` is Time.time. */
    method StartNavigation(userCamera: Transform?, navCorners: Option<seq<Vec3>>, destNodeId: Option<string>,
                           arriveDist: real, now: real)
      requires Valid()
      modifies this, nav
      ensures Valid()
      ensures StartEffect(userCamera, navCorners, destNodeId, arriveDist, now)
    {
      if userCamera == null || navCorners.None? || |navCorners.value| < 2 {
        return;
      }
      var newHash := ComputeCornerHash(navCorners.value);
      if running && destNodeId == activeDestinationId && newHash == activeCornerHash {
        return;   // the same navigation is already running
      }

      BeginSession(userCamera, navCorners.value, destNodeId, newHash, arriveDist);
      GenerateInstruction(true, now);
    }

    /** The seeding of a new session in StartNavigation, before its forced tick. */
    method BeginSession(userCamera: Transform, navCorners: seq<Vec3>, destNodeId: Option<string>, newHash: int,
                        arriveDist: real)
      requires |navCorners| >= 2 && newHash == CornerHash(geo, navCorners)
      modifies this
      ensures Valid()
      ensures running && user == userCamera && activeDestinationId == destNodeId && activeCornerHash == newHash
      ensures timer == 0.0 && corners == navCorners && currentIndex == 1
      ensures arriveDistance == ArriveDistanceFor(arriveDist, tuning)
      ensures lastInstructionSent.None? && lastDistanceSentValue == -1.0 && pendingInstruction.None? && pendingSince == 0.0
    {
      user, corners, activeDestinationId, activeCornerHash, arriveDistance,
        currentIndex, timer, running, lastInstructionSent, lastDistanceSentValue, pendingInstruction, pendingSince
        := userCamera, navCorners, destNodeId, newHash, if arriveDist > 0.0 then arriveDist else tuning.defaultArriveDistance,
           1, 0.0, true, None, -1.0, None, 0.0;
    }

    /** StopNavigation: hard-resets a running session and does nothing otherwise. */
    method StopNavigation()
      requires Valid()
      modifies this, nav
      ensures Valid()
      ensures !running && IsReset() && nav.Snapshot() == Cleared
      ensures !old(running) ==> unchanged(this) && unchanged(nav)
      ensures arriveDistance == old(arriveDistance)
    {
      if !running {
        return;
      }
      HardReset();
    }

    /**
     * Update, with Time.deltaTime and Time.time as parameters: a running session
     * accumulates time and runs one non-forced tick once updateInterval is
     * reached, restarting the timer.
     */
    method Update(deltaTime: real, now: real)
      requires Valid()
      modifies this, nav
      ensures Valid()
      ensures !old(running) ==> unchanged(this) && unchanged(nav)
      ensures old(running) ==> RunInfo() == old(RunInfo())
      ensures old(running) && old(timer) + deltaTime < tuning.updateInterval ==>
        timer == old(timer) + deltaTime && State() == old(State()) && unchanged(nav)
      ensures old(running) && old(timer) + deltaTime >= tuning.updateInterval ==>
        timer == 0.0
        && (State(), nav.Snapshot())
           == Generate(geo, tuning, old(State()), old(nav.Snapshot()), user.position, user.forward, now, false)
    {
      if !running || |corners| < 2 || user == null {
        return;
      }
      timer := timer + deltaTime;
      if timer < tuning.updateInterval {
        return;
      }
      timer := 0.0;
      GenerateInstruction(false, now);
    }

    /** GenerateInstruction: one tick of a running session, with Time.time as `now`. */
    method GenerateInstruction(forceSend: bool, now: real)
      requires Valid() && running
      modifies this, nav
      ensures Valid()
      ensures RunInfo() == old(RunInfo()) && timer == old(timer)
      ensures (State(), nav.Snapshot())
           == Generate(geo, tuning, old(State()), old(nav.Snapshot()), user.position, user.forward, now, forceSend)
    {
      ghost var s0 := State();
      ghost var out0 := nav.Snapshot();
      var userFlat := Flat(user.position);
      var remaining := ComputeRemainingDistance(userFlat);
      var destFlat := Flat(corners[|corners| - 1]);

      if geo.distance(userFlat, destFlat) <= arriveDistance {
        SendEventImmediate(ArrivedEvent);
        SendEventImmediate(DistanceUpdate(0.0));
        GenerateOnArrival(geo, tuning, s0, out0, user.position, user.forward, now, forceSend);
        return;
      }

      var advanced := AdvanceTarget(userFlat);
      var nextFlat := Flat(corners[currentIndex]);
      var distToNext := geo.distance(userFlat, nextFlat);
      var forwardFlat := geo.normalized(Flat(user.forward));
      var toNextFlat := geo.normalized(Sub(nextFlat, userFlat));
      var angle := geo.signedAngle(forwardFlat, toNextFlat);
      var instruction := Classify(angle, distToNext, tuning);
      ghost var s1 := State();
      GenerateOnHeading(geo, tuning, s0, out0, user.position, user.forward, now, forceSend,
                        currentIndex, advanced, instruction, remaining);

      if forceSend {
        SendInstructionNow(instruction, remaining);
      } else {
        DebounceInstruction(instruction, remaining, now);
        ThrottleDistance(remaining);
      }
      GenerateKeepsInvariant(geo, tuning, s0, out0, user.position, user.forward, now, forceSend);
    }

    /** The advance block of a tick: move to the next corner when the target is not the last one and the user is within reach of it. */
    method AdvanceTarget(userFlat: Vec3) returns (advanced: bool)
      requires Navigable(State())
      modifies this
      ensures advanced <==> old(currentIndex) < |corners| - 1
                            && geo.distance(userFlat, Flat(corners[old(currentIndex)])) < tuning.advanceCornerDistance
      ensures State() == old(State()).(currentIndex := if advanced then old(currentIndex) + 1 else old(currentIndex),
                                       pendingInstruction := if advanced then None else old(pendingInstruction))
      ensures RunInfo() == old(RunInfo()) && timer == old(timer)
    {
      advanced := false;
      if currentIndex < |corners| - 1 {
        var c := corners[currentIndex];
        if geo.distance(userFlat, Flat(c)) < tuning.advanceCornerDistance {
          currentIndex := currentIndex + 1;
          pendingInstruction := None;
          advanced := true;
        }
      }
    }

    /**
     * The debounce block of a non-forced tick: an instruction other than the
     * last one sent becomes the pending candidate (restarting the dwell clock
     * when it is a new candidate) and is sent once it has been pending for
     * flipDebounceTime.
     */
    method DebounceInstruction(instruction: Instruction, remaining: real, now: real)
      modifies this, nav
      ensures (State(), nav.Snapshot()) == Debounce(tuning, old(State()), old(nav.Snapshot()), instruction, remaining, now)
      ensures RunInfo() == old(RunInfo()) && timer == old(timer)
    {
      if Some(instruction) != lastInstructionSent {
        if pendingInstruction != Some(instruction) {
          pendingInstruction := Some(instruction);
          pendingSince := now;
        }
        if now - pendingSince >= tuning.flipDebounceTime {
          SendInstructionNow(instruction, remaining);
          pendingInstruction := None;
        }
      }
    }

    /** The distance block of a non-forced tick: send when nothing was sent yet or the distance dropped by the step. */
    method ThrottleDistance(remaining: real)
      modifies this, nav
      ensures (State(), nav.Snapshot()) == Throttle(tuning, old(State()), old(nav.Snapshot()), remaining)
      ensures RunInfo() == old(RunInfo()) && timer == old(timer)
    {
      if lastDistanceSentValue < 0.0 || lastDistanceSentValue - remaining >= tuning.distanceUpdateStep {
        SendEventImmediate(DistanceUpdate(Round1(remaining)));
        lastDistanceSentValue := remaining;
      }
    }

    /** HardReset: clears every session field and the snapshot. */
    method HardReset()
      modifies this, nav
      ensures Valid()
      ensures !running && IsReset() && nav.Snapshot() == Cleared
      ensures arriveDistance == old(arriveDistance)   // the one session field HardReset leaves alone
    {
      running, user, corners, currentIndex, timer := false, null, [], 0, 0.0;
      activeDestinationId, activeCornerHash := None, 0;
      lastInstructionSent, lastDistanceSentValue, pendingInstruction, pendingSince := None, -1.0, None, 0.0;
      nav.instruction, nav.remainingDistance, nav.arrived := None, -1.0, false;
    }

    /** ComputeCornerHash: the unchecked fold of the corners' hash codes. */
    method ComputeCornerHash(pts: seq<Vec3>) returns (hash: int)
      ensures hash == CornerHash(geo, pts)
    {
      hash := 17;
      for i := 0 to |pts|
        invariant hash == CornerHash(geo, pts[..i])
      {
        assert pts[..i + 1][..i] == pts[..i];
        hash := Wrap32(hash * 23 + geo.hashCode(pts[i]));
      }
      assert pts[..|pts|] == pts;
    }

    /** ComputeRemainingDistance: to the clamped target corner, then along the rest of the path, all flattened. */
    method ComputeRemainingDistance(userFlat: Vec3) returns (total: real)
      requires |corners| >= 1
      ensures total == RemainingDistance(geo, corners, currentIndex, userFlat)
    {
      var idx := Clamp(currentIndex, 0, |corners| - 1);
      total := geo.distance(userFlat, Flat(corners[idx]));
      for i := idx to |corners| - 1
        invariant total == geo.distance(userFlat, Flat(corners[idx])) + PathLength(geo, FlatAll(corners[idx..i + 1]))
      {
        var a := Flat(corners[i]);
        var b := Flat(corners[i + 1]);
        assert corners[idx..i + 2] == corners[idx..i + 1] + [corners[i + 1]];
        assert FlatAll(corners[idx..i + 2]) == FlatAll(corners[idx..i + 1]) + [b];
        PathLengthSnoc(geo, FlatAll(corners[idx..i + 1]), b);
        total := total + geo.distance(a, b);
      }
      assert corners[idx..|corners|] == corners[idx..];
    }

    /** SendInstructionNow: publishes the instruction and the distance, and records both as sent. */
    method SendInstructionNow(instruction: Instruction, remaining: real)
      modifies this, nav
      ensures (State(), nav.Snapshot()) == SendNow(old(State()), old(nav.Snapshot()), instruction, remaining)
      ensures RunInfo() == old(RunInfo()) && timer == old(timer)
    {
      SendEventImmediate(InstructionEvent(instruction));
      SendEventImmediate(DistanceUpdate(Round1(remaining)));
      lastInstructionSent := Some(instruction);
      lastDistanceSentValue := remaining;
    }

    /** SendEventImmediate: writes one event into the shared snapshot. */
    method SendEventImmediate(e: Event)
      modifies nav
      ensures nav.Snapshot() == Apply(old(nav.Snapshot()), e)
    {
      match e
      case InstructionEvent(i) => nav.instruction := Some(i);
      case DistanceUpdate(d) => nav.remainingDistance := d;
      case ArrivedEvent => nav.arrived := true;
    }
  }
}
