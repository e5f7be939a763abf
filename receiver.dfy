// FlutterUnityReceiver: routes the app's commands to calibration, path drawing
// and the instruction engine, and answers state polls.

module Receiver {
  import opened Wrappers
  import opened Spatial
  import opened Text
  import opened NodeRegistry
  import opened Calibration
  import opened PathCache
  import opened InstructionSpec
  import opened InstructionEngine

  /** The command record the app sends as JSON; a missing or null field is None. */
  datatype Command = Command(action: Option<string>, nodeId: Option<string>, start: Option<string>, destination: Option<string>)

  /** What OnMessage does with a command. */
  datatype Action =
    | Ignore                                                      // parse failure, null command or empty action
    | Unknown(name: string)                                       // logged as a warning only
    | Calibrate(nodeId: Option<string>)
    | Navigate(start: Option<string>, destination: Option<string>)
    | Stop
    | Poll

  predicate KnownAction(name: string)
  {
    name == "calibrate" || name == "start_navigation" || name == "stop_navigation" || name == "get_navigation_state"
  }

  /** The switch of OnMessage; None is a command that failed to parse or parsed to null. */
  function Route(cmd: Option<Command>): Action
  {
    if cmd.None? || IsNullOrEmpty(cmd.value.action) then Ignore
    else
      var name := cmd.value.action.value;
      if name == "calibrate" then Calibrate(cmd.value.nodeId)
      else if name == "start_navigation" then Navigate(cmd.value.start, cmd.value.destination)
      else if name == "stop_navigation" then Stop
      else if name == "get_navigation_state" then Poll
      else Unknown(name)
  }

  /** The command the app sends to ask for an action. */
  function CommandFor(a: Action): Command
  {
    match a
    case Ignore => Command(None, None, None, None)
    case Unknown(name) => Command(Some(name), None, None, None)
    case Calibrate(nodeId) => Command(Some("calibrate"), nodeId, None, None)
    case Navigate(start, destination) => Command(Some("start_navigation"), None, start, destination)
    case Stop => Command(Some("stop_navigation"), None, None, None)
    case Poll => Command(Some("get_navigation_state"), None, None, None)
  }

  /** Every action the receiver distinguishes is reached by the command the app sends for it. */
  lemma RouteRoundTrip(a: Action)
    requires a.Unknown? ==> a.name != "" && !KnownAction(a.name)
    ensures Route(Some(CommandFor(a))) == a
  {
  }

  /**
   * A command is ignored exactly when it is missing or has an empty action, and
   * reported as unknown exactly when its action is none of the four names.
   */
  lemma RouteClassifies(cmd: Option<Command>)
    ensures Route(cmd).Ignore? <==> cmd.None? || IsNullOrEmpty(cmd.value.action)
    ensures Route(cmd).Unknown? <==> cmd.Some? && !IsNullOrEmpty(cmd.value.action) && !KnownAction(cmd.value.action.value)
  {
  }

  /** The node resolution of StartNavigation. */
  datatype StartPlan =
    | NotCalibrated
    | NoDestination
    | FromNamed(start: Node, dest: Node)
    | FromNearest(dest: Node)     // the start name does not resolve: use the node nearest the camera

  function PlanStart(calibrated: bool, nodes: seq<Option<Node>>, startName: Option<string>, destName: Option<string>): StartPlan
  {
    if !calibrated then NotCalibrated
    else
      match ByNameOrId(nodes, destName)
      case None => NoDestination
      case Some(dest) =>
        match ByNameOrId(nodes, startName)
        case Some(start) => FromNamed(start, dest)
        case None => FromNearest(dest)
  }

  /** ByNameOrId returns a registered node whose normalised id, or failing that name, is the normalised query. */
  lemma ByNameOrIdRegistered(nodes: seq<Option<Node>>, value: Option<string>)
    ensures var r := ByNameOrId(nodes, value);
      r.Some? ==> !IsNullOrWhiteSpace(value)
                  && (exists i :: 0 <= i < |nodes| && nodes[i] == r)
                  && (Matches(r, ById, Key(value.value)) || Matches(r, ByName, Key(value.value)))
  {
    if !IsNullOrWhiteSpace(value) {
      FirstWithIsFirst(nodes, ById, Key(value.value));
      FirstWithIsFirst(nodes, ByName, Key(value.value));
    }
  }

  /**
   * Navigation goes ahead only when calibrated and the destination resolves;
   * the start is the resolved start name when there is one. Both are
   * registered nodes matching the names asked for.
   */
  lemma PlanStartResolves(calibrated: bool, nodes: seq<Option<Node>>, startName: Option<string>, destName: Option<string>)
    ensures var p := PlanStart(calibrated, nodes, startName, destName);
      && ((p.FromNamed? || p.FromNearest?) <==> calibrated && ByNameOrId(nodes, destName).Some?)
      && ((p.FromNamed? || p.FromNearest?) ==>
            Some(p.dest) == ByNameOrId(nodes, destName)
            && (exists i :: 0 <= i < |nodes| && nodes[i] == Some(p.dest))
            && (Matches(Some(p.dest), ById, Key(destName.value)) || Matches(Some(p.dest), ByName, Key(destName.value))))
      && (p.FromNamed? ==>
            Some(p.start) == ByNameOrId(nodes, startName)
            && (exists i :: 0 <= i < |nodes| && nodes[i] == Some(p.start)))
      && (p.FromNearest? ==> ByNameOrId(nodes, startName).None?)
  {
    ByNameOrIdRegistered(nodes, destName);
    ByNameOrIdRegistered(nodes, startName);
  }

  /** The commands that wait for the AR session to track before they run. */
  predicate Gated(a: Action)
  {
    a.Calibrate? || a.Navigate?
  }

  /** A StartNavigationWhenReady coroutine: the resolved start (None when it did not resolve) and destination. */
  datatype Launch = Launch(start: Option<Node>, dest: Node)

  class FlutterUnityReceiver {
    const nodeDatabase: NodeDatabase
    const lineNavigator: LineNavigator
    const instructor: PathInstructionGenerator
    const calibration: CalibrationHelper   // the static CalibrationHelper state
    const arCamera: Transform?
    const arOrigin: Transform?
    const originCamera: Transform?         // the transform of arOrigin.camera

    ghost predicate Valid()
      reads this, nodeDatabase, lineNavigator, instructor, instructor.nav
    {
      nodeDatabase.Valid() && lineNavigator.Valid() && instructor.Valid()
    }

    constructor (nodeDatabase: NodeDatabase, lineNavigator: LineNavigator, instructor: PathInstructionGenerator,
                 calibration: CalibrationHelper, arCamera: Transform?, arOrigin: Transform?, originCamera: Transform?)
      requires nodeDatabase.Valid() && lineNavigator.Valid() && instructor.Valid()
      ensures Valid()
      ensures this.nodeDatabase == nodeDatabase && this.lineNavigator == lineNavigator && this.instructor == instructor
      ensures this.calibration == calibration && this.arCamera == arCamera && this.arOrigin == arOrigin
      ensures this.originCamera == originCamera
    {
      this.nodeDatabase := nodeDatabase;
      this.lineNavigator := lineNavigator;
      this.instructor := instructor;
      this.calibration := calibration;
      this.arCamera := arCamera;
      this.arOrigin := arOrigin;
      this.originCamera := originCamera;
    }

    /** Nothing the receiver can reach has changed. */
    twostate predicate Untouched()
      reads this, nodeDatabase, lineNavigator, instructor, instructor.nav, calibration, arOrigin
    {
      && unchanged(nodeDatabase, lineNavigator, instructor, instructor.nav, calibration)
      && (arOrigin != null ==> unchanged(arOrigin))
    }

    /** The effect of stop_navigation: no path, no session, cleared snapshot, not calibrated. */
    twostate predicate StopEffect()
      reads this, nodeDatabase, lineNavigator, instructor, instructor.nav, calibration, arOrigin
    {
      && !lineNavigator.hasValidPath && lineNavigator.currentCorners.Length == 0 && lineNavigator.currentDestinationId.None?
      && !instructor.running && instructor.IsReset() && instructor.nav.Snapshot() == Cleared
      && instructor.arriveDistance == old(instructor.arriveDistance)
      && !calibration.isCalibrated
      && unchanged(nodeDatabase) && (arOrigin != null ==> unchanged(arOrigin))
    }

    /**
     * The effect of the tail of StartNavigationWhenReady for a resolved start
     * (None when it did not resolve) and destination: with no start, or a start
     * the NavMesh never samples, nothing happens; otherwise the path is drawn,
     * and only when drawing succeeds is the instructor started on the lifted
     * corners, with the destination's id and the default arrival distance.
     */
    twostate predicate LaunchEffect(new start: Option<Node>, dest: Node, navMesh: NavMesh, now: real)
      reads this, lineNavigator, lineNavigator.currentCorners, instructor, instructor.nav, originCamera
    {
      if start.None? || navMesh.samplePosition(start.value.position).None? then
        unchanged(lineNavigator, instructor, instructor.nav)
      else
        var planned := PlannedCorners(navMesh, start.value.position, dest.position);
        && lineNavigator.currentDestinationId == dest.nodeId
        && (planned.None? ==>
              && lineNavigator.currentCorners == old(lineNavigator.currentCorners)
              && lineNavigator.hasValidPath == old(lineNavigator.hasValidPath)
              && unchanged(instructor, instructor.nav))
        && (planned.Some? ==>
              && lineNavigator.hasValidPath && lineNavigator.currentCorners[..] == Lifted(planned.value)
              && (if arOrigin == null || originCamera == null then unchanged(instructor, instructor.nav)
                  else instructor.StartEffect(originCamera, Some(Lifted(planned.value)), dest.nodeId, -1.0, now)))
    }

    /**
     * OnMessage for a parsed command. Calibrate and start_navigation are only
     * scheduled here, to run once the AR session tracks (returned as
     * `deferred`); stop runs at once and a poll is answered at once.
     */
    method OnMessage(cmd: Option<Command>) returns (reply: Option<Guidance>, deferred: Option<Action>)
      requires Valid()
      modifies lineNavigator, instructor, instructor.nav, calibration
      ensures Valid()
      ensures reply == if Route(cmd).Poll? then Some(old(instructor.nav.Snapshot())) else None
      ensures deferred == if Gated(Route(cmd)) then Some(Route(cmd)) else None
      ensures Route(cmd).Stop? ==> StopEffect()
      ensures !Route(cmd).Stop? ==> Untouched()
    {
      reply, deferred := None, None;
      match Route(cmd)
      case Ignore =>
      case Unknown(_) =>
      case Calibrate(_) =>
        deferred := Some(Route(cmd));
      case Navigate(_, _) =>
        deferred := Some(Route(cmd));
      case Stop =>
        StopNavigation();
      case Poll =>
        reply := Some(RespondNavigationState());
    }

    /** HandleCalibrate: an empty or null id is ignored; anything else goes to AlignNodeToCamera. */
    method HandleCalibrate(nodeId: Option<string>)
      requires Valid()
      modifies calibration, arOrigin
      ensures Valid()
      ensures IsNullOrEmpty(nodeId) ==> Untouched()
      ensures !IsNullOrEmpty(nodeId) ==> calibration.AlignEffect(nodeId, arCamera, arOrigin, nodeDatabase)
    {
      if IsNullOrEmpty(nodeId) {
        return;
      }
      calibration.AlignNodeToCamera(nodeId, arCamera, arOrigin, nodeDatabase);
    }

    /**
     * StartNavigation(start, destination), as it runs once the AR session
     * tracks: nothing unless calibrated and the destination resolves; the start
     * is the resolved start name or else the node nearest the camera (a missing
     * camera throws). Returns the StartNavigationWhenReady coroutine it starts.
     */
    method StartNavigation(startName: Option<string>, destName: Option<string>, scene: seq<Option<Node>>)
      returns (launch: Option<Launch>)
      requires Valid()
      modifies nodeDatabase
      ensures Valid()
      ensures match PlanStart(old(calibration.isCalibrated), old(nodeDatabase.nodes), startName, destName)
        case NotCalibrated => launch.None? && unchanged(nodeDatabase)
        case NoDestination => launch.None? && unchanged(nodeDatabase)
        case FromNamed(start, dest) => launch == Some(Launch(Some(start), dest)) && unchanged(nodeDatabase)
        case FromNearest(dest) =>
          if arCamera == null then launch.None? && unchanged(nodeDatabase)
          else
            && nodeDatabase.nodes == (if old(nodeDatabase.nodes) == [] then scene else old(nodeDatabase.nodes))
            && launch == Some(Launch(NearestScan(nodeDatabase.nodes, arCamera.position).0, dest))
    {
      launch := None;
      if !calibration.IsCalibrated() {
        return;
      }
      var destNode := nodeDatabase.FindByNameOrId(destName);
      if destNode.None? {
        return;
      }
      var startNode := nodeDatabase.FindByNameOrId(startName);
      if startNode.None? {
        if arCamera == null {
          return;   // arCamera.transform throws
        }
        startNode := nodeDatabase.NearestNode(arCamera.position, scene);
      }
      launch := Some(Launch(startNode, destNode.value));
    }

    /**
     * StartNavigationWhenReady. The wait for the NavMesh to sample the start
     * never ends when it cannot, so nothing happens then; a null start node
     * throws before anything happens.
     */
    method StartNavigationWhenReady(startNode: Option<Node>, destNode: Node, navMesh: NavMesh, now: real)
      requires Valid()
      modifies lineNavigator, instructor, instructor.nav
      ensures Valid()
      ensures LaunchEffect(startNode, destNode, navMesh, now)
    {
      if startNode.None? || navMesh.samplePosition(startNode.value.position).None? {
        return;
      }
      var drawn := lineNavigator.DrawPathBetween(startNode, Some(destNode), navMesh);
      if !drawn {
        return;
      }
      if arOrigin == null || originCamera == null {
        return;   // arOrigin.camera.transform throws
      }
      var corners := lineNavigator.GetCurrentPathCorners();
      instructor.StartNavigation(originCamera, Some(corners[..]), destNode.nodeId, -1.0, now);
    }

    /** StopNavigation: clears the path, stops the instructor and resets calibration, all at once. */
    method StopNavigation()
      requires Valid()
      modifies lineNavigator, instructor, instructor.nav, calibration
      ensures Valid()
      ensures StopEffect()
    {
      lineNavigator.ClearPath();
      instructor.StopNavigation();
      calibration.ResetCalibration();
    }

    /** RespondNavigationState: the snapshot sent back to the app; the cleared one whenever no session runs. */
    function RespondNavigationState(): (r: Guidance)
      reads this, nodeDatabase, lineNavigator, instructor, instructor.nav
      requires Valid()
      ensures !instructor.running ==> r == Cleared
      ensures r.instruction.Some? ==> instructor.running
    {
      instructor.nav.Snapshot()
    }
  }
}
