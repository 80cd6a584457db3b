/** The mission scenario as a state machine: every callback and every timer tick is a step. */
module MissionSteps {
  import opened Values

  /** A wall-clock reading in nanoseconds. */
  type Wall = n: int | 0 < n witness 1

  datatype Config = Config(
    hold: int,
    failClosed: bool, interactive: bool, manual: bool, localNed: bool,
    wallTimeout: real, activationTimeout: real, takeoffAltitude: real, takeoffStable: real, takeoffTimeout: real,
    stableSpeed: real, odometryMaxAge: real, odometryStable: real, missionTimeout: real, holdHandoverTimeout: real,
    takeoffSettle: real, commandRetry: real, armRetry: real, localPrestream: real, localStateMaxAge: real)

  datatype Status = Status(nav: int, executor: int)

  /** A local position; components that are not finite are missing. */
  datatype Position = Position(
    x: Option<real>, y: Option<real>, z: Option<real>, vx: Option<real>, vy: Option<real>, vz: Option<real>,
    valid: bool, sourceUs: int)

  datatype ModeState = ModeFailed | ModePaused | ModeOther

  datatype ModeReason = SafetyStopReason | OtherReason

  datatype Command = Activate(mode: int) | Arm | Offboard | PrepareHold | NavTakeoff(altitude: real)

  /** Names under which repeated commands are timed. */
  datatype Name = ActivateName | ArmName | HoldName

  datatype Outcome =
    | Complete | FailedComponent | HoldHandoverFailed | PausedSafetyStop | AbortedOperator
    | WallTimeout | ActivationTimeout | InvalidTakeoffConfiguration | ManualArmTimeout | ArmTimeout
    | LocalTakeoffStateTimeout | GlobalAltitudeTimeout | LocalTakeoffStateInvalid | TakeoffTimeout
    | MissionTimeout | Interrupted

  // ---- what has happened so far -----------------------------------------------

  /** What a tick saw. */
  datatype TickSeen = TickSeen(now: int, stable: bool, current: bool, nativeHold: bool)

  /** The situation in which a command was sent or an outcome assigned; `ticks` counts the
      ticks up to then, including the one at work. */
  datatype Facts = Facts(
    now: int, finished: bool, waiting: bool, takeoffObserved: bool, unexpectedExit: bool, missionComplete: bool,
    diverged: bool, status: Option<Status>, armAck: Option<int>, holdReady: bool,
    stableSince: Option<int>, readySince: Option<int>, ticks: nat)

  datatype Sent = Sent(command: Command, facts: Facts)

  datatype Assigned = Assigned(outcome: Outcome, facts: Facts)

  /** The record of a run: ticks, commands, assigned outcomes, recorded handover markers and
      successful arm acknowledgements, each in order. */
  datatype History = History(
    ticks: seq<TickSeen>, sent: seq<Sent>, outcomes: seq<Assigned>, markers: seq<Option<int>>, acks: seq<int>)

  /** The registered External Mode and what was seen of it. */
  datatype Mode = Mode(
    id: Option<int>, entered: bool, active: bool, enteredAt: Option<int>, postTakeoff: bool,
    left: bool, leftAt: Option<int>, failure: bool, state: Option<ModeState>, reason: Option<ModeReason>)

  datatype Takeoff = Takeoff(
    armedSeen: bool, armAck: Option<int>, holdReady: bool, localStartedAt: Option<int>, offboardRequested: bool,
    requested: bool, requestedAt: Option<int>, observed: bool)

  datatype Windows = Windows(stableSince: Option<int>, readySince: Option<int>, activationStartedAt: Option<int>)

  datatype Mission = Mission(
    safetyStop: bool, safetyStopAt: Option<int>, handoverAt: Option<int>,
    unexpectedExit: bool, complete: bool, completeAt: Option<int>)

  datatype Readings = Readings(
    status: Option<Status>, position: Option<Position>, altitude: Option<real>, odometryStamp: Option<int>, truthStamp: Option<int>)

  datatype Watch = Watch(originSet: bool, divergenceAt: Option<int>, diverged: bool)

  /** `outcome` is the terminal outcome, `reported` the one the finished scenario reports. */
  datatype Ending = Ending(
    outcome: Option<Outcome>, wall: Option<int>, waiting: bool, operatorAborted: bool, finished: bool, reported: Option<Outcome>)

  datatype State = State(
    now: int, simStart: Option<int>,
    mode: Mode, takeoff: Takeoff, windows: Windows, mission: Mission, readings: Readings, watch: Watch, ending: Ending,
    lastSent: map<Name, int>, history: History)

  const START: State := State(
    0, None,
    Mode(None, false, false, None, false, false, None, false, None, None),
    Takeoff(false, None, false, None, false, false, None, false),
    Windows(None, None, None),
    Mission(false, None, None, false, false, None),
    Readings(None, None, None, None, None),
    Watch(false, None, false),
    Ending(None, None, false, false, false, None),
    map[], History([], [], [], [], []))

  function FactsOf(s: State): Facts {
    Facts(s.now, s.ending.finished, s.ending.waiting, s.takeoff.observed, s.mission.unexpectedExit, s.mission.complete, s.watch.diverged, s.readings.status,
          s.takeoff.armAck, s.takeoff.holdReady, s.windows.stableSince, s.windows.readySince, |s.history.ticks|)
  }

  // ---- time -------------------------------------------------------------------

  const NANO: real := 1000000000.0

  /** Seconds since, never negative; 0 before the start. */
  function Since(now: int, start: Option<int>): real {
    if start.None? || now < start.value then 0.0 else (now - start.value) as real / NANO
  }

  /** Seconds to whole nanoseconds, toward zero. */
  function Nanos(seconds: real): int {
    var n := seconds * NANO;
    if n < 0.0 then -(-n).Floor else n.Floor
  }

  // ---- readings ---------------------------------------------------------------

  predicate Hold(c: Config, s: State) {
    s.readings.status.Some? && s.readings.status.value.nav == c.hold
  }

  /** Native Hold with no executor in charge. */
  predicate NativeHold(c: Config, s: State) {
    Hold(c, s) && s.readings.status.value.executor == 0
  }

  /** Finite velocity within the stability limit. */
  predicate Stable(c: Config, s: State) {
    s.readings.position.Some? &&
    var p := s.readings.position.value;
    && p.vx.Some? && p.vy.Some? && p.vz.Some? && c.stableSpeed >= 0.0
    && p.vx.value * p.vx.value + p.vy.value * p.vy.value + p.vz.value * p.vz.value <= c.stableSpeed * c.stableSpeed
  }

  predicate Fresh(c: Config, s: State) {
    s.readings.odometryStamp.Some? &&
    var age := (s.now - s.readings.odometryStamp.value) as real / NANO;
    -0.05 <= age <= c.odometryMaxAge
  }

  predicate Slow(v: Option<real>) {
    v.Some? && -0.5 < v.value < 0.5
  }

  predicate Airborne(c: Config, s: State) {
    s.readings.position.Some? &&
    var p := s.readings.position.value;
    p.z.Some? && p.z.value <= -0.9 * c.takeoffAltitude && Slow(p.vx) && Slow(p.vy) && Slow(p.vz)
  }

  /** A valid and fresh local position for a local takeoff. */
  predicate LocalStateUsable(c: Config, s: State) {
    s.readings.position.Some? &&
    var p := s.readings.position.value;
    var age := (s.now - p.sourceUs * 1000) as real / NANO;
    && p.valid && p.x.Some? && p.y.Some? && p.z.Some? && p.vx.Some? && p.vy.Some? && p.vz.Some?
    && p.sourceUs > 0 && c.localStateMaxAge > 0.0 && -0.05 <= age <= c.localStateMaxAge
  }

  predicate PostTakeoffExit(s: State) {
    s.mode.postTakeoff && s.mode.left && s.mode.enteredAt.Some? && s.mode.leftAt.Some? && s.mode.leftAt.value >= s.mode.enteredAt.value
  }

  // ---- pieces of a step -------------------------------------------------------

  function Send(s: State, command: Command): State {
    s.(history := s.history.(sent := s.history.sent + [Sent(command, FactsOf(s))]))
  }

  function LastSent(s: State, name: Name): int {
    if name in s.lastSent then s.lastSent[name] else -1000000000000000000
  }

  function Retry(s: State, name: Name, command: Command, period: real): State {
    if s.now - LastSent(s, name) >= Nanos(period) then
      var t := Send(s, command);
      t.(lastSent := t.lastSent[name := t.now])
    else s
  }

  /** The first handover boundary is kept; the marker is recorded with the event. */
  function Mark(s: State, wall: Wall): State {
    var marker := if s.ending.wall.Some? && s.ending.wall.value > 0 then s.ending.wall.value else wall;
    s.(ending := s.ending.(wall := Some(marker)), history := s.history.(markers := s.history.markers + [Some(marker)]))
  }

  /** Finishes once; a terminal outcome takes precedence over the reason given. */
  function Finish(s: State, outcome: Outcome): State {
    if s.ending.finished then s
    else s.(ending := s.ending.(finished := true, reported := Some(if s.ending.outcome.Some? then s.ending.outcome.value else outcome)),
            history := s.history.(markers := s.history.markers + [s.ending.wall]))
  }

  function RequestHandover(s: State, wall: Wall): State {
    var first := s.mission.handoverAt.None? || (s.mission.safetyStopAt.Some? && s.mission.handoverAt.value < s.mission.safetyStopAt.value);
    Mark(if first then s.(mission := s.mission.(handoverAt := Some(s.now))) else s, wall)
  }

  /** Assigns the terminal outcome, then waits for the operator or finishes. */
  function FinishOrWait(c: Config, s: State, outcome: Outcome, wall: Wall): State {
    var named := s.(ending := s.ending.(outcome := Some(outcome)),
                       history := s.history.(outcomes := s.history.outcomes + [Assigned(outcome, FactsOf(s))]));
    var t := if s.ending.outcome.None? then Mark(named, wall) else named;
    if c.interactive then t.(ending := t.ending.(waiting := true)) else Finish(t, outcome)
  }

  // ---- the tick ---------------------------------------------------------------

  function ArmPhase(c: Config, s: State): State
    requires s.mode.id.Some?
  {
    if !s.mode.entered then Retry(s, ActivateName, Activate(s.mode.id.value), c.commandRetry)
    else
      var t := Retry(s, ArmName, Arm, c.armRetry);
      if Since(t.now, t.simStart) > c.activationTimeout then Finish(t, ArmTimeout) else t
  }

  function LocalTakeoff(c: Config, s0: State): State {
    var s := if s0.takeoff.localStartedAt.None? then s0.(takeoff := s0.takeoff.(localStartedAt := Some(s0.now))) else s0;
    if !LocalStateUsable(c, s) then
      if Since(s.now, s.simStart) > c.activationTimeout then Finish(s, LocalTakeoffStateTimeout) else s
    else if Since(s.now, s.takeoff.localStartedAt) < c.localPrestream then s
    else
      var t := if s.takeoff.offboardRequested then s else Send(s, Offboard);
      t.(takeoff := t.takeoff.(offboardRequested := true, requested := true, requestedAt := Some(t.now)))
  }

  function NativeTakeoff(c: Config, s0: State): State
    requires s0.takeoff.armAck.Some?
  {
    if !s0.takeoff.holdReady && !NativeHold(c, s0) then Retry(s0, HoldName, PrepareHold, c.commandRetry)
    else
      var s := s0.(takeoff := s0.takeoff.(holdReady := true));
      if s.now - s.takeoff.armAck.value < Nanos(c.takeoffSettle) then s
      else if s.readings.altitude.None? then
        if Since(s.now, s.simStart) > c.activationTimeout then Finish(s, GlobalAltitudeTimeout) else s
      else
        var t := Send(s, NavTakeoff(s.readings.altitude.value + c.takeoffAltitude));
        t.(takeoff := t.takeoff.(requested := true, requestedAt := Some(t.now)))
  }

  function RequestTakeoff(c: Config, s: State): State
    requires !c.manual ==> s.takeoff.armAck.Some?
  {
    if c.manual then s.(takeoff := s.takeoff.(requested := true, requestedAt := Some(s.now)))
    else if c.localNed then LocalTakeoff(c, s)
    else NativeTakeoff(c, s)
  }

  predicate MayActivate(c: Config, s: State) {
    && !s.mode.active && !s.mission.complete && !s.mission.unexpectedExit
    && !(c.failClosed && PostTakeoffExit(s)) && !(c.failClosed && s.mode.failure)
  }

  function ActivateAirborne(c: Config, s0: State, wall: Wall): State
    requires s0.mode.id.Some?
  {
    var s := s0.(mode := s0.mode.(left := false, leftAt := None),
                 windows := if s0.windows.activationStartedAt.None? then s0.windows.(activationStartedAt := Some(s0.now)) else s0.windows);
    var t := Retry(s, ActivateName, Activate(s.mode.id.value), c.commandRetry);
    if Since(t.now, t.windows.activationStartedAt) > c.activationTimeout then RequestHandover(t.(mission := t.mission.(unexpectedExit := true)), wall) else t
  }

  /** The end of a mission: outcomes in their order of precedence. */
  function Terminal(c: Config, s: State, stableElapsed: real, wall: Wall): State {
    if Since(s.now, s.mode.enteredAt) > c.missionTimeout then Finish(s, MissionTimeout)
    else if stableElapsed < c.takeoffStable then s
    else if s.watch.diverged then FinishOrWait(c, s, FailedComponent, wall)
    else if s.mission.complete then
      if Hold(c, s) then FinishOrWait(c, s, Complete, wall)
      else if s.mission.completeAt.Some? && s.now - s.mission.completeAt.value > Nanos(c.holdHandoverTimeout)
      then FinishOrWait(c, s, HoldHandoverFailed, wall)
      else s
    else if s.mode.state == Some(ModeFailed) then
      if s.mode.failure || Hold(c, s) then FinishOrWait(c, s, FailedComponent, wall) else s
    else if s.mode.state == Some(ModePaused) then
      if s.mode.reason == Some(SafetyStopReason) || (s.mode.postTakeoff && Hold(c, s))
      then FinishOrWait(c, s, PausedSafetyStop, wall)
      else s
    else if s.mode.left && Hold(c, s) then FinishOrWait(c, s.(ending := s.ending.(operatorAborted := true)), AbortedOperator, wall)
    else s
  }

  /** Both windows, then activation or the end. */
  function WindowPhase(c: Config, s: State, stableElapsed: real, wall: Wall): State
    requires s.mode.id.Some?
  {
    if !Stable(c, s) then s.(windows := s.windows.(stableSince := Some(s.now), readySince := None))
    else if !Fresh(c, s) then s.(windows := s.windows.(readySince := None))
    else if s.windows.readySince.None? then s.(windows := s.windows.(readySince := Some(s.now)))
    else if MayActivate(c, s) then
      if stableElapsed < c.takeoffStable || Since(s.now, s.windows.readySince) < c.odometryStable then s
      else ActivateAirborne(c, s, wall)
    else Terminal(c, s, stableElapsed, wall)
  }

  /** After the takeoff request. Missing the takeoff altitude finishes the scenario, but the
      tick goes on. */
  function FlightPhase(c: Config, s: State, wall: Wall): State
    requires s.mode.id.Some?
  {
    var stableElapsed := Since(s.now, s.windows.stableSince);
    if c.localNed && !s.mode.active && !LocalStateUsable(c, s) then Finish(s, LocalTakeoffStateInvalid)
    else if s.takeoff.observed then WindowPhase(c, s, stableElapsed, wall)
    else if Airborne(c, s) then WindowPhase(c, s.(takeoff := s.takeoff.(observed := true), windows := s.windows.(stableSince := Some(s.now))), stableElapsed, wall)
    else if Since(s.now, s.takeoff.requestedAt) > c.takeoffTimeout then WindowPhase(c, Finish(s, TakeoffTimeout), stableElapsed, wall)
    else s
  }

  function MissionPhase(c: Config, s: State, wall: Wall): State {
    var elapsed := Since(s.now, s.simStart);
    if s.mode.id.None? && elapsed > c.activationTimeout then Finish(s, ActivationTimeout)
    else if c.takeoffAltitude <= 0.5 then Finish(s, InvalidTakeoffConfiguration)
    else if s.mode.id.None? then s
    else if c.manual && !s.takeoff.armedSeen then if elapsed > c.activationTimeout then Finish(s, ManualArmTimeout) else s
    else if s.takeoff.armAck.None? && !c.manual then ArmPhase(c, s)
    else if !s.takeoff.requested then RequestTakeoff(c, s)
    else FlightPhase(c, s, wall)
  }

  function Noted(c: Config, s: State): State {
    s.(history := s.history.(ticks := s.history.ticks + [TickSeen(s.now, Stable(c, s), Fresh(c, s), NativeHold(c, s))]))
  }

  function Tick(c: Config, s0: State, wallElapsed: real, wall: Wall): State {
    var s := Noted(c, s0);
    if s.ending.finished || s.ending.waiting then s
    else if wallElapsed > c.wallTimeout then Finish(s, WallTimeout)
    else if s.simStart.None? then s
    else MissionPhase(c, s, wall)
  }

  // ---- callbacks --------------------------------------------------------------

  function OnClock(s: State, now: int): State {
    s.(now := now, simStart := if now > 0 && s.simStart.None? then Some(now) else s.simStart)
  }

  predicate InMode(s: State, message: Status) {
    s.mode.id.Some? && message.nav == s.mode.id.value
  }

  /** Discovers the registered mode, and sees whether it is entered. */
  function SeeMode(s0: State, message: Status, advertised: Option<int>): State {
    var s := if s0.mode.id.None? then s0.(mode := s0.mode.(id := advertised)) else s0;
    if InMode(s, message) then
      s.(mode := s.mode.(enteredAt := if s.mode.active then s.mode.enteredAt else Some(s.now), entered := true, active := true,
                         postTakeoff := s.mode.postTakeoff || (s.takeoff.requested && s.takeoff.observed)))
    else s
  }

  function OnStatus(c: Config, s: State, message: Status, armed: bool, advertised: Option<int>, wall: Wall): State {
    var t := SeeMode(s, message, advertised);
    var u := if s.mode.active && !InMode(t, message) && !t.mode.left then LeftMode(c, t, wall) else t;
    u.(takeoff := u.takeoff.(armedSeen := u.takeoff.armedSeen || armed), readings := u.readings.(status := Some(message)))
  }

  /** The External Mode was left. */
  function LeftMode(c: Config, s: State, wall: Wall): State {
    var t := Mark(s.(mode := s.mode.(left := true, leftAt := Some(s.now), active := false)), wall);
    if t.takeoff.observed && !t.mission.complete && !c.failClosed then RequestHandover(t.(mission := t.mission.(unexpectedExit := true)), wall) else t
  }

  function OnPosition(s: State, p: Position): State {
    s.(readings := s.readings.(position := Some(p)))
  }

  function OnAltitude(s: State, altitude: Option<real>): State {
    if altitude.Some? then s.(readings := s.readings.(altitude := altitude)) else s
  }

  function OnAck(s: State, isArm: bool, accepted: bool): State {
    if isArm && accepted then s.(takeoff := s.takeoff.(armAck := Some(s.now)), history := s.history.(acks := s.history.acks + [s.now])) else s
  }

  function OnMissionComplete(s: State, done: bool): State {
    if done then s.(mission := s.mission.(complete := true, completeAt := Some(s.now))) else s
  }

  function OnModeStatus(s: State, state: ModeState, reason: ModeReason, wall: Wall): State {
    var t := s.(mode := s.mode.(state := Some(state), reason := Some(reason)));
    if state.ModePaused? && reason.SafetyStopReason? then
      Mark(t.(mission := t.mission.(safetyStop := true, safetyStopAt := if t.mission.safetyStopAt.None? then Some(t.now) else t.mission.safetyStopAt)), wall)
    else t
  }

  function OnModeCompleted(c: Config, s: State, nav: int, failed: bool, wall: Wall): State {
    if s.mode.id.None? || nav != s.mode.id.value then s
    else
      var t := s.(mode := s.mode.(failure := failed));
      if !failed || t.mission.complete then t
      else if c.failClosed then Mark(Mark(t, wall), wall)
      else Mark(t.(mission := t.mission.(unexpectedExit := true)), wall)
  }

  /** Compares localization with the truth; the residuals come with the message. */
  function Watchdog(c: Config, s: State, position: real, velocity: real, wall: Wall): State {
    if !s.mode.postTakeoff || s.readings.odometryStamp.None? || s.readings.truthStamp.None? then s
    else
      var skew := s.readings.odometryStamp.value - s.readings.truthStamp.value;
      if skew > 40000000 || -skew > 40000000 then s
      else if !s.watch.originSet then s.(watch := s.watch.(originSet := true))
      else if s.mission.complete then s
      else
        var exceeded := (if c.failClosed then position > 0.45 else position > 0.5 && velocity > 0.75) || velocity > 1.0;
        if !exceeded then s.(watch := s.watch.(divergenceAt := None))
        else if s.watch.divergenceAt.None? then s.(watch := s.watch.(divergenceAt := Some(s.now)))
        else if (c.failClosed || s.now - s.watch.divergenceAt.value >= 500000000) && !s.watch.diverged
        then RequestHandover(s.(watch := s.watch.(diverged := true)), wall)
        else s
  }

  /** What can happen to the scenario. Odometry and ground truth carry the residuals that the
      watchdog computes from them. */
  datatype Input =
    | ClockInput(now: int)
    | OdometryInput(usable: bool, stamp: int, position: real, velocity: real, wall: Wall)
    | TruthInput(usable: bool, stamp: int, position: real, velocity: real, wall: Wall)
    | StatusInput(message: Status, armed: bool, advertised: Option<int>, wall: Wall)
    | PositionInput(p: Position)
    | AltitudeInput(altitude: Option<real>)
    | AckInput(isArm: bool, accepted: bool)
    | MissionCompleteInput(done: bool)
    | ModeStatusInput(state: ModeState, reason: ModeReason, wall: Wall)
    | ModeCompletedInput(nav: int, failed: bool, wall: Wall)
    | TickInput(wallElapsed: real, wall: Wall)
    | InterruptInput

  function Step(c: Config, s: State, i: Input): State {
    match i
    case ClockInput(now) => OnClock(s, now)
    case OdometryInput(usable, stamp, position, velocity, wall) =>
      if usable then Watchdog(c, s.(readings := s.readings.(odometryStamp := Some(stamp))), position, velocity, wall) else s
    case TruthInput(usable, stamp, position, velocity, wall) =>
      if usable then Watchdog(c, s.(readings := s.readings.(truthStamp := Some(stamp))), position, velocity, wall) else s
    case StatusInput(message, armed, advertised, wall) => OnStatus(c, s, message, armed, advertised, wall)
    case PositionInput(p) => OnPosition(s, p)
    case AltitudeInput(altitude) => OnAltitude(s, altitude)
    case AckInput(isArm, accepted) => OnAck(s, isArm, accepted)
    case MissionCompleteInput(done) => OnMissionComplete(s, done)
    case ModeStatusInput(state, reason, wall) => OnModeStatus(s, state, reason, wall)
    case ModeCompletedInput(nav, failed, wall) => OnModeCompleted(c, s, nav, failed, wall)
    case TickInput(wallElapsed, wall) => Tick(c, s, wallElapsed, wall)
    case InterruptInput => Finish(s, if s.ending.outcome.Some? then s.ending.outcome.value else Interrupted)
  }

  /** The state after a run of inputs. */
  function After(c: Config, inputs: seq<Input>): State {
    if inputs == [] then START else Step(c, After(c, inputs[..|inputs| - 1]), inputs[|inputs| - 1])
  }
}
