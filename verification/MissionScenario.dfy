/** The scenario object: ROS callbacks and the timer as methods on one set of fields. Each
    callback takes its step of the state machine, so that the object always shows the state
    after the callbacks so far, and the results about runs are results about its record. */
module MissionScenario {
  import opened Values
  import opened MissionSteps
  import opened MissionSafety
  import opened MissionRuns

  class Scenario {
    const config: Config

    var simNow: int
    var simStart: Option<int>
    var mode: Mode
    var takeoff: Takeoff
    var windows: Windows
    var mission: Mission
    var readings: Readings
    var watch: Watch
    var ending: Ending
    var lastCommand: map<Name, int>
    /** What the recorder has been given. */
    var record: History
    /** The callbacks so far. */
    ghost var inputs: seq<Input>

    constructor (config: Config)
      ensures this.config == config && View() == START && Valid() && inputs == []
    {
      this.config := config;
      simNow, simStart, lastCommand := START.now, START.simStart, START.lastSent;
      mode, takeoff, windows, mission := START.mode, START.takeoff, START.windows, START.mission;
      readings, watch, ending, record := START.readings, START.watch, START.ending, START.history;
      inputs := [];
    }

    /** The fields are the state after the callbacks so far. */
    ghost predicate Valid()
      reads this
    {
      View() == After(config, inputs)
    }

    /** The fields as one value. */
    function View(): State
      reads this
    {
      State(simNow, simStart, mode, takeoff, windows, mission, readings, watch, ending, lastCommand, record)
    }

    // ---- what the record shows ------------------------------------------------

    /** At any time: every command on record was sent while the scenario was neither finished
        nor waiting and not after an unexpected exit in flight; NAV_TAKEOFF at most once, after
        an arm acknowledgement, an observed native Hold and the settle delay; and every
        airborne activation with both windows open and long enough. */
    lemma RecordIsDisciplined()
      requires Valid()
      ensures forall e | e in record.sent ::
                && !e.facts.finished && !e.facts.waiting && !(e.facts.takeoffObserved && e.facts.unexpectedExit)
                && e.facts.ticks <= |record.ticks|
                && (e.command.NavTakeoff? ==> TakeoffIsReady(config, record.ticks[..e.facts.ticks], record.acks, e.facts))
                && (e.command.Activate? && e.facts.takeoffObserved ==> WindowsAreLong(config, record.ticks[..e.facts.ticks], e.facts))
      ensures forall i, j :: 0 <= i < j < |record.sent| ==>
                !(record.sent[i].command.NavTakeoff? && record.sent[j].command.NavTakeoff?)
    {
      hide After, TakeoffIsReady, WindowsAreLong;
      CommandDiscipline(config, inputs);
      forall e | e in record.sent && e.command.Activate? && e.facts.takeoffObserved
        ensures e.facts.ticks <= |record.ticks| && WindowsAreLong(config, record.ticks[..e.facts.ticks], e.facts)
      {
        ActivationNeedsWindows(config, inputs, e);
      }
    }

    /** At any time: at most one terminal outcome is on record, it was earned, a finished
        scenario reports it, and all recorded handover markers carry the one value. */
    lemma OutcomeIsEarned()
      requires Valid()
      ensures |record.outcomes| <= 1
      ensures ending.outcome.Some? ==>
                |record.outcomes| == 1 && record.outcomes[0].outcome == ending.outcome.value && Earned(config, record, record.outcomes[0])
      ensures ending.finished && ending.outcome.Some? ==> ending.reported == ending.outcome
      ensures forall m | m in record.markers && m.Some? :: m == ending.wall
    {
      hide After, Earned;
      MissionRuns.TerminalOutcome(config, inputs);
    }

    /** From any earlier moment: once over or waiting, or abandoned in flight, the object has
        sent nothing since, and its outcome and handover boundary have not changed. */
    lemma PastIsSettled(n: nat)
      requires Valid() && n <= |inputs|
      ensures Settles(After(config, inputs[..n]), View())
      ensures Abandoned(After(config, inputs[..n])) ==> StaysSilent(After(config, inputs[..n]), View())
    {
      hide After, Settles, StaysSilent, Abandoned;
      PrefixSettles(config, inputs, n);
      if Abandoned(After(config, inputs[..n])) {
        UnexpectedExitIsFinal(config, inputs, n);
      }
    }

    // ---- pieces ---------------------------------------------------------------

    method PublishCommand(command: Command)
      modifies this
      ensures View() == Send(old(View()), command)
    {
      record := record.(sent := record.sent + [Sent(command, FactsOf(View()))]);
    }

    method RetryCommand(name: Name, command: Command, period: real)
      modifies this
      ensures View() == Retry(old(View()), name, command, period)
    {
      var last := if name in lastCommand then lastCommand[name] else -1000000000000000000;
      if simNow - last >= Nanos(period) {
        PublishCommand(command);
        lastCommand := lastCommand[name := simNow];
      }
    }

    method MarkTerminalHandover(wall: Wall) returns (marker: int)
      modifies this
      ensures View() == Mark(old(View()), wall) && Some(marker) == View().ending.wall
    {
      if ending.wall.Some? && ending.wall.value > 0 {
        marker := ending.wall.value;
      } else {
        marker := wall;
        ending := ending.(wall := Some(marker));
      }
      record := record.(markers := record.markers + [Some(marker)]);
    }

    method FinishScenario(reason: Outcome)
      modifies this
      ensures View() == Finish(old(View()), reason)
    {
      if ending.finished {
        return;
      }
      ending := ending.(finished := true);
      record := record.(markers := record.markers + [ending.wall]);
      ending := ending.(reported := Some(if ending.outcome.Some? then ending.outcome.value else reason));
    }

    method RecordHandoverRequest(wall: Wall)
      modifies this
      ensures View() == RequestHandover(old(View()), wall)
    {
      if mission.handoverAt.None? || (mission.safetyStopAt.Some? && mission.handoverAt.value < mission.safetyStopAt.value) {
        mission := mission.(handoverAt := Some(simNow));
      }
      var _ := MarkTerminalHandover(wall);
    }

    method FinishOrWaitForHandover(reason: Outcome, wall: Wall)
      modifies this
      ensures View() == FinishOrWait(config, old(View()), reason, wall)
    {
      var first := ending.outcome.None?;
      var facts := FactsOf(View());
      ending := ending.(outcome := Some(reason));
      record := record.(outcomes := record.outcomes + [Assigned(reason, facts)]);
      if first {
        var _ := MarkTerminalHandover(wall);
      }
      if config.interactive {
        ending := ending.(waiting := true);
        return;
      }
      FinishScenario(reason);
    }

    // ---- the timer ------------------------------------------------------------

    method TickArm()
      requires mode.id.Some?
      modifies this
      ensures View() == ArmPhase(config, old(View()))
    {
      hide Retry, Finish, Since;
      if !mode.entered {
        RetryCommand(ActivateName, Activate(mode.id.value), config.commandRetry);
        return;
      }
      RetryCommand(ArmName, Arm, config.armRetry);
      if Since(simNow, simStart) > config.activationTimeout {
        FinishScenario(ArmTimeout);
      }
    }

    method TickLocalTakeoff()
      modifies this
      ensures View() == LocalTakeoff(config, old(View()))
    {
      hide Finish, Since, Send, LocalStateUsable;
      if takeoff.localStartedAt.None? {
        takeoff := takeoff.(localStartedAt := Some(simNow));
      }
      if !LocalStateUsable(config, View()) {
        if Since(simNow, simStart) > config.activationTimeout {
          FinishScenario(LocalTakeoffStateTimeout);
        }
        return;
      }
      if Since(simNow, takeoff.localStartedAt) < config.localPrestream {
        return;
      }
      if !takeoff.offboardRequested {
        PublishCommand(Offboard);
        takeoff := takeoff.(offboardRequested := true);
      }
      takeoff := takeoff.(requested := true);
      takeoff := takeoff.(requestedAt := Some(simNow));
    }

    method TickNativeTakeoff()
      requires takeoff.armAck.Some?
      modifies this
      ensures View() == NativeTakeoff(config, old(View()))
    {
      hide Finish, Since, Send, Nanos, NativeHold, Retry;
      if !takeoff.holdReady {
        if !NativeHold(config, View()) {
          RetryCommand(HoldName, PrepareHold, config.commandRetry);
          return;
        }
        takeoff := takeoff.(holdReady := true);
      }
      if simNow - takeoff.armAck.value < Nanos(config.takeoffSettle) {
        return;
      }
      if readings.altitude.None? {
        if Since(simNow, simStart) > config.activationTimeout {
          FinishScenario(GlobalAltitudeTimeout);
        }
        return;
      }
      PublishCommand(NavTakeoff(readings.altitude.value + config.takeoffAltitude));
      takeoff := takeoff.(requested := true);
      takeoff := takeoff.(requestedAt := Some(simNow));
    }

    method TickActivate(wall: Wall)
      requires mode.id.Some?
      modifies this
      ensures View() == ActivateAirborne(config, old(View()), wall)
    {
      hide Retry, Since, RequestHandover;
      mode := mode.(left := false);
      mode := mode.(leftAt := None);
      if windows.activationStartedAt.None? {
        windows := windows.(activationStartedAt := Some(simNow));
      }
      RetryCommand(ActivateName, Activate(mode.id.value), config.commandRetry);
      if Since(simNow, windows.activationStartedAt) > config.activationTimeout {
        mission := mission.(unexpectedExit := true);
        RecordHandoverRequest(wall);
      }
    }

    method TickTerminal(stableElapsed: real, wall: Wall)
      modifies this
      ensures View() == Terminal(config, old(View()), stableElapsed, wall)
    {
      hide Since, Nanos, Finish, FinishOrWait;
      var hold := Hold(config, View());
      if Since(simNow, mode.enteredAt) > config.missionTimeout {
        FinishScenario(MissionTimeout);
        return;
      }
      if stableElapsed < config.takeoffStable {
        return;
      }
      if watch.diverged {
        FinishOrWaitForHandover(FailedComponent, wall);
        return;
      }
      if mission.complete {
        if hold {
          FinishOrWaitForHandover(Complete, wall);
        } else if mission.completeAt.Some? && simNow - mission.completeAt.value > Nanos(config.holdHandoverTimeout) {
          FinishOrWaitForHandover(HoldHandoverFailed, wall);
        }
        return;
      }
      if mode.state == Some(ModeFailed) {
        if mode.failure || hold {
          FinishOrWaitForHandover(FailedComponent, wall);
        }
        return;
      }
      if mode.state == Some(ModePaused) {
        if mode.reason == Some(SafetyStopReason) || (mode.postTakeoff && hold) {
          FinishOrWaitForHandover(PausedSafetyStop, wall);
        }
        return;
      }
      if mode.left && hold {
        ending := ending.(operatorAborted := true);
        FinishOrWaitForHandover(AbortedOperator, wall);
      }
    }

    method TickWindows(stableElapsed: real, wall: Wall)
      requires mode.id.Some?
      modifies this
      ensures View() == WindowPhase(config, old(View()), stableElapsed, wall)
    {
      hide Stable, Fresh, MayActivate, Since, Terminal, ActivateAirborne;
      if !Stable(config, View()) {
        windows := windows.(stableSince := Some(simNow));
        windows := windows.(readySince := None);
        return;
      }
      if !Fresh(config, View()) {
        windows := windows.(readySince := None);
        return;
      }
      if windows.readySince.None? {
        windows := windows.(readySince := Some(simNow));
        return;
      }
      if MayActivate(config, View()) {
        if stableElapsed < config.takeoffStable || Since(simNow, windows.readySince) < config.odometryStable {
          return;
        }
        TickActivate(wall);
        return;
      }
      TickTerminal(stableElapsed, wall);
    }

    method TickFlight(wall: Wall)
      requires mode.id.Some?
      modifies this
      ensures View() == FlightPhase(config, old(View()), wall)
    {
      hide LocalStateUsable, Airborne, Since, WindowPhase, Finish;
      var stableElapsed := Since(simNow, windows.stableSince);
      if config.localNed && !mode.active && !LocalStateUsable(config, View()) {
        FinishScenario(LocalTakeoffStateInvalid);
        return;
      }
      if !takeoff.observed {
        if Airborne(config, View()) {
          takeoff := takeoff.(observed := true);
          windows := windows.(stableSince := Some(simNow));
        } else if Since(simNow, takeoff.requestedAt) > config.takeoffTimeout {
          FinishModeStays(View(), TakeoffTimeout);
          FinishScenario(TakeoffTimeout);
        } else {
          return;
        }
      }
      TickWindows(stableElapsed, wall);
    }

    method TickMission(wall: Wall)
      modifies this
      ensures View() == MissionPhase(config, old(View()), wall)
    {
      hide Since, Finish, ArmPhase, LocalTakeoff, NativeTakeoff, FlightPhase;
      var elapsed := Since(simNow, simStart);
      if mode.id.None? && elapsed > config.activationTimeout {
        FinishScenario(ActivationTimeout);
        return;
      }
      if config.takeoffAltitude <= 0.5 {
        FinishScenario(InvalidTakeoffConfiguration);
        return;
      }
      if mode.id.None? {
        return;
      }
      if config.manual && !takeoff.armedSeen {
        if elapsed > config.activationTimeout {
          FinishScenario(ManualArmTimeout);
        }
        return;
      }
      if takeoff.armAck.None? && !config.manual {
        TickArm();
        return;
      }
      if !takeoff.requested {
        if config.manual {
          takeoff := takeoff.(requested := true);
          takeoff := takeoff.(requestedAt := Some(simNow));
        } else if config.localNed {
          TickLocalTakeoff();
        } else {
          TickNativeTakeoff();
        }
        return;
      }
      TickFlight(wall);
    }

    method OnTick(wallElapsed: real, wall: Wall)
      requires Valid()
      modifies this
      ensures View() == Step(config, old(View()), TickInput(wallElapsed, wall))
      ensures Valid() && inputs == old(inputs) + [TickInput(wallElapsed, wall)]
    {
      ghost var past := inputs;
      TakeTick(wallElapsed, wall);
      AfterOne(config, past, TickInput(wallElapsed, wall));
      inputs := past + [TickInput(wallElapsed, wall)];
    }

    method TakeTick(wallElapsed: real, wall: Wall)
      modifies this
      ensures View() == Step(config, old(View()), TickInput(wallElapsed, wall))
    {
      hide Stable, Fresh, NativeHold, Finish, MissionPhase;
      record := record.(ticks := record.ticks + [TickSeen(simNow, Stable(config, View()), Fresh(config, View()), NativeHold(config, View()))]);
      if ending.finished || ending.waiting {
        return;
      }
      if wallElapsed > config.wallTimeout {
        FinishScenario(WallTimeout);
        return;
      }
      if simStart.None? {
        return;
      }
      TickMission(wall);
    }

    // ---- callbacks ------------------------------------------------------------

    method OnClockMessage(now: int)
      requires Valid()
      modifies this
      ensures View() == Step(config, old(View()), ClockInput(now))
      ensures Valid() && inputs == old(inputs) + [ClockInput(now)]
    {
      ghost var past := inputs;
      simNow := now;
      if simNow > 0 && simStart.None? {
        simStart := Some(simNow);
      }
      AfterOne(config, past, ClockInput(now));
      inputs := past + [ClockInput(now)];
    }

    method OnStatusMessage(message: Status, armed: bool, advertised: Option<int>, wall: Wall)
      requires Valid()
      modifies this
      ensures View() == Step(config, old(View()), StatusInput(message, armed, advertised, wall))
      ensures Valid() && inputs == old(inputs) + [StatusInput(message, armed, advertised, wall)]
    {
      ghost var past := inputs;
      hide SeeMode, LeftMode;
      var wasActive := mode.active;
      ObserveMode(message, advertised);
      if wasActive && !InMode(View(), message) && !mode.left {
        LeaveMode(wall);
      }
      takeoff := takeoff.(armedSeen := takeoff.armedSeen || armed);
      readings := readings.(status := Some(message));
      AfterOne(config, past, StatusInput(message, armed, advertised, wall));
      inputs := past + [StatusInput(message, armed, advertised, wall)];
    }

    method ObserveMode(message: Status, advertised: Option<int>)
      modifies this
      ensures View() == SeeMode(old(View()), message, advertised)
    {
      if mode.id.None? {
        mode := mode.(id := advertised);
      }
      if InMode(View(), message) {
        if !mode.active {
          mode := mode.(enteredAt := Some(simNow));
        }
        mode := mode.(entered := true, active := true);
        if takeoff.requested && takeoff.observed {
          mode := mode.(postTakeoff := true);
        }
      }
    }

    method LeaveMode(wall: Wall)
      modifies this
      ensures View() == LeftMode(config, old(View()), wall)
    {
      hide Mark, RequestHandover;
      mode := mode.(left := true);
      mode := mode.(leftAt := Some(simNow));
      mode := mode.(active := false);
      var _ := MarkTerminalHandover(wall);
      if takeoff.observed && !mission.complete && !config.failClosed {
        mission := mission.(unexpectedExit := true);
        RecordHandoverRequest(wall);
      }
    }

    method OnPositionMessage(p: Position)
      requires Valid()
      modifies this
      ensures View() == Step(config, old(View()), PositionInput(p))
      ensures Valid() && inputs == old(inputs) + [PositionInput(p)]
    {
      ghost var past := inputs;
      readings := readings.(position := Some(p));
      AfterOne(config, past, PositionInput(p));
      inputs := past + [PositionInput(p)];
    }

    method OnAltitudeMessage(altitude: Option<real>)
      requires Valid()
      modifies this
      ensures View() == Step(config, old(View()), AltitudeInput(altitude))
      ensures Valid() && inputs == old(inputs) + [AltitudeInput(altitude)]
    {
      ghost var past := inputs;
      if altitude.Some? {
        readings := readings.(altitude := altitude);
      }
      AfterOne(config, past, AltitudeInput(altitude));
      inputs := past + [AltitudeInput(altitude)];
    }

    method OnAckMessage(isArm: bool, accepted: bool)
      requires Valid()
      modifies this
      ensures View() == Step(config, old(View()), AckInput(isArm, accepted))
      ensures Valid() && inputs == old(inputs) + [AckInput(isArm, accepted)]
    {
      ghost var past := inputs;
      if isArm && accepted {
        takeoff := takeoff.(armAck := Some(simNow));
        record := record.(acks := record.acks + [simNow]);
      }
      AfterOne(config, past, AckInput(isArm, accepted));
      inputs := past + [AckInput(isArm, accepted)];
    }

    method OnMissionCompleteMessage(done: bool)
      requires Valid()
      modifies this
      ensures View() == Step(config, old(View()), MissionCompleteInput(done))
      ensures Valid() && inputs == old(inputs) + [MissionCompleteInput(done)]
    {
      ghost var past := inputs;
      if done {
        mission := mission.(complete := true);
        mission := mission.(completeAt := Some(simNow));
      }
      AfterOne(config, past, MissionCompleteInput(done));
      inputs := past + [MissionCompleteInput(done)];
    }

    method OnModeStatusMessage(state: ModeState, reason: ModeReason, wall: Wall)
      requires Valid()
      modifies this
      ensures View() == Step(config, old(View()), ModeStatusInput(state, reason, wall))
      ensures Valid() && inputs == old(inputs) + [ModeStatusInput(state, reason, wall)]
    {
      ghost var past := inputs;
      TakeModeStatus(state, reason, wall);
      AfterOne(config, past, ModeStatusInput(state, reason, wall));
      inputs := past + [ModeStatusInput(state, reason, wall)];
    }

    method TakeModeStatus(state: ModeState, reason: ModeReason, wall: Wall)
      modifies this
      ensures View() == Step(config, old(View()), ModeStatusInput(state, reason, wall))
    {
      hide Mark;
      mode := mode.(state := Some(state));
      mode := mode.(reason := Some(reason));
      if state.ModePaused? && reason.SafetyStopReason? {
        mission := mission.(safetyStop := true);
        if mission.safetyStopAt.None? {
          mission := mission.(safetyStopAt := Some(simNow));
        }
        var _ := MarkTerminalHandover(wall);
      }
    }

    method OnModeCompletedMessage(nav: int, failed: bool, wall: Wall)
      requires Valid()
      modifies this
      ensures View() == Step(config, old(View()), ModeCompletedInput(nav, failed, wall))
      ensures Valid() && inputs == old(inputs) + [ModeCompletedInput(nav, failed, wall)]
    {
      ghost var past := inputs;
      TakeModeCompleted(nav, failed, wall);
      AfterOne(config, past, ModeCompletedInput(nav, failed, wall));
      inputs := past + [ModeCompletedInput(nav, failed, wall)];
    }

    method TakeModeCompleted(nav: int, failed: bool, wall: Wall)
      modifies this
      ensures View() == Step(config, old(View()), ModeCompletedInput(nav, failed, wall))
    {
      hide Mark;
      if mode.id.Some? && nav == mode.id.value {
        mode := mode.(failure := failed);
        if mode.failure && !mission.complete {
          if config.failClosed {
            var _ := MarkTerminalHandover(wall);
          } else {
            mission := mission.(unexpectedExit := true);
          }
          var _ := MarkTerminalHandover(wall);
        }
      }
    }

    method UpdateLocalizationWatchdog(position: real, velocity: real, wall: Wall)
      modifies this
      ensures View() == Watchdog(config, old(View()), position, velocity, wall)
    {
      hide RequestHandover;
      if !mode.postTakeoff || readings.odometryStamp.None? || readings.truthStamp.None? {
        return;
      }
      var skew := readings.odometryStamp.value - readings.truthStamp.value;
      if skew > 40000000 || -skew > 40000000 {
        return;
      }
      if !watch.originSet {
        watch := watch.(originSet := true);
        return;
      }
      if mission.complete {
        return;
      }
      var exceeded := (if config.failClosed then position > 0.45 else position > 0.5 && velocity > 0.75) || velocity > 1.0;
      if !exceeded {
        watch := watch.(divergenceAt := None);
      } else if watch.divergenceAt.None? {
        watch := watch.(divergenceAt := Some(simNow));
      } else if (config.failClosed || simNow - watch.divergenceAt.value >= 500000000) && !watch.diverged {
        watch := watch.(diverged := true);
        RecordHandoverRequest(wall);
      }
    }

    method OnOdometryMessage(usable: bool, stamp: int, position: real, velocity: real, wall: Wall)
      requires Valid()
      modifies this
      ensures View() == Step(config, old(View()), OdometryInput(usable, stamp, position, velocity, wall))
      ensures Valid() && inputs == old(inputs) + [OdometryInput(usable, stamp, position, velocity, wall)]
    {
      ghost var past := inputs;
      hide Watchdog;
      if usable {
        readings := readings.(odometryStamp := Some(stamp));
        UpdateLocalizationWatchdog(position, velocity, wall);
      }
      AfterOne(config, past, OdometryInput(usable, stamp, position, velocity, wall));
      inputs := past + [OdometryInput(usable, stamp, position, velocity, wall)];
    }

    method OnTruthMessage(usable: bool, stamp: int, position: real, velocity: real, wall: Wall)
      requires Valid()
      modifies this
      ensures View() == Step(config, old(View()), TruthInput(usable, stamp, position, velocity, wall))
      ensures Valid() && inputs == old(inputs) + [TruthInput(usable, stamp, position, velocity, wall)]
    {
      ghost var past := inputs;
      hide Watchdog;
      if usable {
        readings := readings.(truthStamp := Some(stamp));
        UpdateLocalizationWatchdog(position, velocity, wall);
      }
      AfterOne(config, past, TruthInput(usable, stamp, position, velocity, wall));
      inputs := past + [TruthInput(usable, stamp, position, velocity, wall)];
    }

    method OnInterrupt()
      requires Valid()
      modifies this
      ensures View() == Step(config, old(View()), InterruptInput)
      ensures Valid() && inputs == old(inputs) + [InterruptInput]
    {
      ghost var past := inputs;
      FinishScenario(if ending.outcome.Some? then ending.outcome.value else Interrupted);
      AfterOne(config, past, InterruptInput);
      inputs := past + [InterruptInput];
    }
  }

  lemma AfterOne(c: Config, past: seq<Input>, i: Input)
    ensures After(c, past + [i]) == Step(c, After(c, past), i)
  {
    assert (past + [i])[..|past|] == past;
    hide Step;
  }

  lemma FinishModeStays(s: State, outcome: Outcome)
    ensures Finish(s, outcome).mode == s.mode
  {
  }
}
