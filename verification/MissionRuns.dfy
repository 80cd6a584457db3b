/** Whole mission runs: every interleaving of callbacks and ticks from the start. */
module MissionRuns {
  import opened Values
  import opened MissionSteps
  import opened MissionSafety

  // ---- callbacks keep the invariant -------------------------------------------

  /** A step that touches neither windows nor what commands are judged by. */
  lemma QuietKeeps(c: Config, s: State, t: State)
    requires Inv(c, s) && t.history == s.history && t.ending == s.ending && t.windows == s.windows
    requires TakeoffInOrder(c, t) && t.takeoff.observed == s.takeoff.observed && t.takeoff.requested == s.takeoff.requested
    ensures Inv(c, t)
  {
    BaseSame(c, s, t);
    hide Base, StableWindow, ReadyWindow;
  }

  /** Marking or requesting the handover does not touch the windows either. */
  lemma MarkedKeeps(c: Config, s: State, t: State)
    requires Inv(c, s) && Base(c, t) && t.takeoff.observed == s.takeoff.observed && t.windows == s.windows
    requires t.history.ticks == s.history.ticks && (Live(t) <==> Live(s))
    ensures Inv(c, t)
  {
    hide Base, StableWindow, ReadyWindow;
  }

  lemma ClockKeeps(c: Config, s: State, now: int)
    requires Inv(c, s)
    ensures Inv(c, OnClock(s, now))
  {
    hide SentLawfully, OutcomeSettled, MarkersAgree, HoldSeen, StableWindow, ReadyWindow;
    QuietKeeps(c, s, OnClock(s, now));
  }

  lemma AckKeeps(c: Config, s: State, isArm: bool, accepted: bool)
    requires Inv(c, s)
    ensures Inv(c, OnAck(s, isArm, accepted))
  {
    hide Lawful, Earned, HoldSeen, StableWindow, ReadyWindow;
    var t := OnAck(s, isArm, accepted);
    forall i | 0 <= i < |s.history.sent| ensures Lawful(c, t.history, s.history.sent[i]) {
      AckedLawful(c, s.history, s.now, s.history.sent[i]);
    }
    if s.history.outcomes != [] {
      AckedEarned(c, s.history, s.now, s.history.outcomes[0]);
    }
  }

  lemma AckedLawful(c: Config, h: History, now: int, e: Sent)
    requires Lawful(c, h, e)
    ensures Lawful(c, h.(acks := h.acks + [now]), e)
  {
    hide HoldSeen, WindowsAreLong;
  }

  lemma AckedEarned(c: Config, h: History, now: int, e: Assigned)
    requires Earned(c, h, e)
    ensures Earned(c, h.(acks := h.acks + [now]), e)
  {
    hide StableWindow;
  }

  lemma LeftKeeps(c: Config, s: State, wall: Wall)
    requires Inv(c, s)
    ensures Inv(c, LeftMode(c, s, wall))
    ensures var t := LeftMode(c, s, wall); t.history.ticks == s.history.ticks && t.mode.id == s.mode.id
  {
    hide SentLawfully, OutcomeSettled, MarkersAgree, HoldSeen, StableWindow, ReadyWindow, Mark, RequestHandover, Inv;
    var s1 := s.(mode := s.mode.(left := true, leftAt := Some(s.now), active := false));
    InvParts(c, s);
    QuietKeeps(c, s, s1);
    InvParts(c, s1);
    MarkKeeps(c, s1, wall);
    var t := Mark(s1, wall);
    MarkedKeeps(c, s1, t);
    MarkShape(s1, wall);
    var u := t.(mission := t.mission.(unexpectedExit := true));
    BaseSame(c, t, u);
    HandoverKeeps(c, u, wall);
    HandoverShape(u, wall);
    MarkedKeeps(c, s1, RequestHandover(u, wall));
  }

  lemma InvParts(c: Config, s: State)
    requires Inv(c, s)
    ensures Base(c, s)
  {
  }

  lemma MarkShape(s: State, wall: Wall)
    ensures Mark(s, wall).mode == s.mode && Mark(s, wall).mission == s.mission
  {
  }

  lemma HandoverShape(s: State, wall: Wall)
    ensures RequestHandover(s, wall).mode == s.mode
  {
  }

  lemma ModeKeeps(c: Config, s: State, m: Mode)
    requires Inv(c, s) && (s.mode.id.Some? ==> m.id == s.mode.id)
    ensures Inv(c, s.(mode := m))
  {
    hide SentLawfully, OutcomeSettled, MarkersAgree, HoldSeen, StableWindow, ReadyWindow;
    QuietKeeps(c, s, s.(mode := m));
  }

  lemma StatusReadKeeps(c: Config, u: State, armed: bool, message: Status)
    requires Inv(c, u)
    ensures Inv(c, u.(takeoff := u.takeoff.(armedSeen := u.takeoff.armedSeen || armed), readings := u.readings.(status := Some(message))))
  {
    hide SentLawfully, OutcomeSettled, MarkersAgree, HoldSeen, StableWindow, ReadyWindow;
    QuietKeeps(c, u, u.(takeoff := u.takeoff.(armedSeen := u.takeoff.armedSeen || armed), readings := u.readings.(status := Some(message))));
  }

  lemma StatusKeeps(c: Config, s0: State, message: Status, armed: bool, advertised: Option<int>, wall: Wall)
    requires Inv(c, s0)
    ensures Inv(c, OnStatus(c, s0, message, armed, advertised, wall))
  {
    hide Inv, LeftMode;
    var t := SeeMode(s0, message, advertised);
    ModeKeeps(c, s0, t.mode);
    LeftKeeps(c, t, wall);
    var u := if s0.mode.active && !InMode(t, message) && !t.mode.left then LeftMode(c, t, wall) else t;
    StatusReadKeeps(c, u, armed, message);
  }

  lemma ModeStatusKeeps(c: Config, s: State, state: ModeState, reason: ModeReason, wall: Wall)
    requires Inv(c, s)
    ensures Inv(c, OnModeStatus(s, state, reason, wall))
  {
    hide SentLawfully, OutcomeSettled, MarkersAgree, HoldSeen, StableWindow, ReadyWindow, Mark, Inv;
    InvParts(c, s);
    var t := s.(mode := s.mode.(state := Some(state), reason := Some(reason)));
    QuietKeeps(c, s, t);
    var u := t.(mission := t.mission.(safetyStop := true, safetyStopAt := if t.mission.safetyStopAt.None? then Some(t.now) else t.mission.safetyStopAt));
    QuietKeeps(c, t, u);
    InvParts(c, u);
    MarkKeeps(c, u, wall);
    MarkedKeeps(c, u, Mark(u, wall));
  }

  lemma ModeCompletedKeeps(c: Config, s: State, nav: int, failed: bool, wall: Wall)
    requires Inv(c, s)
    ensures Inv(c, OnModeCompleted(c, s, nav, failed, wall))
  {
    hide SentLawfully, OutcomeSettled, MarkersAgree, HoldSeen, StableWindow, ReadyWindow, Mark, Inv;
    InvParts(c, s);
    var t := s.(mode := s.mode.(failure := failed));
    QuietKeeps(c, s, t);
    InvParts(c, t);
    MarkKeeps(c, t, wall);
    var m := Mark(t, wall);
    MarkKeeps(c, m, wall);
    MarkedKeeps(c, t, Mark(m, wall));
    var u := t.(mission := t.mission.(unexpectedExit := true));
    QuietKeeps(c, t, u);
    InvParts(c, u);
    MarkKeeps(c, u, wall);
    MarkedKeeps(c, u, Mark(u, wall));
  }

  lemma WatchdogKeeps(c: Config, s: State, position: real, velocity: real, wall: Wall)
    requires Inv(c, s)
    ensures Inv(c, Watchdog(c, s, position, velocity, wall))
  {
    hide SentLawfully, OutcomeSettled, MarkersAgree, HoldSeen, StableWindow, ReadyWindow, RequestHandover, Inv;
    InvParts(c, s);
    forall w: Watch ensures Inv(c, s.(watch := w)) && Inv(c, RequestHandover(s.(watch := w), wall)) {
      var t := s.(watch := w);
      QuietKeeps(c, s, t);
      InvParts(c, t);
      HandoverKeeps(c, t, wall);
      MarkedKeeps(c, t, RequestHandover(t, wall));
    }
  }

  lemma ReadingKeeps(c: Config, s: State, r: Readings)
    requires Inv(c, s)
    ensures Inv(c, s.(readings := r))
  {
    hide SentLawfully, OutcomeSettled, MarkersAgree, HoldSeen, StableWindow, ReadyWindow;
    QuietKeeps(c, s, s.(readings := r));
  }

  lemma CompleteKeeps(c: Config, s: State, done: bool)
    requires Inv(c, s)
    ensures Inv(c, OnMissionComplete(s, done))
  {
    hide SentLawfully, OutcomeSettled, MarkersAgree, HoldSeen, StableWindow, ReadyWindow;
    QuietKeeps(c, s, OnMissionComplete(s, done));
  }

  lemma InterruptKeeps(c: Config, s: State, outcome: Outcome)
    requires Inv(c, s)
    ensures Inv(c, Finish(s, outcome))
  {
    hide Base, Finish, WindowsOpen;
    FinishKeeps(c, s, outcome);
    EndedIsInvariant(c, Finish(s, outcome));
  }

  /** Every step keeps the invariant. */
  lemma StepKeeps(c: Config, s: State, i: Input)
    requires Inv(c, s)
    ensures Inv(c, Step(c, s, i))
  {
    hide Inv, OnClock, Watchdog, OnStatus, OnAck, OnMissionComplete, OnModeStatus, OnModeCompleted, Tick, Finish;
    match i
    case ClockInput(now) => ClockKeeps(c, s, now);
    case OdometryInput(_, stamp, position, velocity, wall) =>
      ReadingKeeps(c, s, s.readings.(odometryStamp := Some(stamp)));
      WatchdogKeeps(c, s.(readings := s.readings.(odometryStamp := Some(stamp))), position, velocity, wall);
    case TruthInput(_, stamp, position, velocity, wall) =>
      ReadingKeeps(c, s, s.readings.(truthStamp := Some(stamp)));
      WatchdogKeeps(c, s.(readings := s.readings.(truthStamp := Some(stamp))), position, velocity, wall);
    case StatusInput(message, armed, advertised, wall) => StatusKeeps(c, s, message, armed, advertised, wall);
    case PositionInput(p) => ReadingKeeps(c, s, s.readings.(position := Some(p)));
    case AltitudeInput(altitude) => ReadingKeeps(c, s, s.readings.(altitude := altitude));
    case AckInput(isArm, accepted) => AckKeeps(c, s, isArm, accepted);
    case MissionCompleteInput(done) => CompleteKeeps(c, s, done);
    case ModeStatusInput(state, reason, wall) => ModeStatusKeeps(c, s, state, reason, wall);
    case ModeCompletedInput(nav, failed, wall) => ModeCompletedKeeps(c, s, nav, failed, wall);
    case TickInput(wallElapsed, wall) => TickKeeps(c, s, wallElapsed, wall);
    case InterruptInput => InterruptKeeps(c, s, if s.ending.outcome.Some? then s.ending.outcome.value else Interrupted);
  }

  lemma StartIsSafe(c: Config)
    ensures Inv(c, START)
  {
  }

  lemma {:induction false} RunIsSafe(c: Config, inputs: seq<Input>)
    ensures Inv(c, After(c, inputs))
  {
    hide Inv, Step;
    if inputs == [] {
      StartIsSafe(c);
    } else {
      RunIsSafe(c, inputs[..|inputs| - 1]);
      StepKeeps(c, After(c, inputs[..|inputs| - 1]), inputs[|inputs| - 1]);
    }
  }

  // ---- main results -----------------------------------------------------------

  /** Command discipline. In every run, each vehicle command was sent while the scenario was
      neither finished nor waiting for handover, and not after an unexpected mode exit in
      flight; NAV_TAKEOFF was sent at most once, and only after an arm acknowledgement, an
      observed native Hold and the settle delay. */
  lemma CommandDiscipline(c: Config, inputs: seq<Input>)
    ensures var h := After(c, inputs).history;
            && (forall e | e in h.sent ::
                  && !e.facts.finished && !e.facts.waiting && !(e.facts.takeoffObserved && e.facts.unexpectedExit)
                  && e.facts.ticks <= |h.ticks|
                  && (e.command.NavTakeoff? ==> TakeoffIsReady(c, h.ticks[..e.facts.ticks], h.acks, e.facts)))
            && (forall i, j :: 0 <= i < j < |h.sent| ==> !(h.sent[i].command.NavTakeoff? && h.sent[j].command.NavTakeoff?))
  {
    RunIsSafe(c, inputs);
    hide After, TakeoffIsReady, WindowsAreLong, OutcomeSettled, MarkersAgree, TakeoffInOrder, WindowsOpen;
  }

  /** The whole-run window property: each External Mode activation sent after takeoff was
      observed found every tick since the start of the stable window within the speed limit,
      every tick of the odometry window fresh as well, and both windows long enough. */
  lemma ActivationNeedsWindows(c: Config, inputs: seq<Input>, e: Sent)
    requires e in After(c, inputs).history.sent && e.command.Activate? && e.facts.takeoffObserved
    ensures e.facts.ticks <= |After(c, inputs).history.ticks|
    ensures WindowsAreLong(c, After(c, inputs).history.ticks[..e.facts.ticks], e.facts)
  {
    RunIsSafe(c, inputs);
    hide After, TakeoffIsReady, WindowsAreLong, OutcomeSettled, MarkersAgree, TakeoffInOrder, WindowsOpen;
  }

  /** The terminal outcome is assigned at most once, and the report follows it. COMPLETE was
      assigned with takeoff and mission completion observed, PX4 in Hold, no divergence and a
      satisfied stable window. All recorded handover markers carry one value. */
  lemma TerminalOutcome(c: Config, inputs: seq<Input>)
    ensures var s := After(c, inputs);
            && |s.history.outcomes| <= 1
            && (s.ending.outcome.Some? ==>
                  |s.history.outcomes| == 1 && s.history.outcomes[0].outcome == s.ending.outcome.value &&
                  Earned(c, s.history, s.history.outcomes[0]))
            && (s.ending.finished && s.ending.outcome.Some? ==> s.ending.reported == s.ending.outcome)
            && (forall m | m in s.history.markers && m.Some? :: m == s.ending.wall)
  {
    RunIsSafe(c, inputs);
    hide After, Earned, SentLawfully, TakeoffInOrder, WindowsOpen;
  }

  // ---- what never changes back ------------------------------------------------

  /** Once the scenario is over or waits, it stays so and sends nothing; outcome and handover
      boundary, once set, stay. */
  ghost predicate Settles(s: State, t: State) {
    && (s.ending.finished ==> t.ending.finished) && (s.ending.waiting ==> t.ending.waiting)
    && (!Live(s) ==> t.history.sent == s.history.sent && t.history.outcomes == s.history.outcomes && t.ending.outcome == s.ending.outcome)
    && (s.ending.wall.Some? && s.ending.wall.value > 0 ==> t.ending.wall == s.ending.wall)
  }

  lemma SettlesOnward(s: State, t: State, u: State)
    requires Settles(s, t) && Settles(t, u)
    ensures Settles(s, u)
  {
  }

  lemma EndedTickSettles(c: Config, s: State, wallElapsed: real, wall: Wall)
    requires !Live(s)
    ensures Settles(s, Tick(c, s, wallElapsed, wall))
  {
    hide Stable, Fresh, NativeHold, MissionPhase, Finish;
  }

  lemma MarkSettles(s: State, wall: Wall)
    ensures Settles(s, Mark(s, wall)) && Mark(s, wall).ending.outcome == s.ending.outcome
    ensures Mark(s, wall).history.sent == s.history.sent && Mark(s, wall).history.outcomes == s.history.outcomes
  {
  }

  lemma HandoverSettles(s: State, wall: Wall)
    ensures Settles(s, RequestHandover(s, wall))
  {
    MarkSettles(s, wall);
    MarkSettles(s.(mission := s.mission.(handoverAt := Some(s.now))), wall);
    hide Mark;
  }

  /** The handover boundary, once set, stays. */
  ghost predicate WallKept(s: State, t: State) {
    s.ending.wall.Some? && s.ending.wall.value > 0 ==> t.ending.wall == s.ending.wall
  }

  lemma RetryWall(s: State, name: Name, command: Command, period: real)
    ensures Retry(s, name, command, period).ending == s.ending
  {
    hide Nanos, LastSent, FactsOf;
  }

  lemma FinishWall(s: State, outcome: Outcome)
    ensures Finish(s, outcome).ending.wall == s.ending.wall
  {
  }

  lemma GroundWall(c: Config, s: State)
    requires s.mode.id.Some?
    ensures (!c.manual ==> s.takeoff.armAck.Some?) ==> WallKept(s, RequestTakeoff(c, s))
  {
    hide Retry, Finish, Since, Nanos, NativeHold, LocalStateUsable, FactsOf;
    RetryWall(s, HoldName, PrepareHold, c.commandRetry);
    forall t: State, o: Outcome ensures Finish(t, o).ending.wall == t.ending.wall { FinishWall(t, o); }
  }

  lemma ArmWall(c: Config, s: State)
    requires s.mode.id.Some?
    ensures WallKept(s, ArmPhase(c, s))
  {
    hide Retry, Finish, Since;
    RetryWall(s, ActivateName, Activate(s.mode.id.value), c.commandRetry);
    RetryWall(s, ArmName, Arm, c.armRetry);
    FinishWall(Retry(s, ArmName, Arm, c.armRetry), ArmTimeout);
  }

  lemma FinishOrWaitWall(c: Config, s: State, outcome: Outcome, wall: Wall)
    ensures WallKept(s, FinishOrWait(c, s, outcome, wall))
  {
    hide FactsOf, Finish;
    forall t: State ensures Finish(t, outcome).ending.wall == t.ending.wall { FinishWall(t, outcome); }
  }

  lemma WindowWall(c: Config, s: State, stableElapsed: real, wall: Wall)
    requires s.mode.id.Some?
    ensures WallKept(s, WindowPhase(c, s, stableElapsed, wall))
  {
    hide Stable, Fresh, MayActivate, Since, ActivateAirborne, Terminal;
    ActivateWall(c, s, wall);
    TerminalWall(c, s, stableElapsed, wall);
  }

  lemma ActivateWall(c: Config, s0: State, wall: Wall)
    requires s0.mode.id.Some?
    ensures WallKept(s0, ActivateAirborne(c, s0, wall))
  {
    hide Retry, RequestHandover, Since;
    var s := s0.(mode := s0.mode.(left := false, leftAt := None),
                 windows := if s0.windows.activationStartedAt.None? then s0.windows.(activationStartedAt := Some(s0.now)) else s0.windows);
    RetryWall(s, ActivateName, Activate(s.mode.id.value), c.commandRetry);
    var t := Retry(s, ActivateName, Activate(s.mode.id.value), c.commandRetry);
    HandoverSettles(t.(mission := t.mission.(unexpectedExit := true)), wall);
  }

  lemma TerminalWall(c: Config, s: State, stableElapsed: real, wall: Wall)
    ensures WallKept(s, Terminal(c, s, stableElapsed, wall))
  {
    hide FinishOrWait, Finish, Since, Nanos, Hold;
    FinishWall(s, MissionTimeout);
    var r := s.(ending := s.ending.(operatorAborted := true));
    forall o: Outcome ensures WallKept(s, FinishOrWait(c, s, o, wall)) && WallKept(r, FinishOrWait(c, r, o, wall)) {
      FinishOrWaitWall(c, s, o, wall);
      FinishOrWaitWall(c, r, o, wall);
    }
  }

  lemma FlightWall(c: Config, s: State, wall: Wall)
    requires s.mode.id.Some?
    ensures WallKept(s, FlightPhase(c, s, wall))
  {
    hide WindowPhase, Finish, Since, Airborne, LocalStateUsable;
    var e := Since(s.now, s.windows.stableSince);
    FinishWall(s, LocalTakeoffStateInvalid);
    FinishWall(s, TakeoffTimeout);
    FinishMode(s, TakeoffTimeout);
    WindowWall(c, s, e, wall);
    WindowWall(c, s.(takeoff := s.takeoff.(observed := true), windows := s.windows.(stableSince := Some(s.now))), e, wall);
    WindowWall(c, Finish(s, TakeoffTimeout), e, wall);
  }

  lemma FinishMode(s: State, outcome: Outcome)
    ensures Finish(s, outcome).mode == s.mode
  {
  }

  lemma TickWall(c: Config, s: State, wallElapsed: real, wall: Wall)
    ensures WallKept(s, Tick(c, s, wallElapsed, wall))
  {
    hide Stable, Fresh, NativeHold, Since, Finish, ArmPhase, RequestTakeoff, FlightPhase;
    var n := Noted(c, s);
    forall o: Outcome ensures Finish(n, o).ending.wall == n.ending.wall { FinishWall(n, o); }
    if n.mode.id.Some? {
      ArmWall(c, n);
      GroundWall(c, n);
      FlightWall(c, n, wall);
    }
  }

  lemma StepSettles(c: Config, s: State, i: Input)
    ensures Settles(s, Step(c, s, i))
  {
    hide Tick, Mark, RequestHandover, Finish;
    match i
    case TickInput(wallElapsed, wall) =>
      TickWall(c, s, wallElapsed, wall);
      if !Live(s) { EndedTickSettles(c, s, wallElapsed, wall); }
    case InterruptInput =>
      FinishSettles(s, if s.ending.outcome.Some? then s.ending.outcome.value else Interrupted);
    case OdometryInput(_, stamp, position, velocity, wall) =>
      WatchdogSettles(c, s.(readings := s.readings.(odometryStamp := Some(stamp))), position, velocity, wall);
    case TruthInput(_, stamp, position, velocity, wall) =>
      WatchdogSettles(c, s.(readings := s.readings.(truthStamp := Some(stamp))), position, velocity, wall);
    case StatusInput(message, armed, advertised, wall) => StatusSettles(c, s, message, armed, advertised, wall);
    case ModeStatusInput(state, reason, wall) => ModeStatusSettles(s, state, reason, wall);
    case ModeCompletedInput(nav, failed, wall) => ModeCompletedSettles(c, s, nav, failed, wall);
    case _ =>
  }

  lemma FinishSettles(s: State, outcome: Outcome)
    ensures Settles(s, Finish(s, outcome))
  {
  }

  lemma WatchdogSettles(c: Config, s: State, position: real, velocity: real, wall: Wall)
    ensures Settles(s, Watchdog(c, s, position, velocity, wall))
  {
    hide RequestHandover;
    HandoverSettles(s.(watch := s.watch.(diverged := true)), wall);
  }

  lemma LeftSettles(c: Config, s: State, wall: Wall)
    ensures Settles(s, LeftMode(c, s, wall))
  {
    hide Mark, RequestHandover;
    var s1 := s.(mode := s.mode.(left := true, leftAt := Some(s.now), active := false));
    MarkSettles(s1, wall);
    var t := Mark(s1, wall);
    var u := t.(mission := t.mission.(unexpectedExit := true));
    HandoverSettles(u, wall);
    assert Settles(s, t) && Settles(t, u);
    SettlesOnward(s, t, u);
    SettlesOnward(s, u, RequestHandover(u, wall));
  }

  lemma StatusSettles(c: Config, s0: State, message: Status, armed: bool, advertised: Option<int>, wall: Wall)
    ensures Settles(s0, OnStatus(c, s0, message, armed, advertised, wall))
  {
    hide LeftMode;
    LeftSettles(c, SeeMode(s0, message, advertised), wall);
  }

  lemma ModeStatusSettles(s: State, state: ModeState, reason: ModeReason, wall: Wall)
    ensures Settles(s, OnModeStatus(s, state, reason, wall))
  {
    hide Mark;
    var t := s.(mode := s.mode.(state := Some(state), reason := Some(reason)));
    MarkSettles(t.(mission := t.mission.(safetyStop := true, safetyStopAt := if t.mission.safetyStopAt.None? then Some(t.now) else t.mission.safetyStopAt)), wall);
  }

  lemma ModeCompletedSettles(c: Config, s: State, nav: int, failed: bool, wall: Wall)
    ensures Settles(s, OnModeCompleted(c, s, nav, failed, wall))
  {
    hide Mark;
    var t := s.(mode := s.mode.(failure := failed));
    MarkSettles(t, wall);
    MarkSettles(Mark(t, wall), wall);
    SettlesOnward(t, Mark(t, wall), Mark(Mark(t, wall), wall));
    MarkSettles(t.(mission := t.mission.(unexpectedExit := true)), wall);
  }

  /** After any prefix of a run that ended or waits for handover, the rest of the run sends
      no command and assigns no outcome; outcome and handover boundary, once set, are final. */
  lemma {:induction false} PrefixSettles(c: Config, inputs: seq<Input>, n: nat)
    requires n <= |inputs|
    ensures Settles(After(c, inputs[..n]), After(c, inputs))
  {
    hide Settles, Step;
    if n == |inputs| {
      assert inputs[..n] == inputs;
      SettlesSame(After(c, inputs));
    } else {
      var m := |inputs| - 1;
      assert inputs[..m][..n] == inputs[..n];
      PrefixSettles(c, inputs[..m], n);
      StepSettles(c, After(c, inputs[..m]), inputs[m]);
      SettlesOnward(After(c, inputs[..n]), After(c, inputs[..m]), After(c, inputs));
    }
  }

  lemma SettlesSame(s: State)
    ensures Settles(s, s)
  {
  }

  // ---- after an unexpected exit in flight -------------------------------------

  ghost predicate Abandoned(s: State) {
    s.takeoff.observed && s.mission.unexpectedExit
  }

  /** Still abandoned, and nothing sent in between. */
  ghost predicate StaysSilent(s: State, t: State) {
    Abandoned(t) && t.history.sent == s.history.sent
  }

  lemma FinishSilent(s: State, outcome: Outcome)
    requires Abandoned(s)
    ensures StaysSilent(s, Finish(s, outcome))
  {
  }

  lemma MarkSilent(s: State, wall: Wall)
    requires Abandoned(s)
    ensures StaysSilent(s, Mark(s, wall)) && StaysSilent(s, RequestHandover(s, wall))
  {
  }

  lemma FinishOrWaitSilent(c: Config, s: State, outcome: Outcome, wall: Wall)
    requires Abandoned(s)
    ensures StaysSilent(s, FinishOrWait(c, s, outcome, wall))
  {
    hide FactsOf;
  }

  lemma TerminalSilent(c: Config, s: State, stableElapsed: real, wall: Wall)
    requires Abandoned(s)
    ensures StaysSilent(s, Terminal(c, s, stableElapsed, wall))
  {
    hide FinishOrWait, Finish, Since, Nanos, Hold;
    FinishSilent(s, MissionTimeout);
    var r := s.(ending := s.ending.(operatorAborted := true));
    forall o: Outcome ensures StaysSilent(s, FinishOrWait(c, s, o, wall)) && StaysSilent(r, FinishOrWait(c, r, o, wall)) {
      FinishOrWaitSilent(c, s, o, wall);
      FinishOrWaitSilent(c, r, o, wall);
    }
  }

  lemma FlightSilent(c: Config, s: State, wall: Wall)
    requires Abandoned(s) && s.mode.id.Some?
    ensures StaysSilent(s, FlightPhase(c, s, wall))
  {
    hide LocalStateUsable, Since, Stable, Fresh, Terminal, Finish;
    FinishSilent(s, LocalTakeoffStateInvalid);
    TerminalSilent(c, s, Since(s.now, s.windows.stableSince), wall);
  }

  lemma TickSilent(c: Config, s: State, wallElapsed: real, wall: Wall)
    requires TakeoffInOrder(c, s) && Abandoned(s)
    ensures StaysSilent(s, Tick(c, s, wallElapsed, wall))
  {
    hide HoldSeen, Stable, Fresh, NativeHold, Since, Finish, FlightPhase;
    var n := Noted(c, s);
    FinishSilent(n, WallTimeout);
    FlightSilent(c, n, wall);
  }

  lemma WatchdogSilent(c: Config, s: State, position: real, velocity: real, wall: Wall)
    requires Abandoned(s)
    ensures StaysSilent(s, Watchdog(c, s, position, velocity, wall))
  {
    hide RequestHandover;
    MarkSilent(s.(watch := s.watch.(diverged := true)), wall);
  }

  lemma StatusSilent(c: Config, s: State, message: Status, armed: bool, advertised: Option<int>, wall: Wall)
    requires Abandoned(s)
    ensures StaysSilent(s, OnStatus(c, s, message, armed, advertised, wall))
  {
    hide LeftMode;
    LeftSilent(c, SeeMode(s, message, advertised), wall);
  }

  lemma LeftSilent(c: Config, s: State, wall: Wall)
    requires Abandoned(s)
    ensures StaysSilent(s, LeftMode(c, s, wall))
  {
    hide Mark, RequestHandover;
    var s1 := s.(mode := s.mode.(left := true, leftAt := Some(s.now), active := false));
    MarkSilent(s1, wall);
    var t := Mark(s1, wall);
    MarkSilent(t.(mission := t.mission.(unexpectedExit := true)), wall);
  }

  lemma ModeMessagesSilent(c: Config, s: State, state: ModeState, reason: ModeReason, nav: int, failed: bool, wall: Wall)
    requires Abandoned(s)
    ensures StaysSilent(s, OnModeStatus(s, state, reason, wall)) && StaysSilent(s, OnModeCompleted(c, s, nav, failed, wall))
  {
    hide Mark;
    var t := s.(mode := s.mode.(state := Some(state), reason := Some(reason)));
    MarkSilent(t.(mission := t.mission.(safetyStop := true, safetyStopAt := if t.mission.safetyStopAt.None? then Some(t.now) else t.mission.safetyStopAt)), wall);
    var u := s.(mode := s.mode.(failure := failed));
    MarkSilent(u, wall);
    MarkSilent(Mark(u, wall), wall);
    MarkSilent(u.(mission := u.mission.(unexpectedExit := true)), wall);
  }

  lemma StepSilent(c: Config, s: State, i: Input)
    requires TakeoffInOrder(c, s) && Abandoned(s)
    ensures StaysSilent(s, Step(c, s, i))
  {
    hide TakeoffInOrder, Tick, Finish, Watchdog, OnStatus, OnModeStatus, OnModeCompleted;
    match i
    case TickInput(wallElapsed, wall) => TickSilent(c, s, wallElapsed, wall);
    case InterruptInput => FinishSilent(s, if s.ending.outcome.Some? then s.ending.outcome.value else Interrupted);
    case OdometryInput(_, stamp, position, velocity, wall) =>
      WatchdogSilent(c, s.(readings := s.readings.(odometryStamp := Some(stamp))), position, velocity, wall);
    case TruthInput(_, stamp, position, velocity, wall) =>
      WatchdogSilent(c, s.(readings := s.readings.(truthStamp := Some(stamp))), position, velocity, wall);
    case StatusInput(message, armed, advertised, wall) => StatusSilent(c, s, message, armed, advertised, wall);
    case ModeStatusInput(state, reason, wall) => ModeMessagesSilent(c, s, state, reason, 0, false, wall);
    case ModeCompletedInput(nav, failed, wall) => ModeMessagesSilent(c, s, ModeOther, OtherReason, nav, failed, wall);
    case _ =>
  }

  lemma InvHasOrder(c: Config, s: State)
    requires Inv(c, s)
    ensures TakeoffInOrder(c, s)
  {
  }

  /** Once takeoff was observed and an unexpected mode exit was latched, the rest of the run
      sends no command at all. */
  lemma {:induction false} UnexpectedExitIsFinal(c: Config, inputs: seq<Input>, n: nat)
    requires n <= |inputs| && Abandoned(After(c, inputs[..n]))
    ensures StaysSilent(After(c, inputs[..n]), After(c, inputs))
  {
    hide Inv, Step, TakeoffInOrder;
    if n == |inputs| {
      assert inputs[..n] == inputs;
    } else {
      var m := |inputs| - 1;
      assert inputs[..m][..n] == inputs[..n];
      UnexpectedExitIsFinal(c, inputs[..m], n);
      RunIsSafe(c, inputs[..m]);
      InvHasOrder(c, After(c, inputs[..m]));
      StepSilent(c, After(c, inputs[..m]), inputs[m]);
    }
  }
}
