/** What holds in every state a mission run can reach. */
module MissionSafety {
  import opened Values
  import opened MissionSteps

  predicate Live(s: State) {
    !s.ending.finished && !s.ending.waiting
  }

  // ---- windows ----------------------------------------------------------------

  /** Tick i is the start of a window after which every tick was stable. */
  ghost predicate StableFrom(ticks: seq<TickSeen>, i: int, start: int) {
    0 <= i < |ticks| && ticks[i].now == start && forall j :: i < j < |ticks| ==> ticks[j].stable
  }

  /** Tick i is the start of a window in which every tick was stable and saw fresh odometry. */
  ghost predicate ReadyFrom(ticks: seq<TickSeen>, i: int, start: int) {
    0 <= i < |ticks| && ticks[i].now == start && forall j :: i <= j < |ticks| ==> ticks[j].stable && ticks[j].current
  }

  ghost predicate StableWindow(ticks: seq<TickSeen>, start: Option<int>) {
    start.Some? && exists i :: StableFrom(ticks, i, start.value)
  }

  ghost predicate ReadyWindow(ticks: seq<TickSeen>, start: Option<int>) {
    start.Some? && exists i :: ReadyFrom(ticks, i, start.value)
  }

  /** While the scenario is live after takeoff, the open windows are what the ticks say. */
  ghost predicate WindowsOpen(s: State, ticks: seq<TickSeen>) {
    Live(s) ==>
      && (s.takeoff.observed ==> StableWindow(ticks, s.windows.stableSince))
      && (s.windows.readySince.Some? ==> ReadyWindow(ticks, s.windows.readySince))
  }

  // ---- commands and outcomes --------------------------------------------------

  ghost predicate HoldSeen(ticks: seq<TickSeen>) {
    exists i :: 0 <= i < |ticks| && ticks[i].nativeHold
  }

  /** NAV_TAKEOFF follows an arm acknowledgement, an observed native Hold and the settle delay. */
  ghost predicate TakeoffIsReady(c: Config, ticks: seq<TickSeen>, acks: seq<int>, f: Facts) {
    && f.armAck.Some? && f.armAck.value in acks && f.now - f.armAck.value >= Nanos(c.takeoffSettle)
    && f.holdReady && HoldSeen(ticks)
  }

  /** Both windows are open and long enough. */
  ghost predicate WindowsAreLong(c: Config, ticks: seq<TickSeen>, f: Facts) {
    && StableWindow(ticks, f.stableSince) && Since(f.now, f.stableSince) >= c.takeoffStable
    && ReadyWindow(ticks, f.readySince) && Since(f.now, f.readySince) >= c.odometryStable
  }

  /** What every command sent satisfies, at the time it was sent. */
  ghost predicate Lawful(c: Config, h: History, e: Sent) {
    && e.facts.ticks <= |h.ticks|
    && !e.facts.finished && !e.facts.waiting
    && !(e.facts.takeoffObserved && e.facts.unexpectedExit)
    && (e.command.NavTakeoff? ==> TakeoffIsReady(c, h.ticks[..e.facts.ticks], h.acks, e.facts))
    && (e.command.Activate? && e.facts.takeoffObserved ==> WindowsAreLong(c, h.ticks[..e.facts.ticks], e.facts))
  }

  /** What every assigned outcome satisfies, at the time it was assigned. */
  ghost predicate Earned(c: Config, h: History, e: Assigned) {
    && e.facts.ticks <= |h.ticks|
    && !e.facts.finished && !e.facts.waiting && e.facts.takeoffObserved
    && StableWindow(h.ticks[..e.facts.ticks], e.facts.stableSince) && Since(e.facts.now, e.facts.stableSince) >= c.takeoffStable
    && (e.outcome.Complete? ==>
          && e.facts.missionComplete && !e.facts.diverged
          && e.facts.status.Some? && e.facts.status.value.nav == c.hold)
  }

  ghost predicate SentLawfully(c: Config, s: State) {
    && (forall i :: 0 <= i < |s.history.sent| ==> Lawful(c, s.history, s.history.sent[i]))
    && (forall i :: 0 <= i < |s.history.sent| && s.history.sent[i].command.NavTakeoff? ==> s.takeoff.requested)
    && (forall i, j :: 0 <= i < j < |s.history.sent| ==>
          !(s.history.sent[i].command.NavTakeoff? && s.history.sent[j].command.NavTakeoff?))
  }

  ghost predicate OutcomeSettled(c: Config, s: State) {
    && |s.history.outcomes| <= 1
    && (s.history.outcomes == [] <==> s.ending.outcome.None?)
    && (s.history.outcomes != [] ==>
          !Live(s) && s.ending.outcome == Some(s.history.outcomes[0].outcome) && Earned(c, s.history, s.history.outcomes[0]))
    && (s.ending.finished <==> s.ending.reported.Some?)
    && (s.ending.finished && s.ending.outcome.Some? ==> s.ending.reported == s.ending.outcome)
  }

  ghost predicate MarkersAgree(s: State) {
    && (s.ending.wall.Some? ==> s.ending.wall.value > 0)
    && (forall i :: 0 <= i < |s.history.markers| && s.history.markers[i].Some? ==> s.history.markers[i] == s.ending.wall)
  }

  ghost predicate TakeoffInOrder(c: Config, s: State) {
    && (s.takeoff.requested ==>
          && (s.takeoff.armAck.Some? || c.manual) && (c.manual ==> s.takeoff.armedSeen)
          && s.mode.id.Some? && s.simStart.Some? && c.takeoffAltitude > 0.5)
    && (s.takeoff.observed ==> s.takeoff.requested)
    && (s.takeoff.armAck.Some? ==> s.takeoff.armAck.value in s.history.acks)
    && (s.takeoff.holdReady ==> HoldSeen(s.history.ticks))
    && (!s.takeoff.observed && !s.ending.finished ==> s.windows.readySince.None?)
  }

  ghost predicate Base(c: Config, s: State) {
    SentLawfully(c, s) && OutcomeSettled(c, s) && MarkersAgree(s) && TakeoffInOrder(c, s)
  }

  ghost predicate Inv(c: Config, s: State) {
    Base(c, s) && WindowsOpen(s, s.history.ticks)
  }

  // ---- histories grow ---------------------------------------------------------

  lemma PrefixStays(ticks: seq<TickSeen>, x: TickSeen, n: nat)
    requires n <= |ticks|
    ensures (ticks + [x])[..n] == ticks[..n]
  {
  }

  lemma HoldStays(ticks: seq<TickSeen>, x: TickSeen)
    requires HoldSeen(ticks)
    ensures HoldSeen(ticks + [x])
  {
    var i :| 0 <= i < |ticks| && ticks[i].nativeHold;
    assert (ticks + [x])[i].nativeHold;
  }

  lemma LawfulStays(c: Config, h: History, x: TickSeen, e: Sent)
    requires Lawful(c, h, e)
    ensures Lawful(c, h.(ticks := h.ticks + [x]), e)
  {
    hide TakeoffIsReady, WindowsAreLong;
    PrefixStays(h.ticks, x, e.facts.ticks);
  }

  lemma EarnedStays(c: Config, h: History, x: TickSeen, e: Assigned)
    requires Earned(c, h, e)
    ensures Earned(c, h.(ticks := h.ticks + [x]), e)
  {
    hide StableWindow;
    PrefixStays(h.ticks, x, e.facts.ticks);
  }

  /** Taking note of a tick keeps everything but the windows, which do not cover it yet. */
  lemma NotedKeepsBase(c: Config, s: State)
    requires Base(c, s)
    ensures Base(c, Noted(c, s))
  {
    hide Lawful, Earned, HoldSeen, Stable, Fresh, NativeHold;
    var x := TickSeen(s.now, Stable(c, s), Fresh(c, s), NativeHold(c, s));
    var t := Noted(c, s);
    forall i | 0 <= i < |s.history.sent| ensures Lawful(c, t.history, s.history.sent[i]) {
      LawfulStays(c, s.history, x, s.history.sent[i]);
    }
    if s.history.outcomes != [] {
      EarnedStays(c, s.history, x, s.history.outcomes[0]);
    }
    if HoldSeen(s.history.ticks) {
      HoldStays(s.history.ticks, x);
    }
  }

  // ---- pieces -----------------------------------------------------------------

  /** The histories that commands and outcomes are judged by are the same. */
  predicate SameEvidence(h: History, g: History) {
    h.ticks == g.ticks && h.acks == g.acks
  }

  lemma LawfulSame(c: Config, h: History, g: History, e: Sent)
    requires SameEvidence(h, g)
    ensures Lawful(c, h, e) <==> Lawful(c, g, e)
  {
    hide TakeoffIsReady, WindowsAreLong;
  }

  lemma EarnedSame(c: Config, h: History, g: History, e: Assigned)
    requires SameEvidence(h, g)
    ensures Earned(c, h, e) <==> Earned(c, g, e)
  {
    hide StableWindow;
  }

  /** Nothing that commands and outcomes depend on has changed. */
  predicate SameRecords(s: State, t: State) {
    && SameEvidence(s.history, t.history)
    && t.history.sent == s.history.sent && t.history.outcomes == s.history.outcomes
  }

  lemma SentSame(c: Config, s: State, t: State)
    requires SentLawfully(c, s) && SameRecords(s, t) && (s.takeoff.requested ==> t.takeoff.requested)
    ensures SentLawfully(c, t)
  {
    hide Lawful;
    forall i | 0 <= i < |t.history.sent| ensures Lawful(c, t.history, t.history.sent[i]) {
      LawfulSame(c, s.history, t.history, s.history.sent[i]);
    }
  }

  lemma OutcomesSame(c: Config, s: State, t: State)
    requires OutcomeSettled(c, s) && SameRecords(s, t) && t.ending.outcome == s.ending.outcome
    requires Live(t) ==> Live(s)
    requires t.ending.finished <==> t.ending.reported.Some?
    requires t.ending.finished && t.ending.outcome.Some? ==> t.ending.reported == t.ending.outcome
    ensures OutcomeSettled(c, t)
  {
    hide Earned;
    if s.history.outcomes != [] {
      EarnedSame(c, s.history, t.history, s.history.outcomes[0]);
    }
  }

  /** The endings agree, the handover boundary aside. */
  predicate SameEnding(e: Ending, f: Ending) {
    f.outcome == e.outcome && f.waiting == e.waiting && f.finished == e.finished && f.reported == e.reported
  }

  lemma OutcomesKept(c: Config, s: State, t: State)
    requires OutcomeSettled(c, s) && SameEvidence(s.history, t.history) && t.history.outcomes == s.history.outcomes
    requires SameEnding(s.ending, t.ending)
    ensures OutcomeSettled(c, t)
  {
    hide Earned;
    if s.history.outcomes != [] {
      EarnedSame(c, s.history, t.history, s.history.outcomes[0]);
    }
  }

  /** Marking keeps the base: the first marker stays, and every recorded one is that. */
  lemma MarkKeeps(c: Config, s: State, wall: Wall)
    requires Base(c, s)
    ensures Base(c, Mark(s, wall))
    ensures var t := Mark(s, wall);
            && t.takeoff == s.takeoff && t.windows == s.windows && t.history.ticks == s.history.ticks && (Live(t) <==> Live(s))
            && (s.ending.wall.Some? ==> t.ending.wall == s.ending.wall)
  {
    hide SentLawfully, OutcomeSettled, HoldSeen;
    var t := Mark(s, wall);
    SentSame(c, s, t);
    OutcomesKept(c, s, t);
  }

  lemma FinishKeeps(c: Config, s: State, outcome: Outcome)
    requires Base(c, s)
    ensures Base(c, Finish(s, outcome)) && !Live(Finish(s, outcome))
  {
    hide SentLawfully, HoldSeen, Earned;
    var t := Finish(s, outcome);
    SentSame(c, s, t);
    OutcomesSame(c, s, t);
  }

  lemma HandoverKeeps(c: Config, s: State, wall: Wall)
    requires Base(c, s)
    ensures Base(c, RequestHandover(s, wall))
    ensures var t := RequestHandover(s, wall);
            && t.takeoff == s.takeoff && t.windows == s.windows && t.history.ticks == s.history.ticks && (Live(t) <==> Live(s))
            && (s.ending.wall.Some? ==> t.ending.wall == s.ending.wall)
  {
    hide SentLawfully, OutcomeSettled, HoldSeen, Mark;
    var t := s.(mission := s.mission.(handoverAt := Some(s.now)));
    SentSame(c, s, t);
    OutcomesKept(c, s, t);
    MarkKeeps(c, s, wall);
    MarkKeeps(c, t, wall);
  }

  /** Sending a lawful command other than NAV_TAKEOFF keeps the base. */
  lemma SendKeeps(c: Config, s: State, command: Command)
    requires Base(c, s) && !command.NavTakeoff? && Lawful(c, s.history, Sent(command, FactsOf(s)))
    ensures Base(c, Send(s, command))
  {
    hide Lawful, HoldSeen, Earned, FactsOf;
    var t := Send(s, command);
    forall i | 0 <= i < |t.history.sent| ensures Lawful(c, t.history, t.history.sent[i]) {
      LawfulSame(c, s.history, t.history, t.history.sent[i]);
    }
    OutcomesKept(c, s, t);
  }

  lemma RetryKeeps(c: Config, s: State, name: Name, command: Command, period: real)
    requires Base(c, s) && !command.NavTakeoff? && Lawful(c, s.history, Sent(command, FactsOf(s)))
    ensures Base(c, Retry(s, name, command, period))
    ensures var t := Retry(s, name, command, period);
            t.takeoff == s.takeoff && t.windows == s.windows && t.history.ticks == s.history.ticks && t.ending == s.ending && t.mode == s.mode
  {
    hide Lawful, SentLawfully, OutcomeSettled, HoldSeen, FactsOf, Nanos, LastSent;
    SendKeeps(c, s, command);
    var t := Send(s, command);
    var u := t.(lastSent := t.lastSent[name := t.now]);
    SentSame(c, t, u);
    OutcomesKept(c, t, u);
  }

  /** A change of other fields keeps the base, if the takeoff stays in order. */
  lemma BaseSame(c: Config, s: State, t: State)
    requires Base(c, s) && t.history == s.history && SameEnding(s.ending, t.ending) && t.ending.wall == s.ending.wall
    requires TakeoffInOrder(c, t) && (s.takeoff.requested ==> t.takeoff.requested)
    ensures Base(c, t)
  {
    hide SentLawfully, OutcomeSettled, TakeoffInOrder;
    SentSame(c, s, t);
    OutcomesKept(c, s, t);
  }

  // ---- a tick before the flight -----------------------------------------------

  ghost predicate InTick(c: Config, s: State) {
    && Base(c, s) && Live(s) && s.simStart.Some?
    && s.history.ticks != []
    && s.history.ticks[|s.history.ticks| - 1] == TickSeen(s.now, Stable(c, s), Fresh(c, s), NativeHold(c, s))
    && WindowsOpen(s, s.history.ticks[..|s.history.ticks| - 1])
  }

  lemma GroundedIsInvariant(c: Config, t: State)
    requires Base(c, t) && !t.takeoff.observed
    ensures Inv(c, t)
  {
    hide SentLawfully, OutcomeSettled, MarkersAgree, HoldSeen, StableWindow, ReadyWindow;
  }

  lemma EndedIsInvariant(c: Config, t: State)
    requires Base(c, t) && !Live(t)
    ensures Inv(c, t)
  {
    hide SentLawfully, OutcomeSettled, MarkersAgree, TakeoffInOrder, StableWindow, ReadyWindow;
  }

  lemma GroundCommandIsLawful(c: Config, s: State, command: Command)
    requires Live(s) && !s.takeoff.observed && !command.NavTakeoff?
    ensures Lawful(c, s.history, Sent(command, FactsOf(s)))
  {
    hide WindowsAreLong, TakeoffIsReady;
  }

  lemma ArmPhaseKeeps(c: Config, s: State)
    requires InTick(c, s) && s.mode.id.Some? && s.takeoff.armAck.None? && !c.manual
    ensures Inv(c, ArmPhase(c, s))
  {
    hide SentLawfully, OutcomeSettled, MarkersAgree, HoldSeen, StableWindow, ReadyWindow, Inv, Retry, Finish, Lawful, FactsOf;
    GroundCommandIsLawful(c, s, Activate(s.mode.id.value));
    GroundCommandIsLawful(c, s, Arm);
    RetryKeeps(c, s, ActivateName, Activate(s.mode.id.value), c.commandRetry);
    RetryKeeps(c, s, ArmName, Arm, c.armRetry);
    var t := Retry(s, ArmName, Arm, c.armRetry);
    FinishKeeps(c, t, ArmTimeout);
    GroundedIsInvariant(c, Retry(s, ActivateName, Activate(s.mode.id.value), c.commandRetry));
    GroundedIsInvariant(c, t);
    EndedIsInvariant(c, Finish(t, ArmTimeout));
  }

  /** A takeoff may be requested. */
  ghost predicate MayRequest(c: Config, s: State) {
    && s.mode.id.Some? && c.takeoffAltitude > 0.5 && !s.takeoff.requested
    && (s.takeoff.armAck.Some? || c.manual) && (c.manual ==> s.takeoff.armedSeen)
  }

  lemma NotRequestedIsGrounded(c: Config, s: State)
    requires Base(c, s) && !s.takeoff.requested
    ensures !s.takeoff.observed
  {
    hide SentLawfully, OutcomeSettled, MarkersAgree, HoldSeen;
  }

  lemma RequestedKeeps(c: Config, s: State, t: State)
    requires Base(c, s) && Live(s) && s.simStart.Some? && MayRequest(c, s)
    requires t == s.(takeoff := s.takeoff.(offboardRequested := t.takeoff.offboardRequested, requested := true, requestedAt := Some(s.now)))
    ensures Inv(c, t)
  {
    NotRequestedIsGrounded(c, s);
    BaseSame(c, s, t);
    hide Base, Inv;
    GroundedIsInvariant(c, t);
  }

  lemma LocalTakeoffKeeps(c: Config, s0: State)
    requires InTick(c, s0) && MayRequest(c, s0)
    ensures Inv(c, LocalTakeoff(c, s0))
  {
    hide SentLawfully, OutcomeSettled, MarkersAgree, HoldSeen, StableWindow, ReadyWindow, Inv, Finish, Lawful, FactsOf, LocalStateUsable, Since, Stable, Fresh, NativeHold;
    NotRequestedIsGrounded(c, s0);
    var s := if s0.takeoff.localStartedAt.None? then s0.(takeoff := s0.takeoff.(localStartedAt := Some(s0.now))) else s0;
    BaseSame(c, s0, s);
    GroundedIsInvariant(c, s);
    FinishKeeps(c, s, LocalTakeoffStateTimeout);
    EndedIsInvariant(c, Finish(s, LocalTakeoffStateTimeout));
    GroundCommandIsLawful(c, s, Offboard);
    SendKeeps(c, s, Offboard);
    var t := if s.takeoff.offboardRequested then s else Send(s, Offboard);
    RequestedKeeps(c, t, t.(takeoff := t.takeoff.(offboardRequested := true, requested := true, requestedAt := Some(t.now))));
  }

  lemma HoldIsSeen(c: Config, s: State)
    requires InTick(c, s) && (s.takeoff.holdReady || NativeHold(c, s))
    ensures HoldSeen(s.history.ticks)
  {
    hide SentLawfully, OutcomeSettled, MarkersAgree, StableWindow, ReadyWindow, Stable, Fresh, NativeHold;
    if NativeHold(c, s) {
      assert s.history.ticks[|s.history.ticks| - 1].nativeHold;
    }
  }

  lemma TakeoffIsLawful(c: Config, s: State, altitude: real)
    requires Live(s) && !s.takeoff.observed && s.takeoff.holdReady && HoldSeen(s.history.ticks)
    requires s.takeoff.armAck.Some? && s.takeoff.armAck.value in s.history.acks && s.now - s.takeoff.armAck.value >= Nanos(c.takeoffSettle)
    ensures Lawful(c, s.history, Sent(NavTakeoff(altitude), FactsOf(s)))
  {
    hide WindowsAreLong, Nanos;
    assert s.history.ticks[..|s.history.ticks|] == s.history.ticks;
    hide HoldSeen;
  }

  /** The one NAV_TAKEOFF. */
  lemma TakeoffKeeps(c: Config, s: State, altitude: real, t: State)
    requires Base(c, s) && Live(s) && s.simStart.Some? && MayRequest(c, s)
    requires Lawful(c, s.history, Sent(NavTakeoff(altitude), FactsOf(s)))
    requires var u := Send(s, NavTakeoff(altitude)); t == u.(takeoff := u.takeoff.(requested := true, requestedAt := Some(u.now)))
    ensures Inv(c, t)
  {
    hide Lawful, HoldSeen, Earned, FactsOf, Inv, OutcomeSettled, StableWindow, ReadyWindow;
    NotRequestedIsGrounded(c, s);
    forall i | 0 <= i < |t.history.sent| ensures Lawful(c, t.history, t.history.sent[i]) {
      LawfulSame(c, s.history, t.history, t.history.sent[i]);
    }
    OutcomesKept(c, s, t);
    GroundedIsInvariant(c, t);
  }

  lemma NativeTakeoffKeeps(c: Config, s0: State)
    requires InTick(c, s0) && MayRequest(c, s0) && !c.manual
    ensures Inv(c, NativeTakeoff(c, s0))
  {
    hide SentLawfully, OutcomeSettled, MarkersAgree, HoldSeen, StableWindow, ReadyWindow, Inv, Finish, Retry, Send, Lawful, FactsOf, Since, Nanos, Stable, Fresh, NativeHold;
    NotRequestedIsGrounded(c, s0);
    GroundCommandIsLawful(c, s0, PrepareHold);
    RetryKeeps(c, s0, HoldName, PrepareHold, c.commandRetry);
    GroundedIsInvariant(c, Retry(s0, HoldName, PrepareHold, c.commandRetry));
    if s0.takeoff.holdReady || NativeHold(c, s0) {
      HoldIsSeen(c, s0);
      var s := s0.(takeoff := s0.takeoff.(holdReady := true));
      BaseSame(c, s0, s);
      GroundedIsInvariant(c, s);
      FinishKeeps(c, s, GlobalAltitudeTimeout);
      EndedIsInvariant(c, Finish(s, GlobalAltitudeTimeout));
      if s.readings.altitude.Some? && s.now - s.takeoff.armAck.value >= Nanos(c.takeoffSettle) {
        var altitude := s.readings.altitude.value + c.takeoffAltitude;
        TakeoffIsLawful(c, s, altitude);
        var u := Send(s, NavTakeoff(altitude));
        TakeoffKeeps(c, s, altitude, u.(takeoff := u.takeoff.(requested := true, requestedAt := Some(u.now))));
      }
    }
  }

  lemma RequestTakeoffKeeps(c: Config, s: State)
    requires InTick(c, s) && MayRequest(c, s)
    ensures Inv(c, RequestTakeoff(c, s))
  {
    hide Base, Inv, LocalTakeoff, NativeTakeoff, WindowsOpen;
    if c.manual {
      RequestedKeeps(c, s, RequestTakeoff(c, s));
    } else if c.localNed {
      LocalTakeoffKeeps(c, s);
    } else {
      NativeTakeoffKeeps(c, s);
    }
  }

  // ---- windows in a tick ------------------------------------------------------

  lemma StableGrows(ticks: seq<TickSeen>, start: Option<int>)
    requires ticks != [] && StableWindow(ticks[..|ticks| - 1], start) && ticks[|ticks| - 1].stable
    ensures StableWindow(ticks, start)
  {
    var i :| StableFrom(ticks[..|ticks| - 1], i, start.value);
    assert StableFrom(ticks, i, start.value);
  }

  lemma ReadyGrows(ticks: seq<TickSeen>, start: Option<int>)
    requires ticks != [] && ReadyWindow(ticks[..|ticks| - 1], start) && ticks[|ticks| - 1].stable && ticks[|ticks| - 1].current
    ensures ReadyWindow(ticks, start)
  {
    var i :| ReadyFrom(ticks[..|ticks| - 1], i, start.value);
    assert ReadyFrom(ticks, i, start.value);
  }

  lemma WindowsStart(ticks: seq<TickSeen>, now: int)
    requires ticks != [] && ticks[|ticks| - 1].now == now
    ensures StableWindow(ticks, Some(now))
    ensures ticks[|ticks| - 1].stable && ticks[|ticks| - 1].current ==> ReadyWindow(ticks, Some(now))
  {
    assert StableFrom(ticks, |ticks| - 1, now);
    if ticks[|ticks| - 1].stable && ticks[|ticks| - 1].current {
      assert ReadyFrom(ticks, |ticks| - 1, now);
    }
  }

  /** Moving the window starts keeps the base once takeoff was observed or the run is over. */
  lemma WindowChangeKeeps(c: Config, s: State, t: State)
    requires Base(c, s) && (s.takeoff.observed || s.ending.finished)
    requires t == s.(windows := t.windows)
    ensures Base(c, t)
  {
    hide SentLawfully, OutcomeSettled, MarkersAgree, HoldSeen;
    BaseSame(c, s, t);
  }

  lemma InvFrom(c: Config, t: State)
    requires Base(c, t) && StableWindow(t.history.ticks, t.windows.stableSince)
    requires t.windows.readySince.Some? ==> ReadyWindow(t.history.ticks, t.windows.readySince)
    ensures Inv(c, t)
  {
    hide Base, StableWindow, ReadyWindow;
  }

  // ---- activation -------------------------------------------------------------

  lemma ActivationIsLawful(c: Config, s: State)
    requires Live(s) && s.takeoff.observed && !s.mission.unexpectedExit && s.mode.id.Some?
    requires StableWindow(s.history.ticks, s.windows.stableSince) && ReadyWindow(s.history.ticks, s.windows.readySince)
    requires Since(s.now, s.windows.stableSince) >= c.takeoffStable && Since(s.now, s.windows.readySince) >= c.odometryStable
    ensures Lawful(c, s.history, Sent(Activate(s.mode.id.value), FactsOf(s)))
  {
    hide StableWindow, ReadyWindow, Since, TakeoffIsReady;
    assert s.history.ticks[..|s.history.ticks|] == s.history.ticks;
  }

  lemma ActivateKeeps(c: Config, s0: State, wall: Wall)
    requires Base(c, s0) && Live(s0) && s0.takeoff.observed && !s0.mission.unexpectedExit && s0.mode.id.Some?
    requires StableWindow(s0.history.ticks, s0.windows.stableSince) && ReadyWindow(s0.history.ticks, s0.windows.readySince)
    requires Since(s0.now, s0.windows.stableSince) >= c.takeoffStable && Since(s0.now, s0.windows.readySince) >= c.odometryStable
    ensures Inv(c, ActivateAirborne(c, s0, wall))
  {
    hide SentLawfully, OutcomeSettled, MarkersAgree, HoldSeen, StableWindow, ReadyWindow, Inv, Retry, RequestHandover, Lawful, FactsOf, Since;
    var s := s0.(mode := s0.mode.(left := false, leftAt := None),
                 windows := if s0.windows.activationStartedAt.None? then s0.windows.(activationStartedAt := Some(s0.now)) else s0.windows);
    BaseSame(c, s0, s);
    ActivationIsLawful(c, s);
    RetryKeeps(c, s, ActivateName, Activate(s.mode.id.value), c.commandRetry);
    var t := Retry(s, ActivateName, Activate(s.mode.id.value), c.commandRetry);
    InvFrom(c, t);
    var u := t.(mission := t.mission.(unexpectedExit := true));
    BaseSame(c, t, u);
    HandoverKeeps(c, u, wall);
    InvFrom(c, RequestHandover(u, wall));
  }

  // ---- the end ----------------------------------------------------------------

  lemma FinishOrWaitKeeps(c: Config, s: State, outcome: Outcome, wall: Wall)
    requires Base(c, s) && Live(s) && Earned(c, s.history, Assigned(outcome, FactsOf(s)))
    ensures Inv(c, FinishOrWait(c, s, outcome, wall))
  {
    hide SentLawfully, HoldSeen, Earned, FactsOf, StableWindow, ReadyWindow, TakeoffInOrder;
    var h := s.history.(outcomes := s.history.outcomes + [Assigned(outcome, FactsOf(s))]);
    var named := s.(ending := s.ending.(outcome := Some(outcome)), history := h);
    var t := Mark(named, wall);
    assert s.history.outcomes == [] && h.outcomes == [Assigned(outcome, FactsOf(s))];
    EarnedSame(c, s.history, t.history, Assigned(outcome, FactsOf(s)));
    var r := FinishOrWait(c, s, outcome, wall);
    assert SameEvidence(s.history, r.history) && r.history.outcomes == h.outcomes && r.history.sent == s.history.sent;
    EarnedSame(c, s.history, r.history, Assigned(outcome, FactsOf(s)));
    SentGrown(c, s, r);
    TakeoffSame(c, s, r);
  }

  lemma SentGrown(c: Config, s: State, t: State)
    requires SentLawfully(c, s) && SameEvidence(s.history, t.history) && t.history.sent == s.history.sent && t.takeoff == s.takeoff
    ensures SentLawfully(c, t)
  {
    hide Lawful;
    forall i | 0 <= i < |t.history.sent| ensures Lawful(c, t.history, t.history.sent[i]) {
      LawfulSame(c, s.history, t.history, s.history.sent[i]);
    }
  }

  lemma TakeoffSame(c: Config, s: State, t: State)
    requires TakeoffInOrder(c, s) && SameEvidence(s.history, t.history) && t.takeoff == s.takeoff && t.windows == s.windows
    requires t.mode.id == s.mode.id && t.simStart == s.simStart && (s.ending.finished ==> t.ending.finished)
    ensures TakeoffInOrder(c, t)
  {
    hide HoldSeen;
  }

  /** Any outcome may be assigned here; COMPLETE only for a completed mission in Hold without
      divergence. */
  lemma OutcomeIsEarned(c: Config, s: State, outcome: Outcome)
    requires Live(s) && s.takeoff.observed && StableWindow(s.history.ticks, s.windows.stableSince)
    requires Since(s.now, s.windows.stableSince) >= c.takeoffStable
    requires outcome.Complete? ==> s.mission.complete && !s.watch.diverged && Hold(c, s)
    ensures Earned(c, s.history, Assigned(outcome, FactsOf(s)))
  {
    hide StableWindow, Since;
    assert s.history.ticks[..|s.history.ticks|] == s.history.ticks;
  }

  lemma TerminalKeeps(c: Config, s: State, stableElapsed: real, wall: Wall)
    requires Base(c, s) && Live(s) && s.takeoff.observed
    requires StableWindow(s.history.ticks, s.windows.stableSince) && ReadyWindow(s.history.ticks, s.windows.readySince)
    requires stableElapsed == Since(s.now, s.windows.stableSince)
    ensures Inv(c, Terminal(c, s, stableElapsed, wall))
  {
    hide Base, StableWindow, ReadyWindow, Inv, FinishOrWait, Finish, Since, Nanos, Earned, FactsOf;
    FinishKeeps(c, s, MissionTimeout);
    EndedIsInvariant(c, Finish(s, MissionTimeout));
    InvFrom(c, s);
    var r := s.(ending := s.ending.(operatorAborted := true));
    AbortedKeeps(c, s, r);
    if stableElapsed >= c.takeoffStable {
      forall outcome: Outcome | outcome.Complete? ==> s.mission.complete && !s.watch.diverged && Hold(c, s)
        ensures Inv(c, FinishOrWait(c, s, outcome, wall)) && Inv(c, FinishOrWait(c, r, outcome, wall))
      {
        OutcomeIsEarned(c, s, outcome);
        OutcomeIsEarned(c, r, outcome);
        FinishOrWaitKeeps(c, s, outcome, wall);
        FinishOrWaitKeeps(c, r, outcome, wall);
      }
    }
  }

  lemma AbortedKeeps(c: Config, s: State, r: State)
    requires Base(c, s) && r == s.(ending := s.ending.(operatorAborted := true))
    ensures Base(c, r)
  {
    hide SentLawfully, OutcomeSettled, MarkersAgree, HoldSeen;
    BaseSame(c, s, r);
  }

  // ---- the flight -------------------------------------------------------------

  /** With takeoff observed before this tick. */
  lemma WindowPhaseKeeps(c: Config, s: State, wall: Wall)
    requires InTick(c, s) && s.takeoff.observed && s.mode.id.Some?
    ensures Inv(c, WindowPhase(c, s, Since(s.now, s.windows.stableSince), wall))
  {
    hide Base, StableWindow, ReadyWindow, Inv, ActivateAirborne, Terminal, Since, Stable, Fresh, NativeHold;
    var ticks := s.history.ticks;
    WindowsStart(ticks, s.now);
    if !Stable(c, s) {
      var t := s.(windows := s.windows.(stableSince := Some(s.now), readySince := None));
      WindowChangeKeeps(c, s, t);
      InvFrom(c, t);
    } else {
      StableGrows(ticks, s.windows.stableSince);
      if !Fresh(c, s) {
        var t := s.(windows := s.windows.(readySince := None));
        WindowChangeKeeps(c, s, t);
        InvFrom(c, t);
      } else if s.windows.readySince.None? {
        var t := s.(windows := s.windows.(readySince := Some(s.now)));
        WindowChangeKeeps(c, s, t);
        InvFrom(c, t);
      } else {
        ReadyGrows(ticks, s.windows.readySince);
        InvFrom(c, s);
        if MayActivate(c, s) {
          if Since(s.now, s.windows.stableSince) >= c.takeoffStable && Since(s.now, s.windows.readySince) >= c.odometryStable {
            ActivateKeeps(c, s, wall);
          }
        } else {
          TerminalKeeps(c, s, Since(s.now, s.windows.stableSince), wall);
        }
      }
    }
  }

  /** Without a ready window the phase only moves window starts. */
  lemma UnreadyPhase(c: Config, s: State, stableElapsed: real, wall: Wall)
    requires s.mode.id.Some? && s.windows.readySince.None?
    ensures var t := WindowPhase(c, s, stableElapsed, wall);
            && t == s.(windows := t.windows)
            && (t.windows.stableSince == s.windows.stableSince || t.windows.stableSince == Some(s.now))
            && (t.windows.readySince.Some? ==> Stable(c, s) && Fresh(c, s) && t.windows.readySince == Some(s.now))
  {
    hide Stable, Fresh, ActivateAirborne, Terminal, Since;
  }

  lemma JustAirborneKeeps(c: Config, s0: State, stableElapsed: real, wall: Wall)
    requires InTick(c, s0) && !s0.takeoff.observed && s0.takeoff.requested && s0.mode.id.Some?
    ensures var s := s0.(takeoff := s0.takeoff.(observed := true), windows := s0.windows.(stableSince := Some(s0.now)));
            Inv(c, WindowPhase(c, s, stableElapsed, wall))
  {
    hide SentLawfully, OutcomeSettled, MarkersAgree, HoldSeen, StableWindow, ReadyWindow, Inv, WindowPhase, Stable, Fresh, NativeHold;
    var s := s0.(takeoff := s0.takeoff.(observed := true), windows := s0.windows.(stableSince := Some(s0.now)));
    SameSight(c, s0, s);
    BaseSame(c, s0, s);
    UnreadyPhase(c, s, stableElapsed, wall);
    var t := WindowPhase(c, s, stableElapsed, wall);
    WindowChangeKeeps(c, s, t);
    WindowsStart(s.history.ticks, s.now);
    InvFrom(c, t);
  }

  lemma SameSight(c: Config, s: State, t: State)
    requires t.readings == s.readings && t.now == s.now
    ensures Stable(c, t) == Stable(c, s) && Fresh(c, t) == Fresh(c, s)
  {
  }

  /** The branch that finishes the scenario and goes on: nothing is sent and no outcome is
      assigned any more, because no ready window can be open. */
  lemma TimedOutKeeps(c: Config, s: State, stableElapsed: real, wall: Wall)
    requires InTick(c, s) && !s.takeoff.observed && s.mode.id.Some?
    ensures var r := WindowPhase(c, Finish(s, TakeoffTimeout), stableElapsed, wall);
            Inv(c, r) && r.history.sent == s.history.sent && r.history.outcomes == s.history.outcomes
  {
    hide SentLawfully, OutcomeSettled, MarkersAgree, HoldSeen, StableWindow, ReadyWindow, Inv, WindowPhase, Stable, Fresh, NativeHold;
    FinishKeeps(c, s, TakeoffTimeout);
    var f := Finish(s, TakeoffTimeout);
    UnreadyPhase(c, f, stableElapsed, wall);
    var t := WindowPhase(c, f, stableElapsed, wall);
    WindowChangeKeeps(c, f, t);
    EndedIsInvariant(c, t);
  }

  lemma FlightKeeps(c: Config, s: State, wall: Wall)
    requires InTick(c, s) && s.mode.id.Some? && s.takeoff.requested
    ensures Inv(c, FlightPhase(c, s, wall))
  {
    hide Inv, WindowPhase, Stable, Fresh, NativeHold, Airborne, LocalStateUsable, Base, Since;
    FinishKeeps(c, s, LocalTakeoffStateInvalid);
    EndedIsInvariant(c, Finish(s, LocalTakeoffStateInvalid));
    var stableElapsed := Since(s.now, s.windows.stableSince);
    if s.takeoff.observed {
      WindowPhaseKeeps(c, s, wall);
    } else {
      JustAirborneKeeps(c, s, stableElapsed, wall);
      TimedOutKeeps(c, s, stableElapsed, wall);
      GroundedIsInvariant(c, s);
    }
  }

  lemma MissionPhaseKeeps(c: Config, s: State, wall: Wall)
    requires InTick(c, s)
    ensures Inv(c, MissionPhase(c, s, wall))
  {
    hide SentLawfully, OutcomeSettled, MarkersAgree, HoldSeen, StableWindow, ReadyWindow,
         Inv, Stable, Fresh, NativeHold, Since, Finish, FlightPhase, RequestTakeoff, ArmPhase;
    FinishKeeps(c, s, ActivationTimeout);
    EndedIsInvariant(c, Finish(s, ActivationTimeout));
    FinishKeeps(c, s, InvalidTakeoffConfiguration);
    EndedIsInvariant(c, Finish(s, InvalidTakeoffConfiguration));
    FinishKeeps(c, s, ManualArmTimeout);
    EndedIsInvariant(c, Finish(s, ManualArmTimeout));
    if !s.takeoff.requested {
      NotRequestedIsGrounded(c, s);
      GroundedIsInvariant(c, s);
    }
    if s.mode.id.Some? && c.takeoffAltitude > 0.5 && !(c.manual && !s.takeoff.armedSeen) {
      if s.takeoff.armAck.None? && !c.manual {
        ArmPhaseKeeps(c, s);
      } else if !s.takeoff.requested {
        RequestTakeoffKeeps(c, s);
      } else {
        FlightKeeps(c, s, wall);
      }
    }
  }

  lemma TickKeeps(c: Config, s0: State, wallElapsed: real, wall: Wall)
    requires Inv(c, s0)
    ensures Inv(c, Tick(c, s0, wallElapsed, wall))
  {
    var s := Noted(c, s0);
    assert s.history.ticks[..|s.history.ticks| - 1] == s0.history.ticks;
    NotedKeepsBase(c, s0);
    hide SentLawfully, OutcomeSettled, MarkersAgree, HoldSeen, StableWindow, ReadyWindow, Inv, Stable, Fresh, NativeHold, Finish, MissionPhase;
    FinishKeeps(c, s, WallTimeout);
    EndedIsInvariant(c, Finish(s, WallTimeout));
    if !Live(s) {
      EndedIsInvariant(c, s);
    } else if s.simStart.None? {
      GroundedIsInvariant(c, s);
    } else {
      MissionPhaseKeeps(c, s, wall);
    }
  }
}
