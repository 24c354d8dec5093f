/** Where the steps of the state machine lead: verdicts, timers, common events and forced sleep, each
    over every state the machine can be in. */
module StandbyOutcomes {
  import opened StandbyTypes
  import opened StandbyMachine
  import opened StandbyInvariant
  import opened StandbyLog

  // ---------------------------------------------------------------- verdicts

  /** The verdict on leaving NAP for SLEEP: motion wakes the device, rest leads to SLEEP. */
  lemma NapVerdict(m: Machine, e: Env, result: bool)
    requires Inv(m) && m.cur == Nap && m.napPhase == 3 && m.evaluating && m.napNext != Nap
    ensures var r := Next(m, e, MotionResult(result));
            if result then r.cur == Sleep && r.pre == Nap && r.sleepPhase == 0 else r.cur == Working && r.pre == Nap
  {
    var m1 := CloseEval(m);
    assert Core(m1) && m1.cur == Nap && m1.napPhase == 3 && !m1.monitoring && m1.napNext == m.napNext
      by { hide Linked, EndOf, Messages; }
    assert Next(m, e, MotionResult(result)) == EndEvalNap(m1, e, result) by { hide EndEvalNap; }
    hide Inv, Core, Next, CloseEval, TransitInner, Wake;
    if result {
      EntersSleep(m1, e);
    } else {
      WakeKeeps(m1, e);
    }
  }

  lemma EntersSleep(m: Machine, e: Env)
    requires Core(m) && m.cur == Nap
    ensures var r := TransitInner(m, e, Sleep); r.cur == Sleep && r.pre == Nap && r.sleepPhase == 0
  {
    TransitInnerKeeps(m, e, Sleep);
    var m1 := Leave(m, Sleep);
    assert m1.cur == Sleep && m1.pre == Nap;
    hide Leave, Core, BeginState;
    BeginBegun(m1, e);
  }

  /** The verdict of a detection in the last phase of SLEEP: motion seen by a repeated detection
      wakes the device, and nothing else does. */
  lemma SleepVerdict(m: Machine, e: Env, result: bool)
    requires Inv(m) && m.cur == Sleep && m.sleepPhase == 3 && m.evaluating
    ensures var r := Next(m, e, MotionResult(result));
            if !result && m.repeated then r.cur == Working && r.pre == Sleep
            else r.cur == Sleep && r.sleepPhase == 3 && r.queue == m.queue && r.timers == m.timers
    ensures !Next(m, e, MotionResult(result)).repeated && !Next(m, e, MotionResult(result)).evaluating
  {
    var m1 := CloseEval(m);
    assert Core(m1) && m1.cur == Sleep && m1.sleepPhase == 3 && !m1.monitoring && !m1.evaluating
           && m1.repeated == m.repeated && m1.queue == m.queue && m1.timers == m.timers by { hide Linked, EndOf, Messages; }
    assert Next(m, e, MotionResult(result)) == EndEvalSleep(m1, e, result) by { hide EndEvalSleep; }
    hide Inv, Core, Next, CloseEval, Wake;
    if !result && m1.repeated { WakeKeeps(m1, e); WakeCloses(m1, e); }
  }

  lemma WakeCloses(m: Machine, e: Env)
    requires Core(m)
    ensures !Wake(m, e).evaluating
  {
    WakeKeeps(m, e);
    CoreEvals(Wake(m, e)) by { hide Wake; }
    hide Core, Wake;
  }

  // ---------------------------------------------------------------- evaluations that answer at once

  lemma PassesIs(m: Machine, e: Env, p: EvalParams)
    requires !m.monitoring && Classify(m.cfg, p) == NoMonitor
    ensures StartEval(m, e, p) == StateEndEval(CloseEval(OpenEval(m, NoMonitor)), e, true)
  {
    hide StateEndEval, Classify;
  }

  lemma WatchIs(m: Machine, e: Env, p: EvalParams)
    requires !m.monitoring && Classify(m.cfg, p) == MotionMonitor
    ensures StartEval(m, e, p)
         == if e.sensorOk then OpenEval(m, MotionMonitor) else Block(OpenEval(m, MotionMonitor), e)
  {
    hide Block, Classify, OpenEval;
  }

  // ---------------------------------------------------------------- the transition timers

  /** What the task of a transition timer runs on: its lock taken, its evaluation cancelled. */
  function Turning(m: Machine): Machine
    requires m.queue != []
  {
    StopEvaluation(Take(m).(lock := true))
  }

  lemma TurningKeeps(m: Machine)
    requires Inv(m) && m.queue != [] && m.queue[0].TransitNext?
    ensures var r := Turning(m);
            && Core(r) && r.cur == m.cur == m.queue[0].state != Working && r.cfg == m.cfg && r.napNext == m.napNext
            && r.napPhase == m.napPhase && r.blocked == m.blocked && !r.monitoring && !r.evaluating && r.lock
            && r.napIndex == m.napIndex && r.sleepPhase == m.sleepPhase && r.screenOn == m.screenOn
    ensures m.cur == Nap ==> m.napNext in {Sleep, Maintenance}
    ensures m.cur == Dark ==> DarkNext(m.cfg) != Dark
  {
    TakeKeeps(m);
    HeadHeadsOn(m);
    MarksFree(Take(m), true, m.repeated);
    StopEvaluationKeeps(Take(m).(lock := true));
    CoreEvals(StopEvaluation(Take(m).(lock := true)));
    assert OwnsTask(m.cur, m.queue[0]) by { hide Core; }
    hide Inv, Core;
  }

  lemma TimerIs(m: Machine, e: Env)
    requires Inv(m) && m.queue != [] && m.queue[0] == TransitNext(m.cur)
    ensures var t := TransitToState(Turning(m), e, NextOf(m, m.cur));
            Next(m, e, RunHead) == if t.ok then t.m else Block(t.m, e).(lock := false)
  {
    HeadIs(m, e);
    assert NextOf(Take(m).(lock := true), m.cur) == NextOf(m, m.cur);
    hide Inv, TransitToState, Block, StopEvaluation, Next;
  }

  /** The timer of NAP. It leads to MAINTENANCE when NAP heads there. Heading for SLEEP, it stops at
      a block; before the last phase it only completes a phase; in the last phase it leads to SLEEP,
      unless motion is watched: then the watch starts, or fails and blocks NAP. */
  lemma NapTimer(m: Machine, e: Env)
    requires Inv(m) && m.cur == Nap && m.queue != [] && m.queue[0] == TransitNext(Nap)
    ensures var r := Next(m, e, RunHead);
            if m.napNext == Maintenance then r.cur == Maintenance && r.pre == Nap
            else if m.blocked then r.cur == Nap && r.napPhase == m.napPhase && !r.evaluating && !r.lock
            else if m.napPhase < 3 then r.cur == Nap && r.napPhase == m.napPhase + 1 && !r.evaluating
            else if !m.cfg.napMotion then r.cur == Sleep && r.pre == Nap && r.sleepPhase == 0
            else r.cur == Nap && r.napPhase == 3 && r.evaluating && r.monitor == MotionMonitor && r.blocked == !e.sensorOk
  {
    assert m.napPhase <= 3;
    TurningKeeps(m);
    TimerIs(m, e);
    hide Inv, Core, Turning, Next;
    NapTurns(Turning(m), e);
  }

  lemma NapTurns(m: Machine, e: Env)
    requires Core(m) && m.cur == Nap && m.napNext in {Sleep, Maintenance} && !m.monitoring && !m.evaluating
    ensures var t := TransitToState(m, e, m.napNext);
            var r := if t.ok then t.m else Block(t.m, e).(lock := false);
            if m.napNext == Maintenance then r.cur == Maintenance && r.pre == Nap
            else if m.blocked then r.cur == Nap && r.napPhase == m.napPhase && !r.evaluating && !r.lock
            else if m.napPhase < 3 then r.cur == Nap && r.napPhase == m.napPhase + 1 && !r.evaluating
            else if !m.cfg.napMotion then r.cur == Sleep && r.pre == Nap && r.sleepPhase == 0
            else r.cur == Nap && r.napPhase == 3 && r.evaluating && r.monitor == MotionMonitor && r.blocked == !e.sensorOk
  {
    var p := EvalParams(Nap, m.napPhase, Sleep, 0, false);
    assert m.napPhase <= 3;
    if m.napNext == Maintenance {
      hide Core, TransitInner;
      TransitInnerKeeps(m, e, Maintenance) by { MayInterrupt(m); }
    } else if m.blocked {
      BlockedStays(m, e);
      hide Core, Block;
    } else {
      assert TransitToState(m, e, Sleep) == Outcome(StartEval(m, e, p), true) by { hide StartEval, Core; }
      hide TransitToState;
      hide Core, StartEval, Block;
      if m.napPhase < 3 || !m.cfg.napMotion {
        NapPasses(m, e);
      } else {
        WatchIs(m, e, p);
        BlockedStays(OpenEval(m, MotionMonitor), e);
      }
    }
  }

  lemma NapPasses(m: Machine, e: Env)
    requires Core(m) && m.cur == Nap && m.napNext == Sleep && !m.monitoring && !m.evaluating
    requires m.napPhase < 3 || (m.napPhase == 3 && !m.cfg.napMotion)
    ensures var r := StartEval(m, e, EvalParams(Nap, m.napPhase, Sleep, 0, false));
            if m.napPhase < 3 then r.cur == Nap && r.napPhase == m.napPhase + 1 && !r.evaluating
            else r.cur == Sleep && r.pre == Nap && r.sleepPhase == 0
  {
    PassesIs(m, e, EvalParams(Nap, m.napPhase, Sleep, 0, false));
    var m1 := CloseEval(OpenEval(m, NoMonitor));
    assert Core(m1) && m1.cur == Nap && m1.napPhase == m.napPhase && m1.napNext == Sleep && !m1.evaluating
      by { hide Linked, EndOf, Messages; }
    hide Core, StartEval, OpenEval, CloseEval, PhasePosts, TransitInner, Wake;
    if m.napPhase == 3 { EntersSleep(m1, e); }
  }

  lemma MayInterrupt(m: Machine)
    requires Core(m) && m.cur == Nap && !m.monitoring
    ensures MayEnter(m, Maintenance)
  {
    hide LogAt, Owned, Targets, Counters;
  }

  lemma BlockedStays(m: Machine, e: Env)
    ensures var r := Block(m, e);
            && r.cur == m.cur && r.napPhase == m.napPhase && r.evaluating == m.evaluating && r.blocked
            && r.monitor == m.monitor
  {
    hide MaintTimeout;
  }

  /** The timer of DARK leads to NAP, or to SLEEP when NAP is switched off, unless DARK is blocked. */
  lemma DarkTimer(m: Machine, e: Env)
    requires Inv(m) && m.cur == Dark && m.queue != [] && m.queue[0] == TransitNext(Dark)
    ensures m.cfg.napSwitch || m.cfg.sleepSwitch
    ensures var r := Next(m, e, RunHead);
            if m.blocked then r.cur == Dark && !r.lock
            else r.cur == (if m.cfg.napSwitch then Nap else Sleep) && r.pre == Dark
  {
    TurningKeeps(m);
    TimerIs(m, e);
    hide Inv, Core, Turning, Next;
    DarkTurns(Turning(m), e);
  }

  lemma DarkTurns(m: Machine, e: Env)
    requires Core(m) && m.cur == Dark && DarkNext(m.cfg) != Dark && !m.monitoring && !m.evaluating
    ensures var t := TransitToState(m, e, DarkNext(m.cfg));
            var r := if t.ok then t.m else Block(t.m, e).(lock := false);
            if m.blocked then r.cur == Dark && !r.lock
            else r.cur == (if m.cfg.napSwitch then Nap else Sleep) && r.pre == Dark
  {
    var p := EvalParams(Dark, 0, DarkNext(m.cfg), 0, false);
    if m.blocked {
      BlockedStays(m, e);
      hide Core, Block;
    } else {
      assert TransitToState(m, e, DarkNext(m.cfg)) == Outcome(StartEval(m, e, p), true) by { hide StartEval, Core; }
      hide TransitToState, Core, StartEval, Block;
      DarkPasses(m, e);
    }
  }

  lemma DarkPasses(m: Machine, e: Env)
    requires Core(m) && m.cur == Dark && DarkNext(m.cfg) != Dark && !m.monitoring && !m.evaluating
    ensures var r := StartEval(m, e, EvalParams(Dark, 0, DarkNext(m.cfg), 0, false));
            r.cur == DarkNext(m.cfg) && r.pre == Dark
  {
    PassesIs(m, e, EvalParams(Dark, 0, DarkNext(m.cfg), 0, false));
    var m1 := CloseEval(OpenEval(m, NoMonitor));
    assert Core(m1) && m1.cur == Dark && m1.cfg == m.cfg && !m1.monitoring by { hide Linked, EndOf, Messages; }
    assert MayEnter(m1, DarkNext(m1.cfg)) by { hide LogAt, Owned, Targets, Counters; }
    hide Core, StartEval, OpenEval, CloseEval, TransitInner;
    TransitInnerKeeps(m1, e, DarkNext(m1.cfg));
  }

  /** WORKING is left for DARK exactly with the screen off, no block and no charger; a charger
      found then blocks WORKING. */
  lemma ScreenCheckLeads(m: Machine, e: Env)
    requires Inv(m) && m.queue != [] && m.queue[0] == ScreenCheck
    ensures var r := Next(m, e, RunHead);
            && m.cur == Working
            && r.cur == (if !m.screenOn && !m.blocked && !e.charging then Dark else Working)
            && (!m.screenOn && !m.blocked && e.charging ==> r.blocked)
  {
    TakeKeeps(m);
    HeadIs(m, e);
    hide Core, Next, TransitToState;
    if !m.screenOn {
      ToDarkKeeps(Take(m), e);
      if !m.blocked && e.charging { ChargerBlocks(Take(m), e); }
    }
  }

  lemma ChargerBlocks(m: Machine, e: Env)
    requires Full(m) && m.cur == Working && !m.blocked && e.charging
    ensures TransitToState(m, e, Dark).m.blocked
  {
    assert !m.monitoring;
    hide Core;
  }

  // ---------------------------------------------------------------- common events

  /** The actions that wake the device. */
  predicate Wakes(a: Action) {
    a == ScreenOn || a == ScreenUnlocked || a == Charging || a == UsbAttached || a == LidOpen
  }

  /** The actions that hold the device in SLEEP. */
  predicate Holds(m: Machine, a: Action) {
    a == EnterForceSleep || (a == UserSleepChanged(true) && !m.screenOn)
  }

  /** The screen after the event. */
  function ScreenAfter(m: Machine, a: Action): bool {
    if a == ScreenOn then true else if a == ScreenOff then false else m.screenOn
  }

  /** WORKING is still blocked after the event: waking up lifts a block, except from MAINTENANCE. */
  function BlockedAfter(m: Machine, a: Action): bool {
    m.blocked && (Wakes(a) ==> m.cur == Maintenance)
  }

  /** The state the event leads to. */
  function Leads(m: Machine, e: Env, a: Action): State {
    var s := if Wakes(a) then Working else if Holds(m, a) then Sleep else m.cur;
    if s == Working && !ScreenAfter(m, a) && !BlockedAfter(m, a) && !e.charging then Dark else s
  }

  lemma ReactLeads(m: Machine, e: Env, a: Action)
    requires Full(m)
    ensures var r := React(m, e, a);
            && r.cur == (if Wakes(a) then Working else if Holds(m, a) then Sleep else m.cur)
            && r.screenOn == ScreenAfter(m, a)
            && (r.cur == Working ==> r.blocked == BlockedAfter(m, a))
            && (Holds(m, a) ==> r.timers == map[] && r.blocked == (m.blocked && m.cur == Sleep))
  {
    hide Full, React;
    if Wakes(a) { WakeLeads(m, e, a); }
    else if Holds(m, a) { HoldLeads(m, e, a); }
    else { StaysPut(m, e, a); }
  }

  lemma WakeLeads(m: Machine, e: Env, a: Action)
    requires Full(m) && Wakes(a)
    ensures var r := React(m, e, a);
            r.cur == Working && r.screenOn == ScreenAfter(m, a) && r.blocked == BlockedAfter(m, a)
  {
    var m1 := if a == ScreenOn then m.(screenOn := true) else m;
    assert Core(m1) && m1.screenOn == ScreenAfter(m, a) by { hide Linked, EndOf, Messages; }
    assert React(m, e, a) == Wake(m1, e) by { hide Wake; }
    hide Core, Full, React, Wake;
    WakeKeeps(m1, e);
    WakeUnblocks(m1, e);
  }

  lemma HoldLeads(m: Machine, e: Env, a: Action)
    requires Full(m) && Holds(m, a)
    ensures var r := React(m, e, a);
            r.cur == Sleep && r.screenOn == m.screenOn && r.timers == map[] && r.blocked == (m.blocked && m.cur == Sleep)
  {
    assert React(m, e, a) == HoldSleep(m, e) by { hide HoldSleep; }
    hide React, HoldSleep, Full;
    HoldStops(m, e);
  }

  lemma StaysPut(m: Machine, e: Env, a: Action)
    requires !Wakes(a) && !Holds(m, a)
    ensures var r := React(m, e, a);
            && r.cur == m.cur && r.screenOn == ScreenAfter(m, a) && (r.cur == Working ==> r.blocked == m.blocked)
  {
    BeginKeepsPlace(m, e);
    BeginScreen(m, e);
    hide Wake, HoldSleep, BeginState;
  }

  lemma BeginScreen(m: Machine, e: Env)
    ensures m.cur == Sleep ==> BeginState(m, e).screenOn == m.screenOn
  {
    hide MaintTimeout, NextIndex;
    if m.cur == Sleep {
      var m1 := EnterSleep(m, e);
      assert m1.screenOn == m.screenOn;
      hide EnterSleep;
    }
  }

  lemma WakeUnblocks(m: Machine, e: Env)
    ensures Wake(m, e).blocked == (m.blocked && m.cur == Maintenance)
  {
    hide TransitInner, ExitStandby;
    if m.cur == Maintenance {
      var m1 := HalfHourInner(m, false);
      assert m1.blocked == m.blocked;
      hide HalfHourInner;
      TransitKeepsBlock(m1, e, Working);
    } else if m.cur != Working {
      ExitUnblocks(m, e);
    }
  }

  lemma ExitUnblocks(m: Machine, e: Env)
    ensures !ExitStandby(m, e, Working).blocked
  {
    var m1 := StopEvaluation(m).(blocked := false);
    var m2 := HalfHourInner(m1, false);
    assert !m2.blocked by { hide StopEvaluation; }
    hide TransitInner, StopEvaluation, HalfHourInner;
    TransitKeepsBlock(m2, e, Working);
  }

  lemma TransitKeepsBlock(m: Machine, e: Env, next: State)
    requires next == Working
    ensures TransitInner(m, e, next).blocked == m.blocked
  {
    var m1 := Leave(m, next);
    assert m1.cur == next && m1.blocked == m.blocked;
    hide Leave;
  }

  /** Forced sleep leaves the device in SLEEP without any timer. */
  lemma HoldStops(m: Machine, e: Env)
    requires Full(m)
    ensures var r := HoldSleep(m, e);
            r.cur == Sleep && r.timers == map[] && r.screenOn == m.screenOn && r.blocked == (m.blocked && m.cur == Sleep)
  {
    var m1 := if m.cur != Sleep then TransitInner(m.(blocked := false), e, Sleep) else m;
    assert Core(m.(blocked := false)) by { hide Linked, EndOf, Messages; }
    if m.cur != Sleep {
      MayHold(m);
      TransitInnerKeeps(m.(blocked := false), e, Sleep);
    }
    assert Owned(m1) && m1.cur == Sleep && m1.screenOn == m.screenOn && m1.blocked == (m.blocked && m.cur == Sleep)
      by { hide TransitInner, LogAt, Evals, Targets, Counters; }
    hide Core, Full, TransitInner, Owned;
    OwnedTimers(m1);
  }

  lemma OwnedTimers(m: Machine)
    requires Owned(m)
    ensures m.timers - StoppedTimers(m.cur) == map[]
  {
    StoppedTimersClears(m.timers, m.cur);
  }

  lemma MayHold(m: Machine)
    requires Core(m) && m.cur != Sleep
    ensures MayEnter(m.(blocked := false), Sleep)
  {
    hide LogAt, Owned, Targets, Counters;
  }

  /** Every common event, in every state: where it leads, and what it does to the screen. */
  lemma EventLeads(m: Machine, e: Env, a: Action)
    requires Inv(m) && m.queue != [] && m.queue[0] == Deliver(CommonEvent(a))
    ensures var r := Next(m, e, RunHead); r.cur == Leads(m, e, a) && r.screenOn == ScreenAfter(m, a)
  {
    TakeKeeps(m);
    HeadIs(m, e);
    var m1 := Take(m);
    ReactLeads(m1, e, a);
    ReactKeeps(m1, e, a);
    var r := React(m1, e, a);
    hide Core, Full, React, TransitToState, Next, Wakes;
    if r.cur == Working && !r.screenOn {
      ToDarkKeeps(r, e);
      DarkScreen(r, e);
    }
  }

  lemma DarkScreen(m: Machine, e: Env)
    requires Full(m) && m.cur == Working
    ensures TransitToState(m, e, Dark).m.screenOn == m.screenOn
  {
    assert !m.monitoring;
    hide Core;
  }

  /** Forced sleep, and sleep reported with the screen off: the device is in SLEEP and no timer is
      armed. An entry lifts a block. */
  lemma HoldEndsTimers(m: Machine, e: Env)
    requires Inv(m) && m.queue != []
    requires m.queue[0] == Deliver(CommonEvent(EnterForceSleep))
          || (m.queue[0] == Deliver(CommonEvent(UserSleepChanged(true))) && !m.screenOn)
    ensures var r := Next(m, e, RunHead);
            r.cur == Sleep && r.timers == map[] && r.blocked == (m.blocked && m.cur == Sleep)
  {
    TakeKeeps(m);
    HeadIs(m, e);
    var m1, a := Take(m), m.queue[0].msg.action;
    ReactLeads(m1, e, a);
    hide Core, Full, React, TransitToState, Next;
  }
}
