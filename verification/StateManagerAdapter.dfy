/** The state manager in place: the fields of `StateManagerAdapter`, of its state objects, of
    the constraint manager and of the handler, updated step by step. Every method computes the
    function of `StandbyMachine` with the same name, so what is proved about runs of that
    machine holds of these methods. */
module StateManagerAdapters {
  import opened StandbyTypes
  import opened StandbyMachine
  import opened ConstraintTable

  class StateManagerAdapter {
    const cfg: Config
    var constraintMap: map<nat, Monitor>
    var cur: State
    var pre: State
    var evaluating: bool
    var monitoring: bool
    var monitor: Monitor
    var blocked: bool
    var halfHour: bool
    var screenOn: bool
    var lock: bool
    var napPhase: nat
    var sleepPhase: nat
    var napNext: State
    var maintNext: State
    var napIndex: int
    var sleepIndex: int
    var repeated: bool
    var timers: map<Timer, int>
    var queue: seq<Task>
    ghost var hist: History

    /** The constraint table is the one built at Init, and the indices and phases are in range. */
    ghost predicate Valid()
      reads this
    {
      && constraintMap == Registered(cfg)
      && napPhase <= PHASE_END && sleepPhase <= PHASE_END
      && (|cfg.napIntervals| > 0 ==> 0 <= napIndex < |cfg.napIntervals|)
      && (|cfg.sleepIntervals| > 0 ==> 0 <= sleepIndex < |cfg.sleepIntervals|)
    }

    ghost function Snapshot(): Machine
      reads this
    {
      Machine(cfg, cur, pre, evaluating, monitoring, monitor, blocked, halfHour, screenOn, lock,
              napPhase, sleepPhase, napNext, maintNext, napIndex, sleepIndex, repeated,
              timers, queue, hist)
    }

    /** Init of the state manager, then of the constraint manager. */
    constructor (cfg: Config, screenOn: bool)
      ensures Valid() && this.cfg == cfg && Snapshot() == Initial(cfg, screenOn)
    {
      this.cfg := cfg;
      this.screenOn := screenOn;
      cur, pre := Working, Working;
      evaluating, monitoring, monitor := false, false, NoMonitor;
      blocked, halfHour, lock, repeated := false, false, false, false;
      napPhase, sleepPhase, napIndex, sleepIndex := 0, 0, 0, 0;
      napNext, maintNext := Nap, Working;
      timers := map[];
      queue := [ScreenCheck];
      hist := History([], 0, 0, 0, 0, 0);
      constraintMap := map[];
      new;
      RegisterConstraint(CHARGE_PARAMS, ChargeMonitor);
      if cfg.napMotion { RegisterConstraint(MOTION_PARAMS, MotionMonitor); }
      if cfg.repeatMotion { RegisterConstraint(REPEAT_PARAMS, MotionMonitor); }
    }

    method RegisterConstraint(p: EvalParams, kind: Monitor)
      modifies this`constraintMap
      ensures constraintMap == Register(old(constraintMap), p, kind)
    {
      var key := HashValue(p);
      if key !in constraintMap { constraintMap := constraintMap[key := kind]; }
    }

    // -------------------------------------------------------------- handler and timers

    method PostTask(t: Task)
      modifies this`queue
      ensures queue == old(queue) + [t]
    {
      queue := queue + [t];
    }

    method DispatchEvent(msg: Message)
      modifies this`queue
      ensures queue == old(queue) + [Deliver(msg)]
    {
      PostTask(Deliver(msg));
    }

    /** Drop every queued task with the given name. */
    method RemoveTask(n: TaskName)
      modifies this`queue
      ensures queue == RemoveNamed(old(queue), n)
    {
      var kept := [];
      var i := 0;
      while i < |queue|
        invariant 0 <= i <= |queue| && queue == old(queue)
        invariant kept == RemoveNamed(queue[..i], n)
      {
        RemoveNamedLast(queue[..i], queue[i], n);
        assert queue[..i + 1] == queue[..i] + [queue[i]];
        if Name(queue[i]) != n { kept := kept + [queue[i]]; }
        i := i + 1;
      }
      assert queue[..i] == queue;
      queue := kept;
    }

    method StartTimer(t: Timer, delay: int)
      modifies this`timers
      ensures timers == old(timers)[t := delay]
    {
      timers := timers[t := delay];
    }

    method StopTimer(t: Timer)
      modifies this`timers
      ensures timers == old(timers) - {t}
    {
      timers := timers - {t};
    }

    // -------------------------------------------------------------- half-hour control

    method OnScreenOffHalfHour(on: bool)
      requires Valid()
      modifies this`halfHour, this`queue
      ensures Valid() && Snapshot() == HalfHourInner(old(Snapshot()), on)
    {
      if on && !(cur == Sleep || (pre == Sleep && cur == Maintenance)) { return; }
      if halfHour == on { return; }
      halfHour := on;
      DispatchEvent(HalfHour(halfHour));
    }

    // -------------------------------------------------------------- BeginState and EndState

    /** CalculateMaintTimeOut of NAP */
    method NapMaintTimeout(e: Env, isFirst: bool) returns (timeout: int)
      requires Valid()
      modifies this`napIndex
      ensures Valid()
      ensures napIndex == NextIndex(cfg.napIntervals, old(napIndex), isFirst)
      ensures timeout == MaintTimeout(cfg.napIntervals, napIndex, e.extraDelay)
    {
      if |cfg.napIntervals| <= 0 { return 0; }
      if !isFirst { napIndex := MinInt(napIndex + 1, |cfg.napIntervals| - 1); }
      timeout := cfg.napIntervals[napIndex] * MSEC_PER_SEC;
      timeout := timeout + e.extraDelay;
    }

    /** CalculateMaintTimeOut of SLEEP after maintenance */
    method SleepMaintTimeout(e: Env) returns (timeout: int)
      requires Valid()
      modifies this`sleepIndex
      ensures Valid()
      ensures sleepIndex == NextIndex(cfg.sleepIntervals, old(sleepIndex), false)
      ensures timeout == MaintTimeout(cfg.sleepIntervals, sleepIndex, e.extraDelay)
    {
      if |cfg.sleepIntervals| <= 0 { return 0; }
      sleepIndex := MinInt(sleepIndex + 1, |cfg.sleepIntervals| - 1);
      timeout := cfg.sleepIntervals[sleepIndex] * MSEC_PER_SEC;
      timeout := timeout + e.extraDelay;
    }

    method BeginNapState(e: Env)
      requires Valid()
      modifies this
      ensures Valid() && constraintMap == old(constraintMap)
      ensures Snapshot() == BeginNap(old(Snapshot()), e)
    {
      hide BeginNap, Registered;
      if pre == Maintenance { ResumeNap(e); } else { StartNap(e); }
    }

    method ResumeNap(e: Env)
      requires Valid() && pre == Maintenance
      modifies this`napIndex, this`napNext, this`hist, this`timers
      ensures Valid() && Snapshot() == BeginNap(old(Snapshot()), e)
    {
      hide MaintTimeout, NextIndex, Registered, BeginNap;
      ghost var m := Snapshot();
      var timeout := NapMaintTimeout(e, false);
      BackInNap(timeout);
      hide Valid;
      NapResumes(m, Snapshot(), e);
    }

    method BackInNap(timeout: int)
      modifies this`napNext, this`hist, this`timers
      ensures napNext == Maintenance && hist == old(hist).(napReturns := old(hist).napReturns + 1)
      ensures timers == if timeout != 0 then old(timers)[TransitTimer(Nap) := timeout] else old(timers)
    {
      napNext := Maintenance;
      hist := hist.(napReturns := hist.napReturns + 1);
      if timeout != 0 { StartTimer(TransitTimer(Nap), timeout); }
    }

    method StartNap(e: Env)
      requires Valid() && pre != Maintenance
      modifies this`napIndex, this`napPhase, this`hist, this`napNext, this`timers, this`queue
      ensures Valid() && Snapshot() == BeginNap(old(Snapshot()), e)
    {
      hide Registered, BeginNap;
      ghost var m := Snapshot();
      ResetNap();
      HeadForSleep(e);
      hide Valid;
      NapStarts(m, Snapshot(), e);
    }

    method ResetNap()
      modifies this`napIndex, this`napPhase, this`hist
      ensures napIndex == 0 && napPhase == 0 && hist == old(hist).(napReturns := 0)
    {
      napIndex, napPhase := 0, 0;
      hist := hist.(napReturns := 0);
    }

    method HeadForSleep(e: Env)
      modifies this`napNext, this`timers, this`queue
      ensures queue == old(queue) + [FirstPhase(Nap)]
      ensures napNext == if cfg.sleepSwitch then Sleep else old(napNext)
      ensures timers == if cfg.sleepSwitch
                        then old(timers)[TransitTimer(Nap) := MinInt(cfg.napTimeout * MSEC_PER_SEC, e.napLimit)]
                        else old(timers)
    {
      if cfg.sleepSwitch {
        napNext := Sleep;
        StartTimer(TransitTimer(Nap), MinInt(cfg.napTimeout * MSEC_PER_SEC, e.napLimit));
      }
      PostTask(FirstPhase(Nap));
    }

    method BeginMaintenanceState()
      requires Valid()
      modifies this`maintNext, this`timers
      ensures Valid() && Snapshot() == BeginMaintenance(old(Snapshot()))
    {
      maintNext := pre;
      var timeout := cfg.sleepMaintTimeout;
      if maintNext == Nap { timeout := cfg.napMaintTimeout; }
      StartTimer(TransitTimer(Maintenance), timeout * MSEC_PER_SEC);
    }

    method BeginSleepState(e: Env)
      requires Valid()
      modifies this
      ensures Valid() && constraintMap == old(constraintMap)
      ensures Snapshot() == BeginSleep(old(Snapshot()), e)
    {
      hide EnterSleep, HalfHourInner, Registered;
      EnterKeepsPre(Snapshot(), e);
      if pre == Maintenance {
        ResumeSleep(e);
        return;
      }
      StartSleep(e);
      if e.halfHourPassed { OnScreenOffHalfHour(true); }
    }

    method ResumeSleep(e: Env)
      requires Valid() && pre == Maintenance
      modifies this`sleepIndex, this`repeated, this`hist, this`timers
      ensures Valid() && Snapshot() == EnterSleep(old(Snapshot()), e)
    {
      hide MaintTimeout, NextIndex, Registered, EnterSleep;
      ghost var m := Snapshot();
      var timeout := SleepMaintTimeout(e);
      BackInSleep(timeout);
      hide Valid;
      SleepResumes(m, Snapshot(), e);
    }

    method BackInSleep(timeout: int)
      modifies this`repeated, this`hist, this`timers
      ensures !repeated && hist == old(hist).(sleepReturns := old(hist).sleepReturns + 1)
      ensures timers == if timeout != 0 then old(timers)[TransitTimer(Sleep) := timeout] else old(timers)
    {
      repeated := false;
      hist := hist.(sleepReturns := hist.sleepReturns + 1);
      if timeout != 0 { StartTimer(TransitTimer(Sleep), timeout); }
    }

    method StartSleep(e: Env)
      requires Valid() && pre != Maintenance
      modifies this`sleepIndex, this`sleepPhase, this`repeated, this`hist, this`timers, this`queue
      ensures Valid() && Snapshot() == EnterSleep(old(Snapshot()), e)
    {
      hide MaintTimeout, Registered, EnterSleep;
      ghost var m := Snapshot();
      var timeout := FirstSleepTimeout(e);
      ResetSleep();
      ArmSleep(timeout);
      hide Valid;
      SleepStarts(m, Snapshot(), e);
    }

    method ArmSleep(timeout: int)
      modifies this`timers, this`queue
      ensures queue == old(queue) + [FirstPhase(Sleep)] && timers == old(timers)[TransitTimer(Sleep) := timeout]
    {
      StartTimer(TransitTimer(Sleep), timeout);
      PostTask(FirstPhase(Sleep));
    }

    method ResetSleep()
      modifies this`repeated, this`sleepIndex, this`sleepPhase, this`hist
      ensures !repeated && sleepIndex == 0 && sleepPhase == 0 && hist == old(hist).(sleepReturns := 0)
    {
      repeated, sleepIndex, sleepPhase := false, 0, 0;
      hist := hist.(sleepReturns := 0);
    }

    /** CalculateMaintTimeOut of SLEEP with the index just reset to 0 */
    method FirstSleepTimeout(e: Env) returns (timeout: int)
      ensures timeout == MaintTimeout(cfg.sleepIntervals, 0, e.extraDelay)
    {
      if |cfg.sleepIntervals| <= 0 { return 0; }
      timeout := cfg.sleepIntervals[0] * MSEC_PER_SEC;
      timeout := timeout + e.extraDelay;
    }

    method BeginCurrentState(e: Env)
      requires Valid()
      modifies this
      ensures Valid() && constraintMap == old(constraintMap)
      ensures Snapshot() == BeginState(old(Snapshot()), e)
    {
      match cur
      case Working => PostTask(ScreenCheck);
      case Dark =>
        if DarkNext(cfg) != Dark { StartTimer(TransitTimer(Dark), cfg.darkTimeout * MSEC_PER_SEC); }
      case Nap => BeginNapState(e);
      case Maintenance => BeginMaintenanceState();
      case Sleep => BeginSleepState(e);
    }

    method EndCurrentState()
      modifies this`timers, this`queue
      ensures timers == old(timers) - StoppedTimers(cur)
      ensures queue == RemoveTasks(old(queue), cur)
    {
      match cur
      case Working => RemoveTask(ConditionTask);
      case Nap =>
        StopTimer(TransitTimer(Nap));
        RemoveTask(TransitTask);
        RemoveTask(PhaseTask);
      case Sleep =>
        StopTimer(TransitTimer(Sleep));
        StopTimer(RepeatTimer);
        RemoveTask(TransitTask);
        RemoveTask(PhaseTask);
        RemoveTask(RepeatTask);
      case _ =>
        StopTimer(TransitTimer(cur));
        RemoveTask(TransitTask);
    }

    // -------------------------------------------------------------- transitions

    method TransitToStateInner(e: Env, next: State)
      requires Valid()
      modifies this
      ensures Valid() && Snapshot() == TransitInner(old(Snapshot()), e, next)
    {
      hide BeginState, RemoveTasks, StoppedTimers, Registered, Leave, Announce;
      LeaveCurrentState(next);
      BeginCurrentState(e);
      AnnounceTransit();
    }

    method AnnounceTransit()
      modifies this`queue, this`lock
      ensures Snapshot() == Announce(old(Snapshot()))
    {
      DispatchEvent(StateTransit(pre, cur));
      ReleaseStandbyRunningLock();
    }

    method LeaveCurrentState(next: State)
      modifies this`timers, this`queue, this`pre, this`cur
      ensures Snapshot() == Leave(old(Snapshot()), next)
    {
      hide RemoveTasks, StoppedTimers;
      EndCurrentState();
      pre := cur;
      cur := next;
    }

    method AcquireStandbyRunningLock()
      modifies this`lock
      ensures lock
    {
      if lock { return; }
      lock := true;
    }

    method ReleaseStandbyRunningLock()
      modifies this`lock
      ensures !lock
    {
      if !lock { return; }
      lock := false;
    }

    /** ConstraintManagerAdapter::StopEvalution */
    method StopMonitoring()
      modifies this`monitoring, this`monitor
      ensures !monitoring && monitor == if old(monitoring) then NoMonitor else old(monitor)
    {
      if !monitoring { return; }
      monitoring := false;
      monitor := NoMonitor;
    }

    method StopEvalution()
      requires Valid()
      modifies this`evaluating, this`monitoring, this`monitor, this`hist
      ensures Valid() && Snapshot() == StopEvaluation(old(Snapshot()))
    {
      hide Registered;
      if evaluating { CancelEvaluation(); }
    }

    method CancelEvaluation()
      requires evaluating
      modifies this`evaluating, this`monitoring, this`monitor, this`hist
      ensures Snapshot() == StopEvaluation(old(Snapshot()))
    {
      hist := hist.(cancels := hist.cancels + 1);
      DropFlags();
    }

    method DropFlags()
      modifies this`evaluating, this`monitoring, this`monitor
      ensures !evaluating && !monitoring && monitor == if old(monitoring) then NoMonitor else old(monitor)
    {
      StopMonitoring();
      evaluating := false;
    }

    method ExitStandbyTo(e: Env, next: State)
      requires Valid()
      modifies this
      ensures Valid() && Snapshot() == ExitStandby(old(Snapshot()), e, next)
    {
      hide TransitInner, HalfHourInner, Registered, StopEvaluation;
      StopEvalution();
      UnblockCurrentState();
      DropHalfHour();
      TransitToStateInner(e, next);
    }

    method DropHalfHour()
      requires Valid()
      modifies this`halfHour, this`queue
      ensures Valid() && Snapshot() == HalfHourInner(old(Snapshot()), false)
    {
      if halfHour { OnScreenOffHalfHour(false); }
    }

    method TransitMaintenance(e: Env, next: State)
      requires Valid()
      modifies this
      ensures Valid() && Snapshot() == TransitWithMaint(old(Snapshot()), e, next)
    {
      hide TransitInner, HalfHourInner, Registered;
      if next == Working { DropHalfHour(); }
      TransitToStateInner(e, next);
    }

    method UnblockCurrentState()
      modifies this`blocked
      ensures !blocked
    {
      blocked := false;
    }

    method BlockCurrentState(e: Env)
      requires Valid()
      modifies this
      ensures Valid() && Snapshot() == Block(old(Snapshot()), e)
    {
      blocked := true;
      ghost var m := old(Snapshot());
      BlockedAgain(m, e);
      hide Registered;
      if cur != Nap { return; }
      assert Snapshot() == m.(blocked := true);
      hide Block, Snapshot, Valid;
      OnNapBlocked(e);
    }

    /** NapState::OnStateBlocked */
    method OnNapBlocked(e: Env)
      requires Valid() && blocked && cur == Nap
      modifies this`napIndex, this`napNext, this`timers, this`lock
      ensures Valid() && Snapshot() == Block(old(Snapshot()), e)
    {
      hide MaintTimeout, Registered, Block;
      ghost var m := Snapshot();
      var timeout := NapMaintTimeout(e, true);
      HeadForMaintenance(timeout);
      hide Valid;
      NapBlocks(m, Snapshot(), e);
    }

    method HeadForMaintenance(timeout: int)
      modifies this`napNext, this`timers, this`lock
      ensures napNext == if timeout > 0 then Maintenance else old(napNext)
      ensures timers == if timeout > 0 then old(timers)[TransitTimer(Nap) := timeout] else old(timers)
      ensures !lock
    {
      if timeout > 0 {
        napNext := Maintenance;
        StartTimer(TransitTimer(Nap), timeout);
      }
      ReleaseStandbyRunningLock();
    }

    // -------------------------------------------------------------- evaluation

    /** SetPhaseTransitTask, with the message of the completed phase */
    method SetNapPhaseTask(result: bool)
      requires Valid() && napPhase < PHASE_END
      modifies this`napPhase, this`queue, this`lock
      ensures Valid() && Snapshot() == AdvanceNap(old(Snapshot()), result)
    {
      hide Registered, PhasePosts;
      PostPhase(Nap, napPhase, result);
      EndNapPhase();
    }

    method EndNapPhase()
      modifies this`napPhase, this`lock
      ensures napPhase == old(napPhase) + 1 && lock == (old(lock) && napPhase < PHASE_END)
    {
      napPhase := napPhase + 1;
      if napPhase >= PHASE_END { ReleaseStandbyRunningLock(); }
    }

    /** SetPhaseTransitOrRepeatedTask, with the message of the completed phase */
    method SetSleepPhaseTask(result: bool)
      requires Valid() && sleepPhase < PHASE_END
      modifies this`sleepPhase, this`queue, this`lock, this`timers
      ensures Valid() && Snapshot() == AdvanceSleep(old(Snapshot()), result)
    {
      hide Registered, PhasePosts;
      PostPhase(Sleep, sleepPhase, result);
      EndSleepPhase();
    }

    /** After the last phase the lock goes, and motion is looked for again and again. */
    method EndSleepPhase()
      modifies this`sleepPhase, this`lock, this`timers
      ensures sleepPhase == old(sleepPhase) + 1 && lock == (old(lock) && sleepPhase < PHASE_END)
      ensures timers == if sleepPhase >= PHASE_END && cfg.detectMotion
                        then old(timers)[RepeatTimer := REPEAT_INTERVAL] else old(timers)
    {
      sleepPhase := sleepPhase + 1;
      if sleepPhase >= PHASE_END {
        ReleaseStandbyRunningLock();
        if cfg.detectMotion { StartTimer(RepeatTimer, REPEAT_INTERVAL); }
      }
    }

    method PostPhase(s: State, phase: nat, result: bool)
      modifies this`queue
      ensures queue == old(queue) + PhasePosts(s, phase, result)
    {
      if result { DispatchEvent(PhaseTransit(s, phase, phase + 1)); }
      if phase + 1 < PHASE_END { PostTask(NextPhase(s)); }
    }

    method EndEvalCurrent(e: Env, result: bool)
      requires Valid()
      modifies this
      ensures Valid() && Snapshot() == StateEndEval(old(Snapshot()), e, result)
      decreases 2
    {
      hide TransitInner, Block, EndEvalNap, EndEvalSleep, Registered;
      match cur
      case Working =>
        if result { TransitToStateInner(e, Dark); } else { BlockCurrentState(e); }
      case Dark =>
        if !result { BlockCurrentState(e); }
        else if DarkNext(cfg) != Dark { TransitToStateInner(e, DarkNext(cfg)); }
      case Nap => EndEvalNapState(e, result);
      case Maintenance =>
      case Sleep => EndEvalSleepState(e, result);
    }

    method EndEvalNapState(e: Env, result: bool)
      requires Valid()
      modifies this
      ensures Valid() && Snapshot() == EndEvalNap(old(Snapshot()), e, result)
      decreases 1
    {
      WakeIsTransit(Snapshot(), e);
      hide TransitInner, TransitToState, Wake, AdvanceNap, Registered;
      if napPhase == PHASE_END {
        if !result { var ok := TransitTo(e, Working); }
        else if napNext != Nap { TransitToStateInner(e, Sleep); }
        return;
      }
      SetNapPhaseTask(result);
    }

    method EndEvalSleepState(e: Env, result: bool)
      requires Valid()
      modifies this
      ensures Valid() && Snapshot() == EndEvalSleep(old(Snapshot()), e, result)
      decreases 1
    {
      hide EndEvalSleep, AdvanceSleep, TransitToState, Wake, Registered;
      SleepEvalIs(Snapshot(), e, result);
      WakeIsTransit(Snapshot(), e);
      if sleepPhase < PHASE_END {
        SetSleepPhaseTask(result);
        return;
      }
      if !result && repeated { var ok := TransitTo(e, Working); }
      EndRepeatedDetection();
    }

    method EndRepeatedDetection()
      modifies this`repeated
      ensures Snapshot() == old(Snapshot()).(repeated := false)
    {
      repeated := false;
    }

    method LowerFlags()
      requires evaluating
      modifies this`evaluating, this`monitoring, this`monitor, this`hist
      ensures Snapshot() == CloseEval(old(Snapshot()))
    {
      hist := hist.(verdicts := hist.verdicts + 1);
      DropFlags();
    }

    method EndEvalCurrentState(e: Env, result: bool)
      requires Valid()
      modifies this
      ensures Valid() && Snapshot() == EndEval(old(Snapshot()), e, result)
      decreases 3
    {
      hide StateEndEval, Registered;
      if !evaluating { return; }
      LowerFlags();
      hide CloseEval, Snapshot, Valid;
      EndEvalCurrent(e, result);
    }

    /** ConstraintManagerAdapter::StartEvalution, with the monitors it starts */
    method StartMonitoring(e: Env, p: EvalParams)
      requires Valid() && Packable(p) && evaluating
      modifies this
      ensures Valid() && Snapshot() == StartEval(old(Snapshot()), e, p)
      decreases 4
    {
      LookupIsExact(cfg, p);
      hide EndEval, Block, Classify, Registered, HashValue;
      if monitoring { return; }
      var key := HashValue(p);
      var kind := if key in constraintMap then constraintMap[key] else NoMonitor;
      RaiseFlags(kind);
      hide OpenEval, Snapshot, Valid;
      match kind
      case NoMonitor => EndEvalCurrentState(e, true);
      case ChargeMonitor => EndEvalCurrentState(e, !e.charging);
      case MotionMonitor => if !e.sensorOk { BlockCurrentState(e); }
    }

    method RaiseFlags(kind: Monitor)
      requires evaluating
      modifies this`monitoring, this`monitor, this`hist
      ensures Snapshot() == OpenEval(old(Snapshot()), kind)
    {
      monitoring := true;
      monitor := kind;
      hist := hist.(starts := hist.starts + 1);
    }

    method StartEvalCurrentState(e: Env, p: EvalParams)
      requires Valid() && Packable(p)
      modifies this
      ensures Valid() && Snapshot() == StartEval(old(Snapshot()), e, p)
      decreases 5
    {
      evaluating := true;
      assert Snapshot() == old(Snapshot()).(evaluating := true);
      FlagFirst(old(Snapshot()), e, p);
      hide StartEval, Snapshot, Registered, HashValue;
      StartMonitoring(e, p);
    }

    method EnterStandbyTo(e: Env, next: State) returns (ok: bool)
      requires Valid()
      modifies this
      ensures Valid() && Outcome(Snapshot(), ok) == EnterStandby(old(Snapshot()), e, next)
      decreases 6
    {
      if blocked { return false; }
      var phase := GetCurInnerPhase();
      StartEvalCurrentState(e, EvalParams(cur, phase, next, 0, false));
      ok := true;
    }

    method GetCurInnerPhase() returns (phase: nat)
      ensures phase == PhaseOf(Snapshot(), cur)
    {
      phase := 0;
      if cur == Nap { phase := napPhase; }
      if cur == Sleep { phase := sleepPhase; }
    }

    /** TransitToState. The end of an evaluation re-enters it, but only to wake up, and waking
        up never starts an evaluation. */
    method TransitTo(e: Env, next: State) returns (ok: bool)
      requires Valid()
      modifies this
      ensures Valid() && Outcome(Snapshot(), ok) == TransitToState(old(Snapshot()), e, next)
      decreases if next == Working then 0 else 7
    {
      if !TransitionValid(cur, next) { return false; }
      ok := true;
      if cur == next {
        UnblockCurrentState();
      } else if next == Maintenance || cur == Maintenance {
        TransitMaintenance(e, next);
      } else if Index(cur) < Index(next) {
        ok := EnterStandbyTo(e, next);
      } else {
        ExitStandbyTo(e, next);
      }
    }

    // -------------------------------------------------------------- tasks and events

    /** nextState_ of the given state object */
    method GetNextState(s: State) returns (next: State)
      ensures next == NextOf(Snapshot(), s)
    {
      match s
      case Working => next := Working;
      case Dark => next := DarkNext(cfg);
      case Nap => next := napNext;
      case Maintenance => next := maintNext;
      case Sleep => next := Maintenance;
    }

    method RunTransitTask(e: Env, s: State)
      requires Valid()
      modifies this
      ensures Valid() && Snapshot() == RunTransit(old(Snapshot()).(lock := true), e, s)
    {
      hide RunTransit, Registered;
      AcquireStandbyRunningLock();
      TransitOrBlock(e, s);
    }

    method TransitOrBlock(e: Env, s: State)
      requires Valid()
      modifies this
      ensures Valid() && Snapshot() == RunTransit(old(Snapshot()), e, s)
    {
      NextOfSurvives(Snapshot(), s);
      hide StopEvaluation, TransitToState, Block, Registered;
      StopEvalution();
      var next := GetNextState(s);
      var ok := TransitTo(e, next);
      if !ok { BlockAndRelease(e); }
    }

    method BlockAndRelease(e: Env)
      requires Valid()
      modifies this
      ensures Valid() && Snapshot() == Block(old(Snapshot()), e).(lock := false)
    {
      hide Block, Registered;
      BlockCurrentState(e);
      ReleaseStandbyRunningLock();
    }

    /** The first phase task takes the standby lock. */
    method EnterFirstPhase(e: Env, s: State)
      requires Valid()
      modifies this
      ensures Valid() && Snapshot() == RunPhase(old(Snapshot()).(lock := true), e, s)
    {
      hide RunPhase, Registered;
      AcquireStandbyRunningLock();
      TransitToPhase(e, s);
    }

    method TransitToPhase(e: Env, s: State)
      requires Valid()
      modifies this
      ensures Valid() && Snapshot() == RunPhase(old(Snapshot()), e, s)
    {
      hide StartEval;
      var phase := 0;
      if s == Nap { phase := napPhase; }
      if s == Sleep { phase := sleepPhase; }
      StartEvalCurrentState(e, EvalParams(s, phase, s, phase + 1, false));
    }

    method DetectRepeatedly(e: Env)
      requires Valid()
      modifies this
      ensures Valid() && Snapshot() == RunRepeat(old(Snapshot()).(repeated := true), e)
    {
      hide StartEval;
      repeated := true;
      StartEvalCurrentState(e, EvalParams(Sleep, sleepPhase, Sleep, sleepPhase, true));
    }

    method CheckScreenStatus(e: Env)
      requires Valid()
      modifies this
      ensures Valid() && Snapshot() == RunScreenCheck(old(Snapshot()), e)
    {
      hide TransitToState;
      if !screenOn { var ok := TransitTo(e, Dark); }
    }

    method TransitHoldSleepState(e: Env)
      requires Valid()
      modifies this
      ensures Valid() && Snapshot() == HoldSleep(old(Snapshot()), e)
    {
      hide TransitInner, StoppedTimers, Registered;
      if cur != Sleep {
        UnblockCurrentState();
        TransitToStateInner(e, Sleep);
      }
      StopSleepTimers();
    }

    method StopSleepTimers()
      modifies this`timers
      ensures Snapshot() == old(Snapshot()).(timers := old(timers) - StoppedTimers(Sleep))
    {
      StopTimer(TransitTimer(Sleep));
      StopTimer(RepeatTimer);
      assert timers == old(timers) - StoppedTimers(Sleep);
    }

    method HandleUserSleepState(e: Env, isSleep: bool)
      requires Valid()
      modifies this
      ensures Valid() && Snapshot() == UserSleep(old(Snapshot()), e, isSleep)
    {
      hide HoldSleep, BeginState;
      if screenOn { return; }
      if isSleep {
        TransitHoldSleepState(e);
      } else if cur == Sleep {
        BeginCurrentState(e);
      }
    }

    /** HandleCommonEvent: half-hour timer, lid, screen, wake-up events, sleep events, DARK. */
    method HandleEvent(e: Env, action: Action)
      requires Valid()
      modifies this
      ensures Valid() && Snapshot() == HandleCommonEvent(old(Snapshot()), e, action)
    {
      hide TransitToState, React, Registered;
      ReactTo(e, action);
      if cur != Working { return; }
      if !screenOn { var ok := TransitTo(e, Dark); }
    }

    method ReactTo(e: Env, action: Action)
      requires Valid()
      modifies this
      ensures Valid() && Snapshot() == React(old(Snapshot()), e, action)
    {
      hide Wake, UserSleep, HoldSleep, Registered;
      if action == LidOpen { WakeUp(e); }
      if action == ScreenOn { screenOn := true; }
      else if action == ScreenOff { screenOn := false; }
      if action in {ScreenOn, ScreenUnlocked, Charging, UsbAttached} { WakeUp(e); }
      if action.UserSleepChanged? { HandleUserSleepState(e, action.isSleep); }
      if action == EnterForceSleep { TransitHoldSleepState(e); }
    }

    method WakeUp(e: Env)
      requires Valid()
      modifies this
      ensures Valid() && Snapshot() == Wake(old(Snapshot()), e)
    {
      WakeIsTransit(Snapshot(), e);
      hide TransitToState, Wake;
      var ok := TransitTo(e, Working);
    }

    method HandleMessage(e: Env, msg: Message)
      requires Valid()
      modifies this
      ensures Valid() && Snapshot() == RunTask(old(Snapshot()), e, Deliver(msg))
    {
      hide HandleCommonEvent, Registered;
      hist := hist.(done := hist.done + [msg]);
      if msg.CommonEvent? { HandleEvent(e, msg.action); }
    }

    method Execute(e: Env, t: Task)
      requires Valid()
      modifies this
      ensures Valid() && Snapshot() == RunTask(old(Snapshot()), e, t)
    {
      hide RunTransit, RunPhase, RunRepeat, RunScreenCheck, RunDeliver, Registered, Valid;
      match t
      case ScreenCheck => CheckScreenStatus(e);
      case TransitNext(s) => RunTransitTask(e, s);
      case FirstPhase(s) => EnterFirstPhase(e, s);
      case NextPhase(s) => TransitToPhase(e, s);
      case RepeatDetect => DetectRepeatedly(e);
      case Deliver(msg) => HandleMessage(e, msg);
    }

    /** The handler runs its oldest task. */
    method RunNextTask(e: Env)
      requires Valid() && queue != []
      modifies this
      ensures Valid() && Snapshot() == Next(old(Snapshot()), e, RunHead)
    {
      hide RunTask, Registered;
      var t := queue[0];
      queue := queue[1..];
      Execute(e, t);
    }

    /** An armed timer fires; only the repeated one stays armed. */
    method OnTrigger(t: Timer)
      requires Valid() && t in timers
      modifies this`timers, this`queue
      ensures Valid() && Snapshot() == Next(old(Snapshot()), Env(false, false, 0, 0, false), Fire(t))
    {
      hide Registered;
      match t
      case TransitTimer(s) =>
        timers := timers - {t};
        queue := queue + [TransitNext(s)];
      case RepeatTimer => queue := queue + [RepeatDetect];
    }
  }

  lemma {:induction false} RemoveNamedLast(q: seq<Task>, t: Task, n: TaskName)
    ensures RemoveNamed(q + [t], n) == RemoveNamed(q, n) + (if Name(t) == n then [] else [t])
  {
    hide Name;
    if q == [] {
    } else {
      RemoveNamedLast(q[1..], t, n);
      assert (q + [t])[1..] == q[1..] + [t];
    }
  }

  lemma EnterKeepsPre(m: Machine, e: Env)
    ensures EnterSleep(m, e).pre == m.pre && EnterSleep(m, e).cur == m.cur
  {
    hide MaintTimeout, NextIndex;
  }

  /** Raising the flag of the state manager first makes no difference. */
  lemma FlagFirst(m: Machine, e: Env, p: EvalParams)
    ensures StartEval(m.(evaluating := true), e, p) == StartEval(m, e, p)
  {
    assert OpenEval(m.(evaluating := true), Classify(m.cfg, p)) == OpenEval(m, Classify(m.cfg, p));
    hide OpenEval, EndEval, Block, Classify;
  }

  lemma SleepEvalIs(m: Machine, e: Env, result: bool)
    ensures m.sleepPhase < PHASE_END ==> EndEvalSleep(m, e, result) == AdvanceSleep(m, result)
    ensures m.sleepPhase >= PHASE_END && !result && m.repeated
            ==> EndEvalSleep(m, e, result) == Wake(m, e).(repeated := false)
    ensures m.sleepPhase >= PHASE_END && !(!result && m.repeated)
            ==> EndEvalSleep(m, e, result) == m.(repeated := false)
  {
    hide AdvanceSleep, Wake;
  }

  // ---------------------------------------------------------------- what the methods leave, as values

  lemma SleepResumes(m: Machine, r: Machine, e: Env)
    requires m.pre == Maintenance
    requires r == m.(repeated := false, sleepIndex := r.sleepIndex, timers := r.timers, hist := r.hist)
    requires r.sleepIndex == NextIndex(m.cfg.sleepIntervals, m.sleepIndex, false)
    requires r.hist == m.hist.(sleepReturns := m.hist.sleepReturns + 1)
    requires var timeout := MaintTimeout(m.cfg.sleepIntervals, r.sleepIndex, e.extraDelay);
             r.timers == if timeout != 0 then m.timers[TransitTimer(Sleep) := timeout] else m.timers
    ensures r == EnterSleep(m, e)
  {
    hide MaintTimeout, NextIndex;
  }

  lemma SleepStarts(m: Machine, r: Machine, e: Env)
    requires m.pre != Maintenance
    requires r == m.(repeated := false, sleepIndex := 0, sleepPhase := 0, timers := r.timers, queue := r.queue,
                     hist := r.hist)
    requires r.timers == m.timers[TransitTimer(Sleep) := MaintTimeout(m.cfg.sleepIntervals, 0, e.extraDelay)]
    requires r.queue == m.queue + [FirstPhase(Sleep)] && r.hist == m.hist.(sleepReturns := 0)
    ensures r == EnterSleep(m, e)
  {
    hide MaintTimeout;
  }

  lemma NapStarts(m: Machine, r: Machine, e: Env)
    requires m.pre != Maintenance
    requires r == m.(napNext := r.napNext, napIndex := 0, napPhase := 0, timers := r.timers, queue := r.queue,
                     hist := r.hist)
    requires r.napNext == if m.cfg.sleepSwitch then Sleep else m.napNext
    requires r.timers == if m.cfg.sleepSwitch
                         then m.timers[TransitTimer(Nap) := MinInt(m.cfg.napTimeout * MSEC_PER_SEC, e.napLimit)]
                         else m.timers
    requires r.queue == m.queue + [FirstPhase(Nap)] && r.hist == m.hist.(napReturns := 0)
    ensures r == BeginNap(m, e)
  {
  }

  lemma NapBlocks(m: Machine, r: Machine, e: Env)
    requires m.cur == Nap && m.blocked
    requires r == m.(napNext := r.napNext, timers := r.timers, lock := false)
    requires var timeout := MaintTimeout(m.cfg.napIntervals, m.napIndex, e.extraDelay);
             && r.napNext == (if timeout > 0 then Maintenance else m.napNext)
             && r.timers == (if timeout > 0 then m.timers[TransitTimer(Nap) := timeout] else m.timers)
    ensures r == Block(m, e)
  {
    hide MaintTimeout;
  }

  lemma NapResumes(m: Machine, r: Machine, e: Env)
    requires m.pre == Maintenance
    requires r == m.(napNext := Maintenance, napIndex := r.napIndex, timers := r.timers, hist := r.hist)
    requires r.napIndex == NextIndex(m.cfg.napIntervals, m.napIndex, false)
    requires r.hist == m.hist.(napReturns := m.hist.napReturns + 1)
    requires var timeout := MaintTimeout(m.cfg.napIntervals, r.napIndex, e.extraDelay);
             r.timers == if timeout != 0 then m.timers[TransitTimer(Nap) := timeout] else m.timers
    ensures r == BeginNap(m, e)
  {
    hide MaintTimeout, NextIndex;
  }

  /** A block mark more makes no difference. */
  lemma BlockedAgain(m: Machine, e: Env)
    ensures Block(m.(blocked := true), e) == Block(m, e)
  {
    hide MaintTimeout;
  }

  lemma NextOfSurvives(m: Machine, s: State)
    ensures NextOf(StopEvaluation(m), s) == NextOf(m, s)
  {
  }

  lemma WakeIsTransit(m: Machine, e: Env)
    ensures TransitToState(m, e, Working) == Outcome(Wake(m, e), true)
  {
  }
}
