/** The standby running lock. It is taken by the first phase task of NAP and SLEEP and by the
    transition task, and it has to be given back when the phases or the evaluation end.

    A first-phase task that runs when the phases are already over takes the lock and nothing
    gives it back. `Covered` says that no queued first-phase task can run that late. */
module StandbyLock {
  import opened StandbyTypes
  import opened StandbyMachine
  import opened StandbyInvariant

  // ---------------------------------------------------------------- the lock invariant

  /** Running this task may complete a phase of the current state. */
  predicate Advances(t: Task, nap: bool) {
    t.FirstPhase? || t.NextPhase? || t.RepeatDetect? || (nap && t.TransitNext?)
  }

  /** How many queued tasks may complete a phase. */
  function CountAdvances(q: seq<Task>, nap: bool): nat {
    if q == [] then 0
    else (if Advances(q[0], nap) then 1 else 0) + CountAdvances(q[1..], nap)
  }

  /** Events that wake the device from any state. */
  predicate WakesUp(a: Action) {
    a in {ScreenOn, ScreenUnlocked, Charging, UsbAttached, LidOpen}
  }

  /** Running this task takes a sleeping device out of SLEEP, which removes the phase tasks queued
      behind it. */
  predicate Leaves(t: Task, nap: bool) {
    !nap && (t.TransitNext? || (t.Deliver? && t.msg.CommonEvent? && WakesUp(t.msg.action)))
  }

  /** Every first-phase task is preceded by fewer than `budget` tasks that complete a phase, or by
      one that leaves SLEEP. */
  predicate Covered(q: seq<Task>, nap: bool, budget: int) {
    q == [] || Leaves(q[0], nap) ||
    (&& (q[0].FirstPhase? ==> budget > 0)
     && Covered(q[1..], nap, if Advances(q[0], nap) then budget - 1 else budget))
  }

  /** The phases left, less one for a pending evaluation. */
  function Budget(m: Machine): int {
    PHASE_END - PhaseOf(m, m.cur) - (if m.monitoring then 1 else 0)
  }

  predicate PhaseQueued(q: seq<Task>) {
    exists t :: t in q && Name(t) == PhaseTask
  }

  /** Somebody is going to give the lock back: a pending evaluation, or a queued phase task of
      the current state with phases left. */
  predicate LockSafe(m: Machine) {
    m.lock ==> m.monitoring || (PhaseOf(m, m.cur) < PHASE_END && PhaseQueued(m.queue))
  }

  predicate LockInv(m: Machine) {
    && LockSafe(m)
    && (m.lock && m.cur == Sleep ==> m.sleepPhase < PHASE_END)
    && (m.monitoring && m.cur == Nap ==> m.napNext in {Sleep, Maintenance})
    && (m.cur in {Nap, Sleep} ==> Covered(m.queue, m.cur == Nap, Budget(m)))
  }

  // ---------------------------------------------------------------- covered queues

  lemma {:induction false} CoveredMore(q: seq<Task>, nap: bool, a: int, b: int)
    requires Covered(q, nap, a) && a <= b
    ensures Covered(q, nap, b)
  {
    hide Leaves;
    if q == [] || Leaves(q[0], nap) {
    } else if Advances(q[0], nap) {
      CoveredMore(q[1..], nap, a - 1, b - 1);
    } else {
      CoveredMore(q[1..], nap, a, b);
    }
  }

  lemma {:induction false} CoveredAppend(q: seq<Task>, nap: bool, budget: int, t: Task)
    requires Covered(q, nap, budget) && !t.FirstPhase?
    ensures Covered(q + [t], nap, budget)
  {
    hide Leaves;
    if q != [] && !Leaves(q[0], nap) {
      CoveredAppend(q[1..], nap, if Advances(q[0], nap) then budget - 1 else budget, t);
      assert (q + [t])[1..] == q[1..] + [t];
    }
  }

  /** Some queued task leaves SLEEP. */
  predicate HasExit(q: seq<Task>, nap: bool) {
    exists t :: t in q && Leaves(t, nap)
  }

  /** With fewer advancing tasks than the budget, one more first-phase task is covered. */
  lemma {:induction false} CoveredByCount(q: seq<Task>, nap: bool, budget: int, s: State)
    requires CountAdvances(q, nap) < budget
    ensures Covered(q + [FirstPhase(s)], nap, budget)
  {
    hide Leaves;
    if q != [] {
      CoveredByCount(q[1..], nap, if Advances(q[0], nap) then budget - 1 else budget, s);
      assert (q + [FirstPhase(s)])[1..] == q[1..] + [FirstPhase(s)];
    }
  }

  /** Behind a task that leaves SLEEP, any first-phase task is covered. */
  lemma {:induction false} CoveredByExit(q: seq<Task>, nap: bool, budget: int, s: State)
    requires Covered(q, nap, budget) && HasExit(q, nap)
    ensures Covered(q + [FirstPhase(s)], nap, budget)
  {
    var t :| t in q && Leaves(t, nap);
    hide Leaves;
    if !Leaves(q[0], nap) {
      assert t in q[1..];
      CoveredByExit(q[1..], nap, if Advances(q[0], nap) then budget - 1 else budget, s);
      assert (q + [FirstPhase(s)])[1..] == q[1..] + [FirstPhase(s)];
    }
  }

  /** A queue of messages covers any budget and advances nothing. */
  lemma {:induction false} MessagesCovered(q: seq<Task>, nap: bool, budget: int)
    requires forall t :: t in q ==> t.Deliver?
    ensures Covered(q, nap, budget) && CountAdvances(q, nap) == 0
  {
    hide Leaves;
    if q != [] {
      assert q[0] in q;
      MessagesCovered(q[1..], nap, budget);
    }
  }

  /** Once the budget is used up there is no first-phase task that will run, so any budget will do. */
  lemma {:induction false} CoveredSpent(q: seq<Task>, nap: bool, a: int, b: int)
    requires Covered(q, nap, a) && a <= 0
    ensures Covered(q, nap, b)
  {
    hide Leaves;
    if q == [] || Leaves(q[0], nap) {
    } else if Advances(q[0], nap) {
      CoveredSpent(q[1..], nap, a - 1, b - 1);
    } else {
      CoveredSpent(q[1..], nap, a, b);
    }
  }

  // ---------------------------------------------------------------- operations

  /** Outside NAP and SLEEP there is nothing to prove. */
  lemma ElsewhereSafe(m: Machine)
    requires !m.lock && m.cur !in {Nap, Sleep}
    ensures LockInv(m)
  {
  }

  /** The queue after BeginState: messages, then at most one first-phase task. */
  lemma BeginCovered(m: Machine, e: Env, budget: int)
    requires (forall t :: t in m.queue ==> t.Deliver?) && m.cur in {Nap, Sleep}
    requires m.pre == Maintenance || budget > 0
    ensures Covered(BeginState(m, e).queue, m.cur == Nap, budget)
  {
    var nap := m.cur == Nap;
    MessagesCovered(m.queue, nap, budget);
    hide MaintTimeout, NextIndex, Covered, CountAdvances;
    if m.pre != Maintenance {
      var q := m.queue + [FirstPhase(m.cur)];
      CoveredByCount(m.queue, nap, budget, m.cur);
      CoveredAppend(q, nap, budget, Deliver(HalfHour(true)));
      BeginQueue(m, e);
    }
  }

  lemma BeginQueue(m: Machine, e: Env)
    requires m.cur in {Nap, Sleep} && m.pre != Maintenance
    ensures var q := m.queue + [FirstPhase(m.cur)];
            BeginState(m, e).queue in {q, q + [Deliver(HalfHour(true))]}
    ensures PhaseOf(BeginState(m, e), m.cur) == 0
  {
    hide MaintTimeout;
    if m.cur == Sleep && e.halfHourPassed {
      var m1 := EnterSleep(m, e);
      assert m1.queue == m.queue + [FirstPhase(m.cur)] && m1.sleepPhase == 0;
      hide EnterSleep;
      assert HalfHourInner(m1, true).sleepPhase == 0;
    }
  }

  lemma TransitInnerLock(m: Machine, e: Env, next: State)
    requires Core(m) && MayEnter(m, next)
    ensures LockInv(TransitInner(m, e, next))
  {
    var r := TransitInner(m, e, next);
    TransitInnerKeeps(m, e, next);
    if next in {Nap, Sleep} {
      LeaveEnters(m, next);
      var m1 := Leave(m, next);
      var m2 := BeginState(m1, e);
      assert m1.pre == m.cur && m1.cur == next;
      if m1.pre != Maintenance { BeginQueue(m1, e); }
      hide Leave, BeginState, Core, Full, Entering, LogAt, Covered;
      assert r.queue == m2.queue + [Deliver(StateTransit(m2.pre, m2.cur))] && PhaseOf(r, next) == PhaseOf(m2, next);
      BeginCovered(m1, e, Budget(r));
      CoveredAppend(m2.queue, next == Nap, Budget(r), Deliver(StateTransit(m2.pre, m2.cur)));
    }
  }

  lemma WakeLock(m: Machine, e: Env)
    requires Core(m) && (m.cur == Working ==> !m.lock)
    ensures LockInv(Wake(m, e)) && !Wake(m, e).lock
  {
    WakeKeeps(m, e);
    assert m.cur == Working ==> Wake(m, e).lock == m.lock;
    hide Core, Wake, Full;
    ElsewhereSafe(Wake(m, e));
  }

  /** Completing phase `p` of `s` leaves a queue that covers the phases after it. */
  lemma PhasePostsCovered(q: seq<Task>, s: State, p: nat, result: bool, nap: bool, budget: int)
    requires Covered(q, nap, budget)
    ensures Covered(q + PhasePosts(s, p, result), nap, budget)
    ensures p + 1 < PHASE_END ==> PhaseQueued(q + PhasePosts(s, p, result))
  {
    var msg := Deliver(PhaseTransit(s, p, p + 1));
    var q1 := if result then q + [msg] else q;
    CoveredAppend(q, nap, budget, msg);
    CoveredAppend(q1, nap, budget, NextPhase(s));
    hide Covered;
    var r := q + PhasePosts(s, p, result);
    assert r == if p + 1 < PHASE_END then q1 + [NextPhase(s)] else q1;
    if p + 1 < PHASE_END {
      assert NextPhase(s) in r && Name(NextPhase(s)) == PhaseTask;
    }
  }

  /** What the end of an evaluation needs, with the flags already down. */
  predicate MayEnd(m: Machine) {
    && m.cur in {Nap, Sleep}
    && (if PhaseOf(m, m.cur) < PHASE_END
        then Covered(m.queue, m.cur == Nap, PHASE_END - PhaseOf(m, m.cur) - 1)
        else Covered(m.queue, m.cur == Nap, 0) && (m.lock ==> m.cur == Nap && m.napNext != Nap))
  }

  /** A phase before the last one ends. */
  lemma PhaseEndLock(m: Machine, e: Env, result: bool)
    requires !m.monitoring && MayEnd(m) && PhaseOf(m, m.cur) < PHASE_END
    ensures LockInv(StateEndEval(m, e, result))
  {
    var p := PhaseOf(m, m.cur);
    PhasePostsCovered(m.queue, m.cur, p, result, m.cur == Nap, PHASE_END - p - 1);
    hide PhasePosts, Covered;
  }

  lemma StateEndEvalLock(m: Machine, e: Env, result: bool)
    requires Full(m) && !m.monitoring && MayEnd(m)
    ensures LockInv(StateEndEval(m, e, result))
  {
    var p := PhaseOf(m, m.cur);
    assert p <= PHASE_END;
    hide LogAt, Owned, Evals, Targets, Counters, Wake, TransitInner, Leaves;
    if p < PHASE_END {
      PhaseEndLock(m, e, result);
    } else if m.cur == Nap {
      if !result { WakeLock(m, e); }
      else if m.napNext != Nap { TransitInnerLock(m, e, Sleep); }
    } else {
      if !result && m.repeated {
        WakeLock(m, e);
        WakeKeeps(m, e);
      }
    }
  }

  /** What starting an evaluation from a task of NAP or SLEEP needs. */
  predicate MayStart(m: Machine, p: EvalParams) {
    && m.cur in {Nap, Sleep} && Describes(m, p)
    && Covered(m.queue, m.cur == Nap, Budget(m) - 1)
    && (m.monitoring && m.cur == Nap ==> m.napNext in {Sleep, Maintenance})
    && (m.lock && m.cur == Sleep ==> m.sleepPhase < PHASE_END)
    && (m.cur == Nap && (p.nextState != Nap || (m.lock && m.napPhase == PHASE_END))
        ==> m.napNext in {Sleep, Maintenance})
  }

  lemma StartEvalLock(m: Machine, e: Env, p: EvalParams)
    requires Full(m) && MayStart(m, p)
    ensures LockInv(StartEval(m, e, p))
  {
    var nap := m.cur == Nap;
    var phase := PhaseOf(m, m.cur);
    assert phase <= PHASE_END;
    CoveredMore(m.queue, nap, Budget(m) - 1, Budget(m));
    hide Core, LogAt, Covered;
    if !m.monitoring {
      var kind := Classify(m.cfg, p);
      if kind == MotionMonitor {
        WatchLock(m, e, p);
      } else {
        if phase == PHASE_END { CoveredSpent(m.queue, nap, -1, 0); }
        EndCloses(m, e, kind);
      }
    }
  }

  /** A motion watch begins, or blocks the state. */
  lemma WatchLock(m: Machine, e: Env, p: EvalParams)
    requires MayStart(m, p) && !m.monitoring && Classify(m.cfg, p) == MotionMonitor
    ensures LockInv(StartEval(m, e, p))
  {
    var m1 := OpenEval(m, MotionMonitor);
    assert PhaseOf(m, m.cur) == PHASE_END;
    assert LockInv(m1) by {
      assert Budget(m1) == Budget(m) - 1;
      hide Covered;
    }
    hide LockInv, MayStart, OpenEval;
    BlockLock(m1, e);
    hide Block;
  }

  /** An evaluation that passes or fails at once. */
  lemma EndCloses(m: Machine, e: Env, kind: Monitor)
    requires Full(m) && !m.monitoring && MayEnd(m)
    ensures LockInv(EndEval(OpenEval(m, kind), e, true))
  {
    var m1 := CloseEval(OpenEval(m, kind));
    assert MayEnd(m1) by { hide Covered; }
    assert Full(m1) by { hide Linked, EndOf, Messages; }
    hide Full, MayEnd, StateEndEval;
    StateEndEvalLock(m1, e, true);
  }

  // ---------------------------------------------------------------- steps

  /** There is room for one more first-phase task: a task already queued leaves SLEEP first, or the
      queued tasks and the pending evaluation cannot use up the phases before it runs. */
  predicate Room(q: seq<Task>, pending: bool) {
    HasExit(q, false) || CountAdvances(q, false) + (if pending then 1 else 0) < PHASE_END
  }

  predicate Guarded(m: Machine, s: Step) {
    AwakeStep(m, s) ==> Room(m.queue[1..], m.monitoring)
  }

  lemma RunTransitNapLock(m: Machine, e: Env)
    requires Core(m) && m.cur == Nap && m.napNext in {Sleep, Maintenance}
    requires Covered(m.queue, true, Budget(m) - 1)
    ensures LockInv(RunTransit(m, e, Nap))
  {
    StopEvaluationKeeps(m);
    var m1 := StopEvaluation(m);
    CoveredMore(m.queue, true, Budget(m) - 1, Budget(m1) - 1);
    CoveredMore(m.queue, true, Budget(m) - 1, Budget(m1));
    hide StopEvaluation, LogAt, Owned, Evals, Targets, Counters, Covered;
    if m1.napNext == Maintenance {
      hide TransitInner;
      TransitInnerLock(m1, e, Maintenance);
    } else if m1.blocked {
      hide MaintTimeout;
    } else {
      hide StartEval;
      StartEvalLock(m1, e, EvalParams(Nap, m1.napPhase, Sleep, 0, false));
    }
  }

  lemma RunTransitOtherLock(m: Machine, e: Env)
    requires Core(m) && m.cur in {Maintenance, Sleep}
    ensures LockInv(RunTransit(m, e, m.cur))
  {
    StopEvaluationKeeps(m);
    var m1 := StopEvaluation(m);
    hide StopEvaluation, LogAt, Owned, Evals, Targets, Counters, TransitInner;
    TransitInnerLock(m1, e, NextOf(m1, m.cur));
  }

  lemma RunTransitDarkLock(m: Machine, e: Env)
    requires Core(m) && m.cur == Dark && DarkNext(m.cfg) != Dark
    ensures LockInv(RunTransit(m, e, Dark))
  {
    StopEvaluationKeeps(m);
    var m1 := StopEvaluation(m);
    RunTransitDarkIs(m, e);
    hide Core, StopEvaluation, StartEval, LockInv, RunTransit;
    if m1.blocked {
      ElsewhereSafe(Block(m1, e).(lock := false));
    } else {
      DarkPasses(m1, e);
    }
  }

  /** Nothing watches the way out of DARK. */
  lemma DarkPasses(m: Machine, e: Env)
    requires Core(m) && m.cur == Dark && DarkNext(m.cfg) != Dark && !m.monitoring
    ensures LockInv(StartEval(m, e, EvalParams(Dark, 0, DarkNext(m.cfg), 0, false)))
  {
    var m1 := CloseEval(OpenEval(m, NoMonitor));
    assert Full(m1) by { hide Linked, EndOf, Messages; }
    assert MayEnter(m1, DarkNext(m.cfg)) by { hide LogAt, Owned, Targets, Counters; }
    assert StartEval(m, e, EvalParams(Dark, 0, DarkNext(m.cfg), 0, false)) == TransitInner(m1, e, DarkNext(m.cfg))
      by { hide Core, TransitInner; }
    hide Core, StartEval, TransitInner, LockInv;
    TransitInnerLock(m1, e, DarkNext(m.cfg));
  }

  lemma ReactLock(m: Machine, e: Env, a: Action)
    requires Full(m) && LockInv(m) && (m.cur !in {Nap, Sleep} ==> !m.lock)
    requires a == UserSleepChanged(false) && !m.screenOn && m.cur == Sleep && m.pre != Maintenance
             ==> Room(m.queue, m.monitoring)
    ensures LockInv(React(m, e, a))
  {
    hide Core, Full, LockInv, React, Room;
    if WakesUp(a) {
      WakesToWorking(m, e, a);
      ElsewhereSafe(React(m, e, a));
    } else {
      StaysLocked(m, e, a);
    }
  }

  /** The actions that do not wake the device. */
  lemma StaysLocked(m: Machine, e: Env, a: Action)
    requires Full(m) && LockInv(m) && !WakesUp(a)
    requires a == UserSleepChanged(false) && !m.screenOn && m.cur == Sleep && m.pre != Maintenance
             ==> Room(m.queue, m.monitoring)
    ensures LockInv(React(m, e, a))
  {
    hide Core, Full, Wake, HoldSleep, BeginState, LockInv, Room;
    match a
    case ScreenOff => LockSame(m, m.(screenOn := false));
    case UserSleepChanged(isSleep) =>
      if !m.screenOn {
        if isSleep { HoldSleepLock(m, e); }
        else if m.cur == Sleep { AwakeLock(m, e); }
      }
    case EnterForceSleep => HoldSleepLock(m, e);
    case _ =>
  }

  /** Lock safety speaks only of the lock, the place, the phases, the evaluation and the queue. */
  lemma LockSame(m: Machine, r: Machine)
    requires LockInv(m)
    requires r.lock == m.lock && r.cur == m.cur && r.monitoring == m.monitoring && r.queue == m.queue
    requires r.napPhase == m.napPhase && r.sleepPhase == m.sleepPhase && r.napNext == m.napNext
    ensures LockInv(r)
  {
    hide Covered;
  }

  lemma HoldSleepLock(m: Machine, e: Env)
    requires Full(m) && LockInv(m)
    ensures LockInv(HoldSleep(m, e))
  {
    var m0 := m.(blocked := false);
    CoreEvals(m);
    var m1 := if m.cur != Sleep then TransitInner(m0, e, Sleep) else m;
    hide TransitInner, Core, LockInv;
    if m.cur != Sleep {
      ShapeKeeps(m, m0);
      TransitInnerLock(m0, e, Sleep);
    }
    LockSame(m1, HoldSleep(m, e));
  }

  /** SLEEP begins again after maintenance: only its timer and its marks change. */
  lemma ResumeLock(m: Machine, e: Env)
    requires LockInv(m) && m.cur == Sleep && m.pre == Maintenance
    ensures LockInv(BeginState(m, e))
  {
    hide LockInv, MaintTimeout, NextIndex;
    LockSame(m, EnterSleep(m, e));
  }

  lemma AwakeLock(m: Machine, e: Env)
    requires Full(m) && LockInv(m) && m.cur == Sleep
    requires m.pre != Maintenance ==> Room(m.queue, m.monitoring)
    ensures LockInv(BeginState(m, e))
  {
    hide Full;
    if m.pre == Maintenance {
      ResumeLock(m, e);
    } else {
      RestartLock(m, e);
    }
  }

  lemma RestartLock(m: Machine, e: Env)
    requires LockInv(m) && m.cur == Sleep && m.pre != Maintenance && Room(m.queue, m.monitoring)
    ensures LockInv(BeginState(m, e))
  {
    BeginQueue(m, e);
    CoveredMore(m.queue, false, Budget(m), PHASE_END - (if m.monitoring then 1 else 0));
    BeginControl(m, e);
    hide BeginState, LockInv, Room;
    RestartedLock(m.queue, m.monitoring, BeginState(m, e));
  }

  lemma RestartedLock(q: seq<Task>, pending: bool, r: Machine)
    requires Room(q, pending) && Covered(q, false, PHASE_END - (if pending then 1 else 0)) && r.cur == Sleep && r.sleepPhase == 0 && r.monitoring == pending
    requires var q1 := q + [FirstPhase(Sleep)]; r.queue in {q1, q1 + [Deliver(HalfHour(true))]}
    ensures LockInv(r)
  {
    var budget := PHASE_END - (if pending then 1 else 0);
    var q1 := q + [FirstPhase(Sleep)];
    if HasExit(q, false) { CoveredByExit(q, false, budget, Sleep); } else { CoveredByCount(q, false, budget, Sleep); }
    CoveredAppend(q1, false, budget, Deliver(HalfHour(true)));
    hide Covered, CountAdvances;
    assert r.queue[|q|] == FirstPhase(Sleep) && Name(FirstPhase(Sleep)) == PhaseTask;
  }

  lemma BeginControl(m: Machine, e: Env)
    requires m.cur == Sleep
    ensures BeginState(m, e).monitoring == m.monitoring && BeginState(m, e).cur == Sleep
  {
    EnterControl(m, e);
    hide EnterSleep;
  }

  lemma EnterControl(m: Machine, e: Env)
    ensures EnterSleep(m, e).monitoring == m.monitoring && EnterSleep(m, e).cur == m.cur
  {
    hide MaintTimeout, NextIndex;
  }

  lemma HandleCommonEventLock(m: Machine, e: Env, a: Action)
    requires Full(m) && LockInv(m) && (m.cur !in {Nap, Sleep} ==> !m.lock)
    requires a == UserSleepChanged(false) && !m.screenOn && m.cur == Sleep && m.pre != Maintenance
             ==> Room(m.queue, m.monitoring)
    ensures LockInv(HandleCommonEvent(m, e, a))
  {
    ReactLock(m, e, a);
    ReactKeeps(m, e, a);
    var m1 := React(m, e, a);
    hide React, TransitToState, Full, Room, LockInv;
    if m1.cur == Working && !m1.screenOn {
      ToDarkKeeps(m1, e);
      ElsewhereSafe(TransitToState(m1, e, Dark).m);
    }
  }

  /** What the queue covers once its oldest task has been taken. */
  lemma TakeCovers(m: Machine)
    requires LockInv(m) && m.queue != [] && m.cur in {Nap, Sleep} && !Leaves(m.queue[0], m.cur == Nap)
    ensures Covered(m.queue[1..], m.cur == Nap, if Advances(m.queue[0], m.cur == Nap) then Budget(m) - 1 else Budget(m))
    ensures m.queue[0].FirstPhase? ==> Budget(m) > 0
  {
  }

  lemma RunTaskLock(m: Machine, e: Env, t: Task)
    requires Core(m) && OwnsTask(m.cur, t) && (t.FirstPhase? || t.NextPhase? || t.RepeatDetect?) && Full(m)
    requires Covered(m.queue, m.cur == Nap, Budget(m) - 1)
    requires t.FirstPhase? ==> Budget(m) > 0
    requires m.lock ==> m.monitoring || PhaseOf(m, m.cur) < PHASE_END
    requires m.lock && m.cur == Sleep ==> m.sleepPhase < PHASE_END
    requires m.monitoring && m.cur == Nap ==> m.napNext in {Sleep, Maintenance}
    ensures LockInv(RunTask(m, e, t))
  {
    hide Core, Full, StartEval, Covered, LockInv;
    match t
    case FirstPhase(s) =>
      MarksFree(m, true, m.repeated);
      StartEvalLock(m.(lock := true), e, EvalParams(s, PhaseOf(m, s), s, PhaseOf(m, s) + 1, false));
    case NextPhase(s) =>
      StartEvalLock(m, e, EvalParams(s, PhaseOf(m, s), s, PhaseOf(m, s) + 1, false));
    case RepeatDetect =>
      MarksFree(m, m.lock, true);
      StartEvalLock(m.(repeated := true), e, EvalParams(Sleep, m.sleepPhase, Sleep, m.sleepPhase, true));
  }

  lemma RunTransitLock(m: Machine, e: Env)
    requires Core(m) && m.cur != Working
    requires m.cur == Dark ==> DarkNext(m.cfg) != Dark
    requires m.cur == Nap ==> m.napNext in {Sleep, Maintenance} && Covered(m.queue, true, Budget(m) - 1)
    ensures LockInv(RunTransit(m, e, m.cur))
  {
    hide RunTransit, Core, LockInv, Covered;
    match m.cur
    case Working =>
    case Dark => RunTransitDarkLock(m, e);
    case Nap => RunTransitNapLock(m, e);
    case Maintenance => RunTransitOtherLock(m, e);
    case Sleep => RunTransitOtherLock(m, e);
  }

  lemma RunHeadLock(m: Machine, e: Env)
    requires Inv(m) && LockInv(m) && m.queue != [] && Guarded(m, RunHead)
    ensures LockInv(Next(m, e, RunHead))
  {
    var t := m.queue[0];
    hide LockInv, Inv, RunTask, Guarded;
    match t {
      case ScreenCheck => ScreenCheckLock(m, e);
      case TransitNext(_) => TransitTaskLock(m, e);
      case Deliver(_) => DeliverLock(m, e);
      case _ => PhaseTaskLock(m, e);
    }
  }

  lemma ScreenCheckLock(m: Machine, e: Env)
    requires Inv(m) && m.queue != [] && m.queue[0].ScreenCheck?
    ensures LockInv(Next(m, e, RunHead))
  {
    TakeKeeps(m);
    hide Core, LockInv, TransitToState;
    if !m.screenOn { ToDarkKeeps(Take(m), e); }
    ElsewhereSafe(Next(m, e, RunHead));
  }

  lemma TransitTaskLock(m: Machine, e: Env)
    requires Inv(m) && LockInv(m) && m.queue != [] && m.queue[0].TransitNext?
    ensures LockInv(Next(m, e, RunHead))
  {
    TakeKeeps(m);
    assert HeadsOn(m, m.queue[0].state);
    if m.cur == Nap { TakeCovers(m); }
    var m1 := Take(m).(lock := true);
    assert Budget(m1) == Budget(m);
    hide Core, Full, LockInv, RunTransit, Covered, Budget;
    MarksFree(Take(m), true, Take(m).repeated);
    RunTransitLock(m1, e);
  }

  lemma PhaseTaskLock(m: Machine, e: Env)
    requires Inv(m) && LockInv(m) && m.queue != []
    requires m.queue[0].FirstPhase? || m.queue[0].NextPhase? || m.queue[0].RepeatDetect?
    ensures LockInv(Next(m, e, RunHead))
  {
    TakeKeeps(m);
    if m.cur in {Nap, Sleep} { TakeCovers(m); }
    assert Budget(Take(m)) == Budget(m);
    hide Core, RunTask, Covered;
    RunTaskLock(Take(m), e, m.queue[0]);
  }

  lemma DeliverLock(m: Machine, e: Env)
    requires Inv(m) && LockInv(m) && m.queue != [] && m.queue[0].Deliver? && Guarded(m, RunHead)
    ensures LockInv(Next(m, e, RunHead))
  {
    TakeKeeps(m);
    HeadIs(m, e);
    var msg := m.queue[0].msg;
    hide Core, Full, LockInv, HandleCommonEvent, Room, Next;
    if msg.CommonEvent? && WakesUp(msg.action) {
      WakeEventLock(Take(m), e, msg.action);
    } else {
      TakenLock(m);
      if msg.CommonEvent? { HandleCommonEventLock(Take(m), e, msg.action); }
    }
  }

  /** Whatever was queued, an event that wakes the device leaves no lock behind. */
  lemma WakeEventLock(m: Machine, e: Env, a: Action)
    requires Full(m) && (m.cur !in {Nap, Sleep} ==> !m.lock) && WakesUp(a)
    ensures LockInv(HandleCommonEvent(m, e, a))
  {
    var m1 := React(m, e, a);
    ReactKeeps(m, e, a);
    WakesToWorking(m, e, a);
    hide React, TransitToState, Full, LockInv;
    if !m1.screenOn {
      ToDarkKeeps(m1, e);
      ElsewhereSafe(TransitToState(m1, e, Dark).m);
    } else {
      ElsewhereSafe(m1);
    }
  }

  lemma WakesToWorking(m: Machine, e: Env, a: Action)
    requires Full(m) && (m.cur !in {Nap, Sleep} ==> !m.lock) && WakesUp(a)
    ensures React(m, e, a).cur == Working && !React(m, e, a).lock
  {
    var m1 := if a == ScreenOn then m.(screenOn := true) else m;
    assert Core(m1) by { hide Linked, EndOf, Messages; }
    assert React(m, e, a) == Wake(m1, e) by { hide Wake; }
    hide Core, Full, Wake, React, LockInv;
    WakeKeeps(m1, e);
    WakeLock(m1, e);
  }

  /** Taking a message off the queue changes nothing for the lock. */
  lemma TakenLock(m: Machine)
    requires LockInv(m) && m.queue != [] && m.queue[0].Deliver? && !Leaves(m.queue[0], m.cur == Nap)
    ensures LockInv(Take(m))
  {
    if m.cur in {Nap, Sleep} { TakeCovers(m); }
    PhaseStays(m.queue);
    var r := Take(m);
    assert r.lock == m.lock && r.cur == m.cur && r.monitoring == m.monitoring && r.queue == m.queue[1..]
           && r.napPhase == m.napPhase && r.sleepPhase == m.sleepPhase && r.napNext == m.napNext;
    hide Covered, PhaseQueued, Take;
  }

  lemma PhaseStays(q: seq<Task>)
    requires q != [] && q[0].Deliver?
    ensures PhaseQueued(q) ==> PhaseQueued(q[1..])
  {
    if PhaseQueued(q) {
      var t :| t in q && Name(t) == PhaseTask;
      assert t in q[1..];
    }
  }

  lemma QueueLock(m: Machine, t: Task)
    requires LockInv(m) && !t.FirstPhase?
    ensures LockInv(m.(queue := m.queue + [t]))
  {
    var r := m.(queue := m.queue + [t]);
    if m.cur in {Nap, Sleep} { CoveredAppend(m.queue, m.cur == Nap, Budget(m), t); }
    hide Covered;
    if PhaseQueued(m.queue) {
      var u :| u in m.queue && Name(u) == PhaseTask;
      assert u in r.queue;
    }
  }

  lemma MotionResultLock(m: Machine, e: Env, result: bool)
    requires Inv(m) && LockInv(m)
    ensures LockInv(EndEval(m, e, result))
  {
    if m.evaluating {
      var m1 := CloseEval(m);
      assert Full(m1) by { hide Linked, EndOf, Messages; }
      var nap := m.cur == Nap;
      assert Evals(m) && Places(m);
      hide Inv, Core, Full, StateEndEval, LogAt, Owned;
      if PhaseOf(m, m.cur) == PHASE_END { CoveredSpent(m.queue, nap, -1, 0); }
      StateEndEvalLock(m1, e, result);
    }
  }

  lemma BlockLock(m: Machine, e: Env)
    requires LockInv(m)
    ensures LockInv(Block(m, e))
  {
    if m.cur == Nap {
      BlockNapLock(m, e);
    } else {
      hide LockInv;
      LockSame(m, m.(blocked := true));
    }
  }

  lemma BlockNapLock(m: Machine, e: Env)
    requires LockInv(m) && m.cur == Nap
    ensures LockInv(Block(m, e))
  {
    var r := Block(m, e);
    assert r.cur == Nap && !r.lock && r.monitoring == m.monitoring && r.queue == m.queue && r.napPhase == m.napPhase
           && r.napNext in {m.napNext, Maintenance} by { hide LockInv, MaintTimeout; }
    hide Covered, Block, PhaseQueued;
  }

  lemma NextLock(m: Machine, e: Env, s: Step)
    requires Inv(m) && LockInv(m) && Enabled(m, s) && Guarded(m, s)
    ensures LockInv(Next(m, e, s))
  {
    hide LockInv, Inv, RunTask, EndEval, Block, Room;
    match s
    case RunHead => RunHeadLock(m, e);
    case Fire(t) => FireLock(m, t);
    case HalfHourTimer => HalfHourTimerLock(m);
    case MotionResult(result) => MotionResultLock(m, e, result);
    case MotionRetryFails => BlockLock(m, e);
    case DayNightSwitch => QueueLock(m, Deliver(ConditionChanged));
    case External(msg) => QueueLock(m, Deliver(msg));
  }

  lemma HalfHourTimerLock(m: Machine)
    requires LockInv(m)
    ensures LockInv(HalfHourInner(m, true))
  {
    QueueLock(m, Deliver(HalfHour(true)));
    hide Covered, PhaseQueued;
  }

  lemma FireLock(m: Machine, t: Timer)
    requires LockInv(m)
    ensures LockInv(FireTimer(m, t))
  {
    QueueLock(m, match t case TransitTimer(s) => TransitNext(s) case RepeatTimer => RepeatDetect);
    hide Covered, PhaseQueued;
  }

  lemma InitialLock(cfg: Config, screenOn: bool)
    ensures LockInv(Initial(cfg, screenOn))
  {
  }
}
