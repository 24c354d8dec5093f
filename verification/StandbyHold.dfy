/** A device held in SLEEP stays uninterrupted: who announces MAINTENANCE, and a law over the runs
    that follow forced sleep. */
module StandbyHold {
  import opened StandbyTypes
  import opened StandbyMachine
  import opened StandbyInvariant
  import opened StandbyLog
  import opened StandbyRuns
  import opened StandbyOutcomes

  // ---------------------------------------------------------------- who announces MAINTENANCE

  /** From `m` to `r` the log grew without an entry to MAINTENANCE. */
  predicate NoTurn(m: Machine, r: Machine) {
    Sent(m) <= Sent(r) && forall msg :: msg in News(m, r) ==> !(msg.StateTransit? && msg.cur == Maintenance)
  }

  lemma NoTurnTrans(a: Machine, b: Machine, c: Machine)
    requires NoTurn(a, b) && NoTurn(b, c)
    ensures NoTurn(a, c)
  {
    NewsSplit(a, b, c);
    hide Sent, News;
  }

  lemma NoTurnOne(m: Machine, r: Machine, msg: Message)
    requires Sent(r) == Sent(m) || Sent(r) == Sent(m) + [msg]
    requires !(msg.StateTransit? && msg.cur == Maintenance)
    ensures NoTurn(m, r)
  {
    NewsAtMost(m, r, msg);
    hide Sent, News;
  }

  lemma NoTurnSame(m: Machine, r: Machine)
    requires r.queue == m.queue && r.hist.done == m.hist.done
    ensures NoTurn(m, r)
  {
    assert Sent(r) == Sent(m);
    NoTurnOne(m, r, ConditionChanged);
    hide Sent, News;
  }

  lemma NoTurnPost(m: Machine, r: Machine, t: Task)
    requires r.queue == m.queue + [t] && r.hist.done == m.hist.done
    requires t.Deliver? ==> !(t.msg.StateTransit? && t.msg.cur == Maintenance)
    ensures NoTurn(m, r)
  {
    OneMore(m, r, t);
    NoTurnOne(m, r, if t.Deliver? then t.msg else ConditionChanged);
    hide Sent, News;
  }

  lemma TransitNoTurn(m: Machine, e: Env, next: State)
    requires next != Maintenance
    ensures NoTurn(m, TransitInner(m, e, next))
  {
    var m1 := Leave(m, next);
    var m2 := BeginState(m1, e);
    RemoveTasksKeepsMessages(m.queue, m.cur);
    assert Sent(m1) == Sent(m);
    BeginBegun(m1, e);
    BeginKeepsPlace(m1, e);
    assert m1.cur == next;
    hide Leave, BeginState, RemoveTasks;
    NoTurnOne(m, m2, HalfHour(true));
    NoTurnPost(m2, Announce(m2), Deliver(StateTransit(m2.pre, m2.cur)));
    hide Announce, NoTurn, Sent;
    NoTurnTrans(m, m2, Announce(m2));
  }

  lemma DropNoTurn(m: Machine, on: bool)
    ensures NoTurn(m, HalfHourInner(m, on))
  {
    hide NoTurn;
    if HalfHourInner(m, on) == m { NoTurnSame(m, m); } else { NoTurnPost(m, HalfHourInner(m, on), Deliver(HalfHour(on))); }
  }

  lemma LeaveNoTurn(m: Machine, e: Env, next: State)
    requires next != Maintenance
    ensures NoTurn(m, ExitStandby(m, e, next)) && NoTurn(m, TransitWithMaint(m, e, next))
  {
    var m1 := StopEvaluation(m).(blocked := false);
    NoTurnSame(m, m1);
    hide NoTurn, TransitInner, HalfHourInner, StopEvaluation;
    DropNoTurn(m1, false);
    NoTurnTrans(m, m1, HalfHourInner(m1, false));
    TransitNoTurn(HalfHourInner(m1, false), e, next);
    NoTurnTrans(m, HalfHourInner(m1, false), ExitStandby(m, e, next));
    DropNoTurn(m, false);
    TransitNoTurn(HalfHourInner(m, false), e, next);
    NoTurnTrans(m, HalfHourInner(m, false), TransitInner(HalfHourInner(m, false), e, next));
    TransitNoTurn(m, e, next);
  }

  lemma WakeNoTurn(m: Machine, e: Env)
    ensures NoTurn(m, Wake(m, e))
  {
    NoTurnSame(m, m.(blocked := false));
    hide NoTurn, ExitStandby, TransitWithMaint;
    LeaveNoTurn(m, e, Working);
  }

  lemma AdvanceNoTurn(m: Machine, r: Machine, s: State, p: nat, result: bool)
    requires r.queue == m.queue + PhasePosts(s, p, result) && r.hist.done == m.hist.done
    ensures NoTurn(m, r)
  {
    AdvanceLogs(m, r, s, p, result);
    hide PhasePosts, Sent;
    NoTurnOne(m, r, PhaseTransit(s, p, p + 1));
  }

  lemma VerdictNoTurn(m: Machine, e: Env, result: bool)
    ensures NoTurn(m, StateEndEval(m, e, result))
  {
    NoTurnSame(m, m);
    BlockNoTurn(m, e);
    hide NoTurn, TransitInner, Wake, Block, AdvanceNap, AdvanceSleep;
    hide EndEvalNap, EndEvalSleep;
    match m.cur
    case Working => if result { TransitNoTurn(m, e, Dark); }
    case Dark => if result && DarkNext(m.cfg) != Dark { TransitNoTurn(m, e, DarkNext(m.cfg)); }
    case Nap => NapEvalNoTurn(m, e, result);
    case Maintenance =>
    case Sleep => SleepEvalNoTurn(m, e, result);
  }

  lemma NapEvalNoTurn(m: Machine, e: Env, result: bool)
    ensures NoTurn(m, EndEvalNap(m, e, result))
  {
    NoTurnSame(m, m);
    hide NoTurn, TransitInner, Wake, AdvanceNap;
    if m.napPhase != PHASE_END { NapNoTurn(m, result); }
    else if !result { WakeNoTurn(m, e); }
    else if m.napNext != Nap { TransitNoTurn(m, e, Sleep); }
  }

  lemma SleepEvalNoTurn(m: Machine, e: Env, result: bool)
    ensures NoTurn(m, EndEvalSleep(m, e, result))
  {
    NoTurnSame(m, m.(repeated := false));
    NoTurnSame(Wake(m, e), Wake(m, e).(repeated := false));
    hide NoTurn, Wake, AdvanceSleep;
    if m.sleepPhase < PHASE_END { SleepNoTurn(m, result); }
    else if !result && m.repeated {
      WakeNoTurn(m, e);
      NoTurnTrans(m, Wake(m, e), Wake(m, e).(repeated := false));
    }
  }

  lemma NapNoTurn(m: Machine, result: bool)
    ensures NoTurn(m, AdvanceNap(m, result))
  {
    hide PhasePosts, NoTurn;
    AdvanceNoTurn(m, AdvanceNap(m, result), Nap, m.napPhase, result);
  }

  lemma SleepNoTurn(m: Machine, result: bool)
    ensures NoTurn(m, AdvanceSleep(m, result))
  {
    hide PhasePosts, NoTurn;
    AdvanceNoTurn(m, AdvanceSleep(m, result), Sleep, m.sleepPhase, result);
  }

  lemma BlockSame(m: Machine, e: Env)
    ensures Block(m, e).queue == m.queue && Block(m, e).hist == m.hist
  {
    hide MaintTimeout;
  }

  lemma BlockNoTurn(m: Machine, e: Env)
    ensures NoTurn(m, Block(m, e))
  {
    BlockSame(m, e);
    hide Block, NoTurn;
    NoTurnSame(m, Block(m, e));
  }

  lemma EndNoTurn(m: Machine, e: Env, result: bool)
    ensures NoTurn(m, EndEval(m, e, result))
  {
    NoTurnSame(m, m);
    NoTurnSame(m, CloseEval(m));
    hide NoTurn, StateEndEval, CloseEval;
    VerdictNoTurn(CloseEval(m), e, result);
    if m.evaluating { NoTurnTrans(m, CloseEval(m), EndEval(m, e, result)); }
  }

  lemma StartNoTurn(m: Machine, e: Env, p: EvalParams)
    ensures NoTurn(m, StartEval(m, e, p))
  {
    var kind := Classify(m.cfg, p);
    var m1 := OpenEval(m, kind);
    NoTurnSame(m, m1);
    NoTurnSame(m, m.(evaluating := true));
    hide NoTurn, EndEval, Block, OpenEval, Classify;
    EndNoTurn(m1, e, kind == NoMonitor || !e.charging);
    NoTurnTrans(m, m1, EndEval(m1, e, kind == NoMonitor || !e.charging));
    BlockNoTurn(m1, e);
    NoTurnTrans(m, m1, Block(m1, e));
  }

  lemma EnterNoTurn(m: Machine, e: Env, next: State)
    ensures NoTurn(m, EnterStandby(m, e, next).m)
  {
    NoTurnSame(m, m);
    hide NoTurn, StartEval;
    StartNoTurn(m, e, EvalParams(m.cur, PhaseOf(m, m.cur), next, 0, false));
  }

  lemma RequestNoTurn(m: Machine, e: Env, next: State)
    requires next != Maintenance
    ensures NoTurn(m, TransitToState(m, e, next).m)
  {
    NoTurnSame(m, m);
    NoTurnSame(m, m.(blocked := false));
    hide NoTurn, ExitStandby, TransitWithMaint, EnterStandby;
    LeaveNoTurn(m, e, next);
    EnterNoTurn(m, e, next);
  }

  lemma HoldNoTurn(m: Machine, e: Env)
    ensures NoTurn(m, HoldSleep(m, e))
  {
    var m0 := m.(blocked := false);
    var m1 := if m.cur != Sleep then TransitInner(m0, e, Sleep) else m;
    NoTurnSame(m, m0);
    NoTurnSame(m, m);
    hide NoTurn, TransitInner;
    TransitNoTurn(m0, e, Sleep);
    if m.cur != Sleep { NoTurnTrans(m, m0, m1); }
    NoTurnSame(m1, HoldSleep(m, e));
    NoTurnTrans(m, m1, HoldSleep(m, e));
  }

  lemma BeginNoTurn(m: Machine, e: Env)
    ensures NoTurn(m, BeginState(m, e))
  {
    BeginBegun(m, e);
    hide BeginState, Sent;
    NoTurnOne(m, BeginState(m, e), HalfHour(true));
  }

  lemma ScreenNoTurn(m: Machine, e: Env)
    ensures NoTurn(m, Wake(m.(screenOn := true), e))
  {
    var m1 := m.(screenOn := true);
    NoTurnSame(m, m1);
    hide NoTurn, Wake;
    WakeNoTurn(m1, e);
    NoTurnTrans(m, m1, Wake(m1, e));
  }

  lemma OffNoTurn(m: Machine)
    ensures NoTurn(m, m.(screenOn := false))
  {
    NoTurnSame(m, m.(screenOn := false));
  }

  lemma SelfNoTurn(m: Machine)
    ensures NoTurn(m, m)
  {
    NoTurnSame(m, m);
  }

  lemma UserNoTurn(m: Machine, e: Env, isSleep: bool)
    ensures NoTurn(m, UserSleep(m, e, isSleep))
  {
    NoTurnSame(m, m);
    hide NoTurn, HoldSleep, BeginState;
    HoldNoTurn(m, e);
    BeginNoTurn(m, e);
  }

  lemma ReactNoTurn(m: Machine, e: Env, a: Action)
    ensures NoTurn(m, React(m, e, a))
  {
    hide NoTurn, Wake, HoldSleep, UserSleep;
    match a
    case ScreenOn => ScreenNoTurn(m, e);
    case ScreenOff => OffNoTurn(m);
    case UserSleepChanged(isSleep) => UserNoTurn(m, e, isSleep);
    case EnterForceSleep => HoldNoTurn(m, e);
    case _ =>
      WakeNoTurn(m, e);
      SelfNoTurn(m);
  }

  lemma EventNoTurn(m: Machine, e: Env, a: Action)
    ensures NoTurn(m, HandleCommonEvent(m, e, a))
  {
    var m1 := React(m, e, a);
    hide NoTurn, React, TransitToState;
    ReactNoTurn(m, e, a);
    if m1.cur == Working && !m1.screenOn {
      RequestNoTurn(m1, e, Dark);
      NoTurnTrans(m, m1, HandleCommonEvent(m, e, a));
    }
  }

  lemma TaskNoTurn(m: Machine, e: Env, t: Task)
    requires !t.TransitNext? && !t.Deliver?
    ensures NoTurn(m, RunTask(m, e, t))
  {
    NoTurnSame(m, m);
    NoTurnSame(m, m.(lock := true));
    NoTurnSame(m, m.(repeated := true));
    var m1 := if t.FirstPhase? then m.(lock := true) else if t.RepeatDetect? then m.(repeated := true) else m;
    hide NoTurn, StartEval, TransitToState;
    match t
    case ScreenCheck => RequestNoTurn(m, e, Dark);
    case FirstPhase(s) =>
      StartNoTurn(m1, e, EvalParams(s, PhaseOf(m1, s), s, PhaseOf(m1, s) + 1, false));
      NoTurnTrans(m, m1, RunTask(m, e, t));
    case NextPhase(s) => StartNoTurn(m, e, EvalParams(s, PhaseOf(m, s), s, PhaseOf(m, s) + 1, false));
    case RepeatDetect =>
      StartNoTurn(m1, e, EvalParams(Sleep, m1.sleepPhase, Sleep, m1.sleepPhase, true));
      NoTurnTrans(m, m1, RunTask(m, e, t));
    case _ =>
  }

  lemma HeadNoTurn(m: Machine, e: Env)
    requires m.queue != [] && !m.queue[0].TransitNext?
    ensures NoTurn(m, Next(m, e, RunHead))
  {
    var t, m1 := m.queue[0], Take(m);
    HeadIs(m, e);
    TakeKeepsLog(m);
    NoTurnOne(m, m1, ConditionChanged);
    NoTurnSame(m1, m1);
    hide NoTurn, Next, Take, HandleCommonEvent, RunTask, Sent;
    if t.Deliver? {
      if t.msg.CommonEvent? { EventNoTurn(m1, e, t.msg.action); }
    } else {
      TaskNoTurn(m1, e, t);
    }
    NoTurnTrans(m, m1, Next(m, e, RunHead));
  }

  /** MAINTENANCE is announced only by the task of a transition timer. */
  lemma MaintenanceNeedsItsTask(m: Machine, e: Env, step: Step, i: nat)
    requires Enabled(m, step) && |Sent(m)| <= i < |Sent(Next(m, e, step))|
    requires step == RunHead ==> !m.queue[0].TransitNext?
    ensures var msg := Sent(Next(m, e, step))[i]; msg.StateTransit? ==> msg.cur != Maintenance
  {
    var r := Next(m, e, step);
    StepNoTurn(m, e, step);
    hide Next, Sent;
    assert Sent(r)[i] == News(m, r)[i - |Sent(m)|];
  }

  lemma FireNoTurn(m: Machine, t: Timer)
    ensures NoTurn(m, FireTimer(m, t))
  {
    hide NoTurn;
    NoTurnPost(m, FireTimer(m, t), if t.TransitTimer? then TransitNext(t.state) else RepeatDetect);
  }

  lemma StepNoTurn(m: Machine, e: Env, step: Step)
    requires Enabled(m, step) && (step == RunHead ==> !m.queue[0].TransitNext?)
    ensures NoTurn(m, Next(m, e, step))
  {
    var r := Next(m, e, step);
    NoTurnSame(m, m);
    hide NoTurn, RunTask, EndEval, Block, HalfHourInner, FireTimer;
    match step
    case RunHead => HeadNoTurn(m, e);
    case Fire(t) => FireNoTurn(m, t);
    case HalfHourTimer => DropNoTurn(m, true);
    case MotionResult(result) => EndNoTurn(m, e, result);
    case MotionRetryFails => BlockNoTurn(m, e);
    case DayNightSwitch => if m.cur == Sleep { NoTurnPost(m, r, Deliver(ConditionChanged)); }
    case External(msg) => NoTurnPost(m, r, Deliver(msg));
  }

  // ---------------------------------------------------------------- held in SLEEP

  /** SLEEP has no way to MAINTENANCE: its timer is not armed and its task is not queued. */
  predicate NoWayOut(m: Machine) {
    TransitTimer(Sleep) !in m.timers && TransitNext(Sleep) !in m.queue
  }

  lemma AppendedTask(m: Machine, r: Machine, t: Task)
    requires NoWayOut(m) && r.queue == m.queue + [t] && t != TransitNext(Sleep)
    requires TransitTimer(Sleep) !in r.timers
    ensures NoWayOut(r)
  {
  }

  lemma PhasePostsStay(p: nat, result: bool)
    ensures TransitNext(Sleep) !in PhasePosts(Sleep, p, result)
  {
  }

  lemma PhasesNoWayOut(m: Machine, result: bool)
    requires NoWayOut(m)
    ensures NoWayOut(AdvanceSleep(m, result))
  {
    PhasePostsStay(m.sleepPhase, result);
    hide PhasePosts;
  }

  lemma EndNoWayOut(m: Machine, e: Env, result: bool)
    requires Core(m) && m.cur == Sleep && NoWayOut(m)
    ensures var r := EndEvalSleep(m, e, result); r.cur == Sleep ==> NoWayOut(r)
  {
    hide AdvanceSleep, Wake, NoWayOut, Core;
    if m.sleepPhase < PHASE_END { PhasesNoWayOut(m, result); }
    else if !result && m.repeated { WakeKeeps(m, e); }
    else { SameWayOut(m, m.(repeated := false)); }
  }

  lemma ClosedWayOut(m: Machine)
    requires Core(m) && m.evaluating && NoWayOut(m)
    ensures var r := CloseEval(m); Core(r) && r.cur == m.cur && NoWayOut(r)
  {
    hide Linked, EndOf, Messages;
  }

  lemma VerdictNoWayOut(m: Machine, e: Env, result: bool)
    requires Core(m) && m.cur == Sleep && NoWayOut(m)
    ensures var r := EndEval(m, e, result); r.cur == Sleep ==> NoWayOut(r)
  {
    hide CloseEval, EndEvalSleep, NoWayOut, Core;
    if m.evaluating {
      ClosedWayOut(m);
      EndNoWayOut(CloseEval(m), e, result);
    }
  }

  lemma SameWayOut(m: Machine, r: Machine)
    requires NoWayOut(m) && r.timers == m.timers && r.queue == m.queue
    ensures NoWayOut(r)
  {
  }

  lemma StartIs(m: Machine, e: Env, p: EvalParams, kind: Monitor)
    requires !m.monitoring && kind == Classify(m.cfg, p)
    ensures StartEval(m, e, p)
         == if kind != MotionMonitor then EndEval(OpenEval(m, kind), e, kind == NoMonitor || !e.charging)
            else if e.sensorOk then OpenEval(m, kind)
            else Block(OpenEval(m, kind), e)
  {
    hide EndEval, Block, OpenEval, Classify;
  }

  lemma StartNoWayOut(m: Machine, e: Env, p: EvalParams)
    requires Full(m) && m.cur == Sleep && NoWayOut(m)
    ensures var r := StartEval(m, e, p); r.cur == Sleep ==> NoWayOut(r)
  {
    var kind := Classify(m.cfg, p);
    var m1 := OpenEval(m, kind);
    SameWayOut(m, m1);
    SameWayOut(m, m.(evaluating := true));
    SleepBlocks(m1, e);
    hide Full, NoWayOut, Block, Classify, OpenEval, EndEval;
    if !m.monitoring {
      StartIs(m, e, p, kind);
      hide StartEval;
      SleepOpenNoWayOut(m, e, kind, kind == NoMonitor || !e.charging);
    }
  }

  lemma SleepBlocks(m: Machine, e: Env)
    requires m.cur == Sleep && NoWayOut(m)
    ensures NoWayOut(Block(m, e))
  {
  }

  lemma SleepOpenNoWayOut(m: Machine, e: Env, kind: Monitor, result: bool)
    requires Full(m) && !m.monitoring && m.cur == Sleep && NoWayOut(m)
    ensures var r := EndEval(OpenEval(m, kind), e, result); r.cur == Sleep ==> NoWayOut(r)
  {
    var m1 := CloseEval(OpenEval(m, kind));
    assert OpenEval(m, kind).evaluating;
    assert Core(m1) by { hide Linked, EndOf, Messages; }
    assert m1.cur == Sleep;
    SameWayOut(m, m1);
    hide OpenEval, CloseEval, EndEvalSleep, NoWayOut, Core, Full;
    EndNoWayOut(m1, e, result);
  }

  lemma EventNoWayOut(m: Machine, e: Env, a: Action)
    requires Full(m) && m.cur == Sleep && NoWayOut(m) && !Awakens(m, a)
    ensures var r := HandleCommonEvent(m, e, a); r.cur == Sleep ==> NoWayOut(r)
  {
    var m1 := React(m, e, a);
    hide Full, React, TransitToState, NoWayOut, Awakens, Holds, Wakes;
    ReactLeads(m, e, a);
    ReactKeeps(m, e, a);
    if !Wakes(a) { ReactInSleep(m, e, a); }
    if m1.cur == Working && !m1.screenOn { ToDarkKeeps(m1, e); }
  }

  lemma ReactInSleep(m: Machine, e: Env, a: Action)
    requires m.cur == Sleep && NoWayOut(m) && !Wakes(a) && !Awakens(m, a)
    ensures NoWayOut(React(m, e, a))
  {
    hide Wake, BeginState, TransitInner;
  }

  lemma HeadNoWayOut(m: Machine, e: Env)
    requires Inv(m) && m.cur == Sleep && NoWayOut(m) && m.queue != [] && !AwakeEvent(m, RunHead)
    ensures var r := Next(m, e, RunHead); r.cur == Sleep ==> NoWayOut(r)
  {
    var t, m1 := m.queue[0], Take(m);
    TakeKeeps(m);
    HeadIs(m, e);
    assert NoWayOut(m1) && t != TransitNext(Sleep) && m1.cur == Sleep;
    assert t.Deliver? && t.msg.CommonEvent? ==> !Awakens(m1, t.msg.action);
    hide Inv, Core, Full, Next, Take, NoWayOut, HandleCommonEvent, StartEval, AwakeEvent;
    if t.Deliver? {
      if t.msg.CommonEvent? { EventNoWayOut(m1, e, t.msg.action); }
    } else {
      PhaseNoWayOut(m1, e, t);
    }
  }

  lemma PhaseNoWayOut(m: Machine, e: Env, t: Task)
    requires Full(m) && m.cur == Sleep && NoWayOut(m) && OwnsTask(Sleep, t) && !t.Deliver? && !t.TransitNext?
    ensures var r := RunTask(m, e, t); r.cur == Sleep ==> NoWayOut(r)
  {
    var m1 := if t.FirstPhase? then m.(lock := true) else if t.RepeatDetect? then m.(repeated := true) else m;
    MarksFree(m, true, m.repeated);
    MarksFree(m, m.lock, true);
    assert Full(m1);
    SameWayOut(m, m1);
    hide Full, Core, StartEval, NoWayOut;
    StartNoWayOut(m1, e, EvalParams(Sleep, m1.sleepPhase, Sleep, m1.sleepPhase, true));
    StartNoWayOut(m1, e, EvalParams(Sleep, m1.sleepPhase, Sleep, m1.sleepPhase + 1, false));
  }

  /** A step that leaves the device in SLEEP opens no way to MAINTENANCE, unless the user is
      reported awake. */
  lemma StepNoWayOut(m: Machine, e: Env, step: Step)
    requires Inv(m) && m.cur == Sleep && NoWayOut(m) && Enabled(m, step) && !AwakeEvent(m, step)
    ensures var r := Next(m, e, step); r.cur == Sleep ==> NoWayOut(r)
  {
    assert Core(m);
    hide Inv, Core, EndEval, RunTask, NoWayOut, AwakeEvent, HalfHourInner, Block;
    match step
    case RunHead => HeadNoWayOut(m, e);
    case MotionResult(result) => VerdictNoWayOut(m, e, result);
    case _ => OtherNoWayOut(m, e, step);
  }

  lemma OtherNoWayOut(m: Machine, e: Env, step: Step)
    requires m.cur == Sleep && NoWayOut(m) && Enabled(m, step) && !step.RunHead? && !step.MotionResult?
    ensures NoWayOut(Next(m, e, step))
  {
    var r := Next(m, e, step);
    SleepBlocks(m, e);
    hide Block;
    match step
    case Fire(t) => FiredNoWayOut(m, t);
    case HalfHourTimer => if r != m { AppendedTask(m, r, Deliver(HalfHour(true))); }
    case MotionRetryFails =>
    case DayNightSwitch => AppendedTask(m, r, Deliver(ConditionChanged));
    case External(msg) => AppendedTask(m, r, Deliver(msg));
  }

  lemma FiredNoWayOut(m: Machine, t: Timer)
    requires NoWayOut(m) && t in m.timers
    ensures NoWayOut(FireTimer(m, t))
  {
  }

  /** SLEEP does not begin during the run: nothing announces it, and no report that the user is
      awake begins it again. */
  predicate SleepBegins(m: Machine, r: Machine, step: Step) {
    AwakeEvent(m, step) || exists msg :: msg in News(m, r) && msg.StateTransit? && msg.cur == Sleep
  }

  predicate NoNewSleep(m: Machine, run: seq<Move>)
    requires ValidRun(m, run)
    decreases run
  {
    run == [] ||
    (var r := Next(m, run[0].env, run[0].step);
     !SleepBegins(m, r, run[0].step) && NoNewSleep(r, run[1..]))
  }

  lemma {:induction false} EndWithout(log: seq<Message>, news: seq<Message>, s: State)
    requires EndOf(log) != s && forall msg :: msg in news && msg.StateTransit? ==> msg.cur != s
    ensures EndOf(log + news) != s
  {
    if news == [] {
      assert log + news == log;
    } else {
      var before, msg := news[..|news| - 1], news[|news| - 1];
      assert log + news == (log + before) + [msg] && (log + news)[..|log + news| - 1] == log + before;
      EndWithout(log, before, s);
    }
  }

  /** Held in SLEEP, or not in SLEEP at all. */
  predicate Held(m: Machine) {
    m.cur == Sleep ==> NoWayOut(m)
  }

  /** No interruption of SLEEP was announced between `m` and `r`. */
  predicate Undisturbed(m: Machine, r: Machine) {
    Sent(m) <= Sent(r) && forall i :: |Sent(m)| <= i < |Sent(r)| ==> Sent(r)[i] != StateTransit(Sleep, Maintenance)
  }

  lemma StepHolds(m: Machine, e: Env, step: Step)
    requires Inv(m) && Held(m) && Enabled(m, step) && !SleepBegins(m, Next(m, e, step), step)
    ensures var r := Next(m, e, step); Inv(r) && Held(r) && Undisturbed(m, r)
  {
    NextKeeps(m, e, step);
    hide Inv, Next, NoWayOut, AwakeEvent, Undisturbed, News;
    if m.cur == Sleep {
      StepNoWayOut(m, e, step);
      SleepUndisturbed(m, e, step);
    } else {
      StaysElsewhere(m, e, step);
    }
  }

  lemma StaysElsewhere(m: Machine, e: Env, step: Step)
    requires Inv(m) && m.cur != Sleep && Enabled(m, step) && !SleepBegins(m, Next(m, e, step), step)
    ensures var r := Next(m, e, step); r.cur != Sleep && Undisturbed(m, r)
  {
    var r := Next(m, e, step);
    NextKeeps(m, e, step);
    LogGrows(m, e, step);
    InvLog(m);
    InvLog(r);
    hide Inv, Next, AwakeEvent, Linked, EndOf, Sent, News, Undisturbed;
    ElsewhereUndisturbed(m, r);
    NewsAdds(m, r);
    EndWithout(Sent(m), News(m, r), Sleep);
  }

  lemma NewsAdds(m: Machine, r: Machine)
    requires Sent(m) <= Sent(r)
    ensures Sent(r) == Sent(m) + News(m, r)
  {
    hide Sent;
  }

  lemma LogGrows(m: Machine, e: Env, step: Step)
    requires Inv(m) && Enabled(m, step)
    ensures Sent(m) <= Sent(Next(m, e, step))
  {
    hide Inv, Next, Sent, AwakeEvent, Undisturbed;
    NextTicks(m, e, step);
  }

  /** Without a way out there is no interruption. */
  lemma SleepUndisturbed(m: Machine, e: Env, step: Step)
    requires Inv(m) && m.cur == Sleep && NoWayOut(m) && Enabled(m, step)
    ensures Undisturbed(m, Next(m, e, step))
  {
    var r := Next(m, e, step);
    assert step == RunHead ==> !m.queue[0].TransitNext? by {
      if step == RunHead { assert OwnsTask(m.cur, m.queue[0]) by { assert m.queue[0] in m.queue; } }
    }
    LogGrows(m, e, step);
    hide Inv, Next, Sent, NoWayOut;
    forall i | |Sent(m)| <= i < |Sent(r)|
      ensures Sent(r)[i] != StateTransit(Sleep, Maintenance)
    {
      MaintenanceNeedsItsTask(m, e, step, i);
    }
  }

  /** Outside SLEEP, what interrupts SLEEP would have to enter it first. */
  lemma ElsewhereUndisturbed(m: Machine, r: Machine)
    requires Inv(m) && Inv(r) && m.cur != Sleep && Sent(m) <= Sent(r) && r.cfg == m.cfg
    requires forall msg :: msg in News(m, r) && msg.StateTransit? ==> msg.cur != Sleep
    ensures Undisturbed(m, r)
  {
    InvLog(m);
    InvLog(r);
    var log := Sent(r);
    hide Inv, Sent;
    forall i | |Sent(m)| <= i < |log|
      ensures log[i] != StateTransit(Sleep, Maintenance)
    {
      LinkedAt(r.cfg, log, i);
      var some := log[|Sent(m)|..i];
      assert log[..i] == Sent(m) + some;
      assert forall msg :: msg in some ==> msg in News(m, r);
      hide Linked, News;
      EndWithout(Sent(m), some, Sleep);
    }
  }

  lemma {:induction false} ExecHolds(m: Machine, run: seq<Move>)
    requires Inv(m) && Held(m) && ValidRun(m, run) && NoNewSleep(m, run)
    ensures Undisturbed(m, Exec(m, run))
    decreases run
  {
    if run == [] {
      assert Sent(m) <= Sent(m);
    } else {
      var r := Next(m, run[0].env, run[0].step);
      StepHolds(m, run[0].env, run[0].step);
      hide Inv, Held, Next, SleepBegins;
      ExecHolds(r, run[1..]);
      hide Sent;
      assert forall i :: 0 <= i < |Sent(r)| ==> Sent(Exec(m, run))[i] == Sent(r)[i];
    }
  }

  /** After forced sleep, or sleep reported with the screen off, SLEEP is not interrupted until it
      begins again, unless the task of its timer was queued already. */
  lemma HoldLasts(m: Machine, e: Env, run: seq<Move>)
    requires Inv(m) && m.queue != []
    requires m.queue[0] == Deliver(CommonEvent(EnterForceSleep))
          || (m.queue[0] == Deliver(CommonEvent(UserSleepChanged(true))) && !m.screenOn)
    requires var r := Next(m, e, RunHead); TransitNext(Sleep) !in r.queue && ValidRun(r, run) && NoNewSleep(r, run)
    ensures var r := Next(m, e, RunHead); Undisturbed(r, Exec(r, run))
  {
    var r := Next(m, e, RunHead);
    HoldEndsTimers(m, e);
    NextKeeps(m, e, RunHead);
    hide Inv, Next;
    ExecHolds(r, run);
  }
}
