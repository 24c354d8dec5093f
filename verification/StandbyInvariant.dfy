/** What every operation of the standby state machine keeps. `Core` holds between and inside
    handler tasks; `Inv` adds what holds only between them. */
module StandbyInvariant {
  import opened StandbyTypes
  import opened StandbyMachine

  // ---------------------------------------------------------------- the message log

  /** The messages still waiting in the queue, oldest first. */
  function Messages(q: seq<Task>): seq<Message> {
    if q == [] then []
    else (if q[0].Deliver? then [q[0].msg] else []) + Messages(q[1..])
  }

  /** Everything dispatched so far, in the order of dispatch. */
  function Sent(m: Machine): seq<Message> {
    m.hist.done + Messages(m.queue)
  }

  /** The transitions that the machine is allowed to announce. */
  predicate Edge(cfg: Config, p: State, c: State) {
    || (c == Working && p != Working)
    || (c == Sleep && p != Sleep)
    || (p == Working && c == Dark)
    || (p == Dark && c == DarkNext(cfg) && c != Dark)
    || (p == Nap && c == Maintenance)
    || (p == Sleep && c == Maintenance)
    || (p == Maintenance && c == Nap)
  }

  /** The state announced last; WORKING before any announcement. */
  function EndOf(log: seq<Message>): State {
    if log == [] then Working
    else match log[|log| - 1]
      case StateTransit(_, c) => c
      case _ => EndOf(log[..|log| - 1])
  }

  /** `msg` may follow `log`: it speaks of the state announced last. */
  predicate Fits(cfg: Config, log: seq<Message>, msg: Message) {
    match msg
    case StateTransit(p, c) => p == EndOf(log) && Edge(cfg, p, c)
    case PhaseTransit(s, p, q) => s == EndOf(log) && s in {Nap, Sleep} && q == p + 1 <= PHASE_END
    case ConditionChanged => EndOf(log) == Sleep
    case _ => true
  }

  /** Every message fits the messages before it. */
  predicate Linked(cfg: Config, log: seq<Message>) {
    log == [] ||
    (var before := log[..|log| - 1];
     Linked(cfg, before) && Fits(cfg, before, log[|log| - 1]))
  }

  predicate LogAt(m: Machine, s: State) {
    Linked(m.cfg, Sent(m)) && EndOf(Sent(m)) == s
  }

  // ---------------------------------------------------------------- ownership

  /** A queued task belongs to the state `cur`. */
  predicate OwnsTask(cur: State, t: Task) {
    match t
    case ScreenCheck => cur == Working
    case TransitNext(s) => s == cur && cur != Working
    case FirstPhase(s) => s == cur && cur in {Nap, Sleep}
    case NextPhase(s) => s == cur && cur in {Nap, Sleep}
    case RepeatDetect => cur == Sleep
    case Deliver(_) => true
  }

  predicate OwnsTimer(cur: State, t: Timer) {
    match t
    case TransitTimer(s) => s == cur && cur != Working
    case RepeatTimer => cur == Sleep
  }

  predicate Owned(m: Machine) {
    && (forall t :: t in m.queue ==> OwnsTask(m.cur, t))
    && (forall t :: t in m.timers ==> OwnsTimer(m.cur, t))
  }

  /** The transition timer of `s` is armed or its task is queued. */
  predicate HeadsOn(m: Machine, s: State) {
    TransitTimer(s) in m.timers || TransitNext(s) in m.queue
  }

  // ---------------------------------------------------------------- the invariant

  predicate Evals(m: Machine) {
    && m.evaluating == m.monitoring
    && m.monitor == (if m.monitoring then MotionMonitor else NoMonitor)
    && (m.monitoring ==> m.cur == Sleep || (m.cur == Nap && m.napPhase == PHASE_END))
    && m.hist.starts == m.hist.verdicts + m.hist.cancels + (if m.monitoring then 1 else 0)
  }

  predicate HalfHourPlace(m: Machine) {
    m.halfHour ==> m.cur == Sleep || (m.cur == Maintenance && m.pre == Sleep)
  }

  predicate Places(m: Machine) {
    && m.napPhase <= PHASE_END
    && m.sleepPhase <= PHASE_END
    && HalfHourPlace(m)
    && (m.cur == Maintenance ==> m.pre in {Nap, Sleep} && m.maintNext == m.pre)
  }

  predicate Targets(m: Machine) {
    && (m.cur == Dark && HeadsOn(m, Dark) ==> DarkNext(m.cfg) != Dark)
    && (m.cur == Nap && HeadsOn(m, Nap) ==> m.napNext in {Sleep, Maintenance})
  }

  function Capped(k: nat, size: nat): int {
    if size == 0 then 0 else MinInt(k, size - 1)
  }

  predicate Counters(m: Machine) {
    && m.napIndex == Capped(m.hist.napReturns, |m.cfg.napIntervals|)
    && m.sleepIndex == Capped(m.hist.sleepReturns, |m.cfg.sleepIntervals|)
  }

  predicate Core(m: Machine) {
    Evals(m) && Places(m) && Owned(m) && Targets(m) && Counters(m) && LogAt(m, m.cur)
  }

  predicate Inv(m: Machine) {
    && Core(m)
    && (m.cur == Maintenance ==> HeadsOn(m, Maintenance))
    && (m.lock ==> m.cur in {Nap, Sleep})
  }

  // ---------------------------------------------------------------- the report that the user is awake

  /** The step handles the report that the user is awake while the device sleeps: SLEEP begins
      again without any transition. */
  predicate AwakeEvent(m: Machine, s: Step) {
    && s == RunHead && m.queue != []
    && m.queue[0] == Deliver(CommonEvent(UserSleepChanged(false)))
    && !m.screenOn && m.cur == Sleep
  }

  /** The step that restarts SLEEP from its first phase because the user is reported awake. */
  predicate AwakeStep(m: Machine, s: Step) {
    AwakeEvent(m, s) && m.pre != Maintenance
  }

  // ---------------------------------------------------------------- queue and log lemmas

  lemma {:induction false} MessagesAppend(q: seq<Task>, t: Task)
    ensures Messages(q + [t]) == Messages(q) + (if t.Deliver? then [t.msg] else [])
  {
    if q == [] {
    } else {
      MessagesAppend(q[1..], t);
      assert (q + [t])[1..] == q[1..] + [t];
    }
  }

  lemma {:induction false} MessagesRemove(q: seq<Task>, n: TaskName)
    requires n != Unnamed
    ensures Messages(RemoveNamed(q, n)) == Messages(q)
  {
    if q == [] {
    } else {
      MessagesRemove(q[1..], n);
      if Name(q[0]) != n {
        var r := RemoveNamed(q[1..], n);
        assert ([q[0]] + r)[1..] == r;
      }
    }
  }

  lemma LogAppend(cfg: Config, log: seq<Message>, msg: Message)
    requires Linked(cfg, log)
    requires Fits(cfg, log, msg)
    ensures Linked(cfg, log + [msg])
    ensures EndOf(log + [msg]) == if msg.StateTransit? then msg.cur else EndOf(log)
  {
    assert (log + [msg])[..|log|] == log;
  }

  // ---------------------------------------------------------------- EndState and BeginState

  lemma RemoveTasksKeepsMessages(q: seq<Task>, s: State)
    ensures Messages(RemoveTasks(q, s)) == Messages(q)
  {
    MessagesRemove(q, ConditionTask);
    MessagesRemove(q, TransitTask);
    MessagesRemove(RemoveNamed(q, TransitTask), PhaseTask);
    MessagesRemove(RemoveNamed(RemoveNamed(q, TransitTask), PhaseTask), RepeatTask);
  }

  lemma RemoveTasksClears(q: seq<Task>, s: State)
    requires forall t :: t in q ==> OwnsTask(s, t)
    ensures forall t :: t in RemoveTasks(q, s) ==> t.Deliver?
  {
    forall t | t in RemoveTasks(q, s)
      ensures t.Deliver?
    {
      assert OwnsTask(s, t);
    }
  }

  lemma StoppedTimersClears(timers: map<Timer, int>, s: State)
    requires forall t :: t in timers ==> OwnsTimer(s, t)
    ensures timers - StoppedTimers(s) == map[]
  {
    forall t | t in timers
      ensures t in StoppedTimers(s)
    {
      assert OwnsTimer(s, t);
    }
    assert (timers - StoppedTimers(s)).Keys == {};
  }

  /** Appending a task to the queue appends at most one message to the log. */
  lemma LogPost(m: Machine, r: Machine, t: Task, s: State)
    requires LogAt(m, s)
    requires r.cfg == m.cfg && r.queue == m.queue + [t] && r.hist.done == m.hist.done
    requires t.Deliver? ==> Fits(m.cfg, Sent(m), t.msg)
    ensures LogAt(r, if t.Deliver? && t.msg.StateTransit? then t.msg.cur else s)
  {
    MessagesAppend(m.queue, t);
    if t.Deliver? {
      LogAppend(m.cfg, Sent(m), t.msg);
      assert Sent(r) == Sent(m) + [t.msg];
    } else {
      assert Sent(r) == Sent(m);
    }
  }

  // ---------------------------------------------------------------- BeginState

  lemma LeaveClears(m: Machine, next: State)
    requires Owned(m)
    ensures forall t :: t in Leave(m, next).queue ==> t.Deliver?
    ensures Leave(m, next).timers == map[]
    ensures Sent(Leave(m, next)) == Sent(m)
  {
    RemoveTasksKeepsMessages(m.queue, m.cur);
    RemoveTasksClears(m.queue, m.cur);
    StoppedTimersClears(m.timers, m.cur);
  }

  /** The fields that BeginState does not touch. */
  predicate SameControl(m: Machine, r: Machine) {
    && r.cfg == m.cfg && r.cur == m.cur && r.pre == m.pre
    && r.evaluating == m.evaluating && r.monitoring == m.monitoring && r.monitor == m.monitor
    && r.blocked == m.blocked && r.screenOn == m.screenOn && r.lock == m.lock
    && r.hist.done == m.hist.done
    && r.hist.starts == m.hist.starts && r.hist.verdicts == m.hist.verdicts && r.hist.cancels == m.hist.cancels
  }

  /** What BeginState needs of the machine it is called on. */
  predicate Entering(m: Machine) {
    && Owned(m) && Counters(m)
    && m.napPhase <= PHASE_END && m.sleepPhase <= PHASE_END
    && HalfHourPlace(m)
    && (m.cur == Maintenance ==> m.pre in {Nap, Sleep})
    && (m.cur == Nap ==> !HeadsOn(m, Nap))
  }

  predicate Entered(m: Machine) {
    && Owned(m) && Counters(m) && Targets(m) && Places(m)
    && (m.cur == Maintenance ==> HeadsOn(m, Maintenance))
  }

  lemma BeginNapKeeps(m: Machine, e: Env, s: State)
    requires m.cur == Nap && Entering(m) && LogAt(m, s)
    ensures var r := BeginNap(m, e); Entered(r) && SameControl(m, r) && LogAt(r, s)
  {
    if m.pre != Maintenance {
      hide Entering, Entered, SameControl;
      LogPost(m, BeginNap(m, e), FirstPhase(Nap), s);
    }
  }

  lemma HalfHourKeeps(m: Machine, on: bool, s: State)
    requires LogAt(m, s)
    ensures LogAt(HalfHourInner(m, on), s)
  {
    if HalfHourInner(m, on) != m {
      LogPost(m, HalfHourInner(m, on), Deliver(HalfHour(on)), s);
    }
  }

  lemma EnterSleepKeeps(m: Machine, e: Env, s: State)
    requires m.cur == Sleep && Entering(m) && LogAt(m, s)
    ensures var r := EnterSleep(m, e); Entered(r) && SameControl(m, r) && LogAt(r, s)
  {
    if m.pre != Maintenance {
      hide Entering, Entered, SameControl;
      LogPost(m, EnterSleep(m, e), FirstPhase(Sleep), s);
    }
  }

  lemma BeginSleepKeeps(m: Machine, e: Env, s: State)
    requires m.cur == Sleep && Entering(m) && LogAt(m, s)
    ensures var r := BeginSleep(m, e); Entered(r) && SameControl(m, r) && LogAt(r, s)
  {
    EnterSleepKeeps(m, e, s);
    hide EnterSleep, LogAt;
    HalfHourKeeps(EnterSleep(m, e), true, s);
  }

  lemma BeginDarkKeeps(m: Machine, s: State)
    requires m.cur == Dark && Entering(m) && LogAt(m, s)
    requires m.timers == map[] && forall t :: t in m.queue ==> t.Deliver?
    ensures var r := BeginDark(m); Entered(r) && SameControl(m, r) && LogAt(r, s)
  {
    hide Linked, EndOf, Messages;
  }

  lemma BeginMaintenanceKeeps(m: Machine, s: State)
    requires m.cur == Maintenance && Entering(m) && LogAt(m, s)
    ensures var r := BeginMaintenance(m); Entered(r) && SameControl(m, r) && LogAt(r, s)
  {
    hide Linked, EndOf, Messages;
  }

  lemma BeginWorkingKeeps(m: Machine, s: State)
    requires m.cur == Working && Entering(m) && LogAt(m, s)
    ensures var r := m.(queue := m.queue + [ScreenCheck]); Entered(r) && SameControl(m, r) && LogAt(r, s)
  {
    LogPost(m, m.(queue := m.queue + [ScreenCheck]), ScreenCheck, s);
    hide LogAt;
  }

  lemma BeginStateKeeps(m: Machine, e: Env, s: State)
    requires Entering(m) && LogAt(m, s)
    requires m.cur == Dark ==> m.timers == map[] && forall t :: t in m.queue ==> t.Deliver?
    ensures var r := BeginState(m, e); Entered(r) && SameControl(m, r) && LogAt(r, s)
  {
    hide BeginDark, BeginNap, BeginMaintenance, BeginSleep, Entering, Entered, SameControl, LogAt;
    match m.cur
    case Working => BeginWorkingKeeps(m, s);
    case Dark => BeginDarkKeeps(m, s);
    case Nap => BeginNapKeeps(m, e, s);
    case Maintenance => BeginMaintenanceKeeps(m, s);
    case Sleep => BeginSleepKeeps(m, e, s);
  }

  // ---------------------------------------------------------------- transitions

  /** `next` may be entered from `m` now. */
  predicate MayEnter(m: Machine, next: State) {
    && Edge(m.cfg, m.cur, next)
    && (m.monitoring ==> next == Sleep)
    && (m.halfHour ==> next == Sleep || (m.cur == Sleep && next == Maintenance))
  }

  predicate Full(m: Machine) {
    && Core(m)
    && (m.cur == Maintenance ==> HeadsOn(m, Maintenance))
  }

  /** A completed transition from `m` to `next`. */
  predicate Moved(m: Machine, r: Machine, next: State) {
    && Full(r) && r.cur == next && r.pre == m.cur && !r.lock
    && r.cfg == m.cfg && r.screenOn == m.screenOn && r.blocked == m.blocked
    && r.monitoring == m.monitoring && r.hist.done == m.hist.done
  }

  lemma LeaveEnters(m: Machine, next: State)
    requires Core(m) && MayEnter(m, next)
    ensures Entering(Leave(m, next)) && LogAt(Leave(m, next), m.cur)
    ensures Leave(m, next).timers == map[]
    ensures forall t :: t in Leave(m, next).queue ==> t.Deliver?
  {
    LeaveClears(m, next);
    hide Linked, EndOf, Sent, Messages, RemoveTasks, StoppedTimers;
  }

  lemma AnnounceKeeps(m: Machine)
    requires Entered(m) && Evals(m) && LogAt(m, m.pre) && Edge(m.cfg, m.pre, m.cur)
    ensures Full(Announce(m)) && !Announce(m).lock
  {
    LogPost(m, Announce(m), Deliver(StateTransit(m.pre, m.cur)), m.pre);
  }

  lemma TransitInnerKeeps(m: Machine, e: Env, next: State)
    requires Core(m) && MayEnter(m, next)
    ensures Moved(m, TransitInner(m, e, next), next)
  {
    LeaveEnters(m, next);
    var m1 := Leave(m, next);
    BeginStateKeeps(m1, e, m.cur);
    var m2 := BeginState(m1, e);
    assert Evals(m2);
    hide BeginState, Entered, LogAt, RemoveTasks, StoppedTimers, Owned, Targets, Counters, Places;
    AnnounceKeeps(m2);
  }

  /** `r` differs from `m` only in its flags, marks and evaluation. */
  predicate SameShape(m: Machine, r: Machine) {
    && r.cfg == m.cfg && r.cur == m.cur && r.pre == m.pre && r.halfHour == m.halfHour
    && r.napPhase == m.napPhase && r.sleepPhase == m.sleepPhase
    && r.napNext == m.napNext && r.maintNext == m.maintNext
    && r.napIndex == m.napIndex && r.sleepIndex == m.sleepIndex
    && r.timers == m.timers && r.queue == m.queue && r.hist.done == m.hist.done
    && r.hist.napReturns == m.hist.napReturns && r.hist.sleepReturns == m.hist.sleepReturns
  }

  lemma ShapeKeeps(m: Machine, r: Machine)
    requires SameShape(m, r) && Core(m) && Evals(r)
    ensures Core(r) && (Full(m) ==> Full(r))
  {
    hide Linked, EndOf, Messages, OwnsTask, OwnsTimer;
  }

  // ---------------------------------------------------------------- operations

  /** What an operation keeps: the invariant, and it never takes the standby lock. */
  predicate Kept(m: Machine, r: Machine) {
    && Full(r) && r.cfg == m.cfg
    && (r.lock ==> m.lock && r.cur == m.cur)
  }

  lemma DropHalfHourKeeps(m: Machine)
    requires Core(m)
    ensures var r := HalfHourInner(m, false);
            Core(r) && !r.halfHour && SameControl(m, r)
  {
    HalfHourKeeps(m, false, m.cur);
    hide Linked, EndOf, LogAt;
  }

  lemma WakeKeeps(m: Machine, e: Env)
    requires Core(m)
    ensures var r := Wake(m, e);
            && Kept(m, r) && r.cur == Working && !r.monitoring && r.screenOn == m.screenOn
            && r.hist.done == m.hist.done
            && (m.cur != Working ==> !r.lock && r.pre == m.cur)
  {
    hide Core, Full, HalfHourInner, TransitInner, StopEvaluation;
    if m.cur == Working {
      IdleWorkingKeeps(m);
    } else if m.cur == Maintenance {
      IdleMaintenance(m);
      HomeKeeps(m, e);
    } else {
      UnblockKeeps(m);
      HomeKeeps(StopEvaluation(m).(blocked := false), e);
    }
  }

  lemma IdleWorkingKeeps(m: Machine)
    requires Core(m) && m.cur == Working
    ensures var r := m.(blocked := false); Full(r) && !r.monitoring
  {
    CoreEvals(m);
    hide Core;
    ShapeKeeps(m, m.(blocked := false));
  }

  lemma IdleMaintenance(m: Machine)
    requires Core(m) && m.cur == Maintenance
    ensures !m.monitoring
  {
    CoreEvals(m);
  }

  /** Half-hour control is dropped, then WORKING is entered. */
  lemma HomeKeeps(m: Machine, e: Env)
    requires Core(m) && !m.monitoring && m.cur != Working
    ensures var m1 := HalfHourInner(m, false);
            Moved(m1, TransitInner(m1, e, Working), Working) && SameControl(m, m1)
  {
    hide Core, HalfHourInner, TransitInner;
    DropHalfHourKeeps(m);
    TransitInnerKeeps(HalfHourInner(m, false), e, Working);
  }

  lemma UnblockKeeps(m: Machine)
    requires Core(m)
    ensures var r := StopEvaluation(m).(blocked := false);
            Core(r) && !r.monitoring && SameShape(m, r) && r.screenOn == m.screenOn && r.lock == m.lock
  {
    var r := StopEvaluation(m).(blocked := false);
    CoreEvals(m);
    hide Core;
    ShapeKeeps(m, r);
  }

  lemma BlockKeeps(m: Machine, e: Env)
    requires Full(m)
    ensures Kept(m, Block(m, e))
  {
    if m.cur == Nap {
      BlockNapKeeps(m, e);
    } else {
      hide Core;
      assert Evals(m.(blocked := true)) by { CoreEvals(m); }
      ShapeKeeps(m, m.(blocked := true));
    }
  }

  lemma CoreEvals(m: Machine)
    requires Core(m)
    ensures Evals(m)
  {
  }

  lemma BlockNapKeeps(m: Machine, e: Env)
    requires Full(m) && m.cur == Nap
    ensures Kept(m, Block(m, e))
  {
    hide Linked, EndOf, Messages, MaintTimeout, OwnsTask;
    assert Sent(Block(m, e)) == Sent(m);
  }

  /** Posting the end of a phase keeps the queue owned and the log linked. */
  lemma PhasePostsKeep(m: Machine, r: Machine, s: State, p: nat, result: bool)
    requires s in {Nap, Sleep} && p < PHASE_END && LogAt(m, s)
    requires r.cfg == m.cfg && r.queue == m.queue + PhasePosts(s, p, result) && r.hist.done == m.hist.done
    ensures LogAt(r, s)
    ensures forall t :: t in r.queue ==> t in m.queue || t.Deliver? || t == NextPhase(s)
  {
    var msg := Deliver(PhaseTransit(s, p, p + 1));
    var m1 := if result then m.(queue := m.queue + [msg]) else m;
    hide Linked, EndOf, Messages;
    if result {
      LogPost(m, m1, msg, s);
    }
    if p + 1 < PHASE_END {
      assert r.queue == m1.queue + [NextPhase(s)];
      LogPost(m1, r, NextPhase(s), s);
    } else {
      assert r.queue == m1.queue;
    }
  }

  lemma AdvanceNapKeeps(m: Machine, result: bool)
    requires Full(m) && m.cur == Nap && m.napPhase < PHASE_END && !m.monitoring
    ensures Kept(m, AdvanceNap(m, result))
  {
    hide LogAt, PhasePosts;
    PhasePostsKeep(m, AdvanceNap(m, result), Nap, m.napPhase, result);
  }

  lemma AdvanceSleepKeeps(m: Machine, result: bool)
    requires Full(m) && m.cur == Sleep && m.sleepPhase < PHASE_END
    ensures Kept(m, AdvanceSleep(m, result))
  {
    hide LogAt, PhasePosts;
    PhasePostsKeep(m, AdvanceSleep(m, result), Sleep, m.sleepPhase, result);
  }

  lemma StateEndEvalKeeps(m: Machine, e: Env, result: bool)
    requires Full(m) && !m.monitoring
    ensures Kept(m, StateEndEval(m, e, result))
    ensures m.cur == Working && result ==> StateEndEval(m, e, result).cur == Dark
    ensures m.cur == Dark && result && DarkNext(m.cfg) != Dark
            ==> StateEndEval(m, e, result).cur == DarkNext(m.cfg)
  {
    hide Linked, EndOf, Messages, TransitInner, Wake, Block, AdvanceNap, AdvanceSleep;
    match m.cur
    case Working =>
      if result { TransitInnerKeeps(m, e, Dark); } else { BlockKeeps(m, e); }
    case Dark =>
      if !result { BlockKeeps(m, e); }
      else if DarkNext(m.cfg) != Dark { TransitInnerKeeps(m, e, DarkNext(m.cfg)); }
    case Nap =>
      if m.napPhase != PHASE_END { AdvanceNapKeeps(m, result); }
      else if !result { WakeKeeps(m, e); }
      else if m.napNext != Nap { TransitInnerKeeps(m, e, Sleep); }
    case Maintenance =>
    case Sleep =>
      if m.sleepPhase < PHASE_END { AdvanceSleepKeeps(m, result); }
      else if !result && m.repeated { WakeKeeps(m, e); }
  }

  lemma EndEvalKeeps(m: Machine, e: Env, result: bool)
    requires Full(m)
    ensures Kept(m, EndEval(m, e, result))
  {
    if m.evaluating {
      hide Linked, EndOf, Messages, StateEndEval;
      assert Full(CloseEval(m));
      StateEndEvalKeeps(CloseEval(m), e, result);
    }
  }

  /** The parameters describe where the machine is. */
  predicate Describes(m: Machine, p: EvalParams) {
    p.curState == m.cur && p.curPhase == PhaseOf(m, m.cur)
  }

  /** An evaluation that opens and closes at once. */
  lemma QuickEvalKeeps(m: Machine, e: Env, kind: Monitor, result: bool)
    requires Full(m) && !m.monitoring
    ensures var r := EndEval(OpenEval(m, kind), e, result);
            && Kept(m, r)
            && (m.cur == Working && result ==> r.cur == Dark)
            && (m.cur == Dark && result && DarkNext(m.cfg) != Dark ==> r.cur == DarkNext(m.cfg))
  {
    CoreEvals(m);
    var m1 := CloseEval(OpenEval(m, kind));
    hide Core, StateEndEval;
    ShapeKeeps(m, m1);
    StateEndEvalKeeps(m1, e, result);
  }

  lemma MotionStartKeeps(m: Machine, e: Env)
    requires Full(m) && !m.monitoring && (m.cur == Sleep || (m.cur == Nap && m.napPhase == PHASE_END))
    ensures Kept(m, OpenEval(m, MotionMonitor)) && Kept(m, Block(OpenEval(m, MotionMonitor), e))
  {
    CoreEvals(m);
    var m1 := OpenEval(m, MotionMonitor);
    hide Core, Block;
    ShapeKeeps(m, m1);
    BlockKeeps(m1, e);
  }

  lemma StartEvalKeeps(m: Machine, e: Env, p: EvalParams)
    requires Full(m) && Describes(m, p)
    ensures Kept(m, StartEval(m, e, p))
    ensures !m.monitoring && Classify(m.cfg, p) == ChargeMonitor && !e.charging
            ==> StartEval(m, e, p).cur == Dark
    ensures !m.monitoring && Classify(m.cfg, p) == NoMonitor && m.cur == Dark && DarkNext(m.cfg) != Dark
            ==> StartEval(m, e, p).cur == DarkNext(m.cfg)
  {
    CoreEvals(m);
    var kind := Classify(m.cfg, p);
    if kind == MotionMonitor { MotionOnlyLate(m, p); }
    assert kind == ChargeMonitor ==> m.cur == Working;
    hide Core, Full, Block, Classify, EndEval, OpenEval;
    if m.monitoring {
      AskedTwice(m);
    } else if kind == MotionMonitor {
      MotionStartKeeps(m, e);
    } else {
      QuickEvalKeeps(m, e, kind, kind == NoMonitor || !e.charging);
    }
  }

  lemma AskedTwice(m: Machine)
    requires Full(m) && m.monitoring
    ensures Kept(m, m.(evaluating := true))
  {
    CoreEvals(m);
    hide Core;
    ShapeKeeps(m, m.(evaluating := true));
  }

  /** Motion is watched only in the last phase of NAP and in SLEEP. */
  lemma MotionOnlyLate(m: Machine, p: EvalParams)
    requires Describes(m, p) && Classify(m.cfg, p) == MotionMonitor
    ensures m.cur == Sleep || (m.cur == Nap && m.napPhase == PHASE_END)
  {
  }

  lemma StopEvaluationKeeps(m: Machine)
    requires Core(m)
    ensures var r := StopEvaluation(m);
            Core(r) && !r.monitoring && r.cur == m.cur && r.pre == m.pre && r.cfg == m.cfg && r.lock == m.lock
            && r.napNext == m.napNext && r.maintNext == m.maintNext && r.blocked == m.blocked
            && r.timers == m.timers && r.queue == m.queue && r.hist.done == m.hist.done
            && r.napPhase == m.napPhase && r.sleepPhase == m.sleepPhase
  {
    hide Linked, EndOf, Messages;
  }

  /** A charging battery keeps the device in WORKING. */
  lemma ChargeGate(m: Machine, e: Env)
    requires m.cur == Working && !m.monitoring && e.charging
    ensures StartEval(m, e, EvalParams(Working, 0, Dark, 0, false)).cur == Working
  {
  }

  /** WORKING asks for DARK. */
  lemma ToDarkKeeps(m: Machine, e: Env)
    requires Full(m) && m.cur == Working
    ensures Kept(m, TransitToState(m, e, Dark).m)
    ensures TransitToState(m, e, Dark).m.cur == if m.blocked || e.charging then Working else Dark
  {
    assert !m.monitoring;
    if e.charging { ChargeGate(m, e); }
    hide StartEval, Full;
    if !m.blocked {
      StartEvalKeeps(m, e, EvalParams(Working, 0, Dark, 0, false));
    }
  }

  // ---------------------------------------------------------------- tasks

  /** What a task leaves behind: the invariant of the moments between tasks. */
  predicate Done(m: Machine, r: Machine) {
    Inv(r) && r.cfg == m.cfg
  }

  /** The task of DARK asks for the next state, or is refused because the state is blocked. */
  lemma RunTransitDarkIs(m: Machine, e: Env)
    requires m.cur == Dark && DarkNext(m.cfg) != Dark
    requires var m1 := StopEvaluation(m); m1.cur == Dark && m1.blocked == m.blocked && m1.cfg == m.cfg
    ensures var m1 := StopEvaluation(m);
            RunTransit(m, e, Dark) == if m.blocked then Block(m1, e).(lock := false)
                                      else StartEval(m1, e, EvalParams(Dark, 0, DarkNext(m.cfg), 0, false))
  {
    hide StopEvaluation, StartEval, Block;
  }

  lemma RunTransitDarkKeeps(m: Machine, e: Env)
    requires Core(m) && m.cur == Dark && DarkNext(m.cfg) != Dark
    ensures Done(m, RunTransit(m, e, Dark))
  {
    StopEvaluationKeeps(m);
    var m1 := StopEvaluation(m);
    RunTransitDarkIs(m, e);
    hide Core, StopEvaluation, StartEval, Block, RunTransit;
    assert m1.cur == Dark;
    if m1.blocked {
      BlockKeeps(m1, e);
      MarksFree(Block(m1, e), false, Block(m1, e).repeated);
    } else {
      StartEvalKeeps(m1, e, EvalParams(Dark, 0, DarkNext(m.cfg), 0, false));
    }
  }

  lemma RunTransitNapKeeps(m: Machine, e: Env)
    requires Core(m) && m.cur == Nap && m.napNext in {Sleep, Maintenance}
    ensures Done(m, RunTransit(m, e, Nap))
    ensures m.napNext == Maintenance ==> RunTransit(m, e, Nap).cur == Maintenance
  {
    StopEvaluationKeeps(m);
    var m1 := StopEvaluation(m);
    hide Linked, EndOf, Messages, StopEvaluation, StartEval, Block, TransitInner;
    if m1.napNext == Maintenance {
      TransitInnerKeeps(m1, e, Maintenance);
    } else if m1.blocked {
      BlockKeeps(m1, e);
    } else {
      StartEvalKeeps(m1, e, EvalParams(Nap, m1.napPhase, Sleep, 0, false));
    }
  }

  lemma RunTransitOtherKeeps(m: Machine, e: Env)
    requires Core(m) && m.cur in {Maintenance, Sleep}
    ensures var r := RunTransit(m, e, m.cur);
            && Done(m, r) && r.pre == m.cur
            && (m.cur == Maintenance ==> r.cur == m.pre && r.napPhase == m.napPhase && r.sleepPhase == m.sleepPhase)
            && (m.cur == Sleep ==> r.cur == Maintenance)
  {
    StopEvaluationKeeps(m);
    var m1 := StopEvaluation(m);
    TransitInnerKeeps(m1, e, NextOf(m1, m.cur));
    ReturnKeepsPhases(m1, e);
    hide Linked, EndOf, Messages, StopEvaluation, StartEval, Block, TransitInner;
  }

  lemma RunTransitKeeps(m: Machine, e: Env)
    requires Core(m) && m.cur != Working
    requires m.cur == Dark ==> DarkNext(m.cfg) != Dark
    requires m.cur == Nap ==> m.napNext in {Sleep, Maintenance}
    ensures Done(m, RunTransit(m, e, m.cur))
  {
    hide RunTransit, Core, Inv;
    match m.cur
    case Working =>
    case Dark => RunTransitDarkKeeps(m, e);
    case Nap => RunTransitNapKeeps(m, e);
    case Maintenance => RunTransitOtherKeeps(m, e);
    case Sleep => RunTransitOtherKeeps(m, e);
  }

  lemma ReturnKeepsPhases(m: Machine, e: Env)
    ensures m.cur == Maintenance && m.maintNext in {Nap, Sleep} ==>
              var r := TransitInner(m, e, m.maintNext);
              r.napPhase == m.napPhase && r.sleepPhase == m.sleepPhase
  {
    var m1 := Leave(m, m.maintNext);
    assert m1.pre == m.cur && m1.cur == m.maintNext && m1.napPhase == m.napPhase && m1.sleepPhase == m.sleepPhase;
    hide Leave, BeginNap, EnterSleep;
    if m.cur == Maintenance { ResumeKeepsPhases(m1, e); }
  }

  lemma ResumeKeepsPhases(m: Machine, e: Env)
    requires m.pre == Maintenance
    ensures BeginNap(m, e).napPhase == m.napPhase && BeginNap(m, e).sleepPhase == m.sleepPhase
    ensures EnterSleep(m, e).napPhase == m.napPhase && EnterSleep(m, e).sleepPhase == m.sleepPhase
  {
    hide MaintTimeout, NextIndex;
  }

  lemma RunPhaseKeeps(m: Machine, e: Env, s: State)
    requires Full(m) && m.cur == s
    ensures Kept(m, RunPhase(m, e, s))
  {
    hide StartEval, Full;
    StartEvalKeeps(m, e, EvalParams(s, PhaseOf(m, s), s, PhaseOf(m, s) + 1, false));
  }

  lemma RunRepeatKeeps(m: Machine, e: Env)
    requires Full(m) && m.cur == Sleep
    ensures Kept(m, RunRepeat(m, e))
  {
    hide StartEval, Full;
    StartEvalKeeps(m, e, EvalParams(Sleep, m.sleepPhase, Sleep, m.sleepPhase, true));
  }

  lemma HoldSleepKeeps(m: Machine, e: Env)
    requires Full(m)
    ensures Kept(m, HoldSleep(m, e)) && HoldSleep(m, e).cur == Sleep
  {
    hide Linked, EndOf, Messages, TransitInner;
    var m0 := m.(blocked := false);
    if m.cur != Sleep {
      assert Core(m0);
      TransitInnerKeeps(m0, e, Sleep);
    }
  }

  lemma AwakeKeeps(m: Machine, e: Env)
    requires Full(m) && m.cur == Sleep
    ensures Kept(m, BeginState(m, e))
  {
    BeginStateKeeps(m, e, Sleep);
    hide Linked, EndOf, Messages, BeginState, LogAt, Owned, Targets, Counters;
  }

  lemma ReactKeeps(m: Machine, e: Env, a: Action)
    requires Full(m)
    ensures Kept(m, React(m, e, a))
    ensures a.ScreenOn? ==> React(m, e, a).cur == Working && React(m, e, a).screenOn
  {
    hide Linked, EndOf, Messages, Wake, HoldSleep, BeginState;
    match a
    case ScreenOn =>
      assert Core(m.(screenOn := true));
      WakeKeeps(m.(screenOn := true), e);
    case ScreenOff =>
    case ScreenUnlocked => WakeKeeps(m, e);
    case Charging => WakeKeeps(m, e);
    case UsbAttached => WakeKeeps(m, e);
    case LidOpen => WakeKeeps(m, e);
    case UserSleepChanged(isSleep) =>
      if isSleep { HoldSleepKeeps(m, e); }
      else if m.cur == Sleep { AwakeKeeps(m, e); }
    case EnterForceSleep => HoldSleepKeeps(m, e);
    case _ =>
  }

  lemma HandleCommonEventKeeps(m: Machine, e: Env, a: Action)
    requires Full(m)
    ensures Kept(m, HandleCommonEvent(m, e, a))
    ensures a.ScreenOn? ==> HandleCommonEvent(m, e, a).cur == Working
  {
    ReactKeeps(m, e, a);
    var m1 := React(m, e, a);
    hide React, TransitToState;
    if m1.cur == Working && !m1.screenOn {
      ToDarkKeeps(m1, e);
    }
  }

  /** The machine after its oldest task has been taken off the queue; a message moves to the
      delivered ones. */
  function Take(m: Machine): Machine
    requires m.queue != []
  {
    m.(queue := m.queue[1..],
       hist := if m.queue[0].Deliver? then m.hist.(done := m.hist.done + [m.queue[0].msg]) else m.hist)
  }

  lemma TakeKeepsLog(m: Machine)
    requires m.queue != []
    ensures Sent(Take(m)) == Sent(m)
  {
    var t := m.queue[0];
    var now := if t.Deliver? then [t.msg] else [];
    var rest := Messages(m.queue[1..]);
    assert Messages(m.queue) == now + rest;
    var r := Take(m);
    assert r.queue == m.queue[1..] && r.hist.done == m.hist.done + now;
    hide Messages, Take;
    assert (m.hist.done + now) + rest == m.hist.done + (now + rest);
  }

  /** Taking a task off the queue keeps everything but the promise to leave MAINTENANCE. */
  lemma TakeKeeps(m: Machine)
    requires Inv(m) && m.queue != []
    ensures var t := m.queue[0];
            && Core(Take(m)) && OwnsTask(m.cur, t)
            && (t != TransitNext(Maintenance) ==> Full(Take(m)))
            && (t.Deliver? || t.TransitNext? || m.cur != Maintenance)
  {
    TakeKeepsLog(m);
    assert m.queue[0] in m.queue;
    hide Linked, EndOf, Messages, Sent;
  }

  /** The standby lock and the detection mark are no part of the invariant. */
  lemma MarksFree(m: Machine, lock: bool, repeated: bool)
    requires Core(m)
    ensures Core(m.(lock := lock, repeated := repeated))
    ensures Full(m) ==> Full(m.(lock := lock, repeated := repeated))
  {
    hide Linked, EndOf, Messages;
  }

  lemma RunTaskKeeps(m: Machine, e: Env, t: Task)
    requires Core(m) && OwnsTask(m.cur, t) && !t.Deliver?
    requires if t.TransitNext?
             then (m.cur == Dark ==> DarkNext(m.cfg) != Dark) && (m.cur == Nap ==> m.napNext in {Sleep, Maintenance})
             else Inv(m)
    ensures Done(m, RunTask(m, e, t))
  {
    MarksFree(m, true, m.repeated);
    MarksFree(m, m.lock, true);
    hide Core, Full, RunTransit, RunPhase, RunRepeat, TransitToState;
    match t
    case ScreenCheck => if !m.screenOn { ToDarkKeeps(m, e); }
    case TransitNext(_) => RunTransitKeeps(m.(lock := true), e);
    case FirstPhase(s) => RunPhaseKeeps(m.(lock := true), e, s);
    case NextPhase(s) => RunPhaseKeeps(m, e, s);
    case RepeatDetect => RunRepeatKeeps(m.(repeated := true), e);
  }

  /** What running the oldest task does to the machine it has been taken from. */
  lemma HeadIs(m: Machine, e: Env)
    requires m.queue != []
    ensures var t := m.queue[0];
            Next(m, e, RunHead) == if t.Deliver? then RunDeliver(Take(m), e, t.msg) else RunTask(Take(m), e, t)
  {
    hide RunDeliver, RunTransit, RunPhase, RunRepeat, RunScreenCheck;
  }

  /** What `RunTaskKeeps` needs of a transition task at the head. */
  lemma HeadHeadsOn(m: Machine)
    requires Inv(m) && m.queue != []
    ensures var t := m.queue[0]; var r := Take(m);
            if t.TransitNext?
            then (r.cur == Dark ==> DarkNext(r.cfg) != Dark) && (r.cur == Nap ==> r.napNext in {Sleep, Maintenance})
            else (r.lock ==> r.cur in {Nap, Sleep})
  {
    assert OwnsTask(m.cur, m.queue[0]);
    assert m.queue[0].TransitNext? ==> HeadsOn(m, m.queue[0].state);
    hide Linked, EndOf, Messages;
  }

  lemma RunHeadKeeps(m: Machine, e: Env)
    requires Inv(m) && m.queue != []
    ensures Done(m, Next(m, e, RunHead))
  {
    TakeKeeps(m);
    HeadIs(m, e);
    HeadHeadsOn(m);
    var t := m.queue[0];
    hide Core, Full, Next, RunDeliver, RunTask, Done;
    if t.Deliver? {
      DeliverKeeps(Take(m), e, t.msg);
    } else {
      RunTaskKeeps(Take(m), e, t);
    }
  }

  lemma DeliverKeeps(m: Machine, e: Env, msg: Message)
    requires Full(m) && (m.lock ==> m.cur in {Nap, Sleep})
    ensures Done(m, RunDeliver(m, e, msg))
  {
    hide Core, HandleCommonEvent;
    if msg.CommonEvent? { HandleCommonEventKeeps(m, e, msg.action); }
  }

  /** Appending `t` to the queue outside a task. */
  lemma QueueKeeps(m: Machine, t: Task)
    requires Inv(m) && OwnsTask(m.cur, t)
    requires t.Deliver? ==> !t.msg.StateTransit? && Fits(m.cfg, Sent(m), t.msg)
    requires t.TransitNext? ==> HeadsOn(m, m.cur)
    ensures Inv(m.(queue := m.queue + [t]))
  {
    LogPost(m, m.(queue := m.queue + [t]), t, m.cur);
    hide Linked, EndOf, Messages, Sent, LogAt;
  }

  /** A timer whose task is queued may be disarmed. */
  lemma DisarmKeeps(m: Machine, s: State)
    requires Inv(m) && TransitNext(s) in m.queue
    ensures Inv(m.(timers := m.timers - {TransitTimer(s)}))
  {
    hide Linked, EndOf, Messages;
  }

  lemma FireKeeps(m: Machine, t: Timer)
    requires Inv(m) && t in m.timers
    ensures Done(m, FireTimer(m, t))
  {
    assert OwnsTimer(m.cur, t);
    hide Core;
    if t.TransitTimer? {
      QueueKeeps(m, TransitNext(t.state));
      var m1 := m.(queue := m.queue + [TransitNext(t.state)]);
      assert TransitNext(t.state) in m1.queue;
      DisarmKeeps(m1, t.state);
    } else {
      QueueKeeps(m, RepeatDetect);
    }
  }

  lemma HalfHourTimerKeeps(m: Machine)
    requires Inv(m)
    ensures Done(m, HalfHourInner(m, true))
  {
    var r := HalfHourInner(m, true);
    if r != m {
      QueueKeeps(m, Deliver(HalfHour(true)));
      var m1 := m.(queue := m.queue + [Deliver(HalfHour(true))]);
      hide Linked, EndOf, Messages, Owned, Targets, Evals, Counters;
      assert r == m1.(halfHour := true);
      OnHalfHourKeeps(m1);
    }
  }

  lemma OnHalfHourKeeps(m: Machine)
    requires Inv(m) && (m.cur == Sleep || (m.cur == Maintenance && m.pre == Sleep))
    ensures Inv(m.(halfHour := true))
  {
    hide Linked, EndOf, Messages;
  }

  lemma NextKeeps(m: Machine, e: Env, s: Step)
    requires Inv(m) && Enabled(m, s)
    ensures Done(m, Next(m, e, s))
  {
    hide Core, RunTask, EndEval, Block, HalfHourInner, FireTimer, Linked, EndOf;
    match s
    case RunHead => RunHeadKeeps(m, e);
    case Fire(t) => FireKeeps(m, t);
    case HalfHourTimer => HalfHourTimerKeeps(m);
    case MotionResult(result) => EndEvalKeeps(m, e, result);
    case MotionRetryFails => BlockKeeps(m, e);
    case DayNightSwitch =>
      if m.cur == Sleep {
        assert EndOf(Sent(m)) == Sleep by { InvLog(m); }
        QueueKeeps(m, Deliver(ConditionChanged));
      }
    case External(msg) => QueueKeeps(m, Deliver(msg));
  }

  lemma InvLog(m: Machine)
    requires Inv(m)
    ensures Linked(m.cfg, Sent(m)) && EndOf(Sent(m)) == m.cur
  {
  }

  lemma InitialHolds(cfg: Config, screenOn: bool)
    ensures Inv(Initial(cfg, screenOn))
  {
  }
}
