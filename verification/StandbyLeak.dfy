/** When the restart of SLEEP breaks the lock discipline. `LockNeverLeaks` asks for `Room` at
    each restart; here the condition is shown to be exact for a restart with no further report
    behind it that the user is awake (each such report restarts SLEEP once more, and has a guard
    of its own): without room the queued tasks, run in order, leave the lock held with nobody to
    release it, and such a state is reachable. */
module StandbyLeak {
  import opened StandbyTypes
  import opened StandbyMachine
  import opened StandbyInvariant
  import opened StandbyLog
  import opened StandbyLock
  import opened StandbyRuns

  const AWAKE := Deliver(CommonEvent(UserSleepChanged(false)))
  const FORCE := Deliver(CommonEvent(EnterForceSleep))

  /** A task that leaves a device in SLEEP with its phases as they are, or completes one: it is
      neither a way out of SLEEP nor a further report that the user is awake. */
  predicate Harmless(t: Task) {
    !Leaves(t, false) && t != AWAKE
  }

  /** A first-phase task at position `i` that will run after the phases are over. */
  predicate Doomed(m: Machine, i: nat) {
    && Inv(m) && m.cur == Sleep && i < |m.queue|
    && m.queue[i] == FirstPhase(Sleep)
    && (forall t :: t in m.queue[..i] ==> Harmless(t))
    && CountAdvances(m.queue[..i], false) + m.sleepPhase + (if m.monitoring then 1 else 0) >= PHASE_END
  }

  /** What a task of SLEEP does when it completes, or fails to complete, a phase. */
  predicate Flushed(m: Machine, r: Machine) {
    && r.cur == Sleep && m.queue <= r.queue
    && r.sleepPhase + (if r.monitoring then 1 else 0)
       >= MinInt(PHASE_END, m.sleepPhase + (if m.sleepPhase < PHASE_END then 1 else 0))
  }

  lemma StartEvalFlushes(m: Machine, e: Env, p: EvalParams)
    requires m.cur == Sleep && !m.monitoring && m.sleepPhase <= PHASE_END
    requires p == EvalParams(Sleep, m.sleepPhase, Sleep, m.sleepPhase, true)
          || p == EvalParams(Sleep, m.sleepPhase, Sleep, m.sleepPhase + 1, false)
    ensures Flushed(m, StartEval(m, e, p))
    ensures !p.isRepeated && m.sleepPhase == PHASE_END
            ==> StartEval(m, e, p).lock == m.lock && !StartEval(m, e, p).monitoring
                && StartEval(m, e, p).sleepPhase == PHASE_END
  {
    var kind := Classify(m.cfg, p);
    var m1 := OpenEval(m, kind);
    assert kind == NoMonitor || (kind == MotionMonitor && p.isRepeated && m.sleepPhase == PHASE_END);
    assert m1.cur == Sleep && m1.evaluating && m1.sleepPhase == m.sleepPhase && m1.queue == m.queue && m1.lock == m.lock;
    hide EndEval, Classify;
    if kind == NoMonitor {
      ResultFlushes(m1, e);
    }
  }

  lemma {:induction false} CountSplit(q: seq<Task>, i: nat)
    requires 0 < i <= |q|
    ensures CountAdvances(q[..i], false)
         == (if Advances(q[0], false) then 1 else 0) + CountAdvances(q[1..][..i - 1], false)
  {
    assert q[..i][1..] == q[1..][..i - 1];
  }

  lemma ResultFlushes(m: Machine, e: Env)
    requires m.cur == Sleep && m.sleepPhase <= PHASE_END && m.evaluating
    ensures var r := EndEval(m, e, true);
            && r.cur == Sleep && m.queue <= r.queue && !r.monitoring
            && r.sleepPhase == MinInt(PHASE_END, m.sleepPhase + 1)
            && (m.sleepPhase == PHASE_END ==> r.lock == m.lock)
  {
    var m1 := CloseEval(m);
    assert m1.cur == Sleep && m1.sleepPhase == m.sleepPhase && m1.queue == m.queue && m1.lock == m.lock && !m1.monitoring;
    hide CloseEval, PhasePosts, Wake, TransitInner, Block, EndEvalNap;
    SleepPasses(m1, e);
  }

  lemma SleepPasses(m: Machine, e: Env)
    requires m.sleepPhase <= PHASE_END && !m.monitoring
    ensures var r := EndEvalSleep(m, e, true);
            && r.cur == m.cur && m.queue <= r.queue && !r.monitoring
            && r.sleepPhase == MinInt(PHASE_END, m.sleepPhase + 1)
            && (m.sleepPhase == PHASE_END ==> r.lock == m.lock)
  {
    hide PhasePosts, Wake;
  }

  /** The pending evaluation may pass first. */
  lemma ResultDoomed(m: Machine, e: Env, i: nat)
    requires Doomed(m, i) && m.monitoring
    ensures Doomed(Next(m, e, MotionResult(true)), i) && !Next(m, e, MotionResult(true)).monitoring
  {
    var r := EndEval(m, e, true);
    assert m.evaluating && m.sleepPhase <= PHASE_END;
    NextKeeps(m, e, MotionResult(true));
    ResultFlushes(m, e);
    hide Inv, EndEval, CountAdvances;
    assert r.queue[..i] == m.queue[..i];
  }

  /** Running a harmless task of SLEEP completes a phase if the task is one that may. */
  lemma HeadFlushes(m: Machine, e: Env, t: Task)
    requires m.cur == Sleep && !m.monitoring && m.sleepPhase <= PHASE_END
    requires OwnsTask(Sleep, t) && Harmless(t)
    ensures var r := RunTask(m, e, t);
            && r.cur == Sleep && m.queue <= r.queue
            && r.sleepPhase + (if r.monitoring then 1 else 0)
               >= MinInt(PHASE_END, m.sleepPhase + (if Advances(t, false) then 1 else 0))
  {
    if Advances(t, false) {
      var p := if t.RepeatDetect? then EvalParams(Sleep, m.sleepPhase, Sleep, m.sleepPhase, true)
               else EvalParams(Sleep, m.sleepPhase, Sleep, m.sleepPhase + 1, false);
      var m1 := m.(lock := m.lock || t.FirstPhase?, repeated := m.repeated || t.RepeatDetect?);
      PhaseTaskIs(m, e, t);
      hide StartEval, RunTask;
      StartEvalFlushes(m1, e, p);
    } else {
      MessageIs(m, e, t);
      hide RunTask;
    }
  }

  lemma PhaseTaskIs(m: Machine, e: Env, t: Task)
    requires m.cur == Sleep && OwnsTask(Sleep, t) && Advances(t, false)
    ensures var p := if t.RepeatDetect? then EvalParams(Sleep, m.sleepPhase, Sleep, m.sleepPhase, true)
                     else EvalParams(Sleep, m.sleepPhase, Sleep, m.sleepPhase + 1, false);
            RunTask(m, e, t) == StartEval(m.(lock := m.lock || t.FirstPhase?, repeated := m.repeated || t.RepeatDetect?), e, p)
  {
    hide StartEval;
    if t.FirstPhase? {
      assert m.(lock := m.lock || t.FirstPhase?, repeated := m.repeated || t.RepeatDetect?) == m.(lock := true);
    } else if t.NextPhase? {
      assert m.(lock := m.lock || t.FirstPhase?, repeated := m.repeated || t.RepeatDetect?) == m;
    } else {
      assert m.(lock := m.lock || t.FirstPhase?, repeated := m.repeated || t.RepeatDetect?) == m.(repeated := true);
    }
  }

  lemma MessageIs(m: Machine, e: Env, t: Task)
    requires m.cur == Sleep && OwnsTask(Sleep, t) && Harmless(t) && !Advances(t, false)
    ensures SleepsOn(m, RunTask(m, e, t))
  {
    var msg := t.msg;
    var m1 := m.(hist := m.hist.(done := m.hist.done + [msg]));
    if msg.CommonEvent? { StaysAsleep(m1, e, msg.action); }
    hide HandleCommonEvent;
  }

  /** The device sleeps on: nothing that the phases depend on has changed. */
  predicate SleepsOn(m: Machine, r: Machine) {
    r.cur == m.cur && r.queue == m.queue && r.sleepPhase == m.sleepPhase && r.monitoring == m.monitoring
  }

  /** Every other common event keeps a sleeping device as it is. */
  lemma StaysAsleep(m: Machine, e: Env, a: Action)
    requires m.cur == Sleep && !WakesUp(a) && a != UserSleepChanged(false)
    ensures SleepsOn(m, HandleCommonEvent(m, e, a))
  {
    HoldStays(m, e);
    assert SleepsOn(m, m.(screenOn := false)) && SleepsOn(m, m);
    assert SleepsOn(m, React(m, e, a)) by { hide Wake, HoldSleep, BeginState, SleepsOn; }
    hide TransitToState, React, SleepsOn;
    StillSleeping(m, React(m, e, a));
  }

  lemma HoldStays(m: Machine, e: Env)
    requires m.cur == Sleep
    ensures SleepsOn(m, HoldSleep(m, e))
  {
  }

  lemma StillSleeping(m: Machine, r: Machine)
    requires m.cur == Sleep && SleepsOn(m, r)
    ensures r.cur == Sleep
  {
  }

  /** A harmless task leaves the first-phase task doomed, one place closer. */
  lemma HeadDoomed(m: Machine, e: Env, i: nat)
    requires Doomed(m, i) && !m.monitoring && i > 0
    ensures Doomed(Next(m, e, RunHead), i - 1)
  {
    var t := m.queue[0];
    var m1 := m.(queue := m.queue[1..]);
    TakeKeeps(m);
    NextKeeps(m, e, RunHead);
    CountSplit(m.queue, i);
    assert t in m.queue[..i];
    assert m.sleepPhase <= PHASE_END;
    hide Inv, Core, Full, RunTask, CountAdvances, Doomed;
    HeadFlushes(m1, e, t);
    StillDoomed(m, RunTask(m1, e, t), i);
  }

  lemma StillDoomed(m: Machine, r: Machine, i: nat)
    requires Doomed(m, i) && !m.monitoring && i > 0 && Inv(r) && r.cur == Sleep && m.queue[1..] <= r.queue
    requires CountAdvances(m.queue[..i], false)
          == (if Advances(m.queue[0], false) then 1 else 0) + CountAdvances(m.queue[1..][..i - 1], false)
    requires r.sleepPhase + (if r.monitoring then 1 else 0)
          >= MinInt(PHASE_END, m.sleepPhase + (if Advances(m.queue[0], false) then 1 else 0))
    ensures Doomed(r, i - 1)
  {
    hide Inv, CountAdvances;
    assert r.queue[..i - 1] == m.queue[1..][..i - 1];
    assert forall t :: t in r.queue[..i - 1] ==> t in m.queue[..i];
    assert r.queue[i - 1] == m.queue[1..][i - 1];
  }

  /** The doomed task takes the lock, and nobody will give it back. */
  lemma LastLeaks(m: Machine, e: Env)
    requires Doomed(m, 0) && !m.monitoring
    ensures var r := Next(m, e, RunHead);
            r.lock && !r.monitoring && r.sleepPhase == PHASE_END && !LockSafe(r)
  {
    assert m.sleepPhase == PHASE_END;
    var p := EvalParams(Sleep, PHASE_END, Sleep, PHASE_END + 1, false);
    hide StartEval, Inv;
    StartEvalFlushes(Take(m).(lock := true), e, p);
  }

  lemma FlushLeaks(m: Machine, e: Env, i: nat) returns (run: seq<Move>)
    requires Doomed(m, i)
    ensures ValidRun(m, run) && NeverAwake(m, run) && !LockSafe(Exec(m, run))
    decreases i, m.monitoring
  {
    assert Enabled(m, RunHead);
    assert !AwakeEvent(m, RunHead) by { DoomedSleepsOn(m, i); }
    hide Doomed, LockSafe, Next, AwakeEvent;
    if m.monitoring {
      ResultDoomed(m, e, i);
      var rest := FlushLeaks(Next(m, e, MotionResult(true)), e, i);
      run := [Move(e, MotionResult(true))] + rest;
      assert run[1..] == rest && !AwakeEvent(m, MotionResult(true)) by { NoTaskRuns(m, true); }
    } else if i > 0 {
      HeadDoomed(m, e, i);
      var rest := FlushLeaks(Next(m, e, RunHead), e, i - 1);
      run := [Move(e, RunHead)] + rest;
      assert run[1..] == rest;
    } else {
      LastLeaks(m, e);
      run := [Move(e, RunHead)];
      assert ValidRun(m, run) && run[1..] == [] && NeverAwake(m, run);
    }
  }

  lemma DoomedSleepsOn(m: Machine, i: nat)
    requires Doomed(m, i)
    ensures !AwakeEvent(m, RunHead)
  {
    hide Inv, CountAdvances;
    if i > 0 { assert m.queue[0] == m.queue[..i][0] && m.queue[0] in m.queue[..i]; }
  }

  lemma NoTaskRuns(m: Machine, result: bool)
    ensures !AwakeEvent(m, MotionResult(result))
  {
  }

  /** The run handles the report at the head of the queue, and no further one. */
  predicate AwakenedOnce(m: Machine, run: seq<Move>)
    requires ValidRun(m, run)
  {
    run != [] && run[0].step == RunHead && NeverAwake(Next(m, run[0].env, run[0].step), run[1..])
  }

  /** A restart of SLEEP without room leaks the lock, unless a further report that the user is
      awake waits behind it: some continuation ends with the lock held, no evaluation pending and
      no phase left. */
  lemma RestartWithoutRoomLeaks(m: Machine, e: Env) returns (run: seq<Move>)
    requires Inv(m) && AwakeStep(m, RunHead) && !Room(m.queue[1..], m.monitoring)
    requires AWAKE !in m.queue[1..]
    ensures ValidRun(m, run) && AwakenedOnce(m, run) && !LockSafe(Exec(m, run))
  {
    var r := Next(m, e, RunHead);
    NextKeeps(m, e, RunHead);
    RestartDooms(m, e);
    hide Doomed, LockSafe, Next, Inv;
    var rest := FlushLeaks(r, e, |m.queue| - 1);
    run := [Move(e, RunHead)] + rest;
    assert run[1..] == rest;
  }

  lemma RestartDooms(m: Machine, e: Env)
    requires Inv(m) && AwakeStep(m, RunHead) && !Room(m.queue[1..], m.monitoring)
    requires AWAKE !in m.queue[1..]
    ensures Doomed(Next(m, e, RunHead), |m.queue| - 1)
  {
    var m1 := Take(m);
    var r := Next(m, e, RunHead);
    NextKeeps(m, e, RunHead);
    BeginQueue(m1, e);
    BeginControl(m1, e);
    AwakeIs(m, e);
    hide Inv, Next, BeginState, CountAdvances, Leaves;
    assert r.queue[..|m.queue| - 1] == m.queue[1..];
    assert forall t :: t in m.queue[1..] ==> Harmless(t);
  }

  /** `Room` is the exact guard of a restart. From a state that keeps the lock discipline, with no
      further report queued that the user is awake, every continuation in which none is handled
      keeps a releaser for the lock if and only if there is room. */
  lemma RoomIsExact(m: Machine)
    requires Inv(m) && LockInv(m) && AwakeStep(m, RunHead) && AWAKE !in m.queue[1..]
    ensures Room(m.queue[1..], m.monitoring) <==>
              forall run: seq<Move> :: ValidRun(m, run) && AwakenedOnce(m, run) ==> LockSafe(Exec(m, run))
  {
    if Room(m.queue[1..], m.monitoring) {
      forall run: seq<Move> | ValidRun(m, run) && AwakenedOnce(m, run)
        ensures LockSafe(Exec(m, run))
      {
        hide Inv, Next, LockSafe, Room;
        var r := Next(m, run[0].env, RunHead);
        NextKeeps(m, run[0].env, RunHead);
        NextLock(m, run[0].env, RunHead);
        NeverAwakeLock(r, run[1..]);
      }
    } else {
      var run := RestartWithoutRoomLeaks(m, Env(true, true, 0, 0, false));
    }
  }

  /** Without restarts of SLEEP every run is guarded. */
  lemma {:induction false} NeverAwakeLock(m: Machine, run: seq<Move>)
    requires Inv(m) && LockInv(m) && ValidRun(m, run) && NeverAwake(m, run)
    ensures LockSafe(Exec(m, run))
    decreases run
  {
    if run == [] {
    } else {
      NextKeeps(m, run[0].env, run[0].step);
      hide Inv, LockInv, Next, AwakeEvent;
      NextLock(m, run[0].env, run[0].step);
      NeverAwakeLock(Next(m, run[0].env, run[0].step), run[1..]);
    }
  }

  // ---------------------------------------------------------------- such a state is reachable

  lemma HoldFromWorking(m: Machine, e: Env)
    requires m.cur == Working && m.pre == Working && !m.monitoring && m.timers == map[]
    requires forall t :: t in m.queue ==> t.Deliver?
    requires !e.halfHourPassed
    ensures var r := HoldSleep(m, e);
            && r.cur == Sleep && r.pre == Working && !r.monitoring && r.screenOn == m.screenOn && r.halfHour == m.halfHour
            && r.queue == m.queue + [FirstPhase(Sleep), Deliver(StateTransit(Working, Sleep))]
  {
    RemoveNothing(m.queue, ConditionTask);
    var m1 := Leave(m.(blocked := false), Sleep);
    assert m1.cur == Sleep && m1.pre == Working && m1.queue == m.queue && !m1.monitoring && m1.screenOn == m.screenOn
           && m1.halfHour == m.halfHour;
    hide Leave;
    EnterAfresh(m1, e);
    hide EnterSleep;
    var m2 := EnterSleep(m1, e);
    assert Announce(m2).queue == m2.queue + [Deliver(StateTransit(Working, Sleep))];
  }

  lemma EnterAfresh(m: Machine, e: Env)
    requires m.pre != Maintenance
    ensures var r := EnterSleep(m, e);
            r.cur == m.cur && r.pre == m.pre && r.monitoring == m.monitoring && r.screenOn == m.screenOn
            && r.halfHour == m.halfHour && r.queue == m.queue + [FirstPhase(Sleep)]
  {
    hide MaintTimeout;
  }

  lemma {:induction false} RemoveNothing(q: seq<Task>, n: TaskName)
    requires forall t :: t in q ==> Name(t) != n
    ensures RemoveNamed(q, n) == q
  {
    if q == [] {
    } else {
      assert q[0] in q;
      RemoveNothing(q[1..], n);
    }
  }

  /** The device sits in `s`, entered from WORKING with the screen off, with this queue. */
  predicate At(m: Machine, s: State, q: seq<Task>) {
    m.cur == s && m.pre == Working && !m.monitoring && !m.screenOn && !m.halfHour && m.queue == q
  }

  lemma InitialStays(cfg: Config, e: Env)
    requires e.charging
    ensures var r := Next(Initial(cfg, false), e, RunHead);
            At(r, Working, []) && r.timers == map[]
  {
  }

  lemma ForceStep(m: Machine, e: Env, q: seq<Task>)
    requires At(m, Working, [FORCE] + q) && m.timers == map[] && !e.halfHourPassed
    requires forall t :: t in q ==> t.Deliver?
    ensures At(Next(m, e, RunHead), Sleep, q + [FirstPhase(Sleep), Deliver(StateTransit(Working, Sleep))])
  {
    assert m.queue[1..] == q;
    HoldFromWorking(Take(m), e);
    ForceIs(m, e);
    hide HoldSleep, Next;
  }

  lemma ForceIs(m: Machine, e: Env)
    requires m.queue != [] && m.queue[0] == FORCE && HoldSleep(Take(m), e).cur == Sleep
    ensures Next(m, e, RunHead) == HoldSleep(Take(m), e)
  {
    hide HoldSleep, TransitToState;
  }

  lemma RestartStep(m: Machine, e: Env, q: seq<Task>)
    requires At(m, Sleep, [AWAKE] + q) && !e.halfHourPassed
    ensures At(Next(m, e, RunHead), Sleep, q + [FirstPhase(Sleep)])
  {
    assert m.queue[1..] == q;
    hide MaintTimeout, HoldSleep, TransitToState;
  }

  lemma ExternalStep(m: Machine, e: Env, t: Task)
    requires t.Deliver? && t.msg.CommonEvent? && At(m, Working, m.queue)
    ensures Enabled(m, External(t.msg))
    ensures At(Next(m, e, External(t.msg)), Working, m.queue + [t])
    ensures Next(m, e, External(t.msg)).timers == m.timers
  {
  }

  lemma Extend(m: Machine, run: seq<Move>, move: Move)
    requires ValidRun(m, run) && Enabled(Exec(m, run), move.step)
    ensures ValidRun(m, run + [move])
    ensures Exec(m, run + [move]) == Next(Exec(m, run), move.env, move.step)
  {
    assert [move][1..] == [];
    hide Next, Enabled;
    ExecConcat(m, run, [move]);
  }

  /** Four common events posted to an idle device: forced sleep and three reports that the
      user is awake. */
  lemma PostFour(cfg: Config, e: Env) returns (run: seq<Move>)
    requires e.charging
    ensures ValidRun(Initial(cfg, false), run)
    ensures var m := Exec(Initial(cfg, false), run);
            At(m, Working, [FORCE] + [AWAKE, AWAKE, AWAKE]) && m.timers == map[]
  {
    var m0 := Initial(cfg, false);
    InitialStays(cfg, e);
    assert Enabled(m0, RunHead) && Exec(m0, []) == m0 && ValidRun(m0, []);
    hide Next, Enabled, ValidRun, Exec;
    Extend(m0, [], Move(e, RunHead));
    run := [] + [Move(e, RunHead)];
    ExternalStep(Exec(m0, run), e, FORCE);
    Extend(m0, run, Move(e, External(FORCE.msg)));
    run := run + [Move(e, External(FORCE.msg))];
    ExternalStep(Exec(m0, run), e, AWAKE);
    Extend(m0, run, Move(e, External(AWAKE.msg)));
    run := run + [Move(e, External(AWAKE.msg))];
    ExternalStep(Exec(m0, run), e, AWAKE);
    Extend(m0, run, Move(e, External(AWAKE.msg)));
    run := run + [Move(e, External(AWAKE.msg))];
    ExternalStep(Exec(m0, run), e, AWAKE);
    Extend(m0, run, Move(e, External(AWAKE.msg)));
    run := run + [Move(e, External(AWAKE.msg))];
  }

  /** With any configuration three restarts of SLEEP before its first phase task has run are
      enough: a run of the real steps ends with a leaked lock. */
  lemma LeakIsReachable(cfg: Config) returns (run: seq<Move>)
    ensures ValidRun(Initial(cfg, false), run) && !LockSafe(Exec(Initial(cfg, false), run))
  {
    var e := Env(true, true, 0, 0, false);
    var m0 := Initial(cfg, false);
    var first, moved := FirstPhase(Sleep), Deliver(StateTransit(Working, Sleep));
    run := PostFour(cfg, e);
    hide Next, ValidRun, Exec, LockSafe, Inv, At;
    assert At(Exec(m0, run), Working, [FORCE] + [AWAKE, AWAKE, AWAKE]);
    var force := ThreeRestarts(m0, run, e);
    run := run + force;
    var m := Exec(m0, run);
    InitialHolds(cfg, false);
    ExecKeeps(m0, run);
    FullHouse([first, moved, first, first]);
    AwakeAt(m, [first, moved, first, first]);
    var rest := RestartWithoutRoomLeaks(m, e);
    ExecConcat(m0, run, rest);
    run := run + rest;
  }

  lemma AwakeAt(m: Machine, q: seq<Task>)
    requires At(m, Sleep, [AWAKE] + q)
    ensures AwakeStep(m, RunHead) && m.queue[1..] == q && !m.monitoring
  {
  }

  /** Forced sleep and two restarts, with a third one still queued. */
  lemma ThreeRestarts(m0: Machine, run: seq<Move>, e: Env) returns (more: seq<Move>)
    requires ValidRun(m0, run) && !e.halfHourPassed
    requires At(Exec(m0, run), Working, [FORCE] + [AWAKE, AWAKE, AWAKE]) && Exec(m0, run).timers == map[]
    ensures ValidRun(m0, run + more)
    ensures At(Exec(m0, run + more), Sleep,
               [AWAKE] + [FirstPhase(Sleep), Deliver(StateTransit(Working, Sleep)), FirstPhase(Sleep), FirstPhase(Sleep)])
  {
    var first, moved := FirstPhase(Sleep), Deliver(StateTransit(Working, Sleep));
    var head := Move(e, RunHead);
    hide Next, ValidRun, Exec;
    HeadEnabled(Exec(m0, run), Working, FORCE, [AWAKE, AWAKE, AWAKE]);
    ForceStep(Exec(m0, run), e, [AWAKE, AWAKE, AWAKE]);
    Extend(m0, run, head);
    var run1 := run + [head];
    assert [AWAKE, AWAKE, AWAKE] + [first, moved] == [AWAKE] + [AWAKE, AWAKE, first, moved];
    hide At;
    HeadEnabled(Exec(m0, run1), Sleep, AWAKE, [AWAKE, AWAKE, first, moved]);
    RestartStep(Exec(m0, run1), e, [AWAKE, AWAKE, first, moved]);
    Extend(m0, run1, head);
    var run2 := run1 + [head];
    assert [AWAKE, AWAKE, first, moved] + [first] == [AWAKE] + [AWAKE, first, moved, first];
    HeadEnabled(Exec(m0, run2), Sleep, AWAKE, [AWAKE, first, moved, first]);
    RestartStep(Exec(m0, run2), e, [AWAKE, first, moved, first]);
    Extend(m0, run2, head);
    assert [AWAKE, first, moved, first] + [first] == [AWAKE] + [first, moved, first, first];
    more := [head, head, head];
    assert run + more == run2 + [head];
  }

  lemma HeadEnabled(m: Machine, s: State, t: Task, q: seq<Task>)
    requires At(m, s, [t] + q)
    ensures Enabled(m, RunHead)
  {
  }

  lemma FullHouse(q: seq<Task>)
    requires q == [FirstPhase(Sleep), Deliver(StateTransit(Working, Sleep)), FirstPhase(Sleep), FirstPhase(Sleep)]
    ensures !Room(q, false) && AWAKE !in q
  {
    assert q[1..][1..] == q[2..] && q[2..][1..] == q[3..];
    assert CountAdvances(q[3..], false) == 1;
    assert CountAdvances(q[2..], false) == 2;
    assert CountAdvances(q[1..], false) == 2;
  }
}
