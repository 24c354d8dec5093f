/** The switch of day and night reaches the running-lock strategy even when it is not proxied.
    A run of the whole service that ends in WORKING with a process still held back. */
module SystemLeak {
  import opened StandbyTypes
  import opened StandbyMachine
  import opened StandbyLeak
  import opened StandbySystem
  import opened ExemptionFlags
  import opened RunningLockRules
  import opened RunningLockSurvey
  import N = NetworkRules

  const ON := Deliver(CommonEvent(ScreenOn))
  const MOVED := Deliver(StateTransit(Working, Sleep))
  const SWITCH := Deliver(ConditionChanged)
  const BACK := Deliver(StateTransit(Sleep, Working))
  const HEAD := RunHead

  /** Awake in WORKING with the screen on and this queue. */
  predicate Home(m: Machine, q: seq<Task>) {
    m.cur == Working && m.screenOn && m.queue == q
  }

  const IDLE_PROXY := Proxy(map[], false, false, {})

  /** One ordinary application with one running process. */
  const SURVEY := Survey(true, [AppInfo(1, "a", false)], [ProcInfo(7, 1, "a")], [], [], [], [], {}, {})

  const CONTEXT := Context(
    Env(true, true, 0, 0, false),
    Answers(SURVEY, "", Newcomer(false, [], {})),
    N.NetAnswers(false, N.NetSurvey(false, map[], [], [], [], [], [], [], {}, {}, {}), Newcomer(false, [], {}), {}, false, false, ""))

  lemma SurveyFindsOne()
    ensures Restricted(Rebuild(SURVEY)) == {(7, 1)}
  {
    RebuildRestrictsExactly(SURVEY);
    var names := CollectNames(SURVEY.infos);
    assert SURVEY.infos[..0] == [];
    assert names == map[1 := "a"];
    assert !Spared(SURVEY, 1, "a");
    assert ProcInfo(7, 1, "a") in SURVEY.procs;
    hide Spared, Restricted, Rebuild, CollectNames;
    assert ToRestrict(SURVEY) == {(7, 1)};
  }

  // ---------------------------------------------------------------- machine steps

  lemma SwitchStep(m: Machine, e: Env, q: seq<Task>)
    requires At(m, Sleep, q)
    ensures At(Next(m, e, DayNightSwitch), Sleep, q + [SWITCH])
  {
  }

  /** The wake-up removes the first phase task, so the strategies are never told to start. */
  lemma WakeStep(m: Machine, e: Env)
    requires At(m, Sleep, [ON, FirstPhase(Sleep), MOVED, SWITCH])
    ensures Home(Next(m, e, RunHead), [MOVED, SWITCH, ScreenCheck, BACK])
  {
    var m1 := m.(queue := m.queue[1..], hist := m.hist.(done := m.hist.done + [ON.msg]), screenOn := true);
    assert m.queue[1..] == [FirstPhase(Sleep), MOVED, SWITCH];
    WakesHome(m1, e);
    WakeIs(m, m1, e);
    hide Wake, Next;
  }

  lemma WakeIs(m: Machine, m1: Machine, e: Env)
    requires m.queue != [] && m.queue[0] == ON
    requires m1 == m.(queue := m.queue[1..], hist := m.hist.(done := m.hist.done + [ON.msg]), screenOn := true)
    requires Wake(m1, e).screenOn
    ensures Next(m, e, RunHead) == Wake(m1, e)
  {
    hide Wake, TransitToState;
    var m0 := m.(queue := m.queue[1..], hist := m.hist.(done := m.hist.done + [ON.msg]));
    assert m0.(screenOn := true) == m1;
  }

  lemma WakesHome(m: Machine, e: Env)
    requires m.cur == Sleep && !m.halfHour && m.screenOn && m.queue == [FirstPhase(Sleep), MOVED, SWITCH]
    ensures Home(Wake(m, e), [MOVED, SWITCH, ScreenCheck, BACK])
  {
    var m1 := StopEvaluation(m).(blocked := false);
    assert HalfHourInner(m1, false) == m1;
    assert m1.queue == m.queue && m1.cur == Sleep && m1.screenOn;
    hide StopEvaluation, HalfHourInner;
    LeavesHome(m1, e);
    hide TransitInner;
  }

  lemma LeavesHome(m: Machine, e: Env)
    requires m.cur == Sleep && m.screenOn && m.queue == [FirstPhase(Sleep), MOVED, SWITCH]
    ensures Home(TransitInner(m, e, Working), [MOVED, SWITCH, ScreenCheck, BACK])
  {
    PhaseRemoved();
    hide RemoveTasks;
  }

  lemma PhaseRemoved()
    ensures RemoveTasks([FirstPhase(Sleep), MOVED, SWITCH], Sleep) == [MOVED, SWITCH]
  {
    RemoveNothing([FirstPhase(Sleep), MOVED, SWITCH], TransitTask);
    assert [FirstPhase(Sleep), MOVED, SWITCH][1..] == [MOVED, SWITCH];
    RemoveNothing([MOVED, SWITCH], PhaseTask);
    RemoveNothing([MOVED, SWITCH], RepeatTask);
  }

  lemma HomeStep(m: Machine, e: Env, t: Task, q: seq<Task>)
    requires Home(m, [t] + q) && (t.ScreenCheck? || (t.Deliver? && !t.msg.CommonEvent?))
    ensures Home(Next(m, e, RunHead), q)
  {
    assert m.queue[1..] == q;
  }

  // ---------------------------------------------------------------- the run

  /** What a step does to the proxy. */
  lemma ProxyStep(s: System, step: Step)
    requires Enabled(s.m, step)
    ensures var r := SystemNext(s, CONTEXT, step);
            && r.m == Next(s.m, CONTEXT.env, step)
            && (!Delivers(s.m, step) ==> r.proxy == s.proxy)
            && (Delivers(s.m, step) ==> r.proxy == HandleMessage(s.proxy, s.m.queue[0].msg, CONTEXT.lockAns))
  {
    hide Next, HandleMessage, N.HandleNetMessage;
  }

  /** An unproxied strategy ignores everything but the switch of day and night. */
  lemma IdleIgnores(r: Proxy, msg: Message)
    requires !r.proxied && (msg.CommonEvent? || msg.StateTransit?)
    ensures HandleMessage(r, msg, CONTEXT.lockAns) == r
  {
  }

  lemma SwitchHolds()
    ensures var r := HandleMessage(IDLE_PROXY, ConditionChanged, CONTEXT.lockAns);
            !r.proxied && r.ledger == {(7, 1)}
  {
    SurveyFindsOne();
    NothingTracked();
    hide Rebuild, Restricted;
  }

  lemma NothingTracked()
    ensures Restricted(map[]) == {}
  {
  }

  /** Forced sleep and the screen coming on, posted to an idle device, with the switch of day
      and night in between. */
  lemma ToSleep(s0: System) returns (run: seq<SysMove>)
    requires s0 == SystemInitial(s0.m.cfg, false)
    ensures ValidSystemRun(s0, run)
    ensures var s := SystemExec(s0, run);
            At(s.m, Sleep, [ON, FirstPhase(Sleep), MOVED, SWITCH]) && s.proxy == IDLE_PROXY
  {
    var e := CONTEXT.env;
    InitialStays(s0.m.cfg, e);
    assert Enabled(s0.m, HEAD) && SystemExec(s0, []) == s0 && ValidSystemRun(s0, []);
    ProxyStep(s0, HEAD);
    assert !Delivers(s0.m, HEAD);
    hide Next, Enabled, SystemNext, ValidSystemRun, SystemExec;
    Grow(s0, [], CONTEXT, HEAD);
    run := [] + [SysMove(CONTEXT, HEAD)];
    run := Post(s0, run, FORCE, []);
    run := Post(s0, run, ON, [FORCE]);
    run := ForceAndSwitch(s0, run);
  }

  lemma Post(s0: System, run: seq<SysMove>, t: Task, q: seq<Task>) returns (more: seq<SysMove>)
    requires ValidSystemRun(s0, run) && t in {FORCE, ON}
    requires var s := SystemExec(s0, run); At(s.m, Working, q) && s.m.timers == map[] && s.proxy == IDLE_PROXY
    ensures ValidSystemRun(s0, more)
    ensures var s := SystemExec(s0, more); At(s.m, Working, q + [t]) && s.m.timers == map[] && s.proxy == IDLE_PROXY
  {
    var s := SystemExec(s0, run);
    ExternalStep(s.m, CONTEXT.env, t);
    ProxyStep(s, External(t.msg));
    hide Next, Enabled, SystemNext, ValidSystemRun, SystemExec;
    Grow(s0, run, CONTEXT, External(t.msg));
    more := run + [SysMove(CONTEXT, External(t.msg))];
  }

  lemma ForceAndSwitch(s0: System, run: seq<SysMove>) returns (more: seq<SysMove>)
    requires ValidSystemRun(s0, run)
    requires var s := SystemExec(s0, run);
             At(s.m, Working, [FORCE] + [ON]) && s.m.timers == map[] && s.proxy == IDLE_PROXY
    ensures ValidSystemRun(s0, more)
    ensures var s := SystemExec(s0, more);
            At(s.m, Sleep, [ON, FirstPhase(Sleep), MOVED, SWITCH]) && s.proxy == IDLE_PROXY
  {
    var e := CONTEXT.env;
    var s := SystemExec(s0, run);
    HeadEnabled(s.m, Working, FORCE, [ON]);
    ForceStep(s.m, e, [ON]);
    ProxyStep(s, HEAD);
    IdleIgnores(s.proxy, FORCE.msg);
    assert s.m.queue[0] == FORCE;
    Grow(s0, run, CONTEXT, HEAD);
    more := run + [SysMove(CONTEXT, HEAD)];
    var s1 := SystemExec(s0, more);
    assert [ON] + [FirstPhase(Sleep), MOVED] == [ON, FirstPhase(Sleep), MOVED];
    hide Next, SystemNext, ValidSystemRun, SystemExec, At;
    SwitchStep(s1.m, e, [ON, FirstPhase(Sleep), MOVED]);
    ProxyStep(s1, DayNightSwitch);
    Grow(s0, more, CONTEXT, DayNightSwitch);
    more := more + [SysMove(CONTEXT, DayNightSwitch)];
    assert [ON, FirstPhase(Sleep), MOVED] + [SWITCH] == [ON, FirstPhase(Sleep), MOVED, SWITCH];
  }

  /** The run has reached home with this queue and this proxy. */
  predicate Stage(s0: System, run: seq<SysMove>, q: seq<Task>, r: Proxy) {
    ValidSystemRun(s0, run) && Home(SystemExec(s0, run).m, q) && SystemExec(s0, run).proxy == r
  }

  /** Running the oldest task at home. */
  lemma AtHome(s0: System, run: seq<SysMove>, t: Task, q: seq<Task>, r: Proxy) returns (more: seq<SysMove>)
    requires t in {MOVED, SWITCH, ScreenCheck, BACK} && Stage(s0, run, [t] + q, r) && !r.proxied
    ensures Stage(s0, more, q, if t == SWITCH then HandleMessage(r, ConditionChanged, CONTEXT.lockAns) else r)
  {
    var s := SystemExec(s0, run);
    assert s.m.queue[0] == t && Enabled(s.m, HEAD);
    HomeStep(s.m, CONTEXT.env, t, q);
    ProxyStep(s, HEAD);
    if t in {MOVED, BACK} { IdleIgnores(s.proxy, t.msg); }
    hide Next, SystemNext, ValidSystemRun, SystemExec, HandleMessage;
    Grow(s0, run, CONTEXT, HEAD);
    more := run + [SysMove(CONTEXT, HEAD)];
  }

  lemma WakeUp(s0: System, run: seq<SysMove>) returns (more: seq<SysMove>)
    requires ValidSystemRun(s0, run)
    requires var s := SystemExec(s0, run);
             At(s.m, Sleep, [ON, FirstPhase(Sleep), MOVED, SWITCH]) && s.proxy == IDLE_PROXY
    ensures Stage(s0, more, [MOVED] + [SWITCH, ScreenCheck, BACK], IDLE_PROXY)
  {
    var s := SystemExec(s0, run);
    HeadEnabled(s.m, Sleep, ON, [FirstPhase(Sleep), MOVED, SWITCH]);
    WakeStep(s.m, CONTEXT.env);
    ProxyStep(s, HEAD);
    IdleIgnores(s.proxy, ON.msg);
    assert s.m.queue[0] == ON;
    hide Next, SystemNext, ValidSystemRun, SystemExec, HandleMessage, Home, At;
    Grow(s0, run, CONTEXT, HEAD);
    more := run + [SysMove(CONTEXT, HEAD)];
    assert [MOVED, SWITCH, ScreenCheck, BACK] == [MOVED] + [SWITCH, ScreenCheck, BACK];
  }

  /** With any configuration, a forced sleep that is interrupted before its first phase, with
      the switch of day and night in between, leaves a process held back in WORKING with nothing
      left to deliver. The condition on the switch in `LockRegular` is therefore needed. */
  lemma HeldBackWhileAwake(cfg: Config) returns (run: seq<SysMove>)
    ensures ValidSystemRun(SystemInitial(cfg, false), run)
    ensures var s := SystemExec(SystemInitial(cfg, false), run);
            s.m.cur == Working && s.m.queue == [] && s.proxy.ledger == {(7, 1)}
  {
    var s0 := SystemInitial(cfg, false);
    run := ToSleep(s0);
    run := WakeUp(s0, run);
    run := HomeToEnd(s0, run);
  }

  lemma HomeToEnd(s0: System, run: seq<SysMove>) returns (more: seq<SysMove>)
    requires Stage(s0, run, [MOVED] + [SWITCH, ScreenCheck, BACK], IDLE_PROXY)
    ensures ValidSystemRun(s0, more)
    ensures var s := SystemExec(s0, more); s.m.cur == Working && s.m.queue == [] && s.proxy.ledger == {(7, 1)}
  {
    var held := HandleMessage(IDLE_PROXY, ConditionChanged, CONTEXT.lockAns);
    SwitchHolds();
    assert [SWITCH, ScreenCheck, BACK] == [SWITCH] + [ScreenCheck, BACK] && [ScreenCheck, BACK] == [ScreenCheck] + [BACK]
           && [BACK] == [BACK] + [];
    hide Stage, HandleMessage;
    more := AtHome(s0, run, MOVED, [SWITCH, ScreenCheck, BACK], IDLE_PROXY);
    more := AtHome(s0, more, SWITCH, [ScreenCheck, BACK], IDLE_PROXY);
    more := AtHome(s0, more, ScreenCheck, [BACK], held);
    more := AtHome(s0, more, BACK, [], held);
    StageEnds(s0, more, held);
  }

  lemma StageEnds(s0: System, run: seq<SysMove>, r: Proxy)
    requires Stage(s0, run, [], r)
    ensures ValidSystemRun(s0, run)
    ensures var s := SystemExec(s0, run); s.m.cur == Working && s.m.queue == [] && s.proxy == r
  {
  }
}
