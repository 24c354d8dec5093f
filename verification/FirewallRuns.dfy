/** Runs of the whole service in which the firewall is not what the trust list was set up for: the
    return from maintenance turns it on although no survey ever succeeded, and nightfall leaves
    somebody on the list of a firewall that is off. */
module FirewallRuns {
  import opened StandbyTypes
  import opened StandbyMachine
  import opened StandbyInvariant
  import opened StandbyLog
  import opened StandbyLeak
  import opened StandbySystem
  import opened ExemptionFlags
  import opened NetworkRules
  import NP = NetworkProofs
  import R = RunningLockRules

  const HEAD := RunHead

  /** How far the way through NAP is: nothing is known of it; it is open; or its end waits for an
      evaluation that could not be started. */
  datatype Way = Unknown | Open | Halted

  /** Where the device stands: its state and the one before, the phase of its state, whether the
      way out is armed, the way through NAP, and the queue. */
  datatype Spot = Spot(cur: State, pre: State, phase: nat, armed: bool, way: Way, queue: seq<Task>)

  /** NAP comes before SLEEP, motion is watched between them, and maintenance has an interval. */
  predicate NapConfig(cfg: Config) {
    cfg.napSwitch && cfg.sleepSwitch && cfg.napMotion && |cfg.napIntervals| > 0 && cfg.napIntervals[0] > 0
  }

  predicate OnWay(m: Machine, way: Way) {
    && m.evaluating == m.monitoring == way.Halted?
    && (way.Open? ==> !m.blocked && NapConfig(m.cfg) && (m.cur == Nap ==> m.napNext == Sleep && m.napIndex == 0))
    && (way.Halted? ==> m.cur == Nap && m.napNext == Maintenance)
  }

  /** The machine is there with the screen off; MAINTENANCE heads back. */
  predicate Stands(m: Machine, p: Spot) {
    && m.cur == p.cur && m.pre == p.pre && PhaseOf(m, p.cur) == p.phase && m.queue == p.queue && !m.screenOn
    && (p.armed ==> TransitTimer(p.cur) in m.timers)
    && (p.cur == Maintenance ==> m.maintNext == p.pre)
    && OnWay(m, p.way)
  }

  // ---------------------------------------------------------------- steps of the machine

  function Announced(from: State, to: State): Task {
    Deliver(StateTransit(from, to))
  }

  lemma MessageStep(m: Machine, e: Env, p: Spot, t: Task, q: seq<Task>)
    requires Stands(m, p) && p.queue == [t] + q && t.Deliver? && !t.msg.CommonEvent?
    ensures Stands(Next(m, e, HEAD), p.(queue := q))
  {
    assert m.queue[1..] == q;
  }

  lemma PostStep(m: Machine, e: Env, p: Spot, t: Task)
    requires Stands(m, p) && t.Deliver? && !Internal(t.msg)
    ensures Enabled(m, External(t.msg))
    ensures Stands(Next(m, e, External(t.msg)), p.(queue := p.queue + [t]))
  {
  }

  lemma FireStep(m: Machine, e: Env, p: Spot)
    requires Stands(m, p) && p.armed
    ensures Enabled(m, Fire(TransitTimer(p.cur)))
    ensures var r := Next(m, e, Fire(TransitTimer(p.cur)));
            Stands(r, p.(armed := false, queue := p.queue + [TransitNext(p.cur)]))
  {
  }

  /** The queue keeps only its messages when NAP or SLEEP ends. */
  lemma Cleared(q: seq<Task>, s: State)
    requires s in {Nap, Sleep, Dark, Maintenance} && forall t :: t in q ==> t.Deliver?
    ensures RemoveTasks(q, s) == q
  {
    RemoveNothing(q, TransitTask);
    RemoveNothing(q, PhaseTask);
    RemoveNothing(q, RepeatTask);
  }

  // ---------------------------------------------------------------- transitions

  /** The state to enter starts with its first phase. */
  predicate Afresh(pre: State, s: State) {
    s in {Nap, Sleep} && pre != Maintenance
  }

  /** The way out of `s` is armed when it has begun. */
  predicate Arms(cfg: Config, pre: State, s: State) {
    match s
    case Working => false
    case Dark => DarkNext(cfg) != Dark
    case Nap => pre != Maintenance && cfg.sleepSwitch
    case Maintenance => true
    case Sleep => pre != Maintenance
  }

  /** Where BeginState leads from a machine with these fields and this queue. */
  function Begins(m: Machine, q: seq<Task>): Spot {
    Spot(m.cur, m.pre, if Afresh(m.pre, m.cur) then 0 else PhaseOf(m, m.cur), Arms(m.cfg, m.pre, m.cur), Unknown,
         q + (if Afresh(m.pre, m.cur) then [FirstPhase(m.cur)] else []))
  }

  /** The fields that matter for a way through NAP. */
  predicate SameWay(m: Machine, r: Machine) {
    r.blocked == m.blocked && r.cfg == m.cfg
  }

  lemma BeginNapSpot(m: Machine, e: Env)
    requires m.cur == Nap && !m.evaluating && !m.monitoring && !m.screenOn
    ensures var r := BeginNap(m, e);
            Stands(r, Begins(m, m.queue)) && SameWay(m, r)
            && (Arms(m.cfg, m.pre, Nap) ==> r.napNext == Sleep && r.napIndex == 0)
  {
    hide MaintTimeout, NextIndex;
  }

  lemma EnterSleepSpot(m: Machine, e: Env)
    requires m.cur == Sleep && !m.evaluating && !m.monitoring && !m.screenOn
    ensures var r := EnterSleep(m, e); Stands(r, Begins(m, m.queue)) && SameWay(m, r)
  {
    hide MaintTimeout, NextIndex;
  }

  lemma BeginDarkSpot(m: Machine)
    requires m.cur == Dark && !m.evaluating && !m.monitoring && !m.screenOn
    ensures var r := BeginDark(m); Stands(r, Begins(m, m.queue)) && SameWay(m, r)
  {
  }

  lemma BeginMaintenanceSpot(m: Machine)
    requires m.cur == Maintenance && !m.evaluating && !m.monitoring && !m.screenOn
    ensures var r := BeginMaintenance(m); Stands(r, Begins(m, m.queue)) && SameWay(m, r)
  {
  }

  lemma BeginSpot(m: Machine, e: Env)
    requires m.cur != Working && !m.evaluating && !m.monitoring && !m.screenOn && !e.halfHourPassed
    ensures var r := BeginState(m, e);
            Stands(r, Begins(m, m.queue)) && SameWay(m, r)
            && (m.cur == Nap && Arms(m.cfg, m.pre, Nap) ==> r.napNext == Sleep && r.napIndex == 0)
  {
    hide BeginNap, EnterSleep, BeginMaintenance, BeginDark, Stands;
    match m.cur
    case Working =>
    case Dark => BeginDarkSpot(m);
    case Nap => BeginNapSpot(m, e);
    case Maintenance => BeginMaintenanceSpot(m);
    case Sleep => EnterSleepSpot(m, e);
  }

  /** A transition to `next` that leaves the messages `q` in the queue. */
  function Enters(m: Machine, next: State, q: seq<Task>): Spot {
    var anew := Afresh(m.cur, next);
    Spot(next, m.cur, if anew then 0 else PhaseOf(m, next), Arms(m.cfg, m.cur, next), Unknown,
         q + (if anew then [FirstPhase(next)] else []) + [Announced(m.cur, next)])
  }

  lemma TransitSpot(m: Machine, e: Env, next: State, q: seq<Task>)
    requires next != Working && !m.evaluating && !m.monitoring && !m.screenOn && !e.halfHourPassed
    requires RemoveTasks(m.queue, m.cur) == q
    ensures var r := TransitInner(m, e, next);
            Stands(r, Enters(m, next, q)) && SameWay(m, r)
            && (next == Nap && Arms(m.cfg, m.cur, Nap) ==> r.napNext == Sleep && r.napIndex == 0)
  {
    var m1 := Leave(m, next);
    assert m1.cur == next && m1.pre == m.cur && m1.queue == q && m1.cfg == m.cfg;
    assert PhaseOf(m1, next) == PhaseOf(m, next);
    assert !m1.evaluating && !m1.monitoring && !m1.screenOn && SameWay(m, m1);
    hide Leave, BeginState, RemoveTasks;
    BeginSpot(m1, e);
    AnnounceSpot(BeginState(m1, e), Begins(m1, q));
    hide Stands, Announce;
  }

  lemma AnnounceSpot(m: Machine, p: Spot)
    requires Stands(m, p) && p.way == Unknown
    ensures Stands(Announce(m), p.(queue := p.queue + [Announced(p.pre, p.cur)]))
    ensures SameWay(m, Announce(m)) && Announce(m).napNext == m.napNext && Announce(m).napIndex == m.napIndex
  {
  }

  // ---------------------------------------------------------------- tasks

  /** The device is forced to sleep from WORKING or MAINTENANCE; only messages were queued. */
  lemma ForceSpot(m: Machine, e: Env, p: Spot, q: seq<Task>)
    requires Stands(m, p) && !p.way.Halted? && p.cur in {Working, Maintenance} && p.queue == [FORCE] + q
    requires (forall t :: t in q ==> t.Deliver?) && !e.halfHourPassed
    ensures Stands(Next(m, e, HEAD), Enters(m, Sleep, q).(armed := false))
  {
    assert m.queue[1..] == q;
    if p.cur == Working { RemoveNothing(q, ConditionTask); } else { Cleared(q, Maintenance); }
    var m1 := Take(m).(blocked := false);
    assert m1.queue == q && m1.cur == m.cur && m1.cfg == m.cfg && PhaseOf(m1, Sleep) == PhaseOf(m, Sleep);
    hide RemoveTasks, TransitInner;
    TransitSpot(m1, e, Sleep, q);
    ForceIs(m, e);
    hide Next;
  }

  /** The report that the user is awake arms the way out again. */
  lemma AwakeSpot(m: Machine, e: Env, p: Spot, q: seq<Task>)
    requires Stands(m, p) && p.way == Unknown && p.cur == Sleep && p.pre == Working && p.queue == [AWAKE] + q
    requires !e.halfHourPassed
    ensures Stands(Next(m, e, HEAD), p.(phase := 0, armed := true, queue := q + [FirstPhase(Sleep)]))
  {
    AwakeIs(m, e);
    var m1 := Take(m);
    assert m1.queue == q;
    assert m1.cur == Sleep && m1.pre == Working && !m1.evaluating && !m1.monitoring && !m1.screenOn;
    hide Next, BeginState, Take;
    BeginSpot(m1, e);
  }

  /** A phase task before the last phase. */
  lemma PhaseSpot(m: Machine, e: Env, p: Spot, t: Task, q: seq<Task>)
    requires Stands(m, p) && !p.way.Halted? && p.cur in {Nap, Sleep} && p.phase < PHASE_END
    requires t in {FirstPhase(p.cur), NextPhase(p.cur)} && p.queue == [t] + q
    ensures var r := Next(m, e, HEAD);
            Stands(r, p.(phase := p.phase + 1, queue := q + PhasePosts(p.cur, p.phase, true)))
  {
    var m1 := PhaseTaken(m, e, p.cur, t, q);
    assert Stands(m1, p.(queue := q));
    hide Next, RunPhase, Stands;
    PhasePasses(m1, e, p.(queue := q));
  }

  /** A phase task runs on the machine without it. */
  lemma PhaseTaken(m: Machine, e: Env, s: State, t: Task, q: seq<Task>) returns (m1: Machine)
    requires m.queue == [t] + q && t in {FirstPhase(s), NextPhase(s)}
    ensures m1 == m.(queue := q, lock := m.lock || t.FirstPhase?) && Next(m, e, HEAD) == RunPhase(m1, e, s)
  {
    assert m.queue[1..] == q;
    hide RunPhase;
    if t.FirstPhase? {
      m1 := m.(queue := q, lock := true);
    } else {
      m1 := m.(queue := q);
      assert m1 == m.(queue := q, lock := m.lock || t.FirstPhase?);
    }
  }

  lemma PhasePasses(m: Machine, e: Env, p: Spot)
    requires Stands(m, p) && !p.way.Halted? && p.cur in {Nap, Sleep} && p.phase < PHASE_END
    ensures var r := RunPhase(m, e, p.cur);
            Stands(r, p.(phase := p.phase + 1, queue := p.queue + PhasePosts(p.cur, p.phase, true)))
  {
    var m1 := CloseEval(OpenEval(m, NoMonitor));
    assert RunPhase(m, e, p.cur) == StateEndEval(m1, e, true) by { hide StateEndEval; }
    assert Stands(m1, p);
    hide RunPhase, OpenEval, CloseEval;
    AdvanceSpot(m1, e, p);
    hide StateEndEval, Stands;
  }

  lemma AdvanceSpot(m: Machine, e: Env, p: Spot)
    requires Stands(m, p) && !p.way.Halted? && p.cur in {Nap, Sleep} && p.phase < PHASE_END
    ensures var r := StateEndEval(m, e, true);
            Stands(r, p.(phase := p.phase + 1, queue := p.queue + PhasePosts(p.cur, p.phase, true)))
  {
    hide PhasePosts, TransitInner, Wake, Block;
  }

  /** SLEEP is interrupted, or an interruption ends. */
  lemma TurnSpot(m: Machine, e: Env, p: Spot, q: seq<Task>)
    requires Stands(m, p) && p.way == Unknown && (p.cur == Sleep || (p.cur == Maintenance && p.pre == Sleep))
    requires p.queue == [TransitNext(p.cur)] + q && !e.halfHourPassed
    ensures Stands(Next(m, e, HEAD), Enters(m, NextOf(m, p.cur), RemoveTasks(q, p.cur)))
  {
    assert m.queue[1..] == q;
    var m1 := m.(queue := q, lock := true);
    assert StopEvaluation(m1) == m1;
    hide RemoveTasks, TransitInner;
    TransitSpot(m1, e, NextOf(m1, p.cur), RemoveTasks(q, p.cur));
    assert Next(m, e, HEAD) == TransitInner(m1, e, NextOf(m1, p.cur)) by { hide Block; }
    hide Next;
  }

  // ---------------------------------------------------------------- runs of the whole service

  const IDLE_NET := Net(map[], false, false, {}, false)

  /** The run leads there, with the network strategy as given. */
  predicate Stage(s0: System, run: seq<SysMove>, p: Spot, n: Net) {
    ValidSystemRun(s0, run) && Stands(SystemExec(s0, run).m, p) && SystemExec(s0, run).net == n
  }

  /** What a step does to the network strategy. */
  lemma NetStep(s: System, c: Context, step: Step)
    requires Enabled(s.m, step)
    ensures var r := SystemNext(s, c, step);
            && r.m == Next(s.m, c.env, step)
            && (!Delivers(s.m, step) ==> r.net == s.net)
            && (Delivers(s.m, step) ==> r.net == HandleNetMessage(s.net, s.m.queue[0].msg, c.netAns))
  {
    hide Next, R.HandleMessage, HandleNetMessage;
  }

  /** One more step that delivers no message. */
  lemma Further(s0: System, run: seq<SysMove>, c: Context, step: Step, p: Spot, q: Spot, n: Net)
    requires Stage(s0, run, p, n) && Enabled(SystemExec(s0, run).m, step)
    requires step == HEAD ==> p.queue != [] && !p.queue[0].Deliver?
    requires Stands(Next(SystemExec(s0, run).m, c.env, step), q)
    ensures Stage(s0, run + [SysMove(c, step)], q, n)
  {
    var s := SystemExec(s0, run);
    assert s.m.queue == p.queue;
    assert !Delivers(s.m, step);
    hide Next, Enabled, SystemNext, ValidSystemRun, SystemExec, Stands;
    NetStep(s, c, step);
    Grow(s0, run, c, step);
  }

  /** One more step that delivers the message at the head of the queue. */
  lemma Delivered(s0: System, run: seq<SysMove>, c: Context, p: Spot, q: Spot, n: Net)
    requires Stage(s0, run, p, n) && p.queue != [] && p.queue[0].Deliver?
    requires Stands(Next(SystemExec(s0, run).m, c.env, HEAD), q)
    ensures Stage(s0, run + [SysMove(c, HEAD)], q, HandleNetMessage(n, p.queue[0].msg, c.netAns))
  {
    var s := SystemExec(s0, run);
    assert s.m.queue == p.queue;
    assert Delivers(s.m, HEAD) && Enabled(s.m, HEAD);
    hide Next, Enabled, SystemNext, ValidSystemRun, SystemExec, Stands, HandleNetMessage;
    NetStep(s, c, HEAD);
    Grow(s0, run, c, HEAD);
  }

  lemma DoMessage(s0: System, run: seq<SysMove>, c: Context, p: Spot, n: Net, t: Task, q: seq<Task>)
    requires Stage(s0, run, p, n) && p.queue == [t] + q && t.Deliver? && !t.msg.CommonEvent?
    ensures Stage(s0, run + [SysMove(c, HEAD)], p.(queue := q), HandleNetMessage(n, t.msg, c.netAns))
  {
    MessageStep(SystemExec(s0, run).m, c.env, p, t, q);
    hide Next, SystemNext, ValidSystemRun, SystemExec, Stands, HandleNetMessage;
    Delivered(s0, run, c, p, p.(queue := q), n);
  }

  lemma DoPost(s0: System, run: seq<SysMove>, c: Context, p: Spot, n: Net, t: Task)
    requires Stage(s0, run, p, n) && t.Deliver? && !Internal(t.msg)
    ensures Stage(s0, run + [SysMove(c, External(t.msg))], p.(queue := p.queue + [t]), n)
  {
    PostStep(SystemExec(s0, run).m, c.env, p, t);
    hide Next, SystemNext, ValidSystemRun, SystemExec, Stands, Enabled;
    Further(s0, run, c, External(t.msg), p, p.(queue := p.queue + [t]), n);
  }

  lemma DoFire(s0: System, run: seq<SysMove>, c: Context, p: Spot, n: Net)
    requires Stage(s0, run, p, n) && p.armed
    ensures Stage(s0, run + [SysMove(c, Fire(TransitTimer(p.cur)))],
                  p.(armed := false, queue := p.queue + [TransitNext(p.cur)]), n)
  {
    FireStep(SystemExec(s0, run).m, c.env, p);
    hide Next, SystemNext, ValidSystemRun, SystemExec, Stands, Enabled;
    Further(s0, run, c, Fire(TransitTimer(p.cur)), p, p.(armed := false, queue := p.queue + [TransitNext(p.cur)]), n);
  }

  lemma DoForce(s0: System, run: seq<SysMove>, c: Context, p: Spot, n: Net, q: seq<Task>)
    requires Stage(s0, run, p, n) && p.way == Unknown && p.cur == Working && p.queue == [FORCE] + q
    requires (forall t :: t in q ==> t.Deliver?) && !c.env.halfHourPassed
    ensures Stage(s0, run + [SysMove(c, HEAD)],
                  Spot(Sleep, Working, 0, false, Unknown, q + [FirstPhase(Sleep), Announced(Working, Sleep)]), n)
  {
    ForceSpot(SystemExec(s0, run).m, c.env, p, q);
    var asleep := q + [FirstPhase(Sleep), Announced(Working, Sleep)];
    assert q + [FirstPhase(Sleep)] + [Announced(Working, Sleep)] == asleep;
    hide Next, SystemNext, ValidSystemRun, SystemExec;
    Delivered(s0, run, c, p, Spot(Sleep, Working, 0, false, Unknown, asleep), n);
  }

  lemma DoAwake(s0: System, run: seq<SysMove>, c: Context, p: Spot, n: Net, q: seq<Task>)
    requires Stage(s0, run, p, n) && p.way == Unknown && p.cur == Sleep && p.pre == Working && p.queue == [AWAKE] + q
    requires !c.env.halfHourPassed
    ensures Stage(s0, run + [SysMove(c, HEAD)], p.(phase := 0, armed := true, queue := q + [FirstPhase(Sleep)]), n)
  {
    AwakeSpot(SystemExec(s0, run).m, c.env, p, q);
    hide Next, SystemNext, ValidSystemRun, SystemExec, Stands;
    Delivered(s0, run, c, p, p.(phase := 0, armed := true, queue := q + [FirstPhase(Sleep)]), n);
  }

  lemma DoPhase(s0: System, run: seq<SysMove>, c: Context, p: Spot, n: Net, t: Task, q: seq<Task>)
    requires Stage(s0, run, p, n) && !p.way.Halted? && p.cur in {Nap, Sleep} && p.phase < PHASE_END
    requires t in {FirstPhase(p.cur), NextPhase(p.cur)} && p.queue == [t] + q
    ensures Stage(s0, run + [SysMove(c, HEAD)],
                  p.(phase := p.phase + 1, queue := q + PhasePosts(p.cur, p.phase, true)), n)
  {
    PhaseSpot(SystemExec(s0, run).m, c.env, p, t, q);
    assert Enabled(SystemExec(s0, run).m, HEAD);
    hide Next, SystemNext, ValidSystemRun, SystemExec, Stands, Enabled, PhasePosts;
    Further(s0, run, c, HEAD, p, p.(phase := p.phase + 1, queue := q + PhasePosts(p.cur, p.phase, true)), n);
  }

  lemma DoTurn(s0: System, run: seq<SysMove>, c: Context, p: Spot, n: Net, q: seq<Task>) returns (r: Spot)
    requires Stage(s0, run, p, n) && p.way == Unknown && (p.cur == Sleep || (p.cur == Maintenance && p.pre == Sleep))
    requires p.queue == [TransitNext(p.cur)] + q && !c.env.halfHourPassed
    ensures Stage(s0, run + [SysMove(c, HEAD)], r, n)
    ensures r.cur == (if p.cur == Sleep then Maintenance else Sleep) && r.pre == p.cur
    ensures r.armed == (p.cur == Sleep) && r.way == Unknown
    ensures r.queue == RemoveTasks(q, p.cur) + [Announced(p.cur, r.cur)]
  {
    var m := SystemExec(s0, run).m;
    TurnSpot(m, c.env, p, q);
    r := Enters(m, NextOf(m, p.cur), RemoveTasks(q, p.cur));
    assert Enabled(m, HEAD);
    assert RemoveTasks(q, p.cur) + [] == RemoveTasks(q, p.cur);
    hide Next, SystemNext, ValidSystemRun, SystemExec, Enabled, RemoveTasks;
    Further(s0, run, c, HEAD, p, r, n);
  }

  // ---------------------------------------------------------------- sleep and its interruption

  const FIRST := FirstPhase(Sleep)
  const ASLEEP := Announced(Working, Sleep)

  function Completed(p: nat): Task {
    Deliver(PhaseTransit(Sleep, p, p + 1))
  }

  /** SLEEP, forced from WORKING, with its way out armed and its first phase due twice. */
  const DOZING := Spot(Sleep, Working, 0, true, Unknown, [FIRST, ASLEEP, FIRST])

  /** The maintenance of SLEEP, with two completed phases and the interruption to be delivered. */
  const PAUSED :=
    Spot(Maintenance, Sleep, 0, true, Unknown, [Completed(0), Completed(1), Announced(Sleep, Maintenance)])

  /** Every step of the run saw the same answers. */
  predicate Uses(run: seq<SysMove>, c: Context) {
    forall move :: move in run ==> move.ctx == c
  }

  lemma FirstStep(cfg: Config, e: Env)
    requires e.charging
    ensures Stands(Next(Initial(cfg, false), e, HEAD), Spot(Working, Working, 0, false, Unknown, []))
  {
  }

  lemma Starts(cfg: Config)
    ensures Stage(SystemInitial(cfg, false), [], Spot(Working, Working, 0, false, Unknown, [ScreenCheck]), IDLE_NET)
  {
  }

  /** Forced sleep and a report that the user is awake reach a charging device. */
  lemma CallToSleep(cfg: Config, c: Context) returns (run: seq<SysMove>)
    requires c.env.charging
    ensures Uses(run, c)
    ensures Stage(SystemInitial(cfg, false), run, Spot(Working, Working, 0, false, Unknown, [FORCE, AWAKE]), IDLE_NET)
  {
    var s0, n := SystemInitial(cfg, false), IDLE_NET;
    var p := Spot(Working, Working, 0, false, Unknown, [ScreenCheck]);
    Starts(cfg);
    FirstStep(cfg, c.env);
    assert SystemExec(s0, []).m == Initial(cfg, false) && Enabled(Initial(cfg, false), HEAD);
    assert !Internal(FORCE.msg) && !Internal(AWAKE.msg);
    hide Stage, Next, Enabled, SystemExec, ValidSystemRun, Internal;
    Further(s0, [], c, HEAD, p, p.(queue := []), n);
    run := [] + [SysMove(c, HEAD)];
    assert [] + [FORCE] == [FORCE] && [FORCE] + [AWAKE] == [FORCE, AWAKE];
    DoPost(s0, run, c, p.(queue := []), n, FORCE);
    run := run + [SysMove(c, External(FORCE.msg))];
    DoPost(s0, run, c, p.(queue := [FORCE]), n, AWAKE);
    run := run + [SysMove(c, External(AWAKE.msg))];
  }

  /** A charging device is forced to sleep, and the user is reported awake before the first phase. */
  lemma FallAsleep(cfg: Config, c: Context) returns (run: seq<SysMove>)
    requires c.env.charging && !c.env.halfHourPassed
    ensures Uses(run, c)
    ensures Stage(SystemInitial(cfg, false), run, DOZING, IDLE_NET)
  {
    var s0, n := SystemInitial(cfg, false), IDLE_NET;
    run := CallToSleep(cfg, c);
    hide Stage, Next, Enabled, SystemExec, ValidSystemRun;
    assert [FORCE, AWAKE] == [FORCE] + [AWAKE];
    DoForce(s0, run, c, Spot(Working, Working, 0, false, Unknown, [FORCE] + [AWAKE]), n, [AWAKE]);
    run := run + [SysMove(c, HEAD)];
    assert [AWAKE] + [FIRST, ASLEEP] == [AWAKE, FIRST, ASLEEP] && [FIRST, ASLEEP] + [FIRST] == [FIRST, ASLEEP, FIRST];
    DoAwake(s0, run, c, Spot(Sleep, Working, 0, false, Unknown, [AWAKE, FIRST, ASLEEP]), n, [FIRST, ASLEEP]);
    run := run + [SysMove(c, HEAD)];
  }

  lemma PostsOf(p: nat)
    requires p < PHASE_END
    ensures PhasePosts(Sleep, p, true) == [Completed(p)] + (if p + 1 < PHASE_END then [NextPhase(Sleep)] else [])
  {
  }

  lemma RemoveHead(t: Task, q: seq<Task>, n: TaskName)
    ensures RemoveNamed([t] + q, n) == (if Name(t) == n then [] else [t]) + RemoveNamed(q, n)
  {
    assert ([t] + q)[1..] == q;
  }

  /** A completed phase in the queue: its message and the task of the next one. */
  function Pair(p: nat): seq<Task> {
    [Completed(p), NextPhase(Sleep)]
  }

  /** A pair loses its task, and only if phase tasks are removed. */
  lemma RemovePair(p: nat, q: seq<Task>, n: TaskName)
    requires n != Unnamed
    ensures RemoveNamed(Pair(p) + q, n)
         == (if n == PhaseTask then [Completed(p)] else Pair(p)) + RemoveNamed(q, n)
  {
    RemoveHead(Completed(p), [NextPhase(Sleep)] + q, n);
    RemoveHead(NextPhase(Sleep), q, n);
    hide RemoveNamed;
    assert Pair(p) + q == [Completed(p)] + ([NextPhase(Sleep)] + q);
    assert Pair(p) + RemoveNamed(q, n) == [Completed(p)] + ([NextPhase(Sleep)] + RemoveNamed(q, n));
  }

  /** What the interruption of SLEEP leaves in the queue. */
  lemma InterruptionClears()
    ensures RemoveTasks(Pair(0) + (Pair(1) + []), Sleep) == [Completed(0), Completed(1)]
  {
    hide RemoveNamed, Pair, Completed;
    PairsStay(TransitTask);
    PairsStay(PhaseTask);
    MessagesStay();
  }

  lemma PairsStay(n: TaskName)
    requires n != Unnamed
    ensures RemoveNamed(Pair(0) + (Pair(1) + []), n)
         == if n == PhaseTask then [Completed(0)] + ([Completed(1)] + []) else Pair(0) + (Pair(1) + [])
  {
    assert RemoveNamed([], n) == [];
    hide RemoveNamed, Pair, Completed;
    RemovePair(0, Pair(1) + [], n);
    RemovePair(1, [], n);
  }

  lemma MessagesStay()
    ensures RemoveNamed([Completed(0)] + ([Completed(1)] + []), RepeatTask) == [Completed(0), Completed(1)]
  {
    RemoveHead(Completed(0), [Completed(1)] + [], RepeatTask);
    RemoveHead(Completed(1), [], RepeatTask);
    assert RemoveNamed([], RepeatTask) == [];
    hide RemoveNamed;
  }

  lemma NoFirewallYet(ans: NetAnswers)
    ensures HandleNetMessage(IDLE_NET, ASLEEP.msg, ans) == IDLE_NET
  {
  }

  /** The timer of SLEEP fires, and the first two phases run before it is handled. */
  lemma RunPhases(s0: System, run: seq<SysMove>, c: Context) returns (more: seq<SysMove>)
    requires Uses(run, c)
    requires Stage(s0, run, DOZING, IDLE_NET)
    ensures Uses(more, c)
    ensures Stage(s0, more,
                  Spot(Sleep, Working, 2, false, Unknown,
                       [TransitNext(Sleep)] + (Pair(0) + (Pair(1) + []))),
                  IDLE_NET)
  {
    var n, next, turn := IDLE_NET, NextPhase(Sleep), TransitNext(Sleep);
    NoFirewallYet(c.netAns);
    PostsOf(0);
    PostsOf(1);
    hide Stage, HandleNetMessage, PhasePosts;
    var p := DOZING;
    DoFire(s0, run, c, p, n);
    more := run + [SysMove(c, Fire(TransitTimer(Sleep)))];
    assert [FIRST, ASLEEP, FIRST] + [turn] == [FIRST] + [ASLEEP, FIRST, turn];
    DoPhase(s0, more, c, p.(armed := false, queue := [FIRST] + [ASLEEP, FIRST, turn]), n, FIRST, [ASLEEP, FIRST, turn]);
    more := more + [SysMove(c, HEAD)];
    assert [ASLEEP, FIRST, turn] + [Completed(0), next] == [ASLEEP] + [FIRST, turn, Completed(0), next];
    p := Spot(Sleep, Working, 1, false, Unknown, [ASLEEP] + [FIRST, turn, Completed(0), next]);
    DoMessage(s0, more, c, p, n, ASLEEP, [FIRST, turn, Completed(0), next]);
    more := more + [SysMove(c, HEAD)];
    assert [FIRST, turn, Completed(0), next] == [FIRST] + [turn, Completed(0), next];
    DoPhase(s0, more, c, p.(queue := [FIRST] + [turn, Completed(0), next]), n, FIRST, [turn, Completed(0), next]);
    more := more + [SysMove(c, HEAD)];
    assert [turn, Completed(0), next] + [Completed(1), next] == [turn] + (Pair(0) + (Pair(1) + []));
  }

  /** The interruption runs before the first phase message is delivered. */
  lemma Interrupt(s0: System, run: seq<SysMove>, c: Context) returns (more: seq<SysMove>)
    requires !c.env.halfHourPassed && Uses(run, c)
    requires Stage(s0, run, DOZING, IDLE_NET)
    ensures Uses(more, c)
    ensures Stage(s0, more, PAUSED, IDLE_NET)
  {
    more := RunPhases(s0, run, c);
    InterruptionClears();
    hide Stage, RemoveTasks;
    var q := Pair(0) + (Pair(1) + []);
    var r := DoTurn(s0, more, c, Spot(Sleep, Working, 2, false, Unknown, [TransitNext(Sleep)] + q), IDLE_NET, q);
    more := more + [SysMove(c, HEAD)];
    AtMaintenance(s0, more, r, IDLE_NET);
    assert [Completed(0), Completed(1)] + [Announced(Sleep, Maintenance)]
        == [Completed(0), Completed(1), Announced(Sleep, Maintenance)];
  }

  lemma AtMaintenance(s0: System, run: seq<SysMove>, r: Spot, n: Net)
    requires Stage(s0, run, r, n) && r.cur == Maintenance
    ensures Stage(s0, run, Spot(Maintenance, r.pre, 0, r.armed, r.way, r.queue), n)
  {
    hide SystemExec, ValidSystemRun;
  }

  /** The three messages of the interruption are delivered. */
  lemma Deliver3(s0: System, run: seq<SysMove>, c: Context, d: Context) returns (more: seq<SysMove>)
    requires Stage(s0, run, PAUSED, IDLE_NET)
    ensures more == run + [SysMove(c, HEAD), SysMove(c, HEAD), SysMove(d, HEAD)]
    ensures Stage(s0, more, Spot(Maintenance, Sleep, 0, true, Unknown, []),
                  StopLimit(EnableFirewall(IDLE_NET, c.netAns.survey, c.netAns.night), Sleep, Maintenance,
                            d.netAns.night))
  {
    var moved := Announced(Sleep, Maintenance);
    var p := PAUSED;
    var n := EnableFirewall(IDLE_NET, c.netAns.survey, c.netAns.night);
    assert HandleNetMessage(IDLE_NET, Completed(0).msg, c.netAns) == n by { hide EnableFirewall; }
    assert HandleNetMessage(n, Completed(1).msg, c.netAns) == n by { hide EnableFirewall; }
    assert HandleNetMessage(n, moved.msg, d.netAns) == StopLimit(n, Sleep, Maintenance, d.netAns.night)
      by { hide EnableFirewall, StopLimit; }
    hide Stage, HandleNetMessage, EnableFirewall, StopLimit;
    assert [Completed(0), Completed(1), moved] == [Completed(0)] + [Completed(1), moved];
    DoMessage(s0, run, c, p, IDLE_NET, Completed(0), [Completed(1), moved]);
    more := run + [SysMove(c, HEAD)];
    assert [Completed(1), moved] == [Completed(1)] + [moved] && [moved] == [moved] + [];
    DoMessage(s0, more, c, p.(queue := [Completed(1), moved]), n, Completed(1), [moved]);
    more := more + [SysMove(c, HEAD)];
    DoMessage(s0, more, d, p.(queue := [moved]), n, moved, []);
    more := more + [SysMove(d, HEAD)];
    assert more == run + [SysMove(c, HEAD), SysMove(c, HEAD), SysMove(d, HEAD)];
  }

  // ---------------------------------------------------------------- after a failed survey

  /** Maintenance ends and SLEEP is announced. */
  lemma Resume(s0: System, run: seq<SysMove>, c: Context, n: Net) returns (more: seq<SysMove>, p: Spot)
    requires Stage(s0, run, Spot(Maintenance, Sleep, 0, true, Unknown, []), n) && !c.env.halfHourPassed && Uses(run, c)
    ensures Uses(more, c) && p.cur == Sleep && p.queue == [] && run <= more
    ensures Stage(s0, more, p, StopLimit(n, Maintenance, Sleep, c.netAns.night))
  {
    var back := Announced(Maintenance, Sleep);
    var p0 := Spot(Maintenance, Sleep, 0, true, Unknown, []);
    assert HandleNetMessage(n, back.msg, c.netAns) == StopLimit(n, Maintenance, Sleep, c.netAns.night)
      by { hide StopLimit; }
    Cleared([], Maintenance);
    hide Stage, HandleNetMessage, StopLimit, RemoveTasks;
    DoFire(s0, run, c, p0, n);
    more := run + [SysMove(c, Fire(TransitTimer(Maintenance)))];
    assert [] + [TransitNext(Maintenance)] == [TransitNext(Maintenance)] + [];
    p := DoTurn(s0, more, c, p0.(armed := false, queue := [TransitNext(Maintenance)] + []), n, []);
    more := more + [SysMove(c, HEAD)];
    assert [] + [back] == [back] + [];
    DoMessage(s0, more, c, p, n, back, []);
    more := more + [SysMove(c, HEAD)];
    p := p.(queue := []);
  }

  /** With any configuration: in a run in which no survey ever succeeds, the firewall comes on all
      the same when SLEEP resumes after maintenance, over the table the failed survey left. */
  lemma FirewallWithoutSurvey(cfg: Config, c: Context) returns (run: seq<SysMove>)
    requires c.env.charging && !c.env.halfHourPassed && !c.netAns.survey.available
    ensures ValidSystemRun(SystemInitial(cfg, false), run) && Uses(run, c)
    ensures var s := SystemExec(SystemInitial(cfg, false), run);
            var left := c.netAns.survey.partial;
            && s.m.cur == Sleep && s.m.queue == []
            && s.net == Net(left, true, false, ExemptUids(left, c.netAns.night), true)
  {
    var s0 := SystemInitial(cfg, false);
    var n := EnableFirewall(IDLE_NET, c.netAns.survey, c.netAns.night);
    run := FallAsleep(cfg, c);
    run := Interrupt(s0, run, c);
    run := Deliver3(s0, run, c, c);
    var p: Spot;
    NP.MaintenanceEnables(n, c.netAns.night);
    assert n.apps == c.netAns.survey.partial && n.trust == {} && !n.idle by { hide ExemptUids, RebuildNet; }
    hide Stage, EnableFirewall, ExemptUids, StopLimit;
    var m := StopLimit(n, Sleep, Maintenance, c.netAns.night);
    run, p := Resume(s0, run, c, m);
    StageSays(s0, run, p, NP.Resumed(n, c.netAns.night));
  }

  lemma StageSays(s0: System, run: seq<SysMove>, p: Spot, n: Net)
    requires Stage(s0, run, p, n)
    ensures ValidSystemRun(s0, run)
    ensures var s := SystemExec(s0, run); s.m.cur == p.cur && s.m.queue == p.queue && s.net == n
  {
    hide SystemExec, ValidSystemRun;
  }

  // ---------------------------------------------------------------- nightfall

  /** One running process of a system application. */
  const SYSTEM_SURVEY :=
    NetSurvey(true, map[], [(1, "a")], [(1, true)], [], [], [], [], {}, {}, {})

  lemma SystemByDay()
    ensures RebuildNet(SYSTEM_SURVEY, false) == map[1 := NetApp("a", UNRESTRICTED)]
  {
    hide RebuildNet;
    SystemEntry();
    forall u
      ensures u in RebuildNet(SYSTEM_SURVEY, false) <==> u == 1
    {
      OneProcess(u);
    }
  }

  lemma OneProcess(u: int)
    ensures u in RebuildNet(SYSTEM_SURVEY, false) <==> u == 1
    ensures CollectRunning(SYSTEM_SURVEY.procs) == map[1 := NetApp("a", 0)]
  {
    hide RebuildNet, NP.Marked, Conditioned, SystemUids, ContinuousUids, Listed;
    assert SYSTEM_SURVEY.procs[..0] == [];
    NP.RebuiltNetEntry(SYSTEM_SURVEY, false, u);
  }

  lemma SystemEntry()
    ensures var t := RebuildNet(SYSTEM_SURVEY, false); 1 in t && t[1] == NetApp("a", UNRESTRICTED)
  {
    OneProcess(1);
    assert 1 in SystemUids(SYSTEM_SURVEY.systems) by { assert (1, true) in SYSTEM_SURVEY.systems; }
    assert 1 !in Listed([]) && 1 !in ContinuousUids([], false);
    MarkedSystem();
    hide RebuildNet, NP.Marked, Conditioned, CollectRunning, SystemUids, ContinuousUids, Listed;
    NP.RebuiltNetEntry(SYSTEM_SURVEY, false, 1);
  }

  lemma MarkedSystem()
    ensures Conditioned(NP.Marked(0, true, false, false, false, false, false, false), false) == UNRESTRICTED
  {
  }

  lemma UsesUntil(before: seq<SysMove>, run: seq<SysMove>, c: Context, d: Context)
    requires Uses(before, c) && run == before + [SysMove(c, HEAD), SysMove(c, HEAD), SysMove(d, HEAD)]
    ensures |run| > 0 && Uses(run[..|run| - 1], c) && run[|run| - 1] == SysMove(d, HEAD)
  {
    assert run[..|run| - 1] == before + [SysMove(c, HEAD), SysMove(c, HEAD)];
  }

  lemma SystemTrust()
    ensures var n := Net(map[1 := NetApp("a", UNRESTRICTED)], true, false, {1}, true);
            && EnableFirewall(IDLE_NET, SYSTEM_SURVEY, false) == n
            && StopLimit(n, Sleep, Maintenance, true).trust == {1}
  {
    var apps := map[1 := NetApp("a", UNRESTRICTED)];
    SystemByDay();
    hide RebuildNet;
    NP.DayOnlyExactly(UNRESTRICTED);
    hide IsFlagExempted;
    assert apps[1].flag == UNRESTRICTED;
    assert ExemptUids(apps, false) == {1} && ExemptUids(apps, true) == {};
    hide ExemptUids;
  }

  /** With any configuration: night falls between the set-up of the firewall and its interruption,
      the switch not yet delivered, and a system application stays on the list of a firewall that
      is off. The condition on night in `Steady` is therefore needed. */
  lemma NightfallLeavesTrust(cfg: Config, day: Context, night: Context) returns (run: seq<SysMove>)
    requires day.env.charging && !day.env.halfHourPassed && !day.netAns.night && night.netAns.night
    requires day.netAns.survey == SYSTEM_SURVEY
    ensures ValidSystemRun(SystemInitial(cfg, false), run)
    ensures |run| > 0 && Uses(run[..|run| - 1], day) && run[|run| - 1] == SysMove(night, HEAD)
    ensures var s := SystemExec(SystemInitial(cfg, false), run);
            s.m.cur == Maintenance && s.m.queue == [] && !s.net.enabled && s.net.trust == {1}
  {
    var s0 := SystemInitial(cfg, false);
    run := FallAsleep(cfg, day);
    run := Interrupt(s0, run, day);
    var before := run;
    run := Deliver3(s0, run, day, night);
    UsesUntil(before, run, day, night);
    SystemTrust();
    hide Stage, EnableFirewall, Uses;
    StageSays(s0, run, Spot(Maintenance, Sleep, 0, true, Unknown, []),
              StopLimit(EnableFirewall(IDLE_NET, SYSTEM_SURVEY, false), Sleep, Maintenance, true));
  }

  // ---------------------------------------------------------------- a way that never asks for a survey

  lemma DarkSpot(cfg: Config, e: Env)
    requires NapConfig(cfg) && !e.charging && !e.halfHourPassed
    ensures Stands(Next(Initial(cfg, false), e, HEAD), Spot(Dark, Working, 0, true, Open, [Announced(Working, Dark)]))
  {
    var m := Initial(cfg, false).(queue := []);
    var m1 := CloseEval(OpenEval(m, ChargeMonitor));
    assert Next(Initial(cfg, false), e, HEAD) == TransitInner(m1, e, Dark) by {
      assert Initial(cfg, false).queue[1..] == [];
      hide TransitInner;
    }
    Cleared([], Dark);
    assert RemoveTasks([], Working) == [];
    hide TransitInner, Next, RemoveTasks;
    TransitSpot(m1, e, Dark, []);
  }

  /** DARK ends, and NAP begins with its first phase. */
  lemma NapSpot(m: Machine, e: Env, p: Spot)
    requires Stands(m, p) && p.cur == Dark && p.way == Open && p.queue == [TransitNext(Dark)] && !e.halfHourPassed
    ensures Stands(Next(m, e, HEAD), Spot(Nap, Dark, 0, true, Open, [FirstPhase(Nap), Announced(Dark, Nap)]))
  {
    assert m.queue[1..] == [];
    var m1 := m.(queue := [], lock := true);
    var m2 := CloseEval(OpenEval(m1, NoMonitor));
    DarkTurns(m, e, m1);
    assert StartEval(m1, e, EvalParams(Dark, 0, Nap, 0, false)) == TransitInner(m2, e, Nap) by { hide TransitInner; }
    Cleared([], Dark);
    hide Next, TransitInner, StartEval, RemoveTasks;
    TransitSpot(m2, e, Nap, []);
    assert [] + [FirstPhase(Nap)] + [Announced(Dark, Nap)] == [FirstPhase(Nap), Announced(Dark, Nap)];
  }

  lemma DarkTurns(m: Machine, e: Env, m1: Machine)
    requires m.cur == Dark && m.queue == [TransitNext(Dark)] && m1 == m.(queue := [], lock := true)
    requires DarkNext(m.cfg) == Nap && !m.evaluating && !m.blocked
    ensures Next(m, e, HEAD) == StartEval(m1, e, EvalParams(Dark, 0, Nap, 0, false))
  {
    assert m.queue[1..] == [] && StopEvaluation(m1) == m1;
    hide StartEval, Block;
  }

  /** The motion watch between NAP and SLEEP cannot be started, and NAP heads for maintenance. */
  lemma HaltSpot(m: Machine, e: Env, p: Spot)
    requires Stands(m, p) && p.cur == Nap && p.way == Open && p.phase == PHASE_END && p.queue == [TransitNext(Nap)]
    requires !e.sensorOk
    ensures Stands(Next(m, e, HEAD), p.(armed := true, way := Halted, queue := []))
  {
    var m1 := m.(queue := [], lock := true);
    NapTurns(m, e, m1);
    assert StartEval(m1, e, EvalParams(Nap, PHASE_END, Sleep, 0, false)) == Block(OpenEval(m1, MotionMonitor), e)
      by { hide Block, OpenEval; }
    assert MaintTimeout(m.cfg.napIntervals, 0, e.extraDelay) > 0;
    hide Next, StartEval, MaintTimeout;
  }

  lemma NapTurns(m: Machine, e: Env, m1: Machine)
    requires m.cur == Nap && m.queue == [TransitNext(Nap)] && m1 == m.(queue := [], lock := true)
    requires m.napNext == Sleep && !m.evaluating && !m.blocked
    ensures Next(m, e, HEAD) == StartEval(m1, e, EvalParams(Nap, m.napPhase, Sleep, 0, false))
  {
    assert m.queue[1..] == [] && StopEvaluation(m1) == m1;
    hide StartEval, Block;
  }

  lemma NapEndsSpot(m: Machine, e: Env, p: Spot)
    requires Stands(m, p) && p.cur == Nap && p.way == Halted && p.queue == [TransitNext(Nap)] && !e.halfHourPassed
    ensures Stands(Next(m, e, HEAD), Spot(Maintenance, Nap, 0, true, Unknown, [Announced(Nap, Maintenance)]))
  {
    var m1 := StopEvaluation(m.(queue := [], lock := true));
    HaltedEnds(m, e);
    Cleared([], Nap);
    hide Next, TransitInner, RemoveTasks, StopEvaluation;
    TransitSpot(m1, e, Maintenance, []);
    assert [] + [] + [Announced(Nap, Maintenance)] == [Announced(Nap, Maintenance)];
  }

  lemma HaltedEnds(m: Machine, e: Env)
    requires OnWay(m, Halted) && m.queue == [TransitNext(Nap)]
    ensures var m1 := StopEvaluation(m.(queue := [], lock := true));
            && m1.queue == [] && m1.cur == Nap && !m1.evaluating && !m1.monitoring && m1.screenOn == m.screenOn
            && Next(m, e, HEAD) == TransitInner(m1, e, Maintenance)
  {
    assert m.queue[1..] == [];
    hide TransitInner, Block;
  }

  lemma DoTask(s0: System, run: seq<SysMove>, c: Context, p: Spot, q: Spot, n: Net)
    requires Stage(s0, run, p, n) && p.queue != [] && !p.queue[0].Deliver?
    requires Stands(Next(SystemExec(s0, run).m, c.env, HEAD), q)
    ensures Stage(s0, run + [SysMove(c, HEAD)], q, n)
  {
    assert Enabled(SystemExec(s0, run).m, HEAD);
    hide Next, SystemNext, ValidSystemRun, SystemExec, Stands, Enabled;
    Further(s0, run, c, HEAD, p, q, n);
  }

  function NapDone(p: nat): Task {
    Deliver(PhaseTransit(Nap, p, p + 1))
  }

  lemma NapPosts(p: nat)
    requires p < PHASE_END
    ensures PhasePosts(Nap, p, true) == [NapDone(p)] + (if p + 1 < PHASE_END then [NextPhase(Nap)] else [])
  {
  }

  /** Nothing that is announced on the way reaches the firewall. */
  lemma Unnoticed(t: Task, ans: NetAnswers)
    requires t in {Announced(Working, Dark), Announced(Dark, Nap), Announced(Nap, Maintenance),
                   NapDone(0), NapDone(1), NapDone(2)}
    ensures HandleNetMessage(IDLE_NET, t.msg, ans) == IDLE_NET
  {
    hide EnableFirewall;
  }

  /** The device lies still until NAP begins. */
  lemma FallIntoNap(cfg: Config, c: Context) returns (run: seq<SysMove>)
    requires NapConfig(cfg) && !c.env.charging && !c.env.halfHourPassed
    ensures Uses(run, c)
    ensures Stage(SystemInitial(cfg, false), run,
                  Spot(Nap, Dark, 0, true, Open, [FirstPhase(Nap), Announced(Dark, Nap)]), IDLE_NET)
  {
    var s0, p := SystemInitial(cfg, false), Spot(Dark, Working, 0, true, Open, []);
    run := FallIntoDark(cfg, c);
    assert [] + [TransitNext(Dark)] == [TransitNext(Dark)];
    hide Next, SystemNext, ValidSystemRun, SystemExec;
    DoFire(s0, run, c, p, IDLE_NET);
    run := run + [SysMove(c, Fire(TransitTimer(Dark)))];
    p := p.(armed := false, queue := [TransitNext(Dark)]);
    NapSpot(SystemExec(s0, run).m, c.env, p);
    DoTask(s0, run, c, p, Spot(Nap, Dark, 0, true, Open, [FirstPhase(Nap), Announced(Dark, Nap)]), IDLE_NET);
    run := run + [SysMove(c, HEAD)];
  }

  lemma FallIntoDark(cfg: Config, c: Context) returns (run: seq<SysMove>)
    requires NapConfig(cfg) && !c.env.charging && !c.env.halfHourPassed
    ensures Uses(run, c)
    ensures Stage(SystemInitial(cfg, false), run, Spot(Dark, Working, 0, true, Open, []), IDLE_NET)
  {
    var s0, n, dark := SystemInitial(cfg, false), IDLE_NET, Announced(Working, Dark);
    Starts(cfg);
    DarkSpot(cfg, c.env);
    assert SystemExec(s0, []).m == Initial(cfg, false);
    Unnoticed(dark, c.netAns);
    hide Next, SystemNext, ValidSystemRun, SystemExec, HandleNetMessage;
    var p := Spot(Dark, Working, 0, true, Open, [dark]);
    DoTask(s0, [], c, Spot(Working, Working, 0, false, Unknown, [ScreenCheck]), p, n);
    run := [] + [SysMove(c, HEAD)];
    assert [dark] == [dark] + [];
    DoMessage(s0, run, c, p, n, dark, []);
    run := run + [SysMove(c, HEAD)];
  }

  /** One phase of NAP, and its message. */
  lemma NapPhase(s0: System, run: seq<SysMove>, c: Context, p: Spot, t: Task, q: seq<Task>) returns (more: seq<SysMove>)
    requires Stage(s0, run, p, IDLE_NET) && p.cur == Nap && p.way == Open && p.phase < PHASE_END && Uses(run, c)
    requires t in {FirstPhase(Nap), NextPhase(Nap)} && p.queue == [t] + q && q in {[], [Announced(Dark, Nap)]}
    ensures Uses(more, c)
    ensures Stage(s0, more,
                  p.(phase := p.phase + 1, queue := if p.phase + 1 < PHASE_END then [NextPhase(Nap)] else []), IDLE_NET)
  {
    var n, moved, done := IDLE_NET, Announced(Dark, Nap), NapDone(p.phase);
    var rest := if p.phase + 1 < PHASE_END then [NextPhase(Nap)] else [];
    Unnoticed(moved, c.netAns);
    Unnoticed(done, c.netAns);
    NapPosts(p.phase);
    hide Stage, HandleNetMessage, PhasePosts;
    DoPhase(s0, run, c, p, n, t, q);
    more := run + [SysMove(c, HEAD)];
    var p1 := p.(phase := p.phase + 1, queue := q + ([done] + rest));
    if q != [] {
      assert q + ([done] + rest) == [moved] + ([done] + rest);
      DoMessage(s0, more, c, p1, n, moved, [done] + rest);
      more := more + [SysMove(c, HEAD)];
    } else {
      assert q + ([done] + rest) == [done] + rest;
    }
    DoMessage(s0, more, c, p1.(queue := [done] + rest), n, done, rest);
    more := more + [SysMove(c, HEAD)];
  }

  /** NAP completes its phases, cannot go on to SLEEP, and is interrupted. */
  lemma NapToMaintenance(s0: System, run: seq<SysMove>, c: Context) returns (more: seq<SysMove>)
    requires Uses(run, c) && !c.env.sensorOk && !c.env.halfHourPassed
    requires Stage(s0, run, Spot(Nap, Dark, 0, true, Open, [FirstPhase(Nap), Announced(Dark, Nap)]), IDLE_NET)
    ensures Uses(more, c) && Stage(s0, more, Spot(Maintenance, Nap, 0, true, Unknown, []), IDLE_NET)
  {
    var n, p := IDLE_NET, Spot(Nap, Dark, 0, true, Open, [FirstPhase(Nap), Announced(Dark, Nap)]);
    assert [FirstPhase(Nap), Announced(Dark, Nap)] == [FirstPhase(Nap)] + [Announced(Dark, Nap)];
    assert [NextPhase(Nap)] == [NextPhase(Nap)] + [] && [] + [TransitNext(Nap)] == [TransitNext(Nap)];
    hide Next, SystemNext, ValidSystemRun, SystemExec, HandleNetMessage, Stands;
    more := NapPhase(s0, run, c, p, FirstPhase(Nap), [Announced(Dark, Nap)]);
    more := NapPhase(s0, more, c, p.(phase := 1, queue := [NextPhase(Nap)]), NextPhase(Nap), []);
    more := NapPhase(s0, more, c, p.(phase := 2, queue := [NextPhase(Nap)]), NextPhase(Nap), []);
    more := NapTurn(s0, more, c, p.(phase := 3, queue := []));
  }

  lemma NapTurn(s0: System, run: seq<SysMove>, c: Context, p: Spot) returns (more: seq<SysMove>)
    requires Uses(run, c) && !c.env.sensorOk && !c.env.halfHourPassed && p == Spot(Nap, Dark, 3, true, Open, [])
    requires Stage(s0, run, p, IDLE_NET)
    ensures Uses(more, c) && Stage(s0, more, Spot(Maintenance, Nap, 0, true, Unknown, []), IDLE_NET)
  {
    assert [] + [TransitNext(Nap)] == [TransitNext(Nap)];
    hide Next, SystemNext, ValidSystemRun, SystemExec, Stands;
    DoFire(s0, run, c, p, IDLE_NET);
    more := run + [SysMove(c, Fire(TransitTimer(Nap)))];
    var p1 := p.(armed := false, queue := [TransitNext(Nap)]);
    HaltSpot(SystemExec(s0, more).m, c.env, p1);
    var p2 := p1.(armed := true, way := Halted, queue := []);
    DoTask(s0, more, c, p1, p2, IDLE_NET);
    more := more + [SysMove(c, HEAD)];
    more := LeaveNap(s0, more, c, p2);
  }

  lemma LeaveNap(s0: System, run: seq<SysMove>, c: Context, p: Spot) returns (more: seq<SysMove>)
    requires Uses(run, c) && !c.env.halfHourPassed && p == Spot(Nap, Dark, 3, true, Halted, [])
    requires Stage(s0, run, p, IDLE_NET)
    ensures Uses(more, c) && Stage(s0, more, Spot(Maintenance, Nap, 0, true, Unknown, []), IDLE_NET)
  {
    var n, moved := IDLE_NET, Announced(Nap, Maintenance);
    Unnoticed(moved, c.netAns);
    assert [] + [TransitNext(Nap)] == [TransitNext(Nap)] && [moved] == [moved] + [];
    hide Stage, HandleNetMessage;
    DoFire(s0, run, c, p, n);
    more := run + [SysMove(c, Fire(TransitTimer(Nap)))];
    var p1, p2 := p.(armed := false, queue := [TransitNext(Nap)]), Spot(Maintenance, Nap, 0, true, Unknown, [moved]);
    DoNapEnds(s0, more, c, p1, n);
    more := more + [SysMove(c, HEAD)];
    DoMessage(s0, more, c, p2, n, moved, []);
    more := more + [SysMove(c, HEAD)];
  }

  lemma DoNapEnds(s0: System, run: seq<SysMove>, c: Context, p: Spot, n: Net)
    requires Stage(s0, run, p, n) && p.cur == Nap && p.way == Halted && p.queue == [TransitNext(Nap)]
    requires !c.env.halfHourPassed
    ensures Stage(s0, run + [SysMove(c, HEAD)],
                  Spot(Maintenance, Nap, 0, true, Unknown, [Announced(Nap, Maintenance)]), n)
  {
    hide Next, SystemNext, ValidSystemRun, SystemExec, Stands;
    NapEndsSpot(SystemExec(s0, run).m, c.env, p);
    DoTask(s0, run, c, p, Spot(Maintenance, Nap, 0, true, Unknown, [Announced(Nap, Maintenance)]), n);
  }

  /** Forced sleep during the maintenance of NAP is announced like a return to SLEEP. */
  lemma ForceBack(s0: System, run: seq<SysMove>, c: Context) returns (more: seq<SysMove>, p: Spot)
    requires Uses(run, c) && !c.env.halfHourPassed
    requires Stage(s0, run, Spot(Maintenance, Nap, 0, true, Unknown, []), IDLE_NET)
    ensures Uses(more, c) && p.cur == Sleep && p.queue == []
    ensures Stage(s0, more, p, HandleNetMessage(IDLE_NET, StateTransit(Maintenance, Sleep), c.netAns))
  {
    var n, back := IDLE_NET, Announced(Maintenance, Sleep);
    var p0 := Spot(Maintenance, Nap, 0, true, Unknown, [] + [FORCE]);
    assert [] + [FORCE] == [FORCE] + [];
    FirewallIgnores(c.netAns);
    hide Next, SystemNext, ValidSystemRun, SystemExec, HandleNetMessage, Stands;
    DoPost(s0, run, c, p0.(queue := []), n, FORCE);
    more := run + [SysMove(c, External(FORCE.msg))];
    var m := SystemExec(s0, more).m;
    ForceSpot(m, c.env, p0, []);
    InMaintenance(m, p0);
    var p1 := Enters(m, Sleep, []).(armed := false);
    assert p1.queue == [back] by { assert [] + [] + [back] == [back]; }
    Delivered(s0, more, c, p0, p1, n);
    more := more + [SysMove(c, HEAD)];
    assert [back] == [back] + [];
    DoMessage(s0, more, c, p1, n, back, []);
    more := more + [SysMove(c, HEAD)];
    p := p1.(queue := []);
  }

  lemma InMaintenance(m: Machine, p: Spot)
    requires Stands(m, p)
    ensures m.cur == p.cur
  {
  }

  lemma FirewallIgnores(ans: NetAnswers)
    ensures HandleNetMessage(IDLE_NET, FORCE.msg, ans) == IDLE_NET
  {
  }

  lemma ForcedFirewall(ans: NetAnswers)
    ensures HandleNetMessage(IDLE_NET, StateTransit(Maintenance, Sleep), ans) == Net(map[], true, false, {}, true)
  {
    assert ExemptUids(map[], ans.night) == {};
  }

  /** With every configuration that watches motion after NAP, and whatever the services would
      answer: the device is interrupted in NAP, forced to sleep, and the firewall is on with an
      empty table, because no phase of SLEEP ever asked for a survey. */
  lemma FirewallNeverPrepared(cfg: Config, c: Context) returns (run: seq<SysMove>)
    requires NapConfig(cfg) && !c.env.charging && !c.env.halfHourPassed && !c.env.sensorOk
    ensures ValidSystemRun(SystemInitial(cfg, false), run) && Uses(run, c)
    ensures var s := SystemExec(SystemInitial(cfg, false), run);
            s.m.cur == Sleep && s.m.queue == [] && s.net == Net(map[], true, false, {}, true)
  {
    var s0 := SystemInitial(cfg, false);
    run := FallIntoNap(cfg, c);
    run := NapToMaintenance(s0, run, c);
    var p: Spot;
    run, p := ForceBack(s0, run, c);
    ForcedFirewall(c.netAns);
    hide Stage, HandleNetMessage;
    StageSays(s0, run, p, Net(map[], true, false, {}, true));
  }

  // ---------------------------------------------------------------- an application nobody trusts

  /** The allow list now has this application for the network. */
  function Granted(uid: int, name: string): Task {
    Deliver(AllowListChanged(uid, name, ALLOW_NETWORK, true))
  }

  /** The first phase runs, and the notice is dispatched. */
  lemma PostGrant(s0: System, run: seq<SysMove>, c: Context, grant: Task) returns (more: seq<SysMove>)
    requires Uses(run, c) && Stage(s0, run, DOZING, IDLE_NET) && grant.Deliver? && !Internal(grant.msg)
    ensures Uses(more, c)
    ensures Stage(s0, more,
                  Spot(Sleep, Working, 1, true, Unknown, [ASLEEP] + [FIRST, Completed(0), NextPhase(Sleep), grant]),
                  IDLE_NET)
  {
    var next := NextPhase(Sleep);
    PostsOf(0);
    hide Stage, PhasePosts, Internal;
    DoPhase(s0, run, c, DOZING, IDLE_NET, FIRST, [ASLEEP, FIRST]);
    more := run + [SysMove(c, HEAD)];
    assert [FIRST, ASLEEP, FIRST] == [FIRST] + [ASLEEP, FIRST];
    DoPost(s0, more, c, Spot(Sleep, Working, 1, true, Unknown, [ASLEEP, FIRST] + [Completed(0), next]), IDLE_NET, grant);
    more := more + [SysMove(c, External(grant.msg))];
    assert [ASLEEP, FIRST] + [Completed(0), next] + [grant] == [ASLEEP] + [FIRST, Completed(0), next, grant];
  }

  /** The firewall is set up while the notice waits. */
  lemma SetUp(s0: System, run: seq<SysMove>, c: Context, uid: int, name: string) returns (more: seq<SysMove>)
    requires Uses(run, c) && c.netAns.survey.available && Stage(s0, run, DOZING, IDLE_NET)
    ensures Uses(more, c)
    ensures Stage(s0, more,
                  Spot(Sleep, Working, 2, true, Unknown,
                       [NextPhase(Sleep)] + [Granted(uid, name), Completed(1), NextPhase(Sleep)]),
                  EnableFirewall(IDLE_NET, c.netAns.survey, c.netAns.night))
  {
    var next, grant := NextPhase(Sleep), Granted(uid, name);
    NoFirewallYet(c.netAns);
    more := PostGrant(s0, run, c, grant);
    hide Stage, HandleNetMessage, EnableFirewall;
    var p := Spot(Sleep, Working, 1, true, Unknown, [ASLEEP] + [FIRST, Completed(0), next, grant]);
    DoMessage(s0, more, c, p, IDLE_NET, ASLEEP, [FIRST, Completed(0), next, grant]);
    more := more + [SysMove(c, HEAD)];
    more := SecondPhase(s0, more, c, grant);
  }

  /** The second phase runs, and the message of the first is delivered. */
  lemma SecondPhase(s0: System, run: seq<SysMove>, c: Context, grant: Task) returns (more: seq<SysMove>)
    requires Uses(run, c)
    requires Stage(s0, run, Spot(Sleep, Working, 1, true, Unknown, [FIRST, Completed(0), NextPhase(Sleep), grant]),
                   IDLE_NET)
    ensures Uses(more, c)
    ensures Stage(s0, more,
                  Spot(Sleep, Working, 2, true, Unknown, [NextPhase(Sleep)] + [grant, Completed(1), NextPhase(Sleep)]),
                  EnableFirewall(IDLE_NET, c.netAns.survey, c.netAns.night))
  {
    var next := NextPhase(Sleep);
    PostsOf(1);
    DeepStarts(c.netAns);
    hide Stage, HandleNetMessage, PhasePosts, EnableFirewall;
    var p := Spot(Sleep, Working, 1, true, Unknown, [FIRST, Completed(0), next, grant]);
    assert p.queue == [FIRST] + [Completed(0), next, grant];
    DoPhase(s0, run, c, p, IDLE_NET, FIRST, [Completed(0), next, grant]);
    more := run + [SysMove(c, HEAD)];
    p := p.(phase := 2, queue := [Completed(0)] + ([next] + [grant, Completed(1), next]));
    assert [Completed(0), next, grant] + [Completed(1), next] == p.queue;
    DoMessage(s0, more, c, p, IDLE_NET, Completed(0), [next] + [grant, Completed(1), next]);
    more := more + [SysMove(c, HEAD)];
  }

  lemma DeepStarts(ans: NetAnswers)
    ensures HandleNetMessage(IDLE_NET, Completed(0).msg, ans) == EnableFirewall(IDLE_NET, ans.survey, ans.night)
  {
    hide EnableFirewall;
  }

  /** The third phase runs, and the notice is delivered. */
  lemma DeliverGrant(s0: System, run: seq<SysMove>, c: Context, n: Net, uid: int, name: string)
    returns (more: seq<SysMove>, p: Spot)
    requires Uses(run, c)
    requires Stage(s0, run, Spot(Sleep, Working, 2, true, Unknown,
                                 [NextPhase(Sleep)] + [Granted(uid, name), Completed(1), NextPhase(Sleep)]), n)
    ensures Uses(more, c) && p.cur == Sleep
    ensures Stage(s0, more, p, AddNetFlag(n, uid, name, EXEMPTION, c.netAns))
  {
    var next, grant := NextPhase(Sleep), Granted(uid, name);
    PostsOf(2);
    assert ALLOW_NETWORK & ALLOW_NETWORK != 0;
    assert HandleNetMessage(n, grant.msg, c.netAns) == AddNetFlag(n, uid, name, EXEMPTION, c.netAns)
      by { hide AddNetFlag; }
    hide Stage, HandleNetMessage, PhasePosts, AddNetFlag;
    p := Spot(Sleep, Working, 2, true, Unknown, [next] + [grant, Completed(1), next]);
    DoPhase(s0, run, c, p, n, next, [grant, Completed(1), next]);
    more := run + [SysMove(c, HEAD)];
    var q := [Completed(1), next, Completed(2)];
    assert [grant, Completed(1), next] + ([Completed(2)] + []) == [grant] + q;
    p := p.(phase := 3, queue := [grant] + q);
    DoMessage(s0, more, c, p, n, grant, q);
    more := more + [SysMove(c, HEAD)];
    p := p.(queue := q);
  }

  /** Without a change of the answers a run is steady. */
  lemma {:induction false} UsesSteady(s: System, run: seq<SysMove>, c: Context)
    requires ValidSystemRun(s, run) && Uses(run, c) && (s.net.enabled ==> s.night == c.netAns.night)
    ensures SteadyRun(s, run)
    decreases run
  {
    if run != [] {
      var r := SystemNext(s, run[0].ctx, run[0].step);
      assert run[0] in run && Uses(run[1..], c);
      assert r.net.enabled ==> r.night == c.netAns.night by { NightStays(s, c, run[0].step); }
      hide SystemNext;
      UsesSteady(r, run[1..], c);
    }
  }

  lemma NightStays(s: System, c: Context, step: Step)
    requires Enabled(s.m, step) && (s.net.enabled ==> s.night == c.netAns.night)
    ensures var r := SystemNext(s, c, step); r.net.enabled ==> r.night == c.netAns.night
  {
    hide Next, R.HandleMessage, HandleNetMessage;
  }

  /** The notice finds an application that is allowed already, and trusts nobody. */
  lemma GrantOverlooked(n: Net, uid: int, name: string, ans: NetAnswers)
    requires NP.Guarded(n, ans.night) && n.enabled && uid !in n.apps && name in ans.newcomer.allowed
    ensures var r := AddNetFlag(n, uid, name, EXEMPTION, ans);
            r.enabled && uid in ExemptUids(r.apps, ans.night) && uid !in r.trust
  {
    NP.NewcomerTrusted(ans, name);
    var before := NewNetFlag(ans, name);
    var after := Raised(before, EXEMPTION, name in ans.conditional);
    assert EXEMPTION & !UNRESTRICTED & !RESTRICTED != 0 && EXEMPTION & RESTRICTED == 0;
    NP.AdditionNoticed(before, EXEMPTION, name in ans.conditional, ans.night);
    var a := NetApp(name, after);
    NP.ExemptSaid(n.apps, uid, ans.night);
    NP.ExemptSaid(n.apps[uid := a], uid, ans.night);
    hide NewNetFlag, IsFlagExempted, BecomesExempted, Raised, With, ExemptUids;
    assert n.apps[uid := NetApp(name, before)][uid := a] == n.apps[uid := a];
  }

  /** With any configuration, and nothing changing behind the trust list: an application without a
      running process is allowed the network while the firewall is on. The lookup of the new entry
      finds it allowed already, the notice therefore changes nothing, and it is never trusted. The
      condition on overlooked messages in `AttentiveRun` is therefore needed. */
  lemma AllowedIsOverlooked(cfg: Config, c: Context, uid: int, name: string) returns (run: seq<SysMove>)
    requires c.env.charging && !c.env.halfHourPassed && c.netAns.survey.available
    requires uid !in CollectRunning(c.netAns.survey.procs) && name in c.netAns.newcomer.allowed
    ensures ValidSystemRun(SystemInitial(cfg, false), run) && Uses(run, c)
    ensures SteadyRun(SystemInitial(cfg, false), run)
    ensures var s := SystemExec(SystemInitial(cfg, false), run);
            && s.m.cur == Sleep && s.net.enabled
            && uid in ExemptUids(s.net.apps, c.netAns.night) && uid !in s.net.trust
  {
    var s0, ans := SystemInitial(cfg, false), c.netAns;
    run := FallAsleep(cfg, c);
    run := SetUp(s0, run, c, uid, name);
    var n := EnableFirewall(IDLE_NET, ans.survey, ans.night);
    assert NP.Guarded(n, ans.night) && n.enabled && n.apps == RebuildNet(ans.survey, ans.night) by {
      NP.StartLimitKeeps(IDLE_NET, Sleep, APP_RES_DEEP, ans.survey, ans.night);
      hide RebuildNet, ExemptUids;
    }
    NP.RebuiltNetEntry(ans.survey, ans.night, uid);
    hide Stage, EnableFirewall, RebuildNet, AddNetFlag, SteadyRun, Uses, NP.Guarded, ExemptUids, CollectRunning;
    var p: Spot;
    run, p := DeliverGrant(s0, run, c, n, uid, name);
    GrantOverlooked(n, uid, name, ans);
    StageSays(s0, run, p, AddNetFlag(n, uid, name, EXEMPTION, ans));
    UsesSteady(s0, run, c);
  }

  /** With any configuration: a tracked application is allowed the network during the maintenance
      of SLEEP. The notice finds the firewall disabled and is dropped, and when SLEEP resumes the
      application is neither marked nor trusted, with nothing left to deliver. */
  lemma GrantInMaintenanceIsLost(cfg: Config, c: Context, uid: int, name: string) returns (run: seq<SysMove>)
    requires c.env.charging && !c.env.halfHourPassed && c.netAns.survey.available
    requires uid !in ExemptUids(RebuildNet(c.netAns.survey, c.netAns.night), c.netAns.night)
    ensures ValidSystemRun(SystemInitial(cfg, false), run) && Uses(run, c)
    ensures SysMove(c, External(Granted(uid, name).msg)) in run
    ensures var s := SystemExec(SystemInitial(cfg, false), run);
            && s.m.cur == Sleep && s.m.queue == [] && s.net.enabled && uid !in s.net.trust
            && s.net.apps == RebuildNet(c.netAns.survey, c.netAns.night)
  {
    var s0, ans := SystemInitial(cfg, false), c.netAns;
    var n := EnableFirewall(IDLE_NET, ans.survey, ans.night);
    var paused := StopLimit(n, Sleep, Maintenance, ans.night);
    run := FallAsleep(cfg, c);
    run := Interrupt(s0, run, c);
    run := Deliver3(s0, run, c, c);
    PausedTable(ans);
    hide Stage, EnableFirewall, ExemptUids, RebuildNet, StopLimit, Uses, NP.Resumed;
    run := GrantWhilePaused(s0, run, c, Spot(Maintenance, Sleep, 0, true, Unknown, []), paused, uid, name);
    var p: Spot;
    run, p := Resume(s0, run, c, paused);
    StageSays(s0, run, p, NP.Resumed(n, ans.night));
  }

  /** The firewall is off during maintenance, and comes back over the surveyed table. */
  lemma PausedTable(ans: NetAnswers)
    requires ans.survey.available
    ensures var n := EnableFirewall(IDLE_NET, ans.survey, ans.night);
            var paused := StopLimit(n, Sleep, Maintenance, ans.night);
            var r := StopLimit(paused, Maintenance, Sleep, ans.night);
            && !paused.enabled && r == NP.Resumed(n, ans.night)
            && r.enabled && r.apps == RebuildNet(ans.survey, ans.night) && r.trust == ExemptUids(r.apps, ans.night)
  {
    var n := EnableFirewall(IDLE_NET, ans.survey, ans.night);
    NP.MaintenanceEnables(n, ans.night);
    assert n.apps == RebuildNet(ans.survey, ans.night) && n.trust == ExemptUids(n.apps, ans.night) && !n.idle
      by { hide RebuildNet, ExemptUids; }
    hide EnableFirewall, RebuildNet, ExemptUids;
  }

  /** A notice that finds the firewall disabled leaves the strategy as it was. */
  lemma GrantWhilePaused(s0: System, run: seq<SysMove>, c: Context, p: Spot, n: Net, uid: int, name: string)
    returns (more: seq<SysMove>)
    requires Uses(run, c) && Stage(s0, run, p, n) && p.queue == [] && !n.enabled
    ensures Uses(more, c) && SysMove(c, External(Granted(uid, name).msg)) in more
    ensures Stage(s0, more, p, n)
  {
    var grant := Granted(uid, name);
    assert !Internal(grant.msg);
    assert HandleNetMessage(n, grant.msg, c.netAns) == n;
    hide Stage, HandleNetMessage, Internal;
    DoPost(s0, run, c, p, n, grant);
    more := run + [SysMove(c, External(grant.msg))];
    assert [] + [grant] == [grant] + [];
    DoMessage(s0, more, c, p.(queue := [] + [grant]), n, grant, []);
    more := more + [SysMove(c, HEAD)];
    assert p.(queue := []) == p;
  }
}
