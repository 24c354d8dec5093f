/** The service end to end: the state machine posts messages, the handler delivers them in order,
    and each delivered message reaches both strategies. */
module StandbySystem {
  import opened StandbyTypes
  import opened StandbyMachine
  import opened StandbyInvariant
  import opened StandbyLog
  import opened StandbyRuns
  import opened StandbyDelivery
  import opened ExemptionFlags
  import opened RunningLockRules
  import opened RunningLockProofs
  import N = NetworkRules
  import NP = NetworkProofs

  /** `night` is the condition in force when the trust list was last set up. */
  datatype System = System(m: Machine, proxy: Proxy, net: N.Net, night: bool)

  /** The answers of the outside world during one step. */
  datatype Context = Context(env: Env, lockAns: Answers, netAns: N.NetAnswers)

  datatype SysMove = SysMove(ctx: Context, step: Step)

  /** The step runs a task that delivers a message. */
  predicate Delivers(m: Machine, s: Step) {
    s == RunHead && m.queue != [] && m.queue[0].Deliver?
  }

  /** The condition the trust list answers for after the message. */
  function NightAfter(s: System, msg: Message, ans: N.NetAnswers): bool {
    if s.net.enabled && !msg.ConditionChanged? then s.night else ans.night
  }

  /** One step. A delivered message goes to the state manager first, then to the strategies. */
  function SystemNext(s: System, c: Context, step: Step): System
    requires Enabled(s.m, step)
  {
    var m := Next(s.m, c.env, step);
    if Delivers(s.m, step) then
      var msg := s.m.queue[0].msg;
      System(m, HandleMessage(s.proxy, msg, c.lockAns), N.HandleNetMessage(s.net, msg, c.netAns),
             NightAfter(s, msg, c.netAns))
    else s.(m := m)
  }

  function SystemInitial(cfg: Config, screenOn: bool): System {
    System(Initial(cfg, screenOn), Proxy(map[], false, false, {}), N.Net(map[], false, false, {}, false), false)
  }

  predicate ValidSystemRun(s: System, run: seq<SysMove>)
    decreases run
  {
    run == [] ||
    (Enabled(s.m, run[0].step) && ValidSystemRun(SystemNext(s, run[0].ctx, run[0].step), run[1..]))
  }

  function SystemExec(s: System, run: seq<SysMove>): System
    requires ValidSystemRun(s, run)
    decreases run
  {
    if run == [] then s else SystemExec(SystemNext(s, run[0].ctx, run[0].step), run[1..])
  }

  lemma {:induction false} SystemConcat(s: System, a: seq<SysMove>, b: seq<SysMove>)
    requires ValidSystemRun(s, a) && ValidSystemRun(SystemExec(s, a), b)
    ensures ValidSystemRun(s, a + b) && SystemExec(s, a + b) == SystemExec(SystemExec(s, a), b)
    decreases a
  {
    hide SystemNext, Enabled;
    if a == [] {
      assert a + b == b;
    } else {
      var s1 := SystemNext(s, a[0].ctx, a[0].step);
      assert (a + b)[0] == a[0] && (a + b)[1..] == a[1..] + b;
      SystemConcat(s1, a[1..], b);
      assert SystemExec(s, a) == SystemExec(s1, a[1..]);
    }
  }

  /** One more step at the end of a run. */
  lemma Grow(s0: System, run: seq<SysMove>, c: Context, step: Step)
    requires ValidSystemRun(s0, run) && Enabled(SystemExec(s0, run).m, step)
    ensures var more := run + [SysMove(c, step)];
            && ValidSystemRun(s0, more)
            && SystemExec(s0, more) == SystemNext(SystemExec(s0, run), c, step)
  {
    assert [SysMove(c, step)][1..] == [];
    hide SystemNext, Enabled;
    SystemConcat(s0, run, [SysMove(c, step)]);
  }

  /** The state that the strategies were told last. */
  function Told(m: Machine): State {
    EndOf(m.hist.done)
  }

  // ---------------------------------------------------------------- delivery in order

  lemma {:induction false} SentGrows(m: Machine, run: seq<Move>)
    requires Inv(m) && ValidRun(m, run)
    ensures Sent(m) <= Sent(Exec(m, run))
    decreases run
  {
    if run == [] {
    } else {
      var m1 := Next(m, run[0].env, run[0].step);
      NextKeeps(m, run[0].env, run[0].step);
      NextTicks(m, run[0].env, run[0].step);
      hide Inv, Next, Tick, Begun, Sent, AwakeEvent;
      if AwakeEvent(m, run[0].step) { BegunGrows(m, m1); } else { TickGrows(m, m1, run[0].env); }
      SentGrows(m1, run[1..]);
    }
  }

  lemma BegunGrows(m: Machine, r: Machine)
    requires Begun(m, r)
    ensures Sent(m) <= Sent(r)
  {
    hide Sent;
  }

  lemma TickGrows(m: Machine, r: Machine, e: Env)
    requires Tick(m, r, e)
    ensures Sent(m) <= Sent(r)
  {
    hide Sent;
  }

  /** Take any moment of a run and let the run go on until exactly the messages dispatched by
      then have been delivered: the state the strategies know at that point is the state the
      machine was in at that moment. So whatever was posted next meets strategies that know the
      state it was posted in. */
  lemma DeliveredStateIsPostedState(cfg: Config, screenOn: bool, before: seq<Move>, after: seq<Move>)
    requires ValidRun(Initial(cfg, screenOn), before)
    requires ValidRun(Reached(cfg, screenOn, before), after)
    requires var m1 := Reached(cfg, screenOn, before);
             |Exec(m1, after).hist.done| == |Sent(m1)|
    ensures var m1 := Reached(cfg, screenOn, before);
            Told(Exec(m1, after)) == m1.cur
  {
    ReachedKeeps(cfg, screenOn, before);
    var m1 := Reached(cfg, screenOn, before);
    var m2 := Exec(m1, after);
    SentGrows(m1, after);
    InvLog(m1);
    hide Inv, Reached, Exec, ValidRun;
    assert m2.hist.done <= Sent(m2);
    SamePrefix(Sent(m1), m2.hist.done, Sent(m2));
  }

  lemma SamePrefix(a: seq<Message>, b: seq<Message>, whole: seq<Message>)
    requires a <= whole && b <= whole && |a| == |b|
    ensures a == b
  {
    assert a == whole[..|a|] && b == whole[..|b|];
  }

  /** When no announcement is waiting, the strategies know the current state. */
  lemma {:induction false} NothingWaiting(log: seq<Message>, more: seq<Message>)
    requires forall msg :: msg in more ==> !msg.StateTransit?
    ensures EndOf(log + more) == EndOf(log)
  {
    if more == [] {
      assert log + more == log;
    } else {
      var rest := more[..|more| - 1];
      assert more == rest + [more[|more| - 1]];
      assert (log + more)[..|log + more| - 1] == log + rest;
      NothingWaiting(log, rest);
    }
  }

  /** The message being delivered fits what was delivered before it. */
  lemma DeliveryFits(m: Machine)
    requires Inv(m) && Delivers(m, RunHead)
    ensures Fits(m.cfg, m.hist.done, m.queue[0].msg)
    ensures Take(m).hist.done == m.hist.done + [m.queue[0].msg]
  {
    InvLog(m);
    var log := Sent(m);
    var i := |m.hist.done|;
    assert Messages(m.queue) == [m.queue[0].msg] + Messages(m.queue[1..]);
    assert log[i] == m.queue[0].msg && log[..i] == m.hist.done;
    hide Inv, Fits, Sent;
    LinkedAt(m.cfg, log, i);
  }

  // ---------------------------------------------------------------- where the restrictions live

  /** The strategy restricts only in SLEEP and pauses only in the maintenance of SLEEP. */
  predicate ProxyAt(r: Proxy, d: State) {
    && (r.proxied && !r.idle ==> d == Sleep)
    && (r.idle ==> r.proxied && d == Maintenance)
  }

  predicate NetAt(n: N.Net, d: State) {
    && (n.enabled ==> d == Sleep)
    && (n.idle ==> d == Maintenance)
  }

  /** Both strategies are where the state they were told last wants them. */
  predicate InPlace(s: System) {
    ProxyAt(s.proxy, Told(s.m)) && NetAt(s.net, Told(s.m))
  }

  lemma ProxyInPlace(r: Proxy, d: State, cfg: Config, log: seq<Message>, msg: Message, ans: Answers)
    requires d == EndOf(log) && Fits(cfg, log, msg)
    requires ProxyAt(r, d)
    ensures ProxyAt(HandleMessage(r, msg, ans), if msg.StateTransit? then msg.cur else d)
  {
    hide EndOf, Restricted, Rebuild, AddFlag, RemoveFlag, ProcessCreated, ProcessDied, ResetStatus, UpdateResource,
         StartInner, StopInner, StopProxy;
    match msg
    case ConditionChanged => UpdateKeepsPlace(r, ans.survey);
    case PhaseTransit(_, _, _) => StartKeepsPlace(r, ans.survey);
    case StateTransit(pre, cur) => StopMovesPlace(r, pre, cur);
    case AllowListChanged(uid, name, _, _) => FlagsKeepPlace(r, uid, name, EXEMPTION);
    case BgTaskStatus(task, _, uid, name) =>
      FlagsKeepPlace(r, uid, if name == "" then ans.bundleName else name, TaskFlag(task));
    case ProcessState(uid, pid, name, _) => ProcessesKeepPlace(r, uid, pid, name, NewFlag(ans.newcomer, name));
    case SysAbility(_, _) => ResetKeepsPlace(r);
    case CommonEvent(_) =>
    case HalfHour(_) =>
  }

  predicate SamePlace(r: Proxy, q: Proxy) {
    q.proxied == r.proxied && q.idle == r.idle
  }

  lemma FlagsKeepPlace(r: Proxy, uid: int, name: string, flag: bv8)
    ensures SamePlace(r, AddFlag(r, uid, name, flag)) && SamePlace(r, RemoveFlag(r, uid, name, flag))
  {
  }

  lemma StartKeepsPlace(r: Proxy, s: Survey)
    ensures SamePlace(r, StartInner(r, s))
  {
    hide Restricted, Rebuild;
  }

  lemma StopInnerKeepsPlace(r: Proxy)
    ensures SamePlace(r, StopInner(r)) && SamePlace(r, ProxyAll(r, false))
  {
    hide Restricted;
  }

  /** Leaving SLEEP or its maintenance ends the proxy; in between it pauses and resumes. */
  lemma StopMovesPlace(r: Proxy, pre: State, cur: State)
    requires ProxyAt(r, pre)
    ensures ProxyAt(StopProxy(r, pre, cur), cur)
  {
    StopInnerKeepsPlace(r);
    hide Restricted, StopInner;
  }

  lemma UpdateKeepsPlace(r: Proxy, s: Survey)
    ensures SamePlace(r, UpdateResource(r, s))
  {
    hide StartInner, StopInner;
    StopInnerKeepsPlace(r);
    StartKeepsPlace(StopInner(r), s);
  }

  lemma ProcessesKeepPlace(r: Proxy, uid: int, pid: int, name: string, newFlag: bv8)
    ensures SamePlace(r, ProcessCreated(r, uid, pid, name, newFlag)) && SamePlace(r, ProcessDied(r, uid, pid, name))
  {
  }

  lemma ResetKeepsPlace(r: Proxy)
    ensures SamePlace(r, ResetStatus(r))
  {
    hide NoLongerExempt, WithoutTasks;
  }

  lemma NetInPlace(n: N.Net, d: State, cfg: Config, log: seq<Message>, msg: Message, ans: N.NetAnswers)
    requires d == EndOf(log) && Fits(cfg, log, msg)
    requires NetAt(n, d)
    ensures NetAt(N.HandleNetMessage(n, msg, ans), if msg.StateTransit? then msg.cur else d)
  {
    hide EndOf, N.ExemptUids, N.RebuildNet, N.AddNetFlag, N.RemoveNetFlag, N.NetProcessCreated, N.NetProcessDied;
    match msg
    case AllowListChanged(uid, name, _, _) => NetFlagsKeepPlace(n, uid, name, EXEMPTION, ans);
    case BgTaskStatus(task, _, uid, name) =>
      NetFlagsKeepPlace(n, uid, if name == "" then ans.bundleName else name, TaskFlag(task), ans);
    case ProcessState(uid, _, name, _) => NetProcessesKeepPlace(n, uid, name, ans);
    case _ =>
  }

  predicate SameNetPlace(n: N.Net, q: N.Net) {
    q.enabled == n.enabled && q.idle == n.idle
  }

  lemma NetFlagsKeepPlace(n: N.Net, uid: int, name: string, flag: bv8, ans: N.NetAnswers)
    ensures SameNetPlace(n, N.AddNetFlag(n, uid, name, flag, ans))
    ensures SameNetPlace(n, N.RemoveNetFlag(n, uid, flag, ans))
  {
  }

  lemma NetProcessesKeepPlace(n: N.Net, uid: int, name: string, ans: N.NetAnswers)
    ensures SameNetPlace(n, N.NetProcessCreated(n, uid, name, ans)) && SameNetPlace(n, N.NetProcessDied(n, uid, ans))
  {
  }

  lemma ToldAfter(m: Machine, e: Env, step: Step)
    requires Enabled(m, step)
    ensures Next(m, e, step).hist.done == if Delivers(m, step) then m.hist.done + [m.queue[0].msg] else m.hist.done
  {
    NextDone(m, e, step);
    hide Next;
  }

  lemma StepKeepsPlace(s: System, c: Context, step: Step)
    requires Inv(s.m) && InPlace(s) && Enabled(s.m, step)
    ensures InPlace(SystemNext(s, c, step)) && Inv(SystemNext(s, c, step).m)
  {
    NextKeeps(s.m, c.env, step);
    ToldAfter(s.m, c.env, step);
    if Delivers(s.m, step) {
      var msg := s.m.queue[0].msg;
      var log := s.m.hist.done;
      DeliveryFits(s.m);
      EndOfMore(log, msg);
      hide Inv, Next, HandleMessage, N.HandleNetMessage, Fits, EndOf, NightAfter;
      ProxyInPlace(s.proxy, EndOf(log), s.m.cfg, log, msg, c.lockAns);
      NetInPlace(s.net, EndOf(log), s.m.cfg, log, msg, c.netAns);
    }
  }

  lemma EndOfMore(log: seq<Message>, msg: Message)
    ensures EndOf(log + [msg]) == if msg.StateTransit? then msg.cur else EndOf(log)
  {
    assert (log + [msg])[..|log|] == log;
  }

  // ---------------------------------------------------------------- whole runs

  lemma {:induction false} ExecKeepsPlace(s: System, run: seq<SysMove>)
    requires Inv(s.m) && InPlace(s) && ValidSystemRun(s, run)
    ensures Inv(SystemExec(s, run).m) && InPlace(SystemExec(s, run))
    decreases run
  {
    if run == [] {
    } else {
      StepKeepsPlace(s, run[0].ctx, run[0].step);
      hide Inv, InPlace, SystemNext;
      ExecKeepsPlace(SystemNext(s, run[0].ctx, run[0].step), run[1..]);
    }
  }

  /** With no assumption on the environment: in every reachable state of the whole service the
      firewall is enabled and the running-lock proxy active only if the state delivered last is
      SLEEP, and both are suspended only if it is MAINTENANCE; and once no announcement is
      waiting in the queue, the state delivered last is the state of the machine. */
  lemma RestrictionsFollowSleep(cfg: Config, screenOn: bool, run: seq<SysMove>)
    requires ValidSystemRun(SystemInitial(cfg, screenOn), run)
    ensures var s := SystemExec(SystemInitial(cfg, screenOn), run);
            && (s.net.enabled ==> Told(s.m) == Sleep)
            && (s.net.idle ==> Told(s.m) == Maintenance)
            && (s.proxy.proxied && !s.proxy.idle ==> Told(s.m) == Sleep)
            && (s.proxy.idle ==> Told(s.m) == Maintenance)
            && ((forall msg :: msg in Messages(s.m.queue) ==> !msg.StateTransit?) ==> Told(s.m) == s.m.cur)
  {
    InitialHolds(cfg, screenOn);
    var s0 := SystemInitial(cfg, screenOn);
    hide Inv;
    ExecKeepsPlace(s0, run);
    var s := SystemExec(s0, run);
    InvLog(s.m);
    if forall msg :: msg in Messages(s.m.queue) ==> !msg.StateTransit? {
      NothingWaiting(s.m.hist.done, Messages(s.m.queue));
    }
  }

  // ---------------------------------------------------------------- the ledger of running locks

  /** What the running-lock strategy relies on: a process has one owner, and the switch of day and
      night is delivered only while the strategy is proxied. */
  predicate LockRegular(s: System, step: Step) {
    Delivers(s.m, step) ==>
      var msg := s.m.queue[0].msg;
      FitsTable(s.proxy, msg) && (msg.ConditionChanged? ==> s.proxy.proxied)
  }

  predicate LockRegularRun(s: System, run: seq<SysMove>)
    requires ValidSystemRun(s, run)
    decreases run
  {
    run == [] ||
    (LockRegular(s, run[0].step) && LockRegularRun(SystemNext(s, run[0].ctx, run[0].step), run[1..]))
  }

  lemma StepKeepsLedger(s: System, c: Context, step: Step)
    requires Tidy(s.proxy) && Enabled(s.m, step) && LockRegular(s, step)
    ensures Tidy(SystemNext(s, c, step).proxy)
  {
    if Delivers(s.m, step) {
      hide Next, Tidy, HandleMessage, FitsTable, N.HandleNetMessage;
      HandleMessageTidy(s.proxy, s.m.queue[0].msg, c.lockAns);
    }
  }

  lemma {:induction false} ExecKeepsLedger(s: System, run: seq<SysMove>)
    requires Tidy(s.proxy) && ValidSystemRun(s, run) && LockRegularRun(s, run)
    ensures Tidy(SystemExec(s, run).proxy)
    decreases run
  {
    if run == [] {
    } else {
      StepKeepsLedger(s, run[0].ctx, run[0].step);
      hide Tidy, SystemNext, LockRegular;
      ExecKeepsLedger(SystemNext(s, run[0].ctx, run[0].step), run[1..]);
    }
  }

  /** In every reachable state of the whole service the power manager holds back exactly the
      pids of the tracked applications that are not exempt, and only if the state delivered last
      is SLEEP: never in maintenance, never after leaving. */
  lemma LedgerIsExact(cfg: Config, screenOn: bool, run: seq<SysMove>)
    requires ValidSystemRun(SystemInitial(cfg, screenOn), run)
    requires LockRegularRun(SystemInitial(cfg, screenOn), run)
    ensures var s := SystemExec(SystemInitial(cfg, screenOn), run);
            && s.proxy.ledger == (if s.proxy.proxied && !s.proxy.idle then Restricted(s.proxy.apps) else {})
            && (s.proxy.ledger != {} ==> Told(s.m) == Sleep)
  {
    EmptySound();
    var s0 := SystemInitial(cfg, screenOn);
    hide Restricted;
    RestrictionsFollowSleep(cfg, screenOn, run);
    ExecKeepsLedger(s0, run);
    TidyLedger(SystemExec(s0, run).proxy);
    hide Tidy, SystemExec;
  }

  lemma TidyLedger(r: Proxy)
    requires Tidy(r)
    ensures r.ledger == if r.proxied && !r.idle then Restricted(r.apps) else {}
  {
    hide Sound, Restricted;
  }

  // ---------------------------------------------------------------- the trust list

  /** What the network strategy relies on: the condition has not changed since the trust list was
      set up. */
  predicate Steady(s: System, c: Context, step: Step) {
    Delivers(s.m, step) && s.net.enabled && !s.m.queue[0].msg.ConditionChanged? ==> c.netAns.night == s.night
  }

  predicate SteadyRun(s: System, run: seq<SysMove>)
    requires ValidSystemRun(s, run)
    decreases run
  {
    run == [] ||
    (Steady(s, run[0].ctx, run[0].step) && SteadyRun(SystemNext(s, run[0].ctx, run[0].step), run[1..]))
  }

  /** With the firewall off, the condition does not matter. */
  lemma OffAnyCondition(n: N.Net, night: bool, other: bool)
    requires NP.Guarded(n, night) && !n.enabled
    ensures NP.Guarded(n, other)
  {
  }

  /** A rebuild does not ask what the trust list was. */
  lemma RebuildAnyCondition(n: N.Net, s: N.NetSurvey, night: bool)
    requires !n.idle
    ensures NP.Guarded(N.UpdateAllowList(n, s, night), night)
  {
    NP.UpdateAllowListKeeps(n, s, night);
  }

  lemma StepKeepsTrust(s: System, c: Context, step: Step)
    requires Inv(s.m) && InPlace(s) && NP.Guarded(s.net, s.night) && Enabled(s.m, step) && Steady(s, c, step)
    ensures var r := SystemNext(s, c, step); NP.Guarded(r.net, r.night)
  {
    if Delivers(s.m, step) {
      var msg := s.m.queue[0].msg;
      DeliveryFits(s.m);
      assert msg.ConditionChanged? ==> !s.net.idle;
      hide Inv, InPlace, Next, Fits, HandleMessage, NP.Guarded;
      if msg.ConditionChanged? {
        RebuildAnyCondition(s.net, c.netAns.survey, c.netAns.night);
      } else {
        if !s.net.enabled { OffAnyCondition(s.net, s.night, c.netAns.night); }
        hide N.HandleNetMessage;
        NP.HandleNetMessageKeeps(s.net, msg, c.netAns);
      }
    }
  }

  lemma {:induction false} ExecKeepsTrust(s: System, run: seq<SysMove>)
    requires Inv(s.m) && InPlace(s) && NP.Guarded(s.net, s.night) && ValidSystemRun(s, run) && SteadyRun(s, run)
    ensures var r := SystemExec(s, run); NP.Guarded(r.net, r.night)
    decreases run
  {
    if run == [] {
    } else {
      StepKeepsPlace(s, run[0].ctx, run[0].step);
      StepKeepsTrust(s, run[0].ctx, run[0].step);
      hide Inv, InPlace, NP.Guarded, SystemNext, Steady;
      ExecKeepsTrust(SystemNext(s, run[0].ctx, run[0].step), run[1..]);
    }
  }

  /** In every reachable state of the whole service the trust list holds only tracked applications
      that are exempt, it is empty while the firewall is off, and the idle policy is on only if the
      state delivered last is SLEEP. */
  lemma TrustIsSound(cfg: Config, screenOn: bool, run: seq<SysMove>)
    requires ValidSystemRun(SystemInitial(cfg, screenOn), run)
    requires SteadyRun(SystemInitial(cfg, screenOn), run)
    ensures var s := SystemExec(SystemInitial(cfg, screenOn), run);
            && s.net.trust <= (if s.net.enabled then N.ExemptUids(s.net.apps, s.night) else {})
            && (s.net.policy ==> s.net.enabled && Told(s.m) == Sleep)
  {
    InitialHolds(cfg, screenOn);
    var s0 := SystemInitial(cfg, screenOn);
    hide Inv, N.ExemptUids;
    RestrictionsFollowSleep(cfg, screenOn, run);
    ExecKeepsTrust(s0, run);
    GuardedTrust(SystemExec(s0, run).net, SystemExec(s0, run).night);
    hide NP.Guarded, SystemExec;
  }

  lemma GuardedTrust(n: N.Net, night: bool)
    requires NP.Guarded(n, night)
    ensures n.trust <= (if n.enabled then N.ExemptUids(n.apps, night) else {}) && (n.policy ==> n.enabled)
  {
  }

  // ---------------------------------------------------------------- nobody is forgotten

  /** The step delivers a message that tracks an exempt application without trusting it. */
  predicate Overlooking(s: System, c: Context, step: Step) {
    Delivers(s.m, step) && NP.Overlooks(s.net, s.m.queue[0].msg, c.netAns)
  }

  predicate AttentiveRun(s: System, run: seq<SysMove>)
    requires ValidSystemRun(s, run)
    decreases run
  {
    run == [] ||
    (&& Steady(s, run[0].ctx, run[0].step) && !Overlooking(s, run[0].ctx, run[0].step)
     && AttentiveRun(SystemNext(s, run[0].ctx, run[0].step), run[1..]))
  }

  /** A rebuild under any condition forgets somebody exactly when it fails with exempt
      applications in the table it leaves. */
  lemma RebuildCompletes(n: N.Net, ans: N.NetAnswers)
    requires !n.idle
    ensures NP.Complete(N.HandleNetMessage(n, ConditionChanged, ans), ans.night)
            <==> !NP.Overlooks(n, ConditionChanged, ans)
  {
    NP.UpdateAllowListKeeps(n, ans.survey, ans.night);
    hide N.UpdateAllowList, N.ExemptUids;
  }

  lemma OffIsComplete(n: N.Net, night: bool)
    requires !n.enabled
    ensures NP.Complete(n, night)
  {
  }

  /** A step of the whole service that starts with everybody exempt on the trust list of the
      enabled firewall ends so, except exactly for an overlooked application. */
  lemma StepKeepsComplete(s: System, c: Context, step: Step)
    requires Inv(s.m) && InPlace(s) && NP.Guarded(s.net, s.night) && Enabled(s.m, step) && Steady(s, c, step)
    requires NP.Complete(s.net, s.night)
    ensures var r := SystemNext(s, c, step);
            NP.Complete(r.net, r.night) <==> !Overlooking(s, c, step)
  {
    if Delivers(s.m, step) {
      var msg := s.m.queue[0].msg;
      DeliveryFits(s.m);
      assert msg.ConditionChanged? ==> !s.net.idle;
      hide Inv, InPlace, Next, Fits, HandleMessage, NP.Guarded, NP.Complete, NP.Overlooks, N.HandleNetMessage;
      if msg.ConditionChanged? {
        RebuildCompletes(s.net, c.netAns);
      } else {
        if !s.net.enabled {
          OffAnyCondition(s.net, s.night, c.netAns.night);
          OffIsComplete(s.net, c.netAns.night);
        }
        NP.HandleNetMessageKeeps(s.net, msg, c.netAns);
      }
    }
  }

  lemma {:induction false} ExecKeepsComplete(s: System, run: seq<SysMove>)
    requires Inv(s.m) && InPlace(s) && NP.Guarded(s.net, s.night) && NP.Complete(s.net, s.night)
    requires ValidSystemRun(s, run) && AttentiveRun(s, run)
    ensures var r := SystemExec(s, run); NP.Complete(r.net, r.night)
    decreases run
  {
    if run == [] {
    } else {
      StepKeepsPlace(s, run[0].ctx, run[0].step);
      StepKeepsTrust(s, run[0].ctx, run[0].step);
      StepKeepsComplete(s, run[0].ctx, run[0].step);
      hide Inv, InPlace, NP.Guarded, NP.Complete, SystemNext, Steady, Overlooking;
      ExecKeepsComplete(SystemNext(s, run[0].ctx, run[0].step), run[1..]);
    }
  }

  /** In every run in which the condition does not change behind the trust list and no application
      is overlooked, the trust list of the enabled firewall is exactly the tracked applications
      that are exempt. */
  lemma TrustIsExact(cfg: Config, screenOn: bool, run: seq<SysMove>)
    requires ValidSystemRun(SystemInitial(cfg, screenOn), run)
    requires AttentiveRun(SystemInitial(cfg, screenOn), run)
    ensures var s := SystemExec(SystemInitial(cfg, screenOn), run);
            s.net.enabled ==> s.net.trust == N.ExemptUids(s.net.apps, s.night)
  {
    InitialHolds(cfg, screenOn);
    hide Inv, N.ExemptUids;
    ExecKeepsComplete(SystemInitial(cfg, screenOn), run);
  }
}
