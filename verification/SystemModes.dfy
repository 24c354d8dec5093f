/** When the strategies are on: decided by the delivered messages alone, in both directions. */
module SystemModes {
  import opened StandbyTypes
  import opened StandbyMachine
  import opened StandbyInvariant
  import opened StandbySystem
  import opened ExemptionFlags
  import N = NetworkRules
  import R = RunningLockRules
  import RP = RunningLockProofs
  import RS = RunningLockSurvey

  /** SLEEP has completed the phase from which restrictions hold (phase 1). */
  predicate IsDeep(msg: Message) {
    msg.PhaseTransit? && msg.state == Sleep && msg.curPhase == 1
  }

  /** SLEEP is interrupted, or an interruption ends in SLEEP. */
  predicate IsPause(msg: Message) {
    msg == StateTransit(Sleep, Maintenance) || msg == StateTransit(Maintenance, Sleep)
  }

  /** SLEEP or MAINTENANCE is left for good. */
  predicate IsLeaving(msg: Message) {
    msg.StateTransit? && msg.pre in {Sleep, Maintenance} && !IsPause(msg)
  }

  // ---------------------------------------------------------------- the running-lock strategy

  /** The deep phase was reached after SLEEP or MAINTENANCE was last left. */
  predicate Deep(log: seq<Message>) {
    log != [] &&
    var msg := log[|log| - 1];
    IsDeep(msg) || (!IsLeaving(msg) && Deep(log[..|log| - 1]))
  }

  /** The proxy is on from the deep phase until SLEEP is left, and paused during maintenance. */
  predicate ProxyFits(r: R.Proxy, log: seq<Message>) {
    && r.proxied == Deep(log)
    && r.idle == (Deep(log) && EndOf(log) == Maintenance)
    && (Deep(log) ==> EndOf(log) in {Sleep, Maintenance})
  }

  /** The survey succeeds whenever the strategy needs one to start. */
  predicate LockAnswers(r: R.Proxy, msg: Message, ans: R.Answers) {
    IsDeep(msg) && !r.proxied ==> ans.survey.available
  }

  lemma ProxyStep(r: R.Proxy, cfg: Config, log: seq<Message>, msg: Message, ans: R.Answers)
    requires ProxyFits(r, log) && Fits(cfg, log, msg) && LockAnswers(r, msg, ans)
    ensures ProxyFits(R.HandleMessage(r, msg, ans), log + [msg])
  {
    assert (log + [msg])[..|log|] == log;
    EndOfMore(log, msg);
    hide EndOf, Deep;
    DeepMore(log, msg);
    ModeStep(r, msg, ans);
    hide R.HandleMessage;
  }

  lemma DeepMore(log: seq<Message>, msg: Message)
    ensures Deep(log + [msg]) == (IsDeep(msg) || (!IsLeaving(msg) && Deep(log)))
  {
    assert (log + [msg])[..|log|] == log;
  }

  /** How a message switches the proxy: on exactly in the deep phase with a survey that succeeds, off
      exactly when SLEEP or its maintenance is left. */
  lemma ModeStep(r: R.Proxy, msg: Message, ans: R.Answers)
    ensures var q := R.HandleMessage(r, msg, ans);
            && q.proxied == (if r.proxied then !IsLeaving(msg) else IsDeep(msg) && ans.survey.available)
            && q.idle == (if !r.proxied && q.proxied then false
                          else if r.proxied && (IsPause(msg) || IsLeaving(msg)) then msg == StateTransit(Sleep, Maintenance)
                          else r.idle)
  {
    hide R.Restricted, R.Rebuild;
    match msg
    case AllowListChanged(uid, name, _, _) => FlagsKeepPlace(r, uid, name, EXEMPTION);
    case BgTaskStatus(task, _, uid, name) =>
      FlagsKeepPlace(r, uid, if name == "" then ans.bundleName else name, TaskFlag(task));
      hide R.AddFlag, R.RemoveFlag;
    case ConditionChanged =>
      UpdateKeepsPlace(r, ans.survey);
      hide R.UpdateResource;
    case ProcessState(uid, pid, name, _) =>
      ProcessesKeepPlace(r, uid, pid, name, NewFlag(ans.newcomer, name));
      hide R.ProcessCreated, R.ProcessDied;
    case SysAbility(_, _) =>
      ResetKeepsPlace(r);
      hide R.ResetStatus;
    case _ =>
  }

  // ---------------------------------------------------------------- the network strategy

  /** Since SLEEP was last left or interrupted, its deep phase was reached, it was resumed, or day
      and night switched. */
  predicate Shut(log: seq<Message>) {
    log != [] &&
    var msg := log[|log| - 1];
    || IsDeep(msg) || msg.ConditionChanged? || msg == StateTransit(Maintenance, Sleep)
    || (!IsLeaving(msg) && msg != StateTransit(Sleep, Maintenance) && Shut(log[..|log| - 1]))
  }

  /** The last transition was the interruption of SLEEP. */
  predicate Interrupted(log: seq<Message>) {
    log != [] &&
    var msg := log[|log| - 1];
    if msg.StateTransit? then msg == StateTransit(Sleep, Maintenance) else Interrupted(log[..|log| - 1])
  }

  /** The firewall and its policy are on exactly then, and suspended in the maintenance of SLEEP. */
  predicate NetFits(n: N.Net, log: seq<Message>) {
    && n.enabled == Shut(log) && n.policy == Shut(log) && n.idle == Interrupted(log)
    && (Shut(log) ==> EndOf(log) == Sleep) && (Interrupted(log) ==> EndOf(log) == Maintenance)
  }

  /** Every survey that the message asks for succeeds. */
  predicate NetAnswered(n: N.Net, msg: Message, ans: N.NetAnswers) {
    (IsDeep(msg) && !n.enabled) || msg.ConditionChanged? ==> ans.survey.available
  }

  lemma ShutMore(log: seq<Message>, msg: Message)
    ensures Shut(log + [msg]) ==
            (IsDeep(msg) || msg.ConditionChanged? || msg == StateTransit(Maintenance, Sleep)
             || (!IsLeaving(msg) && msg != StateTransit(Sleep, Maintenance) && Shut(log)))
    ensures Interrupted(log + [msg])
         == if msg.StateTransit? then msg == StateTransit(Sleep, Maintenance) else Interrupted(log)
  {
    assert (log + [msg])[..|log|] == log;
  }

  /** The firewall comes on, is left or interrupted, or stays. A survey that fails leaves it as it was
      in the deep phase, and ends the policy at the switch of day and night. */
  predicate Switches(n: N.Net, r: N.Net, msg: Message, ans: N.NetAnswers) {
    if !NetAnswered(n, msg, ans)
    then r.enabled == n.enabled && r.idle == n.idle && r.policy == (n.policy && IsDeep(msg))
    else if (IsDeep(msg) && !n.enabled) || msg.ConditionChanged? || msg == StateTransit(Maintenance, Sleep)
    then r.enabled && r.policy && (r.idle == (n.idle && msg.ConditionChanged?))
    else if IsLeaving(msg) || msg == StateTransit(Sleep, Maintenance)
    then !r.enabled && !r.policy && r.idle == (msg == StateTransit(Sleep, Maintenance))
    else r.enabled == n.enabled && r.policy == n.policy && r.idle == n.idle
  }

  /** How every message switches the firewall. */
  lemma NetModeStep(n: N.Net, msg: Message, ans: N.NetAnswers)
    ensures Switches(n, N.HandleNetMessage(n, msg, ans), msg, ans)
  {
    hide Switches, N.StopLimit, N.StartLimit, N.UpdateAllowList;
    match msg
    case AllowListChanged(uid, name, _, _) =>
      FlagsKeepModes(n, uid, name, EXEMPTION, ans);
      hide N.AddNetFlag, N.RemoveNetFlag;
      SameSwitches(n, N.HandleNetMessage(n, msg, ans), msg, ans);
    case ConditionChanged => RebuildSwitches(n, msg, ans);
    case PhaseTransit(_, _, _) => PhaseSwitches(n, msg, ans);
    case StateTransit(_, _) => StateSwitches(n, msg, ans);
    case BgTaskStatus(task, _, uid, name) =>
      FlagsKeepModes(n, uid, if name == "" then ans.bundleName else name, TaskFlag(task), ans);
      hide N.AddNetFlag, N.RemoveNetFlag;
      SameSwitches(n, N.HandleNetMessage(n, msg, ans), msg, ans);
    case ProcessState(uid, _, name, _) =>
      ProcessesKeepModes(n, uid, name, ans);
      hide N.NetProcessCreated, N.NetProcessDied;
      SameSwitches(n, N.HandleNetMessage(n, msg, ans), msg, ans);
    case _ => SameSwitches(n, n, msg, ans);
  }

  lemma SameSwitches(n: N.Net, r: N.Net, msg: Message, ans: N.NetAnswers)
    requires SameModes(n, r) && !msg.PhaseTransit? && !msg.StateTransit? && !msg.ConditionChanged?
    ensures Switches(n, r, msg, ans)
  {
  }

  lemma RebuildSwitches(n: N.Net, msg: Message, ans: N.NetAnswers)
    requires msg.ConditionChanged?
    ensures Switches(n, N.UpdateAllowList(n, ans.survey, ans.night), msg, ans)
  {
    hide N.ExemptUids, N.RebuildNet;
  }

  lemma PhaseSwitches(n: N.Net, msg: Message, ans: N.NetAnswers)
    requires msg.PhaseTransit?
    ensures Switches(n, N.StartLimit(n, msg.state, msg.curPhase, ans.survey, ans.night), msg, ans)
  {
    hide N.ExemptUids, N.RebuildNet;
  }

  lemma StateSwitches(n: N.Net, msg: Message, ans: N.NetAnswers)
    requires msg.StateTransit?
    ensures Switches(n, N.StopLimit(n, msg.pre, msg.cur, ans.night), msg, ans)
  {
    hide N.ExemptUids;
  }

  /** The table after a message that is not about an application: surveyed anew, as far as the
      services answer, gone when SLEEP or its maintenance is left, and else kept. */
  lemma NetTable(n: N.Net, msg: Message, ans: N.NetAnswers)
    requires !msg.AllowListChanged? && !msg.BgTaskStatus? && !msg.ProcessState?
    ensures N.HandleNetMessage(n, msg, ans).apps
         == if msg.ConditionChanged? || (IsDeep(msg) && !n.enabled)
            then if ans.survey.available then N.RebuildNet(ans.survey, ans.night) else ans.survey.partial
            else if IsLeaving(msg) then map[]
            else n.apps
  {
    hide N.ExemptUids, N.RebuildNet;
  }

  predicate SameModes(n: N.Net, r: N.Net) {
    r.enabled == n.enabled && r.policy == n.policy && r.idle == n.idle
  }

  lemma FlagsKeepModes(n: N.Net, uid: int, name: string, flag: bv8, ans: N.NetAnswers)
    ensures SameModes(n, N.AddNetFlag(n, uid, name, flag, ans)) && SameModes(n, N.RemoveNetFlag(n, uid, flag, ans))
  {
  }

  lemma ProcessesKeepModes(n: N.Net, uid: int, name: string, ans: N.NetAnswers)
    ensures SameModes(n, N.NetProcessCreated(n, uid, name, ans)) && SameModes(n, N.NetProcessDied(n, uid, ans))
  {
  }

  lemma NetFitsStep(n: N.Net, cfg: Config, log: seq<Message>, msg: Message, ans: N.NetAnswers)
    requires NetFits(n, log) && Fits(cfg, log, msg) && NetAnswered(n, msg, ans)
    ensures NetFits(N.HandleNetMessage(n, msg, ans), log + [msg])
  {
    EndOfMore(log, msg);
    ShutMore(log, msg);
    NetModeStep(n, msg, ans);
    hide EndOf, Shut, Interrupted, N.HandleNetMessage;
  }

  // ---------------------------------------------------------------- whole runs

  /** Every survey that the step asks for succeeds. */
  predicate Answered(s: System, c: Context, step: Step) {
    Delivers(s.m, step) ==>
      LockAnswers(s.proxy, s.m.queue[0].msg, c.lockAns) && NetAnswered(s.net, s.m.queue[0].msg, c.netAns)
  }

  predicate AnsweredRun(s: System, run: seq<SysMove>)
    requires ValidSystemRun(s, run)
    decreases run
  {
    run == [] ||
    (Answered(s, run[0].ctx, run[0].step) && AnsweredRun(SystemNext(s, run[0].ctx, run[0].step), run[1..]))
  }

  predicate ModesFit(s: System) {
    ProxyFits(s.proxy, s.m.hist.done) && NetFits(s.net, s.m.hist.done)
  }

  lemma StepKeepsModes(s: System, c: Context, step: Step)
    requires Inv(s.m) && ModesFit(s) && Enabled(s.m, step) && Answered(s, c, step)
    ensures Inv(SystemNext(s, c, step).m) && ModesFit(SystemNext(s, c, step))
  {
    NextKeeps(s.m, c.env, step);
    ToldAfter(s.m, c.env, step);
    if Delivers(s.m, step) {
      var msg, log := s.m.queue[0].msg, s.m.hist.done;
      DeliveryFits(s.m);
      hide Inv, Next, R.HandleMessage, N.HandleNetMessage, Fits, ProxyFits, NetFits, LockAnswers, NetAnswered;
      ProxyStep(s.proxy, s.m.cfg, log, msg, c.lockAns);
      NetFitsStep(s.net, s.m.cfg, log, msg, c.netAns);
    }
  }

  lemma {:induction false} ExecKeepsModes(s: System, run: seq<SysMove>)
    requires Inv(s.m) && ModesFit(s) && ValidSystemRun(s, run) && AnsweredRun(s, run)
    ensures ModesFit(SystemExec(s, run))
    decreases run
  {
    if run != [] {
      StepKeepsModes(s, run[0].ctx, run[0].step);
      hide Inv, ModesFit, SystemNext, Answered;
      ExecKeepsModes(SystemNext(s, run[0].ctx, run[0].step), run[1..]);
    }
  }

  /** In every run of the whole service in which surveys succeed, the delivered messages alone
      decide, in both directions, when restrictions are on: the proxy from the deep phase of SLEEP
      until SLEEP is left, paused in its maintenance; the firewall and its policy from the deep
      phase, a resumption of SLEEP or a switch of day and night until SLEEP is left or interrupted. */
  lemma RestrictionsFollowLog(cfg: Config, screenOn: bool, run: seq<SysMove>)
    requires ValidSystemRun(SystemInitial(cfg, screenOn), run)
    requires AnsweredRun(SystemInitial(cfg, screenOn), run)
    ensures var s := SystemExec(SystemInitial(cfg, screenOn), run);
            var log := s.m.hist.done;
            && (s.proxy.proxied <==> Deep(log)) && (s.proxy.idle <==> Deep(log) && EndOf(log) == Maintenance)
            && (s.net.enabled <==> Shut(log)) && (s.net.policy <==> Shut(log)) && (s.net.idle <==> Interrupted(log))
  {
    InitialHolds(cfg, screenOn);
    hide Inv;
    ExecKeepsModes(SystemInitial(cfg, screenOn), run);
    hide SystemExec, Deep, Shut, Interrupted;
  }

  // ---------------------------------------------------------------- the start

  /** The deep phase holds back exactly whom its survey says. */
  lemma DeepRestricts(r: R.Proxy, msg: Message, ans: R.Answers)
    requires RP.Tidy(r) && IsDeep(msg) && !r.proxied && ans.survey.available
    ensures R.HandleMessage(r, msg, ans).ledger == RS.ToRestrict(ans.survey)
  {
    RP.StartProxyTidy(r, msg.state, msg.curPhase, ans.survey);
    RS.RebuildRestrictsExactly(ans.survey);
    ModeStep(r, msg, ans);
    var q := R.HandleMessage(r, msg, ans);
    assert q.apps == R.Rebuild(ans.survey) by { hide R.Rebuild, R.Restricted; }
    assert q.ledger == R.Restricted(q.apps) by { TidyLedger(q); hide RP.Tidy, R.Restricted, R.Rebuild; }
  }
}
