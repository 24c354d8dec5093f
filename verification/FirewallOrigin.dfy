/** Where the table of the network strategy comes from: the survey it was rebuilt from last, and
    the applications that messages have added since. */
module FirewallOrigin {
  import opened StandbyTypes
  import opened StandbyMachine
  import opened StandbyInvariant
  import opened StandbySystem
  import opened ExemptionFlags
  import opened NetworkRules
  import NP = NetworkProofs
  import R = RunningLockRules

  /** The survey behind the table and the uids named by messages since, if there is one. */
  datatype Origin = NoSurvey | Surveyed(survey: NetSurvey, since: set<int>)

  function Rebuilt(s: NetSurvey): Origin {
    if s.available then Surveyed(s, {}) else NoSurvey
  }

  function Naming(o: Origin, uid: int): Origin {
    if o.Surveyed? then o.(since := o.since + {uid}) else o
  }

  /** The origin of the table after a message. Only a rebuild gives the table an origin, and only a
      failed rebuild or leaving SLEEP or MAINTENANCE for another state takes it away. */
  function OriginAfter(o: Origin, n: Net, msg: Message, ans: NetAnswers): Origin {
    match msg
    case ConditionChanged => Rebuilt(ans.survey)
    case PhaseTransit(state, _, phase) =>
      if state == Sleep && phase == APP_RES_DEEP && !n.enabled then Rebuilt(ans.survey) else o
    case StateTransit(pre, cur) =>
      if pre in {Sleep, Maintenance} && {pre, cur} != {Sleep, Maintenance} then NoSurvey else o
    case AllowListChanged(uid, _, _, _) => Naming(o, uid)
    case BgTaskStatus(_, _, uid, _) => Naming(o, uid)
    case ProcessState(uid, _, _, _) => Naming(o, uid)
    case _ => o
  }

  /** The origin after a run of the whole service that starts with the origin `o`. */
  function OriginOf(s: System, o: Origin, run: seq<SysMove>): Origin
    requires ValidSystemRun(s, run)
    decreases run
  {
    if run == [] then o
    else OriginOf(SystemNext(s, run[0].ctx, run[0].step), OriginNext(s, o, run[0].ctx, run[0].step), run[1..])
  }

  function OriginNext(s: System, o: Origin, c: Context, step: Step): Origin {
    if Delivers(s.m, step) then OriginAfter(o, s.net, s.m.queue[0].msg, c.netAns) else o
  }

  // ---------------------------------------------------------------- what the table holds

  function UidsOf(procs: seq<(int, string)>): set<int> {
    set p | p in procs :: p.0
  }

  /** Everybody tracked ran when the survey was made, or was named by a message since. */
  predicate Explains(o: Origin, n: Net) {
    o.Surveyed? ==> o.survey.available && n.apps.Keys <= UidsOf(o.survey.procs) + o.since
  }

  lemma RebuiltKeys(s: NetSurvey, night: bool)
    ensures RebuildNet(s, night).Keys == UidsOf(s.procs)
  {
    forall u
      ensures u in RebuildNet(s, night) <==> u in UidsOf(s.procs)
    {
      NP.RebuiltNetEntry(s, night, u);
      NP.CollectedRunning(s.procs, u);
      hide RebuildNet, CollectRunning, NP.Marked, Conditioned, NP.IsTrackedAs;
    }
  }

  /** A message about one uid tracks nobody else. */
  lemma OneUid(n: Net, uid: int, name: string, flag: bv8, ans: NetAnswers)
    ensures AddNetFlag(n, uid, name, flag, ans).apps.Keys <= n.apps.Keys + {uid}
    ensures RemoveNetFlag(n, uid, flag, ans).apps.Keys <= n.apps.Keys
    ensures NetProcessCreated(n, uid, name, ans).apps.Keys <= n.apps.Keys + {uid}
    ensures NetProcessDied(n, uid, ans).apps.Keys <= n.apps.Keys
  {
    hide NewNetFlag, Raised, Conditioned, With, Without, BecomesExempted, IsFlagExempted;
  }

  /** Whatever message arrives, the origin explains the table. */
  lemma MessageExplains(o: Origin, n: Net, msg: Message, ans: NetAnswers)
    requires Explains(o, n)
    ensures Explains(OriginAfter(o, n, msg, ans), HandleNetMessage(n, msg, ans))
  {
    RebuiltKeys(ans.survey, ans.night);
    hide RebuildNet, ExemptUids, UidsOf, AddNetFlag, RemoveNetFlag, NetProcessCreated, NetProcessDied;
    match msg
    case AllowListChanged(uid, name, _, _) => OneUid(n, uid, name, EXEMPTION, ans);
    case BgTaskStatus(task, _, uid, name) =>
      OneUid(n, uid, if name == "" then ans.bundleName else name, TaskFlag(task), ans);
    case ProcessState(uid, _, name, _) => OneUid(n, uid, name, 0, ans);
    case _ =>
  }

  // ---------------------------------------------------------------- an enabled firewall without a survey

  /** The enabled firewall has a surveyed table. */
  predicate Vouched(o: Origin, n: Net) {
    n.enabled ==> o.Surveyed?
  }

  /** The message leaves the firewall enabled over a table without a survey: SLEEP resumes over
      such a table, or the rebuild at the switch of day and night fails. */
  predicate Blinds(o: Origin, n: Net, msg: Message, ans: NetAnswers) {
    match msg
    case StateTransit(pre, cur) => pre == Maintenance && cur == Sleep && o.NoSurvey?
    case ConditionChanged => n.enabled && !ans.survey.available
    case _ => false
  }

  lemma MessageVouches(o: Origin, n: Net, msg: Message, ans: NetAnswers)
    requires Vouched(o, n)
    ensures Vouched(OriginAfter(o, n, msg, ans), HandleNetMessage(n, msg, ans)) <==> !Blinds(o, n, msg, ans)
  {
    hide RebuildNet, ExemptUids, NewNetFlag, Raised, Conditioned;
  }

  predicate Blinding(s: System, o: Origin, c: Context, step: Step) {
    Delivers(s.m, step) && Blinds(o, s.net, s.m.queue[0].msg, c.netAns)
  }

  /** No step of the run leaves the firewall enabled without a survey. */
  predicate SightedRun(s: System, o: Origin, run: seq<SysMove>)
    requires ValidSystemRun(s, run)
    decreases run
  {
    run == [] ||
    (&& !Blinding(s, o, run[0].ctx, run[0].step)
     && SightedRun(SystemNext(s, run[0].ctx, run[0].step), OriginNext(s, o, run[0].ctx, run[0].step), run[1..]))
  }

  /** One step, from an explained table: it stays explained, and the enabled firewall keeps a
      surveyed table if and only if the step is not one of the two. */
  lemma StepKeepsOrigin(s: System, o: Origin, c: Context, step: Step)
    requires Enabled(s.m, step) && Explains(o, s.net)
    ensures var r, q := SystemNext(s, c, step), OriginNext(s, o, c, step);
            && Explains(q, r.net)
            && (Vouched(o, s.net) ==> (Vouched(q, r.net) <==> !Blinding(s, o, c, step)))
  {
    if Delivers(s.m, step) {
      var msg := s.m.queue[0].msg;
      MessageExplains(o, s.net, msg, c.netAns);
      if Vouched(o, s.net) { MessageVouches(o, s.net, msg, c.netAns); }
      hide Next, R.HandleMessage, HandleNetMessage, OriginAfter, Blinds, Explains, Vouched;
    }
  }

  lemma {:induction false} ExecKeepsOrigin(s: System, o: Origin, run: seq<SysMove>)
    requires ValidSystemRun(s, run) && Explains(o, s.net)
    ensures Explains(OriginOf(s, o, run), SystemExec(s, run).net)
    ensures Vouched(o, s.net) && SightedRun(s, o, run) ==> Vouched(OriginOf(s, o, run), SystemExec(s, run).net)
    decreases run
  {
    if run != [] {
      var c, step := run[0].ctx, run[0].step;
      StepKeepsOrigin(s, o, c, step);
      hide SystemNext, OriginNext, Blinding, Explains, Vouched;
      ExecKeepsOrigin(SystemNext(s, c, step), OriginNext(s, o, c, step), run[1..]);
    }
  }

  /** In every run of the whole service the table holds only applications that ran when the last
      survey was made or were named by a message since, and as long as no maintenance of SLEEP
      ends over a table without a survey and no rebuild at the switch of day and night fails, the
      firewall is enabled only with such a table. */
  lemma EnabledMeansSurveyed(cfg: Config, screenOn: bool, run: seq<SysMove>)
    requires ValidSystemRun(SystemInitial(cfg, screenOn), run)
    ensures var s0 := SystemInitial(cfg, screenOn);
            var n, o := SystemExec(s0, run).net, OriginOf(s0, NoSurvey, run);
            && (o.Surveyed? ==> o.survey.available && n.apps.Keys <= UidsOf(o.survey.procs) + o.since)
            && (SightedRun(s0, NoSurvey, run) && n.enabled ==> o.Surveyed?)
  {
    var s0 := SystemInitial(cfg, screenOn);
    ExecKeepsOrigin(s0, NoSurvey, run);
    hide SystemExec, OriginOf, SightedRun, UidsOf;
  }
}
