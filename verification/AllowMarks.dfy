/** What each message does to the mark of an allowed application in the tables of the strategies. */
module AllowMarks {
  import opened StandbyTypes
  import opened ExemptionFlags
  import opened RecordKeys
  import opened AllowSync
  import Store = AllowStore
  import N = NetworkRules
  import NP = NetworkProofs
  import R = RunningLockRules
  import RP = RunningLockProofs
  import RS = RunningLockSurvey
  import M = MaskBits
  import L = AllowListing
  import P = AllowProofs

  // the bits of the allow types 0 and 1
  const NET: bv32 := 1
  const LOCK: bv32 := 2

  /** The flag carries the mark of an allowed application. */
  predicate Allowed(flag: bv8) {
    flag & EXEMPTION != 0
  }

  // ---------------------------------------------------------------- the mark

  lemma MarkSet(flag: bv8)
    ensures Allowed(With(flag, EXEMPTION)) && !Allowed(Without(flag, EXEMPTION))
  {
  }

  lemma OtherBits(flag: bv8, other: bv8)
    requires other & EXEMPTION == 0
    ensures Allowed(With(flag, other)) == Allowed(flag) && Allowed(Without(flag, other)) == Allowed(flag)
  {
  }

  lemma RestrictionKeeps(flag: bv8, more: bv8, conditional: bool)
    ensures Allowed(N.Raised(flag, more, conditional)) == Allowed(With(flag, more))
    ensures Allowed(N.Conditioned(flag, conditional)) == Allowed(flag)
  {
    OtherBits(With(flag, more), RESTRICTED);
    OtherBits(flag, RESTRICTED);
    assert RESTRICTED & EXEMPTION == 0;
    hide Allowed, With, Without;
  }

  lemma TaskBits(task: BgTaskType)
    ensures TaskFlag(task) & EXEMPTION == 0
  {
  }

  lemma NewMark(n: Newcomer, name: string)
    ensures Allowed(NewFlag(n, name)) == (name in n.allowed)
  {
    OtherBits(0, UNRESTRICTED);
    var f := if n.system then With(0, UNRESTRICTED) else 0;
    assert UNRESTRICTED & EXEMPTION == 0 && RESTRICTED & EXEMPTION == 0 && !Allowed(0);
    MarkSet(f);
    OtherBits(WithAllowed(f, n.allowed, name), RESTRICTED);
    hide Allowed, With, Without;
  }

  lemma NewNetMark(ans: N.NetAnswers, name: string)
    ensures Allowed(N.NewNetFlag(ans, name)) == (name in ans.newcomer.allowed)
  {
    NewMark(ans.newcomer, name);
    RestrictionKeeps(NewFlag(ans.newcomer, name), 0, name in ans.conditional);
    hide Allowed, NewFlag, N.Conditioned, With;
  }

  // ---------------------------------------------------------------- the network strategy

  /** The lists answer for this application as the store does. */
  predicate Agrees(listed: bool, s: Store.Store, uid: int, name: string, kind: bv32) {
    listed <==> Stored(s, uid, name, kind)
  }

  /** The table that a survey leaves carries the marks of the store. */
  predicate NetSurveyAgrees(v: N.NetSurvey, s: Store.Store) {
    if v.available
    then forall u :: u in N.CollectRunning(v.procs) ==>
           Agrees(N.CollectRunning(v.procs)[u].name in v.allowed, s, u, N.CollectRunning(v.procs)[u].name, NET)
    else forall u :: u in v.partial ==> Agrees(Allowed(v.partial[u].flag), s, u, v.partial[u].name, NET)
  }

  /** What the network strategy relies on: surveys and lookups agree with the store, and a notice
      about a tracked application carries its name and finds the firewall enabled. */
  predicate NetAttuned(n: N.Net, msg: Message, ans: N.NetAnswers, s: Store.Store) {
    match msg
    case AllowListChanged(uid, name, allowType, _) =>
      allowType & NET != 0 && uid in n.apps ==> n.enabled && n.apps[uid].name == name
    case ConditionChanged => NetSurveyAgrees(ans.survey, s)
    case PhaseTransit(state, _, phase) =>
      state == Sleep && phase == APP_RES_DEEP && !n.enabled ==> NetSurveyAgrees(ans.survey, s)
    case BgTaskStatus(_, started, uid, name) =>
      var bundle := if name == "" then ans.bundleName else name;
      n.enabled && started && uid !in n.apps ==> Agrees(bundle in ans.newcomer.allowed, s, uid, bundle, NET)
    case ProcessState(uid, _, name, created) =>
      n.enabled && created && uid !in n.apps ==> Agrees(name in ans.newcomer.allowed, s, uid, name, NET)
    case _ => true
  }

  /** The entry was there and took the message in, or it is new and took it in on top of what the
      store says. */
  predicate TakesIn(before: bool, was: bool, after: bool, msg: Message, s: Store.Store, uid: int, name: string,
                    kind: bv32)
  {
    || (before && after == After(was, msg, uid, name, kind))
    || after == After(Stored(s, uid, name, kind), msg, uid, name, kind)
  }

  predicate NetFollows(n: N.Net, r: N.Net, msg: Message, s: Store.Store, u: int) {
    u in r.apps ==>
      var name := r.apps[u].name;
      TakesIn(u in n.apps && n.apps[u].name == name, u in n.apps && Allowed(n.apps[u].flag), Allowed(r.apps[u].flag),
              msg, s, u, name, NET)
  }

  lemma SurveyMark(v: N.NetSurvey, night: bool, s: Store.Store, u: int)
    requires v.available && NetSurveyAgrees(v, s) && u in N.RebuildNet(v, night)
    ensures var a := N.RebuildNet(v, night)[u]; Allowed(a.flag) == Stored(s, u, a.name, NET)
  {
    NP.RebuiltNetEntry(v, night, u);
    NP.CollectedRunning(v.procs, u);
    var a := N.CollectRunning(v.procs)[u];
    MarkedMark(u in N.SystemUids(v.systems), u in N.Listed(v.foreground), u in N.ContinuousUids(v.continuous, night),
               u in N.Listed(v.transient), u in N.Listed(v.works), a.name in v.allowed, a.name in v.restricted);
    var flag := NP.Marked(a.flag, u in N.SystemUids(v.systems), u in N.Listed(v.foreground),
                          u in N.ContinuousUids(v.continuous, night), u in N.Listed(v.transient),
                          u in N.Listed(v.works), a.name in v.allowed, a.name in v.restricted);
    RestrictionKeeps(flag, 0, a.name in v.conditional);
    assert Agrees(a.name in v.allowed, s, u, a.name, NET);
    hide Allowed, NP.Marked, N.RebuildNet, N.CollectRunning, N.Conditioned, N.SystemUids, N.ContinuousUids, N.Listed,
         Stored;
  }

  lemma MarkedMark(system: bool, fg: bool, cont: bool, trans: bool, work: bool, allowed: bool, restricted: bool)
    ensures Allowed(NP.Marked(0, system, fg, cont, trans, work, allowed, restricted)) == allowed
  {
  }

  lemma RaisedMark(f: bv8, flag: bv8, conditional: bool)
    ensures Allowed(With(N.Raised(f, flag, conditional), flag)) == (Allowed(f) || Allowed(flag))
    ensures Allowed(N.Conditioned(Without(f, flag), conditional)) == (Allowed(f) && !Allowed(flag))
  {
  }

  /** Adding a reason: the others stay, and a new entry starts with the marks of the lists. */
  lemma AddedMark(n: N.Net, uid: int, name: string, flag: bv8, ans: N.NetAnswers, u: int)
    ensures var r := N.AddNetFlag(n, uid, name, flag, ans);
            u in r.apps ==>
              if u != uid || !n.enabled then u in n.apps && r.apps[u] == n.apps[u]
              else if u in n.apps
              then r.apps[u].name == n.apps[u].name
                   && Allowed(r.apps[u].flag) == (Allowed(n.apps[u].flag) || Allowed(flag))
              else r.apps[u].name == name && Allowed(r.apps[u].flag) == (name in ans.newcomer.allowed || Allowed(flag))
  {
    hide Allowed, With, Without, N.Raised, N.Conditioned, N.NewNetFlag, BecomesExempted;
    var f := if uid in n.apps then n.apps[uid].flag else N.NewNetFlag(ans, name);
    RaisedMark(f, flag, name in ans.conditional);
    NewNetMark(ans, name);
    if n.enabled { AddedEntry(n, uid, name, flag, ans); }
    hide N.AddNetFlag;
  }

  lemma AddedEntry(n: N.Net, uid: int, name: string, flag: bv8, ans: N.NetAnswers)
    requires n.enabled
    ensures var a := if uid in n.apps then n.apps[uid] else N.NetApp(name, N.NewNetFlag(ans, name));
            N.AddNetFlag(n, uid, name, flag, ans).apps
            == n.apps[uid := a.(flag := With(N.Raised(a.flag, flag, name in ans.conditional), flag))]
  {
    hide With, Without, N.Raised, N.NewNetFlag, BecomesExempted;
  }

  lemma RemovedMark(n: N.Net, uid: int, flag: bv8, ans: N.NetAnswers, u: int)
    ensures var r := N.RemoveNetFlag(n, uid, flag, ans);
            u in r.apps ==>
              && u in n.apps
              && if u != uid || !n.enabled then r.apps[u] == n.apps[u]
                 else r.apps[u].name == n.apps[u].name
                      && Allowed(r.apps[u].flag) == (Allowed(n.apps[u].flag) && !Allowed(flag))
  {
    if uid in n.apps { RaisedMark(n.apps[uid].flag, flag, n.apps[uid].name in ans.conditional); }
    hide Allowed, With, Without, N.Raised, N.Conditioned, BecomesExempted;
  }

  lemma ProcessMark(n: N.Net, uid: int, name: string, ans: N.NetAnswers, u: int)
    ensures var r := N.NetProcessCreated(n, uid, name, ans);
            u in r.apps ==>
              if u in n.apps then r.apps[u] == n.apps[u]
              else n.enabled && u == uid && r.apps[u].name == name
                   && Allowed(r.apps[u].flag) == (name in ans.newcomer.allowed)
    ensures var r := N.NetProcessDied(n, uid, ans);
            u in r.apps ==> u in n.apps && r.apps[u] == n.apps[u]
  {
    NewNetMark(ans, name);
    hide Allowed, N.NewNetFlag, IsFlagExempted;
  }

  /** A notice about the allow list. */
  lemma NoticeMark(n: N.Net, msg: Message, ans: N.NetAnswers, s: Store.Store, u: int)
    requires msg.AllowListChanged? && NetAttuned(n, msg, ans, s)
    ensures NetFollows(n, N.HandleNetMessage(n, msg, ans), msg, s, u)
  {
    AddedMark(n, msg.uid, msg.name, EXEMPTION, ans, u);
    RemovedMark(n, msg.uid, EXEMPTION, ans, u);
    assert Allowed(EXEMPTION);
    hide Allowed, N.AddNetFlag, N.RemoveNetFlag, Stored;
  }

  /** A task that starts or ends. */
  lemma TaskMark(n: N.Net, msg: Message, ans: N.NetAnswers, s: Store.Store, u: int)
    requires msg.BgTaskStatus? && NetAttuned(n, msg, ans, s)
    ensures NetFollows(n, N.HandleNetMessage(n, msg, ans), msg, s, u)
  {
    AddedMark(n, msg.uid, if msg.name == "" then ans.bundleName else msg.name, TaskFlag(msg.task), ans, u);
    RemovedMark(n, msg.uid, TaskFlag(msg.task), ans, u);
    TaskBits(msg.task);
    assert !Allowed(TaskFlag(msg.task));
    hide Allowed, N.AddNetFlag, N.RemoveNetFlag, Stored, TaskFlag;
  }

  lemma ProcessesMark(n: N.Net, msg: Message, ans: N.NetAnswers, s: Store.Store, u: int)
    requires msg.ProcessState? && NetAttuned(n, msg, ans, s)
    ensures NetFollows(n, N.HandleNetMessage(n, msg, ans), msg, s, u)
  {
    ProcessMark(n, msg.uid, msg.name, ans, u);
    hide Allowed, N.NetProcessCreated, N.NetProcessDied, Stored;
  }

  lemma RebuiltTable(n: N.Net, msg: Message, ans: N.NetAnswers)
    requires msg.ConditionChanged? || msg.PhaseTransit?
    ensures var apps := N.HandleNetMessage(n, msg, ans).apps;
            || (apps == n.apps && !msg.ConditionChanged?)
            || (apps == (if ans.survey.available then N.RebuildNet(ans.survey, ans.night) else ans.survey.partial)
                && (msg.PhaseTransit? ==> msg.state == Sleep && msg.curPhase == APP_RES_DEEP && !n.enabled))
  {
    hide N.RebuildNet, N.ExemptUids;
  }

  /** A rebuilt table, or the one a failed survey leaves. */
  lemma RebuiltMark(n: N.Net, msg: Message, ans: N.NetAnswers, s: Store.Store, u: int)
    requires (msg.ConditionChanged? || msg.PhaseTransit?) && NetAttuned(n, msg, ans, s)
    ensures NetFollows(n, N.HandleNetMessage(n, msg, ans), msg, s, u)
  {
    RebuiltTable(n, msg, ans);
    var v := ans.survey;
    if v.available && NetSurveyAgrees(v, s) && u in N.RebuildNet(v, ans.night) { SurveyMark(v, ans.night, s, u); }
    if !v.available && NetSurveyAgrees(v, s) && u in v.partial {
      assert Agrees(Allowed(v.partial[u].flag), s, u, v.partial[u].name, NET);
    }
    hide Allowed, N.RebuildNet, N.HandleNetMessage, Stored, NetSurveyAgrees;
  }

  /** Whatever message arrives, every entry of the table follows it. */
  lemma NetMark(n: N.Net, msg: Message, ans: N.NetAnswers, s: Store.Store, u: int)
    requires NetAttuned(n, msg, ans, s)
    ensures NetFollows(n, N.HandleNetMessage(n, msg, ans), msg, s, u)
  {
    if msg.AllowListChanged? { NoticeMark(n, msg, ans, s, u); }
    else if msg.ConditionChanged? || msg.PhaseTransit? { RebuiltMark(n, msg, ans, s, u); }
    else if msg.BgTaskStatus? { TaskMark(n, msg, ans, s, u); }
    else if msg.ProcessState? { ProcessesMark(n, msg, ans, s, u); }
    else { PlaceMark(n, msg, ans, s, u); }
    hide N.HandleNetMessage, NetFollows, NetAttuned;
  }

  /** A transition clears the table or leaves it alone. */
  lemma PlaceMark(n: N.Net, msg: Message, ans: N.NetAnswers, s: Store.Store, u: int)
    requires msg.StateTransit? || msg.CommonEvent? || msg.HalfHour? || msg.SysAbility?
    ensures NetFollows(n, N.HandleNetMessage(n, msg, ans), msg, s, u)
  {
    assert N.HandleNetMessage(n, msg, ans).apps in {n.apps, map[]} by { hide N.ExemptUids; }
    hide Allowed, N.HandleNetMessage, Stored;
  }

  // ---------------------------------------------------------------- the running-lock strategy

  /** The table that a survey leaves carries the marks of the store. */
  predicate LockSurveyAgrees(v: R.Survey, s: Store.Store) {
    v.available ==> forall k :: k in R.RunningApps(v) ==>
      Agrees(R.RunningApps(v)[k].name in v.allowed, s, R.RunningApps(v)[k].uid, R.RunningApps(v)[k].name, LOCK)
  }

  /** What the running-lock strategy relies on: surveys and lookups agree with the store, and a
      notice about a tracked application finds the strategy proxied. */
  predicate LockAttuned(r: R.Proxy, msg: Message, ans: R.Answers, s: Store.Store) {
    match msg
    case AllowListChanged(uid, name, allowType, _) => allowType & LOCK != 0 && Key(uid, name) in r.apps ==> r.proxied
    case ConditionChanged => LockSurveyAgrees(ans.survey, s)
    case PhaseTransit(state, _, phase) =>
      state == Sleep && phase == APP_RES_DEEP && !r.proxied ==> LockSurveyAgrees(ans.survey, s)
    case ProcessState(uid, _, name, created) =>
      r.proxied && created && Key(uid, name) !in r.apps ==> Agrees(name in ans.newcomer.allowed, s, uid, name, LOCK)
    case _ => true
  }

  predicate SameApp(a: R.App, b: R.App) {
    a.uid == b.uid && a.name == b.name
  }

  predicate LockFollows(r: R.Proxy, q: R.Proxy, msg: Message, s: Store.Store, k: string) {
    k in q.apps ==>
      var a := q.apps[k];
      TakesIn(k in r.apps && SameApp(r.apps[k], a), k in r.apps && Allowed(r.apps[k].flag), Allowed(a.flag),
              msg, s, a.uid, a.name, LOCK)
  }

  lemma RunningMark(v: R.Survey, s: Store.Store, k: string)
    requires v.available && LockSurveyAgrees(v, s) && k in R.Rebuild(v)
    ensures var a := R.Rebuild(v)[k]; Allowed(a.flag) == Stored(s, a.uid, a.name, LOCK)
  {
    RS.RebuiltEntry(v, k);
    RS.RunningAppsExactly(v, k);
    var a := R.RunningApps(v)[k];
    var names := R.CollectNames(v.infos);
    assert Agrees(a.name in v.allowed, s, a.uid, a.name, LOCK);
    RunningBits(a.flag == UNRESTRICTED, k in R.KeysOf(v.foreground), k in R.ContinuousKeys(v.continuous, names),
                k in R.KeysOf(v.transient), k in R.KeysOf(v.works), a.name in v.allowed, a.name in v.restricted);
    hide Allowed, R.Rebuild, R.RunningApps, R.CollectNames, R.KeysOf, R.ContinuousKeys, FlagIf, RS.Runs, Key, Stored;
  }

  lemma RunningBits(system: bool, fg: bool, cont: bool, trans: bool, work: bool, allowed: bool, restricted: bool)
    ensures Allowed((if system then UNRESTRICTED else 0) | FlagIf(fg, FOREGROUND_APP) | FlagIf(cont, CONTINUOUS_TASK)
                    | FlagIf(trans, TRANSIENT_TASK) | FlagIf(work, WORK_SCHEDULER) | FlagIf(allowed, EXEMPTION)
                    | FlagIf(restricted, RESTRICTED)) == allowed
  {
  }

  lemma MarkBits(flag: bv8, more: bv8)
    ensures Allowed(With(flag, more)) == (Allowed(flag) || Allowed(more))
    ensures Allowed(Without(flag, more)) == (Allowed(flag) && !Allowed(more))
  {
  }

  /** The entry of `k` after a reason was added. */
  lemma LockAdded(r: R.Proxy, uid: int, name: string, flag: bv8, k: string)
    ensures var q := R.AddFlag(r, uid, name, flag);
            k in q.apps ==> k in r.apps && SameApp(q.apps[k], r.apps[k])
                            && Allowed(q.apps[k].flag)
                               == (Allowed(r.apps[k].flag) || (r.proxied && k == Key(uid, name) && Allowed(flag)))
  {
    if k in r.apps { MarkBits(r.apps[k].flag, flag); }
    hide Allowed, With, IsExempted, Key, R.PidsOf;
  }

  /** The entry of `k` after a reason was taken away. */
  lemma LockRemoved(r: R.Proxy, uid: int, name: string, flag: bv8, k: string)
    ensures var q := R.RemoveFlag(r, uid, name, flag);
            k in q.apps ==> k in r.apps && SameApp(q.apps[k], r.apps[k])
                            && Allowed(q.apps[k].flag)
                               == (Allowed(r.apps[k].flag) && !(k == Key(uid, name) && Allowed(flag)))
  {
    if k in r.apps { MarkBits(r.apps[k].flag, flag); }
    hide Allowed, Without, IsExempted, Key, R.PidsOf;
  }

  lemma LockNotice(r: R.Proxy, msg: Message, ans: R.Answers, s: Store.Store, k: string)
    requires msg.AllowListChanged? && LockAttuned(r, msg, ans, s) && RP.Keyed(r.apps)
    ensures LockFollows(r, R.HandleMessage(r, msg, ans), msg, s, k)
  {
    LockAdded(r, msg.uid, msg.name, EXEMPTION, k);
    LockRemoved(r, msg.uid, msg.name, EXEMPTION, k);
    if k in r.apps {
      var a := r.apps[k];
      assert k == Key(a.uid, a.name);
      if k == Key(msg.uid, msg.name) { KeyIsInjective(a.uid, a.name, msg.uid, msg.name); }
    }
    assert Allowed(EXEMPTION);
    hide Allowed, R.AddFlag, R.RemoveFlag, Key, Stored, RP.Keyed;
  }

  lemma LockTask(r: R.Proxy, msg: Message, ans: R.Answers, s: Store.Store, k: string)
    requires msg.BgTaskStatus?
    ensures LockFollows(r, R.HandleMessage(r, msg, ans), msg, s, k)
  {
    var bundle := if msg.name == "" then ans.bundleName else msg.name;
    LockAdded(r, msg.uid, bundle, TaskFlag(msg.task), k);
    LockRemoved(r, msg.uid, bundle, TaskFlag(msg.task), k);
    TaskBits(msg.task);
    assert !Allowed(TaskFlag(msg.task));
    hide Allowed, R.AddFlag, R.RemoveFlag, Key, Stored, TaskFlag;
  }

  lemma LockProcess(r: R.Proxy, msg: Message, ans: R.Answers, s: Store.Store, k: string)
    requires msg.ProcessState? && LockAttuned(r, msg, ans, s)
    ensures LockFollows(r, R.HandleMessage(r, msg, ans), msg, s, k)
  {
    NewMark(ans.newcomer, msg.name);
    hide Allowed, NewFlag, Key, Stored, IsExempted;
  }

  /** The tables of starting, restarting and stopping. */
  lemma LockTables(r: R.Proxy, msg: Message, ans: R.Answers)
    requires msg.ConditionChanged? || msg.PhaseTransit? || msg.StateTransit?
    ensures var apps := R.HandleMessage(r, msg, ans).apps;
            || (apps == r.apps && !msg.ConditionChanged?)
            || apps == map[]
            || (apps == R.Rebuild(ans.survey) && ans.survey.available && !msg.StateTransit?
                && (msg.PhaseTransit? ==> msg.state == Sleep && msg.curPhase == APP_RES_DEEP && !r.proxied))
  {
    hide R.Rebuild, R.Restricted;
  }

  lemma LockPlace(r: R.Proxy, msg: Message, ans: R.Answers, s: Store.Store, k: string)
    requires (msg.ConditionChanged? || msg.PhaseTransit? || msg.StateTransit?) && LockAttuned(r, msg, ans, s)
    ensures LockFollows(r, R.HandleMessage(r, msg, ans), msg, s, k)
  {
    LockTables(r, msg, ans);
    var v := ans.survey;
    if v.available && LockSurveyAgrees(v, s) && k in R.Rebuild(v) { RunningMark(v, s, k); }
    hide Allowed, R.Rebuild, R.HandleMessage, Stored, LockSurveyAgrees;
  }

  lemma LockReset(r: R.Proxy, msg: Message, ans: R.Answers, s: Store.Store, k: string)
    requires msg.CommonEvent? || msg.HalfHour? || msg.SysAbility?
    ensures LockFollows(r, R.HandleMessage(r, msg, ans), msg, s, k)
  {
    if k in r.apps { MarkBits(r.apps[k].flag, R.TASK_FLAGS); }
    assert !Allowed(R.TASK_FLAGS);
    hide Allowed, Stored, Without, R.NoLongerExempt;
  }

  /** Whatever message arrives, every entry of the table follows it. */
  lemma LockMark(r: R.Proxy, msg: Message, ans: R.Answers, s: Store.Store, k: string)
    requires LockAttuned(r, msg, ans, s) && RP.Keyed(r.apps)
    ensures LockFollows(r, R.HandleMessage(r, msg, ans), msg, s, k)
  {
    if msg.AllowListChanged? { LockNotice(r, msg, ans, s, k); }
    else if msg.ConditionChanged? || msg.PhaseTransit? || msg.StateTransit? { LockPlace(r, msg, ans, s, k); }
    else if msg.BgTaskStatus? { LockTask(r, msg, ans, s, k); }
    else if msg.ProcessState? { LockProcess(r, msg, ans, s, k); }
    else { LockReset(r, msg, ans, s, k); }
    hide R.HandleMessage, LockFollows, LockAttuned, RP.Keyed;
  }

  // ---------------------------------------------------------------- when the answer agrees

  /** Whoever has this name and the permission is this application, has it for callers with this
      reason code, and still has time left. */
  predicate ListedPlainly(s: Store.Store, uid: int, name: string, i: nat, reasonCode: int, now: int) {
    forall k :: k in s.records && s.records[k].name == name && M.HasBit(s.records[k].mask, i) ==>
      s.records[k].uid == uid && s.records[k].reasonCode == reasonCode && L.RunsOn(s.records[k].times, i, now)
  }

  /** The names listed for a permission agree with the store about an application that is listed
      plainly and not configured: what `NetAttuned` and `LockAttuned` ask of the answers. */
  lemma AnswerAgrees(s: Store.Store, uid: int, name: string, i: nat, reasonCode: int, now: int,
                     configured: seq<set<string>>)
    requires P.RecordsOk(s.records) && |configured| == M.TYPES && i < M.TYPES
    requires ListedPlainly(s, uid, name, i, reasonCode, now) && name !in configured[i]
    ensures name in Store.AllowedNames(s.records, M.Bit(i), reasonCode, now, configured)
            <==> Stored(s, uid, name, M.Bit(i))
  {
    L.AllowedExactly(s.records, M.Bit(i), reasonCode, now, configured, name);
    StoredHas(s, uid, name, i);
    if name in Store.AllowedNames(s.records, M.Bit(i), reasonCode, now, configured) {
      NowHas(s, uid, name, i, reasonCode, now, configured);
    } else if Stored(s, uid, name, M.Bit(i)) {
      HasNow(s, uid, name, i, reasonCode, now, configured);
    }
    hide Store.AllowedNames, L.AllowedNow, ListedPlainly, P.RecordsOk, Stored, M.Bit;
  }

  lemma StoredHas(s: Store.Store, uid: int, name: string, i: nat)
    requires i < M.TYPES
    ensures Stored(s, uid, name, M.Bit(i)) <==>
              Key(uid, name) in s.records && M.HasBit(s.records[Key(uid, name)].mask, i)
  {
    hide Key, M.Bit;
    NoBit(M.Bit(i));
  }

  lemma NoBit(kind: bv32)
    ensures 0 & kind == 0
  {
  }

  lemma NowHas(s: Store.Store, uid: int, name: string, i: nat, reasonCode: int, now: int, configured: seq<set<string>>)
    requires P.RecordsOk(s.records) && |configured| == M.TYPES && i < M.TYPES
    requires ListedPlainly(s, uid, name, i, reasonCode, now) && name !in configured[i]
    requires L.AllowedNow(s.records, M.Bit(i), reasonCode, now, configured, name)
    ensures Key(uid, name) in s.records && M.HasBit(s.records[Key(uid, name)].mask, i)
  {
    var l :| 0 <= l < M.TYPES && M.HasBit(M.Bit(i), l) &&
      (|| name in configured[l]
       || exists k :: k in s.records && s.records[k].name == name && s.records[k].reasonCode == reasonCode
                      && L.RunsOn(s.records[k].times, l, now));
    M.BitHas(i, l);
    hide M.Bit, M.HasBit;
    var k :| k in s.records && s.records[k].name == name && s.records[k].reasonCode == reasonCode
             && L.RunsOn(s.records[k].times, i, now);
    RunningHas(s, k, i, now);
  }

  /** A record with a running entry has the bit of its type. */
  lemma RunningHas(s: Store.Store, k: string, i: nat, now: int)
    requires P.RecordsOk(s.records) && k in s.records && i < M.TYPES && L.RunsOn(s.records[k].times, i, now)
    ensures M.HasBit(s.records[k].mask, i) && k == Key(s.records[k].uid, s.records[k].name)
  {
    L.ActiveExactly(s.records[k], i, s.records[k].reasonCode, now);
    hide M.HasBit, L.RunsOn, Key, P.RecordOk;
  }

  lemma HasNow(s: Store.Store, uid: int, name: string, i: nat, reasonCode: int, now: int, configured: seq<set<string>>)
    requires P.RecordsOk(s.records) && |configured| == M.TYPES && i < M.TYPES
    requires ListedPlainly(s, uid, name, i, reasonCode, now)
    requires Key(uid, name) in s.records && M.HasBit(s.records[Key(uid, name)].mask, i)
    ensures L.AllowedNow(s.records, M.Bit(i), reasonCode, now, configured, name)
  {
    var r := s.records[Key(uid, name)];
    KeyIsInjective(uid, name, r.uid, r.name);
    M.BitHas(i, i);
    hide M.Bit, M.HasBit, Key, L.RunsOn;
    assert r.name == name && r.reasonCode == reasonCode && L.RunsOn(r.times, i, now);
  }
}
