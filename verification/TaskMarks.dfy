/** What every message does to each mark of a tracked application, with the bit of every reason
    written out: continuous task 1, transient task 2, work scheduler 4, foreground 8, unrestricted
    16, allowed 32, restricted 64. */
module TaskMarks {
  import opened StandbyTypes
  import opened ExemptionFlags
  import opened RecordKeys
  import N = NetworkRules
  import NP = NetworkProofs
  import R = RunningLockRules
  import RP = RunningLockProofs
  import RS = RunningLockSurvey

  // ---------------------------------------------------------------- marks

  predicate HasMark(flag: bv8, bit: bv8) {
    flag & bit != 0
  }

  predicate IsMark(bit: bv8) {
    bit == 1 || bit == 2 || bit == 4 || bit == 8 || bit == 16 || bit == 32 || bit == 64
  }

  /** The mark of a kind of task. */
  function TaskMark(task: BgTaskType): bv8 {
    match task
    case ContinuousTask => 1
    case TransientTask => 2
    case WorkSchedulerTask => 4
    case UnknownTask => 0
  }

  lemma SetMark(flag: bv8, more: bv8, bit: bv8)
    ensures HasMark(With(flag, more), bit) == (HasMark(flag, bit) || HasMark(more, bit))
  {
  }

  lemma ClearMark(flag: bv8, less: bv8, bit: bv8)
    requires IsMark(bit)
    ensures HasMark(Without(flag, less), bit) == (HasMark(flag, bit) && !HasMark(less, bit))
  {
  }

  lemma TaskMarks(task: BgTaskType, bit: bv8)
    requires IsMark(bit)
    ensures HasMark(TaskFlag(task), bit) == (bit == TaskMark(task))
  {
  }

  lemma ServiceMarks(bit: bv8)
    requires IsMark(bit)
    ensures HasMark(R.TASK_FLAGS, bit) == (bit == 2 || bit == 4)
    ensures HasMark(EXEMPTION, bit) == (bit == 32) && HasMark(RESTRICTED, bit) == (bit == 64)
    ensures HasMark(UNRESTRICTED, bit) == (bit == 16) && !HasMark(0, bit)
  {
  }

  /** The marks of an application seen for the first time. */
  predicate NewcomerHas(n: Newcomer, name: string, bit: bv8) {
    || (bit == 16 && n.system)
    || (bit == 32 && name in n.allowed)
    || (bit == 64 && name in n.restricted)
  }

  lemma NewcomerMarks(n: Newcomer, name: string, bit: bv8)
    requires IsMark(bit)
    ensures HasMark(NewFlag(n, name), bit) == NewcomerHas(n, name, bit)
  {
    ServiceMarks(bit);
    var f1 := if n.system then With(0, UNRESTRICTED) else 0;
    var f2 := if name in n.allowed then With(f1, EXEMPTION) else f1;
    SetMark(0, UNRESTRICTED, bit);
    SetMark(f1, EXEMPTION, bit);
    SetMark(f2, RESTRICTED, bit);
    hide HasMark, With, IsMark;
  }

  // ---------------------------------------------------------------- the running-lock strategy

  function BundleOf(name: string, bundleName: string): string {
    if name == "" then bundleName else name
  }

  /** Whether an entry that stays in the table has the mark after the message. */
  predicate LockHas(was: bool, r: R.Proxy, msg: Message, ans: R.Answers, uid: int, name: string, bit: bv8) {
    match msg
    case AllowListChanged(u, n, allowType, added) =>
      if bit == 32 && allowType & 2 != 0 && u == uid && n == name && r.proxied then added else was
    case BgTaskStatus(task, started, u, n) =>
      if bit == TaskMark(task) && u == uid && BundleOf(n, ans.bundleName) == name
      then started && (was || r.proxied)
      else was
    case SysAbility(added, isTaskService) =>
      if !added && isTaskService && r.proxied && !r.idle && (bit == 2 || bit == 4) then false else was
    case _ => was
  }

  /** What the survey says about a mark of an application. */
  predicate SurveyHas(v: R.Survey, uid: int, name: string, bit: bv8) {
    || (bit == 1 && uid in v.continuous && uid in R.CollectNames(v.infos) && R.CollectNames(v.infos)[uid] == name)
    || (bit == 2 && (uid, name) in v.transient)
    || (bit == 4 && (uid, name) in v.works)
    || (bit == 8 && (uid, name) in v.foreground)
    || (bit == 16 && R.AppInfo(uid, name, true) in v.infos)
    || (bit == 32 && name in v.allowed)
    || (bit == 64 && name in v.restricted)
  }

  lemma SurveyMark(v: R.Survey, k: string, bit: bv8)
    requires k in R.Rebuild(v) && IsMark(bit)
    ensures var a := R.Rebuild(v)[k]; HasMark(a.flag, bit) == SurveyHas(v, a.uid, a.name, bit)
  {
    var names := R.CollectNames(v.infos);
    RS.RebuiltEntry(v, k);
    RS.RunningAppsExactly(v, k);
    var a := R.RunningApps(v)[k];
    RS.KeysOfExactly(v.foreground, a.uid, a.name);
    RS.KeysOfExactly(v.transient, a.uid, a.name);
    RS.KeysOfExactly(v.works, a.uid, a.name);
    RS.ContinuousKeysExactly(v.continuous, names, a.uid, a.name);
    hide R.Rebuild, R.RunningApps, R.CollectNames, R.KeysOf, R.ContinuousKeys, RS.Runs, Key;
    SurveyBits(R.AppInfo(a.uid, a.name, true) in v.infos, (a.uid, a.name) in v.foreground,
               k in R.ContinuousKeys(v.continuous, names), (a.uid, a.name) in v.transient, (a.uid, a.name) in v.works,
               a.name in v.allowed, a.name in v.restricted, bit);
    hide HasMark, FlagIf;
  }

  lemma SurveyBits(system: bool, fg: bool, cont: bool, trans: bool, work: bool, allowed: bool, restricted: bool, bit: bv8)
    requires IsMark(bit)
    ensures HasMark((if system then UNRESTRICTED else 0) | FlagIf(fg, FOREGROUND_APP) | FlagIf(cont, CONTINUOUS_TASK)
                    | FlagIf(trans, TRANSIENT_TASK) | FlagIf(work, WORK_SCHEDULER) | FlagIf(allowed, EXEMPTION)
                    | FlagIf(restricted, RESTRICTED), bit)
            == ((bit == 1 && cont) || (bit == 2 && trans) || (bit == 4 && work) || (bit == 8 && fg)
                || (bit == 16 && system) || (bit == 32 && allowed) || (bit == 64 && restricted))
  {
  }

  /** The message makes the strategy survey everything again. */
  predicate LockSurveys(r: R.Proxy, msg: Message) {
    msg.ConditionChanged? || (msg.PhaseTransit? && msg.state == Sleep && msg.curPhase == 1 && !r.proxied)
  }

  /** The entry of `k` after the message: surveyed anew, made for a new process, or kept with the
      marks that `LockHas` gives. */
  predicate LockEntry(r: R.Proxy, q: R.Proxy, msg: Message, ans: R.Answers, k: string, bit: bv8) {
    k in q.apps ==>
      var a := q.apps[k];
      if LockSurveys(r, msg) then ans.survey.available && HasMark(a.flag, bit) == SurveyHas(ans.survey, a.uid, a.name, bit)
      else if k !in r.apps then
        && msg.ProcessState? && msg.created && r.proxied && a.uid == msg.uid && a.name == msg.name
        && HasMark(a.flag, bit) == NewcomerHas(ans.newcomer, msg.name, bit)
      else
        && a.uid == r.apps[k].uid && a.name == r.apps[k].name
        && HasMark(a.flag, bit) == LockHas(HasMark(r.apps[k].flag, bit), r, msg, ans, a.uid, a.name, bit)
  }

  /** The application keeps its place, and has the mark or not. */
  predicate MarkIs(a: R.App, b: R.App, bit: bv8, has: bool) {
    b.uid == a.uid && b.name == a.name && b.pids == a.pids && HasMark(b.flag, bit) == has
  }

  lemma KeyIs(r: R.Proxy, uid: int, name: string, k: string)
    requires RP.Keyed(r.apps) && k in r.apps
    ensures k == Key(uid, name) <==> r.apps[k].uid == uid && r.apps[k].name == name
  {
    var a := r.apps[k];
    assert k == Key(a.uid, a.name);
    if k == Key(uid, name) { KeyIsInjective(a.uid, a.name, uid, name); }
    hide Key;
  }

  lemma AddedMark(r: R.Proxy, uid: int, name: string, flag: bv8, k: string, bit: bv8)
    requires IsMark(bit)
    ensures var q := R.AddFlag(r, uid, name, flag);
            k in q.apps ==>
              && k in r.apps
              && MarkIs(r.apps[k], q.apps[k], bit,
                        HasMark(r.apps[k].flag, bit) || (r.proxied && k == Key(uid, name) && HasMark(flag, bit)))
  {
    if k in r.apps { SetMark(r.apps[k].flag, flag, bit); }
    hide HasMark, With, IsExempted, Key, R.PidsOf, IsMark;
  }

  lemma RemovedMark(r: R.Proxy, uid: int, name: string, flag: bv8, k: string, bit: bv8)
    requires IsMark(bit)
    ensures var q := R.RemoveFlag(r, uid, name, flag);
            k in q.apps ==>
              && k in r.apps
              && MarkIs(r.apps[k], q.apps[k], bit,
                        HasMark(r.apps[k].flag, bit) && !(k == Key(uid, name) && HasMark(flag, bit)))
  {
    if k in r.apps { ClearMark(r.apps[k].flag, flag, bit); }
    hide HasMark, Without, IsExempted, Key, R.PidsOf, IsMark;
  }

  lemma LockNotice(r: R.Proxy, msg: Message, ans: R.Answers, k: string, bit: bv8)
    requires msg.AllowListChanged? && RP.Keyed(r.apps) && IsMark(bit)
    ensures LockEntry(r, R.HandleMessage(r, msg, ans), msg, ans, k, bit)
  {
    AddedMark(r, msg.uid, msg.name, EXEMPTION, k, bit);
    RemovedMark(r, msg.uid, msg.name, EXEMPTION, k, bit);
    ServiceMarks(bit);
    if k in r.apps { KeyIs(r, msg.uid, msg.name, k); }
    hide HasMark, R.AddFlag, R.RemoveFlag, RP.Keyed, IsMark, Key;
  }

  lemma LockTask(r: R.Proxy, msg: Message, ans: R.Answers, k: string, bit: bv8)
    requires msg.BgTaskStatus? && RP.Keyed(r.apps) && IsMark(bit)
    ensures LockEntry(r, R.HandleMessage(r, msg, ans), msg, ans, k, bit)
  {
    var name := BundleOf(msg.name, ans.bundleName);
    var flag := TaskFlag(msg.task);
    TaskMarks(msg.task, bit);
    if k in r.apps { KeyIs(r, msg.uid, name, k); }
    assert msg.task.UnknownTask? ==> bit != TaskMark(msg.task);
    TaskIs(r, msg, ans);
    hide HasMark, R.AddFlag, R.RemoveFlag, R.HandleMessage, RP.Keyed, IsMark, TaskFlag, Key, TaskMark;
    if msg.started { AddedMark(r, msg.uid, name, flag, k, bit); } else { RemovedMark(r, msg.uid, name, flag, k, bit); }
  }

  lemma TaskIs(r: R.Proxy, msg: Message, ans: R.Answers)
    requires msg.BgTaskStatus?
    ensures var q, name := R.HandleMessage(r, msg, ans), BundleOf(msg.name, ans.bundleName);
            if msg.task.UnknownTask? then q == r
            else if msg.started then q == R.AddFlag(r, msg.uid, name, TaskFlag(msg.task))
            else q == R.RemoveFlag(r, msg.uid, name, TaskFlag(msg.task))
  {
    hide R.AddFlag, R.RemoveFlag, TaskFlag;
  }

  lemma LockProcess(r: R.Proxy, msg: Message, ans: R.Answers, k: string, bit: bv8)
    requires msg.ProcessState? && IsMark(bit)
    ensures LockEntry(r, R.HandleMessage(r, msg, ans), msg, ans, k, bit)
  {
    NewcomerMarks(ans.newcomer, msg.name, bit);
    ProcessEntry(r, msg, ans, k);
    hide HasMark, NewFlag, Key, IsMark, R.HandleMessage, NewcomerHas;
  }

  /** A process that starts is filed, under a new entry if need be; one that ends is struck out. */
  lemma ProcessEntry(r: R.Proxy, msg: Message, ans: R.Answers, k: string)
    requires msg.ProcessState?
    ensures var q := R.HandleMessage(r, msg, ans);
            k in q.apps ==>
              if k in r.apps then q.apps[k].(pids := {}) == r.apps[k].(pids := {})
              else && r.proxied && msg.created
                   && q.apps[k] == R.App(msg.name, msg.uid, {msg.pid}, NewFlag(ans.newcomer, msg.name))
  {
    assert {} + {msg.pid} == {msg.pid};
    hide NewFlag, Key, IsExempted;
  }

  lemma LockService(r: R.Proxy, msg: Message, ans: R.Answers, k: string, bit: bv8)
    requires (msg.CommonEvent? || msg.HalfHour? || msg.SysAbility?) && IsMark(bit)
    ensures LockEntry(r, R.HandleMessage(r, msg, ans), msg, ans, k, bit)
  {
    ServiceMarks(bit);
    if k in r.apps { ClearMark(r.apps[k].flag, R.TASK_FLAGS, bit); }
    hide HasMark, Without, R.NoLongerExempt, IsMark;
  }

  /** The tables of surveys and transitions. */
  lemma LockTables(r: R.Proxy, msg: Message, ans: R.Answers)
    requires msg.ConditionChanged? || msg.PhaseTransit? || msg.StateTransit?
    ensures var apps := R.HandleMessage(r, msg, ans).apps;
            if LockSurveys(r, msg) then apps == (if ans.survey.available then R.Rebuild(ans.survey) else map[])
            else apps in {r.apps, map[]}
  {
    hide R.Rebuild, R.Restricted;
  }

  lemma LockPlace(r: R.Proxy, msg: Message, ans: R.Answers, k: string, bit: bv8)
    requires (msg.ConditionChanged? || msg.PhaseTransit? || msg.StateTransit?) && IsMark(bit)
    ensures LockEntry(r, R.HandleMessage(r, msg, ans), msg, ans, k, bit)
  {
    hide HasMark, R.HandleMessage, R.Rebuild, SurveyHas, IsMark;
    LockTables(r, msg, ans);
    if k in R.Rebuild(ans.survey) { SurveyMark(ans.survey, k, bit); }
  }

  /** What each message does to each of the seven marks of every tracked application. */
  lemma LockMarks(r: R.Proxy, msg: Message, ans: R.Answers, k: string, bit: bv8)
    requires RP.Keyed(r.apps) && IsMark(bit)
    ensures LockEntry(r, R.HandleMessage(r, msg, ans), msg, ans, k, bit)
  {
    if msg.AllowListChanged? { LockNotice(r, msg, ans, k, bit); }
    else if msg.BgTaskStatus? { LockTask(r, msg, ans, k, bit); }
    else if msg.ProcessState? { LockProcess(r, msg, ans, k, bit); }
    else if msg.ConditionChanged? || msg.PhaseTransit? || msg.StateTransit? { LockPlace(r, msg, ans, k, bit); }
    else { LockService(r, msg, ans, k, bit); }
    hide R.HandleMessage, LockEntry, RP.Keyed, IsMark;
  }

  // ---------------------------------------------------------------- who is tracked, and with which processes

  /** The message takes the table away: SLEEP and its maintenance are left. */
  predicate LockLeaves(r: R.Proxy, msg: Message) {
    msg.StateTransit? && r.proxied && msg.pre in {Sleep, Maintenance} && {msg.pre, msg.cur} != {Sleep, Maintenance}
  }

  /** The pids filed under `k` after a process has started or ended. */
  function PidsAfter(r: R.Proxy, msg: Message, k: string): set<int> {
    var before := if k in r.apps then r.apps[k].pids else {};
    if !msg.ProcessState? || !r.proxied || k != Key(msg.uid, msg.name) then before
    else if msg.created then before + {msg.pid}
    else before - {msg.pid}
  }

  /** Unless the strategy surveys or leaves, the table changes by processes alone: a started one is
      filed, an ended one is struck out, and an application is forgotten exactly when a process that
      ended was its last. */
  lemma LockTable(r: R.Proxy, msg: Message, ans: R.Answers, k: string)
    requires !LockSurveys(r, msg)
    ensures var q := R.HandleMessage(r, msg, ans);
            if LockLeaves(r, msg) then k !in q.apps
            else
              var process := msg.ProcessState? && r.proxied && k == Key(msg.uid, msg.name);
              && (k in q.apps <==> if !process then k in r.apps
                                   else msg.created || (k in r.apps && PidsAfter(r, msg, k) != {}))
              && (k in q.apps ==> q.apps[k].pids == PidsAfter(r, msg, k))
  {
    if msg.AllowListChanged? || msg.BgTaskStatus? {
      FlagTable(r, msg, ans, k);
    } else if msg.ConditionChanged? || msg.PhaseTransit? || msg.StateTransit? {
      PlaceTable(r, msg, ans);
      hide R.HandleMessage, Key;
    } else {
      hide Key, IsExempted, NewFlag, R.NoLongerExempt, Without;
    }
  }

  lemma FlagTable(r: R.Proxy, msg: Message, ans: R.Answers, k: string)
    requires msg.AllowListChanged? || msg.BgTaskStatus?
    ensures var q := R.HandleMessage(r, msg, ans);
            (k in q.apps <==> k in r.apps) && (k in q.apps ==> q.apps[k].pids == r.apps[k].pids)
  {
    hide Key, IsExempted, With, Without, R.PidsOf, TaskFlag;
  }

  lemma PlaceTable(r: R.Proxy, msg: Message, ans: R.Answers)
    requires (msg.PhaseTransit? || msg.StateTransit?) && !LockSurveys(r, msg)
    ensures R.HandleMessage(r, msg, ans).apps == if LockLeaves(r, msg) then map[] else r.apps
  {
    hide R.Restricted, R.Rebuild;
  }

  // ---------------------------------------------------------------- tasks and the ledger

  lemma MarkExempts(flag: bv8, task: BgTaskType)
    ensures !task.UnknownTask? && HasMark(flag, TaskMark(task)) && !HasMark(flag, 64) ==> IsExempted(flag)
    ensures flag == 0 ==> !IsExempted(flag)
  {
  }

  lemma OnlyReason(task: BgTaskType)
    ensures !IsExempted(Without(TaskMark(task), TaskFlag(task)))
  {
  }

  /** A task starts for a tracked application that is not restricted by name: none of its processes
      is held back any more. */
  lemma StartedTaskIsFree(r: R.Proxy, msg: Message, ans: R.Answers, pid: int)
    requires RP.Tidy(r) && r.proxied && !r.idle && msg.BgTaskStatus? && msg.started && !msg.task.UnknownTask?
    requires var k := Key(msg.uid, BundleOf(msg.name, ans.bundleName));
             k in r.apps && !HasMark(r.apps[k].flag, 64) && pid in r.apps[k].pids
    ensures (pid, msg.uid) !in R.HandleMessage(r, msg, ans).ledger
  {
    var k := Key(msg.uid, BundleOf(msg.name, ans.bundleName));
    var q := R.HandleMessage(r, msg, ans);
    RP.HandleMessageTidy(r, msg, ans);
    TidySays(r);
    TidySays(q);
    KeyIs(r, msg.uid, BundleOf(msg.name, ans.bundleName), k);
    assert IsMark(64) && IsMark(TaskMark(msg.task)) && TaskMark(msg.task) != 64;
    LockMarks(r, msg, ans, k, 64);
    LockMarks(r, msg, ans, k, TaskMark(msg.task));
    FlagTable(r, msg, ans, k);
    FlagPlace(r, msg, ans);
    MarkExempts(q.apps[k].flag, msg.task);
    hide R.HandleMessage, RP.Tidy, IsExempted, HasMark, IsMark, TaskMark, Key;
    NotHeld(q, k, pid);
  }

  lemma NotHeld(q: R.Proxy, k: string, pid: int)
    requires RP.Sound(q.apps) && k in q.apps && pid in q.apps[k].pids && IsExempted(q.apps[k].flag)
    ensures (pid, q.apps[k].uid) !in R.Restricted(q.apps)
  {
    hide IsExempted, Key;
  }

  lemma TidySays(r: R.Proxy)
    requires RP.Tidy(r)
    ensures RP.Sound(r.apps) && RP.Keyed(r.apps)
    ensures r.ledger == if r.proxied && !r.idle then R.Restricted(r.apps) else {}
  {
    hide R.Restricted;
  }

  lemma FlagPlace(r: R.Proxy, msg: Message, ans: R.Answers)
    requires msg.AllowListChanged? || msg.BgTaskStatus?
    ensures var q := R.HandleMessage(r, msg, ans); q.proxied == r.proxied && q.idle == r.idle
  {
    hide Key, IsExempted, With, Without, R.PidsOf, TaskFlag;
  }

  /** The only reason of a tracked application ends: all its processes are held back. */
  lemma StoppedTaskIsHeld(r: R.Proxy, msg: Message, ans: R.Answers, pid: int)
    requires RP.Tidy(r) && r.proxied && !r.idle && msg.BgTaskStatus? && !msg.started && !msg.task.UnknownTask?
    requires var k := Key(msg.uid, BundleOf(msg.name, ans.bundleName));
             k in r.apps && r.apps[k].flag == TaskMark(msg.task) && pid in r.apps[k].pids
    ensures (pid, msg.uid) in R.HandleMessage(r, msg, ans).ledger
  {
    var k := Key(msg.uid, BundleOf(msg.name, ans.bundleName));
    var q := R.HandleMessage(r, msg, ans);
    RP.HandleMessageTidy(r, msg, ans);
    TidySays(r);
    TidySays(q);
    KeyIs(r, msg.uid, BundleOf(msg.name, ans.bundleName), k);
    OnlyReason(msg.task);
    StopIs(r, msg, ans);
    FlagPlace(r, msg, ans);
    hide R.HandleMessage, RP.Tidy, IsExempted, TaskMark, Key, Without, RP.Sound, RP.Keyed;
  }

  lemma StopIs(r: R.Proxy, msg: Message, ans: R.Answers)
    requires msg.BgTaskStatus? && !msg.started && !msg.task.UnknownTask?
    requires Key(msg.uid, BundleOf(msg.name, ans.bundleName)) in r.apps
    ensures var k := Key(msg.uid, BundleOf(msg.name, ans.bundleName));
            R.HandleMessage(r, msg, ans).apps
            == r.apps[k := r.apps[k].(flag := Without(r.apps[k].flag, TaskFlag(msg.task)))]
  {
    hide Key, IsExempted, Without, R.PidsOf, TaskFlag;
  }

  // ---------------------------------------------------------------- the network strategy

  /** No mark but that of a system application. */
  predicate Reasonless(flag: bv8) {
    flag == 0 || flag == 16
  }

  lemma RaisedMarks(f: bv8, more: bv8, conditional: bool, bit: bv8)
    requires IsMark(bit) && !HasMark(more, 64)
    ensures HasMark(With(N.Raised(f, more, conditional), more), bit)
         == ((HasMark(f, bit) || HasMark(more, bit)) && !(bit == 64 && conditional))
  {
  }

  lemma ConditionedMarks(f: bv8, conditional: bool, bit: bv8)
    requires IsMark(bit)
    ensures HasMark(N.Conditioned(f, conditional), bit) == (HasMark(f, bit) || (bit == 64 && conditional && Reasonless(f)))
  {
  }

  /** The marks of an application that becomes tracked. */
  predicate NetNewcomerHas(ans: N.NetAnswers, name: string, bit: bv8) {
    NewcomerHas(ans.newcomer, name, bit)
    || (bit == 64 && name in ans.conditional && name !in ans.newcomer.allowed)
  }

  lemma NetNewcomerMarks(ans: N.NetAnswers, name: string, bit: bv8)
    requires IsMark(bit)
    ensures HasMark(N.NewNetFlag(ans, name), bit) == NetNewcomerHas(ans, name, bit)
  {
    var f := NewFlag(ans.newcomer, name);
    NewcomerMarks(ans.newcomer, name, bit);
    ConditionedMarks(f, name in ans.conditional, bit);
    NewcomerReasonless(ans.newcomer, name);
    hide HasMark, NewFlag, N.Conditioned, IsMark;
  }

  lemma NewcomerReasonless(n: Newcomer, name: string)
    ensures Reasonless(NewFlag(n, name)) == (name !in n.allowed && name !in n.restricted)
  {
  }

  /** The reason that the message gives or takes, as its bit; 0 when it concerns none. */
  function NetReason(msg: Message, ans: N.NetAnswers): bv8 {
    match msg
    case AllowListChanged(_, _, allowType, _) => if allowType & 1 != 0 then 32 else 0
    case BgTaskStatus(task, started, _, _) =>
      if started && ans.night && task.ContinuousTask? && !ans.typeExempt then 0 else TaskMark(task)
    case _ => 0
  }

  predicate Gives(msg: Message) {
    (msg.AllowListChanged? && msg.added) || (msg.BgTaskStatus? && msg.started)
  }

  function NameIn(msg: Message, ans: N.NetAnswers): string
    requires msg.AllowListChanged? || msg.BgTaskStatus?
  {
    if msg.AllowListChanged? then msg.name else BundleOf(msg.name, ans.bundleName)
  }

  /** Whether the entry has the mark when the reason `reason` is given or taken: a restriction that
      only holds without a reason goes with the first and comes with the last. */
  predicate ReasonLeaves(flag: bv8, gives: bool, reason: bv8, conditional: bool, bit: bv8) {
    if gives then (HasMark(flag, bit) || bit == reason) && !(bit == 64 && conditional)
    else (HasMark(flag, bit) && bit != reason) || (bit == 64 && conditional && Reasonless(Without(flag, reason)))
  }

  /** The message is about a reason of the tracked application `u` or of one it makes tracked. */
  predicate Reasons(n: N.Net, msg: Message, ans: N.NetAnswers, u: int) {
    && n.enabled && NetReason(msg, ans) != 0
    && ((msg.AllowListChanged? && msg.uid == u) || (msg.BgTaskStatus? && msg.uid == u))
  }

  /** The entry of `u` after a message about reasons. */
  predicate ReasonEntry(n: N.Net, r: N.Net, msg: Message, ans: N.NetAnswers, u: int, bit: bv8)
    requires msg.AllowListChanged? || msg.BgTaskStatus?
  {
    if !Reasons(n, msg, ans, u) then (u in r.apps <==> u in n.apps) && (u in n.apps ==> r.apps[u] == n.apps[u])
    else if u in n.apps then
      && u in r.apps && r.apps[u].name == n.apps[u].name
      && HasMark(r.apps[u].flag, bit)
         == ReasonLeaves(n.apps[u].flag, Gives(msg), NetReason(msg, ans),
                         (if Gives(msg) then NameIn(msg, ans) else n.apps[u].name) in ans.conditional, bit)
    else if Gives(msg) then
      && u in r.apps && r.apps[u].name == NameIn(msg, ans)
      && HasMark(r.apps[u].flag, bit)
         == ((NetNewcomerHas(ans, NameIn(msg, ans), bit) || bit == NetReason(msg, ans))
             && !(bit == 64 && NameIn(msg, ans) in ans.conditional))
    else u !in r.apps
  }

  /** The flag that stands for the reason of the message. */
  function NetFlag(msg: Message): bv8 {
    if msg.BgTaskStatus? then TaskFlag(msg.task) else EXEMPTION
  }

  lemma FlagIsReason(msg: Message, ans: N.NetAnswers, bit: bv8)
    requires (msg.AllowListChanged? || msg.BgTaskStatus?) && NetReason(msg, ans) != 0 && IsMark(bit)
    ensures NetFlag(msg) == NetReason(msg, ans) && HasMark(NetFlag(msg), bit) == (bit == NetReason(msg, ans))
    ensures !HasMark(NetFlag(msg), 64)
  {
  }

  /** Messages about reasons edit one entry. */
  lemma ReasonIs(n: N.Net, msg: Message, ans: N.NetAnswers)
    requires msg.AllowListChanged? || msg.BgTaskStatus?
    ensures var r := N.HandleNetMessage(n, msg, ans);
            if NetReason(msg, ans) == 0 || !n.enabled then r == n
            else if Gives(msg) then r == N.AddNetFlag(n, msg.uid, NameIn(msg, ans), NetFlag(msg), ans)
            else r == N.RemoveNetFlag(n, msg.uid, NetFlag(msg), ans)
  {
    assert msg.BgTaskStatus? && msg.task.UnknownTask? ==> NetReason(msg, ans) == 0;
    assert msg.BgTaskStatus? && !msg.task.UnknownTask? ==> TaskMark(msg.task) != 0;
    hide BecomesExempted, With, Without, N.Raised, N.Conditioned, N.NewNetFlag;
  }

  lemma AddedNet(n: N.Net, uid: int, name: string, flag: bv8, ans: N.NetAnswers)
    requires n.enabled
    ensures var a := if uid in n.apps then n.apps[uid] else N.NetApp(name, N.NewNetFlag(ans, name));
            N.AddNetFlag(n, uid, name, flag, ans).apps
            == n.apps[uid := a.(flag := With(N.Raised(a.flag, flag, name in ans.conditional), flag))]
  {
    hide With, Without, N.Raised, N.NewNetFlag, BecomesExempted;
  }

  lemma RemovedNet(n: N.Net, uid: int, flag: bv8, ans: N.NetAnswers)
    requires n.enabled
    ensures N.RemoveNetFlag(n, uid, flag, ans).apps
         == if uid !in n.apps then n.apps
            else n.apps[uid := n.apps[uid].(flag := N.Conditioned(Without(n.apps[uid].flag, flag),
                                                                  n.apps[uid].name in ans.conditional))]
  {
    hide With, Without, N.Conditioned, BecomesExempted;
  }

  lemma RaisedLeaves(f: bv8, flag: bv8, reason: bv8, conditional: bool, bit: bv8)
    requires IsMark(bit) && !HasMark(flag, 64) && HasMark(flag, bit) == (bit == reason)
    ensures HasMark(With(N.Raised(f, flag, conditional), flag), bit) == ReasonLeaves(f, true, reason, conditional, bit)
    ensures ReasonLeaves(f, true, reason, conditional, bit)
         == ((HasMark(f, bit) || bit == reason) && !(bit == 64 && conditional))
  {
    RaisedMarks(f, flag, conditional, bit);
    hide HasMark, With, N.Raised, IsMark;
  }

  lemma GivenMarks(n: N.Net, msg: Message, ans: N.NetAnswers, u: int, bit: bv8)
    requires (msg.AllowListChanged? || msg.BgTaskStatus?) && IsMark(bit) && Gives(msg)
    requires n.enabled && NetReason(msg, ans) != 0
    ensures ReasonEntry(n, N.AddNetFlag(n, msg.uid, NameIn(msg, ans), NetFlag(msg), ans), msg, ans, u, bit)
  {
    hide N.AddNetFlag, NetReason, NetFlag, TaskFlag, TaskMark, HasMark, With, Without, N.Raised, N.NewNetFlag, Reasonless,
         IsMark, NetNewcomerHas, NameIn, ReasonLeaves;
    var name, flag, reason := NameIn(msg, ans), NetFlag(msg), NetReason(msg, ans);
    FlagIsReason(msg, ans, bit);
    AddedNet(n, msg.uid, name, flag, ans);
    if msg.uid in n.apps {
      RaisedLeaves(n.apps[msg.uid].flag, flag, reason, name in ans.conditional, bit);
    } else {
      RaisedLeaves(N.NewNetFlag(ans, name), flag, reason, name in ans.conditional, bit);
      NetNewcomerMarks(ans, name, bit);
    }
  }

  lemma TakenMarks(n: N.Net, msg: Message, ans: N.NetAnswers, u: int, bit: bv8)
    requires (msg.AllowListChanged? || msg.BgTaskStatus?) && IsMark(bit) && !Gives(msg)
    requires n.enabled && NetReason(msg, ans) != 0
    ensures ReasonEntry(n, N.RemoveNetFlag(n, msg.uid, NetFlag(msg), ans), msg, ans, u, bit)
  {
    hide N.RemoveNetFlag, NetReason, NetFlag, TaskFlag, TaskMark, HasMark, With, Without, N.Conditioned, Reasonless,
         IsMark, NetNewcomerHas, NameIn;
    var flag := NetFlag(msg);
    FlagIsReason(msg, ans, bit);
    RemovedNet(n, msg.uid, flag, ans);
    if msg.uid in n.apps {
      var a := n.apps[msg.uid];
      ConditionedMarks(Without(a.flag, flag), a.name in ans.conditional, bit);
      ClearMark(a.flag, flag, bit);
    }
  }

  /** What a message about a reason does to each of the seven marks of every tracked application. */
  lemma NetMarks(n: N.Net, msg: Message, ans: N.NetAnswers, u: int, bit: bv8)
    requires (msg.AllowListChanged? || msg.BgTaskStatus?) && IsMark(bit)
    ensures ReasonEntry(n, N.HandleNetMessage(n, msg, ans), msg, ans, u, bit)
  {
    ReasonIs(n, msg, ans);
    hide N.HandleNetMessage, N.AddNetFlag, N.RemoveNetFlag, NetReason, NetFlag, HasMark, IsMark, Reasonless;
    if NetReason(msg, ans) == 0 || !n.enabled {
      assert !Reasons(n, msg, ans, u);
    } else if Gives(msg) {
      hide ReasonEntry;
      GivenMarks(n, msg, ans, u, bit);
    } else {
      hide ReasonEntry;
      TakenMarks(n, msg, ans, u, bit);
    }
  }

  /** What a survey says about a mark of an application. */
  predicate NetSurveyHas(v: N.NetSurvey, night: bool, u: int, name: string, bit: bv8) {
    var cont := exists t :: t in v.continuous && t.0 == u && (t.1 || !night);
    || (bit == 1 && cont)
    || (bit == 2 && u in v.transient)
    || (bit == 4 && u in v.works)
    || (bit == 8 && u in v.foreground)
    || (bit == 16 && (u, true) in v.systems)
    || (bit == 32 && name in v.allowed)
    || (bit == 64 && (|| name in v.restricted
                      || (name in v.conditional && name !in v.allowed && !cont && u !in v.transient && u !in v.works
                          && u !in v.foreground)))
  }

  /** The first process listed under the uid has this name. */
  predicate IsFirstProcess(procs: seq<(int, string)>, u: int, name: string) {
    exists j :: 0 <= j < |procs| && procs[j] == (u, name) && forall l :: 0 <= l < j ==> procs[l].0 != u
  }

  /** A survey tracks exactly the uids under which something runs, each under the name of its first
      process. */
  lemma NetSurveyTracks(v: N.NetSurvey, night: bool, u: int)
    ensures var apps := N.RebuildNet(v, night);
            && (u in apps <==> exists p :: p in v.procs && p.0 == u)
            && (u in apps ==> IsFirstProcess(v.procs, u, apps[u].name))
  {
    RunningNames(v.procs, u);
    if u in N.RebuildNet(v, night) { NP.RebuiltNetEntry(v, night, u); }
    SameUids(v, night);
    hide N.RebuildNet, N.CollectRunning, IsFirstProcess;
  }

  lemma SameUids(v: N.NetSurvey, night: bool)
    ensures N.RebuildNet(v, night).Keys == N.CollectRunning(v.procs).Keys
  {
    hide With, N.Conditioned, N.CollectRunning;
  }

  lemma {:induction false} RunningNames(procs: seq<(int, string)>, u: int)
    ensures var apps := N.CollectRunning(procs);
            && (u in apps <==> exists p :: p in procs && p.0 == u)
            && (u in apps ==> IsFirstProcess(procs, u, apps[u].name))
  {
    if procs != [] {
      var before, last := procs[..|procs| - 1], procs[|procs| - 1];
      assert procs == before + [last];
      RunningNames(before, u);
      if u in N.CollectRunning(before) {
        var name := N.CollectRunning(before)[u].name;
        var j :| 0 <= j < |before| && before[j] == (u, name) && forall l :: 0 <= l < j ==> before[l].0 != u;
        assert procs[j] == (u, name) && forall l :: 0 <= l < j ==> procs[l] == before[l];
      } else if last.0 == u {
        assert forall l :: 0 <= l < |before| ==> procs[l] == before[l] && before[l] in before;
        assert procs[|before|] == (u, last.1);
      }
    }
  }

  lemma MarkedBits(system: bool, fg: bool, cont: bool, trans: bool, work: bool, allowed: bool, restricted: bool,
                   conditional: bool, bit: bv8)
    requires IsMark(bit)
    ensures HasMark(N.Conditioned(NP.Marked(0, system, fg, cont, trans, work, allowed, restricted), conditional), bit)
            == ((bit == 1 && cont) || (bit == 2 && trans) || (bit == 4 && work) || (bit == 8 && fg)
                || (bit == 16 && system) || (bit == 32 && allowed)
                || (bit == 64 && (restricted || (conditional && !allowed && !cont && !trans && !work && !fg))))
  {
  }

  /** What a rebuild does to each mark: exactly what the survey says. */
  lemma NetSurveyMarks(v: N.NetSurvey, night: bool, u: int, bit: bv8)
    requires u in N.RebuildNet(v, night) && IsMark(bit)
    ensures var a := N.RebuildNet(v, night)[u]; HasMark(a.flag, bit) == NetSurveyHas(v, night, u, a.name, bit)
  {
    hide HasMark, NP.Marked, N.RebuildNet, N.CollectRunning, N.Conditioned, N.SystemUids, N.ContinuousUids, IsMark;
    NP.RebuiltNetEntry(v, night, u);
    NP.CollectedRunning(v.procs, u);
    NP.ContinuousSaid(v.continuous, night, u);
    NP.SystemSaid(v.systems, u);
    var a := N.CollectRunning(v.procs)[u];
    MarkedBits((u, true) in v.systems, u in v.foreground, u in N.ContinuousUids(v.continuous, night), u in v.transient,
               u in v.works, a.name in v.allowed, a.name in v.restricted, a.name in v.conditional, bit);
  }

  // ---------------------------------------------------------------- processes and the network

  /** A message about a process, with the firewall on: the application of the message leaves the
      table if and only if the process ended and the application does not run any more; it is
      tracked, and trusted if exempt, after one started; every other entry and its trust stay; and
      nobody loses trust in maintenance. */
  lemma NetProcess(n: N.Net, msg: Message, ans: N.NetAnswers, u: int)
    requires n.enabled && msg.ProcessState?
    ensures var r := N.HandleNetMessage(n, msg, ans);
            && (u in n.apps && u !in r.apps <==> u in n.apps && u == msg.uid && !msg.created && ans.stopped)
            && (u !in n.apps && u in r.apps <==> u !in n.apps && u == msg.uid && msg.created)
            && (u in n.apps && u in r.apps ==> r.apps[u] == n.apps[u])
            && (u in r.apps && u !in n.apps ==> r.apps[u] == N.NetApp(msg.name, N.NewNetFlag(ans, msg.name)))
            && (u in n.trust && u !in r.trust <==>
                  u in n.trust && !n.idle && u in n.apps && u !in r.apps && IsFlagExempted(n.apps[u].flag, ans.night))
            && (u !in n.trust && u in r.trust <==>
                  u !in n.trust && u == msg.uid && msg.created && IsFlagExempted(r.apps[u].flag, ans.night))
            && r.enabled && r.policy == n.policy
  {
    hide IsFlagExempted, N.NewNetFlag;
  }
}
