/** The running-lock strategy as functions on its state. The ledger is the set of (pid, uid)
    whose running locks the power manager holds back for the strategy. */
module RunningLockRules {
  import opened StandbyTypes
  import opened ExemptionFlags
  import opened RecordKeys

  datatype App = App(name: string, uid: int, pids: set<int>, flag: bv8)

  datatype Proxy = Proxy(
    apps: map<string, App>,      // proxiedAppInfo_
    proxied: bool,               // isProxied_
    idle: bool,                  // isIdleMaintence_
    ledger: set<(int, int)>)

  datatype AppInfo = AppInfo(uid: int, name: string, isSystem: bool)
  datatype ProcInfo = ProcInfo(pid: int, uid: int, name: string)

  /** What the other services answer when the strategy rebuilds its table. */
  datatype Survey = Survey(
    available: bool,                        // every service answered
    infos: seq<AppInfo>,
    procs: seq<ProcInfo>,
    foreground: seq<(int, string)>,
    continuous: seq<int>,                   // creator uids
    transient: seq<(int, string)>,
    works: seq<(int, string)>,
    allowed: set<string>,
    restricted: set<string>)

  /** Answers needed while one message is handled. */
  datatype Answers = Answers(
    survey: Survey,
    bundleName: string,                     // of the uid, when the message carries no name
    newcomer: Newcomer)                     // asked for an application seen for the first time

  // ---------------------------------------------------------------- who is restricted

  function PidsOf(a: App): set<(int, int)> {
    set p | p in a.pids :: (p, a.uid)
  }

  /** The pids of the tracked applications that are not exempt. */
  function Restricted(apps: map<string, App>): set<(int, int)> {
    set k, p | k in apps && !IsExempted(apps[k].flag) && p in apps[k].pids :: (p, apps[k].uid)
  }

  /** ProxyRunningLockList: nothing happens during idle maintenance. */
  function ProxyList(r: Proxy, on: bool, list: set<(int, int)>): Proxy {
    if r.idle then r
    else r.(ledger := if on then r.ledger + list else r.ledger - list)
  }

  function ProxyAll(r: Proxy, on: bool): Proxy {
    ProxyList(r, on, Restricted(r.apps))
  }

  // ---------------------------------------------------------------- rebuilding the table

  /** uidBundleNmeMap_: the first name seen for a uid stays. */
  function CollectNames(infos: seq<AppInfo>): map<int, string> {
    if infos == [] then map[]
    else
      var before := CollectNames(infos[..|infos| - 1]);
      var i := infos[|infos| - 1];
      if i.uid in before then before else before[i.uid := i.name]
  }

  function WithInfo(apps: map<string, App>, i: AppInfo): map<string, App> {
    var k := Key(i.uid, i.name);
    var a := if k in apps then apps[k] else App(i.name, i.uid, {}, 0);
    apps[k := if i.isSystem then a.(flag := With(a.flag, UNRESTRICTED)) else a]
  }

  /** GetAllAppInfos */
  function CollectApps(infos: seq<AppInfo>): map<string, App> {
    if infos == [] then map[]
    else WithInfo(CollectApps(infos[..|infos| - 1]), infos[|infos| - 1])
  }

  function WithProc(apps: map<string, App>, names: map<int, string>, p: ProcInfo): map<string, App> {
    if p.uid !in names then apps
    else
      var k := Key(p.uid, names[p.uid]);
      var a := if k in apps then apps[k] else App(p.name, p.uid, {}, 0);
      apps[k := a.(pids := a.pids + {p.pid})]
  }

  function AddProcs(apps: map<string, App>, names: map<int, string>, procs: seq<ProcInfo>): map<string, App> {
    if procs == [] then apps
    else WithProc(AddProcs(apps, names, procs[..|procs| - 1]), names, procs[|procs| - 1])
  }

  function RunningUids(names: map<int, string>, procs: seq<ProcInfo>): set<int> {
    set p | p in procs && p.uid in names :: p.uid
  }

  function KeepRunning(apps: map<string, App>, uids: set<int>): map<string, App> {
    map k | k in apps && apps[k].uid in uids :: apps[k]
  }

  function Mark(apps: map<string, App>, keys: set<string>, flag: bv8): map<string, App> {
    map k | k in apps :: if k in keys then apps[k].(flag := With(apps[k].flag, flag)) else apps[k]
  }

  function MarkNames(apps: map<string, App>, names: set<string>, flag: bv8): map<string, App> {
    map k | k in apps :: if apps[k].name in names then apps[k].(flag := With(apps[k].flag, flag)) else apps[k]
  }

  function KeysOf(tasks: seq<(int, string)>): set<string> {
    set t | t in tasks :: Key(t.0, t.1)
  }

  function ContinuousKeys(uids: seq<int>, names: map<int, string>): set<string> {
    set u | u in uids && u in names :: Key(u, names[u])
  }

  /** GetAllAppInfos and GetAllRunningAppInfo: the running applications and their pids. */
  function RunningApps(s: Survey): map<string, App> {
    var names := CollectNames(s.infos);
    KeepRunning(AddProcs(CollectApps(s.infos), names, s.procs), RunningUids(names, s.procs))
  }

  /** InitProxiedAppInfo, when every service answers. */
  function Rebuild(s: Survey): map<string, App> {
    var a0 := RunningApps(s);
    var a1 := Mark(a0, KeysOf(s.foreground), FOREGROUND_APP);
    var a2 := Mark(a1, ContinuousKeys(s.continuous, CollectNames(s.infos)), CONTINUOUS_TASK);
    var a3 := Mark(a2, KeysOf(s.transient), TRANSIENT_TASK);
    var a4 := Mark(a3, KeysOf(s.works), WORK_SCHEDULER);
    MarkNames(MarkNames(a4, s.allowed, EXEMPTION), s.restricted, RESTRICTED)
  }

  // ---------------------------------------------------------------- starting and stopping

  /** StartProxyInner */
  function StartInner(r: Proxy, s: Survey): Proxy {
    if s.available then ProxyAll(r.(apps := Rebuild(s)), true) else r.(apps := map[])
  }

  function StopInner(r: Proxy): Proxy {
    ProxyAll(r, false).(apps := map[])
  }

  function StartProxy(r: Proxy, state: State, phase: nat, s: Survey): Proxy {
    if r.proxied || state != Sleep || phase != APP_RES_DEEP then r
    else
      var r1 := StartInner(r, s);
      if s.available then r1.(proxied := true, idle := false) else r1
  }

  function StopProxy(r: Proxy, pre: State, cur: State): Proxy {
    if !r.proxied then r
    else if cur == Maintenance && pre == Sleep then ProxyAll(r, false).(idle := true)
    else if cur == Sleep && pre == Maintenance then ProxyAll(r.(idle := false), true)
    else if pre == Sleep || pre == Maintenance then StopInner(r).(proxied := false, idle := false)
    else r
  }

  /** UpdateResourceConfig, run at the switch between day and night */
  function UpdateResource(r: Proxy, s: Survey): Proxy {
    StartInner(StopInner(r), s)
  }

  // ---------------------------------------------------------------- exemption flags

  function AddFlag(r: Proxy, uid: int, name: string, flag: bv8): Proxy {
    var k := Key(uid, name);
    if !r.proxied || k !in r.apps then r
    else
      var a := r.apps[k];
      var b := a.(flag := With(a.flag, flag));
      var r1 := r.(apps := r.apps[k := b]);
      if !IsExempted(a.flag) && IsExempted(b.flag) then ProxyList(r1, false, PidsOf(b)) else r1
  }

  function RemoveFlag(r: Proxy, uid: int, name: string, flag: bv8): Proxy {
    var k := Key(uid, name);
    if k !in r.apps then r
    else
      var a := r.apps[k];
      var b := a.(flag := Without(a.flag, flag));
      var r1 := r.(apps := r.apps[k := b]);
      if IsExempted(b.flag) || !IsExempted(a.flag) then r1 else ProxyList(r1, true, PidsOf(b))
  }

  const TASK_FLAGS: bv8 := TRANSIENT_TASK | WORK_SCHEDULER

  function WithoutTasks(apps: map<string, App>): map<string, App> {
    map k | k in apps :: apps[k].(flag := Without(apps[k].flag, TASK_FLAGS))
  }

  /** The pids of the applications that only a task had kept exempt. */
  function NoLongerExempt(apps: map<string, App>): set<(int, int)> {
    set k, p | k in apps && IsExempted(apps[k].flag) && !IsExempted(Without(apps[k].flag, TASK_FLAGS))
               && p in apps[k].pids :: (p, apps[k].uid)
  }

  /** ResetProxyStatus, after a task service died: one RemoveExemptionFlag for each application */
  function ResetStatus(r: Proxy): Proxy {
    if !r.proxied || r.idle then r
    else r.(apps := WithoutTasks(r.apps), ledger := r.ledger + NoLongerExempt(r.apps))
  }

  // ---------------------------------------------------------------- processes

  function ProcessCreated(r: Proxy, uid: int, pid: int, name: string, newFlag: bv8): Proxy {
    if !r.proxied then r
    else
      var k := Key(uid, name);
      var a := if k in r.apps then r.apps[k] else App(name, uid, {}, newFlag);
      var b := a.(pids := a.pids + {pid});
      var r1 := r.(apps := r.apps[k := b]);
      if IsExempted(b.flag) then r1 else ProxyList(r1, true, {(pid, uid)})
  }

  function ProcessDied(r: Proxy, uid: int, pid: int, name: string): Proxy {
    var k := Key(uid, name);
    if !r.proxied || k !in r.apps then r
    else
      var a := r.apps[k];
      var b := a.(pids := a.pids - {pid});
      var r1 := if IsExempted(a.flag) then r else ProxyList(r, false, {(pid, uid)});
      r1.(apps := if b.pids == {} then r.apps - {k} else r.apps[k := b])
  }

  // ---------------------------------------------------------------- messages

  // AllowType::RUNNING_LOCK
  const ALLOW_RUNNING_LOCK: bv32 := 2

  /** RunningLockStrategy::HandleEvent */
  function HandleMessage(r: Proxy, msg: Message, ans: Answers): Proxy {
    match msg
    case AllowListChanged(uid, name, allowType, added) =>
      if allowType & ALLOW_RUNNING_LOCK == 0 || !r.proxied then r
      else if added then AddFlag(r, uid, name, EXEMPTION)
      else RemoveFlag(r, uid, name, EXEMPTION)
    case ConditionChanged => UpdateResource(r, ans.survey)
    case PhaseTransit(state, _, curPhase) => StartProxy(r, state, curPhase, ans.survey)
    case StateTransit(pre, cur) => StopProxy(r, pre, cur)
    case BgTaskStatus(task, started, uid, name) =>
      if task.UnknownTask? then r
      else
        var bundle := if name == "" then ans.bundleName else name;
        if started then AddFlag(r, uid, bundle, TaskFlag(task))
        else RemoveFlag(r, uid, bundle, TaskFlag(task))
    case ProcessState(uid, pid, name, created) =>
      if created then ProcessCreated(r, uid, pid, name, NewFlag(ans.newcomer, name))
      else ProcessDied(r, uid, pid, name)
    case SysAbility(added, isTaskService) =>
      if added || !isTaskService then r else ResetStatus(r)
    case _ => r
  }
}
