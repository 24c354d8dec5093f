/** The running-lock strategy in place: the table of applications, the two flags and the locks
    that the power manager holds back, updated loop by loop. Every method computes the function
    of `RunningLockRules` for its source function. */
module RunningLockStrategies {
  import opened StandbyTypes
  import opened ExemptionFlags
  import opened IntSets
  import opened RecordKeys
  import opened RunningLockRules
  import opened RunningLockProofs

  function AsSet(list: seq<(int, int)>): set<(int, int)> {
    set x | x in list
  }

  lemma AsSetMore(list: seq<(int, int)>, x: (int, int))
    ensures AsSet([]) == {} && AsSet(list + [x]) == AsSet(list) + {x} && AsSet([x]) == {x}
  {
  }

  lemma PairsMore(a: App, todo: set<int>, pid: int)
    requires todo <= a.pids && pid in todo
    ensures PidsOf(a.(pids := a.pids - (todo - {pid}))) == PidsOf(a.(pids := a.pids - todo)) + {(pid, a.uid)}
  {
    assert a.pids - (todo - {pid}) == (a.pids - todo) + {pid};
  }

  // ---------------------------------------------------------------- partly processed tables

  /** The pids of those applications with keys in `done` that are not exempt. */
  ghost function RestrictedIn(apps: map<string, App>, done: set<string>): set<(int, int)> {
    set k, p | k in apps && k in done && !IsExempted(apps[k].flag) && p in apps[k].pids :: (p, apps[k].uid)
  }

  ghost function WithoutTasksIn(apps: map<string, App>, done: set<string>): map<string, App> {
    map k | k in apps :: if k in done then apps[k].(flag := Without(apps[k].flag, TASK_FLAGS)) else apps[k]
  }

  ghost function NoLongerExemptIn(apps: map<string, App>, done: set<string>): set<(int, int)> {
    set k, p | k in apps && k in done && IsExempted(apps[k].flag) && !IsExempted(Without(apps[k].flag, TASK_FLAGS))
               && p in apps[k].pids :: (p, apps[k].uid)
  }

  lemma RestrictedStep(apps: map<string, App>, done: set<string>, k: string)
    requires k in apps
    ensures RestrictedIn(apps, done + {k}) == RestrictedIn(apps, done) + Share(apps[k])
  {
    hide IsExempted;
    forall x | x in Share(apps[k])
      ensures x in RestrictedIn(apps, done + {k})
    {
      assert x.0 in apps[k].pids;
    }
  }

  lemma NoLongerExemptStep(apps: map<string, App>, done: set<string>, k: string)
    requires k in apps
    ensures NoLongerExemptIn(apps, done + {k}) == NoLongerExemptIn(apps, done)
            + (if IsExempted(apps[k].flag) && !IsExempted(Without(apps[k].flag, TASK_FLAGS)) then PidsOf(apps[k]) else {})
  {
    hide IsExempted;
    var more := if IsExempted(apps[k].flag) && !IsExempted(Without(apps[k].flag, TASK_FLAGS)) then PidsOf(apps[k]) else {};
    forall x | x in more
      ensures x in NoLongerExemptIn(apps, done + {k})
    {
      assert x.0 in apps[k].pids;
    }
  }

  /** Removing just the task bits that are set removes all of them. */
  lemma TaskBits(flag: bv8)
    ensures Without(flag, flag & TASK_FLAGS) == Without(flag, TASK_FLAGS)
    ensures flag & TASK_FLAGS == 0 ==> Without(flag, TASK_FLAGS) == flag
  {
  }

  lemma WalkStarts(apps: map<string, App>)
    ensures WithoutTasksIn(apps, {}) == apps && NoLongerExemptIn(apps, {}) == {}
  {
    hide IsExempted;
  }

  lemma WalkEnds(apps: map<string, App>)
    ensures WithoutTasksIn(apps, apps.Keys) == WithoutTasks(apps)
    ensures NoLongerExemptIn(apps, apps.Keys) == NoLongerExempt(apps)
  {
    hide IsExempted;
  }

  lemma WithoutTasksStep(apps: map<string, App>, done: set<string>, k: string)
    requires k in apps && k !in done
    ensures WithoutTasksIn(apps, done)[k] == apps[k]
    ensures WithoutTasksIn(apps, done + {k}) == WithoutTasksIn(apps, done)[k := apps[k].(flag := Without(apps[k].flag, TASK_FLAGS))]
  {
  }

  lemma KeysOfMore(tasks: seq<(int, string)>, i: nat)
    requires i < |tasks|
    ensures KeysOf(tasks[..i + 1]) == KeysOf(tasks[..i]) + {Key(tasks[i].0, tasks[i].1)}
  {
    hide Key;
    var more := tasks[..i + 1];
    assert more[i] in more && forall t :: t in tasks[..i] ==> t in more;
    forall k | k in KeysOf(more)
      ensures k in KeysOf(tasks[..i]) + {Key(tasks[i].0, tasks[i].1)}
    {
      var t :| t in more && k == Key(t.0, t.1);
      if t != tasks[i] { assert t in tasks[..i]; }
    }
  }

  lemma MarkMore(apps: map<string, App>, keys: set<string>, k: string, flag: bv8)
    ensures var m := Mark(apps, keys, flag);
            Mark(apps, keys + {k}, flag) == if k in apps then m[k := m[k].(flag := With(m[k].flag, flag))] else m
  {
    var m := Mark(apps, keys, flag);
    var more := Mark(apps, keys + {k}, flag);
    if k in apps {
      WithTwice(apps[k].flag, flag);
      hide With;
      assert more[k] == m[k].(flag := With(m[k].flag, flag));
      forall l | l in apps && l != k
        ensures more[l] == m[l]
      {
        assert l in keys + {k} <==> l in keys;
      }
    }
  }

  lemma FlagsKeyed(r: Proxy, uid: int, name: string, flag: bv8)
    requires Keyed(r.apps)
    ensures Keyed(AddFlag(r, uid, name, flag).apps) && Keyed(RemoveFlag(r, uid, name, flag).apps)
  {
    hide Key, IsExempted, PidsOf, With, Without;
  }

  lemma ProcessesKeyed(r: Proxy, uid: int, pid: int, name: string, newFlag: bv8)
    requires Keyed(r.apps)
    ensures Keyed(ProcessCreated(r, uid, pid, name, newFlag).apps) && Keyed(ProcessDied(r, uid, pid, name).apps)
  {
    var k := Key(uid, name);
    if k in r.apps { KeyIsInjective(uid, name, r.apps[k].uid, r.apps[k].name); }
    hide Key, IsExempted;
  }

  lemma StartsKeyed(r: Proxy, state: State, phase: nat, s: Survey)
    requires Keyed(r.apps)
    ensures Keyed(StartProxy(r, state, phase, s).apps) && Keyed(UpdateResource(r, s).apps)
  {
    RebuildSound(s);
    hide Key, Rebuild, Restricted;
  }

  lemma StopKeyed(r: Proxy, pre: State, cur: State)
    requires Keyed(r.apps)
    ensures Keyed(StopProxy(r, pre, cur).apps) && Keyed(ResetStatus(r).apps)
  {
    hide Key, Restricted, NoLongerExempt;
  }

  /** Every operation keeps the keys right. */
  lemma HandleMessageKeyed(r: Proxy, msg: Message, ans: Answers)
    requires Keyed(r.apps)
    ensures Keyed(HandleMessage(r, msg, ans).apps)
  {
    hide Keyed, AddFlag, RemoveFlag, StartProxy, StopProxy, UpdateResource, ResetStatus, ProcessCreated, ProcessDied;
    match msg
    case AllowListChanged(uid, name, _, _) => FlagsKeyed(r, uid, name, EXEMPTION);
    case ConditionChanged => StartsKeyed(r, Working, 0, ans.survey);
    case PhaseTransit(state, _, curPhase) => StartsKeyed(r, state, curPhase, ans.survey);
    case StateTransit(pre, cur) => StopKeyed(r, pre, cur);
    case BgTaskStatus(task, _, uid, name) =>
      FlagsKeyed(r, uid, if name == "" then ans.bundleName else name, TaskFlag(task));
    case ProcessState(uid, pid, name, _) => ProcessesKeyed(r, uid, pid, name, NewFlag(ans.newcomer, name));
    case SysAbility(_, _) => StopKeyed(r, Working, Working);
    case _ =>
  }

  lemma CollectMore(infos: seq<AppInfo>, i: nat)
    requires i < |infos|
    ensures CollectApps(infos[..i + 1]) == WithInfo(CollectApps(infos[..i]), infos[i])
    ensures var names := CollectNames(infos[..i]);
            CollectNames(infos[..i + 1]) ==
            if infos[i].uid in names then names else names[infos[i].uid := infos[i].name]
  {
    assert infos[..i + 1][..i] == infos[..i] && infos[..i + 1][i] == infos[i];
    hide WithInfo;
  }

  class RunningLockStrategy {
    var proxiedAppInfo: map<string, App>
    var uidBundleNameMap: map<int, string>
    var isProxied: bool
    var isIdleMaintence: bool
    var ledger: set<(int, int)>         // running locks held back by the power manager

    ghost function Snapshot(): Proxy
      reads this
    {
      Proxy(proxiedAppInfo, isProxied, isIdleMaintence, ledger)
    }

    constructor ()
      ensures Snapshot() == Proxy(map[], false, false, {}) && Tidy(Snapshot())
    {
      proxiedAppInfo, uidBundleNameMap := map[], map[];
      isProxied, isIdleMaintence := false, false;
      ledger := {};
      new;
      EmptySound();
    }

    // -------------------------------------------------------------- talking to the power manager

    method SetProxiedAppList(list: seq<(int, int)>, info: App) returns (more: seq<(int, int)>)
      ensures AsSet(more) == AsSet(list) + PidsOf(info)
    {
      more := list;
      var todo := info.pids;
      while todo != {}
        invariant todo <= info.pids
        invariant AsSet(more) == AsSet(list) + PidsOf(info.(pids := info.pids - todo))
        decreases |todo|
      {
        NotEmpty(todo);
        var pid :| pid in todo;
        hide AsSet, PidsOf;
        PairsMore(info, todo, pid);
        AsSetMore(more, (pid, info.uid));
        more := more + [(pid, info.uid)];
        todo := todo - {pid};
      }
      assert info.(pids := info.pids - {}) == info;
    }

    method ProxyRunningLockList(on: bool, list: seq<(int, int)>)
      modifies this`ledger
      ensures Snapshot() == ProxyList(old(Snapshot()), on, AsSet(list))
    {
      if |list| == 0 { return; }
      if isIdleMaintence { return; }
      ledger := if on then ledger + AsSet(list) else ledger - AsSet(list);
    }

    method ProxyAppAndProcess(on: bool)
      modifies this`ledger
      ensures Snapshot() == ProxyAll(old(Snapshot()), on)
    {
      var list := [];
      var todo := proxiedAppInfo.Keys;
      while todo != {}
        invariant todo <= proxiedAppInfo.Keys && Snapshot() == old(Snapshot())
        invariant AsSet(list) == RestrictedIn(proxiedAppInfo, proxiedAppInfo.Keys - todo)
        decreases |todo|
      {
        hide IsExempted, RestrictedIn, PidsOf, AsSet;
        var key :| key in todo;
        RestrictedStep(proxiedAppInfo, proxiedAppInfo.Keys - todo, key);
        assert proxiedAppInfo.Keys - (todo - {key}) == (proxiedAppInfo.Keys - todo) + {key};
        if !IsExempted(proxiedAppInfo[key].flag) {
          list := SetProxiedAppList(list, proxiedAppInfo[key]);
        }
        todo := todo - {key};
      }
      assert RestrictedIn(proxiedAppInfo, proxiedAppInfo.Keys) == Restricted(proxiedAppInfo) by { hide IsExempted; }
      ProxyRunningLockList(on, list);
    }

    // -------------------------------------------------------------- rebuilding the table

    method ClearProxyRecord()
      modifies this`proxiedAppInfo, this`uidBundleNameMap
      ensures proxiedAppInfo == map[] && uidBundleNameMap == map[]
    {
      proxiedAppInfo, uidBundleNameMap := map[], map[];
    }

    method GetAllAppInfos(infos: seq<AppInfo>)
      requires proxiedAppInfo == map[] && uidBundleNameMap == map[]
      modifies this`proxiedAppInfo, this`uidBundleNameMap
      ensures proxiedAppInfo == CollectApps(infos) && uidBundleNameMap == CollectNames(infos)
    {
      for i := 0 to |infos|
        invariant proxiedAppInfo == CollectApps(infos[..i]) && uidBundleNameMap == CollectNames(infos[..i])
      {
        var info := infos[i];
        CollectMore(infos, i);
        hide CollectApps, CollectNames, WithInfo;
        if info.uid !in uidBundleNameMap { uidBundleNameMap := uidBundleNameMap[info.uid := info.name]; }
        FileAppInfo(info);
      }
      assert infos[..|infos|] == infos;
    }

    /** An entry for the application, marked when it is a system application. */
    method FileAppInfo(info: AppInfo)
      modifies this`proxiedAppInfo
      ensures proxiedAppInfo == WithInfo(old(proxiedAppInfo), info)
    {
      hide Key, With;
      var key := Key(info.uid, info.name);
      var app := if key in proxiedAppInfo then proxiedAppInfo[key] else App(info.name, info.uid, {}, 0);
      if info.isSystem { app := app.(flag := With(app.flag, UNRESTRICTED)); }
      proxiedAppInfo := proxiedAppInfo[key := app];
    }

    method GetAllRunningAppInfo(procs: seq<ProcInfo>)
      modifies this`proxiedAppInfo
      ensures proxiedAppInfo == KeepRunning(AddProcs(old(proxiedAppInfo), uidBundleNameMap, procs),
                                            RunningUids(uidBundleNameMap, procs))
    {
      var runningUids: set<int> := {};
      for i := 0 to |procs|
        invariant proxiedAppInfo == AddProcs(old(proxiedAppInfo), uidBundleNameMap, procs[..i])
        invariant runningUids == RunningUids(uidBundleNameMap, procs[..i])
      {
        var p := procs[i];
        assert procs[..i + 1][..i] == procs[..i] && procs[..i + 1][i] == p;
        RunningUidsMore(uidBundleNameMap, procs, i);
        if p.uid !in uidBundleNameMap { continue; }
        runningUids := runningUids + {p.uid};
        var key := Key(p.uid, uidBundleNameMap[p.uid]);
        if key !in proxiedAppInfo { proxiedAppInfo := proxiedAppInfo[key := App(p.name, p.uid, {}, 0)]; }
        var app := proxiedAppInfo[key];
        proxiedAppInfo := proxiedAppInfo[key := app.(pids := app.pids + {p.pid})];
        assert proxiedAppInfo == WithProc(AddProcs(old(proxiedAppInfo), uidBundleNameMap, procs[..i]), uidBundleNameMap, p)
          by { hide Key; }
      }
      assert procs[..|procs|] == procs;
      EraseStopped(runningUids);
    }

    /** If an application is not running, its entry is erased. */
    method EraseStopped(runningUids: set<int>)
      modifies this`proxiedAppInfo
      ensures proxiedAppInfo == KeepRunning(old(proxiedAppInfo), runningUids)
    {
      var todo := proxiedAppInfo.Keys;
      while todo != {}
        invariant todo <= old(proxiedAppInfo).Keys
        invariant proxiedAppInfo == map k | k in old(proxiedAppInfo)
                                            && (k in todo || old(proxiedAppInfo)[k].uid in runningUids)
                                    :: old(proxiedAppInfo)[k]
        decreases |todo|
      {
        var key :| key in todo;
        if proxiedAppInfo[key].uid !in runningUids { proxiedAppInfo := proxiedAppInfo - {key}; }
        todo := todo - {key};
      }
    }

    /** One flag for every listed application that is tracked: foreground, transient, work. */
    method MarkTasks(tasks: seq<(int, string)>, flag: bv8)
      modifies this`proxiedAppInfo
      ensures proxiedAppInfo == Mark(old(proxiedAppInfo), KeysOf(tasks), flag)
    {
      for i := 0 to |tasks|
        invariant proxiedAppInfo == Mark(old(proxiedAppInfo), KeysOf(tasks[..i]), flag)
      {
        var key := Key(tasks[i].0, tasks[i].1);
        KeysOfMore(tasks, i);
        MarkMore(old(proxiedAppInfo), KeysOf(tasks[..i]), key, flag);
        if key in proxiedAppInfo {
          var app := proxiedAppInfo[key];
          proxiedAppInfo := proxiedAppInfo[key := app.(flag := With(app.flag, flag))];
        }
      }
      assert tasks[..|tasks|] == tasks;
    }

    method MarkContinuous(uids: seq<int>)
      modifies this`proxiedAppInfo
      ensures proxiedAppInfo == Mark(old(proxiedAppInfo), ContinuousKeys(uids, uidBundleNameMap), CONTINUOUS_TASK)
    {
      for i := 0 to |uids|
        invariant proxiedAppInfo == Mark(old(proxiedAppInfo), ContinuousKeys(uids[..i], uidBundleNameMap), CONTINUOUS_TASK)
      {
        var uid := uids[i];
        ContinuousMore(uids, uidBundleNameMap, i);
        if uid !in uidBundleNameMap { continue; }
        var key := Key(uid, uidBundleNameMap[uid]);
        MarkMore(old(proxiedAppInfo), ContinuousKeys(uids[..i], uidBundleNameMap), key, CONTINUOUS_TASK);
        if key !in proxiedAppInfo { continue; }
        var app := proxiedAppInfo[key];
        proxiedAppInfo := proxiedAppInfo[key := app.(flag := With(app.flag, CONTINUOUS_TASK))];
      }
      assert uids[..|uids|] == uids;
    }

    method MarkListed(names: set<string>, flag: bv8)
      modifies this`proxiedAppInfo
      ensures proxiedAppInfo == MarkNames(old(proxiedAppInfo), names, flag)
    {
      var todo := proxiedAppInfo.Keys;
      while todo != {}
        invariant todo <= old(proxiedAppInfo).Keys == proxiedAppInfo.Keys
        invariant forall k :: k in proxiedAppInfo ==>
                    proxiedAppInfo[k] == if k in todo then old(proxiedAppInfo)[k]
                                         else MarkNames(old(proxiedAppInfo), names, flag)[k]
        decreases |todo|
      {
        var key :| key in todo;
        var app := proxiedAppInfo[key];
        if app.name in names { proxiedAppInfo := proxiedAppInfo[key := app.(flag := With(app.flag, flag))]; }
        todo := todo - {key};
      }
    }

    /** InitProxiedAppInfo: the answers come one by one, and any of them may be missing. */
    method InitProxiedAppInfo(s: Survey) returns (ok: bool)
      requires proxiedAppInfo == map[] && uidBundleNameMap == map[]
      modifies this`proxiedAppInfo, this`uidBundleNameMap
      ensures ok == s.available
      ensures ok ==> proxiedAppInfo == Rebuild(s) && uidBundleNameMap == map[]
    {
      if !s.available { return false; }
      hide CollectApps, CollectNames, AddProcs, KeepRunning, Mark, MarkNames, KeysOf, ContinuousKeys, RunningUids;
      GetAllAppInfos(s.infos);
      GetAllRunningAppInfo(s.procs);
      MarkTasks(s.foreground, FOREGROUND_APP);
      MarkContinuous(s.continuous);
      MarkTasks(s.transient, TRANSIENT_TASK);
      MarkTasks(s.works, WORK_SCHEDULER);
      MarkListed(s.allowed, EXEMPTION);
      MarkListed(s.restricted, RESTRICTED);
      uidBundleNameMap := map[];
      ok := true;
    }

    // -------------------------------------------------------------- starting and stopping

    method StartProxyInner(s: Survey) returns (ok: bool)
      modifies this`proxiedAppInfo, this`uidBundleNameMap, this`ledger
      ensures ok == s.available && Snapshot() == StartInner(old(Snapshot()), s)
    {
      hide Rebuild, Restricted;
      ClearProxyRecord();
      ok := InitProxiedAppInfo(s);
      if !ok {
        ClearProxyRecord();
        return;
      }
      ProxyAppAndProcess(true);
    }

    method StopProxyInner()
      modifies this`proxiedAppInfo, this`uidBundleNameMap, this`ledger
      ensures Snapshot() == StopInner(old(Snapshot()))
    {
      hide Restricted;
      ProxyAppAndProcess(false);
      ClearProxyRecord();
    }

    method StartProxyOn(state: State, phase: nat, s: Survey)
      modifies this
      ensures Snapshot() == StartProxy(old(Snapshot()), state, phase, s)
    {
      hide Rebuild, Restricted;
      if isProxied { return; }
      if state != Sleep || phase != APP_RES_DEEP { return; }
      var ok := StartProxyInner(s);
      if !ok { return; }
      isProxied := true;
      isIdleMaintence := false;
    }

    method StopProxyOn(pre: State, cur: State)
      modifies this
      ensures Snapshot() == StopProxy(old(Snapshot()), pre, cur)
    {
      hide Restricted;
      if !isProxied { return; }
      if cur == Maintenance && pre == Sleep {
        ProxyAppAndProcess(false);
        isIdleMaintence := true;
      } else if cur == Sleep && pre == Maintenance {
        isIdleMaintence := false;
        ProxyAppAndProcess(true);
      } else if pre == Sleep || pre == Maintenance {
        StopProxyInner();
        isProxied := false;
        isIdleMaintence := false;
      }
    }

    method UpdateResourceConfig(s: Survey)
      modifies this`proxiedAppInfo, this`uidBundleNameMap, this`ledger
      ensures Snapshot() == UpdateResource(old(Snapshot()), s)
    {
      hide StartInner, StopInner;
      StopProxyInner();
      var ok := StartProxyInner(s);
    }

    // -------------------------------------------------------------- exemption flags

    method AddExemptionFlag(uid: int, name: string, flag: bv8)
      modifies this`proxiedAppInfo, this`ledger
      ensures Snapshot() == AddFlag(old(Snapshot()), uid, name, flag)
    {
      hide IsExempted, Key, PidsOf, With, Without, AsSet;
      if !isProxied { return; }
      var key := Key(uid, name);
      if key in proxiedAppInfo {
        var lastFlag := proxiedAppInfo[key].flag;
        var app := proxiedAppInfo[key].(flag := With(lastFlag, flag));
        proxiedAppInfo := proxiedAppInfo[key := app];
        if !IsExempted(lastFlag) && IsExempted(app.flag) {
          var list := SetProxiedAppList([], app);
          AsSetMore([], (0, 0));
          ProxyRunningLockList(false, list);
        }
      }
    }

    method RemoveExemptionFlag(uid: int, name: string, flag: bv8)
      modifies this`proxiedAppInfo, this`ledger
      ensures Snapshot() == RemoveFlag(old(Snapshot()), uid, name, flag)
    {
      hide IsExempted, Key, PidsOf, With, Without, AsSet;
      var key := Key(uid, name);
      if key !in proxiedAppInfo { return; }
      var lastFlag := proxiedAppInfo[key].flag;
      var app := proxiedAppInfo[key].(flag := Without(lastFlag, flag));
      proxiedAppInfo := proxiedAppInfo[key := app];
      if IsExempted(app.flag) || !IsExempted(lastFlag) { return; }
      var list := SetProxiedAppList([], app);
      AsSetMore([], (0, 0));
      ProxyRunningLockList(true, list);
    }

    /** Walks over the table and edits the entry it stands on. */
    method ResetProxyStatus(added: bool, isTaskService: bool)
      requires Keyed(proxiedAppInfo)
      modifies this`proxiedAppInfo, this`ledger
      ensures Snapshot() == if added || !isTaskService then old(Snapshot()) else ResetStatus(old(Snapshot()))
    {
      if !isProxied || isIdleMaintence { return; }
      if added || !isTaskService { return; }
      hide WithoutTasks, NoLongerExempt, Keyed;
      RemoveTaskFlags();
    }

    method RemoveTaskFlags()
      requires Keyed(proxiedAppInfo) && isProxied && !isIdleMaintence
      modifies this`proxiedAppInfo, this`ledger
      ensures proxiedAppInfo == WithoutTasks(old(proxiedAppInfo))
      ensures ledger == old(ledger) + NoLongerExempt(old(proxiedAppInfo))
    {
      ghost var apps, base := proxiedAppInfo, ledger;
      WalkStarts(apps);
      WalkEnds(apps);
      hide WithoutTasksIn, NoLongerExemptIn, WithoutTasks, NoLongerExempt, Keyed;
      var todo := proxiedAppInfo.Keys;
      assert apps.Keys - todo == {};
      while todo != {}
        invariant todo <= apps.Keys
        invariant proxiedAppInfo == WithoutTasksIn(apps, apps.Keys - todo)
        invariant ledger == base + NoLongerExemptIn(apps, apps.Keys - todo)
        decreases |todo|
      {
        var key :| key in todo;
        ResetEntry(apps, apps.Keys - todo, base, key);
        assert (apps.Keys - todo) + {key} == apps.Keys - (todo - {key});
        todo := todo - {key};
      }
      assert apps.Keys - todo == apps.Keys;
    }

    /** One step of the walk: the entry loses its task bits, and its pids are proxied when that
        ends its exemption. */
    method ResetEntry(ghost apps: map<string, App>, ghost done: set<string>, ghost base: set<(int, int)>, key: string)
      requires Keyed(apps) && key in apps && key !in done && isProxied && !isIdleMaintence
      requires proxiedAppInfo == WithoutTasksIn(apps, done) && ledger == base + NoLongerExemptIn(apps, done)
      modifies this`proxiedAppInfo, this`ledger
      ensures proxiedAppInfo == WithoutTasksIn(apps, done + {key})
      ensures ledger == base + NoLongerExemptIn(apps, done + {key})
    {
      var app := proxiedAppInfo[key];
      assert app == apps[key] && key == Key(app.uid, app.name);
      TaskBits(app.flag);
      NoLongerExemptStep(apps, done, key);
      WithoutTasksStep(apps, done, key);
      hide IsExempted, Key, NoLongerExemptIn, WithoutTasksIn, Keyed, PidsOf, With, Without;
      if app.flag & TASK_FLAGS != 0 {
        RemoveExemptionFlag(app.uid, app.name, app.flag & TASK_FLAGS);
      }
    }

    // -------------------------------------------------------------- processes

    method GetAndCreateAppInfo(uid: int, pid: int, name: string, from: Newcomer)
      modifies this`proxiedAppInfo
      ensures var k := Key(uid, name);
              var a := if k in old(proxiedAppInfo) then old(proxiedAppInfo)[k] else App(name, uid, {}, NewFlag(from, name));
              proxiedAppInfo == old(proxiedAppInfo)[k := a.(pids := a.pids + {pid})]
    {
      hide With, Configured;
      var key := Key(uid, name);
      if key in proxiedAppInfo {
        var app := proxiedAppInfo[key];
        proxiedAppInfo := proxiedAppInfo[key := app.(pids := app.pids + {pid})];
        return;
      }
      assert {} + {pid} == {pid};
      var app := App(name, uid, {pid}, 0);
      if from.system { app := app.(flag := With(app.flag, UNRESTRICTED)); }
      app := GetExemptionConfigForApp(app, name, from);
      proxiedAppInfo := proxiedAppInfo[key := app];
    }

    method GetExemptionConfigForApp(appInfo: App, name: string, from: Newcomer) returns (r: App)
      ensures r == appInfo.(flag := Configured(appInfo.flag, from, name))
    {
      hide With;
      r := appInfo;
      for j := 0 to |from.allowed|
        invariant r == appInfo.(flag := WithAllowed(appInfo.flag, from.allowed[..j], name))
      {
        AllowedMore(appInfo.flag, from.allowed, name, j);
        if from.allowed[j] != name { continue; }
        r := r.(flag := With(r.flag, EXEMPTION));
      }
      assert from.allowed[..|from.allowed|] == from.allowed;
      if name in from.restricted { r := r.(flag := With(r.flag, RESTRICTED)); }
    }

    method HandleProcessStatusChanged(uid: int, pid: int, name: string, created: bool, from: Newcomer)
      modifies this`proxiedAppInfo, this`ledger
      ensures Snapshot() == if created then ProcessCreated(old(Snapshot()), uid, pid, name, NewFlag(from, name))
                            else ProcessDied(old(Snapshot()), uid, pid, name)
    {
      hide IsExempted, Key;
      if !isProxied { return; }
      AsSetMore([], (pid, uid));
      assert [] + [(pid, uid)] == [(pid, uid)];
      hide AsSet;
      var key := Key(uid, name);
      if created {
        GetAndCreateAppInfo(uid, pid, name, from);
        if !IsExempted(proxiedAppInfo[key].flag) { ProxyRunningLockList(true, [(pid, uid)]); }
        assert Snapshot() == ProcessCreated(old(Snapshot()), uid, pid, name, NewFlag(from, name));
      } else {
        if key !in proxiedAppInfo { return; }
        if !IsExempted(proxiedAppInfo[key].flag) { ProxyRunningLockList(false, [(pid, uid)]); }
        var app := proxiedAppInfo[key];
        app := app.(pids := app.pids - {pid});
        proxiedAppInfo := if app.pids == {} then proxiedAppInfo - {key} else proxiedAppInfo[key := app];
      }
    }

    // -------------------------------------------------------------- messages

    method UpdateBgTaskAppStatus(task: BgTaskType, started: bool, uid: int, name: string, bundleName: string)
      modifies this`proxiedAppInfo, this`ledger
      ensures Snapshot() == if task.UnknownTask? then old(Snapshot())
                            else if started
                            then AddFlag(old(Snapshot()), uid, if name == "" then bundleName else name, TaskFlag(task))
                            else RemoveFlag(old(Snapshot()), uid, if name == "" then bundleName else name, TaskFlag(task))
    {
      hide AddFlag, RemoveFlag;
      if task.UnknownTask? { return; }
      var bundle := name;
      if bundle == "" { bundle := bundleName; }
      if started {
        AddExemptionFlag(uid, bundle, TaskFlag(task));
      } else {
        RemoveExemptionFlag(uid, bundle, TaskFlag(task));
      }
    }

    method UpdateExemptionList(uid: int, name: string, allowType: bv32, added: bool)
      modifies this`proxiedAppInfo, this`ledger
      ensures Snapshot() == if allowType & ALLOW_RUNNING_LOCK == 0 || !old(isProxied) then old(Snapshot())
                            else if added then AddFlag(old(Snapshot()), uid, name, EXEMPTION)
                            else RemoveFlag(old(Snapshot()), uid, name, EXEMPTION)
    {
      hide AddFlag, RemoveFlag;
      if allowType & ALLOW_RUNNING_LOCK == 0 { return; }
      if !isProxied { return; }
      if added {
        AddExemptionFlag(uid, name, EXEMPTION);
      } else {
        RemoveExemptionFlag(uid, name, EXEMPTION);
      }
    }

    /** The whole strategy: one message in, the ledger exact before and after. */
    method HandleEvent(msg: Message, ans: Answers)
      requires Keyed(proxiedAppInfo)
      modifies this
      ensures Snapshot() == HandleMessage(old(Snapshot()), msg, ans) && Keyed(proxiedAppInfo)
      ensures old(Tidy(Snapshot()) && FitsTable(Snapshot(), msg)) && (msg.ConditionChanged? ==> old(isProxied))
              ==> Tidy(Snapshot())
    {
      ghost var r := Snapshot();
      HandleMessageKeyed(r, msg, ans);
      if Tidy(r) && FitsTable(r, msg) && (msg.ConditionChanged? ==> isProxied) { HandleMessageTidy(r, msg, ans); }
      hide Tidy, FitsTable, Keyed, AddFlag, RemoveFlag, StartProxy, StopProxy, UpdateResource, ResetStatus,
           ProcessCreated, ProcessDied;
      match msg
      case AllowListChanged(uid, name, allowType, added) => UpdateExemptionList(uid, name, allowType, added);
      case ConditionChanged => UpdateResourceConfig(ans.survey);
      case PhaseTransit(state, _, curPhase) => StartProxyOn(state, curPhase, ans.survey);
      case StateTransit(pre, cur) => StopProxyOn(pre, cur);
      case BgTaskStatus(task, started, uid, name) => UpdateBgTaskAppStatus(task, started, uid, name, ans.bundleName);
      case ProcessState(uid, pid, name, created) => HandleProcessStatusChanged(uid, pid, name, created, ans.newcomer);
      case SysAbility(added, isTaskService) => ResetProxyStatus(added, isTaskService);
      case _ =>
    }
  }

  lemma RunningUidsMore(names: map<int, string>, procs: seq<ProcInfo>, i: nat)
    requires i < |procs|
    ensures RunningUids(names, procs[..i + 1])
         == RunningUids(names, procs[..i]) + (if procs[i].uid in names then {procs[i].uid} else {})
  {
    var more := procs[..i + 1];
    assert more[i] in more && forall p :: p in procs[..i] ==> p in more;
    forall u | u in RunningUids(names, more)
      ensures u in RunningUids(names, procs[..i]) + (if procs[i].uid in names then {procs[i].uid} else {})
    {
      var p :| p in more && p.uid in names && p.uid == u;
      if p != procs[i] { assert p in procs[..i]; }
    }
  }

  lemma ContinuousMore(uids: seq<int>, names: map<int, string>, i: nat)
    requires i < |uids|
    ensures ContinuousKeys(uids[..i + 1], names)
         == ContinuousKeys(uids[..i], names) + (if uids[i] in names then {Key(uids[i], names[uids[i]])} else {})
  {
    hide Key;
    var more := uids[..i + 1];
    assert more[i] in more && forall u :: u in uids[..i] ==> u in more;
    forall k | k in ContinuousKeys(more, names)
      ensures k in ContinuousKeys(uids[..i], names) + (if uids[i] in names then {Key(uids[i], names[uids[i]])} else {})
    {
      var u :| u in more && u in names && k == Key(u, names[u]);
      if u != uids[i] { assert u in uids[..i]; }
    }
  }
}
