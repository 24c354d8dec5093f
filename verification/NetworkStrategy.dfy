/** The network strategy in place: the table of limited applications, its two flags, and the
    trust list and idle policy of the net manager, updated loop by loop. Every method computes
    the function of `NetworkRules` for its source function. */
module NetworkStrategies {
  import opened StandbyTypes
  import opened ExemptionFlags
  import opened IntSets
  import opened NetworkRules
  import opened NetworkProofs

  // ---------------------------------------------------------------- partly processed lists

  function AsSet(uids: seq<int>): set<int> {
    set u | u in uids
  }

  lemma AsSetMore(uids: seq<int>, u: int)
    ensures AsSet([]) == {} && AsSet(uids + [u]) == AsSet(uids) + {u} && AsSet([u]) == {u}
  {
  }

  /** The exempt uids but those in `todo`. */
  ghost function ExemptBut(apps: map<int, NetApp>, todo: set<int>, night: bool): set<int> {
    set u | u in apps && u !in todo && IsFlagExempted(apps[u].flag, night)
  }

  lemma ExemptStep(apps: map<int, NetApp>, todo: set<int>, u: int, night: bool)
    requires u in apps && u in todo
    ensures ExemptBut(apps, todo - {u}, night)
         == ExemptBut(apps, todo, night) + (if IsFlagExempted(apps[u].flag, night) then {u} else {})
  {
    hide IsFlagExempted;
  }

  lemma ExemptEnds(apps: map<int, NetApp>, night: bool)
    ensures ExemptBut(apps, apps.Keys, night) == {}
    ensures ExemptBut(apps, {}, night) == ExemptUids(apps, night)
  {
    hide IsFlagExempted;
  }

  lemma ListedMore(uids: seq<int>, i: nat)
    requires i < |uids|
    ensures Listed(uids[..i + 1]) == Listed(uids[..i]) + {uids[i]}
  {
    assert uids[..i + 1] == uids[..i] + [uids[i]];
  }

  lemma SystemMore(systems: seq<(int, bool)>, i: nat)
    requires i < |systems|
    ensures SystemUids(systems[..i + 1]) == SystemUids(systems[..i]) + (if systems[i].1 then {systems[i].0} else {})
  {
    var more := systems[..i + 1];
    assert more == systems[..i] + [systems[i]];
    SystemSaid(systems[..i], systems[i].0);
    assert systems[i] in more;
    forall u | u in SystemUids(more)
      ensures u in SystemUids(systems[..i]) + (if systems[i].1 then {systems[i].0} else {})
    {
      var s :| s in more && s.1 && s.0 == u;
      assert s in systems[..i] || s == systems[i];
    }
  }

  lemma ContinuousMore(tasks: seq<(int, bool)>, night: bool, i: nat)
    requires i < |tasks|
    ensures ContinuousUids(tasks[..i + 1], night)
         == ContinuousUids(tasks[..i], night) + (if tasks[i].1 || !night then {tasks[i].0} else {})
  {
    var more := tasks[..i + 1];
    assert more == tasks[..i] + [tasks[i]];
    assert tasks[i] in more;
    forall u | u in ContinuousUids(more, night)
      ensures u in ContinuousUids(tasks[..i], night) + (if tasks[i].1 || !night then {tasks[i].0} else {})
    {
      var t :| t in more && (t.1 || !night) && t.0 == u;
      assert t in tasks[..i] || t == tasks[i];
    }
  }

  /** Marking one more uid. */
  lemma MarkMore(apps: map<int, NetApp>, uids: set<int>, u: int, flag: bv8)
    ensures var m := MarkUids(apps, uids, flag);
            MarkUids(apps, uids + {u}, flag) == if u in apps then m[u := m[u].(flag := With(m[u].flag, flag))] else m
  {
    var m := MarkUids(apps, uids, flag);
    var more := MarkUids(apps, uids + {u}, flag);
    if u in apps {
      WithTwice(apps[u].flag, flag);
      hide With;
      assert more[u] == m[u].(flag := With(m[u].flag, flag));
      forall v | v in apps && v != u
        ensures more[v] == m[v]
      {
        assert v in uids + {u} <==> v in uids;
      }
    }
  }

  class NetworkStrategy {
    var netLimitedAppInfo: map<int, NetApp>
    var isFirewallEnabled: bool
    var isIdleMaintence: bool
    var trust: set<int>               // trust list of the net manager
    var policy: bool                  // idle policy of the net manager

    ghost function Snapshot(): Net
      reads this
    {
      Net(netLimitedAppInfo, isFirewallEnabled, isIdleMaintence, trust, policy)
    }

    constructor ()
      ensures Snapshot() == Net(map[], false, false, {}, false)
      ensures forall night :: Guarded(Snapshot(), night) && Complete(Snapshot(), night)
    {
      netLimitedAppInfo := map[];
      isFirewallEnabled, isIdleMaintence, policy := false, false, false;
      trust := {};
    }

    // -------------------------------------------------------------- talking to the net manager

    method SetFirewallAllowedList(uids: seq<int>, isAdded: bool)
      modifies this`trust
      ensures Snapshot() == SetTrust(old(Snapshot()), AsSet(uids), isAdded)
    {
      if |uids| == 0 { return; }
      if !isAdded && isIdleMaintence { return; }
      trust := if isAdded then trust + AsSet(uids) else trust - AsSet(uids);
    }

    method HandleDeviceIdlePolicy(on: bool)
      modifies this`policy
      ensures policy == on
    {
      policy := on;
    }

    method SetNetAllowApps(isAllow: bool, night: bool)
      modifies this`trust
      ensures Snapshot() == SetTrust(old(Snapshot()), ExemptUids(netLimitedAppInfo, night), isAllow)
    {
      hide ExemptUids;
      var uids := ExemptList(night);
      hide AsSet;
      SetFirewallAllowedList(uids, isAllow);
    }

    method ExemptList(night: bool) returns (uids: seq<int>)
      ensures AsSet(uids) == ExemptUids(netLimitedAppInfo, night)
    {
      uids := [];
      var todo := netLimitedAppInfo.Keys;
      ExemptEnds(netLimitedAppInfo, night);
      assert AsSet([]) == {};
      hide IsFlagExempted, ExemptUids, AsSet, ExemptBut;
      while todo != {}
        invariant todo <= netLimitedAppInfo.Keys
        invariant AsSet(uids) == ExemptBut(netLimitedAppInfo, todo, night)
        decreases |todo|
      {
        NotEmpty(todo);
        var uid :| uid in todo;
        AsSetMore(uids, uid);
        ExemptStep(netLimitedAppInfo, todo, uid, night);
        if IsFlagExempted(netLimitedAppInfo[uid].flag, night) { uids := uids + [uid]; }
        todo := todo - {uid};
      }
    }

    method SetFirewallStatus(on: bool, night: bool)
      modifies this`trust, this`policy
      ensures Snapshot() == SetStatus(old(Snapshot()), on, night)
    {
      hide ExemptUids;
      if on {
        SetNetAllowApps(on, night);
        HandleDeviceIdlePolicy(on);
      } else {
        HandleDeviceIdlePolicy(on);
        SetNetAllowApps(on, night);
      }
    }

    method ResetFirewallAllowList()
      modifies this`trust, this`policy
      ensures Snapshot() == ResetAllowList(old(Snapshot()))
    {
      var uids := trust;
      HandleDeviceIdlePolicy(false);
      trust := trust - uids;
    }

    // -------------------------------------------------------------- rebuilding the table

    method GetAllRunningAppInfo(procs: seq<(int, string)>)
      requires netLimitedAppInfo == map[]
      modifies this`netLimitedAppInfo
      ensures netLimitedAppInfo == CollectRunning(procs)
    {
      for i := 0 to |procs|
        invariant netLimitedAppInfo == CollectRunning(procs[..i])
      {
        var info := procs[i];
        assert procs[..i + 1][..i] == procs[..i] && procs[..i + 1][i] == info;
        if info.0 !in netLimitedAppInfo { netLimitedAppInfo := netLimitedAppInfo[info.0 := NetApp(info.1, 0)]; }
      }
      assert procs[..|procs|] == procs;
    }

    method MarkSystemApps(systems: seq<(int, bool)>)
      modifies this`netLimitedAppInfo
      ensures netLimitedAppInfo == MarkUids(old(netLimitedAppInfo), SystemUids(systems), UNRESTRICTED)
    {
      for i := 0 to |systems|
        invariant netLimitedAppInfo == MarkUids(old(netLimitedAppInfo), SystemUids(systems[..i]), UNRESTRICTED)
      {
        var uid := systems[i].0;
        SystemMore(systems, i);
        MarkMore(old(netLimitedAppInfo), SystemUids(systems[..i]), uid, UNRESTRICTED);
        hide MarkUids, SystemUids, With;
        if systems[i].1 { AddExemptionFlagByUid(uid, UNRESTRICTED); }
      }
      assert systems[..|systems|] == systems;
    }

    method AddExemptionFlagByUid(uid: int, flag: bv8)
      modifies this`netLimitedAppInfo
      ensures netLimitedAppInfo == if uid in old(netLimitedAppInfo)
                                   then old(netLimitedAppInfo)[uid := old(netLimitedAppInfo)[uid].(
                                          flag := With(old(netLimitedAppInfo)[uid].flag, flag))]
                                   else old(netLimitedAppInfo)
    {
      if uid in netLimitedAppInfo {
        var app := netLimitedAppInfo[uid];
        netLimitedAppInfo := netLimitedAppInfo[uid := app.(flag := With(app.flag, flag))];
      }
    }

    /** One flag for every listed application: foreground, transient task, work. */
    method AddExemptionFlags(uids: seq<int>, flag: bv8)
      modifies this`netLimitedAppInfo
      ensures netLimitedAppInfo == MarkUids(old(netLimitedAppInfo), Listed(uids), flag)
    {
      for i := 0 to |uids|
        invariant netLimitedAppInfo == MarkUids(old(netLimitedAppInfo), Listed(uids[..i]), flag)
      {
        ListedMore(uids, i);
        MarkMore(old(netLimitedAppInfo), Listed(uids[..i]), uids[i], flag);
        hide MarkUids, Listed, With;
        AddExemptionFlagByUid(uids[i], flag);
      }
      assert uids[..|uids|] == uids;
    }

    method MarkContinuous(tasks: seq<(int, bool)>, night: bool)
      modifies this`netLimitedAppInfo
      ensures netLimitedAppInfo == MarkUids(old(netLimitedAppInfo), ContinuousUids(tasks, night), CONTINUOUS_TASK)
    {
      for i := 0 to |tasks|
        invariant netLimitedAppInfo == MarkUids(old(netLimitedAppInfo), ContinuousUids(tasks[..i], night), CONTINUOUS_TASK)
      {
        ContinuousMore(tasks, night, i);
        MarkMore(old(netLimitedAppInfo), ContinuousUids(tasks[..i], night), tasks[i].0, CONTINUOUS_TASK);
        hide MarkUids, ContinuousUids, With;
        if !night || tasks[i].1 { AddExemptionFlagByUid(tasks[i].0, CONTINUOUS_TASK); }
      }
      assert tasks[..|tasks|] == tasks;
    }

    /** GetExemptionConfig: the allowed, the restricted and the conditionally restricted names */
    method GetExemptionConfig(allowed: set<string>, restricted: set<string>, conditional: set<string>)
      modifies this`netLimitedAppInfo
      ensures netLimitedAppInfo == MarkConditional(MarkNamed(MarkNamed(old(netLimitedAppInfo), allowed, EXEMPTION),
                                                             restricted, RESTRICTED), conditional)
    {
      hide MarkNamed, MarkConditional;
      MarkListed(allowed, EXEMPTION);
      MarkListed(restricted, RESTRICTED);
      RestrictConditional(conditional);
    }

    method MarkListed(names: set<string>, flag: bv8)
      modifies this`netLimitedAppInfo
      ensures netLimitedAppInfo == MarkNamed(old(netLimitedAppInfo), names, flag)
    {
      hide With;
      ghost var marked := MarkNamed(netLimitedAppInfo, names, flag);
      var todo := netLimitedAppInfo.Keys;
      while todo != {}
        invariant todo <= netLimitedAppInfo.Keys
        invariant netLimitedAppInfo == map u | u in old(netLimitedAppInfo) ::
                                         if u in todo then old(netLimitedAppInfo)[u] else marked[u]
        decreases |todo|
      {
        NotEmpty(todo);
        var uid :| uid in todo;
        var app := netLimitedAppInfo[uid];
        if app.name in names {
          netLimitedAppInfo := netLimitedAppInfo[uid := app.(flag := With(app.flag, flag))];
        }
        todo := todo - {uid};
      }
      assert netLimitedAppInfo == marked;
    }

    method RestrictConditional(names: set<string>)
      modifies this`netLimitedAppInfo
      ensures netLimitedAppInfo == MarkConditional(old(netLimitedAppInfo), names)
    {
      hide With, Without;
      ghost var marked := MarkConditional(netLimitedAppInfo, names);
      var todo := netLimitedAppInfo.Keys;
      while todo != {}
        invariant todo <= netLimitedAppInfo.Keys
        invariant netLimitedAppInfo == map u | u in old(netLimitedAppInfo) ::
                                         if u in todo then old(netLimitedAppInfo)[u] else marked[u]
        decreases |todo|
      {
        NotEmpty(todo);
        var uid :| uid in todo;
        var app := netLimitedAppInfo[uid];
        if app.name in names && Without(app.flag, UNRESTRICTED) == 0 {
          netLimitedAppInfo := netLimitedAppInfo[uid := app.(flag := With(app.flag, RESTRICTED))];
        }
        todo := todo - {uid};
      }
      assert netLimitedAppInfo == marked;
    }

    /** InitNetLimitedAppInfo: a service that does not answer leaves a partial table. */
    method InitNetLimitedAppInfo(s: NetSurvey, night: bool) returns (ok: bool)
      requires netLimitedAppInfo == map[]
      modifies this`netLimitedAppInfo
      ensures ok == s.available
      ensures netLimitedAppInfo == if ok then RebuildNet(s, night) else s.partial
    {
      if !s.available {
        netLimitedAppInfo := s.partial;
        return false;
      }
      hide CollectRunning, MarkUids, MarkNamed, MarkConditional, SystemUids, Listed, ContinuousUids;
      GetAllRunningAppInfo(s.procs);
      MarkSystemApps(s.systems);
      AddExemptionFlags(s.foreground, FOREGROUND_APP);
      MarkContinuous(s.continuous, night);
      AddExemptionFlags(s.transient, TRANSIENT_TASK);
      AddExemptionFlags(s.works, WORK_SCHEDULER);
      GetExemptionConfig(s.allowed, s.restricted, s.conditional);
      ok := true;
    }

    // -------------------------------------------------------------- the firewall

    method EnableNetworkFirewall(s: NetSurvey, night: bool)
      modifies this
      ensures Snapshot() == EnableFirewall(old(Snapshot()), s, night)
    {
      hide RebuildNet, ExemptUids;
      if isFirewallEnabled { return; }
      netLimitedAppInfo := map[];
      var ok := InitNetLimitedAppInfo(s, night);
      if !ok { return; }
      SetFirewallStatus(true, night);
      isFirewallEnabled := true;
      isIdleMaintence := false;
    }

    method DisableNetworkFirewall(pre: State, cur: State, night: bool)
      modifies this
      ensures Snapshot() == StopLimit(old(Snapshot()), pre, cur, night)
    {
      hide ExemptUids;
      if cur == Maintenance && pre == Sleep {
        SetFirewallStatus(false, night);
        isIdleMaintence := true;
        isFirewallEnabled := false;
      } else if cur == Sleep && pre == Maintenance {
        isIdleMaintence := false;
        SetFirewallStatus(true, night);
        isFirewallEnabled := true;
      } else if pre == Sleep || pre == Maintenance {
        ResetFirewallAllowList();
        netLimitedAppInfo := map[];
        isIdleMaintence := false;
        isFirewallEnabled := false;
      }
    }

    method UpdateFirewallAllowList(s: NetSurvey, night: bool)
      modifies this
      ensures Snapshot() == UpdateAllowList(old(Snapshot()), s, night)
    {
      hide RebuildNet, ExemptUids;
      ResetFirewallAllowList();
      netLimitedAppInfo := map[];
      var ok := InitNetLimitedAppInfo(s, night);
      if !ok { return; }
      SetFirewallStatus(true, night);
      isFirewallEnabled := true;
    }

    // -------------------------------------------------------------- exemption flags

    method GetAndCreateAppInfo(uid: int, name: string, ans: NetAnswers)
      modifies this`netLimitedAppInfo
      ensures netLimitedAppInfo == Tracked(old(netLimitedAppInfo), uid, name, NewNetFlag(ans, name))
    {
      hide With, Configured, Conditioned;
      if uid in netLimitedAppInfo { return; }
      var app := NetApp(name, 0);
      if ans.newcomer.system { app := app.(flag := With(app.flag, UNRESTRICTED)); }
      app := GetExemptionConfigForApp(app, name, ans);
      netLimitedAppInfo := netLimitedAppInfo[uid := app];
    }

    method GetExemptionConfigForApp(appInfo: NetApp, name: string, ans: NetAnswers) returns (r: NetApp)
      ensures r == appInfo.(flag := Conditioned(Configured(appInfo.flag, ans.newcomer, name), name in ans.conditional))
    {
      hide With, Without;
      var allowed := ans.newcomer.allowed;
      r := appInfo;
      for j := 0 to |allowed|
        invariant r == appInfo.(flag := WithAllowed(appInfo.flag, allowed[..j], name))
      {
        AllowedMore(appInfo.flag, allowed, name, j);
        if allowed[j] != name { continue; }
        r := r.(flag := With(r.flag, EXEMPTION));
      }
      assert allowed[..|allowed|] == allowed;
      if name in ans.newcomer.restricted { r := r.(flag := With(r.flag, RESTRICTED)); }
      if name in ans.conditional && Without(r.flag, UNRESTRICTED) == 0 { r := r.(flag := With(r.flag, RESTRICTED)); }
    }

    method AddExemptionFlag(uid: int, name: string, flag: bv8, ans: NetAnswers)
      modifies this`netLimitedAppInfo, this`trust
      ensures Snapshot() == AddNetFlag(old(Snapshot()), uid, name, flag, ans)
    {
      hide With, Without, IsExempted, BecomesExempted;
      if !isFirewallEnabled { return; }
      GetAndCreateAppInfo(uid, name, ans);
      var app := netLimitedAppInfo[uid];
      var lastFlag := app.flag;
      var newFlag := With(lastFlag, flag);
      if name in ans.conditional { newFlag := Without(newFlag, RESTRICTED); }
      AsSetMore([], uid);
      assert [] + [uid] == [uid];
      if GetExemptedFlag(lastFlag, newFlag, ans.night) { SetFirewallAllowedList([uid], true); }
      netLimitedAppInfo := netLimitedAppInfo[uid := app.(flag := With(newFlag, flag))];
    }

    method RemoveExemptionFlag(uid: int, flag: bv8, ans: NetAnswers)
      modifies this`netLimitedAppInfo, this`trust
      ensures Snapshot() == RemoveNetFlag(old(Snapshot()), uid, flag, ans)
    {
      hide With, Without, IsExempted, BecomesExempted;
      if !isFirewallEnabled { return; }
      if uid !in netLimitedAppInfo { return; }
      var app := netLimitedAppInfo[uid];
      var newFlag := Without(app.flag, flag);
      if app.name in ans.conditional && Without(newFlag, UNRESTRICTED) == 0 { newFlag := With(newFlag, RESTRICTED); }
      netLimitedAppInfo := netLimitedAppInfo[uid := app.(flag := newFlag)];
      AsSetMore([], uid);
      assert [] + [uid] == [uid];
      if GetExemptedFlag(newFlag, app.flag, ans.night) { SetFirewallAllowedList([uid], false); }
    }

    static predicate GetExemptedFlag(appNoExemptionFlag: bv8, appExemptionFlag: bv8, night: bool) {
      BecomesExempted(appNoExemptionFlag, appExemptionFlag, night)
    }

    method UpdateBgTaskAppStatus(task: BgTaskType, started: bool, uid: int, name: string, ans: NetAnswers)
      modifies this`netLimitedAppInfo, this`trust
      ensures Snapshot() == BgTaskChanged(old(Snapshot()), task, started, uid, name, ans)
    {
      hide With, Without, IsExempted, BecomesExempted;
      if !isFirewallEnabled { return; }
      if task.UnknownTask? { return; }
      if started && ans.night && task.ContinuousTask? && !ans.typeExempt { return; }
      var bundleName := name;
      if bundleName == "" { bundleName := ans.bundleName; }
      if started {
        AddExemptionFlag(uid, bundleName, TaskFlag(task), ans);
      } else {
        RemoveExemptionFlag(uid, TaskFlag(task), ans);
      }
    }

    method UpdateExemptionList(uid: int, name: string, allowType: bv32, added: bool, ans: NetAnswers)
      modifies this`netLimitedAppInfo, this`trust
      ensures Snapshot() == AllowChanged(old(Snapshot()), uid, name, allowType, added, ans)
    {
      hide With, Without, IsExempted, BecomesExempted;
      if allowType & ALLOW_NETWORK == 0 { return; }
      if !isFirewallEnabled { return; }
      if added {
        AddExemptionFlag(uid, name, EXEMPTION, ans);
      } else {
        RemoveExemptionFlag(uid, EXEMPTION, ans);
      }
    }

    // -------------------------------------------------------------- processes

    method HandleProcessStatusChanged(uid: int, name: string, created: bool, ans: NetAnswers)
      modifies this`netLimitedAppInfo, this`trust
      ensures Snapshot() == if created then NetProcessCreated(old(Snapshot()), uid, name, ans)
                            else NetProcessDied(old(Snapshot()), uid, ans)
    {
      hide IsFlagExempted;
      if !isFirewallEnabled { return; }
      AsSetMore([], uid);
      assert [] + [uid] == [uid];
      hide AsSet;
      if created {
        GetAndCreateAppInfo(uid, name, ans);
        if !IsFlagExempted(netLimitedAppInfo[uid].flag, ans.night) { return; }
        SetFirewallAllowedList([uid], created);
      } else if ans.stopped {
        if uid !in netLimitedAppInfo { return; }
        var appFlag := netLimitedAppInfo[uid].flag;
        netLimitedAppInfo := netLimitedAppInfo - {uid};
        if !IsFlagExempted(appFlag, ans.night) { return; }
        SetFirewallAllowedList([uid], created);
      }
    }

    // -------------------------------------------------------------- messages

    /** The whole strategy: one message in, the trust list sound before and after. */
    method HandleEvent(msg: Message, ans: NetAnswers)
      modifies this
      ensures Snapshot() == HandleNetMessage(old(Snapshot()), msg, ans)
      ensures old(Guarded(Snapshot(), ans.night)) && (msg.ConditionChanged? ==> !old(isIdleMaintence))
              ==> Guarded(Snapshot(), ans.night)
    {
      ghost var n := Snapshot();
      if Guarded(n, ans.night) && (msg.ConditionChanged? ==> !isIdleMaintence) { HandleNetMessageKeeps(n, msg, ans); }
      hide Guarded, Complete, AllowChanged, UpdateAllowList, EnableFirewall, StopLimit, BgTaskChanged, NetProcessCreated,
           NetProcessDied;
      match msg
      case AllowListChanged(uid, name, allowType, added) => UpdateExemptionList(uid, name, allowType, added, ans);
      case ConditionChanged => UpdateFirewallAllowList(ans.survey, ans.night);
      case PhaseTransit(state, _, curPhase) => StartNetLimit(state, curPhase, ans.survey, ans.night);
      case StateTransit(pre, cur) => DisableNetworkFirewall(pre, cur, ans.night);
      case BgTaskStatus(task, started, uid, name) => UpdateBgTaskAppStatus(task, started, uid, name, ans);
      case ProcessState(uid, _, name, created) => HandleProcessStatusChanged(uid, name, created, ans);
      case _ =>
    }

    method StartNetLimit(state: State, phase: nat, s: NetSurvey, night: bool)
      modifies this
      ensures Snapshot() == StartLimit(old(Snapshot()), state, phase, s, night)
    {
      hide EnableFirewall;
      if state != Sleep || phase != APP_RES_DEEP { return; }
      EnableNetworkFirewall(s, night);
    }
  }
}
