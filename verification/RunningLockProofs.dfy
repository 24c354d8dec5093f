/** The ledger of the power manager always equals the set computed from the table. */
module RunningLockProofs {
  import opened StandbyTypes
  import opened ExemptionFlags
  import opened RecordKeys
  import opened RunningLockRules

  // ---------------------------------------------------------------- the invariant

  predicate Keyed(apps: map<string, App>) {
    forall k :: k in apps ==> k == Key(apps[k].uid, apps[k].name)
  }

  /** No process is tracked under two keys. */
  predicate Disjoint(apps: map<string, App>) {
    forall k, l :: k in apps && l in apps && k != l && apps[k].uid == apps[l].uid ==> apps[k].pids !! apps[l].pids
  }

  predicate Sound(apps: map<string, App>) {
    Keyed(apps) && Disjoint(apps)
  }

  /** What the power manager should be holding back. */
  function Expected(r: Proxy): set<(int, int)> {
    if r.proxied && !r.idle then Restricted(r.apps) else {}
  }

  predicate LedgerExact(r: Proxy) {
    r.ledger == Expected(r)
  }

  predicate Tidy(r: Proxy) {
    && Sound(r.apps)
    && (r.idle ==> r.proxied)
    && (!r.proxied ==> r.apps == map[])
    && LedgerExact(r)
  }

  /** The process of a message is not tracked under another key of the same uid. */
  predicate SoleOwner(apps: map<string, App>, uid: int, pid: int, name: string) {
    forall k :: k in apps && k != Key(uid, name) && apps[k].uid == uid ==> pid !in apps[k].pids
  }

  predicate FitsTable(r: Proxy, msg: Message) {
    msg.ProcessState? ==> SoleOwner(r.apps, msg.uid, msg.pid, msg.name)
  }

  // ---------------------------------------------------------------- one application changes

  /** What one application contributes to the restricted set. */
  function Share(a: App): set<(int, int)> {
    if IsExempted(a.flag) then {} else PidsOf(a)
  }

  /** Replacing one application changes the restricted set by that application only. */
  lemma RestrictedUpdate(apps: map<string, App>, k: string, b: App)
    requires Disjoint(apps) && (k in apps ==> apps[k].uid == b.uid)
    ensures Restricted(apps[k := b]) == (Restricted(apps) - (if k in apps then PidsOf(apps[k]) else {})) + Share(b)
  {
    hide IsExempted;
    var gone := if k in apps then PidsOf(apps[k]) else {};
    forall x | x in (Restricted(apps) - gone) + Share(b)
      ensures x in Restricted(apps[k := b])
    {
      if x in Restricted(apps) - gone {
        var l, p :| l in apps && !IsExempted(apps[l].flag) && p in apps[l].pids && x == (p, apps[l].uid);
        assert l != k && apps[k := b][l] == apps[l];
      } else {
        assert apps[k := b][k] == b;
      }
    }
  }

  lemma RestrictedRemove(apps: map<string, App>, k: string)
    requires Disjoint(apps) && k in apps
    ensures Restricted(apps - {k}) == Restricted(apps) - PidsOf(apps[k])
  {
    hide IsExempted;
    var rest := apps - {k};
    forall x | x in Restricted(apps) - PidsOf(apps[k])
      ensures x in Restricted(rest)
    {
      var l, p :| l in apps && !IsExempted(apps[l].flag) && p in apps[l].pids && x == (p, apps[l].uid);
      assert l in rest && rest[l] == apps[l];
    }
  }

  /** An application that is not exempt has all its pids in the restricted set, an exempt one
      has none there. */
  lemma ShareIsRestricted(apps: map<string, App>, k: string)
    requires k in apps && Disjoint(apps)
    ensures !IsExempted(apps[k].flag) ==> PidsOf(apps[k]) <= Restricted(apps)
    ensures IsExempted(apps[k].flag) ==> PidsOf(apps[k]) !! Restricted(apps)
  {
    hide IsExempted;
  }

  /** The restricted set after one application changed its flag. */
  function Reflagged(all: set<(int, int)>, pids: set<(int, int)>, was: bool, now: bool): set<(int, int)> {
    if was == now then all else if now then all - pids else all + pids
  }

  lemma ReflagSet(all: set<(int, int)>, pids: set<(int, int)>, was: bool, now: bool)
    requires if was then pids !! all else pids <= all
    ensures (all - pids) + (if now then {} else pids) == Reflagged(all, pids, was, now)
  {
  }

  lemma ReflagKeeps(apps: map<string, App>, k: string, flag: bv8)
    requires Sound(apps) && k in apps
    ensures var a := apps[k];
            var b := a.(flag := flag);
            && Sound(apps[k := b]) && PidsOf(b) == PidsOf(a)
            && Restricted(apps[k := b]) == Reflagged(Restricted(apps), PidsOf(a), IsExempted(a.flag), IsExempted(flag))
  {
    var a := apps[k];
    var b := a.(flag := flag);
    hide IsExempted, Key, Restricted;
    assert PidsOf(b) == PidsOf(a);
    RestrictedUpdate(apps, k, b);
    ShareIsRestricted(apps, k);
    hide PidsOf;
    ReflagSet(Restricted(apps), PidsOf(a), IsExempted(a.flag), IsExempted(flag));
  }

  lemma AddFlagTidy(r: Proxy, uid: int, name: string, flag: bv8)
    requires Tidy(r) && flag & RESTRICTED == 0
    ensures Tidy(AddFlag(r, uid, name, flag))
  {
    var k := Key(uid, name);
    hide IsExempted, Restricted, PidsOf, Sound, Key;
    if r.proxied && k in r.apps {
      var a := r.apps[k];
      AddingIsMonotone(a.flag, flag);
      ReflagKeeps(r.apps, k, With(a.flag, flag));
    }
  }

  lemma RemoveFlagTidy(r: Proxy, uid: int, name: string, flag: bv8)
    requires Tidy(r) && flag & RESTRICTED == 0
    ensures Tidy(RemoveFlag(r, uid, name, flag))
  {
    var k := Key(uid, name);
    hide IsExempted, Restricted, PidsOf, Sound, Key;
    if k in r.apps {
      var a := r.apps[k];
      RemovingIsMonotone(a.flag, flag);
      ReflagKeeps(r.apps, k, Without(a.flag, flag));
    }
  }

  /** RESTRICTED among the removed bits would break it: an application that becomes exempt by
      losing RESTRICTED stays in the ledger. */
  lemma RemovingRestrictedBreaks()
    ensures exists r: Proxy, uid: int, name: string ::
              Tidy(r) && !Tidy(RemoveFlag(r, uid, name, RESTRICTED))
  {
    var a := App("a", 1, {7}, CONTINUOUS_TASK | RESTRICTED);
    var k := Key(1, "a");
    var r := Proxy(map[k := a], true, false, {(7, 1)});
    assert Restricted(r.apps) == {(7, 1)} by {
      assert !IsExempted(r.apps[k].flag) && 7 in r.apps[k].pids;
    }
    assert Tidy(r);
    var r1 := RemoveFlag(r, 1, "a", RESTRICTED);
    assert IsExempted(r1.apps[k].flag) && r1.ledger == {(7, 1)};
    assert (7, 1) !in Restricted(r1.apps);
    assert !Tidy(RemoveFlag(r, 1, "a", RESTRICTED));
  }

  // ---------------------------------------------------------------- processes

  lemma CreatedKeepsTable(apps: map<string, App>, uid: int, pid: int, name: string, b: App)
    requires Sound(apps) && SoleOwner(apps, uid, pid, name)
    requires b.uid == uid && b.name == name
    requires var k := Key(uid, name); b.pids == (if k in apps then apps[k].pids else {}) + {pid}
    ensures Sound(apps[Key(uid, name) := b])
  {
    var k := Key(uid, name);
    if k in apps { KeyIsInjective(uid, name, apps[k].uid, apps[k].name); }
    hide Key;
  }

  lemma ProcessCreatedTidy(r: Proxy, uid: int, pid: int, name: string, newFlag: bv8)
    requires Tidy(r) && SoleOwner(r.apps, uid, pid, name)
    ensures Tidy(ProcessCreated(r, uid, pid, name, newFlag))
  {
    var k := Key(uid, name);
    if r.proxied {
      var a := if k in r.apps then r.apps[k] else App(name, uid, {}, newFlag);
      var b := a.(pids := a.pids + {pid});
      if k in r.apps { KeyIsInjective(uid, name, a.uid, a.name); ShareIsRestricted(r.apps, k); }
      RestrictedUpdate(r.apps, k, b);
      CreatedKeepsTable(r.apps, uid, pid, name, b);
      CreatedPids(r.apps, uid, pid, name, b);
      hide IsExempted, Restricted, Sound, Key, SoleOwner, PidsOf, Disjoint;
    }
  }

  /** A process of an exempt application was not restricted and is not now. */
  lemma CreatedPids(apps: map<string, App>, uid: int, pid: int, name: string, b: App)
    requires b.uid == uid
    requires var k := Key(uid, name);
             if k in apps then apps[k].uid == uid && b.flag == apps[k].flag && b.pids == apps[k].pids + {pid}
             else b.pids == {pid}
    ensures var k := Key(uid, name);
            PidsOf(b) == (if k in apps then PidsOf(apps[k]) else {}) + {(pid, uid)}
  {
    hide Key;
  }

  lemma ProcessDiedTidy(r: Proxy, uid: int, pid: int, name: string)
    requires Tidy(r) && SoleOwner(r.apps, uid, pid, name)
    ensures Tidy(ProcessDied(r, uid, pid, name))
  {
    var k := Key(uid, name);
    if r.proxied && k in r.apps {
      var a := r.apps[k];
      var b := a.(pids := a.pids - {pid});
      KeyIsInjective(uid, name, a.uid, a.name);
      ShareIsRestricted(r.apps, k);
      RestrictedUpdate(r.apps, k, b);
      RestrictedRemove(r.apps, k);
      NotOthers(r.apps, uid, pid, name);
      hide IsExempted, Restricted, Key, Keyed, Disjoint, SoleOwner;
      assert PidsOf(b) == PidsOf(a) - {(pid, uid)};
      DiedKeepsTable(r.apps, k, b);
      assert b.pids == {} ==> PidsOf(b) == {};
    }
  }

  /** A process with a sole owner is restricted only through that owner. */
  lemma NotOthers(apps: map<string, App>, uid: int, pid: int, name: string)
    requires SoleOwner(apps, uid, pid, name)
    ensures var k := Key(uid, name);
            (pid, uid) in Restricted(apps) ==> k in apps && (pid, uid) in PidsOf(apps[k])
  {
    hide IsExempted, Key;
  }

  lemma DiedKeepsTable(apps: map<string, App>, k: string, b: App)
    requires Sound(apps) && k in apps
    requires b == apps[k].(pids := b.pids) && b.pids <= apps[k].pids
    ensures Sound(apps[k := b]) && Sound(apps - {k})
  {
  }

  // ---------------------------------------------------------------- many applications change

  lemma WithoutTasksRestricts(apps: map<string, App>)
    ensures Restricted(WithoutTasks(apps)) == Restricted(apps) + NoLongerExempt(apps)
    ensures Sound(apps) ==> Sound(WithoutTasks(apps))
  {
    var after := WithoutTasks(apps);
    forall k | k in apps
      ensures IsExempted(after[k].flag) ==> IsExempted(apps[k].flag)
    {
      RemovingIsMonotone(apps[k].flag, TASK_FLAGS);
    }
    hide IsExempted, Key;
  }

  lemma ResetStatusTidy(r: Proxy)
    requires Tidy(r)
    ensures Tidy(ResetStatus(r))
  {
    WithoutTasksRestricts(r.apps);
    hide IsExempted, Key, Restricted, NoLongerExempt, WithoutTasks, Sound;
  }

  lemma StopProxyTidy(r: Proxy, pre: State, cur: State)
    requires Tidy(r)
    ensures Tidy(StopProxy(r, pre, cur))
  {
    hide IsExempted, Key, Restricted;
    assert !r.proxied || r.idle || Restricted(r.apps) - Restricted(r.apps) == {};
    EmptySound();
  }

  lemma EmptySound()
    ensures Sound(map[]) && Restricted(map[]) == {}
  {
  }

  lemma StartProxyTidy(r: Proxy, state: State, phase: nat, s: Survey)
    requires Tidy(r)
    ensures Tidy(StartProxy(r, state, phase, s))
  {
    RebuildSound(s);
    EmptySound();
    hide IsExempted, Key, Restricted, Rebuild, Sound;
  }

  // ---------------------------------------------------------------- the switch of day and night

  /** UpdateResourceConfig does not look at isProxied_. The ledger stays exact if and only if
      the strategy is proxied, or nothing is found to restrict. */
  lemma UpdateResourceExactly(r: Proxy, s: Survey)
    requires Tidy(r)
    ensures LedgerExact(UpdateResource(r, s)) <==>
              r.proxied || !s.available || Restricted(Rebuild(s)) == {}
    ensures r.proxied ==> Tidy(UpdateResource(r, s))
  {
    RebuildSound(s);
    EmptySound();
    hide IsExempted, Key, Restricted, Rebuild, Sound;
    assert r.proxied && !r.idle ==> r.ledger - Restricted(r.apps) == {};
    assert !r.proxied ==> StopInner(r).ledger == {};
  }

  // ---------------------------------------------------------------- every message

  /** Whatever message arrives, the ledger stays equal to the pids of the tracked applications
      that are not exempt, while proxied outside idle maintenance, and empty otherwise. */
  lemma HandleMessageTidy(r: Proxy, msg: Message, ans: Answers)
    requires Tidy(r) && FitsTable(r, msg)
    requires msg.ConditionChanged? ==> r.proxied
    ensures Tidy(HandleMessage(r, msg, ans))
  {
    hide Tidy, AddFlag, RemoveFlag, ProcessCreated, ProcessDied, ResetStatus, StopProxy, StartProxy, UpdateResource,
         SoleOwner;
    match msg
    case AllowListChanged(uid, name, _, _) =>
      AddFlagTidy(r, uid, name, EXEMPTION);
      RemoveFlagTidy(r, uid, name, EXEMPTION);
    case ConditionChanged => UpdateResourceExactly(r, ans.survey);
    case PhaseTransit(state, _, curPhase) => StartProxyTidy(r, state, curPhase, ans.survey);
    case StateTransit(pre, cur) => StopProxyTidy(r, pre, cur);
    case BgTaskStatus(task, _, uid, name) =>
      var bundle := if name == "" then ans.bundleName else name;
      TaskFlagFits(task);
      AddFlagTidy(r, uid, bundle, TaskFlag(task));
      RemoveFlagTidy(r, uid, bundle, TaskFlag(task));
    case ProcessState(uid, pid, name, _) =>
      ProcessCreatedTidy(r, uid, pid, name, NewFlag(ans.newcomer, name));
      ProcessDiedTidy(r, uid, pid, name);
    case SysAbility(_, _) => ResetStatusTidy(r);
    case _ =>
  }

  lemma TaskFlagFits(t: BgTaskType)
    ensures TaskFlag(t) & RESTRICTED == 0
  {
  }

  // ---------------------------------------------------------------- what a rebuild finds

  /** Only the application named first for a uid has processes. */
  predicate OnlyMain(apps: map<string, App>, names: map<int, string>) {
    && Keyed(apps)
    && forall k :: k in apps && apps[k].pids != {} ==>
         apps[k].uid in names && k == Key(apps[k].uid, names[apps[k].uid])
  }

  lemma OnlyMainIsSound(apps: map<string, App>, names: map<int, string>)
    requires OnlyMain(apps, names)
    ensures Sound(apps)
  {
    hide Key;
  }

  /** Every collected name leads to an application. */
  predicate Named(apps: map<string, App>, names: map<int, string>) {
    forall u :: u in names ==> Key(u, names[u]) in apps
  }

  predicate NoPids(apps: map<string, App>) {
    forall k :: k in apps ==> apps[k].pids == {}
  }

  lemma {:induction false} CollectedNames(infos: seq<AppInfo>)
    ensures Keyed(CollectApps(infos)) && Named(CollectApps(infos), CollectNames(infos)) && NoPids(CollectApps(infos))
  {
    if infos != [] {
      CollectedNames(infos[..|infos| - 1]);
      hide Key;
    }
  }

  lemma {:induction false} AddProcsKeeps(apps: map<string, App>, names: map<int, string>, procs: seq<ProcInfo>)
    requires OnlyMain(apps, names) && Named(apps, names)
    ensures var r := AddProcs(apps, names, procs);
            && OnlyMain(r, names) && r.Keys == apps.Keys
            && (forall k :: k in apps ==> r[k].uid == apps[k].uid && r[k].name == apps[k].name && r[k].flag == apps[k].flag)
  {
    if procs != [] {
      var before := procs[..|procs| - 1];
      AddProcsKeeps(apps, names, before);
      AddProcKeeps(AddProcs(apps, names, before), names, procs[|procs| - 1]);
      hide Key, OnlyMain, WithProc;
      assert Named(AddProcs(apps, names, before), names);
    }
  }

  lemma AddProcKeeps(apps: map<string, App>, names: map<int, string>, p: ProcInfo)
    requires OnlyMain(apps, names) && Named(apps, names)
    ensures var r := WithProc(apps, names, p);
            && OnlyMain(r, names) && r.Keys == apps.Keys
            && (forall k :: k in apps ==> r[k].uid == apps[k].uid && r[k].name == apps[k].name && r[k].flag == apps[k].flag)
  {
    if p.uid in names {
      var k := Key(p.uid, names[p.uid]);
      KeyIsInjective(p.uid, names[p.uid], apps[k].uid, apps[k].name);
      hide Key;
    }
  }

  lemma MarkKeeps(apps: map<string, App>, names: map<int, string>, keys: set<string>, marked: set<string>, flag: bv8)
    requires OnlyMain(apps, names)
    ensures OnlyMain(Mark(apps, keys, flag), names) && OnlyMain(MarkNames(apps, marked, flag), names)
  {
    hide Key;
  }

  lemma RunningAppsKeep(s: Survey)
    ensures OnlyMain(RunningApps(s), CollectNames(s.infos))
  {
    var names := CollectNames(s.infos);
    CollectedNames(s.infos);
    hide Key, AddProcs, Named;
    AddProcsKeeps(CollectApps(s.infos), names, s.procs);
  }

  lemma RebuildSound(s: Survey)
    ensures Sound(Rebuild(s))
  {
    var names := CollectNames(s.infos);
    RunningAppsKeep(s);
    hide OnlyMain, Mark, MarkNames, RunningApps, CollectNames, KeysOf, ContinuousKeys, Sound;
    var a0 := RunningApps(s);
    var a1 := Mark(a0, KeysOf(s.foreground), FOREGROUND_APP);
    var a2 := Mark(a1, ContinuousKeys(s.continuous, names), CONTINUOUS_TASK);
    var a3 := Mark(a2, KeysOf(s.transient), TRANSIENT_TASK);
    var a4 := Mark(a3, KeysOf(s.works), WORK_SCHEDULER);
    MarkKeeps(a0, names, KeysOf(s.foreground), {}, FOREGROUND_APP);
    MarkKeeps(a1, names, ContinuousKeys(s.continuous, names), {}, CONTINUOUS_TASK);
    MarkKeeps(a2, names, KeysOf(s.transient), {}, TRANSIENT_TASK);
    MarkKeeps(a3, names, KeysOf(s.works), {}, WORK_SCHEDULER);
    MarkKeeps(a4, names, {}, s.allowed, EXEMPTION);
    MarkKeeps(MarkNames(a4, s.allowed, EXEMPTION), names, {}, s.restricted, RESTRICTED);
    OnlyMainIsSound(Rebuild(s), names);
  }
}
