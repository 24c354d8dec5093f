/** Whom a rebuild of the running-lock table restricts, said directly in terms of what the other
    services answered: no table, no keys, no flags. */
module RunningLockSurvey {
  import opened ExemptionFlags
  import opened RecordKeys
  import opened RunningLockRules
  import opened RunningLockProofs

  /** The application has a reason not to be restricted: it is allowed, or it is not listed as
      restricted and is a system application, in the foreground, or runs a task. */
  predicate Spared(s: Survey, uid: int, name: string) {
    || name in s.allowed
    || (&& name !in s.restricted
        && (|| AppInfo(uid, name, true) in s.infos
            || (uid, name) in s.foreground
            || uid in s.continuous
            || (uid, name) in s.transient
            || (uid, name) in s.works))
  }

  /** The name installed first for a uid. */
  predicate IsFirstName(infos: seq<AppInfo>, uid: int, name: string) {
    exists i :: 0 <= i < |infos| && infos[i].uid == uid && infos[i].name == name
                && forall j :: 0 <= j < i ==> infos[j].uid != uid
  }

  /** The running processes of applications that are not spared. */
  function ToRestrict(s: Survey): set<(int, int)> {
    var names := CollectNames(s.infos);
    set p | p in s.procs && p.uid in names && !Spared(s, p.uid, names[p.uid]) :: (p.pid, p.uid)
  }

  // ---------------------------------------------------------------- names and keys

  lemma {:induction false} NamesAreFirst(infos: seq<AppInfo>, uid: int)
    ensures var names := CollectNames(infos);
            && (uid in names <==> exists i :: 0 <= i < |infos| && infos[i].uid == uid)
            && (uid in names ==> IsFirstName(infos, uid, names[uid]))
  {
    if infos != [] {
      var before, last := infos[..|infos| - 1], infos[|infos| - 1];
      NamesAreFirst(before, uid);
      var prior, names := CollectNames(before), CollectNames(infos);
      if uid in prior {
        var i :| 0 <= i < |before| && before[i].uid == uid && before[i].name == prior[uid]
                 && forall j :: 0 <= j < i ==> before[j].uid != uid;
        assert infos[i] == before[i] && forall j :: 0 <= j < i ==> infos[j] == before[j];
      } else {
        assert forall j :: 0 <= j < |before| ==> before[j].uid != uid && infos[j] == before[j];
        assert infos[|infos| - 1] == last;
      }
    }
  }

  lemma KeysOfExactly(tasks: seq<(int, string)>, uid: int, name: string)
    ensures Key(uid, name) in KeysOf(tasks) <==> (uid, name) in tasks
  {
    if Key(uid, name) in KeysOf(tasks) {
      var t :| t in tasks && Key(uid, name) == Key(t.0, t.1);
      KeyIsInjective(uid, name, t.0, t.1);
      assert t == (uid, name);
    }
    if (uid, name) in tasks {
      assert Key((uid, name).0, (uid, name).1) in KeysOf(tasks);
    }
  }

  lemma ContinuousKeysExactly(uids: seq<int>, names: map<int, string>, uid: int, name: string)
    ensures Key(uid, name) in ContinuousKeys(uids, names) <==> uid in uids && uid in names && names[uid] == name
  {
    if Key(uid, name) in ContinuousKeys(uids, names) {
      var u :| u in uids && u in names && Key(uid, name) == Key(u, names[u]);
      KeyIsInjective(uid, name, u, names[u]);
    }
  }

  // ---------------------------------------------------------------- applications and processes

  lemma {:induction false} CollectedFlag(infos: seq<AppInfo>, k: string)
    ensures var apps := CollectApps(infos);
            k in apps ==> apps[k].flag == if AppInfo(apps[k].uid, apps[k].name, true) in infos then UNRESTRICTED else 0
  {
    if infos != [] {
      var before, i := infos[..|infos| - 1], infos[|infos| - 1];
      assert infos == before + [i];
      CollectedFlag(before, k);
      CollectedNames(before);
      var prior, apps := CollectApps(before), CollectApps(infos);
      assert apps == WithInfo(prior, i);
      if k in apps {
        if k in prior && k == Key(i.uid, i.name) {
          KeyIsInjective(i.uid, i.name, prior[k].uid, prior[k].name);
        } else if k !in prior {
          NotSeen(before, AppInfo(i.uid, i.name, true));
        }
        hide Key, CollectApps;
        assert UNRESTRICTED | UNRESTRICTED == UNRESTRICTED && 0 | UNRESTRICTED == UNRESTRICTED;
      }
    }
  }

  lemma {:induction false} NotSeen(infos: seq<AppInfo>, i: AppInfo)
    ensures i in infos ==> Key(i.uid, i.name) in CollectApps(infos)
  {
    if infos != [] {
      var before, last := infos[..|infos| - 1], infos[|infos| - 1];
      assert infos == before + [last];
      NotSeen(before, i);
      hide Key;
    }
  }

  /** The processes an application is given: those that run under its uid. */
  predicate Runs(procs: seq<ProcInfo>, names: map<int, string>, k: string, pid: int) {
    exists p :: p in procs && p.pid == pid && p.uid in names && k == Key(p.uid, names[p.uid])
  }

  lemma {:induction false} AddProcsExactly(apps: map<string, App>, names: map<int, string>, procs: seq<ProcInfo>,
                                           k: string, pid: int)
    requires OnlyMain(apps, names) && Named(apps, names) && k in apps
    ensures k in AddProcs(apps, names, procs)
    ensures pid in AddProcs(apps, names, procs)[k].pids <==> pid in apps[k].pids || Runs(procs, names, k, pid)
  {
    if procs != [] {
      var before, p := procs[..|procs| - 1], procs[|procs| - 1];
      assert procs == before + [p];
      AddProcsExactly(apps, names, before, k, pid);
      AddProcsKeeps(apps, names, before);
      var prior := AddProcs(apps, names, before);
      hide Key, OnlyMain;
      assert AddProcs(apps, names, procs) == WithProc(prior, names, p);
      RunsMore(before, p, names, k, pid);
      hide Runs, AddProcs;
    }
  }

  lemma RunsMore(before: seq<ProcInfo>, p: ProcInfo, names: map<int, string>, k: string, pid: int)
    ensures Runs(before + [p], names, k, pid) <==>
              Runs(before, names, k, pid) || (p.pid == pid && p.uid in names && k == Key(p.uid, names[p.uid]))
  {
    hide Key;
    if Runs(before, names, k, pid) {
      var q :| q in before && q.pid == pid && q.uid in names && k == Key(q.uid, names[q.uid]);
      assert q in before + [p];
    }
    assert p in before + [p];
  }

  /** What the survey says of a running application. */
  lemma RunningAppsExactly(s: Survey, k: string)
    ensures var names := CollectNames(s.infos);
            var apps := RunningApps(s);
            k in apps ==>
              && k == Key(apps[k].uid, apps[k].name)
              && apps[k].flag == (if AppInfo(apps[k].uid, apps[k].name, true) in s.infos then UNRESTRICTED else 0)
              && forall pid :: pid in apps[k].pids <==> Runs(s.procs, names, k, pid)
  {
    var names := CollectNames(s.infos);
    var apps := CollectApps(s.infos);
    CollectedNames(s.infos);
    CollectedFlag(s.infos, k);
    AddProcsKeeps(apps, names, s.procs);
    if k in RunningApps(s) {
      forall pid
        ensures pid in AddProcs(apps, names, s.procs)[k].pids <==> Runs(s.procs, names, k, pid)
      {
        AddProcsExactly(apps, names, s.procs, k, pid);
      }
      hide Key, CollectNames, CollectApps, AddProcs, Runs, Named;
    }
  }

  // ---------------------------------------------------------------- flags

  lemma BitsExempt(system: bool, fg: bool, cont: bool, trans: bool, work: bool, allowed: bool, restricted: bool)
    ensures IsExempted(FlagIf(system, UNRESTRICTED) | FlagIf(fg, FOREGROUND_APP) | FlagIf(cont, CONTINUOUS_TASK)
                       | FlagIf(trans, TRANSIENT_TASK) | FlagIf(work, WORK_SCHEDULER) | FlagIf(allowed, EXEMPTION)
                       | FlagIf(restricted, RESTRICTED))
            <==> allowed || (!restricted && (system || fg || cont || trans || work))
  {
  }

  /** An entry of the rebuilt table: where it comes from and which bits it carries. */
  lemma RebuiltEntry(s: Survey, k: string)
    requires k in Rebuild(s)
    ensures k in RunningApps(s)
    ensures var a := RunningApps(s)[k];
            var b := Rebuild(s)[k];
            && b.uid == a.uid && b.name == a.name && b.pids == a.pids
            && b.flag == a.flag | FlagIf(k in KeysOf(s.foreground), FOREGROUND_APP)
                       | FlagIf(k in ContinuousKeys(s.continuous, CollectNames(s.infos)), CONTINUOUS_TASK)
                       | FlagIf(k in KeysOf(s.transient), TRANSIENT_TASK) | FlagIf(k in KeysOf(s.works), WORK_SCHEDULER)
                       | FlagIf(a.name in s.allowed, EXEMPTION) | FlagIf(a.name in s.restricted, RESTRICTED)
  {
    hide RunningApps, KeysOf, ContinuousKeys, CollectNames;
    var names := CollectNames(s.infos);
    var a0 := RunningApps(s);
    var a1 := Mark(a0, KeysOf(s.foreground), FOREGROUND_APP);
    var a2 := Mark(a1, ContinuousKeys(s.continuous, names), CONTINUOUS_TASK);
    var a3 := Mark(a2, KeysOf(s.transient), TRANSIENT_TASK);
    var a4 := Mark(a3, KeysOf(s.works), WORK_SCHEDULER);
    var a5 := MarkNames(a4, s.allowed, EXEMPTION);
    MarkEntry(a0, KeysOf(s.foreground), FOREGROUND_APP, k);
    MarkEntry(a1, ContinuousKeys(s.continuous, names), CONTINUOUS_TASK, k);
    MarkEntry(a2, KeysOf(s.transient), TRANSIENT_TASK, k);
    MarkEntry(a3, KeysOf(s.works), WORK_SCHEDULER, k);
    MarkNamesEntry(a4, s.allowed, EXEMPTION, k);
    MarkNamesEntry(a5, s.restricted, RESTRICTED, k);
    hide Mark, MarkNames, FlagIf;
  }

  lemma MarkEntry(apps: map<string, App>, keys: set<string>, flag: bv8, k: string)
    ensures k in Mark(apps, keys, flag) <==> k in apps
    ensures k in apps ==> Mark(apps, keys, flag)[k] == apps[k].(flag := With(apps[k].flag, FlagIf(k in keys, flag)))
  {
    if k in apps { WithIf(apps[k].flag, k in keys, flag); }
    hide With, FlagIf;
  }

  lemma MarkNamesEntry(apps: map<string, App>, names: set<string>, flag: bv8, k: string)
    ensures k in MarkNames(apps, names, flag) <==> k in apps
    ensures k in apps ==>
              MarkNames(apps, names, flag)[k] == apps[k].(flag := With(apps[k].flag, FlagIf(apps[k].name in names, flag)))
  {
    if k in apps { WithIf(apps[k].flag, apps[k].name in names, flag); }
    hide With, FlagIf;
  }

  /** The name under which processes of a uid are tracked decides about continuous tasks. */
  lemma RebuildSpares(s: Survey, k: string)
    requires k in Rebuild(s) && Rebuild(s)[k].pids != {}
    ensures var a := Rebuild(s)[k];
            && a.uid in CollectNames(s.infos) && a.name == CollectNames(s.infos)[a.uid]
            && k == Key(a.uid, a.name)
            && (IsExempted(a.flag) <==> Spared(s, a.uid, a.name))
  {
    var names := CollectNames(s.infos);
    RebuiltEntry(s, k);
    RunningAppsExactly(s, k);
    RunningAppsKeep(s);
    var a := RunningApps(s)[k];
    KeyIsInjective(a.uid, a.name, a.uid, names[a.uid]);
    KeysOfExactly(s.foreground, a.uid, a.name);
    KeysOfExactly(s.transient, a.uid, a.name);
    KeysOfExactly(s.works, a.uid, a.name);
    ContinuousKeysExactly(s.continuous, names, a.uid, a.name);
    var system := AppInfo(a.uid, a.name, true) in s.infos;
    assert a.flag == FlagIf(system, UNRESTRICTED);
    hide Rebuild, RunningApps, CollectNames, KeysOf, ContinuousKeys, Key, FlagIf, IsExempted, OnlyMain, Runs;
    BitsExempt(system, (a.uid, a.name) in s.foreground, a.uid in s.continuous, (a.uid, a.name) in s.transient,
               (a.uid, a.name) in s.works, a.name in s.allowed, a.name in s.restricted);
  }

  // ---------------------------------------------------------------- the theorem

  /** The table restricts exactly the running processes whose application is not spared. */
  lemma RebuildRestrictsExactly(s: Survey)
    ensures Restricted(Rebuild(s)) == ToRestrict(s)
  {
    var names := CollectNames(s.infos);
    hide IsExempted, Rebuild, CollectNames, Key, Spared;
    forall x | x in Restricted(Rebuild(s))
      ensures x in ToRestrict(s)
    {
      var k, pid :| k in Rebuild(s) && !IsExempted(Rebuild(s)[k].flag) && pid in Rebuild(s)[k].pids
                    && x == (pid, Rebuild(s)[k].uid);
      RebuildSpares(s, k);
      FoundRunning(s, k, pid);
    }
    forall x | x in ToRestrict(s)
      ensures x in Restricted(Rebuild(s))
    {
      var p :| p in s.procs && p.uid in names && !Spared(s, p.uid, names[p.uid]) && x == (p.pid, p.uid);
      RunningFound(s, p);
      RebuildSpares(s, Key(p.uid, names[p.uid]));
    }
  }

  lemma FoundRunning(s: Survey, k: string, pid: int)
    requires k in Rebuild(s) && pid in Rebuild(s)[k].pids
    ensures exists p :: p in s.procs && p.pid == pid && p.uid == Rebuild(s)[k].uid
  {
    var names := CollectNames(s.infos);
    RebuiltEntry(s, k);
    RunningAppsExactly(s, k);
    hide Rebuild, RunningApps, CollectNames, KeysOf, ContinuousKeys, Key;
    var p :| p in s.procs && p.pid == pid && p.uid in names && k == Key(p.uid, names[p.uid]);
    KeyIsInjective(p.uid, names[p.uid], RunningApps(s)[k].uid, RunningApps(s)[k].name);
  }

  lemma RunningFound(s: Survey, p: ProcInfo)
    requires p in s.procs && p.uid in CollectNames(s.infos)
    ensures var k := Key(p.uid, CollectNames(s.infos)[p.uid]);
            k in Rebuild(s) && p.pid in Rebuild(s)[k].pids && Rebuild(s)[k].uid == p.uid
  {
    var names := CollectNames(s.infos);
    var k := Key(p.uid, names[p.uid]);
    var apps := CollectApps(s.infos);
    CollectedNames(s.infos);
    assert k in apps;
    KeyIsInjective(p.uid, names[p.uid], apps[k].uid, apps[k].name);
    AddProcsKeeps(apps, names, s.procs);
    assert Runs(s.procs, names, k, p.pid);
    AddProcsExactly(apps, names, s.procs, k, p.pid);
    assert p.uid in RunningUids(names, s.procs);
    assert k in RunningApps(s);
    KeysKept(s, k);
    RebuiltEntry(s, k);
    hide Rebuild, AddProcs, CollectApps, CollectNames, KeysOf, ContinuousKeys, Key, FlagIf;
  }

  lemma KeysKept(s: Survey, k: string)
    requires k in RunningApps(s)
    ensures k in Rebuild(s)
  {
    hide RunningApps, KeysOf, ContinuousKeys, CollectNames;
  }

  // ---------------------------------------------------------------- who is tracked

  /** The application is installed and something runs under its uid. */
  predicate RunsInstalled(s: Survey, uid: int, name: string) {
    (exists i :: i in s.infos && i.uid == uid && i.name == name) && exists p :: p in s.procs && p.uid == uid
  }

  /** The process runs under the uid. */
  predicate RunsUnder(procs: seq<ProcInfo>, uid: int, pid: int) {
    exists p :: p in procs && p.uid == uid && p.pid == pid
  }

  lemma {:induction false} CollectedKeys(infos: seq<AppInfo>, uid: int, name: string)
    ensures Key(uid, name) in CollectApps(infos) <==> exists i :: i in infos && i.uid == uid && i.name == name
  {
    if infos != [] {
      var before, last := infos[..|infos| - 1], infos[|infos| - 1];
      assert infos == before + [last];
      CollectedKeys(before, uid, name);
      if Key(uid, name) == Key(last.uid, last.name) { KeyIsInjective(uid, name, last.uid, last.name); }
      hide Key;
    }
  }

  /** A rebuild tracks exactly the installed applications whose uid runs. Of those of one uid the
      first installed has all its processes, and the others have none. */
  lemma SurveyTracks(s: Survey, uid: int, name: string)
    ensures var apps := Rebuild(s); var k := Key(uid, name);
            && (k in apps <==> RunsInstalled(s, uid, name))
            && (k in apps ==>
                  forall pid :: pid in apps[k].pids <==> IsFirstName(s.infos, uid, name) && RunsUnder(s.procs, uid, pid))
  {
    var names := CollectNames(s.infos);
    var k := Key(uid, name);
    SameKeys(s);
    TracksRunning(s, uid, name);
    NamesAreFirst(s.infos, uid);
    hide Key, Rebuild, RunningApps, CollectNames, RunsInstalled;
    if k in Rebuild(s) {
      RebuiltEntry(s, k);
      RunningAppsExactly(s, k);
      forall pid
        ensures Runs(s.procs, names, k, pid) <==> IsFirstName(s.infos, uid, name) && RunsUnder(s.procs, uid, pid)
      {
        FirstRuns(s, uid, name, pid);
      }
    }
  }

  lemma SameKeys(s: Survey)
    ensures Rebuild(s).Keys == RunningApps(s).Keys
  {
    hide RunningApps, With, KeysOf, ContinuousKeys, CollectNames;
  }

  lemma TracksRunning(s: Survey, uid: int, name: string)
    ensures Key(uid, name) in RunningApps(s) <==> RunsInstalled(s, uid, name)
  {
    var names, k := CollectNames(s.infos), Key(uid, name);
    CollectedNames(s.infos);
    CollectedKeys(s.infos, uid, name);
    NamesAreFirst(s.infos, uid);
    AddProcsKeeps(CollectApps(s.infos), names, s.procs) by { hide Key; }
    if k in CollectApps(s.infos) {
      var a := CollectApps(s.infos)[k];
      KeyIsInjective(uid, name, a.uid, a.name);
    }
    hide Key, CollectNames, CollectApps, AddProcs, Named, IsFirstName;
  }

  lemma FirstRuns(s: Survey, uid: int, name: string, pid: int)
    requires RunsInstalled(s, uid, name)
    ensures Runs(s.procs, CollectNames(s.infos), Key(uid, name), pid)
       <==> IsFirstName(s.infos, uid, name) && RunsUnder(s.procs, uid, pid)
  {
    var names := CollectNames(s.infos);
    NamesAreFirst(s.infos, uid);
    var j :| 0 <= j < |s.infos| && s.infos[j].uid == uid;
    FirstIsUnique(s.infos, uid, name);
    if Runs(s.procs, names, Key(uid, name), pid) {
      var p :| p in s.procs && p.pid == pid && p.uid in names && Key(uid, name) == Key(p.uid, names[p.uid]);
      KeyIsInjective(uid, name, p.uid, names[p.uid]);
    }
    hide Key, CollectNames, IsFirstName;
  }

  lemma FirstIsUnique(infos: seq<AppInfo>, uid: int, name: string)
    requires uid in CollectNames(infos)
    ensures IsFirstName(infos, uid, name) <==> CollectNames(infos)[uid] == name
  {
    NamesAreFirst(infos, uid);
  }
}
