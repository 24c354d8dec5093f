/** The trust list of the network strategy: whom it may hold, whom it does hold, and exactly
    when the two differ. */
module NetworkProofs {
  import opened StandbyTypes
  import opened ExemptionFlags
  import opened IntSets
  import opened NetworkRules

  // ---------------------------------------------------------------- the invariant

  /** The trust list holds only tracked applications that are exempt under the condition. */
  predicate Trustworthy(n: Net, night: bool) {
    n.trust <= ExemptUids(n.apps, night)
  }

  /** What every message keeps while the condition stays the same. */
  predicate Guarded(n: Net, night: bool) {
    && (n.policy ==> n.enabled)
    && (n.idle ==> !n.enabled)
    && (if n.enabled then Trustworthy(n, night) else n.trust == {})
  }

  /** While the firewall is enabled the trust list is exactly the exempt applications. */
  predicate Complete(n: Net, night: bool) {
    n.enabled ==> n.trust == ExemptUids(n.apps, night)
  }

  // ---------------------------------------------------------------- flags

  /** Adding a reason: nobody stops being exempt, and a change is noticed exactly. */
  lemma AdditionNoticed(before: bv8, more: bv8, conditional: bool, night: bool)
    requires more & !UNRESTRICTED & !RESTRICTED != 0 && more & RESTRICTED == 0
    ensures var after := Raised(before, more, conditional);
            && With(after, more) == after
            && (IsFlagExempted(before, night) ==> IsFlagExempted(after, night))
            && (BecomesExempted(before, after, night) <==> !IsFlagExempted(before, night) && IsFlagExempted(after, night))
  {
  }

  /** Taking a reason away: nobody becomes exempt, and a loss is noticed. */
  lemma RemovalNoticed(before: bv8, less: bv8, conditional: bool, night: bool)
    requires less & RESTRICTED == 0
    ensures var after := Conditioned(Without(before, less), conditional);
            && (IsFlagExempted(after, night) ==> IsFlagExempted(before, night) && !BecomesExempted(after, before, night))
            && (IsFlagExempted(before, night) && !IsFlagExempted(after, night) ==> BecomesExempted(after, before, night))
  {
  }

  // ---------------------------------------------------------------- one application changes

  /** Changing one entry changes the exempt set by that uid only. */
  lemma ExemptUpdate(apps: map<int, NetApp>, uid: int, a: NetApp, night: bool)
    ensures ExemptUids(apps[uid := a], night)
         == (ExemptUids(apps, night) - {uid}) + (if IsFlagExempted(a.flag, night) then {uid} else {})
  {
    hide IsFlagExempted;
  }

  lemma ExemptRemove(apps: map<int, NetApp>, uid: int, night: bool)
    ensures ExemptUids(apps - {uid}, night) == ExemptUids(apps, night) - {uid}
  {
    hide IsFlagExempted;
  }

  /** A reason the strategy adds or takes away. */
  predicate IsReason(flag: bv8) {
    flag & !UNRESTRICTED & !RESTRICTED != 0 && flag & RESTRICTED == 0
  }

  lemma AddNetFlagKeeps(n: Net, uid: int, name: string, flag: bv8, ans: NetAnswers)
    requires Guarded(n, ans.night) && IsReason(flag)
    ensures var r := AddNetFlag(n, uid, name, flag, ans);
            && Guarded(r, ans.night)
            && (Complete(n, ans.night) ==>
                  (Complete(r, ans.night) <==>
                     !n.enabled || uid in n.apps || !IsFlagExempted(NewNetFlag(ans, name), ans.night)))
  {
    hide NewNetFlag, IsFlagExempted, BecomesExempted, Raised, With, Without, ExemptUids;
    if n.enabled {
      var apps := Tracked(n.apps, uid, name, NewNetFlag(ans, name));
      var before := apps[uid].flag;
      var after := Raised(before, flag, name in ans.conditional);
      AdditionNoticed(before, flag, name in ans.conditional, ans.night);
      ExemptUpdate(n.apps, uid, apps[uid], ans.night);
      ExemptUpdate(apps, uid, apps[uid].(flag := after), ans.night);
      ExemptSaid(n.apps, uid, ans.night);
      assert n.apps[uid := apps[uid]] == apps;
    }
  }

  lemma ExemptSaid(apps: map<int, NetApp>, uid: int, night: bool)
    ensures uid in ExemptUids(apps, night) <==> uid in apps && IsFlagExempted(apps[uid].flag, night)
  {
  }

  lemma RemoveNetFlagKeeps(n: Net, uid: int, flag: bv8, ans: NetAnswers)
    requires Guarded(n, ans.night) && IsReason(flag)
    ensures var r := RemoveNetFlag(n, uid, flag, ans);
            Guarded(r, ans.night) && (Complete(n, ans.night) ==> Complete(r, ans.night))
  {
    if n.enabled && uid in n.apps {
      var a := n.apps[uid];
      var after := Conditioned(Without(a.flag, flag), a.name in ans.conditional);
      RemovalNoticed(a.flag, flag, a.name in ans.conditional, ans.night);
      ExemptUpdate(n.apps, uid, a.(flag := after), ans.night);
      assert uid in ExemptUids(n.apps, ans.night) <==> IsFlagExempted(a.flag, ans.night);
      hide IsFlagExempted, BecomesExempted, Conditioned, With, Without, ExemptUids;
    }
  }

  lemma NetProcessCreatedKeeps(n: Net, uid: int, name: string, ans: NetAnswers)
    requires Guarded(n, ans.night)
    ensures var r := NetProcessCreated(n, uid, name, ans);
            Guarded(r, ans.night) && (Complete(n, ans.night) ==> Complete(r, ans.night))
  {
    hide NewNetFlag;
    var apps := Tracked(n.apps, uid, name, NewNetFlag(ans, name));
    ExemptUpdate(n.apps, uid, apps[uid], ans.night);
    assert uid in n.apps ==> n.apps[uid := apps[uid]] == n.apps;
    assert uid in ExemptUids(apps, ans.night) <==> IsFlagExempted(apps[uid].flag, ans.night);
    hide IsFlagExempted, ExemptUids;
  }

  lemma NetProcessDiedKeeps(n: Net, uid: int, ans: NetAnswers)
    requires Guarded(n, ans.night)
    ensures var r := NetProcessDied(n, uid, ans);
            Guarded(r, ans.night) && (Complete(n, ans.night) ==> Complete(r, ans.night))
  {
    ExemptRemove(n.apps, uid, ans.night);
    assert uid in n.apps ==> (uid in ExemptUids(n.apps, ans.night) <==> IsFlagExempted(n.apps[uid].flag, ans.night));
    hide IsFlagExempted, ExemptUids;
  }

  // ---------------------------------------------------------------- the firewall

  lemma StartLimitKeeps(n: Net, state: State, phase: nat, s: NetSurvey, night: bool)
    requires Guarded(n, night)
    ensures var r := StartLimit(n, state, phase, s, night);
            && Guarded(r, night) && (Complete(n, night) ==> Complete(r, night))
            && (!n.enabled && r.enabled ==> r.apps == RebuildNet(s, night) && r.policy)
  {
    hide ExemptUids, RebuildNet;
  }

  lemma StopLimitKeeps(n: Net, pre: State, cur: State, night: bool)
    requires Guarded(n, night)
    ensures var r := StopLimit(n, pre, cur, night);
            Guarded(r, night) && (Complete(n, night) ==> Complete(r, night))
  {
    hide ExemptUids;
  }

  /** A rebuild makes the trust list right again, whatever it was and whatever condition is now
      in force; when it fails, nobody is trusted. */
  lemma UpdateAllowListKeeps(n: Net, s: NetSurvey, night: bool)
    requires !n.idle
    ensures var r := UpdateAllowList(n, s, night);
            && (s.available ==> r.enabled && r.policy && r.apps == RebuildNet(s, night)
                                && r.trust == ExemptUids(r.apps, night))
            && (!s.available ==> r.enabled == n.enabled && r.trust == {} && !r.policy)
    ensures Guarded(UpdateAllowList(n, s, night), night)
    ensures Complete(UpdateAllowList(n, s, night), night) <==>
              s.available || !n.enabled || ExemptUids(s.partial, night) == {}
  {
    hide ExemptUids, RebuildNet;
  }

  // ---------------------------------------------------------------- every message

  /** An application with this name is exempt as soon as it is tracked: it is allowed, or it is a
      system application by day with no restriction on its name. */
  predicate ExemptOnSight(ans: NetAnswers, name: string) {
    || name in ans.newcomer.allowed
    || (ans.newcomer.system && !ans.night && name !in ans.newcomer.restricted && name !in ans.conditional)
  }

  lemma NewcomerTrusted(ans: NetAnswers, name: string)
    ensures IsFlagExempted(NewNetFlag(ans, name), ans.night) <==> ExemptOnSight(ans, name)
  {
    NewcomerBits(ans.newcomer.system, name in ans.newcomer.allowed, name in ans.newcomer.restricted,
                 name in ans.conditional, ans.night);
    var n := ans.newcomer;
    ConfiguredBits(n, name);
    hide NewFlag, Conditioned, IsFlagExempted, FlagIf;
  }

  lemma ConfiguredBits(n: Newcomer, name: string)
    ensures NewFlag(n, name)
         == FlagIf(n.system, UNRESTRICTED) | FlagIf(name in n.allowed, EXEMPTION) | FlagIf(name in n.restricted, RESTRICTED)
  {
  }

  lemma NewcomerBits(system: bool, allowed: bool, restricted: bool, conditional: bool, night: bool)
    ensures var flag := FlagIf(system, UNRESTRICTED) | FlagIf(allowed, EXEMPTION) | FlagIf(restricted, RESTRICTED);
            IsFlagExempted(Conditioned(flag, conditional), night)
            <==> allowed || (system && !night && !restricted && !conditional)
  {
  }

  /** The message asks to track an application that is exempt already, through a path that puts
      nobody on the trust list. */
  predicate Overlooks(n: Net, msg: Message, ans: NetAnswers) {
    n.enabled &&
    match msg
    case AllowListChanged(uid, name, allowType, added) =>
      allowType & ALLOW_NETWORK != 0 && added && uid !in n.apps && ExemptOnSight(ans, name)
    case BgTaskStatus(task, started, uid, name) =>
      && !TaskIgnored(task, started, ans) && started && uid !in n.apps
      && ExemptOnSight(ans, if name == "" then ans.bundleName else name)
    case ConditionChanged => !ans.survey.available && ExemptUids(ans.survey.partial, ans.night) != {}
    case _ => false
  }

  lemma TaskFlagIsReason(task: BgTaskType)
    requires !task.UnknownTask?
    ensures IsReason(TaskFlag(task)) && IsReason(EXEMPTION)
  {
  }

  /** Whatever message arrives, the trust list stays within the exempt applications while the
      firewall is enabled and empty while it is not; the idle policy is on only while the
      firewall is enabled. A list that was complete stays complete, except exactly for an
      application that becomes tracked when it is already exempt, and after a failed rebuild. */
  lemma HandleNetMessageKeeps(n: Net, msg: Message, ans: NetAnswers)
    requires Guarded(n, ans.night)
    requires msg.ConditionChanged? ==> !n.idle
    ensures Guarded(HandleNetMessage(n, msg, ans), ans.night)
    ensures Complete(n, ans.night) ==>
              (Complete(HandleNetMessage(n, msg, ans), ans.night) <==> !Overlooks(n, msg, ans))
  {
    TaskFlagIsReason(ContinuousTask);
    hide Guarded, Complete, ExemptUids, IsFlagExempted, NewNetFlag, ExemptOnSight, AddNetFlag, RemoveNetFlag,
         NetProcessCreated, NetProcessDied, StartLimit, StopLimit, UpdateAllowList, IsReason;
    match msg
    case AllowListChanged(uid, name, _, _) =>
      NewcomerTrusted(ans, name);
      AddNetFlagKeeps(n, uid, name, EXEMPTION, ans);
      RemoveNetFlagKeeps(n, uid, EXEMPTION, ans);
    case ConditionChanged => UpdateAllowListKeeps(n, ans.survey, ans.night);
    case PhaseTransit(state, _, curPhase) => StartLimitKeeps(n, state, curPhase, ans.survey, ans.night);
    case StateTransit(pre, cur) => StopLimitKeeps(n, pre, cur, ans.night);
    case BgTaskStatus(task, _, uid, name) =>
      if !task.UnknownTask? {
        TaskFlagIsReason(task);
        NewcomerTrusted(ans, if name == "" then ans.bundleName else name);
        AddNetFlagKeeps(n, uid, if name == "" then ans.bundleName else name, TaskFlag(task), ans);
        RemoveNetFlagKeeps(n, uid, TaskFlag(task), ans);
      }
    case ProcessState(uid, _, name, _) =>
      NetProcessCreatedKeeps(n, uid, name, ans);
      NetProcessDiedKeeps(n, uid, ans);
    case _ =>
  }

  // ---------------------------------------------------------------- changes of the condition

  /** The interruption of SLEEP takes exactly the currently exempt applications off the list, so
      it empties the list if and only if everybody on it is still exempt under the condition now
      in force. */
  lemma MaintenanceClears(n: Net, night: bool)
    requires !n.idle
    ensures var r := StopLimit(n, Sleep, Maintenance, night);
            && !r.enabled && !r.policy && r.apps == n.apps
            && r.trust == n.trust - ExemptUids(n.apps, night)
            && (r.trust == {} <==> n.trust <= ExemptUids(n.apps, night))
  {
    NothingLeft(n.trust, ExemptUids(n.apps, night));
    hide ExemptUids;
  }

  /** An application exempt by day and not at night is a system application with no other mark. */
  lemma DayOnlyExactly(flag: bv8)
    ensures IsFlagExempted(flag, false) && !IsFlagExempted(flag, true) <==> flag == UNRESTRICTED
    ensures IsFlagExempted(flag, true) ==> IsFlagExempted(flag, false)
  {
  }

  /** Somebody tracked is a system application with no other mark. */
  predicate SystemOnly(apps: map<int, NetApp>) {
    exists u :: u in apps && apps[u].flag == UNRESTRICTED
  }

  lemma StillExempt(apps: map<int, NetApp>, night: bool)
    ensures ExemptUids(apps, false) <= ExemptUids(apps, night) <==> !night || !SystemOnly(apps)
  {
    hide IsFlagExempted;
    if night {
      forall u | u in apps
        ensures u in ExemptUids(apps, false) && u !in ExemptUids(apps, true) <==> apps[u].flag == UNRESTRICTED
      {
        DayOnlyExactly(apps[u].flag);
      }
      if SystemOnly(apps) {
        var u :| u in apps && apps[u].flag == UNRESTRICTED;
        assert u in ExemptUids(apps, false) && u !in ExemptUids(apps, night);
      } else {
        forall u | u in ExemptUids(apps, false)
          ensures u in ExemptUids(apps, night)
        {
          assert u in apps && apps[u].flag != UNRESTRICTED;
        }
      }
    }
  }

  /** A list that was right by day is emptied by the interruption of SLEEP, and the firewall is
      then off with nobody left on the list, unless night has fallen and some tracked application
      has no mark but that of a system application. */
  lemma MaintenanceClearsExactly(n: Net, night: bool)
    requires n.enabled && !n.idle && Complete(n, false)
    ensures StopLimit(n, Sleep, Maintenance, night).trust == {} <==> !night || !SystemOnly(n.apps)
  {
    MaintenanceClears(n, night);
    StillExempt(n.apps, night);
    hide ExemptUids, StopLimit, SystemOnly;
  }

  /** SLEEP is interrupted, and resumed under the same condition. */
  function Resumed(n: Net, night: bool): Net {
    StopLimit(StopLimit(n, Sleep, Maintenance, night), Maintenance, Sleep, night)
  }

  /** Whatever it was before, the firewall is on after the maintenance of SLEEP: the table is as it
      was, never surveyed again, and the exempt ones in it have joined the list. */
  lemma MaintenanceEnables(n: Net, night: bool)
    requires !n.idle
    ensures var r := Resumed(n, night);
            && r.enabled && r.policy && !r.idle
            && r.apps == n.apps && r.trust == n.trust + ExemptUids(n.apps, night)
  {
    hide ExemptUids;
  }

  /** Maintenance gives the strategy back as it was exactly when the firewall had been on: a
      firewall that had never been set up, or whose rebuild had failed, comes on all the same. */
  lemma MaintenanceReturnsExactly(n: Net, night: bool)
    requires Guarded(n, night) && Complete(n, night) && !n.idle
    requires n.enabled ==> n.policy
    ensures Resumed(n, night) == n <==> n.enabled
  {
    MaintenanceEnables(n, night);
    hide ExemptUids, Resumed;
  }

  /** Without the conditions on the list: the strategy comes back as it was exactly when the
      firewall and its policy were on and every exempt application was on the list. */
  lemma MaintenanceIsNeutral(n: Net, night: bool)
    requires !n.idle
    ensures Resumed(n, night) == n <==> n.enabled && n.policy && ExemptUids(n.apps, night) <= n.trust
  {
    MaintenanceEnables(n, night);
    hide ExemptUids, Resumed;
  }

  // ---------------------------------------------------------------- whom a rebuild trusts

  /** The application has a reason to keep the network: it is allowed; or it is not restricted
      and is in the foreground or runs a task that counts; or it is a system application, by
      day, and not restricted conditionally. */
  predicate Excused(s: NetSurvey, night: bool, uid: int, name: string) {
    || name in s.allowed
    || (&& name !in s.restricted
        && (|| uid in s.foreground
            || (exists t :: t in s.continuous && t.0 == uid && (t.1 || !night))
            || uid in s.transient
            || uid in s.works
            || ((uid, true) in s.systems && !night && name !in s.conditional)))
  }

  /** The name under which a uid is tracked: that of its first process. */
  predicate IsTrackedAs(procs: seq<(int, string)>, uid: int, name: string) {
    exists i :: 0 <= i < |procs| && procs[i] == (uid, name) && forall j :: 0 <= j < i ==> procs[j].0 != uid
  }

  /** The flag that the marks of a rebuild leave on an entry without any. */
  function Marked(flag: bv8, system: bool, fg: bool, cont: bool, trans: bool, work: bool, allowed: bool,
                  restricted: bool): bv8 {
    var f1 := With(flag, FlagIf(system, UNRESTRICTED));
    var f2 := With(f1, FlagIf(fg, FOREGROUND_APP));
    var f3 := With(f2, FlagIf(cont, CONTINUOUS_TASK));
    var f4 := With(f3, FlagIf(trans, TRANSIENT_TASK));
    var f5 := With(f4, FlagIf(work, WORK_SCHEDULER));
    With(With(f5, FlagIf(allowed, EXEMPTION)), FlagIf(restricted, RESTRICTED))
  }

  lemma BitsExcused(system: bool, fg: bool, cont: bool, trans: bool, work: bool, allowed: bool, restricted: bool,
                    conditional: bool, night: bool)
    ensures IsFlagExempted(Conditioned(Marked(0, system, fg, cont, trans, work, allowed, restricted), conditional), night)
            <==> allowed || (!restricted && (fg || cont || trans || work || (system && !night && !conditional)))
  {
  }

  lemma MarkUidsEntry(apps: map<int, NetApp>, uids: set<int>, flag: bv8, u: int)
    ensures u in MarkUids(apps, uids, flag) <==> u in apps
    ensures u in apps ==> MarkUids(apps, uids, flag)[u] == apps[u].(flag := With(apps[u].flag, FlagIf(u in uids, flag)))
  {
    if u in apps { WithIf(apps[u].flag, u in uids, flag); }
    hide With, FlagIf;
  }

  lemma MarkNamedEntry(apps: map<int, NetApp>, names: set<string>, flag: bv8, u: int)
    ensures u in MarkNamed(apps, names, flag) <==> u in apps
    ensures u in apps ==>
              MarkNamed(apps, names, flag)[u] == apps[u].(flag := With(apps[u].flag, FlagIf(apps[u].name in names, flag)))
  {
    if u in apps { WithIf(apps[u].flag, apps[u].name in names, flag); }
    hide With, FlagIf;
  }

  /** An entry of the rebuilt table and the bits it carries. */
  lemma RebuiltNetEntry(s: NetSurvey, night: bool, u: int)
    ensures u in RebuildNet(s, night) <==> u in CollectRunning(s.procs)
    ensures u in RebuildNet(s, night) ==>
              var a := CollectRunning(s.procs)[u];
              var flag := Marked(a.flag, u in SystemUids(s.systems), u in Listed(s.foreground),
                                 u in ContinuousUids(s.continuous, night), u in Listed(s.transient), u in Listed(s.works),
                                 a.name in s.allowed, a.name in s.restricted);
              RebuildNet(s, night)[u] == NetApp(a.name, Conditioned(flag, a.name in s.conditional))
  {
    hide CollectRunning, SystemUids, Listed, ContinuousUids, Conditioned;
    var a0 := CollectRunning(s.procs);
    var a1 := MarkUids(a0, SystemUids(s.systems), UNRESTRICTED);
    var a2 := MarkUids(a1, Listed(s.foreground), FOREGROUND_APP);
    var a3 := MarkUids(a2, ContinuousUids(s.continuous, night), CONTINUOUS_TASK);
    var a4 := MarkUids(a3, Listed(s.transient), TRANSIENT_TASK);
    var a5 := MarkUids(a4, Listed(s.works), WORK_SCHEDULER);
    MarkUidsEntry(a0, SystemUids(s.systems), UNRESTRICTED, u);
    MarkUidsEntry(a1, Listed(s.foreground), FOREGROUND_APP, u);
    MarkUidsEntry(a2, ContinuousUids(s.continuous, night), CONTINUOUS_TASK, u);
    MarkUidsEntry(a3, Listed(s.transient), TRANSIENT_TASK, u);
    MarkUidsEntry(a4, Listed(s.works), WORK_SCHEDULER, u);
    MarkNamedEntry(a5, s.allowed, EXEMPTION, u);
    MarkNamedEntry(MarkNamed(a5, s.allowed, EXEMPTION), s.restricted, RESTRICTED, u);
    hide MarkUids, MarkNamed, FlagIf, With;
  }

  lemma {:induction false} CollectedRunning(procs: seq<(int, string)>, u: int)
    ensures u in CollectRunning(procs) <==> exists p :: p in procs && p.0 == u
    ensures u in CollectRunning(procs) ==>
              CollectRunning(procs)[u].flag == 0 && IsTrackedAs(procs, u, CollectRunning(procs)[u].name)
  {
    if procs != [] {
      var before, p := procs[..|procs| - 1], procs[|procs| - 1];
      assert procs == before + [p];
      CollectedRunning(before, u);
      if u in CollectRunning(before) {
        var name := CollectRunning(before)[u].name;
        var i :| 0 <= i < |before| && before[i] == (u, name) && forall j :: 0 <= j < i ==> before[j].0 != u;
        assert procs[i] == (u, name) && forall j :: 0 <= j < i ==> procs[j] == before[j];
      } else if p.0 == u {
        forall j | 0 <= j < |before|
          ensures procs[j].0 != u
        {
          assert procs[j] == before[j] && before[j] in before;
        }
        assert procs[|procs| - 1] == (u, p.1);
      }
    }
  }

  /** Right after the firewall is set up, the trust list is exactly the running applications
      with a reason to keep the network. */
  lemma RebuildTrustsExactly(s: NetSurvey, night: bool, u: int)
    ensures u in ExemptUids(RebuildNet(s, night), night) <==>
              exists name :: IsTrackedAs(s.procs, u, name) && Excused(s, night, u, name)
  {
    RebuiltNetEntry(s, night, u);
    CollectedRunning(s.procs, u);
    if u in CollectRunning(s.procs) {
      var name := CollectRunning(s.procs)[u].name;
      SameName(s.procs, u, name);
      RebuiltExempt(s, night, u);
      hide CollectRunning, RebuildNet, IsTrackedAs, IsFlagExempted, Excused;
    } else {
      forall name
        ensures !IsTrackedAs(s.procs, u, name)
      {
        NotTracked(s.procs, u, name);
      }
    }
  }

  /** The bits of a rebuilt entry say whether it is excused under its name. */
  lemma RebuiltExempt(s: NetSurvey, night: bool, u: int)
    requires u in CollectRunning(s.procs) && u in RebuildNet(s, night) && CollectRunning(s.procs)[u].flag == 0
    ensures IsFlagExempted(RebuildNet(s, night)[u].flag, night)
            <==> Excused(s, night, u, CollectRunning(s.procs)[u].name)
  {
    var name := CollectRunning(s.procs)[u].name;
    var cont := u in ContinuousUids(s.continuous, night);
    RebuiltNetEntry(s, night, u);
    ContinuousSaid(s.continuous, night, u);
    SystemSaid(s.systems, u);
    hide CollectRunning, RebuildNet, IsFlagExempted, Conditioned, ContinuousUids, SystemUids, Marked;
    BitsExcused((u, true) in s.systems, u in s.foreground, cont, u in s.transient, u in s.works,
                name in s.allowed, name in s.restricted, name in s.conditional, night);
  }

  lemma ContinuousSaid(tasks: seq<(int, bool)>, night: bool, u: int)
    ensures u in ContinuousUids(tasks, night) <==> exists t :: t in tasks && t.0 == u && (t.1 || !night)
  {
  }

  lemma SystemSaid(systems: seq<(int, bool)>, u: int)
    ensures u in SystemUids(systems) <==> (u, true) in systems
  {
    if u in SystemUids(systems) {
      var s :| s in systems && s.1 && s.0 == u;
      assert s == (u, true);
    }
    if (u, true) in systems {
      assert (u, true).0 in SystemUids(systems);
    }
  }

  lemma NotTracked(procs: seq<(int, string)>, u: int, name: string)
    requires forall p :: p in procs ==> p.0 != u
    ensures !IsTrackedAs(procs, u, name)
  {
  }

  /** A uid is tracked under one name only. */
  lemma SameName(procs: seq<(int, string)>, u: int, name: string)
    requires IsTrackedAs(procs, u, name)
    ensures forall other :: IsTrackedAs(procs, u, other) ==> other == name
  {
    forall other | IsTrackedAs(procs, u, other)
      ensures other == name
    {
      var i :| 0 <= i < |procs| && procs[i] == (u, name) && forall j :: 0 <= j < i ==> procs[j].0 != u;
      var k :| 0 <= k < |procs| && procs[k] == (u, other) && forall j :: 0 <= j < k ==> procs[j].0 != u;
      assert i == k;
    }
  }
}
