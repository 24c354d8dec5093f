/** The network strategy as functions on its state. The net manager holds a trust list of uids
    that may use the network while its idle policy is on. */
module NetworkRules {
  import opened StandbyTypes
  import opened ExemptionFlags

  datatype NetApp = NetApp(name: string, flag: bv8)

  datatype Net = Net(
    apps: map<int, NetApp>,      // netLimitedAppInfo_
    enabled: bool,               // isFirewallEnabled_
    idle: bool,                  // isIdleMaintence_
    trust: set<int>,             // trust list of the net manager
    policy: bool)                // idle policy of the net manager

  /** What the other services answer when the table is rebuilt. */
  datatype NetSurvey = NetSurvey(
    available: bool,                       // every service answered
    partial: map<int, NetApp>,             // the table left behind when one did not
    procs: seq<(int, string)>,             // running processes: uid and process name
    systems: seq<(int, bool)>,             // installed applications: uid, is a system application
    foreground: seq<int>,
    continuous: seq<(int, bool)>,          // creator uid, task type exempt at night
    transient: seq<int>,
    works: seq<int>,
    allowed: set<string>,
    restricted: set<string>,
    conditional: set<string>)

  /** Answers needed while one message is handled. */
  datatype NetAnswers = NetAnswers(
    night: bool,                           // the condition in force
    survey: NetSurvey,
    newcomer: Newcomer,                    // asked for an application seen for the first time
    conditional: set<string>,              // names restricted unless they have a reason
    typeExempt: bool,                      // the type of the started task is exempt at night
    stopped: bool,                         // the application of the dead process is not running
    bundleName: string)                    // of the uid, when the message carries no name

  // ---------------------------------------------------------------- the trust list

  function ExemptUids(apps: map<int, NetApp>, night: bool): set<int> {
    set u | u in apps && IsFlagExempted(apps[u].flag, night)
  }

  /** SetFirewallAllowedList: nobody is removed during idle maintenance. */
  function SetTrust(n: Net, uids: set<int>, added: bool): Net {
    if added then n.(trust := n.trust + uids)
    else if n.idle then n
    else n.(trust := n.trust - uids)
  }

  function ResetAllowList(n: Net): Net {
    n.(trust := {}, policy := false)
  }

  /** SetFirewallStatus, with SetNetAllowApps */
  function SetStatus(n: Net, on: bool, night: bool): Net {
    SetTrust(n, ExemptUids(n.apps, night), on).(policy := on)
  }

  // ---------------------------------------------------------------- rebuilding the table

  /** The first process name seen for a uid stays. */
  function CollectRunning(procs: seq<(int, string)>): map<int, NetApp> {
    if procs == [] then map[]
    else
      var before := CollectRunning(procs[..|procs| - 1]);
      var p := procs[|procs| - 1];
      if p.0 in before then before else before[p.0 := NetApp(p.1, 0)]
  }

  function MarkUids(apps: map<int, NetApp>, uids: set<int>, flag: bv8): map<int, NetApp> {
    map u | u in apps :: if u in uids then apps[u].(flag := With(apps[u].flag, flag)) else apps[u]
  }

  function MarkNamed(apps: map<int, NetApp>, names: set<string>, flag: bv8): map<int, NetApp> {
    map u | u in apps :: if apps[u].name in names then apps[u].(flag := With(apps[u].flag, flag)) else apps[u]
  }

  /** A conditionally restricted application with no reason but being a system application. */
  function Conditioned(flag: bv8, listed: bool): bv8 {
    if listed && Without(flag, UNRESTRICTED) == 0 then With(flag, RESTRICTED) else flag
  }

  function MarkConditional(apps: map<int, NetApp>, names: set<string>): map<int, NetApp> {
    map u | u in apps :: apps[u].(flag := Conditioned(apps[u].flag, apps[u].name in names))
  }

  function Listed(uids: seq<int>): set<int> {
    set u | u in uids
  }

  function SystemUids(systems: seq<(int, bool)>): set<int> {
    set s | s in systems && s.1 :: s.0
  }

  /** At night only some types of continuous tasks count. */
  function ContinuousUids(tasks: seq<(int, bool)>, night: bool): set<int> {
    set t | t in tasks && (t.1 || !night) :: t.0
  }

  /** InitNetLimitedAppInfo on an empty table, when every service answers */
  function RebuildNet(s: NetSurvey, night: bool): map<int, NetApp> {
    var a0 := CollectRunning(s.procs);
    var a1 := MarkUids(a0, SystemUids(s.systems), UNRESTRICTED);
    var a2 := MarkUids(a1, Listed(s.foreground), FOREGROUND_APP);
    var a3 := MarkUids(a2, ContinuousUids(s.continuous, night), CONTINUOUS_TASK);
    var a4 := MarkUids(a3, Listed(s.transient), TRANSIENT_TASK);
    var a5 := MarkUids(a4, Listed(s.works), WORK_SCHEDULER);
    MarkConditional(MarkNamed(MarkNamed(a5, s.allowed, EXEMPTION), s.restricted, RESTRICTED), s.conditional)
  }

  // ---------------------------------------------------------------- the firewall

  /** EnableNetworkFirewall, called when SLEEP enters APP_RES_DEEP */
  function EnableFirewall(n: Net, s: NetSurvey, night: bool): Net {
    if n.enabled then n
    else if !s.available then n.(apps := s.partial)
    else SetStatus(n.(apps := RebuildNet(s, night)), true, night).(enabled := true, idle := false)
  }

  function StartLimit(n: Net, state: State, phase: nat, s: NetSurvey, night: bool): Net {
    if state != Sleep || phase != APP_RES_DEEP then n else EnableFirewall(n, s, night)
  }

  /** DisableNetworkFirewall, called for every transition */
  function StopLimit(n: Net, pre: State, cur: State, night: bool): Net {
    if cur == Maintenance && pre == Sleep then SetStatus(n, false, night).(idle := true, enabled := false)
    else if cur == Sleep && pre == Maintenance then SetStatus(n.(idle := false), true, night).(enabled := true)
    else if pre == Sleep || pre == Maintenance then ResetAllowList(n).(apps := map[], idle := false, enabled := false)
    else n
  }

  /** UpdateFirewallAllowList, run at the switch between day and night */
  function UpdateAllowList(n: Net, s: NetSurvey, night: bool): Net {
    var n1 := ResetAllowList(n);
    if !s.available then n1.(apps := s.partial)
    else SetStatus(n1.(apps := RebuildNet(s, night)), true, night).(enabled := true)
  }

  // ---------------------------------------------------------------- exemption flags

  /** The flag of an application that becomes tracked. */
  function NewNetFlag(ans: NetAnswers, name: string): bv8 {
    Conditioned(NewFlag(ans.newcomer, name), name in ans.conditional)
  }

  /** GetAndCreateAppInfo */
  function Tracked(apps: map<int, NetApp>, uid: int, name: string, newFlag: bv8): map<int, NetApp> {
    if uid in apps then apps else apps[uid := NetApp(name, newFlag)]
  }

  /** The flag after a reason was added; a conditionally restricted name loses its restriction. */
  function Raised(flag: bv8, more: bv8, conditional: bool): bv8 {
    if conditional then Without(With(flag, more), RESTRICTED) else With(flag, more)
  }

  function AddNetFlag(n: Net, uid: int, name: string, flag: bv8, ans: NetAnswers): Net {
    if !n.enabled then n
    else
      var apps := Tracked(n.apps, uid, name, NewNetFlag(ans, name));
      var before := apps[uid].flag;
      var after := Raised(before, flag, name in ans.conditional);
      var n1 := n.(apps := apps[uid := apps[uid].(flag := With(after, flag))]);
      if BecomesExempted(before, after, ans.night) then SetTrust(n1, {uid}, true) else n1
  }

  function RemoveNetFlag(n: Net, uid: int, flag: bv8, ans: NetAnswers): Net {
    if !n.enabled || uid !in n.apps then n
    else
      var before := n.apps[uid].flag;
      var after := Conditioned(Without(before, flag), n.apps[uid].name in ans.conditional);
      var n1 := n.(apps := n.apps[uid := n.apps[uid].(flag := after)]);
      if BecomesExempted(after, before, ans.night) then SetTrust(n1, {uid}, false) else n1
  }

  // ---------------------------------------------------------------- processes

  function NetProcessCreated(n: Net, uid: int, name: string, ans: NetAnswers): Net {
    if !n.enabled then n
    else
      var n1 := n.(apps := Tracked(n.apps, uid, name, NewNetFlag(ans, name)));
      if IsFlagExempted(n1.apps[uid].flag, ans.night) then SetTrust(n1, {uid}, true) else n1
  }

  function NetProcessDied(n: Net, uid: int, ans: NetAnswers): Net {
    if !n.enabled || !ans.stopped || uid !in n.apps then n
    else
      var n1 := n.(apps := n.apps - {uid});
      if IsFlagExempted(n.apps[uid].flag, ans.night) then SetTrust(n1, {uid}, false) else n1
  }

  // ---------------------------------------------------------------- messages

  // AllowType::NETWORK
  const ALLOW_NETWORK: bv32 := 1

  /** A continuous task started at night counts only if its type does. */
  predicate TaskIgnored(task: BgTaskType, started: bool, ans: NetAnswers) {
    task.UnknownTask? || (started && ans.night && task.ContinuousTask? && !ans.typeExempt)
  }

  function BgTaskChanged(n: Net, task: BgTaskType, started: bool, uid: int, name: string, ans: NetAnswers): Net {
    if TaskIgnored(task, started, ans) then n
    else if started then AddNetFlag(n, uid, if name == "" then ans.bundleName else name, TaskFlag(task), ans)
    else RemoveNetFlag(n, uid, TaskFlag(task), ans)
  }

  function AllowChanged(n: Net, uid: int, name: string, allowType: bv32, added: bool, ans: NetAnswers): Net {
    if allowType & ALLOW_NETWORK == 0 then n
    else if added then AddNetFlag(n, uid, name, EXEMPTION, ans)
    else RemoveNetFlag(n, uid, EXEMPTION, ans)
  }

  /** NetworkStrategy::HandleEvent */
  function HandleNetMessage(n: Net, msg: Message, ans: NetAnswers): Net {
    match msg
    case AllowListChanged(uid, name, allowType, added) => AllowChanged(n, uid, name, allowType, added, ans)
    case ConditionChanged => UpdateAllowList(n, ans.survey, ans.night)
    case PhaseTransit(state, _, curPhase) => StartLimit(n, state, curPhase, ans.survey, ans.night)
    case StateTransit(pre, cur) => StopLimit(n, pre, cur, ans.night)
    case BgTaskStatus(task, started, uid, name) => BgTaskChanged(n, task, started, uid, name, ans)
    case ProcessState(uid, _, name, created) =>
      if created then NetProcessCreated(n, uid, name, ans) else NetProcessDied(n, uid, ans)
    case _ => n
  }
}
