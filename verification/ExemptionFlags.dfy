/** Exemption flags of an application: one bit for each reason not to restrict it, and one bit
    that asks for restriction. */
module ExemptionFlags {
  import opened StandbyTypes

  const CONTINUOUS_TASK: bv8 := 1
  const TRANSIENT_TASK: bv8 := 2
  const WORK_SCHEDULER: bv8 := 4
  const FOREGROUND_APP: bv8 := 8
  const UNRESTRICTED: bv8 := 16
  const EXEMPTION: bv8 := 32
  const RESTRICTED: bv8 := 64

  function With(flag: bv8, more: bv8): bv8 {
    flag | more
  }

  function Without(flag: bv8, less: bv8): bv8 {
    flag & !less
  }

  /** ExemptionTypeFlag::IsExempted */
  predicate IsExempted(flag: bv8) {
    if flag & EXEMPTION != 0 then true
    else if flag & RESTRICTED != 0 then false
    else flag != 0
  }

  /** BaseNetworkStrategy::IsFlagExempted: at night being a system application is no excuse. */
  predicate IsFlagExempted(flag: bv8, night: bool) {
    IsExempted(flag) && (night ==> IsExempted(flag & !UNRESTRICTED))
  }

  /** BaseNetworkStrategy::GetExemptedFlag: the application goes from `before`, not exempt, to
      `after`, exempt. At night only the first of the two is judged without UNRESTRICTED. */
  predicate BecomesExempted(before: bv8, after: bv8, night: bool) {
    (night && !IsExempted(before & !UNRESTRICTED) && IsExempted(after))
    || (!IsExempted(before) && IsExempted(after))
  }

  /** Adding reasons never takes an exemption away, as long as RESTRICTED is not among them. */
  lemma AddingIsMonotone(flag: bv8, more: bv8)
    requires more & RESTRICTED == 0
    ensures IsExempted(flag) ==> IsExempted(With(flag, more))
  {
  }

  lemma RemovingIsMonotone(flag: bv8, less: bv8)
    requires less & RESTRICTED == 0
    ensures IsExempted(Without(flag, less)) ==> IsExempted(flag)
  {
  }

  // ---------------------------------------------------------------- flags under a condition

  /** The flag, or nothing. */
  function FlagIf(on: bool, flag: bv8): bv8 {
    if on then flag else 0
  }

  lemma WithIf(flag: bv8, on: bool, more: bv8)
    ensures With(flag, FlagIf(on, more)) == if on then With(flag, more) else flag
  {
  }

  lemma WithTwice(flag: bv8, more: bv8)
    ensures With(With(flag, more), more) == With(flag, more)
  {
  }

  // ---------------------------------------------------------------- an application seen for the first time

  /** What the services know of an application seen for the first time: whether it is a system
      application, which names are allowed now, in the order of the answer, and which are
      restricted. */
  datatype Newcomer = Newcomer(system: bool, allowed: seq<string>, restricted: set<string>)

  function WithAllowed(flag: bv8, allowed: seq<string>, name: string): bv8 {
    if name in allowed then With(flag, EXEMPTION) else flag
  }

  /** GetExemptionConfigForApp */
  function Configured(flag: bv8, n: Newcomer, name: string): bv8 {
    var f := WithAllowed(flag, n.allowed, name);
    if name in n.restricted then With(f, RESTRICTED) else f
  }

  /** The flag of an application that becomes tracked. */
  function NewFlag(n: Newcomer, name: string): bv8 {
    Configured(if n.system then With(0, UNRESTRICTED) else 0, n, name)
  }

  /** An application that becomes tracked is exempt exactly when it is allowed, or is a system
      application that is not restricted. */
  lemma NewcomerExempted(n: Newcomer, name: string)
    ensures IsExempted(NewFlag(n, name)) <==> name in n.allowed || (n.system && name !in n.restricted)
  {
  }

  /** One more name of the answer has been looked at. */
  lemma AllowedMore(flag: bv8, allowed: seq<string>, name: string, j: nat)
    requires j < |allowed|
    ensures WithAllowed(flag, allowed[..j + 1], name)
         == (var f := WithAllowed(flag, allowed[..j], name); if allowed[j] == name then With(f, EXEMPTION) else f)
  {
    WithTwice(flag, EXEMPTION);
    hide With;
    assert allowed[..j + 1] == allowed[..j] + [allowed[j]];
  }

  /** BGTASK_EXEMPTION_FLAG_MAP */
  function TaskFlag(t: BgTaskType): bv8 {
    match t
    case ContinuousTask => CONTINUOUS_TASK
    case TransientTask => TRANSIENT_TASK
    case WorkSchedulerTask => WORK_SCHEDULER
    case UnknownTask => 0
  }
}
