/** The vocabulary shared by the state machine, the dispatcher and the strategies:
    device states, inner phases and the messages that travel through the handler queue. */
module StandbyTypes {

  datatype State = Working | Dark | Nap | Maintenance | Sleep

  /** Numeric value of a state; transitions compare states by it. */
  function Index(s: State): nat {
    match s
    case Working => 0
    case Dark => 1
    case Nap => 2
    case Maintenance => 3
    case Sleep => 4
  }

  // NapStatePhase::END and SleepStatePhase::END have the same value
  const PHASE_END: nat := 3
  // SleepStatePhase::APP_RES_DEEP, the phase whose entry starts the restrictions
  const APP_RES_DEEP: nat := 1

  const MSEC_PER_SEC: int := 1000
  const REPEAT_INTERVAL: int := 600000

  /** Actions of common events that the state manager reacts to. */
  datatype Action =
    | ScreenOn
    | ScreenOff
    | ScreenUnlocked
    | Charging
    | Discharging
    | UsbAttached
    | UsbDetached
    | LidOpen
    | UserSleepChanged(isSleep: bool)
    | UserSleepWithoutWant
    | EnterForceSleep
    | OtherAction

  datatype BgTaskType = ContinuousTask | TransientTask | WorkSchedulerTask | UnknownTask

  datatype Message =
    | CommonEvent(action: Action)
    | StateTransit(pre: State, cur: State)
    | PhaseTransit(state: State, prePhase: nat, curPhase: nat)
    | ConditionChanged
    | HalfHour(on: bool)
    | AllowListChanged(uid: int, name: string, allowType: bv32, added: bool)
    | BgTaskStatus(task: BgTaskType, started: bool, uid: int, name: string)
    | ProcessState(uid: int, pid: int, name: string, created: bool)
    | SysAbility(added: bool, isTaskService: bool)

  /** Messages that only the service's own components post. */
  predicate Internal(msg: Message) {
    msg.StateTransit? || msg.PhaseTransit? || msg.ConditionChanged? || msg.HalfHour?
  }
}
