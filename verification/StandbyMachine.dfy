/** The standby state machine as a transition function.

    A `Machine` holds the fields of the state manager, of its five state objects and of the
    constraint manager, together with the handler queue and the armed timers. Every function
    below is one source function; `Next` is one step of the handler thread or of its
    environment. The class `StateManagerAdapter` computes exactly these functions in place. */
module StandbyMachine {
  import opened StandbyTypes

  /** Switches and parameters read from the configuration, and which sensors were usable. */
  datatype Config = Config(
    napSwitch: bool,
    sleepSwitch: bool,
    detectMotion: bool,
    napMotion: bool,      // the NAP -> SLEEP motion constraint is registered
    repeatMotion: bool,   // the repeated motion constraint is registered
    darkTimeout: int,
    napTimeout: int,
    napMaintTimeout: int,
    sleepMaintTimeout: int,
    napIntervals: seq<int>,
    sleepIntervals: seq<int>)

  /** What the outside world answers during one step. */
  datatype Env = Env(
    charging: bool,         // battery is charging or full
    sensorOk: bool,         // every sensor could be subscribed and activated
    extraDelay: nat,        // delay added to a maintenance interval at night
    napLimit: int,          // time-of-day bound on the nap timer
    halfHourPassed: bool)   // the screen has been off for half an hour

  datatype Timer = TransitTimer(state: State) | RepeatTimer

  datatype Task =
    | ScreenCheck                     // posted by WorkingState::BeginState
    | TransitNext(state: State)       // posted when the transition timer of a state fires
    | FirstPhase(state: State)        // posted by BeginState, acquires the standby lock
    | NextPhase(state: State)         // posted after each phase
    | RepeatDetect                    // posted when the repeated detection timer fires
    | Deliver(msg: Message)           // posted by DispatchEvent

  datatype TaskName = ConditionTask | TransitTask | PhaseTask | RepeatTask | Unnamed

  function Name(t: Task): TaskName {
    match t
    case ScreenCheck => ConditionTask
    case TransitNext(_) => TransitTask
    case FirstPhase(_) => PhaseTask
    case NextPhase(_) => PhaseTask
    case RepeatDetect => RepeatTask
    case Deliver(_) => Unnamed
  }

  datatype Monitor = NoMonitor | ChargeMonitor | MotionMonitor

  datatype EvalParams = EvalParams(
    curState: State, curPhase: nat, nextState: State, nextPhase: nat, isRepeated: bool)

  /** History variables: what has been delivered, and counters the properties speak of. */
  datatype History = History(
    done: seq<Message>,     // messages already delivered, in order
    napReturns: nat,        // begins of NAP after maintenance since its last fresh entry
    sleepReturns: nat,      // likewise for SLEEP
    starts: nat,            // evaluations the constraint manager accepted
    verdicts: nat,          // evaluations ended with a result
    cancels: nat)           // evaluations stopped without a result

  datatype Machine = Machine(
    cfg: Config,
    cur: State,
    pre: State,
    evaluating: bool,       // isEvalution_ of the state manager
    monitoring: bool,       // isEvaluation_ of the constraint manager
    monitor: Monitor,       // curMonitor_
    blocked: bool,
    halfHour: bool,         // scrOffHalfHourCtrl_
    screenOn: bool,
    lock: bool,             // runningLockStatus_
    napPhase: nat,
    sleepPhase: nat,
    napNext: State,
    maintNext: State,
    napIndex: int,          // maintIntervalIndex_ of NAP
    sleepIndex: int,        // maintIntervalIndex_ of SLEEP
    repeated: bool,         // isRepeatedDetection_
    timers: map<Timer, int>,
    queue: seq<Task>,
    hist: History)

  // ---------------------------------------------------------------- queue, timers, lock

  /** EventHandler::RemoveTask: drop every queued task with the given name. */
  function RemoveNamed(q: seq<Task>, n: TaskName): (r: seq<Task>)
    ensures forall t :: t in r <==> t in q && Name(t) != n
  {
    if q == [] then []
    else if Name(q[0]) == n then RemoveNamed(q[1..], n)
    else [q[0]] + RemoveNamed(q[1..], n)
  }

  function MinInt(a: int, b: int): int {
    if a <= b then a else b
  }

  // ---------------------------------------------------------------- per-state data

  /** The state the DARK state heads for; fixed by the switches at construction. */
  function DarkNext(cfg: Config): State {
    if cfg.napSwitch then Nap else if cfg.sleepSwitch then Sleep else Dark
  }

  /** nextState_ of the given state object. */
  function NextOf(m: Machine, s: State): State {
    match s
    case Working => Working
    case Dark => DarkNext(m.cfg)
    case Nap => m.napNext
    case Maintenance => m.maintNext
    case Sleep => Maintenance
  }

  /** curPhase_ of the given state object. */
  function PhaseOf(m: Machine, s: State): nat {
    match s
    case Nap => m.napPhase
    case Sleep => m.sleepPhase
    case _ => 0
  }

  predicate TransitionValid(cur: State, next: State) {
    match cur
    case Working => next != Maintenance
    case Dark => next != Maintenance
    case Nap => true
    case Maintenance => next != Dark
    case Sleep => next != Nap
  }

  /** The next index into a maintenance interval list. */
  function NextIndex(intervals: seq<int>, index: int, isFirst: bool): int {
    if isFirst || |intervals| == 0 then index else MinInt(index + 1, |intervals| - 1)
  }

  /** The timeout computed from an interval list; 0 when the list is empty. The index is in
      range in every run (`StandbyInvariant.Counters`), so the other 0 is never used. */
  function MaintTimeout(intervals: seq<int>, index: int, extra: nat): int {
    if 0 <= index < |intervals| then intervals[index] * MSEC_PER_SEC + extra else 0
  }

  // ---------------------------------------------------------------- half-hour control

  /** OnScreenOffHalfHourInner with `repeated` false, as every caller but the dump has it. */
  function HalfHourInner(m: Machine, on: bool): Machine {
    if on && !(m.cur == Sleep || (m.pre == Sleep && m.cur == Maintenance)) then m
    else if m.halfHour == on then m
    else m.(halfHour := on, queue := m.queue + [Deliver(HalfHour(on))])
  }

  // ---------------------------------------------------------------- BeginState and EndState

  function BeginNap(m: Machine, e: Env): Machine {
    if m.pre == Maintenance then
      var index := NextIndex(m.cfg.napIntervals, m.napIndex, false);
      var timeout := MaintTimeout(m.cfg.napIntervals, index, e.extraDelay);
      m.(napNext := Maintenance,
         napIndex := index,
         timers := if timeout != 0 then m.timers[TransitTimer(Nap) := timeout] else m.timers,
         hist := m.hist.(napReturns := m.hist.napReturns + 1))
    else
      var timeout := MinInt(m.cfg.napTimeout * MSEC_PER_SEC, e.napLimit);
      m.(napNext := if m.cfg.sleepSwitch then Sleep else m.napNext,
         napIndex := 0,
         napPhase := 0,
         timers := if m.cfg.sleepSwitch then m.timers[TransitTimer(Nap) := timeout] else m.timers,
         queue := m.queue + [FirstPhase(Nap)],
         hist := m.hist.(napReturns := 0))
  }

  function BeginMaintenance(m: Machine): Machine {
    var timeout := if m.pre == Nap then m.cfg.napMaintTimeout else m.cfg.sleepMaintTimeout;
    m.(maintNext := m.pre,
       timers := m.timers[TransitTimer(Maintenance) := timeout * MSEC_PER_SEC])
  }

  /** SleepState::BeginState up to the half-hour check. */
  function EnterSleep(m: Machine, e: Env): Machine {
    if m.pre == Maintenance then
      var index := NextIndex(m.cfg.sleepIntervals, m.sleepIndex, false);
      var timeout := MaintTimeout(m.cfg.sleepIntervals, index, e.extraDelay);
      m.(repeated := false,
         sleepIndex := index,
         timers := if timeout != 0 then m.timers[TransitTimer(Sleep) := timeout] else m.timers,
         hist := m.hist.(sleepReturns := m.hist.sleepReturns + 1))
    else
      var timeout := MaintTimeout(m.cfg.sleepIntervals, 0, e.extraDelay);
      m.(repeated := false,
         sleepIndex := 0,
         sleepPhase := 0,
         timers := m.timers[TransitTimer(Sleep) := timeout],
         queue := m.queue + [FirstPhase(Sleep)],
         hist := m.hist.(sleepReturns := 0))
  }

  function BeginSleep(m: Machine, e: Env): Machine {
    if m.pre != Maintenance && e.halfHourPassed
    then HalfHourInner(EnterSleep(m, e), true)
    else EnterSleep(m, e)
  }

  function BeginDark(m: Machine): Machine {
    if DarkNext(m.cfg) == Dark then m
    else m.(timers := m.timers[TransitTimer(Dark) := m.cfg.darkTimeout * MSEC_PER_SEC])
  }

  /** BeginState of the current state object. */
  function BeginState(m: Machine, e: Env): Machine {
    match m.cur
    case Working => m.(queue := m.queue + [ScreenCheck])
    case Dark => BeginDark(m)
    case Nap => BeginNap(m, e)
    case Maintenance => BeginMaintenance(m)
    case Sleep => BeginSleep(m, e)
  }

  /** The tasks that EndState of `s` leaves in the queue. */
  function RemoveTasks(q: seq<Task>, s: State): seq<Task> {
    match s
    case Working => RemoveNamed(q, ConditionTask)
    case Dark => RemoveNamed(q, TransitTask)
    case Nap => RemoveNamed(RemoveNamed(q, TransitTask), PhaseTask)
    case Maintenance => RemoveNamed(q, TransitTask)
    case Sleep => RemoveNamed(RemoveNamed(RemoveNamed(q, TransitTask), PhaseTask), RepeatTask)
  }

  /** The timers that EndState of `s` stops. */
  function StoppedTimers(s: State): set<Timer> {
    match s
    case Working => {}
    case Sleep => {TransitTimer(Sleep), RepeatTimer}
    case _ => {TransitTimer(s)}
  }

  /** EndState of the current state object, and the switch to `next`. */
  function Leave(m: Machine, next: State): Machine {
    m.(timers := m.timers - StoppedTimers(m.cur),
       queue := RemoveTasks(m.queue, m.cur),
       pre := m.cur,
       cur := next)
  }

  // ---------------------------------------------------------------- transitions

  function Announce(m: Machine): Machine {
    m.(queue := m.queue + [Deliver(StateTransit(m.pre, m.cur))], lock := false)
  }

  /** Leave the current state and enter `next`, without any check. */
  function TransitInner(m: Machine, e: Env, next: State): Machine {
    Announce(BeginState(Leave(m, next), e))
  }

  /** StateManagerAdapter::StopEvalution */
  function StopEvaluation(m: Machine): Machine {
    if m.evaluating
    then m.(evaluating := false,
            monitoring := false,
            monitor := if m.monitoring then NoMonitor else m.monitor,
            hist := m.hist.(cancels := m.hist.cancels + 1))
    else m
  }

  function ExitStandby(m: Machine, e: Env, next: State): Machine {
    TransitInner(HalfHourInner(StopEvaluation(m).(blocked := false), false), e, next)
  }

  function TransitWithMaint(m: Machine, e: Env, next: State): Machine {
    if next == Working
    then TransitInner(HalfHourInner(m, false), e, next)
    else TransitInner(m, e, next)
  }

  /** TransitToState(WORKING): never refused and never evaluated. */
  function Wake(m: Machine, e: Env): Machine {
    if m.cur == Working then m.(blocked := false)
    else if m.cur == Maintenance then TransitWithMaint(m, e, Working)
    else ExitStandby(m, e, Working)
  }

  // ---------------------------------------------------------------- blocking

  /** BlockCurrentState: only NAP reacts, by heading for maintenance. */
  function Block(m: Machine, e: Env): Machine {
    if m.cur != Nap then m.(blocked := true)
    else
      var timeout := MaintTimeout(m.cfg.napIntervals, m.napIndex, e.extraDelay);
      m.(blocked := true,
         napNext := if timeout > 0 then Maintenance else m.napNext,
         timers := if timeout > 0 then m.timers[TransitTimer(Nap) := timeout] else m.timers,
         lock := false)
  }

  // ---------------------------------------------------------------- end of an evaluation

  /** What the end of phase `p` of state `s` posts: the phase message when the evaluation
      passed, and the task of the next phase unless this was the last. */
  function PhasePosts(s: State, p: nat, result: bool): seq<Task> {
    (if result then [Deliver(PhaseTransit(s, p, p + 1))] else [])
    + (if p + 1 < PHASE_END then [NextPhase(s)] else [])
  }

  /** NapState::SetPhaseTransitTask */
  function AdvanceNap(m: Machine, result: bool): Machine {
    m.(napPhase := m.napPhase + 1,
       queue := m.queue + PhasePosts(Nap, m.napPhase, result),
       lock := m.lock && m.napPhase + 1 < PHASE_END)
  }

  /** SleepState::EndEvalCurrentState before the last phase, with SetPhaseTransitOrRepeatedTask */
  function AdvanceSleep(m: Machine, result: bool): Machine {
    m.(sleepPhase := m.sleepPhase + 1,
       queue := m.queue + PhasePosts(Sleep, m.sleepPhase, result),
       lock := m.lock && m.sleepPhase + 1 < PHASE_END,
       timers := if m.sleepPhase + 1 >= PHASE_END && m.cfg.detectMotion
                 then m.timers[RepeatTimer := REPEAT_INTERVAL] else m.timers)
  }

  function EndEvalNap(m: Machine, e: Env, result: bool): Machine {
    if m.napPhase != PHASE_END then AdvanceNap(m, result)
    else if !result then Wake(m, e)
    else if m.napNext != Nap then TransitInner(m, e, Sleep)
    else m
  }

  function EndEvalSleep(m: Machine, e: Env, result: bool): Machine {
    if m.sleepPhase < PHASE_END then AdvanceSleep(m, result)
    else if !result && m.repeated then Wake(m, e).(repeated := false)
    else m.(repeated := false)
  }

  /** EndEvalCurrentState of the current state object. */
  function StateEndEval(m: Machine, e: Env, result: bool): Machine {
    match m.cur
    case Working => if result then TransitInner(m, e, Dark) else Block(m, e)
    case Dark =>
      if !result then Block(m, e)
      else if DarkNext(m.cfg) != Dark then TransitInner(m, e, DarkNext(m.cfg))
      else m
    case Nap => EndEvalNap(m, e, result)
    case Maintenance => m
    case Sleep => EndEvalSleep(m, e, result)
  }

  /** The evaluation flags drop before the result is handed to the state. */
  function CloseEval(m: Machine): Machine {
    m.(evaluating := false,
       monitoring := false,
       monitor := if m.monitoring then NoMonitor else m.monitor,
       hist := m.hist.(verdicts := m.hist.verdicts + 1))
  }

  /** StateManagerAdapter::EndEvalCurrentState */
  function EndEval(m: Machine, e: Env, result: bool): Machine {
    if m.evaluating then StateEndEval(CloseEval(m), e, result) else m
  }

  // ---------------------------------------------------------------- start of an evaluation

  /** Which registered constraint watches the given evaluation. */
  function Classify(cfg: Config, p: EvalParams): Monitor {
    if p == EvalParams(Working, 0, Dark, 0, false) then ChargeMonitor
    else if cfg.napMotion && p == EvalParams(Nap, PHASE_END, Sleep, 0, false) then MotionMonitor
    else if cfg.repeatMotion && p == EvalParams(Sleep, PHASE_END, Sleep, PHASE_END, true) then MotionMonitor
    else NoMonitor
  }

  /** Both managers have accepted an evaluation watched by `kind`. */
  function OpenEval(m: Machine, kind: Monitor): Machine {
    m.(evaluating := true, monitoring := true, monitor := kind,
       hist := m.hist.(starts := m.hist.starts + 1))
  }

  /** StartEvalCurrentState with ConstraintManagerAdapter::StartEvalution: an evaluation
      without a constraint passes at once, the charge check answers at once, a motion check
      stays pending. A second start is refused by the constraint manager. */
  function StartEval(m: Machine, e: Env, p: EvalParams): Machine {
    if m.monitoring then m.(evaluating := true)
    else
      match Classify(m.cfg, p)
      case NoMonitor => EndEval(OpenEval(m, NoMonitor), e, true)
      case ChargeMonitor => EndEval(OpenEval(m, ChargeMonitor), e, !e.charging)
      case MotionMonitor =>
        if e.sensorOk then OpenEval(m, MotionMonitor) else Block(OpenEval(m, MotionMonitor), e)
  }

  datatype Outcome = Outcome(m: Machine, ok: bool)

  function EnterStandby(m: Machine, e: Env, next: State): Outcome {
    if m.blocked then Outcome(m, false)
    else Outcome(StartEval(m, e, EvalParams(m.cur, PhaseOf(m, m.cur), next, 0, false)), true)
  }

  function TransitToState(m: Machine, e: Env, next: State): Outcome {
    if !TransitionValid(m.cur, next) then Outcome(m, false)
    else if m.cur == next then Outcome(m.(blocked := false), true)
    else if next == Maintenance || m.cur == Maintenance then Outcome(TransitWithMaint(m, e, next), true)
    else if Index(m.cur) < Index(next) then EnterStandby(m, e, next)
    else Outcome(ExitStandby(m, e, next), true)
  }

  // ---------------------------------------------------------------- queued tasks

  function RunScreenCheck(m: Machine, e: Env): Machine {
    if !m.screenOn then TransitToState(m, e, Dark).m else m
  }

  /** The task posted by the transition timer of `s`, with the standby lock just acquired. */
  function RunTransit(m: Machine, e: Env, s: State): Machine {
    var r := TransitToState(StopEvaluation(m), e, NextOf(m, s));
    if r.ok then r.m else Block(r.m, e).(lock := false)
  }

  function RunPhase(m: Machine, e: Env, s: State): Machine {
    StartEval(m, e, EvalParams(s, PhaseOf(m, s), s, PhaseOf(m, s) + 1, false))
  }

  function RunRepeat(m: Machine, e: Env): Machine {
    StartEval(m, e, EvalParams(Sleep, m.sleepPhase, Sleep, m.sleepPhase, true))
  }

  /** TransitHoldSleepState */
  function HoldSleep(m: Machine, e: Env): Machine {
    var m1 := if m.cur != Sleep then TransitInner(m.(blocked := false), e, Sleep) else m;
    m1.(timers := m1.timers - StoppedTimers(Sleep))
  }

  /** HandleUserSleepState */
  function UserSleep(m: Machine, e: Env, isSleep: bool): Machine {
    if m.screenOn then m
    else if isSleep then HoldSleep(m, e)
    else if m.cur == Sleep then BeginState(m, e)
    else m
  }

  /** The part of HandleCommonEvent before the check for DARK. */
  function React(m: Machine, e: Env, a: Action): Machine {
    match a
    case ScreenOn => Wake(m.(screenOn := true), e)
    case ScreenOff => m.(screenOn := false)
    case ScreenUnlocked => Wake(m, e)
    case Charging => Wake(m, e)
    case UsbAttached => Wake(m, e)
    case LidOpen => Wake(m, e)
    case UserSleepChanged(isSleep) => UserSleep(m, e, isSleep)
    case EnterForceSleep => HoldSleep(m, e)
    case _ => m
  }

  function HandleCommonEvent(m: Machine, e: Env, a: Action): Machine {
    var m1 := React(m, e, a);
    if m1.cur == Working && !m1.screenOn
    then TransitToState(m1, e, Dark).m
    else m1
  }

  function RunDeliver(m: Machine, e: Env, msg: Message): Machine {
    if msg.CommonEvent? then HandleCommonEvent(m, e, msg.action) else m
  }

  /** Run one task that has been taken off the queue. */
  function RunTask(m: Machine, e: Env, t: Task): Machine {
    match t
    case ScreenCheck => RunScreenCheck(m, e)
    case TransitNext(s) => RunTransit(m.(lock := true), e, s)
    case FirstPhase(s) => RunPhase(m.(lock := true), e, s)
    case NextPhase(s) => RunPhase(m, e, s)
    case RepeatDetect => RunRepeat(m.(repeated := true), e)
    case Deliver(msg) => RunDeliver(m.(hist := m.hist.(done := m.hist.done + [msg])), e, msg)
  }

  // ---------------------------------------------------------------- steps

  datatype Step =
    | RunHead                       // the handler runs the oldest queued task
    | Fire(timer: Timer)            // an armed timer fires and posts its task
    | HalfHourTimer                 // the screen-off timer fires
    | MotionResult(result: bool)    // a motion task ends the evaluation
    | MotionRetryFails              // a periodic restart of the sensors fails
    | DayNightSwitch                // the day/night timer fires
    | External(msg: Message)        // some other component dispatches a message

  predicate Enabled(m: Machine, s: Step) {
    match s
    case RunHead => m.queue != []
    case Fire(t) => t in m.timers
    case HalfHourTimer => true
    case MotionResult(_) => true
    case MotionRetryFails => m.monitor == MotionMonitor
    case DayNightSwitch => true
    case External(msg) => !Internal(msg)
  }

  function FireTimer(m: Machine, t: Timer): Machine {
    match t
    case TransitTimer(s) => m.(timers := m.timers - {t}, queue := m.queue + [TransitNext(s)])
    case RepeatTimer => m.(queue := m.queue + [RepeatDetect])
  }

  function Next(m: Machine, e: Env, s: Step): Machine
    requires Enabled(m, s)
  {
    match s
    case RunHead => RunTask(m.(queue := m.queue[1..]), e, m.queue[0])
    case Fire(t) => FireTimer(m, t)
    case HalfHourTimer => HalfHourInner(m, true)
    case MotionResult(result) => EndEval(m, e, result)
    case MotionRetryFails => Block(m, e)
    case DayNightSwitch => if m.cur == Sleep then m.(queue := m.queue + [Deliver(ConditionChanged)]) else m
    case External(msg) => m.(queue := m.queue + [Deliver(msg)])
  }

  /** The machine right after Init has run and the service has become ready. */
  function Initial(cfg: Config, screenOn: bool): Machine {
    Machine(cfg, Working, Working, false, false, NoMonitor, false, false, screenOn, false,
            0, 0, Nap, Working, 0, 0, false, map[], [ScreenCheck],
            History([], 0, 0, 0, 0, 0))
  }
}
