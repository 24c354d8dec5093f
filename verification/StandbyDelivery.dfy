/** Messages count as delivered exactly when the handler takes them off the queue. */
module StandbyDelivery {
  import opened StandbyTypes
  import opened StandbyMachine

  /** Nothing was delivered between `m` and `r`. */
  predicate SameDone(m: Machine, r: Machine) {
    r.hist.done == m.hist.done
  }

  lemma HalfHourDone(m: Machine, on: bool)
    ensures SameDone(m, HalfHourInner(m, on))
  {
  }

  lemma BeginNapDone(m: Machine, e: Env)
    ensures SameDone(m, BeginNap(m, e))
  {
    hide MaintTimeout, NextIndex;
  }

  lemma EnterSleepDone(m: Machine, e: Env)
    ensures SameDone(m, EnterSleep(m, e))
  {
    hide MaintTimeout, NextIndex;
  }

  lemma BeginStateDone(m: Machine, e: Env)
    ensures SameDone(m, BeginState(m, e))
  {
    hide BeginNap, BeginSleep, BeginMaintenance, BeginDark;
    BeginNapDone(m, e);
    BeginSleepDone(m, e);
    BeginMaintenanceDone(m);
    BeginDarkDone(m);
  }

  lemma BeginMaintenanceDone(m: Machine)
    ensures SameDone(m, BeginMaintenance(m))
  {
  }

  lemma BeginDarkDone(m: Machine)
    ensures SameDone(m, BeginDark(m))
  {
  }

  lemma BeginSleepDone(m: Machine, e: Env)
    ensures SameDone(m, BeginSleep(m, e))
  {
    hide EnterSleep, HalfHourInner;
    EnterSleepDone(m, e);
    HalfHourDone(EnterSleep(m, e), true);
  }

  lemma TransitInnerDone(m: Machine, e: Env, next: State)
    ensures SameDone(m, TransitInner(m, e, next))
  {
    BeginStateDone(Leave(m, next), e);
    hide BeginState;
  }

  lemma StopEvaluationDone(m: Machine)
    ensures SameDone(m, StopEvaluation(m))
  {
  }

  lemma ExitStandbyDone(m: Machine, e: Env, next: State)
    ensures SameDone(m, ExitStandby(m, e, next))
  {
    var m1 := StopEvaluation(m).(blocked := false);
    StopEvaluationDone(m);
    HalfHourDone(m1, false);
    TransitInnerDone(HalfHourInner(m1, false), e, next);
    hide StopEvaluation, HalfHourInner, TransitInner;
  }

  lemma TransitWithMaintDone(m: Machine, e: Env, next: State)
    ensures SameDone(m, TransitWithMaint(m, e, next))
  {
    HalfHourDone(m, false);
    TransitInnerDone(HalfHourInner(m, false), e, next);
    TransitInnerDone(m, e, next);
    hide HalfHourInner, TransitInner;
  }

  lemma WakeDone(m: Machine, e: Env)
    ensures SameDone(m, Wake(m, e))
  {
    ExitStandbyDone(m, e, Working);
    TransitWithMaintDone(m, e, Working);
    hide ExitStandby, TransitWithMaint;
  }

  lemma BlockDone(m: Machine, e: Env)
    ensures SameDone(m, Block(m, e))
  {
    hide MaintTimeout;
  }

  lemma EndEvalNapDone(m: Machine, e: Env, result: bool)
    ensures SameDone(m, EndEvalNap(m, e, result))
  {
    hide TransitInner, Wake, PhasePosts;
    TransitInnerDone(m, e, Sleep);
    WakeDone(m, e);
  }

  lemma EndEvalSleepDone(m: Machine, e: Env, result: bool)
    ensures SameDone(m, EndEvalSleep(m, e, result))
  {
    hide Wake, PhasePosts;
    WakeDone(m, e);
  }

  lemma StateEndEvalDone(m: Machine, e: Env, result: bool)
    ensures SameDone(m, StateEndEval(m, e, result))
  {
    hide TransitInner, EndEvalNap, EndEvalSleep, Block;
    TransitInnerDone(m, e, Dark);
    TransitInnerDone(m, e, DarkNext(m.cfg));
    EndEvalNapDone(m, e, result);
    EndEvalSleepDone(m, e, result);
    BlockDone(m, e);
  }

  lemma EndEvalDone(m: Machine, e: Env, result: bool)
    ensures SameDone(m, EndEval(m, e, result))
  {
    StateEndEvalDone(CloseEval(m), e, result);
    hide StateEndEval;
  }

  lemma StartEvalDone(m: Machine, e: Env, p: EvalParams)
    ensures SameDone(m, StartEval(m, e, p))
  {
    var kind := Classify(m.cfg, p);
    var m1 := OpenEval(m, kind);
    assert SameDone(m, m1);
    hide EndEval, Block, OpenEval, Classify;
    match kind
    case NoMonitor => EndEvalDone(m1, e, true);
    case ChargeMonitor => EndEvalDone(m1, e, !e.charging);
    case MotionMonitor => BlockDone(m1, e);
  }

  lemma TransitToStateDone(m: Machine, e: Env, next: State)
    ensures SameDone(m, TransitToState(m, e, next).m)
  {
    hide StartEval, ExitStandby, TransitWithMaint;
    StartEvalDone(m, e, EvalParams(m.cur, PhaseOf(m, m.cur), next, 0, false));
    ExitStandbyDone(m, e, next);
    TransitWithMaintDone(m, e, next);
  }

  lemma RunTransitDone(m: Machine, e: Env, s: State)
    ensures SameDone(m, RunTransit(m, e, s))
  {
    var m1 := StopEvaluation(m);
    var t := TransitToState(m1, e, NextOf(m, s));
    StopEvaluationDone(m);
    TransitToStateDone(m1, e, NextOf(m, s));
    BlockDone(t.m, e);
    hide StopEvaluation, TransitToState, Block, NextOf;
  }

  lemma HoldSleepDone(m: Machine, e: Env)
    ensures SameDone(m, HoldSleep(m, e))
  {
    TransitInnerDone(m.(blocked := false), e, Sleep);
    hide TransitInner;
  }

  lemma ReactDone(m: Machine, e: Env, a: Action)
    ensures SameDone(m, React(m, e, a))
  {
    WakeDone(m, e);
    WakeDone(m.(screenOn := true), e);
    HoldSleepDone(m, e);
    BeginStateDone(m, e);
    hide Wake, HoldSleep, BeginState;
  }

  lemma HandleCommonEventDone(m: Machine, e: Env, a: Action)
    ensures SameDone(m, HandleCommonEvent(m, e, a))
  {
    ReactDone(m, e, a);
    TransitToStateDone(React(m, e, a), e, Dark);
    hide React, TransitToState;
  }

  lemma RunTaskDone(m: Machine, e: Env, t: Task)
    ensures RunTask(m, e, t).hist.done == if t.Deliver? then m.hist.done + [t.msg] else m.hist.done
  {
    hide TransitToState, RunTransit, StartEval, HandleCommonEvent, NextOf;
    match t
    case ScreenCheck => TransitToStateDone(m, e, Dark);
    case TransitNext(s) => RunTransitDone(m.(lock := true), e, s);
    case FirstPhase(s) =>
      var m1 := m.(lock := true);
      StartEvalDone(m1, e, EvalParams(s, PhaseOf(m1, s), s, PhaseOf(m1, s) + 1, false));
    case NextPhase(s) => StartEvalDone(m, e, EvalParams(s, PhaseOf(m, s), s, PhaseOf(m, s) + 1, false));
    case RepeatDetect =>
      var m1 := m.(repeated := true);
      StartEvalDone(m1, e, EvalParams(Sleep, m1.sleepPhase, Sleep, m1.sleepPhase, true));
    case Deliver(msg) =>
      var m1 := m.(hist := m.hist.(done := m.hist.done + [msg]));
      if msg.CommonEvent? { HandleCommonEventDone(m1, e, msg.action); }
  }

  lemma HeadDone(m: Machine, e: Env)
    requires m.queue != []
    ensures Next(m, e, RunHead).hist.done ==
            if m.queue[0].Deliver? then m.hist.done + [m.queue[0].msg] else m.hist.done
  {
    var m1 := m.(queue := m.queue[1..]);
    RunTaskDone(m1, e, m.queue[0]);
    assert m1.hist == m.hist;
    hide RunTask;
  }

  lemma FireDone(m: Machine, t: Timer)
    ensures FireTimer(m, t).hist == m.hist
  {
  }

  /** One step delivers the message it takes off the queue, and no other. */
  lemma NextDone(m: Machine, e: Env, s: Step)
    requires Enabled(m, s)
    ensures Next(m, e, s).hist.done ==
            if s.RunHead? && m.queue[0].Deliver? then m.hist.done + [m.queue[0].msg] else m.hist.done
  {
    hide RunTask, EndEval, Block, HalfHourInner, FireTimer;
    match s
    case RunHead => HeadDone(m, e);
    case Fire(t) => FireDone(m, t);
    case MotionResult(result) => EndEvalDone(m, e, result);
    case MotionRetryFails => BlockDone(m, e);
    case HalfHourTimer => HalfHourDone(m, true);
    case _ =>
  }
}
