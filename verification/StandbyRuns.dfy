/** Runs of the standby state machine, and what holds in every state they reach. */
module StandbyRuns {
  import opened StandbyTypes
  import opened StandbyMachine
  import opened StandbyInvariant
  import opened StandbyLog
  import opened StandbyLock

  datatype Move = Move(env: Env, step: Step)

  predicate ValidRun(m: Machine, run: seq<Move>)
    decreases run
  {
    run == [] ||
    (Enabled(m, run[0].step) && ValidRun(Next(m, run[0].env, run[0].step), run[1..]))
  }

  function Exec(m: Machine, run: seq<Move>): Machine
    requires ValidRun(m, run)
    decreases run
  {
    if run == [] then m else Exec(Next(m, run[0].env, run[0].step), run[1..])
  }

  /** Every restart of SLEEP in the run happens while there is room for it. */
  predicate GuardedRun(m: Machine, run: seq<Move>)
    requires ValidRun(m, run)
    decreases run
  {
    run == [] ||
    (Guarded(m, run[0].step) && GuardedRun(Next(m, run[0].env, run[0].step), run[1..]))
  }

  /** The state reached from initialization by a run. */
  function Reached(cfg: Config, screenOn: bool, run: seq<Move>): Machine
    requires ValidRun(Initial(cfg, screenOn), run)
  {
    Exec(Initial(cfg, screenOn), run)
  }

  lemma {:induction false} ExecKeeps(m: Machine, run: seq<Move>)
    requires Inv(m) && ValidRun(m, run)
    ensures Inv(Exec(m, run)) && Exec(m, run).cfg == m.cfg
    decreases run
  {
    if run == [] {
    } else {
      NextKeeps(m, run[0].env, run[0].step);
      hide Inv, Next;
      ExecKeeps(Next(m, run[0].env, run[0].step), run[1..]);
    }
  }

  lemma ReachedKeeps(cfg: Config, screenOn: bool, run: seq<Move>)
    requires ValidRun(Initial(cfg, screenOn), run)
    ensures Inv(Reached(cfg, screenOn, run)) && Reached(cfg, screenOn, run).cfg == cfg
  {
    InitialHolds(cfg, screenOn);
    hide Inv;
    ExecKeeps(Initial(cfg, screenOn), run);
  }

  lemma {:induction false} ExecConcat(m: Machine, a: seq<Move>, b: seq<Move>)
    requires ValidRun(m, a) && ValidRun(Exec(m, a), b)
    ensures ValidRun(m, a + b) && Exec(m, a + b) == Exec(Exec(m, a), b)
    decreases a
  {
    hide Next, Enabled;
    if a == [] {
      assert a + b == b;
    } else {
      var m1 := Next(m, a[0].env, a[0].step);
      assert (a + b)[0] == a[0] && (a + b)[1..] == a[1..] + b;
      ExecConcat(m1, a[1..], b);
      assert Exec(m, a) == Exec(m1, a[1..]);
    }
  }

  // ---------------------------------------------------------------- evaluation protocol

  /** Between tasks both managers agree on whether an evaluation is pending; it is pending only
      in the last phase of NAP or in SLEEP; and each accepted start has been closed exactly
      once, by a verdict or by a cancellation, except the pending one. */
  lemma EvaluationProtocol(cfg: Config, screenOn: bool, run: seq<Move>)
    requires ValidRun(Initial(cfg, screenOn), run)
    ensures var m := Reached(cfg, screenOn, run);
            && m.evaluating == m.monitoring
            && (m.monitor == MotionMonitor <==> m.monitoring)
            && (m.evaluating ==> m.cur == Sleep || (m.cur == Nap && m.napPhase == PHASE_END))
            && m.hist.starts == m.hist.verdicts + m.hist.cancels + (if m.evaluating then 1 else 0)
  {
    ReachedKeeps(cfg, screenOn, run);
  }

  // ---------------------------------------------------------------- ownership

  /** Every armed timer and every queued task belongs to the current state, and both phases
      stay within bounds. */
  lemma TimerOwnership(cfg: Config, screenOn: bool, run: seq<Move>)
    requires ValidRun(Initial(cfg, screenOn), run)
    ensures var m := Reached(cfg, screenOn, run);
            && (forall t :: t in m.timers ==> if t.TransitTimer? then t.state == m.cur != Working else m.cur == Sleep)
            && (forall t :: t in m.queue && t.TransitNext? ==> t.state == m.cur != Working)
            && (forall t :: t in m.queue && (t.FirstPhase? || t.NextPhase?) ==> t.state == m.cur && m.cur in {Nap, Sleep})
            && (forall t :: t in m.queue && t.RepeatDetect? ==> m.cur == Sleep)
            && (forall t :: t in m.queue && t.ScreenCheck? ==> m.cur == Working)
            && m.napPhase <= PHASE_END && m.sleepPhase <= PHASE_END
  {
    ReachedKeeps(cfg, screenOn, run);
    var m := Reached(cfg, screenOn, run);
    assert forall t :: t in m.timers ==> OwnsTimer(m.cur, t);
    assert forall t :: t in m.queue ==> OwnsTask(m.cur, t);
  }

  /** Half-hour control is on only in SLEEP, or in the maintenance that interrupts it. */
  lemma HalfHourControl(cfg: Config, screenOn: bool, run: seq<Move>)
    requires ValidRun(Initial(cfg, screenOn), run)
    ensures var m := Reached(cfg, screenOn, run);
            m.halfHour ==> m.cur == Sleep || (m.cur == Maintenance && m.pre == Sleep)
  {
    ReachedKeeps(cfg, screenOn, run);
  }

  // ---------------------------------------------------------------- maintenance

  /** MAINTENANCE always heads back for the state it interrupted: its timer is armed or its
      task is queued, and running that task returns there with the phases as they were. */
  lemma MaintenanceReturns(cfg: Config, screenOn: bool, run: seq<Move>, e: Env)
    requires ValidRun(Initial(cfg, screenOn), run)
    requires Reached(cfg, screenOn, run).cur == Maintenance
    ensures var m := Reached(cfg, screenOn, run);
            && m.pre in {Nap, Sleep} && m.maintNext == m.pre
            && (TransitTimer(Maintenance) in m.timers || TransitNext(Maintenance) in m.queue)
            && (m.queue != [] && m.queue[0].TransitNext? ==>
                  var r := Next(m, e, RunHead);
                  && r.cur == m.pre && r.pre == Maintenance
                  && r.napPhase == m.napPhase && r.sleepPhase == m.sleepPhase)
  {
    ReachedKeeps(cfg, screenOn, run);
    var m := Reached(cfg, screenOn, run);
    if m.queue != [] && m.queue[0].TransitNext? {
      TakeKeeps(m);
      MarksFree(Take(m), true, m.repeated);
      hide Core, RunTransit, Reached;
      RunTransitOtherKeeps(Take(m).(lock := true), e);
    }
  }

  // ---------------------------------------------------------------- waking up

  /** Handling SCREEN_ON in any reachable state ends in WORKING with nothing of the standby
      states left: no evaluation, no half-hour control, no lock, no timer, no task. */
  lemma WakeUpIsTotal(cfg: Config, screenOn: bool, run: seq<Move>, e: Env)
    requires ValidRun(Initial(cfg, screenOn), run)
    requires var m := Reached(cfg, screenOn, run);
             m.queue != [] && m.queue[0] == Deliver(CommonEvent(ScreenOn))
    ensures var r := Next(Reached(cfg, screenOn, run), e, RunHead);
            && r.cur == Working && !r.evaluating && !r.monitoring && !r.halfHour && !r.lock
            && r.timers == map[]
            && (forall t :: t in r.queue ==> t.ScreenCheck? || t.Deliver?)
  {
    ReachedKeeps(cfg, screenOn, run);
    var m := Reached(cfg, screenOn, run);
    hide Reached, Inv, Next;
    AwakeNow(m, e);
  }

  lemma AwakeNow(m: Machine, e: Env)
    requires Inv(m) && m.queue != [] && m.queue[0] == Deliver(CommonEvent(ScreenOn))
    ensures var r := Next(m, e, RunHead);
            && r.cur == Working && !r.evaluating && !r.monitoring && !r.halfHour && !r.lock
            && r.timers == map[]
            && (forall t :: t in r.queue ==> t.ScreenCheck? || t.Deliver?)
  {
    TakeKeeps(m);
    RunHeadKeeps(m, e);
    hide Core, Full, HandleCommonEvent;
    HandleCommonEventKeeps(Take(m), e, ScreenOn);
    NothingLeft(Next(m, e, RunHead));
  }

  /** Whatever belongs to WORKING is harmless. */
  lemma NothingLeft(r: Machine)
    requires Inv(r) && r.cur == Working
    ensures !r.evaluating && !r.monitoring && !r.halfHour && !r.lock && r.timers == map[]
    ensures forall t :: t in r.queue ==> t.ScreenCheck? || t.Deliver?
  {
    hide LogAt, Targets, Counters;
    assert forall t :: t in r.timers ==> OwnsTimer(Working, t);
    assert r.timers.Keys == {};
    assert forall t :: t in r.queue ==> OwnsTask(Working, t);
  }

  // ---------------------------------------------------------------- legal transitions

  /** The announcements of a run are legal one by one: each starts where the one before it
      ended, takes an edge that the state's own check allows, and phase messages speak of the
      state announced last. The log ends in the current state. */
  lemma TransitionsAreLegal(cfg: Config, screenOn: bool, run: seq<Move>, i: nat)
    requires ValidRun(Initial(cfg, screenOn), run)
    requires i < |Sent(Reached(cfg, screenOn, run))|
    ensures var m := Reached(cfg, screenOn, run);
            var log := Sent(m);
            && EndOf(log) == m.cur
            && match log[i]
               case StateTransit(p, c) => p == EndOf(log[..i]) && Edge(cfg, p, c) && TransitionValid(p, c)
               case PhaseTransit(s, p, q) => s == EndOf(log[..i]) && s in {Nap, Sleep} && q == p + 1 <= PHASE_END
               case ConditionChanged => EndOf(log[..i]) == Sleep
               case _ => true
  {
    ReachedKeeps(cfg, screenOn, run);
    var m := Reached(cfg, screenOn, run);
    LinkedAt(cfg, Sent(m), i);
  }

  lemma {:induction false} LinkedAt(cfg: Config, log: seq<Message>, i: nat)
    requires Linked(cfg, log) && i < |log|
    ensures Fits(cfg, log[..i], log[i])
    ensures Linked(cfg, log[..i])
  {
    if i < |log| - 1 {
      var before := log[..|log| - 1];
      LinkedAt(cfg, before, i);
      assert before[..i] == log[..i];
    }
  }

  /** One step announces WORKING -> DARK only when the charge check passed. */
  lemma DarkNeedsCharge(cfg: Config, screenOn: bool, run: seq<Move>, move: Move, i: nat)
    requires ValidRun(Initial(cfg, screenOn), run)
    requires Enabled(Reached(cfg, screenOn, run), move.step)
    requires var m := Reached(cfg, screenOn, run);
             var r := Next(m, move.env, move.step);
             |Sent(m)| <= i < |Sent(r)| && Sent(r)[i] == StateTransit(Working, Dark)
    ensures !move.env.charging
  {
    ReachedKeeps(cfg, screenOn, run);
    var m := Reached(cfg, screenOn, run);
    var r := Next(m, move.env, move.step);
    NextTicks(m, move.env, move.step);
    hide Next, Reached, Inv, Tick, Begun, AwakeEvent;
    if AwakeEvent(m, move.step) {
      BegunSendsNoMove(m, r, i);
    } else {
      TickCalm(m, r, move.env, i);
    }
  }

  lemma BegunSendsNoMove(m: Machine, r: Machine, i: nat)
    requires Begun(m, r) && |Sent(m)| <= i < |Sent(r)|
    ensures !Sent(r)[i].StateTransit? && !Sent(r)[i].PhaseTransit?
  {
    hide Sent;
  }

  lemma TickCalm(m: Machine, r: Machine, e: Env, i: nat)
    requires Tick(m, r, e) && |Sent(m)| <= i < |Sent(r)|
    ensures Sent(r)[i].PhaseTransit? || Calm(e, Sent(r)[i]) || !Internal(Sent(r)[i])
  {
    if Quiet(m, r, e) { QuietCalm(m, r, e, i); }
    hide Sent, Quiet;
  }

  /** A message of another component is no entry. */
  lemma PostedNews(m: Machine, r: Machine, s: State)
    requires Posted(m, r)
    ensures NoFresh(News(m, r), s) && forall k :: Returns(k, News(m, r), s) == k
  {
    var msg := Sent(r)[|Sent(m)|];
    assert Sent(r) == Sent(m) + [msg];
    NewsAtMost(m, r, msg);
    forall k
      ensures Returns(k, News(m, r), s) == k
    {
      OtherMessage(k, msg, s);
    }
  }

  lemma QuietCalm(m: Machine, r: Machine, e: Env, i: nat)
    requires Quiet(m, r, e) && |Sent(m)| <= i < |Sent(r)|
    ensures Calm(e, Sent(r)[i])
  {
    hide Sent, Calm, Follows;
    assert Sent(r)[i] == News(m, r)[i - |Sent(m)|] && Sent(r)[i] in News(m, r);
  }

  // ---------------------------------------------------------------- phases

  /** The step enters `s` afresh: it announces an entry that is no return from maintenance, or it
      restarts SLEEP because the user is reported awake. */
  predicate EntersAfresh(m: Machine, r: Machine, step: Step, s: State) {
    !NoFresh(News(m, r), s) || (s == Sleep && AwakeStep(m, step))
  }

  /** No step of the run enters `s` afresh. */
  predicate NoFreshEntry(m: Machine, run: seq<Move>, s: State)
    requires ValidRun(m, run)
    decreases run
  {
    run == [] ||
    (var r := Next(m, run[0].env, run[0].step);
     !EntersAfresh(m, r, run[0].step, s) && NoFreshEntry(r, run[1..], s))
  }

  /** The position of `s` in its list of maintenance intervals. */
  function IndexOf(m: Machine, s: State): int {
    match s
    case Nap => m.napIndex
    case Sleep => m.sleepIndex
    case _ => 0
  }

  /** The phase of `s`, its returns from maintenance and its interval are not behind. */
  predicate NotBack(m: Machine, r: Machine, s: State) {
    PhaseOf(m, s) <= PhaseOf(r, s) && ReturnsOf(m, s) <= ReturnsOf(r, s) && IndexOf(m, s) <= IndexOf(r, s)
  }

  /** Only a fresh entry starts a state over. A step that enters `s` afresh leaves it in its first
      phase, with its returns and its interval counted from the returns announced after that entry;
      every other step leaves its phase, its returns and its interval where they were or further
      on. */
  lemma FreshEntryRestarts(m: Machine, e: Env, step: Step, s: State)
    requires Inv(m) && Enabled(m, step) && s in {Nap, Sleep}
    ensures var r := Next(m, e, step);
            if EntersAfresh(m, r, step, s)
            then && PhaseOf(r, s) == 0 && ReturnsOf(r, s) == Returns(0, News(m, r), s)
                 && IndexOf(r, s) == Capped(Returns(0, News(m, r), s), |Intervals(m.cfg, s)|)
            else NotBack(m, r, s)
  {
    var r := Next(m, e, step);
    NextKeeps(m, e, step);
    NextTicks(m, e, step);
    CountersOf(m, s);
    CountersOf(r, s);
    hide Inv, Next, Tick, Begun, AwakeEvent;
    if AwakeEvent(m, step) {
      assert m.cur == Sleep && (AwakeStep(m, step) <==> m.pre != Maintenance) by { AwakeIsAsleep(m, step); }
      BegunRestarts(m, r, s);
    } else {
      assert !AwakeStep(m, step);
      TickRestarts(m, r, e, s);
    }
    CappedGrows(ReturnsOf(m, s), ReturnsOf(r, s), |Intervals(m.cfg, s)|);
  }

  lemma AwakeIsAsleep(m: Machine, step: Step)
    requires AwakeEvent(m, step)
    ensures m.cur == Sleep
  {
  }

  /** The maintenance intervals of `s`. */
  function Intervals(cfg: Config, s: State): seq<int> {
    if s == Nap then cfg.napIntervals else cfg.sleepIntervals
  }

  lemma CountersOf(m: Machine, s: State)
    requires Inv(m) && s in {Nap, Sleep}
    ensures IndexOf(m, s) == Capped(ReturnsOf(m, s), |Intervals(m.cfg, s)|)
  {
  }

  lemma CappedGrows(a: nat, b: nat, size: nat)
    ensures a <= b ==> Capped(a, size) <= Capped(b, size)
  {
  }

  lemma BegunRestarts(m: Machine, r: Machine, s: State)
    requires Begun(m, r) && m.cur == Sleep && s in {Nap, Sleep}
    ensures NoFresh(News(m, r), s) && Returns(0, News(m, r), s) == 0
    ensures s == Sleep && m.pre != Maintenance ==> PhaseOf(r, s) == 0 && ReturnsOf(r, s) == 0
    ensures s == Nap || m.pre == Maintenance ==> PhaseOf(m, s) <= PhaseOf(r, s) && ReturnsOf(m, s) <= ReturnsOf(r, s)
  {
    OtherMessage(0, HalfHour(true), s);
    NewsAtMost(m, r, HalfHour(true));
    hide Sent, News;
  }

  lemma TickRestarts(m: Machine, r: Machine, e: Env, s: State)
    requires Tick(m, r, e) && s in {Nap, Sleep}
    ensures if NoFresh(News(m, r), s) then PhaseOf(m, s) <= PhaseOf(r, s) && ReturnsOf(m, s) <= ReturnsOf(r, s)
            else PhaseOf(r, s) == 0 && ReturnsOf(r, s) == Returns(0, News(m, r), s)
  {
    if Quiet(m, r, e) {
      if NoFresh(News(m, r), s) {
        ReturnsGrow(ReturnsOf(m, s), News(m, r), s);
      } else {
        ReturnsForget(ReturnsOf(m, s), 0, News(m, r), s);
      }
    } else if Posted(m, r) {
      PostedNews(m, r, s);
    } else {
      AdvancedNews(m, r, if Advanced(m, r, Nap) then Nap else Sleep, s);
    }
  }

  /** A completed phase announces no entry. */
  lemma AdvancedNews(m: Machine, r: Machine, t: State, s: State)
    requires Advanced(m, r, t)
    ensures NoFresh(News(m, r), s) && forall k :: Returns(k, News(m, r), s) == k
  {
    var msg := PhaseTransit(t, PhaseOf(m, t), PhaseOf(m, t) + 1);
    NewsAtMost(m, r, msg);
    forall k
      ensures Returns(k, News(m, r), s) == k
    {
      OtherMessage(k, msg, s);
    }
  }

  /** After a fresh entry the count before it does not matter. */
  lemma {:induction false} ReturnsForget(j: nat, k: nat, news: seq<Message>, s: State)
    requires !NoFresh(news, s)
    ensures Returns(j, news, s) == Returns(k, news, s)
  {
    var before, msg := news[..|news| - 1], news[|news| - 1];
    assert news == before + [msg];
    if !IsFresh(msg, s) { ReturnsForget(j, k, before, s); }
  }

  /** The phase messages of `s` in the log from `from` on are pairs (p, p + 1) with increasing
      p, all between `lo` and `hi`. */
  predicate PhasesRise(log: seq<Message>, from: nat, s: State, lo: nat, hi: nat)
    requires from <= |log|
  {
    && (forall i :: from <= i < |log| && log[i].PhaseTransit? && log[i].state == s ==>
          lo <= log[i].prePhase < hi && log[i].curPhase == log[i].prePhase + 1)
    && (forall i, j :: from <= i < j < |log| && log[i].PhaseTransit? && log[j].PhaseTransit?
                       && log[i].state == s && log[j].state == s ==>
          log[i].curPhase <= log[j].prePhase)
  }

  /** From `m` to `r` the log grew, the phase of `s` and its returns did not fall, and the phase
      messages of `s` sent in between climb from the one phase to the other. */
  predicate Climbs(m: Machine, r: Machine, s: State) {
    && Sent(m) <= Sent(r)
    && NotBack(m, r, s) && PhaseOf(r, s) <= PHASE_END
    && PhasesRise(Sent(r), |Sent(m)|, s, PhaseOf(m, s), PhaseOf(r, s))
  }

  /** Between two fresh entries a state never goes back: its phase, its returns and its interval
      do not fall, and its phase messages climb strictly towards END. */
  lemma {:induction false} PhaseMessagesRise(m: Machine, run: seq<Move>, s: State)
    requires Inv(m) && ValidRun(m, run) && s in {Nap, Sleep} && NoFreshEntry(m, run, s)
    ensures Climbs(m, Exec(m, run), s)
    decreases run
  {
    if run == [] {
      assert Sent(m) <= Sent(m);
      PhasesBound(m, s);
    } else {
      var m1 := Next(m, run[0].env, run[0].step);
      NextKeeps(m, run[0].env, run[0].step);
      NextTicks(m, run[0].env, run[0].step);
      FreshEntryRestarts(m, run[0].env, run[0].step, s);
      PhasesBound(m1, s);
      hide Inv, Next, Tick, Begun, Climbs, EntersAfresh, NotBack, AwakeEvent;
      if AwakeEvent(m, run[0].step) { BegunClimbs(m, m1, s); } else { TickClimbs(m, m1, run[0].env, s); }
      PhaseMessagesRise(m1, run[1..], s);
      ClimbsTrans(m, m1, Exec(m, run), s);
    }
  }

  lemma PhasesBound(m: Machine, s: State)
    requires Inv(m)
    ensures PhaseOf(m, s) <= PHASE_END
  {
  }

  lemma BegunClimbs(m: Machine, r: Machine, s: State)
    requires Begun(m, r) && NotBack(m, r, s) && PhaseOf(r, s) <= PHASE_END
    ensures Climbs(m, r, s)
  {
    hide Sent, PhaseOf, NotBack;
  }

  lemma TickClimbs(m: Machine, r: Machine, e: Env, s: State)
    requires Tick(m, r, e) && s in {Nap, Sleep} && NotBack(m, r, s) && PhaseOf(r, s) <= PHASE_END
    ensures Climbs(m, r, s)
  {
    hide Follows, NotBack;
    if Quiet(m, r, e) {
      forall i | |Sent(m)| <= i < |Sent(r)|
        ensures !Sent(r)[i].PhaseTransit?
      {
        QuietCalm(m, r, e, i);
      }
    }
    hide Sent, Quiet;
  }

  lemma NotBackTrans(a: Machine, b: Machine, c: Machine, s: State)
    requires NotBack(a, b, s) && NotBack(b, c, s)
    ensures NotBack(a, c, s) && PhaseOf(a, s) <= PhaseOf(b, s) <= PhaseOf(c, s)
  {
    hide PhaseOf, ReturnsOf, IndexOf;
  }

  lemma ClimbsTrans(a: Machine, b: Machine, c: Machine, s: State)
    requires Climbs(a, b, s) && Climbs(b, c, s)
    ensures Climbs(a, c, s)
  {
    NotBackTrans(a, b, c, s);
    hide Sent, PhaseOf, NotBack;
    RiseOn(Sent(b), Sent(c), |Sent(a)|, s, PhaseOf(a, s), PhaseOf(b, s), PhaseOf(c, s));
    hide PhasesRise;
  }

  /** Phase messages that rise to `mid` and then on from it rise all the way. */
  lemma RiseOn(before: seq<Message>, log: seq<Message>, from: nat, s: State, lo: nat, mid: nat, hi: nat)
    requires from <= |before| && before <= log && lo <= mid <= hi
    requires PhasesRise(before, from, s, lo, mid) && PhasesRise(log, |before|, s, mid, hi)
    ensures PhasesRise(log, from, s, lo, hi)
  {
    assert forall i :: 0 <= i < |before| ==> log[i] == before[i];
  }

  // ---------------------------------------------------------------- maintenance back-off

  /** Each index is the number of returns since the last fresh entry, capped by its list. */
  predicate BackedOff(m: Machine) {
    && (|m.cfg.napIntervals| > 0 ==> m.napIndex == MinInt(m.hist.napReturns, |m.cfg.napIntervals| - 1))
    && (|m.cfg.sleepIntervals| > 0 ==> m.sleepIndex == MinInt(m.hist.sleepReturns, |m.cfg.sleepIntervals| - 1))
  }

  /** `r` returns from the maintenance of `m`: one more return is counted, and the only timer
      waits for the interval with that number. */
  predicate ArmsNext(m: Machine, r: Machine, e: Env) {
    var intervals := if m.pre == Nap then m.cfg.napIntervals else m.cfg.sleepIntervals;
    var before := if m.pre == Nap then m.hist.napReturns else m.hist.sleepReturns;
    var k := if m.pre == Nap then r.hist.napReturns else r.hist.sleepReturns;
    && k == before + 1
    && (|intervals| > 0 ==>
          var delay := intervals[MinInt(k, |intervals| - 1)] * MSEC_PER_SEC + e.extraDelay;
          r.timers == if delay != 0 then map[TransitTimer(r.cur) := delay] else map[])
  }

  /** The k-th return from maintenance since the last fresh entry arms the timer with the
      interval number min(k, size - 1), and every index used stays inside its list. */
  lemma MaintenanceBackOff(cfg: Config, screenOn: bool, run: seq<Move>, e: Env)
    requires ValidRun(Initial(cfg, screenOn), run)
    ensures var m := Reached(cfg, screenOn, run);
            && BackedOff(m)
            && (m.cur == Maintenance && m.queue != [] && m.queue[0].TransitNext? ==>
                  ArmsNext(m, Next(m, e, RunHead), e))
  {
    ReachedKeeps(cfg, screenOn, run);
    var m := Reached(cfg, screenOn, run);
    CountersHold(m);
    hide Reached, Inv, Next, ArmsNext, BackedOff;
    if m.cur == Maintenance && m.queue != [] && m.queue[0].TransitNext? {
      ReturnArms(m, e);
    }
  }

  lemma CountersHold(m: Machine)
    requires Inv(m)
    ensures BackedOff(m)
  {
  }

  lemma ReturnArms(m: Machine, e: Env)
    requires Inv(m) && m.cur == Maintenance && m.queue != [] && m.queue[0].TransitNext?
    ensures ArmsNext(m, Next(m, e, RunHead), e)
  {
    TakeKeeps(m);
    MarksFree(Take(m), true, m.repeated);
    ReturnTask(m, e);
    var m1 := Take(m).(lock := true);
    hide Inv, Core, RunTransit, Next, ArmsNext;
    ReturnDelay(m1, e);
    ArmsSame(m1, m, Next(m, e, RunHead), e);
  }

  /** Of the machine before, only place, configuration and counts matter. */
  lemma ArmsSame(m1: Machine, m: Machine, r: Machine, e: Env)
    requires m1.cur == m.cur && m1.pre == m.pre && m1.cfg == m.cfg
    requires m1.hist.napReturns == m.hist.napReturns && m1.hist.sleepReturns == m.hist.sleepReturns
    requires ArmsNext(m1, r, e)
    ensures ArmsNext(m, r, e)
  {
  }

  /** The task at the head of MAINTENANCE is that of its own timer. */
  lemma ReturnTask(m: Machine, e: Env)
    requires Inv(m) && m.cur == Maintenance && m.queue != [] && m.queue[0].TransitNext?
    ensures Next(m, e, RunHead) == RunTransit(Take(m).(lock := true), e, Maintenance)
  {
    assert OwnsTask(m.cur, m.queue[0]);
    hide Inv, RunTransit;
  }

  /** The run has no report that the user is awake. */
  predicate NeverAwake(m: Machine, run: seq<Move>)
    requires ValidRun(m, run)
    decreases run
  {
    run == [] || (!AwakeEvent(m, run[0].step) && NeverAwake(Next(m, run[0].env, run[0].step), run[1..]))
  }

  lemma TickCounts(m: Machine, r: Machine, e: Env, s: State)
    requires Tick(m, r, e) && s in {Nap, Sleep}
    ensures Sent(m) <= Sent(r) && ReturnsOf(r, s) == Returns(ReturnsOf(m, s), News(m, r), s)
  {
    if Posted(m, r) {
      PostedNews(m, r, s);
    } else if !Quiet(m, r, e) {
      AdvancedNews(m, r, if Advanced(m, r, Nap) then Nap else Sleep, s);
    }
    hide Sent, News;
  }

  lemma BegunCounts(m: Machine, r: Machine)
    requires Begun(m, r) && m.cur == Sleep
    ensures Sent(m) <= Sent(r) && ReturnsOf(r, Nap) == Returns(ReturnsOf(m, Nap), News(m, r), Nap)
  {
    OtherMessage(ReturnsOf(m, Nap), HalfHour(true), Nap);
    NewsAtMost(m, r, HalfHour(true));
    hide Sent, News;
  }

  /** The counters of returns follow the log. */
  predicate CountsLog(m: Machine, s: State) {
    ReturnsOf(m, s) == Returns(0, Sent(m), s)
  }

  lemma StepCountsLog(m: Machine, r: Machine, s: State)
    requires CountsLog(m, s) && Sent(m) <= Sent(r) && ReturnsOf(r, s) == Returns(ReturnsOf(m, s), News(m, r), s)
    ensures CountsLog(r, s)
  {
    assert Sent(r) == Sent(m) + News(m, r);
    ReturnsConcat(0, Sent(m), News(m, r), s);
    hide Sent, News;
  }

  lemma {:induction false} ExecCountsLog(m: Machine, run: seq<Move>, s: State)
    requires Inv(m) && ValidRun(m, run) && s in {Nap, Sleep} && (s == Sleep ==> NeverAwake(m, run)) && CountsLog(m, s)
    ensures CountsLog(Exec(m, run), s)
    decreases run
  {
    if run == [] {
    } else {
      var r := Next(m, run[0].env, run[0].step);
      NextKeeps(m, run[0].env, run[0].step);
      NextTicks(m, run[0].env, run[0].step);
      hide Inv, Next, Tick, Begun, AwakeEvent, CountsLog;
      if AwakeEvent(m, run[0].step) {
        AwakeIsAsleep(m, run[0].step);
        BegunCounts(m, r);
      } else {
        TickCounts(m, r, run[0].env, s);
      }
      StepCountsLog(m, r, s);
      ExecCountsLog(r, run[1..], s);
    }
  }

  /** The interval in use is decided by the announcements alone: the index of NAP is the number of
      returns from maintenance announced since the last fresh entry to NAP, capped by its list,
      and so is that of SLEEP as long as no report that the user is awake began it again. */
  lemma LogDecidesInterval(cfg: Config, screenOn: bool, run: seq<Move>)
    requires ValidRun(Initial(cfg, screenOn), run)
    ensures var m := Reached(cfg, screenOn, run);
            && m.napIndex == Capped(Returns(0, Sent(m), Nap), |cfg.napIntervals|)
            && (NeverAwake(Initial(cfg, screenOn), run) ==>
                  m.sleepIndex == Capped(Returns(0, Sent(m), Sleep), |cfg.sleepIntervals|))
  {
    var m0 := Initial(cfg, screenOn);
    InitialHolds(cfg, screenOn);
    ReachedKeeps(cfg, screenOn, run);
    assert Sent(m0) == [];
    hide Inv, Sent;
    ExecCountsLog(m0, run, Nap);
    if NeverAwake(m0, run) { ExecCountsLog(m0, run, Sleep); }
    var m := Reached(cfg, screenOn, run);
    CountersOf(m, Nap);
    CountersOf(m, Sleep);
  }

  lemma ReturnDelay(m: Machine, e: Env)
    requires Core(m) && m.cur == Maintenance
    ensures ArmsNext(m, RunTransit(m, e, Maintenance), e)
  {
    ReturnIs(m, e);
    CountersAt(m);
    var m1 := Leave(m, m.pre);
    LeftFrom(m);
    hide Leave, Core, RunTransit, StopEvaluation, BeginState;
    ResumeDelay(m1, e);
    AnnounceSame(BeginState(m1, e));
    hide Announce;
  }

  lemma LeftFrom(m: Machine)
    requires Core(m) && m.cur == Maintenance
    ensures var r := Leave(m, m.pre);
            && r.pre == Maintenance && r.cur == m.pre && r.timers == map[] && r.hist == m.hist && r.cfg == m.cfg
            && r.napIndex == m.napIndex && r.sleepIndex == m.sleepIndex
  {
    LeaveClears(m, m.pre);
    hide Core;
  }

  lemma AnnounceSame(m: Machine)
    ensures Announce(m).hist == m.hist && Announce(m).timers == m.timers && Announce(m).cur == m.cur
  {
  }

  lemma ReturnIs(m: Machine, e: Env)
    requires Core(m) && m.cur == Maintenance
    ensures StopEvaluation(m) == m && RunTransit(m, e, Maintenance) == TransitInner(m, e, m.pre)
  {
    assert !m.evaluating && m.maintNext == m.pre && m.pre in {Nap, Sleep};
    hide Core, TransitInner;
  }

  lemma CountersAt(m: Machine)
    requires Core(m) && m.cur == Maintenance
    ensures Counters(m) && m.pre in {Nap, Sleep}
  {
  }

  /** The timer that BeginState arms after maintenance. */
  lemma ResumeDelay(m: Machine, e: Env)
    requires Counters(m) && m.pre == Maintenance && m.cur in {Nap, Sleep} && m.timers == map[]
    ensures var r := BeginState(m, e);
            var nap := m.cur == Nap;
            var intervals := if nap then m.cfg.napIntervals else m.cfg.sleepIntervals;
            var k := if nap then r.hist.napReturns else r.hist.sleepReturns;
            && r.cur == m.cur && k == (if nap then m.hist.napReturns else m.hist.sleepReturns) + 1
            && (|intervals| > 0 ==>
                  var delay := intervals[MinInt(k, |intervals| - 1)] * MSEC_PER_SEC + e.extraDelay;
                  r.timers == if delay != 0 then map[TransitTimer(r.cur) := delay] else map[])
  {
  }

  // ---------------------------------------------------------------- the standby lock

  lemma {:induction false} ExecLock(m: Machine, run: seq<Move>)
    requires Inv(m) && LockInv(m) && ValidRun(m, run) && GuardedRun(m, run)
    ensures LockInv(Exec(m, run))
    decreases run
  {
    if run == [] {
    } else {
      NextKeeps(m, run[0].env, run[0].step);
      hide Inv, LockInv, Next, Guarded;
      NextLock(m, run[0].env, run[0].step);
      ExecLock(Next(m, run[0].env, run[0].step), run[1..]);
    }
  }

  /** The standby lock never leaks: whenever it is held between tasks, an evaluation is pending
      or a phase task of the current state is queued with phases left. */
  lemma LockNeverLeaks(cfg: Config, screenOn: bool, run: seq<Move>)
    requires ValidRun(Initial(cfg, screenOn), run) && GuardedRun(Initial(cfg, screenOn), run)
    ensures var m := Reached(cfg, screenOn, run);
            m.lock ==> && m.cur in {Nap, Sleep}
                       && (m.evaluating || (PhaseOf(m, m.cur) < PHASE_END && PhaseQueued(m.queue)))
  {
    InitialHolds(cfg, screenOn);
    InitialLock(cfg, screenOn);
    ReachedKeeps(cfg, screenOn, run);
    ExecLock(Initial(cfg, screenOn), run);
  }
}
