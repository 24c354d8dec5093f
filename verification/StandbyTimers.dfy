/** What an entry to a state arms and posts, when half-hour control comes on, and what the phases
    and the repeated detection of a state do, each over every state the machine can be in. */
module StandbyTimers {
  import opened StandbyTypes
  import opened StandbyMachine
  import opened StandbyInvariant
  import opened StandbyLog
  import opened StandbyOutcomes

  // ---------------------------------------------------------------- entries

  /** A state is entered afresh, not returned to after maintenance. */
  predicate Afresh(prev: State, next: State) {
    next in {Nap, Sleep} && prev != Maintenance
  }

  /** The interval with the given number, in milliseconds, with the night's delay; 0 without a list. */
  function IntervalTime(list: seq<int>, k: int, e: Env): int {
    if 0 <= k < |list| then list[k] * 1000 + e.extraDelay else 0
  }

  /** The number of the next interval: the last one is used again and again. */
  function After(list: seq<int>, k: int): int {
    if k + 1 < |list| then k + 1 else k
  }

  /** The timers armed after `next` is entered from `prev`. */
  predicate ArmedAt(m: Machine, e: Env, prev: State, next: State, timers: map<Timer, int>) {
    match next
    case Working => timers == map[]
    case Dark =>
      timers == (if !m.cfg.napSwitch && !m.cfg.sleepSwitch then map[]
                 else map[TransitTimer(Dark) := m.cfg.darkTimeout * 1000])
    case Nap =>
      if prev == Maintenance
      then Delayed(timers, Nap, IntervalTime(m.cfg.napIntervals, After(m.cfg.napIntervals, m.napIndex), e))
      else if !m.cfg.sleepSwitch then timers == map[]
      else && timers.Keys == {TransitTimer(Nap)}
           && timers[TransitTimer(Nap)] <= m.cfg.napTimeout * 1000 && timers[TransitTimer(Nap)] <= e.napLimit
           && timers[TransitTimer(Nap)] in {m.cfg.napTimeout * 1000, e.napLimit}
    case Maintenance =>
      var timeout := if prev == Nap then m.cfg.napMaintTimeout else m.cfg.sleepMaintTimeout;
      timers == map[TransitTimer(Maintenance) := timeout * 1000]
    case Sleep =>
      if prev == Maintenance
      then Delayed(timers, Sleep, IntervalTime(m.cfg.sleepIntervals, After(m.cfg.sleepIntervals, m.sleepIndex), e))
      else timers == map[TransitTimer(Sleep) := IntervalTime(m.cfg.sleepIntervals, 0, e)]
  }

  /** The timer of `s` alone is armed with the delay, and not at all when the delay is 0. */
  predicate Delayed(timers: map<Timer, int>, s: State, delay: int) {
    timers == (if delay != 0 then map[TransitTimer(s) := delay] else map[])
  }

  lemma NapReturns(m: Machine, e: Env)
    requires m.pre == Maintenance
    ensures var r := BeginNap(m, e);
            var d := MaintTimeout(m.cfg.napIntervals, NextIndex(m.cfg.napIntervals, m.napIndex, false), e.extraDelay);
            && r.napNext == Maintenance && r.napPhase == m.napPhase && r.queue == m.queue
            && r.timers == (if d != 0 then m.timers[TransitTimer(Nap) := d] else m.timers)
            && r.halfHour == m.halfHour && r.hist.done == m.hist.done
  {
    hide MaintTimeout, NextIndex, MinInt;
  }

  lemma NapBegins(m: Machine, e: Env)
    requires m.pre != Maintenance
    ensures var r := BeginNap(m, e);
            && r.napNext == (if m.cfg.sleepSwitch then Sleep else m.napNext) && r.napPhase == 0
            && r.queue == m.queue + [FirstPhase(Nap)]
            && r.timers == (if !m.cfg.sleepSwitch then m.timers
                            else m.timers[TransitTimer(Nap) := MinInt(m.cfg.napTimeout * 1000, e.napLimit)])
            && r.halfHour == m.halfHour && r.hist.done == m.hist.done
  {
    hide MaintTimeout, NextIndex, MinInt;
  }

  lemma SleepReturns(m: Machine, e: Env)
    requires m.pre == Maintenance
    ensures var r := EnterSleep(m, e);
            var d := MaintTimeout(m.cfg.sleepIntervals, NextIndex(m.cfg.sleepIntervals, m.sleepIndex, false), e.extraDelay);
            && r.cur == m.cur && r.pre == m.pre && r.sleepPhase == m.sleepPhase && r.queue == m.queue
            && r.timers == (if d != 0 then m.timers[TransitTimer(Sleep) := d] else m.timers) && r.halfHour == m.halfHour
  {
    hide MaintTimeout, NextIndex;
  }

  lemma SleepBegins(m: Machine, e: Env)
    requires m.pre != Maintenance
    ensures var r := EnterSleep(m, e);
            && r.cur == m.cur && r.pre == m.pre && r.sleepPhase == 0 && r.queue == m.queue + [FirstPhase(Sleep)]
            && r.timers == m.timers[TransitTimer(Sleep) := MaintTimeout(m.cfg.sleepIntervals, 0, e.extraDelay)]
            && r.halfHour == m.halfHour
  {
    hide MaintTimeout, NextIndex;
  }

  /** Every entry, from every state the machine can be in: exactly these timers are armed with
      exactly these delays, and NAP heads for MAINTENANCE after maintenance and else for SLEEP. */
  lemma EntryArms(m: Machine, e: Env, next: State)
    requires Core(m) && MayEnter(m, next)
    ensures var r := TransitInner(m, e, next);
            && ArmedAt(m, e, m.cur, next, r.timers)
            && (next == Nap && m.cur == Maintenance ==> r.napNext == Maintenance && r.napPhase == m.napPhase)
            && (next == Nap && m.cur != Maintenance ==> r.napPhase == 0 && (m.cfg.sleepSwitch ==> r.napNext == Sleep))
            && (next == Sleep && m.cur == Maintenance ==> r.sleepPhase == m.sleepPhase)
            && (next == Sleep && m.cur != Maintenance ==> r.sleepPhase == 0)
  {
    LeaveEnters(m, next);
    var m1 := Leave(m, next);
    assert m1.cur == next && m1.pre == m.cur && m1.cfg == m.cfg && m1.napPhase == m.napPhase
           && m1.sleepPhase == m.sleepPhase && m1.napIndex == m.napIndex && m1.sleepIndex == m.sleepIndex;
    assert m1.napIndex == Capped(m1.hist.napReturns, |m1.cfg.napIntervals|)
           && m1.sleepIndex == Capped(m1.hist.sleepReturns, |m1.cfg.sleepIntervals|);
    assert forall timers :: ArmedAt(m1, e, m.cur, next, timers) == ArmedAt(m, e, m.cur, next, timers);
    hide Leave, Core, LogAt, Entering, ArmedAt;
    BeginArms(m1, e);
    hide BeginState;
  }

  lemma BeginArms(m: Machine, e: Env)
    requires m.timers == map[]
    requires m.napIndex == Capped(m.hist.napReturns, |m.cfg.napIntervals|)
    requires m.sleepIndex == Capped(m.hist.sleepReturns, |m.cfg.sleepIntervals|)
    ensures var r := BeginState(m, e);
            && ArmedAt(m, e, m.pre, m.cur, r.timers)
            && (m.cur == Nap && m.pre == Maintenance ==> r.napNext == Maintenance && r.napPhase == m.napPhase)
            && (m.cur == Nap && m.pre != Maintenance ==> r.napPhase == 0 && (m.cfg.sleepSwitch ==> r.napNext == Sleep))
            && (m.cur == Sleep && m.pre == Maintenance ==> r.sleepPhase == m.sleepPhase)
            && (m.cur == Sleep && m.pre != Maintenance ==> r.sleepPhase == 0)
  {
    hide BeginDark, BeginNap, BeginMaintenance, EnterSleep, HalfHourInner;
    var r := BeginState(m, e);
    match m.cur
    case Working =>
    case Dark => DarkArms(m, e);
    case Nap =>
      assert r == BeginNap(m, e);
      hide BeginState, ArmedAt;
      NapArms(m, e);
    case Maintenance =>
      assert r == BeginMaintenance(m);
      hide BeginState, ArmedAt;
      PauseArms(m, e);
    case Sleep =>
      HalfHourSame(EnterSleep(m, e));
      assert r.timers == EnterSleep(m, e).timers && r.sleepPhase == EnterSleep(m, e).sleepPhase;
      hide BeginState, ArmedAt;
      SleepArms(m, e);
  }

  lemma HalfHourSame(m: Machine)
    ensures var r := HalfHourInner(m, true);
            && r.timers == m.timers && r.sleepPhase == m.sleepPhase && r.cur == m.cur && r.pre == m.pre
            && r.evaluating == m.evaluating && r.repeated == m.repeated
            && (forall t :: t in m.queue ==> t in r.queue)
  {
  }

  lemma DarkArms(m: Machine, e: Env)
    requires m.timers == map[]
    ensures ArmedAt(m, e, m.pre, Dark, BeginDark(m).timers)
  {
    hide IntervalTime, After, Delayed;
    assert DarkNext(m.cfg) == Dark <==> !(m.cfg.napSwitch || m.cfg.sleepSwitch);
    hide DarkNext;
  }

  lemma PauseArms(m: Machine, e: Env)
    requires m.timers == map[]
    ensures ArmedAt(m, e, m.pre, Maintenance, BeginMaintenance(m).timers)
  {
  }

  lemma NapArms(m: Machine, e: Env)
    requires m.timers == map[]
    requires m.napIndex == Capped(m.hist.napReturns, |m.cfg.napIntervals|)
    ensures var r := BeginNap(m, e);
            && ArmedAt(m, e, m.pre, Nap, r.timers)
            && (m.pre == Maintenance ==> r.napNext == Maintenance && r.napPhase == m.napPhase)
            && (m.pre != Maintenance ==> r.napPhase == 0 && (m.cfg.sleepSwitch ==> r.napNext == Sleep))
  {
    hide BeginNap;
    if m.pre == Maintenance {
      NapReturns(m, e);
      NextDelay(m.cfg.napIntervals, m.napIndex, m.hist.napReturns, e);
    } else {
      NapBegins(m, e);
    }
  }

  lemma NextDelay(list: seq<int>, k: int, count: nat, e: Env)
    requires k == Capped(count, |list|)
    ensures MaintTimeout(list, NextIndex(list, k, false), e.extraDelay) == IntervalTime(list, After(list, k), e)
  {
  }

  lemma SleepArms(m: Machine, e: Env)
    requires m.timers == map[]
    requires m.sleepIndex == Capped(m.hist.sleepReturns, |m.cfg.sleepIntervals|)
    ensures var r := EnterSleep(m, e);
            && ArmedAt(m, e, m.pre, Sleep, r.timers)
            && (r.sleepPhase == if m.pre == Maintenance then m.sleepPhase else 0)
  {
    hide EnterSleep;
    if m.pre == Maintenance {
      SleepReturns(m, e);
      NextDelay(m.cfg.sleepIntervals, m.sleepIndex, m.hist.sleepReturns, e);
    } else {
      SleepBegins(m, e);
    }
  }

  /** The task an entry posts. */
  predicate Posts(prev: State, next: State, t: Task) {
    (next == Working && t == ScreenCheck) || (Afresh(prev, next) && t == FirstPhase(next))
  }

  /** Every entry posts exactly its own task; of the other tasks only messages are left, in their
      order, and the announcement of the entry comes last. */
  lemma EntryPosts(m: Machine, e: Env, next: State)
    requires Core(m) && MayEnter(m, next)
    ensures var r := TransitInner(m, e, next);
            && (forall t: Task | !t.Deliver? :: t in r.queue <==> Posts(m.cur, next, t))
            && r.queue != [] && r.queue[|r.queue| - 1] == Deliver(StateTransit(m.cur, next))
  {
    LeaveEnters(m, next);
    var m1 := Leave(m, next);
    var m2 := BeginState(m1, e);
    assert m1.cur == next && m1.pre == m.cur;
    hide Leave, Core, LogAt, Entering;
    BeginPosts(m1, e);
    BeginKeepsPlace(m1, e);
    hide BeginState;
  }

  lemma BeginPosts(m: Machine, e: Env)
    requires forall t :: t in m.queue ==> t.Deliver?
    ensures forall t: Task | !t.Deliver? :: t in BeginState(m, e).queue <==> Posts(m.pre, m.cur, t)
  {
    BeginAppends(m, e);
    hide BeginState;
  }

  function OwnTask(m: Machine): seq<Task> {
    if m.cur == Working then [ScreenCheck]
    else if m.cur in {Nap, Sleep} && m.pre != Maintenance then [FirstPhase(m.cur)]
    else []
  }

  /** The begin of the current state appends its own task, and the half-hour message at most. */
  predicate Appends(m: Machine, r: Machine) {
    r.queue == m.queue + OwnTask(m) || r.queue == m.queue + OwnTask(m) + [Deliver(HalfHour(true))]
  }

  lemma BeginAppends(m: Machine, e: Env)
    ensures Appends(m, BeginState(m, e))
  {
    hide BeginNap, BeginDark, BeginMaintenance, BeginSleep, Appends;
    match m.cur
    case Working => WorkingAppends(m);
    case Dark => DarkSame(m); SameAppends(m, BeginDark(m));
    case Nap => NapAppends(m, e);
    case Maintenance => PauseSame(m); SameAppends(m, BeginMaintenance(m));
    case Sleep => SleepAppends(m, e);
  }

  lemma WorkingAppends(m: Machine)
    requires m.cur == Working
    ensures Appends(m, m.(queue := m.queue + [ScreenCheck]))
  {
  }

  lemma SameAppends(m: Machine, r: Machine)
    requires m.cur in {Dark, Maintenance} && r.queue == m.queue
    ensures Appends(m, r)
  {
  }

  lemma NapAppends(m: Machine, e: Env)
    requires m.cur == Nap
    ensures Appends(m, BeginNap(m, e))
  {
    hide BeginNap;
    if m.pre == Maintenance { NapReturns(m, e); } else { NapBegins(m, e); }
  }

  lemma SleepAppends(m: Machine, e: Env)
    requires m.cur == Sleep
    ensures Appends(m, BeginSleep(m, e))
  {
    var m1 := EnterSleep(m, e);
    hide EnterSleep, HalfHourInner;
    HalfHourPosts(m1);
    if m.pre == Maintenance { SleepReturns(m, e); } else { SleepBegins(m, e); }
  }

  lemma DarkSame(m: Machine)
    ensures var r := BeginDark(m); r.queue == m.queue && r.halfHour == m.halfHour && r.hist.done == m.hist.done
  {
  }

  lemma PauseSame(m: Machine)
    ensures var r := BeginMaintenance(m); r.queue == m.queue && r.halfHour == m.halfHour && r.hist.done == m.hist.done
  {
  }

  lemma HalfHourPosts(m: Machine)
    ensures HalfHourInner(m, true).queue in {m.queue, m.queue + [Deliver(HalfHour(true))]}
  {
  }

  // ---------------------------------------------------------------- half-hour control

  /** The places where half-hour control may come on: SLEEP and the maintenance of SLEEP. */
  predicate Asleep(m: Machine) {
    m.cur == Sleep || (m.cur == Maintenance && m.pre == Sleep)
  }

  /** The half-hour timer turns half-hour control on exactly in SLEEP and its maintenance, and a
      message tells so exactly when it has come on. */
  lemma HalfHourTimerTurnsOn(m: Machine, e: Env)
    requires Inv(m)
    ensures var r := Next(m, e, HalfHourTimer);
            && r.halfHour == (m.halfHour || Asleep(m))
            && News(m, r) == if r.halfHour != m.halfHour then [HalfHour(true)] else []
  {
    var r := Next(m, e, HalfHourTimer);
    if r != m { OneMore(m, r, Deliver(HalfHour(true))); }
    hide Linked, EndOf, Messages;
  }

  /** An entry turns it on exactly when SLEEP begins afresh with the half hour passed; this and the
      entry are told, and nothing else. */
  lemma EntryTurnsOn(m: Machine, e: Env, next: State)
    ensures var r := TransitInner(m, e, next);
            && r.halfHour == (m.halfHour || (next == Sleep && m.cur != Maintenance && e.halfHourPassed))
            && Sent(m) <= Sent(r)
            && News(m, r) == (if r.halfHour != m.halfHour then [HalfHour(true)] else []) + [StateTransit(m.cur, next)]
  {
    var m1 := Leave(m, next);
    var m2 := BeginState(m1, e);
    LeaveSame(m, next);
    hide Leave;
    BeginTurnsOn(m1, e);
    BeginKeepsPlace(m1, e);
    hide BeginState;
    OneMore(m2, Announce(m2), Deliver(StateTransit(m.cur, next)));
    hide Sent;
  }

  /** Waking up leaves it off, and tells so exactly when it was on; the way to WORKING is told after
      that, and nothing else is. */
  lemma WakeTells(m: Machine, e: Env)
    requires Core(m)
    ensures var r := Wake(m, e);
            && !r.halfHour
            && News(m, r) == (if m.halfHour then [HalfHour(false)] else [])
                             + (if m.cur != Working then [StateTransit(m.cur, Working)] else [])
  {
    assert HalfHourPlace(m);
    hide Core;
    if m.cur == Working {
      assert Sent(Wake(m, e)) == Sent(m);
      hide Sent;
    } else {
      var m1 := if m.cur == Maintenance then m else StopEvaluation(m).(blocked := false);
      StopSame(m);
      assert Wake(m, e) == TransitInner(HalfHourInner(m1, false), e, Working)
        by { hide TransitInner, HalfHourInner, StopEvaluation; }
      hide Wake, TransitInner, StopEvaluation, HalfHourInner;
      HomeTells(m1, e);
      assert Sent(m1) == Sent(m);
      hide Sent;
    }
  }

  lemma HomeTells(m: Machine, e: Env)
    ensures var r := TransitInner(HalfHourInner(m, false), e, Working);
            && !r.halfHour
            && News(m, r) == (if m.halfHour then [HalfHour(false)] else []) + [StateTransit(m.cur, Working)]
  {
    var m1 := HalfHourInner(m, false);
    DropTells(m);
    hide HalfHourInner, TransitInner, Sent;
    EntryTurnsOn(m1, e, Working);
    NewsSplit(m, m1, TransitInner(m1, e, Working));
  }

  lemma StopSame(m: Machine)
    ensures var r := StopEvaluation(m).(blocked := false);
            r.queue == m.queue && r.hist.done == m.hist.done && r.halfHour == m.halfHour && r.cur == m.cur
  {
  }

  lemma DropTells(m: Machine)
    ensures var r := HalfHourInner(m, false);
            && !r.halfHour && r.cur == m.cur && Sent(m) <= Sent(r)
            && News(m, r) == if m.halfHour then [HalfHour(false)] else []
  {
    var r := HalfHourInner(m, false);
    if m.halfHour { OneMore(m, r, Deliver(HalfHour(false))); }
    hide Messages;
  }

  /** The timers of SLEEP and of MAINTENANCE: SLEEP is interrupted and what was interrupted is resumed,
      with half-hour control and a block as they were, and only this is told. */
  lemma InterruptionKeeps(m: Machine, e: Env)
    requires Inv(m) && m.cur in {Sleep, Maintenance} && m.queue != [] && m.queue[0] == TransitNext(m.cur)
    ensures var r := Next(m, e, RunHead); var next := if m.cur == Sleep then Maintenance else m.pre;
            && r.cur == next && r.pre == m.cur && r.blocked == m.blocked && !r.lock
            && r.halfHour == m.halfHour && News(m, r) == [StateTransit(m.cur, next)]
  {
    var t, next := Turning(m), if m.cur == Sleep then Maintenance else m.pre;
    TurningKeeps(m);
    TurningSame(m);
    TimerIs(m, e);
    assert NextOf(m, m.cur) == next && TransitionValid(m.cur, next) && next in {Nap, Sleep, Maintenance};
    MayTurn(t);
    hide Inv, Core, Turning, Next;
    assert TransitToState(t, e, next) == Outcome(TransitInner(t, e, next), true) by { hide TransitInner; }
    hide TransitToState, TransitInner, MayEnter;
    TransitInnerKeeps(t, e, next);
    EntryTurnsOn(t, e, next);
    hide Full, Sent;
  }

  lemma MayTurn(m: Machine)
    requires Core(m) && m.cur in {Sleep, Maintenance} && !m.monitoring
    ensures MayEnter(m, if m.cur == Sleep then Maintenance else m.pre)
  {
    hide LogAt, Owned, Targets, Counters;
  }

  lemma TurningSame(m: Machine)
    requires m.queue != [] && m.queue[0].TransitNext?
    ensures var t := Turning(m); Sent(t) == Sent(m) && t.halfHour == m.halfHour && t.pre == m.pre
  {
    TakeKeepsLog(m);
    var m1 := Take(m).(lock := true);
    StopSame(m1);
    assert Sent(m1) == Sent(m) by { hide Take, Messages; }
    hide Take, Messages;
  }

  lemma LeaveSame(m: Machine, next: State)
    ensures var r := Leave(m, next);
            Sent(r) == Sent(m) && r.halfHour == m.halfHour && r.cur == next && r.pre == m.cur
  {
    RemoveTasksKeepsMessages(m.queue, m.cur);
    hide RemoveTasks, Messages;
  }

  lemma BeginTurnsOn(m: Machine, e: Env)
    ensures var r := BeginState(m, e);
            && r.halfHour == (m.halfHour || (m.cur == Sleep && m.pre != Maintenance && e.halfHourPassed))
            && Sent(r) == Sent(m) + if r.halfHour != m.halfHour then [HalfHour(true)] else []
  {
    if m.cur == Sleep {
      SleepTurnsOn(m, e);
    } else {
      BeginSame(m, e);
    }
  }

  lemma BeginSame(m: Machine, e: Env)
    requires m.cur != Sleep
    ensures BeginState(m, e).halfHour == m.halfHour && Sent(BeginState(m, e)) == Sent(m)
  {
    hide BeginNap, BeginDark, BeginMaintenance;
    match m.cur
    case Working => OneMore(m, m.(queue := m.queue + [ScreenCheck]), ScreenCheck);
    case Dark => DarkSame(m);
    case Nap =>
      if m.pre == Maintenance {
        NapReturns(m, e);
      } else {
        NapBegins(m, e);
        OneMore(m, BeginNap(m, e), FirstPhase(Nap));
      }
    case Maintenance => PauseSame(m);
    hide Messages;
  }

  lemma SleepTurnsOn(m: Machine, e: Env)
    requires m.cur == Sleep
    ensures var r := BeginSleep(m, e);
            && r.halfHour == (m.halfHour || (m.pre != Maintenance && e.halfHourPassed))
            && Sent(r) == Sent(m) + if r.halfHour != m.halfHour then [HalfHour(true)] else []
  {
    var m1, r := EnterSleep(m, e), BeginSleep(m, e);
    EnterSleepBegun(m, e);
    hide EnterSleep, BeginsAt;
    if m.pre == Maintenance { SleepReturns(m, e); } else { SleepBegins(m, e); }
    hide MaintTimeout, NextIndex, Messages;
    assert r.halfHour == (m1.halfHour || (m1.pre != Maintenance && e.halfHourPassed));
    if r != m1 { OneMore(m1, r, Deliver(HalfHour(true))); }
    hide Sent;
  }

  // ---------------------------------------------------------------- phases

  /** The task of a phase, with no evaluation going on: the phase is completed and told, the task of
      the next phase is posted until the last, and the last one ends with the lock released and, in
      SLEEP with motion detection, with the repeated detection armed. */
  lemma PhaseCompletes(m: Machine, e: Env)
    requires Inv(m) && m.queue != [] && (m.queue[0].FirstPhase? || m.queue[0].NextPhase?)
    requires !m.monitoring && PhaseOf(m, m.queue[0].state) < 3
    ensures var r := Next(m, e, RunHead); var s := m.queue[0].state; var p := PhaseOf(m, s);
            && r.cur == m.cur == s && s in {Nap, Sleep} && PhaseOf(r, s) == p + 1 && !r.evaluating
            && r.queue == m.queue[1..] + [Deliver(PhaseTransit(s, p, p + 1))] + (if p < 2 then [NextPhase(s)] else [])
            && r.lock == ((m.lock || m.queue[0].FirstPhase?) && p < 2)
            && r.timers == if s == Sleep && p == 2 && m.cfg.detectMotion then m.timers[RepeatTimer := 600000] else m.timers
  {
    TakeKeeps(m);
    HeadIs(m, e);
    var t, m1 := m.queue[0], Take(m);
    MarksFree(m1, true, m1.repeated);
    var m2 := if t.FirstPhase? then m1.(lock := true) else m1;
    var s := t.state;
    assert OwnsTask(m.cur, t) by { assert t in m.queue; }
    assert RunTask(m1, e, t) == RunPhase(m2, e, s) by { hide RunPhase; }
    hide Inv, Core, Full, Next, RunTask;
    PhasePasses(m2, e);
  }

  lemma PhasePasses(m: Machine, e: Env)
    requires Core(m) && m.cur in {Nap, Sleep} && !m.monitoring && PhaseOf(m, m.cur) < 3
    ensures var r := RunPhase(m, e, m.cur); var s := m.cur; var p := PhaseOf(m, s);
            && r.cur == s && PhaseOf(r, s) == p + 1 && !r.evaluating
            && r.queue == m.queue + [Deliver(PhaseTransit(s, p, p + 1))] + (if p < 2 then [NextPhase(s)] else [])
            && r.lock == (m.lock && p < 2)
            && r.timers == if s == Sleep && p == 2 && m.cfg.detectMotion then m.timers[RepeatTimer := 600000] else m.timers
  {
    var p := PhaseOf(m, m.cur);
    PassesIs(m, e, EvalParams(m.cur, p, m.cur, p + 1, false));
    var m1 := CloseEval(OpenEval(m, NoMonitor));
    assert m1.cur == m.cur && PhaseOf(m1, m.cur) == p && !m1.evaluating && m1.queue == m.queue && m1.lock == m.lock
           && m1.timers == m.timers && m1.cfg == m.cfg;
    assert RunPhase(m, e, m.cur) == StateEndEval(m1, e, true) by { hide StartEval, StateEndEval; }
    hide Core, StartEval, RunPhase, OpenEval, CloseEval, TransitInner, Wake;
    assert StateEndEval(m1, e, true) == (if m.cur == Nap then AdvanceNap(m1, true) else AdvanceSleep(m1, true))
      by { hide AdvanceNap, AdvanceSleep; }
    hide StateEndEval;
  }

  /** A verdict in SLEEP before the last phase, after SLEEP has begun again under a detection: it
      completes the phase, and motion seen only leaves the phase untold. */
  lemma EarlyVerdict(m: Machine, e: Env, result: bool)
    requires Inv(m) && m.cur == Sleep && m.sleepPhase < 3 && m.evaluating
    ensures var r := Next(m, e, MotionResult(result)); var p := m.sleepPhase;
            && r.cur == Sleep && r.sleepPhase == p + 1 && !r.evaluating
            && r.queue == m.queue + (if result then [Deliver(PhaseTransit(Sleep, p, p + 1))] else [])
                                  + (if p < 2 then [NextPhase(Sleep)] else [])
            && r.timers == if p == 2 && m.cfg.detectMotion then m.timers[RepeatTimer := 600000] else m.timers
  {
    var m1 := CloseEval(m);
    assert Next(m, e, MotionResult(result)) == AdvanceSleep(m1, result) by { hide AdvanceSleep, CloseEval, Inv; }
    assert m.queue + PhasePosts(Sleep, m.sleepPhase, result)
        == m.queue + (if result then [Deliver(PhaseTransit(Sleep, m.sleepPhase, m.sleepPhase + 1))] else [])
                   + (if m.sleepPhase < 2 then [NextPhase(Sleep)] else []);
    hide Inv, PhasePosts, Next;
  }

  // ---------------------------------------------------------------- repeated detection

  /** The task of the repeated detection in the last phase of SLEEP: with the constraint registered
      motion is watched from now on, and a sensor that fails blocks SLEEP; without it the detection
      ends at once. A watch that is going on becomes a repeated one. */
  lemma RepeatDetects(m: Machine, e: Env)
    requires Inv(m) && m.queue != [] && m.queue[0] == RepeatDetect && m.sleepPhase == 3
    ensures var r := Next(m, e, RunHead);
            && r.cur == m.cur == Sleep && r.sleepPhase == 3 && r.timers == m.timers && r.queue == m.queue[1..]
            && r.evaluating == (m.evaluating || m.cfg.repeatMotion) && r.repeated == r.evaluating
            && r.monitor == (if r.evaluating then MotionMonitor else NoMonitor)
            && r.blocked == (m.blocked || (!m.evaluating && m.cfg.repeatMotion && !e.sensorOk))
  {
    TakeKeeps(m);
    HeadIs(m, e);
    var m1 := Take(m);
    MarksFree(m1, m1.lock, true);
    var m2 := m1.(repeated := true);
    assert OwnsTask(m.cur, m.queue[0]) by { assert m.queue[0] in m.queue; }
    assert RunTask(m1, e, m.queue[0]) == RunRepeat(m2, e) by { hide RunRepeat; }
    CoreEvals(m2);
    hide Inv, Core, Full, Next, RunTask;
    RepeatStarts(m2, e);
  }

  lemma RepeatStarts(m: Machine, e: Env)
    requires m.cur == Sleep && m.sleepPhase == 3 && m.repeated && m.evaluating == m.monitoring
    requires m.monitor == if m.monitoring then MotionMonitor else NoMonitor
    ensures var r := RunRepeat(m, e);
            && r.cur == Sleep && r.sleepPhase == 3 && r.timers == m.timers && r.queue == m.queue
            && r.evaluating == (m.evaluating || m.cfg.repeatMotion) && r.repeated == r.evaluating
            && r.monitor == (if r.evaluating then MotionMonitor else NoMonitor)
            && r.blocked == (m.blocked || (!m.evaluating && m.cfg.repeatMotion && !e.sensorOk))
  {
    var p := EvalParams(Sleep, 3, Sleep, 3, true);
    if !m.monitoring {
      if m.cfg.repeatMotion {
        WatchIs(m, e, p);
        hide StartEval;
      } else {
        PassesIs(m, e, p);
        hide StartEval, Wake, AdvanceSleep;
      }
    }
  }

  /** SLEEP has begun again at `r`. Entered afresh it starts over from its first phase; returned to
      after maintenance it only takes the next interval. The repeated detection stays armed. */
  predicate BegunAgain(m: Machine, r: Machine, e: Env) {
    && r.cur == Sleep && r.pre == m.pre && r.evaluating == m.evaluating && !r.repeated
    && if m.pre == Maintenance
       then && r.sleepPhase == m.sleepPhase && r.queue == m.queue
            && r.timers == Rearmed(m, IntervalTime(m.cfg.sleepIntervals, After(m.cfg.sleepIntervals, m.sleepIndex), e))
       else && r.sleepPhase == 0 && FirstPhase(Sleep) in r.queue
            && r.timers == m.timers[TransitTimer(Sleep) := IntervalTime(m.cfg.sleepIntervals, 0, e)]
  }

  function Rearmed(m: Machine, delay: int): map<Timer, int> {
    if delay != 0 then m.timers[TransitTimer(Sleep) := delay] else m.timers
  }

  /** The user is reported awake in SLEEP with the screen off: SLEEP begins again, and half-hour
      control comes on as at an entry. */
  lemma AwakeRestarts(m: Machine, e: Env)
    requires Inv(m) && m.cur == Sleep && !m.screenOn
    requires m.queue != [] && m.queue[0] == Deliver(CommonEvent(UserSleepChanged(false)))
    ensures var r := Next(m, e, RunHead);
            && BegunAgain(Take(m), r, e)
            && r.halfHour == (m.halfHour || (m.pre != Maintenance && e.halfHourPassed))
  {
    TakeKeeps(m);
    var m1 := Take(m);
    AwakeIs(m, e);
    assert m1.sleepIndex == Capped(m1.hist.sleepReturns, |m1.cfg.sleepIntervals|);
    hide Inv, Core, Full, Next, AwakeEvent, BeginState, BegunAgain;
    BeginTurnsOn(m1, e);
    BeginsAgain(m1, e);
  }

  lemma BeginsAgain(m: Machine, e: Env)
    requires m.cur == Sleep && m.sleepIndex == Capped(m.hist.sleepReturns, |m.cfg.sleepIntervals|)
    ensures BegunAgain(m, BeginState(m, e), e)
  {
    EntersAgain(m, e);
    HalfHourSame(EnterSleep(m, e));
    hide EnterSleep, HalfHourInner, IntervalTime, After, Rearmed;
  }

  lemma EntersAgain(m: Machine, e: Env)
    requires m.cur == Sleep && m.sleepIndex == Capped(m.hist.sleepReturns, |m.cfg.sleepIntervals|)
    ensures BegunAgain(m, EnterSleep(m, e), e)
  {
    var m1 := EnterSleep(m, e);
    assert !m1.repeated && m1.evaluating == m.evaluating by { hide MaintTimeout, NextIndex; }
    hide EnterSleep;
    if m.pre == Maintenance {
      SleepReturns(m, e);
      NextDelay(m.cfg.sleepIntervals, m.sleepIndex, m.hist.sleepReturns, e);
    } else {
      SleepBegins(m, e);
    }
  }

  // ---------------------------------------------------------------- timers that fire, sensors that fail

  /** A transition timer fires once; the repeated one stays armed. The task comes last. */
  lemma TimerFires(m: Machine, e: Env, t: Timer)
    requires Inv(m) && t in m.timers
    ensures var r := Next(m, e, Fire(t));
            && (forall u :: u in r.timers <==> u in m.timers && (u == t ==> t == RepeatTimer))
            && (forall u :: u in r.timers ==> r.timers[u] == m.timers[u])
            && r.queue == m.queue + [if t == RepeatTimer then RepeatDetect else TransitNext(m.cur)]
            && r.cur == m.cur
  {
    assert OwnsTimer(m.cur, t);
    hide Inv;
  }

  /** A blocked NAP heads for MAINTENANCE after the wait, if there is one. */
  predicate HeadsForMaintenance(m: Machine, r: Machine, wait: int) {
    if wait > 0 then r.napNext == Maintenance && r.timers == m.timers[TransitTimer(Nap) := wait]
    else r.napNext == m.napNext && r.timers == m.timers
  }

  /** A watch that loses its sensors blocks the state. In NAP with an interval the device then heads
      for MAINTENANCE after the current interval, and the standby lock is released in every case. */
  lemma SensorsFail(m: Machine, e: Env)
    requires Inv(m) && m.monitor == MotionMonitor
    ensures var r := Next(m, e, MotionRetryFails);
            && r.blocked && r.cur == m.cur && r.evaluating && r.queue == m.queue
            && (m.cur != Nap ==> r.timers == m.timers && r.lock == m.lock)
            && (m.cur == Nap ==> !r.lock && HeadsForMaintenance(m, r, IntervalTime(m.cfg.napIntervals, m.napIndex, e)))
  {
    assert m.evaluating;
    hide Inv;
  }

  /** A timer task of NAP that meets a block, or whose watch fails, turns NAP towards MAINTENANCE
      after the current interval. */
  lemma BlockedNapHeads(m: Machine, e: Env)
    requires Inv(m) && m.cur == Nap && m.napNext == Sleep && m.queue != [] && m.queue[0] == TransitNext(Nap)
    requires m.blocked || (m.napPhase == 3 && m.cfg.napMotion && !e.sensorOk)
    ensures var r := Next(m, e, RunHead);
            r.blocked && !r.lock && HeadsForMaintenance(m, r, IntervalTime(m.cfg.napIntervals, m.napIndex, e))
  {
    TurningKeeps(m);
    TimerIs(m, e);
    var t := Turning(m);
    assert t.timers == m.timers;
    hide Inv, Core, Turning, Next, TransitToState, Block, HeadsForMaintenance;
    StopHeads(t, e);
    assert HeadsForMaintenance(t, Next(m, e, RunHead), IntervalTime(m.cfg.napIntervals, m.napIndex, e));
    SameHeads(m, t, Next(m, e, RunHead), IntervalTime(m.cfg.napIntervals, m.napIndex, e));
  }

  lemma SameHeads(m: Machine, t: Machine, r: Machine, wait: int)
    requires HeadsForMaintenance(t, r, wait) && t.timers == m.timers && t.napNext == m.napNext
    ensures HeadsForMaintenance(m, r, wait)
  {
  }

  lemma StopHeads(m: Machine, e: Env)
    requires m.cur == Nap && !m.monitoring && (m.blocked || (m.napPhase == 3 && m.cfg.napMotion && !e.sensorOk))
    ensures var t := TransitToState(m, e, Sleep);
            var r := if t.ok then t.m else Block(t.m, e).(lock := false);
            r.blocked && !r.lock && HeadsForMaintenance(m, r, IntervalTime(m.cfg.napIntervals, m.napIndex, e))
  {
    if m.blocked {
      BlockHeads(m, e);
      hide Block;
    } else {
      var p := EvalParams(Nap, 3, Sleep, 0, false);
      assert TransitToState(m, e, Sleep) == Outcome(StartEval(m, e, p), true) by { hide StartEval; }
      hide TransitToState, Block, StartEval;
      WatchIs(m, e, p);
      BlockHeads(OpenEval(m, MotionMonitor), e);
    }
  }

  lemma BlockHeads(m: Machine, e: Env)
    requires m.cur == Nap
    ensures var r := Block(m, e);
            r.blocked && !r.lock && HeadsForMaintenance(m, r, IntervalTime(m.cfg.napIntervals, m.napIndex, e))
  {
  }

  /** What a step from outside tells: the switch of day and night in SLEEP, and the message that
      another component dispatches. */
  function Telling(m: Machine, step: Step): seq<Message> {
    match step
    case DayNightSwitch => if m.cur == Sleep then [ConditionChanged] else []
    case External(msg) => [msg]
    case _ => []
  }

  /** The switch of day and night is told exactly in SLEEP, and what another component dispatches is
      told in every state; neither does anything else. */
  lemma OutsideTells(m: Machine, e: Env, step: Step)
    requires Enabled(m, step) && (step.DayNightSwitch? || step.External?)
    ensures var r := Next(m, e, step); News(m, r) == Telling(m, step) && r.(queue := m.queue) == m
  {
    var r := Next(m, e, step);
    var told := Telling(m, step);
    assert r == m.(queue := m.queue + if told == [] then [] else [Deliver(told[0])]);
    hide Next, Telling;
    if told != [] { OneMore(m, r, Deliver(told[0])); }
    hide Sent;
  }
}
