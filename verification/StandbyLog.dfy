/** How one step changes the message log and the inner phases: the log only grows, WORKING
    announces DARK only when the charge check passed, and the phase messages a step sends are
    exactly the phase it completes; phases and returns from maintenance follow the announcements. */
module StandbyLog {
  import opened StandbyTypes
  import opened StandbyMachine
  import opened StandbyInvariant

  // ---------------------------------------------------------------- entries in the log

  /** The message announces an entry to `s` that is no return from maintenance. */
  predicate IsFresh(msg: Message, s: State) {
    msg.StateTransit? && msg.cur == s && msg.pre != Maintenance
  }

  predicate NoFresh(news: seq<Message>, s: State) {
    forall msg :: msg in news ==> !IsFresh(msg, s)
  }

  /** The returns of `s` from maintenance since its last fresh entry, when `k` were counted
      before the messages `news` were sent. */
  function Returns(k: nat, news: seq<Message>, s: State): nat {
    if news == [] then k
    else
      var before, msg := Returns(k, news[..|news| - 1], s), news[|news| - 1];
      if IsFresh(msg, s) then 0
      else if msg == StateTransit(Maintenance, s) then before + 1
      else before
  }

  /** The counter of returns of the given state object. */
  function ReturnsOf(m: Machine, s: State): nat {
    match s
    case Nap => m.hist.napReturns
    case Sleep => m.hist.sleepReturns
    case _ => 0
  }

  lemma {:induction false} ReturnsConcat(k: nat, a: seq<Message>, b: seq<Message>, s: State)
    ensures Returns(k, a + b, s) == Returns(Returns(k, a, s), b, s)
  {
    if b == [] {
      assert a + b == a;
    } else {
      var c := b[..|b| - 1];
      assert (a + b)[..|a + b| - 1] == a + c;
      ReturnsConcat(k, a, c, s);
    }
  }

  /** Without a fresh entry the count does not fall. */
  lemma {:induction false} ReturnsGrow(k: nat, news: seq<Message>, s: State)
    requires NoFresh(news, s)
    ensures Returns(k, news, s) >= k
  {
    if news != [] {
      ReturnsGrow(k, news[..|news| - 1], s);
    }
  }

  // ---------------------------------------------------------------- steps

  /** What was dispatched between `m` and `r`. */
  function News(m: Machine, r: Machine): seq<Message> {
    if |Sent(m)| <= |Sent(r)| then Sent(r)[|Sent(m)|..] else []
  }

  /** A message of the service's own that is neither a phase message nor an unchecked entry to DARK. */
  predicate Calm(e: Env, msg: Message) {
    Internal(msg) && !msg.PhaseTransit? && (msg == StateTransit(Working, Dark) ==> !e.charging)
  }

  /** The phase of `s` and its returns changed exactly as the messages sent in between say: a
      fresh entry starts both over, a return counts once, and nothing else changes them. */
  predicate Follows(m: Machine, r: Machine, s: State) {
    && ReturnsOf(r, s) == Returns(ReturnsOf(m, s), News(m, r), s)
    && PhaseOf(r, s) == if NoFresh(News(m, r), s) then PhaseOf(m, s) else 0
  }

  /** From `m` to `r` only calm messages were sent, and phases and returns follow them. */
  predicate Quiet(m: Machine, r: Machine, e: Env) {
    && Sent(m) <= Sent(r)
    && (forall msg :: msg in News(m, r) ==> Calm(e, msg))
    && Follows(m, r, Nap)
    && Follows(m, r, Sleep)
  }

  predicate SameReturns(m: Machine, r: Machine) {
    m.hist.napReturns == r.hist.napReturns && m.hist.sleepReturns == r.hist.sleepReturns
  }

  predicate SamePlaces(m: Machine, r: Machine) {
    m.napPhase == r.napPhase && m.sleepPhase == r.sleepPhase && SameReturns(m, r)
  }

  /** From `m` to `r` the state `s` completed its phase, and announced that or stayed silent. */
  predicate Advanced(m: Machine, r: Machine, s: State) {
    var p := PhaseOf(m, s);
    && p < PHASE_END
    && PhaseOf(r, s) == p + 1
    && (s != Nap ==> r.napPhase == m.napPhase)
    && (s != Sleep ==> r.sleepPhase == m.sleepPhase)
    && SameReturns(m, r)
    && (Sent(r) == Sent(m) || Sent(r) == Sent(m) + [PhaseTransit(s, p, p + 1)])
  }

  predicate OwnTick(m: Machine, r: Machine, e: Env) {
    Quiet(m, r, e) || Advanced(m, r, Nap) || Advanced(m, r, Sleep)
  }

  /** Some other component has dispatched one message. */
  predicate Posted(m: Machine, r: Machine) {
    && |Sent(r)| == |Sent(m)| + 1 && Sent(m) <= Sent(r)
    && !Internal(Sent(r)[|Sent(m)|])
    && SamePlaces(m, r)
  }

  predicate Tick(m: Machine, r: Machine, e: Env) {
    OwnTick(m, r, e) || Posted(m, r)
  }

  /** What was sent in two stretches. */
  lemma NewsSplit(a: Machine, b: Machine, c: Machine)
    requires Sent(a) <= Sent(b) <= Sent(c)
    ensures News(a, c) == News(a, b) + News(b, c)
  {
    hide Sent;
  }

  /** What was sent, when it was at most one message. */
  lemma NewsAtMost(m: Machine, r: Machine, msg: Message)
    requires Sent(r) == Sent(m) || Sent(r) == Sent(m) + [msg]
    ensures News(m, r) == if Sent(r) == Sent(m) then [] else [msg]
  {
    hide Sent;
  }

  lemma FollowsTrans(a: Machine, b: Machine, c: Machine, s: State)
    requires Sent(a) <= Sent(b) <= Sent(c) && Follows(a, b, s) && Follows(b, c, s)
    ensures Follows(a, c, s)
  {
    NewsSplit(a, b, c);
    ReturnsConcat(ReturnsOf(a, s), News(a, b), News(b, c), s);
    hide Sent, Returns, News, IsFresh;
  }

  lemma QuietTrans(a: Machine, b: Machine, c: Machine, e: Env)
    requires Quiet(a, b, e) && Quiet(b, c, e)
    ensures Quiet(a, c, e)
  {
    NewsSplit(a, b, c);
    hide Sent, Calm, News;
    FollowsTrans(a, b, c, Nap);
    FollowsTrans(a, b, c, Sleep);
    hide Follows;
  }

  /** Nothing but one message was added to the log. */
  lemma OneMore(m: Machine, r: Machine, t: Task)
    requires r.queue == m.queue + [t] && r.hist.done == m.hist.done
    ensures Sent(r) == if t.Deliver? then Sent(m) + [t.msg] else Sent(m)
    ensures News(m, r) == if t.Deliver? then [t.msg] else []
  {
    MessagesAppend(m.queue, t);
    assert Sent(r) == if t.Deliver? then Sent(m) + [t.msg] else Sent(m);
  }

  lemma QuietPost(m: Machine, r: Machine, e: Env, t: Task)
    requires r.queue == m.queue + [t] && r.hist.done == m.hist.done && SamePlaces(m, r)
    requires t.Deliver? ==> Calm(e, t.msg) && !t.msg.StateTransit?
    ensures Quiet(m, r, e)
  {
    OneMore(m, r, t);
    if t.Deliver? {
      OtherMessage(ReturnsOf(m, Nap), t.msg, Nap);
      OtherMessage(ReturnsOf(m, Sleep), t.msg, Sleep);
    }
    hide Sent, News;
  }

  lemma OtherMessage(k: nat, msg: Message, s: State)
    requires !msg.StateTransit?
    ensures Returns(k, [msg], s) == k && NoFresh([msg], s)
  {
    assert [msg][..0] == [];
  }

  lemma QuietSame(m: Machine, r: Machine, e: Env)
    requires r.queue == m.queue && r.hist.done == m.hist.done && SamePlaces(m, r)
    ensures Quiet(m, r, e)
  {
    assert Sent(r) == Sent(m) && News(m, r) == [];
    hide Sent, News;
  }

  lemma HalfHourQuiet(m: Machine, on: bool, e: Env)
    ensures Quiet(m, HalfHourInner(m, on), e)
  {
    var r := HalfHourInner(m, on);
    hide Quiet;
    if r != m {
      QuietPost(m, r, e, Deliver(HalfHour(on)));
    } else {
      QuietSame(m, m, e);
    }
  }

  lemma LeaveQuiet(m: Machine, next: State, e: Env)
    ensures Quiet(m, Leave(m, next), e)
  {
    RemoveTasksKeepsMessages(m.queue, m.cur);
    assert Sent(Leave(m, next)) == Sent(m);
  }

  /** How BeginState changes the phase and the returns of `s`: the state that begins starts over,
      or counts one more return; the other one stays. */
  predicate BeginsAt(m: Machine, r: Machine, s: State) {
    if s != m.cur then PhaseOf(r, s) == PhaseOf(m, s) && ReturnsOf(r, s) == ReturnsOf(m, s)
    else if m.pre == Maintenance then PhaseOf(r, s) == PhaseOf(m, s) && ReturnsOf(r, s) == ReturnsOf(m, s) + 1
    else PhaseOf(r, s) == 0 && ReturnsOf(r, s) == 0
  }

  /** The current state of `m` has begun, which announces half-hour control at most. */
  predicate Begun(m: Machine, r: Machine) {
    && (Sent(r) == Sent(m) || Sent(r) == Sent(m) + [HalfHour(true)])
    && BeginsAt(m, r, Nap)
    && BeginsAt(m, r, Sleep)
  }

  lemma BeginNapBegun(m: Machine, e: Env)
    requires m.cur == Nap
    ensures Begun(m, BeginNap(m, e))
  {
    var r := BeginNap(m, e);
    hide MaintTimeout, NextIndex;
    if m.pre != Maintenance { OneMore(m, r, FirstPhase(Nap)); }
    hide Messages;
  }

  lemma EnterSleepBegun(m: Machine, e: Env)
    requires m.cur == Sleep
    ensures Sent(EnterSleep(m, e)) == Sent(m)
    ensures BeginsAt(m, EnterSleep(m, e), Nap) && BeginsAt(m, EnterSleep(m, e), Sleep)
  {
    var r := EnterSleep(m, e);
    hide MaintTimeout, NextIndex;
    if m.pre != Maintenance { OneMore(m, r, FirstPhase(Sleep)); }
    hide Messages;
  }

  lemma HalfHourLogs(m: Machine)
    ensures var r := HalfHourInner(m, true);
            && (Sent(r) == Sent(m) || Sent(r) == Sent(m) + [HalfHour(true)])
            && SamePlaces(m, r)
  {
    var r := HalfHourInner(m, true);
    if r != m { OneMore(m, r, Deliver(HalfHour(true))); }
    hide Messages;
  }

  lemma BeginSleepBegun(m: Machine, e: Env)
    requires m.cur == Sleep
    ensures Begun(m, BeginSleep(m, e))
  {
    EnterSleepBegun(m, e);
    HalfHourLogs(EnterSleep(m, e));
    hide EnterSleep, HalfHourInner, Sent;
  }

  /** BeginState of the current state object. */
  lemma BeginBegun(m: Machine, e: Env)
    ensures Begun(m, BeginState(m, e))
  {
    var r := BeginState(m, e);
    hide BeginNap, BeginSleep, BeginMaintenance, BeginDark, Begun;
    match m.cur
    case Working => WorkingBegun(m);
    case Dark => DarkBegun(m);
    case Nap => BeginNapBegun(m, e);
    case Maintenance => MaintenanceBegun(m);
    case Sleep => BeginSleepBegun(m, e);
  }

  lemma WorkingBegun(m: Machine)
    requires m.cur == Working
    ensures Begun(m, m.(queue := m.queue + [ScreenCheck]))
  {
    OneMore(m, m.(queue := m.queue + [ScreenCheck]), ScreenCheck);
    hide Messages;
  }

  lemma DarkBegun(m: Machine)
    requires m.cur == Dark
    ensures Begun(m, BeginDark(m))
  {
    var r := BeginDark(m);
    assert SamePlaces(m, r) && Sent(r) == Sent(m);
    hide Sent, BeginDark;
  }

  lemma MaintenanceBegun(m: Machine)
    requires m.cur == Maintenance
    ensures Begun(m, BeginMaintenance(m))
  {
  }

  lemma BeginKeepsPlace(m: Machine, e: Env)
    ensures BeginState(m, e).cur == m.cur && BeginState(m, e).pre == m.pre
  {
    hide HalfHourInner, EnterSleep, BeginNap, BeginMaintenance, BeginDark;
    match m.cur
    case Working =>
    case Dark => BeginDarkKeepsPlace(m);
    case Nap => BeginNapKeepsPlace(m, e);
    case Maintenance => BeginMaintenanceKeepsPlace(m);
    case Sleep =>
      EnterSleepKeepsPlace(m, e);
      HalfHourKeepsPlace(EnterSleep(m, e), true);
  }

  lemma BeginDarkKeepsPlace(m: Machine)
    ensures BeginDark(m).cur == m.cur && BeginDark(m).pre == m.pre
  {
  }

  lemma BeginNapKeepsPlace(m: Machine, e: Env)
    ensures BeginNap(m, e).cur == m.cur && BeginNap(m, e).pre == m.pre
  {
    hide MaintTimeout, NextIndex, MinInt;
    var r := BeginNap(m, e);
    if m.pre == Maintenance {
      assert r.cur == m.cur && r.pre == m.pre;
    } else {
      assert r.cur == m.cur && r.pre == m.pre;
    }
  }

  lemma BeginMaintenanceKeepsPlace(m: Machine)
    ensures BeginMaintenance(m).cur == m.cur && BeginMaintenance(m).pre == m.pre
  {
  }

  lemma EnterSleepKeepsPlace(m: Machine, e: Env)
    ensures EnterSleep(m, e).cur == m.cur && EnterSleep(m, e).pre == m.pre
  {
    hide MaintTimeout, NextIndex;
  }

  lemma HalfHourKeepsPlace(m: Machine, on: bool)
    ensures HalfHourInner(m, on).cur == m.cur && HalfHourInner(m, on).pre == m.pre
  {
  }

  /** The announcement says what BeginState did to the state entered. */
  lemma AnnouncedBegun(m: Machine, r: Machine, e: Env, news: seq<Message>)
    requires news in {[StateTransit(m.pre, m.cur)], [HalfHour(true), StateTransit(m.pre, m.cur)]}
    requires Sent(r) == Sent(m) + news && BeginsAt(m, r, Nap) && BeginsAt(m, r, Sleep)
    requires m.pre == Working && m.cur == Dark ==> !e.charging
    ensures Quiet(m, r, e)
  {
    var moved := StateTransit(m.pre, m.cur);
    assert News(m, r) == news;
    assert [HalfHour(true), moved][..1] == [HalfHour(true)] && [moved][..0] == [] && [HalfHour(true)][..0] == [];
    assert news[|news| - 1] == moved && moved in news;
    hide Sent, News;
    EntryFollows(m, r, Nap, news);
    EntryFollows(m, r, Sleep, news);
  }

  lemma EntryFollows(m: Machine, r: Machine, s: State, news: seq<Message>)
    requires news in {[StateTransit(m.pre, m.cur)], [HalfHour(true), StateTransit(m.pre, m.cur)]}
    requires News(m, r) == news && BeginsAt(m, r, s) && s in {Nap, Sleep}
    ensures Follows(m, r, s)
  {
    var moved := StateTransit(m.pre, m.cur);
    assert [HalfHour(true), moved][..1] == [HalfHour(true)] && [moved][..0] == [] && [HalfHour(true)][..0] == [];
    assert news[|news| - 1] == moved && moved in news;
    hide News;
    assert Returns(ReturnsOf(m, s), news[..|news| - 1], s) == ReturnsOf(m, s);
    assert IsFresh(moved, s) <==> m.cur == s && m.pre != Maintenance;
    assert NoFresh(news, s) <==> !IsFresh(moved, s);
  }

  lemma TransitQuiet(m: Machine, e: Env, next: State)
    requires m.cur == Working && next == Dark ==> !e.charging
    ensures Quiet(m, TransitInner(m, e, next), e)
    ensures TransitInner(m, e, next).cur == next
  {
    var m1 := Leave(m, next);
    LeaveQuiet(m, next, e);
    BeginBegun(m1, e);
    BeginKeepsPlace(m1, e);
    var m2 := BeginState(m1, e);
    assert m1.pre == m.cur && m1.cur == next;
    hide Quiet, BeginState, Leave;
    var r := Announce(m2);
    var moved := StateTransit(m2.pre, m2.cur);
    OneMore(m2, r, Deliver(moved));
    assert SamePlaces(m2, r);
    hide News, Announce;
    hide Sent;
    assert [HalfHour(true)] + [moved] == [HalfHour(true), moved];
    AnnouncedBegun(m1, r, e, if Sent(r) == Sent(m1) + [moved] then [moved] else [HalfHour(true), moved]);
    QuietTrans(m, m1, r, e);
  }

  lemma LeaveWithHalfHourQuiet(m: Machine, e: Env, next: State)
    requires next != Dark
    ensures var m1 := HalfHourInner(m, false);
            Quiet(m, TransitInner(m1, e, next), e)
  {
    hide Quiet, TransitInner, HalfHourInner;
    var m1 := HalfHourInner(m, false);
    HalfHourQuiet(m, false, e);
    TransitQuiet(m1, e, next);
    QuietTrans(m, m1, TransitInner(m1, e, next), e);
  }

  lemma ExitStandbyQuiet(m: Machine, e: Env, next: State)
    requires next != Dark
    ensures Quiet(m, ExitStandby(m, e, next), e) && ExitStandby(m, e, next).cur == next
  {
    var m1 := StopEvaluation(m).(blocked := false);
    QuietSame(m, m1, e);
    hide Quiet, TransitInner, HalfHourInner, StopEvaluation;
    LeaveWithHalfHourQuiet(m1, e, next);
    TransitQuiet(HalfHourInner(m1, false), e, next);
    QuietTrans(m, m1, ExitStandby(m, e, next), e);
  }

  lemma TransitWithMaintQuiet(m: Machine, e: Env, next: State)
    requires next != Dark
    ensures Quiet(m, TransitWithMaint(m, e, next), e) && TransitWithMaint(m, e, next).cur == next
  {
    hide Quiet, TransitInner, HalfHourInner;
    LeaveWithHalfHourQuiet(m, e, next);
    TransitQuiet(HalfHourInner(m, false), e, next);
    TransitQuiet(m, e, next);
  }

  lemma WakeQuiet(m: Machine, e: Env)
    ensures Quiet(m, Wake(m, e), e) && Wake(m, e).cur == Working
  {
    hide Quiet, ExitStandby, TransitWithMaint;
    if m.cur == Working { QuietSame(m, Wake(m, e), e); }
    else if m.cur == Maintenance { TransitWithMaintQuiet(m, e, Working); }
    else { ExitStandbyQuiet(m, e, Working); }
  }

  lemma AdvanceLogs(m: Machine, r: Machine, s: State, p: nat, result: bool)
    requires r.queue == m.queue + PhasePosts(s, p, result) && r.hist.done == m.hist.done
    ensures Sent(r) == Sent(m) || Sent(r) == Sent(m) + [PhaseTransit(s, p, p + 1)]
  {
    var msg := Deliver(PhaseTransit(s, p, p + 1));
    var q1 := if result then m.queue + [msg] else m.queue;
    MessagesAppend(m.queue, msg);
    MessagesAppend(q1, NextPhase(s));
    assert r.queue == if p + 1 < PHASE_END then q1 + [NextPhase(s)] else q1;
  }

  lemma AdvanceTicks(m: Machine, result: bool)
    ensures m.napPhase < PHASE_END ==> Advanced(m, AdvanceNap(m, result), Nap)
    ensures m.sleepPhase < PHASE_END ==> Advanced(m, AdvanceSleep(m, result), Sleep)
  {
    hide PhasePosts, Sent;
    AdvanceLogs(m, AdvanceNap(m, result), Nap, m.napPhase, result);
    AdvanceLogs(m, AdvanceSleep(m, result), Sleep, m.sleepPhase, result);
  }

  lemma EndEvalNapTicks(m: Machine, e: Env, result: bool)
    requires m.cur == Nap && m.napPhase <= PHASE_END
    ensures OwnTick(m, EndEvalNap(m, e, result), e)
  {
    var r := EndEvalNap(m, e, result);
    AdvanceTicks(m, result);
    hide Quiet, Advanced, TransitInner, Wake, AdvanceNap, AdvanceSleep;
    if m.napPhase == PHASE_END {
      if !result { WakeQuiet(m, e); }
      else if m.napNext != Nap { TransitQuiet(m, e, Sleep); }
      else { QuietSame(m, r, e); }
    }
  }

  lemma EndEvalSleepTicks(m: Machine, e: Env, result: bool)
    ensures OwnTick(m, EndEvalSleep(m, e, result), e)
  {
    var r := EndEvalSleep(m, e, result);
    AdvanceTicks(m, result);
    hide Quiet, Advanced, TransitInner, Wake, AdvanceNap, AdvanceSleep;
    if m.sleepPhase >= PHASE_END {
      if !result && m.repeated {
        WakeQuiet(m, e);
        QuietSame(Wake(m, e), r, e);
        QuietTrans(m, Wake(m, e), r, e);
      } else {
        QuietSame(m, r, e);
      }
    }
  }

  lemma StateEndEvalTicks(m: Machine, e: Env, result: bool)
    requires Places(m)
    requires m.cur == Working && result ==> !e.charging
    ensures OwnTick(m, StateEndEval(m, e, result), e)
    ensures m.cur == Working ==> Quiet(m, StateEndEval(m, e, result), e)
  {
    var r := StateEndEval(m, e, result);
    hide Quiet, Sent, TransitInner, Block, EndEvalNap, EndEvalSleep, OwnTick;
    match m.cur
    case Nap => EndEvalNapTicks(m, e, result);
    case Sleep => EndEvalSleepTicks(m, e, result);
    case _ =>
      if m.cur == Working && result { TransitQuiet(m, e, Dark); }
      else if m.cur == Dark && result && DarkNext(m.cfg) != Dark { TransitQuiet(m, e, DarkNext(m.cfg)); }
      else { BlockQuiet(m, e); TickBetween(m, m, m, r, e); QuietSame(m, m, e); }
      QuietIsTick(m, r, e);
  }

  /** The log, the phases and the returns are the same. */
  predicate SameLog(m: Machine, r: Machine) {
    Sent(m) == Sent(r) && SamePlaces(m, r)
  }

  /** Only these decide whether a step is quiet or advances a phase. */
  lemma TickBetween(m: Machine, m1: Machine, r1: Machine, r: Machine, e: Env)
    requires SameLog(m, m1) && SameLog(r1, r)
    ensures OwnTick(m1, r1, e) ==> OwnTick(m, r, e)
    ensures Quiet(m1, r1, e) ==> Quiet(m, r, e)
  {
    hide Sent;
  }

  lemma QuietIsTick(m: Machine, r: Machine, e: Env)
    requires Quiet(m, r, e)
    ensures OwnTick(m, r, e)
  {
  }

  lemma EndEvalTicks(m: Machine, e: Env, result: bool)
    requires Places(m)
    requires m.cur == Working && result ==> !e.charging
    ensures OwnTick(m, EndEval(m, e, result), e)
    ensures m.cur == Working ==> Quiet(m, EndEval(m, e, result), e)
  {
    var m1 := CloseEval(m);
    QuietSame(m, m, e);
    if m.evaluating {
      StateEndEvalTicks(m1, e, result);
      hide StateEndEval, OwnTick, Quiet;
      TickBetween(m, m1, StateEndEval(m1, e, result), StateEndEval(m1, e, result), e);
    }
  }

  /** Opening an evaluation, or blocking right after it, leaves the log alone. */
  lemma OpenEvalSame(m: Machine, e: Env, kind: Monitor)
    ensures SameLog(m, OpenEval(m, kind)) && SameLog(m, Block(OpenEval(m, kind), e))
    ensures SameLog(m, m.(evaluating := true))
    ensures OpenEval(m, kind).cur == m.cur && (Places(m) ==> Places(OpenEval(m, kind)))
  {
    BlockQuiet(OpenEval(m, kind), e);
    hide Block;
  }

  lemma StartEvalTicks(m: Machine, e: Env, p: EvalParams)
    requires Places(m)
    requires p.curState == m.cur && (m.cur == Working ==> p == EvalParams(Working, 0, Dark, 0, false))
    ensures OwnTick(m, StartEval(m, e, p), e)
    ensures m.cur == Working ==> Quiet(m, StartEval(m, e, p), e)
  {
    var kind := Classify(m.cfg, p);
    var r := StartEval(m, e, p);
    var m1 := OpenEval(m, kind);
    OpenEvalSame(m, e, kind);
    assert m.cur == Working ==> kind == ChargeMonitor;
    QuietSame(m, m, e);
    QuietIsTick(m, m, e);
    hide EndEval, Quiet, OwnTick, OpenEval, Block, Places, SameLog, Classify;
    if m.monitoring || kind == MotionMonitor {
      assert SameLog(m, r) by { if m.monitoring { assert r == m.(evaluating := true); } }
      assert SameLog(m, m) by { QuietRefl(m); }
      TickBetween(m, m, m, r, e);
    } else {
      EndEvalTicks(m1, e, kind == NoMonitor || !e.charging);
      QuietRefl(r);
      TickBetween(m, m1, r, r, e);
    }
  }

  lemma QuietRefl(m: Machine)
    ensures SameLog(m, m)
  {
  }

  lemma ToDarkQuiet(m: Machine, e: Env)
    requires Places(m) && m.cur == Working
    ensures Quiet(m, TransitToState(m, e, Dark).m, e)
  {
    hide StartEval, Quiet;
    QuietSame(m, m, e);
    if !m.blocked { StartEvalTicks(m, e, EvalParams(Working, 0, Dark, 0, false)); }
  }

  lemma StopEvaluationQuiet(m: Machine)
    ensures var r := StopEvaluation(m);
            && r.cur == m.cur && r.blocked == m.blocked && r.cfg == m.cfg
            && SameLog(m, r)
            && r.napNext == m.napNext && r.maintNext == m.maintNext
    ensures Places(m) ==> Places(StopEvaluation(m))
  {
  }

  lemma TransitToStateTicks(m: Machine, e: Env, next: State)
    requires Places(m) && m.cur != Working && (next == Dark ==> m.cur == Dark)
    ensures OwnTick(m, TransitToState(m, e, next).m, e)
  {
    var r := TransitToState(m, e, next).m;
    hide StartEval, ExitStandby, TransitWithMaint, Quiet, OwnTick;
    if !TransitionValid(m.cur, next) || m.cur == next {
      QuietSame(m, r, e);
      QuietIsTick(m, r, e);
    } else if next == Maintenance || m.cur == Maintenance {
      TransitWithMaintQuiet(m, e, next);
      QuietIsTick(m, r, e);
    } else if Index(m.cur) < Index(next) {
      if m.blocked {
        QuietSame(m, r, e);
        QuietIsTick(m, r, e);
      } else {
        StartEvalTicks(m, e, EvalParams(m.cur, PhaseOf(m, m.cur), next, 0, false));
      }
    } else {
      ExitStandbyQuiet(m, e, next);
      QuietIsTick(m, r, e);
    }
  }

  lemma RunTransitTicks(m: Machine, e: Env)
    requires Places(m) && m.cur != Working
    requires m.cur == Nap ==> m.napNext in {Sleep, Maintenance}
    ensures OwnTick(m, RunTransit(m, e, m.cur), e)
  {
    StopEvaluationQuiet(m);
    var m1 := StopEvaluation(m);
    hide StopEvaluation, TransitToState, Block, Quiet, OwnTick;
    var t := TransitToState(m1, e, NextOf(m, m.cur));
    TransitToStateTicks(m1, e, NextOf(m, m.cur));
    BlockQuiet(t.m, e);
    TickBetween(m, m1, t.m, RunTransit(m, e, m.cur), e);
  }

  lemma BlockQuiet(m: Machine, e: Env)
    ensures SameLog(m, Block(m, e)) && SameLog(m, Block(m, e).(lock := false))
  {
    hide MaintTimeout;
  }

  /** The action is the report that the user is awake, and the device sleeps. */
  predicate Awakens(m: Machine, a: Action) {
    a == UserSleepChanged(false) && !m.screenOn && m.cur == Sleep
  }

  lemma ReactQuiet(m: Machine, e: Env, a: Action)
    requires Places(m) && !Awakens(m, a)
    ensures Quiet(m, React(m, e, a), e)
  {
    var r := React(m, e, a);
    var m1 := m.(screenOn := true);
    var m2 := m.(blocked := false);
    hide Wake, TransitInner, BeginState, Quiet;
    QuietSame(m, m, e);
    QuietSame(m, m1, e);
    QuietSame(m, m2, e);
    match a
    case ScreenOn =>
      WakeQuiet(m1, e);
      QuietTrans(m, m1, r, e);
    case ScreenOff => QuietSame(m, r, e);
    case ScreenUnlocked => WakeQuiet(m, e);
    case Charging => WakeQuiet(m, e);
    case UsbAttached => WakeQuiet(m, e);
    case LidOpen => WakeQuiet(m, e);
    case UserSleepChanged(isSleep) =>
      if isSleep { HoldSleepQuiet(m, e); }
    case EnterForceSleep => HoldSleepQuiet(m, e);
    case _ =>
  }

  lemma HoldSleepQuiet(m: Machine, e: Env)
    ensures Quiet(m, HoldSleep(m, e), e)
  {
    var m0 := m.(blocked := false);
    var m1 := if m.cur != Sleep then TransitInner(m0, e, Sleep) else m;
    hide TransitInner, Quiet;
    if m.cur != Sleep {
      QuietSame(m, m0, e);
      TransitQuiet(m0, e, Sleep);
      QuietTrans(m, m0, m1, e);
    } else {
      QuietSame(m, m1, e);
    }
    QuietSame(m1, HoldSleep(m, e), e);
    QuietTrans(m, m1, HoldSleep(m, e), e);
  }

  lemma HandleCommonEventQuiet(m: Machine, e: Env, a: Action)
    requires Full(m) && !Awakens(m, a)
    ensures Quiet(m, HandleCommonEvent(m, e, a), e)
  {
    var m1 := React(m, e, a);
    ReactQuiet(m, e, a);
    ReactKeeps(m, e, a);
    hide React, TransitToState, Quiet, LogAt, Owned, Evals, Targets, Counters;
    if m1.cur == Working && !m1.screenOn {
      ToDarkQuiet(m1, e);
      QuietTrans(m, m1, TransitToState(m1, e, Dark).m, e);
    }
  }

  lemma RunTaskTicks(m: Machine, e: Env, t: Task)
    requires Full(m) || (Core(m) && t.TransitNext?)
    requires OwnsTask(m.cur, t) && !t.Deliver?
    requires m.cur == Nap && t.TransitNext? ==> m.napNext in {Sleep, Maintenance}
    ensures OwnTick(m, RunTask(m, e, t), e)
  {
    var r := RunTask(m, e, t);
    var locked := m.(lock := true);
    var marked := m.(repeated := true);
    assert Places(m) && SameLog(m, locked) && SameLog(m, marked) && SameLog(m, m);
    hide Core, Full, Quiet, OwnTick, StartEval, RunTransit, Sent;
    QuietSame(m, m, e);
    match t
    case ScreenCheck =>
      if !m.screenOn { ToDarkQuiet(m, e); }
      QuietIsTick(m, r, e);
    case TransitNext(_) =>
      RunTransitTicks(locked, e);
      TickBetween(m, locked, r, r, e);
    case FirstPhase(s) =>
      StartEvalTicks(locked, e, EvalParams(s, PhaseOf(m, s), s, PhaseOf(m, s) + 1, false));
      TickBetween(m, locked, r, r, e);
    case NextPhase(s) =>
      StartEvalTicks(m, e, EvalParams(s, PhaseOf(m, s), s, PhaseOf(m, s) + 1, false));
    case RepeatDetect =>
      StartEvalTicks(marked, e, EvalParams(Sleep, m.sleepPhase, Sleep, m.sleepPhase, true));
      TickBetween(m, marked, r, r, e);
  }

  lemma RunHeadTicks(m: Machine, e: Env)
    requires Inv(m) && m.queue != [] && !AwakeEvent(m, RunHead)
    ensures OwnTick(m, Next(m, e, RunHead), e)
  {
    TakeKeeps(m);
    TakeKeepsLog(m);
    var t := m.queue[0];
    var m1 := Take(m);
    var r := Next(m, e, RunHead);
    assert t.TransitNext? ==> HeadsOn(m, t.state);
    assert SameLog(m, m1);
    if t.Deliver? {
      hide Core, Inv, Full, Quiet, OwnTick, HandleCommonEvent, Sent;
      QuietSame(m1, m1, e);
      if t.msg.CommonEvent? { HandleCommonEventQuiet(m1, e, t.msg.action); }
      QuietIsTick(m1, r, e);
    } else {
      hide Core, Full, Quiet, OwnTick, RunTask, Sent;
      RunTaskTicks(m1, e, t);
    }
    TickBetween(m, m1, r, r, e);
  }

  lemma PostTicks(m: Machine, r: Machine, e: Env, t: Task)
    requires r.queue == m.queue + [t] && r.hist.done == m.hist.done
    requires t.Deliver? ==> Calm(e, t.msg) && !t.msg.StateTransit?
    requires SamePlaces(m, r)
    ensures OwnTick(m, r, e)
  {
    hide Quiet;
    QuietPost(m, r, e, t);
    QuietIsTick(m, r, e);
  }

  lemma ExternalPosts(m: Machine, e: Env, msg: Message)
    requires !Internal(msg)
    ensures Posted(m, Next(m, e, External(msg)))
  {
    OneMore(m, Next(m, e, External(msg)), Deliver(msg));
    hide Sent;
  }

  lemma SameTicks(m: Machine, r: Machine, e: Env)
    requires SameLog(m, r)
    ensures OwnTick(m, r, e)
  {
    hide Sent;
  }

  /** The report that the user is awake is handled by beginning SLEEP again. */
  lemma AwakeIs(m: Machine, e: Env)
    requires AwakeEvent(m, RunHead)
    ensures Next(m, e, RunHead) == BeginState(Take(m), e)
  {
    BeginKeepsPlace(Take(m), e);
    hide BeginState, TransitToState;
  }

  lemma AwakeBegins(m: Machine, e: Env)
    requires AwakeEvent(m, RunHead)
    ensures Begun(m, Next(m, e, RunHead))
  {
    AwakeIs(m, e);
    TakeKeepsLog(m);
    BeginBegun(Take(m), e);
    assert SamePlaces(m, Take(m)) && Take(m).cur == m.cur && Take(m).pre == m.pre;
    hide Next, BeginState, Sent, Take;
  }

  /** One step of the machine, seen from the log: it is quiet, or it completes one phase. Only the
      report that the user is awake begins SLEEP again without an announcement. */
  lemma NextTicks(m: Machine, e: Env, s: Step)
    requires Inv(m) && Enabled(m, s)
    ensures if AwakeEvent(m, s) then Begun(m, Next(m, e, s)) else Tick(m, Next(m, e, s), e)
    ensures !AwakeEvent(m, s) && !s.External? ==> OwnTick(m, Next(m, e, s), e)
  {
    var r := Next(m, e, s);
    hide Inv, Quiet, OwnTick, Posted, Begun, SameLog, EndEval, RunTask, HalfHourInner, Block, Sent, AwakeEvent;
    match s
    case RunHead =>
      if AwakeEvent(m, RunHead) { AwakeBegins(m, e); } else { RunHeadTicks(m, e); }
    case Fire(t) => PostTicks(m, r, e, if t.TransitTimer? then TransitNext(t.state) else RepeatDetect);
    case HalfHourTimer =>
      HalfHourQuiet(m, true, e);
      QuietIsTick(m, r, e);
    case MotionResult(result) => MotionTicks(m, e, result);
    case MotionRetryFails =>
      BlockQuiet(m, e);
      SameTicks(m, r, e);
    case DayNightSwitch =>
      if m.cur == Sleep { PostTicks(m, r, e, Deliver(ConditionChanged)); }
      else { QuietRefl(m); SameTicks(m, m, e); }
    case External(msg) => ExternalPosts(m, e, msg);
  }

  lemma MotionTicks(m: Machine, e: Env, result: bool)
    requires Inv(m)
    ensures OwnTick(m, EndEval(m, e, result), e)
  {
    CoreEvals(m);
    assert Places(m);
    hide Inv, Core, Places, OwnTick, EndEval;
    if m.evaluating { EndEvalTicks(m, e, result); }
    else { EndEvalIdle(m, e, result); SameTicks(m, m, e); }
  }

  lemma EndEvalIdle(m: Machine, e: Env, result: bool)
    ensures !m.evaluating ==> EndEval(m, e, result) == m
  {
  }
}
