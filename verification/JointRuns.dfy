/** Runs of the allow store and the service together: the store's notices are dispatched to the
    handler queue, and what the strategies hold as allowed follows the store. */
module JointRuns {
  import opened StandbyTypes
  import opened StandbyMachine
  import opened StandbyInvariant
  import opened StandbyLog
  import opened StandbyDelivery
  import opened StandbySystem
  import opened ExemptionFlags
  import opened RecordKeys
  import opened AllowSync
  import opened AllowMarks
  import A = AllowRuns
  import N = NetworkRules
  import R = RunningLockRules
  import RP = RunningLockProofs
  import RK = RunningLockStrategies

  datatype Joint = Joint(world: A.World, sys: System)

  datatype JointMove =
    | StoreMove(move: A.AllowMove)                // the store changes and dispatches its notice
    | ServiceMove(ctx: Context, step: Step)       // any other step of the service

  function Tasks(msgs: seq<Message>): seq<Task> {
    seq(|msgs|, i requires 0 <= i < |msgs| => Deliver(msgs[i]))
  }

  predicate JointEnabled(j: Joint, mv: JointMove) {
    match mv
    case StoreMove(move) => A.AllowEnabled(j.world, move)
    case ServiceMove(_, step) => Enabled(j.sys.m, step) && !(step.External? && step.msg.AllowListChanged?)
  }

  function JointNext(j: Joint, mv: JointMove): Joint
    requires JointEnabled(j, mv)
  {
    match mv
    case StoreMove(move) =>
      var w := A.AllowNext(j.world, move);
      var m := j.sys.m;
      Joint(w, j.sys.(m := m.(queue := m.queue + Tasks(Tidings(j.world.store, w.store)))))
    case ServiceMove(ctx, step) => Joint(j.world, SystemNext(j.sys, ctx, step))
  }

  predicate ValidJointRun(j: Joint, run: seq<JointMove>)
    decreases run
  {
    run == [] || (JointEnabled(j, run[0]) && ValidJointRun(JointNext(j, run[0]), run[1..]))
  }

  function JointExec(j: Joint, run: seq<JointMove>): Joint
    requires ValidJointRun(j, run)
    decreases run
  {
    if run == [] then j else JointExec(JointNext(j, run[0]), run[1..])
  }

  /** A store as it was loaded, and the service right after its start. */
  function JointInitial(w: A.World, cfg: Config, screenOn: bool): Joint {
    Joint(w, SystemInitial(cfg, screenOn))
  }

  /** Dispatching a notice is what the service calls a message of another component. */
  lemma NoticeIsExternal(j: Joint, move: A.AllowMove, c: Context)
    requires A.AllowInv(j.world) && A.AllowEnabled(j.world, move)
    ensures var w := A.AllowNext(j.world, move);
            var told := Tidings(j.world.store, w.store);
            var r := JointNext(j, StoreMove(move));
            if told == [] then r.sys == j.sys
            else Enabled(j.sys.m, External(told[0])) && r.sys == SystemNext(j.sys, c, External(told[0]))
  {
    var w := A.AllowNext(j.world, move);
    var told := Tidings(j.world.store, w.store);
    hide A.AllowNext, A.AllowInv, A.AllowEnabled;
    if told == [] {
      assert j.sys.m.queue + Tasks(told) == j.sys.m.queue;
    } else {
      assert Tasks(told) == [Deliver(told[0])];
      PostIs(j.sys, c, told[0]);
    }
  }

  lemma PostIs(s: System, c: Context, msg: Message)
    requires !Internal(msg)
    ensures Enabled(s.m, External(msg))
    ensures SystemNext(s, c, External(msg)) == s.(m := s.m.(queue := s.m.queue + [Deliver(msg)]))
  {
  }

  // ---------------------------------------------------------------- the queue

  /** One step of the service appends only messages that no store sends. */
  lemma QueueMoves(m: Machine, e: Env, step: Step) returns (news: seq<Message>)
    requires Inv(m) && Enabled(m, step) && !(step.External? && step.msg.AllowListChanged?)
    ensures forall msg :: msg in news ==> !msg.AllowListChanged?
    ensures Messages(Next(m, e, step).queue)
         == (if Delivers(m, step) then Messages(m.queue)[1..] else Messages(m.queue)) + news
    ensures Delivers(m, step) ==> Messages(m.queue) != [] && Messages(m.queue)[0] == m.queue[0].msg
  {
    var r := Next(m, e, step);
    NextTicks(m, e, step);
    NextDone(m, e, step);
    news := News(m, r);
    SentSplits(m, step);
    hide Inv, Next, OwnTick, Tick, Begun, AwakeEvent, Posted, Messages, News;
    if step.External? {
      ExternalNews(m, e, step.msg);
    } else if AwakeEvent(m, step) {
      BegunNews(m, r);
    } else {
      OwnNews(m, r, e);
    }
    if Delivers(m, step) {
      Behind(m.hist.done, [m.queue[0].msg], Messages(m.queue)[1..], Messages(r.queue), news);
    } else {
      assert m.hist.done + [] == m.hist.done && [] + Messages(m.queue) == Messages(m.queue);
      Behind(m.hist.done, [], Messages(m.queue), Messages(r.queue), news);
    }
  }

  lemma SentSplits(m: Machine, step: Step)
    ensures Delivers(m, step) ==> Messages(m.queue) == [m.queue[0].msg] + Messages(m.queue[1..])
  {
  }

  /** What follows the delivered part of the log. */
  lemma Behind(done: seq<Message>, now: seq<Message>, rest: seq<Message>, queue: seq<Message>, news: seq<Message>)
    requires (done + now) + queue == (done + (now + rest)) + news
    ensures queue == rest + news
  {
    var log := (done + now) + queue;
    assert log[|done + now|..] == queue;
    assert log == (done + now) + (rest + news);
    assert log[|done + now|..] == rest + news;
  }

  lemma ExternalNews(m: Machine, e: Env, msg: Message)
    requires !Internal(msg) && !msg.AllowListChanged?
    ensures Sent(Next(m, e, External(msg))) == Sent(m) + News(m, Next(m, e, External(msg)))
    ensures forall x :: x in News(m, Next(m, e, External(msg))) ==> !x.AllowListChanged?
  {
    OneMore(m, Next(m, e, External(msg)), Deliver(msg));
    hide Sent, News;
  }

  lemma BegunNews(m: Machine, r: Machine)
    requires Begun(m, r)
    ensures Sent(r) == Sent(m) + News(m, r) && forall x :: x in News(m, r) ==> !x.AllowListChanged?
  {
    NewsAtMost(m, r, HalfHour(true));
    hide Sent, News;
  }

  lemma OwnNews(m: Machine, r: Machine, e: Env)
    requires OwnTick(m, r, e)
    ensures Sent(r) == Sent(m) + News(m, r) && forall x :: x in News(m, r) ==> !x.AllowListChanged?
  {
    if !Quiet(m, r, e) {
      var s := if Advanced(m, r, Nap) then Nap else Sleep;
      NewsAtMost(m, r, PhaseTransit(s, PhaseOf(m, s), PhaseOf(m, s) + 1));
      hide Sent, News;
    } else {
      hide Sent, Follows;
    }
  }

  // ---------------------------------------------------------------- tables follow the store

  /** Once the waiting notices are heard, this mark tells what the store says. */
  predicate InStep(mark: bool, j: Joint, uid: int, name: string, kind: bv32) {
    Heard(mark, Messages(j.sys.m.queue), uid, name, kind) == Stored(j.world.store, uid, name, kind)
  }

  /** The waiting notices are no news to who already believes the store. */
  ghost predicate Consistent(j: Joint) {
    forall uid, name, kind :: IsKind(kind) ==> InStep(Stored(j.world.store, uid, name, kind), j, uid, name, kind)
  }

  predicate NetInStep(j: Joint) {
    forall u :: u in j.sys.net.apps ==>
      InStep(Allowed(j.sys.net.apps[u].flag), j, u, j.sys.net.apps[u].name, NET)
  }

  predicate LockInStep(j: Joint) {
    forall k :: k in j.sys.proxy.apps ==>
      InStep(Allowed(j.sys.proxy.apps[k].flag), j, j.sys.proxy.apps[k].uid, j.sys.proxy.apps[k].name, LOCK)
  }

  ghost predicate JointInv(j: Joint) {
    Inv(j.sys.m) && A.AllowInv(j.world) && Consistent(j) && RP.Keyed(j.sys.proxy.apps)
  }

  // ---------------------------------------------------------------- a step of the store

  lemma MessagesMore(q: seq<Task>, msgs: seq<Message>)
    requires |msgs| <= 1
    ensures Messages(q + Tasks(msgs)) == Messages(q) + msgs
  {
    if msgs == [] {
      assert q + Tasks(msgs) == q;
    } else {
      MessagesAppend(q, Deliver(msgs[0]));
      assert Tasks(msgs) == [Deliver(msgs[0])] && msgs == [msgs[0]];
    }
  }

  /** What was in step before stays in step when the store changes and tells it. */
  lemma StoreKeepsInStep(j: Joint, move: A.AllowMove, mark: bool, uid: int, name: string, kind: bv32)
    requires JointInv(j) && A.AllowEnabled(j.world, move) && IsKind(kind) && InStep(mark, j, uid, name, kind)
    ensures InStep(mark, JointNext(j, StoreMove(move)), uid, name, kind)
  {
    var s, r := j.world.store, A.AllowNext(j.world, move).store;
    var told, before := Tidings(s, r), Messages(j.sys.m.queue);
    StoreTells(j.world, move);
    assert Stored(r, uid, name, kind) == Heard(Stored(s, uid, name, kind), told, uid, name, kind);
    hide JointInv, A.AllowNext, A.AllowEnabled, Tells, Heard, Stored;
    MessagesMore(j.sys.m.queue, told);
    HeardConcat(mark, before, told, uid, name, kind);
  }

  /** Who believes the store before the change will believe it afterwards, told or not. */
  lemma StoreKeepsBelief(j: Joint, move: A.AllowMove, uid: int, name: string, kind: bv32)
    requires JointInv(j) && A.AllowEnabled(j.world, move) && IsKind(kind)
    ensures var r := JointNext(j, StoreMove(move));
            InStep(Stored(r.world.store, uid, name, kind), r, uid, name, kind)
  {
    var s, r := j.world.store, A.AllowNext(j.world, move).store;
    var was, now := Stored(s, uid, name, kind), Stored(r, uid, name, kind);
    assert InStep(was, j, uid, name, kind);
    StoreKeepsInStep(j, move, was, uid, name, kind);
    var q := Messages(JointNext(j, StoreMove(move)).sys.m.queue);
    var told := Tidings(s, r);
    StoreTells(j.world, move);
    assert now == Heard(was, told, uid, name, kind);
    MessagesMore(j.sys.m.queue, told);
    hide JointInv, A.AllowNext, A.AllowEnabled, Tells, Stored, Heard;
    HeardConcat(was, Messages(j.sys.m.queue), told, uid, name, kind);
    HeardConcat(now, Messages(j.sys.m.queue), told, uid, name, kind);
    HeardDecides(was, now, Messages(j.sys.m.queue), uid, name, kind);
    HeardDecides(was, now, told, uid, name, kind);
  }

  lemma StoreKeepsInv(j: Joint, move: A.AllowMove)
    requires JointInv(j) && A.AllowEnabled(j.world, move)
    ensures JointInv(JointNext(j, StoreMove(move)))
  {
    var r := JointNext(j, StoreMove(move));
    A.AllowNextKeeps(j.world, move);
    StoreTells(j.world, move);
    DispatchKeeps(j.sys.m, Tidings(j.world.store, r.world.store));
    forall uid, name, kind | IsKind(kind)
      ensures InStep(Stored(r.world.store, uid, name, kind), r, uid, name, kind)
    {
      StoreKeepsBelief(j, move, uid, name, kind);
    }
    hide Inv, A.AllowInv, A.AllowNext, A.AllowEnabled, Tells, Stored, InStep, RP.Keyed;
  }

  lemma DispatchKeeps(m: Machine, told: seq<Message>)
    requires Inv(m) && |told| <= 1 && forall msg :: msg in told ==> msg.AllowListChanged?
    ensures Inv(m.(queue := m.queue + Tasks(told)))
  {
    if told == [] {
      assert m.queue + Tasks(told) == m.queue && m.(queue := m.queue) == m;
    } else {
      assert Tasks(told) == [Deliver(told[0])] && told[0] in told;
      QueueKeeps(m, Deliver(told[0]));
      hide Inv;
    }
  }

  // ---------------------------------------------------------------- a step of the service

  /** What a listener to the queue believes after the step, when the step has delivered its message. */
  function Updated(was: bool, m: Machine, step: Step, uid: int, name: string, kind: bv32): bool {
    if Delivers(m, step) then After(was, m.queue[0].msg, uid, name, kind) else was
  }

  lemma ServiceKeepsInStep(j: Joint, c: Context, step: Step, was: bool, uid: int, name: string, kind: bv32)
    requires Inv(j.sys.m) && JointEnabled(j, ServiceMove(c, step)) && InStep(was, j, uid, name, kind)
    ensures InStep(Updated(was, j.sys.m, step, uid, name, kind), JointNext(j, ServiceMove(c, step)), uid, name, kind)
  {
    var m := j.sys.m;
    var news := QueueMoves(m, c.env, step);
    var q := Messages(m.queue);
    var rest := if Delivers(m, step) then q[1..] else q;
    var now := Updated(was, m, step, uid, name, kind);
    ServiceQueue(j, c, step);
    assert forall msg :: msg in news ==> !Concerns(msg, uid, name, kind);
    assert Heard(now, rest, uid, name, kind) == Heard(was, q, uid, name, kind);
    hide Inv, JointNext, JointEnabled, Next, Stored, Heard, Delivers, Updated, Concerns;
    HeardConcat(now, rest, news, uid, name, kind);
    HeardNothing(Heard(now, rest, uid, name, kind), news, uid, name, kind);
  }

  lemma ServiceQueue(j: Joint, c: Context, step: Step)
    requires JointEnabled(j, ServiceMove(c, step))
    ensures var r := JointNext(j, ServiceMove(c, step));
            && r.world == j.world
            && r.sys.m == Next(j.sys.m, c.env, step)
            && r.sys.net == (if Delivers(j.sys.m, step)
                             then N.HandleNetMessage(j.sys.net, j.sys.m.queue[0].msg, c.netAns) else j.sys.net)
            && r.sys.proxy == (if Delivers(j.sys.m, step)
                               then R.HandleMessage(j.sys.proxy, j.sys.m.queue[0].msg, c.lockAns) else j.sys.proxy)
  {
    hide Next, N.HandleNetMessage, R.HandleMessage;
  }

  /** Who believes the store believes it after the step, whatever was delivered. */
  lemma ServiceKeepsBelief(j: Joint, c: Context, step: Step, uid: int, name: string, kind: bv32)
    requires Inv(j.sys.m) && JointEnabled(j, ServiceMove(c, step))
    requires InStep(Stored(j.world.store, uid, name, kind), j, uid, name, kind)
    ensures var r := JointNext(j, ServiceMove(c, step));
            InStep(Stored(r.world.store, uid, name, kind), r, uid, name, kind)
  {
    var r := JointNext(j, ServiceMove(c, step));
    var was := Stored(j.world.store, uid, name, kind);
    ServiceKeepsInStep(j, c, step, was, uid, name, kind);
    ServiceQueue(j, c, step);
    var now := Updated(was, j.sys.m, step, uid, name, kind);
    hide Inv, JointNext, JointEnabled, Next, Stored, Heard, Delivers, Updated;
    HeardDecides(now, was, Messages(r.sys.m.queue), uid, name, kind);
  }

  lemma ServiceKeepsInv(j: Joint, c: Context, step: Step)
    requires JointInv(j) && JointEnabled(j, ServiceMove(c, step))
    ensures JointInv(JointNext(j, ServiceMove(c, step)))
  {
    var r := JointNext(j, ServiceMove(c, step));
    ServiceQueue(j, c, step);
    NextKeeps(j.sys.m, c.env, step);
    forall uid, name, kind | IsKind(kind)
      ensures InStep(Stored(r.world.store, uid, name, kind), r, uid, name, kind)
    {
      assert InStep(Stored(j.world.store, uid, name, kind), j, uid, name, kind);
      hide InStep, Stored;
      ServiceKeepsBelief(j, c, step, uid, name, kind);
    }
    if Delivers(j.sys.m, step) { RK.HandleMessageKeyed(j.sys.proxy, j.sys.m.queue[0].msg, c.lockAns); }
    hide Inv, A.AllowInv, Next, Stored, InStep, RP.Keyed, R.HandleMessage, N.HandleNetMessage, SystemNext;
  }

  lemma NextKeepsInv(j: Joint, mv: JointMove)
    requires JointInv(j) && JointEnabled(j, mv)
    ensures JointInv(JointNext(j, mv))
  {
    hide JointInv, JointNext, A.AllowEnabled;
    match mv
    case StoreMove(move) => StoreKeepsInv(j, move);
    case ServiceMove(c, step) => ServiceKeepsInv(j, c, step);
  }

  // ---------------------------------------------------------------- the network strategy

  /** Whatever the step delivers to the network strategy agrees with the store. */
  predicate NetAttunedStep(j: Joint, mv: JointMove) {
    mv.ServiceMove? && Delivers(j.sys.m, mv.step) ==>
      NetAttuned(j.sys.net, j.sys.m.queue[0].msg, mv.ctx.netAns, j.world.store)
  }

  predicate NetAttunedRun(j: Joint, run: seq<JointMove>)
    requires ValidJointRun(j, run)
    decreases run
  {
    run == [] || (NetAttunedStep(j, run[0]) && NetAttunedRun(JointNext(j, run[0]), run[1..]))
  }

  lemma StepKeepsNet(j: Joint, mv: JointMove)
    requires JointInv(j) && JointEnabled(j, mv) && NetAttunedStep(j, mv) && NetInStep(j)
    ensures NetInStep(JointNext(j, mv))
  {
    var r := JointNext(j, mv);
    forall u | u in r.sys.net.apps
      ensures InStep(Allowed(r.sys.net.apps[u].flag), r, u, r.sys.net.apps[u].name, NET)
    {
      hide JointInv, JointNext, NetAttunedStep, Allowed, InStep;
      EntryKeepsNet(j, mv, u);
    }
  }

  lemma EntryKeepsNet(j: Joint, mv: JointMove, u: int)
    requires JointInv(j) && JointEnabled(j, mv) && NetAttunedStep(j, mv)
    requires u in j.sys.net.apps ==> InStep(Allowed(j.sys.net.apps[u].flag), j, u, j.sys.net.apps[u].name, NET)
    requires u in JointNext(j, mv).sys.net.apps
    ensures var r := JointNext(j, mv);
            InStep(Allowed(r.sys.net.apps[u].flag), r, u, r.sys.net.apps[u].name, NET)
  {
    if mv.StoreMove? {
      hide JointInv, Allowed, InStep;
      StoreKeepsInStep(j, mv.move, Allowed(j.sys.net.apps[u].flag), u, j.sys.net.apps[u].name, NET);
    } else {
      ServiceQueue(j, mv.ctx, mv.step);
      var n, name := j.sys.net, JointNext(j, mv).sys.net.apps[u].name;
      if Delivers(j.sys.m, mv.step) { NetMark(n, j.sys.m.queue[0].msg, mv.ctx.netAns, j.world.store, u); }
      var kept := u in n.apps && n.apps[u].name == name;
      var was := u in n.apps && Allowed(n.apps[u].flag);
      BelievesStore(j, u, name, NET);
      hide JointInv, JointNext, Allowed, InStep, Stored, Next, N.HandleNetMessage, R.HandleMessage;
      if kept { ServiceKeepsInStep(j, mv.ctx, mv.step, was, u, name, NET); }
      ServiceKeepsInStep(j, mv.ctx, mv.step, Stored(j.world.store, u, name, NET), u, name, NET);
    }
  }

  lemma BelievesStore(j: Joint, uid: int, name: string, kind: bv32)
    requires JointInv(j) && IsKind(kind)
    ensures Inv(j.sys.m) && InStep(Stored(j.world.store, uid, name, kind), j, uid, name, kind)
  {
    hide Inv, A.AllowInv, InStep, Stored, RP.Keyed;
  }

  lemma {:induction false} ExecKeepsNet(j: Joint, run: seq<JointMove>)
    requires JointInv(j) && NetInStep(j) && ValidJointRun(j, run) && NetAttunedRun(j, run)
    ensures NetInStep(JointExec(j, run))
    decreases run
  {
    if run != [] {
      NextKeepsInv(j, run[0]);
      StepKeepsNet(j, run[0]);
      hide JointInv, NetInStep, JointNext, NetAttunedStep;
      ExecKeepsNet(JointNext(j, run[0]), run[1..]);
    }
  }

  /** No notice waits that concerns this permission of the application. */
  predicate NothingWaits(m: Machine, uid: int, name: string, kind: bv32) {
    forall msg :: msg in Messages(m.queue) ==> !Concerns(msg, uid, name, kind)
  }

  lemma InitialInStep(w: A.World, cfg: Config, screenOn: bool)
    requires A.AllowInv(w)
    ensures var j := JointInitial(w, cfg, screenOn); JointInv(j) && NetInStep(j) && LockInStep(j)
  {
    InitialHolds(cfg, screenOn);
    assert Messages([ScreenCheck]) == [];
    hide Inv, A.AllowInv, Stored;
  }

  /** In every run of store and service together in which surveys and lookups agree with the store
      and notices find the firewall enabled: once no notice about it waits, a tracked application
      has the mark of an allowed one exactly when the store allows it the network. */
  lemma NetworkFollowsStore(w: A.World, cfg: Config, screenOn: bool, run: seq<JointMove>, u: int)
    requires A.AllowInv(w)
    requires ValidJointRun(JointInitial(w, cfg, screenOn), run) && NetAttunedRun(JointInitial(w, cfg, screenOn), run)
    ensures var j := JointExec(JointInitial(w, cfg, screenOn), run);
            u in j.sys.net.apps ==>
              var a := j.sys.net.apps[u];
              NothingWaits(j.sys.m, u, a.name, NET) ==> (Allowed(a.flag) <==> Stored(j.world.store, u, a.name, NET))
  {
    var j0 := JointInitial(w, cfg, screenOn);
    InitialInStep(w, cfg, screenOn);
    hide JointInv;
    ExecKeepsNet(j0, run);
    var j := JointExec(j0, run);
    if u in j.sys.net.apps {
      var a := j.sys.net.apps[u];
      assert InStep(Allowed(a.flag), j, u, a.name, NET);
      hide JointExec, Heard, Stored, Allowed, Concerns;
      if NothingWaits(j.sys.m, u, a.name, NET) {
        HeardNothing(Allowed(a.flag), Messages(j.sys.m.queue), u, a.name, NET);
      }
    }
  }

  // ---------------------------------------------------------------- the running-lock strategy

  predicate LockAttunedStep(j: Joint, mv: JointMove) {
    mv.ServiceMove? && Delivers(j.sys.m, mv.step) ==>
      LockAttuned(j.sys.proxy, j.sys.m.queue[0].msg, mv.ctx.lockAns, j.world.store)
  }

  predicate LockAttunedRun(j: Joint, run: seq<JointMove>)
    requires ValidJointRun(j, run)
    decreases run
  {
    run == [] || (LockAttunedStep(j, run[0]) && LockAttunedRun(JointNext(j, run[0]), run[1..]))
  }

  lemma StepKeepsLocks(j: Joint, mv: JointMove)
    requires JointInv(j) && JointEnabled(j, mv) && LockAttunedStep(j, mv) && LockInStep(j)
    ensures LockInStep(JointNext(j, mv))
  {
    var r := JointNext(j, mv);
    forall k | k in r.sys.proxy.apps
      ensures InStep(Allowed(r.sys.proxy.apps[k].flag), r, r.sys.proxy.apps[k].uid, r.sys.proxy.apps[k].name, LOCK)
    {
      hide JointInv, JointNext, LockAttunedStep, Allowed, InStep;
      EntryKeepsLock(j, mv, k);
    }
  }

  lemma EntryKeepsLock(j: Joint, mv: JointMove, k: string)
    requires JointInv(j) && JointEnabled(j, mv) && LockAttunedStep(j, mv)
    requires k in j.sys.proxy.apps ==>
               InStep(Allowed(j.sys.proxy.apps[k].flag), j, j.sys.proxy.apps[k].uid, j.sys.proxy.apps[k].name, LOCK)
    requires k in JointNext(j, mv).sys.proxy.apps
    ensures var r := JointNext(j, mv);
            InStep(Allowed(r.sys.proxy.apps[k].flag), r, r.sys.proxy.apps[k].uid, r.sys.proxy.apps[k].name, LOCK)
  {
    var p := j.sys.proxy;
    if mv.StoreMove? {
      hide JointInv, Allowed, InStep;
      StoreKeepsInStep(j, mv.move, Allowed(p.apps[k].flag), p.apps[k].uid, p.apps[k].name, LOCK);
    } else {
      ServiceQueue(j, mv.ctx, mv.step);
      var a := JointNext(j, mv).sys.proxy.apps[k];
      KeysFit(j);
      if Delivers(j.sys.m, mv.step) { LockMark(p, j.sys.m.queue[0].msg, mv.ctx.lockAns, j.world.store, k); }
      var kept := k in p.apps && SameApp(p.apps[k], a);
      var was := k in p.apps && Allowed(p.apps[k].flag);
      BelievesStore(j, a.uid, a.name, LOCK);
      hide JointInv, JointNext, Allowed, InStep, Stored, Next, N.HandleNetMessage, R.HandleMessage, RP.Keyed;
      if kept { ServiceKeepsInStep(j, mv.ctx, mv.step, was, a.uid, a.name, LOCK); }
      ServiceKeepsInStep(j, mv.ctx, mv.step, Stored(j.world.store, a.uid, a.name, LOCK), a.uid, a.name, LOCK);
    }
  }

  lemma KeysFit(j: Joint)
    requires JointInv(j)
    ensures RP.Keyed(j.sys.proxy.apps)
  {
    hide RP.Keyed;
  }

  lemma {:induction false} ExecKeepsLocks(j: Joint, run: seq<JointMove>)
    requires JointInv(j) && LockInStep(j) && ValidJointRun(j, run) && LockAttunedRun(j, run)
    ensures LockInStep(JointExec(j, run))
    decreases run
  {
    if run != [] {
      NextKeepsInv(j, run[0]);
      StepKeepsLocks(j, run[0]);
      hide JointInv, LockInStep, JointNext, LockAttunedStep;
      ExecKeepsLocks(JointNext(j, run[0]), run[1..]);
    }
  }

  /** The same for the running-lock strategy, which takes notices in during maintenance as well. */
  lemma LocksFollowStore(w: A.World, cfg: Config, screenOn: bool, run: seq<JointMove>, k: string)
    requires A.AllowInv(w)
    requires ValidJointRun(JointInitial(w, cfg, screenOn), run) && LockAttunedRun(JointInitial(w, cfg, screenOn), run)
    ensures var j := JointExec(JointInitial(w, cfg, screenOn), run);
            k in j.sys.proxy.apps ==>
              var a := j.sys.proxy.apps[k];
              NothingWaits(j.sys.m, a.uid, a.name, LOCK) ==>
                (Allowed(a.flag) <==> Stored(j.world.store, a.uid, a.name, LOCK))
  {
    var j0 := JointInitial(w, cfg, screenOn);
    InitialInStep(w, cfg, screenOn);
    hide JointInv;
    ExecKeepsLocks(j0, run);
    var j := JointExec(j0, run);
    if k in j.sys.proxy.apps {
      var a := j.sys.proxy.apps[k];
      assert InStep(Allowed(a.flag), j, a.uid, a.name, LOCK);
      hide JointExec, Heard, Stored, Allowed, Concerns;
      if NothingWaits(j.sys.m, a.uid, a.name, LOCK) {
        HeardNothing(Allowed(a.flag), Messages(j.sys.m.queue), a.uid, a.name, LOCK);
      }
    }
  }
}
