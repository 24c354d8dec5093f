/** The allow store and the service in one run: the store's notices travel through the handler
    queue to the strategies, whose tables also take marks from lists asked for at other times.
    When both tell the same, a tracked application carries the mark of an allowed one exactly when
    the store allows it. */
module AllowSync {
  import opened StandbyTypes
  import opened RecordKeys
  import A = AllowRuns
  import Store = AllowStore
  import P = AllowProofs
  import M = MaskBits

  // ---------------------------------------------------------------- what waiting notices will tell

  predicate Bears(mask: bv32, kind: bv32) {
    mask & kind != 0
  }

  /** The message changes the permission `kind` of the application. */
  predicate Concerns(msg: Message, uid: int, name: string, kind: bv32) {
    msg.AllowListChanged? && msg.uid == uid && msg.name == name && Bears(msg.allowType, kind)
  }

  /** What a listener who believes `b` believes after one message. */
  function After(b: bool, msg: Message, uid: int, name: string, kind: bv32): bool {
    if Concerns(msg, uid, name, kind) then msg.added else b
  }

  /** What a listener who believes `b` will believe after the messages. */
  function Heard(b: bool, msgs: seq<Message>, uid: int, name: string, kind: bv32): bool
    decreases |msgs|
  {
    if msgs == [] then b else Heard(After(b, msgs[0], uid, name, kind), msgs[1..], uid, name, kind)
  }

  lemma {:induction false} HeardConcat(b: bool, x: seq<Message>, y: seq<Message>, uid: int, name: string, kind: bv32)
    ensures Heard(b, x + y, uid, name, kind) == Heard(Heard(b, x, uid, name, kind), y, uid, name, kind)
    decreases |x|
  {
    hide After;
    if x == [] {
      assert x + y == y;
    } else {
      assert (x + y)[0] == x[0] && (x + y)[1..] == x[1..] + y;
      HeardConcat(After(b, x[0], uid, name, kind), x[1..], y, uid, name, kind);
    }
  }

  /** Messages decide what is believed, or leave every belief as it was. */
  lemma {:induction false} HeardDecides(a: bool, b: bool, msgs: seq<Message>, uid: int, name: string, kind: bv32)
    ensures || Heard(a, msgs, uid, name, kind) == Heard(b, msgs, uid, name, kind)
            || (Heard(a, msgs, uid, name, kind) == a && Heard(b, msgs, uid, name, kind) == b)
  {
    hide Concerns;
    if msgs != [] && !Concerns(msgs[0], uid, name, kind) {
      HeardDecides(a, b, msgs[1..], uid, name, kind);
    }
  }

  /** Messages that do not concern the application change nothing. */
  lemma {:induction false} HeardNothing(b: bool, msgs: seq<Message>, uid: int, name: string, kind: bv32)
    requires forall msg :: msg in msgs ==> !Concerns(msg, uid, name, kind)
    ensures Heard(b, msgs, uid, name, kind) == b
  {
    hide Concerns;
    if msgs != [] {
      assert msgs[0] in msgs;
      HeardNothing(b, msgs[1..], uid, name, kind);
    }
  }

  lemma HeardOne(b: bool, msg: Message, uid: int, name: string, kind: bv32)
    ensures Heard(b, [msg], uid, name, kind) == After(b, msg, uid, name, kind)
  {
    hide After;
    assert [msg][1..] == [];
  }

  // ---------------------------------------------------------------- what the store tells

  /** The bit of network or running lock. */
  predicate IsKind(kind: bv32) {
    kind == 1 || kind == 2
  }

  /** The store allows the application this permission. */
  predicate Stored(s: Store.Store, uid: int, name: string, kind: bv32) {
    Bears(A.MaskOf(s.records, uid, name), kind)
  }

  function Telling(n: Store.Notice): Message {
    AllowListChanged(n.uid, n.name, n.mask, n.added)
  }

  lemma AddedBit(before: bv32, after: bv32, kind: bv32)
    requires IsKind(kind) && M.Within(before, after)
    ensures if Bears(M.Minus(after, before), kind) then Bears(after, kind)
            else Bears(after, kind) == Bears(before, kind)
  {
  }

  lemma RemovedBit(before: bv32, after: bv32, kind: bv32)
    requires IsKind(kind) && M.Within(after, before)
    ensures if Bears(M.Minus(before, after), kind) then !Bears(after, kind)
            else Bears(after, kind) == Bears(before, kind)
  {
  }

  /** One application's change of mask is told exactly, for each permission. */
  lemma NoticeTells(s: Store.Store, r: Store.Store, uid: int, name: string, kind: bv32)
    requires A.Announces(s, r, uid, name) && IsKind(kind) && |r.notices| == |s.notices| + 1
    ensures Stored(r, uid, name, kind)
         == After(Stored(s, uid, name, kind), Telling(r.notices[|s.notices|]), uid, name, kind)
  {
    hide A.MaskOf, Bears, M.Minus, M.Within, IsKind;
    var before, after := A.MaskOf(s.records, uid, name), A.MaskOf(r.records, uid, name);
    if r.notices[|s.notices|].added { AddedBit(before, after, kind); } else { RemovedBit(before, after, kind); }
  }

  /** The messages of the notices sent between `s` and `r`. */
  function Tidings(s: Store.Store, r: Store.Store): seq<Message> {
    if |r.notices| <= |s.notices| then [] else [Telling(r.notices[|s.notices|])]
  }

  /** A step of the store sends one notice at most, and what it sends tells what it changed. */
  ghost predicate Tells(s: Store.Store, r: Store.Store) {
    && s.notices <= r.notices && |r.notices| <= |s.notices| + 1
    && forall uid, name, kind :: IsKind(kind) ==>
         Stored(r, uid, name, kind) == Heard(Stored(s, uid, name, kind), Tidings(s, r), uid, name, kind)
  }

  lemma AnnouncesTells(s: Store.Store, r: Store.Store, uid: int, name: string)
    requires A.Announces(s, r, uid, name) && A.OnlyChanges(s, r, Key(uid, name))
    ensures Tells(s, r)
  {
    forall u, n, kind | IsKind(kind)
      ensures Stored(r, u, n, kind) == Heard(Stored(s, u, n, kind), Tidings(s, r), u, n, kind)
    {
      TellsOne(s, r, uid, name, u, n, kind);
    }
    hide A.OnlyChanges, A.MaskOf, Key, Stored, Heard, Tidings;
  }

  lemma TellsOne(s: Store.Store, r: Store.Store, uid: int, name: string, u: int, n: string, kind: bv32)
    requires A.Announces(s, r, uid, name) && A.OnlyChanges(s, r, Key(uid, name)) && IsKind(kind)
    ensures Stored(r, u, n, kind) == Heard(Stored(s, u, n, kind), Tidings(s, r), u, n, kind)
  {
    var other := u != uid || n != name;
    if other { A.OthersSame(s, r, uid, name, u, n); }
    hide A.OnlyChanges, A.MaskOf, Key;
    if |r.notices| > |s.notices| {
      NoticeTells(s, r, uid, name, kind);
      HeardOne(Stored(s, u, n, kind), Tidings(s, r)[0], u, n, kind);
    }
    hide Heard;
  }

  /** Every step of the store. */
  lemma StoreTells(w: A.World, m: A.AllowMove)
    requires A.AllowInv(w) && A.AllowEnabled(w, m)
    ensures Tells(w.store, A.AllowNext(w, m).store)
  {
    hide Tells, Store.Apply, Store.Unapply, A.Announces, A.OnlyChanges, A.Covered;
    var s := w.store;
    match m.step
    case ApplyStep(req, pid) =>
      A.ApplyAnnounces(s, req, pid, m.now);
      A.ApplyOthers(s, req, pid, m.now);
      AnnouncesTells(s, Store.Apply(s, req, pid, m.now), req.uid, req.name);
    case UnapplyStep(uid, name, mask) => UnapplyTells(s, uid, name, mask, true, m.now);
    case SweepStep(j) =>
      var t := s.tasks[j];
      UnapplyTells(s.(tasks := s.tasks[..j] + s.tasks[j + 1..]), t.uid, t.name, t.mask, false, m.now);
      SameTells(s, s.(tasks := s.tasks[..j] + s.tasks[j + 1..]), Store.RunSweep(s, j, m.now));
    case ExtraSweep(uid, name, mask) => UnapplyTells(s, uid, name, mask, false, m.now);
  }

  lemma UnapplyTells(s: Store.Store, uid: int, name: string, mask: bv32, removeAll: bool, now: int)
    requires P.RecordsOk(s.records)
    ensures Tells(s, Store.Unapply(s, uid, name, mask, removeAll, now))
  {
    A.UnapplyAnnounces(s, uid, name, mask, removeAll, now);
    A.UnapplyOthers(s, uid, name, mask, removeAll, now);
    hide Tells, Store.Unapply, A.Announces, A.OnlyChanges, P.RecordsOk;
    AnnouncesTells(s, Store.Unapply(s, uid, name, mask, removeAll, now), uid, name);
  }

  lemma SameTells(s: Store.Store, q: Store.Store, r: Store.Store)
    requires q.records == s.records && q.notices == s.notices && Tells(q, r)
    ensures Tells(s, r)
  {
    assert Tidings(s, r) == Tidings(q, r);
    assert forall uid, name, kind :: Stored(s, uid, name, kind) == Stored(q, uid, name, kind);
    hide Heard, Stored, Tidings;
  }
}
