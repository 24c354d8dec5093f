/** What the allow store keeps: masks and lists agree, notices tell the whole story, every entry
    is going to be swept, and the file mirrors the map. */
module AllowProofs {
  import opened RecordKeys
  import opened AllowRecords
  import opened AllowStore
  import opened MaskBits

  // ---------------------------------------------------------------- masks and lists

  /** The union of the bits of the entries. */
  function UnionMask(times: seq<AllowTime>): bv32 {
    if times == [] then 0 else Or(UnionMask(times[..|times| - 1]), Bit(times[|times| - 1].index))
  }

  predicate Distinct(times: seq<AllowTime>) {
    forall j, k :: 0 <= j < k < |times| ==> times[j].index != times[k].index
  }

  predicate Typed(times: seq<AllowTime>) {
    forall j :: 0 <= j < |times| ==> times[j].index < TYPES
  }

  /** The mask is the union of the bits of a duplicate-free list. */
  predicate Agrees(mask: bv32, times: seq<AllowTime>) {
    Distinct(times) && Typed(times) && mask == UnionMask(times)
  }

  lemma {:induction false} UnionHas(times: seq<AllowTime>, i: nat)
    requires Typed(times) && i < TYPES
    ensures HasBit(UnionMask(times), i) <==> Find(times, i) < |times|
  {
    if times == [] {
    } else {
      var before, t := times[..|times| - 1], times[|times| - 1];
      UnionHas(before, i);
      OrHas(UnionMask(before), Bit(t.index), i);
      BitHas(t.index, i);
      hide HasBit, Bit, Or;
      FindLast(times, i);
    }
  }

  lemma FindLast(times: seq<AllowTime>, i: nat)
    requires times != []
    ensures var before := times[..|times| - 1];
            Find(times, i) < |times| <==> Find(before, i) < |before| || times[|times| - 1].index == i
  {
    var before := times[..|times| - 1];
    var k := Find(times, i);
    assert forall j :: 0 <= j < |before| ==> before[j] == times[j];
    if k < |before| { assert before[k].index == i; }
  }

  /** The union depends on the types only. */
  lemma {:induction false} UnionSame(a: seq<AllowTime>, b: seq<AllowTime>)
    requires |a| == |b| && forall j :: 0 <= j < |a| ==> a[j].index == b[j].index
    ensures UnionMask(a) == UnionMask(b)
  {
    if a == [] {
    } else {
      UnionSame(a[..|a| - 1], b[..|b| - 1]);
    }
  }

  lemma UnionSnoc(times: seq<AllowTime>, t: AllowTime)
    ensures UnionMask(times + [t]) == Or(UnionMask(times), Bit(t.index))
  {
    assert (times + [t])[..|times|] == times;
  }

  /** A type that is listed is in the union already. */
  lemma UnionAbsorbs(times: seq<AllowTime>, i: nat)
    requires Typed(times) && i < TYPES && Find(times, i) < |times|
    ensures Or(UnionMask(times), Bit(i)) == UnionMask(times)
  {
    UnionHas(times, i);
    SingleBit(UnionMask(times), i);
  }

  lemma TouchAgrees(mask: bv32, times: seq<AllowTime>, i: nat, end: int, reason: string)
    requires Agrees(mask, times) && i < TYPES
    ensures Agrees(Or(mask, Bit(i)), Touch(times, i, end, reason))
  {
    hide Or, Bit;
    var k := Find(times, i);
    if k == |times| {
      UnionSnoc(times, AllowTime(i, end, reason));
    } else {
      UnionAbsorbs(times, i);
      UnionSame(times, Touch(times, i, end, reason));
    }
  }

  lemma {:induction false} UpdateAgrees(mask: bv32, times: seq<AllowTime>, req: Request, now: int, n: nat)
    requires Agrees(mask, times) && n <= |req.caps| == TYPES
    ensures var u := UpdateUpTo(mask, times, req, now, n);
            Agrees(u.mask, u.times) && Within(mask, u.mask)
  {
    hide Or, Bit, HasBit, Agrees, Touch, Within;
    if n == 0 {
      WithinItself(mask);
    } else {
      var u := UpdateUpTo(mask, times, req, now, n - 1);
      UpdateAgrees(mask, times, req, now, n - 1);
      TouchAgrees(u.mask, u.times, n - 1, now + Span(req, n - 1), req.reason);
      WithinOr(u.mask, Bit(n - 1));
      WithinTrans(mask, u.mask, Or(u.mask, Bit(n - 1)));
    }
  }

  /** Taking entries out of a list takes exactly their bits out of its union. */
  lemma {:induction false} KeptAgrees(times: seq<AllowTime>, mask: bv32, removeAll: bool, now: int)
    requires Distinct(times) && Typed(times)
    ensures var kept := Kept(times, mask, removeAll, now);
            var removed := Removed(times, mask, removeAll, now);
            && UnionMask(kept) == Minus(UnionMask(times), removed)
            && Within(removed, UnionMask(times))
  {
    if times == [] {
    } else {
      var before, t := times[..|times| - 1], times[|times| - 1];
      KeptAgrees(before, mask, removeAll, now);
      var kept := Kept(before, mask, removeAll, now);
      var removed := Removed(before, mask, removeAll, now);
      NotAgain(times);
      SingleBit(mask, t.index);
      UnionSnoc(kept, t);
      var rest := UnionMask(before);
      KeepBit(rest, removed, Bit(t.index));
      DropBit(rest, removed, Bit(t.index));
      WithinMore(removed, rest, Bit(t.index));
      WithinBoth(removed, rest, Bit(t.index));
      hide Or, And, Minus, Bit, HasBit, Within;
    }
  }

  lemma NotAgain(times: seq<AllowTime>)
    requires times != [] && Distinct(times) && Typed(times)
    ensures var before := times[..|times| - 1];
            Distinct(before) && Typed(before) && And(UnionMask(before), Bit(times[|times| - 1].index)) == 0
  {
    var before, t := times[..|times| - 1], times[|times| - 1];
    UnionHas(before, t.index);
    SingleBit(UnionMask(before), t.index);
    hide HasBit, And, Bit, Or;
    assert Find(before, t.index) == |before| by {
      assert forall j :: 0 <= j < |before| ==> before[j] == times[j];
    }
  }

  /** The kept entries in order, exactly those that the call does not take. */
  lemma {:induction false} KeptExactly(times: seq<AllowTime>, mask: bv32, removeAll: bool, now: int)
    ensures var kept := Kept(times, mask, removeAll, now);
            && (forall t :: t in kept <==> t in times && !Takes(t, mask, removeAll, now))
            && (Distinct(times) ==> Distinct(kept)) && (Typed(times) ==> Typed(kept))
  {
    if times == [] {
    } else {
      var before, t := times[..|times| - 1], times[|times| - 1];
      assert times == before + [t];
      KeptExactly(before, mask, removeAll, now);
      hide Takes;
      KeptShape(before, t, Kept(before, mask, removeAll, now));
    }
  }

  lemma KeptShape(before: seq<AllowTime>, t: AllowTime, kept: seq<AllowTime>)
    requires forall x :: x in kept ==> x in before
    requires Distinct(before) ==> Distinct(kept)
    requires Typed(before) ==> Typed(kept)
    ensures Distinct(before + [t]) ==> Distinct(kept) && Distinct(kept + [t])
    ensures Typed(before + [t]) ==> Typed(kept) && Typed(kept + [t])
  {
    var times := before + [t];
    assert forall j :: 0 <= j < |before| ==> before[j] == times[j];
    assert times[|before|] == t;
    if Distinct(times) {
      assert Distinct(before);
      forall j | 0 <= j < |kept|
        ensures kept[j].index != t.index
      {
        assert kept[j] in kept;
        var i :| 0 <= i < |before| && before[i] == kept[j];
        assert times[i].index != times[|before|].index;
      }
    }
    if Typed(times) {
      assert Typed(before);
      assert times[|before|].index < TYPES;
    }
  }

  lemma {:induction false} UnionEmpty(times: seq<AllowTime>)
    requires Typed(times)
    ensures UnionMask(times) == 0 <==> times == []
  {
    if times != [] {
      var t := times[|times| - 1];
      BitHas(t.index, t.index);
      OrHas(UnionMask(times[..|times| - 1]), Bit(t.index), t.index);
    }
  }

  // ---------------------------------------------------------------- the records

  predicate RecordOk(r: Record) {
    r.mask != 0 && Agrees(r.mask, r.times)
  }

  predicate RecordsOk(records: map<string, Record>) {
    forall k :: k in records ==> RecordOk(records[k]) && k == Key(records[k].uid, records[k].name)
  }

  lemma BaseAgrees(s: Store, req: Request, pid: int)
    requires RecordsOk(s.records)
    ensures var r := Base(s, req, pid);
            && Agrees(r.mask, r.times) && r.uid == req.uid && r.name == req.name
            && (Key(req.uid, req.name) in s.records <==> r.mask != 0)
  {
    var k := Key(req.uid, req.name);
    if k in s.records { KeyIsInjective(req.uid, req.name, s.records[k].uid, s.records[k].name); }
    hide Key, Or, Bit;
  }

  lemma ApplyKeepsRecords(s: Store, req: Request, pid: int, now: int)
    requires RecordsOk(s.records) && |req.caps| == TYPES
    ensures RecordsOk(Apply(s, req, pid, now).records)
  {
    var r := Base(s, req, pid);
    BaseAgrees(s, req, pid);
    UpdateAgrees(r.mask, r.times, req, now, TYPES);
    hide Key, Agrees, UpdateUpTo, Base, Within, Xor, And, FileOf;
  }

  /** What an effective removal does to the record it finds. */
  lemma RemovalAgrees(r: Record, mask: bv32, removeAll: bool, now: int)
    requires RecordOk(r)
    ensures var removed := Removed(r.times, mask, removeAll, now);
            var kept := Kept(r.times, mask, removeAll, now);
            && Within(removed, r.mask)
            && Subtract(r.mask, removed) == Minus(r.mask, removed) == UnionMask(kept)
            && (removed == r.mask <==> kept == [])
            && (removed != r.mask ==> RecordOk(r.(mask := Subtract(r.mask, removed), times := kept)))
            && (removed == 0 <==> kept == r.times)
  {
    var removed := Removed(r.times, mask, removeAll, now);
    var kept := Kept(r.times, mask, removeAll, now);
    KeptAgrees(r.times, mask, removeAll, now);
    KeptExactly(r.times, mask, removeAll, now);
    SubtractIsMinus(r.mask, removed);
    MinusNothing(r.mask, removed);
    UnionEmpty(kept);
    NothingRemoved(r.times, mask, removeAll, now);
    hide Minus, Subtract, Within, UnionMask, Kept, Removed, Takes;
  }

  lemma {:induction false} NothingRemoved(times: seq<AllowTime>, mask: bv32, removeAll: bool, now: int)
    requires Typed(times)
    ensures |Kept(times, mask, removeAll, now)| <= |times|
    ensures Removed(times, mask, removeAll, now) == 0 <==> Kept(times, mask, removeAll, now) == times
  {
    if times == [] {
    } else {
      var before, t := times[..|times| - 1], times[|times| - 1];
      assert times == before + [t];
      NothingRemoved(before, mask, removeAll, now);
      var removed := Removed(before, mask, removeAll, now);
      SingleBit(mask, t.index);
      BitHas(t.index, t.index);
      OrZero(removed, Bit(t.index));
      hide Or, And, Bit, HasBit;
    }
  }

  /** The early return: a mask without a common bit takes no entry. */
  lemma NoBitNoTake(r: Record, mask: bv32, removeAll: bool, now: int)
    requires RecordOk(r)
    ensures And(mask, r.mask) == 0 ==> forall t :: t in r.times ==> !Takes(t, mask, removeAll, now)
  {
    if And(mask, r.mask) == 0 {
      forall t | t in r.times
        ensures !HasBit(mask, t.index)
      {
        var k :| 0 <= k < |r.times| && r.times[k] == t;
        assert Find(r.times, t.index) < |r.times|;
        UnionHas(r.times, t.index);
        CommonBit(mask, r.mask, t.index);
      }
      hide HasBit;
    }
  }

  lemma CommonBit(a: bv32, b: bv32, i: nat)
    requires And(a, b) == 0 && HasBit(b, i)
    ensures !HasBit(a, i)
  {
  }

  lemma {:induction false} KeptAll(times: seq<AllowTime>, mask: bv32, removeAll: bool, now: int)
    requires forall t :: t in times ==> !Takes(t, mask, removeAll, now)
    ensures Kept(times, mask, removeAll, now) == times
  {
    if times != [] {
      var before := times[..|times| - 1];
      assert times == before + [times[|times| - 1]];
      hide Takes;
      KeptAll(before, mask, removeAll, now);
    }
  }

  /** What a call leaves of each record: of the one it names the entries it does not take, of the
      others everything; and a record goes exactly when its last entry does. */
  lemma UnapplyExactly(s: Store, uid: int, name: string, mask: bv32, removeAll: bool, now: int, k: string)
    requires RecordsOk(s.records) && k in s.records
    ensures var q := Unapply(s, uid, name, mask, removeAll, now);
            var r := s.records[k];
            var kept := Kept(r.times, mask, removeAll, now);
            if k != Key(uid, name) then k in q.records && q.records[k] == r
            else (k in q.records <==> kept != [])
                 && (kept != [] ==> q.records[k] == r.(mask := UnionMask(kept), times := kept))
  {
    if k == Key(uid, name) {
      var r := s.records[k];
      hide Key, RecordsOk;
      NothingCommon(r, mask, removeAll, now);
      RemovalAgrees(r, mask, removeAll, now);
      NotBare(r);
      UnapplyNamed(s, uid, name, mask, removeAll, now);
      hide RecordOk, Kept, Removed, And, Minus, Subtract, Within, UnionMask, FileOf, Unapply;
    } else {
      hide Key, RecordsOk, RecordOk, Kept, Removed, And, Subtract, FileOf;
    }
  }

  lemma NothingCommon(r: Record, mask: bv32, removeAll: bool, now: int)
    requires RecordOk(r)
    ensures And(mask, r.mask) == 0 ==> Removed(r.times, mask, removeAll, now) == 0
  {
    if And(mask, r.mask) == 0 {
      NoBitNoTake(r, mask, removeAll, now);
      KeptAll(r.times, mask, removeAll, now);
      hide UnionMask, And, Removed, Kept;
      NothingRemoved(r.times, mask, removeAll, now);
    }
  }

  lemma NotBare(r: Record)
    requires RecordOk(r)
    ensures r.times != [] && r.mask == UnionMask(r.times) && r == r.(mask := r.mask, times := r.times)
  {
    UnionEmpty(r.times);
    hide UnionMask;
  }

  /** The record that a call names, by what it removes. */
  lemma UnapplyNamed(s: Store, uid: int, name: string, mask: bv32, removeAll: bool, now: int)
    requires var k := Key(uid, name);
             k in s.records && (And(mask, s.records[k].mask) == 0 ==> Removed(s.records[k].times, mask, removeAll, now) == 0)
    ensures var k := Key(uid, name);
            var r := s.records[k];
            var removed := Removed(r.times, mask, removeAll, now);
            var q := Unapply(s, uid, name, mask, removeAll, now);
            if removed == 0 then q == s
            else if removed == r.mask then k !in q.records
            else k in q.records
                 && q.records[k] == r.(mask := Subtract(r.mask, removed), times := Kept(r.times, mask, removeAll, now))
  {
    hide Key, Kept, Removed, And, Subtract, FileOf;
  }

  lemma UnapplyKeepsRecords(s: Store, uid: int, name: string, mask: bv32, removeAll: bool, now: int)
    requires RecordsOk(s.records)
    ensures RecordsOk(Unapply(s, uid, name, mask, removeAll, now).records)
  {
    var k := Key(uid, name);
    if k in s.records {
      RemovalAgrees(s.records[k], mask, removeAll, now);
      hide Key, RecordOk, Kept, Removed, And, Minus, Subtract, Within, UnionMask, FileOf;
    }
  }
}
