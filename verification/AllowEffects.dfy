/** What the callers of the allow store get: the time they ask for, what survives a death, and the
    time left that a listing names. */
module AllowEffects {
  import opened RecordKeys
  import opened AllowRecords
  import opened MaskBits
  import opened AllowStore
  import opened AllowProofs
  import opened AllowListing
  import A = AllowRuns

  // ---------------------------------------------------------------- applying

  /** The request asks for type `i`, and this is for how long, in milliseconds: the work scheduler
      (type 3) as long as it asks, every other type up to its cap. */
  ghost predicate AsksFor(req: Request, i: nat, span: int)
    requires i < |req.caps|
  {
    && HasBit(req.mask, i) && span > 0
    && (if i == 3 then span == req.duration * 1000
        else span <= req.duration * 1000 && span <= req.caps[i] * 1000
             && (span == req.duration * 1000 || span == req.caps[i] * 1000))
  }

  ghost predicate Asks(req: Request, i: nat)
    requires i < |req.caps|
  {
    exists span :: AsksFor(req, i, span)
  }

  lemma GrantsAsks(req: Request, i: nat)
    requires i < |req.caps|
    ensures Grants(req, i) ==> AsksFor(req, i, Span(req, i))
    ensures forall span :: AsksFor(req, i, span) ==> Grants(req, i) && span == Span(req, i)
  {
    hide HasBit;
  }

  /** The only entry of type `i` is this one. */
  ghost predicate OnlyEntry(times: seq<AllowTime>, i: nat, e: AllowTime) {
    forall t: AllowTime :: t.index == i ==> (t in times <==> t == e)
  }

  /** Both lists have the same entries of type `i`. */
  ghost predicate SameEntries(a: seq<AllowTime>, b: seq<AllowTime>, i: nat) {
    forall t: AllowTime :: t.index == i ==> (t in a <==> t in b)
  }

  /** The entry that a renewal to `end` leaves: the later of both ends, and the new reason. */
  ghost predicate Renews(times: seq<AllowTime>, i: nat, end: int, e: AllowTime, reason: string) {
    && e.index == i && e.reason == reason && e.endTime >= end
    && (forall t :: t in times && t.index == i ==> e.endTime >= t.endTime)
    && (e.endTime == end || exists t :: t in times && t.index == i && e.endTime == t.endTime)
  }

  lemma TouchExactly(times: seq<AllowTime>, i: nat, end: int, reason: string)
    requires Distinct(times)
    ensures var touched := Touch(times, i, end, reason);
            && Find(touched, i) < |touched|
            && OnlyEntry(touched, i, touched[Find(touched, i)])
            && Renews(times, i, end, touched[Find(touched, i)], reason)
            && (forall l :: l != i ==> SameEntries(touched, times, l))
  {
    var touched := Touch(times, i, end, reason);
    var k := Find(times, i);
    if k == |times| {
      assert touched[k].index == i && Find(touched, i) == k;
      assert forall t :: t in times ==> t.index != i by { NotFound(times, i); }
    } else {
      assert touched[k].index == i && forall j :: 0 <= j < k ==> touched[j] == times[j];
      assert Find(touched, i) == k && times[k] in times;
      forall t: AllowTime | t.index != i
        ensures t in touched <==> t in times
      {
        if t in times {
          var j :| 0 <= j < |times| && times[j] == t;
          assert touched[j] == t;
        }
      }
      forall t: AllowTime | t in times && t.index == i
        ensures t == times[k]
      {
        var j :| 0 <= j < |times| && times[j] == t;
      }
    }
  }

  lemma NotFound(times: seq<AllowTime>, i: nat)
    requires Find(times, i) == |times|
    ensures forall t :: t in times ==> t.index != i
  {
  }

  /** What the types before `n` have got. */
  ghost predicate Served(times: seq<AllowTime>, after: seq<AllowTime>, req: Request, now: int, n: nat, i: nat)
    requires i < |req.caps|
  {
    if i < n && Grants(req, i)
    then exists e :: OnlyEntry(after, i, e) && Renews(times, i, now + Span(req, i), e, req.reason)
    else SameEntries(after, times, i)
  }

  lemma {:induction false} UpdateServes(mask: bv32, times: seq<AllowTime>, req: Request, now: int, n: nat, i: nat)
    requires Agrees(mask, times) && n <= |req.caps| == TYPES && i < TYPES
    ensures Served(times, UpdateUpTo(mask, times, req, now, n).times, req, now, n, i)
  {
    hide Served, UpdateUpTo, Agrees;
    if n == 0 {
      NoneServed(mask, times, req, now, i);
    } else {
      var u := UpdateUpTo(mask, times, req, now, n - 1);
      UpdateServes(mask, times, req, now, n - 1, i);
      UpdateAgrees(mask, times, req, now, n - 1);
      AgreesDistinct(u.mask, u.times);
      ServesStep(times, u.times, req, now, n - 1, i);
      OneMoreType(mask, times, req, now, n);
    }
  }

  lemma NoneServed(mask: bv32, times: seq<AllowTime>, req: Request, now: int, i: nat)
    requires i < |req.caps|
    ensures Served(times, UpdateUpTo(mask, times, req, now, 0).times, req, now, 0, i)
  {
    hide Grants, Span;
  }

  lemma AgreesDistinct(mask: bv32, times: seq<AllowTime>)
    requires Agrees(mask, times)
    ensures Distinct(times)
  {
    hide UnionMask;
  }

  lemma OneMoreType(mask: bv32, times: seq<AllowTime>, req: Request, now: int, n: nat)
    requires 0 < n <= |req.caps|
    ensures var u := UpdateUpTo(mask, times, req, now, n - 1);
            UpdateUpTo(mask, times, req, now, n).times
            == if Grants(req, n - 1) then Touch(u.times, n - 1, now + Span(req, n - 1), req.reason) else u.times
  {
    hide Grants, Span, Touch, Or, Bit;
  }

  lemma ServesStep(times: seq<AllowTime>, a: seq<AllowTime>, req: Request, now: int, n: nat, i: nat)
    requires Distinct(a) && n < |req.caps| && i < |req.caps| && Served(times, a, req, now, n, i)
    ensures Served(times, if Grants(req, n) then Touch(a, n, now + Span(req, n), req.reason) else a, req, now, n + 1, i)
  {
    if Grants(req, n) {
      var touched := Touch(a, n, now + Span(req, n), req.reason);
      TouchExactly(a, n, now + Span(req, n), req.reason);
      hide Touch, Grants, Span, OnlyEntry, SameEntries, Renews;
      if i == n {
        RenewsSame(times, a, i, now + Span(req, i), touched[Find(touched, i)], req.reason);
      } else {
        hide Served;
        ServedOn(times, a, touched, req, now, n, i);
      }
    }
  }

  lemma RenewsSame(a: seq<AllowTime>, b: seq<AllowTime>, i: nat, end: int, e: AllowTime, reason: string)
    requires SameEntries(b, a, i) && Renews(b, i, end, e, reason)
    ensures Renews(a, i, end, e, reason)
  {
  }

  lemma ServedOn(times: seq<AllowTime>, a: seq<AllowTime>, b: seq<AllowTime>, req: Request, now: int, n: nat, i: nat)
    requires n < |req.caps| && i < |req.caps| && i != n && Served(times, a, req, now, n, i) && SameEntries(b, a, i)
    ensures Served(times, b, req, now, n + 1, i)
  {
    hide Grants, Span;
    if i < n && Grants(req, i) {
      var e :| OnlyEntry(a, i, e) && Renews(times, i, now + Span(req, i), e, req.reason);
      assert OnlyEntry(b, i, e);
    }
  }

  /** The entries of type `i` after the request: the type asked for has one entry, which ends at the
      later of its old end and the end asked for, with the new reason; other types keep theirs. */
  ghost predicate Gives(times: seq<AllowTime>, after: seq<AllowTime>, req: Request, now: int, i: nat)
    requires i < |req.caps|
  {
    if Asks(req, i)
    then exists e, span :: AsksFor(req, i, span) && OnlyEntry(after, i, e) && Renews(times, i, now + span, e, req.reason)
    else SameEntries(after, times, i)
  }

  lemma ServedGives(times: seq<AllowTime>, after: seq<AllowTime>, req: Request, now: int, i: nat)
    requires |req.caps| == TYPES && i < TYPES && Served(times, after, req, now, TYPES, i)
    ensures Gives(times, after, req, now, i)
  {
    GrantsAsks(req, i);
    hide Grants, Span, AsksFor;
    if Grants(req, i) {
      var e :| OnlyEntry(after, i, e) && Renews(times, i, now + Span(req, i), e, req.reason);
      assert AsksFor(req, i, Span(req, i));
    }
  }

  /** The times stored for the application before the request. */
  function TimesBefore(s: Store, req: Request): seq<AllowTime> {
    if Key(req.uid, req.name) in s.records then s.records[Key(req.uid, req.name)].times else []
  }

  /** What a request leaves of each record: the record it names has the pid of the caller, the reason
      code it was made with, and in each type what `Gives` says; it exists exactly if it did or a
      type was asked for with some time; and every other record is as it was. */
  lemma ApplyExactly(s: Store, req: Request, pid: int, now: int, k: string)
    requires RecordsOk(s.records) && |req.caps| == TYPES
    ensures var q := Apply(s, req, pid, now);
            if k != Key(req.uid, req.name)
            then (k in q.records <==> k in s.records) && (k in s.records ==> q.records[k] == s.records[k])
            else && (k in q.records <==> k in s.records || exists i :: 0 <= i < TYPES && Asks(req, i))
                 && (k in q.records ==>
                       var r := q.records[k];
                       && r.uid == req.uid && r.name == req.name && r.pid == pid
                       && r.reasonCode == (if k in s.records then s.records[k].reasonCode else req.reasonCode)
                       && forall i :: 0 <= i < TYPES ==> Gives(TimesBefore(s, req), r.times, req, now, i))
  {
    if k == Key(req.uid, req.name) {
      var r := Base(s, req, pid);
      var u := UpdateUpTo(r.mask, r.times, req, now, TYPES);
      BaseAgrees(s, req, pid);
      UpdateAgrees(r.mask, r.times, req, now, TYPES);
      forall i | 0 <= i < TYPES
        ensures Gives(r.times, u.times, req, now, i)
      {
        UpdateServes(r.mask, r.times, req, now, TYPES, i);
        ServedGives(r.times, u.times, req, now, i);
      }
      ExistsExactly(r.mask, r.times, req, now);
      assert (k in s.records ==> r == s.records[k].(pid := pid))
             && (k !in s.records ==> r == Record(req.uid, pid, req.name, 0, [], req.reasonCode));
      hide Key, UpdateUpTo, Base, Xor, And, FileOf, Gives, Asks, RecordsOk, Agrees, Within;
      assert Apply(s, req, pid, now).records
          == if u.mask == 0 then s.records - {k} else s.records[k := r.(mask := u.mask, times := u.times)];
    } else {
      hide Key, UpdateUpTo, Base, Xor, And, FileOf, RecordsOk;
    }
  }

  /** A mask is left exactly when there was one or a type was asked for. */
  lemma ExistsExactly(mask: bv32, times: seq<AllowTime>, req: Request, now: int)
    requires Agrees(mask, times) && |req.caps| == TYPES
    ensures UpdateUpTo(mask, times, req, now, TYPES).mask != 0
            <==> mask != 0 || exists i :: 0 <= i < TYPES && Asks(req, i)
  {
    var u := UpdateUpTo(mask, times, req, now, TYPES);
    UpdateAgrees(mask, times, req, now, TYPES);
    UnionEmpty(times);
    UnionEmpty(u.times);
    forall i | 0 <= i < TYPES
      ensures Gives(times, u.times, req, now, i)
    {
      UpdateServes(mask, times, req, now, TYPES, i);
      ServedGives(times, u.times, req, now, i);
    }
    hide UpdateUpTo, UnionMask, Asks, AsksFor;
    if i :| 0 <= i < TYPES && Asks(req, i) {
      assert Gives(times, u.times, req, now, i);
    } else {
      forall t: AllowTime | t.index < TYPES
        ensures t in times <==> t in u.times
      {
        assert Gives(times, u.times, req, now, t.index);
      }
      TypedSame(times, u.times);
    }
    MoreEntries(times, u.times, req, now);
  }

  lemma TypedSame(a: seq<AllowTime>, b: seq<AllowTime>)
    requires Typed(a) && Typed(b) && forall t: AllowTime :: t.index < TYPES ==> (t in a <==> t in b)
    ensures a == [] <==> b == []
  {
    if a != [] { assert a[0] in a && a[0].index < TYPES; }
    if b != [] { assert b[0] in b && b[0].index < TYPES; }
  }

  /** An entry of the old list has a successor of its type. */
  lemma MoreEntries(times: seq<AllowTime>, after: seq<AllowTime>, req: Request, now: int)
    requires Typed(times) && |req.caps| == TYPES && forall i :: 0 <= i < TYPES ==> Gives(times, after, req, now, i)
    ensures times != [] ==> after != []
  {
    hide Asks, AsksFor;
    if times != [] {
      var t := times[0];
      assert t in times && Gives(times, after, req, now, t.index);
    }
  }

  // ---------------------------------------------------------------- the death of an application

  /** A death takes every type but timer (2) and work scheduler (3); a reset takes all. */
  lemma DeathTakes(i: nat)
    requires i < TYPES
    ensures HasBit(DeathMask(false), i) <==> i != 2 && i != 3
    ensures HasBit(DeathMask(true), i)
  {
  }

  /** What the death of an application leaves: exactly its permissions for timer and work scheduler,
      and no record when it has none; a reset leaves no record. */
  lemma DeathExactly(s: Store, uid: int, name: string, resetAll: bool, now: int)
    requires RecordsOk(s.records) && Key(uid, name) in s.records
    ensures var k := Key(uid, name);
            var r, q := s.records[k], Unapply(s, uid, name, DeathMask(resetAll), true, now);
            && (k in q.records <==> !resetAll && exists t :: t in r.times && (t.index == 2 || t.index == 3))
            && (k in q.records ==>
                  forall t :: t in q.records[k].times <==> t in r.times && (t.index == 2 || t.index == 3))
  {
    var k := Key(uid, name);
    var r := s.records[k];
    UnapplyExactly(s, uid, name, DeathMask(resetAll), true, now, k);
    KeptExactly(r.times, DeathMask(resetAll), true, now);
    forall t | t in r.times
      ensures Takes(t, DeathMask(resetAll), true, now) <==> resetAll || (t.index != 2 && t.index != 3)
    {
      TypedEntry(r, t);
      DeathTakes(t.index);
      hide HasBit, DeathMask;
    }
    hide Key, RecordsOk, Kept, Unapply, UnionMask, Takes, DeathMask;
    var kept := Kept(r.times, DeathMask(resetAll), true, now);
    if kept != [] { assert kept[0] in kept; }
  }

  lemma TypedEntry(r: Record, t: AllowTime)
    requires RecordOk(r) && t in r.times
    ensures t.index < TYPES
  {
    hide UnionMask;
  }

  // ---------------------------------------------------------------- the time left in a listing

  /** The time left of a running entry of type `i`, which is told exactly below 2^31 ms. */
  predicate IsTimeLeft(times: seq<AllowTime>, i: nat, now: int, duration: int) {
    exists e :: e in times && e.index == i && e.endTime > now
             && (e.endTime - now < 0x8000_0000 ==> duration == e.endTime - now)
  }

  /** A listed record is named with a running entry of its type and the time left in it. */
  lemma ListedIsTimeLeft(records: map<string, Record>, i: nat, reasonCode: int, now: int, k: string)
    requires k in Listing(records, i, reasonCode, now)
    ensures var info, r := Listing(records, i, reasonCode, now)[k], records[k];
            info.mask == Bit(i) && info.name == r.name && IsTimeLeft(r.times, i, now, info.duration)
  {
    hide Bit, InfoOf, Active, IsTimeLeft;
    InfoIsTimeLeft(records[k], i, reasonCode, now);
  }

  lemma InfoIsTimeLeft(r: Record, i: nat, reasonCode: int, now: int)
    requires Active(r, i, reasonCode, now)
    ensures var info := InfoOf(r, i, now);
            info.mask == Bit(i) && info.name == r.name && IsTimeLeft(r.times, i, now, info.duration)
  {
    var e := r.times[Find(r.times, i)];
    assert e in r.times && e.index == i && e.endTime > now by { hide Bit, HasBit; }
    NarrowKeeps(e.endTime - now);
    hide HasBit, Bit, AsInt32, Active;
  }

  lemma NarrowKeeps(n: int)
    ensures 0 <= n < 0x8000_0000 ==> AsInt32(n) == n
  {
  }

  /** In every run within limits below 2^31 ms, the duration listed for a type other than the work
      scheduler is positive and at most its limit. */
  lemma ListedWithinLimits(run: seq<A.AllowMove>, limits: seq<int>, i: nat, reasonCode: int, k: string)
    requires A.ValidAllowRun(A.EMPTY_WORLD, run) && |limits| == TYPES && A.LimitedRun(run, limits)
    requires i < TYPES && i != 3 && limits[i] * 1000 < 0x8000_0000
    requires var w := A.AllowExec(A.EMPTY_WORLD, run); k in Listing(w.store.records, i, reasonCode, w.now)
    ensures var w := A.AllowExec(A.EMPTY_WORLD, run);
            0 < Listing(w.store.records, i, reasonCode, w.now)[k].duration <= limits[i] * 1000
  {
    var w := A.AllowExec(A.EMPTY_WORLD, run);
    A.EmptyWorldHolds();
    A.AllowExecKeeps(A.EMPTY_WORLD, run);
    assert RecordsOk(w.store.records) by { hide RecordsOk; }
    ListedIsTimeLeft(w.store.records, i, reasonCode, w.now, k);
    var r := w.store.records[k];
    var info := Listing(w.store.records, i, reasonCode, w.now)[k];
    hide RecordsOk, A.AllowInv, A.AllowExec, Listing;
    var e :| e in r.times && e.index == i && e.endTime > w.now
             && (e.endTime - w.now < 0x8000_0000 ==> info.duration == e.endTime - w.now);
    A.TimeLeftIsCapped(run, limits, k, e);
    hide A.ValidAllowRun, A.LimitedRun;
  }

  /** The entry of a configured name, which never ends. */
  predicate IsPermanent(info: AllowInfo, i: nat, names: set<string>) {
    info.mask == Bit(i) && info.name in names && info.duration == -1
  }

  /** The entry of a record that runs out within the limit. */
  predicate RunsOut(info: AllowInfo, i: nat, limit: int, records: map<string, Record>, now: int) {
    && info.mask == Bit(i) && 0 < info.duration <= limit * 1000
    && exists k :: k in records && info.name == records[k].name && IsTimeLeft(records[k].times, i, now, info.duration)
  }

  /** In every run within limits below 2^31 ms, the duration of an answered entry tells its kind: a
      configured name is listed with -1, a record with the time left, which is positive. */
  lemma DurationTellsKind(run: seq<A.AllowMove>, limits: seq<int>, i: nat, mask: bv32, reasonCode: int,
                          names: set<string>, part: seq<AllowInfo>, info: AllowInfo)
    requires A.ValidAllowRun(A.EMPTY_WORLD, run) && |limits| == TYPES && A.LimitedRun(run, limits)
    requires i < TYPES && i != 3 && limits[i] * 1000 < 0x8000_0000
    requires var w := A.AllowExec(A.EMPTY_WORLD, run); AnswersType(part, w.store.records, i, mask, reasonCode, w.now, names)
    requires info in part
    ensures var w := A.AllowExec(A.EMPTY_WORLD, run);
            IsPermanent(info, i, names) || RunsOut(info, i, limits[i], w.store.records, w.now)
  {
    var w := A.AllowExec(A.EMPTY_WORLD, run);
    var listing := Listing(w.store.records, i, reasonCode, w.now);
    assert listing.Keys <= w.store.records.Keys;
    hide HasBit, A.ValidAllowRun, A.LimitedRun, A.AllowExec, Listing, Bit;
    AnswerKinds(part, w.store.records, i, mask, reasonCode, w.now, names, info);
    if k :| k in listing && info == listing[k] {
      ListedWithinLimits(run, limits, i, reasonCode, k);
      ListedIsTimeLeft(w.store.records, i, reasonCode, w.now, k);
    }
  }

  lemma AnswerKinds(part: seq<AllowInfo>, records: map<string, Record>, i: nat, mask: bv32, reasonCode: int,
                    now: int, names: set<string>, info: AllowInfo)
    requires AnswersType(part, records, i, mask, reasonCode, now, names) && info in part
    ensures var listing := Listing(records, i, reasonCode, now);
            IsPermanent(info, i, names) || exists k :: k in listing && info == listing[k]
  {
    hide HasBit, Listing, Bit;
    var temporary, keys, lasting, order :|
      && part == temporary + lasting
      && Lists(temporary, keys, Listing(records, i, reasonCode, now))
      && Lists(lasting, order, Persistent(i, names));
    if info in temporary {
      var j :| 0 <= j < |temporary| && temporary[j] == info;
      assert keys[j] in keys;
    } else {
      var j :| 0 <= j < |lasting| && lasting[j] == info;
      assert order[j] in order && order[j] in Persistent(i, names);
    }
  }
}
