/** What the allow store answers: who is allowed now, and who is to be restricted. */
module AllowListing {
  import opened RecordKeys
  import opened AllowRecords
  import opened MaskBits
  import opened AllowStore
  import opened AllowProofs

  /** A running permission of type `i`. */
  predicate RunsOn(times: seq<AllowTime>, i: nat, now: int) {
    exists e :: e in times && e.index == i && e.endTime > now
  }

  lemma FindEntry(times: seq<AllowTime>, e: AllowTime)
    requires Distinct(times) && e in times
    ensures Find(times, e.index) < |times| && times[Find(times, e.index)] == e
  {
    var j :| 0 <= j < |times| && times[j] == e;
    var k := Find(times, e.index);
    assert k <= j < |times| && times[k].index == times[j].index;
  }

  /** A well-formed record is active for a type exactly when an entry of that type has not ended:
      the mask test and the first match never decide otherwise. */
  lemma ActiveExactly(r: Record, i: nat, reasonCode: int, now: int)
    requires RecordOk(r) && i < TYPES
    ensures Active(r, i, reasonCode, now) <==> r.reasonCode == reasonCode && RunsOn(r.times, i, now)
  {
    UnionHas(r.times, i);
    hide HasBit, UnionMask;
    if RunsOn(r.times, i, now) {
      var e :| e in r.times && e.index == i && e.endTime > now;
      FindEntry(r.times, e);
    }
    var k := Find(r.times, i);
    if k < |r.times| { assert r.times[k] in r.times; }
  }

  /** A permission asked for is either listed or handed to a sweep: the second exactly when every
      entry of its type has ended. */
  lemma ListedOrSwept(r: Record, i: nat, reasonCode: int, now: int)
    requires RecordOk(r) && i < TYPES && HasBit(r.mask, i) && r.reasonCode == reasonCode
    ensures Active(r, i, reasonCode, now) <==> !Ended(r, i, reasonCode, now)
    ensures Ended(r, i, reasonCode, now) <==> forall e :: e in r.times && e.index == i ==> e.endTime <= now
  {
    ActiveExactly(r, i, reasonCode, now);
    UnionHas(r.times, i);
    hide HasBit, UnionMask;
    var e :| e in r.times && e.index == i;
    FindEntry(r.times, e);
  }

  // ---------------------------------------------------------------- lazy and eager

  /** A sweep at `now` takes nothing that is still running, and changes no running entry. */
  lemma SweepKeepsActive(r: Record, mask: bv32, i: nat, reasonCode: int, now: int)
    requires RecordOk(r) && i < TYPES
    ensures var kept := Kept(r.times, mask, false, now);
            && (RunsOn(kept, i, now) <==> RunsOn(r.times, i, now))
            && (RunsOn(kept, i, now) ==>
                  && Find(kept, i) < |kept| && Find(r.times, i) < |r.times|
                  && kept[Find(kept, i)] == r.times[Find(r.times, i)])
  {
    var kept := Kept(r.times, mask, false, now);
    KeptExactly(r.times, mask, false, now);
    hide Kept, UnionMask;
    if RunsOn(r.times, i, now) {
      var e :| e in r.times && e.index == i && e.endTime > now;
      assert !Takes(e, mask, false, now) by { hide HasBit; }
      hide Takes;
      FindEntry(r.times, e);
      FindEntry(kept, e);
    }
  }

  /** One sweep, whatever it asks for, does not change the listing at that time. */
  lemma ListingIgnoresSweep(s: Store, uid: int, name: string, mask: bv32, now: int, i: nat, reasonCode: int)
    requires RecordsOk(s.records) && i < TYPES
    ensures var q := Unapply(s, uid, name, mask, false, now);
            Listing(q.records, i, reasonCode, now) == Listing(s.records, i, reasonCode, now)
  {
    var q := Unapply(s, uid, name, mask, false, now);
    var key := Key(uid, name);
    UnapplyKeepsRecords(s, uid, name, mask, false, now);
    forall k | k in s.records
      ensures k in Listing(s.records, i, reasonCode, now) <==> k in Listing(q.records, i, reasonCode, now)
      ensures k in Listing(s.records, i, reasonCode, now) ==>
                Listing(s.records, i, reasonCode, now)[k] == Listing(q.records, i, reasonCode, now)[k]
    {
      SweptEntry(s, uid, name, mask, now, k, i, reasonCode);
    }
    SweepAddsNoKey(s, uid, name, mask, now);
    hide Key, RecordsOk, Unapply, Active, InfoOf;
  }

  lemma SweepAddsNoKey(s: Store, uid: int, name: string, mask: bv32, now: int)
    ensures forall k :: k in Unapply(s, uid, name, mask, false, now).records ==> k in s.records
  {
    hide Key, Kept, Removed, And, Subtract, FileOf;
  }

  lemma SweptEntry(s: Store, uid: int, name: string, mask: bv32, now: int, k: string, i: nat, reasonCode: int)
    requires RecordsOk(s.records) && i < TYPES && k in s.records
    ensures var q := Unapply(s, uid, name, mask, false, now);
            var r := s.records[k];
            && (Active(r, i, reasonCode, now) <==> k in q.records && Active(q.records[k], i, reasonCode, now))
            && (Active(r, i, reasonCode, now) ==> InfoOf(r, i, now) == InfoOf(q.records[k], i, now))
  {
    UnapplyExactly(s, uid, name, mask, false, now, k);
    hide RecordOk, RecordsOk, Kept, Unapply, Active, RunsOn, UnionMask, InfoOf;
    if k == Key(uid, name) { SweptSame(s.records[k], mask, i, reasonCode, now); }
  }

  /** The record a sweep leaves is as active as it was. */
  lemma SweptSame(r: Record, mask: bv32, i: nat, reasonCode: int, now: int)
    requires RecordOk(r) && i < TYPES
    ensures var kept := Kept(r.times, mask, false, now);
            var q := r.(mask := UnionMask(kept), times := kept);
            && (Active(r, i, reasonCode, now) <==> kept != [] && Active(q, i, reasonCode, now))
            && (Active(r, i, reasonCode, now) ==> InfoOf(r, i, now) == InfoOf(q, i, now))
  {
    var kept := Kept(r.times, mask, false, now);
    var q := r.(mask := UnionMask(kept), times := kept);
    hide RecordOk, Kept, Active, RunsOn, UnionMask, InfoOf;
    KeptOk(r, mask, now);
    ActiveExactly(r, i, reasonCode, now);
    if kept != [] { ActiveExactly(q, i, reasonCode, now); }
    SweepKeepsActive(r, mask, i, reasonCode, now);
    NothingRuns(i, now);
    if RunsOn(r.times, i, now) { InfoSame(r, q, i, now); }
  }

  lemma KeptOk(r: Record, mask: bv32, now: int)
    requires RecordOk(r)
    ensures var kept := Kept(r.times, mask, false, now);
            kept != [] ==> RecordOk(r.(mask := UnionMask(kept), times := kept))
  {
    KeptExactly(r.times, mask, false, now);
    UnionEmpty(Kept(r.times, mask, false, now));
    hide Kept, UnionMask, Takes;
  }

  lemma InfoSame(r: Record, q: Record, i: nat, now: int)
    requires q.name == r.name && Find(r.times, i) < |r.times| && Find(q.times, i) < |q.times|
    requires r.times[Find(r.times, i)] == q.times[Find(q.times, i)]
    ensures InfoOf(r, i, now) == InfoOf(q, i, now)
  {
    hide AsInt32, Bit;
  }

  lemma NothingRuns(i: nat, now: int)
    ensures !RunsOn([], i, now)
  {
  }

  /** Sweeps of these applications and masks, one after the other. */
  function SweepMany(s: Store, calls: seq<(int, string, bv32)>, now: int): Store {
    if calls == [] then s
    else
      var before := SweepMany(s, calls[..|calls| - 1], now);
      var c := calls[|calls| - 1];
      Unapply(before, c.0, c.1, c.2, false, now)
  }

  /** The listing is the same whether or not ended entries have been swept, whichever sweeps
      have run. */
  lemma {:induction false} LazyEqualsEager(s: Store, calls: seq<(int, string, bv32)>, now: int, i: nat, reasonCode: int)
    requires RecordsOk(s.records) && i < TYPES
    ensures RecordsOk(SweepMany(s, calls, now).records)
    ensures Listing(SweepMany(s, calls, now).records, i, reasonCode, now) == Listing(s.records, i, reasonCode, now)
  {
    if calls != [] {
      var before, c := calls[..|calls| - 1], calls[|calls| - 1];
      LazyEqualsEager(s, before, now, i, reasonCode);
      hide Unapply, Listing, RecordsOk;
      UnapplyKeepsRecords(SweepMany(s, before, now), c.0, c.1, c.2, false, now);
      ListingIgnoresSweep(SweepMany(s, before, now), c.0, c.1, c.2, now, i, reasonCode);
    }
  }

  // ---------------------------------------------------------------- restricting

  /** Somebody with this name is allowed one of these types now. */
  predicate AllowedNow(records: map<string, Record>, mask: bv32, reasonCode: int, now: int,
                       configured: seq<set<string>>, name: string)
    requires |configured| == TYPES
  {
    exists i :: 0 <= i < TYPES && HasBit(mask, i) &&
      (|| name in configured[i]
       || exists k :: k in records && records[k].name == name && records[k].reasonCode == reasonCode
                      && RunsOn(records[k].times, i, now))
  }

  /** The restricted names are exactly the configured ones that are not allowed now. */
  lemma RestrictSetExactly(restricted: set<string>, records: map<string, Record>, mask: bv32, reasonCode: int, now: int,
                           configured: seq<set<string>>, name: string)
    requires RecordsOk(records) && |configured| == TYPES
    ensures name in RestrictSet(restricted, records, mask, reasonCode, now, configured) <==>
              name in restricted && !AllowedNow(records, mask, reasonCode, now, configured, name)
  {
    AllowedExactly(records, mask, reasonCode, now, configured, name);
    hide AllowedNames, AllowedNow;
  }

  lemma AllowedExactly(records: map<string, Record>, mask: bv32, reasonCode: int, now: int,
                       configured: seq<set<string>>, name: string)
    requires RecordsOk(records) && |configured| == TYPES
    ensures name in AllowedNames(records, mask, reasonCode, now, configured) <==>
              AllowedNow(records, mask, reasonCode, now, configured, name)
  {
    forall i, k | 0 <= i < TYPES && k in records
      ensures Active(records[k], i, reasonCode, now) <==>
                records[k].reasonCode == reasonCode && RunsOn(records[k].times, i, now)
    {
      ActiveExactly(records[k], i, reasonCode, now);
    }
    hide Active, RunsOn, HasBit, RecordsOk;
    if name in AllowedNames(records, mask, reasonCode, now, configured) {
      if i, k :| 0 <= i < TYPES && HasBit(mask, i) && k in records && Active(records[k], i, reasonCode, now)
                 && records[k].name == name {
        assert records[k].name == name && RunsOn(records[k].times, i, now);
      } else {
        var i, n :| 0 <= i < TYPES && HasBit(mask, i) && n in configured[i] && n == name;
        assert name in configured[i];
      }
    }
    if AllowedNow(records, mask, reasonCode, now, configured, name) {
      var i :| 0 <= i < TYPES && HasBit(mask, i) &&
        (|| name in configured[i]
         || exists k :: k in records && records[k].name == name && records[k].reasonCode == reasonCode
                        && RunsOn(records[k].times, i, now));
      if name !in configured[i] {
        var k :| k in records && records[k].name == name && records[k].reasonCode == reasonCode
                 && RunsOn(records[k].times, i, now);
        assert Active(records[k], i, reasonCode, now);
      }
    }
  }
}
