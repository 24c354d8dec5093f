/** The allow store over whole runs: notices, expiry, the caps and the file. */
module AllowRuns {
  import opened RecordKeys
  import StandbyTypes
  import opened AllowRecords
  import opened MaskBits
  import opened AllowStore
  import opened AllowProofs

  // ---------------------------------------------------------------- notices

  /** What a listener knows of an application after the notices: added bits on, removed bits off. */
  function Replay(notices: seq<Notice>, uid: int, name: string): bv32 {
    if notices == [] then 0
    else
      var before := Replay(notices[..|notices| - 1], uid, name);
      var n := notices[|notices| - 1];
      if n.uid != uid || n.name != name then before
      else if n.added then Or(before, n.mask)
      else Minus(before, n.mask)
  }

  function MaskOf(records: map<string, Record>, uid: int, name: string): bv32 {
    var k := Key(uid, name);
    if k in records then records[k].mask else 0
  }

  /** The notices tell every mask. */
  ghost predicate Told(s: Store) {
    forall uid, name :: Replay(s.notices, uid, name) == MaskOf(s.records, uid, name)
  }

  lemma ReplaySnoc(notices: seq<Notice>, n: Notice, uid: int, name: string)
    ensures var before := Replay(notices, uid, name);
            Replay(notices + [n], uid, name) ==
            if n.uid != uid || n.name != name then before
            else if n.added then Or(before, n.mask) else Minus(before, n.mask)
  {
    assert (notices + [n])[..|notices|] == notices;
  }

  /** A step changes the mask of one application by at most one notice, and that notice names
      exactly the bits that changed. */
  predicate Announces(s: Store, r: Store, uid: int, name: string) {
    var before, after := MaskOf(s.records, uid, name), MaskOf(r.records, uid, name);
    || (r.notices == s.notices && before == after)
    || (&& r.notices == s.notices + [Notice(uid, name, Minus(after, before), true)]
        && Within(before, after) && before != after)
    || (&& r.notices == s.notices + [Notice(uid, name, Minus(before, after), false)]
        && Within(after, before) && before != after)
  }

  lemma AddedTells(before: bv32, after: bv32)
    requires Within(before, after)
    ensures Or(before, Minus(after, before)) == after
  {
    AddingBack(before, after);
  }

  lemma RemovedTells(before: bv32, after: bv32)
    requires Within(after, before)
    ensures Minus(before, Minus(before, after)) == after
  {
    RemovedRaw(before, after);
  }

  lemma RemovedRaw(before: bv32, after: bv32)
    requires after & !before == 0
    ensures before & !(before & !after) == after
  {
  }

  /** `r` differs from `s` in the mask of one key only. */
  ghost predicate OnlyChanges(s: Store, r: Store, key: string) {
    && (forall k :: k != key ==> (k in s.records <==> k in r.records))
    && (forall k :: k != key && k in s.records && k in r.records ==> r.records[k].mask == s.records[k].mask)
  }

  lemma OthersSame(s: Store, r: Store, uid: int, name: string, u: int, n: string)
    requires OnlyChanges(s, r, Key(uid, name)) && (u != uid || n != name)
    ensures MaskOf(r.records, u, n) == MaskOf(s.records, u, n)
  {
    if Key(u, n) == Key(uid, name) { KeyIsInjective(u, n, uid, name); }
    hide Key;
  }

  lemma AnnouncesTells(s: Store, r: Store, uid: int, name: string)
    requires Told(s) && Announces(s, r, uid, name) && OnlyChanges(s, r, Key(uid, name))
    ensures Told(r)
  {
    forall u, n
      ensures Replay(r.notices, u, n) == MaskOf(r.records, u, n)
    {
      assert Replay(s.notices, u, n) == MaskOf(s.records, u, n);
      hide Told, OnlyChanges, MaskOf, Key;
      AnnouncesTellsOne(s, r, uid, name, u, n);
    }
  }

  lemma AnnouncesTellsOne(s: Store, r: Store, uid: int, name: string, u: int, n: string)
    requires Replay(s.notices, u, n) == MaskOf(s.records, u, n)
    requires Announces(s, r, uid, name) && OnlyChanges(s, r, Key(uid, name))
    ensures Replay(r.notices, u, n) == MaskOf(r.records, u, n)
  {
    var before, after := MaskOf(s.records, uid, name), MaskOf(r.records, uid, name);
    if Within(before, after) { AddedTells(before, after); }
    if Within(after, before) { RemovedTells(before, after); }
    if u != uid || n != name { OthersSame(s, r, uid, name, u, n); }
    if r.notices != s.notices { ReplaySnoc(s.notices, r.notices[|s.notices|], u, n); }
    hide Replay, Key, Or, Minus, Within, MaskOf, OnlyChanges;
  }

  lemma ApplyAnnounces(s: Store, req: Request, pid: int, now: int)
    requires RecordsOk(s.records) && |req.caps| == TYPES
    ensures Announces(s, Apply(s, req, pid, now), req.uid, req.name)
  {
    var r := Base(s, req, pid);
    BaseAgrees(s, req, pid);
    UpdateAgrees(r.mask, r.times, req, now, TYPES);
    var u := UpdateUpTo(r.mask, r.times, req, now, TYPES);
    DeltaIsMissing(r.mask, u.mask);
    assert MaskOf(s.records, req.uid, req.name) == r.mask;
    hide Key, Agrees, RecordsOk, UpdateUpTo, Base, Within, Xor, And, Minus, FileOf;
    assert MaskOf(Apply(s, req, pid, now).records, req.uid, req.name) == u.mask;
  }

  lemma UnapplyAnnounces(s: Store, uid: int, name: string, mask: bv32, removeAll: bool, now: int)
    requires RecordsOk(s.records)
    ensures Announces(s, Unapply(s, uid, name, mask, removeAll, now), uid, name)
  {
    var k := Key(uid, name);
    if k in s.records {
      var r := s.records[k];
      var removed := Removed(r.times, mask, removeAll, now);
      RemovalAgrees(r, mask, removeAll, now);
      RemovalTells(r.mask, removed);
      MinusNothing(r.mask, removed);
      hide Key, RecordsOk, RecordOk, Kept, Removed, And, Minus, Subtract, Within, UnionMask, FileOf;
    }
  }

  lemma RemovalTells(mask: bv32, removed: bv32)
    requires Within(removed, mask)
    ensures Within(Minus(mask, removed), mask) && Within(0, mask)
    ensures Minus(mask, Minus(mask, removed)) == removed && Minus(mask, 0) == mask
    ensures removed != 0 ==> Minus(mask, removed) != mask
  {
    RemovedRaw(mask, removed);
    StillWithin(mask, removed);
    NothingWithin(mask);
    if Minus(mask, removed) == mask { NoneRemoved(mask, removed); }
  }

  lemma StillWithin(mask: bv32, removed: bv32)
    ensures (mask & !removed) & !mask == 0
  {
  }

  lemma NothingWithin(mask: bv32)
    ensures 0 & !mask == 0 && mask & !0 == mask
  {
  }

  lemma NoneRemoved(mask: bv32, removed: bv32)
    requires removed & !mask == 0 && mask & !removed == mask
    ensures removed == 0
  {
  }

  // ---------------------------------------------------------------- sweeping

  /** Some pending sweep will look at this entry at its end, or right after `since` when it had
      ended by then. */
  predicate WillBeSwept(tasks: seq<SweepTask>, uid: int, name: string, t: AllowTime, since: int) {
    exists j :: 0 <= j < |tasks| && tasks[j].uid == uid && tasks[j].name == name && HasBit(tasks[j].mask, t.index)
                && tasks[j].due == Max(t.endTime, since)
  }

  predicate TimesSwept(tasks: seq<SweepTask>, uid: int, name: string, times: seq<AllowTime>, since: int) {
    forall t :: t in times ==> WillBeSwept(tasks, uid, name, t, since)
  }

  /** Every stored entry has a pending sweep due at its end whose mask covers it. */
  predicate Covered(s: Store, since: int) {
    forall k :: k in s.records ==> TimesSwept(s.tasks, s.records[k].uid, s.records[k].name, s.records[k].times, since)
  }

  lemma SweptMore(tasks: seq<SweepTask>, more: seq<SweepTask>, uid: int, name: string, t: AllowTime, since: int)
    requires WillBeSwept(tasks, uid, name, t, since)
    ensures WillBeSwept(tasks + more, uid, name, t, since)
  {
    var j :| 0 <= j < |tasks| && tasks[j].uid == uid && tasks[j].name == name && HasBit(tasks[j].mask, t.index)
             && tasks[j].due == Max(t.endTime, since);
    assert (tasks + more)[j] == tasks[j];
  }

  lemma TimesSweptMore(tasks: seq<SweepTask>, more: seq<SweepTask>, uid: int, name: string, times: seq<AllowTime>,
                       since: int)
    requires TimesSwept(tasks, uid, name, times, since)
    ensures TimesSwept(tasks + more, uid, name, times, since)
  {
    forall t | t in times
      ensures WillBeSwept(tasks + more, uid, name, t, since)
    {
      SweptMore(tasks, more, uid, name, t, since);
    }
  }

  lemma TouchSwept(tasks: seq<SweepTask>, req: Request, times: seq<AllowTime>, i: nat, end: int, since: int)
    requires TimesSwept(tasks, req.uid, req.name, times, since) && HasBit(req.mask, i) && since <= end
    ensures TimesSwept(tasks + [SweepTask(req.uid, req.name, req.mask, end)], req.uid, req.name,
                       Touch(times, i, end, req.reason), since)
  {
    var task := SweepTask(req.uid, req.name, req.mask, end);
    var more := tasks + [task];
    var k := Find(times, i);
    TimesSweptMore(tasks, [task], req.uid, req.name, times, since);
    assert more[|tasks|] == task;
    forall t | t in Touch(times, i, end, req.reason)
      ensures WillBeSwept(more, req.uid, req.name, t, since)
    {
      if t !in times {
        assert t.index == i;
        if t.endTime != end {
          assert k < |times| && t.endTime == times[k].endTime;
          assert WillBeSwept(more, req.uid, req.name, times[k], since);
        }
      }
    }
  }

  lemma {:induction false} UpdateSwept(tasks: seq<SweepTask>, mask: bv32, times: seq<AllowTime>, req: Request, now: int,
                                       n: nat, since: int)
    requires TimesSwept(tasks, req.uid, req.name, times, since) && n <= |req.caps| && since <= now
    ensures var u := UpdateUpTo(mask, times, req, now, n);
            TimesSwept(tasks + u.tasks, req.uid, req.name, u.times, since)
  {
    if n == 0 {
      assert tasks + [] == tasks;
    } else {
      var u := UpdateUpTo(mask, times, req, now, n - 1);
      UpdateSwept(tasks, mask, times, req, now, n - 1, since);
      hide HasBit, Or, Bit, Touch, TimesSwept;
      if Grants(req, n - 1) {
        var end := now + Span(req, n - 1);
        var task := SweepTask(req.uid, req.name, req.mask, end);
        TouchSwept(tasks + u.tasks, req, u.times, n - 1, end, since);
        assert (tasks + u.tasks) + [task] == tasks + (u.tasks + [task]);
      }
    }
  }

  lemma ApplyKeepsCovered(s: Store, req: Request, pid: int, now: int, since: int)
    requires RecordsOk(s.records) && |req.caps| == TYPES && Covered(s, since) && since <= now
    ensures Covered(Apply(s, req, pid, now), since)
  {
    var r := Base(s, req, pid);
    var u := UpdateUpTo(r.mask, r.times, req, now, TYPES);
    BaseAgrees(s, req, pid);
    assert TimesSwept(s.tasks, req.uid, req.name, r.times, since);
    UpdateSwept(s.tasks, r.mask, r.times, req, now, TYPES, since);
    var q := Apply(s, req, pid, now);
    hide Agrees, UpdateUpTo, Base, Xor, And, FileOf;
    forall k | k in q.records
      ensures TimesSwept(q.tasks, q.records[k].uid, q.records[k].name, q.records[k].times, since)
    {
      if k != Key(req.uid, req.name) {
        TimesSweptMore(s.tasks, u.tasks, s.records[k].uid, s.records[k].name, s.records[k].times, since);
      }
    }
  }

  /** Taking entries away uncovers nobody. */
  lemma UnapplyKeepsCovered(s: Store, uid: int, name: string, mask: bv32, removeAll: bool, now: int, since: int)
    requires RecordsOk(s.records) && Covered(s, since)
    ensures Covered(Unapply(s, uid, name, mask, removeAll, now), since)
  {
    var k := Key(uid, name);
    if k in s.records {
      KeptExactly(s.records[k].times, mask, removeAll, now);
      hide Key, Kept, Removed, And, Subtract, FileOf, Takes, WillBeSwept;
      assert TimesSwept(s.tasks, s.records[k].uid, s.records[k].name, s.records[k].times, since);
    }
  }

  /** Without the sweep number `j`. */
  function Without(s: Store, j: nat): Store
    requires j < |s.tasks|
  {
    s.(tasks := s.tasks[..j] + s.tasks[j + 1..])
  }

  /** An entry loses its sweep only when the sweep runs, and then it has ended and goes. */
  lemma SurvivorStaysSwept(tasks: seq<SweepTask>, j: nat, uid: int, name: string, t: AllowTime, since: int, now: int)
    requires j < |tasks| && WillBeSwept(tasks, uid, name, t, since)
    requires tasks[j].due <= now
    requires tasks[j].uid == uid && tasks[j].name == name ==> !Takes(t, tasks[j].mask, false, now)
    ensures WillBeSwept(tasks[..j] + tasks[j + 1..], uid, name, t, since)
  {
    var rest := tasks[..j] + tasks[j + 1..];
    var i :| 0 <= i < |tasks| && tasks[i].uid == uid && tasks[i].name == name && HasBit(tasks[i].mask, t.index)
             && tasks[i].due == Max(t.endTime, since);
    assert i != j;
    hide HasBit, Takes;
    if i < j { assert rest[i] == tasks[i]; } else { assert rest[i - 1] == tasks[i]; }
  }

  lemma RunSweepKeepsCovered(s: Store, j: nat, now: int, since: int)
    requires RecordsOk(s.records) && Covered(s, since) && j < |s.tasks| && s.tasks[j].due <= now
    ensures Covered(RunSweep(s, j, now), since)
  {
    var task := s.tasks[j];
    var q := RunSweep(s, j, now);
    var key := Key(task.uid, task.name);
    SweepSurvivors(s, j, now);
    forall k | k in q.records
      ensures TimesSwept(q.tasks, q.records[k].uid, q.records[k].name, q.records[k].times, since)
    {
      forall t | t in q.records[k].times
        ensures WillBeSwept(q.tasks, q.records[k].uid, q.records[k].name, t, since)
      {
        assert WillBeSwept(s.tasks, s.records[k].uid, s.records[k].name, t, since);
        hide Key, WillBeSwept, RunSweep, HasBit;
        SurvivorStaysSwept(s.tasks, j, s.records[k].uid, s.records[k].name, t, since, now);
      }
    }
  }

  /** What is left after a sweep was there before, and the sweep does not take it. */
  lemma SweepSurvivors(s: Store, j: nat, now: int)
    requires RecordsOk(s.records) && j < |s.tasks|
    ensures var task := s.tasks[j];
            var q := RunSweep(s, j, now);
            && q.tasks == s.tasks[..j] + s.tasks[j + 1..]
            && forall k :: k in q.records ==>
                 && k in s.records && q.records[k].uid == s.records[k].uid && q.records[k].name == s.records[k].name
                 && forall t :: t in q.records[k].times ==>
                      && t in s.records[k].times
                      && (s.records[k].uid == task.uid && s.records[k].name == task.name
                          ==> !Takes(t, task.mask, false, now))
  {
    var task := s.tasks[j];
    var key := Key(task.uid, task.name);
    if key in s.records {
      var r := s.records[key];
      KeptExactly(r.times, task.mask, false, now);
      RemovalAgrees(r, task.mask, false, now);
      NoBitNoTake(r, task.mask, false, now);
      KeyIsInjective(task.uid, task.name, r.uid, r.name);
    }
    hide RecordOk, Kept, Removed, And, Subtract, FileOf, Takes, UnionMask, Within, Minus;
  }

  // ---------------------------------------------------------------- expiry

  /** Once every sweep due by `t` has run, no entry that ended by then is left. */
  lemma NothingOutlives(s: Store, since: int, t: int)
    requires Covered(s, since) && since <= t
    requires forall j :: 0 <= j < |s.tasks| ==> s.tasks[j].due > t
    ensures forall k, e :: k in s.records && e in s.records[k].times ==> e.endTime > t
  {
    hide HasBit;
    forall k, e | k in s.records && e in s.records[k].times
      ensures e.endTime > t
    {
      assert WillBeSwept(s.tasks, s.records[k].uid, s.records[k].name, e, since);
    }
  }

  /** A sweep, stale or not, leaves every entry that has not ended, with its bit. */
  lemma StaleSweepIsHarmless(s: Store, uid: int, name: string, mask: bv32, now: int, k: string, e: AllowTime)
    requires RecordsOk(s.records) && k in s.records && e in s.records[k].times && e.endTime > now
    ensures var q := Unapply(s, uid, name, mask, false, now);
            k in q.records && e in q.records[k].times
  {
    var key := Key(uid, name);
    if key in s.records {
      var r := s.records[key];
      KeptExactly(r.times, mask, false, now);
      RemovalAgrees(r, mask, false, now);
      hide Key, RecordsOk, RecordOk, Kept, Removed, And, Subtract, FileOf, UnionMask, Within, Minus;
      if k == key { assert !Takes(e, mask, false, now); }
    }
  }

  // ---------------------------------------------------------------- caps

  /** No entry but those of the work scheduler runs longer than its type may. */
  predicate Capped(times: seq<AllowTime>, limits: seq<int>, now: int)
    requires |limits| == TYPES
  {
    forall t :: t in times && t.index < TYPES && t.index != WORK_SCHEDULER_INDEX ==>
      t.endTime <= now + limits[t.index] * StandbyTypes.MSEC_PER_SEC
  }

  predicate AllCapped(s: Store, limits: seq<int>, now: int)
    requires |limits| == TYPES
  {
    forall k :: k in s.records ==> Capped(s.records[k].times, limits, now)
  }

  predicate WithinLimits(req: Request, limits: seq<int>)
    requires |limits| == TYPES == |req.caps|
  {
    forall i :: 0 <= i < TYPES ==> req.caps[i] <= limits[i]
  }

  lemma {:induction false} UpdateCapped(mask: bv32, times: seq<AllowTime>, req: Request, now: int, n: nat, limits: seq<int>)
    requires n <= |req.caps| == TYPES == |limits| && WithinLimits(req, limits) && Capped(times, limits, now)
    ensures Capped(UpdateUpTo(mask, times, req, now, n).times, limits, now)
  {
    if n > 0 {
      var u := UpdateUpTo(mask, times, req, now, n - 1);
      UpdateCapped(mask, times, req, now, n - 1, limits);
      hide HasBit, Or, Bit;
      if Grants(req, n - 1) { TouchCapped(u.times, n - 1, now + Span(req, n - 1), req.reason, limits, now); }
    }
  }

  lemma TouchCapped(times: seq<AllowTime>, i: nat, end: int, reason: string, limits: seq<int>, now: int)
    requires |limits| == TYPES && i < TYPES && Capped(times, limits, now)
    requires i != WORK_SCHEDULER_INDEX ==> end <= now + limits[i] * StandbyTypes.MSEC_PER_SEC
    ensures Capped(Touch(times, i, end, reason), limits, now)
  {
    var k := Find(times, i);
    if k < |times| { assert times[k] in times; }
  }

  lemma CappedLater(s: Store, limits: seq<int>, now: int, later: int)
    requires |limits| == TYPES && AllCapped(s, limits, now) && now <= later
    ensures AllCapped(s, limits, later)
  {
  }

  lemma ApplyKeepsCapped(s: Store, req: Request, pid: int, now: int, limits: seq<int>)
    requires |limits| == TYPES == |req.caps| && WithinLimits(req, limits) && AllCapped(s, limits, now)
    ensures AllCapped(Apply(s, req, pid, now), limits, now)
  {
    var r := Base(s, req, pid);
    assert Capped(r.times, limits, now);
    UpdateCapped(r.mask, r.times, req, now, TYPES, limits);
    hide Key, UpdateUpTo, Base, Xor, And, FileOf, Capped;
  }

  lemma UnapplyKeepsCapped(s: Store, uid: int, name: string, mask: bv32, removeAll: bool, now: int, limits: seq<int>)
    requires |limits| == TYPES && AllCapped(s, limits, now)
    ensures AllCapped(Unapply(s, uid, name, mask, removeAll, now), limits, now)
  {
    var k := Key(uid, name);
    if k in s.records {
      KeptExactly(s.records[k].times, mask, removeAll, now);
      assert Capped(s.records[k].times, limits, now);
      hide Key, Kept, Removed, And, Subtract, FileOf, Takes;
    }
  }

  // ---------------------------------------------------------------- runs

  datatype AllowStep =
    | ApplyStep(req: Request, pid: int)
    | UnapplyStep(uid: int, name: string, mask: bv32)        // from a caller, or after uninstalling or death
    | SweepStep(j: nat)                                      // a pending sweep runs
    | ExtraSweep(uid: int, name: string, mask: bv32)         // posted by a listing

  datatype AllowMove = AllowMove(now: int, step: AllowStep)

  /** The store, the time of its last step and the time it was loaded. */
  datatype World = World(store: Store, now: int, since: int)

  predicate AllowEnabled(w: World, m: AllowMove) {
    && w.now <= m.now
    && match m.step
       case ApplyStep(req, _) => |req.caps| == TYPES
       case SweepStep(j) => j < |w.store.tasks| && w.store.tasks[j].due <= m.now
       case _ => true
  }

  function AllowNext(w: World, m: AllowMove): World
    requires AllowEnabled(w, m)
  {
    var s := match m.step
      case ApplyStep(req, pid) => Apply(w.store, req, pid, m.now)
      case UnapplyStep(uid, name, mask) => Unapply(w.store, uid, name, mask, true, m.now)
      case SweepStep(j) => RunSweep(w.store, j, m.now)
      case ExtraSweep(uid, name, mask) => Unapply(w.store, uid, name, mask, false, m.now);
    w.(store := s, now := m.now)
  }

  predicate AllowInv(w: World) {
    && w.since <= w.now
    && RecordsOk(w.store.records)
    && Covered(w.store, w.since)
    && w.store.file == FileOf(w.store.records)
  }

  lemma UnapplyKeepsTold(s: Store, uid: int, name: string, mask: bv32, removeAll: bool, now: int)
    requires RecordsOk(s.records) && Told(s)
    ensures Told(Unapply(s, uid, name, mask, removeAll, now))
  {
    UnapplyAnnounces(s, uid, name, mask, removeAll, now);
    UnapplyOthers(s, uid, name, mask, removeAll, now);
    hide Unapply, Told, Announces, RecordsOk, Key, OnlyChanges;
    AnnouncesTells(s, Unapply(s, uid, name, mask, removeAll, now), uid, name);
  }

  lemma UnapplyOthers(s: Store, uid: int, name: string, mask: bv32, removeAll: bool, now: int)
    ensures var r := Unapply(s, uid, name, mask, removeAll, now);
            OnlyChanges(s, r, Key(uid, name))
  {
    hide Key, Kept, Removed, And, Subtract, FileOf;
  }

  lemma ApplyKeepsTold(s: Store, req: Request, pid: int, now: int)
    requires RecordsOk(s.records) && Told(s) && |req.caps| == TYPES
    ensures Told(Apply(s, req, pid, now))
  {
    ApplyAnnounces(s, req, pid, now);
    ApplyOthers(s, req, pid, now);
    hide Apply, Told, Announces, RecordsOk, Key, OnlyChanges;
    AnnouncesTells(s, Apply(s, req, pid, now), req.uid, req.name);
  }

  lemma ApplyOthers(s: Store, req: Request, pid: int, now: int)
    requires |req.caps| == TYPES
    ensures var r := Apply(s, req, pid, now);
            OnlyChanges(s, r, Key(req.uid, req.name))
  {
    hide Key, UpdateUpTo, Base, Xor, And, FileOf;
  }

  /** The file is rewritten with every change, and a call that returns early changes nothing. */
  lemma FileFollows(s: Store, uid: int, name: string, mask: bv32, removeAll: bool, now: int)
    requires s.file == FileOf(s.records)
    ensures var r := Unapply(s, uid, name, mask, removeAll, now); r.file == FileOf(r.records)
  {
    hide Key, Kept, Removed, And, Subtract, FileOf;
  }

  lemma UnapplyKeepsAll(s: Store, uid: int, name: string, mask: bv32, removeAll: bool, now: int, since: int)
    requires RecordsOk(s.records) && Covered(s, since) && s.file == FileOf(s.records)
    ensures var r := Unapply(s, uid, name, mask, removeAll, now);
            RecordsOk(r.records) && (Told(s) ==> Told(r)) && Covered(r, since) && r.file == FileOf(r.records)
  {
    UnapplyKeepsRecords(s, uid, name, mask, removeAll, now);
    if Told(s) { UnapplyKeepsTold(s, uid, name, mask, removeAll, now); }
    UnapplyKeepsCovered(s, uid, name, mask, removeAll, now, since);
    FileFollows(s, uid, name, mask, removeAll, now);
    hide Unapply, RecordsOk, Told, Covered, FileOf;
  }

  lemma RunSweepKeepsAll(s: Store, j: nat, now: int, since: int)
    requires RecordsOk(s.records) && Covered(s, since) && s.file == FileOf(s.records)
    requires j < |s.tasks| && s.tasks[j].due <= now
    ensures var r := RunSweep(s, j, now);
            RecordsOk(r.records) && (Told(s) ==> Told(r)) && Covered(r, since) && r.file == FileOf(r.records)
  {
    var t := s.tasks[j];
    var s1 := Without(s, j);
    RunSweepKeepsCovered(s, j, now, since);
    assert Told(s) ==> Told(s1) by { hide Key, Replay; }
    UnapplyKeepsRecords(s1, t.uid, t.name, t.mask, false, now);
    if Told(s1) { UnapplyKeepsTold(s1, t.uid, t.name, t.mask, false, now); }
    FileFollows(s1, t.uid, t.name, t.mask, false, now);
    hide Unapply, RecordsOk, Told, Covered, FileOf;
  }

  lemma ApplyKeepsAll(s: Store, req: Request, pid: int, now: int, since: int)
    requires RecordsOk(s.records) && Covered(s, since) && s.file == FileOf(s.records)
    requires |req.caps| == TYPES && since <= now
    ensures var r := Apply(s, req, pid, now);
            RecordsOk(r.records) && (Told(s) ==> Told(r)) && Covered(r, since) && r.file == FileOf(r.records)
  {
    ApplyKeepsRecords(s, req, pid, now);
    if Told(s) { ApplyKeepsTold(s, req, pid, now); }
    ApplyKeepsCovered(s, req, pid, now, since);
    hide RecordsOk, Told, Covered, FileOf, Key, UpdateUpTo, Base, Xor, And;
  }

  lemma AllowNextKeeps(w: World, m: AllowMove)
    requires AllowInv(w) && AllowEnabled(w, m)
    ensures AllowInv(AllowNext(w, m)) && (Told(w.store) ==> Told(AllowNext(w, m).store))
  {
    hide Apply, Unapply, RunSweep, RecordsOk, Told, Covered, FileOf;
    match m.step
    case ApplyStep(req, pid) => ApplyKeepsAll(w.store, req, pid, m.now, w.since);
    case UnapplyStep(uid, name, mask) => UnapplyKeepsAll(w.store, uid, name, mask, true, m.now, w.since);
    case SweepStep(j) => RunSweepKeepsAll(w.store, j, m.now, w.since);
    case ExtraSweep(uid, name, mask) => UnapplyKeepsAll(w.store, uid, name, mask, false, m.now, w.since);
  }

  predicate ValidAllowRun(w: World, run: seq<AllowMove>)
    decreases run
  {
    run == [] || (AllowEnabled(w, run[0]) && ValidAllowRun(AllowNext(w, run[0]), run[1..]))
  }

  function AllowExec(w: World, run: seq<AllowMove>): World
    requires ValidAllowRun(w, run)
    decreases run
  {
    if run == [] then w else AllowExec(AllowNext(w, run[0]), run[1..])
  }

  lemma {:induction false} AllowExecKeeps(w: World, run: seq<AllowMove>)
    requires AllowInv(w) && ValidAllowRun(w, run)
    ensures AllowInv(AllowExec(w, run)) && (Told(w.store) ==> Told(AllowExec(w, run).store))
    decreases run
  {
    if run != [] {
      AllowNextKeeps(w, run[0]);
      hide AllowInv, AllowNext, AllowEnabled, Told;
      AllowExecKeeps(AllowNext(w, run[0]), run[1..]);
    }
  }

  const EMPTY_WORLD := World(Store(map[], map[], [], []), 0, 0)

  lemma EmptyWorldHolds()
    ensures AllowInv(EMPTY_WORLD) && Told(EMPTY_WORLD.store)
  {
    assert FileOf(map[]) == map[];
  }

  /** In every state of every run of the store: the mask of a record is never zero and is the
      union of the bits of its duplicate-free list; replaying the notices gives every mask; and
      the file is the encoding of the map. */
  lemma StoreIsConsistent(run: seq<AllowMove>, uid: int, name: string)
    requires ValidAllowRun(EMPTY_WORLD, run)
    ensures var s := AllowExec(EMPTY_WORLD, run).store;
            && (forall k :: k in s.records ==>
                  && s.records[k].mask != 0 && s.records[k].mask == UnionMask(s.records[k].times)
                  && Distinct(s.records[k].times) && k == Key(s.records[k].uid, s.records[k].name))
            && Replay(s.notices, uid, name) == MaskOf(s.records, uid, name)
            && s.file == FileOf(s.records)
  {
    EmptyWorldHolds();
    AllowExecKeeps(EMPTY_WORLD, run);
    hide Replay, MaskOf, UnionMask, FileOf, Key;
  }

  /** In every state of every run, once the sweeps due by now have run, whatever is stored has
      not ended. */
  lemma ExpiredEntriesGo(run: seq<AllowMove>)
    requires ValidAllowRun(EMPTY_WORLD, run)
    requires var w := AllowExec(EMPTY_WORLD, run);
             forall j :: 0 <= j < |w.store.tasks| ==> w.store.tasks[j].due > w.now
    ensures var w := AllowExec(EMPTY_WORLD, run);
            forall k, e :: k in w.store.records && e in w.store.records[k].times ==> e.endTime > w.now
  {
    EmptyWorldHolds();
    AllowExecKeeps(EMPTY_WORLD, run);
    var w := AllowExec(EMPTY_WORLD, run);
    hide AllowExec, ValidAllowRun, Covered, Told, FileOf;
    NothingOutlives(w.store, w.since, w.now);
  }

  /** Every request of the run stays within the configured limits. */
  predicate LimitedRun(run: seq<AllowMove>, limits: seq<int>)
    requires |limits| == TYPES
  {
    forall i :: 0 <= i < |run| && run[i].step.ApplyStep? ==>
      |run[i].step.req.caps| == TYPES && WithinLimits(run[i].step.req, limits)
  }

  lemma {:induction false} ExecCapped(w: World, run: seq<AllowMove>, limits: seq<int>)
    requires ValidAllowRun(w, run) && |limits| == TYPES && LimitedRun(run, limits) && AllCapped(w.store, limits, w.now)
    ensures AllCapped(AllowExec(w, run).store, limits, AllowExec(w, run).now)
    decreases run
  {
    if run != [] {
      var m := run[0];
      StepCapped(w, m, limits);
      assert LimitedRun(run[1..], limits);
      hide AllCapped, AllowNext, AllowEnabled, LimitedRun;
      ExecCapped(AllowNext(w, m), run[1..], limits);
    }
  }

  lemma StepCapped(w: World, m: AllowMove, limits: seq<int>)
    requires AllowEnabled(w, m) && |limits| == TYPES && AllCapped(w.store, limits, w.now)
    requires m.step.ApplyStep? ==> WithinLimits(m.step.req, limits)
    ensures AllCapped(AllowNext(w, m).store, limits, m.now)
  {
    CappedLater(w.store, limits, w.now, m.now);
    match m.step
    case ApplyStep(req, pid) =>
      hide Apply, AllCapped;
      ApplyKeepsCapped(w.store, req, pid, m.now, limits);
    case UnapplyStep(uid, name, mask) =>
      hide Unapply, AllCapped;
      UnapplyKeepsCapped(w.store, uid, name, mask, true, m.now, limits);
    case SweepStep(j) =>
      var t := w.store.tasks[j];
      hide Unapply, Capped;
      UnapplyKeepsCapped(Without(w.store, j), t.uid, t.name, t.mask, false, m.now, limits);
    case ExtraSweep(uid, name, mask) =>
      hide Unapply, AllCapped;
      UnapplyKeepsCapped(w.store, uid, name, mask, false, m.now, limits);
  }

  /** However often a resource is applied for, the time left of an entry never exceeds the
      configured maximum of its type, except for the work scheduler. */
  lemma TimeLeftIsCapped(run: seq<AllowMove>, limits: seq<int>, k: string, e: AllowTime)
    requires ValidAllowRun(EMPTY_WORLD, run) && |limits| == TYPES && LimitedRun(run, limits)
    requires var s := AllowExec(EMPTY_WORLD, run).store; k in s.records && e in s.records[k].times
    ensures e.index < TYPES
    ensures e.index != WORK_SCHEDULER_INDEX ==>
              e.endTime - AllowExec(EMPTY_WORLD, run).now <= limits[e.index] * StandbyTypes.MSEC_PER_SEC
  {
    ExecCapped(EMPTY_WORLD, run, limits);
    EmptyWorldHolds();
    AllowExecKeeps(EMPTY_WORLD, run);
    hide Told, Covered, FileOf, UnionMask, Key;
    var s := AllowExec(EMPTY_WORLD, run).store;
    var j :| 0 <= j < |s.records[k].times| && s.records[k].times[j] == e;
    assert RecordOk(s.records[k]);
  }
}
