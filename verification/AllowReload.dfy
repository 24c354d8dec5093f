/** Restarting the service: what is read back, and whether the recovered sweeps come in time. */
module AllowReload {
  import opened RecordKeys
  import opened AllowRecords
  import opened Options
  import opened MaskBits
  import opened AllowStore
  import opened AllowProofs
  import opened AllowRuns

  // ---------------------------------------------------------------- loading

  /** The records in memory win over those of the file. */
  function Merge(records: map<string, Record>, readable: map<string, Record>): map<string, Record> {
    map k | k in records.Keys + readable.Keys :: if k in records then records[k] else readable[k]
  }

  /** The process runs under the recorded name. */
  predicate IsAlive(r: Record, procs: map<int, string>) {
    r.pid in procs && procs[r.pid] == r.name
  }

  function Alive(records: map<string, Record>, procs: map<int, string>): map<string, Record> {
    map k | k in records && IsAlive(records[k], procs) :: records[k]
  }

  /** The sweep that RecoverTimeLimitedTask posts for an entry: its delay is cut to 32 bits. */
  function RecoveryTask(r: Record, t: AllowTime, now: int): SweepTask {
    SweepTask(r.uid, r.name, ALL_TYPES, now + Max(0, AsInt32(t.endTime - now)))
  }

  /** One sweep was posted for every entry, and no other. */
  predicate Recovers(posted: seq<SweepTask>, records: map<string, Record>, now: int) {
    && (forall k, t :: k in records && t in records[k].times ==> RecoveryTask(records[k], t, now) in posted)
    && (forall p :: p in posted ==>
          exists k, t :: k in records && t in records[k].times && p == RecoveryTask(records[k], t, now))
  }

  /** ParsePersistentData: nothing happens without the process list or without a file. */
  function Load(s: Store, loaded: Option<map<string, Json>>, procs: map<int, string>, posted: seq<SweepTask>): Store {
    if procs == map[] || loaded.None? then s
    else
      var records := Alive(Merge(s.records, Readable(loaded.value)), procs);
      Store(records, FileOf(records), s.notices, s.tasks + posted)
  }

  /** After a restart exactly the records come back whose process still runs under the recorded
      name, each as it was. */
  lemma ReloadKeepsExactly(records: map<string, Record>, procs: map<int, string>, posted: seq<SweepTask>, k: string)
    requires forall l :: l in records ==> Fits(records[l])
    requires procs != map[]
    ensures var s := Load(Store(map[], map[], [], []), Some(FileOf(records)), procs, posted);
            && (k in s.records <==> k in records && records[k].pid in procs && procs[records[k].pid] == records[k].name)
            && (k in s.records ==> s.records[k] == records[k])
            && Readable(s.file) == s.records
  {
    FileRoundTrip(records);
    var s := Load(Store(map[], map[], [], []), Some(FileOf(records)), procs, posted);
    hide FileOf, Readable, Fits;
    MergeEmpty(records);
    FileRoundTrip(s.records);
  }

  /** What loading does to a store in use: a record in memory stays as it is, one of the file comes in
      under a key that is free, and both exactly if their process runs under the recorded name. */
  lemma LoadExactly(s: Store, file: map<string, Json>, procs: map<int, string>, posted: seq<SweepTask>, k: string)
    requires procs != map[]
    ensures var q := Load(s, Some(file), procs, posted);
            && (k in s.records ==>
                  && (k in q.records <==> Lives(s.records[k], procs))
                  && (k in q.records ==> q.records[k] == s.records[k]))
            && (k !in s.records ==>
                  && (k in q.records <==> k in file && FromJson(file[k]).Some? && Lives(FromJson(file[k]).value, procs))
                  && (k in q.records ==> q.records[k] == FromJson(file[k]).value))
            && q.notices == s.notices && q.tasks == s.tasks + posted
  {
    hide FromJson, FileOf;
  }

  /** Some process with the pid of the record has its name. */
  predicate Lives(r: Record, procs: map<int, string>) {
    (r.pid, r.name) in procs.Items
  }

  /** Without the process list nothing is loaded, and the next change overwrites the file with
      what little is in memory: every saved record but the one changed is lost. */
  lemma UnavailableListLosesRecords(file: map<string, Json>, req: Request, pid: int, now: int,
                                    posted: seq<SweepTask>)
    requires |req.caps| == TYPES
    ensures var s := Load(Store(map[], file, [], []), Some(file), map[], posted);
            && s.records == map[] && s.file == file
            && Apply(s, req, pid, now).file.Keys <= {Key(req.uid, req.name)}
  {
    hide UpdateUpTo, Base, Key, Xor, And, ToJson;
  }

  // ---------------------------------------------------------------- recovered sweeps

  /** The recovered sweep of this entry is due when it should be. */
  predicate OnTime(t: AllowTime, now: int) {
    now + Max(0, AsInt32(t.endTime - now)) == Max(t.endTime, now)
  }

  /** The recovered sweep is on time exactly when less than 2^31 ms are left, or when the entry has
      ended and the 32-bit cut of the time since then does not look like time left. */
  lemma OnTimeExactly(t: AllowTime, now: int)
    ensures OnTime(t, now) <==>
              if now <= t.endTime then t.endTime - now < 0x8000_0000
              else (now - t.endTime) % 0x1_0000_0000 <= 0x8000_0000
  {
  }

  /** With every entry on time, the recovered sweeps cover the store. */
  lemma RecoveredIsCovered(s: Store, posted: seq<SweepTask>, now: int)
    requires RecordsOk(s.records) && Recovers(posted, s.records, now)
    requires forall k, t :: k in s.records && t in s.records[k].times ==> OnTime(t, now)
    ensures Covered(s.(tasks := s.tasks + posted), now)
  {
    var tasks := s.tasks + posted;
    forall k | k in s.records
      ensures TimesSwept(tasks, s.records[k].uid, s.records[k].name, s.records[k].times, now)
    {
      var r := s.records[k];
      forall t | t in r.times
        ensures WillBeSwept(tasks, r.uid, r.name, t, now)
      {
        assert OnTime(t, now) && RecoveryTask(r, t, now) in posted && RecordOk(r);
        hide OnTime, RecordOk, RecoveryTask, Recovers, WillBeSwept;
        EntryIsSwept(s.tasks, posted, r, t, now);
      }
    }
  }

  lemma EntryIsSwept(before: seq<SweepTask>, posted: seq<SweepTask>, r: Record, t: AllowTime, now: int)
    requires RecordOk(r) && t in r.times && OnTime(t, now) && RecoveryTask(r, t, now) in posted
    ensures WillBeSwept(before + posted, r.uid, r.name, t, now)
  {
    TypedHas(r, t);
    AllTypesHas(t.index);
    hide RecordOk, AsInt32, HasBit;
    var j :| 0 <= j < |posted| && posted[j] == RecoveryTask(r, t, now);
    assert (before + posted)[|before| + j] == posted[j];
  }

  lemma TypedHas(r: Record, t: AllowTime)
    requires RecordOk(r) && t in r.times
    ensures t.index < TYPES
  {
    hide UnionMask;
    var j :| 0 <= j < |r.times| && r.times[j] == t;
  }

  lemma AllTypesHas(i: nat)
    requires i < TYPES
    ensures HasBit(ALL_TYPES, i)
  {
  }

  /** With 2^31 ms left, 24 days and 20 hours, the recovered sweep is due at once: it runs, takes
      nothing, and the entry is left without any sweep. */
  lemma LongEntryIsForgotten(now: int)
    requires now >= 0
    ensures var t := AllowTime(WORK_SCHEDULER_INDEX, now + 0x8000_0000, "");
            var r := Record(1, 7, "a", Bit(WORK_SCHEDULER_INDEX), [t], 0);
            var s := Store(map[Key(1, "a") := r], map[], [], [RecoveryTask(r, t, now)]);
            && RecordOk(r) && s.tasks[0].due == now
            && RunSweep(s, 0, now) == s.(tasks := [])
  {
    var t := AllowTime(WORK_SCHEDULER_INDEX, now + 0x8000_0000, "");
    var r := Record(1, 7, "a", Bit(WORK_SCHEDULER_INDEX), [t], 0);
    var s := Store(map[Key(1, "a") := r], map[], [], [RecoveryTask(r, t, now)]);
    assert AsInt32(0x8000_0000) == -0x8000_0000;
    assert r.times[..0] == [];
    assert UnionMask(r.times) == Bit(WORK_SCHEDULER_INDEX) by {
      assert UnionMask([]) == 0;
      ZeroOr(Bit(WORK_SCHEDULER_INDEX));
    }
    BitHas(WORK_SCHEDULER_INDEX, WORK_SCHEDULER_INDEX);
    assert Removed(r.times, ALL_TYPES, false, now) == 0;
    hide Key, Bit, Removed, Kept, UnionMask;
    assert s.tasks[..0] + s.tasks[1..] == [];
  }

  lemma ZeroOr(bit: bv32)
    ensures Or(0, bit) == bit
  {
  }

  // ---------------------------------------------------------------- a second life

  predicate RequestFits(req: Request, pid: int, now: int)
    requires |req.caps| == TYPES
  {
    && IsInt32(req.uid) && IsInt32(pid) && IsUint32(req.reasonCode)
    && forall i :: 0 <= i < TYPES ==> IsInt64(now + Span(req, i))
  }

  predicate MoveFits(m: AllowMove) {
    m.step.ApplyStep? && |m.step.req.caps| == TYPES ==> RequestFits(m.step.req, m.step.pid, m.now)
  }

  predicate RecordsFit(records: map<string, Record>) {
    forall k :: k in records ==> Fits(records[k])
  }

  lemma TouchFits(times: seq<AllowTime>, i: nat, end: int, reason: string)
    requires TimesFit(times) && i < TYPES && IsInt64(end)
    ensures TimesFit(Touch(times, i, end, reason))
  {
    var k := Find(times, i);
    if k < |times| { assert times[k] in times; }
  }

  lemma {:induction false} UpdateFits(mask: bv32, times: seq<AllowTime>, req: Request, now: int, n: nat)
    requires TimesFit(times) && n <= |req.caps| == TYPES
    requires forall i :: 0 <= i < TYPES ==> IsInt64(now + Span(req, i))
    ensures TimesFit(UpdateUpTo(mask, times, req, now, n).times)
  {
    if n > 0 {
      UpdateFits(mask, times, req, now, n - 1);
      hide HasBit, Or, Bit, TimesFit, Touch;
      TouchFits(UpdateUpTo(mask, times, req, now, n - 1).times, n - 1, now + Span(req, n - 1), req.reason);
    }
  }

  lemma ApplyFits(s: Store, req: Request, pid: int, now: int)
    requires |req.caps| == TYPES && RecordsFit(s.records) && RequestFits(req, pid, now)
    ensures RecordsFit(Apply(s, req, pid, now).records)
  {
    var r := Base(s, req, pid);
    assert Fits(r.(mask := 0));
    UpdateFits(r.mask, r.times, req, now, TYPES);
    hide Key, UpdateUpTo, Xor, And, FileOf, TimesFit;
  }

  lemma UnapplyFits(s: Store, uid: int, name: string, mask: bv32, removeAll: bool, now: int)
    requires RecordsFit(s.records)
    ensures RecordsFit(Unapply(s, uid, name, mask, removeAll, now).records)
  {
    var k := Key(uid, name);
    if k in s.records {
      KeptExactly(s.records[k].times, mask, removeAll, now);
      assert Fits(s.records[k]);
    }
    hide Key, Kept, Removed, And, Subtract, FileOf, Takes;
  }

  lemma {:induction false} ExecFits(w: World, run: seq<AllowMove>)
    requires ValidAllowRun(w, run) && RecordsFit(w.store.records)
    requires forall i :: 0 <= i < |run| ==> MoveFits(run[i])
    ensures RecordsFit(AllowExec(w, run).store.records)
    decreases run
  {
    if run != [] {
      var m := run[0];
      StepFits(w, m);
      assert forall i :: 0 <= i < |run[1..]| ==> run[1..][i] == run[i + 1];
      hide RecordsFit, AllowNext, AllowEnabled, MoveFits;
      ExecFits(AllowNext(w, m), run[1..]);
    }
  }

  lemma StepFits(w: World, m: AllowMove)
    requires AllowEnabled(w, m) && RecordsFit(w.store.records) && MoveFits(m)
    ensures RecordsFit(AllowNext(w, m).store.records)
  {
    hide Apply, Unapply, RecordsFit, RequestFits;
    match m.step
    case ApplyStep(req, pid) => ApplyFits(w.store, req, pid, m.now);
    case UnapplyStep(uid, name, mask) => UnapplyFits(w.store, uid, name, mask, true, m.now);
    case SweepStep(j) =>
      var t := w.store.tasks[j];
      SameRecordsFit(w.store, j);
      UnapplyFits(Without(w.store, j), t.uid, t.name, t.mask, false, m.now);
    case ExtraSweep(uid, name, mask) => UnapplyFits(w.store, uid, name, mask, false, m.now);
  }

  lemma SameRecordsFit(s: Store, j: nat)
    requires j < |s.tasks| && RecordsFit(s.records)
    ensures RecordsFit(Without(s, j).records)
  {
  }

  /** The world after a restart: memory and posted sweeps are gone, the file is read back. */
  function Restarted(w: World, procs: map<int, string>, posted: seq<SweepTask>, now: int): World {
    World(Load(Store(map[], w.store.file, [], []), Some(w.store.file), procs, posted), now, now)
  }

  /** A run, a restart and another run: what every state keeps, it keeps across the restart, as
      long as every entry read back is on time. */
  lemma SecondLife(run: seq<AllowMove>, procs: map<int, string>, posted: seq<SweepTask>, now: int, more: seq<AllowMove>)
    requires ValidAllowRun(EMPTY_WORLD, run) && forall i :: 0 <= i < |run| ==> MoveFits(run[i])
    requires procs != map[]
    requires var w := Restarted(AllowExec(EMPTY_WORLD, run), procs, posted, now);
             && Recovers(posted, w.store.records, now)
             && (forall k, t :: k in w.store.records && t in w.store.records[k].times ==> OnTime(t, now))
             && ValidAllowRun(w, more)
    ensures var w := AllowExec(Restarted(AllowExec(EMPTY_WORLD, run), procs, posted, now), more);
            && AllowInv(w)
            && ((forall j :: 0 <= j < |w.store.tasks| ==> w.store.tasks[j].due > w.now) ==>
                  forall k, e :: k in w.store.records && e in w.store.records[k].times ==> e.endTime > w.now)
  {
    var w0 := AllowExec(EMPTY_WORLD, run);
    EmptyWorldHolds();
    AllowExecKeeps(EMPTY_WORLD, run);
    ExecFits(EMPTY_WORLD, run);
    var w := Restarted(w0, procs, posted, now);
    hide AllowExec, ValidAllowRun, Told, Recovers, OnTime;
    RestartHolds(w0, procs, posted, now);
    AllowExecKeeps(w, more);
    var w1 := AllowExec(w, more);
    hide Restarted, AllowInv, Covered;
    if forall j :: 0 <= j < |w1.store.tasks| ==> w1.store.tasks[j].due > w1.now { LaterNothingOutlives(w1); }
  }

  lemma LaterNothingOutlives(w: World)
    requires AllowInv(w) && forall j :: 0 <= j < |w.store.tasks| ==> w.store.tasks[j].due > w.now
    ensures forall k, e :: k in w.store.records && e in w.store.records[k].times ==> e.endTime > w.now
  {
    hide RecordsOk, Covered, FileOf;
    NothingOutlives(w.store, w.since, w.now);
  }

  lemma RestartHolds(w: World, procs: map<int, string>, posted: seq<SweepTask>, now: int)
    requires AllowInv(w) && RecordsFit(w.store.records) && procs != map[]
    requires var q := Restarted(w, procs, posted, now);
             && Recovers(posted, q.store.records, now)
             && (forall k, t :: k in q.store.records && t in q.store.records[k].times ==> OnTime(t, now))
    ensures AllowInv(Restarted(w, procs, posted, now))
  {
    var q := Restarted(w, procs, posted, now);
    RestartStore(w, procs, posted, now);
    AliveOk(w.store.records, procs);
    hide RecordsOk, FileOf, Restarted, Recovers, OnTime, Alive, Covered;
    RecoveredIsCovered(q.store.(tasks := []), posted, now);
    assert q.store == q.store.(tasks := []).(tasks := [] + posted);
  }

  lemma RestartStore(w: World, procs: map<int, string>, posted: seq<SweepTask>, now: int)
    requires AllowInv(w) && RecordsFit(w.store.records) && procs != map[]
    ensures var q := Restarted(w, procs, posted, now);
            && q.store.records == Alive(w.store.records, procs) && q.store.file == FileOf(q.store.records)
            && q.store.tasks == posted && q.now == q.since == now
  {
    hide FileOf, Readable, Alive, RecordsOk, Covered, Fits;
    FileRoundTrip(w.store.records);
    MergeEmpty(w.store.records);
    hide Merge;
    assert [] + posted == posted;
  }

  lemma MergeEmpty(records: map<string, Record>)
    ensures Merge(map[], records) == records
  {
  }

  lemma AliveOk(records: map<string, Record>, procs: map<int, string>)
    requires RecordsOk(records)
    ensures RecordsOk(Alive(records, procs))
  {
    hide RecordOk, Key;
  }
}
