/** The allow store in place: the record map, the posted sweeps, the notices and the file, updated
    loop by loop. Every method computes the function of `AllowStore` for its source function. */
module AllowServices {
  import opened RecordKeys
  import StandbyTypes
  import opened AllowRecords
  import opened Options
  import opened MaskBits
  import opened AllowStore
  import opened AllowProofs
  import opened AllowRuns
  import opened AllowListing
  import opened AllowReload

  class AllowService {
    var allowInfoMap: map<string, Record>
    var file: map<string, Json>
    var notices: seq<Notice>
    var tasks: seq<SweepTask>

    ghost function Snapshot(): Store
      reads this
    {
      Store(allowInfoMap, file, notices, tasks)
    }

    constructor ()
      ensures Snapshot() == Store(map[], map[], [], [])
    {
      allowInfoMap, file := map[], map[];
      notices, tasks := [], [];
    }

    // -------------------------------------------------------------- handler, listeners, file

    method PostTask(t: SweepTask)
      modifies this`tasks
      ensures tasks == old(tasks) + [t]
    {
      tasks := tasks + [t];
    }

    method NotifyAllowListChanged(uid: int, name: string, mask: bv32, added: bool)
      modifies this`notices
      ensures notices == old(notices) + [Notice(uid, name, mask, added)]
    {
      notices := notices + [Notice(uid, name, mask, added)];
    }

    method DumpPersistantData()
      modifies this`file
      ensures file == FileOf(allowInfoMap)
    {
      hide ToJson;
      var root: map<string, Json> := map[];
      var todo := allowInfoMap.Keys;
      while todo != {}
        invariant todo <= allowInfoMap.Keys
        invariant root == map k | k in allowInfoMap && k !in todo :: ToJson(allowInfoMap[k])
        decreases |todo|
      {
        var key :| key in todo;
        root := root[key := ToJson(allowInfoMap[key])];
        todo := todo - {key};
      }
      file := root;
    }

    // -------------------------------------------------------------- applying

    /** One pass over the types; each granted type extends the list, the mask and the queue. */
    method UpdateRecord(record: Record, req: Request, now: int) returns (updated: Record)
      requires |req.caps| == TYPES
      modifies this`tasks
      ensures var u := UpdateUpTo(record.mask, record.times, req, now, TYPES);
              updated == record.(mask := u.mask, times := u.times) && tasks == old(tasks) + u.tasks
    {
      hide HasBit, Or, Bit, Touch;
      var mask, times := record.mask, record.times;
      ghost var posted: seq<SweepTask> := [];
      for i := 0 to TYPES
        invariant Updated(mask, times, posted) == UpdateUpTo(record.mask, record.times, req, now, i)
        invariant tasks == old(tasks) + posted
      {
        if !HasBit(req.mask, i) { continue; }
        var maxDuration := req.duration * StandbyTypes.MSEC_PER_SEC;
        if i != WORK_SCHEDULER_INDEX { maxDuration := Min(req.duration, req.caps[i]) * StandbyTypes.MSEC_PER_SEC; }
        if maxDuration <= 0 { continue; }
        var endTime := now + maxDuration;
        times := TouchTime(times, i, endTime, req.reason);
        mask := Or(mask, Bit(i));
        PostTask(SweepTask(req.uid, req.name, req.mask, endTime));
        posted := posted + [SweepTask(req.uid, req.name, req.mask, endTime)];
      }
      updated := record.(mask := mask, times := times);
    }

    /** Find the entry of the type, then append or extend it. */
    method TouchTime(times: seq<AllowTime>, i: nat, end: int, reason: string) returns (touched: seq<AllowTime>)
      ensures touched == Touch(times, i, end, reason)
    {
      var k := 0;
      while k < |times| && times[k].index != i
        invariant 0 <= k <= |times|
        invariant forall j :: 0 <= j < k ==> times[j].index != i
      {
        k := k + 1;
      }
      assert k == Find(times, i);
      if k == |times| { return times + [AllowTime(i, end, reason)]; }
      touched := times[k := AllowTime(i, Max(times[k].endTime, end), reason)];
    }

    method ApplyAllowResInner(req: Request, pid: int, now: int)
      requires |req.caps| == TYPES
      modifies this
      ensures Snapshot() == Apply(old(Snapshot()), req, pid, now)
    {
      hide UpdateUpTo, Xor, And, Key, FileOf;
      var key := Key(req.uid, req.name);
      var preAllowType: bv32 := 0;
      var record := Record(req.uid, pid, req.name, 0, [], req.reasonCode);
      if key in allowInfoMap {
        record := allowInfoMap[key].(pid := pid);
        preAllowType := record.mask;
      }
      record := UpdateRecord(record, req, now);
      allowInfoMap := allowInfoMap[key := record];
      if preAllowType != record.mask {
        NotifyAllowListChanged(req.uid, req.name, Xor(record.mask, And(preAllowType, record.mask)), true);
      }
      if record.mask == 0 {
        allowInfoMap := allowInfoMap - {key};
        assert allowInfoMap == old(allowInfoMap) - {key};
      }
      DumpPersistantData();
    }

    // -------------------------------------------------------------- unapplying

    method UnapplyAllowResInner(uid: int, name: string, mask: bv32, removeAll: bool, now: int)
      modifies this`allowInfoMap, this`notices, this`file
      ensures Snapshot() == Unapply(old(Snapshot()), uid, name, mask, removeAll, now)
    {
      hide And, Or, Subtract, HasBit, Bit, Key, FileOf;
      var key := Key(uid, name);
      if key !in allowInfoMap { return; }
      var record := allowInfoMap[key];
      if And(mask, record.mask) == 0 { return; }
      var kept: seq<AllowTime> := [];
      var removedNumber: bv32 := 0;
      for i := 0 to |record.times|
        invariant kept == Kept(record.times[..i], mask, removeAll, now)
        invariant removedNumber == Removed(record.times[..i], mask, removeAll, now)
      {
        var t := record.times[i];
        assert record.times[..i + 1][..i] == record.times[..i] && record.times[..i + 1][i] == t;
        if HasBit(mask, t.index) && (removeAll || now >= t.endTime) {
          removedNumber := Or(removedNumber, And(mask, Bit(t.index)));
        } else {
          kept := kept + [t];
        }
      }
      assert record.times[..|record.times|] == record.times;
      hide Kept, Removed;
      if removedNumber == 0 { return; }
      if removedNumber == record.mask {
        allowInfoMap := allowInfoMap - {key};
      } else {
        allowInfoMap := allowInfoMap[key := record.(mask := Subtract(record.mask, removedNumber), times := kept)];
      }
      NotifyAllowListChanged(uid, name, removedNumber, false);
      DumpPersistantData();
    }

    /** An application died, or was uninstalled. */
    method RemoveAppAllowRecord(uid: int, name: string, resetAll: bool, now: int)
      modifies this`allowInfoMap, this`notices, this`file
      ensures Snapshot() == Unapply(old(Snapshot()), uid, name, DeathMask(resetAll), true, now)
    {
      hide Unapply, Xor, Bit;
      var mask := if resetAll then ALL_TYPES else Xor(Xor(ALL_TYPES, Bit(TIMER_INDEX)), Bit(WORK_SCHEDULER_INDEX));
      UnapplyAllowResInner(uid, name, mask, true, now);
    }

    /** The handler runs a posted sweep. */
    method RunTask(j: nat, now: int)
      requires j < |tasks|
      modifies this
      ensures Snapshot() == RunSweep(old(Snapshot()), j, now)
    {
      hide Unapply;
      var t := tasks[j];
      tasks := tasks[..j] + tasks[j + 1..];
      UnapplyAllowResInner(t.uid, t.name, t.mask, false, now);
    }

    // -------------------------------------------------------------- listing

    /** The records allowed for a type, each once, in some order; every record whose entry has ended
        is handed to a sweep instead, and no other is. */
    method GetTemporaryAllowList(i: nat, reasonCode: int, now: int)
        returns (list: seq<AllowInfo>, ghost keys: seq<string>, ghost swept: seq<string>)
      requires i < TYPES
      modifies this`tasks
      ensures Lists(list, keys, Listing(allowInfoMap, i, reasonCode, now))
      ensures EndedKeys(swept, allowInfoMap, i, reasonCode, now)
      ensures tasks == old(tasks) + SweepsOf(allowInfoMap, swept, now)
    {
      NoSweeps(allowInfoMap, now);
      hide HasBit, Bit, InfoOf, SweepsOf, Active, Ended;
      list, keys, swept := [], [], [];
      var todo := allowInfoMap.Keys;
      while todo != {}
        invariant todo <= allowInfoMap.Keys && |list| == |keys|
        invariant forall k :: k in keys <==> k in allowInfoMap && k !in todo && Active(allowInfoMap[k], i, reasonCode, now)
        invariant forall j, l :: 0 <= j < l < |keys| ==> keys[j] != keys[l]
        invariant forall j :: 0 <= j < |keys| ==> list[j] == InfoOf(allowInfoMap[keys[j]], i, now)
        invariant forall k :: k in swept <==> k in allowInfoMap && k !in todo && Ended(allowInfoMap[k], i, reasonCode, now)
        invariant forall j, l :: 0 <= j < l < |swept| ==> swept[j] != swept[l]
        invariant tasks == old(tasks) + SweepsOf(allowInfoMap, swept, now)
        decreases |todo|
      {
        var key :| key in todo;
        todo := todo - {key};
        var record := allowInfoMap[key];
        ActiveOrEnded(record, i, reasonCode, now);
        if !HasBit(record.mask, i) { continue; }
        if record.reasonCode != reasonCode { continue; }
        var k := FindTime(record.times, i);
        if k == |record.times| { continue; }
        var duration := Max(record.times[k].endTime - now, 0);
        if duration > 0 {
          list := list + [ListedAs(record, i, k, now)];
          keys := keys + [key];
        } else {
          MoreSweeps(allowInfoMap, swept, key, now);
          PostTask(SweepTask(record.uid, record.name, record.mask, now));
          swept := swept + [key];
        }
      }
    }

    method FindTime(times: seq<AllowTime>, i: nat) returns (k: nat)
      ensures k == Find(times, i)
    {
      k := 0;
      while k < |times| && times[k].index != i
        invariant 0 <= k <= |times|
        invariant forall j :: 0 <= j < k ==> times[j].index != i
      {
        k := k + 1;
      }
    }

    /** The duration is narrowed to 32 bits on its way into the answer. */
    static function ListedAs(record: Record, i: nat, k: nat, now: int): (info: AllowInfo)
      requires k == Find(record.times, i) < |record.times|
      ensures info == InfoOf(record, i, now)
    {
      AllowInfo(Bit(i), record.name, AsInt32(record.times[k].endTime - now))
    }

    /** The configured names for a type, each once; the duration says that they do not end. */
    method GetPersistAllowList(i: nat, names: set<string>) returns (list: seq<AllowInfo>, ghost order: seq<string>)
      ensures Lists(list, order, Persistent(i, names))
    {
      hide Bit;
      list, order := [], [];
      var todo := names;
      while todo != {}
        invariant todo <= names && |list| == |order|
        invariant forall n :: n in order <==> n in names && n !in todo
        invariant forall j, l :: 0 <= j < l < |order| ==> order[j] != order[l]
        invariant forall j :: 0 <= j < |order| ==> list[j] == AllowInfo(Bit(i), order[j], -1)
        decreases |todo|
      {
        var name :| name in todo;
        todo := todo - {name};
        list := list + [AllowInfo(Bit(i), name, -1)];
        order := order + [name];
      }
    }

    /** The whole answer: type by type, the temporary entries and then the configured ones; and
        type by type a sweep for every record with an ended entry, and for no other. */
    method GetAllowListInner(mask: bv32, reasonCode: int, now: int, configured: seq<set<string>>)
        returns (list: seq<AllowInfo>, ghost parts: seq<seq<AllowInfo>>, ghost posted: seq<seq<SweepTask>>)
      requires |configured| == TYPES
      modifies this`tasks
      ensures list == Joined(parts) && |parts| == TYPES
      ensures forall i :: 0 <= i < TYPES ==>
                AnswersType(parts[i], allowInfoMap, i, mask, reasonCode, now, configured[i])
      ensures tasks == old(tasks) + JoinedTasks(posted) && |posted| == TYPES
      ensures forall i :: 0 <= i < TYPES ==> PostsType(posted[i], allowInfoMap, i, mask, reasonCode, now)
    {
      hide HasBit, Lists, Listing, Persistent, AnswersType, PostsType, EndedKeys;
      list, parts, posted := [], [], [];
      for i := 0 to TYPES
        invariant list == Joined(parts) && |parts| == i
        invariant forall l :: 0 <= l < i ==>
                    AnswersType(parts[l], allowInfoMap, l, mask, reasonCode, now, configured[l])
        invariant tasks == old(tasks) + JoinedTasks(posted) && |posted| == i
        invariant forall l :: 0 <= l < i ==> PostsType(posted[l], allowInfoMap, l, mask, reasonCode, now)
      {
        ghost var part, sweeps;
        list, part, sweeps := AppendType(list, i, mask, reasonCode, now, configured[i]);
        JoinedMore(parts, part);
        JoinedTasksMore(posted, sweeps);
        parts, posted := parts + [part], posted + [sweeps];
      }
    }

    /** The turn of one type in the answer. */
    method AppendType(list: seq<AllowInfo>, i: nat, mask: bv32, reasonCode: int, now: int, names: set<string>)
        returns (longer: seq<AllowInfo>, ghost part: seq<AllowInfo>, ghost sweeps: seq<SweepTask>)
      requires i < TYPES
      modifies this`tasks
      ensures longer == list + part && tasks == old(tasks) + sweeps
      ensures AnswersType(part, allowInfoMap, i, mask, reasonCode, now, names)
      ensures PostsType(sweeps, allowInfoMap, i, mask, reasonCode, now)
    {
      longer, part, sweeps := list, [], [];
      NotAsked(allowInfoMap, i, mask, reasonCode, now, names);
      hide HasBit, Lists, Listing, Persistent, AnswersType, PostsType, Ended;
      if !HasBit(mask, i) { return; }
      var temporary, keys, swept := GetTemporaryAllowList(i, reasonCode, now);
      var lasting, order := GetPersistAllowList(i, names);
      longer := longer + temporary + lasting;
      part := temporary + lasting;
      sweeps := SweepsOf(allowInfoMap, swept, now);
      TypeAnswered(temporary, keys, lasting, order, allowInfoMap, i, mask, reasonCode, now, names);
      TypePosted(swept, allowInfoMap, i, mask, reasonCode, now);
    }

    method GetEligiableRestrictSet(restricted: set<string>, mask: bv32, reasonCode: int, now: int,
                                   configured: seq<set<string>>)
        returns (restrictSet: set<string>, ghost posted: seq<seq<SweepTask>>)
      requires |configured| == TYPES && RecordsOk(allowInfoMap)
      modifies this`tasks
      ensures forall name :: name in restrictSet <==>
                name in restricted && !AllowedNow(allowInfoMap, mask, reasonCode, now, configured, name)
      ensures tasks == old(tasks) + JoinedTasks(posted) && |posted| == TYPES
      ensures forall i :: 0 <= i < TYPES ==> PostsType(posted[i], allowInfoMap, i, mask, reasonCode, now)
    {
      hide AllowedNames, AllowedNow, RecordsOk, AnswersType, Joined, PostsType, JoinedTasks;
      var allowInfoList;
      ghost var parts;
      allowInfoList, parts, posted := GetAllowListInner(mask, reasonCode, now, configured);
      var allowSet := NamesOf(allowInfoList);
      restrictSet := restricted - allowSet;
      AnsweredNames(parts, allowInfoMap, mask, reasonCode, now, configured);
      forall name
        ensures name in restrictSet <==> name in restricted && !AllowedNow(allowInfoMap, mask, reasonCode, now, configured, name)
      {
        RestrictSetExactly(restricted, allowInfoMap, mask, reasonCode, now, configured, name);
      }
    }

    // -------------------------------------------------------------- restarting

    method ParsePersistentData(loaded: Option<map<string, Json>>, procs: map<int, string>, now: int)
        returns (ok: bool)
      modifies this
      ensures ok == (procs != map[] && loaded.Some?)
      ensures |old(tasks)| <= |tasks| && tasks[..|old(tasks)|] == old(tasks)
      ensures var posted := tasks[|old(tasks)|..];
              && Snapshot() == Load(old(Snapshot()), loaded, procs, posted)
              && (ok ==> Recovers(posted, allowInfoMap, now))
    {
      hide Recovers, Readable, FileOf, IsAlive;
      assert tasks == tasks + [];
      if procs == map[] { return false; }
      if loaded.None? { return false; }
      ReadRecords(loaded.value);
      EraseDead(procs);
      ghost var posted := RecoverTimeLimitedTask(now);
      DumpPersistantData();
      assert tasks[|old(tasks)|..] == posted;
      ok := true;
    }

    method ReadRecords(root: map<string, Json>)
      modifies this`allowInfoMap
      ensures allowInfoMap == Merge(old(allowInfoMap), Readable(root))
    {
      MergeEnds(allowInfoMap, root);
      var todo := root.Keys;
      hide FromJson, Merge, ReadUntil, Readable;
      while todo != {}
        invariant todo <= root.Keys
        invariant allowInfoMap == Merge(old(allowInfoMap), ReadUntil(root, todo))
        decreases |todo|
      {
        var key :| key in todo;
        MergeMore(old(allowInfoMap), root, todo, key);
        var record := FromJson(root[key]);
        if record.Some? && key !in allowInfoMap { allowInfoMap := allowInfoMap[key := record.value]; }
        todo := todo - {key};
      }
    }

    method EraseDead(procs: map<int, string>)
      modifies this`allowInfoMap
      ensures allowInfoMap == Alive(old(allowInfoMap), procs)
    {
      var todo := allowInfoMap.Keys;
      while todo != {}
        invariant todo <= old(allowInfoMap).Keys
        invariant allowInfoMap == map k | k in old(allowInfoMap) && (k in todo || IsAlive(old(allowInfoMap)[k], procs))
                                  :: old(allowInfoMap)[k]
        decreases |todo|
      {
        var key :| key in todo;
        var record := allowInfoMap[key];
        if record.pid !in procs || procs[record.pid] != record.name { allowInfoMap := allowInfoMap - {key}; }
        todo := todo - {key};
      }
    }

    method RecoverTimeLimitedTask(now: int) returns (ghost posted: seq<SweepTask>)
      modifies this`tasks
      ensures tasks == old(tasks) + posted && Recovers(posted, allowInfoMap, now)
    {
      posted := [];
      var todo := allowInfoMap.Keys;
      ghost var done: map<string, Record> := map[];
      while todo != {}
        invariant todo <= allowInfoMap.Keys && done == map k | k in allowInfoMap && k !in todo :: allowInfoMap[k]
        invariant tasks == old(tasks) + posted && Recovers(posted, done, now)
        decreases |todo|
      {
        hide Recovers;
        var key :| key in todo;
        ghost var more := PostSweeps(allowInfoMap[key], now);
        RecoversMore(posted, done, key, allowInfoMap[key], more, now);
        posted := posted + more;
        todo := todo - {key};
        done := done[key := allowInfoMap[key]];
      }
      assert done == allowInfoMap;
    }

    /** One sweep for each entry of a record. */
    method PostSweeps(record: Record, now: int) returns (ghost posted: seq<SweepTask>)
      modifies this`tasks
      ensures tasks == old(tasks) + posted && |posted| == |record.times|
      ensures forall j :: 0 <= j < |posted| ==> posted[j] == RecoveryTask(record, record.times[j], now)
    {
      posted := [];
      for i := 0 to |record.times|
        invariant tasks == old(tasks) + posted && |posted| == i
        invariant forall j :: 0 <= j < |posted| ==> posted[j] == RecoveryTask(record, record.times[j], now)
      {
        hide AsInt32;
        var timeOut := AsInt32(record.times[i].endTime - now);
        var task := SweepTask(record.uid, record.name, ALL_TYPES, now + Max(0, timeOut));
        PostTask(task);
        posted := posted + [task];
      }
    }
  }

  // ---------------------------------------------------------------- partly processed answers

  lemma RecoversMore(posted: seq<SweepTask>, done: map<string, Record>, key: string, r: Record, more: seq<SweepTask>,
                     now: int)
    requires Recovers(posted, done, now) && key !in done && |more| == |r.times|
    requires forall j :: 0 <= j < |more| ==> more[j] == RecoveryTask(r, r.times[j], now)
    ensures Recovers(posted + more, done[key := r], now)
  {
    hide RecoveryTask;
    var all := done[key := r];
    forall k, t | k in all && t in all[k].times
      ensures RecoveryTask(all[k], t, now) in posted + more
    {
      if k == key {
        var j :| 0 <= j < |r.times| && r.times[j] == t;
        assert more[j] == RecoveryTask(r, t, now);
      } else {
        assert RecoveryTask(done[k], t, now) in posted;
      }
    }
    forall p | p in posted + more
      ensures exists k, t :: k in all && t in all[k].times && p == RecoveryTask(all[k], t, now)
    {
      if p in posted {
        var k, t :| k in done && t in done[k].times && p == RecoveryTask(done[k], t, now);
        assert all[k] == done[k];
      } else {
        var j :| 0 <= j < |more| && more[j] == p;
        assert r.times[j] in all[key].times;
      }
    }
  }

  // ---------------------------------------------------------------- reading the file

  /** The records of the file but those under the keys `todo`. */
  ghost function ReadUntil(root: map<string, Json>, todo: set<string>): map<string, Record> {
    map k | k in root && k !in todo && FromJson(root[k]).Some? :: FromJson(root[k]).value
  }

  lemma MergeEnds(records: map<string, Record>, root: map<string, Json>)
    ensures Merge(records, ReadUntil(root, root.Keys)) == records
    ensures ReadUntil(root, {}) == Readable(root)
  {
    hide FromJson;
    assert ReadUntil(root, root.Keys) == map[];
  }

  /** One more key of the file has been read. */
  lemma MergeMore(records: map<string, Record>, root: map<string, Json>, todo: set<string>, key: string)
    requires key in todo && todo <= root.Keys
    ensures var before := Merge(records, ReadUntil(root, todo));
            Merge(records, ReadUntil(root, todo - {key}))
            == if FromJson(root[key]).Some? && key !in before then before[key := FromJson(root[key]).value] else before
  {
    var a, b := ReadUntil(root, todo), ReadUntil(root, todo - {key});
    assert b == if FromJson(root[key]).Some? then a[key := FromJson(root[key]).value] else a by { hide FromJson; }
    hide ReadUntil, FromJson;
  }

  // ---------------------------------------------------------------- the answer of the allow list

  /** The keys of the records with an ended entry of type `i`, each once. */
  ghost predicate EndedKeys(keys: seq<string>, records: map<string, Record>, i: nat, reasonCode: int, now: int) {
    && (forall k :: k in keys <==> k in records && Ended(records[k], i, reasonCode, now))
    && (forall j, l :: 0 <= j < l < |keys| ==> keys[j] != keys[l])
  }

  /** The sweeps that asking for type `i` posts: one for every record with an ended entry of it. */
  ghost predicate PostsType(posted: seq<SweepTask>, records: map<string, Record>, i: nat, mask: bv32, reasonCode: int,
                            now: int)
  {
    if !HasBit(mask, i) then posted == []
    else exists keys :: EndedKeys(keys, records, i, reasonCode, now) && posted == SweepsOf(records, keys, now)
  }

  ghost function JoinedTasks(posted: seq<seq<SweepTask>>): seq<SweepTask> {
    if posted == [] then [] else JoinedTasks(posted[..|posted| - 1]) + posted[|posted| - 1]
  }

  lemma JoinedTasksMore(posted: seq<seq<SweepTask>>, sweeps: seq<SweepTask>)
    ensures JoinedTasks(posted + [sweeps]) == JoinedTasks(posted) + sweeps
  {
    assert (posted + [sweeps])[..|posted|] == posted;
  }

  lemma TypePosted(keys: seq<string>, records: map<string, Record>, i: nat, mask: bv32, reasonCode: int, now: int)
    requires HasBit(mask, i) && EndedKeys(keys, records, i, reasonCode, now)
    requires forall k :: k in keys ==> k in records
    ensures PostsType(SweepsOf(records, keys, now), records, i, mask, reasonCode, now)
  {
    hide HasBit, SweepsOf;
  }

  /** One sweep for each of these records, due now. */
  ghost function SweepsOf(records: map<string, Record>, keys: seq<string>, now: int): seq<SweepTask>
    requires forall k :: k in keys ==> k in records
  {
    seq(|keys|, j requires 0 <= j < |keys| =>
      SweepTask(records[keys[j]].uid, records[keys[j]].name, records[keys[j]].mask, now))
  }

  lemma ActiveOrEnded(r: Record, i: nat, reasonCode: int, now: int)
    ensures var k := Find(r.times, i);
            var present := HasBit(r.mask, i) && r.reasonCode == reasonCode && k < |r.times|;
            && (Active(r, i, reasonCode, now) <==> present && r.times[k].endTime > now)
            && (Ended(r, i, reasonCode, now) <==> present && r.times[k].endTime <= now)
  {
    hide HasBit;
  }

  lemma NoSweeps(records: map<string, Record>, now: int)
    ensures SweepsOf(records, [], now) == []
  {
  }

  lemma MoreSweeps(records: map<string, Record>, keys: seq<string>, k: string, now: int)
    requires k in records && forall l :: l in keys ==> l in records
    ensures SweepsOf(records, keys + [k], now)
         == SweepsOf(records, keys, now) + [SweepTask(records[k].uid, records[k].name, records[k].mask, now)]
  {
  }

  lemma TypeAnswered(temporary: seq<AllowInfo>, keys: seq<string>, lasting: seq<AllowInfo>, order: seq<string>,
                     records: map<string, Record>, i: nat, mask: bv32, reasonCode: int, now: int, names: set<string>)
    requires HasBit(mask, i)
    requires Lists(temporary, keys, Listing(records, i, reasonCode, now)) && Lists(lasting, order, Persistent(i, names))
    ensures AnswersType(temporary + lasting, records, i, mask, reasonCode, now, names)
  {
    hide HasBit, Lists, Listing, Persistent;
  }

  lemma NotAsked(records: map<string, Record>, i: nat, mask: bv32, reasonCode: int, now: int, names: set<string>)
    ensures !HasBit(mask, i) ==>
              AnswersType([], records, i, mask, reasonCode, now, names) && PostsType([], records, i, mask, reasonCode, now)
  {
  }

  lemma JoinedMore(parts: seq<seq<AllowInfo>>, part: seq<AllowInfo>)
    ensures Joined(parts + [part]) == Joined(parts) + part
  {
    assert (parts + [part])[..|parts|] == parts;
  }

  function NamesOf(list: seq<AllowInfo>): set<string> {
    set info | info in list :: info.name
  }

  function ActiveNames(records: map<string, Record>, i: nat, reasonCode: int, now: int): set<string> {
    set k | k in records && Active(records[k], i, reasonCode, now) :: records[k].name
  }

  lemma ListedName(list: seq<AllowInfo>, keys: seq<string>, listing: map<string, AllowInfo>, name: string)
    requires Lists(list, keys, listing)
    ensures name in NamesOf(list) <==> exists k :: k in listing && listing[k].name == name
  {
    if name in NamesOf(list) {
      var info :| info in list && info.name == name;
      var j :| 0 <= j < |list| && list[j] == info;
      assert keys[j] in keys;
    }
    if k :| k in listing && listing[k].name == name {
      var j :| 0 <= j < |keys| && keys[j] == k;
      assert list[j] in list;
    }
  }

  /** The names in the answer for one type. */
  lemma TypeNames(part: seq<AllowInfo>, records: map<string, Record>, i: nat, mask: bv32, reasonCode: int, now: int,
                  names: set<string>, name: string)
    requires AnswersType(part, records, i, mask, reasonCode, now, names)
    ensures name in NamesOf(part) <==>
              HasBit(mask, i) && (name in ActiveNames(records, i, reasonCode, now) || name in names)
  {
    hide HasBit, Lists, Active, InfoOf;
    if HasBit(mask, i) {
      var temporary, keys, lasting, order :|
        && part == temporary + lasting
        && Lists(temporary, keys, Listing(records, i, reasonCode, now))
        && Lists(lasting, order, Persistent(i, names));
      ListedName(temporary, keys, Listing(records, i, reasonCode, now), name);
      ListedName(lasting, order, Persistent(i, names), name);
      NamesSplit(temporary, lasting, name);
      ListingNames(records, i, reasonCode, now, name);
      PersistentNames(i, names, name);
      hide NamesOf, Listing, Persistent;
    }
  }

  lemma NamesSplit(a: seq<AllowInfo>, b: seq<AllowInfo>, name: string)
    ensures name in NamesOf(a + b) <==> name in NamesOf(a) || name in NamesOf(b)
  {
  }

  lemma ListingNames(records: map<string, Record>, i: nat, reasonCode: int, now: int, name: string)
    ensures (exists k :: k in Listing(records, i, reasonCode, now)
                         && Listing(records, i, reasonCode, now)[k].name == name)
            <==> name in ActiveNames(records, i, reasonCode, now)
  {
    hide Active, Bit, AsInt32;
    var listing := Listing(records, i, reasonCode, now);
    assert forall k :: k in listing ==> listing[k].name == records[k].name;
    if name in ActiveNames(records, i, reasonCode, now) {
      var k :| k in records && Active(records[k], i, reasonCode, now) && records[k].name == name;
      assert k in listing;
    }
  }

  lemma PersistentNames(i: nat, names: set<string>, name: string)
    ensures (exists k :: k in Persistent(i, names) && Persistent(i, names)[k].name == name) <==> name in names
  {
    hide Bit;
    if name in names { assert name in Persistent(i, names); }
  }

  lemma {:induction false} JoinedNames(parts: seq<seq<AllowInfo>>, name: string)
    ensures name in NamesOf(Joined(parts)) <==> exists i :: 0 <= i < |parts| && name in NamesOf(parts[i])
  {
    if parts != [] {
      var before, last := parts[..|parts| - 1], parts[|parts| - 1];
      JoinedNames(before, name);
      NamesSplit(Joined(before), last, name);
      assert forall i :: 0 <= i < |before| ==> before[i] == parts[i];
      hide NamesOf;
      if name in NamesOf(last) { assert name in NamesOf(parts[|parts| - 1]); }
      if i :| 0 <= i < |before| && name in NamesOf(before[i]) { assert name in NamesOf(parts[i]); }
    }
  }

  /** The names in the whole answer. */
  lemma AnsweredNames(parts: seq<seq<AllowInfo>>, records: map<string, Record>, mask: bv32, reasonCode: int, now: int,
                      configured: seq<set<string>>)
    requires |configured| == TYPES && |parts| == TYPES
    requires forall i :: 0 <= i < TYPES ==> AnswersType(parts[i], records, i, mask, reasonCode, now, configured[i])
    ensures NamesOf(Joined(parts)) == AllowedNames(records, mask, reasonCode, now, configured)
  {
    forall name
      ensures name in NamesOf(Joined(parts)) <==> name in AllowedNames(records, mask, reasonCode, now, configured)
    {
      JoinedNames(parts, name);
      forall i | 0 <= i < TYPES
        ensures name in NamesOf(parts[i]) <==>
                  HasBit(mask, i) && (name in ActiveNames(records, i, reasonCode, now) || name in configured[i])
      {
        TypeNames(parts[i], records, i, mask, reasonCode, now, configured[i], name);
      }
      AllowedName(records, mask, reasonCode, now, configured, name);
      hide NamesOf, Joined, AnswersType, AllowedNames, HasBit, ActiveNames;
    }
  }

  lemma AllowedName(records: map<string, Record>, mask: bv32, reasonCode: int, now: int,
                    configured: seq<set<string>>, name: string)
    requires |configured| == TYPES
    ensures name in AllowedNames(records, mask, reasonCode, now, configured) <==>
              exists i :: 0 <= i < TYPES && HasBit(mask, i)
                          && (name in ActiveNames(records, i, reasonCode, now) || name in configured[i])
  {
    hide HasBit, Active;
    if name in AllowedNames(records, mask, reasonCode, now, configured) {
      if i, k :| 0 <= i < TYPES && HasBit(mask, i) && k in records && Active(records[k], i, reasonCode, now)
                 && records[k].name == name {
        assert name in ActiveNames(records, i, reasonCode, now);
      } else {
        var i, n :| 0 <= i < TYPES && HasBit(mask, i) && n in configured[i] && n == name;
      }
    }
  }
}
