/** The store of allow records as functions on its state: who may use which resource and until
    when. Every function below is one source function; the class `AllowService` computes them in
    place. */
module AllowStore {
  import opened RecordKeys
  import StandbyTypes
  import opened AllowRecords
  import opened MaskBits

  const WORK_SCHEDULER_INDEX: nat := 3
  const TIMER_INDEX: nat := 2

  datatype Request = Request(
    uid: int, name: string, mask: bv32, duration: int, reason: string, reasonCode: int,
    caps: seq<int>)             // configured maximum of each allow type, in seconds

  /** A message to the listeners: these bits were added to or removed from an application. */
  datatype Notice = Notice(uid: int, name: string, mask: bv32, added: bool)

  /** A posted call of UnapplyAllowResInner without removeAll. */
  datatype SweepTask = SweepTask(uid: int, name: string, mask: bv32, due: int)

  datatype Store = Store(
    records: map<string, Record>,
    file: map<string, Json>,
    notices: seq<Notice>,
    tasks: seq<SweepTask>)

  function Max(a: int, b: int): int {
    if a >= b then a else b
  }

  function Min(a: int, b: int): int {
    if a <= b then a else b
  }

  // ---------------------------------------------------------------- applying

  /** How long the request allows type `i`, in milliseconds. */
  function Span(req: Request, i: nat): int
    requires i < |req.caps|
  {
    (if i == WORK_SCHEDULER_INDEX then req.duration else Min(req.duration, req.caps[i])) * StandbyTypes.MSEC_PER_SEC
  }

  /** Position of the first entry of type `i`; the length when there is none. */
  function Find(times: seq<AllowTime>, i: nat): (k: nat)
    ensures k <= |times|
    ensures k < |times| ==> times[k].index == i
    ensures forall j :: 0 <= j < k ==> times[j].index != i
  {
    if times == [] then 0
    else if times[0].index == i then 0
    else
      var k := Find(times[1..], i);
      assert forall j :: 0 < j < k + 1 ==> times[j] == times[1..][j - 1];
      k + 1
  }

  /** A new entry, or an old one that ends at the later of the two times. */
  function Touch(times: seq<AllowTime>, i: nat, end: int, reason: string): seq<AllowTime> {
    var k := Find(times, i);
    if k == |times| then times + [AllowTime(i, end, reason)]
    else times[k := AllowTime(i, Max(times[k].endTime, end), reason)]
  }

  /** The request asks for type `i`, for some time. */
  predicate Grants(req: Request, i: nat)
    requires i < |req.caps|
  {
    HasBit(req.mask, i) && Span(req, i) > 0
  }

  datatype Updated = Updated(mask: bv32, times: seq<AllowTime>, tasks: seq<SweepTask>)

  /** UpdateRecord, for the types before `n` */
  function UpdateUpTo(mask: bv32, times: seq<AllowTime>, req: Request, now: int, n: nat): Updated
    requires n <= |req.caps|
  {
    if n == 0 then Updated(mask, times, [])
    else
      var u := UpdateUpTo(mask, times, req, now, n - 1);
      if !Grants(req, n - 1) then u
      else
        var end := now + Span(req, n - 1);
        Updated(Or(u.mask, Bit(n - 1)), Touch(u.times, n - 1, end, req.reason),
                u.tasks + [SweepTask(req.uid, req.name, req.mask, end)])
  }

  /** The record ApplyAllowResInner starts from. */
  function Base(s: Store, req: Request, pid: int): Record {
    var k := Key(req.uid, req.name);
    if k in s.records then s.records[k].(pid := pid)
    else Record(req.uid, pid, req.name, 0, [], req.reasonCode)
  }

  /** ApplyAllowResInner */
  function Apply(s: Store, req: Request, pid: int, now: int): Store
    requires |req.caps| == TYPES
  {
    var k := Key(req.uid, req.name);
    var r := Base(s, req, pid);
    var u := UpdateUpTo(r.mask, r.times, req, now, TYPES);
    var records := if u.mask == 0 then s.records - {k} else s.records[k := r.(mask := u.mask, times := u.times)];
    var notices := if r.mask != u.mask then s.notices + [Notice(req.uid, req.name, Xor(u.mask, And(r.mask, u.mask)), true)]
                   else s.notices;
    Store(records, FileOf(records), notices, s.tasks + u.tasks)
  }

  // ---------------------------------------------------------------- unapplying

  /** The call takes this entry away. */
  predicate Takes(t: AllowTime, mask: bv32, removeAll: bool, now: int) {
    HasBit(mask, t.index) && (removeAll || now >= t.endTime)
  }

  function Kept(times: seq<AllowTime>, mask: bv32, removeAll: bool, now: int): seq<AllowTime> {
    if times == [] then []
    else
      var before := Kept(times[..|times| - 1], mask, removeAll, now);
      var t := times[|times| - 1];
      if Takes(t, mask, removeAll, now) then before else before + [t]
  }

  /** removedNumber: the bits of the entries taken away */
  function Removed(times: seq<AllowTime>, mask: bv32, removeAll: bool, now: int): bv32 {
    if times == [] then 0
    else
      var before := Removed(times[..|times| - 1], mask, removeAll, now);
      var t := times[|times| - 1];
      if Takes(t, mask, removeAll, now) then Or(before, And(mask, Bit(t.index))) else before
  }

  /** UnapplyAllowResInner */
  function Unapply(s: Store, uid: int, name: string, mask: bv32, removeAll: bool, now: int): Store {
    var k := Key(uid, name);
    if k !in s.records || And(mask, s.records[k].mask) == 0 then s
    else
      var r := s.records[k];
      var removed := Removed(r.times, mask, removeAll, now);
      if removed == 0 then s
      else
        var records := if removed == r.mask then s.records - {k}
                       else s.records[k := r.(mask := Subtract(r.mask, removed), times := Kept(r.times, mask, removeAll, now))];
        Store(records, FileOf(records), s.notices + [Notice(uid, name, removed, false)], s.tasks)
  }

  /** A posted sweep runs. */
  function RunSweep(s: Store, j: nat, now: int): Store
    requires j < |s.tasks|
  {
    var t := s.tasks[j];
    Unapply(s.(tasks := s.tasks[..j] + s.tasks[j + 1..]), t.uid, t.name, t.mask, false, now)
  }

  /** What RemoveAppAllowRecord takes away: everything, or what does not survive a death. */
  function DeathMask(resetAll: bool): bv32 {
    if resetAll then ALL_TYPES else Xor(Xor(ALL_TYPES, Bit(TIMER_INDEX)), Bit(WORK_SCHEDULER_INDEX))
  }

  // ---------------------------------------------------------------- listing

  datatype AllowInfo = AllowInfo(mask: bv32, name: string, duration: int)

  /** The record allows type `i` now, for callers with this reason code. */
  predicate Active(r: Record, i: nat, reasonCode: int, now: int) {
    && HasBit(r.mask, i) && r.reasonCode == reasonCode
    && var k := Find(r.times, i);
       k < |r.times| && r.times[k].endTime > now
  }

  function InfoOf(r: Record, i: nat, now: int): AllowInfo {
    var k := Find(r.times, i);
    if k == |r.times| then AllowInfo(Bit(i), r.name, 0)
    else AllowInfo(Bit(i), r.name, AsInt32(r.times[k].endTime - now))
  }

  /** GetTemporaryAllowList: what is listed for each record */
  function Listing(records: map<string, Record>, i: nat, reasonCode: int, now: int): map<string, AllowInfo> {
    map k | k in records && Active(records[k], i, reasonCode, now) :: InfoOf(records[k], i, now)
  }

  /** The record carries a permission of type `i` for callers with this reason code that has ended. */
  predicate Ended(r: Record, i: nat, reasonCode: int, now: int) {
    && HasBit(r.mask, i) && r.reasonCode == reasonCode
    && var k := Find(r.times, i);
       k < |r.times| && r.times[k].endTime <= now
  }

  /** GetPersistAllowList: what is listed for each configured name; it never ends. */
  function Persistent(i: nat, names: set<string>): map<string, AllowInfo> {
    map name | name in names :: AllowInfo(Bit(i), name, -1)
  }

  /** The list holds the entries of `listing`, each once, in the order of `keys`. */
  ghost predicate Lists(list: seq<AllowInfo>, keys: seq<string>, listing: map<string, AllowInfo>) {
    && |list| == |keys| && (forall k :: k in keys <==> k in listing)
    && (forall j, l :: 0 <= j < l < |keys| ==> keys[j] != keys[l])
    && (forall j :: 0 <= j < |keys| ==> list[j] == listing[keys[j]])
  }

  /** The answer for one type: the temporary entries, then the configured ones, if it is asked for. */
  ghost predicate AnswersType(part: seq<AllowInfo>, records: map<string, Record>, i: nat, mask: bv32, reasonCode: int,
                        now: int, names: set<string>)
  {
    if !HasBit(mask, i) then part == []
    else exists temporary, keys, lasting, order ::
           && part == temporary + lasting
           && Lists(temporary, keys, Listing(records, i, reasonCode, now))
           && Lists(lasting, order, Persistent(i, names))
  }

  function Joined(parts: seq<seq<AllowInfo>>): seq<AllowInfo> {
    if parts == [] then [] else Joined(parts[..|parts| - 1]) + parts[|parts| - 1]
  }

  /** The names that GetAllowListInner lists: temporary records and the configured ones. */
  function AllowedNames(records: map<string, Record>, mask: bv32, reasonCode: int, now: int,
                        configured: seq<set<string>>): set<string>
    requires |configured| == TYPES
  {
    (set i, k | 0 <= i < TYPES && HasBit(mask, i) && k in records && Active(records[k], i, reasonCode, now)
       :: records[k].name)
    + (set i, n | 0 <= i < TYPES && HasBit(mask, i) && n in configured[i] :: n)
  }

  /** GetEligiableRestrictSet */
  function RestrictSet(restricted: set<string>, records: map<string, Record>, mask: bv32, reasonCode: int, now: int,
                       configured: seq<set<string>>): set<string>
    requires |configured| == TYPES
  {
    restricted - AllowedNames(records, mask, reasonCode, now, configured)
  }
}
