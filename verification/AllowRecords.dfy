/** Allow records and their JSON form. */
module AllowRecords {
  import opened Options

  datatype AllowTime = AllowTime(index: nat, endTime: int, reason: string)

  datatype Record = Record(uid: int, pid: int, name: string, mask: bv32, times: seq<AllowTime>, reasonCode: int)

  datatype Json =
    | Null
    | Number(n: int)
    | Text(s: string)
    | Array(items: seq<Json>)
    | Object(fields: map<string, Json>)

  // ---------------------------------------------------------------- narrowing reads

  /** get<int32_t> */
  function AsInt32(n: int): int {
    (n + 0x8000_0000) % 0x1_0000_0000 - 0x8000_0000
  }

  /** get<uint32_t> */
  function AsUint32(n: int): nat {
    n % 0x1_0000_0000
  }

  /** get<uint32_t> of a mask, and the number it is written as */
  function AsMask(n: int): bv32 {
    AsUint32(n) as bv32
  }

  function MaskNumber(mask: bv32): int {
    mask as int
  }

  /** get<int64_t> */
  function AsInt64(n: int): int {
    (n + 0x8000_0000_0000_0000) % 0x1_0000_0000_0000_0000 - 0x8000_0000_0000_0000
  }

  // ---------------------------------------------------------------- writing

  function TimeToJson(t: AllowTime): Json {
    Object(map["allowTypeIndex" := Number(t.index), "endTime" := Number(t.endTime), "reason" := Text(t.reason)])
  }

  function TimesToJson(times: seq<AllowTime>): seq<Json> {
    if times == [] then [] else TimesToJson(times[..|times| - 1]) + [TimeToJson(times[|times| - 1])]
  }

  /** ParseToJson: an empty list is not written. */
  function ToJson(r: Record): Json {
    var fields := map["uid" := Number(r.uid), "pid" := Number(r.pid), "name" := Text(r.name),
                      "allowType" := Number(MaskNumber(r.mask)), "reasonCode" := Number(r.reasonCode)];
    Object(if r.times == [] then fields else fields["allowTimeList" := Array(TimesToJson(r.times))])
  }

  // ---------------------------------------------------------------- reading

  predicate HasNumber(v: Json, key: string) {
    v.Object? && key in v.fields && v.fields[key].Number?
  }

  predicate HasText(v: Json, key: string) {
    v.Object? && key in v.fields && v.fields[key].Text?
  }

  /** setAllowTime */
  function TimeFromJson(v: Json): Option<AllowTime> {
    if !HasNumber(v, "allowTypeIndex") || !HasNumber(v, "endTime") || !HasText(v, "reason") then None
    else Some(AllowTime(AsUint32(v.fields["allowTypeIndex"].n), AsInt64(v.fields["endTime"].n), v.fields["reason"].s))
  }

  /** One entry that cannot be read spoils the list. */
  function TimesFromJson(items: seq<Json>): Option<seq<AllowTime>> {
    if items == [] then Some([])
    else
      var before := TimesFromJson(items[..|items| - 1]);
      var last := TimeFromJson(items[|items| - 1]);
      if before.None? || last.None? then None else Some(before.value + [last.value])
  }

  /** json::empty */
  predicate IsEmpty(v: Json) {
    match v
    case Null => true
    case Array(items) => items == []
    case Object(fields) => fields == map[]
    case _ => false
  }

  /** ParseFromJson, with setAllowRecordField */
  function FromJson(v: Json): Option<Record> {
    if IsEmpty(v) then None
    else if !HasNumber(v, "uid") || !HasNumber(v, "pid") || !HasText(v, "name") || !HasNumber(v, "allowType")
            || !HasNumber(v, "reasonCode") then None
    else
      var times := if "allowTimeList" in v.fields && v.fields["allowTimeList"].Array?
                   then TimesFromJson(v.fields["allowTimeList"].items) else Some([]);
      if times.None? then None
      else Some(Record(AsInt32(v.fields["uid"].n), AsInt32(v.fields["pid"].n), v.fields["name"].s,
                       AsMask(v.fields["allowType"].n), times.value, AsUint32(v.fields["reasonCode"].n)))
  }

  // ---------------------------------------------------------------- round trips

  predicate IsInt32(n: int) {
    -0x8000_0000 <= n < 0x8000_0000
  }

  predicate IsUint32(n: int) {
    0 <= n < 0x1_0000_0000
  }

  predicate IsInt64(n: int) {
    -0x8000_0000_0000_0000 <= n < 0x8000_0000_0000_0000
  }

  predicate TimesFit(times: seq<AllowTime>) {
    forall t :: t in times ==> IsUint32(t.index) && IsInt64(t.endTime)
  }

  /** Every number fits the width of its field. */
  predicate Fits(r: Record) {
    IsInt32(r.uid) && IsInt32(r.pid) && IsUint32(r.reasonCode) && TimesFit(r.times)
  }

  lemma Uint32Same(n: int)
    requires IsUint32(n)
    ensures AsUint32(n) == n
  {
  }

  lemma BitsSame(mask: bv32)
    ensures IsUint32(mask as int) && (mask as int) as bv32 == mask
  {
  }

  lemma MaskRoundTrip(mask: bv32)
    ensures AsMask(MaskNumber(mask)) == mask
  {
    hide AsUint32;
    BitsSame(mask);
    Uint32Same(mask as int);
  }

  lemma TimeRoundTrip(t: AllowTime)
    ensures IsUint32(t.index) && IsInt64(t.endTime) ==> TimeFromJson(TimeToJson(t)) == Some(t)
  {
  }

  lemma {:induction false} TimesRoundTrip(times: seq<AllowTime>)
    requires TimesFit(times)
    ensures TimesFromJson(TimesToJson(times)) == Some(times)
  {
    if times != [] {
      var before, last := times[..|times| - 1], times[|times| - 1];
      assert times == before + [last];
      TimesRoundTrip(before);
      TimeRoundTrip(last);
      var items := TimesToJson(times);
      assert items[..|items| - 1] == TimesToJson(before) && items[|items| - 1] == TimeToJson(last);
      hide TimeToJson, TimeFromJson;
    }
  }

  lemma NumbersSame(r: Record)
    requires Fits(r)
    ensures AsInt32(r.uid) == r.uid && AsInt32(r.pid) == r.pid && AsUint32(r.reasonCode) == r.reasonCode
  {
  }

  lemma WrittenFields(r: Record)
    ensures var v := ToJson(r);
            && HasNumber(v, "uid") && HasNumber(v, "pid") && HasText(v, "name") && HasNumber(v, "allowType")
            && HasNumber(v, "reasonCode") && v.fields["uid"].n == r.uid && v.fields["pid"].n == r.pid
            && v.fields["name"].s == r.name && v.fields["allowType"].n == MaskNumber(r.mask)
            && v.fields["reasonCode"].n == r.reasonCode
  {
    hide TimesToJson, MaskNumber;
  }

  lemma WrittenTimes(r: Record)
    ensures var v := ToJson(r);
            && !IsEmpty(v)
            && if r.times == [] then "allowTimeList" !in v.fields
               else "allowTimeList" in v.fields && v.fields["allowTimeList"] == Array(TimesToJson(r.times))
  {
    hide TimesToJson, MaskNumber;
    assert "uid" in ToJson(r).fields;
  }

  /** What is written for a record is read back as that record. */
  lemma RecordRoundTrip(r: Record)
    requires Fits(r)
    ensures FromJson(ToJson(r)) == Some(r)
  {
    MaskRoundTrip(r.mask);
    TimesRoundTrip(r.times);
    NumbersSame(r);
    WrittenFields(r);
    WrittenTimes(r);
    hide TimesToJson, TimesFromJson, TimesFit, ToJson, IsEmpty, AsInt32, AsUint32, AsMask, MaskNumber;
  }

  // ---------------------------------------------------------------- what can be read

  /** The object has this field, as a number or as a text. */
  predicate HasField(v: Json, key: string, number: bool) {
    v.Object? && key in v.fields && (if number then v.fields[key].Number? else v.fields[key].Text?)
  }

  predicate IsTimeObject(v: Json) {
    HasField(v, "allowTypeIndex", true) && HasField(v, "endTime", true) && HasField(v, "reason", false)
  }

  /** An object with the five fields of a record whose list of times, if it has one, holds only
      objects with the three fields of a time. */
  predicate IsRecordObject(v: Json) {
    && HasField(v, "uid", true) && HasField(v, "pid", true) && HasField(v, "name", false)
    && HasField(v, "allowType", true) && HasField(v, "reasonCode", true)
    && (HasTimes(v) ==> forall t :: t in v.fields["allowTimeList"].items ==> IsTimeObject(t))
  }

  predicate HasTimes(v: Json) {
    v.Object? && "allowTimeList" in v.fields && v.fields["allowTimeList"].Array?
  }

  lemma {:induction false} TimesReadableExactly(items: seq<Json>)
    ensures var r := TimesFromJson(items);
            && (r.Some? <==> forall t :: t in items ==> IsTimeObject(t))
            && (r.Some? ==> |r.value| == |items| && forall j :: 0 <= j < |items| ==> TimeFromJson(items[j]) == Some(r.value[j]))
  {
    if items != [] {
      var before, last := items[..|items| - 1], items[|items| - 1];
      assert items == before + [last];
      TimesReadableExactly(before);
      assert TimeFromJson(last).Some? <==> IsTimeObject(last);
      hide TimeFromJson, IsTimeObject;
    }
  }

  /** A value reads as a record exactly when it has that form, and every number is read modulo the
      width of its field. */
  lemma ReadableExactly(v: Json)
    ensures FromJson(v).Some? <==> IsRecordObject(v)
    ensures FromJson(v).Some? ==>
              var r := FromJson(v).value;
              && Narrowed(v.fields["uid"].n, r.uid) && Narrowed(v.fields["pid"].n, r.pid) && r.name == v.fields["name"].s
              && IsUint32(r.reasonCode) && (r.reasonCode - v.fields["reasonCode"].n) % 0x1_0000_0000 == 0
              && |r.times| == if HasTimes(v) then |v.fields["allowTimeList"].items| else 0
  {
    if HasTimes(v) { TimesReadableExactly(v.fields["allowTimeList"].items); }
    if HasNumber(v, "uid") { NarrowedNumber(v.fields["uid"].n); }
    if HasNumber(v, "pid") { NarrowedNumber(v.fields["pid"].n); }
    if HasNumber(v, "reasonCode") { NarrowedNumber(v.fields["reasonCode"].n); }
    hide TimesFromJson, IsTimeObject, AsInt32, AsUint32, AsMask, Narrowed, IsUint32;
  }

  /** The 32-bit number that is left of `n`. */
  predicate Narrowed(n: int, m: int) {
    IsInt32(m) && (m - n) % 0x1_0000_0000 == 0
  }

  lemma NarrowedNumber(n: int)
    ensures Narrowed(n, AsInt32(n)) && IsUint32(AsUint32(n)) && (AsUint32(n) - n) % 0x1_0000_0000 == 0
  {
  }

  // ---------------------------------------------------------------- the file

  /** DumpPersistantData */
  function FileOf(records: map<string, Record>): map<string, Json> {
    map k | k in records :: ToJson(records[k])
  }

  /** The records that can be read from a file. */
  function Readable(file: map<string, Json>): map<string, Record> {
    map k | k in file && FromJson(file[k]).Some? :: FromJson(file[k]).value
  }

  lemma FileRoundTrip(records: map<string, Record>)
    requires forall k :: k in records ==> Fits(records[k])
    ensures Readable(FileOf(records)) == records
  {
    forall k | k in records
      ensures FromJson(FileOf(records)[k]) == Some(records[k])
    {
      RecordRoundTrip(records[k]);
    }
    hide ToJson, FromJson;
  }
}
