/** An allow record as an object that writes itself to JSON and fills itself from JSON, field by
    field and entry by entry. */
module AllowRecordObjects {
  import opened AllowRecords
  import opened Options

  class AllowRecord {
    var uid: int
    var pid: int
    var name: string
    var allowType: bv32
    var allowTimeList: seq<AllowTime>
    var reasonCode: int

    ghost function Value(): Record
      reads this
    {
      Record(uid, pid, name, allowType, allowTimeList, reasonCode)
    }

    constructor ()
      ensures Value() == Record(-1, -1, "", 0, [], 0)
    {
      uid, pid, name := -1, -1, "";
      allowType, allowTimeList, reasonCode := 0, [], 0;
    }

    method ParseToJson() returns (value: Json)
      ensures value == ToJson(Value())
      ensures Fits(Value()) ==> FromJson(value) == Some(Value())
    {
      hide MaskNumber, TimeToJson;
      var fields := map["uid" := Number(uid), "pid" := Number(pid), "name" := Text(name),
                        "allowType" := Number(MaskNumber(allowType)), "reasonCode" := Number(reasonCode)];
      if allowTimeList != [] {
        var allowList := [];
        for i := 0 to |allowTimeList|
          invariant allowList == TimesToJson(allowTimeList[..i])
        {
          assert allowTimeList[..i + 1][..i] == allowTimeList[..i] && allowTimeList[..i + 1][i] == allowTimeList[i];
          allowList := allowList + [TimeToJson(allowTimeList[i])];
        }
        assert allowTimeList[..|allowTimeList|] == allowTimeList;
        fields := fields["allowTimeList" := Array(allowList)];
      }
      value := Object(fields);
      assert value == ToJson(Value());
      if Fits(Value()) {
        hide ToJson, FromJson, Fits;
        RecordRoundTrip(Value());
      }
    }

    method SetAllowTime(persistTime: Json) returns (ok: bool)
      modifies this`allowTimeList
      ensures ok <==> TimeFromJson(persistTime).Some?
      ensures allowTimeList == if ok then old(allowTimeList) + [TimeFromJson(persistTime).value] else old(allowTimeList)
    {
      if !HasNumber(persistTime, "allowTypeIndex") || !HasNumber(persistTime, "endTime")
         || !HasText(persistTime, "reason") { return false; }
      allowTimeList := allowTimeList + [AllowTime(AsUint32(persistTime.fields["allowTypeIndex"].n),
                                                  AsInt64(persistTime.fields["endTime"].n),
                                                  persistTime.fields["reason"].s)];
      ok := true;
    }

    method SetAllowRecordField(value: Json) returns (ok: bool)
      modifies this
      ensures ok <==> HasNumber(value, "uid") && HasNumber(value, "pid") && HasText(value, "name")
                      && HasNumber(value, "allowType") && HasNumber(value, "reasonCode")
      ensures Value() == if ok
                         then Record(AsInt32(value.fields["uid"].n), AsInt32(value.fields["pid"].n),
                                     value.fields["name"].s, AsMask(value.fields["allowType"].n), old(allowTimeList),
                                     AsUint32(value.fields["reasonCode"].n))
                         else old(Value())
    {
      hide AsMask, AsInt32, AsUint32;
      if !HasNumber(value, "uid") || !HasNumber(value, "pid") || !HasText(value, "name")
         || !HasNumber(value, "allowType") || !HasNumber(value, "reasonCode") { return false; }
      uid := AsInt32(value.fields["uid"].n);
      pid := AsInt32(value.fields["pid"].n);
      name := value.fields["name"].s;
      allowType := AsMask(value.fields["allowType"].n);
      reasonCode := AsUint32(value.fields["reasonCode"].n);
      ok := true;
    }

    /** Fills a fresh record; a record that cannot be read is not used. */
    method ParseFromJson(value: Json) returns (ok: bool)
      requires allowTimeList == []
      modifies this
      ensures ok <==> FromJson(value).Some?
      ensures ok ==> Value() == FromJson(value).value
    {
      hide AsMask, AsInt32, AsUint32, TimeFromJson;
      if IsEmpty(value) { return false; }
      var fine := SetAllowRecordField(value);
      if !fine { return false; }
      if "allowTimeList" in value.fields && value.fields["allowTimeList"].Array? {
        var items := value.fields["allowTimeList"].items;
        ok := ReadTimes(items);
        return;
      }
      ok := true;
    }

    method ReadTimes(items: seq<Json>) returns (ok: bool)
      requires allowTimeList == []
      modifies this`allowTimeList
      ensures ok <==> TimesFromJson(items).Some?
      ensures ok ==> allowTimeList == TimesFromJson(items).value
    {
      hide TimeFromJson;
      for i := 0 to |items|
        invariant TimesFromJson(items[..i]) == Some(allowTimeList)
      {
        assert items[..i + 1][..i] == items[..i] && items[..i + 1][i] == items[i];
        var fine := SetAllowTime(items[i]);
        if !fine {
          SpoiltList(items, i + 1);
          return false;
        }
      }
      assert items[..|items|] == items;
      ok := true;
    }
  }

  /** A list with an unreadable beginning is unreadable. */
  lemma {:induction false} SpoiltList(items: seq<Json>, n: nat)
    requires n <= |items| && TimesFromJson(items[..n]).None?
    ensures TimesFromJson(items).None?
  {
    if n == |items| {
      assert items[..n] == items;
    } else {
      assert items[..|items| - 1][..n] == items[..n];
      SpoiltList(items[..|items| - 1], n);
    }
  }
}
