/** The frames in which module data is backed up and restored: a header of 32 name bytes, a 32-bit
    offset and a 32-bit size, both little-endian, then the data. */
module BackupFraming {
  import opened Options

  type Byte = b: int | 0 <= b < 256

  const NAME_SIZE: nat := 32
  const HEAD_SIZE: nat := 40

  /** A subscribed module and what its backup callback returned; None when it failed. */
  datatype Module = Module(name: seq<Byte>, data: Option<seq<Byte>>)

  /** A restore callback that was run, and where its data stood in the buffer. */
  datatype Call = Call(name: seq<Byte>, start: nat, data: seq<Byte>)

  // ---------------------------------------------------------------- names and numbers

  /** The bytes of a C string: everything before the first NUL. */
  function CName(s: seq<Byte>): (r: seq<Byte>)
    ensures |r| <= |s| && r == s[..|r|] && 0 !in r
    ensures |r| < |s| ==> s[|r|] == 0
  {
    if s == [] || s[0] == 0 then [] else [s[0]] + CName(s[1..])
  }

  function Zeros(n: nat): (r: seq<Byte>)
    ensures |r| == n && forall i :: 0 <= i < n ==> r[i] == 0
  {
    seq(n, _ => 0)
  }

  /** A uint32_t in little-endian order; larger numbers are truncated. */
  function Encode32(n: nat): (r: seq<Byte>)
    ensures |r| == 4
  {
    [n % 256, n / 256 % 256, n / 65536 % 256, n / 16777216 % 256]
  }

  function Decode32(s: seq<Byte>): nat
    requires |s| == 4
  {
    (s[0] as nat) + 256 * (s[1] as nat) + 65536 * (s[2] as nat) + 16777216 * (s[3] as nat)
  }

  lemma DecodeEncode(n: nat)
    requires n < 0x1_0000_0000
    ensures Decode32(Encode32(n)) == n
  {
    var a, b, c := n / 256, n / 65536, n / 16777216;
    assert n == 256 * a + n % 256 && a == 256 * b + a % 256 && b == 256 * c + b % 256;
    assert c < 256;
  }

  /** A name found in a padded field is the name that was put there. */
  lemma {:induction false} PaddedName(name: seq<Byte>, n: nat)
    requires 0 !in name && n > 0
    ensures CName(name + Zeros(n)) == name
  {
    var s := name + Zeros(n);
    if name == [] {
      assert s[0] == 0;
    } else {
      assert s[0] == name[0] && name[0] in name;
      assert s[1..] == name[1..] + Zeros(n);
      PaddedName(name[1..], n);
    }
  }

  // ---------------------------------------------------------------- writing

  /** The module is written: its callback succeeded and its name fits the field. */
  predicate Written(m: Module) {
    m.data.Some? && |CName(m.name)| < NAME_SIZE
  }

  function Head(name: seq<Byte>, offset: nat, size: nat): (r: seq<Byte>)
    requires |CName(name)| < NAME_SIZE
    ensures |r| == HEAD_SIZE
  {
    CName(name) + Zeros(NAME_SIZE - |CName(name)|) + Encode32(offset) + Encode32(size)
  }

  function Frame(m: Module, offset: nat): seq<Byte>
    requires Written(m)
  {
    Head(m.name, offset, |m.data.value|) + m.data.value
  }

  /** The frames of the modules in order, the first of them at `offset`. */
  function Frames(ms: seq<Module>, offset: nat): seq<Byte> {
    if ms == [] then []
    else if !Written(ms[0]) then Frames(ms[1..], offset)
    else Frame(ms[0], offset) + Frames(ms[1..], offset + |Frame(ms[0], offset)|)
  }

  // ---------------------------------------------------------------- reading

  /** The name in the header at `offset`; its last byte is overwritten with NUL. */
  function NameAt(buf: seq<Byte>, offset: nat): seq<Byte>
    requires offset + HEAD_SIZE <= |buf|
  {
    CName(buf[offset..offset + NAME_SIZE - 1])
  }

  function SizeAt(buf: seq<Byte>, offset: nat): nat
    requires offset + HEAD_SIZE <= |buf|
  {
    Decode32(buf[offset + 36..offset + 40])
  }

  /** Where the frame at `offset` ends. */
  function EndAt(buf: seq<Byte>, offset: nat): (end: nat)
    requires offset + HEAD_SIZE <= |buf|
    ensures end >= offset + HEAD_SIZE
  {
    offset + HEAD_SIZE + SizeAt(buf, offset)
  }

  /** The callback to run for the frame at `offset`, if its module is subscribed. */
  function CallAt(buf: seq<Byte>, offset: nat, subscribed: set<seq<Byte>>): seq<Call>
    requires offset + HEAD_SIZE <= |buf| && EndAt(buf, offset) <= |buf|
  {
    var name := NameAt(buf, offset);
    var start := offset + HEAD_SIZE;
    if name in subscribed then [Call(name, start, buf[start..EndAt(buf, offset)])] else []
  }

  /** The loop of OnRestore from `offset` on; a frame that does not fit ends it. */
  function Restore(buf: seq<Byte>, offset: nat, subscribed: set<seq<Byte>>): seq<Call>
    decreases |buf| - offset
  {
    if offset + HEAD_SIZE >= |buf| || EndAt(buf, offset) > |buf| then []
    else CallAt(buf, offset, subscribed) + Restore(buf, EndAt(buf, offset), subscribed)
  }

  // ---------------------------------------------------------------- any buffer

  /** The call reads a slice of the buffer, behind a header that starts at `offset` or later. */
  predicate IsSlice(buf: seq<Byte>, offset: nat, c: Call) {
    var end := c.start + |c.data|;
    offset + HEAD_SIZE <= c.start && end <= |buf| && c.data == buf[c.start..end]
  }

  /** The calls read disjoint slices in ascending order, each behind a header of its own. */
  predicate Ascending(buf: seq<Byte>, offset: nat, calls: seq<Call>)
    decreases |calls|
  {
    calls == [] ||
    (&& IsSlice(buf, offset, calls[0])
     && Ascending(buf, calls[0].start + |calls[0].data|, calls[1..]))
  }

  lemma {:induction false} AscendingFrom(buf: seq<Byte>, a: nat, b: nat, calls: seq<Call>)
    requires a <= b && Ascending(buf, b, calls)
    ensures Ascending(buf, a, calls)
  {
  }

  /** Two calls of the list: the later one starts behind the data of the earlier one. */
  lemma {:induction false} AscendingApart(buf: seq<Byte>, offset: nat, calls: seq<Call>, i: nat, j: nat)
    requires Ascending(buf, offset, calls) && i < j < |calls|
    ensures calls[i].start + |calls[i].data| + HEAD_SIZE <= calls[j].start
    ensures IsSlice(buf, offset, calls[i]) && IsSlice(buf, offset, calls[j])
    decreases |calls|
  {
    hide IsSlice;
    var end := calls[0].start + |calls[0].data|;
    if i > 0 {
      AscendingApart(buf, end, calls[1..], i - 1, j - 1);
      SliceFrom(buf, offset, end, calls[0], calls[1..][i - 1]);
    } else {
      AscendingAt(buf, end, calls[1..], j - 1);
    }
    AscendingAt(buf, offset, calls, j);
    AscendingAt(buf, offset, calls, i);
    if i == 0 { SliceFrom(buf, offset, end, calls[0], calls[j]); }
  }

  lemma {:induction false} AscendingAt(buf: seq<Byte>, offset: nat, calls: seq<Call>, i: nat)
    requires Ascending(buf, offset, calls) && i < |calls|
    ensures IsSlice(buf, offset, calls[i])
    decreases |calls|
  {
    if i > 0 {
      var end := calls[0].start + |calls[0].data|;
      AscendingAt(buf, end, calls[1..], i - 1);
      SliceFrom(buf, offset, end, calls[0], calls[i]);
    }
  }

  lemma SliceFrom(buf: seq<Byte>, offset: nat, end: nat, first: Call, c: Call)
    requires IsSlice(buf, offset, first) && end == first.start + |first.data| && IsSlice(buf, end, c)
    ensures IsSlice(buf, offset, c) && end + HEAD_SIZE <= c.start
  {
  }

  /** Whatever the buffer holds, each callback gets a contiguous slice of it, in ascending order
      and without overlap, and only subscribed modules are called. */
  lemma {:induction false} RestoreIsSafe(buf: seq<Byte>, offset: nat, subscribed: set<seq<Byte>>)
    ensures Ascending(buf, offset, Restore(buf, offset, subscribed))
    ensures forall c :: c in Restore(buf, offset, subscribed) ==> c.name in subscribed
    decreases |buf| - offset
  {
    hide CallAt, EndAt, Ascending;
    if offset + HEAD_SIZE < |buf| && EndAt(buf, offset) <= |buf| {
      var end := EndAt(buf, offset);
      RestoreIsSafe(buf, end, subscribed);
      var rest := Restore(buf, end, subscribed);
      hide Restore;
      CallIsSlice(buf, offset, subscribed);
      AscendingMore(buf, offset, end, CallAt(buf, offset, subscribed), rest);
    } else {
      AscendingNone(buf, offset);
    }
  }

  lemma CallIsSlice(buf: seq<Byte>, offset: nat, subscribed: set<seq<Byte>>)
    requires offset + HEAD_SIZE <= |buf| && EndAt(buf, offset) <= |buf|
    ensures var calls := CallAt(buf, offset, subscribed);
            calls == [] || (|calls| == 1 && IsSlice(buf, offset, calls[0]) && calls[0].name in subscribed
                            && calls[0].start + |calls[0].data| == EndAt(buf, offset))
  {
    hide NameAt, SizeAt;
  }

  lemma AscendingNone(buf: seq<Byte>, offset: nat)
    ensures Ascending(buf, offset, [])
  {
  }

  lemma AscendingMore(buf: seq<Byte>, offset: nat, end: nat, first: seq<Call>, rest: seq<Call>)
    requires offset <= end && Ascending(buf, end, rest)
    requires first == [] || (|first| == 1 && IsSlice(buf, offset, first[0])
                             && first[0].start + |first[0].data| == end)
    ensures Ascending(buf, offset, first + rest)
  {
    if first == [] {
      assert first + rest == rest;
      AscendingFrom(buf, offset, end, rest);
    } else {
      assert (first + rest)[0] == first[0] && (first + rest)[1..] == rest;
    }
  }

  // ---------------------------------------------------------------- the round trip

  /** The callbacks that should run for what was written: every written and subscribed module
      once, in order, with its data. */
  function Expected(ms: seq<Module>, offset: nat, subscribed: set<seq<Byte>>): seq<Call> {
    if ms == [] then []
    else if !Written(ms[0]) then Expected(ms[1..], offset, subscribed)
    else
      var name := CName(ms[0].name);
      var start := offset + HEAD_SIZE;
      (if name in subscribed then [Call(name, start, ms[0].data.value)] else [])
      + Expected(ms[1..], start + |ms[0].data.value|, subscribed)
  }

  /** Every payload fits the size field. */
  predicate SizesFit(ms: seq<Module>) {
    forall m :: m in ms && m.data.Some? ==> |m.data.value| < 0x1_0000_0000
  }

  /** The last module that is written is subscribed and has no data. */
  predicate LastIsLost(ms: seq<Module>, subscribed: set<seq<Byte>>) {
    if ms == [] then false
    else if Frames(ms[1..], 0) == [] && Written(ms[0])
    then ms[0].data.value == [] && CName(ms[0].name) in subscribed
    else LastIsLost(ms[1..], subscribed)
  }

  /** A header read back. */
  lemma HeadReads(pre: seq<Byte>, m: Module, rest: seq<Byte>)
    requires Written(m) && |m.data.value| < 0x1_0000_0000
    ensures var offset := |pre|;
            var buf := pre + Frame(m, offset) + rest;
            && offset + HEAD_SIZE <= |buf|
            && NameAt(buf, offset) == CName(m.name)
            && SizeAt(buf, offset) == |m.data.value|
            && (offset < 0x1_0000_0000 ==> Decode32(buf[offset + 32..offset + 36]) == offset)
            && buf[offset + HEAD_SIZE..offset + HEAD_SIZE + |m.data.value|] == m.data.value
            && |buf| == offset + HEAD_SIZE + |m.data.value| + |rest|
  {
    var offset, name, data := |pre|, CName(m.name), m.data.value;
    var buf := pre + Frame(m, offset) + rest;
    var pad := NAME_SIZE - |name|;
    assert buf[offset..offset + NAME_SIZE - 1] == name + Zeros(pad)[..pad - 1];
    assert buf[offset + 36..offset + 40] == Encode32(|data|);
    assert buf[offset + HEAD_SIZE..offset + HEAD_SIZE + |data|] == data;
    assert buf[offset + 32..offset + 36] == Encode32(offset);
    DecodeEncode(|data|);
    if offset < 0x1_0000_0000 { DecodeEncode(offset); }
    hide Encode32, Decode32;
    if pad == 1 {
      assert name + Zeros(pad)[..pad - 1] == name;
      WholeName(name);
    } else {
      assert Zeros(pad)[..pad - 1] == Zeros(pad - 1);
      PaddedName(name, pad - 1);
    }
  }

  lemma {:induction false} WholeName(name: seq<Byte>)
    requires 0 !in name
    ensures CName(name) == name
  {
    if name != [] {
      assert name[0] in name;
      WholeName(name[1..]);
    }
  }

  /** Whether anything is written does not depend on where. */
  lemma {:induction false} FramesEmpty(ms: seq<Module>, a: nat, b: nat)
    ensures Frames(ms, a) == [] <==> Frames(ms, b) == []
  {
    if ms != [] {
      hide Head, CName;
      FramesEmpty(ms[1..], if Written(ms[0]) then a + |Frame(ms[0], a)| else a,
                  if Written(ms[0]) then b + |Frame(ms[0], b)| else b);
    }
  }

  lemma {:induction false} NothingExpected(ms: seq<Module>, offset: nat, a: nat, subscribed: set<seq<Byte>>)
    requires Frames(ms, offset) == []
    ensures Expected(ms, a, subscribed) == [] && !LastIsLost(ms, subscribed)
  {
    if ms != [] {
      hide Head, CName;
      FramesEmpty(ms[1..], offset, 0);
      NothingExpected(ms[1..], offset, a, subscribed);
    }
  }

  /** The calls are the expected ones, but for the last when it is lost. */
  predicate Delivered(calls: seq<Call>, all: seq<Call>, lost: bool) {
    if lost then |all| > 0 && calls == all[..|all| - 1] else calls == all
  }

  /** Restoring from where the frames begin. */
  lemma {:induction false} RestoreFrames(pre: seq<Byte>, ms: seq<Module>, subscribed: set<seq<Byte>>)
    requires SizesFit(ms)
    ensures var calls := Restore(pre + Frames(ms, |pre|), |pre|, subscribed);
            var all := Expected(ms, |pre|, subscribed);
            Delivered(calls, all, LastIsLost(ms, subscribed))
    decreases ms
  {
    if ms == [] {
    } else if !Written(ms[0]) {
      RestoreRest(pre, ms, subscribed);
    } else {
      RestoreFirst(pre, ms, subscribed);
    }
  }

  lemma {:induction false} RestoreRest(pre: seq<Byte>, ms: seq<Module>, subscribed: set<seq<Byte>>)
    requires SizesFit(ms) && ms != [] && !Written(ms[0])
    ensures var calls := Restore(pre + Frames(ms, |pre|), |pre|, subscribed);
            var all := Expected(ms, |pre|, subscribed);
            Delivered(calls, all, LastIsLost(ms, subscribed))
    decreases ms, 0
  {
    hide Written, CName, Restore;
    assert SizesFit(ms[1..]);
    hide Delivered;
    RestoreFrames(pre, ms[1..], subscribed);
  }

  lemma FirstFits(ms: seq<Module>)
    requires SizesFit(ms) && ms != [] && Written(ms[0])
    ensures SizesFit(ms[1..]) && |ms[0].data.value| < 0x1_0000_0000
  {
    assert ms[0] in ms;
  }

  lemma {:induction false} RestoreFirst(pre: seq<Byte>, ms: seq<Module>, subscribed: set<seq<Byte>>)
    requires SizesFit(ms) && ms != [] && Written(ms[0])
    ensures var calls := Restore(pre + Frames(ms, |pre|), |pre|, subscribed);
            var all := Expected(ms, |pre|, subscribed);
            Delivered(calls, all, LastIsLost(ms, subscribed))
    decreases ms, 0
  {
    var m, frame := ms[0], Frame(ms[0], |pre|);
    var before := pre + frame;
    var rest := Frames(ms[1..], |before|);
    var later, lost := Expected(ms[1..], |before|, subscribed), LastIsLost(ms[1..], subscribed);
    FirstFits(ms);
    hide Frame, Frames, Expected, LastIsLost, CName, SizesFit, Restore, Delivered, Written;
    UnfoldWritten(ms, |pre|, subscribed);
    FramesEmpty(ms[1..], |before|, 0);
    if rest == [] { NothingExpected(ms[1..], |before|, |before|, subscribed); }
    RestoreFrames(before, ms[1..], subscribed);
    RestoreOne(pre, m, rest, subscribed, later, lost);
  }

  /** One frame in front of what is known to be restored. */
  lemma RestoreOne(pre: seq<Byte>, m: Module, rest: seq<Byte>, subscribed: set<seq<Byte>>, later: seq<Call>, lost: bool)
    requires Written(m) && |m.data.value| < 0x1_0000_0000
    requires var next := pre + Frame(m, |pre|); Delivered(Restore(next + rest, |next|, subscribed), later, lost)
    requires rest == [] ==> later == [] && !lost
    ensures var name := CName(m.name);
            var first := if name in subscribed then [Call(name, |pre| + HEAD_SIZE, m.data.value)] else [];
            Delivered(Restore(pre + (Frame(m, |pre|) + rest), |pre|, subscribed), first + later,
                      if rest == [] then m.data.value == [] && name in subscribed else lost)
  {
    var frame := Frame(m, |pre|);
    Joined(pre, frame, rest);
    HeadReads(pre, m, rest);
    assert |frame| == HEAD_SIZE + |m.data.value|;
    hide NameAt, SizeAt, Frame, CName, Restore, Delivered;
    RestoreStep(pre + frame + rest, m, |pre|, |pre + frame|, subscribed, later, lost);
  }

  lemma Joined(a: seq<Byte>, b: seq<Byte>, c: seq<Byte>)
    ensures a + (b + c) == (a + b) + c
    ensures |(a + b) + c| == |a + b| + |c| && (c == [] <==> |c| == 0)
  {
  }

  lemma UnfoldWritten(ms: seq<Module>, offset: nat, subscribed: set<seq<Byte>>)
    requires ms != [] && Written(ms[0])
    ensures var m := ms[0];
            var next := offset + |Frame(m, offset)|;
            && next == offset + HEAD_SIZE + |m.data.value|
            && Frames(ms, offset) == Frame(m, offset) + Frames(ms[1..], next)
            && Expected(ms, offset, subscribed) ==
               (if CName(m.name) in subscribed then [Call(CName(m.name), offset + HEAD_SIZE, m.data.value)] else [])
               + Expected(ms[1..], next, subscribed)
            && (LastIsLost(ms, subscribed) <==>
                  if Frames(ms[1..], 0) == [] then m.data.value == [] && CName(m.name) in subscribed
                  else LastIsLost(ms[1..], subscribed))
  {
    hide CName, Head;
  }

  /** One turn of the loop on a header that reads back. */
  lemma RestoreStep(buf: seq<Byte>, m: Module, offset: nat, end: nat, subscribed: set<seq<Byte>>, later: seq<Call>,
                    lost: bool)
    requires Written(m) && offset + HEAD_SIZE <= |buf|
    requires NameAt(buf, offset) == CName(m.name) && SizeAt(buf, offset) == |m.data.value|
    requires end == offset + HEAD_SIZE + |m.data.value| <= |buf| && buf[offset + HEAD_SIZE..end] == m.data.value
    requires Delivered(Restore(buf, end, subscribed), later, lost)
    requires end == |buf| ==> later == [] && !lost
    ensures var name := CName(m.name);
            var first := if name in subscribed then [Call(name, offset + HEAD_SIZE, m.data.value)] else [];
            Delivered(Restore(buf, offset, subscribed), first + later,
                      if end == |buf| then m.data.value == [] && name in subscribed else lost)
  {
    var name := CName(m.name);
    var first := if name in subscribed then [Call(name, offset + HEAD_SIZE, m.data.value)] else [];
    if offset + HEAD_SIZE < |buf| {
      assert CallAt(buf, offset, subscribed) == first && EndAt(buf, offset) == end;
      assert Restore(buf, offset, subscribed) == first + Restore(buf, end, subscribed);
      hide NameAt, SizeAt, CName, Restore, CallAt, EndAt;
      DeliveredMore(first, Restore(buf, end, subscribed), later, lost);
    } else {
      assert Restore(buf, offset, subscribed) == [];
      hide NameAt, SizeAt, CName, Restore, CallAt, EndAt;
      assert first + later == first;
    }
  }

  lemma DeliveredMore(first: seq<Call>, calls: seq<Call>, all: seq<Call>, lost: bool)
    requires Delivered(calls, all, lost)
    ensures Delivered(first + calls, first + all, lost)
  {
    if lost { assert first + all[..|all| - 1] == (first + all)[..|first + all| - 1]; }
  }

  /** Backup and restore: each subscribed module that was written gets its callback once, in order,
      with its exact data. One callback is missing exactly when the last module written is
      subscribed and has no data, because the loop stops at a header that ends the buffer. */
  lemma BackupRoundTrip(ms: seq<Module>, subscribed: set<seq<Byte>>)
    requires SizesFit(ms)
    ensures Restore(Frames(ms, 0), 0, subscribed) == Expected(ms, 0, subscribed) <==> !LastIsLost(ms, subscribed)
    ensures LastIsLost(ms, subscribed) ==>
              var all := Expected(ms, 0, subscribed);
              |all| > 0 && Restore(Frames(ms, 0), 0, subscribed) == all[..|all| - 1]
  {
    RestoreFrames([], ms, subscribed);
    assert [] + Frames(ms, 0) == Frames(ms, 0);
  }

  // ---------------------------------------------------------------- the loops

  lemma {:induction false} FramesSnoc(ms: seq<Module>, m: Module, offset: nat)
    ensures var before := Frames(ms, offset);
            Frames(ms + [m], offset) == before + (if Written(m) then Frame(m, offset + |before|) else [])
  {
    hide Written, CName, Head;
    if ms == [] {
      assert ms + [m] == [m] && [m][1..] == [];
    } else {
      assert (ms + [m])[1..] == ms[1..] + [m];
      FramesSnoc(ms[1..], m, if Written(ms[0]) then offset + |Frame(ms[0], offset)| else offset);
    }
  }

  /** strncpy_s into the name field; a name that is too long is refused. */
  method CopyName(name: seq<Byte>) returns (field: seq<Byte>, ok: bool)
    ensures ok <==> |CName(name)| < NAME_SIZE
    ensures ok ==> field == CName(name) + Zeros(NAME_SIZE - |CName(name)|)
  {
    var i := 0;
    while i < |name| && name[i] != 0
      invariant 0 <= i <= |name| && 0 !in name[..i]
    {
      i := i + 1;
    }
    StopsAtNul(name, i);
    ok := i < NAME_SIZE;
    field := if ok then name[..i] + Zeros(NAME_SIZE - i) else [];
  }

  lemma {:induction false} StopsAtNul(s: seq<Byte>, i: nat)
    requires i <= |s| && 0 !in s[..i] && (i < |s| ==> s[i] == 0)
    ensures CName(s) == s[..i]
  {
    if i > 0 {
      assert s[..i][0] == s[0] && s[0] in s[..i];
      forall j | 0 <= j < i - 1
        ensures s[1..][j] != 0
      {
        assert s[1..][j] == s[..i][j + 1];
      }
      StopsAtNul(s[1..], i - 1);
      assert s[..i] == [s[0]] + s[1..][..i - 1];
    }
  }

  /** OnBackup, up to the file: the buffer that is saved. */
  method OnBackup(ms: seq<Module>) returns (buff: seq<Byte>)
    ensures buff == Frames(ms, 0)
  {
    buff := [];
    for i := 0 to |ms|
      invariant buff == Frames(ms[..i], 0)
    {
      var m := ms[i];
      assert ms[..i + 1] == ms[..i] + [m];
      FramesSnoc(ms[..i], m, 0);
      if m.data.None? { continue; }
      var field, ok := CopyName(m.name);
      if !ok { continue; }
      var head := field + Encode32(|buff|) + Encode32(|m.data.value|);
      assert head == Head(m.name, |buff|, |m.data.value|);
      buff := buff + head + m.data.value;
      hide Head, Encode32, CName;
    }
    assert ms[..|ms|] == ms;
  }

  /** The loop of OnRestore on its buffer, which it patches: the last name byte of every header it
      reads becomes NUL. */
  method OnRestore(buf: array<Byte>, subscribed: set<seq<Byte>>) returns (calls: seq<Call>)
    modifies buf
    ensures calls == Restore(old(buf[..]), 0, subscribed)
    ensures Ascending(old(buf[..]), 0, calls)
  {
    ghost var whole := buf[..];
    calls := [];
    var offset := 0;
    RestoreIsSafe(whole, 0, subscribed);
    assert [] + Restore(whole, 0, subscribed) == Restore(whole, 0, subscribed);
    assert SoFar(calls, whole, offset, subscribed);
    hide Restore, Ascending, CallAt, EndAt, SoFar;
    while offset + HEAD_SIZE < buf.Length
      invariant buf.Length == |whole| && 0 <= offset <= buf.Length
      invariant buf[offset..] == whole[offset..]
      invariant SoFar(calls, whole, offset, subscribed)
    {
      SoFarMore(calls, whole, offset, subscribed);
      var fits, first, end := ReadFrame(buf, offset, subscribed, whole);
      if !fits { return; }
      calls := calls + first;
      offset := end;
    }
    SoFarEnds(calls, whole, offset, subscribed);
  }

  /** These calls, and those still to come, are all of them. */
  predicate SoFar(calls: seq<Call>, buf: seq<Byte>, offset: nat, subscribed: set<seq<Byte>>) {
    calls + Restore(buf, offset, subscribed) == Restore(buf, 0, subscribed)
  }

  lemma SoFarMore(calls: seq<Call>, buf: seq<Byte>, offset: nat, subscribed: set<seq<Byte>>)
    requires offset + HEAD_SIZE < |buf| && SoFar(calls, buf, offset, subscribed)
    ensures if EndAt(buf, offset) > |buf| then calls == Restore(buf, 0, subscribed)
            else SoFar(calls + CallAt(buf, offset, subscribed), buf, EndAt(buf, offset), subscribed)
  {
    hide CallAt, EndAt;
    assert calls + [] == calls;
    if EndAt(buf, offset) <= |buf| {
      var first, rest := CallAt(buf, offset, subscribed), Restore(buf, EndAt(buf, offset), subscribed);
      assert Restore(buf, offset, subscribed) == first + rest;
      hide Restore;
      CallsJoined(calls, first, rest);
    }
  }

  lemma CallsJoined(a: seq<Call>, b: seq<Call>, c: seq<Call>)
    ensures (a + b) + c == a + (b + c)
  {
  }

  lemma SoFarEnds(calls: seq<Call>, buf: seq<Byte>, offset: nat, subscribed: set<seq<Byte>>)
    requires offset + HEAD_SIZE >= |buf| && SoFar(calls, buf, offset, subscribed)
    ensures calls == Restore(buf, 0, subscribed)
  {
    RestoreEnds(buf, offset, subscribed);
    hide Restore;
    assert calls + [] == calls;
  }

  lemma RestoreEnds(buf: seq<Byte>, offset: nat, subscribed: set<seq<Byte>>)
    ensures offset + HEAD_SIZE >= |buf| ==> Restore(buf, offset, subscribed) == []
  {
  }

  /** One header with its data: the call to make, if any, and where the next header begins. */
  method ReadFrame(buf: array<Byte>, offset: nat, subscribed: set<seq<Byte>>, ghost whole: seq<Byte>)
      returns (fits: bool, first: seq<Call>, end: nat)
    requires offset + HEAD_SIZE < buf.Length == |whole| && buf[offset..] == whole[offset..]
    modifies buf
    ensures end == EndAt(whole, offset) && (fits <==> end <= |whole|)
    ensures fits ==> first == CallAt(whole, offset, subscribed) && buf[end..] == whole[end..]
  {
    hide NameAt, SizeAt;
    var name, size := ReadHead(buf, offset, whole);
    var start := offset + HEAD_SIZE;
    end := start + size;
    fits := end <= buf.Length;
    first := [];
    if fits {
      SameSlice(buf[..], whole, start, start, end);
      SameTail(buf[..], whole, start, end);
      if name in subscribed { first := [Call(name, start, buf[start..end])]; }
    }
  }

  /** Read a header, with a NUL forced into its name; what follows the header stays as it was. */
  method ReadHead(buf: array<Byte>, offset: nat, ghost whole: seq<Byte>) returns (name: seq<Byte>, size: nat)
    requires offset + HEAD_SIZE < buf.Length == |whole| && buf[offset..] == whole[offset..]
    modifies buf
    ensures name == NameAt(whole, offset) && size == SizeAt(whole, offset)
    ensures buf[offset + HEAD_SIZE..] == whole[offset + HEAD_SIZE..]
  {
    hide CName, Decode32;
    SameSlice(buf[..], whole, offset, offset + 36, offset + 40);
    SameSlice(buf[..], whole, offset, offset, offset + NAME_SIZE - 1);
    SameTail(buf[..], whole, offset, offset + HEAD_SIZE);
    size := Decode32(buf[offset + 36..offset + 40]);
    buf[offset + NAME_SIZE - 1] := 0;
    name := CName(buf[offset..offset + NAME_SIZE - 1]);
  }

  lemma SameTail(a: seq<Byte>, b: seq<Byte>, from: nat, lo: nat)
    requires |a| == |b| && from <= lo <= |a| && a[from..] == b[from..]
    ensures a[lo..] == b[lo..]
  {
    SameSlice(a, b, from, lo, |a|);
    assert a[lo..] == a[lo..|a|] && b[lo..] == b[lo..|b|];
  }

  lemma SameSlice(a: seq<Byte>, b: seq<Byte>, from: nat, lo: nat, hi: nat)
    requires |a| == |b| && from <= lo <= hi <= |a| && a[from..] == b[from..]
    ensures a[lo..hi] == b[lo..hi]
  {
    forall i | lo <= i < hi
      ensures a[i] == b[i]
    {
      assert a[i] == a[from..][i - from] && b[i] == b[from..][i - from];
    }
  }
}
