/**
 The lease of resolved values and the code that fills, writes, reads and clears it
 (internal/environmentresource/resource.go). Each method is proved against the
 byte-level functions of EnvironmentFrames.
 */
module EnvironmentResource {
  import opened Options
  import opened ByteCoding
  import opened Sorting
  import opened EnvironmentIntent
  import opened EnvironmentFrames
  import opened EnvironmentResolution

  /** A stream that ends, or fails, after its bytes. */
  class Reader {
    var data: seq<Byte>

    constructor (data: seq<Byte>)
      ensures this.data == data
    {
      this.data := data;
    }

    method ReadFull(n: nat) returns (ok: bool, bytes: seq<Byte>)
      modifies this
      ensures ok == (n <= |old(data)|)
      ensures ok ==> bytes == old(data)[..n] && data == old(data)[n..]
    {
      if |data| < n {
        data := [];
        return false, [];
      }
      bytes := data[..n];
      data := data[n..];
      return true, bytes;
    }
  }

  /** What a stream has taken, and how many more bytes it takes before it fails. */
  datatype Sink = Sink(written: seq<Byte>, room: nat) {
    predicate Takes(bytes: seq<Byte>) { |bytes| <= room }

    /** A write that does not fit is taken up to the room there is. */
    function After(bytes: seq<Byte>): Sink {
      if Takes(bytes) then Sink(written + bytes, room - |bytes|) else Sink(written + bytes[..room], 0)
    }
  }

  lemma AfterBoth(s: Sink, x: seq<Byte>, y: seq<Byte>)
    ensures if s.Takes(x) then s.After(x).After(y) == s.After(x + y) && (s.Takes(x + y) <==> s.After(x).Takes(y))
            else s.After(x) == s.After(x + y) && !s.Takes(x + y)
  {
    if s.Takes(x) && !s.Takes(x + y) {
      assert (x + y)[..s.room] == x + y[..s.room - |x|];
    }
    if !s.Takes(x) {
      assert (x + y)[..s.room] == x[..s.room];
    }
  }

  class Writer {
    var sink: Sink

    constructor (room: nat)
      ensures sink == Sink([], room)
    {
      sink := Sink([], room);
    }

    method Write(bytes: seq<Byte>) returns (ok: bool)
      modifies this
      ensures sink == old(sink).After(bytes) && ok == old(sink).Takes(bytes)
    {
      ok := |bytes| <= sink.room;
      sink := sink.After(bytes);
    }
  }

  datatype Slot = Slot(destination: Text, buffer: array<Byte>)

  function Buffers(slots: seq<Slot>): set<array<Byte>> { set i | 0 <= i < |slots| :: slots[i].buffer }

  /** The assignments a list of slots holds. */
  function Loaded(slots: seq<Slot>): (es: seq<Assignment>)
    reads Buffers(slots)
    ensures |es| == |slots|
    ensures forall i | 0 <= i < |slots| :: es[i] == Assignment(slots[i].destination, slots[i].buffer[..])
  {
    if slots == [] then []
    else
      var last := slots[|slots| - 1];
      assert Buffers(slots[..|slots| - 1]) <= Buffers(slots);
      Loaded(slots[..|slots| - 1]) + [Assignment(last.destination, last.buffer[..])]
  }

  class Lease {
    var entries: seq<Slot>
    var released: bool

    ghost predicate Valid()
      reads this
    {
      released ==> entries == []
    }

    constructor ()
      ensures Valid() && !released && Contents() == [] && Buffers(entries) == {}
    {
      entries, released := [], false;
    }

    function Contents(): seq<Assignment>
      reads this, Buffers(entries)
    {
      Loaded(entries)
    }

    predicate Empty()
      reads this
    {
      !released && |entries| == 0
    }

    /** `append` of a fresh copy of the value. */
    method Append(destination: Text, value: Text)
      requires Valid() && !released
      modifies this
      ensures Valid() && !released
      ensures Contents() == old(Contents()) + [Assignment(destination, value)]
      ensures fresh(Buffers(entries) - old(Buffers(entries)))
    {
      var buffer := new Byte[|value|](i requires 0 <= i < |value| => value[i]);
      assert buffer[..] == value;
      entries := entries + [Slot(destination, buffer)];
      assert entries[..|entries| - 1] == old(entries);
    }

    /** Every owned buffer is zeroed and dropped; releasing again does nothing. */
    method Release()
      requires Valid()
      modifies this, Buffers(entries)
      ensures Valid() && released && entries == []
      ensures forall b, i | b in old(Buffers(entries)) && 0 <= i < b.Length :: b[i] == 0
    {
      if released { return; }
      var slots := entries;
      for k := 0 to |slots|
        invariant entries == slots && !released
        invariant forall j, i | 0 <= j < k && 0 <= i < slots[j].buffer.Length :: slots[j].buffer[i] == 0
      {
        var buffer := slots[k].buffer;
        forall i | 0 <= i < buffer.Length {
          buffer[i] := 0;
        }
      }
      entries := [];
      released := true;
    }

    /**
     An active lease is written as its frame; a failing stream has taken the prefix
     it had room for; a released lease writes nothing.
     */
    method WriteFrame(writer: Writer) returns (ok: bool)
      requires Valid()
      modifies writer
      ensures ok == (!old(released) && old(writer.sink).Takes(PutFrame(Contents())))
      ensures writer.sink == if old(released) then old(writer.sink) else old(writer.sink).After(PutFrame(Contents()))
    {
      if released { return false; }
      ghost var s, es := writer.sink, Contents();
      ghost var count, body := BigEndian(|es|, 2), PutEntries(es);
      assert PutFrame(es) == FrameMagic() + (count + body);
      AfterBoth(s, FrameMagic(), count + body);
      AfterBoth(s.After(FrameMagic()), count, body);
      hide Loaded, FrameMagic, BigEndian, PutEntries, PutFrame, Sink.After, Sink.Takes;
      ok := writer.Write(FrameMagic());
      if !ok { return false; }
      ok := writer.Write(BigEndian(|entries|, 2));
      if !ok { return false; }
      assert Contents() == es;
      ok := WriteEntries(writer);
      assert Contents() == es;
    }

    method WriteEntries(writer: Writer) returns (ok: bool)
      modifies writer
      ensures ok == old(writer.sink).Takes(PutEntries(Contents()))
      ensures writer.sink == old(writer.sink).After(PutEntries(Contents()))
    {
      ghost var es := Contents();
      ghost var s := writer.sink;
      NothingYet(s, es);
      hide Loaded, PutEntry, PutEntries, Sink.After, Sink.Takes;
      for i := 0 to |entries|
        invariant Contents() == es
        invariant s.Takes(PutEntries(es[..i])) && writer.sink == s.After(PutEntries(es[..i]))
      {
        assert es[i] == Assignment(entries[i].destination, entries[i].buffer[..]);
        EntriesStep(es, i);
        AfterBoth(s, PutEntries(es[..i]), PutEntry(es[i]));
        AfterBoth(s, PutEntries(es[..i + 1]), PutEntries(es[i + 1..]));
        var sent := WriteEntry(writer, entries[i]);
        assert Contents() == es;
        if !sent {
          assert writer.sink == s.After(PutEntries(es[..i + 1]));
          assert writer.sink == s.After(PutEntries(es));
          assert !s.Takes(PutEntries(es));
          return false;
        }
      }
      assert es[..|es|] == es;
      assert Contents() == es;
      return true;
    }

    method WriteEntry(writer: Writer, slot: Slot) returns (ok: bool)
      modifies writer
      ensures ok == old(writer.sink).Takes(PutEntry(Assignment(slot.destination, slot.buffer[..])))
      ensures writer.sink == old(writer.sink).After(PutEntry(Assignment(slot.destination, slot.buffer[..])))
    {
      ghost var s := writer.sink;
      ghost var value := slot.buffer[..];
      ghost var name, size := BigEndian(|slot.destination|, 2), BigEndian(|value|, 4);
      AfterBoth(s, name, size);
      AfterBoth(s, name + size, slot.destination + value);
      AfterBoth(s.After(name + size), slot.destination, value);
      hide BigEndian;
      ok := writer.Write(BigEndian(|slot.destination|, 2));
      if !ok {
        AfterBoth(s, name, size + (slot.destination + value));
        assert name + size + (slot.destination + value) == name + (size + (slot.destination + value));
        return false;
      }
      ok := writer.Write(BigEndian(slot.buffer.Length, 4));
      if !ok { return false; }
      ok := writer.Write(slot.destination);
      if !ok { return false; }
      ok := writer.Write(slot.buffer[..]);
    }
  }

  lemma {:induction false} EntriesAppend(es: seq<Assignment>, a: Assignment)
    ensures PutEntries(es + [a]) == PutEntries(es) + PutEntry(a)
  {
    hide PutEntry;
    if es == [] {
      assert es + [a] == [a];
    } else {
      assert (es + [a])[1..] == es[1..] + [a];
      EntriesAppend(es[1..], a);
    }
  }

  lemma {:induction false} EntriesJoin(es: seq<Assignment>, fs: seq<Assignment>)
    ensures PutEntries(es + fs) == PutEntries(es) + PutEntries(fs)
  {
    hide PutEntry;
    if es == [] {
      assert es + fs == fs;
    } else {
      assert (es + fs)[1..] == es[1..] + fs;
      EntriesJoin(es[1..], fs);
    }
  }

  lemma NothingYet(s: Sink, es: seq<Assignment>)
    ensures s.Takes(PutEntries(es[..0])) && s.After(PutEntries(es[..0])) == s
  {
  }

  lemma SplitAt(es: seq<Assignment>, i: nat)
    requires i < |es|
    ensures es[..i + 1] == es[..i] + [es[i]] && es == es[..i + 1] + es[i + 1..]
  {
  }

  lemma EntriesStep(es: seq<Assignment>, i: nat)
    requires i < |es|
    ensures PutEntries(es[..i + 1]) == PutEntries(es[..i]) + PutEntry(es[i])
    ensures PutEntries(es) == PutEntries(es[..i + 1]) + PutEntries(es[i + 1..])
  {
    hide *;
    SplitAt(es, i);
    EntriesAppend(es[..i], es[i]);
    EntriesJoin(es[..i + 1], es[i + 1..]);
  }

  // ----- reading a frame

  lemma {:induction false} IntrinsicFails(items: seq<Text>, i: nat)
    requires i <= |items| && IntrinsicNames(items[..i]).None?
    ensures IntrinsicNames(items).None?
    decreases |items|
  {
    if i < |items| {
      assert items[..|items| - 1][..i] == items[..i];
      IntrinsicFails(items[..|items| - 1], i);
    } else {
      assert items[..i] == items;
    }
  }

  method SeenNames(intrinsic: seq<Text>) returns (seen: Option<set<Text>>)
    ensures seen == IntrinsicNames(intrinsic)
  {
    var names: set<Text> := {};
    for i := 0 to |intrinsic|
      invariant IntrinsicNames(intrinsic[..i]) == Some(names)
    {
      var item := intrinsic[i];
      assert intrinsic[..i + 1][..i] == intrinsic[..i];
      var cut := Cut(item);
      if cut.None? || !ValidName(cut.value.0) {
        IntrinsicFails(intrinsic, i + 1);
        return None;
      }
      names := names + {cut.value.0};
    }
    assert intrinsic[..|intrinsic|] == intrinsic;
    return Some(names);
  }

  method ReadOne(reader: Reader, total: nat, seen: set<Text>) returns (r: Result<Assignment>)
    requires total <= MAXIMUM_AGGREGATE_BYTES
    modifies reader
    ensures match ReadEntry(old(reader.data), total, seen)
            case Refused(problem) => r == Refused(problem)
            case Ok((a, rest)) => r == Ok(a) && reader.data == rest && total + |a.value| <= MAXIMUM_AGGREGATE_BYTES
  {
    hide Value, ValidDestination;
    ghost var b := reader.data;
    var gotName, nameLength := reader.ReadFull(2);
    if !gotName { return Refused(InvalidValue); }
    var gotValue, valueLength := reader.ReadFull(4);
    if !gotValue { return Refused(InvalidValue); }
    assert nameLength == b[..2] && valueLength == b[2..6] && reader.data == b[6..];
    var n, v := Value(nameLength), Value(valueLength);
    if n == 0 || n > 128 || v > MAXIMUM_VALUE_BYTES { return Refused(InvalidValue); }
    if total > MAXIMUM_AGGREGATE_BYTES - v { return Refused(ValueTooLarge); }
    var named, name := reader.ReadFull(n);
    if !named { return Refused(InvalidValue); }
    var valued, value := reader.ReadFull(v);
    if !valued { return Refused(InvalidValue); }
    assert name == b[6..6 + n] && value == b[6 + n..6 + n + v] && reader.data == b[6 + n + v..];
    if !ValidDestination(name) || name in seen || 0 in value { return Refused(InvalidValue); }
    return Ok(Assignment(name, value));
  }

  function Before(es: seq<Assignment>, r: Reading): Reading {
    match r
    case Stopped(problem) => Stopped(problem)
    case Read(more, rest) => Read(es + more, rest)
  }

  method ReadFrame(reader: Reader, intrinsic: seq<Text>) returns (r: Result<seq<Text>>)
    modifies reader
    ensures match ReadOf(old(reader.data), intrinsic)
            case Stopped(problem) => r == Refused(problem)
            case Read(es, rest) => r == Ok(Map(Line, es)) && reader.data == rest
  {
    hide Value, FrameMagic, ReadEntry;
    ghost var b := reader.data;
    var ok, magic := reader.ReadFull(8);
    if !ok || magic != FrameMagic() { return Refused(InvalidValue); }
    var sized, size := reader.ReadFull(2);
    if !sized { return Refused(InvalidValue); }
    assert size == b[8..10] && reader.data == b[10..];
    var count := Value(size);
    if count > MAXIMUM_ENTRIES { return Refused(InvalidValue); }
    var names := SeenNames(intrinsic);
    if names.None? { return Refused(InvalidValue); }
    var selected, seen := [], names.value;
    var total: nat := 0;
    ghost var es: seq<Assignment> := [];
    for i := 0 to count
      invariant selected == Map(Line, es) && total <= MAXIMUM_AGGREGATE_BYTES
      invariant ReadEntries(b[10..], count, 0, names.value) ==
          Before(es, ReadEntries(reader.data, count - i, total, seen))
    {
      ghost var data := reader.data;
      var a := ReadOne(reader, total, seen);
      if a.Refused? { return Refused(a.problem); }
      assert ReadEntry(data, total, seen) == Ok((a.value, reader.data));
      ghost var next := ReadEntries(reader.data, count - i - 1, total + |a.value.value|, seen + {a.value.destination});
      assert next.Read? ==> es + ([a.value] + next.entries) == (es + [a.value]) + next.entries;
      seen := seen + {a.value.destination};
      total := total + |a.value.value|;
      selected := selected + [Line(a.value)];
      es := es + [a.value];
    }
    assert es + [] == es;
    return Ok(selected);
  }

  // ----- building a lease

  function Prefixed(es: seq<Assignment>, r: Option<seq<Assignment>>): Option<seq<Assignment>> {
    match r
    case None => None
    case Some(more) => Some(es + more)
  }

  /** The assignment a line makes after `total` bytes and the names in `seen`, if it may make one. */
  function Made(line: Text, total: nat, seen: set<Text>): Option<Assignment> {
    match Cut(line)
    case None => None
    case Some((name, value)) =>
      if !ValidDestination(name) || name in seen || 0 in value
         || |value| > MAXIMUM_VALUE_BYTES || total > MAXIMUM_AGGREGATE_BYTES - |value| then None
      else Some(Assignment(name, value))
  }

  lemma PrefixedStep(lines: seq<Text>, i: nat, total: nat, seen: set<Text>, es: seq<Assignment>)
    requires i < |lines|
    ensures Prefixed(es, RestoredAfter(lines[i..], total, seen)) ==
            match Made(lines[i], total, seen)
            case None => None
            case Some(a) => Prefixed(es + [a], RestoredAfter(lines[i + 1..], total + |a.value|, seen + {a.destination}))
  {
    hide ValidDestination, Cut;
    assert lines[i..][0] == lines[i] && lines[i..][1..] == lines[i + 1..];
    if Made(lines[i], total, seen).Some? {
      var a := Made(lines[i], total, seen).value;
      var next := RestoredAfter(lines[i + 1..], total + |a.value|, seen + {a.destination});
      assert next.Some? ==> es + ([a] + next.value) == (es + [a]) + next.value;
    }
  }

  method TakeLine(made: Lease, line: Text, total: nat, seen: set<Text>) returns (a: Option<Assignment>)
    requires made.Valid() && !made.released
    modifies made, Buffers(made.entries)
    ensures a == Made(line, total, seen)
    ensures a.Some? ==>
              && made.Valid() && !made.released && fresh(Buffers(made.entries) - old(Buffers(made.entries)))
              && made.Contents() == old(made.Contents()) + [a.value]
  {
    hide ValidDestination, Cut;
    var cut := Cut(line);
    if cut.None? {
      made.Release();
      return None;
    }
    var (name, value) := cut.value;
    if !ValidDestination(name) || name in seen || 0 in value || |value| > MAXIMUM_VALUE_BYTES
        || total > MAXIMUM_AGGREGATE_BYTES - |value|
    {
      made.Release();
      return None;
    }
    made.Append(name, value);
    return Some(Assignment(name, value));
  }

  lemma PrefixedEnds(lines: seq<Text>, total: nat, seen: set<Text>, es: seq<Assignment>)
    ensures Prefixed([], RestoredAfter(lines[0..], total, seen)) == RestoredAfter(lines, total, seen)
    ensures Prefixed(es, RestoredAfter(lines[|lines|..], total, seen)) == Some(es)
  {
    assert lines[0..] == lines && es + [] == es;
    var r := RestoredAfter(lines, total, seen);
    assert r.Some? ==> [] + r.value == r.value;
  }

  method TakeLines(lines: seq<Text>) returns (made: Lease, ok: bool)
    ensures fresh(made)
    ensures ok == RestoredAfter(lines, 0, {}).Some?
    ensures ok ==> made.Valid() && !made.released && RestoredAfter(lines, 0, {}) == Some(made.Contents())
  {
    made := new Lease();
    ok := true;
    hide RestoredAfter, Prefixed, Made;
    var seen: set<Text>, total: nat := {}, 0;
    ghost var es: seq<Assignment> := [];
    PrefixedEnds(lines, 0, {}, []);
    for i := 0 to |lines|
      invariant made.Valid() && !made.released && made.Contents() == es
      invariant fresh(Buffers(made.entries))
      invariant RestoredAfter(lines, 0, {}) == Prefixed(es, RestoredAfter(lines[i..], total, seen))
    {
      PrefixedStep(lines, i, total, seen, es);
      ghost var owned := Buffers(made.entries);
      var a := TakeLine(made, lines[i], total, seen);
      if a.None? { return made, false; }
      assert Buffers(made.entries) <= owned + (Buffers(made.entries) - owned);
      seen, total := seen + {a.value.destination}, total + |a.value.value|;
      es := es + [a.value];
    }
    PrefixedEnds(lines, total, seen, es);
  }

  method Restore(lines: seq<Text>) returns (lease: Lease?)
    ensures lease == null <==> RestoredOf(lines).None?
    ensures lease != null ==>
        fresh(lease) && lease.Valid() && !lease.released && RestoredOf(lines) == Some(lease.Contents())
  {
    if |lines| > MAXIMUM_ENTRIES { return null; }
    hide RestoredAfter, Loaded;
    var made, ok := TakeLines(lines);
    return if ok then made else null;
  }

  function Onto(es: seq<Assignment>, r: Result<seq<Assignment>>): Result<seq<Assignment>> {
    match r
    case Refused(problem) => Refused(problem)
    case Ok(more) => Ok(es + more)
  }

  lemma OntoStep(es: seq<Entry>, i: nat, lookup: Text -> Option<Text>, total: nat, done: seq<Assignment>)
    requires i < |es|
    ensures Onto(done, ResolvedAfter(es[i..], lookup, total)) ==
            var value := lookup(Looked(es[i]));
            match Refusal(es[i], value, total)
            case Some(problem) => Refused(problem)
            case None => Onto(done + Gained(es[i], value),
              ResolvedAfter(es[i + 1..], lookup, total + if value.None? then 0 else |value.value|))
  {
    hide MayBeAbsent, Looked;
    assert done + [] == done;
    assert es[i..][0] == es[i] && es[i..][1..] == es[i + 1..];
    if lookup(Looked(es[i])).Some? {
      var a := Assignment(es[i].destination, lookup(Looked(es[i])).value);
      var next := ResolvedAfter(es[i + 1..], lookup, total + |a.value|);
      assert next.Ok? ==> done + ([a] + next.value) == (done + [a]) + next.value;
    }
  }

  lemma OntoEnds(es: seq<Entry>, lookup: Text -> Option<Text>, total: nat, done: seq<Assignment>)
    ensures Onto([], ResolvedAfter(es[0..], lookup, total)) == ResolvedAfter(es, lookup, total)
    ensures Onto(done, ResolvedAfter(es[|es|..], lookup, total)) == Ok(done)
  {
    assert es[0..] == es && done + [] == done;
    var r := ResolvedAfter(es, lookup, total);
    assert r.Ok? ==> [] + r.value == r.value;
  }

  /** Why a value may not join a lease that already holds `total` bytes. */
  function Refusal(e: Entry, value: Option<Text>, total: nat): Option<Problem> {
    match value
    case None => if MayBeAbsent(e) then None else Some(MissingValue)
    case Some(v) =>
      if 0 in v then Some(InvalidValue)
      else if |v| > MAXIMUM_VALUE_BYTES || total > MAXIMUM_AGGREGATE_BYTES - |v| then Some(ValueTooLarge)
      else None
  }

  function Gained(e: Entry, value: Option<Text>): seq<Assignment> {
    if value.None? then [] else [Assignment(e.destination, value.value)]
  }

  /** Takes one looked-up value into a lease, or releases the lease. */
  method Take(made: Lease, e: Entry, value: Option<Text>, total: nat) returns (problem: Option<Problem>, total': nat)
    requires made.Valid() && !made.released
    modifies made, Buffers(made.entries)
    ensures problem == Refusal(e, value, total)
    ensures problem.None? ==>
              && made.Valid() && !made.released && fresh(Buffers(made.entries) - old(Buffers(made.entries)))
              && made.Contents() == old(made.Contents()) + Gained(e, value)
              && total' == total + if value.None? then 0 else |value.value|
  {
    problem, total' := None, total;
    if value.None? {
      if !MayBeAbsent(e) {
        made.Release();
        return Some(MissingValue), total;
      }
    } else if 0 in value.value {
      made.Release();
      return Some(InvalidValue), total;
    } else if |value.value| > MAXIMUM_VALUE_BYTES || total > MAXIMUM_AGGREGATE_BYTES - |value.value| {
      made.Release();
      return Some(ValueTooLarge), total;
    } else {
      total' := total + |value.value|;
      made.Append(e.destination, value.value);
    }
  }

  method TakeAll(es: seq<Entry>, lookup: Text -> Option<Text>) returns (made: Lease, refusal: Option<Problem>)
    ensures fresh(made)
    ensures match ResolvedAfter(es, lookup, 0)
            case Refused(p) => refusal == Some(p)
            case Ok(done) => refusal.None? && made.Valid() && !made.released && made.Contents() == done
  {
    made := new Lease();
    refusal := None;
    hide ResolvedAfter, Onto, Refusal, Gained, Looked;
    var total: nat := 0;
    ghost var done: seq<Assignment> := [];
    OntoEnds(es, lookup, 0, []);
    for i := 0 to |es|
      invariant made.Valid() && !made.released && made.Contents() == done
      invariant fresh(Buffers(made.entries))
      invariant ResolvedAfter(es, lookup, 0) == Onto(done, ResolvedAfter(es[i..], lookup, total))
    {
      var value := lookup(Looked(es[i]));
      OntoStep(es, i, lookup, total, done);
      ghost var owned := Buffers(made.entries);
      var more;
      refusal, more := Take(made, es[i], value, total);
      if refusal.Some? { return; }
      assert Buffers(made.entries) <= owned + (Buffers(made.entries) - owned);
      done, total := done + Gained(es[i], value), more;
    }
    OntoEnds(es, lookup, total, done);
    refusal := None;
  }

  /** Fills a lease from the host; on any refusal the partial lease is released and dropped. */
  method Resolve(intents: seq<Entry>, lookup: Text -> Option<Text>) returns (lease: Lease?, problem: Problem)
    ensures match ResolvedOf(intents, lookup)
            case Refused(p) => lease == null && problem == p
            case Ok(es) => lease != null && fresh(lease) && lease.Valid() && !lease.released && lease.Contents() == es
  {
    var canonical := Canonical(intents);
    if canonical.None? { return null, InvalidValue; }
    hide ResolvedAfter, Loaded;
    var made, refusal := TakeAll(canonical.value, lookup);
    if refusal.Some? { return null, refusal.value; }
    return made, InvalidValue;
  }
}
