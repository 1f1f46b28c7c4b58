/**
 Resolved environment values (internal/environmentresource/resource.go): what a
 lease may hold, the frame that carries it to the contained launcher, and the two
 readers of that frame, as functions on bytes.
 */
module EnvironmentFrames {
  import opened Options
  import opened ByteCoding
  import opened Sorting
  import opened EnvironmentIntent

  datatype Assignment = Assignment(destination: Text, value: Text)

  datatype Problem = InvalidValue | ValueTooLarge | MissingValue | LeaseReleased

  datatype Result<+T> = Ok(value: T) | Refused(problem: Problem)

  function FrameMagic(): Text { Ascii("ACSENV01") }

  function Name(a: Assignment): Text { a.destination }

  function Line(a: Assignment): Text { a.destination + ([EQUALS] + a.value) }

  function Total(es: seq<Assignment>): nat { if es == [] then 0 else |es[0].value| + Total(es[1..]) }

  predicate Sound(a: Assignment) {
    ValidDestination(a.destination) && |a.value| <= MAXIMUM_VALUE_BYTES && 0 !in a.value
  }

  predicate AllSound(es: seq<Assignment>) { forall a | a in es :: Sound(a) }

  /** What a lease may hold. */
  predicate Admitted(es: seq<Assignment>) {
    && |es| <= MAXIMUM_ENTRIES
    && AllSound(es)
    && NoDuplicates(Map(Name, es))
    && Total(es) <= MAXIMUM_AGGREGATE_BYTES
  }

  /** The same, checked entry by entry after `total` bytes and the names in `seen`. */
  predicate AdmittedAfter(es: seq<Assignment>, total: nat, seen: set<Text>) {
    es == [] ||
    (&& Sound(es[0]) && es[0].destination !in seen
     && total + |es[0].value| <= MAXIMUM_AGGREGATE_BYTES
     && AdmittedAfter(es[1..], total + |es[0].value|, seen + {es[0].destination}))
  }

  predicate Apart(es: seq<Assignment>, seen: set<Text>) { forall a | a in es :: a.destination !in seen }

  lemma {:induction false} AdmittedStepwise(es: seq<Assignment>, total: nat, seen: set<Text>)
    requires total <= MAXIMUM_AGGREGATE_BYTES
    ensures AdmittedAfter(es, total, seen) <==>
              AllSound(es) && NoDuplicates(Map(Name, es)) && Apart(es, seen)
              && total + Total(es) <= MAXIMUM_AGGREGATE_BYTES
    decreases |es|
  {
    hide Sound, AllSound, NoDuplicates, Map, Apart;
    if es == [] {
      NothingIsSound(es, seen);
    } else {
      var rest := es[1..];
      SplitApart(es, seen);
      SplitSound(es);
      if total + |es[0].value| <= MAXIMUM_AGGREGATE_BYTES {
        AdmittedStepwise(rest, total + |es[0].value|, seen + {es[0].destination});
      }
    }
  }

  lemma NothingIsSound(es: seq<Assignment>, seen: set<Text>)
    requires es == []
    ensures AllSound(es) && NoDuplicates(Map(Name, es)) && Apart(es, seen)
  {
  }

  lemma SplitSound(es: seq<Assignment>)
    requires es != []
    ensures AllSound(es) <==> Sound(es[0]) && AllSound(es[1..])
  {
    assert es == [es[0]] + es[1..];
  }

  lemma SplitApart(es: seq<Assignment>, seen: set<Text>)
    requires es != []
    ensures var (name, rest) := (es[0].destination, es[1..]);
      NoDuplicates(Map(Name, es)) && Apart(es, seen) <==>
        name !in seen && NoDuplicates(Map(Name, rest)) && Apart(rest, seen + {name})
  {
    var rest := es[1..];
    assert es == [es[0]] + rest;
    assert Map(Name, rest) == Map(Name, es)[1..];
    HeadOrTailRepeats(Map(Name, es));
    NamesOf(rest, es[0].destination);
    hide NoDuplicates, Map;
  }

  lemma HeadOrTailRepeats(ts: seq<Text>)
    requires ts != []
    ensures NoDuplicates(ts) <==> NoDuplicates(ts[1..]) && ts[0] !in ts[1..]
  {
    if NoDuplicates(ts[1..]) && ts[0] !in ts[1..] {
      forall i, j | 0 <= i < j < |ts| ensures ts[i] != ts[j] {
        assert ts[j] == ts[1..][j - 1];
        if i > 0 {
          assert ts[i] == ts[1..][i - 1];
        }
      }
    }
    if NoDuplicates(ts) {
      forall i, j | 0 <= i < j < |ts[1..]| ensures ts[1..][i] != ts[1..][j] {
        assert ts[i + 1] != ts[j + 1];
      }
    }
  }

  lemma NamesOf(es: seq<Assignment>, t: Text)
    ensures t in Map(Name, es) <==> exists a | a in es :: a.destination == t
  {
    if t in Map(Name, es) {
      var i :| 0 <= i < |es| && Map(Name, es)[i] == t;
      assert es[i] in es;
    }
    if exists a | a in es :: a.destination == t {
      var a :| a in es && a.destination == t;
      var i :| 0 <= i < |es| && es[i] == a;
      assert Map(Name, es)[i] == t;
    }
  }

  // ----- the frame

  function PutHeader(name: nat, value: nat): seq<Byte> { BigEndian(name, 2) + BigEndian(value, 4) }

  function PutEntry(a: Assignment): seq<Byte> {
    PutHeader(|a.destination|, |a.value|) + (a.destination + a.value)
  }

  function PutEntries(es: seq<Assignment>): seq<Byte> {
    if es == [] then [] else PutEntry(es[0]) + PutEntries(es[1..])
  }

  function PutFrame(es: seq<Assignment>): seq<Byte> {
    FrameMagic() + (BigEndian(|es|, 2) + PutEntries(es))
  }

  lemma NamesHaveNoEquals(t: Text)
    requires ValidName(t)
    ensures EQUALS !in t
  {
    assert forall i | 0 <= i < |t| :: NameByte(t[i]);
  }

  /** An intrinsic assignment must have a name, whose later reuse is refused. */
  function IntrinsicNames(items: seq<Text>): Option<set<Text>> {
    if items == [] then Some({})
    else
      match (IntrinsicNames(items[..|items| - 1]), Cut(items[|items| - 1]))
      case (Some(names), Some((name, _))) => if ValidName(name) then Some(names + {name}) else None
      case _ => None
  }

  datatype Reading = Stopped(problem: Problem) | Read(entries: seq<Assignment>, rest: seq<Byte>)

  /** One entry of a frame, after `total` value bytes. */
  function ReadEntry(b: seq<Byte>, total: nat, seen: set<Text>): Result<(Assignment, seq<Byte>)> {
    if |b| < 6 then Refused(InvalidValue)
    else
      var name, value := Value(b[..2]), Value(b[2..6]);
      if name == 0 || name > 128 || value > MAXIMUM_VALUE_BYTES then Refused(InvalidValue)
      else if total > MAXIMUM_AGGREGATE_BYTES - value then Refused(ValueTooLarge)
      else if |b| < 6 + name + value then Refused(InvalidValue)
      else
        var a := Assignment(b[6..6 + name], b[6 + name..6 + name + value]);
        if !ValidDestination(a.destination) || a.destination in seen || 0 in a.value then Refused(InvalidValue)
        else Ok((a, b[6 + name + value..]))
  }

  function ReadEntries(b: seq<Byte>, count: nat, total: nat, seen: set<Text>): Reading
    decreases count
  {
    if count == 0 then Read([], b)
    else
      match ReadEntry(b, total, seen)
      case Refused(problem) => Stopped(problem)
      case Ok((a, b1)) =>
        match ReadEntries(b1, count - 1, total + |a.value|, seen + {a.destination})
        case Stopped(problem) => Stopped(problem)
        case Read(es, rest) => Read([a] + es, rest)
  }

  function ReadOf(b: seq<Byte>, intrinsic: seq<Text>): Reading {
    if |b| < 10 || b[..8] != FrameMagic() || Value(b[8..10]) > MAXIMUM_ENTRIES then Stopped(InvalidValue)
    else
      match IntrinsicNames(intrinsic)
      case None => Stopped(InvalidValue)
      case Some(names) => ReadEntries(b[10..], Value(b[8..10]), 0, names)
  }

  // ----- every admitted entry reads back, and nothing else is read

  lemma EntryRoundTrip(a: Assignment, rest: seq<Byte>, total: nat, seen: set<Text>)
    requires Sound(a) && a.destination !in seen && total + |a.value| <= MAXIMUM_AGGREGATE_BYTES
    ensures ReadEntry(PutEntry(a) + rest, total, seen) == Ok((a, rest))
  {
    hide BigEndian, Value, ReservedDestination, ValidName;
    var n, v := |a.destination|, |a.value|;
    NameLength(a.destination);
    Capacities();
    BigEndianRoundTrip(n, 2);
    BigEndianRoundTrip(v, 4);
    var b := PutEntry(a) + rest;
    assert b[..2] == BigEndian(n, 2) && b[2..6] == BigEndian(v, 4);
    assert b[6..6 + n] == a.destination && b[6 + n..6 + n + v] == a.value && b[6 + n + v..] == rest;
  }

  lemma NameLength(t: Text)
    requires ValidName(t)
    ensures 1 <= |t| <= 128
  {
  }

  lemma ReadEntryWrites(b: seq<Byte>, total: nat, seen: set<Text>)
    requires ReadEntry(b, total, seen).Ok?
    ensures var (a, rest) := ReadEntry(b, total, seen).value;
      && Sound(a) && a.destination !in seen && total + |a.value| <= MAXIMUM_AGGREGATE_BYTES
      && b == PutEntry(a) + rest
  {
    var (a, rest) := ReadEntry(b, total, seen).value;
    var n, v := |a.destination|, |a.value|;
    ValueRoundTrip(b[..2]);
    ValueRoundTrip(b[2..6]);
    hide BigEndian, Value, Capacity, ValidDestination;
    assert b[..2] == BigEndian(n, 2) && b[2..6] == BigEndian(v, 4);
    assert b == b[..2] + b[2..6] + (b[6..6 + n] + b[6 + n..6 + n + v]) + b[6 + n + v..];
  }

  lemma {:induction false} EntriesRoundTrip(es: seq<Assignment>, rest: seq<Byte>, total: nat, seen: set<Text>)
    requires AdmittedAfter(es, total, seen)
    ensures ReadEntries(PutEntries(es) + rest, |es|, total, seen) == Read(es, rest)
    decreases |es|
  {
    hide PutEntry, ReadEntry, Sound;
    if es == [] {
      assert PutEntries(es) + rest == rest;
    } else {
      var b1 := PutEntries(es[1..]) + rest;
      assert PutEntries(es) + rest == PutEntry(es[0]) + b1;
      EntryRoundTrip(es[0], b1, total, seen);
      EntriesRoundTrip(es[1..], rest, total + |es[0].value|, seen + {es[0].destination});
      assert [es[0]] + es[1..] == es;
    }
  }

  lemma {:induction false} ReadEntriesWrites(b: seq<Byte>, count: nat, total: nat, seen: set<Text>)
    requires ReadEntries(b, count, total, seen).Read?
    ensures var r := ReadEntries(b, count, total, seen);
      |r.entries| == count && AdmittedAfter(r.entries, total, seen) && b == PutEntries(r.entries) + r.rest
    decreases count
  {
    hide PutEntry, ReadEntry, Sound;
    if count > 0 {
      var (a, b1) := ReadEntry(b, total, seen).value;
      ReadEntryWrites(b, total, seen);
      ReadEntriesWrites(b1, count - 1, total + |a.value|, seen + {a.destination});
      var es := ReadEntries(b, count, total, seen).entries;
      assert es[0] == a && es[1..] == ReadEntries(b1, count - 1, total + |a.value|, seen + {a.destination}).entries;
    }
  }

  lemma Sliced(a: seq<Byte>, b: seq<Byte>, c: seq<Byte>, rest: seq<Byte>)
    requires |a| == 8 && |b| == 2
    ensures var s := a + (b + c) + rest;
      |s| >= 10 && s[..8] == a && s[8..10] == b && s[10..] == c + rest
  {
  }

  lemma PutFrameParts(es: seq<Assignment>, rest: seq<Byte>)
    requires |es| <= MAXIMUM_ENTRIES
    ensures var b := PutFrame(es) + rest;
      |b| >= 10 && b[..8] == FrameMagic() && Value(b[8..10]) == |es| && b[10..] == PutEntries(es) + rest
  {
    Capacities();
    BigEndianRoundTrip(|es|, 2);
    assert |FrameMagic()| == 8;
    hide BigEndian, Value, PutEntries, FrameMagic, Capacity;
    Sliced(FrameMagic(), BigEndian(|es|, 2), PutEntries(es), rest);
  }

  lemma ReadsAreFrames(b: seq<Byte>, intrinsic: seq<Text>)
    requires ReadOf(b, intrinsic).Read?
    ensures var (r, names) := (ReadOf(b, intrinsic), IntrinsicNames(intrinsic));
      && names.Some? && |r.entries| <= MAXIMUM_ENTRIES && AdmittedAfter(r.entries, 0, names.value)
           && b == PutFrame(r.entries) + r.rest
  {
    hide FrameMagic, PutEntries, ReadEntries, AdmittedAfter;
    ReadEntriesWrites(b[10..], Value(b[8..10]), 0, IntrinsicNames(intrinsic).value);
    ValueRoundTrip(b[8..10]);
    assert b == b[..8] + (b[8..10] + b[10..]);
  }

  lemma FramesAreRead(es: seq<Assignment>, intrinsic: seq<Text>, rest: seq<Byte>)
    requires IntrinsicNames(intrinsic).Some? && |es| <= MAXIMUM_ENTRIES
        && AdmittedAfter(es, 0, IntrinsicNames(intrinsic).value)
    ensures ReadOf(PutFrame(es) + rest, intrinsic) == Read(es, rest)
  {
    hide FrameMagic, PutEntries, ReadEntries, AdmittedAfter, PutFrame, Value;
    PutFrameParts(es, rest);
    EntriesRoundTrip(es, rest, 0, IntrinsicNames(intrinsic).value);
  }

  /**
   Frames are exactly the admitted leases. A reader accepts bytes, with these
   entries and this rest, if and only if they are the frame of an admitted lease
   apart from the intrinsic names, followed by that rest.
   */
  lemma FramesAreLeases(b: seq<Byte>, intrinsic: seq<Text>, es: seq<Assignment>, rest: seq<Byte>)
    ensures ReadOf(b, intrinsic) == Read(es, rest) <==>
              && IntrinsicNames(intrinsic).Some? && Admitted(es) && Apart(es, IntrinsicNames(intrinsic).value)
              && b == PutFrame(es) + rest
  {
    hide ReadOf, PutFrame, AllSound, NoDuplicates, Map, Total, Apart, AdmittedAfter;
    if ReadOf(b, intrinsic).Read? {
      ReadsAreFrames(b, intrinsic);
    }
    if IntrinsicNames(intrinsic).Some? {
      AdmittedStepwise(es, 0, IntrinsicNames(intrinsic).value);
      if Admitted(es) && Apart(es, IntrinsicNames(intrinsic).value) {
        FramesAreRead(es, intrinsic, rest);
      }
    }
  }

  // ----- restoring a lease from the lines a frame was read into

  function RestoredAfter(lines: seq<Text>, total: nat, seen: set<Text>): Option<seq<Assignment>>
    decreases |lines|
  {
    if lines == [] then Some([])
    else
      match Cut(lines[0])
      case None => None
      case Some((name, value)) =>
        if !ValidDestination(name) || name in seen || 0 in value
           || |value| > MAXIMUM_VALUE_BYTES || total > MAXIMUM_AGGREGATE_BYTES - |value| then None
        else
          match RestoredAfter(lines[1..], total + |value|, seen + {name})
          case None => None
          case Some(es) => Some([Assignment(name, value)] + es)
  }

  function RestoredOf(lines: seq<Text>): Option<seq<Assignment>> {
    if |lines| > MAXIMUM_ENTRIES then None else RestoredAfter(lines, 0, {})
  }

  lemma LinesCut(line: Text, a: Assignment)
    requires ValidDestination(a.destination)
    ensures line == Line(a) <==> Cut(line) == Some((a.destination, a.value))
  {
    CutSplits(line);
    NamesHaveNoEquals(a.destination);
    CutJoins(a.destination, a.value);
  }

  lemma {:induction false} RestoredStepwise(lines: seq<Text>, total: nat, seen: set<Text>, es: seq<Assignment>)
    ensures RestoredAfter(lines, total, seen) == Some(es) <==> AdmittedAfter(es, total, seen) && lines == Map(Line, es)
    decreases |lines|
  {
    hide ValidDestination, Cut, Line;
    if lines != [] && es != [] {
      var a := es[0];
      if ValidDestination(a.destination) { LinesCut(lines[0], a); }
      RestoredStepwise(lines[1..], total + |a.value|, seen + {a.destination}, es[1..]);
      assert Map(Line, es) == [Line(a)] + Map(Line, es[1..]);
      assert lines == [lines[0]] + lines[1..] && es == [a] + es[1..];
    }
  }

  /** Restoring is the inverse of listing: the lines of an admitted lease restore it, and no other lines restore. */
  lemma RestoreInvertsLines(lines: seq<Text>, es: seq<Assignment>)
    ensures RestoredOf(lines) == Some(es) <==> Admitted(es) && lines == Map(Line, es)
  {
    AdmittedStepwise(es, 0, {});
    RestoredStepwise(lines, 0, {}, es);
  }

  /** The whole way: an admitted lease, written, read back and restored, is the same lease. */
  lemma LeaseRoundTrip(es: seq<Assignment>, intrinsic: seq<Text>, rest: seq<Byte>)
    requires Admitted(es) && IntrinsicNames(intrinsic).Some? && Apart(es, IntrinsicNames(intrinsic).value)
    ensures var r := ReadOf(PutFrame(es) + rest, intrinsic);
      r == Read(es, rest) && RestoredOf(Map(Line, r.entries)) == Some(es)
  {
    FramesAreLeases(PutFrame(es) + rest, intrinsic, es, rest);
    RestoreInvertsLines(Map(Line, es), es);
  }

  /** And back: what any reader accepted restores to a lease whose frame is the bytes it consumed. */
  lemma FrameRoundTrip(b: seq<Byte>, intrinsic: seq<Text>)
    requires ReadOf(b, intrinsic).Read?
    ensures var r := ReadOf(b, intrinsic);
      RestoredOf(Map(Line, r.entries)) == Some(r.entries) && b == PutFrame(r.entries) + r.rest
      && Total(r.entries) <= MAXIMUM_AGGREGATE_BYTES
  {
    var r := ReadOf(b, intrinsic);
    FramesAreLeases(b, intrinsic, r.entries, r.rest);
    RestoreInvertsLines(Map(Line, r.entries), r.entries);
  }
}
