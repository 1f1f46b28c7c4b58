/**
 Filling a lease from the host (internal/environmentresource/resource.go:45-95): what an
 admitted selection resolves to, exactly when it does, and with which error it does not.
 */
module EnvironmentResolution {
  import opened Options
  import opened ByteCoding
  import opened Sorting
  import opened EnvironmentIntent
  import opened EnvironmentFrames

  /** The host variable an entry is looked up under. */
  function Looked(e: Entry): Text {
    if e.source.kind == Ascii("secret-reference") then e.source.reference else e.source.name
  }

  predicate MayBeAbsent(e: Entry) { !e.required && e.source.kind != Ascii("secret-reference") }

  function ResolvedAfter(es: seq<Entry>, lookup: Text -> Option<Text>, total: nat): Result<seq<Assignment>>
    decreases |es|
  {
    if es == [] then Ok([])
    else
      match lookup(Looked(es[0]))
      case None => if MayBeAbsent(es[0]) then ResolvedAfter(es[1..], lookup, total) else Refused(MissingValue)
      case Some(value) =>
        if 0 in value then Refused(InvalidValue)
        else if |value| > MAXIMUM_VALUE_BYTES || total > MAXIMUM_AGGREGATE_BYTES - |value| then Refused(ValueTooLarge)
        else
          match ResolvedAfter(es[1..], lookup, total + |value|)
          case Refused(problem) => Refused(problem)
          case Ok(rest) => Ok([Assignment(es[0].destination, value)] + rest)
  }

  function ResolvedOf(intents: seq<Entry>, lookup: Text -> Option<Text>): Result<seq<Assignment>> {
    match CanonicalEntries(intents)
    case None => Refused(InvalidValue)
    case Some(es) => ResolvedAfter(es, lookup, 0)
  }

  lemma ResolvedHead(es: seq<Entry>, lookup: Text -> Option<Text>, total: nat)
    requires es != [] && ResolvedAfter(es, lookup, total).Ok?
    ensures match lookup(Looked(es[0]))
            case None => MayBeAbsent(es[0]) && ResolvedAfter(es, lookup, total) == ResolvedAfter(es[1..], lookup, total)
            case Some(value) =>
              && 0 !in value && |value| <= MAXIMUM_VALUE_BYTES && total + |value| <= MAXIMUM_AGGREGATE_BYTES
              && ResolvedAfter(es[1..], lookup, total + |value|).Ok?
              && ResolvedAfter(es, lookup, total).value ==
                   [Assignment(es[0].destination, value)] + ResolvedAfter(es[1..], lookup, total + |value|).value
  {
    hide MayBeAbsent, Looked;
  }

  lemma AdmittedOneMore(a: Assignment, es: seq<Assignment>, total: nat, seen: set<Text>)
    requires Sound(a) && a.destination !in seen && total + |a.value| <= MAXIMUM_AGGREGATE_BYTES
    requires AdmittedAfter(es, total + |a.value|, seen + {a.destination})
    ensures AdmittedAfter([a] + es, total, seen)
  {
    hide Sound;
    assert ([a] + es)[1..] == es;
  }

  lemma {:induction false} ResolvedStepwise(es: seq<Entry>, lookup: Text -> Option<Text>, total: nat, seen: set<Text>)
    requires (forall e | e in es :: ValidEntry(e) && e.destination !in seen) && NoDuplicates(Map(Destination, es))
    requires ResolvedAfter(es, lookup, total).Ok?
    ensures var r := ResolvedAfter(es, lookup, total).value;
      AdmittedAfter(r, total, seen) && |r| <= |es|
    decreases |es|
  {
    if es != [] {
      var e, rest := es[0], es[1..];
      assert es == [e] + rest;
      RestApart(es);
      DestinationOf(e);
      ResolvedHead(es, lookup, total);
      hide ValidEntry, MayBeAbsent, Looked, ValidDestination, NoDuplicates, Map, ResolvedAfter, AdmittedAfter;
      match lookup(Looked(e)) {
        case None => ResolvedStepwise(rest, lookup, total, seen);
        case Some(value) =>
          ResolvedStepwise(rest, lookup, total + |value|, seen + {e.destination});
          AdmittedOneMore(Assignment(e.destination, value), ResolvedAfter(rest, lookup, total + |value|).value, total,
            seen);
      }
    }
  }

  /** What a lookup of these entries must give. */
  predicate Holds(r: seq<Assignment>, es: seq<Entry>, lookup: Text -> Option<Text>) {
    && (forall e | e in es ::
         if lookup(Looked(e)).Some? then Assignment(e.destination, lookup(Looked(e)).value) in r else MayBeAbsent(e))
    && (forall a | a in r :: exists e | e in es :: e.destination == a.destination && lookup(Looked(e)) == Some(a.value))
  }

  lemma {:induction false} ResolvedContents(es: seq<Entry>, lookup: Text -> Option<Text>, total: nat)
    requires ResolvedAfter(es, lookup, total).Ok?
    ensures Holds(ResolvedAfter(es, lookup, total).value, es, lookup)
    decreases |es|
  {
    hide MayBeAbsent, Looked;
    if es != [] {
      var e, rest := es[0], es[1..];
      assert es == [e] + rest;
      match lookup(Looked(e)) {
        case None => ResolvedContents(rest, lookup, total);
        case Some(value) =>
          ResolvedContents(rest, lookup, total + |value|);
          assert ResolvedAfter(es, lookup, total).value ==
              [Assignment(e.destination, value)] + ResolvedAfter(rest, lookup, total + |value|).value;
      }
    }
  }

  lemma RestApart(es: seq<Entry>)
    requires es != [] && NoDuplicates(Map(Destination, es))
    ensures NoDuplicates(Map(Destination, es[1..])) && forall x | x in es[1..] :: x.destination != es[0].destination
  {
    var rest := es[1..];
    assert Map(Destination, rest) == Map(Destination, es)[1..];
    HeadOrTailRepeats(Map(Destination, es));
    forall x | x in rest ensures x.destination != es[0].destination {
      var i :| 0 <= i < |rest| && rest[i] == x;
      assert Map(Destination, es)[1..][i] == x.destination;
    }
  }

  lemma DestinationOf(e: Entry)
    requires ValidEntry(e)
    ensures ValidDestination(e.destination)
  {
  }

  // ----- exactly when, with what, and with which error

  /** What the host has for an entry: a host variable by its name, a secret by its reference. */
  function HostValue(e: Entry, lookup: Text -> Option<Text>): Option<Text> {
    if e.source.kind == Ascii("host-environment") then lookup(e.source.name) else lookup(e.source.reference)
  }

  /** Absent only when optional and no secret; free of NUL; not too long. */
  predicate Usable(e: Entry, lookup: Text -> Option<Text>) {
    match HostValue(e, lookup)
    case None => !e.required && e.source.kind == Ascii("host-environment")
    case Some(value) => 0 !in value && |value| <= MAXIMUM_VALUE_BYTES
  }

  function Sizes(es: seq<Entry>, lookup: Text -> Option<Text>): seq<nat> {
    Map(e => var value := HostValue(e, lookup); if value.Some? then |value.value| else 0, es)
  }

  function ValueBytes(es: seq<Entry>, lookup: Text -> Option<Text>): nat { Sum(Sizes(es, lookup)) }

  /** The host can fill all of these entries within the limits. */
  predicate Fills(es: seq<Entry>, lookup: Text -> Option<Text>) {
    (forall e | e in es :: Usable(e, lookup)) && ValueBytes(es, lookup) <= MAXIMUM_AGGREGATE_BYTES
  }

  /** The error an entry that cannot be filled ends resolving with. */
  function Offence(e: Entry, lookup: Text -> Option<Text>): Problem {
    match HostValue(e, lookup)
    case None => MissingValue
    case Some(value) => if 0 in value then InvalidValue else ValueTooLarge
  }

  /** For a valid entry the two ways to find its value are one. */
  lemma LookedIsHostValue(e: Entry, lookup: Text -> Option<Text>)
    requires ValidEntry(e)
    ensures lookup(Looked(e)) == HostValue(e, lookup)
    ensures MayBeAbsent(e) <==> !e.required && e.source.kind == Ascii("host-environment")
  {
    KindsDiffer();
    hide ValidId, ValidDestination, ValidName;
  }

  lemma KindsDiffer()
    ensures Ascii("secret-reference") != Ascii("host-environment") && Ascii("secret") != Ascii("non-secret")
  {
    assert Ascii("secret-reference")[0] == 's' as int && Ascii("host-environment")[0] == 'h' as int;
    assert |Ascii("secret")| != |Ascii("non-secret")|;
  }

  lemma OneMoreFills(es: seq<Entry>, k: nat, lookup: Text -> Option<Text>)
    requires k < |es|
    ensures var value := HostValue(es[k], lookup);
      ValueBytes(es[..k + 1], lookup) == ValueBytes(es[..k], lookup) + if value.Some? then |value.value| else 0
    ensures (forall e | e in es[..k + 1] :: Usable(e, lookup)) <==>
            (forall e | e in es[..k] :: Usable(e, lookup)) && Usable(es[k], lookup)
  {
    assert es[..k + 1] == es[..k] + [es[k]];
    hide Usable, HostValue;
    SumSplits(Sizes(es[..k], lookup), Sizes([es[k]], lookup));
    assert Sizes(es[..k + 1], lookup) == Sizes(es[..k], lookup) + Sizes([es[k]], lookup);
  }

  lemma MoreBytes(es: seq<Entry>, k: nat, lookup: Text -> Option<Text>)
    requires k <= |es|
    ensures ValueBytes(es[..k], lookup) <= ValueBytes(es, lookup)
  {
    SumSplits(Sizes(es[..k], lookup), Sizes(es[k..], lookup));
    assert Sizes(es, lookup) == Sizes(es[..k], lookup) + Sizes(es[k..], lookup);
  }

  /** What becomes of one entry, over `total` bytes before it. */
  lemma ResolvedOne(es: seq<Entry>, lookup: Text -> Option<Text>, total: nat)
    requires es != [] && ValidEntry(es[0]) && total <= MAXIMUM_AGGREGATE_BYTES
    ensures var (result, value) := (ResolvedAfter(es, lookup, total), HostValue(es[0], lookup));
      var size := if value.Some? then |value.value| else 0;
      if Usable(es[0], lookup) && total + size <= MAXIMUM_AGGREGATE_BYTES then
        match ResolvedAfter(es[1..], lookup, total + size)
        case Ok(_) => result.Ok?
        case Refused(problem) => result == Refused(problem)
      else result == Refused(Offence(es[0], lookup))
  {
    hide HostValue, Looked, MayBeAbsent, ValidEntry, Ascii;
    LookedIsHostValue(es[0], lookup);
  }

  lemma FillsOneMore(es: seq<Entry>, k: nat, lookup: Text -> Option<Text>)
    requires k < |es| && Fills(es[..k], lookup)
    ensures var value := HostValue(es[k], lookup);
      var total := ValueBytes(es[..k], lookup) + if value.Some? then |value.value| else 0;
      && (Fills(es[..k + 1], lookup) <==> Usable(es[k], lookup) && total <= MAXIMUM_AGGREGATE_BYTES)
      && (Fills(es, lookup) ==> Fills(es[..k + 1], lookup))
      && ValueBytes(es[..k + 1], lookup) == total
  {
    hide HostValue, Usable, ValueBytes;
    OneMoreFills(es, k, lookup);
    MoreBytes(es, k + 1, lookup);
    assert forall e | e in es[..k + 1] :: e in es;
  }

  /** The host fills the entries before this one, but not with it. */
  predicate Stops(es: seq<Entry>, at: nat, lookup: Text -> Option<Text>) {
    at < |es| && Fills(es[..at], lookup) && !Fills(es[..at + 1], lookup)
  }

  /** All entries are filled, or the first that is not decides. */
  predicate Explained(es: seq<Entry>, at: nat, lookup: Text -> Option<Text>, result: Result<seq<Assignment>>) {
    && (result.Ok? <==> Fills(es, lookup))
    && (result.Refused? ==> Stops(es, at, lookup) && result.problem == Offence(es[at], lookup))
  }

  function ResolvedRest(es: seq<Entry>, k: nat, lookup: Text -> Option<Text>): Result<seq<Assignment>>
    requires k <= |es|
  {
    ResolvedAfter(es[k..], lookup, ValueBytes(es[..k], lookup))
  }

  lemma ResolvedNext(es: seq<Entry>, k: nat, lookup: Text -> Option<Text>)
    requires k < |es| && ValidEntry(es[k]) && Fills(es[..k], lookup)
    ensures var (result, next) := (ResolvedRest(es, k, lookup), ResolvedRest(es, k + 1, lookup));
      if Fills(es[..k + 1], lookup) then
        result.Ok? == next.Ok? && (result.Refused? ==> result.problem == next.problem)
      else Explained(es, k, lookup, result)
  {
    hide ValidEntry, HostValue, Usable, ValueBytes, ResolvedAfter, Offence;
    var rest, total := es[k..], ValueBytes(es[..k], lookup);
    assert rest[0] == es[k] && rest[1..] == es[k + 1..] && total <= MAXIMUM_AGGREGATE_BYTES;
    hide Fills;
    FillsOneMore(es, k, lookup);
    ResolvedOne(rest, lookup, total);
    if Fills(es[..k + 1], lookup) {
      var value := HostValue(es[k], lookup);
      assert ResolvedRest(es, k + 1, lookup) ==
          ResolvedAfter(rest[1..], lookup, total + if value.Some? then |value.value| else 0);
    }
  }

  /** From the k-th entry on, after k entries that the host fills. */
  lemma {:induction false} ResolvedFrom(es: seq<Entry>, k: nat, lookup: Text -> Option<Text>) returns (at: nat)
    requires k <= |es| && (forall e | e in es :: ValidEntry(e)) && Fills(es[..k], lookup)
    ensures Explained(es, at, lookup, ResolvedRest(es, k, lookup))
    decreases |es| - k
  {
    at := k;
    if k == |es| {
      assert es[..k] == es;
    } else {
      assert ValidEntry(es[k]);
      hide ValidEntry, Stops, Fills, ResolvedRest, Offence;
      ResolvedNext(es, k, lookup);
      if Fills(es[..k + 1], lookup) { at := ResolvedFrom(es, k + 1, lookup); }
    }
  }

  lemma NoneFilled(es: seq<Entry>, lookup: Text -> Option<Text>)
    ensures ValueBytes(es[..0], lookup) == 0 && Fills(es[..0], lookup)
  {
  }

  lemma FillsIgnoresOrder(a: seq<Entry>, b: seq<Entry>, lookup: Text -> Option<Text>)
    requires multiset(a) == multiset(b)
    ensures Fills(a, lookup) == Fills(b, lookup)
  {
    hide HostValue, Usable;
    MapMultiset(e => var value := HostValue(e, lookup); if value.Some? then |value.value| else 0, a, b);
    SumIgnoresOrder(Sizes(a, lookup), Sizes(b, lookup));
    assert forall e :: e in a <==> e in multiset(a);
    assert forall e :: e in b <==> e in multiset(b);
  }

  /**
   A selection resolves exactly when it is acceptable and the host can fill it: every
   secret and every required entry has a value, no value has a NUL or is too long, and
   together they are within the aggregate limit.
   */
  lemma ResolvesExactly(intents: seq<Entry>, lookup: Text -> Option<Text>)
    ensures ResolvedOf(intents, lookup).Ok? <==> Acceptable(intents) && Fills(intents, lookup)
    ensures !Acceptable(intents) ==> ResolvedOf(intents, lookup) == Refused(InvalidValue)
  {
    if Acceptable(intents) {
      CanonicalIdempotent(intents);
      var es := CanonicalEntries(intents).value;
      hide ResolvedAfter, Fills, Acceptable, CanonicalEntries, Stops;
      assert es[0..] == es && ValueBytes(es[..0], lookup) == 0 && Fills(es[..0], lookup) by { NoneFilled(es, lookup); }
      var _ := ResolvedFrom(es, 0, lookup);
      FillsIgnoresOrder(es, intents, lookup);
    }
  }

  /** A refusal carries the error of the first entry, by ID, up to which the host cannot fill the selection. */
  lemma RefusalIsTheFirst(intents: seq<Entry>, lookup: Text -> Option<Text>) returns (es: seq<Entry>, at: nat)
    requires Acceptable(intents) && ResolvedOf(intents, lookup).Refused?
    ensures IsSortOf(ById, es, intents) && at < |es|
    ensures Fills(es[..at], lookup) && !Fills(es[..at + 1], lookup)
    ensures ResolvedOf(intents, lookup) == Refused(Offence(es[at], lookup))
  {
    CanonicalIdempotent(intents);
    es := CanonicalEntries(intents).value;
    hide ResolvedAfter, Fills, Offence;
    assert es[0..] == es && ValueBytes(es[..0], lookup) == 0 && Fills(es[..0], lookup) by { NoneFilled(es, lookup); }
    at := ResolvedFrom(es, 0, lookup);
  }

  /** What a lease holds, on the entries' own fields. */
  predicate Contains(r: seq<Assignment>, es: seq<Entry>, lookup: Text -> Option<Text>) {
    && (forall e | e in es && e.source.kind == Ascii("host-environment") ::
         match lookup(e.source.name)
         case None => !e.required
         case Some(value) => Assignment(e.destination, value) in r)
    && (forall e | e in es && e.source.kind == Ascii("secret-reference") ::
         lookup(e.source.reference).Some? && Assignment(e.destination, lookup(e.source.reference).value) in r)
    && (forall a | a in r :: exists e | e in es ::
         && e.destination == a.destination
         && if e.source.kind == Ascii("host-environment") then lookup(e.source.name) == Some(a.value)
            else e.source.kind == Ascii("secret-reference") && lookup(e.source.reference) == Some(a.value))
  }

  lemma HoldsContains(r: seq<Assignment>, es: seq<Entry>, lookup: Text -> Option<Text>)
    requires Holds(r, es, lookup) && forall e | e in es :: ValidEntry(e)
    ensures Contains(r, es, lookup)
  {
    KindsDiffer();
    forall e | e in es
      ensures lookup(Looked(e)) == HostValue(e, lookup)
      ensures MayBeAbsent(e) <==> !e.required && e.source.kind == Ascii("host-environment")
      ensures e.source.kind == Ascii("host-environment") || e.source.kind == Ascii("secret-reference")
    {
      LookedIsHostValue(e, lookup);
    }
    hide ValidEntry, Looked, MayBeAbsent;
  }

  /**
   A resolved lease is admitted, and holds exactly the selected destinations the host
   has a value for: a host variable's under its name, a secret's under its reference.
   Only optional host variables are absent.
   */
  lemma ResolvedIsAdmitted(intents: seq<Entry>, lookup: Text -> Option<Text>)
    requires ResolvedOf(intents, lookup).Ok?
    ensures var r := ResolvedOf(intents, lookup).value;
      Admitted(r) && Contains(r, intents, lookup)
  {
    CanonicalIdempotent(intents);
    var es := CanonicalEntries(intents).value;
    var r := ResolvedOf(intents, lookup).value;
    ResolvedStepwise(es, lookup, 0, {});
    ResolvedContents(es, lookup, 0);
    AdmittedStepwise(r, 0, {});
    assert forall e :: e in intents <==> e in multiset(intents);
    assert forall e :: e in es <==> e in multiset(es);
    assert Holds(r, intents, lookup);
    HoldsContains(r, intents, lookup);
  }

  /** The order of the intents changes neither the lease nor the error. */
  lemma ResolveIgnoresOrder(a: seq<Entry>, b: seq<Entry>, lookup: Text -> Option<Text>)
    requires multiset(a) == multiset(b)
    ensures ResolvedOf(a, lookup) == ResolvedOf(b, lookup)
  {
    CanonicalIgnoresOrder(a, b);
  }
}
