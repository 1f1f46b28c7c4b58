/**
 The canonical authority manifest (internal/authority/plan.go): the bytes whose
 digest identifies an execution plan's semantic facts.
 */
module AuthorityManifest {
  import opened Options
  import opened ByteCoding
  import opened Sorting

  datatype FactSource = FactSource(kind: Text, id: Text, version: Int64)

  datatype SkillIdentity = SkillIdentity(source: Text, relativePath: Text)

  datatype MCPArgument = MCPArgument(kind: Text, reference: Text)

  datatype MCPLists = MCPLists(arguments: seq<MCPArgument>, environmentReferences: seq<Text>, disabledTools: seq<Text>)

  datatype Environment = Environment(destination: Text, scope: Text, sourceKind: Text, provider: Text,
      classification: Text, required: Option<bool>)

  datatype FactValue = FactValue(
    access: Text,
    mode: Text,
    logicalLocation: Text,
    logicalReference: Text,
    requirementId: Text,
    identity: Option<SkillIdentity>,
    names: seq<Text>,
    count: Option<Int64>,
    environment: Environment,
    mcp: MCPLists,
    mcpPresent: bool)

  datatype Fact = Fact(id: Text, kind: Text, value: FactValue, reason: Text, source: FactSource)

  datatype Facts = Facts(requested: seq<Fact>, targetAdded: seq<Fact>, effective: seq<Fact>, unsupported: seq<Fact>)

  const NO_LISTS := MCPLists([], [], [])
  const NO_ENVIRONMENT := Environment([], [], [], [], [], None)

  function McpTag(): Text { Ascii("mcp-reference-fact-v1") }

  function LogicalTag(): Text { Ascii("logical-reference-v1") }

  function EnvironmentTag(): Text { Ascii("environment-fact-v1") }

  function Magic(): Text { Ascii("acs-semantic-authority-manifest") }

  const MANIFEST_VERSION := 1

  /** What the encoding keeps of a fact: everything but the MCP lists of a fact without the MCP flag. */
  function Canonical(f: Fact): Fact {
    if f.value.mcpPresent then f else f.(value := f.value.(mcp := NO_LISTS))
  }

  // ----- the encoding, piece by piece

  function Flat(arguments: seq<MCPArgument>): (ts: seq<Text>)
    ensures |ts| == 2 * |arguments|
  {
    if arguments == [] then [] else [arguments[0].kind, arguments[0].reference] + Flat(arguments[1..])
  }

  function PutList(ts: seq<Text>): seq<Byte> { PutUint(|ts|) + PutTexts(ts) }

  function PutIdentity(identity: Option<SkillIdentity>): seq<Byte> {
    match identity
    case None => PutUint(0)
    case Some(x) => PutUint(1) + PutTexts([x.source, x.relativePath])
  }

  function PutCount(count: Option<Int64>): seq<Byte> {
    match count
    case None => PutUint(0)
    case Some(n) => PutUint(1) + PutUint(Unsigned(n))
  }

  function PutRequired(required: Option<bool>): seq<Byte> {
    match required
    case None => PutUint(0)
    case Some(x) => PutUint(1) + PutUint(if x then 1 else 0)
  }

  function PutMcp(v: FactValue): seq<Byte> {
    if !v.mcpPresent then []
    else PutText(McpTag()) + (PutUint(|v.mcp.arguments|) + (PutTexts(Flat(v.mcp.arguments))
         + (PutList(v.mcp.environmentReferences) + PutList(v.mcp.disabledTools))))
  }

  function PutLogical(v: FactValue): seq<Byte> {
    if v.logicalReference == [] then [] else PutText(LogicalTag()) + PutText(v.logicalReference)
  }

  function PutEnvironment(e: Environment): seq<Byte> {
    if e == NO_ENVIRONMENT then []
    else PutText(EnvironmentTag()) + (PutTexts([e.destination, e.scope, e.sourceKind, e.provider, e.classification])
         + PutRequired(e.required))
  }

  function PutHead(f: Fact, rest: seq<Byte>): seq<Byte> {
    PutTexts([f.id, f.kind, f.reason, f.source.kind, f.source.id])
    + (PutUint(Unsigned(f.source.version))
    + (PutTexts([f.value.access, f.value.mode, f.value.logicalLocation, f.value.requirementId]) + rest))
  }

  function PutBody(v: FactValue, rest: seq<Byte>): seq<Byte> {
    PutIdentity(v.identity) + (PutCount(v.count) + (PutList(v.names) + rest))
  }

  function PutTail(v: FactValue): seq<Byte> {
    PutMcp(v) + (PutLogical(v) + PutEnvironment(v.environment))
  }

  function PutFact(f: Fact): seq<Byte> { PutHead(f, PutBody(f.value, PutTail(f.value))) }

  function Encodings(fs: seq<Fact>): seq<Text> { Map(PutFact, fs) }

  /** A section counts its facts and gives the length of each. */
  function PutSection(fs: seq<Fact>): seq<Byte> { PutList(Encodings(fs)) }

  function PutSections(facts: Facts): seq<Byte> {
    PutSection(facts.requested)
      + (PutSection(facts.targetAdded) + (PutSection(facts.effective) + PutSection(facts.unsupported)))
  }

  function PutManifest(sourceVersion: Int64, overlay: Text, recipe: Text, facts: Facts): seq<Byte> {
    Magic() + (PutUint(MANIFEST_VERSION)
      + (PutUint(Unsigned(sourceVersion)) + (PutTexts([overlay, recipe]) + PutSections(facts))))
  }

  // ----- a reader of that encoding

  function Paired(ts: seq<Text>): seq<MCPArgument>
    requires |ts| % 2 == 0
  {
    if ts == [] then [] else [MCPArgument(ts[0], ts[1])] + Paired(ts[2..])
  }

  function ReadList(b: seq<Byte>): Parse<seq<Text>> {
    var (n, b1) :- ReadUint(b);
    ReadTexts(b1, n)
  }

  function ReadIdentity(b: seq<Byte>): Parse<Option<SkillIdentity>> {
    var (flag, b1) :- ReadUint(b);
    if flag == 0 then Got(None, b1)
    else
      var (ts, b2) :- ReadTexts(b1, 2);
      Got(Some(SkillIdentity(ts[0], ts[1])), b2)
  }

  function ReadCount(b: seq<Byte>): Parse<Option<Int64>> {
    var (flag, b1) :- ReadUint(b);
    if flag == 0 then Got(None, b1)
    else
      var (n, b2) :- ReadUint(b1);
      if n < WORD then Got(Some(Signed(n)), b2) else Fail
  }

  function ReadRequired(b: seq<Byte>): Parse<Option<bool>> {
    var (flag, b1) :- ReadUint(b);
    if flag == 0 then Got(None, b1)
    else
      var (n, b2) :- ReadUint(b1);
      Got(Some(n == 1), b2)
  }

  /** An optional block is there exactly when its tag is. */
  function ReadMcp(b: seq<Byte>): Parse<Option<MCPLists>> {
    if !(PutText(McpTag()) <= b) then Got(None, b)
    else
      var (n, b1) :- ReadUint(b[|PutText(McpTag())|..]);
      var (arguments, b2) :- ReadTexts(b1, 2 * n);
      var (references, b3) :- ReadList(b2);
      var (tools, b4) :- ReadList(b3);
      Got(Some(MCPLists(Paired(arguments), references, tools)), b4)
  }

  function ReadLogical(b: seq<Byte>): Parse<Text> {
    if PutText(LogicalTag()) <= b then ReadText(b[|PutText(LogicalTag())|..]) else Got([], b)
  }

  function ReadEnvironment(b: seq<Byte>): Parse<Environment> {
    if !(PutText(EnvironmentTag()) <= b) then Got(NO_ENVIRONMENT, b)
    else
      var (ts, b1) :- ReadTexts(b[|PutText(EnvironmentTag())|..], 5);
      var (required, b2) :- ReadRequired(b1);
      Got(Environment(ts[0], ts[1], ts[2], ts[3], ts[4], required), b2)
  }

  datatype Head = Head(texts: seq<Text>, version: Int64, values: seq<Text>)

  function ReadHead(b: seq<Byte>): (r: Parse<Head>)
    ensures r.Got? ==> |r.value.texts| == 5 && |r.value.values| == 4
  {
    var (texts, b1) :- ReadTexts(b, 5);
    var (version, b2) :- ReadUint(b1);
    var (values, b3) :- ReadTexts(b2, 4);
    if version < WORD then Got(Head(texts, Signed(version), values), b3) else Fail
  }

  datatype Body = Body(identity: Option<SkillIdentity>, count: Option<Int64>, names: seq<Text>)

  function ReadBody(b: seq<Byte>): Parse<Body> {
    var (identity, b1) :- ReadIdentity(b);
    var (count, b2) :- ReadCount(b1);
    var (names, b3) :- ReadList(b2);
    Got(Body(identity, count, names), b3)
  }

  datatype Tail = Tail(mcp: Option<MCPLists>, logicalReference: Text, environment: Environment)

  function ReadTail(b: seq<Byte>): Parse<Tail> {
    var (mcp, b1) :- ReadMcp(b);
    var (logicalReference, b2) :- ReadLogical(b1);
    var (environment, b3) :- ReadEnvironment(b2);
    Got(Tail(mcp, logicalReference, environment), b3)
  }

  function Assembled(h: Head, b: Body, t: Tail): Fact
    requires |h.texts| == 5 && |h.values| == 4
  {
    Fact(h.texts[0], h.texts[1],
         FactValue(h.values[0], h.values[1], h.values[2], t.logicalReference, h.values[3], b.identity, b.names, b.count,
                   t.environment, if t.mcp.Some? then t.mcp.value else NO_LISTS, t.mcp.Some?),
         h.texts[2], FactSource(h.texts[3], h.texts[4], h.version))
  }

  function ReadFact(b: seq<Byte>): Option<Fact> {
    match ReadHead(b)
    case Fail => None
    case Got(head, b1) =>
      match ReadBody(b1)
      case Fail => None
      case Got(body, b2) =>
        match ReadTail(b2)
        case Fail => None
        case Got(tail, b3) => if b3 == [] then Some(Assembled(head, body, tail)) else None
  }

  function ReadEach(ts: seq<Text>): Option<seq<Fact>> {
    if ts == [] then Some([])
    else
      match (ReadFact(ts[0]), ReadEach(ts[1..]))
      case (Some(f), Some(fs)) => Some([f] + fs)
      case _ => None
  }

  function ReadSection(b: seq<Byte>): Parse<seq<Fact>> {
    var (ts, b1) :- ReadList(b);
    match ReadEach(ts)
    case None => Fail
    case Some(fs) => Got(fs, b1)
  }

  function ReadSections(b: seq<Byte>): Parse<Facts> {
    var (requested, b1) :- ReadSection(b);
    var (targetAdded, b2) :- ReadSection(b1);
    var (effective, b3) :- ReadSection(b2);
    var (unsupported, b4) :- ReadSection(b3);
    Got(Facts(requested, targetAdded, effective, unsupported), b4)
  }

  datatype Manifest = Manifest(sourceVersion: Int64, overlay: Text, recipe: Text, facts: Facts)

  function ReadManifest(b: seq<Byte>): Parse<Manifest> {
    if !(Magic() <= b) then Fail
    else
      var (_, b1) :- ReadUint(b[|Magic()|..]);
      var (version, b2) :- ReadUint(b1);
      var (names, b3) :- ReadTexts(b2, 2);
      var (facts, b4) :- ReadSections(b3);
      if version < WORD then Got(Manifest(Signed(version), names[0], names[1], facts), b4) else Fail
  }

  // ----- reading what was written

  lemma {:induction false} PairedFlat(arguments: seq<MCPArgument>)
    ensures Paired(Flat(arguments)) == arguments
  {
    if arguments != [] {
      PairedFlat(arguments[1..]);
      assert Flat(arguments)[2..] == Flat(arguments[1..]);
      assert arguments == [arguments[0]] + arguments[1..];
    }
  }

  lemma ListRoundTrip(ts: seq<Text>, rest: seq<Byte>)
    requires |PutTexts(ts)| < SLICE_LIMIT
    ensures ReadList(PutList(ts) + rest) == Got(ts, rest)
  {
    TextsCount(ts);
    UintRoundTrip(|ts|, PutTexts(ts) + rest);
    TextsRoundTrip(ts, rest);
    assert PutList(ts) + rest == PutUint(|ts|) + (PutTexts(ts) + rest);
  }

  lemma IdentityRoundTrip(identity: Option<SkillIdentity>, rest: seq<Byte>)
    requires |PutIdentity(identity)| < SLICE_LIMIT
    ensures ReadIdentity(PutIdentity(identity) + rest) == Got(identity, rest)
  {
    hide PutTexts, PutUint, ReadTexts, ReadUint;
    match identity
    case None => UintRoundTrip(0, rest);
    case Some(x) =>
      var ts := [x.source, x.relativePath];
      UintRoundTrip(1, PutTexts(ts) + rest);
      TextsRoundTrip(ts, rest);
      assert PutIdentity(identity) + rest == PutUint(1) + (PutTexts(ts) + rest);
  }

  lemma CountRoundTrip(count: Option<Int64>, rest: seq<Byte>)
    ensures ReadCount(PutCount(count) + rest) == Got(count, rest)
  {
    hide PutUint, ReadUint;
    match count
    case None => UintRoundTrip(0, rest);
    case Some(n) =>
      UintRoundTrip(1, PutUint(Unsigned(n)) + rest);
      UintRoundTrip(Unsigned(n), rest);
      assert PutCount(count) + rest == PutUint(1) + (PutUint(Unsigned(n)) + rest);
  }

  lemma RequiredRoundTrip(required: Option<bool>, rest: seq<Byte>)
    ensures ReadRequired(PutRequired(required) + rest) == Got(required, rest)
  {
    hide PutUint, ReadUint;
    match required
    case None => UintRoundTrip(0, rest);
    case Some(x) =>
      var n := if x then 1 else 0;
      UintRoundTrip(1, PutUint(n) + rest);
      UintRoundTrip(n, rest);
      assert PutRequired(required) + rest == PutUint(1) + (PutUint(n) + rest);
  }

  lemma HeadRoundTrip(f: Fact, rest: seq<Byte>)
    requires |PutHead(f, rest)| < SLICE_LIMIT
    ensures ReadHead(PutHead(f, rest)) ==
        Got(Head([f.id, f.kind, f.reason, f.source.kind, f.source.id], f.source.version,
                                                   [f.value.access, f.value.mode, f.value.logicalLocation,
                                                     f.value.requirementId]), rest)
  {
    hide PutTexts, PutUint, ReadTexts, ReadUint;
    var texts := [f.id, f.kind, f.reason, f.source.kind, f.source.id];
    var values := [f.value.access, f.value.mode, f.value.logicalLocation, f.value.requirementId];
    var b2 := PutTexts(values) + rest;
    var b1 := PutUint(Unsigned(f.source.version)) + b2;
    TextsRoundTrip(texts, b1);
    UintRoundTrip(Unsigned(f.source.version), b2);
    TextsRoundTrip(values, rest);
  }

  lemma BodyRoundTrip(v: FactValue, rest: seq<Byte>)
    requires |PutBody(v, rest)| < SLICE_LIMIT
    ensures ReadBody(PutBody(v, rest)) == Got(Body(v.identity, v.count, v.names), rest)
  {
    hide PutIdentity, PutCount, ReadIdentity, ReadCount, ReadList;
    var b2 := PutList(v.names) + rest;
    var b1 := PutCount(v.count) + b2;
    IdentityRoundTrip(v.identity, b1);
    CountRoundTrip(v.count, b2);
    ListRoundTrip(v.names, rest);
  }

  /** A block that may be absent: what follows it starts with no tag, or another one. */
  lemma McpRoundTrip(v: FactValue, rest: seq<Byte>)
    requires |PutMcp(v)| < SLICE_LIMIT && !(PutText(McpTag()) <= rest)
    ensures ReadMcp(PutMcp(v) + rest) == Got(if v.mcpPresent then Some(v.mcp) else None, rest)
  {
    hide PutText, PutUint, PutTexts, ReadUint, ReadTexts, ReadList;
    if v.mcpPresent {
      var b4 := PutList(v.mcp.disabledTools) + rest;
      var b3 := PutList(v.mcp.environmentReferences) + b4;
      var b2 := PutTexts(Flat(v.mcp.arguments)) + b3;
      var b1 := PutUint(|v.mcp.arguments|) + b2;
      assert PutMcp(v) + rest == PutText(McpTag()) + b1;
      assert (PutText(McpTag()) + b1)[|PutText(McpTag())|..] == b1;
      TextsCount(Flat(v.mcp.arguments));
      UintRoundTrip(|v.mcp.arguments|, b2);
      TextsRoundTrip(Flat(v.mcp.arguments), b3);
      PairedFlat(v.mcp.arguments);
      ListRoundTrip(v.mcp.environmentReferences, b4);
      ListRoundTrip(v.mcp.disabledTools, rest);
    } else {
      assert PutMcp(v) + rest == rest;
    }
  }

  lemma LogicalRoundTrip(v: FactValue, rest: seq<Byte>)
    requires |PutLogical(v)| < SLICE_LIMIT && !(PutText(LogicalTag()) <= rest)
    ensures ReadLogical(PutLogical(v) + rest) == Got(v.logicalReference, rest)
  {
    if v.logicalReference != [] {
      var b1 := PutText(v.logicalReference) + rest;
      assert PutLogical(v) + rest == PutText(LogicalTag()) + b1;
      assert (PutText(LogicalTag()) + b1)[|PutText(LogicalTag())|..] == b1;
      TextRoundTrip(v.logicalReference, rest);
    } else {
      assert PutLogical(v) + rest == rest;
    }
  }

  lemma EnvironmentRoundTrip(e: Environment)
    requires |PutEnvironment(e)| < SLICE_LIMIT
    ensures ReadEnvironment(PutEnvironment(e)) == Got(e, [])
  {
    hide PutTexts, ReadTexts, PutRequired, ReadRequired;
    if e != NO_ENVIRONMENT {
      var ts := [e.destination, e.scope, e.sourceKind, e.provider, e.classification];
      var b1 := PutTexts(ts) + PutRequired(e.required);
      assert (PutText(EnvironmentTag()) + b1)[|PutText(EnvironmentTag())|..] == b1;
      TextsRoundTrip(ts, PutRequired(e.required));
      RequiredRoundTrip(e.required, []);
      assert PutRequired(e.required) + [] == PutRequired(e.required);
    }
  }

  lemma TailRoundTrip(v: FactValue)
    requires |PutTail(v)| < SLICE_LIMIT
    ensures ReadTail(PutTail(v)) ==
        Got(Tail(if v.mcpPresent then Some(v.mcp) else None, v.logicalReference, v.environment), [])
  {
    var b2 := PutEnvironment(v.environment);
    var b1 := PutLogical(v) + b2;
    assert !(PutText(LogicalTag()) <= b2) && !(PutText(McpTag()) <= b1) by {
      FollowedByNoTag(v);
    }
    hide PutMcp, PutLogical, PutEnvironment, ReadMcp, ReadLogical, ReadEnvironment;
    McpRoundTrip(v, b1);
    LogicalRoundTrip(v, b2);
    EnvironmentRoundTrip(v.environment);
  }

  lemma FollowedByNoTag(v: FactValue)
    ensures !(PutText(LogicalTag()) <= PutEnvironment(v.environment))
    ensures !(PutText(McpTag()) <= PutLogical(v) + PutEnvironment(v.environment))
  {
    hide PutTexts, PutRequired;
    var e := PutEnvironment(v.environment);
    if v.environment != NO_ENVIRONMENT {
      PrefixesDiffer(LogicalTag(), EnvironmentTag(), e[|PutText(EnvironmentTag())|..]);
      PrefixesDiffer(McpTag(), EnvironmentTag(), e[|PutText(EnvironmentTag())|..]);
      assert e == PutText(EnvironmentTag()) + e[|PutText(EnvironmentTag())|..];
    }
    if v.logicalReference != [] {
      PrefixesDiffer(McpTag(), LogicalTag(), PutText(v.logicalReference) + e);
      assert PutLogical(v) + e == PutText(LogicalTag()) + (PutText(v.logicalReference) + e);
    } else {
      assert PutLogical(v) + e == e;
    }
  }

  /** Reading the encoding of a fact gives the fact back, up to the lists the MCP flag switches off. */
  lemma FactRoundTrip(f: Fact)
    requires |PutFact(f)| < SLICE_LIMIT
    ensures ReadFact(PutFact(f)) == Some(Canonical(f))
  {
    var tail := PutTail(f.value);
    var body := PutBody(f.value, tail);
    assert |tail| <= |body| <= |PutFact(f)|;
    hide PutHead, PutBody, PutTail, ReadHead, ReadBody, ReadTail;
    HeadRoundTrip(f, body);
    BodyRoundTrip(f.value, tail);
    TailRoundTrip(f.value);
  }

  lemma {:induction false} EachRoundTrip(fs: seq<Fact>)
    requires |PutTexts(Encodings(fs))| < SLICE_LIMIT
    ensures ReadEach(Encodings(fs)) == Some(Map(Canonical, fs))
  {
    hide PutFact, ReadFact, Canonical, PutUint;
    if fs != [] {
      assert Encodings(fs)[0] == PutFact(fs[0]) && Encodings(fs)[1..] == Encodings(fs[1..]);
      assert PutTexts(Encodings(fs)) == PutText(PutFact(fs[0])) + PutTexts(Encodings(fs[1..]));
      FactRoundTrip(fs[0]);
      EachRoundTrip(fs[1..]);
      assert Map(Canonical, fs) == [Canonical(fs[0])] + Map(Canonical, fs[1..]);
    }
  }

  lemma SectionRoundTrip(fs: seq<Fact>, rest: seq<Byte>)
    requires |PutSection(fs)| < SLICE_LIMIT
    ensures ReadSection(PutSection(fs) + rest) == Got(Map(Canonical, fs), rest)
  {
    ListRoundTrip(Encodings(fs), rest);
    EachRoundTrip(fs);
  }

  function CanonicalFacts(facts: Facts): Facts {
    Facts(Map(Canonical, facts.requested), Map(Canonical, facts.targetAdded),
          Map(Canonical, facts.effective), Map(Canonical, facts.unsupported))
  }

  lemma SectionsRoundTrip(facts: Facts)
    requires |PutSections(facts)| < SLICE_LIMIT
    ensures ReadSections(PutSections(facts)) == Got(CanonicalFacts(facts), [])
  {
    hide PutSection, ReadSection;
    var b3 := PutSection(facts.unsupported);
    var b2 := PutSection(facts.effective) + b3;
    var b1 := PutSection(facts.targetAdded) + b2;
    SectionRoundTrip(facts.requested, b1);
    SectionRoundTrip(facts.targetAdded, b2);
    SectionRoundTrip(facts.effective, b3);
    SectionRoundTrip(facts.unsupported, []);
    assert b3 + [] == b3;
  }

  /** The whole manifest reads back: versions, names, and every section fact by fact. */
  lemma ManifestRoundTrip(sourceVersion: Int64, overlay: Text, recipe: Text, facts: Facts)
    requires |PutManifest(sourceVersion, overlay, recipe, facts)| < SLICE_LIMIT
    ensures ReadManifest(PutManifest(sourceVersion, overlay, recipe, facts)) ==
        Got(Manifest(sourceVersion, overlay, recipe, CanonicalFacts(facts)), [])
  {
    hide PutTexts, PutUint, ReadTexts, ReadUint, PutSections, ReadSections;
    var b3 := PutSections(facts);
    var b2 := PutTexts([overlay, recipe]) + b3;
    var b1 := PutUint(Unsigned(sourceVersion)) + b2;
    var b0 := PutUint(MANIFEST_VERSION) + b1;
    assert (Magic() + b0)[|Magic()|..] == b0;
    UintRoundTrip(MANIFEST_VERSION, b1);
    UintRoundTrip(Unsigned(sourceVersion), b2);
    TextsRoundTrip([overlay, recipe], b3);
    SectionsRoundTrip(facts);
  }
}
