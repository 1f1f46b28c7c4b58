/**
 How the manifest is written (internal/authority/plan.go:716-817): appends to one
 buffer, in loops.
 */
module AuthorityEncoder {
  import opened Options
  import opened ByteCoding
  import opened AuthorityManifest
  import opened AuthorityTheorems

  /** The buffer the encoding closures share. */
  class Encoder {
    var encoded: seq<Byte>

    constructor (initial: seq<Byte>)
      ensures encoded == initial
    {
      encoded := initial;
    }

    method Uint(value: nat)
      modifies this
      ensures encoded == old(encoded) + PutUint(value)
    {
      encoded := encoded + PutUint(value);
    }

    method Str(value: Text)
      modifies this
      ensures encoded == old(encoded) + PutText(value)
    {
      Uint(|value|);
      encoded := encoded + value;
    }

    method Two(a: Text, b: Text)
      modifies this
      ensures encoded == old(encoded) + PutTexts([a, b])
    {
      Str(a);
      Str(b);
      TextsAppend([], a);
      TextsAppend([a], b);
    }

    method Strings(values: seq<Text>)
      modifies this
      ensures encoded == old(encoded) + PutList(values)
    {
      Uint(|values|);
      for i := 0 to |values|
        invariant encoded == old(encoded) + PutUint(|values|) + PutTexts(values[..i])
      {
        Str(values[i]);
        TextsAppend(values[..i], values[i]);
        assert values[..i + 1] == values[..i] + [values[i]];
      }
      assert values[..|values|] == values;
    }

    method Head(fact: Fact)
      modifies this
      ensures encoded == old(encoded) + PutHead(fact, [])
    {
      FiveTexts(fact.id, fact.kind, fact.reason, fact.source.kind, fact.source.id);
      FourTexts(fact.value.access, fact.value.mode, fact.value.logicalLocation, fact.value.requirementId);
      hide PutText, PutUint, PutTexts;
      Two(fact.id, fact.kind);
      Two(fact.reason, fact.source.kind);
      Str(fact.source.id);
      Uint(Unsigned(fact.source.version));
      Two(fact.value.access, fact.value.mode);
      Two(fact.value.logicalLocation, fact.value.requirementId);
    }

    method Identity(identity: Option<SkillIdentity>)
      modifies this
      ensures encoded == old(encoded) + PutIdentity(identity)
    {
      hide PutTexts, PutUint;
      if identity.None? {
        Uint(0);
      } else {
        Uint(1);
        Two(identity.value.source, identity.value.relativePath);
      }
    }

    method Count(count: Option<Int64>)
      modifies this
      ensures encoded == old(encoded) + PutCount(count)
    {
      hide PutUint;
      if count.None? {
        Uint(0);
      } else {
        Uint(1);
        Uint(Unsigned(count.value));
      }
    }

    method Body(v: FactValue)
      modifies this
      ensures encoded == old(encoded) + PutBody(v, [])
    {
      hide PutIdentity, PutCount, PutList;
      Identity(v.identity);
      Count(v.count);
      Strings(v.names);
    }

    method Arguments(arguments: seq<MCPArgument>)
      modifies this
      ensures encoded == old(encoded) + (PutUint(|arguments|) + PutTexts(Flat(arguments)))
    {
      hide *;
      Uint(|arguments|);
      NoArguments(arguments);
      for i := 0 to |arguments|
        invariant encoded == old(encoded) + PutUint(|arguments|) + PutTexts(Flat(arguments[..i]))
      {
        Two(arguments[i].kind, arguments[i].reference);
        OneMoreArgument(arguments, i);
      }
      assert arguments[..|arguments|] == arguments;
    }

    method Mcp(v: FactValue)
      modifies this
      ensures encoded == old(encoded) + PutMcp(v)
    {
      hide PutTexts, PutList, PutText, PutUint, Flat, McpTag;
      if v.mcpPresent {
        Str(McpTag());
        Arguments(v.mcp.arguments);
        Strings(v.mcp.environmentReferences);
        Strings(v.mcp.disabledTools);
      }
    }

    method Logical(v: FactValue)
      modifies this
      ensures encoded == old(encoded) + PutLogical(v)
    {
      hide PutText, LogicalTag;
      if v.logicalReference != [] {
        Str(LogicalTag());
        Str(v.logicalReference);
      }
    }

    method Tail(v: FactValue)
      modifies this
      ensures encoded == old(encoded) + PutTail(v)
    {
      hide PutMcp, PutLogical, PutEnvironment;
      Mcp(v);
      Logical(v);
      Env(v.environment);
    }

    method Required(required: Option<bool>)
      modifies this
      ensures encoded == old(encoded) + PutRequired(required)
    {
      hide PutUint;
      if required.None? {
        Uint(0);
      } else {
        Uint(1);
        if required.value {
          Uint(1);
        } else {
          Uint(0);
        }
      }
    }

    method Env(e: Environment)
      modifies this
      ensures encoded == old(encoded) + PutEnvironment(e)
    {
      hide PutText, PutTexts, PutRequired, EnvironmentTag;
      if e.destination != [] || e.scope != [] || e.sourceKind != [] || e.provider != [] || e.classification != []
          || e.required.Some?
      {
        FiveTexts(e.destination, e.scope, e.sourceKind, e.provider, e.classification);
        Str(EnvironmentTag());
        Two(e.destination, e.scope);
        Two(e.sourceKind, e.provider);
        Str(e.classification);
        Required(e.required);
      }
    }

    /** Each fact is encoded on its own, then appended under its length. */
    method PutOne(fact: Fact)
      modifies this
      ensures encoded == old(encoded) + PutText(PutFact(fact))
    {
      hide PutFact, PutUint;
      var encodedFact := CanonicalFactEncoding(fact);
      Uint(|encodedFact|);
      encoded := encoded + encodedFact;
    }

    method PutFacts(facts: seq<Fact>)
      modifies this
      ensures encoded == old(encoded) + PutSection(facts)
    {
      hide *;
      ghost var texts := Encodings(facts);
      SectionBytes(facts);
      Uint(|facts|);
      for i := 0 to |facts|
        invariant encoded == old(encoded) + PutUint(|facts|) + PutTexts(texts[..i])
      {
        PutOne(facts[i]);
        assert texts[i] == PutFact(facts[i]) by { EncodingAt(facts, i); }
        TextsAppend(texts[..i], texts[i]);
        assert texts[..i + 1] == texts[..i] + [texts[i]];
      }
      assert texts[..|facts|] == texts;
    }
  }

  lemma SectionBytes(facts: seq<Fact>)
    ensures |Encodings(facts)| == |facts| && PutTexts(Encodings(facts)[..0]) == []
    ensures PutSection(facts) == PutUint(|facts|) + PutTexts(Encodings(facts))
  {
  }

  lemma EncodingAt(facts: seq<Fact>, i: nat)
    requires i < |facts|
    ensures |Encodings(facts)| == |facts| && Encodings(facts)[i] == PutFact(facts[i])
  {
  }

  lemma {:induction false} TextsJoin(ts: seq<Text>, us: seq<Text>)
    ensures PutTexts(ts + us) == PutTexts(ts) + PutTexts(us)
  {
    if ts == [] {
      assert ts + us == us;
    } else {
      assert (ts + us)[1..] == ts[1..] + us;
      TextsJoin(ts[1..], us);
    }
  }

  lemma NoArguments(arguments: seq<MCPArgument>)
    ensures PutTexts(Flat(arguments[..0])) == []
  {
  }

  lemma OneMoreArgument(arguments: seq<MCPArgument>, i: nat)
    requires i < |arguments|
    ensures PutTexts(Flat(arguments[..i + 1])) ==
        PutTexts(Flat(arguments[..i])) + PutTexts([arguments[i].kind, arguments[i].reference])
  {
    hide *;
    FlatAppend(arguments[..i], arguments[i]);
    TextsJoin(Flat(arguments[..i]), [arguments[i].kind, arguments[i].reference]);
    assert arguments[..i + 1] == arguments[..i] + [arguments[i]];
  }

  lemma FourTexts(a: Text, b: Text, c: Text, d: Text)
    ensures PutTexts([a, b, c, d]) == PutTexts([a, b]) + PutTexts([c, d])
  {
    TextsJoin([a, b], [c, d]);
    assert [a, b] + [c, d] == [a, b, c, d];
  }

  lemma FiveTexts(a: Text, b: Text, c: Text, d: Text, e: Text)
    ensures PutTexts([a, b, c, d, e]) == PutTexts([a, b]) + PutTexts([c, d]) + PutText(e)
  {
    FourTexts(a, b, c, d);
    TextsAppend([a, b, c, d], e);
    assert [a, b, c, d] + [e] == [a, b, c, d, e];
  }

  lemma {:induction false} FlatAppend(arguments: seq<MCPArgument>, argument: MCPArgument)
    ensures Flat(arguments + [argument]) == Flat(arguments) + [argument.kind, argument.reference]
  {
    if arguments == [] {
      assert arguments + [argument] == [argument];
    } else {
      assert (arguments + [argument])[1..] == arguments[1..] + [argument];
      FlatAppend(arguments[1..], argument);
    }
  }

  lemma HeadSuffix(f: Fact, rest: seq<Byte>)
    ensures PutHead(f, rest) == PutHead(f, []) + rest
  {
    hide PutTexts, PutUint;
  }

  lemma BodySuffix(v: FactValue, rest: seq<Byte>)
    ensures PutBody(v, rest) == PutBody(v, []) + rest
  {
    hide PutIdentity, PutCount, PutList;
  }

  method CanonicalFactEncoding(fact: Fact) returns (encoded: seq<Byte>)
    ensures encoded == PutFact(fact)
  {
    HeadSuffix(fact, PutBody(fact.value, PutTail(fact.value)));
    BodySuffix(fact.value, PutTail(fact.value));
    hide PutHead, PutBody, PutTail;
    var e := new Encoder([]);
    e.Head(fact);
    e.Body(fact.value);
    e.Tail(fact.value);
    encoded := e.encoded;
  }

  method CanonicalManifest(sourceVersion: Int64, overlay: Text, recipe: Text, facts: Facts) returns (encoded: seq<Byte>)
    ensures encoded == PutManifest(sourceVersion, overlay, recipe, facts)
  {
    hide PutUint, PutTexts, PutSection;
    var e := new Encoder(Magic());
    e.Uint(MANIFEST_VERSION);
    e.Uint(Unsigned(sourceVersion));
    e.Two(overlay, recipe);
    e.PutFacts(facts.requested);
    e.PutFacts(facts.targetAdded);
    e.PutFacts(facts.effective);
    e.PutFacts(facts.unsupported);
    encoded := e.encoded;
  }
}
