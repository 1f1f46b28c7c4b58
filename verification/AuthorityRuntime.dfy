/**
 What the facts of the runtime show (internal/authority/plan.go:680-708, 896-909): every
 field of its authority, up to the order of the lists that are sorted.
 */
module AuthorityRuntime {
  import opened Options
  import opened ByteCoding
  import opened Sorting
  import opened AuthorityManifest
  import opened AuthorityPlan
  import opened AuthorityBags

  // ----- sorted lists and decimal ports

  lemma BelowIsAnOrder()
    ensures Transitive(Below) && Antisymmetric(Below)
  {
    forall e, f ensures Below(e, f) ==> !Below(f, e) {
      BelowIsTotal(e, f);
    }
    forall e, f, g | !Below(f, e) && !Below(g, f) ensures !Below(g, e) {
      BelowIsTotal(e, f);
      BelowIsTotal(f, g);
      BelowIsTotal(e, g);
      if Below(e, f) && Below(f, g) { BelowIsTransitive(e, f, g); }
    }
  }

  lemma SortedTextsShow(a: seq<Text>, b: seq<Text>)
    ensures SortedTexts(a) == SortedTexts(b) <==> multiset(a) == multiset(b)
  {
    BelowIsAnOrder();
    ArrangeSorts(Below, a);
    ArrangeSorts(Below, b);
    if multiset(a) == multiset(b) {
      forall x, y | x in Arrange(Below, a) && y in Arrange(Below, a) && !Below(x, y) && !Below(y, x) ensures x == y {
        BelowIsTotal(x, y);
      }
      SortIsUnique(Below, Arrange(Below, a), Arrange(Below, b));
    }
  }

  lemma DigitsLeft(n: nat)
    ensures Decimal(n) == (if n < 10 then [] else Decimal(n / 10)) + [48 + n % 10]
    ensures Decimal(n)[..|Decimal(n)| - 1] == if n < 10 then [] else Decimal(n / 10)
    ensures Decimal(n)[|Decimal(n)| - 1] == 48 + n % 10
  {
  }

  lemma {:induction false} DecimalShows(m: nat, n: nat)
    requires Decimal(m) == Decimal(n)
    ensures m == n
  {
    DigitsLeft(m);
    DigitsLeft(n);
    DecimalStartsWithADigit(m / 10);
    DecimalStartsWithADigit(n / 10);
    if m >= 10 && n >= 10 { DecimalShows(m / 10, n / 10); }
  }

  lemma {:induction false} DecimalStartsWithADigit(n: nat)
    ensures Decimal(n) != [] && 48 <= Decimal(n)[0]
  {
    if n >= 10 { DecimalStartsWithADigit(n / 10); }
  }

  lemma ItoaShows(m: int, n: int)
    requires Itoa(m) == Itoa(n)
    ensures m == n
  {
    assert Ascii("-") == [45];
    if m >= 0 { DecimalStartsWithADigit(m); }
    if n >= 0 { DecimalStartsWithADigit(n); }
    if m < 0 && n < 0 {
      assert Itoa(m)[1..] == Decimal(-m) && Itoa(n)[1..] == Decimal(-n);
      DecimalShows(-m, -n);
    } else if m >= 0 && n >= 0 {
      DecimalShows(m, n);
    }
  }

  lemma PortsShow(a: seq<int>, b: seq<int>)
    ensures SortedTexts(Map(Itoa, a)) == SortedTexts(Map(Itoa, b)) <==> multiset(a) == multiset(b)
  {
    hide SortedTexts, Itoa;
    SortedTextsShow(Map(Itoa, a), Map(Itoa, b));
    if multiset(a) == multiset(b) { MapMultiset(Itoa, a, b); }
    if multiset(Map(Itoa, a)) == multiset(Map(Itoa, b)) {
      forall x, y | x in a && y in b && Itoa(x) == Itoa(y) ensures x == y {
        ItoaShows(x, y);
      }
      MapCancels(Itoa, Itoa, (x: int) => x, a, b);
      assert Map((x: int) => x, a) == a && Map((x: int) => x, b) == b;
    }
  }

  // ----- the facts, told apart by their identifiers

  function IdCode(f: Fact): int {
    if |f.id| < 10 then 0 else |f.id| * 65536 + f.id[8] as int * 256 + f.id[9] as int
  }

  const RUNTIME_IDS: seq<int> := [
    1926520, 1008741, 1271150, 1992046, 1926510, 1404257, 1076581,
    1011301, 1601125, 1011826, 1012581, 1012601, 1274745, 1078373]

  lemma RuntimeIdCoded(r: Runtime, id: string, kind: string, value: FactValue)
    requires |id| >= 2
    ensures IdCode(InRuntime(r, id, kind, value)) ==
        (8 + |id|) * 65536 + (id[0] as int % 256) * 256 + id[1] as int % 256
  {
    var whole := Ascii("runtime.") + Ascii(id);
    assert |Ascii("runtime.")| == 8 && whole[8] == Ascii(id)[0] && whole[9] == Ascii(id)[1];
  }

  lemma SessionIdCoded(f: Fact)
    requires f.id == Ascii("runtime.session")
    ensures IdCode(f) == 15 * 65536 + 115 * 256 + 101
  {
    assert f.id[8] == 115 && f.id[9] == 101;
  }

  lemma RuntimeIds(r: Runtime)
    ensures Map(IdCode, RuntimeEffective(r)) == RUNTIME_IDS
  {
    hide SortedTexts, LoopbackValue, IdCode, InRuntime, Ascii, Map;
    var fs := RuntimeEffective(r);
    FirstIds(r);
    LastIds(r);
    assert |Map(IdCode, fs)| == 14;
  }

  lemma FirstIds(r: Runtime)
    ensures var fs := RuntimeEffective(r);
      && |fs| == 14
      && IdCode(fs[0]) == 1926520
      && IdCode(fs[1]) == 1008741
      && IdCode(fs[2]) == 1271150
      && IdCode(fs[3]) == 1992046
      && IdCode(fs[4]) == 1926510
      && IdCode(fs[5]) == 1404257
      && IdCode(fs[6]) == 1076581
  {
    hide SortedTexts, LoopbackValue, IdCode, Ascii;
    RuntimeIdCoded(r, "executable-visibility", "executable-visibility", RuntimeEffective(r)[0].value);
    RuntimeIdCoded(r, "devices", "device", RuntimeEffective(r)[1].value);
    RuntimeIdCoded(r, "environment", "environment", RuntimeEffective(r)[2].value);
    RuntimeIdCoded(r, "environment.fixed-path", "environment", RuntimeEffective(r)[3].value);
    RuntimeIdCoded(r, "environment.synthetic", "environment", RuntimeEffective(r)[4].value);
    RuntimeIdCoded(r, "mach-services", "mach-service", RuntimeEffective(r)[5].value);
    RuntimeIdCoded(r, "metadata", "filesystem-metadata", RuntimeEffective(r)[6].value);
  }

  lemma LastIds(r: Runtime)
    ensures var fs := RuntimeEffective(r);
      && IdCode(fs[7]) == 1011301
      && IdCode(fs[8]) == 1601125
      && IdCode(fs[9]) == 1011826
      && IdCode(fs[10]) == 1012581
      && IdCode(fs[11]) == 1012601
      && IdCode(fs[12]) == 1274745
      && IdCode(fs[13]) == 1078373
  {
    hide SortedTexts, LoopbackValue, IdCode, Ascii;
    RuntimeIdCoded(r, "network", "network", RuntimeEffective(r)[7].value);
    RuntimeIdCoded(r, "network.loopback", "network", RuntimeEffective(r)[8].value);
    RuntimeIdCoded(r, "process", "process", RuntimeEffective(r)[9].value);
    SessionIdCoded(RuntimeEffective(r)[10]);
    RuntimeIdCoded(r, "sysctls", "sysctl", RuntimeEffective(r)[11].value);
    RuntimeIdCoded(r, "system-read", "filesystem", RuntimeEffective(r)[12].value);
    RuntimeIdCoded(r, "terminal", "terminal", RuntimeEffective(r)[13].value);
  }

  lemma RuntimeIdsDiffer()
    ensures NoDuplicates(RUNTIME_IDS)
  {
  }

  // ----- the fields they determine

  /** The same runtime, up to the order of the lists it sorts. */
  predicate SameRuntime(r: Runtime, s: Runtime) {
    && r.version == s.version && r.processMode == s.processMode && r.systemReadMode == s.systemReadMode
    && r.metadataMode == s.metadataMode && r.sessionAccess == s.sessionAccess && r.networkMode == s.networkMode
    && multiset(r.loopbackPorts) == multiset(s.loopbackPorts) && r.loginCallback == s.loginCallback
    && r.terminalMode == s.terminalMode && r.deviceMode == s.deviceMode && r.fixedPath == s.fixedPath
    && multiset(r.syntheticNames) == multiset(s.syntheticNames)
    && multiset(r.inheritedNames) == multiset(s.inheritedNames)
    && multiset(r.sysctlNames) == multiset(s.sysctlNames) && multiset(r.machServices) == multiset(s.machServices)
  }

  lemma SortedListsShow(r: Runtime, s: Runtime)
    ensures SortedTexts(r.syntheticNames) == SortedTexts(s.syntheticNames) <==>
        multiset(r.syntheticNames) == multiset(s.syntheticNames)
    ensures SortedTexts(r.inheritedNames) == SortedTexts(s.inheritedNames) <==>
        multiset(r.inheritedNames) == multiset(s.inheritedNames)
    ensures SortedTexts(r.sysctlNames) == SortedTexts(s.sysctlNames) <==>
        multiset(r.sysctlNames) == multiset(s.sysctlNames)
    ensures SortedTexts(r.machServices) == SortedTexts(s.machServices) <==>
        multiset(r.machServices) == multiset(s.machServices)
  {
    hide SortedTexts;
    SortedTextsShow(r.syntheticNames, s.syntheticNames);
    SortedTextsShow(r.inheritedNames, s.inheritedNames);
    SortedTextsShow(r.sysctlNames, s.sysctlNames);
    SortedTextsShow(r.machServices, s.machServices);
  }

  lemma LoopbackShows(r: Runtime, s: Runtime)
    ensures LoopbackValue(r) == LoopbackValue(s) <==>
            multiset(r.loopbackPorts) == multiset(s.loopbackPorts) && r.loginCallback == s.loginCallback
  {
    PortsShow(r.loopbackPorts, s.loopbackPorts);
    assert |Ascii("codex-login-localhost-1455-inbound")| == 34;
    hide SortedTexts, Map, Ascii;
  }

  /** The facts of two runtimes are the same exactly when the runtimes are. */
  lemma RuntimeShows(r: Runtime, s: Runtime)
    ensures RuntimeEffective(r) == RuntimeEffective(s) <==> SameRuntime(r, s)
  {
    hide SortedTexts, LoopbackValue, Ascii, Map;
    SortedListsShow(r, s);
    LoopbackShows(r, s);
    if RuntimeEffective(r) == RuntimeEffective(s) { RuntimeFieldsShow(r, s); }
  }

  lemma RuntimeFieldsShow(r: Runtime, s: Runtime)
    requires RuntimeEffective(r) == RuntimeEffective(s)
    ensures r.version == s.version && r.processMode == s.processMode && r.systemReadMode == s.systemReadMode
    ensures r.metadataMode == s.metadataMode && r.sessionAccess == s.sessionAccess && r.networkMode == s.networkMode
    ensures r.terminalMode == s.terminalMode && r.deviceMode == s.deviceMode && r.fixedPath == s.fixedPath
    ensures LoopbackValue(r) == LoopbackValue(s) && SortedTexts(r.syntheticNames) == SortedTexts(s.syntheticNames)
    ensures SortedTexts(r.inheritedNames) == SortedTexts(s.inheritedNames)
    ensures SortedTexts(r.sysctlNames) == SortedTexts(s.sysctlNames)
    ensures SortedTexts(r.machServices) == SortedTexts(s.machServices)
  {
    hide SortedTexts, LoopbackValue, Ascii, Map;
    var (a, b) := (RuntimeEffective(r), RuntimeEffective(s));
    assert a[1] == b[1] && a[2] == b[2] && a[3] == b[3] && a[4] == b[4] && a[5] == b[5] && a[6] == b[6] && a[7] == b[7];
    assert a[8] == b[8] && a[9] == b[9] && a[10] == b[10] && a[11] == b[11] && a[12] == b[12] && a[13] == b[13];
  }

  /** Among any other facts that the two plans share. */
  lemma RuntimeSectionShows(r: Runtime, s: Runtime, rest: multiset<Fact>)
    requires multiset(RuntimeEffective(r)) + rest == multiset(RuntimeEffective(s)) + rest
    ensures SameRuntime(r, s)
  {
    hide RuntimeEffective, Map, IdCode;
    RuntimeIds(r);
    RuntimeIds(s);
    RuntimeIdsDiffer();
    var (a, b) := (multiset(RuntimeEffective(r)), multiset(RuntimeEffective(s)));
    assert a == (a + rest) - rest && b == (b + rest) - rest;
    assert |RuntimeEffective(r)| == |RuntimeEffective(s)| by { RuntimeLength(r); RuntimeLength(s); }
    AloneApart(IdCode, RuntimeEffective(r), RuntimeEffective(s), multiset{}, multiset{});
    RuntimeShows(r, s);
  }

  lemma RuntimeLength(r: Runtime)
    ensures |RuntimeEffective(r)| == 14
  {
  }
}
