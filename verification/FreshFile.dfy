/** The state of a fresh coordinator is one that files carry: a rendering with all that is assumed of one. */
module FreshFile {
  import opened Lifecycle
  import opened Domain
  import opened Wire
  import opened Records
  import opened Rendering
  import opened Reference
  import opened Persistence
  import Identities
  import L = Layouts
  import F = Snapshots

  // ----- A rendering -----

  const BLANKS: seq<Byte> := seq(32, _ => 0)
  const MARKS: seq<Byte> := seq(32, _ => 1)
  const LABEL: Data := Blob([97])
  const ZERO_SPARE: Data := Both(Number(1), Both(Number(0), Unit))

  /** Gate labels are "a", generators the state does not use have salt 1, the rest is empty or zero. */
  function Filler(p: Place): Data {
    if p.kind == L.HEADER_SECTION then IdData(0)
    else if p.kind == L.GENERATORS_SECTION then ZERO_SPARE
    else if p.kind == L.POLICY_SECTION && p.key == 2 then LABEL
    else if p.kind == L.POLICY_SECTION && p.key == 1 then if p.field == 8 then Items([]) else Number(0)
    else Blob([])
  }

  /** Enough to tell one digest from the sentinel. */
  function Plain(digest: Digest): Coding {
    Coding((d: Digest) => if d == Zero then BLANKS else MARKS, (b: seq<Byte>) => if b == BLANKS then Zero else digest, Filler)
  }

  lemma DigestCoded(digest: Digest)
    requires digest != Zero
    ensures Coded(Plain(digest), digest) && |Plain(digest).hash(digest)| == 32
  {
    assert MARKS[0] == 1 && BLANKS[0] == 0;
  }

  // ----- Fields that fit -----

  lemma NumberFits(n: nat)
    requires n < TWO_64
    ensures Fits(L.RULES, L.U64_ANY, Number(n))
  {
    Powers();
  }

  lemma IdFits(id: nat)
    requires id < TOP
    ensures Fits(L.RULES, L.IDENTITY, IdData(id))
  {
    Powers();
    assert id / TWO_64 < TWO_64;
  }

  lemma ByteFits(n: nat, least: nat, most: nat)
    requires n <= 255
    ensures Fits(L.RULES, Loosen(Unsigned(1, least, most)), Number(n))
  {
    assert Pow256(1) == 256 * Pow256(0);
  }

  /** What the reference policy keeps to: short plain text and small numbers. */
  predicate PlainGate(g: Gate) {
    && IsBytes(g.custom) && |g.custom| <= 128 && IsBytes(g.environment) && |g.environment| <= 512
    && g.maxAge < TWO_64 && g.compatibility < TWO_64 && g.provenance < TOP
  }

  lemma GateCarried(d: Digest, i: nat, j: nat, g: Gate)
    requires PlainGate(g)
    ensures GateCoded(Plain(d), i, j, g) && Fits(L.RULES, Loosen(L.GATE), GateData(Plain(d), i, j, g))
  {
    hide Fits, Loosen, IdData, L.IDENTITY, L.U64_ANY;
    var c := Plain(d);
    var shapes, fields := L.GATE_FIELDS, GateFields(c, i, j, g);
    assert c.free(LabelPlace(i, j)) == LABEL;
    Stables();
    ByteFits(GateCode(g.kind), 1, 18);
    ByteFits(g.evidenceType, 0, 63);
    TextFits(g.custom, 128);
    NumberFits(g.maxAge);
    NumberFits(g.compatibility);
    TextFits(g.environment, 512);
    IdFits(g.provenance);
    LabelFits();
    assert AllLooselyFit(shapes, fields);
    RowLoosely(shapes, fields);
    CheckedIsLoose(L.GATE_RULE, Row(shapes));
  }

  lemma CheckedIsLoose(rule: nat, shape: Shape)
    ensures Loosen(Checked(rule, shape)) == Loosen(shape)
  {
  }

  lemma TextFits(t: string, limit: nat)
    requires |t| <= limit < TWO_32
    ensures Fits(L.RULES, Text(limit), TextData(t))
  {
  }

  lemma LabelFits()
    ensures Fits(L.RULES, L.NAME, LABEL)
  {
  }

  // ----- Rules -----

  predicate PlainRule(r: Rule) { |r.gates| <= 32 && forall j :: 0 <= j < |r.gates| ==> PlainGate(r.gates[j]) }

  lemma GatesCarried(d: Digest, i: nat, r: Rule)
    requires PlainRule(r)
    ensures forall j :: 0 <= j < |r.gates| ==> GateCoded(Plain(d), i, j, r.gates[j])
    ensures Fits(L.RULES, Loosen(GATE_LISTS), Lists(GateList(Plain(d), i, r.gates), []))
  {
    hide GateCoded, GateData, L.GATE, PlainGate;
    forall j | 0 <= j < |r.gates|
      ensures GateCoded(Plain(d), i, j, r.gates[j]) && Fits(L.RULES, Loosen(L.GATE), GateData(Plain(d), i, j, r.gates[j]))
    {
      GateCarried(d, i, j, r.gates[j]);
    }
  }

  lemma RuleCarried(d: Digest, i: nat, r: Rule)
    requires PlainRule(r)
    ensures RuleCoded(Plain(d), i, r) && Fits(L.RULES, Loosen(L.RULE), RuleData(Plain(d), i, r))
  {
    hide Fits, Loosen, GateList, GateCoded, L.GATE, PlainRule;
    var c := Plain(d);
    var shapes, fields := L.RULE_FIELDS, RuleFields(c, i, r);
    GatesCarried(d, i, r);
    NoneFit();
    Small(0, 0, 4);
    Small(0, 0, 1);
    ByteFits(if r.scope.Scoped? then 1 else 0, 0, 1);
    ByteFits(if r.scope.Scoped? then r.scope.kind else 0, 0, 11);
    ByteFits(r.from, 1, 10);
    ByteFits(r.to, 1, 10);
    ByteFits(0, 0, 4);
    ByteFits(0, 0, 1);
    assert forall k :: 4 <= k <= 7 ==> c.free(RulePlace(i, k)) == Number(0);
    assert c.free(RulePlace(i, 8)) == Items([]) && ItemsIn(c.free(RulePlace(i, 8))) == [];
    assert AllLooselyFit(shapes, fields);
    RowLoosely(shapes, fields);
    CheckedIsLoose(L.SCOPE_RULE, Row(shapes));
  }

  lemma NoneFit()
    ensures Fits(L.RULES, Counted(32, L.GATE_KIND), Items([]))
  {
  }

  // ----- The reference policy -----

  predicate AllPlain(gates: seq<Gate>) { forall g :: g in gates ==> PlainGate(g) }

  lemma JoinPlain(a: seq<Gate>, b: seq<Gate>)
    requires AllPlain(a) && AllPlain(b)
    ensures AllPlain(a + b)
  {
  }

  lemma EarlyGatesArePlain()
    ensures AllPlain(COMMON_GATES) && AllPlain(VERIFY_GATES) && AllPlain(QUALIFY_EXECUTABLE_GATES)
  {
    assert IsBytes("windows-x64-msvc");
  }

  lemma LaterGatesArePlain()
    ensures AllPlain(QUALIFY_MODEL_GATES) && AllPlain(QUALIFY_GATES) && AllPlain(STAGE_GATES) && AllPlain(APPROVE_GATES)
    ensures AllPlain(PROMOTE_GATES) && AllPlain(RELEASE_GATES) && AllPlain(IDENTITY_GATES)
  {
  }

  lemma RuleIsPlain(i: nat)
    requires i < |REFERENCE_RULES|
    ensures PlainRule(REFERENCE_RULES[i])
  {
    hide PlainGate;
    var r := REFERENCE_RULES[i];
    assert AllPlain(r.gates) by {
      hide AllPlain;
      EarlyGatesArePlain();
      LaterGatesArePlain();
      JoinPlain(COMMON_GATES, VERIFY_GATES);
      JoinPlain(COMMON_GATES, QUALIFY_EXECUTABLE_GATES);
      JoinPlain(COMMON_GATES, QUALIFY_MODEL_GATES);
      JoinPlain(COMMON_GATES, QUALIFY_GATES);
      JoinPlain(COMMON_GATES, STAGE_GATES);
      JoinPlain(COMMON_GATES, APPROVE_GATES);
      JoinPlain(COMMON_GATES, PROMOTE_GATES);
    }
    RuleGatesAreValid(r);
  }

  lemma RulesCarried(d: Digest, rules: seq<Rule>)
    requires |rules| < TWO_32 && forall i :: 0 <= i < |rules| ==> PlainRule(rules[i])
    ensures forall i :: 0 <= i < |rules| ==> RuleCoded(Plain(d), i, rules[i])
    ensures Fits(L.RULES, Loosen(Counted(64, L.RULE)), Items(RuleList(Plain(d), rules)))
  {
    hide RuleCoded, RuleData, PlainRule, L.RULE;
    forall i | 0 <= i < |rules|
      ensures RuleCoded(Plain(d), i, rules[i]) && Fits(L.RULES, Loosen(L.RULE), RuleData(Plain(d), i, rules[i]))
    {
      RuleCarried(d, i, rules[i]);
    }
  }

  lemma PolicyCarried(p: Policy)
    requires p.id < TOP && p.generation < TWO_64 && IsBytes(p.name) && |p.name| <= 128 && p.digest != Zero
    requires WellFormed(p.edges) && |p.rules| < TWO_32 && forall i :: 0 <= i < |p.rules| ==> PlainRule(p.rules[i])
    ensures PolicyCoded(Plain(p.digest), p)
    ensures Fits(L.RULES, Loosen(L.POLICY), PolicyData(Plain(p.digest), p))
  {
    hide Fits, Loosen, IdData, L.IDENTITY, L.U64_ANY, L.GRAPH, L.RULE, Graph, RuleList, PlainRule, RuleCoded, WellFormed;
    var c := Plain(p.digest);
    var shapes, fields := L.POLICY_FIELDS, PolicyFields(c, p);
    Stables();
    IdFits(p.id);
    NumberFits(p.generation);
    TextFits(p.name, 128);
    assert c.free(Place(L.POLICY_SECTION, 0, 0, 0, 3)) == TextData("");
    TextFits("", 512);
    ByteFits(p.entry, 1, 10);
    GraphFits(p.edges);
    FitsLoosely(L.RULES, L.GRAPH, Items(Graph(p.edges)));
    DigestCoded(p.digest);
    DigestFits(c.hash(p.digest));
    RulesCarried(p.digest, p.rules);
    assert AllLooselyFit(shapes, fields);
    RowLoosely(shapes, fields);
  }

  lemma DigestFits(b: seq<Byte>)
    requires |b| == 32
    ensures Fits(L.RULES, L.DIGEST, Blob(b))
  {
  }

  // ----- The other sections -----

  lemma HeaderCarried(s: State)
    requires s.coordinator < TOP && s.epoch < TWO_64 && s.commitSequence < TWO_64 && s.decisionSequence < TWO_64
    requires s.artifactGeneration < TWO_64 && s.compatibility < TWO_64 && s.activePolicy < TOP && s.activeGeneration < TWO_64
    requires s.activeDigest != Zero
    ensures Fits(L.RULES, Loosen(L.HEADER), HeaderData(Plain(s.activeDigest), s))
  {
    hide Fits, Loosen, IdData, L.IDENTITY, L.U64_ANY;
    var c := Plain(s.activeDigest);
    Stables();
    IdFits(s.coordinator);
    NumberFits(s.epoch);
    NumberFits(s.commitSequence);
    NumberFits(s.decisionSequence);
    NumberFits(s.artifactGeneration);
    NumberFits(s.compatibility);
    IdFits(0);
    IdFits(s.activePolicy);
    NumberFits(s.activeGeneration);
    DigestCoded(s.activeDigest);
    DigestFits(c.hash(s.activeDigest));
    assert AllLooselyFit(L.HEADER_FIELDS, HeaderFields(c, s));
    RowLoosely(L.HEADER_FIELDS, HeaderFields(c, s));
  }

  lemma GeneratorFits(salt: nat, counter: nat)
    requires salt < TWO_64 && counter < TWO_64
    ensures Fits(L.RULES, L.GENERATOR, Both(Number(salt), Both(Number(counter), Unit)))
  {
    hide Fits;
    NumberFits(salt);
    NumberFits(counter);
    var fields := [Number(salt), Number(counter)];
    RowFits(L.RULES, [L.U64_ANY, L.U64_ANY], fields);
    assert fields[1..] == [Number(counter)] && RowData(fields[1..]) == Both(Number(counter), Unit);
  }

  lemma {:induction false} GeneratorsCarried(g: seq<Identities.Generator>)
    requires forall i :: 0 <= i < |g| ==> g[i].salt < TWO_64 && g[i].counter < TWO_64
    ensures Fits(L.RULES, L.Repeat(L.GENERATOR, |g|), F.GeneratorData(g))
    decreases |g|
  {
    hide L.GENERATOR;
    if g != [] {
      GeneratorsCarried(g[1..]);
      GeneratorFits(g[0].salt, g[0].counter);
    }
  }

  lemma EmptyParses(kind: nat)
    requires L.IsTable(kind)
    ensures F.Parses(F.Section(kind, Items([])))
  {
    hide L.EntryShape;
    SectionIsList(kind);
  }

  /** No generator has the reserved salt. */
  predicate AllSalted(g: Generators) {
    && g.revision >= TWO_64 && g.evidence >= TWO_64 && g.plan >= TWO_64 && g.decision >= TWO_64 && g.transition >= TWO_64
    && g.reservation >= TWO_64 && g.internalRequest >= TWO_64 && g.internalAttempt >= TWO_64
  }

  lemma SaltIs(last: Id)
    requires TWO_64 <= last < TOP
    ensures var g := GeneratorOf(last); 0 < g.salt < TWO_64 && g.counter < TWO_64
  {
  }

  lemma GeneratorsSalted(d: Digest, g: Generators)
    requires InRange(g) && AllSalted(g)
    ensures var z := GeneratorsIn(Plain(d), g);
            |z| == 10 && forall i :: 0 <= i < 10 ==> 0 < z[i].salt < TWO_64 && z[i].counter < TWO_64
  {
    hide GeneratorOf;
    SaltIs(g.revision);
    SaltIs(g.evidence);
    SaltIs(g.plan);
    SaltIs(g.decision);
    SaltIs(g.transition);
    SaltIs(g.reservation);
    SaltIs(g.internalRequest);
    SaltIs(g.internalAttempt);
  }

  // ----- A fresh coordinator -----

  ghost predicate Bare(s: State) {
    && s.artifacts == map[] && s.evidence == map[] && s.plans == map[] && s.decisions == map[] && s.records == map[]
    && s.idempotency == map[] && s.history == map[] && s.vetoes == map[]
  }

  lemma BareTables(c: Coding, s: State)
    requires Bare(s)
    ensures forall kind :: kind in F.TABLES ==> F.TableData(Rendered(c, s), kind) == Items([])
    ensures F.Shaped(Rendered(c, s)) <==>
            |GeneratorsIn(c, s.gens)| == 10 && forall i :: 0 <= i < 10 ==> GeneratorsIn(c, s.gens)[i].salt != 0
  {
    hide HeaderData, PolicyData, GeneratorsIn;
    var t := TablesIn(c, s);
    TablesAre(c, s);
    forall kind | kind in F.TABLES ensures t[kind] == map[] {
    }
  }

  lemma BareIsCarried(s: State)
    requires Bare(s) && s.activeDigest != Zero && InRange(s.gens) && AllSalted(s.gens)
    requires Fits(L.RULES, Loosen(L.HEADER), HeaderData(Plain(s.activeDigest), s))
    requires Fits(L.RULES, Loosen(L.POLICY), PolicyData(Plain(s.activeDigest), s.policy))
    ensures F.Carried(Rendered(Plain(s.activeDigest), s))
  {
    hide HeaderData, PolicyData, GeneratorsIn, TablesIn, Fits, Loosen, L.EntryShape, F.TableData, InRange, AllSalted,
         F.Shaped, F.GeneratorData, L.HEADER, L.POLICY;
    var c := Plain(s.activeDigest);
    var x := Rendered(c, s);
    BareTables(c, s);
    GeneratorsSalted(s.activeDigest, s.gens);
    GeneratorsCarried(x.generators);
    FitsLoosely(L.RULES, L.Repeat(L.GENERATOR, 10), F.GeneratorData(x.generators));
    forall kind | L.IsTable(kind) ensures F.Parses(F.Section(kind, F.TableData(x, kind))) {
      EmptyParses(kind);
      assert kind in F.TABLES;
    }
    assert F.Parses(F.Section(L.HEADER_SECTION, x.header));
    assert F.Parses(F.Section(L.POLICY_SECTION, x.policy));
    assert F.Parses(F.Section(L.GENERATORS_SECTION, F.GeneratorData(x.generators)));
  }

  /** The state of every fresh coordinator is rendered faithfully and carried, under some rendering. */
  lemma FreshIsCarried(salt: nat, entropy: nat, epoch: nat, gens: Generators, rest: nat)
    requires 0 < salt < TWO_64 && entropy < TWO_64 && epoch < TWO_64 && InRange(gens) && AllSalted(gens)
    ensures var s := Initial(salt, entropy, epoch, gens, rest);
            var c := Plain(s.activeDigest);
            Faithful(c, s) && InRange(s.gens) && F.Carried(Rendered(c, s))
  {
    hide PolicyCoded, F.Carried, Rendered, HeaderData, PolicyData, Fits, Loosen, InRange, AllSalted, Policy.Valid;
    var s := Initial(salt, entropy, epoch, gens, rest);
    var c := Plain(s.activeDigest);
    SmallIds(salt, entropy);
    DigestCoded(s.activeDigest);
    ReferenceIsPlain(s.policy.id, rest);
    PolicyCarried(s.policy);
    HeaderCarried(s);
    BareIsCarried(s);
  }

  lemma SmallIds(salt: nat, entropy: nat)
    requires salt < TWO_64 && entropy < TWO_64
    ensures salt * WORD + entropy < TOP && salt * WORD + 0xA1 < TOP
  {
  }

  lemma NameIsPlain()
    ensures IsBytes("reference-policy")
  {
  }

  lemma ReferenceIsPlain(id: Id, rest: nat)
    requires id != 0
    ensures var p := ReferencePolicy(id, 1, rest);
            && p.generation < TWO_64 && IsBytes(p.name) && |p.name| <= 128 && p.digest != Zero
            && WellFormed(p.edges) && |p.rules| < TWO_32 && forall i :: 0 <= i < |p.rules| ==> PlainRule(p.rules[i])
  {
    hide PlainRule, Rule.Valid, IsValidName, Policy.Valid, WellFormed;
    var p := ReferencePolicy(id, 1, rest);
    ReferencePolicyIsValid(id, 1, rest);
    PolicyParts(p);
    NameIsPlain();
    forall i | 0 <= i < |p.rules| ensures PlainRule(p.rules[i]) {
      RuleIsPlain(i);
    }
  }
}
