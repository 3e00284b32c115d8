/** Exactly which pairs of stages a policy may govern so that every commit starts where it was planned. */
module Straightness {
  import opened Lifecycle
  import opened Graphs
  import opened Ordered
  import opened Domain
  import opened Store
  import opened Gates
  import opened Steps
  import opened Invariant
  import opened Preservation
  import opened Keeping
  import opened Reference
  import opened Runs
  import opened Promotions
  import opened Fencing
  import opened Sources

  // ----- Policies without gates -----

  function OpenRules(pairs: seq<Edge>): seq<Rule> {
    seq(|pairs|, i requires 0 <= i < |pairs| => Rule(Unscoped, pairs[i].from, pairs[i].to, []))
  }

  /** A policy on the graph of a ladder that governs the given pairs and asks nothing. */
  function Open(id: Id, ladder: Ladder, pairs: seq<Edge>): Policy {
    Policy(id, 1, "a", ladder.Graph(), ladder.entry, OpenRules(pairs), Zero)
  }

  lemma NameIsValid()
    ensures IsValidName("a")
  {
    assert "a"[0] == 'a';
  }

  lemma OpenIsValid(id: Id, ladder: Ladder, pairs: seq<Edge>)
    requires id != 0 && ladder.Valid() && 0 < |pairs| <= MAX_RULES && forall e :: e in pairs ==> e in ladder.Edges()
    ensures Open(id, ladder, pairs).Valid()
  {
    hide Accepts, IsValidName, Ladder.Graph, Ladder.Edges;
    NameIsValid();
    ladder.IsAccepted();
    ladder.IsWellFormed();
    var p := Open(id, ladder, pairs);
    forall r | r in p.rules ensures r.Valid() && Edge(r.from, r.to) in p.edges {
      var i :| 0 <= i < |pairs| && r == p.rules[i];
      assert pairs[i] in pairs;
    }
  }

  /** The active policy is this open one. */
  ghost predicate Under(s: State, p: Policy) {
    && s.policy.rules == p.rules && s.policy.edges == p.edges && s.policy.entry == p.entry
    && s.activeDigest == s.policy.digest && s.activePolicy == p.id
  }

  predicate IsOpen(p: Policy) { forall r :: r in p.rules ==> r.scope.Unscoped? && r.gates == [] }

  lemma OpenIsOpen(id: Id, ladder: Ladder, pairs: seq<Edge>)
    ensures IsOpen(Open(id, ladder, pairs))
    ensures forall e :: e in pairs ==> Rule(Unscoped, e.from, e.to, []) in Open(id, ladder, pairs).rules
    ensures forall r :: r in Open(id, ladder, pairs).rules ==> Edge(r.from, r.to) in pairs
  {
    hide Ladder.Graph;
    var p := Open(id, ladder, pairs);
    forall e | e in pairs ensures Rule(Unscoped, e.from, e.to, []) in p.rules {
      var i :| 0 <= i < |pairs| && pairs[i] == e;
      assert p.rules[i] == Rule(Unscoped, e.from, e.to, []);
    }
  }

  /** Every governed transition is eligible. */
  lemma OpenIsEligible(c: Context)
    requires IsOpen(c.s.policy) && Rule(Unscoped, c.a.stage, c.request.stage, []) in c.s.policy.rules
    ensures Eligible(c)
  {
    var p := c.s.policy;
    var i := p.FindRule(c.a.kind, c.a.stage, c.request.stage);
    var k :| 0 <= k < |p.rules| && p.rules[k] == Rule(Unscoped, c.a.stage, c.request.stage, []);
    assert p.rules[k].Matches(c.a.kind, c.a.stage, c.request.stage);
    assert p.rules[i] in p.rules;
  }

  // ----- A coordinator with one artifact -----

  const FIRST: Registration := Registration(1, MODEL, Content(1), "a", Producer(0, 0), [], [])
  const SECOND: Registration := FIRST.(digest := Content(2))

  /** One revision, nothing reserved, nothing submitted. */
  ghost predicate Alone(s: State, p: Policy, a: Artifact) {
    && Under(s, p) && s.artifacts == map[1 := [a]] && a.id == 1 && a.digest == Content(1) && a.kind == MODEL
    && s.evidence == map[] && s.pending == map[] && s.coordinator != 0 && s.epoch != 0
    && a.revision == s.gens.revision != 0
  }

  lemma Publishes(cfg: Config, s: State, p: Policy, rest: nat)
    requires p.Valid() && p.id != s.activePolicy
    ensures var t := Publish(cfg, s, p, rest).0;
            && Under(t, p)
            && t == s.(activePolicy := t.activePolicy, activeGeneration := t.activeGeneration, activeDigest := t.activeDigest,
                       policy := t.policy, commitSequence := t.commitSequence, history := t.history)
  {
    hide Policy.Valid, Retain;
  }

  lemma Enters(cfg: Config, s: State, p: Policy)
    requires cfg.Valid() && Under(s, p) && s.artifacts == map[] && s.evidence == map[] && s.pending == map[]
    requires s.coordinator != 0 && s.epoch != 0
    ensures var t := Register(cfg, s, FIRST).0;
            && Alone(t, p, NewRevision(FIRST, s.gens.revision + 1, 1, p.entry, s.commitSequence + 1))
            && t.idempotency == s.idempotency
  {
    hide IsValidName, Retain;
    NameIsValid();
    var a := NewRevision(FIRST, s.gens.revision + 1, 1, p.entry, s.commitSequence + 1);
    assert [] + [a] == [a];
  }

  // ----- Planning a move -----

  function Ask(s: State, to: Stage, n: Id): Request {
    Request(1, s.gens.revision, Content(1), to, n, n, s.CurrentAuthority())
  }

  /** The plan is stored and reserved under the policy in force. */
  ghost predicate Planned(cfg: Config, s: State, m: Plan, p: Policy) {
    && Under(s, p) && s.evidence == map[]
    && m.id in s.plans && s.plans[m.id] == m && m.artifact == 1 && Promotions.Held(s, m)
    && m.policyDigest == s.policy.digest && m.policyGeneration == s.activeGeneration
    && m.lifecycleDigest == GraphOf(s.policy.edges) && m.expires == cfg.planTtl
    && m.snapshot == SnapshotOf(1, m.revision, Content(1), {})
  }

  ghost predicate PlannedFrom(m: Plan, a: Artifact, to: Stage) {
    m.from == a.stage && m.stageGeneration == a.stageGeneration && m.to == to && m.revision == a.revision
  }

  function AskedDecision(s: State, a: Artifact, to: Stage, n: Id): Decision {
    JudgedDecision(s, Ask(s, to, n), a, GateOutcome(false, PromotionEligible, 0), SnapshotDigest(a, {}))
  }

  lemma Grants(cfg: Config, s: State, p: Policy, a: Artifact, to: Stage, n: Id)
    requires cfg.Valid() && Alone(s, p, a) && IsOpen(p) && Rule(Unscoped, a.stage, to, []) in p.rules && to != a.stage
    ensures Judge(cfg, s, a, Ask(s, to, n), 0) == Granted(cfg, s, a, Ask(s, to, n), AskedDecision(s, a, to, n), 0)
  {
    hide Eligible, Holds, Granted, Verdict;
    var c := ContextFor(cfg, s, a, Ask(s, to, n), s.activeGeneration, 0);
    OpenIsEligible(c);
    VerdictMeaning(c);
    UngovernedFails(c);
    assert LiveEntries(s.evidence, a) == {};
  }

  lemma Answers(cfg: Config, s: State, p: Policy, a: Artifact, to: Stage, n: Id)
    requires cfg.Valid() && Alone(s, p, a) && IsOpen(p) && Rule(Unscoped, a.stage, to, []) in p.rules && to != a.stage
    requires to != INVALID && n != 0 && n !in s.idempotency
    ensures var g := Granted(cfg, s, a, Ask(s, to, n), AskedDecision(s, a, to, n), 0);
            Evaluate(cfg, s, Ask(s, to, n), 0) == (FileDecision(cfg, g.0, a, Ask(s, to, n), g.1.decision), Success(g.1))
  {
    hide Judge, Granted, FileDecision, AskedDecision;
    Grants(cfg, s, p, a, to, n);
    assert FindRevision(s.artifacts, 1, a.revision) == 0;
  }

  lemma Files(cfg: Config, s: State, a: Artifact, req: Request, d: Decision)
    ensures var t := FileDecision(cfg, s, a, req, d);
            && t.idempotency.Keys == s.idempotency.Keys + {req.request}
            && t == s.(idempotency := t.idempotency, decisions := t.decisions, gens := s.gens.(decision := d.id),
                       decisionSequence := t.decisionSequence, commitSequence := t.commitSequence, history := t.history)
  {
    hide Retain;
  }

  lemma Issues(cfg: Config, s: State, p: Policy, a: Artifact, to: Stage, n: Id)
    requires cfg.Valid() && Alone(s, p, a) && IsOpen(p) && Rule(Unscoped, a.stage, to, []) in p.rules && to != a.stage
    requires to != INVALID && n != 0 && n !in s.idempotency
    ensures var (t, e) := Evaluate(cfg, s, Ask(s, to, n), 0);
            && e.Success? && e.value.hasPlan && Planned(cfg, t, e.value.plan, p) && PlannedFrom(e.value.plan, a, to)
            && t.artifacts == s.artifacts && t.pending.Keys == {1} && t.gens.revision == s.gens.revision
            && t.idempotency.Keys == s.idempotency.Keys + {n} && t.coordinator != 0 && t.epoch != 0
  {
    hide Evaluate, FileDecision, TrimPlans;
    Answers(cfg, s, p, a, to, n);
    var g := Granted(cfg, s, a, Ask(s, to, n), AskedDecision(s, a, to, n), 0);
    Files(cfg, g.0, a, Ask(s, to, n), g.1.decision);
  }

  /** A reserved plan commits from wherever its revision stands, if a rule leads on from there. */
  lemma CommitsFrom(cfg: Config, s: State, m: Plan, p: Policy)
    requires Planned(cfg, s, m, p) && IsOpen(p) && Stored(s, m)
    requires Target(s, m).id == 1 && Target(s, m).digest == Content(1) && Target(s, m).revision == m.revision
    requires Rule(Unscoped, Target(s, m).stage, m.to, []) in p.rules
    ensures Commits(cfg, s, m, 0)
  {
    hide Eligible, FindRevision;
    var c := CommitContext(cfg, s, m, 0);
    OpenIsEligible(c);
    assert LiveEntries(s.evidence, c.a) == {};
  }

  // ----- Registration overtakes a plan -----

  lemma OutdateTouches(s: State, id: Id, revision: Id)
    requires HasCurrent(s.artifacts, id)
    ensures var t := OutdatePrevious(s, id, revision);
            && SamePlans(s, t) && id in t.artifacts && |t.artifacts[id]| == |s.artifacts[id]|
            && t.artifacts[id][|s.artifacts[id]| - 1] ==
               Outdated(Current(s.artifacts, id), revision, AuthorityId(s), s.commitSequence + 1)
  {
    hide Outdated;
  }

  lemma AppendTouches(cfg: Config, s: State, reg: Registration, revision: Id)
    requires HasCurrent(s.artifacts, reg.id)
    ensures var t := AppendRevision(s, cfg, reg, revision);
            && SamePlans(s, t) && reg.id in t.artifacts && |t.artifacts[reg.id]| == |s.artifacts[reg.id]| + 1
            && forall i :: 0 <= i < |s.artifacts[reg.id]| ==> t.artifacts[reg.id][i] == s.artifacts[reg.id][i]
  {
    hide Retain, NewRevision;
  }

  lemma Outdates(cfg: Config, s: State, m: Plan, p: Policy, a: Artifact)
    requires cfg.Valid() && cfg.maxRevisions >= 2 && Planned(cfg, s, m, p) && s.artifacts == map[1 := [a]]
    requires a.digest == Content(1) && a.kind == MODEL && s.coordinator != 0 && s.epoch != 0
    ensures var t := Register(cfg, s, SECOND).0;
            && Planned(cfg, t, m, p) && 1 in t.artifacts && |t.artifacts[1]| == 2
            && t.artifacts[1][0] == Outdated(a, s.gens.revision + 1, AuthorityId(s), s.commitSequence + 1)
  {
    hide IsValidName, OutdatePrevious, AppendRevision, Planned, Outdated;
    NameIsValid();
    var n := s.gens.revision + 1;
    var t := s.(gens := s.gens.(revision := n));
    var u := OutdatePrevious(t, 1, n);
    OutdateTouches(t, 1, n);
    AppendTouches(cfg, u, SECOND, n);
    StillPlanned(cfg, s, t, m, p);
    StillPlanned(cfg, t, u, m, p);
    StillPlanned(cfg, u, AppendRevision(u, cfg, SECOND, n), m, p);
  }

  /** From SUPERSEDED to anywhere: planned there, overtaken there, and committed all the same. */
  lemma OvertakenCommits(cfg: Config, s: State, p: Policy, a: Artifact, to: Stage)
    requires cfg.Valid() && cfg.maxRevisions >= 2 && Alone(s, p, a) && IsOpen(p) && a.stage == SUPERSEDED
    requires Rule(Unscoped, SUPERSEDED, to, []) in p.rules && to != SUPERSEDED && to != INVALID && s.idempotency == map[]
    ensures var (t, e) := Evaluate(cfg, s, Ask(s, to, 1), 0);
            && e.Success? && e.value.hasPlan
            && var u, m := Register(cfg, t, SECOND).0, e.value.plan;
               Commits(cfg, u, m, 0) && !AsPlanned(Target(u, m), m.from, m.stageGeneration)
  {
    hide Planned, Evaluate, Register, Commits, FindRevision;
    Issues(cfg, s, p, a, to, 1);
    var (t, e) := Evaluate(cfg, s, Ask(s, to, 1), 0);
    var m, u := e.value.plan, Register(cfg, t, SECOND).0;
    assert m.artifact == 1 by { PlannedIs(cfg, t, m, p); }
    Outdates(cfg, t, m, p, a);
    PlannedIs(cfg, u, m, p);
    FirstFound(u.artifacts, m.revision);
    CommitsFrom(cfg, u, m, p);
  }

  lemma PlannedIs(cfg: Config, s: State, m: Plan, p: Policy)
    requires Planned(cfg, s, m, p)
    ensures m.artifact == 1 && m.id in s.plans && s.plans[m.id] == m
  {
  }

  lemma FirstFound(artifacts: map<Id, seq<Artifact>>, revision: Id)
    requires 1 in artifacts && artifacts[1] != [] && artifacts[1][0].revision == revision
    ensures FindRevision(artifacts, 1, revision) == 0
  {
  }

  // ----- A release overtakes a plan -----

  lemma Quarantines(cfg: Config, s: State, p: Policy, a: Artifact)
    requires cfg.Valid() && Alone(s, p, a) && !a.quarantine.active && a.stage == CANDIDATE
    requires Edge(CANDIDATE, QUARANTINED) in p.edges
    ensures var t := DoQuarantine(cfg, s, 1, "a", Authority(0, 0)).0;
            Alone(t, p, Quarantined'(s, a)) && t.idempotency == s.idempotency
  {
    hide IsValidName, Retain;
    NameIsValid();
    assert [a][0 := Quarantined'(s, a)] == [Quarantined'(s, a)];
  }

  /** A quarantined revision moves on by a commit, its quarantine still active. */
  lemma Carries(cfg: Config, s: State, m: Plan, p: Policy, a: Artifact)
    requires Inv(cfg, s) && Planned(cfg, s, m, p) && IsOpen(p) && s.artifacts == map[1 := [a]] && s.pending.Keys == {1}
    requires a.id == 1 && a.digest == Content(1) && a.kind == MODEL && a.revision == m.revision == s.gens.revision
    requires Rule(Unscoped, a.stage, m.to, []) in p.rules
    ensures var t := Commit(cfg, s, m, 0).0;
            Alone(t, p, Committed'(s, m, a)) && t.idempotency.Keys == s.idempotency.Keys
  {
    hide Inv, Planned, FindRevision, Commit, ApplyPlan, Commits;
    PlannedIs(cfg, s, m, p);
    FirstFound(s.artifacts, m.revision);
    CommitsFrom(cfg, s, m, p);
    CommitState(cfg, s, m, 0);
    var d :| Commit(cfg, s, m, 0).0 == ApplyPlan(cfg, s, m, 0, d);
    Carried(cfg, s, m, p, a, d);
  }

  lemma Carried(cfg: Config, s: State, m: Plan, p: Policy, a: Artifact, d: Decision)
    requires Inv(cfg, s) && Planned(cfg, s, m, p) && s.artifacts == map[1 := [a]] && s.pending.Keys == {1}
    requires a.id == 1 && a.digest == Content(1) && a.kind == MODEL && a.revision == m.revision == s.gens.revision
    ensures var t := ApplyPlan(cfg, s, m, 0, d);
            Alone(t, p, Committed'(s, m, a)) && t.idempotency.Keys == s.idempotency.Keys
  {
    hide Inv, Retain;
    StoredRevision(cfg, s, 1, 0);
    Bounds(cfg, s);
    HeaderFacts(cfg, s);
    assert [a][0 := Committed'(s, m, a)] == [Committed'(s, m, a)];
  }

  /** What a release touches: the chain, the books, and no plan or reservation. */
  lemma ReleaseTouches(cfg: Config, s: State, id: Id, decision: Id, snapshot: Digest)
    requires HasCurrent(s.artifacts, id)
    ensures var t := ApplyRelease(cfg, s, id, decision, snapshot);
            && t.artifacts == Update(s.artifacts, id, |s.artifacts[id]| - 1, Released'(s, Current(s.artifacts, id)))
            && SamePlans(s, t)
  {
    hide Retain, Released';
  }

  predicate SamePlans(s: State, t: State) {
    && t.plans == s.plans && t.pending == s.pending && t.evidence == s.evidence && t.policy == s.policy
    && t.activePolicy == s.activePolicy && t.activeGeneration == s.activeGeneration && t.activeDigest == s.activeDigest
  }

  lemma FiledTouches(s: State, req: Request, d: Decision)
    ensures var t := ReleaseFiled(s, req, d);
            SamePlans(s, t) && t.artifacts == s.artifacts && t.commitSequence == s.commitSequence
  {
  }

  lemma StillPlanned(cfg: Config, s: State, t: State, m: Plan, p: Policy)
    requires Planned(cfg, s, m, p) && SamePlans(s, t)
    ensures Planned(cfg, t, m, p)
  {
  }

  /** The release returns the revision to CANDIDATE and leaves the reservation standing. */
  lemma Releases(cfg: Config, s: State, m: Plan, p: Policy, a: Artifact)
    requires cfg.Valid() && Planned(cfg, s, m, p) && IsOpen(p) && s.artifacts == map[1 := [a]] && a.id == 1
    requires a.quarantine.active && Rule(Unscoped, a.stage, CANDIDATE, []) in p.rules
    ensures var t := DoRelease(cfg, s, 1, Authority(0, 0), 0).0;
            && Planned(cfg, t, m, p) && t.artifacts == map[1 := [Released'(s, a)]]
  {
    hide Verdict, Eligible, ApplyRelease, ReleaseFiled, Planned, Gathered;
    PlannedPolicy(cfg, s, m, p);
    var req := ReleaseRequest(s, a);
    var c := ContextFor(cfg, s, a, req, s.activeGeneration, 0);
    OpenIsEligible(c);
    VerdictMeaning(c);
    var snapshot := SnapshotDigest(a, Gathered(c));
    var d := JudgedDecision(s, req, a, Verdict(c), snapshot);
    var u := ReleaseFiled(s, req, d);
    FiledTouches(s, req, d);
    ReleaseTouches(cfg, u, 1, d.id, snapshot);
    StillPlanned(cfg, s, u, m, p);
    StillPlanned(cfg, u, ApplyRelease(cfg, u, 1, d.id, snapshot), m, p);
    assert [a][0 := Released'(s, a)] == [Released'(s, a)];
  }

  lemma PlannedPolicy(cfg: Config, s: State, m: Plan, p: Policy)
    requires Planned(cfg, s, m, p)
    ensures s.policy.rules == p.rules && s.evidence == map[]
  {
  }

  /** Reserved at a stage that leads to CANDIDATE, released, and committed from CANDIDATE. */
  lemma ReleasedCommits(cfg: Config, s: State, p: Policy, a: Artifact, to: Stage)
    requires cfg.Valid() && Alone(s, p, a) && IsOpen(p) && a.quarantine.active && a.stage != CANDIDATE
    requires to != CANDIDATE && to != INVALID && to != a.stage && 2 !in s.idempotency
    requires Rule(Unscoped, a.stage, CANDIDATE, []) in p.rules && Rule(Unscoped, a.stage, to, []) in p.rules
    requires Rule(Unscoped, CANDIDATE, to, []) in p.rules
    ensures var (t, e) := Evaluate(cfg, s, Ask(s, to, 2), 0);
            && e.Success? && e.value.hasPlan
            && var u, m := DoRelease(cfg, t, 1, Authority(0, 0), 0).0, e.value.plan;
               Commits(cfg, u, m, 0) && !AsPlanned(Target(u, m), m.from, m.stageGeneration)
  {
    hide Planned, Evaluate, DoRelease, Commits, FindRevision;
    Issues(cfg, s, p, a, to, 2);
    var (t, e) := Evaluate(cfg, s, Ask(s, to, 2), 0);
    var m, u := e.value.plan, DoRelease(cfg, t, 1, Authority(0, 0), 0).0;
    Releases(cfg, t, m, p, a);
    PlannedIs(cfg, u, m, p);
    FirstFound(u.artifacts, m.revision);
    CommitsFrom(cfg, u, m, p);
  }

  // ----- The exact condition -----

  ghost predicate Reachable(cfg: Config, s: State) {
    cfg.Valid() && exists salt, entropy, epoch, gens, rest, ops ::
      salt != 0 && s == Run(cfg, Initial(salt, entropy, epoch, gens, rest), ops)
  }

  lemma ReachableInv(cfg: Config, s: State)
    requires Reachable(cfg, s)
    ensures Inv(cfg, s)
  {
    hide Inv, Run, Initial;
    var salt, entropy, epoch, gens, rest, ops :| salt != 0 && s == Run(cfg, Initial(salt, entropy, epoch, gens, rest), ops);
    InitialHasInv(cfg, salt, entropy, epoch, gens, rest);
    RunKeepsInv(cfg, Initial(salt, entropy, epoch, gens, rest), ops);
  }

  lemma ReachStart(cfg: Config, salt: nat, entropy: nat, epoch: nat, gens: Generators, rest: nat)
    requires cfg.Valid() && salt != 0
    ensures Reachable(cfg, Initial(salt, entropy, epoch, gens, rest))
  {
    hide Initial, Apply;
    assert Run(cfg, Initial(salt, entropy, epoch, gens, rest), []) == Initial(salt, entropy, epoch, gens, rest);
  }

  lemma ReachNext(cfg: Config, s: State, op: Op)
    requires Reachable(cfg, s)
    ensures Reachable(cfg, Apply(cfg, s, op))
  {
    hide Run, Initial, Apply;
    var salt, entropy, epoch, gens, rest, ops :| salt != 0 && s == Run(cfg, Initial(salt, entropy, epoch, gens, rest), ops);
    var init, more := Initial(salt, entropy, epoch, gens, rest), ops + [op];
    RunSplit(cfg, init, more, |ops|);
    assert more[..|ops|] == ops && more[|ops|..] == [op];
    RunOne(cfg, s, op);
  }

  /** A reachable state without reservations whose policy keeps to the pairs. */
  ghost predicate Settled(cfg: Config, pairs: set<Edge>, s: State) {
    Reachable(cfg, s) && s.pending == map[] && RulesOver(pairs, s.policy.rules)
  }

  /** As long as policies keep to these pairs, every commit starts where its plan was issued. */
  ghost predicate SourcesKept(pairs: set<Edge>) {
    forall cfg, s, ops, m, now ::
      Settled(cfg, pairs, s) && PublishesOver(ops, pairs) && Commits(cfg, Run(cfg, s, ops), m, now) ==>
        AsPlanned(Target(Run(cfg, s, ops), m), m.from, m.stageGeneration)
  }

  lemma StraightKeepsSources(pairs: set<Edge>)
    requires AreTransitions(pairs) && Straight(pairs)
    ensures SourcesKept(pairs)
  {
    hide Straight, AreTransitions, PublishesOver, Reachable, RulesOver, Run, Eligible, LiveEntries, FindRevision;
    forall cfg, s, ops, m, now |
      Settled(cfg, pairs, s) && PublishesOver(ops, pairs) && Commits(cfg, Run(cfg, s, ops), m, now)
      ensures AsPlanned(Target(Run(cfg, s, ops), m), m.from, m.stageGeneration)
    {
      ReachableInv(cfg, s);
      SourceIsExact(cfg, s, ops, pairs, m, now);
    }
  }

  const GENS: Generators := Generators(WORD, WORD, WORD, WORD, WORD, WORD, WORD, WORD)

  /** A coordinator that has published one open policy and registered one artifact. */
  lemma Opens(cfg: Config, p: Policy) returns (s: State, a: Artifact)
    requires cfg.Valid() && p.Valid() && p.id == 1
    ensures Reachable(cfg, s) && Alone(s, p, a) && s.idempotency == map[] && a.stage == p.entry && !a.quarantine.active
  {
    hide Reachable, Register, Publish, Policy.Valid;
    var s0 := Initial(1, 0, 1, GENS, 0);
    ReachStart(cfg, 1, 0, 1, GENS, 0);
    ReachNext(cfg, s0, PublishOp(p, 0));
    var s1 := Publish(cfg, s0, p, 0).0;
    Publishes(cfg, s0, p, 0);
    ReachNext(cfg, s1, RegisterOp(FIRST));
    Enters(cfg, s1, p);
    s := Register(cfg, s1, FIRST).0;
    a := NewRevision(FIRST, s1.gens.revision + 1, 1, p.entry, s1.commitSequence + 1);
  }

  /** Any pair out of SUPERSEDED is enough to break the promise. */
  lemma SupersededBreaks(pairs: set<Edge>, to: Stage)
    requires Edge(SUPERSEDED, to) in pairs && to != SUPERSEDED && to != INVALID
    ensures !SourcesKept(pairs)
  {
    hide Reachable, Policy.Valid, Ladder.Graph, Evaluate, Register, Commits, Alone, Run, Open;
    var ladder := Ladder(SUPERSEDED, if to == CANDIDATE then VERIFIED else CANDIDATE, to);
    var p := Open(1, ladder, [Edge(SUPERSEDED, to)]);
    OpenIsValid(1, ladder, [Edge(SUPERSEDED, to)]);
    OpenIsOpen(1, ladder, [Edge(SUPERSEDED, to)]);
    OpenEntry(1, ladder, [Edge(SUPERSEDED, to)]);
    var s, a := Opens(DEFAULTS, p);
    OvertakenCommits(DEFAULTS, s, p, a, to);
    AloneSettles(DEFAULTS, pairs, s, p, a);
    var ops := [EvaluateOp(Ask(s, to, 1), 0), RegisterOp(SECOND)];
    RunTwo(DEFAULTS, s, ops[0], ops[1]);
    assert PublishesOver(ops, pairs);
  }

  lemma OpenEntry(id: Id, ladder: Ladder, pairs: seq<Edge>)
    ensures Open(id, ladder, pairs).entry == ladder.entry && Open(id, ladder, pairs).id == id
    ensures Open(id, ladder, pairs).edges == ladder.Graph()
  {
    hide Ladder.Graph;
  }

  lemma AloneSettles(cfg: Config, pairs: set<Edge>, s: State, p: Policy, a: Artifact)
    requires Reachable(cfg, s) && Alone(s, p, a) && RulesOver(pairs, p.rules)
    ensures Settled(cfg, pairs, s)
  {
    hide Reachable, RulesOver;
  }

  lemma RunTwo(cfg: Config, s: State, x: Op, y: Op)
    ensures Run(cfg, s, [x, y]) == Apply(cfg, Apply(cfg, s, x), y)
  {
    hide Apply;
    assert [x, y][1..] == [y];
    RunOne(cfg, Apply(cfg, s, x), y);
  }

  /** A revision standing at any stage with its quarantine active. */
  lemma StandsHeld(cfg: Config, f: Stage) returns (s: State, p: Policy, a: Artifact)
    requires cfg.Valid() && f != INVALID && f != CANDIDATE
    ensures Reachable(cfg, s) && Alone(s, p, a) && a.stage == f && a.quarantine.active && p.id == 1 && 2 !in s.idempotency
  {
    hide Reachable, Policy.Valid, Ladder.Graph, Alone, Open, DoQuarantine, Evaluate, Commit, Planned;
    var on := if f == QUARANTINED then RETIRED else f;
    var ladder, pairs := Ladder(CANDIDATE, QUARANTINED, on), [Edge(QUARANTINED, on)];
    p := Open(1, ladder, pairs);
    OpenIsValid(1, ladder, pairs);
    OpenIsOpen(1, ladder, pairs);
    OpenEntry(1, ladder, pairs);
    ladder.IsWellFormed();
    s, a := Opens(cfg, p);
    Quarantines(cfg, s, p, a);
    ReachNext(cfg, s, QuarantineOp(1, "a", Authority(0, 0)));
    s, a := DoQuarantine(cfg, s, 1, "a", Authority(0, 0)).0, Quarantined'(s, a);
    if f != QUARANTINED {
      s, a := CarriesOn(cfg, s, p, a, f);
    }
  }

  lemma CarriesOn(cfg: Config, s: State, p: Policy, a: Artifact, to: Stage) returns (u: State, b: Artifact)
    requires Reachable(cfg, s) && Alone(s, p, a) && IsOpen(p) && Rule(Unscoped, a.stage, to, []) in p.rules
    requires to != a.stage && to != INVALID && s.idempotency == map[]
    ensures Reachable(cfg, u) && Alone(u, p, b) && b.stage == to && b.quarantine == a.quarantine && 2 !in u.idempotency
  {
    hide Reachable, Evaluate, Commit, Planned, Inv;
    Valid(cfg, s);
    Issues(cfg, s, p, a, to, 1);
    ReachNext(cfg, s, EvaluateOp(Ask(s, to, 1), 0));
    var (t, e) := Evaluate(cfg, s, Ask(s, to, 1), 0);
    ReachableInv(cfg, t);
    Carries(cfg, t, e.value.plan, p, a);
    ReachNext(cfg, t, CommitOp(e.value.plan, 0));
    u, b := Commit(cfg, t, e.value.plan, 0).0, Committed'(t, e.value.plan, a);
  }

  lemma Valid(cfg: Config, s: State)
    requires Reachable(cfg, s)
    ensures cfg.Valid()
  {
  }

  /** A stage that leads to CANDIDATE and also where CANDIDATE leads is enough as well. */
  lemma DetourBreaks(pairs: set<Edge>, f: Stage, to: Stage)
    requires AreTransitions(pairs) && to != CANDIDATE
    requires Edge(f, CANDIDATE) in pairs && Edge(f, to) in pairs && Edge(CANDIDATE, to) in pairs
    ensures !SourcesKept(pairs)
  {
    hide Reachable, Policy.Valid, Ladder.Graph, Evaluate, DoRelease, Commits, Alone, Run, Open, Publish;
    var ladder, list := Ladder(f, CANDIDATE, to), [Edge(f, CANDIDATE), Edge(f, to), Edge(CANDIDATE, to)];
    var p := Open(2, ladder, list);
    OpenIsValid(2, ladder, list);
    OpenIsOpen(2, ladder, list);
    OpenEntry(2, ladder, list);
    assert list[0] in list && list[1] in list && list[2] in list;
    var s0, p0, a := StandsHeld(DEFAULTS, f);
    AloneIs(s0, p0, a);
    Publishes(DEFAULTS, s0, p, 0);
    ReachNext(DEFAULTS, s0, PublishOp(p, 0));
    var s := Publish(DEFAULTS, s0, p, 0).0;
    StillAlone(s0, s, p0, p, a);
    ReleasedCommits(DEFAULTS, s, p, a, to);
    AloneSettles(DEFAULTS, pairs, s, p, a);
    var ops := [EvaluateOp(Ask(s, to, 2), 0), ReleaseOp(1, Authority(0, 0), 0)];
    RunTwo(DEFAULTS, s, ops[0], ops[1]);
    assert PublishesOver(ops, pairs);
  }

  lemma AloneIs(s: State, p: Policy, a: Artifact)
    requires Alone(s, p, a)
    ensures s.activePolicy == p.id
  {
  }

  lemma StillAlone(s: State, t: State, p: Policy, q: Policy, a: Artifact)
    requires Alone(s, p, a) && Under(t, q)
    requires t == s.(activePolicy := t.activePolicy, activeGeneration := t.activeGeneration, activeDigest := t.activeDigest,
                     policy := t.policy, commitSequence := t.commitSequence, history := t.history)
    ensures Alone(t, q, a) && t.idempotency == s.idempotency
  {
  }

  /** Policies over a set of pairs keep every commit at the source of its plan exactly when no pair
      leaves SUPERSEDED and no stage leads both to CANDIDATE and to where CANDIDATE leads. */
  lemma SourcesKeptExactly(pairs: set<Edge>)
    requires AreTransitions(pairs)
    ensures SourcesKept(pairs) <==> Straight(pairs)
  {
    hide SourcesKept;
    if Straight(pairs) {
      StraightKeepsSources(pairs);
    } else if e :| e in pairs && e.from == SUPERSEDED {
      SupersededBreaks(pairs, e.to);
    } else {
      var f: Stage, t: Stage :|
        Edge(f, CANDIDATE) in pairs && Edge(f, t) in pairs && Edge(CANDIDATE, t) in pairs && t != CANDIDATE;
      DetourBreaks(pairs, f, t);
    }
  }
}
