/** A run in which a commit starts from a stage its plan was not issued for. */
module Staleness {
  import opened Lifecycle
  import opened Ordered
  import opened Domain
  import opened Store
  import opened Gates
  import opened Steps
  import opened Reference
  import opened Runs
  import opened Promotions
  import opened Keeping
  import opened Fencing
  import S = Straightness

  // A policy with a rule out of SUPERSEDED, and all the hard gates on both its rules.
  const LAX_EDGES: seq<Edge> := [Edge(CANDIDATE, SUPERSEDED), Edge(CANDIDATE, RETIRED), Edge(SUPERSEDED, RETIRED)]
  const LAX_RULES: seq<Rule> := [
    Rule(Unscoped, CANDIDATE, RETIRED, COMMON_GATES), Rule(Unscoped, SUPERSEDED, RETIRED, COMMON_GATES)]
  const LAX_POLICY: Policy := Policy(1, 1, "a", LAX_EDGES, CANDIDATE, LAX_RULES, Zero)

  function Retirement(s: State): Request {
    Request(1, s.gens.revision, Content(1), RETIRED, 1, 1, s.CurrentAuthority())
  }

  lemma LaxIsAccepted()
    ensures Accepts(LAX_EDGES, CANDIDATE)
  {
    var g := LAX_EDGES;
    assert g[0] == Edge(CANDIDATE, SUPERSEDED) && g[1] == Edge(CANDIDATE, RETIRED) && g[2] == Edge(SUPERSEDED, RETIRED);
    ReachesRefl(g, CANDIDATE);
    ReachesRefl(g, RETIRED);
    ReachesStep(g, CANDIDATE, CANDIDATE, SUPERSEDED);
    ReachesStep(g, CANDIDATE, CANDIDATE, RETIRED);
    assert Connected(g, CANDIDATE);
    forall c ensures !IsCycle(Spine(g), c) {
      if IsCycle(Spine(g), c) {
        forall e | e in Spine(g) ensures e.from < e.to {
          SpineEdges(g, e);
        }
        IncreasingPath(Spine(g), c);
        assert false;
      }
    }
    AcyclicIsAccepted(g, CANDIDATE);
  }

  lemma LaxIsValid()
    ensures LAX_POLICY.Valid()
  {
    hide Accepts, IsValidName;
    LaxIsAccepted();
    S.NameIsValid();
    CommonGatesAreValid();
    assert LAX_EDGES[1] == Edge(CANDIDATE, RETIRED) && LAX_EDGES[2] == Edge(SUPERSEDED, RETIRED);
  }

  /** Under the lax policy, with nothing submitted, planned or vetoed. */
  ghost predicate Blank(s: State) {
    && s.policy.rules == LAX_RULES && s.policy.edges == LAX_EDGES && s.policy.entry == CANDIDATE
    && s.coordinator != 0 && s.epoch != 0 && s.activePolicy != 0 && s.activeDigest == s.policy.digest
    && s.evidence == map[] && s.plans == map[] && s.pending == map[] && s.idempotency == map[] && s.vetoes == map[]
  }

  lemma Publishes(cfg: Config, s: State, rest: nat)
    requires s.activePolicy != 1 && s.coordinator != 0 && s.epoch != 0
    requires s.evidence == map[] && s.plans == map[] && s.pending == map[] && s.idempotency == map[] && s.vetoes == map[]
    ensures Blank(Publish(cfg, s, LAX_POLICY, rest).0)
    ensures Publish(cfg, s, LAX_POLICY, rest).0.artifacts == s.artifacts
  {
    hide Policy.Valid, Retain;
    LaxIsValid();
  }

  lemma RegistersFirst(cfg: Config, s: State)
    requires cfg.Valid() && Blank(s) && s.artifacts == map[]
    ensures var t := Register(cfg, s, S.FIRST).0;
            && Blank(t) && t.gens.revision != 0
            && t.artifacts == map[1 := [NewRevision(S.FIRST, t.gens.revision, 1, CANDIDATE, s.commitSequence + 1)]]
  {
    hide IsValidName, Retain;
    S.NameIsValid();
    var a := NewRevision(S.FIRST, s.gens.revision + 1, 1, CANDIDATE, s.commitSequence + 1);
    assert [] + [a] == [a];
  }

  lemma GatesHold(c: Context)
    requires c.s.evidence == map[] && c.s.vetoes == map[] && c.a.id != 0 && c.a.digest != Zero && c.a.revision != 0
    requires c.a.kind != 0 && !c.a.quarantine.active && !c.a.revocation.active
    requires c.a.id in c.s.pending ==>
               c.s.pending[c.a.id].request == c.request.request && c.s.pending[c.a.id].attempt == c.request.attempt
    ensures forall g :: g in COMMON_GATES ==> Holds(c, g)
  {
  }

  lemma IsEligible(c: Context)
    requires c.s.policy.rules == LAX_RULES && c.request.stage == RETIRED
    requires c.a.stage == CANDIDATE || c.a.stage == SUPERSEDED
    requires forall g :: g in COMMON_GATES ==> Holds(c, g)
    ensures Eligible(c)
  {
    hide Holds;
    var p := c.s.policy;
    var i := p.FindRule(c.a.kind, c.a.stage, RETIRED);
    assert p.rules[0].gates == p.rules[1].gates == COMMON_GATES;
    assert p.rules[0].Matches(c.a.kind, CANDIDATE, RETIRED) && p.rules[1].Matches(c.a.kind, SUPERSEDED, RETIRED);
  }

  /** The revision registered first is still a candidate. */
  ghost predicate Entered(s: State, a: Artifact) {
    && Blank(s) && s.artifacts == map[1 := [a]] && s.gens.revision != 0
    && a == NewRevision(S.FIRST, s.gens.revision, 1, CANDIDATE, a.lastSequence)
  }

  /** The plan is stored and reserved, and its decision was made under the active policy. */
  ghost predicate Issued(cfg: Config, s: State, p: Plan, a: Artifact) {
    && s.policy.rules == LAX_RULES && s.evidence == map[] && s.vetoes == map[] && s.artifacts == map[1 := [a]]
    && p.id in s.plans && s.plans[p.id] == p && p.artifact == 1 && Promotions.Held(s, p)
    && s.pending[1].request == p.request && s.pending[1].attempt == p.attempt
    && p.revision == a.revision != 0 && p.from == CANDIDATE && p.to == RETIRED && p.stageGeneration == 1
    && p.policyDigest == s.policy.digest && p.policyGeneration == s.activeGeneration
    && p.lifecycleDigest == GraphOf(s.policy.edges) && p.expires == cfg.planTtl
    && p.snapshot == SnapshotDigest(a, {})
    && a == NewRevision(S.FIRST, s.gens.revision, 1, CANDIDATE, a.lastSequence)
  }

  function IssuedDecision(s: State, a: Artifact): Decision {
    JudgedDecision(s, Retirement(s), a, GateOutcome(false, PromotionEligible, 0), SnapshotDigest(a, {}))
  }

  lemma Grants(cfg: Config, s: State, a: Artifact)
    requires cfg.Valid() && Entered(s, a)
    ensures Judge(cfg, s, a, Retirement(s), 0) == Granted(cfg, s, a, Retirement(s), IssuedDecision(s, a), 0)
  {
    hide Eligible, Holds, Granted, Verdict;
    var c := ContextFor(cfg, s, a, Retirement(s), s.activeGeneration, 0);
    GatesHold(c);
    IsEligible(c);
    VerdictMeaning(c);
    UngovernedFails(c);
    assert LiveEntries(s.evidence, a) == {};
  }

  lemma Issues(cfg: Config, s: State, a: Artifact)
    requires cfg.Valid() && Entered(s, a)
    ensures var (t, e) := Evaluate(cfg, s, Retirement(s), 0);
            e.Success? && e.value.hasPlan && Issued(cfg, t, e.value.plan, a)
  {
    hide Retain, Judge;
    Grants(cfg, s, a);
    assert FindRevision(s.artifacts, 1, a.revision) == 0;
  }

  /** The second registration touches only the artifact's chain and counters. */
  lemma Outdates(cfg: Config, s: State, p: Plan, a: Artifact)
    requires cfg.Valid() && cfg.maxRevisions >= 2 && Issued(cfg, s, p, a)
    ensures var t := Register(cfg, s, S.SECOND).0;
            && t.policy == s.policy && t.activeGeneration == s.activeGeneration && t.decisions == s.decisions
            && t.plans == s.plans && t.pending == s.pending && t.evidence == s.evidence && t.vetoes == s.vetoes
            && 1 in t.artifacts && |t.artifacts[1]| == 2
            && t.artifacts[1][0] == Outdated(a, s.gens.revision + 1, AuthorityId(s), s.commitSequence + 1)
  {
    hide IsValidName, Retain, Outdated;
    S.NameIsValid();
  }

  lemma RegistersSecond(cfg: Config, s: State, p: Plan, a: Artifact)
    requires cfg.Valid() && cfg.maxRevisions >= 2 && Issued(cfg, s, p, a)
    ensures var t := Register(cfg, s, S.SECOND).0;
            && Stored(t, p) && Target(t, p).stage == SUPERSEDED && Target(t, p).stageGeneration == 2
            && Commits(cfg, t, p, 0)
  {
    hide IsValidName, Register, Eligible, Holds;
    Outdates(cfg, s, p, a);
    var t := Register(cfg, s, S.SECOND).0;
    var b := t.artifacts[1][0];
    assert FindRevision(t.artifacts, 1, a.revision) == 0;
    var c := CommitContext(cfg, t, p, 0);
    GatesHold(c);
    IsEligible(c);
    assert LiveEntries(t.evidence, b) == {};
  }

  /** The documentation promises that a plan derived under one stage generation does not commit
      under another. A fresh coordinator breaks that promise: a candidate's retirement is planned,
      a registration supersedes the revision, and the plan still commits, from SUPERSEDED. */
  lemma StaleGenerationCommits(cfg: Config, salt: nat, entropy: nat, epoch: nat, gens: Generators, rest: nat)
    requires cfg.Valid() && cfg.maxRevisions >= 2 && salt != 0
    ensures var s := Run(cfg, Initial(salt, entropy, epoch, gens, rest), [PublishOp(LAX_POLICY, rest), RegisterOp(S.FIRST)]);
            var (t, e) := Evaluate(cfg, s, Retirement(s), 0);
            && e.Success? && e.value.hasPlan
            && var p, u := e.value.plan, Run(cfg, t, [RegisterOp(S.SECOND)]);
               && Commits(cfg, u, p, 0)
               && p.from == CANDIDATE && Target(u, p).stage == SUPERSEDED
               && p.stageGeneration == 1 && Target(u, p).stageGeneration == 2
  {
    hide Publish, Register, Evaluate, Blank, Commits, Policy.Valid;
    var s0 := Initial(salt, entropy, epoch, gens, rest);
    var s1 := Publish(cfg, s0, LAX_POLICY, rest).0;
    var s2 := Register(cfg, s1, S.FIRST).0;
    S.RunTwo(cfg, s0, PublishOp(LAX_POLICY, rest), RegisterOp(S.FIRST));
    Publishes(cfg, s0, rest);
    RegistersFirst(cfg, s1);
    var a := NewRevision(S.FIRST, s2.gens.revision, 1, CANDIDATE, s1.commitSequence + 1);
    Issues(cfg, s2, a);
    var (t, e) := Evaluate(cfg, s2, Retirement(s2), 0);
    RunOne(cfg, t, RegisterOp(S.SECOND));
    RegistersSecond(cfg, t, e.value.plan, a);
  }
}
