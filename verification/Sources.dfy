/** Where a committed transition starts: the plan's stage and stage generation, and the stale
    reservations that re-registration and quarantine release leave behind. */
module Sources {
  import opened Lifecycle
  import opened Domain
  import opened Store
  import opened Gates
  import opened Steps
  import opened Invariant
  import opened Reference
  import opened Runs
  import opened Promotions
  import opened Stages
  import opened Lifelines

  predicate AsPlanned(a: Artifact, from: Stage, generation: nat) {
    a.stage == from && a.stageGeneration == generation
  }

  lemma StandingReservation(cfg: Config, s: State, id: Id)
    requires Inv(cfg, s) && id in s.pending
    ensures FindRevision(s.artifacts, id, s.pending[id].revision) >= 0
    ensures StageStands(s.pending[id], s.artifacts[id][FindRevision(s.artifacts, id, s.pending[id].revision)])
  {
    hide PolicyConsistent, ArtifactsConsistent, EvidenceConsistent, DecisionsConsistent, PlansConsistent, Reservations,
         RecordsConsistent, HistoryConsistent, TrustConsistent, RevisionsIssued, EvidenceIssued, PlansIssued,
         PlansResolve, DecisionsIssued, RequestsBound, EvidenceChains, FindRevision;
  }

  /** Under any policy a commit starts where its plan was issued exactly when the stage
      generation has not moved; otherwise from SUPERSEDED or CANDIDATE, reached since. */
  lemma CommitSource(cfg: Config, s: State, p: Plan, now: nat)
    requires Inv(cfg, s) && Commits(cfg, s, p, now)
    ensures var a := Target(s, p);
            && (AsPlanned(a, p.from, p.stageGeneration) <==> a.stageGeneration == p.stageGeneration)
            && (a.stageGeneration != p.stageGeneration ==>
                  (a.stage == SUPERSEDED || a.stage == CANDIDATE) && a.stageGeneration > p.stageGeneration)
  {
    hide Inv, FindRevision, Eligible, LiveEntries;
    ReservationAuthority(cfg, s, p);
    StandingReservation(cfg, s, p.artifact);
  }

  // ----- Rules under which the exceptions never commit -----

  /** Every rule governs one of these pairs of stages. */
  ghost predicate RulesOver(pairs: set<Edge>, rules: seq<Rule>) {
    forall r :: r in rules ==> Edge(r.from, r.to) in pairs
  }

  /** The pairs a valid rule can govern. */
  predicate AreTransitions(pairs: set<Edge>) {
    forall e :: e in pairs ==> e.from != INVALID && e.to != INVALID && e.from != e.to
  }

  /** No pair leaves SUPERSEDED, and no stage leads both to CANDIDATE and where CANDIDATE leads. */
  ghost predicate Straight(pairs: set<Edge>) {
    && (forall e :: e in pairs ==> e.from != SUPERSEDED)
    && (forall f: Stage, t: Stage ::
          Edge(f, CANDIDATE) in pairs && Edge(f, t) in pairs && Edge(CANDIDATE, t) in pairs ==> t == CANDIDATE)
  }

  predicate PinnedStage(pairs: set<Edge>, r: Pending, a: Artifact) {
    || AsPlanned(a, r.from, r.stageGeneration)
    || a.stage == SUPERSEDED
    || (a.stage == CANDIDATE && Edge(r.from, CANDIDATE) in pairs)
  }

  predicate PinnedAt(pairs: set<Edge>, artifacts: map<Id, seq<Artifact>>, id: Id, r: Pending) {
    var i := FindRevision(artifacts, id, r.revision);
    i >= 0 && PinnedStage(pairs, r, artifacts[id][i]) && Edge(r.from, r.to) in pairs
  }

  /** The rules stay over the pairs, and every reservation stands as planned or can no longer commit. */
  ghost predicate Pinned(pairs: set<Edge>, s: State) {
    && RulesOver(pairs, s.policy.rules)
    && forall id :: id in s.pending ==> PinnedAt(pairs, s.artifacts, id, s.pending[id])
  }

  lemma KeptPinned(pairs: set<Edge>, s: State, t: State, op: Op, id: Id)
    requires Straight(pairs) && RulesOver(pairs, s.policy.rules) && Evolves(s, t, op)
    requires id in t.pending && PinnedAt(pairs, s.artifacts, id, t.pending[id])
    ensures PinnedAt(pairs, t.artifacts, id, t.pending[id])
  {
    hide FindRevision, Licensed, Cleared, Straight, RulesOver, PinnedStage;
    var r := t.pending[id];
    var i := FindRevision(s.artifacts, id, r.revision);
    EvolvesExtends(s, t, op);
    ExtendsFind(s.artifacts, t.artifacts, id, r.revision);
    StillPinned(pairs, s.policy.rules, r, s.artifacts[id][i], t.artifacts[id][i]);
  }

  lemma EvolvesExtends(s: State, t: State, op: Op)
    requires Evolves(s, t, op)
    ensures Extends(s.artifacts, t.artifacts)
  {
    hide Cleared, Licensed, Governs;
  }

  lemma StillPinned(pairs: set<Edge>, rules: seq<Rule>, r: Pending, a: Artifact, b: Artifact)
    requires Straight(pairs) && RulesOver(pairs, rules) && PinnedStage(pairs, r, a)
    requires Moved(a, b) ==> b.stage == SUPERSEDED || (b.stage == CANDIDATE && Governs(rules, a.stage, CANDIDATE))
    ensures PinnedStage(pairs, r, b)
  {
  }

  lemma FreshPinned(pairs: set<Edge>, s: State, id: Id, r: Pending)
    requires RulesOver(pairs, s.policy.rules) && FreshlyReserved(s, id, r)
    ensures PinnedAt(pairs, s.artifacts, id, r)
  {
    hide FindRevision;
    var a := s.artifacts[id][FindRevision(s.artifacts, id, r.revision)];
    assert s.policy.rules[s.policy.FindRule(a.kind, r.from, r.to)] in s.policy.rules;
  }

  lemma PinnedStep(cfg: Config, s: State, op: Op, pairs: set<Edge>)
    requires Inv(cfg, s) && Straight(pairs) && Pinned(pairs, s)
    requires op.PublishOp? ==> RulesOver(pairs, op.body.rules)
    ensures Pinned(pairs, Apply(cfg, s, op))
  {
    hide Inv, Apply, Straight, PinnedAt, Evolves, FreshlyReserved, Later, BindingStep, RulesOver;
    ApplyProgress(cfg, s, op);
    ApplyEvolves(cfg, s, op);
    RulesAfter(cfg, s, op);
    var t := Apply(cfg, s, op);
    forall id | id in t.pending ensures PinnedAt(pairs, t.artifacts, id, t.pending[id]) {
      if FreshlyReserved(s, id, t.pending[id]) {
        FreshPinned(pairs, s, id, t.pending[id]);
      }
      KeptPinned(pairs, s, t, op, id);
    }
  }

  ghost predicate PublishesOver(ops: seq<Op>, pairs: set<Edge>) {
    forall op :: op in ops && op.PublishOp? ==> RulesOver(pairs, op.body.rules)
  }

  lemma {:induction false} PinnedThroughout(cfg: Config, s: State, ops: seq<Op>, pairs: set<Edge>)
    requires Inv(cfg, s) && Straight(pairs) && Pinned(pairs, s) && PublishesOver(ops, pairs)
    ensures Pinned(pairs, Run(cfg, s, ops))
    decreases |ops|
  {
    hide Inv, Apply, Straight, Pinned, RulesOver;
    if ops != [] {
      PinnedStep(cfg, s, ops[0], pairs);
      ApplyKeepsInv(cfg, s, ops[0]);
      PinnedThroughout(cfg, Apply(cfg, s, ops[0]), ops[1..], pairs);
    }
  }

  lemma EligibleGoverns(cfg: Config, s: State, p: Plan, now: nat)
    requires Inv(cfg, s) && Commits(cfg, s, p, now)
    ensures Governs(s.policy.rules, Target(s, p).stage, p.to)
  {
    hide Inv, Eligible, FindRevision, LiveEntries, Governs;
    EligibleRule(cfg, s, CommitContext(cfg, s, p, now));
  }

  lemma ExactSource(pairs: set<Edge>, rules: seq<Rule>, r: Pending, a: Artifact)
    requires AreTransitions(pairs) && Straight(pairs) && RulesOver(pairs, rules) && PinnedStage(pairs, r, a)
    requires Edge(r.from, r.to) in pairs && Governs(rules, a.stage, r.to)
    ensures AsPlanned(a, r.from, r.stageGeneration)
  {
    assert Edge(a.stage, r.to) in pairs;
  }

  /** While every policy keeps to a straight set of pairs, every commit starts from the very stage
      and stage generation its plan was issued at, although registrations and releases leave
      stale reservations behind. */
  lemma SourceIsExact(cfg: Config, s: State, ops: seq<Op>, pairs: set<Edge>, p: Plan, now: nat)
    requires Inv(cfg, s) && AreTransitions(pairs) && Straight(pairs) && Pinned(pairs, s) && PublishesOver(ops, pairs)
    requires Commits(cfg, Run(cfg, s, ops), p, now)
    ensures AsPlanned(Target(Run(cfg, s, ops), p), p.from, p.stageGeneration)
    ensures CommitRecord(Run(cfg, s, ops), p, Target(Run(cfg, s, ops), p)).from == p.from
  {
    hide Inv, Run, Straight, Eligible, FindRevision, LiveEntries, Governs, PinnedStage, RulesOver, AreTransitions;
    RunKeepsInv(cfg, s, ops);
    PinnedThroughout(cfg, s, ops, pairs);
    var u := Run(cfg, s, ops);
    EligibleGoverns(cfg, u, p, now);
    ReservationAuthority(cfg, u, p);
    assert PinnedAt(pairs, u.artifacts, p.artifact, u.pending[p.artifact]);
    ExactSource(pairs, u.policy.rules, u.pending[p.artifact], Target(u, p));
  }

  // ----- The reference policy -----

  function PairsOf(rules: seq<Rule>): set<Edge> { set r | r in rules :: Edge(r.from, r.to) }

  const REFERENCE_PAIRS: set<Edge> := PairsOf(REFERENCE_RULES)

  lemma ReferenceIsStraight()
    ensures AreTransitions(REFERENCE_PAIRS) && Straight(REFERENCE_PAIRS)
  {
    forall e | e in REFERENCE_PAIRS ensures GovernedPair(e.from, e.to) {
      var r :| r in REFERENCE_RULES && e == Edge(r.from, r.to);
      RuleShape(r);
    }
  }

  /** Every commit of a fresh coordinator starts where its plan was issued, as long as the policies
      published keep to the transitions the reference policy governs. */
  lemma ReferenceSourcesAreExact(cfg: Config, salt: nat, entropy: nat, epoch: nat, gens: Generators, rest: nat,
                                 ops: seq<Op>, p: Plan, now: nat)
    requires cfg.Valid() && salt != 0 && PublishesOver(ops, REFERENCE_PAIRS)
    requires Commits(cfg, Run(cfg, Initial(salt, entropy, epoch, gens, rest), ops), p, now)
    ensures AsPlanned(Target(Run(cfg, Initial(salt, entropy, epoch, gens, rest), ops), p), p.from, p.stageGeneration)
  {
    hide Inv, Run, Straight, Commits, AreTransitions, PublishesOver;
    InitialHasInv(cfg, salt, entropy, epoch, gens, rest);
    ReferenceIsStraight();
    SourceIsExact(cfg, Initial(salt, entropy, epoch, gens, rest), ops, REFERENCE_PAIRS, p, now);
  }

  /** Every run of a fresh coordinator: consistent and reloadable throughout, no revision PROMOTED
      while quarantined or revoked under guarded policies, one current revision per identity. */
  lemma FreshCoordinatorIsSafe(cfg: Config, salt: nat, entropy: nat, epoch: nat, gens: Generators, rest: nat, ops: seq<Op>)
    requires cfg.Valid() && salt != 0
    ensures var t := Run(cfg, Initial(salt, entropy, epoch, gens, rest), ops);
            && Consistent(t) && Install(t, Snapshot(t)) == (Snapshot(t), Success(t.epoch))
            && |t.pending| <= cfg.maxPending
            && OnlyNewestCurrent(t.artifacts)
            && (GuardsEveryPublication(ops) ==> AllTrusted(t.artifacts))
  {
    hide Inv, Run, Consistent, Install, Guarded, GuardsEveryPublication;
    var s := Initial(salt, entropy, epoch, gens, rest);
    InitialHasInv(cfg, salt, entropy, epoch, gens, rest);
    ReachableIsConsistent(cfg, s, ops);
    OneCurrentRevision(cfg, s, ops, 0, 0, 0);
    ReferenceIsGuarded();
    if GuardsEveryPublication(ops) {
      GuardedPromotions(cfg, s, ops);
    }
  }
}
