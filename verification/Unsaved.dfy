/** A change of state that no persist epoch announces. */
module Unsaved {
  import opened Lifecycle
  import opened Graphs
  import opened Domain
  import opened Steps
  import opened Invariant
  import opened Runs
  import opened Preservation
  import opened Fencing
  import opened Straightness
  import opened Engine

  const RUNG: Ladder := Ladder(CANDIDATE, VERIFIED, RETIRED)
  const PAIRS: seq<Edge> := [Edge(CANDIDATE, RETIRED)]

  function OldPolicy(): Policy { Open(1, RUNG, PAIRS) }
  function NewPolicy(): Policy { Open(2, RUNG, PAIRS) }

  lemma PoliciesAreValid()
    ensures OldPolicy().Valid() && NewPolicy().Valid() && IsOpen(OldPolicy())
    ensures OldPolicy().id == 1 && NewPolicy().id == 2 && OldPolicy().entry == CANDIDATE
    ensures Rule(Unscoped, CANDIDATE, RETIRED, []) in OldPolicy().rules
  {
    hide Policy.Valid, Open, Ladder.Graph;
    assert PAIRS[0] in PAIRS;
    OpenIsValid(1, RUNG, PAIRS);
    OpenIsValid(2, RUNG, PAIRS);
    OpenIsOpen(1, RUNG, PAIRS);
    OpenEntry(1, RUNG, PAIRS);
    OpenEntry(2, RUNG, PAIRS);
  }

  /** Publishing another policy leaves a reserved plan known, reserved and out of date. */
  lemma PolicyMovesOn(cfg: Config, s: State, m: Plan, p: Policy, q: Policy)
    requires Planned(cfg, s, m, p) && q.Valid() && q.id != p.id && s.policy.Sealed() && m.Valid()
    requires s.policy.id == s.activePolicy
    ensures var t := Publish(cfg, s, q, 0).0; Known(t, m) && PolicyMoved(t, m) && Promotions.Held(t, m)
  {
    hide Policy.Valid, Plan.Valid;
    Publishes(cfg, s, q, 0);
  }

  /** Publish and register: a coordinator with one artifact. */
  method EnterOne() returns (engine: PromotionEngine, ghost a: Artifact)
    ensures fresh(engine) && engine.Valid() && engine.admissionOpen && engine.idempotency == map[]
    ensures Reachable(engine.config, engine.View()) && Alone(engine.View(), OldPolicy(), a) && a.stage == CANDIDATE
  {
    hide Inv, Policy.Valid, Publish, Register, Reachable, Alone;
    engine := new PromotionEngine(DEFAULTS, 1, 0, 1, GENS, 0);
    ghost var s, cfg := engine.View(), engine.config;
    PoliciesAreValid();
    ReachStart(cfg, 1, 0, 1, GENS, 0);
    ReachNext(cfg, s, PublishOp(OldPolicy(), 0));
    Publishes(cfg, s, OldPolicy(), 0);
    var _ := engine.PublishPolicy(OldPolicy(), 0);
    s := engine.View();
    ReachNext(cfg, s, RegisterOp(FIRST));
    Enters(cfg, s, OldPolicy());
    var _ := engine.RegisterArtifact(FIRST);
    a := NewRevision(FIRST, s.gens.revision + 1, 1, CANDIDATE, s.commitSequence + 1);
  }

  /** Evaluate: its retirement is planned and reserved. */
  method ReserveOne() returns (engine: PromotionEngine, m: Plan)
    ensures fresh(engine) && engine.Valid() && engine.admissionOpen
    ensures Reachable(engine.config, engine.View()) && Planned(engine.config, engine.View(), m, OldPolicy())
  {
    hide Inv, Policy.Valid, Evaluate, Reachable, Alone, Planned;
    ghost var a;
    engine, a := EnterOne();
    ghost var s, cfg := engine.View(), engine.config;
    PoliciesAreValid();
    assert cfg.Valid() by { Straightness.Valid(cfg, s); }
    ReachNext(cfg, s, EvaluateOp(Ask(s, RETIRED, 1), 0));
    Issues(cfg, s, OldPolicy(), a, RETIRED, 1);
    var e := engine.EvaluateRequest(Ask(engine.View(), RETIRED, 1), 0);
    m := e.value.plan;
  }

  /** Then publish again and commit: the last call changes the state and drops the reservation,
      under the persist epoch of the call before it. */
  method RefuseQuietly() returns (engine: PromotionEngine, m: Plan, ghost before: State, ghost epoch: nat)
    ensures fresh(engine) && engine.Valid()
    ensures Reachable(engine.config, before) && Known(before, m) && PolicyMoved(before, m) && Promotions.Held(before, m)
    ensures engine.View() == Commit(engine.config, before, m, 0).0
    ensures engine.View() != before && m.artifact !in engine.pending && engine.persistEpoch == epoch
  {
    hide Inv, Policy.Valid, Publish, Commit, Reachable, Planned, Plan.Valid;
    engine, m := ReserveOne();
    ghost var s, cfg := engine.View(), engine.config;
    PoliciesAreValid();
    ReachNext(cfg, s, PublishOp(NewPolicy(), 0));
    PlanIsKnown(cfg, s, m, OldPolicy());
    PolicyMovesOn(cfg, s, m, OldPolicy(), NewPolicy());
    var _ := engine.PublishPolicy(NewPolicy(), 0);
    before, epoch := engine.View(), engine.persistEpoch;
    Dropped(cfg, before, m);
    var _ := engine.CommitPlan(m, 0);
  }

  lemma PlanIsKnown(cfg: Config, s: State, m: Plan, p: Policy)
    requires Inv(cfg, s) && Planned(cfg, s, m, p)
    ensures m.Valid() && s.policy.Sealed() && s.policy.id == s.activePolicy
  {
    hide Inv, Plan.Valid;
    StoredPlan(cfg, s, m);
    PolicyHeader(cfg, s);
  }

  lemma Dropped(cfg: Config, s: State, m: Plan)
    requires Known(s, m) && PolicyMoved(s, m)
    ensures m.artifact !in Commit(cfg, s, m, 0).0.pending
  {
    hide Revalidate;
  }
}
