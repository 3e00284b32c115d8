/** What the steps of single revisions add up to over whole runs. */
module Lifelines {
  import opened Lifecycle
  import opened Ordered
  import opened Domain
  import opened Store
  import opened Steps
  import opened Invariant
  import opened KeepingEvidence
  import opened Reference
  import opened Runs
  import opened Stages

  // ----- Stage moves -----

  /** In every reachable state, a stage move follows an edge of the graph active at that step
      and raises the stage generation by one; revocation and re-registration alone do not ask
      the graph. Revisions are never removed and keep all that was declared of them. */
  lemma EveryMoveIsLicensed(cfg: Config, s: State, ops: seq<Op>, op: Op, id: Id, i: nat)
    requires Inv(cfg, s) && id in Run(cfg, s, ops).artifacts && i < |Run(cfg, s, ops).artifacts[id]|
    ensures var u := Run(cfg, s, ops);
            var t := Apply(cfg, u, op);
            && id in t.artifacts && i < |t.artifacts[id]|
            && var a, b := u.artifacts[id][i], t.artifacts[id][i];
               && SameContent(a, b) && a.stageGeneration <= b.stageGeneration
               && (a.stage != b.stage ==>
                     && b.stageGeneration == a.stageGeneration + 1
                     && (|| Edge(a.stage, b.stage) in u.policy.edges
                         || (op.RevokeOp? && op.id == id && b.stage == REVOKED)
                         || (op.RegisterOp? && op.registration.id == id && b.stage == SUPERSEDED)))
  {
    hide Inv, Run, Apply;
    RunKeepsInv(cfg, s, ops);
    ApplyEvolves(cfg, Run(cfg, s, ops), op);
  }

  // ----- No resurrection -----

  ghost predicate RevokedAt(s: State, id: Id, i: nat) {
    id in s.artifacts && i < |s.artifacts[id]| && s.artifacts[id][i].revocation.active
  }

  /** A revoked revision is never authoritative again. */
  lemma {:induction false} NeverResurrected(cfg: Config, s: State, ops: seq<Op>, id: Id, i: nat)
    requires Inv(cfg, s) && RevokedAt(s, id, i)
    ensures var t := Run(cfg, s, ops);
            && RevokedAt(t, id, i) && !t.artifacts[id][i].CurrentlyAuthoritative()
            && t.artifacts[id][i].revocation == s.artifacts[id][i].revocation
    decreases |ops|
  {
    hide Inv, Apply;
    if ops != [] {
      ApplyKeepsInv(cfg, s, ops[0]);
      ApplyEvolves(cfg, s, ops[0]);
      NeverResurrected(cfg, Apply(cfg, s, ops[0]), ops[1..], id, i);
    }
  }

  /** Every rule into PROMOTED carries the two trust gates. */
  ghost predicate Guarded(rules: seq<Rule>) {
    forall r :: r in rules && r.to == PROMOTED ==>
      HasGate(r, ArtifactNotQuarantined) && HasGate(r, ArtifactNotRevoked)
  }

  predicate Trusted(a: Artifact) {
    a.stage == PROMOTED ==> !a.quarantine.active && !a.revocation.active
  }

  ghost predicate AllTrusted(artifacts: map<Id, seq<Artifact>>) {
    forall id, i :: id in artifacts && 0 <= i < |artifacts[id]| ==> Trusted(artifacts[id][i])
  }

  lemma ClearedIsTrusted(rules: seq<Rule>, a: Artifact)
    requires Guarded(rules) && Cleared(rules, a)
    ensures !a.quarantine.active && !a.revocation.active
  {
  }

  lemma TrustedStep(s: State, t: State, op: Op)
    requires Guarded(s.policy.rules) && AllTrusted(s.artifacts) && Evolves(s, t, op)
    ensures AllTrusted(t.artifacts)
  {
    hide Guarded, Cleared, Licensed, Governs;
    forall id, i | id in t.artifacts && 0 <= i < |t.artifacts[id]| ensures Trusted(t.artifacts[id][i]) {
      if i < |ChainOf(s.artifacts, id)| {
        var a := s.artifacts[id][i];
        if Cleared(s.policy.rules, a) {
          ClearedIsTrusted(s.policy.rules, a);
        }
      }
    }
  }

  ghost predicate GuardsEveryPublication(ops: seq<Op>) {
    forall op :: op in ops && op.PublishOp? ==> Guarded(op.body.rules)
  }

  lemma RulesAfter(cfg: Config, s: State, op: Op)
    requires Inv(cfg, s)
    ensures Apply(cfg, s, op).policy.rules == s.policy.rules ||
            (op.PublishOp? && Apply(cfg, s, op).policy.rules == op.body.rules)
  {
    hide Inv, Register, Submit, Publish, Restart, Recover, Reload, Evaluate, Commit, DoQuarantine, DoRelease,
         DoRevoke, DoSupersede, DoRetire, DoRevokeEvidence, SetVeto, SetCompatibility, DropAll;
    match op
    case PublishOp(body, rest) => PublishRules(cfg, s, body, rest);
    case RegisterOp(registration) => RegisterProgress(cfg, s, registration);
    case CommitOp(plan, now) => CommitProgress(cfg, s, plan, now);
    case QuarantineOp(id, reason, authority) => QuarantineProgress(cfg, s, id, reason, authority);
    case ReleaseOp(id, authority, now) => ReleaseProgress(cfg, s, id, authority, now);
    case RevokeOp(id, decision, reason, authority, cause) =>
      RevokeProgress(cfg, s, id, decision, reason, authority, cause);
    case SupersedeOp(id, successor, authority) => SupersedeProgress(cfg, s, id, successor, authority);
    case RetireOp(id, authority) => RetireProgress(cfg, s, id, authority);
    case _ => ApplyElsewhere(cfg, s, op);
  }

  lemma PublishRules(cfg: Config, s: State, body: Policy, rest: nat)
    ensures Publish(cfg, s, body, rest).0.policy.rules == s.policy.rules ||
            Publish(cfg, s, body, rest).0.policy.rules == body.rules
  {
    hide Published, Policy.Valid;
    PublishedRules(cfg, s, body.(digest := body.BodyDigest(rest)));
  }

  lemma PublishedRules(cfg: Config, s: State, p: Policy)
    ensures Published(cfg, s, p).policy == p
  {
    hide Retain;
  }

  /** If every policy of a run guards its rules into PROMOTED, no revision is ever PROMOTED
      while quarantined or revoked. */
  lemma {:induction false} GuardedPromotions(cfg: Config, s: State, ops: seq<Op>)
    requires Inv(cfg, s) && Guarded(s.policy.rules) && GuardsEveryPublication(ops) && AllTrusted(s.artifacts)
    ensures AllTrusted(Run(cfg, s, ops).artifacts)
    decreases |ops|
  {
    hide Inv, Apply, Guarded, Evolves, AllTrusted;
    if ops != [] {
      ApplyKeepsInv(cfg, s, ops[0]);
      ApplyEvolves(cfg, s, ops[0]);
      TrustedStep(s, Apply(cfg, s, ops[0]), ops[0]);
      RulesAfter(cfg, s, ops[0]);
      GuardedPromotions(cfg, Apply(cfg, s, ops[0]), ops[1..]);
    }
  }

  lemma ReferenceIsGuarded()
    ensures Guarded(REFERENCE_RULES)
  {
    forall r | r in REFERENCE_RULES && r.to == PROMOTED
      ensures HasGate(r, ArtifactNotQuarantined) && HasGate(r, ArtifactNotRevoked)
    {
      PromotionRule(r);
    }
  }

  lemma PromotionRule(r: Rule)
    requires r in REFERENCE_RULES && r.to == PROMOTED
    ensures HasGate(r, ArtifactNotQuarantined) && HasGate(r, ArtifactNotRevoked)
  {
    assert r == REFERENCE_RULES[6];
    assert r.gates[2] == Simple(ArtifactNotQuarantined) && r.gates[3] == Simple(ArtifactNotRevoked);
  }

  // ----- One current revision -----

  /** All revisions of an identity but the newest are marked superseded. */
  ghost predicate OnlyNewestCurrent(artifacts: map<Id, seq<Artifact>>) {
    forall id, i :: id in artifacts && 0 <= i < |artifacts[id]| - 1 ==> artifacts[id][i].supersession.active
  }

  lemma NewestStep(s: State, t: State, op: Op)
    requires OnlyNewestCurrent(s.artifacts) && Evolves(s, t, op)
    ensures OnlyNewestCurrent(t.artifacts)
  {
    hide Cleared, Licensed, Governs;
    forall id, i | id in t.artifacts && 0 <= i < |t.artifacts[id]| - 1 ensures t.artifacts[id][i].supersession.active {
      if i < |ChainOf(s.artifacts, id)| - 1 {
        assert s.artifacts[id][i].supersession.active;
      }
    }
  }

  predicate IsCurrent(a: Artifact) { a.CurrentlyAuthoritative() && !a.supersession.active }

  /** At most one revision of an identity is authoritative and not superseded. */
  lemma {:induction false} OneCurrentRevision(cfg: Config, s: State, ops: seq<Op>, id: Id, i: nat, j: nat)
    requires Inv(cfg, s) && OnlyNewestCurrent(s.artifacts)
    ensures OnlyNewestCurrent(Run(cfg, s, ops).artifacts)
    ensures var m := Run(cfg, s, ops).artifacts;
            (id in m && i < |m[id]| && j < |m[id]| && IsCurrent(m[id][i]) && IsCurrent(m[id][j])) ==> i == j
    decreases |ops|
  {
    hide Inv, Apply, Evolves;
    if ops != [] {
      ApplyKeepsInv(cfg, s, ops[0]);
      ApplyEvolves(cfg, s, ops[0]);
      NewestStep(s, Apply(cfg, s, ops[0]), ops[0]);
      OneCurrentRevision(cfg, Apply(cfg, s, ops[0]), ops[1..], id, i, j);
    }
  }

  // ----- Evidence -----

  /** The records of one key, first to last, in force only at the end, each intact and about a
      stored revision with the digest it names. */
  ghost predicate IsHistory(s: State, key: EvidenceKey, chain: seq<Id>) {
    && IsChain(s.evidence, key, chain)
    && (forall k :: k in s.evidence && KeyOf(s.evidence[k]) == key ==> EvidenceRecordConsistent(s.artifacts, k, s.evidence[k]))
    && (chain == [] ==> Unsuperseded(s.evidence, key) == {})
    && (chain != [] ==> Unsuperseded(s.evidence, key) == {chain[|chain| - 1]})
  }

  lemma EndOfChain(evidence: map<Id, Evidence>, key: EvidenceKey, chain: seq<Id>)
    requires IsChain(evidence, key, chain)
    ensures chain == [] ==> Unsuperseded(evidence, key) == {}
    ensures chain != [] ==> Unsuperseded(evidence, key) == {chain[|chain| - 1]}
  {
    forall k | k in Unsuperseded(evidence, key) ensures chain != [] && k == chain[|chain| - 1] {
      LiveIsLast(evidence, key, chain, k);
    }
    if chain != [] {
      assert IsLink(evidence, key, chain, |chain| - 1);
    }
  }

  /** In every reachable state the records of every evidence key form one chain of supersession,
      generations 1 to n in ingestion order, and stay intact when superseded or revoked. */
  lemma EvidenceHistory(cfg: Config, s: State, ops: seq<Op>, key: EvidenceKey)
    requires Inv(cfg, s)
    ensures exists chain :: IsHistory(Run(cfg, s, ops), key, chain)
  {
    hide Inv, Run, IsChain, EvidenceRecordConsistent, Unsuperseded;
    var t := Run(cfg, s, ops);
    RunKeepsInv(cfg, s, ops);
    EvidenceFacts(cfg, t);
    assert HasChain(t.evidence, key);
    var chain :| IsChain(t.evidence, key, chain);
    EndOfChain(t.evidence, key, chain);
    assert IsHistory(t, key, chain);
  }
}
