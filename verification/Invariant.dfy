/** What every coordinator operation keeps. */
module Invariant {
  import opened Lifecycle
  import opened Ordered
  import opened Domain
  import opened Store
  import opened Gates
  import opened Steps

  // ----- Strengthening of the consistency check -----

  ghost predicate RevisionsIssued(artifacts: map<Id, seq<Artifact>>, last: Id) {
    forall id, i :: id in artifacts && 0 <= i < |artifacts[id]| ==> artifacts[id][i].revision <= last
  }

  ghost predicate EvidenceIssued(evidence: map<Id, Evidence>, last: Id, sequence: nat) {
    && DistinctSequences(evidence)
    && forall k :: k in evidence ==> k <= last && evidence[k].core.createdSequence <= sequence
  }

  /** Each plan answers one decision and is the plan its request identity is bound to. */
  ghost predicate PlansIssued(plans: map<Id, Plan>, last: Id, decisions: set<Id>, idempotency: map<Id, Idempotency>) {
    forall p :: p in plans ==>
      && p <= last && plans[p].decision in decisions
      && plans[p].request in idempotency && idempotency[plans[p].request].plan == p
  }

  ghost predicate PlansResolve(artifacts: map<Id, seq<Artifact>>, plans: map<Id, Plan>) {
    forall p :: p in plans ==> Resolves(artifacts, plans[p].artifact, plans[p].revision, plans[p].digest)
  }

  ghost predicate DecisionsIssued(decisions: set<Id>, last: Id) {
    forall d :: d in decisions ==> d <= last
  }

  ghost predicate RequestsBound(idempotency: map<Id, Idempotency>, decisions: set<Id>, lastPlan: Id) {
    forall r :: r in idempotency ==> idempotency[r].decision in decisions && idempotency[r].plan <= lastPlan
  }

  predicate Reserves(r: Pending, p: Plan) {
    && p.id == r.plan && p.artifact == r.artifact && p.revision == r.revision
    && p.from == r.from && p.to == r.to && p.stageGeneration == r.stageGeneration
    && p.request == r.request && p.attempt == r.attempt && p.authority == r.authority
  }

  /** Every reservation names its artifact, an issued plan, the request bound to that
      plan, and the authority in force. */
  ghost predicate Reservations(pending: map<Id, Pending>, plans: map<Id, Plan>, idempotency: map<Id, Idempotency>,
                               lastPlan: Id, authority: Authority)
  {
    forall id :: id in pending ==>
      && pending[id].artifact == id && 0 < pending[id].plan <= lastPlan && pending[id].authority == authority
      && pending[id].request in idempotency && idempotency[pending[id].request].plan == pending[id].plan
      && (pending[id].plan in plans ==> Reserves(pending[id], plans[pending[id].plan]))
  }

  /** The reserved revision is still where the plan saw it, unless a registration has
      superseded it or a quarantine release has returned it to CANDIDATE since. */
  predicate StageStands(r: Pending, a: Artifact) {
    || (a.stage == r.from && a.stageGeneration == r.stageGeneration)
    || (a.stage == SUPERSEDED && a.stageGeneration > r.stageGeneration)
    || (a.stage == CANDIDATE && a.stageGeneration > r.stageGeneration)
  }

  ghost predicate ReservedStages(pending: map<Id, Pending>, artifacts: map<Id, seq<Artifact>>) {
    forall id :: id in pending ==>
      var i := FindRevision(artifacts, id, pending[id].revision);
      i >= 0 && StageStands(pending[id], artifacts[id][i])
  }

  predicate IsLink(evidence: map<Id, Evidence>, key: EvidenceKey, chain: seq<Id>, i: nat)
    requires i < |chain|
  {
    && chain[i] in evidence && KeyOf(evidence[chain[i]]) == key
    && evidence[chain[i]].core.generation == i + 1
    && (evidence[chain[i]].superseded <==> i < |chain| - 1)
  }

  predicate IsStep(evidence: map<Id, Evidence>, chain: seq<Id>, i: nat)
    requires i + 1 < |chain|
  {
    && chain[i] in evidence && chain[i + 1] in evidence && evidence[chain[i]].supersededBy == chain[i + 1]
    && evidence[chain[i]].core.createdSequence < evidence[chain[i + 1]].core.createdSequence
  }

  /** The records of one evidence key: generations 1 to n, each superseded by the next. */
  ghost predicate IsChain(evidence: map<Id, Evidence>, key: EvidenceKey, chain: seq<Id>) {
    && (forall k :: k in evidence && KeyOf(evidence[k]) == key ==> k in chain)
    && (forall i :: 0 <= i < |chain| ==> IsLink(evidence, key, chain, i))
    && (forall i :: 0 <= i < |chain| - 1 ==> IsStep(evidence, chain, i))
  }

  ghost predicate HasChain(evidence: map<Id, Evidence>, key: EvidenceKey) {
    exists chain :: IsChain(evidence, key, chain)
  }

  ghost predicate EvidenceChains(evidence: map<Id, Evidence>) {
    forall key :: HasChain(evidence, key)
  }

  /** The invariant of every reachable state. */
  ghost predicate Inv(cfg: Config, s: State) {
    && cfg.Valid() && s.coordinator != 0 && s.epoch != 0 && s.policy.Sealed()
    && PolicyConsistent(s.policy, s.activePolicy, s.activeGeneration, s.activeDigest)
    && ArtifactsConsistent(s.artifacts)
    && EvidenceConsistent(s.artifacts, s.evidence)
    && PlansConsistent(s.plans)
    && DecisionsConsistent(s.decisions)
    && RecordsConsistent(s.artifacts, s.records)
    && HistoryConsistent(s.history)
    && TrustConsistent(s.artifacts, s.decisions.Keys)
    && RevisionsIssued(s.artifacts, s.gens.revision)
    && EvidenceIssued(s.evidence, s.gens.evidence, s.commitSequence)
    && PlansIssued(s.plans, s.gens.plan, s.decisions.Keys, s.idempotency)
    && PlansResolve(s.artifacts, s.plans)
    && DecisionsIssued(s.decisions.Keys, s.gens.decision)
    && RequestsBound(s.idempotency, s.decisions.Keys, s.gens.plan)
    && Reservations(s.pending, s.plans, s.idempotency, s.gens.plan, s.CurrentAuthority())
    && ReservedStages(s.pending, s.artifacts)
    && |s.pending| <= cfg.maxPending
    && EvidenceChains(s.evidence)
  }

  /** Every state with the invariant passes the consistency check, reservations or not. */
  lemma InvIsConsistent(cfg: Config, s: State)
    requires Inv(cfg, s)
    ensures Consistent(s) && Consistent(Snapshot(s))
  {
  }

  /** What a state without reservations must have beyond consistency: every identity in it was
      issued by its generators, plans and requests refer to stored decisions and revisions, and
      evidence forms its chains. */
  ghost predicate Traceable(s: State) {
    && RevisionsIssued(s.artifacts, s.gens.revision)
    && EvidenceIssued(s.evidence, s.gens.evidence, s.commitSequence)
    && PlansIssued(s.plans, s.gens.plan, s.decisions.Keys, s.idempotency)
    && PlansResolve(s.artifacts, s.plans)
    && DecisionsIssued(s.decisions.Keys, s.gens.decision)
    && RequestsBound(s.idempotency, s.decisions.Keys, s.gens.plan)
    && EvidenceChains(s.evidence)
  }

  /** For a state as it comes out of a file, the invariant is exactly that and consistency. */
  lemma InvOfLoaded(cfg: Config, s: State)
    requires s.pending == map[]
    ensures Inv(cfg, s) <==> cfg.Valid() && Consistent(s) && s.policy.Sealed() && Traceable(s)
  {
  }

  // ----- Artifact chains under update -----

  predicate SameIdentity(a: Artifact, b: Artifact) {
    a.id == b.id && a.revision == b.revision && a.generation == b.generation && a.kind == b.kind && a.digest == b.digest
  }

  /** Everything a registration declares. */
  predicate SameContent(a: Artifact, b: Artifact) {
    && SameIdentity(a, b) && b.name == a.name && b.producer == a.producer && b.provenance == a.provenance
    && b.dependencies == a.dependencies
  }

  ghost predicate ChainExtends(a: seq<Artifact>, b: seq<Artifact>) {
    |a| <= |b| && forall i :: 0 <= i < |a| ==> SameIdentity(a[i], b[i])
  }

  /** Revisions are never removed and never change identity or content. */
  ghost predicate Extends(a: map<Id, seq<Artifact>>, b: map<Id, seq<Artifact>>) {
    forall id :: id in a ==> id in b && ChainExtends(a[id], b[id])
  }

  lemma ExtendsFind(a: map<Id, seq<Artifact>>, b: map<Id, seq<Artifact>>, id: Id, revision: Id)
    requires Extends(a, b) && FindRevision(a, id, revision) >= 0
    ensures FindRevision(b, id, revision) == FindRevision(a, id, revision)
  {
    var i, j := FindRevision(a, id, revision), FindRevision(b, id, revision);
    assert forall k :: 0 <= k < |a[id]| ==> SameIdentity(a[id][k], b[id][k]);
  }

  lemma ExtendsResolves(a: map<Id, seq<Artifact>>, b: map<Id, seq<Artifact>>, id: Id, revision: Id, digest: Digest)
    requires Extends(a, b) && Resolves(a, id, revision, digest)
    ensures Resolves(b, id, revision, digest)
  {
    ExtendsFind(a, b, id, revision);
    var i := FindRevision(a, id, revision);
    assert SameIdentity(a[id][i], b[id][i]);
  }

  lemma ExtendsKeepsReferences(a: map<Id, seq<Artifact>>, b: map<Id, seq<Artifact>>,
                               evidence: map<Id, Evidence>, records: map<Id, Record>, plans: map<Id, Plan>)
    requires Extends(a, b) && EvidenceConsistent(a, evidence) && RecordsConsistent(a, records) && PlansResolve(a, plans)
    ensures EvidenceConsistent(b, evidence) && RecordsConsistent(b, records) && PlansResolve(b, plans)
  {
    hide Extends, Resolves;
    forall id | id in evidence ensures EvidenceRecordConsistent(b, id, evidence[id]) {
      var c := evidence[id].core;
      ExtendsResolves(a, b, c.subject, c.subjectRevision, c.subjectDigest);
    }
    forall id | id in records ensures RecordConsistent(b, id, records[id]) {
      ExtendsResolves(a, b, records[id].artifact, records[id].revision, records[id].digest);
    }
    forall p | p in plans ensures Resolves(b, plans[p].artifact, plans[p].revision, plans[p].digest) {
      ExtendsResolves(a, b, plans[p].artifact, plans[p].revision, plans[p].digest);
    }
  }

  lemma ExtendsKeepsTrust(a: map<Id, seq<Artifact>>, b: map<Id, seq<Artifact>>, decisions: set<Id>, more: set<Id>, x: Artifact)
    requires Extends(a, b) && decisions <= more && TrustRecordConsistent(a, decisions, x)
    ensures TrustRecordConsistent(b, more, x)
  {
    if x.supersession.active {
      ExtendsFind(a, b, x.supersession.successor, x.supersession.successorRevision);
    }
  }

  function Update(a: map<Id, seq<Artifact>>, id: Id, i: nat, x: Artifact): map<Id, seq<Artifact>>
    requires id in a && i < |a[id]|
  {
    a[id := a[id][i := x]]
  }

  /** Rewriting one revision in place keeps the chains. */
  lemma UpdateKeepsArtifacts(a: map<Id, seq<Artifact>>, id: Id, i: nat, x: Artifact, last: Id)
    requires ArtifactsConsistent(a) && RevisionsIssued(a, last) && id in a && i < |a[id]|
    requires SameIdentity(a[id][i], x) && RevisionConsistent(id, i, x)
    ensures ArtifactsConsistent(Update(a, id, i, x)) && RevisionsIssued(Update(a, id, i, x), last)
    ensures Extends(a, Update(a, id, i, x))
  {
    hide RevisionConsistent;
    var b := Update(a, id, i, x);
    assert ChainConsistent(id, a[id]);
    assert ChainConsistent(id, b[id]);
    forall k | k in b ensures ChainConsistent(k, b[k]) {
      assert k != id ==> b[k] == a[k];
    }
  }

  lemma UpdateKeepsTrust(a: map<Id, seq<Artifact>>, id: Id, i: nat, x: Artifact, decisions: set<Id>, more: set<Id>)
    requires id in a && i < |a[id]| && Extends(a, Update(a, id, i, x)) && decisions <= more
    requires TrustConsistent(a, decisions) && TrustRecordConsistent(a, more, x)
    ensures TrustConsistent(Update(a, id, i, x), more)
  {
    hide Extends, TrustRecordConsistent;
    var b := Update(a, id, i, x);
    forall k, j | k in b && 0 <= j < |b[k]| ensures TrustRecordConsistent(b, more, b[k][j]) {
      if k == id && j == i {
        ExtendsKeepsTrust(a, b, more, more, x);
      } else {
        ExtendsKeepsTrust(a, b, decisions, more, a[k][j]);
      }
    }
  }

  /** What a rewritten revision must satisfy for the whole state to stay consistent. */
  ghost predicate GoodUpdate(s: State, id: Id, i: nat, x: Artifact, decisions: set<Id>) {
    && id in s.artifacts && i < |s.artifacts[id]|
    && SameIdentity(s.artifacts[id][i], x) && RevisionConsistent(id, i, x)
    && TrustRecordConsistent(s.artifacts, decisions, x)
  }

  lemma UpdateKeepsAll(cfg: Config, s: State, id: Id, i: nat, x: Artifact, decisions: set<Id>)
    requires Inv(cfg, s) && s.decisions.Keys <= decisions && GoodUpdate(s, id, i, x, decisions)
    ensures var b := Update(s.artifacts, id, i, x);
            && ArtifactsConsistent(b) && RevisionsIssued(b, s.gens.revision) && Extends(s.artifacts, b)
            && EvidenceConsistent(b, s.evidence) && RecordsConsistent(b, s.records) && TrustConsistent(b, decisions)
            && PlansResolve(b, s.plans)
  {
    hide PlansResolve, ArtifactsConsistent, RevisionsIssued, EvidenceConsistent, RecordsConsistent, TrustConsistent, Extends,
         EvidenceChains, Reservations, ReservedStages, PlansIssued, RequestsBound;
    UpdateKeepsArtifacts(s.artifacts, id, i, x, s.gens.revision);
    ExtendsKeepsReferences(s.artifacts, Update(s.artifacts, id, i, x), s.evidence, s.records, s.plans);
    UpdateKeepsTrust(s.artifacts, id, i, x, s.decisions.Keys, decisions);
  }

  // ----- Reservations under update -----

  /** Dropping the reservation of the artifact that moves keeps the others standing. */
  lemma EraseKeepsStages(pending: map<Id, Pending>, a: map<Id, seq<Artifact>>, b: map<Id, seq<Artifact>>, id: Id)
    requires ReservedStages(pending, a) && forall k :: k in a && k != id ==> k in b && b[k] == a[k]
    ensures ReservedStages(pending - {id}, b)
  {
    forall k | k in pending - {id}
      ensures FindRevision(b, k, pending[k].revision) >= 0 &&
              StageStands(pending[k], b[k][FindRevision(b, k, pending[k].revision)])
    {
      assert FindRevision(b, k, pending[k].revision) == FindRevision(a, k, pending[k].revision);
    }
  }

  lemma FewerKeepReservations(pending: map<Id, Pending>, gone: set<Id>, plans: map<Id, Plan>,
                              idempotency: map<Id, Idempotency>, lastPlan: Id, authority: Authority, bound: nat)
    requires Reservations(pending, plans, idempotency, lastPlan, authority) && |pending| <= bound
    ensures Reservations(pending - gone, plans, idempotency, lastPlan, authority) && |pending - gone| <= bound
  {
    SubmapSize(pending, gone);
  }

  lemma SubmapSize(m: map<Id, Pending>, gone: set<Id>)
    ensures |m - gone| <= |m|
  {
    var rest := m - gone;
    assert rest.Keys <= m.Keys;
    assert m.Keys == rest.Keys + (m.Keys - rest.Keys);
    assert |rest.Keys| == |rest| && |m.Keys| == |m|;
  }

  lemma FewerKeepStages(pending: map<Id, Pending>, gone: set<Id>, a: map<Id, seq<Artifact>>)
    requires ReservedStages(pending, a)
    ensures ReservedStages(pending - gone, a)
  {
  }

  lemma RetainKeepsHistory(history: map<nat, Event>, bound: nat, e: Event)
    requires HistoryConsistent(history) && e.sequence != 0
    ensures HistoryConsistent(Retain(history, bound, e.sequence, e))
    ensures HistoryConsistent(history[e.sequence := e])
  {
  }

  lemma RetainKeepsRecords(a: map<Id, seq<Artifact>>, records: map<Id, Record>, bound: nat, r: Record)
    requires RecordsConsistent(a, records) && RecordConsistent(a, r.transition, r)
    ensures RecordsConsistent(a, Retain(records, bound, r.transition, r))
  {
    hide RecordConsistent;
  }

  lemma LaterSequence(evidence: map<Id, Evidence>, last: Id, sequence: nat, later: nat)
    requires EvidenceIssued(evidence, last, sequence) && sequence <= later
    ensures EvidenceIssued(evidence, last, later)
  {
  }
}
