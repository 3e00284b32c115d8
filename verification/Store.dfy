/** Lookups in the coordinator state and the consistency check run on every installed state. */
module Store {
  import opened Domain

  /** The position of the first revision of a chain with the given identity; -1 if none. */
  function RevisionIndex(chain: seq<Artifact>, revision: Id): (i: int)
    ensures -1 <= i < |chain|
    ensures i >= 0 ==> chain[i].revision == revision
    ensures i >= 0 ==> forall k :: 0 <= k < i ==> chain[k].revision != revision
    ensures i < 0 ==> forall k :: 0 <= k < |chain| ==> chain[k].revision != revision
  {
    if chain == [] then -1
    else if chain[0].revision == revision then 0
    else
      var i := RevisionIndex(chain[1..], revision);
      if i < 0 then -1 else i + 1
  }

  function FindRevision(artifacts: map<Id, seq<Artifact>>, id: Id, revision: Id): (i: int)
    ensures i >= 0 ==> id in artifacts && i < |artifacts[id]| && artifacts[id][i].revision == revision
    ensures i < 0 ==> id in artifacts ==> forall k :: 0 <= k < |artifacts[id]| ==> artifacts[id][k].revision != revision
  {
    if id in artifacts then RevisionIndex(artifacts[id], revision) else -1
  }

  predicate HasCurrent(artifacts: map<Id, seq<Artifact>>, id: Id) {
    id in artifacts && artifacts[id] != []
  }

  function Current(artifacts: map<Id, seq<Artifact>>, id: Id): Artifact
    requires HasCurrent(artifacts, id)
  {
    artifacts[id][|artifacts[id]| - 1]
  }

  /** A stored revision with this identity and this content digest exists. */
  predicate Resolves(artifacts: map<Id, seq<Artifact>>, id: Id, revision: Id, digest: Digest) {
    var i := FindRevision(artifacts, id, revision);
    i >= 0 && artifacts[id][i].digest == digest
  }

  // ----- The consistency check, clause by clause -----

  ghost predicate PolicyConsistent(p: Policy, id: Id, generation: nat, digest: Digest) {
    p.id == id && p.generation == generation && p.digest == digest && p.Valid()
  }

  predicate RevisionConsistent(id: Id, index: nat, a: Artifact) {
    a.Valid() && a.id == id && a.generation == index + 1 && (a.promoted ==> a.promotionDecision != 0)
  }

  predicate DistinctRevisions(chain: seq<Artifact>) {
    forall i, j :: 0 <= i < j < |chain| ==> chain[i].revision != chain[j].revision
  }

  predicate ChainConsistent(id: Id, chain: seq<Artifact>) {
    && id != 0 && chain != [] && DistinctRevisions(chain)
    && forall i :: 0 <= i < |chain| ==> RevisionConsistent(id, i, chain[i])
  }

  ghost predicate ArtifactsConsistent(artifacts: map<Id, seq<Artifact>>) {
    forall id :: id in artifacts ==> ChainConsistent(id, artifacts[id])
  }

  predicate EvidenceRecordConsistent(artifacts: map<Id, seq<Artifact>>, id: Id, e: Evidence) {
    && e.core.id == id && EvidenceValid(e)
    && Resolves(artifacts, e.core.subject, e.core.subjectRevision, e.core.subjectDigest)
    && e.integrity == IntegrityOf(e.core)
  }

  ghost predicate EvidenceConsistent(artifacts: map<Id, seq<Artifact>>, evidence: map<Id, Evidence>) {
    forall id :: id in evidence ==> EvidenceRecordConsistent(artifacts, id, evidence[id])
  }

  ghost predicate PlansConsistent(plans: map<Id, Plan>) {
    forall id :: id in plans ==> plans[id].id == id && plans[id].Valid()
  }

  ghost predicate DecisionsConsistent(decisions: map<Id, Decision>) {
    forall id :: id in decisions ==> id != 0 && decisions[id].id == id && decisions[id].outcome != NoOutcome
  }

  predicate RecordConsistent(artifacts: map<Id, seq<Artifact>>, id: Id, r: Record) {
    r.transition == id && r.Valid() && Resolves(artifacts, r.artifact, r.revision, r.digest)
  }

  ghost predicate RecordsConsistent(artifacts: map<Id, seq<Artifact>>, records: map<Id, Record>) {
    forall id :: id in records ==> RecordConsistent(artifacts, id, records[id])
  }

  ghost predicate HistoryConsistent(history: map<nat, Event>) {
    forall q :: q in history ==> q != 0 && history[q].sequence == q
  }

  predicate TrustRecordConsistent(artifacts: map<Id, seq<Artifact>>, decisions: set<Id>, a: Artifact) {
    && (a.revocation.active ==> a.revocation.decision != 0 && a.revocation.decision in decisions)
    && (a.supersession.active ==>
          FindRevision(artifacts, a.supersession.successor, a.supersession.successorRevision) >= 0)
  }

  ghost predicate TrustConsistent(artifacts: map<Id, seq<Artifact>>, decisions: set<Id>) {
    forall id, i :: id in artifacts && 0 <= i < |artifacts[id]| ==>
      TrustRecordConsistent(artifacts, decisions, artifacts[id][i])
  }

  /** What an installed state must satisfy. */
  ghost predicate Consistent(s: State) {
    && s.coordinator != 0 && s.epoch != 0
    && PolicyConsistent(s.policy, s.activePolicy, s.activeGeneration, s.activeDigest)
    && ArtifactsConsistent(s.artifacts)
    && EvidenceConsistent(s.artifacts, s.evidence)
    && PlansConsistent(s.plans)
    && DecisionsConsistent(s.decisions)
    && RecordsConsistent(s.artifacts, s.records)
    && HistoryConsistent(s.history)
    && TrustConsistent(s.artifacts, s.decisions.Keys)
  }
}
