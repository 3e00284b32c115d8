/** Each operation keeps the invariant. */
module Preservation {
  import opened Lifecycle
  import opened Ordered
  import opened Domain
  import opened Store
  import opened Gates
  import opened Steps
  import opened Invariant

  // ----- Small consequences of the invariant -----

  lemma HeaderFacts(cfg: Config, s: State)
    requires Inv(cfg, s)
    ensures s.activePolicy != 0 && s.activeGeneration != 0 && s.activeDigest != Zero && s.policy.Valid()
    ensures s.CurrentAuthority().Valid() && AuthorityId(s) != 0
  {
    hide ArtifactsConsistent, EvidenceConsistent, RecordsConsistent, TrustConsistent, EvidenceChains, Accepts;
  }

  lemma StoredRevision(cfg: Config, s: State, id: Id, i: nat)
    requires Inv(cfg, s) && id in s.artifacts && i < |s.artifacts[id]|
    ensures RevisionConsistent(id, i, s.artifacts[id][i]) && id != 0
    ensures TrustRecordConsistent(s.artifacts, s.decisions.Keys, s.artifacts[id][i])
    ensures FindRevision(s.artifacts, id, s.artifacts[id][i].revision) == i
    ensures Resolves(s.artifacts, id, s.artifacts[id][i].revision, s.artifacts[id][i].digest)
  {
    hide EvidenceConsistent, RecordsConsistent, EvidenceChains, Reservations, ReservedStages, PlansIssued,
         TrustRecordConsistent, RevisionConsistent;
    assert ChainConsistent(id, s.artifacts[id]);
    var j := FindRevision(s.artifacts, id, s.artifacts[id][i].revision);
    assert j >= 0;
  }

  lemma CurrentRevision(cfg: Config, s: State, id: Id)
    requires Inv(cfg, s) && id in s.artifacts
    ensures HasCurrent(s.artifacts, id)
  {
    assert ChainConsistent(id, s.artifacts[id]);
  }

  // ----- Operations that move one revision and drop its reservation -----

  /** The shape shared by quarantine, revocation, supersession and retirement. */
  ghost predicate MovesOne(s: State, t: State, id: Id, i: nat, x: Artifact) {
    && id in s.artifacts && i < |s.artifacts[id]|
    && s.commitSequence <= t.commitSequence
    && t == s.(artifacts := Update(s.artifacts, id, i, x), pending := s.pending - {id},
               commitSequence := t.commitSequence, history := t.history, records := t.records,
               gens := s.gens.(transition := t.gens.transition))
  }

  lemma MoveKeepsInv(cfg: Config, s: State, t: State, id: Id, i: nat, x: Artifact)
    requires Inv(cfg, s) && MovesOne(s, t, id, i, x) && GoodUpdate(s, id, i, x, s.decisions.Keys)
    requires HistoryConsistent(t.history) && RecordsConsistent(t.artifacts, t.records)
    ensures Inv(cfg, t)
  {
    hide PolicyConsistent, ArtifactsConsistent, EvidenceConsistent, PlansConsistent, DecisionsConsistent,
         RecordsConsistent, HistoryConsistent, TrustConsistent, RevisionsIssued, EvidenceIssued, PlansIssued,
         PlansResolve, DecisionsIssued, RequestsBound, Reservations, ReservedStages, EvidenceChains, GoodUpdate;
    UpdateKeepsAll(cfg, s, id, i, x, s.decisions.Keys);
    EraseKeepsStages(s.pending, s.artifacts, t.artifacts, id);
    FewerKeepReservations(s.pending, {id}, s.plans, s.idempotency, s.gens.plan, s.CurrentAuthority(), cfg.maxPending);
    LaterSequence(s.evidence, s.gens.evidence, s.commitSequence, t.commitSequence);
  }

  /** A trust record about a stored revision stays consistent after the revision moves. */
  lemma TrustRecordIsGood(cfg: Config, s: State, id: Id, i: nat, x: Artifact, to: Stage, decision: Id, request: Id,
                          attempt: Id, snapshot: Digest, sequence: nat)
    requires Inv(cfg, s) && GoodUpdate(s, id, i, x, s.decisions.Keys)
    requires to != INVALID && to != PROMOTED && snapshot != Zero && sequence != 0
    ensures var r := TrustRecord(s, s.artifacts[id][i], to, decision, request, attempt, snapshot, sequence);
            RecordsConsistent(Update(s.artifacts, id, i, x), Retain(s.records, cfg.maxRecords, r.transition, r))
  {
    HeaderFacts(cfg, s);
    StoredRevision(cfg, s, id, i);
    UpdateKeepsAll(cfg, s, id, i, x, s.decisions.Keys);
    hide PolicyConsistent, ArtifactsConsistent, EvidenceConsistent, RecordsConsistent, TrustConsistent,
         RevisionsIssued, EvidenceChains, Reservations, ReservedStages, PlansIssued, Extends, Resolves, FindRevision;
    var a := s.artifacts[id][i];
    var b := Update(s.artifacts, id, i, x);
    ExtendsResolves(s.artifacts, b, id, a.revision, a.digest);
    RetainKeepsRecords(b, s.records, cfg.maxRecords, TrustRecord(s, a, to, decision, request, attempt, snapshot, sequence));
  }

  lemma QuarantineKeepsInv(cfg: Config, s: State, id: Id)
    requires Inv(cfg, s) && HasCurrent(s.artifacts, id)
    ensures Inv(cfg, ApplyQuarantine(cfg, s, id))
  {
    hide Inv, HistoryConsistent, RecordsConsistent, FindRevision, Retain, AuthorityId;
    var last := |s.artifacts[id]| - 1;
    var a := s.artifacts[id][last];
    HeaderFacts(cfg, s);
    StoredRevision(cfg, s, id, last);
    var t := ApplyQuarantine(cfg, s, id);
    KeptHistory(cfg, s, Event(s.commitSequence + 2, Held, a.id, a.revision, a.stage, QUARANTINED));
    UpdateKeepsAll(cfg, s, id, last, Quarantined'(s, a), s.decisions.Keys);
    MoveKeepsInv(cfg, s, t, id, last, Quarantined'(s, a));
  }

  lemma KeptHistory(cfg: Config, s: State, e: Event)
    requires Inv(cfg, s) && e.sequence != 0
    ensures HistoryConsistent(Retain(s.history, cfg.maxHistory, e.sequence, e))
    ensures HistoryConsistent(s.history[e.sequence := e])
  {
    RetainKeepsHistory(s.history, cfg.maxHistory, e);
  }

  lemma RevokeKeepsInv(cfg: Config, s: State, id: Id, decision: Id, cause: Id)
    requires Inv(cfg, s) && HasCurrent(s.artifacts, id) && decision in s.decisions && decision != 0
    ensures Inv(cfg, ApplyRevoke(cfg, s, id, decision, cause))
  {
    hide Inv, HistoryConsistent, RecordsConsistent, FindRevision, Retain, AuthorityId;
    var last := |s.artifacts[id]| - 1;
    var a := s.artifacts[id][last];
    HeaderFacts(cfg, s);
    StoredRevision(cfg, s, id, last);
    var t := ApplyRevoke(cfg, s, id, decision, cause);
    var x := Revoked'(s, a, decision, cause);
    KeptHistory(cfg, s, Event(s.commitSequence + 2, TrustRevoked, a.id, a.revision, a.stage, REVOKED));
    TrustRecordIsGood(cfg, s, id, last, x, REVOKED, decision, 0, 0, a.digest, s.commitSequence + 1);
    MoveKeepsInv(cfg, s, t, id, last, x);
  }

  lemma SupersedeKeepsInv(cfg: Config, s: State, id: Id, successor: Id)
    requires Inv(cfg, s) && HasCurrent(s.artifacts, id) && HasCurrent(s.artifacts, successor)
    ensures Inv(cfg, ApplySupersede(cfg, s, id, successor))
  {
    hide Inv, HistoryConsistent, RecordsConsistent, FindRevision, Retain, AuthorityId;
    var last := |s.artifacts[id]| - 1;
    var a := s.artifacts[id][last];
    HeaderFacts(cfg, s);
    StoredRevision(cfg, s, id, last);
    StoredRevision(cfg, s, successor, |s.artifacts[successor]| - 1);
    var t := ApplySupersede(cfg, s, id, successor);
    var x := Superseded'(s, a, Current(s.artifacts, successor));
    KeptHistory(cfg, s, Event(s.commitSequence + 2, EventKind.Superseded, a.id, a.revision, a.stage, SUPERSEDED));
    TrustRecordIsGood(cfg, s, id, last, x, SUPERSEDED, a.promotionDecision, 0, 0, a.digest, s.commitSequence + 1);
    MoveKeepsInv(cfg, s, t, id, last, x);
  }

  lemma RetireKeepsInv(cfg: Config, s: State, id: Id)
    requires Inv(cfg, s) && HasCurrent(s.artifacts, id)
    ensures Inv(cfg, ApplyRetire(cfg, s, id))
  {
    hide Inv, HistoryConsistent, RecordsConsistent, FindRevision, Retain, AuthorityId;
    var last := |s.artifacts[id]| - 1;
    var a := s.artifacts[id][last];
    HeaderFacts(cfg, s);
    StoredRevision(cfg, s, id, last);
    var t := ApplyRetire(cfg, s, id);
    KeptHistory(cfg, s, Event(s.commitSequence + 2, EventKind.Retired, a.id, a.revision, a.stage, RETIRED));
    TrustRecordIsGood(cfg, s, id, last, Retired'(s, a), RETIRED, a.promotionDecision, 0, 0, a.digest, s.commitSequence + 1);
    MoveKeepsInv(cfg, s, t, id, last, Retired'(s, a));
  }

  // ----- One change at a time -----

  /** A later commit sequence with a note filed under it. */
  lemma NoteKeepsInv(cfg: Config, s: State, kind: EventKind, a: Artifact, from: Stage, to: Stage)
    requires Inv(cfg, s)
    ensures Inv(cfg, Note(s, cfg, kind, a, from, to))
  {
    hide PolicyConsistent, ArtifactsConsistent, EvidenceConsistent, PlansConsistent, DecisionsConsistent,
         RecordsConsistent, HistoryConsistent, TrustConsistent, RevisionsIssued, EvidenceIssued, PlansIssued,
         PlansResolve, DecisionsIssued, RequestsBound, Reservations, ReservedStages, EvidenceChains, Retain;
    KeptHistory(cfg, s, Event(s.commitSequence + 1, kind, a.id, a.revision, from, to));
    LaterSequence(s.evidence, s.gens.evidence, s.commitSequence, s.commitSequence + 1);
  }

  lemma MoreDecisions(s: State, more: set<Id>)
    requires s.decisions.Keys <= more
    ensures TrustConsistent(s.artifacts, s.decisions.Keys) ==> TrustConsistent(s.artifacts, more)
    ensures PlansIssued(s.plans, s.gens.plan, s.decisions.Keys, s.idempotency) ==>
            PlansIssued(s.plans, s.gens.plan, more, s.idempotency)
    ensures RequestsBound(s.idempotency, s.decisions.Keys, s.gens.plan) ==>
            RequestsBound(s.idempotency, more, s.gens.plan)
  {
    hide FindRevision;
  }

  lemma StoreDecision(decisions: map<Id, Decision>, d: Decision, last: Id)
    requires DecisionsConsistent(decisions) && d.id != 0 && d.outcome != NoOutcome
    ensures DecisionsConsistent(decisions[d.id := d])
    ensures DecisionsIssued(decisions.Keys, last) && last < d.id ==> DecisionsIssued(decisions[d.id := d].Keys, d.id)
    ensures decisions[d.id := d].Keys == decisions.Keys + {d.id}
  {
  }

  lemma DecisionKeepsInv(cfg: Config, s: State, d: Decision)
    requires Inv(cfg, s) && d.id == s.gens.decision + 1 && d.outcome != NoOutcome
    ensures Inv(cfg, WithDecision(s, d))
  {
    hide PolicyConsistent, ArtifactsConsistent, EvidenceConsistent, PlansConsistent, DecisionsConsistent,
         RecordsConsistent, HistoryConsistent, TrustConsistent, RevisionsIssued, EvidenceIssued, PlansIssued,
         PlansResolve, DecisionsIssued, RequestsBound, Reservations, ReservedStages, EvidenceChains;
    StoreDecision(s.decisions, d, s.gens.decision);
    MoreDecisions(s, s.decisions.Keys + {d.id});
  }

  /** An existing decision, and the request bound to it, are rewritten. */
  lemma RewriteKeepsInv(cfg: Config, s: State, p: Plan, d: Decision, mark: bool)
    requires Inv(cfg, s) && p.decision in s.decisions && d.id == p.decision && d.outcome != NoOutcome
    ensures Inv(cfg, s.(decisions := s.decisions[p.decision := d],
                        idempotency := if mark then MarkCommitted(s.idempotency, p) else s.idempotency))
  {
    hide PolicyConsistent, ArtifactsConsistent, EvidenceConsistent, PlansConsistent, DecisionsConsistent,
         RecordsConsistent, HistoryConsistent, TrustConsistent, RevisionsIssued, EvidenceIssued, PlansIssued,
         PlansResolve, DecisionsIssued, RequestsBound, Reservations, ReservedStages, EvidenceChains;
    StoredDecisionIds(s.decisions, p.decision);
    StoreDecision(s.decisions, d, s.gens.decision);
    assert s.decisions.Keys + {d.id} == s.decisions.Keys;
    MarkKeepsBindings(s, p);
  }

  lemma StoredDecisionIds(decisions: map<Id, Decision>, id: Id)
    requires DecisionsConsistent(decisions) && id in decisions
    ensures id != 0 && decisions[id].id == id
  {
  }

  lemma MarkKeepsBindings(s: State, p: Plan)
    requires p.decision in s.decisions
    requires PlansIssued(s.plans, s.gens.plan, s.decisions.Keys, s.idempotency)
    requires RequestsBound(s.idempotency, s.decisions.Keys, s.gens.plan)
    requires Reservations(s.pending, s.plans, s.idempotency, s.gens.plan, s.CurrentAuthority())
    ensures var m := MarkCommitted(s.idempotency, p);
            && PlansIssued(s.plans, s.gens.plan, s.decisions.Keys, m)
            && RequestsBound(m, s.decisions.Keys, s.gens.plan)
            && Reservations(s.pending, s.plans, m, s.gens.plan, s.CurrentAuthority())
  {
    hide Reserves;
  }

  lemma EraseKeepsInv(cfg: Config, s: State, gone: set<Id>)
    requires Inv(cfg, s)
    ensures Inv(cfg, s.(pending := s.pending - gone))
  {
    hide PolicyConsistent, ArtifactsConsistent, EvidenceConsistent, PlansConsistent, DecisionsConsistent,
         RecordsConsistent, HistoryConsistent, TrustConsistent, RevisionsIssued, EvidenceIssued, PlansIssued,
         PlansResolve, DecisionsIssued, RequestsBound, Reservations, ReservedStages, EvidenceChains;
    FewerKeepReservations(s.pending, gone, s.plans, s.idempotency, s.gens.plan, s.CurrentAuthority(), cfg.maxPending);
    FewerKeepStages(s.pending, gone, s.artifacts);
  }

  /** Rewriting a revision whose reservation stays: its stage is kept, or moves on to
      SUPERSEDED or CANDIDATE with a new stage generation. */
  predicate StaleMove(a: Artifact, x: Artifact) {
    || (x.stage == a.stage && x.stageGeneration == a.stageGeneration)
    || ((x.stage == SUPERSEDED || x.stage == CANDIDATE) && x.stageGeneration == a.stageGeneration + 1)
  }

  lemma UpdateKeepsStages(pending: map<Id, Pending>, a: map<Id, seq<Artifact>>, id: Id, i: nat, x: Artifact)
    requires ReservedStages(pending, a) && id in a && i < |a[id]| && Extends(a, Update(a, id, i, x))
    requires StaleMove(a[id][i], x)
    ensures ReservedStages(pending, Update(a, id, i, x))
  {
    hide Extends, FindRevision;
    var b := Update(a, id, i, x);
    forall k | k in pending
      ensures FindRevision(b, k, pending[k].revision) >= 0 &&
              StageStands(pending[k], b[k][FindRevision(b, k, pending[k].revision)])
    {
      ExtendsFind(a, b, k, pending[k].revision);
    }
  }

  lemma StaleMoveKeepsInv(cfg: Config, s: State, t: State, id: Id, i: nat, x: Artifact)
    requires Inv(cfg, s) && id in s.artifacts && i < |s.artifacts[id]|
    requires GoodUpdate(s, id, i, x, s.decisions.Keys) && StaleMove(s.artifacts[id][i], x)
    requires s.commitSequence <= t.commitSequence
    requires t == s.(artifacts := Update(s.artifacts, id, i, x), commitSequence := t.commitSequence,
                     history := t.history, records := t.records, gens := s.gens.(transition := t.gens.transition))
    requires HistoryConsistent(t.history) && RecordsConsistent(t.artifacts, t.records)
    ensures Inv(cfg, t)
  {
    hide PolicyConsistent, ArtifactsConsistent, EvidenceConsistent, PlansConsistent, DecisionsConsistent,
         RecordsConsistent, HistoryConsistent, TrustConsistent, RevisionsIssued, EvidenceIssued, PlansIssued,
         PlansResolve, DecisionsIssued, RequestsBound, Reservations, ReservedStages, EvidenceChains, GoodUpdate, Extends;
    UpdateKeepsAll(cfg, s, id, i, x, s.decisions.Keys);
    UpdateKeepsStages(s.pending, s.artifacts, id, i, x);
    LaterSequence(s.evidence, s.gens.evidence, s.commitSequence, t.commitSequence);
  }

  // ----- Quarantine release -----

  lemma InternalIdsKeepInv(cfg: Config, s: State, request: Id, attempt: Id)
    requires Inv(cfg, s)
    ensures Inv(cfg, s.(gens := s.gens.(internalRequest := request, internalAttempt := attempt)))
  {
    hide PolicyConsistent, ArtifactsConsistent, EvidenceConsistent, PlansConsistent, DecisionsConsistent,
         RecordsConsistent, HistoryConsistent, TrustConsistent, RevisionsIssued, EvidenceIssued, PlansIssued,
         PlansResolve, DecisionsIssued, RequestsBound, Reservations, ReservedStages, EvidenceChains;
  }

  lemma ReleaseKeepsInv(cfg: Config, s: State, id: Id, decision: Id, snapshot: Digest)
    requires Inv(cfg, s) && HasCurrent(s.artifacts, id) && snapshot != Zero
    ensures Inv(cfg, ApplyRelease(cfg, s, id, decision, snapshot))
  {
    hide Inv, HistoryConsistent, RecordsConsistent, FindRevision, Retain, AuthorityId;
    var last := |s.artifacts[id]| - 1;
    var a := s.artifacts[id][last];
    HeaderFacts(cfg, s);
    StoredRevision(cfg, s, id, last);
    var t := ApplyRelease(cfg, s, id, decision, snapshot);
    var x := Released'(s, a);
    KeptHistory(cfg, s, Event(s.commitSequence + 2, Released, a.id, a.revision, a.stage, CANDIDATE));
    TrustRecordIsGood(cfg, s, id, last, x, CANDIDATE, decision, s.gens.internalRequest, s.gens.internalAttempt,
                      snapshot, s.commitSequence + 1);
    StaleMoveKeepsInv(cfg, s, t, id, last, x);
  }

  // ----- Commit -----

  lemma StoredPlan(cfg: Config, s: State, p: Plan)
    requires Inv(cfg, s) && p.id in s.plans && s.plans[p.id] == p
    ensures p.decision in s.decisions && StoredDecision(s, p.decision).id == p.decision && p.decision != 0
    ensures p.request in s.idempotency && s.idempotency[p.request].plan == p.id
    ensures p.id <= s.gens.plan && p.Valid()
  {
    hide ArtifactsConsistent, EvidenceConsistent, RecordsConsistent, TrustConsistent, EvidenceChains, Reservations,
         ReservedStages, PolicyConsistent;
  }

  lemma PlanDigest(cfg: Config, s: State, p: Plan)
    requires Inv(cfg, s) && p.id in s.plans && s.plans[p.id] == p
    ensures Resolves(s.artifacts, p.artifact, p.revision, p.digest)
  {
    hide ArtifactsConsistent, EvidenceConsistent, RecordsConsistent, TrustConsistent, EvidenceChains, Reservations,
         ReservedStages, PolicyConsistent, PlansIssued, Resolves;
  }

  lemma CloseKeepsInv(cfg: Config, s: State, p: Plan, d: Decision)
    requires Inv(cfg, s) && p.id in s.plans && s.plans[p.id] == p && d.id == p.decision && d.outcome != NoOutcome
    ensures Inv(cfg, Close(s, p, d))
  {
    hide Inv;
    StoredPlan(cfg, s, p);
    RewriteKeepsInv(cfg, s, p, d, false);
    EraseKeepsInv(cfg, s.(decisions := s.decisions[p.decision := d]), {p.artifact});
  }

  /** The record a commit appends is about a stored revision with the plan's digest. */
  lemma CommitRecordIsGood(cfg: Config, s: State, p: Plan, i: nat, x: Artifact)
    requires Inv(cfg, s) && p.Valid() && GoodUpdate(s, p.artifact, i, x, s.decisions.Keys)
    requires s.artifacts[p.artifact][i].revision == p.revision && s.artifacts[p.artifact][i].digest == p.digest
    ensures var r := CommitRecord(s, p, s.artifacts[p.artifact][i]);
            RecordsConsistent(Update(s.artifacts, p.artifact, i, x), Retain(s.records, cfg.maxRecords, r.transition, r))
  {
    hide Inv, RecordsConsistent, Extends, Resolves, FindRevision, EvidenceConsistent, ArtifactsConsistent,
         TrustConsistent, RevisionsIssued;
    var a := s.artifacts[p.artifact][i];
    StoredRevision(cfg, s, p.artifact, i);
    UpdateKeepsAll(cfg, s, p.artifact, i, x, s.decisions.Keys);
    var b := Update(s.artifacts, p.artifact, i, x);
    ExtendsResolves(s.artifacts, b, p.artifact, a.revision, a.digest);
    RetainKeepsRecords(b, s.records, cfg.maxRecords, CommitRecord(s, p, a));
  }

  lemma CommittedIsGood(cfg: Config, s: State, p: Plan, i: nat)
    requires Inv(cfg, s) && p.Valid() && p.artifact in s.artifacts && i < |s.artifacts[p.artifact]|
    ensures GoodUpdate(s, p.artifact, i, Committed'(s, p, s.artifacts[p.artifact][i]), s.decisions.Keys)
  {
    hide Inv, FindRevision;
    StoredRevision(cfg, s, p.artifact, i);
  }

  /** The state with the decision and the bound request rewritten, before anything moves. */
  function Decided(s: State, p: Plan, d: Decision): State {
    s.(decisions := s.decisions[p.decision := d.(outcome := PromotionCommitted, authoritative := p.to == PROMOTED)],
       idempotency := MarkCommitted(s.idempotency, p))
  }

  function CommitEvent(s: State, p: Plan, a: Artifact): Event {
    Event(s.commitSequence + 1, if p.to == PROMOTED then Committed else Evaluated, a.id, a.revision, a.stage, p.to)
  }

  lemma ApplyPlanShape(cfg: Config, s: State, p: Plan, i: nat, d: Decision)
    requires p.artifact in s.artifacts && i < |s.artifacts[p.artifact]|
    ensures var a, t := s.artifacts[p.artifact][i], ApplyPlan(cfg, s, p, i, d);
            && MovesOne(Decided(s, p, d), t, p.artifact, i, Committed'(s, p, a))
            && t.history == Retain(s.history, cfg.maxHistory, s.commitSequence + 1, CommitEvent(s, p, a))
            && t.records == Retain(s.records, cfg.maxRecords, s.gens.transition + 1, CommitRecord(s, p, a))
  {
    hide Retain, MarkCommitted, Committed';
  }

  lemma DecidedKeepsInv(cfg: Config, s: State, p: Plan, d: Decision)
    requires Inv(cfg, s) && p.id in s.plans && s.plans[p.id] == p && d.id == p.decision
    ensures Inv(cfg, Decided(s, p, d)) && p.Valid()
  {
    hide Inv, MarkCommitted;
    StoredPlan(cfg, s, p);
    RewriteKeepsInv(cfg, s, p, d.(outcome := PromotionCommitted, authoritative := p.to == PROMOTED), true);
  }

  /** The transition applied where the decision is already rewritten. */
  lemma MovedKeepsInv(cfg: Config, s: State, t: State, p: Plan, i: nat)
    requires Inv(cfg, s) && p.Valid() && p.artifact in s.artifacts && i < |s.artifacts[p.artifact]|
    requires s.artifacts[p.artifact][i].revision == p.revision && s.artifacts[p.artifact][i].digest == p.digest
    requires var a := s.artifacts[p.artifact][i];
             && MovesOne(s, t, p.artifact, i, Committed'(s, p, a))
             && t.history == Retain(s.history, cfg.maxHistory, s.commitSequence + 1, CommitEvent(s, p, a))
             && t.records == Retain(s.records, cfg.maxRecords, s.gens.transition + 1, CommitRecord(s, p, a))
    ensures Inv(cfg, t)
  {
    hide Inv, HistoryConsistent, RecordsConsistent, Retain, GoodUpdate, Committed';
    var a := s.artifacts[p.artifact][i];
    CommittedIsGood(cfg, s, p, i);
    KeptHistory(cfg, s, CommitEvent(s, p, a));
    CommitRecordIsGood(cfg, s, p, i, Committed'(s, p, a));
    MoveKeepsInv(cfg, s, t, p.artifact, i, Committed'(s, p, a));
  }

  lemma ApplyPlanKeepsInv(cfg: Config, s: State, p: Plan, i: nat, d: Decision)
    requires Inv(cfg, s) && p.id in s.plans && s.plans[p.id] == p && d.id == p.decision
    requires p.artifact in s.artifacts && i < |s.artifacts[p.artifact]|
    requires s.artifacts[p.artifact][i].revision == p.revision && s.artifacts[p.artifact][i].digest == p.digest
    ensures Inv(cfg, ApplyPlan(cfg, s, p, i, d))
  {
    hide Inv, Retain, MarkCommitted, ApplyPlan, Committed', MovesOne;
    var a, s1 := s.artifacts[p.artifact][i], Decided(s, p, d);
    DecidedKeepsInv(cfg, s, p, d);
    SameCommitted(s, s1, p, a);
    ApplyPlanShape(cfg, s, p, i, d);
    MovedKeepsInv(cfg, s1, ApplyPlan(cfg, s, p, i, d), p, i);
  }

  lemma SameCommitted(s: State, t: State, p: Plan, a: Artifact)
    requires s.commitSequence == t.commitSequence
    ensures Committed'(s, p, a) == Committed'(t, p, a)
  {
  }

  lemma VerdictHasOutcome(cfg: Config, s: State, c: Context)
    requires Inv(cfg, s) && c.s == s
    ensures Verdict(c).outcome != NoOutcome
  {
    hide Holds, GateCode, Eligible;
    VerdictMeaning(c);
  }

  lemma RevalidateKeepsInv(cfg: Config, s: State, p: Plan, i: nat, now: nat)
    requires Inv(cfg, s) && p.id in s.plans && s.plans[p.id] == p
    requires FindRevision(s.artifacts, p.artifact, p.revision) == i
    ensures Inv(cfg, Revalidate(cfg, s, p, i, now).0)
  {
    hide Inv, Verdict, Gathered, Close, ApplyPlan, FindRevision;
    StoredPlan(cfg, s, p);
    var a := s.artifacts[p.artifact][i];
    var d := StoredDecision(s, p.decision);
    var c := ContextFor(cfg, s, a, PlanRequest(p), d.policyGeneration, now);
    VerdictHasOutcome(cfg, s, c);
    var governed := s.policy.FindRule(a.kind, a.stage, p.to) >= 0;
    var d1 := d.(kind := a.kind, from := a.stage, to := p.to, reasons := d.reasons + Verdict(c).reasons,
                 snapshot := if governed then SnapshotDigest(a, Gathered(c)) else d.snapshot);
    if SnapshotDigest(a, Gathered(c)) != p.snapshot {
      CloseKeepsInv(cfg, s, p, d1.(outcome := RevalidationRequired, reasons := d1.reasons + 1));
    } else if Verdict(c).failed {
      CloseKeepsInv(cfg, s, p, d1.(outcome := Verdict(c).outcome));
    } else if a.stage == p.to {
      CloseKeepsInv(cfg, s, p, d1.(outcome := AlreadyPromoted, authoritative := a.CurrentlyAuthoritative()));
    } else {
      PlanDigest(cfg, s, p);
      ApplyPlanKeepsInv(cfg, s, p, i, d1);
    }
  }

  lemma CommitKeepsInv(cfg: Config, s: State, p: Plan, now: nat)
    requires Inv(cfg, s)
    ensures Inv(cfg, Commit(cfg, s, p, now).0)
  {
    hide Inv, Close, FindRevision, Revalidate;
    if p.Valid() && p.id in s.plans && s.plans[p.id] == p {
      StoredPlan(cfg, s, p);
      var d := StoredDecision(s, p.decision);
      var i := FindRevision(s.artifacts, p.artifact, p.revision);
      if PolicyMoved(s, p) {
        CloseKeepsInv(cfg, s, p, d.(outcome := Outcome.Conflict, reasons := d.reasons + 1));
      } else if i < 0 {
      } else if p.hasExpiry && now > p.expires {
        CloseKeepsInv(cfg, s, p, d.(outcome := RevalidationRequired, reasons := d.reasons + 1));
      } else if p.artifact !in s.pending || s.pending[p.artifact].plan != p.id {
        RewriteKeepsInv(cfg, s, p, d.(outcome := Outcome.Conflict, reasons := d.reasons + 1), false);
      } else {
        RevalidateKeepsInv(cfg, s, p, i, now);
      }
    }
  }

  // ----- Evaluation -----

  lemma TrimmedPlans(cfg: Config, s: State)
    ensures forall p :: p in TrimPlans(s, cfg) ==> p in s.plans && TrimPlans(s, cfg)[p] == s.plans[p]
  {
  }

  lemma AllocateKeepsInv(cfg: Config, s: State)
    requires Inv(cfg, s)
    ensures Inv(cfg, Allocate(cfg, s))
  {
    hide PolicyConsistent, ArtifactsConsistent, EvidenceConsistent, DecisionsConsistent, Resolves, Reserves,
         RecordsConsistent, HistoryConsistent, TrustConsistent, RevisionsIssued, EvidenceIssued,
         DecisionsIssued, ReservedStages, EvidenceChains, TrimPlans;
    TrimmedPlans(cfg, s);
    LaterSequence(s.evidence, s.gens.evidence, s.commitSequence, s.commitSequence + 1);
  }

  /** A request identity seen for the first time is bound to its decision. */
  lemma BindKeepsInv(cfg: Config, s: State, request: Id, record: Idempotency)
    requires Inv(cfg, s) && request !in s.idempotency
    requires record.decision in s.decisions && record.plan <= s.gens.plan
    ensures Inv(cfg, s.(idempotency := s.idempotency[request := record]))
  {
    hide PolicyConsistent, ArtifactsConsistent, EvidenceConsistent, DecisionsConsistent, PlansConsistent, Reserves,
         RecordsConsistent, HistoryConsistent, TrustConsistent, RevisionsIssued, EvidenceIssued, PlansResolve,
         DecisionsIssued, ReservedStages, EvidenceChains;
  }

  /** A fresh plan with its reservation, for an artifact nobody holds. */
  ghost predicate FreshReservation(cfg: Config, s: State, p: Plan, r: Pending) {
    && p.Valid() && p.id == s.gens.plan && p.decision in s.decisions
    && p.request in s.idempotency && s.idempotency[p.request].plan == p.id
    && Reserves(r, p) && p.authority == s.CurrentAuthority()
    && (forall k :: k in s.pending ==> s.pending[k].plan != p.id)
    && p.artifact !in s.pending && |s.pending| < cfg.maxPending
    && Resolves(s.artifacts, p.artifact, p.revision, p.digest)
    && StageStands(r, s.artifacts[p.artifact][FindRevision(s.artifacts, p.artifact, p.revision)])
  }

  lemma ReserveKeepsPlans(cfg: Config, s: State, p: Plan, r: Pending)
    requires Inv(cfg, s) && FreshReservation(cfg, s, p, r)
    ensures var t := Reserve(s, p, r);
            && PlansConsistent(t.plans) && PlansResolve(t.artifacts, t.plans)
            && PlansIssued(t.plans, t.gens.plan, t.decisions.Keys, t.idempotency)
  {
    hide PolicyConsistent, ArtifactsConsistent, EvidenceConsistent, DecisionsConsistent, Reservations,
         RecordsConsistent, HistoryConsistent, TrustConsistent, RevisionsIssued, EvidenceIssued,
         DecisionsIssued, ReservedStages, EvidenceChains, RequestsBound, Resolves, FindRevision, StageStands;
  }

  lemma AddReservation(s: State, p: Plan, r: Pending)
    requires Reservations(s.pending, s.plans, s.idempotency, s.gens.plan, s.CurrentAuthority())
    requires Reserves(r, p) && 0 < p.id <= s.gens.plan && p.authority == s.CurrentAuthority()
    requires p.request in s.idempotency && s.idempotency[p.request].plan == p.id
    requires forall k :: k in s.pending ==> s.pending[k].plan != p.id
    ensures Reservations(s.pending[p.artifact := r], s.plans[p.id := p], s.idempotency, s.gens.plan, s.CurrentAuthority())
  {
  }

  lemma AddReservedStage(pending: map<Id, Pending>, a: map<Id, seq<Artifact>>, id: Id, r: Pending)
    requires ReservedStages(pending, a)
    requires FindRevision(a, id, r.revision) >= 0 && StageStands(r, a[id][FindRevision(a, id, r.revision)])
    ensures ReservedStages(pending[id := r], a)
  {
    hide FindRevision, StageStands;
  }

  lemma OneMore(pending: map<Id, Pending>, id: Id, r: Pending)
    requires id !in pending
    ensures |pending[id := r]| == |pending| + 1
  {
    var more := pending[id := r];
    assert more.Keys == pending.Keys + {id};
    assert |more.Keys| == |more| && |pending.Keys| == |pending|;
  }

  lemma ReserveKeepsReservations(cfg: Config, s: State, p: Plan, r: Pending)
    requires Inv(cfg, s) && FreshReservation(cfg, s, p, r)
    ensures var t := Reserve(s, p, r);
            && Reservations(t.pending, t.plans, t.idempotency, t.gens.plan, t.CurrentAuthority())
            && ReservedStages(t.pending, t.artifacts) && |t.pending| <= cfg.maxPending
  {
    hide PolicyConsistent, ArtifactsConsistent, EvidenceConsistent, DecisionsConsistent, PlansConsistent,
         RecordsConsistent, HistoryConsistent, TrustConsistent, RevisionsIssued, EvidenceIssued, PlansIssued,
         PlansResolve, DecisionsIssued, EvidenceChains, RequestsBound, FindRevision, StageStands, Reservations,
         ReservedStages;
    AddReservation(s, p, r);
    AddReservedStage(s.pending, s.artifacts, p.artifact, r);
    OneMore(s.pending, p.artifact, r);
  }

  lemma ReserveKeepsInv(cfg: Config, s: State, p: Plan, r: Pending)
    requires Inv(cfg, s) && FreshReservation(cfg, s, p, r)
    ensures Inv(cfg, Reserve(s, p, r))
  {
    hide PolicyConsistent, ArtifactsConsistent, EvidenceConsistent, PlansConsistent, DecisionsConsistent,
         RecordsConsistent, HistoryConsistent, TrustConsistent, RevisionsIssued, EvidenceIssued, PlansIssued,
         PlansResolve, DecisionsIssued, RequestsBound, Reservations, ReservedStages, EvidenceChains, FreshReservation;
    ReserveKeepsPlans(cfg, s, p, r);
    ReserveKeepsReservations(cfg, s, p, r);
  }

  /** A request that reaches the gates was never seen before, so a reservation on its
      artifact is always somebody else's. */
  lemma NewRequest(cfg: Config, s: State, req: Request)
    requires Inv(cfg, s)
    requires req.request in s.idempotency ==> s.idempotency[req.request].decision !in s.decisions
    ensures req.request !in s.idempotency
    ensures req.artifact in s.pending ==> HeldByOther(s, req)
    ensures forall k :: k in s.pending ==> s.pending[k].plan <= s.gens.plan && s.pending[k].request != req.request
  {
    hide PolicyConsistent, ArtifactsConsistent, EvidenceConsistent, PlansConsistent, DecisionsConsistent,
         RecordsConsistent, HistoryConsistent, TrustConsistent, RevisionsIssued, EvidenceIssued, PlansIssued,
         PlansResolve, DecisionsIssued, ReservedStages, EvidenceChains, Reserves;
  }

  /** The state after filing a decision that issued no plan. */
  lemma FileKeepsInv(cfg: Config, s: State, a: Artifact, req: Request, d: Decision)
    requires Inv(cfg, s) && req.request !in s.idempotency
    requires d.id == s.gens.decision + 1 && d.outcome != NoOutcome && d.plan == 0
    ensures Inv(cfg, FileDecision(cfg, s, a, req, d))
  {
    hide Inv, Note;
    var t := WithDecision(s, d);
    DecisionKeepsInv(cfg, s, d);
    var record := Idempotency(req.request, req.attempt, d.id, d.outcome, d.plan, req.ContentDigest());
    BindKeepsInv(cfg, t, req.request, record);
    NoteKeepsInv(cfg, t.(idempotency := t.idempotency[req.request := record]),
                 if Succeeded(d.outcome) then Evaluated else EventKind.Rejected, a, a.stage, req.stage);
  }

  /** The same with a granted reservation: the plan is new, and its artifact was free. */
  lemma IssueKeepsInv(cfg: Config, s: State, a: Artifact, req: Request, d: Decision, now: nat)
    requires Inv(cfg, s) && req.WellFormed() && req.request !in s.idempotency
    requires req.artifact !in s.pending && |s.pending| < cfg.maxPending
    requires forall k :: k in s.pending ==> s.pending[k].plan <= s.gens.plan
    requires FindRevision(s.artifacts, req.artifact, req.revision) >= 0
    requires a == s.artifacts[req.artifact][FindRevision(s.artifacts, req.artifact, req.revision)]
    requires d.id == s.gens.decision + 1 && d.sequence != 0 && d.outcome != NoOutcome && d.snapshot != Zero
    ensures var p := NewPlan(cfg, s, a, req, d, now);
            Inv(cfg, FileDecision(cfg, Reserve(Allocate(cfg, s), p, NewPending(s, p)), a, req, d.(plan := p.id)))
  {
    hide Inv, Note, FindRevision, TrimPlans, AuthorityId;
    var p := NewPlan(cfg, s, a, req, d, now);
    var d1 := d.(plan := p.id);
    HeaderFacts(cfg, s);
    StoredRevision(cfg, s, req.artifact, FindRevision(s.artifacts, req.artifact, req.revision));
    AllocateKeepsInv(cfg, s);
    var t := WithDecision(Allocate(cfg, s), d1);
    DecisionKeepsInv(cfg, Allocate(cfg, s), d1);
    var record := Idempotency(req.request, req.attempt, d1.id, d1.outcome, d1.plan, req.ContentDigest());
    var u := t.(idempotency := t.idempotency[req.request := record]);
    BindKeepsInv(cfg, t, req.request, record);
    ReserveKeepsInv(cfg, u, p, NewPending(s, p));
    NoteKeepsInv(cfg, Reserve(u, p, NewPending(s, p)),
                 if Succeeded(d1.outcome) then Evaluated else EventKind.Rejected, a, a.stage, req.stage);
  }
}
