/** What each coordinator operation does to the state, as one critical section. */
module Steps {
  import opened Lifecycle
  import opened Ordered
  import opened Domain
  import opened Store
  import opened Gates

  datatype Error =
    | InvalidArgument | ShuttingDown | AdmissionBound | ContentConflict | AlreadyExists | NotFound | WrongDigest
    | StaleCoordinator | IllegalTransition | NotAdvancing | PlanUnknown | PlanAltered | DecisionUnknown
    | EvidenceUnknown | RequestReused

  datatype Result<T> = Success(value: T) | Failure(error: Error)

  function WithArtifact(s: State, id: Id, i: nat, a: Artifact): State
    requires id in s.artifacts && i < |s.artifacts[id]|
  {
    s.(artifacts := s.artifacts[id := s.artifacts[id][i := a]])
  }

  /** The next commit sequence is taken and an event filed under it. */
  function Note(s: State, cfg: Config, kind: EventKind, a: Artifact, from: Stage, to: Stage): State {
    s.(commitSequence := s.commitSequence + 1,
       history := Retain(s.history, cfg.maxHistory, s.commitSequence + 1,
                         Event(s.commitSequence + 1, kind, a.id, a.revision, from, to)))
  }

  function WithRecord(s: State, cfg: Config, r: Record): State {
    s.(records := Retain(s.records, cfg.maxRecords, r.transition, r),
       gens := s.gens.(transition := r.transition))
  }

  // ----- Registration -----

  ghost predicate DigestClash(artifacts: map<Id, seq<Artifact>>, digest: Digest, kind: ArtifactKind) {
    exists id, i :: id in artifacts && 0 <= i < |artifacts[id]| &&
                    artifacts[id][i].digest == digest && artifacts[id][i].kind != kind
  }

  function ChainOf(artifacts: map<Id, seq<Artifact>>, id: Id): seq<Artifact> {
    if id in artifacts then artifacts[id] else []
  }

  function NewRevision(reg: Registration, revision: Id, generation: nat, entry: Stage, sequence: nat): Artifact {
    Artifact(reg.id, revision, generation, reg.kind, reg.digest, reg.name, reg.producer,
             reg.provenance, SortedNames(reg.dependencies), entry, 1, false, 0, 0, sequence,
             Quarantine(false, 0, 0), Revocation(false, 0, 0, 0, 0), Supersession(false, 0, 0, 0, 0))
  }

  /** The previous revision is no longer current; its stage moves unless it is already final. */
  function Outdated(previous: Artifact, revision: Id, authority: Id, sequence: nat): Artifact {
    var p := previous.(supersession := Supersession(true, previous.id, revision, authority, sequence),
                       lastSequence := sequence);
    if p.stage == PROMOTED || p.stage == REVOKED || p.stage == RETIRED then p
    else p.(stage := SUPERSEDED, stageGeneration := p.stageGeneration + 1)
  }

  function OutdatePrevious(s: State, id: Id, revision: Id): State
    requires id in s.artifacts && s.artifacts[id] != []
  {
    var last := |s.artifacts[id]| - 1;
    var p := Outdated(s.artifacts[id][last], revision, AuthorityId(s), s.commitSequence + 1);
    WithArtifact(s, id, last, p).(
      commitSequence := s.commitSequence + 1,
      history := s.history[s.commitSequence + 1 :=
        Event(s.commitSequence + 1, SupersededByRegistration, p.id, p.revision, p.stage, p.stage)])
  }

  function AppendRevision(s: State, cfg: Config, reg: Registration, revision: Id): State {
    var chain := ChainOf(s.artifacts, reg.id);
    var a := NewRevision(reg, revision, |chain| + 1, s.policy.entry, s.commitSequence + 1);
    Note(s.(artifacts := s.artifacts[reg.id := chain + [a]], artifactGeneration := s.artifactGeneration + 1),
         cfg, Registered, a, INVALID, a.stage)
  }

  /** The checks made before a registration takes its revision identity. */
  ghost predicate Admitted(cfg: Config, s: State, reg: Registration) {
    && reg.Valid() && (reg.id in s.artifacts || |s.artifacts| < cfg.maxArtifacts)
    && !DigestClash(s.artifacts, reg.digest, reg.kind)
  }

  ghost function Register(cfg: Config, s: State, reg: Registration): (State, Result<Id>) {
    if !reg.Valid() then (s, Failure(InvalidArgument))
    else if reg.id !in s.artifacts && |s.artifacts| >= cfg.maxArtifacts then (s, Failure(AdmissionBound))
    else if DigestClash(s.artifacts, reg.digest, reg.kind) then (s, Failure(ContentConflict))
    else
      // The revision identity is taken before the last two checks.
      var revision := s.gens.revision + 1;
      var t := s.(gens := s.gens.(revision := revision));
      var chain := ChainOf(s.artifacts, reg.id);
      if |chain| >= cfg.maxRevisions then (t, Failure(AdmissionBound))
      else if chain != [] && chain[|chain| - 1].digest == reg.digest then (t, Failure(AlreadyExists))
      else
        var u := if chain == [] then t else OutdatePrevious(t, reg.id, revision);
        (AppendRevision(u, cfg, reg, revision), Success(revision))
  }

  // ----- Evidence -----

  function SubmissionKey(sub: Submission): EvidenceKey {
    EvidenceKey(sub.subject, sub.subjectRevision, sub.kind, sub.custom, sub.producer)
  }

  /** The un-superseded records of a key. */
  function Unsuperseded(evidence: map<Id, Evidence>, key: EvidenceKey): set<Id> {
    set k | k in evidence && KeyOf(evidence[k]) == key && !evidence[k].superseded
  }

  function AboutSubject(evidence: map<Id, Evidence>, subject: Id, revision: Id): set<Id> {
    set k | k in evidence && evidence[k].core.subject == subject && evidence[k].core.subjectRevision == revision
  }

  function NewEvidence(sub: Submission, id: Id, generation: nat, sequence: nat): Evidence {
    var core := EvidenceCore(id, sub.kind, sub.custom, generation, sub.subject, sub.subjectDigest, sub.subjectRevision,
                             sub.producer, sub.result, sub.confidence, sub.payload, sequence, sub.producedMillis,
                             sub.hasWindow, sub.validFrom, sub.validUntil, sub.environment, false);
    Evidence(core, IntegrityOf(core), 0, 0, false, 0)
  }

  function SubjectEvent(sequence: nat, kind: EventKind, e: Evidence): Event {
    Event(sequence, kind, e.core.subject, e.core.subjectRevision, INVALID, INVALID)
  }

  /** Stores a first record of its key. */
  function StoreFirst(s: State, cfg: Config, sub: Submission): State {
    var e := NewEvidence(sub, s.gens.evidence + 1, 1, s.commitSequence + 1);
    s.(gens := s.gens.(evidence := e.core.id), commitSequence := s.commitSequence + 1,
       evidence := s.evidence[e.core.id := e],
       history := Retain(s.history, cfg.maxHistory, s.commitSequence + 1,
                         SubjectEvent(s.commitSequence + 1, EvidenceSubmitted, e)))
  }

  /** The record `x` is added and the one it replaces points at it. */
  function Relinked(evidence: map<Id, Evidence>, previous: Id, x: Evidence): map<Id, Evidence>
    requires previous in evidence
  {
    evidence[previous := evidence[previous].(superseded := true, supersededBy := x.core.id)][x.core.id := x]
  }

  /** Stores the next generation of a key and points the record it replaces at it. */
  function StoreReplacement(s: State, cfg: Config, sub: Submission, previous: Id): State
    requires previous in s.evidence
  {
    var e := NewEvidence(sub, s.gens.evidence + 1, s.evidence[previous].core.generation + 1, s.commitSequence + 1);
    var h := Retain(s.history, cfg.maxHistory, s.commitSequence + 2,
                    SubjectEvent(s.commitSequence + 2, EvidenceReplaced, e));
    s.(gens := s.gens.(evidence := e.core.id), commitSequence := s.commitSequence + 2,
       evidence := Relinked(s.evidence, previous, e),
       history := Retain(h, cfg.maxHistory, s.commitSequence + 1,
                         SubjectEvent(s.commitSequence + 1, EvidenceSubmitted, e)))
  }

  ghost function Submit(cfg: Config, s: State, sub: Submission): (State, Result<Id>) {
    if !sub.Valid() then (s, Failure(InvalidArgument))
    else if FindRevision(s.artifacts, sub.subject, sub.subjectRevision) < 0 then (s, Failure(NotFound))
    else if !Resolves(s.artifacts, sub.subject, sub.subjectRevision, sub.subjectDigest) then (s, Failure(WrongDigest))
    else
      var previous := Unsuperseded(s.evidence, SubmissionKey(sub));
      if previous != {} then
        (StoreReplacement(s, cfg, sub, MinKey(previous)), Success(s.gens.evidence + 1))
      else if |s.evidence| >= cfg.maxEvidence ||
              |AboutSubject(s.evidence, sub.subject, sub.subjectRevision)| >= cfg.maxEvidencePerRevision
      then (s, Failure(AdmissionBound))
      else (StoreFirst(s, cfg, sub), Success(s.gens.evidence + 1))
  }

  // ----- Policy, epochs, recovery -----

  function WithPolicy(s: State, p: Policy): State {
    s.(activePolicy := p.id, activeGeneration := p.generation, activeDigest := p.digest, policy := p)
  }

  function Published(cfg: Config, s: State, p: Policy): State {
    var t := WithPolicy(s, p);
    t.(commitSequence := t.commitSequence + 1,
       history := Retain(t.history, cfg.maxHistory, t.commitSequence + 1,
                         Event(t.commitSequence + 1, PolicyPublished, 0, 0, INVALID, INVALID)))
  }

  /** `rest` stands for the part of the digested body after the graph. */
  ghost function Publish(cfg: Config, s: State, body: Policy, rest: nat): (State, Result<nat>) {
    if !body.Valid() then (s, Failure(InvalidArgument))
    else if body.id == s.activePolicy && body.generation <= s.activeGeneration then (s, Failure(ContentConflict))
    else
      (Published(cfg, s, body.(digest := body.BodyDigest(rest))),
       Success(body.generation))
  }

  /** Drops the first reservation with a recovery note; the note is filed without a bound. */
  function DropFirst(s: State): State
    requires s.pending != map[]
  {
    var id := MinKey(s.pending.Keys);
    s.(commitSequence := s.commitSequence + 1, pending := s.pending - {id},
       history := s.history[s.commitSequence + 1 :=
         Event(s.commitSequence + 1, RecoveryNote, id, s.pending[id].revision, INVALID, INVALID)])
  }

  ghost function DropAll(s: State): (t: State)
    ensures t.pending == map[]
    decreases |s.pending|
  {
    if s.pending == map[] then s else DropAll(DropFirst(s))
  }

  ghost function Restart(s: State, epoch: nat): (State, Result<nat>) {
    if epoch <= s.epoch then (s, Failure(NotAdvancing))
    else (DropAll(s.(epoch := epoch)), Success(epoch))
  }

  ghost function Recover(s: State): State { DropAll(s) }

  /** Reservations and the internal generators are not part of a snapshot. */
  function Snapshot(s: State): State {
    s.(pending := map[], gens := s.gens.(internalRequest := WORD, internalAttempt := WORD))
  }

  ghost function Install(s: State, loaded: State): (State, Result<nat>) {
    var t := loaded.(pending := map[]);
    if Consistent(t) then (t, Success(t.epoch)) else (s, Failure(InvalidArgument))
  }

  /** The internal request generator comes back from a file moved past client requests of its salt. */
  function Resumed(s: State, requests: Id): State { s.(gens := s.gens.(internalRequest := requests)) }

  /** A new incarnation over the engine's own snapshot, as a file gives it back: the epoch advances first. */
  ghost function Reload(s: State, requests: Id): State {
    var loaded := Resumed(Snapshot(s), requests);
    Recover(Install(s, loaded.(epoch := loaded.epoch + 1)).0)
  }

  // ----- Evaluation: a plan and a reservation -----

  datatype Evaluation = Evaluation(decision: Decision, hasPlan: bool, plan: Plan)

  function BaseDecision(s: State, req: Request): Decision {
    Decision(s.gens.decision + 1, req.request, req.attempt, req.artifact, req.revision, 0, INVALID, req.stage, NoOutcome,
             s.activeGeneration, s.CurrentAuthority(), s.decisionSequence + 1, Zero, 0, false, 0)
  }

  /** The decision about a revision whose gates were evaluated. */
  function JudgedDecision(s: State, req: Request, a: Artifact, verdict: GateOutcome, snapshot: Digest): Decision {
    BaseDecision(s, req).(kind := a.kind, from := a.stage, outcome := verdict.outcome, reasons := verdict.reasons,
                          snapshot := snapshot)
  }

  function NO_PLAN(): Plan {
    Plan(0, 0, 0, 0, 0, 0, 0, Zero, 0, INVALID, INVALID, 0, 0, 0, Zero, Zero, Authority(0, 0), Zero, 0, 0, 0, 0, false, 0)
  }

  function WithDecision(s: State, d: Decision): State {
    s.(decisions := s.decisions[d.id := d], gens := s.gens.(decision := d.id), decisionSequence := d.sequence)
  }

  function SnapshotDigest(a: Artifact, entries: set<Entry>): Digest {
    SnapshotOf(a.id, a.revision, a.digest, entries)
  }

  function NewPlan(cfg: Config, s: State, a: Artifact, req: Request, d: Decision, now: nat): Plan {
    Plan(s.gens.plan + 1, req.request, req.attempt, d.id,
         a.id, a.revision, a.generation, a.digest, a.kind, a.stage, req.stage, a.stageGeneration,
         s.activePolicy, s.activeGeneration, s.activeDigest, GraphOf(s.policy.edges),
         s.CurrentAuthority(), d.snapshot, s.compatibility,
         a.lastSequence, s.commitSequence + 1, d.sequence, cfg.planTtl > 0, now + cfg.planTtl)
  }

  function NewPending(s: State, p: Plan): Pending {
    Pending(s.gens.reservation + 1, p.artifact, p.revision, p.stageGeneration, p.from, p.to,
            p.id, p.request, p.attempt, p.authority)
  }

  /** Room for one more plan is made before the reservation bound is checked. */
  function TrimPlans(s: State, cfg: Config): map<Id, Plan> {
    if |s.plans| >= cfg.maxPlans && s.plans != map[] then s.plans - {MinKey(s.plans.Keys)} else s.plans
  }

  /** Identities and the creation sequence are taken whether or not the reservation is granted. */
  function Allocate(cfg: Config, s: State): State {
    s.(plans := TrimPlans(s, cfg), commitSequence := s.commitSequence + 1,
       gens := s.gens.(plan := s.gens.plan + 1, reservation := s.gens.reservation + 1))
  }

  function Reserve(s: State, p: Plan, r: Pending): State {
    s.(plans := s.plans[p.id := p], pending := s.pending[p.artifact := r])
  }

  predicate HeldByOther(s: State, req: Request) {
    req.artifact in s.pending &&
    !(s.pending[req.artifact].request == req.request && s.pending[req.artifact].attempt == req.attempt)
  }

  function ContextFor(cfg: Config, s: State, a: Artifact, req: Request, generation: nat, now: nat): Context {
    Context(s, cfg.futureSkew, a, req, generation, now)
  }

  /** The state and answer of an evaluation whose gates all passed. */
  function Granted(cfg: Config, s: State, a: Artifact, req: Request, d: Decision, now: nat): (State, Evaluation) {
    var p := NewPlan(cfg, s, a, req, d, now);
    if |s.pending| < cfg.maxPending || a.id in s.pending then
      (Reserve(Allocate(cfg, s), p, NewPending(s, p)), Evaluation(d.(plan := p.id), true, p))
    else
      (Allocate(cfg, s), Evaluation(d.(outcome := AdmissionRejected, reasons := d.reasons + 1), false, NO_PLAN()))
  }

  /** The state and evaluation once the outcome is known, before the decision is filed. */
  ghost function Judge(cfg: Config, s: State, a: Artifact, req: Request, now: nat): (State, Evaluation) {
    var d := BaseDecision(s, req).(kind := a.kind, from := a.stage);
    var c := ContextFor(cfg, s, a, req, s.activeGeneration, now);
    if a.stage == req.stage then
      (s, Evaluation(d.(outcome := if a.CurrentlyAuthoritative() then AlreadyPromoted else TransitionIllegal,
                        authoritative := a.CurrentlyAuthoritative(), reasons := 1), false, NO_PLAN()))
    else if Edge(a.stage, req.stage) !in s.policy.edges && s.policy.FindRule(a.kind, a.stage, req.stage) < 0 then
      (s, Evaluation(d.(outcome := TransitionIllegal, reasons := 1), false, NO_PLAN()))
    else if HeldByOther(s, req) then
      (s, Evaluation(d.(outcome := Outcome.Conflict, reasons := 1), false, NO_PLAN()))
    else
      var snapshot := if s.policy.FindRule(a.kind, a.stage, req.stage) < 0 then Zero
                      else SnapshotDigest(a, Gathered(c));
      var d1 := JudgedDecision(s, req, a, Verdict(c), snapshot);
      if Verdict(c).failed then (s, Evaluation(d1, false, NO_PLAN()))
      else
        Granted(cfg, s, a, req, d1, now)
  }

  function Succeeded(o: Outcome): bool { o == PromotionEligible || o == PromotionCommitted || o == AlreadyPromoted }

  /** Files the decision, binds the request identity to it and notes the evaluation. */
  function FileDecision(cfg: Config, s: State, a: Artifact, req: Request, d: Decision): State {
    var t := WithDecision(s, d);
    Note(t.(idempotency := t.idempotency[req.request :=
              Idempotency(req.request, req.attempt, d.id, d.outcome, d.plan, req.ContentDigest())]),
         cfg, if Succeeded(d.outcome) then Evaluated else EventKind.Rejected, a, a.stage, req.stage)
  }

  ghost function Evaluate(cfg: Config, s: State, req: Request, now: nat): (State, Result<Evaluation>) {
    if !req.WellFormed() then (s, Failure(InvalidArgument))
    else if req.request in s.idempotency && s.idempotency[req.request].digest != req.ContentDigest() then
      (s, Failure(RequestReused))
    else if req.request in s.idempotency && s.idempotency[req.request].decision in s.decisions then
      (s, Success(Evaluation(s.decisions[s.idempotency[req.request].decision], false, NO_PLAN())))
    else
      var i := FindRevision(s.artifacts, req.artifact, req.revision);
      if i < 0 then
        var d := BaseDecision(s, req).(outcome := ArtifactNotFound, reasons := 1);
        (WithDecision(s, d), Success(Evaluation(d, false, NO_PLAN())))
      else
        var a := s.artifacts[req.artifact][i];
        if a.digest != req.digest then
          var d := BaseDecision(s, req).(outcome := DigestMismatch, kind := a.kind, from := a.stage, reasons := 1);
          (WithDecision(s, d), Success(Evaluation(d, false, NO_PLAN())))
        else
          var (t, e) := Judge(cfg, s, a, req, now);
          (FileDecision(cfg, t, a, req, e.decision), Success(e))
  }

  // ----- Commit: revalidate and apply -----

  datatype Commitment = Commitment(outcome: Outcome, hasRecord: bool, record: Record)

  function NO_RECORD(): Record {
    Record(0, 0, 0, Zero, INVALID, INVALID, 0, 0, 0, 0, 0, 0, Authority(0, 0), Zero, 0)
  }

  function StoredDecision(s: State, id: Id): Decision {
    if id in s.decisions then s.decisions[id]
    else Decision(0, 0, 0, 0, 0, 0, INVALID, INVALID, NoOutcome, 0, Authority(0, 0), 0, Zero, 0, false, 0)
  }

  function PlanRequest(p: Plan): Request {
    Request(p.artifact, p.revision, p.digest, p.to, p.request, p.attempt, p.authority)
  }

  predicate PolicyMoved(s: State, p: Plan) {
    s.policy.digest != p.policyDigest || s.activeGeneration != p.policyGeneration ||
    GraphOf(s.policy.edges) != p.lifecycleDigest
  }

  /** The plan as this coordinator issued it. */
  predicate Known(s: State, p: Plan) { p.Valid() && p.id in s.plans && s.plans[p.id] == p }

  function Close(s: State, p: Plan, d: Decision): State {
    s.(decisions := s.decisions[p.decision := d], pending := s.pending - {p.artifact})
  }

  function Committed'(s: State, p: Plan, a: Artifact): Artifact {
    var b := a.(stage := p.to, stageGeneration := a.stageGeneration + 1, lastSequence := s.commitSequence + 1);
    if p.to == PROMOTED then
      b.(promoted := true, promotionDecision := p.decision, promotionSequence := s.commitSequence + 1)
    else b
  }

  function CommitRecord(s: State, p: Plan, a: Artifact): Record {
    Record(s.gens.transition + 1, p.artifact, p.revision, p.digest, a.stage, p.to, p.decision, p.id, p.request,
           p.attempt, p.policy, p.policyGeneration, p.authority, p.snapshot, s.commitSequence + 1)
  }

  function MarkCommitted(idempotency: map<Id, Idempotency>, p: Plan): map<Id, Idempotency> {
    if p.request in idempotency then
      idempotency[p.request := idempotency[p.request].(outcome := PromotionCommitted, decision := p.decision)]
    else idempotency
  }

  /** The transition itself. */
  function ApplyPlan(cfg: Config, s: State, p: Plan, i: nat, d: Decision): State
    requires p.artifact in s.artifacts && i < |s.artifacts[p.artifact]|
  {
    var a := s.artifacts[p.artifact][i];
    var t := WithRecord(WithArtifact(s, p.artifact, i, Committed'(s, p, a)), cfg, CommitRecord(s, p, a));
    var u := Close(t, p, d.(outcome := PromotionCommitted, authoritative := p.to == PROMOTED));
    Note(u.(idempotency := MarkCommitted(u.idempotency, p)), cfg,
         if p.to == PROMOTED then Committed else Evaluated, a, a.stage, p.to)
  }

  ghost function Revalidate(cfg: Config, s: State, p: Plan, i: nat, now: nat): (State, Commitment)
    requires p.artifact in s.artifacts && i < |s.artifacts[p.artifact]|
  {
    var a := s.artifacts[p.artifact][i];
    var d := StoredDecision(s, p.decision);
    var c := ContextFor(cfg, s, a, PlanRequest(p), d.policyGeneration, now);
    var governed := s.policy.FindRule(a.kind, a.stage, p.to) >= 0;
    var d1 := d.(kind := a.kind, from := a.stage, to := p.to, reasons := d.reasons + Verdict(c).reasons,
                 snapshot := if governed then SnapshotDigest(a, Gathered(c)) else d.snapshot);
    if SnapshotDigest(a, Gathered(c)) != p.snapshot then
      (Close(s, p, d1.(outcome := RevalidationRequired, reasons := d1.reasons + 1)),
       Commitment(NoOutcome, false, NO_RECORD()))
    else if Verdict(c).failed then
      (Close(s, p, d1.(outcome := Verdict(c).outcome)), Commitment(Verdict(c).outcome, false, NO_RECORD()))
    else if a.stage == p.to then
      (Close(s, p, d1.(outcome := AlreadyPromoted, authoritative := a.CurrentlyAuthoritative())),
       Commitment(AlreadyPromoted, false, NO_RECORD()))
    else
      (ApplyPlan(cfg, s, p, i, d1), Commitment(PromotionCommitted, true, CommitRecord(s, p, a)))
  }

  ghost function Commit(cfg: Config, s: State, p: Plan, now: nat): (State, Result<Commitment>) {
    if !p.Valid() then (s, Failure(InvalidArgument))
    else if p.id !in s.plans then (s, Failure(PlanUnknown))
    else if s.plans[p.id] != p then (s, Failure(PlanAltered))
    else
      var d := StoredDecision(s, p.decision);
      if PolicyMoved(s, p) then
        (Close(s, p, d.(outcome := Outcome.Conflict, reasons := d.reasons + 1)),
         Success(Commitment(Outcome.Conflict, false, NO_RECORD())))
      else
        var i := FindRevision(s.artifacts, p.artifact, p.revision);
        if i < 0 then (s, Success(Commitment(ArtifactNotFound, false, NO_RECORD())))
        else if p.hasExpiry && now > p.expires then
          (Close(s, p, d.(outcome := RevalidationRequired, reasons := d.reasons + 1)),
           Success(Commitment(RevalidationRequired, false, NO_RECORD())))
        else if p.artifact !in s.pending || s.pending[p.artifact].plan != p.id then
          (s.(decisions := s.decisions[p.decision := d.(outcome := Outcome.Conflict, reasons := d.reasons + 1)]),
           Success(Commitment(Outcome.Conflict, false, NO_RECORD())))
        else
          var (t, r) := Revalidate(cfg, s, p, i, now);
          (t, Success(r))
  }

  // ----- Trust operations on the current revision -----

  datatype Mutation = Mutation(outcome: Outcome, hasRecord: bool, record: Record)

  function Unchanged(o: Outcome): Mutation { Mutation(o, false, NO_RECORD()) }

  predicate Foreign(s: State, authority: Authority) {
    authority.Valid() && authority.coordinator != s.coordinator
  }

  function WithCurrent(s: State, id: Id, a: Artifact): State
    requires HasCurrent(s.artifacts, id)
  {
    WithArtifact(s, id, |s.artifacts[id]| - 1, a)
  }

  function Quarantined'(s: State, a: Artifact): Artifact {
    a.(quarantine := Quarantine(true, AuthorityId(s), s.commitSequence + 1),
       lastSequence := s.commitSequence + 1, stage := QUARANTINED, stageGeneration := a.stageGeneration + 1)
  }

  function ApplyQuarantine(cfg: Config, s: State, id: Id): State
    requires HasCurrent(s.artifacts, id)
  {
    var a := Current(s.artifacts, id);
    var t := WithCurrent(s, id, Quarantined'(s, a)).(pending := s.pending - {id},
                                                     commitSequence := s.commitSequence + 1);
    Note(t, cfg, Held, a, a.stage, QUARANTINED)
  }

  ghost function DoQuarantine(cfg: Config, s: State, id: Id, reason: string, authority: Authority): (State, Result<Mutation>) {
    if !IsValidName(reason) then (s, Failure(InvalidArgument))
    else if Foreign(s, authority) then (s, Failure(StaleCoordinator))
    else if !HasCurrent(s.artifacts, id) then (s, Failure(NotFound))
    else
      var a := Current(s.artifacts, id);
      if a.quarantine.active then (s, Success(Unchanged(IsQuarantined)))
      else if a.stage == REVOKED || a.stage == RETIRED then (s, Success(Unchanged(IsRevoked)))
      else if Edge(a.stage, QUARANTINED) !in s.policy.edges then (s, Failure(IllegalTransition))
      else (ApplyQuarantine(cfg, s, id), Success(Unchanged(IsQuarantined)))
  }

  /** The record of a transition the coordinator drives itself. */
  function TrustRecord(s: State, a: Artifact, to: Stage, decision: Id, request: Id, attempt: Id, snapshot: Digest,
                       sequence: nat): Record {
    Record(s.gens.transition + 1, a.id, a.revision, a.digest, a.stage, to, decision, 0, request, attempt,
           s.activePolicy, s.activeGeneration, s.CurrentAuthority(), snapshot, sequence)
  }

  function ReleaseRequest(s: State, a: Artifact): Request {
    Request(a.id, a.revision, a.digest, CANDIDATE, s.gens.internalRequest + 1, s.gens.internalAttempt + 1,
            s.CurrentAuthority())
  }

  function Released'(s: State, a: Artifact): Artifact {
    a.(quarantine := a.quarantine.(active := false), stage := CANDIDATE, stageGeneration := a.stageGeneration + 1,
       lastSequence := s.commitSequence + 1)
  }

  /** Applied to the state in which the release decision is already filed. */
  function ApplyRelease(cfg: Config, s: State, id: Id, decision: Id, snapshot: Digest): State
    requires HasCurrent(s.artifacts, id)
  {
    var a := Current(s.artifacts, id);
    var r := TrustRecord(s, a, CANDIDATE, decision, s.gens.internalRequest, s.gens.internalAttempt, snapshot,
                         s.commitSequence + 1);
    var t := WithRecord(WithCurrent(s, id, Released'(s, a)), cfg, r);
    Note(t.(commitSequence := s.commitSequence + 1), cfg, Released, a, a.stage, CANDIDATE)
  }

  /** The state a release decision is filed in. */
  function ReleaseFiled(s: State, req: Request, d: Decision): State {
    var t := WithDecision(s, d);
    t.(gens := t.gens.(internalRequest := req.request, internalAttempt := req.attempt))
  }

  ghost function DoRelease(cfg: Config, s: State, id: Id, authority: Authority, now: nat): (State, Result<Mutation>) {
    if !HasCurrent(s.artifacts, id) then (s, Failure(NotFound))
    else
      var a := Current(s.artifacts, id);
      if !a.quarantine.active then (s, Success(Unchanged(PromotionIneligible)))
      else if Foreign(s, authority) then (s, Failure(StaleCoordinator))
      else
        var req := ReleaseRequest(s, a);
        var c := ContextFor(cfg, s, a, req, s.activeGeneration, now);
        var snapshot := SnapshotDigest(a, Gathered(c));
        var d := JudgedDecision(s, req, a, Verdict(c), snapshot);
        var u := ReleaseFiled(s, req, d);
        if Verdict(c).failed then (u, Success(Unchanged(Verdict(c).outcome)))
        else (ApplyRelease(cfg, u, id, d.id, snapshot),
              Success(Mutation(PromotionCommitted, true,
                TrustRecord(u, a, CANDIDATE, d.id, req.request, req.attempt, snapshot, u.commitSequence + 1))))
  }

  function Revoked'(s: State, a: Artifact, decision: Id, cause: Id): Artifact {
    a.(revocation := Revocation(true, decision, AuthorityId(s), s.commitSequence + 1, cause),
       lastSequence := s.commitSequence + 1, promoted := false, stage := REVOKED,
       stageGeneration := a.stageGeneration + 1)
  }

  function ApplyRevoke(cfg: Config, s: State, id: Id, decision: Id, cause: Id): State
    requires HasCurrent(s.artifacts, id)
  {
    var a := Current(s.artifacts, id);
    var r := TrustRecord(s, a, REVOKED, decision, 0, 0, a.digest, s.commitSequence + 1);
    var t := WithRecord(WithCurrent(s, id, Revoked'(s, a, decision, cause)), cfg, r);
    Note(t.(pending := s.pending - {id}, commitSequence := s.commitSequence + 1), cfg, TrustRevoked, a, a.stage, REVOKED)
  }

  ghost function DoRevoke(cfg: Config, s: State, id: Id, decision: Id, reason: string, authority: Authority, cause: Id):
    (State, Result<Mutation>)
  {
    if !IsValidName(reason) then (s, Failure(InvalidArgument))
    else if !HasCurrent(s.artifacts, id) then (s, Failure(NotFound))
    else
      var a := Current(s.artifacts, id);
      if a.revocation.active then (s, Success(Unchanged(IsRevoked)))
      else if Foreign(s, authority) then (s, Failure(StaleCoordinator))
      else if decision == 0 && (!a.promoted || a.promotionDecision == 0) then (s, Success(Unchanged(IsRevoked)))
      else
        var target := if decision == 0 then a.promotionDecision else decision;
        if target !in s.decisions then (s, Failure(DecisionUnknown))
        else if cause != 0 && cause !in s.evidence then (s, Failure(EvidenceUnknown))
        else (ApplyRevoke(cfg, s, id, target, cause),
              Success(Mutation(IsRevoked, true, TrustRecord(s, a, REVOKED, target, 0, 0, a.digest, s.commitSequence + 1))))
  }

  function Superseded'(s: State, a: Artifact, successor: Artifact): Artifact {
    a.(supersession := Supersession(true, successor.id, successor.revision, AuthorityId(s), s.commitSequence + 1),
       lastSequence := s.commitSequence + 1, stage := SUPERSEDED, stageGeneration := a.stageGeneration + 1,
       promoted := false)
  }

  function ApplySupersede(cfg: Config, s: State, id: Id, successor: Id): State
    requires HasCurrent(s.artifacts, id) && HasCurrent(s.artifacts, successor)
  {
    var a := Current(s.artifacts, id);
    var r := TrustRecord(s, a, SUPERSEDED, a.promotionDecision, 0, 0, a.digest, s.commitSequence + 1);
    var t := WithRecord(WithCurrent(s, id, Superseded'(s, a, Current(s.artifacts, successor))), cfg, r);
    Note(t.(pending := s.pending - {id}, commitSequence := s.commitSequence + 1), cfg, EventKind.Superseded,
         a, a.stage, SUPERSEDED)
  }

  ghost function DoSupersede(cfg: Config, s: State, id: Id, successor: Id, authority: Authority): (State, Result<Mutation>) {
    if successor == 0 || successor == id then (s, Failure(InvalidArgument))
    else if !HasCurrent(s.artifacts, id) || !HasCurrent(s.artifacts, successor) then (s, Failure(NotFound))
    else if Foreign(s, authority) then (s, Failure(StaleCoordinator))
    else
      var a := Current(s.artifacts, id);
      if a.supersession.active || a.stage == REVOKED || a.stage == RETIRED then (s, Success(Unchanged(IsSuperseded)))
      else if Edge(a.stage, SUPERSEDED) !in s.policy.edges then (s, Failure(IllegalTransition))
      else (ApplySupersede(cfg, s, id, successor),
            Success(Mutation(IsSuperseded, true,
              TrustRecord(s, a, SUPERSEDED, a.promotionDecision, 0, 0, a.digest, s.commitSequence + 1))))
  }

  function Retired'(s: State, a: Artifact): Artifact {
    a.(promoted := false, stage := RETIRED, stageGeneration := a.stageGeneration + 1, lastSequence := s.commitSequence + 1)
  }

  function ApplyRetire(cfg: Config, s: State, id: Id): State
    requires HasCurrent(s.artifacts, id)
  {
    var a := Current(s.artifacts, id);
    var r := TrustRecord(s, a, RETIRED, a.promotionDecision, 0, 0, a.digest, s.commitSequence + 1);
    var t := WithRecord(WithCurrent(s, id, Retired'(s, a)), cfg, r);
    Note(t.(pending := s.pending - {id}, commitSequence := s.commitSequence + 1), cfg, EventKind.Retired, a, a.stage, RETIRED)
  }

  ghost function DoRetire(cfg: Config, s: State, id: Id, authority: Authority): (State, Result<Mutation>) {
    if !HasCurrent(s.artifacts, id) then (s, Failure(NotFound))
    else if Foreign(s, authority) then (s, Failure(StaleCoordinator))
    else
      var a := Current(s.artifacts, id);
      if a.stage == RETIRED then (s, Success(Unchanged(PromotionIneligible)))
      else if Edge(a.stage, RETIRED) !in s.policy.edges then (s, Failure(IllegalTransition))
      else (ApplyRetire(cfg, s, id),
            Success(Mutation(PromotionCommitted, true,
              TrustRecord(s, a, RETIRED, a.promotionDecision, 0, 0, a.digest, s.commitSequence + 1))))
  }

  function Withdrawn'(s: State, e: Evidence): Evidence {
    var core := e.core.(revoked := true);
    e.(core := core, integrity := IntegrityOf(core), revocationAuthority := AuthorityId(s),
       revocationSequence := s.commitSequence + 1)
  }

  /** The reservations bound to the revision the withdrawn evidence is about. */
  function Fenced(pending: map<Id, Pending>, e: Evidence): set<Id> {
    set id | id in pending && pending[id].artifact == e.core.subject && pending[id].revision == e.core.subjectRevision
  }

  function ApplyWithdraw(cfg: Config, s: State, id: Id): State
    requires id in s.evidence
  {
    var e := s.evidence[id];
    s.(evidence := s.evidence[id := Withdrawn'(s, e)], pending := s.pending - Fenced(s.pending, e),
       commitSequence := s.commitSequence + 1,
       history := Retain(s.history, cfg.maxHistory, s.commitSequence + 1,
                         SubjectEvent(s.commitSequence + 1, EvidenceWithdrawn, e)))
  }

  ghost function DoRevokeEvidence(cfg: Config, s: State, id: Id, authority: Authority): (State, Result<Mutation>) {
    if id !in s.evidence then (s, Failure(EvidenceUnknown))
    else if Foreign(s, authority) then (s, Failure(StaleCoordinator))
    else if s.evidence[id].core.revoked then (s, Success(Unchanged(Outcome.EvidenceRevoked)))
    else (ApplyWithdraw(cfg, s, id), Success(Unchanged(Outcome.EvidenceRevoked)))
  }

  // ----- Vetoes and compatibility -----

  function VetoOf(s: State, id: Id): Veto {
    if id in s.vetoes then s.vetoes[id] else Veto(false, false)
  }

  function WithVeto(s: State, id: Id, v: Veto): State { s.(vetoes := s.vetoes[id := v]) }

  function SetVeto(s: State, id: Id, security: bool, active: bool): State {
    if id == 0 then s
    else WithVeto(s, id, if security then VetoOf(s, id).(security := active) else VetoOf(s, id).(dependency := active))
  }

  function SetCompatibility(s: State, generation: nat): (State, Result<nat>) {
    if generation <= s.compatibility then (s, Failure(NotAdvancing))
    else (s.(compatibility := generation, pending := map[]), Success(generation))
  }
}
