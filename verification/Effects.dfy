/** What each operation does when it takes effect, field by field, and what it answers. */
module Effects {
  import opened Lifecycle
  import opened Ordered
  import opened Domain
  import opened Store
  import opened Gates
  import opened Steps
  import opened Invariant
  import opened Preservation
  import opened Runs
  import opened Promotions
  import opened Fencing

  // ----- Tables and logs -----

  /** An entry is filed; only the oldest may go for it, and only at the bound. */
  ghost predicate Logs<V(!new)>(a: map<nat, V>, b: map<nat, V>, bound: nat, key: nat, value: V) {
    && key in b && b[key] == value
    && (forall k :: k in b && k != key ==> k in a && b[k] == a[k])
    && (forall k :: k in a && k !in b ==> |a| >= bound && forall j :: j in a ==> k <= j)
    && |b| <= |a| + (if |a| < bound || a == map[] then 1 else if key in a then 1 else 0)
  }

  lemma RetainLogs<V(!new)>(a: map<nat, V>, bound: nat, key: nat, value: V)
    ensures Logs(a, Retain(a, bound, key, value), bound, key, value)
  {
    if |a| >= bound && a != map[] {
      var k := MinKey(a.Keys);
      var b := a - {k};
      assert a == b[k := a[k]];
    }
  }

  /** Only revision `i` of `id` is rewritten. */
  ghost predicate OnlyRevision(a: map<Id, seq<Artifact>>, b: map<Id, seq<Artifact>>, id: Id, i: nat) {
    && id in a && id in b && i < |a[id]| && |b[id]| == |a[id]| && b.Keys == a.Keys
    && (forall k :: k in a && k != id ==> b[k] == a[k])
    && (forall j :: 0 <= j < |a[id]| && j != i ==> b[id][j] == a[id][j])
  }

  lemma UpdateIsOnly(a: map<Id, seq<Artifact>>, id: Id, i: nat, x: Artifact)
    requires id in a && i < |a[id]|
    ensures OnlyRevision(a, Update(a, id, i, x), id, i) && Update(a, id, i, x)[id][i] == x
  {
  }

  /** The revision moved one stage generation on, at this sequence. */
  predicate MovedTo(a: Artifact, b: Artifact, stage: Stage, sequence: nat) {
    b.stage == stage && b.stageGeneration == a.stageGeneration + 1 && b.lastSequence == sequence
  }

  predicate SamePromotion(a: Artifact, b: Artifact) {
    b.promoted == a.promoted && b.promotionDecision == a.promotionDecision && b.promotionSequence == a.promotionSequence
  }

  /** What was registered and what was decided about trust stays. */
  predicate SameRecordings(a: Artifact, b: Artifact) {
    && SameContent(a, b) && b.quarantine == a.quarantine && b.revocation == a.revocation && b.supersession == a.supersession
  }

  // ----- Commit -----

  /** The state a commit leads to, but for the revision itself. */
  ghost predicate CommitFrame(cfg: Config, s: State, t: State, p: Plan, a: Artifact) {
    var q := s.commitSequence + 1;
    && t == s.(commitSequence := q, artifacts := t.artifacts, decisions := t.decisions, idempotency := t.idempotency,
               records := t.records, history := t.history, pending := s.pending - {p.artifact},
               gens := s.gens.(transition := s.gens.transition + 1))
    && Logs(s.history, t.history, cfg.maxHistory, q,
             Event(q, if p.to == PROMOTED then Committed else Evaluated, a.id, a.revision, a.stage, p.to))
  }

  lemma CommitParts(cfg: Config, s: State, p: Plan, now: nat) returns (d: Decision)
    requires Inv(cfg, s) && Commits(cfg, s, p, now)
    ensures p.decision in s.decisions && p.request in s.idempotency
    ensures var i, t := FindRevision(s.artifacts, p.artifact, p.revision), Commit(cfg, s, p, now).0;
            && t == ApplyPlan(cfg, s, p, i, d) && CommitFrame(cfg, s, t, p, Target(s, p))
            && MovesOne(Decided(s, p, d), t, p.artifact, i, Committed'(s, p, Target(s, p)))
            && t.records == Retain(s.records, cfg.maxRecords, s.gens.transition + 1, CommitRecord(s, p, Target(s, p)))
    ensures d == s.decisions[p.decision].(kind := Target(s, p).kind, from := Target(s, p).stage, to := p.to,
                                          snapshot := p.snapshot)
  {
    hide Inv, FindRevision, Eligible, LiveEntries, Gathered, Verdict, ApplyPlan, Close, Retain, Decided, MovesOne, CommitFrame;
    StoredHere(cfg, s, p);
    StoredPlan(cfg, s, p);
    var c := CommitContext(cfg, s, p, now);
    EvidenceSequences(cfg, s);
    VerdictMeaning(c);
    RuleMoves(cfg, s, c);
    GovernedIs(c);
    d := s.decisions[p.decision].(kind := c.a.kind, from := c.a.stage, to := p.to, snapshot := p.snapshot);
    var i := FindRevision(s.artifacts, p.artifact, p.revision);
    assert Commit(cfg, s, p, now).0 == ApplyPlan(cfg, s, p, i, d);
    ApplyPlanShape(cfg, s, p, i, d);
    ApplyPlanFrame(cfg, s, p, i, d);
  }

  lemma GovernedIs(c: Context)
    requires Eligible(c)
    ensures c.s.policy.FindRule(c.a.kind, c.a.stage, c.request.stage) >= 0
  {
    hide Holds;
  }

  lemma ApplyPlanFrame(cfg: Config, s: State, p: Plan, i: nat, d: Decision)
    requires p.artifact in s.artifacts && i < |s.artifacts[p.artifact]|
    ensures CommitFrame(cfg, s, ApplyPlan(cfg, s, p, i, d), p, s.artifacts[p.artifact][i])
  {
    hide Retain, Committed', MarkCommitted, Logs;
    var a := s.artifacts[p.artifact][i];
    RetainLogs(s.history, cfg.maxHistory, s.commitSequence + 1, CommitEvent(s, p, a));
  }

  /** The revision stands at the plan's destination, one stage generation on. At PROMOTED it is promoted by
      the plan's decision, and authoritative unless it was revoked. */
  predicate MovedBy(p: Plan, a: Artifact, b: Artifact, sequence: nat) {
    && MovedTo(a, b, p.to, sequence) && SameRecordings(a, b)
    && (p.to != PROMOTED ==> SamePromotion(a, b))
    && (p.to == PROMOTED ==>
          && b.promoted && b.promotionDecision == p.decision && b.promotionSequence == sequence
          && (!a.revocation.active ==> b.CurrentlyAuthoritative()))
  }

  /** A commit moves the plan's revision and no other. */
  lemma CommitMoves(cfg: Config, s: State, p: Plan, now: nat)
    requires Inv(cfg, s) && Commits(cfg, s, p, now)
    ensures var t := Commit(cfg, s, p, now).0;
            && OnlyRevision(s.artifacts, t.artifacts, p.artifact, FindRevision(s.artifacts, p.artifact, p.revision))
            && Stored(t, p) && MovedBy(p, Target(s, p), Target(t, p), t.commitSequence)
            && t.commitSequence == s.commitSequence + 1
  {
    hide Inv, FindRevision, Eligible, LiveEntries, ApplyPlan, Retain, Commit, CommitFrame, Decided, OnlyRevision;
    var d := CommitParts(cfg, s, p, now);
    var t, i := Commit(cfg, s, p, now).0, FindRevision(s.artifacts, p.artifact, p.revision);
    var b := Committed'(s, p, Target(s, p));
    DecidedParts(s, p, d);
    FrameParts(cfg, s, t, p, Target(s, p));
    UpdateIsOnly(s.artifacts, p.artifact, i, b);
    StoredRevision(cfg, s, p.artifact, i);
    StoredHere(cfg, s, p);
    SameRevisionFound(s.artifacts, p.artifact, i, b);
  }

  lemma DecidedParts(s: State, p: Plan, d: Decision)
    ensures Decided(s, p, d).artifacts == s.artifacts && Decided(s, p, d).commitSequence == s.commitSequence
  {
  }

  lemma FrameParts(cfg: Config, s: State, t: State, p: Plan, a: Artifact)
    requires CommitFrame(cfg, s, t, p, a)
    ensures t.commitSequence == s.commitSequence + 1 && t.plans == s.plans
  {
    hide Logs;
  }

  lemma SameRevisionFound(a: map<Id, seq<Artifact>>, id: Id, i: nat, x: Artifact)
    requires id in a && i < |a[id]| && a[id][i].revision == x.revision && FindRevision(a, id, x.revision) == i
    ensures FindRevision(Update(a, id, i, x), id, x.revision) == i
  {
    var b := Update(a, id, i, x);
    var j := FindRevision(b, id, x.revision);
    assert forall k :: 0 <= k < |b[id]| ==> b[id][k].revision == a[id][k].revision;
  }

  /** The record says what the plan says, where the revision came from, and under which authority. */
  predicate Records(s: State, p: Plan, a: Artifact, z: Record) {
    && z.transition == s.gens.transition + 1 && z.sequence == s.commitSequence + 1
    && z.artifact == p.artifact && z.revision == p.revision && z.digest == p.digest == a.digest
    && z.from == a.stage && z.to == p.to && z.decision == p.decision && z.plan == p.id
    && z.request == p.request && z.attempt == p.attempt && z.policy == p.policy
    && z.policyGeneration == p.policyGeneration == s.activeGeneration
    && z.authority == p.authority == s.CurrentAuthority() && z.snapshot == p.snapshot
  }

  /** The decision and the request read committed; no other does for it. */
  ghost predicate Settled(s: State, t: State, p: Plan, a: Artifact) {
    && p.decision in s.decisions && p.request in s.idempotency
    && t.decisions == s.decisions[p.decision := s.decisions[p.decision].(
         kind := a.kind, from := a.stage, to := p.to, snapshot := p.snapshot,
         outcome := PromotionCommitted, authoritative := p.to == PROMOTED)]
    && t.idempotency ==
       s.idempotency[p.request := s.idempotency[p.request].(outcome := PromotionCommitted, decision := p.decision)]
  }

  /** A commit is filed as it happened: in the decision, the request, one record and one event, and nothing
      else changes but the revision and its reservation. */
  lemma CommitIsFiled(cfg: Config, s: State, p: Plan, now: nat)
    requires Inv(cfg, s) && Commits(cfg, s, p, now)
    ensures var (t, r), a := Commit(cfg, s, p, now), Target(s, p);
            && CommitFrame(cfg, s, t, p, a) && Settled(s, t, p, a)
            && r.Success? && r.value.outcome == PromotionCommitted && r.value.hasRecord && Records(s, p, a, r.value.record)
            && Logs(s.records, t.records, cfg.maxRecords, s.gens.transition + 1, r.value.record)
  {
    hide Inv, FindRevision, Eligible, LiveEntries, ApplyPlan, Retain, CommitFrame, MovesOne, Logs, Commit, Commits;
    var d := CommitParts(cfg, s, p, now);
    CommitAnswer(cfg, s, p, now);
    StoredHere(cfg, s, p);
    HeldHere(cfg, s, p, now);
    ReservationAuthority(cfg, s, p);
    RetainLogs(s.records, cfg.maxRecords, s.gens.transition + 1, CommitRecord(s, p, Target(s, p)));
    DecidedTables(cfg, s, p, d, FindRevision(s.artifacts, p.artifact, p.revision));
  }

  lemma HeldHere(cfg: Config, s: State, p: Plan, now: nat)
    requires Commits(cfg, s, p, now)
    ensures Stored(s, p) && Promotions.Held(s, p) && s.activeGeneration == p.policyGeneration
  {
    hide Eligible, LiveEntries, FindRevision;
  }

  lemma CommitAnswer(cfg: Config, s: State, p: Plan, now: nat)
    requires Inv(cfg, s) && Commits(cfg, s, p, now)
    ensures Stored(s, p)
    ensures Commit(cfg, s, p, now).1 == Success(Commitment(PromotionCommitted, true, CommitRecord(s, p, Target(s, p))))
  {
    hide Inv, FindRevision, Eligible, LiveEntries, Revalidate, Close;
    StoredHere(cfg, s, p);
    RevalidateExactly(cfg, s, p, now);
  }

  lemma DecidedTables(cfg: Config, s: State, p: Plan, d: Decision, i: nat)
    requires p.artifact in s.artifacts && i < |s.artifacts[p.artifact]| && p.request in s.idempotency
    ensures var t := ApplyPlan(cfg, s, p, i, d);
            && t.decisions == s.decisions[p.decision := d.(outcome := PromotionCommitted, authoritative := p.to == PROMOTED)]
            && t.idempotency ==
               s.idempotency[p.request := s.idempotency[p.request].(outcome := PromotionCommitted, decision := p.decision)]
  {
    hide Retain, Committed';
  }

  // ----- Refused commits -----

  predicate SameSubject(d: Decision, e: Decision) {
    && e.id == d.id && e.request == d.request && e.attempt == d.attempt && e.artifact == d.artifact
    && e.revision == d.revision && e.policyGeneration == d.policyGeneration && e.authority == d.authority
    && e.sequence == d.sequence && e.plan == d.plan && e.authoritative == d.authoritative
  }

  /** Only the decision is rewritten, and the reservation is dropped or left. */
  ghost predicate TurnsDown(s: State, t: State, p: Plan, o: Outcome, reasons: nat, dropped: bool) {
    && p.decision in s.decisions && p.decision in t.decisions
    && t == s.(decisions := s.decisions[p.decision := t.decisions[p.decision]],
               pending := if dropped then s.pending - {p.artifact} else s.pending)
    && var d, e := s.decisions[p.decision], t.decisions[p.decision];
       SameSubject(d, e) && e.outcome == o && e.reasons == d.reasons + reasons
  }

  predicate Unmoved(s: State, p: Plan) {
    s.policy.digest == p.policyDigest && s.activeGeneration == p.policyGeneration && GraphOf(s.policy.edges) == p.lifecycleDigest
  }

  predicate Refusal(r: Result<Commitment>, o: Outcome) { r == Success(Commitment(o, false, NO_RECORD())) }

  /** How a plan is turned down, the first reason deciding: it is not the plan that was issued, the policy
      moved, it expired, its reservation is gone, the evidence changed, or a gate fails. */
  ghost predicate TurnedDown(cfg: Config, s: State, p: Plan, now: nat, t: State, r: Result<Commitment>) {
    if !p.Valid() then r == Failure(InvalidArgument) && t == s
    else if p.id !in s.plans then r == Failure(PlanUnknown) && t == s
    else if s.plans[p.id] != p then r == Failure(PlanAltered) && t == s
    else if !Unmoved(s, p) then Refusal(r, Outcome.Conflict) && TurnsDown(s, t, p, Outcome.Conflict, 1, true)
    else if p.hasExpiry && now > p.expires then
      Refusal(r, RevalidationRequired) && TurnsDown(s, t, p, RevalidationRequired, 1, true)
    else if p.artifact !in s.pending || s.pending[p.artifact].plan != p.id then
      Refusal(r, Outcome.Conflict) && TurnsDown(s, t, p, Outcome.Conflict, 1, false)
    else
      && Stored(s, p)
      && var c := CommitContext(cfg, s, p, now);
         if SnapshotDigest(c.a, Gathered(c)) != p.snapshot then
           Refusal(r, NoOutcome) && TurnsDown(s, t, p, RevalidationRequired, Verdict(c).reasons + 1, true)
         else
           && r.Success? && Refusal(r, r.value.outcome) && Justified(c, r.value.outcome)
           && TurnsDown(s, t, p, r.value.outcome, Verdict(c).reasons, true)
  }

  lemma CloseTurns(s: State, p: Plan, e: Decision)
    requires p.decision in s.decisions && SameSubject(s.decisions[p.decision], e)
    requires e.reasons >= s.decisions[p.decision].reasons
    ensures TurnsDown(s, Close(s, p, e), p, e.outcome, e.reasons - s.decisions[p.decision].reasons, true)
    ensures TurnsDown(s, s.(decisions := s.decisions[p.decision := e]), p, e.outcome,
                      e.reasons - s.decisions[p.decision].reasons, false)
  {
  }

  lemma FailsOrChanged(cfg: Config, s: State, p: Plan, now: nat)
    requires Inv(cfg, s) && Stored(s, p) && !Commits(cfg, s, p, now)
    requires Unmoved(s, p) && (p.hasExpiry ==> now <= p.expires) && Promotions.Held(s, p)
    ensures var c := CommitContext(cfg, s, p, now);
            && (SnapshotDigest(c.a, Gathered(c)) == p.snapshot ==> Verdict(c).failed) && Justified(c, Verdict(c).outcome)
  {
    hide Inv, FindRevision, Eligible, LiveEntries, Gathered, Verdict, Justified;
    var c := CommitContext(cfg, s, p, now);
    EvidenceSequences(cfg, s);
    VerdictMeaning(c);
    VerdictIsJustified(c);
    if Eligible(c) {
      RuleMoves(cfg, s, c);
    }
  }

  lemma RevalidationRefuses(cfg: Config, s: State, p: Plan, now: nat)
    requires Inv(cfg, s) && Stored(s, p) && p.decision in s.decisions && !Commits(cfg, s, p, now)
    requires Unmoved(s, p) && (p.hasExpiry ==> now <= p.expires) && Promotions.Held(s, p)
    ensures var c := CommitContext(cfg, s, p, now);
            var (t, r) := Revalidate(cfg, s, p, FindRevision(s.artifacts, p.artifact, p.revision), now);
            if SnapshotDigest(c.a, Gathered(c)) != p.snapshot then
              && r == Commitment(NoOutcome, false, NO_RECORD())
              && TurnsDown(s, t, p, RevalidationRequired, Verdict(c).reasons + 1, true)
            else
              && r == Commitment(r.outcome, false, NO_RECORD()) && Justified(c, r.outcome)
              && TurnsDown(s, t, p, r.outcome, Verdict(c).reasons, true)
  {
    hide Inv, FindRevision, LiveEntries, Gathered, Verdict, ApplyPlan, Close, TurnsDown, Justified, Commits;
    var c := CommitContext(cfg, s, p, now);
    FailsOrChanged(cfg, s, p, now);
    var d := s.decisions[p.decision];
    var governed := s.policy.FindRule(c.a.kind, c.a.stage, p.to) >= 0;
    var d1 := d.(kind := c.a.kind, from := c.a.stage, to := p.to, reasons := d.reasons + Verdict(c).reasons,
                 snapshot := if governed then SnapshotDigest(c.a, Gathered(c)) else d.snapshot);
    CloseTurns(s, p, d1.(outcome := RevalidationRequired, reasons := d1.reasons + 1));
    CloseTurns(s, p, d1.(outcome := Verdict(c).outcome));
  }

  /** A commit that does not happen leaves the artifacts, the records and the requests alone, and answers
      with the reason. */
  lemma CommitRefuses(cfg: Config, s: State, p: Plan, now: nat)
    requires Inv(cfg, s) && !Commits(cfg, s, p, now)
    ensures TurnedDown(cfg, s, p, now, Commit(cfg, s, p, now).0, Commit(cfg, s, p, now).1)
  {
    hide Inv, FindRevision, Eligible, LiveEntries, Gathered, Verdict, Revalidate, Close, TurnsDown, Plan.Valid, Justified,
         Commits;
    if Known(s, p) {
      StoredHere(cfg, s, p);
      StoredPlan(cfg, s, p);
      var d := s.decisions[p.decision];
      CloseTurns(s, p, d.(outcome := Outcome.Conflict, reasons := d.reasons + 1));
      CloseTurns(s, p, d.(outcome := RevalidationRequired, reasons := d.reasons + 1));
      if Unmoved(s, p) && (p.hasExpiry ==> now <= p.expires) && Promotions.Held(s, p) {
        RevalidationRefuses(cfg, s, p, now);
      }
    }
  }

  // ----- Plans expire -----

  /** A plan that commits does so within its time. After that, unless the policy moved as well, it is answered
      with "revalidation required", and it holds no reservation from then on. */
  lemma PlansExpire(cfg: Config, s: State, req: Request, now: nat, ops: seq<Op>, later: nat)
    requires Inv(cfg, s) && Evaluate(cfg, s, req, now).1.Success? && Evaluate(cfg, s, req, now).1.value.hasPlan
    ensures var p := Evaluate(cfg, s, req, now).1.value.plan;
            var u := Run(cfg, Evaluate(cfg, s, req, now).0, ops);
            && (Emits(cfg, u, CommitOp(p, later)) != [] ==> later <= now + cfg.planTtl)
            && (later > now + cfg.planTtl && p.id in u.plans && u.plans[p.id] == p && Unmoved(u, p) ==>
                  && Refusal(Commit(cfg, u, p, later).1, RevalidationRequired)
                  && Unreserved(Commit(cfg, u, p, later).0.pending, p.id))
  {
    hide Inv, Run, Evaluate, FindRevision, Eligible, LiveEntries, Commit, TurnsDown, Justified, Plan.Valid;
    var p := Evaluate(cfg, s, req, now).1.value.plan;
    var u := Run(cfg, Evaluate(cfg, s, req, now).0, ops);
    IssuedPlan(cfg, s, req, now);
    ApplyKeepsInv(cfg, s, EvaluateOp(req, now));
    RunKeepsInv(cfg, Evaluate(cfg, s, req, now).0, ops);
    CommitExactly(cfg, u, p, later);
    if later > now + cfg.planTtl && p.id in u.plans && u.plans[p.id] == p {
      CommitRefuses(cfg, u, p, later);
      StoredHere(cfg, u, p);
      CommitFences(cfg, u, p, later);
    }
  }
}
