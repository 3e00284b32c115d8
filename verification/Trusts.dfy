/** What quarantine, release, revocation, supersession, retirement, vetoes, compatibility, publication and a new
    epoch do, and when. */
module Trusts {
  import opened Lifecycle
  import opened Ordered
  import opened Domain
  import opened Store
  import opened Gates
  import opened Steps
  import opened Invariant
  import opened Promotions
  import opened Effects
  import opened Intake

  /** The authority names another coordinator. */
  predicate Strange(s: State, authority: Authority) {
    authority.coordinator != 0 && authority.epoch != 0 && authority.coordinator != s.coordinator
  }

  /** The current revision is rewritten, a reservation of its artifact is dropped, and the move is noted. */
  ghost predicate Driven(cfg: Config, s: State, t: State, id: Id, kind: EventKind, to: Stage) {
    var q := s.commitSequence + 1;
    && HasCurrent(s.artifacts, id) && OnlyRevision(s.artifacts, t.artifacts, id, |s.artifacts[id]| - 1)
    && t == s.(artifacts := t.artifacts, pending := s.pending - {id}, commitSequence := q + 1, history := t.history,
               records := t.records, gens := s.gens.(transition := t.gens.transition))
    && var a := Current(s.artifacts, id);
       Logs(s.history, t.history, cfg.maxHistory, q + 1, Event(q + 1, kind, a.id, a.revision, a.stage, to))
  }

  /** One record of a move the coordinator drives itself. */
  ghost predicate Reported(cfg: Config, s: State, t: State, id: Id, to: Stage, decision: Id, request: Id, attempt: Id,
                           snapshot: Digest, z: Record)
    requires HasCurrent(s.artifacts, id)
  {
    var a := Current(s.artifacts, id);
    && t.gens.transition == s.gens.transition + 1
    && Logs(s.records, t.records, cfg.maxRecords, s.gens.transition + 1, z)
    && z.transition == s.gens.transition + 1 && z.sequence == s.commitSequence + 1
    && z.artifact == a.id && z.revision == a.revision && z.digest == a.digest && z.from == a.stage && z.to == to
    && z.decision == decision && z.plan == 0 && z.policy == s.activePolicy && z.policyGeneration == s.activeGeneration
    && z.authority == s.CurrentAuthority() && z.request == request && z.attempt == attempt && z.snapshot == snapshot
  }

  ghost predicate Unreported(s: State, t: State) { t.records == s.records && t.gens.transition == s.gens.transition }

  lemma RecordIsReported(cfg: Config, s: State, t: State, id: Id, to: Stage, decision: Id, request: Id, attempt: Id,
                         snapshot: Digest)
    requires HasCurrent(s.artifacts, id)
    requires var z := TrustRecord(s, Current(s.artifacts, id), to, decision, request, attempt, snapshot, s.commitSequence + 1);
             t.gens.transition == z.transition && t.records == Retain(s.records, cfg.maxRecords, z.transition, z)
    ensures Reported(cfg, s, t, id, to, decision, request, attempt, snapshot,
                     TrustRecord(s, Current(s.artifacts, id), to, decision, request, attempt, snapshot, s.commitSequence + 1))
  {
    hide Retain, Logs;
    var z := TrustRecord(s, Current(s.artifacts, id), to, decision, request, attempt, snapshot, s.commitSequence + 1);
    RetainLogs(s.records, cfg.maxRecords, z.transition, z);
  }

  /** The same with the revision it is rewritten to. */
  ghost predicate DrivenTo(cfg: Config, s: State, t: State, id: Id, kind: EventKind, to: Stage, x: Artifact) {
    var q := s.commitSequence + 1;
    && HasCurrent(s.artifacts, id)
    && t.artifacts == Update(s.artifacts, id, |s.artifacts[id]| - 1, x)
    && t == s.(artifacts := t.artifacts, pending := s.pending - {id}, commitSequence := q + 1, history := t.history,
               records := t.records, gens := s.gens.(transition := t.gens.transition))
    && var a := Current(s.artifacts, id);
       t.history == Retain(s.history, cfg.maxHistory, q + 1, Event(q + 1, kind, a.id, a.revision, a.stage, to))
  }

  lemma DrivenIs(cfg: Config, s: State, t: State, id: Id, kind: EventKind, to: Stage, x: Artifact)
    requires DrivenTo(cfg, s, t, id, kind, to, x)
    ensures Driven(cfg, s, t, id, kind, to) && HasCurrent(t.artifacts, id) && Current(t.artifacts, id) == x
  {
    hide Retain, Logs, OnlyRevision;
    var a, q := Current(s.artifacts, id), s.commitSequence + 2;
    UpdateIsOnly(s.artifacts, id, |s.artifacts[id]| - 1, x);
    RetainLogs(s.history, cfg.maxHistory, q, Event(q, kind, a.id, a.revision, a.stage, to));
  }

  // ----- Quarantine -----

  ghost predicate Quarantines(s: State, id: Id, reason: string, authority: Authority) {
    && IsValidName(reason) && !Strange(s, authority) && HasCurrent(s.artifacts, id)
    && var a := Current(s.artifacts, id);
       !a.quarantine.active && a.stage != REVOKED && a.stage != RETIRED && Edge(a.stage, QUARANTINED) in s.policy.edges
  }

  predicate HeldIn(s: State, a: Artifact, b: Artifact) {
    && MovedTo(a, b, QUARANTINED, s.commitSequence + 1) && SameContent(a, b) && SamePromotion(a, b)
    && b.revocation == a.revocation && b.supersession == a.supersession
    && b.quarantine.active && Stamps(s, b.quarantine.authority) && b.quarantine.sequence == s.commitSequence + 1
  }

  lemma QuarantineApplies(cfg: Config, s: State, id: Id)
    requires HasCurrent(s.artifacts, id)
    ensures var t := ApplyQuarantine(cfg, s, id);
            && Driven(cfg, s, t, id, Held, QUARANTINED) && Unreported(s, t)
            && HasCurrent(t.artifacts, id) && HeldIn(s, Current(s.artifacts, id), Current(t.artifacts, id))
  {
    hide Driven, ApplyQuarantine;
    AuthorityStamps(s);
    QuarantineDrives(cfg, s, id);
    DrivenIs(cfg, s, ApplyQuarantine(cfg, s, id), id, Held, QUARANTINED, Quarantined'(s, Current(s.artifacts, id)));
  }

  lemma QuarantineDrives(cfg: Config, s: State, id: Id)
    requires HasCurrent(s.artifacts, id)
    ensures var t := ApplyQuarantine(cfg, s, id);
            DrivenTo(cfg, s, t, id, Held, QUARANTINED, Quarantined'(s, Current(s.artifacts, id))) && Unreported(s, t)
  {
    hide Retain, Quarantined';
  }

  /** A quarantine takes effect exactly if it is named, the graph lets the revision be held, and it is not held
      or gone already; then it is held, not authoritative, and no gate on quarantine holds. */
  lemma QuarantineExactly(cfg: Config, s: State, id: Id, reason: string, authority: Authority)
    ensures var (t, r) := DoQuarantine(cfg, s, id, reason, authority);
            if Quarantines(s, id, reason, authority) then
              && r == Success(Mutation(IsQuarantined, false, NO_RECORD()))
              && Driven(cfg, s, t, id, Held, QUARANTINED) && Unreported(s, t) && HasCurrent(t.artifacts, id)
              && HeldIn(s, Current(s.artifacts, id), Current(t.artifacts, id))
              && !Current(t.artifacts, id).CurrentlyAuthoritative()
            else
              && t == s
              && (!IsValidName(reason) ==> r == Failure(InvalidArgument))
              && (IsValidName(reason) && !Strange(s, authority) && !HasCurrent(s.artifacts, id) ==> r == Failure(NotFound))
  {
    hide IsValidName, ApplyQuarantine, Driven;
    if Quarantines(s, id, reason, authority) {
      QuarantineApplies(cfg, s, id);
    }
  }

  // ----- Revocation -----

  /** The decision a revocation names, or the one that promoted the revision. */
  function Named(a: Artifact, decision: Id): Id { if decision != 0 then decision else a.promotionDecision }

  ghost predicate Revokes(s: State, id: Id, decision: Id, reason: string, authority: Authority, cause: Id) {
    && IsValidName(reason) && HasCurrent(s.artifacts, id) && !Strange(s, authority)
    && var a := Current(s.artifacts, id);
       && !a.revocation.active && (decision == 0 ==> a.promoted && a.promotionDecision != 0)
       && Named(a, decision) in s.decisions && (cause != 0 ==> cause in s.evidence)
  }

  predicate RevokedBy(s: State, a: Artifact, decision: Id, cause: Id, b: Artifact) {
    && MovedTo(a, b, REVOKED, s.commitSequence + 1) && SameContent(a, b) && !b.promoted
    && b.promotionDecision == a.promotionDecision && b.promotionSequence == a.promotionSequence
    && b.quarantine == a.quarantine && b.supersession == a.supersession
    && b.revocation.active && b.revocation.decision == decision && b.revocation.cause == cause
    && Stamps(s, b.revocation.authority) && b.revocation.sequence == s.commitSequence + 1
  }

  lemma RevokeApplies(cfg: Config, s: State, id: Id, decision: Id, cause: Id)
    requires HasCurrent(s.artifacts, id)
    ensures var t, a := ApplyRevoke(cfg, s, id, decision, cause), Current(s.artifacts, id);
            && Driven(cfg, s, t, id, TrustRevoked, REVOKED) && HasCurrent(t.artifacts, id)
            && RevokedBy(s, a, decision, cause, Current(t.artifacts, id))
            && Reported(cfg, s, t, id, REVOKED, decision, 0, 0, a.digest,
                        TrustRecord(s, a, REVOKED, decision, 0, 0, a.digest, s.commitSequence + 1))
  {
    hide Driven, Reported, ApplyRevoke, TrustRecord;
    var a, t := Current(s.artifacts, id), ApplyRevoke(cfg, s, id, decision, cause);
    AuthorityStamps(s);
    RevokeDrives(cfg, s, id, decision, cause);
    DrivenIs(cfg, s, t, id, TrustRevoked, REVOKED, Revoked'(s, Current(s.artifacts, id), decision, cause));
    RecordIsReported(cfg, s, t, id, REVOKED, decision, 0, 0, a.digest);
  }

  lemma RevokeDrives(cfg: Config, s: State, id: Id, decision: Id, cause: Id)
    requires HasCurrent(s.artifacts, id)
    ensures var t, a := ApplyRevoke(cfg, s, id, decision, cause), Current(s.artifacts, id);
            var z := TrustRecord(s, a, REVOKED, decision, 0, 0, a.digest, s.commitSequence + 1);
            && DrivenTo(cfg, s, t, id, TrustRevoked, REVOKED, Revoked'(s, Current(s.artifacts, id), decision, cause))
            && t.gens.transition == z.transition && t.records == Retain(s.records, cfg.maxRecords, z.transition, z)
  {
    hide Retain, Revoked';
  }

  /** A revocation takes effect exactly if it is named, the revision is not revoked, and the decision and the
      cause it names are on file; then the revision has no authority left. */
  lemma RevokeExactly(cfg: Config, s: State, id: Id, decision: Id, reason: string, authority: Authority, cause: Id)
    ensures var (t, r) := DoRevoke(cfg, s, id, decision, reason, authority, cause);
            if Revokes(s, id, decision, reason, authority, cause) then
              var a := Current(s.artifacts, id);
              && Driven(cfg, s, t, id, TrustRevoked, REVOKED) && HasCurrent(t.artifacts, id)
              && RevokedBy(s, a, Named(a, decision), cause, Current(t.artifacts, id))
              && !Current(t.artifacts, id).CurrentlyAuthoritative()
              && r.Success? && r.value.outcome == IsRevoked && r.value.hasRecord
              && Reported(cfg, s, t, id, REVOKED, Named(a, decision), 0, 0, a.digest, r.value.record)
            else
              && t == s
              && (!IsValidName(reason) ==> r == Failure(InvalidArgument))
              && (IsValidName(reason) && !HasCurrent(s.artifacts, id) ==> r == Failure(NotFound))
  {
    hide IsValidName, ApplyRevoke, Driven, Reported, TrustRecord;
    if Revokes(s, id, decision, reason, authority, cause) {
      RevokeApplies(cfg, s, id, Named(Current(s.artifacts, id), decision), cause);
    }
  }

  // ----- Supersession -----

  ghost predicate Supersedes(s: State, id: Id, successor: Id, authority: Authority) {
    && successor != 0 && successor != id && HasCurrent(s.artifacts, id) && HasCurrent(s.artifacts, successor)
    && !Strange(s, authority)
    && var a := Current(s.artifacts, id);
       !a.supersession.active && a.stage != REVOKED && a.stage != RETIRED && Edge(a.stage, SUPERSEDED) in s.policy.edges
  }

  predicate SupersededFor(s: State, a: Artifact, successor: Artifact, b: Artifact) {
    && MovedTo(a, b, SUPERSEDED, s.commitSequence + 1) && SameContent(a, b) && !b.promoted
    && b.promotionDecision == a.promotionDecision && b.promotionSequence == a.promotionSequence
    && b.quarantine == a.quarantine && b.revocation == a.revocation
    && b.supersession.active && b.supersession.successor == successor.id
    && b.supersession.successorRevision == successor.revision
    && Stamps(s, b.supersession.authority) && b.supersession.sequence == s.commitSequence + 1
  }

  lemma SupersedeApplies(cfg: Config, s: State, id: Id, successor: Id)
    requires HasCurrent(s.artifacts, id) && HasCurrent(s.artifacts, successor)
    ensures var t, a := ApplySupersede(cfg, s, id, successor), Current(s.artifacts, id);
            && Driven(cfg, s, t, id, EventKind.Superseded, SUPERSEDED) && HasCurrent(t.artifacts, id)
            && SupersededFor(s, a, Current(s.artifacts, successor), Current(t.artifacts, id))
            && Reported(cfg, s, t, id, SUPERSEDED, a.promotionDecision, 0, 0, a.digest,
                        TrustRecord(s, a, SUPERSEDED, a.promotionDecision, 0, 0, a.digest, s.commitSequence + 1))
  {
    hide Driven, Reported, ApplySupersede, TrustRecord;
    var a, t := Current(s.artifacts, id), ApplySupersede(cfg, s, id, successor);
    AuthorityStamps(s);
    SupersedeDrives(cfg, s, id, successor);
    DrivenIs(cfg, s, t, id, EventKind.Superseded, SUPERSEDED, Superseded'(s, a, Current(s.artifacts, successor)));
    RecordIsReported(cfg, s, t, id, SUPERSEDED, a.promotionDecision, 0, 0, a.digest);
  }

  lemma SupersedeDrives(cfg: Config, s: State, id: Id, successor: Id)
    requires HasCurrent(s.artifacts, id) && HasCurrent(s.artifacts, successor)
    ensures var t, a := ApplySupersede(cfg, s, id, successor), Current(s.artifacts, id);
            var z := TrustRecord(s, a, SUPERSEDED, a.promotionDecision, 0, 0, a.digest, s.commitSequence + 1);
            && DrivenTo(cfg, s, t, id, EventKind.Superseded, SUPERSEDED, Superseded'(s, a, Current(s.artifacts, successor)))
            && t.gens.transition == z.transition && t.records == Retain(s.records, cfg.maxRecords, z.transition, z)
  {
    hide Retain, Superseded';
  }

  /** A supersession takes effect exactly if another registered artifact takes over and the graph allows it;
      then the revision points at its successor and is not authoritative. */
  lemma SupersedeExactly(cfg: Config, s: State, id: Id, successor: Id, authority: Authority)
    ensures var (t, r) := DoSupersede(cfg, s, id, successor, authority);
            if Supersedes(s, id, successor, authority) then
              var a := Current(s.artifacts, id);
              && Driven(cfg, s, t, id, EventKind.Superseded, SUPERSEDED) && HasCurrent(t.artifacts, id)
              && SupersededFor(s, a, Current(s.artifacts, successor), Current(t.artifacts, id))
              && !Current(t.artifacts, id).CurrentlyAuthoritative()
              && r.Success? && r.value.outcome == IsSuperseded && r.value.hasRecord
              && Reported(cfg, s, t, id, SUPERSEDED, a.promotionDecision, 0, 0, a.digest, r.value.record)
            else t == s && (r.Success? ==> !r.value.hasRecord)
  {
    hide ApplySupersede, Driven, Reported, TrustRecord;
    if Supersedes(s, id, successor, authority) {
      SupersedeApplies(cfg, s, id, successor);
    }
  }

  // ----- Retirement -----

  ghost predicate Retires(s: State, id: Id, authority: Authority) {
    && HasCurrent(s.artifacts, id) && !Strange(s, authority)
    && Current(s.artifacts, id).stage != RETIRED && Edge(Current(s.artifacts, id).stage, RETIRED) in s.policy.edges
  }

  predicate RetiredIn(s: State, a: Artifact, b: Artifact) {
    && MovedTo(a, b, RETIRED, s.commitSequence + 1) && SameRecordings(a, b) && !b.promoted
    && b.promotionDecision == a.promotionDecision && b.promotionSequence == a.promotionSequence
  }

  lemma RetireApplies(cfg: Config, s: State, id: Id)
    requires HasCurrent(s.artifacts, id)
    ensures var t, a := ApplyRetire(cfg, s, id), Current(s.artifacts, id);
            && Driven(cfg, s, t, id, EventKind.Retired, RETIRED) && HasCurrent(t.artifacts, id)
            && RetiredIn(s, a, Current(t.artifacts, id))
            && Reported(cfg, s, t, id, RETIRED, a.promotionDecision, 0, 0, a.digest,
                        TrustRecord(s, a, RETIRED, a.promotionDecision, 0, 0, a.digest, s.commitSequence + 1))
  {
    hide Driven, Reported, ApplyRetire, TrustRecord;
    var a, t := Current(s.artifacts, id), ApplyRetire(cfg, s, id);
    AuthorityStamps(s);
    RetireDrives(cfg, s, id);
    DrivenIs(cfg, s, t, id, EventKind.Retired, RETIRED, Retired'(s, Current(s.artifacts, id)));
    RecordIsReported(cfg, s, t, id, RETIRED, a.promotionDecision, 0, 0, a.digest);
  }

  lemma RetireDrives(cfg: Config, s: State, id: Id)
    requires HasCurrent(s.artifacts, id)
    ensures var t, a := ApplyRetire(cfg, s, id), Current(s.artifacts, id);
            var z := TrustRecord(s, a, RETIRED, a.promotionDecision, 0, 0, a.digest, s.commitSequence + 1);
            && DrivenTo(cfg, s, t, id, EventKind.Retired, RETIRED, Retired'(s, Current(s.artifacts, id)))
            && t.gens.transition == z.transition && t.records == Retain(s.records, cfg.maxRecords, z.transition, z)
  {
    hide Retain, Retired';
  }

  /** A retirement takes effect exactly if the graph allows it and it has not happened; then the revision is
      not authoritative. */
  lemma RetireExactly(cfg: Config, s: State, id: Id, authority: Authority)
    ensures var (t, r) := DoRetire(cfg, s, id, authority);
            if Retires(s, id, authority) then
              var a := Current(s.artifacts, id);
              && Driven(cfg, s, t, id, EventKind.Retired, RETIRED) && HasCurrent(t.artifacts, id)
              && RetiredIn(s, a, Current(t.artifacts, id)) && !Current(t.artifacts, id).CurrentlyAuthoritative()
              && r.Success? && r.value.outcome == PromotionCommitted && r.value.hasRecord
              && Reported(cfg, s, t, id, RETIRED, a.promotionDecision, 0, 0, a.digest, r.value.record)
            else t == s && (r.Success? ==> !r.value.hasRecord)
  {
    hide ApplyRetire, Driven, Reported, TrustRecord;
    if Retires(s, id, authority) {
      RetireApplies(cfg, s, id);
    }
  }

  // ----- Release from quarantine -----

  ghost predicate AsksRelease(s: State, id: Id, authority: Authority) {
    HasCurrent(s.artifacts, id) && Current(s.artifacts, id).quarantine.active && !Strange(s, authority)
  }

  /** The gates that decide a release, under the request the coordinator makes of itself. */
  ghost function ReleaseContext(cfg: Config, s: State, id: Id, now: nat): Context
    requires HasCurrent(s.artifacts, id)
  {
    var a := Current(s.artifacts, id);
    Context(s, cfg.futureSkew, a,
            Request(a.id, a.revision, a.digest, CANDIDATE, s.gens.internalRequest + 1, s.gens.internalAttempt + 1,
                    s.CurrentAuthority()),
            s.activeGeneration, now)
  }

  predicate ReleaseDecided(s: State, a: Artifact, d: Decision) {
    && d.id == s.gens.decision + 1 && d.sequence == s.decisionSequence + 1
    && d.request == s.gens.internalRequest + 1 && d.attempt == s.gens.internalAttempt + 1
    && d.artifact == a.id && d.revision == a.revision && d.kind == a.kind && d.from == a.stage && d.to == CANDIDATE
    && d.policyGeneration == s.activeGeneration && d.authority == s.CurrentAuthority() && d.plan == 0 && !d.authoritative
  }

  /** The decision is filed whatever it says. */
  ghost predicate ReleaseLogged(s: State, t: State, d: Decision) {
    && t.decisions == s.decisions[d.id := d] && t.decisionSequence == d.sequence
    && t.gens == s.gens.(decision := d.id, internalRequest := d.request, internalAttempt := d.attempt,
                         transition := t.gens.transition)
  }

  predicate ReleasedTo(s: State, a: Artifact, b: Artifact) {
    && MovedTo(a, b, CANDIDATE, s.commitSequence + 1) && SameContent(a, b) && SamePromotion(a, b)
    && b.revocation == a.revocation && b.supersession == a.supersession
    && b.quarantine == a.quarantine.(active := false)
  }

  ghost predicate ReleaseFrame(cfg: Config, s: State, t: State, id: Id)
    requires HasCurrent(s.artifacts, id)
  {
    var a, q := Current(s.artifacts, id), s.commitSequence + 2;
    && OnlyRevision(s.artifacts, t.artifacts, id, |s.artifacts[id]| - 1) && HasCurrent(t.artifacts, id)
    && ReleasedTo(s, a, Current(t.artifacts, id))
    && t == s.(artifacts := t.artifacts, decisions := t.decisions, decisionSequence := t.decisionSequence, records := t.records,
               history := t.history, commitSequence := q, gens := t.gens)
    && Logs(s.history, t.history, cfg.maxHistory, q, Event(q, Released, a.id, a.revision, a.stage, CANDIDATE))
  }

  lemma ReleaseApplies(cfg: Config, s: State, id: Id, d: Decision, snapshot: Digest)
    requires HasCurrent(s.artifacts, id) && ReleaseDecided(s, Current(s.artifacts, id), d)
    ensures var a := Current(s.artifacts, id);
            var u := ReleaseFiled(s, ReleaseRequest(s, a), d);
            && HasCurrent(u.artifacts, id)
            && var t := ApplyRelease(cfg, u, id, d.id, snapshot);
               && ReleaseFrame(cfg, s, t, id) && ReleaseLogged(s, t, d)
               && Reported(cfg, s, t, id, CANDIDATE, d.id, d.request, d.attempt, snapshot,
                           TrustRecord(u, a, CANDIDATE, d.id, d.request, d.attempt, snapshot, u.commitSequence + 1))
  {
    hide Retain, Logs, Reported, ReleaseFiled;
    var a, q := Current(s.artifacts, id), s.commitSequence + 2;
    var u := ReleaseFiled(s, ReleaseRequest(s, a), d);
    FiledIs(s, ReleaseRequest(s, a), d);
    var t := ApplyRelease(cfg, u, id, d.id, snapshot);
    RetainLogs(s.history, cfg.maxHistory, q, Event(q, Released, a.id, a.revision, a.stage, CANDIDATE));
    RecordIsReported(cfg, s, t, id, CANDIDATE, d.id, d.request, d.attempt, snapshot);
  }

  lemma FiledIs(s: State, req: Request, d: Decision)
    ensures ReleaseFiled(s, req, d) ==
            s.(decisions := s.decisions[d.id := d], decisionSequence := d.sequence,
               gens := s.gens.(decision := d.id, internalRequest := req.request, internalAttempt := req.attempt))
  {
  }

  /** A release is decided exactly if the revision is held: the decision is filed either way, and the revision
      returns to CANDIDATE if and only if a rule governs the release and every requirement of it holds. */
  lemma ReleaseExactly(cfg: Config, s: State, id: Id, authority: Authority, now: nat)
    requires Inv(cfg, s)
    ensures var (t, r) := DoRelease(cfg, s, id, authority, now);
            if !AsksRelease(s, id, authority) then t == s && (r.Success? ==> !r.value.hasRecord)
            else
              var c, k := ReleaseContext(cfg, s, id, now), s.gens.decision + 1;
              && r.Success? && k in t.decisions && ReleaseDecided(s, c.a, t.decisions[k]) && ReleaseLogged(s, t, t.decisions[k])
              && Justified(c, t.decisions[k].outcome)
              && if Eligible(c) then
                   && ReleaseFrame(cfg, s, t, id) && r.value.outcome == PromotionCommitted && r.value.hasRecord
                   && Reported(cfg, s, t, id, CANDIDATE, k, s.gens.internalRequest + 1, s.gens.internalAttempt + 1,
                               SnapshotDigest(c.a, LiveEntries(s.evidence, c.a)), r.value.record)
                 else
                   && t == s.(decisions := t.decisions, decisionSequence := t.decisionSequence, gens := t.gens)
                   && t.gens.transition == s.gens.transition
                   && r.value == Mutation(t.decisions[k].outcome, false, NO_RECORD())
  {
    hide Inv, ApplyRelease, Verdict, Gathered, Eligible, Justified, LiveEntries, ReleaseFrame, Reported, TrustRecord,
         ReleaseFiled;
    if AsksRelease(s, id, authority) {
      var a := Current(s.artifacts, id);
      var req := ReleaseRequest(s, a);
      var c := ReleaseContext(cfg, s, id, now);
      assert c == ContextFor(cfg, s, a, req, s.activeGeneration, now);
      EvidenceSequences(cfg, s);
      VerdictMeaning(c);
      VerdictIsJustified(c);
      if Eligible(c) {
        RuleMoves(cfg, s, c);
      }
      var snapshot := SnapshotDigest(a, Gathered(c));
      var d := JudgedDecision(s, req, a, Verdict(c), snapshot);
      FiledIs(s, req, d);
      ReleaseApplies(cfg, s, id, d, snapshot);
    }
  }

  // ----- Policy -----

  ghost predicate PolicyInForce(s: State, body: Policy, rest: nat) {
    && s.policy.id == s.activePolicy == body.id && s.policy.generation == s.activeGeneration == body.generation
    && s.policy.name == body.name && s.policy.edges == body.edges && s.policy.entry == body.entry
    && s.policy.rules == body.rules
    && s.policy.digest == s.activeDigest == PolicyBody(body.id, body.generation, body.entry, body.edges, rest)
  }

  /** A policy comes into force, sealed and noted, exactly if it validates and its identity is another one or
      its generation advances; reservations stay, for commit to refuse. */
  lemma PublishExactly(cfg: Config, s: State, body: Policy, rest: nat)
    ensures var (t, r), q := Publish(cfg, s, body, rest), s.commitSequence + 1;
            if body.Valid() && (body.id != s.activePolicy || body.generation > s.activeGeneration) then
              && r == Success(body.generation) && PolicyInForce(t, body, rest)
              && t == s.(policy := t.policy, activePolicy := t.activePolicy, activeGeneration := t.activeGeneration,
                         activeDigest := t.activeDigest, commitSequence := q, history := t.history)
              && Logs(s.history, t.history, cfg.maxHistory, q, Event(q, PolicyPublished, 0, 0, INVALID, INVALID))
            else t == s && r == Failure(if body.Valid() then ContentConflict else InvalidArgument)
  {
    hide Policy.Valid, Retain, Logs;
    var q := s.commitSequence + 1;
    RetainLogs(s.history, cfg.maxHistory, q, Event(q, PolicyPublished, 0, 0, INVALID, INVALID));
  }

  /** After another body, graph or generation was published, no plan issued before commits. */
  lemma PublicationFences(cfg: Config, s: State, body: Policy, rest: nat, p: Plan, now: nat)
    requires Inv(cfg, s) && Publish(cfg, s, body, rest).1.Success? && Unmoved(s, p)
    requires body.generation != s.activeGeneration || body.edges != s.policy.edges || body.entry != s.policy.entry ||
             body.id != s.activePolicy
    ensures !Commits(cfg, Publish(cfg, s, body, rest).0, p, now)
  {
    hide Inv, Publish, Policy.Valid, Logs, Eligible, LiveEntries, FindRevision;
    PublishExactly(cfg, s, body, rest);
    SealedHere(cfg, s);
  }

  lemma SealedHere(cfg: Config, s: State)
    requires Inv(cfg, s)
    ensures s.policy.id == s.activePolicy && s.policy.generation == s.activeGeneration && s.policy.digest.PolicyBody?
    ensures s.policy.digest ==
            PolicyBody(s.activePolicy, s.activeGeneration, s.policy.entry, s.policy.edges, s.policy.digest.rest)
  {
    hide ArtifactsConsistent, EvidenceConsistent, RecordsConsistent, TrustConsistent, EvidenceChains;
  }

  // ----- Epochs -----

  function ReleaseNote(q: nat, id: Id, r: Pending): Event { Event(q, RecoveryNote, id, r.revision, INVALID, INVALID) }

  ghost predicate IsNote(pending: map<Id, Pending>, q: nat, e: Event) {
    e.artifact in pending && e == ReleaseNote(q, e.artifact, pending[e.artifact])
  }

  /** Every reservation has a note of its own, in the order of the artifacts, and nothing else is noted. */
  ghost predicate NotesAll(pending: map<Id, Pending>, from: nat, a: map<nat, Event>, b: map<nat, Event>) {
    var to := from + |pending|;
    && (forall q :: !(from < q <= to) ==> ((q in b) <==> (q in a)) && (q in a ==> b[q] == a[q]))
    && (forall q :: from < q <= to ==> q in b && IsNote(pending, q, b[q]))
    && (forall p, q :: from < p < q <= to ==> p in b && q in b && b[p].artifact < b[q].artifact)
  }

  /** All reservations are released. */
  ghost predicate ReleasedAll(s: State, t: State) {
    && t == s.(pending := map[], commitSequence := s.commitSequence + |s.pending|, history := t.history)
    && NotesAll(s.pending, s.commitSequence, s.history, t.history)
  }

  lemma DropsOne(s: State)
    requires s.pending != map[]
    ensures |DropFirst(s).pending| == |s.pending| - 1
  {
    var id := MinKey(s.pending.Keys);
    assert s.pending == (s.pending - {id})[id := s.pending[id]];
  }

  lemma {:induction false} DropAllReleases(s: State)
    ensures ReleasedAll(s, DropAll(s))
    decreases |s.pending|
  {
    if s.pending != map[] {
      DropsOne(s);
      DropAllReleases(DropFirst(s));
      AfterFirst(s, DropFirst(s), DropAll(DropFirst(s)));
    }
  }

  lemma AfterFirst(s: State, u: State, t: State)
    requires s.pending != map[] && u == DropFirst(s) && |u.pending| == |s.pending| - 1 && ReleasedAll(u, t)
    ensures ReleasedAll(s, t)
  {
    hide NotesAll;
    NotesFirst(s.pending, MinKey(s.pending.Keys), s.commitSequence, s.history, t.history);
  }

  lemma NotesFirst(pending: map<Id, Pending>, id: Id, from: nat, a: map<nat, Event>, b: map<nat, Event>)
    requires id in pending && (forall k :: k in pending ==> id <= k) && |pending - {id}| == |pending| - 1
    requires NotesAll(pending - {id}, from + 1, a[from + 1 := ReleaseNote(from + 1, id, pending[id])], b)
    ensures NotesAll(pending, from, a, b)
  {
    var rest, to := pending - {id}, from + |pending|;
    var h := a[from + 1 := ReleaseNote(from + 1, id, pending[id])];
    assert from + 1 in b && b[from + 1] == h[from + 1];
    forall q | from < q <= to ensures q in b && IsNote(pending, q, b[q]) && (q > from + 1 ==> b[q].artifact in rest) {
      if q > from + 1 {
        assert IsNote(rest, q, b[q]);
      }
    }
    forall p, q | from < p < q <= to ensures p in b && q in b && b[p].artifact < b[q].artifact {
      if p == from + 1 {
        assert b[q].artifact in rest;
      }
    }
    forall q | !(from < q <= to) ensures ((q in b) <==> (q in a)) && (q in a ==> b[q] == a[q]) {
      assert (q in h) <==> (q in a);
    }
  }

  /** A restart moves to a later epoch and releases every reservation; any other epoch is refused. */
  lemma RestartExactly(s: State, epoch: nat)
    ensures var (t, r) := Restart(s, epoch);
            if epoch > s.epoch then r == Success(epoch) && ReleasedAll(s.(epoch := epoch), t)
            else t == s && r == Failure(NotAdvancing)
  {
    hide DropAll, ReleasedAll;
    DropAllReleases(s.(epoch := epoch));
  }

  lemma RecoverExactly(s: State)
    ensures ReleasedAll(s, Recover(s))
  {
    hide DropAll, ReleasedAll;
    DropAllReleases(s);
  }

  // ----- Vetoes and compatibility -----

  /** A veto says exactly what it was last set to; the other one, and those of other artifacts, stay. While it
      stands no gate against it holds, and when it is lifted the gate holds. */
  lemma VetoExactly(s: State, id: Id, security: bool, active: bool, c: Context, g: Gate)
    requires id != 0 && c.s == SetVeto(s, id, security, active) && c.a.id == id
    ensures var t := SetVeto(s, id, security, active);
            && id in t.vetoes && t == s.(vetoes := s.vetoes[id := t.vetoes[id]])
            && (security ==> t.vetoes[id].security == active)
            && (!security ==> t.vetoes[id].dependency == active)
            && (security ==> t.vetoes[id].dependency == (id in s.vetoes && s.vetoes[id].dependency))
            && (!security ==> t.vetoes[id].security == (id in s.vetoes && s.vetoes[id].security))
    ensures security && g.kind == SecurityVetoClear ==> (Holds(c, g) <==> !active)
    ensures !security && g.kind == DependencyVetoClear ==> (Holds(c, g) <==> !active)
  {
  }

  lemma VetoRefused(s: State, security: bool, active: bool)
    ensures SetVeto(s, 0, security, active) == s
  {
  }

  /** A compatibility generation advances or is refused; advancing, it releases every reservation, and the gates
      that ask for it are exactly those that hold. */
  lemma CompatibilityExactly(s: State, generation: nat, c: Context, g: Gate)
    requires g.kind == CompatibilityGenerationCurrent && c.s == SetCompatibility(s, generation).0
    ensures var (t, r) := SetCompatibility(s, generation);
            if generation > s.compatibility then
              && r == Success(generation) && t == s.(compatibility := generation, pending := map[])
              && (Holds(c, g) <==> g.compatibility == generation)
            else t == s && r == Failure(NotAdvancing)
  {
  }
}
