/** Each operation keeps the invariant, concluded: policy, epochs, recovery, reload and the trust operations. */
module KeepingAuthority {
  import opened Lifecycle
  import opened Ordered
  import opened Domain
  import opened Store
  import opened Gates
  import opened Steps
  import opened Invariant
  import opened Preservation
  import opened KeepingEvidence

  // ----- Policy publication -----

  lemma PublishKeepsInv(cfg: Config, s: State, body: Policy, rest: nat)
    requires Inv(cfg, s)
    ensures Inv(cfg, Publish(cfg, s, body, rest).0)
  {
    hide ArtifactsConsistent, EvidenceConsistent, PlansConsistent, DecisionsConsistent, Accepts,
         RecordsConsistent, HistoryConsistent, TrustConsistent, RevisionsIssued, EvidenceIssued, PlansIssued,
         PlansResolve, DecisionsIssued, RequestsBound, Reservations, ReservedStages, EvidenceChains, Retain, IsValidName;
    KeptHistory(cfg, s, Event(s.commitSequence + 1, PolicyPublished, 0, 0, INVALID, INVALID));
    LaterSequence(s.evidence, s.gens.evidence, s.commitSequence, s.commitSequence + 1);
  }

  // ----- Recovery -----

  lemma DropFirstKeepsInv(cfg: Config, s: State)
    requires Inv(cfg, s) && s.pending != map[]
    ensures Inv(cfg, DropFirst(s)) && |DropFirst(s).pending| < |s.pending|
  {
    hide PolicyConsistent, ArtifactsConsistent, EvidenceConsistent, PlansConsistent, DecisionsConsistent,
         RecordsConsistent, HistoryConsistent, TrustConsistent, RevisionsIssued, EvidenceIssued, PlansIssued,
         PlansResolve, DecisionsIssued, RequestsBound, Reservations, ReservedStages, EvidenceChains;
    var id := MinKey(s.pending.Keys);
    EraseKeepsInv(cfg, s, {id});
    KeptHistory(cfg, s, Event(s.commitSequence + 1, RecoveryNote, id, s.pending[id].revision, INVALID, INVALID));
    LaterSequence(s.evidence, s.gens.evidence, s.commitSequence, s.commitSequence + 1);
    OneMore(s.pending - {id}, id, s.pending[id]);
    assert s.pending == (s.pending - {id})[id := s.pending[id]];
  }

  lemma {:induction false} DropAllKeepsInv(cfg: Config, s: State)
    requires Inv(cfg, s)
    ensures Inv(cfg, DropAll(s)) && DropAll(s).epoch == s.epoch
    decreases |s.pending|
  {
    hide Inv, DropFirst;
    if s.pending != map[] {
      DropFirstKeepsInv(cfg, s);
      DropFirstKeepsEpoch(s);
      DropAllKeepsInv(cfg, DropFirst(s));
    }
  }

  lemma DropFirstKeepsEpoch(s: State)
    requires s.pending != map[]
    ensures DropFirst(s).epoch == s.epoch
  {
  }

  /** Dropping reservations does not look at the epoch, so it can be advanced afterwards. */
  lemma {:induction false} DropAllCommutes(s: State, epoch: nat)
    ensures DropAll(s.(epoch := epoch)) == DropAll(s).(epoch := epoch)
    decreases |s.pending|
  {
    if s.pending != map[] {
      DropFirstShrinks(s);
      assert DropFirst(s.(epoch := epoch)) == DropFirst(s).(epoch := epoch);
      DropAllCommutes(DropFirst(s), epoch);
    }
  }

  lemma DropFirstShrinks(s: State)
    requires s.pending != map[]
    ensures |DropFirst(s).pending| < |s.pending|
  {
    var id := MinKey(s.pending.Keys);
    OneMore(s.pending - {id}, id, s.pending[id]);
    assert s.pending == (s.pending - {id})[id := s.pending[id]];
  }

  /** Without reservations, nothing is bound to the epoch. */
  lemma EpochKeepsInv(cfg: Config, s: State, epoch: nat)
    requires Inv(cfg, s) && s.pending == map[] && epoch != 0
    ensures Inv(cfg, s.(epoch := epoch))
  {
    hide PolicyConsistent, ArtifactsConsistent, EvidenceConsistent, PlansConsistent, DecisionsConsistent,
         RecordsConsistent, HistoryConsistent, TrustConsistent, RevisionsIssued, EvidenceIssued, PlansIssued,
         PlansResolve, DecisionsIssued, RequestsBound, EvidenceChains;
  }

  lemma RestartKeepsInv(cfg: Config, s: State, epoch: nat)
    requires Inv(cfg, s)
    ensures Inv(cfg, Restart(s, epoch).0)
  {
    hide Inv, DropAll;
    if epoch > s.epoch {
      DropAllCommutes(s, epoch);
      DropAllKeepsInv(cfg, s);
      EpochKeepsInv(cfg, DropAll(s), epoch);
    }
  }

  // ----- Reload -----

  /** The engine's own snapshot always installs, under any later epoch. */
  lemma SnapshotInstalls(cfg: Config, s: State, epoch: nat)
    requires Inv(cfg, s) && epoch != 0
    ensures Consistent(Snapshot(s).(epoch := epoch))
    ensures Install(s, Snapshot(s).(epoch := epoch)) == (Snapshot(s).(epoch := epoch), Success(epoch))
    ensures Inv(cfg, Snapshot(s).(epoch := epoch))
  {
    hide Inv, Consistent;
    EraseKeepsInv(cfg, s, s.pending.Keys);
    assert s.pending - s.pending.Keys == map[];
    var t := s.(pending := map[]);
    EpochKeepsInv(cfg, t, epoch);
    InternalIdsKeepInv(cfg, t.(epoch := epoch), WORD, WORD);
    InvIsConsistent(cfg, Snapshot(s).(epoch := epoch));
  }

  lemma ReloadIs(cfg: Config, s: State, requests: Id)
    requires Inv(cfg, s)
    ensures Reload(s, requests) == Resumed(Snapshot(s), requests).(epoch := s.epoch + 1)
    ensures Inv(cfg, Reload(s, requests))
  {
    hide Inv, Consistent;
    SnapshotInstalls(cfg, s, s.epoch + 1);
    var t := Snapshot(s).(epoch := s.epoch + 1);
    InternalIdsKeepInv(cfg, t, requests, WORD);
    assert t.(gens := t.gens.(internalRequest := requests, internalAttempt := WORD)) ==
           Resumed(Snapshot(s), requests).(epoch := s.epoch + 1);
    InvIsConsistent(cfg, Resumed(Snapshot(s), requests).(epoch := s.epoch + 1));
  }

  lemma ReloadKeepsInv(cfg: Config, s: State, requests: Id)
    requires Inv(cfg, s)
    ensures Inv(cfg, Reload(s, requests))
  {
    hide Inv, Reload;
    ReloadIs(cfg, s, requests);
  }

  // ----- Trust operations as called -----

  lemma DoQuarantineKeepsInv(cfg: Config, s: State, id: Id, reason: string, authority: Authority)
    requires Inv(cfg, s)
    ensures Inv(cfg, DoQuarantine(cfg, s, id, reason, authority).0)
  {
    hide Inv, ApplyQuarantine, IsValidName;
    if HasCurrent(s.artifacts, id) {
      QuarantineKeepsInv(cfg, s, id);
    }
  }

  lemma DoReleaseKeepsInv(cfg: Config, s: State, id: Id, authority: Authority, now: nat)
    requires Inv(cfg, s)
    ensures Inv(cfg, DoRelease(cfg, s, id, authority, now).0)
  {
    hide Inv, ApplyRelease, Verdict, Gathered;
    if HasCurrent(s.artifacts, id) {
      var a := Current(s.artifacts, id);
      var req := ReleaseRequest(s, a);
      var c := ContextFor(cfg, s, a, req, s.activeGeneration, now);
      VerdictHasOutcome(cfg, s, c);
      var snapshot := SnapshotDigest(a, Gathered(c));
      var d := JudgedDecision(s, req, a, Verdict(c), snapshot);
      DecisionKeepsInv(cfg, s, d);
      InternalIdsKeepInv(cfg, WithDecision(s, d), req.request, req.attempt);
      var t := WithDecision(s, d);
      ReleaseKeepsInv(cfg, t.(gens := t.gens.(internalRequest := req.request, internalAttempt := req.attempt)), id, d.id,
                      snapshot);
    }
  }

  lemma DoRevokeKeepsInv(cfg: Config, s: State, id: Id, decision: Id, reason: string, authority: Authority, cause: Id)
    requires Inv(cfg, s)
    ensures Inv(cfg, DoRevoke(cfg, s, id, decision, reason, authority, cause).0)
  {
    hide Inv, ApplyRevoke, IsValidName;
    if HasCurrent(s.artifacts, id) {
      var a := Current(s.artifacts, id);
      var target := if decision == 0 then a.promotionDecision else decision;
      if target != 0 && target in s.decisions {
        RevokeKeepsInv(cfg, s, id, target, cause);
      }
    }
  }

  lemma DoSupersedeKeepsInv(cfg: Config, s: State, id: Id, successor: Id, authority: Authority)
    requires Inv(cfg, s)
    ensures Inv(cfg, DoSupersede(cfg, s, id, successor, authority).0)
  {
    hide Inv, ApplySupersede;
    if HasCurrent(s.artifacts, id) && HasCurrent(s.artifacts, successor) {
      SupersedeKeepsInv(cfg, s, id, successor);
    }
  }

  lemma DoRetireKeepsInv(cfg: Config, s: State, id: Id, authority: Authority)
    requires Inv(cfg, s)
    ensures Inv(cfg, DoRetire(cfg, s, id, authority).0)
  {
    hide Inv, ApplyRetire;
    if HasCurrent(s.artifacts, id) {
      RetireKeepsInv(cfg, s, id);
    }
  }

  lemma DoRevokeEvidenceKeepsInv(cfg: Config, s: State, id: Id, authority: Authority)
    requires Inv(cfg, s)
    ensures Inv(cfg, DoRevokeEvidence(cfg, s, id, authority).0)
  {
    hide Inv, ApplyWithdraw;
    if id in s.evidence {
      WithdrawKeepsInv(cfg, s, id);
    }
  }

  // ----- Vetoes and compatibility -----

  lemma SetVetoKeepsInv(cfg: Config, s: State, id: Id, security: bool, active: bool)
    requires Inv(cfg, s)
    ensures Inv(cfg, SetVeto(s, id, security, active))
  {
    hide PolicyConsistent, ArtifactsConsistent, EvidenceConsistent, PlansConsistent, DecisionsConsistent,
         RecordsConsistent, HistoryConsistent, TrustConsistent, RevisionsIssued, EvidenceIssued, PlansIssued,
         PlansResolve, DecisionsIssued, RequestsBound, Reservations, ReservedStages, EvidenceChains;
  }

  lemma SetCompatibilityKeepsInv(cfg: Config, s: State, generation: nat)
    requires Inv(cfg, s)
    ensures Inv(cfg, SetCompatibility(s, generation).0)
  {
    hide PolicyConsistent, ArtifactsConsistent, EvidenceConsistent, PlansConsistent, DecisionsConsistent,
         RecordsConsistent, HistoryConsistent, TrustConsistent, RevisionsIssued, EvidenceIssued, PlansIssued,
         PlansResolve, DecisionsIssued, RequestsBound, EvidenceChains;
  }
}
