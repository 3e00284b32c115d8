/** The promotion engine as the source runs it: one object whose methods update its maps. */
module Engine {
  import opened Lifecycle
  import opened Ordered
  import opened Domain
  import opened Store
  import opened Gates
  import opened Steps
  import opened Invariant
  import opened Preservation
  import opened Keeping
  import opened KeepingEvidence
  import opened KeepingAuthority
  import opened Reference
  import opened Checks

  class PromotionEngine {
    const config: Config

    // Coordinator state.
    var coordinator: Id
    var epoch: nat
    var commitSequence: nat
    var decisionSequence: nat
    var artifactGeneration: nat
    var compatibility: nat
    var activePolicy: Id
    var activeGeneration: nat
    var activeDigest: Digest
    var policy: Policy
    var artifacts: map<Id, seq<Artifact>>
    var evidence: map<Id, Evidence>
    var plans: map<Id, Plan>
    var decisions: map<Id, Decision>
    var records: map<Id, Record>
    var idempotency: map<Id, Idempotency>
    var history: map<nat, Event>
    var vetoes: map<Id, Veto>
    var pending: map<Id, Pending>
    var gens: Generators

    // The engine's own bookkeeping.
    var admissionOpen: bool
    var persistEpoch: nat

    function View(): State
      reads this
    {
      State(coordinator, epoch, commitSequence, decisionSequence, artifactGeneration, compatibility,
            activePolicy, activeGeneration, activeDigest, policy,
            artifacts, evidence, plans, decisions, records, idempotency, history, vetoes, pending, gens)
    }

    /** A fresh coordinator under the reference policy. The salts behind identities and the
        unparsed rest of the policy digest are inputs; an unusable configuration is replaced. */
    constructor (chosen: Config, salt: nat, entropy: nat, first: nat, generators: Generators, rest: nat)
      requires salt != 0
      ensures Valid() && admissionOpen && persistEpoch == 0
      ensures config == (if chosen.Valid() then chosen else DEFAULTS)
      ensures View() == Initial(salt, entropy, first, generators, rest)
    {
      config := if chosen.Valid() then chosen else DEFAULTS;
      admissionOpen := true;
      persistEpoch := 0;
      new;
      hide Inv, Initial;
      Assign(Initial(salt, entropy, first, generators, rest));
      InitialHasInv(config, salt, entropy, first, generators, rest);
    }

    method CloseAdmission()
      modifies this`admissionOpen
      ensures !admissionOpen
    {
      admissionOpen := false;
    }

    method OpenAdmission()
      modifies this`admissionOpen
      ensures admissionOpen
    {
      admissionOpen := true;
    }

    // ----- Small steps -----

    method NextSequence() returns (q: nat)
      modifies this`commitSequence
      ensures q == old(commitSequence) + 1 && View() == old(View()).(commitSequence := q)
    {
      commitSequence := commitSequence + 1;
      q := commitSequence;
    }

    /** The first event is dropped when the history is full. */
    method File(event: Event)
      requires config.Valid()
      modifies this`history
      ensures View() == old(View()).(history := Retain(old(history), config.maxHistory, event.sequence, event))
    {
      if |history| >= config.maxHistory {
        assert |history| > 0 ==> history != map[];
        var first := FirstKey(history.Keys);
        history := history - {first};
      }
      history := history[event.sequence := event];
    }

    method AppendHistory(kind: EventKind, a: Artifact, from: Stage, to: Stage)
      requires config.Valid()
      modifies this`commitSequence, this`history
      ensures View() == Note(old(View()), config, kind, a, from, to)
    {
      var q := NextSequence();
      File(Event(q, kind, a.id, a.revision, from, to));
    }

    method AppendRecord(r: Record)
      requires config.Valid()
      modifies this`records
      ensures records == Retain(old(records), config.maxRecords, r.transition, r)
    {
      if |records| >= config.maxRecords {
        assert |records| > 0 ==> records != map[];
        var first := FirstKey(records.Keys);
        records := records - {first};
      }
      records := records[r.transition := r];
    }

    method NextTransition() returns (id: Id)
      modifies this`gens
      ensures id == old(gens.transition) + 1 && gens == old(gens).(transition := id)
    {
      gens := gens.(transition := gens.transition + 1);
      id := gens.transition;
    }

    method Erase(id: Id)
      modifies this`pending
      ensures pending == old(pending) - {id}
    {
      pending := pending - {id};
    }

    /** Writes a revision back into its chain. */
    method Store(id: Id, i: nat, a: Artifact)
      requires id in artifacts && i < |artifacts[id]|
      modifies this`artifacts
      ensures artifacts == old(artifacts)[id := old(artifacts)[id][i := a]]
    {
      artifacts := artifacts[id := artifacts[id][i := a]];
    }

    /** Writes the current revision back and drops its reservation. */
    method Move(id: Id, b: Artifact)
      requires HasCurrent(artifacts, id)
      modifies this`artifacts, this`pending
      ensures View() == WithCurrent(old(View()), id, b).(pending := old(pending) - {id})
    {
      Store(id, |artifacts[id]| - 1, b);
      Erase(id);
    }

    /** Retains a record under the next transition identity. */
    method Retained(draft: Record) returns (record: Record)
      requires config.Valid()
      modifies this`records, this`gens
      ensures record == draft.(transition := old(gens.transition) + 1)
      ensures View() == WithRecord(old(View()), config, record)
    {
      hide Retain;
      var id := NextTransition();
      record := draft.(transition := id);
      AppendRecord(record);
    }

    /** What revocation, supersession and retirement do once the revision is rewritten. */
    method Conclude(id: Id, a: Artifact, b: Artifact, kind: EventKind, decision: Id) returns (record: Record)
      requires config.Valid() && HasCurrent(artifacts, id) && SameIdentity(a, b)
      modifies this`artifacts, this`pending, this`commitSequence, this`history, this`records, this`gens
      ensures record == TrustRecord(old(View()), a, b.stage, decision, 0, 0, a.digest, b.lastSequence)
      ensures var t := WithRecord(WithCurrent(old(View()), id, b), config, record);
              View() == Note(t.(pending := old(pending) - {id}), config, kind, a, a.stage, b.stage)
    {
      hide Retain, Note, WithCurrent;
      Move(id, b);
      record := Retained(Record(0, b.id, b.revision, b.digest, a.stage, b.stage, decision, 0, 0, 0,
                                activePolicy, activeGeneration, Authority(coordinator, epoch), b.digest, b.lastSequence));
      ghost var u := View();
      AppendHistory(kind, b, a.stage, b.stage);
      SameNote(u, config, kind, a, b, a.stage, b.stage);
    }

    // ----- Registration -----

    method ChainClash(chain: seq<Artifact>, digest: Digest, kind: ArtifactKind) returns (clash: bool)
      ensures clash <==> exists i :: 0 <= i < |chain| && chain[i].digest == digest && chain[i].kind != kind
    {
      var i := 0;
      while i < |chain|
        invariant 0 <= i <= |chain|
        invariant forall k :: 0 <= k < i ==> !(chain[k].digest == digest && chain[k].kind != kind)
      {
        if chain[i].digest == digest && chain[i].kind != kind {
          return true;
        }
        i := i + 1;
      }
      return false;
    }

    method FindClash(digest: Digest, kind: ArtifactKind) returns (clash: bool)
      ensures clash <==> DigestClash(artifacts, digest, kind)
    {
      var todo := artifacts.Keys;
      while todo != {}
        invariant todo <= artifacts.Keys
        invariant forall id, i :: id in artifacts && id !in todo && 0 <= i < |artifacts[id]| ==>
                    !(artifacts[id][i].digest == digest && artifacts[id][i].kind != kind)
        decreases |todo|
      {
        var id :| id in todo;
        clash := ChainClash(artifacts[id], digest, kind);
        if clash {
          return;
        }
        todo := todo - {id};
      }
      return false;
    }

    method NextRevision() returns (id: Id)
      modifies this`gens
      ensures id == old(gens.revision) + 1
      ensures View() == old(View()).(gens := old(gens).(revision := id))
    {
      gens := gens.(revision := gens.revision + 1);
      id := gens.revision;
    }

    method SupersedePrevious(id: Id, revision: Id)
      requires id in artifacts && artifacts[id] != []
      modifies this`artifacts, this`commitSequence, this`history
      ensures View() == OutdatePrevious(old(View()), id, revision)
    {
      hide AuthorityId;
      var last := |artifacts[id]| - 1;
      var previous := artifacts[id][last];
      var stamp := AuthorityId(View());
      var q := NextSequence();
      previous := previous.(supersession := Supersession(true, previous.id, revision, stamp, q), lastSequence := q);
      if previous.stage != PROMOTED && previous.stage != REVOKED && previous.stage != RETIRED {
        previous := previous.(stage := SUPERSEDED, stageGeneration := previous.stageGeneration + 1);
      }
      Store(id, last, previous);
      history := history[q := Event(q, SupersededByRegistration, previous.id, previous.revision,
                                    previous.stage, previous.stage)];
    }

    method PushRevision(registration: Registration, revision: Id)
      requires config.Valid()
      modifies this`artifacts, this`artifactGeneration, this`commitSequence, this`history
      ensures View() == AppendRevision(old(View()), config, registration, revision)
    {
      hide Retain;
      var chain := if registration.id in artifacts then artifacts[registration.id] else [];
      var q := NextSequence();
      var a := NewRevision(registration, revision, |chain| + 1, policy.entry, q);
      artifactGeneration := artifactGeneration + 1;
      artifacts := artifacts[registration.id := chain + [a]];
      File(Event(q, Registered, a.id, a.revision, INVALID, a.stage));
    }

    /** Failures take no persist epoch, although one that is admitted and then fails one of the
        last two checks has used up a revision identity. */
    method RegisterArtifact(registration: Registration) returns (r: Result<Id>)
      requires Valid()
      modifies this
      ensures Valid() && persistEpoch >= old(persistEpoch) && admissionOpen == old(admissionOpen)
      ensures persistEpoch == old(persistEpoch) <==> r.Failure?
      ensures r.Failure? ==> View() == old(View()).(gens := old(gens).(revision := gens.revision))
      ensures r.Failure? ==>
                gens.revision == old(gens.revision) +
                                 (if old(admissionOpen) && Admitted(config, old(View()), registration) then 1 else 0)
      ensures r == Failure(ShuttingDown) <==> registration.Valid() && !old(admissionOpen)
      ensures r == Failure(ShuttingDown) ==> View() == old(View())
      ensures r != Failure(ShuttingDown) ==> (View(), r) == Register(config, old(View()), registration)
    {
      hide Inv, OutdatePrevious, AppendRevision, DigestClash, Registration.Valid;
      ConfigIsValid();
      RegisterKeepsInv(config, View(), registration);
      if !registration.Valid() {
        return Failure(InvalidArgument);
      }
      if !admissionOpen {
        return Failure(ShuttingDown);
      }
      if registration.id !in artifacts && |artifacts| >= config.maxArtifacts {
        return Failure(AdmissionBound);
      }
      var clash := FindClash(registration.digest, registration.kind);
      if clash {
        return Failure(ContentConflict);
      }
      var chain := if registration.id in artifacts then artifacts[registration.id] else [];
      var revision := NextRevision();
      if |chain| >= config.maxRevisions {
        return Failure(AdmissionBound);
      }
      if chain != [] && chain[|chain| - 1].digest == registration.digest {
        return Failure(AlreadyExists);
      }
      if chain != [] {
        SupersedePrevious(registration.id, revision);
      }
      PushRevision(registration, revision);
      persistEpoch := persistEpoch + 1;
      return Success(revision);
    }

    // ----- Evidence -----

    /** The first record of a key, in identity order, that nothing has superseded. */
    method FindPrevious(key: EvidenceKey) returns (found: bool, previous: Id)
      ensures found <==> Unsuperseded(evidence, key) != {}
      ensures found ==> previous == MinKey(Unsuperseded(evidence, key))
    {
      var todo := evidence.Keys;
      while todo != {}
        invariant todo <= evidence.Keys
        invariant Unsuperseded(evidence, key) <= todo
        decreases |todo|
      {
        var id := FirstKey(todo);
        if KeyOf(evidence[id]) == key && !evidence[id].superseded {
          assert id in Unsuperseded(evidence, key);
          return true, id;
        }
        todo := todo - {id};
      }
      return false, 0;
    }

    method CountAbout(subject: Id, revision: Id) returns (n: nat)
      ensures n == |AboutSubject(evidence, subject, revision)|
    {
      n := 0;
      ghost var counted: set<Id> := {};
      var todo := evidence.Keys;
      while todo != {}
        invariant todo <= evidence.Keys
        invariant counted == AboutSubject(evidence, subject, revision) - todo && n == |counted|
        decreases |todo|
      {
        var id :| id in todo;
        if evidence[id].core.subject == subject && evidence[id].core.subjectRevision == revision {
          n := n + 1;
          counted := counted + {id};
        }
        todo := todo - {id};
      }
      assert counted == AboutSubject(evidence, subject, revision);
    }

    method NextEvidence() returns (id: Id)
      modifies this`gens
      ensures id == old(gens.evidence) + 1
      ensures View() == old(View()).(gens := old(gens).(evidence := id))
    {
      gens := gens.(evidence := gens.evidence + 1);
      id := gens.evidence;
    }

    method Put(id: Id, e: Evidence)
      modifies this`evidence
      ensures View() == old(View()).(evidence := old(evidence)[id := e])
    {
      evidence := evidence[id := e];
    }

    static lemma EvidenceIdentity(submission: Submission, id: Id, generation: nat, q: nat)
      ensures NewEvidence(submission, id, generation, q).core.id == id
    {
    }

    method StoreFresh(submission: Submission) returns (id: Id)
      requires config.Valid()
      modifies this`gens, this`commitSequence, this`evidence, this`history
      ensures View() == StoreFirst(old(View()), config, submission) && id == old(gens.evidence) + 1
    {
      hide Retain;
      id := NextEvidence();
      var q := NextSequence();
      var e := NewEvidence(submission, id, 1, q);
      evidence := evidence[id := e];
      File(SubjectEvent(q, EvidenceSubmitted, e));
    }

    method StoreNext(submission: Submission, previous: Id) returns (id: Id)
      requires config.Valid() && previous in evidence
      modifies this`gens, this`commitSequence, this`evidence, this`history
      ensures View() == StoreReplacement(old(View()), config, submission, previous) && id == old(gens.evidence) + 1
    {
      hide Retain, NewEvidence;
      id := NextEvidence();
      var q := NextSequence();
      var generation := evidence[previous].core.generation + 1;
      var e := NewEvidence(submission, id, generation, q);
      Put(previous, evidence[previous].(superseded := true, supersededBy := id));
      var q2 := NextSequence();
      File(SubjectEvent(q2, EvidenceReplaced, e));
      EvidenceIdentity(submission, id, generation, q);
      Put(id, e);
      File(SubjectEvent(q, EvidenceSubmitted, e));
    }

    method SubmitEvidence(submission: Submission) returns (r: Result<Id>)
      requires Valid()
      modifies this
      ensures Valid() && Bumped(old(View()), old(persistEpoch)) && admissionOpen == old(admissionOpen)
      ensures r == Failure(ShuttingDown) <==> submission.Valid() && !old(admissionOpen)
      ensures r == Failure(ShuttingDown) ==> View() == old(View())
      ensures r != Failure(ShuttingDown) ==> (View(), r) == Submit(config, old(View()), submission)
    {
      hide Inv, StoreFirst, StoreReplacement, Submission.Valid, AboutSubject, FindRevision, Unsuperseded, SubmissionKey;
      ConfigIsValid();
      SubmitKeepsInv(config, View(), submission);
      if !submission.Valid() {
        return Failure(InvalidArgument);
      }
      if !admissionOpen {
        return Failure(ShuttingDown);
      }
      var i := FindRevision(artifacts, submission.subject, submission.subjectRevision);
      if i < 0 {
        return Failure(NotFound);
      }
      if artifacts[submission.subject][i].digest != submission.subjectDigest {
        return Failure(WrongDigest);
      }
      var replaced, previous := FindPrevious(SubmissionKey(submission));
      var perRevision := CountAbout(submission.subject, submission.subjectRevision);
      if !replaced {
        if |evidence| >= config.maxEvidence || perRevision >= config.maxEvidencePerRevision {
          return Failure(AdmissionBound);
        }
        var id := StoreFresh(submission);
        persistEpoch := persistEpoch + 1;
        return Success(id);
      }
      assert previous in evidence by { UnsupersededIsStored(SubmissionKey(submission)); }
      var id := StoreNext(submission, previous);
      persistEpoch := persistEpoch + 1;
      return Success(id);
    }

    lemma UnsupersededIsStored(key: EvidenceKey)
      ensures Unsuperseded(evidence, key) <= evidence.Keys
    {
    }

    // ----- Policy, epochs, recovery -----

    /** `rest` stands for the digest of what the policy body holds after its graph. */
    method PublishPolicy(body: Policy, rest: nat) returns (r: Result<nat>)
      requires Valid()
      modifies this
      ensures Valid() && Bumped(old(View()), old(persistEpoch)) && admissionOpen == old(admissionOpen)
      ensures (View(), r) == Publish(config, old(View()), body, rest)
    {
      hide Inv, Published, Policy.Valid;
      ConfigIsValid();
      PublishKeepsInv(config, View(), body, rest);
      var good := ValidatePolicy(body);
      if !good {
        return Failure(InvalidArgument);
      }
      if body.id == activePolicy && body.generation <= activeGeneration {
        return Failure(ContentConflict);
      }
      SetActivePolicy(body.(digest := body.BodyDigest(rest)));
      persistEpoch := persistEpoch + 1;
      return Success(body.generation);
    }

    method SetBody(p: Policy)
      modifies this`activePolicy, this`activeGeneration, this`activeDigest, this`policy
      ensures View() == WithPolicy(old(View()), p)
    {
      activePolicy := p.id;
      activeGeneration := p.generation;
      policy := p;
      activeDigest := policy.digest;
    }

    method SetActivePolicy(p: Policy)
      requires config.Valid()
      modifies this`activePolicy, this`activeGeneration, this`activeDigest, this`policy, this`commitSequence, this`history
      ensures View() == Published(config, old(View()), p)
    {
      hide Retain;
      SetBody(p);
      var q := NextSequence();
      File(Event(q, PolicyPublished, 0, 0, INVALID, INVALID));
    }

    /** Reservations are released in artifact order, each with a note. */
    method ReleaseAll() returns (released: nat)
      modifies this`pending, this`commitSequence, this`history
      ensures View() == DropAll(old(View())) && pending == map[]
      ensures released == |old(pending)|
    {
      hide DropFirst, DropAll;
      released := 0;
      ghost var start := View();
      DropAllStep(start);
      while pending != map[]
        invariant DropAll(View()) == DropAll(start)
        invariant View() == start.(pending := pending, commitSequence := commitSequence, history := history)
        invariant released + |pending| == |start.pending|
        decreases |pending|
      {
        DropAllStep(View());
        ghost var before := View();
        var id := FirstKey(pending.Keys);
        DropOne(id);
        DropFirstShrinks(before);
        DropFirstFields(before);
        released := released + 1;
      }
      DropAllStep(View());
    }

    static lemma DropAllStep(s: State)
      ensures DropAll(s) == if s.pending == map[] then s else DropAll(DropFirst(s))
    {
    }

    static lemma DropFirstFields(s: State)
      requires s.pending != map[]
      ensures |DropFirst(s).pending| == |s.pending| - 1
      ensures var t := DropFirst(s);
              t == s.(pending := t.pending, commitSequence := t.commitSequence, history := t.history)
    {
      var id := MinKey(s.pending.Keys);
      OneMore(s.pending - {id}, id, s.pending[id]);
      assert s.pending == (s.pending - {id})[id := s.pending[id]];
    }

    method DropOne(id: Id)
      requires pending != map[] && id == MinKey(pending.Keys)
      modifies this`pending, this`commitSequence, this`history
      ensures View() == DropFirst(old(View()))
    {
      var q := NextSequence();
      history := history[q := Event(q, RecoveryNote, id, pending[id].revision, INVALID, INVALID)];
      pending := pending - {id};
    }

    method RestartCoordinator(next: nat) returns (r: Result<nat>)
      requires Valid()
      modifies this
      ensures Valid() && Bumped(old(View()), old(persistEpoch)) && admissionOpen == old(admissionOpen)
      ensures (View(), r) == Restart(old(View()), next)
    {
      hide Inv, DropAll;
      RestartKeepsInv(config, View(), next);
      if next <= epoch {
        return Failure(NotAdvancing);
      }
      epoch := next;
      var _ := ReleaseAll();
      persistEpoch := persistEpoch + 1;
      return Success(next);
    }

    method RecoverInFlight() returns (released: nat)
      requires Valid()
      modifies this
      ensures Valid() && Bumped(old(View()), old(persistEpoch)) && admissionOpen == old(admissionOpen)
      ensures View() == Recover(old(View())) && released == |old(pending)|
    {
      hide Inv, DropAll;
      DropAllKeepsInv(config, View());
      DropAllStep(View());
      released := ReleaseAll();
      if released > 0 {
        persistEpoch := persistEpoch + 1;
      }
    }

    /** Everything but the reservations and the two internal generators, in a form that installs
        under any epoch and then satisfies the invariant. */
    method TakeSnapshot() returns (s: State)
      ensures s.pending == map[]
      ensures View() == s.(pending := pending, gens := s.gens.(internalRequest := gens.internalRequest,
                                                               internalAttempt := gens.internalAttempt))
      ensures Valid() ==>
                forall next: nat :: next != 0 ==>
                  && Install(View(), s.(epoch := next)) == (s.(epoch := next), Success(next))
                  && Consistent(s.(epoch := next)) && Inv(config, s.(epoch := next))
    {
      hide Inv, Consistent, Install;
      forall next: nat | next != 0 && Valid()
        ensures Install(View(), Snapshot(View()).(epoch := next)) == (Snapshot(View()).(epoch := next), Success(next))
        ensures Consistent(Snapshot(View()).(epoch := next)) && Inv(config, Snapshot(View()).(epoch := next))
      {
        SnapshotInstalls(config, View(), next);
      }
      s := View().(pending := map[], gens := gens.(internalRequest := WORD, internalAttempt := WORD));
    }

    /** An inconsistent state is refused and nothing changes. A consistent one is taken as it is;
        the theorems about runs hold from there on if it is also sealed and traceable. */
    method InstallState(loaded: State) returns (r: Result<nat>)
      modifies this
      ensures (View(), r) == Install(old(View()), loaded)
      ensures Bumped(old(View()), old(persistEpoch))
      ensures r.Success? ==> (Valid() <==> config.Valid() && loaded.policy.Sealed() && Traceable(loaded))
    {
      hide Consistent, Inv, Traceable, Policy.Sealed;
      var next := loaded.(pending := map[]);
      var good := VerifyConsistency(next);
      if !good {
        return Failure(InvalidArgument);
      }
      LoadedIsValid(config, loaded);
      Assign(next);
      persistEpoch := persistEpoch + 1;
      return Success(next.epoch);
    }

    /** A refusal always leaves a reason behind. */
    static lemma RefusalShows(s: State, p: Plan)
      ensures var d := Steps.StoredDecision(s, p.decision);
              Close(s, p, d.(outcome := Outcome.Conflict, reasons := d.reasons + 1)) != s
    {
      var d := Steps.StoredDecision(s, p.decision);
      var t := Close(s, p, d.(outcome := Outcome.Conflict, reasons := d.reasons + 1));
      assert p.decision in t.decisions && t.decisions[p.decision].reasons == d.reasons + 1;
    }

    static lemma LoadedIsValid(cfg: Config, s: State)
      requires Consistent(s.(pending := map[]))
      ensures Inv(cfg, s.(pending := map[])) <==> cfg.Valid() && s.policy.Sealed() && Traceable(s)
    {
      hide Inv, Consistent;
      InvOfLoaded(cfg, s.(pending := map[]));
    }

    method AssignAuthority(s: State)
      modifies this`coordinator, this`epoch, this`gens
      ensures View() == old(View()).(coordinator := s.coordinator, epoch := s.epoch, gens := s.gens)
    {
      coordinator := s.coordinator;
      epoch := s.epoch;
      gens := s.gens;
    }

    method AssignCounters(s: State)
      modifies this`commitSequence, this`decisionSequence, this`artifactGeneration, this`compatibility
      ensures View() == old(View()).(
                          commitSequence := s.commitSequence, decisionSequence := s.decisionSequence,
                          artifactGeneration := s.artifactGeneration, compatibility := s.compatibility)
    {
      commitSequence := s.commitSequence;
      decisionSequence := s.decisionSequence;
      artifactGeneration := s.artifactGeneration;
      compatibility := s.compatibility;
    }

    method AssignSubjects(s: State)
      modifies this`artifacts, this`evidence, this`vetoes
      ensures View() == old(View()).(artifacts := s.artifacts, evidence := s.evidence, vetoes := s.vetoes)
    {
      artifacts := s.artifacts;
      evidence := s.evidence;
      vetoes := s.vetoes;
    }

    method AssignPromotions(s: State)
      modifies this`plans, this`decisions, this`pending
      ensures View() == old(View()).(plans := s.plans, decisions := s.decisions, pending := s.pending)
    {
      plans := s.plans;
      decisions := s.decisions;
      pending := s.pending;
    }

    method AssignLedger(s: State)
      modifies this`records, this`idempotency, this`history
      ensures View() == old(View()).(records := s.records, idempotency := s.idempotency, history := s.history)
    {
      records := s.records;
      idempotency := s.idempotency;
      history := s.history;
    }

    method AssignPolicy(s: State)
      modifies this`activePolicy, this`activeGeneration, this`activeDigest, this`policy
      ensures View() == old(View()).(
                          activePolicy := s.activePolicy, activeGeneration := s.activeGeneration,
                          activeDigest := s.activeDigest, policy := s.policy)
    {
      activePolicy := s.activePolicy;
      activeGeneration := s.activeGeneration;
      activeDigest := s.activeDigest;
      policy := s.policy;
    }

    method Assign(s: State)
      modifies this
      ensures View() == s && persistEpoch == old(persistEpoch) && admissionOpen == old(admissionOpen)
    {
      AssignAuthority(s);
      AssignCounters(s);
      AssignPolicy(s);
      AssignSubjects(s);
      AssignPromotions(s);
      AssignLedger(s);
    }

    // ----- Vetoes and compatibility -----

    method SetArtifactVeto(id: Id, security: bool, active: bool)
      requires Valid()
      modifies this
      ensures Valid() && Bumped(old(View()), old(persistEpoch)) && admissionOpen == old(admissionOpen)
      ensures View() == SetVeto(old(View()), id, security, active)
    {
      hide Inv, WithVeto;
      SetVetoKeepsInv(config, View(), id, security, active);
      if id == 0 {
        return;
      }
      var veto := if id in vetoes then vetoes[id] else Veto(false, false);
      PutVeto(id, if security then veto.(security := active) else veto.(dependency := active));
      persistEpoch := persistEpoch + 1;
    }

    method PutVeto(id: Id, veto: Veto)
      modifies this`vetoes
      ensures View() == WithVeto(old(View()), id, veto)
    {
      vetoes := vetoes[id := veto];
    }

    method SetCompatibilityGeneration(generation: nat) returns (r: Result<nat>)
      requires Valid()
      modifies this
      ensures Valid() && Bumped(old(View()), old(persistEpoch)) && admissionOpen == old(admissionOpen)
      ensures (View(), r) == SetCompatibility(old(View()), generation)
    {
      hide Inv;
      SetCompatibilityKeepsInv(config, View(), generation);
      if generation <= compatibility {
        return Failure(NotAdvancing);
      }
      compatibility := generation;
      pending := map[];
      persistEpoch := persistEpoch + 1;
      return Success(generation);
    }

    // ----- Trust operations -----

    method HoldCurrent(id: Id)
      requires config.Valid() && HasCurrent(artifacts, id)
      modifies this`artifacts, this`pending, this`commitSequence, this`history
      ensures View() == ApplyQuarantine(config, old(View()), id)
    {
      hide Retain, AuthorityId;
      var a := Current(artifacts, id);
      var stamp := AuthorityId(View());
      var q := NextSequence();
      var b := a.(quarantine := Domain.Quarantine(true, stamp, q), lastSequence := q, stage := QUARANTINED,
                  stageGeneration := a.stageGeneration + 1);
      Move(id, b);
      AppendHistory(Held, b, a.stage, QUARANTINED);
    }

    method Quarantine(id: Id, reason: string, authority: Authority) returns (r: Result<Mutation>)
      requires Valid()
      modifies this
      ensures Valid() && Bumped(old(View()), old(persistEpoch)) && admissionOpen == old(admissionOpen)
      ensures r == Failure(ShuttingDown) <==> !old(admissionOpen) && IsValidName(reason) && !Foreign(old(View()), authority)
      ensures r == Failure(ShuttingDown) ==> View() == old(View())
      ensures r != Failure(ShuttingDown) ==> (View(), r) == DoQuarantine(config, old(View()), id, reason, authority)
    {
      hide Inv, ApplyQuarantine, IsValidName;
      ConfigIsValid();
      DoQuarantineKeepsInv(config, View(), id, reason, authority);
      if !IsValidName(reason) {
        return Failure(InvalidArgument);
      }
      if authority.Valid() && authority.coordinator != coordinator {
        return Failure(StaleCoordinator);
      }
      if !admissionOpen {
        return Failure(ShuttingDown);
      }
      if !HasCurrent(artifacts, id) {
        return Failure(NotFound);
      }
      var a := Current(artifacts, id);
      if a.quarantine.active {
        return Success(Unchanged(IsQuarantined));
      }
      if a.stage == REVOKED || a.stage == RETIRED {
        return Success(Unchanged(IsRevoked));
      }
      if Edge(a.stage, QUARANTINED) !in policy.edges {
        return Failure(IllegalTransition);
      }
      HoldCurrent(id);
      persistEpoch := persistEpoch + 1;
      return Success(Unchanged(IsQuarantined));
    }

    method RevokeCurrent(id: Id, target: Id, cause: Id) returns (record: Record)
      requires config.Valid() && HasCurrent(artifacts, id)
      modifies this`artifacts, this`pending, this`commitSequence, this`history, this`records, this`gens
      ensures View() == ApplyRevoke(config, old(View()), id, target, cause)
      ensures var a := Current(old(artifacts), id);
              record == TrustRecord(old(View()), a, REVOKED, target, 0, 0, a.digest, old(commitSequence) + 1)
    {
      hide Retain, AuthorityId;
      var a := Current(artifacts, id);
      var stamp := AuthorityId(View());
      var q := NextSequence();
      var b := a.(revocation := Revocation(true, target, stamp, q, cause), lastSequence := q, promoted := false,
                  stage := REVOKED, stageGeneration := a.stageGeneration + 1);
      record := Conclude(id, a, b, TrustRevoked, target);
    }

    method Revoke(id: Id, decision: Id, reason: string, authority: Authority, cause: Id) returns (r: Result<Mutation>)
      requires Valid()
      modifies this
      ensures Valid() && Bumped(old(View()), old(persistEpoch)) && admissionOpen == old(admissionOpen)
      ensures r == Failure(ShuttingDown) <==> !old(admissionOpen) && IsValidName(reason)
      ensures r == Failure(ShuttingDown) ==> View() == old(View())
      ensures r != Failure(ShuttingDown) ==>
                (View(), r) == DoRevoke(config, old(View()), id, decision, reason, authority, cause)
    {
      hide Inv, ApplyRevoke, IsValidName, TrustRecord;
      ConfigIsValid();
      DoRevokeKeepsInv(config, View(), id, decision, reason, authority, cause);
      if !IsValidName(reason) {
        return Failure(InvalidArgument);
      }
      if !admissionOpen {
        return Failure(ShuttingDown);
      }
      if !HasCurrent(artifacts, id) {
        return Failure(NotFound);
      }
      var a := Current(artifacts, id);
      if a.revocation.active {
        return Success(Unchanged(IsRevoked));
      }
      if authority.Valid() && authority.coordinator != coordinator {
        return Failure(StaleCoordinator);
      }
      var target := decision;
      if target == 0 {
        if !a.promoted || a.promotionDecision == 0 {
          return Success(Unchanged(IsRevoked));
        }
        target := a.promotionDecision;
      }
      if target !in decisions {
        return Failure(DecisionUnknown);
      }
      if cause != 0 && cause !in evidence {
        return Failure(EvidenceUnknown);
      }
      var record := RevokeCurrent(id, target, cause);
      persistEpoch := persistEpoch + 1;
      return Success(Mutation(IsRevoked, true, record));
    }

    method SupersedeCurrent(id: Id, successor: Id) returns (record: Record)
      requires config.Valid() && HasCurrent(artifacts, id) && HasCurrent(artifacts, successor)
      modifies this`artifacts, this`pending, this`commitSequence, this`history, this`records, this`gens
      requires Current(artifacts, successor).id == successor
      ensures View() == ApplySupersede(config, old(View()), id, successor)
      ensures var a := Current(old(artifacts), id);
              record == TrustRecord(old(View()), a, SUPERSEDED, a.promotionDecision, 0, 0, a.digest, old(commitSequence) + 1)
    {
      hide Retain, AuthorityId;
      var a, next := Current(artifacts, id), Current(artifacts, successor);
      var stamp := AuthorityId(View());
      var q := NextSequence();
      var b := a.(supersession := Supersession(true, successor, next.revision, stamp, q), lastSequence := q,
                  stage := SUPERSEDED, stageGeneration := a.stageGeneration + 1, promoted := false);
      record := Conclude(id, a, b, EventKind.Superseded, b.promotionDecision);
    }

    method Supersede(id: Id, successor: Id, authority: Authority) returns (r: Result<Mutation>)
      requires Valid()
      modifies this
      ensures Valid() && Bumped(old(View()), old(persistEpoch)) && admissionOpen == old(admissionOpen)
      ensures r == Failure(ShuttingDown) <==> !old(admissionOpen)
      ensures r == Failure(ShuttingDown) ==> View() == old(View())
      ensures r != Failure(ShuttingDown) ==> (View(), r) == DoSupersede(config, old(View()), id, successor, authority)
    {
      hide Inv, ApplySupersede, TrustRecord;
      ConfigIsValid();
      DoSupersedeKeepsInv(config, View(), id, successor, authority);
      if !admissionOpen {
        return Failure(ShuttingDown);
      }
      if successor == 0 || successor == id {
        return Failure(InvalidArgument);
      }
      if !HasCurrent(artifacts, id) || !HasCurrent(artifacts, successor) {
        return Failure(NotFound);
      }
      var a := Current(artifacts, id);
      if authority.Valid() && authority.coordinator != coordinator {
        return Failure(StaleCoordinator);
      }
      if a.supersession.active || a.stage == REVOKED || a.stage == RETIRED {
        return Success(Unchanged(IsSuperseded));
      }
      if Edge(a.stage, SUPERSEDED) !in policy.edges {
        return Failure(IllegalTransition);
      }
      IdIsCurrent(successor);
      var record := SupersedeCurrent(id, successor);
      persistEpoch := persistEpoch + 1;
      return Success(Mutation(IsSuperseded, true, record));
    }

    method RetireCurrent(id: Id) returns (record: Record)
      requires config.Valid() && HasCurrent(artifacts, id)
      modifies this`artifacts, this`pending, this`commitSequence, this`history, this`records, this`gens
      ensures View() == ApplyRetire(config, old(View()), id)
      ensures var a := Current(old(artifacts), id);
              record == TrustRecord(old(View()), a, RETIRED, a.promotionDecision, 0, 0, a.digest, old(commitSequence) + 1)
    {
      hide Retain;
      var a := Current(artifacts, id);
      var q := NextSequence();
      var b := a.(promoted := false, stage := RETIRED, stageGeneration := a.stageGeneration + 1, lastSequence := q);
      record := Conclude(id, a, b, EventKind.Retired, b.promotionDecision);
    }

    method Retire(id: Id, authority: Authority) returns (r: Result<Mutation>)
      requires Valid()
      modifies this
      ensures Valid() && Bumped(old(View()), old(persistEpoch)) && admissionOpen == old(admissionOpen)
      ensures r == Failure(ShuttingDown) <==> !old(admissionOpen)
      ensures r == Failure(ShuttingDown) ==> View() == old(View())
      ensures r != Failure(ShuttingDown) ==> (View(), r) == DoRetire(config, old(View()), id, authority)
    {
      hide Inv, ApplyRetire, TrustRecord;
      ConfigIsValid();
      DoRetireKeepsInv(config, View(), id, authority);
      if !admissionOpen {
        return Failure(ShuttingDown);
      }
      if !HasCurrent(artifacts, id) {
        return Failure(NotFound);
      }
      if authority.Valid() && authority.coordinator != coordinator {
        return Failure(StaleCoordinator);
      }
      var a := Current(artifacts, id);
      if a.stage == RETIRED {
        return Success(Unchanged(PromotionIneligible));
      }
      if Edge(a.stage, RETIRED) !in policy.edges {
        return Failure(IllegalTransition);
      }
      var record := RetireCurrent(id);
      persistEpoch := persistEpoch + 1;
      return Success(Mutation(PromotionCommitted, true, record));
    }

    /** The reservations on the revision this evidence is about, found by a scan. */
    method FindFenced(e: Evidence) returns (gone: set<Id>)
      ensures gone == Fenced(pending, e)
    {
      gone := {};
      var todo := pending.Keys;
      while todo != {}
        invariant todo <= pending.Keys
        invariant gone == Fenced(pending, e) - todo
        decreases |todo|
      {
        var id :| id in todo;
        if pending[id].artifact == e.core.subject && pending[id].revision == e.core.subjectRevision {
          gone := gone + {id};
        }
        todo := todo - {id};
      }
    }

    method WithdrawRecord(id: Id)
      requires config.Valid() && id in evidence
      modifies this`evidence, this`pending, this`commitSequence, this`history
      ensures View() == ApplyWithdraw(config, old(View()), id)
    {
      hide Retain, AuthorityId;
      var e := evidence[id];
      var stamp := AuthorityId(View());
      var q := NextSequence();
      var core := e.core.(revoked := true);
      evidence := evidence[id := e.(core := core, revocationAuthority := stamp, revocationSequence := q,
                                    integrity := IntegrityOf(core))];
      var gone := FindFenced(e);
      pending := pending - gone;
      File(Event(q, EvidenceWithdrawn, e.core.subject, e.core.subjectRevision, INVALID, INVALID));
    }

    method RevokeEvidence(id: Id, authority: Authority) returns (r: Result<Mutation>)
      requires Valid()
      modifies this
      ensures Valid() && Bumped(old(View()), old(persistEpoch)) && admissionOpen == old(admissionOpen)
      ensures r == Failure(ShuttingDown) <==> !old(admissionOpen)
      ensures r == Failure(ShuttingDown) ==> View() == old(View())
      ensures r != Failure(ShuttingDown) ==> (View(), r) == DoRevokeEvidence(config, old(View()), id, authority)
    {
      hide Inv, ApplyWithdraw;
      ConfigIsValid();
      DoRevokeEvidenceKeepsInv(config, View(), id, authority);
      if !admissionOpen {
        return Failure(ShuttingDown);
      }
      if id !in evidence {
        return Failure(EvidenceUnknown);
      }
      if authority.Valid() && authority.coordinator != coordinator {
        return Failure(StaleCoordinator);
      }
      if evidence[id].core.revoked {
        return Success(Unchanged(Outcome.EvidenceRevoked));
      }
      WithdrawRecord(id);
      persistEpoch := persistEpoch + 1;
      return Success(Unchanged(Outcome.EvidenceRevoked));
    }

    static lemma FiledIdentities(s: State, request: Request, d: Decision)
      ensures var u := ReleaseFiled(s, request, d);
              && u.gens.internalRequest == request.request && u.gens.internalAttempt == request.attempt
              && u.artifacts == s.artifacts && u.commitSequence == s.commitSequence
    {
    }

    static lemma SameNote(s: State, cfg: Config, kind: EventKind, a: Artifact, b: Artifact, from: Stage, to: Stage)
      requires SameIdentity(a, b)
      ensures Note(s, cfg, kind, a, from, to) == Note(s, cfg, kind, b, from, to)
    {
    }

    method ReleaseCurrent(id: Id, decision: Id, snapshot: Digest) returns (record: Record)
      requires config.Valid() && HasCurrent(artifacts, id)
      modifies this`artifacts, this`commitSequence, this`history, this`records, this`gens
      ensures View() == ApplyRelease(config, old(View()), id, decision, snapshot)
      ensures record == TrustRecord(old(View()), Current(old(artifacts), id), CANDIDATE, decision,
                                    old(gens.internalRequest), old(gens.internalAttempt), snapshot, old(commitSequence) + 1)
    {
      hide Retain, Note;
      var a := Current(artifacts, id);
      var q := NextSequence();
      var b := a.(quarantine := a.quarantine.(active := false), stage := CANDIDATE,
                  stageGeneration := a.stageGeneration + 1, lastSequence := q);
      Store(id, |artifacts[id]| - 1, b);
      record := Retained(Record(0, b.id, b.revision, b.digest, a.stage, CANDIDATE, decision, 0,
                                gens.internalRequest, gens.internalAttempt,
                                activePolicy, activeGeneration, Authority(coordinator, epoch), snapshot, q));
      ghost var u := View();
      AppendHistory(Released, b, a.stage, CANDIDATE);
      SameNote(u, config, Released, a, b, a.stage, CANDIDATE);
    }

    /** Takes the next decision identity and sequence. */
    method NextDecision() returns (id: Id, q: nat)
      modifies this`gens, this`decisionSequence
      ensures id == old(gens.decision) + 1 && q == old(decisionSequence) + 1
      ensures gens == old(gens).(decision := id) && decisionSequence == q
    {
      gens := gens.(decision := gens.decision + 1);
      decisionSequence := decisionSequence + 1;
      id, q := gens.decision, decisionSequence;
    }

    method FileRelease(request: Request, a: Artifact, outcome: GateOutcome, snapshot: Digest) returns (decision: Id)
      modifies this`gens, this`decisionSequence, this`decisions
      ensures decision == old(gens.decision) + 1
      ensures var d := JudgedDecision(old(View()), request, a, outcome, snapshot);
              View() == ReleaseFiled(old(View()), request, d)
    {
      gens := gens.(internalRequest := request.request, internalAttempt := request.attempt);
      var q;
      decision, q := NextDecision();
      decisions := decisions[decision := Decision(decision, request.request, request.attempt, request.artifact,
                                                  request.revision, a.kind, a.stage, request.stage, outcome.outcome,
                                                  activeGeneration, Authority(coordinator, epoch), q, snapshot, 0,
                                                  false, outcome.reasons)];
    }

    method ReleaseQuarantine(id: Id, authority: Authority, now: nat) returns (r: Result<Mutation>)
      requires Valid()
      modifies this
      ensures Valid() && Bumped(old(View()), old(persistEpoch)) && admissionOpen == old(admissionOpen)
      ensures r == Failure(ShuttingDown) <==> !old(admissionOpen)
      ensures r == Failure(ShuttingDown) ==> View() == old(View())
      ensures r != Failure(ShuttingDown) ==> (View(), r) == DoRelease(config, old(View()), id, authority, now)
    {
      hide Inv, ApplyRelease, TrustRecord, Verdict, Gathered, DistinctSequences, Eligible, ReleaseFiled, Justified;
      ConfigIsValid();
      ghost var s := View();
      DoReleaseKeepsInv(config, s, id, authority, now);
      if !admissionOpen {
        return Failure(ShuttingDown);
      }
      if !HasCurrent(artifacts, id) {
        return Failure(NotFound);
      }
      var a := Current(artifacts, id);
      if !a.quarantine.active {
        return Success(Unchanged(PromotionIneligible));
      }
      if authority.Valid() && authority.coordinator != coordinator {
        return Failure(StaleCoordinator);
      }
      var request := Request(id, a.revision, a.digest, CANDIDATE, gens.internalRequest + 1, gens.internalAttempt + 1,
                             Authority(coordinator, epoch));
      SequencesAreDistinct();
      var outcome, entries := EvaluateGates(Context(View(), config.futureSkew, a, request, activeGeneration, now));
      IdIsCurrent(id);
      var snapshot := SnapshotDigest(a, entries);
      var decision := FileRelease(request, a, outcome, snapshot);
      FiledIdentities(s, request, JudgedDecision(s, request, a, outcome, snapshot));
      if outcome.failed {
        persistEpoch := persistEpoch + 1;
        return Success(Unchanged(outcome.outcome));
      }
      var record := ReleaseCurrent(id, decision, snapshot);
      persistEpoch := persistEpoch + 1;
      return Success(Mutation(PromotionCommitted, true, record));
    }

    // ----- Evaluation -----

    method TrimOldestPlan()
      requires config.Valid()
      modifies this`plans
      ensures View() == old(View()).(plans := TrimPlans(old(View()), config))
    {
      if |plans| >= config.maxPlans {
        assert |plans| > 0 ==> plans != map[];
        var first := FirstKey(plans.Keys);
        plans := plans - {first};
      }
    }

    method TakePlanIdentities() returns (plan: Id, reservation: Id)
      modifies this`gens
      ensures plan == old(gens.plan) + 1 && reservation == old(gens.reservation) + 1
      ensures View() == old(View()).(gens := old(gens).(plan := plan, reservation := reservation))
    {
      gens := gens.(plan := gens.plan + 1, reservation := gens.reservation + 1);
      plan, reservation := gens.plan, gens.reservation;
    }

    method Grant(p: Plan, r: Pending)
      modifies this`plans, this`pending
      ensures View() == Reserve(old(View()), p, r)
    {
      pending := pending[p.artifact := r];
      plans := plans[p.id := p];
    }

    method MakeRoom() returns (plan: Id, created: nat, reservation: Id)
      requires config.Valid()
      modifies this`plans, this`gens, this`commitSequence
      ensures View() == Allocate(config, old(View()))
      ensures plan == old(gens.plan) + 1 && created == old(commitSequence) + 1 && reservation == old(gens.reservation) + 1
    {
      hide TrimPlans;
      TrimOldestPlan();
      plan, reservation := TakePlanIdentities();
      created := NextSequence();
    }

    method Issue(a: Artifact, request: Request, d: Decision, now: nat) returns (e: Evaluation)
      requires config.Valid()
      modifies this`plans, this`gens, this`commitSequence, this`pending
      ensures (View(), e) == Granted(config, old(View()), a, request, d, now)
    {
      hide Allocate, Reserve;
      ghost var s := View();
      var authority := Authority(coordinator, epoch);
      var id, created, reservation := MakeRoom();
      var p := Plan(id, request.request, request.attempt, d.id,
                    a.id, a.revision, a.generation, a.digest, a.kind, a.stage, request.stage, a.stageGeneration,
                    activePolicy, activeGeneration, activeDigest, GraphOf(policy.edges),
                    authority, d.snapshot, compatibility,
                    a.lastSequence, created, d.sequence, config.planTtl > 0, now + config.planTtl);
      var held := Pending(reservation, a.id, a.revision, a.stageGeneration, a.stage, request.stage,
                          id, request.request, request.attempt, authority);
      if |pending| < config.maxPending || a.id in pending {
        Grant(p, held);
        e := Evaluation(d.(plan := id), true, p);
      } else {
        e := Evaluation(d.(outcome := AdmissionRejected, reasons := d.reasons + 1), false, NO_PLAN());
      }
    }

    method JudgeRequest(a: Artifact, request: Request, now: nat) returns (e: Evaluation)
      requires config.Valid() && DistinctSequences(evidence)
      modifies this`plans, this`gens, this`commitSequence, this`pending
      ensures (View(), e) == Judge(config, old(View()), a, request, now)
    {
      hide Granted, Verdict, Gathered, Eligible, Justified, DistinctSequences;
      var d := BaseDecision(View(), request).(kind := a.kind, from := a.stage);
      var conflicted := false;
      if request.artifact in pending {
        var holder := pending[request.artifact];
        conflicted := !(holder.request == request.request && holder.attempt == request.attempt);
      }
      if a.stage == request.stage {
        var current := a.CurrentlyAuthoritative();
        return Evaluation(d.(outcome := if current then AlreadyPromoted else TransitionIllegal, authoritative := current,
                             reasons := 1), false, NO_PLAN());
      }
      var governed := policy.FindRule(a.kind, a.stage, request.stage) >= 0;
      if Edge(a.stage, request.stage) !in policy.edges && !governed {
        return Evaluation(d.(outcome := TransitionIllegal, reasons := 1), false, NO_PLAN());
      }
      if conflicted {
        return Evaluation(d.(outcome := Outcome.Conflict, reasons := 1), false, NO_PLAN());
      }
      var outcome, entries := EvaluateGates(Context(View(), config.futureSkew, a, request, activeGeneration, now));
      d := d.(outcome := outcome.outcome, reasons := outcome.reasons,
              snapshot := if governed then SnapshotDigest(a, entries) else Zero);
      if outcome.failed {
        return Evaluation(d, false, NO_PLAN());
      }
      e := Issue(a, request, d, now);
    }

    method StoreDecision(d: Decision)
      modifies this`decisions, this`gens, this`decisionSequence
      ensures View() == WithDecision(old(View()), d)
    {
      gens := gens.(decision := d.id);
      decisionSequence := d.sequence;
      decisions := decisions[d.id := d];
    }

    method Bind(request: Id, record: Idempotency)
      modifies this`idempotency
      ensures View() == old(View()).(idempotency := old(idempotency)[request := record])
    {
      idempotency := idempotency[request := record];
    }

    method FileOutcome(a: Artifact, request: Request, d: Decision)
      requires config.Valid()
      modifies this`decisions, this`gens, this`decisionSequence, this`idempotency, this`commitSequence, this`history
      ensures View() == FileDecision(config, old(View()), a, request, d)
    {
      hide Note, WithDecision;
      StoreDecision(d);
      Bind(request.request, Idempotency(request.request, request.attempt, d.id, d.outcome, d.plan, request.ContentDigest()));
      AppendHistory(if Succeeded(d.outcome) then Evaluated else EventKind.Rejected, a, a.stage, request.stage);
    }

    method EvaluateRequest(request: Request, now: nat) returns (r: Result<Evaluation>)
      requires Valid()
      modifies this
      ensures Valid() && Bumped(old(View()), old(persistEpoch)) && admissionOpen == old(admissionOpen)
      ensures r == Failure(ShuttingDown) <==> !old(admissionOpen)
      ensures r == Failure(ShuttingDown) ==> View() == old(View())
      ensures r != Failure(ShuttingDown) ==> (View(), r) == Evaluate(config, old(View()), request, now)
    {
      hide Inv, FindRevision, Judge, FileDecision, WithDecision, DistinctSequences, Request.WellFormed, Request.ContentDigest;
      ConfigIsValid();
      EvaluateKeepsInv(config, View(), request, now);
      if !admissionOpen {
        return Failure(ShuttingDown);
      }
      if !request.WellFormed() {
        return Failure(InvalidArgument);
      }
      if request.request in idempotency {
        if idempotency[request.request].digest != request.ContentDigest() {
          return Failure(RequestReused);
        }
        if idempotency[request.request].decision in decisions {
          return Success(Evaluation(decisions[idempotency[request.request].decision], false, NO_PLAN()));
        }
      }
      var i := FindRevision(artifacts, request.artifact, request.revision);
      var e: Evaluation;
      if i < 0 {
        e := Evaluation(BaseDecision(View(), request).(outcome := ArtifactNotFound, reasons := 1), false, NO_PLAN());
        StoreDecision(e.decision);
      } else {
        var a := artifacts[request.artifact][i];
        if a.digest != request.digest {
          e := Evaluation(BaseDecision(View(), request).(outcome := DigestMismatch, kind := a.kind, from := a.stage,
                                                         reasons := 1), false, NO_PLAN());
          StoreDecision(e.decision);
        } else {
          SequencesAreDistinct();
          e := JudgeRequest(a, request, now);
          FileOutcome(a, request, e.decision);
        }
      }
      persistEpoch := persistEpoch + 1;
      return Success(e);
    }

    // ----- Commit -----

    method CloseDecision(p: Plan, d: Decision)
      modifies this`decisions, this`pending
      ensures View() == Close(old(View()), p, d)
    {
      decisions := decisions[p.decision := d];
      pending := pending - {p.artifact};
    }

    method RewriteDecision(p: Plan, d: Decision)
      modifies this`decisions
      ensures View() == old(View()).(decisions := old(decisions)[p.decision := d])
    {
      decisions := decisions[p.decision := d];
    }

    method StoreRevision(id: Id, i: nat, a: Artifact)
      requires id in artifacts && i < |artifacts[id]|
      modifies this`artifacts
      ensures View() == WithArtifact(old(View()), id, i, a)
    {
      artifacts := artifacts[id := artifacts[id][i := a]];
    }

    method MarkRequest(p: Plan)
      modifies this`idempotency
      ensures View() == old(View()).(idempotency := MarkCommitted(old(idempotency), p))
    {
      if p.request in idempotency {
        idempotency := idempotency[p.request :=
          idempotency[p.request].(outcome := PromotionCommitted, decision := p.decision)];
      }
    }

    method MoveAndRecord(p: Plan, i: nat) returns (record: Record)
      requires config.Valid() && p.artifact in artifacts && i < |artifacts[p.artifact]|
      modifies this`artifacts, this`commitSequence, this`records, this`gens
      ensures var s := old(View());
              var a := s.artifacts[p.artifact][i];
              && record == CommitRecord(s, p, a)
              && View() == WithRecord(WithArtifact(s, p.artifact, i, Committed'(s, p, a)), config, record).(
                             commitSequence := s.commitSequence + 1)
    {
      hide Retain;
      var a := artifacts[p.artifact][i];
      var q := NextSequence();
      var b := a.(stage := p.to, stageGeneration := a.stageGeneration + 1, lastSequence := q);
      if p.to == PROMOTED {
        b := b.(promoted := true, promotionDecision := p.decision, promotionSequence := q);
      }
      StoreRevision(p.artifact, i, b);
      record := Retained(Record(0, p.artifact, p.revision, p.digest, a.stage, p.to, p.decision, p.id, p.request, p.attempt,
                                p.policy, p.policyGeneration, p.authority, p.snapshot, q));
    }

    method ApplyTransition(p: Plan, i: nat, d: Decision) returns (record: Record)
      requires config.Valid() && p.artifact in artifacts && i < |artifacts[p.artifact]|
      modifies this`artifacts, this`commitSequence, this`records, this`gens, this`decisions, this`pending,
               this`idempotency, this`history
      ensures View() == ApplyPlan(config, old(View()), p, i, d)
      ensures record == CommitRecord(old(View()), p, old(artifacts)[p.artifact][i])
    {
      hide Retain, MarkCommitted, Committed';
      var a := artifacts[p.artifact][i];
      record := MoveAndRecord(p, i);
      CloseDecision(p, d.(outcome := PromotionCommitted, authoritative := p.to == PROMOTED));
      MarkRequest(p);
      File(Event(record.sequence, if p.to == PROMOTED then Committed else Evaluated, a.id, a.revision, a.stage, p.to));
    }

    method RevalidatePlan(p: Plan, i: nat, now: nat) returns (r: Commitment)
      requires config.Valid() && DistinctSequences(evidence)
      requires p.artifact in artifacts && i < |artifacts[p.artifact]|
      modifies this`artifacts, this`commitSequence, this`records, this`gens, this`decisions, this`pending,
               this`idempotency, this`history
      ensures (View(), r) == Revalidate(config, old(View()), p, i, now)
    {
      hide ApplyPlan, Close, Verdict, Gathered, Eligible, Justified, DistinctSequences;
      var a := artifacts[p.artifact][i];
      var d := Steps.StoredDecision(View(), p.decision);
      var outcome, entries := EvaluateGates(
        Context(View(), config.futureSkew, a, PlanRequest(p), d.policyGeneration, now));
      var snapshot := SnapshotDigest(a, entries);
      var governed := policy.FindRule(a.kind, a.stage, p.to) >= 0;
      d := d.(kind := a.kind, from := a.stage, to := p.to, reasons := d.reasons + outcome.reasons,
              snapshot := if governed then snapshot else d.snapshot);
      if snapshot != p.snapshot {
        CloseDecision(p, d.(outcome := RevalidationRequired, reasons := d.reasons + 1));
        return Commitment(NoOutcome, false, NO_RECORD());
      }
      if outcome.failed {
        CloseDecision(p, d.(outcome := outcome.outcome));
        return Commitment(outcome.outcome, false, NO_RECORD());
      }
      if a.stage == p.to {
        CloseDecision(p, d.(outcome := AlreadyPromoted, authoritative := a.CurrentlyAuthoritative()));
        return Commitment(AlreadyPromoted, false, NO_RECORD());
      }
      var record := ApplyTransition(p, i, d);
      return Commitment(PromotionCommitted, true, record);
    }

    /** A refusal before the reservation is looked at takes no persist epoch, and yet a plan refused
        because the policy moved rewrites its decision and drops the reservation. */
    method CommitPlan(p: Plan, now: nat) returns (r: Result<Commitment>)
      requires Valid()
      modifies this
      ensures Valid() && persistEpoch >= old(persistEpoch) && admissionOpen == old(admissionOpen)
      ensures r == Failure(ShuttingDown) <==> !old(admissionOpen)
      ensures r == Failure(ShuttingDown) ==> View() == old(View())
      ensures r != Failure(ShuttingDown) ==> (View(), r) == Commit(config, old(View()), p, now)
      ensures persistEpoch == old(persistEpoch) <==>
                || !old(admissionOpen) || !Known(old(View()), p) || PolicyMoved(old(View()), p)
                || FindRevision(old(artifacts), p.artifact, p.revision) < 0
      ensures persistEpoch == old(persistEpoch) ==>
                (View() != old(View()) <==>
                   old(admissionOpen) && Known(old(View()), p) && PolicyMoved(old(View()), p))
      ensures r.Success? && r.value.hasRecord ==> persistEpoch > old(persistEpoch)
    {
      hide Inv, FindRevision, Revalidate, Close, PolicyMoved, DistinctSequences, Plan.Valid;
      ConfigIsValid();
      CommitKeepsInv(config, View(), p, now);
      if !admissionOpen {
        return Failure(ShuttingDown);
      }
      if !p.Valid() {
        return Failure(InvalidArgument);
      }
      if p.id !in plans {
        return Failure(PlanUnknown);
      }
      if plans[p.id] != p {
        return Failure(PlanAltered);
      }
      var d := Steps.StoredDecision(View(), p.decision);
      if PolicyMoved(View(), p) {
        RefusalShows(View(), p);
        CloseDecision(p, d.(outcome := Outcome.Conflict, reasons := d.reasons + 1));
        return Success(Commitment(Outcome.Conflict, false, NO_RECORD()));
      }
      var i := FindRevision(artifacts, p.artifact, p.revision);
      if i < 0 {
        return Success(Commitment(ArtifactNotFound, false, NO_RECORD()));
      }
      if p.hasExpiry && now > p.expires {
        CloseDecision(p, d.(outcome := RevalidationRequired, reasons := d.reasons + 1));
        persistEpoch := persistEpoch + 1;
        return Success(Commitment(RevalidationRequired, false, NO_RECORD()));
      }
      if p.artifact !in pending || pending[p.artifact].plan != p.id {
        RewriteDecision(p, d.(outcome := Outcome.Conflict, reasons := d.reasons + 1));
        persistEpoch := persistEpoch + 1;
        return Success(Commitment(Outcome.Conflict, false, NO_RECORD()));
      }
      SequencesAreDistinct();
      var c := RevalidatePlan(p, i, now);
      persistEpoch := persistEpoch + 1;
      return Success(c);
    }

    /** An evaluation and a commit, each its own critical section. */
    method Promote(request: Request, now: nat, later: nat) returns (r: Result<Commitment>)
      requires Valid()
      modifies this
      ensures Valid()
      ensures !old(admissionOpen) ==> r == Failure(ShuttingDown) && View() == old(View())
      ensures old(admissionOpen) ==>
                var (t, e) := Evaluate(config, old(View()), request, now);
                if e.Failure? then View() == t && r == Failure(e.error)
                else if !e.value.hasPlan then
                  View() == t && r == Success(Commitment(e.value.decision.outcome, false, NO_RECORD()))
                else (View(), r) == Commit(config, t, e.value.plan, later)
    {
      hide Inv, Evaluate, Commit;
      var e := EvaluateRequest(request, now);
      if e.Failure? {
        return Failure(e.error);
      }
      if !e.value.hasPlan {
        return Success(Commitment(e.value.decision.outcome, false, NO_RECORD()));
      }
      r := CommitPlan(e.value.plan, later);
    }

    // ----- The invariant -----

    ghost predicate Valid()
      reads this
    {
      Inv(config, View())
    }

    lemma ConfigIsValid()
      requires Valid()
      ensures config.Valid()
    {
    }

    lemma SequencesAreDistinct()
      requires Valid()
      ensures DistinctSequences(View().evidence)
    {
    }

    lemma IdIsCurrent(id: Id)
      requires Valid() && HasCurrent(artifacts, id)
      ensures Current(artifacts, id).id == id
    {
      hide Inv;
      StoredRevision(config, View(), id, |artifacts[id]| - 1);
    }

    /** A changed state has a new persist epoch. */
    ghost predicate Bumped(s: State, before: nat)
      reads this
    {
      before <= persistEpoch && (persistEpoch == before ==> View() == s)
    }
  }
}
