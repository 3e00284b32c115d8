/** What registration, evidence and its withdrawal do, and what they decide. */
module Intake {
  import opened Lifecycle
  import opened Ordered
  import opened Domain
  import opened Store
  import opened Gates
  import opened Steps
  import opened Invariant
  import opened Preservation
  import opened KeepingEvidence
  import opened Promotions
  import opened Effects

  /** The stamp of the coordinator that acted: its high half, and its epoch. */
  predicate Stamps(s: State, x: Id) { s.epoch < WORD ==> x / WORD == s.coordinator / WORD && x % WORD == s.epoch }

  lemma AuthorityStamps(s: State)
    ensures Stamps(s, AuthorityId(s))
  {
  }

  // ----- Registration -----

  /** What a registration must declare. */
  predicate Declared(reg: Registration) {
    && reg.id != 0 && reg.kind != 0 && reg.digest != Zero && IsValidName(reg.name)
    && (reg.producer.worker != 0 <==> reg.producer.boot != 0)
    && |reg.provenance| <= 64 && |reg.dependencies| <= 64
    && (forall p :: p in reg.provenance ==> p.reference != 0) && (forall d :: d in reg.dependencies ==> IsValidName(d))
  }

  /** Content is never classified twice. */
  ghost predicate Classified(artifacts: map<Id, seq<Artifact>>, digest: Digest, kind: ArtifactKind) {
    forall id, i :: id in artifacts && 0 <= i < |artifacts[id]| && artifacts[id][i].digest == digest ==>
      artifacts[id][i].kind == kind
  }

  ghost predicate Registers(cfg: Config, s: State, reg: Registration) {
    && Declared(reg) && (reg.id in s.artifacts || |s.artifacts| < cfg.maxArtifacts)
    && Classified(s.artifacts, reg.digest, reg.kind)
    && |ChainOf(s.artifacts, reg.id)| < cfg.maxRevisions
    && (HasCurrent(s.artifacts, reg.id) ==> Current(s.artifacts, reg.id).digest != reg.digest)
  }

  /** A registration is taken exactly if it is well declared, there is room, its content is not known under
      another kind, and it is not what is current; refused, it changes no more than a generator. */
  lemma RegisterExactly(cfg: Config, s: State, reg: Registration)
    ensures var (t, r) := Register(cfg, s, reg);
            && (r.Success? <==> Registers(cfg, s, reg))
            && (!r.Success? ==> t == s || t == s.(gens := s.gens.(revision := s.gens.revision + 1)))
            && (!Declared(reg) ==> r == Failure(InvalidArgument))
            && (Declared(reg) && reg.id !in s.artifacts && |s.artifacts| >= cfg.maxArtifacts ==> r == Failure(AdmissionBound))
            && (Declared(reg) && (reg.id in s.artifacts || |s.artifacts| < cfg.maxArtifacts) ==>
                  (!Classified(s.artifacts, reg.digest, reg.kind) <==> r == Failure(ContentConflict)))
  {
    hide IsValidName, AppendRevision, OutdatePrevious;
  }

  /** The revision a registration stores: exactly what was declared, at the entry of the policy in force. */
  ghost predicate StoredAs(s: State, reg: Registration, k: Id, n: nat, sequence: nat, a: Artifact) {
    && a.id == reg.id && a.revision == k && a.generation == n && a.kind == reg.kind && a.digest == reg.digest
    && a.name == reg.name && a.producer == reg.producer && a.provenance == reg.provenance
    && Ascending(a.dependencies) && (forall d :: d in a.dependencies <==> d in reg.dependencies)
    && a.stage == s.policy.entry && a.stageGeneration == 1 && a.lastSequence == sequence
    && !a.promoted && a.promotionDecision == 0 && a.promotionSequence == 0
    && !a.quarantine.active && !a.revocation.active && !a.supersession.active && !a.CurrentlyAuthoritative()
  }

  /** The revision before it is superseded by it, and leaves its stage unless that is a final one. */
  predicate SupersededBy(s: State, a: Artifact, k: Id, b: Artifact) {
    && SameContent(a, b) && SamePromotion(a, b) && b.quarantine == a.quarantine && b.revocation == a.revocation
    && b.supersession.active && b.supersession.successor == a.id && b.supersession.successorRevision == k
    && Stamps(s, b.supersession.authority) && b.supersession.sequence == s.commitSequence + 1 == b.lastSequence
    && if a.stage == PROMOTED || a.stage == REVOKED || a.stage == RETIRED
       then b.stage == a.stage && b.stageGeneration == a.stageGeneration
       else b.stage == SUPERSEDED && b.stageGeneration == a.stageGeneration + 1
  }

  ghost predicate Chained(s: State, t: State, reg: Registration, k: Id) {
    var was := ChainOf(s.artifacts, reg.id);
    && reg.id in t.artifacts && t.artifacts.Keys == s.artifacts.Keys + {reg.id}
    && (forall id :: id in s.artifacts && id != reg.id ==> t.artifacts[id] == s.artifacts[id])
    && |t.artifacts[reg.id]| == |was| + 1
    && StoredAs(s, reg, k, |was| + 1, t.commitSequence, t.artifacts[reg.id][|was|])
    && (was != [] ==>
          && SupersededBy(s, was[|was| - 1], k, t.artifacts[reg.id][|was| - 1])
          && forall i :: 0 <= i < |was| - 1 ==> t.artifacts[reg.id][i] == was[i])
  }

  /** One event for the revision, and one for the one it supersedes; nothing else changes. */
  ghost predicate RegisterFrame(cfg: Config, s: State, t: State, reg: Registration, k: Id) {
    var first := !HasCurrent(s.artifacts, reg.id);
    var q := s.commitSequence + (if first then 1 else 2);
    && t == s.(artifacts := t.artifacts, history := t.history, commitSequence := q,
               artifactGeneration := s.artifactGeneration + 1, gens := s.gens.(revision := k))
    && var h := if first then s.history
                else
                  var b := ChainOf(t.artifacts, reg.id);
                  if |b| < 2 then s.history
                  else s.history[q - 1 := Event(q - 1, SupersededByRegistration, reg.id, b[|b| - 2].revision,
                                                b[|b| - 2].stage, b[|b| - 2].stage)];
       Logs(h, t.history, cfg.maxHistory, q, Event(q, Registered, reg.id, k, INVALID, s.policy.entry))
  }

  lemma AppendedIs(cfg: Config, s: State, reg: Registration, k: Id)
    ensures var t, n, q := AppendRevision(s, cfg, reg, k), |ChainOf(s.artifacts, reg.id)| + 1, s.commitSequence + 1;
            && reg.id in t.artifacts && t.artifacts == s.artifacts[reg.id := t.artifacts[reg.id]]
            && t.artifacts[reg.id] == ChainOf(s.artifacts, reg.id) + [NewRevision(reg, k, n, s.policy.entry, q)]
            && t == s.(artifacts := t.artifacts, history := t.history, commitSequence := q,
                       artifactGeneration := s.artifactGeneration + 1)
            && t.history == Retain(s.history, cfg.maxHistory, q, Event(q, Registered, reg.id, k, INVALID, s.policy.entry))
  {
    hide Retain, SortedNames;
  }

  lemma NewIsStored(s: State, reg: Registration, k: Id, n: nat, sequence: nat)
    ensures StoredAs(s, reg, k, n, sequence, NewRevision(reg, k, n, s.policy.entry, sequence))
  {
    hide Ascending, SortedNames;
    SortedNamesMeaning(reg.dependencies);
  }

  lemma OutdatedIs(s: State, id: Id, k: Id)
    requires HasCurrent(s.artifacts, id) && Current(s.artifacts, id).id == id
    ensures var t, was := OutdatePrevious(s, id, k), s.artifacts[id];
            && id in t.artifacts && |t.artifacts[id]| == |was|
            && var b := t.artifacts[id][|was| - 1];
               && t.artifacts == s.artifacts[id := was[|was| - 1 := b]] && SupersededBy(s, was[|was| - 1], k, b)
               && t == s.(artifacts := t.artifacts, commitSequence := s.commitSequence + 1,
                          history := s.history[s.commitSequence + 1 :=
                            Event(s.commitSequence + 1, SupersededByRegistration, id, b.revision, b.stage, b.stage)])
  {
    AuthorityStamps(s);
  }

  /** What a successful registration leaves behind. */
  lemma RegisterStores(cfg: Config, s: State, reg: Registration)
    requires Inv(cfg, s) && Registers(cfg, s, reg)
    ensures var (t, r) := Register(cfg, s, reg);
            && r == Success(s.gens.revision + 1)
            && Chained(s, t, reg, r.value) && RegisterFrame(cfg, s, t, reg, r.value)
  {
    hide Inv, Registers, AppendRevision, OutdatePrevious, Chained, RegisterFrame;
    RegisterCalls(cfg, s, reg);
    if ChainOf(s.artifacts, reg.id) == [] {
      FirstStores(cfg, s, reg);
    } else {
      StoredRevision(cfg, s, reg.id, |ChainOf(s.artifacts, reg.id)| - 1);
      NextStores(cfg, s, reg);
    }
  }

  lemma FirstStores(cfg: Config, s: State, reg: Registration)
    requires ChainOf(s.artifacts, reg.id) == []
    ensures var k := s.gens.revision + 1;
            var t := AppendRevision(s.(gens := s.gens.(revision := k)), cfg, reg, k);
            Chained(s, t, reg, k) && RegisterFrame(cfg, s, t, reg, k)
  {
    hide AppendRevision, NewRevision, StoredAs, Retain, Logs, Chained;
    var k, q := s.gens.revision + 1, s.commitSequence + 1;
    var s1 := s.(gens := s.gens.(revision := k));
    AppendedIs(cfg, s1, reg, k);
    FirstChain(s, AppendRevision(s1, cfg, reg, k), reg, k);
    RetainLogs(s.history, cfg.maxHistory, q, Event(q, Registered, reg.id, k, INVALID, s.policy.entry));
  }

  lemma FirstChain(s: State, t: State, reg: Registration, k: Id)
    requires ChainOf(s.artifacts, reg.id) == [] && reg.id in t.artifacts
    requires t.artifacts == s.artifacts[reg.id := t.artifacts[reg.id]]
    requires t.artifacts[reg.id] == [] + [NewRevision(reg, k, 1, s.policy.entry, t.commitSequence)]
    ensures Chained(s, t, reg, k)
  {
    hide NewRevision, StoredAs, SupersededBy;
    NewIsStored(s, reg, k, 1, t.commitSequence);
  }

  lemma NextStores(cfg: Config, s: State, reg: Registration)
    requires HasCurrent(s.artifacts, reg.id) && Current(s.artifacts, reg.id).id == reg.id
    ensures var k := s.gens.revision + 1;
            var t := AppendRevision(OutdatePrevious(s.(gens := s.gens.(revision := k)), reg.id, k), cfg, reg, k);
            Chained(s, t, reg, k) && RegisterFrame(cfg, s, t, reg, k)
  {
    hide AppendRevision, OutdatePrevious, NewRevision, StoredAs, SupersededBy, Retain, Logs, Chained;
    var k, q := s.gens.revision + 1, s.commitSequence + 2;
    var s1 := s.(gens := s.gens.(revision := k));
    OutdatedIs(s1, reg.id, k);
    var u := OutdatePrevious(s1, reg.id, k);
    AppendedIs(cfg, u, reg, k);
    var t := AppendRevision(u, cfg, reg, k);
    NextChain(s, s1, u, t, reg, k);
    RetainLogs(u.history, cfg.maxHistory, q, Event(q, Registered, reg.id, k, INVALID, s.policy.entry));
  }

  lemma NextChain(s: State, s1: State, u: State, t: State, reg: Registration, k: Id)
    requires HasCurrent(s.artifacts, reg.id) && s1 == s.(gens := s1.gens) && t.commitSequence == s.commitSequence + 2
    requires reg.id in u.artifacts && |u.artifacts[reg.id]| == |s.artifacts[reg.id]| && reg.id in t.artifacts
    requires var was := s.artifacts[reg.id];
             var b := u.artifacts[reg.id][|was| - 1];
             && u.artifacts == s.artifacts[reg.id := was[|was| - 1 := b]] && SupersededBy(s1, was[|was| - 1], k, b)
             && t.artifacts == u.artifacts[reg.id := t.artifacts[reg.id]]
             && t.artifacts[reg.id] == u.artifacts[reg.id] + [NewRevision(reg, k, |was| + 1, s.policy.entry, t.commitSequence)]
    ensures Chained(s, t, reg, k)
  {
    hide NewRevision, StoredAs, SupersededBy;
    var was := s.artifacts[reg.id];
    NewIsStored(s, reg, k, |was| + 1, t.commitSequence);
    SameSuperseded(s, s1, was[|was| - 1], k, u.artifacts[reg.id][|was| - 1]);
  }

  lemma SameSuperseded(s: State, t: State, a: Artifact, k: Id, b: Artifact)
    requires SupersededBy(t, a, k, b) && t.commitSequence == s.commitSequence && t.epoch == s.epoch
    requires t.coordinator == s.coordinator
    ensures SupersededBy(s, a, k, b)
  {
  }

  lemma RegisterCalls(cfg: Config, s: State, reg: Registration)
    requires Registers(cfg, s, reg)
    ensures var k := s.gens.revision + 1;
            var s1 := s.(gens := s.gens.(revision := k));
            && (HasCurrent(s.artifacts, reg.id) <==> ChainOf(s.artifacts, reg.id) != [])
            && var u := if ChainOf(s.artifacts, reg.id) == [] then s1 else OutdatePrevious(s1, reg.id, k);
               Register(cfg, s, reg).0 == AppendRevision(u, cfg, reg, k) && Register(cfg, s, reg).1 == Success(k)
  {
    hide IsValidName, AppendRevision, OutdatePrevious;
  }

  // ----- Evidence -----

  /** What a submission must say. */
  predicate Claimed(sub: Submission) {
    && sub.subject != 0 && sub.subjectDigest != Zero && sub.subjectRevision != 0 && sub.kind != 0
    && (if sub.kind == 63 then IsValidName(sub.custom) else sub.custom == "")
    && (sub.producer.worker != 0 <==> sub.producer.boot != 0) && sub.confidence <= 1000 && sub.payload != Zero
    && IsValidText(sub.environment) && (sub.hasWindow ==> sub.validFrom <= sub.validUntil)
  }

  /** A record in force with the same subject, class and producer incarnation. */
  ghost predicate Precedes(evidence: map<Id, Evidence>, sub: Submission, k: Id) {
    && k in evidence && !evidence[k].superseded
    && var c := evidence[k].core;
       && c.subject == sub.subject && c.subjectRevision == sub.subjectRevision && c.kind == sub.kind
       && c.custom == sub.custom && c.producer == sub.producer
  }

  ghost predicate RoomFor(cfg: Config, s: State, sub: Submission) {
    && |s.evidence| < cfg.maxEvidence
    && |set k | k in s.evidence && s.evidence[k].core.subject == sub.subject &&
                s.evidence[k].core.subjectRevision == sub.subjectRevision| < cfg.maxEvidencePerRevision
  }

  ghost predicate Submits(cfg: Config, s: State, sub: Submission) {
    && Claimed(sub) && Resolves(s.artifacts, sub.subject, sub.subjectRevision, sub.subjectDigest)
    && ((exists k :: Precedes(s.evidence, sub, k)) || RoomFor(cfg, s, sub))
  }

  /** The record says what the submission says, and is in force. */
  predicate Tells(sub: Submission, k: Id, generation: nat, sequence: nat, e: Evidence) {
    var c := e.core;
    && c.id == k && c.kind == sub.kind && c.custom == sub.custom && c.generation == generation
    && c.subject == sub.subject && c.subjectDigest == sub.subjectDigest && c.subjectRevision == sub.subjectRevision
    && c.producer == sub.producer && c.result == sub.result && c.confidence == sub.confidence && c.payload == sub.payload
    && c.createdSequence == sequence && c.producedMillis == sub.producedMillis && c.hasWindow == sub.hasWindow
    && c.validFrom == sub.validFrom && c.validUntil == sub.validUntil && c.environment == sub.environment
    && !c.revoked && !e.superseded && e.supersededBy == 0 && e.revocationAuthority == 0 && e.revocationSequence == 0
    && e.integrity == IntegrityOf(c)
  }

  /** The record is added; one it replaces is superseded by it; all others stay. */
  ghost predicate Recorded(s: State, t: State, sub: Submission, k: Id) {
    && k in t.evidence && k !in s.evidence && t.evidence.Keys == s.evidence.Keys + {k}
    && (forall j :: j in s.evidence && !Precedes(s.evidence, sub, j) ==> t.evidence[j] == s.evidence[j])
    && (forall j :: Precedes(s.evidence, sub, j) ==>
          && t.evidence[j] == s.evidence[j].(superseded := true, supersededBy := k)
          && Tells(sub, k, s.evidence[j].core.generation + 1, s.commitSequence + 1, t.evidence[k]))
    && ((forall j :: !Precedes(s.evidence, sub, j)) ==> Tells(sub, k, 1, s.commitSequence + 1, t.evidence[k]))
  }

  ghost predicate SubmitFrame(cfg: Config, s: State, t: State, sub: Submission, k: Id) {
    var q, follows := s.commitSequence + 1, exists j :: Precedes(s.evidence, sub, j);
    && t == s.(evidence := t.evidence, history := t.history, commitSequence := if follows then q + 1 else q,
               gens := s.gens.(evidence := k))
    && var e := Event(q, EvidenceSubmitted, sub.subject, sub.subjectRevision, INVALID, INVALID);
       if follows then
         exists h :: Logs(s.history, h, cfg.maxHistory, q + 1, e.(sequence := q + 1, kind := EvidenceReplaced)) &&
                     Logs(h, t.history, cfg.maxHistory, q, e)
       else Logs(s.history, t.history, cfg.maxHistory, q, e)
  }

  lemma PrecedesIs(evidence: map<Id, Evidence>, sub: Submission)
    ensures forall k :: k in Unsuperseded(evidence, SubmissionKey(sub)) <==> Precedes(evidence, sub, k)
  {
  }

  lemma SubmitCases(cfg: Config, s: State, sub: Submission)
    ensures var (t, r), previous := Submit(cfg, s, sub), Unsuperseded(s.evidence, SubmissionKey(sub));
            && (r.Success? <==> Submits(cfg, s, sub))
            && (!r.Success? ==> t == s)
            && (!Claimed(sub) ==> r == Failure(InvalidArgument))
            && (r.Success? ==>
                  && r.value == s.gens.evidence + 1
                  && t == if previous == {} then StoreFirst(s, cfg, sub) else StoreReplacement(s, cfg, sub, MinKey(previous)))
  {
    hide Precedes, FindRevision, StoreFirst, StoreReplacement, IsValidName, IsValidText;
    PrecedesIs(s.evidence, sub);
    assert sub.Valid() <==> Claimed(sub);
    AboutIs(s.evidence, sub);
    var previous := Unsuperseded(s.evidence, SubmissionKey(sub));
    assert previous == {} <==> forall k :: !Precedes(s.evidence, sub, k);
  }

  lemma AboutIs(evidence: map<Id, Evidence>, sub: Submission)
    ensures AboutSubject(evidence, sub.subject, sub.subjectRevision) ==
            set k | k in evidence && evidence[k].core.subject == sub.subject &&
                    evidence[k].core.subjectRevision == sub.subjectRevision
  {
  }

  /** A submission is taken exactly if it is well claimed, about a registered revision by its digest, and
      replaces a record or finds room; refused, it changes nothing. */
  lemma SubmitExactly(cfg: Config, s: State, sub: Submission)
    ensures var (t, r) := Submit(cfg, s, sub);
            && (r.Success? <==> Submits(cfg, s, sub)) && (!r.Success? ==> t == s)
            && (!Claimed(sub) ==> r == Failure(InvalidArgument))
  {
    hide Submit, Submits;
    SubmitCases(cfg, s, sub);
  }

  lemma EvidenceFresh(cfg: Config, s: State)
    requires Inv(cfg, s)
    ensures s.gens.evidence + 1 !in s.evidence
    ensures forall k :: k in s.evidence ==> s.evidence[k].core.createdSequence <= s.commitSequence
  {
    hide PolicyConsistent, ArtifactsConsistent, EvidenceConsistent, PlansConsistent, DecisionsConsistent, RecordsConsistent,
         HistoryConsistent, TrustConsistent, RevisionsIssued, PlansResolve, RequestsBound, Reservations, ReservedStages,
         EvidenceChains;
  }

  function Submitted(q: nat, sub: Submission): Event {
    Event(q, EvidenceSubmitted, sub.subject, sub.subjectRevision, INVALID, INVALID)
  }

  lemma NewTells(sub: Submission, k: Id, generation: nat, sequence: nat)
    ensures Tells(sub, k, generation, sequence, NewEvidence(sub, k, generation, sequence))
    ensures KeyOf(NewEvidence(sub, k, generation, sequence)) == SubmissionKey(sub)
    ensures NewEvidence(sub, k, generation, sequence).core.id == k
  {
  }

  lemma StoreFirstIs(cfg: Config, s: State, sub: Submission)
    ensures var k, q, t := s.gens.evidence + 1, s.commitSequence + 1, StoreFirst(s, cfg, sub);
            && t == s.(evidence := t.evidence, history := t.history, commitSequence := q, gens := s.gens.(evidence := k))
            && t.evidence == s.evidence[k := NewEvidence(sub, k, 1, q)]
            && t.history == Retain(s.history, cfg.maxHistory, q, Submitted(q, sub))
  {
    hide Retain;
  }

  lemma StoreReplacementIs(cfg: Config, s: State, sub: Submission, j: Id)
    requires j in s.evidence
    ensures var k, q, t := s.gens.evidence + 1, s.commitSequence + 1, StoreReplacement(s, cfg, sub, j);
            var h := Retain(s.history, cfg.maxHistory, q + 1, Submitted(q + 1, sub).(kind := EvidenceReplaced));
            && t == s.(evidence := t.evidence, history := t.history, commitSequence := q + 1, gens := s.gens.(evidence := k))
            && t.evidence == s.evidence[j := s.evidence[j].(superseded := true, supersededBy := k)][k :=
                 NewEvidence(sub, k, s.evidence[j].core.generation + 1, q)]
            && t.history == Retain(h, cfg.maxHistory, q, Submitted(q, sub))
  {
    hide Retain;
  }

  lemma FirstFrame(cfg: Config, s: State, sub: Submission)
    requires forall j :: !Precedes(s.evidence, sub, j)
    ensures SubmitFrame(cfg, s, StoreFirst(s, cfg, sub), sub, s.gens.evidence + 1)
  {
    hide Precedes, Retain, Logs, StoreFirst, NewEvidence;
    StoreFirstIs(cfg, s, sub);
    RetainLogs(s.history, cfg.maxHistory, s.commitSequence + 1, Submitted(s.commitSequence + 1, sub));
  }

  lemma NextFrame(cfg: Config, s: State, sub: Submission, j: Id)
    requires Precedes(s.evidence, sub, j) && j in s.evidence
    ensures SubmitFrame(cfg, s, StoreReplacement(s, cfg, sub, j), sub, s.gens.evidence + 1)
  {
    hide Precedes, Retain, Logs, StoreReplacement, NewEvidence;
    StoreReplacementIs(cfg, s, sub, j);
    var q := s.commitSequence + 1;
    var replaced := Submitted(q + 1, sub).(kind := EvidenceReplaced);
    var h := Retain(s.history, cfg.maxHistory, q + 1, replaced);
    RetainLogs(s.history, cfg.maxHistory, q + 1, replaced);
    RetainLogs(h, cfg.maxHistory, q, Submitted(q, sub));
  }

  lemma FirstRecorded(cfg: Config, s: State, sub: Submission)
    requires s.gens.evidence + 1 !in s.evidence && forall j :: !Precedes(s.evidence, sub, j)
    ensures Recorded(s, StoreFirst(s, cfg, sub), sub, s.gens.evidence + 1)
  {
    hide Precedes, Retain, StoreFirst, NewEvidence, Tells;
    StoreFirstIs(cfg, s, sub);
    NewTells(sub, s.gens.evidence + 1, 1, s.commitSequence + 1);
  }

  lemma NextRecorded(cfg: Config, s: State, sub: Submission, j: Id)
    requires s.gens.evidence + 1 !in s.evidence && Precedes(s.evidence, sub, j) && j in s.evidence
    requires forall i :: Precedes(s.evidence, sub, i) ==> i == j
    ensures Recorded(s, StoreReplacement(s, cfg, sub, j), sub, s.gens.evidence + 1)
  {
    hide Precedes, Retain, StoreReplacement, NewEvidence, Tells;
    StoreReplacementIs(cfg, s, sub, j);
    NewTells(sub, s.gens.evidence + 1, s.evidence[j].core.generation + 1, s.commitSequence + 1);
  }

  /** At most one record precedes a submission. */
  lemma OnePrecedes(cfg: Config, s: State, sub: Submission, i: Id, j: Id)
    requires Inv(cfg, s) && Precedes(s.evidence, sub, i) && Precedes(s.evidence, sub, j)
    ensures i == j
  {
    hide Inv, IsChain, Precedes;
    var key := SubmissionKey(sub);
    EvidenceFacts(cfg, s);
    assert HasChain(s.evidence, key);
    var chain :| IsChain(s.evidence, key, chain);
    PrecedesIs(s.evidence, sub);
    LiveIsLast(s.evidence, key, chain, i);
    LiveIsLast(s.evidence, key, chain, j);
  }

  /** What a successful submission leaves behind. */
  lemma SubmitStores(cfg: Config, s: State, sub: Submission)
    requires Inv(cfg, s) && Submits(cfg, s, sub)
    ensures var (t, r) := Submit(cfg, s, sub);
            r == Success(s.gens.evidence + 1) && Recorded(s, t, sub, r.value) && SubmitFrame(cfg, s, t, sub, r.value)
  {
    hide Inv, Submits, Submit, Precedes, StoreFirst, StoreReplacement, Recorded, SubmitFrame;
    SubmitCases(cfg, s, sub);
    EvidenceFresh(cfg, s);
    PrecedesIs(s.evidence, sub);
    var previous := Unsuperseded(s.evidence, SubmissionKey(sub));
    if previous == {} {
      FirstRecorded(cfg, s, sub);
      FirstFrame(cfg, s, sub);
    } else {
      var j := MinKey(previous);
      assert j in previous && j in s.evidence;
      forall i | Precedes(s.evidence, sub, i) ensures i == j {
        OnePrecedes(cfg, s, sub, i, j);
      }
      NextRecorded(cfg, s, sub, j);
      NextFrame(cfg, s, sub, j);
    }
  }

  // ----- What a submission decides -----

  /** The gate asks for evidence of the submission's class. */
  predicate AsksFor(g: Gate, sub: Submission) {
    g.evidenceType == sub.kind && (sub.kind == 63 ==> g.custom == sub.custom)
  }

  /** Right after a submission, its record is the newest of its class about the revision. */
  lemma SubmittedIsNewest(cfg: Config, s: State, sub: Submission, g: Gate, a: Artifact)
    requires Inv(cfg, s) && Submits(cfg, s, sub) && AsksFor(g, sub)
    requires a.id == sub.subject && a.revision == sub.subjectRevision && a.digest == sub.subjectDigest
    ensures IsNewest(Submit(cfg, s, sub).0.evidence, g, a, s.gens.evidence + 1)
  {
    hide Inv, Submits, Submit, SubmitFrame, Precedes;
    SubmitStores(cfg, s, sub);
    EvidenceFresh(cfg, s);
    var t, k := Submit(cfg, s, sub).0, s.gens.evidence + 1;
    assert Exact(t.evidence[k], g, a) && t.evidence[k].core.createdSequence == s.commitSequence + 1 by {
      NewIsExact(s, t, sub, k, g, a);
    }
    forall j | j in t.evidence && j != k ensures t.evidence[j].core.createdSequence <= s.commitSequence {
      assert j in s.evidence;
    }
  }

  lemma NewIsExact(s: State, t: State, sub: Submission, k: Id, g: Gate, a: Artifact)
    requires Recorded(s, t, sub, k) && AsksFor(g, sub)
    requires a.id == sub.subject && a.revision == sub.subjectRevision && a.digest == sub.subjectDigest
    ensures k in t.evidence && Exact(t.evidence[k], g, a) && t.evidence[k].core.createdSequence == s.commitSequence + 1
    ensures t.evidence[k].core.result == sub.result && t.evidence[k].core.environment == sub.environment
    ensures t.evidence[k].core.producedMillis == sub.producedMillis && t.evidence[k].core.hasWindow == sub.hasWindow
    ensures t.evidence[k].core.validFrom == sub.validFrom && t.evidence[k].core.validUntil == sub.validUntil
  {
    if j :| Precedes(s.evidence, sub, j) {
      assert Tells(sub, k, s.evidence[j].core.generation + 1, s.commitSequence + 1, t.evidence[k]);
    }
  }

  /** What a gate of its kind asks of the submission. */
  predicate Serves(sub: Submission, g: Gate, now: nat, skew: nat) {
    && sub.result == Pass
    && (g.kind == EvidenceFreshness ==>
          sub.producedMillis <= (now + skew) % WORD && (now - sub.producedMillis) % WORD <= g.maxAge)
    && (g.kind == EvidenceFreshness || g.kind == EvidenceRequired ==>
          sub.hasWindow ==> sub.validFrom <= now <= sub.validUntil)
    && (g.kind == EnvironmentBinding ==> sub.environment == g.environment)
  }

  /** Right after a submission every evidence gate of its class is decided by it alone, whatever was
      submitted before: it holds exactly if the submission passed and serves. */
  lemma SubmissionDecides(cfg: Config, s: State, sub: Submission, g: Gate, c: Context)
    requires Inv(cfg, s) && Submits(cfg, s, sub) && AsksFor(g, sub) && IsEvidenceGate(g.kind)
    requires c.s.evidence == Submit(cfg, s, sub).0.evidence && c.a.id == sub.subject && c.a.revision == sub.subjectRevision
    requires c.a.digest == sub.subjectDigest
    ensures Holds(c, g) <==> Serves(sub, g, c.now, c.futureSkew)
  {
    hide Inv, Submits, Submit, Exact, IsNewest, DistinctSequences, Holds, Satisfies, Serves, Recorded, SubmitFrame;
    var k, t := s.gens.evidence + 1, Submit(cfg, s, sub).0;
    SubmittedIsNewest(cfg, s, sub, g, c.a);
    SubmitStores(cfg, s, sub);
    NewIsExact(s, t, sub, k, g, c.a);
    SubmitSequences(cfg, s, sub);
    ClaimedKind(cfg, s, sub);
    NewestDecides(c, g, k);
    ServesIs(sub, t.evidence[k], g, c.now, c.futureSkew);
  }

  /** The newest record of its class decides an evidence gate. */
  lemma NewestDecides(c: Context, g: Gate, k: Id)
    requires DistinctSequences(c.s.evidence) && IsEvidenceGate(g.kind) && IsEvidenceType(g.evidenceType)
    requires k in c.s.evidence && IsNewest(c.s.evidence, g, c.a, k)
    ensures Holds(c, g) <==> Satisfies(c.s.evidence[k], g, c.now, c.futureSkew)
  {
    hide Exact, IsNewest, DistinctSequences, Satisfies;
    forall j | IsNewest(c.s.evidence, g, c.a, j) ensures j == k {
      NewestIsUnique(c.s.evidence, g, c.a, j, k);
    }
  }

  lemma ServesIs(sub: Submission, e: Evidence, g: Gate, now: nat, skew: nat)
    requires e.core.result == sub.result && e.core.environment == sub.environment
    requires e.core.producedMillis == sub.producedMillis && e.core.hasWindow == sub.hasWindow
    requires e.core.validFrom == sub.validFrom && e.core.validUntil == sub.validUntil
    ensures Satisfies(e, g, now, skew) <==> Serves(sub, g, now, skew)
  {
  }

  lemma ClaimedKind(cfg: Config, s: State, sub: Submission)
    requires Submits(cfg, s, sub)
    ensures sub.kind != 0
  {
    hide Precedes, IsValidName, IsValidText;
  }

  lemma SubmitSequences(cfg: Config, s: State, sub: Submission)
    requires Inv(cfg, s)
    ensures DistinctSequences(Submit(cfg, s, sub).0.evidence)
  {
    hide Inv, Submit, DistinctSequences;
    SubmitKeepsInv(cfg, s, sub);
    EvidenceSequences(cfg, Submit(cfg, s, sub).0);
  }

  /** An evidence gate counts nothing but records in force of its class about this revision and its content. */
  lemma OnlyItsOwnCounts(c: Context, g: Gate)
    requires IsEvidenceGate(g.kind) && Holds(c, g)
    ensures exists k :: k in c.s.evidence
              && var e := c.s.evidence[k];
                 && e.core.subject == c.a.id && e.core.subjectRevision == c.a.revision && e.core.subjectDigest == c.a.digest
                 && e.core.kind == g.evidenceType && (g.evidenceType == 63 ==> e.core.custom == g.custom)
                 && !e.core.revoked && !e.superseded && e.core.result == Pass
  {
  }

  // ----- Withdrawal -----

  ghost predicate Withdraws(s: State, id: Id, authority: Authority) {
    && id in s.evidence && !s.evidence[id].core.revoked
    && (authority.coordinator != 0 && authority.epoch != 0 ==> authority.coordinator == s.coordinator)
  }

  /** The record is revoked, sealed anew and stamped; reservations about its revision are gone; the withdrawal
      is noted; nothing else changes. */
  ghost predicate WithdrawnIn(cfg: Config, s: State, t: State, id: Id) {
    var q := s.commitSequence + 1;
    && id in s.evidence && id in t.evidence && t.evidence == s.evidence[id := t.evidence[id]]
    && var e, x := s.evidence[id], t.evidence[id];
       && x.core == e.core.(revoked := true) && x.integrity == IntegrityOf(x.core)
       && Stamps(s, x.revocationAuthority) && x.revocationSequence == q
       && x.superseded == e.superseded && x.supersededBy == e.supersededBy
       && t == s.(evidence := t.evidence, pending := t.pending, history := t.history, commitSequence := q)
       && (forall k :: k in t.pending <==> k in s.pending && !(s.pending[k].artifact == e.core.subject &&
                                                                 s.pending[k].revision == e.core.subjectRevision))
       && (forall k :: k in t.pending ==> t.pending[k] == s.pending[k])
       && Logs(s.history, t.history, cfg.maxHistory, q,
               Event(q, EvidenceWithdrawn, e.core.subject, e.core.subjectRevision, INVALID, INVALID))
  }

  lemma WithdrawApplies(cfg: Config, s: State, id: Id)
    requires id in s.evidence
    ensures WithdrawnIn(cfg, s, ApplyWithdraw(cfg, s, id), id)
  {
    hide Retain, Logs;
    var q, e := s.commitSequence + 1, s.evidence[id];
    AuthorityStamps(s);
    RetainLogs(s.history, cfg.maxHistory, q,
               Event(q, EvidenceWithdrawn, e.core.subject, e.core.subjectRevision, INVALID, INVALID));
  }

  /** Evidence is withdrawn exactly if it is there, in force, and the authority is not a stranger's; then no
      gate is satisfied by it any more. */
  lemma WithdrawExactly(cfg: Config, s: State, id: Id, authority: Authority)
    ensures var (t, r) := DoRevokeEvidence(cfg, s, id, authority);
            && (Withdraws(s, id, authority) ==>
                  r == Success(Mutation(Outcome.EvidenceRevoked, false, NO_RECORD())) && WithdrawnIn(cfg, s, t, id)
                  && forall g, a :: !IsNewest(t.evidence, g, a, id))
            && (!Withdraws(s, id, authority) ==> t == s)
            && (id !in s.evidence ==> r == Failure(EvidenceUnknown))
  {
    hide ApplyWithdraw, Logs;
    if Withdraws(s, id, authority) {
      WithdrawApplies(cfg, s, id);
    }
  }
}
