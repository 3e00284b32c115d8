/** Each operation keeps the invariant, concluded: evidence, policy, epochs, recovery and reload. */
module KeepingEvidence {
  import opened Ordered
  import opened Domain
  import opened Store
  import opened Gates
  import opened Steps
  import opened Invariant
  import opened Preservation

  // ----- Chains of one evidence key -----

  /** What a chain depends on. */
  predicate SameLink(a: Evidence, b: Evidence) {
    && KeyOf(a) == KeyOf(b) && a.core.generation == b.core.generation
    && a.core.createdSequence == b.core.createdSequence
    && a.superseded == b.superseded && a.supersededBy == b.supersededBy
  }

  /** The records of a key keep their chain while their links stay as they are. */
  lemma SameLinksKeepChain(e: map<Id, Evidence>, f: map<Id, Evidence>, key: EvidenceKey)
    requires HasChain(e, key)
    requires forall k :: k in e && KeyOf(e[k]) == key ==> k in f && SameLink(e[k], f[k])
    requires forall k :: k in f && KeyOf(f[k]) == key ==> k in e && KeyOf(e[k]) == key
    ensures HasChain(f, key)
  {
    var chain :| IsChain(e, key, chain);
    forall i | 0 <= i < |chain| ensures IsLink(f, key, chain, i) {
      assert IsLink(e, key, chain, i);
    }
    forall i | 0 <= i < |chain| - 1 ensures IsStep(f, chain, i) {
      assert IsStep(e, chain, i) && IsLink(e, key, chain, i) && IsLink(e, key, chain, i + 1);
    }
    assert IsChain(f, key, chain);
  }

  lemma NoLiveNoChain(e: map<Id, Evidence>, key: EvidenceKey)
    requires HasChain(e, key) && Unsuperseded(e, key) == {}
    ensures forall k :: k in e ==> KeyOf(e[k]) != key
  {
    var chain :| IsChain(e, key, chain);
    if chain != [] {
      LastIsLive(e, key, chain);
      assert false;
    }
  }

  lemma LastIsLive(e: map<Id, Evidence>, key: EvidenceKey, chain: seq<Id>)
    requires IsChain(e, key, chain) && chain != []
    ensures Unsuperseded(e, key) != {}
  {
    assert IsLink(e, key, chain, |chain| - 1);
    assert chain[|chain| - 1] in Unsuperseded(e, key);
  }

  lemma FirstStartsChain(e: map<Id, Evidence>, x: Evidence)
    requires HasChain(e, KeyOf(x)) && Unsuperseded(e, KeyOf(x)) == {}
    requires x.core.id !in e && x.core.generation == 1 && !x.superseded
    ensures HasChain(e[x.core.id := x], KeyOf(x))
  {
    NoLiveNoChain(e, KeyOf(x));
    assert IsChain(e[x.core.id := x], KeyOf(x), [x.core.id]);
  }

  /** The only un-superseded record of a key is the end of its chain. */
  lemma LiveIsLast(e: map<Id, Evidence>, key: EvidenceKey, chain: seq<Id>, k: Id)
    requires IsChain(e, key, chain) && k in Unsuperseded(e, key)
    ensures chain != [] && k == chain[|chain| - 1] && e[k].core.generation == |chain|
  {
    var i :| 0 <= i < |chain| && chain[i] == k;
    assert IsLink(e, key, chain, i);
  }

  lemma NextExtendsChain(e: map<Id, Evidence>, previous: Id, x: Evidence)
    requires previous in e && KeyOf(e[previous]) == KeyOf(x) && !e[previous].superseded
    requires HasChain(e, KeyOf(x)) && x.core.id !in e && !x.superseded
    requires x.core.generation == e[previous].core.generation + 1
    requires e[previous].core.createdSequence < x.core.createdSequence
    ensures HasChain(Relinked(e, previous, x), KeyOf(x))
  {
    hide IsChain, Relinked;
    var chain :| IsChain(e, KeyOf(x), chain);
    LiveIsLast(e, KeyOf(x), chain, previous);
    LongerChain(e, x, chain);
  }

  lemma LongerChain(e: map<Id, Evidence>, x: Evidence, chain: seq<Id>)
    requires IsChain(e, KeyOf(x), chain) && chain != [] && x.core.id !in e && !x.superseded
    requires x.core.generation == |chain| + 1 && chain[|chain| - 1] in e
    requires e[chain[|chain| - 1]].core.createdSequence < x.core.createdSequence
    ensures IsChain(Relinked(e, chain[|chain| - 1], x), KeyOf(x), chain + [x.core.id])
  {
    hide KeyOf, IsLink, IsStep;
    var key := KeyOf(x);
    assert chain[|chain| - 1] in e;
    var f := Relinked(e, chain[|chain| - 1], x);
    var longer := chain + [x.core.id];
    forall i | 0 <= i < |longer| ensures IsLink(f, key, longer, i) {
      LinkKept(e, x, chain, i);
    }
    forall i | 0 <= i < |longer| - 1 ensures IsStep(f, longer, i) {
      StepKept(e, x, chain, i);
    }
    forall k | k in f && KeyOf(f[k]) == key ensures k in longer {
      RelinkedKey(e, chain[|chain| - 1], x, k);
      assert k in chain ==> k in longer;
    }
  }

  lemma RelinkedKey(e: map<Id, Evidence>, previous: Id, x: Evidence, k: Id)
    requires previous in e && x.core.id !in e && k in Relinked(e, previous, x)
    ensures k == x.core.id || (k in e && KeyOf(e[k]) == KeyOf(Relinked(e, previous, x)[k]))
  {
  }

  lemma ChainDistinct(e: map<Id, Evidence>, key: EvidenceKey, chain: seq<Id>, i: int, j: int)
    requires IsChain(e, key, chain) && 0 <= i < |chain| && 0 <= j < |chain| && chain[i] == chain[j]
    ensures i == j
  {
    assert IsLink(e, key, chain, i) && IsLink(e, key, chain, j);
  }

  lemma LinkKept(e: map<Id, Evidence>, x: Evidence, chain: seq<Id>, i: int)
    requires IsChain(e, KeyOf(x), chain) && chain != [] && x.core.id !in e && !x.superseded
    requires x.core.generation == |chain| + 1 && 0 <= i <= |chain| && chain[|chain| - 1] in e
    ensures IsLink(Relinked(e, chain[|chain| - 1], x), KeyOf(x), chain + [x.core.id], i)
  {
    if i < |chain| {
      assert IsLink(e, KeyOf(x), chain, i);
      assert (chain + [x.core.id])[i] == chain[i];
      if chain[i] == chain[|chain| - 1] {
        ChainDistinct(e, KeyOf(x), chain, i, |chain| - 1);
      }
    }
  }

  lemma StepKept(e: map<Id, Evidence>, x: Evidence, chain: seq<Id>, i: int)
    requires IsChain(e, KeyOf(x), chain) && chain != [] && x.core.id !in e && 0 <= i < |chain|
    requires chain[|chain| - 1] in e && e[chain[|chain| - 1]].core.createdSequence < x.core.createdSequence
    ensures IsStep(Relinked(e, chain[|chain| - 1], x), chain + [x.core.id], i)
  {
    hide KeyOf;
    var longer := chain + [x.core.id];
    assert longer[i] == chain[i];
    if i < |chain| - 1 {
      assert IsStep(e, chain, i);
      assert longer[i + 1] == chain[i + 1];
      if chain[i] == chain[|chain| - 1] {
        ChainDistinct(e, KeyOf(x), chain, i, |chain| - 1);
      }
    }
  }

  // ----- Submission -----

  lemma AddEvidenceIssued(e: map<Id, Evidence>, last: Id, sequence: nat, x: Evidence)
    requires EvidenceIssued(e, last, sequence) && x.core.id == last + 1 && x.core.createdSequence == sequence + 1
    ensures EvidenceIssued(e[x.core.id := x], last + 1, sequence + 1)
    ensures x.core.id !in e
  {
  }

  /** What every submission's record satisfies, first of its key or not. */
  lemma NewEvidenceIsGood(cfg: Config, s: State, sub: Submission, generation: nat)
    requires Inv(cfg, s) && sub.Valid() && generation != 0
    requires Resolves(s.artifacts, sub.subject, sub.subjectRevision, sub.subjectDigest)
    ensures var x := NewEvidence(sub, s.gens.evidence + 1, generation, s.commitSequence + 1);
            && EvidenceRecordConsistent(s.artifacts, s.gens.evidence + 1, x) && x.core.id !in s.evidence
            && KeyOf(x) == SubmissionKey(sub)
            && EvidenceConsistent(s.artifacts, s.evidence[x.core.id := x])
            && EvidenceIssued(s.evidence[x.core.id := x], s.gens.evidence + 1, s.commitSequence + 1)
  {
    hide ArtifactsConsistent, RecordsConsistent, TrustConsistent, EvidenceChains, Reservations, ReservedStages,
         PlansIssued, PlansResolve, RequestsBound, PolicyConsistent, Resolves, DistinctSequences;
    var x := NewEvidence(sub, s.gens.evidence + 1, generation, s.commitSequence + 1);
    AddEvidenceIssued(s.evidence, s.gens.evidence, s.commitSequence, x);
  }

  /** Only evidence, its generator, the sequence and the history change. */
  lemma EvidenceStepKeepsInv(cfg: Config, s: State, t: State)
    requires Inv(cfg, s)
    requires t == s.(evidence := t.evidence, gens := s.gens.(evidence := t.gens.evidence),
                     commitSequence := t.commitSequence, history := t.history, pending := t.pending)
    requires EvidenceConsistent(s.artifacts, t.evidence) && EvidenceChains(t.evidence)
    requires EvidenceIssued(t.evidence, t.gens.evidence, t.commitSequence) && HistoryConsistent(t.history)
    requires exists gone :: t.pending == s.pending - gone
    ensures Inv(cfg, t)
  {
    hide PolicyConsistent, ArtifactsConsistent, EvidenceConsistent, PlansConsistent, DecisionsConsistent,
         RecordsConsistent, HistoryConsistent, TrustConsistent, RevisionsIssued, EvidenceIssued, PlansIssued,
         PlansResolve, DecisionsIssued, RequestsBound, Reservations, ReservedStages, EvidenceChains;
    var gone :| t.pending == s.pending - gone;
    FewerKeepReservations(s.pending, gone, s.plans, s.idempotency, s.gens.plan, s.CurrentAuthority(), cfg.maxPending);
    FewerKeepStages(s.pending, gone, s.artifacts);
  }

  lemma StoreFirstKeepsChains(e: map<Id, Evidence>, x: Evidence)
    requires EvidenceChains(e) && Unsuperseded(e, KeyOf(x)) == {}
    requires x.core.id !in e && x.core.generation == 1 && !x.superseded
    ensures EvidenceChains(e[x.core.id := x])
  {
    hide HasChain, Unsuperseded;
    var f := e[x.core.id := x];
    forall key ensures HasChain(f, key) {
      assert HasChain(e, key);
      if key == KeyOf(x) {
        FirstStartsChain(e, x);
      } else {
        SameLinksKeepChain(e, f, key);
      }
    }
  }

  lemma StoreNextKeepsChains(e: map<Id, Evidence>, previous: Id, x: Evidence)
    requires EvidenceChains(e) && previous in e && KeyOf(e[previous]) == KeyOf(x) && !e[previous].superseded
    requires x.core.id !in e && !x.superseded && x.core.generation == e[previous].core.generation + 1
    requires e[previous].core.createdSequence < x.core.createdSequence
    ensures EvidenceChains(Relinked(e, previous, x))
  {
    hide HasChain;
    var f := Relinked(e, previous, x);
    forall key ensures HasChain(f, key) {
      assert HasChain(e, key);
      if key == KeyOf(x) {
        NextExtendsChain(e, previous, x);
      } else {
        SameLinksKeepChain(e, f, key);
      }
    }
  }

  lemma EvidenceFacts(cfg: Config, s: State)
    requires Inv(cfg, s)
    ensures EvidenceChains(s.evidence) && EvidenceConsistent(s.artifacts, s.evidence)
    ensures EvidenceIssued(s.evidence, s.gens.evidence, s.commitSequence)
    ensures s.pending == s.pending - {}
  {
    hide EvidenceChains, EvidenceConsistent, EvidenceIssued;
  }

  lemma StoreFirstKeepsInv(cfg: Config, s: State, sub: Submission)
    requires Inv(cfg, s) && sub.Valid() && Unsuperseded(s.evidence, SubmissionKey(sub)) == {}
    requires Resolves(s.artifacts, sub.subject, sub.subjectRevision, sub.subjectDigest)
    ensures Inv(cfg, StoreFirst(s, cfg, sub))
  {
    hide Inv, EvidenceConsistent, EvidenceIssued, EvidenceChains, HistoryConsistent, Retain, Resolves, Unsuperseded;
    var x := NewEvidence(sub, s.gens.evidence + 1, 1, s.commitSequence + 1);
    EvidenceFacts(cfg, s);
    NewEvidenceIsGood(cfg, s, sub, 1);
    StoreFirstKeepsChains(s.evidence, x);
    KeptHistory(cfg, s, SubjectEvent(s.commitSequence + 1, EvidenceSubmitted, x));
    EvidenceStepKeepsInv(cfg, s, StoreFirst(s, cfg, sub));
  }

  lemma SupersedingKeepsRecords(artifacts: map<Id, seq<Artifact>>, e: map<Id, Evidence>, last: Id, sequence: nat,
                                previous: Id, next: Id)
    requires EvidenceConsistent(artifacts, e) && EvidenceIssued(e, last, sequence) && previous in e
    ensures var f := e[previous := e[previous].(superseded := true, supersededBy := next)];
            EvidenceConsistent(artifacts, f) && EvidenceIssued(f, last, sequence)
  {
    hide Resolves;
    var f := e[previous := e[previous].(superseded := true, supersededBy := next)];
    assert f.Keys == e.Keys;
  }

  lemma StoreReplacementKeepsInv(cfg: Config, s: State, sub: Submission, previous: Id)
    requires Inv(cfg, s) && sub.Valid() && previous in Unsuperseded(s.evidence, SubmissionKey(sub))
    requires Resolves(s.artifacts, sub.subject, sub.subjectRevision, sub.subjectDigest)
    ensures Inv(cfg, StoreReplacement(s, cfg, sub, previous))
  {
    hide Inv, EvidenceChains, HistoryConsistent, Retain, Resolves, EvidenceConsistent;
    var x := NewEvidence(sub, s.gens.evidence + 1, s.evidence[previous].core.generation + 1, s.commitSequence + 1);
    EvidenceFacts(cfg, s);
    ReplacementEvidence(cfg, s, sub, previous);
    StoreNextKeepsChains(s.evidence, previous, x);
    ReplacementHistory(cfg, s, x);
    EvidenceStepKeepsInv(cfg, s, StoreReplacement(s, cfg, sub, previous));
  }

  lemma ReplacementEvidence(cfg: Config, s: State, sub: Submission, previous: Id)
    requires Inv(cfg, s) && sub.Valid() && previous in s.evidence
    requires Resolves(s.artifacts, sub.subject, sub.subjectRevision, sub.subjectDigest)
    ensures var x := NewEvidence(sub, s.gens.evidence + 1, s.evidence[previous].core.generation + 1, s.commitSequence + 1);
            var f := Relinked(s.evidence, previous, x);
            && x.core.id !in s.evidence && s.evidence[previous].core.createdSequence < x.core.createdSequence
            && EvidenceConsistent(s.artifacts, f) && EvidenceIssued(f, s.gens.evidence + 1, s.commitSequence + 2)
  {
    hide Inv, Resolves;
    EvidenceFacts(cfg, s);
    var generation := s.evidence[previous].core.generation + 1;
    var x := NewEvidence(sub, s.gens.evidence + 1, generation, s.commitSequence + 1);
    NewEvidenceIsGood(cfg, s, sub, generation);
    var h := s.evidence[x.core.id := x];
    SupersedingKeepsRecords(s.artifacts, h, s.gens.evidence + 1, s.commitSequence + 1, previous, x.core.id);
    var f := Relinked(s.evidence, previous, x);
    assert f == h[previous := h[previous].(superseded := true, supersededBy := x.core.id)] by {
      assert previous != x.core.id;
    }
    LaterSequence(f, s.gens.evidence + 1, s.commitSequence + 1, s.commitSequence + 2);
  }

  lemma ReplacementHistory(cfg: Config, s: State, x: Evidence)
    requires Inv(cfg, s)
    ensures HistoryConsistent(Retain(
              Retain(s.history, cfg.maxHistory, s.commitSequence + 2, SubjectEvent(s.commitSequence + 2, EvidenceReplaced, x)),
              cfg.maxHistory, s.commitSequence + 1, SubjectEvent(s.commitSequence + 1, EvidenceSubmitted, x)))
  {
    hide Inv, Retain;
    KeptHistory(cfg, s, SubjectEvent(s.commitSequence + 2, EvidenceReplaced, x));
    RetainKeepsHistory(Retain(s.history, cfg.maxHistory, s.commitSequence + 2,
                              SubjectEvent(s.commitSequence + 2, EvidenceReplaced, x)),
                       cfg.maxHistory, SubjectEvent(s.commitSequence + 1, EvidenceSubmitted, x));
  }

  lemma SubmitKeepsInv(cfg: Config, s: State, sub: Submission)
    requires Inv(cfg, s)
    ensures Inv(cfg, Submit(cfg, s, sub).0)
  {
    hide Inv, FindRevision, StoreFirst, StoreReplacement, IsValidName, AboutSubject;
    if sub.Valid() && Resolves(s.artifacts, sub.subject, sub.subjectRevision, sub.subjectDigest) {
      var previous := Unsuperseded(s.evidence, SubmissionKey(sub));
      if previous != {} {
        StoreReplacementKeepsInv(cfg, s, sub, MinKey(previous));
      } else {
        StoreFirstKeepsInv(cfg, s, sub);
      }
    }
  }

  // ----- Evidence revocation -----

  lemma WithdrawKeepsRecords(s: State, id: Id)
    requires id in s.evidence && AuthorityId(s) != 0
    requires EvidenceConsistent(s.artifacts, s.evidence) && EvidenceIssued(s.evidence, s.gens.evidence, s.commitSequence)
    ensures var f := s.evidence[id := Withdrawn'(s, s.evidence[id])];
            EvidenceConsistent(s.artifacts, f) && EvidenceIssued(f, s.gens.evidence, s.commitSequence + 1)
  {
    hide Resolves, AuthorityId;
    var f := s.evidence[id := Withdrawn'(s, s.evidence[id])];
    assert f.Keys == s.evidence.Keys;
  }

  lemma WithdrawKeepsEvidence(cfg: Config, s: State, id: Id)
    requires Inv(cfg, s) && id in s.evidence
    ensures var f := s.evidence[id := Withdrawn'(s, s.evidence[id])];
            && EvidenceConsistent(s.artifacts, f) && EvidenceChains(f)
            && EvidenceIssued(f, s.gens.evidence, s.commitSequence + 1)
  {
    hide Inv, Resolves, HasChain, AuthorityId, EvidenceIssued, EvidenceConsistent;
    EvidenceFacts(cfg, s);
    HeaderFacts(cfg, s);
    WithdrawKeepsRecords(s, id);
    var f := s.evidence[id := Withdrawn'(s, s.evidence[id])];
    assert f.Keys == s.evidence.Keys;
    forall key ensures HasChain(f, key) {
      assert HasChain(s.evidence, key);
      SameLinksKeepChain(s.evidence, f, key);
    }
  }

  lemma WithdrawKeepsInv(cfg: Config, s: State, id: Id)
    requires Inv(cfg, s) && id in s.evidence
    ensures Inv(cfg, ApplyWithdraw(cfg, s, id))
  {
    hide Inv, EvidenceConsistent, EvidenceIssued, EvidenceChains, HistoryConsistent, Retain, AuthorityId;
    WithdrawKeepsEvidence(cfg, s, id);
    KeptHistory(cfg, s, SubjectEvent(s.commitSequence + 1, EvidenceWithdrawn, s.evidence[id]));
    EvidenceStepKeepsInv(cfg, s, ApplyWithdraw(cfg, s, id));
  }
}
