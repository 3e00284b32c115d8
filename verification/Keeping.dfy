/** Each operation keeps the invariant, continued: evaluation, registration, evidence, authority. */
module Keeping {
  import opened Lifecycle
  import opened Ordered
  import opened Domain
  import opened Store
  import opened Gates
  import opened Steps
  import opened Invariant
  import opened Preservation

  // ----- Evaluation -----

  lemma JudgeKeepsInv(cfg: Config, s: State, a: Artifact, req: Request, now: nat)
    requires Inv(cfg, s) && req.WellFormed()
    requires req.request in s.idempotency ==> s.idempotency[req.request].decision !in s.decisions
    requires FindRevision(s.artifacts, req.artifact, req.revision) >= 0
    requires a == s.artifacts[req.artifact][FindRevision(s.artifacts, req.artifact, req.revision)]
    ensures var (t, e) := Judge(cfg, s, a, req, now); Inv(cfg, FileDecision(cfg, t, a, req, e.decision))
  {
    hide Inv, FindRevision, Verdict, Gathered, FileDecision, Allocate, HeldByOther;
    NewRequest(cfg, s, req);
    StoredRevision(cfg, s, req.artifact, FindRevision(s.artifacts, req.artifact, req.revision));
    var c := ContextFor(cfg, s, a, req, s.activeGeneration, now);
    VerdictHasOutcome(cfg, s, c);
    var (t, e) := Judge(cfg, s, a, req, now);
    if e.hasPlan {
      var d := JudgedDecision(s, req, a, Verdict(c), SnapshotDigest(a, Gathered(c)));
      UngovernedFails(c);
      IssueKeepsInv(cfg, s, a, req, d, now);
    } else if t == s {
      FileKeepsInv(cfg, s, a, req, e.decision);
    } else {
      RejectedKeepsInv(cfg, s, a, req, e.decision);
    }
  }

  lemma UngovernedFails(c: Context)
    ensures c.s.policy.FindRule(c.a.kind, c.a.stage, c.request.stage) < 0 ==> Verdict(c).failed
  {
    hide FoldGates;
  }

  /** A plan identity was taken but the reservation bound refused it. */
  lemma RejectedKeepsInv(cfg: Config, s: State, a: Artifact, req: Request, d: Decision)
    requires Inv(cfg, s) && req.request !in s.idempotency
    requires d.id == s.gens.decision + 1 && d.outcome != NoOutcome && d.plan == 0
    ensures Inv(cfg, FileDecision(cfg, Allocate(cfg, s), a, req, d))
  {
    hide Inv, FileDecision, TrimPlans;
    AllocateKeepsInv(cfg, s);
    FileKeepsInv(cfg, Allocate(cfg, s), a, req, d);
  }

  lemma EvaluateKeepsInv(cfg: Config, s: State, req: Request, now: nat)
    requires Inv(cfg, s)
    ensures Inv(cfg, Evaluate(cfg, s, req, now).0)
  {
    hide Inv, FindRevision, Judge, FileDecision, WithDecision;
    if !req.WellFormed() || (req.request in s.idempotency &&
         (s.idempotency[req.request].digest != req.ContentDigest() || s.idempotency[req.request].decision in s.decisions)) {
    } else {
      var i := FindRevision(s.artifacts, req.artifact, req.revision);
      if i < 0 {
        DecisionKeepsInv(cfg, s, BaseDecision(s, req).(outcome := ArtifactNotFound, reasons := 1));
      } else {
        var a := s.artifacts[req.artifact][i];
        if a.digest != req.digest {
          DecisionKeepsInv(cfg, s, BaseDecision(s, req).(outcome := DigestMismatch, kind := a.kind, from := a.stage,
                                                         reasons := 1));
        } else {
          JudgeKeepsInv(cfg, s, a, req, now);
        }
      }
    }
  }

  // ----- Registration -----

  lemma RevisionTaken(cfg: Config, s: State)
    requires Inv(cfg, s)
    ensures Inv(cfg, s.(gens := s.gens.(revision := s.gens.revision + 1)))
  {
    hide PolicyConsistent, ArtifactsConsistent, EvidenceConsistent, PlansConsistent, DecisionsConsistent,
         RecordsConsistent, HistoryConsistent, TrustConsistent, EvidenceIssued, PlansIssued,
         PlansResolve, DecisionsIssued, RequestsBound, Reservations, ReservedStages, EvidenceChains;
  }

  function Appended(a: map<Id, seq<Artifact>>, id: Id, x: Artifact): map<Id, seq<Artifact>> {
    a[id := ChainOf(a, id) + [x]]
  }

  /** A revision newer than every stored one extends its chain. */
  lemma AppendKeepsArtifacts(a: map<Id, seq<Artifact>>, id: Id, x: Artifact, last: Id)
    requires ArtifactsConsistent(a) && RevisionsIssued(a, last) && id != 0
    requires RevisionConsistent(id, |ChainOf(a, id)|, x) && x.revision == last + 1
    ensures var b := Appended(a, id, x);
            ArtifactsConsistent(b) && RevisionsIssued(b, last + 1) && Extends(a, b)
            && FindRevision(b, id, x.revision) >= 0
  {
    hide RevisionConsistent;
    var b := Appended(a, id, x);
    assert id in a ==> ChainConsistent(id, a[id]);
    assert b[id][|b[id]| - 1] == x;
    assert ChainConsistent(id, b[id]);
    forall k | k in b ensures ChainConsistent(k, b[k]) {
      assert k != id ==> b[k] == a[k];
    }
  }

  lemma AppendKeepsTrust(a: map<Id, seq<Artifact>>, id: Id, x: Artifact, decisions: set<Id>)
    requires TrustConsistent(a, decisions) && Extends(a, Appended(a, id, x))
    requires !x.revocation.active && !x.supersession.active
    ensures TrustConsistent(Appended(a, id, x), decisions)
  {
    hide Extends, FindRevision;
    var b := Appended(a, id, x);
    forall k, j | k in b && 0 <= j < |b[k]| ensures TrustRecordConsistent(b, decisions, b[k][j]) {
      if k in a && j < |a[k]| {
        ExtendsKeepsTrust(a, b, decisions, decisions, a[k][j]);
      }
    }
  }

  lemma AppendKeepsStages(pending: map<Id, Pending>, a: map<Id, seq<Artifact>>, id: Id, x: Artifact)
    requires ReservedStages(pending, a) && Extends(a, Appended(a, id, x))
    ensures ReservedStages(pending, Appended(a, id, x))
  {
    hide Extends, FindRevision;
    var b := Appended(a, id, x);
    forall k | k in pending
      ensures FindRevision(b, k, pending[k].revision) >= 0 &&
              StageStands(pending[k], b[k][FindRevision(b, k, pending[k].revision)])
    {
      ExtendsFind(a, b, k, pending[k].revision);
    }
  }

  /** The invariant with the revision generator's latest value not yet in any chain. */
  lemma AppendKeepsInv(cfg: Config, s: State, id: Id, x: Artifact, generation: nat)
    requires Inv(cfg, s) && id != 0 && RevisionConsistent(id, |ChainOf(s.artifacts, id)|, x)
    requires !x.revocation.active && !x.supersession.active
    requires s.gens.revision >= 1 && x.revision == s.gens.revision && RevisionsIssued(s.artifacts, s.gens.revision - 1)
    ensures Inv(cfg, s.(artifacts := Appended(s.artifacts, id, x), artifactGeneration := generation))
  {
    hide PolicyConsistent, ArtifactsConsistent, EvidenceConsistent, PlansConsistent, DecisionsConsistent,
         RecordsConsistent, HistoryConsistent, TrustConsistent, RevisionsIssued, EvidenceIssued, PlansIssued,
         PlansResolve, DecisionsIssued, RequestsBound, Reservations, ReservedStages, EvidenceChains, Extends,
         RevisionConsistent;
    var b := Appended(s.artifacts, id, x);
    AppendKeepsArtifacts(s.artifacts, id, x, s.gens.revision - 1);
    ExtendsKeepsReferences(s.artifacts, b, s.evidence, s.records, s.plans);
    AppendKeepsTrust(s.artifacts, id, x, s.decisions.Keys);
    AppendKeepsStages(s.pending, s.artifacts, id, x);
  }

  lemma AppendThenUpdate(a: map<Id, seq<Artifact>>, id: Id, i: nat, p: Artifact, x: Artifact)
    requires id in a && i < |a[id]|
    ensures Appended(Update(a, id, i, p), id, x) == Update(Appended(a, id, x), id, i, p)
  {
    assert a[id][i := p] + [x] == (a[id] + [x])[i := p];
    assert Appended(Update(a, id, i, p), id, x)[id] == a[id][i := p] + [x];
    assert Update(Appended(a, id, x), id, i, p)[id] == (a[id] + [x])[i := p];
  }

  /** The revision a registration adds. */
  function Added(s: State, reg: Registration, sequence: nat): Artifact {
    NewRevision(reg, s.gens.revision + 1, |ChainOf(s.artifacts, reg.id)| + 1, s.policy.entry, sequence)
  }

  lemma AddedIsGood(cfg: Config, s: State, reg: Registration, sequence: nat)
    requires Inv(cfg, s) && reg.Valid()
    ensures RevisionConsistent(reg.id, |ChainOf(s.artifacts, reg.id)|, Added(s, reg, sequence))
  {
    hide ArtifactsConsistent, EvidenceConsistent, RecordsConsistent, TrustConsistent, EvidenceChains, IsValidName, SortedNames;
    SortedNamesMeaning(reg.dependencies);
    assert s.policy.entry != INVALID;
  }

  /** The state with the new revision in place and its predecessor untouched. */
  function WithAdded(s: State, reg: Registration, sequence: nat): State {
    s.(gens := s.gens.(revision := s.gens.revision + 1),
       artifacts := Appended(s.artifacts, reg.id, Added(s, reg, sequence)),
       artifactGeneration := s.artifactGeneration + 1)
  }

  lemma WithAddedKeepsInv(cfg: Config, s: State, reg: Registration, sequence: nat)
    requires Inv(cfg, s) && reg.Valid()
    ensures Inv(cfg, WithAdded(s, reg, sequence))
    ensures FindRevision(WithAdded(s, reg, sequence).artifacts, reg.id, s.gens.revision + 1) >= 0
  {
    hide Inv, FindRevision, RevisionConsistent, IsValidName;
    AddedIsGood(cfg, s, reg, sequence);
    RevisionTaken(cfg, s);
    var t := s.(gens := s.gens.(revision := s.gens.revision + 1));
    IssuedBefore(cfg, s);
    AppendKeepsInv(cfg, t, reg.id, Added(s, reg, sequence), s.artifactGeneration + 1);
    ChainsStand(cfg, s);
    AppendKeepsArtifacts(s.artifacts, reg.id, Added(s, reg, sequence), s.gens.revision);
  }

  lemma IssuedBefore(cfg: Config, s: State)
    requires Inv(cfg, s)
    ensures RevisionsIssued(s.artifacts, s.gens.revision)
  {
  }

  lemma ChainsStand(cfg: Config, s: State)
    requires Inv(cfg, s)
    ensures ArtifactsConsistent(s.artifacts) && RevisionsIssued(s.artifacts, s.gens.revision)
  {
  }

  lemma FirstRevisionKeepsInv(cfg: Config, s: State, reg: Registration)
    requires Inv(cfg, s) && reg.Valid()
    ensures Inv(cfg, AppendRevision(s.(gens := s.gens.(revision := s.gens.revision + 1)), cfg, reg, s.gens.revision + 1))
  {
    hide Inv, Note, IsValidName;
    var x := Added(s, reg, s.commitSequence + 1);
    WithAddedKeepsInv(cfg, s, reg, s.commitSequence + 1);
    NoteKeepsInv(cfg, WithAdded(s, reg, s.commitSequence + 1), Registered, x, INVALID, x.stage);
  }

  lemma OutdatedIsGood(cfg: Config, s: State, reg: Registration)
    requires Inv(cfg, s) && reg.Valid() && HasCurrent(s.artifacts, reg.id)
    ensures var w := WithAdded(s, reg, s.commitSequence + 2);
            var last := |s.artifacts[reg.id]| - 1;
            var p := Outdated(s.artifacts[reg.id][last], s.gens.revision + 1, AuthorityId(s), s.commitSequence + 1);
            && reg.id in w.artifacts && last < |w.artifacts[reg.id]|
            && GoodUpdate(w, reg.id, last, p, w.decisions.Keys) && StaleMove(w.artifacts[reg.id][last], p)
  {
    hide Inv, FindRevision, IsValidName, AuthorityId, Added;
    var w := WithAdded(s, reg, s.commitSequence + 2);
    WithAddedKeepsInv(cfg, s, reg, s.commitSequence + 2);
    StoredRevision(cfg, w, reg.id, |s.artifacts[reg.id]| - 1);
  }

  /** Filing the two events of a re-registration. */
  lemma ReplacedRevisionHistory(cfg: Config, s: State, e1: Event, e2: Event)
    requires Inv(cfg, s) && e1.sequence != 0 && e2.sequence != 0
    ensures HistoryConsistent(Retain(s.history[e1.sequence := e1], cfg.maxHistory, e2.sequence, e2))
  {
    hide Inv;
    KeptHistory(cfg, s, e1);
    RetainKeepsHistory(s.history[e1.sequence := e1], cfg.maxHistory, e2);
  }

  lemma OutdateShape(cfg: Config, s: State, reg: Registration, revision: Id)
    requires HasCurrent(s.artifacts, reg.id) && revision == s.gens.revision
    ensures var last := |s.artifacts[reg.id]| - 1;
            var p := Outdated(s.artifacts[reg.id][last], revision, AuthorityId(s), s.commitSequence + 1);
            var x := NewRevision(reg, revision, |s.artifacts[reg.id]| + 1, s.policy.entry, s.commitSequence + 2);
            var t := AppendRevision(OutdatePrevious(s, reg.id, revision), cfg, reg, revision);
            t == s.(artifacts := Update(Appended(s.artifacts, reg.id, x), reg.id, last, p),
                    artifactGeneration := s.artifactGeneration + 1, commitSequence := s.commitSequence + 2,
                    history := Retain(s.history[s.commitSequence + 1 :=
                        Event(s.commitSequence + 1, SupersededByRegistration, p.id, p.revision, p.stage, p.stage)],
                      cfg.maxHistory, s.commitSequence + 2,
                      Event(s.commitSequence + 2, Registered, x.id, x.revision, INVALID, x.stage)))
  {
    hide Retain, AuthorityId, Outdated, NewRevision;
    var last := |s.artifacts[reg.id]| - 1;
    var p := Outdated(s.artifacts[reg.id][last], revision, AuthorityId(s), s.commitSequence + 1);
    var x := NewRevision(reg, revision, |s.artifacts[reg.id]| + 1, s.policy.entry, s.commitSequence + 2);
    AppendThenUpdate(s.artifacts, reg.id, last, p, x);
  }

  lemma NextRevisionKeepsInv(cfg: Config, s: State, reg: Registration)
    requires Inv(cfg, s) && reg.Valid() && HasCurrent(s.artifacts, reg.id)
    ensures var t := s.(gens := s.gens.(revision := s.gens.revision + 1));
            Inv(cfg, AppendRevision(OutdatePrevious(t, reg.id, s.gens.revision + 1), cfg, reg, s.gens.revision + 1))
  {
    hide Inv, HistoryConsistent, Retain, AuthorityId, Outdated, IsValidName, FindRevision, AppendRevision, OutdatePrevious,
         GoodUpdate, StaleMove;
    var t := s.(gens := s.gens.(revision := s.gens.revision + 1));
    var revision := s.gens.revision + 1;
    var last := |s.artifacts[reg.id]| - 1;
    var w := WithAdded(s, reg, s.commitSequence + 2);
    var p := Outdated(s.artifacts[reg.id][last], revision, AuthorityId(s), s.commitSequence + 1);
    var x := Added(s, reg, s.commitSequence + 2);
    WithAddedKeepsInv(cfg, s, reg, s.commitSequence + 2);
    OutdatedIsGood(cfg, s, reg);
    SameAuthority(s, t);
    OutdateShape(cfg, t, reg, revision);
    ReplacedRevisionHistory(cfg, s,
      Event(s.commitSequence + 1, SupersededByRegistration, p.id, p.revision, p.stage, p.stage),
      Event(s.commitSequence + 2, Registered, x.id, x.revision, INVALID, x.stage));
    UpdateKeepsAll(cfg, w, reg.id, last, p, w.decisions.Keys);
    StaleMoveKeepsInv(cfg, w, AppendRevision(OutdatePrevious(t, reg.id, revision), cfg, reg, revision), reg.id, last, p);
  }

  lemma SameAuthority(s: State, t: State)
    requires s.coordinator == t.coordinator && s.epoch == t.epoch
    ensures AuthorityId(s) == AuthorityId(t)
  {
  }

  lemma RegisterKeepsInv(cfg: Config, s: State, reg: Registration)
    requires Inv(cfg, s)
    ensures Inv(cfg, Register(cfg, s, reg).0)
  {
    hide Inv, AppendRevision, OutdatePrevious, DigestClash, IsValidName;
    if reg.Valid() {
      RevisionTaken(cfg, s);
      if ChainOf(s.artifacts, reg.id) == [] {
        FirstRevisionKeepsInv(cfg, s, reg);
      } else {
        NextRevisionKeepsInv(cfg, s, reg);
      }
    }
  }
}
