/** What holds of the registered artifacts, and of the evidence a commit rests on, over whole runs. */
module Registry {
  import opened Domain
  import opened Store
  import opened Gates
  import opened Steps
  import opened Invariant
  import opened Runs
  import opened Promotions
  import opened Fencing
  import opened Stages
  import opened Effects
  import opened Intake
  import opened Trusts

  // ----- Content is never rewritten -----

  ghost predicate Keeps(a: map<Id, seq<Artifact>>, b: map<Id, seq<Artifact>>) {
    forall id :: id in a ==> id in b && |a[id]| <= |b[id]| && forall i :: 0 <= i < |a[id]| ==> SameContent(a[id][i], b[id][i])
  }

  lemma EvolvedKeeps(s: State, t: State, op: Op)
    requires Evolves(s, t, op)
    ensures Keeps(s.artifacts, t.artifacts)
  {
    hide Licensed, Cleared, Governs, SameContent;
    forall id, i | id in s.artifacts && 0 <= i < |s.artifacts[id]| ensures SameContent(s.artifacts[id][i], t.artifacts[id][i]) {
      assert RevisionStep(s.policy, t.pending.Keys, op, id, s.artifacts[id][i], t.artifacts[id][i]);
    }
  }

  /** Whatever happens, a registered revision keeps its kind, content, name, producer, provenance and
      dependencies. */
  lemma {:induction false} ContentIsKept(cfg: Config, s: State, ops: seq<Op>)
    requires Inv(cfg, s)
    ensures Keeps(s.artifacts, Run(cfg, s, ops).artifacts)
    decreases |ops|
  {
    hide Inv, Apply, Evolves;
    if ops != [] {
      var t := Apply(cfg, s, ops[0]);
      ApplyKeepsInv(cfg, s, ops[0]);
      ApplyEvolves(cfg, s, ops[0]);
      EvolvedKeeps(s, t, ops[0]);
      ContentIsKept(cfg, t, ops[1..]);
    }
  }

  // ----- One classification for one content -----

  ghost predicate OneKind(artifacts: map<Id, seq<Artifact>>) {
    forall id, i :: id in artifacts && 0 <= i < |artifacts[id]| ==>
      Classified(artifacts, artifacts[id][i].digest, artifacts[id][i].kind)
  }

  ghost predicate Bounded(cfg: Config, artifacts: map<Id, seq<Artifact>>) {
    |artifacts| <= cfg.maxArtifacts && forall id :: id in artifacts ==> |artifacts[id]| <= cfg.maxRevisions
  }

  ghost predicate NoRepeats(artifacts: map<Id, seq<Artifact>>) {
    forall id, i :: id in artifacts && 0 <= i < |artifacts[id]| - 1 ==> artifacts[id][i].digest != artifacts[id][i + 1].digest
  }

  /** Content has one kind; the registry and its chains are within their bounds; no revision repeats the one
      before it. */
  ghost predicate InOrder(cfg: Config, artifacts: map<Id, seq<Artifact>>) {
    OneKind(artifacts) && Bounded(cfg, artifacts) && NoRepeats(artifacts)
  }

  ghost predicate SameShape(a: map<Id, seq<Artifact>>, b: map<Id, seq<Artifact>>) {
    b.Keys == a.Keys && (forall id :: id in a ==> |b[id]| == |a[id]|) && Keeps(a, b)
  }

  lemma ShapeInOrder(cfg: Config, a: map<Id, seq<Artifact>>, b: map<Id, seq<Artifact>>)
    requires InOrder(cfg, a) && SameShape(a, b)
    ensures InOrder(cfg, b)
  {
    assert |b| == |b.Keys| && |a| == |a.Keys|;
    assert forall id, i :: id in b && 0 <= i < |b[id]| ==> SameContent(a[id][i], b[id][i]);
  }

  /** Everything stored was stored before, or is this. */
  ghost predicate Adds(a: map<Id, seq<Artifact>>, b: map<Id, seq<Artifact>>, digest: Digest, kind: ArtifactKind) {
    forall id, i :: id in b && 0 <= i < |b[id]| ==>
      || (id in a && i < |a[id]| && b[id][i].digest == a[id][i].digest && b[id][i].kind == a[id][i].kind)
      || (b[id][i].digest == digest && b[id][i].kind == kind)
  }

  lemma ClassifiedStill(a: map<Id, seq<Artifact>>, b: map<Id, seq<Artifact>>, digest: Digest, kind: ArtifactKind,
                        d: Digest, k: ArtifactKind)
    requires Adds(a, b, digest, kind) && Classified(a, d, k) && (d == digest ==> k == kind)
    ensures Classified(b, d, k)
  {
  }

  lemma OneKindStill(a: map<Id, seq<Artifact>>, b: map<Id, seq<Artifact>>, digest: Digest, kind: ArtifactKind)
    requires OneKind(a) && Adds(a, b, digest, kind) && Classified(a, digest, kind)
    ensures OneKind(b)
  {
    hide Classified;
    ClassifiedStill(a, b, digest, kind, digest, kind);
    forall id, i | id in b && 0 <= i < |b[id]| ensures Classified(b, b[id][i].digest, b[id][i].kind) {
      if id in a && i < |a[id]| && b[id][i].digest == a[id][i].digest && b[id][i].kind == a[id][i].kind {
        if a[id][i].digest == digest {
          ClassifiedAt(a, digest, kind, id, i);
        }
        ClassifiedStill(a, b, digest, kind, a[id][i].digest, a[id][i].kind);
      }
    }
  }

  lemma ClassifiedAt(a: map<Id, seq<Artifact>>, digest: Digest, kind: ArtifactKind, id: Id, i: nat)
    requires Classified(a, digest, kind) && id in a && i < |a[id]| && a[id][i].digest == digest
    ensures a[id][i].kind == kind
  {
  }

  /** The chain of one artifact grew by one revision, and all others are as they were. */
  ghost predicate GrewBy(a: map<Id, seq<Artifact>>, b: map<Id, seq<Artifact>>, id: Id, digest: Digest, kind: ArtifactKind) {
    var n := |ChainOf(a, id)|;
    && b.Keys == a.Keys + {id} && |b[id]| == n + 1 && b[id][n].digest == digest && b[id][n].kind == kind
    && (forall k :: k in a ==> |a[k]| <= |b[k]| && (k != id ==> |b[k]| == |a[k]|))
    && (forall k, i :: k in a && 0 <= i < |a[k]| ==> b[k][i].digest == a[k][i].digest && b[k][i].kind == a[k][i].kind)
  }

  lemma ChainedGrew(s: State, t: State, reg: Registration, k: Id)
    requires Chained(s, t, reg, k) && Keeps(s.artifacts, t.artifacts)
    ensures GrewBy(s.artifacts, t.artifacts, reg.id, reg.digest, reg.kind)
  {
    hide SupersededBy;
  }

  lemma RegisteredInOrder(cfg: Config, s: State, t: State, reg: Registration)
    requires InOrder(cfg, s.artifacts) && Registers(cfg, s, reg)
    requires GrewBy(s.artifacts, t.artifacts, reg.id, reg.digest, reg.kind)
    ensures InOrder(cfg, t.artifacts)
  {
    hide Declared, OneKind, Classified, GrewBy, Adds, NoRepeats;
    var a, b := s.artifacts, t.artifacts;
    GrowthAdds(a, b, reg.id, reg.digest, reg.kind);
    OneKindStill(a, b, reg.digest, reg.kind);
    GrowthBounded(cfg, a, b, reg.id, reg.digest, reg.kind);
    GrowthRepeatsNothing(a, b, reg.id, reg.digest, reg.kind);
  }

  lemma GrowthAdds(a: map<Id, seq<Artifact>>, b: map<Id, seq<Artifact>>, id: Id, digest: Digest, kind: ArtifactKind)
    requires GrewBy(a, b, id, digest, kind)
    ensures Adds(a, b, digest, kind)
  {
  }

  lemma GrowthBounded(cfg: Config, a: map<Id, seq<Artifact>>, b: map<Id, seq<Artifact>>, id: Id, digest: Digest,
                      kind: ArtifactKind)
    requires GrewBy(a, b, id, digest, kind) && Bounded(cfg, a)
    requires (id in a || |a| < cfg.maxArtifacts) && |ChainOf(a, id)| < cfg.maxRevisions
    ensures Bounded(cfg, b)
  {
    SizeOf(a, b, id);
  }

  lemma GrowthRepeatsNothing(a: map<Id, seq<Artifact>>, b: map<Id, seq<Artifact>>, id: Id, digest: Digest, kind: ArtifactKind)
    requires GrewBy(a, b, id, digest, kind) && NoRepeats(a) && (HasCurrent(a, id) ==> Current(a, id).digest != digest)
    ensures NoRepeats(b)
  {
    forall k, i | k in b && 0 <= i < |b[k]| - 1 ensures b[k][i].digest != b[k][i + 1].digest {
      assert k in a && i < |a[k]| && b[k][i].digest == a[k][i].digest;
      if i + 1 < |a[k]| {
        assert b[k][i + 1].digest == a[k][i + 1].digest;
      }
    }
  }

  lemma SizeOf(a: map<Id, seq<Artifact>>, b: map<Id, seq<Artifact>>, id: Id)
    requires b.Keys == a.Keys + {id}
    ensures |b| == |a| + (if id in a then 0 else 1)
  {
    assert |b| == |b.Keys| && |a| == |a.Keys|;
    if id in a {
      assert b.Keys == a.Keys;
    }
  }

  lemma OneRevisionShape(a: map<Id, seq<Artifact>>, b: map<Id, seq<Artifact>>, id: Id, i: nat)
    requires OnlyRevision(a, b, id, i) && Keeps(a, b)
    ensures SameShape(a, b)
  {
    hide Keeps;
  }

  lemma SameIsShape(a: map<Id, seq<Artifact>>)
    ensures SameShape(a, a)
  {
  }

  lemma CommitsStored(cfg: Config, s: State, p: Plan, now: nat)
    requires Commits(cfg, s, p, now)
    ensures Stored(s, p)
  {
    hide Eligible, LiveEntries, FindRevision;
  }

  lemma ReleaseShapes(cfg: Config, s: State, id: Id, authority: Authority, now: nat)
    requires Inv(cfg, s) && Keeps(s.artifacts, DoRelease(cfg, s, id, authority, now).0.artifacts)
    ensures SameShape(s.artifacts, DoRelease(cfg, s, id, authority, now).0.artifacts)
  {
    hide Inv, Keeps, OnlyRevision, SameShape, DoRelease, Eligible, Justified, ReleasedTo, ReleaseDecided, Reported,
         LiveEntries, Logs;
    ReleaseExactly(cfg, s, id, authority, now);
    SameIsShape(s.artifacts);
    if AsksRelease(s, id, authority) {
      if Eligible(ReleaseContext(cfg, s, id, now)) {
        OneRevisionShape(s.artifacts, DoRelease(cfg, s, id, authority, now).0.artifacts, id, |s.artifacts[id]| - 1);
      }
    }
  }

  lemma ShapeIsKept(cfg: Config, s: State, op: Op)
    requires Inv(cfg, s) && !op.RegisterOp? && Keeps(s.artifacts, Apply(cfg, s, op).artifacts)
    ensures SameShape(s.artifacts, Apply(cfg, s, op).artifacts)
  {
    hide Inv, Keeps, OnlyRevision, SameShape, Register, Submit, Publish, Restart, Recover, Reload, Evaluate, Commit,
         DoQuarantine, DoRelease, DoRevoke, DoSupersede, DoRetire, DoRevokeEvidence, SetVeto, SetCompatibility, DropAll,
         Commits, Quarantines, Revokes,
         Supersedes, Retires, AsksRelease, Eligible, Justified, HeldIn, RevokedBy, SupersededFor, RetiredIn, ReleasedTo,
         ReleaseDecided, ReleaseLogged, Reported, LiveEntries, FindRevision, Logs;
    var a, b := s.artifacts, Apply(cfg, s, op).artifacts;
    if a == b {
      SameIsShape(a);
    }
    match op
    case CommitOp(p, now) =>
      if Commits(cfg, s, p, now) {
        CommitMoves(cfg, s, p, now);
        assert Stored(s, p) by { CommitsStored(cfg, s, p, now); }
        OneRevisionShape(a, b, p.artifact, FindRevision(a, p.artifact, p.revision));
      } else {
        RefusedCommit(cfg, s, p, now);
      }
    case QuarantineOp(id, reason, authority) =>
      QuarantineExactly(cfg, s, id, reason, authority);
      if Quarantines(s, id, reason, authority) {
        OneRevisionShape(a, b, id, |a[id]| - 1);
      }
    case RevokeOp(id, decision, reason, authority, cause) =>
      RevokeExactly(cfg, s, id, decision, reason, authority, cause);
      if Revokes(s, id, decision, reason, authority, cause) {
        OneRevisionShape(a, b, id, |a[id]| - 1);
      }
    case SupersedeOp(id, successor, authority) =>
      SupersedeExactly(cfg, s, id, successor, authority);
      if Supersedes(s, id, successor, authority) {
        OneRevisionShape(a, b, id, |a[id]| - 1);
      }
    case RetireOp(id, authority) =>
      RetireExactly(cfg, s, id, authority);
      if Retires(s, id, authority) {
        OneRevisionShape(a, b, id, |a[id]| - 1);
      }
    case ReleaseOp(id, authority, now) =>
      ReleaseExactly(cfg, s, id, authority, now);
      ReleaseShapes(cfg, s, id, authority, now);
    case _ => ApplyElsewhere(cfg, s, op);
  }

  lemma RegisterInOrder(cfg: Config, s: State, reg: Registration)
    requires Inv(cfg, s) && InOrder(cfg, s.artifacts) && Keeps(s.artifacts, Register(cfg, s, reg).0.artifacts)
    ensures InOrder(cfg, Register(cfg, s, reg).0.artifacts)
  {
    hide Inv, InOrder, Keeps, Register, Registers, Chained, RegisterFrame, GrewBy;
    RegisterExactly(cfg, s, reg);
    if Registers(cfg, s, reg) {
      RegisterStores(cfg, s, reg);
      ChainedGrew(s, Register(cfg, s, reg).0, reg, s.gens.revision + 1);
      RegisteredInOrder(cfg, s, Register(cfg, s, reg).0, reg);
    }
  }

  /** Over every run one content has one kind, the bounds of the registry hold, and no revision repeats its
      predecessor. */
  lemma {:induction false} RegistryStaysInOrder(cfg: Config, s: State, ops: seq<Op>)
    requires Inv(cfg, s) && InOrder(cfg, s.artifacts)
    ensures InOrder(cfg, Run(cfg, s, ops).artifacts)
    decreases |ops|
  {
    hide Inv, Apply, Evolves, InOrder, Keeps, SameShape;
    if ops != [] {
      var t := Apply(cfg, s, ops[0]);
      ApplyKeepsInv(cfg, s, ops[0]);
      ApplyEvolves(cfg, s, ops[0]);
      EvolvedKeeps(s, t, ops[0]);
      if ops[0].RegisterOp? {
        RegisterApplied(cfg, s, ops[0]);
        RegisterInOrder(cfg, s, ops[0].registration);
      } else {
        ShapeIsKept(cfg, s, ops[0]);
        ShapeInOrder(cfg, s.artifacts, t.artifacts);
      }
      RegistryStaysInOrder(cfg, t, ops[1..]);
    }
  }

  lemma RegisterApplied(cfg: Config, s: State, op: Op)
    requires op.RegisterOp?
    ensures Apply(cfg, s, op) == Register(cfg, s, op.registration).0
  {
    hide Register;
  }

  // ----- Dependencies -----

  /** Right after a registration, the gate on dependencies holds of the new revision exactly if everything the
      registration declared is registered and authoritative. */
  lemma DependenciesDecide(cfg: Config, s: State, reg: Registration, c: Context, g: Gate)
    requires Inv(cfg, s) && Registers(cfg, s, reg) && g.kind == DependentArtifactPromoted
    requires c.s == Register(cfg, s, reg).0 && HasCurrent(c.s.artifacts, reg.id) && c.a == Current(c.s.artifacts, reg.id)
    ensures Holds(c, g) <==> forall d :: d in reg.dependencies ==> DependencyPromoted(c.s.artifacts, d)
  {
    hide Inv, Registers, Register, RegisterFrame, DependencyPromoted;
    RegisterStores(cfg, s, reg);
    DeclaredDependencies(s, c.s, reg, s.gens.revision + 1);
  }

  lemma DeclaredDependencies(s: State, t: State, reg: Registration, k: Id)
    requires Chained(s, t, reg, k) && HasCurrent(t.artifacts, reg.id)
    ensures forall d :: d in Current(t.artifacts, reg.id).dependencies <==> d in reg.dependencies
  {
    hide SupersededBy;
  }

  // ----- The evidence a commit rests on -----

  lemma EvidenceKeyed(cfg: Config, s: State)
    requires Inv(cfg, s)
    ensures forall k :: k in s.evidence ==>
              s.evidence[k].core.id == k && s.evidence[k].integrity == IntegrityOf(s.evidence[k].core)
  {
    hide PolicyConsistent, ArtifactsConsistent, PlansConsistent, DecisionsConsistent, RecordsConsistent, HistoryConsistent,
         TrustConsistent, RevisionsIssued, PlansResolve, RequestsBound, Reservations, ReservedStages, EvidenceChains,
         Resolves, EvidenceValid;
  }

  ghost predicate Stands(evidence: map<Id, Evidence>, a: Artifact, k: Id) {
    && k in evidence && evidence[k].core.subject == a.id && evidence[k].core.subjectRevision == a.revision
    && !evidence[k].core.revoked && !evidence[k].superseded
  }

  lemma EntriesTell(a: Artifact, b: Artifact, e: map<Id, Evidence>, f: map<Id, Evidence>, k: Id)
    requires LiveEntries(e, a) <= LiveEntries(f, b) && Stands(e, a, k)
    requires forall j :: j in e ==> e[j].core.id == j && e[j].integrity == IntegrityOf(e[j].core)
    requires forall j :: j in f ==> f[j].core.id == j && f[j].integrity == IntegrityOf(f[j].core)
    ensures Stands(f, b, k) && f[k].core == e[k].core
  {
    assert EntryOf(e[k]) in LiveEntries(e, a);
    var j :| j in f && AboutRevision(f[j], b) && Live(f[j]) && EntryOf(f[j]) == EntryOf(e[k]);
  }

  /** When a plan commits, the content it is about and the records in force about it are the ones it was issued
      on, every field of them. */
  lemma CommitRestsOnTheSame(cfg: Config, s: State, req: Request, now: nat, ops: seq<Op>, later: nat, k: Id)
    requires Inv(cfg, s) && Evaluate(cfg, s, req, now).1.Success? && Evaluate(cfg, s, req, now).1.value.hasPlan
    requires var p := Evaluate(cfg, s, req, now).1.value.plan;
             Emits(cfg, Run(cfg, Evaluate(cfg, s, req, now).0, ops), CommitOp(p, later)) != []
    ensures FindRevision(s.artifacts, req.artifact, req.revision) >= 0
    ensures var p := Evaluate(cfg, s, req, now).1.value.plan;
            var u := Run(cfg, Evaluate(cfg, s, req, now).0, ops);
            var a := s.artifacts[req.artifact][FindRevision(s.artifacts, req.artifact, req.revision)];
            && Stored(u, p) && Target(u, p).digest == a.digest == req.digest
            && (Stands(u.evidence, Target(u, p), k) <==> Stands(s.evidence, a, k))
            && (Stands(s.evidence, a, k) ==> u.evidence[k].core == s.evidence[k].core)
  {
    hide Inv, Run, Evaluate, FindRevision, Eligible, LiveEntries, Commit, Target, Commits, Emits;
    var p := Evaluate(cfg, s, req, now).1.value.plan;
    var u := Run(cfg, Evaluate(cfg, s, req, now).0, ops);
    CommitIsSound(cfg, s, req, now, ops, later);
    IssuedPlan(cfg, s, req, now);
    assert Evaluate(cfg, s, req, now).0 == Apply(cfg, s, EvaluateOp(req, now));
    ApplyKeepsInv(cfg, s, EvaluateOp(req, now));
    RunKeepsInv(cfg, Evaluate(cfg, s, req, now).0, ops);
    StoredHere(cfg, u, p);
    EvidenceKeyed(cfg, s);
    EvidenceKeyed(cfg, u);
    var a, b := s.artifacts[req.artifact][FindRevision(s.artifacts, req.artifact, req.revision)], Target(u, p);
    if Stands(s.evidence, a, k) {
      EntriesTell(a, b, s.evidence, u.evidence, k);
    }
    if Stands(u.evidence, b, k) {
      EntriesTell(b, a, u.evidence, s.evidence, k);
    }
  }
}
