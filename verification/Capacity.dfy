/** How fast chains and tables grow, and which histories keep within what a file may list. */
module Capacity {
  import opened Lifecycle
  import opened Ordered
  import opened Domain
  import opened Store
  import opened Gates
  import opened Steps
  import opened Invariant
  import opened Keeping
  import opened KeepingAuthority
  import opened Runs
  import opened Fencing
  import opened Ledger

  // ----- One operation -----

  /** A chain grows only within the configured bound. */
  ghost predicate ChainsWithin(cfg: Config, a: map<Id, seq<Artifact>>, b: map<Id, seq<Artifact>>) {
    forall k :: k in b ==> |b[k]| <= cfg.maxRevisions || (k in a && |b[k]| == |a[k]|)
  }

  /** Tables gain one entry at most; each note in the history beyond two is paid for by a reservation. */
  ghost predicate Grows(cfg: Config, s: State, t: State) {
    && ChainsWithin(cfg, s.artifacts, t.artifacts)
    && |t.artifacts| <= |s.artifacts| + 1 && |t.vetoes| <= |s.vetoes| + 1 && |t.evidence| <= |s.evidence| + 1
    && |t.plans| <= |s.plans| + 1 && |t.decisions| <= |s.decisions| + 1 && |t.records| <= |s.records| + 1
    && |t.idempotency| <= |s.idempotency| + 1
    && |t.history| + |t.pending| <= |s.history| + |s.pending| + 2
  }

  ghost predicate SameChains(a: map<Id, seq<Artifact>>, b: map<Id, seq<Artifact>>) {
    |a| == |b| && forall k :: k in b ==> k in a && |b[k]| == |a[k]|
  }

  /** The state moves on, and at most one note and one record are filed. */
  ghost predicate Steady(s: State, t: State) {
    && SameChains(s.artifacts, t.artifacts) && t.vetoes == s.vetoes && |t.evidence| == |s.evidence| && t.plans == s.plans
    && t.decisions == s.decisions && t.idempotency == s.idempotency && |t.records| <= |s.records| + 1
    && |t.history| <= |s.history| + 1 && |t.pending| <= |s.pending|
  }

  lemma SteadyGrows(cfg: Config, s: State, t: State)
    requires Steady(s, t)
    ensures Grows(cfg, s, t)
  {
  }

  lemma SameGrows(cfg: Config, s: State)
    ensures Steady(s, s) && Grows(cfg, s, s)
  {
  }

  lemma Fewer<V>()
    ensures forall m: map<nat, V>, keys: set<nat> :: |m - keys| <= |m|
  {
    forall m: map<nat, V>, keys: set<nat> ensures |m - keys| <= |m| {
      FewerKeys((m - keys).Keys, m.Keys);
      assert |(m - keys).Keys| == |m - keys| && |m.Keys| == |m|;
    }
  }

  lemma {:induction false} FewerKeys(a: set<nat>, b: set<nat>)
    requires a <= b
    ensures |a| <= |b|
    decreases |a|
  {
    if a != {} {
      var x :| x in a;
      FewerKeys(a - {x}, b - {x});
    }
  }

  lemma Retained<V>()
    ensures forall m: map<nat, V>, bound: nat, key: nat, value: V :: |Retain(m, bound, key, value)| <= |m| + 1
  {
    Fewer<V>();
  }

  // ----- Operations that file a note -----

  lemma Swapped(a: map<Id, seq<Artifact>>, id: Id, i: nat, x: Artifact)
    requires id in a && i < |a[id]|
    ensures SameChains(a, a[id := a[id][i := x]])
  {
  }

  lemma QuarantineGrows(cfg: Config, s: State, id: Id)
    requires HasCurrent(s.artifacts, id)
    ensures Steady(s, ApplyQuarantine(cfg, s, id))
  {
    hide Retain, Quarantined', SameChains;
    Fewer<Pending>();
    Retained<Event>();
    Swapped(s.artifacts, id, |s.artifacts[id]| - 1, Quarantined'(s, Current(s.artifacts, id)));
  }

  /** A current revision is replaced, a record filed and a note taken. */
  lemma NotedGrows(cfg: Config, s: State, id: Id, a: Artifact, r: Record, kind: EventKind, from: Stage, to: Stage)
    requires HasCurrent(s.artifacts, id)
    ensures var t := WithRecord(WithCurrent(s, id, a), cfg, r);
            Steady(s, Note(t.(commitSequence := s.commitSequence + 1), cfg, kind, Current(s.artifacts, id), from, to))
  {
    hide Retain, SameChains;
    Retained<Event>();
    Retained<Record>();
    Swapped(s.artifacts, id, |s.artifacts[id]| - 1, a);
  }

  lemma ReleaseGrows(cfg: Config, s: State, id: Id, decision: Id, snapshot: Digest)
    requires HasCurrent(s.artifacts, id)
    ensures Steady(s, ApplyRelease(cfg, s, id, decision, snapshot))
  {
    hide Retain, Released', Steady, Note, WithRecord, WithCurrent, TrustRecord;
    var a := Current(s.artifacts, id);
    var r := TrustRecord(s, a, CANDIDATE, decision, s.gens.internalRequest, s.gens.internalAttempt, snapshot,
                         s.commitSequence + 1);
    NotedGrows(cfg, s, id, Released'(s, a), r, Released, a.stage, CANDIDATE);
  }

  lemma RevokeGrows(cfg: Config, s: State, id: Id, decision: Id, cause: Id)
    requires HasCurrent(s.artifacts, id)
    ensures Steady(s, ApplyRevoke(cfg, s, id, decision, cause))
  {
    hide Retain, Revoked', SameChains;
    Fewer<Pending>();
    Retained<Event>();
    Retained<Record>();
    Swapped(s.artifacts, id, |s.artifacts[id]| - 1, Revoked'(s, Current(s.artifacts, id), decision, cause));
  }

  lemma SupersedeGrows(cfg: Config, s: State, id: Id, successor: Id)
    requires HasCurrent(s.artifacts, id) && HasCurrent(s.artifacts, successor)
    ensures Steady(s, ApplySupersede(cfg, s, id, successor))
  {
    hide Retain, Superseded', SameChains;
    Fewer<Pending>();
    Retained<Event>();
    Retained<Record>();
    Swapped(s.artifacts, id, |s.artifacts[id]| - 1,
            Superseded'(s, Current(s.artifacts, id), Current(s.artifacts, successor)));
  }

  lemma RetireGrows(cfg: Config, s: State, id: Id)
    requires HasCurrent(s.artifacts, id)
    ensures Steady(s, ApplyRetire(cfg, s, id))
  {
    hide Retain, Retired', SameChains;
    Fewer<Pending>();
    Retained<Event>();
    Retained<Record>();
    Swapped(s.artifacts, id, |s.artifacts[id]| - 1, Retired'(s, Current(s.artifacts, id)));
  }

  lemma WithdrawGrows(cfg: Config, s: State, id: Id)
    requires id in s.evidence
    ensures Steady(s, ApplyWithdraw(cfg, s, id))
  {
    hide Retain, Withdrawn', Fenced;
    Fewer<Pending>();
    Retained<Event>();
  }

  lemma PublishedGrows(cfg: Config, s: State, p: Policy)
    ensures Steady(s, Published(cfg, s, p))
  {
    hide Retain;
    Retained<Event>();
  }

  // ----- Registration and evidence -----

  lemma OutdateGrows(s: State, id: Id, revision: Id)
    requires HasCurrent(s.artifacts, id)
    ensures Steady(s, OutdatePrevious(s, id, revision)) && OutdatePrevious(s, id, revision).records == s.records
  {
    hide Outdated, SameChains;
    Swapped(s.artifacts, id, |s.artifacts[id]| - 1,
            Outdated(s.artifacts[id][|s.artifacts[id]| - 1], revision, AuthorityId(s), s.commitSequence + 1));
  }

  lemma AppendGrows(cfg: Config, s: State, reg: Registration, revision: Id)
    requires |ChainOf(s.artifacts, reg.id)| < cfg.maxRevisions
    ensures var t := AppendRevision(s, cfg, reg, revision);
            Grows(cfg, s, t) && |t.history| + |t.pending| <= |s.history| + |s.pending| + 1
  {
    hide Retain, NewRevision;
    Retained<Event>();
  }

  lemma RegisterGrows(cfg: Config, s: State, reg: Registration)
    ensures Grows(cfg, s, Register(cfg, s, reg).0)
  {
    hide Registration.Valid, DigestClash, OutdatePrevious, AppendRevision, Grows, Steady;
    var r := s.gens.revision + 1;
    var t := s.(gens := s.gens.(revision := r));
    SameGrows(cfg, s);
    assert Grows(cfg, s, t) by { IssueGrows(cfg, s, r); }
    var chain := ChainOf(s.artifacts, reg.id);
    if |chain| < cfg.maxRevisions {
      if chain == [] {
        AppendGrows(cfg, t, reg, r);
        AfterIssue(cfg, s, t, AppendRevision(t, cfg, reg, r));
      } else {
        OutdateGrows(t, reg.id, r);
        var u := OutdatePrevious(t, reg.id, r);
        SameLength(t, u, reg.id);
        AppendGrows(cfg, u, reg, r);
        AfterOutdate(cfg, s, t, u, AppendRevision(u, cfg, reg, r));
      }
    }
  }

  lemma IssueGrows(cfg: Config, s: State, revision: Id)
    ensures Grows(cfg, s, s.(gens := s.gens.(revision := revision)))
  {
  }

  lemma SameLength(s: State, t: State, id: Id)
    requires Steady(s, t)
    ensures |ChainOf(t.artifacts, id)| <= |ChainOf(s.artifacts, id)|
  {
  }

  lemma AfterIssue(cfg: Config, s: State, t: State, u: State)
    requires t == s.(gens := t.gens) && Grows(cfg, t, u)
    ensures Grows(cfg, s, u)
  {
  }

  lemma AfterOutdate(cfg: Config, s: State, t: State, u: State, v: State)
    requires t == s.(gens := t.gens) && Steady(t, u) && u.records == t.records && Grows(cfg, u, v)
    requires |v.history| + |v.pending| <= |u.history| + |u.pending| + 1
    ensures Grows(cfg, s, v)
  {
  }

  lemma StoreGrows(cfg: Config, s: State, sub: Submission, previous: Id)
    ensures Grows(cfg, s, StoreFirst(s, cfg, sub))
    ensures previous in s.evidence ==> Grows(cfg, s, StoreReplacement(s, cfg, sub, previous))
  {
    hide Retain, NewEvidence;
    Retained<Event>();
  }

  lemma SubmitGrows(cfg: Config, s: State, sub: Submission)
    ensures Grows(cfg, s, Submit(cfg, s, sub).0)
  {
    hide FindRevision, Resolves, Submission.Valid, AboutSubject, StoreFirst, StoreReplacement, Grows;
    var previous := Unsuperseded(s.evidence, SubmissionKey(sub));
    StoreGrows(cfg, s, sub, if previous != {} then MinKey(previous) else 0);
    SameGrows(cfg, s);
  }

  // ----- Epochs -----

  /** A dropped reservation leaves one note. */
  lemma {:induction false} DropAllGrows(s: State)
    ensures var t := DropAll(s);
            && t == s.(commitSequence := t.commitSequence, history := t.history, pending := t.pending)
            && |t.history| + |t.pending| <= |s.history| + |s.pending|
    decreases |s.pending|
  {
    if s.pending != map[] {
      DropFirstShrinks(s);
      DropAllGrows(DropFirst(s));
    }
  }

  lemma RestartGrows(cfg: Config, s: State, epoch: nat)
    ensures Grows(cfg, s, Restart(s, epoch).0) && Grows(cfg, s, Recover(s))
  {
    hide DropAll;
    DropAllGrows(s.(epoch := epoch));
    DropAllGrows(s);
  }

  lemma ReloadGrows(cfg: Config, s: State, requests: Id)
    requires Inv(cfg, s)
    ensures Grows(cfg, s, Reload(s, requests))
  {
    hide Inv, Reload;
    ReloadIs(cfg, s, requests);
  }

  // ----- Evaluation, release and commit -----

  /** What judging a request adds: a plan and a reservation at most. */
  ghost predicate Judged(s: State, t: State) {
    && t.artifacts == s.artifacts && t.vetoes == s.vetoes && t.evidence == s.evidence && t.decisions == s.decisions
    && t.idempotency == s.idempotency && t.records == s.records && t.history == s.history
    && |t.plans| <= |s.plans| + 1 && |t.pending| <= |s.pending| + 1
  }

  lemma ReserveGrows(cfg: Config, s: State, p: Plan, r: Pending)
    ensures Judged(s, Allocate(cfg, s)) && Judged(s, Reserve(Allocate(cfg, s), p, r))
  {
    Fewer<Plan>();
  }

  lemma JudgeGrows(cfg: Config, s: State, a: Artifact, req: Request, now: nat)
    ensures Judged(s, Judge(cfg, s, a, req, now).0)
  {
    hide Verdict, Gathered, Allocate, Reserve, HeldByOther, Judged;
    SameIsJudged(s);
    var c := ContextFor(cfg, s, a, req, s.activeGeneration, now);
    var d := JudgedDecision(s, req, a, Verdict(c), SnapshotDigest(a, Gathered(c)));
    var p := NewPlan(cfg, s, a, req, d, now);
    ReserveGrows(cfg, s, p, NewPending(s, p));
    UngovernedFails(c);
  }

  lemma SameIsJudged(s: State)
    ensures Judged(s, s)
  {
  }

  lemma FileGrows(cfg: Config, s: State, t: State, a: Artifact, req: Request, d: Decision)
    requires Judged(s, t)
    ensures Grows(cfg, s, FileDecision(cfg, t, a, req, d))
  {
    hide Retain;
    Retained<Event>();
  }

  lemma DecisionGrows(cfg: Config, s: State, d: Decision)
    ensures Grows(cfg, s, WithDecision(s, d))
  {
  }

  lemma EvaluateGrows(cfg: Config, s: State, req: Request, now: nat)
    ensures Grows(cfg, s, Evaluate(cfg, s, req, now).0)
  {
    hide FindRevision, Judge, FileDecision, WithDecision, Grows;
    SameGrows(cfg, s);
    var i := FindRevision(s.artifacts, req.artifact, req.revision);
    DecisionGrows(cfg, s, BaseDecision(s, req).(outcome := ArtifactNotFound, reasons := 1));
    if i >= 0 {
      var a := s.artifacts[req.artifact][i];
      DecisionGrows(cfg, s, BaseDecision(s, req).(outcome := DigestMismatch, kind := a.kind, from := a.stage, reasons := 1));
      var (t, e) := Judge(cfg, s, a, req, now);
      JudgeGrows(cfg, s, a, req, now);
      FileGrows(cfg, s, t, a, req, e.decision);
    }
  }

  lemma FiledReleaseGrows(cfg: Config, s: State, req: Request, d: Decision, t: State)
    ensures Grows(cfg, s, ReleaseFiled(s, req, d))
    ensures Steady(ReleaseFiled(s, req, d), t) ==> Grows(cfg, s, t)
  {
  }

  lemma DoReleaseGrows(cfg: Config, s: State, id: Id, authority: Authority, now: nat)
    ensures Grows(cfg, s, DoRelease(cfg, s, id, authority, now).0)
  {
    hide ApplyRelease, Verdict, Gathered, ReleaseFiled, Grows, Steady;
    SameGrows(cfg, s);
    if HasCurrent(s.artifacts, id) {
      var a := Current(s.artifacts, id);
      var req := ReleaseRequest(s, a);
      var c := ContextFor(cfg, s, a, req, s.activeGeneration, now);
      var snapshot := SnapshotDigest(a, Gathered(c));
      var d := JudgedDecision(s, req, a, Verdict(c), snapshot);
      var u := ReleaseFiled(s, req, d);
      assert HasCurrent(u.artifacts, id) by { FiledArtifacts(s, req, d); }
      ReleaseGrows(cfg, u, id, d.id, snapshot);
      FiledReleaseGrows(cfg, s, req, d, ApplyRelease(cfg, u, id, d.id, snapshot));
    }
  }

  lemma CloseGrows(cfg: Config, s: State, p: Plan, d: Decision)
    ensures Grows(cfg, s, Close(s, p, d)) && Grows(cfg, s, s.(decisions := s.decisions[p.decision := d]))
  {
    Fewer<Pending>();
  }

  lemma ApplyPlanGrows(cfg: Config, s: State, p: Plan, i: nat, d: Decision)
    requires p.artifact in s.artifacts && i < |s.artifacts[p.artifact]|
    ensures Grows(cfg, s, ApplyPlan(cfg, s, p, i, d))
  {
    hide Retain, Committed';
    Fewer<Pending>();
    Retained<Event>();
    Retained<Record>();
  }

  lemma RevalidateGrows(cfg: Config, s: State, p: Plan, i: nat, now: nat)
    requires p.artifact in s.artifacts && i < |s.artifacts[p.artifact]|
    ensures Grows(cfg, s, Revalidate(cfg, s, p, i, now).0)
  {
    hide Verdict, Gathered, Close, ApplyPlan, Grows;
    forall d ensures Grows(cfg, s, Close(s, p, d)) && Grows(cfg, s, ApplyPlan(cfg, s, p, i, d)) {
      CloseGrows(cfg, s, p, d);
      ApplyPlanGrows(cfg, s, p, i, d);
    }
  }

  lemma CommitGrows(cfg: Config, s: State, p: Plan, now: nat)
    ensures Grows(cfg, s, Commit(cfg, s, p, now).0)
  {
    hide FindRevision, Revalidate, Close, Grows, Plan.Valid, PolicyMoved;
    SameGrows(cfg, s);
    var d := StoredDecision(s, p.decision);
    CloseGrows(cfg, s, p, d.(outcome := Outcome.Conflict, reasons := d.reasons + 1));
    CloseGrows(cfg, s, p, d.(outcome := RevalidationRequired, reasons := d.reasons + 1));
    var i := FindRevision(s.artifacts, p.artifact, p.revision);
    if i >= 0 {
      RevalidateGrows(cfg, s, p, i, now);
    }
  }

  // ----- The rest -----

  lemma WithVetoGrows(cfg: Config, s: State, id: Id, v: Veto)
    ensures Grows(cfg, s, WithVeto(s, id, v))
  {
  }

  lemma VetoGrows(cfg: Config, s: State, id: Id, security: bool, active: bool)
    ensures Grows(cfg, s, SetVeto(s, id, security, active))
  {
    hide Grows, WithVeto;
    SameGrows(cfg, s);
    WithVetoGrows(cfg, s, id,
                  if security then VetoOf(s, id).(security := active) else VetoOf(s, id).(dependency := active));
  }

  lemma EmptiedGrows(cfg: Config, s: State, generation: nat)
    ensures Grows(cfg, s, s.(compatibility := generation, pending := map[]))
  {
  }

  lemma CompatibilityGrows(cfg: Config, s: State, generation: nat)
    ensures Grows(cfg, s, SetCompatibility(s, generation).0)
  {
    hide Grows;
    SameGrows(cfg, s);
    EmptiedGrows(cfg, s, generation);
  }

  lemma PublishGrows(cfg: Config, s: State, body: Policy, rest: nat)
    ensures Grows(cfg, s, Publish(cfg, s, body, rest).0)
  {
    hide Published, Grows, Steady, Policy.Valid;
    SameGrows(cfg, s);
    PublishedGrows(cfg, s, body.(digest := body.BodyDigest(rest)));
    SteadyGrows(cfg, s, Published(cfg, s, body.(digest := body.BodyDigest(rest))));
  }

  lemma HoldGrows(cfg: Config, s: State, id: Id, reason: string, authority: Authority)
    ensures Grows(cfg, s, DoQuarantine(cfg, s, id, reason, authority).0)
    ensures Grows(cfg, s, DoRetire(cfg, s, id, authority).0)
  {
    hide ApplyQuarantine, ApplyRetire, Grows, Steady, IsValidName;
    SameGrows(cfg, s);
    if HasCurrent(s.artifacts, id) {
      QuarantineGrows(cfg, s, id);
      SteadyGrows(cfg, s, ApplyQuarantine(cfg, s, id));
      RetireGrows(cfg, s, id);
      SteadyGrows(cfg, s, ApplyRetire(cfg, s, id));
    }
  }

  lemma DoRevokeGrows(cfg: Config, s: State, id: Id, decision: Id, reason: string, authority: Authority, cause: Id)
    ensures Grows(cfg, s, DoRevoke(cfg, s, id, decision, reason, authority, cause).0)
  {
    hide ApplyRevoke, Grows, Steady, IsValidName;
    SameGrows(cfg, s);
    if HasCurrent(s.artifacts, id) {
      var target := if decision == 0 then Current(s.artifacts, id).promotionDecision else decision;
      RevokeGrows(cfg, s, id, target, cause);
      SteadyGrows(cfg, s, ApplyRevoke(cfg, s, id, target, cause));
    }
  }

  lemma DoSupersedeGrows(cfg: Config, s: State, id: Id, successor: Id, authority: Authority)
    ensures Grows(cfg, s, DoSupersede(cfg, s, id, successor, authority).0)
  {
    hide ApplySupersede, Grows, Steady;
    SameGrows(cfg, s);
    if HasCurrent(s.artifacts, id) && HasCurrent(s.artifacts, successor) {
      SupersedeGrows(cfg, s, id, successor);
      SteadyGrows(cfg, s, ApplySupersede(cfg, s, id, successor));
    }
  }

  lemma DoWithdrawGrows(cfg: Config, s: State, id: Id, authority: Authority)
    ensures Grows(cfg, s, DoRevokeEvidence(cfg, s, id, authority).0)
  {
    hide ApplyWithdraw, Grows, Steady;
    SameGrows(cfg, s);
    if id in s.evidence {
      WithdrawGrows(cfg, s, id);
      SteadyGrows(cfg, s, ApplyWithdraw(cfg, s, id));
    }
  }

  lemma ApplyGrows(cfg: Config, s: State, op: Op)
    requires Inv(cfg, s)
    ensures Grows(cfg, s, Apply(cfg, s, op))
  {
    hide Inv, Register, Submit, Publish, Restart, Recover, Reload, Evaluate, Commit, DoQuarantine, DoRelease, DoRevoke,
         DoSupersede, DoRetire, DoRevokeEvidence, SetVeto, SetCompatibility, DropAll, Grows;
    match op
    case RegisterOp(registration) => RegisterGrows(cfg, s, registration);
    case SubmitOp(submission) => SubmitGrows(cfg, s, submission);
    case RestartOp(epoch) => RestartGrows(cfg, s, epoch);
    case RecoverOp => RestartGrows(cfg, s, 0);
    case ReloadOp(requests) => ReloadGrows(cfg, s, requests);
    case EvaluateOp(request, now) => EvaluateGrows(cfg, s, request, now);
    case CommitOp(plan, now) => CommitGrows(cfg, s, plan, now);
    case ReleaseOp(id, authority, now) => DoReleaseGrows(cfg, s, id, authority, now);
    case VetoOp(id, security, active) => VetoGrows(cfg, s, id, security, active);
    case CompatibilityOp(generation) => CompatibilityGrows(cfg, s, generation);
    case PublishOp(body, rest) => PublishGrows(cfg, s, body, rest);
    case QuarantineOp(id, reason, authority) => HoldGrows(cfg, s, id, reason, authority);
    case RevokeOp(id, decision, reason, authority, cause) =>
      DoRevokeGrows(cfg, s, id, decision, reason, authority, cause);
    case SupersedeOp(id, successor, authority) => DoSupersedeGrows(cfg, s, id, successor, authority);
    case RetireOp(id, authority) => HoldGrows(cfg, s, id, "", authority);
    case RevokeEvidenceOp(id, authority) => DoWithdrawGrows(cfg, s, id, authority);
  }

  // ----- Runs -----

  /** Every chain within the configured bound, tables of at most `n` entries, and a history to match. */
  ghost predicate Within(cfg: Config, s: State, n: nat) {
    && (forall k :: k in s.artifacts ==> |s.artifacts[k]| <= cfg.maxRevisions)
    && |s.artifacts| <= n && |s.vetoes| <= n && |s.evidence| <= n && |s.plans| <= n && |s.decisions| <= n
    && |s.records| <= n && |s.idempotency| <= n && |s.history| + |s.pending| <= 2 * n
  }

  lemma WithinStep(cfg: Config, s: State, t: State, n: nat)
    requires Within(cfg, s, n) && Grows(cfg, s, t)
    ensures Within(cfg, t, n + 1)
  {
  }

  /** Each operation of a run adds one entry to a table at most, and two to the history; no chain ever
      passes the configured bound. */
  lemma {:induction false} RunStaysWithin(cfg: Config, s: State, ops: seq<Op>, n: nat)
    requires Inv(cfg, s) && Within(cfg, s, n)
    ensures Within(cfg, Run(cfg, s, ops), n + |ops|)
    decreases |ops|
  {
    hide Inv, Apply, Within;
    if ops != [] {
      ApplyKeepsInv(cfg, s, ops[0]);
      ApplyGrows(cfg, s, ops[0]);
      WithinStep(cfg, s, Apply(cfg, s, ops[0]), n);
      RunStaysWithin(cfg, Apply(cfg, s, ops[0]), ops[1..], n + 1);
    }
  }

  /** Within that, a file lists it all. */
  lemma WithinIsCompact(cfg: Config, s: State, n: nat)
    requires Within(cfg, s, n) && cfg.maxRevisions <= MAX_CHAIN && n <= MAX_KEYS
    ensures Compact(s)
  {
  }

  lemma ShortRunsAreCompact(cfg: Config, s: State, ops: seq<Op>)
    requires Inv(cfg, s) && Within(cfg, s, 0) && cfg.maxRevisions <= MAX_CHAIN && |ops| <= MAX_KEYS
    ensures Compact(Run(cfg, s, ops))
  {
    hide Inv, Run, Within, Compact;
    RunStaysWithin(cfg, s, ops, 0);
    WithinIsCompact(cfg, Run(cfg, s, ops), |ops|);
  }

  // ----- Registering one identity over and over -----

  /** The content alternates, since a registration equal to the current one is refused. */
  function Again(i: nat): Registration {
    Registration(1, 1, Content(i % 2), "a", Producer(0, 0), [], [])
  }

  function Registrations(n: nat): seq<Op> { seq(n, i requires 0 <= i => RegisterOp(Again(i))) }

  /** One chain of `n` revisions, the last with the content of registration `n - 1`. */
  ghost predicate Lengthened(a: map<Id, seq<Artifact>>, n: nat) {
    && a.Keys == (if n == 0 then {} else {1})
    && (n > 0 ==> |a[1]| == n && a[1][n - 1].digest == Content((n - 1) % 2))
    && (n > 0 ==> forall i :: 0 <= i < n ==> a[1][i].kind == 1)
  }

  lemma AgainIsValid(i: nat)
    ensures Again(i).Valid()
  {
    assert IsNameChar('a');
  }

  lemma AppendIs(cfg: Config, s: State, reg: Registration, revision: Id)
    ensures var chain := ChainOf(s.artifacts, reg.id);
            var a := NewRevision(reg, revision, |chain| + 1, s.policy.entry, s.commitSequence + 1);
            AppendRevision(s, cfg, reg, revision).artifacts == s.artifacts[reg.id := chain + [a]]
  {
    hide Retain, NewRevision;
  }

  lemma OutdateIs(s: State, id: Id, revision: Id)
    requires HasCurrent(s.artifacts, id)
    ensures var chain := s.artifacts[id];
            var p := Outdated(chain[|chain| - 1], revision, AuthorityId(s), s.commitSequence + 1);
            && OutdatePrevious(s, id, revision).artifacts == s.artifacts[id := chain[|chain| - 1 := p]]
            && p.kind == chain[|chain| - 1].kind
  {
  }

  lemma OneMoreRevision(a: map<Id, seq<Artifact>>, n: nat, p: Artifact, x: Artifact)
    requires Lengthened(a, n) && x.kind == 1 && x.digest == Content(n % 2) && (n > 0 ==> p.kind == 1)
    ensures Lengthened(a[1 := (if n == 0 then [] else a[1][n - 1 := p]) + [x]], n + 1)
  {
  }

  /** The next registration is admitted. */
  lemma AgainIsAdmitted(cfg: Config, s: State, n: nat)
    requires cfg.Valid() && n < cfg.maxRevisions && Lengthened(s.artifacts, n)
    ensures var t := s.(gens := s.gens.(revision := s.gens.revision + 1));
            && (n > 0 ==> HasCurrent(t.artifacts, 1))
            && var u := if n == 0 then t else OutdatePrevious(t, 1, s.gens.revision + 1);
               Register(cfg, s, Again(n)).0 == AppendRevision(u, cfg, Again(n), s.gens.revision + 1)
  {
    hide Registration.Valid, AppendRevision, OutdatePrevious;
    AgainIsValid(n);
    assert !DigestClash(s.artifacts, Again(n).digest, 1);
  }

  lemma Lengthens(cfg: Config, s: State, n: nat)
    requires cfg.Valid() && n < cfg.maxRevisions && Lengthened(s.artifacts, n)
    ensures Lengthened(Register(cfg, s, Again(n)).0.artifacts, n + 1)
  {
    hide AppendRevision, OutdatePrevious, Outdated, Lengthened, Register;
    AgainIsAdmitted(cfg, s, n);
    var revision := s.gens.revision + 1;
    var t := s.(gens := s.gens.(revision := revision));
    var chain := ChainOf(s.artifacts, 1);
    assert |chain| == n && (n > 0 ==> 1 in s.artifacts && chain[n - 1].kind == 1) by { LengthenedIs(s.artifacts, n); }
    if n == 0 {
      AppendIs(cfg, t, Again(n), revision);
      var x := NewRevision(Again(n), revision, 1, t.policy.entry, t.commitSequence + 1);
      OneMoreRevision(s.artifacts, n, x, x);
    } else {
      var u := OutdatePrevious(t, 1, revision);
      OutdateIs(t, 1, revision);
      AppendIs(cfg, u, Again(n), revision);
      var p := Outdated(chain[n - 1], revision, AuthorityId(t), t.commitSequence + 1);
      var x := NewRevision(Again(n), revision, n + 1, u.policy.entry, u.commitSequence + 1);
      OneMoreRevision(s.artifacts, n, p, x);
      assert s.artifacts[1 := chain[n - 1 := p]][1 := chain[n - 1 := p] + [x]] == s.artifacts[1 := chain[n - 1 := p] + [x]];
    }
  }

  lemma LengthenedIs(a: map<Id, seq<Artifact>>, n: nat)
    requires Lengthened(a, n)
    ensures var chain := ChainOf(a, 1); |chain| == n && (n > 0 ==> 1 in a && chain[n - 1].kind == 1)
  {
  }

  lemma {:induction false} LongChain(cfg: Config, s: State, n: nat)
    requires cfg.Valid() && n <= cfg.maxRevisions && Lengthened(s.artifacts, 0)
    ensures Lengthened(Run(cfg, s, Registrations(n)).artifacts, n)
    decreases n
  {
    hide Lengthened, Apply, Register;
    if n > 0 {
      LongChain(cfg, s, n - 1);
      var ops := Registrations(n);
      var t := Run(cfg, s, Registrations(n - 1));
      Lengthens(cfg, t, n - 1);
      RunSplit(cfg, s, ops, n - 1);
      assert ops[..n - 1] == Registrations(n - 1) && ops[n - 1..] == [RegisterOp(Again(n - 1))];
      RunOne(cfg, t, RegisterOp(Again(n - 1)));
      assert Apply(cfg, t, RegisterOp(Again(n - 1))) == Register(cfg, t, Again(n - 1)).0 by { RegisterIs(cfg, t, Again(n - 1)); }
    }
  }

  lemma RegisterIs(cfg: Config, s: State, reg: Registration)
    ensures Apply(cfg, s, RegisterOp(reg)) == Register(cfg, s, reg).0
  {
    hide Register;
  }

  /** One identity can be registered as often as configured, and a file lists the outcome exactly up to
      1024 revisions. */
  lemma RegistrationsExactly(cfg: Config, s: State, n: nat)
    requires Inv(cfg, s) && Within(cfg, s, 0) && n <= cfg.maxRevisions && n <= MAX_KEYS
    ensures var t := Run(cfg, s, Registrations(n)); Lengthened(t.artifacts, n) && (Compact(t) <==> n <= MAX_CHAIN)
  {
    hide Inv, Run;
    assert cfg.Valid() by { UsableConfig(cfg, s); }
    LongChain(cfg, s, n);
    RunStaysWithin(cfg, s, Registrations(n), 0);
  }

  lemma UsableConfig(cfg: Config, s: State)
    requires Inv(cfg, s)
    ensures cfg.Valid()
  {
  }

  ghost predicate ListsAll(cfg: Config, s: State) {
    forall ops :: |ops| <= MAX_KEYS ==> Compact(Run(cfg, s, ops))
  }

  /** Whatever a coordinator does in its first million operations, a file can list it, exactly when the
      configuration allows no chain longer than 1024. */
  lemma ListsAllExactly(cfg: Config, s: State)
    requires Inv(cfg, s) && Within(cfg, s, 0)
    ensures ListsAll(cfg, s) <==> cfg.maxRevisions <= MAX_CHAIN
  {
    hide Inv, Run, Within, Compact, Lengthened;
    if cfg.maxRevisions <= MAX_CHAIN {
      forall ops | |ops| <= MAX_KEYS ensures Compact(Run(cfg, s, ops)) {
        ShortRunsAreCompact(cfg, s, ops);
      }
    } else {
      RegistrationsExactly(cfg, s, MAX_CHAIN + 1);
      assert |Registrations(MAX_CHAIN + 1)| <= MAX_KEYS;
    }
  }
}
