/** How many reasons each decision has gathered, counted along the run. */
module Reasons {
  import opened Domain
  import opened Store
  import opened Gates
  import opened Steps
  import opened Invariant
  import opened Runs
  import opened Promotions
  import opened Fencing
  import opened Ledger

  // ----- Verdicts -----

  /** The gates that do not hold, up to the first one that names an unregistered dependency. */
  ghost function Failing(c: Context, gates: seq<Gate>): nat {
    if gates == [] then 0
    else (if Holds(c, gates[0]) then 0 else 1) +
         (if GateCode(c, gates[0]) == DependencyUnregistered then 0 else Failing(c, gates[1..]))
  }

  lemma {:induction false} FoldCounts(c: Context, gates: seq<Gate>, so: GateOutcome)
    requires DistinctSequences(c.s.evidence)
    ensures FoldGates(c, gates, so).reasons == so.reasons + Failing(c, gates)
  {
    hide Holds, GateCode;
    if gates != [] {
      GateMeaning(c, gates[0]);
      FoldCounts(c, gates[1..], AfterGate(so, gates[0].kind, GateCode(c, gates[0])));
    }
  }

  /** A verdict gives one reason for each failing gate, and a single one if no rule governs the transition. */
  lemma VerdictCounts(c: Context)
    requires DistinctSequences(c.s.evidence)
    ensures var i := c.s.policy.FindRule(c.a.kind, c.a.stage, c.request.stage);
            Verdict(c).reasons == if i < 0 then 1 else Failing(c, c.s.policy.rules[i].gates)
  {
    hide Failing, FoldGates;
    var i := c.s.policy.FindRule(c.a.kind, c.a.stage, c.request.stage);
    if i >= 0 {
      FoldCounts(c, c.s.policy.rules[i].gates, GateOutcome(false, PromotionEligible, 0));
    }
  }

  // ----- The tally of one decision -----

  /** The reasons a decision was filed with, how often its plan was refused and revalidated since, and
      what the revalidations found. */
  datatype Tally = Tally(filed: nat, refusals: nat, revalidations: nat, found: nat) {
    function Plus(t: Tally): Tally {
      Tally(filed + t.filed, refusals + t.refusals, revalidations + t.revalidations, found + t.found)
    }

    function Reasons(): nat { filed + refusals + found }

    predicate Empty() { filed == 0 && refusals == 0 && revalidations == 0 && found == 0 }

    /** One evaluation and one revalidation at most, with one reason for each gate of a rule, and one for
        the evidence in the latter; only a decision filed without reasons has a plan to hand in. */
    predicate Modest() {
      && filed <= MAX_GATES && revalidations <= 1 && found <= MAX_GATES + 1 && (revalidations == 0 ==> found == 0)
      && (filed != 0 ==> refusals == revalidations == 0)
    }
  }

  lemma PlusIs(a: Tally, b: Tally)
    ensures var c := a.Plus(b);
            && c.filed == a.filed + b.filed && c.refusals == a.refusals + b.refusals
            && c.revalidations == a.revalidations + b.revalidations && c.found == a.found + b.found
  {
  }

  lemma PlusReasons(a: Tally, b: Tally)
    ensures a.Plus(b).Reasons() == a.Reasons() + b.Reasons()
  {
  }

  const NOTHING: Tally := Tally(0, 0, 0, 0)

  lemma NothingGiven()
    ensures NOTHING.Reasons() == 0
  {
  }

  lemma FiledReasons(n: nat)
    ensures Tally(n, 0, 0, 0).Reasons() == n
  {
  }

  function AnswerReasons(r: Result<Evaluation>): nat {
    if r.Success? then r.value.decision.reasons else 0
  }

  /** The plan of decision `k`, as it was issued, is handed in. */
  predicate HandsIn(s: State, op: Op, k: Id) { op.CommitOp? && op.plan.decision == k && Known(s, op.plan) }

  /** What one operation adds for decision `k`. */
  ghost function Adds(cfg: Config, s: State, op: Op, k: Id): Tally {
    if HandsIn(s, op, k) then
      if Lapsed(s, op.plan, op.now) || !Stored(s, op.plan) then Tally(0, 1, 0, 0)
      else Tally(0, 0, 1, Objections(cfg, s, op.plan, op.now))
    else if k != s.gens.decision + 1 then NOTHING
    else if op.EvaluateOp? && Stores(s, op.request) then
      Tally(AnswerReasons(Evaluate(cfg, s, op.request, op.now).1), 0, 0, 0)
    else if op.ReleaseOp? && HasCurrent(s.artifacts, op.id) && DoRelease(cfg, s, op.id, op.authority, op.now).0 != s then
      Tally(ReleaseReasons(cfg, s, op.id, op.now), 0, 0, 0)
    else NOTHING
  }

  ghost function TallyOf(cfg: Config, s: State, ops: seq<Op>, k: Id): Tally
    decreases |ops|
  {
    if ops == [] then NOTHING else Adds(cfg, s, ops[0], k).Plus(TallyOf(cfg, Apply(cfg, s, ops[0]), ops[1..], k))
  }

  function ReasonsOf(s: State, k: Id): nat { if k in s.decisions then s.decisions[k].reasons else 0 }

  // ----- One operation -----

  /** The tally accounts for the reasons, and only an unfiled decision is filed. */
  ghost predicate Accounts(s: State, t: State, k: Id, a: Tally) {
    && ReasonsOf(t, k) == ReasonsOf(s, k) + a.Reasons()
    && (k in s.decisions ==> k in t.decisions && a.filed == 0)
    && (k !in s.decisions ==> a.refusals == a.revalidations == a.found == 0)
    && (k !in t.decisions ==> a.filed == 0)
    && a.Modest()
  }

  lemma QuietAccounts(s: State, t: State, k: Id)
    requires Quiet(s, t)
    ensures Accounts(s, t, k, NOTHING)
  {
    hide Tally.Reasons;
    NothingGiven();
  }

  lemma FreshAccounts(cfg: Config, s: State, t: State, d: Decision, k: Id)
    requires Inv(cfg, s) && Writes(s, t, d) && d.id == s.gens.decision + 1 && d.reasons <= MAX_GATES
    ensures Accounts(s, t, k, if k == d.id then Tally(d.reasons, 0, 0, 0) else NOTHING)
  {
    hide Inv, Tally.Reasons;
    NotDecided(cfg, s);
    NothingGiven();
    assert Tally(d.reasons, 0, 0, 0).Reasons() == d.reasons by { FiledReasons(d.reasons); }
  }

  lemma ReworkAccounts(s: State, t: State, e: Decision, k: Id, a: Tally)
    requires Writes(s, t, e) && e.id in s.decisions && e.reasons == s.decisions[e.id].reasons + a.Reasons()
    requires a.Modest() && a.filed == 0
    ensures Accounts(s, t, k, if k == e.id then a else NOTHING)
  {
    hide Tally.Reasons;
    NothingGiven();
  }

  lemma ObjectionsBound(cfg: Config, s: State, p: Plan, now: nat)
    requires Inv(cfg, s) && Stored(s, p)
    ensures Objections(cfg, s, p, now) <= MAX_GATES + 1
  {
    hide Inv, Verdict, Gathered, FindRevision;
    VerdictReasons(cfg, s, CommitContext(cfg, s, p, now));
  }

  lemma CommitAccounts(cfg: Config, s: State, p: Plan, now: nat, k: Id)
    requires Inv(cfg, s) && Booked(s)
    ensures Accounts(s, Commit(cfg, s, p, now).0, k, Adds(cfg, s, CommitOp(p, now), k))
  {
    hide Inv, Booked, Commit, Writes, Reworks, Objections, Lapsed, FindRevision, Plan.Valid, Accounts, Unreserved;
    if Known(s, p) {
      var e := CommitWrites(cfg, s, p, now);
      ObjectionsBound(cfg, s, p, now);
      ReworkIs(s.decisions[p.decision], e, Promotions.Held(s, p));
      ReworkAccounts(s, Commit(cfg, s, p, now).0, e, k, Adds(cfg, s, CommitOp(p, now), p.decision));
      assert p.decision in s.decisions;
      if k != p.decision {
        assert Adds(cfg, s, CommitOp(p, now), k) == NOTHING;
      }
    } else {
      CommitIgnores(cfg, s, p, now);
      SameIsQuiet(s);
      QuietAccounts(s, s, k);
    }
  }

  lemma ReworkIs(d: Decision, e: Decision, held: bool)
    requires Reworks(d, e, held)
    ensures e.id == d.id
  {
  }

  lemma EvaluateAccounts(cfg: Config, s: State, req: Request, now: nat, k: Id)
    requires Inv(cfg, s)
    ensures Accounts(s, Evaluate(cfg, s, req, now).0, k, Adds(cfg, s, EvaluateOp(req, now), k))
  {
    hide Inv, Evaluate, Writes, FindRevision, Accounts;
    if Stores(s, req) {
      var d := EvaluateWrites(cfg, s, req, now);
      FreshAccounts(cfg, s, Evaluate(cfg, s, req, now).0, d, k);
    } else {
      EvaluateRepeats(cfg, s, req, now);
      SameIsQuiet(s);
      QuietAccounts(s, s, k);
    }
  }

  lemma ReleaseAccounts(cfg: Config, s: State, id: Id, authority: Authority, now: nat, k: Id)
    requires Inv(cfg, s)
    ensures Accounts(s, DoRelease(cfg, s, id, authority, now).0, k, Adds(cfg, s, ReleaseOp(id, authority, now), k))
  {
    hide Inv, DoRelease, Writes, FindRevision, Accounts, ReleaseReasons;
    if DoRelease(cfg, s, id, authority, now).0 != s {
      var d := ReleaseWrites(cfg, s, id, authority, now);
      FreshAccounts(cfg, s, DoRelease(cfg, s, id, authority, now).0, d, k);
    } else {
      SameIsQuiet(s);
      QuietAccounts(s, s, k);
    }
  }

  lemma ApplyAccounts(cfg: Config, s: State, op: Op, k: Id)
    requires Inv(cfg, s) && Booked(s)
    ensures Accounts(s, Apply(cfg, s, op), k, Adds(cfg, s, op, k))
  {
    hide Inv, Booked, Evaluate, Commit, DoRelease, DropAll, Reload, Register, Submit, Publish, DoQuarantine, DoRevoke,
         DoSupersede, DoRetire, DoRevokeEvidence, Accounts, Lapsed, Objections, ReleaseReasons, Quiet, FindRevision;
    match op
    case EvaluateOp(req, now) => EvaluateAccounts(cfg, s, req, now, k);
    case CommitOp(p, now) => CommitAccounts(cfg, s, p, now, k);
    case ReleaseOp(id, authority, now) => ReleaseAccounts(cfg, s, id, authority, now, k);
    case _ =>
      ApplyIsQuiet(cfg, s, op);
      QuietAccounts(s, Apply(cfg, s, op), k);
  }

  // ----- A plan is revalidated once -----

  /** No reservation stands for a plan of decision `k`. */
  ghost predicate Spent(s: State, k: Id) {
    && k in s.decisions
    && forall id :: id in s.pending && s.pending[id].plan in s.plans ==> s.plans[s.pending[id].plan].decision != k
  }

  lemma QuietIsSpent(s: State, t: State, k: Id)
    requires Spent(s, k) && Quiet(s, t)
    ensures Spent(t, k)
  {
  }

  lemma WriteIsSpent(s: State, t: State, d: Decision, k: Id)
    requires Spent(s, k) && Writes(s, t, d) && d.id != k
    ensures Spent(t, k)
  {
  }

  /** Handing in a plan uses up the only reservation of its decision. */
  lemma CommitSpends(cfg: Config, s: State, p: Plan, now: nat)
    requires Inv(cfg, s) && Booked(s) && Known(s, p)
    ensures Spent(Commit(cfg, s, p, now).0, p.decision)
  {
    hide Inv, Booked, Commit, Objections, Lapsed, FindRevision, Plan.Valid;
    var t := Commit(cfg, s, p, now).0;
    var e := CommitWrites(cfg, s, p, now);
    ApplyKeepsBooks(cfg, s, CommitOp(p, now));
    assert t == Apply(cfg, s, CommitOp(p, now));
    assert s.decisions[p.decision].plan == p.id by { OwnDecision(s, p.id); }
    forall id | id in t.pending && t.pending[id].plan in t.plans ensures t.plans[t.pending[id].plan].decision != p.decision {
      OwnDecision(t, t.pending[id].plan);
    }
  }

  lemma OwnDecision(s: State, p: Id)
    requires Booked(s) && p in s.plans
    ensures s.plans[p].decision in s.decisions ==> s.decisions[s.plans[p].decision].plan == p
  {
  }

  lemma SpentStays(cfg: Config, s: State, op: Op, k: Id)
    requires Inv(cfg, s) && Booked(s) && Spent(s, k)
    ensures Spent(Apply(cfg, s, op), k)
  {
    hide Inv, Booked, Evaluate, Commit, DoRelease, DropAll, Reload, Register, Submit, Publish, DoQuarantine, DoRevoke,
         DoSupersede, DoRetire, DoRevokeEvidence, Spent, Objections, ReleaseReasons, Quiet, Writes, FindRevision, Lapsed;
    assert k in s.decisions by { SpentIs(s, k); }
    NotDecided(cfg, s);
    match op
    case EvaluateOp(req, now) =>
      if Stores(s, req) {
        var d := EvaluateWrites(cfg, s, req, now);
        WriteIsSpent(s, Evaluate(cfg, s, req, now).0, d, k);
      } else {
        EvaluateRepeats(cfg, s, req, now);
      }
    case CommitOp(p, now) =>
      if Known(s, p) {
        var e := CommitWrites(cfg, s, p, now);
        if p.decision == k {
          CommitSpends(cfg, s, p, now);
        } else {
          WriteIsSpent(s, Commit(cfg, s, p, now).0, e, k);
        }
      } else {
        CommitIgnores(cfg, s, p, now);
      }
    case ReleaseOp(id, authority, now) =>
      if DoRelease(cfg, s, id, authority, now).0 != s {
        var d := ReleaseWrites(cfg, s, id, authority, now);
        WriteIsSpent(s, DoRelease(cfg, s, id, authority, now).0, d, k);
      }
    case _ =>
      ApplyIsQuiet(cfg, s, op);
      QuietIsSpent(s, Apply(cfg, s, op), k);
  }

  lemma SpentIs(s: State, k: Id)
    requires Spent(s, k)
    ensures k in s.decisions && forall p :: Known(s, p) && p.decision == k ==> !Promotions.Held(s, p)
  {
    hide Plan.Valid;
  }

  /** From then on every attempt is refused, for one reason. */
  lemma {:induction false} SpentTally(cfg: Config, s: State, ops: seq<Op>, k: Id)
    requires Inv(cfg, s) && Booked(s) && Spent(s, k)
    ensures var a := TallyOf(cfg, s, ops, k); a.filed == 0 && a.revalidations == 0 && a.found == 0
    decreases |ops|
  {
    hide Inv, Booked, Apply, Spent, Adds, Tally.Plus;
    if ops != [] {
      PlusIs(Adds(cfg, s, ops[0], k), TallyOf(cfg, Apply(cfg, s, ops[0]), ops[1..], k));
      SpentStep(cfg, s, ops[0], k);
      ApplyKeepsInv(cfg, s, ops[0]);
      ApplyKeepsBooks(cfg, s, ops[0]);
      SpentStays(cfg, s, ops[0], k);
      SpentTally(cfg, Apply(cfg, s, ops[0]), ops[1..], k);
    }
  }

  lemma SpentStep(cfg: Config, s: State, op: Op, k: Id)
    requires Inv(cfg, s) && Spent(s, k)
    ensures var a := Adds(cfg, s, op, k); a.filed == 0 && a.revalidations == 0 && a.found == 0
  {
    hide Inv, Objections, FindRevision, Evaluate, DoRelease, ReleaseReasons, Plan.Valid, PolicyMoved;
    SpentIs(s, k);
    NotDecided(cfg, s);
  }

  // ----- A decision filed with reasons has no plan -----

  ghost predicate Planless(s: State, k: Id) {
    k in s.decisions && forall p :: p in s.plans ==> s.plans[p].decision != k
  }

  lemma QuietIsPlanless(s: State, t: State, k: Id)
    requires Planless(s, k) && Quiet(s, t)
    ensures Planless(t, k)
  {
  }

  lemma WriteIsPlanless(s: State, t: State, d: Decision, k: Id)
    requires Planless(s, k) && Writes(s, t, d) && d.id != k
    ensures Planless(t, k)
  {
  }

  lemma FreshIsPlanless(cfg: Config, s: State, t: State, d: Decision)
    requires Inv(cfg, s) && Writes(s, t, d) && d.id == s.gens.decision + 1 && d.reasons > 0
    ensures Planless(t, d.id)
  {
    hide Inv;
    NotDecided(cfg, s);
  }

  lemma PlanlessStep(cfg: Config, s: State, op: Op, k: Id)
    requires Inv(cfg, s) && Booked(s) && (Planless(s, k) || Adds(cfg, s, op, k).filed > 0)
    ensures Planless(Apply(cfg, s, op), k)
  {
    hide Inv, Booked, Evaluate, Commit, DoRelease, DropAll, Reload, Register, Submit, Publish, DoQuarantine, DoRevoke,
         DoSupersede, DoRetire, DoRevokeEvidence, Planless, Objections, ReleaseReasons, Quiet, Writes, FindRevision, Lapsed;
    NotDecided(cfg, s);
    if Planless(s, k) {
      PlanlessIs(s, k);
    }
    match op
    case EvaluateOp(req, now) =>
      if Stores(s, req) {
        var d := EvaluateWrites(cfg, s, req, now);
        if k == d.id {
          FreshIsPlanless(cfg, s, Evaluate(cfg, s, req, now).0, d);
        } else {
          WriteIsPlanless(s, Evaluate(cfg, s, req, now).0, d, k);
        }
      } else {
        EvaluateRepeats(cfg, s, req, now);
      }
    case CommitOp(p, now) =>
      if Known(s, p) {
        var e := CommitWrites(cfg, s, p, now);
        WriteIsPlanless(s, Commit(cfg, s, p, now).0, e, k);
      } else {
        CommitIgnores(cfg, s, p, now);
      }
    case ReleaseOp(id, authority, now) =>
      if DoRelease(cfg, s, id, authority, now).0 != s {
        var d := ReleaseWrites(cfg, s, id, authority, now);
        if k == d.id {
          FreshIsPlanless(cfg, s, DoRelease(cfg, s, id, authority, now).0, d);
        } else {
          WriteIsPlanless(s, DoRelease(cfg, s, id, authority, now).0, d, k);
        }
      }
    case _ =>
      ApplyIsQuiet(cfg, s, op);
      QuietIsPlanless(s, Apply(cfg, s, op), k);
  }

  lemma PlanlessIs(s: State, k: Id)
    requires Planless(s, k)
    ensures k in s.decisions && forall p :: Known(s, p) ==> p.decision != k
  {
    hide Plan.Valid;
  }

  lemma PlanlessAdds(cfg: Config, s: State, op: Op, k: Id)
    requires Inv(cfg, s) && Planless(s, k)
    ensures Adds(cfg, s, op, k).Empty()
  {
    hide Inv, Objections, FindRevision, Evaluate, DoRelease, ReleaseReasons, Lapsed, Plan.Valid;
    PlanlessIs(s, k);
    NotDecided(cfg, s);
  }

  lemma {:induction false} PlanlessTally(cfg: Config, s: State, ops: seq<Op>, k: Id)
    requires Inv(cfg, s) && Booked(s) && Planless(s, k)
    ensures TallyOf(cfg, s, ops, k).Empty()
    decreases |ops|
  {
    hide Inv, Booked, Apply, Planless, Adds, Tally.Plus;
    if ops != [] {
      PlusIs(Adds(cfg, s, ops[0], k), TallyOf(cfg, Apply(cfg, s, ops[0]), ops[1..], k));
      PlanlessAdds(cfg, s, ops[0], k);
      ApplyKeepsInv(cfg, s, ops[0]);
      ApplyKeepsBooks(cfg, s, ops[0]);
      PlanlessStep(cfg, s, ops[0], k);
      PlanlessTally(cfg, Apply(cfg, s, ops[0]), ops[1..], k);
    }
  }

  // ----- The count -----

  /** The reasons of a decision are those it was filed with or, if it has a plan, one for each refused
      attempt, one for each gate that failed in the only revalidation and one if the evidence had changed. */
  lemma {:induction false} ReasonsExactly(cfg: Config, s: State, ops: seq<Op>, k: Id)
    requires Inv(cfg, s) && Booked(s)
    ensures var t, a := Run(cfg, s, ops), TallyOf(cfg, s, ops, k);
            && ReasonsOf(t, k) == ReasonsOf(s, k) + a.Reasons()
            && (k !in t.decisions ==> a.Empty()) && (k in s.decisions ==> a.filed == 0) && a.Modest()
    decreases |ops|
  {
    hide Inv, Booked, Apply, Adds, Tally.Plus, Tally.Reasons, Accounts, ReasonsOf;
    NothingGiven();
    if ops != [] {
      var u, a := Apply(cfg, s, ops[0]), Adds(cfg, s, ops[0], k);
      var b, t := TallyOf(cfg, u, ops[1..], k), Run(cfg, u, ops[1..]);
      ApplyKeepsInv(cfg, s, ops[0]);
      ApplyKeepsBooks(cfg, s, ops[0]);
      ApplyAccounts(cfg, s, ops[0], k);
      ReasonsExactly(cfg, u, ops[1..], k);
      if a.filed != 0 {
        PlanlessStep(cfg, s, ops[0], k);
        PlanlessTally(cfg, u, ops[1..], k);
      } else if a.revalidations != 0 {
        RevalidationSpends(cfg, s, ops[0], k);
        SpentTally(cfg, u, ops[1..], k);
      }
      if k in u.decisions {
        StaysDecided(cfg, u, ops[1..], k);
      }
      AddsUp(s, u, t, k, a, b);
    }
  }

  lemma AddsUp(s: State, u: State, t: State, k: Id, a: Tally, b: Tally)
    requires Accounts(s, u, k, a) && ReasonsOf(t, k) == ReasonsOf(u, k) + b.Reasons() && b.Modest()
    requires (k !in t.decisions ==> b.Empty()) && (k in u.decisions ==> b.filed == 0 && k in t.decisions)
    requires (a.filed != 0 ==> b.Empty()) && (a.revalidations != 0 ==> b.revalidations == 0)
    ensures ReasonsOf(t, k) == ReasonsOf(s, k) + a.Plus(b).Reasons()
    ensures k !in t.decisions ==> a.Plus(b).Empty()
    ensures (k in s.decisions ==> a.Plus(b).filed == 0) && a.Plus(b).Modest()
  {
    hide Tally.Plus, Tally.Reasons;
    PlusIs(a, b);
    PlusReasons(a, b);
  }

  lemma RevalidationSpends(cfg: Config, s: State, op: Op, k: Id)
    requires Inv(cfg, s) && Booked(s) && Adds(cfg, s, op, k).revalidations != 0
    ensures Spent(Apply(cfg, s, op), k)
  {
    hide Inv, Booked, Spent, Commit, Objections, FindRevision, Evaluate, DoRelease, ReleaseReasons, Lapsed, Plan.Valid;
    CommitSpends(cfg, s, op.plan, op.now);
  }

  lemma {:induction false} StaysDecided(cfg: Config, s: State, ops: seq<Op>, k: Id)
    requires Inv(cfg, s) && Booked(s) && k in s.decisions
    ensures k in Run(cfg, s, ops).decisions
    decreases |ops|
  {
    hide Inv, Booked, Apply, Adds;
    if ops != [] {
      ApplyKeepsInv(cfg, s, ops[0]);
      ApplyKeepsBooks(cfg, s, ops[0]);
      ApplyAccounts(cfg, s, ops[0], k);
      StaysDecided(cfg, Apply(cfg, s, ops[0]), ops[1..], k);
    }
  }

  /** No decision has gathered more reasons than a file takes. */
  ghost predicate Restrained(cfg: Config, s: State, ops: seq<Op>) {
    forall k :: ReasonsOf(s, k) + TallyOf(cfg, s, ops, k).Reasons() <= MAX_REASONS
  }

  lemma TerseExactly(cfg: Config, s: State, ops: seq<Op>)
    requires Inv(cfg, s) && Booked(s)
    ensures Terse(Run(cfg, s, ops)) <==> Restrained(cfg, s, ops)
  {
    hide Inv, Booked, Run, TallyOf;
    var t := Run(cfg, s, ops);
    forall k ensures ReasonsOf(t, k) == ReasonsOf(s, k) + TallyOf(cfg, s, ops, k).Reasons() {
      ReasonsExactly(cfg, s, ops, k);
    }
    if Restrained(cfg, s, ops) {
      forall k | k in t.decisions ensures t.decisions[k].reasons <= MAX_REASONS {
        assert ReasonsOf(t, k) == t.decisions[k].reasons;
      }
    }
  }

  /** What was said about the plan of a decision as it was handed in. */
  ghost function Attempted(cfg: Config, s: State, ops: seq<Op>, k: Id): nat {
    TallyOf(cfg, s, ops, k).refusals + TallyOf(cfg, s, ops, k).found
  }

  /** In a run from a state without decisions only the attempts on plans count. */
  lemma OnlyAttemptsCount(cfg: Config, s: State, ops: seq<Op>)
    requires Inv(cfg, s) && Booked(s) && s.decisions == map[]
    ensures Terse(Run(cfg, s, ops)) <==> forall k :: Attempted(cfg, s, ops, k) <= MAX_REASONS
  {
    hide Inv, Booked, Run, TallyOf, Terse;
    TerseExactly(cfg, s, ops);
    forall k
      ensures ReasonsOf(s, k) + TallyOf(cfg, s, ops, k).Reasons() <= MAX_REASONS <==> Attempted(cfg, s, ops, k) <= MAX_REASONS
    {
      ReasonsExactly(cfg, s, ops, k);
    }
    if forall k :: Attempted(cfg, s, ops, k) <= MAX_REASONS {
      forall k ensures ReasonsOf(s, k) + TallyOf(cfg, s, ops, k).Reasons() <= MAX_REASONS {
        assert Attempted(cfg, s, ops, k) <= MAX_REASONS;
      }
    } else {
      var k :| Attempted(cfg, s, ops, k) > MAX_REASONS;
      assert ReasonsOf(s, k) + TallyOf(cfg, s, ops, k).Reasons() > MAX_REASONS;
    }
  }

  // ----- A bound on the attempts -----

  /** How often the plan of a decision was handed in for commit. */
  function Attempts(ops: seq<Op>, k: Id): nat {
    if ops == [] then 0
    else (if ops[0].CommitOp? && ops[0].plan.decision == k then 1 else 0) + Attempts(ops[1..], k)
  }

  lemma AddsOneAttempt(cfg: Config, s: State, op: Op, k: Id)
    ensures var a := Adds(cfg, s, op, k);
            a.refusals + a.revalidations <= if op.CommitOp? && op.plan.decision == k then 1 else 0
  {
    hide Objections, FindRevision, Evaluate, DoRelease, ReleaseReasons, Lapsed, Plan.Valid;
  }

  lemma {:induction false} AttemptsBound(cfg: Config, s: State, ops: seq<Op>, k: Id)
    ensures TallyOf(cfg, s, ops, k).refusals + TallyOf(cfg, s, ops, k).revalidations <= Attempts(ops, k)
    decreases |ops|
  {
    hide Apply, Adds, Tally.Plus;
    if ops != [] {
      var t := Apply(cfg, s, ops[0]);
      AddsOneAttempt(cfg, s, ops[0], k);
      AttemptsBound(cfg, t, ops[1..], k);
      PlusIs(Adds(cfg, s, ops[0], k), TallyOf(cfg, t, ops[1..], k));
    }
  }

  const MAX_ATTEMPTS: nat := MAX_REASONS - MAX_GATES

  lemma FewReasons(a: Tally)
    requires a.Modest() && a.refusals + a.revalidations <= MAX_ATTEMPTS
    ensures a.refusals + a.found <= MAX_REASONS
  {
  }

  /** A run keeps its states readable if it only evaluates requests about registered revisions and
      hands in no plan for commit more than 32 times. */
  lemma ModestRunsAreReadable(cfg: Config, s: State, ops: seq<Op>)
    requires Inv(cfg, s) && Booked(s) && s.decisions == map[] && NamesRegistered(cfg, s, ops)
    requires forall k :: Attempts(ops, k) <= MAX_ATTEMPTS
    ensures Readable(Run(cfg, s, ops))
  {
    hide Inv, Booked, Run, NamesRegistered, Attempts, TallyOf;
    SourcedExactly(cfg, s, ops);
    forall k ensures Attempted(cfg, s, ops, k) <= MAX_REASONS {
      assert Attempts(ops, k) <= MAX_ATTEMPTS;
      AttemptsBound(cfg, s, ops, k);
      ReasonsExactly(cfg, s, ops, k);
      FewReasons(TallyOf(cfg, s, ops, k));
    }
    OnlyAttemptsCount(cfg, s, ops);
  }
}
