/** The durability protocol: any number of threads, any interleaving, crashes and reloads. */
module Durability {
  import opened Domain
  import opened Store
  import opened Steps
  import opened Invariant
  import opened KeepingAuthority
  import opened Reference
  import opened Runs
  import opened Fencing
  import opened Ledger
  import opened Reasons
  import opened Capacity
  import opened Rendering
  import opened Persistence
  import F = Snapshots

  /** Where a client thread is. `k` is the position of its operation in the history, `bumped`
      whether that operation took a new persist epoch, `commits` whether the thread is in the
      listener call a successful commit makes on its own. */
  datatype Thread =
    | Mutated(k: nat, bumped: bool, commits: bool)
    | Waiting(k: nat, bumped: bool, commits: bool, target: nat)
    | Saving(k: nat, bumped: bool, commits: bool, target: nat)
    | Copied(k: nat, bumped: bool, commits: bool, target: nat, length: nat, version: nat)
    | Written(k: nat, bumped: bool, commits: bool, target: nat)
    | Compared(k: nat, bumped: bool, target: nat)
    | Recorded(k: nat, bumped: bool)
    | Finished(k: nat, bumped: bool)

  /** One process and its state file. The engine's state is the run of `ops` from `base`;
      the file holds the snapshot of the first `saved` of them, taken at `savedVersion`.
      `marks[i]` is the least persist epoch whose snapshot is sure to include operation i.
      `size` is how long a file a state is written as. A process that cannot read its file is not up. */
  datatype System = System(
    size: State -> nat,
    up: bool, base: State, ops: seq<Op>, marks: seq<nat>,
    persistEpoch: nat, cleanEpoch: nat,
    hasFile: bool, saved: nat, savedVersion: nat,
    writer: nat, writing: bool,
    threads: map<nat, Thread>, acknowledged: set<nat>)

  datatype Action =
    | Mutate(t: nat, op: Op, bumps: bool)
    | ReadTarget(t: nat)
    | BeginNotify(t: nat)
    | Enter(t: nat)
    | Copy(t: nat)
    | Replace(t: nat)
    | Compare(t: nat)
    | SetClean(t: nat)
    | EndNotify(t: nat)
    | Return(t: nat)
    | Reject(t: nat)
    | Crash(requests: Id, salt: nat, entropy: nat, first: nat, gens: Generators, rest: nat)

  function At(sys: System, t: nat, next: Thread): System {
    sys.(threads := sys.threads[t := next])
  }

  function Gone(sys: System, t: nat): System {
    sys.(threads := sys.threads - {t})
  }

  ghost function Live(cfg: Config, sys: System): State { Run(cfg, sys.base, sys.ops) }

  /** What a reload would find. */
  ghost function OnDisk(cfg: Config, sys: System): State
    requires sys.saved <= |sys.ops|
  {
    Snapshot(Run(cfg, sys.base, sys.ops[..sys.saved]))
  }

  /** The reader accepts what the file holds: its decisions, its counts and its length. */
  ghost predicate Legible(cfg: Config, sys: System)
    requires sys.saved <= |sys.ops|
  {
    var disk := OnDisk(cfg, sys);
    Ledger.Readable(disk) && Compact(disk) && sys.size(disk) <= F.MAX_SNAPSHOT
  }

  ghost predicate Succeeds(cfg: Config, sys: System, op: Op) {
    op.CommitOp? && Emits(cfg, Live(cfg, sys), op) != []
  }

  /** One critical section that changes the state; a successful commit always takes a new epoch. */
  ghost function DoMutate(cfg: Config, sys: System, t: nat, op: Op, bumps: bool): System {
    var bumped := bumps || Succeeds(cfg, sys, op);
    sys.(ops := sys.ops + [op], marks := sys.marks + [sys.persistEpoch + 1],
         persistEpoch := if bumped then sys.persistEpoch + 1 else sys.persistEpoch,
         threads := sys.threads[t := Mutated(|sys.ops|, bumped, Succeeds(cfg, sys, op))])
  }

  /** The process dies. The next one loads the file under the next epoch if it can be read, and does
      not come up if it cannot; without a file it starts afresh. `requests` is where the file leaves
      the internal request generator. */
  ghost function DoCrash(cfg: Config, sys: System, requests: Id, blank: State): System
    requires sys.saved <= |sys.ops|
  {
    if !sys.hasFile then System(sys.size, true, blank, [], [], 0, 0, false, 0, 0, 0, false, map[], sys.acknowledged)
    else if Legible(cfg, sys) then
      System(sys.size, true, sys.base, sys.ops[..sys.saved] + [ReloadOp(requests)], seq(sys.saved, _ => 0) + [1], 1, 0,
             true, sys.saved, 0, 0, false, map[], sys.acknowledged)
    else
      System(sys.size, false, sys.base, sys.ops[..sys.saved], seq(sys.saved, _ => 0), 0, 0,
             true, sys.saved, 0, 0, false, map[], sys.acknowledged)
  }

  function DoReplace(sys: System, t: nat, c: Thread): System
    requires c.Copied?
  {
    At(sys.(hasFile := true, saved := c.length, savedVersion := c.version, writing := false),
       t, Written(c.k, c.bumped, c.commits, c.target))
  }

  /** A step of one thread; a step that is not enabled changes nothing. */
  ghost function Next(cfg: Config, sys: System, a: Action): System {
    if a.Crash? then
      if sys.saved <= |sys.ops| && a.salt != 0 then
        DoCrash(cfg, sys, a.requests, Initial(a.salt, a.entropy, a.first, a.gens, a.rest))
      else sys
    else if a.Mutate? then
      if a.t in sys.threads || !sys.up then sys else DoMutate(cfg, sys, a.t, a.op, a.bumps)
    else if a.t !in sys.threads then sys
    else
      var c := sys.threads[a.t];
      match a
      case ReadTarget(t) =>
        if c.Mutated? && c.commits then At(sys, t, Waiting(c.k, c.bumped, true, sys.persistEpoch)) else sys
      case BeginNotify(t) =>
        if (c.Mutated? && !c.commits) || c.Recorded? then
          if sys.cleanEpoch == sys.persistEpoch then At(sys, t, Finished(c.k, c.bumped))
          else At(sys, t, Waiting(c.k, c.bumped, false, sys.persistEpoch))
        else sys
      case Enter(t) =>
        if c.Waiting? && !sys.writing then
          At(sys.(writing := true, writer := t), t, Saving(c.k, c.bumped, c.commits, c.target))
        else sys
      case Copy(t) =>
        if c.Saving? then At(sys, t, Copied(c.k, c.bumped, c.commits, c.target, |sys.ops|, sys.persistEpoch)) else sys
      case Replace(t) => if c.Copied? then DoReplace(sys, t, c) else sys
      case Compare(t) =>
        if c.Written? && c.commits then
          if c.target > sys.cleanEpoch then At(sys, t, Compared(c.k, c.bumped, c.target))
          else At(sys, t, Recorded(c.k, c.bumped))
        else sys
      case SetClean(t) =>
        if c.Compared? then At(sys.(cleanEpoch := c.target), t, Recorded(c.k, c.bumped)) else sys
      case EndNotify(t) =>
        if c.Written? && !c.commits then
          At(sys.(cleanEpoch := if c.target > sys.cleanEpoch then c.target else sys.cleanEpoch),
             t, Finished(c.k, c.bumped))
        else sys
      case Return(t) =>
        if c.Finished? then
          Gone(sys.(acknowledged := if c.bumped then sys.acknowledged + {c.k} else sys.acknowledged), t)
        else sys
      case Reject(t) => if c.Mutated? && !c.commits then Gone(sys, t) else sys
  }

  ghost function Exec(cfg: Config, sys: System, actions: seq<Action>): System
    decreases |actions|
  {
    if actions == [] then sys else Exec(cfg, Next(cfg, sys, actions[0]), actions[1..])
  }

  // ----- The invariant -----

  /** A snapshot of `length` operations at `version` holds everything marked up to that version. */
  ghost predicate Covers(marks: seq<nat>, length: nat, version: nat) {
    length <= |marks| && forall i :: 0 <= i < |marks| && marks[i] <= version ==> i < length
  }

  ghost predicate ThreadGood(sys: System, t: nat, c: Thread) {
    && c.k < |sys.marks|
    && (c.Mutated? && c.bumped ==> sys.marks[c.k] <= sys.persistEpoch)
    && (c.Mutated? && c.commits ==> c.bumped)
    && (c.Waiting? || c.Saving? ==> c.target <= sys.persistEpoch && (c.bumped ==> sys.marks[c.k] <= c.target))
    && (c.Saving? || c.Copied? ==> sys.writing && sys.writer == t)
    && (c.Copied? ==>
          && (c.bumped ==> sys.marks[c.k] <= c.target)
          && c.target <= c.version <= sys.persistEpoch && sys.savedVersion <= c.version && sys.saved <= c.length
          && Covers(sys.marks, c.length, c.version))
    && (c.Written? || c.Compared? ==> c.target <= sys.savedVersion && (c.bumped ==> sys.marks[c.k] <= c.target))
    && (c.Recorded? || c.Finished? ==> c.bumped ==> sys.marks[c.k] <= sys.savedVersion)
  }

  ghost predicate Good(sys: System) {
    && |sys.marks| == |sys.ops|
    && (forall i :: 0 <= i < |sys.marks| ==> sys.marks[i] <= sys.persistEpoch + 1)
    && Covers(sys.marks, sys.saved, sys.savedVersion)
    && sys.cleanEpoch <= sys.savedVersion <= sys.persistEpoch
    && (!sys.hasFile ==> sys.saved == 0 && sys.acknowledged == {})
    && (forall t :: t in sys.threads ==> ThreadGood(sys, t, sys.threads[t]))
    && (forall k :: k in sys.acknowledged ==> k < sys.saved)
  }

  // ----- Preservation, action by action -----

  /** What thread invariants depend on may only grow. */
  ghost predicate Advances(a: System, b: System) {
    && |a.marks| <= |b.marks| && (forall i :: 0 <= i < |a.marks| ==> b.marks[i] == a.marks[i])
    && (forall i :: |a.marks| <= i < |b.marks| ==> b.marks[i] > a.persistEpoch)
    && a.persistEpoch <= b.persistEpoch && a.savedVersion <= b.savedVersion
  }

  /** A thread that is not the one writing keeps its invariant while the system advances. */
  lemma ThreadStays(a: System, b: System, t: nat, c: Thread)
    requires ThreadGood(a, t, c) && Advances(a, b)
    requires c.Saving? || c.Copied? ==>
               b.writing == a.writing && b.writer == a.writer && b.saved == a.saved && b.savedVersion == a.savedVersion
    ensures ThreadGood(b, t, c)
  {
    if c.Copied? {
      CoversStay(a, b, c.length, c.version);
    }
  }

  lemma CoversStay(a: System, b: System, length: nat, version: nat)
    requires Advances(a, b) && Covers(a.marks, length, version) && version <= a.persistEpoch
    ensures Covers(b.marks, length, version)
  {
  }

  lemma MutateKeepsGood(cfg: Config, sys: System, t: nat, op: Op, bumps: bool)
    requires Good(sys) && t !in sys.threads
    ensures Good(DoMutate(cfg, sys, t, op, bumps))
  {
    hide Succeeds, ThreadGood, Covers;
    var b := DoMutate(cfg, sys, t, op, bumps);
    assert Advances(sys, b);
    CoversStay(sys, b, sys.saved, sys.savedVersion);
    forall u | u in b.threads ensures ThreadGood(b, u, b.threads[u]) {
      if u == t {
        NewThread(cfg, sys, t, op, bumps);
      } else {
        ThreadStays(sys, b, u, sys.threads[u]);
      }
    }
  }

  lemma NewThread(cfg: Config, sys: System, t: nat, op: Op, bumps: bool)
    requires |sys.marks| == |sys.ops|
    ensures var b := DoMutate(cfg, sys, t, op, bumps); ThreadGood(b, t, b.threads[t])
  {
    hide Succeeds;
  }

  /** A step that moves one thread and leaves history, epochs and file alone. */
  lemma LocalKeepsGood(a: System, b: System, t: nat, next: Thread)
    requires Good(a) && t in a.threads && ThreadGood(b, t, next)
    requires b == a.(threads := a.threads[t := next], cleanEpoch := b.cleanEpoch, writing := b.writing, writer := b.writer)
    requires b.cleanEpoch <= a.savedVersion
    requires (b.writing == a.writing && b.writer == a.writer) || !a.writing
    ensures Good(b)
  {
    hide Covers;
    forall u | u in b.threads ensures ThreadGood(b, u, b.threads[u]) {
      if u != t {
        ThreadStays(a, b, u, a.threads[u]);
      }
    }
  }

  lemma GoneKeepsGood(sys: System, t: nat, k: set<nat>)
    requires Good(sys) && t in sys.threads && forall i :: i in k ==> i < sys.saved
    ensures Good(Gone(sys.(acknowledged := sys.acknowledged + k), t))
  {
    hide Covers;
    var b := Gone(sys.(acknowledged := sys.acknowledged + k), t);
    forall u | u in b.threads ensures ThreadGood(b, u, b.threads[u]) {
      ThreadStays(sys, b, u, sys.threads[u]);
    }
  }

  lemma ReplaceKeepsGood(sys: System, t: nat)
    requires Good(sys) && t in sys.threads && sys.threads[t].Copied?
    ensures Good(DoReplace(sys, t, sys.threads[t]))
  {
    hide Covers;
    var b := DoReplace(sys, t, sys.threads[t]);
    forall u | u in b.threads ensures ThreadGood(b, u, b.threads[u]) {
      if u != t {
        ThreadStays(sys, b, u, sys.threads[u]);
      }
    }
  }

  lemma CrashKeepsGood(cfg: Config, sys: System, requests: Id, blank: State)
    requires Good(sys)
    ensures Good(DoCrash(cfg, sys, requests, blank))
  {
    hide ThreadGood, Legible;
  }

  lemma ReadTargetKeepsGood(sys: System, t: nat)
    requires Good(sys) && t in sys.threads && sys.threads[t].Mutated? && sys.threads[t].commits
    ensures Good(At(sys, t, Waiting(sys.threads[t].k, sys.threads[t].bumped, true, sys.persistEpoch)))
  {
    var c := sys.threads[t];
    var next := Waiting(c.k, c.bumped, true, sys.persistEpoch);
    LocalKeepsGood(sys, At(sys, t, next), t, next);
  }

  /** A clean epoch equal to the current one means the file already holds everything. */
  lemma BeginNotifyKeepsGood(sys: System, t: nat)
    requires Good(sys) && t in sys.threads
    requires (sys.threads[t].Mutated? && !sys.threads[t].commits) || sys.threads[t].Recorded?
    ensures var c := sys.threads[t];
            && Good(At(sys, t, Waiting(c.k, c.bumped, false, sys.persistEpoch)))
            && (sys.cleanEpoch == sys.persistEpoch ==> Good(At(sys, t, Finished(c.k, c.bumped))))
  {
    var c := sys.threads[t];
    var wait, done := Waiting(c.k, c.bumped, false, sys.persistEpoch), Finished(c.k, c.bumped);
    LocalKeepsGood(sys, At(sys, t, wait), t, wait);
    if sys.cleanEpoch == sys.persistEpoch {
      LocalKeepsGood(sys, At(sys, t, done), t, done);
    }
  }

  lemma EnterKeepsGood(sys: System, t: nat)
    requires Good(sys) && t in sys.threads && sys.threads[t].Waiting? && !sys.writing
    ensures var c := sys.threads[t];
            Good(At(sys.(writing := true, writer := t), t, Saving(c.k, c.bumped, c.commits, c.target)))
  {
    var c := sys.threads[t];
    var next := Saving(c.k, c.bumped, c.commits, c.target);
    LocalKeepsGood(sys, At(sys.(writing := true, writer := t), t, next), t, next);
  }

  lemma CopyKeepsGood(sys: System, t: nat)
    requires Good(sys) && t in sys.threads && sys.threads[t].Saving?
    ensures var c := sys.threads[t];
            Good(At(sys, t, Copied(c.k, c.bumped, c.commits, c.target, |sys.ops|, sys.persistEpoch)))
  {
    var c := sys.threads[t];
    var next := Copied(c.k, c.bumped, c.commits, c.target, |sys.ops|, sys.persistEpoch);
    LocalKeepsGood(sys, At(sys, t, next), t, next);
  }

  lemma RecordKeepsGood(sys: System, t: nat, clean: nat, next: Thread)
    requires Good(sys) && t in sys.threads
    requires sys.threads[t].Written? || sys.threads[t].Compared?
    requires clean == sys.cleanEpoch || clean == sys.threads[t].target
    requires var c := sys.threads[t];
             next == Compared(c.k, c.bumped, c.target) || next == Recorded(c.k, c.bumped) || next == Finished(c.k, c.bumped)
    ensures Good(At(sys.(cleanEpoch := clean), t, next))
  {
    LocalKeepsGood(sys, At(sys.(cleanEpoch := clean), t, next), t, next);
  }

  lemma FinishedIsSaved(sys: System, t: nat)
    requires Good(sys) && t in sys.threads && sys.threads[t].Finished? && sys.threads[t].bumped
    ensures sys.threads[t].k < sys.saved
  {
  }

  lemma NextKeepsGood(cfg: Config, sys: System, a: Action)
    requires Good(sys)
    ensures Good(Next(cfg, sys, a))
  {
    hide Good, ThreadGood, Covers, DoMutate, DoCrash, DoReplace, Initial;
    var b := Next(cfg, sys, a);
    if b == sys {
      return;
    }
    match a
    case Crash(requests, salt, entropy, first, gens, rest) =>
      CrashKeepsGood(cfg, sys, requests, Initial(salt, entropy, first, gens, rest));
    case Mutate(t, op, bumps) => MutateKeepsGood(cfg, sys, t, op, bumps);
    case ReadTarget(t) => ReadTargetKeepsGood(sys, t);
    case BeginNotify(t) => BeginNotifyKeepsGood(sys, t);
    case Enter(t) => EnterKeepsGood(sys, t);
    case Copy(t) => CopyKeepsGood(sys, t);
    case Replace(t) => ReplaceKeepsGood(sys, t);
    case Compare(t) =>
      RecordKeepsGood(sys, t, sys.cleanEpoch, b.threads[t]);
      assert sys.(cleanEpoch := sys.cleanEpoch) == sys;
    case SetClean(t) => RecordKeepsGood(sys, t, sys.threads[t].target, b.threads[t]);
    case EndNotify(t) => RecordKeepsGood(sys, t, b.cleanEpoch, b.threads[t]);
    case Return(t) =>
      var c := sys.threads[t];
      if c.bumped {
        FinishedIsSaved(sys, t);
        GoneKeepsGood(sys, t, {c.k});
      } else {
        GoneKeepsGood(sys, t, {});
        assert sys.acknowledged + {} == sys.acknowledged;
      }
    case Reject(t) =>
      GoneKeepsGood(sys, t, {});
      assert sys.acknowledged + {} == sys.acknowledged;
  }

  lemma {:induction false} ExecKeepsGood(cfg: Config, sys: System, actions: seq<Action>)
    requires Good(sys)
    ensures Good(Exec(cfg, sys, actions))
    decreases |actions|
  {
    hide Good, Next;
    if actions != [] {
      NextKeepsGood(cfg, sys, actions[0]);
      ExecKeepsGood(cfg, Next(cfg, sys, actions[0]), actions[1..]);
    }
  }

  // ----- The theorems -----

  /** A coordinator before its first operation, with no state file. */
  function Start(size: State -> nat, base: State): System {
    System(size, true, base, [], [], 0, 0, false, 0, 0, 0, false, map[], {})
  }

  /** However the threads interleave, and although commits store the clean epoch under a shared
      lock, it never exceeds the version on disk, and every acknowledged operation is in the file. */
  lemma AcknowledgedIsDurable(cfg: Config, size: State -> nat, base: State, actions: seq<Action>)
    ensures var sys := Exec(cfg, Start(size, base), actions);
            && sys.cleanEpoch <= sys.savedVersion <= sys.persistEpoch
            && sys.saved <= |sys.ops|
            && forall k :: k in sys.acknowledged ==> k < sys.saved
  {
    ExecKeepsGood(cfg, Start(size, base), actions);
  }

  /** The saved part of the history is never rewritten. */
  ghost predicate Retains(a: System, b: System) {
    && b.size == a.size
    && (a.hasFile ==> b.hasFile && a.base == b.base && a.saved <= b.saved <= |b.ops|
                      && a.saved <= |a.ops| && a.ops[..a.saved] == b.ops[..a.saved] && a.acknowledged <= b.acknowledged)
  }

  lemma NextRetains(cfg: Config, sys: System, a: Action)
    requires Good(sys)
    ensures Retains(sys, Next(cfg, sys, a))
  {
    hide Succeeds, Initial, Live, Legible;
    NextKeepsGood(cfg, sys, a);
    if a.Replace? && a.t in sys.threads && sys.threads[a.t].Copied? {
      assert ThreadGood(sys, a.t, sys.threads[a.t]);
    }
  }

  lemma {:induction false} ExecRetains(cfg: Config, sys: System, actions: seq<Action>)
    requires Good(sys)
    ensures Retains(sys, Exec(cfg, sys, actions))
    decreases |actions|
  {
    hide Good, Next;
    if actions == [] {
      SavedIsPrefix(sys);
    } else {
      var t := Next(cfg, sys, actions[0]);
      NextRetains(cfg, sys, actions[0]);
      NextKeepsGood(cfg, sys, actions[0]);
      ExecRetains(cfg, t, actions[1..]);
      if sys.hasFile {
        PrefixChain(sys.ops, t.ops, Exec(cfg, t, actions[1..]).ops, sys.saved, t.saved);
      }
    }
  }

  lemma SavedIsPrefix(sys: System)
    requires Good(sys)
    ensures sys.saved <= |sys.ops|
  {
  }

  lemma PrefixChain(a: seq<Op>, b: seq<Op>, c: seq<Op>, m: nat, n: nat)
    requires m <= |a| && m <= n <= |b| && n <= |c| && a[..m] == b[..m] && b[..n] == c[..n]
    ensures a[..m] == c[..m]
  {
    assert b[..m] == b[..n][..m] && c[..m] == c[..n][..m];
  }

  lemma {:induction false} LogHas(cfg: Config, s: State, ops: seq<Op>, k: nat, n: nat, r: Record)
    requires k < n <= |ops| && r in Emits(cfg, Run(cfg, s, ops[..k]), ops[k])
    ensures r in Log(cfg, s, ops[..n])
  {
    hide Run, Emits, Apply;
    var whole := ops[..n];
    RunSplit(cfg, s, whole, k);
    assert whole[..k] == ops[..k] && whole[k..][0] == ops[k];
  }

  /** Whatever happens after an acknowledgement, crashes and reloads included, the file's history
      still contains the operation and its records. */
  lemma AcknowledgedIsInTheFile(cfg: Config, sys: System, actions: seq<Action>, k: nat, r: Record)
    requires Good(sys) && k in sys.acknowledged && k < |sys.ops|
    requires r in Emits(cfg, Run(cfg, sys.base, sys.ops[..k]), sys.ops[k])
    ensures var after := Exec(cfg, sys, actions);
            && Good(after) && after.size == sys.size && after.hasFile && after.base == sys.base && k in after.acknowledged
            && k < after.saved <= |after.ops| && after.ops[..k + 1] == sys.ops[..k + 1]
            && r in Log(cfg, after.base, after.ops[..after.saved])
  {
    hide Run, Emits, Log, Exec, ThreadGood, Covers;
    var after := Exec(cfg, sys, actions);
    ExecKeepsGood(cfg, sys, actions);
    ExecRetains(cfg, sys, actions);
    PrefixShorter(sys.ops, after.ops, sys.saved, k);
    LogHas(cfg, after.base, after.ops, k, after.saved, r);
  }

  lemma PrefixShorter(a: seq<Op>, b: seq<Op>, n: nat, k: nat)
    requires n <= |a| && n <= |b| && a[..n] == b[..n] && k < n
    ensures a[..k + 1] == b[..k + 1] && a[..k] == b[..k] && a[k] == b[k]
  {
    assert a[..n][..k + 1] == a[..k + 1] && b[..n][..k + 1] == b[..k + 1];
    assert a[..n][..k] == a[..k] && b[..n][..k] == b[..k];
    assert a[..n][k] == a[k] && b[..n][k] == b[k];
  }

  // ----- Coming up again -----

  /** What must hold of a saved history for its file to be read: every evaluation that stored a decision
      named a registered revision, no decision has gathered more than 64 reasons, no chain or table has
      outgrown its count, and the file is no longer than a reader takes. */
  ghost predicate Survivable(cfg: Config, size: State -> nat, base: State, history: seq<Op>) {
    var s := Run(cfg, base, history);
    NamesRegistered(cfg, base, history) && Restrained(cfg, base, history) && Compact(s) && size(Snapshot(s)) <= F.MAX_SNAPSHOT
  }

  lemma FileIsReadable(cfg: Config, sys: System)
    requires sys.saved <= |sys.ops| && Inv(cfg, sys.base) && Booked(sys.base) && Sourced(sys.base)
    ensures Legible(cfg, sys) <==> Survivable(cfg, sys.size, sys.base, sys.ops[..sys.saved])
    ensures Booked(OnDisk(cfg, sys)) && Inv(cfg, OnDisk(cfg, sys))
  {
    hide Inv, Booked, Run, NamesRegistered, Compact, Restrained;
    var s := Run(cfg, sys.base, sys.ops[..sys.saved]);
    TerseExactly(cfg, sys.base, sys.ops[..sys.saved]);
    SourcedExactly(cfg, sys.base, sys.ops[..sys.saved]);
    RunKeepsInv(cfg, sys.base, sys.ops[..sys.saved]);
    assert Booked(Snapshot(s)) by { SnapshotIsBooked(s); }
    SnapshotIsCompact(s);
    BoundsEpoch(cfg, s);
    SnapshotInstalls(cfg, s, s.epoch);
    assert Snapshot(s).(epoch := s.epoch) == Snapshot(s);
  }

  lemma SnapshotIsCompact(s: State)
    ensures Compact(Snapshot(s)) <==> Compact(s)
  {
  }

  lemma SnapshotIsBooked(s: State)
    requires Booked(s)
    ensures Booked(Snapshot(s))
  {
  }

  lemma BoundsEpoch(cfg: Config, s: State)
    requires Inv(cfg, s)
    ensures s.epoch != 0
  {
    hide Inv;
    Bounds(cfg, s);
  }

  /** After a crash the process comes up exactly when the saved history is survivable, and then the
      engine holds what the file held, under the next epoch. */
  lemma CrashRestoresTheFile(cfg: Config, sys: System, requests: Id, blank: State)
    requires sys.hasFile && sys.saved <= |sys.ops| && Inv(cfg, sys.base) && Booked(sys.base) && Sourced(sys.base)
    ensures var disk, next := OnDisk(cfg, sys), DoCrash(cfg, sys, requests, blank);
            && (next.up <==> Survivable(cfg, sys.size, sys.base, sys.ops[..sys.saved]))
            && (next.up ==> Live(cfg, next) == Resumed(disk, requests).(epoch := disk.epoch + 1))
  {
    hide Inv, Booked, Sourced, Survivable, Legible, Run;
    FileIsReadable(cfg, sys);
    ReloadedRun(cfg, sys.base, sys.ops[..sys.saved], requests);
  }

  lemma ReloadedRun(cfg: Config, base: State, ops: seq<Op>, requests: Id)
    requires Inv(cfg, base)
    ensures var s := Run(cfg, base, ops);
            Run(cfg, base, ops + [ReloadOp(requests)]) == Resumed(Snapshot(s), requests).(epoch := s.epoch + 1)
  {
    hide Inv, Run, Reload;
    var reload := ReloadOp(requests);
    var all := ops + [reload];
    RunSplit(cfg, base, all, |ops|);
    assert all[..|ops|] == ops && all[|ops|..] == [reload];
    RunKeepsInv(cfg, base, ops);
    ReloadIs(cfg, Run(cfg, base, ops), requests);
    RunOne(cfg, Run(cfg, base, ops), reload);
  }

  /** No crash loses an acknowledged record as long as the saved history is survivable: whatever
      happened since, the next process comes up and its history contains the record. */
  lemma AcknowledgedRecordSurvives(cfg: Config, sys: System, actions: seq<Action>, k: nat, r: Record, requests: Id, blank: State)
    requires Good(sys) && Inv(cfg, sys.base) && Booked(sys.base) && Sourced(sys.base)
    requires k in sys.acknowledged && k < |sys.ops| && r in Emits(cfg, Run(cfg, sys.base, sys.ops[..k]), sys.ops[k])
    ensures var after := Exec(cfg, sys, actions);
            && after.hasFile && k < after.saved <= |after.ops|
            && var history, next := after.ops[..after.saved], DoCrash(cfg, after, requests, blank);
               && r in Log(cfg, after.base, history)
               && (next.up <==> Survivable(cfg, sys.size, sys.base, history))
               && (next.up ==> next.base == sys.base && r in Log(cfg, next.base, next.ops))
  {
    hide Inv, Booked, Sourced, Emits, Log, Exec, Good, Run, Survivable, Live, OnDisk, Legible;
    var after := Exec(cfg, sys, actions);
    AcknowledgedIsInTheFile(cfg, sys, actions, k, r);
    CrashRestoresTheFile(cfg, after, requests, blank);
    var history := after.ops[..after.saved];
    var more := history + [ReloadOp(requests)];
    RunSplit(cfg, after.base, more, |history|);
    assert more[..|history|] == history;
  }

  /** A process comes up if its chains cannot pass 1024 revisions, its saved history has at most a million
      operations, evaluated only requests about registered revisions and handed in no plan more than 32
      times, and its file is not too long. */
  lemma ModestHistoryComesUp(cfg: Config, sys: System, requests: Id, blank: State)
    requires sys.saved <= |sys.ops| && Inv(cfg, sys.base) && Booked(sys.base) && Within(cfg, sys.base, 0)
    requires cfg.maxRevisions <= MAX_CHAIN && sys.saved <= MAX_KEYS && sys.size(OnDisk(cfg, sys)) <= F.MAX_SNAPSHOT
    requires NamesRegistered(cfg, sys.base, sys.ops[..sys.saved])
    requires forall k :: Attempts(sys.ops[..sys.saved], k) <= MAX_ATTEMPTS
    ensures DoCrash(cfg, sys, requests, blank).up
  {
    hide Inv, Booked, Run, NamesRegistered, Attempts, Compact;
    if sys.hasFile {
      var history := sys.ops[..sys.saved];
      ModestRunsAreReadable(cfg, sys.base, history);
      ShortRunsAreCompact(cfg, sys.base, history);
      SnapshotIsCompact(Run(cfg, sys.base, history));
    }
  }

  // ----- What the file decodes to -----

  /** The state is written faithfully, its values fit their fields, and its size is that of its file. */
  ghost predicate Filed(c: Coding, size: State -> nat, s: State) {
    Faithful(c, s) && F.Carried(Rendered(c, s)) && size(s) == |FileBytes(c, s)|
  }

  /** The bytes of the file load exactly when the process comes up. */
  lemma BytesDecodeWhenUp(cfg: Config, c: Coding, sys: System, requests: Id, blank: State)
    requires sys.hasFile && sys.saved <= |sys.ops| && Inv(cfg, sys.base) && Booked(sys.base) && Sourced(sys.base)
    requires Filed(c, sys.size, OnDisk(cfg, sys))
    ensures F.Loads(FileBytes(c, OnDisk(cfg, sys))) <==> DoCrash(cfg, sys, requests, blank).up
  {
    hide Inv, Booked, Sourced, Faithful, F.Carried, Rendered, FileBytes, F.Loads, OnDisk, Ledger.Readable, Compact,
         Survivable, Run, Consistent;
    FileIsReadable(cfg, sys);
    InvIsConsistent(cfg, OnDisk(cfg, sys));
    LoadsWhenReadable(c, OnDisk(cfg, sys));
  }

  /** And it comes up with the state they decode to, under the next epoch. */
  lemma CrashReadsTheBytes(cfg: Config, c: Coding, sys: System, sections: seq<F.Section>, x: F.Snapshot, blank: State)
    requires sys.hasFile && sys.saved <= |sys.ops| && Inv(cfg, sys.base) && Booked(sys.base) && Sourced(sys.base)
    requires Filed(c, sys.size, OnDisk(cfg, sys))
    requires InRange(OnDisk(cfg, sys).gens) && F.Loads(FileBytes(c, OnDisk(cfg, sys)))
    requires F.IsFile(FileBytes(c, OnDisk(cfg, sys)), sections) && F.Comes(sections, x)
    ensures |x.generators| == 10
    ensures var t := Parsed(c, x);
            var next := DoCrash(cfg, sys, t.gens.internalRequest, blank);
            next.up && Live(cfg, next) == t.(epoch := t.epoch + 1)
  {
    hide Inv, Booked, Sourced, Faithful, F.Carried, Rendered, FileBytes, F.IsFile, F.Comes, F.Loads, InRange,
         Parsed, Live, OnDisk, Legible, Survivable, Run, Consistent;
    var disk := OnDisk(cfg, sys);
    FileIsReadable(cfg, sys);
    FileHolds(cfg, c, disk, sections, x);
    BytesDecodeWhenUp(cfg, c, sys, Parsed(c, x).gens.internalRequest, blank);
    CrashRestoresTheFile(cfg, sys, Parsed(c, x).gens.internalRequest, blank);
    NoReservations(cfg, sys);
  }

  lemma NoReservations(cfg: Config, sys: System)
    requires sys.saved <= |sys.ops|
    ensures OnDisk(cfg, sys).pending == map[]
  {
    hide Run;
  }

  // ----- What is saved and not read back -----

  /** An operation handled by thread 0 from start to acknowledgement. */
  function Handled(op: Op): seq<Action> {
    [Mutate(0, op, true), BeginNotify(0), Enter(0), Copy(0), Replace(0), EndNotify(0), Return(0)]
  }

  predicate Idle(sys: System) { sys.up && sys.threads == map[] && !sys.writing }

  lemma {:induction false} ExecMore(cfg: Config, sys: System, a: Action, rest: seq<Action>)
    ensures Exec(cfg, sys, [a] + rest) == Exec(cfg, Next(cfg, sys, a), rest)
  {
    hide Next;
    assert ([a] + rest)[1..] == rest;
  }

  /** The change itself, up to the copy. */
  lemma HandledCopies(cfg: Config, sys: System, op: Op)
    requires Good(sys) && Idle(sys) && !Succeeds(cfg, sys, op)
    ensures var k, e := |sys.ops|, sys.persistEpoch + 1;
            var s1 := DoMutate(cfg, sys, 0, op, true);
            var s2, s3 := Next(cfg, s1, BeginNotify(0)), Next(cfg, Next(cfg, s1, BeginNotify(0)), Enter(0));
            && Next(cfg, sys, Mutate(0, op, true)) == s1
            && Next(cfg, s3, Copy(0)) ==
               s1.(writing := true, writer := 0, threads := map[0 := Copied(k, true, false, e, k + 1, e)])
  {
    hide Live, Run, Covers, ThreadGood, Succeeds;
  }

  /** From the copy to the acknowledgement. */
  lemma HandledEnds(cfg: Config, s: System, k: nat, e: nat)
    requires s.threads == map[0 := Copied(k, true, false, e, k + 1, e)] && s.up
    ensures var t := Next(cfg, Next(cfg, Next(cfg, s, Replace(0)), EndNotify(0)), Return(0));
            && t.hasFile && t.base == s.base && t.size == s.size && t.ops == s.ops && t.saved == k + 1
            && t.acknowledged == s.acknowledged + {k} && Idle(t)
  {
  }

  lemma HandledRuns(cfg: Config, sys: System, op: Op)
    requires Good(sys) && Idle(sys) && !Succeeds(cfg, sys, op)
    ensures var t := Exec(cfg, sys, Handled(op));
            && t.hasFile && t.base == sys.base && t.size == sys.size && t.ops == sys.ops + [op] && t.saved == |t.ops|
            && t.acknowledged == sys.acknowledged + {|sys.ops|} && Idle(t)
  {
    hide Live, Run, Good, Exec, Next, Succeeds;
    var k, e := |sys.ops|, sys.persistEpoch + 1;
    HandledCopies(cfg, sys, op);
    HandledEnds(cfg, DoMutate(cfg, sys, 0, op, true).(
                       writing := true, writer := 0, threads := map[0 := Copied(k, true, false, e, k + 1, e)]), k, e);
    Seven(cfg, sys, Handled(op));
  }

  // ----- A commit, alone -----

  /** A commit that takes effect calls the listener on its own before the change is announced. */
  function Committing(op: Op): seq<Action> {
    [Mutate(0, op, true), ReadTarget(0), Enter(0), Copy(0), Replace(0), Compare(0), SetClean(0), BeginNotify(0), Return(0)]
  }

  /** The commit, up to the copy. */
  lemma CommittingCopies(cfg: Config, sys: System, op: Op)
    requires Good(sys) && Idle(sys) && Succeeds(cfg, sys, op)
    ensures var k, e := |sys.ops|, sys.persistEpoch + 1;
            var s1 := DoMutate(cfg, sys, 0, op, true);
            && Next(cfg, sys, Mutate(0, op, true)) == s1
            && Next(cfg, Next(cfg, Next(cfg, s1, ReadTarget(0)), Enter(0)), Copy(0)) ==
               s1.(writing := true, writer := 0, threads := map[0 := Copied(k, true, true, e, k + 1, e)])
  {
    hide Live, Run, Covers, ThreadGood, Succeeds;
  }

  /** From the copy to the end of the commit's own save. */
  lemma CommittingSaves(cfg: Config, s: System, k: nat, e: nat)
    requires s.threads == map[0 := Copied(k, true, true, e, k + 1, e)] && s.cleanEpoch < e
    ensures Next(cfg, Next(cfg, Next(cfg, s, Replace(0)), Compare(0)), SetClean(0)) ==
            s.(hasFile := true, saved := k + 1, savedVersion := e, writing := false, cleanEpoch := e,
               threads := map[0 := Recorded(k, true)])
  {
  }

  /** The clean epoch is the commit's own then, so nothing is left to save. */
  lemma CommittingEnds(cfg: Config, s: System, k: nat)
    requires s.threads == map[0 := Recorded(k, true)] && s.up && !s.writing && s.cleanEpoch == s.persistEpoch
    ensures var t := Next(cfg, Next(cfg, s, BeginNotify(0)), Return(0));
            t == s.(threads := map[], acknowledged := s.acknowledged + {k}) && Idle(t)
  {
  }

  lemma CommittingRuns(cfg: Config, sys: System, op: Op)
    requires Good(sys) && Idle(sys) && Succeeds(cfg, sys, op)
    ensures var t := Exec(cfg, sys, Committing(op));
            && t.hasFile && t.base == sys.base && t.size == sys.size && t.ops == sys.ops + [op] && t.saved == |t.ops|
            && t.acknowledged == sys.acknowledged + {|sys.ops|} && Idle(t)
  {
    hide Live, Run, Exec, Next, Succeeds, Covers, ThreadGood;
    var k, e := |sys.ops|, sys.persistEpoch + 1;
    CommittingCopies(cfg, sys, op);
    var u := DoMutate(cfg, sys, 0, op, true).(writing := true, writer := 0,
                                              threads := map[0 := Copied(k, true, true, e, k + 1, e)]);
    assert sys.cleanEpoch < e == u.persistEpoch;
    CommittingSaves(cfg, u, k, e);
    CommittingEnds(cfg, u.(hasFile := true, saved := k + 1, savedVersion := e, writing := false, cleanEpoch := e,
                           threads := map[0 := Recorded(k, true)]), k);
    var h := Committing(op);
    ExecSplit(cfg, sys, h[..4], h[4..]);
    assert h[..4] + h[4..] == h;
    Four(cfg, sys, h[..4]);
    Five(cfg, u, h[4..]);
  }

  lemma Four(cfg: Config, sys: System, h: seq<Action>)
    requires |h| == 4
    ensures Exec(cfg, sys, h) == Next(cfg, Next(cfg, Next(cfg, Next(cfg, sys, h[0]), h[1]), h[2]), h[3])
  {
    hide Next;
    assert h == [h[0]] + h[1..] && h[1..] == [h[1]] + h[2..] && h[2..] == [h[2]] + h[3..] && h[3..] == [h[3]] + [];
    ExecMore(cfg, sys, h[0], h[1..]);
    var s1 := Next(cfg, sys, h[0]);
    ExecMore(cfg, s1, h[1], h[2..]);
    var s2 := Next(cfg, s1, h[1]);
    ExecMore(cfg, s2, h[2], h[3..]);
    ExecMore(cfg, Next(cfg, s2, h[2]), h[3], []);
  }

  lemma Five(cfg: Config, sys: System, h: seq<Action>)
    requires |h| == 5
    ensures Exec(cfg, sys, h) == Next(cfg, Next(cfg, Next(cfg, Next(cfg, Next(cfg, sys, h[0]), h[1]), h[2]), h[3]), h[4])
  {
    hide Next;
    assert h == [h[0]] + h[1..] && |h[1..]| == 4;
    ExecMore(cfg, sys, h[0], h[1..]);
    Four(cfg, Next(cfg, sys, h[0]), h[1..]);
  }

  /** What a thread does for an operation when no other thread is about. */
  ghost function Served(cfg: Config, sys: System, op: Op): seq<Action> {
    if Succeeds(cfg, sys, op) then Committing(op) else Handled(op)
  }

  /** Alone, every operation, a commit included, is saved and acknowledged, and leaves the process idle. */
  lemma ServedAlone(cfg: Config, sys: System, op: Op)
    requires Good(sys) && Idle(sys)
    ensures var t := Exec(cfg, sys, Served(cfg, sys, op));
            && Good(t) && Idle(t) && t.hasFile && t.base == sys.base && t.ops == sys.ops + [op] && t.saved == |t.ops|
            && t.acknowledged == sys.acknowledged + {|sys.ops|}
  {
    hide Good, Exec, Succeeds, Idle;
    ExecKeepsGood(cfg, sys, Served(cfg, sys, op));
    if Succeeds(cfg, sys, op) {
      CommittingRuns(cfg, sys, op);
    } else {
      HandledRuns(cfg, sys, op);
    }
  }

  lemma Seven(cfg: Config, sys: System, h: seq<Action>)
    requires |h| == 7
    ensures var s3 := Next(cfg, Next(cfg, Next(cfg, sys, h[0]), h[1]), h[2]);
            Exec(cfg, sys, h) == Next(cfg, Next(cfg, Next(cfg, Next(cfg, s3, h[3]), h[4]), h[5]), h[6])
  {
    hide Next;
    var s := sys;
    assert h == [h[0]] + h[1..] && h[1..] == [h[1]] + h[2..] && h[2..] == [h[2]] + h[3..] && h[3..] == [h[3]] + h[4..];
    assert h[4..] == [h[4]] + h[5..] && h[5..] == [h[5]] + h[6..] && h[6..] == [h[6]] + [];
    ExecMore(cfg, sys, h[0], h[1..]);
    var s1 := Next(cfg, sys, h[0]);
    ExecMore(cfg, s1, h[1], h[2..]);
    var s2 := Next(cfg, s1, h[1]);
    ExecMore(cfg, s2, h[2], h[3..]);
    var s3 := Next(cfg, s2, h[2]);
    ExecMore(cfg, s3, h[3], h[4..]);
    var s4 := Next(cfg, s3, h[3]);
    ExecMore(cfg, s4, h[4], h[5..]);
    var s5 := Next(cfg, s4, h[4]);
    ExecMore(cfg, s5, h[5], h[6..]);
    var s6 := Next(cfg, s5, h[5]);
    ExecMore(cfg, s6, h[6], []);
  }

  lemma {:induction false} ExecSplit(cfg: Config, sys: System, a: seq<Action>, b: seq<Action>)
    ensures Exec(cfg, sys, a + b) == Exec(cfg, Exec(cfg, sys, a), b)
    decreases |a|
  {
    hide Next;
    if a == [] {
      assert a + b == b;
    } else {
      ExecSplit(cfg, Next(cfg, sys, a[0]), a[1..], b);
      assert (a + b)[1..] == a[1..] + b;
    }
  }

  function HandledAll(ops: seq<Op>): seq<Action> {
    if ops == [] then [] else Handled(ops[0]) + HandledAll(ops[1..])
  }

  /** One operation after the other is handled, saved and acknowledged. */
  lemma {:induction false} HandledAllRuns(cfg: Config, sys: System, ops: seq<Op>)
    requires Good(sys) && Idle(sys) && forall op :: op in ops ==> !op.CommitOp?
    ensures var t := Exec(cfg, sys, HandledAll(ops));
            && Good(t) && Idle(t) && t.ops == sys.ops + ops
            && (ops != [] ==> t.hasFile && t.base == sys.base && t.size == sys.size && t.saved == |t.ops|)
            && forall k :: k in sys.acknowledged || |sys.ops| <= k < |t.ops| ==> k in t.acknowledged
    decreases |ops|
  {
    hide Good, Exec, Next, Idle;
    if ops == [] {
      ExecNothing(cfg, sys);
    } else {
      var u := Exec(cfg, sys, Handled(ops[0]));
      OnlyCommitsSucceed(cfg, sys, ops[0]);
      HandledRuns(cfg, sys, ops[0]);
      ExecKeepsGood(cfg, sys, Handled(ops[0]));
      HandledAllRuns(cfg, u, ops[1..]);
      ExecSplit(cfg, sys, Handled(ops[0]), HandledAll(ops[1..]));
      if ops[1..] == [] {
        ExecNothing(cfg, u);
      }
    }
  }

  lemma OnlyCommitsSucceed(cfg: Config, sys: System, op: Op)
    requires !op.CommitOp?
    ensures !Succeeds(cfg, sys, op)
  {
    hide Live, Emits;
  }

  lemma ExecNothing(cfg: Config, sys: System)
    ensures Exec(cfg, sys, []) == sys
  {
    hide Next;
  }

  /** A fresh coordinator that allows chains of more than 1024 revisions: registering one identity more
      often than that is acknowledged and saved each time, and after it no crash is survived. */
  lemma LongChainIsLost(cfg: Config, size: State -> nat, base: State, n: nat, requests: Id, blank: State)
    requires Inv(cfg, base) && Booked(base) && Sourced(base) && Within(cfg, base, 0)
    requires MAX_CHAIN < n <= cfg.maxRevisions && n <= MAX_KEYS
    ensures var t := Exec(cfg, Start(size, base), HandledAll(Registrations(n)));
            && t.hasFile && t.saved == |t.ops| == n && (forall k :: 0 <= k < n ==> k in t.acknowledged)
            && !DoCrash(cfg, t, requests, blank).up
  {
    hide Inv, Booked, Sourced, Exec, Legible, OnDisk, Restrained, Compact, Within, Run, NamesRegistered, Lengthened, HandledAll;
    var sys, ops := Start(size, base), Registrations(n);
    var t := Exec(cfg, sys, HandledAll(ops));
    HandledAllRuns(cfg, sys, ops);
    CrashRestoresTheFile(cfg, t, requests, blank);
    assert t.ops[..t.saved] == ops;
    RegistrationsExactly(cfg, base, n);
  }

  /** Handling one request about an unregistered revision is acknowledged and saved like any other, and
      after it no crash is survived: the file holds everything acknowledged and cannot be read. */
  lemma OneStrayIsEnough(cfg: Config, sys: System, req: Request, now: nat, requests: Id, blank: State)
    requires Good(sys) && Inv(cfg, sys.base) && Booked(sys.base) && Sourced(sys.base)
    requires Idle(sys) && Stray(Live(cfg, sys), req)
    ensures var t := Exec(cfg, sys, Handled(EvaluateOp(req, now)));
            t.hasFile && t.saved == |t.ops| && sys.acknowledged <= t.acknowledged && !DoCrash(cfg, t, requests, blank).up
  {
    hide Inv, Booked, Sourced, Exec, Good, Legible, OnDisk, Restrained, Compact;
    var op := EvaluateOp(req, now);
    var t := Exec(cfg, sys, Handled(op));
    OnlyCommitsSucceed(cfg, sys, op);
    HandledRuns(cfg, sys, op);
    ExecKeepsGood(cfg, sys, Handled(op));
    CrashRestoresTheFile(cfg, t, requests, blank);
    assert t.ops[..t.saved] == t.ops;
    StrayInHistory(cfg, sys.base, sys.ops, req, now);
  }

  lemma {:induction false} StrayInHistory(cfg: Config, s: State, ops: seq<Op>, req: Request, now: nat)
    requires Stray(Run(cfg, s, ops), req)
    ensures !NamesRegistered(cfg, s, ops + [EvaluateOp(req, now)])
    decreases |ops|
  {
    hide Apply, FindRevision;
    var all := ops + [EvaluateOp(req, now)];
    if ops != [] {
      StrayInHistory(cfg, Apply(cfg, s, ops[0]), ops[1..], req, now);
      assert all[1..] == ops[1..] + [EvaluateOp(req, now)];
    }
  }
}
