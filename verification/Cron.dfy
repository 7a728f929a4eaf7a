/**
 The in-process cron scheduler on several replicas: each keeps its own anchors, takes an advisory lock, and enqueues
 inside a transaction that commits after the lock is given back.
 */
module Cron {

  type Name = string

  datatype Status = Queued | Running | Succeeded | Failed | Cancelled

  // The idempotency key of a job is its cron and its tick.
  datatype Job = Job(cron: Name, tick: int, status: Status)

  // Locked: has the lock. Waiting: blocked on another transaction's uncommitted insert of the same key.
  // Entered: the enqueue has returned, `isNew` when it inserted. Unlocked: the lock is back, the commit still to come.
  datatype Phase =
    | Idle
    | Locked(cron: Name, tick: int)
    | Waiting(cron: Name, tick: int)
    | Entered(cron: Name, tick: int, isNew: bool)
    | Unlocked(cron: Name, tick: int, isNew: bool)

  // `seed` and `fired` are history: the anchors at start, and the ticks that were fired.
  datatype Replica = Replica(seed: map<Name, int>, anchors: map<Name, int>, fired: seq<(Name, int)>, phase: Phase)

  datatype World = World(replicas: seq<Replica>, jobs: seq<Job>)

  const EMPTY := World([], [])

  // The schedule: the first tick strictly after an anchor.
  type Next = (Name, int) -> int

  ghost predicate Proper(next: Next) {
    forall c, a :: next(c, a) > a
  }

  /** The statuses that the idempotency check and the partial unique index look at. */
  const UNFINISHED := {Queued, Running}

  const EVERY := {Queued, Running, Succeeded, Failed, Cancelled}

  // ---------- steps ----------

  predicate HoldsLock(p: Phase, c: Name) {
    !p.Idle? && !p.Unlocked? && p.cron == c
  }

  /** An insert of this key that has not committed. */
  predicate Pending(p: Phase, c: Name, tick: int) {
    (p.Entered? || p.Unlocked?) && p.isNew && p.cron == c && p.tick == tick
  }

  predicate Blocks(j: Job, c: Name, tick: int, covers: set<Status>) {
    j.cron == c && j.tick == tick && j.status in covers
  }

  predicate HasBlocking(jobs: seq<Job>, c: Name, tick: int, covers: set<Status>) {
    exists i :: 0 <= i < |jobs| && Blocks(jobs[i], c, tick, covers)
  }

  predicate OtherHolds(w: World, r: nat, c: Name) {
    exists q :: 0 <= q < |w.replicas| && q != r && HoldsLock(w.replicas[q].phase, c)
  }

  predicate OtherPending(w: World, r: int, c: Name, tick: int) {
    exists q :: 0 <= q < |w.replicas| && q != r && Pending(w.replicas[q].phase, c, tick)
  }

  function Anchor(rep: Replica, c: Name, now: int): int { if c in rep.anchors then rep.anchors[c] else now }

  function Put(w: World, r: nat, rep: Replica): World
    requires r < |w.replicas|
  {
    w.(replicas := w.replicas[r := rep])
  }

  function SetPhase(w: World, r: nat, p: Phase): World
    requires r < |w.replicas|
  {
    Put(w, r, w.replicas[r].(phase := p))
  }

  function AnchorsAt(crons: set<Name>, now: int): map<Name, int> { map c | c in crons :: now }

  /** A process starts: every cron known to it is anchored at the present, so nothing overdue fires. */
  function Start(w: World, crons: set<Name>, now: int): World {
    var anchors := AnchorsAt(crons, now);
    w.(replicas := w.replicas + [Replica(anchors, anchors, [], Idle)])
  }

  /** One cron's turn in a pass: fires at most one tick, and only when the lock is free. */
  function TryLock(w: World, next: Next, r: nat, c: Name, now: int): World
    requires r < |w.replicas|
  {
    var rep := w.replicas[r];
    var tick := next(c, Anchor(rep, c, now));
    if !rep.phase.Idle? || tick > now || OtherHolds(w, r, c) then w else SetPhase(w, r, Locked(c, tick))
  }

  function Enqueue(w: World, covers: set<Status>, r: nat): World
    requires r < |w.replicas|
  {
    match w.replicas[r].phase
    case Locked(c, tick) =>
      if HasBlocking(w.jobs, c, tick, covers) then SetPhase(w, r, Entered(c, tick, false))
      else if OtherPending(w, r, c, tick) then SetPhase(w, r, Waiting(c, tick))
      else SetPhase(w, r, Entered(c, tick, true))
    case _ => w
  }

  /** The other transaction has ended: a unique violation rolls this one back, otherwise the insert goes through. */
  function Resolve(w: World, covers: set<Status>, r: nat): World
    requires r < |w.replicas|
  {
    match w.replicas[r].phase
    case Waiting(c, tick) =>
      if OtherPending(w, r, c, tick) then w
      else if HasBlocking(w.jobs, c, tick, covers) then SetPhase(w, r, Idle)
      else SetPhase(w, r, Entered(c, tick, true))
    case _ => w
  }

  function Unlock(w: World, r: nat): World
    requires r < |w.replicas|
  {
    match w.replicas[r].phase
    case Entered(c, tick, isNew) => SetPhase(w, r, Unlocked(c, tick, isNew))
    case _ => w
  }

  /** The transaction commits and the anchor moves to the tick. */
  function Commit(w: World, r: nat): World
    requires r < |w.replicas|
  {
    var rep := w.replicas[r];
    match rep.phase
    case Unlocked(c, tick, isNew) =>
      World(w.replicas[r := Replica(rep.seed, rep.anchors[c := tick], rep.fired + [(c, tick)], Idle)],
            if isNew then w.jobs + [Job(c, tick, Queued)] else w.jobs)
    case _ => w
  }

  /** A worker, a retry or a cancellation sets a status; the unique index refuses a second covered row of a key. */
  function SetStatus(w: World, covers: set<Status>, i: nat, status: Status): World {
    if i >= |w.jobs| then w
    else
      var j := w.jobs[i];
      if status in covers && (OtherPending(w, -1, j.cron, j.tick) ||
           HasBlocking(w.jobs[..i] + w.jobs[i + 1..], j.cron, j.tick, covers)) then w
      else w.(jobs := w.jobs[i := j.(status := status)])
  }

  datatype Op =
    | StartOp(crons: set<Name>, now: int)
    | LockOp(r: nat, cron: Name, now: int)
    | EnqueueOp(r: nat)
    | ResolveOp(r: nat)
    | UnlockOp(r: nat)
    | CommitOp(r: nat)
    | FailOp(r: nat)
    | StatusOp(job: nat, status: Status)

  /** `FailOp` is any exception, or a crash: the transaction rolls back, the lock is released, the anchor stays. */
  function Step(w: World, next: Next, covers: set<Status>, op: Op): World {
    match op
    case StartOp(crons, now) => Start(w, crons, now)
    case LockOp(r, c, now) => if r < |w.replicas| then TryLock(w, next, r, c, now) else w
    case EnqueueOp(r) => if r < |w.replicas| then Enqueue(w, covers, r) else w
    case ResolveOp(r) => if r < |w.replicas| then Resolve(w, covers, r) else w
    case UnlockOp(r) => if r < |w.replicas| then Unlock(w, r) else w
    case CommitOp(r) => if r < |w.replicas| then Commit(w, r) else w
    case FailOp(r) => if r < |w.replicas| then SetPhase(w, r, Idle) else w
    case StatusOp(i, status) => SetStatus(w, covers, i, status)
  }

  function Run(next: Next, covers: set<Status>, ops: seq<Op>): World {
    if ops == [] then EMPTY else Step(Run(next, covers, ops[..|ops| - 1]), next, covers, ops[|ops| - 1])
  }

  // ---------- each replica's ticks ----------

  /** The ticks of one cron, in the order they were fired. */
  function TicksOf(fired: seq<(Name, int)>, c: Name): seq<int> {
    if fired == [] then []
    else
      var last := fired[|fired| - 1];
      TicksOf(fired[..|fired| - 1], c) + if last.0 == c then [last.1] else []
  }

  /** The schedule's ticks after `seed`, one after the other, with no gap and no repetition. */
  predicate Consecutive(next: Next, c: Name, seed: int, ticks: seq<int>) {
    forall i | 0 <= i < |ticks| :: ticks[i] == next(c, Before(seed, ticks, i))
  }

  function Before(seed: int, ticks: seq<int>, i: nat): int
    requires i <= |ticks|
  {
    if i == 0 then seed else ticks[i - 1]
  }

  /** The anchor is the last tick fired, or the seed; a cron without a seed has no anchor and fired nothing. */
  ghost predicate CronKept(next: Next, rep: Replica, c: Name) {
    var ticks := TicksOf(rep.fired, c);
    if c in rep.seed then
      c in rep.anchors && Consecutive(next, c, rep.seed[c], ticks) &&
      rep.anchors[c] == Before(rep.seed[c], ticks, |ticks|)
    else c !in rep.anchors && ticks == []
  }

  /** While a tick is being fired, it is the next one after the anchor. */
  ghost predicate ReplicaKept(next: Next, rep: Replica) {
    && (forall c :: CronKept(next, rep, c))
    && (!rep.phase.Idle? ==>
          rep.phase.cron in rep.anchors && rep.phase.tick == next(rep.phase.cron, rep.anchors[rep.phase.cron]))
  }

  ghost predicate ReplicasKept(next: Next, w: World) {
    forall r | 0 <= r < |w.replicas| :: ReplicaKept(next, w.replicas[r])
  }

  lemma TicksMore(fired: seq<(Name, int)>, c: Name, tick: int, d: Name)
    ensures TicksOf(fired + [(c, tick)], d) == TicksOf(fired, d) + if c == d then [tick] else []
  {
    assert (fired + [(c, tick)])[..|fired|] == fired;
  }

  lemma ConsecutiveMore(next: Next, c: Name, seed: int, ticks: seq<int>, tick: int)
    requires Consecutive(next, c, seed, ticks) && tick == next(c, Before(seed, ticks, |ticks|))
    ensures Consecutive(next, c, seed, ticks + [tick])
  {
    var more := ticks + [tick];
    forall i | 0 <= i < |more| ensures more[i] == next(c, Before(seed, more, i)) {
      assert Before(seed, more, i) == Before(seed, ticks, i);
    }
  }

  lemma CommitKept(next: Next, w: World, r: nat)
    requires r < |w.replicas| && ReplicasKept(next, w)
    ensures ReplicasKept(next, Commit(w, r))
  {
    var rep := w.replicas[r];
    assert ReplicaKept(next, rep);
    if rep.phase.Unlocked? {
      var c, tick := rep.phase.cron, rep.phase.tick;
      var after := Replica(rep.seed, rep.anchors[c := tick], rep.fired + [(c, tick)], Idle);
      forall d ensures CronKept(next, after, d) {
        assert CronKept(next, rep, d) && CronKept(next, rep, c);
        TicksMore(rep.fired, c, tick, d);
        if d == c {
          ConsecutiveMore(next, c, rep.seed[c], TicksOf(rep.fired, c), tick);
        }
      }
    }
  }

  lemma StartKept(next: Next, w: World, crons: set<Name>, now: int)
    requires ReplicasKept(next, w)
    ensures ReplicasKept(next, Start(w, crons, now))
  {
    var anchors := AnchorsAt(crons, now);
    assert forall c :: CronKept(next, Replica(anchors, anchors, [], Idle), c);
  }

  /** Only a commit touches anchors and history. */
  lemma PhaseKept(next: Next, w: World, r: nat, p: Phase)
    requires r < |w.replicas| && ReplicasKept(next, w)
    requires !p.Idle? ==> p.cron in w.replicas[r].anchors && p.tick == next(p.cron, w.replicas[r].anchors[p.cron])
    ensures ReplicasKept(next, SetPhase(w, r, p))
  {
    var rep := w.replicas[r];
    assert ReplicaKept(next, rep);
    forall c ensures CronKept(next, rep.(phase := p), c) { assert CronKept(next, rep, c); }
  }

  lemma TryLockKept(next: Next, w: World, r: nat, c: Name, now: int)
    requires Proper(next) && r < |w.replicas| && ReplicasKept(next, w)
    ensures ReplicasKept(next, TryLock(w, next, r, c, now))
  {
    var rep := w.replicas[r];
    var tick := next(c, Anchor(rep, c, now));
    if tick <= now {
      assert c in rep.anchors;
      PhaseKept(next, w, r, Locked(c, tick));
    }
  }

  lemma EnqueueKept(next: Next, covers: set<Status>, w: World, r: nat)
    requires r < |w.replicas| && ReplicasKept(next, w)
    ensures ReplicasKept(next, Enqueue(w, covers, r)) && ReplicasKept(next, Resolve(w, covers, r))
    ensures ReplicasKept(next, Unlock(w, r)) && ReplicasKept(next, SetPhase(w, r, Idle))
  {
    var p := w.replicas[r].phase;
    assert ReplicaKept(next, w.replicas[r]);
    PhaseKept(next, w, r, Idle);
    if !p.Idle? {
      PhaseKept(next, w, r, Entered(p.cron, p.tick, false));
      PhaseKept(next, w, r, Entered(p.cron, p.tick, true));
      PhaseKept(next, w, r, Waiting(p.cron, p.tick));
      if p.Entered? {
        PhaseKept(next, w, r, Unlocked(p.cron, p.tick, p.isNew));
      }
    }
  }

  lemma StepKeepsReplicas(next: Next, covers: set<Status>, w: World, op: Op)
    requires Proper(next) && ReplicasKept(next, w)
    ensures ReplicasKept(next, Step(w, next, covers, op))
  {
    match op {
      case StartOp(crons, now) => StartKept(next, w, crons, now);
      case LockOp(r, c, now) => if r < |w.replicas| { TryLockKept(next, w, r, c, now); }
      case CommitOp(r) => if r < |w.replicas| { CommitKept(next, w, r); }
      case StatusOp(i, status) => assert Step(w, next, covers, op).replicas == w.replicas;
      case _ => if op.r < |w.replicas| { EnqueueKept(next, covers, w, op.r); }
    }
  }

  lemma {:induction false} RunKeepsReplicas(next: Next, covers: set<Status>, ops: seq<Op>)
    requires Proper(next)
    ensures ReplicasKept(next, Run(next, covers, ops))
  {
    if ops != [] {
      RunKeepsReplicas(next, covers, ops[..|ops| - 1]);
      StepKeepsReplicas(next, covers, Run(next, covers, ops[..|ops| - 1]), ops[|ops| - 1]);
    }
  }

  /**
   In every run, under any contention and failures, what a replica fires for a cron are the schedule's ticks after its
   start, none left out and none twice, and its anchor is the last of them. A cron it did not know at start never fires.
   */
  lemma TicksAreConsecutive(next: Next, covers: set<Status>, ops: seq<Op>, r: nat, c: Name)
    requires Proper(next) && r < |Run(next, covers, ops).replicas|
    ensures var rep := Run(next, covers, ops).replicas[r];
      var ticks := TicksOf(rep.fired, c);
      && (c in rep.seed ==> Consecutive(next, c, rep.seed[c], ticks) &&
                            Anchor(rep, c, 0) == Before(rep.seed[c], ticks, |ticks|))
      && (c !in rep.seed ==> ticks == [])
      && (forall i, j | 0 <= i < j < |ticks| :: ticks[i] < ticks[j])
  {
    RunKeepsReplicas(next, covers, ops);
    var rep := Run(next, covers, ops).replicas[r];
    assert ReplicaKept(next, rep);
    assert CronKept(next, rep, c);
    if c in rep.seed {
      var ticks := TicksOf(rep.fired, c);
      forall i, j | 0 <= i < j < |ticks| ensures ticks[i] < ticks[j] { Increasing(next, c, rep.seed[c], ticks, i, j); }
    }
  }

  lemma {:induction false} Increasing(next: Next, c: Name, seed: int, ticks: seq<int>, i: nat, j: nat)
    requires Proper(next) && Consecutive(next, c, seed, ticks) && i < j < |ticks|
    ensures ticks[i] < ticks[j]
  {
    assert ticks[j] == next(c, Before(seed, ticks, j)) > ticks[j - 1];
    if i < j - 1 {
      Increasing(next, c, seed, ticks, i, j - 1);
    }
  }

  // ---------- the index ----------

  /** At most one covered or uncommitted row per key. */
  ghost predicate KeysKept(w: World, covers: set<Status>) {
    && (forall i, j | 0 <= i < j < |w.jobs| :: !SameKeyCovered(w.jobs[i], w.jobs[j], covers))
    && (forall r, i | 0 <= r < |w.replicas| && 0 <= i < |w.jobs| ::
          !PendingOver(w.replicas[r].phase, w.jobs[i], covers))
    && (forall r, q | 0 <= r < q < |w.replicas| :: !BothPending(w.replicas[r].phase, w.replicas[q].phase))
  }

  predicate SameKeyCovered(a: Job, b: Job, covers: set<Status>) {
    a.cron == b.cron && a.tick == b.tick && a.status in covers && b.status in covers
  }

  predicate PendingOver(p: Phase, j: Job, covers: set<Status>) {
    Pending(p, j.cron, j.tick) && j.status in covers
  }

  predicate BothPending(p: Phase, q: Phase) {
    (p.Entered? || p.Unlocked?) && p.isNew && Pending(q, p.cron, p.tick)
  }

  /** A phase that is not a new pending insert, or was pending already, keeps the index. */
  lemma PhaseKeepsKeys(w: World, covers: set<Status>, r: nat, p: Phase)
    requires r < |w.replicas| && KeysKept(w, covers)
    requires forall c, tick | Pending(p, c, tick) :: Pending(w.replicas[r].phase, c, tick) ||
               (!OtherPending(w, r, c, tick) && !HasBlocking(w.jobs, c, tick, covers))
    ensures KeysKept(SetPhase(w, r, p), covers)
  {
    var after := SetPhase(w, r, p);
    var reps := after.replicas;
    forall i | 0 <= i < |w.jobs| ensures !PendingOver(p, w.jobs[i], covers) {
      assert !PendingOver(w.replicas[r].phase, w.jobs[i], covers);
      assert Blocks(w.jobs[i], w.jobs[i].cron, w.jobs[i].tick, covers) == (w.jobs[i].status in covers);
    }
    forall q | 0 <= q < |reps| && q != r ensures !BothPending(p, reps[q].phase) && !BothPending(reps[q].phase, p) {
      assert !BothPending(w.replicas[r].phase, w.replicas[q].phase) || q < r;
      assert !BothPending(w.replicas[q].phase, w.replicas[r].phase) || r < q;
      if BothPending(p, reps[q].phase) || BothPending(reps[q].phase, p) {
        assert Pending(reps[q].phase, p.cron, p.tick);
        assert Pending(p, p.cron, p.tick);
      }
    }
  }

  lemma CommitKeepsKeys(w: World, covers: set<Status>, r: nat)
    requires r < |w.replicas| && KeysKept(w, covers)
    ensures KeysKept(Commit(w, r), covers)
  {
    var p := w.replicas[r].phase;
    if p.Unlocked? {
      var mid := SetPhase(w, r, Idle);
      PhaseKeepsKeys(w, covers, r, Idle);
      var after := Commit(w, r);
      assert forall q | 0 <= q < |after.replicas| :: after.replicas[q].phase == mid.replicas[q].phase;
      if p.isNew {
        var j := Job(p.cron, p.tick, Queued);
        forall i | 0 <= i < |w.jobs| ensures !SameKeyCovered(w.jobs[i], j, covers) {
          assert !PendingOver(p, w.jobs[i], covers);
        }
        forall q | 0 <= q < |mid.replicas| ensures !PendingOver(mid.replicas[q].phase, j, covers) {
          if q != r {
            assert if q < r then !BothPending(w.replicas[q].phase, p) else !BothPending(p, w.replicas[q].phase);
          }
        }
      }
    }
  }

  lemma StatusKeepsKeys(w: World, covers: set<Status>, i: nat, status: Status)
    requires KeysKept(w, covers)
    ensures KeysKept(SetStatus(w, covers, i, status), covers)
  {
    var after := SetStatus(w, covers, i, status);
    if i < |w.jobs| && after != w {
      var j := w.jobs[i];
      var others := w.jobs[..i] + w.jobs[i + 1..];
      if status in covers {
        forall k | 0 <= k < |w.jobs| && k != i ensures !SameKeyCovered(w.jobs[k], after.jobs[i], covers) {
          assert others[if k < i then k else k - 1] == w.jobs[k];
        }
      }
    }
  }

  lemma StepKeepsKeys(next: Next, covers: set<Status>, w: World, op: Op)
    requires KeysKept(w, covers)
    ensures KeysKept(Step(w, next, covers, op), covers)
  {
    match op {
      case StartOp(crons, now) =>
      case LockOp(r, c, now) =>
        if r < |w.replicas| { PhaseKeepsKeys(w, covers, r, Locked(c, next(c, Anchor(w.replicas[r], c, now)))); }
      case CommitOp(r) => if r < |w.replicas| { CommitKeepsKeys(w, covers, r); }
      case StatusOp(i, status) => StatusKeepsKeys(w, covers, i, status);
      case FailOp(r) => if r < |w.replicas| { PhaseKeepsKeys(w, covers, r, Idle); }
      case UnlockOp(r) =>
        if r < |w.replicas| && w.replicas[r].phase.Entered? {
          var p := w.replicas[r].phase;
          PhaseKeepsKeys(w, covers, r, Unlocked(p.cron, p.tick, p.isNew));
        }
      case _ => if op.r < |w.replicas| { EnqueueKeepsKeys(w, covers, op.r); }
    }
  }

  lemma EnqueueKeepsKeys(w: World, covers: set<Status>, r: nat)
    requires r < |w.replicas| && KeysKept(w, covers)
    ensures KeysKept(Enqueue(w, covers, r), covers) && KeysKept(Resolve(w, covers, r), covers)
  {
    var p := w.replicas[r].phase;
    PhaseKeepsKeys(w, covers, r, Idle);
    if p.Locked? || p.Waiting? {
      PhaseKeepsKeys(w, covers, r, Entered(p.cron, p.tick, false));
      PhaseKeepsKeys(w, covers, r, Waiting(p.cron, p.tick));
      if !HasBlocking(w.jobs, p.cron, p.tick, covers) && !OtherPending(w, r, p.cron, p.tick) {
        PhaseKeepsKeys(w, covers, r, Entered(p.cron, p.tick, true));
      }
    }
  }

  lemma {:induction false} RunKeepsKeys(next: Next, covers: set<Status>, ops: seq<Op>)
    ensures KeysKept(Run(next, covers, ops), covers)
  {
    if ops != [] {
      RunKeepsKeys(next, covers, ops[..|ops| - 1]);
      StepKeepsKeys(next, covers, Run(next, covers, ops[..|ops| - 1]), ops[|ops| - 1]);
    }
  }

  /** Across all replicas at most one unfinished job exists per tick, whatever races with the commit. */
  lemma OneUnfinishedJobPerTick(next: Next, ops: seq<Op>, i: nat, j: nat)
    requires i < |Run(next, UNFINISHED, ops).jobs| && j < |Run(next, UNFINISHED, ops).jobs|
    ensures var jobs := Run(next, UNFINISHED, ops).jobs; SameKeyCovered(jobs[i], jobs[j], UNFINISHED) ==> i == j
  {
    RunKeepsKeys(next, UNFINISHED, ops);
    var jobs := Run(next, UNFINISHED, ops).jobs;
    assert i < j ==> !SameKeyCovered(jobs[i], jobs[j], UNFINISHED);
    assert j < i ==> !SameKeyCovered(jobs[j], jobs[i], UNFINISHED);
  }

  // ---------- how many jobs a tick gets ----------

  function JobsOf(jobs: seq<Job>, c: Name, tick: int): nat {
    if jobs == [] then 0
    else
      var last := jobs[|jobs| - 1];
      JobsOf(jobs[..|jobs| - 1], c, tick) + if last.cron == c && last.tick == tick then 1 else 0
  }

  /** The replicas that have fired the tick. */
  function Firers(replicas: seq<Replica>, c: Name, tick: int): nat {
    if replicas == [] then 0
    else
      Firers(replicas[..|replicas| - 1], c, tick) + if tick in TicksOf(replicas[|replicas| - 1].fired, c) then 1 else 0
  }

  lemma {:induction false} FirersPut(replicas: seq<Replica>, r: nat, rep: Replica, c: Name, tick: int)
    requires r < |replicas|
    ensures Firers(replicas[r := rep], c, tick) + (if tick in TicksOf(replicas[r].fired, c) then 1 else 0) ==
            Firers(replicas, c, tick) + if tick in TicksOf(rep.fired, c) then 1 else 0
  {
    var last := |replicas| - 1;
    if r < last {
      FirersPut(replicas[..last], r, rep, c, tick);
      assert replicas[r := rep][..last] == replicas[..last][r := rep];
    } else {
      assert replicas[r := rep][..last] == replicas[..last];
    }
  }

  lemma {:induction false} JobsOfPut(jobs: seq<Job>, i: nat, status: Status, c: Name, tick: int)
    requires i < |jobs|
    ensures JobsOf(jobs[i := jobs[i].(status := status)], c, tick) == JobsOf(jobs, c, tick)
  {
    var last := |jobs| - 1;
    var after := jobs[i := jobs[i].(status := status)];
    if i < last {
      JobsOfPut(jobs[..last], i, status, c, tick);
      assert after[..last] == jobs[..last][i := jobs[i].(status := status)];
    } else {
      assert after[..last] == jobs[..last];
    }
  }

  ghost predicate FewJobs(w: World, c: Name, tick: int) { JobsOf(w.jobs, c, tick) <= Firers(w.replicas, c, tick) }

  lemma PhaseFewJobs(w: World, r: nat, p: Phase, c: Name, tick: int)
    requires r < |w.replicas|
    ensures FewJobs(SetPhase(w, r, p), c, tick) == FewJobs(w, c, tick)
  {
    FirersPut(w.replicas, r, w.replicas[r].(phase := p), c, tick);
  }

  lemma JobsOfMore(jobs: seq<Job>, j: Job, c: Name, tick: int)
    ensures JobsOf(jobs + [j], c, tick) == JobsOf(jobs, c, tick) + if j.cron == c && j.tick == tick then 1 else 0
  {
    assert (jobs + [j])[..|jobs|] == jobs;
  }

  /** A replica never fires the same tick twice. */
  lemma NewTick(next: Next, rep: Replica)
    requires Proper(next) && ReplicaKept(next, rep) && !rep.phase.Idle?
    ensures rep.phase.tick !in TicksOf(rep.fired, rep.phase.cron)
  {
    var c := rep.phase.cron;
    var ticks := TicksOf(rep.fired, c);
    assert CronKept(next, rep, c);
    assert rep.phase.tick == next(c, rep.anchors[c]) > rep.anchors[c];
    forall i | 0 <= i < |ticks| ensures ticks[i] < rep.phase.tick {
      if i < |ticks| - 1 {
        Increasing(next, c, rep.seed[c], ticks, i, |ticks| - 1);
      }
      assert ticks[|ticks| - 1] == rep.anchors[c];
    }
  }

  /** So a new job always comes with a replica that fires the tick for the first time. */
  lemma CommitFewJobs(next: Next, w: World, r: nat, c: Name, tick: int)
    requires Proper(next) && r < |w.replicas| && ReplicasKept(next, w) && FewJobs(w, c, tick)
    ensures FewJobs(Commit(w, r), c, tick)
  {
    var rep := w.replicas[r];
    if rep.phase.Unlocked? {
      var d, at := rep.phase.cron, rep.phase.tick;
      assert ReplicaKept(next, rep);
      NewTick(next, rep);
      FirersPut(w.replicas, r, Replica(rep.seed, rep.anchors[d := at], rep.fired + [(d, at)], Idle), c, tick);
      TicksMore(rep.fired, d, at, c);
      JobsOfMore(w.jobs, Job(d, at, Queued), c, tick);
    }
  }

  lemma StepFewJobs(next: Next, covers: set<Status>, w: World, op: Op, c: Name, tick: int)
    requires Proper(next) && ReplicasKept(next, w) && FewJobs(w, c, tick)
    ensures FewJobs(Step(w, next, covers, op), c, tick)
  {
    match op {
      case StartOp(crons, now) =>
        assert Step(w, next, covers, op).replicas[..|w.replicas|] == w.replicas;
      case StatusOp(i, status) => if i < |w.jobs| { JobsOfPut(w.jobs, i, status, c, tick); }
      case CommitOp(r) => if r < |w.replicas| { CommitFewJobs(next, w, r, c, tick); }
      case LockOp(r, d, now) =>
        if r < |w.replicas| { PhaseFewJobs(w, r, Locked(d, next(d, Anchor(w.replicas[r], d, now))), c, tick); }
      case _ =>
        if op.r < |w.replicas| && Step(w, next, covers, op) != w {
          PhaseFewJobs(w, op.r, Step(w, next, covers, op).replicas[op.r].phase, c, tick);
        }
    }
  }

  lemma {:induction false} JobsAtMostFirers(next: Next, covers: set<Status>, ops: seq<Op>, c: Name, tick: int)
    requires Proper(next)
    ensures FewJobs(Run(next, covers, ops), c, tick)
  {
    if ops != [] {
      var front := ops[..|ops| - 1];
      JobsAtMostFirers(next, covers, front, c, tick);
      RunKeepsReplicas(next, covers, front);
      StepFewJobs(next, covers, Run(next, covers, front), ops[|ops| - 1], c, tick);
    }
  }

  // ---------- when a tick gets one job ----------

  ghost predicate Single(jobs: seq<Job>) {
    forall i, j | 0 <= i < j < |jobs| :: !(jobs[i].cron == jobs[j].cron && jobs[i].tick == jobs[j].tick)
  }

  /** In every run, every tick of every cron gets at most one job. */
  ghost predicate OncePerTick(next: Next, covers: set<Status>) {
    forall ops :: Single(Run(next, covers, ops).jobs)
  }

  function FireOps(r: nat, c: Name, now: int): seq<Op> { [LockOp(r, c, now), EnqueueOp(r), UnlockOp(r), CommitOp(r)] }

  function Steps(w: World, next: Next, covers: set<Status>, ops: seq<Op>): World {
    if ops == [] then w else Step(Steps(w, next, covers, ops[..|ops| - 1]), next, covers, ops[|ops| - 1])
  }

  lemma StepsMore(w: World, next: Next, covers: set<Status>, ops: seq<Op>, op: Op)
    ensures Steps(w, next, covers, ops + [op]) == Step(Steps(w, next, covers, ops), next, covers, op)
  {
    assert (ops + [op])[..|ops|] == ops;
  }

  lemma RunMore(next: Next, covers: set<Status>, ops: seq<Op>, op: Op)
    ensures Run(next, covers, ops + [op]) == Step(Run(next, covers, ops), next, covers, op)
  {
    assert (ops + [op])[..|ops|] == ops;
  }

  lemma RunStepsMore(next: Next, covers: set<Status>, a: seq<Op>, front: seq<Op>, op: Op)
    requires Run(next, covers, a + front) == Steps(Run(next, covers, a), next, covers, front)
    ensures Run(next, covers, a + (front + [op])) == Steps(Run(next, covers, a), next, covers, front + [op])
  {
    RunMore(next, covers, a + front, op);
    StepsMore(Run(next, covers, a), next, covers, front, op);
    assert a + (front + [op]) == (a + front) + [op];
  }

  lemma {:induction false} RunSteps(next: Next, covers: set<Status>, a: seq<Op>, b: seq<Op>)
    ensures Run(next, covers, a + b) == Steps(Run(next, covers, a), next, covers, b)
  {
    if b == [] {
      assert a + b == a;
    } else {
      var front, op := b[..|b| - 1], b[|b| - 1];
      assert b == front + [op];
      RunSteps(next, covers, a, front);
      RunStepsMore(next, covers, a, front, op);
    }
  }

  lemma FourSteps(w: World, next: Next, covers: set<Status>, r: nat, c: Name, now: int)
    requires r < |w.replicas|
    ensures Steps(w, next, covers, FireOps(r, c, now)) ==
            Commit(Unlock(Enqueue(TryLock(w, next, r, c, now), covers, r), r), r)
  {
    StepsMore(w, next, covers, [], LockOp(r, c, now));
    StepsMore(w, next, covers, [] + [LockOp(r, c, now)], EnqueueOp(r));
    StepsMore(w, next, covers, [] + [LockOp(r, c, now)] + [EnqueueOp(r)], UnlockOp(r));
    StepsMore(w, next, covers, [] + [LockOp(r, c, now)] + [EnqueueOp(r)] + [UnlockOp(r)], CommitOp(r));
    assert FireOps(r, c, now) == [] + [LockOp(r, c, now)] + [EnqueueOp(r)] + [UnlockOp(r)] + [CommitOp(r)];
  }

  /** With everyone idle and nothing in the way, a turn adds one job. */
  lemma FireAdds(w: World, next: Next, covers: set<Status>, r: nat, c: Name, now: int)
    requires r < |w.replicas| && c in w.replicas[r].anchors && next(c, w.replicas[r].anchors[c]) <= now
    requires forall q | 0 <= q < |w.replicas| :: w.replicas[q].phase.Idle?
    requires !HasBlocking(w.jobs, c, next(c, w.replicas[r].anchors[c]), covers)
    ensures var tick := next(c, w.replicas[r].anchors[c]);
      var rep := w.replicas[r];
      Steps(w, next, covers, FireOps(r, c, now)) ==
      World(w.replicas[r := Replica(rep.seed, rep.anchors[c := tick], rep.fired + [(c, tick)], Idle)],
            w.jobs + [Job(c, tick, Queued)])
  {
    FourSteps(w, next, covers, r, c, now);
    var tick := next(c, w.replicas[r].anchors[c]);
    var locked := TryLock(w, next, r, c, now);
    assert !OtherHolds(w, r, c);
    assert locked == SetPhase(w, r, Locked(c, tick));
    assert !OtherPending(locked, r, c, tick);
    var entered := Enqueue(locked, covers, r);
    assert entered == SetPhase(w, r, Entered(c, tick, true));
  }

  const SEEDED := Replica(map["c" := 0], map["c" := 0], [], Idle)

  /** One of two replicas has fired the first tick, and its job has reached `status`. */
  function OnceFired(next: Next, status: Status): World {
    var tick := next("c", 0);
    World([Replica(SEEDED.seed, map["c" := tick], [("c", tick)], Idle), SEEDED], [Job("c", tick, status)])
  }

  function OnceOps(next: Next, status: Status): seq<Op> {
    [StartOp({"c"}, 0), StartOp({"c"}, 0)] + FireOps(0, "c", next("c", 0)) + [StatusOp(0, status)]
  }

  lemma OnceRun(next: Next, covers: set<Status>, status: Status)
    requires Proper(next) && status !in covers
    ensures Run(next, covers, OnceOps(next, status)) == OnceFired(next, status)
  {
    var tick := next("c", 0);
    var started := [StartOp({"c"}, 0), StartOp({"c"}, 0)];
    StartedTwo(next, covers);
    RunSteps(next, covers, started, FireOps(0, "c", tick));
    FireAdds(World([SEEDED, SEEDED], []), next, covers, 0, "c", tick);
    var ops := OnceOps(next, status);
    assert ops[..|ops| - 1] == started + FireOps(0, "c", tick);
    var rep := Replica(SEEDED.seed, map["c" := tick], [("c", tick)], Idle);
    assert SEEDED.anchors["c" := tick] == map["c" := tick] && SEEDED.fired + [("c", tick)] == [("c", tick)];
    assert [SEEDED, SEEDED][0 := rep] == [rep, SEEDED];
    var none: seq<Job> := [];
    assert none + [Job("c", tick, Queued)] == [Job("c", tick, Queued)];
    assert Run(next, covers, ops[..|ops| - 1]) == OnceFired(next, Queued);
  }

  /** Two replicas, the same anchor: the first's job reaches a status nobody checks, the second adds another. */
  lemma FinishedTickFiresAgain(next: Next, covers: set<Status>, status: Status)
    requires Proper(next) && status !in covers && Queued in covers
    ensures !OncePerTick(next, covers)
  {
    var tick := next("c", 0);
    var once := OnceFired(next, status);
    OnceRun(next, covers, status);
    RunSteps(next, covers, OnceOps(next, status), FireOps(1, "c", tick));
    assert !HasBlocking(once.jobs, "c", tick, covers);
    FireAdds(once, next, covers, 1, "c", tick);
    var jobs := Run(next, covers, OnceOps(next, status) + FireOps(1, "c", tick)).jobs;
    assert jobs[0].cron == jobs[1].cron && jobs[0].tick == jobs[1].tick;
    assert !Single(jobs);
  }

  lemma StartedTwo(next: Next, covers: set<Status>)
    ensures Run(next, covers, [StartOp({"c"}, 0), StartOp({"c"}, 0)]) == World([SEEDED, SEEDED], [])
  {
    var op := StartOp({"c"}, 0);
    RunSteps(next, covers, [], [op, op]);
    assert [] + [op, op] == [op, op];
    StepsMore(EMPTY, next, covers, [], op);
    StepsMore(EMPTY, next, covers, [] + [op], op);
    assert [] + [op] + [op] == [op, op];
    assert AnchorsAt({"c"}, 0) == map["c" := 0];
  }

  lemma InEvery(status: Status)
    ensures status in EVERY
  {
    match status { case Queued => case Running => case Succeeded => case Failed => case Cancelled => }
  }

  lemma Uncovered(covers: set<Status>) returns (status: Status)
    requires covers != EVERY
    ensures status !in covers
  {
    forall s | s in covers ensures s in EVERY { InEvery(s); }
    status :| status in EVERY && status !in covers;
  }

  /** A tick gets at most one job in every run exactly when the idempotency check looks at every status. */
  lemma OncePerTickIff(next: Next, covers: set<Status>)
    requires Proper(next) && Queued in covers
    ensures OncePerTick(next, covers) <==> covers == EVERY
  {
    if covers == EVERY {
      forall ops ensures Single(Run(next, covers, ops).jobs) {
        RunKeepsKeys(next, covers, ops);
        var jobs := Run(next, covers, ops).jobs;
        forall i, j | 0 <= i < j < |jobs| ensures !(jobs[i].cron == jobs[j].cron && jobs[i].tick == jobs[j].tick) {
          assert !SameKeyCovered(jobs[i], jobs[j], covers);
          InEvery(jobs[i].status);
          InEvery(jobs[j].status);
        }
      }
    } else {
      var status := Uncovered(covers);
      FinishedTickFiresAgain(next, covers, status);
    }
  }

  lemma SingleMore(jobs: seq<Job>, j: Job)
    requires Single(jobs)
    ensures Single(jobs + [j]) <==> !HasBlocking(jobs, j.cron, j.tick, EVERY)
  {
    var more := jobs + [j];
    if HasBlocking(jobs, j.cron, j.tick, EVERY) {
      var i :| 0 <= i < |jobs| && Blocks(jobs[i], j.cron, j.tick, EVERY);
      assert more[i] == jobs[i] && more[|jobs|] == j;
    } else {
      forall i, k | 0 <= i < k < |more| ensures !(more[i].cron == more[k].cron && more[i].tick == more[k].tick) {
        InEvery(jobs[i].status);
        assert !Blocks(jobs[i], j.cron, j.tick, EVERY);
      }
    }
  }

  /**
   The guard of the code as written. A replica that holds the lock for a tick, with no unfinished job of it and nobody
   else's insert pending: the enqueue and its commit keep one job per tick if and only if the tick has no job at all.
   */
  lemma EnqueueOnceIff(w: World, covers: set<Status>, r: nat, c: Name, tick: int)
    requires r < |w.replicas| && w.replicas[r].phase == Locked(c, tick) && Single(w.jobs)
    requires !HasBlocking(w.jobs, c, tick, covers) && !OtherPending(w, r, c, tick)
    ensures Single(Commit(Unlock(Enqueue(w, covers, r), r), r).jobs) <==> !HasBlocking(w.jobs, c, tick, EVERY)
  {
    SingleMore(w.jobs, Job(c, tick, Queued));
    assert Enqueue(w, covers, r) == SetPhase(w, r, Entered(c, tick, true));
  }

  /** The step commits a job for a tick that already has one. */
  ghost predicate Repeats(w: World, op: Op) {
    && op.CommitOp? && op.r < |w.replicas| && w.replicas[op.r].phase.Unlocked? && w.replicas[op.r].phase.isNew
    && HasBlocking(w.jobs, w.replicas[op.r].phase.cron, w.replicas[op.r].phase.tick, EVERY)
  }

  lemma SingleStepIff(next: Next, covers: set<Status>, w: World, op: Op)
    ensures Single(Step(w, next, covers, op).jobs) <==> Single(w.jobs) && !Repeats(w, op)
  {
    var v := Step(w, next, covers, op);
    match op {
      case CommitOp(r) =>
        if r < |w.replicas| && w.replicas[r].phase.Unlocked? && w.replicas[r].phase.isNew {
          var j := Job(w.replicas[r].phase.cron, w.replicas[r].phase.tick, Queued);
          assert v.jobs == w.jobs + [j];
          if Single(w.jobs) {
            SingleMore(w.jobs, j);
          } else {
            SingleFront(w.jobs, j);
          }
        }
      case StatusOp(i, status) =>
        assert |v.jobs| == |w.jobs| && forall k | 0 <= k < |w.jobs| ::
          v.jobs[k].cron == w.jobs[k].cron && v.jobs[k].tick == w.jobs[k].tick;
      case _ => assert v.jobs == w.jobs;
    }
  }

  lemma SingleFront(jobs: seq<Job>, j: Job)
    ensures Single(jobs + [j]) ==> Single(jobs)
  {
    var more := jobs + [j];
    assert forall i | 0 <= i < |jobs| :: more[i] == jobs[i];
  }

  ghost predicate RepeatsAt(next: Next, covers: set<Status>, ops: seq<Op>, k: int) {
    0 <= k < |ops| && Repeats(Run(next, covers, ops[..k]), ops[k])
  }

  ghost predicate AnyRepeat(next: Next, covers: set<Status>, ops: seq<Op>) {
    exists k :: RepeatsAt(next, covers, ops, k)
  }

  lemma AnyRepeatMore(next: Next, covers: set<Status>, ops: seq<Op>)
    requires ops != []
    ensures var front := ops[..|ops| - 1];
      AnyRepeat(next, covers, ops) <==>
        AnyRepeat(next, covers, front) || Repeats(Run(next, covers, front), ops[|front|])
  {
    var front := ops[..|ops| - 1];
    forall k | 0 <= k < |front| ensures RepeatsAt(next, covers, ops, k) == RepeatsAt(next, covers, front, k) {
      assert front[..k] == ops[..k];
    }
    assert RepeatsAt(next, covers, ops, |front|) == Repeats(Run(next, covers, front), ops[|front|]);
    if AnyRepeat(next, covers, ops) {
      var k :| RepeatsAt(next, covers, ops, k);
      assert k < |front| ==> RepeatsAt(next, covers, front, k);
    }
    if AnyRepeat(next, covers, front) {
      var k :| RepeatsAt(next, covers, front, k);
      assert RepeatsAt(next, covers, ops, k);
    }
  }

  lemma {:induction false} SingleUntilRepeat(next: Next, covers: set<Status>, ops: seq<Op>)
    ensures Single(Run(next, covers, ops).jobs) <==> !AnyRepeat(next, covers, ops)
  {
    if ops != [] {
      var front := ops[..|ops| - 1];
      SingleUntilRepeat(next, covers, front);
      AnyRepeatMore(next, covers, ops);
      SingleStepIff(next, covers, Run(next, covers, front), ops[|front|]);
    }
  }

  /**
   While an insert of a tick is pending nobody else adds a job of that tick, so whether the commit will be a repeat is
   settled when the enqueue goes through.
   */
  lemma PendingKeepsGuard(next: Next, covers: set<Status>, w: World, op: Op, r: nat, c: Name, tick: int)
    requires KeysKept(w, covers) && r < |w.replicas| && Pending(w.replicas[r].phase, c, tick) && op != CommitOp(r)
    ensures HasBlocking(Step(w, next, covers, op).jobs, c, tick, EVERY) <==> HasBlocking(w.jobs, c, tick, EVERY)
  {
    var v := Step(w, next, covers, op);
    match op {
      case CommitOp(q) =>
        if q < |w.replicas| && w.replicas[q].phase.Unlocked? && w.replicas[q].phase.isNew {
          var p := w.replicas[q].phase;
          assert if q < r then !BothPending(p, w.replicas[r].phase) else !BothPending(w.replicas[r].phase, p);
          assert v.jobs == w.jobs + [Job(p.cron, p.tick, Queued)];
          SameBlocking(w.jobs, Job(p.cron, p.tick, Queued), c, tick);
        }
      case StatusOp(i, status) =>
        forall k | 0 <= k < |w.jobs| ensures Blocks(v.jobs[k], c, tick, EVERY) == Blocks(w.jobs[k], c, tick, EVERY) {
          InEvery(v.jobs[k].status);
          InEvery(w.jobs[k].status);
        }
        assert |v.jobs| == |w.jobs|;
      case _ => assert v.jobs == w.jobs;
    }
  }

  lemma SameBlocking(jobs: seq<Job>, j: Job, c: Name, tick: int)
    requires !(j.cron == c && j.tick == tick)
    ensures HasBlocking(jobs + [j], c, tick, EVERY) <==> HasBlocking(jobs, c, tick, EVERY)
  {
    var more := jobs + [j];
    assert forall i | 0 <= i < |jobs| :: more[i] == jobs[i];
    assert !Blocks(j, c, tick, EVERY);
    if HasBlocking(jobs, c, tick, EVERY) {
      var i :| 0 <= i < |jobs| && Blocks(jobs[i], c, tick, EVERY);
      assert Blocks(more[i], c, tick, EVERY);
    }
  }

  // ---------- the guard, in any run ----------

  /** The step puts in a new job of the tick: no covered job of it blocks, and nobody else's insert is pending. */
  ghost predicate Inserts(w: World, covers: set<Status>, op: Op, r: nat, c: Name, tick: int) {
    && r < |w.replicas| && !HasBlocking(w.jobs, c, tick, covers) && !OtherPending(w, r, c, tick)
    && ((op == EnqueueOp(r) && w.replicas[r].phase == Locked(c, tick)) ||
        (op == ResolveOp(r) && w.replicas[r].phase == Waiting(c, tick)))
  }

  ghost predicate PendingAt(w: World, r: nat, c: Name, tick: int) {
    r < |w.replicas| && Pending(w.replicas[r].phase, c, tick)
  }

  /** The worlds a run passes through. */
  function Trace(next: Next, covers: set<Status>, ops: seq<Op>): seq<World> {
    seq(|ops| + 1, i requires 0 <= i <= |ops| => Run(next, covers, ops[..i]))
  }

  /** The guard: at step `k` a job is put in for a tick that has one, which has finished by then. */
  ghost predicate InsertsOver(trace: seq<World>, covers: set<Status>, ops: seq<Op>, k: nat, r: nat, c: Name,
                              tick: int)
  {
    && k < |ops| < |trace| && Inserts(trace[k], covers, ops[k], r, c, tick)
    && HasBlocking(trace[k].jobs, c, tick, EVERY)
  }

  /** The transaction of an insert at step `k` commits at step `m`. */
  ghost predicate CommitsAt(trace: seq<World>, ops: seq<Op>, k: nat, m: nat, r: nat, c: Name, tick: int) {
    && k < m < |ops| < |trace| && ops[m] == CommitOp(r)
    && (forall i | k < i <= m :: PendingAt(trace[i], r, c, tick))
    && r < |trace[m].replicas| && trace[m].replicas[r].phase == Unlocked(c, tick, true)
  }

  ghost predicate FiresAgain(next: Next, covers: set<Status>, ops: seq<Op>) {
    var trace := Trace(next, covers, ops);
    exists k: nat, m: nat, r: nat, c, tick ::
      InsertsOver(trace, covers, ops, k, r, c, tick) && CommitsAt(trace, ops, k, m, r, c, tick)
  }

  ghost predicate StepAt(next: Next, covers: set<Status>, trace: seq<World>, ops: seq<Op>, i: nat)
    requires i + 1 < |trace| && i < |ops|
  {
    trace[i + 1] == Step(trace[i], next, covers, ops[i]) && KeysKept(trace[i], covers)
  }

  ghost predicate Linked(next: Next, covers: set<Status>, trace: seq<World>, ops: seq<Op>) {
    && |trace| == |ops| + 1 && trace[0] == EMPTY
    && (forall i | 0 <= i < |ops| :: StepAt(next, covers, trace, ops, i))
  }

  lemma TraceIsLinked(next: Next, covers: set<Status>, ops: seq<Op>)
    ensures Linked(next, covers, Trace(next, covers, ops), ops)
  {
    var trace := Trace(next, covers, ops);
    assert ops[..0] == [];
    forall i | 0 <= i < |ops| ensures StepAt(next, covers, trace, ops, i) {
      assert ops[..i + 1][..i] == ops[..i];
      RunKeepsKeys(next, covers, ops[..i]);
    }
  }

  /** An insert becomes pending by a step of its own replica only. */
  lemma PendingComes(next: Next, covers: set<Status>, w: World, op: Op, r: nat, c: Name, tick: int)
    requires PendingAt(Step(w, next, covers, op), r, c, tick) && !PendingAt(w, r, c, tick)
    ensures Inserts(w, covers, op, r, c, tick)
  {
    match op {
      case EnqueueOp(q) =>
      case ResolveOp(q) =>
      case UnlockOp(q) =>
      case _ =>
    }
  }

  lemma PendingStarts(next: Next, covers: set<Status>, trace: seq<World>, ops: seq<Op>, i: nat, r: nat, c: Name,
                      tick: int)
    requires Linked(next, covers, trace, ops) && i < |ops|
    requires PendingAt(trace[i + 1], r, c, tick) && !PendingAt(trace[i], r, c, tick)
    ensures Inserts(trace[i], covers, ops[i], r, c, tick)
  {
    assert StepAt(next, covers, trace, ops, i);
    PendingComes(next, covers, trace[i], ops[i], r, c, tick);
  }

  /** So a pending insert goes back to the step that made it. */
  lemma {:induction false} InsertBefore(next: Next, covers: set<Status>, trace: seq<World>, ops: seq<Op>, m: nat,
                                        r: nat, c: Name, tick: int) returns (k: nat)
    requires Linked(next, covers, trace, ops) && m <= |ops| && PendingAt(trace[m], r, c, tick)
    ensures k < m && Inserts(trace[k], covers, ops[k], r, c, tick)
    ensures forall i | k < i <= m :: PendingAt(trace[i], r, c, tick)
  {
    if PendingAt(trace[m - 1], r, c, tick) {
      k := InsertBefore(next, covers, trace, ops, m - 1, r, c, tick);
    } else {
      PendingStarts(next, covers, trace, ops, m - 1, r, c, tick);
      k := m - 1;
    }
  }

  lemma GuardStays(next: Next, covers: set<Status>, w: World, op: Op, r: nat, c: Name, tick: int)
    requires KeysKept(w, covers) && PendingAt(w, r, c, tick) && PendingAt(Step(w, next, covers, op), r, c, tick)
    ensures HasBlocking(Step(w, next, covers, op).jobs, c, tick, EVERY) <==> HasBlocking(w.jobs, c, tick, EVERY)
  {
    if op == CommitOp(r) {
      assert !w.replicas[r].phase.Unlocked?;
    } else {
      PendingKeepsGuard(next, covers, w, op, r, c, tick);
    }
  }

  lemma GuardNext(next: Next, covers: set<Status>, trace: seq<World>, ops: seq<Op>, i: nat, r: nat, c: Name, tick: int)
    requires Linked(next, covers, trace, ops) && i < |ops| && PendingAt(trace[i + 1], r, c, tick)
    requires PendingAt(trace[i], r, c, tick) || Inserts(trace[i], covers, ops[i], r, c, tick)
    ensures HasBlocking(trace[i + 1].jobs, c, tick, EVERY) <==> HasBlocking(trace[i].jobs, c, tick, EVERY)
  {
    assert StepAt(next, covers, trace, ops, i);
    if PendingAt(trace[i], r, c, tick) {
      GuardStays(next, covers, trace[i], ops[i], r, c, tick);
    }
  }

  /** From the insert to the commit the tick has a job, or has none, throughout. */
  lemma {:induction false} GuardHolds(next: Next, covers: set<Status>, trace: seq<World>, ops: seq<Op>, k: nat, m: nat,
                                      r: nat, c: Name, tick: int)
    requires Linked(next, covers, trace, ops) && k < m <= |ops| && Inserts(trace[k], covers, ops[k], r, c, tick)
    requires forall i | k < i <= m :: PendingAt(trace[i], r, c, tick)
    ensures HasBlocking(trace[m].jobs, c, tick, EVERY) <==> HasBlocking(trace[k].jobs, c, tick, EVERY)
  {
    GuardNext(next, covers, trace, ops, m - 1, r, c, tick);
    if k < m - 1 {
      GuardHolds(next, covers, trace, ops, k, m - 1, r, c, tick);
    }
  }

  lemma RepeatWasInserted(next: Next, covers: set<Status>, ops: seq<Op>)
    ensures AnyRepeat(next, covers, ops) ==> FiresAgain(next, covers, ops)
  {
    if AnyRepeat(next, covers, ops) {
      var m :| RepeatsAt(next, covers, ops, m);
      var trace := Trace(next, covers, ops);
      TraceIsLinked(next, covers, ops);
      var r := ops[m].r;
      var c, tick := trace[m].replicas[r].phase.cron, trace[m].replicas[r].phase.tick;
      var k := InsertBefore(next, covers, trace, ops, m, r, c, tick);
      GuardHolds(next, covers, trace, ops, k, m, r, c, tick);
      assert InsertsOver(trace, covers, ops, k, r, c, tick) && CommitsAt(trace, ops, k, m, r, c, tick);
    }
  }

  lemma InsertedIsRepeat(next: Next, covers: set<Status>, ops: seq<Op>)
    ensures FiresAgain(next, covers, ops) ==> AnyRepeat(next, covers, ops)
  {
    if FiresAgain(next, covers, ops) {
      var trace := Trace(next, covers, ops);
      TraceIsLinked(next, covers, ops);
      var k: nat, m: nat, r: nat, c, tick :|
        InsertsOver(trace, covers, ops, k, r, c, tick) && CommitsAt(trace, ops, k, m, r, c, tick);
      GuardHolds(next, covers, trace, ops, k, m, r, c, tick);
      assert RepeatsAt(next, covers, ops, m);
    }
  }

  /**
   In any run, every tick has one job at most if and only if no transaction commits whose enqueue went through, at its
   moment, although the tick already had a job.
   */
  lemma SingleRunIff(next: Next, covers: set<Status>, ops: seq<Op>)
    ensures Single(Run(next, covers, ops).jobs) <==> !FiresAgain(next, covers, ops)
  {
    SingleUntilRepeat(next, covers, ops);
    RepeatWasInserted(next, covers, ops);
    InsertedIsRepeat(next, covers, ops);
  }

  /** The check as written looks at unfinished jobs only. */
  lemma FinishedJobsAreForgotten(next: Next)
    requires Proper(next)
    ensures !OncePerTick(next, UNFINISHED)
  {
    OncePerTickIff(next, UNFINISHED);
    assert Succeeded !in UNFINISHED && Succeeded in EVERY;
  }

  // ---------- the lock, the jobs and the clock ----------

  /** Between lock and unlock of one cron there is one replica at most. */
  ghost predicate Exclusive(w: World) {
    forall q, r, c | 0 <= q < r < |w.replicas| ::
      !(HoldsLock(w.replicas[q].phase, c) && HoldsLock(w.replicas[r].phase, c))
  }

  lemma PhaseKeepsExclusive(w: World, r: nat, p: Phase)
    requires r < |w.replicas| && Exclusive(w)
    requires forall c | HoldsLock(p, c) :: HoldsLock(w.replicas[r].phase, c) || !OtherHolds(w, r, c)
    ensures Exclusive(SetPhase(w, r, p))
  {
    var v := SetPhase(w, r, p);
    forall i, j, c | 0 <= i < j < |v.replicas|
      ensures !(HoldsLock(v.replicas[i].phase, c) && HoldsLock(v.replicas[j].phase, c))
    {
      assert !(HoldsLock(w.replicas[i].phase, c) && HoldsLock(w.replicas[j].phase, c));
      if (i == r || j == r) && HoldsLock(p, c) && !HoldsLock(w.replicas[r].phase, c) {
        var other := if i == r then j else i;
        assert !HoldsLock(w.replicas[other].phase, c);
      }
    }
  }

  lemma StepKeepsExclusive(next: Next, covers: set<Status>, w: World, op: Op)
    requires Exclusive(w)
    ensures Exclusive(Step(w, next, covers, op))
  {
    match op {
      case StartOp(crons, now) =>
      case StatusOp(i, status) => assert Step(w, next, covers, op).replicas == w.replicas;
      case LockOp(r, c, now) =>
        if r < |w.replicas| && !OtherHolds(w, r, c) {
          PhaseKeepsExclusive(w, r, Locked(c, next(c, Anchor(w.replicas[r], c, now))));
        }
      case CommitOp(r) =>
        if r < |w.replicas| {
          PhaseKeepsExclusive(w, r, Idle);
          var v, mid := Commit(w, r), SetPhase(w, r, Idle);
          assert w.replicas[r].phase.Unlocked? ==>
              forall q | 0 <= q < |v.replicas| :: v.replicas[q].phase == mid.replicas[q].phase;
        }
      case _ =>
        if op.r < |w.replicas| {
          PhaseKeepsExclusive(w, op.r, Step(w, next, covers, op).replicas[op.r].phase);
        }
    }
  }

  /** In every run the lock of a cron is held by one replica at most. */
  lemma {:induction false} LockIsExclusive(next: Next, covers: set<Status>, ops: seq<Op>)
    ensures Exclusive(Run(next, covers, ops))
  {
    if ops != [] {
      LockIsExclusive(next, covers, ops[..|ops| - 1]);
      StepKeepsExclusive(next, covers, Run(next, covers, ops[..|ops| - 1]), ops[|ops| - 1]);
    }
  }

  predicate HasJob(jobs: seq<Job>, c: Name, tick: int) {
    exists i :: 0 <= i < |jobs| && jobs[i].cron == c && jobs[i].tick == tick
  }

  lemma HasJobStays(next: Next, covers: set<Status>, w: World, op: Op, c: Name, tick: int)
    requires HasJob(w.jobs, c, tick)
    ensures HasJob(Step(w, next, covers, op).jobs, c, tick)
  {
    var v := Step(w, next, covers, op);
    var i :| 0 <= i < |w.jobs| && w.jobs[i].cron == c && w.jobs[i].tick == tick;
    assert i < |v.jobs| && v.jobs[i].cron == c && v.jobs[i].tick == tick;
  }

  /** A tick is marked fired, or about to be without an insert, only when a job for it exists. */
  ghost predicate Backed(w: World, r: nat)
    requires r < |w.replicas|
  {
    var rep := w.replicas[r];
    && (forall i | 0 <= i < |rep.fired| :: HasJob(w.jobs, rep.fired[i].0, rep.fired[i].1))
    && ((rep.phase.Entered? || rep.phase.Unlocked?) && !rep.phase.isNew ==>
          HasJob(w.jobs, rep.phase.cron, rep.phase.tick))
  }

  lemma CommitKeepsBacked(next: Next, covers: set<Status>, w: World, r: nat)
    requires r < |w.replicas| && Backed(w, r) && w.replicas[r].phase.Unlocked?
    ensures Backed(Commit(w, r), r)
  {
    var p, v := w.replicas[r].phase, Commit(w, r);
    forall i | 0 <= i < |w.replicas[r].fired|
      ensures HasJob(v.jobs, w.replicas[r].fired[i].0, w.replicas[r].fired[i].1)
    {
      HasJobStays(next, covers, w, CommitOp(r), w.replicas[r].fired[i].0, w.replicas[r].fired[i].1);
    }
    if p.isNew {
      assert v.jobs[|w.jobs|] == Job(p.cron, p.tick, Queued);
    }
    assert HasJob(v.jobs, p.cron, p.tick);
  }

  lemma StepKeepsBacked(next: Next, covers: set<Status>, w: World, op: Op, r: nat)
    requires r < |w.replicas| && Backed(w, r)
    ensures r < |Step(w, next, covers, op).replicas| && Backed(Step(w, next, covers, op), r)
  {
    var v, rep := Step(w, next, covers, op), w.replicas[r];
    if op == CommitOp(r) && rep.phase.Unlocked? {
      CommitKeepsBacked(next, covers, w, r);
    } else {
      forall i | 0 <= i < |rep.fired| ensures HasJob(v.jobs, rep.fired[i].0, rep.fired[i].1) {
        HasJobStays(next, covers, w, op, rep.fired[i].0, rep.fired[i].1);
      }
      PhaseBacked(next, covers, w, op, r);
    }
  }

  lemma PhaseBacked(next: Next, covers: set<Status>, w: World, op: Op, r: nat)
    requires r < |w.replicas| && Backed(w, r) && !(op == CommitOp(r) && w.replicas[r].phase.Unlocked?)
    ensures var v := Step(w, next, covers, op);
      && r < |v.replicas| && v.replicas[r].fired == w.replicas[r].fired
      && var p := v.replicas[r].phase;
         (p.Entered? || p.Unlocked?) && !p.isNew ==> HasJob(v.jobs, p.cron, p.tick)
  {
    var v, p := Step(w, next, covers, op), w.replicas[r].phase;
    if (p.Entered? || p.Unlocked?) && !p.isNew {
      HasJobStays(next, covers, w, op, p.cron, p.tick);
    }
    if op == EnqueueOp(r) && p.Locked? && HasBlocking(w.jobs, p.cron, p.tick, covers) {
      assert HasJob(w.jobs, p.cron, p.tick);
    }
  }

  /** In every run, whatever a replica counts as fired has a job: no tick is skipped silently. */
  lemma {:induction false} FiredTicksHaveJobs(next: Next, covers: set<Status>, ops: seq<Op>, r: nat, c: Name, tick: int)
    requires r < |Run(next, covers, ops).replicas| && tick in TicksOf(Run(next, covers, ops).replicas[r].fired, c)
    ensures HasJob(Run(next, covers, ops).jobs, c, tick)
  {
    AllBacked(next, covers, ops, r);
    var i := FiredAt(Run(next, covers, ops).replicas[r].fired, c, tick);
  }

  lemma {:induction false} AllBacked(next: Next, covers: set<Status>, ops: seq<Op>, r: nat)
    requires r < |Run(next, covers, ops).replicas|
    ensures Backed(Run(next, covers, ops), r)
  {
    if ops != [] {
      var w := Run(next, covers, ops[..|ops| - 1]);
      if r < |w.replicas| {
        AllBacked(next, covers, ops[..|ops| - 1], r);
        StepKeepsBacked(next, covers, w, ops[|ops| - 1], r);
      }
    }
  }

  lemma {:induction false} FiredAt(fired: seq<(Name, int)>, c: Name, tick: int) returns (i: nat)
    requires tick in TicksOf(fired, c)
    ensures i < |fired| && fired[i] == (c, tick)
  {
    var last := |fired| - 1;
    if fired[last] == (c, tick) {
      i := last;
    } else {
      i := FiredAt(fired[..last], c, tick);
    }
  }

  /** When the transaction it waits for has inserted the tick, a replica rolls back: no job, and no anchor moves. */
  lemma LoserRollsBack(next: Next, w: World, r: nat, c: Name, tick: int)
    requires r < |w.replicas| && w.replicas[r].phase == Waiting(c, tick)
    ensures var v := Step(w, next, UNFINISHED, ResolveOp(r));
      && v.jobs == w.jobs && |v.replicas| == |w.replicas|
      && v.replicas[r].(phase := Idle) == w.replicas[r].(phase := Idle)
      && v.replicas[r].phase ==
           if exists q :: 0 <= q < |w.replicas| && q != r && Pending(w.replicas[q].phase, c, tick) then Waiting(c, tick)
           else if exists i :: 0 <= i < |w.jobs| && w.jobs[i].cron == c && w.jobs[i].tick == tick &&
                               (w.jobs[i].status == Queued || w.jobs[i].status == Running) then Idle
           else Entered(c, tick, true)
  {
    assert HasBlocking(w.jobs, c, tick, UNFINISHED) <==>
        exists i :: 0 <= i < |w.jobs| && w.jobs[i].cron == c && w.jobs[i].tick == tick &&
                    (w.jobs[i].status == Queued || w.jobs[i].status == Running) by {
      if HasBlocking(w.jobs, c, tick, UNFINISHED) {
        var i :| 0 <= i < |w.jobs| && Blocks(w.jobs[i], c, tick, UNFINISHED);
        assert w.jobs[i].cron == c;
      }
      if exists i :: 0 <= i < |w.jobs| && w.jobs[i].cron == c && w.jobs[i].tick == tick &&
                     (w.jobs[i].status == Queued || w.jobs[i].status == Running) {
        var i :| 0 <= i < |w.jobs| && w.jobs[i].cron == c && w.jobs[i].tick == tick &&
                 (w.jobs[i].status == Queued || w.jobs[i].status == Running);
        assert Blocks(w.jobs[i], c, tick, UNFINISHED);
      }
    }
  }

  /** An attempt that fails leaves its anchor, its history and the jobs as they were, and its lock free. */
  lemma FailureLeavesNothing(next: Next, covers: set<Status>, w: World, r: nat)
    requires r < |w.replicas|
    ensures var v := Step(w, next, covers, FailOp(r));
      && v.jobs == w.jobs && v.replicas == w.replicas[r := w.replicas[r].(phase := Idle)]
      && forall c :: !HoldsLock(v.replicas[r].phase, c)
  {
  }

  /** A replica starts with every cron it knows anchored at the present, so nothing that came due before is fired. */
  lemma StartsAtPresent(next: Next, covers: set<Status>, w: World, crons: set<Name>, now: int)
    ensures var v := Step(w, next, covers, StartOp(crons, now));
      && v.jobs == w.jobs && |v.replicas| == |w.replicas| + 1 && v.replicas[..|w.replicas|] == w.replicas
      && var rep := v.replicas[|w.replicas|];
         && rep.seed == rep.anchors && rep.fired == [] && rep.phase == Idle && rep.anchors.Keys == crons
         && forall c | c in crons :: rep.anchors[c] == now
  {
  }

  /** The replica tried the tick at a moment when it was due. */
  ghost predicate WasDue(ops: seq<Op>, r: nat, c: Name, tick: int) {
    exists i, now :: 0 <= i < |ops| && ops[i] == LockOp(r, c, now) && tick <= now
  }

  lemma WasDueStays(ops: seq<Op>, r: nat, c: Name, tick: int)
    requires ops != [] && WasDue(ops[..|ops| - 1], r, c, tick)
    ensures WasDue(ops, r, c, tick)
  {
    var i, now :| 0 <= i < |ops[..|ops| - 1]| && ops[..|ops| - 1][i] == LockOp(r, c, now) && tick <= now;
    assert ops[i] == LockOp(r, c, now);
  }

  ghost predicate AllWereDue(ops: seq<Op>, r: nat, rep: Replica) {
    && (forall i | 0 <= i < |rep.fired| :: WasDue(ops, r, rep.fired[i].0, rep.fired[i].1))
    && (!rep.phase.Idle? ==> WasDue(ops, r, rep.phase.cron, rep.phase.tick))
  }

  /** In every run nothing is fired before its time. */
  lemma {:induction false} NothingFiresEarly(next: Next, covers: set<Status>, ops: seq<Op>, r: nat)
    requires r < |Run(next, covers, ops).replicas|
    ensures AllWereDue(ops, r, Run(next, covers, ops).replicas[r])
  {
    if ops != [] {
      var front, op := ops[..|ops| - 1], ops[|ops| - 1];
      var w := Run(next, covers, front);
      if r < |w.replicas| {
        NothingFiresEarly(next, covers, front, r);
        OneMoreDue(next, covers, w, ops, r);
      }
    }
  }

  lemma OneMoreDue(next: Next, covers: set<Status>, w: World, ops: seq<Op>, r: nat)
    requires ops != [] && r < |w.replicas| && AllWereDue(ops[..|ops| - 1], r, w.replicas[r])
    ensures var v := Step(w, next, covers, ops[|ops| - 1]); r < |v.replicas| && AllWereDue(ops, r, v.replicas[r])
  {
    var op, rep := ops[|ops| - 1], w.replicas[r];
    var after := Step(w, next, covers, op).replicas[r];
    forall i | 0 <= i < |rep.fired| ensures WasDue(ops, r, rep.fired[i].0, rep.fired[i].1) {
      WasDueStays(ops, r, rep.fired[i].0, rep.fired[i].1);
    }
    if !rep.phase.Idle? {
      WasDueStays(ops, r, rep.phase.cron, rep.phase.tick);
    } else if op.LockOp? && op.r == r && !after.phase.Idle? {
      assert ops[|ops| - 1] == LockOp(r, after.phase.cron, op.now);
    }
  }

  // ---------- one replica's loop ----------

  /** What one pass does to the anchors: `answers` says which turns fired. */
  function Passed(lastFire: map<Name, int>, next: Next, crons: seq<Name>, now: int, answers: seq<bool>): map<Name, int>
    requires |answers| == |crons|
  {
    if crons == [] then lastFire
    else
      var last := |crons| - 1;
      var before := Passed(lastFire, next, crons[..last], now, answers[..last]);
      var c := crons[last];
      var tick := next(c, if c in before then before[c] else now);
      if tick <= now && answers[last] then before[c := tick] else before
  }

  /** An anchor moves by one tick at most, to a tick that is due; unknown crons stay unknown. */
  lemma {:induction false} PassAdvances(lastFire: map<Name, int>, next: Next, crons: seq<Name>, now: int,
                                        answers: seq<bool>, c: Name)
    requires |answers| == |crons| && Proper(next) && forall i, j | 0 <= i < j < |crons| :: crons[i] != crons[j]
    ensures var after := Passed(lastFire, next, crons, now, answers);
      && (c in after <==> c in lastFire)
      && (c in lastFire ==>
            after[c] == lastFire[c] || (after[c] == next(c, lastFire[c]) && after[c] <= now && c in crons))
      && (c in lastFire && c !in crons ==> after[c] == lastFire[c])
  {
    if crons != [] {
      var last := |crons| - 1;
      var before := Passed(lastFire, next, crons[..last], now, answers[..last]);
      assert crons == crons[..last] + [crons[last]];
      assert crons[last] !in crons[..last];
      PassAdvances(lastFire, next, crons[..last], now, answers[..last], c);
      assert c !in before ==> next(c, now) > now;
    }
  }

  // ---------- a pass is a turn of each cron ----------

  /** What a turn leaves of the replica: nothing moved, or its tick was fired and committed. */
  ghost predicate TurnKept(next: Next, was: Replica, c: Name, now: int, rep: Replica) {
    var tick := next(c, Anchor(was, c, now));
    || (rep.anchors == was.anchors && rep.fired == was.fired &&
        (rep.phase.Idle? || (tick <= now && rep.phase.cron == c && rep.phase.tick == tick)))
    || (tick <= now && rep.phase.Idle? && rep.anchors == was.anchors[c := tick] && rep.fired == was.fired + [(c, tick)])
  }

  predicate IdleAt(w: World, r: nat) { r < |w.replicas| && w.replicas[r].phase.Idle? }

  predicate LocksFor(op: Op, r: nat) { op.LockOp? && op.r == r }

  predicate NoLockFor(rest: seq<Op>, r: nat) {
    forall i | 0 <= i < |rest| :: !LocksFor(rest[i], r)
  }

  lemma StepKeepsTurn(next: Next, covers: set<Status>, w: World, op: Op, r: nat, was: Replica, c: Name, now: int)
    requires r < |w.replicas| && TurnKept(next, was, c, now, w.replicas[r]) && !LocksFor(op, r)
    ensures r < |Step(w, next, covers, op).replicas| &&
      TurnKept(next, was, c, now, Step(w, next, covers, op).replicas[r])
  {
  }

  lemma {:induction false} TurnIsKept(next: Next, covers: set<Status>, w: World, r: nat, c: Name, now: int,
                                      rest: seq<Op>)
    requires IdleAt(w, r) && NoLockFor(rest, r)
    ensures var v := Steps(TryLock(w, next, r, c, now), next, covers, rest);
      r < |v.replicas| && TurnKept(next, w.replicas[r], c, now, v.replicas[r])
  {
    if rest != [] {
      TurnIsKept(next, covers, w, r, c, now, rest[..|rest| - 1]);
      StepKeepsTurn(next, covers, Steps(TryLock(w, next, r, c, now), next, covers, rest[..|rest| - 1]),
        rest[|rest| - 1],
                    r, w.replicas[r], c, now);
    }
  }

  /** The worlds of a pass: each cron in turn tries the lock, then anything happens, `rests`, until its turn is over. */
  function Turns(w: World, next: Next, covers: set<Status>, r: nat, crons: seq<Name>, now: int,
                 rests: seq<seq<Op>>): World
    requires |rests| == |crons|
  {
    if crons == [] then w
    else
      var last := |crons| - 1;
      var before := Turns(w, next, covers, r, crons[..last], now, rests[..last]);
      Steps(if r < |before.replicas| then TryLock(before, next, r, crons[last], now) else before,
            next, covers, rests[last])
  }

  /** The pass begins idle, every turn ends idle, and nothing else locks for this replica meanwhile. */
  ghost predicate ProperTurns(w: World, next: Next, covers: set<Status>, r: nat, crons: seq<Name>, now: int,
                              rests: seq<seq<Op>>)
    requires |rests| == |crons|
  {
    && IdleAt(Turns(w, next, covers, r, crons, now, rests), r)
    && (crons != [] ==>
          && ProperTurns(w, next, covers, r, crons[..|crons| - 1], now, rests[..|crons| - 1])
          && NoLockFor(rests[|crons| - 1], r))
  }

  lemma PassedMore(was: map<Name, int>, next: Next, crons: seq<Name>, now: int, answers: seq<bool>, fired: bool)
    requires |crons| == |answers| + 1
    ensures var before := Passed(was, next, crons[..|answers|], now, answers);
      var c := crons[|answers|];
      var tick := next(c, if c in before then before[c] else now);
      Passed(was, next, crons, now, answers + [fired]) == if tick <= now && fired then before[c := tick] else before
  {
    assert (answers + [fired])[..|answers|] == answers;
  }

  /** The anchors a pass leaves in the shared world are those the loop computes, for the answers its turns got. */
  lemma {:induction false} PassIsTurns(w: World, next: Next, covers: set<Status>, r: nat, crons: seq<Name>, now: int,
                                       rests: seq<seq<Op>>)
    returns (answers: seq<bool>)
    requires |rests| == |crons| && r < |w.replicas| && ProperTurns(w, next, covers, r, crons, now, rests)
    ensures |answers| == |crons|
    ensures var v := Turns(w, next, covers, r, crons, now, rests);
      r < |v.replicas| && v.replicas[r].anchors == Passed(w.replicas[r].anchors, next, crons, now, answers)
  {
    answers := [];
    if crons != [] {
      var last := |crons| - 1;
      assert ProperTurns(w, next, covers, r, crons[..last], now, rests[..last]);
      answers := PassIsTurns(w, next, covers, r, crons[..last], now, rests[..last]);
      var before := Turns(w, next, covers, r, crons[..last], now, rests[..last]);
      TurnIsKept(next, covers, before, r, crons[last], now, rests[last]);
      var after := Turns(w, next, covers, r, crons, now, rests);
      var fired := after.replicas[r].anchors != before.replicas[r].anchors;
      PassedMore(w.replicas[r].anchors, next, crons, now, answers, fired);
      answers := answers + [fired];
    }
  }
}
