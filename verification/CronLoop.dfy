/**
 The scheduler's own loops, between their suspension points. A loop sleeps after each pass and waits for every attempt
 to fire; `stop` only clears a flag, which a loop reads when it wakes from its sleep.
 */
module CronLoop {
  import opened Cron

  // Trying: waits for the attempt at `tick`, with the crons of `rest` still to come in this pass.
  datatype Loop = Sleeping | Trying(now: int, cron: Name, tick: int, rest: seq<Name>) | Ended

  // Each start adds a loop; starts share the anchors and the flag.
  datatype Sched = Sched(running: bool, lastFire: map<Name, int>, loops: seq<Loop>)

  const INIT := Sched(false, map[], [])

  datatype SchedOp =
    | BeginOp(crons: seq<Name>, seedTime: int, now: int)
    | WakeOp(k: nat, crons: seq<Name>, now: int)
    | AnswerOp(k: nat, fired: bool)
    | StopOp

  function Seeded(lastFire: map<Name, int>, crons: seq<Name>, now: int): map<Name, int> {
    lastFire + map c | c in crons && c !in lastFire :: now
  }

  lemma SeededMore(lastFire: map<Name, int>, crons: seq<Name>, c: Name, now: int)
    ensures var before := Seeded(lastFire, crons, now);
      Seeded(lastFire, crons + [c], now) == if c in before then before else before[c := now]
  {
  }

  function DueTick(lastFire: map<Name, int>, next: Next, c: Name, now: int): int {
    next(c, if c in lastFire then lastFire[c] else now)
  }

  /** The pass goes on to the first cron that is due, or to sleep. */
  function Advance(lastFire: map<Name, int>, next: Next, now: int, rest: seq<Name>): Loop {
    if rest == [] then Sleeping
    else
      var tick := DueTick(lastFire, next, rest[0], now);
      if tick <= now then Trying(now, rest[0], tick, rest[1..]) else Advance(lastFire, next, now, rest[1..])
  }

  function SchedStep(s: Sched, next: Next, op: SchedOp): Sched {
    match op
    case BeginOp(crons, seedTime, now) =>
      var lastFire := Seeded(s.lastFire, crons, seedTime);
      Sched(true, lastFire, s.loops + [Advance(lastFire, next, now, crons)])
    case WakeOp(k, crons, now) =>
      if k >= |s.loops| || !s.loops[k].Sleeping? then s
      else s.(loops := s.loops[k := if s.running then Advance(s.lastFire, next, now, crons) else Ended])
    case AnswerOp(k, fired) =>
      if k >= |s.loops| || !s.loops[k].Trying? then s
      else
        var loop := s.loops[k];
        var lastFire := if fired then s.lastFire[loop.cron := loop.tick] else s.lastFire;
        s.(lastFire := lastFire, loops := s.loops[k := Advance(lastFire, next, loop.now, loop.rest)])
    case StopOp => s.(running := false)
  }

  function SchedRun(s: Sched, next: Next, ops: seq<SchedOp>): Sched {
    if ops == [] then s else SchedStep(SchedRun(s, next, ops[..|ops| - 1]), next, ops[|ops| - 1])
  }

  lemma SchedRunMore(s: Sched, next: Next, ops: seq<SchedOp>, op: SchedOp)
    ensures SchedRun(s, next, ops + [op]) == SchedStep(SchedRun(s, next, ops), next, op)
  {
    assert (ops + [op])[..|ops|] == ops;
  }

  lemma {:induction false} SchedRunSplit(s: Sched, next: Next, a: seq<SchedOp>, b: seq<SchedOp>)
    ensures SchedRun(s, next, a + b) == SchedRun(SchedRun(s, next, a), next, b)
  {
    if b == [] {
      assert a + b == a;
    } else {
      var front, op := b[..|b| - 1], b[|b| - 1];
      SchedRunSplit(s, next, a, front);
      SchedRunMore(s, next, a + front, op);
      SchedRunMore(SchedRun(s, next, a), next, front, op);
      assert b == front + [op] && a + b == (a + front) + [op];
    }
  }

  // ---------- a pass with nothing in between ----------

  /** The answers a pass gets, one for each cron that is due. */
  function Answers(lastFire: map<Name, int>, next: Next, now: int, rest: seq<Name>, fired: seq<bool>, k: nat):
    seq<SchedOp>
    requires |fired| == |rest|
    decreases |rest|
  {
    if rest == [] then []
    else
      var tick := DueTick(lastFire, next, rest[0], now);
      if tick > now then Answers(lastFire, next, now, rest[1..], fired[1..], k)
      else
        [AnswerOp(k, fired[0])] +
        Answers(if fired[0] then lastFire[rest[0] := tick] else lastFire, next, now, rest[1..], fired[1..], k)
  }

  lemma {:induction false} PassedFirst(lastFire: map<Name, int>, next: Next, crons: seq<Name>, now: int,
                                       fired: seq<bool>)
    requires |fired| == |crons| > 0
    ensures var tick := DueTick(lastFire, next, crons[0], now);
      Passed(lastFire, next, crons, now, fired) ==
      Passed(if tick <= now && fired[0] then lastFire[crons[0] := tick] else lastFire,
             next, crons[1..], now, fired[1..])
  {
    var last := |crons| - 1;
    if last > 0 {
      PassedFirst(lastFire, next, crons[..last], now, fired[..last]);
      assert crons[..last][1..] == crons[1..][..last - 1] && fired[..last][1..] == fired[1..][..last - 1];
    } else {
      assert crons[..0] == [] && fired[..0] == [];
    }
  }

  lemma {:induction false} AnswersPass(s: Sched, next: Next, now: int, rest: seq<Name>, fired: seq<bool>, k: nat)
    requires |fired| == |rest| && k < |s.loops| && s.loops[k] == Advance(s.lastFire, next, now, rest)
    ensures SchedRun(s, next, Answers(s.lastFire, next, now, rest, fired, k)) ==
            s.(lastFire := Passed(s.lastFire, next, rest, now, fired), loops := s.loops[k := Sleeping])
    decreases |rest|
  {
    if rest == [] {
      assert s.loops[k := Sleeping] == s.loops;
    } else {
      PassedFirst(s.lastFire, next, rest, now, fired);
      if DueTick(s.lastFire, next, rest[0], now) > now {
        AnswersPass(s, next, now, rest[1..], fired[1..], k);
      } else {
        var op := AnswerOp(k, fired[0]);
        var mid := SchedStep(s, next, op);
        SchedRunMore(s, next, [], op);
        assert [] + [op] == [op];
        AnswersPass(mid, next, now, rest[1..], fired[1..], k);
        SchedRunSplit(s, next, [op], Answers(mid.lastFire, next, now, rest[1..], fired[1..], k));
        assert mid.loops[k := Sleeping] == s.loops[k := Sleeping];
      }
    }
  }

  function PassOps(lastFire: map<Name, int>, next: Next, crons: seq<Name>, now: int, fired: seq<bool>, k: nat):
    seq<SchedOp>
    requires |fired| == |crons|
  {
    [WakeOp(k, crons, now)] + Answers(lastFire, next, now, crons, fired, k)
  }

  /** A pass that nothing interrupts moves the anchors as `Passed` says, and its loop sleeps again. */
  lemma PassIsPassed(s: Sched, next: Next, crons: seq<Name>, now: int, fired: seq<bool>, k: nat)
    requires |fired| == |crons| && k < |s.loops| && s.loops[k].Sleeping? && s.running
    ensures SchedRun(s, next, PassOps(s.lastFire, next, crons, now, fired, k)) ==
            s.(lastFire := Passed(s.lastFire, next, crons, now, fired))
  {
    var wake := WakeOp(k, crons, now);
    SchedRunSplit(s, next, [wake], Answers(s.lastFire, next, now, crons, fired, k));
    SchedRunMore(s, next, [], wake);
    assert [] + [wake] == [wake];
    var woken := SchedStep(s, next, wake);
    AnswersPass(woken, next, now, crons, fired, k);
    assert woken.loops[k := Sleeping] == s.loops;
  }

  // ---------- after a stop ----------

  /** The crons a loop has still to settle in its pass. */
  function Left(loop: Loop): seq<Name> { if loop.Trying? then [loop.cron] + loop.rest else [] }

  predicate Suffix(a: seq<Name>, b: seq<Name>) {
    a == b || (b != [] && Suffix(a, b[1..]))
  }

  lemma {:induction false} SuffixChain(a: seq<Name>, b: seq<Name>, c: seq<Name>)
    requires Suffix(a, b) && Suffix(b, c)
    ensures Suffix(a, c)
  {
    if b != c {
      SuffixChain(a, b, c[1..]);
    }
  }

  lemma {:induction false} SuffixHolds(a: seq<Name>, b: seq<Name>, c: Name)
    requires Suffix(a, b) && c in a
    ensures c in b
  {
    if a != b {
      SuffixHolds(a, b[1..], c);
    }
  }

  lemma {:induction false} EmptySuffix(b: seq<Name>)
    ensures Suffix([], b)
  {
    if b != [] {
      EmptySuffix(b[1..]);
    }
  }

  /** What is tried is due. */
  predicate Due(loop: Loop) { loop.Trying? ==> loop.tick <= loop.now }

  lemma {:induction false} AdvanceLeaves(lastFire: map<Name, int>, next: Next, now: int, rest: seq<Name>)
    ensures var loop := Advance(lastFire, next, now, rest);
      && Due(loop) && !loop.Ended? && Suffix(Left(loop), rest) && (loop.Trying? ==> loop.now == now)
  {
    if rest != [] {
      AdvanceLeaves(lastFire, next, now, rest[1..]);
      assert [rest[0]] + rest[1..] == rest;
    }
  }

  predicate AllDue(s: Sched) {
    forall k | 0 <= k < |s.loops| :: Due(s.loops[k])
  }

  lemma StepKeepsDue(s: Sched, next: Next, op: SchedOp)
    requires AllDue(s)
    ensures AllDue(SchedStep(s, next, op))
  {
    match op {
      case BeginOp(crons, seedTime, now) => AdvanceLeaves(Seeded(s.lastFire, crons, seedTime), next, now, crons);
      case WakeOp(k, crons, now) => AdvanceLeaves(s.lastFire, next, now, crons);
      case AnswerOp(k, fired) =>
        if k < |s.loops| && s.loops[k].Trying? {
          AdvanceLeaves(SchedStep(s, next, op).lastFire, next, s.loops[k].now, s.loops[k].rest);
        }
      case StopOp =>
    }
  }

  lemma {:induction false} RunKeepsDue(s: Sched, next: Next, ops: seq<SchedOp>)
    requires AllDue(s)
    ensures AllDue(SchedRun(s, next, ops))
  {
    if ops != [] {
      RunKeepsDue(s, next, ops[..|ops| - 1]);
      StepKeepsDue(SchedRun(s, next, ops[..|ops| - 1]), next, ops[|ops| - 1]);
    }
  }

  /** The loop is in the pass it was in, no further back, or out of it; a loop that was in none is in none. */
  predicate Finishing(was: Loop, loop: Loop) {
    && Suffix(Left(loop), Left(was)) && (loop.Trying? ==> was.Trying? && loop.now == was.now)
    && (was.Ended? ==> loop.Ended?)
  }

  /** The anchor of `c` is what it was, or a tick due at a pass that was under way with `c` still to come. */
  ghost predicate AnchorFinishing(s: Sched, r: Sched, c: Name) {
    || ((c in r.lastFire <==> c in s.lastFire) && (c in s.lastFire ==> r.lastFire[c] == s.lastFire[c]))
    || exists k :: 0 <= k < |s.loops| && c in Left(s.loops[k]) && c in r.lastFire && r.lastFire[c] <= s.loops[k].now
  }

  ghost predicate AllFinishing(s: Sched, r: Sched) {
    |r.loops| == |s.loops| && forall k | 0 <= k < |s.loops| :: Finishing(s.loops[k], r.loops[k])
  }

  ghost predicate StopKept(s: Sched, r: Sched) {
    !r.running && AllDue(r) && AllFinishing(s, r) && forall c :: AnchorFinishing(s, r, c)
  }

  lemma AnswerFinishes(was: Loop, loop: Loop, lastFire: map<Name, int>, next: Next)
    requires Finishing(was, loop) && loop.Trying?
    ensures Finishing(was, Advance(lastFire, next, loop.now, loop.rest)) && loop.cron in Left(was)
  {
    AdvanceLeaves(lastFire, next, loop.now, loop.rest);
    var after := Left(Advance(lastFire, next, loop.now, loop.rest));
    assert Left(loop)[1..] == loop.rest && Left(loop)[0] == loop.cron;
    SuffixChain(after, loop.rest, Left(loop));
    SuffixChain(after, Left(loop), Left(was));
    SuffixHolds(Left(loop), Left(was), loop.cron);
  }

  lemma AnswerKeepsStop(s: Sched, next: Next, r: Sched, k: nat, fired: bool)
    requires StopKept(s, r) && k < |r.loops| && r.loops[k].Trying?
    ensures StopKept(s, SchedStep(r, next, AnswerOp(k, fired)))
  {
    var v := SchedStep(r, next, AnswerOp(k, fired));
    var loop := r.loops[k];
    StepKeepsDue(r, next, AnswerOp(k, fired));
    assert Finishing(s.loops[k], loop) && Due(loop);
    AnswerFinishes(s.loops[k], loop, v.lastFire, next);
    forall c ensures AnchorFinishing(s, v, c) {
      assert AnchorFinishing(s, r, c);
      assert c == loop.cron && fired ==> v.lastFire[c] == loop.tick <= s.loops[k].now;
    }
  }

  lemma EndKeepsStop(s: Sched, r: Sched, k: nat)
    requires StopKept(s, r) && k < |r.loops|
    ensures StopKept(s, r.(loops := r.loops[k := Ended]))
  {
    var v := r.(loops := r.loops[k := Ended]);
    EmptySuffix(Left(s.loops[k]));
    forall c ensures AnchorFinishing(s, v, c) { assert AnchorFinishing(s, r, c); }
  }

  lemma StepKeepsStop(s: Sched, next: Next, r: Sched, op: SchedOp)
    requires StopKept(s, r) && !op.BeginOp?
    ensures StopKept(s, SchedStep(r, next, op))
  {
    if op.WakeOp? && op.k < |r.loops| && r.loops[op.k].Sleeping? {
      EndKeepsStop(s, r, op.k);
    } else if op.AnswerOp? && op.k < |r.loops| && r.loops[op.k].Trying? {
      AnswerKeepsStop(s, next, r, op.k, op.fired);
    } else {
      assert SchedStep(r, next, op) == r;
    }
  }

  /**
   After a stop, until the next start: no loop begins a pass; a pass under way only goes on to its remaining crons; and
   an anchor moves only to a tick that is due at such a pass, and only if its cron was still to come in it.
   */
  lemma {:induction false} StopEndsPasses(next: Next, before: seq<SchedOp>, ops: seq<SchedOp>)
    requires forall i | 0 <= i < |ops| :: !ops[i].BeginOp?
    ensures var s := SchedRun(INIT, next, before);
      StopKept(s, SchedRun(SchedStep(s, next, StopOp), next, ops))
  {
    var s := SchedRun(INIT, next, before);
    if ops == [] {
      RunKeepsDue(INIT, next, before);
      StepKeepsDue(s, next, StopOp);
    } else {
      StopEndsPasses(next, before, ops[..|ops| - 1]);
      StepKeepsStop(s, next, SchedRun(SchedStep(s, next, StopOp), next, ops[..|ops| - 1]), ops[|ops| - 1]);
    }
  }

  // ---------- one loop at a time ----------

  predicate AllEnded(s: Sched) {
    forall k | 0 <= k < |s.loops| :: s.loops[k].Ended?
  }

  predicate NoRepeats(crons: seq<Name>) {
    forall i, j | 0 <= i < j < |crons| :: crons[i] != crons[j]
  }

  /** A start finds every earlier loop ended, and a registry lists each cron once. */
  predicate Orderly(s: Sched, op: SchedOp) {
    && (op.BeginOp? ==> AllEnded(s) && NoRepeats(op.crons))
    && (op.WakeOp? ==> NoRepeats(op.crons))
  }

  predicate OrderlyAt(s: Sched, next: Next, ops: seq<SchedOp>, i: nat)
    requires i < |ops|
  {
    Orderly(SchedRun(s, next, ops[..i]), ops[i])
  }

  predicate OrderlyRun(s: Sched, next: Next, ops: seq<SchedOp>) {
    forall i | 0 <= i < |ops| :: OrderlyAt(s, next, ops, i)
  }

  /** The tick tried is the one after the anchor, and the rest of the pass does not come back to its cron. */
  predicate NextIsTried(lastFire: map<Name, int>, next: Next, loop: Loop) {
    loop.Trying? ==>
      && loop.cron in lastFire && loop.tick == next(loop.cron, lastFire[loop.cron]) && NoRepeats(Left(loop))
  }

  predicate Sole(s: Sched, next: Next) {
    && (forall k | 0 <= k < |s.loops| - 1 :: s.loops[k].Ended?)
    && (s.loops != [] ==> NextIsTried(s.lastFire, next, s.loops[|s.loops| - 1]))
  }

  lemma {:induction false} AdvanceTriesNext(lastFire: map<Name, int>, next: Next, now: int, rest: seq<Name>)
    requires Proper(next) && NoRepeats(rest)
    ensures NextIsTried(lastFire, next, Advance(lastFire, next, now, rest))
  {
    if rest != [] {
      if DueTick(lastFire, next, rest[0], now) > now {
        AdvanceTriesNext(lastFire, next, now, rest[1..]);
      } else {
        assert [rest[0]] + rest[1..] == rest;
        var c := rest[0];
        assert next(c, now) > now;
      }
    }
  }

  /** The anchor of `c` stays, or moves to the schedule's next tick; a start may give it a first anchor. */
  predicate OneTick(next: Next, s: Sched, r: Sched, c: Name) {
    c in s.lastFire ==> c in r.lastFire && (r.lastFire[c] == s.lastFire[c] || r.lastFire[c] == next(c, s.lastFire[c]))
  }

  lemma StepKeepsSole(s: Sched, next: Next, op: SchedOp)
    requires Proper(next) && Sole(s, next) && Orderly(s, op)
    ensures Sole(SchedStep(s, next, op), next)
    ensures forall c :: OneTick(next, s, SchedStep(s, next, op), c)
  {
    match op {
      case BeginOp(crons, seedTime, now) => AdvanceTriesNext(Seeded(s.lastFire, crons, seedTime), next, now, crons);
      case WakeOp(k, crons, now) => AdvanceTriesNext(s.lastFire, next, now, crons);
      case AnswerOp(k, fired) =>
        if k < |s.loops| && s.loops[k].Trying? {
          var loop := s.loops[k];
          assert loop.rest == Left(loop)[1..];
          AdvanceTriesNext(SchedStep(s, next, op).lastFire, next, loop.now, loop.rest);
        }
      case StopOp =>
    }
  }

  lemma {:induction false} OrderlyRunIsSole(next: Next, ops: seq<SchedOp>)
    requires Proper(next) && OrderlyRun(INIT, next, ops)
    ensures Sole(SchedRun(INIT, next, ops), next)
  {
    if ops != [] {
      var front := ops[..|ops| - 1];
      assert forall i | 0 <= i < |front| :: front[..i] == ops[..i];
      assert forall i | 0 <= i < |front| :: OrderlyAt(INIT, next, ops, i) ==> OrderlyAt(INIT, next, front, i);
      OrderlyRunIsSole(next, front);
      assert OrderlyAt(INIT, next, ops, |front|);
      StepKeepsSole(SchedRun(INIT, next, front), next, ops[|front|]);
    }
  }

  /** When every start waits for the old loop to end, a step moves an anchor by one tick of its schedule at most. */
  lemma SoleLoopAdvances(next: Next, ops: seq<SchedOp>, op: SchedOp, c: Name)
    requires Proper(next) && OrderlyRun(INIT, next, ops) && Orderly(SchedRun(INIT, next, ops), op)
    ensures OneTick(next, SchedRun(INIT, next, ops), SchedRun(INIT, next, ops + [op]), c)
  {
    OrderlyRunIsSole(next, ops);
    SchedRunMore(INIT, next, ops, op);
    StepKeepsSole(SchedRun(INIT, next, ops), next, op);
  }

  /** The loop of the latest start; the others have ended. */
  function Last(s: Sched): Loop { if s.loops == [] then Ended else s.loops[|s.loops| - 1] }

  /** The anchor has not moved, or once, to its next tick, by the pass under way, which has left its cron behind. */
  predicate MovedOnce(next: Next, s: Sched, r: Sched, c: Name) {
    && (c in r.lastFire <==> c in s.lastFire)
    && (c in s.lastFire && r.lastFire[c] != s.lastFire[c] ==>
          && c in Left(Last(s)) && c !in Left(Last(r))
          && r.lastFire[c] == next(c, s.lastFire[c]) && r.lastFire[c] <= Last(s).now)
  }

  ghost predicate StopKeptOnce(next: Next, s: Sched, r: Sched) {
    Sole(r, next) && StopKept(s, r) && forall c :: MovedOnce(next, s, r, c)
  }

  /** One more answer: `loop` is what was tried, `r` and `v` are the moments before and after. */
  lemma AnswerMovesOne(next: Next, s: Sched, r: Sched, v: Sched, loop: Loop, c: Name)
    requires Proper(next) && MovedOnce(next, s, r, c) && loop == Last(r) && loop.Trying? && Due(loop)
    requires Finishing(Last(s), loop) && NextIsTried(r.lastFire, next, loop) && Suffix(Left(Last(v)), loop.rest)
    requires v.lastFire == r.lastFire || v.lastFire == r.lastFire[loop.cron := loop.tick]
    ensures MovedOnce(next, s, v, c)
  {
    assert loop.rest == Left(loop)[1..] && Left(loop)[0] == loop.cron;
    if c == loop.cron {
      SuffixHolds(Left(loop), Left(Last(s)), c);
      assert c !in loop.rest;
    }
    if c in Left(Last(v)) {
      SuffixHolds(Left(Last(v)), loop.rest, c);
    }
  }

  lemma AnswerMovesOnce(s: Sched, next: Next, r: Sched, k: nat, fired: bool)
    requires Proper(next) && StopKeptOnce(next, s, r) && k < |r.loops| && r.loops[k].Trying?
    ensures forall c :: MovedOnce(next, s, SchedStep(r, next, AnswerOp(k, fired)), c)
  {
    var v := SchedStep(r, next, AnswerOp(k, fired));
    var loop := r.loops[k];
    assert k == |r.loops| - 1;
    assert Finishing(s.loops[k], loop) && Due(loop);
    AdvanceLeaves(v.lastFire, next, loop.now, loop.rest);
    forall c ensures MovedOnce(next, s, v, c) {
      AnswerMovesOne(next, s, r, v, loop, c);
    }
  }

  lemma StepKeepsStopOnce(s: Sched, next: Next, r: Sched, op: SchedOp)
    requires Proper(next) && StopKeptOnce(next, s, r) && !op.BeginOp? && Orderly(r, op)
    ensures StopKeptOnce(next, s, SchedStep(r, next, op))
  {
    StepKeepsSole(r, next, op);
    StepKeepsStop(s, next, r, op);
    if op.AnswerOp? && op.k < |r.loops| && r.loops[op.k].Trying? {
      AnswerMovesOnce(s, next, r, op.k, op.fired);
    } else {
      forall c ensures MovedOnce(next, s, SchedStep(r, next, op), c) { assert MovedOnce(next, s, r, c); }
    }
  }

  /**
   With one loop at a time, after a stop and until the next start: an anchor moves once at most, to the next tick of its
   schedule, which is due at the pass under way when the stop came, and only if its cron was still to come in it.
   */
  lemma {:induction false} StoppedMovesOnce(next: Next, before: seq<SchedOp>, ops: seq<SchedOp>)
    requires Proper(next) && OrderlyRun(INIT, next, before)
    requires forall i | 0 <= i < |ops| :: !ops[i].BeginOp? && (ops[i].WakeOp? ==> NoRepeats(ops[i].crons))
    ensures var s := SchedRun(INIT, next, before);
      StopKeptOnce(next, s, SchedRun(SchedStep(s, next, StopOp), next, ops))
  {
    var s := SchedRun(INIT, next, before);
    if ops == [] {
      OrderlyRunIsSole(next, before);
      StopEndsPasses(next, before, ops);
    } else {
      StoppedMovesOnce(next, before, ops[..|ops| - 1]);
      StepKeepsStopOnce(s, next, SchedRun(SchedStep(s, next, StopOp), next, ops[..|ops| - 1]), ops[|ops| - 1]);
    }
  }

  // ---------- starting again ----------

  /** Some step of `ops` wakes the loop from its sleep. */
  predicate WokenAt(s: Sched, next: Next, ops: seq<SchedOp>, k: nat, i: nat) {
    i < |ops| && ops[i].WakeOp? && ops[i].k == k &&
    var r := SchedRun(s, next, ops[..i]); k < |r.loops| && r.loops[k].Sleeping?
  }

  ghost predicate Woken(s: Sched, next: Next, ops: seq<SchedOp>, k: nat) {
    exists i: nat :: WokenAt(s, next, ops, k, i)
  }

  lemma WokenMore(s: Sched, next: Next, ops: seq<SchedOp>, k: nat)
    requires ops != []
    ensures var front := ops[..|ops| - 1];
      Woken(s, next, ops, k) <==> Woken(s, next, front, k) || WokenAt(s, next, ops, k, |front|)
  {
    var front := ops[..|ops| - 1];
    forall i: nat | i < |front| ensures WokenAt(s, next, ops, k, i) == WokenAt(s, next, front, k, i) {
      assert front[..i] == ops[..i];
    }
  }

  /** While stopped, a loop ends exactly by waking from its sleep. */
  lemma {:induction false} EndsByWaking(s: Sched, next: Next, ops: seq<SchedOp>, k: nat)
    requires !s.running && k < |s.loops| && !s.loops[k].Ended?
    requires forall i | 0 <= i < |ops| :: !ops[i].BeginOp?
    ensures var r := SchedRun(s, next, ops);
      !r.running && |r.loops| == |s.loops| && (r.loops[k].Ended? <==> Woken(s, next, ops, k))
  {
    if ops != [] {
      var front, op := ops[..|ops| - 1], ops[|ops| - 1];
      EndsByWaking(s, next, front, k);
      WokenMore(s, next, ops, k);
      var r := SchedRun(s, next, front);
      if op.AnswerOp? && op.k == k && r.loops[k].Trying? {
        AdvanceLeaves(SchedStep(r, next, op).lastFire, next, r.loops[k].now, r.loops[k].rest);
      }
    }
  }

  /**
   A start after a stop keeps every anchor it finds, so that ticks missed meanwhile are still fired, and anchors only
   new crons at the present. A loop that was alive at the stop is alive beside the new one if and only if it has not
   woken from its sleep in between.
   */
  lemma RestartRevivesIff(s: Sched, next: Next, ops: seq<SchedOp>, crons: seq<Name>, seedTime: int, now: int, k: nat,
                          c: Name)
    requires k < |s.loops| && !s.loops[k].Ended?
    requires forall i | 0 <= i < |ops| :: !ops[i].BeginOp?
    ensures var stopped := SchedStep(s, next, StopOp);
      var idle := SchedRun(stopped, next, ops);
      var r := SchedStep(idle, next, BeginOp(crons, seedTime, now));
      && r.running && |r.loops| == |s.loops| + 1 && !Last(r).Ended?
      && (!r.loops[k].Ended? <==> !Woken(stopped, next, ops, k))
      && (c in idle.lastFire ==> c in r.lastFire && r.lastFire[c] == idle.lastFire[c])
      && (c !in idle.lastFire ==> (c in r.lastFire <==> c in crons) && (c in crons ==> r.lastFire[c] == seedTime))
  {
    EndsByWaking(SchedStep(s, next, StopOp), next, ops, k);
    var idle := SchedRun(SchedStep(s, next, StopOp), next, ops);
    AdvanceLeaves(Seeded(idle.lastFire, crons, seedTime), next, now, crons);
  }

  // ---------- two loops ----------

  /** A scheduler stopped and started again while its loop sleeps, one period after the first start. */
  function RevivedOps(first: int): seq<SchedOp> {
    [BeginOp(["c"], 0, 0), StopOp, BeginOp(["c"], first, first)]
  }

  lemma FirstDue(lastFire: map<Name, int>, next: Next, now: int)
    requires "c" in lastFire
    ensures Advance(lastFire, next, now, ["c"]) ==
            if next("c", lastFire["c"]) <= now then Trying(now, "c", next("c", lastFire["c"]), []) else Sleeping
  {
  }

  lemma FirstStart(next: Next)
    requires Proper(next)
    ensures SchedStep(INIT, next, BeginOp(["c"], 0, 0)) == Sched(true, map["c" := 0], [Sleeping])
  {
    assert Seeded(map[], ["c"], 0) == map["c" := 0];
    FirstDue(map["c" := 0], next, 0);
  }

  lemma SecondStart(next: Next, first: int)
    requires first == next("c", 0)
    ensures SchedStep(Sched(false, map["c" := 0], [Sleeping]), next, BeginOp(["c"], first, first)) ==
            Sched(true, map["c" := 0], [Sleeping, Trying(first, "c", first, [])])
  {
    assert Seeded(map["c" := 0], ["c"], first) == map["c" := 0];
    FirstDue(map["c" := 0], next, first);
  }

  lemma RevivedRun(next: Next)
    requires Proper(next)
    ensures var first := next("c", 0);
      SchedRun(INIT, next, RevivedOps(first)) == Sched(true, map["c" := 0], [Sleeping, Trying(first, "c", first, [])])
  {
    var first := next("c", 0);
    var ops := RevivedOps(first);
    assert ops[..2][..1] == ops[..1] && ops[..1][..0] == [];
    FirstStart(next);
    assert SchedRun(INIT, next, ops[..1]) == Sched(true, map["c" := 0], [Sleeping]);
    assert SchedRun(INIT, next, ops[..2]) == Sched(false, map["c" := 0], [Sleeping]);
    SecondStart(next, first);
  }

  lemma OldLoopPass(s: Sched, next: Next, now: int)
    requires s.running && "c" in s.lastFire && s.loops != [] && s.loops[0] == Sleeping
    requires now == next("c", s.lastFire["c"])
    ensures SchedStep(SchedStep(s, next, WakeOp(0, ["c"], now)), next, AnswerOp(0, true)) ==
            s.(lastFire := s.lastFire["c" := now])
  {
    FirstDue(s.lastFire, next, now);
    assert s.loops[0 := Trying(now, "c", now, [])][0 := Sleeping] == s.loops;
  }

  function OldPassOps(now: int): seq<SchedOp> { [WakeOp(0, ["c"], now), AnswerOp(0, true)] }

  lemma OldLoopPasses(s: Sched, next: Next, now: int)
    requires s.running && "c" in s.lastFire && s.loops != [] && s.loops[0] == Sleeping
    requires now == next("c", s.lastFire["c"])
    ensures SchedRun(s, next, OldPassOps(now)) == s.(lastFire := s.lastFire["c" := now])
  {
    SchedRunMore(s, next, [], WakeOp(0, ["c"], now));
    SchedRunMore(s, next, [WakeOp(0, ["c"], now)], AnswerOp(0, true));
    OldLoopPass(s, next, now);
  }

  lemma OvertakenRun(s: Sched, next: Next, first: int, second: int)
    requires s.running && "c" in s.lastFire && s.loops != [] && s.loops[0] == Sleeping
    requires first == next("c", s.lastFire["c"]) && second == next("c", first)
    ensures SchedRun(s, next, OldPassOps(first) + OldPassOps(second)) == s.(lastFire := s.lastFire["c" := second])
  {
    OldLoopPasses(s, next, first);
    SchedRunSplit(s, next, OldPassOps(first), OldPassOps(second));
    OldLoopPasses(s.(lastFire := s.lastFire["c" := first]), next, second);
    assert s.lastFire["c" := first]["c" := second] == s.lastFire["c" := second];
  }

  /**
   Without that care an anchor can go back. The second start finds the first loop asleep; the old loop overtakes the new
   one, whose answer then sets the anchor to a tick before the last one fired.
   */
  lemma AnchorGoesBack(next: Next)
    requires Proper(next)
    ensures var first := next("c", 0);
      var second := next("c", first);
      var s := SchedRun(INIT, next, RevivedOps(first) + (OldPassOps(first) + OldPassOps(second)));
      var r := SchedStep(s, next, AnswerOp(1, true));
      && "c" in s.lastFire && "c" in r.lastFire && s.lastFire["c"] == second > r.lastFire["c"] == first
  {
    var first := next("c", 0);
    var second := next("c", first);
    RevivedRun(next);
    SchedRunSplit(INIT, next, RevivedOps(first), OldPassOps(first) + OldPassOps(second));
    OvertakenRun(SchedRun(INIT, next, RevivedOps(first)), next, first, second);
    assert map["c" := 0]["c" := second]["c"] == second;
  }

  // ---------- the scheduler ----------

  // `loops` are the suspended runs of `start`; each method runs one of them up to where it is suspended next.
  class InProcScheduler {
    var running: bool
    var lastFire: map<Name, int>
    var loops: seq<Loop>

    ghost function Value(): Sched
      reads this
    {
      Sched(running, lastFire, loops)
    }

    constructor ()
      ensures Value() == INIT
    {
      running, lastFire, loops := false, map[], [];
    }

    /** Goes through the crons of a pass up to the first that is due. */
    method Resume(next: Next, now: int, crons: seq<Name>) returns (loop: Loop)
      ensures loop == Advance(lastFire, next, now, crons)
    {
      for i := 0 to |crons|
        invariant Advance(lastFire, next, now, crons[i..]) == Advance(lastFire, next, now, crons)
      {
        var c := crons[i];
        var anchor := if c in lastFire then lastFire[c] else now;
        var nextFire := next(c, anchor);
        assert crons[i..][0] == c && crons[i..][1..] == crons[i + 1..];
        if nextFire <= now {
          return Trying(now, c, nextFire, crons[i + 1..]);
        }
      }
      return Sleeping;
    }

    /** Anchors for the crons that have none, then the first pass. */
    method Start(next: Next, crons: seq<Name>, seedTime: int, now: int)
      modifies this
      ensures Value() == SchedStep(old(Value()), next, BeginOp(crons, seedTime, now))
    {
      running := true;
      for i := 0 to |crons|
        invariant running && loops == old(loops) && lastFire == Seeded(old(lastFire), crons[..i], seedTime)
      {
        SeededMore(old(lastFire), crons[..i], crons[i], seedTime);
        assert crons[..i + 1] == crons[..i] + [crons[i]];
        if crons[i] !in lastFire {
          lastFire := lastFire[crons[i] := seedTime];
        }
      }
      assert crons[..|crons|] == crons;
      var loop := Resume(next, now, crons);
      loops := loops + [loop];
    }

    /** The sleep is over: another pass while the scheduler runs, the end otherwise. */
    method Wake(k: nat, next: Next, crons: seq<Name>, now: int)
      requires k < |loops| && loops[k].Sleeping?
      modifies this`loops
      ensures Value() == SchedStep(old(Value()), next, WakeOp(k, crons, now))
    {
      if !running {
        loops := loops[k := Ended];
        return;
      }
      var loop := Resume(next, now, crons);
      loops := loops[k := loop];
    }

    /** An attempt has returned; contention and errors count as not fired. */
    method Answer(k: nat, next: Next, fired: bool)
      requires k < |loops| && loops[k].Trying?
      modifies this`lastFire, this`loops
      ensures Value() == SchedStep(old(Value()), next, AnswerOp(k, fired))
    {
      var now, rest := loops[k].now, loops[k].rest;
      if fired {
        lastFire := lastFire[loops[k].cron := loops[k].tick];
      }
      var loop := Resume(next, now, rest);
      loops := loops[k := loop];
    }

    /**
     A whole pass with nothing in between: every attempt is answered at once, `fired` saying how, a cron that is not due
     ignoring its answer.
     */
    method Pass(k: nat, next: Next, crons: seq<Name>, now: int, fired: seq<bool>) returns (attempted: seq<(Name, int)>)
      requires k < |loops| && loops[k].Sleeping? && running && |fired| == |crons|
      modifies this`lastFire
      ensures Value() == SchedRun(old(Value()), next, PassOps(old(lastFire), next, crons, now, fired, k))
      ensures lastFire == Passed(old(lastFire), next, crons, now, fired)
      ensures forall i | 0 <= i < |attempted| :: attempted[i].1 <= now
    {
      attempted := [];
      for i := 0 to |crons|
        invariant lastFire == Passed(old(lastFire), next, crons[..i], now, fired[..i])
        invariant forall j | 0 <= j < |attempted| :: attempted[j].1 <= now
      {
        assert crons[..i + 1][..i] == crons[..i] && fired[..i + 1][..i] == fired[..i];
        var c := crons[i];
        var anchor := if c in lastFire then lastFire[c] else now;
        var nextFire := next(c, anchor);
        if nextFire <= now {
          attempted := attempted + [(c, nextFire)];
          if fired[i] {
            lastFire := lastFire[c := nextFire];
          }
        }
      }
      assert crons[..|crons|] == crons && fired[..|fired|] == fired;
      PassIsPassed(old(Value()), next, crons, now, fired, k);
    }

    method Stop(next: Next)
      modifies this`running
      ensures Value() == SchedStep(old(Value()), next, StopOp)
    {
      running := false;
    }
  }
}
