/** The fixed-window limiter, and the scheduled job that prunes its counters. */
module RateLimit {

  type Bucket = string

  // Seconds since the epoch.
  type Time = t: real | t >= 0.0 witness 0.0

  // A window length in whole seconds; zero is a division by zero in the program.
  type Length = n: int | n > 0 witness 1

  // A window is named by its first second.
  datatype Admission = Admission(bucket: Bucket, time: Time)

  datatype State = State(counts: map<(Bucket, int), nat>, admitted: seq<Admission>)

  datatype Rule = Rule(limit: nat, window: Length)

  // `Prune` is the scheduled deletion of windows that began over an hour ago.
  datatype Op = HitOp(bucket: Bucket, now: Time) | PruneOp(now: Time)

  const EMPTY := State(map[], [])

  const HOUR := 3600

  function WindowStart(window: Length, now: Time): (w: int) {
    now.Floor - now.Floor % window
  }

  // ---------- aligned windows, by number ----------

  /** The first second of window number `q`. */
  function Start(window: Length, q: int): int { q * window }

  /** The number of the window a moment falls in. */
  function Index(window: Length, now: Time): int {
    now.Floor / window
  }

  lemma WindowOf(window: Length, now: Time)
    ensures WindowStart(window, now) == Start(window, Index(window, now))
    ensures Start(window, Index(window, now)) <= now.Floor < Start(window, Index(window, now)) + window
  {
    var x := now.Floor;
    assert x == window * (x / window) + x % window;
  }

  lemma {:induction false} StartsApart(window: Length, p: int, q: int)
    requires p < q
    ensures Start(window, p) + window <= Start(window, q)
    decreases q - p
  {
    assert Start(window, q) == Start(window, q - 1) + window;
    if p < q - 1 {
      StartsApart(window, p, q - 1);
    }
  }

  lemma IndexIs(window: Length, now: Time, q: int)
    requires Start(window, q) <= now.Floor < Start(window, q) + window
    ensures Index(window, now) == q && WindowStart(window, now) == Start(window, q)
  {
    WindowOf(window, now);
    var p := Index(window, now);
    if p < q { StartsApart(window, p, q); }
    if q < p { StartsApart(window, q, p); }
  }

  lemma SameStart(window: Length, p: int, q: int)
    requires Start(window, p) == Start(window, q)
    ensures p == q
  {
    if p < q { StartsApart(window, p, q); }
    if q < p { StartsApart(window, q, p); }
  }

  /** A time interval of the window's length touches at most two windows. */
  lemma IndexNear(window: Length, from: Time, t: Time)
    requires from <= t <= from + window as real
    ensures Index(window, t) == Index(window, from) || Index(window, t) == Index(window, from) + 1
  {
    var p := Index(window, from);
    WindowOf(window, from);
    assert Start(window, p + 1) == Start(window, p) + window;
    assert from.Floor <= t.Floor <= from.Floor + window;
    if t.Floor < Start(window, p + 1) {
      IndexIs(window, t, p);
    } else {
      IndexIs(window, t, p + 1);
    }
  }

  function CountAt(counts: map<(Bucket, int), nat>, bucket: Bucket, w: int): nat {
    if (bucket, w) in counts then counts[(bucket, w)] else 0
  }

  /** Every attempt is counted, the refused ones too. */
  function Hit(s: State, rule: Rule, bucket: Bucket, now: Time): State {
    var w := WindowStart(rule.window, now);
    var n := CountAt(s.counts, bucket, w) + 1;
    State(s.counts[(bucket, w) := n], if n > rule.limit then s.admitted else s.admitted + [Admission(bucket, now)])
  }

  function Prune(s: State, now: Time): State {
    s.(counts := map k | k in s.counts && !(k.1 as real < now - HOUR as real) :: s.counts[k])
  }

  function Step(s: State, rule: Rule, op: Op): State {
    match op
    case HitOp(bucket, now) => Hit(s, rule, bucket, now)
    case PruneOp(now) => Prune(s, now)
  }

  /** A sequence of steps in the order of time. */
  predicate Timed(ops: seq<Op>) {
    forall i, j | 0 <= i < j < |ops| :: ops[i].now <= ops[j].now
  }

  function Run(rule: Rule, ops: seq<Op>): State {
    if ops == [] then EMPTY else Step(Run(rule, ops[..|ops| - 1]), rule, ops[|ops| - 1])
  }

  // ---------- what was admitted ----------

  /** Admissions for `bucket` with a time between `from` and `to`, both included. */
  function Between(admitted: seq<Admission>, bucket: Bucket, from: Time, to: Time): nat {
    if admitted == [] then 0
    else
      var last := admitted[|admitted| - 1];
      Between(admitted[..|admitted| - 1], bucket, from, to) +
      if last.bucket == bucket && from <= last.time <= to then 1 else 0
  }

  /** Admissions for `bucket` in window number `q`. */
  function InWindow(admitted: seq<Admission>, bucket: Bucket, q: int, window: Length): nat {
    if admitted == [] then 0
    else
      var last := admitted[|admitted| - 1];
      InWindow(admitted[..|admitted| - 1], bucket, q, window) +
      if last.bucket == bucket && Index(window, last.time) == q then 1 else 0
  }

  lemma InWindowMore(admitted: seq<Admission>, a: Admission, bucket: Bucket, q: int, window: Length)
    ensures InWindow(admitted + [a], bucket, q, window) == InWindow(admitted, bucket, q, window) +
            if a.bucket == bucket && Index(window, a.time) == q then 1 else 0
  {
    assert (admitted + [a])[..|admitted|] == admitted;
  }

  lemma {:induction false} TwoWindows(admitted: seq<Admission>, bucket: Bucket, from: Time, window: Length)
    ensures var q := Index(window, from);
      Between(admitted, bucket, from, from + window as real) <=
      InWindow(admitted, bucket, q, window) + InWindow(admitted, bucket, q + 1, window)
  {
    if admitted != [] {
      TwoWindows(admitted[..|admitted| - 1], bucket, from, window);
      var t := admitted[|admitted| - 1].time;
      if from <= t <= from + window as real {
        IndexNear(window, from, t);
      }
    }
  }

  // ---------- the invariant ----------

  /**
   No window has admitted more than the limit; a counter still present has counted every admission; and a window with
   admissions but no counter is over.
   */
  predicate WindowKept(s: State, rule: Rule, now: Time, bucket: Bucket, q: int) {
    var n, key := InWindow(s.admitted, bucket, q, rule.window), (bucket, Start(rule.window, q));
    && n <= rule.limit
    && (key in s.counts ==> n <= s.counts[key])
    && (key !in s.counts ==> n == 0 || (Start(rule.window, q) + rule.window) as real <= now)
  }

  ghost predicate Kept(s: State, rule: Rule, now: Time) {
    forall bucket, q :: WindowKept(s, rule, now, bucket, q)
  }

  lemma HitWindowKept(s: State, rule: Rule, before: Time, bucket: Bucket, now: Time, b: Bucket, q: int)
    requires before <= now && WindowKept(s, rule, before, b, q)
    ensures WindowKept(Hit(s, rule, bucket, now), rule, now, b, q)
  {
    var p := Index(rule.window, now);
    WindowOf(rule.window, now);
    InWindowMore(s.admitted, Admission(bucket, now), b, q, rule.window);
    if Start(rule.window, p) == Start(rule.window, q) {
      SameStart(rule.window, p, q);
    }
  }

  lemma HitKept(s: State, rule: Rule, before: Time, bucket: Bucket, now: Time)
    requires before <= now && Kept(s, rule, before)
    ensures Kept(Hit(s, rule, bucket, now), rule, now)
  {
    forall b, q ensures WindowKept(Hit(s, rule, bucket, now), rule, now, b, q) {
      HitWindowKept(s, rule, before, bucket, now, b, q);
    }
  }

  /** The counters the job would delete belong to windows that are over. */
  predicate SparesRunning(s: State, rule: Rule, now: Time) {
    forall k | k in s.counts && k.1 as real < now - HOUR as real :: (k.1 + rule.window) as real <= now
  }

  predicate StepSpares(s: State, rule: Rule, op: Op) { op.PruneOp? ==> SparesRunning(s, rule, op.now) }

  /** No pruning of the run deletes the counter of a window that is still running. */
  predicate Spares(rule: Rule, ops: seq<Op>) {
    forall i | 0 <= i < |ops| :: StepSpares(Run(rule, ops[..i]), rule, ops[i])
  }

  /** Without the job, or with windows of an hour at most, every run is such a run. */
  lemma SparesAlways(rule: Rule, ops: seq<Op>)
    requires rule.window <= HOUR || forall i | 0 <= i < |ops| :: !ops[i].PruneOp?
    ensures Spares(rule, ops)
  {
  }

  lemma SparesFront(rule: Rule, ops: seq<Op>)
    requires ops != [] && Spares(rule, ops)
    ensures Spares(rule, ops[..|ops| - 1]) && StepSpares(Run(rule, ops[..|ops| - 1]), rule, ops[|ops| - 1])
  {
    var front := ops[..|ops| - 1];
    forall i | 0 <= i < |front| ensures StepSpares(Run(rule, front[..i]), rule, front[i]) {
      assert front[..i] == ops[..i];
    }
  }

  lemma PruneKept(s: State, rule: Rule, before: Time, now: Time)
    requires SparesRunning(s, rule, now) && before <= now && Kept(s, rule, before)
    ensures Kept(Prune(s, now), rule, now)
  {
    forall b, q ensures WindowKept(Prune(s, now), rule, now, b, q) {
      assert WindowKept(s, rule, before, b, q);
    }
  }

  function LastTime(ops: seq<Op>): Time { if ops == [] then 0.0 else ops[|ops| - 1].now }

  lemma {:induction false} RunKept(rule: Rule, ops: seq<Op>)
    requires Timed(ops) && Spares(rule, ops)
    ensures Kept(Run(rule, ops), rule, LastTime(ops))
  {
    if ops != [] {
      var front := ops[..|ops| - 1];
      SparesFront(rule, ops);
      RunKept(rule, front);
      match ops[|ops| - 1] {
        case HitOp(bucket, now) => HitKept(Run(rule, front), rule, LastTime(front), bucket, now);
        case PruneOp(now) => PruneKept(Run(rule, front), rule, LastTime(front), now);
      }
    }
  }

  // ---------- the bound, and when it holds ----------

  /** The runs of a deployment: the job is there only where the database could schedule it. */
  predicate Deployed(ops: seq<Op>, pruning: bool) {
    Timed(ops) && (pruning || forall i | 0 <= i < |ops| :: !ops[i].PruneOp?)
  }

  ghost predicate RunBounded(rule: Rule, pruning: bool, ops: seq<Op>, bucket: Bucket, q: int) {
    Deployed(ops, pruning) ==> InWindow(Run(rule, ops).admitted, bucket, q, rule.window) <= rule.limit
  }

  /** In every run of the deployment, every aligned window admits at most the limit. */
  ghost predicate WindowsBounded(rule: Rule, pruning: bool) {
    forall ops, bucket, q :: RunBounded(rule, pruning, ops, bucket, q)
  }

  /** Window by window, in every run whose prunings spare the running windows. */
  lemma EachWindowIsBounded(rule: Rule, ops: seq<Op>, bucket: Bucket, q: int)
    requires Timed(ops) && Spares(rule, ops)
    ensures InWindow(Run(rule, ops).admitted, bucket, q, rule.window) <= rule.limit
  {
    RunKept(rule, ops);
    assert WindowKept(Run(rule, ops), rule, LastTime(ops), bucket, q);
  }

  /** At most twice the limit in any interval of the window's length, at any offset. */
  lemma AnyIntervalAdmitsTwice(rule: Rule, ops: seq<Op>, bucket: Bucket, from: Time)
    requires Timed(ops) && Spares(rule, ops)
    ensures Between(Run(rule, ops).admitted, bucket, from, from + rule.window as real) <= 2 * rule.limit
  {
    TwoWindows(Run(rule, ops).admitted, bucket, from, rule.window);
    EachWindowIsBounded(rule, ops, bucket, Index(rule.window, from));
    EachWindowIsBounded(rule, ops, bucket, Index(rule.window, from) + 1);
  }

  /** `n` attempts at the same moment. */
  function Burst(s: State, rule: Rule, bucket: Bucket, now: Time, n: nat): State {
    if n == 0 then s else Hit(Burst(s, rule, bucket, now, n - 1), rule, bucket, now)
  }

  function BurstOps(bucket: Bucket, now: Time, n: nat): seq<Op> { seq(n, _ => HitOp(bucket, now)) }

  lemma RunMore(rule: Rule, ops: seq<Op>, op: Op)
    ensures Run(rule, ops + [op]) == Step(Run(rule, ops), rule, op)
  {
    assert (ops + [op])[..|ops|] == ops;
  }

  lemma {:induction false} BurstIsRun(rule: Rule, ops: seq<Op>, bucket: Bucket, now: Time, n: nat)
    ensures Run(rule, ops + BurstOps(bucket, now, n)) == Burst(Run(rule, ops), rule, bucket, now, n)
  {
    if n == 0 {
      assert ops + BurstOps(bucket, now, 0) == ops;
    } else {
      BurstIsRun(rule, ops, bucket, now, n - 1);
      RunMore(rule, ops + BurstOps(bucket, now, n - 1), HitOp(bucket, now));
      assert ops + BurstOps(bucket, now, n) == (ops + BurstOps(bucket, now, n - 1)) + [HitOp(bucket, now)];
    }
  }

  /** A burst on a window with no count is counted, and leaves other windows alone. */
  lemma {:induction false} BurstCounted(s: State, rule: Rule, bucket: Bucket, now: Time, n: nat, w: int)
    ensures CountAt(Burst(s, rule, bucket, now, n).counts, bucket, w) ==
            CountAt(s.counts, bucket, w) + if w == WindowStart(rule.window, now) then n else 0
  {
    if n > 0 {
      BurstCounted(s, rule, bucket, now, n - 1, w);
    }
  }

  lemma LastOfBurst(s: State, rule: Rule, bucket: Bucket, now: Time, n: nat)
    requires 0 < n <= rule.limit && CountAt(s.counts, bucket, WindowStart(rule.window, now)) == 0
    ensures Burst(s, rule, bucket, now, n).admitted ==
            Burst(s, rule, bucket, now, n - 1).admitted + [Admission(bucket, now)]
  {
    BurstCounted(s, rule, bucket, now, n - 1, WindowStart(rule.window, now));
  }

  lemma BetweenMore(admitted: seq<Admission>, a: Admission, bucket: Bucket, from: Time, to: Time)
    ensures Between(admitted + [a], bucket, from, to) ==
            Between(admitted, bucket, from, to) + if a.bucket == bucket && from <= a.time <= to then 1 else 0
  {
    assert (admitted + [a])[..|admitted|] == admitted;
  }

  /** It is admitted up to the limit. */
  lemma {:induction false} BurstAdmits(s: State, rule: Rule, bucket: Bucket, now: Time, n: nat)
    requires n <= rule.limit && CountAt(s.counts, bucket, WindowStart(rule.window, now)) == 0
    ensures Burst(s, rule, bucket, now, n).admitted == s.admitted + seq(n, _ => Admission(bucket, now))
  {
    if n > 0 {
      BurstAdmits(s, rule, bucket, now, n - 1);
      LastOfBurst(s, rule, bucket, now, n);
    }
  }

  lemma {:induction false} CopiesCounted(admitted: seq<Admission>, a: Admission, n: nat, q: int, window: Length,
                                         from: Time, to: Time)
    requires from <= a.time <= to
    ensures var more := admitted + seq(n, _ => a);
      && InWindow(more, a.bucket, q, window) ==
           InWindow(admitted, a.bucket, q, window) + (if q == Index(window, a.time) then n else 0)
      && Between(more, a.bucket, from, to) == Between(admitted, a.bucket, from, to) + n
  {
    if n == 0 {
      assert admitted + seq(0, _ => a) == admitted;
    } else {
      CopiesCounted(admitted, a, n - 1, q, window, from, to);
      var before := admitted + seq(n - 1, _ => a);
      assert admitted + seq(n, _ => a) == before + [a];
      InWindowMore(before, a, a.bucket, q, window);
      BetweenMore(before, a, a.bucket, from, to);
    }
  }

  lemma BurstAdmitted(s: State, rule: Rule, bucket: Bucket, now: Time, n: nat, q: int, from: Time, to: Time)
    requires n <= rule.limit && from <= now <= to
    requires CountAt(s.counts, bucket, WindowStart(rule.window, now)) == 0
    ensures var r := Burst(s, rule, bucket, now, n);
      && InWindow(r.admitted, bucket, q, rule.window) ==
           InWindow(s.admitted, bucket, q, rule.window) + (if q == Index(rule.window, now) then n else 0)
      && Between(r.admitted, bucket, from, to) == Between(s.admitted, bucket, from, to) + n
  {
    BurstAdmits(s, rule, bucket, now, n);
    CopiesCounted(s.admitted, Admission(bucket, now), n, q, rule.window, from, to);
  }

  /** A full burst, a pruning an hour later, one more attempt. */
  function LongOps(rule: Rule): seq<Op> {
    BurstOps("b", 0.0, rule.limit) + [PruneOp(3600.5)] + BurstOps("b", 3600.5, 1)
  }

  lemma LongOpsTimed(rule: Rule)
    ensures Timed(LongOps(rule))
  {
  }

  lemma LongRun(rule: Rule)
    ensures Timed(LongOps(rule)) && Run(rule, LongOps(rule)) ==
            Burst(Prune(Burst(EMPTY, rule, "b", 0.0, rule.limit), 3600.5), rule, "b", 3600.5, 1)
  {
    LongOpsTimed(rule);
    var first := BurstOps("b", 0.0, rule.limit);
    var pruned := first + [PruneOp(3600.5)];
    assert [] + first == first;
    BurstIsRun(rule, [], "b", 0.0, rule.limit);
    assert pruned[..|first|] == first;
    BurstIsRun(rule, pruned, "b", 3600.5, 1);
  }

  /** A window longer than an hour: its counter is pruned while it is still running. */
  lemma LongWindowForgets(rule: Rule)
    requires rule.window > HOUR && rule.limit > 0
    ensures !WindowsBounded(rule, true)
  {
    IndexIs(rule.window, 0.0, 0);
    IndexIs(rule.window, 3600.5, 0);
    LongRun(rule);
    var first := Burst(EMPTY, rule, "b", 0.0, rule.limit);
    BurstAdmitted(EMPTY, rule, "b", 0.0, rule.limit, 0, 0.0, 0.0);
    BurstAdmitted(Prune(first, 3600.5), rule, "b", 3600.5, 1, 0, 3600.5, 3600.5);
    assert !RunBounded(rule, true, LongOps(rule), "b", 0);
  }

  /** The limit holds in every window of every run exactly when nothing is pruned or windows last an hour at most. */
  lemma LimitHoldsIff(rule: Rule, pruning: bool)
    requires rule.limit > 0
    ensures WindowsBounded(rule, pruning) <==> !pruning || rule.window <= HOUR
  {
    if !pruning || rule.window <= HOUR {
      forall ops, bucket, q ensures RunBounded(rule, pruning, ops, bucket, q) {
        if Deployed(ops, pruning) {
          SparesAlways(rule, ops);
          EachWindowIsBounded(rule, ops, bucket, q);
        }
      }
    } else {
      LongWindowForgets(rule);
    }
  }

  /** A burst at the end of one window, a burst at the start of the next. */
  function TwiceOps(rule: Rule): seq<Op> {
    BurstOps("b", (rule.window - 1) as real, rule.limit) + BurstOps("b", rule.window as real, rule.limit)
  }

  lemma TwiceRun(rule: Rule)
    ensures var first := Burst(EMPTY, rule, "b", (rule.window - 1) as real, rule.limit);
      Timed(TwiceOps(rule)) && Run(rule, TwiceOps(rule)) == Burst(first, rule, "b", rule.window as real, rule.limit)
  {
    var first := BurstOps("b", (rule.window - 1) as real, rule.limit);
    assert [] + first == first;
    BurstIsRun(rule, [], "b", (rule.window - 1) as real, rule.limit);
    BurstIsRun(rule, first, "b", rule.window as real, rule.limit);
  }

  /** Twice the limit is reached within one window's length. */
  lemma TwiceIsReached(rule: Rule)
    ensures var last := (rule.window - 1) as real;
      Timed(TwiceOps(rule)) &&
      Between(Run(rule, TwiceOps(rule)).admitted, "b", last, last + rule.window as real) == 2 * rule.limit
  {
    TwiceRun(rule);
    TwoBursts(rule, (rule.window - 1) as real, rule.window as real, (rule.window - 1) as real + rule.window as real);
  }

  lemma TwoBursts(rule: Rule, last: Time, next: Time, to: Time)
    requires last == (rule.window - 1) as real && next == rule.window as real <= to
    ensures var first := Burst(EMPTY, rule, "b", last, rule.limit);
      Between(Burst(first, rule, "b", next, rule.limit).admitted, "b", last, to) == 2 * rule.limit
  {
    IndexIs(rule.window, last, 0);
    IndexIs(rule.window, next, 1);
    StartsApart(rule.window, 0, 1);
    var first := Burst(EMPTY, rule, "b", last, rule.limit);
    BurstAdmitted(EMPTY, rule, "b", last, rule.limit, 0, last, to);
    BurstCounted(EMPTY, rule, "b", last, rule.limit, WindowStart(rule.window, next));
    BurstAdmitted(first, rule, "b", next, rule.limit, 0, last, to);
  }

  /** Pruning deletes the counters of windows that began over an hour ago, and nothing else. */
  lemma PruneDeletesOld(rule: Rule, ops: seq<Op>, now: Time, key: (Bucket, int))
    ensures var s, r := Run(rule, ops), Run(rule, ops + [PruneOp(now)]);
      && r.admitted == s.admitted
      && (key in r.counts <==> key in s.counts && now - 3600.0 <= key.1 as real)
      && (key in r.counts ==> r.counts[key] == s.counts[key])
  {
    RunMore(rule, ops, PruneOp(now));
  }

  // ---------- which attempts are admitted ----------

  /** The attempts for `bucket` in window number `q`, refused ones included. */
  function Attempts(ops: seq<Op>, bucket: Bucket, q: int, window: Length): nat {
    if ops == [] then 0
    else
      var last := ops[|ops| - 1];
      Attempts(ops[..|ops| - 1], bucket, q, window) +
      if last.HitOp? && last.bucket == bucket && Index(window, last.now) == q then 1 else 0
  }

  /** While a window runs, its counter counts its attempts. */
  predicate CountedAt(s: State, rule: Rule, ops: seq<Op>, now: Time, bucket: Bucket, q: int) {
    now < (Start(rule.window, q) + rule.window) as real ==>
      CountAt(s.counts, bucket, Start(rule.window, q)) == Attempts(ops, bucket, q, rule.window)
  }

  lemma HitIsCounted(rule: Rule, ops: seq<Op>, bucket: Bucket, q: int)
    requires ops != [] && ops[|ops| - 1].HitOp? && Timed(ops)
    requires var front := ops[..|ops| - 1]; CountedAt(Run(rule, front), rule, front, LastTime(front), bucket, q)
    ensures CountedAt(Run(rule, ops), rule, ops, LastTime(ops), bucket, q)
  {
    var hit := ops[|ops| - 1];
    WindowOf(rule.window, hit.now);
    if Start(rule.window, Index(rule.window, hit.now)) == Start(rule.window, q) {
      SameStart(rule.window, Index(rule.window, hit.now), q);
    }
  }

  lemma PruneIsCounted(rule: Rule, ops: seq<Op>, bucket: Bucket, q: int)
    requires ops != [] && ops[|ops| - 1].PruneOp? && Timed(ops) && Spares(rule, ops)
    requires var front := ops[..|ops| - 1]; CountedAt(Run(rule, front), rule, front, LastTime(front), bucket, q)
    ensures CountedAt(Run(rule, ops), rule, ops, LastTime(ops), bucket, q)
  {
    SparesFront(rule, ops);
  }

  lemma {:induction false} RunningWindowsAreCounted(rule: Rule, ops: seq<Op>, bucket: Bucket, q: int)
    requires Timed(ops) && Spares(rule, ops)
    ensures CountedAt(Run(rule, ops), rule, ops, LastTime(ops), bucket, q)
  {
    if ops != [] {
      SparesFront(rule, ops);
      RunningWindowsAreCounted(rule, ops[..|ops| - 1], bucket, q);
      if ops[|ops| - 1].HitOp? {
        HitIsCounted(rule, ops, bucket, q);
      } else {
        PruneIsCounted(rule, ops, bucket, q);
      }
    }
  }

  /**
   In every run whose prunings spare running windows: an attempt is admitted if and only if fewer than the limit were
   made for its bucket in its window before it, the refused ones included.
   */
  lemma {:induction false} AdmittedIffBelowLimit(rule: Rule, ops: seq<Op>, bucket: Bucket, now: Time)
    requires Timed(ops + [HitOp(bucket, now)]) && Spares(rule, ops)
    ensures var s, r := Run(rule, ops), Run(rule, ops + [HitOp(bucket, now)]);
      if Attempts(ops, bucket, Index(rule.window, now), rule.window) < rule.limit
      then r.admitted == s.admitted + [Admission(bucket, now)] else r.admitted == s.admitted
  {
    var all := ops + [HitOp(bucket, now)];
    RunMore(rule, ops, HitOp(bucket, now));
    assert forall i | 0 <= i < |ops| :: all[i] == ops[i];
    assert ops != [] ==> all[|ops| - 1].now <= all[|ops|].now;
    WindowOf(rule.window, now);
    RunningWindowsAreCounted(rule, ops, bucket, Index(rule.window, now));
  }

  // ---------- the table ----------

  class RateLimiter {
    var counts: map<(Bucket, int), nat>
    ghost var admitted: seq<Admission>

    ghost function Value(): State
      reads this
    {
      State(counts, admitted)
    }

    constructor ()
      ensures Value() == EMPTY
    {
      counts, admitted := map[], [];
    }

    /** Count the attempt; it is blocked exactly when it is not admitted. */
    method Attempt(bucket: Bucket, rule: Rule, now: Time) returns (blocked: bool, count: nat)
      modifies this
      ensures Value() == Hit(old(Value()), rule, bucket, now)
      ensures count == CountAt(counts, bucket, WindowStart(rule.window, now)) && blocked == (count > rule.limit)
      ensures blocked <==> admitted == old(admitted)
    {
      var epoch := now.Floor;
      var w := epoch - epoch % rule.window;
      count := 1;
      if (bucket, w) in counts {
        count := counts[(bucket, w)] + 1;
      }
      counts := counts[(bucket, w) := count];
      blocked := count > rule.limit;
      if !blocked {
        admitted := admitted + [Admission(bucket, now)];
      }
    }
  }
}
