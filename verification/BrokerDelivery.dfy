/**
 A fan-out in progress. Authorising a candidate suspends only where it probes the database; while a probe is out any
 other step of the broker may run, joins, leaves, disconnects and other fan-outs included.
 */
module BrokerDelivery {
  import opened Common
  import opened BrokerModel
  import opened BrokerIndex
  import opened BrokerLimits
  import opened BrokerFanout
  import Topics

  // A candidate that had its turn: whether it was authorised, and whether its connection was open at the push.
  datatype Decision = Decision(cand: Candidate, allowed: bool, open: bool)

  // Between two candidates nothing else runs; while the database is probed for one, anything may.
  datatype Turn = Between | Probing(allowed: bool)

  datatype Fan = Fan(state: State, pending: seq<Candidate>, turn: Turn, done: seq<Decision>)

  // `Ask` authorises the first pending candidate at time `now`, on the role and claims of that moment; `Answer` is the
  // moment its probe has returned.
  datatype FanStep = Other(op: Op) | Ask(now: int, oracle: Oracle) | Answer

  function Begin(s: State, ch: Change): Fan { Fan(s, Snapshot(s, ch), Between, []) }

  predicate Sent(d: Decision) { d.allowed && d.open }

  /** The row of an insert or update is looked up by its key, so the key has to be there. */
  predicate HasKey(ch: Change, table: Table) {
    ch.kind != Delete && forall i | 0 <= i < |table.pk| :: ch.record.Some? && table.pk[i] in ch.record.value
  }

  /**
   The authorisation waits for the database. What a closed connection was is no longer in the state, so for it a probe
   is always taken to be out; with nothing before its answer that is a turn without one.
   */
  predicate Probes(s: State, cand: Candidate, ch: Change, table: Table, now: int) {
    HasKey(ch, table) &&
    (cand.conn in s.conns ==>
       s.conns[cand.conn].role != "service_role" && !Expired(s.conns[cand.conn].claims, now))
  }

  /** Other steps run while a probe is out, and after the last candidate. */
  predicate Yields(f: Fan) { f.pending == [] || f.turn.Probing? }

  /** Whether the step decides the first pending candidate, and how. */
  function Settled(f: Fan, ch: Change, table: Table, step: FanStep): Option<bool> {
    match step
    case Other(_) => None
    case Ask(now, o) =>
      if f.pending == [] || f.turn.Probing? || Probes(f.state, f.pending[0], ch, table, now) then None
      else Some(Served(f.state, f.pending[0], ch, table, now, o))
    case Answer => if f.pending != [] && f.turn.Probing? then Some(f.turn.allowed) else None
  }

  /** The frame, if any, is labelled and enqueued; a connection that has closed gets nothing. */
  function Settle(f: Fan, ch: Change, allowed: bool): Fan
    requires f.pending != []
  {
    var cand := f.pending[0];
    Fan(if allowed then Push(f.state, cand, ch) else f.state, f.pending[1..], Between,
        f.done + [Decision(cand, allowed, cand.conn in f.state.conns)])
  }

  /** A step that is not possible does nothing. */
  function FanNext(f: Fan, maxSubs: nat, ch: Change, table: Table, step: FanStep): Fan {
    if Settled(f, ch, table, step).Some? then Settle(f, ch, Settled(f, ch, table, step).value)
    else
      match step
      case Other(op) => if Yields(f) then f.(state := Step(f.state, maxSubs, op)) else f
      case Ask(now, o) =>
        if Yields(f) then f else f.(turn := Probing(Served(f.state, f.pending[0], ch, table, now, o)))
      case Answer => f
  }

  function FanRun(f: Fan, maxSubs: nat, ch: Change, table: Table, steps: seq<FanStep>): Fan {
    if steps == [] then f
    else FanNext(FanRun(f, maxSubs, ch, table, steps[..|steps| - 1]), maxSubs, ch, table, steps[|steps| - 1])
  }

  lemma FanRunMore(f: Fan, maxSubs: nat, ch: Change, table: Table, steps: seq<FanStep>, step: FanStep)
    ensures FanRun(f, maxSubs, ch, table, steps + [step]) ==
            FanNext(FanRun(f, maxSubs, ch, table, steps), maxSubs, ch, table, step)
  {
    assert (steps + [step])[..|steps|] == steps;
  }

  // ---------- with nothing during the probes ----------

  function Straight(now: int, o: Oracle, n: nat): seq<FanStep> {
    if n == 0 then [] else Straight(now, o, n - 1) + [Ask(now, o)] + [Answer]
  }

  lemma OneTurn(f: Fan, maxSubs: nat, ch: Change, table: Table, now: int, o: Oracle)
    requires f.pending != [] && f.turn == Between
    ensures var r := FanNext(FanNext(f, maxSubs, ch, table, Ask(now, o)), maxSubs, ch, table, Answer);
      && r.state == Deliver(f.state, f.pending[0], ch, table, now, o)
      && r.pending == f.pending[1..] && r.turn == Between
  {
  }

  lemma OneTurnMore(f: Fan, maxSubs: nat, ch: Change, table: Table, now: int, o: Oracle, steps: seq<FanStep>)
    requires FanRun(f, maxSubs, ch, table, steps).pending != [] && FanRun(f, maxSubs, ch, table, steps).turn == Between
    ensures var mid := FanRun(f, maxSubs, ch, table, steps);
      var r := FanRun(f, maxSubs, ch, table, steps + [Ask(now, o)] + [Answer]);
      && r.state == Deliver(mid.state, mid.pending[0], ch, table, now, o)
      && r.pending == mid.pending[1..] && r.turn == Between
  {
    FanRunMore(f, maxSubs, ch, table, steps, Ask(now, o));
    FanRunMore(f, maxSubs, ch, table, steps + [Ask(now, o)], Answer);
    OneTurn(FanRun(f, maxSubs, ch, table, steps), maxSubs, ch, table, now, o);
  }

  lemma ServeAllNext(s: State, cands: seq<Candidate>, n: nat, ch: Change, table: Table, now: int, o: Oracle)
    requires 0 < n <= |cands|
    ensures ServeAll(s, cands[..n], ch, table, now, o) ==
            Deliver(ServeAll(s, cands[..n - 1], ch, table, now, o), cands[n - 1..][0], ch, table, now, o)
    ensures cands[n - 1..][1..] == cands[n..]
  {
    assert cands[..n][..n - 1] == cands[..n - 1];
  }

  lemma {:induction false} StraightServes(s: State, maxSubs: nat, ch: Change, table: Table, now: int, o: Oracle,
                                          cands: seq<Candidate>, n: nat)
    requires n <= |cands|
    ensures var r := FanRun(Fan(s, cands, Between, []), maxSubs, ch, table, Straight(now, o, n));
      r.state == ServeAll(s, cands[..n], ch, table, now, o) && r.pending == cands[n..] && r.turn == Between
  {
    if n > 0 {
      StraightServes(s, maxSubs, ch, table, now, o, cands, n - 1);
      OneTurnMore(Fan(s, cands, Between, []), maxSubs, ch, table, now, o, Straight(now, o, n - 1));
      ServeAllNext(s, cands, n, ch, table, now, o);
    }
  }

  /** The fan-out in one go is the run in which every candidate is asked for and answered with nothing in between. */
  lemma StraightIsFanOut(s: State, maxSubs: nat, ch: Change, table: Table, now: int, o: Oracle)
    ensures var r := FanRun(Begin(s, ch), maxSubs, ch, table, Straight(now, o, |Snapshot(s, ch)|));
      r.state == FanOut(s, ch, table, now, o) && r.pending == []
  {
    StraightServes(s, maxSubs, ch, table, now, o, Snapshot(s, ch), |Snapshot(s, ch)|);
    assert Snapshot(s, ch)[..|Snapshot(s, ch)|] == Snapshot(s, ch);
  }

  // ---------- it is a run of the broker ----------

  /** The step pushes a frame. */
  predicate Pushes(f: Fan, ch: Change, table: Table, step: FanStep) {
    Settled(f, ch, table, step) == Some(true) && f.pending[0].conn in f.state.conns
  }

  function AsOps(f: Fan, ch: Change, table: Table, step: FanStep): seq<Op> {
    if Pushes(f, ch, table, step) then
      var cand := f.pending[0];
      [ChangesOp(cand.conn, FrameFor(f.state.conns[cand.conn], cand, ch).topic, cand.ids, ch)]
    else if step.Other? && Yields(f) then [step.op]
    else []
  }

  function Trace(f: Fan, maxSubs: nat, ch: Change, table: Table, steps: seq<FanStep>): seq<Op> {
    if steps == [] then []
    else
      var front := steps[..|steps| - 1];
      Trace(f, maxSubs, ch, table, front) + AsOps(FanRun(f, maxSubs, ch, table, front), ch, table, steps[|steps| - 1])
  }

  lemma AsOpsIsStep(f: Fan, maxSubs: nat, ch: Change, table: Table, step: FanStep)
    ensures var ops := AsOps(f, ch, table, step);
      |ops| <= 1 && FanNext(f, maxSubs, ch, table, step).state ==
        if ops == [] then f.state else Step(f.state, maxSubs, ops[0])
  {
  }

  /** So every invariant of runs holds throughout a fan-out. */
  lemma {:induction false} FanOutIsARun(maxSubs: nat, ops: seq<Op>, ch: Change, table: Table, steps: seq<FanStep>)
    ensures var f := Begin(Run(EMPTY, maxSubs, ops), ch);
      FanRun(f, maxSubs, ch, table, steps).state == Run(EMPTY, maxSubs, ops + Trace(f, maxSubs, ch, table, steps))
  {
    var f := Begin(Run(EMPTY, maxSubs, ops), ch);
    if steps == [] {
      assert ops + [] == ops;
    } else {
      var front := steps[..|steps| - 1];
      FanOutIsARun(maxSubs, ops, ch, table, front);
      var mid := FanRun(f, maxSubs, ch, table, front);
      AsOpsIsStep(mid, maxSubs, ch, table, steps[|steps| - 1]);
      var more := AsOps(mid, ch, table, steps[|steps| - 1]);
      var before := ops + Trace(f, maxSubs, ch, table, front);
      assert ops + Trace(f, maxSubs, ch, table, steps) == before + more;
      if more != [] {
        assert (before + more)[..|before + more| - 1] == before;
      } else {
        assert before + more == before;
      }
    }
  }

  // ---------- ids stay within the snapshot ----------

  function CandsOf(done: seq<Decision>): seq<Candidate> {
    seq(|done|, i requires 0 <= i < |done| => done[i].cand)
  }

  /** Each candidate of the snapshot is decided once, in order. */
  lemma {:induction false} DecidedInOrder(f: Fan, maxSubs: nat, ch: Change, table: Table, steps: seq<FanStep>)
    requires f.done == []
    ensures var r := FanRun(f, maxSubs, ch, table, steps); CandsOf(r.done) + r.pending == f.pending
  {
    if steps == [] {
      assert CandsOf(f.done) == [];
    } else {
      DecidedInOrder(f, maxSubs, ch, table, steps[..|steps| - 1]);
      var mid := FanRun(f, maxSubs, ch, table, steps[..|steps| - 1]);
      var r := FanRun(f, maxSubs, ch, table, steps);
      if |r.done| > |mid.done| {
        assert CandsOf(r.done) == CandsOf(mid.done) + [mid.pending[0]];
      }
    }
  }

  /** The ids of a list of candidates, with repetitions. */
  function IdsOf(cands: seq<Candidate>): multiset<SubId> {
    if cands == [] then multiset{} else IdsOf(cands[..|cands| - 1]) + multiset(cands[|cands| - 1].ids)
  }

  /** The ids that were sent. */
  function SentIds(done: seq<Decision>): multiset<SubId> {
    if done == [] then multiset{}
    else
      SentIds(done[..|done| - 1]) +
      if Sent(done[|done| - 1]) then multiset(done[|done| - 1].cand.ids) else multiset{}
  }

  lemma {:induction false} SentAmongDecided(done: seq<Decision>)
    ensures SentIds(done) <= IdsOf(CandsOf(done))
  {
    if done != [] {
      SentAmongDecided(done[..|done| - 1]);
      assert CandsOf(done)[..|done| - 1] == CandsOf(done[..|done| - 1]);
    }
  }

  lemma {:induction false} IdsOfSplit(a: seq<Candidate>, b: seq<Candidate>)
    ensures IdsOf(a + b) == IdsOf(a) + IdsOf(b)
    decreases |b|
  {
    if b == [] {
      assert a + b == a;
    } else {
      var last := |b| - 1;
      IdsOfSplit(a, b[..last]);
      assert (a + b)[..|a + b| - 1] == a + b[..last];
    }
  }

  lemma {:induction false} ChannelIds(id: ConnId, c: Conn, order: seq<Topic>, ch: Change)
    ensures IdsOf(CandidatesOf(id, c.subs, order, ch)) ==
            IdsIn(FramesTo(id, c, CandidatesOf(id, c.subs, order, ch), ch))
  {
    if order != [] {
      ChannelIds(id, c, order[..|order| - 1], ch);
      var front, all := CandidatesOf(id, c.subs, order[..|order| - 1], ch), CandidatesOf(id, c.subs, order, ch);
      if |all| > |front| {
        assert all[..|front|] == front;
        FramesMore(id, c, front, all[|front|], ch);
      }
    }
  }

  /** Some registered connection below `k` wants `n`. */
  ghost predicate WantedBelow(s: State, ch: Change, k: ConnId, n: SubId) {
    exists id: ConnId :: id < k && WantedBy(s, ch, id, n)
  }

  ghost predicate WantedBy(s: State, ch: Change, id: ConnId, n: SubId) {
    id in s.conns && Wanted(s.conns[id].subs, s.conns[id].order, ch, n)
  }

  lemma WantedByOne(s: State, ch: Change, a: ConnId, b: ConnId, n: SubId)
    requires IdsUnique(s) && WantedBy(s, ch, a, n) && WantedBy(s, ch, b, n)
    ensures a == b
  {
    var t, i := WantedHolds(s, ch, a, n);
    var u, j := WantedHolds(s, ch, b, n);
  }

  lemma WantedHolds(s: State, ch: Change, id: ConnId, n: SubId) returns (t: Topic, i: int)
    requires WantedBy(s, ch, id, n)
    ensures Holds(SubsOf(s.conns), id, t, i, n)
  {
    var c := s.conns[id];
    t :| t in c.order && t in c.subs && WantedIn(c.subs[t].filters, ch, n);
    var filters := c.subs[t].filters;
    i :| 0 <= i < |filters| && WantedAt(filters[i], ch, n);
  }

  lemma OwnIds(s: State, ch: Change, id: ConnId, n: SubId)
    requires Ordered(s) && IdsUnique(s)
    ensures IdsOf(CandidatesAt(s, ch, id))[n] == if WantedBy(s, ch, id, n) then 1 else 0
  {
    if id in s.conns {
      var c := s.conns[id];
      assert ConnOrdered(c);
      IdsDistinct(s, id);
      ChannelIds(id, c, c.order, ch);
      IdsOfChannels(id, c, c.subs, c.order, ch, n);
    }
  }

  lemma WantedBelowMore(s: State, ch: Change, k: nat, n: SubId)
    requires k > 0 && IdsUnique(s)
    ensures WantedBelow(s, ch, k, n) <==> WantedBelow(s, ch, k - 1, n) || WantedBy(s, ch, k - 1, n)
    ensures !(WantedBelow(s, ch, k - 1, n) && WantedBy(s, ch, k - 1, n))
  {
    if WantedBy(s, ch, k - 1, n) {
      forall id: ConnId | id < k - 1 ensures !WantedBy(s, ch, id, n) {
        if WantedBy(s, ch, id, n) {
          WantedByOne(s, ch, id, k - 1, n);
        }
      }
    }
  }

  lemma SnapshotMore(s: State, ch: Change, k: nat, n: SubId)
    requires k > 0
    ensures IdsOf(SnapshotBelow(s, ch, k))[n] ==
            IdsOf(SnapshotBelow(s, ch, k - 1))[n] + IdsOf(CandidatesAt(s, ch, k - 1))[n]
  {
    IdsOfSplit(SnapshotBelow(s, ch, k - 1), CandidatesAt(s, ch, k - 1));
  }

  /** How often `n` should be in the snapshot of the connections below `k`. */
  ghost function Due(s: State, ch: Change, k: nat, n: SubId): nat { if WantedBelow(s, ch, k, n) then 1 else 0 }

  lemma DueOfOne(s: State, ch: Change, k: nat, n: SubId)
    requires k > 0 && IdsUnique(s)
    ensures Due(s, ch, k, n) == Due(s, ch, k - 1, n) + if WantedBy(s, ch, k - 1, n) then 1 else 0
  {
    WantedBelowMore(s, ch, k, n);
  }

  lemma DueMore(s: State, ch: Change, k: nat, n: SubId)
    requires k > 0 && Ordered(s) && IdsUnique(s)
    ensures Due(s, ch, k, n) == Due(s, ch, k - 1, n) + IdsOf(CandidatesAt(s, ch, k - 1))[n]
  {
    DueOfOne(s, ch, k, n);
    OwnIds(s, ch, k - 1, n);
  }

  /** The snapshot names every wanted id once. */
  lemma {:induction false} SnapshotIds(s: State, ch: Change, k: nat, n: SubId)
    requires forall j: nat | j > 0 :: Due(s, ch, j, n) == Due(s, ch, j - 1, n) + IdsOf(CandidatesAt(s, ch, j - 1))[n]
    ensures IdsOf(SnapshotBelow(s, ch, k))[n] == Due(s, ch, k, n)
  {
    if k > 0 {
      SnapshotIds(s, ch, k - 1, n);
      SnapshotMore(s, ch, k, n);
    }
  }

  lemma WholeSnapshotIds(s: State, ch: Change, n: SubId)
    requires Ordered(s) && IdsUnique(s)
    ensures IdsOf(Snapshot(s, ch))[n] == Due(s, ch, s.nextConn, n)
  {
    forall j: nat | j > 0 ensures Due(s, ch, j, n) == Due(s, ch, j - 1, n) + IdsOf(CandidatesAt(s, ch, j - 1))[n] {
      DueMore(s, ch, j, n);
    }
    SnapshotIds(s, ch, s.nextConn, n);
  }

  /**
   In every interleaving, an id is sent at most once, and only when a filter with that id matched at the snapshot;
   and every candidate of the snapshot is decided exactly once.
   */
  lemma InterleavedIdsAreOfTheSnapshot(maxSubs: nat, ops: seq<Op>, ch: Change, table: Table, steps: seq<FanStep>,
                                       n: SubId)
    ensures var s := Run(EMPTY, maxSubs, ops);
      var r := FanRun(Begin(s, ch), maxSubs, ch, table, steps);
      && CandsOf(r.done) + r.pending == Snapshot(s, ch)
      && SentIds(r.done)[n] <= Due(s, ch, s.nextConn, n)
  {
    var s := Run(EMPTY, maxSubs, ops);
    var r := FanRun(Begin(s, ch), maxSubs, ch, table, steps);
    EveryRunIsCoherent(maxSubs, ops);
    EveryIdIsUnique(maxSubs, ops);
    WholeSnapshotIds(s, ch, n);
    DecidedInOrder(Begin(s, ch), maxSubs, ch, table, steps);
    SentAmongDecided(r.done);
    IdsOfSplit(CandsOf(r.done), r.pending);
  }

  // ---------- closed connections ----------

  lemma StepKeepsGone(s: State, maxSubs: nat, op: Op, id: ConnId)
    requires Coherent(s) && id < s.nextConn && id !in s.conns
    ensures var r := Step(s, maxSubs, op); id < r.nextConn && id !in r.conns
  {
    match op {
      case RegisterOp(role, claims, capacity, cap) =>
      case UnregisterOp(x) => if x in s.conns { LeaveAllQueuesOnly(Gone(s, x), x, s.conns[x].order); }
      case JoinOp(x, t, specs, echo, key) =>
        if x in s.conns { LeaveIndexView(Forgotten(s.(nextSub := Assign(specs, s.nextSub).next), x, t), x, t); }
      case LeaveOp(x, t) => if x in s.conns { LeaveIndexView(Forgotten(s, x, t), x, t); }
      case TrackOp(x, t, meta) => if x in s.conns && t in s.conns[x].subs { TrackView(s, x, t, meta); }
      case UntrackOp(x, t) => UntrackView(s, x, t);
      case _ => QuietView(s, maxSubs, op);
    }
  }

  /**
   Once a connection is closed it stays closed, and nothing more is sent to it, whatever was still pending or already
   authorised.
   */
  lemma {:induction false} ClosedGetsNothing(f: Fan, maxSubs: nat, ch: Change, table: Table, steps: seq<FanStep>,
                                             id: ConnId)
    requires Coherent(f.state) && id < f.state.nextConn && id !in f.state.conns
    ensures var r := FanRun(f, maxSubs, ch, table, steps);
      && Coherent(r.state) && id < r.state.nextConn && id !in r.state.conns
      && |f.done| <= |r.done| && r.done[..|f.done|] == f.done
      && (forall i | |f.done| <= i < |r.done| :: r.done[i].cand.conn == id ==> !Sent(r.done[i]))
  {
    if steps != [] {
      var front := steps[..|steps| - 1];
      ClosedGetsNothing(f, maxSubs, ch, table, front, id);
      var mid := FanRun(f, maxSubs, ch, table, front);
      var step := steps[|steps| - 1];
      AsOpsIsStep(mid, maxSubs, ch, table, step);
      var ops := AsOps(mid, ch, table, step);
      if ops != [] {
        StepKeepsCoherence(mid.state, maxSubs, ops[0]);
        StepKeepsGone(mid.state, maxSubs, ops[0], id);
      }
    }
  }

  // ---------- each candidate's turn ----------

  /** Step `a` authorised `cand`, the first pending candidate of its moment, on what its connection then was. */
  ghost predicate AskedAt(f: Fan, maxSubs: nat, ch: Change, table: Table, steps: seq<FanStep>, a: nat, cand: Candidate,
                          allowed: bool)
  {
    && a < |steps| && steps[a].Ask?
    && var g := FanRun(f, maxSubs, ch, table, steps[..a]);
       && g.pending != [] && g.pending[0] == cand && !g.turn.Probing?
       && allowed == Served(g.state, cand, ch, table, steps[a].now, steps[a].oracle)
  }

  /** Step `b` settled `cand`, whose connection was open then or not. */
  ghost predicate SettledAt(f: Fan, maxSubs: nat, ch: Change, table: Table, steps: seq<FanStep>, b: nat,
                            cand: Candidate, open: bool)
  {
    && b < |steps|
    && var g := FanRun(f, maxSubs, ch, table, steps[..b]);
       && Settled(g, ch, table, steps[b]).Some? && g.pending[0] == cand
       && open == (cand.conn in g.state.conns)
  }

  /** A decision names an authorisation of its own candidate, and its push, at once or when the probe returned. */
  ghost predicate HadTurn(f: Fan, maxSubs: nat, ch: Change, table: Table, steps: seq<FanStep>, d: Decision) {
    exists a: nat, b: nat ::
      && a <= b < |steps| && (a < b <==> steps[b].Answer?)
      && AskedAt(f, maxSubs, ch, table, steps, a, d.cand, d.allowed)
      && SettledAt(f, maxSubs, ch, table, steps, b, d.cand, d.open)
  }

  lemma AskedBefore(f: Fan, maxSubs: nat, ch: Change, table: Table, steps: seq<FanStep>, n: nat, a: nat,
                    cand: Candidate, allowed: bool)
    requires n <= |steps| && AskedAt(f, maxSubs, ch, table, steps[..n], a, cand, allowed)
    ensures AskedAt(f, maxSubs, ch, table, steps, a, cand, allowed)
  {
    assert steps[..n][..a] == steps[..a];
  }

  lemma HadTurnBefore(f: Fan, maxSubs: nat, ch: Change, table: Table, steps: seq<FanStep>, n: nat, d: Decision)
    requires n <= |steps| && HadTurn(f, maxSubs, ch, table, steps[..n], d)
    ensures HadTurn(f, maxSubs, ch, table, steps, d)
  {
    var a: nat, b: nat :| a <= b < n && (a < b <==> steps[..n][b].Answer?) &&
                          AskedAt(f, maxSubs, ch, table, steps[..n], a, d.cand, d.allowed) &&
                          SettledAt(f, maxSubs, ch, table, steps[..n], b, d.cand, d.open);
    AskedBefore(f, maxSubs, ch, table, steps, n, a, d.cand, d.allowed);
    assert steps[..n][..b] == steps[..b];
    assert SettledAt(f, maxSubs, ch, table, steps, b, d.cand, d.open);
  }

  /** While a probe is out, some earlier step asked for the first pending candidate. */
  ghost predicate ProbeHasTurn(f: Fan, maxSubs: nat, ch: Change, table: Table, steps: seq<FanStep>, g: Fan) {
    g.turn.Probing? ==>
      g.pending != [] && exists a: nat :: AskedAt(f, maxSubs, ch, table, steps, a, g.pending[0], g.turn.allowed)
  }

  lemma {:induction false} TurnsAreKept(f: Fan, maxSubs: nat, ch: Change, table: Table, steps: seq<FanStep>)
    requires f.done == [] && f.turn == Between
    ensures var g := FanRun(f, maxSubs, ch, table, steps);
      && ProbeHasTurn(f, maxSubs, ch, table, steps, g)
      && (forall i | 0 <= i < |g.done| :: HadTurn(f, maxSubs, ch, table, steps, g.done[i]))
  {
    if steps != [] {
      var n := |steps| - 1;
      TurnsAreKept(f, maxSubs, ch, table, steps[..n]);
      OneMoreTurn(f, maxSubs, ch, table, steps);
    }
  }

  lemma OneMoreTurn(f: Fan, maxSubs: nat, ch: Change, table: Table, steps: seq<FanStep>)
    requires steps != []
    requires var n := |steps| - 1; var mid := FanRun(f, maxSubs, ch, table, steps[..n]);
      && ProbeHasTurn(f, maxSubs, ch, table, steps[..n], mid)
      && (forall i | 0 <= i < |mid.done| :: HadTurn(f, maxSubs, ch, table, steps[..n], mid.done[i]))
    ensures var g := FanRun(f, maxSubs, ch, table, steps);
      && ProbeHasTurn(f, maxSubs, ch, table, steps, g)
      && (forall i | 0 <= i < |g.done| :: HadTurn(f, maxSubs, ch, table, steps, g.done[i]))
  {
    var n := |steps| - 1;
    var mid, g := FanRun(f, maxSubs, ch, table, steps[..n]), FanRun(f, maxSubs, ch, table, steps);
    forall i | 0 <= i < |mid.done| ensures HadTurn(f, maxSubs, ch, table, steps, mid.done[i]) {
      HadTurnBefore(f, maxSubs, ch, table, steps, n, mid.done[i]);
    }
    if mid.turn.Probing? {
      var a: nat :| AskedAt(f, maxSubs, ch, table, steps[..n], a, mid.pending[0], mid.turn.allowed);
      AskedBefore(f, maxSubs, ch, table, steps, n, a, mid.pending[0], mid.turn.allowed);
      if steps[n].Answer? {
        assert SettledAt(f, maxSubs, ch, table, steps, n, mid.pending[0], mid.pending[0].conn in mid.state.conns);
        assert a < n;
      }
    } else if steps[n].Ask? && mid.pending != [] {
      var cand := mid.pending[0];
      assert AskedAt(f, maxSubs, ch, table, steps, n, cand,
                     Served(mid.state, cand, ch, table, steps[n].now, steps[n].oracle));
      if Settled(mid, ch, table, steps[n]).Some? {
        assert SettledAt(f, maxSubs, ch, table, steps, n, cand, cand.conn in mid.state.conns);
      }
    }
  }

  // ---------- exactly the served ids ----------

  lemma {:induction false} IdOfSome(cands: seq<Candidate>, n: SubId)
    ensures IdsOf(cands)[n] > 0 <==> exists i :: 0 <= i < |cands| && n in cands[i].ids
  {
    if cands != [] {
      var last := |cands| - 1;
      IdOfSome(cands[..last], n);
      assert forall i | 0 <= i < last :: cands[..last][i] == cands[i];
      if n in cands[last].ids {
        assert IdsOf(cands)[n] >= multiset(cands[last].ids)[n] > 0;
      }
    }
  }

  /** When no id is decided twice, an id decided at `i` is sent exactly when `i` was served. */
  lemma {:induction false} SentExactly(done: seq<Decision>, i: nat, n: SubId)
    requires i < |done| && n in done[i].cand.ids && IdsOf(CandsOf(done))[n] <= 1
    ensures SentIds(done)[n] == if Sent(done[i]) then 1 else 0
  {
    var last := |done| - 1;
    var front := done[..last];
    assert CandsOf(done)[..last] == CandsOf(front);
    assert multiset(done[i].cand.ids)[n] > 0;
    SentAmongDecided(front);
    if i < last {
      IdOfSome(CandsOf(front), n);
      assert CandsOf(front)[i] == done[i].cand;
      SentExactly(front, i, n);
    }
  }

  lemma {:induction false} SnapshotKeeps(s: State, ch: Change, n: nat, k: nat, cand: Candidate)
    requires n <= k && cand in SnapshotBelow(s, ch, n)
    ensures cand in SnapshotBelow(s, ch, k)
    decreases k
  {
    if n < k {
      SnapshotKeeps(s, ch, n, k - 1, cand);
    }
  }

  /** The candidate that carries a wanted id. */
  lemma CarrierOf(s: State, ch: Change, id: ConnId, n: SubId) returns (cand: Candidate)
    requires Ordered(s) && IdsUnique(s) && WantedBy(s, ch, id, n)
    ensures cand in Snapshot(s, ch) && cand.conn == id && n in cand.ids
  {
    OwnIds(s, ch, id, n);
    var own := CandidatesAt(s, ch, id);
    IdOfSome(own, n);
    var i :| 0 <= i < |own| && n in own[i].ids;
    cand := own[i];
    OwnCandidates(id, s.conns[id].subs, s.conns[id].order, ch, i);
    assert id < s.nextConn;
    assert SnapshotBelow(s, ch, id + 1) == SnapshotBelow(s, ch, id) + own;
    SnapshotKeeps(s, ch, id + 1, s.nextConn, cand);
  }

  lemma DecisionOf(s: State, ch: Change, r: Fan, id: ConnId, n: SubId) returns (i: nat)
    requires Ordered(s) && IdsUnique(s) && WantedBy(s, ch, id, n)
    requires r.pending == [] && CandsOf(r.done) + r.pending == Snapshot(s, ch)
    ensures i < |r.done| && r.done[i].cand.conn == id && n in r.done[i].cand.ids
    ensures SentIds(r.done)[n] == if Sent(r.done[i]) then 1 else 0
  {
    var cand := CarrierOf(s, ch, id, n);
    assert CandsOf(r.done) == Snapshot(s, ch);
    i :| 0 <= i < |CandsOf(r.done)| && CandsOf(r.done)[i] == cand;
    WholeSnapshotIds(s, ch, n);
    SentExactly(r.done, i, n);
  }

  /**
   A finished fan-out, whatever ran in between: an id whose filter matched at the snapshot is sent exactly once if its
   connection was authorised when its candidate was asked for and open when the answer came, and not at all otherwise.
   */
  lemma SentOnceIffServed(maxSubs: nat, ops: seq<Op>, ch: Change, table: Table, steps: seq<FanStep>, id: ConnId,
                          n: SubId)
    returns (i: nat)
    requires WantedBy(Run(EMPTY, maxSubs, ops), ch, id, n)
    requires FanRun(Begin(Run(EMPTY, maxSubs, ops), ch), maxSubs, ch, table, steps).pending == []
    ensures var f := Begin(Run(EMPTY, maxSubs, ops), ch);
      var done := FanRun(f, maxSubs, ch, table, steps).done;
      && i < |done| && done[i].cand.conn == id && n in done[i].cand.ids
      && HadTurn(f, maxSubs, ch, table, steps, done[i])
      && SentIds(done)[n] == if done[i].allowed && done[i].open then 1 else 0
  {
    var s := Run(EMPTY, maxSubs, ops);
    var f := Begin(s, ch);
    EveryRunIsCoherent(maxSubs, ops);
    EveryIdIsUnique(maxSubs, ops);
    DecidedInOrder(f, maxSubs, ch, table, steps);
    TurnsAreKept(f, maxSubs, ch, table, steps);
    i := DecisionOf(s, ch, FanRun(f, maxSubs, ch, table, steps), id, n);
  }

  // ---------- labels ----------

  /**
   The exact condition for the label of a push, at any moment of any fan-out: it names the candidate's own channel if
   and only if that channel is then the first of the connection that matches, or none matches and it is the fallback.
   */
  lemma PushLabelIff(f: Fan, maxSubs: nat, ch: Change, table: Table, step: FanStep)
    requires Pushes(f, ch, table, step)
    ensures var cand := f.pending[0]; var c := f.state.conns[cand.conn];
      var r := FanNext(f, maxSubs, ch, table, step);
      var name := TopicFor(c.subs, c.order, ch);
      && cand.conn in r.state.conns && r.state.conns[cand.conn].log == c.log + [Changes(name, cand.ids, ch)]
      && (name == cand.topic <==>
            FirstMatching(c.subs, c.order, ch, cand.topic) ||
            (NoneMatching(c.subs, c.order, ch) && cand.topic == Fallback(c.order)))
  {
    var cand := f.pending[0];
    var c := f.state.conns[cand.conn];
    LabelIs(c.subs, c.order, ch, cand.topic);
  }

  // One connection of an ordinary role with one channel that watches the whole table.

  function RoomOps(claims: Claims, ch: Change): seq<Op> {
    [RegisterOp("authenticated", claims, 0, 1), WatchOp("realtime:a", ch)]
  }

  function Lurker(claims: Claims): Conn { Fresh("authenticated", claims, 0) }

  function Room(c: Conn, topics: map<Topic, set<ConnId>>): State { State(map[1 := c], topics, map[], 2, 2) }

  function RoomJoined(claims: Claims, ch: Change): State { OneRoom("authenticated", claims, ch) }

  lemma RoomIsJoined(claims: Claims, ch: Change)
    ensures Run(EMPTY, 2, RoomOps(claims, ch)) == RoomJoined(claims, ch)
  {
    var ops := RoomOps(claims, ch);
    assert ops[..1] == [ops[0]] && ops[..1][..0] == [];
    assert Run(EMPTY, 2, ops[..1]) == State(map[1 := Lurker(claims)], map[], map[], 2, 1);
    FirstRoom("authenticated", claims, ch);
  }

  lemma JoinedSnapshot(claims: Claims, ch: Change)
    ensures Snapshot(RoomJoined(claims, ch), ch) == [Candidate(1, "realtime:a", [1])]
  {
    var s := RoomJoined(claims, ch);
    var c := s.conns[1];
    var filters := c.subs["realtime:a"].filters;
    assert filters[..0] == [] && MatchedIds(filters, ch) == [1];
    assert c.order[..0] == [];
    assert CandidatesOf(1, c.subs, c.order, ch) == [Candidate(1, "realtime:a", [1])];
    assert SnapshotBelow(s, ch, 1) == [];
    assert SnapshotBelow(s, ch, 2) == [Candidate(1, "realtime:a", [1])];
  }

  lemma RoomIsLeft(claims: Claims, ch: Change)
    ensures Unsubscribe(RoomJoined(claims, ch), 1, "realtime:a") == Room(Lurker(claims), map[])
  {
    var s := RoomJoined(claims, ch);
    assert Without(["realtime:a"], "realtime:a") == [] by { assert ["realtime:a"][..0] == []; }
    assert Forget(s.conns[1], "realtime:a") == Lurker(claims);
    assert Unlist(s.topics, 1, "realtime:a") == map[];
    var r := Unsubscribe(s, 1, "realtime:a");
    assert Leaves(BucketOf(s, "realtime:a"), 1) == map[];
    assert r.conns == map[1 := Lurker(claims)];
  }

  /** The state of the fan-out once the room has been left and the probe allows. */
  function AskedAndLeft(claims: Claims): Fan {
    Fan(Room(Lurker(claims), map[]), [Candidate(1, "realtime:a", [1])], Probing(true), [])
  }

  lemma AnswerMislabels(claims: Claims, ch: Change, table: Table)
    ensures var r := FanNext(AskedAndLeft(claims), 2, ch, table, Answer);
      1 in r.state.conns && r.state.conns[1].log == [Changes("realtime:unknown", [1], ch)]
  {
    var none: seq<Frame> := [];
    assert none + [Changes("realtime:unknown", [1], ch)] == [Changes("realtime:unknown", [1], ch)];
  }

  /** The row has its key, and the probe grants it to the role and claims. */
  predicate Granted(claims: Claims, ch: Change, table: Table, now: int, o: Oracle) {
    !Expired(claims, now) && HasKey(ch, table) && Authorized("authenticated", claims, ch, table, now, o)
  }

  lemma RoomTurns(claims: Claims, ch: Change, table: Table, now: int, o: Oracle)
    requires Granted(claims, ch, table, now, o)
    ensures var f := Begin(RoomJoined(claims, ch), ch);
      && f.pending == [Candidate(1, "realtime:a", [1])]
      && FanNext(FanNext(f, 2, ch, table, Ask(now, o)), 2, ch, table, Other(LeaveOp(1, "realtime:a"))) ==
         AskedAndLeft(claims)
  {
    JoinedSnapshot(claims, ch);
    RoomIsLeft(claims, ch);
  }

  /** One matching channel, left while the probe is out: its ids arrive under a name it never joined. */
  lemma LeftRoomIsMislabelled(claims: Claims, ch: Change, table: Table, now: int, o: Oracle)
    requires Granted(claims, ch, table, now, o)
    ensures var f := Begin(Run(EMPTY, 2, RoomOps(claims, ch)), ch);
      var r := FanRun(f, 2, ch, table, [Ask(now, o), Other(LeaveOp(1, "realtime:a")), Answer]);
      && f.pending == [Candidate(1, "realtime:a", [1])]
      && 1 in r.state.conns && r.state.conns[1].log == [Changes("realtime:unknown", [1], ch)]
  {
    RoomIsJoined(claims, ch);
    RoomTurns(claims, ch, table, now, o);
    AnswerMislabels(claims, ch, table);
    ThreeSteps(Begin(RoomJoined(claims, ch), ch), ch, table, Ask(now, o), Other(LeaveOp(1, "realtime:a")), Answer);
  }

  lemma ThreeSteps(f: Fan, ch: Change, table: Table, a: FanStep, b: FanStep, c: FanStep)
    ensures FanRun(f, 2, ch, table, [a, b, c]) ==
            FanNext(FanNext(FanNext(f, 2, ch, table, a), 2, ch, table, b), 2, ch, table, c)
  {
    FanRunMore(f, 2, ch, table, [], a);
    FanRunMore(f, 2, ch, table, [a], b);
    FanRunMore(f, 2, ch, table, [a, b], c);
    assert [] + [a] == [a] && [a] + [b] == [a, b] && [a, b] + [c] == [a, b, c];
  }
}
