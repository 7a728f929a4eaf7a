/** What a fan-out leaves in the log of each connection, with everything else that is enqueued meanwhile. */
module BrokerLogs {
  import opened Common
  import opened BrokerModel
  import opened BrokerIndex
  import opened BrokerLimits
  import opened BrokerFanout
  import opened BrokerDelivery

  // ---------- which ids a log holds ----------

  /** While it is open, the log of `id` begins with `base` and holds the row-change ids `ids`. */
  predicate LogIs(s: State, id: ConnId, base: seq<Frame>, ids: multiset<SubId>) {
    && id < s.nextConn
    && (id in s.conns ==> base <= s.conns[id].log && IdsIn(s.conns[id].log) == ids)
  }

  function FrameIds(f: Frame): multiset<SubId> { if f.Changes? then multiset(f.ids) else multiset{} }

  lemma LogMore(c: Conn, f: Frame)
    ensures Enqueue(c, f).log == c.log + [f] && IdsIn(Enqueue(c, f).log) == IdsIn(c.log) + FrameIds(f)
  {
    assert (c.log + [f])[..|c.log|] == c.log;
  }

  lemma EmitLog(s: State, to: set<ConnId>, f: Frame, id: ConnId, base: seq<Frame>, ids: multiset<SubId>)
    requires LogIs(s, id, base, ids) && !f.Changes?
    ensures LogIs(s.(conns := EnqueueAt(s.conns, to, f)), id, base, ids)
  {
    if id in s.conns {
      LogMore(s.conns[id], f);
    }
  }

  lemma SetConnLog(s: State, x: ConnId, c: Conn, id: ConnId, base: seq<Frame>, ids: multiset<SubId>)
    requires LogIs(s, id, base, ids) && x in s.conns && c.log == s.conns[x].log
    ensures LogIs(SetConn(s, x, c), id, base, ids)
  {
  }

  lemma PutLog(s: State, x: ConnId, f: Frame, id: ConnId, base: seq<Frame>, ids: multiset<SubId>)
    requires LogIs(s, id, base, ids) && x in s.conns
    ensures LogIs(SetConn(s, x, Enqueue(s.conns[x], f)), id, base, if x == id then ids + FrameIds(f) else ids)
  {
    LogMore(s.conns[x], f);
  }

  lemma DropPresenceLog(s: State, x: ConnId, t: Topic, id: ConnId, base: seq<Frame>, ids: multiset<SubId>)
    requires LogIs(s, id, base, ids)
    ensures LogIs(DropPresence(s, x, t), id, base, ids)
  {
    var stripped := s.(presence := Strip(s.presence, x, t));
    EmitLog(stripped, MembersOf(stripped, t), PresenceDiff(t, map[], Leaves(BucketOf(s, t), x)), id, base, ids);
  }

  lemma LeaveIndexLog(s: State, x: ConnId, t: Topic, id: ConnId, base: seq<Frame>, ids: multiset<SubId>)
    requires LogIs(s, id, base, ids)
    ensures LogIs(LeaveIndex(s, x, t), id, base, ids)
  {
    DropPresenceLog(s.(topics := Unlist(s.topics, x, t)), x, t, id, base, ids);
  }

  lemma {:induction false} LeaveAllLog(s: State, x: ConnId, order: seq<Topic>, id: ConnId, base: seq<Frame>,
                                       ids: multiset<SubId>)
    requires LogIs(s, id, base, ids)
    ensures LogIs(LeaveAll(s, x, order), id, base, ids)
  {
    if order != [] {
      LeaveAllLog(s, x, order[..|order| - 1], id, base, ids);
      LeaveIndexLog(LeaveAll(s, x, order[..|order| - 1]), x, order[|order| - 1], id, base, ids);
    }
  }

  lemma UnsubscribeLog(s: State, x: ConnId, t: Topic, id: ConnId, base: seq<Frame>, ids: multiset<SubId>)
    requires LogIs(s, id, base, ids) && x in s.conns
    ensures LogIs(Unsubscribe(s, x, t), id, base, ids)
  {
    var c := Forget(s.conns[x], t);
    SetConnLog(s, x, c, id, base, ids);
    LeaveIndexLog(SetConn(s, x, c), x, t, id, base, ids);
  }

  lemma JoinLog(s: State, op: Op, maxSubs: nat, id: ConnId, base: seq<Frame>, ids: multiset<SubId>)
    requires LogIs(s, id, base, ids) && op.JoinOp? && op.id in s.conns
    ensures LogIs(Step(s, maxSubs, op), id, base, ids)
  {
    var x, t := op.id, op.topic;
    var given := Assign(op.specs, s.nextSub);
    if given.filters.Some? {
      var drawn := s.(nextSub := given.next);
      UnsubscribeLog(drawn, x, t, id, base, ids);
      var left := Left(drawn, x, t);
      var sub := Subscription(t, given.filters.value, op.echo, if op.key == "" then Decimal(x) else op.key);
      SetConnLog(left, x, Remember(left.conns[x], sub), id, base, ids);
      assert Subscribe(drawn, x, t, given.filters.value, op.echo, op.key) == Arrived(left, x, sub);
    }
  }

  lemma TrackLog(s: State, x: ConnId, t: Topic, meta: Meta, id: ConnId, base: seq<Frame>, ids: multiset<SubId>)
    requires LogIs(s, id, base, ids) && x in s.conns
    ensures LogIs(Track(s, x, t, meta), id, base, ids)
  {
    if t in s.conns[x].subs {
      var key := s.conns[x].subs[t].key;
      var bare := s.(presence := s.presence[t := TrackedBucket(s, x, t, meta)]);
      EmitLog(bare, MembersOf(bare, t), PresenceDiff(t, map[key := [meta]], map[]), id, base, ids);
    }
  }

  /** The ids a step of the broker pushes to `id`. */
  function PushedBy(op: Op, id: ConnId): multiset<SubId> {
    if op.ChangesOp? && op.id == id then multiset(op.ids) else multiset{}
  }

  lemma QuietLog(s: State, maxSubs: nat, op: Op, id: ConnId, base: seq<Frame>, ids: multiset<SubId>)
    requires LogIs(s, id, base, ids) && Quiet(op)
    ensures LogIs(Step(s, maxSubs, op), id, base, ids + PushedBy(op, id))
  {
    match op {
      case ClaimsOp(x, role, claims) =>
        if x in s.conns { SetConnLog(s, x, s.conns[x].(role := role, claims := claims), id, base, ids); }
      case PushStateOp(x, t) =>
        if x in s.conns { PutLog(s, x, PresenceState(t, PresenceOf(s, t)), id, base, ids); }
      case SendOp(t, event, payload, sender) =>
        EmitLog(s, Recipients(s, t, sender), Broadcast(t, event, payload), id, base, ids);
      case ChangesOp(x, t, sent, change) => if x in s.conns { PutLog(s, x, Changes(t, sent, change), id, base, ids); }
      case DrainOp(x) => if x in s.conns { SetConnLog(s, x, Drain(s.conns[x]), id, base, ids); }
    }
  }

  /** Of all steps of the broker only a push of row changes adds ids to a log, and only its own to its own. */
  lemma StepLog(s: State, maxSubs: nat, op: Op, id: ConnId, base: seq<Frame>, ids: multiset<SubId>)
    requires LogIs(s, id, base, ids)
    ensures LogIs(Step(s, maxSubs, op), id, base, ids + PushedBy(op, id))
  {
    if Quiet(op) {
      QuietLog(s, maxSubs, op, id, base, ids);
    } else {
      assert ids + PushedBy(op, id) == ids;
      match op {
        case RegisterOp(role, claims, capacity, cap) =>
        case UnregisterOp(x) => if x in s.conns { LeaveAllLog(Gone(s, x), x, s.conns[x].order, id, base, ids); }
        case JoinOp(x, t, specs, echo, key) => if x in s.conns { JoinLog(s, op, maxSubs, id, base, ids); }
        case LeaveOp(x, t) => if x in s.conns { UnsubscribeLog(s, x, t, id, base, ids); }
        case TrackOp(x, t, meta) => if x in s.conns { TrackLog(s, x, t, meta, id, base, ids); }
        case UntrackOp(x, t) => DropPresenceLog(s, x, t, id, base, ids);
      }
    }
  }

  // ---------- the account of a fan-out ----------

  /** The ids sent to `id`. */
  function SentTo(done: seq<Decision>, id: ConnId): multiset<SubId> {
    if done == [] then multiset{}
    else
      var last := done[|done| - 1];
      SentTo(done[..|done| - 1], id) +
      if Sent(last) && last.cand.conn == id then multiset(last.cand.ids) else multiset{}
  }

  /** The ids that others push to `id` while the fan-out is under way. */
  function ByOthers(f: Fan, maxSubs: nat, ch: Change, table: Table, steps: seq<FanStep>, id: ConnId): multiset<SubId> {
    if steps == [] then multiset{}
    else
      var front := steps[..|steps| - 1];
      ByOthers(f, maxSubs, ch, table, front, id) +
      OthersPush(FanRun(f, maxSubs, ch, table, front), steps[|steps| - 1], id)
  }

  lemma SettleLog(f: Fan, ch: Change, allowed: bool, id: ConnId, base: seq<Frame>, rest: multiset<SubId>)
    requires f.pending != [] && LogIs(f.state, id, base, rest + SentTo(f.done, id))
    ensures var r := Settle(f, ch, allowed); LogIs(r.state, id, base, rest + SentTo(r.done, id))
  {
    var r, cand := Settle(f, ch, allowed), f.pending[0];
    assert r.done[..|f.done|] == f.done;
    if allowed && cand.conn in f.state.conns {
      PutLog(f.state, cand.conn, FrameFor(f.state.conns[cand.conn], cand, ch), id, base, rest + SentTo(f.done, id));
    }
  }

  /** What a step of someone else's pushes to `id`. */
  function OthersPush(f: Fan, step: FanStep, id: ConnId): multiset<SubId> {
    if step.Other? && Yields(f) then PushedBy(step.op, id) else multiset{}
  }

  lemma OtherLog(f: Fan, maxSubs: nat, ch: Change, table: Table, step: FanStep, id: ConnId, base: seq<Frame>,
                 ids: multiset<SubId>)
    requires LogIs(f.state, id, base, ids) && Settled(f, ch, table, step).None?
    ensures var r := FanNext(f, maxSubs, ch, table, step);
      r.done == f.done && LogIs(r.state, id, base, ids + OthersPush(f, step, id))
  {
    if step.Other? && Yields(f) {
      StepLog(f.state, maxSubs, step.op, id, base, ids);
    } else {
      assert ids + multiset{} == ids;
    }
  }

  lemma OneMoreStep(f: Fan, maxSubs: nat, ch: Change, table: Table, step: FanStep, id: ConnId, base: seq<Frame>,
                    rest: multiset<SubId>)
    requires LogIs(f.state, id, base, rest + SentTo(f.done, id))
    ensures var r := FanNext(f, maxSubs, ch, table, step);
      LogIs(r.state, id, base, rest + OthersPush(f, step, id) + SentTo(r.done, id))
  {
    var more := OthersPush(f, step, id);
    if Settled(f, ch, table, step).Some? {
      SettleLog(f, ch, Settled(f, ch, table, step).value, id, base, rest);
      assert rest + multiset{} == rest;
    } else {
      OtherLog(f, maxSubs, ch, table, step, id, base, rest + SentTo(f.done, id));
      assert rest + SentTo(f.done, id) + more == rest + more + SentTo(f.done, id);
    }
  }

  /** The log of a connection holds what it held, what the fan-out sent it, and what others sent it meanwhile. */
  lemma {:induction false} LogAccount(f: Fan, maxSubs: nat, ch: Change, table: Table, steps: seq<FanStep>, id: ConnId,
                                      base: seq<Frame>, ids: multiset<SubId>)
    requires f.done == [] && LogIs(f.state, id, base, ids)
    ensures var r := FanRun(f, maxSubs, ch, table, steps);
      LogIs(r.state, id, base, ids + ByOthers(f, maxSubs, ch, table, steps, id) + SentTo(r.done, id))
  {
    if steps == [] {
      assert ids + multiset{} + multiset{} == ids;
    } else {
      var front, step := steps[..|steps| - 1], steps[|steps| - 1];
      LogAccount(f, maxSubs, ch, table, front, id, base, ids);
      var mid := FanRun(f, maxSubs, ch, table, front);
      var others := ByOthers(f, maxSubs, ch, table, front, id);
      OneMoreStep(mid, maxSubs, ch, table, step, id, base, ids + others);
      assert ids + others + OthersPush(mid, step, id) == ids + ByOthers(f, maxSubs, ch, table, steps, id);
    }
  }

  // ---------- the ids due ----------

  /** When all candidates with `n` are of `id`, or none is, what was sent to `id` of `n` is everything, or nothing. */
  lemma {:induction false} SentToOwner(done: seq<Decision>, id: ConnId, n: SubId, own: bool)
    requires forall i | 0 <= i < |done| && n in done[i].cand.ids :: own == (done[i].cand.conn == id)
    ensures SentTo(done, id)[n] == if own then SentIds(done)[n] else 0
  {
    if done != [] {
      var last := |done| - 1;
      SentToOwner(done[..last], id, n, own);
      assert n in done[last].cand.ids <==> multiset(done[last].cand.ids)[n] > 0;
    }
  }

  lemma {:induction false} OfItsConn(s: State, ch: Change, k: nat, cand: Candidate)
    requires cand in SnapshotBelow(s, ch, k)
    ensures cand in CandidatesAt(s, ch, cand.conn)
  {
    if cand in SnapshotBelow(s, ch, k - 1) {
      OfItsConn(s, ch, k - 1, cand);
    } else {
      var own := CandidatesAt(s, ch, k - 1);
      var i :| 0 <= i < |own| && own[i] == cand;
      OwnCandidates(k - 1, s.conns[k - 1].subs, s.conns[k - 1].order, ch, i);
    }
  }

  /** A candidate carries ids of its own connection's matching filters only. */
  lemma CarriesWanted(s: State, ch: Change, cand: Candidate, n: SubId)
    requires Ordered(s) && IdsUnique(s) && cand in Snapshot(s, ch) && n in cand.ids
    ensures WantedBy(s, ch, cand.conn, n)
  {
    OfItsConn(s, ch, s.nextConn, cand);
    IdOfSome(CandidatesAt(s, ch, cand.conn), n);
    OwnIds(s, ch, cand.conn, n);
  }

  lemma SentToWanted(s: State, ch: Change, done: seq<Decision>, id: ConnId, n: SubId)
    requires Ordered(s) && IdsUnique(s) && CandsOf(done) == Snapshot(s, ch)
    ensures SentTo(done, id)[n] == if WantedBy(s, ch, id, n) then SentIds(done)[n] else 0
  {
    var own := WantedBy(s, ch, id, n);
    forall i | 0 <= i < |done| && n in done[i].cand.ids ensures own == (done[i].cand.conn == id) {
      assert CandsOf(done)[i] == done[i].cand;
      CarriesWanted(s, ch, done[i].cand, n);
      if own {
        WantedByOne(s, ch, id, done[i].cand.conn, n);
      }
    }
    SentToOwner(done, id, n, own);
  }

  /** The candidate of `id` that carries `n` was authorised, and its connection was open at the push. */
  ghost predicate ServedWith(done: seq<Decision>, id: ConnId, n: SubId) {
    exists i :: 0 <= i < |done| && done[i].cand.conn == id && n in done[i].cand.ids && Sent(done[i])
  }

  lemma ServedOnce(s: State, ch: Change, r: Fan, id: ConnId, n: SubId)
    requires Ordered(s) && IdsUnique(s)
    requires r.pending == [] && CandsOf(r.done) + r.pending == Snapshot(s, ch)
    ensures SentTo(r.done, id)[n] == if WantedBy(s, ch, id, n) && ServedWith(r.done, id, n) then 1 else 0
  {
    assert CandsOf(r.done) == Snapshot(s, ch);
    SentToWanted(s, ch, r.done, id, n);
    if WantedBy(s, ch, id, n) {
      var i := DecisionOf(s, ch, r, id, n);
      if ServedWith(r.done, id, n) {
        var j :| 0 <= j < |r.done| && r.done[j].cand.conn == id && n in r.done[j].cand.ids && Sent(r.done[j]);
        WholeSnapshotIds(s, ch, n);
        SentExactly(r.done, j, n);
      }
    }
  }

  /**
   A finished fan-out, whatever ran during its probes. The log of a connection that is still open is what it was and
   more, and of every id it has gained exactly what others pushed, and one when a filter with that id matched at the
   listing and its candidate was authorised and then found open.
   */
  lemma LogsGainExactly(maxSubs: nat, ops: seq<Op>, ch: Change, table: Table, steps: seq<FanStep>, id: ConnId, n: SubId)
    requires id in Run(EMPTY, maxSubs, ops).conns
    requires FanRun(Begin(Run(EMPTY, maxSubs, ops), ch), maxSubs, ch, table, steps).pending == []
    ensures var s := Run(EMPTY, maxSubs, ops);
      var r := FanRun(Begin(s, ch), maxSubs, ch, table, steps);
      id in r.state.conns ==>
        && s.conns[id].log <= r.state.conns[id].log
        && IdsIn(r.state.conns[id].log)[n] ==
             IdsIn(s.conns[id].log)[n] + ByOthers(Begin(s, ch), maxSubs, ch, table, steps, id)[n] +
             if WantedBy(s, ch, id, n) && ServedWith(r.done, id, n) then 1 else 0
  {
    var s := Run(EMPTY, maxSubs, ops);
    var f := Begin(s, ch);
    EveryRunIsCoherent(maxSubs, ops);
    EveryIdIsUnique(maxSubs, ops);
    DecidedInOrder(f, maxSubs, ch, table, steps);
    LogAccount(f, maxSubs, ch, table, steps, id, s.conns[id].log, IdsIn(s.conns[id].log));
    ServedOnce(s, ch, FanRun(f, maxSubs, ch, table, steps), id, n);
  }
}
