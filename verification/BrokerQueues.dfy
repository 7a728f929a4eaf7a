/** The outbound queue of a connection holds the latest frames that fit, and nothing is lost while there is room. */
module BrokerQueues {
  import opened Common
  import opened BrokerModel
  import opened BrokerIndex
  import opened BrokerLimits

  /** The last frames that a queue of this capacity holds; one of capacity 0 or less holds them all. */
  function Latest(frames: seq<Frame>, capacity: int): (q: seq<Frame>)
    ensures capacity > 0 ==> |q| <= capacity
  {
    if capacity <= 0 || |frames| <= capacity then frames else frames[|frames| - capacity..]
  }

  lemma LatestAgain(frames: seq<Frame>, f: Frame, capacity: int)
    ensures Latest(Latest(frames, capacity) + [f], capacity) == Latest(frames + [f], capacity)
  {
  }

  predicate Fits(frames: seq<Frame>, capacity: int) { capacity <= 0 || |frames| <= capacity }

  /**
   From `c` to `d` only frames were enqueued: they end the log, the queue holds the latest that fit, whatever else was
   waiting is counted as dropped, and with room for all of them nothing is lost.
   */
  predicate Fed(c: Conn, d: Conn) {
    && c.capacity == d.capacity && c.received == d.received && c.log <= d.log
    && var waiting := c.queue + d.log[|c.log|..];
       && d.queue == Latest(waiting, c.capacity)
       && d.dropped == c.dropped + |waiting| - |d.queue|
       && d.lost == if Fits(waiting, c.capacity) then c.lost else |d.received| + d.dropped
  }

  lemma FedNothing(c: Conn, d: Conn)
    requires Fits(c.queue, c.capacity)
    requires c.capacity == d.capacity && c.received == d.received && c.log == d.log && c.queue == d.queue
    requires c.dropped == d.dropped && c.lost == d.lost
    ensures Fed(c, d)
  {
    assert d.log[|c.log|..] == [];
    assert c.queue + [] == c.queue;
  }

  lemma FedOneMore(c: Conn, d: Conn, f: Frame)
    requires Fed(c, d)
    ensures Fed(c, Enqueue(d, f))
  {
    var waiting := c.queue + d.log[|c.log|..];
    LatestAgain(waiting, f, c.capacity);
    assert (d.log + [f])[|c.log|..] == d.log[|c.log|..] + [f];
    assert c.queue + (d.log[|c.log|..] + [f]) == waiting + [f];
    if Full(d) {
      assert Latest(d.queue + [f], c.capacity) == d.queue[1..] + [f];
    } else {
      assert Latest(d.queue + [f], c.capacity) == d.queue + [f];
    }
  }

  /** While it is open, connection `id` has been fed since it was `c`. */
  predicate FedSince(s: State, id: ConnId, c: Conn) {
    id < s.nextConn && (id in s.conns ==> Fed(c, s.conns[id]))
  }

  predicate SameQueue(c: Conn, d: Conn) {
    && c.capacity == d.capacity && c.received == d.received && c.log == d.log && c.queue == d.queue
    && c.dropped == d.dropped && c.lost == d.lost
  }

  lemma EmitFeeds(s: State, to: set<ConnId>, f: Frame, id: ConnId, c: Conn)
    requires FedSince(s, id, c)
    ensures FedSince(s.(conns := EnqueueAt(s.conns, to, f)), id, c)
  {
    if id in s.conns {
      FedOneMore(c, s.conns[id], f);
    }
  }

  lemma SetFeeds(s: State, x: ConnId, d: Conn, id: ConnId, c: Conn)
    requires FedSince(s, id, c) && x in s.conns && SameQueue(s.conns[x], d)
    ensures FedSince(SetConn(s, x, d), id, c)
  {
  }

  lemma PutFeeds(s: State, x: ConnId, f: Frame, id: ConnId, c: Conn)
    requires FedSince(s, id, c) && x in s.conns
    ensures FedSince(SetConn(s, x, Enqueue(s.conns[x], f)), id, c)
  {
    if id == x {
      FedOneMore(c, s.conns[x], f);
    }
  }

  lemma DropPresenceFeeds(s: State, x: ConnId, t: Topic, id: ConnId, c: Conn)
    requires FedSince(s, id, c)
    ensures FedSince(DropPresence(s, x, t), id, c)
  {
    var stripped := s.(presence := Strip(s.presence, x, t));
    EmitFeeds(stripped, MembersOf(stripped, t), PresenceDiff(t, map[], Leaves(BucketOf(s, t), x)), id, c);
  }

  lemma LeaveIndexFeeds(s: State, x: ConnId, t: Topic, id: ConnId, c: Conn)
    requires FedSince(s, id, c)
    ensures FedSince(LeaveIndex(s, x, t), id, c)
  {
    DropPresenceFeeds(s.(topics := Unlist(s.topics, x, t)), x, t, id, c);
  }

  lemma {:induction false} LeaveAllFeeds(s: State, x: ConnId, order: seq<Topic>, id: ConnId, c: Conn)
    requires FedSince(s, id, c)
    ensures FedSince(LeaveAll(s, x, order), id, c)
  {
    if order != [] {
      LeaveAllFeeds(s, x, order[..|order| - 1], id, c);
      LeaveIndexFeeds(LeaveAll(s, x, order[..|order| - 1]), x, order[|order| - 1], id, c);
    }
  }

  lemma UnsubscribeFeeds(s: State, x: ConnId, t: Topic, id: ConnId, c: Conn)
    requires FedSince(s, id, c) && x in s.conns
    ensures FedSince(Unsubscribe(s, x, t), id, c)
  {
    var d := Forget(s.conns[x], t);
    SetFeeds(s, x, d, id, c);
    LeaveIndexFeeds(SetConn(s, x, d), x, t, id, c);
  }

  lemma SubscribeFeeds(s: State, x: ConnId, t: Topic, filters: seq<Resolved>, echo: bool, key: Key, id: ConnId, c: Conn)
    requires FedSince(s, id, c) && x in s.conns
    ensures FedSince(Subscribe(s, x, t, filters, echo, key), id, c)
  {
    UnsubscribeFeeds(s, x, t, id, c);
    var left := Left(s, x, t);
    var sub := Subscription(t, filters, echo, if key == "" then Decimal(x) else key);
    SetFeeds(left, x, Remember(left.conns[x], sub), id, c);
    assert Subscribe(s, x, t, filters, echo, key) == Arrived(left, x, sub);
  }

  lemma JoinFeeds(s: State, op: Op, maxSubs: nat, id: ConnId, c: Conn)
    requires FedSince(s, id, c) && op.JoinOp? && op.id in s.conns
    ensures FedSince(Step(s, maxSubs, op), id, c)
  {
    var given := Assign(op.specs, s.nextSub);
    if given.filters.Some? {
      SubscribeFeeds(s.(nextSub := given.next), op.id, op.topic, given.filters.value, op.echo, op.key, id, c);
    }
  }

  lemma TrackFeeds(s: State, x: ConnId, t: Topic, meta: Meta, id: ConnId, c: Conn)
    requires FedSince(s, id, c) && x in s.conns
    ensures FedSince(Track(s, x, t, meta), id, c)
  {
    if t in s.conns[x].subs {
      var key := s.conns[x].subs[t].key;
      var bare := s.(presence := s.presence[t := TrackedBucket(s, x, t, meta)]);
      EmitFeeds(bare, MembersOf(bare, t), PresenceDiff(t, map[key := [meta]], map[]), id, c);
    }
  }

  lemma QuietFeeds(s: State, maxSubs: nat, op: Op, id: ConnId, c: Conn)
    requires FedSince(s, id, c) && Quiet(op) && op != DrainOp(id)
    ensures FedSince(Step(s, maxSubs, op), id, c)
  {
    match op {
      case ClaimsOp(x, role, claims) =>
        if x in s.conns { SetFeeds(s, x, s.conns[x].(role := role, claims := claims), id, c); }
      case PushStateOp(x, t) => if x in s.conns { PutFeeds(s, x, PresenceState(t, PresenceOf(s, t)), id, c); }
      case SendOp(t, event, payload, sender) =>
        EmitFeeds(s, Recipients(s, t, sender), Broadcast(t, event, payload), id, c);
      case ChangesOp(x, t, ids, change) => if x in s.conns { PutFeeds(s, x, Changes(t, ids, change), id, c); }
      case DrainOp(x) =>
    }
  }

  lemma StepFeeds(s: State, maxSubs: nat, op: Op, id: ConnId, c: Conn)
    requires FedSince(s, id, c) && op != DrainOp(id)
    ensures FedSince(Step(s, maxSubs, op), id, c)
  {
    match op {
      case RegisterOp(role, claims, capacity, cap) =>
      case UnregisterOp(x) => if x in s.conns { LeaveAllFeeds(Gone(s, x), x, s.conns[x].order, id, c); }
      case JoinOp(x, t, specs, echo, key) => if x in s.conns { JoinFeeds(s, op, maxSubs, id, c); }
      case LeaveOp(x, t) => if x in s.conns { UnsubscribeFeeds(s, x, t, id, c); }
      case TrackOp(x, t, meta) => if x in s.conns { TrackFeeds(s, x, t, meta, id, c); }
      case UntrackOp(x, t) => DropPresenceFeeds(s, x, t, id, c);
      case _ => QuietFeeds(s, maxSubs, op, id, c);
    }
  }

  /** Every call but the writer's own take only feeds a connection; the take moves the oldest waiting frame. */
  lemma EveryStepFeeds(maxSubs: nat, ops: seq<Op>, op: Op, id: ConnId)
    requires id in Run(EMPTY, maxSubs, ops).conns
    ensures var s := Run(EMPTY, maxSubs, ops); var r := Step(s, maxSubs, op);
      && id < r.nextConn
      && (id in r.conns ==>
            var c, d := s.conns[id], r.conns[id];
            if op == DrainOp(id) && c.queue != [] then
              && d == c.(queue := d.queue, received := d.received)
              && c.queue == [c.queue[0]] + d.queue && d.received == c.received + [c.queue[0]]
            else Fed(c, d))
  {
    var s := Run(EMPTY, maxSubs, ops);
    EveryQueueIsKept(maxSubs, ops);
    EveryRunIsCoherent(maxSubs, ops);
    var c := s.conns[id];
    assert QueueKept(c);
    FedNothing(c, c);
    if op == DrainOp(id) {
      assert c.queue != [] ==> c.queue == [c.queue[0]] + c.queue[1..];
    } else {
      StepFeeds(s, maxSubs, op, id, c);
    }
  }

  // ---------- when frames are lost ----------

  /** Frames enqueued and not yet taken, lost ones included. */
  function Undelivered(c: Conn): int { |c.log| - |c.received| }

  /** After the first `i` calls the connection, if open, has no more undelivered frames than its queue can hold. */
  ghost predicate RoomyAt(maxSubs: nat, ops: seq<Op>, id: ConnId, i: int) {
    0 <= i <= |ops| ==>
      var s := Run(EMPTY, maxSubs, ops[..i]);
      id in s.conns && s.conns[id].capacity > 0 ==> Undelivered(s.conns[id]) <= s.conns[id].capacity
  }

  ghost predicate AlwaysRoomy(maxSubs: nat, ops: seq<Op>, id: ConnId) {
    forall i :: RoomyAt(maxSubs, ops, id, i)
  }

  lemma RoomyMore(maxSubs: nat, ops: seq<Op>, id: ConnId)
    requires ops != []
    ensures AlwaysRoomy(maxSubs, ops, id) <==>
            AlwaysRoomy(maxSubs, ops[..|ops| - 1], id) && RoomyAt(maxSubs, ops, id, |ops|)
  {
    var front := ops[..|ops| - 1];
    forall i | 0 <= i <= |front| ensures RoomyAt(maxSubs, ops, id, i) == RoomyAt(maxSubs, front, id, i) {
      assert front[..i] == ops[..i];
    }
  }

  /** A connection that opens in this call is new and has lost nothing. */
  lemma OpensClean(maxSubs: nat, ops: seq<Op>, op: Op, id: ConnId)
    requires id !in Run(EMPTY, maxSubs, ops).conns
    ensures var s := Run(EMPTY, maxSubs, ops); var r := Step(s, maxSubs, op);
      id in r.conns ==> id == s.nextConn && r.conns[id].dropped == 0 && r.conns[id].log == []
  {
    var s := Run(EMPTY, maxSubs, ops);
    EveryRunIsCoherent(maxSubs, ops);
    match op {
      case RegisterOp(role, claims, capacity, cap) =>
      case UnregisterOp(x) => if x in s.conns { LeaveAllQueuesOnly(Gone(s, x), x, s.conns[x].order); }
      case JoinOp(x, t, specs, echo, key) =>
        if x in s.conns { LeaveIndexView(Forgotten(s.(nextSub := Assign(specs, s.nextSub).next), x, t), x, t); }
      case LeaveOp(x, t) => if x in s.conns { LeaveIndexView(Forgotten(s, x, t), x, t); }
      case TrackOp(x, t, meta) => if x in s.conns && t in s.conns[x].subs { TrackView(s, x, t, meta); }
      case UntrackOp(x, t) => UntrackView(s, x, t);
      case _ => QuietView(s, maxSubs, op);
    }
  }

  lemma StepLosesIff(c: Conn, d: Conn)
    requires QueueKept(c) && QueueKept(d) && Fed(c, d)
    ensures d.dropped == 0 <==> c.dropped == 0 && (c.capacity <= 0 || Undelivered(d) <= c.capacity)
  {
    var waiting := c.queue + d.log[|c.log|..];
    assert c.dropped == 0 ==> |waiting| == Undelivered(d);
  }

  lemma {:induction false} ClosedUntilNow(maxSubs: nat, ops: seq<Op>, id: ConnId, i: nat)
    requires id >= Run(EMPTY, maxSubs, ops).nextConn && i <= |ops|
    ensures id !in Run(EMPTY, maxSubs, ops[..i]).conns
  {
    if i == |ops| {
      assert ops[..i] == ops;
      EveryRunIsCoherent(maxSubs, ops);
    } else {
      var front := ops[..|ops| - 1];
      NextStays(Run(EMPTY, maxSubs, front), maxSubs, ops[|ops| - 1], id);
      ClosedUntilNow(maxSubs, front, id, i);
      assert front[..i] == ops[..i];
    }
  }

  /** The counter of connections never goes back. */
  lemma NextStays(s: State, maxSubs: nat, op: Op, id: ConnId)
    ensures id < s.nextConn ==> id < Step(s, maxSubs, op).nextConn
  {
    match op {
      case RegisterOp(role, claims, capacity, cap) =>
      case UnregisterOp(x) => if x in s.conns { LeaveAllQueuesOnly(Gone(s, x), x, s.conns[x].order); }
      case JoinOp(x, t, specs, echo, key) =>
        if x in s.conns { LeaveIndexView(Forgotten(s.(nextSub := Assign(specs, s.nextSub).next), x, t), x, t); }
      case LeaveOp(x, t) => if x in s.conns { LeaveIndexView(Forgotten(s, x, t), x, t); }
      case TrackOp(x, t, meta) => if x in s.conns && t in s.conns[x].subs { TrackView(s, x, t, meta); }
      case UntrackOp(x, t) => UntrackView(s, x, t);
      case _ => QuietView(s, maxSubs, op);
    }
  }

  lemma OneMoreCall(maxSubs: nat, ops: seq<Op>, op: Op, id: ConnId)
    requires id in Run(EMPTY, maxSubs, ops).conns && id in Run(EMPTY, maxSubs, ops + [op]).conns
    requires Run(EMPTY, maxSubs, ops).conns[id].dropped == 0 <==> AlwaysRoomy(maxSubs, ops, id)
    ensures Run(EMPTY, maxSubs, ops + [op]).conns[id].dropped == 0 <==> AlwaysRoomy(maxSubs, ops + [op], id)
  {
    var all := ops + [op];
    assert all[..|all| - 1] == ops && all[..|all|] == all;
    RoomyMore(maxSubs, all, id);
    EveryQueueIsKept(maxSubs, ops);
    EveryQueueIsKept(maxSubs, all);
    EveryStepFeeds(maxSubs, ops, op, id);
    var c, d := Run(EMPTY, maxSubs, ops).conns[id], Run(EMPTY, maxSubs, all).conns[id];
    assert QueueKept(c) && QueueKept(d);
    if !(op == DrainOp(id) && c.queue != []) {
      StepLosesIff(c, d);
    }
  }

  /**
   In every run: a connection has lost a frame if and only if, after some call, more frames were undelivered than its
   queue can hold. One that never had more than fit has lost nothing.
   */
  lemma {:induction false} LosesIffOverflowed(maxSubs: nat, ops: seq<Op>, id: ConnId)
    requires id in Run(EMPTY, maxSubs, ops).conns
    ensures Run(EMPTY, maxSubs, ops).conns[id].dropped == 0 <==> AlwaysRoomy(maxSubs, ops, id)
  {
    var front, op := ops[..|ops| - 1], ops[|ops| - 1];
    assert ops == front + [op];
    if id in Run(EMPTY, maxSubs, front).conns {
      LosesIffOverflowed(maxSubs, front, id);
      OneMoreCall(maxSubs, front, op, id);
    } else {
      OpensClean(maxSubs, front, op, id);
      forall i | 0 <= i <= |front| ensures RoomyAt(maxSubs, front, id, i) {
        ClosedUntilNow(maxSubs, front, id, i);
      }
      RoomyMore(maxSubs, ops, id);
      assert ops[..|ops|] == ops;
    }
  }
}
