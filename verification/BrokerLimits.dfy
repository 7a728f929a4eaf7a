/** What is bounded, unique or conserved in every run: outbound queues, subscription ids, filters per connection. */
module BrokerLimits {
  import opened Common
  import opened BrokerModel
  import opened BrokerIndex
  import Topics

  // ---------- queues ----------

  predicate IsSuffix(queue: seq<Frame>, log: seq<Frame>) {
    |queue| <= |log| && log[|log| - |queue|..] == queue
  }

  lemma SuffixGrows(queue: seq<Frame>, log: seq<Frame>, f: Frame)
    requires IsSuffix(queue, log)
    ensures IsSuffix(queue + [f], log + [f])
  {
    assert (log + [f])[|log| - |queue|..] == log[|log| - |queue|..] + [f];
  }

  lemma SuffixShrinks(queue: seq<Frame>, log: seq<Frame>)
    requires IsSuffix(queue, log) && queue != []
    ensures IsSuffix(queue[1..], log)
  {
    assert log[|log| - |queue| + 1..] == log[|log| - |queue|..][1..];
  }

  /**
   The queue is a contiguous suffix of everything enqueued, within its capacity, and every frame enqueued was taken,
   is waiting or was dropped. With nothing dropped, what was taken and what waits is the whole log, in order; in any
   case it ends with everything enqueued after the last dropped frame.
   */
  ghost predicate QueueKept(c: Conn) {
    && IsSuffix(c.queue, c.log)
    && (c.capacity > 0 ==> |c.queue| <= c.capacity)
    && |c.log| == |c.received| + |c.queue| + c.dropped
    && (c.dropped == 0 ==> c.log == c.received + c.queue)
    && (c.capacity <= 0 ==> c.dropped == 0)
    && (c.dropped == 0 <==> c.lost == 0)
    && c.lost <= |c.log| - |c.queue|
    && IsSuffix(c.log[c.lost..], c.received + c.queue)
  }

  lemma EnqueueKept(c: Conn, f: Frame)
    requires QueueKept(c)
    ensures QueueKept(Enqueue(c, f))
  {
    if Full(c) {
      SuffixShrinks(c.queue, c.log);
      SuffixGrows(c.queue[1..], c.log, f);
      var d := Enqueue(c, f);
      assert d.log[d.lost..] == d.queue;
    } else {
      SuffixGrows(c.queue, c.log, f);
      SuffixGrows(c.log[c.lost..], c.received + c.queue, f);
      assert (c.received + c.queue) + [f] == c.received + (c.queue + [f]);
      assert (c.log + [f])[c.lost..] == c.log[c.lost..] + [f];
    }
  }

  lemma TakeMoves(received: seq<Frame>, queue: seq<Frame>)
    requires queue != []
    ensures (received + [queue[0]]) + queue[1..] == received + queue
  {
  }

  lemma DrainKept(c: Conn)
    requires QueueKept(c)
    ensures QueueKept(Drain(c))
  {
    if c.queue != [] {
      SuffixShrinks(c.queue, c.log);
      TakeMoves(c.received, c.queue);
      var d := Drain(c);
      assert d.received + d.queue == c.received + c.queue;
    }
  }

  ghost predicate QueuesKept(s: State) {
    forall id | id in s.conns :: QueueKept(s.conns[id])
  }

  lemma EmitKept(s: State, ids: set<ConnId>, f: Frame)
    requires QueuesKept(s)
    ensures QueuesKept(s.(conns := EnqueueAt(s.conns, ids, f)))
  {
    forall id | id in s.conns ensures QueueKept(EnqueueAt(s.conns, ids, f)[id]) {
      assert QueueKept(s.conns[id]);
      EnqueueKept(s.conns[id], f);
    }
  }

  lemma LeaveIndexKept(s: State, x: ConnId, t: Topic)
    requires QueuesKept(s)
    ensures QueuesKept(LeaveIndex(s, x, t))
  {
    DropPresenceKept(s.(topics := Unlist(s.topics, x, t)), x, t);
  }

  lemma DropPresenceKept(s: State, x: ConnId, t: Topic)
    requires QueuesKept(s)
    ensures QueuesKept(DropPresence(s, x, t))
  {
    var stripped := s.(presence := Strip(s.presence, x, t));
    EmitKept(stripped, MembersOf(stripped, t), PresenceDiff(t, map[], Leaves(BucketOf(s, t), x)));
  }

  lemma {:induction false} LeaveAllKept(s: State, x: ConnId, order: seq<Topic>)
    requires QueuesKept(s)
    ensures QueuesKept(LeaveAll(s, x, order))
  {
    if order != [] {
      LeaveAllKept(s, x, order[..|order| - 1]);
      LeaveIndexKept(LeaveAll(s, x, order[..|order| - 1]), x, order[|order| - 1]);
    }
  }

  lemma SetConnKept(s: State, id: ConnId, c: Conn)
    requires QueuesKept(s) && QueueKept(c)
    ensures QueuesKept(SetConn(s, id, c))
  {
  }

  lemma UnsubscribeKept(s: State, x: ConnId, t: Topic)
    requires QueuesKept(s) && x in s.conns
    ensures QueuesKept(Unsubscribe(s, x, t))
  {
    var c := Forget(s.conns[x], t);
    assert QueueKept(s.conns[x]);
    SetConnKept(s, x, c);
    LeaveIndexKept(SetConn(s, x, c), x, t);
  }

  lemma SubscribeKept(s: State, x: ConnId, t: Topic, filters: seq<Resolved>, echo: bool, key: Key)
    requires QueuesKept(s) && x in s.conns
    ensures QueuesKept(Subscribe(s, x, t, filters, echo, key))
  {
    UnsubscribeKept(s, x, t);
    var left := Left(s, x, t);
    var sub := Subscription(t, filters, echo, if key == "" then Decimal(x) else key);
    assert QueueKept(left.conns[x]);
    SetConnKept(left, x, Remember(left.conns[x], sub));
    assert Subscribe(s, x, t, filters, echo, key) == Arrived(left, x, sub);
  }

  lemma TrackKept(s: State, x: ConnId, t: Topic, meta: Meta)
    requires QueuesKept(s) && x in s.conns
    ensures QueuesKept(Track(s, x, t, meta))
  {
    if t in s.conns[x].subs {
      var key := s.conns[x].subs[t].key;
      var bare := s.(presence := s.presence[t := TrackedBucket(s, x, t, meta)]);
      EmitKept(bare, MembersOf(bare, t), PresenceDiff(t, map[key := [meta]], map[]));
    }
  }

  lemma JoinKept(s: State, x: ConnId, t: Topic, specs: seq<FilterSpec>, echo: bool, key: Key, maxSubs: nat)
    requires QueuesKept(s) && x in s.conns
    ensures QueuesKept(Join(s, x, t, specs, echo, key, maxSubs))
  {
    var given := Assign(specs, s.nextSub);
    if given.filters.Some? {
      SubscribeKept(s.(nextSub := given.next), x, t, given.filters.value, echo, key);
    }
  }

  lemma PutKept(s: State, id: ConnId, f: Frame)
    requires QueuesKept(s) && id in s.conns
    ensures QueuesKept(SetConn(s, id, Enqueue(s.conns[id], f)))
  {
    EnqueueKept(s.conns[id], f);
    SetConnKept(s, id, Enqueue(s.conns[id], f));
  }

  lemma TakeKept(s: State, id: ConnId)
    requires QueuesKept(s) && id in s.conns
    ensures QueuesKept(SetConn(s, id, Drain(s.conns[id])))
  {
    DrainKept(s.conns[id]);
    SetConnKept(s, id, Drain(s.conns[id]));
  }

  lemma QuietKept(s: State, maxSubs: nat, op: Op)
    requires QueuesKept(s) && Quiet(op)
    ensures QueuesKept(Step(s, maxSubs, op))
  {
    match op {
      case ClaimsOp(id, role, claims) =>
        if id in s.conns { SetConnKept(s, id, s.conns[id].(role := role, claims := claims)); }
      case PushStateOp(id, t) => if id in s.conns { PutKept(s, id, PresenceState(t, PresenceOf(s, t))); }
      case SendOp(t, event, payload, sender) => EmitKept(s, Recipients(s, t, sender), Broadcast(t, event, payload));
      case ChangesOp(id, t, ids, change) => if id in s.conns { PutKept(s, id, Changes(t, ids, change)); }
      case DrainOp(id) => if id in s.conns { TakeKept(s, id); }
    }
  }

  lemma FreshKept(role: string, claims: Claims, capacity: int)
    ensures QueueKept(Fresh(role, claims, capacity))
  {
  }

  lemma RegisterKept(s: State, role: string, claims: Claims, capacity: int, cap: int)
    requires QueuesKept(s)
    ensures QueuesKept(Register(s, role, claims, capacity, cap))
  {
    FreshKept(role, claims, capacity);
    SetConnKept(s, s.nextConn, Fresh(role, claims, capacity));
  }

  lemma StepKeepsQueues(s: State, maxSubs: nat, op: Op)
    requires QueuesKept(s)
    ensures QueuesKept(Step(s, maxSubs, op))
  {
    match op {
      case RegisterOp(role, claims, capacity, cap) => RegisterKept(s, role, claims, capacity, cap);
      case UnregisterOp(id) => if id in s.conns { LeaveAllKept(Gone(s, id), id, s.conns[id].order); }
      case JoinOp(id, t, specs, echo, key) => if id in s.conns { JoinKept(s, id, t, specs, echo, key, maxSubs); }
      case LeaveOp(id, t) => if id in s.conns { UnsubscribeKept(s, id, t); }
      case TrackOp(id, t, meta) => if id in s.conns { TrackKept(s, id, t, meta); }
      case UntrackOp(id, t) => DropPresenceKept(s, id, t);
      case _ => QuietKept(s, maxSubs, op);
    }
  }

  /** Every outbound queue of every run keeps its account. */
  lemma {:induction false} EveryQueueIsKept(maxSubs: nat, ops: seq<Op>)
    ensures QueuesKept(Run(EMPTY, maxSubs, ops))
  {
    if ops != [] {
      EveryQueueIsKept(maxSubs, ops[..|ops| - 1]);
      StepKeepsQueues(Run(EMPTY, maxSubs, ops[..|ops| - 1]), maxSubs, ops[|ops| - 1]);
    }
  }

  // ---------- broadcasts ----------

  /** Subscribed to the topic, and not a sender that did not ask for its own broadcasts. */
  predicate Wants(c: Conn, id: ConnId, t: Topic, sender: Option<ConnId>) {
    t in c.subs && (Some(id) == sender ==> c.subs[t].echo)
  }

  /** In every run a broadcast adds one frame to each connection that wants it and touches nothing else. */
  lemma BroadcastReachesExactly(maxSubs: nat, ops: seq<Op>, t: Topic, event: string, payload: string,
                                sender: Option<ConnId>, id: ConnId)
    ensures var s := Run(EMPTY, maxSubs, ops);
      var r := Send(s, t, event, payload, sender);
      && r.conns.Keys == s.conns.Keys && r.topics == s.topics && r.presence == s.presence
      && (id in Recipients(s, t, sender) <==> id in s.conns && Wants(s.conns[id], id, t, sender))
      && (id in s.conns ==>
            r.conns[id].log ==
            if Wants(s.conns[id], id, t, sender)
            then s.conns[id].log + [Broadcast(t, event, payload)] else s.conns[id].log)
  {
    IndexAgrees(maxSubs, ops, id, t);
  }

  // ---------- filters per connection ----------

  ghost predicate Capped(s: State, maxSubs: nat) {
    forall id | id in s.conns :: FilterCount(s.conns[id].subs, s.conns[id].order) <= maxSubs
  }

  lemma {:induction false} CountWithout(subs: map<Topic, Subscription>, order: seq<Topic>, t: Topic)
    ensures FilterCount(subs - {t}, Without(order, t)) <= FilterCount(subs, order)
  {
    if order != [] {
      var last := |order| - 1;
      CountWithout(subs, order[..last], t);
      if order[last] != t {
        var w := Without(order[..last], t);
        assert (w + [order[last]])[..|w|] == w;
      }
    }
  }

  lemma {:induction false} CountIgnores(subs: map<Topic, Subscription>, order: seq<Topic>, sub: Subscription)
    requires sub.topic !in order
    ensures FilterCount(subs[sub.topic := sub], order) == FilterCount(subs, order)
  {
    if order != [] {
      CountIgnores(subs, order[..|order| - 1], sub);
    }
  }

  lemma CountWith(subs: map<Topic, Subscription>, order: seq<Topic>, sub: Subscription)
    requires sub.topic !in order
    ensures FilterCount(subs[sub.topic := sub], order + [sub.topic]) == FilterCount(subs, order) + |sub.filters|
  {
    CountIgnores(subs, order, sub);
    assert (order + [sub.topic])[..|order|] == order;
  }

  lemma QueuesOnlyCapped(a: State, b: State, maxSubs: nat)
    requires QueuesOnly(a, b) && Capped(a, maxSubs)
    ensures Capped(b, maxSubs)
  {
    forall id | id in b.conns ensures FilterCount(b.conns[id].subs, b.conns[id].order) <= maxSubs {
      assert SameBut(a.conns[id], b.conns[id]);
    }
  }

  lemma {:induction false} LeaveAllQueuesOnly(s: State, x: ConnId, order: seq<Topic>)
    ensures QueuesOnly(s, LeaveAll(s, x, order))
  {
    if order != [] {
      var front := LeaveAll(s, x, order[..|order| - 1]);
      LeaveAllQueuesOnly(s, x, order[..|order| - 1]);
      LeaveIndexView(front, x, order[|order| - 1]);
      QueuesOnlyChain(s, front, LeaveAll(s, x, order));
    }
  }

  lemma QueuesOnlyChain(a: State, b: State, c: State)
    requires QueuesOnly(a, b) && QueuesOnly(b, c)
    ensures QueuesOnly(a, c)
  {
    forall id | id in a.conns ensures SameBut(a.conns[id], c.conns[id]) {
      assert SameBut(a.conns[id], b.conns[id]) && SameBut(b.conns[id], c.conns[id]);
    }
  }

  lemma UnsubscribeCapped(s: State, x: ConnId, t: Topic, maxSubs: nat)
    requires x in s.conns && Capped(s, maxSubs)
    ensures Capped(Unsubscribe(s, x, t), maxSubs)
    ensures x in Unsubscribe(s, x, t).conns
    ensures SameBut(Forget(s.conns[x], t), Unsubscribe(s, x, t).conns[x])
  {
    CountWithout(s.conns[x].subs, s.conns[x].order, t);
    var mid := Forgotten(s, x, t);
    LeaveIndexView(mid, x, t);
    QueuesOnlyCapped(mid, Unsubscribe(s, x, t), maxSubs);
    assert SameBut(mid.conns[x], Unsubscribe(s, x, t).conns[x]);
  }

  lemma LeftCapped(s: State, x: ConnId, t: Topic, maxSubs: nat)
    requires x in s.conns && Capped(s, maxSubs)
    ensures Capped(Left(s, x, t), maxSubs) && x in Left(s, x, t).conns
    ensures var c := Left(s, x, t).conns[x];
      FilterCount(c.subs, c.order) <= FilterCount(s.conns[x].subs, s.conns[x].order)
  {
    UnsubscribeCapped(s, x, t, maxSubs);
    CountWithout(s.conns[x].subs, s.conns[x].order, t);
  }

  lemma ArrivedCapped(left: State, x: ConnId, sub: Subscription, maxSubs: nat)
    requires x in left.conns && Capped(left, maxSubs) && sub.topic !in left.conns[x].order
    requires FilterCount(left.conns[x].subs, left.conns[x].order) + |sub.filters| <= maxSubs
    ensures Capped(Arrived(left, x, sub), maxSubs)
  {
    CountWith(left.conns[x].subs, left.conns[x].order, sub);
  }

  lemma JoinCapped(s: State, x: ConnId, t: Topic, specs: seq<FilterSpec>, echo: bool, key: Key, maxSubs: nat)
    requires Coherent(s) && x in s.conns && Capped(s, maxSubs)
    ensures Capped(Join(s, x, t, specs, echo, key, maxSubs), maxSubs)
  {
    var given := Assign(specs, s.nextSub);
    var drawn := s.(nextSub := given.next);
    if given.filters.Some? && FilterCount(s.conns[x].subs, s.conns[x].order) + |specs| <= maxSubs {
      LeftCapped(drawn, x, t, maxSubs);
      LeftKeeps(drawn, x, t);
      var left := Left(drawn, x, t);
      assert ConnOrdered(left.conns[x]);
      var sub := Subscription(t, given.filters.value, echo, if key == "" then Decimal(x) else key);
      ArrivedCapped(left, x, sub, maxSubs);
    }
  }

  lemma RegisterCapped(s: State, role: string, claims: Claims, capacity: int, cap: int, maxSubs: nat)
    requires Capped(s, maxSubs)
    ensures Capped(Register(s, role, claims, capacity, cap), maxSubs)
  {
  }

  lemma UnregisterCapped(s: State, x: ConnId, maxSubs: nat)
    requires Capped(s, maxSubs) && x in s.conns
    ensures Capped(Unregister(s, x), maxSubs)
  {
    LeaveAllQueuesOnly(Gone(s, x), x, s.conns[x].order);
    QueuesOnlyCapped(Gone(s, x), Unregister(s, x), maxSubs);
  }

  lemma PresenceCapped(s: State, x: ConnId, t: Topic, meta: Meta, maxSubs: nat)
    requires Capped(s, maxSubs) && x in s.conns
    ensures Capped(Track(s, x, t, meta), maxSubs) && Capped(DropPresence(s, x, t), maxSubs)
  {
    if t in s.conns[x].subs {
      TrackView(s, x, t, meta);
      QueuesOnlyCapped(s, Track(s, x, t, meta), maxSubs);
    }
    UntrackView(s, x, t);
    QueuesOnlyCapped(s, DropPresence(s, x, t), maxSubs);
  }

  lemma QuietCapped(s: State, maxSubs: nat, op: Op)
    requires Capped(s, maxSubs) && Quiet(op)
    ensures Capped(Step(s, maxSubs, op), maxSubs)
  {
    QuietView(s, maxSubs, op);
    QueuesOnlyCapped(s, Step(s, maxSubs, op), maxSubs);
  }

  lemma StepKeepsCap(s: State, maxSubs: nat, op: Op)
    requires Coherent(s) && Capped(s, maxSubs)
    ensures Capped(Step(s, maxSubs, op), maxSubs)
  {
    match op {
      case RegisterOp(role, claims, capacity, cap) => RegisterCapped(s, role, claims, capacity, cap, maxSubs);
      case UnregisterOp(id) => if id in s.conns { UnregisterCapped(s, id, maxSubs); }
      case JoinOp(id, t, specs, echo, key) => if id in s.conns { JoinCapped(s, id, t, specs, echo, key, maxSubs); }
      case LeaveOp(id, t) => if id in s.conns { UnsubscribeCapped(s, id, t, maxSubs); }
      case TrackOp(id, t, meta) => if id in s.conns { PresenceCapped(s, id, t, meta, maxSubs); }
      case UntrackOp(id, t) => if id in s.conns { PresenceCapped(s, id, t, "", maxSubs); }
      case _ => QuietCapped(s, maxSubs, op);
    }
  }

  /** No connection ever holds more filters than the join handler allows, re-joins included. */
  lemma {:induction false} EveryConnectionIsCapped(maxSubs: nat, ops: seq<Op>)
    ensures Capped(Run(EMPTY, maxSubs, ops), maxSubs)
  {
    if ops != [] {
      var front := ops[..|ops| - 1];
      EveryConnectionIsCapped(maxSubs, front);
      EveryRunIsCoherent(maxSubs, front);
      StepKeepsCap(Run(EMPTY, maxSubs, front), maxSubs, ops[|ops| - 1]);
    }
  }

  // ---------- subscription ids ----------

  predicate Holds(m: Members, id: ConnId, t: Topic, i: int, n: SubId) {
    Joined(m, id, t) && 0 <= i < |m[id][t].filters| && m[id][t].filters[i].id == n
  }

  ghost predicate UniqueIds(m: Members, next: SubId) {
    && (forall id, t, i, n: SubId | Holds(m, id, t, i, n) :: n < next)
    && (forall id1, t1, i1, id2, t2, i2, n: SubId | Holds(m, id1, t1, i1, n) && Holds(m, id2, t2, i2, n) ::
          id1 == id2 && t1 == t2 && i1 == i2)
  }

  /** Ids are consecutive and follow the filters' order; a join is refused exactly when some filter does not parse. */
  lemma {:induction false} AssignInOrder(specs: seq<FilterSpec>, next: SubId)
    ensures var r := Assign(specs, next).filters;
      && (r.Some? <==> forall i | 0 <= i < |specs| :: specs[i].filter.Some? ==>
                         Topics.Parse(specs[i].filter.value).Some?)
      && (r.Some? ==> |r.value| == |specs| && forall i | 0 <= i < |specs| ::
            r.value[i].id == next + i && r.value[i].spec == specs[i] &&
            r.value[i].parsed == (if specs[i].filter.Some? then Topics.Parse(specs[i].filter.value) else None))
  {
    if specs != [] {
      var last := |specs| - 1;
      AssignInOrder(specs[..last], next);
      assert specs == specs[..last] + [specs[last]];
    }
  }

  lemma FewerIds(m: Members, n: Members, next: SubId, later: SubId)
    requires UniqueIds(m, next) && next <= later
    requires forall id, t | Joined(n, id, t) :: Joined(m, id, t) && n[id][t] == m[id][t]
    ensures UniqueIds(n, later)
  {
    assert forall id, t, i, k | Holds(n, id, t, i, k) :: Holds(m, id, t, i, k);
  }

  lemma MoreIds(m: Members, x: ConnId, sub: Subscription, next: SubId)
    requires UniqueIds(m, next) && x in m && sub.topic !in m[x]
    requires forall i | 0 <= i < |sub.filters| :: sub.filters[i].id == next + i
    ensures UniqueIds(m[x := m[x][sub.topic := sub]], next + |sub.filters|)
  {
    var n := m[x := m[x][sub.topic := sub]];
    assert forall id, t, i, k | Holds(n, id, t, i, k) ::
             Holds(m, id, t, i, k) || (id == x && t == sub.topic && k == next + i);
  }

  lemma SubscribeUnique(s: State, x: ConnId, next: SubId, t: Topic, filters: seq<Resolved>, echo: bool, key: Key)
    requires Coherent(s) && x in s.conns && UniqueIds(SubsOf(s.conns), next) && s.nextSub == next + |filters|
    requires forall i | 0 <= i < |filters| :: filters[i].id == next + i
    ensures IdsUnique(Subscribe(s, x, t, filters, echo, key))
  {
    LeftMembers(s, x, t);
    LeftKeeps(s, x, t);
    var left := Left(s, x, t);
    var sub := Subscription(t, filters, echo, if key == "" then Decimal(x) else key);
    FewerIds(SubsOf(s.conns), SubsOf(left.conns), next, next);
    ArrivedView(left, x, sub);
    MoreIds(SubsOf(left.conns), x, sub, next);
  }

  lemma JoinUnique(s: State, x: ConnId, t: Topic, specs: seq<FilterSpec>, echo: bool, key: Key, maxSubs: nat)
    requires Coherent(s) && x in s.conns && IdsUnique(s)
    ensures IdsUnique(Join(s, x, t, specs, echo, key, maxSubs))
  {
    var given := Assign(specs, s.nextSub);
    if given.filters.Some? {
      AssignInOrder(specs, s.nextSub);
      SubscribeUnique(s.(nextSub := given.next), x, s.nextSub, t, given.filters.value, echo, key);
    } else {
      FewerIds(SubsOf(s.conns), SubsOf(s.conns), s.nextSub, given.next);
    }
  }

  lemma LeftMembers(s: State, x: ConnId, t: Topic)
    requires Coherent(s) && x in s.conns
    ensures var m, n := SubsOf(s.conns), SubsOf(Left(s, x, t).conns);
      forall id, u | Joined(n, id, u) :: Joined(m, id, u) && n[id][u] == m[id][u]
    ensures Left(s, x, t).nextSub == s.nextSub
  {
    if t in s.conns[x].subs {
      UnsubscribeKeeps(s, x, t);
    }
  }

  ghost predicate IdsUnique(s: State) { UniqueIds(SubsOf(s.conns), s.nextSub) }

  lemma SameIds(a: State, b: State)
    requires IdsUnique(a) && QueuesOnly(a, b) && a.nextSub == b.nextSub
    ensures IdsUnique(b)
  {
    QueuesOnlyKeeps(a, b);
  }

  lemma RegisterUnique(s: State, role: string, claims: Claims, capacity: int, cap: int)
    requires Coherent(s) && IdsUnique(s)
    ensures IdsUnique(Register(s, role, claims, capacity, cap))
  {
    if |s.conns| < cap {
      RegisterView(s, role, claims, capacity, cap);
      FewerIds(SubsOf(s.conns), SubsOf(s.conns)[s.nextConn := map[]], s.nextSub, s.nextSub);
    }
  }

  lemma UnregisterUnique(s: State, x: ConnId)
    requires Coherent(s) && IdsUnique(s) && x in s.conns
    ensures IdsUnique(Unregister(s, x))
  {
    UnregisterKeeps(s, x);
    GoneView(s, x);
    UnregisterNextSub(Gone(s, x), x, s.conns[x].order);
    FewerIds(SubsOf(s.conns), SubsOf(s.conns) - {x}, s.nextSub, s.nextSub);
  }

  lemma UnsubscribeUnique(s: State, x: ConnId, t: Topic)
    requires Coherent(s) && IdsUnique(s) && x in s.conns
    ensures IdsUnique(Unsubscribe(s, x, t))
  {
    UnsubscribeKeeps(s, x, t);
    var m := SubsOf(s.conns);
    FewerIds(m, m[x := m[x] - {t}], s.nextSub, s.nextSub);
  }

  lemma PresenceUnique(s: State, x: ConnId, t: Topic, meta: Meta)
    requires IdsUnique(s) && x in s.conns
    ensures IdsUnique(Track(s, x, t, meta)) && IdsUnique(DropPresence(s, x, t))
  {
    if t in s.conns[x].subs {
      TrackView(s, x, t, meta);
      SameIds(s, Track(s, x, t, meta));
    }
    UntrackView(s, x, t);
    SameIds(s, DropPresence(s, x, t));
  }

  lemma QuietUnique(s: State, maxSubs: nat, op: Op)
    requires IdsUnique(s) && Quiet(op)
    ensures IdsUnique(Step(s, maxSubs, op))
  {
    QuietView(s, maxSubs, op);
    SameIds(s, Step(s, maxSubs, op));
  }

  lemma StepKeepsIds(s: State, maxSubs: nat, op: Op)
    requires Coherent(s) && IdsUnique(s)
    ensures IdsUnique(Step(s, maxSubs, op))
  {
    match op {
      case RegisterOp(role, claims, capacity, cap) => RegisterUnique(s, role, claims, capacity, cap);
      case UnregisterOp(id) => if id in s.conns { UnregisterUnique(s, id); }
      case JoinOp(id, t, specs, echo, key) => if id in s.conns { JoinUnique(s, id, t, specs, echo, key, maxSubs); }
      case LeaveOp(id, t) => if id in s.conns { UnsubscribeUnique(s, id, t); }
      case TrackOp(id, t, meta) => if id in s.conns { PresenceUnique(s, id, t, meta); }
      case UntrackOp(id, t) => if id in s.conns { PresenceUnique(s, id, t, ""); }
      case _ => QuietUnique(s, maxSubs, op);
    }
  }

  lemma {:induction false} UnregisterNextSub(s: State, x: ConnId, order: seq<Topic>)
    ensures LeaveAll(s, x, order).nextSub == s.nextSub
  {
    if order != [] {
      UnregisterNextSub(s, x, order[..|order| - 1]);
    }
  }

  /** No two filters held at the same time share an id. */
  lemma {:induction false} EveryIdIsUnique(maxSubs: nat, ops: seq<Op>)
    ensures IdsUnique(Run(EMPTY, maxSubs, ops))
  {
    if ops != [] {
      var front := ops[..|ops| - 1];
      EveryIdIsUnique(maxSubs, front);
      EveryRunIsCoherent(maxSubs, front);
      StepKeepsIds(Run(EMPTY, maxSubs, front), maxSubs, ops[|ops| - 1]);
    }
  }

  // ---------- ids across time ----------

  /** Every subscription in `n` was in `m` already, or all its ids are `next` or later. */
  ghost predicate DrawnSince(m: Members, n: Members, next: SubId) {
    forall id, t | Joined(n, id, t) :: SameOrLater(m, n, id, t, next)
  }

  ghost predicate SameOrLater(m: Members, n: Members, id: ConnId, t: Topic, next: SubId)
    requires Joined(n, id, t)
  {
    (Joined(m, id, t) && n[id][t] == m[id][t]) ||
    forall i | 0 <= i < |n[id][t].filters| :: n[id][t].filters[i].id >= next
  }

  lemma DrawnSinceChain(m: Members, n: Members, o: Members, next: SubId, later: SubId)
    requires DrawnSince(m, n, next) && DrawnSince(n, o, later) && next <= later
    ensures DrawnSince(m, o, next)
  {
    forall id, t | Joined(o, id, t) ensures SameOrLater(m, o, id, t, next) {
      assert SameOrLater(n, o, id, t, later);
      assert Joined(n, id, t) ==> SameOrLater(m, n, id, t, next);
    }
  }

  ghost predicate Within(m: Members, n: Members) {
    forall id, t | Joined(n, id, t) :: Joined(m, id, t) && n[id][t] == m[id][t]
  }

  lemma WithinDraws(m: Members, n: Members, next: SubId)
    requires Within(m, n)
    ensures DrawnSince(m, n, next)
  {
  }

  lemma ArriveDraws(m: Members, n: Members, x: ConnId, sub: Subscription, next: SubId)
    requires Within(m, n) && x in n && forall i | 0 <= i < |sub.filters| :: sub.filters[i].id >= next
    ensures DrawnSince(m, n[x := n[x][sub.topic := sub]], next)
  {
    var o := n[x := n[x][sub.topic := sub]];
    forall id, t | Joined(o, id, t) ensures SameOrLater(m, o, id, t, next) {
      assert (id == x && t == sub.topic) || Joined(n, id, t);
    }
  }

  lemma SubscribeDraws(s: State, x: ConnId, t: Topic, filters: seq<Resolved>, echo: bool, key: Key, next: SubId)
    requires Coherent(s) && x in s.conns
    requires forall i | 0 <= i < |filters| :: filters[i].id >= next
    ensures DrawnSince(SubsOf(s.conns), SubsOf(Subscribe(s, x, t, filters, echo, key).conns), next)
    ensures Subscribe(s, x, t, filters, echo, key).nextSub == s.nextSub
  {
    LeftMembers(s, x, t);
    LeftKeeps(s, x, t);
    var sub := Subscription(t, filters, echo, if key == "" then Decimal(x) else key);
    ArrivedView(Left(s, x, t), x, sub);
    ArriveDraws(SubsOf(s.conns), SubsOf(Left(s, x, t).conns), x, sub, next);
  }

  lemma JoinDraws(s: State, x: ConnId, t: Topic, specs: seq<FilterSpec>, echo: bool, key: Key, maxSubs: nat)
    requires Coherent(s) && x in s.conns
    ensures var r := Join(s, x, t, specs, echo, key, maxSubs);
      s.nextSub <= r.nextSub && DrawnSince(SubsOf(s.conns), SubsOf(r.conns), s.nextSub)
  {
    var given := Assign(specs, s.nextSub);
    if given.filters.Some? {
      AssignInOrder(specs, s.nextSub);
      SubscribeDraws(s.(nextSub := given.next), x, t, given.filters.value, echo, key, s.nextSub);
    }
  }

  lemma UnregisterDraws(s: State, x: ConnId)
    requires Coherent(s) && x in s.conns
    ensures DrawnSince(SubsOf(s.conns), SubsOf(Unregister(s, x).conns), s.nextSub)
    ensures Unregister(s, x).nextSub == s.nextSub
  {
    UnregisterKeeps(s, x);
    GoneView(s, x);
    UnregisterNextSub(Gone(s, x), x, s.conns[x].order);
  }

  lemma UnsubscribeDraws(s: State, x: ConnId, t: Topic)
    requires Coherent(s) && x in s.conns
    ensures DrawnSince(SubsOf(s.conns), SubsOf(Unsubscribe(s, x, t).conns), s.nextSub)
    ensures Unsubscribe(s, x, t).nextSub == s.nextSub
  {
    UnsubscribeKeeps(s, x, t);
    var m := SubsOf(s.conns);
    WithinDraws(m, m[x := m[x] - {t}], s.nextSub);
  }

  lemma RegisterDraws(s: State, role: string, claims: Claims, capacity: int, cap: int)
    requires Coherent(s)
    ensures DrawnSince(SubsOf(s.conns), SubsOf(Register(s, role, claims, capacity, cap).conns), s.nextSub)
  {
    if |s.conns| < cap {
      RegisterView(s, role, claims, capacity, cap);
    }
  }

  lemma SameMembersDraw(a: State, b: State)
    requires QueuesOnly(a, b)
    ensures DrawnSince(SubsOf(a.conns), SubsOf(b.conns), a.nextSub)
  {
    QueuesOnlyKeeps(a, b);
  }

  lemma QuietDraws(s: State, maxSubs: nat, op: Op)
    requires Quiet(op)
    ensures DrawnSince(SubsOf(s.conns), SubsOf(Step(s, maxSubs, op).conns), s.nextSub)
    ensures Step(s, maxSubs, op).nextSub == s.nextSub
  {
    QuietView(s, maxSubs, op);
    SameMembersDraw(s, Step(s, maxSubs, op));
  }

  lemma PresenceDraws(s: State, x: ConnId, t: Topic, meta: Meta)
    requires x in s.conns
    ensures DrawnSince(SubsOf(s.conns), SubsOf(Track(s, x, t, meta).conns), s.nextSub)
    ensures DrawnSince(SubsOf(s.conns), SubsOf(DropPresence(s, x, t).conns), s.nextSub)
    ensures Track(s, x, t, meta).nextSub == s.nextSub == DropPresence(s, x, t).nextSub
  {
    if t in s.conns[x].subs {
      TrackView(s, x, t, meta);
      SameMembersDraw(s, Track(s, x, t, meta));
    }
    UntrackView(s, x, t);
    SameMembersDraw(s, DropPresence(s, x, t));
  }

  /** The counter never goes back, and only ids drawn in the step are new. */
  lemma StepDraws(s: State, maxSubs: nat, op: Op)
    requires Coherent(s)
    ensures var r := Step(s, maxSubs, op);
      s.nextSub <= r.nextSub && DrawnSince(SubsOf(s.conns), SubsOf(r.conns), s.nextSub)
  {
    match op {
      case RegisterOp(role, claims, capacity, cap) => RegisterDraws(s, role, claims, capacity, cap);
      case UnregisterOp(id) => if id in s.conns { UnregisterDraws(s, id); }
      case JoinOp(id, t, specs, echo, key) => if id in s.conns { JoinDraws(s, id, t, specs, echo, key, maxSubs); }
      case LeaveOp(id, t) => if id in s.conns { UnsubscribeDraws(s, id, t); }
      case TrackOp(id, t, meta) => if id in s.conns { PresenceDraws(s, id, t, meta); }
      case UntrackOp(id, t) => if id in s.conns { PresenceDraws(s, id, t, ""); }
      case _ => QuietDraws(s, maxSubs, op);
    }
  }

  lemma {:induction false} RunDraws(s: State, maxSubs: nat, more: seq<Op>)
    requires Coherent(s)
    ensures var r := Run(s, maxSubs, more);
      Coherent(r) && s.nextSub <= r.nextSub && DrawnSince(SubsOf(s.conns), SubsOf(r.conns), s.nextSub)
  {
    if more != [] {
      var mid := Run(s, maxSubs, more[..|more| - 1]);
      RunDraws(s, maxSubs, more[..|more| - 1]);
      StepKeepsCoherence(mid, maxSubs, more[|more| - 1]);
      StepDraws(mid, maxSubs, more[|more| - 1]);
      DrawnSinceChain(SubsOf(s.conns), SubsOf(mid.conns), SubsOf(Run(s, maxSubs, more).conns), s.nextSub, mid.nextSub);
    }
  }

  /** Two filters with one id, held at any two moments of a run, are one filter of one subscription. */
  lemma IdsDifferAcrossTime(maxSubs: nat, ops: seq<Op>, more: seq<Op>,
                            id: ConnId, t: Topic, i: int, later: ConnId, u: Topic, j: int, n: SubId)
    ensures var s := Run(EMPTY, maxSubs, ops); var r := Run(s, maxSubs, more);
      Holds(SubsOf(s.conns), id, t, i, n) && Holds(SubsOf(r.conns), later, u, j, n) ==>
        id == later && t == u && i == j && SubsOf(s.conns)[id][t] == SubsOf(r.conns)[id][t]
  {
    var s := Run(EMPTY, maxSubs, ops);
    EveryRunIsCoherent(maxSubs, ops);
    EveryIdIsUnique(maxSubs, ops);
    RunDraws(s, maxSubs, more);
    SameIdSamePlace(s, Run(s, maxSubs, more), id, t, i, later, u, j, n);
  }

  lemma SameIdSamePlace(s: State, r: State, id: ConnId, t: Topic, i: int, later: ConnId, u: Topic, j: int, n: SubId)
    requires IdsUnique(s) && DrawnSince(SubsOf(s.conns), SubsOf(r.conns), s.nextSub)
    ensures Holds(SubsOf(s.conns), id, t, i, n) && Holds(SubsOf(r.conns), later, u, j, n) ==>
      id == later && t == u && i == j && SubsOf(s.conns)[id][t] == SubsOf(r.conns)[id][t]
  {
    var m, o := SubsOf(s.conns), SubsOf(r.conns);
    if Holds(m, id, t, i, n) && Holds(o, later, u, j, n) {
      assert SameOrLater(m, o, later, u, s.nextSub);
      assert n < s.nextSub;
      assert Holds(m, later, u, j, n);
    }
  }

  /** An id that nobody holds any more never comes back. */
  lemma IdsAreNeverReused(maxSubs: nat, ops: seq<Op>, more: seq<Op>, id: ConnId, t: Topic, i: int, n: SubId)
    ensures var s := Run(EMPTY, maxSubs, ops); var r := Run(s, maxSubs, more);
      n < s.nextSub && Holds(SubsOf(r.conns), id, t, i, n) ==> Holds(SubsOf(s.conns), id, t, i, n)
  {
    var s := Run(EMPTY, maxSubs, ops);
    EveryRunIsCoherent(maxSubs, ops);
    RunDraws(s, maxSubs, more);
    OldIdWasThere(s, Run(s, maxSubs, more), id, t, i, n);
  }

  lemma OldIdWasThere(s: State, r: State, id: ConnId, t: Topic, i: int, n: SubId)
    requires DrawnSince(SubsOf(s.conns), SubsOf(r.conns), s.nextSub)
    ensures n < s.nextSub && Holds(SubsOf(r.conns), id, t, i, n) ==> Holds(SubsOf(s.conns), id, t, i, n)
  {
    if Holds(SubsOf(r.conns), id, t, i, n) {
      assert SameOrLater(SubsOf(s.conns), SubsOf(r.conns), id, t, s.nextSub);
    }
  }
}
