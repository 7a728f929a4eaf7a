/**
 The two views of who is on a topic agree, and presence belongs to those who are there: an invariant over every run
 of the broker.
 */
module BrokerIndex {
  import opened Common
  import opened BrokerModel

  // ---------- the invariant ----------

  /** What every connection is subscribed to. */
  type Members = map<ConnId, map<Topic, Subscription>>

  function SubsOf(conns: map<ConnId, Conn>): Members {
    map id | id in conns :: conns[id].subs
  }

  predicate Joined(m: Members, id: ConnId, t: Topic) { id in m && t in m[id] }

  /** On `t`, or the departing connection `x`, whose topics in `due` have yet to be cleaned up. */
  predicate Accounted(m: Members, id: ConnId, t: Topic, x: ConnId, due: set<Topic>) {
    Joined(m, id, t) || (id == x && t in due)
  }

  /** Every subscription is in the reverse index. */
  ghost predicate Indexed(m: Members, topics: map<Topic, set<ConnId>>) {
    forall id, t | Joined(m, id, t) :: t in topics && id in topics[t]
  }

  /** The reverse index holds nothing else, and no empty set. */
  ghost predicate Listed(m: Members, topics: map<Topic, set<ConnId>>, x: ConnId, due: set<Topic>) {
    && (forall t | t in topics :: topics[t] != {})
    && (forall t, id | t in topics && id in topics[t] :: Accounted(m, id, t, x, due))
  }

  predicate EntryOwned(m: Members, t: Topic, k: Key, e: Entry, x: ConnId, due: set<Topic>) {
    Accounted(m, e.conn, t, x, due) && (Joined(m, e.conn, t) ==> m[e.conn][t].key == k)
  }

  ghost predicate BucketOwned(m: Members, t: Topic, b: Bucket, x: ConnId, due: set<Topic>) {
    && b != map[]
    && (forall k | k in b :: b[k] != [])
    && (forall k, e | k in b && e in b[k] :: EntryOwned(m, t, k, e, x, due))
  }

  /** Presence is owned by members under their own keys; no empty bucket or list remains. */
  ghost predicate Owned(m: Members, presence: map<Topic, Bucket>, x: ConnId, due: set<Topic>) {
    forall t | t in presence :: BucketOwned(m, t, presence[t], x, due)
  }

  /** The whole invariant while `x` is leaving `due`. */
  ghost predicate Leaving(m: Members, topics: map<Topic, set<ConnId>>, presence: map<Topic, Bucket>,
                          x: ConnId, due: set<Topic>) {
    Indexed(m, topics) && Listed(m, topics, x, due) && Owned(m, presence, x, due)
  }

  ghost predicate Agreeing(s: State, x: ConnId, due: set<Topic>) {
    Leaving(SubsOf(s.conns), s.topics, s.presence, x, due)
  }

  ghost predicate NoRepeats(order: seq<Topic>) {
    forall i, j | 0 <= i < j < |order| :: order[i] != order[j]
  }

  /** The insertion order lists exactly the subscriptions, each under its own topic. */
  ghost predicate ConnOrdered(c: Conn) {
    && NoRepeats(c.order)
    && (forall t :: t in c.order <==> t in c.subs)
    && (forall t | t in c.subs :: c.subs[t].topic == t)
    && c.marks.Keys == c.subs.Keys
    && (forall t | t in c.marks :: c.marks[t] <= |c.log|)
  }

  ghost predicate Ordered(s: State) {
    forall id | id in s.conns :: id < s.nextConn && ConnOrdered(s.conns[id])
  }

  ghost predicate Coherent(s: State) { Agreeing(s, 0, {}) && Ordered(s) }

  // ---------- enqueuing changes queues only ----------

  /** `d` has taken frames or lost them, nothing else. */
  predicate SameBut(c: Conn, d: Conn) {
    c.subs == d.subs && c.order == d.order && c.marks == d.marks && |c.log| <= |d.log|
  }

  ghost predicate QueuesOnly(a: State, b: State) {
    && a.conns.Keys == b.conns.Keys && a.nextConn == b.nextConn
    && (forall id | id in a.conns :: SameBut(a.conns[id], b.conns[id]))
  }

  lemma QueuesOnlyKeeps(a: State, b: State)
    requires QueuesOnly(a, b)
    ensures SubsOf(a.conns) == SubsOf(b.conns)
    ensures Ordered(a) ==> Ordered(b)
  {
    assert forall id | id in a.conns :: SameBut(a.conns[id], b.conns[id]);
    if Ordered(a) {
      forall id | id in b.conns ensures ConnOrdered(b.conns[id]) {
        assert SameBut(a.conns[id], b.conns[id]) && ConnOrdered(a.conns[id]);
      }
    }
  }

  lemma QueuesOnlyCoherent(a: State, b: State)
    requires Coherent(a) && QueuesOnly(a, b) && a.topics == b.topics && a.presence == b.presence
    ensures Coherent(b)
  {
    QueuesOnlyKeeps(a, b);
  }

  // ---------- lists with one connection's entries taken out ----------

  lemma {:induction false} KeptEntries(entries: seq<Entry>, id: ConnId)
    ensures forall e :: e in Kept(entries, id) <==> e in entries && e.conn != id
  {
    if entries != [] {
      var last := |entries| - 1;
      KeptEntries(entries[..last], id);
      assert entries == entries[..last] + [entries[last]];
    }
  }

  lemma {:induction false} WithoutTopic(order: seq<Topic>, t: Topic)
    requires NoRepeats(order)
    ensures NoRepeats(Without(order, t))
    ensures forall u :: u in Without(order, t) <==> u in order && u != t
  {
    if order != [] {
      var last := |order| - 1;
      WithoutTopic(order[..last], t);
      assert order == order[..last] + [order[last]];
      assert order[last] !in order[..last];
    }
  }

  // ---------- leaving one topic ----------

  lemma UnlistKeeps(m: Members, topics: map<Topic, set<ConnId>>, x: ConnId, t: Topic, due: set<Topic>)
    requires Indexed(m, topics) && Listed(m, topics, x, due) && !Joined(m, x, t)
    ensures Indexed(m, Unlist(topics, x, t)) && Listed(m, Unlist(topics, x, t), x, due - {t})
  {
    var after := Unlist(topics, x, t);
    forall id, u | Joined(m, id, u) ensures u in after && id in after[u] {
      assert u in topics && id in topics[u];
      if u == t {
        assert id in topics[t] - {x};
      }
    }
    forall u, id | u in after && id in after[u] ensures Accounted(m, id, u, x, due - {t}) {
      assert Accounted(m, id, u, x, due);
    }
  }

  lemma StripBucket(m: Members, t: Topic, b: Bucket, x: ConnId, due: set<Topic>)
    requires BucketOwned(m, t, b, x, due)
    ensures KeptBucket(b, x) != map[] ==> BucketOwned(m, t, KeptBucket(b, x), x, due - {t})
  {
    forall k, e | k in KeptBucket(b, x) && e in KeptBucket(b, x)[k] ensures EntryOwned(m, t, k, e, x, due - {t}) {
      KeptEntries(b[k], x);
      assert EntryOwned(m, t, k, e, x, due);
    }
  }

  lemma StripKeeps(m: Members, presence: map<Topic, Bucket>, x: ConnId, t: Topic, due: set<Topic>)
    requires Owned(m, presence, x, due)
    ensures Owned(m, Strip(presence, x, t), x, due - {t})
  {
    var after := Strip(presence, x, t);
    if t in presence {
      StripBucket(m, t, presence[t], x, due);
    }
    forall u | u in after ensures BucketOwned(m, u, after[u], x, due - {t}) {
      if u != t {
        assert after[u] == presence[u] && BucketOwned(m, u, presence[u], x, due);
        BucketMonotone(m, m, u, presence[u], x, due, x, due - {t});
      }
    }
  }

  /** A bucket stays owned when nobody it can name is lost. */
  lemma BucketMonotone(m: Members, n: Members, t: Topic, b: Bucket, x: ConnId, due: set<Topic>,
                       y: ConnId, rest: set<Topic>)
    requires BucketOwned(m, t, b, x, due)
    requires forall id | Accounted(m, id, t, x, due) :: Accounted(n, id, t, y, rest)
    requires forall id | Joined(n, id, t) && Accounted(m, id, t, x, due) ::
               Joined(m, id, t) && n[id][t].key == m[id][t].key
    ensures BucketOwned(n, t, b, y, rest)
  {
    forall k, e | k in b && e in b[k] ensures EntryOwned(n, t, k, e, y, rest) {
      assert EntryOwned(m, t, k, e, x, due);
    }
  }

  lemma LeaveIndexView(s: State, x: ConnId, t: Topic)
    ensures var r := LeaveIndex(s, x, t);
      r.topics == Unlist(s.topics, x, t) && r.presence == Strip(s.presence, x, t) && QueuesOnly(s, r)
  {
  }

  lemma LeaveIndexKeeps(s: State, x: ConnId, t: Topic, due: set<Topic>)
    requires Agreeing(s, x, due) && Ordered(s) && !Joined(SubsOf(s.conns), x, t)
    ensures Agreeing(LeaveIndex(s, x, t), x, due - {t}) && Ordered(LeaveIndex(s, x, t))
    ensures SubsOf(LeaveIndex(s, x, t).conns) == SubsOf(s.conns)
  {
    LeaveIndexView(s, x, t);
    QueuesOnlyKeeps(s, LeaveIndex(s, x, t));
    UnlistKeeps(SubsOf(s.conns), s.topics, x, t, due);
    StripKeeps(SubsOf(s.conns), s.presence, x, t, due);
  }

  /** With `m` losing `x` on the topics of `due`, those topics become due. */
  lemma Depart(m: Members, n: Members, topics: map<Topic, set<ConnId>>, presence: map<Topic, Bucket>,
               x: ConnId, due: set<Topic>)
    requires Leaving(m, topics, presence, 0, {})
    requires forall id, u :: Joined(n, id, u) <==> Joined(m, id, u) && !(id == x && u in due)
    requires forall id, u | Joined(n, id, u) :: n[id][u] == m[id][u]
    ensures Leaving(n, topics, presence, x, due)
  {
    forall u | u in presence ensures BucketOwned(n, u, presence[u], x, due) {
      BucketMonotone(m, n, u, presence[u], 0, {}, x, due);
    }
  }

  /** With nothing left to clean up, it does not matter who is leaving. */
  lemma NothingDue(s: State, x: ConnId, due: set<Topic>)
    requires Agreeing(s, x, due) && Ordered(s) && due == {}
    ensures Coherent(s)
  {
    var m := SubsOf(s.conns);
    forall t | t in s.presence ensures BucketOwned(m, t, s.presence[t], 0, {}) {
      BucketMonotone(m, m, t, s.presence[t], x, due, 0, {});
    }
  }

  lemma ForgetOrdered(c: Conn, t: Topic)
    requires ConnOrdered(c)
    ensures ConnOrdered(Forget(c, t))
  {
    WithoutTopic(c.order, t);
  }

  function Forgotten(s: State, x: ConnId, t: Topic): State
    requires x in s.conns
  {
    s.(conns := s.conns[x := Forget(s.conns[x], t)])
  }

  lemma ForgottenView(s: State, x: ConnId, t: Topic)
    requires x in s.conns
    ensures SubsOf(Forgotten(s, x, t).conns) == SubsOf(s.conns)[x := SubsOf(s.conns)[x] - {t}]
    ensures Ordered(s) ==> Ordered(Forgotten(s, x, t))
  {
    if Ordered(s) {
      ForgetOrdered(s.conns[x], t);
    }
  }

  lemma ForgottenKeeps(s: State, x: ConnId, t: Topic)
    requires Coherent(s) && x in s.conns
    ensures Agreeing(Forgotten(s, x, t), x, {t}) && Ordered(Forgotten(s, x, t))
  {
    ForgottenView(s, x, t);
    Depart(SubsOf(s.conns), SubsOf(Forgotten(s, x, t).conns), s.topics, s.presence, x, {t});
  }

  lemma UnsubscribeKeeps(s: State, x: ConnId, t: Topic)
    requires Coherent(s) && x in s.conns
    ensures Coherent(Unsubscribe(s, x, t))
    ensures SubsOf(Unsubscribe(s, x, t).conns) == SubsOf(s.conns)[x := SubsOf(s.conns)[x] - {t}]
  {
    ForgottenView(s, x, t);
    ForgottenKeeps(s, x, t);
    LeaveIndexKeeps(Forgotten(s, x, t), x, t, {t});
    NothingDue(LeaveIndex(Forgotten(s, x, t), x, t), x, {t} - {t});
  }

  // ---------- disconnecting ----------

  function TopicSet(order: seq<Topic>): set<Topic> { set t | t in order }

  lemma {:induction false} LeaveAllKeeps(s: State, x: ConnId, order: seq<Topic>, due: set<Topic>)
    requires Agreeing(s, x, due) && Ordered(s) && x !in s.conns
    ensures Agreeing(LeaveAll(s, x, order), x, due - TopicSet(order)) && Ordered(LeaveAll(s, x, order))
    ensures SubsOf(LeaveAll(s, x, order).conns) == SubsOf(s.conns)
  {
    if order == [] {
      assert due - TopicSet(order) == due;
    } else {
      var last := |order| - 1;
      LeaveAllKeeps(s, x, order[..last], due);
      assert order == order[..last] + [order[last]];
      assert due - TopicSet(order[..last]) - {order[last]} == due - TopicSet(order);
      LeaveIndexKeeps(LeaveAll(s, x, order[..last]), x, order[last], due - TopicSet(order[..last]));
    }
  }

  function Gone(s: State, x: ConnId): State { s.(conns := s.conns - {x}) }

  lemma GoneView(s: State, x: ConnId)
    requires Ordered(s) && x in s.conns
    ensures SubsOf(Gone(s, x).conns) == SubsOf(s.conns) - {x}
    ensures SubsOf(s.conns)[x].Keys == TopicSet(s.conns[x].order)
    ensures Ordered(Gone(s, x))
  {
    assert ConnOrdered(s.conns[x]);
  }

  lemma GoneKeeps(s: State, x: ConnId)
    requires Coherent(s) && x in s.conns
    ensures Agreeing(Gone(s, x), x, TopicSet(s.conns[x].order)) && Ordered(Gone(s, x))
  {
    GoneView(s, x);
    Depart(SubsOf(s.conns), SubsOf(Gone(s, x).conns), s.topics, s.presence, x, TopicSet(s.conns[x].order));
  }

  lemma UnregisterKeeps(s: State, x: ConnId)
    requires Coherent(s) && x in s.conns
    ensures Coherent(Unregister(s, x))
    ensures SubsOf(Unregister(s, x).conns) == SubsOf(Gone(s, x).conns)
  {
    var order := s.conns[x].order;
    GoneKeeps(s, x);
    LeaveAllKeeps(Gone(s, x), x, order, TopicSet(order));
    NothingDue(Unregister(s, x), x, TopicSet(order) - TopicSet(order));
  }

  // ---------- joining, tracking, untracking ----------

  /** The state after the old subscription, if any, is gone. */
  function Left(s: State, x: ConnId, t: Topic): State
    requires x in s.conns
  {
    if t in s.conns[x].subs then Unsubscribe(s, x, t) else s
  }

  lemma LeftKeeps(s: State, x: ConnId, t: Topic)
    requires Coherent(s) && x in s.conns
    ensures Coherent(Left(s, x, t)) && x in Left(s, x, t).conns && t !in Left(s, x, t).conns[x].subs
  {
    if t in s.conns[x].subs {
      UnsubscribeKeeps(s, x, t);
      assert x in SubsOf(Left(s, x, t).conns) && t !in SubsOf(Left(s, x, t).conns)[x];
    }
  }

  /** A new subscription of someone who was not on the topic. */
  lemma Arrive(m: Members, topics: map<Topic, set<ConnId>>, presence: map<Topic, Bucket>,
               x: ConnId, t: Topic, sub: Subscription)
    requires Leaving(m, topics, presence, 0, {}) && x in m && t !in m[x]
    ensures Leaving(m[x := m[x][t := sub]], topics[t := (if t in topics then topics[t] else {}) + {x}], presence, 0, {})
  {
    var n := m[x := m[x][t := sub]];
    assert forall id, u :: Joined(n, id, u) <==> Joined(m, id, u) || (id == x && u == t);
    forall u | u in presence ensures BucketOwned(n, u, presence[u], 0, {}) {
      BucketMonotone(m, n, u, presence[u], 0, {}, 0, {});
    }
  }

  /** The state once `sub` is added. */
  function Arrived(left: State, x: ConnId, sub: Subscription): State
    requires x in left.conns
  {
    left.(conns := left.conns[x := Remember(left.conns[x], sub)],
          topics := left.topics[sub.topic := MembersOf(left, sub.topic) + {x}])
  }

  lemma ArrivedView(left: State, x: ConnId, sub: Subscription)
    requires x in left.conns && sub.topic !in left.conns[x].subs
    ensures var m := SubsOf(left.conns);
      SubsOf(Arrived(left, x, sub).conns) == m[x := m[x][sub.topic := sub]]
    ensures Ordered(left) ==> Ordered(Arrived(left, x, sub))
  {
    if Ordered(left) {
      assert ConnOrdered(left.conns[x]);
      assert ConnOrdered(Remember(left.conns[x], sub));
    }
  }

  lemma ArrivedKeeps(left: State, x: ConnId, sub: Subscription)
    requires Coherent(left) && x in left.conns && sub.topic !in left.conns[x].subs
    ensures Coherent(Arrived(left, x, sub))
  {
    ArrivedView(left, x, sub);
    Arrive(SubsOf(left.conns), left.topics, left.presence, x, sub.topic, sub);
  }

  lemma SubscribeKeeps(s: State, x: ConnId, t: Topic, filters: seq<Resolved>, echo: bool, key: Key)
    requires Coherent(s) && x in s.conns
    ensures Coherent(Subscribe(s, x, t, filters, echo, key))
  {
    LeftKeeps(s, x, t);
    ArrivedKeeps(Left(s, x, t), x, Subscription(t, filters, echo, if key == "" then Decimal(x) else key));
  }

  lemma JoinKeeps(s: State, x: ConnId, t: Topic, specs: seq<FilterSpec>, echo: bool, key: Key, maxSubs: nat)
    requires Coherent(s) && x in s.conns
    ensures Coherent(Join(s, x, t, specs, echo, key, maxSubs))
  {
    var given := Assign(specs, s.nextSub);
    var drawn := s.(nextSub := given.next);
    assert Coherent(drawn);
    if given.filters.Some? {
      SubscribeKeeps(drawn, x, t, given.filters.value, echo, key);
    }
  }

  lemma AddEntry(m: Members, t: Topic, b: Bucket, x: ConnId, meta: Meta)
    requires Joined(m, x, t) && (b == map[] || BucketOwned(m, t, b, 0, {}))
    ensures var key := m[x][t].key;
      BucketOwned(m, t, b[key := (if key in b then b[key] else []) + [Entry(x, meta)]], 0, {})
  {
    var key := m[x][t].key;
    var c := b[key := (if key in b then b[key] else []) + [Entry(x, meta)]];
    assert key in c;
    forall k, e | k in c && e in c[k] ensures EntryOwned(m, t, k, e, 0, {}) {
      if k in b && e in b[k] {
        assert EntryOwned(m, t, k, e, 0, {});
      } else {
        assert k == key && e == Entry(x, meta);
      }
    }
  }

  function TrackedBucket(s: State, x: ConnId, t: Topic, meta: Meta): Bucket
    requires x in s.conns && t in s.conns[x].subs
  {
    var key, b := s.conns[x].subs[t].key, BucketOf(s, t);
    b[key := (if key in b then b[key] else []) + [Entry(x, meta)]]
  }

  lemma TrackView(s: State, x: ConnId, t: Topic, meta: Meta)
    requires x in s.conns && t in s.conns[x].subs
    ensures var r := Track(s, x, t, meta);
      QueuesOnly(s, r) && r.topics == s.topics && r.presence == s.presence[t := TrackedBucket(s, x, t, meta)]
  {
  }

  lemma TrackedOwned(s: State, x: ConnId, t: Topic, meta: Meta)
    requires x in s.conns && t in s.conns[x].subs && Owned(SubsOf(s.conns), s.presence, 0, {})
    ensures Owned(SubsOf(s.conns), s.presence[t := TrackedBucket(s, x, t, meta)], 0, {})
  {
    var m := SubsOf(s.conns);
    assert t in s.presence ==> BucketOwned(m, t, s.presence[t], 0, {});
    assert Joined(m, x, t);
    AddEntry(m, t, BucketOf(s, t), x, meta);
  }

  lemma TrackKeeps(s: State, x: ConnId, t: Topic, meta: Meta)
    requires Coherent(s) && x in s.conns
    ensures Coherent(Track(s, x, t, meta))
  {
    if t in s.conns[x].subs {
      TrackView(s, x, t, meta);
      TrackedOwned(s, x, t, meta);
      QueuesOnlyKeeps(s, Track(s, x, t, meta));
    }
  }

  lemma UntrackView(s: State, x: ConnId, t: Topic)
    ensures var r := DropPresence(s, x, t);
      QueuesOnly(s, r) && r.topics == s.topics && r.presence == Strip(s.presence, x, t)
  {
  }

  lemma StrippedOwned(m: Members, presence: map<Topic, Bucket>, x: ConnId, t: Topic)
    requires Owned(m, presence, 0, {})
    ensures Owned(m, Strip(presence, x, t), 0, {})
  {
    var none: set<Topic> := {};
    forall u | u in presence ensures BucketOwned(m, u, presence[u], x, none) {
      BucketMonotone(m, m, u, presence[u], 0, none, x, none);
    }
    StripKeeps(m, presence, x, t, none);
    var after := Strip(presence, x, t);
    forall u | u in after ensures BucketOwned(m, u, after[u], 0, none) {
      BucketMonotone(m, m, u, after[u], x, none - {t}, 0, none);
    }
  }

  lemma UntrackKeeps(s: State, x: ConnId, t: Topic)
    requires Coherent(s)
    ensures Coherent(DropPresence(s, x, t))
  {
    UntrackView(s, x, t);
    QueuesOnlyKeeps(s, DropPresence(s, x, t));
    StrippedOwned(SubsOf(s.conns), s.presence, x, t);
  }

  // ---------- every run ----------

  lemma RegisterView(s: State, role: string, claims: Claims, capacity: int, cap: int)
    requires |s.conns| < cap
    ensures var r := Register(s, role, claims, capacity, cap);
      && SubsOf(r.conns) == SubsOf(s.conns)[s.nextConn := map[]]
      && r.topics == s.topics && r.presence == s.presence
      && (Ordered(s) ==> Ordered(r) && s.nextConn !in s.conns)
  {
  }

  lemma RegisterKeeps(s: State, role: string, claims: Claims, capacity: int, cap: int)
    requires Coherent(s)
    ensures Coherent(Register(s, role, claims, capacity, cap))
  {
    if |s.conns| < cap {
      RegisterView(s, role, claims, capacity, cap);
      Depart(SubsOf(s.conns), SubsOf(Register(s, role, claims, capacity, cap).conns), s.topics, s.presence, 0, {});
    }
  }

  predicate Quiet(op: Op) { op.ClaimsOp? || op.PushStateOp? || op.SendOp? || op.ChangesOp? || op.DrainOp? }

  lemma SetConnQueuesOnly(s: State, id: ConnId, c: Conn)
    requires id in s.conns && SameBut(s.conns[id], c)
    ensures QueuesOnly(s, SetConn(s, id, c))
  {
  }

  lemma EnqueueAtQueuesOnly(s: State, ids: set<ConnId>, f: Frame)
    ensures QueuesOnly(s, s.(conns := EnqueueAt(s.conns, ids, f)))
  {
  }

  /** Everything but joining, leaving, presence and disconnecting touches the queues alone. */
  lemma QuietView(s: State, maxSubs: nat, op: Op)
    requires Quiet(op)
    ensures var r := Step(s, maxSubs, op);
      QueuesOnly(s, r) && r.topics == s.topics && r.presence == s.presence && r.nextSub == s.nextSub
  {
    match op {
      case SendOp(t, event, payload, sender) =>
        EnqueueAtQueuesOnly(s, Recipients(s, t, sender), Broadcast(t, event, payload));
      case ClaimsOp(id, role, claims) =>
        if id in s.conns { SetConnQueuesOnly(s, id, s.conns[id].(role := role, claims := claims)); }
      case PushStateOp(id, t) =>
        if id in s.conns { SetConnQueuesOnly(s, id, Enqueue(s.conns[id], PresenceState(t, PresenceOf(s, t)))); }
      case ChangesOp(id, t, ids, change) =>
        if id in s.conns { SetConnQueuesOnly(s, id, Enqueue(s.conns[id], Changes(t, ids, change))); }
      case DrainOp(id) =>
        if id in s.conns { SetConnQueuesOnly(s, id, Drain(s.conns[id])); }
    }
  }

  lemma StepKeepsCoherence(s: State, maxSubs: nat, op: Op)
    requires Coherent(s)
    ensures Coherent(Step(s, maxSubs, op))
  {
    match op {
      case RegisterOp(role, claims, capacity, cap) => RegisterKeeps(s, role, claims, capacity, cap);
      case UnregisterOp(id) => if id in s.conns { UnregisterKeeps(s, id); }
      case JoinOp(id, t, specs, echo, key) => if id in s.conns { JoinKeeps(s, id, t, specs, echo, key, maxSubs); }
      case LeaveOp(id, t) => if id in s.conns { UnsubscribeKeeps(s, id, t); }
      case TrackOp(id, t, meta) => if id in s.conns { TrackKeeps(s, id, t, meta); }
      case UntrackOp(id, t) => UntrackKeeps(s, id, t);
      case _ => QuietView(s, maxSubs, op); QueuesOnlyCoherent(s, Step(s, maxSubs, op));
    }
  }

  lemma {:induction false} EveryRunIsCoherent(maxSubs: nat, ops: seq<Op>)
    ensures Coherent(Run(EMPTY, maxSubs, ops))
  {
    if ops != [] {
      EveryRunIsCoherent(maxSubs, ops[..|ops| - 1]);
      StepKeepsCoherence(Run(EMPTY, maxSubs, ops[..|ops| - 1]), maxSubs, ops[|ops| - 1]);
    }
  }

  /** The two indexes agree and presence is owned, in every reachable state. */
  lemma IndexAgrees(maxSubs: nat, ops: seq<Op>, id: ConnId, t: Topic)
    ensures var s := Run(EMPTY, maxSubs, ops);
      && (id in MembersOf(s, t) <==> id in s.conns && t in s.conns[id].subs)
      && (t in s.topics ==> s.topics[t] != {})
      && (t in s.presence ==> s.presence[t] != map[])
      && (forall k | k in BucketOf(s, t) :: BucketOf(s, t)[k] != [])
      && (forall k, i | k in BucketOf(s, t) && 0 <= i < |BucketOf(s, t)[k]| ::
            var owner := BucketOf(s, t)[k][i].conn;
            owner in s.conns && t in s.conns[owner].subs && s.conns[owner].subs[t].key == k)
  {
    EveryRunIsCoherent(maxSubs, ops);
    var s := Run(EMPTY, maxSubs, ops);
    var m := SubsOf(s.conns);
    assert Joined(m, id, t) <==> id in MembersOf(s, t);
    if t in s.presence {
      assert BucketOwned(m, t, s.presence[t], 0, {});
      forall k, i | k in s.presence[t] && 0 <= i < |s.presence[t][k]|
        ensures EntryOwned(m, t, k, s.presence[t][k][i], 0, {})
      {
        assert s.presence[t][k][i] in s.presence[t][k];
      }
    }
  }
}
