/**
 A client that replays the presence frames sent to it knows the presence of every topic it is on: the diffs since its
 last `presence_state` add up to what `presence_state` would answer now.
 */
module BrokerPresence {
  import opened Common
  import opened BrokerModel
  import opened BrokerIndex
  import opened BrokerLimits

  // ---------- what a client computes ----------

  function At(m: map<Key, seq<Meta>>, k: Key): multiset<Meta> {
    if k in m then multiset(m[k]) else multiset{}
  }

  /** A state frame resets, a diff adds and removes. */
  function Heard(before: multiset<Meta>, f: Frame, t: Topic, k: Key): multiset<Meta> {
    match f
    case PresenceState(u, state) => if u == t then At(state, k) else before
    case PresenceDiff(u, joins, leaves) => if u == t then before + At(joins, k) - At(leaves, k) else before
    case Broadcast(_, _, _) => before
    case Changes(_, _, _) => before
  }

  /** The metas under `k` on `t` for a client that has seen `log`. */
  function Replay(log: seq<Frame>, t: Topic, k: Key): multiset<Meta> {
    if log == [] then multiset{} else Heard(Replay(log[..|log| - 1], t, k), log[|log| - 1], t, k)
  }

  predicate IsState(f: Frame, t: Topic) { f.PresenceState? && f.topic == t }

  /** A state frame for `t` has been sent since the connection last joined `t`. */
  ghost predicate Synced(c: Conn, t: Topic) {
    t in c.marks && exists i :: c.marks[t] <= i < |c.log| && IsState(c.log[i], t)
  }

  lemma ReplayMore(log: seq<Frame>, f: Frame, t: Topic, k: Key)
    ensures Replay(log + [f], t, k) == Heard(Replay(log, t, k), f, t, k)
  {
    assert (log + [f])[..|log|] == log;
  }

  /** Nothing before the last state frame matters. */
  lemma {:induction false} ReplaySuffix(a: seq<Frame>, b: seq<Frame>, t: Topic, k: Key)
    requires exists i :: 0 <= i < |b| && IsState(b[i], t)
    ensures Replay(a + b, t, k) == Replay(b, t, k)
  {
    var last := |b| - 1;
    assert a + b == (a + b[..last]) + [b[last]] && b == b[..last] + [b[last]];
    ReplayMore(a + b[..last], b[last], t, k);
    ReplayMore(b[..last], b[last], t, k);
    if !IsState(b[last], t) {
      var i :| 0 <= i < |b| && IsState(b[i], t);
      assert b[..last][i] == b[i];
      ReplaySuffix(a, b[..last], t, k);
    }
  }

  // ---------- the invariant ----------

  /** The metas under `k` in a bucket. */
  function Count(b: Bucket, k: Key): multiset<Meta> {
    if k in b then multiset(Metas(b[k])) else multiset{}
  }

  ghost predicate Knows(c: Conn, t: Topic, b: Bucket) {
    Synced(c, t) ==> forall k :: Replay(c.log, t, k) == Count(b, k)
  }

  ghost predicate Informed(s: State) {
    forall id, t | id in s.conns && t in s.conns[id].subs :: Knows(s.conns[id], t, BucketOf(s, t))
  }

  // ---------- lists with one connection's entries taken out ----------

  lemma MetasGrow(entries: seq<Entry>, e: Entry)
    ensures multiset(Metas(entries + [e])) == multiset(Metas(entries)) + multiset{e.meta}
  {
    assert Metas(entries + [e]) == Metas(entries) + [e.meta];
  }

  lemma {:induction false} KeptAndRemoved(entries: seq<Entry>, id: ConnId)
    ensures multiset(Metas(entries)) == multiset(Metas(Kept(entries, id))) + multiset(Removed(entries, id))
  {
    if entries != [] {
      var last := |entries| - 1;
      KeptAndRemoved(entries[..last], id);
      assert entries == entries[..last] + [entries[last]];
      MetasGrow(entries[..last], entries[last]);
      MetasGrow(Kept(entries[..last], id), entries[last]);
    }
  }

  lemma StripCount(b: Bucket, id: ConnId, k: Key)
    ensures Count(KeptBucket(b, id), k) == Count(b, k) - At(Leaves(b, id), k)
  {
    if k in b {
      KeptAndRemoved(b[k], id);
      assert Kept(b[k], id) == [] ==> Metas(Kept(b[k], id)) == [];
    }
  }

  // ---------- frames that are not about a topic's presence ----------

  predicate Irrelevant(f: Frame, t: Topic) {
    !f.PresenceState? && (f.PresenceDiff? ==> f.topic != t)
  }

  lemma SyncedBefore(c: Conn, f: Frame, t: Topic)
    requires Synced(Enqueue(c, f), t) && !IsState(f, t)
    ensures Synced(c, t)
  {
    var d := Enqueue(c, f);
    var i :| d.marks[t] <= i < |d.log| && IsState(d.log[i], t);
    assert IsState(c.log[i], t);
  }

  lemma IrrelevantFrame(c: Conn, f: Frame, t: Topic, b: Bucket)
    requires Irrelevant(f, t) && Knows(c, t, b)
    ensures Knows(Enqueue(c, f), t, b)
  {
    if Synced(Enqueue(c, f), t) {
      SyncedBefore(c, f, t);
      forall k ensures Replay(c.log + [f], t, k) == Count(b, k) { ReplayMore(c.log, f, t, k); }
    }
  }

  /** A diff that says exactly how the bucket changed. */
  lemma DiffFrame(c: Conn, t: Topic, joins: map<Key, seq<Meta>>, leaves: map<Key, seq<Meta>>, b: Bucket, after: Bucket)
    requires Knows(c, t, b)
    requires forall k :: Count(after, k) == Count(b, k) + At(joins, k) - At(leaves, k)
    ensures Knows(Enqueue(c, PresenceDiff(t, joins, leaves)), t, after)
  {
    var f := PresenceDiff(t, joins, leaves);
    if Synced(Enqueue(c, f), t) {
      SyncedBefore(c, f, t);
      forall k ensures Replay(c.log + [f], t, k) == Count(after, k) {
        ReplayMore(c.log, f, t, k);
        assert Replay(c.log, t, k) == Count(b, k);
      }
    }
  }

  lemma StateFrame(c: Conn, u: Topic, state: map<Key, seq<Meta>>, t: Topic, b: Bucket)
    requires Knows(c, t, b)
    requires u == t ==> forall k :: At(state, k) == Count(b, k)
    ensures Knows(Enqueue(c, PresenceState(u, state)), t, b)
  {
    var f := PresenceState(u, state);
    if Synced(Enqueue(c, f), t) {
      if u != t {
        SyncedBefore(c, f, t);
      }
      forall k ensures Replay(c.log + [f], t, k) == Count(b, k) { ReplayMore(c.log, f, t, k); }
    }
  }

  // ---------- the primitive steps ----------

  /** The bucket of `t` changed as the diff says, and no other bucket did. */
  ghost predicate ChangedBy(s: State, bare: State, t: Topic, joins: map<Key, seq<Meta>>, leaves: map<Key, seq<Meta>>) {
    && (forall u | u != t :: BucketOf(bare, u) == BucketOf(s, u))
    && (forall k :: Count(BucketOf(bare, t), k) == Count(BucketOf(s, t), k) + At(joins, k) - At(leaves, k))
  }

  lemma DiffInforms(s: State, bare: State, t: Topic, joins: map<Key, seq<Meta>>, leaves: map<Key, seq<Meta>>,
                    c: Conn, u: Topic)
    requires ChangedBy(s, bare, t, joins, leaves) && Knows(c, u, BucketOf(s, u))
    ensures Knows(Enqueue(c, PresenceDiff(t, joins, leaves)), u, BucketOf(bare, u))
  {
    if u != t {
      IrrelevantFrame(c, PresenceDiff(t, joins, leaves), u, BucketOf(s, u));
    } else {
      DiffFrame(c, t, joins, leaves, BucketOf(s, t), BucketOf(bare, t));
    }
  }

  /** A diff told to every member of its topic keeps everyone informed. */
  lemma EmitInforms(s: State, presence: map<Topic, Bucket>, t: Topic,
                    joins: map<Key, seq<Meta>>, leaves: map<Key, seq<Meta>>)
    requires Informed(s) && Indexed(SubsOf(s.conns), s.topics)
    requires ChangedBy(s, s.(presence := presence), t, joins, leaves)
    ensures Informed(Emit(s.(presence := presence), t, PresenceDiff(t, joins, leaves)))
  {
    var f := PresenceDiff(t, joins, leaves);
    var bare := s.(presence := presence);
    var r := Emit(bare, t, f);
    forall id, u | id in r.conns && u in r.conns[id].subs ensures Knows(r.conns[id], u, BucketOf(r, u)) {
      assert Joined(SubsOf(s.conns), id, u);
      assert Knows(s.conns[id], u, BucketOf(s, u));
      DiffInforms(s, bare, t, joins, leaves, s.conns[id], u);
      assert u != t ==> BucketOf(bare, u) == BucketOf(s, u);
    }
  }

  /** A bucket written differently, with the same metas under every key, is as well known. */
  lemma SameCounts(s: State, presence: map<Topic, Bucket>)
    requires Informed(s)
    requires forall u, k :: Count(BucketOf(s.(presence := presence), u), k) == Count(BucketOf(s, u), k)
    ensures Informed(s.(presence := presence))
  {
    var r := s.(presence := presence);
    forall id, u | id in r.conns && u in r.conns[id].subs ensures Knows(r.conns[id], u, BucketOf(r, u)) {
      assert Knows(s.conns[id], u, BucketOf(s, u));
    }
  }

  lemma StripBuckets(s: State, x: ConnId, t: Topic)
    ensures ChangedBy(s, s.(presence := Strip(s.presence, x, t)), t, map[], Leaves(BucketOf(s, t), x))
  {
    var r := s.(presence := Strip(s.presence, x, t));
    var none: map<Key, seq<Meta>> := map[];
    assert BucketOf(r, t) == KeptBucket(BucketOf(s, t), x);
    forall k ensures Count(BucketOf(r, t), k) ==
                     Count(BucketOf(s, t), k) + At(none, k) - At(Leaves(BucketOf(s, t), x), k)
    {
      StripCount(BucketOf(s, t), x, k);
    }
  }

  lemma NothingToStrip(s: State, x: ConnId, t: Topic)
    requires Informed(s) && Leaves(BucketOf(s, t), x) == map[]
    ensures Informed(s.(presence := Strip(s.presence, x, t)))
  {
    StripBuckets(s, x, t);
    var none: map<Key, seq<Meta>> := map[];
    assert forall k :: At(none, k) == multiset{};
    SameCounts(s, Strip(s.presence, x, t));
  }

  lemma DropPresenceInforms(s: State, x: ConnId, t: Topic)
    requires Informed(s) && Indexed(SubsOf(s.conns), s.topics)
    ensures Informed(DropPresence(s, x, t))
  {
    var leaves := Leaves(BucketOf(s, t), x);
    if leaves == map[] {
      NothingToStrip(s, x, t);
    } else {
      StripBuckets(s, x, t);
      EmitInforms(s, Strip(s.presence, x, t), t, map[], leaves);
    }
  }

  lemma LeaveIndexInforms(s: State, x: ConnId, t: Topic, due: set<Topic>)
    requires Informed(s) && Agreeing(s, x, due) && !Joined(SubsOf(s.conns), x, t)
    ensures Informed(LeaveIndex(s, x, t))
  {
    UnlistKeeps(SubsOf(s.conns), s.topics, x, t, due);
    var unlisted := s.(topics := Unlist(s.topics, x, t));
    assert forall u :: BucketOf(unlisted, u) == BucketOf(s, u);
    DropPresenceInforms(unlisted, x, t);
  }

  lemma {:induction false} LeaveAllInforms(s: State, x: ConnId, order: seq<Topic>, due: set<Topic>)
    requires Informed(s) && Agreeing(s, x, due) && Ordered(s) && x !in s.conns
    ensures Informed(LeaveAll(s, x, order))
  {
    if order != [] {
      var last := |order| - 1;
      LeaveAllInforms(s, x, order[..last], due);
      LeaveAllKeeps(s, x, order[..last], due);
      LeaveIndexInforms(LeaveAll(s, x, order[..last]), x, order[last], due - TopicSet(order[..last]));
    }
  }

  // ---------- the operations ----------

  /** Setting one connection informs it or leaves its knowledge alone. */
  lemma SetConnInforms(s: State, x: ConnId, c: Conn)
    requires Informed(s) && forall t | t in c.subs :: Knows(c, t, BucketOf(s, t))
    ensures Informed(SetConn(s, x, c))
  {
    var r := SetConn(s, x, c);
    forall id, t | id in r.conns && t in r.conns[id].subs ensures Knows(r.conns[id], t, BucketOf(r, t)) {
      assert BucketOf(r, t) == BucketOf(s, t);
      if id != x {
        assert Knows(s.conns[id], t, BucketOf(s, t));
      }
    }
  }

  lemma ForgetInforms(s: State, x: ConnId, t: Topic)
    requires Informed(s) && x in s.conns
    ensures Informed(Forgotten(s, x, t))
  {
    var c := Forget(s.conns[x], t);
    forall u | u in c.subs ensures Knows(c, u, BucketOf(s, u)) {
      assert Knows(s.conns[x], u, BucketOf(s, u));
    }
    SetConnInforms(s, x, c);
  }

  lemma UnsubscribeInforms(s: State, x: ConnId, t: Topic)
    requires Informed(s) && Coherent(s) && x in s.conns
    ensures Informed(Unsubscribe(s, x, t))
  {
    ForgetInforms(s, x, t);
    ForgottenKeeps(s, x, t);
    LeaveIndexInforms(Forgotten(s, x, t), x, t, {t});
  }

  /** A join starts out knowing nothing, so it claims nothing. */
  lemma ArriveInforms(s: State, x: ConnId, sub: Subscription)
    requires Informed(s) && x in s.conns
    ensures Informed(Arrived(s, x, sub))
  {
    var c := Remember(s.conns[x], sub);
    forall u | u in c.subs ensures Knows(c, u, BucketOf(s, u)) {
      if u == sub.topic {
        assert !Synced(c, u);
      } else {
        assert Knows(s.conns[x], u, BucketOf(s, u));
      }
    }
    SetConnInforms(s, x, c);
    var r := Arrived(s, x, sub);
    forall id, t | id in r.conns && t in r.conns[id].subs ensures Knows(r.conns[id], t, BucketOf(r, t)) {
      assert Knows(SetConn(s, x, c).conns[id], t, BucketOf(SetConn(s, x, c), t));
    }
  }

  lemma LeftInforms(s: State, x: ConnId, t: Topic)
    requires Informed(s) && Coherent(s) && x in s.conns
    ensures Informed(Left(s, x, t))
  {
    if t in s.conns[x].subs {
      UnsubscribeInforms(s, x, t);
    }
  }

  lemma SubscribeInforms(s: State, x: ConnId, t: Topic, filters: seq<Resolved>, echo: bool, key: Key)
    requires Informed(s) && Coherent(s) && x in s.conns
    ensures Informed(Subscribe(s, x, t, filters, echo, key))
  {
    LeftKeeps(s, x, t);
    LeftInforms(s, x, t);
    ArriveInforms(Left(s, x, t), x, Subscription(t, filters, echo, if key == "" then Decimal(x) else key));
  }

  lemma DrawnInforms(s: State, next: SubId)
    requires Informed(s)
    ensures Informed(s.(nextSub := next))
  {
    var r := s.(nextSub := next);
    forall id, t | id in r.conns && t in r.conns[id].subs ensures Knows(r.conns[id], t, BucketOf(r, t)) {
      assert Knows(s.conns[id], t, BucketOf(s, t));
    }
  }

  lemma JoinInforms(s: State, x: ConnId, t: Topic, specs: seq<FilterSpec>, echo: bool, key: Key, maxSubs: nat)
    requires Informed(s) && Coherent(s) && x in s.conns
    ensures Informed(Join(s, x, t, specs, echo, key, maxSubs))
  {
    var given := Assign(specs, s.nextSub);
    DrawnInforms(s, given.next);
    if given.filters.Some? {
      SubscribeInforms(s.(nextSub := given.next), x, t, given.filters.value, echo, key);
    }
  }

  lemma TrackCounts(s: State, x: ConnId, t: Topic, meta: Meta, k: Key)
    requires x in s.conns && t in s.conns[x].subs
    ensures Count(TrackedBucket(s, x, t, meta), k) ==
            Count(BucketOf(s, t), k) + At(map[s.conns[x].subs[t].key := [meta]], k)
  {
    var b, key := BucketOf(s, t), s.conns[x].subs[t].key;
    MetasGrow(if key in b then b[key] else [], Entry(x, meta));
    assert multiset([meta]) == multiset{meta};
  }

  lemma TrackChanges(s: State, x: ConnId, t: Topic, meta: Meta)
    requires x in s.conns && t in s.conns[x].subs
    ensures ChangedBy(s, s.(presence := s.presence[t := TrackedBucket(s, x, t, meta)]), t,
                      map[s.conns[x].subs[t].key := [meta]], map[])
  {
    var bare := s.(presence := s.presence[t := TrackedBucket(s, x, t, meta)]);
    var none: map<Key, seq<Meta>> := map[];
    forall k ensures Count(BucketOf(bare, t), k) ==
                     Count(BucketOf(s, t), k) + At(map[s.conns[x].subs[t].key := [meta]], k) - At(none, k)
    {
      TrackCounts(s, x, t, meta, k);
    }
  }

  lemma TrackInforms(s: State, x: ConnId, t: Topic, meta: Meta)
    requires Informed(s) && Coherent(s) && x in s.conns
    ensures Informed(Track(s, x, t, meta))
  {
    if t in s.conns[x].subs {
      TrackChanges(s, x, t, meta);
      EmitInforms(s, s.presence[t := TrackedBucket(s, x, t, meta)], t, map[s.conns[x].subs[t].key := [meta]], map[]);
    }
  }

  lemma PushInforms(s: State, x: ConnId, t: Topic)
    requires Informed(s) && x in s.conns
    ensures Informed(PushState(s, x, t))
  {
    var state := PresenceOf(s, t);
    var c := Enqueue(s.conns[x], PresenceState(t, state));
    forall u | u in c.subs ensures Knows(c, u, BucketOf(s, u)) {
      assert Knows(s.conns[x], u, BucketOf(s, u));
      assert forall k :: At(state, k) == Count(BucketOf(s, t), k);
      StateFrame(s.conns[x], t, state, u, BucketOf(s, u));
    }
    SetConnInforms(s, x, c);
  }

  lemma EnqueueInforms(s: State, x: ConnId, f: Frame)
    requires Informed(s) && x in s.conns && !f.PresenceState? && !f.PresenceDiff?
    ensures Informed(SetConn(s, x, Enqueue(s.conns[x], f)))
  {
    var c := Enqueue(s.conns[x], f);
    forall u | u in c.subs ensures Knows(c, u, BucketOf(s, u)) {
      assert Knows(s.conns[x], u, BucketOf(s, u));
      IrrelevantFrame(s.conns[x], f, u, BucketOf(s, u));
    }
    SetConnInforms(s, x, c);
  }

  lemma SendInforms(s: State, ids: set<ConnId>, f: Frame)
    requires Informed(s) && !f.PresenceState? && !f.PresenceDiff?
    ensures Informed(s.(conns := EnqueueAt(s.conns, ids, f)))
  {
    var r := s.(conns := EnqueueAt(s.conns, ids, f));
    forall id, u | id in r.conns && u in r.conns[id].subs ensures Knows(r.conns[id], u, BucketOf(r, u)) {
      assert Knows(s.conns[id], u, BucketOf(s, u));
      IrrelevantFrame(s.conns[id], f, u, BucketOf(s, u));
      assert BucketOf(r, u) == BucketOf(s, u);
    }
  }

  /** Claims, and what the writer takes, do not matter to presence. */
  lemma SameHistoryInforms(s: State, x: ConnId, c: Conn)
    requires Informed(s) && x in s.conns
    requires c.subs == s.conns[x].subs && c.log == s.conns[x].log && c.marks == s.conns[x].marks
    ensures Informed(SetConn(s, x, c))
  {
    forall u | u in c.subs ensures Knows(c, u, BucketOf(s, u)) {
      assert Knows(s.conns[x], u, BucketOf(s, u));
      assert Synced(c, u) ==> Synced(s.conns[x], u);
    }
    SetConnInforms(s, x, c);
  }

  lemma UnregisterInforms(s: State, x: ConnId)
    requires Informed(s) && Coherent(s) && x in s.conns
    ensures Informed(Unregister(s, x))
  {
    GoneInforms(s, x);
    GoneKeeps(s, x);
    LeaveAllInforms(Gone(s, x), x, s.conns[x].order, TopicSet(s.conns[x].order));
  }

  lemma GoneInforms(s: State, x: ConnId)
    requires Informed(s)
    ensures Informed(Gone(s, x))
  {
    var r := Gone(s, x);
    forall id, t | id in r.conns && t in r.conns[id].subs ensures Knows(r.conns[id], t, BucketOf(r, t)) {
      assert Knows(s.conns[id], t, BucketOf(s, t));
    }
  }

  lemma RegisterInforms(s: State, role: string, claims: Claims, capacity: int, cap: int)
    requires Informed(s)
    ensures Informed(Register(s, role, claims, capacity, cap))
  {
    if |s.conns| < cap {
      SetConnInforms(s, s.nextConn, Fresh(role, claims, capacity));
      var mid, r := SetConn(s, s.nextConn, Fresh(role, claims, capacity)), Register(s, role, claims, capacity, cap);
      forall id, t | id in r.conns && t in r.conns[id].subs ensures Knows(r.conns[id], t, BucketOf(r, t)) {
        assert Knows(mid.conns[id], t, BucketOf(mid, t));
      }
    }
  }

  // ---------- every run ----------

  lemma SendOpInforms(s: State, maxSubs: nat, op: Op)
    requires Informed(s) && op.SendOp?
    ensures Informed(Step(s, maxSubs, op))
  {
    SendInforms(s, Recipients(s, op.topic, op.sender), Broadcast(op.topic, op.event, op.payload));
  }

  lemma QuietInforms(s: State, maxSubs: nat, op: Op)
    requires Informed(s) && Quiet(op)
    ensures Informed(Step(s, maxSubs, op))
  {
    if op.SendOp? {
      SendOpInforms(s, maxSubs, op);
    } else if op.id in s.conns {
      var c := s.conns[op.id];
      match op {
        case ClaimsOp(id, role, claims) => SameHistoryInforms(s, id, c.(role := role, claims := claims));
        case PushStateOp(id, t) => PushInforms(s, id, t);
        case ChangesOp(id, t, ids, change) => EnqueueInforms(s, id, Changes(t, ids, change));
        case DrainOp(id) => SameHistoryInforms(s, id, Drain(c));
      }
    }
  }

  lemma StepInforms(s: State, maxSubs: nat, op: Op)
    requires Informed(s) && Coherent(s)
    ensures Informed(Step(s, maxSubs, op))
  {
    match op {
      case RegisterOp(role, claims, capacity, cap) => RegisterInforms(s, role, claims, capacity, cap);
      case UnregisterOp(id) => if id in s.conns { UnregisterInforms(s, id); }
      case JoinOp(id, t, specs, echo, key) => if id in s.conns { JoinInforms(s, id, t, specs, echo, key, maxSubs); }
      case LeaveOp(id, t) => if id in s.conns { UnsubscribeInforms(s, id, t); }
      case TrackOp(id, t, meta) => if id in s.conns { TrackInforms(s, id, t, meta); }
      case UntrackOp(id, t) => DropPresenceInforms(s, id, t);
      case _ => QuietInforms(s, maxSubs, op);
    }
  }

  lemma {:induction false} EveryoneIsInformed(maxSubs: nat, ops: seq<Op>)
    ensures Informed(Run(EMPTY, maxSubs, ops))
  {
    if ops != [] {
      var front := ops[..|ops| - 1];
      EveryoneIsInformed(maxSubs, front);
      EveryRunIsCoherent(maxSubs, front);
      StepInforms(Run(EMPTY, maxSubs, front), maxSubs, ops[|ops| - 1]);
    }
  }

  /** Nothing has been lost since the last state frame for the topic. */
  ghost predicate IntactSinceState(c: Conn, t: Topic) {
    exists i :: c.lost <= i < |c.log| && IsState(c.log[i], t)
  }

  lemma IntactReplays(c: Conn, t: Topic, k: Key)
    requires QueueKept(c) && IntactSinceState(c, t)
    ensures Replay(c.received + c.queue, t, k) == Replay(c.log, t, k)
  {
    var i :| c.lost <= i < |c.log| && IsState(c.log[i], t);
    var b, all := c.log[c.lost..], c.received + c.queue;
    assert b[i - c.lost] == c.log[i];
    assert c.log == c.log[..c.lost] + b && all == all[..|all| - |b|] + b;
    ReplaySuffix(c.log[..c.lost], b, t, k);
    ReplaySuffix(all[..|all| - |b|], b, t, k);
  }

  /**
   In every run, for every subscriber that has been sent a state frame for the topic since it joined and has lost
   nothing since the last one: replaying what it has taken and what waits for it gives, under every key, the metas
   `presence_state` would list now. A subscriber that has lost nothing at all is such a subscriber.
   */
  lemma PresenceReplays(maxSubs: nat, ops: seq<Op>, id: ConnId, t: Topic, k: Key)
    ensures var s := Run(EMPTY, maxSubs, ops);
      id in s.conns && t in s.conns[id].subs && Synced(s.conns[id], t) ==>
        var c := s.conns[id];
        && (IntactSinceState(c, t) ==> Replay(c.received + c.queue, t, k) == At(PresenceOf(s, t), k))
        && (c.dropped == 0 ==> IntactSinceState(c, t))
  {
    var s := Run(EMPTY, maxSubs, ops);
    EveryoneIsInformed(maxSubs, ops);
    EveryQueueIsKept(maxSubs, ops);
    if id in s.conns && t in s.conns[id].subs && Synced(s.conns[id], t) {
      var c := s.conns[id];
      assert QueueKept(c) && Knows(c, t, BucketOf(s, t));
      assert Count(BucketOf(s, t), k) == At(PresenceOf(s, t), k);
      if IntactSinceState(c, t) {
        IntactReplays(c, t, k);
      }
    }
  }

  // ---------- without the proviso ----------

  lemma RunMore(maxSubs: nat, ops: seq<Op>, op: Op)
    ensures Run(EMPTY, maxSubs, ops + [op]) == Step(Run(EMPTY, maxSubs, ops), maxSubs, op)
  {
    assert (ops + [op])[..|ops|] == ops;
  }

  const LOBBY: Topic := "realtime:t"

  const LONE := Conn("anon", Claims(None, None), map[LOBBY := Subscription(LOBBY, [], false, "a")], [LOBBY], 1,
                     [], 0, [], [], 0, map[LOBBY := 0])

  function Lone(c: Conn, presence: map<Topic, Bucket>): State { State(map[1 := c], map[LOBBY := {1}], presence, 2, 1) }

  lemma JoinedLone()
    ensures Step(Step(EMPTY, 0, RegisterOp("anon", Claims(None, None), 1, 1)), 0, JoinOp(1, LOBBY, [], false, "a")) ==
            Lone(LONE, map[])
  {
    var s := Step(EMPTY, 0, RegisterOp("anon", Claims(None, None), 1, 1));
    var c := Fresh("anon", Claims(None, None), 1);
    assert s == State(map[1 := c], map[], map[], 2, 1);
    assert FilterCount(c.subs, c.order) == 0 && Assign([], 1) == Assigned(Some([]), 1);
    var r := Join(s, 1, LOBBY, [], false, "a", 0);
    assert r == Subscribe(s, 1, LOBBY, [], false, "a");
    assert r.conns[1] == LONE;
    assert r.conns == map[1 := LONE] && r.topics == map[LOBBY := {1}];
  }

  /** One frame to the only member of LOBBY. */
  lemma LoneEmit(c: Conn, presence: map<Topic, Bucket>, f: Frame)
    ensures Emit(Lone(c, presence), LOBBY, f) == Lone(Enqueue(c, f), presence)
  {
    assert EnqueueAt(map[1 := c], {1}, f) == map[1 := Enqueue(c, f)];
  }

  lemma LoneTrack(c: Conn, entries: seq<Entry>, meta: Meta)
    requires c.subs == LONE.subs
    ensures var b: map<Topic, Bucket> := if entries == [] then map[] else map[LOBBY := map["a" := entries]];
      Track(Lone(c, b), 1, LOBBY, meta) ==
      Lone(Enqueue(c, PresenceDiff(LOBBY, map["a" := [meta]], map[])),
           map[LOBBY := map["a" := entries + [Entry(1, meta)]]])
  {
    var b: map<Topic, Bucket> := if entries == [] then map[] else map[LOBBY := map["a" := entries]];
    var after := map[LOBBY := map["a" := entries + [Entry(1, meta)]]];
    var bucket := BucketOf(Lone(c, b), LOBBY);
    assert bucket["a" := entries + [Entry(1, meta)]] == map["a" := entries + [Entry(1, meta)]] by {
      if entries != [] {
        assert bucket == map["a" := entries];
      }
    }
    assert b[LOBBY := map["a" := entries + [Entry(1, meta)]]] == after;
    LoneEmit(c, after, PresenceDiff(LOBBY, map["a" := [meta]], map[]));
  }

  /** Two frames were dropped, and the client knows one of the two metas. */
  ghost predicate Misled(s: State) {
    && 1 in s.conns && LOBBY in s.conns[1].subs && Synced(s.conns[1], LOBBY) && s.conns[1].dropped == 2
    && Replay(s.conns[1].received + s.conns[1].queue, LOBBY, "a") == multiset{"y"}
    && At(PresenceOf(s, LOBBY), "a") == multiset{"x", "y"}
  }

  lemma FiveSteps(a: Op, b: Op, c: Op, d: Op, e: Op)
    ensures Run(EMPTY, 0, [a, b, c, d, e]) == Step(Step(Step(Step(Step(EMPTY, 0, a), 0, b), 0, c), 0, d), 0, e)
  {
    RunMore(0, [], a);
    RunMore(0, [a], b);
    RunMore(0, [a, b], c);
    RunMore(0, [a, b, c], d);
    RunMore(0, [a, b, c, d], e);
    assert [] + [a] == [a] && [a] + [b] == [a, b] && [a, b] + [c] == [a, b, c];
    assert [a, b, c] + [d] == [a, b, c, d] && [a, b, c, d] + [e] == [a, b, c, d, e];
  }

  /** One slot and nobody reading: the state frame and the first join are dropped, the second join alone stays. */
  lemma DroppedDiffMisleads()
    ensures Misled(Run(EMPTY, 0, [RegisterOp("anon", Claims(None, None), 1, 1), JoinOp(1, LOBBY, [], false, "a"),
                                  PushStateOp(1, LOBBY), TrackOp(1, LOBBY, "x"), TrackOp(1, LOBBY, "y")]))
  {
    FiveSteps(RegisterOp("anon", Claims(None, None), 1, 1), JoinOp(1, LOBBY, [], false, "a"),
              PushStateOp(1, LOBBY), TrackOp(1, LOBBY, "x"), TrackOp(1, LOBBY, "y"));
    JoinedLone();
    LoneStory();
  }

  const SENT := [PresenceState(LOBBY, map[]), PresenceDiff(LOBBY, map["a" := ["x"]], map[]),
                 PresenceDiff(LOBBY, map["a" := ["y"]], map[])]

  const BOTH := [Entry(1, "x"), Entry(1, "y")]

  lemma LoneStory()
    ensures var pushed := Step(Lone(LONE, map[]), 0, PushStateOp(1, LOBBY));
      Misled(Step(Step(pushed, 0, TrackOp(1, LOBBY, "x")), 0, TrackOp(1, LOBBY, "y")))
  {
    LoneSends();
    LoneMisled();
    var pushed := PushState(Lone(LONE, map[]), 1, LOBBY);
    assert Step(Lone(LONE, map[]), 0, PushStateOp(1, LOBBY)) == pushed;
    assert Step(pushed, 0, TrackOp(1, LOBBY, "x")) == Track(pushed, 1, LOBBY, "x");
    assert 1 in Track(pushed, 1, LOBBY, "x").conns;
  }

  lemma LoneSends()
    ensures Track(Track(PushState(Lone(LONE, map[]), 1, LOBBY), 1, LOBBY, "x"), 1, LOBBY, "y") ==
            Lone(LONE.(queue := [SENT[2]], log := SENT, dropped := 2, lost := 2), map[LOBBY := map["a" := BOTH]])
  {
    var first := Enqueue(LONE, SENT[0]);
    assert PushState(Lone(LONE, map[]), 1, LOBBY) == Lone(first, map[]);
    LoneTrack(first, [], "x");
    var second := Enqueue(first, SENT[1]);
    assert second == LONE.(queue := [SENT[1]], log := [SENT[0], SENT[1]], dropped := 1, lost := 1);
    assert [] + [Entry(1, "x")] == [Entry(1, "x")];
    LoneTrack(second, [Entry(1, "x")], "y");
    assert [Entry(1, "x")] + [Entry(1, "y")] == BOTH;
    assert [SENT[0], SENT[1]] + [SENT[2]] == SENT && [SENT[1]][1..] + [SENT[2]] == [SENT[2]];
  }

  lemma LoneMisled()
    ensures Misled(Lone(LONE.(queue := [SENT[2]], log := SENT, dropped := 2, lost := 2),
                        map[LOBBY := map["a" := BOTH]]))
  {
    var c := LONE.(queue := [SENT[2]], log := SENT, dropped := 2, lost := 2);
    assert IsState(c.log[0], LOBBY);
    assert c.received + c.queue == [] + [SENT[2]];
    ReplayMore([], SENT[2], LOBBY, "a");
    assert multiset(["y"]) == multiset{"y"};
    assert Metas(BOTH) == ["x", "y"];
  }
}
