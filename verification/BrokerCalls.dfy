/** What registering, new claims, presence and the state frame do, in every reachable state. */
module BrokerCalls {
  import opened Common
  import opened BrokerModel
  import opened BrokerIndex
  import opened BrokerLimits
  import opened BrokerPresence

  /** A connection is admitted below the cap: open, empty, with its role and claims, under the next id. */
  lemma RegisterAdmits(maxSubs: nat, ops: seq<Op>, role: string, claims: Claims, capacity: int, cap: int)
    ensures var s := Run(EMPTY, maxSubs, ops);
      var r := Step(s, maxSubs, RegisterOp(role, claims, capacity, cap));
      if |s.conns| >= cap then r == s
      else
        && s.nextConn !in s.conns && (forall id | id in s.conns :: id < s.nextConn) && s.nextConn in r.conns
        && r == s.(conns := s.conns[s.nextConn := r.conns[s.nextConn]], nextConn := s.nextConn + 1)
        && r.conns[s.nextConn] == Conn(role, claims, map[], [], capacity, [], 0, [], [], 0, map[])
  {
    EveryRunIsCoherent(maxSubs, ops);
  }

  /** No run holds more connections than the largest cap it was ever given. */
  lemma {:induction false} ConnectionsAreCapped(maxSubs: nat, ops: seq<Op>, most: nat)
    requires forall i | 0 <= i < |ops| && ops[i].RegisterOp? :: ops[i].maxConnections <= most
    ensures |Run(EMPTY, maxSubs, ops).conns| <= most
  {
    if ops != [] {
      ConnectionsAreCapped(maxSubs, ops[..|ops| - 1], most);
      OneMoreConnection(Run(EMPTY, maxSubs, ops[..|ops| - 1]), maxSubs, ops[|ops| - 1], most);
    }
  }

  lemma OneMoreConnection(s: State, maxSubs: nat, op: Op, most: nat)
    requires |s.conns| <= most && (op.RegisterOp? ==> op.maxConnections <= most)
    ensures |Step(s, maxSubs, op).conns| <= most
  {
    var r := Step(s, maxSubs, op);
    if op.RegisterOp? {
      assert r.conns != s.conns ==> |r.conns| == |s.conns| + 1 || |r.conns| == |s.conns|;
    } else {
      KeysShrink(s, maxSubs, op);
      FewerKeys(s.conns, r.conns);
    }
  }

  lemma FewerKeys<T>(a: map<ConnId, T>, b: map<ConnId, T>)
    requires b.Keys <= a.Keys
    ensures |b| <= |a|
  {
    assert |a| == |a.Keys| && |b| == |b.Keys|;
    var rest := a.Keys - b.Keys;
    assert a.Keys == b.Keys + rest;
  }

  lemma KeysShrink(s: State, maxSubs: nat, op: Op)
    requires !op.RegisterOp?
    ensures Step(s, maxSubs, op).conns.Keys <= s.conns.Keys
  {
    match op {
      case UnregisterOp(x) => if x in s.conns { LeaveAllQueuesOnly(Gone(s, x), x, s.conns[x].order); }
      case JoinOp(x, t, specs, echo, key) =>
        if x in s.conns { LeaveIndexView(Forgotten(s.(nextSub := Assign(specs, s.nextSub).next), x, t), x, t); }
      case LeaveOp(x, t) => if x in s.conns { LeaveIndexView(Forgotten(s, x, t), x, t); }
      case TrackOp(x, t, meta) => if x in s.conns && t in s.conns[x].subs { TrackView(s, x, t, meta); }
      case UntrackOp(x, t) => UntrackView(s, x, t);
      case _ => QuietView(s, maxSubs, op);
    }
  }

  /** A disconnect closes its connection and no other. */
  lemma DisconnectCloses(s: State, maxSubs: nat, id: ConnId)
    ensures Step(s, maxSubs, UnregisterOp(id)).conns.Keys == s.conns.Keys - {id}
  {
    if id in s.conns {
      LeaveAllQueuesOnly(Gone(s, id), id, s.conns[id].order);
    }
  }

  /** New claims replace role and claims of one connection, and nothing else. */
  lemma ClaimsReplace(s: State, maxSubs: nat, id: ConnId, role: string, claims: Claims)
    ensures var r := Step(s, maxSubs, ClaimsOp(id, role, claims));
      if id in s.conns then r == s.(conns := s.conns[id := s.conns[id].(role := role, claims := claims)]) else r == s
  {
  }

  /** The state frame goes to one connection and says who is there. */
  lemma StateIsSent(s: State, maxSubs: nat, id: ConnId, t: Topic)
    requires id in s.conns
    ensures var r := Step(s, maxSubs, PushStateOp(id, t));
      && r.conns.Keys == s.conns.Keys && r.presence == s.presence && r.topics == s.topics
      && (forall x | x in s.conns && x != id :: r.conns[x] == s.conns[x])
      && |r.conns[id].log| == |s.conns[id].log| + 1 && s.conns[id].log <= r.conns[id].log
      && var f := r.conns[id].log[|s.conns[id].log|];
         f.PresenceState? && f.topic == t && forall k :: At(f.state, k) == Count(BucketOf(s, t), k)
  {
    var f := PresenceState(t, PresenceOf(s, t));
    assert Step(s, maxSubs, PushStateOp(id, t)).conns[id].log == s.conns[id].log + [f];
  }

  // ---------- presence ----------

  /** Someone's entry under a key of a topic. */
  predicate IsThere(s: State, t: Topic, k: Key, e: Entry) { k in BucketOf(s, t) && e in BucketOf(s, t)[k] }

  /** A member tracks: its entry is added under its key, and who was there stays there. */
  lemma TrackAdds(maxSubs: nat, ops: seq<Op>, id: ConnId, t: Topic, meta: Meta)
    ensures var s := Run(EMPTY, maxSubs, ops); var r := Step(s, maxSubs, TrackOp(id, t, meta));
      if id in s.conns && t in s.conns[id].subs then
        forall u, k, e :: IsThere(r, u, k, e) <==>
          IsThere(s, u, k, e) || (u == t && k == s.conns[id].subs[t].key && e == Entry(id, meta))
      else r == s
  {
  }

  /** Untracking takes the connection's own entries on the topic away, and nobody else's. */
  lemma UntrackRemoves(s: State, maxSubs: nat, id: ConnId, t: Topic)
    requires id in s.conns
    ensures var r := Step(s, maxSubs, UntrackOp(id, t));
      forall u, k, e :: IsThere(r, u, k, e) <==> IsThere(s, u, k, e) && !(u == t && e.conn == id)
  {
    UntrackView(s, id, t);
    StripRemoves(s, s.(presence := Strip(s.presence, id, t)), id, t);
  }

  lemma StripRemoves(s: State, r: State, id: ConnId, t: Topic)
    requires r.presence == Strip(s.presence, id, t)
    ensures forall u, k, e :: IsThere(r, u, k, e) <==> IsThere(s, u, k, e) && !(u == t && e.conn == id)
  {
    forall u, k, e ensures IsThere(r, u, k, e) <==> IsThere(s, u, k, e) && !(u == t && e.conn == id) {
      if k in BucketOf(s, u) {
        KeptEntries(BucketOf(s, u)[k], id);
      }
    }
  }

  /** So does leaving the topic. */
  lemma LeaveRemoves(s: State, maxSubs: nat, id: ConnId, t: Topic)
    requires id in s.conns
    ensures var r := Step(s, maxSubs, LeaveOp(id, t));
      forall u, k, e :: IsThere(r, u, k, e) <==> IsThere(s, u, k, e) && !(u == t && e.conn == id)
  {
    LeaveIndexView(Forgotten(s, id, t), id, t);
    StripRemoves(s, Step(s, maxSubs, LeaveOp(id, t)), id, t);
  }

  lemma {:induction false} LeaveAllRemoves(s: State, id: ConnId, order: seq<Topic>)
    ensures forall u, k, e ::
      IsThere(LeaveAll(s, id, order), u, k, e) <==> IsThere(s, u, k, e) && !(u in order && e.conn == id)
  {
    if order != [] {
      var front, t := order[..|order| - 1], order[|order| - 1];
      LeaveAllRemoves(s, id, front);
      LeaveIndexView(LeaveAll(s, id, front), id, t);
      StripRemoves(LeaveAll(s, id, front), LeaveAll(s, id, order), id, t);
      assert order == front + [t];
    }
  }

  /** A disconnect takes all of the connection's entries away. */
  lemma DisconnectRemoves(maxSubs: nat, ops: seq<Op>, id: ConnId)
    requires id in Run(EMPTY, maxSubs, ops).conns
    ensures var s := Run(EMPTY, maxSubs, ops); var r := Step(s, maxSubs, UnregisterOp(id));
      forall u, k, e :: IsThere(r, u, k, e) <==> IsThere(s, u, k, e) && e.conn != id
  {
    var s := Run(EMPTY, maxSubs, ops);
    EveryRunIsCoherent(maxSubs, ops);
    LeaveAllRemoves(Gone(s, id), id, s.conns[id].order);
    assert ConnOrdered(s.conns[id]);
    forall u, k, e | IsThere(s, u, k, e) && e.conn == id ensures u in s.conns[id].order {
      assert BucketOwned(SubsOf(s.conns), u, s.presence[u], 0, {});
      assert EntryOwned(SubsOf(s.conns), u, k, e, 0, {});
    }
  }
}
