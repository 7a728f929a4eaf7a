/** The broker's objects: its methods step by step, each proved to take the step of the model. */
module RealtimeBroker {
  import opened Common
  import opened BrokerModel
  import opened BrokerIndex
  import opened BrokerFanout
  import BrokerAccess
  import Topics

  class Connection {
    const id: ConnId
    const capacity: int
    var role: string
    var claims: Claims
    var outbound: seq<Frame>
    var subs: map<Topic, Subscription>
    var order: seq<Topic>
    var dropped: nat
    var closed: bool
    ghost var received: seq<Frame>
    ghost var log: seq<Frame>
    ghost var lost: nat
    ghost var marks: map<Topic, nat>

    ghost function Value(): Conn
      reads this
    {
      Conn(role, claims, subs, order, capacity, outbound, dropped, received, log, lost, marks)
    }

    constructor (id: ConnId, role: string, claims: Claims, capacity: int)
      ensures this.id == id && !closed && Value() == Fresh(role, claims, capacity)
    {
      this.id, this.capacity, this.role, this.claims := id, capacity, role, claims;
      outbound, subs, order, dropped, closed := [], map[], [], 0, false;
      received, log, lost, marks := [], [], 0, map[];
    }

    /** Enqueue with drop-oldest; refused once the connection is closed. */
    method Put(f: Frame) returns (queued: bool)
      modifies this
      ensures queued == !closed && closed == old(closed)
      ensures Value() == if closed then old(Value()) else Enqueue(old(Value()), f)
      ensures !closed ==> log == old(log) + [f] && received == old(received)
      ensures !closed && (capacity <= 0 || |old(outbound)| < capacity) ==>
        outbound == old(outbound) + [f] && dropped == old(dropped) && lost == old(lost)
      ensures !closed && capacity > 0 && |old(outbound)| >= capacity ==>
        outbound == old(outbound)[1..] + [f] && dropped == old(dropped) + 1
    {
      if closed {
        return false;
      }
      if capacity > 0 && |outbound| >= capacity {
        outbound := outbound[1..];
        dropped := dropped + 1;
        lost := |received| + dropped;
      }
      outbound := outbound + [f];
      log := log + [f];
      return true;
    }

    /** The writer task takes the oldest frame. */
    method Take() returns (f: Option<Frame>)
      modifies this
      ensures Value() == Drain(old(Value())) && closed == old(closed)
      ensures f == if old(outbound) == [] then None else Some(old(outbound[0]))
    {
      if outbound == [] {
        return None;
      }
      f := Some(outbound[0]);
      received := received + [outbound[0]];
      outbound := outbound[1..];
    }

    method UpdateClaims(role: string, claims: Claims)
      modifies this
      ensures Value() == old(Value()).(role := role, claims := claims) && closed == old(closed)
    {
      this.role := role;
      this.claims := claims;
    }

    method PopSubscription(t: Topic)
      modifies this
      ensures Value() == Forget(old(Value()), t) && closed == old(closed)
    {
      subs := subs - {t};
      order := Without(order, t);
      marks := marks - {t};
    }

    method AddSubscription(sub: Subscription)
      modifies this
      ensures Value() == Remember(old(Value()), sub) && closed == old(closed)
    {
      subs := subs[sub.topic := sub];
      order := order + [sub.topic];
      marks := marks[sub.topic := |log|];
    }
  }

  function Values(connections: map<ConnId, Connection>): set<Connection> {
    set id | id in connections :: connections[id]
  }

  class Broker {
    const maxConnections: int
    const queueSize: int
    const maxSubs: nat
    var connections: map<ConnId, Connection>
    var topics: map<Topic, set<ConnId>>
    var presence: map<Topic, Bucket>
    var nextConn: ConnId
    var nextSub: SubId

    // What the registered connections hold, as values.
    ghost var conns: map<ConnId, Conn>

    /** Each connection sits under its own id, below the next one, is open, and holds what `conns` says. */
    ghost predicate Valid()
      reads this, Values(connections)
    {
      && conns.Keys == connections.Keys
      && (forall id | id in connections ::
            && id < nextConn && connections[id].id == id
            && !connections[id].closed && connections[id].Value() == conns[id])
    }

    ghost function Abs(): State
      reads this
    {
      State(conns, topics, presence, nextConn, nextSub)
    }

    ghost predicate Registered(c: Connection)
      reads this
    {
      c.id in connections && connections[c.id] == c
    }

    constructor (maxConnections: int, queueSize: int, maxSubs: nat)
      ensures Valid() && Abs() == EMPTY
    {
      this.maxConnections, this.queueSize, this.maxSubs := maxConnections, queueSize, maxSubs;
      connections, topics, presence, nextConn, nextSub := map[], map[], map[], 1, 1;
      conns := map[];
    }

    // ---------- registry ----------

    method AddConnection(role: string, claims: Claims) returns (c: Connection)
      requires Valid()
      modifies this`connections, this`conns, this`nextConn
      ensures Valid() && fresh(c) && nextConn == old(nextConn) + 1
      ensures connections == old(connections)[old(nextConn) := c]
      ensures conns == old(conns)[old(nextConn) := Fresh(role, claims, queueSize)]
    {
      c := new Connection(nextConn, role, claims, queueSize);
      connections := connections[nextConn := c];
      conns := conns[nextConn := c.Value()];
      nextConn := nextConn + 1;
    }

    method Register(role: string, claims: Claims) returns (c: Option<Connection>)
      requires Valid()
      modifies this`connections, this`conns, this`nextConn
      ensures Valid() && Abs() == BrokerModel.Register(old(Abs()), role, claims, queueSize, maxConnections)
      ensures c.Some? <==> old(|connections|) < maxConnections
      ensures c.Some? ==> fresh(c.value) && connections == old(connections)[old(nextConn) := c.value]
      ensures c.None? ==> connections == old(connections)
    {
      assert |conns| == |conns.Keys| && |connections| == |connections.Keys|;
      if |connections| >= maxConnections {
        return None;
      }
      var made := AddConnection(role, claims);
      return Some(made);
    }

    method UpdateClaims(c: Connection, role: string, claims: Claims)
      requires Valid() && Registered(c)
      modifies this`conns, c
      ensures Valid() && conns == old(conns)[c.id := old(conns)[c.id].(role := role, claims := claims)]
    {
      c.UpdateClaims(role, claims);
      conns := conns[c.id := c.Value()];
    }

    /** The writer task of a connection takes its oldest frame. */
    method TakeFrom(c: Connection) returns (f: Option<Frame>)
      requires Valid() && Registered(c)
      modifies this`conns, c
      ensures Valid() && conns == old(conns)[c.id := Drain(old(conns)[c.id])]
      ensures f == if old(c.outbound) == [] then None else Some(old(c.outbound[0]))
    {
      f := c.Take();
      conns := conns[c.id := c.Value()];
    }

    // ---------- sending to a set of connections ----------

    method PutTo(id: ConnId, f: Frame)
      requires Valid() && id in connections
      modifies this`conns, connections[id]
      ensures Valid() && conns == old(conns)[id := Enqueue(old(conns)[id], f)]
    {
      var queued := connections[id].Put(f);
      conns := conns[id := connections[id].Value()];
    }

    /** One frame to every registered connection of `ids`. */
    method Tell(ids: set<ConnId>, f: Frame)
      requires Valid()
      modifies this`conns, Values(connections)
      ensures Valid() && conns == EnqueueAt(old(conns), ids, f)
    {
      var rest := ids;
      ghost var done: set<ConnId> := {};
      EnqueueAtNone(conns, f);
      while rest != {}
        invariant Valid() && done + rest == ids && done !! rest
        invariant conns == EnqueueAt(old(conns), done, f)
        decreases |rest|
      {
        var id :| id in rest;
        EnqueueAtMore(old(conns), done, id, f);
        rest, done := rest - {id}, done + {id};
        if id in connections {
          PutTo(id, f);
        }
      }
      assert done == ids;
    }

    method EmitPresenceDiff(t: Topic, joins: map<Key, seq<Meta>>, leaves: map<Key, seq<Meta>>)
      requires Valid()
      modifies this`conns, Values(connections)
      ensures Valid() && Abs() == Emit(old(Abs()), t, PresenceDiff(t, joins, leaves))
    {
      if t !in topics {
        assert EnqueueAt(conns, {}, PresenceDiff(t, joins, leaves)) == conns;
        return;
      }
      Tell(topics[t], PresenceDiff(t, joins, leaves));
    }

    /** One peer's turn: skipped when it left, or when it is a sender that did not ask for its own. */
    method SendTo(id: ConnId, t: Topic, f: Frame, sender: Option<ConnId>,
                  ghost was: map<ConnId, Conn>, ghost seen: set<ConnId>) returns (sent: bool)
      requires Valid() && id !in seen && conns == EnqueueAt(was, Takers(was, seen, t, sender), f)
      modifies this`conns, Values(connections)
      ensures Valid() && conns == EnqueueAt(was, Takers(was, seen + {id}, t, sender), f)
      ensures |Takers(was, seen + {id}, t, sender)| == |Takers(was, seen, t, sender)| + if sent then 1 else 0
    {
      TakersMore(was, seen, id, f, t, sender);
      if id !in connections {
        return false;
      }
      var c := connections[id];
      assert c.Value() == conns[id];
      if Some(id) == sender && !(t in c.subs && c.subs[t].echo) {
        return false;
      }
      PutTo(id, f);
      return true;
    }

    method SendAll(ids: set<ConnId>, t: Topic, f: Frame, sender: Option<ConnId>) returns (delivered: nat)
      requires Valid()
      modifies this`conns, Values(connections)
      ensures Valid() && conns == EnqueueAt(old(conns), Takers(old(conns), ids, t, sender), f)
      ensures delivered == |Takers(old(conns), ids, t, sender)|
    {
      var peers := ids;
      delivered := 0;
      ghost var seen: set<ConnId> := {};
      TakersNone(conns, f, t, sender);
      while peers != {}
        invariant Valid() && peers <= ids && seen <= ids && forall x | x in ids :: x in seen <==> x !in peers
        invariant conns == EnqueueAt(old(conns), Takers(old(conns), seen, t, sender), f)
        invariant delivered == |Takers(old(conns), seen, t, sender)|
        decreases |peers|
      {
        var id :| id in peers;
        var sent := SendTo(id, t, f, sender, old(conns), seen);
        peers, seen := peers - {id}, seen + {id};
        delivered := delivered + if sent then 1 else 0;
      }
      assert seen == ids;
    }

    /** Returns how many received it: every member of the topic, the sender only when it asked for its own. */
    method Broadcast(t: Topic, event: string, payload: string, sender: Option<ConnId>) returns (delivered: nat)
      requires Valid()
      modifies this`conns, Values(connections)
      ensures Valid() && Abs() == Send(old(Abs()), t, event, payload, sender)
      ensures delivered == |Recipients(old(Abs()), t, sender)|
    {
      var f := Frame.Broadcast(t, event, payload);
      if t !in topics {
        assert Recipients(Abs(), t, sender) == {};
        EnqueueAtNone(conns, f);
        return 0;
      }
      delivered := SendAll(topics[t], t, f, sender);
      assert Recipients(old(Abs()), t, sender) == Takers(old(conns), topics[t], t, sender);
    }

    // ---------- presence ----------

    /** Split one list of entries. */
    method SplitEntries(entries: seq<Entry>, id: ConnId) returns (kept: seq<Entry>, removed: seq<Meta>)
      ensures kept == Kept(entries, id) && removed == Removed(entries, id)
    {
      kept, removed := [], [];
      for i := 0 to |entries|
        invariant kept == Kept(entries[..i], id) && removed == Removed(entries[..i], id)
      {
        assert entries[..i + 1][..i] == entries[..i];
        if entries[i].conn == id {
          removed := removed + [entries[i].meta];
        } else {
          kept := kept + [entries[i]];
        }
      }
      assert entries[..|entries|] == entries;
    }

    /** Strip the entries of `id` on `t`; the metas removed, by key. */
    method DropPresenceFor(id: ConnId, t: Topic) returns (leaves: map<Key, seq<Meta>>)
      modifies this`presence
      ensures presence == Strip(old(presence), id, t)
      ensures leaves == Leaves(if t in old(presence) then old(presence)[t] else map[], id)
    {
      leaves := map[];
      if t !in presence {
        return;
      }
      var bucket;
      bucket, leaves := SplitBucket(presence[t], id);
      presence := if bucket == map[] then presence - {t} else presence[t := bucket];
    }

    method SplitBucket(before: Bucket, id: ConnId) returns (bucket: Bucket, leaves: map<Key, seq<Meta>>)
      ensures bucket == KeptBucket(before, id) && leaves == Leaves(before, id)
    {
      var keys := before.Keys;
      bucket, leaves := before, map[];
      SoFarEnds(before, id);
      while keys != {}
        invariant keys <= before.Keys
        invariant bucket == KeptSoFar(before, keys, id) && leaves == LeavesSoFar(before, keys, id)
        decreases |keys|
      {
        var key :| key in keys;
        SoFarMore(before, keys, id, key);
        keys := keys - {key};
        var kept, removed := SplitEntries(before[key], id);
        if removed != [] {
          leaves := leaves[key := removed];
        }
        if kept != [] {
          bucket := bucket[key := kept];
        } else {
          bucket := bucket - {key};
        }
      }
    }

    method DropAndTell(id: ConnId, t: Topic)
      requires Valid()
      modifies this`presence, this`conns, Values(connections)
      ensures Valid() && Abs() == DropPresence(old(Abs()), id, t)
    {
      var leaves := DropPresenceFor(id, t);
      if leaves != map[] {
        EmitPresenceDiff(t, map[], leaves);
      }
    }

    method TrackPresence(c: Connection, t: Topic, meta: Meta) returns (ok: bool)
      requires Valid() && Registered(c)
      modifies this`presence, this`conns, Values(connections)
      ensures Valid() && Abs() == Track(old(Abs()), c.id, t, meta)
      ensures ok <==> t in old(c.subs)
    {
      if t !in c.subs {
        return false;
      }
      var key := c.subs[t].key;
      var bucket := if t in presence then presence[t] else map[];
      var entries := (if key in bucket then bucket[key] else []) + [Entry(c.id, meta)];
      presence := presence[t := bucket[key := entries]];
      EmitPresenceDiff(t, map[key := [meta]], map[]);
      return true;
    }

    method UntrackPresence(c: Connection, t: Topic)
      requires Valid()
      modifies this`presence, this`conns, Values(connections)
      ensures Valid() && Abs() == DropPresence(old(Abs()), c.id, t)
    {
      DropAndTell(c.id, t);
    }

    method PushPresenceState(c: Connection, t: Topic)
      requires Valid() && Registered(c)
      modifies this`conns, c
      ensures Valid() && Abs() == PushState(old(Abs()), c.id, t)
    {
      var bucket := if t in presence then presence[t] else map[];
      var state := map k | k in bucket :: Metas(bucket[k]);
      assert state == PresenceOf(Abs(), t);
      PutTo(c.id, PresenceState(t, state));
    }

    // ---------- joining and leaving ----------

    /** The broker's side of leaving: the index, the presence, the diff. */
    method LeaveTopic(id: ConnId, t: Topic)
      requires Valid()
      modifies this`topics, this`presence, this`conns, Values(connections)
      ensures Valid() && Abs() == LeaveIndex(old(Abs()), id, t)
    {
      if t in topics {
        var peers := topics[t] - {id};
        topics := if peers == {} then topics - {t} else topics[t := peers];
      }
      DropAndTell(id, t);
    }

    method PopFrom(c: Connection, t: Topic)
      requires Valid() && Registered(c)
      modifies this`conns, c
      ensures Valid() && conns == old(conns)[c.id := Forget(old(conns)[c.id], t)]
    {
      c.PopSubscription(t);
      conns := conns[c.id := c.Value()];
    }

    method AddInto(c: Connection, sub: Subscription)
      requires Valid() && Registered(c)
      modifies this`conns, c
      ensures Valid() && conns == old(conns)[c.id := Remember(old(conns)[c.id], sub)]
    {
      c.AddSubscription(sub);
      conns := conns[c.id := c.Value()];
    }

    method Unsubscribe(c: Connection, t: Topic)
      requires Valid() && Registered(c)
      modifies this`topics, this`presence, this`conns, Values(connections)
      ensures Valid() && Abs() == BrokerModel.Unsubscribe(old(Abs()), c.id, t)
    {
      PopFrom(c, t);
      LeaveTopic(c.id, t);
    }

    method LeaveClosed(c: Connection, t: Topic)
      requires Valid() && c.id !in connections
      modifies this`topics, this`presence, this`conns, Values(connections), c
      ensures Valid() && c.closed == old(c.closed) && Abs() == LeaveIndex(old(Abs()), c.id, t)
    {
      c.PopSubscription(t);
      LeaveTopic(c.id, t);
    }

    method Unregister(c: Connection)
      requires Valid() && Registered(c)
      modifies this`connections, this`topics, this`presence, this`conns, Values(connections)
      ensures Valid() && c.closed && Abs() == BrokerModel.Unregister(old(Abs()), c.id)
      ensures connections == old(connections) - {c.id}
    {
      c.closed := true;
      connections := connections - {c.id};
      conns := conns - {c.id};
      ghost var gone := Abs();
      assert gone == Gone(old(Abs()), c.id);
      var leaving := c.order;
      for i := 0 to |leaving|
        invariant Valid() && c.closed && connections == old(connections) - {c.id}
        invariant Abs() == LeaveAll(gone, c.id, leaving[..i])
      {
        LeaveAllMore(gone, c.id, leaving, i);
        LeaveClosed(c, leaving[i]);
      }
      assert leaving[..|leaving|] == leaving;
    }

    method Subscribe(c: Connection, t: Topic, filters: seq<Resolved>, echo: bool, key: Key)
      requires Valid() && Registered(c)
      modifies this`topics, this`presence, this`conns, Values(connections)
      ensures Valid() && Abs() == BrokerModel.Subscribe(old(Abs()), c.id, t, filters, echo, key)
    {
      if t in c.subs {
        Unsubscribe(c, t);
      }
      assert Abs() == Left(old(Abs()), c.id, t);
      AddTo(c, Subscription(t, filters, echo, if key == "" then Decimal(c.id) else key));
    }

    method AddTo(c: Connection, sub: Subscription)
      requires Valid() && Registered(c)
      modifies this`topics, this`conns, c
      ensures Valid() && Abs() == Arrived(old(Abs()), c.id, sub)
    {
      AddInto(c, sub);
      topics := topics[sub.topic := (if sub.topic in topics then topics[sub.topic] else {}) + {c.id}];
    }

    /** Ids and parsed filters in order; a filter that does not parse ends the join, the ids already drawn are gone. */
    method AssignIds(specs: seq<FilterSpec>) returns (r: Option<seq<Resolved>>)
      modifies this`nextSub
      ensures Assigned(r, nextSub) == Assign(specs, old(nextSub))
    {
      var result: seq<Resolved> := [];
      for i := 0 to |specs|
        invariant Assign(specs[..i], old(nextSub)) == Assigned(Some(result), nextSub)
      {
        assert specs[..i + 1][..i] == specs[..i];
        var parsed: Option<Topics.Filter> := None;
        if specs[i].filter.Some? {
          parsed := Topics.Parse(specs[i].filter.value);
          if parsed.None? {
            AssignStops(specs, i + 1, old(nextSub));
            return None;
          }
        }
        result := result + [Resolved(nextSub, specs[i], parsed)];
        nextSub := nextSub + 1;
      }
      assert specs[..|specs|] == specs;
      return Some(result);
    }

    /** The join handler: the cap, the ids, the subscription. The state frame follows as a step of its own. */
    method HandleJoin(c: Connection, t: Topic, specs: seq<FilterSpec>, echo: bool, key: Key) returns (joined: bool)
      requires Valid() && Registered(c)
      modifies this`topics, this`presence, this`nextSub, this`conns, Values(connections)
      ensures joined <==>
        FilterCount(old(c.subs), old(c.order)) + |specs| <= maxSubs && Assign(specs, old(nextSub)).filters.Some?
      ensures Valid() && Abs() == Join(old(Abs()), c.id, t, specs, echo, key, maxSubs)
    {
      var total := 0;
      for i := 0 to |c.order|
        invariant total == FilterCount(c.subs, c.order[..i])
      {
        assert c.order[..i + 1][..i] == c.order[..i];
        total := total + if c.order[i] in c.subs then |c.subs[c.order[i]].filters| else 0;
      }
      assert c.order[..|c.order|] == c.order;
      assert conns[c.id] == c.Value();
      if total + |specs| > maxSubs {
        return false;
      }
      var filters := AssignIds(specs);
      if filters.None? {
        return false;
      }
      Subscribe(c, t, filters.value, echo, key);
      return true;
    }

    // ---------- row changes ----------

    static method MatchSubscriptionIds(sub: Subscription, ch: Change) returns (matched: seq<SubId>)
      ensures matched == MatchedIds(sub.filters, ch)
    {
      matched := [];
      for i := 0 to |sub.filters|
        invariant matched == MatchedIds(sub.filters[..i], ch)
      {
        assert sub.filters[..i + 1][..i] == sub.filters[..i];
        var r := sub.filters[i];
        if r.spec.schema != ch.schema {
          continue;
        }
        if r.spec.table != ch.table {
          continue;
        }
        if r.spec.event.Some? && r.spec.event.value != ch.kind {
          continue;
        }
        if r.parsed.Some? {
          var row := if ch.kind.Insert? || ch.kind.Update? then ch.record else ch.oldRecord;
          if row.None? || !Topics.Selects(r.parsed.value, row.value) {
            continue;
          }
        }
        matched := matched + [r.id];
      }
      assert sub.filters[..|sub.filters|] == sub.filters;
    }

    /** Under the lock: every matching channel of every open connection. */
    method CandidatesFor(ch: Change) returns (cands: seq<Candidate>)
      requires Valid()
      ensures cands == Snapshot(Abs(), ch)
    {
      cands := [];
      for id := 0 to nextConn
        invariant cands == SnapshotBelow(Abs(), ch, id)
      {
        if id in connections {
          assert connections[id].Value() == conns[id];
          var own := ChannelsFor(connections[id], ch);
          cands := cands + own;
        }
      }
    }

    method ChannelsFor(c: Connection, ch: Change) returns (own: seq<Candidate>)
      ensures own == CandidatesOf(c.id, c.subs, c.order, ch)
    {
      own := [];
      for i := 0 to |c.order|
        invariant own == CandidatesOf(c.id, c.subs, c.order[..i], ch)
      {
        assert c.order[..i + 1][..i] == c.order[..i];
        if c.order[i] in c.subs {
          var matched := MatchSubscriptionIds(c.subs[c.order[i]], ch);
          if matched != [] {
            own := own + [Candidate(c.id, c.order[i], matched)];
          }
        }
      }
      assert c.order[..|c.order|] == c.order;
    }

    method Authorize(c: Connection, ch: Change, table: Table, now: int, o: Oracle) returns (allowed: bool)
      ensures allowed == Authorized(c.role, c.claims, ch, table, now, o)
      ensures allowed <==> BrokerAccess.Visible(c.role, c.claims, ch, table, now, o)
    {
      BrokerAccess.AuthorizedIffVisible(c.role, c.claims, ch, table, now, o);
      if c.role == "service_role" {
        return true;
      }
      if c.claims.exp.Some? && now >= c.claims.exp.value {
        return false;
      }
      if ch.kind == Delete {
        if table.owner.None? || ch.oldRecord.None? || table.owner.value !in ch.oldRecord.value {
          return false;
        }
        var owner := ch.oldRecord.value[table.owner.value];
        if owner.None? || c.claims.sub.None? {
          return false;
        }
        var left, right := o.uuid(owner.value), o.uuid(c.claims.sub.value);
        if left.Some? && right.Some? {
          return left == right;
        }
        return owner.value == c.claims.sub.value;
      }
      var row: Topics.Record := if ch.record.Some? then ch.record.value else map[];
      for i := 0 to |table.pk|
        invariant forall j | 0 <= j < i :: table.pk[j] in row
      {
        if table.pk[i] !in row {
          return false;
        }
      }
      return o.probe(c.role, c.claims, PkValues(row, table.pk));
    }

    /** The first channel of the connection that matches. */
    static method LabelFor(c: Connection, ch: Change) returns (t: Topic)
      ensures t == TopicFor(c.subs, c.order, ch)
    {
      for i := 0 to |c.order|
        invariant CandidatesOf(0, c.subs, c.order[..i], ch) == []
      {
        assert c.order[..i + 1][..i] == c.order[..i];
        if c.order[i] in c.subs {
          var matched := MatchSubscriptionIds(c.subs[c.order[i]], ch);
          if matched != [] {
            FirstCandidate(c.subs, c.order, ch, i + 1);
            return c.order[i];
          }
        }
      }
      assert c.order[..|c.order|] == c.order;
      t := if c.order != [] then c.order[0] else "realtime:unknown";
    }

    /** The push of a candidate that was authorised, on what the connection has become meanwhile. */
    method PushTo(cand: Candidate, ch: Change) returns (queued: bool)
      requires Valid()
      modifies this`conns, Values(connections)
      ensures Valid() && Abs() == Push(old(Abs()), cand, ch) && queued == (cand.conn in connections)
    {
      if cand.conn !in connections {
        return false;
      }
      var c := connections[cand.conn];
      assert conns[cand.conn] == c.Value();
      var name := LabelFor(c, ch);
      PutTo(cand.conn, Changes(name, cand.ids, ch));
      return true;
    }

    /** One candidate's turn, with nothing during the authorisation. */
    method DeliverTo(cand: Candidate, ch: Change, table: Table, now: int, o: Oracle)
      requires Valid()
      modifies this`conns, Values(connections)
      ensures Valid() && Abs() == Deliver(old(Abs()), cand, ch, table, now, o)
    {
      if cand.conn !in connections {
        return;
      }
      assert conns[cand.conn] == connections[cand.conn].Value();
      var allowed := Authorize(connections[cand.conn], ch, table, now, o);
      if allowed {
        var queued := PushTo(cand, ch);
      }
    }

    method ServeCandidates(cands: seq<Candidate>, ch: Change, table: Table, now: int, o: Oracle)
      requires Valid()
      modifies this`conns, Values(connections)
      ensures Valid() && Abs() == ServeAll(old(Abs()), cands, ch, table, now, o)
    {
      for i := 0 to |cands|
        invariant Valid() && Abs() == ServeAll(old(Abs()), cands[..i], ch, table, now, o)
      {
        ServeAllMore(old(Abs()), cands, i, ch, table, now, o);
        DeliverTo(cands[i], ch, table, now, o);
      }
      assert cands[..|cands|] == cands;
    }

    /** A whole fan-out, when nothing runs in between. */
    method FanoutChange(ch: Change, table: Table, now: int, o: Oracle)
      requires Valid()
      modifies this`conns, Values(connections)
      ensures Valid() && Abs() == FanOut(old(Abs()), ch, table, now, o)
    {
      var cands := CandidatesFor(ch);
      ServeCandidates(cands, ch, table, now, o);
    }
  }

  /** The bucket while `keys` are still to be visited. */
  function KeptSoFar(b: Bucket, keys: set<Key>, id: ConnId): Bucket {
    map k | k in b && (k in keys || Kept(b[k], id) != []) :: if k in keys then b[k] else Kept(b[k], id)
  }

  function LeavesSoFar(b: Bucket, keys: set<Key>, id: ConnId): map<Key, seq<Meta>> {
    map k | k in b && k !in keys && Removed(b[k], id) != [] :: Removed(b[k], id)
  }

  lemma SoFarEnds(b: Bucket, id: ConnId)
    ensures KeptSoFar(b, b.Keys, id) == b && LeavesSoFar(b, b.Keys, id) == map[]
    ensures KeptSoFar(b, {}, id) == KeptBucket(b, id) && LeavesSoFar(b, {}, id) == Leaves(b, id)
  {
  }

  lemma SoFarMore(b: Bucket, keys: set<Key>, id: ConnId, key: Key)
    requires key in keys && keys <= b.Keys
    ensures KeptSoFar(b, keys - {key}, id) ==
            if Kept(b[key], id) != [] then KeptSoFar(b, keys, id)[key := Kept(b[key], id)]
            else KeptSoFar(b, keys, id) - {key}
    ensures LeavesSoFar(b, keys - {key}, id) ==
            if Removed(b[key], id) != [] then LeavesSoFar(b, keys, id)[key := Removed(b[key], id)]
            else LeavesSoFar(b, keys, id)
  {
  }

  lemma EnqueueAtNone(conns: map<ConnId, Conn>, f: Frame)
    ensures EnqueueAt(conns, {}, f) == conns
  {
  }

  /** Registered, and not a sender that did not ask for its own broadcasts. */
  predicate Gets(conns: map<ConnId, Conn>, t: Topic, sender: Option<ConnId>, id: ConnId) {
    id in conns && (Some(id) == sender ==> t in conns[id].subs && conns[id].subs[t].echo)
  }

  function Takers(conns: map<ConnId, Conn>, ids: set<ConnId>, t: Topic, sender: Option<ConnId>): set<ConnId> {
    set id | id in ids && Gets(conns, t, sender, id)
  }

  lemma TakersNone(conns: map<ConnId, Conn>, f: Frame, t: Topic, sender: Option<ConnId>)
    ensures EnqueueAt(conns, Takers(conns, {}, t, sender), f) == conns && |Takers(conns, {}, t, sender)| == 0
  {
    assert Takers(conns, {}, t, sender) == {};
    EnqueueAtNone(conns, f);
  }

  /** One more peer looked at. */
  lemma TakersMore(conns: map<ConnId, Conn>, seen: set<ConnId>, id: ConnId, f: Frame, t: Topic, sender: Option<ConnId>)
    requires id !in seen
    ensures var now := EnqueueAt(conns, Takers(conns, seen, t, sender), f);
      var next := EnqueueAt(conns, Takers(conns, seen + {id}, t, sender), f);
      var grown := |Takers(conns, seen + {id}, t, sender)| - |Takers(conns, seen, t, sender)|;
      if Gets(now, t, sender, id) then id in now && next == now[id := Enqueue(now[id], f)] && grown == 1
      else next == now && grown == 0
  {
    var before, after := Takers(conns, seen, t, sender), Takers(conns, seen + {id}, t, sender);
    assert after == if Gets(conns, t, sender, id) then before + {id} else before;
    EnqueueAtMore(conns, before, id, f);
  }

  lemma EnqueueAtMore(conns: map<ConnId, Conn>, done: set<ConnId>, id: ConnId, f: Frame)
    requires id !in done
    ensures EnqueueAt(conns, done + {id}, f) ==
            if id in conns then EnqueueAt(conns, done, f)[id := Enqueue(EnqueueAt(conns, done, f)[id], f)]
            else EnqueueAt(conns, done, f)
  {
  }

  lemma LeaveAllMore(s: State, id: ConnId, order: seq<Topic>, i: nat)
    requires i < |order|
    ensures LeaveAll(s, id, order[..i + 1]) == LeaveIndex(LeaveAll(s, id, order[..i]), id, order[i])
  {
    assert order[..i + 1][..i] == order[..i];
  }

  lemma ServeAllMore(s: State, cands: seq<Candidate>, i: nat, ch: Change, table: Table, now: int, o: Oracle)
    requires i < |cands|
    ensures ServeAll(s, cands[..i + 1], ch, table, now, o) ==
            Deliver(ServeAll(s, cands[..i], ch, table, now, o), cands[i], ch, table, now, o)
  {
    assert cands[..i + 1][..i] == cands[..i];
  }

  /** A filter that does not parse decides the whole list. */
  lemma {:induction false} AssignStops(specs: seq<FilterSpec>, n: nat, next: SubId)
    requires n <= |specs| && Assign(specs[..n], next).filters.None?
    ensures Assign(specs, next) == Assign(specs[..n], next)
  {
    if n == |specs| {
      assert specs[..n] == specs;
    } else {
      assert specs[..|specs| - 1][..n] == specs[..n];
      AssignStops(specs[..|specs| - 1], n, next);
    }
  }

  /** Later channels do not change the first candidate. */
  lemma {:induction false} FirstCandidate(subs: map<Topic, Subscription>, order: seq<Topic>, ch: Change, n: nat)
    requires n <= |order| && CandidatesOf(0, subs, order[..n], ch) != []
    ensures CandidatesOf(0, subs, order, ch) != []
    ensures CandidatesOf(0, subs, order, ch)[0] == CandidatesOf(0, subs, order[..n], ch)[0]
  {
    if n == |order| {
      assert order[..n] == order;
    } else {
      assert order[..|order| - 1][..n] == order[..n];
      FirstCandidate(subs, order[..|order| - 1], ch, n);
    }
  }
}
