/**
 The fan-out of one row change: the candidates are listed in one step, then authorised and served one at a time, with
 other steps of the broker in between.
 */
module BrokerFanout {
  import opened Common
  import opened BrokerModel
  import opened BrokerIndex
  import opened BrokerLimits
  import Topics

  // ---------- which filters match ----------

  /** The new row of an insert or update, the old row of a delete. */
  function RowOf(ch: Change): Option<Topics.Record> {
    if ch.kind == Delete then ch.oldRecord else ch.record
  }

  predicate Matches(r: Resolved, ch: Change) {
    && r.spec.schema == ch.schema
    && r.spec.table == ch.table
    && (r.spec.event.None? || r.spec.event.value == ch.kind)
    && (r.parsed.Some? ==> RowOf(ch).Some? && Topics.Selects(r.parsed.value, RowOf(ch).value))
  }

  function MatchedIds(filters: seq<Resolved>, ch: Change): seq<SubId> {
    if filters == [] then []
    else
      var last := filters[|filters| - 1];
      MatchedIds(filters[..|filters| - 1], ch) + if Matches(last, ch) then [last.id] else []
  }

  ghost predicate DistinctIds(filters: seq<Resolved>) {
    forall i, j | 0 <= i < j < |filters| :: filters[i].id != filters[j].id
  }

  predicate WantedAt(r: Resolved, ch: Change, n: SubId) { r.id == n && Matches(r, ch) }

  /** Some filter of the list matches and has this id. */
  ghost predicate WantedIn(filters: seq<Resolved>, ch: Change, n: SubId) {
    exists i :: 0 <= i < |filters| && WantedAt(filters[i], ch, n)
  }

  lemma WantedInMore(filters: seq<Resolved>, r: Resolved, ch: Change, n: SubId)
    ensures WantedIn(filters + [r], ch, n) <==> WantedIn(filters, ch, n) || WantedAt(r, ch, n)
  {
    var more := filters + [r];
    assert forall i | 0 <= i < |filters| :: more[i] == filters[i];
    assert more[|filters|] == r;
  }

  /** Each matching filter's id once, no other id. */
  lemma {:induction false} MatchedExactly(filters: seq<Resolved>, ch: Change, n: SubId)
    requires DistinctIds(filters)
    ensures multiset(MatchedIds(filters, ch))[n] == if WantedIn(filters, ch, n) then 1 else 0
  {
    if filters != [] {
      var last := |filters| - 1;
      var front, r := filters[..last], filters[last];
      assert filters == front + [r];
      MatchedExactly(front, ch, n);
      WantedInMore(front, r, ch, n);
      assert forall i | 0 <= i < last :: front[i] == filters[i];
      assert WantedAt(r, ch, n) ==> !WantedIn(front, ch, n);
    }
  }

  // ---------- who may see a row ----------

  datatype Table = Table(pk: seq<string>, owner: Option<string>)

  // What the database and the UUID parser answer. A probe that raises, or a role that is not allowed, denies.
  datatype Oracle = Oracle(probe: (string, Claims, seq<Option<string>>) -> bool, uuid: string -> Option<string>)

  predicate Expired(claims: Claims, now: int) { claims.exp.Some? && now >= claims.exp.value }

  predicate SameOwner(o: Oracle, owner: string, uid: string) {
    if o.uuid(owner).Some? && o.uuid(uid).Some? then o.uuid(owner) == o.uuid(uid) else owner == uid
  }

  function PkValues(row: Topics.Record, pk: seq<string>): seq<Option<string>>
    requires forall i | 0 <= i < |pk| :: pk[i] in row
  {
    seq(|pk|, i requires 0 <= i < |pk| => row[pk[i]])
  }

  predicate Authorized(role: string, claims: Claims, ch: Change, table: Table, now: int, o: Oracle) {
    if role == "service_role" then true
    else if Expired(claims, now) then false
    else if ch.kind == Delete then
      && table.owner.Some? && ch.oldRecord.Some? && table.owner.value in ch.oldRecord.value
      && ch.oldRecord.value[table.owner.value].Some?
      && claims.sub.Some? && SameOwner(o, ch.oldRecord.value[table.owner.value].value, claims.sub.value)
    else
      var row := if ch.record.Some? then ch.record.value else map[];
      (forall i | 0 <= i < |table.pk| :: table.pk[i] in row) && o.probe(role, claims, PkValues(row, table.pk))
  }

  // ---------- candidates ----------

  datatype Candidate = Candidate(conn: ConnId, topic: Topic, ids: seq<SubId>)

  /** One candidate per matching channel of a connection, in the order of its joins. */
  function CandidatesOf(id: ConnId, subs: map<Topic, Subscription>, order: seq<Topic>, ch: Change): seq<Candidate> {
    if order == [] then []
    else
      var front := CandidatesOf(id, subs, order[..|order| - 1], ch);
      var t := order[|order| - 1];
      if t in subs && MatchedIds(subs[t].filters, ch) != []
      then front + [Candidate(id, t, MatchedIds(subs[t].filters, ch))]
      else front
  }

  function CandidatesAt(s: State, ch: Change, id: ConnId): seq<Candidate> {
    if id in s.conns then CandidatesOf(id, s.conns[id].subs, s.conns[id].order, ch) else []
  }

  /** The candidates of the connections below `n`; connections are visited in the order of their ids. */
  function SnapshotBelow(s: State, ch: Change, n: ConnId): seq<Candidate> {
    if n == 0 then [] else SnapshotBelow(s, ch, n - 1) + CandidatesAt(s, ch, n - 1)
  }

  function Snapshot(s: State, ch: Change): seq<Candidate> { SnapshotBelow(s, ch, s.nextConn) }

  /** The first channel of the connection that matches; without one, its first channel or a fixed name. */
  function TopicFor(subs: map<Topic, Subscription>, order: seq<Topic>, ch: Change): Topic {
    if CandidatesOf(0, subs, order, ch) != [] then CandidatesOf(0, subs, order, ch)[0].topic
    else if order != [] then order[0]
    else "realtime:unknown"
  }

  // ---------- serving a candidate ----------

  predicate Served(s: State, cand: Candidate, ch: Change, table: Table, now: int, o: Oracle) {
    cand.conn in s.conns && Authorized(s.conns[cand.conn].role, s.conns[cand.conn].claims, ch, table, now, o)
  }

  function FrameFor(c: Conn, cand: Candidate, ch: Change): Frame {
    Changes(TopicFor(c.subs, c.order, ch), cand.ids, ch)
  }

  /** Label and enqueue, from what the connection is now; a closed connection gets nothing. */
  function Push(s: State, cand: Candidate, ch: Change): State {
    if cand.conn in s.conns
    then SetConn(s, cand.conn, Enqueue(s.conns[cand.conn], FrameFor(s.conns[cand.conn], cand, ch)))
    else s
  }

  /** A candidate's whole turn, with nothing during the authorisation. */
  function Deliver(s: State, cand: Candidate, ch: Change, table: Table, now: int, o: Oracle): State {
    if Served(s, cand, ch, table, now, o) then Push(s, cand, ch) else s
  }

  /** All candidates in order with nothing in between. */
  function ServeAll(s: State, cands: seq<Candidate>, ch: Change, table: Table, now: int, o: Oracle): State {
    if cands == [] then s
    else Deliver(ServeAll(s, cands[..|cands| - 1], ch, table, now, o), cands[|cands| - 1], ch, table, now, o)
  }

  function FanOut(s: State, ch: Change, table: Table, now: int, o: Oracle): State {
    ServeAll(s, Snapshot(s, ch), ch, table, now, o)
  }

  // ---------- what a fan-out sends ----------

  /** The frames of the candidates of `id`. */
  function FramesTo(id: ConnId, c: Conn, cands: seq<Candidate>, ch: Change): seq<Frame> {
    if cands == [] then []
    else
      var last := cands[|cands| - 1];
      FramesTo(id, c, cands[..|cands| - 1], ch) + if last.conn == id then [FrameFor(c, last, ch)] else []
  }

  /** All the ids in a list of frames, with repetitions. */
  function IdsIn(frames: seq<Frame>): multiset<SubId> {
    if frames == [] then multiset{}
    else
      IdsIn(frames[..|frames| - 1]) +
      if frames[|frames| - 1].Changes? then multiset(frames[|frames| - 1].ids) else multiset{}
  }

  /** A connection's log grows by the frames of its own candidates, when it is authorised. */
  lemma {:induction false} ServeAllLog(s: State, cands: seq<Candidate>, ch: Change, table: Table, now: int, o: Oracle,
                                       id: ConnId)
    requires id in s.conns
    ensures var r := ServeAll(s, cands, ch, table, now, o);
      && r.conns.Keys == s.conns.Keys
      && r.conns[id].subs == s.conns[id].subs && r.conns[id].order == s.conns[id].order
      && r.conns[id].role == s.conns[id].role && r.conns[id].claims == s.conns[id].claims
      && r.conns[id].log == s.conns[id].log +
           if Authorized(s.conns[id].role, s.conns[id].claims, ch, table, now, o)
           then FramesTo(id, s.conns[id], cands, ch) else []
  {
    if cands != [] {
      ServeAllLog(s, cands[..|cands| - 1], ch, table, now, o, id);
    }
  }

  lemma {:induction false} OwnCandidates(id: ConnId, subs: map<Topic, Subscription>, order: seq<Topic>, ch: Change,
                                         i: nat)
    requires i < |CandidatesOf(id, subs, order, ch)|
    ensures var cand := CandidatesOf(id, subs, order, ch)[i];
      && cand.conn == id && cand.topic in order && cand.topic in subs
      && cand.ids == MatchedIds(subs[cand.topic].filters, ch)
  {
    var last := |order| - 1;
    if i < |CandidatesOf(id, subs, order[..last], ch)| {
      OwnCandidates(id, subs, order[..last], ch, i);
    }
  }

  lemma FramesSplit(id: ConnId, c: Conn, a: seq<Candidate>, b: seq<Candidate>, ch: Change)
    ensures FramesTo(id, c, a + b, ch) == FramesTo(id, c, a, ch) + FramesTo(id, c, b, ch)
    decreases |b|
  {
    if b == [] {
      assert a + b == a;
    } else {
      var last := |b| - 1;
      assert a + b == (a + b[..last]) + [b[last]];
      FramesSplit(id, c, a, b[..last], ch);
      assert (a + b)[..|a + b| - 1] == a + b[..last];
    }
  }

  lemma {:induction false} NoFrames(id: ConnId, c: Conn, cands: seq<Candidate>, ch: Change)
    requires forall i | 0 <= i < |cands| :: cands[i].conn != id
    ensures FramesTo(id, c, cands, ch) == []
  {
    if cands != [] {
      NoFrames(id, c, cands[..|cands| - 1], ch);
    }
  }

  lemma OthersFrames(s: State, ch: Change, other: ConnId, id: ConnId, c: Conn)
    requires other != id
    ensures FramesTo(id, c, CandidatesAt(s, ch, other), ch) == []
  {
    var own := CandidatesAt(s, ch, other);
    forall i | 0 <= i < |own| ensures own[i].conn != id {
      OwnCandidates(other, s.conns[other].subs, s.conns[other].order, ch, i);
    }
    NoFrames(id, c, own, ch);
  }

  lemma SnapshotFramesMore(s: State, ch: Change, n: nat, id: ConnId, c: Conn)
    ensures FramesTo(id, c, SnapshotBelow(s, ch, n + 1), ch) ==
            FramesTo(id, c, SnapshotBelow(s, ch, n), ch) + FramesTo(id, c, CandidatesAt(s, ch, n), ch)
  {
    FramesSplit(id, c, SnapshotBelow(s, ch, n), CandidatesAt(s, ch, n), ch);
  }

  lemma {:induction false} NoFramesBelow(s: State, ch: Change, n: nat, id: ConnId, c: Conn)
    requires n <= id
    ensures FramesTo(id, c, SnapshotBelow(s, ch, n), ch) == []
  {
    if n > 0 {
      NoFramesBelow(s, ch, n - 1, id, c);
      SnapshotFramesMore(s, ch, n - 1, id, c);
      OthersFrames(s, ch, n - 1, id, c);
    }
  }

  function FramesBelow(s: State, ch: Change, n: nat, id: ConnId, c: Conn): seq<Frame> {
    FramesTo(id, c, SnapshotBelow(s, ch, n), ch)
  }

  function OwnFrames(s: State, ch: Change, id: ConnId, c: Conn): seq<Frame> {
    FramesTo(id, c, CandidatesAt(s, ch, id), ch)
  }

  lemma FramesFirst(s: State, ch: Change, id: ConnId, c: Conn)
    ensures FramesBelow(s, ch, id + 1, id, c) == OwnFrames(s, ch, id, c)
  {
    SnapshotFramesMore(s, ch, id, id, c);
    NoFramesBelow(s, ch, id, id, c);
  }

  lemma FramesLater(s: State, ch: Change, n: nat, id: ConnId, c: Conn)
    requires id < n
    ensures FramesBelow(s, ch, n + 1, id, c) == FramesBelow(s, ch, n, id, c)
  {
    SnapshotFramesMore(s, ch, n, id, c);
    OthersFrames(s, ch, n, id, c);
  }

  lemma {:induction false} StaysFrom<T>(f: nat -> T, from: nat, n: nat)
    requires from <= n && forall k: nat | from <= k < n :: f(k + 1) == f(k)
    ensures f(n) == f(from)
  {
    if from < n {
      StaysFrom(f, from, n - 1);
      assert f(n - 1 + 1) == f(n - 1);
    }
  }

  /** Of the whole snapshot, a connection is sent exactly what its own channels produce. */
  lemma SnapshotFrames(s: State, ch: Change, n: nat, id: ConnId, c: Conn)
    requires id < n
    ensures FramesBelow(s, ch, n, id, c) == OwnFrames(s, ch, id, c)
  {
    var f := (k: nat) => FramesBelow(s, ch, k, id, c);
    forall k: nat | id + 1 <= k < n ensures f(k + 1) == f(k) { FramesLater(s, ch, k, id, c); }
    StaysFrom(f, id + 1, n);
    FramesFirst(s, ch, id, c);
  }

  /** Some filter of `subs` on a topic of `order` matches and has this id. */
  ghost predicate Wanted(subs: map<Topic, Subscription>, order: seq<Topic>, ch: Change, n: SubId) {
    exists t :: t in order && t in subs && WantedIn(subs[t].filters, ch, n)
  }

  ghost predicate DistinctOnConn(subs: map<Topic, Subscription>) {
    forall t, u, i, j | t in subs && u in subs && 0 <= i < |subs[t].filters| && 0 <= j < |subs[u].filters| ::
      subs[t].filters[i].id == subs[u].filters[j].id ==> t == u && i == j
  }

  lemma IdsInMore(frames: seq<Frame>, f: Frame)
    requires f.Changes?
    ensures IdsIn(frames + [f]) == IdsIn(frames) + multiset(f.ids)
  {
    assert (frames + [f])[..|frames|] == frames;
  }

  /** No id is wanted twice. */
  lemma WantedOnce(subs: map<Topic, Subscription>, front: seq<Topic>, t: Topic, ch: Change, n: SubId)
    requires DistinctOnConn(subs) && t !in front && t in subs && WantedIn(subs[t].filters, ch, n)
    ensures !Wanted(subs, front, ch, n)
  {
    var j :| 0 <= j < |subs[t].filters| && WantedAt(subs[t].filters[j], ch, n);
  }

  lemma WantedMore(subs: map<Topic, Subscription>, front: seq<Topic>, t: Topic, ch: Change, n: SubId)
    ensures Wanted(subs, front + [t], ch, n) <==>
            Wanted(subs, front, ch, n) || (t in subs && WantedIn(subs[t].filters, ch, n))
  {
    var order := front + [t];
    assert forall u :: u in order <==> u in front || u == t;
  }

  lemma FramesMore(id: ConnId, c: Conn, cands: seq<Candidate>, cand: Candidate, ch: Change)
    requires cand.conn == id
    ensures IdsIn(FramesTo(id, c, cands + [cand], ch)) == IdsIn(FramesTo(id, c, cands, ch)) + multiset(cand.ids)
  {
    assert (cands + [cand])[..|cands|] == cands;
    IdsInMore(FramesTo(id, c, cands, ch), FrameFor(c, cand, ch));
  }

  lemma {:induction false} IdsOfChannels(id: ConnId, c: Conn, subs: map<Topic, Subscription>, order: seq<Topic>,
                                         ch: Change, n: SubId)
    requires DistinctOnConn(subs) && NoRepeats(order)
    ensures IdsIn(FramesTo(id, c, CandidatesOf(id, subs, order, ch), ch))[n] ==
            if Wanted(subs, order, ch, n) then 1 else 0
  {
    if order != [] {
      var last := |order| - 1;
      var t, front := order[last], order[..last];
      assert order == front + [t] && t !in front;
      IdsOfChannels(id, c, subs, front, ch, n);
      WantedMore(subs, front, t, ch, n);
      if t in subs {
        OneChannel(id, c, subs, front, t, ch, n);
      }
    }
  }

  lemma OneChannel(id: ConnId, c: Conn, subs: map<Topic, Subscription>, front: seq<Topic>, t: Topic, ch: Change,
                   n: SubId)
    requires DistinctOnConn(subs) && t in subs && t !in front
    ensures IdsIn(FramesTo(id, c, CandidatesOf(id, subs, front + [t], ch), ch))[n] ==
            IdsIn(FramesTo(id, c, CandidatesOf(id, subs, front, ch), ch))[n] +
            if WantedIn(subs[t].filters, ch, n) then 1 else 0
    ensures WantedIn(subs[t].filters, ch, n) ==> !Wanted(subs, front, ch, n)
  {
    var ids := MatchedIds(subs[t].filters, ch);
    assert (front + [t])[..|front|] == front;
    assert DistinctIds(subs[t].filters);
    MatchedExactly(subs[t].filters, ch, n);
    if WantedIn(subs[t].filters, ch, n) {
      WantedOnce(subs, front, t, ch, n);
    }
    if ids != [] {
      FramesMore(id, c, CandidatesOf(id, subs, front, ch), Candidate(id, t, ids), ch);
    }
  }

  /**
   Exactness. In any reachable state, one fan-out enqueues to each connection frames whose ids are, each exactly once,
   those of its matching filters when it is authorised, and nothing at all when it is not.
   */
  lemma FanOutIsExact(maxSubs: nat, ops: seq<Op>, ch: Change, table: Table, now: int, o: Oracle, id: ConnId, n: SubId)
    requires id in Run(EMPTY, maxSubs, ops).conns
    ensures var s := Run(EMPTY, maxSubs, ops);
      var r := FanOut(s, ch, table, now, o);
      var c := s.conns[id];
      && id in r.conns && |c.log| <= |r.conns[id].log| && r.conns[id].log[..|c.log|] == c.log
      && IdsIn(r.conns[id].log[|c.log|..])[n] ==
           if Authorized(c.role, c.claims, ch, table, now, o) && Wanted(c.subs, c.order, ch, n) then 1 else 0
  {
    var s := Run(EMPTY, maxSubs, ops);
    var c := s.conns[id];
    EveryRunIsCoherent(maxSubs, ops);
    assert ConnOrdered(c);
    EveryIdIsUnique(maxSubs, ops);
    IdsDistinct(s, id);
    ServeAllLog(s, Snapshot(s, ch), ch, table, now, o, id);
    SnapshotFrames(s, ch, s.nextConn, id, c);
    IdsOfChannels(id, c, c.subs, c.order, ch, n);
    var frames := if Authorized(c.role, c.claims, ch, table, now, o) then FramesTo(id, c, Snapshot(s, ch), ch) else [];
    assert (c.log + frames)[|c.log|..] == frames && (c.log + frames)[..|c.log|] == c.log;
  }

  lemma IdsDistinct(s: State, id: ConnId)
    requires IdsUnique(s) && id in s.conns
    ensures DistinctOnConn(s.conns[id].subs)
  {
    var m, subs := SubsOf(s.conns), s.conns[id].subs;
    forall t, u, i, j | t in subs && u in subs && 0 <= i < |subs[t].filters| && 0 <= j < |subs[u].filters| &&
                        subs[t].filters[i].id == subs[u].filters[j].id
      ensures t == u && i == j
    {
      assert Holds(m, id, t, i, subs[t].filters[i].id) && Holds(m, id, u, j, subs[t].filters[i].id);
    }
  }

  // ---------- labels ----------

  lemma {:induction false} SameCandidates(a: ConnId, b: ConnId, subs: map<Topic, Subscription>, order: seq<Topic>,
                                          ch: Change)
    ensures var p, q := CandidatesOf(a, subs, order, ch), CandidatesOf(b, subs, order, ch);
      |p| == |q| && forall i | 0 <= i < |p| :: p[i].topic == q[i].topic && p[i].ids == q[i].ids
  {
    if order != [] {
      SameCandidates(a, b, subs, order[..|order| - 1], ch);
    }
  }

  lemma {:induction false} CandidatesDiffer(id: ConnId, subs: map<Topic, Subscription>, order: seq<Topic>, ch: Change,
                                            i: nat, j: nat)
    requires NoRepeats(order) && i < j < |CandidatesOf(id, subs, order, ch)|
    ensures CandidatesOf(id, subs, order, ch)[i].topic != CandidatesOf(id, subs, order, ch)[j].topic
  {
    var last := |order| - 1;
    var front := CandidatesOf(id, subs, order[..last], ch);
    if j < |front| {
      CandidatesDiffer(id, subs, order[..last], ch, i, j);
    } else {
      OwnCandidates(id, subs, order[..last], ch, i);
    }
  }

  predicate Matching(subs: map<Topic, Subscription>, t: Topic, ch: Change) {
    t in subs && MatchedIds(subs[t].filters, ch) != []
  }

  ghost predicate FirstAt(subs: map<Topic, Subscription>, order: seq<Topic>, ch: Change, i: int) {
    0 <= i < |order| && Matching(subs, order[i], ch) && forall j | 0 <= j < i :: !Matching(subs, order[j], ch)
  }

  /** `t` is the first channel, in the order of the joins, that matches. */
  ghost predicate FirstMatching(subs: map<Topic, Subscription>, order: seq<Topic>, ch: Change, t: Topic) {
    exists i :: FirstAt(subs, order, ch, i) && order[i] == t
  }

  ghost predicate NoneMatching(subs: map<Topic, Subscription>, order: seq<Topic>, ch: Change) {
    forall j | 0 <= j < |order| :: !Matching(subs, order[j], ch)
  }

  /** The label of a push when no channel matches any more. */
  function Fallback(order: seq<Topic>): Topic { if order != [] then order[0] else "realtime:unknown" }

  lemma {:induction false} FirstOfCandidates(id: ConnId, subs: map<Topic, Subscription>, order: seq<Topic>, ch: Change)
    ensures var cands := CandidatesOf(id, subs, order, ch);
      if cands == [] then NoneMatching(subs, order, ch) else FirstMatching(subs, order, ch, cands[0].topic)
  {
    if order != [] {
      var last := |order| - 1;
      var front := order[..last];
      FirstOfCandidates(id, subs, front, ch);
      assert forall j | 0 <= j < last :: front[j] == order[j];
      var cands := CandidatesOf(id, subs, front, ch);
      if cands != [] {
        var i :| FirstAt(subs, front, ch, i) && front[i] == cands[0].topic;
        assert FirstAt(subs, order, ch, i);
      } else if Matching(subs, order[last], ch) {
        assert FirstAt(subs, order, ch, last);
      }
    }
  }

  /** A push is labelled `t` exactly when `t` is the first matching channel of that moment, or the fallback of none. */
  lemma LabelIs(subs: map<Topic, Subscription>, order: seq<Topic>, ch: Change, t: Topic)
    ensures TopicFor(subs, order, ch) == t <==>
            FirstMatching(subs, order, ch, t) || (NoneMatching(subs, order, ch) && t == Fallback(order))
  {
    FirstOfCandidates(0, subs, order, ch);
    var cands := CandidatesOf(0, subs, order, ch);
    if cands != [] {
      var i :| FirstAt(subs, order, ch, i) && order[i] == cands[0].topic;
      assert !NoneMatching(subs, order, ch);
      forall k | FirstAt(subs, order, ch, k) ensures k == i {}
    } else {
      assert forall k :: !FirstAt(subs, order, ch, k);
    }
  }

  /**
   With nothing between the listing and the pushes: every frame names the channel its ids belong to exactly when no
   more than one channel of the connection matches.
   */
  lemma LabelsAgreeIff(id: ConnId, c: Conn, ch: Change)
    requires ConnOrdered(c)
    ensures var cands := CandidatesOf(id, c.subs, c.order, ch);
      (forall i | 0 <= i < |cands| :: FrameFor(c, cands[i], ch).topic == cands[i].topic) <==> |cands| <= 1
  {
    var cands := CandidatesOf(id, c.subs, c.order, ch);
    SameCandidates(0, id, c.subs, c.order, ch);
    if |cands| > 1 {
      CandidatesDiffer(id, c.subs, c.order, ch, 0, 1);
      assert FrameFor(c, cands[1], ch).topic == cands[0].topic != cands[1].topic;
    }
  }

  // Two channels of one connection that watch the same table.

  function WholeTable(ch: Change): FilterSpec { FilterSpec(None, ch.schema, ch.table, None) }

  function WatchOp(t: Topic, ch: Change): Op { JoinOp(1, t, [WholeTable(ch)], false, "k") }

  function Watch(t: Topic, n: SubId, ch: Change): Subscription {
    Subscription(t, [Resolved(n, WholeTable(ch), None)], false, "k")
  }

  function OneRoom(role: string, claims: Claims, ch: Change): State {
    var c := Fresh(role, claims, 0).(subs := map["realtime:a" := Watch("realtime:a", 1, ch)], order := ["realtime:a"],
                                     marks := map["realtime:a" := 0]);
    State(map[1 := c], map["realtime:a" := {1}], map[], 2, 2)
  }

  function Neighbour(role: string, claims: Claims, ch: Change): Conn {
    Fresh(role, claims, 0).(
      subs := map["realtime:a" := Watch("realtime:a", 1, ch), "realtime:b" := Watch("realtime:b", 2, ch)],
      order := ["realtime:a", "realtime:b"], marks := map["realtime:a" := 0, "realtime:b" := 0])
  }

  function TwoRooms(role: string, claims: Claims, ch: Change): State {
    State(map[1 := Neighbour(role, claims, ch)], map["realtime:a" := {1}, "realtime:b" := {1}], map[], 2, 3)
  }

  lemma AssignOne(spec: FilterSpec, n: SubId)
    requires spec.filter.None?
    ensures Assign([spec], n) == Assigned(Some([Resolved(n, spec, None)]), n + 1)
  {
    assert [spec][..0] == [];
    var none: seq<Resolved> := [];
    assert none + [Resolved(n, spec, None)] == [Resolved(n, spec, None)];
  }

  lemma FirstRoom(role: string, claims: Claims, ch: Change)
    ensures Step(State(map[1 := Fresh(role, claims, 0)], map[], map[], 2, 1), 2, WatchOp("realtime:a", ch)) ==
            OneRoom(role, claims, ch)
  {
    var s := State(map[1 := Fresh(role, claims, 0)], map[], map[], 2, 1);
    assert FilterCount(s.conns[1].subs, s.conns[1].order) == 0;
    AssignOne(WholeTable(ch), 1);
    var r := Subscribe(s.(nextSub := 2), 1, "realtime:a", [Resolved(1, WholeTable(ch), None)], false, "k");
    assert s.conns[1].order + ["realtime:a"] == ["realtime:a"];
    assert MembersOf(s, "realtime:a") + {1} == {1};
    assert r.conns == OneRoom(role, claims, ch).conns && r.topics == map["realtime:a" := {1}];
  }

  lemma SecondRoom(role: string, claims: Claims, ch: Change)
    ensures Step(OneRoom(role, claims, ch), 2, WatchOp("realtime:b", ch)) == TwoRooms(role, claims, ch)
  {
    var s := OneRoom(role, claims, ch);
    assert s.conns[1].order[..0] == [] && FilterCount(s.conns[1].subs, s.conns[1].order) == 1;
    AssignOne(WholeTable(ch), 2);
    var r := Subscribe(s.(nextSub := 3), 1, "realtime:b", [Resolved(2, WholeTable(ch), None)], false, "k");
    assert s.conns[1].order + ["realtime:b"] == ["realtime:a", "realtime:b"];
    assert MembersOf(s, "realtime:b") + {1} == {1};
    assert r.conns[1] == Neighbour(role, claims, ch);
    assert r.conns == map[1 := Neighbour(role, claims, ch)];
    assert r.topics == map["realtime:a" := {1}, "realtime:b" := {1}];
  }

  lemma RoomsAreJoined(role: string, claims: Claims, ch: Change)
    ensures Run(EMPTY, 2, [RegisterOp(role, claims, 0, 1), WatchOp("realtime:a", ch), WatchOp("realtime:b", ch)]) ==
            TwoRooms(role, claims, ch)
  {
    var ops := [RegisterOp(role, claims, 0, 1), WatchOp("realtime:a", ch), WatchOp("realtime:b", ch)];
    assert ops[..2][..1] == ops[..1] && ops[..1][..0] == [];
    assert Run(EMPTY, 2, ops[..1]) == State(map[1 := Fresh(role, claims, 0)], map[], map[], 2, 1);
    FirstRoom(role, claims, ch);
    assert Run(EMPTY, 2, ops[..2]) == OneRoom(role, claims, ch);
    SecondRoom(role, claims, ch);
  }

  lemma RoomCandidates(id: ConnId, role: string, claims: Claims, ch: Change)
    ensures var c := Neighbour(role, claims, ch);
      CandidatesOf(id, c.subs, c.order, ch) == [Candidate(id, "realtime:a", [1]), Candidate(id, "realtime:b", [2])]
  {
    var c := Neighbour(role, claims, ch);
    assert c.subs["realtime:a"].filters[..0] == [] && c.subs["realtime:b"].filters[..0] == [];
    assert MatchedIds(c.subs["realtime:a"].filters, ch) == [1] && MatchedIds(c.subs["realtime:b"].filters, ch) == [2];
    assert c.order[..1] == ["realtime:a"] && c.order[..1][..0] == [];
    assert CandidatesOf(id, c.subs, c.order[..1], ch) == [Candidate(id, "realtime:a", [1])];
  }

  lemma RoomSnapshot(role: string, claims: Claims, ch: Change)
    ensures Snapshot(TwoRooms(role, claims, ch), ch) ==
            [Candidate(1, "realtime:a", [1]), Candidate(1, "realtime:b", [2])]
  {
    RoomCandidates(1, role, claims, ch);
    var s := TwoRooms(role, claims, ch);
    assert SnapshotBelow(s, ch, 1) == [];
    assert SnapshotBelow(s, ch, 2) == CandidatesAt(s, ch, 1);
  }

  lemma RoomFrames(role: string, claims: Claims, ch: Change)
    ensures var cands := [Candidate(1, "realtime:a", [1]), Candidate(1, "realtime:b", [2])];
      FramesTo(1, Neighbour(role, claims, ch), cands, ch) ==
      [Changes("realtime:a", [1], ch), Changes("realtime:a", [2], ch)]
  {
    RoomCandidates(0, role, claims, ch);
    var c := Neighbour(role, claims, ch);
    var cands := [Candidate(1, "realtime:a", [1]), Candidate(1, "realtime:b", [2])];
    assert TopicFor(c.subs, c.order, ch) == "realtime:a";
    assert cands[..1] == [cands[0]] && cands[..1][..0] == [];
    assert FramesTo(1, c, cands[..1], ch) == [Changes("realtime:a", [1], ch)];
  }

  /** Two rooms watching the same table: the ids of the second arrive under the name of the first. */
  lemma SecondRoomIsMislabelled(role: string, claims: Claims, ch: Change, table: Table, now: int, o: Oracle)
    requires Authorized(role, claims, ch, table, now, o)
    ensures var ops := [RegisterOp(role, claims, 0, 1), WatchOp("realtime:a", ch), WatchOp("realtime:b", ch)];
      var s := Run(EMPTY, 2, ops);
      var r := FanOut(s, ch, table, now, o);
      && Snapshot(s, ch) == [Candidate(1, "realtime:a", [1]), Candidate(1, "realtime:b", [2])]
      && 1 in r.conns && r.conns[1].log == [Changes("realtime:a", [1], ch), Changes("realtime:a", [2], ch)]
  {
    RoomsAreJoined(role, claims, ch);
    var s := TwoRooms(role, claims, ch);
    RoomSnapshot(role, claims, ch);
    RoomFrames(role, claims, ch);
    ServeAllLog(s, Snapshot(s, ch), ch, table, now, o, 1);
  }
}
