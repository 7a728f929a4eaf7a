/**
 The realtime broker's state and what each of its operations does to it. Every operation runs without a suspension
 point while it holds the broker, so each is one step.
 */
module BrokerModel {
  import opened Common
  import Topics

  type ConnId = nat
  type SubId = nat
  type Topic = string
  type Key = string
  type Meta = string

  // ---------- frames ----------

  datatype ChangeType = Insert | Update | Delete

  datatype Change = Change(schema: string, table: string, kind: ChangeType,
                           record: Option<Topics.Record>, oldRecord: Option<Topics.Record>)

  datatype Frame =
    | PresenceState(topic: Topic, state: map<Key, seq<Meta>>)
    | PresenceDiff(topic: Topic, joins: map<Key, seq<Meta>>, leaves: map<Key, seq<Meta>>)
    | Broadcast(topic: Topic, event: string, payload: string)
    | Changes(topic: Topic, ids: seq<SubId>, change: Change)

  // ---------- connections ----------

  // An `event` of None is the wildcard.
  datatype FilterSpec = FilterSpec(event: Option<ChangeType>, schema: string, table: string, filter: Option<string>)

  datatype Resolved = Resolved(id: SubId, spec: FilterSpec, parsed: Option<Topics.Filter>)

  datatype Subscription = Subscription(topic: Topic, filters: seq<Resolved>, echo: bool, key: Key)

  // `exp` and `sub` are the claims the broker reads; an `exp` that is no number counts as absent.
  datatype Claims = Claims(exp: Option<int>, sub: Option<string>)

  // The dictionary of subscriptions keeps its insertion order. A queue of capacity 0 or less is unbounded.
  // `received` (frames the writer has taken), `log` (every frame ever enqueued), `lost` (the length of the log up to
  // and with the last dropped frame) and `marks` (the length of the log when a topic was joined) are history.
  datatype Conn = Conn(
    role: string,
    claims: Claims,
    subs: map<Topic, Subscription>,
    order: seq<Topic>,
    capacity: int,
    queue: seq<Frame>,
    dropped: nat,
    received: seq<Frame>,
    log: seq<Frame>,
    lost: nat,
    marks: map<Topic, nat>)

  datatype Entry = Entry(conn: ConnId, meta: Meta)

  type Bucket = map<Key, seq<Entry>>

  // `conns` are the registered connections; a connection is closed exactly when it has left this map.
  datatype State = State(
    conns: map<ConnId, Conn>,
    topics: map<Topic, set<ConnId>>,
    presence: map<Topic, Bucket>,
    nextConn: ConnId,
    nextSub: SubId)

  const EMPTY := State(map[], map[], map[], 1, 1)

  // ---------- the bounded queue ----------

  predicate Full(c: Conn) { c.capacity > 0 && |c.queue| >= c.capacity }

  /** Enqueue, dropping the oldest frame when the queue is full. */
  function Enqueue(c: Conn, f: Frame): Conn {
    if Full(c) then
      c.(queue := c.queue[1..] + [f], dropped := c.dropped + 1, log := c.log + [f],
         lost := |c.received| + c.dropped + 1)
    else c.(queue := c.queue + [f], log := c.log + [f])
  }

  /** The writer takes the oldest frame. */
  function Drain(c: Conn): Conn {
    if c.queue == [] then c else c.(queue := c.queue[1..], received := c.received + [c.queue[0]])
  }

  function EnqueueAt(conns: map<ConnId, Conn>, ids: set<ConnId>, f: Frame): map<ConnId, Conn> {
    map id | id in conns :: if id in ids then Enqueue(conns[id], f) else conns[id]
  }

  // ---------- presence ----------

  function Kept(entries: seq<Entry>, id: ConnId): seq<Entry> {
    if entries == [] then []
    else
      var front := Kept(entries[..|entries| - 1], id);
      if entries[|entries| - 1].conn == id then front else front + [entries[|entries| - 1]]
  }

  function Removed(entries: seq<Entry>, id: ConnId): seq<Meta> {
    if entries == [] then []
    else
      var front := Removed(entries[..|entries| - 1], id);
      if entries[|entries| - 1].conn == id then front + [entries[|entries| - 1].meta] else front
  }

  function Metas(entries: seq<Entry>): seq<Meta> {
    seq(|entries|, i requires 0 <= i < |entries| => entries[i].meta)
  }

  function KeptBucket(b: Bucket, id: ConnId): Bucket {
    map k | k in b && Kept(b[k], id) != [] :: Kept(b[k], id)
  }

  function Leaves(b: Bucket, id: ConnId): map<Key, seq<Meta>> {
    map k | k in b && Removed(b[k], id) != [] :: Removed(b[k], id)
  }

  function BucketOf(s: State, t: Topic): Bucket {
    if t in s.presence then s.presence[t] else map[]
  }

  function WithBucket(presence: map<Topic, Bucket>, t: Topic, b: Bucket): map<Topic, Bucket> {
    if b == map[] then presence - {t} else presence[t := b]
  }

  /** The map sent as `presence_state`. */
  function PresenceOf(s: State, t: Topic): map<Key, seq<Meta>> {
    map k | k in BucketOf(s, t) :: Metas(BucketOf(s, t)[k])
  }

  function MembersOf(s: State, t: Topic): set<ConnId> {
    if t in s.topics then s.topics[t] else {}
  }

  function Emit(s: State, t: Topic, f: Frame): State {
    s.(conns := EnqueueAt(s.conns, MembersOf(s, t), f))
  }

  function Strip(presence: map<Topic, Bucket>, id: ConnId, t: Topic): map<Topic, Bucket> {
    if t in presence then WithBucket(presence, t, KeptBucket(presence[t], id)) else presence
  }

  /** Strip the presence of `id` on `t` and tell the members of `t`, when there was any. */
  function DropPresence(s: State, id: ConnId, t: Topic): State {
    var leaves := Leaves(BucketOf(s, t), id);
    var stripped := s.(presence := Strip(s.presence, id, t));
    if leaves == map[] then stripped else Emit(stripped, t, PresenceDiff(t, map[], leaves))
  }

  // ---------- subscriptions ----------

  function Without(order: seq<Topic>, t: Topic): seq<Topic> {
    if order == [] then []
    else
      var front := Without(order[..|order| - 1], t);
      if order[|order| - 1] == t then front else front + [order[|order| - 1]]
  }

  function Forget(c: Conn, t: Topic): Conn {
    c.(subs := c.subs - {t}, order := Without(c.order, t), marks := c.marks - {t})
  }

  function Remember(c: Conn, sub: Subscription): Conn {
    c.(subs := c.subs[sub.topic := sub], order := c.order + [sub.topic], marks := c.marks[sub.topic := |c.log|])
  }

  function Unlist(topics: map<Topic, set<ConnId>>, id: ConnId, t: Topic): map<Topic, set<ConnId>> {
    if t !in topics then topics
    else if topics[t] - {id} == {} then topics - {t}
    else topics[t := topics[t] - {id}]
  }

  /** The broker's own side of a leave: index, presence and the diff to those who stay. */
  function LeaveIndex(s: State, id: ConnId, t: Topic): State {
    DropPresence(s.(topics := Unlist(s.topics, id, t)), id, t)
  }

  function Unsubscribe(s: State, id: ConnId, t: Topic): State
    requires id in s.conns
  {
    LeaveIndex(s.(conns := s.conns[id := Forget(s.conns[id], t)]), id, t)
  }

  function Subscribe(s: State, id: ConnId, t: Topic, filters: seq<Resolved>, echo: bool, key: Key): State
    requires id in s.conns
  {
    var left := if t in s.conns[id].subs then Unsubscribe(s, id, t) else s;
    assert id in left.conns;
    var sub := Subscription(t, filters, echo, if key == "" then Decimal(id) else key);
    left.(conns := left.conns[id := Remember(left.conns[id], sub)],
          topics := left.topics[t := MembersOf(left, t) + {id}])
  }

  function LeaveAll(s: State, id: ConnId, order: seq<Topic>): State {
    if order == [] then s else LeaveIndex(LeaveAll(s, id, order[..|order| - 1]), id, order[|order| - 1])
  }

  function Unregister(s: State, id: ConnId): State
    requires id in s.conns
  {
    LeaveAll(s.(conns := s.conns - {id}), id, s.conns[id].order)
  }

  function Fresh(role: string, claims: Claims, capacity: int): Conn {
    Conn(role, claims, map[], [], capacity, [], 0, [], [], 0, map[])
  }

  function Register(s: State, role: string, claims: Claims, capacity: int, maxConnections: int): State {
    if |s.conns| >= maxConnections then s
    else s.(conns := s.conns[s.nextConn := Fresh(role, claims, capacity)], nextConn := s.nextConn + 1)
  }

  // ---------- the join handler: cap, ids, subscription ----------

  /** The number of filters a connection holds. */
  function FilterCount(subs: map<Topic, Subscription>, order: seq<Topic>): nat {
    if order == [] then 0
    else
      var last := order[|order| - 1];
      FilterCount(subs, order[..|order| - 1]) + if last in subs then |subs[last].filters| else 0
  }

  datatype Assigned = Assigned(filters: Option<seq<Resolved>>, next: SubId)

  /** Ids for the filters in order. A filter that does not parse ends it; ids already drawn are not given back. */
  function Assign(specs: seq<FilterSpec>, next: SubId): (r: Assigned)
    ensures r.filters.Some? ==> |r.filters.value| == |specs| && r.next == next + |specs|
    ensures next <= r.next
  {
    if specs == [] then Assigned(Some([]), next)
    else
      var front := Assign(specs[..|specs| - 1], next);
      var spec := specs[|specs| - 1];
      if front.filters.None? then front
      else if spec.filter.Some? && Topics.Parse(spec.filter.value).None? then Assigned(None, front.next)
      else
        var parsed := if spec.filter.Some? then Topics.Parse(spec.filter.value) else None;
        Assigned(Some(front.filters.value + [Resolved(front.next, spec, parsed)]), front.next + 1)
  }

  function Join(s: State, id: ConnId, t: Topic, specs: seq<FilterSpec>, echo: bool, key: Key, maxSubs: nat): State
    requires id in s.conns
  {
    if FilterCount(s.conns[id].subs, s.conns[id].order) + |specs| > maxSubs then s
    else
      var given := Assign(specs, s.nextSub);
      var drawn := s.(nextSub := given.next);
      if given.filters.None? then drawn else Subscribe(drawn, id, t, given.filters.value, echo, key)
  }

  function Track(s: State, id: ConnId, t: Topic, meta: Meta): State
    requires id in s.conns
  {
    if t !in s.conns[id].subs then s
    else
      var key := s.conns[id].subs[t].key;
      var b := BucketOf(s, t);
      var entries := (if key in b then b[key] else []) + [Entry(id, meta)];
      Emit(s.(presence := s.presence[t := b[key := entries]]), t, PresenceDiff(t, map[key := [meta]], map[]))
  }

  function PushState(s: State, id: ConnId, t: Topic): State
    requires id in s.conns
  {
    s.(conns := s.conns[id := Enqueue(s.conns[id], PresenceState(t, PresenceOf(s, t)))])
  }

  /** Everyone on the topic but the sender, unless the sender asked for its own broadcasts. */
  function Recipients(s: State, t: Topic, sender: Option<ConnId>): set<ConnId> {
    set id | id in MembersOf(s, t) && id in s.conns &&
      (Some(id) == sender ==> t in s.conns[id].subs && s.conns[id].subs[t].echo)
  }

  function Send(s: State, t: Topic, event: string, payload: string, sender: Option<ConnId>): State {
    s.(conns := EnqueueAt(s.conns, Recipients(s, t, sender), Broadcast(t, event, payload)))
  }

  function SetConn(s: State, id: ConnId, c: Conn): State {
    s.(conns := s.conns[id := c])
  }

  // ---------- the state machine ----------

  // `ChangesOp` is the push of a fan-out: a frame of row changes to one connection.
  datatype Op =
    | RegisterOp(role: string, claims: Claims, capacity: int, maxConnections: int)
    | UnregisterOp(id: ConnId)
    | ClaimsOp(id: ConnId, role: string, claims: Claims)
    | JoinOp(id: ConnId, topic: Topic, specs: seq<FilterSpec>, echo: bool, key: Key)
    | LeaveOp(id: ConnId, topic: Topic)
    | TrackOp(id: ConnId, topic: Topic, meta: Meta)
    | UntrackOp(id: ConnId, topic: Topic)
    | PushStateOp(id: ConnId, topic: Topic)
    | SendOp(topic: Topic, event: string, payload: string, sender: Option<ConnId>)
    | ChangesOp(id: ConnId, topic: Topic, ids: seq<SubId>, change: Change)
    | DrainOp(id: ConnId)

  /** Handlers act for registered connections only; anything else does nothing. */
  function Step(s: State, maxSubs: nat, op: Op): State {
    match op
    case RegisterOp(role, claims, capacity, cap) => Register(s, role, claims, capacity, cap)
    case SendOp(t, event, payload, sender) => Send(s, t, event, payload, sender)
    case UnregisterOp(id) => if id in s.conns then Unregister(s, id) else s
    case ClaimsOp(id, role, claims) =>
      if id in s.conns then SetConn(s, id, s.conns[id].(role := role, claims := claims)) else s
    case JoinOp(id, t, specs, echo, key) => if id in s.conns then Join(s, id, t, specs, echo, key, maxSubs) else s
    case LeaveOp(id, t) => if id in s.conns then Unsubscribe(s, id, t) else s
    case TrackOp(id, t, meta) => if id in s.conns then Track(s, id, t, meta) else s
    case UntrackOp(id, t) => if id in s.conns then DropPresence(s, id, t) else s
    case PushStateOp(id, t) => if id in s.conns then PushState(s, id, t) else s
    case ChangesOp(id, t, ids, change) =>
      if id in s.conns then SetConn(s, id, Enqueue(s.conns[id], Changes(t, ids, change))) else s
    case DrainOp(id) => if id in s.conns then SetConn(s, id, Drain(s.conns[id])) else s
  }

  function Run(s: State, maxSubs: nat, ops: seq<Op>): State {
    if ops == [] then s else Step(Run(s, maxSubs, ops[..|ops| - 1]), maxSubs, ops[|ops| - 1])
  }
}
