/** Who gets a row change: stated by roles, claims, keys, owners and filters, and proved of every fan-out. */
module BrokerAccess {
  import opened Common
  import opened BrokerModel
  import opened BrokerIndex
  import opened BrokerLimits
  import opened BrokerFanout
  import opened BrokerDelivery
  import Topics

  // ---------- who may see a row ----------

  /** The values under which the row is looked up: one for each key column, in order. */
  ghost predicate KeyValues(row: Topics.Record, pk: seq<string>, vals: seq<Option<string>>) {
    |vals| == |pk| && forall i | 0 <= i < |pk| :: pk[i] in row && vals[i] == row[pk[i]]
  }

  function NewRow(ch: Change): Topics.Record { if ch.record.Some? then ch.record.value else map[] }

  /** The old row's value in the table's owner column. */
  predicate OwnedBy(ch: Change, table: Table, owner: string) {
    && table.owner.Some? && ch.oldRecord.Some?
    && table.owner.value in ch.oldRecord.value && ch.oldRecord.value[table.owner.value] == Some(owner)
  }

  /** One UUID, however written; or the same text when either is no UUID. */
  predicate SameIdentity(o: Oracle, a: string, b: string) {
    if o.uuid(a).None? || o.uuid(b).None? then a == b else o.uuid(a).value == o.uuid(b).value
  }

  /** What a connection with these claims may be told of: a key the database grants, or an old row it owns. */
  ghost predicate Visible(role: string, claims: Claims, ch: Change, table: Table, now: int, o: Oracle) {
    || role == "service_role"
    || (&& (claims.exp.Some? ==> now < claims.exp.value)
        && (ch.kind != Delete ==> exists vals :: KeyValues(NewRow(ch), table.pk, vals) && o.probe(role, claims, vals))
        && (ch.kind == Delete ==>
              claims.sub.Some? && exists v :: OwnedBy(ch, table, v) && SameIdentity(o, v, claims.sub.value)))
  }

  lemma KeyValuesAreUnique(row: Topics.Record, pk: seq<string>, vals: seq<Option<string>>)
    requires KeyValues(row, pk, vals)
    ensures (forall i | 0 <= i < |pk| :: pk[i] in row) && vals == PkValues(row, pk)
  {
    assert forall i | 0 <= i < |pk| :: vals[i] == PkValues(row, pk)[i];
  }

  lemma AuthorizedIffVisible(role: string, claims: Claims, ch: Change, table: Table, now: int, o: Oracle)
    ensures Authorized(role, claims, ch, table, now, o) <==> Visible(role, claims, ch, table, now, o)
  {
    if role != "service_role" {
      if ch.kind == Delete {
        if Authorized(role, claims, ch, table, now, o) {
          assert OwnedBy(ch, table, ch.oldRecord.value[table.owner.value].value);
        }
      } else {
        var row := NewRow(ch);
        if Authorized(role, claims, ch, table, now, o) {
          assert KeyValues(row, table.pk, PkValues(row, table.pk));
        }
        forall vals | KeyValues(row, table.pk, vals) ensures vals == PkValues(row, table.pk) {
          KeyValuesAreUnique(row, table.pk, vals);
        }
        if exists vals :: KeyValues(row, table.pk, vals) {
          var vals :| KeyValues(row, table.pk, vals);
          KeyValuesAreUnique(row, table.pk, vals);
        }
      }
    }
  }

  // ---------- what a connection is subscribed to ----------

  /** A join is accepted: the filters fit under the cap, and every filter text parses. */
  ghost predicate Joinable(s: State, maxSubs: nat, id: ConnId, specs: seq<FilterSpec>) {
    && id in s.conns && FilterCount(s.conns[id].subs, s.conns[id].order) + |specs| <= maxSubs
    && forall i | 0 <= i < |specs| :: specs[i].filter.Some? ==> Topics.Parse(specs[i].filter.value).Some?
  }

  /** What the join asked for is what is held: filters, texts parsed, echo, and the key or else the connection's id. */
  ghost predicate HoldsJoin(sub: Subscription, id: ConnId, t: Topic, specs: seq<FilterSpec>, echo: bool, key: Key,
                            next: SubId)
  {
    && sub.topic == t && sub.echo == echo && sub.key == (if key == "" then Decimal(id) else key)
    && |sub.filters| == |specs|
    && forall i | 0 <= i < |specs| ::
         && sub.filters[i].id == next + i && sub.filters[i].spec == specs[i]
         && sub.filters[i].parsed ==
              if specs[i].filter.Some? then Topics.Parse(specs[i].filter.value) else None
  }

  lemma JoinedMembers(s: State, maxSubs: nat, id: ConnId, t: Topic, specs: seq<FilterSpec>, echo: bool, key: Key)
    requires Coherent(s) && Joinable(s, maxSubs, id, specs)
    ensures var m, n := SubsOf(s.conns), SubsOf(Join(s, id, t, specs, echo, key, maxSubs).conns);
      && Joined(n, id, t) && HoldsJoin(n[id][t], id, t, specs, echo, key, s.nextSub)
      && n == m[id := m[id][t := n[id][t]]]
  {
    AssignInOrder(specs, s.nextSub);
    var given := Assign(specs, s.nextSub);
    SubscribeMembers(s.(nextSub := given.next), id, t, given.filters.value, echo, key);
  }

  /** After an accepted join the connection holds what it asked for on the topic; nothing else is joined or left. */
  lemma JoinSubscribes(maxSubs: nat, ops: seq<Op>, id: ConnId, t: Topic, specs: seq<FilterSpec>, echo: bool, key: Key)
    ensures var s := Run(EMPTY, maxSubs, ops);
      var r := Step(s, maxSubs, JoinOp(id, t, specs, echo, key));
      var m, n := SubsOf(s.conns), SubsOf(r.conns);
      if Joinable(s, maxSubs, id, specs) then
        && Joined(n, id, t) && HoldsJoin(n[id][t], id, t, specs, echo, key, s.nextSub)
        && n == m[id := m[id][t := n[id][t]]]
      else n == m
  {
    var s := Run(EMPTY, maxSubs, ops);
    EveryRunIsCoherent(maxSubs, ops);
    if Joinable(s, maxSubs, id, specs) {
      JoinedMembers(s, maxSubs, id, t, specs, echo, key);
    } else {
      AssignInOrder(specs, s.nextSub);
    }
  }

  lemma LeftSubscriptions(s: State, x: ConnId, t: Topic)
    requires Coherent(s) && x in s.conns
    ensures var m := SubsOf(s.conns); SubsOf(Left(s, x, t).conns) == m[x := m[x] - {t}]
  {
    if t in s.conns[x].subs {
      UnsubscribeKeeps(s, x, t);
    } else {
      assert SubsOf(s.conns)[x] - {t} == SubsOf(s.conns)[x];
    }
  }

  lemma SubscribeMembers(s: State, x: ConnId, t: Topic, filters: seq<Resolved>, echo: bool, key: Key)
    requires Coherent(s) && x in s.conns
    ensures var m := SubsOf(s.conns);
      SubsOf(Subscribe(s, x, t, filters, echo, key).conns) ==
      m[x := m[x][t := Subscription(t, filters, echo, if key == "" then Decimal(x) else key)]]
  {
    LeftSubscriptions(s, x, t);
    LeftKeeps(s, x, t);
    var m, left := SubsOf(s.conns), Left(s, x, t);
    var sub := Subscription(t, filters, echo, if key == "" then Decimal(x) else key);
    ArrivedView(left, x, sub);
    assert Subscribe(s, x, t, filters, echo, key) == Arrived(left, x, sub);
    ReplaceTopic(m, x, t, sub);
  }

  lemma ReplaceTopic(m: Members, x: ConnId, t: Topic, sub: Subscription)
    requires x in m
    ensures var left := m[x := m[x] - {t}]; left[x := left[x][t := sub]] == m[x := m[x][t := sub]]
  {
    assert (m[x] - {t})[t := sub] == m[x][t := sub];
  }

  lemma SameSubscriptions(s: State, maxSubs: nat, op: Op)
    requires Quiet(op) || op.TrackOp? || op.UntrackOp?
    ensures SubsOf(Step(s, maxSubs, op).conns) == SubsOf(s.conns)
  {
    if Quiet(op) {
      QuietView(s, maxSubs, op);
      QueuesOnlyKeeps(s, Step(s, maxSubs, op));
    } else if op.UntrackOp? {
      UntrackView(s, op.id, op.topic);
      QueuesOnlyKeeps(s, DropPresence(s, op.id, op.topic));
    } else if op.id in s.conns && op.topic in s.conns[op.id].subs {
      TrackView(s, op.id, op.topic, op.meta);
      QueuesOnlyKeeps(s, Track(s, op.id, op.topic, op.meta));
    }
  }

  /** No other call changes what anybody is subscribed to, but for arriving, leaving a topic and disconnecting. */
  lemma OthersSubscriptions(maxSubs: nat, ops: seq<Op>, op: Op)
    requires !op.JoinOp?
    ensures var s := Run(EMPTY, maxSubs, ops);
      var m, n := SubsOf(s.conns), SubsOf(Step(s, maxSubs, op).conns);
      match op
      case RegisterOp(_, _, _, cap) => n == if |s.conns| < cap then m[s.nextConn := map[]] else m
      case UnregisterOp(id) => n == m - {id}
      case LeaveOp(id, t) => n == if id in m then m[id := m[id] - {t}] else m
      case _ => n == m
  {
    var s := Run(EMPTY, maxSubs, ops);
    EveryRunIsCoherent(maxSubs, ops);
    match op {
      case RegisterOp(role, claims, capacity, cap) =>
        if |s.conns| < cap { RegisterView(s, role, claims, capacity, cap); }
      case UnregisterOp(id) => if id in s.conns { UnregisterKeeps(s, id); GoneView(s, id); }
      case LeaveOp(id, t) => if id in s.conns { UnsubscribeKeeps(s, id, t); }
      case _ => SameSubscriptions(s, maxSubs, op);
    }
  }

  /** A sender hears its own broadcast exactly when its join asked for that. */
  lemma EchoIffAsked(maxSubs: nat, ops: seq<Op>, id: ConnId, t: Topic, specs: seq<FilterSpec>, echo: bool, key: Key,
                     event: string, payload: string)
    requires Joinable(Run(EMPTY, maxSubs, ops), maxSubs, id, specs)
    ensures var joined := Run(EMPTY, maxSubs, ops + [JoinOp(id, t, specs, echo, key)]);
      var r := Step(joined, maxSubs, SendOp(t, event, payload, Some(id)));
      && id in joined.conns && id in r.conns
      && r.conns[id].log == joined.conns[id].log + if echo then [Broadcast(t, event, payload)] else []
  {
    var op := JoinOp(id, t, specs, echo, key);
    assert (ops + [op])[..|ops|] == ops;
    JoinSubscribes(maxSubs, ops, id, t, specs, echo, key);
    var joined := Run(EMPTY, maxSubs, ops + [op]);
    assert Joined(SubsOf(joined.conns), id, t);
    BroadcastReachesExactly(maxSubs, ops + [op], t, event, payload, Some(id), id);
  }

  // ---------- which rows a filter is for ----------

  /** The row meets the filter text: its column holds the value, or one of the values, and is not null. */
  ghost predicate Meets(f: Topics.Filter, row: Topics.Record) {
    match f
    case EqFilter(column, value) => column in row && row[column] == Some(value)
    case InFilter(column, values) => exists v :: v in values && column in row && row[column] == Some(v)
  }

  /** The change is what the filter was written for. */
  ghost predicate IsFor(spec: FilterSpec, ch: Change) {
    && spec.schema == ch.schema && spec.table == ch.table
    && (spec.event == None || spec.event == Some(ch.kind))
    && (spec.filter.Some? ==>
          Topics.Parse(spec.filter.value).Some? &&
          exists row :: (if ch.kind == Delete then ch.oldRecord else ch.record) == Some(row) &&
                        Meets(Topics.Parse(spec.filter.value).value, row))
  }

  // ---------- held filters ----------

  predicate ParsedAsWritten(r: Resolved) {
    if r.spec.filter.None? then r.parsed.None? else r.parsed.Some? && r.parsed == Topics.Parse(r.spec.filter.value)
  }

  ghost predicate AllAsWritten(m: Members) {
    forall id, t, i, n: SubId | Holds(m, id, t, i, n) :: ParsedAsWritten(m[id][t].filters[i])
  }

  lemma FewerAsWritten(m: Members, n: Members)
    requires AllAsWritten(m) && forall id, t | Joined(n, id, t) :: Joined(m, id, t) && n[id][t] == m[id][t]
    ensures AllAsWritten(n)
  {
    assert forall id, t, i, k: SubId | Holds(n, id, t, i, k) :: Holds(m, id, t, i, k);
  }

  lemma MoreAsWritten(m: Members, n: Members, id: ConnId, t: Topic)
    requires AllAsWritten(m) && id in m && Joined(n, id, t) && n == m[id := m[id][t := n[id][t]]]
    requires forall i | 0 <= i < |n[id][t].filters| :: ParsedAsWritten(n[id][t].filters[i])
    ensures AllAsWritten(n)
  {
    forall x, u, i, k: SubId | Holds(n, x, u, i, k) ensures ParsedAsWritten(n[x][u].filters[i]) {
      assert (x == id && u == t) || Holds(m, x, u, i, k);
    }
  }

  /** In every run a held filter means what the client wrote. */
  lemma {:induction false} FiltersAreAsWritten(maxSubs: nat, ops: seq<Op>)
    ensures AllAsWritten(SubsOf(Run(EMPTY, maxSubs, ops).conns))
  {
    if ops != [] {
      var front, op := ops[..|ops| - 1], ops[|ops| - 1];
      FiltersAreAsWritten(maxSubs, front);
      var s, r := Run(EMPTY, maxSubs, front), Run(EMPTY, maxSubs, ops);
      if op.JoinOp? {
        JoinSubscribes(maxSubs, front, op.id, op.topic, op.specs, op.echo, op.key);
        if Joinable(s, maxSubs, op.id, op.specs) {
          MoreAsWritten(SubsOf(s.conns), SubsOf(r.conns), op.id, op.topic);
        }
      } else {
        OthersSubscriptions(maxSubs, front, op);
        FewerAsWritten(SubsOf(s.conns), SubsOf(r.conns));
      }
    }
  }

  lemma MatchesIffFor(r: Resolved, ch: Change)
    requires ParsedAsWritten(r)
    ensures Matches(r, ch) <==> IsFor(r.spec, ch)
  {
    if r.spec.filter.Some? {
      Topics.ParsedIsPrintable(r.spec.filter.value);
      var f := r.parsed.value;
      if RowOf(ch).Some? {
        var row := RowOf(ch).value;
        SelectsIffMeets(f, row);
      }
    }
  }

  lemma SelectsIffMeets(f: Topics.Filter, row: Topics.Record)
    requires Topics.IsFilter(f)
    ensures Topics.Selects(f, row) <==> Meets(f, row)
  {
    if f.InFilter? {
      forall i | 0 <= i < |f.values| ensures f.values[i] != "" { assert Topics.IsListed(f.values[i]); }
    }
  }

  /** The connection holds a filter with this id, and the change is what it was written for. */
  ghost predicate AsksFor(m: Members, id: ConnId, ch: Change, n: SubId) {
    exists t, i :: Holds(m, id, t, i, n) && IsFor(m[id][t].filters[i].spec, ch)
  }

  lemma WantedIffAsked(s: State, ch: Change, id: ConnId, n: SubId)
    requires Ordered(s) && AllAsWritten(SubsOf(s.conns)) && id in s.conns
    ensures Wanted(s.conns[id].subs, s.conns[id].order, ch, n) <==> AsksFor(SubsOf(s.conns), id, ch, n)
  {
    var m, c := SubsOf(s.conns), s.conns[id];
    assert ConnOrdered(c);
    if Wanted(c.subs, c.order, ch, n) {
      var t :| t in c.order && t in c.subs && WantedIn(c.subs[t].filters, ch, n);
      var i :| 0 <= i < |c.subs[t].filters| && WantedAt(c.subs[t].filters[i], ch, n);
      assert Holds(m, id, t, i, n);
      MatchesIffFor(m[id][t].filters[i], ch);
    }
    if AsksFor(m, id, ch, n) {
      var t, i :| Holds(m, id, t, i, n) && IsFor(m[id][t].filters[i].spec, ch);
      MatchesIffFor(m[id][t].filters[i], ch);
      assert WantedAt(c.subs[t].filters[i], ch, n);
      assert WantedIn(c.subs[t].filters, ch, n);
    }
  }

  // ---------- what a fan-out gives to whom ----------

  /** How often `n` was added to the log of `id` from `s` to `r`. */
  function Gain(s: State, r: State, id: ConnId, n: SubId): nat
    requires id in s.conns && id in r.conns && s.conns[id].log <= r.conns[id].log
  {
    IdsIn(r.conns[id].log[|s.conns[id].log|..])[n]
  }

  ghost predicate GainsIf(s: State, r: State, ch: Change, id: ConnId, yes: bool)
    requires id in s.conns
  {
    && id in r.conns && s.conns[id].log <= r.conns[id].log
    && (forall n ::
          Gain(s, r, id, n) == if yes && AsksFor(SubsOf(s.conns), id, ch, n) then 1 else 0)
    && (!yes ==> r.conns[id].log == s.conns[id].log)
  }

  lemma FanOutGains(maxSubs: nat, ops: seq<Op>, ch: Change, table: Table, now: int, o: Oracle, id: ConnId)
    requires id in Run(EMPTY, maxSubs, ops).conns
    ensures var s := Run(EMPTY, maxSubs, ops); var c := s.conns[id];
      GainsIf(s, FanOut(s, ch, table, now, o), ch, id, Visible(c.role, c.claims, ch, table, now, o))
  {
    var s := Run(EMPTY, maxSubs, ops);
    var c := s.conns[id];
    AuthorizedIffVisible(c.role, c.claims, ch, table, now, o);
    EveryRunIsCoherent(maxSubs, ops);
    FiltersAreAsWritten(maxSubs, ops);
    ServeAllLog(s, Snapshot(s, ch), ch, table, now, o, id);
    forall n
      ensures var r := FanOut(s, ch, table, now, o);
        && id in r.conns && s.conns[id].log <= r.conns[id].log
        && Gain(s, r, id, n) ==
             if Visible(c.role, c.claims, ch, table, now, o) && AsksFor(SubsOf(s.conns), id, ch, n) then 1 else 0
    {
      WantedIffAsked(s, ch, id, n);
      FanOutIsExact(maxSubs, ops, ch, table, now, o, id, n);
    }
  }

  /** From the service role nothing is withheld, not even after its token has expired. */
  lemma ServiceRoleGetsAll(maxSubs: nat, ops: seq<Op>, ch: Change, table: Table, now: int, o: Oracle, id: ConnId)
    requires id in Run(EMPTY, maxSubs, ops).conns && Run(EMPTY, maxSubs, ops).conns[id].role == "service_role"
    ensures var s := Run(EMPTY, maxSubs, ops); GainsIf(s, FanOut(s, ch, table, now, o), ch, id, true)
  {
    FanOutGains(maxSubs, ops, ch, table, now, o, id);
  }

  /** Any other role gains nothing once its claims have expired. */
  lemma ExpiredGetsNothing(maxSubs: nat, ops: seq<Op>, ch: Change, table: Table, now: int, o: Oracle, id: ConnId)
    requires id in Run(EMPTY, maxSubs, ops).conns && Run(EMPTY, maxSubs, ops).conns[id].role != "service_role"
    requires var exp := Run(EMPTY, maxSubs, ops).conns[id].claims.exp; exp.Some? && exp.value <= now
    ensures var s := Run(EMPTY, maxSubs, ops); GainsIf(s, FanOut(s, ch, table, now, o), ch, id, false)
  {
    FanOutGains(maxSubs, ops, ch, table, now, o, id);
  }

  ghost predicate Current(c: Conn, now: int) {
    c.role != "service_role" && (c.claims.exp.Some? ==> now < c.claims.exp.value)
  }

  /** An inserted or updated row reaches its subscribers exactly when the database grants its key to role and claims. */
  lemma ProbeDecides(maxSubs: nat, ops: seq<Op>, ch: Change, table: Table, now: int, o: Oracle, id: ConnId,
                     vals: seq<Option<string>>)
    requires id in Run(EMPTY, maxSubs, ops).conns && Current(Run(EMPTY, maxSubs, ops).conns[id], now)
    requires ch.kind != Delete && ch.record.Some? && |vals| == |table.pk|
    requires forall i | 0 <= i < |table.pk| :: table.pk[i] in ch.record.value && vals[i] == ch.record.value[table.pk[i]]
    ensures var s := Run(EMPTY, maxSubs, ops);
      GainsIf(s, FanOut(s, ch, table, now, o), ch, id, o.probe(s.conns[id].role, s.conns[id].claims, vals))
  {
    assert KeyValues(NewRow(ch), table.pk, vals);
    forall other | KeyValues(NewRow(ch), table.pk, other) ensures other == vals {
      assert forall i | 0 <= i < |vals| :: other[i] == vals[i];
    }
    FanOutGains(maxSubs, ops, ch, table, now, o, id);
  }

  /** A notification without one of the key columns reaches nobody but the service role. */
  lemma MissingKeyGetsNothing(maxSubs: nat, ops: seq<Op>, ch: Change, table: Table, now: int, o: Oracle, id: ConnId,
                              i: nat)
    requires id in Run(EMPTY, maxSubs, ops).conns && Run(EMPTY, maxSubs, ops).conns[id].role != "service_role"
    requires ch.kind != Delete && i < |table.pk| && (ch.record.Some? ==> table.pk[i] !in ch.record.value)
    ensures var s := Run(EMPTY, maxSubs, ops); GainsIf(s, FanOut(s, ch, table, now, o), ch, id, false)
  {
    assert table.pk[i] !in NewRow(ch);
    forall vals ensures !KeyValues(NewRow(ch), table.pk, vals) {
      if |vals| == |table.pk| {
        var missing := vals[i];
      }
    }
    FanOutGains(maxSubs, ops, ch, table, now, o, id);
  }

  /** A deleted row reaches its owner: the user its old owner column names, as a UUID or, failing that, as text. */
  lemma OwnerDecides(maxSubs: nat, ops: seq<Op>, ch: Change, table: Table, now: int, o: Oracle, id: ConnId,
                     owner: string, user: string)
    requires id in Run(EMPTY, maxSubs, ops).conns && Current(Run(EMPTY, maxSubs, ops).conns[id], now)
    requires ch.kind == Delete && table.owner.Some? && ch.oldRecord.Some?
    requires table.owner.value in ch.oldRecord.value && ch.oldRecord.value[table.owner.value] == Some(owner)
    requires Run(EMPTY, maxSubs, ops).conns[id].claims.sub == Some(user)
    ensures var s := Run(EMPTY, maxSubs, ops);
      GainsIf(s, FanOut(s, ch, table, now, o), ch, id,
              if o.uuid(owner).Some? && o.uuid(user).Some? then o.uuid(owner) == o.uuid(user) else owner == user)
  {
    assert OwnedBy(ch, table, owner);
    assert forall v | OwnedBy(ch, table, v) :: v == owner;
    FanOutGains(maxSubs, ops, ch, table, now, o, id);
  }

  /** Without an owner column, an owner in the old row, or a user in the claims, a deletion reaches nobody else. */
  lemma OwnerlessGetsNothing(maxSubs: nat, ops: seq<Op>, ch: Change, table: Table, now: int, o: Oracle, id: ConnId)
    requires id in Run(EMPTY, maxSubs, ops).conns && Run(EMPTY, maxSubs, ops).conns[id].role != "service_role"
    requires ch.kind == Delete
    requires
      || table.owner.None? || ch.oldRecord.None? || table.owner.value !in ch.oldRecord.value
      || ch.oldRecord.value[table.owner.value].None? || Run(EMPTY, maxSubs, ops).conns[id].claims.sub.None?
    ensures var s := Run(EMPTY, maxSubs, ops); GainsIf(s, FanOut(s, ch, table, now, o), ch, id, false)
  {
    assert Run(EMPTY, maxSubs, ops).conns[id].claims.sub.Some? ==> forall v :: !OwnedBy(ch, table, v);
    FanOutGains(maxSubs, ops, ch, table, now, o, id);
  }

  /** With steps during the probes: a candidate is allowed by what its connection is when it is asked for. */
  lemma AskDecides(f: Fan, maxSubs: nat, ch: Change, table: Table, steps: seq<FanStep>, a: nat, cand: Candidate,
                   allowed: bool)
    requires AskedAt(f, maxSubs, ch, table, steps, a, cand, allowed)
    ensures var s := FanRun(f, maxSubs, ch, table, steps[..a]).state;
      allowed <==>
        cand.conn in s.conns &&
        Visible(s.conns[cand.conn].role, s.conns[cand.conn].claims, ch, table, steps[a].now, steps[a].oracle)
  {
    var s := FanRun(f, maxSubs, ch, table, steps[..a]).state;
    if cand.conn in s.conns {
      var c := s.conns[cand.conn];
      AuthorizedIffVisible(c.role, c.claims, ch, table, steps[a].now, steps[a].oracle);
    }
  }
}
