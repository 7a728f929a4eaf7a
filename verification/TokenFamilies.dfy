/**
 The refresh-token table as a parent-linked forest: a row's id is its position, the parent column names the token
 that was rotated into it, and a family is everything that grew out of one sign-in.
 Tokens stand for their stored sha256 digests.
 */
module TokenFamilies {
  import opened Common

  type UserId = nat
  type Token = nat

  datatype Row = Row(user: UserId, token: Token, parent: Option<Token>, revoked: bool)

  type Table = seq<Row>

  function Revoked(r: Row): Row { r.(revoked := true) }

  /** The row holding `token`. */
  function Lookup(t: Table, token: Token): (r: Option<nat>)
    ensures r.Some? ==> r.value < |t| && t[r.value].token == token
    ensures r.None? ==> forall i :: 0 <= i < |t| ==> t[i].token != token
  {
    if t == [] then None
    else if t[|t| - 1].token == token then Some(|t| - 1)
    else Lookup(t[..|t| - 1], token)
  }

  /** Row `i` was rotated out of row `j`. */
  predicate Links(t: Table, j: nat, i: nat)
    requires i < |t| && j < |t|
  {
    t[i].parent == Some(t[j].token)
  }

  // ---------- the shape every run keeps ----------

  /** Rotation chains: parents exist, belong to the same user, come first, are revoked, and have one child at most. */
  ghost predicate Chained(t: Table) {
    && (forall i, j :: 0 <= i < j < |t| ==> t[i].token != t[j].token)
    && (forall i :: 0 <= i < |t| && t[i].parent.Some? ==> exists j :: 0 <= j < i && Links(t, j, i))
    && (forall j, i :: 0 <= j < |t| && 0 <= i < |t| && Links(t, j, i) ==>
          j < i && t[j].revoked && t[j].user == t[i].user)
    && (forall j, i, k :: 0 <= j < |t| && 0 <= i < |t| && 0 <= k < |t| && Links(t, j, i) && Links(t, j, k) ==> i == k)
  }

  /** The row a row was rotated out of, looked for among the earlier rows. */
  function ParentOf(t: Table, i: nat): (r: Option<nat>)
    requires i < |t|
    ensures r.Some? ==> r.value < i && Links(t, r.value, i)
  {
    if t[i].parent.None? then None else Lookup(t[..i], t[i].parent.value)
  }

  /** The sign-in a row's family started with. */
  function Root(t: Table, i: nat): (r: nat)
    requires i < |t|
    ensures r <= i
  {
    match ParentOf(t, i)
    case None => i
    case Some(j) => Root(t, j)
  }

  /** Row `i` descends from `token` by one or more rotations. */
  predicate Below(t: Table, i: nat, token: Token)
    requires i < |t|
  {
    t[i].parent == Some(token) || (ParentOf(t, i).Some? && Below(t, ParentOf(t, i).value, token))
  }

  // ---------- a family is a chain, ordered by row id ----------

  lemma ParentFound(t: Table, i: nat)
    requires Chained(t) && i < |t|
    ensures ParentOf(t, i).Some? <==> t[i].parent.Some?
  {
    if t[i].parent.Some? {
      var j :| 0 <= j < i && Links(t, j, i);
      assert t[..i][j].token == t[i].parent.value;
    }
  }

  lemma {:induction false} FamilyHasOneUser(t: Table, i: nat)
    requires Chained(t) && i < |t|
    ensures t[Root(t, i)].user == t[i].user && t[Root(t, i)].parent.None?
  {
    ParentFound(t, i);
    if ParentOf(t, i).Some? { FamilyHasOneUser(t, ParentOf(t, i).value); }
  }

  /** A descendant of row `p` comes no earlier than the one row that was rotated out of `p`. */
  lemma {:induction false} DescendsThroughChild(t: Table, i: nat, p: nat) returns (c: nat)
    requires Chained(t) && i < |t| && p < |t| && Below(t, i, t[p].token)
    ensures c <= i && Links(t, p, c) && p < i
  {
    if t[i].parent == Some(t[p].token) {
      c := i;
    } else {
      c := DescendsThroughChild(t, ParentOf(t, i).value, p);
    }
  }

  /** Two members of one family: the later descends from the earlier, which is therefore revoked. */
  lemma {:induction false} FamilyIsChain(t: Table, i: nat, k: nat)
    requires Chained(t) && i < k < |t| && Root(t, i) == Root(t, k)
    ensures Below(t, k, t[i].token) && t[i].revoked
    decreases i + k
  {
    ParentFound(t, i);
    ParentFound(t, k);
    assert ParentOf(t, k).Some?;
    var p := ParentOf(t, k).value;
    if p < i {
      FamilyIsChain(t, p, i);
      var c := DescendsThroughChild(t, i, p);
      assert false;
    } else if i < p {
      FamilyIsChain(t, i, p);
    }
  }

  lemma {:induction false} BelowIsSameFamily(t: Table, i: nat, k: nat)
    requires Chained(t) && i < |t| && k < |t| && Below(t, k, t[i].token)
    ensures Root(t, k) == Root(t, i) && i < k
  {
    ParentFound(t, k);
    var p := ParentOf(t, k).value;
    if t[k].parent != Some(t[i].token) {
      BelowIsSameFamily(t, i, p);
    } else {
      assert t[p].token == t[i].token;
    }
  }

  // ---------- revocation by recursive query ----------

  /** The rows a recursive descendant query marks. */
  function RevokeBelow(t: Table, token: Token): Table {
    seq(|t|, i requires 0 <= i < |t| => if Below(t, i, token) then Revoked(t[i]) else t[i])
  }

  /** The rows the local sign-out marks: the presented one and its descendants. */
  function RevokeFrom(t: Table, id: nat): Table
    requires id < |t|
  {
    seq(|t|, i requires 0 <= i < |t| => if i == id || Below(t, i, t[id].token) then Revoked(t[i]) else t[i])
  }

  function RevokeUser(t: Table, user: UserId): Table {
    seq(|t|, i requires 0 <= i < |t| => if t[i].user == user then Revoked(t[i]) else t[i])
  }

  function RevokeUserExcept(t: Table, user: UserId, id: nat): Table {
    seq(|t|, i requires 0 <= i < |t| => if t[i].user == user && i != id then Revoked(t[i]) else t[i])
  }

  function RevokeRow(t: Table, id: nat): Table {
    seq(|t|, i requires 0 <= i < |t| => if i == id then Revoked(t[i]) else t[i])
  }

  /** The two statements of a rotation: revoke the presented row, insert its child. */
  function Rotate(t: Table, id: nat, issued: Token): Table
    requires id < |t|
  {
    RevokeRow(t, id) + [Row(t[id].user, issued, Some(t[id].token), false)]
  }

  function Issue(t: Table, user: UserId, issued: Token): Table {
    t + [Row(user, issued, None, false)]
  }

  // ---------- what a step may do to the table ----------

  predicate Unused(t: Table, token: Token) {
    forall i :: 0 <= i < |t| ==> t[i].token != token
  }

  /** Rows keep everything but their revoked flag. */
  ghost predicate SameLinks(t: Table, u: Table) {
    |t| <= |u| && forall i :: 0 <= i < |t| ==> u[i].(revoked := false) == t[i].(revoked := false)
  }

  /** One step: nothing is un-revoked, and a row is added either for a new sign-in or under a live row. */
  ghost predicate Evolves(t: Table, u: Table) {
    && SameLinks(t, u)
    && (forall i :: 0 <= i < |t| && t[i].revoked ==> u[i].revoked)
    && |u| <= |t| + 1
    && (|u| == |t| + 1 && u[|t|].parent.Some? ==> exists j :: 0 <= j < |t| && Links(u, j, |t|) && !t[j].revoked)
  }

  lemma {:induction false} LookupStable(t: Table, u: Table, token: Token)
    requires |t| == |u| && forall i :: 0 <= i < |t| ==> t[i].token == u[i].token
    ensures Lookup(t, token) == Lookup(u, token)
  {
    if t != [] { LookupStable(t[..|t| - 1], u[..|u| - 1], token); }
  }

  lemma {:induction false} LinksStable(t: Table, u: Table, i: nat)
    requires SameLinks(t, u) && i < |t|
    ensures ParentOf(u, i) == ParentOf(t, i) && Root(u, i) == Root(t, i)
  {
    if t[i].parent.Some? {
      forall k | 0 <= k < i ensures t[..i][k].token == u[..i][k].token {
        assert u[k].(revoked := false).token == t[k].(revoked := false).token;
      }
      LookupStable(t[..i], u[..i], t[i].parent.value);
    }
    assert u[i].(revoked := false).parent == t[i].(revoked := false).parent;
    if ParentOf(t, i).Some? { LinksStable(t, u, ParentOf(t, i).value); }
  }

  lemma RevokingKeepsChained(t: Table, u: Table)
    requires Chained(t) && SameLinks(t, u) && |u| == |t|
    requires forall i :: 0 <= i < |t| && t[i].revoked ==> u[i].revoked
    ensures Chained(u) && Evolves(t, u)
  {
    forall i | 0 <= i < |t| ensures u[i].token == t[i].token && u[i].parent == t[i].parent && u[i].user == t[i].user {
      assert u[i].(revoked := false) == t[i].(revoked := false);
    }
    assert forall j, i :: 0 <= j < |t| && 0 <= i < |t| ==> (Links(u, j, i) <==> Links(t, j, i));
  }

  lemma NewTokenIsNoParent(t: Table, issued: Token)
    requires Chained(t) && Unused(t, issued)
    ensures forall i :: 0 <= i < |t| ==> t[i].parent != Some(issued)
  {
    forall i | 0 <= i < |t| && t[i].parent.Some? ensures t[i].parent != Some(issued) {
      var j :| 0 <= j < i && Links(t, j, i);
    }
  }

  /** An appended row adds one link at most: from its parent `p`. */
  lemma AppendLinks(t: Table, row: Row, p: nat, j: nat, i: nat)
    requires Chained(t) && Unused(t, row.token) && j <= |t| && i <= |t|
    requires row.parent.Some? ==> p < |t| && row.parent == Some(t[p].token)
    ensures Links(t + [row], j, i) <==>
            (j < |t| && i < |t| && Links(t, j, i)) || (i == |t| && row.parent.Some? && j == p)
  {
    NewTokenIsNoParent(t, row.token);
  }

  /** Adding a row that starts a family, or that is the first child of a revoked row `p` of its user. */
  lemma AppendKeepsChained(t: Table, row: Row, p: nat)
    requires Chained(t) && Unused(t, row.token)
    requires row.parent.Some? ==>
      p < |t| && row.parent == Some(t[p].token) && t[p].revoked && t[p].user == row.user &&
      forall i :: 0 <= i < |t| ==> !Links(t, p, i)
    ensures Chained(t + [row])
  {
    var u := t + [row];
    forall j, i | 0 <= j <= |t| && 0 <= i <= |t|
      ensures Links(u, j, i) <==> (j < |t| && i < |t| && Links(t, j, i)) || (i == |t| && row.parent.Some? && j == p)
    {
      AppendLinks(t, row, p, j, i);
    }
    forall i | 0 <= i < |u| && u[i].parent.Some? ensures exists j :: 0 <= j < i && Links(u, j, i) {
      if i < |t| {
        var j :| 0 <= j < i && Links(t, j, i);
        assert Links(u, j, i);
      } else {
        assert Links(u, p, i);
      }
    }
  }

  lemma IssueKeepsChained(t: Table, user: UserId, issued: Token)
    requires Chained(t) && Unused(t, issued)
    ensures Chained(Issue(t, user, issued)) && Evolves(t, Issue(t, user, issued))
  {
    AppendKeepsChained(t, Row(user, issued, None, false), 0);
  }

  lemma RotateKeepsChained(t: Table, id: nat, issued: Token)
    requires Chained(t) && id < |t| && !t[id].revoked && Unused(t, issued)
    ensures Chained(Rotate(t, id, issued)) && Evolves(t, Rotate(t, id, issued))
  {
    var v := RevokeRow(t, id);
    RevokingKeepsChained(t, v);
    assert forall i :: 0 <= i < |t| ==> (Links(v, id, i) <==> Links(t, id, i));
    AppendKeepsChained(v, Row(t[id].user, issued, Some(t[id].token), false), id);
    assert Links(Rotate(t, id, issued), id, |t|);
  }

  // ---------- dead families ----------

  ghost predicate FamilyDead(t: Table, root: nat) {
    forall i | 0 <= i < |t| :: DeadAt(t, root, i)
  }

  predicate DeadAt(t: Table, root: nat, i: nat)
    requires i < |t|
  {
    Root(t, i) == root ==> t[i].revoked
  }

  lemma NewRowHasLiveParent(t: Table, u: Table)
    requires Chained(u) && Evolves(t, u) && |u| == |t| + 1 && u[|t|].parent.Some?
    ensures ParentOf(u, |t|).Some? && !t[ParentOf(u, |t|).value].revoked
  {
    ParentFound(u, |t|);
    var j :| 0 <= j < |t| && Links(u, j, |t|) && !t[j].revoked;
    assert u[ParentOf(u, |t|).value].token == u[j].token;
  }

  lemma ChildHasRootOfParent(t: Table, u: Table)
    requires Chained(u) && Evolves(t, u) && |u| == |t| + 1 && u[|t|].parent.Some?
    ensures ParentOf(u, |t|).Some? && !t[ParentOf(u, |t|).value].revoked
    ensures Root(u, |t|) == Root(t, ParentOf(u, |t|).value)
  {
    NewRowHasLiveParent(t, u);
    LinksStable(t, u, ParentOf(u, |t|).value);
  }

  /** A row added to a dead family would need a live parent in it. */
  lemma NewRowIsElsewhere(t: Table, u: Table, root: nat)
    requires Chained(u) && Evolves(t, u) && FamilyDead(t, root) && root < |t| && |u| == |t| + 1
    ensures Root(u, |t|) != root
  {
    if u[|t|].parent.Some? {
      ChildHasRootOfParent(t, u);
      assert DeadAt(t, root, ParentOf(u, |t|).value);
    } else {
      assert ParentOf(u, |t|).None?;
    }
  }

  lemma OldRowStaysDead(t: Table, u: Table, root: nat, i: nat)
    requires SameLinks(t, u) && i < |t| && DeadAt(t, root, i) && (t[i].revoked ==> u[i].revoked)
    ensures DeadAt(u, root, i)
  {
    LinksStable(t, u, i);
  }

  /** A family without a live token never has one again, whatever steps follow. */
  lemma DeadStaysDead(t: Table, u: Table, root: nat)
    requires Chained(u) && Evolves(t, u) && FamilyDead(t, root) && root < |t|
    ensures FamilyDead(u, root)
  {
    if |u| == |t| + 1 {
      NewRowIsElsewhere(t, u, root);
    }
    forall i | 0 <= i < |t| ensures DeadAt(u, root, i) {
      assert DeadAt(t, root, i);
      OldRowStaysDead(t, u, root, i);
    }
  }

  /** Presenting a revoked token leaves its whole family without a live token, and no other family changed. */
  lemma ReuseKillsFamily(t: Table, id: nat)
    requires Chained(t) && id < |t| && t[id].revoked
    ensures FamilyDead(RevokeBelow(t, t[id].token), Root(t, id))
    ensures forall i :: 0 <= i < |t| && Root(t, i) != Root(t, id) ==> RevokeBelow(t, t[id].token)[i] == t[i]
  {
    var u := RevokeBelow(t, t[id].token);
    forall i | 0 <= i < |t| ensures DeadAt(u, Root(t, id), i) {
      LinksStable(t, u, i);
      if Root(t, i) == Root(t, id) {
        if i < id { FamilyIsChain(t, i, id); } else if id < i { FamilyIsChain(t, id, i); }
      }
    }
    forall i | 0 <= i < |t| && Root(t, i) != Root(t, id) ensures u[i] == t[i] {
      if Below(t, i, t[id].token) { BelowIsSameFamily(t, id, i); }
    }
  }

  /** Every token of the user is revoked. */
  ghost predicate SignedOutEverywhere(t: Table, user: UserId) {
    forall i | 0 <= i < |t| && t[i].user == user :: t[i].revoked
  }

  /** Presenting a revoked token ends all sessions of its user if and only if the other sessions had already ended. */
  lemma ReuseEndsAllSessionsIff(t: Table, id: nat)
    requires Chained(t) && id < |t| && t[id].revoked
    ensures SignedOutEverywhere(RevokeBelow(t, t[id].token), t[id].user) <==>
            forall i | 0 <= i < |t| && t[i].user == t[id].user && Root(t, i) != Root(t, id) :: t[i].revoked
  {
    var u, root := RevokeBelow(t, t[id].token), Root(t, id);
    ReuseKillsFamily(t, id);
    forall i | 0 <= i < |t| && Root(t, i) == root ensures u[i].revoked {
      LinksStable(t, u, i);
      assert DeadAt(u, root, i);
    }
    if SignedOutEverywhere(u, t[id].user) {
      forall i | 0 <= i < |t| && t[i].user == t[id].user && Root(t, i) != root ensures t[i].revoked {
        assert u[i] == t[i];
      }
    } else {
      var i :| 0 <= i < |u| && u[i].user == t[id].user && !u[i].revoked;
      assert t[i].user == t[id].user && !t[i].revoked;
    }
  }

  /** Two sign-ins, one of them refreshed: replaying its first token leaves the other session live. */
  lemma OtherSessionSurvivesReuse(user: UserId, first: Token, second: Token, other: Token)
    requires first != second && first != other && second != other
    ensures var t := Issue(Rotate(Issue([], user, first), 0, second), user, other);
      && Chained(t) && t[0].token == first && t[0].revoked
      && RevokeBelow(t, first) == [t[0], Revoked(t[1]), t[2]] && !t[2].revoked && t[2].user == user
      && !SignedOutEverywhere(RevokeBelow(t, first), user)
  {
    IssueKeepsChained([], user, first);
    var signedIn := Issue([], user, first);
    RotateKeepsChained(signedIn, 0, second);
    var rotated := Rotate(signedIn, 0, second);
    IssueKeepsChained(rotated, user, other);
    var t := Issue(rotated, user, other);
    assert t == [Row(user, first, None, true), Row(user, second, Some(first), false), Row(user, other, None, false)];
    assert ParentOf(t, 0).None? && ParentOf(t, 2).None?;
    assert Below(t, 1, first) && !Below(t, 0, first) && !Below(t, 2, first);
    var u := RevokeBelow(t, first);
    assert u[2] == t[2];
  }

  /** Signing out locally with any member leaves the family without a live token, and no other family changed. */
  lemma LocalLogoutKillsFamily(t: Table, id: nat)
    requires Chained(t) && id < |t|
    ensures FamilyDead(RevokeFrom(t, id), Root(t, id))
    ensures forall i :: 0 <= i < |t| && Root(t, i) != Root(t, id) ==> RevokeFrom(t, id)[i] == t[i]
  {
    var u := RevokeFrom(t, id);
    forall i | 0 <= i < |t| ensures DeadAt(u, Root(t, id), i) {
      LinksStable(t, u, i);
      if Root(t, i) == Root(t, id) {
        if i < id { FamilyIsChain(t, i, id); } else if id < i { FamilyIsChain(t, id, i); }
      }
    }
    forall i | 0 <= i < |t| && Root(t, i) != Root(t, id) ensures u[i] == t[i] {
      if Below(t, i, t[id].token) { BelowIsSameFamily(t, id, i); }
    }
  }

  // ---------- the unguarded rotating update ----------

  /** The two statements of a rotation keep the chains and do not revive a dead family. */
  ghost predicate SafeRotation(t: Table, id: nat, issued: Token)
    requires id < |t|
  {
    && Chained(Rotate(t, id, issued))
    && (FamilyDead(t, Root(t, id)) ==> FamilyDead(Rotate(t, id, issued), Root(t, id)))
  }

  lemma RotatedRoot(t: Table, id: nat, issued: Token)
    requires Chained(t) && id < |t| && Unused(t, issued)
    ensures Root(Rotate(t, id, issued), |t|) == Root(t, id)
  {
    var u := Rotate(t, id, issued);
    LinksStable(t, u, id);
    assert u[..|t|][id].token == t[id].token;
    var p := ParentOf(u, |t|);
    assert p.Some? && p.value < |t| && t[p.value].token == u[p.value].token == t[id].token;
  }

  lemma LeafEndsFamilyAt(t: Table, id: nat, k: nat)
    requires Chained(t) && id < |t| && k < |t| && t[id].revoked && Root(t, k) == Root(t, id)
    requires forall c | 0 <= c < |t| :: !Links(t, id, c)
    ensures t[k].revoked
  {
    if k < id {
      FamilyIsChain(t, k, id);
    } else if id < k {
      FamilyIsChain(t, id, k);
      var c := DescendsThroughChild(t, k, id);
      assert false;
    }
  }

  /** A revoked row without a child is the last of its family, and the rest were revoked when they were rotated. */
  lemma LeafEndsFamily(t: Table, id: nat)
    requires Chained(t) && id < |t| && t[id].revoked && forall c | 0 <= c < |t| :: !Links(t, id, c)
    ensures FamilyDead(t, Root(t, id))
  {
    forall k | 0 <= k < |t| && Root(t, k) == Root(t, id) ensures t[k].revoked {
      LeafEndsFamilyAt(t, id, k);
    }
  }

  /**
   The row is read before the transaction that rotates it. The rotation is safe if and only if the row is still
   live when the update runs, which the update itself does not check.
   */
  lemma RotationIsSafeIffStillLive(t: Table, id: nat, issued: Token)
    requires Chained(t) && id < |t| && Unused(t, issued)
    ensures SafeRotation(t, id, issued) <==> !t[id].revoked
  {
    var u := Rotate(t, id, issued);
    RotatedRoot(t, id, issued);
    if !t[id].revoked {
      RotateKeepsChained(t, id, issued);
      assert !DeadAt(t, Root(t, id), id);
    } else if c :| 0 <= c < |t| && Links(t, id, c) {
      assert Links(u, id, c) && Links(u, id, |t|);
    } else {
      LeafEndsFamily(t, id);
      assert !DeadAt(u, Root(t, id), |t|);
    }
  }

  /** Two refreshes that both read the row live, one after the other, fork the family into two live tokens. */
  lemma RacingRefreshesFork(user: UserId, first: Token, second: Token, third: Token)
    requires first != second && first != third && second != third
    ensures var t := Issue([], user, first);
      Chained(t) && !t[0].revoked && Chained(Rotate(t, 0, second)) &&
      var u := Rotate(Rotate(t, 0, second), 0, third);
      !Chained(u) && !u[1].revoked && !u[2].revoked && Root(u, 1) == Root(u, 2) == 0
  {
    var t := Issue([], user, first);
    IssueKeepsChained([], user, first);
    RotateKeepsChained(t, 0, second);
    var v := Rotate(t, 0, second);
    var u := Rotate(v, 0, third);
    assert u[1] == Row(user, second, Some(first), false) && u[2] == Row(user, third, Some(first), false);
    RotatedRoot(v, 0, third);
    RotatedRoot(t, 0, second);
    LinksStable(v, u, 1);
    assert Links(u, 0, 1) && Links(u, 0, 2);
  }

  // A set of rows that no child link leads out of.
  ghost predicate ClosedUnderChildren(t: Table, ids: set<nat>) {
    forall j, i :: 0 <= j < |t| && 0 <= i < |t| && j in ids && Links(t, j, i) ==> i in ids
  }

  lemma {:induction false} ClosedSetHasDescendants(t: Table, ids: set<nat>, token: Token, i: nat)
    requires i < |t| && ClosedUnderChildren(t, ids)
    requires forall k :: 0 <= k < |t| && t[k].parent == Some(token) ==> k in ids
    requires Below(t, i, token)
    ensures i in ids
  {
    if t[i].parent != Some(token) {
      ClosedSetHasDescendants(t, ids, token, ParentOf(t, i).value);
      assert Links(t, ParentOf(t, i).value, i);
    }
  }

  function ChildrenOf(t: Table, ids: set<nat>): set<nat>
    requires forall j :: j in ids ==> j < |t|
  {
    set i, j | 0 <= i < |t| && j in ids && Links(t, j, i) :: i
  }

  /**
   The recursive query, evaluated as the database does it: each round joins the rows of the previous round with
   their children. It ends because parents come before their children, and finds exactly the descendants of `token`
   when started from its children.
   */
  method Closure(t: Table, start: set<nat>, ghost token: Token) returns (ids: set<nat>)
    requires Chained(t)
    requires forall i :: i in start ==> i < |t|
    ensures start <= ids && forall i :: i in ids ==> i < |t|
    ensures ClosedUnderChildren(t, ids)
    ensures (forall i :: i in start ==> Below(t, i, token)) ==> forall i :: i in ids ==> Below(t, i, token)
  {
    var work := start;
    ids := start;
    ghost var round := 0;
    while work != {}
      invariant start <= ids && work <= ids
      invariant forall i :: i in ids ==> i < |t|
      invariant forall i :: i in work ==> round <= i
      invariant forall j, i :: 0 <= j < |t| && 0 <= i < |t| && j in ids - work && Links(t, j, i) ==> i in ids
      invariant (forall i :: i in start ==> Below(t, i, token)) ==> forall i :: i in ids ==> Below(t, i, token)
      decreases |t| - round
    {
      var next := ChildrenOf(t, work);
      forall i | i in next ensures round < i {
        var j :| j in work && Links(t, j, i);
      }
      if forall i :: i in start ==> Below(t, i, token) {
        forall i | i in next ensures Below(t, i, token) {
          var j :| j in work && Links(t, j, i);
          ChildIsBelow(t, j, i, token);
        }
      }
      work := next;
      ids := ids + next;
      round := round + 1;
    }
  }

  lemma ChildIsBelow(t: Table, j: nat, i: nat, token: Token)
    requires Chained(t) && i < |t| && j < |t| && Links(t, j, i) && Below(t, j, token)
    ensures Below(t, i, token)
  {
    ParentFound(t, i);
    assert t[ParentOf(t, i).value].token == t[j].token;
  }

  method MarkRevoked(t: Table, ids: set<nat>) returns (r: Table)
    ensures r == seq(|t|, i requires 0 <= i < |t| => if i in ids then Revoked(t[i]) else t[i])
  {
    r := t;
    for i := 0 to |t|
      invariant |r| == |t|
      invariant forall j :: 0 <= j < |t| ==> r[j] == if j < i && j in ids then Revoked(t[j]) else t[j]
    {
      if i in ids { r := r[i := Revoked(r[i])]; }
    }
  }

  /** Reuse detection: revoke every descendant of the presented token, and nothing else. */
  method RevokeDescendants(t: Table, token: Token) returns (r: Table)
    requires Chained(t)
    ensures r == RevokeBelow(t, token)
  {
    var start := set i | 0 <= i < |t| && t[i].parent == Some(token);
    var ids := Closure(t, start, token);
    forall i | 0 <= i < |t| ensures i in ids <==> Below(t, i, token) {
      if Below(t, i, token) { ClosedSetHasDescendants(t, ids, token, i); }
    }
    r := MarkRevoked(t, ids);
  }

  /** Local sign-out: revoke the presented row and its descendants, and nothing else. */
  method RevokeChain(t: Table, id: nat) returns (r: Table)
    requires Chained(t) && id < |t|
    ensures r == RevokeFrom(t, id)
  {
    var children := set i | 0 <= i < |t| && Links(t, id, i);
    var below := Closure(t, children, t[id].token);
    var ids := {id} + below;
    forall i | 0 <= i < |t| ensures i in ids <==> i == id || Below(t, i, t[id].token) {
      if Below(t, i, t[id].token) { ClosedSetHasDescendants(t, below, t[id].token, i); }
    }
    r := MarkRevoked(t, ids);
  }
}
