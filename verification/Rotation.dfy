/**
 Life cycle of a set of rotating keys: one section of the secret manifest, or the whole JWT keyset manifest.
 Both manifests keep the same record (an active kid and a list of entries) and change it by the same three
 operations, so the record and its laws are stated once here.
 */
module Rotation {
  import opened Common

  // Clock readings are counted in microseconds; manifest timestamps keep whole seconds only.
  function Micros(seconds: int): int { seconds * 1_000_000 }

  function Second(now: int): int { now / 1_000_000 }

  datatype Status = Active | Verifying | Retired

  datatype Entry = Entry(kid: string, status: Status, retiredAt: Option<int>)

  datatype Section = Section(active: Option<string>, keys: seq<Entry>)

  const EMPTY := Section(None, [])

  predicate HasKid(keys: seq<Entry>, kid: string) {
    exists i :: 0 <= i < |keys| && keys[i].kid == kid
  }

  // ---------- the three operations ----------

  /** The list after every entry named `kid` has become the active one. */
  function Promote(keys: seq<Entry>, kid: string): seq<Entry> {
    seq(|keys|, i requires 0 <= i < |keys| => if keys[i].kid == kid then Entry(kid, Active, None) else keys[i])
  }

  function Retire(keys: seq<Entry>, kid: Option<string>, second: int): seq<Entry> {
    seq(|keys|, i requires 0 <= i < |keys| =>
      if Some(keys[i].kid) == kid then Entry(keys[i].kid, Retired, Some(second)) else keys[i])
  }

  /** A new key joins as `verifying`; the first key of all becomes active at once. */
  function Add(s: Section, kid: string): Section {
    var keys := if HasKid(s.keys, kid) then s.keys else s.keys + [Entry(kid, Verifying, None)];
    if s.active.None? then Section(Some(kid), Promote(keys, kid)) else Section(s.active, keys)
  }

  /** `kid` becomes active and the previously active key retires; an unknown `kid` is refused. */
  function Activate(s: Section, kid: string, now: int): Result<Section, string> {
    if !HasKid(s.keys, kid) then Err(kid)
    else
      var keys := if s.active == Some(kid) then s.keys else Retire(s.keys, s.active, Second(now));
      Ok(Section(Some(kid), Promote(keys, kid)))
  }

  predicate PastGrace(e: Entry, now: int, grace: nat) {
    e.retiredAt.Some? && now - Micros(e.retiredAt.value) >= Micros(grace)
  }

  predicate Prunable(e: Entry, now: int, grace: nat, force: bool) {
    e.status == Retired && (force || PastGrace(e, now, grace))
  }

  function Surviving(keys: seq<Entry>, now: int, grace: nat, force: bool): (r: seq<Entry>)
    ensures forall e :: e in r <==> e in keys && !Prunable(e, now, grace, force)
  {
    if keys == [] then []
    else
      var rest := Surviving(keys[..|keys| - 1], now, grace, force);
      var last := keys[|keys| - 1];
      assert keys == keys[..|keys| - 1] + [last];
      if Prunable(last, now, grace, force) then rest else rest + [last]
  }

  function PrunedKids(keys: seq<Entry>, now: int, grace: nat, force: bool): (r: seq<string>)
    ensures forall kid :: kid in r <==> exists e :: e in keys && Prunable(e, now, grace, force) && e.kid == kid
  {
    if keys == [] then []
    else
      var rest := PrunedKids(keys[..|keys| - 1], now, grace, force);
      var last := keys[|keys| - 1];
      assert keys == keys[..|keys| - 1] + [last];
      if Prunable(last, now, grace, force) then rest + [last.kid] else rest
  }

  function Prune(s: Section, now: int, grace: nat, force: bool): Section {
    var keys := Surviving(s.keys, now, grace, force);
    if s.active.Some? && s.active.value in PrunedKids(s.keys, now, grace, force) then Section(None, keys)
    else Section(s.active, keys)
  }

  // ---------- what every manifest keeps ----------

  ghost predicate UniqueKids(keys: seq<Entry>) {
    forall i, j :: 0 <= i < j < |keys| ==> keys[i].kid != keys[j].kid
  }

  /** Kids are unique, the active pointer names exactly the one active entry, and retirements are dated. */
  ghost predicate Good(s: Section) {
    && UniqueKids(s.keys)
    && (forall i :: 0 <= i < |s.keys| ==> (s.keys[i].status == Active <==> s.active == Some(s.keys[i].kid)))
    && (forall i :: 0 <= i < |s.keys| ==> (s.keys[i].status == Retired <==> s.keys[i].retiredAt.Some?))
    && (s.active.Some? ==> HasKid(s.keys, s.active.value))
    && (s.active.None? ==> s.keys == [])
  }

  lemma AddKeepsGood(s: Section, kid: string)
    requires Good(s)
    ensures Good(Add(s, kid))
    ensures HasKid(Add(s, kid).keys, kid)
    ensures s.active.Some? ==> Add(s, kid).active == s.active
  {
    var keys := if HasKid(s.keys, kid) then s.keys else s.keys + [Entry(kid, Verifying, None)];
    if !HasKid(s.keys, kid) {
      assert keys[|s.keys|].kid == kid;
    }
    assert HasKid(keys, kid);
    var k :| 0 <= k < |keys| && keys[k].kid == kid;
    assert Promote(keys, kid)[k].kid == kid;
    if s.active.Some? {
      var a :| 0 <= a < |s.keys| && s.keys[a].kid == s.active.value;
      assert keys[a].kid == s.active.value;
    }
  }

  lemma ActivateKeepsGood(s: Section, kid: string, now: int)
    requires Good(s) && HasKid(s.keys, kid)
    ensures Good(Activate(s, kid, now).value)
  {
    var k :| 0 <= k < |s.keys| && s.keys[k].kid == kid;
    var r := Activate(s, kid, now).value;
    assert r.keys[k].kid == kid;
  }

  lemma {:induction false} SurvivingIsSublist(keys: seq<Entry>, now: int, grace: nat, force: bool)
    requires UniqueKids(keys)
    ensures UniqueKids(Surviving(keys, now, grace, force))
  {
    if keys != [] {
      var front := keys[..|keys| - 1];
      SurvivingIsSublist(front, now, grace, force);
      forall e | e in Surviving(front, now, grace, force) ensures e.kid != keys[|keys| - 1].kid {
        var i :| 0 <= i < |front| && front[i] == e;
        assert keys[i].kid != keys[|keys| - 1].kid;
      }
    }
  }

  lemma PruneKeepsGood(s: Section, now: int, grace: nat, force: bool)
    requires Good(s)
    ensures Good(Prune(s, now, grace, force))
    ensures Prune(s, now, grace, force).active == s.active
  {
    SurvivingIsSublist(s.keys, now, grace, force);
    var kept := Surviving(s.keys, now, grace, force);
    forall e | e in s.keys
      ensures (e.status == Active <==> s.active == Some(e.kid)) && (e.status == Retired <==> e.retiredAt.Some?)
    {
      var i :| 0 <= i < |s.keys| && s.keys[i] == e;
    }
    if s.active.Some? {
      var a :| 0 <= a < |s.keys| && s.keys[a].kid == s.active.value;
      assert s.keys[a] in s.keys && s.keys[a].status == Active;
      assert s.keys[a] in kept;
      var b :| 0 <= b < |kept| && kept[b] == s.keys[a];
      assert kept[b].kid == s.active.value;
    }
  }

  // ---------- what each operation does to a well-formed manifest ----------

  /** The named key signs from now on; the one that signed before, if another, retires at this second. */
  ghost predicate Activates(s: Section, r: Section, kid: string, now: int) {
    && HasKid(s.keys, kid) && r.active == Some(kid) && |r.keys| == |s.keys|
    && forall i | 0 <= i < |s.keys| :: ActivatedEntry(s.active, s.keys[i], r.keys[i], kid, now)
  }

  predicate ActivatedEntry(before: Option<string>, e: Entry, r: Entry, kid: string, now: int) {
    && r.kid == e.kid
    && (e.kid == kid ==> r.status == Active && r.retiredAt == None)
    && (e.kid != kid && before == Some(e.kid) ==> r.status == Retired && r.retiredAt == Some(now / 1_000_000))
    && (e.kid != kid && before != Some(e.kid) ==> r == e)
  }

  /** A new key is listed last and waits as verifying; the first key of all signs at once. A known kid adds nothing. */
  ghost predicate Adds(s: Section, r: Section, kid: string) {
    if s.active.None? then r == Section(Some(kid), [Entry(kid, Active, None)])
    else r == Section(s.active, if HasKid(s.keys, kid) then s.keys else s.keys + [Entry(kid, Verifying, None)])
  }

  /** Gone are the retired keys, all of them when forced, else those whose grace has run out; the rest stay in order. */
  ghost predicate Prunes(s: Section, r: Section, now: int, grace: nat, force: bool) {
    && r.active == s.active
    && (forall e :: e in r.keys <==> e in s.keys && !Outlived(e, now, grace, force))
    && InOrderOf(r.keys, s.keys)
  }

  predicate Outlived(e: Entry, now: int, grace: nat, force: bool) {
    e.status == Retired && (force || (e.retiredAt.Some? && (e.retiredAt.value + grace) * 1_000_000 <= now))
  }

  /** `a` is `b` with some entries left out. */
  predicate InOrderOf(a: seq<Entry>, b: seq<Entry>) {
    if b == [] then a == []
    else if a != [] && a[|a| - 1] == b[|b| - 1] then InOrderOf(a[..|a| - 1], b[..|b| - 1])
    else InOrderOf(a, b[..|b| - 1])
  }

  lemma ActivateActivates(s: Section, kid: string, now: int)
    ensures Activate(s, kid, now).Ok? <==> HasKid(s.keys, kid)
    ensures Activate(s, kid, now).Ok? ==> Activates(s, Activate(s, kid, now).value, kid, now)
  {
  }

  /** The description leaves no choice. */
  lemma ActivatesIsUnique(s: Section, r: Section, q: Section, kid: string, now: int)
    requires Activates(s, r, kid, now) && Activates(s, q, kid, now)
    ensures r == q
  {
    forall i | 0 <= i < |s.keys| ensures r.keys[i] == q.keys[i] {
      assert ActivatedEntry(s.active, s.keys[i], r.keys[i], kid, now);
      assert ActivatedEntry(s.active, s.keys[i], q.keys[i], kid, now);
    }
  }

  lemma {:induction false} SurvivingInOrder(keys: seq<Entry>, now: int, grace: nat, force: bool)
    requires UniqueKids(keys)
    ensures InOrderOf(Surviving(keys, now, grace, force), keys)
  {
    if keys != [] {
      var front, last := keys[..|keys| - 1], keys[|keys| - 1];
      SurvivingInOrder(front, now, grace, force);
      var kept := Surviving(front, now, grace, force);
      if Prunable(last, now, grace, force) {
        assert kept != [] ==> kept[|kept| - 1] in kept && !Prunable(kept[|kept| - 1], now, grace, force);
      } else {
        assert (kept + [last])[..|kept|] == kept;
      }
    }
  }

  /** In every reachable manifest each operation does what its description says. */
  lemma OperationsDoAsDescribed(grace: nat, steps: seq<Timed>, step: Timed)
    ensures var s := Run(EMPTY, grace, steps);
      var r := Run(EMPTY, grace, steps + [step]);
      match step.op
      case AddOp(kid) => Adds(s, r, kid)
      case ActivateOp(kid) => if HasKid(s.keys, kid) then Activates(s, r, kid, step.now) else r == s
      case PruneOp(force) => Prunes(s, r, step.now, grace, force)
  {
    EveryRunIsGood(grace, steps);
    assert (steps + [step])[..|steps|] == steps;
    var s := Run(EMPTY, grace, steps);
    match step.op {
      case AddOp(kid) => AddAdds(s, kid);
      case ActivateOp(kid) => ActivateActivates(s, kid, step.now);
      case PruneOp(force) =>
        PruneKeepsGood(s, step.now, grace, force);
        SurvivingInOrder(s.keys, step.now, grace, force);
    }
  }

  lemma AddAdds(s: Section, kid: string)
    requires Good(s)
    ensures Adds(s, Add(s, kid), kid)
  {
    if s.active.None? {
      assert Add(s, kid).keys == [Entry(kid, Active, None)];
    }
  }

  // ---------- runs ----------

  datatype Op = AddOp(kid: string) | ActivateOp(kid: string) | PruneOp(force: bool)

  datatype Timed = At(now: int, op: Op)

  function Step(s: Section, grace: nat, step: Timed): Section {
    match step.op
    case AddOp(kid) => Add(s, kid)
    case ActivateOp(kid) => (match Activate(s, kid, step.now) case Ok(t) => t case Err(_) => s)
    case PruneOp(force) => Prune(s, step.now, grace, force)
  }

  function Run(s: Section, grace: nat, steps: seq<Timed>): Section {
    if steps == [] then s else Step(Run(s, grace, steps[..|steps| - 1]), grace, steps[|steps| - 1])
  }

  lemma StepKeepsGood(s: Section, grace: nat, step: Timed)
    requires Good(s)
    ensures Good(Step(s, grace, step))
  {
    match step.op
    case AddOp(kid) => AddKeepsGood(s, kid);
    case ActivateOp(kid) => if HasKid(s.keys, kid) { ActivateKeepsGood(s, kid, step.now); }
    case PruneOp(force) => PruneKeepsGood(s, step.now, grace, force);
  }

  /** Every run from the empty manifest, forced prunes included, keeps the manifest well formed. */
  lemma {:induction false} EveryRunIsGood(grace: nat, steps: seq<Timed>)
    ensures Good(Run(EMPTY, grace, steps))
  {
    if steps != [] {
      EveryRunIsGood(grace, steps[..|steps| - 1]);
      StepKeepsGood(Run(EMPTY, grace, steps[..|steps| - 1]), grace, steps[|steps| - 1]);
    }
  }

  /** A scaffolded or legacy-imported manifest is what one rotation makes of the empty one. */
  lemma ImportedIsReachable(grace: nat, kid: string)
    ensures Run(EMPTY, grace, [At(0, AddOp(kid))]) == Section(Some(kid), [Entry(kid, Active, None)])
  {
    var steps := [At(0, AddOp(kid))];
    assert steps[..|steps| - 1] == [];
    assert Run(EMPTY, grace, steps[..0]) == EMPTY;
    assert Add(EMPTY, kid).keys == [Entry(kid, Active, None)];
  }

  /** Nothing but an activation changes who signs. */
  lemma {:induction false} SignerStays(s: Section, grace: nat, steps: seq<Timed>)
    requires Good(s) && s.active.Some? && forall i | 0 <= i < |steps| :: !steps[i].op.ActivateOp?
    ensures Good(Run(s, grace, steps)) && Run(s, grace, steps).active == s.active
  {
    if steps != [] {
      var mid := Run(s, grace, steps[..|steps| - 1]);
      SignerStays(s, grace, steps[..|steps| - 1]);
      StepKeepsGood(mid, grace, steps[|steps| - 1]);
      match steps[|steps| - 1].op {
        case AddOp(kid) => AddKeepsGood(mid, kid);
        case PruneOp(force) => PruneKeepsGood(mid, steps[|steps| - 1].now, grace, force);
      }
    }
  }

  // ---------- acceptance windows ----------

  // Storage and OAuth secrets verify while active or within the grace window after retirement;
  // a JWT key verifies for as long as the manifest lists it at all.
  datatype Mode = WithinGrace | WhileListed

  predicate EntryAccepts(mode: Mode, e: Entry, now: int, grace: nat) {
    match mode
    case WhileListed => true
    case WithinGrace => e.status == Active || (e.status == Retired && e.retiredAt.Some? && !PastGrace(e, now, grace))
  }

  predicate Accepts(mode: Mode, s: Section, kid: string, now: int, grace: nat) {
    exists i :: 0 <= i < |s.keys| && s.keys[i].kid == kid && EntryAccepts(mode, s.keys[i], now, grace)
  }

  /** Times never go back, and all fall between `from` and `to`. */
  ghost predicate InOrder(from: int, steps: seq<Timed>, to: int) {
    && from <= to
    && (forall i :: 0 <= i < |steps| ==> from <= steps[i].now <= to)
    && (forall i, j :: 0 <= i < j < |steps| ==> steps[i].now <= steps[j].now)
  }

  ghost predicate NoForcedPrune(steps: seq<Timed>) {
    forall i :: 0 <= i < |steps| ==> steps[i].op != PruneOp(true)
  }

  /** An entry of `kid` that is active, or was retired no earlier than the second of `signed`. */
  predicate FreshEntry(e: Entry, kid: string, signed: int) {
    e.kid == kid &&
    (e.status == Active || (e.status == Retired && e.retiredAt.Some? && Second(signed) <= e.retiredAt.value))
  }

  ghost predicate Fresh(s: Section, kid: string, signed: int) {
    exists i :: 0 <= i < |s.keys| && FreshEntry(s.keys[i], kid, signed)
  }

  lemma StepKeepsFresh(s: Section, grace: nat, step: Timed, kid: string, signed: int)
    requires Good(s) && Fresh(s, kid, signed)
    requires signed <= step.now < Micros(Second(signed) + grace)
    requires step.op != PruneOp(true)
    ensures Fresh(Step(s, grace, step), kid, signed)
  {
    var i :| 0 <= i < |s.keys| && FreshEntry(s.keys[i], kid, signed);
    var after := Step(s, grace, step);
    match step.op
    case AddOp(k) =>
      assert s.active.Some?;
      assert FreshEntry(after.keys[i], kid, signed);
    case ActivateOp(k) =>
      if HasKid(s.keys, k) {
        assert FreshEntry(after.keys[i], kid, signed);
      }
    case PruneOp(force) =>
      assert !Prunable(s.keys[i], step.now, grace, force);
      assert s.keys[i] in after.keys;
      var j :| 0 <= j < |after.keys| && after.keys[j] == s.keys[i];
      assert FreshEntry(after.keys[j], kid, signed);
  }

  lemma {:induction false} RunKeepsFresh(s: Section, grace: nat, steps: seq<Timed>, kid: string, signed: int, to: int)
    requires Good(s) && Fresh(s, kid, signed)
    requires InOrder(signed, steps, to) && NoForcedPrune(steps)
    requires to < Micros(Second(signed) + grace)
    ensures Good(Run(s, grace, steps)) && Fresh(Run(s, grace, steps), kid, signed)
  {
    if steps != [] {
      var front := steps[..|steps| - 1];
      RunKeepsFresh(s, grace, front, kid, signed, to);
      StepKeepsGood(Run(s, grace, front), grace, steps[|steps| - 1]);
      StepKeepsFresh(Run(s, grace, front), grace, steps[|steps| - 1], kid, signed);
    }
  }

  /** What was signed at `signed` under the then active key is accepted at `now`, later in the same run. */
  ghost predicate StillAccepted(mode: Mode, grace: nat, before: seq<Timed>, signed: int, after: seq<Timed>, now: int) {
    var s := Run(EMPTY, grace, before);
    s.active.Some? ==> Accepts(mode, Run(s, grace, after), s.active.value, now, grace)
  }

  /** In every run without forced prunes, a signature is accepted until `window` seconds after it was made. */
  ghost predicate AlwaysAccepted(mode: Mode, grace: nat, window: int) {
    forall before, signed, after, now ::
      InOrder(signed, after, now) && NoForcedPrune(after) && now < Micros(Second(signed) + window)
      ==> StillAccepted(mode, grace, before, signed, after, now)
  }

  lemma AcceptedThroughoutWindow(mode: Mode, grace: nat, window: int, before: seq<Timed>, signed: int,
                                 after: seq<Timed>, now: int)
    requires window <= grace
    requires InOrder(signed, after, now) && NoForcedPrune(after) && now < Micros(Second(signed) + window)
    ensures StillAccepted(mode, grace, before, signed, after, now)
  {
    var s := Run(EMPTY, grace, before);
    EveryRunIsGood(grace, before);
    if s.active.Some? {
      var kid := s.active.value;
      var a :| 0 <= a < |s.keys| && s.keys[a].kid == kid;
      assert FreshEntry(s.keys[a], kid, signed);
      RunKeepsFresh(s, grace, after, kid, signed, now);
      var t := Run(s, grace, after);
      var i :| 0 <= i < |t.keys| && FreshEntry(t.keys[i], kid, signed);
      assert EntryAccepts(mode, t.keys[i], now, grace);
    }
  }

  /** A run that loses a signature exactly `grace` seconds after it was made. */
  lemma LostAtGrace(mode: Mode, grace: nat)
    ensures !StillAccepted(mode, grace, [At(0, AddOp("a")), At(0, AddOp("b"))], 0,
                           [At(0, ActivateOp("b")), At(Micros(grace), PruneOp(false))], Micros(grace))
  {
    var before := [At(0, AddOp("a")), At(0, AddOp("b"))];
    var after := [At(0, ActivateOp("b")), At(Micros(grace), PruneOp(false))];
    var now := Micros(grace);
    assert before[..1] == [At(0, AddOp("a"))];
    ImportedIsReachable(grace, "a");
    var s := Run(EMPTY, grace, before);
    assert Run(EMPTY, grace, before[..1]) == Section(Some("a"), [Entry("a", Active, None)]);
    assert !HasKid([Entry("a", Active, None)], "b");
    assert s.active == Some("a") && s.keys == [Entry("a", Active, None), Entry("b", Verifying, None)];
    assert after[..1] == [At(0, ActivateOp("b"))];
    assert after[..1][..0] == [];
    assert Run(s, grace, []) == s;
    assert s.keys[1].kid == "b";
    var mid := Run(s, grace, after[..1]);
    assert mid.keys == [Entry("a", Retired, Some(0)), Entry("b", Active, None)];
    var end := Run(s, grace, after);
    assert end == Step(mid, grace, At(now, PruneOp(false)));
    assert Prunable(mid.keys[0], now, grace, false);
    forall e | e in end.keys ensures e.kid != "a" {
      assert e in mid.keys;
    }
  }

  /**
   The rotation promise and its exact limit: signatures outlive every rotation for `window` seconds
   if and only if the window is not longer than the grace period.
   */
  lemma RotationPromise(mode: Mode, grace: nat, window: int)
    ensures AlwaysAccepted(mode, grace, window) <==> window <= grace
  {
    if window <= grace {
      forall before, signed, after, now |
        InOrder(signed, after, now) && NoForcedPrune(after) && now < Micros(Second(signed) + window)
        ensures StillAccepted(mode, grace, before, signed, after, now)
      {
        AcceptedThroughoutWindow(mode, grace, window, before, signed, after, now);
      }
    } else {
      LostAtGrace(mode, grace);
      var after := [At(0, ActivateOp("b")), At(Micros(grace), PruneOp(false))];
      assert InOrder(0, after, Micros(grace)) && NoForcedPrune(after);
    }
  }

  // ---------- the end of acceptance ----------

  /** `kid`, if it is listed at all, retired no later than `second`. */
  predicate RetiredBy(s: Section, kid: string, second: int) {
    forall i | 0 <= i < |s.keys| && s.keys[i].kid == kid ::
      s.keys[i].status == Retired && s.keys[i].retiredAt.Some? && s.keys[i].retiredAt.value <= second
  }

  /** Nobody activates the key again or adds one of its name. */
  ghost predicate LeavesAlone(steps: seq<Timed>, kid: string) {
    forall i | 0 <= i < |steps| :: steps[i].op != ActivateOp(kid) && steps[i].op != AddOp(kid)
  }

  lemma StepKeepsRetired(s: Section, grace: nat, step: Timed, kid: string, second: int)
    requires Good(s) && RetiredBy(s, kid, second) && step.op != ActivateOp(kid) && step.op != AddOp(kid)
    requires s.keys != []
    ensures RetiredBy(Step(s, grace, step), kid, second)
  {
    var r := Step(s, grace, step);
    forall i | 0 <= i < |r.keys| && r.keys[i].kid == kid
      ensures r.keys[i].status == Retired && r.keys[i].retiredAt.Some? && r.keys[i].retiredAt.value <= second
    {
      if step.op.PruneOp? {
        assert r.keys[i] in s.keys;
      }
    }
  }

  lemma StepKeepsKeys(s: Section, grace: nat, step: Timed)
    requires Good(s) && s.keys != []
    ensures Step(s, grace, step).keys != []
  {
    StepKeepsGood(s, grace, step);
    match step.op {
      case AddOp(kid) => AddKeepsGood(s, kid);
      case ActivateOp(kid) =>
      case PruneOp(force) => PruneKeepsGood(s, step.now, grace, force);
    }
  }

  lemma {:induction false} RunKeepsRetired(s: Section, grace: nat, steps: seq<Timed>, kid: string, second: int)
    requires Good(s) && s.keys != [] && RetiredBy(s, kid, second) && LeavesAlone(steps, kid)
    ensures var r := Run(s, grace, steps); Good(r) && r.keys != [] && RetiredBy(r, kid, second)
  {
    if steps != [] {
      var front := steps[..|steps| - 1];
      RunKeepsRetired(s, grace, front, kid, second);
      StepKeepsGood(Run(s, grace, front), grace, steps[|steps| - 1]);
      StepKeepsKeys(Run(s, grace, front), grace, steps[|steps| - 1]);
      StepKeepsRetired(Run(s, grace, front), grace, steps[|steps| - 1], kid, second);
    }
  }

  /**
   A retired secret stops verifying when its grace is over, pruned or not: once another key has been activated at
   `retired`, no later state of any run that leaves it alone accepts it from the end of the grace on.
   */
  lemma RetiredSecretsExpire(grace: nat, before: seq<Timed>, retired: int, next: string, after: seq<Timed>, now: int)
    requires var s := Run(EMPTY, grace, before);
      s.active.Some? && next != s.active.value && HasKid(s.keys, next) && LeavesAlone(after, s.active.value)
    requires Micros(Second(retired) + grace) <= now
    ensures var s := Run(EMPTY, grace, before);
      var activated := Run(s, grace, [At(retired, ActivateOp(next))]);
      !Accepts(WithinGrace, Run(activated, grace, after), s.active.value, now, grace)
  {
    var s := Run(EMPTY, grace, before);
    EveryRunIsGood(grace, before);
    var step := At(retired, ActivateOp(next));
    assert [step][..0] == [] && Run(s, grace, [step]) == Step(s, grace, step);
    SupersededIsRetired(s, next, retired);
    ActivateKeepsGood(s, next, retired);
    RunKeepsRetired(Run(s, grace, [step]), grace, after, s.active.value, Second(retired));
    RetiredIsRefused(Run(Run(s, grace, [step]), grace, after), s.active.value, Second(retired), now, grace);
  }

  lemma SupersededIsRetired(s: Section, next: string, at: int)
    requires s.active.Some? && next != s.active.value && HasKid(s.keys, next)
    ensures var r := Activate(s, next, at).value; r.keys != [] && RetiredBy(r, s.active.value, Second(at))
  {
    ActivateActivates(s, next, at);
    var r := Activate(s, next, at).value;
    forall i | 0 <= i < |r.keys| && r.keys[i].kid == s.active.value
      ensures r.keys[i] == Entry(s.active.value, Retired, Some(Second(at)))
    {
      assert ActivatedEntry(s.active, s.keys[i], r.keys[i], next, at);
    }
  }

  lemma RetiredIsRefused(s: Section, kid: string, second: int, now: int, grace: nat)
    requires RetiredBy(s, kid, second) && Micros(second + grace) <= now
    ensures !Accepts(WithinGrace, s, kid, now, grace)
  {
  }

  // ---------- the list-building loops ----------

  method FindKid(keys: seq<Entry>, kid: string) returns (r: Option<nat>)
    ensures r.Some? ==> r.value < |keys| && keys[r.value].kid == kid
    ensures r.None? ==> !HasKid(keys, kid)
  {
    for i := 0 to |keys|
      invariant forall j :: 0 <= j < i ==> keys[j].kid != kid
    {
      if keys[i].kid == kid { return Some(i); }
    }
    return None;
  }

  /** Retire the previous active entry, then promote the target, entry by entry. */
  method ActivateEntries(s: Section, kid: string, target: nat, now: int) returns (r: Section)
    requires Good(s) && target < |s.keys| && s.keys[target].kid == kid
    ensures Activate(s, kid, now) == Ok(r) && Activates(s, r, kid, now)
  {
    ActivateActivates(s, kid, now);
    var keys := s.keys;
    for i := 0 to |keys|
      invariant |keys| == |s.keys|
      invariant forall j :: i <= j < |keys| ==> keys[j] == s.keys[j]
      invariant forall j :: 0 <= j < i ==>
        keys[j] == (if s.active != Some(kid) && Some(s.keys[j].kid) == s.active
                    then Entry(s.keys[j].kid, Retired, Some(Second(now))) else s.keys[j])
    {
      if Some(keys[i].kid) == s.active && s.active != Some(kid) {
        keys := keys[i := Entry(keys[i].kid, Retired, Some(Second(now)))];
      }
    }
    keys := keys[target := Entry(kid, Active, None)];
    r := Section(Some(kid), keys);
    var spec := Activate(s, kid, now).value;
    forall j | 0 <= j < |keys| ensures keys[j] == spec.keys[j] {
      assert j != target ==> s.keys[j].kid != kid;
    }
    assert r.keys == spec.keys;
  }

  method AddEntry(s: Section, kid: string) returns (r: Section)
    ensures r == Add(s, kid)
  {
    var keys := s.keys;
    var present := FindKid(keys, kid);
    if present.None? { keys := keys + [Entry(kid, Verifying, None)]; }
    if s.active.Some? { return Section(s.active, keys); }
    ghost var before := keys;
    for i := 0 to |keys|
      invariant |keys| == |before|
      invariant forall j :: i <= j < |keys| ==> keys[j] == before[j]
      invariant forall j :: 0 <= j < i ==> keys[j] == Promote(before, kid)[j]
    {
      if keys[i].kid == kid { keys := keys[i := Entry(kid, Active, None)]; }
    }
    assert keys == Promote(before, kid);
    return Section(Some(kid), keys);
  }

  method SplitPrunable(keys: seq<Entry>, now: int, grace: nat, force: bool)
    returns (surviving: seq<Entry>, removed: seq<string>)
    ensures surviving == Surviving(keys, now, grace, force)
    ensures removed == PrunedKids(keys, now, grace, force)
  {
    surviving, removed := [], [];
    for i := 0 to |keys|
      invariant surviving == Surviving(keys[..i], now, grace, force)
      invariant removed == PrunedKids(keys[..i], now, grace, force)
    {
      assert keys[..i + 1][..i] == keys[..i];
      if keys[i].status != Retired {
        surviving := surviving + [keys[i]];
      } else if force || (keys[i].retiredAt.Some? && now - Micros(keys[i].retiredAt.value) >= Micros(grace)) {
        removed := removed + [keys[i].kid];
      } else {
        surviving := surviving + [keys[i]];
      }
    }
    assert keys[..|keys|] == keys;
  }
}
