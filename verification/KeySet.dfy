/** The JWT keyset manifest, and the access tokens signed and decoded under it. */
module KeySet {
  import opened Common
  import opened Rotation

  datatype KeyError = NoManifest | UnknownKid | NoActiveKid | DanglingKid | Expired | NoKey

  // Seconds of clock skew the decoder forgives.
  const LEEWAY_SECONDS := 30

  datatype AccessToken = AccessToken(kid: string, exp: int)

  /** The kid the signing key is loaded for. */
  function SigningKid(s: Section): Result<string, KeyError> {
    if s.active.None? then Err(NoActiveKid)
    else if !HasKid(s.keys, s.active.value) then Err(DanglingKid)
    else Ok(s.active.value)
  }

  function Issue(s: Section, ttl: nat, now: int): Result<AccessToken, KeyError> {
    match SigningKid(s)
    case Err(e) => Err(e)
    case Ok(kid) => Ok(AccessToken(kid, Second(now + Micros(ttl))))
  }

  function Decode(s: Section, token: AccessToken, now: int): Result<(), KeyError> {
    if !HasKid(s.keys, token.kid) then Err(UnknownKid)
    else if now >= Micros(token.exp + LEEWAY_SECONDS) then Err(Expired)
    else Ok(())
  }

  /** Along every run the signer never meets its missing-active errors. */
  lemma SigningNeverFails(grace: nat, steps: seq<Timed>)
    ensures Run(EMPTY, grace, steps).keys != [] ==> SigningKid(Run(EMPTY, grace, steps)).Ok?
  {
    EveryRunIsGood(grace, steps);
  }

  /** A token issued at `signed` still decodes at `now`, later in the same run. */
  ghost predicate StillDecodes(grace: nat, ttl: nat, before: seq<Timed>, signed: int, after: seq<Timed>, now: int) {
    var s := Run(EMPTY, grace, before);
    Issue(s, ttl, signed).Ok? ==> Decode(Run(s, grace, after), Issue(s, ttl, signed).value, now).Ok?
  }

  /** In every run without forced prunes, tokens decode until `slack` seconds after their expiry. */
  ghost predicate AlwaysDecodes(grace: nat, ttl: nat, slack: int) {
    forall before, signed, after, now ::
      InOrder(signed, after, now) && NoForcedPrune(after) && now < Micros(Second(signed + Micros(ttl)) + slack)
      ==> StillDecodes(grace, ttl, before, signed, after, now)
  }

  lemma DecodesWhileListed(grace: nat, ttl: nat, before: seq<Timed>, signed: int, after: seq<Timed>, now: int)
    requires now < Micros(Second(signed + Micros(ttl)) + LEEWAY_SECONDS)
    ensures StillDecodes(grace, ttl, before, signed, after, now) <==>
            StillAccepted(WhileListed, grace, before, signed, after, now)
  {
    EveryRunIsGood(grace, before);
    var t := Run(Run(EMPTY, grace, before), grace, after);
    assert forall kid :: HasKid(t.keys, kid) <==> Accepts(WhileListed, t, kid, now, grace) by {
      forall kid ensures HasKid(t.keys, kid) <==> Accepts(WhileListed, t, kid, now, grace) {
        if HasKid(t.keys, kid) {
          var i :| 0 <= i < |t.keys| && t.keys[i].kid == kid;
          assert EntryAccepts(WhileListed, t.keys[i], now, grace);
        }
      }
    }
  }

  lemma DecodesIffAccepted(grace: nat, ttl: nat, slack: nat)
    requires slack <= LEEWAY_SECONDS
    ensures AlwaysDecodes(grace, ttl, slack) <==> AlwaysAccepted(WhileListed, grace, ttl + slack)
  {
    forall before, signed, after, now | now < Micros(Second(signed + Micros(ttl)) + slack)
      ensures StillDecodes(grace, ttl, before, signed, after, now) <==>
              StillAccepted(WhileListed, grace, before, signed, after, now)
    {
      DecodesWhileListed(grace, ttl, before, signed, after, now);
    }
  }

  /**
   The exact limit of the promise for access tokens. With `slack` 0 it covers the lifetime itself, which must not
   exceed the grace window; with `slack` 30 it covers the decoder's leeway as well.
   */
  lemma AccessTokenPromise(grace: nat, ttl: nat, slack: nat)
    requires slack <= LEEWAY_SECONDS
    ensures AlwaysDecodes(grace, ttl, slack) <==> ttl + slack <= grace
  {
    DecodesIffAccepted(grace, ttl, slack);
    RotationPromise(WhileListed, grace, ttl + slack);
  }

  lemma ActiveSigns(s: Section, kid: string, ttl: nat, now: int)
    requires Good(s) && s.active == Some(kid)
    ensures Issue(s, ttl, now) == Ok(AccessToken(kid, (now + ttl * 1_000_000) / 1_000_000))
  {
  }

  lemma ActivationTakes(grace: nat, before: seq<Timed>, kid: string, at: int)
    requires HasKid(Run(EMPTY, grace, before).keys, kid)
    ensures var s := Run(EMPTY, grace, before + [At(at, ActivateOp(kid))]); Good(s) && s.active == Some(kid)
  {
    OperationsDoAsDescribed(grace, before, At(at, ActivateOp(kid)));
    EveryRunIsGood(grace, before + [At(at, ActivateOp(kid))]);
  }

  /** After `activate kid`, and until the next activation, tokens carry `kid` and their own lifetime. */
  lemma {:induction false} ActivatedKeySigns(grace: nat, before: seq<Timed>, kid: string, at: int, after: seq<Timed>,
                                             ttl: nat, now: int)
    requires HasKid(Run(EMPTY, grace, before).keys, kid) && forall i | 0 <= i < |after| :: !after[i].op.ActivateOp?
    ensures var activated := Run(EMPTY, grace, before + [At(at, ActivateOp(kid))]);
      Issue(Run(activated, grace, after), ttl, now) == Ok(AccessToken(kid, (now + ttl * 1_000_000) / 1_000_000))
  {
    ActivationTakes(grace, before, kid, at);
    var activated := Run(EMPTY, grace, before + [At(at, ActivateOp(kid))]);
    SignerStays(activated, grace, after);
    ActiveSigns(Run(activated, grace, after), kid, ttl, now);
  }

  /**
   With a grace window that covers lifetime and leeway, a token decodes through every unforced run exactly until its
   lifetime and the leeway are over.
   */
  lemma TokenDecodesExactlyUntil(grace: nat, ttl: nat, before: seq<Timed>, signed: int, after: seq<Timed>, now: int)
    requires ttl + 30 <= grace && Issue(Run(EMPTY, grace, before), ttl, signed).Ok?
    requires InOrder(signed, after, now) && NoForcedPrune(after)
    ensures var s := Run(EMPTY, grace, before);
      Decode(Run(s, grace, after), Issue(s, ttl, signed).value, now).Ok? <==>
        now < ((signed + ttl * 1_000_000) / 1_000_000 + 30) * 1_000_000
  {
    if now < Micros(Second(signed + Micros(ttl)) + LEEWAY_SECONDS) {
      AccessTokenPromise(grace, ttl, LEEWAY_SECONDS);
      assert StillDecodes(grace, ttl, before, signed, after, now);
    }
  }

  // ---------- immediate activation ----------

  /** Adding a key and activating it in the same call: the previous active key is not retired. */
  function AddAndActivate(s: Section, kid: string): Section {
    var keys := if HasKid(s.keys, kid) then s.keys else s.keys + [Entry(kid, Verifying, None)];
    Section(Some(kid), Promote(keys, kid))
  }

  /** Immediate activation keeps the manifest well formed only where there is no other active key to retire. */
  lemma ImmediateActivationIsSafeIff(s: Section, kid: string)
    requires Good(s)
    ensures Good(AddAndActivate(s, kid)) <==> s.active.None? || s.active == Some(kid)
  {
    if s.active.None? {
      AddKeepsGood(s, kid);
    } else if s.active == Some(kid) {
      ActivateKeepsGood(s, kid, 0);
    } else {
      var i :| 0 <= i < |s.keys| && s.keys[i].kid == s.active.value;
      assert AddAndActivate(s, kid).keys[i].status == Active;
    }
  }

  // ---------- the module's operations, on the manifest file ----------

  class Keyset {
    var manifest: Option<Section>
    const grace: nat

    function Contents(): Section
      reads this
    {
      if manifest.Some? then manifest.value else EMPTY
    }

    ghost predicate Valid()
      reads this
    {
      Good(Contents())
    }

    constructor (grace: nat)
      ensures Valid() && manifest.None? && this.grace == grace
    {
      manifest, this.grace := None, grace;
    }

    method ImportLegacySingleKey(legacyKid: Option<string>) returns (imported: bool)
      requires Valid()
      modifies this
      ensures Valid()
      ensures imported <==> old(manifest).None? && legacyKid.Some?
      ensures imported ==> Contents() == Add(EMPTY, legacyKid.value)
      ensures !imported ==> manifest == old(manifest)
    {
      if manifest.Some? { return false; }
      if legacyKid.None? { return false; }
      AddKeepsGood(EMPTY, legacyKid.value);
      manifest := Some(Section(legacyKid, [Entry(legacyKid.value, Active, None)]));
      assert Contents().keys == Add(EMPTY, legacyKid.value).keys;
      return true;
    }

    /** One `keygen rotate`: the new key joins as verifying unless it is the first. */
    method AddKey(kid: string)
      requires Valid()
      modifies this
      ensures Valid()
      ensures Contents() == Add(old(Contents()), kid)
    {
      AddKeepsGood(Contents(), kid);
      var section := AddEntry(Contents(), kid);
      manifest := Some(section);
    }

    method ActivateKey(kid: string, now: int) returns (r: Result<(), KeyError>)
      requires Valid()
      modifies this
      ensures Valid()
      ensures old(manifest).None? ==> r == Err(NoManifest)
      ensures old(manifest).Some? && !HasKid(old(Contents()).keys, kid) ==> r == Err(UnknownKid)
      ensures HasKid(old(Contents()).keys, kid) ==> r.Ok? && Ok(Contents()) == Activate(old(Contents()), kid, now)
      ensures r.Ok? ==> Activates(old(Contents()), Contents(), kid, now) && SigningKid(Contents()) == Ok(kid)
      ensures r.Err? ==> manifest == old(manifest)
    {
      if manifest.None? { return Err(NoManifest); }
      var target := FindKid(manifest.value.keys, kid);
      if target.None? { return Err(UnknownKid); }
      ActivateKeepsGood(manifest.value, kid, now);
      var section := ActivateEntries(manifest.value, kid, target.value, now);
      assert section.keys[target.value].kid == kid;
      manifest := Some(section);
      return Ok(());
    }

    method PruneKeys(now: int, force: bool) returns (removed: seq<string>)
      requires Valid()
      modifies this
      ensures Valid()
      ensures Contents() == Prune(old(Contents()), now, grace, force)
      ensures removed == PrunedKids(old(Contents()).keys, now, grace, force)
    {
      if manifest.None? { return []; }
      PruneKeepsGood(manifest.value, now, grace, force);
      var surviving;
      surviving, removed := SplitPrunable(manifest.value.keys, now, grace, force);
      var active := manifest.value.active;
      if active.Some? && active.value in removed { active := None; }
      manifest := Some(Section(active, surviving));
    }

    /**
     The kids the decoder looks tokens up by: the listed ones; without any, the one the signer would use, which is the
     legacy key when there is no manifest and an error otherwise.
     */
    method LoadVerificationKeyset(legacyKid: Option<string>) returns (r: Result<set<string>, KeyError>)
      ensures manifest.Some? && manifest.value.keys != [] ==>
        r.Ok? && forall kid :: kid in r.value <==> HasKid(manifest.value.keys, kid)
      ensures manifest.Some? && manifest.value.keys == [] ==>
        r == Err(if manifest.value.active.None? then NoActiveKid else DanglingKid)
      ensures manifest.None? ==> r == if legacyKid.Some? then Ok({legacyKid.value}) else Err(NoKey)
    {
      if manifest.Some? {
        var kids := ListedKids(manifest.value.keys);
        if manifest.value.keys != [] {
          return Ok(kids);
        }
        return Err(if manifest.value.active.None? then NoActiveKid else DanglingKid);
      }
      return if legacyKid.Some? then Ok({legacyKid.value}) else Err(NoKey);
    }

    static method ListedKids(keys: seq<Entry>) returns (kids: set<string>)
      ensures forall kid :: kid in kids <==> HasKid(keys, kid)
    {
      kids := {};
      for i := 0 to |keys|
        invariant forall kid :: kid in kids <==> HasKid(keys[..i], kid)
      {
        ghost var before := kids;
        kids := kids + {keys[i].kid};
        forall kid ensures kid in kids <==> HasKid(keys[..i + 1], kid) {
          assert keys[..i + 1][i] == keys[i];
          if kid in before {
            var j :| 0 <= j < i && keys[..i][j].kid == kid;
            assert keys[..i + 1][j].kid == kid;
          }
          if HasKid(keys[..i + 1], kid) && kid != keys[i].kid {
            var j :| 0 <= j < i + 1 && keys[..i + 1][j].kid == kid;
            assert keys[..i][j].kid == kid;
          }
        }
      }
      assert keys[..|keys|] == keys;
    }
  }
}
