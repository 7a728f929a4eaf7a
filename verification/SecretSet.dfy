/** The secret manifest with its value files: independently rotating sections, seeded from environment secrets. */
module SecretSet {
  import opened Common
  import opened Rotation
  import SignedUrl

  datatype ManifestError = NoManifest | UnknownName | UnknownKid | NoActive | DanglingActive | MissingFile

  type Sections = map<string, Section>

  // The value files of one section, by kid.
  type Values = map<string, string>

  // `manifest` is None while the manifest file does not exist; `files` holds the value files of every section.
  datatype Store = Store(manifest: Option<Sections>, files: map<string, Values>)

  // An environment secret shorter than this is not imported.
  const MIN_LEGACY_LENGTH := 32

  predicate HasSection(st: Store, name: string) {
    st.manifest.Some? && name in st.manifest.value
  }

  function SectionOf(st: Store, name: string): Section {
    if HasSection(st, name) then st.manifest.value[name] else EMPTY
  }

  function ValuesOf(st: Store, name: string): Values {
    if name in st.files then st.files[name] else map[]
  }

  function Put(st: Store, name: string, s: Section, values: Values): Store {
    Store(Some((if st.manifest.Some? then st.manifest.value else map[])[name := s]), st.files[name := values])
  }

  // ---------- what each operation does to the store ----------

  predicate Importable(st: Store, legacy: map<string, string>, name: string) {
    st.manifest.None? && name in legacy && |legacy[name]| >= MIN_LEGACY_LENGTH
  }

  function Imported(st: Store, legacy: map<string, string>, name: string): Store {
    if Importable(st, legacy, name) then
      Put(st, name, Section(Some("v1"), [Entry("v1", Active, None)]), ValuesOf(st, name)["v1" := legacy[name]])
    else st
  }

  function Rotated(st: Store, legacy: map<string, string>, name: string, kid: string, value: string): Store {
    var base := Imported(st, legacy, name);
    Put(base, name, Add(SectionOf(base, name), kid), ValuesOf(base, name)[kid := value])
  }

  function Activated(st: Store, name: string, kid: string, now: int): Result<Store, ManifestError> {
    if st.manifest.None? then Err(NoManifest)
    else if name !in st.manifest.value then Err(UnknownName)
    else
      match Activate(st.manifest.value[name], kid, now)
      case Err(_) => Err(UnknownKid)
      case Ok(s) => Ok(Put(st, name, s, ValuesOf(st, name)))
  }

  function Pruned(st: Store, name: string, now: int, grace: nat, force: bool): Store {
    if !HasSection(st, name) then st
    else
      var removed := PrunedKids(SectionOf(st, name).keys, now, grace, force);
      Put(st, name, Prune(SectionOf(st, name), now, grace, force), ValuesOf(st, name) - (set kid | kid in removed))
  }

  // ---------- the loaders ----------

  /** The value to sign with; Ok(None) sends the caller to its environment secret. */
  function SigningValue(st: Store, name: string): Result<Option<string>, ManifestError> {
    if !HasSection(st, name) then Ok(None)
    else
      var s := SectionOf(st, name);
      if s.active.None? then Err(NoActive)
      else if !HasKid(s.keys, s.active.value) then Err(DanglingActive)
      else if s.active.value !in ValuesOf(st, name) then Err(MissingFile)
      else Ok(Some(Trim(ValuesOf(st, name)[s.active.value])))
  }

  function Listed(keys: seq<Entry>, values: Values, now: int, grace: nat): (r: seq<string>)
    requires forall e :: e in keys ==> e.kid in values
    ensures forall v :: v in r <==>
              exists e :: e in keys && EntryAccepts(WithinGrace, e, now, grace) && Trim(values[e.kid]) == v
  {
    if keys == [] then []
    else
      var rest := Listed(keys[..|keys| - 1], values, now, grace);
      var last := keys[|keys| - 1];
      assert keys == keys[..|keys| - 1] + [last];
      if EntryAccepts(WithinGrace, last, now, grace) then rest + [Trim(values[last.kid])] else rest
  }

  /** The secrets a verifier tries: the listed ones or, when there are none, the environment secret. */
  function VerificationSecrets(st: Store, legacy: map<string, string>, name: string, now: int, grace: nat): seq<string>
    requires GoodSection(st, name)
  {
    var listed := Listed(SectionOf(st, name).keys, ValuesOf(st, name), now, grace);
    if listed == [] && name in legacy then [legacy[name]] else listed
  }

  // ---------- the invariant of one section and its files ----------

  ghost predicate GoodSection(st: Store, name: string) {
    && Good(SectionOf(st, name))
    && (HasSection(st, name) ==> SectionOf(st, name).active.Some?)
    && (forall e :: e in SectionOf(st, name).keys ==> e.kid in ValuesOf(st, name))
  }

  datatype StoreOp = Rotating(kid: string, value: string) | Activating(kid: string) | Pruning(force: bool)

  datatype ManifestStep = ManifestStep(now: int, name: string, op: StoreOp)

  function StoreStep(st: Store, legacy: map<string, string>, grace: nat, step: ManifestStep): Store {
    match step.op
    case Rotating(kid, value) => Rotated(st, legacy, step.name, kid, value)
    case Activating(kid) => (match Activated(st, step.name, kid, step.now) case Ok(t) => t case Err(_) => st)
    case Pruning(force) => Pruned(st, step.name, step.now, grace, force)
  }

  function StoreRun(st: Store, legacy: map<string, string>, grace: nat, steps: seq<ManifestStep>): Store {
    if steps == [] then st
    else StoreStep(StoreRun(st, legacy, grace, steps[..|steps| - 1]), legacy, grace, steps[|steps| - 1])
  }

  lemma ImportedKeepsGood(st: Store, legacy: map<string, string>, name: string)
    requires GoodSection(st, name)
    ensures GoodSection(Imported(st, legacy, name), name)
  {
    if Importable(st, legacy, name) {
      assert SectionOf(Imported(st, legacy, name), name).keys[0].kid == "v1";
    }
  }

  lemma RotatedKeepsGood(st: Store, legacy: map<string, string>, name: string, kid: string, value: string)
    requires GoodSection(st, name)
    ensures GoodSection(Rotated(st, legacy, name, kid, value), name)
  {
    var base := Imported(st, legacy, name);
    var s := SectionOf(base, name);
    ImportedKeepsGood(st, legacy, name);
    AddKeepsGood(s, kid);
    forall e | e in Add(s, kid).keys ensures e.kid == kid || e.kid in ValuesOf(base, name) {
      var i :| 0 <= i < |Add(s, kid).keys| && Add(s, kid).keys[i] == e;
      if i < |s.keys| { assert s.keys[i] in s.keys; }
    }
  }

  lemma ActivatedKeepsGood(st: Store, name: string, kid: string, now: int)
    requires GoodSection(st, name) && Activated(st, name, kid, now).Ok?
    ensures GoodSection(Activated(st, name, kid, now).value, name)
  {
    var s := SectionOf(st, name);
    ActivateKeepsGood(s, kid, now);
    var t := Activate(s, kid, now).value;
    forall e | e in t.keys ensures e.kid in ValuesOf(st, name) {
      var i :| 0 <= i < |t.keys| && t.keys[i] == e;
      assert s.keys[i] in s.keys;
    }
  }

  lemma SurvivorIsNotPruned(keys: seq<Entry>, now: int, grace: nat, force: bool, e: Entry)
    requires UniqueKids(keys) && e in keys && !Prunable(e, now, grace, force)
    ensures e.kid !in PrunedKids(keys, now, grace, force)
  {
    forall d | d in keys && d.kid == e.kid ensures d == e {
      var i :| 0 <= i < |keys| && keys[i] == d;
      var j :| 0 <= j < |keys| && keys[j] == e;
    }
  }

  lemma PrunedKeepsGood(st: Store, name: string, now: int, grace: nat, force: bool)
    requires GoodSection(st, name)
    ensures GoodSection(Pruned(st, name, now, grace, force), name)
  {
    var s := SectionOf(st, name);
    PruneKeepsGood(s, now, grace, force);
    forall e | e in Prune(s, now, grace, force).keys
      ensures e.kid in ValuesOf(st, name) && e.kid !in PrunedKids(s.keys, now, grace, force)
    {
      SurvivorIsNotPruned(s.keys, now, grace, force, e);
    }
  }

  lemma StoreStepKeepsGood(st: Store, legacy: map<string, string>, grace: nat, step: ManifestStep, name: string)
    requires GoodSection(st, name)
    ensures GoodSection(StoreStep(st, legacy, grace, step), name)
  {
    if step.name == name {
      match step.op
      case Rotating(kid, value) => RotatedKeepsGood(st, legacy, name, kid, value);
      case Activating(kid) => if Activated(st, name, kid, step.now).Ok? { ActivatedKeepsGood(st, name, kid, step.now); }
      case Pruning(force) => PrunedKeepsGood(st, name, step.now, grace, force);
    } else {
      OtherSectionsUntouched(st, legacy, grace, step, name);
    }
  }

  /** Each section rotates independently of the others. */
  lemma OtherSectionsUntouched(st: Store, legacy: map<string, string>, grace: nat, step: ManifestStep, name: string)
    requires step.name != name
    ensures HasSection(StoreStep(st, legacy, grace, step), name) == HasSection(st, name)
    ensures SectionOf(StoreStep(st, legacy, grace, step), name) == SectionOf(st, name)
    ensures ValuesOf(StoreStep(st, legacy, grace, step), name) == ValuesOf(st, name)
  {
  }

  lemma GoodSigns(st: Store, name: string)
    requires GoodSection(st, name)
    ensures SigningValue(st, name).Ok?
    ensures HasSection(st, name) ==>
      SectionOf(st, name).active.value in ValuesOf(st, name) &&
      SigningValue(st, name).value == Some(Trim(ValuesOf(st, name)[SectionOf(st, name).active.value]))
  {
    var s := SectionOf(st, name);
    if HasSection(st, name) {
      var i :| 0 <= i < |s.keys| && s.keys[i].kid == s.active.value;
      assert s.keys[i] in s.keys;
    }
  }

  /**
   Along every run, forced prunes included, the signing loader meets none of its errors, and it finds a secret exactly
   when the section exists.
   */
  lemma {:induction false} SigningNeverFails(st: Store, legacy: map<string, string>, grace: nat,
                                             steps: seq<ManifestStep>, name: string)
    requires GoodSection(st, name)
    ensures GoodSection(StoreRun(st, legacy, grace, steps), name)
    ensures SigningValue(StoreRun(st, legacy, grace, steps), name).Ok?
    ensures HasSection(StoreRun(st, legacy, grace, steps), name) <==>
            SigningValue(StoreRun(st, legacy, grace, steps), name).value.Some?
  {
    if steps != [] {
      SigningNeverFails(st, legacy, grace, steps[..|steps| - 1], name);
      StoreStepKeepsGood(StoreRun(st, legacy, grace, steps[..|steps| - 1]), legacy, grace, steps[|steps| - 1], name);
    }
    GoodSigns(StoreRun(st, legacy, grace, steps), name);
  }

  // ---------- what rotation and pruning do ----------

  /** A rotation stores its value and lists its kid, on top of the environment secret where that is imported first. */
  lemma RotationStores(st: Store, legacy: map<string, string>, grace: nat, name: string, kid: string, value: string,
                       now: int)
    requires GoodSection(st, name)
    ensures var r := StoreStep(st, legacy, grace, ManifestStep(now, name, Rotating(kid, value)));
      && HasSection(r, name) && kid in ValuesOf(r, name) && ValuesOf(r, name)[kid] == value
      && if st.manifest.None? && name in legacy && |legacy[name]| >= 32 then
           && Adds(Section(Some("v1"), [Entry("v1", Active, None)]), SectionOf(r, name), kid)
           && ValuesOf(r, name) == ValuesOf(st, name)["v1" := legacy[name]][kid := value]
         else
           && Adds(SectionOf(st, name), SectionOf(r, name), kid)
           && ValuesOf(r, name) == ValuesOf(st, name)[kid := value]
  {
    ImportedKeepsGood(st, legacy, name);
    AddAdds(SectionOf(Imported(st, legacy, name), name), kid);
  }

  /** A prune drops exactly the outlived entries, each with its value file. */
  lemma PruningDrops(st: Store, legacy: map<string, string>, grace: nat, name: string, now: int, force: bool)
    requires GoodSection(st, name) && HasSection(st, name)
    ensures var r := StoreStep(st, legacy, grace, ManifestStep(now, name, Pruning(force)));
      && HasSection(r, name) && Prunes(SectionOf(st, name), SectionOf(r, name), now, grace, force)
      && forall kid :: kid in ValuesOf(r, name) <==>
           kid in ValuesOf(st, name) &&
           !exists e :: e in SectionOf(st, name).keys && Outlived(e, now, grace, force) && e.kid == kid
  {
    var s := SectionOf(st, name);
    PruneKeepsGood(s, now, grace, force);
    SurvivingInOrder(s.keys, now, grace, force);
    assert forall e | e in s.keys :: Outlived(e, now, grace, force) == Prunable(e, now, grace, force);
  }

  // ---------- who signs ----------

  /** `kid` signs for `name`, with this secret. */
  ghost predicate SignsWith(st: Store, name: string, kid: string, secret: string) {
    && HasSection(st, name) && SectionOf(st, name).active == Some(kid)
    && kid in ValuesOf(st, name) && Trim(ValuesOf(st, name)[kid]) == secret
  }

  /** `activate` on a name: the section as described, its value files and every other name as they were. */
  ghost predicate ActivatesFor(st: Store, r: Store, name: string, kid: string, now: int) {
    && HasSection(st, name) && HasSection(r, name) && Activates(SectionOf(st, name), SectionOf(r, name), kid, now)
    && (forall other :: ValuesOf(r, other) == ValuesOf(st, other))
    && (forall other | other != name ::
          HasSection(r, other) == HasSection(st, other) && SectionOf(r, other) == SectionOf(st, other))
  }

  lemma ActivatedIsActivation(st: Store, name: string, kid: string, now: int)
    requires GoodSection(st, name)
    ensures Activated(st, name, kid, now) ==
      if st.manifest.None? then Err(NoManifest)
      else if name !in st.manifest.value then Err(UnknownName)
      else if !HasKid(st.manifest.value[name].keys, kid) then Err(UnknownKid)
      else Activated(st, name, kid, now)
    ensures HasSection(st, name) && HasKid(SectionOf(st, name).keys, kid) ==>
      var r := Activated(st, name, kid, now);
      && r.Ok? && ActivatesFor(st, r.value, name, kid, now)
      && kid in ValuesOf(st, name) && SigningValue(r.value, name) == Ok(Some(Trim(ValuesOf(st, name)[kid])))
  {
    if HasSection(st, name) && HasKid(SectionOf(st, name).keys, kid) {
      ActivateActivates(SectionOf(st, name), kid, now);
      ActivatedKeepsGood(st, name, kid, now);
      GoodSigns(Activated(st, name, kid, now).value, name);
    }
  }

  lemma StepKeepsSigner(st: Store, legacy: map<string, string>, grace: nat, step: ManifestStep, name: string,
                        kid: string, secret: string)
    requires GoodSection(st, name) && SignsWith(st, name, kid, secret) && FreshKid(st, step)
    requires step.name != name || !step.op.Activating?
    ensures SignsWith(StoreStep(st, legacy, grace, step), name, kid, secret)
  {
    if step.name != name {
      OtherSectionsUntouched(st, legacy, grace, step, name);
    } else {
      var s := SectionOf(st, name);
      match step.op {
        case Rotating(k, _) =>
          assert HasKid(s.keys, kid);
          AddKeepsGood(s, k);
        case Pruning(force) =>
          PruneKeepsGood(s, step.now, grace, force);
          var i :| 0 <= i < |s.keys| && s.keys[i].kid == kid;
          SurvivorIsNotPruned(s.keys, step.now, grace, force, s.keys[i]);
      }
    }
  }

  lemma {:induction false} RunKeepsSigner(st: Store, legacy: map<string, string>, grace: nat, steps: seq<ManifestStep>,
                                          name: string, kid: string, secret: string)
    requires GoodSection(st, name) && SignsWith(st, name, kid, secret) && FreshKids(st, legacy, grace, steps)
    requires forall i | 0 <= i < |steps| :: steps[i].name == name ==> !steps[i].op.Activating?
    ensures GoodSection(StoreRun(st, legacy, grace, steps), name)
    ensures SignsWith(StoreRun(st, legacy, grace, steps), name, kid, secret)
  {
    if steps != [] {
      var front := steps[..|steps| - 1];
      FreshKidsFront(st, legacy, grace, steps);
      RunKeepsSigner(st, legacy, grace, front, name, kid, secret);
      StoreStepKeepsGood(StoreRun(st, legacy, grace, front), legacy, grace, steps[|steps| - 1], name);
      StepKeepsSigner(StoreRun(st, legacy, grace, front), legacy, grace, steps[|steps| - 1], name, kid, secret);
    }
  }

  lemma FreshKidsFront(st: Store, legacy: map<string, string>, grace: nat, steps: seq<ManifestStep>)
    requires steps != [] && FreshKids(st, legacy, grace, steps)
    ensures FreshKids(st, legacy, grace, steps[..|steps| - 1])
    ensures FreshKid(StoreRun(st, legacy, grace, steps[..|steps| - 1]), steps[|steps| - 1])
  {
    var front := steps[..|steps| - 1];
    forall i | 0 <= i < |front| ensures FreshKid(StoreRun(st, legacy, grace, front[..i]), front[i]) {
      assert front[..i] == steps[..i];
      assert FreshKid(StoreRun(st, legacy, grace, steps[..i]), steps[i]);
    }
  }

  /** After `activate`, through every run, forced prunes included, the named secret signs until another is activated. */
  lemma {:induction false} ActivatedSecretSigns(st: Store, legacy: map<string, string>, grace: nat, name: string,
                                                kid: string, at: int,
                             steps: seq<ManifestStep>)
    requires GoodSection(st, name) && HasSection(st, name) && HasKid(SectionOf(st, name).keys, kid)
    requires FreshKids(StoreStep(st, legacy, grace, ManifestStep(at, name, Activating(kid))), legacy, grace, steps)
    requires forall i | 0 <= i < |steps| :: steps[i].name == name ==> !steps[i].op.Activating?
    ensures var activated := StoreStep(st, legacy, grace, ManifestStep(at, name, Activating(kid)));
      && kid in ValuesOf(st, name)
      && SigningValue(StoreRun(activated, legacy, grace, steps), name) == Ok(Some(Trim(ValuesOf(st, name)[kid])))
  {
    ActivatedIsActivation(st, name, kid, at);
    ActivatedKeepsGood(st, name, kid, at);
    var activated := StoreStep(st, legacy, grace, ManifestStep(at, name, Activating(kid)));
    RunKeepsSigner(activated, legacy, grace, steps, name, kid, Trim(ValuesOf(st, name)[kid]));
    GoodSigns(StoreRun(activated, legacy, grace, steps), name);
  }

  /** The secrets a verifier is given: those active, and those retired less than the grace window ago. */
  lemma VerifiersHoldExactly(st: Store, legacy: map<string, string>, grace: nat, name: string, now: int, secret: string)
    requires GoodSection(st, name)
    ensures var listed := Listed(SectionOf(st, name).keys, ValuesOf(st, name), now, grace);
      && (secret in listed <==>
            exists e | e in SectionOf(st, name).keys ::
              && Trim(ValuesOf(st, name)[e.kid]) == secret
              && (e.status == Active ||
                  (e.status == Retired && e.retiredAt.Some? && now < (e.retiredAt.value + grace) * 1_000_000)))
      && (VerificationSecrets(st, legacy, name, now, grace) ==
            if listed == [] && name in legacy then [legacy[name]] else listed)
  {
  }

  // ---------- a signature and its secret through a run ----------

  /** `secret` is the value of an entry of `name` that was active at `signed` or has retired no earlier than then. */
  ghost predicate Holds(st: Store, name: string, kid: string, secret: string, signed: int) {
    && Fresh(SectionOf(st, name), kid, signed)
    && kid in ValuesOf(st, name) && Trim(ValuesOf(st, name)[kid]) == secret
  }

  /** Random kids never repeat one that is already listed. */
  ghost predicate FreshKid(st: Store, step: ManifestStep) {
    step.op.Rotating? ==> !HasKid(SectionOf(st, step.name).keys, step.op.kid)
  }

  lemma StepKeepsSecret(st: Store, legacy: map<string, string>, grace: nat, step: ManifestStep,
                        name: string, kid: string, secret: string, signed: int)
    requires GoodSection(st, name) && Holds(st, name, kid, secret, signed) && FreshKid(st, step)
    requires signed <= step.now < Micros(Second(signed) + grace) && step.op != Pruning(true)
    ensures Holds(StoreStep(st, legacy, grace, step), name, kid, secret, signed)
  {
    if step.name != name {
      OtherSectionsUntouched(st, legacy, grace, step, name);
      return;
    }
    var s := SectionOf(st, name);
    var i :| 0 <= i < |s.keys| && FreshEntry(s.keys[i], kid, signed);
    match step.op
    case Rotating(k, _) =>
      StepKeepsFresh(s, grace, At(step.now, AddOp(k)), kid, signed);
    case Activating(k) =>
      StepKeepsFresh(s, grace, At(step.now, ActivateOp(k)), kid, signed);
    case Pruning(force) =>
      StepKeepsFresh(s, grace, At(step.now, PruneOp(false)), kid, signed);
      SurvivorIsNotPruned(s.keys, step.now, grace, false, s.keys[i]);
  }

  ghost predicate TimesInOrder(from: int, steps: seq<ManifestStep>, to: int) {
    && from <= to
    && (forall i :: 0 <= i < |steps| ==> from <= steps[i].now <= to)
    && (forall i, j :: 0 <= i < j < |steps| ==> steps[i].now <= steps[j].now)
  }

  ghost predicate NothingForced(steps: seq<ManifestStep>) {
    forall i :: 0 <= i < |steps| ==> steps[i].op != Pruning(true)
  }

  ghost predicate FreshKids(st: Store, legacy: map<string, string>, grace: nat, steps: seq<ManifestStep>) {
    forall i :: 0 <= i < |steps| ==> FreshKid(StoreRun(st, legacy, grace, steps[..i]), steps[i])
  }

  lemma {:induction false} RunKeepsSecret(st: Store, legacy: map<string, string>, grace: nat, steps: seq<ManifestStep>,
                                          name: string, kid: string, secret: string, signed: int, to: int)
    requires GoodSection(st, name) && Holds(st, name, kid, secret, signed)
    requires TimesInOrder(signed, steps, to) && NothingForced(steps) && FreshKids(st, legacy, grace, steps)
    requires to < Micros(Second(signed) + grace)
    ensures GoodSection(StoreRun(st, legacy, grace, steps), name)
    ensures Holds(StoreRun(st, legacy, grace, steps), name, kid, secret, signed)
  {
    if steps != [] {
      var front := steps[..|steps| - 1];
      FreshKidsFront(st, legacy, grace, steps);
      RunKeepsSecret(st, legacy, grace, front, name, kid, secret, signed, to);
      var mid := StoreRun(st, legacy, grace, front);
      StoreStepKeepsGood(mid, legacy, grace, steps[|steps| - 1], name);
      StepKeepsSecret(mid, legacy, grace, steps[|steps| - 1], name, kid, secret, signed);
    }
  }

  lemma HeldIsListed(st: Store, legacy: map<string, string>, grace: nat, name: string, kid: string, secret: string,
                     signed: int, now: int)
    requires GoodSection(st, name) && Holds(st, name, kid, secret, signed)
    requires now < Micros(Second(signed) + grace)
    ensures secret in VerificationSecrets(st, legacy, name, now, grace)
  {
    var keys := SectionOf(st, name).keys;
    var i :| 0 <= i < |keys| && FreshEntry(keys[i], kid, signed);
    assert keys[i] in keys && EntryAccepts(WithinGrace, keys[i], now, grace);
    assert secret in Listed(keys, ValuesOf(st, name), now, grace);
  }

  /** The verdict of `Verify` on the secrets of the store. */
  function Verdict(st: Store, legacy: map<string, string>, grace: nat, name: string,
                   token: SignedUrl.Token, bucket: string, path: string, now: int): Result<(), SignedUrl.SignatureError>
    requires GoodSection(st, name)
  {
    if token.secret in VerificationSecrets(st, legacy, name, now, grace) then SignedUrl.Judge(token, bucket, path, now)
    else Err(SignedUrl.InvalidSignature)
  }

  /** A URL signed under a held secret verifies after any run, for its own object only and exactly until it expires. */
  lemma HeldUrlVerifies(st: Store, legacy: map<string, string>, grace: nat, steps: seq<ManifestStep>, name: string,
                        kid: string, secret: string, bucket0: string, path0: string, ttl: int, signed: int,
                        bucket: string, path: string, now: int)
    requires GoodSection(st, name) && Holds(st, name, kid, secret, signed) && 0 < ttl < grace
    requires TimesInOrder(signed, steps, now) && NothingForced(steps) && FreshKids(st, legacy, grace, steps)
    ensures GoodSection(StoreRun(st, legacy, grace, steps), name)
    ensures SignedUrl.Sign(secret, bucket0, path0, ttl, signed).Ok?
    ensures Verdict(StoreRun(st, legacy, grace, steps), legacy, grace, name,
                    SignedUrl.Sign(secret, bucket0, path0, ttl, signed).value, bucket, path, now).Ok?
            <==> bucket + "/" + path == bucket0 + "/" + path0 && Second(now) <= Second(signed) + ttl
  {
    SigningNeverFails(st, legacy, grace, steps, name);
    SignedUrl.VerifiesExactlyItsObject(secret, bucket0, path0, ttl, signed, bucket, path, now);
    if Second(now) <= Second(signed) + ttl {
      RunKeepsSecret(st, legacy, grace, steps, name, kid, secret, signed, now);
      HeldIsListed(StoreRun(st, legacy, grace, steps), legacy, grace, name, kid, secret, signed, now);
    }
  }

  /**
   A URL signed with a time to live below the grace window verifies, for its own object only and exactly until it
   expires, after every run of rotations, activations and unforced prunes of any section.
   */
  lemma SignedUrlOutlivesRotation(st: Store, legacy: map<string, string>, grace: nat, steps: seq<ManifestStep>,
                                  name: string, secret: string, bucket0: string, path0: string, ttl: int, signed: int,
                                  bucket: string, path: string, now: int)
    requires GoodSection(st, name) && SigningValue(st, name) == Ok(Some(secret)) && 0 < ttl < grace
    requires TimesInOrder(signed, steps, now) && NothingForced(steps) && FreshKids(st, legacy, grace, steps)
    ensures GoodSection(StoreRun(st, legacy, grace, steps), name)
    ensures SignedUrl.Sign(secret, bucket0, path0, ttl, signed).Ok?
    ensures Verdict(StoreRun(st, legacy, grace, steps), legacy, grace, name,
                    SignedUrl.Sign(secret, bucket0, path0, ttl, signed).value, bucket, path, now).Ok?
            <==> bucket + "/" + path == bucket0 + "/" + path0 && Second(now) <= Second(signed) + ttl
  {
    GoodSigns(st, name);
    var s := SectionOf(st, name);
    var kid := s.active.value;
    var a :| 0 <= a < |s.keys| && s.keys[a].kid == kid;
    assert FreshEntry(s.keys[a], kid, signed);
    HeldUrlVerifies(st, legacy, grace, steps, name, kid, secret, bucket0, path0, ttl, signed, bucket, path, now);
  }

  lemma ListedOfFirst(keys: seq<Entry>, values: Values, now: int, grace: nat)
    requires 1 <= |keys| <= 2 && keys[0].status == Active && (|keys| == 2 ==> keys[1].status == Verifying)
    requires forall e :: e in keys ==> e.kid in values
    ensures Listed(keys, values, now, grace) == [Trim(values[keys[0].kid])]
  {
    assert keys[..1] == [keys[0]] && keys[..1][..0] == [];
  }

  lemma FirstRotationSection(st: Store, legacy: map<string, string>, name: string, kid: string, value: string)
    requires !HasSection(st, name) && kid != "v1"
    ensures var t := Rotated(st, legacy, name, kid, value);
      if Importable(st, legacy, name) then
        SectionOf(t, name).keys == [Entry("v1", Active, None), Entry(kid, Verifying, None)] &&
        "v1" in ValuesOf(t, name) && ValuesOf(t, name)["v1"] == legacy[name]
      else
        SectionOf(t, name).keys == [Entry(kid, Active, None)] &&
        kid in ValuesOf(t, name) && ValuesOf(t, name)[kid] == value
  {
  }

  /** The section that a first rotation makes, and the secrets it verifies. */
  lemma FirstRotation(st: Store, legacy: map<string, string>, grace: nat, name: string, kid: string, value: string,
                      now: int)
    requires !HasSection(st, name) && kid != "v1"
    ensures GoodSection(Rotated(st, legacy, name, kid, value), name)
    ensures VerificationSecrets(Rotated(st, legacy, name, kid, value), legacy, name, now, grace) ==
            [Trim(if Importable(st, legacy, name) then legacy[name] else value)]
  {
    RotatedKeepsGood(st, legacy, name, kid, value);
    FirstRotationSection(st, legacy, name, kid, value);
    var t := Rotated(st, legacy, name, kid, value);
    ListedOfFirst(SectionOf(t, name).keys, ValuesOf(t, name), now, grace);
  }

  /**
   The first rotation of a section keeps the environment secret it replaces verifying if and only if no manifest
   existed at all and the secret was long enough to import and free of surrounding white space.
   */
  lemma FirstRotationKeepsLegacyIff(st: Store, legacy: map<string, string>, grace: nat, name: string,
                                    kid: string, value: string, now: int)
    requires !HasSection(st, name) && name in legacy
    requires kid != "v1" && Trim(value) != legacy[name]
    ensures GoodSection(st, name) && VerificationSecrets(st, legacy, name, now, grace) == [legacy[name]]
    ensures GoodSection(Rotated(st, legacy, name, kid, value), name)
    ensures legacy[name] in VerificationSecrets(Rotated(st, legacy, name, kid, value), legacy, name, now, grace) <==>
            st.manifest.None? && |legacy[name]| >= 32 && Trim(legacy[name]) == legacy[name]
  {
    FirstRotation(st, legacy, grace, name, kid, value, now);
  }

  lemma {:induction false} RunFromFirst(st: Store, legacy: map<string, string>, grace: nat, steps: seq<ManifestStep>)
    requires steps != []
    ensures StoreRun(st, legacy, grace, steps) ==
      StoreRun(StoreStep(st, legacy, grace, steps[0]), legacy, grace, steps[1..])
  {
    if |steps| == 1 {
      assert steps[..0] == [] && steps[1..] == [];
    } else {
      var last := |steps| - 1;
      RunFromFirst(st, legacy, grace, steps[..last]);
      assert steps[..last][1..] == steps[1..][..last - 1];
    }
  }

  lemma FreshKidsRest(st: Store, legacy: map<string, string>, grace: nat, steps: seq<ManifestStep>)
    requires steps != [] && FreshKids(st, legacy, grace, steps)
    ensures FreshKids(StoreStep(st, legacy, grace, steps[0]), legacy, grace, steps[1..])
  {
    var rest := steps[1..];
    forall i | 0 <= i < |rest|
      ensures FreshKid(StoreRun(StoreStep(st, legacy, grace, steps[0]), legacy, grace, rest[..i]), rest[i])
    {
      RunFromFirst(st, legacy, grace, steps[..i + 1]);
      assert steps[..i + 1][1..] == rest[..i];
      assert FreshKid(StoreRun(st, legacy, grace, steps[..i + 1]), steps[i + 1]);
    }
  }

  /** The import makes the environment secret the active entry "v1". */
  lemma ImportHolds(st: Store, legacy: map<string, string>, name: string, kid: string, value: string, signed: int)
    requires Importable(st, legacy, name) && Trim(legacy[name]) == legacy[name] && kid != "v1"
    ensures GoodSection(Rotated(st, legacy, name, kid, value), name)
    ensures Holds(Rotated(st, legacy, name, kid, value), name, "v1", legacy[name], signed)
  {
    RotatedKeepsGood(st, legacy, name, kid, value);
    FirstRotationSection(st, legacy, name, kid, value);
    var t := Rotated(st, legacy, name, kid, value);
    assert FreshEntry(SectionOf(t, name).keys[0], "v1", signed);
  }

  /**
   A URL signed under the environment secret, before any manifest existed, outlives the migration: through every run
   that starts with the rotation that imports the secret, it verifies for its own object until it expires.
   */
  lemma EnvironmentUrlOutlivesImport(st: Store, legacy: map<string, string>, grace: nat, steps: seq<ManifestStep>,
                                     name: string, bucket0: string, path0: string, ttl: int, signed: int,
                                     bucket: string, path: string, now: int)
    requires Importable(st, legacy, name) && Trim(legacy[name]) == legacy[name] && 0 < ttl < grace
    requires steps != [] && steps[0].name == name && steps[0].op.Rotating? && steps[0].op.kid != "v1"
    requires TimesInOrder(signed, steps, now) && NothingForced(steps) && FreshKids(st, legacy, grace, steps)
    ensures SigningValue(st, name) == Ok(None)
    ensures GoodSection(StoreRun(st, legacy, grace, steps), name)
    ensures SignedUrl.Sign(legacy[name], bucket0, path0, ttl, signed).Ok?
    ensures Verdict(StoreRun(st, legacy, grace, steps), legacy, grace, name,
                    SignedUrl.Sign(legacy[name], bucket0, path0, ttl, signed).value, bucket, path, now).Ok?
            <==> bucket + "/" + path == bucket0 + "/" + path0 && Second(now) <= Second(signed) + ttl
  {
    var first, rest := StoreStep(st, legacy, grace, steps[0]), steps[1..];
    ImportHolds(st, legacy, name, steps[0].op.kid, steps[0].op.value, signed);
    RunFromFirst(st, legacy, grace, steps);
    FreshKidsRest(st, legacy, grace, steps);
    assert NothingForced(rest) && TimesInOrder(signed, rest, now);
    HeldUrlVerifies(first, legacy, grace, rest, name, "v1", legacy[name], bucket0, path0, ttl, signed, bucket, path,
      now);
  }

  // ---------- the module's operations, on the manifest file ----------

  class SecretManifest {
    var manifest: Option<Sections>
    var files: map<string, Values>
    const legacy: map<string, string>
    const grace: nat

    function Contents(): Store
      reads this
    {
      Store(manifest, files)
    }

    ghost predicate Valid()
      reads this
    {
      forall name :: GoodSection(Contents(), name)
    }

    constructor (legacy: map<string, string>, grace: nat)
      ensures Valid() && Contents() == Store(None, map[])
      ensures this.legacy == legacy && this.grace == grace
    {
      manifest, files := None, map[];
      this.legacy, this.grace := legacy, grace;
    }

    lemma StepsKeepValid(st: Store, step: ManifestStep)
      requires forall name :: GoodSection(st, name)
      ensures forall name :: GoodSection(StoreStep(st, legacy, grace, step), name)
    {
      forall name { StoreStepKeepsGood(st, legacy, grace, step, name); }
    }

    method ImportLegacySingleSecret(name: string) returns (imported: bool)
      modifies this
      ensures imported <==> old(manifest).None? && name in legacy && |legacy[name]| >= 32
      ensures imported ==>
        && manifest == Some(map[name := Section(Some("v1"), [Entry("v1", Active, None)])])
        && ValuesOf(Contents(), name) == ValuesOf(old(Contents()), name)["v1" := legacy[name]]
      ensures Contents() == Imported(old(Contents()), legacy, name)
    {
      if manifest.Some? { return false; }
      if name !in legacy || |legacy[name]| < MIN_LEGACY_LENGTH { return false; }
      files := files[name := ValuesOf(Contents(), name)["v1" := legacy[name]]];
      manifest := Some(map[name := Section(Some("v1"), [Entry("v1", Active, None)])]);
      return true;
    }

    method Rotate(name: string, kid: string, value: string)
      requires Valid()
      modifies this
      ensures Valid()
      ensures Contents() == Rotated(old(Contents()), legacy, name, kid, value)
    {
      assert GoodSection(Contents(), name);
      StepsKeepValid(Contents(), ManifestStep(0, name, Rotating(kid, value)));
      if manifest.None? {
        var _ := ImportLegacySingleSecret(name);
      }
      files := files[name := ValuesOf(Contents(), name)[kid := value]];
      var m := if manifest.Some? then manifest.value else map[];
      var section := if name in m then m[name] else EMPTY;
      section := AddEntry(section, kid);
      manifest := Some(m[name := section]);
      assert Contents() == StoreStep(old(Contents()), legacy, grace, ManifestStep(0, name, Rotating(kid, value)));
    }

    method ActivateSecret(name: string, kid: string, now: int) returns (r: Result<(), ManifestError>)
      requires Valid()
      modifies this
      ensures Valid()
      ensures r.Ok? <==> Activated(old(Contents()), name, kid, now).Ok?
      ensures r.Ok? ==> Ok(Contents()) == Activated(old(Contents()), name, kid, now)
      ensures r.Err? ==> Contents() == old(Contents()) && Activated(old(Contents()), name, kid, now) == Err(r.error)
      ensures r.Ok? ==> ActivatesFor(old(Contents()), Contents(), name, kid, now)
      ensures r.Ok? ==>
        && kid in ValuesOf(old(Contents()), name)
        && SigningValue(Contents(), name) == Ok(Some(Trim(ValuesOf(old(Contents()), name)[kid])))
    {
      if manifest.None? { return Err(NoManifest); }
      if name !in manifest.value { return Err(UnknownName); }
      var section := manifest.value[name];
      assert GoodSection(Contents(), name);
      ActivatedIsActivation(Contents(), name, kid, now);
      var target := FindKid(section.keys, kid);
      if target.None? { return Err(UnknownKid); }
      StepsKeepValid(Contents(), ManifestStep(now, name, Activating(kid)));
      section := ActivateEntries(section, kid, target.value, now);
      files := files[name := ValuesOf(Contents(), name)];
      manifest := Some(manifest.value[name := section]);
      assert Contents() == StoreStep(old(Contents()), legacy, grace, ManifestStep(now, name, Activating(kid)));
      return Ok(());
    }

    method PruneSecrets(name: string, now: int, force: bool) returns (removed: seq<string>)
      requires Valid()
      modifies this
      ensures Valid()
      ensures Contents() == Pruned(old(Contents()), name, now, grace, force)
      ensures removed == PrunedKids(SectionOf(old(Contents()), name).keys, now, grace, force)
    {
      if manifest.None? { return []; }
      if name !in manifest.value { return []; }
      StepsKeepValid(Contents(), ManifestStep(now, name, Pruning(force)));
      var section := manifest.value[name];
      var surviving;
      surviving, removed := SplitPrunable(section.keys, now, grace, force);
      var values := ValuesOf(Contents(), name);
      for i := 0 to |removed|
        invariant values == ValuesOf(old(Contents()), name) - (set kid | kid in removed[..i])
      {
        values := values - {removed[i]};
      }
      assert removed[..|removed|] == removed;
      files := files[name := values];
      var active := if section.active.Some? && section.active.value in removed then None else section.active;
      manifest := Some(manifest.value[name := Section(active, surviving)]);
      assert Contents() == StoreStep(old(Contents()), legacy, grace, ManifestStep(now, name, Pruning(force)));
    }

    method LoadSigningSecret(name: string) returns (r: Result<Option<string>, ManifestError>)
      ensures r == SigningValue(Contents(), name)
    {
      if manifest.None? { return Ok(None); }
      if name !in manifest.value { return Ok(None); }
      var section := manifest.value[name];
      if section.active.None? { return Err(NoActive); }
      var entry := FindKid(section.keys, section.active.value);
      if entry.None? { return Err(DanglingActive); }
      if section.active.value !in ValuesOf(Contents(), name) { return Err(MissingFile); }
      return Ok(Some(Trim(ValuesOf(Contents(), name)[section.active.value])));
    }

    method LoadVerificationSecrets(name: string, now: int) returns (r: seq<string>)
      requires GoodSection(Contents(), name)
      ensures r == Listed(SectionOf(Contents(), name).keys, ValuesOf(Contents(), name), now, grace)
    {
      r := [];
      if manifest.None? || name !in manifest.value { return; }
      var keys, values := manifest.value[name].keys, ValuesOf(Contents(), name);
      for i := 0 to |keys|
        invariant r == Listed(keys[..i], values, now, grace)
      {
        assert keys[..i + 1][..i] == keys[..i];
        assert keys[i] in SectionOf(Contents(), name).keys;
        if keys[i].status == Active {
          r := r + [Trim(values[keys[i].kid])];
        } else if keys[i].status == Retired {
          if keys[i].retiredAt.Some? && now - Micros(keys[i].retiredAt.value) < Micros(grace) {
            r := r + [Trim(values[keys[i].kid])];
          }
        }
      }
      assert keys[..|keys|] == keys;
    }
  }
}
