/** Where consensus keys live, which signing paths share one, and exactly when admission prevents it. */
module KeySharing {
  import opened Wrappers
  import opened Decimal
  import opened Text
  import opened Encoding
  import opened NodeSets
  import opened Admission
  import opened SigningKeys
  import KmsImport

  // ---- Paths and the places of their keys ----

  /** The path exists and signs by itself; a targeted validator signs through its signer. */
  predicate Signs(ns: NodeSet, p: Path) {
    match p
    case Legacy => ns.validator.Some? && !Targeted(ns, VALIDATOR)
    case Instance(i, j) =>
      i < |ns.nodes| && ns.nodes[i].validator.Some? && !Targeted(ns, ns.nodes[i].name) && j < ns.nodes[i].instances
    case Signer(k) => k < |Resolve(ns)|
    case Genesis(owner, e) =>
      && (owner.Some? ==> owner.value < |ns.nodes|)
      && (var v := Initialiser(ns, owner); v.Some? && v.value.init.Some? && e < |v.value.init.value.genesisValidators|)
  }

  function Initialiser(ns: NodeSet, owner: Option<nat>): Option<Validator>
    requires owner.Some? ==> owner.value < |ns.nodes|
  {
    if owner.None? then ns.validator else ns.nodes[owner.value].validator
  }

  /** A place that holds a consensus key. */
  datatype Place =
    | InSecret(name: string)
    | InVault(address: string, namespace: string, mount: string, key: string, number: int)
    | InKms(version: string)                        // one pre-provisioned version
    | UnderKms(destination: KmsImport.Destination)  // whatever version an import creates

  /** A destination with its location spelled out. */
  function Normal(d: KmsImport.Destination): (n: KmsImport.Destination)
    ensures KmsImport.SameDestination(n, d) && n.location.Some?
  {
    d.(location := if d.location in {None, Some("")} then Some("global") else d.location)
  }

  /** One key may be found in both places: a version created under a destination is a version of it. */
  predicate SameKey(a: Place, b: Place) {
    || a == b
    || (a.UnderKms? && b.InKms? && KmsImport.OwnsKeyVersion(a.destination, b.version))
    || (a.InKms? && b.UnderKms? && KmsImport.OwnsKeyVersion(b.destination, a.version))
    || (a.UnderKms? && b.UnderKms? && KmsImport.CryptoKeyName(a.destination) == KmsImport.CryptoKeyName(b.destination))
  }

  /** tmKMS reads the first version of a key of the default mount. */
  function InTmKms(h: Hashicorp): Place { InVault(h.address, "", "transit", h.key, 1) }

  /** A validator that signs for itself: its secret as named, its tmKMS key, or both after an upload. */
  function OwnPlaces(v: Validator, default: string): set<Place> {
    (if v.tmKms.None? || v.init.Some? || Uploads(v) then {InSecret(v.privateKeySecret.GetOr(default))} else {}) +
    (if v.tmKms.Some? && Configured(v.tmKms.value) then {InTmKms(v.tmKms.value.hashicorp.value)} else {})
  }

  function ServedValidator(ns: NodeSet, group: string): Option<Validator> {
    if group == VALIDATOR then ns.validator else FirstValidator(ns.nodes, group)
  }

  /** SignerUsesLocalValidatorKey: mounted by the software backend, or the source of an import. */
  predicate SignsWithLocalKey(ns: NodeSet, s: ResolvedSigner) {
    && s.validatorGroup != ""
    && match s.spec.backend
       case Software(_) => true
       case GcpKms(_, managed) => managed.Some?
       case Vault(_, _, _, _, _, upload) =>
         var v := ServedValidator(ns, s.validatorGroup);
         upload || (v.Some? && v.value.init.Some?)
  }

  function BackendPlace(b: Backend, secret: string): Place {
    match b
    case Software(_) => InSecret(secret)
    case GcpKms(version, managed) => if managed.Some? then UnderKms(Normal(managed.value)) else InKms(version)
    case Vault(address, namespace, mount, key, version, _) =>
      InVault(address, if namespace.Some? then namespace.value else "",
              if mount.Some? && mount.value != "" then mount.value else "transit", key,
              if version.Some? then version.value else 1)
  }

  function SignerPlaces(ns: NodeSet, s: ResolvedSigner): set<Place> {
    {BackendPlace(s.spec.backend, s.keySecret)} + (if SignsWithLocalKey(ns, s) then {InSecret(s.keySecret)} else {})
  }

  /** Every place that holds the key a path signs with. */
  function Places(ns: NodeSet, p: Path): set<Place>
    requires Signs(ns, p)
  {
    match p
    case Legacy => OwnPlaces(ns.validator.value, LegacyDefaultSecret(ns))
    case Instance(i, j) => OwnPlaces(ns.nodes[i].validator.value, DefaultSecret(ns, ns.nodes[i].name, j))
    case Signer(k) => SignerPlaces(ns, Resolve(ns)[k])
    case Genesis(owner, e) => {InSecret(Initialiser(ns, owner).value.init.value.genesisValidators[e])}
  }

  predicate ShareKey(ns: NodeSet, p: Path, q: Path)
    requires Signs(ns, p) && Signs(ns, q)
  {
    exists a, b :: a in Places(ns, p) && b in Places(ns, q) && SameKey(a, b)
  }

  predicate IsSentry(ns: NodeSet, p: Path) {
    && p.Signer? && p.index < |Resolve(ns)|
    && Resolve(ns)[p.index].validatorGroup == "" && Resolve(ns)[p.index].spec.backend.Software?
  }

  /** A sentry may hold the key a genesis entry registers for it. */
  predicate Excused(ns: NodeSet, p: Path, q: Path) {
    (IsSentry(ns, p) && q.Genesis?) || (IsSentry(ns, q) && p.Genesis?)
  }

  /** No two paths share a key, but for a sentry and the genesis entry that registers its key. */
  ghost predicate KeysDistinct(ns: NodeSet) {
    forall p, q :: Signs(ns, p) && Signs(ns, q) && p != q && ShareKey(ns, p, q) ==> Excused(ns, p, q)
  }

  // ---- What the check does not see ----

  function DestinationOf(s: ResolvedSigner): Option<KmsImport.Destination> {
    if s.spec.backend.GcpKms? then s.spec.backend.managed else None
  }

  /** No signer uses a version, or imports into the crypto key, of another signer's import destination. */
  predicate KmsApart(ns: NodeSet) {
    forall k, l :: 0 <= k < |Resolve(ns)| && 0 <= l < |Resolve(ns)| && k != l ==>
      SignersKmsApart(Resolve(ns)[k], Resolve(ns)[l])
  }

  predicate SignersKmsApart(s: ResolvedSigner, t: ResolvedSigner) {
    DestinationOf(s).Some? && t.spec.backend.GcpKms? ==>
      if t.spec.backend.managed.Some?
      then KmsImport.CryptoKeyName(DestinationOf(s).value) != KmsImport.CryptoKeyName(t.spec.backend.managed.value)
      else !KmsImport.OwnsKeyVersion(DestinationOf(s).value, t.spec.backend.keyVersion)
  }

  /** A signer of a validator that names the empty secret, and so signs with the default one. */
  predicate Blank(ns: NodeSet, p: Path) {
    && p.Signer? && p.index < |Resolve(ns)| && SignsWithLocalKey(ns, Resolve(ns)[p.index])
    && (var v := ServedValidator(ns, Resolve(ns)[p.index].validatorGroup);
        v.Some? && v.value.privateKeySecret == Some(""))
  }

  /** Nothing else signs with the default secret of a validator that names the empty one. */
  ghost predicate BlankDefaultsUnused(ns: NodeSet) {
    forall p, q :: Blank(ns, p) && Signs(ns, q) && p != q ==> InSecret(Resolve(ns)[p.index].keySecret) !in Places(ns, q)
  }

  // ---- Every place is registered ----

  lemma {:induction false} InGroups(ns: NodeSet, n: nat, i: nat, r: Registration)
    requires i < n <= |ns.nodes| && r in GroupRegs(ns, i)
    ensures r in GroupsRegs(ns, n)
  {
    if i < n - 1 {
      InGroups(ns, n - 1, i, r);
    }
    InAppend(GroupsRegs(ns, n - 1), GroupRegs(ns, n - 1), r);
  }

  lemma InAppend(a: seq<Registration>, b: seq<Registration>, r: Registration)
    requires r in a || r in b
    ensures r in a + b
  {
  }

  lemma {:induction false} InSigners(signers: seq<ResolvedSigner>, n: nat, genesis: set<string>, k: nat,
                                     r: Registration)
    requires k < n <= |signers| && r in SignerRegs(signers[k], k, genesis)
    ensures r in SignersRegs(signers, n, genesis)
  {
    if k < n - 1 {
      InSigners(signers, n - 1, genesis, k, r);
    }
    InAppend(SignersRegs(signers, n - 1, genesis), SignerRegs(signers[n - 1], n - 1, genesis), r);
  }

  lemma {:induction false} InInstances(ns: NodeSet, i: nat, n: int, j: nat)
    requires i < |ns.nodes| && j < n
    ensures Registration(Instance(i, j), SecretKey(DefaultSecret(ns, ns.nodes[i].name, j))) in InstanceRegs(ns, i, n)
    decreases n
  {
    if j < n - 1 {
      InInstances(ns, i, n - 1, j);
    }
  }

  /** What a place is registered as; a managed import under its NUL-joined coordinates. */
  function KeyFor(a: Place): Key {
    match a
    case InSecret(name) => SecretKey(name)
    case InVault(address, namespace, mount, key, version) =>
      BackendKey(NulJoin(["vault", address, namespace, mount, key, PrintInt(version)]))
    case InKms(version) => BackendKey(NulJoin(["gcpkms", version]))
    case UnderKms(d) => BackendKey(NulJoin(["gcpkms", d.project, d.location.GetOr(""), d.keyRing, d.key]))
  }

  lemma GenesisRegistered(ns: NodeSet, p: Path)
    requires AcceptsGroups(ns) && p.Genesis? && Signs(ns, p)
    ensures forall a :: a in Places(ns, p) ==> Registration(p, KeyFor(a)) in Registrations(ns)
  {
    var init := Initialiser(ns, p.init).value.init;
    var r := Registration(p, SecretKey(init.value.genesisValidators[p.entry]));
    assert GenesisRegs(p.init, init)[p.entry] == r;
    if p.init.Some? {
      assert AcceptsGroup(ns, ns.nodes[p.init.value]);
      InGroups(ns, |ns.nodes|, p.init.value, r);
    }
  }

  lemma OwnRegistered(ns: NodeSet, p: Path, a: Place)
    requires AcceptsGroups(ns) && (p.Legacy? || p.Instance?) && Signs(ns, p) && a in Places(ns, p)
    ensures Registration(p, KeyFor(a)) in Registrations(ns)
  {
    var r := Registration(p, KeyFor(a));
    if p.Legacy? {
      assert r in LegacyRegs(ns);
    } else {
      var i, j := p.group, p.ordinal;
      assert AcceptsGroup(ns, ns.nodes[i]) && AcceptsValidator(ns, ns.nodes[i], ns.nodes[i].validator.value);
      if ns.nodes[i].validator.value.privateKeySecret.None? {
        InInstances(ns, i, ns.nodes[i].instances, j);
      }
      assert r in GroupRegs(ns, i);
      InGroups(ns, |ns.nodes|, i, r);
    }
  }

  ghost function GroupIndex(ns: NodeSet, name: string): (i: nat)
    requires exists i :: 0 <= i < |ns.nodes| && ns.nodes[i].name == name
    ensures i < |ns.nodes| && ns.nodes[i].name == name
  {
    var i :| 0 <= i < |ns.nodes| && ns.nodes[i].name == name;
    i
  }

  /** The validator a signer serves, as a path. */
  ghost function Served(ns: NodeSet, group: string): Path
    requires Validates(ns, group)
  {
    if group == VALIDATOR then Legacy else Instance(GroupIndex(ns, group), 0)
  }

  predicate InGenesis(ns: NodeSet, secret: string) { secret in GenesisSecrets(ns, |ns.nodes|) }

  /** A sentry whose key a genesis entry registers. */
  predicate GenesisSentry(ns: NodeSet, p: Path) {
    IsSentry(ns, p) && InGenesis(ns, Resolve(ns)[p.index].keySecret)
  }

  lemma BlockAccepted(ns: NodeSet, k: nat)
    requires Accepts(ns) && k < |Resolve(ns)|
    ensures AcceptsBlock(Resolve(ns)[k].spec, true) && AcceptsResolved(Resolve(ns)[k])
    ensures Resolve(ns)[k].validatorGroup == "" ==>
              Resolve(ns)[k].keySecret == SignerKeySecret(ns, Resolve(ns)[k].spec, "")
  {
    ResolvedAt(ns, k);
    if k >= TopCount(ns) {
      var i := GroupSignerOrigin(ns, ns.nodes, k - TopCount(ns));
      assert AcceptsOwn(ns.nodes[i]);
    }
  }

  lemma NotReserved(ns: NodeSet)
    requires AcceptsGroups(ns)
    ensures !IsValidatorGroup(ns, VALIDATOR)
  {
    assert forall i :: 0 <= i < |ns.nodes| ==> AcceptsGroup(ns, ns.nodes[i]);
  }

  lemma ServedHasNoTmKms(ns: NodeSet, k: nat)
    requires Accepts(ns) && k < |Resolve(ns)| && Resolve(ns)[k].validatorGroup != ""
    ensures var group := Resolve(ns)[k].validatorGroup;
            if group == VALIDATOR then ns.validator.Some? && NoTmKms(ns.validator)
            else exists i :: 0 <= i < |ns.nodes| && ns.nodes[i].name == group && ns.nodes[i].validator.Some?
                              && NoTmKms(ns.nodes[i].validator)
  {
    var group := Resolve(ns)[k].validatorGroup;
    ServesATarget(ns, k);
    NotReserved(ns);
    ResolvedAt(ns, k);
    if k >= TopCount(ns) {
      var i := GroupSignerOrigin(ns, ns.nodes, k - TopCount(ns));
      assert AcceptsOwn(ns.nodes[i]) && AcceptsGroup(ns, ns.nodes[i]);
    } else {
      var c := ns.cosmosigner.value;
      if c.nodeGroups != [] {
        var a :| 0 <= a < |c.nodeGroups| && c.nodeGroups[a] == group;
        assert AcceptsTarget(ns, c.nodeGroups[a]);
      }
    }
  }

  /** The served validator registers the secret its signer uses, unless it names the empty one. */
  lemma ServedRegistered(ns: NodeSet, k: nat)
    requires Accepts(ns) && k < |Resolve(ns)| && SignsWithLocalKey(ns, Resolve(ns)[k]) && !Blank(ns, Signer(k))
    ensures Validates(ns, Resolve(ns)[k].validatorGroup)
    ensures var s := Resolve(ns)[k];
            Registration(Served(ns, s.validatorGroup), SecretKey(s.keySecret)) in Registrations(ns)
  {
    var group := Resolve(ns)[k].validatorGroup;
    ServesATarget(ns, k);
    SignerOfGroup(ns, k, group);
    TargetedValidatorIsServed(ns, k, group);
    ServedHasNoTmKms(ns, k);
    var r := Registration(Served(ns, group), SecretKey(Resolve(ns)[k].keySecret));
    if group == VALIDATOR {
      NotReserved(ns);
      assert r in LegacyRegs(ns);
    } else {
      var i := GroupIndex(ns, group);
      assert AcceptsGroup(ns, ns.nodes[i]);
      FirstValidatorIs(ns.nodes, i);
      InInstances(ns, i, 1, 0);
      assert r in GroupRegs(ns, i);
      InGroups(ns, |ns.nodes|, i, r);
    }
  }

  /** The path a place is registered under: a served validator's own for its secret. */
  ghost function SpokenFor(ns: NodeSet, p: Path, a: Place): Path
    requires Accepts(ns) && Signs(ns, p)
  {
    if p.Signer? && a.InSecret? && Resolve(ns)[p.index].validatorGroup != "" then
      ServesATarget(ns, p.index);
      Served(ns, Resolve(ns)[p.index].validatorGroup)
    else p
  }

  lemma SignerRegistered(ns: NodeSet, k: nat, a: Place)
    requires Accepts(ns) && k < |Resolve(ns)| && a in Places(ns, Signer(k))
    requires a.InSecret? ==> !GenesisSentry(ns, Signer(k)) && !Blank(ns, Signer(k))
    ensures Registration(SpokenFor(ns, Signer(k), a), KeyFor(a)) in Registrations(ns)
  {
    var s := Resolve(ns)[k];
    if a.InSecret? && s.validatorGroup != "" {
      ServedRegistered(ns, k);
    } else {
      BlockAccepted(ns, k);
      var genesis := GenesisSecrets(ns, |ns.nodes|);
      var r := Registration(Signer(k), KeyFor(a));
      assert r in SignerRegs(s, k, genesis);
      InSigners(Resolve(ns), |Resolve(ns)|, genesis, k, r);
    }
  }

  lemma Registered(ns: NodeSet, p: Path, a: Place)
    requires Accepts(ns) && Signs(ns, p) && a in Places(ns, p)
    requires a.InSecret? ==> !GenesisSentry(ns, p) && !Blank(ns, p)
    ensures Registration(SpokenFor(ns, p, a), KeyFor(a)) in Registrations(ns)
  {
    match p
    case Signer(k) => SignerRegistered(ns, k, a);
    case Genesis(_, _) => GenesisRegistered(ns, p);
    case _ => OwnRegistered(ns, p, a);
  }

  lemma SentryRegistered(ns: NodeSet, p: Path)
    requires Accepts(ns) && IsSentry(ns, p)
    ensures Registration(p, SentryKey(Resolve(ns)[p.index].keySecret)) in Registrations(ns)
    ensures Places(ns, p) == {InSecret(Resolve(ns)[p.index].keySecret)}
  {
    var s, genesis := Resolve(ns)[p.index], GenesisSecrets(ns, |ns.nodes|);
    BlockAccepted(ns, p.index);
    var r := Registration(p, SentryKey(s.keySecret));
    assert r in SignerRegs(s, p.index, genesis);
    InSigners(Resolve(ns), |Resolve(ns)|, genesis, p.index, r);
  }

  // ---- Distinct registrations, distinct keys ----

  lemma SpokenForBySigner(ns: NodeSet, k: nat, a: Place, p: Path)
    requires Accepts(ns) && k < |Resolve(ns)| && Signs(ns, p) && !p.Signer?
    ensures SpokenFor(ns, Signer(k), a) != p
  {
    var s := Resolve(ns)[k];
    if s.validatorGroup != "" {
      ServesATarget(ns, k);
      SignerOfGroup(ns, k, s.validatorGroup);
    }
  }

  lemma SpokenForApart(ns: NodeSet, p: Path, q: Path, a: Place)
    requires Accepts(ns) && Signs(ns, p) && Signs(ns, q) && SpokenFor(ns, p, a) == SpokenFor(ns, q, a)
    ensures p == q
  {
    if p.Signer? && q.Signer? {
      var s, t := Resolve(ns)[p.index], Resolve(ns)[q.index];
      if s.validatorGroup != "" && t.validatorGroup != "" && a.InSecret? {
        ServesATarget(ns, p.index);
        ServesATarget(ns, q.index);
        assert s.validatorGroup == t.validatorGroup;
        ServedOnce(ns, p.index, q.index);
      }
    } else if p.Signer? {
      SpokenForBySigner(ns, p.index, a, q);
    } else if q.Signer? {
      SpokenForBySigner(ns, q.index, a, p);
    }
  }

  lemma OnlyRegistration(regs: seq<Registration>, r: Registration, r': Registration)
    requires Distinct(regs) && r in regs && r' in regs && r.key == r'.key
    ensures r == r'
  {
    var i :| 0 <= i < |regs| && regs[i] == r;
    var j :| 0 <= j < |regs| && regs[j] == r';
  }

  lemma {:induction false} GenesisEntryFor(ns: NodeSet, n: nat, secret: string) returns (p: Path)
    requires n <= |ns.nodes| && secret in GenesisSecrets(ns, n)
    ensures p.Genesis? && Signs(ns, p) && Places(ns, p) == {InSecret(secret)}
  {
    if n > 0 && secret in GenesisSecrets(ns, n - 1) {
      p := GenesisEntryFor(ns, n - 1, secret);
    } else {
      var owner := if n == 0 then None else Some(n - 1);
      var entries := Initialiser(ns, owner).value.init.value.genesisValidators;
      var e :| 0 <= e < |entries| && entries[e] == secret;
      p := Genesis(owner, e);
    }
  }

  /** A registered place belongs to one path. */
  lemma OnePathPerPlace(ns: NodeSet, p: Path, q: Path, a: Place)
    requires Accepts(ns) && Distinct(Registrations(ns)) && Signs(ns, p) && Signs(ns, q)
    requires a in Places(ns, p) && a in Places(ns, q)
    requires a.InSecret? ==> !GenesisSentry(ns, p) && !Blank(ns, p) && !GenesisSentry(ns, q) && !Blank(ns, q)
    ensures p == q
  {
    Registered(ns, p, a);
    Registered(ns, q, a);
    OnlyRegistration(Registrations(ns), Registration(SpokenFor(ns, p, a), KeyFor(a)),
                     Registration(SpokenFor(ns, q, a), KeyFor(a)));
    SpokenForApart(ns, p, q, a);
  }

  /** Only the genesis entry has the key of a sentry that a genesis entry registers. */
  lemma GenesisSentryIsAlone(ns: NodeSet, p: Path, q: Path, a: Place)
    requires Accepts(ns) && Distinct(Registrations(ns)) && Signs(ns, p) && Signs(ns, q) && !Blank(ns, q)
    requires a in Places(ns, p) && a in Places(ns, q) && GenesisSentry(ns, p) && !q.Genesis?
    ensures p == q
  {
    SentryRegistered(ns, p);
    if GenesisSentry(ns, q) {
      SentryRegistered(ns, q);
      var secret := SentryKey(Resolve(ns)[p.index].keySecret);
      OnlyRegistration(Registrations(ns), Registration(p, secret), Registration(q, secret));
    } else {
      var entry := GenesisEntryFor(ns, |ns.nodes|, Resolve(ns)[p.index].keySecret);
      OnePathPerPlace(ns, entry, q, a);
    }
  }

  lemma NoBlankShares(ns: NodeSet, p: Path, q: Path, a: Place)
    requires BlankDefaultsUnused(ns) && Signs(ns, p) && Signs(ns, q) && p != q
    requires a.InSecret? && a in Places(ns, p) && a in Places(ns, q)
    ensures !Blank(ns, p)
  {
  }

  /** Two paths with a place in common are one path, or a sentry and its genesis entry. */
  lemma CommonPlaceIsExcused(ns: NodeSet, p: Path, q: Path, a: Place)
    requires Accepts(ns) && Distinct(Registrations(ns)) && BlankDefaultsUnused(ns)
    requires Signs(ns, p) && Signs(ns, q) && p != q && a in Places(ns, p) && a in Places(ns, q)
    ensures Excused(ns, p, q)
  {
    if a.InSecret? {
      NoBlankShares(ns, p, q, a);
      NoBlankShares(ns, q, p, a);
    }
    if GenesisSentry(ns, p) {
      SentryRegistered(ns, p);
      if !q.Genesis? {
        GenesisSentryIsAlone(ns, p, q, a);
      }
    } else if GenesisSentry(ns, q) {
      SentryRegistered(ns, q);
      if !p.Genesis? {
        GenesisSentryIsAlone(ns, q, p, a);
      }
    } else {
      OnePathPerPlace(ns, p, q, a);
    }
  }

  /**
  Admission keeps all signing paths on different consensus keys exactly when no signer uses another
  signer's import destination, and nothing else uses the default secret of a validator that names the
  empty one. A sentry may always hold the key that a genesis entry registers for it.
  */
  lemma SigningKeysAreDistinct(ns: NodeSet)
    requires Accepts(ns) && Distinct(Registrations(ns))
    ensures KeysDistinct(ns) <==> KmsApart(ns) && BlankDefaultsUnused(ns)
  {
    if KmsApart(ns) && BlankDefaultsUnused(ns) {
      forall p, q | Signs(ns, p) && Signs(ns, q) && p != q && ShareKey(ns, p, q)
        ensures Excused(ns, p, q)
      {
        var a, b :| a in Places(ns, p) && b in Places(ns, q) && SameKey(a, b);
        if a == b {
          CommonPlaceIsExcused(ns, p, q, a);
        } else {
          KmsPlacesApart(ns, p, q, a, b);
        }
      }
    }
    if KeysDistinct(ns) {
      SharedDestinationsShareKeys(ns);
      SharedDefaultsShareKeys(ns);
    }
  }

  lemma KmsPlacesApart(ns: NodeSet, p: Path, q: Path, a: Place, b: Place)
    requires KmsApart(ns) && Signs(ns, p) && Signs(ns, q) && p != q
    requires a in Places(ns, p) && b in Places(ns, q) && a != b
    ensures !SameKey(a, b)
  {
    if p.Signer? && q.Signer? {
      assert SignersKmsApart(Resolve(ns)[p.index], Resolve(ns)[q.index]);
      assert SignersKmsApart(Resolve(ns)[q.index], Resolve(ns)[p.index]);
    }
  }

  lemma SharedDestinationsShareKeys(ns: NodeSet)
    requires KeysDistinct(ns)
    ensures KmsApart(ns)
  {
    forall k, l | 0 <= k < |Resolve(ns)| && 0 <= l < |Resolve(ns)| && k != l
      ensures SignersKmsApart(Resolve(ns)[k], Resolve(ns)[l])
    {
      var s, t := Resolve(ns)[k], Resolve(ns)[l];
      if !SignersKmsApart(s, t) {
        var a := UnderKms(Normal(DestinationOf(s).value));
        var b := if DestinationOf(t).Some? then UnderKms(Normal(DestinationOf(t).value))
                 else InKms(t.spec.backend.keyVersion);
        assert a in Places(ns, Signer(k)) && b in Places(ns, Signer(l)) && SameKey(a, b);
        assert ShareKey(ns, Signer(k), Signer(l));
      }
    }
  }

  lemma SharedDefaultsShareKeys(ns: NodeSet)
    requires KeysDistinct(ns)
    ensures BlankDefaultsUnused(ns)
  {
    forall p, q | Blank(ns, p) && Signs(ns, q) && p != q
      ensures InSecret(Resolve(ns)[p.index].keySecret) !in Places(ns, q)
    {
      var a := InSecret(Resolve(ns)[p.index].keySecret);
      assert a in Places(ns, p);
      if a in Places(ns, q) {
        assert SameKey(a, a);
        assert ShareKey(ns, p, q);
      }
    }
  }

  /** At most one sentry shares a given genesis entry's key. */
  lemma OneSentryPerEntry(ns: NodeSet, p: Path, q: Path, secret: string)
    requires Accepts(ns) && Distinct(Registrations(ns)) && IsSentry(ns, p) && IsSentry(ns, q)
    requires InSecret(secret) in Places(ns, p) && InSecret(secret) in Places(ns, q)
    ensures p == q
  {
    SentryRegistered(ns, p);
    SentryRegistered(ns, q);
    OnlyRegistration(Registrations(ns), Registration(p, SentryKey(secret)), Registration(q, SentryKey(secret)));
  }

  // ---- The same for recorded identities ----

  /** The identity of a validator that signs for itself. */
  function OwnFields(v: Validator, default: string): seq<string> {
    if v.tmKms.None? then ["software", v.privateKeySecret.GetOr(default)]
    else if Configured(v.tmKms.value) then TmKmsIdentity(v.tmKms.value)
    else ["tmkms", "unconfigured"]
  }

  /** The effective signing identity of a path, as it is recorded in status and digests. */
  function KeyFields(ns: NodeSet, p: Path): (fields: seq<string>)
    requires Signs(ns, p)
    ensures fields != []
  {
    match p
    case Legacy => OwnFields(ns.validator.value, LegacyDefaultSecret(ns))
    case Instance(i, j) => OwnFields(ns.nodes[i].validator.value, DefaultSecret(ns, ns.nodes[i].name, j))
    case Signer(k) => Resolve(ns)[k].Fields()
    case Genesis(owner, e) => ["software", Initialiser(ns, owner).value.init.value.genesisValidators[e]]
  }

  /** Where the key of an identity is. */
  function PlaceOf(ns: NodeSet, p: Path): Place
    requires Signs(ns, p)
  {
    match p
    case Signer(k) => BackendPlace(Resolve(ns)[k].spec.backend, Resolve(ns)[k].keySecret)
    case Genesis(owner, e) => InSecret(Initialiser(ns, owner).value.init.value.genesisValidators[e])
    case Legacy => OwnPlace(ns.validator.value, LegacyDefaultSecret(ns))
    case Instance(i, j) => OwnPlace(ns.nodes[i].validator.value, DefaultSecret(ns, ns.nodes[i].name, j))
  }

  function OwnPlace(v: Validator, default: string): Place {
    if v.tmKms.Some? && Configured(v.tmKms.value) then InTmKms(v.tmKms.value.hashicorp.value)
    else InSecret(v.privateKeySecret.GetOr(default))
  }

  /** The identity spells out the place. */
  function Spelled(a: Place): seq<string> {
    match a
    case InSecret(name) => ["software", name]
    case InVault(address, namespace, mount, key, version) =>
      ["vault", address, namespace, mount, key, PrintInt(version)]
    case InKms(version) => ["gcpkms", version]
    case UnderKms(d) => ["gcpkms-import", d.project, d.location.GetOr(""), d.keyRing, d.key]
  }

  lemma SpelledExactly(a: Place, b: Place)
    requires a.UnderKms? ==> a.destination.location.Some?
    requires b.UnderKms? ==> b.destination.location.Some?
    requires Spelled(a) == Spelled(b)
    ensures a == b
  {
    var x, y := Spelled(a), Spelled(b);
    assert x[0] == y[0] && x[1] == y[1];
    if a.InVault? && b.InVault? {
      assert x[2] == y[2] && x[3] == y[3] && x[4] == y[4] && x[5] == y[5];
      PrintIntInjective(a.number, b.number);
    } else if a.UnderKms? && b.UnderKms? {
      assert x[2] == y[2] && x[3] == y[3] && x[4] == y[4];
    }
  }

  lemma IdentityIsPlaced(ns: NodeSet, p: Path)
    requires Signs(ns, p) && KeyFields(ns, p)[0] != "tmkms"
    ensures KeyFields(ns, p) == Spelled(PlaceOf(ns, p)) && PlaceOf(ns, p) in Places(ns, p)
    ensures PlaceOf(ns, p).UnderKms? ==> PlaceOf(ns, p).destination.location.Some?
  {
  }

  /**
  The effective signing identities of all paths with a key differ, with the same exception, unless
  something else uses the default secret of a validator that names the empty one.
  */
  lemma IdentitiesAreDistinct(ns: NodeSet, p: Path, q: Path)
    requires Accepts(ns) && Distinct(Registrations(ns)) && BlankDefaultsUnused(ns)
    requires Signs(ns, p) && Signs(ns, q) && p != q && KeyFields(ns, p)[0] != "tmkms"
    requires AllNulFree(KeyFields(ns, p)) && AllNulFree(KeyFields(ns, q))
    ensures NulJoin(KeyFields(ns, p)) != NulJoin(KeyFields(ns, q)) || Excused(ns, p, q)
  {
    if NulJoin(KeyFields(ns, p)) == NulJoin(KeyFields(ns, q)) {
      NulJoinInjective(KeyFields(ns, p), KeyFields(ns, q));
      IdentityIsPlaced(ns, p);
      IdentityIsPlaced(ns, q);
      SpelledExactly(PlaceOf(ns, p), PlaceOf(ns, q));
      CommonPlaceIsExcused(ns, p, q, PlaceOf(ns, p));
    }
  }

  // ---- Destinations ----

  predicate SlashFree(d: KmsImport.Destination) {
    '/' !in d.project && '/' !in KmsImport.Location(d) && '/' !in d.keyRing && '/' !in d.key
  }

  /** Coordinates without slashes are recovered from the crypto key's name. */
  lemma CryptoKeyNameInjective(d: KmsImport.Destination, e: KmsImport.Destination)
    requires SlashFree(d) && SlashFree(e) && KmsImport.CryptoKeyName(d) == KmsImport.CryptoKeyName(e)
    ensures KmsImport.SameDestination(d, e)
  {
    var l, m := KmsImport.Location(d), KmsImport.Location(e);
    var keys, keys' := d.keyRing + ("/cryptoKeys/" + d.key), e.keyRing + ("/cryptoKeys/" + e.key);
    var rings, rings' := l + ("/keyRings/" + keys), m + ("/keyRings/" + keys');
    SamePrefix("projects/", d.project + ("/locations/" + rings), e.project + ("/locations/" + rings'));
    CutField("/locations/", d.project, rings, e.project, rings');
    CutField("/keyRings/", l, keys, m, keys');
    CutField("/cryptoKeys/", d.keyRing, d.key, e.keyRing, e.key);
  }

  lemma SamePrefix(prefix: string, s: string, t: string)
    requires prefix + s == prefix + t
    ensures s == t
  {
    assert s == (prefix + s)[|prefix|..] && t == (prefix + t)[|prefix|..];
  }

  lemma CutField(sep: string, a: string, x: string, b: string, y: string)
    requires sep != "" && sep[0] == '/' && '/' !in a && '/' !in b && a + (sep + x) == b + (sep + y)
    ensures a == b && x == y
  {
    var rest := sep[1..];
    assert sep == ['/'] + rest;
    assert a + (sep + x) == a + ['/'] + (rest + x) && b + (sep + y) == b + ['/'] + (rest + y);
    FirstField('/', a, rest + x, b, rest + y);
    SamePrefix(rest, x, y);
  }

  /** With well-formed coordinates, two imports into one crypto key are refused: only pinned versions escape. */
  lemma DestinationsAreDistinct(ns: NodeSet, k: nat, l: nat)
    requires Accepts(ns) && Distinct(Registrations(ns)) && k < |Resolve(ns)| && l < |Resolve(ns)| && k != l
    requires DestinationOf(Resolve(ns)[k]).Some? && DestinationOf(Resolve(ns)[l]).Some?
    requires SlashFree(DestinationOf(Resolve(ns)[k]).value) && SlashFree(DestinationOf(Resolve(ns)[l]).value)
    ensures SignersKmsApart(Resolve(ns)[k], Resolve(ns)[l])
  {
    var d, e := DestinationOf(Resolve(ns)[k]).value, DestinationOf(Resolve(ns)[l]).value;
    if KmsImport.CryptoKeyName(d) == KmsImport.CryptoKeyName(e) {
      CryptoKeyNameInjective(d, e);
      assert Normal(d) == Normal(e);
      OnePathPerPlace(ns, Signer(k), Signer(l), UnderKms(Normal(d)));
    }
  }

  // ---- Keys that used to sign ----

  /** The signer of a targeted validator group, by index. */
  lemma SignerIndex(ns: NodeSet, i: nat) returns (k: nat)
    requires Accepts(ns) && i < |ns.nodes| && ns.nodes[i].validator.Some? && Targeted(ns, ns.nodes[i].name)
    ensures k < |Resolve(ns)| && Resolve(ns)[k].validatorGroup == ns.nodes[i].name
    ensures GroupCosmosigner(ns, ns.nodes[i].name) == Some(Resolve(ns)[k].spec) && NoTmKms(ns.nodes[i].validator)
  {
    var group := ns.nodes[i].name;
    TargetedIffResolved(ns, group);
    var s :| s in Resolve(ns) && group in s.targets;
    k :| 0 <= k < |Resolve(ns)| && Resolve(ns)[k] == s;
    assert IsValidatorGroup(ns, group);
    TargetedValidatorIsServed(ns, k, group);
    SignerOfGroup(ns, k, group);
    assert AcceptsGroup(ns, ns.nodes[i]);
    ServedHasNoTmKms(ns, k);
  }

  /**
  An external signer put in front of a validator of an established chain does not free the validator's
  former local key: unless status proves that key never signed, no signing path may use its secret.
  */
  lemma FormerLocalKeyStaysReserved(ns: NodeSet, i: nat, p: Path)
    requires Accepts(ns) && Distinct(Registrations(ns)) && Signs(ns, p) && !Blank(ns, p)
    requires i < |ns.nodes| && ns.nodes[i].validator.Some? && Targeted(ns, ns.nodes[i].name)
    requires ns.nodes[i].validator.value.privateKeySecret != Some("")
    requires ns.chainID != "" && !ServedExternally(ns, ns.nodes[i].name)
    requires p.Signer? ==> Resolve(ns)[p.index].validatorGroup != ns.nodes[i].name
    ensures InSecret(ValidatorKeySecret(ns, ns.nodes[i].name)) !in Places(ns, p)
  {
    var k := SignerIndex(ns, i);
    assert AcceptsGroup(ns, ns.nodes[i]);
    FirstValidatorIs(ns.nodes, i);
    InInstances(ns, i, 1, 0);
    var a := InSecret(ValidatorKeySecret(ns, ns.nodes[i].name));
    var r := Registration(Instance(i, 0), KeyFor(a));
    assert r in LocalRegs(ns, i, ns.nodes[i].validator.value);
    InGroups(ns, |ns.nodes|, i, r);
    if a in Places(ns, p) {
      NotRegisteredElsewhere(ns, r, p, a);
    }
  }

  lemma NotRegisteredElsewhere(ns: NodeSet, r: Registration, p: Path, a: Place)
    requires Accepts(ns) && Distinct(Registrations(ns)) && Signs(ns, p) && !Blank(ns, p) && r in Registrations(ns)
    requires r.path.Instance? && r.path.group < |ns.nodes| && Targeted(ns, ns.nodes[r.path.group].name)
    requires p.Signer? ==> Resolve(ns)[p.index].validatorGroup != ns.nodes[r.path.group].name
    requires r.key == KeyFor(a) && a.InSecret?
    ensures a !in Places(ns, p)
  {
    if a in Places(ns, p) {
      var q := p;
      if GenesisSentry(ns, p) {
        SentryRegistered(ns, p);
        q := GenesisEntryFor(ns, |ns.nodes|, Resolve(ns)[p.index].keySecret);
      }
      Registered(ns, q, a);
      OnlyRegistration(Registrations(ns), Registration(SpokenFor(ns, q, a), KeyFor(a)), r);
    }
  }

  // ---- Why the conditions are there ----

  const CREATING := Validator(None, None, None, true, None, "", "", "")

  /** Two groups of one instance, the first with a validator and a signer. */
  function TwoGroups(v: Validator, c: Cosmosigner, w: Option<Validator>, d: Option<Cosmosigner>): NodeSet {
    NodeSet("n", None, [Group("a", 1, 0, Some(v), Some(c), false, false, false),
                        Group("b", 1, 0, w, d, false, false, false)], None, None, [], [], "", [])
  }

  lemma TwoGroupsResolve(v: Validator, c: Cosmosigner, w: Option<Validator>, d: Option<Cosmosigner>)
    ensures var ns := TwoGroups(v, c, w, d);
            && Resolve(ns) == [ResolveGroup(ns, ns.nodes[0])]
                              + (if d.Some? then [ResolveGroup(ns, ns.nodes[1])] else [])
            && ValidatorKeySecret(ns, "a") == ExplicitOr(v.privateKeySecret, "n-a-0-priv-key")
            && Targeted(ns, "a") && (Targeted(ns, "b") <==> d.Some?)
  {
    var ns := TwoGroups(v, c, w, d);
    var a, b := ns.nodes[0], ns.nodes[1];
    assert ns.nodes[1..] == [b] && [b][1..] == [];
    assert ResolveGroups(ns, [b]) == (if d.Some? then [ResolveGroup(ns, b)] else []) + ResolveGroups(ns, [b][1..]);
    assert FirstValidator(ns.nodes, "a") == Some(v);
    assert Itoa(0) == "0";
    assert DefaultSecret(ns, "a", 0) == "n-a-0-priv-key";
    assert "a" != VALIDATOR by { assert "a"[0] != VALIDATOR[0]; }
    assert OwnSigner(ns.nodes, "b") == d by {
      assert "a"[0] != "b"[0];
      assert OwnSigner([b], "b") == if d.Some? then d else OwnSigner([b][1..], "b");
    }
  }

  /** Group a names the empty secret and has a signer; group b names a's default secret. */
  function Evading(): NodeSet {
    TwoGroups(CREATING.(privateKeySecret := Some("")), Cosmosigner(Software(None), 1, []),
              Some(CREATING.(privateKeySecret := Some("n-a-0-priv-key"))), None)
  }

  /**
  The check registers an explicit empty name as it is, while resolution falls back to the default
  secret: this spec passes every check, and two paths sign with one key.
  */
  lemma EmptySecretNameEvadesTheCheck()
    ensures Accepts(Evading()) && Distinct(Registrations(Evading())) && KmsApart(Evading())
    ensures !BlankDefaultsUnused(Evading()) && !KeysDistinct(Evading())
  {
    var ns := Evading();
    var v, c, w := ns.nodes[0].validator.value, ns.nodes[0].cosmosigner.value, ns.nodes[1].validator;
    TwoGroupsResolve(v, c, w, None);
    EvadingAccepted();
    EvadingRegisters();
    assert Blank(ns, Signer(0)) by { assert FirstValidator(ns.nodes, "a") == Some(v); }
    assert InSecret("n-a-0-priv-key") in Places(ns, Instance(1, 0));
    SigningKeysAreDistinct(ns);
  }

  lemma EvadingAccepted()
    ensures Accepts(Evading())
  {
    var ns := Evading();
    TwoGroupsResolve(ns.nodes[0].validator.value, ns.nodes[0].cosmosigner.value, ns.nodes[1].validator, None);
    assert AcceptsGroup(ns, ns.nodes[0]) && AcceptsGroup(ns, ns.nodes[1]);
    assert AcceptsOwn(ns.nodes[0]) && AcceptsOwn(ns.nodes[1]) && AcceptsResolved(Resolve(ns)[0]);
  }

  lemma EvadingRegisters()
    ensures Registrations(Evading()) ==
            [Registration(Instance(0, 0), SecretKey("")), Registration(Instance(1, 0), SecretKey("n-a-0-priv-key"))]
  {
    var ns := Evading();
    TwoGroupsResolve(ns.nodes[0].validator.value, ns.nodes[0].cosmosigner.value, ns.nodes[1].validator, None);
    var genesis := GenesisSecrets(ns, 2);
    var s := Resolve(ns)[0];
    assert GroupRegs(ns, 0) == [Registration(Instance(0, 0), SecretKey(""))];
    assert GroupRegs(ns, 1) == [Registration(Instance(1, 0), SecretKey("n-a-0-priv-key"))];
    assert GroupsRegs(ns, 1) == GroupRegs(ns, 0);
    assert GroupsRegs(ns, 2) == GroupsRegs(ns, 1) + GroupRegs(ns, 1);
    assert SignersRegs(Resolve(ns), 1, genesis) == SignerRegs(s, 0, genesis) == [];
  }

  /** Group a imports its validator's key into a destination; group b is a sentry pinning a version of it. */
  function Pinning(d: KmsImport.Destination, version: string): NodeSet {
    TwoGroups(CREATING, Cosmosigner(GcpKms("", Some(d)), 1, []), None, Some(Cosmosigner(GcpKms(version, None), 1, [])))
  }

  /**
  An import is registered by its coordinates and a pinned version by its resource name, and the two are
  never compared: for every destination and version of it there is a spec that passes every check and
  puts one key behind two signers as soon as the import has created that version.
  */
  lemma PinnedVersionEvadesTheCheck(d: KmsImport.Destination, version: string)
    requires d.project != "" && d.keyRing != "" && d.key != "" && d.location != Some("")
    requires KmsImport.OwnsKeyVersion(d, version)
    requires NulFree(version) && AllNulFree(KmsImport.ImportIdentity(d))
    ensures var ns := Pinning(d, version);
            Accepts(ns) && Distinct(Registrations(ns)) && BlankDefaultsUnused(ns) && !KmsApart(ns) && !KeysDistinct(ns)
  {
    var ns := Pinning(d, version);
    PinningAccepted(d, version);
    PinningRegisters(d, version);
    PinningResolves(d, version);
    assert !SignersKmsApart(Resolve(ns)[0], Resolve(ns)[1]);
    SigningKeysAreDistinct(ns);
  }

  lemma PinningResolves(d: KmsImport.Destination, version: string)
    ensures var ns := Pinning(d, version);
            && Resolve(ns) == [ResolveGroup(ns, ns.nodes[0]), ResolveGroup(ns, ns.nodes[1])]
            && Resolve(ns)[0].keySecret == "n-a-0-priv-key" && Targeted(ns, "a") && Targeted(ns, "b")
            && forall p :: !Blank(ns, p)
  {
    var ns := Pinning(d, version);
    TwoGroupsResolve(CREATING, ns.nodes[0].cosmosigner.value, None, ns.nodes[1].cosmosigner);
    assert FirstValidator(ns.nodes, "a") == Some(CREATING);
    assert "a" != VALIDATOR by { assert "a"[0] != VALIDATOR[0]; }
  }

  lemma PinningAccepted(d: KmsImport.Destination, version: string)
    requires d.project != "" && d.keyRing != "" && d.key != "" && d.location != Some("") && version != ""
    ensures Accepts(Pinning(d, version))
  {
    var ns := Pinning(d, version);
    PinningResolves(d, version);
    assert AcceptsGroup(ns, ns.nodes[0]) && AcceptsGroup(ns, ns.nodes[1]);
    assert AcceptsOwn(ns.nodes[0]) && AcceptsOwn(ns.nodes[1]);
    assert AcceptsResolved(Resolve(ns)[0]) && AcceptsResolved(Resolve(ns)[1]);
  }

  lemma PinningGroups(d: KmsImport.Destination, version: string)
    ensures ValidatorRegs(Pinning(d, version)) == [Registration(Instance(0, 0), SecretKey("n-a-0-priv-key"))]
  {
    var ns := Pinning(d, version);
    PinningResolves(d, version);
    var local := Registration(Instance(0, 0), SecretKey("n-a-0-priv-key"));
    assert Itoa(0) == "0";
    assert InstanceRegs(ns, 0, 1) == InstanceRegs(ns, 0, 0) + [local] by {
      assert DefaultSecret(ns, "a", 0) == "n-a-0-priv-key";
    }
    assert GroupRegs(ns, 0) == [local] && GroupRegs(ns, 1) == [];
    assert GroupsRegs(ns, 1) == GroupRegs(ns, 0);
    assert GroupsRegs(ns, 2) == GroupsRegs(ns, 1) + GroupRegs(ns, 1);
  }

  /** What the import and the pinned version are registered as. */
  function ManagedKey(d: KmsImport.Destination): Key {
    BackendKey(NulJoin(["gcpkms"] + KmsImport.ImportIdentity(d)))
  }

  function PinnedKey(version: string): Key { BackendKey(NulJoin(["gcpkms", version])) }

  lemma KmsKeysDiffer(d: KmsImport.Destination, version: string)
    requires NulFree(version) && AllNulFree(KmsImport.ImportIdentity(d))
    ensures ManagedKey(d) != PinnedKey(version)
  {
    var managed, pinned := ["gcpkms"] + KmsImport.ImportIdentity(d), ["gcpkms", version];
    if NulJoin(managed) == NulJoin(pinned) {
      NulJoinInjective(managed, pinned);
    }
  }

  lemma PinningSigners(d: KmsImport.Destination, version: string)
    requires version != ""
    ensures var ns := Pinning(d, version);
            SignersRegs(Resolve(ns), |Resolve(ns)|, GenesisSecrets(ns, |ns.nodes|)) ==
            [Registration(Signer(0), ManagedKey(d)), Registration(Signer(1), PinnedKey(version))]
  {
    var ns := Pinning(d, version);
    PinningResolves(d, version);
    var signers, genesis := Resolve(ns), GenesisSecrets(ns, |ns.nodes|);
    var managed, pinned := Registration(Signer(0), ManagedKey(d)), Registration(Signer(1), PinnedKey(version));
    assert SignerRegs(signers[0], 0, genesis) == [managed];
    assert SignerRegs(signers[1], 1, genesis) == [pinned];
    assert SignersRegs(signers, 1, genesis) == SignersRegs(signers, 0, genesis) + [managed];
    assert SignersRegs(signers, 2, genesis) == SignersRegs(signers, 1, genesis) + [pinned];
  }

  lemma PinningRegisters(d: KmsImport.Destination, version: string)
    requires version != "" && NulFree(version) && AllNulFree(KmsImport.ImportIdentity(d))
    ensures Distinct(Registrations(Pinning(d, version)))
  {
    PinningGroups(d, version);
    PinningSigners(d, version);
    KmsKeysDiffer(d, version);
  }
}
