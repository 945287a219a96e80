/** Who claims which key, on the spec itself: the uniqueness check refuses exactly two claims to one key. */
module KeyReservations {
  import opened Wrappers
  import opened Encoding
  import opened NodeSets
  import opened Admission
  import opened SigningKeys
  import opened KeySharing

  // ---- Claims ----

  /** The status entry is of this very service: the same group, with the same key, from the start. */
  predicate Tells(st: SignerStatus, s: ResolvedSigner) {
    st.servingGroup == s.validatorGroup && st.atEstablishment == Some(s.Identity())
  }

  /** The first entry under this name. */
  predicate FirstNamed(signers: seq<SignerStatus>, i: nat, name: string) {
    i < |signers| && signers[i].name == name && forall j :: 0 <= j < i ==> signers[j].name != name
  }

  /**
  Status proves that the local key of the validator behind this signer never signed: the signer's own
  entry says so, or, if it has none, all entries of this service, of which there is one.
  */
  predicate ProvenUnused(ns: NodeSet, s: ResolvedSigner) {
    if exists i :: 0 <= i < |ns.signers| && ns.signers[i].name == s.name then
      exists i :: && 0 <= i < |ns.signers| && FirstNamed(ns.signers, i, s.name)
                  && Tells(ns.signers[i], s) && ns.signers[i].localKeyEverServed == Some(false)
    else
      && (exists i :: 0 <= i < |ns.signers| && Tells(ns.signers[i], s))
      && (forall i :: 0 <= i < |ns.signers| && Tells(ns.signers[i], s) ==>
            ns.signers[i].localKeyEverServed == Some(false))
  }

  /** The local key of a validator behind a signer signs, is imported or uploaded, or may have signed. */
  predicate MayHaveSigned(ns: NodeSet, v: Validator, s: ResolvedSigner) {
    || v.init.Some? || v.createValidator
    || s.spec.backend.Software?
    || (s.spec.backend.Vault? && s.spec.backend.uploadGenerated)
    || (s.spec.backend.GcpKms? && s.spec.backend.managed.Some?)
    || (ns.chainID != "" && !ProvenUnused(ns, s))
  }

  /** The validator of this path and the name of its group; only the first instance counts behind a signer. */
  predicate IsValidator(ns: NodeSet, p: Path) {
    || (p.Legacy? && ns.validator.Some?)
    || (p.Instance? && p.group < |ns.nodes| && p.ordinal == 0 && ns.nodes[p.group].validator.Some?)
  }

  function ValidatorAt(ns: NodeSet, p: Path): Validator
    requires IsValidator(ns, p)
  {
    if p.Legacy? then ns.validator.value else ns.nodes[p.group].validator.value
  }

  function GroupAt(ns: NodeSet, p: Path): string
    requires IsValidator(ns, p)
  {
    if p.Legacy? then VALIDATOR else ns.nodes[p.group].name
  }

  /** The secret a validator names, or its first instance's. */
  function SecretAt(ns: NodeSet, p: Path): string
    requires IsValidator(ns, p)
  {
    ValidatorAt(ns, p).privateKeySecret.GetOr(
      if p.Legacy? then ns.name + "-validator-priv-key" else DefaultSecret(ns, ns.nodes[p.group].name, 0))
  }

  /** The path claims a place: it signs with the key there, or it is behind a signer and may have. */
  ghost predicate Claims(ns: NodeSet, p: Path, a: Place) {
    || (Signs(ns, p) && a in Places(ns, p) && !(p.Signer? && a.InSecret? && LeavesSecret(ns, p.index)))
    || (a.InSecret? && IsValidator(ns, p) && a.name == SecretAt(ns, p)
        && exists k: nat :: Fronts(ns, k, p) && MayHaveSigned(ns, ValidatorAt(ns, p), Resolve(ns)[k]))
  }

  /** A signer leaves a local secret to the validator it serves, or to the genesis entry of its key. */
  ghost predicate LeavesSecret(ns: NodeSet, k: nat) {
    k < |Resolve(ns)| && (Resolve(ns)[k].validatorGroup != "" || EntryNames(ns, Resolve(ns)[k].keySecret))
  }

  ghost predicate EntryNames(ns: NodeSet, secret: string) {
    exists p: Path :: p.Genesis? && Signs(ns, p) && Places(ns, p) == {InSecret(secret)}
  }

  /** The signer that serves this validator. */
  predicate Fronts(ns: NodeSet, k: nat, p: Path) {
    k < |Resolve(ns)| && IsValidator(ns, p) && Resolve(ns)[k].validatorGroup == GroupAt(ns, p)
  }

  /** The keys a claim stands for: tmKMS keys are compared with each other in a second form. */
  function KeysFor(p: Path, a: Place): set<Key> {
    {KeyFor(a)} +
    (if a.InVault? && !p.Signer? then {TmKmsKey(NulJoin(["hashicorp", a.address, a.key]))} else {})
  }

  /** No key has two claimants, and no two sentries name one secret. */
  ghost predicate OneClaimant(ns: NodeSet) {
    && (forall p, a, q, b :: Claims(ns, p, a) && Claims(ns, q, b) && p != q ==> KeysFor(p, a) !! KeysFor(q, b))
    && (forall p, q :: IsSentry(ns, p) && IsSentry(ns, q) && Places(ns, p) == Places(ns, q) ==> p == q)
  }

  // ---- The evidence in status ----

  lemma {:induction false} StatusOfIsFirst(signers: seq<SignerStatus>, name: string)
    ensures match StatusOf(signers, name)
            case None => forall i :: 0 <= i < |signers| ==> signers[i].name != name
            case Some(st) => exists i: nat :: FirstNamed(signers, i, name) && signers[i] == st
  {
    if signers != [] {
      var rest := signers[1..];
      StatusOfIsFirst(rest, name);
      if signers[0].name == name {
        assert FirstNamed(signers, 0, name);
      } else if StatusOf(rest, name).Some? {
        var i: nat :| FirstNamed(rest, i, name) && rest[i] == StatusOf(rest, name).value;
        assert forall j :: 0 < j <= i ==> signers[j] == rest[j - 1];
        assert FirstNamed(signers, i + 1, name) && signers[i + 1] == rest[i];
      } else {
        assert forall j :: 0 < j < |signers| ==> signers[j] == rest[j - 1];
      }
    }
  }

  lemma {:induction false} FirstServingIs(signers: seq<ResolvedSigner>, k: nat, group: string)
    requires k < |signers| && signers[k].validatorGroup == group
    requires forall l :: 0 <= l < k ==> signers[l].validatorGroup != group
    ensures FirstServing(signers, group) == Some(signers[k])
  {
    if k > 0 {
      assert forall l :: 0 <= l < k - 1 ==> signers[1..][l] == signers[l + 1];
      FirstServingIs(signers[1..], k - 1, group);
    }
  }

  lemma ProvenExactly(ns: NodeSet, k: nat)
    requires Accepts(ns) && k < |Resolve(ns)| && Resolve(ns)[k].validatorGroup != ""
    ensures ServedExternally(ns, Resolve(ns)[k].validatorGroup) <==> ProvenUnused(ns, Resolve(ns)[k])
  {
    var s := Resolve(ns)[k];
    forall l | 0 <= l < k
      ensures Resolve(ns)[l].validatorGroup != s.validatorGroup
    {
      if Resolve(ns)[l].validatorGroup == s.validatorGroup {
        ServedOnce(ns, k, l);
      }
    }
    FirstServingIs(Resolve(ns), k, s.validatorGroup);
    StatusOfIsFirst(ns.signers, s.name);
    assert forall st :: MatchesHistory(st, s, s.validatorGroup) <==> Tells(st, s);
    if StatusOf(ns.signers, s.name).Some? {
      var i: nat :| FirstNamed(ns.signers, i, s.name) && ns.signers[i] == StatusOf(ns.signers, s.name).value;
      assert forall j: nat :: FirstNamed(ns.signers, j, s.name) ==> j == i;
    }
  }

  lemma FrontedExactly(ns: NodeSet, k: nat, p: Path)
    requires Accepts(ns) && Fronts(ns, k, p)
    ensures LeavesLocalKeyUnused(ns, GroupAt(ns, p), ValidatorAt(ns, p)) <==>
            !MayHaveSigned(ns, ValidatorAt(ns, p), Resolve(ns)[k])
    ensures Targeted(ns, GroupAt(ns, p)) && ValidatorAt(ns, p).tmKms.None?
  {
    var group := GroupAt(ns, p);
    assert p.Instance? ==> AcceptsGroup(ns, ns.nodes[p.group]);
    assert group != "";
    ServesATarget(ns, k);
    SignerOfGroup(ns, k, group);
    ProvenExactly(ns, k);
    ServedHasNoTmKms(ns, k);
  }

  /** A validator has a signer in front of it exactly when it is targeted. */
  lemma TargetedIsFronted(ns: NodeSet, p: Path) returns (k: nat)
    requires Accepts(ns) && IsValidator(ns, p) && Targeted(ns, GroupAt(ns, p))
    ensures Fronts(ns, k, p)
  {
    var group := GroupAt(ns, p);
    TargetedIffResolved(ns, group);
    var s :| s in Resolve(ns) && group in s.targets;
    k :| 0 <= k < |Resolve(ns)| && Resolve(ns)[k] == s;
    assert Validates(ns, group);
    TargetedValidatorIsServed(ns, k, group);
  }

  // ---- Every registration stands for a claim ----

  ghost predicate Stands(ns: NodeSet, r: Registration) {
    || (exists a :: Claims(ns, r.path, a) && r.key in KeysFor(r.path, a))
    || (IsSentry(ns, r.path) && r.key == SentryKey(Resolve(ns)[r.path.index].keySecret))
  }

  lemma ClaimStands(ns: NodeSet, r: Registration, a: Place)
    requires Claims(ns, r.path, a) && r.key in KeysFor(r.path, a)
    ensures Stands(ns, r)
  {
  }

  lemma LocalStands(ns: NodeSet, p: Path)
    requires Accepts(ns) && IsValidator(ns, p) && UsesLocalKey(ns, GroupAt(ns, p), ValidatorAt(ns, p))
    ensures Stands(ns, Registration(p, SecretKey(SecretAt(ns, p))))
  {
    var a := InSecret(SecretAt(ns, p));
    if Targeted(ns, GroupAt(ns, p)) {
      var k := TargetedIsFronted(ns, p);
      FrontedExactly(ns, k, p);
    } else {
      assert p.Instance? ==> AcceptsGroup(ns, ns.nodes[p.group]);
      assert a in Places(ns, p);
    }
    ClaimStands(ns, Registration(p, SecretKey(SecretAt(ns, p))), a);
  }

  lemma TmKmsStands(ns: NodeSet, p: Path, r: Registration)
    requires Accepts(ns) && IsValidator(ns, p) && r in TmKmsRegs(p, ValidatorAt(ns, p).tmKms)
    ensures Stands(ns, r)
  {
    if Targeted(ns, GroupAt(ns, p)) {
      var k := TargetedIsFronted(ns, p);
      FrontedExactly(ns, k, p);
    } else {
      assert p.Instance? ==> AcceptsGroup(ns, ns.nodes[p.group]);
      ClaimStands(ns, r, InTmKms(ValidatorAt(ns, p).tmKms.value.hashicorp.value));
    }
  }

  lemma GenesisStands(ns: NodeSet, owner: Option<nat>, r: Registration)
    requires owner.Some? ==> owner.value < |ns.nodes|
    requires Initialiser(ns, owner).Some? && r in GenesisRegs(owner, Initialiser(ns, owner).value.init)
    ensures Stands(ns, r)
  {
    var entries := Initialiser(ns, owner).value.init.value.genesisValidators;
    var e :| 0 <= e < |entries| && r == Registration(Genesis(owner, e), SecretKey(entries[e]));
    ClaimStands(ns, r, InSecret(entries[e]));
  }

  lemma {:induction false} InstanceOf(ns: NodeSet, i: nat, n: int, r: Registration) returns (j: nat)
    requires i < |ns.nodes| && r in InstanceRegs(ns, i, n)
    ensures j < n && r == Registration(Instance(i, j), SecretKey(DefaultSecret(ns, ns.nodes[i].name, j)))
    decreases n
  {
    if r in InstanceRegs(ns, i, n - 1) {
      j := InstanceOf(ns, i, n - 1, r);
    } else {
      j := n - 1;
    }
  }

  lemma GroupStands(ns: NodeSet, i: nat, r: Registration)
    requires Accepts(ns) && i < |ns.nodes| && r in GroupRegs(ns, i)
    ensures Stands(ns, r)
  {
    var g := ns.nodes[i];
    var v := g.validator.value;
    var p := Instance(i, 0);
    if r in LocalRegs(ns, i, v) {
      if v.privateKeySecret.None? {
        var j := InstanceOf(ns, i, if Targeted(ns, g.name) then 1 else g.instances, r);
        if j > 0 {
          ClaimStands(ns, r, InSecret(DefaultSecret(ns, g.name, j)));
          return;
        }
      }
      LocalStands(ns, p);
    } else if r in TmKmsRegs(p, v.tmKms) {
      TmKmsStands(ns, p, r);
    } else {
      GenesisStands(ns, Some(i), r);
    }
  }

  lemma LegacyStands(ns: NodeSet, r: Registration)
    requires Accepts(ns) && r in LegacyRegs(ns)
    ensures Stands(ns, r)
  {
    var v := ns.validator.value;
    if r in TmKmsRegs(Legacy, v.tmKms) {
      TmKmsStands(ns, Legacy, r);
    } else if r in GenesisRegs(None, v.init) {
      GenesisStands(ns, None, r);
    } else {
      LocalStands(ns, Legacy);
    }
  }

  lemma GenesisSecretsExact(ns: NodeSet, secret: string)
    requires AcceptsGroups(ns)
    ensures InGenesis(ns, secret) <==> EntryNames(ns, secret)
  {
    if InGenesis(ns, secret) {
      var p := GenesisEntryFor(ns, |ns.nodes|, secret);
    }
    if p: Path :| p.Genesis? && Signs(ns, p) && Places(ns, p) == {InSecret(secret)} {
      var entries := Initialiser(ns, p.init).value.init.value.genesisValidators;
      assert InSecret(entries[p.entry]) in Places(ns, p);
      if p.init.Some? {
        assert AcceptsGroup(ns, ns.nodes[p.init.value]);
        EntryCollected(ns, |ns.nodes|, p.init.value, secret);
      } else {
        LegacyCollected(ns, |ns.nodes|, secret);
      }
    }
  }

  lemma {:induction false} EntryCollected(ns: NodeSet, n: nat, i: nat, secret: string)
    requires i < n <= |ns.nodes| && ns.nodes[i].instances != 0 && secret in EntrySecrets(ns.nodes[i].validator)
    ensures secret in GenesisSecrets(ns, n)
  {
    if i < n - 1 {
      EntryCollected(ns, n - 1, i, secret);
    }
  }

  lemma {:induction false} LegacyCollected(ns: NodeSet, n: nat, secret: string)
    requires n <= |ns.nodes| && secret in EntrySecrets(ns.validator)
    ensures secret in GenesisSecrets(ns, n)
  {
    if n > 0 {
      LegacyCollected(ns, n - 1, secret);
    }
  }

  lemma SignerStands(ns: NodeSet, k: nat, r: Registration)
    requires Accepts(ns) && k < |Resolve(ns)| && r in SignerRegs(Resolve(ns)[k], k, GenesisSecrets(ns, |ns.nodes|))
    ensures Stands(ns, r)
  {
    var s := Resolve(ns)[k];
    BlockAccepted(ns, k);
    GenesisSecretsExact(ns, s.keySecret);
    if !r.key.SentryKey? {
      ClaimStands(ns, r, BackendPlace(s.spec.backend, s.keySecret));
    }
  }

  /** Each of the sequences is the one before it and a part. */
  predicate Grows(all: seq<seq<Registration>>, parts: seq<seq<Registration>>) {
    && |all| == |parts| + 1 && all[0] == []
    && forall k :: 0 <= k < |parts| ==> all[k + 1] == all[k] + parts[k]
  }

  lemma {:induction false} FromPart(all: seq<seq<Registration>>, parts: seq<seq<Registration>>, n: nat, r: Registration)
    returns (k: nat)
    requires Grows(all, parts) && n < |all| && r in all[n]
    ensures k < n && r in parts[k]
  {
    k := n - 1;
    assert all[k + 1] == all[k] + parts[k];
    if r in all[k] {
      k := FromPart(all, parts, k, r);
    }
  }

  function AllGroups(ns: NodeSet): seq<seq<Registration>> {
    seq(|ns.nodes| + 1, n requires 0 <= n <= |ns.nodes| => GroupsRegs(ns, n))
  }

  function PerGroup(ns: NodeSet): seq<seq<Registration>> {
    seq(|ns.nodes|, n requires 0 <= n < |ns.nodes| => GroupRegs(ns, n))
  }

  lemma GroupsGrow(ns: NodeSet)
    ensures Grows(AllGroups(ns), PerGroup(ns))
  {
  }

  lemma FromGroup(ns: NodeSet, n: nat, r: Registration) returns (i: nat)
    requires n <= |ns.nodes| && r in GroupsRegs(ns, n)
    ensures i < n && r in GroupRegs(ns, i)
  {
    GroupsGrow(ns);
    i := FromPart(AllGroups(ns), PerGroup(ns), n, r);
  }

  function AllSigners(signers: seq<ResolvedSigner>, genesis: set<string>): seq<seq<Registration>> {
    seq(|signers| + 1, n requires 0 <= n <= |signers| => SignersRegs(signers, n, genesis))
  }

  function PerSigner(signers: seq<ResolvedSigner>, genesis: set<string>): seq<seq<Registration>> {
    seq(|signers|, n requires 0 <= n < |signers| => SignerRegs(signers[n], n, genesis))
  }

  lemma SignersGrow(signers: seq<ResolvedSigner>, genesis: set<string>)
    ensures Grows(AllSigners(signers, genesis), PerSigner(signers, genesis))
  {
  }

  lemma FromSigner(signers: seq<ResolvedSigner>, n: nat, genesis: set<string>, r: Registration) returns (k: nat)
    requires n <= |signers| && r in SignersRegs(signers, n, genesis)
    ensures k < n && r in SignerRegs(signers[k], k, genesis)
  {
    SignersGrow(signers, genesis);
    k := FromPart(AllSigners(signers, genesis), PerSigner(signers, genesis), n, r);
  }

  lemma RegistrationStands(ns: NodeSet, r: Registration)
    requires Accepts(ns) && r in Registrations(ns)
    ensures Stands(ns, r)
  {
    var genesis := GenesisSecrets(ns, |ns.nodes|);
    if r in LegacyRegs(ns) {
      LegacyStands(ns, r);
    } else if r in GroupsRegs(ns, |ns.nodes|) {
      var i := FromGroup(ns, |ns.nodes|, r);
      GroupStands(ns, i, r);
    } else {
      var k := FromSigner(Resolve(ns), |Resolve(ns)|, genesis, r);
      SignerStands(ns, k, r);
    }
  }

  // ---- Every claim is registered ----

  lemma ValidatorRegistered(ns: NodeSet, p: Path, r: Registration)
    requires Accepts(ns) && IsValidator(ns, p)
    requires || r in TmKmsRegs(p, ValidatorAt(ns, p).tmKms)
             || (&& UsesLocalKey(ns, GroupAt(ns, p), ValidatorAt(ns, p))
                 && r == Registration(p, SecretKey(SecretAt(ns, p))))
    ensures r in Registrations(ns)
  {
    if p.Legacy? {
      assert r in LegacyRegs(ns);
    } else {
      var g := ns.nodes[p.group];
      assert AcceptsGroup(ns, g);
      if g.validator.value.privateKeySecret.None? {
        InInstances(ns, p.group, if Targeted(ns, g.name) then 1 else g.instances, 0);
      }
      assert r in GroupRegs(ns, p.group);
      InGroups(ns, |ns.nodes|, p.group, r);
    }
  }

  lemma TmKmsRegistered(ns: NodeSet, p: Path, a: Place)
    requires Accepts(ns) && Signs(ns, p) && a in Places(ns, p) && a.InVault? && !p.Signer?
    ensures Registration(p, TmKmsKey(NulJoin(["hashicorp", a.address, a.key]))) in Registrations(ns)
  {
    if p.Instance? {
      assert AcceptsGroup(ns, ns.nodes[p.group]);
    }
    ValidatorRegistered(ns, p, Registration(p, TmKmsKey(NulJoin(["hashicorp", a.address, a.key]))));
  }

  lemma ClaimRegistered(ns: NodeSet, p: Path, a: Place, key: Key)
    requires Accepts(ns) && Claims(ns, p, a) && key in KeysFor(p, a)
    ensures Registration(p, key) in Registrations(ns)
  {
    if Signs(ns, p) && a in Places(ns, p) && !(p.Signer? && a.InSecret? && LeavesSecret(ns, p.index)) {
      if key == KeyFor(a) {
        if p.Signer? {
          GenesisSecretsExact(ns, Resolve(ns)[p.index].keySecret);
        }
        Registered(ns, p, a);
      } else {
        TmKmsRegistered(ns, p, a);
      }
    } else {
      var k: nat :| Fronts(ns, k, p) && MayHaveSigned(ns, ValidatorAt(ns, p), Resolve(ns)[k]);
      FrontedExactly(ns, k, p);
      ValidatorRegistered(ns, p, Registration(p, key));
    }
  }

  // ---- Nothing is registered twice ----

  predicate NoRepeats(regs: seq<Registration>) {
    forall i, j :: 0 <= i < j < |regs| ==> regs[i] != regs[j]
  }

  predicate Apart(a: seq<Registration>, b: seq<Registration>) {
    forall i, j :: 0 <= i < |a| && 0 <= j < |b| ==> a[i] != b[j]
  }

  lemma NoRepeatsAppend(a: seq<Registration>, b: seq<Registration>)
    requires NoRepeats(a) && NoRepeats(b) && Apart(a, b)
    ensures NoRepeats(a + b)
  {
  }

  lemma {:induction false} NoRepeatsGrows(all: seq<seq<Registration>>, parts: seq<seq<Registration>>, n: nat)
    requires Grows(all, parts) && n < |all|
    requires forall k :: 0 <= k < |parts| ==> NoRepeats(parts[k]) && Apart(all[k], parts[k])
    ensures NoRepeats(all[n])
  {
    if n > 0 {
      NoRepeatsGrows(all, parts, n - 1);
      NoRepeatsAppend(all[n - 1], parts[n - 1]);
      assert all[n - 1 + 1] == all[n - 1] + parts[n - 1];
    }
  }

  lemma {:induction false} InstancesNoRepeats(ns: NodeSet, i: nat, n: int)
    requires i < |ns.nodes|
    ensures NoRepeats(InstanceRegs(ns, i, n))
    decreases n
  {
    if n > 0 {
      InstancesNoRepeats(ns, i, n - 1);
      forall r | r in InstanceRegs(ns, i, n - 1)
        ensures r.path != Instance(i, n - 1)
      {
        var j := InstanceOf(ns, i, n - 1, r);
      }
      NoRepeatsAppend(InstanceRegs(ns, i, n - 1),
                      [Registration(Instance(i, n - 1), SecretKey(DefaultSecret(ns, ns.nodes[i].name, n - 1)))]);
    }
  }

  /** A validator's local keys, its tmKMS key and its genesis entries. */
  lemma ValidatorNoRepeats(local: seq<Registration>, p: Path, t: Option<TmKms>, owner: Option<nat>,
                           init: Option<GenesisInit>)
    requires NoRepeats(local) && !p.Genesis? && forall r :: r in local ==> r.key.SecretKey? && !r.path.Genesis?
    ensures NoRepeats(local + TmKmsRegs(p, t) + GenesisRegs(owner, init))
  {
    NoRepeatsAppend(local, TmKmsRegs(p, t));
    NoRepeatsAppend(local + TmKmsRegs(p, t), GenesisRegs(owner, init));
  }

  lemma GroupNoRepeats(ns: NodeSet, i: nat)
    requires i < |ns.nodes|
    ensures NoRepeats(GroupRegs(ns, i))
  {
    var g := ns.nodes[i];
    if g.validator.Some? && g.instances != 0 {
      var v := g.validator.value;
      var n := if Targeted(ns, g.name) then 1 else g.instances;
      InstancesNoRepeats(ns, i, n);
      forall r | r in InstanceRegs(ns, i, n)
        ensures r.key.SecretKey? && r.path.Instance? && r.path.group == i
      {
        var j := InstanceOf(ns, i, n, r);
      }
      ValidatorNoRepeats(LocalRegs(ns, i, v), Instance(i, 0), v.tmKms, Some(i), v.init);
    }
  }

  lemma GroupPaths(ns: NodeSet, i: nat, r: Registration)
    requires i < |ns.nodes| && r in GroupRegs(ns, i)
    ensures (r.path.Instance? && r.path.group == i) || (r.path.Genesis? && r.path.init == Some(i))
  {
    var g := ns.nodes[i];
    var n := if Targeted(ns, g.name) then 1 else g.instances;
    if r in InstanceRegs(ns, i, n) {
      var j := InstanceOf(ns, i, n, r);
    }
  }

  /** The path is of one of the first n groups. */
  predicate OfFirst(p: Path, n: nat) {
    (p.Instance? && p.group < n) || (p.Genesis? && p.init.Some? && p.init.value < n)
  }

  lemma GroupsPaths(ns: NodeSet, n: nat, r: Registration)
    requires n <= |ns.nodes| && r in GroupsRegs(ns, n)
    ensures OfFirst(r.path, n)
  {
    var i := FromGroup(ns, n, r);
    GroupPaths(ns, i, r);
  }

  lemma GroupsApart(ns: NodeSet, n: nat)
    requires n < |ns.nodes|
    ensures Apart(GroupsRegs(ns, n), GroupRegs(ns, n))
  {
    var first, last := GroupsRegs(ns, n), GroupRegs(ns, n);
    forall i, j | 0 <= i < |first| && 0 <= j < |last|
      ensures first[i] != last[j]
    {
      GroupsPaths(ns, n, first[i]);
      GroupPaths(ns, n, last[j]);
    }
  }

  lemma GroupsNoRepeats(ns: NodeSet)
    ensures NoRepeats(GroupsRegs(ns, |ns.nodes|))
  {
    var all, parts := AllGroups(ns), PerGroup(ns);
    forall n | 0 <= n < |parts|
      ensures NoRepeats(parts[n]) && Apart(all[n], parts[n])
    {
      GroupNoRepeats(ns, n);
      GroupsApart(ns, n);
    }
    GroupsGrow(ns);
    NoRepeatsGrows(all, parts, |ns.nodes|);
  }

  lemma SignerNoRepeats(s: ResolvedSigner, k: nat, genesis: set<string>)
    requires AcceptsBlock(s.spec, true)
    ensures NoRepeats(SignerRegs(s, k, genesis))
  {
  }

  lemma SignerPaths(s: ResolvedSigner, k: nat, genesis: set<string>, r: Registration)
    requires r in SignerRegs(s, k, genesis)
    ensures r.path == Signer(k)
  {
  }

  lemma SignersPaths(signers: seq<ResolvedSigner>, n: nat, genesis: set<string>, r: Registration)
    requires n <= |signers| && forall k :: 0 <= k < |signers| ==> AcceptsBlock(signers[k].spec, true)
    requires r in SignersRegs(signers, n, genesis)
    ensures r.path.Signer? && r.path.index < n
  {
    var k := FromSigner(signers, n, genesis, r);
    SignerPaths(signers[k], k, genesis, r);
  }

  lemma SignersApart(signers: seq<ResolvedSigner>, n: nat, genesis: set<string>)
    requires n < |signers| && forall k :: 0 <= k < |signers| ==> AcceptsBlock(signers[k].spec, true)
    ensures Apart(SignersRegs(signers, n, genesis), SignerRegs(signers[n], n, genesis))
  {
    var first, last := SignersRegs(signers, n, genesis), SignerRegs(signers[n], n, genesis);
    forall i, j | 0 <= i < |first| && 0 <= j < |last|
      ensures first[i] != last[j]
    {
      SignersPaths(signers, n, genesis, first[i]);
      SignerPaths(signers[n], n, genesis, last[j]);
    }
  }

  lemma SignersNoRepeats(signers: seq<ResolvedSigner>, genesis: set<string>)
    requires forall k :: 0 <= k < |signers| ==> AcceptsBlock(signers[k].spec, true)
    ensures NoRepeats(SignersRegs(signers, |signers|, genesis))
  {
    var all, parts := AllSigners(signers, genesis), PerSigner(signers, genesis);
    forall n | 0 <= n < |parts|
      ensures NoRepeats(parts[n]) && Apart(all[n], parts[n])
    {
      SignerNoRepeats(signers[n], n, genesis);
      SignersApart(signers, n, genesis);
    }
    SignersGrow(signers, genesis);
    NoRepeatsGrows(all, parts, |signers|);
  }

  lemma LegacyNoRepeats(ns: NodeSet)
    ensures NoRepeats(LegacyRegs(ns))
    ensures forall r :: r in LegacyRegs(ns) ==> r.path.Legacy? || (r.path.Genesis? && r.path.init.None?)
  {
    if ns.validator.Some? {
      var v := ns.validator.value;
      var local := if UsesLocalKey(ns, VALIDATOR, v)
                   then [Registration(Legacy, SecretKey(v.privateKeySecret.GetOr(LegacyDefaultSecret(ns))))] else [];
      ValidatorNoRepeats(local, Legacy, v.tmKms, None, v.init);
    }
  }

  lemma ValidatorsNoRepeats(ns: NodeSet)
    ensures NoRepeats(ValidatorRegs(ns))
    ensures forall r :: r in ValidatorRegs(ns) ==> !r.path.Signer?
  {
    var legacy, groups := LegacyRegs(ns), GroupsRegs(ns, |ns.nodes|);
    LegacyNoRepeats(ns);
    GroupsNoRepeats(ns);
    forall r | r in groups
      ensures OfFirst(r.path, |ns.nodes|)
    {
      GroupsPaths(ns, |ns.nodes|, r);
    }
    NoRepeatsAppend(legacy, groups);
  }

  lemma RegistrationsNoRepeats(ns: NodeSet)
    requires Accepts(ns)
    ensures NoRepeats(Registrations(ns))
  {
    var signers, genesis := Resolve(ns), GenesisSecrets(ns, |ns.nodes|);
    forall k | 0 <= k < |signers|
      ensures AcceptsBlock(signers[k].spec, true)
    {
      BlockAccepted(ns, k);
    }
    ValidatorsNoRepeats(ns);
    SignersNoRepeats(signers, genesis);
    forall r | r in SignersRegs(signers, |signers|, genesis)
      ensures r.path.Signer?
    {
      SignersPaths(signers, |signers|, genesis, r);
    }
    NoRepeatsAppend(ValidatorRegs(ns), SignersRegs(signers, |signers|, genesis));
  }

  // ---- The check on the spec itself ----

  /** The uniqueness check accepts a spec exactly when no key has two claimants. */
  lemma AcceptedExactly(ns: NodeSet)
    requires Accepts(ns)
    ensures Distinct(Registrations(ns)) <==> OneClaimant(ns)
  {
    if Distinct(Registrations(ns)) {
      forall p, a, q, b | Claims(ns, p, a) && Claims(ns, q, b) && p != q
        ensures KeysFor(p, a) !! KeysFor(q, b)
      {
        forall key | key in KeysFor(p, a) && key in KeysFor(q, b)
          ensures false
        {
          ClaimRegistered(ns, p, a, key);
          ClaimRegistered(ns, q, b, key);
          OnlyRegistration(Registrations(ns), Registration(p, key), Registration(q, key));
        }
      }
      forall p, q | IsSentry(ns, p) && IsSentry(ns, q) && Places(ns, p) == Places(ns, q)
        ensures p == q
      {
        SentryRegistered(ns, p);
        assert InSecret(Resolve(ns)[p.index].keySecret) in Places(ns, p);
        OneSentryPerEntry(ns, p, q, Resolve(ns)[p.index].keySecret);
      }
    }
    if OneClaimant(ns) {
      RegistrationsNoRepeats(ns);
      forall i, j | 0 <= i < j < |Registrations(ns)|
        ensures Registrations(ns)[i].key != Registrations(ns)[j].key
      {
        var r, r' := Registrations(ns)[i], Registrations(ns)[j];
        RegistrationStands(ns, r);
        RegistrationStands(ns, r');
        if r.key == r'.key {
          ToldApart(ns, r, r');
        }
      }
    }
  }

  lemma SentriesToldApart(ns: NodeSet, p: Path, q: Path)
    requires Accepts(ns) && OneClaimant(ns) && IsSentry(ns, p) && IsSentry(ns, q)
    requires Resolve(ns)[p.index].keySecret == Resolve(ns)[q.index].keySecret
    ensures p == q
  {
    SentryRegistered(ns, p);
    SentryRegistered(ns, q);
  }

  lemma ClaimOf(ns: NodeSet, r: Registration) returns (a: Place)
    requires Stands(ns, r) && !r.key.SentryKey?
    ensures Claims(ns, r.path, a) && r.key in KeysFor(r.path, a)
  {
    a :| Claims(ns, r.path, a) && r.key in KeysFor(r.path, a);
  }

  lemma ToldApart(ns: NodeSet, r: Registration, r': Registration)
    requires Accepts(ns) && OneClaimant(ns) && Stands(ns, r) && Stands(ns, r') && r.key == r'.key
    ensures r == r'
  {
    if r.key.SentryKey? {
      SentriesToldApart(ns, r.path, r'.path);
    } else {
      var a := ClaimOf(ns, r);
      var b := ClaimOf(ns, r');
    }
  }

  /** No part of the place holds the separator. */
  predicate Clean(a: Place) {
    match a
    case InSecret(_) => true
    case InVault(address, namespace, mount, key, _) => AllNulFree([address, namespace, mount, key])
    case InKms(version) => NulFree(version)
    case UnderKms(d) => d.location.Some? && AllNulFree([d.project, d.location.value, d.keyRing, d.key])
  }

  /** What is joined into a backend's key. */
  function Parts(a: Place): seq<string>
    requires !a.InSecret?
  {
    match a
    case InVault(address, namespace, mount, key, version) =>
      ["vault", address, namespace, mount, key, PrintInt(version)]
    case InKms(version) => ["gcpkms", version]
    case UnderKms(d) => ["gcpkms", d.project, d.location.GetOr(""), d.keyRing, d.key]
  }

  lemma KeyForExact(a: Place, b: Place)
    requires Clean(a) && Clean(b)
    ensures KeyFor(a) == KeyFor(b) <==> a == b
  {
    if KeyFor(a) == KeyFor(b) && !a.InSecret? {
      var x, y := Parts(a), Parts(b);
      PartsAreClean(a);
      PartsAreClean(b);
      NulJoinInjective(x, y);
      assert x[0] == y[0] && x[1] == y[1];
      if a.InVault? {
        assert x[2] == y[2] && x[3] == y[3] && x[4] == y[4] && x[5] == y[5];
        PrintIntInjective(a.number, b.number);
      } else if a.UnderKms? {
        assert x[2] == y[2] && x[3] == y[3] && x[4] == y[4];
      }
    }
  }

  lemma PartsAreClean(a: Place)
    requires !a.InSecret? && Clean(a)
    ensures AllNulFree(Parts(a)) && KeyFor(a) == BackendKey(NulJoin(Parts(a)))
  {
    if a.InVault? {
      PrintIntInjective(a.number, a.number);
      var fields := [a.address, a.namespace, a.mount, a.key];
      assert NulFree(fields[0]) && NulFree(fields[1]) && NulFree(fields[2]) && NulFree(fields[3]);
    } else if a.UnderKms? {
      var d := a.destination;
      var fields := [d.project, d.location.value, d.keyRing, d.key];
      assert NulFree(fields[0]) && NulFree(fields[1]) && NulFree(fields[2]) && NulFree(fields[3]);
    }
  }

  lemma TmKmsKeyExact(a: Place, b: Place)
    requires a.InVault? && b.InVault? && Clean(a) && Clean(b)
    requires NulJoin(["hashicorp", a.address, a.key]) == NulJoin(["hashicorp", b.address, b.key])
    ensures a.address == b.address && a.key == b.key
  {
    var x, y := ["hashicorp", a.address, a.key], ["hashicorp", b.address, b.key];
    var fields, others := [a.address, a.namespace, a.mount, a.key], [b.address, b.namespace, b.mount, b.key];
    assert NulFree(fields[0]) && NulFree(fields[3]) && NulFree(others[0]) && NulFree(others[3]);
    NulJoinInjective(x, y);
    assert x[1] == y[1] && x[2] == y[2];
  }

  lemma TmKmsClaim(ns: NodeSet, p: Path, a: Place)
    requires Claims(ns, p, a) && a.InVault? && !p.Signer?
    ensures a == InVault(a.address, "", "transit", a.key, 1)
  {
  }

  lemma ClashIsOnePlace(p: Path, a: Place, q: Path, b: Place)
    requires Clean(a) && Clean(b)
    requires a.InVault? && !p.Signer? ==> a == InVault(a.address, "", "transit", a.key, 1)
    requires b.InVault? && !q.Signer? ==> b == InVault(b.address, "", "transit", b.key, 1)
    ensures KeysFor(p, a) !! KeysFor(q, b) <==> a != b
  {
    KeyForExact(a, b);
    assert KeyFor(a) in KeysFor(p, a) && KeyFor(b) in KeysFor(q, b);
    forall key | key in KeysFor(p, a) && key in KeysFor(q, b)
      ensures a == b
    {
      if key != KeyFor(a) && key != KeyFor(b) {
        TmKmsKeyExact(a, b);
      }
    }
  }

  /** No place has two claimants, and no secret two sentries. */
  ghost predicate OneClaimantPerPlace(ns: NodeSet) {
    && (forall p, q, a :: Claims(ns, p, a) && Claims(ns, q, a) ==> p == q)
    && (forall p, q :: IsSentry(ns, p) && IsSentry(ns, q) && Places(ns, p) == Places(ns, q) ==> p == q)
  }

  lemma OneKeyIsOnePlace(ns: NodeSet, p: Path, a: Place, q: Path, b: Place)
    requires Claims(ns, p, a) && Claims(ns, q, b) && Clean(a) && Clean(b)
    ensures KeysFor(p, a) !! KeysFor(q, b) <==> a != b
  {
    if a.InVault? && !p.Signer? {
      TmKmsClaim(ns, p, a);
    }
    if b.InVault? && !q.Signer? {
      TmKmsClaim(ns, q, b);
    }
    ClashIsOnePlace(p, a, q, b);
  }

  /** Without separators in the names, a spec is accepted exactly when no place has two claimants. */
  lemma CleanSpecsAcceptedExactly(ns: NodeSet)
    requires Accepts(ns) && forall p, a :: Claims(ns, p, a) ==> Clean(a)
    ensures Distinct(Registrations(ns)) <==> OneClaimantPerPlace(ns)
  {
    AcceptedExactly(ns);
    if OneClaimant(ns) {
      forall p, q, a | Claims(ns, p, a) && Claims(ns, q, a)
        ensures p == q
      {
        OneKeyIsOnePlace(ns, p, a, q, a);
      }
    }
    if OneClaimantPerPlace(ns) {
      forall p, a, q, b | Claims(ns, p, a) && Claims(ns, q, b) && p != q
        ensures KeysFor(p, a) !! KeysFor(q, b)
      {
        OneKeyIsOnePlace(ns, p, a, q, b);
      }
    }
  }
}
