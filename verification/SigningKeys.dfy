/** No two places sign with one consensus key: what admission registers, and what that guarantees. */
module SigningKeys {
  import opened Wrappers
  import opened Decimal
  import opened Encoding
  import opened NodeSets
  import opened Admission
  import KmsImport

  /** Everything that signs, or is registered on-chain to sign. */
  datatype Path =
    | Legacy                                      // the singleton validator
    | Instance(group: nat, ordinal: nat)          // one instance of a validator group
    | Signer(index: nat)                          // a resolved signer
    | Genesis(init: Option<nat>, entry: nat)      // a preserved genesis validator

  datatype Key =
    | SecretKey(name: string)
    | TmKmsKey(id: string)
    | BackendKey(id: string)
    | SentryKey(name: string)

  datatype Registration = Registration(path: Path, key: Key)

  // ---- What is registered ----

  predicate Configured(t: TmKms) {
    t.hashicorp.Some? && t.hashicorp.value.address != "" && t.hashicorp.value.key != ""
  }

  function TmKmsIdentity(t: TmKms): seq<string>
    requires t.hashicorp.Some?
  {
    VaultIdentity(t.hashicorp.value.address, "", TRANSIT, t.hashicorp.value.key, 1)
  }

  function TmKmsRegs(p: Path, t: Option<TmKms>): seq<Registration> {
    if t.None? || !Configured(t.value) then []
    else
      var h := t.value.hashicorp.value;
      [Registration(p, TmKmsKey(NulJoin(["hashicorp", h.address, h.key]))),
       Registration(p, BackendKey(NulJoin(TmKmsIdentity(t.value))))]
  }

  function GenesisRegs(owner: Option<nat>, init: Option<GenesisInit>): seq<Registration> {
    if init.None? then []
    else
      var entries := init.value.genesisValidators;
      seq(|entries|, e requires 0 <= e < |entries| => Registration(Genesis(owner, e), SecretKey(entries[e])))
  }

  function StatusOf(signers: seq<SignerStatus>, name: string): Option<SignerStatus> {
    if signers == [] then None
    else if signers[0].name == name then Some(signers[0])
    else StatusOf(signers[1..], name)
  }

  function FirstServing(signers: seq<ResolvedSigner>, group: string): Option<ResolvedSigner> {
    if signers == [] then None
    else if signers[0].validatorGroup == group then Some(signers[0])
    else FirstServing(signers[1..], group)
  }

  /** The recorded signer served this group, with this key, from establishment on. */
  predicate MatchesHistory(st: SignerStatus, s: ResolvedSigner, group: string) {
    st.servingGroup == group && st.atEstablishment == Some(s.ValidatorTargetedIdentity())
  }

  /** A pre-provisioned external backend has provably held the key from the start. */
  predicate LeavesLocalKeyUnused(ns: NodeSet, group: string, v: Validator) {
    var c := GroupCosmosigner(ns, group);
    && c.Some? && v.init.None? && !v.createValidator
    && !c.value.backend.Software?
    && !(c.value.backend.Vault? && c.value.backend.uploadGenerated)
    && !(c.value.backend.GcpKms? && c.value.backend.managed.Some?)
    && (ns.chainID == "" || ServedExternally(ns, group))
  }

  predicate ServedExternally(ns: NodeSet, group: string) {
    match FirstServing(Resolve(ns), group)
    case None => false
    case Some(s) =>
      match StatusOf(ns.signers, s.name)
      case Some(current) => MatchesHistory(current, s, group) && current.localKeyEverServed == Some(false)
      case None =>
        && (exists i :: 0 <= i < |ns.signers| && MatchesHistory(ns.signers[i], s, group))
        && (forall i :: 0 <= i < |ns.signers| && MatchesHistory(ns.signers[i], s, group) ==>
              ns.signers[i].localKeyEverServed == Some(false))
  }

  predicate UsesLocalKey(ns: NodeSet, group: string, v: Validator) {
    (v.tmKms.None? || v.init.Some? || Uploads(v)) && !LeavesLocalKeyUnused(ns, group, v)
  }

  function LegacyRegs(ns: NodeSet): seq<Registration> {
    if ns.validator.None? then []
    else
      var v := ns.validator.value;
      (if UsesLocalKey(ns, VALIDATOR, v)
       then [Registration(Legacy, SecretKey(v.privateKeySecret.GetOr(LegacyDefaultSecret(ns))))] else []) +
      TmKmsRegs(Legacy, v.tmKms) + GenesisRegs(None, v.init)
  }

  function InstanceRegs(ns: NodeSet, i: nat, n: int): seq<Registration>
    requires i < |ns.nodes|
    decreases n
  {
    if n <= 0 then []
    else
      InstanceRegs(ns, i, n - 1) +
      [Registration(Instance(i, n - 1), SecretKey(DefaultSecret(ns, ns.nodes[i].name, n - 1)))]
  }

  function LocalRegs(ns: NodeSet, i: nat, v: Validator): seq<Registration>
    requires i < |ns.nodes|
  {
    var g := ns.nodes[i];
    if !UsesLocalKey(ns, g.name, v) then []
    else if v.privateKeySecret.Some? then [Registration(Instance(i, 0), SecretKey(v.privateKeySecret.value))]
    else InstanceRegs(ns, i, if Targeted(ns, g.name) then 1 else g.instances)
  }

  function GroupRegs(ns: NodeSet, i: nat): seq<Registration>
    requires i < |ns.nodes|
  {
    var g := ns.nodes[i];
    if g.validator.None? || g.instances == 0 then []
    else
      LocalRegs(ns, i, g.validator.value) + TmKmsRegs(Instance(i, 0), g.validator.value.tmKms) +
      GenesisRegs(Some(i), g.validator.value.init)
  }

  function SignerRegs(s: ResolvedSigner, k: nat, genesis: set<string>): seq<Registration> {
    var p, b := Signer(k), s.spec.backend;
    match b
    case Vault(address, _, _, key, _, _) =>
      if address != "" && key != "" then [Registration(p, BackendKey(NulJoin(s.Fields())))] else []
    case GcpKms(version, managed) =>
      (if version != "" then [Registration(p, BackendKey(NulJoin(["gcpkms", version])))] else []) +
      (if managed.Some?
       then [Registration(p, BackendKey(NulJoin(["gcpkms"] + KmsImport.ImportIdentity(managed.value))))] else [])
    case Software(secret) =>
      if s.validatorGroup != "" || secret.None? then []
      else
        [Registration(p, SentryKey(secret.value))] +
        (if secret.value in genesis then [] else [Registration(p, SecretKey(secret.value))])
  }

  function GroupsRegs(ns: NodeSet, n: nat): seq<Registration>
    requires n <= |ns.nodes|
  {
    if n == 0 then [] else GroupsRegs(ns, n - 1) + GroupRegs(ns, n - 1)
  }

  function SignersRegs(signers: seq<ResolvedSigner>, n: nat, genesis: set<string>): seq<Registration>
    requires n <= |signers|
  {
    if n == 0 then [] else SignersRegs(signers, n - 1, genesis) + SignerRegs(signers[n - 1], n - 1, genesis)
  }

  function EntrySecrets(v: Option<Validator>): set<string> {
    if v.None? || v.value.init.None? then {} else set s | s in v.value.init.value.genesisValidators
  }

  /** The key secrets of preserved genesis validators. */
  function GenesisSecrets(ns: NodeSet, n: nat): set<string>
    requires n <= |ns.nodes|
  {
    if n == 0 then EntrySecrets(ns.validator)
    else
      GenesisSecrets(ns, n - 1) +
      (if ns.nodes[n - 1].instances == 0 then {} else EntrySecrets(ns.nodes[n - 1].validator))
  }

  function ValidatorRegs(ns: NodeSet): seq<Registration> {
    LegacyRegs(ns) + GroupsRegs(ns, |ns.nodes|)
  }

  function Registrations(ns: NodeSet): seq<Registration> {
    ValidatorRegs(ns) + SignersRegs(Resolve(ns), |Resolve(ns)|, GenesisSecrets(ns, |ns.nodes|))
  }

  predicate Distinct(regs: seq<Registration>) {
    forall i, j :: 0 <= i < j < |regs| ==> regs[i].key != regs[j].key
  }

  function KeysOf(regs: seq<Registration>): set<Key> {
    set i | 0 <= i < |regs| :: regs[i].key
  }

  lemma DistinctAppend(a: seq<Registration>, b: seq<Registration>)
    ensures Distinct(a + b) <==> Distinct(a) && Distinct(b) && KeysOf(a) !! KeysOf(b)
    ensures KeysOf(a + b) == KeysOf(a) + KeysOf(b)
  {
    var c := a + b;
    assert forall i :: 0 <= i < |a| ==> c[i] == a[i];
    assert forall i :: 0 <= i < |b| ==> c[|a| + i] == b[i];
    assert forall i :: |a| <= i < |c| ==> c[i] == b[i - |a|];
    if Distinct(c) {
      forall i, j | 0 <= i < |a| && 0 <= j < |b| ensures a[i].key != b[j].key {
        assert c[i].key != c[|a| + j].key;
      }
    }
    if Distinct(a) && Distinct(b) && KeysOf(a) !! KeysOf(b) {
      forall i, j | 0 <= i < j < |c| ensures c[i].key != c[j].key {
        if i < |a| <= j {
          assert a[i].key in KeysOf(a) && b[j - |a|].key in KeysOf(b);
        }
      }
    }
  }

  // ---- The check ----

  /** Registers one after another; the first key already taken refuses the spec. */
  method Register(seen: set<Key>, regs: seq<Registration>) returns (ok: bool, after: set<Key>)
    ensures ok <==> Distinct(regs) && KeysOf(regs) !! seen
    ensures ok ==> after == seen + KeysOf(regs)
  {
    after := seen;
    for i := 0 to |regs|
      invariant Distinct(regs[..i]) && KeysOf(regs[..i]) !! seen && after == seen + KeysOf(regs[..i])
    {
      assert regs[..i + 1] == regs[..i] + [regs[i]];
      DistinctAppend(regs[..i], [regs[i]]);
      assert KeysOf([regs[i]]) == {regs[i].key} by { assert [regs[i]][0] == regs[i]; }
      if regs[i].key in after {
        assert regs == regs[..i + 1] + regs[i + 1..];
        DistinctAppend(regs[..i + 1], regs[i + 1..]);
        return false, after;
      }
      after := after + {regs[i].key};
    }
    assert regs[..|regs|] == regs;
    ok := true;
  }

  /** What the maps hold after the registrations so far. */
  ghost predicate Holds(ok: bool, seen: set<Key>, regs: seq<Registration>) {
    (ok <==> Distinct(regs)) && (ok ==> seen == KeysOf(regs))
  }

  method Continue(ok: bool, seen: set<Key>, regs: seq<Registration>, ghost done: seq<Registration>)
    returns (ok': bool, after: set<Key>)
    requires Holds(ok, seen, done)
    ensures Holds(ok', after, done + regs)
  {
    DistinctAppend(done, regs);
    ok', after := ok, seen;
    if ok {
      ok', after := Register(seen, regs);
    }
  }

  lemma GroupsRegsNext(ns: NodeSet, i: nat, first: seq<Registration>)
    requires i < |ns.nodes|
    ensures first + GroupsRegs(ns, i + 1) == first + GroupsRegs(ns, i) + GroupRegs(ns, i)
  {
  }

  lemma SignersRegsNext(signers: seq<ResolvedSigner>, k: nat, genesis: set<string>, first: seq<Registration>)
    requires k < |signers|
    ensures first + SignersRegs(signers, k + 1, genesis) ==
            first + SignersRegs(signers, k, genesis) + SignerRegs(signers[k], k, genesis)
  {
  }

  method RegisterGroups(ns: NodeSet, before: bool, held: set<Key>, ghost first: seq<Registration>)
    returns (ok: bool, seen: set<Key>)
    requires Holds(before, held, first)
    ensures Holds(ok, seen, first + GroupsRegs(ns, |ns.nodes|))
  {
    ok, seen := before, held;
    ghost var done := first;
    for i := 0 to |ns.nodes|
      invariant Holds(ok, seen, done) && done == first + GroupsRegs(ns, i)
    {
      var regs := GroupRegs(ns, i);
      ok, seen := Continue(ok, seen, regs, done);
      done := done + regs;
      GroupsRegsNext(ns, i, first);
    }
  }

  /** Which secrets genesis entries name. */
  method CollectGenesisSecrets(ns: NodeSet) returns (genesis: set<string>)
    ensures genesis == GenesisSecrets(ns, |ns.nodes|)
  {
    genesis := EntrySecrets(ns.validator);
    for i := 0 to |ns.nodes|
      invariant genesis == GenesisSecrets(ns, i)
    {
      if ns.nodes[i].instances != 0 {
        genesis := genesis + EntrySecrets(ns.nodes[i].validator);
      }
    }
  }

  method RegisterSigners(signers: seq<ResolvedSigner>, genesis: set<string>, before: bool, held: set<Key>,
                         ghost first: seq<Registration>)
    returns (ok: bool, seen: set<Key>)
    requires Holds(before, held, first)
    ensures Holds(ok, seen, first + SignersRegs(signers, |signers|, genesis))
  {
    ok, seen := before, held;
    ghost var done := first;
    for k := 0 to |signers|
      invariant Holds(ok, seen, done) && done == first + SignersRegs(signers, k, genesis)
    {
      var regs := SignerRegs(signers[k], k, genesis);
      ok, seen := Continue(ok, seen, regs, done);
      done := done + regs;
      SignersRegsNext(signers, k, genesis, first);
    }
  }

  /** validateUniqueSigningKeys: accepts exactly when no key is registered twice. */
  method ValidateUniqueSigningKeys(ns: NodeSet) returns (ok: bool)
    ensures ok <==> Distinct(Registrations(ns))
  {
    var seen;
    ok, seen := Continue(true, {}, LegacyRegs(ns), []);
    assert [] + LegacyRegs(ns) == LegacyRegs(ns);
    ok, seen := RegisterGroups(ns, ok, seen, LegacyRegs(ns));
    var genesis := CollectGenesisSecrets(ns);
    ok, seen := RegisterSigners(Resolve(ns), genesis, ok, seen, ValidatorRegs(ns));
  }
}
