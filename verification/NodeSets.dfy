/** The parts of a ChainNodeSet that decide who signs with what, and how its signers are resolved. */
module NodeSets {
  import opened Wrappers
  import opened Decimal
  import opened Encoding
  import KmsImport

  const VALIDATOR := "validator"          // the group name reserved for the legacy singleton
  const TRANSIT := "transit"              // the default Vault mount

  datatype Hashicorp = Hashicorp(address: string, key: string, uploadGenerated: bool)

  datatype TmKms = TmKms(hashicorp: Option<Hashicorp>)

  /** Genesis parameters, and the key secrets of validators registered beside the initialising one. */
  datatype GenesisInit = GenesisInit(params: string, genesisValidators: seq<string>)

  datatype Validator = Validator(privateKeySecret: Option<string>, tmKms: Option<TmKms>, init: Option<GenesisInit>,
                                 createValidator: bool, info: Option<string>,
                                 accountPrefix: string, valPrefix: string, accountHDPath: string)

  /** Exactly one backend, as validation demands. */
  datatype Backend =
    | Software(privateKeySecret: Option<string>)
    | Vault(address: string, namespace: Option<string>, mount: Option<string>, key: string, version: Option<int>,
            uploadGenerated: bool)
    | GcpKms(keyVersion: string, managed: Option<KmsImport.Destination>)

  datatype Cosmosigner = Cosmosigner(backend: Backend, replicas: int, nodeGroups: seq<string>)

  datatype Group = Group(name: string, instances: int, snapshotNodeIndex: int, validator: Option<Validator>,
                         cosmosigner: Option<Cosmosigner>, guarded: bool, dashboardIngress: bool,
                         individualRoutes: bool)

  datatype Route = Route(name: string, servicesOnly: bool)

  datatype Cosmoseed = Cosmoseed(instances: int, exposed: bool)

  datatype SignerStatus = SignerStatus(name: string, servingGroup: string, atEstablishment: Option<string>,
                                       localKeyEverServed: Option<bool>, appliedDigest: string, publicKey: string)

  datatype NodeSet = NodeSet(name: string, validator: Option<Validator>, nodes: seq<Group>,
                             cosmosigner: Option<Cosmosigner>, cosmoseed: Option<Cosmoseed>,
                             ingresses: seq<Route>, gatewayRoutes: seq<Route>,
                             chainID: string, signers: seq<SignerStatus>)

  // ---- Signing identities ----

  /** fmt's %d */
  function PrintInt(n: int): string {
    if n < 0 then "-" + Itoa(-n) else Itoa(n)
  }

  lemma PrintIntInjective(a: int, b: int)
    ensures PrintInt(a) == PrintInt(b) ==> a == b
    ensures NulFree(PrintInt(a))
  {
    assert forall n: nat :: Itoa(n)[0] != '-';
    if PrintInt(a) == PrintInt(b) {
      if a < 0 {
        assert PrintInt(a)[1..] == Itoa(-a) && PrintInt(b)[1..] == Itoa(-b);
        ItoaInjective(-a, -b);
      } else {
        ItoaInjective(a, b);
      }
    }
  }

  function Mount(b: Backend): string
    requires b.Vault?
  {
    if b.mount.Some? && b.mount.value != "" then b.mount.value else TRANSIT
  }

  function VaultIdentity(address: string, namespace: string, mount: string, key: string, version: int): seq<string> {
    ["vault", address, namespace, mount, key, PrintInt(version)]
  }

  /** The fields of the key a signer signs with; secret is the resolved key secret of a software backend. */
  function IdentityFields(b: Backend, secret: string): (fields: seq<string>)
    ensures fields != []
  {
    match b
    case Vault(address, namespace, _, key, version, _) =>
      VaultIdentity(address, namespace.GetOr(""), Mount(b), key, version.GetOr(1))
    case GcpKms(version, managed) =>
      if managed.Some? then ["gcpkms-import"] + KmsImport.ImportIdentity(managed.value) else ["gcpkms", version]
    case Software(_) => ["software", secret]
  }

  /** effectiveSigningIdentity */
  function Identity(c: Cosmosigner, secret: string): string {
    NulJoin(IdentityFields(c.backend, secret))
  }

  /** The tag fixes how many fields follow. */
  lemma IdentityShape(b: Backend, secret: string, b': Backend, secret': string)
    requires IdentityFields(b, secret)[0] == IdentityFields(b', secret')[0]
    ensures |IdentityFields(b, secret)| == |IdentityFields(b', secret')|
  {
  }

  // ---- Resolution ----

  /** The signer targeting a group: the group's own, else the top-level one when it lists the group. */
  function GroupCosmosigner(ns: NodeSet, group: string): Option<Cosmosigner> {
    var own := OwnSigner(ns.nodes, group);
    if own.Some? then own
    else if ns.cosmosigner.Some? && group in TopTargets(ns, ns.cosmosigner.value) then ns.cosmosigner
    else None
  }

  function OwnSigner(nodes: seq<Group>, group: string): Option<Cosmosigner> {
    if nodes == [] then None
    else if nodes[0].name == group && nodes[0].cosmosigner.Some? then nodes[0].cosmosigner
    else OwnSigner(nodes[1..], group)
  }

  function TopTargets(ns: NodeSet, c: Cosmosigner): seq<string> {
    if c.nodeGroups != [] then c.nodeGroups
    else if ns.validator.Some? then [VALIDATOR]
    else []
  }

  datatype ResolvedSigner = ResolvedSigner(name: string, spec: Cosmosigner, targets: seq<string>,
                                           validatorGroup: string, keySecret: string) {
    function Fields(): seq<string> { IdentityFields(spec.backend, keySecret) }
    function Identity(): string { NulJoin(Fields()) }
    function ValidatorTargetedIdentity(): string { if validatorGroup == "" then "" else Identity() }
  }

  predicate IsValidatorGroup(ns: NodeSet, name: string) {
    exists i :: 0 <= i < |ns.nodes| && ns.nodes[i].name == name && ns.nodes[i].validator.Some?
  }

  /** The last listed target that is a validator. */
  function TopValidator(ns: NodeSet, targets: seq<string>): string {
    if targets == [] then ""
    else
      var last := targets[|targets| - 1];
      if (last == VALIDATOR && ns.validator.Some?) || IsValidatorGroup(ns, last) then last
      else TopValidator(ns, targets[..|targets| - 1])
  }

  function ResolveTop(ns: NodeSet, c: Cosmosigner): ResolvedSigner {
    var validator := TopValidator(ns, TopTargets(ns, c));
    ResolvedSigner(ns.name + "-signer", c, TopTargets(ns, c), validator, SignerKeySecret(ns, c, validator))
  }

  function ResolveGroup(ns: NodeSet, g: Group): ResolvedSigner
    requires g.cosmosigner.Some?
  {
    var validator := if g.validator.Some? then g.name else "";
    ResolvedSigner(ns.name + "-" + g.name + "-signer", g.cosmosigner.value, [g.name], validator,
                   SignerKeySecret(ns, g.cosmosigner.value, validator))
  }

  function ResolveGroups(ns: NodeSet, nodes: seq<Group>): seq<ResolvedSigner> {
    if nodes == [] then []
    else if nodes[0].cosmosigner.None? then ResolveGroups(ns, nodes[1..])
    else [ResolveGroup(ns, nodes[0])] + ResolveGroups(ns, nodes[1..])
  }

  /** ResolveCosmosigners */
  function Resolve(ns: NodeSet): seq<ResolvedSigner> {
    (if ns.cosmosigner.Some? then [ResolveTop(ns, ns.cosmosigner.value)] else []) + ResolveGroups(ns, ns.nodes)
  }

  function SignerKeySecret(ns: NodeSet, c: Cosmosigner, validatorGroup: string): string {
    if validatorGroup != "" then ValidatorKeySecret(ns, validatorGroup)
    else if c.backend.Software? then c.backend.privateKeySecret.GetOr("")
    else ""
  }

  function ExplicitOr(secret: Option<string>, default: string): string {
    if secret.Some? && secret.value != "" then secret.value else default
  }

  function DefaultSecret(ns: NodeSet, group: string, instance: nat): string {
    ns.name + "-" + group + "-" + Itoa(instance) + "-priv-key"
  }

  function LegacyDefaultSecret(ns: NodeSet): string { ns.name + "-validator-priv-key" }

  function FirstValidator(nodes: seq<Group>, group: string): Option<Validator> {
    if nodes == [] then None
    else if nodes[0].name == group && nodes[0].validator.Some? then nodes[0].validator
    else FirstValidator(nodes[1..], group)
  }

  /** The key secret of a signer-targeted validator group: one identity, whatever its instance count. */
  function ValidatorKeySecret(ns: NodeSet, group: string): string {
    if group == VALIDATOR then
      if ns.validator.Some? then ExplicitOr(ns.validator.value.privateKeySecret, LegacyDefaultSecret(ns))
      else LegacyDefaultSecret(ns)
    else
      match FirstValidator(ns.nodes, group)
      case None => ""
      case Some(v) => ExplicitOr(v.privateKeySecret, DefaultSecret(ns, group, 0))
  }

  // ---- What resolution means ----

  lemma {:induction false} GroupSignersAt(ns: NodeSet, nodes: seq<Group>)
    ensures forall s :: s in ResolveGroups(ns, nodes) <==>
              exists i :: 0 <= i < |nodes| && nodes[i].cosmosigner.Some? && s == ResolveGroup(ns, nodes[i])
  {
    if nodes != [] {
      GroupSignersAt(ns, nodes[1..]);
      forall s ensures s in ResolveGroups(ns, nodes) <==>
          exists i :: 0 <= i < |nodes| && nodes[i].cosmosigner.Some? && s == ResolveGroup(ns, nodes[i])
      {
        if i :| 0 <= i < |nodes| && nodes[i].cosmosigner.Some? && s == ResolveGroup(ns, nodes[i]) {
          if i > 0 {
            assert nodes[1..][i - 1] == nodes[i];
          }
        }
        if s in ResolveGroups(ns, nodes[1..]) {
          var i :| 0 <= i < |nodes[1..]| && nodes[1..][i].cosmosigner.Some? && s == ResolveGroup(ns, nodes[1..][i]);
          assert nodes[i + 1] == nodes[1..][i];
        }
      }
    }
  }

  lemma {:induction false} OwnSignerFound(nodes: seq<Group>, group: string)
    ensures OwnSigner(nodes, group).Some? <==>
            exists i :: 0 <= i < |nodes| && nodes[i].name == group && nodes[i].cosmosigner.Some?
  {
    if nodes != [] {
      OwnSignerFound(nodes[1..], group);
      if OwnSigner(nodes[1..], group).Some? {
        var i :| 0 <= i < |nodes[1..]| && nodes[1..][i].name == group && nodes[1..][i].cosmosigner.Some?;
        assert nodes[i + 1] == nodes[1..][i];
      }
      if i :| 0 <= i < |nodes| && nodes[i].name == group && nodes[i].cosmosigner.Some? {
        if i > 0 {
          assert nodes[1..][i - 1] == nodes[i];
        }
      }
    }
  }

  /** For every spec, a group has a signer exactly when some resolved signer lists it as a target. */
  lemma TargetedIffResolved(ns: NodeSet, group: string)
    ensures GroupCosmosigner(ns, group).Some? <==> exists s :: s in Resolve(ns) && group in s.targets
  {
    GroupSignersAt(ns, ns.nodes);
    OwnSignerFound(ns.nodes, group);
    if ns.cosmosigner.Some? && group in TopTargets(ns, ns.cosmosigner.value) {
      var top := ResolveTop(ns, ns.cosmosigner.value);
      assert Resolve(ns)[0] == top;
    }
    if OwnSigner(ns.nodes, group).Some? {
      var i :| 0 <= i < |ns.nodes| && ns.nodes[i].name == group && ns.nodes[i].cosmosigner.Some?;
      var s := ResolveGroup(ns, ns.nodes[i]);
      assert s in Resolve(ns) && group in s.targets;
    }
  }
}
