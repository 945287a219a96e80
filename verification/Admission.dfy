/** The checks on node groups and signers that admission makes, and what they make of resolution. */
module Admission {
  import opened Wrappers
  import opened Decimal
  import opened NodeSets

  // ---- Node groups ----

  predicate UniqueNames(nodes: seq<Group>) {
    forall i, j :: 0 <= i < j < |nodes| ==> nodes[i].name != nodes[j].name
  }

  predicate Uploads(v: Validator) {
    v.tmKms.Some? && v.createValidator && v.tmKms.value.hashicorp.Some? && v.tmKms.value.hashicorp.value.uploadGenerated
  }

  predicate Targeted(ns: NodeSet, group: string) { GroupCosmosigner(ns, group).Some? }

  predicate AcceptsValidator(ns: NodeSet, g: Group, v: Validator) {
    && !(v.init.Some? && v.createValidator)
    && !(g.instances > 1 && v.privateKeySecret.Some? && !Targeted(ns, g.name))
    && !(g.instances > 1 && v.tmKms.Some?)
    && !(v.createValidator && v.tmKms.Some? && !Uploads(v))
  }

  predicate AcceptsGroup(ns: NodeSet, g: Group) {
    && g.name != "" && g.name != VALIDATOR
    && (g.validator.Some? ==> AcceptsValidator(ns, g, g.validator.value))
    && 0 <= g.snapshotNodeIndex < g.instances
  }

  predicate AcceptsGroups(ns: NodeSet) {
    && UniqueNames(ns.nodes)
    && forall i :: 0 <= i < |ns.nodes| ==> AcceptsGroup(ns, ns.nodes[i])
  }

  // ---- Signers ----

  /** Cosmosigner.Validate */
  predicate AcceptsBlock(c: Cosmosigner, allowNodeGroups: bool) {
    && c.replicas >= 1 && c.replicas % 2 == 1
    && (c.backend.Vault? ==>
          && c.backend.address != "" && c.backend.key != "" && c.backend.version.GetOr(1) >= 1
          && (c.backend.uploadGenerated ==> c.backend.version.GetOr(1) == 1))
    && (c.backend.GcpKms? ==>
          && (c.backend.keyVersion == "" <==> c.backend.managed.Some?)
          && (c.backend.managed.Some? ==>
                var d := c.backend.managed.value;
                d.project != "" && d.keyRing != "" && d.key != "" && d.location != Some("")))
    && (allowNodeGroups || c.nodeGroups == [])
  }

  predicate NoTmKms(v: Option<Validator>) { v.Some? ==> v.value.tmKms.None? }

  predicate IsValidatorTarget(ns: NodeSet, name: string) {
    name == VALIDATOR || IsValidatorGroup(ns, name)
  }

  predicate AcceptsTarget(ns: NodeSet, name: string) {
    if name == VALIDATOR then ns.validator.Some? && NoTmKms(ns.validator)
    else exists i :: 0 <= i < |ns.nodes| && ns.nodes[i].name == name && ns.nodes[i].instances != 0
                      && NoTmKms(ns.nodes[i].validator)
  }

  /** validateTopLevelCosmosigner: distinct known targets, at most one of them a validator. */
  predicate AcceptsTop(ns: NodeSet, c: Cosmosigner) {
    && AcceptsBlock(c, true)
    && (c.nodeGroups == [] ==> ns.validator.Some? && NoTmKms(ns.validator))
    && (forall i :: 0 <= i < |c.nodeGroups| ==> AcceptsTarget(ns, c.nodeGroups[i]))
    && (forall i, j :: 0 <= i < j < |c.nodeGroups| ==>
          && c.nodeGroups[i] != c.nodeGroups[j]
          && !(IsValidatorTarget(ns, c.nodeGroups[i]) && IsValidatorTarget(ns, c.nodeGroups[j])))
  }

  /** validateGroupCosmosigner */
  predicate AcceptsOwn(g: Group) {
    g.cosmosigner.Some? ==> AcceptsBlock(g.cosmosigner.value, false) && g.instances != 0 && NoTmKms(g.validator)
  }

  /** validateResolvedSigner: a sentry brings its own key, a validator's signer uses the validator's. */
  predicate AcceptsResolved(s: ResolvedSigner) {
    var b := s.spec.backend;
    if s.validatorGroup == "" then
      && (b.Software? ==> b.privateKeySecret.Some? && b.privateKeySecret.value != "")
      && (b.Vault? ==> !b.uploadGenerated)
      && (b.GcpKms? ==> b.managed.None?)
    else
      b.Software? ==> b.privateKeySecret.GetOr("") == ""
  }

  /** validateCosmosignerTargetUniqueness */
  predicate TargetsUnique(ns: NodeSet) {
    ns.cosmosigner.Some? ==>
      forall i :: 0 <= i < |ns.nodes| && ns.nodes[i].cosmosigner.Some? ==>
        ns.nodes[i].name !in TopTargets(ns, ns.cosmosigner.value)
  }

  predicate AcceptsSigners(ns: NodeSet) {
    && (ns.cosmosigner.Some? ==> AcceptsTop(ns, ns.cosmosigner.value))
    && (forall i :: 0 <= i < |ns.nodes| ==> AcceptsOwn(ns.nodes[i]))
    && (forall k :: 0 <= k < |Resolve(ns)| ==> AcceptsResolved(Resolve(ns)[k]))
    && TargetsUnique(ns)
  }

  predicate Accepts(ns: NodeSet) {
    AcceptsGroups(ns) && AcceptsSigners(ns)
  }

  // ---- What they give ----

  /** Where a resolved signer comes from: the top level, or a group. */
  lemma {:induction false} GroupSignerOrigin(ns: NodeSet, nodes: seq<Group>, k: nat) returns (i: nat)
    requires k < |ResolveGroups(ns, nodes)|
    ensures i < |nodes| && nodes[i].cosmosigner.Some? && ResolveGroups(ns, nodes)[k] == ResolveGroup(ns, nodes[i])
    ensures k <= i
  {
    if nodes[0].cosmosigner.None? {
      i := GroupSignerOrigin(ns, nodes[1..], k);
      i := i + 1;
    } else if k == 0 {
      i := 0;
    } else {
      i := GroupSignerOrigin(ns, nodes[1..], k - 1);
      i := i + 1;
    }
  }

  lemma {:induction false} GroupSignersDiffer(ns: NodeSet, nodes: seq<Group>, k: nat, l: nat)
    requires UniqueNames(nodes) && k < l < |ResolveGroups(ns, nodes)|
    ensures ResolveGroups(ns, nodes)[k].targets != ResolveGroups(ns, nodes)[l].targets
  {
    if nodes[0].cosmosigner.None? {
      GroupSignersDiffer(ns, nodes[1..], k, l);
    } else if k == 0 {
      var i := GroupSignerOrigin(ns, nodes[1..], l - 1);
      assert nodes[1..][i] == nodes[i + 1];
    } else {
      GroupSignersDiffer(ns, nodes[1..], k - 1, l - 1);
    }
  }

  /** The signers of the groups follow the top-level one. */
  function TopCount(ns: NodeSet): nat { if ns.cosmosigner.Some? then 1 else 0 }

  lemma ResolvedAt(ns: NodeSet, k: nat)
    requires k < |Resolve(ns)|
    ensures k < TopCount(ns) ==> Resolve(ns)[k] == ResolveTop(ns, ns.cosmosigner.value)
    ensures k >= TopCount(ns) ==> Resolve(ns)[k] == ResolveGroups(ns, ns.nodes)[k - TopCount(ns)]
  {
  }

  /** In an accepted spec a group is the target of at most one signer. */
  lemma TargetedOnce(ns: NodeSet, k: nat, l: nat, group: string)
    requires Accepts(ns) && k < |Resolve(ns)| && l < |Resolve(ns)|
    requires group in Resolve(ns)[k].targets && group in Resolve(ns)[l].targets
    ensures k == l
  {
    if k > l {
      TargetedApart(ns, l, k, group);
    } else if k < l {
      TargetedApart(ns, k, l, group);
    }
  }

  lemma TargetedApart(ns: NodeSet, k: nat, l: nat, group: string)
    requires UniqueNames(ns.nodes) && TargetsUnique(ns) && k < l < |Resolve(ns)|
    ensures !(group in Resolve(ns)[k].targets && group in Resolve(ns)[l].targets)
  {
    var top := TopCount(ns);
    ResolvedAt(ns, k);
    ResolvedAt(ns, l);
    var i := GroupSignerOrigin(ns, ns.nodes, l - top);
    if k >= top {
      var j := GroupSignerOrigin(ns, ns.nodes, k - top);
      GroupSignersDiffer(ns, ns.nodes, k - top, l - top);
    }
  }

  lemma Enclosed(prefix: string, g: string, h: string, suffix: string)
    ensures prefix + g + suffix == prefix + h + suffix ==> g == h
  {
    var x, y := prefix + g + suffix, prefix + h + suffix;
    assert g == x[|prefix|..|x| - |suffix|] && h == y[|prefix|..|y| - |suffix|];
  }

  /** Signer names are distinct in every spec with distinct group names. */
  lemma SignerNamesDistinct(ns: NodeSet, k: nat, l: nat)
    requires UniqueNames(ns.nodes) && k < l < |Resolve(ns)|
    ensures Resolve(ns)[k].name != Resolve(ns)[l].name
  {
    var top := TopCount(ns);
    ResolvedAt(ns, k);
    ResolvedAt(ns, l);
    var i := GroupSignerOrigin(ns, ns.nodes, l - top);
    var g := ns.nodes[i].name;
    if k < top {
      assert |Resolve(ns)[l].name| == |ns.name| + 1 + |g| + 7;
      assert |Resolve(ns)[k].name| == |ns.name| + 7;
    } else {
      var j := GroupSignerOrigin(ns, ns.nodes, k - top);
      var h := ns.nodes[j].name;
      GroupSignersDiffer(ns, ns.nodes, k - top, l - top);
      Enclosed(ns.name + "-", g, h, "-signer");
    }
  }

  lemma {:induction false} TopValidatorListed(ns: NodeSet, targets: seq<string>)
    ensures TopValidator(ns, targets) != "" ==>
              && TopValidator(ns, targets) in targets
              && Validates(ns, TopValidator(ns, targets))
  {
    if targets != [] {
      TopValidatorListed(ns, targets[..|targets| - 1]);
      assert targets == targets[..|targets| - 1] + [targets[|targets| - 1]];
    }
  }

  lemma {:induction false} FirstValidatorIs(nodes: seq<Group>, i: nat)
    requires UniqueNames(nodes) && i < |nodes| && nodes[i].validator.Some?
    ensures FirstValidator(nodes, nodes[i].name) == nodes[i].validator
  {
    if i > 0 {
      assert nodes[1..][i - 1] == nodes[i];
      FirstValidatorIs(nodes[1..], i - 1);
    }
  }

  /** A target that signs as a validator. */
  predicate Validates(ns: NodeSet, name: string) {
    (name == VALIDATOR && ns.validator.Some?) || IsValidatorGroup(ns, name)
  }

  lemma {:induction false} OnlyValidatorIsServed(ns: NodeSet, targets: seq<string>, name: string)
    requires name in targets && Validates(ns, name)
    requires forall other :: other in targets && Validates(ns, other) ==> other == name
    ensures TopValidator(ns, targets) == name
  {
    var last := targets[|targets| - 1];
    if !Validates(ns, last) {
      assert targets == targets[..|targets| - 1] + [last];
      OnlyValidatorIsServed(ns, targets[..|targets| - 1], name);
    }
  }

  /**
  In an accepted spec the signer of a validator group serves that group and signs with its key secret;
  a signer that serves no validator has no validator among its targets.
  */
  lemma TargetedValidatorIsServed(ns: NodeSet, k: nat, group: string)
    requires Accepts(ns) && k < |Resolve(ns)| && group in Resolve(ns)[k].targets
    ensures Validates(ns, group) <==> Resolve(ns)[k].validatorGroup == group
    ensures Validates(ns, group) ==> Resolve(ns)[k].keySecret == ValidatorKeySecret(ns, group)
  {
    ResolvedAt(ns, k);
    var s := Resolve(ns)[k];
    if k < TopCount(ns) {
      TopTargetServed(ns, group);
    } else {
      var i := GroupSignerOrigin(ns, ns.nodes, k - TopCount(ns));
      assert AcceptsGroup(ns, ns.nodes[i]);
      if IsValidatorGroup(ns, group) {
        var j :| 0 <= j < |ns.nodes| && ns.nodes[j].name == group && ns.nodes[j].validator.Some?;
        assert i == j;
      }
    }
  }

  lemma TopTargetServed(ns: NodeSet, group: string)
    requires Accepts(ns) && ns.cosmosigner.Some? && group in TopTargets(ns, ns.cosmosigner.value)
    ensures group != "" && (Validates(ns, group) <==> ResolveTop(ns, ns.cosmosigner.value).validatorGroup == group)
  {
    var c := ns.cosmosigner.value;
    var targets := TopTargets(ns, c);
    TopValidatorListed(ns, targets);
    if c.nodeGroups != [] {
      var i :| 0 <= i < |targets| && targets[i] == group;
      assert AcceptsTarget(ns, c.nodeGroups[i]);
      assert forall j :: 0 <= j < |ns.nodes| ==> AcceptsGroup(ns, ns.nodes[j]) && ns.nodes[j].name != "";
    }
    if Validates(ns, group) {
      forall other | other in targets && Validates(ns, other)
        ensures other == group
      {
        var a :| 0 <= a < |targets| && targets[a] == group;
        var b :| 0 <= b < |targets| && targets[b] == other;
      }
      OnlyValidatorIsServed(ns, targets, group);
    }
  }

  /** In an accepted spec no two signers serve the same validator group. */
  lemma ServedOnce(ns: NodeSet, k: nat, l: nat)
    requires Accepts(ns) && k < |Resolve(ns)| && l < |Resolve(ns)|
    requires Resolve(ns)[k].validatorGroup == Resolve(ns)[l].validatorGroup != ""
    ensures k == l
  {
    ServesATarget(ns, k);
    ServesATarget(ns, l);
    TargetedOnce(ns, k, l, Resolve(ns)[k].validatorGroup);
  }

  lemma ServesATarget(ns: NodeSet, k: nat)
    requires k < |Resolve(ns)| && Resolve(ns)[k].validatorGroup != ""
    ensures Resolve(ns)[k].validatorGroup in Resolve(ns)[k].targets
    ensures Validates(ns, Resolve(ns)[k].validatorGroup)
  {
    ResolvedAt(ns, k);
    if k < TopCount(ns) {
      TopValidatorListed(ns, TopTargets(ns, ns.cosmosigner.value));
    } else {
      var i := GroupSignerOrigin(ns, ns.nodes, k - TopCount(ns));
    }
  }

  lemma {:induction false} OwnSignerIs(nodes: seq<Group>, i: nat)
    requires UniqueNames(nodes) && i < |nodes| && nodes[i].cosmosigner.Some?
    ensures OwnSigner(nodes, nodes[i].name) == nodes[i].cosmosigner
  {
    if i > 0 {
      assert nodes[1..][i - 1] == nodes[i];
      OwnSignerIs(nodes[1..], i - 1);
    }
  }

  /** In an accepted spec the lookup by group and the resolved list name the same signer. */
  lemma SignerOfGroup(ns: NodeSet, k: nat, group: string)
    requires Accepts(ns) && k < |Resolve(ns)| && group in Resolve(ns)[k].targets
    ensures GroupCosmosigner(ns, group) == Some(Resolve(ns)[k].spec)
  {
    ResolvedAt(ns, k);
    if k < TopCount(ns) {
      OwnSignerFound(ns.nodes, group);
    } else {
      var i := GroupSignerOrigin(ns, ns.nodes, k - TopCount(ns));
      OwnSignerIs(ns.nodes, i);
    }
  }

  // ---- Resolution, read off the spec ----

  /** The secret named, unless it is empty, and the default otherwise. */
  predicate NamesSecret(v: Validator, default: string, secret: string) {
    match v.privateKeySecret
    case Some(name) => secret == (if name != "" then name else default)
    case None => secret == default
  }

  /** The signer signs with its validator's secret, with its own, or with none. */
  predicate UsesSecret(ns: NodeSet, s: ResolvedSigner) {
    if s.validatorGroup == "" then
      match s.spec.backend
      case Software(Some(name)) => s.keySecret == name
      case _ => s.keySecret == ""
    else if s.validatorGroup == "validator" then
      ns.validator.Some? && NamesSecret(ns.validator.value, ns.name + "-validator-priv-key", s.keySecret)
    else
      exists i :: 0 <= i < |ns.nodes| && ns.nodes[i].name == s.validatorGroup && ns.nodes[i].validator.Some?
                  && NamesSecret(ns.nodes[i].validator.value, ns.name + "-" + s.validatorGroup + "-0-priv-key",
                                 s.keySecret)
  }

  /** It serves the validator among its targets, if there is one. */
  predicate ServesItsValidator(ns: NodeSet, s: ResolvedSigner) {
    if exists t :: t in s.targets && Validates(ns, t)
    then s.validatorGroup in s.targets && Validates(ns, s.validatorGroup)
    else s.validatorGroup == ""
  }

  /** The signer described at the top level: for the groups listed, or for the legacy validator. */
  predicate IsTopSigner(ns: NodeSet, s: ResolvedSigner) {
    && ns.cosmosigner == Some(s.spec) && s.name == ns.name + "-signer"
    && s.targets == (if s.spec.nodeGroups != [] then s.spec.nodeGroups
                     else if ns.validator.Some? then ["validator"] else [])
    && ServesItsValidator(ns, s) && UsesSecret(ns, s)
  }

  /** The signer described in a group, for that group alone. */
  predicate IsGroupSigner(ns: NodeSet, g: Group, s: ResolvedSigner) {
    && g.cosmosigner == Some(s.spec) && s.name == ns.name + "-" + g.name + "-signer" && s.targets == [g.name]
    && ServesItsValidator(ns, s) && UsesSecret(ns, s)
  }

  lemma ResolvedUsesSecret(ns: NodeSet, k: nat)
    requires Accepts(ns) && k < |Resolve(ns)|
    ensures ServesItsValidator(ns, Resolve(ns)[k]) && UsesSecret(ns, Resolve(ns)[k])
  {
    var s := Resolve(ns)[k];
    forall t | t in s.targets
      ensures Validates(ns, t) <==> s.validatorGroup == t
    {
      TargetedValidatorIsServed(ns, k, t);
    }
    if s.validatorGroup != "" {
      ServesATarget(ns, k);
      TargetedValidatorIsServed(ns, k, s.validatorGroup);
      assert Itoa(0) == "0";
      if s.validatorGroup != VALIDATOR {
        var i :| 0 <= i < |ns.nodes| && ns.nodes[i].name == s.validatorGroup && ns.nodes[i].validator.Some?;
        FirstValidatorIs(ns.nodes, i);
        assert DefaultSecret(ns, s.validatorGroup, 0) == ns.name + "-" + ns.nodes[i].name + "-0-priv-key";
      } else {
        assert forall i :: 0 <= i < |ns.nodes| ==> AcceptsGroup(ns, ns.nodes[i]);
      }
    } else {
      ResolvedAt(ns, k);
      if k >= TopCount(ns) {
        var i := GroupSignerOrigin(ns, ns.nodes, k - TopCount(ns));
      }
    }
  }

  /** Every resolved signer of an accepted spec is described in it, and every one described is resolved. */
  lemma ResolvedExactly(ns: NodeSet)
    requires Accepts(ns)
    ensures forall k :: 0 <= k < |Resolve(ns)| ==>
              || IsTopSigner(ns, Resolve(ns)[k])
              || exists g :: g in ns.nodes && IsGroupSigner(ns, g, Resolve(ns)[k])
    ensures ns.cosmosigner.Some? ==> exists s :: s in Resolve(ns) && IsTopSigner(ns, s)
    ensures forall g :: g in ns.nodes && g.cosmosigner.Some? ==> exists s :: s in Resolve(ns) && IsGroupSigner(ns, g, s)
  {
    forall k | 0 <= k < |Resolve(ns)|
      ensures if k < TopCount(ns) then IsTopSigner(ns, Resolve(ns)[k])
              else exists g :: g in ns.nodes && IsGroupSigner(ns, g, Resolve(ns)[k])
    {
      ResolvedAt(ns, k);
      ResolvedUsesSecret(ns, k);
      if k >= TopCount(ns) {
        var i := GroupSignerOrigin(ns, ns.nodes, k - TopCount(ns));
        assert ns.nodes[i] in ns.nodes && IsGroupSigner(ns, ns.nodes[i], Resolve(ns)[k]);
      }
    }
    if ns.cosmosigner.Some? {
      assert Resolve(ns)[0] in Resolve(ns);
    }
    forall g | g in ns.nodes && g.cosmosigner.Some?
      ensures exists s :: s in Resolve(ns) && IsGroupSigner(ns, g, s)
    {
      GroupSignersAt(ns, ns.nodes);
      var s := ResolveGroup(ns, g);
      assert s in Resolve(ns);
      var k :| 0 <= k < |Resolve(ns)| && Resolve(ns)[k] == s;
      ResolvedUsesSecret(ns, k);
    }
  }
}
