/** The admission checks as the webhook makes them, entry after entry, against what they are to accept. */
module AdmissionChecks {
  import opened Wrappers
  import opened NodeSets
  import opened Admission

  /** The group loop: names not empty, not reserved and not seen before, and the shape of each validator. */
  method ValidateGroups(ns: NodeSet) returns (ok: bool)
    ensures ok <==> AcceptsGroups(ns)
  {
    var seen: set<string> := {};
    for i := 0 to |ns.nodes|
      invariant seen == set j | 0 <= j < i :: ns.nodes[j].name
      invariant forall j, k :: 0 <= j < k < i ==> ns.nodes[j].name != ns.nodes[k].name
      invariant forall j :: 0 <= j < i ==> AcceptsGroup(ns, ns.nodes[j])
    {
      var g := ns.nodes[i];
      if g.name in seen || !AcceptsGroup(ns, g) {
        return false;
      }
      seen := seen + {g.name};
    }
    ok := true;
  }

  ghost predicate Indexes(groups: map<string, Group>, nodes: seq<Group>) {
    && (forall name :: name in groups <==> exists i :: 0 <= i < |nodes| && nodes[i].name == name)
    && (forall i :: 0 <= i < |nodes| ==> groups[nodes[i].name] == nodes[i])
  }

  method GroupsByName(nodes: seq<Group>) returns (groups: map<string, Group>)
    requires UniqueNames(nodes)
    ensures Indexes(groups, nodes)
  {
    groups := map[];
    for i := 0 to |nodes|
      invariant forall name :: name in groups <==> exists j :: 0 <= j < i && nodes[j].name == name
      invariant forall j :: 0 <= j < i ==> groups[nodes[j].name] == nodes[j]
    {
      groups := groups[nodes[i].name := nodes[i]];
    }
  }

  /** The targets of the first n entries: known, listed once, and at most one of them a validator. */
  ghost predicate TargetsAccepted(ns: NodeSet, targets: seq<string>, n: nat)
    requires n <= |targets|
  {
    && (forall i :: 0 <= i < n ==> AcceptsTarget(ns, targets[i]))
    && (forall i, j :: 0 <= i < j < n ==> targets[i] != targets[j])
  }

  function Listed(targets: seq<string>, n: nat): set<string>
    requires n <= |targets|
  {
    set i | 0 <= i < n :: targets[i]
  }

  lemma TargetsAcceptedNext(ns: NodeSet, targets: seq<string>, n: nat)
    requires n < |targets|
    ensures TargetsAccepted(ns, targets, n + 1) <==>
            TargetsAccepted(ns, targets, n) && AcceptsTarget(ns, targets[n]) && targets[n] !in Listed(targets, n)
    ensures Listed(targets, n + 1) == Listed(targets, n) + {targets[n]}
    ensures TargetsAccepted(ns, targets, |targets|) ==> TargetsAccepted(ns, targets, n + 1)
  {
  }

  ghost predicate OneValidator(ns: NodeSet, targets: seq<string>, n: nat)
    requires n <= |targets|
  {
    forall i, j :: 0 <= i < j < n ==> !(IsValidatorTarget(ns, targets[i]) && IsValidatorTarget(ns, targets[j]))
  }

  /** How many validators are among the first n targets, as far as the check needs to know. */
  ghost predicate Counts(ns: NodeSet, targets: seq<string>, n: nat, validators: nat)
    requires n <= |targets|
  {
    && (validators == 0 <==> forall i :: 0 <= i < n ==> !IsValidatorTarget(ns, targets[i]))
    && (validators <= 1 <==> OneValidator(ns, targets, n))
  }

  lemma CountsNext(ns: NodeSet, targets: seq<string>, n: nat, validators: nat)
    requires n < |targets| && Counts(ns, targets, n, validators)
    ensures Counts(ns, targets, n + 1, if IsValidatorTarget(ns, targets[n]) then validators + 1 else validators)
  {
  }

  /** One listed target: whether it may be listed, and whether it is a validator. */
  method CheckTarget(ns: NodeSet, name: string) returns (ok: bool, validates: bool)
    requires UniqueNames(ns.nodes)
    ensures ok <==> AcceptsTarget(ns, name)
    ensures ok ==> (validates <==> IsValidatorTarget(ns, name))
  {
    var groups := GroupsByName(ns.nodes);
    if name == VALIDATOR {
      ok := ns.validator.Some? && ns.validator.value.tmKms.None?;
      validates := true;
    } else if name !in groups {
      ok, validates := false, false;
    } else {
      var g := groups[name];
      validates := g.validator.Some?;
      ok := g.instances != 0 && (validates ==> g.validator.value.tmKms.None?);
    }
  }

  /** The listed targets are known, listed once, and at most one of them is a validator. */
  method ValidateTargets(ns: NodeSet, targets: seq<string>) returns (ok: bool)
    requires UniqueNames(ns.nodes)
    ensures ok <==> TargetsAccepted(ns, targets, |targets|) && OneValidator(ns, targets, |targets|)
  {
    var seen: set<string> := {};
    var validators := 0;
    for i := 0 to |targets|
      invariant seen == Listed(targets, i)
      invariant TargetsAccepted(ns, targets, i)
      invariant Counts(ns, targets, i, validators)
    {
      var name := targets[i];
      var fine, validates := CheckTarget(ns, name);
      TargetsAcceptedNext(ns, targets, i);
      if name in seen || !fine {
        return false;
      }
      seen := seen + {name};
      CountsNext(ns, targets, i, validators);
      if validates {
        validators := validators + 1;
      }
    }
    ok := validators <= 1;
  }

  method ValidateTop(ns: NodeSet, c: Cosmosigner) returns (ok: bool)
    requires UniqueNames(ns.nodes)
    ensures ok <==> AcceptsTop(ns, c)
  {
    if !AcceptsBlock(c, true) {
      return false;
    }
    if c.nodeGroups == [] {
      return ns.validator.Some? && ns.validator.value.tmKms.None?;
    }
    ok := ValidateTargets(ns, c.nodeGroups);
  }

  /** No group's own signer is on a group the top-level signer targets. */
  method ValidateTargetUniqueness(ns: NodeSet) returns (ok: bool)
    ensures ok <==> TargetsUnique(ns)
  {
    var targets: set<string> := {};
    if ns.cosmosigner.Some? {
      var c := ns.cosmosigner.value;
      if c.nodeGroups == [] {
        if ns.validator.Some? {
          targets := {VALIDATOR};
        }
      } else {
        targets := set name | name in c.nodeGroups;
      }
      assert targets == set name | name in TopTargets(ns, c);
    }
    for i := 0 to |ns.nodes|
      invariant forall j :: 0 <= j < i && ns.nodes[j].cosmosigner.Some? ==> ns.nodes[j].name !in targets
    {
      if ns.nodes[i].cosmosigner.Some? && ns.nodes[i].name in targets {
        return false;
      }
    }
    ok := true;
  }

  method ValidateSigners(ns: NodeSet) returns (ok: bool)
    requires UniqueNames(ns.nodes)
    ensures ok <==> AcceptsSigners(ns)
  {
    if ns.cosmosigner.Some? {
      ok := ValidateTop(ns, ns.cosmosigner.value);
      if !ok {
        return;
      }
    }
    for i := 0 to |ns.nodes|
      invariant forall j :: 0 <= j < i ==> AcceptsOwn(ns.nodes[j])
    {
      if ns.nodes[i].cosmosigner.Some? && !AcceptsOwn(ns.nodes[i]) {
        return false;
      }
    }
    var signers := Resolve(ns);
    for k := 0 to |signers|
      invariant forall l :: 0 <= l < k ==> AcceptsResolved(signers[l])
    {
      if !AcceptsResolved(signers[k]) {
        return false;
      }
    }
    ok := ValidateTargetUniqueness(ns);
  }

  /** The groups are checked first: the signers' checks look groups up by name. */
  method Validate(ns: NodeSet) returns (ok: bool)
    ensures ok <==> Accepts(ns)
  {
    ok := ValidateGroups(ns);
    if ok {
      ok := ValidateSigners(ns);
    }
  }
}
