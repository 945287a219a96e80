/** The names a ChainNodeSet derives: which collide, what an update may add, and how long they get. */
module DerivedNames {
  import opened Wrappers
  import opened Decimal
  import opened NodeSets

  datatype Owner =
    | GroupOwner(group: string)
    | DashboardOwner(group: string)
    | LegacyValidatorOwner
    | CosmoseedOwner
    | IngressOwner(route: string)
    | GatewayOwner(route: string)

  /** A derived name and who derives it. */
  type Claim = (string, Owner)

  // ---- Registration ----

  function Base(ns: NodeSet, g: Group): string { ns.name + "-" + g.name }

  function Child(base: string, ordinal: nat): string { base + "-" + Itoa(ordinal) }

  function GlobalName(ns: NodeSet, r: Route): string { ns.name + "-global-" + r.name }

  function ChildServices(child: string, guarded: bool): seq<string> {
    [child, child + "-internal", child + "-p2p"] + (if guarded then [child + "-cg", child + "-cg-peer"] else [])
  }

  function ChildrenServices(base: string, instances: int, guarded: bool): seq<string>
    decreases instances
  {
    if instances <= 0 then []
    else ChildrenServices(base, instances - 1, guarded) + ChildServices(Child(base, instances - 1), guarded)
  }

  function GroupServices(ns: NodeSet, g: Group): seq<string> {
    var base := Base(ns, g);
    [base, base + "-internal"] +
    (if g.instances > 0 && g.guarded then [base + "-cg", base + "-cg-upstream", base + "-cg-peer"] else []) +
    ChildrenServices(base, g.instances, g.guarded && g.individualRoutes)
  }

  function SeedServices(base: string, instances: int, exposed: bool): seq<string>
    decreases instances
  {
    if instances <= 0 then []
    else
      SeedServices(base, instances - 1, exposed) + [Child(base, instances - 1) + "-internal"] +
      (if exposed then [Child(base, instances - 1)] else [])
  }

  function CosmoseedServices(ns: NodeSet): seq<string> {
    match ns.cosmoseed
    case None => []
    case Some(seed) =>
      var base := ns.name + "-seed";
      [base, base + "-headless"] + SeedServices(base, seed.instances, seed.exposed)
  }

  function LegacyServices(ns: NodeSet): seq<string> {
    if ns.validator.Some? then [ns.name + "-validator", ns.name + "-validator-internal"] else []
  }

  function RouteServices(ns: NodeSet, r: Route): seq<string> {
    [GlobalName(ns, r), GlobalName(ns, r) + "-internal"]
  }

  function By(names: seq<string>, owner: Owner): seq<Claim> {
    seq(|names|, i requires 0 <= i < |names| => (names[i], owner))
  }

  function GroupsServices(ns: NodeSet, nodes: seq<Group>): seq<Claim> {
    if nodes == [] then []
    else By(GroupServices(ns, nodes[0]), GroupOwner(nodes[0].name)) + GroupsServices(ns, nodes[1..])
  }

  function RoutesServices(ns: NodeSet, routes: seq<Route>, owner: string -> Owner): seq<Claim> {
    if routes == [] then []
    else By(RouteServices(ns, routes[0]), owner(routes[0].name)) + RoutesServices(ns, routes[1..], owner)
  }

  /** eachDerivedServiceName, as the sequence of its calls. */
  function ServiceNames(ns: NodeSet): seq<Claim> {
    GroupsServices(ns, ns.nodes) +
    (By(LegacyServices(ns), LegacyValidatorOwner) +
     (By(CosmoseedServices(ns), CosmoseedOwner) +
      (RoutesServices(ns, ns.ingresses, r => IngressOwner(r)) +
       RoutesServices(ns, ns.gatewayRoutes, r => GatewayOwner(r)))))
  }

  function ChildrenIngresses(base: string, instances: int): seq<string>
    decreases instances
  {
    if instances <= 0 then []
    else ChildrenIngresses(base, instances - 1) + [Child(base, instances - 1), Child(base, instances - 1) + "-grpc"]
  }

  function GroupsIngresses(ns: NodeSet, nodes: seq<Group>): seq<Claim> {
    if nodes == [] then []
    else
      var g := nodes[0];
      By(ChildrenIngresses(Base(ns, g), g.instances), GroupOwner(g.name)) +
      (if g.instances != 0 && g.guarded && g.dashboardIngress
       then [(Base(ns, g) + "-cg-dashboard", DashboardOwner(g.name))] else []) +
      GroupsIngresses(ns, nodes[1..])
  }

  function RoutesIngresses(ns: NodeSet, routes: seq<Route>): seq<Claim> {
    if routes == [] then []
    else
      (if routes[0].servicesOnly then []
       else By([GlobalName(ns, routes[0]), GlobalName(ns, routes[0]) + "-grpc"], IngressOwner(routes[0].name))) +
      RoutesIngresses(ns, routes[1..])
  }

  /** eachDerivedIngressName */
  function IngressNames(ns: NodeSet): seq<Claim> {
    GroupsIngresses(ns, ns.nodes) + RoutesIngresses(ns, ns.ingresses)
  }

  // ---- Collisions ----

  /** Two owners derive the name. */
  ghost predicate Collides(claims: seq<Claim>, name: string) {
    exists i, j :: 0 <= i < |claims| && 0 <= j < |claims| &&
      claims[i].0 == name && claims[j].0 == name && claims[i].1 != claims[j].1
  }

  /** Every name seen is kept with an owner that claims it. */
  ghost predicate Owners(claims: seq<Claim>, n: nat, seen: map<string, Owner>)
    requires n <= |claims|
  {
    forall name :: name in seen ==> exists i :: 0 <= i < n && claims[i] == (name, seen[name])
  }

  /** Somebody else than the owner kept claims the name. */
  ghost predicate Disputed(claims: seq<Claim>, n: nat, seen: map<string, Owner>, name: string)
    requires n <= |claims|
  {
    name in seen && exists i :: 0 <= i < n && claims[i].0 == name && claims[i].1 != seen[name]
  }

  lemma DisputedIffCollides(claims: seq<Claim>, seen: map<string, Owner>, name: string)
    requires Owners(claims, |claims|, seen) && forall i :: 0 <= i < |claims| ==> claims[i].0 in seen
    ensures Disputed(claims, |claims|, seen, name) <==> Collides(claims, name)
  {
    if Disputed(claims, |claims|, seen, name) {
      var i :| 0 <= i < |claims| && claims[i].0 == name && claims[i].1 != seen[name];
      var j :| 0 <= j < |claims| && claims[j] == (name, seen[name]);
      assert claims[j].0 == name && claims[j].1 != claims[i].1;
    }
  }

  lemma OwnersNext(claims: seq<Claim>, n: nat, seen: map<string, Owner>)
    requires n < |claims| && Owners(claims, n, seen)
    ensures Owners(claims, n + 1, seen)
    ensures Owners(claims, n + 1, seen[claims[n].0 := claims[n].1])
  {
    var seen' := seen[claims[n].0 := claims[n].1];
    forall name | name in seen'
      ensures exists i :: 0 <= i < n + 1 && claims[i] == (name, seen'[name])
    {
      if name == claims[n].0 {
        assert claims[n] == (name, seen'[name]);
      } else {
        var i :| 0 <= i < n && claims[i] == (name, seen[name]);
      }
    }
  }

  /** collidingDerivedNames */
  method CollidingNames(claims: seq<Claim>) returns (collisions: set<string>)
    ensures forall name :: name in collisions <==> Collides(claims, name)
  {
    var seen: map<string, Owner> := map[];
    collisions := {};
    for n := 0 to |claims|
      invariant Owners(claims, n, seen) && forall i :: 0 <= i < n ==> claims[i].0 in seen
      invariant forall name :: name in collisions <==> Disputed(claims, n, seen, name)
    {
      OwnersNext(claims, n, seen);
      var (name, owner) := claims[n];
      if name in seen && seen[name] != owner {
        collisions := collisions + {name};
      } else {
        seen := seen[name := owner];
      }
    }
    forall name ensures name in collisions <==> Collides(claims, name) {
      DisputedIffCollides(claims, seen, name);
    }
  }

  /**
  validateServiceNameCollisions and validateIngressNameCollisions: the first name derived by two owners
  that is not grandfathered refuses the spec.
  */
  method ValidateCollisions(claims: seq<Claim>, grandfathered: set<string>) returns (refused: Option<string>)
    ensures refused.None? <==> forall name :: Collides(claims, name) ==> name in grandfathered
    ensures refused.Some? ==> Collides(claims, refused.value) && refused.value !in grandfathered
  {
    var owners: map<string, Owner> := map[];
    refused := None;
    for n := 0 to |claims|
      invariant refused.None? ==> Owners(claims, n, owners)
      invariant refused.None? ==>
                  forall i :: 0 <= i < n && claims[i].0 !in grandfathered ==>
                    claims[i].0 in owners && owners[claims[i].0] == claims[i].1
      invariant refused.Some? ==> Collides(claims, refused.value) && refused.value !in grandfathered
    {
      var (name, owner) := claims[n];
      if refused.None? {
        OwnersNext(claims, n, owners);
        if name !in grandfathered {
          if name in owners && owners[name] != owner {
            var i :| 0 <= i < n && claims[i] == (name, owners[name]);
            assert claims[i].0 == name && claims[n].0 == name && claims[i].1 != claims[n].1;
            refused := Some(name);
          } else {
            owners := owners[name := owner];
          }
        }
      }
    }
  }

  /** An update: the previous spec's own collisions are grandfathered. */
  method ValidateUpdate(claims: seq<Claim>, previous: seq<Claim>) returns (refused: Option<string>)
    ensures refused.None? <==> Admits(previous, claims)
  {
    var grandfathered := CollidingNames(previous);
    refused := ValidateCollisions(claims, grandfathered);
  }

  /** The new spec's colliding names are among the old spec's. */
  ghost predicate Admits(previous: seq<Claim>, claims: seq<Claim>) {
    forall name :: Collides(claims, name) ==> Collides(previous, name)
  }

  ghost predicate CollisionFree(claims: seq<Claim>) {
    forall name :: !Collides(claims, name)
  }

  /** A run of specs whose Service and Ingress names pass the check at every update. */
  ghost predicate AcceptedRun(specs: seq<NodeSet>) {
    && specs != []
    && forall i :: 0 <= i < |specs| - 1 ==>
        && Admits(ServiceNames(specs[i]), ServiceNames(specs[i + 1]))
        && Admits(IngressNames(specs[i]), IngressNames(specs[i + 1]))
  }

  /** Along accepted updates collisions only disappear; a collision-free spec stays collision-free. */
  lemma {:induction false} CollisionsOnlyShrink(specs: seq<NodeSet>, i: nat, j: nat)
    requires AcceptedRun(specs) && i <= j < |specs|
    ensures Admits(ServiceNames(specs[i]), ServiceNames(specs[j]))
    ensures Admits(IngressNames(specs[i]), IngressNames(specs[j]))
    ensures forall name :: ServiceContested(specs[j], name) ==> ServiceContested(specs[i], name)
    ensures forall name :: IngressContested(specs[j], name) ==> IngressContested(specs[i], name)
    ensures CollisionFree(ServiceNames(specs[i])) ==> CollisionFree(ServiceNames(specs[j]))
    ensures CollisionFree(IngressNames(specs[i])) ==> CollisionFree(IngressNames(specs[j]))
    decreases j - i
  {
    if i < j {
      CollisionsOnlyShrink(specs, i, j - 1);
      assert Admits(ServiceNames(specs[j - 1]), ServiceNames(specs[j - 1 + 1]));
    }
    UpdatesAdmittedExactly(specs[i], specs[j]);
  }

  // ---- Lengths ----

  const LABEL_LIMIT := 63

  predicate Fits(name: string) { |name| <= LABEL_LIMIT }

  ghost predicate AllFit(names: seq<string>) {
    forall i :: 0 <= i < |names| ==> Fits(names[i])
  }

  /** validateDerivedNameLengths, for the features a node set turns on. */
  predicate BaseFits(base: string, guardedGroup: bool) {
    Fits(base + "-internal") && (guardedGroup ==> Fits(base + "-cg-upstream"))
  }

  predicate GroupFits(ns: NodeSet, g: Group) {
    && BaseFits(Base(ns, g), g.instances > 0 && g.guarded)
    && (g.instances > 0 ==> BaseFits(Child(Base(ns, g), g.instances - 1), false))
  }

  predicate CosmoseedFits(ns: NodeSet) {
    ns.cosmoseed.Some? ==>
      && Fits(ns.name + "-seed-headless")
      && (ns.cosmoseed.value.instances > 0 ==>
            Fits(ns.name + "-seed-" + Itoa(ns.cosmoseed.value.instances - 1) + "-internal"))
  }

  /** validateGeneratedNameLengths: the highest ordinals and the longest suffixes only. */
  predicate GeneratedNamesFit(ns: NodeSet) {
    && (forall i :: 0 <= i < |ns.nodes| ==> GroupFits(ns, ns.nodes[i]))
    && (ns.validator.Some? ==> BaseFits(ns.name + "-validator", false))
    && (forall i :: 0 <= i < |ns.ingresses| ==> Fits(GlobalName(ns, ns.ingresses[i]) + "-internal"))
    && (forall i :: 0 <= i < |ns.gatewayRoutes| ==> Fits(GlobalName(ns, ns.gatewayRoutes[i]) + "-internal"))
    && CosmoseedFits(ns)
    && (forall i :: 0 <= i < |Resolve(ns)| ==> Fits(Resolve(ns)[i].name + "-privval"))
  }

  lemma {:induction false} ChildrenFit(base: string, instances: int, guarded: bool, highest: nat)
    requires instances - 1 <= highest && Fits(Child(base, highest) + "-internal")
    ensures AllFit(ChildrenServices(base, instances, guarded))
    decreases instances
  {
    if instances > 0 {
      ChildrenFit(base, instances - 1, guarded, highest);
      ItoaLengthMonotone(instances - 1, highest);
    }
  }

  lemma {:induction false} LastChildListed(base: string, instances: int, guarded: bool)
    requires instances > 0 && AllFit(ChildrenServices(base, instances, guarded))
    ensures Fits(Child(base, instances - 1) + "-internal")
  {
    var all, before := ChildrenServices(base, instances, guarded), ChildrenServices(base, instances - 1, guarded);
    assert all[|before| + 1] == Child(base, instances - 1) + "-internal";
  }

  lemma AllFitAppend(a: seq<string>, b: seq<string>)
    ensures AllFit(a + b) <==> AllFit(a) && AllFit(b)
  {
    assert forall i :: 0 <= i < |a| ==> a[i] == (a + b)[i];
    assert forall i :: 0 <= i < |b| ==> b[i] == (a + b)[|a| + i];
  }

  lemma GroupFitsExactly(ns: NodeSet, g: Group)
    ensures GroupFits(ns, g) <==> AllFit(GroupServices(ns, g))
  {
    var base := Base(ns, g);
    var children := ChildrenServices(base, g.instances, g.guarded && g.individualRoutes);
    var guards := if g.instances > 0 && g.guarded then [base + "-cg", base + "-cg-upstream", base + "-cg-peer"] else [];
    AllFitAppend([base, base + "-internal"] + guards, children);
    AllFitAppend([base, base + "-internal"], guards);
    assert AllFit([base, base + "-internal"]) <==> Fits([base, base + "-internal"][1]);
    assert g.instances > 0 && g.guarded ==> (AllFit(guards) <==> Fits(guards[1]));
    if g.instances > 0 {
      if Fits(Child(base, g.instances - 1) + "-internal") {
        ChildrenFit(base, g.instances, g.guarded && g.individualRoutes, g.instances - 1);
      } else if AllFit(children) {
        LastChildListed(base, g.instances, g.guarded && g.individualRoutes);
      }
    }
  }

  lemma {:induction false} SeedsFit(base: string, instances: int, exposed: bool, highest: nat)
    requires instances - 1 <= highest && Fits(Child(base, highest) + "-internal")
    ensures AllFit(SeedServices(base, instances, exposed))
    decreases instances
  {
    if instances > 0 {
      SeedsFit(base, instances - 1, exposed, highest);
      ItoaLengthMonotone(instances - 1, highest);
    }
  }

  lemma LastSeedListed(base: string, instances: int, exposed: bool)
    requires instances > 0 && AllFit(SeedServices(base, instances, exposed))
    ensures Fits(Child(base, instances - 1) + "-internal")
  {
    var all, before := SeedServices(base, instances, exposed), SeedServices(base, instances - 1, exposed);
    assert all[|before|] == Child(base, instances - 1) + "-internal";
  }

  lemma CosmoseedFitsExactly(ns: NodeSet)
    ensures CosmoseedFits(ns) <==> AllFit(CosmoseedServices(ns))
  {
    if ns.cosmoseed.Some? {
      var seed, base := ns.cosmoseed.value, ns.name + "-seed";
      var names := [base, base + "-headless"];
      var instances := SeedServices(base, seed.instances, seed.exposed);
      AllFitAppend(names, instances);
      assert AllFit(names) <==> Fits(names[1]);
      assert |ns.name + "-seed-headless"| == |names[1]|;
      if seed.instances > 0 {
        var last := Child(base, seed.instances - 1) + "-internal";
        assert |ns.name + "-seed-" + Itoa(seed.instances - 1) + "-internal"| == |last|;
        if Fits(last) {
          SeedsFit(base, seed.instances, seed.exposed, seed.instances - 1);
        } else if AllFit(instances) {
          LastSeedListed(base, seed.instances, seed.exposed);
        }
      }
    }
  }

  ghost predicate ClaimsFit(claims: seq<Claim>) {
    forall i :: 0 <= i < |claims| ==> Fits(claims[i].0)
  }

  lemma ClaimsFitAppend(a: seq<Claim>, b: seq<Claim>)
    ensures ClaimsFit(a + b) <==> ClaimsFit(a) && ClaimsFit(b)
  {
    assert forall i :: 0 <= i < |a| ==> a[i] == (a + b)[i];
    assert forall i :: 0 <= i < |b| ==> b[i] == (a + b)[|a| + i];
  }

  lemma ByFits(names: seq<string>, owner: Owner)
    ensures ClaimsFit(By(names, owner)) <==> AllFit(names)
  {
    assert forall i :: 0 <= i < |names| ==> By(names, owner)[i].0 == names[i];
  }

  lemma {:induction false} GroupsFitExactly(ns: NodeSet, nodes: seq<Group>)
    ensures ClaimsFit(GroupsServices(ns, nodes)) <==> forall i :: 0 <= i < |nodes| ==> GroupFits(ns, nodes[i])
  {
    if nodes != [] {
      GroupsFitExactly(ns, nodes[1..]);
      GroupFitsExactly(ns, nodes[0]);
      ByFits(GroupServices(ns, nodes[0]), GroupOwner(nodes[0].name));
      ClaimsFitAppend(By(GroupServices(ns, nodes[0]), GroupOwner(nodes[0].name)), GroupsServices(ns, nodes[1..]));
      assert forall i :: 0 < i < |nodes| ==> nodes[i] == nodes[1..][i - 1];
    }
  }

  lemma {:induction false} RoutesFitExactly(ns: NodeSet, routes: seq<Route>, owner: string -> Owner)
    ensures ClaimsFit(RoutesServices(ns, routes, owner)) <==>
            forall i :: 0 <= i < |routes| ==> Fits(GlobalName(ns, routes[i]) + "-internal")
  {
    if routes != [] {
      RoutesFitExactly(ns, routes[1..], owner);
      var names := RouteServices(ns, routes[0]);
      assert AllFit(names) <==> Fits(names[1]);
      ByFits(names, owner(routes[0].name));
      ClaimsFitAppend(By(names, owner(routes[0].name)), RoutesServices(ns, routes[1..], owner));
      assert forall i :: 0 < i < |routes| ==> routes[i] == routes[1..][i - 1];
    }
  }

  lemma LegacyFitsExactly(ns: NodeSet)
    ensures AllFit(LegacyServices(ns)) <==> (ns.validator.Some? ==> BaseFits(ns.name + "-validator", false))
  {
    if ns.validator.Some? {
      assert LegacyServices(ns)[1] == ns.name + "-validator-internal" == ns.name + "-validator" + "-internal";
    }
  }

  /**
  Checking the highest ordinal and the longest suffix is enough, and not too much: a spec passes the
  length check exactly when every Service name it derives, for every ordinal, and every signer's
  discovery Service name fits a DNS label (63 octets, section 2.3.4 of RFC 1035).
  */
  lemma LengthCheckIsExact(ns: NodeSet)
    ensures GeneratedNamesFit(ns) <==>
            && (forall i :: 0 <= i < |ServiceNames(ns)| ==> |ServiceNames(ns)[i].0| <= 63)
            && (forall i :: 0 <= i < |Resolve(ns)| ==> |Resolve(ns)[i].name + "-privval"| <= 63)
  {
    PartsFit(ns);
    GroupsFitExactly(ns, ns.nodes);
    LegacyFitsExactly(ns);
    CosmoseedFitsExactly(ns);
    RoutesFitExactly(ns, ns.ingresses, r => IngressOwner(r));
    RoutesFitExactly(ns, ns.gatewayRoutes, r => GatewayOwner(r));
  }

  lemma PartsFit(ns: NodeSet)
    ensures ClaimsFit(ServiceNames(ns)) <==>
            && ClaimsFit(GroupsServices(ns, ns.nodes)) && AllFit(LegacyServices(ns)) && AllFit(CosmoseedServices(ns))
            && ClaimsFit(RoutesServices(ns, ns.ingresses, r => IngressOwner(r)))
            && ClaimsFit(RoutesServices(ns, ns.gatewayRoutes, r => GatewayOwner(r)))
  {
    var legacy := By(LegacyServices(ns), LegacyValidatorOwner);
    var seeds := By(CosmoseedServices(ns), CosmoseedOwner);
    var ingresses := RoutesServices(ns, ns.ingresses, r => IngressOwner(r));
    var gateways := RoutesServices(ns, ns.gatewayRoutes, r => GatewayOwner(r));
    ByFits(LegacyServices(ns), LegacyValidatorOwner);
    ByFits(CosmoseedServices(ns), CosmoseedOwner);
    ClaimsFitAppend(ingresses, gateways);
    ClaimsFitAppend(seeds, ingresses + gateways);
    ClaimsFitAppend(legacy, seeds + (ingresses + gateways));
    ClaimsFitAppend(GroupsServices(ns, ns.nodes), legacy + (seeds + (ingresses + gateways)));
  }

  // ---- What is derived, in terms of the spec ----

  predicate ChildDerives(child: string, guarded: bool, name: string) {
    || name in {child, child + "-internal", child + "-p2p"}
    || (guarded && name in {child + "-cg", child + "-cg-peer"})
  }

  predicate NthChildDerives(base: string, j: nat, guarded: bool, name: string) {
    ChildDerives(base + "-" + Itoa(j), guarded, name)
  }

  ghost predicate ChildrenDerive(base: string, instances: int, guarded: bool, name: string) {
    exists j: nat :: NthChildDerives(base, j, guarded, name) && j < instances
  }

  predicate GuardDerives(base: string, name: string) {
    name in {base + "-cg", base + "-cg-upstream", base + "-cg-peer"}
  }

  ghost predicate GroupDerives(ns: NodeSet, g: Group, name: string) {
    var base := ns.name + "-" + g.name;
    || name in {base, base + "-internal"}
    || (g.guarded && g.instances > 0 && GuardDerives(base, name))
    || ChildrenDerive(base, g.instances, g.guarded && g.individualRoutes, name)
  }

  predicate NthSeedDerives(base: string, j: nat, exposed: bool, name: string) {
    name == base + "-" + Itoa(j) + "-internal" || (exposed && name == base + "-" + Itoa(j))
  }

  ghost predicate SeedDerives(base: string, instances: int, exposed: bool, name: string) {
    exists j: nat :: NthSeedDerives(base, j, exposed, name) && j < instances
  }

  predicate NthChildDerivesIngress(base: string, j: nat, name: string) {
    name in {base + "-" + Itoa(j), base + "-" + Itoa(j) + "-grpc"}
  }

  ghost predicate ChildrenDeriveIngress(base: string, instances: int, name: string) {
    exists j: nat :: NthChildDerivesIngress(base, j, name) && j < instances
  }

  ghost predicate RouteDerives(ns: NodeSet, r: Route, name: string) {
    name in {ns.name + "-global-" + r.name, ns.name + "-global-" + r.name + "-internal"}
  }

  /** The owner derives the Service name from the spec. */
  ghost predicate DerivesService(ns: NodeSet, name: string, owner: Owner) {
    match owner
    case GroupOwner(group) => exists g :: g in ns.nodes && g.name == group && GroupDerives(ns, g, name)
    case DashboardOwner(_) => false
    case LegacyValidatorOwner =>
      ns.validator.Some? && name in {ns.name + "-validator", ns.name + "-validator-internal"}
    case CosmoseedOwner =>
      ns.cosmoseed.Some? &&
      (|| name in {ns.name + "-seed", ns.name + "-seed-headless"}
       || SeedDerives(ns.name + "-seed", ns.cosmoseed.value.instances, ns.cosmoseed.value.exposed, name))
    case IngressOwner(route) => exists r :: r in ns.ingresses && r.name == route && RouteDerives(ns, r, name)
    case GatewayOwner(route) => exists r :: r in ns.gatewayRoutes && r.name == route && RouteDerives(ns, r, name)
  }

  /** The owner derives the Ingress name from the spec. */
  ghost predicate DerivesIngress(ns: NodeSet, name: string, owner: Owner) {
    match owner
    case GroupOwner(group) =>
      exists g :: g in ns.nodes && g.name == group && ChildrenDeriveIngress(ns.name + "-" + g.name, g.instances, name)
    case DashboardOwner(group) =>
      exists g :: g in ns.nodes && g.name == group && g.instances != 0 && g.guarded && g.dashboardIngress &&
        name == ns.name + "-" + g.name + "-cg-dashboard"
    case IngressOwner(route) =>
      exists r :: r in ns.ingresses && r.name == route && !r.servicesOnly &&
        name in {ns.name + "-global-" + r.name, ns.name + "-global-" + r.name + "-grpc"}
    case _ => false
  }

  lemma InBy(names: seq<string>, owner: Owner, name: string, who: Owner)
    ensures (name, who) in By(names, owner) <==> who == owner && name in names
  {
    var claims := By(names, owner);
    if who == owner && name in names {
      var i :| 0 <= i < |names| && names[i] == name;
      assert claims[i] == (name, who);
    }
  }

  lemma {:induction false} InChildren(base: string, instances: int, guarded: bool, name: string)
    ensures name in ChildrenServices(base, instances, guarded) <==> ChildrenDerive(base, instances, guarded, name)
    decreases instances
  {
    if instances > 0 {
      InChildren(base, instances - 1, guarded, name);
      var last: nat := instances - 1;
      InLastChild(base, last, guarded, name);
      assert ChildrenDerive(base, instances, guarded, name) <==>
             ChildrenDerive(base, instances - 1, guarded, name) || NthChildDerives(base, last, guarded, name);
    }
  }

  lemma InLastChild(base: string, j: nat, guarded: bool, name: string)
    ensures name in ChildServices(Child(base, j), guarded) <==> NthChildDerives(base, j, guarded, name)
  {
  }

  lemma InGroup(ns: NodeSet, g: Group, name: string)
    ensures name in GroupServices(ns, g) <==> GroupDerives(ns, g, name)
  {
    var base := Base(ns, g);
    var own := [base, base + "-internal"];
    var guards := if g.instances > 0 && g.guarded then [base + "-cg", base + "-cg-upstream", base + "-cg-peer"] else [];
    var children := ChildrenServices(base, g.instances, g.guarded && g.individualRoutes);
    InThree(own, guards, children, name);
    InChildren(base, g.instances, g.guarded && g.individualRoutes, name);
    assert name in guards <==> g.guarded && g.instances > 0 && GuardDerives(base, name);
  }

  lemma InThree(a: seq<string>, b: seq<string>, c: seq<string>, name: string)
    ensures name in a + b + c <==> name in a || name in b || name in c
  {
  }

  lemma {:induction false} InGroups(ns: NodeSet, nodes: seq<Group>, name: string, owner: Owner)
    ensures (name, owner) in GroupsServices(ns, nodes) <==>
            exists g :: g in nodes && owner == GroupOwner(g.name) && GroupDerives(ns, g, name)
  {
    if nodes != [] {
      var g := nodes[0];
      InGroups(ns, nodes[1..], name, owner);
      InGroup(ns, g, name);
      InBy(GroupServices(ns, g), GroupOwner(g.name), name, owner);
      assert nodes == [g] + nodes[1..];
      assert forall h :: h in nodes <==> h == g || h in nodes[1..];
    }
  }

  lemma {:induction false} InSeeds(base: string, instances: int, exposed: bool, name: string)
    ensures name in SeedServices(base, instances, exposed) <==> SeedDerives(base, instances, exposed, name)
    decreases instances
  {
    if instances > 0 {
      InSeeds(base, instances - 1, exposed, name);
      var last: nat := instances - 1;
      var child := Child(base, last);
      InThree(SeedServices(base, instances - 1, exposed), [child + "-internal"], if exposed then [child] else [], name);
      assert SeedDerives(base, instances, exposed, name) <==>
             SeedDerives(base, instances - 1, exposed, name) || NthSeedDerives(base, last, exposed, name);
    }
  }

  lemma {:induction false} InRoutes(ns: NodeSet, routes: seq<Route>, owner: string -> Owner, name: string, who: Owner)
    ensures (name, who) in RoutesServices(ns, routes, owner) <==>
            exists r :: r in routes && who == owner(r.name) && RouteDerives(ns, r, name)
  {
    if routes != [] {
      var r := routes[0];
      InRoutes(ns, routes[1..], owner, name, who);
      InBy(RouteServices(ns, r), owner(r.name), name, who);
      assert forall q :: q in routes <==> q == r || q in routes[1..];
    }
  }

  /** The registration lists exactly what the spec derives. */
  lemma ServiceNamesExact(ns: NodeSet, name: string, owner: Owner)
    ensures (name, owner) in ServiceNames(ns) <==> DerivesService(ns, name, owner)
  {
    InGroups(ns, ns.nodes, name, owner);
    InBy(LegacyServices(ns), LegacyValidatorOwner, name, owner);
    InBy(CosmoseedServices(ns), CosmoseedOwner, name, owner);
    InCosmoseed(ns, name);
    var ingresses := RoutesServices(ns, ns.ingresses, r => IngressOwner(r));
    var gateways := RoutesServices(ns, ns.gatewayRoutes, r => GatewayOwner(r));
    InRoutes(ns, ns.ingresses, r => IngressOwner(r), name, owner);
    InRoutes(ns, ns.gatewayRoutes, r => GatewayOwner(r), name, owner);
    InFive(GroupsServices(ns, ns.nodes), By(LegacyServices(ns), LegacyValidatorOwner),
           By(CosmoseedServices(ns), CosmoseedOwner), ingresses, gateways, (name, owner));
  }

  lemma InCosmoseed(ns: NodeSet, name: string)
    ensures name in CosmoseedServices(ns) <==> DerivesService(ns, name, CosmoseedOwner)
  {
    if ns.cosmoseed.Some? {
      InSeeds(ns.name + "-seed", ns.cosmoseed.value.instances, ns.cosmoseed.value.exposed, name);
      assert ns.name + "-seed" + "-headless" == ns.name + "-seed-headless";
    }
  }

  lemma InFive(a: seq<Claim>, b: seq<Claim>, c: seq<Claim>, d: seq<Claim>, e: seq<Claim>, x: Claim)
    ensures x in a + (b + (c + (d + e))) <==> x in a || x in b || x in c || x in d || x in e
  {
  }

  lemma {:induction false} InChildIngresses(base: string, instances: int, name: string)
    ensures name in ChildrenIngresses(base, instances) <==> ChildrenDeriveIngress(base, instances, name)
    decreases instances
  {
    if instances > 0 {
      InChildIngresses(base, instances - 1, name);
      var last: nat := instances - 1;
      assert ChildrenDeriveIngress(base, instances, name) <==>
             ChildrenDeriveIngress(base, instances - 1, name) || NthChildDerivesIngress(base, last, name);
    }
  }

  /** The group, or its guard's dashboard, derives the Ingress name. */
  ghost predicate GroupDerivesIngress(ns: NodeSet, g: Group, name: string, owner: Owner) {
    var base := ns.name + "-" + g.name;
    || (owner == GroupOwner(g.name) && ChildrenDeriveIngress(base, g.instances, name))
    || (owner == DashboardOwner(g.name) && g.instances != 0 && g.guarded && g.dashboardIngress &&
        name == base + "-cg-dashboard")
  }

  lemma InGroupIngress(ns: NodeSet, g: Group, rest: seq<Claim>, name: string, owner: Owner)
    ensures var base := Base(ns, g);
            var children := By(ChildrenIngresses(base, g.instances), GroupOwner(g.name));
            var dashboard := if g.instances != 0 && g.guarded && g.dashboardIngress
                             then [(base + "-cg-dashboard", DashboardOwner(g.name))] else [];
            (name, owner) in children + dashboard + rest <==>
            GroupDerivesIngress(ns, g, name, owner) || (name, owner) in rest
  {
    InChildIngresses(Base(ns, g), g.instances, name);
    InBy(ChildrenIngresses(Base(ns, g), g.instances), GroupOwner(g.name), name, owner);
  }

  lemma {:induction false} InGroupIngresses(ns: NodeSet, nodes: seq<Group>, name: string, owner: Owner)
    ensures (name, owner) in GroupsIngresses(ns, nodes) <==>
            exists g :: g in nodes && GroupDerivesIngress(ns, g, name, owner)
  {
    if nodes != [] {
      InGroupIngresses(ns, nodes[1..], name, owner);
      InGroupIngress(ns, nodes[0], GroupsIngresses(ns, nodes[1..]), name, owner);
      assert forall h :: h in nodes <==> h == nodes[0] || h in nodes[1..];
    }
  }

  lemma {:induction false} InRouteIngresses(ns: NodeSet, routes: seq<Route>, name: string, owner: Owner)
    ensures (name, owner) in RoutesIngresses(ns, routes) <==>
            exists r :: r in routes && owner == IngressOwner(r.name) && !r.servicesOnly &&
              name in {ns.name + "-global-" + r.name, ns.name + "-global-" + r.name + "-grpc"}
  {
    if routes != [] {
      var r := routes[0];
      InRouteIngresses(ns, routes[1..], name, owner);
      InBy([GlobalName(ns, r), GlobalName(ns, r) + "-grpc"], IngressOwner(r.name), name, owner);
      assert forall q :: q in routes <==> q == r || q in routes[1..];
    }
  }

  lemma IngressNamesExact(ns: NodeSet, name: string, owner: Owner)
    ensures (name, owner) in IngressNames(ns) <==> DerivesIngress(ns, name, owner)
  {
    InGroupIngresses(ns, ns.nodes, name, owner);
    InRouteIngresses(ns, ns.ingresses, name, owner);
  }

  lemma CollidesIffTwoClaim(claims: seq<Claim>, name: string)
    ensures Collides(claims, name) <==> exists a, b :: a != b && (name, a) in claims && (name, b) in claims
  {
    if Collides(claims, name) {
      var i, j :| 0 <= i < |claims| && 0 <= j < |claims| && claims[i].0 == name && claims[j].0 == name
                  && claims[i].1 != claims[j].1;
      assert claims[i] == (name, claims[i].1) && claims[j] == (name, claims[j].1);
    }
    if a, b :| a != b && (name, a) in claims && (name, b) in claims {
      var i :| 0 <= i < |claims| && claims[i] == (name, a);
      var j :| 0 <= j < |claims| && claims[j] == (name, b);
      assert claims[i].0 == name && claims[j].0 == name && claims[i].1 != claims[j].1;
    }
  }

  /** Two owners derive the Service name from the spec. */
  ghost predicate ServiceContested(ns: NodeSet, name: string) {
    exists a, b :: a != b && DerivesService(ns, name, a) && DerivesService(ns, name, b)
  }

  ghost predicate IngressContested(ns: NodeSet, name: string) {
    exists a, b :: a != b && DerivesIngress(ns, name, a) && DerivesIngress(ns, name, b)
  }

  lemma CollisionsExact(ns: NodeSet, name: string)
    ensures Collides(ServiceNames(ns), name) <==> ServiceContested(ns, name)
    ensures Collides(IngressNames(ns), name) <==> IngressContested(ns, name)
  {
    CollidesIffTwoClaim(ServiceNames(ns), name);
    CollidesIffTwoClaim(IngressNames(ns), name);
    forall a ensures (name, a) in ServiceNames(ns) <==> DerivesService(ns, name, a) { ServiceNamesExact(ns, name, a); }
    forall a ensures (name, a) in IngressNames(ns) <==> DerivesIngress(ns, name, a) { IngressNamesExact(ns, name, a); }
  }

  /** An update passes both checks exactly when it makes no name contested that was not. */
  lemma UpdatesAdmittedExactly(prev: NodeSet, ns: NodeSet)
    ensures Admits(ServiceNames(prev), ServiceNames(ns)) <==>
            forall name :: ServiceContested(ns, name) ==> ServiceContested(prev, name)
    ensures Admits(IngressNames(prev), IngressNames(ns)) <==>
            forall name :: IngressContested(ns, name) ==> IngressContested(prev, name)
  {
    forall name
      ensures Collides(ServiceNames(ns), name) <==> ServiceContested(ns, name)
      ensures Collides(IngressNames(ns), name) <==> IngressContested(ns, name)
      ensures Collides(ServiceNames(prev), name) <==> ServiceContested(prev, name)
      ensures Collides(IngressNames(prev), name) <==> IngressContested(prev, name)
    {
      CollisionsExact(ns, name);
      CollisionsExact(prev, name);
    }
  }

  /** The length check passes exactly when every Service name the spec derives, and every discovery Service, fits. */
  lemma LengthsAdmittedExactly(ns: NodeSet)
    ensures GeneratedNamesFit(ns) <==>
            && (forall name, owner :: DerivesService(ns, name, owner) ==> |name| <= 63)
            && (forall s :: s in Resolve(ns) ==> |s.name + "-privval"| <= 63)
  {
    LengthCheckIsExact(ns);
    var names := ServiceNames(ns);
    if forall i :: 0 <= i < |names| ==> |names[i].0| <= 63 {
      forall name, owner | DerivesService(ns, name, owner) ensures |name| <= 63 {
        ServiceNamesExact(ns, name, owner);
      }
    }
    if forall name, owner :: DerivesService(ns, name, owner) ==> |name| <= 63 {
      forall i | 0 <= i < |names| ensures |names[i].0| <= 63 {
        assert (names[i].0, names[i].1) == names[i];
        ServiceNamesExact(ns, names[i].0, names[i].1);
      }
    }
  }
}
