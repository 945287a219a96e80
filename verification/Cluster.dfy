/**
The part of a Kubernetes namespace that one signer's lifecycle depends on, and everything that can
happen to it without the operator: the StatefulSet controller acting on the spec it last observed,
pods stopping, finalizer-free claims disappearing, and unrelated objects changing.
*/
module Cluster {
  import opened Wrappers
  import SignerNames

  /** Pods and claims are keyed by what their names read as; SignerNames shows that nothing is lost by it. */
  type Name = SignerNames.ObjectName

  function ClaimName(sts: string, ordinal: nat): Name { SignerNames.Child(sts, ordinal) }

  function PodName(sts: string, ordinal: nat): Name { SignerNames.Child(sts, ordinal) }

  predicate IsDataClaim(c: Name, sts: string) { c.Child? && c.sts == sts }

  predicate IsReplicaPodName(p: Name, sts: string) { p.Child? && p.sts == sts }

  /** A replica count: a non-negative int32. */
  type Count = n: nat | n <= 0x7fff_ffff

  /** The signer's resource base name and the UID of the custom resource that owns it. */
  datatype Signer = Signer(name: string, owner: string)

  datatype Retention = Retain | Delete

  datatype Policy = Policy(whenDeleted: Retention, whenScaled: Retention)

  const RETAIN_ALL := Policy(Retain, Retain)

  /** The policy every rendered signer StatefulSet starts with. */
  const RENDERED_POLICY := Policy(Delete, Retain)

  datatype StatefulSet = StatefulSet(
    uid: string,
    controller: Option<string>,
    generation: nat,
    replicas: Option<Count>,
    policy: Option<Policy>,
    claimLabel: Option<string>,
    guardedTemplate: bool,
    everRolledOut: bool,
    stateLost: bool,
    key: string,
    deleting: bool,
    observed: nat,
    statusReplicas: Count,
    updatedReplicas: Count,
    readyReplicas: Count)

  /** What the StatefulSet controller last saw of a set; every action of its is taken from this. */
  datatype View = View(
    uid: string,
    generation: nat,
    replicas: Count,
    policy: Policy,
    claimLabel: Option<string>,
    guardedTemplate: bool,
    key: string)

  datatype Pod = Pod(
    app: string,
    instance: string,
    controller: Option<string>,
    terminating: bool,
    mount: Option<Name>,
    key: string)

  /** A persistent volume claim; `writers` are the consensus keys whose signing state it holds. */
  datatype Claim = Claim(
    uid: string,
    ownerLabel: Option<string>,
    guarded: bool,
    terminating: bool,
    bound: bool,
    writers: set<string>)

  datatype Kind = ConfigMap | NetworkPolicy | Service

  datatype Resource = Resource(controller: Option<string>, headless: bool)

  datatype World = World(
    sts: Option<StatefulSet>,
    view: Option<View>,
    pods: map<Name, Pod>,
    claims: map<Name, Claim>,
    resources: map<(Kind, string), Resource>)

  function Replicas(sts: StatefulSet): Count { sts.replicas.GetOr(1) }

  function PolicyOf(sts: StatefulSet): Policy { sts.policy.GetOr(RETAIN_ALL) }

  function Snapshot(sts: StatefulSet): View {
    View(sts.uid, sts.generation, Replicas(sts), PolicyOf(sts), sts.claimLabel, sts.guardedTemplate, sts.key)
  }

  predicate Controlled(sg: Signer, sts: StatefulSet) { sts.controller == Some(sg.owner) }

  predicate IsSignerPod(sg: Signer, podName: Name, pod: Pod) {
    || (pod.app == "cosmosigner" && pod.instance == sg.name)
    || IsReplicaPodName(podName, sg.name)
  }

  ghost predicate NoSignerPods(sg: Signer, w: World) {
    forall p :: p in w.pods ==> !IsSignerPod(sg, p, w.pods[p])
  }

  predicate IsOwnedClaim(sg: Signer, c: Name, claim: Claim) {
    IsDataClaim(c, sg.name) && claim.ownerLabel == Some(sg.owner)
  }

  ghost predicate NoOwnedClaims(sg: Signer, w: World) {
    forall c :: c in w.claims ==> !IsOwnedClaim(sg, c, w.claims[c])
  }

  ghost predicate NoForeignClaims(sg: Signer, w: World) {
    forall c :: c in w.claims && IsDataClaim(c, sg.name) ==> w.claims[c].ownerLabel == Some(sg.owner)
  }

  /** The five conditions a retained raft-state claim must meet before a signer may use it again. */
  predicate IntactClaim(sg: Signer, w: World, ordinal: nat) {
    var c := ClaimName(sg.name, ordinal);
    && c in w.claims
    && w.claims[c].ownerLabel == Some(sg.owner)
    && !w.claims[c].terminating
    && w.claims[c].bound
    && w.claims[c].guarded
  }

  ghost predicate IntactClaims(sg: Signer, w: World, replicas: nat) {
    forall ordinal :: 0 <= ordinal < replicas ==> IntactClaim(sg, w, ordinal)
  }

  /** Something that happens without the operator asking for it at that moment. */
  datatype Event =
    | Observe                                   // the controller's cache catches up with the spec
    | Report(replicas: Count, updated: Count, ready: Count)
    | StartPod(ordinal: nat, claimUid: string)  // from the last observed spec, binding the claim by name
    | MarkPod(pod: Name)
    | EndPod(pod: Name)
    | Sign(pod: Name)                         // the pod writes slash-protection state under its key
    | BindClaim(claim: Name)
    | CollectScaled(ordinal: nat)               // garbage collection by the last observed whenScaled
    | CollectDeleted(claim: Name)             // garbage collection by the last observed whenDeleted
    | EndClaim(claim: Name)
    | EndForeignClaim(claim: Name)            // somebody removes a claim that is not the owner's
    | EndSet
    | Others(pods: map<Name, Pod>, claims: map<Name, Claim>, resources: map<(Kind, string), Resource>)

  /** The set the controller's view describes is gone or on its way out. */
  ghost predicate Orphaned(w: World)
    requires w.view.Some?
  {
    w.sts.None? || w.sts.value.uid != w.view.value.uid || w.sts.value.deleting
  }

  function StartedPod(sg: Signer, v: View, ordinal: nat): Pod {
    Pod("cosmosigner", sg.name, Some(v.uid), false, Some(ClaimName(sg.name, ordinal)), v.key)
  }

  function FreshClaim(v: View, uid: string): Claim {
    Claim(uid, v.claimLabel, v.guardedTemplate, false, false, {})
  }

  /** Pods and claims that are none of this signer's may change freely; its own may not. */
  ghost predicate OnlyOthersChange(sg: Signer, w: World, pods: map<Name, Pod>, claims: map<Name, Claim>) {
    && (forall p :: p in pods && IsSignerPod(sg, p, pods[p]) ==> p in w.pods && w.pods[p] == pods[p])
    && (forall p :: p in w.pods && IsSignerPod(sg, p, w.pods[p]) ==> p in pods && pods[p] == w.pods[p])
    && (forall p :: p in pods && pods[p].mount.Some? && IsDataClaim(pods[p].mount.value, sg.name) ==>
          p in w.pods && w.pods[p] == pods[p])
    && (forall c :: IsDataClaim(c, sg.name) ==> (c in claims <==> c in w.claims))
    && (forall c :: c in claims && IsDataClaim(c, sg.name) ==> claims[c] == w.claims[c])
  }

  ghost predicate Happens(sg: Signer, e: Event, w: World, w': World) {
    match e
    case Observe =>
      && w.sts.Some? && !w.sts.value.deleting
      && w' == w.(view := Some(Snapshot(w.sts.value)))
    case Report(replicas, updated, ready) =>
      && w.sts.Some? && w.view.Some? && w.view.value.uid == w.sts.value.uid
      && w' == w.(sts := Some(w.sts.value.(observed := w.view.value.generation, statusReplicas := replicas,
                                           updatedReplicas := updated, readyReplicas := ready)))
    case StartPod(ordinal, claimUid) =>
      && w.view.Some? && ordinal < w.view.value.replicas
      && PodName(sg.name, ordinal) !in w.pods
      && var c := ClaimName(sg.name, ordinal);
      && (c in w.claims ==> !w.claims[c].terminating)
      && w' == w.(pods := w.pods[PodName(sg.name, ordinal) := StartedPod(sg, w.view.value, ordinal)],
                  claims := if c in w.claims then w.claims
                            else w.claims[c := FreshClaim(w.view.value, claimUid)])
    case MarkPod(p) =>
      && p in w.pods
      && w' == w.(pods := w.pods[p := w.pods[p].(terminating := true)])
    case EndPod(p) =>
      && p in w.pods
      && w' == w.(pods := w.pods - {p})
    case Sign(p) =>
      && p in w.pods && w.pods[p].mount.Some?
      && var c := w.pods[p].mount.value;
      && c in w.claims
      && w' == w.(claims := w.claims[c := w.claims[c].(writers := w.claims[c].writers + {w.pods[p].key})])
    case BindClaim(c) =>
      && c in w.claims
      && w' == w.(claims := w.claims[c := w.claims[c].(bound := true)])
    case CollectScaled(ordinal) =>
      && w.view.Some? && w.view.value.policy.whenScaled == Delete && ordinal >= w.view.value.replicas
      && var c := ClaimName(sg.name, ordinal);
      && c in w.claims
      && w' == w.(claims := w.claims[c := w.claims[c].(terminating := true)])
    case CollectDeleted(c) =>
      && w.view.Some? && w.view.value.policy.whenDeleted == Delete && Orphaned(w)
      && c in w.claims && IsDataClaim(c, sg.name)
      && w' == w.(claims := w.claims[c := w.claims[c].(terminating := true)])
    case EndClaim(c) =>
      && c in w.claims && w.claims[c].terminating && !w.claims[c].guarded
      && w' == w.(claims := w.claims - {c})
    case EndForeignClaim(c) =>
      && c in w.claims && !IsOwnedClaim(sg, c, w.claims[c])
      && w' == w.(claims := w.claims - {c})
    case EndSet =>
      && w.sts.Some? && w.sts.value.deleting
      && w' == w.(sts := None)
    case Others(pods, claims, resources) =>
      && OnlyOthersChange(sg, w, pods, claims)
      && w' == w.(pods := pods, claims := claims, resources := resources)
  }

  /** What ties a set, its status and the controller's view together. */
  ghost predicate WellFormed(w: World) {
    && (w.sts.Some? ==>
          var s := w.sts.value;
          && 1 <= s.generation
          && (s.observed > 0 ==> w.view.Some? && w.view.value.uid == s.uid && s.observed <= w.view.value.generation))
    && (w.sts.Some? && w.view.Some? && w.view.value.uid == w.sts.value.uid ==>
          && 1 <= w.view.value.generation <= w.sts.value.generation
          && (w.view.value.generation == w.sts.value.generation ==> w.view.value == Snapshot(w.sts.value)))
  }

  /** The controller has no reason to start a pod now or after catching up. */
  ghost predicate Still(w: World) {
    && (w.view.Some? ==> w.view.value.replicas == 0)
    && (w.sts.Some? && !w.sts.value.deleting ==> Replicas(w.sts.value) == 0)
  }

  /** The controller has no reason to collect a claim now or after catching up. */
  ghost predicate Collectless(w: World) {
    && (w.view.Some? ==> w.view.value.policy.whenScaled == Retain)
    && (w.view.Some? && Orphaned(w) ==> w.view.value.policy.whenDeleted == Retain)
    && (w.sts.Some? && !w.sts.value.deleting ==> PolicyOf(w.sts.value).whenScaled == Retain)
  }

  /** Everything but status is unchanged, and the observed generation did not go back. */
  ghost predicate SameButStatus(s: StatefulSet, s': StatefulSet) {
    && s.observed <= s'.observed
    && s' == s.(observed := s'.observed, statusReplicas := s'.statusReplicas,
                updatedReplicas := s'.updatedReplicas, readyReplicas := s'.readyReplicas)
  }

  /** The claim survived with its identity and its guard. */
  ghost predicate SurvivingClaim(w: World, w': World, c: Name)
    requires c in w.claims
  {
    && c in w'.claims
    && w'.claims[c].uid == w.claims[c].uid
    && w'.claims[c].ownerLabel == w.claims[c].ownerLabel
    && w'.claims[c].guarded == w.claims[c].guarded
    && (w.claims[c].bound ==> w'.claims[c].bound)
    && !w'.claims[c].terminating
  }

  /** The operator's set changes only in status; the controller's view only catches up. */
  ghost predicate RelySet(w: World, w': World) {
    && (WellFormed(w) ==> WellFormed(w'))
    && (w.sts.None? ==> w'.sts.None?)
    && (w.sts.Some? ==>
          if w'.sts.Some? then SameButStatus(w.sts.value, w'.sts.value) else w.sts.value.deleting)
    && (w'.view == w.view ||
        (w.sts.Some? && !w.sts.value.deleting && w'.view == Some(Snapshot(w.sts.value))))
  }

  /** A still controller starts no pod. */
  ghost predicate RelyPods(sg: Signer, w: World, w': World) {
    Still(w) && NoSignerPods(sg, w) ==> NoSignerPods(sg, w')
  }

  /** A still controller creates no claim. */
  ghost predicate RelyNoNewClaims(sg: Signer, w: World, w': World) {
    Still(w) ==> forall c :: c in w'.claims && IsDataClaim(c, sg.name) ==>
      c in w.claims && w'.claims[c].uid == w.claims[c].uid && w'.claims[c].ownerLabel == w.claims[c].ownerLabel
  }

  /** Without a reason to collect, every live claim of the owner survives. */
  ghost predicate RelyClaimsSurvive(sg: Signer, w: World, w': World) {
    Collectless(w) ==> forall c :: c in w.claims && IsOwnedClaim(sg, c, w.claims[c]) && !w.claims[c].terminating ==>
      SurvivingClaim(w, w', c)
  }

  /** What the operator may rely on while it is not writing, however long that lasts. */
  ghost predicate Rely(sg: Signer, w: World, w': World) {
    && RelySet(w, w')
    && RelyPods(sg, w, w')
    && RelyNoNewClaims(sg, w, w')
    && RelyClaimsSurvive(sg, w, w')
  }

  lemma StillRelies(w: World, w': World)
    requires RelySet(w, w')
    ensures Still(w) ==> Still(w')
    ensures Collectless(w) ==> Collectless(w')
  {
  }

  lemma RelyTransitive(sg: Signer, w: World, m: World, w': World)
    requires Rely(sg, w, m) && Rely(sg, m, w')
    ensures Rely(sg, w, w')
  {
    StillRelies(w, m);
  }

  lemma EventKeepsSet(sg: Signer, e: Event, w: World, w': World)
    requires WellFormed(w) && Happens(sg, e, w, w')
    ensures RelySet(w, w')
  {
  }

  lemma EventKeepsPods(sg: Signer, e: Event, w: World, w': World)
    requires Happens(sg, e, w, w')
    ensures RelyPods(sg, w, w')
  {
  }

  lemma EventMakesNoClaims(sg: Signer, e: Event, w: World, w': World)
    requires Happens(sg, e, w, w')
    ensures RelyNoNewClaims(sg, w, w')
  {
  }

  lemma EventKeepsClaims(sg: Signer, e: Event, w: World, w': World)
    requires Happens(sg, e, w, w')
    ensures RelyClaimsSurvive(sg, w, w')
  {
  }

  /** Every event keeps the rely relation. */
  lemma EventRelies(sg: Signer, e: Event, w: World, w': World)
    requires WellFormed(w) && Happens(sg, e, w, w')
    ensures Rely(sg, w, w')
  {
    EventKeepsSet(sg, e, w, w');
    EventKeepsPods(sg, e, w, w');
    EventMakesNoClaims(sg, e, w, w');
    EventKeepsClaims(sg, e, w, w');
  }
}
