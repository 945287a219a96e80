/**
Each operator call as a function of the cluster it finds, when nothing else moves meanwhile and the
API server answers. Operator.dfy proves that the code computes these.
*/
module Calls {
  import opened Wrappers
  import SignerNames
  import opened Cluster
  import opened Protocol

  datatype Error = Foreign | UnsafeState | NoUid | BadPhase | PodNameTaken | NotHeadless | ApiFailure

  type Answer = Result<bool, Error>

  // ---- Teardown ----

  predicate PodsGone(sg: Signer, w: World) {
    forall p :: p in w.pods ==> !IsSignerPod(sg, p, w.pods[p])
  }

  function Retained(sg: Signer, w: World): (Answer, World) {
    if w.sts.None? then (Ok(true), w)
    else if !Controlled(sg, w.sts.value) then (Err(Foreign), w)
    else if w.sts.value.policy != Some(RETAIN_ALL) then (Ok(false), w.(sts := Some(RetainAll(w.sts.value))))
    else (Ok(w.sts.value.observed >= w.sts.value.generation), w)
  }

  function ScaledDown(sg: Signer, w: World): (Answer, World) {
    if w.sts.None? then (Ok(PodsGone(sg, w)), w)
    else if !Controlled(sg, w.sts.value) then (Ok(true), w)
    else if w.sts.value.replicas != Some(0) then (Ok(false), w.(sts := Some(ScaledToZero(w.sts.value))))
    else if w.sts.value.observed < w.sts.value.generation || w.sts.value.statusReplicas != 0 then (Ok(false), w)
    else (Ok(PodsGone(sg, w)), w)
  }

  function AfterDelete(w: World, instant: bool): World
    requires w.sts.Some?
  {
    w.(sts := if instant then None else Some(w.sts.value.(deleting := true)))
  }

  function SetDeleted(sg: Signer, w: World, instant: bool): (Answer, World) {
    var (retained, w1) := Retained(sg, w);
    if retained != Ok(true) then (retained, w1)
    else if w.sts.None? then (Ok(PodsGone(sg, w)), w)
    else
      var (quiesced, w2) := ScaledDown(sg, w);
      if quiesced != Ok(true) then (quiesced, w2)
      else if w.sts.value.uid == "" then (Err(NoUid), w)
      else (Ok(instant && PodsGone(sg, w)), AfterDelete(w, instant))
  }

  function ClaimsDeleted(sg: Signer, w: World): World {
    w.(claims := map c | c in w.claims ::
         if IsOwnedClaim(sg, c, w.claims[c]) then w.claims[c].(guarded := false, terminating := true)
         else w.claims[c])
  }

  predicate OwnedClaimsGone(sg: Signer, w: World) {
    forall c :: c in w.claims ==> !IsOwnedClaim(sg, c, w.claims[c])
  }

  /** What a reconcile of the migration answers: whether to recreate, and the phase to persist. */
  datatype Progress = Progress(ready: bool, next: Phase)

  function Proceed(answer: Answer, phase: Phase, done: Progress): Result<Progress, Error> {
    match answer
    case Err(e) => Err(e)
    case Ok(finished) => Ok(if finished then done else Progress(false, phase))
  }

  function Migrated(plan: Plan, w: World, phase: Phase, instant: bool): (Result<Progress, Error>, World) {
    match phase
    case Quiescing =>
      var (retained, w1) := Retained(plan.sg, w);
      if retained != Ok(true) then (Proceed(retained, phase, Progress(false, phase)), w1)
      else
        var (quiesced, w2) := ScaledDown(plan.sg, w);
        (Proceed(quiesced, phase, Progress(false, Deleting)), w2)
    case Deleting =>
      var (deleted, w1) := SetDeleted(plan.sg, w, instant);
      (Proceed(deleted, phase, Progress(false, ResettingState)), w1)
    case ResettingState =>
      if plan.reset then
        var w1 := ClaimsDeleted(plan.sg, w);
        (Ok(Progress(false, if OwnedClaimsGone(plan.sg, w1) then Recreating else phase)), w1)
      else (Ok(Progress(false, Recreating)), w)
    case Recreating =>
      var (gone, w1) := SetDeleted(plan.sg, w, instant);
      (Proceed(gone, phase, Progress(true, phase)), w1)
    case _ => (Err(BadPhase), w)
  }

  // ---- Deployment ----

  datatype Migration = Migration(phase: Phase, resetState: bool)

  /** RetainedStateRequired: only a different-key migration past the teardown may do without its claims. */
  predicate RetainedStateRequired(established: bool, migration: Option<Migration>) {
    if !established && migration.None? then false
    else if migration.None? || !migration.value.resetState then true
    else migration.value.phase !in {ResettingState, Retargeting, Recreating, RollingOut}
  }

  /** StatefulSetApplyGuard */
  function GuardFor(established: bool, migration: Option<Migration>, locked: Option<int>, desired: Count)
    : Result<Guard, Error>
  {
    if migration.Some? && migration.value.phase != RollingOut then Err(BadPhase)
    else if !RetainedStateRequired(established, migration) then Ok(Guard(false, desired))
    else if locked.None? || locked.value <= 0 || locked.value > 0x7fff_ffff then Err(UnsafeState)
    else Ok(Guard(true, locked.value))
  }

  predicate NoForeign(sg: Signer, w: World) {
    forall c :: c in w.claims ==> IsDataClaim(c, sg.name) ==> w.claims[c].ownerLabel == Some(sg.owner)
  }

  predicate AllIntact(sg: Signer, w: World, replicas: Count) {
    forall ordinal :: 0 <= ordinal < replicas ==> IntactClaim(sg, w, ordinal)
  }

  /** ensureStatefulSetPVCsForApply: true when the set may be written. */
  predicate SafeToApply(sg: Signer, w: World, desired: Count, guard: Guard) {
    var live := w.sts;
    && (live.Some? ==> !live.value.stateLost && (desired > Replicas(live.value) ==> live.value.guardedTemplate))
    && NoForeign(sg, w)
    && var g := if live.Some? then Raised(guard, live.value) else guard;
    && (g.required ==> g.replicas > 0 && AllIntact(sg, w, g.replicas))
  }

  /** quiesceUnsafeRetainedState: latch the set and stop it, unless both already hold. */
  function Stopped(w: World): World
    requires w.sts.Some?
  {
    if w.sts.value.stateLost && w.sts.value.replicas == Some(0) then w
    else w.(sts := Some(Latched(w.sts.value)))
  }

  predicate UpToDate(plan: Plan, s: StatefulSet) {
    s.replicas == Some(plan.desired) && s.policy == Some(RENDERED_POLICY) && s.key == plan.newKey
  }

  /** ApplyOwned of the rendered StatefulSet. */
  function SetApplied(plan: Plan, w: World, guard: Guard, uid: string): (Answer, World) {
    if w.sts.None? then
      if SafeToApply(plan.sg, w, plan.desired, guard) then (Ok(true), w.(sts := Some(Rendered(plan, uid))))
      else (Err(UnsafeState), w)
    else if !Controlled(plan.sg, w.sts.value) then (Err(Foreign), w)
    else if !SafeToApply(plan.sg, w, plan.desired, guard) then (Err(UnsafeState), Stopped(w))
    else if UpToDate(plan, w.sts.value) then (Ok(true), w)
    else (Ok(true), w.(sts := Some(Reapplied(plan, w.sts.value))))
  }

  /** ApplyOwned of any other rendered object; true unless another controller holds the name. */
  predicate ResourceAppliable(sg: Signer, w: World, kind: Kind, name: string) {
    (kind, name) in w.resources ==> w.resources[(kind, name)].controller == Some(sg.owner)
  }

  predicate HeadlessAppliable(sg: Signer, w: World, name: string) {
    (Service, name) in w.resources ==>
      w.resources[(Service, name)].controller == Some(sg.owner) && w.resources[(Service, name)].headless
  }

  predicate JobPodAppliable(sg: Signer, w: World, suffix: string) {
    var p := SignerNames.Plain(sg.name + "-" + suffix);
    p in w.pods ==> w.pods[p].controller == Some(sg.owner)
  }

  /** A replica's pod name is free, or held by the live set's own pod. */
  predicate PodNameAvailable(sg: Signer, w: World, ordinal: nat) {
    var p := PodName(sg.name, ordinal);
    p in w.pods ==> w.sts.Some? && w.pods[p].controller == Some(w.sts.value.uid)
  }

  predicate PodNamesAvailable(sg: Signer, w: World, replicas: Count) {
    forall ordinal :: 0 <= ordinal < replicas ==> PodNameAvailable(sg, w, ordinal)
  }

  /** Nothing the deployment creates besides the set is held by another owner or has the wrong shape. */
  function NamesDeployable(sg: Signer, w: World, importPod: bool, pubkeyPod: bool): Answer {
    if !ResourceAppliable(sg, w, ConfigMap, sg.name) || !ResourceAppliable(sg, w, NetworkPolicy, sg.name)
       || (pubkeyPod && !JobPodAppliable(sg, w, "pubkey")) || (importPod && !JobPodAppliable(sg, w, "import"))
       || !ResourceAppliable(sg, w, Service, sg.name)
    then Err(Foreign)
    else if !HeadlessAppliable(sg, w, sg.name) then Err(NotHeadless)
    else if !ResourceAppliable(sg, w, Service, sg.name + "-privval") then Err(Foreign)
    else if !HeadlessAppliable(sg, w, sg.name + "-privval") then Err(NotHeadless)
    else Ok(true)
  }

  /** PreflightDeployable */
  function Preflighted(sg: Signer, w: World, replicas: Count, importPod: bool, pubkeyPod: bool, required: bool)
    : (Answer, World)
  {
    var names := NamesDeployable(sg, w, importPod, pubkeyPod);
    if names != Ok(true) then (names, w)
    else if w.sts.Some? && !Controlled(sg, w.sts.value) then (Err(Foreign), w)
    else if !PodNamesAvailable(sg, w, replicas) then (Err(PodNameTaken), w)
    else ClaimsPreflighted(sg, w, replicas, required)
  }

  /** A latched set is spared the retained-state check, so that a different-key migration can proceed. */
  function ClaimsPreflighted(sg: Signer, w: World, replicas: Count, required: bool): (Answer, World) {
    var needed := if w.sts.None? then required
                  else if w.sts.value.stateLost then false
                  else EverRolledOut(w.sts.value) || required;
    if NoForeign(sg, w) && (needed ==> AllIntact(sg, w, replicas)) then (Ok(true), w)
    else (Err(UnsafeState), if w.sts.Some? then Stopped(w) else w)
  }

  /** MarkEverRolledOut */
  function MarkedRolledOut(w: World, desired: Count): (bool, World) {
    if w.sts.None? || !RolledOut(w.sts.value, desired) then (false, w)
    else if w.sts.value.everRolledOut then (true, w)
    else (true, w.(sts := Some(Marked(w.sts.value))))
  }
}
