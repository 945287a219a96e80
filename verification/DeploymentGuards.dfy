/** The latch on lost state, the evidence of a roll-out, and the agreement of preflight with apply. */
module DeploymentGuards {
  import opened Wrappers
  import opened Cluster
  import opened Protocol
  import opened Calls
  import opened MigrationRestarts
  import SignerNames

  /** A latched set is a stopped set. */
  ghost predicate LatchHolds(s: StatefulSet) {
    s.stateLost ==> s.replicas == Some(0)
  }

  /** Throughout the run there is one and the same set. */
  ghost predicate OneSet(r: Run, uid: string) {
    && r.last.w.sts.Some? && r.last.w.sts.value.uid == uid
    && (r.Then? ==> OneSet(r.before, uid))
  }

  lemma MoveKeepsLatch(plan: Plan, m: Move, s: System, s': System)
    requires Takes(plan, m, s, s') && s.w.sts.Some? && s'.w.sts.Some?
    requires LatchHolds(s.w.sts.value)
    ensures LatchHolds(s'.w.sts.value)
    ensures s.w.sts.value.stateLost ==> s'.w.sts.value.stateLost
    ensures s.w.sts.value.everRolledOut ==> s'.w.sts.value.everRolledOut
  {
    match m
    case Env(e) => match e { case _ => }
    case _ =>
  }

  /** Over every run on one set, the latch is absorbing and means zero replicas, and roll-out evidence is never lost. */
  lemma {:induction false} LatchIsAbsorbing(plan: Plan, r: Run, uid: string)
    requires Legal(plan, r) && OneSet(r, uid) && First(r).w.sts.Some? && LatchHolds(First(r).w.sts.value)
    ensures LatchHolds(r.last.w.sts.value)
    ensures First(r).w.sts.value.stateLost ==> r.last.w.sts.value.stateLost
    ensures First(r).w.sts.value.everRolledOut ==> r.last.w.sts.value.everRolledOut
  {
    if r.Then? {
      LatchIsAbsorbing(plan, r.before, uid);
      MoveKeepsLatch(plan, r.move, r.before.last, r.last);
    }
  }

  /** So every later write of the set happens unlatched and over the whole retained claim set. */
  lemma LaterApplyFindsClaims(plan: Plan, r: Run, uid: string)
    requires Legal(plan, r) && r.Then? && r.move.Reapply? && OneSet(r, uid)
    requires First(r).w.sts.Some? && LatchHolds(First(r).w.sts.value)
    ensures !First(r).w.sts.value.stateLost
    ensures First(r).w.sts.value.everRolledOut ==>
              var asked := if plan.reset then plan.desired else plan.locked;
              Whole(plan.sg, r.before.last.w, if asked > 0 then asked else Replicas(r.before.last.w.sts.value))
  {
    LatchIsAbsorbing(plan, r.before, uid);
    var n := Raised(plan.ApplyGuard(), r.before.last.w.sts.value).replicas;
    if IntactClaims(plan.sg, r.before.last.w, n) {
      ClaimChecksExact(plan.sg, r.before.last.w, n);
    }
  }

  /** Some state of the run has a set whose current generation is fully rolled out. */
  ghost predicate OnceRolledOut(r: Run) {
    || (r.last.w.sts.Some? && RolledOut(r.last.w.sts.value, r.last.w.sts.value.readyReplicas))
    || (r.Then? && OnceRolledOut(r.before))
  }

  /** The annotation is earned: a set that gets it in a run was rolled out in that run. */
  lemma {:induction false} EvidenceIsEarned(plan: Plan, r: Run, uid: string)
    requires Legal(plan, r) && OneSet(r, uid) && First(r).w.sts.Some? && !First(r).w.sts.value.everRolledOut
    ensures r.last.w.sts.value.everRolledOut ==> OnceRolledOut(r)
  {
    if r.Then? {
      EvidenceIsEarned(plan, r.before, uid);
      if !r.before.last.w.sts.value.everRolledOut && r.last.w.sts.value.everRolledOut {
        MoveEarnsEvidence(plan, r.move, r.before.last, r.last);
      }
    }
  }

  lemma MoveEarnsEvidence(plan: Plan, m: Move, s: System, s': System)
    requires Takes(plan, m, s, s') && s.w.sts.Some? && s'.w.sts.Some?
    requires !s.w.sts.value.everRolledOut && s'.w.sts.value.everRolledOut
    ensures RolledOut(s.w.sts.value, s.w.sts.value.readyReplicas)
  {
    match m
    case Env(e) => match e { case _ => }
    case _ =>
  }

  // ---- What the calls decide, in terms of the objects ----

  /** The claim of every ordinal below n is there, the owner's, guarded, bound and not terminating. */
  ghost predicate Whole(sg: Signer, w: World, n: nat) {
    forall i: nat :: i < n ==> WholeAt(sg, w, i)
  }

  predicate WholeAt(sg: Signer, w: World, i: nat) {
    var c := SignerNames.Child(sg.name, i);
    c in w.claims && w.claims[c] == Claim(w.claims[c].uid, Some(sg.owner), true, false, true, w.claims[c].writers)
  }

  /** No claim under the signer's names carries another owner's label, or none. */
  ghost predicate Unmixed(sg: Signer, w: World) {
    forall i: nat :: SignerNames.Child(sg.name, i) in w.claims ==>
      w.claims[SignerNames.Child(sg.name, i)].ownerLabel == Some(sg.owner)
  }

  /** Annotated as once rolled out, or fully rolled out at its current generation. */
  predicate HasRolledOut(s: StatefulSet) {
    var n := if s.replicas.Some? then s.replicas.value else 1;
    || s.everRolledOut
    || (n > 0 && s.observed == s.generation && s.updatedReplicas == n && s.readyReplicas == n)
  }

  lemma ClaimChecksExact(sg: Signer, w: World, n: Count)
    ensures AllIntact(sg, w, n) <==> Whole(sg, w, n)
    ensures NoForeign(sg, w) <==> Unmixed(sg, w)
  {
    forall i | 0 <= i < n ensures IntactClaim(sg, w, i) <==> WholeAt(sg, w, i) {
    }
    if Unmixed(sg, w) {
      forall c | c in w.claims && IsDataClaim(c, sg.name) ensures w.claims[c].ownerLabel == Some(sg.owner) {
        assert c == SignerNames.Child(sg.name, c.ordinal);
      }
    }
  }

  /** What an apply of the set needs of the claims: how many must be whole, if any. */
  function Needed(w: World, guard: Guard): Option<Count> {
    if w.sts.Some? && HasRolledOut(w.sts.value) then
      Some(if guard.replicas > 0 then guard.replicas
           else if w.sts.value.replicas.Some? then w.sts.value.replicas.value else 1)
    else if guard.required then Some(guard.replicas)
    else None
  }

  /** The set is absent, or the owner's, unlatched and not scaled up through an unguarded template. */
  predicate Writable(plan: Plan, w: World) {
    w.sts.Some? ==>
      var s := w.sts.value;
      && s.controller == Some(plan.sg.owner) && !s.stateLost
      && (s.guardedTemplate || plan.desired <= if s.replicas.Some? then s.replicas.value else 1)
  }

  /** An apply of the set succeeds exactly over a writable set, unmixed claims and as many whole ones as are needed. */
  lemma ApplyIsExact(plan: Plan, w: World, guard: Guard, uid: string)
    ensures SetApplied(plan, w, guard, uid).0 == Ok(true) <==>
            && Writable(plan, w) && Unmixed(plan.sg, w)
            && (var n := Needed(w, guard); n.Some? ==> n.value > 0 && Whole(plan.sg, w, n.value))
    ensures SetApplied(plan, w, guard, uid).0 == Err(Foreign) <==>
            w.sts.Some? && w.sts.value.controller != Some(plan.sg.owner)
    ensures SetApplied(plan, w, guard, uid).0 in {Ok(true), Err(Foreign), Err(UnsafeState)}
    ensures SetApplied(plan, w, guard, uid).0 == Err(Foreign) ==> SetApplied(plan, w, guard, uid).1 == w
  {
    ClaimChecksExact(plan.sg, w, 0);
    if Needed(w, guard).Some? {
      ClaimChecksExact(plan.sg, w, Needed(w, guard).value);
    }
  }

  /** After a successful apply the set is as rendered, its evidence is kept, and nothing else has changed. */
  lemma AppliedSetIsCurrent(plan: Plan, w: World, guard: Guard, uid: string)
    requires SetApplied(plan, w, guard, uid).0 == Ok(true)
    ensures var w' := SetApplied(plan, w, guard, uid).1;
            && w'.sts.Some? && w' == w.(sts := w'.sts)
            && (var s := w'.sts.value;
                && s.controller == Some(plan.sg.owner) && s.replicas == Some(plan.desired) && s.key == plan.newKey
                && s.policy == Some(Policy(Delete, Retain)) && !s.stateLost
                && (w.sts.None? ==>
                      s.uid == uid && s.claimLabel == Some(plan.sg.owner) && s.guardedTemplate && !s.everRolledOut)
                && (w.sts.Some? ==>
                      && s.uid == w.sts.value.uid && s.claimLabel == w.sts.value.claimLabel
                      && s.guardedTemplate == w.sts.value.guardedTemplate
                      && s.everRolledOut == w.sts.value.everRolledOut
                      && (s == w.sts.value || s.generation > w.sts.value.generation)))
  {
  }

  /** A successful apply of a set that has rolled out, even one that writes nothing, has seen every claim whole. */
  lemma SuccessfulApplyProvesClaims(plan: Plan, w: World, guard: Guard, uid: string)
    requires SetApplied(plan, w, guard, uid).0 == Ok(true) && w.sts.Some? && HasRolledOut(w.sts.value)
    ensures !w.sts.value.stateLost
    ensures var n := if guard.replicas == 0 then Replicas(w.sts.value) else guard.replicas;
            n > 0 && Whole(plan.sg, w, n)
  {
    ApplyIsExact(plan, w, guard, uid);
  }

  /** Every object the deployment creates besides the set is free or the owner's, and its Services are headless. */
  ghost predicate NamesFree(sg: Signer, w: World, importPod: bool, pubkeyPod: bool) {
    && ResourceFree(sg, w, ConfigMap, sg.name) && ResourceFree(sg, w, NetworkPolicy, sg.name)
    && ResourceFree(sg, w, Service, sg.name) && ResourceFree(sg, w, Service, sg.name + "-privval")
    && (importPod ==> PodFree(sg, w, sg.name + "-import"))
    && (pubkeyPod ==> PodFree(sg, w, sg.name + "-pubkey"))
  }

  predicate ResourceFree(sg: Signer, w: World, kind: Kind, name: string) {
    (kind, name) in w.resources ==>
      && w.resources[(kind, name)].controller == Some(sg.owner)
      && (kind == Service ==> w.resources[(kind, name)].headless)
  }

  predicate PodFree(sg: Signer, w: World, name: string) {
    SignerNames.Plain(name) in w.pods ==> w.pods[SignerNames.Plain(name)].controller == Some(sg.owner)
  }

  /** Every replica's pod name is free or held by a pod of the live set. */
  ghost predicate ReplicasFree(sg: Signer, w: World, replicas: nat) {
    forall i: nat :: i < replicas && SignerNames.Child(sg.name, i) in w.pods ==>
      w.sts.Some? && w.pods[SignerNames.Child(sg.name, i)].controller == Some(w.sts.value.uid)
  }

  /** Whether preflight asks for whole claims: not of a latched set, which a different-key migration may replace. */
  predicate PreflightNeeds(w: World, required: bool) {
    if w.sts.None? then required
    else !w.sts.value.stateLost && (required || HasRolledOut(w.sts.value))
  }

  ghost predicate PreflightClear(sg: Signer, w: World, replicas: nat, importPod: bool, pubkeyPod: bool) {
    && NamesFree(sg, w, importPod, pubkeyPod) && ReplicasFree(sg, w, replicas)
    && (w.sts.Some? ==> w.sts.value.controller == Some(sg.owner))
  }

  lemma NamesExact(sg: Signer, w: World, importPod: bool, pubkeyPod: bool)
    ensures NamesDeployable(sg, w, importPod, pubkeyPod) == Ok(true) <==> NamesFree(sg, w, importPod, pubkeyPod)
    ensures NamesDeployable(sg, w, importPod, pubkeyPod) in {Ok(true), Err(Foreign), Err(NotHeadless)}
  {
    assert sg.name + "-" + "import" == sg.name + "-import" && sg.name + "-" + "pubkey" == sg.name + "-pubkey";
  }

  lemma PodNamesExact(sg: Signer, w: World, replicas: Count)
    ensures PodNamesAvailable(sg, w, replicas) <==> ReplicasFree(sg, w, replicas)
  {
    if ReplicasFree(sg, w, replicas) {
      forall i | 0 <= i < replicas ensures PodNameAvailable(sg, w, i) {
      }
    }
    if PodNamesAvailable(sg, w, replicas) {
      forall i: nat | i < replicas && SignerNames.Child(sg.name, i) in w.pods
        ensures w.sts.Some? && w.pods[SignerNames.Child(sg.name, i)].controller == Some(w.sts.value.uid)
      {
        assert PodNameAvailable(sg, w, i);
      }
    }
  }

  /** Preflight accepts exactly when every name is free and the claims are unmixed and whole where needed. */
  lemma PreflightIsExact(sg: Signer, w: World, replicas: Count, importPod: bool, pubkeyPod: bool, required: bool)
    ensures var (answer, w') := Preflighted(sg, w, replicas, importPod, pubkeyPod, required);
            var clear := PreflightClear(sg, w, replicas, importPod, pubkeyPod);
            var safe := Unmixed(sg, w) && (PreflightNeeds(w, required) ==> Whole(sg, w, replicas));
            && (answer == Ok(true) <==> clear && safe)
            && (answer == Err(UnsafeState) <==> clear && !safe)
            && (answer != Err(UnsafeState) ==> w' == w)
  {
    NamesExact(sg, w, importPod, pubkeyPod);
    PodNamesExact(sg, w, replicas);
    ClaimChecksExact(sg, w, replicas);
  }

  /** What is left of a set that was found unsafe: latched and stopped, and nothing else changed. */
  ghost predicate StoppedForGood(plan: Plan, w: World, w': World) {
    && w.sts.Some? && w'.sts.Some? && w' == w.(sts := w'.sts)
    && w'.sts.value.stateLost && w'.sts.value.replicas == Some(0)
    && w'.sts.value == w.sts.value.(stateLost := true, replicas := Some(0), generation := w'.sts.value.generation)
    && w.sts.value.generation <= w'.sts.value.generation
    && forall guard, uid :: SetApplied(plan, w', guard, uid).0 == Err(UnsafeState)
  }

  /** A preflight that finds unsafe state stops an existing set for good, exactly as an apply does. */
  lemma UnsafePreflightStopsTheSet(plan: Plan, w: World, replicas: Count, importPod: bool, pubkeyPod: bool,
                                   required: bool)
    requires Preflighted(plan.sg, w, replicas, importPod, pubkeyPod, required).0 == Err(UnsafeState)
    ensures var w' := Preflighted(plan.sg, w, replicas, importPod, pubkeyPod, required).1;
            if w.sts.Some? then StoppedForGood(plan, w, w') else w' == w
  {
  }

  /** A mark is set exactly on a set whose current generation is rolled out, and changes nothing else. */
  lemma MarkIsExact(w: World, desired: Count)
    ensures var (marked, w') := MarkedRolledOut(w, desired);
            && (marked <==>
                  && w.sts.Some? && desired > 0 && w.sts.value.observed == w.sts.value.generation
                  && w.sts.value.updatedReplicas == desired && w.sts.value.readyReplicas == desired)
            && w' == if marked then w.(sts := Some(w.sts.value.(everRolledOut := true))) else w
  {
  }

  /** A set counts as rolled out by what the controller reports of the current generation, and of no other. */
  lemma RollOutIsReported(sg: Signer, w: World, w': World, e: Event, n: Count)
    requires WellFormed(w) && e.Report? && Happens(sg, e, w, w')
    ensures w'.sts.Some? && (RolledOut(w'.sts.value, n) <==>
              n > 0 && e.updated == n && e.ready == n && w.view == Some(Snapshot(w.sts.value)))
    ensures forall m, s' :: s' in {RetainAll(w'.sts.value), ScaledToZero(w'.sts.value)} ==> !RolledOut(s', m)
  {
  }

  /** A foreign set stops a migration and is left as it is; an import does not wait for it. */
  lemma ForeignSetIsUntouched(plan: Plan, w: World, phase: Phase, instant: bool)
    requires w.sts.Some? && w.sts.value.controller != Some(plan.sg.owner)
    ensures Retained(plan.sg, w) == (Err(Foreign), w)
    ensures ScaledDown(plan.sg, w) == (Ok(true), w)
    ensures SetDeleted(plan.sg, w, instant) == (Err(Foreign), w)
    ensures phase in {Quiescing, Deleting, Recreating} ==> Migrated(plan, w, phase, instant) == (Err(Foreign), w)
  {
  }

  /** Phases that are not the teardown's are refused. */
  lemma OtherPhasesAreRefused(plan: Plan, w: World, phase: Phase, instant: bool)
    ensures Migrated(plan, w, phase, instant) == (Err(BadPhase), w) <== phase in {Retargeting, RollingOut}
    ensures Migrated(plan, w, phase, instant).0 == Err(BadPhase) ==> phase in {Retargeting, RollingOut}
  {
  }

  // ---- Preflight and apply ----

  /** Everything one deployment applies, in one cluster state. */
  predicate EveryApplySucceeds(plan: Plan, w: World, guard: Guard, uid: string, importPod: bool, pubkeyPod: bool) {
    && ResourceAppliable(plan.sg, w, ConfigMap, plan.sg.name)
    && ResourceAppliable(plan.sg, w, NetworkPolicy, plan.sg.name)
    && ResourceAppliable(plan.sg, w, Service, plan.sg.name)
    && ResourceAppliable(plan.sg, w, Service, plan.sg.name + "-privval")
    && (importPod ==> JobPodAppliable(plan.sg, w, "import"))
    && (pubkeyPod ==> JobPodAppliable(plan.sg, w, "pubkey"))
    && SetApplied(plan, w, guard, uid).0 == Ok(true)
  }

  predicate IsLatched(w: World) { w.sts.Some? && w.sts.value.stateLost }

  /** The deployment asks for more replicas of a set whose claim template carries no guard. */
  predicate ScaledUpUnguarded(plan: Plan, w: World) {
    w.sts.Some? && plan.desired > Replicas(w.sts.value) && !w.sts.value.guardedTemplate
  }

  predicate Preflights(plan: Plan, w: World, guard: Guard, importPod: bool, pubkeyPod: bool) {
    Preflighted(plan.sg, w, guard.replicas, importPod, pubkeyPod, guard.required).0 == Ok(true)
  }

  /**
  In every state, preflight accepts an unlatched set that is not scaled up through an unguarded template
  exactly when every apply of the deployment would succeed there, the Services are headless and the pod
  names are free. Callers lock a positive number of replicas.
  */
  lemma PreflightAgreesWithApply(plan: Plan, w: World, guard: Guard, uid: string, importPod: bool, pubkeyPod: bool)
    requires guard.replicas > 0
    ensures Preflights(plan, w, guard, importPod, pubkeyPod) && !IsLatched(w) && !ScaledUpUnguarded(plan, w) <==>
            && EveryApplySucceeds(plan, w, guard, uid, importPod, pubkeyPod)
            && HeadlessAppliable(plan.sg, w, plan.sg.name)
            && HeadlessAppliable(plan.sg, w, plan.sg.name + "-privval")
            && PodNamesAvailable(plan.sg, w, guard.replicas)
  {
  }

  /** A cluster with nothing but the owner's set, of one replica and never rolled out. */
  function Lone(sg: Signer, latched: bool, guarded: bool): World {
    var replicas := if latched then 0 else 1;
    World(Some(StatefulSet("u", Some(sg.owner), 1, Some(replicas), Some(RENDERED_POLICY), Some(sg.owner),
                           guarded, false, latched, "k", false, 0, 0, 0, 0)), None, map[], map[], map[])
  }

  /** The first exception is real: preflight passes a latched set, which no apply accepts. */
  lemma LatchedSetPassesPreflightOnly(plan: Plan, guard: Guard, uid: string, importPod: bool, pubkeyPod: bool)
    ensures var w := Lone(plan.sg, true, true);
            && Preflights(plan, w, guard, importPod, pubkeyPod) && IsLatched(w) && !ScaledUpUnguarded(plan, w)
            && SetApplied(plan, w, guard, uid).0 == Err(UnsafeState)
  {
  }

  /** So is the second: preflight passes a scale-up through an unguarded template, which no apply accepts. */
  lemma UnguardedScaleUpPassesPreflightOnly(plan: Plan, replicas: Count, uid: string, importPod: bool, pubkeyPod: bool)
    requires plan.desired > 1
    ensures var w, guard := Lone(plan.sg, false, false), Guard(false, replicas);
            && Preflights(plan, w, guard, importPod, pubkeyPod) && !IsLatched(w) && ScaledUpUnguarded(plan, w)
            && SetApplied(plan, w, guard, uid).0 == Err(UnsafeState)
  {
  }

  /** So does an apply. */
  lemma UnsafeStateStopsTheSet(plan: Plan, w: World, guard: Guard, uid: string)
    requires SetApplied(plan, w, guard, uid).0 == Err(UnsafeState)
    ensures var w' := SetApplied(plan, w, guard, uid).1;
            if w.sts.Some? then StoppedForGood(plan, w, w') else w' == w
  {
  }

  // ---- The guard ----

  /** State is given up only by a migration that resets it, from where it comes to resetting it on. */
  lemma StateIsRequiredExactly(established: bool, migration: Option<Migration>, c: Course)
    ensures migration.None? ==> (RetainedStateRequired(established, migration) <==> established)
    ensures migration == Some(Migration(c.s.phase, c.plan.reset)) ==>
              (RetainedStateRequired(established, migration) <==> BeforeReset(c))
  {
    var p := c.s.phase;
    assert p.Quiescing? || p.Deleting? || p.ResettingState? || p.Retargeting? || p.Recreating? || p.RollingOut?;
  }

  /** Nothing but the roll-out of a migration lets a set be applied. */
  predicate MayApply(migration: Option<Migration>) {
    migration.Some? ==> migration.value.phase == RollingOut
  }

  /**
  The guard of an apply, for all arguments: an established signer, or one migrating without a reset, needs
  all its locked claims; a fresh signer, or one rolling out after a reset, needs none; without a usable
  lock, or in any other phase of a migration, there is no apply.
  */
  lemma GuardIsExact(established: bool, migration: Option<Migration>, locked: Option<int>, desired: Count)
    ensures var g := GuardFor(established, migration, locked, desired);
            var keeps := if migration.None? then established else !migration.value.resetState;
            && (forall n :: g == Ok(Guard(true, n)) <==>
                  MayApply(migration) && keeps && 0 < n <= 0x7fff_ffff && locked == Some(n))
            && (forall n :: g == Ok(Guard(false, n)) <==> MayApply(migration) && !keeps && n == desired)
  {
  }

  /** Every apply of an established signer proves its locked claims whole, whatever the set says of itself. */
  lemma SteadyApplyProvesClaims(plan: Plan, w: World, locked: Option<int>, uid: string)
    requires var g := GuardFor(true, None, locked, plan.desired);
             g.Ok? && SetApplied(plan, w, g.value, uid).0 == Ok(true)
    ensures locked.Some? && locked.value > 0 && Whole(plan.sg, w, locked.value)
  {
    GuardIsExact(true, None, locked, plan.desired);
    var g := GuardFor(true, None, locked, plan.desired).value;
    assert g == Guard(true, g.replicas) || g == Guard(false, g.replicas);
    ApplyIsExact(plan, w, g, uid);
  }

  /** The guard a rolling-out plan is applied with, from the persisted lock and migration record. */
  lemma PlanGuard(plan: Plan)
    requires plan.locked > 0
    ensures GuardFor(true, Some(Migration(RollingOut, plan.reset)), Some(plan.locked), plan.desired)
            == Ok(plan.ApplyGuard())
    ensures forall phase, locked, desired :: phase != RollingOut ==>
              GuardFor(true, Some(Migration(phase, plan.reset)), locked, desired).Err?
  {
  }
}
