/**
The break-before-make migration of one signer, as a transition system: the operator's guarded writes
interleaved with everything the cluster does on its own. Guards speak about the cluster at the very
moment of the write; Operator.dfy shows that the code, which checks earlier and in several calls,
only ever takes guarded writes.
*/
module Protocol {
  import opened Wrappers
  import opened Cluster

  datatype Phase = Quiescing | Deleting | ResettingState | Retargeting | Recreating | RollingOut

  /**
  A migration: the key the live signer signs with, the key to sign with, and the persisted decision
  whether raft state is reset on the way.
  */
  datatype Plan = Plan(sg: Signer, oldKey: string, newKey: string, reset: bool, locked: Count, desired: Count) {
    /** Raft state is reset exactly when the consensus key changes. */
    predicate Sound() { reset <==> oldKey != newKey }

    /** The state checks StatefulSetApplyGuard derives for this plan once it is rolling out. */
    function ApplyGuard(): Guard {
      if reset then Guard(false, desired) else Guard(true, locked)
    }
  }

  /** Whether retained claims must be intact, and how many of them. */
  datatype Guard = Guard(required: bool, replicas: Count)

  /** The guard a live set raises: a rolled-out set always needs its claims. */
  function Raised(g: Guard, live: StatefulSet): Guard {
    if EverRolledOut(live) then Guard(true, if g.replicas == 0 then Replicas(live) else g.replicas) else g
  }

  /** The cluster, the persisted phase, and whether the replacement set has been created. */
  datatype System = System(w: World, phase: Phase, created: bool)

  // ---- Writes ----

  function RetainAll(s: StatefulSet): StatefulSet {
    s.(policy := Some(RETAIN_ALL), generation := s.generation + 1)
  }

  function ScaledToZero(s: StatefulSet): StatefulSet {
    s.(replicas := Some(0), generation := s.generation + 1)
  }

  function Latched(s: StatefulSet): StatefulSet {
    s.(stateLost := true, replicas := Some(0),
       generation := if s.replicas == Some(0) then s.generation else s.generation + 1)
  }

  function Marked(s: StatefulSet): StatefulSet { s.(everRolledOut := true) }

  /** A rendered set as the API server stores it. */
  function Rendered(plan: Plan, uid: string): StatefulSet {
    StatefulSet(uid, Some(plan.sg.owner), 1, Some(plan.desired), Some(RENDERED_POLICY), Some(plan.sg.owner), true,
                false, false, plan.newKey, false, 0, 0, 0, 0)
  }

  /** The rendered set written over a live one: the claim template is immutable, evidence is carried over. */
  function Reapplied(plan: Plan, live: StatefulSet): StatefulSet {
    live.(replicas := Some(plan.desired), policy := Some(RENDERED_POLICY), key := plan.newKey, stateLost := false,
          generation := live.generation + 1)
  }

  // ---- What the guards say ----

  /** Retain/Retain is written, and the controller acts on it. */
  ghost predicate RetentionSeen(w: World) {
    && w.sts.Some? && w.view.Some?
    && w.view.value.uid == w.sts.value.uid
    && PolicyOf(w.sts.value) == RETAIN_ALL
    && w.view.value.policy == RETAIN_ALL
  }

  /** Zero replicas is written and acted on as well, and no pod of the signer is left. */
  ghost predicate Drained(sg: Signer, w: World) {
    && RetentionSeen(w)
    && Still(w)
    && NoSignerPods(sg, w)
  }

  ghost predicate Gone(sg: Signer, w: World) {
    w.sts.None? && NoSignerPods(sg, w)
  }

  ghost predicate MayAdvance(plan: Plan, phase: Phase, next: Phase, w: World) {
    match (phase, next)
    case (Quiescing, Deleting) => NoSignerPods(plan.sg, w) && (w.sts.Some? ==> Still(w))
    case (Deleting, ResettingState) => Gone(plan.sg, w)
    case (ResettingState, Retargeting) => plan.reset ==> NoOwnedClaims(plan.sg, w)
    case (ResettingState, Recreating) => plan.reset ==> NoOwnedClaims(plan.sg, w)
    case (Retargeting, Recreating) => true
    case (Recreating, RollingOut) => Gone(plan.sg, w)
    case _ => false
  }

  /** A replacement may be created only over no claims, or over the complete retained set. */
  ghost predicate MayCreate(plan: Plan, s: System, uid: string) {
    && s.phase == RollingOut && s.w.sts.None?
    && (s.w.view.Some? ==> s.w.view.value.uid != uid)
    && NoForeignClaims(plan.sg, s.w)
    && (!plan.reset ==> IntactClaims(plan.sg, s.w, plan.locked))
  }

  /** The live set counts as rolled out: annotated, or fully deployed at its current generation. */
  predicate EverRolledOut(s: StatefulSet) {
    s.everRolledOut || RolledOut(s, Replicas(s))
  }

  predicate RolledOut(s: StatefulSet, desired: Count) {
    desired > 0 && s.observed == s.generation && s.updatedReplicas == desired && s.readyReplicas == desired
  }

  datatype Move =
    | Env(event: Event)
    | WritePolicy
    | WriteScale
    | DeleteSet(instant: bool)
    | ReleaseClaim(claim: Name)
    | DeleteClaim(claim: Name)
    | Persist(next: Phase)
    | CreateSet(uid: string)
    | Reapply
    | Latch
    | Mark

  ghost predicate Takes(plan: Plan, m: Move, s: System, s': System) {
    var w := s.w;
    var owned := w.sts.Some? && Controlled(plan.sg, w.sts.value);
    match m
    case Env(e) => Happens(plan.sg, e, w, s'.w) && s' == s.(w := s'.w)
    case WritePolicy =>
      && owned && s' == s.(w := w.(sts := Some(RetainAll(w.sts.value))))
    case WriteScale =>
      && owned && s' == s.(w := w.(sts := Some(ScaledToZero(w.sts.value))))
    case DeleteSet(instant) =>
      && owned && s.phase != RollingOut && Drained(plan.sg, w)
      && s' == s.(w := w.(sts := if instant then None else Some(w.sts.value.(deleting := true))))
    case ReleaseClaim(c) =>
      && s.phase == ResettingState && plan.reset
      && c in w.claims && IsOwnedClaim(plan.sg, c, w.claims[c])
      && s' == s.(w := w.(claims := w.claims[c := w.claims[c].(guarded := false)]))
    case DeleteClaim(c) =>
      && s.phase == ResettingState && plan.reset
      && c in w.claims && IsOwnedClaim(plan.sg, c, w.claims[c])
      && s' == s.(w := w.(claims := w.claims[c := w.claims[c].(terminating := true)]))
    case Persist(next) =>
      && MayAdvance(plan, s.phase, next, w) && s' == s.(phase := next)
    case CreateSet(uid) =>
      && MayCreate(plan, s, uid)
      && s' == s.(w := w.(sts := Some(Rendered(plan, uid))), created := true)
    case Reapply =>
      && s.phase == RollingOut && owned && !w.sts.value.stateLost
      && (var g := Raised(plan.ApplyGuard(), w.sts.value); g.required ==> IntactClaims(plan.sg, w, g.replicas))
      && s' == s.(w := w.(sts := Some(Reapplied(plan, w.sts.value))))
    case Latch =>
      && owned
      && s' == s.(w := w.(sts := Some(Latched(w.sts.value))))
    case Mark =>
      && w.sts.Some? && RolledOut(w.sts.value, w.sts.value.readyReplicas)
      && s' == s.(w := w.(sts := Some(Marked(w.sts.value))))
  }

  // ---- Runs ----

  /** A finite history: a start and the moves taken since. */
  datatype Run = Start(last: System) | Then(before: Run, move: Move, last: System)

  function First(r: Run): System {
    match r
    case Start(s) => s
    case Then(before, _, _) => First(before)
  }

  ghost predicate Legal(plan: Plan, r: Run) {
    match r
    case Start(_) => true
    case Then(before, m, s) => Legal(plan, before) && Takes(plan, m, before.last, s)
  }

  // ---- The inductive invariant ----

  /** Every pod on one of the signer's claims is a signer pod running with this key. */
  ghost predicate MountsOnlyUnder(sg: Signer, w: World, key: string) {
    forall p :: p in w.pods && w.pods[p].mount.Some? && IsDataClaim(w.pods[p].mount.value, sg.name) ==>
      IsSignerPod(sg, p, w.pods[p]) && w.pods[p].key == key
  }

  /** The owner's claims hold signing state of no other key. */
  ghost predicate WrittenOnlyUnder(sg: Signer, w: World, key: string) {
    forall c :: c in w.claims && IsOwnedClaim(sg, c, w.claims[c]) ==> w.claims[c].writers <= {key}
  }

  /** The controller's view neither starts pods nor collects claims. */
  ghost predicate Released(w: World) {
    w.view.Some? ==> w.view.value.replicas == 0 && w.view.value.policy == RETAIN_ALL
  }

  function CurrentKey(plan: Plan, s: System): string {
    if s.created then plan.newKey else plan.oldKey
  }

  ghost predicate SetInvariant(plan: Plan, s: System) {
    var w := s.w;
    && WellFormed(w)
    && (w.sts.Some? ==>
          && Controlled(plan.sg, w.sts.value)
          && w.sts.value.claimLabel == Some(plan.sg.owner)
          && w.sts.value.key == CurrentKey(plan, s)
          && PolicyOf(w.sts.value).whenScaled == Retain)
    && (w.view.Some? ==>
          && w.view.value.policy.whenScaled == Retain
          && w.view.value.claimLabel == Some(plan.sg.owner))
    && (w.view.Some? && Orphaned(w) ==> Released(w))
    && (w.view.Some? && w.sts.Some? && w.view.value.uid == w.sts.value.uid ==> w.view.value.key == w.sts.value.key)
    && (s.phase in {ResettingState, Retargeting, Recreating, RollingOut} && !s.created ==> w.sts.None?)
    && (s.created ==> s.phase == RollingOut && w.sts.Some? && !w.sts.value.deleting)
  }

  ghost predicate PodInvariant(plan: Plan, s: System) {
    var w := s.w;
    && MountsOnlyUnder(plan.sg, w, CurrentKey(plan, s))
    && (w.sts.Some? && w.sts.value.deleting ==> NoSignerPods(plan.sg, w))
    && (s.phase in {ResettingState, Retargeting, Recreating, RollingOut} && !s.created ==> NoSignerPods(plan.sg, w))
    && (s.created && w.sts.Some? ==>
          forall p :: p in w.pods && IsSignerPod(plan.sg, p, w.pods[p]) ==>
            w.pods[p].controller == Some(w.sts.value.uid))
  }

  ghost predicate ClaimInvariant(plan: Plan, s: System) {
    var w := s.w;
    && (s.phase in {Retargeting, Recreating, RollingOut} && !s.created && plan.reset ==> NoOwnedClaims(plan.sg, w))
    && (s.created ==> NoForeignClaims(plan.sg, w))
  }

  /** What every state of every migration meets, whatever was decided about raft state. */
  ghost predicate Upheld(plan: Plan, s: System) {
    SetInvariant(plan, s) && PodInvariant(plan, s) && ClaimInvariant(plan, s)
  }

  /** All signing state is of the key the signer signs with. */
  ghost predicate Pure(plan: Plan, s: System) {
    WrittenOnlyUnder(plan.sg, s.w, CurrentKey(plan, s))
  }

  /**
  A signer of this owner, live under the old key, at the start of a migration. Another migration may
  have been under way: the set may be going or gone, and the controller may lag behind.
  */
  ghost predicate Established(plan: Plan, s: System) {
    s.phase == Quiescing && !s.created && Upheld(plan, s) && Pure(plan, s)
  }

  /** Every live claim the owner had at the start is still the same live, equally guarded claim. */
  ghost predicate Kept(sg: Signer, w0: World, w: World) {
    forall c :: c in w0.claims && IsOwnedClaim(sg, c, w0.claims[c]) && !w0.claims[c].terminating ==>
      SurvivingClaim(w0, w, c)
  }

  lemma NotOrphanedIsCollectless(plan: Plan, s: System)
    requires SetInvariant(plan, s)
    ensures Collectless(s.w)
    ensures s.w.sts.None? || s.w.sts.value.deleting ==> Still(s.w)
  {
  }

  /** A write of the set raises its generation or changes nothing the controller looks at. */
  lemma WriteKeepsWellFormed(plan: Plan, m: Move, s: System, s': System)
    requires WellFormed(s.w) && Takes(plan, m, s, s')
    requires m in {WritePolicy, WriteScale, Reapply, Latch, Mark}
    ensures WellFormed(s'.w)
  {
    var before, after := s.w.sts.value, s'.w.sts.value;
    assert after.uid == before.uid && after.observed == before.observed;
    assert after.generation > before.generation || Snapshot(after) == Snapshot(before);
  }

  lemma OwnMoveKeepsWellFormed(plan: Plan, m: Move, s: System, s': System)
    requires WellFormed(s.w) && Takes(plan, m, s, s') && !m.Env?
    ensures WellFormed(s'.w)
  {
    if m in {WritePolicy, WriteScale, Reapply, Latch, Mark} {
      WriteKeepsWellFormed(plan, m, s, s');
    }
  }

  lemma OwnMoveKeepsSet(plan: Plan, m: Move, s: System, s': System)
    requires SetInvariant(plan, s) && PodInvariant(plan, s) && Takes(plan, m, s, s') && !m.Env?
    ensures SetInvariant(plan, s')
  {
    OwnMoveKeepsWellFormed(plan, m, s, s');
    if m in {WritePolicy, WriteScale, Reapply, Latch, Mark} {
      WriteKeepsSet(plan, m, s, s');
    }
  }

  lemma WriteKeepsSet(plan: Plan, m: Move, s: System, s': System)
    requires SetInvariant(plan, s) && Takes(plan, m, s, s') && WellFormed(s'.w)
    requires m in {WritePolicy, WriteScale, Reapply, Latch, Mark}
    ensures SetInvariant(plan, s')
  {
  }

  lemma MoveKeepsSet(plan: Plan, m: Move, s: System, s': System)
    requires SetInvariant(plan, s) && PodInvariant(plan, s) && Takes(plan, m, s, s')
    ensures SetInvariant(plan, s')
  {
    match m
    case Env(e) => EventKeepsSet(plan.sg, e, s.w, s'.w);
    case _ => OwnMoveKeepsSet(plan, m, s, s');
  }

  lemma EventKeepsPodInvariant(plan: Plan, e: Event, s: System, s': System)
    requires SetInvariant(plan, s) && PodInvariant(plan, s) && Takes(plan, Env(e), s, s')
    ensures PodInvariant(plan, s')
  {
    NotOrphanedIsCollectless(plan, s);
    EventKeepsPods(plan.sg, e, s.w, s'.w);
  }

  lemma MoveKeepsPods(plan: Plan, m: Move, s: System, s': System)
    requires SetInvariant(plan, s) && PodInvariant(plan, s) && Takes(plan, m, s, s')
    ensures PodInvariant(plan, s')
  {
    match m
    case Env(e) => EventKeepsPodInvariant(plan, e, s, s');
    case _ =>
  }

  lemma EventKeepsClaimInvariant(plan: Plan, e: Event, s: System, s': System)
    requires Upheld(plan, s) && Takes(plan, Env(e), s, s')
    ensures ClaimInvariant(plan, s')
  {
    NotOrphanedIsCollectless(plan, s);
    EventMakesNoClaims(plan.sg, e, s.w, s'.w);
  }

  lemma MoveKeepsClaims(plan: Plan, m: Move, s: System, s': System)
    requires Upheld(plan, s) && Takes(plan, m, s, s')
    ensures ClaimInvariant(plan, s')
  {
    match m
    case Env(e) => EventKeepsClaimInvariant(plan, e, s, s');
    case _ =>
  }

  lemma MoveKeepsUpheld(plan: Plan, m: Move, s: System, s': System)
    requires Upheld(plan, s) && Takes(plan, m, s, s')
    ensures Upheld(plan, s')
  {
    MoveKeepsSet(plan, m, s, s');
    MoveKeepsPods(plan, m, s, s');
    MoveKeepsClaims(plan, m, s, s');
  }

  /** State kept across the move to another key would be foreign; otherwise it stays the signer's own. */
  lemma MoveKeepsPure(plan: Plan, m: Move, s: System, s': System)
    requires Upheld(plan, s) && Pure(plan, s) && Takes(plan, m, s, s') && (plan.reset || plan.oldKey == plan.newKey)
    ensures Pure(plan, s')
  {
    match m
    case Env(e) => EventKeepsPure(plan, e, s, s');
    case _ =>
  }

  lemma EventKeepsPure(plan: Plan, e: Event, s: System, s': System)
    requires Upheld(plan, s) && Pure(plan, s) && Takes(plan, Env(e), s, s')
    ensures Pure(plan, s')
  {
    match e
    case _ =>
  }

  lemma MoveKeepsKept(plan: Plan, m: Move, w0: World, s: System, s': System)
    requires SetInvariant(plan, s) && Kept(plan.sg, w0, s.w) && Takes(plan, m, s, s')
    requires !plan.reset || s.phase in {Quiescing, Deleting}
    ensures Kept(plan.sg, w0, s'.w)
  {
    match m
    case Env(e) =>
      NotOrphanedIsCollectless(plan, s);
      EventKeepsClaims(plan.sg, e, s.w, s'.w);
    case _ =>
  }

  /** Every state of every run, from any start that meets the invariant, meets it. */
  lemma {:induction false} RunKeepsInvariant(plan: Plan, r: Run)
    requires Legal(plan, r) && Upheld(plan, First(r))
    ensures Upheld(plan, r.last)
    ensures Pure(plan, First(r)) && (plan.reset || plan.oldKey == plan.newKey) ==> Pure(plan, r.last)
    ensures !plan.reset ==> Kept(plan.sg, First(r).w, r.last.w)
  {
    match r
    case Start(s) =>
    case Then(before, m, s) =>
      RunKeepsInvariant(plan, before);
      MoveKeepsUpheld(plan, m, before.last, s);
      if Pure(plan, First(r)) && (plan.reset || plan.oldKey == plan.newKey) {
        MoveKeepsPure(plan, m, before.last, s);
      }
      if !plan.reset {
        MoveKeepsKept(plan, m, First(r).w, before.last, s);
      }
  }

  /** The UIDs of the set and of what the controller sees. */
  function Uids(w: World): set<string> {
    (if w.sts.Some? then {w.sts.value.uid} else {}) + (if w.view.Some? then {w.view.value.uid} else {})
  }

  lemma MoveKeepsUids(plan: Plan, m: Move, s: System, s': System)
    requires Takes(plan, m, s, s') && !s'.created
    ensures Uids(s'.w) <= Uids(s.w) && !s.created
  {
    match m
    case Env(e) => match e { case _ => }
    case _ =>
  }

  /** Until the replacement is created, every set and view in a run is one the run started with. */
  lemma {:induction false} NoOtherSetBefore(plan: Plan, r: Run)
    requires Legal(plan, r) && !r.last.created
    ensures Uids(r.last.w) <= Uids(First(r).w)
  {
    match r
    case Start(s) =>
    case Then(before, m, s) =>
      MoveKeepsUids(plan, m, before.last, s);
      NoOtherSetBefore(plan, before);
  }
}
