/**
The migration ends: calls that change something and a cluster that settles both use up one measure,
a call that neither finishes nor changes anything waits for an event that will come, and phases move
forward one at a time.
*/
module MigrationProgress {
  import opened Wrappers
  import opened Cluster
  import opened Protocol
  import opened Calls

  function Rank(phase: Phase): nat {
    match phase
    case Quiescing => 5
    case Deleting => 4
    case ResettingState => 3
    case Retargeting => 2
    case Recreating => 1
    case RollingOut => 0
  }

  function SignerPods(sg: Signer, w: World): set<Name> {
    set p | p in w.pods && IsSignerPod(sg, p, w.pods[p])
  }

  function OwnedClaims(sg: Signer, w: World): set<Name> {
    set c | c in w.claims && IsOwnedClaim(sg, c, w.claims[c])
  }

  /** The owner's claims that still have to be released or deleted. */
  function LiveClaims(sg: Signer, w: World): set<Name> {
    set c | c in w.claims && IsOwnedClaim(sg, c, w.claims[c]) && (w.claims[c].guarded || !w.claims[c].terminating)
  }

  /** How far the controller's reports lag behind the set. */
  function Lag(w: World): nat
    requires w.sts.Some?
  {
    if w.view != Some(Snapshot(w.sts.value)) then 2
    else if w.sts.value.observed < w.sts.value.generation || w.sts.value.statusReplicas != 0 then 1
    else 0
  }

  function SetWork(w: World): nat {
    match w.sts
    case None => 0
    case Some(s) =>
      (if s.deleting then 1 else 2)
      + (if s.policy != Some(RETAIN_ALL) then 3 else 0)
      + (if s.replicas != Some(0) then 3 else 0)
      + Lag(w)
  }

  /** Everything left to be done, by the operator or by the cluster. */
  function Work(plan: Plan, s: System): nat {
    Rank(s.phase) + SetWork(s.w) + |SignerPods(plan.sg, s.w)|
    + |OwnedClaims(plan.sg, s.w)| + |LiveClaims(plan.sg, s.w)|
  }

  /** An event that brings the cluster closer to what has been asked of it. */
  ghost predicate Settling(sg: Signer, e: Event, w: World) {
    match e
    case Observe => w.sts.Some? && w.view != Some(Snapshot(w.sts.value))
    case Report(replicas, _, _) => replicas == 0 && w.sts.Some? && Lag(w) == 1
    case EndPod(p) => p in w.pods && IsSignerPod(sg, p, w.pods[p])
    case EndClaim(c) => c in w.claims && IsOwnedClaim(sg, c, w.claims[c])
    case EndSet => true
    case _ => false
  }

  ghost predicate Settles(plan: Plan, s: System, s': System) {
    exists e :: Settling(plan.sg, e, s.w) && Happens(plan.sg, e, s.w, s'.w) && s' == s.(w := s'.w)
  }

  /** The state after one call whose answer is persisted. */
  function AfterCall(plan: Plan, s: System, instant: bool): System {
    var (r, w) := Migrated(plan, s.w, s.phase, instant);
    System(w, if r.Ok? then r.value.next else s.phase, s.created)
  }

  /** No foreign set holds the signer's name, and the owner's set has an identity. */
  ghost predicate Ours(sg: Signer, w: World) {
    && WellFormed(w)
    && (w.sts.Some? ==> Controlled(sg, w.sts.value) && w.sts.value.uid != "")
  }

  predicate Migrating(phase: Phase) {
    phase in {Quiescing, Deleting, ResettingState, Recreating}
  }

  /** A teardown call leaves the cluster as it was, or has done some of the set's work and nothing else. */
  ghost predicate Works(sg: Signer, w: World, w': World) {
    || w' == w
    || (w'.pods == w.pods && w'.claims == w.claims && Ours(sg, w') && SetWork(w') < SetWork(w))
  }

  /** Something about the set or its pods is still under way. */
  ghost predicate Busy(sg: Signer, w: World) {
    || (w.sts.Some? && (w.sts.value.deleting || Lag(w) > 0))
    || !PodsGone(sg, w)
  }

  lemma RetainingWorks(sg: Signer, w: World)
    requires Ours(sg, w)
    ensures var (a, w') := Retained(sg, w);
            && a.Ok? && Works(sg, w, w')
            && (a.value ==> w' == w)
            && (!a.value && w' == w ==> Busy(sg, w))
  {
  }

  lemma ScalingWorks(sg: Signer, w: World)
    requires Ours(sg, w)
    ensures var (a, w') := ScaledDown(sg, w);
            && a.Ok? && Works(sg, w, w')
            && (a.value ==> w' == w && PodsGone(sg, w))
            && (!a.value && w' == w ==> Busy(sg, w))
  {
  }

  lemma DeletingWorks(sg: Signer, w: World, instant: bool)
    requires Ours(sg, w)
    ensures var (a, w') := SetDeleted(sg, w, instant);
            && a.Ok? && Works(sg, w, w')
            && (a.value ==> w'.sts.None? && PodsGone(sg, w'))
            && (!a.value && w' == w ==> Busy(sg, w))
  {
    RetainingWorks(sg, w);
    ScalingWorks(sg, w);
  }

  /** Calls succeed, move one phase forward at most, and offer recreation only over no set and no pod. */
  lemma CallsSucceed(plan: Plan, s: System, instant: bool)
    requires Ours(plan.sg, s.w) && Migrating(s.phase)
    ensures var (r, w) := Migrated(plan, s.w, s.phase, instant);
            && r.Ok? && Ours(plan.sg, w) && Migrating(r.value.next)
            && (r.value.next == s.phase || (s.phase, r.value.next) in
                  {(Quiescing, Deleting), (Deleting, ResettingState), (ResettingState, Recreating)})
            && (r.value.ready ==> s.phase == Recreating && w.sts.None? && PodsGone(plan.sg, w))
  {
    RetainingWorks(plan.sg, s.w);
    ScalingWorks(plan.sg, s.w);
    DeletingWorks(plan.sg, s.w, instant);
  }

  lemma CallsOnSetsWork(plan: Plan, s: System, instant: bool)
    requires Ours(plan.sg, s.w) && Migrating(s.phase) && s.phase != ResettingState
    ensures AfterCall(plan, s, instant) == s || Work(plan, AfterCall(plan, s, instant)) < Work(plan, s)
  {
    var s' := AfterCall(plan, s, instant);
    assert Works(plan.sg, s.w, s'.w) by {
      RetainingWorks(plan.sg, s.w);
      ScalingWorks(plan.sg, s.w);
      DeletingWorks(plan.sg, s.w, instant);
    }
    assert Rank(s'.phase) <= Rank(s.phase) by {
      CallsSucceed(plan, s, instant);
    }
  }

  lemma SubsetCardinality(a: set<Name>, b: set<Name>)
    requires a <= b
    ensures |a| <= |b| && (a != b ==> |a| < |b|)
  {
    assert b == a + (b - a);
  }

  lemma ClaimCallsWork(plan: Plan, s: System, instant: bool)
    requires s.phase == ResettingState
    ensures AfterCall(plan, s, instant) == s || Work(plan, AfterCall(plan, s, instant)) < Work(plan, s)
  {
    var s' := AfterCall(plan, s, instant);
    if plan.reset {
      assert OwnedClaims(plan.sg, s'.w) == OwnedClaims(plan.sg, s.w);
      assert LiveClaims(plan.sg, s'.w) == {};
      SubsetCardinality({}, LiveClaims(plan.sg, s.w));
      if LiveClaims(plan.sg, s.w) == {} {
        assert s'.w.claims == s.w.claims by {
          forall c | c in s.w.claims
            ensures s'.w.claims[c] == s.w.claims[c]
          {
            assert c !in LiveClaims(plan.sg, s.w);
          }
        }
      }
    }
  }

  /** A call that changes anything uses up some of the work. */
  lemma CallsWork(plan: Plan, s: System, instant: bool)
    requires Ours(plan.sg, s.w) && Migrating(s.phase)
    ensures AfterCall(plan, s, instant) == s || Work(plan, AfterCall(plan, s, instant)) < Work(plan, s)
  {
    if s.phase == ResettingState {
      ClaimCallsWork(plan, s, instant);
    } else {
      CallsOnSetsWork(plan, s, instant);
    }
  }

  lemma PodEndWorks(plan: Plan, p: Name, s: System, s': System)
    requires p in s.w.pods && IsSignerPod(plan.sg, p, s.w.pods[p])
    requires s' == s.(w := s.w.(pods := s.w.pods - {p}))
    ensures Work(plan, s') < Work(plan, s)
  {
    assert SignerPods(plan.sg, s'.w) == SignerPods(plan.sg, s.w) - {p};
  }

  lemma ClaimEndWorks(plan: Plan, c: Name, s: System, s': System)
    requires c in s.w.claims && IsOwnedClaim(plan.sg, c, s.w.claims[c])
    requires s' == s.(w := s.w.(claims := s.w.claims - {c}))
    ensures Work(plan, s') < Work(plan, s)
  {
    assert OwnedClaims(plan.sg, s'.w) == OwnedClaims(plan.sg, s.w) - {c};
    assert LiveClaims(plan.sg, s'.w) <= LiveClaims(plan.sg, s.w);
    SubsetCardinality(LiveClaims(plan.sg, s'.w), LiveClaims(plan.sg, s.w));
  }

  lemma SetEventWorks(plan: Plan, e: Event, s: System, s': System)
    requires e.Observe? || e.Report? || e.EndSet?
    requires Settling(plan.sg, e, s.w) && Happens(plan.sg, e, s.w, s'.w) && s' == s.(w := s'.w)
    ensures Work(plan, s') < Work(plan, s)
  {
    assert s'.w.pods == s.w.pods && s'.w.claims == s.w.claims;
    assert SignerPods(plan.sg, s'.w) == SignerPods(plan.sg, s.w);
    assert OwnedClaims(plan.sg, s'.w) == OwnedClaims(plan.sg, s.w);
    assert LiveClaims(plan.sg, s'.w) == LiveClaims(plan.sg, s.w);
  }

  /** So does every settling event, and it makes no foreign set. */
  lemma SettlingWorks(plan: Plan, e: Event, s: System, s': System)
    requires Ours(plan.sg, s.w)
    requires Settling(plan.sg, e, s.w) && Happens(plan.sg, e, s.w, s'.w) && s' == s.(w := s'.w)
    ensures Work(plan, s') < Work(plan, s) && Ours(plan.sg, s'.w)
  {
    EventKeepsSet(plan.sg, e, s.w, s'.w);
    match e
    case EndPod(p) => PodEndWorks(plan, p, s, s');
    case EndClaim(c) => ClaimEndWorks(plan, c, s, s');
    case _ => SetEventWorks(plan, e, s, s');
  }

  /** What keeps the set busy comes to an end. */
  lemma BusyEnds(plan: Plan, s: System) returns (e: Event, s': System)
    requires Busy(plan.sg, s.w)
    ensures Settling(plan.sg, e, s.w) && Happens(plan.sg, e, s.w, s'.w) && s' == s.(w := s'.w)
  {
    var w := s.w;
    if !PodsGone(plan.sg, w) {
      var p :| p in w.pods && IsSignerPod(plan.sg, p, w.pods[p]);
      e, s' := EndPod(p), s.(w := w.(pods := w.pods - {p}));
    } else if w.sts.value.deleting {
      e, s' := EndSet, s.(w := w.(sts := None));
    } else if Lag(w) == 2 {
      e, s' := Observe, s.(w := w.(view := Some(Snapshot(w.sts.value))));
    } else {
      e := Report(0, 0, 0);
      s' := s.(w := w.(sts := Some(w.sts.value.(observed := w.view.value.generation, statusReplicas := 0,
                                                updatedReplicas := 0, readyReplicas := 0))));
    }
  }

  /** A call that changes nothing and does not offer recreation waits for an event that can come. */
  lemma WaitingEnds(plan: Plan, s: System, instant: bool) returns (e: Event, s': System)
    requires Ours(plan.sg, s.w) && Migrating(s.phase) && AfterCall(plan, s, instant) == s
    requires Migrated(plan, s.w, s.phase, instant).0 == Ok(Progress(false, s.phase))
    ensures Settling(plan.sg, e, s.w) && Happens(plan.sg, e, s.w, s'.w) && s' == s.(w := s'.w)
  {
    var w := s.w;
    if s.phase == ResettingState {
      assert !OwnedClaimsGone(plan.sg, w);
      var c :| c in w.claims && IsOwnedClaim(plan.sg, c, w.claims[c]);
      assert w.claims[c] == ClaimsDeleted(plan.sg, w).claims[c];
      e, s' := EndClaim(c), s.(w := w.(claims := w.claims - {c}));
    } else {
      assert Busy(plan.sg, w) by {
        RetainingWorks(plan.sg, w);
        ScalingWorks(plan.sg, w);
        DeletingWorks(plan.sg, w, instant);
      }
      e, s' := BusyEnds(plan, s);
    }
  }

  /** An event that has nothing to do with the work left. */
  predicate Neutral(e: Event) {
    e.Sign? || e.BindClaim? || e.MarkPod? || e.Others? || e.EndForeignClaim?
  }

  ghost predicate Idles(plan: Plan, s: System, s': System) {
    exists e :: Neutral(e) && Happens(plan.sg, e, s.w, s'.w) && s' == s.(w := s'.w)
  }

  lemma NeutralKeepsWork(plan: Plan, e: Event, s: System, s': System)
    requires Ours(plan.sg, s.w) && Neutral(e) && Happens(plan.sg, e, s.w, s'.w) && s' == s.(w := s'.w)
    ensures Work(plan, s') == Work(plan, s) && Ours(plan.sg, s'.w)
  {
    EventKeepsSet(plan.sg, e, s.w, s'.w);
    assert SignerPods(plan.sg, s'.w) == SignerPods(plan.sg, s.w);
    assert OwnedClaims(plan.sg, s'.w) == OwnedClaims(plan.sg, s.w);
    assert LiveClaims(plan.sg, s'.w) == LiveClaims(plan.sg, s.w);
  }

  /** A call changed something, or an event brought the cluster closer to what was asked of it. */
  ghost predicate Advances(plan: Plan, instant: bool, s: System, s': System) {
    || (AfterCall(plan, s, instant) != s && s' == AfterCall(plan, s, instant))
    || Settles(plan, s, s')
  }

  /** A history in which every step advances or, where it is not counted, is neutral. */
  ghost predicate Progressing(plan: Plan, instant: bool, tr: seq<System>, counted: seq<bool>) {
    && |tr| == |counted| + 1
    && forall i :: 0 <= i < |counted| ==>
        if counted[i] then Advances(plan, instant, tr[i], tr[i + 1]) else Idles(plan, tr[i], tr[i + 1])
  }

  function Count(counted: seq<bool>): nat {
    if counted == [] then 0
    else Count(counted[..|counted| - 1]) + if counted[|counted| - 1] then 1 else 0
  }

  lemma StepWorks(plan: Plan, instant: bool, s: System, s': System)
    requires Ours(plan.sg, s.w) && Migrating(s.phase)
    ensures Advances(plan, instant, s, s') ==> Work(plan, s') < Work(plan, s)
    ensures Idles(plan, s, s') ==> Work(plan, s') == Work(plan, s)
    ensures Advances(plan, instant, s, s') || Idles(plan, s, s') ==> Ours(plan.sg, s'.w) && Migrating(s'.phase)
  {
    if Idles(plan, s, s') {
      var e :| Neutral(e) && Happens(plan.sg, e, s.w, s'.w) && s' == s.(w := s'.w);
      NeutralKeepsWork(plan, e, s, s');
    }
    if Settles(plan, s, s') {
      var e :| Settling(plan.sg, e, s.w) && Happens(plan.sg, e, s.w, s'.w) && s' == s.(w := s'.w);
      SettlingWorks(plan, e, s, s');
    }
    if AfterCall(plan, s, instant) != s && s' == AfterCall(plan, s, instant) {
      CallsSucceed(plan, s, instant);
      CallsWork(plan, s, instant);
    }
  }

  /** No history has more advancing steps than the work it starts with. */
  lemma {:induction false} ProgressIsBounded(plan: Plan, instant: bool, tr: seq<System>, counted: seq<bool>)
    requires Progressing(plan, instant, tr, counted) && Ours(plan.sg, tr[0].w) && Migrating(tr[0].phase)
    ensures Count(counted) + Work(plan, tr[|tr| - 1]) <= Work(plan, tr[0])
    ensures Ours(plan.sg, tr[|tr| - 1].w) && Migrating(tr[|tr| - 1].phase)
    decreases |tr|
  {
    if counted != [] {
      var n := |counted| - 1;
      InitProgresses(plan, instant, tr, counted);
      ProgressIsBounded(plan, instant, tr[..n + 1], counted[..n]);
      StepWorks(plan, instant, tr[n], tr[n + 1]);
      assert if counted[n] then Advances(plan, instant, tr[n], tr[n + 1]) else Idles(plan, tr[n], tr[n + 1]);
    }
  }

  lemma InitProgresses(plan: Plan, instant: bool, tr: seq<System>, counted: seq<bool>)
    requires Progressing(plan, instant, tr, counted) && counted != []
    ensures Progressing(plan, instant, tr[..|counted|], counted[..|counted| - 1])
  {
    var tr', counted' := tr[..|counted|], counted[..|counted| - 1];
    forall i | 0 <= i < |counted'|
      ensures if counted'[i] then Advances(plan, instant, tr'[i], tr'[i + 1]) else Idles(plan, tr'[i], tr'[i + 1])
    {
      assert counted'[i] == counted[i] && tr'[i] == tr[i] && tr'[i + 1] == tr[i + 1];
    }
  }

  /** The call made in this state offers recreation. */
  predicate Ready(plan: Plan, s: System, instant: bool) {
    Migrated(plan, s.w, s.phase, instant).0 == Ok(Progress(true, Recreating))
  }

  /** A state that is not ready can be left by an advancing step: nothing waits for ever. */
  lemma NeverStuck(plan: Plan, instant: bool, s: System)
    requires Ours(plan.sg, s.w) && Migrating(s.phase) && !Ready(plan, s, instant)
    ensures exists s' :: Advances(plan, instant, s, s')
  {
    CallsSucceed(plan, s, instant);
    var next := AfterCall(plan, s, instant);
    if next == s {
      var e, s' := WaitingEnds(plan, s, instant);
      assert Settles(plan, s, s');
      assert Advances(plan, instant, s, s');
    } else {
      assert Advances(plan, instant, s, next);
    }
  }

  ghost predicate Final(plan: Plan, instant: bool, s: System) {
    forall s' :: !Advances(plan, instant, s, s')
  }

  /**
  Every history that cannot be advanced ends ready, with no more advancing steps than the work it
  started with, however many neutral events come between them.
  */
  lemma MaximalHistoriesEndReady(plan: Plan, instant: bool, tr: seq<System>, counted: seq<bool>)
    requires Progressing(plan, instant, tr, counted) && Ours(plan.sg, tr[0].w) && Migrating(tr[0].phase)
    requires Final(plan, instant, tr[|tr| - 1])
    ensures Ready(plan, tr[|tr| - 1], instant) && Count(counted) <= Work(plan, tr[0])
  {
    ProgressIsBounded(plan, instant, tr, counted);
    if !Ready(plan, tr[|tr| - 1], instant) {
      NeverStuck(plan, instant, tr[|tr| - 1]);
    }
  }

  /** From every state of a migration, advancing steps lead to readiness within the work left. */
  lemma {:induction false} ReadyFollows(plan: Plan, s: System, instant: bool) returns (tr: seq<System>)
    requires Ours(plan.sg, s.w) && Migrating(s.phase)
    ensures tr != [] && tr[0] == s && |tr| - 1 <= Work(plan, s) && Ready(plan, tr[|tr| - 1], instant)
    ensures forall i :: 0 <= i < |tr| - 1 ==> Advances(plan, instant, tr[i], tr[i + 1])
    decreases Work(plan, s)
  {
    if Ready(plan, s, instant) {
      tr := [s];
      return;
    }
    NeverStuck(plan, instant, s);
    var next :| Advances(plan, instant, s, next);
    StepWorks(plan, instant, s, next);
    var rest := ReadyFollows(plan, next, instant);
    tr := [s] + rest;
    forall i | 0 <= i < |tr| - 1 ensures Advances(plan, instant, tr[i], tr[i + 1]) {
      if i > 0 {
        assert tr[i] == rest[i - 1] && tr[i + 1] == rest[i - 1 + 1];
      }
    }
  }
}
