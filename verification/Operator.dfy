/**
The operator's calls as it makes them: one API request after another, with the cluster moving before
each request, requests that fail, and writes whose answer is lost.
*/
module Operator {
  import opened Wrappers
  import SignerNames
  import opened Cluster
  import opened Protocol
  import opened Calls
  import opened MigrationRestarts

  /** The fate of one API request: answered, refused before taking effect, or applied but unanswered. */
  datatype Fault = Answered | Refused | Unanswered

  /** The cluster drifts by one event, or not at all. */
  ghost predicate Drifts(sg: Signer, w: World, w': World) {
    w' == w || exists e :: Happens(sg, e, w, w')
  }

  /** What an optimistic-concurrency update of the set writes. */
  function Written(plan: Plan, m: Move, read: StatefulSet): StatefulSet {
    match m
    case WritePolicy => RetainAll(read)
    case WriteScale => ScaledToZero(read)
    case Latch => Latched(read)
    case Mark => Marked(read)
    case Reapply => Reapplied(plan, read)
    case _ => read
  }

  lemma MoveKeepsWellFormed(plan: Plan, m: Move, s: System, s': System)
    requires WellFormed(s.w) && Takes(plan, m, s, s')
    ensures WellFormed(s'.w)
  {
    match m
    case Env(e) => EventKeepsSet(plan.sg, e, s.w, s'.w);
    case _ => OwnMoveKeepsWellFormed(plan, m, s, s');
  }

  /** The write will still be a legal move if the set is unchanged when the request arrives. */
  ghost predicate LegalLater(plan: Plan, phase: Phase, m: Move, read: StatefulSet, w: World, quiet: bool) {
    match m
    case WritePolicy => Controlled(plan.sg, read)
    case WriteScale => Controlled(plan.sg, read)
    case Latch => Controlled(plan.sg, read)
    case Mark => RolledOut(read, read.readyReplicas)
    case Reapply =>
      && phase == RollingOut && Controlled(plan.sg, read) && !read.stateLost
      && (var g := Raised(plan.ApplyGuard(), read);
          g.required ==> IntactClaims(plan.sg, w, g.replicas) && (quiet || Collectless(w)))
    case _ => false
  }

  lemma LegalWrite(plan: Plan, m: Move, read: StatefulSet, start: World, s: System, quiet: bool)
    requires Rely(plan.sg, start, s.w) && (quiet ==> s.w == start)
    requires LegalLater(plan, s.phase, m, read, start, quiet)
    requires s.w.sts == Some(read) && WellFormed(s.w)
    ensures var next := s.(w := s.w.(sts := Some(Written(plan, m, read))));
            Takes(plan, m, s, next) && WellFormed(next.w)
  {
    if m == Reapply {
      IntactClaimsRely(plan.sg, start, s.w, Raised(plan.ApplyGuard(), read));
    }
    MoveKeepsWellFormed(plan, m, s, s.(w := s.w.(sts := Some(Written(plan, m, read)))));
  }

  /** Checked claims stay intact while nothing has a reason to collect them. */
  lemma IntactClaimsRely(sg: Signer, w: World, w': World, g: Guard)
    requires Rely(sg, w, w')
    requires g.required ==> IntactClaims(sg, w, g.replicas) && (w == w' || Collectless(w))
    ensures g.required ==> IntactClaims(sg, w', g.replicas)
  {
    if g.required {
      forall ordinal | 0 <= ordinal < g.replicas
        ensures IntactClaim(sg, w', ordinal)
      {
        assert IntactClaim(sg, w, ordinal);
      }
    }
  }

  lemma SameClaimsIntact(sg: Signer, w: World, w': World, replicas: nat)
    requires IntactClaims(sg, w, replicas) && w'.claims == w.claims
    ensures IntactClaims(sg, w', replicas)
  {
    forall ordinal | 0 <= ordinal < replicas ensures IntactClaim(sg, w', ordinal) {
      assert IntactClaim(sg, w, ordinal);
    }
  }

  /** What was checked before a delete still holds when the delete arrives. */
  lemma DrainedRely(sg: Signer, w: World, w': World)
    requires Rely(sg, w, w') && Drained(sg, w)
    ensures w'.sts.Some? ==> Drained(sg, w')
  {
    StillRelies(w, w');
  }

  lemma SameRelies(sg: Signer, w: World)
    ensures Rely(sg, w, w)
  {
  }

  /** Retention once seen stays seen while the set is there. */
  lemma RetentionRelies(sg: Signer, w: World, w': World)
    requires Rely(sg, w, w')
    ensures RetentionSeen(w) && w'.sts.Some? ==> RetentionSeen(w')
    ensures w'.sts.Some? ==> w.sts.Some? && SameButStatus(w.sts.value, w'.sts.value)
  {
  }

  /** The scale is written over this cluster. */
  ghost predicate ScaleWritten(before: World, w: World) {
    before.sts.Some? && w == before.(sts := Some(ScaledToZero(before.sts.value)))
  }

  /** A set that is still there has the replica count it had. */
  ghost predicate KeepsScale(w: World, w': World) {
    w'.sts.Some? ==> w.sts.Some? && w'.sts.value.replicas == w.sts.value.replicas
  }

  /** One pass of the owning reconciler when nothing else moves. */
  function Passed(plan: Plan, s: System, instant: bool, retargets: bool, uid: string): System {
    match s.phase
    case RollingOut =>
      var guard := GuardFor(true, Some(Migration(s.phase, plan.reset)), Some(plan.locked), plan.desired);
      if guard.Err? then s
      else
        var (answer, w) := SetApplied(plan, s.w, guard.value, uid);
        System(w, s.phase, s.created || (s.w.sts.None? && answer == Ok(true)))
    case Retargeting => s.(phase := Recreating)
    case _ =>
      var (r, w) := Migrated(plan, s.w, s.phase, instant);
      if r.Err? then s.(w := w)
      else if r.value.ready then System(w, RollingOut, s.created)
      else
        var skips := retargets && s.phase == ResettingState && r.value.next == Recreating;
        System(w, if skips then Retargeting else r.value.next, s.created)
  }

  /** What may happen next to a signer: a pass, a change of the spec, or a look at the roll-out. */
  datatype Doing = Passes(uid: string) | Changes(newKey: string, desired: Count) | Looks

  /** A sequence of these when nothing else moves; the API server never hands out a UID twice. */
  function Done(c: Course, doings: seq<Doing>, instant: bool, retargets: bool): Course {
    if doings == [] then c
    else
      var before := Done(c, doings[..|doings| - 1], instant, retargets);
      match doings[|doings| - 1]
      case Passes(uid) =>
        if uid in Uids(before.s.w) then before
        else before.(s := Passed(before.plan, before.s, instant, retargets, uid))
      case Changes(newKey, desired) =>
        Course(before.applied, Superseding(before, newKey, desired), System(before.s.w, Quiescing, false))
      case Looks =>
        if !before.s.created then before
        else
          var (marked, w) := MarkedRolledOut(before.s.w, before.plan.desired);
          Course(if marked then before.plan.newKey else before.applied, before.plan, before.s.(w := w))
  }

  /** A list call's answer: the map's entries in some order. */
  ghost predicate Lists<V>(items: seq<(Name, V)>, m: map<Name, V>) {
    && Entries(items, m)
    && forall k :: k in m ==> exists i :: 0 <= i < |items| && items[i].0 == k
  }

  ghost predicate Entries<V>(items: seq<(Name, V)>, m: map<Name, V>) {
    && (forall i :: 0 <= i < |items| ==> items[i].0 in m && m[items[i].0] == items[i].1)
    && (forall i, j :: 0 <= i < j < |items| ==> items[i].0 != items[j].0)
  }

  /** The claims after the first n listed ones have been discarded where they are the owner's. */
  ghost function Discarded(sg: Signer, claims: map<Name, Claim>, items: seq<(Name, Claim)>, n: nat): map<Name, Claim>
    requires n <= |items|
  {
    if n == 0 then claims
    else
      var rest := Discarded(sg, claims, items, n - 1);
      var (c, read) := items[n - 1];
      if IsOwnedClaim(sg, c, read) then rest[c := read.(guarded := false, terminating := true)] else rest
  }

  lemma {:induction false} DiscardedAt(sg: Signer, claims: map<Name, Claim>, items: seq<(Name, Claim)>, n: nat, k: nat)
    requires Entries(items, claims) && n <= |items| && k < |items|
    ensures Discarded(sg, claims, items, n).Keys == claims.Keys
    ensures Discarded(sg, claims, items, n)[items[k].0] ==
            if k < n && IsOwnedClaim(sg, items[k].0, items[k].1)
            then items[k].1.(guarded := false, terminating := true) else items[k].1
  {
    if n > 0 {
      DiscardedAt(sg, claims, items, n - 1, k);
      DiscardedAt(sg, claims, items, n - 1, n - 1);
    }
  }

  lemma DiscardedAll(sg: Signer, w: World, items: seq<(Name, Claim)>)
    requires Lists(items, w.claims)
    ensures w.(claims := Discarded(sg, w.claims, items, |items|)) == ClaimsDeleted(sg, w)
  {
    var all := Discarded(sg, w.claims, items, |items|);
    if items != [] {
      DiscardedAt(sg, w.claims, items, |items|, 0);
    }
    forall c | c in w.claims
      ensures c in all && all[c] == ClaimsDeleted(sg, w).claims[c]
    {
      var k :| 0 <= k < |items| && items[k].0 == c;
      DiscardedAt(sg, w.claims, items, |items|, k);
    }
    assert items == [] ==> w.claims == map[];
    assert all == ClaimsDeleted(sg, w).claims;
  }

  /** Listed claims that are still there still belong to whom the list said. */
  ghost predicate Attributed(sg: Signer, items: seq<(Name, Claim)>, w: World) {
    forall k :: 0 <= k < |items| && items[k].0 in w.claims && IsDataClaim(items[k].0, sg.name) ==>
      w.claims[items[k].0].uid == items[k].1.uid && w.claims[items[k].0].ownerLabel == items[k].1.ownerLabel
  }

  method List<V>(m: map<Name, V>) returns (items: seq<(Name, V)>)
    ensures Lists(items, m)
  {
    items := [];
    var rest := m.Keys;
    while rest != {}
      invariant rest <= m.Keys
      invariant forall i :: 0 <= i < |items| ==>
                  items[i].0 in m && m[items[i].0] == items[i].1 && items[i].0 !in rest
      invariant forall k :: k in m && k !in rest ==> exists i :: 0 <= i < |items| && items[i].0 == k
      invariant forall i, j :: 0 <= i < j < |items| ==> items[i].0 != items[j].0
      decreases |rest|
    {
      var k :| k in rest;
      ghost var before := items;
      items := items + [(k, m[k])];
      rest := rest - {k};
      forall x | x in m && x !in rest
        ensures exists i :: 0 <= i < |items| && items[i].0 == x
      {
        if x == k {
          assert items[|before|].0 == x;
        } else {
          var i :| 0 <= i < |before| && before[i].0 == x;
          assert items[i].0 == x;
        }
      }
    }
  }

  class Operator {
    const instant: bool               // a deleted set disappears at once, or lingers while deleting
    const weather: (nat, World) -> World
    const gusts: nat -> nat           // how many events precede the request made at this time
    const faults: nat -> Fault
    const retargets: bool             // targets are switched over before the signer is recreated
    var clock: nat
    var w: World
    var plan: Plan                    // the migration under way
    var applied: string               // the public key last recorded as applied
    var phase: Phase
    var created: bool
    ghost var past: History           // up to where the running migration started or was recorded
    ghost var run: Run                // and since then

    ghost predicate Valid()
      reads this
    {
      && Legal(plan, run)
      && run.last == System(w, phase, created)
      && WellFormed(w)
      && forall t, x :: Drifts(plan.sg, x, weather(t, x))
    }

    /** The running migration continues a legal history. */
    ghost predicate Recalls()
      reads this
    {
      LegalHistory(past) && past.last == Course(applied, plan, First(run))
    }

    /** The whole history of migrations. */
    ghost function History(): History
      reads this
    {
      Along(past, run)
    }

    /** Nothing moves and nothing fails. */
    ghost predicate Quiet()
    {
      forall t :: gusts(t) == 0 && faults(t) == Answered
    }

    constructor (plan: Plan, applied: string, instant: bool, weather: (nat, World) -> World, gusts: nat -> nat,
                 faults: nat -> Fault, retargets: bool, w: World, phase: Phase, created: bool)
      requires WellFormed(w)
      requires forall t, x :: Drifts(plan.sg, x, weather(t, x))
      ensures Valid() && Recalls() && History() == Begins(Course(applied, plan, System(w, phase, created)))
      ensures this.instant == instant && this.w == w && this.phase == phase
    {
      this.plan := plan;
      this.applied := applied;
      this.instant := instant;
      this.weather := weather;
      this.gusts := gusts;
      this.faults := faults;
      this.retargets := retargets;
      this.clock := 0;
      this.w := w;
      this.phase := phase;
      this.created := created;
      this.past := Begins(Course(applied, plan, System(w, phase, created)));
      this.run := Start(System(w, phase, created));
    }

    // ---- API requests ----

    /** The cluster moves on, then one request meets its fate. */
    method Interfere() returns (fault: Fault)
      requires Valid()
      modifies this`w, this`run, this`clock
      ensures Valid() && First(run) == old(First(run))
      ensures Rely(plan.sg, old(w), w)
      ensures Quiet() ==> w == old(w) && fault == Answered
    {
      fault := faults(clock);
      var n := gusts(clock);
      var i := 0;
      while i < n
        invariant Valid() && First(run) == old(First(run))
        invariant Rely(plan.sg, old(w), w)
        invariant 0 <= i <= n
        invariant i == 0 ==> w == old(w)
      {
        var next := weather(clock, w);
        ghost var before := w;
        assert Drifts(plan.sg, w, next);
        if next != w {
          ghost var e :| Happens(plan.sg, e, w, next);
          EventRelies(plan.sg, e, w, next);
          RelyTransitive(plan.sg, old(w), w, next);
          run := Then(run, Env(e), System(next, phase, created));
        }
        w := next;
        clock := clock + 1;
        i := i + 1;
      }
      clock := clock + 1;
    }

    /** A write takes effect. */
    method Commit(ghost m: Move, next: World)
      requires Valid() && WellFormed(next)
      requires Takes(plan, m, System(w, phase, created), System(next, phase, created))
      modifies this`w, this`run
      ensures Valid() && First(run) == old(First(run)) && w == next
    {
      run := Then(run, m, System(next, phase, created));
      w := next;
    }

    method GetSet() returns (r: Result<Option<StatefulSet>, Error>)
      requires Valid()
      modifies this`w, this`run, this`clock
      ensures Valid() && First(run) == old(First(run))
      ensures Rely(plan.sg, old(w), w)
      ensures r.Ok? ==> r.value == w.sts
      ensures r.Err? ==> r.error == ApiFailure
      ensures Quiet() ==> r.Ok? && w == old(w)
    {
      var fault := Interfere();
      r := if fault == Answered then Ok(w.sts) else Err(ApiFailure);
    }

    method ListPods() returns (r: Result<seq<(Name, Pod)>, Error>)
      requires Valid()
      modifies this`w, this`run, this`clock
      ensures Valid() && First(run) == old(First(run))
      ensures Rely(plan.sg, old(w), w)
      ensures r.Ok? ==> Lists(r.value, w.pods)
      ensures r.Err? ==> r.error == ApiFailure
      ensures Quiet() ==> r.Ok? && w == old(w)
    {
      var fault := Interfere();
      var items := List(w.pods);
      r := if fault == Answered then Ok(items) else Err(ApiFailure);
    }

    method ListClaims() returns (r: Result<seq<(Name, Claim)>, Error>)
      requires Valid()
      modifies this`w, this`run, this`clock
      ensures Valid() && First(run) == old(First(run))
      ensures Rely(plan.sg, old(w), w)
      ensures r.Ok? ==> Lists(r.value, w.claims)
      ensures r.Err? ==> r.error == ApiFailure
      ensures Quiet() ==> r.Ok? && w == old(w)
    {
      var fault := Interfere();
      var items := List(w.claims);
      r := if fault == Answered then Ok(items) else Err(ApiFailure);
    }

    /** An update carrying the resource version that was read: it takes effect on that version only. */
    method UpdateSet(m: Move, read: StatefulSet) returns (ok: bool, ghost before: World)
      requires Valid() && LegalLater(plan, phase, m, read, w, Quiet())
      modifies this`w, this`run, this`clock
      ensures Valid() && First(run) == old(First(run))
      ensures Rely(plan.sg, old(w), before)
      ensures w == before || (before.sts == Some(read) && w == before.(sts := Some(Written(plan, m, read))))
      ensures ok ==> w.sts == Some(Written(plan, m, read))
      ensures Quiet() && old(w.sts) == Some(read) ==> ok && w == old(w).(sts := Some(Written(plan, m, read)))
    {
      ghost var start := w;
      var fault := Interfere();
      before := w;
      var current := w.sts == Some(read);
      if current && fault != Refused {
        var next := w.(sts := Some(Written(plan, m, read)));
        LegalWrite(plan, m, read, start, System(w, phase, created), Quiet());
        Commit(m, next);
      }
      ok := current && fault == Answered;
    }

    /** A delete carrying the UID that was read. */
    method DeleteSetByUid(read: StatefulSet) returns (ok: bool)
      requires Valid() && phase != RollingOut
      requires w.sts.Some? ==> w.sts.value.uid == read.uid && Controlled(plan.sg, w.sts.value) && Drained(plan.sg, w)
      modifies this`w, this`run, this`clock
      ensures Valid() && First(run) == old(First(run))
      ensures KeepsScale(old(w), w)
      ensures Quiet() ==> ok && w == if old(w.sts.Some?) then AfterDelete(old(w), instant) else old(w)
    {
      ghost var start := w;
      var fault := Interfere();
      if w.sts.Some? && w.sts.value.uid == read.uid && fault != Refused {
        var next := AfterDelete(w, instant);
        DrainedRely(plan.sg, start, w);
        MoveKeepsWellFormed(plan, DeleteSet(instant), System(w, phase, created), System(next, phase, created));
        Commit(DeleteSet(instant), next);
      }
      ok := fault == Answered;
    }

    // ---- Teardown ----

    /** SignerPodsGone: any pod with the signer's labels or a replica's name counts, terminating ones too. */
    method SignerPodsGone() returns (r: Answer)
      requires Valid()
      modifies this`w, this`run, this`clock
      ensures Valid() && First(run) == old(First(run))
      ensures Rely(plan.sg, old(w), w)
      ensures r == Ok(true) ==> NoSignerPods(plan.sg, w)
      ensures Quiet() ==> w == old(w) && r == Ok(PodsGone(plan.sg, w))
    {
      var pods := ListPods();
      if pods.Err? {
        return Err(pods.error);
      }
      var items := pods.value;
      for i := 0 to |items|
        invariant forall k :: 0 <= k < i ==> !IsSignerPod(plan.sg, items[k].0, items[k].1)
      {
        if IsSignerPod(plan.sg, items[i].0, items[i].1) {
          return Ok(false);
        }
      }
      return Ok(true);
    }

    /** retainStatefulSetPVCs */
    method RetainClaims() returns (r: Answer)
      requires Valid()
      modifies this`w, this`run, this`clock
      ensures Valid() && First(run) == old(First(run))
      ensures r == Ok(true) ==> w.sts.None? || (Controlled(plan.sg, w.sts.value) && RetentionSeen(w))
      ensures KeepsScale(old(w), w)
      ensures Quiet() ==> (r, w) == Retained(plan.sg, old(w))
    {
      var got := GetSet();
      if got.Err? {
        return Err(got.error);
      }
      if got.value.None? {
        return Ok(true);
      }
      var sts := got.value.value;
      if !Controlled(plan.sg, sts) {
        return Err(Foreign);
      }
      if sts.policy != Some(RETAIN_ALL) {
        var ok, _ := UpdateSet(WritePolicy, sts);
        return if ok then Ok(false) else Err(ApiFailure);
      }
      return Ok(sts.observed >= sts.generation);
    }

    /** ScaleDown; a migration calls it once retention has been seen, which it does not forget. */
    method ScaleDown() returns (r: Answer, ghost scaled: Option<World>)
      requires Valid()
      modifies this`w, this`run, this`clock
      ensures Valid() && First(run) == old(First(run))
      ensures old(w.sts.None?) ==> w.sts.None?
      ensures r == Ok(true) && w.sts.Some? && Controlled(plan.sg, w.sts.value) ==> Still(w)
      ensures r == Ok(true) && (w.sts.None? || Controlled(plan.sg, w.sts.value)) ==> NoSignerPods(plan.sg, w)
      ensures r == Ok(true) && w.sts.Some? ==> SameButStatus(old(w.sts).value, w.sts.value)
      ensures r == Ok(true) && w.sts.Some? && old(RetentionSeen(w)) ==> RetentionSeen(w)
      ensures scaled.None? ==> Rely(plan.sg, old(w), w)
      ensures scaled.Some? ==> r != Ok(true) && Rely(plan.sg, old(w), scaled.value) && ScaleWritten(scaled.value, w)
      ensures scaled.Some? && old(RetentionSeen(w)) ==> RetentionSeen(scaled.value)
      ensures Quiet() ==> (r, w) == ScaledDown(plan.sg, old(w))
    {
      scaled := None;
      ghost var start := w;
      var got := GetSet();
      if got.Err? {
        return Err(got.error), scaled;
      }
      ghost var seen := w;
      r, scaled := ScaleRead(got.value);
      ghost var end := if scaled.Some? then scaled.value else w;
      RelyTransitive(plan.sg, start, seen, end);
      RetentionRelies(plan.sg, start, end);
    }

    /** The rest of it, over the set as it was just read. */
    method ScaleRead(live: Option<StatefulSet>) returns (r: Answer, ghost scaled: Option<World>)
      requires Valid() && w.sts == live
      modifies this`w, this`run, this`clock
      ensures Valid() && First(run) == old(First(run))
      ensures r == Ok(true) && live.Some? && Controlled(plan.sg, live.value) ==> Still(w)
      ensures r == Ok(true) && (live.None? || Controlled(plan.sg, live.value)) ==> NoSignerPods(plan.sg, w)
      ensures r == Ok(true) && live.Some? && w.sts.None? ==> NoSignerPods(plan.sg, w)
      ensures scaled.None? ==> Rely(plan.sg, old(w), w)
      ensures scaled.Some? ==> r != Ok(true) && Rely(plan.sg, old(w), scaled.value) && ScaleWritten(scaled.value, w)
      ensures Quiet() ==> (r, w) == ScaledDown(plan.sg, old(w))
    {
      scaled := None;
      if live.None? {
        r := SignerPodsGone();
      } else if !Controlled(plan.sg, live.value) {
        SameRelies(plan.sg, w);
        r := Ok(true);
      } else if live.value.replicas != Some(0) {
        r, scaled := ScaleToZero(live.value);
      } else {
        r := ConfirmStopped(live.value);
      }
    }

    /** Zero replicas is written: wait until the controller has acted on it and no pod is left. */
    method ConfirmStopped(sts: StatefulSet) returns (r: Answer)
      requires Valid() && w.sts == Some(sts) && sts.replicas == Some(0)
      modifies this`w, this`run, this`clock
      ensures Valid() && First(run) == old(First(run)) && Rely(plan.sg, old(w), w)
      ensures r == Ok(true) ==> Still(w) && NoSignerPods(plan.sg, w)
      ensures Quiet() ==> w == old(w)
      ensures Quiet() ==> r == if sts.observed < sts.generation || sts.statusReplicas != 0 then Ok(false)
                               else Ok(PodsGone(plan.sg, w))
    {
      if sts.observed < sts.generation || sts.statusReplicas != 0 {
        StillRelies(w, w);
        return Ok(false);
      }
      ghost var seen := w;
      assert w.view == Some(Snapshot(sts)) && Still(w);
      r := SignerPodsGone();
      StillRelies(seen, w);
    }

    /** The scale write itself; the answer is never that all is done. */
    method ScaleToZero(sts: StatefulSet) returns (r: Answer, ghost scaled: Option<World>)
      requires Valid() && w.sts == Some(sts) && Controlled(plan.sg, sts)
      modifies this`w, this`run, this`clock
      ensures Valid() && First(run) == old(First(run)) && r != Ok(true)
      ensures scaled.None? ==> Rely(plan.sg, old(w), w)
      ensures scaled.Some? ==> Rely(plan.sg, old(w), scaled.value) && ScaleWritten(scaled.value, w)
      ensures Quiet() ==> r == Ok(false) && w == old(w).(sts := Some(ScaledToZero(sts)))
    {
      var ok;
      ghost var before;
      ok, before := UpdateSet(WriteScale, sts);
      scaled := if w == before then None else Some(before);
      r := if ok then Ok(false) else Err(ApiFailure);
    }

    /** DeleteStatefulSet */
    method DeleteStatefulSet() returns (r: Answer, ghost scaled: Option<World>)
      requires Valid() && phase != RollingOut
      modifies this`w, this`run, this`clock
      ensures Valid() && First(run) == old(First(run))
      ensures r == Ok(true) ==> Gone(plan.sg, w)
      ensures scaled.Some? ==> RetentionSeen(scaled.value) && ScaleWritten(scaled.value, w)
      ensures scaled.None? ==> KeepsScale(old(w), w)
      ensures Quiet() ==> (r, w) == SetDeleted(plan.sg, old(w), instant)
    {
      scaled := None;
      var retained := RetainClaims();
      if retained != Ok(true) {
        return retained, scaled;
      }
      var got := GetSet();
      if got.Err? {
        return Err(got.error), scaled;
      }
      if got.value.None? {
        r := SignerPodsGone();
        return;
      }
      var sts := got.value.value;
      if !Controlled(plan.sg, sts) {
        return Err(Foreign), scaled;
      }
      var quiesced;
      quiesced, scaled := ScaleDown();
      if quiesced != Ok(true) {
        return quiesced, scaled;
      }
      r := DeleteAndConfirm(sts);
    }

    /** Deletes the drained set by its UID and looks whether anything is left. */
    method DeleteAndConfirm(sts: StatefulSet) returns (r: Answer)
      requires Valid() && phase != RollingOut
      requires w.sts.Some? ==> w.sts.value.uid == sts.uid && Controlled(plan.sg, w.sts.value) && Drained(plan.sg, w)
      modifies this`w, this`run, this`clock
      ensures Valid() && First(run) == old(First(run))
      ensures r == Ok(true) ==> Gone(plan.sg, w)
      ensures KeepsScale(old(w), w)
      ensures Quiet() ==>
                var next := if old(w.sts.Some?) then AfterDelete(old(w), instant) else old(w);
                if sts.uid == "" then r == Err(NoUid) && w == old(w)
                else w == next && r == if next.sts.Some? then Ok(false) else Ok(PodsGone(plan.sg, next))
    {
      if sts.uid == "" {
        return Err(NoUid);
      }
      var ok := DeleteSetByUid(sts);
      if !ok {
        return Err(ApiFailure);
      }
      var got := GetSet();
      if got.Err? {
        return Err(got.error);
      }
      if got.value.Some? {
        return Ok(false);
      }
      r := SignerPodsGone();
    }

    /** An update that drops a claim's guard, on the version that was read; None when the claim is gone. */
    method ReleaseClaim(c: Name, read: Claim) returns (ok: Option<bool>)
      requires Valid() && phase == ResettingState && plan.reset && IsOwnedClaim(plan.sg, c, read)
      requires Quiet() || Still(w)
      modifies this`w, this`run, this`clock
      ensures Valid() && First(run) == old(First(run)) && (Quiet() || Still(w))
      ensures KeepsScale(old(w), w)
      ensures old(w.sts.None?) ==> w.sts.None?
      ensures LabelsKept(old(w), w)
      ensures Quiet() && c in old(w.claims) && old(w.claims[c]) == read ==>
                ok == Some(true) && w == old(w).(claims := old(w.claims)[c := read.(guarded := false)])
    {
      ghost var start := w;
      var fault := Interfere();
      StillRelies(start, w);
      if c !in w.claims {
        return if fault == Answered then None else Some(false);
      }
      var current := w.claims[c] == read;
      if current && fault != Refused {
        var next := w.(claims := w.claims[c := read.(guarded := false)]);
        Commit(Move.ReleaseClaim(c), next);
      }
      return Some(current && fault == Answered);
    }

    /** A claim delete carrying the UID that was read; a claim already gone is no error, another one is. */
    method DeleteClaim(c: Name, uid: string) returns (ok: bool)
      requires Valid() && phase == ResettingState && plan.reset
      requires Quiet() || Still(w)
      requires IsDataClaim(c, plan.sg.name)
      requires c in w.claims && w.claims[c].uid == uid ==> w.claims[c].ownerLabel == Some(plan.sg.owner)
      modifies this`w, this`run, this`clock
      ensures Valid() && First(run) == old(First(run)) && (Quiet() || Still(w))
      ensures KeepsScale(old(w), w)
      ensures old(w.sts.None?) ==> w.sts.None?
      ensures LabelsKept(old(w), w)
      ensures ok && c in w.claims ==> w.claims[c].uid == uid && w.claims[c].terminating
      ensures Quiet() && c in old(w.claims) && old(w.claims[c]).uid == uid ==>
                ok && w == old(w).(claims := old(w.claims)[c := old(w.claims[c]).(terminating := true)])
      ensures Quiet() && c in old(w.claims) && old(w.claims[c]).uid != uid ==> !ok && w == old(w)
    {
      ghost var start := w;
      var fault := Interfere();
      StillRelies(start, w);
      var conflict := c in w.claims && w.claims[c].uid != uid;
      if c in w.claims && !conflict && fault != Refused {
        var next := w.(claims := w.claims[c := w.claims[c].(terminating := true)]);
        Commit(Move.DeleteClaim(c), next);
      }
      return fault == Answered && !conflict;
    }

    /** No claim of the signer appeared or changed hands. */
    ghost predicate LabelsKept(x: World, x': World)
      reads this`plan
    {
      forall c :: c in x'.claims && IsDataClaim(c, plan.sg.name) ==>
        c in x.claims && x'.claims[c].uid == x.claims[c].uid && x'.claims[c].ownerLabel == x.claims[c].ownerLabel
    }

    /** Drop the guard of one listed claim, then delete it by UID. */
    method DiscardClaim(c: Name, read: Claim) returns (ok: bool)
      requires Valid() && phase == ResettingState && plan.reset && IsOwnedClaim(plan.sg, c, read)
      requires Quiet() || Still(w)
      requires c in w.claims && w.claims[c].uid == read.uid ==> w.claims[c].ownerLabel == Some(plan.sg.owner)
      modifies this`w, this`run, this`clock
      ensures Valid() && First(run) == old(First(run)) && (Quiet() || Still(w))
      ensures KeepsScale(old(w), w)
      ensures old(w.sts.None?) ==> w.sts.None?
      ensures LabelsKept(old(w), w)
      ensures Quiet() && c in old(w.claims) && old(w.claims[c]) == read ==>
                ok && w == old(w).(claims := old(w.claims)[c := read.(guarded := false, terminating := true)])
    {
      if read.guarded {
        var released := ReleaseClaim(c, read);
        if released != Some(true) {
          return released.None?;
        }
      }
      if read.terminating {
        return true;
      }
      ok := DeleteClaim(c, read.uid);
    }

    /** One turn of the loop over the listed claims. */
    method DiscardListed(items: seq<(Name, Claim)>, i: nat, ghost start: World) returns (ok: bool)
      requires Valid() && phase == ResettingState && plan.reset && i < |items|
      requires Quiet() || Still(w)
      requires Attributed(plan.sg, items, w) && Entries(items, start.claims)
      requires Quiet() ==> w == start.(claims := Discarded(plan.sg, start.claims, items, i))
      modifies this`w, this`run, this`clock
      ensures Valid() && First(run) == old(First(run)) && (Quiet() || Still(w))
      ensures KeepsScale(old(w), w)
      ensures old(w.sts.None?) ==> w.sts.None?
      ensures Attributed(plan.sg, items, w)
      ensures Quiet() ==> ok && w == start.(claims := Discarded(plan.sg, start.claims, items, i + 1))
    {
      var (c, read) := items[i];
      if Quiet() {
        DiscardedAt(plan.sg, start.claims, items, i, i);
      }
      ok := true;
      if IsOwnedClaim(plan.sg, c, read) {
        ok := DiscardClaim(c, read);
      }
    }

    /** DeletePVCs: every listed claim that is the owner's, and no other. */
    method DeletePVCs() returns (r: Answer)
      requires Valid() && phase == ResettingState && plan.reset
      requires Quiet() || Still(w)
      modifies this`w, this`run, this`clock
      ensures Valid() && First(run) == old(First(run)) && (Quiet() || Still(w))
      ensures KeepsScale(old(w), w)
      ensures old(w.sts.None?) ==> w.sts.None?
      ensures Quiet() ==> r == Ok(true) && w == ClaimsDeleted(plan.sg, old(w))
    {
      ghost var before := w;
      var listed := ListClaims();
      StillRelies(before, w);
      if listed.Err? {
        return Err(listed.error);
      }
      var items := listed.value;
      ghost var start := w;
      for i := 0 to |items|
        invariant Valid() && First(run) == old(First(run)) && (Quiet() || Still(w))
        invariant KeepsScale(old(w), w) && (old(w.sts.None?) ==> w.sts.None?)
        invariant Attributed(plan.sg, items, w)
        invariant Quiet() ==> w == start.(claims := Discarded(plan.sg, start.claims, items, i))
      {
        var ok := DiscardListed(items, i, start);
        if !ok {
          return Err(ApiFailure);
        }
      }
      if Quiet() {
        DiscardedAll(plan.sg, start, items);
      }
      return Ok(true);
    }

    /** OwnedPVCsGone: a claim still terminating under a finalizer counts as present. */
    method OwnedPVCsGone() returns (r: Answer)
      requires Valid()
      modifies this`w, this`run, this`clock
      ensures Valid() && First(run) == old(First(run))
      ensures Rely(plan.sg, old(w), w)
      ensures r == Ok(true) ==> NoOwnedClaims(plan.sg, w)
      ensures Quiet() ==> w == old(w) && r == Ok(OwnedClaimsGone(plan.sg, w))
    {
      var listed := ListClaims();
      if listed.Err? {
        return Err(listed.error);
      }
      var items := listed.value;
      for i := 0 to |items|
        invariant forall k :: 0 <= k < i ==> !IsOwnedClaim(plan.sg, items[k].0, items[k].1)
      {
        if IsOwnedClaim(plan.sg, items[i].0, items[i].1) {
          return Ok(false);
        }
      }
      return Ok(true);
    }

    /**
    ReconcileStatefulSetMigration: one pass of the persisted phase. Recreation is offered only over a
    cluster with neither set nor pod, and a phase only when the cluster meets what that phase needs.
    */
    method Reconcile() returns (r: Result<Progress, Error>, ghost scaled: Option<World>)
      requires Valid()
      requires Quiet() || (phase == ResettingState ==> Still(w))
      modifies this`w, this`run, this`clock
      ensures Valid() && First(run) == old(First(run))
      ensures r.Ok? && r.value.ready ==> phase == Recreating && Gone(plan.sg, w)
      ensures r.Ok? && r.value.next != phase ==> MayAdvance(plan, phase, r.value.next, w)
      ensures scaled.Some? ==> RetentionSeen(scaled.value) && ScaleWritten(scaled.value, w)
      ensures scaled.None? ==> KeepsScale(old(w), w)
      ensures Quiet() ==> (r, w) == Migrated(plan, old(w), phase, instant)
    {
      scaled := None;
      match phase
      case Quiescing =>
        var retained := RetainClaims();
        if retained != Ok(true) {
          return Proceed(retained, phase, Progress(false, phase)), scaled;
        }
        var quiesced;
        quiesced, scaled := ScaleDown();
        return Proceed(quiesced, phase, Progress(false, Deleting)), scaled;
      case Deleting =>
        var deleted;
        deleted, scaled := DeleteStatefulSet();
        return Proceed(deleted, phase, Progress(false, Phase.ResettingState)), scaled;
      case ResettingState =>
        if plan.reset {
          var requested := DeletePVCs();
          if requested.Err? {
            return Err(requested.error), scaled;
          }
          var gone := OwnedPVCsGone();
          return Proceed(gone, phase, Progress(false, Phase.Recreating)), scaled;
        }
        return Ok(Progress(false, Phase.Recreating)), scaled;
      case Recreating =>
        var gone;
        gone, scaled := DeleteStatefulSet();
        return Proceed(gone, phase, Progress(true, phase)), scaled;
      case _ =>
        return Err(BadPhase), scaled;
    }

    // ---- Deployment ----

    method GetClaim(c: Name) returns (r: Result<Option<Claim>, Error>)
      requires Valid()
      modifies this`w, this`run, this`clock
      ensures Valid() && First(run) == old(First(run))
      ensures Rely(plan.sg, old(w), w)
      ensures r.Ok? ==> r.value == if c in w.claims then Some(w.claims[c]) else None
      ensures r.Err? ==> r.error == ApiFailure
      ensures Quiet() ==> r.Ok? && w == old(w)
    {
      var fault := Interfere();
      r := if fault != Answered then Err(ApiFailure)
           else if c in w.claims then Ok(Some(w.claims[c])) else Ok(None);
    }

    /** ensureRetainedDataPVCs: every locked ordinal present, owned, live, bound and guarded. */
    method EnsureRetained(replicas: Count) returns (r: Answer)
      requires Valid() && (Quiet() || Collectless(w))
      modifies this`w, this`run, this`clock
      ensures Valid() && First(run) == old(First(run))
      ensures Rely(plan.sg, old(w), w)
      ensures r == Ok(true) ==> IntactClaims(plan.sg, w, replicas)
      ensures r != Ok(false)
      ensures Quiet() ==> w == old(w) && r == if AllIntact(plan.sg, w, replicas) then Ok(true) else Err(UnsafeState)
    {
      ghost var start := w;
      for ordinal := 0 to replicas
        invariant Valid() && First(run) == old(First(run))
        invariant Rely(plan.sg, start, w) && (Quiet() ==> w == start)
        invariant IntactClaims(plan.sg, w, ordinal)
      {
        ghost var before := w;
        var got := GetClaim(ClaimName(plan.sg.name, ordinal));
        StillRelies(start, before);
        RelyTransitive(plan.sg, start, before, w);
        IntactClaimsRely(plan.sg, before, w, Guard(true, ordinal));
        if got.Err? {
          return Err(got.error);
        }
        var unsafe := got.value.None? || got.value.value.ownerLabel != Some(plan.sg.owner)
                      || got.value.value.terminating || !got.value.value.bound || !got.value.value.guarded;
        if unsafe {
          assert !IntactClaim(plan.sg, w, ordinal);
          return Err(UnsafeState);
        }
        assert IntactClaim(plan.sg, w, ordinal);
      }
      return Ok(true);
    }

    /** ensureNoForeignDataPVCs: every claim under the signer's claim names is this owner's. */
    method EnsureNoForeign() returns (r: Answer)
      requires Valid()
      modifies this`w, this`run, this`clock
      ensures Valid() && First(run) == old(First(run))
      ensures Rely(plan.sg, old(w), w)
      ensures r == Ok(true) ==> NoForeignClaims(plan.sg, w)
      ensures r != Ok(false)
      ensures Quiet() ==> w == old(w) && r == if NoForeign(plan.sg, w) then Ok(true) else Err(UnsafeState)
    {
      var listed := ListClaims();
      if listed.Err? {
        return Err(listed.error);
      }
      var items := listed.value;
      for i := 0 to |items|
        invariant forall k :: 0 <= k < i && IsDataClaim(items[k].0, plan.sg.name) ==>
                    items[k].1.ownerLabel == Some(plan.sg.owner)
      {
        if IsDataClaim(items[i].0, plan.sg.name) && items[i].1.ownerLabel != Some(plan.sg.owner) {
          return Err(UnsafeState);
        }
      }
      return Ok(true);
    }

    /** ensureStatefulSetPVCsForApply */
    method EnsureForApply(live: Option<StatefulSet>, guard: Guard) returns (r: Answer)
      requires Valid() && (Quiet() || Collectless(w)) && (Quiet() ==> live == w.sts)
      modifies this`w, this`run, this`clock
      ensures Valid() && First(run) == old(First(run))
      ensures Rely(plan.sg, old(w), w)
      ensures r == Ok(true) && live.Some? ==> !live.value.stateLost
      ensures r == Ok(true) ==>
                var g := if live.Some? then Raised(guard, live.value) else guard;
                g.required ==> IntactClaims(plan.sg, w, g.replicas)
      ensures r == Ok(true) && (Quiet() || old(Still(w))) ==> NoForeignClaims(plan.sg, w)
      ensures r != Ok(false)
      ensures Quiet() ==> w == old(w) &&
                          r == if SafeToApply(plan.sg, w, plan.desired, guard) then Ok(true) else Err(UnsafeState)
    {
      ghost var start := w;
      if live.Some? && live.value.stateLost {
        return Err(UnsafeState);
      }
      if live.Some? && plan.desired > Replicas(live.value) && !live.value.guardedTemplate {
        return Err(UnsafeState);
      }
      r := EnsureNoForeign();
      if r != Ok(true) {
        return;
      }
      ghost var checked := w;
      StillRelies(start, w);
      var g := if live.Some? then Raised(guard, live.value) else guard;
      if !g.required {
        return Ok(true);
      }
      if g.replicas == 0 {
        return Err(UnsafeState);
      }
      r := EnsureRetained(g.replicas);
      RelyTransitive(plan.sg, start, checked, w);
    }

    /** quiesceUnsafeRetainedState: stop the set and latch it off for good. */
    method Quiesce(read: StatefulSet)
      requires Valid() && Controlled(plan.sg, read)
      modifies this`w, this`run, this`clock
      ensures Valid() && First(run) == old(First(run))
      ensures Quiet() && old(w.sts) == Some(read) ==> w == Stopped(old(w))
    {
      if !(read.stateLost && read.replicas == Some(0)) {
        var _, _ := UpdateSet(Latch, read);
      }
    }

    /** A create of the rendered set, refused when a set of that name exists. */
    method CreateSet(uid: string) returns (ok: bool)
      requires Valid() && phase == RollingOut && (w.view.Some? ==> w.view.value.uid != uid)
      requires w.sts.None? && NoForeignClaims(plan.sg, w) && (Quiet() || (Still(w) && Collectless(w)))
      requires !plan.reset ==> IntactClaims(plan.sg, w, plan.locked)
      modifies this`w, this`run, this`clock, this`created
      ensures Valid() && First(run) == old(First(run))
      ensures !plan.reset ==> IntactClaims(plan.sg, w, plan.locked)
      ensures Quiet() ==> ok && w == old(w).(sts := Some(Rendered(plan, uid))) && created
    {
      ghost var start := w;
      var fault := Interfere();
      IntactClaimsRely(plan.sg, start, w, Guard(!plan.reset, plan.locked));
      if w.sts.None? && fault != Refused {
        var next := w.(sts := Some(Rendered(plan, uid)));
        if !plan.reset {
          SameClaimsIntact(plan.sg, w, next, plan.locked);
        }
        run := Then(run, Move.CreateSet(uid), System(next, phase, true));
        w := next;
        created := true;
      }
      ok := fault == Answered;
    }

    /** ApplyOwned of the rendered set: create it, or update what changed, only over safe claims. */
    method ApplySet(guard: Guard, uid: string) returns (r: Answer, ghost found: Option<StatefulSet>)
      requires Valid() && phase == RollingOut && guard == plan.ApplyGuard()
      requires Quiet() || (Collectless(w) && (w.sts.None? || w.sts.value.deleting ==> Still(w)))
      requires (w.sts.None? || w.sts.value.deleting) && w.view.Some? ==> w.view.value.uid != uid
      modifies this`w, this`run, this`clock, this`created
      ensures Valid() && First(run) == old(First(run))
      ensures r == Ok(true) && found.Some? ==> Controlled(plan.sg, found.value) && !found.value.stateLost
      ensures r == Ok(true) ==>
                var g := if found.Some? then Raised(guard, found.value) else guard;
                g.required ==> IntactClaims(plan.sg, w, g.replicas)
      ensures Quiet() ==> (r, w) == SetApplied(plan, old(w), guard, uid) && found == old(w.sts)
      ensures Quiet() ==> created == (old(created) || (old(w.sts.None?) && r == Ok(true)))
    {
      found := None;
      ghost var start := w;
      var got := GetSet();
      StillRelies(start, w);
      if got.Err? {
        r := Err(got.error);
        return;
      }
      var live := got.value;
      found := live;
      ghost var before := w;
      if live.None? {
        r := EnsureForApply(None, guard);
        StillRelies(before, w);
        if r == Ok(true) {
          var ok := CreateSet(uid);
          r := if ok then Ok(true) else Err(ApiFailure);
        }
        return;
      }
      if !Controlled(plan.sg, live.value) {
        r := Err(Foreign);
        return;
      }
      r := EnsureForApply(live, guard);
      StillRelies(before, w);
      if r != Ok(true) {
        if r == Err(UnsafeState) {
          Quiesce(live.value);
        }
        return;
      }
      if !UpToDate(plan, live.value) {
        ghost var checked, settled := w, w;
        var ok;
        ok, settled := UpdateSet(Reapply, live.value);
        ghost var g := Raised(guard, live.value);
        if g.required && ok {
          if !Quiet() {
            IntactClaimsRely(plan.sg, checked, settled, g);
          }
          SameClaimsIntact(plan.sg, settled, w, g.replicas);
        }
        r := if ok then Ok(true) else Err(ApiFailure);
      }
    }

    /** MarkEverRolledOut: record, for good, that the current generation was once fully deployed. */
    method MarkEverRolledOut(desired: Count) returns (r: Answer)
      requires Valid()
      modifies this`w, this`run, this`clock
      ensures Valid() && First(run) == old(First(run))
      ensures r == Ok(true) ==> w.sts.Some? && w.sts.value.everRolledOut
      ensures old(w.sts.Some?) && !old(w.sts.value.deleting) ==> w.sts.Some? && !w.sts.value.deleting
      ensures Quiet() ==> (r, w) == (Ok(MarkedRolledOut(old(w), desired).0), MarkedRolledOut(old(w), desired).1)
    {
      var got := GetSet();
      if got.Err? {
        return Err(got.error);
      }
      if got.value.None? || !RolledOut(got.value.value, desired) {
        return Ok(false);
      }
      if got.value.value.everRolledOut {
        return Ok(true);
      }
      var ok, _ := UpdateSet(Mark, got.value.value);
      return if ok then Ok(true) else Err(ApiFailure);
    }

    /** One of PreflightDeployable's lookups by name. */
    method GetResource(kind: Kind, name: string) returns (r: Result<Option<Resource>, Error>)
      requires Valid()
      modifies this`w, this`run, this`clock
      ensures Valid() && First(run) == old(First(run))
      ensures Rely(plan.sg, old(w), w)
      ensures Quiet() ==> w == old(w)
                          && r == Ok(if (kind, name) in w.resources then Some(w.resources[(kind, name)]) else None)
    {
      var fault := Interfere();
      r := if fault != Answered then Err(ApiFailure)
           else Ok(if (kind, name) in w.resources then Some(w.resources[(kind, name)]) else None);
    }

    method GetPod(p: Name) returns (r: Result<Option<Pod>, Error>)
      requires Valid()
      modifies this`w, this`run, this`clock
      ensures Valid() && First(run) == old(First(run))
      ensures Rely(plan.sg, old(w), w)
      ensures Quiet() ==> w == old(w) && r == Ok(if p in w.pods then Some(w.pods[p]) else None)
    {
      var fault := Interfere();
      r := if fault != Answered then Err(ApiFailure) else Ok(if p in w.pods then Some(w.pods[p]) else None);
    }

    method EnsureOwnedResource(kind: Kind, name: string, headless: bool) returns (r: Answer)
      requires Valid()
      modifies this`w, this`run, this`clock
      ensures Valid() && First(run) == old(First(run))
      ensures Rely(plan.sg, old(w), w)
      ensures Quiet() ==> w == old(w)
      ensures Quiet() ==> r == if !ResourceAppliable(plan.sg, w, kind, name) then Err(Foreign)
                               else if headless && (kind, name) in w.resources && !w.resources[(kind, name)].headless
                               then Err(NotHeadless) else Ok(true)
    {
      var got := GetResource(kind, name);
      r := if got.Err? then Err(got.error)
           else if got.value.None? then Ok(true)
           else if got.value.value.controller != Some(plan.sg.owner) then Err(Foreign)
           else if headless && !got.value.value.headless then Err(NotHeadless)
           else Ok(true);
    }

    method EnsureOwnedJobPod(suffix: string) returns (r: Answer)
      requires Valid()
      modifies this`w, this`run, this`clock
      ensures Valid() && First(run) == old(First(run))
      ensures Rely(plan.sg, old(w), w)
      ensures Quiet() ==> w == old(w) && r == if JobPodAppliable(plan.sg, w, suffix) then Ok(true) else Err(Foreign)
    {
      var got := GetPod(SignerNames.Plain(plan.sg.name + "-" + suffix));
      r := if got.Err? then Err(got.error)
           else if got.value.Some? && got.value.value.controller != Some(plan.sg.owner) then Err(Foreign)
           else Ok(true);
    }

    /** The same-owner and shape checks on everything but the set and its claims. */
    method EnsureNamesDeployable(importPod: bool, pubkeyPod: bool) returns (r: Answer)
      requires Valid()
      modifies this`w, this`run, this`clock
      ensures Valid() && First(run) == old(First(run))
      ensures Rely(plan.sg, old(w), w)
      ensures Quiet() ==> w == old(w) && r == NamesDeployable(plan.sg, w, importPod, pubkeyPod)
    {
      ghost var start := w;
      r := EnsureOwnedResource(ConfigMap, plan.sg.name, false);
      if r != Ok(true) {
        return;
      }
      ghost var mid := w;
      r := EnsureOwnedResource(NetworkPolicy, plan.sg.name, false);
      RelyTransitive(plan.sg, start, mid, w);
      if r != Ok(true) {
        return;
      }
      if pubkeyPod {
        mid := w;
        r := EnsureOwnedJobPod("pubkey");
        RelyTransitive(plan.sg, start, mid, w);
        if r != Ok(true) {
          return;
        }
      }
      if importPod {
        mid := w;
        r := EnsureOwnedJobPod("import");
        RelyTransitive(plan.sg, start, mid, w);
        if r != Ok(true) {
          return;
        }
      }
      mid := w;
      r := EnsureOwnedResource(Service, plan.sg.name, true);
      RelyTransitive(plan.sg, start, mid, w);
      if r != Ok(true) {
        return;
      }
      mid := w;
      r := EnsureOwnedResource(Service, plan.sg.name + "-privval", true);
      RelyTransitive(plan.sg, start, mid, w);
    }

    method EnsurePodName(ordinal: nat, sts: Option<StatefulSet>) returns (r: Answer)
      requires Valid() && (Quiet() ==> sts == w.sts)
      modifies this`w, this`run, this`clock
      ensures Valid() && First(run) == old(First(run))
      ensures Rely(plan.sg, old(w), w)
      ensures Quiet() ==> w == old(w) &&
                          r == if PodNameAvailable(plan.sg, w, ordinal) then Ok(true) else Err(PodNameTaken)
    {
      var got := GetPod(PodName(plan.sg.name, ordinal));
      if got.Err? {
        return Err(got.error);
      }
      var taken := got.value.Some? && (sts.None? || got.value.value.controller != Some(sts.value.uid));
      r := if taken then Err(PodNameTaken) else Ok(true);
    }

    /** ensureReplicaPodNamesAvailable */
    method EnsurePodNames(replicas: Count, sts: Option<StatefulSet>) returns (r: Answer)
      requires Valid() && (Quiet() ==> sts == w.sts)
      modifies this`w, this`run, this`clock
      ensures Valid() && First(run) == old(First(run))
      ensures Rely(plan.sg, old(w), w)
      ensures Quiet() ==> w == old(w) &&
                          r == if PodNamesAvailable(plan.sg, w, replicas) then Ok(true) else Err(PodNameTaken)
    {
      ghost var start := w;
      for ordinal := 0 to replicas
        invariant Valid() && First(run) == old(First(run))
        invariant Rely(plan.sg, start, w) && (Quiet() ==> w == start)
        invariant Quiet() ==> PodNamesAvailable(plan.sg, w, ordinal)
      {
        ghost var before := w;
        r := EnsurePodName(ordinal, sts);
        RelyTransitive(plan.sg, start, before, w);
        if r != Ok(true) {
          return;
        }
      }
      return Ok(true);
    }

    /** Preflight's claim checks; an unsafe finding on an existing set stops and latches it. */
    method PreflightClaims(live: Option<StatefulSet>, replicas: Count, required: bool) returns (r: Answer)
      requires Valid() && (Quiet() || Collectless(w))
      requires live.Some? ==> Controlled(plan.sg, live.value)
      requires Quiet() ==> live == w.sts
      modifies this`w, this`run, this`clock
      ensures Valid() && First(run) == old(First(run))
      ensures Quiet() ==> (r, w) == ClaimsPreflighted(plan.sg, old(w), replicas, required)
    {
      ghost var start := w;
      r := EnsureNoForeign();
      StillRelies(start, w);
      if r == Ok(true) && (if live.None? then required
                           else !live.value.stateLost && (EverRolledOut(live.value) || required)) {
        r := EnsureRetained(replicas);
      }
      if r == Err(UnsafeState) && live.Some? {
        Quiesce(live.value);
      }
    }

    /** PreflightDeployable: everything a later apply would refuse, without creating anything. */
    method Preflight(replicas: Count, importPod: bool, pubkeyPod: bool, required: bool) returns (r: Answer)
      requires Valid() && (Quiet() || Collectless(w))
      modifies this`w, this`run, this`clock
      ensures Valid() && First(run) == old(First(run))
      ensures Quiet() ==> (r, w) == Preflighted(plan.sg, old(w), replicas, importPod, pubkeyPod, required)
    {
      ghost var start := w;
      r := EnsureNamesDeployable(importPod, pubkeyPod);
      if r != Ok(true) {
        return;
      }
      StillRelies(start, w);
      ghost var named := w;
      var got := GetSet();
      StillRelies(named, w);
      if got.Err? {
        return Err(got.error);
      }
      var live := got.value;
      if live.Some? && !Controlled(plan.sg, live.value) {
        return Err(Foreign);
      }
      ghost var read := w;
      r := EnsurePodNames(replicas, live);
      if r != Ok(true) {
        return;
      }
      StillRelies(read, w);
      r := PreflightClaims(live, replicas, required);
    }

    // ---- The reconcile loop ----

    /** Write the next phase to status; the write may be lost, and then the phase is simply repeated. */
    method PersistPhase(next: Phase)
      requires Valid() && MayAdvance(plan, phase, next, w)
      requires w.sts.None? || phase == Quiescing
      requires w.sts.None? ==> Still(w)
      modifies this`w, this`run, this`clock, this`phase
      ensures Valid() && First(run) == old(First(run))
      ensures phase == old(phase) || phase == next
      ensures Quiet() ==> phase == next && w == old(w)
    {
      ghost var start := w;
      var fault := Interfere();
      StillRelies(start, w);
      if fault != Refused {
        run := Then(run, Persist(next), System(w, next, created));
        phase := next;
      }
    }

    /** What holds now holds because it held at the start. */
    lemma Upholds()
      requires Valid() && Recalls() && Upheld(Origin(past).plan, Origin(past).s)
      ensures Upheld(plan, System(w, phase, created))
      ensures Collectless(w) && (w.sts.None? || w.sts.value.deleting ==> Still(w))
    {
      HistoryKeepsInvariant(past);
      RunKeepsInvariant(plan, run);
      NotOrphanedIsCollectless(plan, run.last);
    }

    /** One pass of the owning reconciler over the migration. */
    method Pass(uid: string)
      requires Valid() && Recalls() && Upheld(Origin(past).plan, Origin(past).s)
      requires uid !in Uids(w)
      modifies this`w, this`run, this`clock, this`phase, this`created
      ensures Valid() && First(run) == old(First(run))
      ensures Quiet() ==>
                System(w, phase, created) == Passed(plan, old(System(w, phase, created)), instant, retargets, uid)
    {
      Upholds();
      if phase == RollingOut {
        var guard := GuardFor(true, Some(Migration(phase, plan.reset)), Some(plan.locked), plan.desired);
        if guard.Ok? {
          var _, _ := ApplySet(guard.value, uid);
        }
        return;
      }
      if phase == Retargeting {
        PersistPhase(Recreating);
        return;
      }
      var r, _ := Reconcile();
      if r.Ok? {
        Upholds();
        if r.value.ready {
          PersistPhase(RollingOut);
        } else if retargets && phase == ResettingState && r.value.next == Recreating {
          PersistPhase(Retargeting);
        } else if r.value.next != phase {
          PersistPhase(r.value.next);
        }
      }
    }

    /** Status takes a new turn: the history goes on with the step, and a new run begins. */
    method Turn(ghost step: Step, recorded: string, next: Plan, start: Phase, made: bool)
      requires Valid() && Recalls() && next.sg == plan.sg
      requires Follows(step, Course(applied, plan, System(w, phase, created)),
                       Course(recorded, next, System(w, start, made)))
      modifies this
      ensures Valid() && Recalls() && Origin(past) == old(Origin(past))
      ensures applied == recorded && plan == next && phase == start && created == made && w == old(w)
    {
      AlongIsLegal(past, run);
      past := Continues(History(), step, Course(recorded, next, System(w, start, made)));
      applied, plan, phase, created := recorded, next, start, made;
      run := Start(System(w, phase, created));
    }

    /** The spec asks for another key or configuration: a new migration takes the place of the running one. */
    method Supersede(newKey: string, desired: Count)
      requires Valid() && Recalls()
      modifies this
      ensures Valid() && Recalls() && Origin(past) == old(Origin(past)) && applied == old(applied)
      ensures || (plan == old(plan) && phase == old(phase) && created == old(created))
              || (&& plan == Superseding(Course(applied, old(plan), old(System(w, phase, created))), newKey, desired)
                  && phase == Quiescing && !created)
      ensures Quiet() ==>
                && w == old(w) && phase == Quiescing && !created
                && plan == Superseding(Course(applied, old(plan), old(System(w, phase, created))), newKey, desired)
    {
      var fault := Interfere();
      if fault != Refused {
        var live := if created then plan.newKey else plan.oldKey;
        var next := Plan(plan.sg, live, newKey, newKey != applied, plan.locked, desired);
        Turn(Supersedes(newKey, desired), applied, next, Quiescing, false);
      }
    }

    /** A rolled-out replacement is marked, and its key recorded as applied. */
    method RecordApplied()
      requires Valid() && Recalls() && created && Upheld(Origin(past).plan, Origin(past).s)
      modifies this
      ensures Valid() && Recalls() && Origin(past) == old(Origin(past)) && plan == old(plan)
      ensures created && phase == old(phase) && applied in {old(applied), plan.newKey}
      ensures applied != old(applied) ==> w.sts.Some? && w.sts.value.everRolledOut
      ensures Quiet() ==>
                var (marked, next) := MarkedRolledOut(old(w), plan.desired);
                w == next && applied == if marked then plan.newKey else old(applied)
    {
      Upholds();
      var marked := MarkEverRolledOut(plan.desired);
      if marked != Ok(true) {
        return;
      }
      var fault := Interfere();
      if fault != Refused {
        Turn(Records, plan.newKey, plan, phase, created);
      }
    }

    /**
    Any number of passes, looks at the roll-out and changes of the spec, under any weather and any faults:
    the history is a legal history of migrations, so signers never coexist; and if no migration of it keeps
    state across a change of key, all signing state is of the key that signs.
    */
    method RunMigrations(doings: seq<Doing>)
      requires Valid() && Recalls() && Upheld(Origin(past).plan, Origin(past).s)
      modifies this
      ensures Valid() && Recalls() && Origin(past) == old(Origin(past))
      ensures LegalHistory(History()) && History().last == Course(applied, plan, System(w, phase, created))
      ensures Upheld(plan, System(w, phase, created))
      ensures Pure(Origin(past).plan, Origin(past).s) && NeverKeepsForeignState(History()) ==>
                Pure(plan, System(w, phase, created))
      ensures Quiet() ==> Course(applied, plan, System(w, phase, created)) ==
                          Done(old(Course(applied, plan, System(w, phase, created))), doings, instant, retargets)
    {
      ghost var start := Course(applied, plan, System(w, phase, created));
      for i := 0 to |doings|
        invariant Valid() && Recalls() && Origin(past) == old(Origin(past))
        invariant Quiet() ==> Course(applied, plan, System(w, phase, created)) ==
                              Done(start, doings[..i], instant, retargets)
      {
        assert doings[..i + 1][..i] == doings[..i];
        match doings[i] {
          case Passes(uid) =>
            if uid !in Uids(w) {
              Pass(uid);
            }
          case Changes(newKey, desired) => Supersede(newKey, desired);
          case Looks =>
            if created {
              RecordApplied();
            }
        }
      }
      assert doings[..|doings|] == doings;
      AlongIsLegal(past, run);
      Upholds();
      if Pure(Origin(past).plan, Origin(past).s) && NeverKeepsForeignState(History()) {
        HistoryStaysPure(History());
      }
    }
  }
}
