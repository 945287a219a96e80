/**
Runs that exist: every migration can be carried out, and a migration that decides wrongly about raft
state goes wrong.
*/
module MigrationRuns {
  import opened Wrappers
  import opened Cluster
  import opened Protocol
  import opened MigrationSafety
  import opened MigrationRestarts

  ghost predicate Reaches(plan: Plan, s: System, t: System) {
    exists r: Run :: Legal(plan, r) && First(r) == s && r.last == t
  }

  lemma Stays(plan: Plan, s: System)
    ensures Reaches(plan, s, s)
  {
    var r := Start(s);
    assert Legal(plan, r) && First(r) == s;
  }

  lemma Goes(plan: Plan, s: System, t: System, m: Move, u: System)
    requires Reaches(plan, s, t) && Takes(plan, m, t, u)
    ensures Reaches(plan, s, u)
  {
    var r: Run :| Legal(plan, r) && First(r) == s && r.last == t;
    var r' := Then(r, m, u);
    assert Legal(plan, r') && First(r') == s && r'.last == u;
  }

  lemma {:induction false} GoesOn(plan: Plan, s: System, r: Run)
    requires Legal(plan, r) && Reaches(plan, s, First(r))
    ensures Reaches(plan, s, r.last)
  {
    if r.Then? {
      GoesOn(plan, s, r.before);
      Goes(plan, s, r.before.last, r.move, r.last);
    }
  }

  lemma ReachesTransitive(plan: Plan, s: System, t: System, u: System)
    requires Reaches(plan, s, t) && Reaches(plan, t, u)
    ensures Reaches(plan, s, u)
  {
    var r: Run :| Legal(plan, r) && First(r) == t && r.last == u;
    GoesOn(plan, s, r);
  }

  // ---- Tearing down ----

  /** A settled set of this owner without pods. */
  ghost predicate Idle(sg: Signer, w: World) {
    && w.sts.Some? && Controlled(sg, w.sts.value) && !w.sts.value.deleting
    && w.view == Some(Snapshot(w.sts.value)) && NoSignerPods(sg, w)
  }

  /** The controller's view of the set once it is retained and scaled down. */
  function LastView(s: StatefulSet): View { Snapshot(ScaledToZero(RetainAll(s))) }

  /** The cluster after the set is torn down. */
  function TornDown(w: World): World
    requires w.sts.Some?
  {
    w.(sts := None, view := Some(LastView(w.sts.value)))
  }

  /** Retain, observe, scale and observe, from whatever the controller sees. */
  lemma LiveSetQuiesces(plan: Plan, w: World)
    requires w.sts.Some? && Controlled(plan.sg, w.sts.value) && !w.sts.value.deleting
    ensures var s := ScaledToZero(RetainAll(w.sts.value));
            Reaches(plan, System(w, Quiescing, false),
                    System(w.(sts := Some(s), view := Some(Snapshot(s))), Quiescing, false))
  {
    var start, s1 := System(w, Quiescing, false), RetainAll(w.sts.value);
    var s2 := ScaledToZero(s1);
    var w1 := w.(sts := Some(s1));
    var w2 := w1.(view := Some(Snapshot(s1)));
    var w3 := w2.(sts := Some(s2));
    Stays(plan, start);
    Goes(plan, start, start, WritePolicy, System(w1, Quiescing, false));
    Goes(plan, start, System(w1, Quiescing, false), Env(Observe), System(w2, Quiescing, false));
    Goes(plan, start, System(w2, Quiescing, false), WriteScale, System(w3, Quiescing, false));
    Goes(plan, start, System(w3, Quiescing, false), Env(Observe),
         System(w3.(view := Some(Snapshot(s2))), Quiescing, false));
  }

  lemma Quiesces(plan: Plan, w: World)
    requires Idle(plan.sg, w)
    ensures var s := ScaledToZero(RetainAll(w.sts.value));
            Reaches(plan, System(w, Quiescing, false),
                    System(w.(sts := Some(s), view := Some(Snapshot(s))), Deleting, false))
  {
    var s := ScaledToZero(RetainAll(w.sts.value));
    var w4 := w.(sts := Some(s), view := Some(Snapshot(s)));
    LiveSetQuiesces(plan, w);
    Goes(plan, System(w, Quiescing, false), System(w4, Quiescing, false), Persist(Deleting),
         System(w4, Deleting, false));
  }

  lemma TearsDown(plan: Plan, w: World)
    requires Idle(plan.sg, w)
    ensures Reaches(plan, System(w, Quiescing, false), System(TornDown(w), Phase.ResettingState, false))
  {
    var start, s := System(w, Quiescing, false), ScaledToZero(RetainAll(w.sts.value));
    var w4 := w.(sts := Some(s), view := Some(Snapshot(s)));
    Quiesces(plan, w);
    assert w4.(sts := None) == TornDown(w);
    Goes(plan, start, System(w4, Deleting, false), DeleteSet(true), System(TornDown(w), Deleting, false));
    Goes(plan, start, System(TornDown(w), Deleting, false), Persist(Phase.ResettingState),
         System(TornDown(w), Phase.ResettingState, false));
  }

  /** A reset releases, deletes and loses the claim. */
  lemma Discards(plan: Plan, w: World, c: Name)
    requires plan.reset && c in w.claims && IsOwnedClaim(plan.sg, c, w.claims[c])
    ensures Reaches(plan, System(w, Phase.ResettingState, false),
                    System(w.(claims := w.claims - {c}), Phase.ResettingState, false))
  {
    var start := System(w, Phase.ResettingState, false);
    var c1 := w.claims[c].(guarded := false);
    var c2 := c1.(terminating := true);
    var w1, w2 := w.(claims := w.claims[c := c1]), w.(claims := w.claims[c := c2]);
    assert w1.claims[c := c2] == w2.claims && w2.claims - {c} == w.claims - {c};
    Stays(plan, start);
    Goes(plan, start, start, ReleaseClaim(c), System(w1, Phase.ResettingState, false));
    Goes(plan, start, System(w1, Phase.ResettingState, false), DeleteClaim(c), System(w2, Phase.ResettingState, false));
    Goes(plan, start, System(w2, Phase.ResettingState, false), Env(EndClaim(c)),
         System(w.(claims := w.claims - {c}), Phase.ResettingState, false));
  }

  // ---- Launching ----

  /** The claim of ordinal 0 as a pod of the set finds it. */
  function FirstClaim(sg: Signer, w: World, v: View): Claim {
    var c := ClaimName(sg.name, 0);
    if c in w.claims then w.claims[c] else FreshClaim(v, "fresh")
  }

  /** The replacement is created and observed, and its first pod is started. */
  function Launched(plan: Plan, w: World, uid: string): World {
    var s := Rendered(plan, uid);
    var v := Snapshot(s);
    World(Some(s), Some(v), w.pods[PodName(plan.sg.name, 0) := StartedPod(plan.sg, v, 0)],
          w.claims[ClaimName(plan.sg.name, 0) := FirstClaim(plan.sg, w, v)], w.resources)
  }

  lemma Launches(plan: Plan, w: World, uid: string)
    requires Gone(plan.sg, w) && plan.desired > 0 && NoForeignClaims(plan.sg, w) && uid !in Uids(w)
    requires plan.reset ==> NoOwnedClaims(plan.sg, w)
    requires !plan.reset ==> IntactClaims(plan.sg, w, plan.locked)
    requires var c := ClaimName(plan.sg.name, 0); c in w.claims ==> !w.claims[c].terminating
    ensures Reaches(plan, System(w, Phase.ResettingState, false), System(Launched(plan, w, uid), RollingOut, true))
  {
    var start, s := System(w, Phase.ResettingState, false), Rendered(plan, uid);
    var w1 := w.(sts := Some(s));
    var w2 := w1.(view := Some(Snapshot(s)));
    var w3 := Launched(plan, w, uid);
    var c := ClaimName(plan.sg.name, 0);
    Stays(plan, start);
    Goes(plan, start, start, Persist(Recreating), System(w, Recreating, false));
    Goes(plan, start, System(w, Recreating, false), Persist(RollingOut), System(w, RollingOut, false));
    Goes(plan, start, System(w, RollingOut, false), CreateSet(uid), System(w1, RollingOut, true));
    Goes(plan, start, System(w1, RollingOut, true), Env(Observe), System(w2, RollingOut, true));
    assert c in w.claims ==> w.claims[c := w.claims[c]] == w.claims;
    assert Happens(plan.sg, StartPod(0, "fresh"), w2, w3);
    Goes(plan, start, System(w2, RollingOut, true), Env(StartPod(0, "fresh")), System(w3, RollingOut, true));
  }

  // ---- Every migration can be carried out ----

  /** An intact claim, written under the key, for every ordinal below n. */
  function ClaimsOf(sg: Signer, key: string, n: nat): (claims: map<Name, Claim>)
    ensures forall c :: c in claims <==> c.Child? && c.sts == sg.name && c.ordinal < n
    ensures forall c :: c in claims ==> claims[c] == Claim("c", Some(sg.owner), true, false, true, {key})
  {
    if n == 0 then map[]
    else ClaimsOf(sg, key, n - 1)[ClaimName(sg.name, n - 1) := Claim("c", Some(sg.owner), true, false, true, {key})]
  }

  /** A live signer under the old key with that many claims. */
  function Serving(plan: Plan, replicas: nat): World {
    var s := StatefulSet("old", Some(plan.sg.owner), 1, Some(plan.desired), Some(RENDERED_POLICY), Some(plan.sg.owner),
                         true, true, false, plan.oldKey, false, 1, 0, 0, 0);
    World(Some(s), Some(Snapshot(s)), map[], ClaimsOf(plan.sg, plan.oldKey, replicas), map[])
  }

  lemma ServingIsEstablished(plan: Plan, replicas: nat)
    ensures Established(plan, System(Serving(plan, replicas), Quiescing, false))
    ensures Idle(plan.sg, Serving(plan, replicas))
    ensures IntactClaims(plan.sg, Serving(plan, replicas), replicas)
    ensures NoForeignClaims(plan.sg, Serving(plan, replicas))
    ensures replicas == 1 ==> Serving(plan, replicas).claims.Keys == {ClaimName(plan.sg.name, 0)}
  {
  }

  /** Without a reset, a migration takes an idle signer to the replacement's first pod over the same claims. */
  lemma ReplacesKeeping(plan: Plan, w: World, uid: string)
    requires Idle(plan.sg, w) && !plan.reset && plan.desired > 0 && plan.locked > 0 && uid != w.sts.value.uid
    requires NoForeignClaims(plan.sg, w) && IntactClaims(plan.sg, w, plan.locked)
    ensures Reaches(plan, System(w, Quiescing, false), System(Launched(plan, TornDown(w), uid), RollingOut, true))
  {
    var torn := TornDown(w);
    TearsDown(plan, w);
    forall ordinal | 0 <= ordinal < plan.locked ensures IntactClaim(plan.sg, torn, ordinal) {
      assert IntactClaim(plan.sg, w, ordinal);
    }
    assert IntactClaim(plan.sg, torn, 0);
    Launches(plan, torn, uid);
    ReachesTransitive(plan, System(w, Quiescing, false), System(torn, Phase.ResettingState, false),
                      System(Launched(plan, torn, uid), RollingOut, true));
  }

  /** With a reset, it takes an idle signer with one claim to the replacement's first pod on a fresh one. */
  lemma ReplacesResetting(plan: Plan, w: World, c: Name, uid: string)
    requires Idle(plan.sg, w) && plan.reset && plan.desired > 0 && uid != w.sts.value.uid
    requires w.claims.Keys == {c} && IsOwnedClaim(plan.sg, c, w.claims[c])
    ensures Reaches(plan, System(w, Quiescing, false),
                    System(Launched(plan, TornDown(w).(claims := map[]), uid), RollingOut, true))
  {
    var start, torn := System(w, Quiescing, false), TornDown(w);
    var left := torn.(claims := map[]);
    TearsDown(plan, w);
    Discards(plan, torn, c);
    assert torn.claims - {c} == map[];
    ReachesTransitive(plan, start, System(torn, Phase.ResettingState, false),
                      System(left, Phase.ResettingState, false));
    Launches(plan, left, uid);
    ReachesTransitive(plan, start, System(left, Phase.ResettingState, false),
                      System(Launched(plan, left, uid), RollingOut, true));
  }

  /**
  For every plan there is a run from a live, established signer to the replacement's first pod: with a
  reset over a claim that was discarded on the way, without one over the retained claims.
  */
  lemma ReplacementIsReached(plan: Plan)
    requires plan.desired > 0 && plan.locked > 0
    ensures var w := Serving(plan, if plan.reset then 1 else plan.locked);
            var left := TornDown(w).(claims := if plan.reset then map[] else w.claims);
            && Established(plan, System(w, Quiescing, false))
            && Reaches(plan, System(w, Quiescing, false), System(Launched(plan, left, "new"), RollingOut, true))
  {
    var replicas := if plan.reset then 1 else plan.locked;
    var w := Serving(plan, replicas);
    ServingIsEstablished(plan, replicas);
    if plan.reset {
      var c := ClaimName(plan.sg.name, 0);
      ReplacesResetting(plan, w, c, "new");
    } else {
      ReplacesKeeping(plan, w, "new");
      assert TornDown(w).(claims := w.claims) == TornDown(w);
    }
  }

  /** A replacement over a claim another key has written starts a pod on foreign state. */
  lemma LaunchesOnForeignState(plan: Plan, w: World, uid: string)
    requires var c := ClaimName(plan.sg.name, 0); c in w.claims && !(w.claims[c].writers <= {plan.newKey})
    ensures var p, t := PodName(plan.sg.name, 0), System(Launched(plan, w, uid), RollingOut, true);
            p in t.w.pods && t.w.pods[p].key == plan.newKey && !RunsOnItsOwnState(plan.sg, t, p)
  {
  }

  /**
  Whenever state is kept across a change of key, it goes wrong: there is a run from an established signer
  after which a replica of the new key runs on state of the old one.
  */
  lemma KeptStateIsForeign(plan: Plan)
    requires plan.desired > 0 && plan.locked > 0 && !plan.reset && plan.oldKey != plan.newKey
    ensures exists s, t :: Established(plan, s) && Reaches(plan, s, t) &&
              var p := PodName(plan.sg.name, 0); p in t.w.pods && !RunsOnItsOwnState(plan.sg, t, p)
  {
    var w := Serving(plan, plan.locked);
    ServingIsEstablished(plan, plan.locked);
    ReplacesKeeping(plan, w, "new");
    var t := System(Launched(plan, TornDown(w), "new"), RollingOut, true);
    assert IntactClaim(plan.sg, w, 0);
    LaunchesOnForeignState(plan, TornDown(w), "new");
  }

  // ---- So the decision is exact ----

  /** In every run from an established signer, every replica runs on state of its own key. */
  ghost predicate RunsOnOwnState(plan: Plan) {
    forall s, t, p :: Established(plan, s) && Reaches(plan, s, t) && p in t.w.pods ==> RunsOnItsOwnState(plan.sg, t, p)
  }

  /** In every run from an established signer, its live claims survive. */
  ghost predicate KeepsState(plan: Plan) {
    forall s, t :: Established(plan, s) && Reaches(plan, s, t) ==> Kept(plan.sg, s.w, t.w)
  }

  /**
  Replicas run on their own state exactly if the migration resets or keeps the key, and state is kept
  exactly if it does not reset.
  */
  lemma DecisionIsExact(plan: Plan)
    requires plan.desired > 0 && plan.locked > 0
    ensures RunsOnOwnState(plan) <==> plan.reset || plan.oldKey == plan.newKey
    ensures KeepsState(plan) <==> !plan.reset
  {
    forall s, t | Established(plan, s) && Reaches(plan, s, t)
      ensures !plan.reset ==> Kept(plan.sg, s.w, t.w)
      ensures plan.reset || plan.oldKey == plan.newKey ==>
                forall p :: p in t.w.pods ==> RunsOnItsOwnState(plan.sg, t, p)
    {
      var r: Run :| Legal(plan, r) && First(r) == s && r.last == t;
      RunKeepsInvariant(plan, r);
      if plan.reset || plan.oldKey == plan.newKey {
        forall p | p in t.w.pods ensures RunsOnItsOwnState(plan.sg, t, p) {
          ReplicasRunOnTheirOwnState(plan, r, p);
        }
      }
    }
    if !(plan.reset || plan.oldKey == plan.newKey) {
      KeptStateIsForeign(plan);
    }
    if plan.reset {
      ResetLosesState(plan);
    }
  }

  lemma ResetLosesState(plan: Plan)
    requires plan.desired > 0 && plan.reset
    ensures !KeepsState(plan)
  {
    var w, c := Serving(plan, 1), ClaimName(plan.sg.name, 0);
    ServingIsEstablished(plan, 1);
    assert IntactClaim(plan.sg, w, 0);
    ReplacesResetting(plan, w, c, "new");
    var t := System(Launched(plan, TornDown(w).(claims := map[]), "new"), RollingOut, true);
    assert t.w.claims[c].uid == "fresh" && w.claims[c].uid == "c";
  }

  /**
  What a superseding migration may be trusted with, in terms of the recorded, the live and the new key:
  its replicas run on their own state exactly if the recorded key is the live one or the new key is not
  the recorded one, and it keeps state exactly if the new key is the recorded one.
  */
  lemma SupersedingIsSafeExactly(c: Course, newKey: string, desired: Count)
    requires desired > 0 && c.plan.locked > 0
    ensures RunsOnOwnState(Superseding(c, newKey, desired)) <==> c.applied == Live(c) || newKey != c.applied
    ensures KeepsState(Superseding(c, newKey, desired)) <==> newKey == c.applied
  {
    DecisionIsExact(Superseding(c, newKey, desired));
  }

  // ---- Histories ----

  ghost predicate LeadsTo(c: Course, c': Course) {
    exists h: History :: LegalHistory(h) && Origin(h) == c && h.last == c'
  }

  lemma Steps(c: Course, c': Course, step: Step, c'': Course)
    requires LeadsTo(c, c') && Follows(step, c', c'')
    ensures LeadsTo(c, c'')
  {
    var h: History :| LegalHistory(h) && Origin(h) == c && h.last == c';
    var h' := Continues(h, step, c'');
    assert LegalHistory(h') && Origin(h') == c && h'.last == c'';
  }

  lemma {:induction false} StepsAlong(c: Course, c': Course, r: Run)
    requires LeadsTo(c, c') && Legal(c'.plan, r) && First(r) == c'.s
    ensures LeadsTo(c, c'.(s := r.last))
  {
    if r.Then? {
      StepsAlong(c, c', r.before);
      Steps(c, c'.(s := r.before.last), Step.Goes(r.move), c'.(s := r.last));
    } else {
      assert c'.(s := r.last) == c';
    }
  }

  lemma LeadsAlong(c: Course, c': Course, s: System)
    requires LeadsTo(c, c') && Reaches(c'.plan, c'.s, s)
    ensures LeadsTo(c, c'.(s := s))
  {
    var r: Run :| Legal(c'.plan, r) && First(r) == c'.s && r.last == s;
    StepsAlong(c, c', r);
  }

  /** The first pod of a launched set has its fresh claim bound and signs, and then ends. */
  function Signed(plan: Plan, w: World, uid: string): World {
    Launched(plan, w, uid).(pods := w.pods, claims := SignedClaims(plan))
  }

  function SignedClaims(plan: Plan): map<Name, Claim> {
    map[ClaimName(plan.sg.name, 0) := Claim("fresh", Some(plan.sg.owner), true, false, true, {plan.newKey})]
  }

  lemma Signs(plan: Plan, w: World, uid: string)
    requires w.claims == map[] && NoSignerPods(plan.sg, w)
    ensures Reaches(plan, System(Launched(plan, w, uid), RollingOut, true),
                    System(Signed(plan, w, uid), RollingOut, true))
    ensures Idle(plan.sg, Signed(plan, w, uid))
  {
    var w0, p, c := Launched(plan, w, uid), PodName(plan.sg.name, 0), ClaimName(plan.sg.name, 0);
    var start := System(w0, RollingOut, true);
    var w1, w2 := w0.(claims := w0.claims[c := w0.claims[c].(bound := true)]), w0.(claims := SignedClaims(plan));
    Stays(plan, start);
    Goes(plan, start, start, Env(BindClaim(c)), System(w1, RollingOut, true));
    assert Happens(plan.sg, Sign(p), w1, w2) by {
      assert w1.claims[c].writers + {plan.newKey} == {plan.newKey};
      assert w1.claims[c := w1.claims[c].(writers := {plan.newKey})] == w2.claims;
    }
    Goes(plan, start, System(w1, RollingOut, true), Env(Sign(p)), System(w2, RollingOut, true));
    assert w2.pods - {p} == w.pods;
    Goes(plan, start, System(w2, RollingOut, true), Env(EndPod(p)), System(Signed(plan, w, uid), RollingOut, true));
  }

  /** One intact claim of the owner, written under the key. */
  ghost predicate HoldsStateOf(sg: Signer, w: World, key: string) {
    && w.claims.Keys == {ClaimName(sg.name, 0)} && IntactClaim(sg, w, 0)
    && w.claims[ClaimName(sg.name, 0)].writers == {key}
  }

  /** The first half: a migration to another key rolls out and signs, and is not recorded yet. */
  lemma Unrecorded(sg: Signer, a: string, b: string) returns (c: Course, c': Course)
    requires a != b
    ensures Begun(c, sg, a) && LeadsTo(c, c')
    ensures c'.plan == Plan(sg, a, b, true, 1, 1) && c'.applied == a
    ensures Idle(sg, c'.s.w) && c'.s.w.sts.value.uid == "new" && c'.s.created
    ensures HoldsStateOf(sg, c'.s.w, b)
  {
    var plan := Plan(sg, a, b, true, 1, 1);
    var w0 := Serving(plan, 1);
    var left := TornDown(w0).(claims := map[]);
    ServingIsEstablished(plan, 1);
    c := Course(a, plan, System(w0, Quiescing, false));
    assert LeadsTo(c, c) by {
      var h := Begins(c);
      assert LegalHistory(h) && Origin(h) == c;
    }
    ReplacesResetting(plan, w0, ClaimName(sg.name, 0), "new");
    Signs(plan, left, "new");
    c' := c.(s := System(Signed(plan, left, "new"), RollingOut, true));
    ReachesTransitive(plan, c.s, System(Launched(plan, left, "new"), RollingOut, true), c'.s);
    LeadsAlong(c, c, c'.s);
  }

  /** A migration decided while key a is the live and the applied one. */
  ghost predicate Begun(c: Course, sg: Signer, a: string) {
    BeginsApplied(c) && Pure(c.plan, c.s) && c.applied == a && c.plan.sg == sg
  }

  ghost predicate EndsOnForeignState(c: Course, sg: Signer, key: string) {
    exists p :: p in c.s.w.pods && c.s.w.pods[p].key == key && !RunsOnItsOwnState(sg, c.s, p)
  }

  /**
  From key a to b and back to a before b is recorded: the second change keeps state, and a replica of a
  ends up on state written under b.
  */
  lemma ReturningRunsOnForeignState(sg: Signer, a: string, b: string)
    requires a != b
    ensures exists c, c' :: Begun(c, sg, a) && LeadsTo(c, c') && EndsOnForeignState(c', sg, a)
  {
    var c, c1 := Unrecorded(sg, a, b);
    var c2 := Course(a, Superseding(c1, a, 1), System(c1.s.w, Quiescing, false));
    Steps(c, c1, Supersedes(a, 1), c2);
    var t := KeepsForeign(c2.plan, c2.s.w, b);
    LeadsAlong(c, c2, t);
    assert EndsOnForeignState(c2.(s := t), sg, a);
  }

  lemma KeepsForeign(plan: Plan, w: World, b: string) returns (t: System)
    requires Idle(plan.sg, w) && HoldsStateOf(plan.sg, w, b) && b != plan.newKey && w.sts.value.uid != "newer"
    requires !plan.reset && plan.locked == 1 && plan.desired > 0
    ensures Reaches(plan, System(w, Quiescing, false), t)
    ensures var p := PodName(plan.sg.name, 0);
            p in t.w.pods && t.w.pods[p].key == plan.newKey && !RunsOnItsOwnState(plan.sg, t, p)
  {
    ReplacesKeeping(plan, w, "newer");
    LaunchesOnForeignState(plan, TornDown(w), "newer");
    t := System(Launched(plan, TornDown(w), "newer"), RollingOut, true);
  }

  /**
  From key a to b, and then any other change of the spec before b is recorded: the second change resets
  state although the key stays, and what b has signed is forgotten.
  */
  lemma StayingForgetsItsState(sg: Signer, a: string, b: string)
    requires a != b
    ensures exists c, c1, c' ::
              && Begun(c, sg, a) && LeadsTo(c, c1) && LeadsTo(c1, c')
              && var k := ClaimName(sg.name, 0);
              && IntactClaim(sg, c1.s.w, 0) && c1.s.w.claims[k].writers == {b} && Live(c1) == b
              && c'.s.created && c'.s.w.sts.Some? && c'.s.w.sts.value.key == b
              && k in c'.s.w.claims && c'.s.w.claims[k].writers == {}
  {
    var c, c1 := Unrecorded(sg, a, b);
    var c2 := Course(a, Superseding(c1, b, 1), System(c1.s.w, Quiescing, false));
    assert IntactClaim(sg, c1.s.w, 0);
    assert LeadsTo(c1, c1) by {
      var h := Begins(c1);
      assert LegalHistory(h) && Origin(h) == c1;
    }
    Steps(c1, c1, Supersedes(b, 1), c2);
    assert c2.s.w.claims.Keys == {ClaimName(sg.name, 0)};
    ReplacesResetting(c2.plan, c2.s.w, ClaimName(sg.name, 0), "newer");
    var c3 := c2.(s := System(Launched(c2.plan, TornDown(c2.s.w).(claims := map[]), "newer"), RollingOut, true));
    LeadsAlong(c1, c2, c3.s);
  }

  // ---- When a keeping migration can be carried out ----

  /** The claim is still fit to be kept; binding it is up to the cluster. */
  predicate Recoverable(sg: Signer, w: World, ordinal: nat) {
    var c := ClaimName(sg.name, ordinal);
    c in w.claims && w.claims[c].ownerLabel == Some(sg.owner) && w.claims[c].guarded && !w.claims[c].terminating
  }

  ghost predicate CanCreate(plan: Plan, s: System) {
    exists t :: Reaches(plan, s, t) && t.created
  }

  /** A migration that keeps state, waiting without a set over a claim that is not fit, never gets further. */
  lemma {:induction false} Stranded(plan: Plan, r: Run, ordinal: nat)
    requires Legal(plan, r) && Upheld(plan, First(r)) && !plan.reset && ordinal < plan.locked
    requires First(r).w.sts.None? && !First(r).created && !Recoverable(plan.sg, First(r).w, ordinal)
    ensures r.last.w.sts.None? && !r.last.created && !Recoverable(plan.sg, r.last.w, ordinal)
  {
    if r.Then? {
      Stranded(plan, r.before, ordinal);
      RunKeepsInvariant(plan, r.before);
      NotOrphanedIsCollectless(plan, r.before.last);
      assert r.move.CreateSet? ==> IntactClaim(plan.sg, r.before.last.w, ordinal);
      if r.move.Env? {
        EventStrands(plan.sg, r.move.event, r.before.last.w, r.last.w, ordinal);
      }
    }
  }

  lemma EventStrands(sg: Signer, e: Event, w: World, w': World, ordinal: nat)
    requires Happens(sg, e, w, w') && w.sts.None? && Still(w) && !Recoverable(sg, w, ordinal)
    ensures w'.sts.None? && !Recoverable(sg, w', ordinal)
  {
    EventMakesNoClaims(sg, e, w, w');
  }

  lemma {:induction false} PodsEnd(plan: Plan, s: System) returns (w: World)
    ensures Reaches(plan, s, s.(w := w)) && NoSignerPods(plan.sg, w) && w == s.w.(pods := w.pods)
    decreases |s.w.pods|
  {
    if p :| p in s.w.pods && IsSignerPod(plan.sg, p, s.w.pods[p]) {
      var next := s.(w := s.w.(pods := s.w.pods - {p}));
      Stays(plan, s);
      Goes(plan, s, s, Env(EndPod(p)), next);
      assert |next.w.pods| < |s.w.pods| by { assert next.w.pods.Keys == s.w.pods.Keys - {p}; }
      w := PodsEnd(plan, next);
      ReachesTransitive(plan, s, next, s.(w := w));
    } else {
      Stays(plan, s);
      w := s.w;
    }
  }

  /** Claims of others under the signer's names can be removed, and the owner's are left alone. */
  lemma {:induction false} ForeignClaimsEnd(plan: Plan, s: System) returns (w: World)
    ensures Reaches(plan, s, s.(w := w)) && NoForeignClaims(plan.sg, w) && w == s.w.(claims := w.claims)
    ensures forall c :: c in s.w.claims && IsOwnedClaim(plan.sg, c, s.w.claims[c]) ==>
              c in w.claims && w.claims[c] == s.w.claims[c]
    decreases |s.w.claims|
  {
    if c :| c in s.w.claims && IsDataClaim(c, plan.sg.name) && !IsOwnedClaim(plan.sg, c, s.w.claims[c]) {
      var next := s.(w := s.w.(claims := s.w.claims - {c}));
      Stays(plan, s);
      Goes(plan, s, s, Env(EndForeignClaim(c)), next);
      assert |next.w.claims| < |s.w.claims| by { assert next.w.claims.Keys == s.w.claims.Keys - {c}; }
      w := ForeignClaimsEnd(plan, next);
      ReachesTransitive(plan, s, next, s.(w := w));
    } else {
      Stays(plan, s);
      w := s.w;
    }
  }

  ghost predicate AllRecoverable(sg: Signer, w: World, n: nat) {
    forall ordinal :: 0 <= ordinal < n ==> Recoverable(sg, w, ordinal)
  }

  /** The claims of the first n ordinals are bound. */
  lemma {:induction false} ClaimsBind(plan: Plan, s: System, n: nat) returns (w: World)
    requires AllRecoverable(plan.sg, s.w, n) && NoForeignClaims(plan.sg, s.w)
    ensures Reaches(plan, s, s.(w := w)) && IntactClaims(plan.sg, w, n) && NoForeignClaims(plan.sg, w)
    ensures w == s.w.(claims := w.claims)
    ensures forall m: nat :: AllRecoverable(plan.sg, s.w, m) ==> AllRecoverable(plan.sg, w, m)
  {
    if n == 0 {
      Stays(plan, s);
      w := s.w;
    } else {
      w := ClaimsBind(plan, s, n - 1);
      var c := ClaimName(plan.sg.name, n - 1);
      assert AllRecoverable(plan.sg, w, n);
      assert Recoverable(plan.sg, w, n - 1);
      var bound := w.(claims := w.claims[c := w.claims[c].(bound := true)]);
      Goes(plan, s, s.(w := w), Env(BindClaim(c)), s.(w := bound));
      BindingKeeps(plan.sg, w, bound, n - 1);
      w := bound;
    }
  }

  lemma BindingKeeps(sg: Signer, w: World, w': World, k: nat)
    requires IntactClaims(sg, w, k) && Recoverable(sg, w, k)
    requires var c := ClaimName(sg.name, k); w' == w.(claims := w.claims[c := w.claims[c].(bound := true)])
    ensures IntactClaims(sg, w', k + 1)
    ensures forall m: nat :: AllRecoverable(sg, w, m) ==> AllRecoverable(sg, w', m)
  {
    forall i | 0 <= i < k + 1 ensures IntactClaim(sg, w', i) {
      if i < k {
        assert IntactClaim(sg, w, i);
      }
    }
    forall m: nat | AllRecoverable(sg, w, m) ensures AllRecoverable(sg, w', m) {
      forall i | 0 <= i < m ensures Recoverable(sg, w', i) {
        assert Recoverable(sg, w, i);
      }
    }
  }

  /** Whatever is left of the signer's set and pods goes, and the claims stay. */
  lemma SetEnds(plan: Plan, w: World) returns (w': World)
    requires Upheld(plan, System(w, Quiescing, false))
    ensures Reaches(plan, System(w, Quiescing, false), System(w', Deleting, false))
    ensures Gone(plan.sg, w') && w'.claims == w.claims
  {
    var start := System(w, Quiescing, false);
    if w.sts.Some? && !w.sts.value.deleting {
      w' := LiveSetEnds(plan, w);
    } else {
      var w1 := w.(sts := None);
      Stays(plan, start);
      if w.sts.Some? {
        Goes(plan, start, start, Env(EndSet), System(w1, Quiescing, false));
      } else {
        assert w1 == w;
      }
      w' := PodsEnd(plan, System(w1, Quiescing, false));
      ReachesTransitive(plan, start, System(w1, Quiescing, false), System(w', Quiescing, false));
      Goes(plan, start, System(w', Quiescing, false), Persist(Deleting), System(w', Deleting, false));
    }
  }

  lemma LiveSetEnds(plan: Plan, w: World) returns (w': World)
    requires w.sts.Some? && Controlled(plan.sg, w.sts.value) && !w.sts.value.deleting
    ensures Reaches(plan, System(w, Quiescing, false), System(w', Deleting, false))
    ensures Gone(plan.sg, w') && w'.claims == w.claims
  {
    var start, s := System(w, Quiescing, false), ScaledToZero(RetainAll(w.sts.value));
    var w4 := w.(sts := Some(s), view := Some(Snapshot(s)));
    LiveSetQuiesces(plan, w);
    var w5 := PodsEnd(plan, System(w4, Quiescing, false));
    ReachesTransitive(plan, start, System(w4, Quiescing, false), System(w5, Quiescing, false));
    Goes(plan, start, System(w5, Quiescing, false), Persist(Deleting), System(w5, Deleting, false));
    w' := w5.(sts := None);
    Goes(plan, start, System(w5, Deleting, false), DeleteSet(true), System(w', Deleting, false));
  }

  /** Over neither set nor pod, a keeping migration with intact claims creates its replacement. */
  lemma Creates(plan: Plan, w: World)
    requires Gone(plan.sg, w) && !plan.reset && NoForeignClaims(plan.sg, w) && IntactClaims(plan.sg, w, plan.locked)
    ensures CanCreate(plan, System(w, Deleting, false))
  {
    var start := System(w, Deleting, false);
    var uid := if w.view.Some? then w.view.value.uid + "'" else "u";
    var t := System(w.(sts := Some(Rendered(plan, uid))), RollingOut, true);
    Stays(plan, start);
    Goes(plan, start, start, Persist(Phase.ResettingState), System(w, Phase.ResettingState, false));
    Goes(plan, start, System(w, Phase.ResettingState, false), Persist(Recreating), System(w, Recreating, false));
    Goes(plan, start, System(w, Recreating, false), Persist(RollingOut), System(w, RollingOut, false));
    assert w.view.Some? ==> |w.view.value.uid| < |uid|;
    Goes(plan, start, System(w, RollingOut, false), CreateSet(uid), t);
  }

  /** From every start, with a set or without, a keeping migration over fit claims can create its replacement. */
  lemma KeepingCreates(plan: Plan, w: World)
    requires Upheld(plan, System(w, Quiescing, false)) && !plan.reset && AllRecoverable(plan.sg, w, plan.locked)
    ensures CanCreate(plan, System(w, Quiescing, false))
  {
    var start := System(w, Quiescing, false);
    var w1 := SetEnds(plan, w);
    var s := System(w1, Deleting, false);
    var w2 := ForeignClaimsEnd(plan, s);
    ReachesTransitive(plan, start, s, s.(w := w2));
    assert AllRecoverable(plan.sg, w2, plan.locked) by {
      forall i | 0 <= i < plan.locked ensures Recoverable(plan.sg, w2, i) {
        assert Recoverable(plan.sg, w, i);
      }
    }
    var w3 := ClaimsBind(plan, s.(w := w2), plan.locked);
    ReachesTransitive(plan, start, s.(w := w2), s.(w := w3));
    Creates(plan, w3);
    var t :| Reaches(plan, s.(w := w3), t) && t.created;
    ReachesTransitive(plan, start, s.(w := w3), t);
  }

  /**
  A keeping migration that starts without a set can create its replacement exactly if the claim of every
  locked ordinal is present, the owner's, guarded and not on its way out.
  */
  lemma KeepingCreatesExactly(plan: Plan, w: World)
    requires Upheld(plan, System(w, Quiescing, false)) && !plan.reset && w.sts.None?
    ensures CanCreate(plan, System(w, Quiescing, false)) <==> AllRecoverable(plan.sg, w, plan.locked)
  {
    var s := System(w, Quiescing, false);
    if AllRecoverable(plan.sg, w, plan.locked) {
      KeepingCreates(plan, w);
    }
    if t :| Reaches(plan, s, t) && t.created {
      var r: Run :| Legal(plan, r) && First(r) == s && r.last == t;
      forall i | 0 <= i < plan.locked ensures Recoverable(plan.sg, w, i) {
        if !Recoverable(plan.sg, w, i) {
          Stranded(plan, r, i);
        }
      }
    }
  }

  /**
  In terms of persisted status: if every migration that resets is superseded before it comes to resetting
  state, a migration that supersedes it and keeps state can always be carried out over the claims that
  were intact at the start.
  */
  lemma EarlyRestartsCanGoOn(h: History)
    requires LegalHistory(h) && Upheld(Origin(h).plan, Origin(h).s) && SupersededBeforeReset(h)
    requires h.last.s.phase == Quiescing && !h.last.s.created && !h.last.plan.reset
    requires IntactClaims(h.last.plan.sg, Origin(h).s.w, h.last.plan.locked)
    ensures CanCreate(h.last.plan, h.last.s)
  {
    var plan, w0, w := h.last.plan, Origin(h).s.w, h.last.s.w;
    EarlyRestartsKeepState(h);
    HistoryKeepsInvariant(h);
    assert AllRecoverable(plan.sg, w, plan.locked) by {
      forall i | 0 <= i < plan.locked ensures Recoverable(plan.sg, w, i) {
        assert IntactClaim(plan.sg, w0, i);
      }
    }
    assert h.last.s == System(w, Quiescing, false);
    KeepingCreates(plan, w);
  }

  // ---- A key that never stopped signing loses its state ----

  lemma {:induction false} AlongInTime(h: History, r: Run)
    requires SupersededInTime(h)
    ensures SupersededInTime(Along(h, r))
  {
    if r.Then? {
      AlongInTime(h, r.before);
    }
  }

  /** The history of a to b, superseded by a once b's migration has discarded a's state. */
  ghost predicate StrandedAt(h: History, sg: Signer, a: string) {
    var c := h.last;
    && Begun(Origin(h), sg, a) && IntactClaim(sg, Origin(h).s.w, 0)
    && Origin(h).s.w.claims[ClaimName(sg.name, 0)].writers == {a}
    && LegalHistory(h) && SupersededInTime(h)
    && c.plan == Plan(sg, a, a, false, 1, 1) && c.applied == a && Live(c) == a
    && NoOwnedClaims(sg, c.s.w) && !CanCreate(c.plan, c.s)
  }

  /**
  From key a to b and back to a before b rolls out, but after a's state was discarded: the key was a all
  along, its state is gone, and as the second migration keeps state, no replacement is ever created.
  */
  lemma EarlyRestartStrands(sg: Signer, a: string, b: string)
    requires a != b
    ensures exists h :: StrandedAt(h, sg, a)
  {
    var plan, c := Plan(sg, a, b, true, 1, 1), ClaimName(sg.name, 0);
    var w := Serving(plan, 1);
    var start, left := System(w, Quiescing, false), TornDown(w).(claims := map[]);
    ServingIsEstablished(plan, 1);
    assert IntactClaim(sg, w, 0);
    TearsDown(plan, w);
    Discards(plan, TornDown(w), c);
    assert TornDown(w).claims - {c} == map[];
    var s := System(left, Phase.ResettingState, false);
    ReachesTransitive(plan, start, System(TornDown(w), Phase.ResettingState, false), s);
    var r: Run :| Legal(plan, r) && First(r) == start && r.last == s;
    var h := Begins(Course(a, plan, start));
    AlongIsLegal(h, r);
    AlongInTime(h, r);
    var h' := Along(h, r);
    var last := Course(a, Superseding(h'.last, a, 1), System(left, Quiescing, false));
    var h'' := Continues(h', Supersedes(a, 1), last);
    StrandsForGood(h'', plan, w, left, a);
  }

  lemma StrandsForGood(h: History, plan: Plan, w: World, left: World, a: string)
    requires LegalHistory(h) && SupersededInTime(h) && Origin(h) == Course(a, plan, System(w, Quiescing, false))
    requires plan.oldKey == a != plan.newKey && plan.reset && w == Serving(plan, 1)
    requires h.last == Course(a, Plan(plan.sg, a, a, false, 1, 1), System(left, Quiescing, false))
    requires left.sts.None? && left.claims == map[]
    ensures StrandedAt(h, plan.sg, a)
  {
    ServingIsEstablished(plan, 1);
    assert IntactClaim(plan.sg, w, 0);
    HistoryKeepsInvariant(h);
    KeepingCreatesExactly(h.last.plan, left);
    assert !Recoverable(plan.sg, left, 0);
  }
}
