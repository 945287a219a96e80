/** What the migration guarantees in every run, from any established signer, under any interleaving. */
module MigrationSafety {
  import opened Wrappers
  import opened Cluster
  import opened Protocol

  /** A pod counts as the signer's by its labels, or by a replica's name. */
  predicate BelongsTo(sg: Signer, p: Name, pod: Pod) {
    (pod.app == "cosmosigner" && pod.instance == sg.name) || (p.Child? && p.sts == sg.name)
  }

  /** Neither set nor pod, terminating ones included. */
  ghost predicate Empty(sg: Signer, w: World) {
    w.sts.None? && forall p :: p in w.pods ==> !BelongsTo(sg, p, w.pods[p])
  }

  /** There is a set, and every pod of the signer is controlled by it. */
  ghost predicate OnlyItsPods(sg: Signer, w: World) {
    w.sts.Some? && forall p :: p in w.pods && BelongsTo(sg, p, w.pods[p]) ==>
      w.pods[p].controller == Some(w.sts.value.uid)
  }

  /** Old and new signer pods never coexist: a replacement is created over no pod, and then every pod is its own. */
  lemma SignersNeverCoexist(plan: Plan, r: Run)
    requires Legal(plan, r) && Upheld(plan, First(r))
    ensures r.Then? && r.move.CreateSet? ==> Empty(plan.sg, r.before.last.w)
    ensures r.last.created ==> OnlyItsPods(plan.sg, r.last.w)
  {
    RunKeepsInvariant(plan, r);
    if r.Then? {
      RunKeepsInvariant(plan, r.before);
    }
  }

  /** Without a reset, no raft-state claim is ever removed or even marked, and an intact set stays intact. */
  lemma SameKeyKeepsState(plan: Plan, r: Run, replicas: nat)
    requires Legal(plan, r) && Upheld(plan, First(r)) && !plan.reset
    ensures Kept(plan.sg, First(r).w, r.last.w)
    ensures IntactClaims(plan.sg, First(r).w, replicas) ==> IntactClaims(plan.sg, r.last.w, replicas)
  {
    RunKeepsInvariant(plan, r);
    if IntactClaims(plan.sg, First(r).w, replicas) {
      forall ordinal | 0 <= ordinal < replicas
        ensures IntactClaim(plan.sg, r.last.w, ordinal)
      {
        assert IntactClaim(plan.sg, First(r).w, ordinal);
      }
    }
  }

  /** The claim is there, the owner's, guarded, bound and not terminating. */
  predicate KeptAt(sg: Signer, claims: map<Name, Claim>, c: Name) {
    c in claims && claims[c] == Claim(claims[c].uid, Some(sg.owner), true, false, true, claims[c].writers)
  }

  /** A replacement finds no claim at all after a reset, and otherwise the complete retained set. */
  lemma ReplacementFinds(plan: Plan, r: Run)
    requires Legal(plan, r) && Upheld(plan, First(r)) && r.Then? && r.move.CreateSet?
    ensures var claims := r.before.last.w.claims;
            && (plan.reset ==> forall c :: c in claims ==> !(c.Child? && c.sts == plan.sg.name))
            && (!plan.reset ==>
                  forall i: nat :: i < plan.locked ==> KeptAt(plan.sg, claims, ClaimName(plan.sg.name, i)))
            && (forall c :: c in claims && c.Child? && c.sts == plan.sg.name ==>
                  claims[c].ownerLabel == Some(plan.sg.owner))
  {
    RunKeepsInvariant(plan, r.before);
    if !plan.reset {
      forall i: nat | i < plan.locked
        ensures KeptAt(plan.sg, r.before.last.w.claims, ClaimName(plan.sg.name, i))
      {
        assert IntactClaim(plan.sg, r.before.last.w, i);
      }
    }
  }

  /**
  The pod mounts slash-protection state of no key but its own. Claims of other owners, which an old
  signer's pod might hold before the replacement is created, are not spoken of.
  */
  ghost predicate RunsOnItsOwnState(sg: Signer, s: System, p: Name)
    requires p in s.w.pods
  {
    s.w.pods[p].mount.Some? ==>
      var c := s.w.pods[p].mount.value;
      IsDataClaim(c, sg.name) && c in s.w.claims && (s.created || s.w.claims[c].ownerLabel == Some(sg.owner)) ==>
        s.w.claims[c].writers <= {s.w.pods[p].key}
  }

  /** If state is not kept across a change of key, no replica ever runs on state written under another key. */
  lemma ReplicasRunOnTheirOwnState(plan: Plan, r: Run, p: Name)
    requires Legal(plan, r) && Upheld(plan, First(r)) && Pure(plan, First(r))
    requires plan.reset || plan.oldKey == plan.newKey
    requires p in r.last.w.pods
    ensures RunsOnItsOwnState(plan.sg, r.last, p)
  {
    RunKeepsInvariant(plan, r);
    PureStatesAreSafe(plan, r.last, p);
  }

  lemma PureStatesAreSafe(plan: Plan, s: System, p: Name)
    requires Upheld(plan, s) && Pure(plan, s) && p in s.w.pods
    ensures RunsOnItsOwnState(plan.sg, s, p)
  {
  }

  /**
  The order is what saves the state: deleting a set under the rendered policy, before Retain has been
  seen, lets the controller collect an intact claim.
  */
  lemma DeletingUnderTheRenderedPolicyLosesState(sg: Signer, key: string)
    ensures exists s: StatefulSet, w: World, w': World, e: Event ::
              && w.sts == Some(s) && WellFormed(w) && Controlled(sg, s) && PolicyOf(s) == RENDERED_POLICY
              && NoSignerPods(sg, w) && Still(w) && IntactClaim(sg, w, 0)
              && Happens(sg, e, w.(sts := None), w') && !IntactClaim(sg, w', 0)
  {
    var s := StatefulSet("u", Some(sg.owner), 1, Some(0), Some(RENDERED_POLICY), Some(sg.owner), true, true, false,
                         key, false, 1, 0, 0, 0);
    var c := ClaimName(sg.name, 0);
    var claim := Claim("c", Some(sg.owner), true, false, true, {key});
    var w := World(Some(s), Some(Snapshot(s)), map[], map[c := claim], map[]);
    var w' := w.(sts := None, claims := map[c := claim.(terminating := true)]);
    assert w.(sts := None).claims[c := claim.(terminating := true)] == w'.claims;
    assert Happens(sg, CollectDeleted(c), w.(sts := None), w');
    assert IntactClaim(sg, w, 0) && !IntactClaim(sg, w', 0);
  }
}
