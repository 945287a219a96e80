/**
Migrations that supersede one another. A changed spec replaces the running migration by a new one that
starts over, and decides about raft state by comparing the new key with the last one recorded as
applied, which need not be the one that signs.
*/
module MigrationRestarts {
  import opened Wrappers
  import opened Cluster
  import opened Protocol
  import opened MigrationSafety

  /** The public key recorded as applied, the migration under way, and its state. */
  datatype Course = Course(applied: string, plan: Plan, s: System)

  /** The key the signer signs with, or last signed with. */
  function Live(c: Course): string { CurrentKey(c.plan, c.s) }

  /** The migration a changed spec puts in the place of the running one. */
  function Superseding(c: Course, newKey: string, desired: Count): Plan {
    Plan(c.plan.sg, Live(c), newKey, newKey != c.applied, c.plan.locked, desired)
  }

  datatype Step =
    | Goes(move: Move)                               // one move of the running migration
    | Records                                        // the rolled-out key is recorded as applied
    | Supersedes(newKey: string, desired: Count)

  ghost predicate Follows(step: Step, c: Course, c': Course) {
    match step
    case Goes(m) => Takes(c.plan, m, c.s, c'.s) && c' == c.(s := c'.s)
    case Records =>
      && c.s.created && c.s.w.sts.Some? && c.s.w.sts.value.everRolledOut
      && c' == c.(applied := c.plan.newKey)
    case Supersedes(newKey, desired) =>
      c' == Course(c.applied, Superseding(c, newKey, desired), System(c.s.w, Quiescing, false))
  }

  /** A finite history of migrations. */
  datatype History = Begins(last: Course) | Continues(before: History, step: Step, last: Course)

  function Origin(h: History): Course {
    match h
    case Begins(c) => c
    case Continues(before, _, _) => Origin(before)
  }

  ghost predicate LegalHistory(h: History) {
    match h
    case Begins(_) => true
    case Continues(before, step, c) => LegalHistory(before) && Follows(step, before.last, c)
  }

  /** The history that goes on along a run of its last migration. */
  ghost function Along(h: History, r: Run): History {
    match r
    case Start(_) => h
    case Then(before, m, s) => Continues(Along(h, before), Goes(m), h.last.(s := s))
  }

  lemma {:induction false} AlongIsLegal(h: History, r: Run)
    requires LegalHistory(h) && Legal(h.last.plan, r) && First(r) == h.last.s
    ensures LegalHistory(Along(h, r)) && Origin(Along(h, r)) == Origin(h) && Along(h, r).last == h.last.(s := r.last)
  {
    if r.Then? {
      AlongIsLegal(h, r.before);
    } else {
      assert h.last.(s := r.last) == h.last;
    }
  }

  // ---- What every history keeps ----

  /** Superseding a migration anywhere leaves an established signer behind. */
  lemma SupersedingEstablishes(c: Course, newKey: string, desired: Count)
    requires Upheld(c.plan, c.s)
    ensures Upheld(Superseding(c, newKey, desired), System(c.s.w, Quiescing, false))
    ensures Pure(c.plan, c.s) ==> Established(Superseding(c, newKey, desired), System(c.s.w, Quiescing, false))
  {
  }

  /** However migrations supersede one another, the invariant on set, pods and claims holds. */
  lemma {:induction false} HistoryKeepsInvariant(h: History)
    requires LegalHistory(h) && Upheld(Origin(h).plan, Origin(h).s)
    ensures Upheld(h.last.plan, h.last.s)
  {
    match h
    case Begins(_) =>
    case Continues(before, step, c) =>
      HistoryKeepsInvariant(before);
      match step {
        case Goes(m) => MoveKeepsUpheld(c.plan, m, before.last.s, c.s);
        case Supersedes(key, desired) => SupersedingEstablishes(before.last, key, desired);
        case Records =>
      }
  }

  /** So old and new signers never coexist in any history of superseding migrations. */
  lemma RestartsKeepSignersApart(h: History)
    requires LegalHistory(h) && Upheld(Origin(h).plan, Origin(h).s)
    ensures h.Continues? && h.step.Goes? && h.step.move.CreateSet? ==> Empty(h.last.plan.sg, h.before.last.s.w)
    ensures h.last.s.created ==> OnlyItsPods(h.last.plan.sg, h.last.s.w)
  {
    HistoryKeepsInvariant(h);
    if h.Continues? {
      HistoryKeepsInvariant(h.before);
    }
  }

  // ---- When superseding is safe ----

  /**
  A superseding migration resets state exactly when the key changes if and only if the applied key is
  the live one, or the new key is neither of the two.
  */
  lemma SupersedingIsSoundExactly(c: Course, newKey: string, desired: Count)
    ensures Superseding(c, newKey, desired).Sound() <==>
            c.applied == Live(c) || newKey !in {c.applied, Live(c)}
    ensures Superseding(c, newKey, desired).reset || Live(c) == newKey <==>
            c.applied == Live(c) || newKey != c.applied
  {
  }

  /** No migration of the history keeps state across a change of key. */
  ghost predicate NeverKeepsForeignState(h: History) {
    && (h.last.plan.reset || h.last.plan.oldKey == h.last.plan.newKey)
    && (h.Continues? ==> NeverKeepsForeignState(h.before))
  }

  lemma {:induction false} HistoryStaysPure(h: History)
    requires LegalHistory(h) && Upheld(Origin(h).plan, Origin(h).s) && Pure(Origin(h).plan, Origin(h).s)
    requires NeverKeepsForeignState(h)
    ensures Pure(h.last.plan, h.last.s)
  {
    match h
    case Begins(_) =>
    case Continues(before, step, c) =>
      HistoryStaysPure(before);
      HistoryKeepsInvariant(before);
      if step.Goes? {
        MoveKeepsPure(c.plan, step.move, before.last.s, c.s);
      }
  }

  /** In such a history no replica ever runs on state written under another key. */
  lemma RestartsRunOnTheirOwnState(h: History, p: Name)
    requires LegalHistory(h) && Upheld(Origin(h).plan, Origin(h).s) && Pure(Origin(h).plan, Origin(h).s)
    requires NeverKeepsForeignState(h) && p in h.last.s.w.pods
    ensures RunsOnItsOwnState(h.last.plan.sg, h.last.s, p)
  {
    HistoryKeepsInvariant(h);
    HistoryStaysPure(h);
    PureStatesAreSafe(h.last.plan, h.last.s, p);
  }

  // ---- A condition on persisted status alone ----

  /** Every migration was superseded before it rolled out, or when its key was already the applied one. */
  ghost predicate SupersededInTime(h: History) {
    h.Continues? ==>
      && SupersededInTime(h.before)
      && (h.step.Supersedes? ==>
            h.before.last.s.phase != RollingOut || h.before.last.plan.newKey == h.before.last.applied)
  }

  /** Begins with a migration decided while the applied key is the live one. */
  ghost predicate BeginsApplied(c: Course) {
    Upheld(c.plan, c.s) && !c.s.created && c.plan.oldKey == c.applied && c.plan.Sound()
  }

  lemma {:induction false} SupersededInTimeIsApplied(h: History)
    requires LegalHistory(h) && BeginsApplied(Origin(h)) && SupersededInTime(h)
    ensures !h.last.s.created ==> h.last.plan.oldKey == h.last.applied
    ensures h.last.plan.Sound()
    ensures NeverKeepsForeignState(h)
  {
    match h
    case Begins(_) =>
    case Continues(before, step, c) =>
      SupersededInTimeIsApplied(before);
      HistoryKeepsInvariant(before);
  }

  /**
  If every migration is superseded before it rolls out, or after its key was recorded, every decision
  about raft state is right when it is taken, and no replica runs on foreign state. What a superseded
  migration has done to the state by then is another matter: see EarlyRestartsKeepState.
  */
  lemma EarlyRestartsDecideRightly(h: History, p: Name)
    requires LegalHistory(h) && BeginsApplied(Origin(h)) && Pure(Origin(h).plan, Origin(h).s) && SupersededInTime(h)
    ensures h.last.plan.Sound()
    ensures p in h.last.s.w.pods ==> RunsOnItsOwnState(h.last.plan.sg, h.last.s, p)
  {
    SupersededInTimeIsApplied(h);
    if p in h.last.s.w.pods {
      RestartsRunOnTheirOwnState(h, p);
    }
  }

  // ---- When state survives ----

  /** The migration keeps state, or has not come to resetting it. */
  predicate BeforeReset(c: Course) {
    !c.plan.reset || c.s.phase in {Quiescing, Deleting}
  }

  ghost predicate EverSupersededBeforeReset(h: History) {
    h.Continues? ==> EverSupersededBeforeReset(h.before) && (h.step.Supersedes? ==> BeforeReset(h.before.last))
  }

  /** Every superseded migration was still before resetting state, and so is the last one. */
  ghost predicate SupersededBeforeReset(h: History) {
    BeforeReset(h.last) && EverSupersededBeforeReset(h)
  }

  /** Phases only move forward, so a migration that is before resetting state always was. */
  lemma MovesForward(step: Step, c: Course, c': Course)
    requires Follows(step, c, c') && !step.Supersedes? && BeforeReset(c')
    ensures BeforeReset(c)
  {
  }

  /**
  As long as every migration that resets is superseded before it comes to resetting state, which the
  persisted phase tells, every live claim survives the whole history.
  */
  lemma {:induction false} EarlyRestartsKeepState(h: History)
    requires LegalHistory(h) && Upheld(Origin(h).plan, Origin(h).s) && SupersededBeforeReset(h)
    ensures Kept(h.last.plan.sg, Origin(h).s.w, h.last.s.w)
  {
    match h
    case Begins(_) =>
    case Continues(before, step, c) =>
      if !step.Supersedes? {
        MovesForward(step, before.last, c);
      }
      EarlyRestartsKeepState(before);
      HistoryKeepsInvariant(before);
      if step.Goes? {
        MoveKeepsKept(c.plan, step.move, Origin(h).s.w, before.last.s, c.s);
      }
  }
}
