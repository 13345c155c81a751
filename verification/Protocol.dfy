/** What every reachable journal keeps: the plan, the shape of the checkpoints, and how the journal accounts for
    each adapter call the transaction ever made. Pure definitions and the step lemmas; `Engine` runs the code. */
module Protocol {
  import opened Common
  import opened Journal

  datatype Action = Action(id: string, adapter: string)

  /** An approved plan. The planner refuses duplicate action ids; the digest is 64 hex digits. */
  datatype Plan = Plan(actions: seq<Action>, digest: string, intentDigest: string)
  {
    predicate WellFormed() {
      && IsHex(digest, 64)
      && (forall i :: 0 <= i < |actions| ==> actions[i].id != "" && actions[i].adapter != "")
      && (forall i, j :: 0 <= i < j < |actions| ==> actions[i].id != actions[j].id)
    }
  }

  // ----- the calls of one transaction ----------------------------------------------------

  datatype Mutation = Apply | ReconcileApply | Repair
  datatype Undo = Rollback | ReconcileRollback

  /** The adapter calls that matter, by the index of their action in the plan. A mutation or an undo is logged when it
      is entered; `Undone` when an undo, `Proved` when a verification returned successful evidence. */
  datatype Event =
    | Mutating(kind: Mutation, at: nat)
    | Proved(at: nat)
    | Undoing(how: Undo, at: nat, purge: bool, target: RollbackTarget)
    | Undone(at: nat)
  {
    predicate IsUndo() {
      Undoing? || Undone?
    }
  }

  /** Actions mutated since they were last undone. */
  ghost function Dirty(ev: seq<Event>): set<nat> {
    if ev == [] then {}
    else
      var before := Dirty(ev[..|ev| - 1]);
      match ev[|ev| - 1]
      case Mutating(_, k) => before + {k}
      case Undone(k) => before - {k}
      case _ => before
  }

  /** Actions mutated since they were last verified. */
  ghost function Unproven(ev: seq<Event>): set<nat> {
    if ev == [] then {}
    else
      var before := Unproven(ev[..|ev| - 1]);
      match ev[|ev| - 1]
      case Mutating(_, k) => before + {k}
      case Proved(k) => before - {k}
      case _ => before
  }

  /** Every call that mutated action `k` was later followed by a successful undo of it. */
  ghost predicate MutationsUndone(ev: seq<Event>, k: nat) {
    forall i :: 0 <= i < |ev| && ev[i].Mutating? && ev[i].at == k ==> exists j :: i < j < |ev| && ev[j] == Undone(k)
  }

  lemma {:induction false} DirtyMeaning(ev: seq<Event>, k: nat)
    ensures k !in Dirty(ev) <==> MutationsUndone(ev, k)
  {
    if ev != [] {
      var n := |ev| - 1;
      DirtyMeaning(ev[..n], k);
      if k !in Dirty(ev) {
        forall i | 0 <= i < |ev| && ev[i].Mutating? && ev[i].at == k
          ensures exists j :: i < j < |ev| && ev[j] == Undone(k)
        {
          if ev[n] == Undone(k) {
            assert i < n;
          } else {
            assert i < n && ev[..n][i] == ev[i];
            var j :| i < j < n && ev[..n][j] == Undone(k);
            assert ev[j] == Undone(k);
          }
        }
      }
    }
  }

  /** What two calls of one transaction, the first made before the second, must satisfy. */
  ghost predicate InOrder(a: Event, b: Event) {
    // `adapter.apply` is entered at most once per action, and so is `adapter.rollback`
    && (a.Mutating? && a.kind.Apply? ==> b != a)
    && (a.Undoing? && a.how.Rollback? ==> !(b.Undoing? && b.how.Rollback? && b.at == a.at))
    // actions are applied in plan order
    && (a.Mutating? && b.Mutating? && !a.kind.Repair? && !b.kind.Repair? ==> a.at <= b.at)
    // once anything is undone nothing is mutated again, and undoing goes back through the plan
    && (a.IsUndo() ==> b.IsUndo() && b.at <= a.at)
    // one rollback policy
    && (a.Undoing? && b.Undoing? ==> a.purge == b.purge && a.target == b.target)
  }

  ghost predicate Orderly(ev: seq<Event>) {
    forall i, j :: 0 <= i < j < |ev| ==> InOrder(ev[i], ev[j])
  }

  /** A transaction that is over: its calls were orderly and nothing it mutated is left. */
  ghost predicate Settled(ev: seq<Event>) {
    Orderly(ev) && Dirty(ev) == {}
  }

  lemma OrderlyAppend(ev: seq<Event>, e: Event)
    requires Orderly(ev) && forall i :: 0 <= i < |ev| ==> InOrder(ev[i], e)
    ensures Orderly(ev + [e])
  {
  }

  /** What one more event does to the two sets. */
  lemma Appended(ev: seq<Event>, e: Event)
    ensures Dirty(ev + [e])
            == (if e.Mutating? then Dirty(ev) + {e.at} else if e.Undone? then Dirty(ev) - {e.at} else Dirty(ev))
    ensures Unproven(ev + [e])
            == (if e.Mutating? then Unproven(ev) + {e.at} else if e.Proved? then Unproven(ev) - {e.at} else Unproven(ev))
  {
    assert (ev + [e])[..|ev|] == ev;
  }

  // ----- the journal against the plan ------------------------------------------------------

  ghost predicate Aligned(plan: Plan, cps: seq<Checkpoint>) {
    && |cps| <= |plan.actions|
    && forall i :: 0 <= i < |cps| ==>
         cps[i].actionId == plan.actions[i].id && cps[i].adapter == plan.actions[i].adapter
  }

  /** Verified checkpoints, then at most one unfinished, then rolled-back ones. */
  ghost predicate Staged(cps: seq<Checkpoint>) {
    forall i, j :: 0 <= i < j < |cps| ==> cps[i].phase.Verified? || cps[j].phase.RolledBack?
  }

  ghost predicate FrontierAt(cps: seq<Checkpoint>, k: nat) {
    && k <= |cps|
    && (forall i :: 0 <= i < k ==> cps[i].phase.Verified?)
    && (forall j :: k < j < |cps| ==> cps[j].phase.RolledBack?)
  }

  /** `Staged`, spelled out: below some frontier everything is verified, above it everything is rolled back. */
  lemma StagedMeaning(cps: seq<Checkpoint>)
    ensures Staged(cps) <==> exists k :: FrontierAt(cps, k)
  {
    if Staged(cps) {
      var k := 0;
      while k < |cps| && cps[k].phase.Verified?
        invariant 0 <= k <= |cps| && forall i :: 0 <= i < k ==> cps[i].phase.Verified?
      {
        k := k + 1;
      }
      assert FrontierAt(cps, k);
    }
  }

  ghost predicate AllIn(cps: seq<Checkpoint>, phase: Phase) {
    forall i :: 0 <= i < |cps| ==> cps[i].phase == phase
  }

  ghost predicate Forward(p: Phase) {
    p.Prepared? || p.Applying? || p.Applied? || p.Verified?
  }

  /** Whether a rollback recorded by this state purges data. */
  ghost predicate Purges(s: TransactionState) {
    s.rollbackTarget == Some(ToRolledBack) || s.purgeData == Some(true)
  }

  /** Whether a rollback of this state to `target` does. */
  ghost predicate Purging(s: TransactionState, target: RollbackTarget) {
    target.ToRolledBack? || s.purgeData == Some(true)
  }

  /** The checkpoints, the policy and the status agree. */
  ghost predicate Shape(s: TransactionState, actions: nat) {
    && Staged(s.checkpoints)
    && (s.rollbackTarget == Some(ToUninstalled) ==> s.purgeData.Some?)
    && match s.status
       case Applying =>
         && s.rollbackTarget.None? && s.purgeData.None?
         && forall i :: 0 <= i < |s.checkpoints| ==> Forward(s.checkpoints[i].phase)
       case Active =>
         s.rollbackTarget.None? && s.purgeData.None? && |s.checkpoints| == actions && AllIn(s.checkpoints, Verified)
       case RollingBack => s.rollbackTarget == Some(ToRolledBack)
       case Uninstalling => s.rollbackTarget == Some(ToUninstalled)
       case RollbackFailed => s.rollbackTarget.Some?
       case RolledBack => s.rollbackTarget == Some(ToRolledBack) && AllIn(s.checkpoints, Phase.RolledBack)
       case Uninstalled => s.rollbackTarget == Some(ToUninstalled) && AllIn(s.checkpoints, Phase.RolledBack)
  }

  /** A checkpoint that may own or have changed something. */
  ghost predicate Live(c: Checkpoint) {
    c.phase.Applying? || c.phase.Applied? || c.phase.Verified? || c.phase.RollbackInProgress?
  }

  /** A checkpoint nothing was ever done for: prepared, or retired from there without an adapter call. */
  ghost predicate Untouched(c: Checkpoint) {
    c.phase.Prepared? || (c.phase.RolledBack? && c.rollbackEvidence.None?)
  }

  /** A checkpoint whose undoing has begun. */
  ghost predicate Retiring(c: Checkpoint) {
    c.phase.RollbackInProgress? || (c.phase.RolledBack? && c.rollbackEvidence.Some?)
  }

  /** The journal accounts for one call the transaction made. */
  ghost predicate Accounted(s: TransactionState, e: Event) {
    && e.at < |s.checkpoints|
    && !Untouched(s.checkpoints[e.at])
    && (e.IsUndo() ==>
          && Retiring(s.checkpoints[e.at])
          && s.rollbackTarget.Some?
          && forall m :: e.at < m < |s.checkpoints| ==> s.checkpoints[m].phase.RolledBack?)
    && (e.Undoing? ==> s.rollbackTarget == Some(e.target) && e.purge == Purges(s))
  }

  ghost predicate Identity(plan: Plan, s: TransactionState) {
    && s.schema == TRANSACTION_SCHEMA && IsHex(s.transactionId, 32) && s.origin != ""
    && s.planDigest == plan.digest && s.acceptedDigest == plan.digest
  }

  /** What holds of every journal on disk, with the calls `ev` its transaction has made so far. */
  ghost predicate Sound(plan: Plan, s: TransactionState, ev: seq<Event>) {
    && plan.WellFormed()
    && Identity(plan, s)
    && Aligned(plan, s.checkpoints)
    && Shape(s, |plan.actions|)
    && (forall i :: 0 <= i < |s.checkpoints| && (s.checkpoints[i].phase.Applying? || Untouched(s.checkpoints[i])) ==>
                      s.checkpoints[i].ownership == map[])
    && (forall i :: 0 <= i < |s.checkpoints| && !s.checkpoints[i].phase.RolledBack? ==>
                      s.checkpoints[i].rollbackEvidence.None?)
    && Orderly(ev)
    && (forall i :: 0 <= i < |ev| ==> Accounted(s, ev[i]))
    && (forall k <- Dirty(ev) :: k < |s.checkpoints| && Live(s.checkpoints[k]))
    && (forall i :: 0 <= i < |s.checkpoints| && s.checkpoints[i].phase.Owns(false) ==> i in Dirty(ev))
  }

  /** A checkpoint recorded as verified was verified after the last call that changed it, unless that call is a repair
      not yet in the journal. */
  ghost predicate Proven(s: TransactionState, ev: seq<Event>, lapsed: set<nat>) {
    forall i :: 0 <= i < |s.checkpoints| && s.checkpoints[i].phase.Verified? && i !in lapsed ==> i !in Unproven(ev)
  }

  lemma SoundValidates(plan: Plan, s: TransactionState, ev: seq<Event>)
    requires Sound(plan, s, ev)
    ensures Validate(s).Ok?
  {
    assert forall c <- s.checkpoints :: c.Identified();
  }

  /** A transaction whose journal says it is over has undone everything it ever did. */
  lemma FinishedIsSettled(plan: Plan, s: TransactionState, ev: seq<Event>)
    requires Sound(plan, s, ev) && (s.status.RolledBack? || s.status.Uninstalled?)
    ensures Settled(ev)
    ensures forall k: nat :: MutationsUndone(ev, k)
    ensures forall k :: 0 <= k < |s.checkpoints| && Untouched(s.checkpoints[k]) ==>
              forall i :: 0 <= i < |ev| ==> ev[i].at != k
  {
    forall k: nat ensures MutationsUndone(ev, k) {
      DirtyMeaning(ev, k);
    }
  }

  // ----- steps on the journal ----------------------------------------------------------------

  lemma StartsSound(plan: Plan, id: string)
    requires plan.WellFormed() && IsHex(id, 32)
    ensures Sound(plan, NewState(id, Status.Applying, plan.digest), [])
  {
  }

  /** Putting a checkpoint of action `k` into an aligned journal touches slot `k` only. */
  lemma RecordedAt(plan: Plan, cps: seq<Checkpoint>, c: Checkpoint, k: nat)
    requires plan.WellFormed() && Aligned(plan, cps) && k <= |cps| && k < |plan.actions|
    requires c.actionId == plan.actions[k].id
    ensures WithCheckpoint(cps, c) == if k < |cps| then cps[k := c] else cps + [c]
  {
    forall j | 0 <= j < |cps| && j != k ensures cps[j].actionId != c.actionId {
      assert plan.actions[j].id != plan.actions[k].id;
    }
    WithCheckpointAt(cps, c, k);
  }

  lemma FoundAt(plan: Plan, cps: seq<Checkpoint>, k: nat)
    requires plan.WellFormed() && Aligned(plan, cps) && k <= |cps| && k < |plan.actions|
    ensures FindCheckpoint(cps, plan.actions[k].id) == if k < |cps| then Some(cps[k]) else None
  {
    forall j | 0 <= j < |cps| && j != k ensures cps[j].actionId != plan.actions[k].id {
      assert plan.actions[j].id != plan.actions[k].id;
    }
    FindCheckpointAt(cps, plan.actions[k].id, k);
  }

  function Recorded(s: TransactionState, c: Checkpoint): TransactionState {
    s.(checkpoints := WithCheckpoint(s.checkpoints, c))
  }

  ghost predicate For(plan: Plan, c: Checkpoint, k: nat) {
    k < |plan.actions| && c.actionId == plan.actions[k].id && c.adapter == plan.actions[k].adapter
  }

  lemma AccountedAdvance(s: TransactionState, t: TransactionState, e: Event, k: nat, c: Checkpoint)
    requires k <= |s.checkpoints| <= k + 1 && Forward(c.phase) && (c.phase.Prepared? ==> k == |s.checkpoints|)
    requires s.rollbackTarget.None? && t == s.(checkpoints := s.checkpoints[..k] + [c]) && Accounted(s, e)
    ensures Accounted(t, e)
  {
  }

  lemma ShapedAdvance(plan: Plan, s: TransactionState, t: TransactionState, k: nat, c: Checkpoint)
    requires Aligned(plan, s.checkpoints) && s.status.Applying? && Shape(s, |plan.actions|)
    requires k <= |s.checkpoints| && For(plan, c, k) && Forward(c.phase)
    requires forall i :: 0 <= i < k ==> s.checkpoints[i].phase.Verified?
    requires t == s.(checkpoints := s.checkpoints[..k] + [c])
    ensures Aligned(plan, t.checkpoints) && Shape(t, |plan.actions|)
  {
  }

  /** The new checkpoint is of the same action as the one it replaces. */
  ghost predicate Replaces(s: TransactionState, k: nat, c: Checkpoint) {
    k < |s.checkpoints| && c.actionId == s.checkpoints[k].actionId && c.adapter == s.checkpoints[k].adapter
  }

  lemma LastUnfinished(cps: seq<Checkpoint>, k: nat)
    requires Staged(cps) && k < |cps| && !cps[k].phase.Verified?
    ensures k + 1 < |cps| ==> cps[k + 1].phase.RolledBack?
  {
  }

  lemma SoundFacts(plan: Plan, s: TransactionState, ev: seq<Event>)
    requires Sound(plan, s, ev)
    ensures plan.WellFormed() && Aligned(plan, s.checkpoints)
    ensures s.status.Applying? || s.status.Active? <==> s.rollbackTarget.None?
    ensures s.status.Applying? ==> forall i :: 0 <= i < |s.checkpoints| ==> Forward(s.checkpoints[i].phase)
    ensures s.status.Active? ==> |s.checkpoints| == |plan.actions| && AllIn(s.checkpoints, Verified)
    ensures forall i :: 0 <= i < |s.checkpoints| && (s.checkpoints[i].phase.Applying? || Untouched(s.checkpoints[i])) ==>
              s.checkpoints[i].ownership == map[]
    ensures forall i :: 0 <= i < |s.checkpoints| && !s.checkpoints[i].phase.RolledBack? ==>
              s.checkpoints[i].rollbackEvidence.None?
    ensures forall i :: 0 <= i < |s.checkpoints| && s.checkpoints[i].phase.Owns(false) ==> i in Dirty(ev)
    ensures forall k :: 0 <= k < |s.checkpoints| && !s.checkpoints[k].phase.Verified? && s.status.Applying? ==>
              k + 1 == |s.checkpoints|
  {
    forall k | 0 <= k < |s.checkpoints| && !s.checkpoints[k].phase.Verified? && s.status.Applying?
      ensures k + 1 == |s.checkpoints|
    {
      LastUnfinished(s.checkpoints, k);
    }
  }

  lemma SoundIsStaged(plan: Plan, s: TransactionState, ev: seq<Event>)
    requires Sound(plan, s, ev)
    ensures Staged(s.checkpoints) && (s.rollbackTarget.None? ==> forall c <- s.checkpoints :: Forward(c.phase))
  {
  }

  /** While applying, the last checkpoint may be appended as prepared or moved forward. */
  lemma Advance(plan: Plan, s: TransactionState, ev: seq<Event>, k: nat, c: Checkpoint)
    requires Sound(plan, s, ev) && s.status.Applying? && Forward(c.phase)
    requires Replaces(s, k, c) || (k == |s.checkpoints| && For(plan, c, k))
    requires k <= |s.checkpoints| <= k + 1
    requires forall i :: 0 <= i < k ==> s.checkpoints[i].phase.Verified?
    requires c.phase.Prepared? <==> k == |s.checkpoints|
    requires c.phase.Prepared? || c.phase.Applying? ==> c.ownership == map[]
    requires c.rollbackEvidence.None? && (c.phase.Owns(false) ==> k in Dirty(ev))
    ensures Sound(plan, Recorded(s, c), ev)
    ensures Recorded(s, c).checkpoints == s.checkpoints[..k] + [c]
  {
    hide WithCheckpoint, Dirty, InOrder;
    RecordedAt(plan, s.checkpoints, c, k);
    var t := Recorded(s, c);
    assert t.checkpoints == s.checkpoints[..k] + [c];
    ShapedAdvance(plan, s, t, k, c);
    forall i | 0 <= i < |ev| ensures Accounted(t, ev[i]) {
      AccountedAdvance(s, t, ev[i], k, c);
    }
    forall m | m in Dirty(ev) ensures m < |t.checkpoints| && Live(t.checkpoints[m]) {
      assert Live(s.checkpoints[m]);
    }
  }

  /** Checkpoint `k` is the one being undone: it is not rolled back yet, everything after it is. */
  ghost predicate Undoable(cps: seq<Checkpoint>, k: nat) {
    k < |cps| && !cps[k].phase.RolledBack? && forall m :: k < m < |cps| ==> cps[m].phase.RolledBack?
  }

  /** The moves of the checkpoint being undone: to `rollback_in_progress`, retired from `prepared` without a call, or
      to `rolled_back` with evidence once nothing of it is left. */
  ghost predicate RetireStep(ev: seq<Event>, k: nat, was: Checkpoint, c: Checkpoint) {
    || (c.phase.RollbackInProgress? && c.rollbackEvidence.None? && Live(was))
    || (c.phase.RolledBack? && c.rollbackEvidence.None? && was.phase.Prepared? && c.ownership == map[])
    || (c.phase.RolledBack? && c.rollbackEvidence.Some? && was.phase.RollbackInProgress? && k !in Dirty(ev))
  }

  lemma StagedRetire(cps: seq<Checkpoint>, k: nat, c: Checkpoint)
    requires Staged(cps) && Undoable(cps, k)
    ensures Staged(cps[k := c])
  {
    forall i | 0 <= i < k ensures cps[i].phase.Verified? {
      var frontier := cps[k];
      assert cps[i].phase.Verified? || frontier.phase.RolledBack?;
    }
  }

  lemma AccountedRetire(s: TransactionState, t: TransactionState, e: Event, ev: seq<Event>, k: nat, c: Checkpoint)
    requires Undoable(s.checkpoints, k) && RetireStep(ev, k, s.checkpoints[k], c)
    requires t == s.(checkpoints := s.checkpoints[k := c]) && Accounted(s, e)
    ensures Accounted(t, e)
  {
  }

  lemma ShapeRetire(s: TransactionState, t: TransactionState, actions: nat, k: nat, c: Checkpoint)
    requires Shape(s, actions) && s.status.IsInterrupted() && s.rollbackTarget.Some? && Undoable(s.checkpoints, k)
    requires t == s.(checkpoints := s.checkpoints[k := c])
    ensures Shape(t, actions)
  {
    StagedRetire(s.checkpoints, k, c);
    hide Staged, Undoable;
  }

  lemma Retire(plan: Plan, s: TransactionState, ev: seq<Event>, k: nat, c: Checkpoint)
    requires Sound(plan, s, ev) && s.rollbackTarget.Some? && s.status.IsInterrupted()
    requires Undoable(s.checkpoints, k) && Replaces(s, k, c) && RetireStep(ev, k, s.checkpoints[k], c)
    ensures Sound(plan, Recorded(s, c), ev)
    ensures Recorded(s, c).checkpoints == s.checkpoints[k := c]
  {
    assert Aligned(plan, s.checkpoints[k := c]) && k < |plan.actions| && c.actionId == plan.actions[k].id;
    hide WithCheckpoint, Orderly, InOrder, Staged, Aligned, Shape, Accounted, Undoable, RetireStep, Dirty, Live, Untouched;
    RecordedAt(plan, s.checkpoints, c, k);
    var t := Recorded(s, c);
    ShapeRetire(s, t, |plan.actions|, k, c);
    forall i | 0 <= i < |ev| ensures Accounted(t, ev[i]) {
      AccountedRetire(s, t, ev[i], ev, k, c);
    }
    EntriesRetire(s.checkpoints, ev, k, c);
  }

  lemma EntriesRetire(cps: seq<Checkpoint>, ev: seq<Event>, k: nat, c: Checkpoint)
    requires k < |cps| && RetireStep(ev, k, cps[k], c)
    requires forall i :: 0 <= i < |cps| && (cps[i].phase.Applying? || Untouched(cps[i])) ==> cps[i].ownership == map[]
    requires forall i :: 0 <= i < |cps| && !cps[i].phase.RolledBack? ==> cps[i].rollbackEvidence.None?
    requires forall k <- Dirty(ev) :: k < |cps| && Live(cps[k])
    requires forall i :: 0 <= i < |cps| && cps[i].phase.Owns(false) ==> i in Dirty(ev)
    ensures var out := cps[k := c];
            && (forall i :: 0 <= i < |out| && (out[i].phase.Applying? || Untouched(out[i])) ==> out[i].ownership == map[])
            && (forall i :: 0 <= i < |out| && !out[i].phase.RolledBack? ==> out[i].rollbackEvidence.None?)
            && (forall k <- Dirty(ev) :: k < |out| && Live(out[k]))
            && (forall i :: 0 <= i < |out| && out[i].phase.Owns(false) ==> i in Dirty(ev))
  {
    hide Dirty;
  }

  /** Entering a mutating call while the journal says so. */
  lemma Mutate(plan: Plan, s: TransactionState, ev: seq<Event>, kind: Mutation, k: nat)
    requires Sound(plan, s, ev) && k < |s.checkpoints|
    requires if kind.Repair? then s.status.Active?
             else s.status.Applying? && s.checkpoints[k].phase.Applying? && k + 1 == |s.checkpoints|
    requires kind.Apply? ==> forall i :: 0 <= i < |ev| ==> ev[i].at != k
    ensures Sound(plan, s, ev + [Mutating(kind, k)])
    ensures k in Dirty(ev + [Mutating(kind, k)])
    ensures Unproven(ev + [Mutating(kind, k)]) == Unproven(ev) + {k}
  {
    hide Orderly, InOrder, Aligned, Shape, Identity, Accounted, Live, Untouched, Dirty, Unproven;
    var e := Mutating(kind, k);
    MutateFits(plan, s, ev, kind, k);
    MutateInOrder(s, ev, kind, k);
    OrderlyAppend(ev, e);
    Appended(ev, e);
  }

  lemma MutateFits(plan: Plan, s: TransactionState, ev: seq<Event>, kind: Mutation, k: nat)
    requires Sound(plan, s, ev) && k < |s.checkpoints|
    requires if kind.Repair? then s.status.Active?
             else s.status.Applying? && s.checkpoints[k].phase.Applying? && k + 1 == |s.checkpoints|
    ensures s.rollbackTarget.None? && Accounted(s, Mutating(kind, k)) && Live(s.checkpoints[k])
  {
    hide Orderly, InOrder, Aligned, Identity, Dirty;
  }

  lemma MutateInOrder(s: TransactionState, ev: seq<Event>, kind: Mutation, k: nat)
    requires k < |s.checkpoints| && forall i :: 0 <= i < |ev| ==> Accounted(s, ev[i])
    requires if kind.Repair? then s.status.Active? && s.rollbackTarget.None?
             else s.rollbackTarget.None? && s.checkpoints[k].phase.Applying? && k + 1 == |s.checkpoints|
    requires kind.Apply? ==> forall i :: 0 <= i < |ev| ==> ev[i].at != k
    ensures forall i :: 0 <= i < |ev| ==> InOrder(ev[i], Mutating(kind, k))
  {
    assert forall i :: 0 <= i < |ev| ==> Accounted(s, ev[i]);
  }

  /** Successful evidence for a checkpoint that was changed and not undone. */
  lemma Prove(plan: Plan, s: TransactionState, ev: seq<Event>, k: nat)
    requires Sound(plan, s, ev) && k < |s.checkpoints| && (s.status.Applying? || s.status.Active?)
    requires s.checkpoints[k].phase.Owns(false)
    ensures Sound(plan, s, ev + [Proved(k)])
    ensures Unproven(ev + [Proved(k)]) == Unproven(ev) - {k}
  {
    var e := Proved(k);
    assert forall i :: 0 <= i < |ev| ==> Accounted(s, ev[i]) && InOrder(ev[i], e);
    OrderlyAppend(ev, e);
    Appended(ev, e);
  }

  /** An event that fits what went before and what the journal says. */
  lemma Grow(plan: Plan, s: TransactionState, ev: seq<Event>, e: Event, dirty: set<nat>)
    requires Sound(plan, s, ev) && Accounted(s, e) && forall i :: 0 <= i < |ev| ==> InOrder(ev[i], e)
    requires dirty == Dirty(ev + [e]) && forall k <- dirty :: k < |s.checkpoints| && Live(s.checkpoints[k])
    requires forall i :: 0 <= i < |s.checkpoints| && s.checkpoints[i].phase.Owns(false) ==> i in dirty
    ensures Sound(plan, s, ev + [e])
  {
    hide Orderly, InOrder, Aligned, Shape, Identity, Accounted, Dirty, Live, Untouched;
    OrderlyAppend(ev, e);
  }

  /** An undo of the frontier under the policy chosen comes after whatever is accounted for. */
  lemma UndoInOrder(s: TransactionState, k: nat, a: Event, e: Event)
    requires Undoable(s.checkpoints, k) && s.checkpoints[k].phase.RollbackInProgress? && s.rollbackTarget.Some?
    requires e.IsUndo() && e.at == k
    requires e.Undoing? ==> e.purge == Purges(s) && e.target == s.rollbackTarget.value
    requires Accounted(s, a) && (a.Undoing? && a.at == k ==> !(e.Undoing? && e.how.Rollback?))
    ensures InOrder(a, e)
  {
    hide Purges, Live, Untouched;
  }

  lemma UndoAccounted(s: TransactionState, k: nat, e: Event)
    requires Undoable(s.checkpoints, k) && s.checkpoints[k].phase.RollbackInProgress? && s.rollbackTarget.Some?
    requires e.IsUndo() && e.at == k
    requires e.Undoing? ==> e.purge == Purges(s) && e.target == s.rollbackTarget.value
    ensures Accounted(s, e)
  {
    hide Purges;
  }

  /** Entering an undo of the frontier checkpoint once it is recorded as in progress. */
  lemma EnterUndo(plan: Plan, s: TransactionState, ev: seq<Event>, how: Undo, k: nat)
    requires Sound(plan, s, ev) && s.rollbackTarget.Some?
    requires Undoable(s.checkpoints, k) && s.checkpoints[k].phase.RollbackInProgress?
    requires how.Rollback? ==> forall i :: 0 <= i < |ev| ==> !(ev[i].Undoing? && ev[i].at == k)
    ensures Sound(plan, s, ev + [Undoing(how, k, Purges(s), s.rollbackTarget.value)])
    ensures Unproven(ev + [Undoing(how, k, Purges(s), s.rollbackTarget.value)]) == Unproven(ev)
  {
    var e := Undoing(how, k, Purges(s), s.rollbackTarget.value);
    hide Orderly, InOrder, Aligned, Shape, Identity, Accounted, Undoable, Purges, Dirty, Unproven;
    UndoAccounted(s, k, e);
    forall i | 0 <= i < |ev| ensures InOrder(ev[i], e) {
      UndoInOrder(s, k, ev[i], e);
    }
    Appended(ev, e);
    Grow(plan, s, ev, e, Dirty(ev + [e]));
  }

  lemma CompleteUndo(plan: Plan, s: TransactionState, ev: seq<Event>, k: nat)
    requires Sound(plan, s, ev) && s.rollbackTarget.Some?
    requires Undoable(s.checkpoints, k) && s.checkpoints[k].phase.RollbackInProgress?
    ensures Sound(plan, s, ev + [Undone(k)])
    ensures k !in Dirty(ev + [Undone(k)])
    ensures Unproven(ev + [Undone(k)]) == Unproven(ev)
  {
    var e := Undone(k);
    hide Orderly, InOrder, Aligned, Shape, Identity, Accounted, Undoable, Purges, Dirty, Unproven;
    UndoAccounted(s, k, e);
    forall i | 0 <= i < |ev| ensures InOrder(ev[i], e) {
      UndoInOrder(s, k, ev[i], e);
    }
    Appended(ev, e);
    Grow(plan, s, ev, e, Dirty(ev + [e]));
  }

  /** A change of status only: the checkpoints stay, and a rollback policy once chosen stays. */
  lemma Restate(plan: Plan, s: TransactionState, ev: seq<Event>, t: TransactionState)
    requires Sound(plan, s, ev)
    requires t == s.(status := t.status, error := t.error, purgeData := t.purgeData, rollbackTarget := t.rollbackTarget)
    requires s.rollbackTarget.None? || (t.rollbackTarget == s.rollbackTarget && t.purgeData == s.purgeData)
    requires Shape(t, |plan.actions|)
    ensures Sound(plan, t, ev)
  {
    assert forall i :: 0 <= i < |ev| ==> Accounted(s, ev[i]) && Accounted(t, ev[i]);
  }

  lemma BecomesActive(plan: Plan, s: TransactionState, ev: seq<Event>, t: TransactionState)
    requires Sound(plan, s, ev) && s.status.Applying? && |s.checkpoints| >= |plan.actions|
    requires forall i :: 0 <= i < |plan.actions| ==> s.checkpoints[i].phase.Verified?
    requires t == s.(status := Active, error := None)
    ensures Sound(plan, t, ev)
  {
    Restate(plan, s, ev, t);
  }

  /** A checkpoint not yet `rollback_in_progress` has never been undone. */
  lemma NeverUndone(plan: Plan, s: TransactionState, ev: seq<Event>, k: nat)
    requires Sound(plan, s, ev) && k < |s.checkpoints| && !Retiring(s.checkpoints[k])
    ensures forall i :: 0 <= i < |ev| ==> !(ev[i].Undoing? && ev[i].at == k)
  {
    forall i | 0 <= i < |ev| ensures !(ev[i].Undoing? && ev[i].at == k) {
      assert Accounted(s, ev[i]);
    }
  }

  /** A prepared checkpoint has had no call. */
  lemma NeverCalled(plan: Plan, s: TransactionState, ev: seq<Event>, k: nat)
    requires Sound(plan, s, ev) && k < |s.checkpoints| && s.checkpoints[k].phase.Prepared?
    ensures forall i :: 0 <= i < |ev| ==> ev[i].at != k
  {
    forall i | 0 <= i < |ev| ensures ev[i].at != k {
      assert Accounted(s, ev[i]);
    }
  }

  /** A journal that a rollback to `target` may start from or go on from. */
  ghost predicate Reversible(s: TransactionState, target: RollbackTarget) {
    if s.rollbackTarget.Some? then s.rollbackTarget == Some(target)
    else target.ToRolledBack? && (s.status.Applying? || s.status.Active?)
  }

  lemma BeginsRollback(plan: Plan, s: TransactionState, ev: seq<Event>, t: TransactionState, target: RollbackTarget)
    requires Sound(plan, s, ev) && Reversible(s, target)
    requires t == s.(status := if target.ToUninstalled? then Uninstalling else RollingBack,
                     rollbackTarget := Some(target), error := t.error)
    ensures Sound(plan, t, ev) && (s.rollbackTarget.Some? ==> Purges(t) == Purges(s))
  {
    Restate(plan, s, ev, t);
  }

  lemma EndsRollback(plan: Plan, s: TransactionState, ev: seq<Event>, t: TransactionState, target: RollbackTarget)
    requires Sound(plan, s, ev) && s.rollbackTarget == Some(target) && AllIn(s.checkpoints, Phase.RolledBack)
    requires t == s.(status := target.Final())
    ensures Sound(plan, t, ev)
  {
    Restate(plan, s, ev, t);
  }

  lemma FailsRollback(plan: Plan, s: TransactionState, ev: seq<Event>, t: TransactionState, target: RollbackTarget)
    requires Sound(plan, s, ev) && Reversible(s, target)
    requires t == s.(status := RollbackFailed, rollbackTarget := Some(target), error := t.error)
    ensures Sound(plan, t, ev) && (s.rollbackTarget.Some? ==> Purges(t) == Purges(s))
  {
    Restate(plan, s, ev, t);
  }

  lemma SoundDigest(plan: Plan, s: TransactionState, ev: seq<Event>)
    requires Sound(plan, s, ev)
    ensures plan.digest == s.planDigest == s.acceptedDigest
  {
  }

  /** A verified checkpoint of an active transaction may be replaced by a verified one. */
  lemma Refresh(plan: Plan, s: TransactionState, ev: seq<Event>, k: nat, c: Checkpoint)
    requires Sound(plan, s, ev) && s.status.Active? && Replaces(s, k, c)
    requires c.phase.Verified? && c.rollbackEvidence.None?
    ensures Sound(plan, Recorded(s, c), ev)
    ensures Recorded(s, c).checkpoints == s.checkpoints[k := c]
  {
    hide WithCheckpoint, Dirty, InOrder;
    RecordedAt(plan, s.checkpoints, c, k);
    var t := Recorded(s, c);
    forall i | 0 <= i < |ev| ensures Accounted(t, ev[i]) {
      assert Accounted(s, ev[i]);
    }
  }

  /** What the checkpoints of an active transaction own and hold may be replaced. */
  lemma Reown(plan: Plan, s: TransactionState, ev: seq<Event>, t: TransactionState)
    requires Sound(plan, s, ev) && s.status.Active? && t == s.(checkpoints := t.checkpoints)
    requires |t.checkpoints| == |s.checkpoints|
    requires forall i :: 0 <= i < |s.checkpoints| ==>
               t.checkpoints[i] == s.checkpoints[i].(data := t.checkpoints[i].data, ownership := t.checkpoints[i].ownership)
    ensures Sound(plan, t, ev)
    ensures forall lapsed :: Proven(s, ev, lapsed) ==> Proven(t, ev, lapsed)
  {
    hide Dirty, InOrder, Unproven;
    forall i | 0 <= i < |ev| ensures Accounted(t, ev[i]) {
      assert Accounted(s, ev[i]);
    }
  }

  lemma StaysActive(plan: Plan, s: TransactionState, ev: seq<Event>, t: TransactionState)
    requires Sound(plan, s, ev) && s.status.Active? && t == s.(error := None)
    ensures Sound(plan, t, ev)
  {
    Restate(plan, s, ev, t);
  }

  lemma BeginsUninstall(plan: Plan, s: TransactionState, ev: seq<Event>, t: TransactionState, purge: bool)
    requires Sound(plan, s, ev) && (s.status.Active? || (s.status.Uninstalling? && s.purgeData == Some(purge)))
    requires t == s.(status := Uninstalling, purgeData := Some(purge), rollbackTarget := Some(ToUninstalled), error := None)
    ensures Sound(plan, t, ev) && (s.rollbackTarget.Some? ==> Purges(t) == Purges(s))
  {
    Restate(plan, s, ev, t);
  }

  lemma ProvenSame(s: TransactionState, t: TransactionState, ev: seq<Event>, lapsed: set<nat>)
    requires Proven(s, ev, lapsed) && t.checkpoints == s.checkpoints
    ensures Proven(t, ev, lapsed)
  {
  }

  lemma ProvenMutate(s: TransactionState, ev: seq<Event>, lapsed: set<nat>, kind: Mutation, k: nat)
    requires Proven(s, ev, lapsed) && k < |s.checkpoints| && (kind.Repair? || !s.checkpoints[k].phase.Verified?)
    ensures Proven(s, ev + [Mutating(kind, k)], if kind.Repair? then lapsed + {k} else lapsed)
  {
    assert (ev + [Mutating(kind, k)])[..|ev|] == ev;
  }

  lemma ProvenUndo(s: TransactionState, ev: seq<Event>, lapsed: set<nat>, e: Event)
    requires Proven(s, ev, lapsed) && e.IsUndo()
    ensures Proven(s, ev + [e], lapsed)
  {
    Appended(ev, e);
  }

  lemma ProvenRetire(s: TransactionState, ev: seq<Event>, lapsed: set<nat>, t: TransactionState, k: nat, d: Checkpoint)
    requires Proven(s, ev, lapsed) && k < |s.checkpoints| && t.checkpoints == s.checkpoints[k := d]
    requires !d.phase.Verified?
    ensures Proven(t, ev, lapsed)
  {
  }
}
