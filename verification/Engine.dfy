/** The checkpointed executor (installer/src/engine.rs). Every method may stop anywhere by an ordinary error or by the
    process dying; what it promises of the files on disk holds however it stops. */
module Engine {
  import opened Common
  import opened Json
  import opened Journal
  import opened Protocol
  import opened Files
  import opened Store
  import opened Host

  class TransactionEngine {
    const store: TransactionStore
    const host: Machine
    /** Names of the registered adapters. */
    const registered: set<string>

    constructor (setting: Setting, registered: set<string>)
      ensures fresh(store) && fresh(host) && Inv() && store.journal.None? && host.log == map[]
      ensures host.setting == setting && this.registered == registered
    {
      store := new TransactionStore();
      host := new Machine(setting);
      this.registered := registered;
    }

    ghost function Events(s: TransactionState): seq<Event>
      reads host
    {
      host.LogOf(s.transactionId)
    }

    /** A state that may be written now: it accounts for its calls, and its files stand. */
    ghost predicate Writable(plan: Plan, s: TransactionState)
      reads host
    {
      && Sound(plan, s, Events(s))
      && Proven(s, Events(s), host.lapsed)
      && Grounded(host.setting, s, host.stale, host.tree)
    }

    ghost predicate Current(id: string)
      reads store
    {
      store.journal.Some? && store.journal.value.transactionId == id
    }

    /** The invariant of every run. */
    ghost predicate Inv()
      reads store, host
    {
      && store.Valid()
      && (forall id <- host.log :: Current(id) || Settled(host.log[id]))
      && host.log.Keys <= host.used
      && (store.journal.Some? ==>
            && store.journal.value.transactionId in host.used
            && store.planFile.Some?
            && Writable(store.planFile.value, store.journal.value)
            && (!store.journal.value.status.Active? ==> host.stale == {})
            && forall k <- host.stale :: k < |store.journal.value.checkpoints|)
    }

    /** `state.json` holds `s`, which belongs to `plan`. */
    ghost predicate Holds(plan: Plan, s: TransactionState)
      reads store, host
    {
      Inv() && store.planFile == Some(plan) && store.journal == Some(s)
    }

    /** The derived files say what `state.json` determines. */
    ghost predicate Derived(s: TransactionState)
      reads store
    {
      && OwnDisjoint(s.checkpoints, true)
      && store.ownershipFile == Some(OwnershipFile(OwnUnion(s.checkpoints, true)))
      && store.reportFile == Some(ReportFile(s))
    }

    /** Nothing that undoing needs fails: writes, undos and hooks work, adapters keep to their own paths, and every adapter
        of the plan is there. */
    ghost predicate Smooth(plan: Plan)
      reads store, host
    {
      && !store.faults && !host.undoFaults && !host.setting.conduct.Wild?
      && forall a <- plan.actions :: a.adapter in registered
    }

    /** Nothing fails at all. */
    ghost predicate Calm(plan: Plan)
      reads store, host
    {
      Smooth(plan) && !host.faults
    }

    ghost predicate Finished(s: TransactionState) {
      s.status.RolledBack? || s.status.Uninstalled?
    }

    /** The transaction was given up: it is rolled back, or its rollback is recorded as failed. */
    ghost predicate GivenUp(id: string)
      reads store
    {
      && Current(id) && store.journal.value.rollbackTarget == Some(ToRolledBack)
      && (store.journal.value.status.RolledBack? || store.journal.value.status.RollbackFailed?)
    }

    /** What a failed `resume` of `s` leaves: an apply was given up, a rollback is recorded as failed with its target and
        policy, and what was finished is as it was. */
    ghost predicate Abandoned(s: TransactionState)
      reads store
    {
      if s.status.Applying? then GivenUp(s.transactionId)
      else if s.rollbackTarget.Some? && Reverting(s) then Stuck(s, s.rollbackTarget.value)
      else store.journal == Some(s)
    }

    /** A rollback to `target` under the policy of `s` is recorded as failed. */
    ghost predicate Stuck(s: TransactionState, target: RollbackTarget)
      reads store
    {
      && Current(s.transactionId) && store.journal.value.status.RollbackFailed?
      && store.journal.value.rollbackTarget == Some(target) && store.journal.value.purgeData == s.purgeData
    }

    /** An undo cannot fail on what it was to preserve: nothing is, or adapters are tidy. */
    ghost predicate Yields(purge: bool) {
      purge || host.setting.conduct.Tidy?
    }

    lemma NoneShared(plan: Plan, s: TransactionState)
      requires Writable(plan, s)
      ensures !host.setting.conduct.Wild? || s.checkpoints == [] ==> OwnDisjoint(s.checkpoints, true)
    {
      if !host.setting.conduct.Wild? {
        ConfinedIsDisjoint(host.setting, plan, s, Events(s), host.stale, host.tree, true);
      }
    }

    /** `ownership.json` and `report.json` from the state just written. */
    method WriteDerived(s: TransactionState) returns (r: Result<(), Error>)
      modifies store`ownershipFile, store`reportFile
      ensures r.Ok? ==> Derived(s)
      ensures !store.faults ==> (r.Ok? <==> OwnDisjoint(s.checkpoints, true)) && (r.Ok? || r.error.Ordinary?)
    {
      hide OwnUnion, OwnDisjoint, ReportFile, OwnershipFile;
      var owned := CollectOwnership(s.checkpoints, true);
      if owned.Err? {
        return Err(owned.error);
      }
      r := store.WriteOwnership(owned.value);
      if r.Err? {
        return;
      }
      r := store.WriteReport(ReportFile(s));
    }

    /** `state.json` alone. */
    method WriteState(plan: Plan, s: TransactionState) returns (r: Result<(), Error>)
      requires Inv() && store.planFile == Some(plan) && Writable(plan, s)
      requires (store.journal.None? || Current(s.transactionId)) && s.transactionId in host.used
      requires (!s.status.Active? ==> host.stale == {}) && forall k <- host.stale :: k < |s.checkpoints|
      modifies store`stateFile, store`journal
      ensures Inv() && (store.journal == old(store.journal) || store.journal == Some(s))
      ensures r.Ok? ==> store.journal == Some(s)
      ensures !store.faults ==> r.Ok?
    {
      hide Sound, Grounded, Proven, Validate, StateToValue, Settled;
      SoundValidates(plan, s, Events(s));
      r := store.WriteState(s);
    }

    /** `persist`: `state.json`, then the derived `ownership.json` and `report.json`. */
    method Persist(plan: Plan, s: TransactionState) returns (r: Result<(), Error>)
      requires Inv() && store.planFile == Some(plan) && Writable(plan, s)
      requires (store.journal.None? || Current(s.transactionId)) && s.transactionId in host.used
      requires (!s.status.Active? ==> host.stale == {}) && forall k <- host.stale :: k < |s.checkpoints|
      modifies store`stateFile, store`journal, store`ownershipFile, store`reportFile
      ensures Inv()
      ensures store.journal == old(store.journal) || store.journal == Some(s)
      ensures r.Ok? ==> store.journal == Some(s) && Derived(s)
      ensures !store.faults ==> store.journal == Some(s) && (r.Ok? || r.error.Ordinary?)
      ensures !store.faults && (!host.setting.conduct.Wild? || s.checkpoints == []) ==> r.Ok?
    {
      hide Sound, Grounded, Proven, Validate, StateToValue, OwnUnion, OwnDisjoint, ReportFile, OwnershipFile, Settled;
      NoneShared(plan, s);
      r := WriteState(plan, s);
      if r.Err? {
        return;
      }
      r := WriteDerived(s);
    }

    // ----- applying ------------------------------------------------------------------------

    /** `record`: put a checkpoint into the state and persist it with the adapter's hook. */
    method Record(plan: Plan, s: TransactionState, c: Checkpoint) returns (t: TransactionState, r: Result<(), Error>)
      requires Holds(plan, s) && Writable(plan, Recorded(s, c)) && host.stale == {}
      modifies store`stateFile, store`journal, store`ownershipFile, store`reportFile, host`tree
      ensures t == Recorded(s, c) && Inv() && Writable(plan, t)
      ensures store.journal == Some(s) || store.journal == Some(t)
      ensures r.Ok? ==> store.journal == Some(t)
      ensures !host.setting.conduct.Wild? ==> host.tree == old(host.tree)
      ensures Smooth(plan) ==> r.Ok?
    {
      hide Sound, Settled, Standing, Validate, StateToValue, OwnUnion, OwnDisjoint, ReportFile, OwnershipFile, WithCheckpoint;
      t := Recorded(s, c);
      r := Persist(plan, t);
      if r.Ok? {
        r := host.Look(host.undoFaults);
      }
    }

    /** The transaction `id` of `plan` is still going forward on disk. */
    ghost predicate Forwarding(plan: Plan, id: string)
      reads store, host
    {
      && Inv() && store.planFile == Some(plan) && host.stale == {} && Current(id)
      && (store.journal.value.status.Applying? || store.journal.value.status.Active?)
    }

    /** Actions before `k` are verified and nothing after `k` is begun. */
    ghost predicate UpTo(plan: Plan, s: TransactionState, k: nat) {
      && s.status.Applying? && k <= |s.checkpoints| && k <= |plan.actions|
      && forall i :: 0 <= i < k ==> s.checkpoints[i].phase.Verified?
    }

    /** The files of the checkpoints of `t` stand if those of `s` do and the one that differs does. */
    lemma StandsAfter(w: Setting, s: TransactionState, t: TransactionState, stale: set<nat>, tree: Tree, k: nat)
      requires k < |t.checkpoints| && |s.checkpoints| <= |t.checkpoints| <= |s.checkpoints| + 1
      requires |t.checkpoints| == |s.checkpoints| + 1 ==> k == |s.checkpoints|
      requires forall i :: 0 <= i < |t.checkpoints| && i != k ==> t.checkpoints[i] == s.checkpoints[i]
      requires Purges(t) == Purges(s)
      requires !w.conduct.Wild? ==>
                 && Standing(w, t.checkpoints[k], Purges(t), k in stale, tree)
                 && forall i :: 0 <= i < |s.checkpoints| && i != k ==>
                      Standing(w, s.checkpoints[i], Purges(s), i in stale, tree)
      ensures Grounded(w, t, stale, tree)
    {
    }

    /** A checkpoint holds its data, and owns what that declares as it is. */
    ghost predicate IsCaptured(a: Action, c: Checkpoint, tree: Tree) {
      Captures(a, c.data, tree) && c.ownership == Captured(a, c.data, tree)
    }

    /** Enter a mutating call that the journal on disk allows. A repair makes the recorded files of the action stale. */
    method Enter(kind: Mutation, plan: Plan, s: TransactionState, k: nat) returns (data: Result<map<string, Value>, Error>)
      requires Holds(plan, s) && k < |s.checkpoints| && k < |plan.actions|
      requires if kind.Repair? then s.status.Active?
               else s.status.Applying? && s.checkpoints[k].phase.Applying? && k + 1 == |s.checkpoints|
      requires kind.Apply? ==> forall i :: 0 <= i < |Events(s)| ==> Events(s)[i].at != k
      modifies host`tree, host`log, host`stale, host`lapsed
      ensures Holds(plan, s) && host.stale == old(host.stale) + (if kind.Repair? then {k} else {})
      ensures k in Dirty(Events(s))
      ensures data.Ok? && !host.setting.conduct.Wild? ==> DeclaresOwn(host.setting, plan.actions[k], data.value)
      ensures !host.faults ==> data.Ok? && Captures(plan.actions[k], data.value, host.tree)
    {
      hide Sound, Settled, Standing, Validate, StateToValue, OwnUnion, OwnDisjoint, ReportFile, OwnershipFile, WithCheckpoint;
      hide Captures, AgreesOff, DeclaresOwn, Grounded, Proven, Dirty, Unproven;
      assert kind.Repair? ==> s.checkpoints[k].phase.Verified? by {
        SoundFacts(plan, s, Events(s));
      }
      ghost var before, stale, ev := host.tree, host.stale, Events(s);
      Protocol.Mutate(plan, s, ev, kind, k);
      ProvenMutate(s, ev, host.lapsed, kind, k);
      data := host.Mutate(kind, plan.actions[k], s.checkpoints[k].data, s.transactionId, k);
      ChangedGrounded(host.setting, plan, s, ev, stale, kind.Repair?, k, before, host.tree);
    }

    /** A mutating call, and the capture of what the action owns after it. */
    method Change(kind: Mutation, plan: Plan, s: TransactionState, k: nat)
      returns (r: Result<(map<string, Value>, Ownership), Error>)
      requires Holds(plan, s) && k < |s.checkpoints| && k < |plan.actions|
      requires if kind.Repair? then s.status.Active?
               else s.status.Applying? && s.checkpoints[k].phase.Applying? && k + 1 == |s.checkpoints|
      requires kind.Apply? ==> forall i :: 0 <= i < |Events(s)| ==> Events(s)[i].at != k
      modifies host`tree, host`log, host`stale, host`lapsed
      ensures Holds(plan, s) && host.stale == old(host.stale) + (if kind.Repair? then {k} else {})
      ensures k in Dirty(Events(s))
      ensures r.Ok? ==>
                && Captures(plan.actions[k], r.value.0, host.tree)
                && r.value.1 == Captured(plan.actions[k], r.value.0, host.tree)
                && (!host.setting.conduct.Wild? ==> DeclaresOwn(host.setting, plan.actions[k], r.value.0))
      ensures Calm(plan) ==> r.Ok?
    {
      hide Inv, Captures, Captured, DeclaresOwn, Dirty;
      var data := Enter(kind, plan, s, k);
      if data.Err? {
        return Err(data.error);
      }
      var own := CaptureOwnership(plan.actions[k], data.value, host.tree);
      r := if own.Err? then Err(own.error) else Ok((data.value, own.value));
    }

    /** Run a forward mutation recorded as `applying` and record what it owns as `applied`. */
    method Execute(kind: Mutation, plan: Plan, s: TransactionState, k: nat)
      returns (t: TransactionState, r: Result<(), Error>)
      requires Holds(plan, s) && host.stale == {} && UpTo(plan, s, k) && k + 1 == |s.checkpoints|
      requires s.checkpoints[k].phase.Applying? && !kind.Repair?
      requires kind.Apply? ==> forall i :: 0 <= i < |Events(s)| ==> Events(s)[i].at != k
      modifies store`stateFile, store`journal, store`ownershipFile, store`reportFile
      modifies host`tree, host`log, host`shown, host`stale, host`lapsed
      ensures Forwarding(plan, s.transactionId)
      ensures r.Ok? ==> store.journal == Some(t) && UpTo(plan, t, k) && k + 1 == |t.checkpoints|
                        && t.checkpoints[k].phase.Applied? && t.transactionId == s.transactionId
      ensures r.Ok? ==>
                && t == Recorded(s, s.checkpoints[k].(phase := Applied, data := t.checkpoints[k].data,
                                                      ownership := t.checkpoints[k].ownership))
                && (!host.setting.conduct.Wild? ==> IsCaptured(plan.actions[k], t.checkpoints[k], host.tree))
      ensures Calm(plan) ==> r.Ok?
    {
      hide Sound, Settled, Standing, Validate, StateToValue, OwnUnion, OwnDisjoint, ReportFile, OwnershipFile, WithCheckpoint;
      hide Captures, Captured, DeclaresOwn;
      t := s;
      SoundFacts(plan, s, Events(s));
      var changed := Change(kind, plan, s, k);
      if changed.Err? {
        return t, Err(changed.error);
      }
      var c := s.checkpoints[k].(phase := Applied, data := changed.value.0, ownership := changed.value.1);
      Advance(plan, s, Events(s), k, c);
      if !host.setting.conduct.Wild? {
        CapturedStands(host.setting, plan.actions[k], changed.value.0, c, Purges(s), false, host.tree);
      }
      StandsAfter(host.setting, s, Recorded(s, c), host.stale, host.tree, k);
      t, r := Record(plan, s, c);
    }

    /** Record action `k` as prepared, then as applying, before its adapter changes anything, and apply it. */
    method FirstApply(plan: Plan, s: TransactionState, k: nat) returns (t: TransactionState, r: Result<(), Error>)
      requires Holds(plan, s) && host.stale == {} && UpTo(plan, s, k) && k + 1 == |s.checkpoints|
      requires s.checkpoints[k].phase.Prepared?
      modifies store`stateFile, store`journal, store`ownershipFile, store`reportFile
      modifies host`tree, host`log, host`shown, host`stale, host`lapsed
      ensures Forwarding(plan, s.transactionId)
      ensures r.Ok? ==> store.journal == Some(t) && UpTo(plan, t, k) && k + 1 == |t.checkpoints|
                        && t.checkpoints[k].phase.Applied? && t.transactionId == s.transactionId
      ensures Calm(plan) ==> r.Ok?
    {
      hide Sound, Settled, Standing, Validate, StateToValue, OwnUnion, OwnDisjoint, ReportFile, OwnershipFile, WithCheckpoint;
      SoundFacts(plan, s, Events(s));
      var c := s.checkpoints[k].(phase := Phase.Applying);
      EmptyStands(host.setting, c, Purges(s), false, host.tree);
      Advance(plan, s, Events(s), k, c);
      StandsAfter(host.setting, s, Recorded(s, c), host.stale, host.tree, k);
      NeverCalled(plan, s, Events(s), k);
      t, r := Record(plan, s, c);
      if r.Ok? {
        t, r := Execute(Mutation.Apply, plan, t, k);
      }
    }

    /** `verify`: the adapter proves the action's result with evidence of its own. */
    method Verify(plan: Plan, s: TransactionState, k: nat) returns (r: Result<Evidence, Error>)
      requires Holds(plan, s) && k < |s.checkpoints| && k < |plan.actions|
      requires (s.status.Applying? || s.status.Active?) && s.checkpoints[k].phase.Owns(false)
      modifies host`tree, host`log, host`shown
      ensures Holds(plan, s)
      ensures !host.setting.conduct.Wild? ==> host.tree == old(host.tree)
      ensures r.Ok? ==> Unproven(Events(s)) == old(Unproven(Events(s))) - {k}
      ensures r.Ok? ==> r.value.record == host.shown
      ensures Calm(plan) ==> r.Ok?
    {
      hide Sound, Settled, Standing, Validate, StateToValue, OwnUnion, OwnDisjoint, ReportFile, OwnershipFile, WithCheckpoint;
      hide Unproven;
      var a := plan.actions[k];
      if a.adapter !in registered {
        return Err(TransactionError("adapter is unavailable: " + a.adapter));
      }
      Prove(plan, s, Events(s), k);
      r := host.Verify(a, s.transactionId, k);
      if r.Ok? && r.value.actionId != a.id {
        return Err(TransactionError("adapter returned invalid evidence: " + a.adapter));
      }
      if r.Ok? && !r.value.success {
        return Err(TransactionError("adapter verification failed: " + a.adapter));
      }
    }

    method VerifyApplied(plan: Plan, s: TransactionState, k: nat) returns (t: TransactionState, r: Result<(), Error>)
      requires Holds(plan, s) && host.stale == {} && UpTo(plan, s, k) && k + 1 == |s.checkpoints|
      requires s.checkpoints[k].phase.Applied?
      modifies store`stateFile, store`journal, store`ownershipFile, store`reportFile, host`tree, host`log, host`shown
      ensures Forwarding(plan, s.transactionId)
      ensures r.Ok? ==> store.journal == Some(t) && UpTo(plan, t, k + 1) && t.transactionId == s.transactionId
      ensures r.Ok? ==> t == Recorded(s, s.checkpoints[k].(phase := Verified, evidence := Some(host.shown)))
      ensures Calm(plan) ==> r.Ok?
    {
      hide Sound, Settled, Standing, Validate, StateToValue, OwnUnion, OwnDisjoint, ReportFile, OwnershipFile, WithCheckpoint;
      t := s;
      SoundFacts(plan, s, Events(s));
      var evidence := Verify(plan, s, k);
      if evidence.Err? {
        return t, Err(evidence.error);
      }
      SoundFacts(plan, s, Events(s));
      var c := s.checkpoints[k].(phase := Verified, evidence := Some(evidence.value.record));
      Advance(plan, s, Events(s), k, c);
      if !host.setting.conduct.Wild? {
        VerifiedStands(host.setting, s.checkpoints[k], c, Purges(s), false, host.tree);
      }
      StandsAfter(host.setting, s, Recorded(s, c), host.stale, host.tree, k);
      t, r := Record(plan, s, c);
    }

    method PrepareAction(plan: Plan, s: TransactionState, k: nat) returns (t: TransactionState, r: Result<(), Error>)
      requires Holds(plan, s) && host.stale == {} && UpTo(plan, s, k) && k == |s.checkpoints| < |plan.actions|
      modifies store`stateFile, store`journal, store`ownershipFile, store`reportFile, host`tree
      ensures Forwarding(plan, s.transactionId)
      ensures r.Ok? ==> store.journal == Some(t) && UpTo(plan, t, k) && t.transactionId == s.transactionId
                        && k + 1 == |t.checkpoints| && t.checkpoints[k].phase.Prepared?
      ensures Calm(plan) ==> r.Ok?
    {
      hide Sound, Settled, Standing, Validate, StateToValue, OwnUnion, OwnDisjoint, ReportFile, OwnershipFile, WithCheckpoint;
      t := s;
      var a := plan.actions[k];
      var data := host.Prepare(a);
      assert Holds(plan, s);
      if data.Err? {
        return t, Err(data.error);
      }
      var c := Checkpoint(a.id, a.adapter, Prepared, data.value, map[], None, None);
      Advance(plan, s, Events(s), k, c);
      EmptyStands(host.setting, c, Purges(s), false, host.tree);
      StandsAfter(host.setting, s, Recorded(s, c), host.stale, host.tree, k);
      t, r := Record(plan, s, c);
    }

    /** One turn of `continue_apply`: take action `k` from wherever the journal left it to verified. */
    method ApplyAction(plan: Plan, s: TransactionState, k: nat) returns (t: TransactionState, r: Result<(), Error>)
      requires Holds(plan, s) && host.stale == {} && UpTo(plan, s, k) && k < |plan.actions|
      modifies store`stateFile, store`journal, store`ownershipFile, store`reportFile
      modifies host`tree, host`log, host`shown, host`stale, host`lapsed
      ensures Forwarding(plan, s.transactionId)
      ensures r.Ok? ==> store.journal == Some(t) && UpTo(plan, t, k + 1) && t.transactionId == s.transactionId
      ensures Calm(plan) ==> r.Ok?
    {
      hide Sound, Settled, Standing, Validate, StateToValue, OwnUnion, OwnDisjoint, ReportFile, OwnershipFile, WithCheckpoint;
      t := s;
      SoundFacts(plan, s, Events(s));
      var a := plan.actions[k];
      if a.adapter !in registered {
        return t, Err(TransactionError("adapter is unavailable: " + a.adapter));
      }
      FoundAt(plan, s.checkpoints, k);
      var found := FindCheckpoint(s.checkpoints, a.id);
      if found.None? {
        t, r := PrepareAction(plan, s, k);
        if r.Err? {
          return;
        }
        SoundFacts(plan, t, Events(t));
      }
      var phase := t.checkpoints[k].phase;
      // "cannot apply a rolled-back checkpoint" is unreachable
      assert !phase.RollbackInProgress? && !phase.RolledBack?;
      if phase.Prepared? {
        t, r := FirstApply(plan, t, k);
      } else if phase.Applying? {
        t, r := Execute(ReconcileApply, plan, t, k);
      } else {
        r := Ok(());
      }
      if r.Err? {
        return;
      }
      if t.checkpoints[k].phase.Applied? {
        t, r := VerifyApplied(plan, t, k);
      }
    }

    /** `continue_apply`: every action of the plan in order, then the transaction is active. */
    method ContinueApply(plan: Plan, s: TransactionState) returns (r: Result<TransactionState, Error>)
      requires Holds(plan, s) && host.stale == {} && s.status.Applying?
      modifies store`stateFile, store`journal, store`ownershipFile, store`reportFile
      modifies host`tree, host`log, host`shown, host`stale, host`lapsed
      ensures Forwarding(plan, s.transactionId)
      ensures r.Ok? ==> store.journal == Some(r.value) && r.value.status.Active? && Derived(r.value)
      ensures Calm(plan) ==> r.Ok?
    {
      hide Sound, Settled, Standing, Validate, StateToValue, OwnUnion, OwnDisjoint, ReportFile, OwnershipFile, WithCheckpoint;
      var t := s;
      SoundFacts(plan, s, Events(s));
      for k := 0 to |plan.actions|
        invariant Holds(plan, t) && host.stale == {} && UpTo(plan, t, k) && t.transactionId == s.transactionId
      {
        var step;
        t, step := ApplyAction(plan, t, k);
        if step.Err? {
          return Err(step.error);
        }
      }
      var done := t.(status := Active, error := None);
      BecomesActive(plan, t, Events(t), done);
      var written := Persist(plan, done);
      if written.Err? {
        return Err(written.error);
      }
      return Ok(done);
    }

    // ----- undoing -------------------------------------------------------------------------

    /** `t` is a later memory of the rollback that `s` is in: same transaction, same policy, writable now. */
    ghost predicate Reversing(plan: Plan, s: TransactionState, t: TransactionState)
      reads store, host
    {
      && Inv() && store.planFile == Some(plan) && host.stale == {} && Current(s.transactionId)
      && Writable(plan, t) && t.transactionId == s.transactionId
      && t.rollbackTarget == s.rollbackTarget && t.purgeData == s.purgeData && t.status == s.status && t.error == s.error
    }

    /** A rollback is under way in `s`, and checkpoint `k` is the next to undo. */
    ghost predicate Undoes(plan: Plan, s: TransactionState, k: nat)
      reads store, host
    {
      && Holds(plan, s) && host.stale == {} && s.rollbackTarget.Some? && s.status.IsInterrupted()
      && Undoable(s.checkpoints, k)
    }

    /** Enter an undo that the journal on disk allows. */
    method EnterUndoing(how: Undo, plan: Plan, s: TransactionState, k: nat, purge: bool, target: RollbackTarget)
      returns (evidence: Result<Evidence, Error>)
      requires Undoes(plan, s, k) && s.checkpoints[k].phase.RollbackInProgress?
      requires purge == Purges(s) && s.rollbackTarget == Some(target)
      requires how.Rollback? ==> forall i :: 0 <= i < |Events(s)| ==> !(Events(s)[i].Undoing? && Events(s)[i].at == k)
      modifies host`tree, host`log, host`shown
      ensures Undoes(plan, s, k)
      ensures evidence.Ok? && evidence.value.success ==> k !in Dirty(Events(s))
      ensures host.setting.conduct.Tidy? && !purge ==>
                Intact(host.tree, host.setting.agentManaged, Preserved(s.checkpoints[k].ownership))
      ensures evidence.Ok? ==> evidence.value.record == host.shown
      ensures !host.undoFaults ==> evidence.Ok? && evidence.value.success
    {
      hide Sound, Settled, Standing, Validate, StateToValue, OwnUnion, OwnDisjoint, ReportFile, OwnershipFile, WithCheckpoint;
      hide UndoesTidily, AgreesOff, Intact, Preserved, Dirty, Grounded, Proven, Unproven;
      SoundFacts(plan, s, Events(s));
      var a, c := plan.actions[k], s.checkpoints[k];
      ghost var before, ev := host.tree, Events(s);
      ghost var entered := ev + [Undoing(how, k, purge, target)];
      EnterUndo(plan, s, ev, how, k);
      CompleteUndo(plan, s, entered, k);
      ProvenUndo(s, ev, host.lapsed, Undoing(how, k, purge, target));
      ProvenUndo(s, entered, host.lapsed, Undone(k));
      assert entered + [] == entered;
      evidence := host.Undo(how, a, c.data, purge, target, c.ownership, s.transactionId, k);
      UndoneGrounded(host.setting, plan, s, ev, k, before, host.tree);
    }

    lemma UndoesFacts(plan: Plan, s: TransactionState, k: nat)
      requires Undoes(plan, s, k)
      ensures k < |plan.actions| && k < |s.checkpoints| && Reversing(plan, s, s)
    {
      hide Sound, Grounded, Proven, Validate, StateToValue, Settled;
      SoundFacts(plan, s, Events(s));
    }

    /** Record checkpoint `k` as rolled back once nothing of it is left undone. */
    method RecordUndone(plan: Plan, s: TransactionState, k: nat, record: map<string, Value>)
      returns (t: TransactionState, r: Result<(), Error>)
      requires Undoes(plan, s, k) && s.checkpoints[k].phase.RollbackInProgress? && k !in Dirty(Events(s))
      requires !Purges(s) ==> Intact(host.tree, host.setting.agentManaged, Preserved(s.checkpoints[k].ownership))
      modifies store`stateFile, store`journal, store`ownershipFile, store`reportFile
      ensures Reversing(plan, s, t)
      ensures r.Ok? ==> store.journal == Some(t) && |t.checkpoints| == |s.checkpoints| && t.checkpoints[k].phase.RolledBack?
                        && forall i :: 0 <= i < |s.checkpoints| && i != k ==> t.checkpoints[i] == s.checkpoints[i]
      ensures r.Ok? ==>
                t.checkpoints[k] == s.checkpoints[k].(phase := Phase.RolledBack, rollbackEvidence := Some(record))
      ensures Smooth(plan) ==> r.Ok?
    {
      hide Sound, Settled, Standing, Validate, StateToValue, OwnUnion, OwnDisjoint, ReportFile, OwnershipFile, WithCheckpoint;
      hide Intact, Preserved, Dirty, Grounded, Proven, Unproven;
      SoundFacts(plan, s, Events(s));
      var d := s.checkpoints[k].(phase := Phase.RolledBack, rollbackEvidence := Some(record));
      t := Recorded(s, d);
      Retire(plan, s, Events(s), k, d);
      ProvenRetire(s, Events(s), host.lapsed, t, k, d);
      RetiredGrounded(host.setting, s, t, k, d, host.tree);
      r := Persist(plan, t);
    }

    /** Call the adapter to undo checkpoint `k`, already recorded as in progress, and record the result. */
    method UndoNow(how: Undo, plan: Plan, s: TransactionState, k: nat, purge: bool, target: RollbackTarget)
      returns (t: TransactionState, r: Result<(), Error>)
      requires Undoes(plan, s, k) && s.checkpoints[k].phase.RollbackInProgress?
      requires purge == Purges(s) && s.rollbackTarget == Some(target)
      requires how.Rollback? ==> forall i :: 0 <= i < |Events(s)| ==> !(Events(s)[i].Undoing? && Events(s)[i].at == k)
      modifies store`stateFile, store`journal, store`ownershipFile, store`reportFile, host`tree, host`log, host`shown
      ensures Reversing(plan, s, t)
      ensures r.Ok? ==> store.journal == Some(t) && |t.checkpoints| == |s.checkpoints| && t.checkpoints[k].phase.RolledBack?
                        && forall i :: 0 <= i < |s.checkpoints| && i != k ==> t.checkpoints[i] == s.checkpoints[i]
      ensures r.Ok? ==> t.checkpoints[k].rollbackEvidence == Some(host.shown)
      ensures Smooth(plan) && Yields(purge) ==> r.Ok?
    {
      hide Inv, Preserved, Intact, Dirty;
      t := s;
      UndoesFacts(plan, s, k);
      var a, c := plan.actions[k], s.checkpoints[k];
      var evidence := EnterUndoing(how, plan, s, k, purge, target);
      UndoesFacts(plan, s, k);
      if evidence.Err? {
        return t, Err(evidence.error);
      }
      if !evidence.value.success {
        return t, Err(TransactionError("adapter rollback failed: " + a.adapter));
      }
      if !purge {
        r := AssertOwned(host.tree, host.setting.agentManaged, Preserved(c.ownership));
        if r.Err? {
          return;
        }
      }
      t, r := RecordUndone(plan, s, k, evidence.value.record);
    }

    /** Record checkpoint `k` as `rollback_in_progress`. */
    method BeginUndo(plan: Plan, s: TransactionState, k: nat) returns (t: TransactionState, r: Result<(), Error>)
      requires Undoes(plan, s, k) && Live(s.checkpoints[k])
      modifies store`stateFile, store`journal, store`ownershipFile, store`reportFile, host`tree
      ensures Reversing(plan, s, t)
      ensures |t.checkpoints| == |s.checkpoints| && t.checkpoints[k].phase.RollbackInProgress?
      ensures forall i :: 0 <= i < |s.checkpoints| && i != k ==> t.checkpoints[i] == s.checkpoints[i]
      ensures r.Ok? ==> Undoes(plan, t, k)
      ensures t.checkpoints[k].ownership == s.checkpoints[k].ownership
      ensures !host.setting.conduct.Wild? ==> host.tree == old(host.tree)
      ensures Smooth(plan) ==> r.Ok?
    {
      hide Sound, Settled, Standing, Validate, StateToValue, OwnUnion, OwnDisjoint, ReportFile, OwnershipFile, WithCheckpoint;
      SoundFacts(plan, s, Events(s));
      var c := s.checkpoints[k];
      var d := c.(phase := RollbackInProgress);
      Retire(plan, s, Events(s), k, d);
      if !host.setting.conduct.Wild? {
        if c.phase.Applied? || c.phase.Verified? {
          InProgressStands(host.setting, c, d, Purges(s), host.tree);
        } else if c.phase.Applying? {
          EmptyStands(host.setting, d, Purges(s), false, host.tree);
        }
      }
      StandsAfter(host.setting, s, Recorded(s, d), host.stale, host.tree, k);
      t, r := Record(plan, s, d);
    }

    /** Retire a checkpoint that was only prepared; its adapter is not called. */
    method RetirePrepared(plan: Plan, s: TransactionState, k: nat) returns (t: TransactionState, r: Result<(), Error>)
      requires Undoes(plan, s, k) && s.checkpoints[k].phase.Prepared?
      modifies store`stateFile, store`journal, store`ownershipFile, store`reportFile
      ensures Reversing(plan, s, t)
      ensures r.Ok? ==> store.journal == Some(t) && |t.checkpoints| == |s.checkpoints| && t.checkpoints[k].phase.RolledBack?
                        && forall i :: 0 <= i < |s.checkpoints| && i != k ==> t.checkpoints[i] == s.checkpoints[i]
      ensures Smooth(plan) ==> r.Ok?
    {
      hide Sound, Settled, Standing, Validate, StateToValue, OwnUnion, OwnDisjoint, ReportFile, OwnershipFile, WithCheckpoint;
      SoundFacts(plan, s, Events(s));
      var d := s.checkpoints[k].(phase := Phase.RolledBack);
      t := Recorded(s, d);
      Retire(plan, s, Events(s), k, d);
      EmptyStands(host.setting, d, Purges(s), false, host.tree);
      StandsAfter(host.setting, s, t, host.stale, host.tree, k);
      r := Persist(plan, t);
    }

    /** Undo an applied or verified checkpoint after proving that every path it owns is untouched. */
    method UndoOwned(plan: Plan, s: TransactionState, k: nat, purge: bool, target: RollbackTarget)
      returns (t: TransactionState, r: Result<(), Error>)
      requires Undoes(plan, s, k) && purge == Purges(s) && s.rollbackTarget == Some(target)
      requires s.checkpoints[k].phase.Applied? || s.checkpoints[k].phase.Verified?
      modifies store`stateFile, store`journal, store`ownershipFile, store`reportFile, host`tree, host`log, host`shown
      ensures Reversing(plan, s, t)
      ensures r.Ok? ==> store.journal == Some(t) && |t.checkpoints| == |s.checkpoints| && t.checkpoints[k].phase.RolledBack?
                        && forall i :: 0 <= i < |s.checkpoints| && i != k ==> t.checkpoints[i] == s.checkpoints[i]
      ensures Smooth(plan) && Yields(purge) ==> r.Ok?
    {
      hide Sound, Settled, Standing, Validate, StateToValue, OwnUnion, OwnDisjoint, ReportFile, OwnershipFile, WithCheckpoint;
      hide Intact, ReconcileSafe;
      t := s;
      var c := s.checkpoints[k];
      if !host.setting.conduct.Wild? {
        OwnedIsIntact(host.setting, c, Purges(s), host.tree);
      }
      r := AssertOwned(host.tree, host.setting.agentManaged, c.ownership);
      if r.Err? {
        return;
      }
      NeverUndone(plan, s, Events(s), k);
      t, r := BeginUndo(plan, s, k);
      if r.Ok? {
        t, r := UndoNow(Undo.Rollback, plan, t, k, purge, target);
      }
    }

    /** Undo a checkpoint a crash left `applying` or `rollback_in_progress`; owned paths may already be gone. */
    method UndoInterrupted(plan: Plan, s: TransactionState, k: nat, purge: bool, target: RollbackTarget)
      returns (t: TransactionState, r: Result<(), Error>)
      requires Undoes(plan, s, k) && purge == Purges(s) && s.rollbackTarget == Some(target)
      requires s.checkpoints[k].phase.Applying? || s.checkpoints[k].phase.RollbackInProgress?
      modifies store`stateFile, store`journal, store`ownershipFile, store`reportFile, host`tree, host`log, host`shown
      ensures Reversing(plan, s, t)
      ensures r.Ok? ==> store.journal == Some(t) && |t.checkpoints| == |s.checkpoints| && t.checkpoints[k].phase.RolledBack?
                        && forall i :: 0 <= i < |s.checkpoints| && i != k ==> t.checkpoints[i] == s.checkpoints[i]
      ensures Smooth(plan) && Yields(purge) ==>
                (r.Ok? <==> old(MayGoOn(s.checkpoints[k], host.setting.agentManaged, host.tree, purge)))
    {
      hide Sound, Settled, Standing, Validate, StateToValue, OwnUnion, OwnDisjoint, ReportFile, OwnershipFile, WithCheckpoint;
      hide Intact, ReconcileSafe;
      t := s;
      SoundFacts(plan, s, Events(s));
      NothingOwned(host.tree, host.setting.agentManaged, purge);
      if s.checkpoints[k].phase.Applying? {
        t, r := BeginUndo(plan, s, k);
        if r.Err? {
          return;
        }
      }
      r := AssertReconcileSafe(host.tree, host.setting.agentManaged, t.checkpoints[k].ownership, purge);
      if r.Ok? {
        t, r := UndoNow(ReconcileRollback, plan, t, k, purge, target);
      }
    }

    /** One turn of `rollback_steps`: undo checkpoint `k` from wherever the journal left it. */
    method UndoCheckpoint(plan: Plan, s: TransactionState, k: nat, purge: bool, target: RollbackTarget)
      returns (t: TransactionState, r: Result<(), Error>)
      requires Undoes(plan, s, k) && purge == Purges(s) && s.rollbackTarget == Some(target)
      modifies store`stateFile, store`journal, store`ownershipFile, store`reportFile, host`tree, host`log, host`shown
      ensures Reversing(plan, s, t)
      ensures r.Ok? ==> store.journal == Some(t) && |t.checkpoints| == |s.checkpoints| && t.checkpoints[k].phase.RolledBack?
                        && forall i :: 0 <= i < |s.checkpoints| && i != k ==> t.checkpoints[i] == s.checkpoints[i]
      ensures Smooth(plan) && Yields(purge) ==>
                (r.Ok? <==> old(MayGoOn(s.checkpoints[k], host.setting.agentManaged, host.tree, purge)))
    {
      hide Sound, Settled, Standing, Validate, StateToValue, OwnUnion, OwnDisjoint, ReportFile, OwnershipFile, WithCheckpoint;
      hide Intact, ReconcileSafe;
      t := s;
      SoundFacts(plan, s, Events(s));
      var a, c := plan.actions[k], s.checkpoints[k];
      // "checkpoint does not belong to the persisted plan" is unreachable
      assert a.id == c.actionId && a.adapter == c.adapter;
      if c.phase.Prepared? {
        t, r := RetirePrepared(plan, s, k);
      } else if a.adapter !in registered {
        r := Err(TransactionError("adapter is unavailable: " + a.adapter));
      } else if c.phase.Applied? || c.phase.Verified? {
        t, r := UndoOwned(plan, s, k, purge, target);
      } else {
        t, r := UndoInterrupted(plan, s, k, purge, target);
      }
    }

    /** `assert_all_owned`: every path of every applied or verified checkpoint is intact. */
    method AssertAllOwned(plan: Plan, s: TransactionState) returns (r: Result<(), Error>)
      requires Sound(plan, s, Events(s)) && Grounded(host.setting, s, host.stale, host.tree)
      ensures r.Ok? ==> AllOwned(host.setting.agentManaged, s, host.tree)
      ensures !host.setting.conduct.Wild? && AllOwned(host.setting.agentManaged, s, host.tree) ==> r.Ok?
      ensures !host.setting.conduct.Wild? && host.stale == {} ==> r.Ok?
    {
      hide Sound, Settled, Standing, Validate, StateToValue, OwnUnion, OwnDisjoint, ReportFile, OwnershipFile, WithCheckpoint;
      if !host.setting.conduct.Wild? {
        ConfinedIsDisjoint(host.setting, plan, s, Events(s), host.stale, host.tree, false);
      }
      if !host.setting.conduct.Wild? && host.stale == {} {
        GroundedIsOwned(host.setting, s, host.tree);
      }
      var owned := CollectOwnership(s.checkpoints, false);
      if owned.Err? {
        return Err(owned.error);
      }
      r := AssertOwned(host.tree, host.setting.agentManaged, owned.value);
      OwnedPathByPath(s.checkpoints, host.setting.agentManaged, host.tree);
    }

    /** Undo every checkpoint from the last to the first. */
    method UndoAll(plan: Plan, s: TransactionState, purge: bool, target: RollbackTarget)
      returns (t: TransactionState, r: Result<(), Error>)
      requires Holds(plan, s) && host.stale == {} && s.status.IsInterrupted()
      requires purge == Purges(s) && s.rollbackTarget == Some(target)
      modifies store`stateFile, store`journal, store`ownershipFile, store`reportFile, host`tree, host`log, host`shown
      ensures Reversing(plan, s, t)
      ensures r.Ok? ==> store.journal == Some(t) && AllIn(t.checkpoints, Phase.RolledBack)
      ensures Smooth(plan) && Yields(purge) ==>
                (r.Ok? <==> old(AllMayGoOn(s.checkpoints, host.setting.agentManaged, host.tree, purge)))
    {
      hide Sound, Settled, Standing, Validate, StateToValue, OwnUnion, OwnDisjoint, ReportFile, OwnershipFile, WithCheckpoint;
      hide Grounded, Proven, AllMayGoOn, MayGoOn;
      t := s;
      var k := |t.checkpoints|;
      while k > 0
        invariant 0 <= k <= |t.checkpoints| == |s.checkpoints|
        invariant Reversing(plan, s, t) && store.journal == Some(t)
        invariant forall m :: k <= m < |t.checkpoints| ==> t.checkpoints[m].phase.RolledBack?
        invariant Smooth(plan) && Yields(purge) ==>
                    (AllMayGoOn(t.checkpoints, host.setting.agentManaged, host.tree, purge)
                     <==> old(AllMayGoOn(s.checkpoints, host.setting.agentManaged, host.tree, purge)))
      {
        k := k - 1;
        if !t.checkpoints[k].phase.RolledBack? {
          SoundIsStaged(plan, t, Events(t));
          NextToUndo(t.checkpoints, k, host.setting.agentManaged, host.tree, purge);
          t, r := UndoCheckpoint(plan, t, k, purge, target);
          if r.Err? {
            return;
          }
          NoneInProgress(t.checkpoints, host.setting.agentManaged, host.tree, purge);
        }
      }
      NoneInProgress(t.checkpoints, host.setting.agentManaged, host.tree, purge);
      r := Ok(());
    }

    /** Every checkpoint is rolled back: record that. */
    method Finish(plan: Plan, s: TransactionState, target: RollbackTarget) returns (t: TransactionState, r: Result<(), Error>)
      requires Holds(plan, s) && host.stale == {} && s.rollbackTarget == Some(target)
      requires AllIn(s.checkpoints, Phase.RolledBack)
      modifies store`stateFile, store`journal, store`ownershipFile, store`reportFile
      ensures Inv() && Current(s.transactionId) && Writable(plan, t) && t == s.(status := target.Final())
      ensures r.Ok? ==> store.journal == Some(t) && Derived(t)
      ensures !store.faults && !host.setting.conduct.Wild? ==> r.Ok?
    {
      hide Sound, Settled, Validate, StateToValue, OwnUnion, OwnDisjoint, ReportFile, OwnershipFile, Grounded, Proven, AllIn;
      t := s.(status := target.Final());
      EndsRollback(plan, s, Events(s), t, target);
      GroundedAnyPolicy(host.setting, plan, s, Events(s), t, host.tree);
      ProvenSame(s, t, Events(s), host.lapsed);
      r := Persist(plan, t);
    }

    /** The error a rollback is recorded with: the kind of the one that caused it, or the one on record. */
    ghost function Cause(s: TransactionState, error: Option<Error>): Option<string> {
      if error.Some? && error.value.Ordinary? then Some(error.value.kind) else s.error
    }

    /** Record that a rollback to `target` is under way. */
    method Begin(plan: Plan, s: TransactionState, target: RollbackTarget, error: Option<Error>)
      returns (t: TransactionState, r: Result<(), Error>)
      requires Holds(plan, s) && host.stale == {} && Reversible(s, target)
      modifies store`stateFile, store`journal, store`ownershipFile, store`reportFile
      ensures Inv() && Current(s.transactionId) && Writable(plan, t)
      ensures t == s.(status := t.status, rollbackTarget := Some(target), error := Cause(s, error))
      ensures t.status == if target.ToUninstalled? then Uninstalling else RollingBack
      ensures r.Ok? ==> store.journal == Some(t)
      ensures !store.faults && !host.setting.conduct.Wild? ==> r.Ok?
    {
      hide Sound, Settled, Validate, StateToValue, OwnUnion, OwnDisjoint, ReportFile, OwnershipFile, Grounded, Proven;
      t := s.(status := if target.ToUninstalled? then Uninstalling else RollingBack, rollbackTarget := Some(target),
              error := if error.Some? && error.value.Ordinary? then Some(error.value.kind) else s.error);
      BeginsRollback(plan, s, Events(s), t, target);
      GroundedAnyPolicy(host.setting, plan, s, Events(s), t, host.tree);
      ProvenSame(s, t, Events(s), host.lapsed);
      r := Persist(plan, t);
    }

    /** `rollback_steps`: record the policy, undo every checkpoint, and record the target's status. Without faults it
        fails only if an undo that was interrupted has left an owned path changed, and then always. */
    method RollbackSteps(plan: Plan, s: TransactionState, target: RollbackTarget, error: Option<Error>)
      returns (t: TransactionState, r: Result<(), Error>)
      requires Holds(plan, s) && host.stale == {} && Reversible(s, target)
      modifies store`stateFile, store`journal, store`ownershipFile, store`reportFile, host`tree, host`log, host`shown
      ensures Inv() && host.stale == {} && store.planFile == Some(plan) && Current(s.transactionId)
      ensures Writable(plan, t) && t.transactionId == s.transactionId && Reversible(t, target)
      ensures t.purgeData == s.purgeData
      ensures r.Ok? ==> store.journal == Some(t) && t.status == target.Final() && Derived(t) && t.error == Cause(s, error)
      ensures !old(AllOwned(host.setting.agentManaged, s, host.tree)) ==>
                r.Err? && t == s && host.log == old(host.log) && host.tree == old(host.tree)
      ensures Smooth(plan) && Yields(Purging(s, target)) ==>
                (r.Ok? <==> old(AllMayGoOn(s.checkpoints, host.setting.agentManaged, host.tree, Purging(s, target))))
    {
      hide Sound, Settled, Standing, Validate, StateToValue, OwnUnion, OwnDisjoint, ReportFile, OwnershipFile, WithCheckpoint;
      hide Grounded, Proven, AllMayGoOn, AllOwned;
      t := s;
      r := AssertAllOwned(plan, s);
      if r.Err? {
        return;
      }
      t, r := Begin(plan, s, target, error);
      if r.Err? {
        return;
      }
      var purge := target.ToRolledBack? || t.purgeData == Some(true);
      t, r := UndoAll(plan, t, purge, target);
      if r.Err? {
        return;
      }
      t, r := Finish(plan, t, target);
    }

    /** `rollback`: an ordinary failure on the way is recorded as `rollback_failed` with the same target. */
    method Rollback(plan: Plan, s: TransactionState, target: RollbackTarget, error: Option<Error>)
      returns (r: Result<TransactionState, Error>)
      requires Holds(plan, s) && host.stale == {} && Reversible(s, target)
      modifies store`stateFile, store`journal, store`ownershipFile, store`reportFile, host`tree, host`log, host`shown
      ensures Inv() && Current(s.transactionId)
      ensures r.Ok? ==> store.journal == Some(r.value) && r.value.status == target.Final() && Derived(r.value)
      ensures r.Ok? ==> r.value.purgeData == s.purgeData && r.value.rollbackTarget == Some(target)
      ensures r.Ok? ==> r.value.error == Cause(s, error)
      ensures !old(AllOwned(host.setting.agentManaged, s, host.tree)) ==>
                r.Err? && host.log == old(host.log) && host.tree == old(host.tree)
      ensures r.Err? && r.error.Ordinary? && !store.faults ==>
                Stuck(s, target) && (!host.setting.conduct.Wild? ==> store.journal.value.error == Some(r.error.kind))
      ensures Smooth(plan) && Yields(Purging(s, target)) ==>
                (r.Ok? <==> old(AllMayGoOn(s.checkpoints, host.setting.agentManaged, host.tree, Purging(s, target))))
    {
      hide Sound, Settled, Standing, Validate, StateToValue, OwnUnion, OwnDisjoint, ReportFile, OwnershipFile, WithCheckpoint;
      hide Grounded, Proven, AllMayGoOn;
      var t, steps := RollbackSteps(plan, s, target, error);
      if steps.Ok? {
        return Ok(t);
      }
      if steps.error.Fatal? {
        return Err(steps.error);
      }
      var failed := t.(status := RollbackFailed, rollbackTarget := Some(target), error := Some(steps.error.kind));
      FailsRollback(plan, t, Events(t), failed, target);
      GroundedAnyPolicy(host.setting, plan, t, Events(t), failed, host.tree);
      ProvenSame(t, failed, Events(t), host.lapsed);
      var written := Persist(plan, failed);
      return Err(if written.Err? then written.error else steps.error);
    }

    lemma Readable()
      requires Inv()
      ensures store.Valid()
    {
    }

    /** `apply_or_roll_back`: an ordinary failure rolls back whatever the disk says was begun. */
    method ApplyOrRollBack(plan: Plan, s: TransactionState) returns (r: Result<TransactionState, Error>)
      requires Holds(plan, s) && host.stale == {} && s.status.Applying?
      modifies store`stateFile, store`journal, store`ownershipFile, store`reportFile
      modifies host`tree, host`log, host`shown, host`stale, host`lapsed
      ensures Inv() && Current(s.transactionId)
      ensures r.Ok? ==> store.journal == Some(r.value) && r.value.status.Active? && Derived(r.value)
      ensures r.Err? && r.error.Ordinary? && !store.faults ==> GivenUp(s.transactionId)
      ensures r.Err? && r.error.Ordinary? && Smooth(plan) ==>
                store.journal.value.status.RolledBack? && store.journal.value.error == Some(r.error.kind)
      ensures Calm(plan) ==> r.Ok?
    {
      hide Inv, Derived, AllMayGoOn, AllOwned;
      r := ContinueApply(plan, s);
      if r.Ok? || r.error.Fatal? {
        return;
      }
      Readable();
      var read := store.ReadState();
      if read.Err? {
        return Err(read.error);
      }
      HoldsFacts(plan, read.value);
      var undone := Rollback(plan, read.value, ToRolledBack, Some(r.error));
      return Err(if undone.Err? then undone.error else r.error);
    }

    // ----- operations ----------------------------------------------------------------------

    /** `read_matching_plan`: `plan.json` must be the plan the state recorded. */
    method ReadMatchingPlan(s: TransactionState) returns (r: Result<Plan, Error>)
      ensures r.Ok? ==> store.planFile == Some(r.value)
      ensures !store.faults && store.planFile.Some? && store.planFile.value.digest == s.planDigest == s.acceptedDigest
              ==> r.Ok?
    {
      r := store.ReadPlan();
      if r.Ok? && (r.value.digest != s.planDigest || s.acceptedDigest != s.planDigest) {
        return Err(TransactionError("persisted plan digest does not match transaction state"));
      }
    }

    /** `state.json` and the plan that belongs to it. */
    method ReadTransaction() returns (r: Result<(TransactionState, Plan), Error>)
      requires Inv()
      ensures r.Ok? ==> Holds(r.value.1, r.value.0)
      ensures !store.faults && store.journal.Some? ==> r.Ok?
    {
      hide Sound, Grounded, Proven, Settled, Validate, StateToValue;
      var read := store.ReadState();
      if read.Err? {
        return Err(read.error);
      }
      SoundDigest(store.planFile.value, read.value, Events(read.value));
      var matching := ReadMatchingPlan(read.value);
      if matching.Err? {
        return Err(matching.error);
      }
      r := Ok((read.value, matching.value));
    }

    method ValidateAdapters(plan: Plan) returns (r: Result<(), Error>)
      ensures r.Ok? <==> forall a <- plan.actions :: a.adapter in registered
    {
      for i := 0 to |plan.actions|
        invariant forall j :: 0 <= j < i ==> plan.actions[j].adapter in registered
      {
        if plan.actions[i].adapter !in registered {
          return Err(TransactionError("adapter is unavailable: " + plan.actions[i].adapter));
        }
      }
      return Ok(());
    }

    /** Where `resume` ends when nothing goes wrong. */
    ghost function Destination(s: TransactionState): Status {
      match s.status
      case Applying => Active
      case Active => Active
      case RolledBack => Status.RolledBack
      case Uninstalled => Uninstalled
      case _ => if s.rollbackTarget.Some? then s.rollbackTarget.value.Final() else s.status
    }

    /** A rollback is recorded and not finished. */
    ghost predicate Reverting(s: TransactionState) {
      s.status.RollingBack? || s.status.RollbackFailed? || s.status.Uninstalling?
    }

    /** A transaction that is not under way: its files are proved if it is active, and the derived files rebuilt. */
    method Reaffirm(plan: Plan, s: TransactionState) returns (r: Result<TransactionState, Error>)
      requires Holds(plan, s)
      modifies store`stateFile, store`journal, store`ownershipFile, store`reportFile, host`stale
      ensures Inv()
      ensures store.journal == Some(s) && (r.Ok? ==> r.value == s && Derived(s))
      ensures !store.faults && !host.setting.conduct.Wild? ==>
                (r.Ok? <==> (s.status.Active? ==> AllOwned(host.setting.agentManaged, s, host.tree)))
      ensures !store.faults && !host.setting.conduct.Wild? && old(host.stale) == {} ==> r.Ok?
    {
      hide Sound, Settled, Standing, Validate, StateToValue, OwnUnion, OwnDisjoint, ReportFile, OwnershipFile, WithCheckpoint;
      hide Proven, AllOwned;
      if s.status.Active? {
        var owned := AssertAllOwned(plan, s);
        if owned.Err? {
          return Err(owned.error);
        }
        OwnedIsFresh(host.setting, s, host.stale, host.tree);
        host.stale := {};
      }
      var written := Persist(plan, s);
      r := if written.Err? then Err(written.error) else Ok(s);
    }

    /** What a journal on disk says about a rollback under way. */
    lemma HoldsFacts(plan: Plan, s: TransactionState)
      requires Holds(plan, s)
      ensures s.status.Applying? || s.status.Active? <==> s.rollbackTarget.None?
      ensures !s.status.Active? ==> host.stale == {}
      ensures s.status.RollingBack? ==> s.rollbackTarget == Some(ToRolledBack)
      ensures s.status.Uninstalling? ==> s.rollbackTarget == Some(ToUninstalled)
      ensures host.setting.conduct.Tidy? && host.stale == {} ==>
                AllMayGoOn(s.checkpoints, host.setting.agentManaged, host.tree, Purges(s))
      ensures s.status.Active? || s.status.Applying? ==>
                forall purge :: AllMayGoOn(s.checkpoints, host.setting.agentManaged, host.tree, purge)
    {
      SoundFacts(plan, s, Events(s));
      if host.setting.conduct.Tidy? && host.stale == {} {
        TidyMayGoOn(host.setting, s, host.tree);
      }
    }

    /** `resume`: finish what a crash interrupted, or rebuild the derived files of a settled journal. */
    method Resume() returns (r: Result<TransactionState, Error>)
      requires Inv()
      modifies store`stateFile, store`journal, store`ownershipFile, store`reportFile
      modifies host`tree, host`log, host`shown, host`stale, host`lapsed
      ensures Inv()
      ensures r.Ok? ==> store.journal == Some(r.value) && Derived(r.value)
      ensures r.Ok? && old(store.journal.Some?) ==> r.value.status == Destination(old(store.journal.value))
      ensures old(store.journal.Some? && Calm(store.planFile.value) && host.stale == {}) ==>
                old(host.setting.conduct.Tidy? || !Reverting(store.journal.value)) ==> r.Ok?
      ensures old(store.journal.Some? && Smooth(store.planFile.value) && Reverting(store.journal.value)) ==>
                Yields(Purges(old(store.journal.value))) ==>
                (r.Ok? <==> old(AllMayGoOn(store.journal.value.checkpoints, host.setting.agentManaged, host.tree,
                                           Purges(store.journal.value))))
      ensures old(store.journal.Some? && store.journal.value.status.Active? && !store.faults
                  && !host.setting.conduct.Wild? && forall a <- store.planFile.value.actions :: a.adapter in registered)
              ==> (r.Ok? <==> old(AllOwned(host.setting.agentManaged, store.journal.value, host.tree)))
      ensures r.Err? && r.error.Ordinary? && !store.faults && old(store.journal.Some? && !store.journal.value.status.Active?)
              && (forall a <- old(store.planFile).value.actions :: a.adapter in registered) ==>
                Abandoned(old(store.journal.value))
      ensures r.Err? && r.error.Ordinary? && old(store.journal.Some? && store.journal.value.status.Applying?) ==>
                Smooth(old(store.planFile).value) ==> store.journal.value.status.RolledBack?
      ensures old(store.journal.Some? && !Finished(store.journal.value)) &&
              (exists a <- old(store.planFile).value.actions :: a.adapter !in registered) ==>
                r.Err? && store.journal == old(store.journal) && host.log == old(host.log) && host.tree == old(host.tree)
    {
      hide Inv, AllMayGoOn, AllOwned, Derived, GivenUp, Stuck;
      var read := ReadTransaction();
      if read.Err? {
        return Err(read.error);
      }
      var s, plan := read.value.0, read.value.1;
      HoldsFacts(plan, s);
      if !s.status.RolledBack? && !s.status.Uninstalled? {
        var adapters := ValidateAdapters(plan);
        if adapters.Err? {
          return Err(adapters.error);
        }
      }
      if s.status.Applying? {
        r := ApplyOrRollBack(plan, s);
        return;
      }
      if s.status.RollingBack? || s.status.RollbackFailed? || s.status.Uninstalling? {
        var target := if s.rollbackTarget.Some? then s.rollbackTarget.value
                      else if s.status.Uninstalling? then ToUninstalled else ToRolledBack;
        r := Rollback(plan, s, target, None);
        return;
      }
      r := Reaffirm(plan, s);
    }

    /** Record a repaired checkpoint; once it is in `state.json` its action is no longer stale. */
    method RecordRepair(plan: Plan, s: TransactionState, k: nat, d: Checkpoint)
      returns (t: TransactionState, r: Result<(), Error>)
      requires Holds(plan, s) && s.status.Active? && Replaces(s, k, d) && d.phase.Verified? && d.rollbackEvidence.None?
      requires k !in Unproven(Events(s))
      requires !host.setting.conduct.Wild? ==>
                 forall stale :: Standing(host.setting, d, Purges(s), stale, host.tree)
      modifies store`stateFile, store`journal, store`ownershipFile, store`reportFile, host`tree, host`stale, host`lapsed
      ensures Inv() && store.planFile == Some(plan) && Current(s.transactionId) && store.journal.value.status.Active?
      ensures r.Ok? ==> Holds(plan, t) && t.status.Active? && t.transactionId == s.transactionId
                        && host.stale == old(host.stale) - {k}
      ensures r.Ok? ==> t.checkpoints == s.checkpoints[k := d]
      ensures !host.setting.conduct.Wild? ==> host.tree == old(host.tree)
      ensures Calm(plan) ==> r.Ok?
    {
      hide Sound, Settled, Standing, Validate, StateToValue, OwnUnion, OwnDisjoint, ReportFile, OwnershipFile, WithCheckpoint;
      t := Recorded(s, d);
      Refresh(plan, s, Events(s), k, d);
      StandsAfter(host.setting, s, t, host.stale, host.tree, k);
      FreshAgain(host.setting, t, host.stale, host.tree, k);
      r := Persist(plan, t);
      if store.journal == Some(t) {
        host.Freshen(k);
      }
      if r.Ok? {
        r := host.Look(host.undoFaults);
      }
    }

    lemma RepairFacts(plan: Plan, s: TransactionState, k: nat)
      requires Holds(plan, s) && s.status.Active? && k < |plan.actions|
      ensures |s.checkpoints| == |plan.actions| && FindCheckpoint(s.checkpoints, plan.actions[k].id) == Some(s.checkpoints[k])
      ensures s.checkpoints[k].phase.Verified? && s.checkpoints[k].rollbackEvidence.None?
      ensures s.checkpoints[k].actionId == plan.actions[k].id && s.checkpoints[k].adapter == plan.actions[k].adapter
    {
      hide Sound, Settled, Grounded, Proven, Validate, StateToValue, FindCheckpoint;
      SoundFacts(plan, s, Events(s));
      FoundAt(plan, s.checkpoints, k);
    }

    /** One turn of `repair`: let the adapter restore action `k`, re-capture what it owns, verify and record it. */
    method RepairAction(plan: Plan, s: TransactionState, k: nat) returns (t: TransactionState, r: Result<(), Error>)
      requires Holds(plan, s) && s.status.Active? && k < |plan.actions|
      modifies store`stateFile, store`journal, store`ownershipFile, store`reportFile
      modifies host`tree, host`log, host`shown, host`stale, host`lapsed
      ensures Inv() && store.planFile == Some(plan) && Current(s.transactionId) && store.journal.value.status.Active?
      ensures r.Ok? ==> Holds(plan, t) && t.status.Active? && t.transactionId == s.transactionId
                        && host.stale == old(host.stale) - {k}
      ensures r.Ok? && !host.setting.conduct.Wild? ==>
                && k < |t.checkpoints| && IsCaptured(plan.actions[k], t.checkpoints[k], host.tree)
                && t.checkpoints[k].evidence == Some(host.shown)
      ensures Calm(plan) ==> r.Ok?
    {
      hide Inv, Captures, Captured, DeclaresOwn, Standing, WithCheckpoint, FindCheckpoint, Unproven;
      t := s;
      RepairFacts(plan, s, k);
      var a := plan.actions[k];
      var found := FindCheckpoint(s.checkpoints, a.id);
      // "active transaction has incomplete checkpoints" is unreachable
      assert found.Some? && found.value.phase.Verified?;
      if a.adapter !in registered {
        return t, Err(TransactionError("adapter is unavailable: " + a.adapter));
      }
      var changed := Change(Mutation.Repair, plan, s, k);
      if changed.Err? {
        return t, Err(changed.error);
      }
      var evidence := Verify(plan, s, k);
      if evidence.Err? {
        return t, Err(evidence.error);
      }
      var d := found.value.(data := changed.value.0, ownership := changed.value.1,
                            evidence := Some(evidence.value.record));
      if !host.setting.conduct.Wild? {
        forall stale ensures Standing(host.setting, d, Purges(s), stale, host.tree) {
          CapturedStands(host.setting, a, changed.value.0, d, Purges(s), stale, host.tree);
        }
      }
      t, r := RecordRepair(plan, s, k, d);
    }

    /** Every action is repaired: the transaction is active without an error. */
    method Conclude(plan: Plan, s: TransactionState) returns (r: Result<TransactionState, Error>)
      requires Holds(plan, s) && s.status.Active? && forall m <- host.stale :: |plan.actions| <= m
      modifies store`stateFile, store`journal, store`ownershipFile, store`reportFile
      ensures Inv() && host.stale == {} && Current(s.transactionId) && store.journal.value.status.Active?
      ensures r.Ok? ==> r.value == s.(error := None) && store.journal == Some(r.value) && Derived(r.value)
      ensures !store.faults && !host.setting.conduct.Wild? ==> r.Ok?
    {
      hide Sound, Settled, Validate, StateToValue, OwnUnion, OwnDisjoint, ReportFile, OwnershipFile, Grounded, Proven;
      SoundFacts(plan, s, Events(s));
      assert host.stale == {};
      var done := s.(error := None);
      StaysActive(plan, s, Events(s), done);
      GroundedAnyPolicy(host.setting, plan, s, Events(s), done, host.tree);
      ProvenSame(s, done, Events(s), host.lapsed);
      var written := Persist(plan, done);
      r := if written.Err? then Err(written.error) else Ok(done);
    }

    /** `repair`: restore every action of an active installation. Nothing is rolled back when it fails. */
    method Repair() returns (r: Result<TransactionState, Error>)
      requires Inv()
      modifies store`stateFile, store`journal, store`ownershipFile, store`reportFile
      modifies host`tree, host`log, host`shown, host`stale, host`lapsed
      ensures Inv()
      ensures r.Ok? ==> store.journal == Some(r.value) && host.stale == {}
      ensures r.Ok? && r.value.status.Active? ==> Derived(r.value)
      ensures old(store.journal.Some?) ==>
                Current(old(store.journal.value).transactionId) && store.journal.value.status == old(store.journal.value.status)
      ensures r.Ok? ==> old(store.journal.Some?) && r.value.status == old(store.journal.value.status)
      ensures old(store.journal.Some? && !store.journal.value.status.Active?) ==>
                && store.journal == old(store.journal) && host.tree == old(host.tree) && host.log == old(host.log)
                && (Smooth(store.planFile.value) ==> (r.Ok? <==> !store.journal.value.status.IsInterrupted()))
      ensures old(store.journal.Some? && store.journal.value.status.Active? && Calm(store.planFile.value)) ==> r.Ok?
      ensures old(store.journal.Some?) && (exists a <- old(store.planFile).value.actions :: a.adapter !in registered) ==>
                r.Err? && store.journal == old(store.journal) && host.log == old(host.log) && host.tree == old(host.tree)
    {
      hide Inv, Derived, IsCaptured;
      var read := ReadTransaction();
      if read.Err? {
        return Err(read.error);
      }
      var s, plan := read.value.0, read.value.1;
      var adapters := ValidateAdapters(plan);
      if adapters.Err? {
        return Err(adapters.error);
      }
      HoldsFacts(plan, s);
      if !s.status.Active? {
        if s.status.IsInterrupted() {
          return Err(TransactionError("resume the interrupted transaction before repair"));
        }
        return Ok(s);
      }
      for k := 0 to |plan.actions|
        invariant Holds(plan, s) && s.status.Active? && s.transactionId == old(store.journal.value).transactionId
        invariant forall m <- host.stale :: k <= m
      {
        var step;
        s, step := RepairAction(plan, s, k);
        if step.Err? {
          return Err(step.error);
        }
      }
      r := Conclude(plan, s);
    }

    /** `uninstall`: undo an active installation, or go on with an interrupted uninstall under the same policy. */
    method Uninstall(purge: bool) returns (r: Result<TransactionState, Error>)
      requires Inv()
      modifies store`stateFile, store`journal, store`ownershipFile, store`reportFile
      modifies host`tree, host`log, host`shown, host`stale, host`lapsed
      ensures Inv()
      ensures r.Ok? ==> store.journal == Some(r.value) && Derived(r.value) && old(store.journal.Some?)
      ensures r.Ok? ==> if old(store.journal.value.status.RolledBack? || store.journal.value.status.Uninstalled?)
                        then r.value == old(store.journal.value)
                        else r.value.status.Uninstalled? && r.value.purgeData == Some(purge)
      ensures r.Err? && r.error.Ordinary? && !store.faults && !host.setting.conduct.Wild? ==>
                || store.journal == old(store.journal)
                || (old(store.journal.Some?) && Stuck(old(store.journal.value).(purgeData := Some(purge)), ToUninstalled))
      ensures old(store.journal.Some? && Smooth(store.planFile.value) && host.stale == {}) ==>
                old(store.journal.value.status.Active?) && Yields(purge) ==> r.Ok?
      ensures old(store.journal.Some? && Smooth(store.planFile.value)) ==>
                match old(store.journal.value.status)
                case RolledBack => r.Ok?
                case Uninstalled => r.Ok?
                case Uninstalling =>
                  if old(store.journal.value.purgeData) != Some(purge) then r.Err? && store.journal == old(store.journal)
                  else Yields(purge) ==>
                    (r.Ok? <==> old(AllMayGoOn(store.journal.value.checkpoints, host.setting.agentManaged, host.tree, purge)))
                case Active => true
                case _ => r.Err? && store.journal == old(store.journal)
      ensures old(store.journal.Some?) && (exists a <- old(store.planFile).value.actions :: a.adapter !in registered) ==>
                r.Err? && store.journal == old(store.journal) && host.log == old(host.log) && host.tree == old(host.tree)
    {
      hide Inv, AllMayGoOn, Derived, Stuck;
      var read := ReadTransaction();
      if read.Err? {
        return Err(read.error);
      }
      var s, plan := read.value.0, read.value.1;
      HoldsFacts(plan, s);
      var adapters := ValidateAdapters(plan);
      if adapters.Err? {
        return Err(adapters.error);
      }
      if s.status.Uninstalled? || s.status.RolledBack? {
        r := Reaffirm(plan, s);
        return;
      }
      if !s.status.Active? && !s.status.Uninstalling? {
        return Err(TransactionError("resume the interrupted transaction before uninstall"));
      }
      if s.status.Uninstalling? && s.purgeData != Some(purge) {
        return Err(TransactionError("retry the interrupted uninstall "
                                    + if s.purgeData == Some(true) then "with --purge-data" else "without --purge-data"));
      }
      r := Remove(plan, s, purge);
    }

    /** Prove every owned path intact, record the policy, and undo everything. */
    method Remove(plan: Plan, s: TransactionState, purge: bool) returns (r: Result<TransactionState, Error>)
      requires Holds(plan, s) && (s.status.Active? || (s.status.Uninstalling? && s.purgeData == Some(purge)))
      modifies store`stateFile, store`journal, store`ownershipFile, store`reportFile
      modifies host`tree, host`log, host`shown, host`stale, host`lapsed
      ensures Inv()
      ensures r.Ok? ==> store.journal == Some(r.value) && Derived(r.value) && r.value.status.Uninstalled?
      ensures r.Ok? ==> r.value.purgeData == Some(purge)
      ensures r.Err? && r.error.Ordinary? && !store.faults && !host.setting.conduct.Wild? ==>
                store.journal == Some(s) || Stuck(s.(purgeData := Some(purge)), ToUninstalled)
      ensures Smooth(plan) && old(host.stale) == {} && Yields(purge) ==>
                (r.Ok? <==> old(AllMayGoOn(s.checkpoints, host.setting.agentManaged, host.tree, purge)))
    {
      hide Sound, Settled, Standing, Validate, StateToValue, OwnUnion, OwnDisjoint, ReportFile, OwnershipFile, WithCheckpoint;
      hide Proven, AllMayGoOn, AllOwned;
      var owned := AssertAllOwned(plan, s);
      if owned.Err? {
        return Err(owned.error);
      }
      OwnedIsFresh(host.setting, s, host.stale, host.tree);
      host.stale := {};
      var t := s.(status := Uninstalling, purgeData := Some(purge), rollbackTarget := Some(ToUninstalled), error := None);
      BeginsUninstall(plan, s, Events(s), t, purge);
      GroundedAnyPolicy(host.setting, plan, s, Events(s), t, host.tree);
      ProvenSame(s, t, Events(s), host.lapsed);
      var written := Persist(plan, t);
      if written.Err? {
        return Err(written.error);
      }
      r := Rollback(plan, t, ToUninstalled, None);
    }

    /** Clear a finished transaction: every call it made is accounted for, so nothing of it is left. */
    method ClearFinished(s: TransactionState) returns (r: Result<(), Error>)
      requires Inv() && store.journal == Some(s) && (s.status.RolledBack? || s.status.Uninstalled?)
      modifies store`stateFile, store`journal
      ensures Inv()
      ensures r.Ok? ==> store.journal.None?
      ensures !store.faults ==> r.Ok?
    {
      FinishedIsSettled(store.planFile.value, s, Events(s));
      hide Sound, Settled, Standing, Validate, StateToValue, OwnUnion, OwnDisjoint, ReportFile, OwnershipFile, WithCheckpoint;
      r := store.RemoveState();
    }

    /** The plan and a journal without checkpoints. */
    method Start(plan: Plan, uuid: string) returns (r: Result<TransactionState, Error>)
      requires Inv() && store.journal.None? && plan.WellFormed() && IsHex(uuid, 32) && uuid !in host.used
      modifies store`stateFile, store`journal, store`ownershipFile, store`reportFile, store`planFile
      modifies host`stale, host`lapsed, host`used
      ensures Inv()
      ensures r.Ok? ==> Holds(plan, r.value) && host.stale == {} && r.value == NewState(uuid, Status.Applying, plan.digest)
      ensures !store.faults ==> r.Ok?
    {
      hide Sound, Settled, Standing, Validate, StateToValue, OwnUnion, OwnDisjoint, ReportFile, OwnershipFile, IsHex;
      var written := store.WritePlan(plan);
      if written.Err? {
        return Err(written.error);
      }
      var s := NewState(uuid, Status.Applying, plan.digest);
      StartsSound(plan, uuid);
      host.Draw(uuid);
      written := Persist(plan, s);
      if written.Err? {
        return Err(written.error);
      }
      r := Ok(s);
    }

    /** The new transaction of an approved plan: `plan.json`, then a fresh journal, then the actions. */
    method Install(plan: Plan, uuid: string) returns (r: Result<TransactionState, Error>)
      requires Inv() && store.journal.None? && plan.WellFormed() && IsHex(uuid, 32) && uuid !in host.used
      modifies store`stateFile, store`journal, store`ownershipFile, store`reportFile, store`planFile
      modifies host`tree, host`log, host`shown, host`stale, host`lapsed, host`used
      ensures Inv()
      ensures r.Ok? ==> store.journal == Some(r.value) && r.value.status.Active? && Derived(r.value)
      ensures r.Ok? ==> store.planFile == Some(plan)
      ensures r.Err? && r.error.Ordinary? && !store.faults ==> GivenUp(uuid)
      ensures r.Err? && r.error.Ordinary? && Smooth(plan) ==>
                store.journal.value.status.RolledBack? && store.journal.value.error == Some(r.error.kind)
      ensures old(Calm(plan)) ==> r.Ok?
    {
      hide Inv, Derived, GivenUp, IsHex;
      var started := Start(plan, uuid);
      if started.Err? {
        return Err(started.error);
      }
      r := ApplyOrRollBack(plan, started.value);
    }

    /** No transaction, or a finished one. */
    ghost predicate Replaceable(journal: Option<TransactionState>) {
      journal.Some? ==> journal.value.status.RolledBack? || journal.value.status.Uninstalled?
    }

    /** `apply` gets as far as a new transaction. */
    ghost predicate Installs(plan: Plan, accepted: string, journal: Option<TransactionState>) {
      accepted == plan.digest && Replaceable(journal) && forall a <- plan.actions :: a.adapter in registered
    }

    /** `apply`: install an approved plan. The same intent on an active installation only proves ownership; a finished
        transaction is cleared; any other journal refuses. `uuid` is the fresh transaction id. */
    method Apply(plan: Plan, accepted: string, uuid: string) returns (r: Result<TransactionState, Error>)
      requires Inv() && plan.WellFormed() && IsHex(uuid, 32) && uuid !in host.used
      modifies store`stateFile, store`journal, store`ownershipFile, store`reportFile, store`planFile
      modifies host`tree, host`log, host`shown, host`stale, host`lapsed, host`used
      ensures Inv()
      ensures accepted != plan.digest ==> r.Err? && store.journal == old(store.journal) && host.log == old(host.log)
      ensures r.Ok? ==> store.journal == Some(r.value) && r.value.status.Active?
                        && store.planFile.value.intentDigest == plan.intentDigest
      ensures old(store.journal.Some? && store.journal.value.status.IsInterrupted()) ==>
                r.Err? && store.journal == old(store.journal) && host.log == old(host.log)
      ensures old(store.journal.Some? && store.journal.value.status.Active?) && accepted == plan.digest ==>
                && store.journal == old(store.journal) && host.log == old(host.log) && host.tree == old(host.tree)
                && (!store.faults && !host.setting.conduct.Wild? ==>
                      (r.Ok? <==> && store.planFile.value.intentDigest == plan.intentDigest
                                  && (forall a <- plan.actions :: a.adapter in registered)
                                  && AllOwned(host.setting.agentManaged, store.journal.value, host.tree)))
      ensures r.Err? && r.error.Ordinary? && !store.faults ==>
                if Installs(plan, accepted, old(store.journal)) then GivenUp(uuid)
                else store.journal == (if Replaceable(old(store.journal)) && accepted == plan.digest then None
                                       else old(store.journal))
      ensures r.Err? && r.error.Ordinary? && Smooth(plan) && Installs(plan, accepted, old(store.journal)) ==>
                store.journal.value.status.RolledBack?
      ensures old(store.journal.None? && Calm(plan)) && accepted == plan.digest ==>
                r.Ok? && store.planFile == Some(plan) && Derived(r.value)
    {
      hide Sound, Settled, Standing, Validate, StateToValue, OwnUnion, OwnDisjoint, ReportFile, OwnershipFile, WithCheckpoint;
      hide IsHex;
      if accepted != plan.digest {
        return Err(Ordinary("AcceptedDigestError", "accepted plan digest does not match"));
      }
      if store.stateFile.Some? {
        var read := store.ReadState();
        if read.Err? {
          return Err(read.error);
        }
        var existing := read.value;
        if existing.status.Active? {
          SoundDigest(store.planFile.value, existing, Events(existing));
          var matching := ReadMatchingPlan(existing);
          if matching.Err? {
            return Err(matching.error);
          }
          if matching.value.intentDigest == plan.intentDigest {
            r := ProveInstalled(plan, existing);
            return;
          }
        }
        if !existing.status.RolledBack? && !existing.status.Uninstalled? {
          return Err(TransactionError("an installer transaction already exists"));
        }
        var cleared := ClearFinished(existing);
        if cleared.Err? {
          return Err(cleared.error);
        }
      }
      var adapters := ValidateAdapters(plan);
      if adapters.Err? {
        return Err(adapters.error);
      }
      r := Install(plan, uuid);
    }

    /** Re-applying the installed intent: nothing is written, only ownership is proved. */
    method ProveInstalled(plan: Plan, s: TransactionState) returns (r: Result<TransactionState, Error>)
      requires Inv() && store.journal == Some(s) && s.status.Active?
      ensures r.Ok? ==> r.value == s && AllOwned(host.setting.agentManaged, s, host.tree)
      ensures !host.setting.conduct.Wild? ==>
                (r.Ok? <==> (forall a <- plan.actions :: a.adapter in registered)
                            && AllOwned(host.setting.agentManaged, s, host.tree))
    {
      hide Sound, Settled, Standing, Validate, StateToValue, OwnUnion, OwnDisjoint, ReportFile, OwnershipFile, WithCheckpoint;
      var adapters := ValidateAdapters(plan);
      if adapters.Err? {
        return Err(adapters.error);
      }
      var owned := AssertAllOwned(store.planFile.value, s);
      r := if owned.Err? then Err(owned.error) else Ok(s);
    }

    // ----- runs ----------------------------------------------------------------------------

    /** What happens next on the host: an operation, a change in what may fail, or (when nobody is confined) an
        outsider changing files. */
    method Step(op: Operation)
      requires Inv()
      modifies store, host
      ensures Inv()
    {
      hide Sound, Settled, Standing, Validate, StateToValue, OwnUnion, OwnDisjoint, ReportFile, OwnershipFile, WithCheckpoint;
      hide IsHex;
      match op
      case Apply(plan, accepted, uuid) =>
        if plan.WellFormed() && IsHex(uuid, 32) && uuid !in host.used {
          var _ := Apply(plan, accepted, uuid);
        }
      case Resume => var _ := Resume();
      case Repair => var _ := Repair();
      case Uninstall(purge) => var _ := Uninstall(purge);
      case Weather(files, calls, undos) => store.faults, host.faults, host.undoFaults := files, calls, undos;
      case Drift =>
        if host.setting.conduct.Wild? {
          host.tree := *;
        }
    }
  }

  /** What the invariant says of every run, in its own words. A transaction that is over, whether its journal still
      says so or was cleared for the next one, undid every mutation it ever entered; at no time did a transaction enter
      `apply` or `rollback` of an action twice, undo out of reverse plan order, mutate after undoing, or change policy. */
  lemma NothingLeftBehind(e: TransactionEngine)
    requires e.Inv()
    ensures forall id <- e.host.log :: Orderly(e.host.log[id])
    ensures forall id <- e.host.log, k: nat ::
              !e.Current(id) || e.store.journal.value.status.RolledBack? || e.store.journal.value.status.Uninstalled? ==>
                MutationsUndone(e.host.log[id], k)
  {
    forall id <- e.host.log ensures Orderly(e.host.log[id]) {
      if e.Current(id) {
        assert e.host.LogOf(id) == e.Events(e.store.journal.value);
      }
    }
    forall id, k: nat | id in e.host.log
                        && (!e.Current(id) || e.store.journal.value.status.RolledBack? || e.store.journal.value.status.Uninstalled?)
      ensures MutationsUndone(e.host.log[id], k)
    {
      if e.Current(id) {
        FinishedIsSettled(e.store.planFile.value, e.store.journal.value, e.host.LogOf(id));
      }
      DirtyMeaning(e.host.log[id], k);
    }
  }

  /** After an uninstall that kept data, every preserved path is what the journal recorded. */
  lemma PreservedDataKept(e: TransactionEngine)
    requires e.Inv() && !e.host.setting.conduct.Wild?
    requires e.store.journal.Some? && e.store.journal.value.status.Uninstalled?
    requires e.store.journal.value.purgeData == Some(false)
    ensures forall c <- e.store.journal.value.checkpoints, path <- c.ownership :: c.ownership[path].preserve ==>
              Matches(e.host.tree, e.host.setting.agentManaged, path, c.ownership[path])
  {
    var s := e.store.journal.value;
    assert AllIn(s.checkpoints, Phase.RolledBack);
    hide Sound, Proven, Settled, Validate, StateToValue, Matches;
    forall c, path | c in s.checkpoints && path in c.ownership && c.ownership[path].preserve
      ensures Matches(e.host.tree, e.host.setting.agentManaged, path, c.ownership[path])
    {
      var i :| 0 <= i < |s.checkpoints| && s.checkpoints[i] == c;
      assert Standing(e.host.setting, s.checkpoints[i], Purges(s), i in e.host.stale, e.host.tree);
      assert path in Preserved(c.ownership) && Preserved(c.ownership)[path] == c.ownership[path];
    }
  }

  /** A journal on disk, whatever wrote it last: its checkpoints are the plan's first actions in order, verified up to a
      frontier and rolled back beyond it, and the guards against anything else never fire. */
  lemma JournalShape(e: TransactionEngine)
    requires e.Inv() && e.store.journal.Some?
    ensures var plan, s := e.store.planFile.value, e.store.journal.value;
            && Aligned(plan, s.checkpoints)
            && (exists k :: FrontierAt(s.checkpoints, k))
            && (s.status.Applying? ==> forall c <- s.checkpoints :: Forward(c.phase))
            && (s.status.Active? ==> |s.checkpoints| == |plan.actions| && forall c <- s.checkpoints :: c.phase.Verified?)
            && (s.status.RolledBack? || s.status.Uninstalled? ==> forall c <- s.checkpoints :: c.phase.RolledBack?)
            && (s.rollbackTarget.Some? <==> !s.status.Applying? && !s.status.Active?)
  {
    StagedMeaning(e.store.journal.value.checkpoints);
    SoundFacts(e.store.planFile.value, e.store.journal.value, e.Events(e.store.journal.value));
  }

  const ExampleEntry := OwnershipEntry("core.runtime", "core", "file", Some(false), false, "a")
  const ExamplePlan := Plan([Action("core.runtime", "core")], seq(64, _ => '0'), "")
  const ExampleState :=
    NewState(seq(32, _ => '0'), Active, ExamplePlan.digest).(
      checkpoints := [Checkpoint("core.runtime", "core", Verified, map[], map["/x" := ExampleEntry], None, None)])
  const ExampleSetting := Setting(Tidy, map["/x" := "core.runtime"], {})
  const FileBefore: Tree := map["/x" := FileIdentity("file", "a")]
  const FileAfter: Tree := map["/x" := FileIdentity("file", "b")]
  const ExampleCalls := [Mutating(Mutation.Apply, 0), Proved(0), Mutating(Mutation.Repair, 0)]

  lemma ExampleDirty()
    ensures Dirty(ExampleCalls) == {0}
  {
    var a, b, c := Mutating(Mutation.Apply, 0), Proved(0), Mutating(Mutation.Repair, 0);
    assert ExampleCalls == [] + [a] + [b] + [c];
    Appended([], a);
    Appended([] + [a], b);
    Appended([] + [a] + [b], c);
  }

  lemma ExampleOrderly()
    ensures Orderly(ExampleCalls)
  {
  }

  lemma ExampleIsSound()
    ensures Sound(ExamplePlan, ExampleState, ExampleCalls)
  {
    ExampleDirty();
    ExampleOrderly();
    hide Dirty, Orderly;
  }

  /** A crash in `repair` between the adapter's change and the journal write, concretely: the journal is active and
      sound, nothing but the action's own file changed, and yet its ownership no longer holds. By the contract of
      `Resume`, resuming it is refused; only a repair that finishes makes it whole. */
  lemma RepairCutShort()
    ensures Sound(ExamplePlan, ExampleState, ExampleCalls)
    ensures Grounded(ExampleSetting, ExampleState, {}, FileBefore)
    ensures AgreesOff(ExampleSetting, "core.runtime", FileBefore, FileAfter)
    ensures Grounded(ExampleSetting, ExampleState, {0}, FileAfter)
    ensures !AllOwned(ExampleSetting.agentManaged, ExampleState, FileAfter)
  {
    hide Sound;
    ExampleIsSound();
    var own := ExampleState.checkpoints[0].ownership;
    assert Matches(FileBefore, {}, "/x", own["/x"]) && !Matches(FileAfter, {}, "/x", own["/x"]);
  }

  datatype Operation =
    | Apply(plan: Plan, accepted: string, uuid: string)
    | Resume
    | Repair
    | Uninstall(purge: bool)
    | Weather(files: bool, calls: bool, undos: bool)
    | Drift

  /** Every run: from a fresh host, any sequence of operations, each failing or dying anywhere, keeps the invariant. */
  method Run(setting: Setting, registered: set<string>, ops: seq<Operation>) returns (e: TransactionEngine)
    ensures e.Inv()
  {
    e := new TransactionEngine(setting, registered);
    for i := 0 to |ops|
      invariant fresh(e) && fresh(e.store) && fresh(e.host) && e.Inv()
    {
      e.Step(ops[i]);
    }
  }
}
