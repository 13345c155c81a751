/** Panel updates among the engine's operations: a handoff between two of them, cut off anywhere, leaves a journal that
    the engine can go on from (installer/src/handoff.rs, installer/src/engine.rs). */
module Update {
  import opened Common
  import opened Json
  import opened Journal
  import opened Protocol
  import opened Files
  import opened Store
  import opened Host
  import opened Handoff
  import Engine

  /** Only files of the handed-off trees' actions changed. */
  predicate Swaps(w: Setting, scope: Scope, before: Tree, after: Tree) {
    forall path <- before.Keys + after.Keys ::
      !w.Belongs(path, CORE_ACTION) && !(scope.agent && w.Belongs(path, AGENT_ACTION)) ==>
        path in before && path in after && before[path] == after[path]
  }

  /** Every staged file belongs to the action whose tree it lies under. */
  predicate StagedBelong(w: Setting, expected: Tree) {
    forall host <- expected ::
      (Within(host, PROJECT) ==> w.Belongs(host, CORE_ACTION)) && (Within(host, AGENT) ==> w.Belongs(host, AGENT_ACTION))
  }

  /** The checkpoints handed off. */
  ghost function Targets(cps: seq<Checkpoint>, scope: Scope): set<nat> {
    set k: nat | k < |cps| && scope.Base(cps[k].actionId).Some?
  }

  /** After the swap the other checkpoints' files still stand. */
  lemma SwappedGrounded(w: Setting, plan: Plan, s: TransactionState, ev: seq<Event>, scope: Scope, before: Tree, after: Tree)
    requires Sound(plan, s, ev) && s.status.Active? && Grounded(w, s, {}, before)
    requires !w.conduct.Wild? ==> Swaps(w, scope, before, after)
    ensures Grounded(w, s, Targets(s.checkpoints, scope), after)
  {
    if !w.conduct.Wild? {
      SoundFacts(plan, s, ev);
      forall i | 0 <= i < |s.checkpoints|
        ensures Standing(w, s.checkpoints[i], Purges(s), i in Targets(s.checkpoints, scope), after)
      {
        var c := s.checkpoints[i];
        assert Standing(w, c, Purges(s), false, before);
        assert c.phase.Verified?;
        if i !in Targets(s.checkpoints, scope) {
          forall path <- c.ownership ensures Matches(after, w.agentManaged, path, c.ownership[path]) {
            assert Matches(before, w.agentManaged, path, c.ownership[path]);
            assert w.Belongs(path, c.actionId);
          }
        }
      }
    }
  }

  /** Once the journal is rebased, every checkpoint's files stand. */
  lemma RebasedGrounded(w: Setting, plan: Plan, p: Prepared, ev: seq<Event>, t: TransactionState, tree: Tree)
    requires Sound(plan, p.state, ev) && p.state.status.Active? && p.Sound()
    requires t == p.state.(checkpoints := t.checkpoints)
    requires JournalRebased(p.state.checkpoints, t.checkpoints, p.scope, p.expected)
    requires Installed(p, tree, w.agentManaged)
    requires !w.conduct.Wild? ==> StagedBelong(w, p.expected)
    requires Grounded(w, p.state, Targets(p.state.checkpoints, p.scope), tree)
    ensures Grounded(w, t, {}, tree)
  {
    hide Sound, OwnUnion, OwnDisjoint, Within, Scope.Covers, Agrees, Declared;
    if !w.conduct.Wild? {
      var cps, targets := p.state.checkpoints, Targets(p.state.checkpoints, p.scope);
      SoundFacts(plan, p.state, ev);
      forall i | 0 <= i < |t.checkpoints| ensures Standing(w, t.checkpoints[i], Purges(t), false, tree) {
        assert Standing(w, cps[i], Purges(p.state), i in targets, tree);
        if i in targets {
          TargetStands(w, p, t.checkpoints, i, tree);
        }
      }
    }
  }

  lemma TargetStands(w: Setting, p: Prepared, after: seq<Checkpoint>, i: nat, tree: Tree)
    requires p.Sound() && JournalRebased(p.state.checkpoints, after, p.scope, p.expected)
    requires Installed(p, tree, w.agentManaged) && StagedBelong(w, p.expected)
    requires i < |after| && p.scope.Base(p.state.checkpoints[i].actionId).Some?
    requires Confines(w, p.state.checkpoints[i]) && p.state.checkpoints[i].phase.Verified?
    ensures forall purge :: Standing(w, after[i], purge, false, tree)
  {
    hide OwnUnion, OwnDisjoint, Within, Scope.Covers, Agrees, Declared;
    var cps, c, d := p.state.checkpoints, p.state.checkpoints[i], after[i];
    var owned := OwnUnion(cps, true);
    var outside := map path | path in owned && !p.scope.Covers(path) :: owned[path];
    assert d.actionId == c.actionId && d.phase == c.phase;
    forall path <- d.ownership
      ensures Matches(tree, w.agentManaged, path, d.ownership[path]) && w.Belongs(path, d.actionId)
    {
      if path in p.expected && Within(path, p.scope.Base(c.actionId).value) {
        assert d.ownership[path] == StagedEntry(c, p.expected[path]);
      } else {
        assert path in c.ownership && !p.scope.Covers(path) && d.ownership[path] == c.ownership[path];
        InUnion(cps, i, path);
        assert path in outside;
      }
    }
  }

  lemma RebasedSound(plan: Plan, p: Prepared, ev: seq<Event>, t: TransactionState, lapsed: set<nat>)
    requires Sound(plan, p.state, ev) && Proven(p.state, ev, lapsed) && p.state.status.Active?
    requires t == p.state.(checkpoints := t.checkpoints)
    requires JournalRebased(p.state.checkpoints, t.checkpoints, p.scope, p.expected)
    ensures Sound(plan, t, ev) && Proven(t, ev, lapsed)
  {
    hide Sound, Proven, Moved, Declared;
    Reown(plan, p.state, ev, t);
  }

  /** A staged update as it may be asked for. */
  predicate Acceptable(w: Setting, names: set<string>, project: Tree, agent: Option<Tree>) {
    && (forall host <- project :: Scope(names, false).Covers(host))
    && (agent.Some? ==> forall host <- agent.value :: Within(host, AGENT))
    && (!w.conduct.Wild? ==> StagedBelong(w, project) && (agent.Some? ==> StagedBelong(w, agent.value)))
  }

  /** A panel update: `prepare`, the swap of the trees, `commit`. However it ends the engine's invariant holds; as soon as
      the rebased state is on disk nothing is stale; and a success hands over exactly the staged files, unless some owned
      path is bytecode. */
  method HandOff(e: Engine.TransactionEngine, names: set<string>, project: Tree, agent: Option<Tree>, bytecode: set<string>)
    returns (r: Result<Option<Ending>, Error>, ghost done: bool, ghost p: Option<Prepared>)
    requires e.Inv() && Acceptable(e.host.setting, names, project, agent)
    modifies e.store`stateFile, e.store`journal, e.store`ownershipFile, e.store`reportFile, e.host`tree, e.host`stale
    ensures e.Inv()
    ensures !done ==> e.store.journal == old(e.store.journal)
    ensures done ==> e.store.journal.Some? && e.store.journal.value.status.Active? && e.host.stale == {}
    ensures r == Ok(Some(Written)) ==>
              && done && p.Some? && old(e.store.journal) == Some(p.value.state) && HasRebased(e.store, p.value)
              && e.Derived(e.store.journal.value)
              && (OwnUnion(p.value.state.checkpoints, true).Keys !! bytecode ==>
                    && HandedOver(e.store.journal.value.checkpoints, p.value.scope, p.value.expected)
                    && OutsideKept(p.value.state.checkpoints, e.store.journal.value.checkpoints, p.value.scope)
                    && Intact(e.host.tree, e.host.setting.agentManaged, OwnUnion(e.store.journal.value.checkpoints, true)))
  {
    hide Sound, Settled, Standing, Validate, StateToValue, OwnUnion, OwnDisjoint, ReportFile, OwnershipFile;
    hide Grounded, Proven, Intact, Agrees, Scope.Covers, Within, Installed, JournalRebased, HasTargets, IsStaged;
    hide HandedOver, OutsideKept, OnlyTargetsOwn;
    done, p := false, None;
    ghost var w, plan := e.host.setting, e.store.planFile;
    var prepared := Prepare(e.store, e.host.tree, e.host.setting.agentManaged, bytecode, names, project, agent);
    if prepared.Err? {
      return Err(prepared.error), done, p;
    }
    if prepared.value.None? {
      return Ok(None), done, p;
    }
    var given := prepared.value.value;
    p := Some(given);
    ghost var ev := e.Events(given.state);
    PreparedIsFresh(w, given.state, e.host.stale, e.host.tree);
    SwapTrees(e, given);
    StagedTogether(w, given, project, agent);
    var ending;
    ending, done := Conclude(e, given);
    return if ending.Err? then Err(ending.error) else Ok(Some(ending.value)), done, p;
  }

  /** The caller swaps the trees; until the journal is rebased what it says of them is stale. */
  method SwapTrees(e: Engine.TransactionEngine, p: Prepared)
    requires e.Inv() && e.store.journal == Some(p.state) && p.state.status.Active?
    requires Grounded(e.host.setting, p.state, {}, e.host.tree)
    modifies e.host`tree, e.host`stale
    ensures e.Inv() && e.host.stale == Targets(p.state.checkpoints, p.scope)
  {
    hide Sound, Settled, Standing, Grounded, Proven;
    var next: Tree := *;
    if !e.host.setting.conduct.Wild? && !Swaps(e.host.setting, p.scope, e.host.tree, next) {
      next := e.host.tree;
    }
    SwappedGrounded(e.host.setting, e.store.planFile.value, p.state, e.Events(p.state), p.scope, e.host.tree, next);
    e.host.tree := next;
    e.host.stale := Targets(p.state.checkpoints, p.scope);
  }

  method Conclude(e: Engine.TransactionEngine, p: Prepared) returns (r: Result<Ending, Error>, ghost done: bool)
    requires e.Inv() && e.store.journal == Some(p.state) && p.state.status.Active? && p.Sound()
    requires e.host.stale == Targets(p.state.checkpoints, p.scope)
    requires !e.host.setting.conduct.Wild? ==> StagedBelong(e.host.setting, p.expected)
    modifies e.store`stateFile, e.store`journal, e.store`ownershipFile, e.store`reportFile, e.host`stale
    ensures e.Inv()
    ensures !done ==> e.store.journal == old(e.store.journal)
    ensures done ==> e.store.journal.Some? && e.store.journal.value.status.Active? && e.host.stale == {}
    ensures r == Ok(Written) ==>
              && done && HasRebased(e.store, p) && e.Derived(e.store.journal.value)
              && Transferred(p, e.store.journal.value.checkpoints, e.host.tree, e.host.setting.agentManaged)
  {
    hide Sound, Settled, Standing, Validate, StateToValue, OwnUnion, OwnDisjoint, ReportFile, OwnershipFile;
    hide Grounded, Proven, Installed, JournalRebased, Transferred;
    ghost var w, plan, ev := e.host.setting, e.store.planFile.value, e.Events(p.state);
    r := Commit(e.store, p, e.host.tree, e.host.setting.agentManaged);
    done := r.Ok? && (r.value.Written? || e.store.journal != Some(p.state));
    if done {
      RebasedSound(plan, p, ev, e.store.journal.value, e.host.lapsed);
      RebasedGrounded(w, plan, p, ev, e.store.journal.value, e.host.tree);
      e.host.stale := {};
    }
  }

  lemma StagedTogether(w: Setting, p: Prepared, project: Tree, agent: Option<Tree>)
    requires !w.conduct.Wild? ==> StagedBelong(w, project) && (agent.Some? ==> StagedBelong(w, agent.value))
    requires (p.scope.agent ==> agent.Some?) && p.expected == project + (if p.scope.agent then agent.value else map[])
    ensures !w.conduct.Wild? ==> StagedBelong(w, p.expected)
  {
    hide Within;
  }

  /** Ownership proved on all paths leaves nothing stale. */
  lemma PreparedIsFresh(w: Setting, s: TransactionState, stale: set<nat>, tree: Tree)
    requires Grounded(w, s, stale, tree) && OwnDisjoint(s.checkpoints, true)
    requires Intact(tree, w.agentManaged, OwnUnion(s.checkpoints, true))
    ensures Grounded(w, s, {}, tree)
  {
    hide OwnUnion, OwnDisjoint;
    if !w.conduct.Wild? {
      forall i | 0 <= i < |s.checkpoints| ensures Standing(w, s.checkpoints[i], Purges(s), false, tree) {
        var c := s.checkpoints[i];
        assert Standing(w, c, Purges(s), i in stale, tree);
        if c.phase.Applied? || c.phase.Verified? {
          forall path <- c.ownership ensures Matches(tree, w.agentManaged, path, c.ownership[path]) {
            InUnion(s.checkpoints, i, path);
          }
        }
      }
    }
  }

  /** A handoff that got its rebased state to disk and then died, or failed in any other way, is finished by `resume`: when
      nothing fails any more it succeeds, and the derived files are those of the new state. */
  method HandOffThenResume(e: Engine.TransactionEngine, names: set<string>, project: Tree, agent: Option<Tree>,
                           bytecode: set<string>)
    returns (r: Result<TransactionState, Error>, ghost done: bool)
    requires e.Inv() && Acceptable(e.host.setting, names, project, agent) && !e.host.setting.conduct.Wild?
    modifies e.store, e.host
    ensures e.Inv()
    ensures done ==> e.store.planFile.Some?
    ensures done && (forall a <- e.store.planFile.value.actions :: a.adapter in e.registered) ==>
              r.Ok? && r.value.status.Active? && e.store.journal == Some(r.value) && e.Derived(r.value)
  {
    hide Sound, Settled, Standing, Validate, StateToValue, OwnUnion, OwnDisjoint, ReportFile, OwnershipFile, Grounded, Proven;
    hide HandedOver, OutsideKept, JournalRebased, Intact, AllOwned, AllMayGoOn;
    var ended;
    ghost var p;
    ended, done, p := HandOff(e, names, project, agent, bytecode);
    e.store.faults, e.host.faults, e.host.undoFaults := false, false, false;
    assert e.Inv();
    r := e.Resume();
  }

  /** The engine's operations, and panel updates between them. */
  datatype Operation =
    | Engine(op: Engine.Operation)
    | Panel(names: set<string>, project: Tree, agent: Option<Tree>, bytecode: set<string>)

  method Step(e: Engine.TransactionEngine, op: Operation)
    requires e.Inv()
    modifies e.store, e.host
    ensures e.Inv()
  {
    match op
    case Engine(inner) => e.Step(inner);
    case Panel(names, project, agent, bytecode) =>
      if Acceptable(e.host.setting, names, project, agent) {
        var _, _, _ := HandOff(e, names, project, agent, bytecode);
      }
  }

  /** Every run with panel updates: from a fresh host, any sequence, each stopping anywhere, keeps the engine's invariant. */
  method Run(setting: Setting, registered: set<string>, ops: seq<Operation>) returns (e: Engine.TransactionEngine)
    ensures e.Inv()
  {
    e := new Engine.TransactionEngine(setting, registered);
    for i := 0 to |ops|
      invariant fresh(e) && fresh(e.store) && fresh(e.host) && e.Inv()
    {
      Step(e, ops[i]);
    }
  }
}
