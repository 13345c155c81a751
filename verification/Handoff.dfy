/** The ownership handoff of a panel update (installer/src/handoff.rs): the files of the synced trees change hands from
    the generation the journal recorded to the staged one. Journal keys are normalised absolute paths. */
module Handoff {
  import opened Common
  import opened Text
  import opened Json
  import opened Journal
  import opened Files
  import opened Store

  const PROJECT := "/opt/mtproxy-shared443"
  const AGENT := "/opt/proxy-control/version_agent"
  const CORE_ACTION := "core.runtime"
  const AGENT_ACTION := "version_agent.runtime"

  // ----- scope ----------------------------------------------------------------------------------

  /** `within`: component-wise. */
  predicate Within(host: string, base: string) {
    host == base || base + "/" <= host
  }

  /** What is handed off: the synced entries of the project, and the agent's code if it is staged. */
  datatype Scope = Scope(names: set<string>, agent: bool)
  {
    /** `panel_in_scope`. */
    predicate Covers(host: string) {
      || (agent && Within(host, AGENT))
      || (PROJECT + "/" <= host && Split(host[|PROJECT| + 1..], '/')[0] in names)
    }

    /** The tree a checkpoint's staged files lie under. */
    function Base(actionId: string): Option<string> {
      if actionId == CORE_ACTION then Some(PROJECT)
      else if agent && actionId == AGENT_ACTION then Some(AGENT)
      else None
    }
  }

  /** No path is under both trees. */
  lemma BasesApart(host: string)
    ensures !(Within(host, PROJECT) && Within(host, AGENT))
    ensures CORE_ACTION != AGENT_ACTION
  {
    assert PROJECT[5] == 'm' && AGENT[5] == 'p';
    if Within(host, PROJECT) {
      assert host[5] == 'm';
    }
  }

  /** Every covered path is under the tree of exactly one of the two checkpoints. */
  lemma CoveredHasBase(scope: Scope, host: string)
    requires scope.Covers(host)
    ensures Within(host, PROJECT) || (scope.agent && Within(host, AGENT))
  {
  }

  /** A file of a synced entry is covered, and a file beside it is not taken for one. */
  lemma EntryIsCovered(scope: Scope, name: string, rest: string)
    requires '/' !in name
    ensures PROJECT + "/" <= PROJECT + "/" + (name + rest)
    ensures rest == [] || rest[0] == '/' ==>
              (scope.Covers(PROJECT + "/" + (name + rest)) <==> name in scope.names)
  {
    var host := PROJECT + "/" + (name + rest);
    assert host[|PROJECT| + 1..] == name + rest;
    BasesApart(host);
    SplitPrefix(name, rest, '/');
    assert name + [] == name;
  }

  // ----- declarations -----------------------------------------------------------------------------

  function Declared(c: Checkpoint): Option<map<string, Value>> {
    match Get(c.data, "ownership")
    case Some(Obj(fields)) => Some(fields)
    case _ => None
  }

  function DeclaredDigest(declaration: map<string, Value>, host: string): Option<Value> {
    match Get(declaration, host)
    case Some(Obj(fields)) => Get(fields, "sha256")
    case other => other
  }

  /** A checkpoint owns nothing with another digest than it declared. */
  ghost predicate Agrees(c: Checkpoint) {
    && Declared(c).Some?
    && forall host <- c.ownership :: DeclaredDigest(Declared(c).value, host) == Some(Str(c.ownership[host].sha256))
  }

  method CheckDeclaration(c: Checkpoint) returns (r: Result<(), Error>)
    ensures r.Ok? <==> Agrees(c)
  {
    var declaration := Declared(c);
    if declaration.None? {
      return Err(OwnershipError("checkpoint ownership declaration is invalid"));
    }
    var todo := c.ownership.Keys;
    while todo != {}
      invariant todo <= c.ownership.Keys
      invariant forall host <- c.ownership :: host !in todo ==>
                  DeclaredDigest(declaration.value, host) == Some(Str(c.ownership[host].sha256))
    {
      var host :| host in todo;
      if DeclaredDigest(declaration.value, host) != Some(Str(c.ownership[host].sha256)) {
        return Err(OwnershipError("checkpoint ownership disagrees with adapter data"));
      }
      todo := todo - {host};
    }
    return Ok(());
  }

  // ----- rebasing one checkpoint -------------------------------------------------------------------

  function StagedEntry(c: Checkpoint, identity: FileIdentity): OwnershipEntry {
    OwnershipEntry(c.actionId, c.adapter, identity.kind, Some(false), false, identity.sha256)
  }

  function StagedDeclaration(agent: bool, identity: FileIdentity): Value {
    if agent then Str(identity.sha256)
    else Obj(map["preserve" := Bool(false), "sha256" := Str(identity.sha256)])
  }

  /** What a checkpoint keeps, and what it takes over. */
  ghost predicate Moved<T>(scope: Scope, expected: Tree, base: string, before: map<string, T>, after: map<string, T>,
                           staged: FileIdentity -> T)
  {
    && (forall host :: host in after <==>
          (host in expected && Within(host, base)) || (host in before && !scope.Covers(host)))
    && (forall host <- after ::
          after[host] == if host in expected && Within(host, base) then staged(expected[host]) else before[host])
  }

  ghost predicate IsRebased(c: Checkpoint, d: Checkpoint, scope: Scope, expected: Tree, base: string) {
    && d == c.(data := d.data, ownership := d.ownership)
    && Declared(c).Some? && Declared(d).Some? && d.data == c.data["ownership" := Obj(Declared(d).value)]
    && Moved(scope, expected, base, c.ownership, d.ownership, (identity: FileIdentity) => StagedEntry(c, identity))
    && Moved(scope, expected, base, Declared(c).value, Declared(d).value,
             (identity: FileIdentity) => StagedDeclaration(c.actionId == AGENT_ACTION, identity))
  }

  /** Drop what is covered, then take over the staged files under `base` one by one. */
  method TakeOver<T>(scope: Scope, expected: Tree, base: string, before: map<string, T>, staged: FileIdentity -> T)
    returns (after: map<string, T>)
    ensures Moved(scope, expected, base, before, after, staged)
  {
    hide Within, Scope.Covers;
    after := map host | host in before && !scope.Covers(host) :: before[host];
    var todo := expected.Keys;
    while todo != {}
      invariant todo <= expected.Keys
      invariant forall host :: host in after <==>
                  (host in expected && host !in todo && Within(host, base)) || (host in before && !scope.Covers(host))
      invariant forall host <- after ::
                  after[host] == if host in expected && host !in todo && Within(host, base)
                                 then staged(expected[host]) else before[host]
    {
      var host :| host in todo;
      if Within(host, base) {
        after := after[host := staged(expected[host])];
      }
      todo := todo - {host};
    }
  }

  /** One target of `rebase_panel_ownership`. */
  method RebaseCheckpoint(c: Checkpoint, scope: Scope, expected: Tree, base: string) returns (r: Result<Checkpoint, Error>)
    ensures r.Ok? <==> Declared(c).Some?
    ensures r.Ok? ==> IsRebased(c, r.value, scope, expected, base)
  {
    hide Within, Scope.Covers;
    if Declared(c).None? {
      return Err(OwnershipError("checkpoint ownership declaration is invalid"));
    }
    var agent := c.actionId == AGENT_ACTION;
    var ownership := TakeOver(scope, expected, base, c.ownership, (identity: FileIdentity) => StagedEntry(c, identity));
    var declaration := TakeOver(scope, expected, base, Declared(c).value,
                                (identity: FileIdentity) => StagedDeclaration(agent, identity));
    r := Ok(c.(data := c.data["ownership" := Obj(declaration)], ownership := ownership));
  }

  /** A checkpoint that agreed with its declaration still does. */
  lemma RebasedAgrees(c: Checkpoint, d: Checkpoint, scope: Scope, expected: Tree, base: string)
    requires IsRebased(c, d, scope, expected, base) && Agrees(c)
    requires forall host <- expected :: scope.Covers(host)
    ensures Agrees(d)
  {
    hide Within, Declared;
    forall host <- d.ownership
      ensures DeclaredDigest(Declared(d).value, host) == Some(Str(d.ownership[host].sha256))
    {
      if host in expected && Within(host, base) {
        assert Declared(d).value[host] == StagedDeclaration(c.actionId == AGENT_ACTION, expected[host]);
      } else {
        assert DeclaredDigest(Declared(c).value, host) == Some(Str(c.ownership[host].sha256));
        assert host in Declared(c).value;
      }
    }
  }

  // ----- rebasing the journal ------------------------------------------------------------------------

  ghost predicate OwnsAt(cps: seq<Checkpoint>, k: nat, path: string) {
    k < |cps| && cps[k].phase.Owns(true) && path in cps[k].ownership
  }

  /** Nobody but the Core checkpoint, and the agent's if it is handed off, owns a covered path. */
  ghost predicate OnlyTargetsOwn(cps: seq<Checkpoint>, scope: Scope) {
    forall k: nat, path: string :: OwnsAt(cps, k, path) && scope.Covers(path) ==> scope.Base(cps[k].actionId).Some?
  }

  /** The staged files, all of them covered. */
  ghost predicate IsStaged(scope: Scope, expected: Tree) {
    forall host <- expected :: scope.Covers(host)
  }

  /** The targets are there and count as owners. */
  ghost predicate HasTargets(cps: seq<Checkpoint>, scope: Scope) {
    && DistinctActions(cps)
    && (exists k :: 0 <= k < |cps| && cps[k].actionId == CORE_ACTION)
    && (scope.agent ==> exists k :: 0 <= k < |cps| && cps[k].actionId == AGENT_ACTION)
    && (forall k :: 0 <= k < |cps| && scope.Base(cps[k].actionId).Some? ==> cps[k].phase.Owns(true))
  }

  /** Checkpoint by checkpoint: the targets are rebased, the others are as they were. */
  ghost predicate JournalRebased(cps: seq<Checkpoint>, after: seq<Checkpoint>, scope: Scope, expected: Tree) {
    && |after| == |cps|
    && forall k :: 0 <= k < |cps| ==>
         match scope.Base(cps[k].actionId)
         case None => after[k] == cps[k]
         case Some(base) => IsRebased(cps[k], after[k], scope, expected, base)
  }

  /** Who owns a path after a rebase. */
  lemma OwnerAfter(cps: seq<Checkpoint>, after: seq<Checkpoint>, scope: Scope, expected: Tree, k: nat, path: string)
    requires JournalRebased(cps, after, scope, expected) && HasTargets(cps, scope) && IsStaged(scope, expected) && k < |cps|
    ensures OwnsAt(after, k, path) <==>
              match scope.Base(cps[k].actionId)
              case None => OwnsAt(cps, k, path)
              case Some(base) => (path in expected && Within(path, base)) || (OwnsAt(cps, k, path) && !scope.Covers(path))
    ensures OwnsAt(after, k, path) && path !in expected ==> after[k].ownership[path] == cps[k].ownership[path]
    ensures scope.Base(cps[k].actionId).Some? && OwnsAt(after, k, path) && path in expected ==>
              after[k].ownership[path] == StagedEntry(cps[k], expected[path])
  {
    hide Within, Scope.Covers, Declared;
  }

  /** A staged file has one owner. */
  lemma StagedOwner(cps: seq<Checkpoint>, after: seq<Checkpoint>, scope: Scope, expected: Tree, path: string) returns (k: nat)
    requires JournalRebased(cps, after, scope, expected) && HasTargets(cps, scope) && IsStaged(scope, expected)
    requires path in expected
    ensures OwnsAt(after, k, path) && scope.Base(cps[k].actionId).Some?
  {
    hide Within, Scope.Covers, IsRebased;
    CoveredHasBase(scope, path);
    if Within(path, PROJECT) {
      k :| 0 <= k < |cps| && cps[k].actionId == CORE_ACTION;
    } else {
      k :| 0 <= k < |cps| && cps[k].actionId == AGENT_ACTION;
      BasesApart(path);
    }
    OwnerAfter(cps, after, scope, expected, k, path);
  }

  /** Two owners after a rebase: only if someone else owned a covered path before. */
  lemma OneOwner(cps: seq<Checkpoint>, after: seq<Checkpoint>, scope: Scope, expected: Tree, k: nat, l: nat, path: string)
    requires JournalRebased(cps, after, scope, expected) && HasTargets(cps, scope) && IsStaged(scope, expected)
    requires OnlyTargetsOwn(cps, scope) && OwnDisjoint(cps, true)
    requires k < l < |after|
    ensures !(OwnsAt(after, k, path) && OwnsAt(after, l, path))
  {
    hide Within, Scope.Covers, IsRebased;
    OwnerAfter(cps, after, scope, expected, k, path);
    OwnerAfter(cps, after, scope, expected, l, path);
    BasesApart(path);
    assert OwnsAt(cps, k, path) && OwnsAt(cps, l, path) ==> !OwnDisjoint(cps, true);
    assert cps[k].actionId != cps[l].actionId;
  }

  lemma TwoOwners(cps: seq<Checkpoint>, k: nat, l: nat, path: string)
    requires OwnsAt(cps, k, path) && OwnsAt(cps, l, path) && k != l
    ensures !OwnDisjoint(cps, true)
  {
    assert path in cps[k].ownership.Keys * cps[l].ownership.Keys;
  }

  /** The covered paths of a journal are exactly the staged files, each with its staged identity, and each path has one
      owner. */
  ghost predicate HandedOver(after: seq<Checkpoint>, scope: Scope, expected: Tree) {
    && OwnDisjoint(after, true)
    && (forall path <- OwnUnion(after, true) :: scope.Covers(path) ==> path in expected)
    && forall path <- expected ::
         && path in OwnUnion(after, true)
         && OwnUnion(after, true)[path].kind == expected[path].kind
         && OwnUnion(after, true)[path].sha256 == expected[path].sha256
         && !OwnUnion(after, true)[path].preserve && OwnUnion(after, true)[path].mutable == Some(false)
  }

  ghost predicate OutsideKept(before: seq<Checkpoint>, after: seq<Checkpoint>, scope: Scope) {
    forall path :: !scope.Covers(path) ==>
      && (path in OwnUnion(before, true) <==> path in OwnUnion(after, true))
      && (path in OwnUnion(before, true) ==> OwnUnion(before, true)[path] == OwnUnion(after, true)[path])
  }

  /** A rebase hands over the scope exactly when nobody else owned a part of it. */
  lemma HandoffSound(cps: seq<Checkpoint>, after: seq<Checkpoint>, scope: Scope, expected: Tree)
    requires JournalRebased(cps, after, scope, expected) && HasTargets(cps, scope) && IsStaged(scope, expected)
    requires OwnDisjoint(cps, true)
    ensures HandedOver(after, scope, expected) <==> OnlyTargetsOwn(cps, scope)
    ensures OnlyTargetsOwn(cps, scope) ==> OutsideKept(cps, after, scope)
  {
    if OnlyTargetsOwn(cps, scope) {
      RebasedIsDisjoint(cps, after, scope, expected);
      RebasedCovers(cps, after, scope, expected);
      RebasedKeeps(cps, after, scope, expected);
    } else {
      OthersInTheWay(cps, after, scope, expected);
    }
  }

  lemma RebasedIsDisjoint(cps: seq<Checkpoint>, after: seq<Checkpoint>, scope: Scope, expected: Tree)
    requires JournalRebased(cps, after, scope, expected) && HasTargets(cps, scope) && IsStaged(scope, expected)
    requires OnlyTargetsOwn(cps, scope) && OwnDisjoint(cps, true)
    ensures OwnDisjoint(after, true)
  {
    hide JournalRebased, HasTargets, IsStaged, OnlyTargetsOwn;
    forall k, l | 0 <= k < l < |after| && after[k].phase.Owns(true) && after[l].phase.Owns(true)
      ensures after[k].ownership.Keys !! after[l].ownership.Keys
    {
      forall path | path in after[k].ownership ensures path !in after[l].ownership {
        OneOwner(cps, after, scope, expected, k, l, path);
      }
    }
  }

  lemma InUnion(cps: seq<Checkpoint>, k: nat, path: string)
    requires OwnDisjoint(cps, true) && OwnsAt(cps, k, path)
    ensures path in OwnUnion(cps, true) && OwnUnion(cps, true)[path] == cps[k].ownership[path]
  {
    OwnUnionMembers(cps, true);
  }

  lemma UnionOwner(cps: seq<Checkpoint>, path: string) returns (k: nat)
    requires path in OwnUnion(cps, true)
    ensures OwnsAt(cps, k, path)
  {
    OwnUnionMembers(cps, true);
    k :| 0 <= k < |cps| && cps[k].phase.Owns(true) && path in cps[k].ownership;
  }

  lemma RebasedCovers(cps: seq<Checkpoint>, after: seq<Checkpoint>, scope: Scope, expected: Tree)
    requires JournalRebased(cps, after, scope, expected) && HasTargets(cps, scope) && IsStaged(scope, expected)
    requires OnlyTargetsOwn(cps, scope) && OwnDisjoint(after, true)
    ensures HandedOver(after, scope, expected)
  {
    hide OwnUnion, Within, Scope.Covers, IsRebased, OwnDisjoint;
    forall path <- OwnUnion(after, true) | scope.Covers(path) ensures path in expected {
      var k := UnionOwner(after, path);
      OwnerAfter(cps, after, scope, expected, k, path);
    }
    forall path <- expected
      ensures path in OwnUnion(after, true)
      ensures OwnUnion(after, true)[path].kind == expected[path].kind
      ensures OwnUnion(after, true)[path].sha256 == expected[path].sha256
      ensures !OwnUnion(after, true)[path].preserve && OwnUnion(after, true)[path].mutable == Some(false)
    {
      var k := StagedOwner(cps, after, scope, expected, path);
      OwnerAfter(cps, after, scope, expected, k, path);
      InUnion(after, k, path);
    }
  }

  lemma RebasedKeeps(cps: seq<Checkpoint>, after: seq<Checkpoint>, scope: Scope, expected: Tree)
    requires JournalRebased(cps, after, scope, expected) && HasTargets(cps, scope) && IsStaged(scope, expected)
    requires OwnDisjoint(cps, true) && OwnDisjoint(after, true)
    ensures OutsideKept(cps, after, scope)
  {
    hide OwnUnion, Within, Scope.Covers, IsRebased, OwnDisjoint;
    forall path | !scope.Covers(path)
      ensures path in OwnUnion(cps, true) <==> path in OwnUnion(after, true)
      ensures path in OwnUnion(cps, true) ==> OwnUnion(cps, true)[path] == OwnUnion(after, true)[path]
    {
      if path in OwnUnion(cps, true) {
        var k := UnionOwner(cps, path);
        OwnerAfter(cps, after, scope, expected, k, path);
        InUnion(cps, k, path);
        InUnion(after, k, path);
      }
      if path in OwnUnion(after, true) {
        var k := UnionOwner(after, path);
        OwnerAfter(cps, after, scope, expected, k, path);
        InUnion(cps, k, path);
      }
    }
  }

  /** A covered path of another checkpoint stays where it is: a second owner if it is staged, and a leftover if not. */
  lemma OthersInTheWay(cps: seq<Checkpoint>, after: seq<Checkpoint>, scope: Scope, expected: Tree)
    requires JournalRebased(cps, after, scope, expected) && HasTargets(cps, scope) && IsStaged(scope, expected)
    requires !OnlyTargetsOwn(cps, scope)
    ensures !HandedOver(after, scope, expected)
  {
    hide OwnUnion, Within, Scope.Covers, IsRebased;
    var k: nat, path: string :| OwnsAt(cps, k, path) && scope.Covers(path) && scope.Base(cps[k].actionId).None?;
    OwnerAfter(cps, after, scope, expected, k, path);
    if path in expected {
      var l := StagedOwner(cps, after, scope, expected, path);
      TwoOwners(after, k, l, path);
    } else if OwnDisjoint(after, true) {
      InUnion(after, k, path);
    }
  }

  // ----- the operations --------------------------------------------------------------------------------

  /** Slot of an action in a journal of distinct actions. */
  lemma SlotOf(cps: seq<Checkpoint>, actionId: string) returns (k: nat)
    requires DistinctActions(cps)
    ensures k <= |cps| && (k < |cps| ==> cps[k].actionId == actionId)
    ensures forall j :: 0 <= j < |cps| && j != k ==> cps[j].actionId != actionId
    ensures FindCheckpoint(cps, actionId) == if k < |cps| then Some(cps[k]) else None
  {
    if j :| 0 <= j < |cps| && cps[j].actionId == actionId {
      k := j;
    } else {
      k := |cps|;
    }
    FindCheckpointAt(cps, actionId, k);
  }

  /** Rebase the target of one action in a journal. */
  method RebaseTarget(cps: seq<Checkpoint>, original: seq<Checkpoint>, actionId: string, scope: Scope, expected: Tree,
                      base: string)
    returns (r: Result<seq<Checkpoint>, Error>, ghost k: nat)
    requires DistinctActions(original) && |cps| == |original|
    requires forall j :: 0 <= j < |cps| ==> cps[j].actionId == original[j].actionId
    ensures r.Ok? ==>
              && k < |original| && original[k].actionId == actionId && |r.value| == |cps|
              && IsRebased(original[k], r.value[k], scope, expected, base) && r.value == cps[k := r.value[k]]
    ensures r.Err? ==> FindCheckpoint(original, actionId).None? || Declared(FindCheckpoint(original, actionId).value).None?
  {
    hide Within, Scope.Covers, Declared, FindCheckpoint, WithCheckpoint, Moved;
    k := SlotOf(original, actionId);
    var found := FindCheckpoint(original, actionId);
    if found.None? {
      return Err(TransactionError("active checkpoint is unavailable")), k;
    }
    var rebased := RebaseCheckpoint(found.value, scope, expected, base);
    if rebased.Err? {
      return Err(rebased.error), k;
    }
    WithCheckpointAt(cps, rebased.value, k);
    return Ok(WithCheckpoint(cps, rebased.value)), k;
  }

  /** The action has no checkpoint, or one without a declaration. */
  ghost predicate Unready(cps: seq<Checkpoint>, action: string) {
    FindCheckpoint(cps, action).None? || Declared(FindCheckpoint(cps, action).value).None?
  }

  /** `rebase_panel_ownership`. */
  method RebasePanelOwnership(s: TransactionState, scope: Scope, expected: Tree) returns (r: Result<TransactionState, Error>)
    requires DistinctActions(s.checkpoints)
    ensures r.Ok? ==>
              && r.value == s.(checkpoints := r.value.checkpoints)
              && JournalRebased(s.checkpoints, r.value.checkpoints, scope, expected)
    ensures r.Err? ==>
              Unready(s.checkpoints, CORE_ACTION) || (scope.agent && Unready(s.checkpoints, AGENT_ACTION))
  {
    hide Within, Scope.Covers, Declared, FindCheckpoint, Moved;
    BasesApart("");
    var core, k := RebaseTarget(s.checkpoints, s.checkpoints, CORE_ACTION, scope, expected, PROJECT);
    if core.Err? {
      return Err(core.error);
    }
    var cps := core.value;
    if scope.agent {
      var agent, l := RebaseTarget(cps, s.checkpoints, AGENT_ACTION, scope, expected, AGENT);
      if agent.Err? {
        return Err(agent.error);
      }
      cps := agent.value;
    }
    return Ok(s.(checkpoints := cps));
  }

  /** The three files say what `s` determines. */
  ghost predicate Describes(store: TransactionStore, s: TransactionState)
    reads store
  {
    && store.journal == Some(s) && OwnDisjoint(s.checkpoints, true)
    && store.ownershipFile == Some(OwnershipFile(OwnUnion(s.checkpoints, true)))
    && store.reportFile == Some(ReportFile(s))
  }

  /** `state.json` first, then what follows from it. */
  method WriteJournal(store: TransactionStore, s: TransactionState) returns (r: Result<(), Error>)
    requires store.Valid()
    modifies store`stateFile, store`journal, store`ownershipFile, store`reportFile
    ensures store.Valid()
    ensures store.journal == old(store.journal) || store.journal == Some(s)
    ensures r.Ok? ==> Describes(store, s)
    ensures !store.faults ==> if Validate(s).Ok? && OwnDisjoint(s.checkpoints, true) then r.Ok? else r.Err? && r.error.Ordinary?
  {
    hide Validate, StateToValue, OwnUnion, OwnDisjoint, ReportFile, OwnershipFile;
    r := store.WriteState(s);
    if r.Err? {
      return;
    }
    var owned := CollectOwnership(s.checkpoints, true);
    if owned.Err? {
      return Err(owned.error);
    }
    r := store.WriteOwnership(owned.value);
    if r.Err? {
      return;
    }
    r := store.WriteReport(ReportFile(s));
  }

  /** How a rebase of the journal ends: written; refused, with the previous journal back; the process gone; or neither
      journal whole. */
  datatype Ending = Written | Restored(error: Error) | Died | RecoveryFailed

  /** `write_rebased`. */
  method WriteRebased(store: TransactionStore, previous: TransactionState, updated: TransactionState) returns (e: Ending)
    requires store.Valid() && store.journal == Some(previous)
    modifies store`stateFile, store`journal, store`ownershipFile, store`reportFile
    ensures store.Valid() && (store.journal == Some(previous) || store.journal == Some(updated))
    ensures e.Written? ==> Describes(store, updated)
    ensures e.Restored? ==> Describes(store, previous) && e.error != Fatal
    ensures !store.faults && OwnDisjoint(previous.checkpoints, true) ==>
              if Validate(updated).Ok? && OwnDisjoint(updated.checkpoints, true) then e.Written? else e.Restored?
  {
    hide StateToValue, OwnUnion, OwnDisjoint, ReportFile, OwnershipFile;
    var wrote := WriteJournal(store, updated);
    if wrote.Ok? {
      return Written;
    }
    if wrote.error.Fatal? {
      return Died;
    }
    var restored := WriteJournal(store, previous);
    if restored.Ok? {
      return Restored(wrote.error);
    }
    return if restored.error.Fatal? then Died else RecoveryFailed;
  }

  /** What `prepare` leaves for `commit`. */
  datatype Prepared = Prepared(state: TransactionState, scope: Scope, expected: Tree)
  {
    ghost predicate Sound() {
      && HasTargets(state.checkpoints, scope) && OwnDisjoint(state.checkpoints, true) && IsStaged(scope, expected)
      && forall c <- state.checkpoints :: scope.Base(c.actionId).Some? ==> Agrees(c)
    }
  }

  predicate Candidate(c: Checkpoint, adapter: string, verified: bool) {
    c.adapter == adapter && (c.phase.Verified? || !verified)
  }

  /** `found` is what there is of an adapter: nothing, or one checkpoint, verified and of the right action. */
  ghost predicate IsSole(cps: seq<Checkpoint>, adapter: string, actionId: string, verified: bool, found: Option<Checkpoint>) {
    match found
    case None => forall c <- cps :: !Candidate(c, adapter, verified)
    case Some(c) =>
      && c.actionId == actionId && c.phase.Verified? && Candidate(c, adapter, verified)
      && exists k :: 0 <= k < |cps| && cps[k] == c && OnlyAt(cps, adapter, verified, k)
  }

  ghost predicate OnlyAt(cps: seq<Checkpoint>, adapter: string, verified: bool, k: nat) {
    forall j :: 0 <= j < |cps| && Candidate(cps[j], adapter, verified) ==> j == k
  }

  lemma OneSole(cps: seq<Checkpoint>, adapter: string, actionId: string, verified: bool, c: Option<Checkpoint>, d: Option<Checkpoint>)
    requires IsSole(cps, adapter, actionId, verified, c) && IsSole(cps, adapter, actionId, verified, d)
    ensures c == d
  {
    hide Candidate;
  }

  /** The one checkpoint of an adapter, if it is the right one and verified; `verified` passes over the others. */
  method SoleCheckpoint(cps: seq<Checkpoint>, adapter: string, actionId: string, verified: bool)
    returns (r: Result<Option<Checkpoint>, Error>)
    ensures r.Ok? ==> IsSole(cps, adapter, actionId, verified, r.value)
    ensures r.Err? ==> forall found :: !IsSole(cps, adapter, actionId, verified, found)
  {
    hide Candidate;
    var found: Option<Checkpoint> := None;
    ghost var at := 0;
    for i := 0 to |cps|
      invariant found.None? ==> forall c <- cps[..i] :: !Candidate(c, adapter, verified)
      invariant found.Some? ==> at < i && cps[at] == found.value && Candidate(cps[at], adapter, verified)
      invariant found.Some? ==> OnlyAt(cps[..i], adapter, verified, at)
    {
      if Candidate(cps[i], adapter, verified) {
        if found.Some? {
          TwoCandidates(cps, adapter, actionId, verified, at, i);
          return Err(TransactionError("active checkpoint is unavailable"));
        }
        found, at := Some(cps[i]), i;
      }
    }
    assert cps[..|cps|] == cps;
    if found.Some? && (found.value.actionId != actionId || !found.value.phase.Verified?) {
      return Err(TransactionError("active checkpoint is unavailable"));
    }
    return Ok(found);
  }

  lemma TwoCandidates(cps: seq<Checkpoint>, adapter: string, actionId: string, verified: bool, i: nat, j: nat)
    requires i < j < |cps| && Candidate(cps[i], adapter, verified) && Candidate(cps[j], adapter, verified)
    ensures forall found :: !IsSole(cps, adapter, actionId, verified, found)
  {
    hide Candidate;
  }

  /** The path belongs to a replaced tree, and its checkpoint owns it. */
  predicate Native(core: Checkpoint, agent: Option<Checkpoint>, path: string) {
    if agent.Some? && Within(path, AGENT) then path in agent.value.ownership else path in core.ownership
  }

  /** `read_active_state`: an active installer transaction whose plan and ownership file agree with it. */
  method ReadActive(store: TransactionStore) returns (r: Result<(TransactionState, Ownership), Error>)
    requires store.Valid()
    ensures r.Ok? ==> store.journal == Some(r.value.0) && IsActive(store, r.value.0)
                      && r.value.1 == OwnUnion(r.value.0.checkpoints, true)
    ensures !store.faults && store.journal.Some? ==> (r.Ok? <==> IsActive(store, store.journal.value))
  {
    hide StateToValue, OwnUnion, OwnDisjoint, OwnershipFile, Validate;
    var read := store.ReadState();
    if read.Err? {
      return Err(read.error);
    }
    var s := read.value;
    var plan := store.ReadPlan();
    if plan.Err? {
      return Err(plan.error);
    }
    if plan.value.digest != s.planDigest || s.acceptedDigest != s.planDigest {
      return Err(TransactionError("persisted plan digest does not match transaction state"));
    }
    if !s.status.Active? || s.origin != ORIGIN_INSTALLER {
      return Err(TransactionError("panel ownership requires an active installer transaction"));
    }
    var owned := CollectOwnership(s.checkpoints, true);
    if owned.Err? {
      return Err(owned.error);
    }
    if store.ownershipFile != Some(OwnershipFile(owned.value)) {
      return Err(OwnershipError("ownership journal disagrees with checkpoint"));
    }
    return Ok((s, owned.value));
  }

  ghost predicate IsActive(store: TransactionStore, s: TransactionState)
    reads store
  {
    && s.status.Active? && s.origin == ORIGIN_INSTALLER && OwnDisjoint(s.checkpoints, true)
    && store.planFile.Some? && store.planFile.value.digest == s.planDigest == s.acceptedDigest
    && store.ownershipFile == Some(OwnershipFile(OwnUnion(s.checkpoints, true)))
  }

  ghost predicate AreTargets(cps: seq<Checkpoint>, hasAgent: bool, core: Checkpoint, agent: Option<Checkpoint>) {
    && IsSole(cps, "core", CORE_ACTION, true, Some(core))
    && (if hasAgent then IsSole(cps, "version_agent", AGENT_ACTION, false, agent) else agent.None?)
    && Agrees(core) && (agent.Some? ==> Agrees(agent.value))
  }

  lemma TargetsAreIn(cps: seq<Checkpoint>, hasAgent: bool, core: Checkpoint, agent: Option<Checkpoint>)
    requires AreTargets(cps, hasAgent, core, agent)
    ensures core in cps && core.actionId == CORE_ACTION && core.phase.Verified?
    ensures agent.Some? ==> agent.value in cps && agent.value.actionId == AGENT_ACTION && agent.value.phase.Verified?
  {
    hide Candidate, Agrees, OnlyAt;
  }

  /** The checkpoints whose trees are replaced. */
  method FindTargets(cps: seq<Checkpoint>, hasAgent: bool) returns (r: Result<(Checkpoint, Option<Checkpoint>), Error>)
    ensures r.Ok? ==> AreTargets(cps, hasAgent, r.value.0, r.value.1)
    ensures r.Err? ==> forall core, agent :: !AreTargets(cps, hasAgent, core, agent)
  {
    hide IsSole, Agrees;
    var core := SoleCheckpoint(cps, "core", CORE_ACTION, true);
    if core.Err? || core.value.None? {
      NoCore(cps, hasAgent, core);
      return Err(TransactionError("active Core checkpoint is unavailable"));
    }
    var agents := Ok(None);
    if hasAgent {
      agents := SoleCheckpoint(cps, "version_agent", AGENT_ACTION, false);
      if agents.Err? {
        return Err(agents.error);
      }
    }
    OnlyTheseTargets(cps, hasAgent, core.value.value, agents.value);
    var checked := CheckDeclaration(core.value.value);
    if checked.Err? {
      return Err(checked.error);
    }
    if agents.value.Some? {
      checked := CheckDeclaration(agents.value.value);
      if checked.Err? {
        return Err(checked.error);
      }
    }
    return Ok((core.value.value, agents.value));
  }

  lemma NoCore(cps: seq<Checkpoint>, hasAgent: bool, core: Result<Option<Checkpoint>, Error>)
    requires core.Err? ==> forall found :: !IsSole(cps, "core", CORE_ACTION, true, found)
    requires core.Ok? ==> core.value.None? && IsSole(cps, "core", CORE_ACTION, true, None)
    ensures forall c, a :: !AreTargets(cps, hasAgent, c, a)
  {
    hide IsSole, Agrees;
    forall c, a ensures !AreTargets(cps, hasAgent, c, a) {
      if core.Ok? && IsSole(cps, "core", CORE_ACTION, true, Some(c)) {
        OneSole(cps, "core", CORE_ACTION, true, None, Some(c));
      }
    }
  }

  lemma OnlyTheseTargets(cps: seq<Checkpoint>, hasAgent: bool, core: Checkpoint, agent: Option<Checkpoint>)
    requires IsSole(cps, "core", CORE_ACTION, true, Some(core))
    requires if hasAgent then IsSole(cps, "version_agent", AGENT_ACTION, false, agent) else agent.None?
    ensures forall c, a :: AreTargets(cps, hasAgent, c, a) ==> c == core && a == agent
  {
    hide IsSole, Agrees;
    forall c, a | AreTargets(cps, hasAgent, c, a) ensures c == core && a == agent {
      OneSole(cps, "core", CORE_ACTION, true, Some(core), Some(c));
      if hasAgent {
        OneSole(cps, "version_agent", AGENT_ACTION, false, agent, a);
      }
    }
  }

  /** What `prepare` asks of an active transaction: one verified Core checkpoint, and one of the version agent if it has
      any and the update brings one; both in agreement with their declarations; every owned file as it was; and in the
      trees nothing but what these own and bytecode. */
  ghost predicate Presentable(s: TransactionState, tree: Tree, agentManaged: set<string>, bytecode: set<string>,
                              names: set<string>, hasAgent: bool, core: Checkpoint, agent: Option<Checkpoint>)
  {
    && AreTargets(s.checkpoints, hasAgent, core, agent)
    && Intact(tree, agentManaged, OwnUnion(s.checkpoints, true))
    && NothingForeign(tree, bytecode, names, core, agent)
  }

  /** But for bytecode, the project's part of the tree holds only files of the Core, and the agent's, if it is replaced,
      only files of the agent. */
  ghost predicate NothingForeign(tree: Tree, bytecode: set<string>, names: set<string>, core: Checkpoint, agent: Option<Checkpoint>) {
    forall path <- tree :: path !in bytecode ==>
      && (Scope(names, false).Covers(path) ==> path in core.ownership)
      && (agent.Some? && Within(path, AGENT) ==> path in agent.value.ownership)
  }

  lemma NativeMeaning(tree: Tree, bytecode: set<string>, names: set<string>, core: Checkpoint, agent: Option<Checkpoint>)
    ensures NothingForeign(tree, bytecode, names, core, agent) <==>
            forall path <- tree :: Scope(names, agent.Some?).Covers(path) && path !in bytecode ==> Native(core, agent, path)
  {
    forall path <- tree
      ensures Scope(names, agent.Some?).Covers(path) <==> Scope(names, false).Covers(path) || (agent.Some? && Within(path, AGENT))
      ensures !(Scope(names, false).Covers(path) && Within(path, AGENT))
    {
      BasesApart(path);
    }
    hide Within, Scope.Covers;
  }

  lemma PreparedIsSound(s: TransactionState, hasAgent: bool, core: Checkpoint, found: Option<Checkpoint>, names: set<string>,
                        project: Tree, expected: Tree, tree: Tree, agentManaged: set<string>, bytecode: set<string>)
    requires Validate(s).Ok? && OwnDisjoint(s.checkpoints, true)
    requires Presentable(s, tree, agentManaged, bytecode, names, hasAgent, core, found)
    requires forall host <- project :: Scope(names, false).Covers(host)
    requires forall host <- expected :: host in project || (found.Some? && Within(host, AGENT))
    ensures Prepared.Prepared(s, Scope(names, found.Some?), expected).Sound()
    ensures var owned := OwnUnion(s.checkpoints, true);
            && (forall path <- tree :: Scope(names, found.Some?).Covers(path) && path !in bytecode ==> path in owned)
            && (owned.Keys !! bytecode ==> OnlyTargetsOwn(s.checkpoints, Scope(names, found.Some?)))
  {
    hide Within, Scope.Covers, OwnUnion, Intact, Agrees, Validate, OwnDisjoint, Native, IsSole, OnlyTargetsOwn;
    var scope := Scope(names, found.Some?);
    NativeMeaning(tree, bytecode, names, core, found);
    ValidatedIsDistinct(s);
    TargetsAreIn(s.checkpoints, hasAgent, core, found);
    PreparedTargets(s.checkpoints, scope, core, found);
    WiderScope(scope, project, expected);
    NativeIsOwned(s.checkpoints, core, found);
    if OwnUnion(s.checkpoints, true).Keys !! bytecode {
      NativeIsOnly(s.checkpoints, scope, core, found, tree, agentManaged, bytecode);
    }
  }

  lemma ActiveFacts(store: TransactionStore, s: TransactionState)
    requires store.Valid() && store.journal == Some(s) && IsActive(store, s)
    ensures Validate(s).Ok? && OwnDisjoint(s.checkpoints, true) && s.status.Active?
    ensures store.ownershipFile == Some(OwnershipFile(OwnUnion(s.checkpoints, true)))
  {
    hide Validate, OwnDisjoint, OwnershipFile, OwnUnion, StateToValue;
  }

  /** `prepare`, for an update that has not been synced yet. `project` and `agent` are the staged files of the two trees,
      `bytecode` the files the interpreter left in them. */
  method Prepare(store: TransactionStore, tree: Tree, agentManaged: set<string>, bytecode: set<string>,
                 names: set<string>, project: Tree, agent: Option<Tree>)
    returns (r: Result<Option<Prepared>, Error>)
    requires store.Valid()
    requires forall host <- project :: Scope(names, false).Covers(host)
    requires agent.Some? ==> forall host <- agent.value :: Within(host, AGENT)
    ensures store.journal.None? ==> r == Ok(None)
    ensures r == Ok(None) ==> store.journal.None?
    ensures !store.faults && store.journal.Some? ==>
              (r.Ok? <==>
                 && IsActive(store, store.journal.value)
                 && exists core, found ::
                      Presentable(store.journal.value, tree, agentManaged, bytecode, names, agent.Some?, core, found))
    ensures r.Ok? && r.value.Some? ==>
              var p := r.value.value;
              && store.journal == Some(p.state) && p.state.status.Active? && p.Sound()
              && store.ownershipFile == Some(OwnershipFile(OwnUnion(p.state.checkpoints, true)))
              && Intact(tree, agentManaged, OwnUnion(p.state.checkpoints, true))
              && (p.scope.agent ==> agent.Some?) && p.expected == project + (if p.scope.agent then agent.value else map[])
              && (forall path <- tree :: p.scope.Covers(path) && path !in bytecode ==> path in OwnUnion(p.state.checkpoints, true))
              && (OwnUnion(p.state.checkpoints, true).Keys !! bytecode ==> OnlyTargetsOwn(p.state.checkpoints, p.scope))
  {
    hide Within, Scope.Covers, OwnUnion, Intact, Agrees, OwnershipFile, StateToValue, Validate, OwnDisjoint, IsActive;
    hide Native, NothingForeign, IsSole, Candidate, Prepared.Sound, OnlyTargetsOwn;
    if store.stateFile.None? {
      return Ok(None);
    }
    var read := ReadActive(store);
    if read.Err? {
      return Err(read.error);
    }
    var (s, owned) := read.value;
    var targets := FindTargets(s.checkpoints, agent.Some?);
    if targets.Err? {
      return Err(targets.error);
    }
    var (core, found) := targets.value;
    OnlyTheseTargets(s.checkpoints, agent.Some?, core, found);
    NativeMeaning(tree, bytecode, names, core, found);
    var intact := AssertOwned(tree, agentManaged, owned);
    if intact.Err? {
      return Err(intact.error);
    }
    var scope := Scope(names, found.Some?);
    if exists path <- tree :: scope.Covers(path) && path !in bytecode && !Native(core, found, path) {
      return Err(OwnershipError("foreign file in panel sync scope"));
    }
    var p := Prepared.Prepared(s, scope, project + (if scope.agent then agent.value else map[]));
    ActiveFacts(store, s);
    PreparedIsSound(s, agent.Some?, core, found, names, project, p.expected, tree, agentManaged, bytecode);
    return Ok(Some(p));
  }

  lemma ValidatedIsDistinct(s: TransactionState)
    requires Validate(s).Ok?
    ensures DistinctActions(s.checkpoints)
  {
  }

  lemma PreparedTargets(cps: seq<Checkpoint>, scope: Scope, core: Checkpoint, agent: Option<Checkpoint>)
    requires DistinctActions(cps) && core in cps && core.actionId == CORE_ACTION && core.phase.Verified?
    requires scope.agent <==> agent.Some?
    requires agent.Some? ==> agent.value in cps && agent.value.actionId == AGENT_ACTION && agent.value.phase.Verified?
    requires Agrees(core) && (agent.Some? ==> Agrees(agent.value))
    ensures HasTargets(cps, scope)
    ensures forall c <- cps :: scope.Base(c.actionId).Some? ==> Agrees(c)
  {
    hide Agrees;
    var k :| 0 <= k < |cps| && cps[k] == core;
    if agent.Some? {
      var l :| 0 <= l < |cps| && cps[l] == agent.value;
    }
  }

  lemma WiderScope(scope: Scope, project: Tree, expected: Tree)
    requires forall host <- project :: Scope(scope.names, false).Covers(host)
    requires forall host <- expected :: host in project || (scope.agent && Within(host, AGENT))
    ensures IsStaged(scope, expected)
  {
  }

  lemma NativeIsOwned(cps: seq<Checkpoint>, core: Checkpoint, agent: Option<Checkpoint>)
    requires core in cps && core.phase.Verified? && (agent.Some? ==> agent.value in cps && agent.value.phase.Verified?)
    ensures forall path :: Native(core, agent, path) ==> path in OwnUnion(cps, true)
  {
    hide OwnUnion, Within;
    OwnUnionMembers(cps, true);
    var k :| 0 <= k < |cps| && cps[k] == core;
    if agent.Some? {
      var l :| 0 <= l < |cps| && cps[l] == agent.value;
    }
  }

  /** When every covered file is native and every owned file is there, nobody else owns a covered one. */
  lemma NativeIsOnly(cps: seq<Checkpoint>, scope: Scope, core: Checkpoint, agent: Option<Checkpoint>, tree: Tree,
                     agentManaged: set<string>, bytecode: set<string>)
    requires core in cps && core.phase.Verified? && core.actionId == CORE_ACTION && (scope.agent <==> agent.Some?)
    requires agent.Some? ==> agent.value in cps && agent.value.phase.Verified? && agent.value.actionId == AGENT_ACTION
    requires OwnDisjoint(cps, true) && Intact(tree, agentManaged, OwnUnion(cps, true))
    requires OwnUnion(cps, true).Keys !! bytecode
    requires forall path <- tree :: scope.Covers(path) && path !in bytecode ==> Native(core, agent, path)
    ensures OnlyTargetsOwn(cps, scope)
  {
    hide OwnUnion, Within, Scope.Covers, OwnDisjoint;
    var c :| 0 <= c < |cps| && cps[c] == core;
    forall k: nat, path: string | OwnsAt(cps, k, path) && scope.Covers(path)
      ensures scope.Base(cps[k].actionId).Some?
    {
      InUnion(cps, k, path);
      assert Matches(tree, agentManaged, path, OwnUnion(cps, true)[path]);
      assert Native(core, agent, path);
      if path in core.ownership {
        if k != c {
          TwoOwners(cps, k, c, path);
        }
      } else {
        var l :| 0 <= l < |cps| && cps[l] == agent.value;
        if k != l {
          TwoOwners(cps, k, l, path);
        }
      }
    }
  }

  /** What the archive promised is on disk, and what else the transaction owns is as it was. */
  method VerifyInstalled(p: Prepared, tree: Tree, agentManaged: set<string>) returns (r: Result<(), Error>)
    requires p.Sound()
    ensures r.Ok? <==> Installed(p, tree, agentManaged)
  {
    hide Scope.Covers, OwnUnion, Intact, HasTargets, IsStaged, OwnDisjoint;
    var owned := CollectOwnership(p.state.checkpoints, true);
    assert owned.Ok?; // the paths were disjoint in `prepare`
    var outside := map path | path in owned.value && !p.scope.Covers(path) :: owned.value[path];
    var intact := AssertOwned(tree, agentManaged, outside);
    if intact.Err? {
      return Err(intact.error);
    }
    if exists path <- tree :: p.scope.Covers(path) && path !in p.expected {
      return Err(OwnershipError("removed or foreign panel file remains"));
    }
    if exists host <- p.expected :: host !in tree || tree[host] != p.expected[host] {
      return Err(OwnershipError("panel file differs from verified archive"));
    }
    return Ok(());
  }

  /** `commit`: when the installed trees hold exactly the staged files, the journal is rebased onto them. */
  method Commit(store: TransactionStore, p: Prepared, tree: Tree, agentManaged: set<string>) returns (r: Result<Ending, Error>)
    requires store.Valid() && p.Sound()
    modifies store`stateFile, store`journal, store`ownershipFile, store`reportFile
    ensures store.Valid()
    ensures r.Err? ==>
              && store.journal == old(store.journal) && store.ownershipFile == old(store.ownershipFile)
              && store.reportFile == old(store.reportFile)
    ensures store.journal == old(store.journal) || HasRebased(store, p)
    ensures r == Ok(Written) ==>
              && HasRebased(store, p) && Describes(store, store.journal.value)
              && Transferred(p, store.journal.value.checkpoints, tree, agentManaged)
    ensures r.Ok? && r.value.Restored? ==> Describes(store, p.state)
    ensures r.Ok? ==> old(store.journal) == Some(p.state) && Installed(p, tree, agentManaged)
    ensures (&& !store.faults && old(store.journal) == Some(p.state)
             && Installed(p, tree, agentManaged) && OnlyTargetsOwn(p.state.checkpoints, p.scope)) ==> r == Ok(Written)
  {
    hide Within, Scope.Covers, OwnUnion, Intact, Agrees, OwnershipFile, ReportFile, StateToValue, Validate, OwnDisjoint;
    hide JournalRebased, HasTargets, IsStaged, Installed, OnlyTargetsOwn;
    var read := store.ReadState();
    if read.Err? {
      return Err(read.error);
    }
    if read.value != p.state {
      return Err(TransactionError("installer transaction changed during panel update"));
    }
    var installed := VerifyInstalled(p, tree, agentManaged);
    if installed.Err? {
      return Err(installed.error);
    }
    TargetsAreReady(p);
    var rebased := RebasePanelOwnership(p.state, p.scope, p.expected);
    assert rebased.Ok?; // the targets were there, and declared, in `prepare`
    RebasedValidates(p.state, rebased.value, p.scope, p.expected);
    CommittedIsOwned(p, rebased.value.checkpoints, tree, agentManaged);
    var ending := WriteRebased(store, p.state, rebased.value);
    return Ok(ending);
  }

  /** The state on disk is the rebased one. */
  ghost predicate HasRebased(store: TransactionStore, p: Prepared)
    reads store
  {
    && store.journal.Some? && store.journal.value == p.state.(checkpoints := store.journal.value.checkpoints)
    && JournalRebased(p.state.checkpoints, store.journal.value.checkpoints, p.scope, p.expected)
  }

  /** What a handoff comes to: the targets still agree with their declarations; and if nobody else owned a covered path,
      the scope is handed over, the rest is as it was, and every owned file is as the new journal says. */
  ghost predicate Transferred(p: Prepared, after: seq<Checkpoint>, tree: Tree, agentManaged: set<string>) {
    && (forall k :: 0 <= k < |after| && p.scope.Base(after[k].actionId).Some? ==> Agrees(after[k]))
    && (OnlyTargetsOwn(p.state.checkpoints, p.scope) ==>
          && HandedOver(after, p.scope, p.expected)
          && OutsideKept(p.state.checkpoints, after, p.scope)
          && Intact(tree, agentManaged, OwnUnion(after, true)))
  }

  /** The installed trees hold exactly the staged files, and the files outside them are as recorded. */
  ghost predicate Installed(p: Prepared, tree: Tree, agentManaged: set<string>) {
    var owned := OwnUnion(p.state.checkpoints, true);
    && Intact(tree, agentManaged, map path | path in owned && !p.scope.Covers(path) :: owned[path])
    && (forall path <- tree :: p.scope.Covers(path) ==> path in p.expected)
    && (forall host <- p.expected :: host in tree && tree[host] == p.expected[host])
  }

  lemma TargetsAreReady(p: Prepared)
    requires p.Sound()
    ensures DistinctActions(p.state.checkpoints)
    ensures !Unready(p.state.checkpoints, CORE_ACTION)
    ensures p.scope.agent ==> !Unready(p.state.checkpoints, AGENT_ACTION)
  {
    hide Declared, FindCheckpoint;
    var cps := p.state.checkpoints;
    var k := SlotOf(cps, CORE_ACTION);
    assert k < |cps| && cps[k] in cps;
    if p.scope.agent {
      var l := SlotOf(cps, AGENT_ACTION);
      assert l < |cps| && cps[l] in cps;
    }
  }

  lemma RebasedValidates(s: TransactionState, t: TransactionState, scope: Scope, expected: Tree)
    requires Validate(s).Ok? && t == s.(checkpoints := t.checkpoints)
    requires JournalRebased(s.checkpoints, t.checkpoints, scope, expected)
    ensures Validate(t).Ok?
  {
    hide IsRebased, IsHex;
    forall k | 0 <= k < |s.checkpoints|
      ensures t.checkpoints[k].actionId == s.checkpoints[k].actionId && t.checkpoints[k].Identified()
    {
      SameCheckpoint(s.checkpoints, t.checkpoints, scope, expected, k);
      assert s.checkpoints[k] in s.checkpoints;
    }
  }

  lemma SameCheckpoint(cps: seq<Checkpoint>, after: seq<Checkpoint>, scope: Scope, expected: Tree, k: nat)
    requires JournalRebased(cps, after, scope, expected) && k < |cps|
    ensures after[k].actionId == cps[k].actionId && after[k].adapter == cps[k].adapter
  {
  }

  lemma CommittedIsOwned(p: Prepared, after: seq<Checkpoint>, tree: Tree, agentManaged: set<string>)
    requires p.Sound() && JournalRebased(p.state.checkpoints, after, p.scope, p.expected)
    requires Installed(p, tree, agentManaged)
    ensures Transferred(p, after, tree, agentManaged)
  {
    hide Within, Scope.Covers, OwnUnion, IsRebased, Agrees, OwnDisjoint, OnlyTargetsOwn;
    var cps, before := p.state.checkpoints, OwnUnion(p.state.checkpoints, true);
    var outside := map path | path in before && !p.scope.Covers(path) :: before[path];
    forall k | 0 <= k < |after| && p.scope.Base(after[k].actionId).Some? ensures Agrees(after[k]) {
      SameAction(cps, after, p.scope, p.expected, k);
      RebasedAgrees(cps[k], after[k], p.scope, p.expected, p.scope.Base(cps[k].actionId).value);
    }
    HandoffSound(cps, after, p.scope, p.expected);
    if OnlyTargetsOwn(cps, p.scope) {
      var owned := OwnUnion(after, true);
      forall path <- owned ensures Matches(tree, agentManaged, path, owned[path]) {
        if !p.scope.Covers(path) {
          assert path in outside;
        }
      }
    }
  }

  lemma SameAction(cps: seq<Checkpoint>, after: seq<Checkpoint>, scope: Scope, expected: Tree, k: nat)
    requires JournalRebased(cps, after, scope, expected) && k < |cps|
    ensures after[k].actionId == cps[k].actionId
    ensures scope.Base(after[k].actionId).Some? ==>
              IsRebased(cps[k], after[k], scope, expected, scope.Base(cps[k].actionId).value)
  {
  }
}
