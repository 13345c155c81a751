/** Owned files: what the engine checks before it touches a path, and what adapters of a given conduct may do. */
module Files {
  import opened Common
  import opened Json
  import opened Journal
  import opened Protocol

  /** Kind (`file` or `symlink`) and digest of an existing path. */
  datatype FileIdentity = FileIdentity(kind: string, sha256: string)

  type Tree = map<string, FileIdentity>

  /** `Wild`: adapters and outsiders change any path. `Confined`: every path belongs to one action, only that action's
      adapter changes it. `Tidy`: confined, and an undo only removes owned paths, and preserved ones only on purge. */
  datatype Conduct = Wild | Confined | Tidy

  datatype Setting = Setting(conduct: Conduct, owner: map<string, string>, agentManaged: set<string>)
  {
    predicate Belongs(path: string, action: string) {
      path in owner && owner[path] == action
    }
  }

  /** A path is still what its entry recorded; the digest of a mutable or agent-managed one is not compared. */
  predicate Matches(tree: Tree, agentManaged: set<string>, path: string, e: OwnershipEntry) {
    && path in tree && tree[path].kind == e.kind
    && (e.IsMutable() || path in agentManaged || tree[path].sha256 == e.sha256)
  }

  ghost predicate Intact(tree: Tree, agentManaged: set<string>, own: Ownership) {
    forall path <- own :: Matches(tree, agentManaged, path, own[path])
  }

  /** `assert_reconcile_safe`: a path may be gone unless it is preserved and nothing is purged. */
  predicate Safe(tree: Tree, agentManaged: set<string>, path: string, e: OwnershipEntry, purge: bool) {
    if path in tree then Matches(tree, agentManaged, path, e) else purge || !e.preserve
  }

  ghost predicate ReconcileSafe(tree: Tree, agentManaged: set<string>, own: Ownership, purge: bool) {
    forall path <- own :: Safe(tree, agentManaged, path, own[path], purge)
  }

  function Preserved(own: Ownership): Ownership {
    map path | path in own && own[path].preserve :: own[path]
  }

  // ----- capture ---------------------------------------------------------------------------------

  const UnsafePath := OwnershipError("owned path is unsafe")

  function Drifted(path: string): Error {
    OwnershipError("owned file drifted: " + path)
  }

  function InvalidOwnership(adapter: string): Error {
    TransactionError("adapter ownership is invalid: " + adapter)
  }

  /** The paths checkpoint data declares, each with what it declares about them. */
  function Declaration(adapter: string, data: map<string, Value>): Result<map<string, Value>, Error> {
    var declared :=
      if Present(data, "ownership").Some? then data["ownership"]
      else if Present(data, "owned_files").Some? then data["owned_files"]
      else if "owned_paths" in data then data["owned_paths"]
      else Arr([]);
    match declared
    case Obj(fields) => Ok(fields)
    case Arr(items) =>
      if exists item <- items :: !item.Str? then Err(UnsafePath)
      else Ok(map i | 0 <= i < |items| :: items[i].text := Null)
    case _ => Err(InvalidOwnership(adapter))
  }

  /** Whether a path with this identity is as declared, and if so its preserve and mutable flags. */
  function Judge(adapter: string, path: string, declared: Value, actual: FileIdentity): Result<(bool, bool), Error> {
    match declared
    case Str(digest) => if digest != actual.sha256 then Err(Drifted(path)) else Ok((false, false))
    case Obj(flags) =>
      if "mutable" in flags && !flags["mutable"].Bool? then
        Err(TransactionError("adapter ownership mutability flag is invalid"))
      else
        var mutable := "mutable" in flags && flags["mutable"].flag;
        if !mutable && Present(flags, "sha256").Some? && flags["sha256"] != Str(actual.sha256) then Err(Drifted(path))
        else if "preserve" in flags && !flags["preserve"].Bool? then
          Err(TransactionError("adapter ownership preservation flag is invalid"))
        else Ok(("preserve" in flags && flags["preserve"].flag, mutable))
    case Null => Ok((false, false))
    case _ => Err(InvalidOwnership(adapter))
  }

  function Entry(a: Action, flags: (bool, bool), actual: FileIdentity): OwnershipEntry {
    OwnershipEntry(a.id, a.adapter, actual.kind, Some(flags.1), flags.0, actual.sha256)
  }

  /** The declaration names only existing paths that are as declared. */
  predicate Captures(a: Action, data: map<string, Value>, tree: Tree) {
    && Declaration(a.adapter, data).Ok?
    && var declared := Declaration(a.adapter, data).value;
       forall path <- declared :: path in tree && Judge(a.adapter, path, declared[path], tree[path]).Ok?
  }

  ghost function Captured(a: Action, data: map<string, Value>, tree: Tree): Ownership
    requires Captures(a, data, tree)
  {
    var declared := Declaration(a.adapter, data).value;
    map path | path in declared :: Entry(a, Judge(a.adapter, path, declared[path], tree[path]).value, tree[path])
  }

  /** A declaration sets a flag. */
  ghost predicate Flagged(declared: Value, flag: string) {
    declared.Obj? && Get(declared.fields, flag) == Some(Bool(true))
  }

  /** The identity of a path is what was declared: nothing, a digest, or flags with perhaps a digest, which does not bind
      a mutable file. */
  ghost predicate AsDeclared(declared: Value, actual: FileIdentity) {
    || declared.Null?
    || declared == Str(actual.sha256)
    || (&& declared.Obj?
        && (forall flag <- {"mutable", "preserve"} :: flag in declared.fields ==> declared.fields[flag].Bool?)
        && (Flagged(declared, "mutable") || Present(declared.fields, "sha256") in {None, Some(Str(actual.sha256))}))
  }

  lemma JudgeMeaning(adapter: string, path: string, declared: Value, actual: FileIdentity)
    ensures Judge(adapter, path, declared, actual).Ok? <==> AsDeclared(declared, actual)
    ensures Judge(adapter, path, declared, actual).Ok? ==>
              Judge(adapter, path, declared, actual).value == (Flagged(declared, "preserve"), Flagged(declared, "mutable"))
  {
    if declared.Obj? {
      var flags := declared.fields;
      assert "mutable" in {"mutable", "preserve"} && "preserve" in {"mutable", "preserve"};
      assert (forall flag <- {"mutable", "preserve"} :: flag in flags ==> flags[flag].Bool?) <==>
             ("mutable" in flags ==> flags["mutable"].Bool?) && ("preserve" in flags ==> flags["preserve"].Bool?);
    }
  }

  /** What is captured of a path: its action, its identity as it is, and the flags declared for it. */
  lemma CapturedEntry(a: Action, data: map<string, Value>, tree: Tree, path: string)
    requires Captures(a, data, tree)
    ensures Captured(a, data, tree).Keys == Declaration(a.adapter, data).value.Keys <= tree.Keys
    ensures path in Captured(a, data, tree) ==>
              var declared := Declaration(a.adapter, data).value[path];
              && AsDeclared(declared, tree[path])
              && Captured(a, data, tree)[path]
                 == OwnershipEntry(a.id, a.adapter, tree[path].kind, Some(Flagged(declared, "mutable")),
                                   Flagged(declared, "preserve"), tree[path].sha256)
  {
    if path in Captured(a, data, tree) {
      JudgeMeaning(a.adapter, path, Declaration(a.adapter, data).value[path], tree[path]);
    }
    hide Judge;
  }

  /** Which key of the data declares the paths: the first of three that is there, `null` counting as absent but for the
      last. A list declares its paths without saying anything of them. */
  lemma DeclarationMeaning(adapter: string, data: map<string, Value>, fields: map<string, Value>, paths: seq<string>)
    ensures Present(data, "ownership") == Some(Obj(fields)) ==> Declaration(adapter, data) == Ok(fields)
    ensures Present(data, "ownership").None? && Present(data, "owned_files") == Some(Obj(fields)) ==>
              Declaration(adapter, data) == Ok(fields)
    ensures Present(data, "ownership").None? && Present(data, "owned_files").None? ==>
              && (Get(data, "owned_paths").None? ==> Declaration(adapter, data) == Ok(map[]))
              && (Get(data, "owned_paths") == Some(Arr(Texts(paths))) ==>
                    Declaration(adapter, data) == Ok(map path | path in paths :: Null))
  {
    if Present(data, "ownership").None? && Present(data, "owned_files").None? && Get(data, "owned_paths") == Some(Arr(Texts(paths))) {
      var items := Texts(paths);
      var m: map<string, Value> := map i | 0 <= i < |items| :: items[i].text := Null;
      assert forall path <- paths :: path in m by {
        forall path <- paths ensures path in m {
          var i :| 0 <= i < |paths| && paths[i] == path;
          assert items[i].text == path;
        }
      }
      assert m == map path | path in paths :: Null;
    }
  }

  ghost function Texts(paths: seq<string>): seq<Value> {
    seq(|paths|, i requires 0 <= i < |paths| => Str(paths[i]))
  }

  /** `capture_ownership`: hash every declared path and check it against its declaration. */
  method CaptureOwnership(a: Action, data: map<string, Value>, tree: Tree) returns (r: Result<Ownership, Error>)
    ensures r.Ok? <==> Captures(a, data, tree)
    ensures r.Ok? ==> r.value == Captured(a, data, tree)
    ensures r.Err? ==> r.error.Ordinary?
  {
    var d := Declaration(a.adapter, data);
    if d.Err? {
      return Err(d.error);
    }
    var declared := d.value;
    var own: Ownership := map[];
    var todo := declared.Keys;
    while todo != {}
      invariant todo <= declared.Keys
      invariant forall path <- declared :: path !in todo ==>
                  path in tree && Judge(a.adapter, path, declared[path], tree[path]).Ok?
      invariant own == map path | path in declared && path !in todo ::
                  Entry(a, Judge(a.adapter, path, declared[path], tree[path]).value, tree[path])
      decreases todo
    {
      var path :| path in todo;
      if path !in tree {
        return Err(OwnershipError("owned path is missing"));
      }
      var flags := Judge(a.adapter, path, declared[path], tree[path]);
      if flags.Err? {
        return Err(flags.error);
      }
      own := own[path := Entry(a, flags.value, tree[path])];
      todo := todo - {path};
    }
    return Ok(own);
  }

  lemma CapturedIsIntact(a: Action, data: map<string, Value>, tree: Tree, agentManaged: set<string>)
    requires Captures(a, data, tree)
    ensures Intact(tree, agentManaged, Captured(a, data, tree))
  {
  }

  // ----- checks -----------------------------------------------------------------------------------

  /** `assert_owned`: every entry still exists with its kind and, where it counts, its digest. */
  method AssertOwned(tree: Tree, agentManaged: set<string>, own: Ownership) returns (r: Result<(), Error>)
    ensures r.Ok? <==> Intact(tree, agentManaged, own)
    ensures r.Ok? <==>
            forall path <- own ::
              && path in tree && tree[path].kind == own[path].kind
              && (own[path].mutable != Some(true) && path !in agentManaged ==> tree[path].sha256 == own[path].sha256)
    ensures r.Err? ==> exists path <- own :: r.error == Drifted(path)
  {
    var todo := own.Keys;
    while todo != {}
      invariant todo <= own.Keys
      invariant forall path <- own :: path !in todo ==> Matches(tree, agentManaged, path, own[path])
      decreases todo
    {
      var path :| path in todo;
      if !Matches(tree, agentManaged, path, own[path]) {
        return Err(Drifted(path));
      }
      todo := todo - {path};
    }
    return Ok(());
  }

  method AssertReconcileSafe(tree: Tree, agentManaged: set<string>, own: Ownership, purge: bool)
    returns (r: Result<(), Error>)
    ensures r.Ok? <==> ReconcileSafe(tree, agentManaged, own, purge)
    ensures r.Ok? <==>
            && (forall path <- own :: path !in tree ==> purge || !own[path].preserve)
            && forall path <- own :: path in tree ==>
                 && tree[path].kind == own[path].kind
                 && (own[path].mutable != Some(true) && path !in agentManaged ==> tree[path].sha256 == own[path].sha256)
    ensures r.Err? ==> exists path <- own :: r.error == Drifted(path)
  {
    var todo := own.Keys;
    while todo != {}
      invariant todo <= own.Keys
      invariant forall path <- own :: path !in todo ==> Safe(tree, agentManaged, path, own[path], purge)
      decreases todo
    {
      var path :| path in todo;
      if !Safe(tree, agentManaged, path, own[path], purge) {
        return Err(Drifted(path));
      }
      todo := todo - {path};
    }
    return Ok(());
  }

  // ----- what adapters may do -----------------------------------------------------------------------

  /** The two trees agree on every path that does not belong to `action`. */
  predicate AgreesOff(w: Setting, action: string, before: Tree, after: Tree) {
    forall path <- before.Keys + after.Keys :: !w.Belongs(path, action) ==>
                                                 path in before && path in after && before[path] == after[path]
  }

  /** An undo under this conduct: owned paths stay as they are or go, preserved ones go only on purge. */
  predicate UndoesTidily(own: Ownership, purge: bool, before: Tree, after: Tree) {
    forall path <- own ::
      if path in after then path in before && after[path] == before[path]
      else path in before ==> purge || !own[path].preserve
  }

  predicate DeclaresOwn(w: Setting, a: Action, data: map<string, Value>) {
    Declaration(a.adapter, data).Ok? ==> forall path <- Declaration(a.adapter, data).value :: w.Belongs(path, a.id)
  }

  // ----- the journal against the files ----------------------------------------------------------------

  ghost predicate Confines(w: Setting, c: Checkpoint) {
    forall path <- c.ownership :: w.Belongs(path, c.actionId)
  }

  /** What the files of one checkpoint look like, given how far the transaction got. */
  ghost predicate Standing(w: Setting, c: Checkpoint, purge: bool, stale: bool, tree: Tree) {
    && Confines(w, c)
    && (c.phase.RolledBack? && !purge ==> Intact(tree, w.agentManaged, Preserved(c.ownership)))
    && ((c.phase.Applied? || c.phase.Verified?) && !stale ==> Intact(tree, w.agentManaged, c.ownership))
    && (w.conduct.Tidy? && c.phase.RollbackInProgress? ==>
          ReconcileSafe(tree, w.agentManaged, c.ownership, purge))
  }

  /** Every checkpoint's files stand as the journal says. `stale` are the actions whose repair ran but whose
      re-captured ownership has not reached `state.json`. */
  ghost predicate Grounded(w: Setting, s: TransactionState, stale: set<nat>, tree: Tree) {
    !w.conduct.Wild? ==>
      forall i :: 0 <= i < |s.checkpoints| ==> Standing(w, s.checkpoints[i], Purges(s), i in stale, tree)
  }

  lemma EmptyStands(w: Setting, c: Checkpoint, purge: bool, stale: bool, tree: Tree)
    requires c.ownership == map[]
    ensures Standing(w, c, purge, stale, tree)
  {
  }

  lemma CapturedStands(w: Setting, a: Action, data: map<string, Value>, c: Checkpoint, purge: bool, stale: bool, tree: Tree)
    requires Captures(a, data, tree) && DeclaresOwn(w, a, data)
    requires c.actionId == a.id && c.ownership == Captured(a, data, tree) && (c.phase.Applied? || c.phase.Verified?)
    ensures Standing(w, c, purge, stale, tree)
  {
    CapturedIsIntact(a, data, tree, w.agentManaged);
  }

  lemma VerifiedStands(w: Setting, c: Checkpoint, d: Checkpoint, purge: bool, stale: bool, tree: Tree)
    requires c.phase.Applied? && d.phase.Verified? && d.ownership == c.ownership && d.actionId == c.actionId
    requires Standing(w, c, purge, stale, tree)
    ensures Standing(w, d, purge, stale, tree)
  {
  }

  /** An owned checkpoint that is intact may be put into `rollback_in_progress`. */
  lemma InProgressStands(w: Setting, c: Checkpoint, d: Checkpoint, purge: bool, tree: Tree)
    requires d.phase.RollbackInProgress? && d.ownership == c.ownership && d.actionId == c.actionId
    requires c.phase.Applied? || c.phase.Verified?
    requires Standing(w, c, purge, false, tree)
    ensures Standing(w, d, purge, false, tree)
  {
  }

  /** An undo keeps the checkpoint it works on standing: a tidy one leaves it safe to reconcile. */
  lemma UndoneStands(w: Setting, c: Checkpoint, purge: bool, before: Tree, after: Tree)
    requires c.phase.RollbackInProgress? && Standing(w, c, purge, false, before)
    requires w.conduct.Tidy? ==> UndoesTidily(c.ownership, purge, before, after)
    ensures Standing(w, c, purge, false, after)
    ensures w.conduct.Tidy? && !purge ==> Intact(after, w.agentManaged, Preserved(c.ownership))
  {
  }

  lemma RolledBackStands(w: Setting, c: Checkpoint, d: Checkpoint, purge: bool, tree: Tree)
    requires d.phase.RolledBack? && d.ownership == c.ownership && d.actionId == c.actionId && Confines(w, c)
    requires !purge ==> Intact(tree, w.agentManaged, Preserved(c.ownership))
    ensures Standing(w, d, purge, false, tree)
  {
  }

  lemma OwnedIsIntact(w: Setting, c: Checkpoint, purge: bool, tree: Tree)
    requires Standing(w, c, purge, false, tree) && (c.phase.Applied? || c.phase.Verified?)
    ensures Intact(tree, w.agentManaged, c.ownership)
  {
  }

  /** An interrupted undo may go on: what the checkpoint owned is untouched, or gone where that is allowed. */
  ghost predicate MayGoOn(c: Checkpoint, agentManaged: set<string>, tree: Tree, purge: bool) {
    c.phase.RollbackInProgress? ==> ReconcileSafe(tree, agentManaged, c.ownership, purge)
  }

  ghost predicate AllMayGoOn(cps: seq<Checkpoint>, agentManaged: set<string>, tree: Tree, purge: bool) {
    forall i :: 0 <= i < |cps| ==> MayGoOn(cps[i], agentManaged, tree, purge)
  }

  lemma NothingOwned(tree: Tree, agentManaged: set<string>, purge: bool)
    ensures ReconcileSafe(tree, agentManaged, map[], purge)
  {
  }

  /** The next checkpoint to undo is the only one whose undo may have been interrupted. */
  lemma NextToUndo(cps: seq<Checkpoint>, k: nat, agentManaged: set<string>, tree: Tree, purge: bool)
    requires Staged(cps) && Undoable(cps, k)
    ensures AllMayGoOn(cps, agentManaged, tree, purge) <==> MayGoOn(cps[k], agentManaged, tree, purge)
    ensures forall i :: 0 <= i < k ==> cps[i].phase.Verified?
  {
    hide ReconcileSafe;
  }

  lemma NoneInProgress(cps: seq<Checkpoint>, agentManaged: set<string>, tree: Tree, purge: bool)
    requires forall i :: 0 <= i < |cps| ==> !cps[i].phase.RollbackInProgress?
    ensures AllMayGoOn(cps, agentManaged, tree, purge)
  {
  }

  /** After tidy undos that is always so. */
  lemma TidyMayGoOn(w: Setting, s: TransactionState, tree: Tree)
    requires w.conduct.Tidy? && Grounded(w, s, {}, tree)
    ensures AllMayGoOn(s.checkpoints, w.agentManaged, tree, Purges(s))
  {
    forall i | 0 <= i < |s.checkpoints| ensures MayGoOn(s.checkpoints[i], w.agentManaged, tree, Purges(s)) {
      assert Standing(w, s.checkpoints[i], Purges(s), false, tree);
    }
  }

  /** A call confined to action `k` leaves the other checkpoints' files standing. */
  lemma OthersStand(w: Setting, plan: Plan, s: TransactionState, ev: seq<Event>, stale: set<nat>, k: nat,
                    before: Tree, after: Tree)
    requires Sound(plan, s, ev) && k < |plan.actions|
    requires Grounded(w, s, stale, before)
    requires !w.conduct.Wild? ==> AgreesOff(w, plan.actions[k].id, before, after)
    ensures !w.conduct.Wild? ==> forall i :: 0 <= i < |s.checkpoints| && i != k ==>
              Standing(w, s.checkpoints[i], Purges(s), i in stale, after)
  {
    if !w.conduct.Wild? {
      forall i | 0 <= i < |s.checkpoints| && i != k
        ensures Standing(w, s.checkpoints[i], Purges(s), i in stale, after)
      {
        var c := s.checkpoints[i];
        assert Standing(w, c, Purges(s), i in stale, before);
        forall path | path in c.ownership
          ensures (path in before <==> path in after) && (path in after ==> before[path] == after[path])
        {
          assert w.Belongs(path, c.actionId);
          assert plan.actions[i].id != plan.actions[k].id;
          assert !w.Belongs(path, plan.actions[k].id);
        }
      }
    }
  }

  /** Confined ownership is disjoint, so the derived journal can always be written. */
  lemma ConfinedIsDisjoint(w: Setting, plan: Plan, s: TransactionState, ev: seq<Event>, stale: set<nat>, tree: Tree,
                           inProgress: bool)
    requires Sound(plan, s, ev)
    requires Grounded(w, s, stale, tree) && !w.conduct.Wild?
    ensures OwnDisjoint(s.checkpoints, inProgress)
  {
    forall i, j | 0 <= i < j < |s.checkpoints| ensures s.checkpoints[i].ownership.Keys !! s.checkpoints[j].ownership.Keys {
      assert Standing(w, s.checkpoints[i], Purges(s), i in stale, tree);
      assert Standing(w, s.checkpoints[j], Purges(s), j in stale, tree);
      assert plan.actions[i].id != plan.actions[j].id;
    }
  }

  /** Every path of every applied or verified checkpoint is intact. */
  ghost predicate AllOwned(agentManaged: set<string>, s: TransactionState, tree: Tree) {
    forall i :: 0 <= i < |s.checkpoints| && s.checkpoints[i].phase.Owns(false) ==>
                  Intact(tree, agentManaged, s.checkpoints[i].ownership)
  }

  lemma GroundedIsOwned(w: Setting, s: TransactionState, tree: Tree)
    requires !w.conduct.Wild? && Grounded(w, s, {}, tree)
    ensures AllOwned(w.agentManaged, s, tree)
  {
    forall i | 0 <= i < |s.checkpoints| && s.checkpoints[i].phase.Owns(false)
      ensures Intact(tree, w.agentManaged, s.checkpoints[i].ownership)
    {
      assert Standing(w, s.checkpoints[i], Purges(s), false, tree);
    }
  }

  /** Checking the union of disjoint ownership is checking each checkpoint's. */
  lemma OwnedPathByPath(cps: seq<Checkpoint>, agentManaged: set<string>, tree: Tree)
    ensures OwnDisjoint(cps, false) ==>
              (Intact(tree, agentManaged, OwnUnion(cps, false)) <==>
               forall i :: 0 <= i < |cps| && cps[i].phase.Owns(false) ==> Intact(tree, agentManaged, cps[i].ownership))
  {
    OwnUnionMembers(cps, false);
    var all := OwnUnion(cps, false);
    if OwnDisjoint(cps, false) {
      if Intact(tree, agentManaged, all) {
        forall i, path | 0 <= i < |cps| && cps[i].phase.Owns(false) && path in cps[i].ownership
          ensures Matches(tree, agentManaged, path, cps[i].ownership[path])
        {
          assert all[path] == cps[i].ownership[path];
        }
      }
      if forall i :: 0 <= i < |cps| && cps[i].phase.Owns(false) ==> Intact(tree, agentManaged, cps[i].ownership) {
        forall path | path in all ensures Matches(tree, agentManaged, path, all[path]) {
          var i :| 0 <= i < |cps| && cps[i].phase.Owns(false) && path in cps[i].ownership;
          assert Intact(tree, agentManaged, cps[i].ownership);
        }
      }
    }
  }

  /** Recording the policy of a rollback leaves the files standing: before it, nothing is rolled back. */
  lemma GroundedAnyPolicy(w: Setting, plan: Plan, s: TransactionState, ev: seq<Event>, t: TransactionState, tree: Tree)
    requires Sound(plan, s, ev) && Grounded(w, s, {}, tree) && t.checkpoints == s.checkpoints
    requires s.rollbackTarget.Some? ==> Purges(t) == Purges(s)
    ensures Grounded(w, t, {}, tree)
  {
    if !w.conduct.Wild? {
      SoundFacts(plan, s, ev);
      forall i | 0 <= i < |t.checkpoints| ensures Standing(w, t.checkpoints[i], Purges(t), false, tree) {
        assert Standing(w, s.checkpoints[i], Purges(s), false, tree);
        assert s.rollbackTarget.None? ==> Forward(s.checkpoints[i].phase);
      }
    }
  }

  /** Once every owned path is proved intact, no repair is left behind. */
  lemma OwnedIsFresh(w: Setting, s: TransactionState, stale: set<nat>, tree: Tree)
    requires Grounded(w, s, stale, tree) && AllOwned(w.agentManaged, s, tree)
    ensures Grounded(w, s, {}, tree)
  {
    if !w.conduct.Wild? {
      forall i | 0 <= i < |s.checkpoints| ensures Standing(w, s.checkpoints[i], Purges(s), false, tree) {
        assert Standing(w, s.checkpoints[i], Purges(s), i in stale, tree);
      }
    }
  }

  /** A repair of action `k` leaves its recorded files stale. */
  lemma RepairedStale(w: Setting, s: TransactionState, stale: set<nat>, k: nat, before: Tree, after: Tree)
    requires Grounded(w, s, stale, before) && k < |s.checkpoints| && s.checkpoints[k].phase.Verified?
    requires !w.conduct.Wild? ==> forall i :: 0 <= i < |s.checkpoints| && i != k ==>
               Standing(w, s.checkpoints[i], Purges(s), i in stale, after)
    ensures Grounded(w, s, stale + {k}, after)
  {
    if !w.conduct.Wild? {
      forall i | 0 <= i < |s.checkpoints| ensures Standing(w, s.checkpoints[i], Purges(s), i in stale + {k}, after) {
        assert Standing(w, s.checkpoints[i], Purges(s), i in stale, before);
      }
    }
  }

  /** Once the re-captured checkpoint is recorded, its action is no longer stale. */
  lemma FreshAgain(w: Setting, t: TransactionState, stale: set<nat>, tree: Tree, k: nat)
    requires Grounded(w, t, stale, tree) && k < |t.checkpoints|
    requires !w.conduct.Wild? ==> Standing(w, t.checkpoints[k], Purges(t), false, tree)
    ensures Grounded(w, t, stale - {k}, tree)
  {
    if !w.conduct.Wild? {
      forall i | 0 <= i < |t.checkpoints| ensures Standing(w, t.checkpoints[i], Purges(t), i in stale - {k}, tree) {
        assert Standing(w, t.checkpoints[i], Purges(t), i in stale, tree);
      }
    }
  }

  /** The files after a mutating call of action `k`: a forward one owns nothing yet, a repaired one is stale. */
  lemma ChangedGrounded(w: Setting, plan: Plan, s: TransactionState, ev: seq<Event>, stale: set<nat>, repair: bool, k: nat,
                        before: Tree, after: Tree)
    requires Sound(plan, s, ev) && Grounded(w, s, stale, before) && k < |s.checkpoints| && k < |plan.actions|
    requires if repair then s.checkpoints[k].phase.Verified? else s.checkpoints[k].phase.Applying?
    requires !w.conduct.Wild? ==> AgreesOff(w, plan.actions[k].id, before, after)
    ensures Grounded(w, s, if repair then stale + {k} else stale, after)
  {
    OthersStand(w, plan, s, ev, stale, k, before, after);
    if repair {
      RepairedStale(w, s, stale, k, before, after);
    } else {
      SoundFacts(plan, s, ev);
      EmptyStands(w, s.checkpoints[k], Purges(s), k in stale, after);
    }
  }

  /** The files after an undo of action `k`, whether it succeeded or not. */
  lemma UndoneGrounded(w: Setting, plan: Plan, s: TransactionState, ev: seq<Event>, k: nat, before: Tree, after: Tree)
    requires Sound(plan, s, ev) && Grounded(w, s, {}, before) && k < |s.checkpoints| && k < |plan.actions|
    requires s.checkpoints[k].phase.RollbackInProgress?
    requires !w.conduct.Wild? ==> AgreesOff(w, plan.actions[k].id, before, after)
    requires w.conduct.Tidy? ==> UndoesTidily(s.checkpoints[k].ownership, Purges(s), before, after)
    ensures Grounded(w, s, {}, after)
    ensures w.conduct.Tidy? && !Purges(s) ==> Intact(after, w.agentManaged, Preserved(s.checkpoints[k].ownership))
  {
    OthersStand(w, plan, s, ev, {}, k, before, after);
    if !w.conduct.Wild? {
      assert Standing(w, s.checkpoints[k], Purges(s), false, before);
      UndoneStands(w, s.checkpoints[k], Purges(s), before, after);
    }
  }

  /** Recording the undone checkpoint as rolled back, once what it preserves is proved. */
  lemma RetiredGrounded(w: Setting, s: TransactionState, t: TransactionState, k: nat, d: Checkpoint, tree: Tree)
    requires Grounded(w, s, {}, tree) && k < |s.checkpoints| && t == s.(checkpoints := s.checkpoints[k := d])
    requires d.phase.RolledBack? && d.ownership == s.checkpoints[k].ownership && d.actionId == s.checkpoints[k].actionId
    requires !Purges(s) ==> Intact(tree, w.agentManaged, Preserved(d.ownership))
    ensures Grounded(w, t, {}, tree)
  {
    if !w.conduct.Wild? {
      forall i | 0 <= i < |t.checkpoints| ensures Standing(w, t.checkpoints[i], Purges(t), false, tree) {
        assert Standing(w, s.checkpoints[i], Purges(s), false, tree);
        if i == k {
          RolledBackStands(w, s.checkpoints[k], d, Purges(s), tree);
        }
      }
    }
  }
}
