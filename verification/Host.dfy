/** The host the adapters act on: its files, and the record of every call that changed it. */
module Host {
  import opened Common
  import opened Json
  import opened Journal
  import opened Protocol
  import opened Files

  datatype Evidence = Evidence(actionId: string, success: bool, record: map<string, Value>)

  class Machine {
    const setting: Setting
    var tree: Tree
    /** Whether a call that leads forward may fail now: preparing, applying, repairing, verifying. */
    var faults: bool
    /** Whether an undo, or the hook after a checkpoint was written, may fail now. */
    var undoFaults: bool
    /** The transaction ids drawn so far. */
    var used: set<string>
    /** The calls of every transaction there ever was, by transaction id. */
    ghost var log: map<string, seq<Event>>
    /** What the last verification or undo reported. */
    ghost var shown: map<string, Value>
    /** Actions whose repair ran but is not in `state.json`, unless their files were proved intact since. */
    ghost var stale: set<nat>
    /** Those of them not verified since either. `resume` and `uninstall` prove files, they do not verify again. */
    ghost var lapsed: set<nat>

    ghost function LogOf(id: string): seq<Event>
      reads this
    {
      if id in log then log[id] else []
    }

    constructor (setting: Setting)
      ensures this.setting == setting && log == map[] && stale == {} && lapsed == {} && used == {}
    {
      this.setting, tree, faults, undoFaults, log, used := setting, map[], true, true, map[], {};
      stale, lapsed, shown := {}, {}, map[];
    }

    ghost method Note(id: string, e: Event)
      modifies `log
      ensures log == old(log)[id := old(LogOf(id)) + [e]]
    {
      log := log[id := LogOf(id) + [e]];
    }

    /** A call that may change files of `action` only, unless nobody is confined. */
    method Touch(action: string)
      modifies `tree
      ensures !setting.conduct.Wild? ==> AgreesOff(setting, action, old(tree), tree)
    {
      var next: Tree := *;
      if setting.conduct.Wild? || AgreesOff(setting, action, tree, next) {
        tree := next;
      }
    }

    /** A call that changes nothing of its own; when nobody is confined, anything may happen meanwhile. */
    method Look(mayFail: bool) returns (r: Result<(), Error>)
      modifies `tree
      ensures !setting.conduct.Wild? ==> tree == old(tree)
      ensures !mayFail ==> r.Ok?
    {
      if setting.conduct.Wild? {
        tree := *;
      }
      var fails: bool := *;
      if mayFail && fails {
        var e: Error := *;
        return Err(e);
      }
      return Ok(());
    }

    method Prepare(a: Action) returns (r: Result<map<string, Value>, Error>)
      modifies `tree
      ensures !setting.conduct.Wild? ==> tree == old(tree)
      ensures !faults ==> r.Ok?
    {
      var seen := Look(faults);
      if seen.Err? {
        return Err(seen.error);
      }
      var data: map<string, Value> := *;
      return Ok(data);
    }

    /** A transaction id is drawn for a transaction that has changed nothing yet. */
    method Draw(uuid: string)
      modifies `used, `stale, `lapsed
      ensures used == old(used) + {uuid} && stale == {} && lapsed == {}
    {
      used, stale, lapsed := used + {uuid}, {}, {};
    }

    /** The repair of action `k` is in `state.json`. */
    ghost method Freshen(k: nat)
      modifies `stale, `lapsed
      ensures stale == old(stale) - {k} && lapsed == old(lapsed) - {k}
    {
      stale, lapsed := stale - {k}, lapsed - {k};
    }

    /** `apply`, `reconcile_apply` or `repair` of action number `k`. */
    method Mutate(kind: Mutation, a: Action, data: map<string, Value>, ghost id: string, ghost k: nat)
      returns (r: Result<map<string, Value>, Error>)
      modifies `tree, `log, `stale, `lapsed
      ensures log == old(log)[id := old(LogOf(id)) + [Mutating(kind, k)]]
      ensures stale == (if kind.Repair? then old(stale) + {k} else old(stale))
      ensures lapsed == (if kind.Repair? then old(lapsed) + {k} else old(lapsed))
      ensures !setting.conduct.Wild? ==> AgreesOff(setting, a.id, old(tree), tree)
      ensures r.Ok? && !setting.conduct.Wild? ==> DeclaresOwn(setting, a, r.value)
      ensures !faults ==> r.Ok? && Captures(a, r.value, tree)
    {
      Note(id, Mutating(kind, k));
      if kind.Repair? {
        stale, lapsed := stale + {k}, lapsed + {k};
      }
      Touch(a.id);
      var fails: bool := *;
      if faults && fails {
        var e: Error := *;
        return Err(e);
      }
      var declared: map<string, Value> := *;
      if (!setting.conduct.Wild? && !DeclaresOwn(setting, a, declared)) || (!faults && !Captures(a, declared, tree)) {
        declared := map[];
      }
      return Ok(declared);
    }

    /** `rollback` or `reconcile_rollback` of action number `k`, which owned `own`. */
    method Undo(how: Undo, a: Action, data: map<string, Value>, purge: bool, target: RollbackTarget,
                own: Ownership, ghost id: string, ghost k: nat)
      returns (r: Result<Evidence, Error>)
      modifies `tree, `log, `shown
      ensures !setting.conduct.Wild? ==> AgreesOff(setting, a.id, old(tree), tree)
      ensures setting.conduct.Tidy? ==> UndoesTidily(own, purge, old(tree), tree)
      ensures log == old(log)[id := old(LogOf(id)) + [Undoing(how, k, purge, target)]
                                    + (if r.Ok? && r.value.success then [Undone(k)] else [])]
      ensures r.Ok? ==> r.value.record == shown
      ensures !undoFaults ==> r.Ok? && r.value.success
    {
      Note(id, Undoing(how, k, purge, target));
      assert LogOf(id) + [] == LogOf(id);
      var next: Tree := *;
      if (setting.conduct.Wild? || AgreesOff(setting, a.id, tree, next))
         && (setting.conduct.Tidy? ==> UndoesTidily(own, purge, tree, next)) {
        tree := next;
      }
      var fails: bool := *;
      if undoFaults && fails {
        var e: Error := *;
        return Err(e);
      }
      var evidence: Evidence := *;
      if !undoFaults {
        evidence := evidence.(success := true);
      }
      if evidence.success {
        Note(id, Undone(k));
      }
      shown := evidence.record;
      return Ok(evidence);
    }

    method Verify(a: Action, ghost id: string, ghost k: nat) returns (r: Result<Evidence, Error>)
      modifies `tree, `log, `shown
      ensures !setting.conduct.Wild? ==> tree == old(tree)
      ensures if r.Ok? && r.value.success && r.value.actionId == a.id
              then log == old(log)[id := old(LogOf(id)) + [Proved(k)]] else log == old(log)
      ensures r.Ok? ==> r.value.record == shown
      ensures !faults ==> r.Ok? && r.value.success && r.value.actionId == a.id
    {
      var seen := Look(faults);
      if seen.Err? {
        return Err(seen.error);
      }
      var evidence: Evidence := *;
      if !faults {
        evidence := evidence.(success := true, actionId := a.id);
      }
      if evidence.success && evidence.actionId == a.id {
        Note(id, Proved(k));
      }
      shown := evidence.record;
      return Ok(evidence);
    }
  }
}
