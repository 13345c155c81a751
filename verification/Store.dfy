/** The journal's four files, each replaced atomically (installer/src/store.rs). A write may fail before or after it
    took effect, by an ordinary error or by the process dying. */
module Store {
  import opened Common
  import opened Json
  import opened Journal
  import opened Protocol

  class TransactionStore {
    var stateFile: Option<Value>
    var planFile: Option<Plan>
    var ownershipFile: Option<Value>
    var reportFile: Option<Value>
    /** Whether a file operation may fail now. */
    var faults: bool
    /** The state `state.json` holds. */
    ghost var journal: Option<TransactionState>

    ghost predicate Valid()
      reads this
    {
      match journal
      case None => stateFile == None
      case Some(s) => Validate(s).Ok? && stateFile == Some(StateToValue(s))
    }

    constructor ()
      ensures Valid() && journal == None && planFile == None
    {
      stateFile, planFile, ownershipFile, reportFile, faults, journal := None, None, None, None, true, None;
    }

    /** How a file operation ends: whether it took effect, and what the caller sees. */
    method Attempt() returns (done: bool, r: Result<(), Error>)
      ensures r.Ok? ==> done
      ensures !faults ==> r.Ok?
    {
      var fails: bool := *;
      if faults && fails {
        var e: Error := *;
        done := *;
        r := Err(e);
      } else {
        done, r := true, Ok(());
      }
    }

    method WriteState(s: TransactionState) returns (r: Result<(), Error>)
      requires Valid()
      modifies `stateFile, `journal
      ensures Valid()
      ensures journal == old(journal) || journal == Some(s)
      ensures r.Ok? ==> journal == Some(s)
      ensures !faults && Validate(s).Ok? ==> r.Ok?
      ensures Validate(s).Err? ==> r.Err?
      ensures !faults && r.Err? ==> r.error.Ordinary?
    {
      var valid := Validate(s);
      if valid.Err? {
        return Err(valid.error);
      }
      var done;
      done, r := Attempt();
      if done {
        stateFile, journal := Some(StateToValue(s)), Some(s);
      }
    }

    /** The strict reader on the file gives back the state that was written. */
    method ReadState() returns (r: Result<TransactionState, Error>)
      requires Valid()
      ensures r.Ok? ==> journal == Some(r.value)
      ensures !faults && journal.Some? ==> r.Ok?
    {
      var _, attempt := Attempt();
      if attempt.Err? {
        return Err(attempt.error);
      }
      if stateFile.None? {
        return Err(TransactionError("transaction state is unreadable"));
      }
      r := StateFromValue(stateFile.value);
      StateRoundTrip(journal.value);
    }

    method RemoveState() returns (r: Result<(), Error>)
      requires Valid()
      modifies `stateFile, `journal
      ensures Valid()
      ensures journal == old(journal) || journal == None
      ensures r.Ok? ==> journal == None
      ensures !faults ==> r.Ok?
    {
      var done;
      done, r := Attempt();
      if done {
        stateFile, journal := None, None;
      }
    }

    method WritePlan(plan: Plan) returns (r: Result<(), Error>)
      modifies `planFile
      ensures planFile == old(planFile) || planFile == Some(plan)
      ensures r.Ok? ==> planFile == Some(plan)
      ensures !faults ==> r.Ok?
    {
      var done;
      done, r := Attempt();
      if done {
        planFile := Some(plan);
      }
    }

    method ReadPlan() returns (r: Result<Plan, Error>)
      ensures r.Ok? ==> planFile == Some(r.value)
      ensures !faults && planFile.Some? ==> r.Ok?
    {
      var _, attempt := Attempt();
      if attempt.Err? {
        return Err(attempt.error);
      }
      if planFile.None? {
        return Err(TransactionError("transaction plan is unreadable"));
      }
      r := Ok(planFile.value);
    }

    method WriteOwnership(owned: Ownership) returns (r: Result<(), Error>)
      modifies `ownershipFile
      ensures r.Ok? ==> ownershipFile == Some(OwnershipFile(owned))
      ensures ownershipFile == old(ownershipFile) || ownershipFile == Some(OwnershipFile(owned))
      ensures !faults ==> r.Ok?
    {
      var done;
      done, r := Attempt();
      if done {
        ownershipFile := Some(OwnershipFile(owned));
      }
    }

    method WriteReport(report: Value) returns (r: Result<(), Error>)
      modifies `reportFile
      ensures r.Ok? ==> reportFile == Some(report)
      ensures reportFile == old(reportFile) || reportFile == Some(report)
      ensures !faults ==> r.Ok?
    {
      var done;
      done, r := Attempt();
      if done {
        reportFile := Some(report);
      }
    }
  }
}
