/** The typed transaction journal: `state.json`, its checkpoints and their ownership entries, with the
    strict reader and the writer of their JSON form (installer/src/journal.rs). */
module Journal {
  import opened Common
  import opened Json

  /** A failure. An ordinary one makes the engine roll back; a fatal one is the process dying. */
  datatype Error = Ordinary(kind: string, message: string) | Fatal

  function TransactionError(message: string): Error {
    Ordinary("TransactionError", message)
  }

  function OwnershipError(message: string): Error {
    Ordinary("OwnershipError", message)
  }

  const TRANSACTION_SCHEMA: int := 1
  const ORIGIN_INSTALLER := "installer-v1"

  // ----- enumerations ------------------------------------------------------------------

  datatype Status = Applying | Active | RollingBack | RollbackFailed | Uninstalling | RolledBack | Uninstalled
  {
    function AsStr(): string {
      match this
      case Applying => "applying"
      case Active => "active"
      case RollingBack => "rolling_back"
      case RollbackFailed => "rollback_failed"
      case Uninstalling => "uninstalling"
      case RolledBack => "rolled_back"
      case Uninstalled => "uninstalled"
    }

    static function Parse(text: string): Option<Status> {
      if text == "applying" then Some(Status.Applying)
      else if text == "active" then Some(Active)
      else if text == "rolling_back" then Some(RollingBack)
      else if text == "rollback_failed" then Some(RollbackFailed)
      else if text == "uninstalling" then Some(Uninstalling)
      else if text == "rolled_back" then Some(Status.RolledBack)
      else if text == "uninstalled" then Some(Uninstalled)
      else None
    }

    /** Stopped half-way: `resume` must finish it before anything else. */
    predicate IsInterrupted() {
      Applying? || RollingBack? || RollbackFailed? || Uninstalling?
    }
  }

  datatype Phase = Prepared | Applying | Applied | Verified | RollbackInProgress | RolledBack
  {
    function AsStr(): string {
      match this
      case Prepared => "prepared"
      case Applying => "applying"
      case Applied => "applied"
      case Verified => "verified"
      case RollbackInProgress => "rollback_in_progress"
      case RolledBack => "rolled_back"
    }

    static function Parse(text: string): Option<Phase> {
      if text == "prepared" then Some(Prepared)
      else if text == "applying" then Some(Phase.Applying)
      else if text == "applied" then Some(Applied)
      else if text == "verified" then Some(Verified)
      else if text == "rollback_in_progress" then Some(RollbackInProgress)
      else if text == "rolled_back" then Some(Phase.RolledBack)
      else None
    }

    /** Phases whose ownership counts (`Phase::owns`). */
    predicate Owns(includeInProgress: bool) {
      Applied? || Verified? || (includeInProgress && RollbackInProgress?)
    }
  }

  datatype RollbackTarget = ToRolledBack | ToUninstalled
  {
    function AsStr(): string {
      if ToRolledBack? then "rolled_back" else "uninstalled"
    }

    static function Parse(text: string): Option<RollbackTarget> {
      if text == "rolled_back" then Some(ToRolledBack)
      else if text == "uninstalled" then Some(ToUninstalled)
      else None
    }

    /** The final status of a rollback to this target. */
    function Final(): Status {
      if ToRolledBack? then Status.RolledBack else Status.Uninstalled
    }
  }

  lemma NamesParseBack(status: Status, phase: Phase, target: RollbackTarget)
    ensures Status.Parse(status.AsStr()) == Some(status)
    ensures Phase.Parse(phase.AsStr()) == Some(phase)
    ensures RollbackTarget.Parse(target.AsStr()) == Some(target)
  {
  }

  // ----- ownership entries -------------------------------------------------------------

  datatype OwnershipEntry = OwnershipEntry(
    actionId: string, adapter: string, kind: string, mutable: Option<bool>, preserve: bool, sha256: string)
  {
    /** Only existence and kind are compared. */
    predicate IsMutable() {
      mutable == Some(true)
    }
  }

  type Ownership = map<string, OwnershipEntry>

  const ENTRY_KEYS: set<string> := {"action_id", "adapter", "kind", "preserve", "sha256"}

  function EntryToValue(e: OwnershipEntry): Value {
    var fields := map[
      "action_id" := Str(e.actionId), "adapter" := Str(e.adapter), "kind" := Str(e.kind),
      "preserve" := Bool(e.preserve), "sha256" := Str(e.sha256)];
    Obj(if e.mutable.Some? then fields["mutable" := Bool(e.mutable.value)] else fields)
  }

  function EntryFromValue(v: Value): Option<OwnershipEntry> {
    if !v.Obj? || !(ENTRY_KEYS <= v.fields.Keys <= ENTRY_KEYS + {"mutable"}) then None
    else
      var m := v.fields;
      if m["action_id"].Str? && m["adapter"].Str? && m["kind"].Str? && m["preserve"].Bool? && m["sha256"].Str?
         && ("mutable" in m ==> m["mutable"].Bool?)
      then
        Some(OwnershipEntry(
               m["action_id"].text, m["adapter"].text, m["kind"].text,
               if "mutable" in m then Some(m["mutable"].flag) else None,
               m["preserve"].flag, m["sha256"].text))
      else None
  }

  lemma EntryRoundTrip(e: OwnershipEntry)
    ensures EntryFromValue(EntryToValue(e)) == Some(e)
  {
  }

  lemma EntryReadBack(v: Value)
    requires EntryFromValue(v).Some?
    ensures EntryToValue(EntryFromValue(v).value) == v
  {
    var w := EntryToValue(EntryFromValue(v).value);
    assert w.fields.Keys == v.fields.Keys;
    assert forall k :: k in v.fields ==> k in ENTRY_KEYS + {"mutable"};
  }

  function OwnershipToValue(o: Ownership): Value {
    Obj(map path | path in o :: EntryToValue(o[path]))
  }

  /** `None` unless every member of the object is a valid entry. */
  function OwnershipFromValue(v: Value): Option<Ownership> {
    if v.Obj? && forall path <- v.fields :: EntryFromValue(v.fields[path]).Some?
    then Some(map path | path in v.fields :: EntryFromValue(v.fields[path]).value)
    else None
  }

  lemma OwnershipRoundTrip(o: Ownership)
    ensures OwnershipFromValue(OwnershipToValue(o)) == Some(o)
  {
    forall path | path in o ensures EntryFromValue(EntryToValue(o[path])) == Some(o[path]) {
      EntryRoundTrip(o[path]);
    }
    assert OwnershipFromValue(OwnershipToValue(o)).value == o;
  }

  lemma OwnershipReadBack(v: Value)
    requires OwnershipFromValue(v).Some?
    ensures OwnershipToValue(OwnershipFromValue(v).value) == v
  {
    forall path | path in v.fields ensures EntryToValue(EntryFromValue(v.fields[path]).value) == v.fields[path] {
      EntryReadBack(v.fields[path]);
    }
  }

  // ----- checkpoints -------------------------------------------------------------------

  datatype Checkpoint = Checkpoint(
    actionId: string, adapter: string, phase: Phase, data: map<string, Value>, ownership: Ownership,
    evidence: Option<map<string, Value>>, rollbackEvidence: Option<map<string, Value>>)
  {
    /** `validate`: neither the action nor the adapter is empty. */
    predicate Identified() {
      actionId != "" && adapter != ""
    }
  }

  const CHECKPOINT_KEYS: set<string> := {"action_id", "adapter", "data", "ownership", "phase"}
  const EVIDENCE_KEYS: set<string> := {"evidence", "rollback_evidence"}

  function CheckpointToValue(c: Checkpoint): Value {
    var fields := map[
      "action_id" := Str(c.actionId), "adapter" := Str(c.adapter), "data" := Obj(c.data),
      "ownership" := OwnershipToValue(c.ownership), "phase" := Str(c.phase.AsStr())];
    var fields := if c.evidence.Some? then fields["evidence" := Obj(c.evidence.value)] else fields;
    Obj(if c.rollbackEvidence.Some? then fields["rollback_evidence" := Obj(c.rollbackEvidence.value)] else fields)
  }

  predicate EvidenceReadable(m: map<string, Value>, key: string) {
    Present(m, key).Some? ==> Present(m, key).value.Obj?
  }

  function Evidence(m: map<string, Value>, key: string): Option<map<string, Value>>
    requires EvidenceReadable(m, key)
  {
    if Present(m, key).Some? then Some(Present(m, key).value.fields) else None
  }

  const CheckpointInvalid := TransactionError("checkpoint is invalid")

  function CheckpointFromValue(v: Value): Result<Checkpoint, Error> {
    if !v.Obj? || !(CHECKPOINT_KEYS <= v.fields.Keys <= CHECKPOINT_KEYS + EVIDENCE_KEYS) then Err(CheckpointInvalid)
    else
      var m := v.fields;
      if !m["action_id"].Str? || !m["adapter"].Str? then Err(CheckpointInvalid)
      else if m["action_id"].text == "" || m["adapter"].text == "" then
        Err(TransactionError("checkpoint identity is invalid"))
      else if !m["phase"].Str? || Phase.Parse(m["phase"].text).None? then
        Err(TransactionError("checkpoint phase is invalid"))
      else if !m["data"].Obj? || OwnershipFromValue(m["ownership"]).None?
              || !EvidenceReadable(m, "evidence") || !EvidenceReadable(m, "rollback_evidence") then
        Err(CheckpointInvalid)
      else
        Ok(Checkpoint(
             m["action_id"].text, m["adapter"].text, Phase.Parse(m["phase"].text).value, m["data"].fields,
             OwnershipFromValue(m["ownership"]).value,
             Evidence(m, "evidence"), Evidence(m, "rollback_evidence")))
  }

  lemma CheckpointFields(c: Checkpoint)
    ensures CheckpointToValue(c).Obj?
    ensures var m := CheckpointToValue(c).fields;
            && CHECKPOINT_KEYS <= m.Keys <= CHECKPOINT_KEYS + EVIDENCE_KEYS
            && m["action_id"] == Str(c.actionId) && m["adapter"] == Str(c.adapter) && m["data"] == Obj(c.data)
            && m["ownership"] == OwnershipToValue(c.ownership) && m["phase"] == Str(c.phase.AsStr())
            && Get(m, "evidence") == (if c.evidence.Some? then Some(Obj(c.evidence.value)) else None)
            && Get(m, "rollback_evidence")
               == (if c.rollbackEvidence.Some? then Some(Obj(c.rollbackEvidence.value)) else None)
  {
    hide OwnershipToValue, Phase.AsStr;
    var m := CheckpointToValue(c).fields;
    assert m.Keys == CHECKPOINT_KEYS + (if c.evidence.Some? then {"evidence"} else {})
                                     + (if c.rollbackEvidence.Some? then {"rollback_evidence"} else {});
  }

  lemma CheckpointRoundTrip(c: Checkpoint)
    requires c.Identified()
    ensures CheckpointFromValue(CheckpointToValue(c)) == Ok(c)
  {
    hide CheckpointToValue, OwnershipToValue, OwnershipFromValue, Phase.AsStr, Phase.Parse;
    CheckpointFields(c);
    OwnershipRoundTrip(c.ownership);
    NamesParseBack(Status.Applying, c.phase, ToRolledBack);
    var m := CheckpointToValue(c).fields;
    assert EvidenceReadable(m, "evidence") && Evidence(m, "evidence") == c.evidence;
    assert EvidenceReadable(m, "rollback_evidence") && Evidence(m, "rollback_evidence") == c.rollbackEvidence;
  }

  /** A checkpoint value with its `null` evidence dropped. */
  function CleanCheckpoint(v: Value): Value {
    if v.Obj?
    then Obj(map k | k in v.fields && !(k in EVIDENCE_KEYS && v.fields[k] == Null) :: v.fields[k])
    else v
  }

  lemma CheckpointReadBack(v: Value)
    requires CheckpointFromValue(v).Ok?
    ensures CheckpointToValue(CheckpointFromValue(v).value) == CleanCheckpoint(v)
  {
    WrittenKeys(v);
    CleanedKeys(v);
    hide CheckpointToValue, CheckpointFromValue, CleanCheckpoint, CHECKPOINT_KEYS, EVIDENCE_KEYS;
    SameMap(CheckpointToValue(CheckpointFromValue(v).value).fields, CleanCheckpoint(v).fields, CHECKPOINT_KEYS + EVIDENCE_KEYS);
  }

  lemma WrittenKeys(v: Value)
    requires CheckpointFromValue(v).Ok?
    ensures v.Obj? && v.fields.Keys <= CHECKPOINT_KEYS + EVIDENCE_KEYS
    ensures var w := CheckpointToValue(CheckpointFromValue(v).value);
            && w.Obj? && w.fields.Keys <= CHECKPOINT_KEYS + EVIDENCE_KEYS
            && (forall k <- CHECKPOINT_KEYS :: Get(w.fields, k) == Get(v.fields, k))
            && (forall k <- EVIDENCE_KEYS :: Get(w.fields, k) == Present(v.fields, k))
  {
    hide CheckpointToValue, CheckpointFromValue, OwnershipToValue, Phase.AsStr;
    CheckpointParts(v);
    CheckpointFields(CheckpointFromValue(v).value);
  }

  lemma SameMap(w: map<string, Value>, u: map<string, Value>, keys: set<string>)
    requires w.Keys <= keys && u.Keys <= keys && forall k <- keys :: Get(w, k) == Get(u, k)
    ensures w == u
  {
    forall k <- keys ensures k in w <==> k in u {
      assert Get(w, k) == Get(u, k);
    }
    forall k | k in w ensures w[k] == u[k] {
      assert Get(w, k) == Get(u, k);
    }
  }

  lemma CleanedKeys(v: Value)
    requires v.Obj?
    ensures CleanCheckpoint(v).Obj? && CleanCheckpoint(v).fields.Keys <= v.fields.Keys
    ensures forall k <- EVIDENCE_KEYS :: Get(CleanCheckpoint(v).fields, k) == Present(v.fields, k)
    ensures forall k <- CHECKPOINT_KEYS :: Get(CleanCheckpoint(v).fields, k) == Get(v.fields, k)
  {
  }

  /** What the reader took from each key. */
  lemma CheckpointParts(v: Value)
    requires CheckpointFromValue(v).Ok?
    ensures v.Obj? && CHECKPOINT_KEYS <= v.fields.Keys <= CHECKPOINT_KEYS + EVIDENCE_KEYS
    ensures var m, c := v.fields, CheckpointFromValue(v).value;
            && m["action_id"] == Str(c.actionId) && m["adapter"] == Str(c.adapter) && m["data"] == Obj(c.data)
            && m["ownership"] == OwnershipToValue(c.ownership) && m["phase"] == Str(c.phase.AsStr())
            && Present(m, "evidence") == (if c.evidence.Some? then Some(Obj(c.evidence.value)) else None)
            && Present(m, "rollback_evidence")
               == (if c.rollbackEvidence.Some? then Some(Obj(c.rollbackEvidence.value)) else None)
  {
    OwnershipReadBack(v.fields["ownership"]);
  }

  // ----- the transaction state ---------------------------------------------------------

  datatype TransactionState = TransactionState(
    transactionId: string, status: Status, planDigest: string, acceptedDigest: string,
    checkpoints: seq<Checkpoint>, purgeData: Option<bool>, rollbackTarget: Option<RollbackTarget>,
    origin: string, error: Option<string>, legacy: map<string, Value>, schema: int)

  /** A fresh installer transaction for an approved plan digest. */
  function NewState(transactionId: string, status: Status, planDigest: string): TransactionState {
    TransactionState(transactionId, status, planDigest, planDigest, [], None, None, ORIGIN_INSTALLER, None, map[],
                     TRANSACTION_SCHEMA)
  }

  predicate IsHex(text: string, length: nat) {
    |text| == length && forall c <- text :: '0' <= c <= '9' || 'a' <= c <= 'f'
  }

  predicate DistinctActions(cps: seq<Checkpoint>) {
    forall i, j :: 0 <= i < j < |cps| ==> cps[i].actionId != cps[j].actionId
  }

  /** The first check of `validate` that fails, in its order. */
  function Validate(s: TransactionState): Result<(), Error> {
    if s.schema != TRANSACTION_SCHEMA then Err(TransactionError("transaction schema is invalid"))
    else if !IsHex(s.transactionId, 32) then Err(TransactionError("transaction identity is invalid"))
    else if !IsHex(s.planDigest, 64) || s.acceptedDigest != s.planDigest then
      Err(TransactionError("transaction plan digest is invalid"))
    else if exists c <- s.checkpoints :: !c.Identified() then
      Err(TransactionError("checkpoint identity is invalid"))
    else if !DistinctActions(s.checkpoints) then
      Err(TransactionError("transaction checkpoint actions are duplicated"))
    else if s.origin == "" then Err(TransactionError("transaction origin is invalid"))
    else Ok(())
  }

  const STATE_KEYS: set<string> :=
    {"accepted_digest", "checkpoints", "origin", "plan_digest", "schema", "status", "transaction_id"}
  const STATE_OPTIONAL_KEYS: set<string> := {"error", "legacy", "purge_data", "rollback_target"}

  function CheckpointsToValues(cps: seq<Checkpoint>): seq<Value> {
    seq(|cps|, i requires 0 <= i < |cps| => CheckpointToValue(cps[i]))
  }

  /** Reads checkpoints in order; the first error wins. */
  function CheckpointsFromValues(items: seq<Value>): Result<seq<Checkpoint>, Error> {
    if items == [] then Ok([])
    else
      match CheckpointFromValue(items[0])
      case Err(e) => Err(e)
      case Ok(c) =>
        match CheckpointsFromValues(items[1..])
        case Err(e) => Err(e)
        case Ok(rest) => Ok([c] + rest)
  }

  function With(m: map<string, Value>, key: string, value: Option<Value>): map<string, Value> {
    if value.Some? then m[key := value.value] else m
  }

  /** The keys every `state.json` has. */
  function StateRequired(s: TransactionState): map<string, Value> {
    map["accepted_digest" := Str(s.acceptedDigest), "checkpoints" := Arr(CheckpointsToValues(s.checkpoints)),
        "origin" := Str(s.origin), "plan_digest" := Str(s.planDigest), "schema" := Num(s.schema),
        "status" := Str(s.status.AsStr()), "transaction_id" := Str(s.transactionId)]
  }

  /** The optional keys, omitted instead of written as `null`. */
  function StateOptional(s: TransactionState): map<string, Value> {
    With(With(With(With(map[],
                        "error", if s.error.Some? then Some(Str(s.error.value)) else None),
                   "legacy", if s.legacy != map[] then Some(Obj(s.legacy)) else None),
              "purge_data", if s.purgeData.Some? then Some(Bool(s.purgeData.value)) else None),
         "rollback_target", if s.rollbackTarget.Some? then Some(Str(s.rollbackTarget.value.AsStr())) else None)
  }

  function StateToValue(s: TransactionState): Value {
    Obj(StateRequired(s) + StateOptional(s))
  }

  const StateInvalid := TransactionError("transaction state is invalid")

  /** The strict reader: unknown or missing keys refuse, checkpoint errors win over the state's own. */
  function StateFromValue(v: Value): Result<TransactionState, Error> {
    if !v.Obj? || !(STATE_KEYS <= v.fields.Keys <= STATE_KEYS + STATE_OPTIONAL_KEYS) then Err(StateInvalid)
    else
      var m := v.fields;
      if !m["checkpoints"].Arr? then Err(TransactionError("transaction checkpoints are invalid"))
      else
        match CheckpointsFromValues(m["checkpoints"].items)
        case Err(e) => Err(e)
        case Ok(cps) =>
          if m["schema"] != Num(TRANSACTION_SCHEMA) then Err(TransactionError("transaction schema is invalid"))
          else if !m["transaction_id"].Str? then Err(StateInvalid)
          else if !IsHex(m["transaction_id"].text, 32) then Err(TransactionError("transaction identity is invalid"))
          else if !m["status"].Str? || Status.Parse(m["status"].text).None? then
            Err(TransactionError("transaction status is invalid"))
          else if !m["plan_digest"].Str? || !m["accepted_digest"].Str? || !IsHex(m["plan_digest"].text, 64)
                  || m["accepted_digest"] != m["plan_digest"] then
            Err(TransactionError("transaction plan digest is invalid"))
          else if !DistinctActions(cps) then Err(TransactionError("transaction checkpoint actions are duplicated"))
          else StateOptionsFromValue(m, cps)
  }

  /** The optional keys and the remaining checks, once the required keys are read. */
  function StateOptionsFromValue(m: map<string, Value>, cps: seq<Checkpoint>): Result<TransactionState, Error>
    requires STATE_KEYS <= m.Keys
    requires m["transaction_id"].Str? && m["status"].Str? && Status.Parse(m["status"].text).Some?
    requires m["plan_digest"].Str? && m["accepted_digest"].Str?
  {
    var purge, target, error, legacy :=
      Present(m, "purge_data"), Present(m, "rollback_target"), Present(m, "error"), Present(m, "legacy");
    if purge.Some? && !purge.value.Bool? then Err(TransactionError("transaction data policy is invalid"))
    else if target.Some? && (!target.value.Str? || RollbackTarget.Parse(target.value.text).None?) then
      Err(TransactionError("transaction rollback target is invalid"))
    else if !m["origin"].Str? then Err(TransactionError("transaction origin is invalid"))
    else if (error.Some? && !error.value.Str?) || (legacy.Some? && !legacy.value.Obj?) then Err(StateInvalid)
    else
      var s := TransactionState(
                 m["transaction_id"].text, Status.Parse(m["status"].text).value,
                 m["plan_digest"].text, m["accepted_digest"].text, cps,
                 if purge.Some? then Some(purge.value.flag) else None,
                 if target.Some? then RollbackTarget.Parse(target.value.text) else None,
                 m["origin"].text,
                 if error.Some? then Some(error.value.text) else None,
                 if legacy.Some? then legacy.value.fields else map[],
                 TRANSACTION_SCHEMA);
      if Validate(s).Err? then Err(Validate(s).error) else Ok(s)
  }

  lemma CheckpointsFromValuesCons(items: seq<Value>, c: Checkpoint, rest: seq<Checkpoint>)
    requires items != []
    requires CheckpointFromValue(items[0]) == Ok(c) && CheckpointsFromValues(items[1..]) == Ok(rest)
    ensures CheckpointsFromValues(items) == Ok([c] + rest)
  {
    hide CheckpointFromValue;
  }

  lemma {:induction false} CheckpointsRoundTrip(cps: seq<Checkpoint>)
    requires forall i :: 0 <= i < |cps| ==> cps[i].Identified()
    ensures CheckpointsFromValues(CheckpointsToValues(cps)) == Ok(cps)
  {
    hide CheckpointFromValue, CheckpointToValue;
    if cps != [] {
      var items := CheckpointsToValues(cps);
      CheckpointRoundTrip(cps[0]);
      CheckpointsRoundTrip(cps[1..]);
      assert items[1..] == CheckpointsToValues(cps[1..]);
      CheckpointsFromValuesCons(items, cps[0], cps[1..]);
      assert [cps[0]] + cps[1..] == cps;
    }
  }

  /** Two maps over disjoint key sets, side by side. */
  lemma MergedFields(r: map<string, Value>, o: map<string, Value>, required: set<string>, optional: set<string>)
    requires r.Keys == required && o.Keys <= optional && required !! optional
    ensures required <= (r + o).Keys <= required + optional
    ensures forall k <- required :: (r + o)[k] == r[k]
    ensures forall k <- optional :: Get(r + o, k) == Get(o, k)
  {
  }

  lemma StateKeySets(s: TransactionState)
    ensures StateRequired(s).Keys == STATE_KEYS
    ensures StateOptional(s).Keys <= STATE_OPTIONAL_KEYS
    ensures STATE_KEYS !! STATE_OPTIONAL_KEYS
  {
  }

  lemma StateOptionalFields(s: TransactionState)
    ensures var o := StateOptional(s);
            && Get(o, "error") == (if s.error.Some? then Some(Str(s.error.value)) else None)
            && Get(o, "legacy") == (if s.legacy != map[] then Some(Obj(s.legacy)) else None)
            && Get(o, "purge_data") == (if s.purgeData.Some? then Some(Bool(s.purgeData.value)) else None)
            && Get(o, "rollback_target")
               == (if s.rollbackTarget.Some? then Some(Str(s.rollbackTarget.value.AsStr())) else None)
  {
  }

  /** What a written state has under each required key. */
  lemma RequiredEach(s: TransactionState, m: map<string, Value>)
    requires STATE_KEYS <= m.Keys && forall k <- STATE_KEYS :: m[k] == StateRequired(s)[k]
    ensures m["accepted_digest"] == Str(s.acceptedDigest) && m["origin"] == Str(s.origin)
    ensures m["plan_digest"] == Str(s.planDigest) && m["schema"] == Num(s.schema)
    ensures m["status"] == Str(s.status.AsStr()) && m["transaction_id"] == Str(s.transactionId)
    ensures m["checkpoints"] == Arr(CheckpointsToValues(s.checkpoints))
  {
    hide CheckpointsToValues, Status.AsStr;
  }

  /** The reader on a written state gets through the required keys. */
  lemma RequiredRoundTrip(s: TransactionState, m: map<string, Value>)
    requires Validate(s).Ok? && STATE_KEYS <= m.Keys <= STATE_KEYS + STATE_OPTIONAL_KEYS
    requires forall k <- STATE_KEYS :: m[k] == StateRequired(s)[k]
    ensures StateOptionsFromValue.requires(m, s.checkpoints)
    ensures StateFromValue(Obj(m)) == StateOptionsFromValue(m, s.checkpoints)
  {
    hide CheckpointsFromValues, CheckpointsToValues, StateOptionsFromValue, StateRequired;
    hide Status.AsStr, Status.Parse, IsHex, DistinctActions;
    RequiredEach(s, m);
    CheckpointsRoundTrip(s.checkpoints);
    NamesParseBack(s.status, Prepared, ToRolledBack);
  }

  lemma OptionalEach(s: TransactionState, m: map<string, Value>)
    requires forall k <- STATE_OPTIONAL_KEYS :: Get(m, k) == Get(StateOptional(s), k)
    ensures Get(m, "error") == (if s.error.Some? then Some(Str(s.error.value)) else None)
    ensures Get(m, "legacy") == (if s.legacy != map[] then Some(Obj(s.legacy)) else None)
    ensures Get(m, "purge_data") == (if s.purgeData.Some? then Some(Bool(s.purgeData.value)) else None)
    ensures Get(m, "rollback_target")
            == (if s.rollbackTarget.Some? then Some(Str(s.rollbackTarget.value.AsStr())) else None)
  {
    hide StateOptional, RollbackTarget.AsStr;
    StateOptionalFields(s);
  }

  lemma OptionalRoundTrip(s: TransactionState, m: map<string, Value>)
    requires Validate(s).Ok? && STATE_KEYS <= m.Keys
    requires forall k <- STATE_KEYS :: m[k] == StateRequired(s)[k]
    requires forall k <- STATE_OPTIONAL_KEYS :: Get(m, k) == Get(StateOptional(s), k)
    requires StateOptionsFromValue.requires(m, s.checkpoints)
    ensures StateOptionsFromValue(m, s.checkpoints) == Ok(s)
  {
    hide StateOptional, StateRequired, CheckpointsToValues, Status.AsStr, Status.Parse, RollbackTarget.AsStr, RollbackTarget.Parse;
    assert s.schema == TRANSACTION_SCHEMA;
    hide Validate;
    RequiredEach(s, m);
    OptionalEach(s, m);
    NamesParseBack(s.status, Prepared, if s.rollbackTarget.Some? then s.rollbackTarget.value else ToRolledBack);
  }

  /** Whatever passes `validate` is read back exactly as it was written. */
  lemma StateRoundTrip(s: TransactionState)
    requires Validate(s).Ok?
    ensures StateFromValue(StateToValue(s)) == Ok(s)
  {
    hide StateFromValue, StateOptionsFromValue, StateRequired, StateOptional, Validate;
    StateKeySets(s);
    MergedFields(StateRequired(s), StateOptional(s), STATE_KEYS, STATE_OPTIONAL_KEYS);
    RequiredRoundTrip(s, StateToValue(s).fields);
    OptionalRoundTrip(s, StateToValue(s).fields);
  }

  /** What the writer leaves out: optional keys that are `null`, and an empty `legacy`. */
  predicate Dropped(key: string, value: Value) {
    key in STATE_OPTIONAL_KEYS && (value == Null || (key == "legacy" && value == Obj(map[])))
  }

  function CleanCheckpoints(items: seq<Value>): seq<Value> {
    seq(|items|, i requires 0 <= i < |items| => CleanCheckpoint(items[i]))
  }

  /** A `state.json` value without the keys the writer leaves out, here and in its checkpoints. */
  function CleanState(v: Value): Value {
    if v.Obj? then
      Obj(map k | k in v.fields && !Dropped(k, v.fields[k]) ::
            if k == "checkpoints" && v.fields[k].Arr? then Arr(CleanCheckpoints(v.fields[k].items)) else v.fields[k])
    else v
  }

  lemma {:induction false} CheckpointsReadBack(items: seq<Value>)
    requires CheckpointsFromValues(items).Ok?
    ensures CheckpointsToValues(CheckpointsFromValues(items).value) == CleanCheckpoints(items)
  {
    hide CheckpointFromValue, CheckpointToValue, CleanCheckpoint;
    if items != [] {
      CheckpointReadBack(items[0]);
      CheckpointsReadBack(items[1..]);
      var c, rest := CheckpointFromValue(items[0]).value, CheckpointsFromValues(items[1..]).value;
      assert CheckpointsFromValues(items).value == [c] + rest;
      assert CheckpointsToValues([c] + rest) == [CheckpointToValue(c)] + CheckpointsToValues(rest);
      assert CleanCheckpoints(items) == [CleanCheckpoint(items[0])] + CleanCheckpoints(items[1..]);
    }
  }

  lemma OptionalReadBack(m: map<string, Value>, cps: seq<Checkpoint>)
    requires StateOptionsFromValue.requires(m, cps) && StateOptionsFromValue(m, cps).Ok?
    ensures var o := StateOptional(StateOptionsFromValue(m, cps).value);
            forall k <- STATE_OPTIONAL_KEYS :: Get(o, k) == (if k in m && !Dropped(k, m[k]) then Some(m[k]) else None)
  {
    hide Validate, Status.Parse;
    StateOptionalFields(StateOptionsFromValue(m, cps).value);
  }

  /** Which states are valid. */
  lemma ValidateMeaning(s: TransactionState)
    ensures Validate(s).Ok? <==>
            && s.schema == TRANSACTION_SCHEMA && s.origin != "" && s.acceptedDigest == s.planDigest
            && |s.transactionId| == 32 && |s.planDigest| == 64
            && (forall c <- s.transactionId + s.planDigest :: c in "0123456789abcdef")
            && (forall c <- s.checkpoints :: c.actionId != "" && c.adapter != "")
            && forall i, j :: 0 <= i < j < |s.checkpoints| ==> s.checkpoints[i].actionId != s.checkpoints[j].actionId
  {
    HexDigits(s.transactionId);
    HexDigits(s.planDigest);
    assert forall c <- s.transactionId :: c in s.transactionId + s.planDigest;
    assert forall c <- s.planDigest :: c in s.transactionId + s.planDigest;
    hide IsHex;
  }

  lemma HexDigits(text: string)
    ensures IsHex(text, |text|) <==> forall c <- text :: c in "0123456789abcdef"
    ensures forall n :: IsHex(text, n) <==> n == |text| && IsHex(text, |text|)
  {
    forall c: char ensures '0' <= c <= '9' || 'a' <= c <= 'f' <==> c in "0123456789abcdef" {
    }
  }

  /** Whatever is read is valid. */
  lemma ReadIsValid(v: Value)
    requires StateFromValue(v).Ok?
    ensures Validate(StateFromValue(v).value).Ok?
  {
    StateParts(v);
    hide StateFromValue, Validate, RollbackTarget.Parse, Status.Parse;
  }

  /** What the reader took from each required key. */
  lemma StateParts(v: Value)
    requires StateFromValue(v).Ok?
    ensures v.Obj? && STATE_KEYS <= v.fields.Keys <= STATE_KEYS + STATE_OPTIONAL_KEYS
    ensures var m, s := v.fields, StateFromValue(v).value;
            && m["checkpoints"].Arr? && CheckpointsFromValues(m["checkpoints"].items) == Ok(s.checkpoints)
            && m["accepted_digest"] == Str(s.acceptedDigest) && m["origin"] == Str(s.origin)
            && m["plan_digest"] == Str(s.planDigest) && m["schema"] == Num(s.schema)
            && m["status"] == Str(s.status.AsStr()) && m["transaction_id"] == Str(s.transactionId)
            && StateOptionsFromValue.requires(m, s.checkpoints) && StateOptionsFromValue(m, s.checkpoints) == Ok(s)
  {
    hide CheckpointsFromValues, IsHex, DistinctActions, StateOptionsFromValue;
    var m := v.fields;
    var cps := CheckpointsFromValues(m["checkpoints"].items).value;
    assert StateFromValue(v) == StateOptionsFromValue(m, cps);
    OptionsParts(m, cps);
  }

  lemma OptionsParts(m: map<string, Value>, cps: seq<Checkpoint>)
    requires StateOptionsFromValue.requires(m, cps) && StateOptionsFromValue(m, cps).Ok?
    ensures var s := StateOptionsFromValue(m, cps).value;
            && s.checkpoints == cps && s.schema == TRANSACTION_SCHEMA
            && m["accepted_digest"] == Str(s.acceptedDigest) && m["origin"] == Str(s.origin)
            && m["plan_digest"] == Str(s.planDigest) && m["status"] == Str(s.status.AsStr())
            && m["transaction_id"] == Str(s.transactionId)
  {
    hide Validate, RollbackTarget.Parse;
  }

  lemma CleanFields(v: Value)
    requires v.Obj? && v.fields.Keys <= STATE_KEYS + STATE_OPTIONAL_KEYS
    ensures CleanState(v).fields.Keys <= STATE_KEYS + STATE_OPTIONAL_KEYS
    ensures forall k <- STATE_OPTIONAL_KEYS ::
              Get(CleanState(v).fields, k) == (if k in v.fields && !Dropped(k, v.fields[k]) then Some(v.fields[k]) else None)
    ensures forall k <- STATE_KEYS - {"checkpoints"} :: Get(CleanState(v).fields, k) == Get(v.fields, k)
    ensures "checkpoints" in v.fields && v.fields["checkpoints"].Arr? ==>
              Get(CleanState(v).fields, "checkpoints") == Some(Arr(CleanCheckpoints(v.fields["checkpoints"].items)))
  {
    hide CleanCheckpoints;
  }

  lemma RequiredFields(s: TransactionState, m: map<string, Value>)
    requires STATE_KEYS <= m.Keys
    requires && m["accepted_digest"] == Str(s.acceptedDigest) && m["origin"] == Str(s.origin)
             && m["plan_digest"] == Str(s.planDigest) && m["schema"] == Num(s.schema)
             && m["status"] == Str(s.status.AsStr()) && m["transaction_id"] == Str(s.transactionId)
    ensures forall k <- STATE_KEYS - {"checkpoints"} :: Get(StateRequired(s), k) == Get(m, k)
    ensures Get(StateRequired(s), "checkpoints") == Some(Arr(CheckpointsToValues(s.checkpoints)))
  {
    hide CheckpointsToValues, Status.AsStr;
  }

  lemma RequiredReadBack(v: Value)
    requires StateFromValue(v).Ok?
    ensures forall k <- STATE_KEYS :: Get(CleanState(v).fields, k) == Get(StateRequired(StateFromValue(v).value), k)
  {
    StateParts(v);
    hide StateFromValue, StateOptionsFromValue, CheckpointsFromValues, CheckpointsToValues, CleanCheckpoints, Status.AsStr,
         CleanState, Dropped, StateRequired;
    CheckpointsReadBack(v.fields["checkpoints"].items);
    CleanFields(v);
    RequiredFields(StateFromValue(v).value, v.fields);
  }

  lemma SameFields(w: map<string, Value>, u: map<string, Value>, required: set<string>, optional: set<string>)
    requires w.Keys <= required + optional && u.Keys <= required + optional
    requires forall k <- required :: Get(w, k) == Get(u, k)
    requires forall k <- optional :: Get(w, k) == Get(u, k)
    ensures w == u
  {
    forall k | k in required + optional ensures Get(w, k) == Get(u, k) {
    }
    assert w.Keys == u.Keys;
  }

  lemma StateOptionsRead(v: Value)
    requires StateFromValue(v).Ok?
    ensures v.Obj? && v.fields.Keys <= STATE_KEYS + STATE_OPTIONAL_KEYS
    ensures var s := StateFromValue(v).value;
            StateOptionsFromValue.requires(v.fields, s.checkpoints) && StateOptionsFromValue(v.fields, s.checkpoints) == Ok(s)
  {
    StateParts(v);
  }

  /** Whatever the reader accepts is written back as it was, but for the keys the writer leaves out. */
  lemma StateReadBack(v: Value)
    requires StateFromValue(v).Ok?
    ensures StateToValue(StateFromValue(v).value) == CleanState(v)
  {
    StateOptionsRead(v);
    hide StateFromValue, StateOptionsFromValue, StateRequired, StateOptional, CleanState, Dropped;
    var s := StateFromValue(v).value;
    StateKeySets(s);
    MergedFields(StateRequired(s), StateOptional(s), STATE_KEYS, STATE_OPTIONAL_KEYS);
    RequiredReadBack(v);
    OptionalReadBack(v.fields, s.checkpoints);
    CleanFields(v);
    CleanIsObject(v);
    SameFields(StateToValue(s).fields, CleanState(v).fields, STATE_KEYS, STATE_OPTIONAL_KEYS);
  }

  lemma CleanIsObject(v: Value)
    requires v.Obj?
    ensures CleanState(v).Obj?
  {
  }

  // ----- checkpoints and ownership of a state --------------------------------------------

  /** `with_checkpoint`: replace the checkpoint of the same action, or append it. */
  function WithCheckpoint(cps: seq<Checkpoint>, c: Checkpoint): seq<Checkpoint> {
    if cps == [] then [c]
    else if cps[0].actionId == c.actionId then [c] + cps[1..]
    else [cps[0]] + WithCheckpoint(cps[1..], c)
  }

  /** On distinct actions, the one slot of the action is replaced and nothing else moves. */
  lemma {:induction false} WithCheckpointAt(cps: seq<Checkpoint>, c: Checkpoint, i: nat)
    requires i <= |cps|
    requires forall j :: 0 <= j < |cps| && j != i ==> cps[j].actionId != c.actionId
    requires i < |cps| ==> cps[i].actionId == c.actionId
    ensures WithCheckpoint(cps, c) == if i < |cps| then cps[i := c] else cps + [c]
  {
    if cps != [] && i > 0 {
      assert cps[0].actionId != c.actionId;
      WithCheckpointAt(cps[1..], c, i - 1);
      assert cps == [cps[0]] + cps[1..];
    }
  }

  /** `checkpoint`: the checkpoint of an action. */
  function FindCheckpoint(cps: seq<Checkpoint>, actionId: string): Option<Checkpoint> {
    if cps == [] then None
    else if cps[0].actionId == actionId then Some(cps[0])
    else FindCheckpoint(cps[1..], actionId)
  }

  lemma {:induction false} FindCheckpointAt(cps: seq<Checkpoint>, actionId: string, i: nat)
    requires i <= |cps|
    requires forall j :: 0 <= j < |cps| && j != i ==> cps[j].actionId != actionId
    requires i < |cps| ==> cps[i].actionId == actionId
    ensures FindCheckpoint(cps, actionId) == if i < |cps| then Some(cps[i]) else None
  {
    if cps != [] && i > 0 {
      assert cps[0].actionId != actionId;
      FindCheckpointAt(cps[1..], actionId, i - 1);
    }
  }

  /** Whether no path is owned by two checkpoints whose ownership counts. */
  ghost predicate OwnDisjoint(cps: seq<Checkpoint>, inProgress: bool) {
    forall i, j :: 0 <= i < j < |cps| && cps[i].phase.Owns(inProgress) && cps[j].phase.Owns(inProgress) ==>
                     cps[i].ownership.Keys !! cps[j].ownership.Keys
  }

  /** The paths of the checkpoints whose ownership counts; later checkpoints win. */
  ghost function OwnUnion(cps: seq<Checkpoint>, inProgress: bool): Ownership {
    if cps == [] then map[]
    else
      var last := cps[|cps| - 1];
      var rest := OwnUnion(cps[..|cps| - 1], inProgress);
      if last.phase.Owns(inProgress) then rest + last.ownership else rest
  }

  lemma {:induction false} OwnUnionMembers(cps: seq<Checkpoint>, inProgress: bool)
    ensures forall path :: path in OwnUnion(cps, inProgress) <==>
              exists i :: 0 <= i < |cps| && cps[i].phase.Owns(inProgress) && path in cps[i].ownership
    ensures OwnDisjoint(cps, inProgress) ==>
              forall i, path :: 0 <= i < |cps| && cps[i].phase.Owns(inProgress) && path in cps[i].ownership ==>
                OwnUnion(cps, inProgress)[path] == cps[i].ownership[path]
  {
    if cps != [] {
      var rest := cps[..|cps| - 1];
      OwnUnionMembers(rest, inProgress);
      forall path ensures path in OwnUnion(cps, inProgress) <==>
              exists i :: 0 <= i < |cps| && cps[i].phase.Owns(inProgress) && path in cps[i].ownership
      {
        if i :| 0 <= i < |cps| && cps[i].phase.Owns(inProgress) && path in cps[i].ownership {
          assert i < |rest| ==> rest[i].phase.Owns(inProgress) && path in rest[i].ownership;
        }
        if i :| 0 <= i < |rest| && rest[i].phase.Owns(inProgress) && path in rest[i].ownership {
          assert cps[i].phase.Owns(inProgress) && path in cps[i].ownership;
        }
      }
      if OwnDisjoint(cps, inProgress) {
        assert OwnDisjoint(rest, inProgress);
        forall i, path | 0 <= i < |cps| && cps[i].phase.Owns(inProgress) && path in cps[i].ownership
          ensures OwnUnion(cps, inProgress)[path] == cps[i].ownership[path]
        {
          if i < |rest| {
            assert rest[i].phase.Owns(inProgress) && path in rest[i].ownership;
          }
        }
      }
    }
  }

  const DuplicatePaths := OwnershipError("ownership journal contains duplicate paths")

  /** The inner loop of `ownership`: insert `more` path by path, refusing one that is there already. */
  method InsertOwned(before: Ownership, more: Ownership) returns (r: Result<Ownership, Error>)
    ensures r.Ok? <==> before.Keys !! more.Keys
    ensures r.Ok? ==> r.value == before + more
    ensures r.Err? ==> r.error == DuplicatePaths
  {
    var owned := before;
    var todo := more.Keys;
    while todo != {}
      invariant todo <= more.Keys
      invariant owned == before + (map path | path in more && path !in todo :: more[path])
      invariant before.Keys !! more.Keys - todo
      decreases todo
    {
      var path :| path in todo;
      if path in owned {
        return Err(DuplicatePaths);
      }
      owned := owned[path := more[path]];
      todo := todo - {path};
    }
    return Ok(owned);
  }

  lemma OwnDisjointStep(cps: seq<Checkpoint>, inProgress: bool, n: nat)
    requires n < |cps| && OwnDisjoint(cps[..n], inProgress)
    ensures cps[..n + 1][..n] == cps[..n]
    ensures OwnDisjoint(cps[..n + 1], inProgress) <==>
            (cps[n].phase.Owns(inProgress) ==> OwnUnion(cps[..n], inProgress).Keys !! cps[n].ownership.Keys)
  {
    var head, more := cps[..n], cps[..n + 1];
    OwnUnionMembers(head, inProgress);
    assert forall i :: 0 <= i < n ==> more[i] == head[i];
    assert more[n] == cps[n];
    if OwnDisjoint(more, inProgress) && cps[n].phase.Owns(inProgress) {
      forall path | path in OwnUnion(head, inProgress) ensures path !in cps[n].ownership {
        var i :| 0 <= i < |head| && head[i].phase.Owns(inProgress) && path in head[i].ownership;
        assert more[i].ownership.Keys !! more[n].ownership.Keys;
      }
    }
  }

  lemma OwnDisjointPrefix(cps: seq<Checkpoint>, inProgress: bool, n: nat)
    requires n <= |cps| && OwnDisjoint(cps, inProgress)
    ensures OwnDisjoint(cps[..n], inProgress)
  {
  }

  /** `ownership`: the union of what the counting checkpoints own, refused when two own the same path. */
  method CollectOwnership(cps: seq<Checkpoint>, inProgress: bool) returns (r: Result<Ownership, Error>)
    ensures r.Ok? <==> OwnDisjoint(cps, inProgress)
    ensures r.Ok? ==> r.value == OwnUnion(cps, inProgress)
    ensures r.Err? ==> r.error == DuplicatePaths
  {
    var owned: Ownership := map[];
    for n := 0 to |cps|
      invariant OwnDisjoint(cps[..n], inProgress)
      invariant owned == OwnUnion(cps[..n], inProgress)
    {
      OwnDisjointStep(cps, inProgress, n);
      if cps[n].phase.Owns(inProgress) {
        var merged := InsertOwned(owned, cps[n].ownership);
        if merged.Err? {
          if OwnDisjoint(cps, inProgress) {
            OwnDisjointPrefix(cps, inProgress, n + 1);
          }
          return merged;
        }
        owned := merged.value;
      }
    }
    assert cps[..|cps|] == cps;
    return Ok(owned);
  }

  /** The derived `ownership.json`. */
  function OwnershipFile(owned: Ownership): Value {
    Obj(map["files" := OwnershipToValue(owned), "schema" := Num(TRANSACTION_SCHEMA)])
  }

  function Nullable(evidence: Option<map<string, Value>>): Value {
    if evidence.Some? then Obj(evidence.value) else Null
  }

  function CheckpointReport(c: Checkpoint): Value {
    Obj(map["action_id" := Str(c.actionId), "evidence" := Nullable(c.evidence), "phase" := Str(c.phase.AsStr()),
            "rollback_evidence" := Nullable(c.rollbackEvidence)])
  }

  /** The derived `report.json`: phases and evidence, never data or ownership. */
  function ReportFile(s: TransactionState): Value {
    Obj(map[
          "checkpoints" := Arr(seq(|s.checkpoints|,
                                   i requires 0 <= i < |s.checkpoints| => CheckpointReport(s.checkpoints[i]))),
          "error" := if s.error.Some? then Str(s.error.value) else Null,
          "plan_digest" := Str(s.planDigest), "schema" := Num(TRANSACTION_SCHEMA),
          "status" := Str(s.status.AsStr()), "transaction_id" := Str(s.transactionId)])
  }

  /** `ownership.json` says exactly what is owned. */
  lemma OwnershipFileMeaning(owned: Ownership)
    ensures OwnershipFile(owned).Obj?
    ensures var m := OwnershipFile(owned).fields;
            && m.Keys == {"files", "schema"} && m["schema"] == Num(TRANSACTION_SCHEMA)
            && OwnershipFromValue(m["files"]) == Some(owned)
  {
    OwnershipRoundTrip(owned);
    hide OwnershipToValue, OwnershipFromValue;
  }

  /** What a report says of a checkpoint. */
  ghost predicate SameInReport(c: Checkpoint, d: Checkpoint) {
    c.actionId == d.actionId && c.phase == d.phase && c.evidence == d.evidence && c.rollbackEvidence == d.rollbackEvidence
  }

  /** The report tells two states apart exactly by their transaction, plan, status, error and, of their checkpoints, the
      action, phase and evidence. */
  ghost predicate SameReport(s: TransactionState, t: TransactionState) {
    && s.transactionId == t.transactionId && s.planDigest == t.planDigest && s.status == t.status && s.error == t.error
    && |s.checkpoints| == |t.checkpoints|
    && forall i :: 0 <= i < |s.checkpoints| ==> SameInReport(s.checkpoints[i], t.checkpoints[i])
  }

  lemma CheckpointReportMeaning(c: Checkpoint, d: Checkpoint)
    ensures CheckpointReport(c) == CheckpointReport(d) <==> SameInReport(c, d)
  {
    var m, n := CheckpointReport(c).fields, CheckpointReport(d).fields;
    NamesParseBack(Status.Applying, c.phase, ToRolledBack);
    NamesParseBack(Status.Applying, d.phase, ToRolledBack);
    hide Phase.AsStr, Phase.Parse;
    if CheckpointReport(c) == CheckpointReport(d) {
      assert m["action_id"] == n["action_id"] && m["phase"] == n["phase"];
      assert m["evidence"] == n["evidence"] && m["rollback_evidence"] == n["rollback_evidence"];
    }
  }

  lemma ReportMeaning(s: TransactionState, t: TransactionState)
    ensures ReportFile(s) == ReportFile(t) <==> SameReport(s, t)
  {
    hide CheckpointReport, Status.AsStr, Status.Parse;
    NamesParseBack(s.status, Phase.Prepared, ToRolledBack);
    NamesParseBack(t.status, Phase.Prepared, ToRolledBack);
    forall i | 0 <= i < |s.checkpoints| && i < |t.checkpoints|
      ensures CheckpointReport(s.checkpoints[i]) == CheckpointReport(t.checkpoints[i]) <==>
              SameInReport(s.checkpoints[i], t.checkpoints[i])
    {
      CheckpointReportMeaning(s.checkpoints[i], t.checkpoints[i]);
    }
    hide SameInReport;
    var m, n := ReportFile(s).fields, ReportFile(t).fields;
    if ReportFile(s) == ReportFile(t) {
      assert m["checkpoints"] == n["checkpoints"] && m["error"] == n["error"] && m["plan_digest"] == n["plan_digest"];
      assert m["status"] == n["status"] && m["transaction_id"] == n["transaction_id"];
      var a, b := m["checkpoints"].items, n["checkpoints"].items;
      assert |a| == |s.checkpoints| && |b| == |t.checkpoints|;
      assert forall i :: 0 <= i < |a| ==> a[i] == CheckpointReport(s.checkpoints[i]);
      assert forall i :: 0 <= i < |b| ==> b[i] == CheckpointReport(t.checkpoints[i]);
    }
    if SameReport(s, t) {
      assert m["checkpoints"].items == n["checkpoints"].items;
    }
  }

  /** Each key of the report. */
  lemma ReportKeys(s: TransactionState)
    ensures ReportFile(s).Obj?
    ensures var m := ReportFile(s).fields;
            && m.Keys == {"checkpoints", "error", "plan_digest", "schema", "status", "transaction_id"}
            && m["error"] == (if s.error.Some? then Str(s.error.value) else Null) && m["schema"] == Num(TRANSACTION_SCHEMA)
            && m["plan_digest"] == Str(s.planDigest) && m["transaction_id"] == Str(s.transactionId)
            && m["status"].Str? && Status.Parse(m["status"].text) == Some(s.status)
            && m["checkpoints"].Arr? && |m["checkpoints"].items| == |s.checkpoints|
  {
    NamesParseBack(s.status, Phase.Prepared, ToRolledBack);
    hide CheckpointReport, Status.AsStr, Status.Parse;
  }

  lemma CheckpointReportKeys(c: Checkpoint)
    ensures CheckpointReport(c).Obj?
    ensures var m := CheckpointReport(c).fields;
            && m.Keys == {"action_id", "evidence", "phase", "rollback_evidence"}
            && m["action_id"] == Str(c.actionId) && m["phase"].Str? && Phase.Parse(m["phase"].text) == Some(c.phase)
            && m["evidence"] == (if c.evidence.Some? then Obj(c.evidence.value) else Null)
            && m["rollback_evidence"] == (if c.rollbackEvidence.Some? then Obj(c.rollbackEvidence.value) else Null)
  {
    NamesParseBack(Status.Applying, c.phase, ToRolledBack);
    hide Phase.AsStr, Phase.Parse;
  }
}
