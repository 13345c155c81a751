# Proxy Control: a verified model

Proxy Control installs and runs a set of proxies on one host. This project models the parts of it whose promises range
over whole runs, and proves them in Dafny 4.11:

- **The installer's transaction engine** (`Journal`, `Protocol`, `Files`, `Store`, `Host`, `Engine`). A plan's actions
  run through adapters under a journal of four atomically replaced files. Every file write, adapter call and hook may
  succeed, fail, or be the last thing the process does; a failed write may or may not have taken effect. Operations
  follow each other in any order. The host keeps a ghost log of every adapter call of every transaction, and the
  invariant `Engine.TransactionEngine.Inv` ties the journal on disk to that log and to the files.
- **The panel's ownership handoff** (`Handoff`, `Update`): the journal is rebased onto the files of a new panel
  generation, between and after the operations of the engine.
- **The AmneziaWG manager** (`Text`, `IpNet`, `Uapi`, `Pool`, `State`, `Node`, `Manager`): stored peers, the addresses
  they take, the scripts that bring a device in line with them, and supervision. Host calls fail, scripts are carried
  out in part, processes die, saves fail.
- **The egress switcher** (`Routes`, `Egress`): a document with optimistic revisions and bounded undo, and routes that
  must fail closed. The kernel keeps a ghost trace of its routing table before and after every command.
- **The diff engine** (`Diff`), a small SequenceMatcher.
- **The tunnel meter** (`Padding`, `Meter`): one copy loop that frames, unframes and counts payload.
- **The ingress rewrite** (`Ingress`): text of a stream router, rendered, recognised and rewritten.
- **The obfuscation parameters** (`Cps`, `Obfuscation`): random generation that has to pass its own validation.

What the environment decides is nondeterministic: a `faults` field says whether something may fail now, so progress is
stated for the case that it may not. Whole runs are the methods `Engine.Run`, `Update.Run`, `Manager.Run`, `Egress.Run`
and `Egress.RunReliably`, which take any sequence of operations.

Seven things the code does that a reader might not expect:

- A crash in `repair` after an adapter changed its files and before the journal is written leaves an active journal
  with outdated digests; `resume` then refuses (`Engine.RepairCutShort`). `resume` of an active journal succeeds exactly
  when every owned file is as recorded, which is in the contract of `Engine.TransactionEngine.Resume`.
- `egress_teardown` flushes the table even when a rule could not be removed, which leaves that rule's subnet without the
  blackhole (`Routes.FlushOpens`).
- An apply of WARP waits for the tunnel's first handshake, as the header of egress.rs says, and does not ask whether the
  routes were applied; for the router it asks both. `Egress.UnroutedWarp` is an apply of WARP that succeeds while the
  clients still leave from the server's own address. `Egress.EgressManager.Switch` says exactly when a success has the
  clients routed, where a failed command changes nothing: when the last steering pass went through, which `networkOk`
  records, or when the rules and the blackhole were there before it.
- A write that a restart loses lets the next apply use the same revision for another history (`Egress.ReuseRevision`).
- An empty read among the first padded reads uses up the padding count on the adding side only; the padding is taken off
  correctly exactly under the condition of `Padding.RoundTrip`.
- A stream route whose domain is `default` is valid to the code but makes the rewrite refuse the text
  (`Ingress.DefaultIsRefused`).
- The ingress rewrite sends a name that no route lists to the panel; before, it went to port 8443, which is the same only
  if the panel is there (`Ingress.RoutingPreserved`).

`dafny verify dfyconfig.toml` checks everything.

## Model

| member | source | states |
|---|---|---|
| Journal.NamesParseBack | installer/src/journal.rs:40-143 | every status, phase and rollback target is read back from its name |
| Journal.EntryRoundTrip | installer/src/journal.rs:160-194 | an ownership entry written is read back the same |
| Journal.EntryReadBack | installer/src/journal.rs:160-194 | an entry that the strict reader accepts is written back as the very value read |
| Journal.OwnershipRoundTrip | installer/src/journal.rs:206-213 | an ownership map written is read back the same |
| Journal.OwnershipReadBack | installer/src/journal.rs:206-213 | an ownership map read is written back unchanged |
| Journal.CheckpointRoundTrip | installer/src/journal.rs:250-300 | a checkpoint with an action and an adapter, written, is read back the same |
| Journal.CheckpointReadBack | installer/src/journal.rs:250-300 | a checkpoint read is written back as the value read without its null evidence keys |
| Journal.StateRoundTrip | installer/src/journal.rs:344-472 | every state that passes `validate` is read back from what it is written as |
| Journal.StateReadBack | installer/src/journal.rs:368-472 | every value the reader accepts is written back as itself without null optional keys and an empty `legacy` |
| Journal.ValidateMeaning | installer/src/journal.rs:344-365 | `validate` accepts exactly the states of this schema with an origin, hexadecimal ids of 32 and 64 digits, the accepted digest that of the plan, named actions and adapters, and no action twice |
| Journal.ReadIsValid | installer/src/journal.rs:368-472 | whatever is read from a file is valid |
| Journal.WithCheckpointAt | installer/src/journal.rs:475-480 | on distinct actions one slot is replaced, or the checkpoint appended, and nothing else moves |
| Journal.FindCheckpointAt | installer/src/journal.rs:483-485 | the checkpoint of an action is found exactly if there is one |
| Journal.InsertOwned | installer/src/journal.rs:489-501 | paths are merged exactly if none is there already |
| Journal.CollectOwnership | installer/src/journal.rs:489-501 | the union of the owning checkpoints' paths, refused exactly when two own the same path |
| Journal.OwnershipFileMeaning | installer/src/journal.rs:489-501 | `ownership.json` holds exactly the owned paths, readable back, and the schema |
| Journal.ReportKeys | installer/src/journal.rs:504-526 | which keys `report.json` has and what each says of the state |
| Journal.CheckpointReportKeys | installer/src/journal.rs:505-516 | which keys the report has for a checkpoint: its action, phase and evidence, never its data or paths |
| Journal.ReportMeaning | installer/src/journal.rs:504-526 | two states have the same report exactly when they agree in transaction, plan, status, error and, checkpoint by checkpoint, in action, phase and evidence |
| Protocol.DirtyMeaning | installer/src/engine.rs:275-331 | an action is clean exactly when every call that mutated it was followed by a successful undo of it |
| Protocol.StagedMeaning | installer/src/engine.rs:287-331 | the journal's shape: verified checkpoints, at most one unfinished, then rolled-back ones |
| Protocol.FinishedIsSettled | installer/src/engine.rs:364-433 | a journal that says rolled back or uninstalled has undone every mutation of its transaction; a checkpoint retired without a call was never mutated |
| Protocol.SoundValidates | installer/src/journal.rs:344-365 | every journal the engine writes passes `validate` |
| Files.CaptureOwnership | installer/src/engine.rs:473-533 | succeeds exactly when every declared path exists as declared, and then records exactly those paths with their identities and flags |
| Files.DeclarationMeaning | installer/src/engine.rs:473-490 | which key of an adapter's data declares its paths, and that a list declares them without conditions |
| Files.JudgeMeaning | installer/src/engine.rs:496-520 | a path is as declared exactly when nothing is said, its digest is the one given, or its flags are boolean and a digest beside them is the actual one unless the path is mutable |
| Files.CapturedEntry | installer/src/engine.rs:473-533 | what is captured of a path: the action, the kind and digest it now has, and exactly the preserve and mutable flags declared for it |
| Files.AssertOwned | installer/src/engine.rs:55-74 | succeeds exactly when every entry still exists with its kind and, unless mutable or agent-managed, its digest |
| Files.AssertReconcileSafe | installer/src/engine.rs:437-456 | succeeds exactly when every path present matches and every path gone was allowed to go |
| Files.NextToUndo | installer/src/engine.rs:378-431 | of the journal's checkpoints only the frontier can be one whose undo was entered and not recorded, so a rollback may go on exactly if that one may |
| Files.TidyMayGoOn | installer/src/engine.rs:437-456 | when undos remove only what they own and leave what is preserved, an interrupted rollback may always go on |
| Files.ConfinedIsDisjoint | installer/src/engine.rs:86-90 | when adapters keep to their own paths, no two checkpoints own the same one, so the derived files can always be written |
| Store.TransactionStore.WriteState | installer/src/store.rs:154-158 | the file holds the old state or the new one whatever happens; an invalid state is never written |
| Store.TransactionStore.ReadState | installer/src/store.rs:160-163 | what is read is the state that was written |
| Store.TransactionStore.RemoveState | installer/src/store.rs:189-194 | the state is there as it was, or gone |
| Engine.TransactionEngine.Persist | installer/src/engine.rs:86-90 | keeps the invariant however it stops; on success the derived files are what the state determines; with working writes the state is always written |
| Engine.TransactionEngine.Record | installer/src/engine.rs:334-337 | a checkpoint reaches the journal with its hook, or the journal is as it was |
| Engine.TransactionEngine.Verify | installer/src/engine.rs:458-470 | a checkpoint counts as verified only on successful evidence for its own action, after its last change |
| Engine.TransactionEngine.Change | installer/src/engine.rs:339-342 | a mutating call is entered only as the journal on disk allows, whatever it does the invariant holds, and on success exactly the declared paths are captured as they now are |
| Engine.TransactionEngine.Execute | installer/src/engine.rs:302-315 | an applied checkpoint has exactly the data the adapter returned, owns exactly what that declares as it now is, and is otherwise as it was |
| Engine.TransactionEngine.VerifyApplied | installer/src/engine.rs:316-322 | an applied checkpoint becomes a verified one in the journal with the evidence the adapter gave, after its last change, and is otherwise as it was |
| Engine.TransactionEngine.UndoNow | installer/src/engine.rs:402-431 | the undo is entered under the recorded policy; only successful evidence, with what is preserved intact, makes the checkpoint rolled back, with that evidence recorded |
| Engine.TransactionEngine.ContinueApply | installer/src/engine.rs:287-331 | from any interrupted journal: keeps the invariant whatever fails; on success the transaction is active and the derived files are in step; succeeds when nothing fails and adapters keep to their own paths |
| Engine.TransactionEngine.UndoCheckpoint | installer/src/engine.rs:378-431 | one checkpoint ends rolled back and no other changes, under the transaction's one policy |
| Engine.TransactionEngine.UndoAll | installer/src/engine.rs:378-431 | ends with every checkpoint rolled back; when nothing fails and adapters keep to their own paths it ends so exactly if the checkpoint it found half undone may be undone again |
| Engine.TransactionEngine.RollbackSteps | installer/src/engine.rs:364-433 | nothing is undone unless everything owned is intact; then checkpoints are undone in reverse order to the recorded target under the recorded policy, with the cause recorded; every stop in between leaves a journal that accounts for its calls; with nothing failing that undoing needs it succeeds exactly under the condition of `UndoAll` |
| Engine.TransactionEngine.Rollback | installer/src/engine.rs:344-362 | ends in the target's status with policy and cause kept; an ordinary failure with working writes leaves `rollback_failed` with target, policy and the kind of the failure recorded |
| Engine.TransactionEngine.ApplyOrRollBack | installer/src/engine.rs:275-285 | active on success; after an ordinary failure with working writes the transaction is rolled back, or its rollback recorded as failed; it is rolled back, with the kind of the failure recorded, when nothing that undoing needs fails; a fatal failure leaves it for `resume` |
| Engine.TransactionEngine.Install | installer/src/engine.rs:162-168 | a new transaction ends active, or after an ordinary failure with working writes given up as `ApplyOrRollBack` says |
| Engine.TransactionEngine.ReadMatchingPlan | installer/src/engine.rs:77-83 | the plan that is read is the persisted one, and it is accepted when the digests agree |
| Engine.TransactionEngine.ValidateAdapters | installer/src/engine.rs:545-550 | succeeds exactly when every action's adapter is registered |
| Engine.TransactionEngine.Resume | installer/src/engine.rs:172-198 | every success ends active or in the recorded target, from every journal a crash can leave, with the derived files equal to what the state determines; every ordinary failure with working writes leaves an apply given up, a rollback recorded as failed with its target and policy, and a finished transaction as it was; when nothing fails and adapters keep to their own paths it succeeds, on a rollback exactly if the checkpoint found half undone may be undone again, and on an active journal exactly when all owned files are intact; without an adapter nothing is changed |
| Engine.TransactionEngine.Repair | installer/src/engine.rs:202-232 | success leaves an active journal in step with its files, and is reached from every active journal, also one a repair was cut short on, when nothing fails; the status never changes; a journal that is not active is not touched, and refused exactly if it is interrupted |
| Engine.TransactionEngine.Uninstall | installer/src/engine.rs:235-258 | every success on an unfinished transaction uninstalls it with this purge decision recorded, and on a finished one changes nothing; the derived files are in step; an ordinary failure with working writes leaves the journal as it was or the uninstallation recorded as failed; an interrupted one goes on exactly with the same decision; any other interrupted transaction is refused |
| Engine.TransactionEngine.Apply | installer/src/engine.rs:144-168 | refuses an unaccepted digest and an interrupted journal without any call; on an active installation it changes nothing and succeeds exactly for the same intent with all adapters there and all owned files intact; otherwise it installs, and after an ordinary failure with working writes the new transaction is given up, or rolled back when nothing that undoing needs fails |
| Engine.NothingLeftBehind | installer/src/engine.rs:275-331 | of every run: a transaction that is over undid every mutation it entered; `apply` and `rollback` are entered at most once per action, undoing goes back through the plan, nothing is mutated after an undo, and every undo call has the same policy |
| Engine.JournalShape | installer/src/engine.rs:213-228 | of every run: the journal's checkpoints are the plan's first actions in order, verified up to a frontier and rolled back beyond it; so the guards against anything else never fire |
| Engine.PreservedDataKept | installer/src/engine.rs:235-258 | of every run: after an uninstall without purge every preserved path is what the journal recorded |
| Engine.RepairCutShort | installer/src/engine.rs:202-232 | one concrete transaction whose `repair` is cut short after the call: the journal is sound, only the action's own file changed, and ownership no longer holds |
| Engine.Run | installer/src/engine.rs:144-258 | any sequence of operations, each stopping anywhere, keeps the invariant |
| Handoff.BasesApart | installer/src/handoff.rs:41-58 | no path lies in both handed-off trees |
| Handoff.EntryIsCovered | installer/src/handoff.rs:279-292 | the scope is component-wise: a path of the project is covered exactly when its first component is a synced name |
| Handoff.CheckDeclaration | installer/src/handoff.rs:161-177 | succeeds exactly when every owned digest is the declared one |
| Handoff.RebaseCheckpoint | installer/src/handoff.rs:229-275 | what is covered is dropped and exactly the staged files under the base are taken over, in the ownership and in the declaration |
| Handoff.RebasedAgrees | installer/src/handoff.rs:161-177 | a rebased checkpoint still agrees with its declaration |
| Handoff.RebasePanelOwnership | installer/src/handoff.rs:223-277 | the Core checkpoint, and the agent's if it is handed off, are rebased; every other checkpoint and field is as it was |
| Handoff.ReadActive | installer/src/handoff.rs:179-193 | what is read is an active installer transaction whose plan and ownership file agree with it; with nothing failing it is read exactly if it is one |
| Handoff.SoleCheckpoint | installer/src/handoff.rs:400-417 | finds what there is of an adapter: nothing, or exactly one checkpoint, verified and of the right action; refused exactly otherwise |
| Handoff.HandoffSound | installer/src/handoff.rs:223-277 | the covered entries of the new journal are exactly the staged files, each owned once, if and only if nobody but the targets owned a covered path; then everything outside is unchanged |
| Handoff.WriteJournal | installer/src/handoff.rs:203-207 | `state.json` is the old or the new one at any stop; on success all three files describe the state |
| Handoff.WriteRebased | installer/src/handoff.rs:197-217 | an ordinary failure other than a failed recovery leaves all three files describing the previous state |
| Handoff.NativeIsOnly | installer/src/handoff.rs:391-470 | when every file found in the trees is one the targets declare, apart from bytecode that nobody owns, nobody else owns a part of them |
| Handoff.NativeMeaning | installer/src/handoff.rs:430-448 | the scan passes exactly when, but for bytecode, the project's part holds only files of the Core and the agent's only files of the agent |
| Handoff.Prepare | installer/src/handoff.rs:391-470 | with nothing failing it succeeds exactly on an active installer transaction in step with its ownership file, with one verified Core checkpoint and, if the update brings an agent, at most one of the agent, verified, their declarations in agreement, every owned file intact, and nothing foreign in the trees; unless an owned path is bytecode, nobody but the targets then owns a part of the trees |
| Handoff.Commit | installer/src/handoff.rs:473-516 | success hands over exactly the staged files, keeps the declarations in agreement and the rest unchanged, and every owned file is as the new journal says; it succeeds when the trees hold exactly the staged files, nobody else owns a part of them and no write fails; `state.json` is the old one or the rebased one at any stop, and a refused check changes nothing |
| Update.HandOff | installer/src/handoff.rs:391-516 | `prepare`, the swap of the trees and `commit` keep the engine's invariant however they end; success hands over exactly the staged files with the rest unchanged and every owned file intact, unless an owned path is bytecode |
| Update.HandOffThenResume | installer/src/handoff.rs:195-217 | once the rebased state is on disk, whatever happened to the derived files, `resume` succeeds when nothing fails any more and rebuilds them |
| Update.Run | installer/src/handoff.rs:391-516 | any sequence of engine operations and panel updates, each stopping anywhere, keeps the engine's invariant |
| IpNet.ParseV4 | awg_manager/src/ipnet.rs:8-28 | reads exactly the texts that `format_v4` prints, as the address printed |
| IpNet.FormatInjective | awg_manager/src/ipnet.rs:30-33 | different addresses print differently |
| IpNet.ContainsMeaning | awg_manager/src/ipnet.rs:74-89 | a network contains exactly the addresses from its own to its broadcast address |
| IpNet.OverlapMeaning | awg_manager/src/ipnet.rs:95-100 | the four end points compared find an overlap exactly when some address is in both |
| Uapi.LinesOfBody | awg_manager/src/service.rs:450 | a script sent as text is read line by line as it was written |
| Uapi.RemoveEffect | awg_manager/src/tests.rs:241-246 | a removal takes its peer off the device and touches no other |
| Uapi.SetEffect | awg_manager/src/service.rs:54-61 | the lines of a peer leave exactly its key, preshared key and single address, whatever was there, and touch no other |
| Uapi.ReplyIsRead | awg_manager/src/service.rs:73-107 | a device's reply is parsed back into its peers, in whatever order it prints them |
| Uapi.RemovalScript | awg_manager/src/service.rs:435-440 | the script's effect is to remove exactly the unwanted peers |
| Uapi.SettingScript | awg_manager/src/service.rs:441-447 | the script's effect on what is left is exactly the wanted peers; it is empty exactly when they are as wanted |
| Uapi.ReconcileScript | awg_manager/src/service.rs:424-459 | for any device and any wanted peers, interpreting the script gives exactly the wanted ones; it is empty exactly when nothing has to change |
| Uapi.SettingsKeepPeers | awg_manager/src/service.rs:375-387 | a script of device settings leaves the peers alone |
| Pool.CheckSubnets | awg_manager/src/config.rs:143-159 | accepts exactly private /24 to /28 networks no two of which share an address |
| Pool.InPrivateMeaning | awg_manager/src/config.rs:143-159 | a network passes as private exactly when all its addresses are in one of the three blocks of RFC 1918 |
| Pool.DistinctAcrossVersions | awg_manager/src/config.rs:155-159 | subnets apart keep the addresses of different versions apart |
| Pool.FullPool | awg_manager/src/service.rs:683-698 | a version has at most 2^(32-prefix)-3 peers, and exactly that many when every address of its pool is used |
| Pool.FreeAddress | awg_manager/src/service.rs:683-698 | the lowest address nobody of the version has, never the network, gateway or broadcast address; exhausted exactly when the pool is full |
| State.InsertedIsKept | awg_manager/src/state.rs:71-76 | an operation just inserted is never the one pruned, and ids stay unique |
| State.StateStore.Save | awg_manager/src/state.rs:71-82 | the newest operations are kept, as many as fit; a failed write leaves the old file or the new |
| State.StateStore.Load | awg_manager/src/state.rs:48-69 | a reload finds every peer and every operation again, though the operations come in another order |
| Manager.MirrorsRotated | awg_manager/src/service.rs:793-829 | exchanging a peer's keys on a device in line with the old table brings it in line with the new one |
| Manager.Desired | awg_manager/src/service.rs:412-422 | the map of exactly the enabled peers of the version |
| Manager.BackoffMeaning | awg_manager/src/service.rs:29-31 | the delay is min(30, 2^(failures-1)) and never shrinks; clamping the exponent does not show |
| Manager.ReplayedMeaning | awg_manager/src/service.rs:674-681 | a conflict exactly when an operation on record has this id and another request; a repetition, with its user, exactly when one has this id and request and its user still exists; new otherwise |
| Manager.AwgManager.ReconcilePeers | awg_manager/src/service.rs:424-459 | ends with the device in line with the document or not believed to be; touches no other device |
| Manager.AwgManager.SyncDevice | awg_manager/src/service.rs:424-459 | reads, compares and tells the device; success leaves exactly the enabled stored peers of its version on it, and is reached when nothing fails |
| Manager.AwgManager.BringUp | awg_manager/src/service.rs:385-405 | success means the settings, the address and the link were all set; it is reached when nothing fails |
| Manager.AwgManager.Configure | awg_manager/src/service.rs:385-409 | the same from an unconfigured device; succeeds when nothing fails |
| Manager.AwgManager.Supervise | awg_manager/src/service.rs:334-373 | keeps the invariant; a device that can be brought in line is when nothing fails, and has been compared within the full interval; a dead process waits its backoff, counted from one again after a stable run; before its time nothing is started; a failed start counts |
| Manager.AwgManager.Tick | awg_manager/src/service.rs:317-324 | one pass with nothing failing brings every ready device in line with the stored peers |
| Manager.AwgManager.LiveChange | awg_manager/src/service.rs:496-505 | a change told to a device, or not, never leaves one believed in line that is not |
| Manager.AwgManager.Commit | awg_manager/src/service.rs:662-671 | the new document in memory and on disk, or the old one in memory |
| Manager.AwgManager.CreatePeer | awg_manager/src/service.rs:708-749 | the new peer gets the lowest free address; a conflict, a repetition and an exhausted pool are answered exactly in their cases, and with working writes the peer is created exactly when nothing stands against it; a repeated request changes nothing; an error changes nothing; a listening device is told at once, and no other changes |
| Manager.AwgManager.SetEnabled | awg_manager/src/service.rs:768-791 | exactly one flag and the revision change; each error exactly in its case; a listening device is told at once, and no other changes |
| Manager.AwgManager.Rotate | awg_manager/src/service.rs:793-829 | only the keys, operation and revision of one peer change; a conflict exactly when the id was used for another request; refused exactly when the request is invalid or conflicts or another peer of the version has the key; a listening device has the old key replaced at once |
| Manager.AwgManager.DeletePeer | awg_manager/src/service.rs:831-844 | exactly one peer goes, and at once from a listening device if it was enabled |
| Manager.AwgManager.Restart | awg_manager/src/service.rs:234-256 | everything starts from the file, with no device believed in line |
| Manager.Run | awg_manager/src/service.rs:334-505 | over any sequence of requests, passes, failures, deaths and restarts: whenever a running process is configured its settings, address and link are set, and if it is not dirty either its device has exactly the enabled stored peers of its version; and the stored peers keep distinct keys and addresses inside their subnets |
| Routes.FailClosedMeaning | awg_manager/src/egress.rs:13-17 | a rule implies the blackhole exactly when no steered subnet is sent from the server's own address once its tunnel is gone |
| Routes.StaysClosed | awg_manager/src/egress.rs:611-644 | over any stretch of a run in which nothing is cleared away, a closed table is closed after every command, done or not |
| Routes.FlushOpens | awg_manager/src/egress.rs:656-660 | a flush opens the table exactly when a rule is left, and then that subnet leaks |
| Routes.Kernel.Rule | awg_manager/src/egress.rs:626-632 | with the blackhole there, the rules become exactly the wanted subnets, closed after every command; a failure that changes nothing leaves them so only if they were |
| Routes.Kernel.Steer | awg_manager/src/egress.rs:615-634 | the blackhole comes first, and once it is there every state after every command is closed, from whatever state and whichever command fails; the rules are exactly the configured subnets after a success and, where a failed command changes nothing, otherwise only if they were before |
| Routes.Kernel.Clear | awg_manager/src/egress.rs:647-660 | closed after every command but perhaps the flush, and after that too if the rules were removed |
| Egress.UndoRestores | awg_manager/src/egress.rs:374-377 | after any applies, up to nine rollbacks put back the document in force that many applies earlier, although the history is cut to ten |
| Egress.UndoEnds | awg_manager/src/egress.rs:381-390 | the tenth always ends in direct egress |
| Egress.ApplyAndUndo | awg_manager/src/egress.rs:352-390 | any applies and then up to nine rollbacks, all successful, put back the document in force that many applies earlier, and every one of them counted as a revision |
| Egress.TenUndosLoseTheFirst | awg_manager/src/egress.rs:374-390 | eleven applies and ten rollbacks do not put back the first document |
| Egress.ReuseRevision | awg_manager/src/egress.rs:405-407 | an apply whose write is lost, a restart and another apply end with the first one's revision and another history |
| Egress.UnroutedWarp | awg_manager/src/egress.rs:447-466 | an apply of WARP that succeeds with every routing command failing: every client subnet is still sent from the server's own address |
| Egress.EgressManager.Network | awg_manager/src/egress.rs:611-644 | believed in order only with exactly the subnets' rules, the blackhole and the route into the device |
| Egress.EgressManager.Teardown | awg_manager/src/egress.rs:647-663 | clears the table when nothing fails |
| Egress.EgressManager.Supervise | awg_manager/src/egress.rs:508-573 | a process that died or could not be started waits its backoff; before its time nothing is started; a device that becomes configured is so for the document in force |
| Egress.EgressManager.Converge | awg_manager/src/egress.rs:476-507 | it steers exactly when the document asks for a tunnel and, for WARP, there is an account, and then the clients are routed when no command fails; otherwise a pass that is due or finds a process clears everything away, stale rules included, and any other does nothing |
| Egress.EgressManager.AwaitReady | awg_manager/src/egress.rs:447-466 | only steers; ready means running and configured for WARP and routed for the router; a WARP tunnel becomes ready when the process can be started and nothing but routing fails, the router when nothing fails |
| Egress.EgressManager.Switch | awg_manager/src/egress.rs:394-428 | success puts the history in force under the next revision, and for WARP with the device configured anew; a tunnel that does not come up puts the previous history back under a later revision; a death in between leaves one of the two; between tunnel documents nothing is ever cleared away; after a success for the router the clients are routed, and for WARP, where a failed command changes nothing, exactly if the last steering pass went through or the rules and the blackhole were there before it; it succeeds when nothing fails |
| Egress.EgressManager.Apply | awg_manager/src/egress.rs:352-379 | a conflict exactly when the last operation is repeated with another document, or the revision is stale; a repetition exactly when it is repeated with the same, and then nothing changes; success pushes exactly one entry; a failure keeps the history when writes succeed; an admissible apply succeeds when nothing fails |
| Egress.EgressManager.Rollback | awg_manager/src/egress.rs:381-390 | pops exactly one entry; a conflict exactly on a stale revision, refused exactly with an empty history; succeeds when nothing fails |
| Egress.ClosedWhileSteered | awg_manager/src/egress.rs:476-507 | of every run: while the document asks for a tunnel, provider switches included, a table that was closed at any moment since, that of the change of document included, is closed after every command from then on |
| Egress.Run | awg_manager/src/egress.rs:352-507 | any sequence of operations, a death inside a switch included, keeps the invariant: an account for every WARP document, truthful bookkeeping, revisions that name one history unless a restart lost one |
| Egress.RunReliably | awg_manager/src/egress.rs:405-423 | when writes succeed, revisions never go back and none is seen with two histories, failed switches included |
| Diff.LongestIsUnique | awg_manager/src/difflib.rs:9-35 | the specification of the longest match has one answer |
| Diff.BuildIndex | awg_manager/src/difflib.rs:38-41 | every element with all its positions in order |
| Diff.ScanRow | awg_manager/src/difflib.rs:18-33 | the table holds the bounded common-suffix lengths of its row, and the best block beats every suffix seen |
| Diff.LongestMatch | awg_manager/src/difflib.rs:9-35 | a common block inside the ranges, none longer, of equals the earliest in the first then in the second input |
| Diff.BlocksAreChained | awg_manager/src/difflib.rs:42-55 | the blocks of the recursive division are in order, equal in both inputs, and no corresponding gaps share an element |
| Diff.CollectBlocks | awg_manager/src/difflib.rs:42-55 | the worklist ends, with exactly the blocks of the recursive division |
| Diff.Sort | awg_manager/src/difflib.rs:56 | sorted, with the same blocks |
| Diff.SortedIsUnique | awg_manager/src/difflib.rs:56 | blocks have one sorted order |
| Diff.Merge | awg_manager/src/difflib.rs:57-63 | adjacent blocks are joined and nothing else: the same elements are matched, still in order, equal and with nothing shared in the gaps |
| Diff.MatchingBlocks | awg_manager/src/difflib.rs:37-66 | the blocks match exactly the elements that the longest-match division matches; strictly increasing, disjoint, equal, no two adjacent, no corresponding gaps sharing a line, then the end block |
| Diff.ChangedLines | awg_manager/src/difflib.rs:70-79 | one edit script shows the first input, the second, and the output as its changes; it keeps exactly the lines that the longest-match division matches, in every run of changes deletions come first, and no line is both deleted and added; the output is empty exactly when the inputs are equal |
| Diff.ScriptIsUnique | awg_manager/src/difflib.rs:70-79 | only one script between two texts keeps given lines and deletes first, so the output is determined |
| Padding.EncodePayload | docker/naive-live-meter/live_meter.go:149-158 | the payload of the padded stream is what was read |
| Padding.PartialPayload | docker/naive-live-meter/live_meter.go:184-190 | the clamped count is the payload in any partial write of a frame |
| Padding.DecodeFrame | docker/naive-live-meter/live_meter.go:159-174 | one frame in front is taken off whole, and the rest follows |
| Padding.RoundTrip | docker/naive-live-meter/live_meter.go:149-174 | padding put on and taken off gives the bytes back exactly when non-empty reads used up the count or nothing was read beyond it |
| Padding.NonEmptyReadsSurvive | docker/naive-live-meter/live_meter.go:149-174 | any split into non-empty reads, with any padding, survives |
| Padding.EmptyReadLoses | docker/naive-live-meter/live_meter.go:149-158 | an empty first read that loses bytes |
| Meter.ReadFramed | docker/naive-live-meter/live_meter.go:149-158 | the buffer holds the frame of the bytes read, all indices in bounds |
| Meter.ReadUnframed | docker/naive-live-meter/live_meter.go:159-174 | the buffer holds the next frame's payload, cut or whole, and the stream's end is told apart from an error |
| Meter.Deliver | docker/naive-live-meter/live_meter.go:179-203 | the counter grows by exactly the payload the destination accepted |
| Meter.LiveIoCopy | docker/naive-live-meter/live_meter.go:140-211 | however it ends, the counter grew by exactly the payload accepted, which is a prefix of what the stream carries; ended well, it is all of it, and with padding added the destination has the padded stream; when nothing fails it ends well exactly on streams that end where they may |
| Meter.Tunnel | docker/naive-live-meter/live_meter.go:140-211 | both ends together: the bytes arrive exactly under the condition of the round trip, and both counters count them |
| Ingress.SocketIsRead | installer/src/ingress_upgrade.rs:242-250 | a backend's socket is read back as the backend, and is the panel's socket exactly for the panel |
| Ingress.SocketsAreDistinct | installer/src/ingress_upgrade.rs:242-250 | two backends share a socket only if they are the same |
| Ingress.RenderFresh | installer/src/ingress_upgrade.rs:253-291 | the text of the rendered lines, whose meaning and spelling the lemmas below give; refused exactly when the relay form meets a backend it cannot map |
| Ingress.RelayMeaning | installer/src/ingress_upgrade.rs:253-291 | in the relay form a panel route leads to the panel's socket, any other to a socket with exactly one listener, which passes to its own backend |
| Ingress.ListedNames | installer/src/ingress_upgrade.rs:242-291 | in either form a name that a route lists is served by the backend of its first route: the front server on port 443 reads the name and passes to the map's target, with the PROXY header exactly in the relay form, whose listeners require it |
| Ingress.UnlistedNames | installer/src/ingress_upgrade.rs:266-270 | any other name goes, by the same front server, to the panel in the relay form and to port 8443 in the legacy form |
| Ingress.RoutingPreserved | installer/src/ingress_upgrade.rs:253-329 | the rewrite keeps a name where it went exactly if a route lists it or the panel is at port 8443 |
| Ingress.TwoRoutesText | installer/src/ingress_upgrade.rs:253-291 | the exact text of both forms for any two routes to different backends other than the panel |
| Ingress.RewriteUpgrades | installer/src/ingress_upgrade.rs:293-329 | the legacy and the current rendering of routes become the same current text; rewriting twice is rewriting once |
| Ingress.OnlyRenderings | installer/src/ingress_upgrade.rs:293-329 | exactly the renderings of two or more valid routes, none called `default`, are rewritten |
| Ingress.DefaultIsRefused | installer/src/ingress_upgrade.rs:297-298 | a rendering with a route called `default` is refused |
| Ingress.StreamTemplate | installer/src/ingress_upgrade.rs:293-329 | the loop computes the rewrite those lemmas speak of |
| Cps.IsCps | awg_manager/src/obfuscation.rs:163-193 | the loop accepts exactly one or more recognised tags |
| Cps.CpsGrammar | awg_manager/src/obfuscation.rs:162-193 | recognised texts are exactly the printed sequences of valid tags |
| Obfuscation.RangePrints | awg_manager/src/obfuscation.rs:146-160 | a printed range within 32 bits is read back |
| Obfuscation.SinglePrints | awg_manager/src/obfuscation.rs:146-160 | a printed number is read back as a range of one |
| Obfuscation.NumberMeaning | awg_manager/src/obfuscation.rs:133-147 | a text is read as a number exactly when it is that number in at most ten digits, leading zeros included |
| Obfuscation.RangeMeaning | awg_manager/src/obfuscation.rs:149-160 | a text is read as a range exactly when it is one number or two with a dash between them, in order and within 32 bits |
| Obfuscation.ValidateMeaning | awg_manager/src/obfuscation.rs:294-376 | `validate` accepts exactly what is legal once empty packets are dropped, and returns that: the needed and optional keys of the version, junk settings in bounds and order, sizes in bounds and not giving each other away, heads from the floor on with no number in two of them and single in 1.5, packets that print tags, and the extras of 3.1 |
| Obfuscation.CleanMeaning | awg_manager/src/obfuscation.rs:299-303 | of the parameters exactly the empty packets among I1 to I5 are dropped |
| Obfuscation.Rng.RandInt | awg_manager/src/obfuscation.rs:117-120 | both ends are included and nothing outside them |
| Obfuscation.Shuffle | awg_manager/src/obfuscation.rs:122-128 | every element ends up somewhere, once |
| Obfuscation.DefaultI1 | awg_manager/src/obfuscation.rs:199-204 | always a custom packet string, of the five tags of a QUIC Initial with lengths from the source's lists |
| Obfuscation.DrawSizes | awg_manager/src/obfuscation.rs:217-229 | sizes in the range drawn for the version, the second not giving the first away |
| Obfuscation.DrawSingles | awg_manager/src/obfuscation.rs:237-248 | four different numbers that parse as single headers |
| Obfuscation.DrawRanges | awg_manager/src/obfuscation.rs:249-262 | four ranges within 32 bits, no two meeting, after mixing |
| Obfuscation.Generate | awg_manager/src/obfuscation.rs:207-277 | whatever is drawn, the result is legal and passes `validate` unchanged, has exactly the keys the version generates and junk settings in the ranges drawn; there is a result unless a rejection loop ran out of draws |
| Obfuscation.ValidateIsIdempotent | awg_manager/src/obfuscation.rs:294-376 | what passed passes again, unchanged |
| Obfuscation.OverridesAreChecked | awg_manager/src/obfuscation.rs:442-448 | overrides are accepted exactly when the merged parameters are legal once empty packets are dropped; what the operator set wins, and the rest is as it was |

## Left out

- The real file system: permissions, symlinks, fsync, locks and the resolution of owned paths. Files are a map from path to identity, operations are serialised, and journal keys are normalised paths.
- JSON bytes: values are trees with integer numbers; key order, duplicate keys and number formats are not modelled.
- Cryptography and encodings: keys are kept in their hexadecimal form, since the strict base64 form names it; request and plan digests are taken to name what they digest; transaction ids are taken to be fresh.
- Concrete adapters, nginx, docker, systemctl, nft and process control: nondeterministic calls.
- HTTP, TLS and WARP registration, the command line, the wizard, release tooling, `migration.rs` and `awg_ports.rs`.
- Traffic counters and handshake times of devices, which the parser passes over here; views and health reports.
- A state file written by hand: stored peers with unreadable keys, and a WARP document without an account, are excluded by the condition that the file was valid when the run began. `Egress.EgressManager.Converge` says what happens in the second case.
- The legacy mode of the handoff, and the scan of the staged tree, whose result is a parameter.
- The panel's virtual hosts, backups and reload of the ingress upgrade; only the stream router is modelled.
- Reading documents of the egress and overrides of the obfuscation from JSON, and the device lines made from the parameters.
- Stopping the manager clears the egress table; `Egress.Run` does not include it.
- Engine.TransactionEngine.Apply: on an active installation of the same intent it promises the active state but not that the derived files were written again, because the code does not write them.
- Meter.LiveIoCopy: the counter is an unbounded number, not one of 64 bits; a reader that answers empty reads for ever is left out by a bound of its own on them.
- Obfuscation.Generate: a rejection loop that has not stopped gives no result, after a number of draws that the random source sets itself.
- Egress.EgressManager.Converge: making and keeping the router's own device is left out; only the routes into it are modelled.
- Manager.AwgManager.Restart: generating missing keys and refusing stored addresses outside their subnet at the start are left out; the file is taken to be one the manager wrote.
- Uapi.ReplyIsRead: the counters and handshake times of a reply are skipped, not returned.
- Files.CaptureOwnership: of several bad paths it does not say which is reported first.
- Handoff.RebasePanelOwnership: on values, not on the mutable maps the code builds; nothing else sees those maps.
