/** Where the clients' traffic leaves the node (awg_manager/src/egress.rs): a document with optimistic revisions and a
    bounded history, and the routes kept in step with it. */
module Egress {
  import opened Common
  import opened Routes
  import Manager

  const MAX_HISTORY := 10
  const NETWORK_RECHECK := 30.0
  const IFACE := "awgwarp"

  datatype Provider = Warp | Router

  datatype Document = Direct | Via(provider: Provider)

  datatype Entry = Entry(document: Document, operationId: string)

  /** The `egress` section of the state. */
  datatype Section = Section(revision: int, history: seq<Entry>, account: Option<string>)

  /** `Died` is no answer: the manager is gone before it gives one. */
  datatype Error = Invalid | Conflict | NoPrevious | Unreachable | Internal | Died

  // ----- history --------------------------------------------------------------------------------

  /** The document in force. */
  function Current(history: seq<Entry>): Document {
    if history == [] then Direct else history[|history| - 1].document
  }

  function Newest(history: seq<Entry>): seq<Entry> {
    if |history| > MAX_HISTORY then history[|history| - MAX_HISTORY..] else history
  }

  /** What an apply makes of the history. */
  function Push(history: seq<Entry>, e: Entry): seq<Entry> {
    Newest(history + [e])
  }

  function PushAll(history: seq<Entry>, entries: seq<Entry>): seq<Entry> {
    if entries == [] then history
    else Push(PushAll(history, entries[..|entries| - 1]), entries[|entries| - 1])
  }

  /** What a rollback makes of it. */
  function Pop(history: seq<Entry>): seq<Entry>
    requires history != []
  {
    history[..|history| - 1]
  }

  function PopMany(history: seq<Entry>, k: nat): (r: seq<Entry>)
    requires k <= |history|
    ensures |r| == |history| - k
  {
    if k == 0 then history else PopMany(Pop(history), k - 1)
  }

  lemma {:induction false} PopManyIs(history: seq<Entry>, k: nat)
    requires k <= |history|
    ensures PopMany(history, k) == history[..|history| - k]
    decreases k
  {
    if k > 0 {
      PopManyIs(Pop(history), k - 1);
    } else {
      assert history[..|history|] == history;
    }
  }

  lemma {:induction false} PushAllIs(history: seq<Entry>, entries: seq<Entry>)
    requires entries != []
    ensures PushAll(history, entries) == Newest(history + entries)
  {
    hide Newest;
    var n := |entries| - 1;
    if n == 0 {
      assert entries[..0] == [] && entries == [entries[0]];
    } else {
      PushAllIs(history, entries[..n]);
      assert history + entries[..n] + [entries[n]] == history + entries;
      NewestTwice(history + entries[..n], entries[n]);
    }
  }

  lemma NewestTwice(history: seq<Entry>, e: Entry)
    ensures Newest(Newest(history) + [e]) == Newest(history + [e])
  {
  }

  /** Undo: after any applies, on whatever history they began, up to nine rollbacks (and no more than were applied) put
      back the document that was in force after that many fewer applies, although the history is cut to ten entries. */
  lemma UndoRestores(history: seq<Entry>, entries: seq<Entry>, k: nat)
    requires k <= |entries| && k < MAX_HISTORY
    ensures k <= |PushAll(history, entries)|
    ensures Current(PopMany(PushAll(history, entries), k)) == Current(PushAll(history, entries[..|entries| - k]))
  {
    hide PushAll, PopMany, Newest, Current;
    var before := entries[..|entries| - k];
    NothingPushed(history);
    if entries == [] {
      assert before == [];
      PopManyIs(history, 0);
      assert history[..|history| - 0] == history;
    } else {
      PushAllIs(history, entries);
      CutCurrent(history, entries, k);
      PopManyIs(Newest(history + entries), k);
      if before != [] {
        PushAllIs(history, before);
      }
    }
  }

  lemma NothingPushed(history: seq<Entry>)
    ensures PushAll(history, []) == history
  {
  }

  /** Cutting the history does not change the document nine steps back. */
  lemma CutCurrent(history: seq<Entry>, entries: seq<Entry>, k: nat)
    requires 0 < |entries| && k <= |entries| && k < MAX_HISTORY
    ensures k <= |Newest(history + entries)|
    ensures var kept := Newest(history + entries);
            var before := entries[..|entries| - k];
            Current(kept[..|kept| - k]) == Current(if before == [] then history else Newest(history + before))
  {
    var all, before := history + entries, entries[..|entries| - k];
    var kept, n := Newest(all), |history| + |entries| - k;
    assert |kept| > k || n == 0;
    if n > 0 {
      assert kept[..|kept| - k][|kept| - k - 1] == kept[|kept| - k - 1] == all[n - 1];
      NewestCurrent(history + before);
      assert (history + before)[n - 1] == all[n - 1];
      assert before == [] ==> history + before == history;
    }
  }

  lemma NewestCurrent(history: seq<Entry>)
    ensures Current(Newest(history)) == Current(history)
  {
  }

  /** The tenth rollback is one too many: it always ends in direct egress, whatever was applied before. */
  lemma UndoEnds(history: seq<Entry>, entries: seq<Entry>)
    requires entries != [] && |history| + |entries| >= MAX_HISTORY
    ensures |PushAll(history, entries)| == MAX_HISTORY
    ensures Current(PopMany(PushAll(history, entries), MAX_HISTORY)) == Direct
  {
    PushAllIs(history, entries);
    PopManyIs(PushAll(history, entries), MAX_HISTORY);
  }

  /** Eleven applies of WARP and ten rollbacks, for one: the first apply is not what is put back. */
  lemma TenUndosLoseTheFirst(entries: seq<Entry>)
    requires |entries| == 11 && forall e <- entries :: e.document == Via(Warp)
    ensures |PushAll([], entries)| == MAX_HISTORY
    ensures Current(PopMany(PushAll([], entries), 10)) == Direct && Current(PushAll([], entries[..1])) == Via(Warp)
  {
    UndoEnds([], entries);
    PushAllIs([], entries[..1]);
  }

  /** An account is there for every document that needs one. */
  ghost predicate Accounted(s: Section) {
    (exists e <- s.history :: e.document == Via(Warp)) ==> s.account.Some?
  }

  /** The document can be put into effect. */
  ghost predicate Supported(s: Section) {
    Current(s.history) == Via(Warp) ==> s.account.Some?
  }

  ghost predicate Extends(before: map<int, seq<Entry>>, after: map<int, seq<Entry>>) {
    forall r <- before :: r in after && after[r] == before[r]
  }

  class EgressManager {
    const kernel: Kernel
    /** The configured subnets, and the device the router reads if there is one. */
    const subnets: set<string>
    const routerTun: Option<string>

    var section: Section
    /** What the state file holds. */
    var disk: Section
    /** Whether a write may fail now, whether every one fails without effect, and whether the account service or a
        process may fail, the tunnel stay silent or the manager itself die. */
    var writeFaults: bool
    var writeDown: bool
    var otherFaults: bool

    var proc: bool
    var configured: bool
    var failures: nat
    var nextStart: real
    var startedAt: real
    /** The revision in force when the tunnel's device was last configured. */
    ghost var setAt: int
    var lastNetwork: real
    var networkOk: bool
    /** Whether all commands of the last steering pass succeeded, and the rules it found. */
    ghost var passed: bool
    ghost var found: set<string>

    /** Every revision there was, with its history; until a restart forgets a failed write. */
    ghost var named: map<int, seq<Entry>>
    ghost var forgot: bool
    /** Where in the kernel's trace the present stretch of steered egress began. */
    ghost var since: nat

    constructor (subnets: set<string>, routerTun: Option<string>, disk: Section, table: Table, writeFaults: bool)
      requires Accounted(disk)
      ensures Inv() && fresh(kernel) && section == this.disk == disk && !forgot && this.writeFaults == writeFaults
      ensures this.subnets == subnets && this.routerTun == routerTun && kernel.table == table && nextStart == 0.0
    {
      kernel := new Kernel(table);
      this.subnets, this.routerTun, this.section, this.disk := subnets, routerTun, disk, disk;
      this.writeFaults, writeDown, otherFaults := writeFaults, false, true;
      proc, configured, failures, networkOk := false, false, 0, false;
      nextStart, startedAt, lastNetwork := 0.0, 0.0, -NETWORK_RECHECK;
      setAt := disk.revision;
      passed, found := false, {};
      named, forgot, since := map[disk.revision := disk.history], false, 0;
    }

    /** Exactly the subnets are steered, and closed. */
    ghost predicate Routed()
      reads this, kernel
    {
      kernel.table.rules == subnets && kernel.table.blackhole
    }

    /** What the data plane keeps. */
    ghost predicate Plane()
      reads this, kernel
    {
      kernel.Valid() && (networkOk ==> passed) && (passed ==> Routed())
    }

    /** What the last steering pass left, exactly: it is routed if all its commands succeeded, or if it found the rules in
        place and the blackhole is. */
    ghost predicate Judged()
      reads this, kernel
    {
      Routed() <==> passed || (found == subnets && kernel.table.blackhole)
    }

    /** Since the document asked for a tunnel, nothing was cleared away. */
    ghost predicate Steered()
      reads this, kernel
    {
      since <= |kernel.trace| && forall k :: since <= k < |kernel.trace| ==> !kernel.trace[k].why.Clearing?
    }

    ghost predicate Named()
      reads this
    {
      section.revision in named && named[section.revision] == section.history && forall r <- named :: r <= section.revision
    }

    ghost predicate Inv()
      reads this, kernel
    {
      && Plane() && Accounted(section) && Accounted(disk) && disk.revision <= section.revision
      && (Current(section.history).Via? ==> Steered())
      && (!forgot ==> Named())
    }

    // ----- data plane ---------------------------------------------------------------------------

    method StopProcess()
      modifies `proc, `configured
      ensures !proc && !configured
    {
      proc, configured := false, false;
    }

    /** `egress_network`. */
    method Network(now: real, device: Option<string>)
      requires Plane()
      modifies `lastNetwork, `networkOk, `passed, `found, kernel`table, kernel`trace
      ensures Plane() && Continues(old(kernel.trace), kernel.trace, Steering)
      ensures var dev := if device.Some? then device.value else IFACE;
              && (networkOk <==> passed && (dev != IFACE || configured))
              && (networkOk ==> kernel.table.route == Some(dev))
      ensures !kernel.partial ==> Judged()
      ensures !kernel.faults ==> passed
      ensures kernel.Dead() ==> kernel.table == old(kernel.table) && !passed
    {
      var dev := if device.Some? then device.value else IFACE;
      var routed := dev != IFACE || configured;
      lastNetwork, found := now, kernel.table.rules;
      var ok := kernel.Steer(subnets, if routed then Some(dev) else None);
      networkOk, passed := ok && routed, ok;
      if !ok {
        lastNetwork := -NETWORK_RECHECK;
      }
    }

    /** `egress_teardown`. */
    method Teardown()
      requires Plane()
      modifies `proc, `configured, `networkOk, `passed, kernel`table, kernel`trace
      ensures Plane() && Continues(old(kernel.trace), kernel.trace, Clearing) && |kernel.trace| > |old(kernel.trace)|
      ensures !proc && !configured && !networkOk
      ensures !kernel.faults ==> kernel.table == Table({}, false, None, {})
    {
      var _ := kernel.Clear();
      networkOk, passed := false, false;
      StopProcess();
    }

    /** The tunnel's device, if it is configured, is so for the document in force. */
    ghost predicate UpToDate()
      reads this
    {
      configured ==> setAt == section.revision
    }

    /** `egress_supervise`: keep the tunnel's process running and configured. */
    method Supervise(now: real)
      modifies `proc, `configured, `failures, `nextStart, `startedAt, `setAt, `lastNetwork
      ensures configured ==> proc || old(configured && !proc)
      ensures !otherFaults && (old(proc) || now >= old(nextStart)) ==> proc && configured && nextStart == old(nextStart)
      ensures old(!proc) && now < old(nextStart) ==>
                !proc && configured == old(configured) && failures == old(failures) && nextStart == old(nextStart)
      ensures !proc && (old(proc) || now >= old(nextStart)) ==>
                failures == old(failures) + 1 && nextStart == now + Manager.Backoff(failures) as real
      ensures old(UpToDate()) ==> UpToDate()
      ensures configured && !old(configured) ==> failures == 0 && lastNetwork == -NETWORK_RECHECK
    {
      var died: bool := *;
      if proc && otherFaults && died {
        proc, configured, failures := false, false, failures + 1;
        nextStart := now + Manager.Backoff(failures) as real;
      }
      if !proc {
        if now < nextStart {
          return;
        }
        var fails: bool := *;
        if otherFaults && fails {
          failures := failures + 1;
          nextStart := now + Manager.Backoff(failures) as real;
          return;
        }
        proc, startedAt, configured := true, now, false;
      }
      if configured {
        return;
      }
      var fails: bool := *;
      if otherFaults && fails {
        return;
      }
      configured, failures, lastNetwork := true, 0, -NETWORK_RECHECK;
      setAt := section.revision;
    }

    /** A pass that looks at the kernel whatever is believed of it. */
    ghost predicate Due(now: real, force: bool)
      reads this
    {
      force || now - lastNetwork >= NETWORK_RECHECK
    }

    /** There is a device for the router, other than the tunnel's own. */
    ghost predicate HasRouter() {
      routerTun.Some? && routerTun.value != IFACE
    }

    /** `egress_converge`. Under a document that asks for a tunnel, and has what it needs, it only ever steers. A WARP
        document without an account it clears away, like direct egress. */
    method Converge(now: real, force: bool)
      requires Plane()
      modifies `proc, `configured, `failures, `nextStart, `startedAt, `setAt, `lastNetwork, `networkOk, `passed, `found
      modifies kernel`table, kernel`trace
      ensures Plane()
      ensures Steers() ==> Continues(old(kernel.trace), kernel.trace, Steering)
      ensures !Steers() ==> Continues(old(kernel.trace), kernel.trace, Clearing)
      ensures !Steers() && (old(Due(now, force)) || old(proc)) ==> |kernel.trace| > |old(kernel.trace)| && lastNetwork == now
      ensures !Steers() && (old(Due(now, force)) || old(proc)) && !kernel.faults ==>
                kernel.table == Table({}, false, None, {}) && !proc
      ensures !Steers() && !old(Due(now, force)) && !old(proc) ==>
                kernel.table == old(kernel.table) && kernel.trace == old(kernel.trace)
      ensures Steers() && !kernel.faults ==> Routed()
      ensures Steers() && !kernel.partial ==> Judged()
      ensures Current(section.history) == Via(Router) && HasRouter() && !kernel.faults ==> networkOk
      ensures old(UpToDate()) ==> UpToDate()
      ensures Steers() && kernel.Dead() ==> kernel.table == old(kernel.table)
      ensures Steers() && Current(section.history) == Via(Warp) && configured ==> (networkOk <==> passed)
      ensures Steers() && Current(section.history) == Via(Warp) && !otherFaults && (old(proc) || now >= old(nextStart)) ==>
                proc && configured && nextStart == old(nextStart)
    {
      var document := Current(section.history);
      if document == Via(Router) {
        StopProcess();
        if force || !networkOk || now - lastNetwork >= NETWORK_RECHECK {
          Network(now, routerTun);
        }
        return;
      }
      assert document.Via? ==> document.provider.Warp?;
      if document != Via(Warp) || section.account.None? {
        if force || proc || now - lastNetwork >= NETWORK_RECHECK {
          Teardown();
          lastNetwork := now;
        }
        return;
      }
      Supervise(now);
      if force || !networkOk || now - lastNetwork >= NETWORK_RECHECK {
        Network(now, None);
      }
    }

    /** The document asks for a tunnel, and what it needs is there. */
    ghost predicate Steers()
      reads this
    {
      Current(section.history).Via? && Supported(section)
    }

    /** One pass under the manager's lock, with the invariant. */
    method Pass(now: real, force: bool)
      requires Inv()
      modifies `proc, `configured, `failures, `nextStart, `startedAt, `setAt, `lastNetwork, `networkOk, `passed, `found
      modifies kernel`table, kernel`trace
      ensures Inv()
      ensures old(UpToDate()) ==> UpToDate()
      ensures var document := Current(section.history);
              && (document.Via? ==> Continues(old(kernel.trace), kernel.trace, Steering))
              && (document.Via? && !kernel.faults ==> Routed())
              && (document.Via? && !kernel.partial ==> Judged())
              && (document == Via(Router) && HasRouter() && !kernel.faults ==> networkOk)
              && (document.Via? && kernel.Dead() ==> kernel.table == old(kernel.table))
              && (document == Via(Warp) && configured ==> (networkOk <==> passed))
              && (document == Via(Warp) && !otherFaults && (old(proc) || now >= old(nextStart)) ==>
                    proc && configured && nextStart == old(nextStart))
              && (document.Direct? && !kernel.faults && force ==> kernel.table == Table({}, false, None, {}))
    {
      CurrentIsSupported(section);
      Converge(now, force);
    }

    // ----- state ----------------------------------------------------------------------------------

    /** `save_egress`: a failed write leaves the old file or the new one, and the memory as it is. */
    method Save() returns (ok: bool)
      requires Inv()
      modifies `disk
      ensures Inv()
      ensures disk == section || (!ok && disk == old(disk))
      ensures !writeFaults ==> ok
      ensures writeFaults && writeDown ==> !ok && disk == old(disk)
    {
      var fails: bool, replaced: bool := *, *;
      ok := !(writeFaults && (fails || writeDown));
      if ok || (replaced && !writeDown) {
        disk := section;
      }
    }

    /** Put a section into force; its revision is new. */
    method Enter(next: Section)
      requires Inv() && Accounted(next) && next.revision > section.revision
      modifies `section, `named, `since
      ensures Inv() && section == next && (!forgot ==> Extends(old(named), named))
      ensures old(Current(section.history)).Via? && Current(next.history).Via? ==> since == old(since)
    {
      if !(Current(section.history).Via? && Current(next.history).Via?) {
        since := |kernel.trace|;
      }
      section := next;
      if !forgot {
        named := named[next.revision := next.history];
      }
    }

    /** The manager's clock, which starts at zero. */
    method Clock() returns (now: real)
      ensures now >= 0.0
    {
      now := *;
      if now < 0.0 {
        now := 0.0;
      }
    }

    /** `egress_await_ready`: keep converging until the tunnel is up, for twelve seconds. A WARP tunnel is up with a
        handshake; whether its routes are there is not asked. */
    method AwaitReady(provider: Provider) returns (ready: bool)
      requires Inv() && Current(section.history) == Via(provider)
      modifies `proc, `configured, `failures, `nextStart, `startedAt, `setAt, `lastNetwork, `networkOk, `passed, `found
      modifies kernel`table, kernel`trace
      ensures Inv() && Continues(old(kernel.trace), kernel.trace, Steering)
      ensures ready && provider.Router? ==> networkOk
      ensures ready && provider.Warp? ==> proc && configured && (networkOk <==> passed)
      ensures old(UpToDate()) ==> UpToDate()
      ensures !kernel.faults ==> Routed()
      ensures !kernel.partial ==> Judged()
      ensures kernel.Dead() ==> kernel.table == old(kernel.table)
      ensures provider.Warp? && !otherFaults && (old(proc) || old(nextStart) <= 0.0) ==> ready
      ensures provider.Router? && HasRouter() && !otherFaults && !kernel.faults ==> ready
    {
      hide Plane, Steered, Named, Linked, Accounted;
      var waited := 0;
      while waited <= 24
        invariant Inv() && Continues(old(kernel.trace), kernel.trace, Steering)
        invariant old(UpToDate()) ==> UpToDate()
        invariant waited > 0 && !kernel.faults ==> Routed()
        invariant waited > 0 && !kernel.partial ==> Judged()
        invariant provider.Router? && HasRouter() && !otherFaults && !kernel.faults ==> waited == 0
        invariant kernel.Dead() ==> kernel.table == old(kernel.table)
        invariant provider.Warp? && !otherFaults && (old(proc) || old(nextStart) <= 0.0) ==> waited == 0
        invariant waited == 0 ==> proc == old(proc) && nextStart == old(nextStart)
      {
        var now := Clock();
        var up: bool := *;
        Pass(now, false);
        up := up || !otherFaults;
        if up && (if provider.Warp? then proc && configured else networkOk) {
          return true;
        }
        waited := waited + 1;
      }
      return false;
    }

    /** `egress_reset_dataplane`. */
    method ResetDataplane()
      requires Inv()
      modifies `configured, `lastNetwork
      ensures Inv() && !configured
    {
      configured, lastNetwork := false, -NETWORK_RECHECK;
    }

    /** What a successful switch to a tunnel leaves. It is routed if `networkOk`; and where a failed command changes
        nothing, only then or if the last steering pass had found the rules in place. */
    ghost predicate Brought(provider: Provider)
      reads this, kernel
    {
      && (networkOk ==> Routed()) && (provider.Router? ==> networkOk) && (!kernel.faults ==> Routed())
      && (!kernel.partial ==> (Routed() <==> networkOk || (found == subnets && kernel.table.blackhole)))
    }

    /** Wait for a tunnel just steered into. */
    method Bring(provider: Provider) returns (ready: bool)
      requires Inv() && Current(section.history) == Via(provider)
      modifies `proc, `configured, `failures, `nextStart, `startedAt, `setAt, `lastNetwork, `networkOk, `passed, `found
      modifies kernel`table, kernel`trace
      ensures Inv() && Continues(old(kernel.trace), kernel.trace, Steering)
      ensures ready ==> Brought(provider) && (provider.Warp? ==> proc && configured)
      ensures old(UpToDate()) ==> UpToDate()
      ensures kernel.Dead() ==> kernel.table == old(kernel.table)
      ensures provider.Warp? && !otherFaults && old(nextStart) <= 0.0 ==> ready
      ensures provider.Router? && HasRouter() && !otherFaults && !kernel.faults ==> ready
    {
      ready := AwaitReady(provider);
    }

    /** Put a section into force, write it, and converge on it at once. */
    method Adopt(next: Section) returns (ok: bool)
      requires Inv() && Accounted(next) && next.revision > section.revision
      modifies this, kernel`table, kernel`trace
      ensures Inv() && section == next && forgot == old(forgot) && (!forgot ==> Extends(old(named), named))
      ensures writeFaults == old(writeFaults) && writeDown == old(writeDown) && otherFaults == old(otherFaults)
      ensures if ok then disk == section else writeFaults && (disk == old(disk) || disk == section)
      ensures writeFaults && writeDown ==> !ok && disk == old(disk)
      ensures ok ==> UpToDate()
      ensures ok && !kernel.faults ==>
                if Current(next.history).Via? then Routed() else kernel.table == Table({}, false, None, {})
      ensures ok && Current(next.history).Via? && !kernel.partial ==> Judged()
      ensures Current(next.history).Via? && kernel.Dead() ==> kernel.table == old(kernel.table)
      ensures ok && Current(next.history) == Via(Warp) && !otherFaults && old(nextStart) <= 0.0 ==> nextStart <= 0.0
      ensures old(Current(section.history)).Via? && Current(next.history).Via? ==>
                Continues(old(kernel.trace), kernel.trace, Steering)
    {
      hide Plane, Steered, Named, Linked, Accounted, Extends, Routed, Judged;
      Enter(next);
      ok := Save();
      if !ok {
        return;
      }
      ResetDataplane();
      var now := Clock();
      Pass(now, true);
    }

    /** A WARP account, registered when there is none. */
    method Register() returns (ok: bool)
      requires Inv()
      modifies `section
      ensures Inv() && section == old(section).(account := section.account)
      ensures old(section).account.Some? ==> section == old(section)
      ensures if ok then section.account.Some? else section == old(section)
      ensures !otherFaults ==> ok
    {
      if section.account.None? {
        var registered: Option<string> := *;
        if !otherFaults && registered.None? {
          registered := Some("");
        }
        section := section.(account := registered);
      }
      ok := section.account.Some?;
    }

    /** The manager dies, or does not. */
    method MayDie() returns (dies: bool)
      ensures !otherFaults ==> !dies
    {
      dies := *;
      dies := dies && otherFaults;
    }

    /** Faults change only with the weather, and revisions keep their names. */
    twostate predicate Kept()
      reads this
    {
      && writeFaults == old(writeFaults) && writeDown == old(writeDown) && otherFaults == old(otherFaults)
      && forgot == old(forgot) && (!forgot ==> Extends(old(named), named))
    }

    /** What a switch to `target` from `previous` comes to. */
    ghost predicate Turned(previous: Section, history: seq<Entry>, target: Document, before: Section, r: Result<(), Error>)
      reads this, kernel
    {
      && (section.revision > previous.revision || (section == previous && disk == before))
      && (r.Ok? ==> section.history == history && section.revision == previous.revision + 1)
      && (r.Err? && !r.error.Died? && !writeFaults ==> section.history == previous.history && r.error in {Invalid, Unreachable})
      && (r.Err? ==> !r.error.Conflict? && !r.error.NoPrevious? && (r.error.Unreachable? ==> target.Via?)
                     && (r.error.Died? ==> otherFaults))
      && (r == Err(Internal) && disk == before ==> section.history == history && section.revision == previous.revision + 1)
      && (!writeFaults && section.revision > previous.revision ==> disk == section)
      && (writeFaults && writeDown && target.Direct? ==> r == Err(Internal) && disk == before)
    }

    /** The second half of a switch: the tunnel is waited for, or the previous history put back. */
    method Await(previous: Section, provider: Provider) returns (r: Result<(), Error>)
      requires Inv() && Current(section.history) == Via(provider) && Accounted(previous) && disk == section
      requires previous.revision + 1 == section.revision && (previous.account.Some? ==> section.account.Some?)
      modifies this, kernel`table, kernel`trace
      ensures Inv() && Kept()
      ensures if r.Ok? then section == old(section) && disk == section && Brought(provider)
              else r.error in {Unreachable, Internal, Died} && (r.error.Died? ==> otherFaults && section == old(section) && disk == section)
                   && (!r.error.Died? ==> section.history == previous.history && section.revision == previous.revision + 2)
                   && (r.error.Unreachable? ==> disk == section)
                   && (r.error.Internal? ==> writeFaults && disk in {old(section), section})
      ensures r.Ok? ==> (provider.Warp? ==> proc && configured) && (old(UpToDate()) ==> UpToDate())
      ensures r.Ok? && kernel.Dead() ==> kernel.table == old(kernel.table)
      ensures provider.Warp? && !otherFaults && old(nextStart) <= 0.0 ==> r.Ok?
      ensures provider.Router? && HasRouter() && !otherFaults && !kernel.faults ==> r.Ok?
      ensures Current(previous.history).Via? ==> Continues(old(kernel.trace), kernel.trace, Steering)
    {
      hide Plane, Steered, Named, Linked, Routed, Judged, Brought;
      var ready := Bring(provider);
      if ready {
        return Ok(());
      }
      var dies := MayDie();
      if dies {
        return Err(Died);
      }
      var back := previous.(account := section.account, revision := previous.revision + 2);
      var ok := Adopt(back);
      return Err(if ok then Unreachable else Internal);
    }

    /** The first half: commit the history and converge. */
    method Turn(previous: Section, history: seq<Entry>, target: Document) returns (r: Result<(), Error>)
      requires Inv() && Current(history) == target && Accounted(previous) && section == previous.(account := section.account)
      requires previous.account.Some? || target == Via(Warp) ==> section.account.Some?
      requires forall e <- history :: e in previous.history || e.document == target
      modifies this, kernel`table, kernel`trace
      ensures Inv() && Kept() && Turned(previous, history, target, old(disk), r)
      ensures r.Ok? && target.Via? ==> Brought(target.provider)
      ensures r.Ok? && target == Via(Warp) ==> proc && configured && setAt == section.revision
      ensures r.Ok? && target.Direct? && !kernel.faults ==> kernel.table == Table({}, false, None, {})
      ensures r.Ok? && target.Via? && kernel.Dead() ==> kernel.table == old(kernel.table)
      ensures target.Direct? && !writeFaults && !otherFaults ==> r.Ok?
      ensures target == Via(Warp) && !writeFaults && !otherFaults && old(nextStart) <= 0.0 ==> r.Ok?
      ensures target == Via(Router) && HasRouter() && !writeFaults && !otherFaults && !kernel.faults ==> r.Ok?
      ensures target.Via? && Current(previous.history).Via? ==> Continues(old(kernel.trace), kernel.trace, Steering)
    {
      hide Plane, Steered, Named, Linked, Accounted, Routed, Judged, Brought;
      var next := section.(history := history, revision := section.revision + 1);
      SwitchAccounted(previous, next, target);
      var ok := Adopt(next);
      if !ok {
        return Err(Internal);
      }
      var dies := MayDie();
      if dies {
        return Err(Died);
      }
      if target.Direct? {
        return Ok(());
      }
      r := Await(previous, target.provider);
    }

    /** `egress_switch`: commit the history, converge, wait for the tunnel; without it, put the previous history back. */
    method Switch(history: seq<Entry>, target: Document) returns (r: Result<(), Error>)
      requires Inv() && Current(history) == target
      requires forall e <- history :: e in section.history || e.document == target
      modifies this, kernel`table, kernel`trace
      ensures Inv() && Kept() && Turned(old(section), history, target, old(disk), r)
      ensures r.Ok? && target.Via? ==> Brought(target.provider) && (target.provider.Router? ==> routerTun.Some?)
      ensures r.Ok? && target == Via(Warp) ==> proc && configured && setAt == section.revision
      ensures r.Ok? && target.Direct? && !kernel.faults ==> kernel.table == Table({}, false, None, {})
      ensures r.Ok? && target.Via? && kernel.Dead() ==> kernel.table == old(kernel.table)
      ensures target.Direct? && !writeFaults && !otherFaults ==> r.Ok?
      ensures target == Via(Warp) && !writeFaults && !otherFaults && old(nextStart) <= 0.0 ==> r.Ok?
      ensures target == Via(Router) && HasRouter() && !writeFaults && !otherFaults && !kernel.faults ==> r.Ok?
      ensures target.Via? && old(Current(section.history)).Via? ==> Continues(old(kernel.trace), kernel.trace, Steering)
    {
      hide Plane, Steered, Named, Linked, Accounted, Routed, Judged, Brought;
      if target == Via(Router) && routerTun.None? {
        return Err(Invalid);
      }
      var previous := section;
      if target == Via(Warp) {
        var registered := Register();
        if !registered {
          return Err(Unreachable);
        }
      }
      r := Turn(previous, history, target);
    }

    // ----- operations -------------------------------------------------------------------------------

    /** A valid request at the present revision that does not repeat the last one. */
    ghost predicate Admissible(expected: int, operationId: string)
      reads this
    {
      Manager.IsOperationId(operationId) && expected == section.revision && !Repeats(section.history, operationId)
    }

    /** `egress_apply`. A request of the last operation again is answered without doing anything. */
    method Apply(expected: int, document: Option<Document>, operationId: string) returns (r: Result<bool, Error>)
      requires Inv()
      modifies this, kernel`table, kernel`trace
      ensures Inv() && Kept() && (!writeFaults && old(disk == section) ==> disk == section)
      ensures section.revision > old(section.revision) || section == old(section)
      ensures r.Ok? ==> document.Some? && Current(section.history) == document.value
      ensures r == Ok(true) ==> section == old(section)
      ensures r == Ok(false) ==>
                && expected == old(section.revision) && section.revision == expected + 1
                && section.history == Push(old(section.history), Entry(document.value, operationId))
      ensures r == Ok(false) && document.value.Via? ==> Brought(document.value.provider)
      ensures r == Ok(false) && document.value.Via? && kernel.Dead() ==> kernel.table == old(kernel.table)
      ensures r.Err? && !r.error.Died? && !writeFaults ==> section.history == old(section.history)
      ensures r == Err(Internal) && disk == old(disk) ==>
                document.Some? && section.history == Push(old(section.history), Entry(document.value, operationId))
                && section.revision == old(section.revision) + 1
      ensures r == Ok(true) <==>
                && document.Some? && Manager.IsOperationId(operationId)
                && Repeats(old(section.history), operationId) && Current(old(section.history)) == document.value
      ensures r == Err(Conflict) <==>
                && document.Some? && Manager.IsOperationId(operationId)
                && if Repeats(old(section.history), operationId) then Current(old(section.history)) != document.value
                   else expected != old(section.revision)
      ensures document.None? || !Manager.IsOperationId(operationId) ==> r == Err(Invalid) && section == old(section)
      ensures document == Some(Direct) && old(Admissible(expected, operationId)) && writeFaults && writeDown ==>
                r == Err(Internal) && disk == old(disk)
      ensures document == Some(Direct) && old(Admissible(expected, operationId)) && !writeFaults && !otherFaults ==>
                r == Ok(false)
      ensures document == Some(Via(Router)) && old(Admissible(expected, operationId)) && HasRouter() ==>
                !writeFaults && !otherFaults && !kernel.faults ==> r == Ok(false)
      ensures document == Some(Via(Warp)) && old(Admissible(expected, operationId) && nextStart <= 0.0) ==>
                !writeFaults && !otherFaults ==> r == Ok(false)
    {
      hide Plane, Steered, Named, Linked, Accounted, Routed, Judged, Brought, Extends;
      if !Manager.IsOperationId(operationId) || document.None? {
        SameNames(named);
        return Err(Invalid);
      }
      var target := document.value;
      var history := section.history;
      if Repeats(history, operationId) {
        SameNames(named);
        if history[|history| - 1].document != target {
          return Err(Conflict);
        }
        return Ok(true);
      }
      if expected != section.revision {
        SameNames(named);
        return Err(Conflict);
      }
      var switched := Switch(Push(history, Entry(target, operationId)), target);
      return if switched.Err? then Err(switched.error) else Ok(false);
    }

    /** `egress_rollback`. */
    method Rollback(expected: int) returns (r: Result<(), Error>)
      requires Inv()
      modifies this, kernel`table, kernel`trace
      ensures Inv() && Kept() && (!writeFaults && old(disk == section) ==> disk == section)
      ensures section.revision > old(section.revision) || section == old(section)
      ensures r == Err(NoPrevious) <==> expected == old(section.revision) && old(section.history) == []
      ensures r.Ok? ==>
                && expected == old(section.revision) && section.revision == expected + 1
                && old(section.history) != [] && section.history == Pop(old(section.history))
      ensures r.Err? && !r.error.Died? && !writeFaults ==> section.history == old(section.history)
      ensures r == Err(Conflict) <==> expected != old(section.revision)
      ensures r.Ok? && Current(section.history).Via? ==> Brought(Current(section.history).provider)
      ensures expected == old(section.revision) && old(section.history) != [] && !writeFaults && !otherFaults ==>
                match Current(Pop(old(section.history)))
                case Direct => r.Ok?
                case Via(Warp) => old(nextStart) <= 0.0 ==> r.Ok?
                case Via(Router) => HasRouter() && !kernel.faults ==> r.Ok?
    {
      hide Plane, Steered, Named, Linked, Accounted, Routed, Judged, Brought, Extends;
      if expected != section.revision {
        SameNames(named);
        return Err(Conflict);
      }
      if section.history == [] {
        SameNames(named);
        return Err(NoPrevious);
      }
      var rest := Pop(section.history);
      var switched := Switch(rest, Current(rest));
      return if switched.Err? then Err(switched.error) else Ok(());
    }

    /** Nothing is running, nothing is known of the kernel, and a start is due at once. */
    method ResetRuntime()
      modifies `proc, `configured, `failures, `nextStart, `lastNetwork, `networkOk, `passed
      ensures !networkOk && !passed && nextStart == 0.0
    {
      proc, configured, failures, nextStart, lastNetwork := false, false, 0, 0.0, -NETWORK_RECHECK;
      networkOk, passed := false, false;
    }

    /** The manager starts again from the file. */
    method Restart()
      requires Inv()
      modifies `section, `proc, `configured, `failures, `nextStart, `lastNetwork, `networkOk, `passed, `named, `forgot, `since
      ensures Inv() && section == disk && nextStart == 0.0
      ensures old(section == disk) ==> forgot == old(forgot) && named == old(named) && since == old(since)
    {
      hide Accounted, Linked;
      if section != disk {
        forgot, since := true, |kernel.trace|;
      }
      section := disk;
      ResetRuntime();
    }

    /** A device goes down behind the manager's back. */
    method LinkDown(dev: string)
      requires Inv()
      modifies kernel`table, kernel`trace
      ensures Inv()
    {
      kernel.Down(dev);
    }

    method ChangeWeather(w: Weather)
      requires Inv()
      modifies `writeFaults, `writeDown, `otherFaults, kernel`faults, kernel`partial, kernel`down
      ensures Inv() && writeFaults == w.writes && writeDown == w.writesDown && otherFaults == w.others
      ensures kernel.faults == w.commands && kernel.partial == w.partial && kernel.down == w.commandsDown
    {
      writeFaults, writeDown, otherFaults := w.writes, w.writesDown, w.others;
      kernel.faults, kernel.partial, kernel.down := w.commands, w.partial, w.commandsDown;
    }

    /** What happens next. A manager that dies in the middle of an operation starts again. */
    method Step(op: Operation)
      requires Inv()
      modifies this, kernel
      ensures Inv()
      ensures writeFaults == if op.Change? then op.weather.writes else old(writeFaults)
      ensures !old(writeFaults) && old(disk == section && !forgot) ==>
                disk == section && !forgot && Extends(old(named), named) && section.revision >= old(section.revision)
    {
      hide Plane, Steered, Named, Linked, Accounted, Routed, Judged, Brought, Extends;
      SameNames(named);
      match op
      case Apply(expected, document, id) =>
        var r := Apply(expected, document, id);
        if r == Err(Died) {
          Restart();
        }
      case Rollback(expected) =>
        var r := Rollback(expected);
        if r == Err(Died) {
          Restart();
        }
      case Tick(now) => Pass(now, false);
      case Down(dev) => LinkDown(dev);
      case Restart => Restart();
      case Change(weather) => ChangeWeather(weather);
    }
  }

  predicate Repeats(history: seq<Entry>, operationId: string) {
    history != [] && history[|history| - 1].operationId == operationId
  }

  lemma SameNames(named: map<int, seq<Entry>>)
    ensures Extends(named, named)
  {
  }

  /** What may go wrong: writes, or every write; accounts, processes, handshakes and the manager itself; commands, with or
      without effect, or every command. */
  datatype Weather = Weather(writes: bool, writesDown: bool, others: bool, commands: bool, partial: bool, commandsDown: bool)

  const Fair := Weather(false, false, false, false, false, false)

  datatype Operation =
    | Apply(expected: int, document: Option<Document>, id: string)
    | Rollback(expected: int)
    | Tick(now: real)
    | Down(dev: string)
    | Restart
    | Change(weather: Weather)

  /** The table when moment `k` began, or now. */
  ghost function TableAt(trace: seq<Moment>, table: Table, k: nat): Table {
    if k < |trace| then trace[k].before else table
  }

  /** Every run, whatever fails: while the document asks for a tunnel, a table that was closed at any moment since,
      that of the change of document included, is closed after every command from then on, and every device that went
      down. */
  lemma ClosedWhileSteered(e: EgressManager, first: nat)
    requires e.Inv() && Current(e.section.history).Via?
    requires e.since <= first <= |e.kernel.trace| && FailClosed(TableAt(e.kernel.trace, e.kernel.table, first))
    ensures forall k :: first <= k < |e.kernel.trace| ==> FailClosed(e.kernel.trace[k].after)
    ensures FailClosed(e.kernel.table)
  {
    var trace := e.kernel.trace;
    forall k | first <= k < |trace| ensures FailClosed(trace[k].after) {
      StaysClosed(trace, e.kernel.table, first, k);
    }
  }

  /** Any sequence of operations keeps the invariant. */
  method Run(subnets: set<string>, routerTun: Option<string>, disk: Section, table: Table, ops: seq<Operation>)
    returns (e: EgressManager)
    requires Accounted(disk)
    ensures e.Inv()
  {
    e := new EgressManager(subnets, routerTun, disk, table, true);
    for i := 0 to |ops|
      invariant fresh(e) && fresh(e.kernel) && e.Inv()
    {
      e.Step(ops[i]);
    }
  }

  datatype Seen = Seen(revision: int, history: seq<Entry>)

  /** Every run whose writes succeed: revisions never go back, and none is seen with two histories. */
  method RunReliably(subnets: set<string>, routerTun: Option<string>, disk: Section, table: Table, ops: seq<Operation>)
    returns (e: EgressManager, seen: seq<Seen>)
    requires Accounted(disk) && forall op <- ops :: op.Change? ==> !op.weather.writes
    ensures e.Inv() && |seen| == |ops|
    ensures forall i, j :: 0 <= i < j < |seen| ==> seen[i].revision <= seen[j].revision
    ensures forall i, j :: 0 <= i < j < |seen| && seen[i].revision == seen[j].revision ==> seen[i].history == seen[j].history
  {
    hide EgressManager.Steered, EgressManager.Plane, Accounted;
    e := new EgressManager(subnets, routerTun, disk, table, false);
    seen := [];
    for i := 0 to |ops|
      invariant fresh(e) && fresh(e.kernel) && e.Inv() && !e.forgot && !e.writeFaults && e.disk == e.section
      invariant |seen| == i
      invariant forall k :: 0 <= k < i ==>
                  seen[k].revision in e.named && e.named[seen[k].revision] == seen[k].history
      invariant forall k :: 0 <= k < i ==> seen[k].revision <= e.section.revision
      invariant forall k, j :: 0 <= k < j < i ==> seen[k].revision <= seen[j].revision
      invariant forall k, j :: 0 <= k < j < i && seen[k].revision == seen[j].revision ==> seen[k].history == seen[j].history
    {
      e.Step(ops[i]);
      seen := seen + [Seen(e.section.revision, e.section.history)];
    }
  }

  /** Applies, one after the other, then rollbacks: if all succeed, the document in force is the one that was after that
      many fewer applies. */
  method ApplyAndUndo(e: EgressManager, entries: seq<Entry>, k: nat) returns (ok: bool)
    requires e.Inv() && k <= |entries| && k < MAX_HISTORY
    modifies e, e.kernel
    ensures e.Inv()
    ensures ok ==> Current(e.section.history) == Current(PushAll(old(e.section.history), entries[..|entries| - k]))
    ensures ok ==> e.section.revision == old(e.section.revision) + |entries| + k
  {
    hide Current, Newest;
    ghost var history := e.section.history;
    ghost var revision := e.section.revision;
    for i := 0 to |entries|
      invariant e.Inv() && e.section.history == PushAll(history, entries[..i]) && e.section.revision == revision + i
    {
      var r := e.Apply(e.section.revision, Some(entries[i].document), entries[i].operationId);
      if r != Ok(false) {
        return false;
      }
      assert entries[..i + 1][..i] == entries[..i];
    }
    assert entries[..|entries|] == entries;
    UndoRestores(history, entries, k);
    ghost var full := e.section.history;
    for i := 0 to k
      invariant e.Inv() && PopMany(full, i) == e.section.history && e.section.revision == revision + |entries| + i
    {
      PopOne(full, i);
      var r := e.Rollback(e.section.revision);
      if r.Err? {
        return false;
      }
    }
    return true;
  }

  lemma {:induction false} PopOne(history: seq<Entry>, i: nat)
    requires i < |history|
    ensures PopMany(history, i + 1) == Pop(PopMany(history, i))
  {
    PopManyIs(history, i);
    PopManyIs(history, i + 1);
  }

  /** An apply whose write is lost, a restart, and another apply: the revision of the first names the history of the
      second. */
  method ReuseRevision(subnets: set<string>, table: Table, disk: Section, a: string, b: string)
    returns (e: EgressManager, lost: Seen)
    requires Accounted(disk) && a != b && Manager.IsOperationId(a) && Manager.IsOperationId(b)
    requires !Repeats(disk.history, a) && !Repeats(disk.history, b)
    ensures e.Inv() && e.section.revision == lost.revision && e.section.history != lost.history
  {
    hide EgressManager.Steered, EgressManager.Plane, EgressManager.Named, Accounted;
    e := new EgressManager(subnets, None, disk, table, true);
    e.ChangeWeather(Fair.(writes := true, writesDown := true));
    var first := e.Apply(disk.revision, Some(Direct), a);
    lost := Seen(e.section.revision, e.section.history);
    e.Restart();
    e.ChangeWeather(Fair);
    var second := e.Apply(disk.revision, Some(Direct), b);
    assert first == Err(Internal) && second == Ok(false);
    var h, g := Push(disk.history, Entry(Direct, a)), Push(disk.history, Entry(Direct, b));
    assert h[|h| - 1].operationId == a && g[|g| - 1].operationId == b;
  }

  /** A WARP apply that succeeds while every routing command fails: the tunnel is up, nothing is steered into it, and the
      clients leave from the server's own address. */
  method UnroutedWarp(subnets: set<string>, disk: Section, id: string) returns (e: EgressManager, r: Result<bool, Error>)
    requires Accounted(disk) && Manager.IsOperationId(id) && !Repeats(disk.history, id)
    ensures r == Ok(false) && e.Inv() && Current(e.section.history) == Via(Warp) && !e.networkOk
    ensures forall source <- subnets :: FateOf(e.kernel.table, source) == Main
    ensures subnets != {} ==> !e.Routed()
  {
    hide EgressManager.Steered, EgressManager.Named, Accounted;
    e := new EgressManager(subnets, None, disk, Table({}, false, None, {}), false);
    e.ChangeWeather(Fair.(commands := true, commandsDown := true));
    r := e.Apply(disk.revision, Some(Via(Warp)), id);
    assert e.kernel.table == Table({}, false, None, {});
  }

  lemma CurrentIsSupported(s: Section)
    requires Accounted(s)
    ensures Supported(s)
  {
    if s.history != [] {
      assert s.history[|s.history| - 1] in s.history;
    }
  }

  lemma SwitchAccounted(previous: Section, next: Section, target: Document)
    requires Accounted(previous) && (previous.account.Some? || target == Via(Warp) ==> next.account.Some?)
    requires forall e <- next.history :: e in previous.history || e.document == target
    ensures Accounted(next)
  {
  }
}
