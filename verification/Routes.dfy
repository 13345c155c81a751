/** The routing table the egress steers AmneziaWG subnets into (awg_manager/src/egress.rs). */
module Routes {
  import opened Common

  /** Table 51870 and the rules that lead into it: the sources with a rule, the blackhole default, the default route into
      a tunnel, and the private destinations thrown back to the main table. */
  datatype Table = Table(rules: set<string>, blackhole: bool, route: Option<string>, thrown: set<string>)

  datatype Command =
    | Blackhole
    | Throw(net: string)
    | Route(dev: string)
    | RuleAdd(source: string)
    | RuleDel(source: string)
    | Flush
    /** Not a command: a device goes away and takes its routes with it. */
    | LinkDown(dev: string)

  const THROWN := ["10.0.0.0/8", "172.16.0.0/12", "192.168.0.0/16", "100.64.0.0/10", "169.254.0.0/16",
                   "127.0.0.0/8", "224.0.0.0/4"]

  function Effect(t: Table, c: Command): Table {
    match c
    case Blackhole => t.(blackhole := true)
    case Throw(net) => t.(thrown := t.thrown + {net})
    case Route(dev) => t.(route := Some(dev))
    case RuleAdd(source) => t.(rules := t.rules + {source})
    case RuleDel(source) => t.(rules := t.rules - {source})
    case Flush => t.(blackhole := false, route := None, thrown := {})
    case LinkDown(dev) => if t.route == Some(dev) then t.(route := None) else t
  }

  datatype Fate = Tunnel(dev: string) | Dropped | Main

  /** Where a packet from `source` goes that is not for a private destination. */
  function FateOf(t: Table, source: string): Fate {
    if source !in t.rules then Main
    else if t.route.Some? then Tunnel(t.route.value)
    else if t.blackhole then Dropped
    else Main
  }

  /** A rule into the table implies that its blackhole default is there. */
  ghost predicate FailClosed(t: Table) {
    t.rules != {} ==> t.blackhole
  }

  /** Which is to say: without its tunnel, no steered subnet is sent from the server's own address. */
  lemma FailClosedMeaning(t: Table)
    ensures FailClosed(t) <==> forall source <- t.rules, dev: string :: FateOf(Effect(t, LinkDown(dev)), source) != Main
  {
    if t.rules != {} && !t.blackhole {
      var source :| source in t.rules;
      var dev := if t.route.Some? then t.route.value else "";
      assert FateOf(Effect(t, LinkDown(dev)), source) == Main;
    }
  }

  /** Why a command is issued: to steer traffic into a tunnel, or to clear everything away. */
  datatype Purpose = Steering | Clearing | Outside

  datatype Moment = Moment(why: Purpose, command: Command, before: Table, after: Table)

  /** A command is carried out or not, whatever it answers; steering never opens what was closed. */
  ghost predicate Lawful(m: Moment) {
    && (m.after == m.before || m.after == Effect(m.before, m.command))
    && (m.why.Steering? || m.why.Outside? ==> FailClosed(m.before) ==> FailClosed(m.after))
  }

  ghost predicate Linked(trace: seq<Moment>, table: Table) {
    && (forall k :: 0 < k < |trace| ==> trace[k - 1].after == trace[k].before)
    && (trace != [] ==> trace[|trace| - 1].after == table)
    && (forall k :: 0 <= k < |trace| ==> Lawful(trace[k]))
  }

  /** Over any stretch of a run in which nothing is cleared away, a closed table stays closed after every command. */
  lemma {:induction false} StaysClosed(trace: seq<Moment>, table: Table, first: nat, last: nat)
    requires Linked(trace, table) && first <= last < |trace|
    requires FailClosed(trace[first].before) && forall k :: first <= k <= last ==> !trace[k].why.Clearing?
    ensures FailClosed(trace[last].after)
    decreases last
  {
    assert Lawful(trace[last]);
    if first < last {
      StaysClosed(trace, table, first, last - 1);
    }
  }

  /** What clearing away can do: a flush opens the table exactly when a rule could not be removed before it, and then
      that rule's subnet is sent from the server's own address. */
  lemma FlushOpens(t: Table)
    ensures FailClosed(Effect(t, Flush)) <==> t.rules == {}
    ensures forall source <- t.rules :: FateOf(Effect(t, Flush), source) == Main
  {
  }

  /** `after` continues `before` with commands of one purpose. */
  ghost predicate Continues(before: seq<Moment>, after: seq<Moment>, why: Purpose) {
    before <= after && forall k :: |before| <= k < |after| ==> after[k].why == why
  }

  class Kernel {
    var table: Table
    /** Whether a command may fail now; whether one that fails may have been carried out all the same; and whether every
        one fails, without effect. */
    var faults: bool
    var partial: bool
    var down: bool
    ghost var trace: seq<Moment>

    constructor (table: Table)
      ensures Valid() && this.table == table && trace == []
    {
      this.table, faults, partial, down, trace := table, true, true, false, [];
    }

    /** Nothing the kernel is told has an effect. */
    ghost predicate Dead()
      reads this
    {
      faults && down
    }

    ghost predicate Valid()
      reads this
    {
      Linked(trace, table)
    }

    /** `ip`: a command that fails may have been carried out all the same. */
    method Ip(c: Command, ghost why: Purpose) returns (ok: bool)
      requires Valid() && !c.LinkDown?
      requires why.Steering? ==> !c.Flush? && (c.RuleAdd? ==> table.blackhole)
      requires !why.Outside?
      modifies `table, `trace
      ensures Valid()
      ensures trace == old(trace) + [Moment(why, c, old(table), table)]
      ensures table == Effect(old(table), c) || (!ok && table == old(table))
      ensures !ok && !partial ==> table == old(table)
      ensures !faults ==> ok
      ensures Dead() ==> !ok && table == old(table)
    {
      ghost var before := table;
      var fails: bool, done: bool := *, *;
      ok := !(faults && (fails || down));
      if ok || (done && partial && !down) {
        table := Effect(table, c);
      }
      trace := trace + [Moment(why, c, before, table)];
    }

    /** A device goes down. */
    method Down(dev: string)
      requires Valid()
      modifies `table, `trace
      ensures Valid() && table == Effect(old(table), LinkDown(dev)) && Continues(old(trace), trace, Outside)
    {
      ghost var before := table;
      table := Effect(table, LinkDown(dev));
      trace := trace + [Moment(Outside, LinkDown(dev), before, table)];
    }

    /** `rules`: the sources that have a rule. */
    method Rules() returns (r: Option<set<string>>)
      ensures r.Some? ==> r.value == table.rules
      ensures !faults ==> r.Some?
      ensures Dead() ==> r.None?
    {
      var fails: bool := *;
      return if faults && (fails || down) then None else Some(table.rules);
    }

    /** Rules for `sources`, one by one. */
    method AddRules(sources: set<string>) returns (ok: bool)
      requires Valid() && table.blackhole && sources !! table.rules
      modifies `table, `trace
      ensures Valid() && Continues(old(trace), trace, Steering)
      ensures forall k :: |old(trace)| <= k < |trace| ==> FailClosed(trace[k].after)
      ensures table == old(table).(rules := table.rules)
      ensures ok ==> table.rules == old(table.rules) + sources
      ensures !ok && !partial ==> !(sources <= table.rules)
      ensures !faults ==> ok
    {
      var todo := sources;
      while todo != {}
        invariant Valid() && Continues(old(trace), trace, Steering)
        invariant forall k :: |old(trace)| <= k < |trace| ==> FailClosed(trace[k].after)
        invariant todo <= sources && table == old(table).(rules := old(table.rules) + (sources - todo))
      {
        var source :| source in todo;
        ok := Ip(RuleAdd(source), Steering);
        if !ok {
          return;
        }
        todo := todo - {source};
      }
      return true;
    }

    method DeleteRules(sources: set<string>, ghost why: Purpose) returns (ok: bool)
      requires Valid() && !why.Outside?
      modifies `table, `trace
      ensures Valid() && Continues(old(trace), trace, why)
      ensures old(FailClosed(table)) ==> forall k :: |old(trace)| <= k < |trace| ==> FailClosed(trace[k].after)
      ensures table == old(table).(rules := table.rules) && old(table.rules) - sources <= table.rules <= old(table.rules)
      ensures ok ==> table.rules == old(table.rules) - sources
      ensures !ok && !partial && sources <= old(table.rules) ==> !(sources !! table.rules)
      ensures !faults ==> ok
    {
      var todo := sources;
      while todo != {}
        invariant Valid() && Continues(old(trace), trace, why)
        invariant old(FailClosed(table)) ==> forall k :: |old(trace)| <= k < |trace| ==> FailClosed(trace[k].after)
        invariant todo <= sources && table == old(table).(rules := old(table.rules) - (sources - todo))
      {
        var source :| source in todo;
        ok := Ip(RuleDel(source), why);
        if !ok {
          return;
        }
        todo := todo - {source};
      }
      return true;
    }

    /** The private destinations are thrown back, one by one. */
    method ThrowBack() returns (ok: bool)
      requires Valid() && table.blackhole
      modifies `table, `trace
      ensures Valid() && Continues(old(trace), trace, Steering)
      ensures forall k :: |old(trace)| <= k < |trace| ==> FailClosed(trace[k].after)
      ensures table == old(table).(thrown := table.thrown)
      ensures ok ==> forall net <- THROWN :: net in table.thrown
      ensures !faults ==> ok
    {
      for n := 0 to |THROWN|
        invariant Valid() && Continues(old(trace), trace, Steering)
        invariant forall k :: |old(trace)| <= k < |trace| ==> FailClosed(trace[k].after)
        invariant table == old(table).(thrown := table.thrown)
        invariant forall m :: 0 <= m < n ==> THROWN[m] in table.thrown
      {
        ok := Ip(Throw(THROWN[n]), Steering);
        if !ok {
          return;
        }
      }
      return true;
    }

    /** The rules become exactly `want`. */
    method Rule(want: set<string>) returns (ok: bool)
      requires Valid() && table.blackhole
      modifies `table, `trace
      ensures Valid() && Continues(old(trace), trace, Steering)
      ensures forall k :: |old(trace)| <= k < |trace| ==> FailClosed(trace[k].after)
      ensures table == old(table).(rules := table.rules)
      ensures ok ==> table.rules == want
      ensures !ok && !partial ==> (table.rules == want <==> old(table.rules) == want)
      ensures !faults ==> ok
    {
      hide Linked;
      var have := Rules();
      if have.None? {
        return false;
      }
      ok := AddRules(want - have.value);
      if !ok {
        return;
      }
      ok := DeleteRules(have.value - want, Steering);
    }

    /** The commands of `egress_network`, up to the first that fails. The blackhole comes first: once it is there, no
        state of the table can let a packet fall through, wherever the commands began. Where a failed command changes
        nothing, the rules are the wanted ones exactly if all commands succeeded or they were so before. */
    method Steer(want: set<string>, route: Option<string>) returns (ok: bool)
      requires Valid()
      modifies `table, `trace
      ensures Valid() && Continues(old(trace), trace, Steering)
      ensures |trace| > |old(trace)| && trace[|old(trace)|].command.Blackhole?
      ensures forall k :: |old(trace)| < k < |trace| ==> FailClosed(trace[k].after)
      ensures old(FailClosed(table)) ==> forall k :: |old(trace)| <= k < |trace| ==> FailClosed(trace[k].after)
      ensures ok ==>
                && table.rules == want && table.blackhole && (forall net <- THROWN :: net in table.thrown)
                && table.route == (if route.Some? then route else old(table.route))
      ensures !partial ==> (table.rules == want <==> ok || old(table.rules) == want)
      ensures old(table.blackhole) ==> table.blackhole
      ensures !faults ==> ok
      ensures Dead() ==> !ok && table == old(table)
    {
      hide Linked;
      ok := Ip(Blackhole, Steering);
      if !ok {
        return;
      }
      ok := ThrowBack();
      if !ok {
        return;
      }
      if route.Some? {
        ok := Ip(Route(route.value), Steering);
        if !ok {
          return;
        }
      }
      ok := Rule(want);
    }

    /** The commands of `egress_teardown`: the table is flushed even when a rule could not be removed. */
    method Clear() returns (removed: bool)
      requires Valid()
      modifies `table, `trace
      ensures Valid() && Continues(old(trace), trace, Clearing) && |trace| > |old(trace)|
      ensures trace[|trace| - 1].command.Flush?
      ensures removed ==> table.rules == {}
      ensures old(FailClosed(table)) ==> forall k :: |old(trace)| <= k < |trace| - 1 ==> FailClosed(trace[k].after)
      ensures old(FailClosed(table)) && removed ==> forall k :: |old(trace)| <= k < |trace| ==> FailClosed(trace[k].after)
      ensures !faults ==> removed && table == Table({}, false, None, {})
      ensures Dead() ==> table == old(table)
    {
      removed := false;
      var rules := Rules();
      if rules.Some? {
        removed := DeleteRules(rules.value, Clearing);
      }
      var _ := Ip(Flush, Clearing);
    }
  }
}
