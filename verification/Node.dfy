/** The host the manager runs on: one amneziawg-go process and device per protocol version. Any call may fail, a failed
    script may have been carried out in part, and a process may die at any call (awg_manager/src/host.rs). */
module Node {
  import opened Common
  import opened Text
  import opened Uapi

  /** What was set up of a device since its process started: its settings, its address and its link. */
  datatype Setup = Setup(settings: Option<seq<string>>, address: bool, link: bool)

  datatype IpStep = AddrReplace | LinkUp

  class Interfaces {
    const count: nat
    /** Whether the process last started for an interface still runs. */
    var alive: seq<bool>
    var devices: seq<Peers>
    var setup: seq<Setup>
    /** Whether a call may fail and a process may die now. */
    var faults: bool

    constructor (count: nat)
      ensures Valid() && this.count == count
    {
      this.count := count;
      alive, devices, faults := seq(count, _ => false), seq(count, _ => map[]), true;
      setup := seq(count, _ => Setup(None, false, false));
    }

    ghost predicate Valid()
      reads this
    {
      |alive| == count && |devices| == count && |setup| == count && forall i :: 0 <= i < count ==> CleanDevice(devices[i])
    }

    /** Only interface `i` was touched, and its process was not started again. */
    twostate predicate Kept(i: nat)
      requires i < count && old(Valid()) && Valid()
      reads this
    {
      && alive == old(alive)[i := alive[i]] && devices == old(devices)[i := devices[i]]
      && setup == old(setup)[i := setup[i]]
      && (alive[i] ==> old(alive[i])) && (!faults ==> alive == old(alive))
    }

    method MayDie(i: nat)
      requires Valid() && i < count
      modifies `alive
      ensures Valid() && Kept(i)
    {
      var dies: bool := *;
      if faults && dies {
        alive := alive[i := false];
      }
    }

    /** `kill`: the process is on its way out. */
    method Kill(i: nat)
      requires Valid() && i < count
      modifies `alive
      ensures Valid() && devices == old(devices) && alive == old(alive)[i := alive[i]] && (alive[i] ==> old(alive[i]))
    {
      var dies: bool := *;
      alive := alive[i := alive[i] && !dies];
    }

    /** `start_process`: a new process has whatever device it finds, until it is configured. */
    method StartProcess(i: nat) returns (ok: bool)
      requires Valid() && i < count
      modifies `alive, `devices, `setup
      ensures Valid() && alive == old(alive)[i := alive[i]] && devices == old(devices)[i := devices[i]]
      ensures setup == old(setup)[i := setup[i]]
      ensures !ok ==> alive == old(alive) && devices == old(devices) && setup == old(setup)
      ensures !faults ==> ok && alive[i]
    {
      var fails: bool := *;
      if faults && fails {
        return false;
      }
      var peers: Peers := *;
      alive := alive[i := true];
      devices := devices[i := SomeClean(peers)];
      setup := setup[i := Setup(None, false, false)];
      MayDie(i);
      return true;
    }

    /** `uapi_set` of the device's own settings, which leave its peers alone. */
    method UapiSettings(i: nat, lines: seq<string>) returns (ok: bool)
      requires Valid() && i < count && CleanDevice(Interpret(devices[i], Lines(Body(lines))))
      modifies `alive, `devices, `setup
      ensures Valid() && Kept(i)
      ensures setup[i] == if ok then old(setup[i]).(settings := Some(lines)) else old(setup[i])
      ensures !faults && old(alive[i]) ==> ok
    {
      ok := UapiSet(i, Body(lines));
      if ok {
        setup := setup[i := setup[i].(settings := Some(lines))];
      }
    }

    method UapiSet(i: nat, body: string) returns (ok: bool)
      requires Valid() && i < count && CleanDevice(Interpret(devices[i], Lines(body)))
      modifies `alive, `devices
      ensures Valid() && Kept(i)
      ensures ok ==> devices[i] == Interpret(old(devices[i]), Lines(body))
      ensures !faults && old(alive[i]) ==> ok
    {
      MayDie(i);
      var fails: bool := *;
      if !alive[i] || (faults && fails) {
        var part: Peers := *;
        devices := devices[i := SomeClean(part)];
        return false;
      }
      devices := devices[i := Interpret(devices[i], Lines(body))];
      return true;
    }

    /** `uapi_get`: the device's own settings, then its peers in some order, each with counters the manager passes over. */
    method UapiGet(i: nat) returns (r: Option<string>)
      requires Valid() && i < count
      modifies `alive
      ensures Valid() && Kept(i) && devices == old(devices)
      ensures r.Some? ==> ParseUapi(Lines(r.value)) == devices[i]
      ensures !faults && old(alive[i]) ==> r.Some?
    {
      hide Reply, Lines, Body, Idle, CleanLines, CleanPeer, NoteLines;
      MayDie(i);
      var fails: bool := *;
      if !alive[i] || (faults && fails) {
        return None;
      }
      var settings: seq<string>, extra: seq<string> := *, *;
      if settings == [] || !CleanLines(settings) || !forall line <- settings :: Idle(line) {
        settings := ["errno=0"];
        PlainSetting();
      }
      if !CleanLines(extra) || !forall line <- extra :: Idle(line) {
        extra := [];
        NoLinesClean();
      }
      var keys := [];
      var todo := devices[i].Keys;
      while todo != {}
        invariant todo <= devices[i].Keys && forall key :: key in keys <==> key in devices[i].Keys - todo
      {
        var key :| key in todo;
        todo := todo - {key};
        keys := keys + [key];
      }
      var reply := Reply(settings, keys, devices[i], extra);
      CleanReply(settings, keys, devices[i], extra);
      LinesOfBody(reply);
      ReplyIsRead(settings, keys, devices[i], extra);
      assert (map key | key in keys :: devices[i][key]) == devices[i];
      return Some(Body(reply));
    }

    /** `ip`: the address of an interface, or its link. */
    method Ip(i: nat, step: IpStep) returns (ok: bool)
      requires Valid() && i < count
      modifies `alive, `setup
      ensures Valid() && Kept(i) && devices == old(devices)
      ensures setup[i] == if !ok then old(setup[i])
                          else if step.AddrReplace? then old(setup[i]).(address := true) else old(setup[i]).(link := true)
      ensures !faults ==> ok
    {
      MayDie(i);
      var fails: bool := *;
      if faults && fails {
        return false;
      }
      setup := setup[i := if step.AddrReplace? then setup[i].(address := true) else setup[i].(link := true)];
      return true;
    }
  }

  lemma PlainSetting()
    ensures Idle("errno=0") && CleanLines(["errno=0"])
  {
    hide SplitOnce;
    assert "errno=0" == "errno" + ['='] + "0";
    SplitOnceAt("errno", "0", '=');
  }

  lemma NoLinesClean()
    ensures CleanLines([])
  {
  }

  function CleanPart(p: Peer): Peer {
    Peer(if Clean(p.psk) then p.psk else "", if CleanLines(p.allowed) then p.allowed else [])
  }

  /** A device in any state at all. */
  function SomeClean(peers: Peers): (r: Peers)
    ensures CleanDevice(r) && (CleanDevice(peers) ==> r == peers)
  {
    map key | key in peers && Clean(key) && key != GONE :: CleanPart(peers[key])
  }
}
