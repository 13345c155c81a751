/** The AmneziaWG manager (awg_manager/src/service.rs): peers in a document, devices made to agree with it. */
module Manager {
  import opened Common
  import opened IpNet
  import opened Uapi
  import opened Pool
  import opened State
  import opened Node

  // ----- a device that agrees with the document ---------------------------------------------------

  /** The device has exactly the enabled peers of its version, each with its preshared key and single address. */
  ghost predicate Mirrors(device: Peers, peers: Table, v: string) {
    && (forall name <- peers :: peers[name].Active(v) ==>
          peers[name].publicKey in device && device[peers[name].publicKey] == peers[name].AsPeer())
    && (forall key <- device :: exists name <- peers :: peers[name].Active(v) && peers[name].publicKey == key)
  }

  ghost predicate AgreeOff(p: Table, q: Table, name: string) {
    forall other :: other != name ==> (other in p <==> other in q) && (other in p ==> p[other] == q[other])
  }

  ghost predicate ActiveAt(peers: Table, name: string, v: string) {
    name in peers && peers[name].Active(v)
  }

  ghost predicate KeysDistinct(peers: Table) {
    forall a <- peers, b <- peers :: a != b ==> Distinct(peers[a], peers[b])
  }

  /** A change to a peer that is on the device neither before nor after. */
  lemma MirrorsUnrelated(device: Peers, p: Table, q: Table, name: string, v: string)
    requires Mirrors(device, p, v) && AgreeOff(p, q, name)
    requires !ActiveAt(p, name, v) && !ActiveAt(q, name, v)
    ensures Mirrors(device, q, v)
  {
    forall key <- device ensures exists other <- q :: q[other].Active(v) && q[other].publicKey == key {
      var other :| other in p && p[other].Active(v) && p[other].publicKey == key;
      assert other in q;
    }
  }

  /** Taking a peer off the device. */
  lemma MirrorsDropped(device: Peers, p: Table, q: Table, name: string, v: string)
    requires Mirrors(device, p, v) && AgreeOff(p, q, name) && KeysDistinct(p)
    requires name in p && p[name].version == v && !ActiveAt(q, name, v)
    ensures Mirrors(device - {p[name].publicKey}, q, v)
  {
    var gone := p[name].publicKey;
    forall other <- q | q[other].Active(v) ensures q[other].publicKey != gone {
      assert Distinct(p[other], p[name]);
    }
    forall key <- device - {gone} ensures exists other <- q :: q[other].Active(v) && q[other].publicKey == key {
      var other :| other in p && p[other].Active(v) && p[other].publicKey == key;
      assert other in q;
    }
  }

  /** Putting a peer on the device. */
  lemma MirrorsAdded(device: Peers, p: Table, name: string, rec: Record, v: string)
    requires Mirrors(device, p, v) && !ActiveAt(p, name, v) && rec.Active(v)
    requires forall other <- p :: other != name ==> Distinct(p[other], rec)
    ensures Mirrors(device[rec.publicKey := rec.AsPeer()], p[name := rec], v)
  {
    var q, after := p[name := rec], device[rec.publicKey := rec.AsPeer()];
    forall other <- q | q[other].Active(v) && other != name ensures q[other].publicKey != rec.publicKey {
      assert Distinct(p[other], rec);
    }
    forall key <- after
      ensures exists other <- q :: q[other].Active(v) && q[other].publicKey == key
    {
      if key == rec.publicKey {
        assert q[name].Active(v);
      } else {
        var other :| other in p && p[other].Active(v) && p[other].publicKey == key;
        assert other in q;
      }
    }
  }

  /** Exchanging the keys of a peer on the device. */
  lemma MirrorsRotated(device: Peers, p: Table, name: string, rec: Record, v: string)
    requires Mirrors(device, p, v) && KeysDistinct(p)
    requires name in p && p[name].version == v && rec.version == v
    requires forall other <- p :: other != name ==> Distinct(p[other], rec)
    ensures rec.enabled ==> Mirrors((device - {p[name].publicKey})[rec.publicKey := rec.AsPeer()], p[name := rec], v)
    ensures !rec.enabled ==> Mirrors(device - {p[name].publicKey}, p[name := rec], v)
  {
    hide Mirrors, Distinct;
    var off := p[name := rec.(enabled := false)];
    MirrorsDropped(device, p, off, name, v);
    if rec.enabled {
      MirrorsAdded(device - {p[name].publicKey}, off, name, rec, v);
      assert off[name := rec] == p[name := rec];
    } else {
      assert off == p[name := rec];
    }
  }

  lemma EmptyMirrors(v: string)
    ensures Mirrors(AsPeers(map[]), map[], v)
  {
  }

  /** A stored record can be written into a script. */
  lemma RecordIsClean(peers: Table, nets: map<string, Ipv4Net>, name: string)
    requires Subnets(nets) && ValidTable(peers, nets) && name in peers
    ensures Clean(peers[name].publicKey) && Clean(peers[name].psk) && peers[name].publicKey != GONE
    ensures peers[name].version in nets ==> Clean(peers[name].address)
  {
    hide Clean, Fits, IsKey, Apart, Distinct;
    var rec := peers[name];
    assert GoodRecord(rec, nets);
    KeyIsClean(rec.publicKey);
    KeyIsClean(rec.psk);
    if rec.version in nets {
      FitsClean(nets[rec.version], rec.address);
    }
  }

  lemma KeysAreDistinct(peers: Table, nets: map<string, Ipv4Net>)
    requires Subnets(nets) && ValidTable(peers, nets)
    ensures KeysDistinct(peers)
  {
  }

  /** `desired`: the enabled peers of a version by key. Stored keys are valid, so reading them cannot fail. */
  method Desired(peers: Table, ghost nets: map<string, Ipv4Net>, v: string) returns (desired: map<string, Wanted>)
    requires Subnets(nets) && ValidTable(peers, nets) && v in nets
    ensures Mirrors(AsPeers(desired), peers, v)
    ensures CleanWants(desired) && GONE !in desired
  {
    hide Clean, ValidTable, Subnets, Mirrors, Distinct;
    KeysAreDistinct(peers, nets);
    EmptyMirrors(v);
    desired := map[];
    var todo := peers.Keys;
    assert peers - todo == map[];
    while todo != {}
      invariant todo <= peers.Keys
      invariant Mirrors(AsPeers(desired), peers - todo, v)
      invariant CleanWants(desired) && GONE !in desired
    {
      var name :| name in todo;
      var rec := peers[name];
      ghost var p, q := peers - todo, peers - (todo - {name});
      assert q == p[name := rec];
      if rec.Active(v) {
        MirrorsAdded(AsPeers(desired), p, name, rec, v);
        RecordIsClean(peers, nets, name);
        var w := Wanted(rec.psk, rec.address);
        assert AsPeers(desired[rec.publicKey := w]) == AsPeers(desired)[rec.publicKey := w.AsPeer()];
        desired := desired[rec.publicKey := w];
      } else {
        MirrorsUnrelated(AsPeers(desired), p, q, name, v);
      }
      todo := todo - {name};
    }
    assert peers - {} == peers;
  }

  // ----- instances ----------------------------------------------------------------------------------

  const FULL_RECONCILE_SECONDS := 30.0
  const DEVICE_READY_SECONDS := 10.0
  const STABLE_SECONDS := 60.0

  function Min(a: nat, b: nat): nat {
    if a < b then a else b
  }

  /** `backoff`. */
  function Backoff(failures: nat): nat {
    Min(30, Pow2(Min(if failures == 0 then 0 else failures - 1, 16)))
  }

  lemma {:induction false} Pow2Grows(a: nat, b: nat)
    requires a <= b
    ensures Pow2(a) <= Pow2(b)
    decreases b
  {
    if a < b {
      Pow2Grows(a, b - 1);
    }
  }

  /** Clamping the exponent never shows: the delay is `min(30, 2^(failures - 1))`, and it never shrinks. */
  lemma BackoffMeaning(failures: nat)
    requires failures >= 1
    ensures Backoff(failures) == Min(30, Pow2(failures - 1))
    ensures 1 <= Backoff(failures) <= Backoff(failures + 1) <= 30
  {
    assert Pow2(5) == 2 * Pow2(4) == 4 * Pow2(3) == 8 * Pow2(2) == 16 * Pow2(1) == 32 * Pow2(0);
    Pow2Grows(5, 16);
    if failures >= 6 {
      Pow2Grows(5, failures - 1);
      Pow2Grows(5, failures);
    }
    Pow2Grows(Min(failures - 1, 16), Min(failures, 16));
  }

  datatype Instance = Instance(started: bool, configured: bool, dirty: bool, failures: nat,
                               startedAt: real, nextStart: real, lastFull: real)

  const Unstarted := Instance(false, false, true, 0, 0.0, 0.0, 0.0)

  /** The manager believes the device is up to date, and its process runs. */
  ghost predicate Settled(inst: Instance, alive: bool) {
    inst.started && alive && inst.configured && !inst.dirty
  }

  ghost predicate InSync(inst: Instance, alive: bool, device: Peers, peers: Table, v: string) {
    Settled(inst, alive) ==> Mirrors(device, peers, v)
  }

  ghost predicate AllInSync(instances: seq<Instance>, alive: seq<bool>, devices: seq<Peers>, peers: Table,
                            versions: seq<string>)
    requires |instances| == |alive| == |devices| == |versions|
  {
    forall i :: 0 <= i < |versions| ==> InSync(instances[i], alive[i], devices[i], peers, versions[i])
  }

  /** A running process whose device is held for configured has its settings, its address and its link. */
  ghost predicate AllSetUp(instances: seq<Instance>, alive: seq<bool>, setup: seq<Setup>, settings: seq<seq<string>>)
    requires |instances| == |alive| == |setup| == |settings|
  {
    forall i :: 0 <= i < |settings| && instances[i].started && alive[i] && instances[i].configured ==>
      setup[i] == Setup(Some(settings[i]), true, true)
  }

  /** A supervision pass at `now` can make the device up to date. */
  ghost predicate Ready(inst: Instance, alive: bool, now: real) {
    if inst.started then alive else now >= inst.nextStart
  }

  datatype ApiError =
    | InvalidRequest | UnknownVersion | VersionDisabled | OperationConflict | UsernameTaken | PublicKeyInUse
    | PoolExhausted | NotFound | Internal

  const KNOWN_VERSIONS := {"1.5", "2.0", "3.1"}

  predicate IsUsername(text: string) {
    && 1 <= |text| <= 64
    && ('a' <= text[0] <= 'z' || '0' <= text[0] <= '9')
    && forall c <- text :: 'a' <= c <= 'z' || '0' <= c <= '9' || c in "._-"
  }

  predicate IsOperationId(text: string) {
    1 <= |text| <= 128 && forall c <- text :: 'a' <= c <= 'z' || 'A' <= c <= 'Z' || '0' <= c <= '9' || c in "._:-"
  }

  /** `key`: a key that is not all zeros. */
  predicate IsUsableKey(text: string) {
    IsKey(text) && text != NO_PSK
  }

  function IndexIn(versions: seq<string>, v: string): (r: Option<nat>)
    ensures r.Some? ==> r.value < |versions| && versions[r.value] == v
    ensures r.None? ==> v !in versions
  {
    if versions == [] then None
    else if versions[0] == v then Some(0)
    else match IndexIn(versions[1..], v) case None => None case Some(i) => Some(i + 1)
  }

  /** `pubkey_taken`. */
  predicate PubkeyTaken(peers: Table, version: string, public: string, except: Option<string>) {
    exists name <- peers :: peers[name].version == version && peers[name].publicKey == public && Some(name) != except
  }

  /** `replayed`: the user of an identical earlier operation that still exists. */
  function Replayed(doc: Doc, id: string, digest: Digest): Result<Option<string>, ApiError> {
    match Lookup(doc.operations, id)
    case None => Ok(None)
    case Some(known) =>
      if known.digest != digest then Err(OperationConflict)
      else Ok(if known.username in doc.peers then Some(known.username) else None)
  }

  /** The id was used for another request. */
  ghost predicate Conflicts(doc: Doc, id: string, digest: Digest) {
    exists e <- doc.operations :: e.id == id && e.digest != digest
  }

  /** This very request was carried out for a peer that still exists. */
  ghost predicate Repeats(doc: Doc, id: string, digest: Digest) {
    exists e <- doc.operations :: e.id == id && e.digest == digest && e.username in doc.peers
  }

  /** What `replayed` answers, over the operations on record. */
  lemma ReplayedMeaning(doc: Doc, id: string, digest: Digest)
    requires UniqueIds(doc.operations)
    ensures Replayed(doc, id, digest) == Err(OperationConflict) <==> Conflicts(doc, id, digest)
    ensures Replayed(doc, id, digest).Err? ==> Replayed(doc, id, digest) == Err(OperationConflict)
    ensures forall user :: Replayed(doc, id, digest) == Ok(Some(user)) <==>
                             Entry(id, digest, user) in doc.operations && user in doc.peers
    ensures Replayed(doc, id, digest) == Ok(None) <==> !Conflicts(doc, id, digest) && !Repeats(doc, id, digest)
  {
    var known := Lookup(doc.operations, id);
    if known.Some? {
      forall e <- doc.operations | e.id == id ensures e == known.value {
        OneEntry(doc.operations, e, known.value);
      }
    }
  }

  lemma OneEntry(operations: seq<Entry>, e: Entry, f: Entry)
    requires UniqueIds(operations) && e in operations && f in operations && e.id == f.id
    ensures e == f
  {
    var i :| 0 <= i < |operations| && operations[i] == e;
    var j :| 0 <= j < |operations| && operations[j] == f;
  }

  /** A device once it is told that the peer with key `gone`, if any, is now `rec`. */
  ghost function Told(device: Peers, gone: Option<string>, rec: Record): Peers {
    var rest := if gone.Some? then device - {gone.value} else device;
    if rec.enabled then rest[rec.publicKey := Wanted(rec.psk, rec.address).AsPeer()] else rest
  }

  lemma CleanWantedPeer(w: Wanted)
    requires Clean(w.psk) && Clean(w.address)
    ensures CleanPeer(w.AsPeer())
  {
    assert Clean("/32");
  }

  /** A table at rest under a pruned log. */
  lemma CommittedDoc(doc: Doc, nets: map<string, Ipv4Net>)
    requires Subnets(nets) && ValidTable(doc.peers, nets) && UniqueIds(doc.operations)
    ensures ValidDoc(doc.(operations := Newest(doc.operations)), nets)
  {
  }

  /** A change to a peer of version `v` does not concern the other devices. */
  lemma OtherVersions(device: Peers, p: Table, q: Table, name: string, v: string, other: string)
    requires Mirrors(device, p, other) && AgreeOff(p, q, name) && v != other
    requires (name in p ==> p[name].version == v) && (name in q ==> q[name].version == v)
    ensures Mirrors(device, q, other)
  {
    hide Mirrors;
    MirrorsUnrelated(device, p, q, name, other);
  }

  /** Writing a script for one peer keeps the device clean, and carries the device over to the changed table. */
  lemma AddScript(device: Peers, p: Table, name: string, rec: Record)
    requires CleanDevice(device) && Clean(rec.publicKey) && Clean(rec.psk) && Clean(rec.address) && rec.publicKey != GONE
    requires !ActiveAt(p, name, rec.version) && rec.enabled
    requires forall other <- p :: other != name ==> Distinct(p[other], rec)
    ensures var lines := PeerLines(rec.publicKey, Wanted(rec.psk, rec.address));
            && lines != [] && CleanLines(lines) && CleanDevice(Interpret(device, lines))
            && (Mirrors(device, p, rec.version) ==> Mirrors(Interpret(device, lines), p[name := rec], rec.version))
            && Interpret(device, lines) == Told(device, None, rec) == Told(device, Some(rec.publicKey), rec)
  {
    hide Clean, CleanPeer, Interpret, Mirrors, Distinct;
    var w := Wanted(rec.psk, rec.address);
    CleanPeerLines(rec.publicKey, w);
    CleanWantedPeer(w);
    InterpretSetting(device, rec.publicKey, w);
    if Mirrors(device, p, rec.version) {
      MirrorsAdded(device, p, name, rec, rec.version);
    }
  }

  lemma DropScript(device: Peers, p: Table, q: Table, name: string)
    requires CleanDevice(device) && KeysDistinct(p) && AgreeOff(p, q, name)
    requires name in p && Clean(p[name].publicKey) && p[name].publicKey != GONE && !ActiveAt(q, name, p[name].version)
    ensures var lines := RemoveLines(p[name].publicKey);
            && lines != [] && CleanLines(lines) && CleanDevice(Interpret(device, lines))
            && (Mirrors(device, p, p[name].version) ==> Mirrors(Interpret(device, lines), q, p[name].version))
            && Interpret(device, lines) == device - {p[name].publicKey}
  {
    hide Clean, CleanPeer, Interpret, Mirrors, Distinct, AgreeOff, KeysDistinct;
    CleanRemoveLines(p[name].publicKey);
    InterpretRemoval(device, p[name].publicKey);
    if Mirrors(device, p, p[name].version) {
      MirrorsDropped(device, p, q, name, p[name].version);
    }
  }

  /** The script of `rotate`: the old key goes, the new one comes if the peer is enabled. */
  function RotateLines(before: string, rec: Record): seq<string> {
    RemoveLines(before)
    + (if rec.enabled then PeerLines(rec.publicKey, Wanted(rec.psk, rec.address)) else [])
  }

  lemma RotateScript(device: Peers, p: Table, name: string, rec: Record)
    requires CleanDevice(device) && KeysDistinct(p) && forall other <- p :: other != name ==> Distinct(p[other], rec)
    requires Clean(rec.publicKey) && Clean(rec.psk) && Clean(rec.address) && rec.publicKey != GONE
    requires name in p && Clean(p[name].publicKey) && p[name].publicKey != GONE && p[name].version == rec.version
    ensures var lines := RotateLines(p[name].publicKey, rec);
            && lines != [] && CleanLines(lines) && CleanDevice(Interpret(device, lines))
            && (Mirrors(device, p, rec.version) ==> Mirrors(Interpret(device, lines), p[name := rec], rec.version))
            && Interpret(device, lines) == Told(device, Some(p[name].publicKey), rec)
  {
    hide Clean, CleanPeer, Interpret, Mirrors, Distinct, KeysDistinct, PeerLines, RemoveLines;
    var gone := p[name].publicKey;
    var w := Wanted(rec.psk, rec.address);
    CleanRemoveLines(gone);
    RemoveNotEmpty(gone);
    InterpretRemoval(device, gone);
    CleanPeerLines(rec.publicKey, w);
    CleanWantedPeer(w);
    InterpretReplacing(device, gone, rec.publicKey, w);
    assert RemoveLines(gone) + [] == RemoveLines(gone);
    if Mirrors(device, p, rec.version) {
      MirrorsRotated(device, p, name, rec, rec.version);
    }
  }

  predicate SettingsOnly(lines: seq<string>) {
    lines != [] && CleanLines(lines) && forall n :: 0 <= n < |lines| ==> NamesNoPeer(lines[n])
  }

  /** A configuration that passed its checks: distinct versions, each with a subnet, and settings that name no peer. */
  ghost predicate Configuration(versions: seq<string>, subnets: map<string, Ipv4Net>, settings: seq<seq<string>>) {
    && Subnets(subnets)
    && (forall i, j :: 0 <= i < j < |versions| ==> versions[i] != versions[j])
    && (forall i :: 0 <= i < |versions| ==> versions[i] in subnets)
    && (forall v <- subnets :: v in versions)
    && |settings| == |versions|
    && forall i :: 0 <= i < |settings| ==> SettingsOnly(settings[i])
  }

  class AwgManager {
    /** The enabled protocol versions in their configured order, and their subnets. */
    const versions: seq<string>
    const subnets: map<string, Ipv4Net>
    /** The device settings of each version: its key, port and obfuscation. */
    const settings: seq<seq<string>>
    const host: Interfaces
    const store: StateStore
    var instances: seq<Instance>

    /** `new` and the load of `bootstrap`, from a file with a valid document. */
    constructor (versions: seq<string>, subnets: map<string, Ipv4Net>, settings: seq<seq<string>>, disk: Doc)
      requires Configuration(versions, subnets, settings) && ValidDoc(disk, subnets)
      ensures Inv() && fresh(host) && fresh(store) && store.doc == disk
    {
      this.versions, this.subnets, this.settings := versions, subnets, settings;
      host := new Interfaces(|versions|);
      store := new StateStore(disk);
      instances := seq(|versions|, _ => Unstarted);
    }

    /** Everything but the devices' agreement with the document. */
    ghost predicate Base()
      reads this, host, store
    {
      && Configuration(versions, subnets, settings)
      && host.Valid() && host.count == |versions| == |instances| == |settings|
      && ValidDoc(store.doc, subnets) && ValidDoc(store.disk, subnets)
      && AllSetUp(instances, host.alive, host.setup, settings)
    }

    /** The invariant of every run: whenever the manager believes a running device is up to date, it is. */
    ghost predicate Inv()
      reads this, host, store
    {
      Base() && AllInSync(instances, host.alive, host.devices, store.doc.peers, versions)
    }

    // ----- supervision ------------------------------------------------------------------------

    /** The device is read, compared, and told what differs. */
    method SyncDevice(i: nat) returns (ok: bool)
      requires Base() && i < |versions|
      modifies host`alive, host`devices
      ensures Base() && host.Kept(i)
      ensures ok ==> Mirrors(host.devices[i], store.doc.peers, versions[i])
      ensures !host.faults && old(host.alive[i]) ==> ok
    {
      hide Lines, Body, ParseUapi, Interpret, ValidDoc, Subnets, Mirrors, CleanDevice, CleanWants, SettingsOnly;
      var reply := host.UapiGet(i);
      if reply.None? {
        return false;
      }
      var live := ParseUapi(Lines(reply.value));
      var desired := WantedPeers(i);
      LiveDevice(live);
      var lines := ReconcileScript(live, desired);
      if lines == [] {
        return true;
      }
      LinesOfBody(lines);
      CleanDesired(desired);
      ok := host.UapiSet(i, Body(lines));
    }

    method ReconcilePeers(i: nat, now: real)
      requires Base() && i < |versions|
      modifies `instances, host`alive, host`devices
      ensures Base() && host.Kept(i) && InSync(instances[i], host.alive[i], host.devices[i], store.doc.peers, versions[i])
      ensures instances == old(instances)[i := instances[i]]
      ensures instances[i].started == old(instances[i].started)
      ensures !host.faults && old(host.alive[i]) ==>
                && instances[i].configured == old(instances[i].configured) && !instances[i].dirty
                && instances[i].lastFull == now
    {
      hide ValidDoc, Configuration, Mirrors, CleanDevice;
      var ok := SyncDevice(i);
      var inst := instances[i];
      instances := instances[i := if ok then inst.(dirty := false, lastFull := now) else inst.(configured := false)];
    }

    method WantedPeers(i: nat) returns (desired: map<string, Wanted>)
      requires Base() && i < |versions|
      ensures Mirrors(AsPeers(desired), store.doc.peers, versions[i])
      ensures CleanWants(desired) && GONE !in desired
    {
      hide Mirrors, CleanWants, Subnets;
      desired := Desired(store.doc.peers, subnets, versions[i]);
    }

    /** The settings, the address and the link of a device; one that stays silent too long is killed. */
    method BringUp(i: nat, now: real) returns (ok: bool)
      requires Base() && i < |versions| && !instances[i].configured
      modifies host`alive, host`devices, host`setup
      ensures Base() && host.Kept(i)
      ensures ok ==> host.setup[i] == Setup(Some(settings[i]), true, true)
      ensures !host.faults && old(host.alive[i]) ==> ok
    {
      hide Lines, Body, Interpret, ValidDoc, Subnets, CleanDevice, SettingsOnly;
      SettingsScript(host.devices[i], settings[i]);
      ok := host.UapiSettings(i, settings[i]);
      if !ok {
        if now - instances[i].startedAt > DEVICE_READY_SECONDS {
          host.Kill(i);
        }
        return;
      }
      ok := host.Ip(i, AddrReplace);
      if ok {
        ok := host.Ip(i, LinkUp);
      }
    }

    method Configure(i: nat, now: real)
      requires Base() && i < |versions| && instances[i].started && !instances[i].configured
      modifies `instances, host`alive, host`devices, host`setup
      ensures Base() && host.Kept(i) && InSync(instances[i], host.alive[i], host.devices[i], store.doc.peers, versions[i])
      ensures instances == old(instances)[i := instances[i]] && instances[i].started
      ensures !host.faults && old(host.alive[i]) ==>
                instances[i].configured && !instances[i].dirty && instances[i].lastFull == now
    {
      hide Configuration, ValidDoc, Mirrors, CleanDevice;
      var ok := BringUp(i, now);
      if !ok {
        return;
      }
      instances := instances[i := instances[i].(configured := true)];
      ReconcilePeers(i, now);
    }

    /** A process that died is noted, and may start again after its delay. */
    method Reap(i: nat, now: real)
      requires Inv() && i < |versions|
      modifies `instances
      ensures Inv() && instances == old(instances)[i := instances[i]] && (instances[i].started ==> host.alive[i])
      ensures old(!instances[i].started || host.alive[i]) ==> instances == old(instances)
      ensures old(instances[i].started && !host.alive[i]) ==>
                && !instances[i].started && instances[i].nextStart == now + Backoff(instances[i].failures) as real
                && instances[i].failures
                   == old(if now - instances[i].startedAt > STABLE_SECONDS then 0 else instances[i].failures) + 1
                && now < instances[i].nextStart
    {
      hide ValidDoc, Configuration, Mirrors, CleanDevice, Backoff;
      var inst := instances[i];
      if inst.started && !host.alive[i] {
        var failures := (if now - inst.startedAt > STABLE_SECONDS then 0 else inst.failures) + 1;
        BackoffMeaning(failures);
        instances := instances[i := inst.(failures := failures, started := false, configured := false,
                                          nextStart := now + Backoff(failures) as real)];
      }
    }

    /** A process is started, or another try is put off. */
    method Launch(i: nat, now: real) returns (ok: bool)
      requires Inv() && i < |versions| && !instances[i].started
      modifies `instances, host`alive, host`devices, host`setup
      ensures Inv() && instances == old(instances)[i := instances[i]]
      ensures host.alive == old(host.alive)[i := host.alive[i]] && host.devices == old(host.devices)[i := host.devices[i]]
      ensures host.setup == old(host.setup)[i := host.setup[i]]
      ensures ok ==> instances[i].started && !instances[i].configured && (!host.faults ==> host.alive[i])
      ensures !ok ==>
                && !instances[i].started && instances[i].failures == old(instances[i].failures) + 1
                && instances[i].nextStart == now + Backoff(instances[i].failures) as real
      ensures !host.faults ==> ok
    {
      hide ValidDoc, Configuration, Mirrors, CleanDevice, Backoff;
      var inst := instances[i];
      ok := host.StartProcess(i);
      instances := instances[i := if ok then inst.(started := true, startedAt := now, configured := false, dirty := true)
                                  else inst.(failures := inst.failures + 1,
                                             nextStart := now + Backoff(inst.failures + 1) as real)];
    }

    method Supervise(i: nat, now: real)
      requires Inv() && i < |versions|
      modifies `instances, host`alive, host`devices, host`setup
      ensures Inv()
      ensures instances == old(instances)[i := instances[i]]
      ensures host.alive == old(host.alive)[i := host.alive[i]] && host.devices == old(host.devices)[i := host.devices[i]]
      ensures host.setup == old(host.setup)[i := host.setup[i]]
      ensures !host.faults && old(Ready(instances[i], host.alive[i], now)) ==>
                Settled(instances[i], host.alive[i]) && now - instances[i].lastFull < FULL_RECONCILE_SECONDS
      ensures old(instances[i].started && !host.alive[i]) ==>
                && !instances[i].started && instances[i].nextStart == now + Backoff(instances[i].failures) as real
                && instances[i].failures
                   == old(if now - instances[i].startedAt > STABLE_SECONDS then 0 else instances[i].failures) + 1
      ensures old(!instances[i].started && now < instances[i].nextStart) ==>
                instances == old(instances) && host.alive == old(host.alive) && host.devices == old(host.devices)
      ensures old(!instances[i].started && now >= instances[i].nextStart) && !instances[i].started ==>
                && instances[i].failures == old(instances[i].failures) + 1
                && instances[i].nextStart == now + Backoff(instances[i].failures) as real
    {
      hide ValidDoc, Configuration, Mirrors, CleanDevice, Backoff;
      Reap(i, now);
      if !instances[i].started {
        if now < instances[i].nextStart {
          return;
        }
        var ok := Launch(i, now);
        if !ok {
          return;
        }
      }
      if !instances[i].configured {
        Configure(i, now);
      } else if instances[i].dirty || now - instances[i].lastFull >= FULL_RECONCILE_SECONDS {
        ReconcilePeers(i, now);
      }
    }

    /** One supervision pass. When nothing fails, every device that can be brought up to date is. */
    method Tick(now: real)
      requires Inv()
      modifies `instances, host`alive, host`devices, host`setup
      ensures Inv()
      ensures !host.faults ==> forall i: nat :: i < |versions| ==>
                old(Ready(instances[i], host.alive[i], now)) ==>
                  Settled(instances[i], host.alive[i]) && Mirrors(host.devices[i], store.doc.peers, versions[i])
    {
      hide ValidDoc, Configuration, Mirrors, CleanDevice, Ready;
      for i := 0 to |versions|
        invariant Inv() && |instances| == |versions|
        invariant forall j :: i <= j < |versions| ==> instances[j] == old(instances[j]) && host.alive[j] == old(host.alive[j])
        invariant !host.faults ==> forall j :: 0 <= j < i ==>
                    old(Ready(instances[j], host.alive[j], now)) ==> Settled(instances[j], host.alive[j])
      {
        Supervise(i, now);
      }
    }

    // ----- changing the document --------------------------------------------------------------

    /** What a script for device `i` has to do so that the devices agree with the document as they did with `before`. */
    ghost predicate Carries(before: Table, i: Option<nat>, lines: seq<string>)
      requires Base()
      reads this, host, store
    {
      && (forall j: nat :: j < |versions| && i != Some(j) ==>
            Mirrors(host.devices[j], before, versions[j]) ==> Mirrors(host.devices[j], store.doc.peers, versions[j]))
      && (i.Some? ==>
            && i.value < |versions| && lines != [] && CleanLines(lines)
            && CleanDevice(Interpret(host.devices[i.value], lines))
            && (Mirrors(host.devices[i.value], before, versions[i.value]) ==>
                  Mirrors(Interpret(host.devices[i.value], lines), store.doc.peers, versions[i.value])))
    }

    /** `live_change`: tell the device at once if it can be told; otherwise a later pass will. */
    method LiveChange(i: Option<nat>, lines: seq<string>, ghost before: Table)
      requires Base() && AllInSync(instances, host.alive, host.devices, before, versions) && Carries(before, i, lines)
      modifies `instances, host`alive, host`devices
      ensures Inv() && (i.None? ==> host.devices == old(host.devices))
      ensures i.Some? && !host.faults && old(instances[i.value].configured && host.alive[i.value]) ==>
                && instances == old(instances)
                && host.devices == old(host.devices)[i.value := Interpret(old(host.devices[i.value]), lines)]
    {
      hide ValidDoc, Configuration, Mirrors, CleanDevice, Interpret, Lines, Body, CleanLines;
      if i.None? {
        return;
      }
      var inst := instances[i.value];
      if !inst.configured || lines == [] {
        return;
      }
      LinesOfBody(lines);
      var ok := host.UapiSet(i.value, Body(lines));
      if !ok {
        instances := instances[i.value := inst.(dirty := true)];
      }
    }

    /** `commit`: the new document in memory and on disk, or the old one in memory. */
    method Commit(doc: Doc) returns (ok: bool)
      requires Base() && ValidTable(doc.peers, subnets) && UniqueIds(doc.operations)
      modifies store`doc, store`disk
      ensures Base()
      ensures store.doc == if ok then doc.(operations := Newest(doc.operations)) else old(store.doc)
      ensures !store.faults ==> ok
    {
      hide ValidTable, Subnets, UniqueIds, Newest;
      var snapshot := store.doc;
      CommittedDoc(doc, subnets);
      store.doc := doc;
      ok := store.Save();
      if !ok {
        store.doc := snapshot;
      }
    }

    /** A script that carries its own device carries them all: the others serve other versions. */
    lemma CarriesAt(before: Table, name: string, v: string, lines: seq<string>)
      requires Base() && AgreeOff(before, store.doc.peers, name)
      requires (name in before ==> before[name].version == v)
      requires (name in store.doc.peers ==> store.doc.peers[name].version == v)
      requires IndexIn(versions, v).Some? ==>
                 var device := host.devices[IndexIn(versions, v).value];
                 && lines != [] && CleanLines(lines) && CleanDevice(Interpret(device, lines))
                 && (Mirrors(device, before, v) ==> Mirrors(Interpret(device, lines), store.doc.peers, v))
      ensures Carries(before, IndexIn(versions, v), lines)
    {
      hide Mirrors, CleanDevice, CleanLines, Interpret, ValidDoc, AgreeOff;
      var i := IndexIn(versions, v);
      forall j: nat | j < |versions| && i != Some(j) && Mirrors(host.devices[j], before, versions[j])
        ensures Mirrors(host.devices[j], store.doc.peers, versions[j])
      {
        OtherVersions(host.devices[j], before, store.doc.peers, name, v, versions[j]);
      }
    }

    // ----- peer operations --------------------------------------------------------------------

    /** A create request in good form for a version this node serves. */
    ghost predicate Proper(id: string, username: string, version: string, public: string, psk: string) {
      && IsOperationId(id) && IsUsername(username) && IsUsableKey(public) && IsUsableKey(psk)
      && version in KNOWN_VERSIONS && version in versions
    }

    /** A peer of the version other than `except` has the key. */
    ghost predicate KeyInUse(version: string, public: string, except: Option<string>)
      reads store
    {
      exists name <- store.doc.peers ::
        && store.doc.peers[name].version == version && store.doc.peers[name].publicKey == public && Some(name) != except
    }

    /** A create request that nothing stands against but the size of the pool. */
    ghost predicate Admissible(id: string, username: string, version: string, public: string, psk: string)
      reads store
    {
      var digest := Digest.Create(username, version, public, psk);
      && Proper(id, username, version, public, psk)
      && !Conflicts(store.doc, id, digest) && !Repeats(store.doc, id, digest)
      && username !in store.doc.peers && !KeyInUse(version, public, None)
    }

    /** The device of a version is configured and running. */
    ghost predicate Listening(version: string)
      reads this, host
    {
      var i := IndexIn(versions, version);
      && i.Some? && i.value < |instances| && i.value < |host.alive| && i.value < |host.devices|
      && instances[i.value].configured && host.alive[i.value]
    }

    /** The device of a version that was listening is now `device`, and every other is as it was. */
    twostate predicate Heard(version: string, device: Peers)
      requires old(Listening(version))
      reads host
    {
      host.devices == old(host.devices)[IndexIn(versions, version).value := device]
    }

    ghost function DeviceOf(version: string): Peers
      requires Listening(version)
      reads this, host
    {
      host.devices[IndexIn(versions, version).value]
    }

    ghost predicate PoolFull(version: string)
      requires Configuration(versions, subnets, settings) && version in versions
      reads store
    {
      |Members(store.doc.peers, version)| == subnets[version].Size() - 3
    }

    /** The lowest address of the subnet that `peers` leave free. */
    ghost predicate Lowest(peers: Table, version: string, address: string)
      requires Configuration(versions, subnets, settings) && version in versions
    {
      && Fits(subnets[version], address) && address !in Used(peers, version)
      && exists x: nat :: x < ADDRESSES && FormatV4(x) == address && subnets[version].Gateway() < x
                          && Span(subnets[version].Gateway() + 1, x) <= Used(peers, version)
    }

    /** Commit a peer that nothing stands against, then tell its device. */
    method Admit(username: string, rec: Record, e: Entry) returns (ok: bool)
      requires Inv() && username !in store.doc.peers && rec.version in versions && rec.enabled
      requires IsKey(rec.publicKey) && IsKey(rec.psk) && Fits(subnets[rec.version], rec.address)
      requires !PubkeyTaken(store.doc.peers, rec.version, rec.publicKey, None)
      requires rec.address !in Used(store.doc.peers, rec.version)
      modifies `instances, host`alive, host`devices, store`doc, store`disk
      ensures Inv()
      ensures store.doc == if ok then Doc(old(store.doc.peers)[username := rec], Newest(Insert(old(store.doc.operations), e)))
                           else old(store.doc)
      ensures !store.faults ==> ok
      ensures ok && !host.faults && old(Listening(rec.version)) ==>
                Heard(rec.version, Told(old(DeviceOf(rec.version)), None, rec))
    {
      hide ValidTable, Subnets, Mirrors, CleanDevice, Interpret, CleanLines, UniqueIds, FormatV4, Fits, Span, Used, Told;
      hide IsKey, SettingsOnly, Insert, Newest, PeerLines, AllInSync, Distinct, PubkeyTaken;
      ghost var before := store.doc.peers;
      NewRecord(before, subnets, username, rec);
      InsertUnique(store.doc.operations, e);
      ok := Commit(Doc(store.doc.peers[username := rec], Insert(store.doc.operations, e)));
      if !ok {
        return;
      }
      var i := IndexIn(versions, rec.version);
      AddScript(host.devices[i.value], before, username, rec);
      var lines := PeerLines(rec.publicKey, Wanted(rec.psk, rec.address));
      CarriesAt(before, username, rec.version, lines);
      LiveChange(i, lines, before);
    }

    method CreatePeer(id: string, username: string, version: string, public: string, psk: string)
      returns (r: Result<nat, ApiError>)
      requires Inv()
      modifies `instances, host`alive, host`devices, store`doc, store`disk
      ensures Inv()
      ensures r.Err? || r == Ok(200) ==> store.doc == old(store.doc)
      ensures r.Ok? ==> r.value == 200 || r.value == 201
      ensures r == Err(OperationConflict) <==>
                && Proper(id, username, version, public, psk)
                && old(Conflicts(store.doc, id, Digest.Create(username, version, public, psk)))
      ensures r == Ok(200) <==>
                && Proper(id, username, version, public, psk)
                && old(!Conflicts(store.doc, id, Digest.Create(username, version, public, psk)))
                && old(Repeats(store.doc, id, Digest.Create(username, version, public, psk)))
      ensures r == Err(PoolExhausted) <==> old(Admissible(id, username, version, public, psk)) && old(PoolFull(version))
      ensures r == Ok(201) || (store.faults && r == Err(Internal)) <==>
                old(Admissible(id, username, version, public, psk) && !PoolFull(version))
      ensures r == Ok(201) ==>
                && username in store.doc.peers
                && store.doc.peers == old(store.doc.peers)[username := store.doc.peers[username]]
                && store.doc.peers[username]
                   == Record(version, public, psk, store.doc.peers[username].address, true, 1, id)
                && Lowest(old(store.doc.peers), version, store.doc.peers[username].address)
                && Entry(id, Digest.Create(username, version, public, psk), username) in store.doc.operations
      ensures r == Ok(201) && !host.faults && old(Listening(version)) ==>
                Heard(version, Told(old(DeviceOf(version)), None, store.doc.peers[username]))
    {
      hide ValidTable, Subnets, Mirrors, CleanDevice, Interpret, CleanLines, UniqueIds, FormatV4, Fits, Span, Used;
      hide IsOperationId, IsUsername, IsKey, SettingsOnly, Members, Lookup, Insert, Newest, PeerLines, AllInSync;
      hide Told, Conflicts, Repeats, Replayed;
      if !IsOperationId(id) || !IsUsername(username) || !IsUsableKey(public) || !IsUsableKey(psk) {
        return Err(InvalidRequest);
      }
      if version !in KNOWN_VERSIONS {
        return Err(UnknownVersion);
      }
      var i := IndexIn(versions, version);
      if i.None? {
        return Err(VersionDisabled);
      }
      var digest := Digest.Create(username, version, public, psk);
      ReplayedMeaning(store.doc, id, digest);
      var again := Replayed(store.doc, id, digest);
      if again.Err? {
        return Err(again.error);
      }
      if again.value.Some? {
        return Ok(200);
      }
      if username in store.doc.peers {
        return Err(UsernameTaken);
      }
      if PubkeyTaken(store.doc.peers, version, public, None) {
        return Err(PublicKeyInUse);
      }
      var address := FreeAddress(store.doc.peers, subnets, version);
      if address.None? {
        return Err(PoolExhausted);
      }
      var rec := Record(version, public, psk, address.value, true, 1, id);
      InsertedIsKept(store.doc.operations, Entry(id, digest, username));
      var ok := Admit(username, rec, Entry(id, digest, username));
      if !ok {
        return Err(Internal);
      }
      return Ok(201);
    }

    method SetEnabled(username: string, enabled: bool) returns (r: Result<(), ApiError>)
      requires Inv()
      modifies `instances, host`alive, host`devices, store`doc, store`disk
      ensures Inv()
      ensures r == Err(NotFound) <==> username !in old(store.doc.peers)
      ensures r == Err(VersionDisabled) <==>
                enabled && username in old(store.doc.peers) && old(store.doc.peers)[username].version !in versions
      ensures r.Err? ==> store.doc == old(store.doc) && (r.error == Internal ==> store.faults)
      ensures r.Err? ==> r.error in {NotFound, VersionDisabled, Internal}
      ensures r.Ok? ==>
                var rec := old(store.doc.peers)[username];
                && store.doc == old(store.doc).(peers := old(store.doc.peers)[username := Switched(rec, enabled)])
                && store.doc.peers[username]
                   == (if rec.enabled == enabled then rec else rec.(enabled := enabled, revision := rec.revision + 1))
                && (!host.faults && old(Listening(rec.version)) ==>
                      Heard(rec.version,
                            if rec.enabled == enabled then old(DeviceOf(rec.version))
                            else Told(old(DeviceOf(rec.version)), Some(rec.publicKey), Switched(rec, enabled))))
    {
      hide ValidTable, Subnets, Mirrors, CleanDevice, Interpret, CleanLines, UniqueIds;
      hide SettingsOnly, Insert, PeerLines, RemoveLines, AllInSync, Clean;
      if username !in store.doc.peers {
        return Err(NotFound);
      }
      var rec := store.doc.peers[username];
      var i := IndexIn(versions, rec.version);
      if enabled && i.None? {
        return Err(VersionDisabled);
      }
      ghost var before := store.doc.peers;
      if rec.enabled == enabled {
        assert before[username := rec] == before;
        return Ok(());
      }
      SwitchedRecord(before, subnets, username, enabled);
      var ok := Commit(store.doc.(peers := store.doc.peers[username := Switched(rec, enabled)]));
      if !ok {
        return Err(Internal);
      }
      RecordIsClean(before, subnets, username);
      var lines := if enabled then PeerLines(rec.publicKey, Wanted(rec.psk, rec.address)) else RemoveLines(rec.publicKey);
      if i.Some? {
        if enabled {
          AddScript(host.devices[i.value], before, username, Switched(rec, enabled));
        } else {
          KeysAreDistinct(before, subnets);
          DropScript(host.devices[i.value], before, store.doc.peers, username);
        }
      }
      CarriesAt(before, username, rec.version, lines);
      LiveChange(i, lines, before);
      return Ok(());
    }

    method Rotate(username: string, id: string, public: string, psk: string) returns (r: Result<(), ApiError>)
      requires Inv()
      modifies `instances, host`alive, host`devices, store`doc, store`disk
      ensures Inv()
      ensures r.Err? ==> store.doc == old(store.doc)
      ensures r == Err(OperationConflict) <==>
                && IsOperationId(id) && IsUsableKey(public) && IsUsableKey(psk) && username in old(store.doc.peers)
                && old(Conflicts(store.doc, id, Digest.Rotate(username, public, psk)))
      ensures r.Ok? || (r == Err(Internal) && store.faults) <==>
                && IsOperationId(id) && IsUsableKey(public) && IsUsableKey(psk) && username in old(store.doc.peers)
                && old(!Conflicts(store.doc, id, Digest.Rotate(username, public, psk)))
                && (old(Repeats(store.doc, id, Digest.Rotate(username, public, psk)))
                    || old(!KeyInUse(store.doc.peers[username].version, public, Some(username))))
      ensures r.Ok? ==> username in old(store.doc.peers)
      ensures r.Ok? && old(Repeats(store.doc, id, Digest.Rotate(username, public, psk))) ==> store.doc == old(store.doc)
      ensures r.Ok? && old(!Repeats(store.doc, id, Digest.Rotate(username, public, psk))) ==>
                var rec := Rotated(old(store.doc.peers)[username], public, psk, id);
                && store.doc.peers == old(store.doc.peers)[username := rec]
                && (var was := old(store.doc.peers)[username];
                    rec == was.(publicKey := public, psk := psk, operationId := id, revision := was.revision + 1))
                && Entry(id, Digest.Rotate(username, public, psk), username) in store.doc.operations
                && (!host.faults && old(Listening(rec.version)) ==>
                      Heard(rec.version, Told(old(DeviceOf(rec.version)), Some(old(store.doc.peers)[username].publicKey), rec)))
    {
      hide ValidTable, Subnets, Mirrors, CleanDevice, Interpret, CleanLines, UniqueIds, IsKey, IsOperationId;
      hide SettingsOnly, Insert, Lookup, Newest, RotateLines, AllInSync, Clean, KeysDistinct, Distinct;
      hide Told, Conflicts, Repeats, Replayed;
      if !IsOperationId(id) || !IsUsableKey(public) || !IsUsableKey(psk) {
        return Err(InvalidRequest);
      }
      if username !in store.doc.peers {
        return Err(NotFound);
      }
      var rec := store.doc.peers[username];
      var i := IndexIn(versions, rec.version);
      var digest := Digest.Rotate(username, public, psk);
      ReplayedMeaning(store.doc, id, digest);
      var again := Replayed(store.doc, id, digest);
      if again.Err? {
        return Err(again.error);
      }
      if again.value.Some? {
        return Ok(());
      }
      if PubkeyTaken(store.doc.peers, rec.version, public, Some(username)) {
        return Err(PublicKeyInUse);
      }
      ghost var before := store.doc.peers;
      var next := Rotated(rec, public, psk, id);
      RotatedRecord(before, subnets, username, public, psk, id);
      InsertUnique(store.doc.operations, Entry(id, digest, username));
      InsertedIsKept(store.doc.operations, Entry(id, digest, username));
      var ok := Commit(Doc(store.doc.peers[username := next], Insert(store.doc.operations, Entry(id, digest, username))));
      if !ok {
        return Err(Internal);
      }
      RecordIsClean(before, subnets, username);
      RecordIsClean(store.doc.peers, subnets, username);
      KeysAreDistinct(before, subnets);
      var lines := RotateLines(rec.publicKey, next);
      if i.Some? {
        RotateScript(host.devices[i.value], before, username, next);
      }
      CarriesAt(before, username, rec.version, lines);
      LiveChange(i, lines, before);
      return Ok(());
    }

    method DeletePeer(username: string) returns (r: Result<(), ApiError>)
      requires Inv()
      modifies `instances, host`alive, host`devices, store`doc, store`disk
      ensures Inv()
      ensures r == Err(NotFound) <==> username !in old(store.doc.peers)
      ensures r.Err? ==> store.doc == old(store.doc) && (r.error == NotFound || (store.faults && r.error == Internal))
      ensures r.Ok? ==>
                var rec := old(store.doc.peers)[username];
                && store.doc == old(store.doc).(peers := old(store.doc.peers) - {username})
                && (!host.faults && old(Listening(rec.version)) ==>
                      Heard(rec.version, if rec.enabled then old(DeviceOf(rec.version)) - {rec.publicKey}
                                         else old(DeviceOf(rec.version))))
    {
      hide ValidTable, Subnets, Mirrors, CleanDevice, Interpret, CleanLines, UniqueIds;
      hide SettingsOnly, Insert, RemoveLines, AllInSync, Clean, KeysDistinct;
      if username !in store.doc.peers {
        return Err(NotFound);
      }
      var rec := store.doc.peers[username];
      var i := IndexIn(versions, rec.version);
      ghost var before := store.doc.peers;
      DropRecord(before, subnets, username);
      var ok := Commit(store.doc.(peers := store.doc.peers - {username}));
      if !ok {
        return Err(Internal);
      }
      if rec.enabled {
        RecordIsClean(before, subnets, username);
        KeysAreDistinct(before, subnets);
        if i.Some? {
          DropScript(host.devices[i.value], before, store.doc.peers, username);
        }
        CarriesAt(before, username, rec.version, RemoveLines(rec.publicKey));
        LiveChange(i, RemoveLines(rec.publicKey), before);
      } else {
        NeverOn(before, username);
      }
      return Ok(());
    }

    /** Deleting a peer that was disabled leaves every device as it should be. */
    lemma NeverOn(before: Table, name: string)
      requires Base() && AllInSync(instances, host.alive, host.devices, before, versions)
      requires name in before && !before[name].enabled && store.doc.peers == before - {name}
      ensures Inv()
    {
      hide Mirrors, ValidDoc, Configuration, CleanDevice;
      forall j | 0 <= j < |versions| && Mirrors(host.devices[j], before, versions[j])
        ensures Mirrors(host.devices[j], store.doc.peers, versions[j])
      {
        MirrorsUnrelated(host.devices[j], before, store.doc.peers, name, versions[j]);
      }
    }

    /** `shutdown`: every process is let go of. */
    method Shutdown()
      requires Inv()
      modifies `instances
      ensures Inv() && forall inst <- instances :: !inst.started && !inst.configured
    {
      hide Mirrors, ValidDoc, Configuration, CleanDevice;
      for i := 0 to |instances|
        invariant Inv() && forall j :: 0 <= j < i ==> !instances[j].started && !instances[j].configured
      {
        instances := instances[i := instances[i].(configured := false, started := false)];
      }
    }

    /** The manager starts again: everything it knows is what the file says. */
    method Restart()
      requires Inv()
      modifies `instances, store`doc
      ensures Inv() && store.doc.peers == store.disk.peers
    {
      hide Mirrors, ValidTable, Subnets, SettingsOnly, CleanDevice, Lookup;
      store.Load(subnets);
      instances := seq(|versions|, _ => Unstarted);
    }

    /** What happens next. */
    method Step(op: Operation)
      requires Inv()
      modifies this, host, store
      ensures Inv()
    {
      hide Mirrors, ValidDoc, Configuration, CleanDevice, Lowest, Admissible, PoolFull, Replayed;
      match op
      case Create(id, username, version, public, psk) => var _ := CreatePeer(id, username, version, public, psk);
      case Enable(username, enabled) => var _ := SetEnabled(username, enabled);
      case Rotate(username, id, public, psk) => var _ := Rotate(username, id, public, psk);
      case Delete(username) => var _ := DeletePeer(username);
      case Tick(now) => Tick(now);
      case Shutdown => Shutdown();
      case Restart => Restart();
      case Weather(files, calls) => store.faults, host.faults := files, calls;
      case Die(i) =>
        if i < host.count {
          host.alive := host.alive[i := false];
        }
    }
  }

  function Switched(rec: Record, enabled: bool): Record {
    if rec.enabled == enabled then rec else rec.(enabled := enabled, revision := rec.revision + 1)
  }

  function Rotated(rec: Record, public: string, psk: string, id: string): Record {
    rec.(publicKey := public, psk := psk, operationId := id, revision := rec.revision + 1)
  }

  lemma SwitchedRecord(peers: Table, nets: map<string, Ipv4Net>, name: string, enabled: bool)
    requires Subnets(nets) && ValidTable(peers, nets) && name in peers
    ensures ValidTable(peers[name := Switched(peers[name], enabled)], nets)
    ensures forall other <- peers :: other != name ==> Distinct(peers[other], Switched(peers[name], enabled))
  {
    assert GoodRecord(peers[name], nets);
    forall other <- peers | other != name ensures Distinct(peers[other], Switched(peers[name], enabled)) {
      assert Distinct(peers[other], peers[name]);
    }
    ChangeRecord(peers, nets, name, Switched(peers[name], enabled));
  }

  lemma RotatedRecord(peers: Table, nets: map<string, Ipv4Net>, name: string, public: string, psk: string, id: string)
    requires Subnets(nets) && ValidTable(peers, nets) && name in peers && IsKey(public) && IsKey(psk)
    requires !PubkeyTaken(peers, peers[name].version, public, Some(name))
    ensures ValidTable(peers[name := Rotated(peers[name], public, psk, id)], nets)
    ensures forall other <- peers :: other != name ==> Distinct(peers[other], Rotated(peers[name], public, psk, id))
  {
    hide IsKey;
    assert GoodRecord(peers[name], nets);
    forall other <- peers | other != name ensures Distinct(peers[other], Rotated(peers[name], public, psk, id)) {
      assert Distinct(peers[other], peers[name]);
    }
    ChangeRecord(peers, nets, name, Rotated(peers[name], public, psk, id));
  }

  datatype Operation =
    | Create(id: string, username: string, version: string, public: string, psk: string)
    | Enable(username: string, enabled: bool)
    | Rotate(username: string, id: string, public: string, psk: string)
    | Delete(username: string)
    | Tick(now: real)
    | Shutdown
    | Restart
    | Weather(files: bool, calls: bool)
    | Die(i: nat)

  /** Every run: from a valid file, any sequence of requests, passes, deaths and restarts keeps the invariant. */
  method Run(versions: seq<string>, subnets: map<string, Ipv4Net>, settings: seq<seq<string>>, disk: Doc,
             ops: seq<Operation>)
    returns (m: AwgManager)
    requires Configuration(versions, subnets, settings) && ValidDoc(disk, subnets)
    ensures m.Inv()
  {
    m := new AwgManager(versions, subnets, settings, disk);
    for i := 0 to |ops|
      invariant fresh(m) && fresh(m.store) && fresh(m.host) && m.Inv()
    {
      m.Step(ops[i]);
    }
  }

  /** A record under a free name, with a free key and a free address. */
  lemma NewRecord(peers: Table, nets: map<string, Ipv4Net>, name: string, rec: Record)
    requires Subnets(nets) && ValidTable(peers, nets) && rec.version in nets && name !in peers
    requires IsKey(rec.publicKey) && IsKey(rec.psk) && Fits(nets[rec.version], rec.address)
    requires !PubkeyTaken(peers, rec.version, rec.publicKey, None) && rec.address !in Used(peers, rec.version)
    ensures ValidTable(peers[name := rec], nets)
    ensures forall other <- peers :: other != name ==> Distinct(peers[other], rec)
    ensures Clean(rec.publicKey) && Clean(rec.psk) && Clean(rec.address) && rec.publicKey != GONE
  {
    hide ValidTable, Fits, IsKey, Clean;
    forall other <- peers ensures Distinct(peers[other], rec) {
      if peers[other].version == rec.version {
        assert other in Members(peers, rec.version);
        assert peers[other].address in Used(peers, rec.version);
      }
    }
    ChangeRecord(peers, nets, name, rec);
    RecordIsClean(peers[name := rec], nets, name);
  }

  lemma SettingsScript(device: Peers, lines: seq<string>)
    requires CleanDevice(device) && SettingsOnly(lines)
    ensures Interpret(device, Lines(Body(lines))) == device
  {
    hide Lines, Body, Interpret;
    LinesOfBody(lines);
    SettingsKeepPeers(device, lines);
  }

  lemma LiveDevice(live: Peers)
    requires CleanDevice(live)
    ensures GONE !in live && forall key <- live :: Clean(key)
  {
    hide Clean;
  }

  lemma CleanDesired(desired: map<string, Wanted>)
    requires CleanWants(desired) && GONE !in desired
    ensures CleanDevice(AsPeers(desired))
  {
    hide Clean, CleanPeer;
    forall key <- desired ensures CleanPeer(desired[key].AsPeer()) {
      CleanWantedPeer(desired[key]);
    }
  }
}
