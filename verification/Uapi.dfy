/** The control protocol of an amneziawg-go device: the scripts the manager writes, the device that interprets them,
    and the reply it reads back (awg_manager/src/service.rs, interpreter of awg_manager/src/tests.rs). */
module Uapi {
  import opened Common
  import opened Text

  datatype Peer = Peer(psk: string, allowed: seq<string>)

  /** The peers of a device by hex public key. */
  type Peers = map<string, Peer>

  /** What a peer should be: hex preshared key and address. */
  datatype Wanted = Wanted(psk: string, address: string)
  {
    function AsPeer(): Peer {
      Peer(psk, [address + "/32"])
    }
  }

  function AsPeers(desired: map<string, Wanted>): Peers {
    map key | key in desired :: desired[key].AsPeer()
  }

  // ----- lines ------------------------------------------------------------------------------------

  function StripCr(line: string): string {
    if line != [] && line[|line| - 1] == '\r' then line[..|line| - 1] else line
  }

  function StripAll(lines: seq<string>): seq<string> {
    seq(|lines|, n requires 0 <= n < |lines| => StripCr(lines[n]))
  }

  /** `text.lines()`. */
  function Lines(text: string): seq<string> {
    var parts := Split(text, '\n');
    var last := parts[|parts| - 1];
    if last == [] then StripAll(parts[..|parts| - 1]) else StripAll(parts[..|parts| - 1]) + [last]
  }

  /** `lines.join("\n") + "\n"`. */
  function Body(lines: seq<string>): string {
    Join(lines, '\n') + ['\n']
  }

  predicate Clean(line: string) {
    '\n' !in line && '\r' !in line
  }

  lemma {:induction false} JoinEnd(lines: seq<string>)
    requires lines != []
    ensures Body(lines) == Join(lines + [[]], '\n')
  {
    if |lines| == 1 {
      assert (lines + [[]])[1..] == [[]];
      assert Join([[]], '\n') == [];
    } else {
      JoinEnd(lines[1..]);
      assert (lines + [[]])[1..] == lines[1..] + [[]];
    }
  }

  /** A body is read back line by line as it was written. */
  lemma LinesOfBody(lines: seq<string>)
    requires lines != [] && CleanLines(lines)
    ensures Lines(Body(lines)) == lines
  {
    JoinEnd(lines);
    assert forall p <- lines + [[]] :: '\n' !in p;
    SplitJoined(lines + [[]], '\n');
    hide Split, Join;
    var parts := Split(Body(lines), '\n');
    assert parts == lines + [[]];
    assert parts[..|parts| - 1] == lines;
    forall n | 0 <= n < |lines| ensures StripCr(lines[n]) == lines[n] {
      assert Clean(lines[n]);
    }
  }

  // ----- the device ---------------------------------------------------------------------------------

  const NO_PSK := "0000000000000000000000000000000000000000000000000000000000000000"
  const Fresh := Peer(NO_PSK, [])
  /** The peer a removed one becomes until the script ends. */
  const GONE := "gone"

  datatype Device = Device(peers: Peers, current: Option<string>)

  /** The keys of a script that concern peers. */
  datatype Word = PublicKey | PresharedKey | ReplaceAllowedIps | AllowedIp | Remove | Other

  function Spell(w: Word): string {
    match w
    case PublicKey => "public_key"
    case PresharedKey => "preshared_key"
    case ReplaceAllowedIps => "replace_allowed_ips"
    case AllowedIp => "allowed_ip"
    case Remove => "remove"
    case Other => ""
  }

  function WordOf(key: string): Word {
    if key == "public_key" then PublicKey
    else if key == "preshared_key" then PresharedKey
    else if key == "replace_allowed_ips" then ReplaceAllowedIps
    else if key == "allowed_ip" then AllowedIp
    else if key == "remove" then Remove
    else Other
  }

  /** `format!("{key}={value}")`. */
  function Line(w: Word, value: string): string {
    Spell(w) + ['='] + value
  }

  function KeyValue(line: string): (string, string) {
    match SplitOnce(line, '=')
    case Some(pair) => pair
    case None => (line, "")
  }

  lemma SpelledReads(w: Word, value: string)
    ensures KeyValue(Line(w, value)) == (Spell(w), value) && WordOf(Spell(w)) == w
  {
    assert '=' !in Spell(w);
    SplitOnceAt(Spell(w), value, '=');
  }

  function Ensured(peers: Peers, key: string): Peers {
    if key in peers then peers else peers[key := Fresh]
  }

  /** The device takes one line; before the first peer a line is a setting of the device itself. */
  function Take(d: Device, word: Word, value: string): Device {
    if word.PublicKey? then Device(Ensured(d.peers, value), Some(value))
    else if d.current.None? || d.current.value !in d.peers then d
    else
      var name := d.current.value;
      var peer := d.peers[name];
      match word
      case Remove => Device(Ensured(d.peers - {name}, GONE), Some(GONE))
      case PresharedKey => d.(peers := d.peers[name := peer.(psk := value)])
      case ReplaceAllowedIps => d.(peers := d.peers[name := peer.(allowed := [])])
      case AllowedIp => d.(peers := d.peers[name := peer.(allowed := peer.allowed + [value])])
      case _ => d
  }

  function TakeLine(d: Device, line: string): Device {
    var (key, value) := KeyValue(line);
    Take(d, WordOf(key), value)
  }

  function TakeLines(d: Device, lines: seq<string>): Device {
    if lines == [] then d else TakeLine(TakeLines(d, lines[..|lines| - 1]), lines[|lines| - 1])
  }

  /** The peers of a device after a script. */
  function Interpret(peers: Peers, lines: seq<string>): Peers {
    TakeLines(Device(peers, None), lines).peers - {GONE}
  }

  lemma {:induction false} TakeLinesConcat(d: Device, s: seq<string>, t: seq<string>)
    ensures TakeLines(d, s + t) == TakeLines(TakeLines(d, s), t)
    decreases |t|
  {
    hide TakeLine;
    if t == [] {
      assert s + t == s;
    } else {
      var n := |t| - 1;
      TakeLinesConcat(d, s, t[..n]);
      assert (s + t)[..|s + t| - 1] == s + t[..n];
    }
  }

  lemma TakeSpelled(d: Device, w: Word, value: string)
    ensures TakeLine(d, Line(w, value)) == Take(d, w, value)
  {
    hide Line, KeyValue, WordOf, Spell, Take;
    SpelledReads(w, value);
  }

  /** `peer_lines`. */
  function PeerLines(key: string, w: Wanted): seq<string> {
    [Line(PublicKey, key), Line(PresharedKey, w.psk), Line(ReplaceAllowedIps, "true"), Line(AllowedIp, w.address + "/32")]
  }

  function RemoveLines(key: string): seq<string> {
    [Line(PublicKey, key), Line(Remove, "true")]
  }

  lemma {:induction false} TakeTwo(d: Device, x: string, y: string)
    ensures TakeLines(d, [x, y]) == TakeLine(TakeLine(d, x), y)
  {
    hide TakeLine;
    assert [x, y][..1] == [x] && [x][..0] == [];
    assert TakeLines(d, [x]) == TakeLine(TakeLines(d, [x][..0]), x);
  }

  /** A removal takes its peer off the device and touches no other. */
  lemma RemoveEffect(d: Device, key: string)
    requires key != GONE
    ensures TakeLines(d, RemoveLines(key)).peers - {GONE} == d.peers - {GONE} - {key}
  {
    hide Line, TakeLine, TakeLines;
    TakeTwo(d, Line(PublicKey, key), Line(Remove, "true"));
    TakeSpelled(d, PublicKey, key);
    TakeSpelled(Take(d, PublicKey, key), Remove, "true");
  }

  /** Setting a peer leaves exactly the wanted one, and touches no other. */
  lemma SetEffect(d: Device, key: string, w: Wanted)
    requires key != GONE
    ensures TakeLines(d, PeerLines(key, w)).peers - {GONE} == (d.peers - {GONE})[key := w.AsPeer()]
  {
    hide Line, TakeLine, TakeLines;
    var l := PeerLines(key, w);
    var d1 := Take(d, PublicKey, key);
    var d2 := Take(d1, PresharedKey, w.psk);
    var d3 := Take(d2, ReplaceAllowedIps, "true");
    assert l == [l[0], l[1]] + [l[2], l[3]];
    TakeLinesConcat(d, [l[0], l[1]], [l[2], l[3]]);
    TakeTwo(d, l[0], l[1]);
    TakeTwo(d2, l[2], l[3]);
    TakeSpelled(d, PublicKey, key);
    TakeSpelled(d1, PresharedKey, w.psk);
    TakeSpelled(d2, ReplaceAllowedIps, "true");
    TakeSpelled(d3, AllowedIp, w.address + "/32");
    var d4 := Take(d3, AllowedIp, w.address + "/32");
    assert d4.peers[key] == w.AsPeer();
    assert d4.peers - {GONE} == (d.peers - {GONE})[key := w.AsPeer()];
  }

  // ----- reading a device back ------------------------------------------------------------------------

  /** `parse_uapi` on one key: a peer starts afresh, its keys fill it, anything else is passed over. */
  function Note(d: Device, word: Word, value: string): Device {
    if word.PublicKey? then Device(d.peers[value := Fresh], Some(value))
    else if d.current.None? || d.current.value !in d.peers then d
    else
      var name := d.current.value;
      var peer := d.peers[name];
      match word
      case AllowedIp => d.(peers := d.peers[name := peer.(allowed := peer.allowed + [value])])
      case PresharedKey => d.(peers := d.peers[name := peer.(psk := value)])
      case _ => d
  }

  function NoteLine(d: Device, line: string): Device {
    match SplitOnce(line, '=')
    case None => d
    case Some((key, value)) => Note(d, WordOf(key), value)
  }

  function NoteLines(d: Device, lines: seq<string>): Device {
    if lines == [] then d else NoteLine(NoteLines(d, lines[..|lines| - 1]), lines[|lines| - 1])
  }

  /** `parse_uapi`: the peers in a reply. */
  function ParseUapi(lines: seq<string>): Peers {
    NoteLines(Device(map[], None), lines).peers
  }

  lemma {:induction false} NoteLinesConcat(d: Device, s: seq<string>, t: seq<string>)
    ensures NoteLines(d, s + t) == NoteLines(NoteLines(d, s), t)
    decreases |t|
  {
    hide NoteLine;
    if t == [] {
      assert s + t == s;
    } else {
      var n := |t| - 1;
      NoteLinesConcat(d, s, t[..n]);
      assert (s + t)[..|s + t| - 1] == s + t[..n];
    }
  }

  lemma NoteSpelled(d: Device, w: Word, value: string)
    ensures NoteLine(d, Line(w, value)) == Note(d, w, value)
  {
    assert '=' !in Spell(w);
    SplitOnceAt(Spell(w), value, '=');
    SpelledReads(w, value);
  }

  lemma NoteOne(d: Device, x: string)
    ensures NoteLines(d, [x]) == NoteLine(d, x)
  {
    hide NoteLine;
    assert [x][..0] == [];
  }

  /** A line of a reply that is neither a peer nor a key of one that is read. */
  predicate Idle(line: string) {
    match SplitOnce(line, '=')
    case None => true
    case Some((key, _)) => !WordOf(key).PublicKey? && !WordOf(key).AllowedIp? && !WordOf(key).PresharedKey?
  }

  function AllowedLines(allowed: seq<string>): seq<string> {
    seq(|allowed|, n requires 0 <= n < |allowed| => Line(AllowedIp, allowed[n]))
  }

  /** One peer of a reply; `extra` are its counters and times. */
  function PeerReply(key: string, p: Peer, extra: seq<string>): seq<string> {
    [Line(PublicKey, key), Line(PresharedKey, p.psk)] + extra + AllowedLines(p.allowed)
  }

  /** A reply: the device's own settings, then its peers in any order. */
  function Reply(settings: seq<string>, keys: seq<string>, peers: Peers, extra: seq<string>): seq<string>
    requires forall key <- keys :: key in peers
  {
    if keys == [] then settings
    else
      var n := |keys| - 1;
      Reply(settings, keys[..n], peers, extra) + PeerReply(keys[n], peers[keys[n]], extra)
  }

  lemma {:induction false} IdleLines(d: Device, lines: seq<string>)
    requires forall line <- lines :: Idle(line)
    ensures NoteLines(d, lines) == d
  {
    if lines != [] {
      IdleLines(d, lines[..|lines| - 1]);
      assert Idle(lines[|lines| - 1]);
    }
  }

  lemma {:induction false} AllowedRead(d: Device, key: string, allowed: seq<string>)
    requires d.current == Some(key) && key in d.peers
    ensures NoteLines(d, AllowedLines(allowed))
            == d.(peers := d.peers[key := d.peers[key].(allowed := d.peers[key].allowed + allowed)])
  {
    hide Line, NoteLine;
    var lines := AllowedLines(allowed);
    if allowed == [] {
      assert d.peers[key].allowed + [] == d.peers[key].allowed;
      assert d.peers[key := d.peers[key]] == d.peers;
    } else {
      var n := |allowed| - 1;
      AllowedRead(d, key, allowed[..n]);
      assert lines[..n] == AllowedLines(allowed[..n]);
      NoteSpelled(NoteLines(d, lines[..n]), AllowedIp, allowed[n]);
      assert d.peers[key].allowed + allowed[..n] + [allowed[n]] == d.peers[key].allowed + allowed;
    }
  }

  lemma PeerRead(d: Device, key: string, p: Peer, extra: seq<string>)
    requires forall line <- extra :: Idle(line)
    ensures NoteLines(d, PeerReply(key, p, extra)) == Device(d.peers[key := p], Some(key))
  {
    hide Line, NoteLine, NoteLines, Idle;
    var a, b, rest := Line(PublicKey, key), Line(PresharedKey, p.psk), AllowedLines(p.allowed);
    assert PeerReply(key, p, extra) == [a] + ([b] + (extra + rest));
    NoteLinesConcat(d, [a], [b] + (extra + rest));
    NoteOne(d, a);
    NoteSpelled(d, PublicKey, key);
    var d1 := Note(d, PublicKey, key);
    NoteLinesConcat(d1, [b], extra + rest);
    NoteOne(d1, b);
    NoteSpelled(d1, PresharedKey, p.psk);
    var d2 := Note(d1, PresharedKey, p.psk);
    NoteLinesConcat(d2, extra, rest);
    IdleLines(d2, extra);
    AllowedRead(d2, key, p.allowed);
    assert [] + p.allowed == p.allowed;
  }

  /** What a device prints is read back as its peers, in whatever order it prints them. */
  lemma {:induction false} ReplyIsRead(settings: seq<string>, keys: seq<string>, peers: Peers, extra: seq<string>)
    requires (forall key <- keys :: key in peers)
    requires (forall line <- settings :: Idle(line)) && forall line <- extra :: Idle(line)
    ensures ParseUapi(Reply(settings, keys, peers, extra)) == map key | key in keys :: peers[key]
  {
    hide PeerReply, Idle;
    if keys == [] {
      IdleLines(Device(map[], None), settings);
    } else {
      var n := |keys| - 1;
      ReplyIsRead(settings, keys[..n], peers, extra);
      var before := Reply(settings, keys[..n], peers, extra);
      NoteLinesConcat(Device(map[], None), before, PeerReply(keys[n], peers[keys[n]], extra));
      PeerRead(NoteLines(Device(map[], None), before), keys[n], peers[keys[n]], extra);
      assert keys == keys[..n] + [keys[n]];
    }
  }

  // ----- reconciliation -----------------------------------------------------------------------------------

  predicate AsWanted(live: Peers, key: string, w: Wanted) {
    key in live && live[key] == w.AsPeer()
  }

  predicate CleanLines(lines: seq<string>) {
    forall n :: 0 <= n < |lines| ==> Clean(lines[n])
  }

  lemma CleanLine(w: Word, value: string)
    requires Clean(value)
    ensures Clean(Line(w, value))
  {
    assert Clean(Spell(w));
  }

  lemma CleanPeerLines(key: string, w: Wanted)
    requires Clean(key) && Clean(w.psk) && Clean(w.address)
    ensures CleanLines(PeerLines(key, w))
  {
    hide Line;
    CleanLine(PublicKey, key);
    CleanLine(PresharedKey, w.psk);
    CleanLine(ReplaceAllowedIps, "true");
    CleanLine(AllowedIp, w.address + "/32");
  }

  lemma CleanRemoveLines(key: string)
    requires Clean(key)
    ensures CleanLines(RemoveLines(key))
  {
    hide Line;
    CleanLine(PublicKey, key);
    CleanLine(Remove, "true");
  }

  method RemovalScript(live: Peers, unwanted: set<string>) returns (lines: seq<string>)
    requires GONE !in live && unwanted <= live.Keys
    ensures TakeLines(Device(live, None), lines).peers - {GONE} == live - unwanted
    ensures lines == [] <==> unwanted == {}
    ensures (forall key <- unwanted :: Clean(key)) ==> CleanLines(lines)
  {
    hide TakeLines, RemoveLines, Clean;
    NoLines(Device(live, None));
    lines := [];
    ghost var d := Device(live, None);
    var todo := unwanted;
    while todo != {}
      invariant todo <= unwanted
      invariant TakeLines(d, lines).peers - {GONE} == live - (unwanted - todo)
      invariant lines == [] <==> todo == unwanted
      invariant (forall key <- unwanted :: Clean(key)) ==> CleanLines(lines)
      decreases todo
    {
      var key :| key in todo;
      TakeLinesConcat(d, lines, RemoveLines(key));
      RemoveEffect(TakeLines(d, lines), key);
      assert live - (unwanted - todo) - {key} == live - (unwanted - (todo - {key}));
      RemoveNotEmpty(key);
      if Clean(key) {
        CleanRemoveLines(key);
      }
      lines := lines + RemoveLines(key);
      todo := todo - {key};
    }
  }

  lemma NoLines(d: Device)
    ensures TakeLines(d, []) == d
  {
  }

  lemma RemoveNotEmpty(key: string)
    ensures RemoveLines(key) != []
  {
  }

  lemma PeerNotEmpty(key: string, w: Wanted)
    ensures PeerLines(key, w) != []
  {
  }

  ghost predicate CleanWants(desired: map<string, Wanted>) {
    forall key <- desired :: Clean(key) && Clean(desired[key].psk) && Clean(desired[key].address)
  }

  /** The peers once all keys but `todo` are set. */
  ghost function Halfway(live: Peers, desired: map<string, Wanted>, todo: set<string>): Peers {
    map key | key in desired && (key in live || key !in todo) :: if key in todo then live[key] else desired[key].AsPeer()
  }

  ghost predicate SetAlready(live: Peers, desired: map<string, Wanted>, todo: set<string>) {
    forall key <- desired :: key !in todo ==> AsWanted(live, key, desired[key])
  }

  lemma HalfwayStep(live: Peers, desired: map<string, Wanted>, todo: set<string>, key: string)
    requires key in todo && key in desired
    ensures Halfway(live, desired, todo - {key}) == Halfway(live, desired, todo)[key := desired[key].AsPeer()]
    ensures AsWanted(live, key, desired[key]) ==> Halfway(live, desired, todo - {key}) == Halfway(live, desired, todo)
    ensures SetAlready(live, desired, todo - {key}) <==>
            SetAlready(live, desired, todo) && AsWanted(live, key, desired[key])
  {
  }

  lemma HalfwayEnds(live: Peers, desired: map<string, Wanted>)
    ensures Halfway(live, desired, desired.Keys) == map key | key in live && key in desired :: live[key]
    ensures Halfway(live, desired, {}) == AsPeers(desired)
    ensures SetAlready(live, desired, desired.Keys)
    ensures SetAlready(live, desired, {}) <==> forall key <- desired :: AsWanted(live, key, desired[key])
  {
  }

  method SettingScript(live: Peers, desired: map<string, Wanted>, ghost d: Device) returns (lines: seq<string>)
    requires GONE !in live && GONE !in desired
    requires d.peers - {GONE} == map key | key in live && key in desired :: live[key]
    ensures TakeLines(d, lines).peers - {GONE} == AsPeers(desired)
    ensures lines == [] <==> forall key <- desired :: AsWanted(live, key, desired[key])
    ensures CleanWants(desired) ==> CleanLines(lines)
  {
    NoLines(d);
    lines := [];
    HalfwayEnds(live, desired);
    hide TakeLines, PeerLines, Clean, Halfway, SetAlready, AsPeers;
    var todo := desired.Keys;
    while todo != {}
      invariant todo <= desired.Keys
      invariant TakeLines(d, lines).peers - {GONE} == Halfway(live, desired, todo)
      invariant lines == [] <==> SetAlready(live, desired, todo)
      invariant CleanWants(desired) ==> CleanLines(lines)
      decreases todo
    {
      var key :| key in todo;
      var w := desired[key];
      HalfwayStep(live, desired, todo, key);
      if key !in live || live[key].psk != w.psk || live[key].allowed != [w.address + "/32"] {
        TakeLinesConcat(d, lines, PeerLines(key, w));
        SetEffect(TakeLines(d, lines), key, w);
        PeerNotEmpty(key, w);
        if CleanWants(desired) {
          CleanPeerLines(key, w);
        }
        lines := lines + PeerLines(key, w);
        assert !AsWanted(live, key, w);
      } else {
        assert AsWanted(live, key, w);
      }
      todo := todo - {key};
    }
  }

  /** The script of `reconcile_peers`: remove what is not wanted, set what is missing or different. */
  method ReconcileScript(live: Peers, desired: map<string, Wanted>) returns (lines: seq<string>)
    requires GONE !in live && GONE !in desired
    ensures Interpret(live, lines) == AsPeers(desired)
    ensures lines == [] <==> live == AsPeers(desired)
    ensures (forall key <- live :: Clean(key)) && CleanWants(desired) ==> CleanLines(lines)
  {
    hide TakeLines, Clean, CleanWants;
    lines := RemovalScript(live, live.Keys - desired.Keys);
    ghost var d := TakeLines(Device(live, None), lines);
    var more := SettingScript(live, desired, d);
    TakeLinesConcat(Device(live, None), lines, more);
    if lines + more == [] {
      assert forall key <- desired :: AsWanted(live, key, desired[key]);
      assert forall key <- live :: key !in live.Keys - desired.Keys;
      assert live.Keys == desired.Keys;
    }
    if live == AsPeers(desired) {
      assert live.Keys == desired.Keys;
      assert forall key <- desired :: AsWanted(live, key, desired[key]);
    }
    lines := lines + more;
  }

  // ----- what the scripts of single operations do -----------------------------------------------------------

  lemma InterpretRemoval(peers: Peers, key: string)
    requires GONE !in peers && key != GONE
    ensures Interpret(peers, RemoveLines(key)) == peers - {key}
  {
    hide TakeLines, RemoveLines;
    RemoveEffect(Device(peers, None), key);
    assert peers - {GONE} == peers;
  }

  lemma InterpretSetting(peers: Peers, key: string, w: Wanted)
    requires GONE !in peers && key != GONE
    ensures Interpret(peers, PeerLines(key, w)) == peers[key := w.AsPeer()]
  {
    hide TakeLines, PeerLines;
    SetEffect(Device(peers, None), key, w);
    assert peers - {GONE} == peers;
  }

  /** Replacing one key by another in one script. */
  lemma InterpretReplacing(peers: Peers, before: string, key: string, w: Wanted)
    requires GONE !in peers && before != GONE && key != GONE
    ensures Interpret(peers, RemoveLines(before) + PeerLines(key, w)) == (peers - {before})[key := w.AsPeer()]
  {
    hide TakeLines, PeerLines, RemoveLines;
    var d := Device(peers, None);
    TakeLinesConcat(d, RemoveLines(before), PeerLines(key, w));
    RemoveEffect(d, before);
    SetEffect(TakeLines(d, RemoveLines(before)), key, w);
    assert peers - {GONE} - {before} == peers - {before};
  }

  /** A line that names no peer. */
  predicate NamesNoPeer(line: string) {
    !WordOf(KeyValue(line).0).PublicKey?
  }

  /** A script of device settings leaves the peers alone. */
  lemma {:induction false} SettingsKeepPeers(peers: Peers, lines: seq<string>)
    requires GONE !in peers && forall n :: 0 <= n < |lines| ==> NamesNoPeer(lines[n])
    ensures TakeLines(Device(peers, None), lines) == Device(peers, None)
    ensures Interpret(peers, lines) == peers
  {
    hide WordOf, KeyValue;
    if lines != [] {
      SettingsKeepPeers(peers, lines[..|lines| - 1]);
      assert NamesNoPeer(lines[|lines| - 1]);
    }
    assert peers - {GONE} == peers;
  }

  /** A device whose texts have no line ends. */
  ghost predicate CleanPeer(p: Peer) {
    Clean(p.psk) && CleanLines(p.allowed)
  }

  ghost predicate CleanDevice(peers: Peers) {
    forall key <- peers :: Clean(key) && key != GONE && CleanPeer(peers[key])
  }

  lemma CleanPeerReply(key: string, p: Peer, extra: seq<string>)
    requires Clean(key) && CleanPeer(p) && CleanLines(extra)
    ensures CleanLines(PeerReply(key, p, extra))
  {
    hide Line, Clean;
    CleanLine(PublicKey, key);
    CleanLine(PresharedKey, p.psk);
    forall n | 0 <= n < |p.allowed| ensures Clean(AllowedLines(p.allowed)[n]) {
      CleanLine(AllowedIp, p.allowed[n]);
    }
  }

  lemma {:induction false} CleanReply(settings: seq<string>, keys: seq<string>, peers: Peers, extra: seq<string>)
    requires (forall key <- keys :: key in peers) && CleanDevice(peers)
    requires settings != [] && CleanLines(settings) && CleanLines(extra)
    ensures Reply(settings, keys, peers, extra) != [] && CleanLines(Reply(settings, keys, peers, extra))
  {
    hide Clean, PeerReply, CleanPeer;
    if keys != [] {
      var n := |keys| - 1;
      CleanReply(settings, keys[..n], peers, extra);
      CleanPeerReply(keys[n], peers[keys[n]], extra);
    }
  }
}
