/** The stream router of the ingress (installer/src/ingress_upgrade.rs): its two renderings, and the rewrite of either
    into the one that relays client addresses. */
module Ingress {
  import opened Common
  import opened Text
  import Uapi

  datatype Route = Route(domain: string, backend: string)

  // ----- words of the configuration --------------------------------------------------------------

  function Loopback(): string { "127.0.0.1:" }
  function RunPrefix(): string { "unix:/run/proxy-control-" }
  function PanelSocket(): string { RunPrefix() + "panel-tls.sock" }
  function RawPrefix(): string { RunPrefix() + "raw-" }
  function SocketSuffix(): string { ".sock" }
  function Indent(): string { "    " }
  function Default(): string { "default" }
  function Title(): string { "PROXY-CONTROL GENERATED STREAM ROUTER" }
  function ServerName(): string { "$ssl_preread_server_name" }
  function Backend(): string { "$proxy_control_backend" }

  /** The start of the default line, which ends the routes. */
  function Mark(): string {
    Indent() + (Default() + " ")
  }

  function Opening(): string {
    "# BEGIN " + Title()
  }

  function MapLine(): string {
    "map " + (ServerName() + (" " + (Backend() + " {")))
  }

  lemma SocketWords()
    ensures |RunPrefix()| < |PanelSocket()| && PanelSocket()[|RunPrefix()|] == 'p'
    ensures |RunPrefix()| < |RawPrefix()| && RawPrefix()[|RunPrefix()|] == 'r'
    ensures PanelSocket()[0] == 'u' && RawPrefix()[0] == 'u' && |Loopback()| > 0 && Loopback()[0] == '1'
  {
    assert |RunPrefix()| > 0 && RunPrefix()[0] == 'u';
    hide RunPrefix;
  }

  lemma RouteWords()
    ensures Indent() == [' ', ' ', ' ', ' '] && ' ' !in Default() && Default() != []
  {
  }

  /** The map's first line does not begin in the opening line. */
  lemma OpeningWords()
    ensures |MapLine()| > 0 && MapLine()[0] == 'm' && 'm' !in Opening()
  {
    hide ServerName, Backend, Title;
    TitleWords();
    assert "map "[0] == 'm' && 'm' !in "# BEGIN ";
  }

  lemma TitleWords()
    ensures 'm' !in Title()
  {
  }

  lemma TitleIsClean()
    ensures Uapi.Clean(Title())
  {
  }

  // ----- backends ------------------------------------------------------------------------------------

  predicate IsPort(text: string) {
    1 <= |text| <= 5 && AllDigits(text)
  }

  predicate LoopbackBackend(backend: string) {
    Loopback() <= backend && IsPort(backend[|Loopback()|..])
  }

  /** `backend.rsplit(':').next()`. */
  function LastPart(text: string): string {
    var parts := Split(text, ':');
    parts[|parts| - 1]
  }

  lemma PortIsLast(port: string)
    requires AllDigits(port)
    ensures LastPart(Loopback() + port) == port
  {
    hide Split;
    var host := "127.0.0.1";
    assert ':' !in host && ':' !in port;
    assert Loopback() + port == host + ([':'] + port);
    SplitPrefix(host, [':'] + port, ':');
    SplitAtSeparator(port, ':');
    assert port + [] == port;
    SplitPrefix(port, [], ':');
  }

  /** `client_ip_backend`. */
  function ClientIpBackend(backend: string, panel: string): Option<string> {
    if backend == panel then Some(PanelSocket())
    else if !LoopbackBackend(backend) then None
    else Some(RawPrefix() + LastPart(backend) + SocketSuffix())
  }

  /** What a target of the map stands for. */
  function BackendOf(target: string, panel: string): string {
    if target == PanelSocket() then panel
    else
      var rest := if RawPrefix() <= target then target[|RawPrefix()|..] else [];
      var n := |rest| - |SocketSuffix()|;
      if n > 0 && rest[n..] == SocketSuffix() && AllDigits(rest[..n]) then Loopback() + rest[..n] else target
  }

  /** The socket of a backend, read back. */
  lemma SocketIsRead(backend: string, panel: string)
    requires LoopbackBackend(backend)
    ensures ClientIpBackend(backend, panel).Some?
    ensures BackendOf(ClientIpBackend(backend, panel).value, panel) == backend
    ensures BackendOf(backend, panel) == backend
    ensures ClientIpBackend(backend, panel).value == PanelSocket() <==> backend == panel
  {
    hide Loopback, PanelSocket, RawPrefix, RunPrefix, SocketSuffix, LastPart;
    SocketWords();
    var port := backend[|Loopback()|..];
    assert backend == Loopback() + port;
    PortIsLast(port);
    var raw := RawPrefix() + port + SocketSuffix();
    assert raw[|RunPrefix()|] == 'r' && raw != PanelSocket();
    assert raw[|RawPrefix()|..] == port + SocketSuffix();
    assert backend[0] == '1';
  }

  /** Two backends share a socket only if they are the same. */
  lemma SocketsAreDistinct(a: string, b: string, panel: string)
    requires LoopbackBackend(a) && LoopbackBackend(b) && ClientIpBackend(a, panel) == ClientIpBackend(b, panel)
    ensures a == b
  {
    SocketIsRead(a, panel);
    SocketIsRead(b, panel);
  }

  // ----- rendering ------------------------------------------------------------------------------------

  /** A line of the configuration. */
  datatype Line =
    | Begin | MapOpen | Entry(name: string, target: string) | Close
    | ServerOpen | Listen443 | Preread | ProxyProtocol | PassVariable
    | Relay(socket: string) | PassTo(backend: string) | End

  function Spell(line: Line): string {
    match line
    case Begin => Opening()
    case MapOpen => MapLine()
    case Entry(name, target) => Indent() + (name + ([' '] + (target + [';'])))
    case Close => "}"
    case ServerOpen => "server {"
    case Listen443 => Indent() + "listen 443;"
    case Preread => Indent() + "ssl_preread on;"
    case ProxyProtocol => Indent() + "proxy_protocol on;"
    case PassVariable => Indent() + ("proxy_pass " + (Backend() + ";"))
    case Relay(socket) => Indent() + ("listen " + (socket + " proxy_protocol;"))
    case PassTo(backend) => Indent() + ("proxy_pass " + (backend + ";"))
    case End => "# END " + Title()
  }

  function Spelled(lines: seq<Line>): seq<string> {
    seq(|lines|, n requires 0 <= n < |lines| => Spell(lines[n]))
  }

  /** The lines, each with its end. */
  function Written(lines: seq<Line>): string {
    if lines == [] then [] else Spell(lines[0]) + ['\n'] + Written(lines[1..])
  }

  lemma {:induction false} WrittenIsJoined(lines: seq<Line>)
    ensures Written(lines) == Join(Spelled(lines) + [[]], '\n')
  {
    hide Spell;
    var parts := Spelled(lines) + [[]];
    if lines == [] {
      assert parts == [[]];
    } else {
      WrittenIsJoined(lines[1..]);
      assert parts[1..] == Spelled(lines[1..]) + [[]];
    }
  }

  lemma WrittenFirst(lines: seq<Line>)
    requires lines != []
    ensures Written(lines) == Spell(lines[0]) + ['\n'] + Written(lines[1..])
  {
    hide Spell;
  }

  lemma Associates(a: string, b: string, c: string)
    ensures a + (b + c) == a + b + c
  {
  }

  lemma {:induction false} WrittenConcat(a: seq<Line>, b: seq<Line>)
    ensures Written(a + b) == Written(a) + Written(b)
  {
    hide Spell, Written;
    if a == [] {
      assert a + b == b;
      NothingWritten();
      assert [] + Written(b) == Written(b);
    } else {
      var head := Spell(a[0]) + ['\n'];
      assert (a + b)[0] == a[0] && (a + b)[1..] == a[1..] + b;
      WrittenFirst(a);
      WrittenFirst(a + b);
      WrittenConcat(a[1..], b);
      Associates(head, Written(a[1..]), Written(b));
    }
  }

  ghost predicate Mappable(routes: seq<Route>, panel: string) {
    forall r <- routes :: ClientIpBackend(r.backend, panel).Some?
  }

  /** Where a route leads in either form. */
  function Target(backend: string, panel: string, preserve: bool): string {
    if preserve && ClientIpBackend(backend, panel).Some? then ClientIpBackend(backend, panel).value else backend
  }

  function Entries(routes: seq<Route>, panel: string, preserve: bool): (r: seq<Line>)
    ensures |r| == |routes|
  {
    seq(|routes|, n requires 0 <= n < |routes| =>
      Entry(routes[n].domain, Target(routes[n].backend, panel, preserve)))
  }

  /** The relay listeners of the backends not seen yet. */
  function Relays(routes: seq<Route>, panel: string, seen: set<string>): seq<Line> {
    if routes == [] then []
    else
      var backend := routes[0].backend;
      if backend == panel || backend in seen then Relays(routes[1..], panel, seen)
      else
        [ServerOpen, Relay(Target(backend, panel, true)), PassTo(backend), Close]
        + Relays(routes[1..], panel, seen + {backend})
  }

  function DefaultTarget(preserve: bool): string {
    if preserve then PanelSocket() else Loopback() + "8443"
  }

  function Middle(preserve: bool): seq<Line> {
    [Close, ServerOpen, Listen443, Preread] + (if preserve then [ProxyProtocol] else []) + [PassVariable, Close]
  }

  function Rendered(routes: seq<Route>, panel: string, preserve: bool): seq<Line> {
    [Begin, MapOpen] + Entries(routes, panel, preserve) + [Entry(Default(), DefaultTarget(preserve))]
    + Middle(preserve) + (if preserve then Relays(routes, panel, {}) else []) + [End]
  }

  /** The entries of the map, one route after the other. */
  method RenderEntries(routes: seq<Route>, panel: string, preserve: bool) returns (r: Option<seq<Line>>)
    ensures r.None? <==> preserve && !Mappable(routes, panel)
    ensures r.Some? ==> r.value == Entries(routes, panel, preserve)
  {
    hide ClientIpBackend;
    var lines := [];
    for n := 0 to |routes|
      invariant preserve ==> Mappable(routes[..n], panel)
      invariant lines == Entries(routes[..n], panel, preserve)
    {
      if preserve && ClientIpBackend(routes[n].backend, panel).None? {
        return None;
      }
      lines := lines + [Entry(routes[n].domain, Target(routes[n].backend, panel, preserve))];
    }
    assert routes[..|routes|] == routes;
    return Some(lines);
  }

  /** The relay listeners, one for each backend met first. */
  method RenderRelays(routes: seq<Route>, panel: string) returns (lines: seq<Line>)
    ensures lines == Relays(routes, panel, {})
  {
    hide ClientIpBackend, Target;
    lines := [];
    var seen := {};
    assert routes[0..] == routes;
    for n := 0 to |routes|
      invariant lines + Relays(routes[n..], panel, seen) == Relays(routes, panel, {})
    {
      var backend := routes[n].backend;
      assert routes[n..][0] == routes[n] && routes[n..][1..] == routes[n + 1..];
      if backend != panel && backend !in seen {
        lines := lines + [ServerOpen, Relay(Target(backend, panel, true)), PassTo(backend), Close];
        seen := seen + {backend};
      }
    }
  }

  /** `render_fresh`. */
  method RenderFresh(routes: seq<Route>, panel: string, preserve: bool) returns (r: Option<string>)
    ensures r.None? <==> preserve && !Mappable(routes, panel)
    ensures r.Some? ==> r.value == Written(Rendered(routes, panel, preserve))
  {
    hide Spell, ClientIpBackend, Written, Mappable, Entries, Relays, DefaultTarget, Default;
    var entries := RenderEntries(routes, panel, preserve);
    if entries.None? {
      return None;
    }
    var lines := [Begin, MapOpen] + entries.value + [Entry(Default(), DefaultTarget(preserve))] + Middle(preserve);
    if preserve {
      var relays := RenderRelays(routes, panel);
      lines := lines + relays;
    } else {
      assert lines + [] == lines;
    }
    lines := lines + [End];
    assert lines == Rendered(routes, panel, preserve);
    WrittenIsJoined(lines);
    return Some(Join(Spelled(lines) + [[]], '\n'));
  }

  // ----- the meaning of the relay form ------------------------------------------------------------------

  ghost predicate AllLoopback(routes: seq<Route>) {
    forall r <- routes :: LoopbackBackend(r.backend)
  }

  /** A server that listens on `socket` in line `n`, and the backend it passes to. */
  ghost predicate RelaysAt(lines: seq<Line>, n: nat, socket: string, backend: string) {
    && 1 <= n && n + 2 < |lines| && lines[n - 1] == ServerOpen && lines[n] == Relay(socket)
    && lines[n + 1] == PassTo(backend) && lines[n + 2] == Close
  }

  /** The backends that get a relay, in the order of their first routes. */
  function Backends(routes: seq<Route>, panel: string, seen: set<string>): seq<string> {
    if routes == [] then []
    else
      var backend := routes[0].backend;
      if backend == panel || backend in seen then Backends(routes[1..], panel, seen)
      else [backend] + Backends(routes[1..], panel, seen + {backend})
  }

  function Group(backend: string, panel: string): seq<Line> {
    [ServerOpen, Relay(Target(backend, panel, true)), PassTo(backend), Close]
  }

  function Groups(backends: seq<string>, panel: string): (r: seq<Line>)
    ensures |r| == 4 * |backends|
  {
    if backends == [] then [] else Group(backends[0], panel) + Groups(backends[1..], panel)
  }

  lemma {:induction false} RelaysAreGroups(routes: seq<Route>, panel: string, seen: set<string>)
    ensures Relays(routes, panel, seen) == Groups(Backends(routes, panel, seen), panel)
  {
    hide Target;
    if routes != [] {
      var backend := routes[0].backend;
      if backend == panel || backend in seen {
        RelaysAreGroups(routes[1..], panel, seen);
      } else {
        RelaysAreGroups(routes[1..], panel, seen + {backend});
        var rest := Backends(routes[1..], panel, seen + {backend});
        assert ([backend] + rest)[1..] == rest;
      }
    }
  }

  ghost predicate NoRepeats(backends: seq<string>) {
    forall i, j :: 0 <= i < j < |backends| ==> backends[i] != backends[j]
  }

  /** Each backend gets one relay: those of the routes that are neither the panel's nor seen before. */
  lemma {:induction false} BackendsAre(routes: seq<Route>, panel: string, seen: set<string>)
    ensures forall b <- Backends(routes, panel, seen) :: b != panel && b !in seen && exists r <- routes :: r.backend == b
    ensures forall r <- routes :: r.backend != panel && r.backend !in seen ==> r.backend in Backends(routes, panel, seen)
    ensures NoRepeats(Backends(routes, panel, seen))
  {
    if routes != [] {
      var backend := routes[0].backend;
      assert routes == [routes[0]] + routes[1..];
      if backend == panel || backend in seen {
        BackendsAre(routes[1..], panel, seen);
        assert Backends(routes, panel, seen) == Backends(routes[1..], panel, seen);
      } else {
        BackendsAre(routes[1..], panel, seen + {backend});
        assert Backends(routes, panel, seen) == [backend] + Backends(routes[1..], panel, seen + {backend});
      }
    }
  }

  lemma {:induction false} GroupAt(backends: seq<string>, panel: string, k: nat)
    requires k < |backends|
    ensures Groups(backends, panel)[4 * k..4 * k + 4] == Group(backends[k], panel)
  {
    if k > 0 {
      GroupAt(backends[1..], panel, k - 1);
    }
  }

  /** A listener on `socket`, only one, and it passes to `backend`. */
  ghost predicate OneRelay(lines: seq<Line>, socket: string, backend: string) {
    exists n :: RelaysAt(lines, n, socket, backend)
                && forall m :: 0 <= m < |lines| && lines[m] == Relay(socket) ==> m == n
  }

  /** Which group a listener is in. */
  lemma ListenerOf(backends: seq<string>, panel: string, n: nat)
    requires n < 4 * |backends| && Groups(backends, panel)[n].Relay?
    ensures n % 4 == 1 && Groups(backends, panel)[n] == Relay(Target(backends[n / 4], panel, true))
  {
    GroupAt(backends, panel, n / 4);
    assert Groups(backends, panel)[n] == Group(backends[n / 4], panel)[n % 4];
  }

  lemma OneRelayInGroups(backends: seq<string>, panel: string, k: nat)
    requires k < |backends| && forall b <- backends :: LoopbackBackend(b)
    requires NoRepeats(backends)
    ensures var lines, socket := Groups(backends, panel), Target(backends[k], panel, true);
            && RelaysAt(lines, 4 * k + 1, socket, backends[k])
            && forall m :: 0 <= m < |lines| && lines[m] == Relay(socket) ==> m == 4 * k + 1
  {
    hide ClientIpBackend, LoopbackBackend;
    var lines, socket := Groups(backends, panel), Target(backends[k], panel, true);
    GroupAt(backends, panel, k);
    assert lines[4 * k] == Group(backends[k], panel)[0] && lines[4 * k + 1] == Group(backends[k], panel)[1];
    assert lines[4 * k + 2] == Group(backends[k], panel)[2] && lines[4 * k + 3] == Group(backends[k], panel)[3];
    forall m | 0 <= m < |lines| && lines[m] == Relay(socket) ensures m == 4 * k + 1 {
      ListenerOf(backends, panel, m);
      SocketIsRead(backends[k], panel);
      SocketIsRead(backends[m / 4], panel);
    }
  }

  /** In the relay form every route leads where it led: the panel's to the panel's socket, any other to a socket with one
      listener, which passes to the route's own backend. Nothing else listens on the panel's socket. */
  lemma RelayMeaning(routes: seq<Route>, panel: string, i: nat)
    requires AllLoopback(routes) && i < |routes|
    ensures var lines := Rendered(routes, panel, true);
            var r := routes[i];
            && lines[2 + i] == Entry(r.domain, Target(r.backend, panel, true))
            && (r.backend == panel ==> Target(r.backend, panel, true) == PanelSocket())
            && (r.backend != panel ==> OneRelay(lines, Target(r.backend, panel, true), r.backend))
            && Relay(PanelSocket()) !in lines
  {
    hide ClientIpBackend, LoopbackBackend, PanelSocket, Groups, Top, Rendered, Backends;
    var backends := Backends(routes, panel, {});
    RenderedGroups(routes, panel);
    var top, groups := Top(routes, panel), Groups(backends, panel);
    TopLines(routes, panel, i);
    var r := routes[i];
    SocketIsRead(r.backend, panel);
    if r.backend != panel {
      RelayInGroups(routes, panel, r.backend, top);
    }
    NoPanelRelay(backends, panel);
  }

  /** The relay form is its top and one group for each backend but the panel. */
  lemma RenderedGroups(routes: seq<Route>, panel: string)
    requires AllLoopback(routes)
    ensures Rendered(routes, panel, true) == Top(routes, panel) + Groups(Backends(routes, panel, {}), panel) + [End]
    ensures forall b <- Backends(routes, panel, {}) :: LoopbackBackend(b) && b != panel
    ensures NoRepeats(Backends(routes, panel, {}))
    ensures forall r <- routes :: r.backend != panel ==> r.backend in Backends(routes, panel, {})
  {
    RelaysAreGroups(routes, panel, {});
    BackendsAre(routes, panel, {});
    hide LoopbackBackend, PanelSocket, Relays, Groups, Entries, Middle, Default, DefaultTarget, Backends;
    forall b <- Backends(routes, panel, {}) ensures LoopbackBackend(b) {
      var r :| r in routes && r.backend == b;
    }
  }

  lemma RelayInGroups(routes: seq<Route>, panel: string, backend: string, top: seq<Line>)
    requires AllLoopback(routes) && backend in Backends(routes, panel, {})
    requires forall m :: 0 <= m < |top| ==> !top[m].Relay?
    ensures OneRelay(top + Groups(Backends(routes, panel, {}), panel) + [End], Target(backend, panel, true), backend)
  {
    hide Groups, Target, LoopbackBackend, OneRelay, Backends;
    var backends := Backends(routes, panel, {});
    RenderedGroups(routes, panel);
    var k :| 0 <= k < |backends| && backends[k] == backend;
    OneRelayInGroups(backends, panel, k);
    RelayWithin(top, Groups(backends, panel), 4 * k + 1, Target(backend, panel, true), backend);
  }

  /** Everything above the relays. */
  ghost function Top(routes: seq<Route>, panel: string): seq<Line> {
    [Begin, MapOpen] + Entries(routes, panel, true) + [Entry(Default(), DefaultTarget(true))] + Middle(true)
  }

  lemma TopLines(routes: seq<Route>, panel: string, i: nat)
    requires i < |routes|
    ensures |Top(routes, panel)| > 2 + i
    ensures Top(routes, panel)[2 + i] == Entry(routes[i].domain, Target(routes[i].backend, panel, true))
    ensures forall m :: 0 <= m < |Top(routes, panel)| ==> !Top(routes, panel)[m].Relay?
  {
    hide Target, Default, DefaultTarget;
  }

  lemma RelayWithin(top: seq<Line>, groups: seq<Line>, n: nat, socket: string, backend: string)
    requires forall m :: 0 <= m < |top| ==> !top[m].Relay?
    requires RelaysAt(groups, n, socket, backend) && forall m :: 0 <= m < |groups| && groups[m] == Relay(socket) ==> m == n
    ensures OneRelay(top + groups + [End], socket, backend)
  {
    var lines := top + groups + [End];
    assert RelaysAt(lines, |top| + n, socket, backend);
    forall m | 0 <= m < |lines| && lines[m] == Relay(socket) ensures m == |top| + n {
      if |top| <= m < |top| + |groups| {
        assert groups[m - |top|] == Relay(socket);
      }
    }
  }

  lemma NoPanelRelay(backends: seq<string>, panel: string)
    requires forall b <- backends :: LoopbackBackend(b) && b != panel
    ensures Relay(PanelSocket()) !in Groups(backends, panel)
  {
    hide ClientIpBackend, LoopbackBackend, PanelSocket, Groups;
    forall n | 0 <= n < 4 * |backends| ensures Groups(backends, panel)[n] != Relay(PanelSocket()) {
      if Groups(backends, panel)[n].Relay? {
        ListenerOf(backends, panel, n);
        SocketIsRead(backends[n / 4], panel);
      }
    }
  }

  // ----- where a name goes ------------------------------------------------------------------------------

  /** The target of the first entry of a name. */
  function TargetOf(lines: seq<Line>, name: string): Option<string> {
    if lines == [] then None
    else if lines[0].Entry? && lines[0].name == name then Some(lines[0].target)
    else TargetOf(lines[1..], name)
  }

  /** What the first server on a socket passes to. */
  function PassedTo(lines: seq<Line>, socket: string): Option<string> {
    if |lines| < 4 then None
    else if lines[0].ServerOpen? && lines[1] == Relay(socket) && lines[2].PassTo? && lines[3].Close? then Some(lines[2].backend)
    else PassedTo(lines[1..], socket)
  }

  /** The lines of a block, up to the one that closes it. */
  function Inside(lines: seq<Line>): seq<Line> {
    if lines == [] || lines[0].Close? then [] else [lines[0]] + Inside(lines[1..])
  }

  /** The map of server names. */
  function NameMap(lines: seq<Line>): seq<Line> {
    if lines == [] then [] else if lines[0].MapOpen? then Inside(lines[1..]) else NameMap(lines[1..])
  }

  /** The server on port 443. */
  function Front(lines: seq<Line>): seq<Line> {
    if lines == [] then []
    else if lines[0].ServerOpen? && Listen443 in Inside(lines[1..]) then Inside(lines[1..])
    else Front(lines[1..])
  }

  /** The backend that serves a server name. The front server on port 443 must read the name and pass to what the map
      has for it, or else for the default. Behind the panel's socket is the panel, and behind any other socket its relay;
      both take a connection only with the header that `proxy_protocol on` sends. Any other target is a backend, which
      takes it only without. */
  function Destination(lines: seq<Line>, panel: string, name: string): Option<string> {
    var front, names := Front(lines), NameMap(lines);
    var entry := TargetOf(names, name);
    if Preread !in front || PassVariable !in front then None
    else
      match if entry.Some? then entry else TargetOf(names, Default())
      case None => None
      case Some(target) =>
        var header := ProxyProtocol in front;
        if target == PanelSocket() then if header then Some(panel) else None
        else if PassedTo(lines, target).Some? then if header then PassedTo(lines, target) else None
        else if header then None else Some(target)
  }

  /** The first route of a name. */
  function RouteOf(routes: seq<Route>, name: string): (r: Option<Route>)
    ensures r.Some? ==> r.value in routes && r.value.domain == name
    ensures r.None? ==> forall route <- routes :: route.domain != name
  {
    if routes == [] then None
    else if routes[0].domain == name then Some(routes[0])
    else RouteOf(routes[1..], name)
  }

  lemma {:induction false} EntriesTarget(routes: seq<Route>, panel: string, preserve: bool, rest: seq<Line>, name: string)
    ensures TargetOf(Entries(routes, panel, preserve) + rest, name)
            == match RouteOf(routes, name)
               case Some(r) => Some(Target(r.backend, panel, preserve))
               case None => TargetOf(rest, name)
  {
    hide Target;
    var entries := Entries(routes, panel, preserve);
    if routes == [] {
      assert entries + rest == rest;
    } else {
      assert (entries + rest)[1..] == Entries(routes[1..], panel, preserve) + rest;
      EntriesTarget(routes[1..], panel, preserve, rest, name);
    }
  }

  lemma {:induction false} InsideIs(lines: seq<Line>, rest: seq<Line>)
    requires forall line <- lines :: !line.Close?
    ensures Inside(lines + [Close] + rest) == lines
  {
    if lines == [] {
      assert [] + [Close] + rest == [Close] + rest;
    } else {
      InsideIs(lines[1..], rest);
      assert (lines + [Close] + rest)[1..] == lines[1..] + [Close] + rest;
    }
  }

  lemma {:induction false} FrontSkips(lines: seq<Line>, rest: seq<Line>)
    requires forall line <- lines :: !line.ServerOpen?
    ensures Front(lines + rest) == Front(rest)
  {
    if lines == [] {
      assert lines + rest == rest;
    } else {
      FrontSkips(lines[1..], rest);
      assert (lines + rest)[1..] == lines[1..] + rest;
    }
  }

  function FrontLines(preserve: bool): seq<Line> {
    [Listen443, Preread] + (if preserve then [ProxyProtocol] else []) + [PassVariable]
  }

  lemma FrontSends(preserve: bool)
    ensures Preread in FrontLines(preserve) && PassVariable in FrontLines(preserve) && Listen443 in FrontLines(preserve)
    ensures ProxyProtocol in FrontLines(preserve) <==> preserve
    ensures Close !in FrontLines(preserve)
  {
  }

  /** The parts of a rendering: its map and its front server. */
  lemma RenderedParts(routes: seq<Route>, panel: string, preserve: bool)
    ensures NameMap(Rendered(routes, panel, preserve)) == Names(routes, panel, preserve)
    ensures Front(Rendered(routes, panel, preserve)) == FrontLines(preserve)
  {
    var names := Names(routes, panel, preserve);
    var rest := (if preserve then Relays(routes, panel, {}) else []) + [End];
    Layout(routes, panel, preserve);
    NamesAreEntries(routes, panel, preserve);
    FrontSends(preserve);
    hide Rendered, FrontLines, Names;
    PartsOf(names, FrontLines(preserve), rest);
  }

  function Names(routes: seq<Route>, panel: string, preserve: bool): seq<Line> {
    Entries(routes, panel, preserve) + [Entry(Default(), DefaultTarget(preserve))]
  }

  lemma NamesAreEntries(routes: seq<Route>, panel: string, preserve: bool)
    ensures forall line <- Names(routes, panel, preserve) :: line.Entry?
  {
    hide Target, Default, DefaultTarget;
  }

  lemma Layout(routes: seq<Route>, panel: string, preserve: bool)
    ensures Rendered(routes, panel, preserve)
            == [Begin, MapOpen] + Names(routes, panel, preserve)
               + ([Close, ServerOpen] + FrontLines(preserve)
                  + ([Close] + ((if preserve then Relays(routes, panel, {}) else []) + [End])))
  {
    hide Entries, Default, DefaultTarget, Relays;
    assert Middle(preserve) == [Close, ServerOpen] + FrontLines(preserve) + [Close];
    hide FrontLines, Middle;
  }

  /** A map, a server, and what follows. */
  lemma PartsOf(names: seq<Line>, front: seq<Line>, rest: seq<Line>)
    requires (forall line <- names :: line.Entry?) && Listen443 in front && Close !in front
    ensures var lines := [Begin, MapOpen] + names + ([Close, ServerOpen] + front + ([Close] + rest));
            NameMap(lines) == names && Front(lines) == front
  {
    var server := [ServerOpen] + (front + [Close] + rest);
    var lines := [Begin, MapOpen] + names + ([Close, ServerOpen] + front + ([Close] + rest));
    assert lines == [Begin] + ([MapOpen] + (names + [Close] + server));
    assert lines == ([Begin, MapOpen] + names + [Close]) + server;
    hide Inside, Front, NameMap;
    InsideIs(names, server);
    MapIs(names + [Close] + server);
    InsideIs(front, rest);
    FrontSkips([Begin, MapOpen] + names + [Close], server);
    FrontIs(front + [Close] + rest);
  }

  lemma MapIs(rest: seq<Line>)
    ensures NameMap([Begin] + ([MapOpen] + rest)) == Inside(rest)
  {
    assert ([Begin] + ([MapOpen] + rest))[1..] == [MapOpen] + rest && ([MapOpen] + rest)[1..] == rest;
  }

  lemma FrontIs(rest: seq<Line>)
    requires Listen443 in Inside(rest)
    ensures Front([ServerOpen] + rest) == Inside(rest)
  {
    assert ([ServerOpen] + rest)[1..] == rest;
  }

  /** The map of a rendering: a route's target, or the default's. */
  lemma MapOfRendered(routes: seq<Route>, panel: string, preserve: bool, name: string)
    requires RouteOf(routes, Default()).None?
    ensures TargetOf(NameMap(Rendered(routes, panel, preserve)), Default()) == Some(DefaultTarget(preserve))
    ensures name != Default() ==>
              TargetOf(NameMap(Rendered(routes, panel, preserve)), name)
              == match RouteOf(routes, name)
                 case Some(r) => Some(Target(r.backend, panel, preserve))
                 case None => None
  {
    RenderedParts(routes, panel, preserve);
    hide Target, Entries, Default, DefaultTarget, Rendered, RouteOf;
    var default := [Entry(Default(), DefaultTarget(preserve))];
    EntriesTarget(routes, panel, preserve, default, Default());
    EntriesTarget(routes, panel, preserve, default, name);
  }

  lemma {:induction false} NoListener(lines: seq<Line>, socket: string)
    requires Relay(socket) !in lines
    ensures PassedTo(lines, socket) == None
  {
    if |lines| >= 4 {
      assert lines[1] in lines;
      NoListener(lines[1..], socket);
    }
  }

  lemma {:induction false} OneListener(lines: seq<Line>, n: nat, socket: string, backend: string)
    requires RelaysAt(lines, n, socket, backend) && forall m :: 0 <= m < |lines| && lines[m] == Relay(socket) ==> m == n
    ensures PassedTo(lines, socket) == Some(backend)
    decreases n
  {
    if n > 1 {
      assert lines[1] != Relay(socket);
      OneListener(lines[1..], n - 1, socket, backend);
    }
  }

  /** A listed name is served by the backend of its first route, in either form. */
  lemma ListedNames(routes: seq<Route>, panel: string, preserve: bool, name: string)
    requires AllLoopback(routes) && RouteOf(routes, Default()).None? && RouteOf(routes, name).Some?
    ensures Destination(Rendered(routes, panel, preserve), panel, name) == Some(RouteOf(routes, name).value.backend)
  {
    hide ClientIpBackend, LoopbackBackend, PanelSocket, Rendered, Default;
    var lines, r := Rendered(routes, panel, preserve), RouteOf(routes, name).value;
    MapOfRendered(routes, panel, preserve, name);
    RenderedParts(routes, panel, preserve);
    FrontSends(preserve);
    hide FrontLines, NameMap, Front, Entries;
    SocketIsRead(r.backend, panel);
    if preserve {
      var i :| 0 <= i < |routes| && routes[i] == r;
      RelayMeaning(routes, panel, i);
      if r.backend != panel {
        var n :| RelaysAt(lines, n, Target(r.backend, panel, true), r.backend)
                 && forall m :: 0 <= m < |lines| && lines[m] == Relay(Target(r.backend, panel, true)) ==> m == n;
        OneListener(lines, n, Target(r.backend, panel, true), r.backend);
      }
    } else {
      LegacyHasNoListeners(routes, panel, r.backend);
      BackendIsNoSocket(r.backend);
    }
  }

  lemma LegacyHasNoListeners(routes: seq<Route>, panel: string, socket: string)
    ensures PassedTo(Rendered(routes, panel, false), socket) == None
  {
    hide Target, Default, DefaultTarget;
    NoListener(Rendered(routes, panel, false), socket);
  }

  lemma BackendIsNoSocket(backend: string)
    requires LoopbackBackend(backend)
    ensures backend != PanelSocket()
  {
    SocketWords();
    hide PanelSocket, Loopback;
  }

  /** A name that no route lists goes to the panel in the relay form, and to port 8443 in the legacy form. */
  lemma UnlistedNames(routes: seq<Route>, panel: string, name: string)
    requires RouteOf(routes, Default()).None? && RouteOf(routes, name).None? && name != Default()
    ensures Destination(Rendered(routes, panel, true), panel, name) == Some(panel)
    ensures Destination(Rendered(routes, panel, false), panel, name) == Some(Loopback() + "8443")
  {
    MapOfRendered(routes, panel, true, name);
    MapOfRendered(routes, panel, false, name);
    RenderedParts(routes, panel, true);
    RenderedParts(routes, panel, false);
    FrontSends(true);
    FrontSends(false);
    hide FrontLines, NameMap, Front, Entries;
    LegacyHasNoListeners(routes, panel, DefaultTarget(false));
    DefaultPort();
    BackendIsNoSocket(Loopback() + "8443");
    hide Rendered, PanelSocket, Loopback;
  }

  lemma DefaultPort()
    ensures LoopbackBackend(Loopback() + "8443")
  {
    assert (Loopback() + "8443")[|Loopback()|..] == "8443";
  }

  /** The rewrite keeps every name where it went: a listed one always, any other exactly if the panel is what the legacy
      form defaults to. */
  lemma RoutingPreserved(routes: seq<Route>, panel: string, name: string)
    requires AllLoopback(routes) && RouteOf(routes, Default()).None? && name != Default()
    ensures Destination(Rendered(routes, panel, true), panel, name) == Destination(Rendered(routes, panel, false), panel, name)
            <==> RouteOf(routes, name).Some? || panel == Loopback() + "8443"
  {
    hide Rendered, Destination, AllLoopback;
    if RouteOf(routes, name).Some? {
      ListedNames(routes, panel, true, name);
      ListedNames(routes, panel, false, name);
    } else {
      UnlistedNames(routes, panel, name);
    }
  }

  // ----- the exact text ----------------------------------------------------------------------------------

  /** Every line but the four with something to fill in. */
  lemma FixedLines()
    ensures Spell(Begin) == "# BEGIN " + "PROXY-CONTROL GENERATED STREAM ROUTER"
    ensures Spell(MapOpen) == "map " + ("$ssl_preread_server_name" + (" " + ("$proxy_control_backend" + " {")))
    ensures Spell(Close) == "}" && Spell(ServerOpen) == "server {"
    ensures Spell(Listen443) == "    " + "listen 443;" && Spell(Preread) == "    " + "ssl_preread on;"
    ensures Spell(ProxyProtocol) == "    " + "proxy_protocol on;"
    ensures Spell(PassVariable) == "    " + ("proxy_pass " + ("$proxy_control_backend" + ";"))
    ensures Spell(End) == "# END " + "PROXY-CONTROL GENERATED STREAM ROUTER"
  {
  }

  /** The other four. */
  lemma FilledLines(name: string, target: string)
    ensures Spell(Entry(name, target)) == "    " + (name + (" " + (target + ";")))
    ensures Spell(Relay(target)) == "    " + ("listen " + (target + " proxy_protocol;"))
    ensures Spell(PassTo(target)) == "    " + ("proxy_pass " + (target + ";"))
    ensures Default() == "default"
  {
    hide Default;
    DefaultWord();
  }

  lemma DefaultWord()
    ensures Default() == "default"
  {
  }

  function RawSocket(port: string): string {
    ("unix:/run/proxy-control-" + "raw-") + port + ".sock"
  }

  function PanelTls(): string {
    "unix:/run/proxy-control-" + "panel-tls.sock"
  }

  function TwoRoutes(a: string, p: string, b: string, q: string): seq<Route> {
    [Route(a, "127.0.0.1:" + p), Route(b, "127.0.0.1:" + q)]
  }

  lemma SocketOf(port: string, panel: string)
    requires IsPort(port) && panel != "127.0.0.1:" + port
    ensures Target("127.0.0.1:" + port, panel, true) == RawSocket(port)
  {
    hide LastPart;
    assert ("127.0.0.1:" + port)[|Loopback()|..] == port;
    PortIsLast(port);
  }

  /** The lines of both forms for two routes to different backends, neither of them the panel. */
  lemma TwoRoutesLines(a: string, p: string, b: string, q: string, panel: string)
    requires IsPort(p) && IsPort(q) && p != q && panel != "127.0.0.1:" + p && panel != "127.0.0.1:" + q
    ensures Rendered(TwoRoutes(a, p, b, q), panel, false)
            == [Begin, MapOpen, Entry(a, "127.0.0.1:" + p), Entry(b, "127.0.0.1:" + q),
                Entry(Default(), "127.0.0.1:" + "8443"), Close, ServerOpen, Listen443, Preread, PassVariable, Close, End]
    ensures Rendered(TwoRoutes(a, p, b, q), panel, true)
            == [Begin, MapOpen, Entry(a, RawSocket(p)), Entry(b, RawSocket(q)), Entry(Default(), PanelTls()), Close,
                ServerOpen, Listen443, Preread, ProxyProtocol, PassVariable, Close,
                ServerOpen, Relay(RawSocket(p)), PassTo("127.0.0.1:" + p), Close,
                ServerOpen, Relay(RawSocket(q)), PassTo("127.0.0.1:" + q), Close, End]
  {
    SocketOf(p, panel);
    SocketOf(q, panel);
    TwoRelays(a, p, b, q, panel);
    assert DefaultTarget(true) == PanelTls();
    hide Default, IsPort, RawSocket, Relays, ClientIpBackend;
  }

  lemma TwoRelays(a: string, p: string, b: string, q: string, panel: string)
    requires IsPort(p) && IsPort(q) && p != q && panel != "127.0.0.1:" + p && panel != "127.0.0.1:" + q
    ensures Relays(TwoRoutes(a, p, b, q), panel, {})
            == [ServerOpen, Relay(RawSocket(p)), PassTo("127.0.0.1:" + p), Close,
                ServerOpen, Relay(RawSocket(q)), PassTo("127.0.0.1:" + q), Close]
  {
    SocketOf(p, panel);
    SocketOf(q, panel);
    var x, y := "127.0.0.1:" + p, "127.0.0.1:" + q;
    assert x[10..] == p && y[10..] == q;
    hide Target, RawSocket, IsPort;
    var routes := TwoRoutes(a, p, b, q);
    assert routes[1..] == [Route(b, y)] && routes[1..][1..] == [];
    assert Relays(routes[1..], panel, {x}) == [ServerOpen, Relay(RawSocket(q)), PassTo(y), Close];
    assert {} + {x} == {x};
  }

  function MapText(a: string, x: string, b: string, y: string, default: string): seq<string> {
    ["# BEGIN " + "PROXY-CONTROL GENERATED STREAM ROUTER",
     "map " + ("$ssl_preread_server_name" + (" " + ("$proxy_control_backend" + " {"))),
     "    " + (a + (" " + (x + ";"))),
     "    " + (b + (" " + (y + ";"))),
     "    " + ("default" + (" " + (default + ";"))),
     "}"]
  }

  function LegacyFrontText(): seq<string> {
    ["server {",
     "    " + "listen 443;",
     "    " + "ssl_preread on;",
     "    " + ("proxy_pass " + ("$proxy_control_backend" + ";")),
     "}"]
  }

  function RelayFrontText(): seq<string> {
    ["server {",
     "    " + "listen 443;",
     "    " + "ssl_preread on;",
     "    " + "proxy_protocol on;",
     "    " + ("proxy_pass " + ("$proxy_control_backend" + ";")),
     "}"]
  }

  function ListenerText(socket: string, backend: string): seq<string> {
    ["server {",
     "    " + ("listen " + (socket + " proxy_protocol;")),
     "    " + ("proxy_pass " + (backend + ";")),
     "}"]
  }

  function FootText(): seq<string> {
    ["# END " + "PROXY-CONTROL GENERATED STREAM ROUTER", ""]
  }

  lemma MapSpelled(a: string, x: string, b: string, y: string, default: string)
    ensures Spelled([Begin, MapOpen, Entry(a, x), Entry(b, y), Entry(Default(), default), Close]) == MapText(a, x, b, y, default)
  {
    FixedLines();
    FilledLines(a, x);
    FilledLines(b, y);
    FilledLines(Default(), default);
    hide Spell, Default;
  }

  lemma FrontSpelled()
    ensures Spelled([ServerOpen, Listen443, Preread, PassVariable, Close]) == LegacyFrontText()
    ensures Spelled([ServerOpen, Listen443, Preread, ProxyProtocol, PassVariable, Close]) == RelayFrontText()
  {
    FixedLines();
    hide Spell;
  }

  lemma ListenerSpelled(socket: string, backend: string)
    ensures Spelled([ServerOpen, Relay(socket), PassTo(backend), Close]) == ListenerText(socket, backend)
  {
    FixedLines();
    FilledLines("", socket);
    FilledLines("", backend);
    hide Spell, Default;
  }

  lemma EndSpelled()
    ensures Spelled([End]) + [[]] == FootText()
  {
    FixedLines();
    hide Spell;
  }

  lemma SpelledConcat(x: seq<Line>, y: seq<Line>)
    ensures Spelled(x + y) == Spelled(x) + Spelled(y)
  {
    hide Spell;
  }

  /** The exact text of both forms for any two routes to different backends, neither of them the panel. */
  lemma TwoRoutesText(a: string, p: string, b: string, q: string, panel: string)
    requires IsPort(p) && IsPort(q) && p != q && panel != "127.0.0.1:" + p && panel != "127.0.0.1:" + q
    ensures var x, y := "127.0.0.1:" + p, "127.0.0.1:" + q;
            Written(Rendered(TwoRoutes(a, p, b, q), panel, false))
            == Join(MapText(a, x, b, y, "127.0.0.1:" + "8443") + LegacyFrontText() + FootText(), '\n')
    ensures var x, y := "127.0.0.1:" + p, "127.0.0.1:" + q;
            Written(Rendered(TwoRoutes(a, p, b, q), panel, true))
            == Join(MapText(a, RawSocket(p), b, RawSocket(q), PanelTls()) + RelayFrontText()
                    + ListenerText(RawSocket(p), x) + ListenerText(RawSocket(q), y) + FootText(), '\n')
  {
    hide Spell, Written, Rendered, Join, RawSocket, PanelTls, Default, IsPort, TwoRoutes, Spelled;
    hide MapText, LegacyFrontText, RelayFrontText, ListenerText, FootText;
    TwoRoutesLines(a, p, b, q, panel);
    LegacySpelled(a, "127.0.0.1:" + p, b, "127.0.0.1:" + q, "127.0.0.1:" + "8443");
    RelaySpelled(a, RawSocket(p), "127.0.0.1:" + p, b, RawSocket(q), "127.0.0.1:" + q, PanelTls());
    WrittenIsJoined(Rendered(TwoRoutes(a, p, b, q), panel, false));
    WrittenIsJoined(Rendered(TwoRoutes(a, p, b, q), panel, true));
  }

  lemma LegacySpelled(a: string, x: string, b: string, y: string, default: string)
    ensures Spelled([Begin, MapOpen, Entry(a, x), Entry(b, y), Entry(Default(), default), Close,
                     ServerOpen, Listen443, Preread, PassVariable, Close, End]) + [[]]
            == MapText(a, x, b, y, default) + LegacyFrontText() + FootText()
  {
    hide Spelled, Spell, Default, MapText, LegacyFrontText, FootText;
    var names := [Begin, MapOpen, Entry(a, x), Entry(b, y), Entry(Default(), default), Close];
    var front := [ServerOpen, Listen443, Preread, PassVariable, Close];
    SpelledConcat(names, front);
    SpelledConcat(names + front, [End]);
    MapSpelled(a, x, b, y, default);
    FrontSpelled();
    EndSpelled();
    assert names + front + [End]
        == [Begin, MapOpen, Entry(a, x), Entry(b, y), Entry(Default(), default), Close,
            ServerOpen, Listen443, Preread, PassVariable, Close, End];
    Last(Spelled(names) + Spelled(front), Spelled([End]));
  }

  lemma RelaySpelled(a: string, s: string, x: string, b: string, t: string, y: string, default: string)
    ensures Spelled([Begin, MapOpen, Entry(a, s), Entry(b, t), Entry(Default(), default), Close,
                     ServerOpen, Listen443, Preread, ProxyProtocol, PassVariable, Close,
                     ServerOpen, Relay(s), PassTo(x), Close, ServerOpen, Relay(t), PassTo(y), Close, End]) + [[]]
            == MapText(a, s, b, t, default) + RelayFrontText() + ListenerText(s, x) + ListenerText(t, y) + FootText()
  {
    hide Spelled, Spell, Default, MapText, RelayFrontText, ListenerText, FootText;
    var names := [Begin, MapOpen, Entry(a, s), Entry(b, t), Entry(Default(), default), Close];
    var front := [ServerOpen, Listen443, Preread, ProxyProtocol, PassVariable, Close];
    var one, two := [ServerOpen, Relay(s), PassTo(x), Close], [ServerOpen, Relay(t), PassTo(y), Close];
    SpelledConcat(names, front);
    SpelledConcat(names + front, one);
    SpelledConcat(names + front + one, two);
    SpelledConcat(names + front + one + two, [End]);
    MapSpelled(a, s, b, t, default);
    FrontSpelled();
    ListenerSpelled(s, x);
    ListenerSpelled(t, y);
    EndSpelled();
    assert names + front + one + two + [End]
        == [Begin, MapOpen, Entry(a, s), Entry(b, t), Entry(Default(), default), Close,
            ServerOpen, Listen443, Preread, ProxyProtocol, PassVariable, Close,
            ServerOpen, Relay(s), PassTo(x), Close, ServerOpen, Relay(t), PassTo(y), Close, End];
    Last(Spelled(names) + Spelled(front) + Spelled(one) + Spelled(two), Spelled([End]));
  }

  lemma Last(texts: seq<string>, end: seq<string>)
    ensures texts + end + [[]] == texts + (end + [[]])
  {
  }

  // ----- searching text ------------------------------------------------------------------------------------

  /** `text.find(pattern)`. */
  function Find(text: string, pattern: string): (r: Option<nat>)
    ensures r.Some? ==> r.value + |pattern| <= |text|
  {
    if pattern <= text then Some(0)
    else if text == [] then None
    else match Find(text[1..], pattern) case None => None case Some(n) => Some(n + 1)
  }

  lemma FindFirst(pattern: string, rest: string)
    ensures Find(pattern + rest, pattern) == Some(0)
  {
  }

  /** A stretch in which the pattern does not begin is passed over. */
  lemma {:induction false} FindPast(skipped: string, rest: string, pattern: string)
    requires forall n :: 0 <= n < |skipped| ==> !(pattern <= (skipped + rest)[n..])
    ensures Find(skipped + rest, pattern)
            == match Find(rest, pattern) case None => None case Some(n) => Some(|skipped| + n)
  {
    if skipped == [] {
      assert skipped + rest == rest;
    } else {
      assert (skipped + rest)[0..] == skipped + rest;
      assert (skipped + rest)[1..] == skipped[1..] + rest;
      forall n | 0 <= n < |skipped[1..]| ensures !(pattern <= (skipped[1..] + rest)[n..]) {
        assert (skipped[1..] + rest)[n..] == (skipped + rest)[n + 1..];
      }
      FindPast(skipped[1..], rest, pattern);
    }
  }

  // ----- reading a configuration ------------------------------------------------------------------------------

  predicate ValidDomain(domain: string) {
    domain != [] && forall c <- domain :: 'a' <= c <= 'z' || '0' <= c <= '9' || c == '.' || c == '-'
  }

  predicate IsWhitespace(c: char) {
    c == ' ' || c == '\t' || c == '\n' || c == '\r' || c as int == 12
  }

  /** One line of the map. */
  function ParseRoute(line: string, panel: string): Option<Route> {
    if !(Indent() <= line) then None
    else
      match SplitOnce(line[|Indent()|..], ' ')
      case None => None
      case Some((domain, rest)) =>
        if rest == [] || rest[|rest| - 1] != ';' then None
        else
          var target := rest[..|rest| - 1];
          if !ValidDomain(domain) || target == [] || (exists c <- target :: IsWhitespace(c)) then None
          else
            var backend := BackendOf(target, panel);
            if LoopbackBackend(backend) then Some(Route(domain, backend)) else None
  }

  function ParseRoutes(lines: seq<string>, panel: string): Option<seq<Route>> {
    if lines == [] then Some([])
    else
      var n := |lines| - 1;
      match (ParseRoutes(lines[..n], panel), ParseRoute(lines[n], panel))
      case (Some(routes), Some(route)) => Some(routes + [route])
      case _ => None
  }

  /** The routes between the map's first line and its default. */
  function ReadRoutes(text: string, panel: string): Option<seq<Route>> {
    match Find(text, MapLine() + "\n")
    case None => None
    case Some(n) =>
      var rest := text[n + |MapLine()| + 1..];
      match Find(rest, Mark())
      case None => None
      case Some(end) => ParseRoutes(Uapi.Lines(rest[..end]), panel)
  }

  /** Routes as a configuration may have them. */
  ghost predicate ValidRoutes(routes: seq<Route>) {
    forall r <- routes :: ValidDomain(r.domain) && LoopbackBackend(r.backend)
  }

  /** Text without spaces, line ends or semicolons. */
  predicate Solid(text: string) {
    text != [] && forall c <- text :: c > ' ' && c != ';'
  }

  lemma SocketsAreSolid()
    ensures Solid(PanelSocket()) && Solid(RawPrefix()) && Solid(SocketSuffix()) && Solid(Loopback()) && Solid("8443")
  {
    hide RunPrefix;
    RunPrefixIsSolid();
    assert Solid("panel-tls.sock") && Solid("raw-");
  }

  lemma RunPrefixIsSolid()
    ensures Solid(RunPrefix())
  {
  }

  lemma TargetIsSolid(backend: string, panel: string, preserve: bool)
    requires LoopbackBackend(backend)
    ensures Solid(Target(backend, panel, preserve)) && Solid(backend)
    ensures BackendOf(Target(backend, panel, preserve), panel) == backend
  {
    hide Loopback, PanelSocket, RawPrefix, SocketSuffix, BackendOf, LastPart;
    SocketsAreSolid();
    SocketIsRead(backend, panel);
    var port := backend[|Loopback()|..];
    assert backend == Loopback() + port;
    PortIsLast(port);
  }

  lemma DefaultIsSolid(preserve: bool)
    ensures Solid(DefaultTarget(preserve))
  {
    hide Loopback, PanelSocket;
    SocketsAreSolid();
  }

  lemma EntryIsRead(domain: string, target: string, panel: string)
    requires ValidDomain(domain) && Solid(target) && LoopbackBackend(BackendOf(target, panel))
    ensures ParseRoute(Spell(Entry(domain, target)), panel) == Some(Route(domain, BackendOf(target, panel)))
  {
    hide BackendOf, LoopbackBackend;
    var line := Spell(Entry(domain, target));
    var rest := target + [';'];
    assert line[|Indent()|..] == domain + [' '] + rest;
    assert ' ' !in domain;
    SplitOnceAt(domain, rest, ' ');
    assert rest[..|rest| - 1] == target;
  }

  lemma EntryIsClean(domain: string, target: string)
    requires ValidDomain(domain) && Solid(target)
    ensures Uapi.Clean(Spell(Entry(domain, target)))
  {
    RouteWords();
  }

  // ----- reading what was rendered ------------------------------------------------------------------------------

  /** The text of the map from its first route on, and how it goes on after the default's target. */
  ghost function After(routes: seq<Route>, panel: string, preserve: bool): seq<Line> {
    Middle(preserve) + (if preserve then Relays(routes, panel, {}) else []) + [End]
  }

  ghost function EndText(routes: seq<Route>, panel: string, preserve: bool): string {
    DefaultTarget(preserve) + ([';', '\n'] + Written(After(routes, panel, preserve)))
  }

  /** The rendering, piece by piece. */
  lemma RenderedText(routes: seq<Route>, panel: string, preserve: bool)
    ensures Written(Rendered(routes, panel, preserve))
            == Opening() + ['\n'] + (MapLine() + ['\n']
               + (Written(Entries(routes, panel, preserve)) + (Mark() + EndText(routes, panel, preserve))))
  {
    hide Opening, MapLine, Relays, Middle, Default, DefaultTarget, Indent, Spell, Written, Entries;
    var entries, after := Entries(routes, panel, preserve), After(routes, panel, preserve);
    var default := Entry(Default(), DefaultTarget(preserve));
    assert Rendered(routes, panel, preserve) == [Begin] + ([MapOpen] + (entries + ([default] + after)));
    WrittenConcat([Begin], [MapOpen] + (entries + ([default] + after)));
    WrittenConcat([MapOpen], entries + ([default] + after));
    WrittenConcat(entries, [default] + after);
    WrittenConcat([default], after);
    WrittenOne(Begin);
    WrittenOne(MapOpen);
    WrittenOne(default);
    OpeningSpelled();
    EntryText(Default(), DefaultTarget(preserve), Written(after));
  }

  lemma OpeningSpelled()
    ensures Spell(Begin) == Opening() && Spell(MapOpen) == MapLine()
  {
  }

  /** An entry cut after its name. */
  lemma EntryText(name: string, target: string, rest: string)
    ensures Spell(Entry(name, target)) + ['\n'] + rest == Indent() + (name + " ") + (target + ([';', '\n'] + rest))
  {
    hide Indent;
    var line := Spell(Entry(name, target));
    assert line == Indent() + (name + " ") + (target + [';']);
    assert line + ['\n'] + rest == Indent() + (name + " ") + (target + [';'] + ['\n'] + rest);
  }

  lemma WrittenOne(line: Line)
    ensures Written([line]) == Spell(line) + ['\n']
  {
    hide Spell;
    assert [line][1..] == [];
    assert Written([]) == [];
    assert Spell(line) + ['\n'] + [] == Spell(line) + ['\n'];
  }

  /** The start of the default line does not begin inside a route's line. */
  lemma NoMarkInside(domain: string, target: string, rest: string, n: nat)
    requires ValidDomain(domain) && domain != Default() && Solid(target)
    requires n < |Spell(Entry(domain, target))| + 1
    ensures !(Mark() <= (Spell(Entry(domain, target)) + ['\n'] + rest)[n..])
  {
    RouteWords();
    hide Default;
    var line := Spell(Entry(domain, target));
    var text := line + ['\n'] + rest;
    var p := 4 + |domain|;
    assert line == [' ', ' ', ' ', ' '] + (domain + ([' '] + (target + [';'])));
    forall k | 4 <= k < |line| + 1 && k != p ensures text[k] != ' ' {
      if k < p {
        assert text[k] == domain[k - 4] && domain[k - 4] in domain;
      } else if k <= p + |target| {
        assert text[k] == target[k - p - 1] && target[k - p - 1] in target;
      }
    }
    if n == 0 {
      if Mark() <= text {
        DomainIsDefault(domain, target, rest);
      }
    } else {
      var k := if n <= 4 then 4 else if n == p then p + 1 else n;
      assert text[k] != ' ' && Mark()[k - n] == ' ' && text[n..][k - n] == text[k];
    }
  }

  lemma DomainIsDefault(domain: string, target: string, rest: string)
    requires ValidDomain(domain) && Solid(target)
    requires Mark() <= Spell(Entry(domain, target)) + ['\n'] + rest
    ensures domain == Default()
  {
    hide Default, Indent, Spell;
    var text := Spell(Entry(domain, target)) + ['\n'] + rest;
    var after := target + ([';', '\n'] + rest);
    EntryText(domain, target, rest);
    Associates(Indent(), domain + " ", after);
    assert text[|Indent()|..] == domain + [' '] + after;
    var tail := text[|Mark()|..];
    assert text == Mark() + tail;
    Associates(Indent(), Default() + " ", tail);
    assert text[|Indent()|..] == Default() + [' '] + tail;
    NoSpaces(domain);
    SplitOnceAt(domain, after, ' ');
    SplitOnceAt(Default(), tail, ' ');
  }

  lemma NoSpaces(domain: string)
    requires ValidDomain(domain)
    ensures ' ' !in domain && ' ' !in Default()
  {
  }

  /** How many routes come before one called `default`. */
  function Before(routes: seq<Route>): (k: nat)
    ensures k <= |routes| && (k < |routes| ==> routes[k].domain == Default())
    ensures forall i :: 0 <= i < k ==> routes[i].domain != Default()
  {
    if routes == [] || routes[0].domain == Default() then 0 else 1 + Before(routes[1..])
  }

  /** The search for the default line stops at the first route of that name, or after the last route. */
  lemma {:induction false} FindsDefault(routes: seq<Route>, panel: string, preserve: bool, rest: string)
    requires ValidRoutes(routes)
    ensures Find(Written(Entries(routes, panel, preserve)) + (Mark() + rest), Mark())
            == Some(|Written(Entries(routes[..Before(routes)], panel, preserve))|)
  {
    hide Target, Mark, LoopbackBackend, ValidDomain, Solid, Default, Written, Spell, Find;
    var entries := Entries(routes, panel, preserve);
    NothingWritten();
    if routes == [] {
      assert [] + (Mark() + rest) == Mark() + rest;
      FindFirst(Mark(), rest);
    } else {
      var r, target := routes[0], Target(routes[0].backend, panel, preserve);
      var line := Spell(Entry(r.domain, target)) + ['\n'];
      var more := Written(Entries(routes[1..], panel, preserve)) + (Mark() + rest);
      FirstEntry(routes, panel, preserve);
      assert line + Written(Entries(routes[1..], panel, preserve)) + (Mark() + rest) == line + more;
      if r.domain == Default() {
        DefaultRoute(target, more);
        assert Entries(routes[..0], panel, preserve) == [];
      } else {
        TargetIsSolid(r.backend, panel, preserve);
        forall n | 0 <= n < |line| ensures !(Mark() <= (line + more)[n..]) {
          NoMarkInside(r.domain, target, more, n);
        }
        FindPast(line, more, Mark());
        FindsDefault(routes[1..], panel, preserve, rest);
        FirstEntry(routes[..Before(routes)], panel, preserve);
        assert routes[..Before(routes)][1..] == routes[1..][..Before(routes[1..])];
      }
    }
  }

  lemma NothingWritten()
    ensures Written([]) == []
  {
  }

  lemma FirstEntry(routes: seq<Route>, panel: string, preserve: bool)
    requires routes != []
    ensures Written(Entries(routes, panel, preserve))
            == Spell(Entry(routes[0].domain, Target(routes[0].backend, panel, preserve))) + ['\n']
               + Written(Entries(routes[1..], panel, preserve))
  {
    hide Target, Spell;
    assert Entries(routes, panel, preserve)[1..] == Entries(routes[1..], panel, preserve);
  }

  lemma DefaultRoute(target: string, rest: string)
    ensures Find(Spell(Entry(Default(), target)) + ['\n'] + rest, Mark()) == Some(0)
  {
    hide Default, Indent;
    var text := Spell(Entry(Default(), target)) + ['\n'] + rest;
    assert text == Mark() + (target + [';', '\n'] + rest);
    FindFirst(Mark(), target + [';', '\n'] + rest);
  }

  // ----- the rewrite ------------------------------------------------------------------------------------------------

  lemma {:induction false} EntriesParse(routes: seq<Route>, panel: string, preserve: bool)
    requires ValidRoutes(routes)
    ensures ParseRoutes(Spelled(Entries(routes, panel, preserve)), panel) == Some(routes)
    ensures Uapi.CleanLines(Spelled(Entries(routes, panel, preserve)))
  {
    hide Target, Spell, ParseRoute, ValidDomain, LoopbackBackend, Solid, BackendOf, Uapi.Clean;
    if routes != [] {
      var n := |routes| - 1;
      var r, lines := routes[n], Spelled(Entries(routes, panel, preserve));
      EntriesParse(routes[..n], panel, preserve);
      assert lines[..n] == Spelled(Entries(routes[..n], panel, preserve));
      var target := Target(r.backend, panel, preserve);
      assert lines[n] == Spell(Entry(r.domain, target));
      assert r in routes;
      TargetIsSolid(r.backend, panel, preserve);
      EntryIsRead(r.domain, target, panel);
      EntryIsClean(r.domain, target);
      assert routes[..n] + [r] == routes;
    }
  }

  lemma NoLines()
    ensures Uapi.Lines([]) == []
  {
    assert Split([], '\n') == [[]];
  }

  /** The entries are read back line by line. */
  lemma EntriesAreRead(routes: seq<Route>, panel: string, preserve: bool)
    requires ValidRoutes(routes)
    ensures ParseRoutes(Uapi.Lines(Written(Entries(routes, panel, preserve))), panel) == Some(routes)
  {
    hide Target, Spell, ParseRoute, ParseRoutes, Written, Uapi.Lines, ValidRoutes, Uapi.CleanLines;
    var entries := Entries(routes, panel, preserve);
    EntriesParse(routes, panel, preserve);
    if routes == [] {
      assert entries == [] && Spelled(entries) == [];
      NothingWritten();
      NoLines();
    } else {
      WrittenIsJoined(entries);
      Uapi.JoinEnd(Spelled(entries));
      Uapi.LinesOfBody(Spelled(entries));
    }
  }

  /** A rendering is read back up to a route called `default`. */
  lemma RenderingIsRead(routes: seq<Route>, panel: string, preserve: bool)
    requires ValidRoutes(routes)
    ensures ReadRoutes(Written(Rendered(routes, panel, preserve)), panel) == Some(routes[..Before(routes)])
  {
    hide Opening, MapLine, Mark, Find, Written, Spell, Rendered, ParseRoutes, Uapi.Lines;
    hide EndText, Target, ValidDomain, LoopbackBackend;
    RenderedText(routes, panel, preserve);
    var text := Written(Rendered(routes, panel, preserve));
    var entries := Written(Entries(routes, panel, preserve));
    var body := entries + (Mark() + EndText(routes, panel, preserve));
    var opening := Opening() + ['\n'];
    assert MapLine() + "\n" == MapLine() + ['\n'];
    forall n | 0 <= n < |opening| ensures !(MapLine() + "\n" <= (opening + (MapLine() + "\n" + body))[n..]) {
      OpeningWords();
      assert (opening + (MapLine() + "\n" + body))[n..][0] == opening[n];
    }
    FindPast(opening, MapLine() + "\n" + body, MapLine() + "\n");
    FindFirst(MapLine() + "\n", body);
    assert text[|opening| + |MapLine()| + 1..] == body;
    var k := Before(routes);
    FindsDefault(routes, panel, preserve, EndText(routes, panel, preserve));
    EntriesPrefix(routes, panel, preserve, k);
    assert body[..|Written(Entries(routes[..k], panel, preserve))|] == Written(Entries(routes[..k], panel, preserve));
    EntriesAreRead(routes[..k], panel, preserve);
  }

  lemma EntriesPrefix(routes: seq<Route>, panel: string, preserve: bool, k: nat)
    requires k <= |routes|
    ensures Written(Entries(routes[..k], panel, preserve)) <= Written(Entries(routes, panel, preserve))
  {
    hide Written, Target;
    assert Entries(routes, panel, preserve) == Entries(routes[..k], panel, preserve) + Entries(routes[k..], panel, preserve);
    WrittenConcat(Entries(routes[..k], panel, preserve), Entries(routes[k..], panel, preserve));
  }

  /** The rewrite as a function of the text. */
  ghost function Rewritten(text: string, panel: string): Option<string> {
    match ReadRoutes(text, panel)
    case None => None
    case Some(routes) =>
      var current := Written(Rendered(routes, panel, true));
      if (text == current || text == Written(Rendered(routes, panel, false))) && |routes| >= 2 then Some(current) else None
  }

  /** A rendering of routes none of which is called `default`. */
  ghost predicate IsRendering(text: string, routes: seq<Route>, panel: string) {
    && |routes| >= 2 && ValidRoutes(routes) && Before(routes) == |routes|
    && (text == Written(Rendered(routes, panel, true)) || text == Written(Rendered(routes, panel, false)))
  }

  /** Both renderings of the same routes become the same text, the current one; so rewriting twice is rewriting once. */
  lemma RewriteUpgrades(text: string, routes: seq<Route>, panel: string)
    requires IsRendering(text, routes, panel)
    ensures Rewritten(text, panel) == Some(Written(Rendered(routes, panel, true)))
    ensures Rewritten(Rewritten(text, panel).value, panel) == Rewritten(text, panel)
  {
    hide ReadRoutes, Written, Rendered, ValidRoutes;
    RenderingIsRead(routes, panel, true);
    RenderingIsRead(routes, panel, false);
    assert routes[..|routes|] == routes;
  }

  // ----- what is refused ----------------------------------------------------------------------------------------------

  ghost predicate CleanLine(line: Line) {
    Uapi.Clean(Spell(line))
  }

  lemma CleanBoth(a: string, b: string)
    requires Uapi.Clean(a) && Uapi.Clean(b)
    ensures Uapi.Clean(a + b)
  {
  }

  lemma CleanIndented(a: string)
    requires Uapi.Clean(a)
    ensures Uapi.Clean(Indent() + a)
  {
    assert Uapi.Clean(Indent());
  }

  lemma FixedLinesAreClean()
    ensures CleanLine(Close) && CleanLine(ServerOpen) && CleanLine(Listen443) && CleanLine(Preread)
    ensures CleanLine(ProxyProtocol)
  {
    hide Uapi.Clean;
    ServerWords();
    CleanIndented("listen 443;");
    CleanIndented("ssl_preread on;");
    CleanIndented("proxy_protocol on;");
  }

  lemma ServerWords()
    ensures Uapi.Clean("}") && Uapi.Clean("server {") && Uapi.Clean("listen 443;")
    ensures Uapi.Clean("ssl_preread on;") && Uapi.Clean("proxy_protocol on;")
  {
  }

  lemma VariableWords()
    ensures Uapi.Clean(ServerName()) && Uapi.Clean(Backend())
  {
  }

  lemma PlainWords()
    ensures Uapi.Clean("# BEGIN ") && Uapi.Clean("# END ") && Uapi.Clean("map ") && Uapi.Clean(" ") && Uapi.Clean(" {")
    ensures Uapi.Clean("proxy_pass ") && Uapi.Clean(";")
  {
  }

  lemma LongLinesAreClean()
    ensures CleanLine(Begin) && CleanLine(MapOpen) && CleanLine(PassVariable) && CleanLine(End)
  {
    hide Uapi.Clean, Title, ServerName, Backend, Indent;
    PlainWords();
    VariableWords();
    TitleIsClean();
    CleanBoth("# BEGIN ", Title());
    CleanBoth("# END ", Title());
    CleanBoth(Backend(), " {");
    CleanBoth(" ", Backend() + " {");
    CleanBoth(ServerName(), " " + (Backend() + " {"));
    CleanBoth("map ", ServerName() + (" " + (Backend() + " {")));
    CleanBoth(Backend(), ";");
    CleanBoth("proxy_pass ", Backend() + ";");
    CleanIndented("proxy_pass " + (Backend() + ";"));
  }

  lemma RelayWords()
    ensures Uapi.Clean("listen ") && Uapi.Clean(" proxy_protocol;")
  {
  }

  lemma SolidIsClean(text: string)
    requires Solid(text)
    ensures Uapi.Clean(text)
  {
  }

  lemma RelayLinesAreClean(socket: string, backend: string)
    requires Solid(socket) && Solid(backend)
    ensures CleanLine(Relay(socket)) && CleanLine(PassTo(backend))
  {
    hide Uapi.Clean, Solid, Indent;
    RelayWords();
    PlainWords();
    SolidIsClean(socket);
    SolidIsClean(backend);
    CleanBoth(socket, " proxy_protocol;");
    CleanBoth("listen ", socket + " proxy_protocol;");
    CleanIndented("listen " + (socket + " proxy_protocol;"));
    CleanBoth(backend, ";");
    CleanBoth("proxy_pass ", backend + ";");
    CleanIndented("proxy_pass " + (backend + ";"));
  }

  lemma {:induction false} RelaysAreClean(routes: seq<Route>, panel: string, seen: set<string>)
    requires AllLoopback(routes)
    ensures forall line <- Relays(routes, panel, seen) :: CleanLine(line)
  {
    hide CleanLine, Target, LoopbackBackend, Solid;
    if routes != [] {
      var backend := routes[0].backend;
      assert routes[0] in routes;
      RelaysAreClean(routes[1..], panel, seen);
      RelaysAreClean(routes[1..], panel, seen + {backend});
      TargetIsSolid(backend, panel, true);
      RelayLinesAreClean(Target(backend, panel, true), backend);
      FixedLinesAreClean();
    }
  }

  lemma EntriesAreClean(routes: seq<Route>, panel: string, preserve: bool)
    requires ValidRoutes(routes)
    ensures forall line <- Entries(routes, panel, preserve) :: CleanLine(line)
  {
    hide Target, LoopbackBackend, ValidDomain, Solid;
    forall n | 0 <= n < |routes| ensures CleanLine(Entries(routes, panel, preserve)[n]) {
      assert routes[n] in routes;
      TargetIsSolid(routes[n].backend, panel, preserve);
      EntryIsClean(routes[n].domain, Target(routes[n].backend, panel, preserve));
    }
  }

  lemma DefaultIsClean(preserve: bool)
    ensures CleanLine(Entry(Default(), DefaultTarget(preserve)))
  {
    hide Default, DefaultTarget;
    DefaultIsSolid(preserve);
    DefaultIsValid();
    EntryIsClean(Default(), DefaultTarget(preserve));
  }

  lemma DefaultIsValid()
    ensures ValidDomain(Default())
  {
  }

  /** A rendering is read back as its lines. */
  lemma RenderedLines(routes: seq<Route>, panel: string, preserve: bool)
    requires ValidRoutes(routes)
    ensures Uapi.Lines(Written(Rendered(routes, panel, preserve))) == Spelled(Rendered(routes, panel, preserve))
  {
    hide CleanLine, Spell, Target, Written, Entries, Relays, Uapi.Lines, LoopbackBackend, ValidDomain, Default, DefaultTarget;
    var lines := Rendered(routes, panel, preserve);
    EntriesAreClean(routes, panel, preserve);
    DefaultIsClean(preserve);
    FixedLinesAreClean();
    LongLinesAreClean();
    RelaysAreClean(routes, panel, {});
    assert forall line <- Middle(preserve) :: CleanLine(line);
    assert forall line <- lines :: CleanLine(line);
    CleanIsRead(lines);
  }

  lemma CleanIsRead(lines: seq<Line>)
    requires lines != [] && forall line <- lines :: CleanLine(line)
    ensures Uapi.Lines(Written(lines)) == Spelled(lines)
  {
    hide Spell, Written, Uapi.Lines, Uapi.Clean;
    forall n | 0 <= n < |lines| ensures Uapi.Clean(Spelled(lines)[n]) {
      assert lines[n] in lines;
    }
    WrittenIsJoined(lines);
    Uapi.JoinEnd(Spelled(lines));
    Uapi.LinesOfBody(Spelled(lines));
  }

  /** Renderings of different numbers of routes differ: where one goes on with an entry, the other closes the map. */
  lemma LengthShows(a: seq<Route>, b: seq<Route>, panel: string, p: bool, q: bool)
    requires ValidRoutes(a) && ValidRoutes(b) && |a| < |b|
    ensures Written(Rendered(a, panel, p)) != Written(Rendered(b, panel, q))
  {
    hide Spell, Written, Uapi.Lines, Relays, Target, ValidRoutes, Default, DefaultTarget;
    RenderedLines(a, panel, p);
    RenderedLines(b, panel, q);
    var n := 2 + |a| + 1;
    var x, y := Rendered(a, panel, p), Rendered(b, panel, q);
    assert x[n] == Close && y[n].Entry?;
    FirstLetters(y[n]);
    assert Spelled(x)[n] == Spell(Close) && Spelled(y)[n] == Spell(y[n]);
  }

  lemma FirstLetters(line: Line)
    requires line.Entry?
    ensures Spell(line) != Spell(Close)
  {
    RouteWords();
    assert Spell(line)[0] == ' ' && Spell(Close)[0] == '}';
  }

  /** A route called `default` is valid but hides the routes after it, so the text is refused. */
  lemma DefaultIsRefused(routes: seq<Route>, panel: string, preserve: bool)
    requires ValidRoutes(routes) && Before(routes) < |routes|
    ensures Rewritten(Written(Rendered(routes, panel, preserve)), panel) == None
  {
    hide ReadRoutes, Written, Rendered, ValidDomain, LoopbackBackend, Default;
    RenderingIsRead(routes, panel, preserve);
    var seen := routes[..Before(routes)];
    LengthShows(seen, routes, panel, true, preserve);
    LengthShows(seen, routes, panel, false, preserve);
  }

  lemma {:induction false} ParsedIsValid(lines: seq<string>, panel: string)
    requires ParseRoutes(lines, panel).Some?
    ensures ValidRoutes(ParseRoutes(lines, panel).value)
  {
    hide BackendOf, LoopbackBackend, ValidDomain;
    if lines != [] {
      ParsedIsValid(lines[..|lines| - 1], panel);
    }
  }

  /** Only renderings are rewritten, and what comes out is the current rendering of the same routes. */
  lemma OnlyRenderings(text: string, panel: string)
    ensures Rewritten(text, panel).Some? <==> exists routes :: IsRendering(text, routes, panel)
  {
    hide Written, Rendered, ParseRoutes, Uapi.Lines, Find, ValidDomain, LoopbackBackend, MapLine, Mark;
    if Rewritten(text, panel).Some? {
      var routes := ReadRoutes(text, panel).value;
      ReadIsValid(text, panel);
      RenderingIsRead(routes, panel, true);
      RenderingIsRead(routes, panel, false);
      assert |routes[..Before(routes)]| == Before(routes);
      assert IsRendering(text, routes, panel);
    }
    if routes :| IsRendering(text, routes, panel) {
      RewriteUpgrades(text, routes, panel);
    }
  }

  lemma ReadIsValid(text: string, panel: string)
    requires ReadRoutes(text, panel).Some?
    ensures ValidRoutes(ReadRoutes(text, panel).value)
  {
    hide Find, ParseRoutes, ValidDomain, LoopbackBackend, MapLine, Mark, Uapi.Lines;
    var n := Find(text, MapLine() + "\n").value;
    var rest := text[n + |MapLine()| + 1..];
    ParsedIsValid(Uapi.Lines(rest[..Find(rest, Mark()).value]), panel);
  }

  /** `stream_template`. */
  method StreamTemplate(text: string, panel: string) returns (r: Option<string>)
    ensures r == Rewritten(text, panel)
  {
    hide Written, Rendered, ParseRoute, Uapi.Lines, Find, ValidDomain, LoopbackBackend, MapLine, Mark, Mappable;
    var start := Find(text, MapLine() + "\n");
    if start.None? {
      return None;
    }
    var rest := text[start.value + |MapLine()| + 1..];
    var end := Find(rest, Mark());
    if end.None? {
      return None;
    }
    var lines := Uapi.Lines(rest[..end.value]);
    var routes: seq<Route> := [];
    for n := 0 to |lines|
      invariant ParseRoutes(lines[..n], panel) == Some(routes)
    {
      assert lines[..n + 1][..n] == lines[..n];
      var route := ParseRoute(lines[n], panel);
      if route.None? {
        ParseStops(lines, panel, n + 1);
        return None;
      }
      routes := routes + [route.value];
    }
    assert lines[..|lines|] == lines;
    ParsedIsValid(lines, panel);
    ValidIsMappable(routes, panel);
    var legacy := RenderFresh(routes, panel, false);
    var current := RenderFresh(routes, panel, true);
    if (text != legacy.value && text != current.value) || |routes| < 2 {
      return None;
    }
    return current;
  }

  lemma {:induction false} ParseStops(lines: seq<string>, panel: string, n: nat)
    requires n <= |lines| && ParseRoutes(lines[..n], panel).None?
    ensures ParseRoutes(lines, panel).None?
    decreases |lines|
  {
    hide ParseRoute;
    if n < |lines| {
      assert lines[..|lines| - 1][..n] == lines[..n];
      ParseStops(lines[..|lines| - 1], panel, n);
    } else {
      assert lines[..n] == lines;
    }
  }

  lemma ValidIsMappable(routes: seq<Route>, panel: string)
    requires ValidRoutes(routes)
    ensures Mappable(routes, panel)
  {
    hide LoopbackBackend, ValidDomain;
    forall r <- routes ensures ClientIpBackend(r.backend, panel).Some? {
      SocketIsRead(r.backend, panel);
    }
  }
}
