/** The stored peers, and the addresses they take from the subnet of their protocol version
    (awg_manager/src/service.rs, awg_manager/src/config.rs). */
module Pool {
  import opened Common
  import opened Text
  import opened IpNet
  import opened Uapi

  /** A stored peer. Keys are kept in their UAPI form: the base64 form is strict, so the two name each other. */
  datatype Record = Record(version: string, publicKey: string, psk: string, address: string, enabled: bool,
                           revision: int, operationId: string)
  {
    function AsPeer(): Peer {
      Wanted(psk, address).AsPeer()
    }

    /** On the device of version `v`. */
    predicate Active(v: string) {
      version == v && enabled
    }
  }

  type Table = map<string, Record>

  // ----- the configured subnets -----------------------------------------------------------------

  /** A subnet the configuration may give a version. */
  ghost predicate Usable(net: Ipv4Net) {
    net.Valid() && 24 <= net.prefix <= 28
  }

  function SubnetOf(net: Ipv4Net, range: Ipv4Net): bool
    requires net.prefix <= 32 && range.prefix <= 32
  {
    range.network <= net.network && range.Broadcast() >= net.Broadcast()
  }

  function InPrivate(net: Ipv4Net): bool
    requires net.prefix <= 32
  {
    || SubnetOf(net, Ipv4Net(0x0A00_0000, 8))
    || SubnetOf(net, Ipv4Net(0xAC10_0000, 12))
    || SubnetOf(net, Ipv4Net(0xC0A8_0000, 16))
  }

  ghost predicate Apart(a: Ipv4Net, b: Ipv4Net)
    requires a.prefix <= 32 && b.prefix <= 32
  {
    forall x: nat :: !(a.Contains(x) && b.Contains(x))
  }

  lemma ApartMeaning(a: Ipv4Net, b: Ipv4Net)
    requires a.Valid() && b.Valid()
    ensures Apart(a, b) <==> !a.Overlaps(b)
  {
    hide Masked;
    OverlapMeaning(a, b);
  }

  /** A network is private exactly when every address of it is in one of the three blocks of RFC 1918. */
  lemma InPrivateMeaning(net: Ipv4Net)
    requires net.Valid()
    ensures InPrivate(net) <==>
            || (forall x: nat :: net.Contains(x) ==> 0x0A00_0000 <= x <= 0x0AFF_FFFF)
            || (forall x: nat :: net.Contains(x) ==> 0xAC10_0000 <= x <= 0xAC1F_FFFF)
            || (forall x: nat :: net.Contains(x) ==> 0xC0A8_0000 <= x <= 0xC0A8_FFFF)
  {
    BlockSizes();
    hide Pow2;
    ContainsMeaning(net, net.network);
    ContainsMeaning(net, net.Broadcast());
    forall x: nat ensures net.Contains(x) <==> net.network <= x <= net.Broadcast() {
      ContainsMeaning(net, x);
    }
    assert net.Contains(net.network) && net.Contains(net.Broadcast());
  }

  lemma BlockSizes()
    ensures Pow2(24) == 0x100_0000 && Pow2(20) == 0x10_0000 && Pow2(16) == 0x1_0000
  {
    assert Pow2(8) == 2 * Pow2(7) == 4 * Pow2(6) == 8 * Pow2(5) == 16 * Pow2(4) == 32 * Pow2(3) == 64 * Pow2(2);
    assert Pow2(2) == 2 * Pow2(1) == 4 * Pow2(0);
    assert Pow2(16) == 2 * Pow2(15) == 4 * Pow2(14) == 8 * Pow2(13) == 16 * Pow2(12) == 32 * Pow2(11) == 64 * Pow2(10);
    assert Pow2(10) == 2 * Pow2(9) == 4 * Pow2(8);
    assert Pow2(20) == 2 * Pow2(19) == 4 * Pow2(18) == 8 * Pow2(17) == 16 * Pow2(16);
    assert Pow2(24) == 2 * Pow2(23) == 4 * Pow2(22) == 8 * Pow2(21) == 16 * Pow2(20);
  }

  /** The subnets of the configuration: of the right size, private, and no address in two of them. */
  method CheckSubnets(nets: seq<Ipv4Net>) returns (ok: bool)
    requires forall k :: 0 <= k < |nets| ==> nets[k].Valid()
    ensures ok <==> && (forall k :: 0 <= k < |nets| ==> Usable(nets[k]) && InPrivate(nets[k]))
                    && forall i, j :: 0 <= i < j < |nets| ==> Apart(nets[i], nets[j])
  {
    hide Apart, InPrivate;
    for i := 0 to |nets|
      invariant forall k :: 0 <= k < i ==> Usable(nets[k]) && InPrivate(nets[k])
    {
      if !(24 <= nets[i].prefix <= 28) || !InPrivate(nets[i]) {
        return false;
      }
    }
    for i := 0 to |nets|
      invariant forall k, j :: 0 <= k < i && k < j < |nets| ==> Apart(nets[k], nets[j])
    {
      for j := i + 1 to |nets|
        invariant forall m :: i < m < j ==> Apart(nets[i], nets[m])
      {
        ApartMeaning(nets[i], nets[j]);
        if nets[i].Overlaps(nets[j]) {
          return false;
        }
      }
    }
    return true;
  }

  /** A usable subnet ends below 2^32 and has room beyond its network, gateway and broadcast addresses. */
  lemma UsableSize(net: Ipv4Net)
    requires Usable(net)
    ensures net.Size() == match net.prefix case 24 => 256 case 25 => 128 case 26 => 64 case 27 => 32 case 28 => 16
    ensures net.Broadcast() < ADDRESSES
  {
    assert Pow2(4) == 2 * Pow2(3) == 4 * Pow2(2) == 8 * Pow2(1) == 16 * Pow2(0);
    assert Pow2(8) == 2 * Pow2(7) == 4 * Pow2(6) == 8 * Pow2(5) == 16 * Pow2(4);
  }

  // ----- valid tables --------------------------------------------------------------------------------

  predicate IsKey(text: string) {
    |text| == 64 && forall c <- text :: c in "0123456789abcdef"
  }

  lemma KeyIsClean(key: string)
    requires IsKey(key)
    ensures Clean(key) && key != GONE
  {
    assert '\n' !in "0123456789abcdef" && '\r' !in "0123456789abcdef";
  }

  /** A host address of the subnet other than its gateway. */
  ghost predicate Fits(net: Ipv4Net, address: string)
    requires net.prefix <= 32
  {
    exists x: nat :: net.Gateway() < x < net.Broadcast() && x < ADDRESSES && FormatV4(x) == address
  }

  ghost predicate Subnets(nets: map<string, Ipv4Net>) {
    && (forall v <- nets :: Usable(nets[v]))
    && (forall v <- nets, w <- nets :: v != w ==> Apart(nets[v], nets[w]))
  }

  ghost predicate GoodRecord(rec: Record, nets: map<string, Ipv4Net>)
    requires forall v <- nets :: nets[v].prefix <= 32
  {
    && IsKey(rec.publicKey) && IsKey(rec.psk)
    && (rec.version in nets ==> Fits(nets[rec.version], rec.address))
  }

  ghost predicate Distinct(a: Record, b: Record) {
    a.version == b.version ==> a.publicKey != b.publicKey && a.address != b.address
  }

  /** What every table keeps: keys are keys, addresses are inside the subnet and never the network, gateway or broadcast
      one, and within a version nobody shares an address or a key. */
  ghost predicate ValidTable(peers: Table, nets: map<string, Ipv4Net>)
    requires Subnets(nets)
  {
    && (forall name <- peers :: GoodRecord(peers[name], nets))
    && (forall a <- peers, b <- peers :: a != b ==> Distinct(peers[a], peers[b]))
  }

  /** Subnets that do not overlap keep the addresses of different versions apart too. */
  lemma DistinctAcrossVersions(peers: Table, nets: map<string, Ipv4Net>, a: string, b: string)
    requires Subnets(nets) && ValidTable(peers, nets)
    requires a in peers && b in peers && a != b
    requires peers[a].version in nets && peers[b].version in nets
    ensures peers[a].address != peers[b].address
  {
    hide FormatV4;
    assert Distinct(peers[a], peers[b]);
    var m, n := nets[peers[a].version], nets[peers[b].version];
    var x: nat :| m.Gateway() < x < m.Broadcast() && x < ADDRESSES && FormatV4(x) == peers[a].address;
    var y: nat :| n.Gateway() < y < n.Broadcast() && y < ADDRESSES && FormatV4(y) == peers[b].address;
    if peers[a].version != peers[b].version && peers[a].address == peers[b].address {
      FormatInjective(x, y);
      ContainsMeaning(m, x);
      ContainsMeaning(n, x);
      assert false;
    }
  }

  lemma ChangeRecord(peers: Table, nets: map<string, Ipv4Net>, name: string, rec: Record)
    requires Subnets(nets) && ValidTable(peers, nets) && GoodRecord(rec, nets)
    requires forall other <- peers :: other != name ==> Distinct(peers[other], rec)
    ensures ValidTable(peers[name := rec], nets)
  {
    hide GoodRecord;
  }

  lemma DropRecord(peers: Table, nets: map<string, Ipv4Net>, name: string)
    requires Subnets(nets) && ValidTable(peers, nets)
    ensures ValidTable(peers - {name}, nets)
  {
    hide GoodRecord, Distinct;
  }

  // ----- the next address ------------------------------------------------------------------------------

  /** The peers of a version. */
  function Members(peers: Table, version: string): set<string> {
    set name | name in peers && peers[name].version == version
  }

  function Used(peers: Table, version: string): set<string> {
    set name | name in Members(peers, version) :: peers[name].address
  }

  /** The texts of the addresses in `[lo, hi)`. */
  ghost function Span(lo: nat, hi: nat): set<string>
    requires hi <= ADDRESSES
  {
    set x: nat | lo <= x < hi :: FormatV4(x)
  }

  lemma {:induction false} SpanSize(lo: nat, hi: nat)
    requires lo <= hi <= ADDRESSES
    ensures |Span(lo, hi)| == hi - lo
    decreases hi - lo
  {
    hide FormatV4;
    if lo < hi {
      SpanSize(lo, hi - 1);
      var last := FormatV4(hi - 1);
      if last in Span(lo, hi - 1) {
        var x: nat :| lo <= x < hi - 1 && FormatV4(x) == last;
        FormatInjective(x, hi - 1);
        assert false;
      }
      assert Span(lo, hi) == Span(lo, hi - 1) + {last};
    } else {
      assert Span(lo, hi) == {};
    }
  }

  lemma {:induction false} ImageSize(peers: Table, names: set<string>)
    requires names <= peers.Keys
    requires forall a <- names, b <- names :: a != b ==> peers[a].address != peers[b].address
    ensures |set name | name in names :: peers[name].address| == |names|
  {
    var image := set name | name in names :: peers[name].address;
    if names == {} {
      assert image == {};
    } else {
      var one :| one in names;
      ImageSize(peers, names - {one});
      var rest := set name | name in names - {one} :: peers[name].address;
      assert peers[one].address !in rest;
      assert image == rest + {peers[one].address};
    }
  }

  lemma FitsInSpan(net: Ipv4Net, address: string)
    requires Usable(net)
    ensures net.Broadcast() < ADDRESSES
    ensures Fits(net, address) <==> address in Span(net.Gateway() + 1, net.Broadcast())
  {
    hide FormatV4;
    UsableSize(net);
  }

  lemma SubsetSize(a: set<string>, b: set<string>)
    requires a <= b
    ensures |a| <= |b| && (|a| == |b| ==> a == b)
  {
    assert b == a + (b - a);
    assert |b| == |a| + |b - a|;
  }

  /** The pool is full exactly when it has as many peers as the subnet has addresses for them. */
  lemma FullPool(peers: Table, nets: map<string, Ipv4Net>, version: string)
    requires Subnets(nets) && ValidTable(peers, nets) && version in nets
    ensures nets[version].Broadcast() < ADDRESSES
    ensures |Members(peers, version)| <= nets[version].Size() - 3
    ensures |Members(peers, version)| == nets[version].Size() - 3
            <==> Span(nets[version].Gateway() + 1, nets[version].Broadcast()) <= Used(peers, version)
  {
    hide FormatV4, Fits, Span, IsKey;
    var net := nets[version];
    UsableSize(net);
    var pool := Span(net.Gateway() + 1, net.Broadcast());
    SpanSize(net.Gateway() + 1, net.Broadcast());
    var names := Members(peers, version);
    forall a, b | a in names && b in names && a != b ensures peers[a].address != peers[b].address {
      assert Distinct(peers[a], peers[b]);
    }
    ImageSize(peers, names);
    forall address | address in Used(peers, version) ensures address in pool {
      var name :| name in names && peers[name].address == address;
      assert GoodRecord(peers[name], nets);
      FitsInSpan(net, address);
    }
    SubsetSize(Used(peers, version), pool);
    if pool <= Used(peers, version) {
      SubsetSize(pool, Used(peers, version));
    }
  }

  /** `free_address`: the lowest address nobody of the version has, or exhaustion, exactly when the pool is full. */
  method FreeAddress(peers: Table, nets: map<string, Ipv4Net>, version: string) returns (r: Option<string>)
    requires Subnets(nets) && ValidTable(peers, nets) && version in nets
    ensures r.Some? ==>
              && Fits(nets[version], r.value) && r.value !in Used(peers, version)
              && exists x: nat :: x < ADDRESSES && FormatV4(x) == r.value && nets[version].Gateway() < x
                                  && Span(nets[version].Gateway() + 1, x) <= Used(peers, version)
    ensures r.None? <==> |Members(peers, version)| == nets[version].Size() - 3
  {
    hide FormatV4, GoodRecord, Distinct, Masked, Members;
    var net := nets[version];
    FullPool(peers, nets, version);
    UsableSize(net);
    var used := Used(peers, version);
    for x := net.Gateway() + 1 to net.Broadcast()
      invariant Span(net.Gateway() + 1, x) <= used
    {
      if FormatV4(x) !in used {
        assert FormatV4(x) in Span(net.Gateway() + 1, net.Broadcast());
        return Some(FormatV4(x));
      }
      assert Span(net.Gateway() + 1, x + 1) == Span(net.Gateway() + 1, x) + {FormatV4(x)};
    }
    return None;
  }

  // ----- addresses as text ---------------------------------------------------------------------------

  lemma {:induction false} JoinChars(parts: seq<string>, sep: char, c: char)
    requires parts != [] && c in Join(parts, sep)
    ensures c == sep || exists k :: 0 <= k < |parts| && c in parts[k]
  {
    if |parts| > 1 && c != sep && c !in parts[0] {
      JoinChars(parts[1..], sep, c);
      var k :| 0 <= k < |parts[1..]| && c in parts[1..][k];
      assert c in parts[k + 1];
    }
  }

  lemma FormatClean(x: nat)
    requires x < ADDRESSES
    ensures Clean(FormatV4(x))
  {
    hide Octets, Number, Join, Split;
    FormatSplits(x);
    var parts := Decs(Octets(x));
    forall c | c in FormatV4(x) ensures c != '\n' && c != '\r' {
      JoinChars(parts, '.', c);
      if c != '.' {
        var k :| 0 <= k < |parts| && c in parts[k];
        assert IsOctet(parts[k]);
      }
    }
  }

  lemma FitsClean(net: Ipv4Net, address: string)
    requires net.prefix <= 32 && Fits(net, address)
    ensures Clean(address)
  {
    hide FormatV4;
    var x: nat :| net.Gateway() < x < net.Broadcast() && x < ADDRESSES && FormatV4(x) == address;
    FormatClean(x);
  }
}
