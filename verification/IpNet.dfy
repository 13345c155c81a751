/** IPv4 addresses and networks (awg_manager/src/ipnet.rs). An address is a number below 2^32; masking with a prefix
    clears the low bits of it. */
module IpNet {
  import opened Common
  import opened Text

  const ADDRESSES := 0x1_0000_0000

  /** The four octets of an address, the most significant first (`to_be_bytes`). */
  function Octets(x: nat): (o: seq<nat>)
    requires x < ADDRESSES
    ensures |o| == 4 && forall k :: 0 <= k < 4 ==> o[k] <= 255
  {
    var q1 := x / 256;
    var q2 := q1 / 256;
    var q3 := q2 / 256;
    [q3, q2 % 256, q1 % 256, x % 256]
  }

  function Compose(o: seq<nat>): nat
    requires |o| == 4
  {
    ((o[0] * 256 + o[1]) * 256 + o[2]) * 256 + o[3]
  }

  lemma OctetsCompose(x: nat)
    requires x < ADDRESSES
    ensures Compose(Octets(x)) == x
  {
  }

  lemma ComposeOctets(o: seq<nat>)
    requires |o| == 4 && forall k :: 0 <= k < 4 ==> o[k] <= 255
    ensures Compose(o) < ADDRESSES && Octets(Compose(o)) == o
  {
    var x := Compose(o);
    assert x / 256 == (o[0] * 256 + o[1]) * 256 + o[2] && x % 256 == o[3];
    assert x / 256 / 256 == o[0] * 256 + o[1] && x / 256 % 256 == o[2];
  }

  function Decs(o: seq<nat>): seq<string> {
    seq(|o|, k requires 0 <= k < |o| => Dec(o[k]))
  }

  /** `format_v4`. */
  function FormatV4(x: nat): string
    requires x < ADDRESSES
  {
    Join(Decs(Octets(x)), '.')
  }

  /** One to three digits without a leading zero, at most 255. */
  predicate IsOctet(s: string): (valid: bool)
    ensures valid ==> AllDigits(s)
  {
    1 <= |s| <= 3 && AllDigits(s) && (s == "0" || s[0] != '0') && Number(s) <= 255
  }

  lemma OctetPrints(s: string)
    requires IsOctet(s)
    ensures Dec(Number(s)) == s
  {
    CanonicalPrints(s);
  }

  lemma OctetOf(n: nat)
    requires n <= 255
    ensures IsOctet(Dec(n)) && Number(Dec(n)) == n && '.' !in Dec(n)
  {
    DecReads(n);
    DecCanonical(n);
    assert Pow10(3) == 10 * Pow10(2) == 100 * Pow10(1) == 1000 * Pow10(0);
    DecLength(n, 3);
  }

  lemma FormatSplits(x: nat)
    requires x < ADDRESSES
    ensures Split(FormatV4(x), '.') == Decs(Octets(x))
    ensures forall k :: 0 <= k < 4 ==> IsOctet(Decs(Octets(x))[k]) && Number(Decs(Octets(x))[k]) == Octets(x)[k]
  {
    hide Dec, Number, Octets, IsOctet, Join, Split;
    var o := Octets(x);
    forall k | 0 <= k < 4
      ensures IsOctet(Decs(o)[k]) && AllDigits(Decs(o)[k]) && Number(Decs(o)[k]) == o[k] && '.' !in Decs(o)[k]
    {
      OctetOf(o[k]);
    }
    SplitJoined(Decs(o), '.');
  }

  /** The octets of a valid text, read in order. */
  ghost function Numbers(octets: seq<string>): seq<nat>
    requires forall k :: 0 <= k < |octets| ==> IsOctet(octets[k])
  {
    seq(|octets|, k requires 0 <= k < |octets| => assert IsOctet(octets[k]); Number(octets[k]))
  }

  lemma ParsedPrints(text: string, octets: seq<string>)
    requires octets == Split(text, '.') && |octets| == 4 && forall k :: 0 <= k < 4 ==> IsOctet(octets[k])
    ensures Compose(Numbers(octets)) < ADDRESSES && FormatV4(Compose(Numbers(octets))) == text
  {
    hide Number, Split;
    var o := Numbers(octets);
    ComposeOctets(o);
    forall k | 0 <= k < 4 ensures Decs(o)[k] == octets[k] {
      OctetPrints(octets[k]);
    }
    assert Decs(o) == octets;
    JoinSplit(text, '.');
  }

  /** `parse_v4`: reads exactly what `format_v4` prints, and nothing else. */
  method ParseV4(text: string) returns (r: Option<nat>)
    ensures r.Some? ==> r.value < ADDRESSES && FormatV4(r.value) == text
    ensures r.None? ==> forall x: nat :: x < ADDRESSES ==> FormatV4(x) != text
  {
    hide Split, FormatV4, Octets, IsOctet;
    var octets := Split(text, '.');
    if |octets| != 4 {
      forall x: nat | x < ADDRESSES ensures FormatV4(x) != text {
        FormatSplits(x);
      }
      return None;
    }
    var value := 0;
    for n := 0 to 4
      invariant forall k :: 0 <= k < n ==> IsOctet(octets[k])
      invariant value == Prefix(octets, n)
    {
      if !IsOctet(octets[n]) {
        forall x: nat | x < ADDRESSES ensures FormatV4(x) != text {
          FormatSplits(x);
        }
        return None;
      }
      value := value * 256 + Number(octets[n]);
    }
    ParsedPrints(text, octets);
    PrefixComposes(octets);
    return Some(value);
  }

  /** What the loop has accumulated after `n` octets. */
  ghost function Prefix(octets: seq<string>, n: nat): nat
    requires n <= |octets| && forall k :: 0 <= k < n ==> IsOctet(octets[k])
  {
    if n == 0 then 0 else assert IsOctet(octets[n - 1]); Prefix(octets, n - 1) * 256 + Number(octets[n - 1])
  }

  lemma PrefixComposes(octets: seq<string>)
    requires |octets| == 4 && forall k :: 0 <= k < 4 ==> IsOctet(octets[k])
    ensures Prefix(octets, 4) == Compose(Numbers(octets))
  {
    hide Number;
    assert Prefix(octets, 1) == Number(octets[0]);
    assert Prefix(octets, 2) == Prefix(octets, 1) * 256 + Number(octets[1]);
    assert Prefix(octets, 3) == Prefix(octets, 2) * 256 + Number(octets[2]);
  }

  /** Different addresses print differently. */
  lemma FormatInjective(x: nat, y: nat)
    requires x < ADDRESSES && y < ADDRESSES && FormatV4(x) == FormatV4(y)
    ensures x == y
  {
    FormatSplits(x);
    FormatSplits(y);
    hide Octets;
    assert forall k :: 0 <= k < 4 ==> Octets(x)[k] == Number(Decs(Octets(x))[k]) == Octets(y)[k];
    OctetsCompose(x);
    OctetsCompose(y);
  }

  // ----- networks -----------------------------------------------------------------------------

  function Pow2(k: nat): (p: nat)
    ensures p > 0
  {
    if k == 0 then 1 else 2 * Pow2(k - 1)
  }

  /** Clearing all but the leading `prefix` bits: `address & mask`. */
  function Masked(address: nat, prefix: nat): int
    requires prefix <= 32
  {
    address / Pow2(32 - prefix) * Pow2(32 - prefix)
  }

  datatype Ipv4Net = Ipv4Net(network: nat, prefix: nat)
  {
    /** A network as the strict parser makes it: host bits clear. */
    ghost predicate Valid() {
      prefix <= 32 && network < ADDRESSES && Masked(network, prefix) == network
    }

    function Size(): nat
      requires prefix <= 32
    {
      Pow2(32 - prefix)
    }

    function Broadcast(): nat
      requires prefix <= 32
    {
      network + Size() - 1
    }

    predicate Contains(address: nat)
      requires prefix <= 32
    {
      Masked(address, prefix) == network
    }

    predicate Overlaps(other: Ipv4Net)
      requires prefix <= 32 && other.prefix <= 32
    {
      Contains(other.network) || Contains(other.Broadcast())
      || other.Contains(network) || other.Contains(Broadcast())
    }

    function Gateway(): nat {
      network + 1
    }
  }

  lemma MulMonotone(a: int, b: int, s: int)
    requires a <= b && s >= 0
    ensures a * s <= b * s
  {
  }

  lemma DivBounds(x: nat, s: nat)
    requires s > 0
    ensures x / s * s <= x < x / s * s + s
  {
    assert x == x / s * s + x % s;
  }

  lemma BlockAligned(k: nat, s: nat, x: nat)
    requires s > 0
    ensures x / s * s == k * s <==> k * s <= x < k * s + s
  {
    DivBounds(x, s);
    var d := x / s;
    if d < k {
      MulMonotone(d + 1, k, s);
      assert (d + 1) * s == d * s + s;
    } else if d > k {
      MulMonotone(k + 1, d, s);
      assert (k + 1) * s == k * s + s;
    }
  }

  /** Containment is lying between the network and the broadcast address. */
  lemma ContainsMeaning(net: Ipv4Net, x: nat)
    requires net.Valid()
    ensures net.Contains(x) <==> net.network <= x <= net.Broadcast()
  {
    BlockAligned(net.network / net.Size(), net.Size(), x);
  }

  /** `overlaps` looks at four end points only, and yet finds every shared address. */
  lemma OverlapMeaning(a: Ipv4Net, b: Ipv4Net)
    requires a.Valid() && b.Valid()
    ensures a.Overlaps(b) <==> exists x: nat :: a.Contains(x) && b.Contains(x)
  {
    ContainsMeaning(a, b.network);
    ContainsMeaning(a, b.Broadcast());
    ContainsMeaning(b, a.network);
    ContainsMeaning(b, a.Broadcast());
    ContainsMeaning(a, a.network);
    ContainsMeaning(b, b.network);
    ContainsMeaning(a, a.Broadcast());
    ContainsMeaning(b, b.Broadcast());
    if x: nat :| a.Contains(x) && b.Contains(x) {
      ContainsMeaning(a, x);
      ContainsMeaning(b, x);
    }
  }
}
