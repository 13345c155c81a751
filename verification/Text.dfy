/** Decimal numbers and the splitting of text, as the formats of this system print and read them. */
module Text {
  import opened Common

  // ----- decimal --------------------------------------------------------------------------------

  predicate IsDigit(c: char) {
    '0' <= c <= '9'
  }

  predicate AllDigits(s: string) {
    forall c <- s :: IsDigit(c)
  }

  function DigitValue(c: char): (d: nat)
    requires IsDigit(c)
    ensures d < 10
  {
    (c - '0') as int
  }

  function DigitChar(d: nat): (c: char)
    requires d < 10
    ensures IsDigit(c) && DigitValue(c) == d
  {
    '0' + d as char
  }

  lemma DigitPrints(c: char)
    requires IsDigit(c)
    ensures DigitChar(DigitValue(c)) == c
  {
  }

  /** `n.to_string()`. */
  function Dec(n: nat): (s: string)
    ensures s != [] && AllDigits(s)
  {
    if n < 10 then [DigitChar(n)] else Dec(n / 10) + [DigitChar(n % 10)]
  }

  /** `text.parse()` of a digit string. */
  function Number(s: string): nat
    requires AllDigits(s)
  {
    if s == [] then 0 else Number(s[..|s| - 1]) * 10 + DigitValue(s[|s| - 1])
  }

  lemma {:induction false} DecReads(n: nat)
    ensures Number(Dec(n)) == n
  {
    if n >= 10 {
      DecReads(n / 10);
      assert Dec(n)[..|Dec(n)| - 1] == Dec(n / 10);
    } else {
      assert Dec(n)[..0] == [];
    }
  }

  /** No leading zero, but for zero itself. */
  predicate Canonical(s: string) {
    s != [] && AllDigits(s) && (s[0] == '0' ==> |s| == 1)
  }

  lemma {:induction false} DecCanonical(n: nat)
    ensures Canonical(Dec(n)) && (n > 0 ==> Dec(n)[0] != '0')
  {
    if n >= 10 {
      DecCanonical(n / 10);
    }
  }

  lemma {:induction false} CanonicalPrints(s: string)
    requires Canonical(s)
    ensures Dec(Number(s)) == s && (s[0] != '0' ==> Number(s) > 0)
  {
    var n := |s| - 1;
    if n == 0 {
      assert s[..0] == [] && s == [s[0]];
    } else {
      var init := s[..n];
      assert init[0] == s[0];
      CanonicalPrints(init);
      assert s == init + [s[n]];
      assert Number(s) / 10 == Number(init) && Number(s) % 10 == DigitValue(s[n]);
      assert Number(init) > 0;
      assert Dec(Number(s)) == Dec(Number(init)) + [DigitChar(DigitValue(s[n]))];
      DigitPrints(s[n]);
    }
  }

  /** A number of at most `k` digits is below ten to the `k`, and the other way round. */
  function Pow10(k: nat): (p: nat)
    ensures p > 0
  {
    if k == 0 then 1 else 10 * Pow10(k - 1)
  }

  lemma {:induction false} DecLength(n: nat, k: nat)
    requires k > 0
    ensures |Dec(n)| <= k <==> n < Pow10(k)
    decreases n
  {
    if n < 10 {
      Pow10AtLeast(k);
    } else if k > 1 {
      DecLength(n / 10, k - 1);
      assert Pow10(k) == 10 * Pow10(k - 1);
    } else {
      assert Pow10(1) == 10;
    }
  }

  lemma {:induction false} Pow10AtLeast(k: nat)
    requires k > 0
    ensures Pow10(k) >= 10
  {
    if k > 1 {
      Pow10AtLeast(k - 1);
    }
  }

  // ----- splitting ------------------------------------------------------------------------------

  /** `text.split(c)`. */
  function Split(s: string, c: char): (parts: seq<string>)
    ensures parts != []
  {
    if s == [] then [[]]
    else if s[0] == c then [[]] + Split(s[1..], c)
    else
      var rest := Split(s[1..], c);
      [[s[0]] + rest[0]] + rest[1..]
  }

  function Join(parts: seq<string>, c: char): string {
    if parts == [] then []
    else if |parts| == 1 then parts[0]
    else parts[0] + [c] + Join(parts[1..], c)
  }

  lemma {:induction false} SplitPrefix(p: string, s: string, c: char)
    requires c !in p
    ensures Split(p + s, c) == [p + Split(s, c)[0]] + Split(s, c)[1..]
  {
    if p == [] {
      assert p + s == s && p + Split(s, c)[0] == Split(s, c)[0];
      assert Split(s, c) == [Split(s, c)[0]] + Split(s, c)[1..];
    } else {
      assert p == [p[0]] + p[1..];
      SplitPrefix(p[1..], s, c);
      assert (p + s)[1..] == p[1..] + s && (p + s)[0] == p[0];
      var head := Split(s, c)[0];
      assert [p[0]] + (p[1..] + head) == p + head;
    }
  }

  lemma SplitAtSeparator(s: string, c: char)
    ensures Split([], c) == [[]] && Split([c] + s, c) == [[]] + Split(s, c)
  {
    assert ([c] + s)[1..] == s;
  }

  lemma {:induction false} SplitJoined(parts: seq<string>, c: char)
    requires parts != [] && forall p <- parts :: c !in p
    ensures Split(Join(parts, c), c) == parts
  {
    hide Split;
    assert parts[0] + [] == parts[0] && [parts[0]] + parts[1..] == parts;
    if |parts| == 1 {
      SplitAtSeparator([], c);
      SplitPrefix(parts[0], [], c);
    } else {
      var rest := Join(parts[1..], c);
      SplitJoined(parts[1..], c);
      SplitAtSeparator(rest, c);
      SplitPrefix(parts[0], [c] + rest, c);
      assert parts[0] + ([c] + rest) == Join(parts, c);
      assert ([[]] + parts[1..])[1..] == parts[1..];
    }
  }

  lemma {:induction false} JoinSplit(s: string, c: char)
    ensures Join(Split(s, c), c) == s && forall p <- Split(s, c) :: c !in p
  {
    if s != [] {
      JoinSplit(s[1..], c);
      var rest := Split(s[1..], c);
      if s[0] != c {
        assert s == [s[0]] + s[1..];
        assert Join([[s[0]] + rest[0]] + rest[1..], c) == [s[0]] + Join(rest, c) by {
          assert ([[s[0]] + rest[0]] + rest[1..])[1..] == rest[1..];
        }
      } else {
        assert ([[]] + rest)[1..] == rest;
      }
    }
  }

  /** `text.split_once(c)`. */
  function SplitOnce(s: string, c: char): Option<(string, string)> {
    if s == [] then None
    else if s[0] == c then Some(([], s[1..]))
    else
      match SplitOnce(s[1..], c)
      case None => None
      case Some((key, value)) => Some(([s[0]] + key, value))
  }

  lemma {:induction false} SplitOnceAt(key: string, value: string, c: char)
    requires c !in key
    ensures SplitOnce(key + [c] + value, c) == Some((key, value))
  {
    var s := key + [c] + value;
    if key == [] {
      assert s[0] == c && s[1..] == value;
    } else {
      SplitOnceAt(key[1..], value, c);
      assert s[0] == key[0] && s[1..] == key[1..] + [c] + value;
      assert [key[0]] + key[1..] == key;
    }
  }
}
