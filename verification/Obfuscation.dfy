/** The obfuscation parameters of a protocol version (awg_manager/src/obfuscation.rs): drawn at random, and checked. */
module Obfuscation {
  import opened Common
  import opened Text
  import opened Cps
  import Pool

  const UINT32 := 4_294_967_295
  const MIN_HEADER_PROTECTION_PADDING := 12

  datatype Version = V15 | V20 | V31 | Unknown(name: string)

  /** The names of parameters: S1 to S4, H1 to H4 and I1 to I5 are meant, other numbers are other names. */
  datatype Key =
    | Jc | Jmin | Jmax | S(n: nat) | H(n: nat) | I(n: nat)
    | HeaderProtectionKey | ContentPaddingAddition | RandomTrailers | DisableCookies | Other(name: string)

  type Params = map<Key, string>

  datatype Problem =
    | UnknownVersion | NotValidForVersion | Missing | NotAnInteger(key: Key) | OutOfRange(key: Key) | JunkOrder
    | HandshakeSizes | BadRange(key: Key) | HeadTooSmall(key: Key) | HeadNotSingle(key: Key) | HeadsOverlap
    | NotCps(key: Key) | TooLittlePadding(key: Key) | BadKey | BadFlag(key: Key)

  predicate Allowed(v: Version, key: Key) {
    match key
    case Jc => true
    case Jmin => true
    case Jmax => true
    case S(n) => 1 <= n <= 2 || (3 <= n <= 4 && !v.V15?)
    case H(n) => 1 <= n <= 4
    case I(n) => 1 <= n <= 5
    case Other(_) => false
    case _ => v.V31?
  }

  function Required(v: Version): set<Key> {
    {Jc, Jmin, Jmax, S(1), S(2), H(1), H(2), H(3), H(4)}
    + (if v.V15? then {} else {S(3), S(4)}) + (if v.V31? then {HeaderProtectionKey} else {})
  }

  // ----- numbers and ranges ------------------------------------------------------------------------

  predicate IsNumber(text: string) {
    1 <= |text| <= 10 && AllDigits(text)
  }

  /** `int`. */
  function IntOf(params: Params, key: Key, lo: nat, hi: nat): Result<nat, Problem> {
    if key !in params || !IsNumber(params[key]) then Err(NotAnInteger(key))
    else
      var value := Number(params[key]);
      if lo <= value <= hi then Ok(value) else Err(OutOfRange(key))
  }

  datatype Range = Range(lo: nat, hi: nat)
  {
    predicate Has(x: nat) {
      lo <= x <= hi
    }

    predicate Meets(other: Range) {
      lo <= other.hi && other.lo <= hi
    }

    function Print(): string {
      Dec(lo) + ['-'] + Dec(hi)
    }
  }

  /** `parse_range`: a number or two of them. */
  function ParseRange(text: string): Option<Range> {
    var ends: Option<(string, string)> :=
      match SplitOnce(text, '-')
      case Some((lo, hi)) => if IsNumber(lo) && IsNumber(hi) then Some((lo, hi)) else None
      case None => if IsNumber(text) then Some((text, text)) else None;
    match ends
    case None => None
    case Some((lo, hi)) =>
      if Number(lo) > Number(hi) || Number(hi) > UINT32 then None else Some(Range(Number(lo), Number(hi)))
  }

  lemma NumberPrints(n: nat)
    requires n <= UINT32
    ensures IsNumber(Dec(n)) && Number(Dec(n)) == n && '-' !in Dec(n)
  {
    DecReads(n);
    assert Pow10(10) == 10_000_000_000 by {
      assert Pow10(5) == 10 * Pow10(4) == 100 * Pow10(3) == 1000 * Pow10(2) == 10000 * Pow10(1) == 100000 * Pow10(0);
      assert Pow10(10) == 10 * Pow10(9) == 100 * Pow10(8) == 1000 * Pow10(7) == 10000 * Pow10(6) == 100000 * Pow10(5);
    }
    DecLength(n, 10);
  }

  lemma {:induction false} NoSeparator(text: string, c: char)
    requires c !in text
    ensures SplitOnce(text, c) == None
  {
    if text != [] {
      NoSeparator(text[1..], c);
    }
  }

  /** Printed numbers and ranges are read back. */
  lemma RangePrints(r: Range)
    requires r.lo <= r.hi <= UINT32
    ensures ParseRange(r.Print()) == Some(r)
  {
    hide Dec, Number;
    NumberPrints(r.lo);
    NumberPrints(r.hi);
    SplitOnceAt(Dec(r.lo), Dec(r.hi), '-');
  }

  lemma SinglePrints(n: nat)
    requires n <= UINT32
    ensures ParseRange(Dec(n)) == Some(Range(n, n))
  {
    hide Dec, Number;
    NumberPrints(n);
    NoSeparator(Dec(n), '-');
  }

  /** `text` is `n` in at most ten digits, leading zeros included. */
  ghost predicate Denotes(text: string, n: nat) {
    |text| <= 10 && exists k: nat :: text == Zeros(k) + Dec(n)
  }

  function Zeros(k: nat): string {
    seq(k, _ => '0')
  }

  lemma {:induction false} ZerosAreNothing(k: nat, digits: string)
    requires AllDigits(digits)
    ensures AllDigits(Zeros(k) + digits) && Number(Zeros(k) + digits) == Number(digits)
    decreases |digits|, k
  {
    var all := Zeros(k) + digits;
    if digits != [] {
      ZerosAreNothing(k, digits[..|digits| - 1]);
      assert all[..|all| - 1] == Zeros(k) + digits[..|digits| - 1];
    } else if k > 0 {
      ZerosAreNothing(k - 1, []);
      assert all[..|all| - 1] == Zeros(k - 1) + [];
    }
  }

  lemma OneMoreZero(k: nat, digits: string)
    ensures Zeros(1) + (Zeros(k) + digits) == Zeros(k + 1) + digits
  {
  }

  lemma NoZeros(digits: string)
    ensures Zeros(0) + digits == digits
  {
  }

  lemma ZeroFirst(digits: string)
    requires digits != [] && AllDigits(digits) && !Canonical(digits)
    ensures digits == Zeros(1) + digits[1..] && AllDigits(digits[1..]) && digits[1..] != []
  {
  }

  lemma {:induction false} LeadingZeros(digits: string) returns (k: nat)
    requires digits != [] && AllDigits(digits)
    ensures digits == Zeros(k) + Dec(Number(digits))
  {
    hide Dec, Number, Zeros, AllDigits;
    if Canonical(digits) {
      CanonicalPrints(digits);
      NoZeros(digits);
      k := 0;
    } else {
      var rest := digits[1..];
      ZeroFirst(digits);
      var m := LeadingZeros(rest);
      ZerosAreNothing(1, rest);
      k := m + 1;
      OneMoreZero(m, Dec(Number(rest)));
    }
  }

  /** What the reader of numbers accepts, and as what. */
  lemma NumberMeaning(text: string, n: nat)
    ensures IsNumber(text) && Number(text) == n <==> Denotes(text, n)
  {
    hide Dec, Number;
    if IsNumber(text) {
      var k := LeadingZeros(text);
    }
    if Denotes(text, n) {
      var k: nat :| text == Zeros(k) + Dec(n);
      ZerosAreNothing(k, Dec(n));
      DecReads(n);
    }
  }

  /** `text` is the range `r`: a number, or two with a dash between them. */
  ghost predicate Spans(text: string, r: Range) {
    && r.lo <= r.hi <= UINT32
    && ((r.lo == r.hi && Denotes(text, r.lo))
        || exists lo, hi :: text == lo + ['-'] + hi && Denotes(lo, r.lo) && Denotes(hi, r.hi))
  }

  lemma {:induction false} SplitOnceParts(text: string, c: char)
    ensures match SplitOnce(text, c)
            case None => c !in text
            case Some((before, after)) => text == before + [c] + after
  {
    if text != [] && text[0] != c {
      SplitOnceParts(text[1..], c);
    }
  }

  /** What the reader of ranges accepts, and as what. */
  lemma RangeMeaning(text: string, r: Range)
    ensures ParseRange(text) == Some(r) <==> Spans(text, r)
  {
    hide Denotes, Number, SplitOnce;
    SplitOnceParts(text, '-');
    if ParseRange(text) == Some(r) {
      match SplitOnce(text, '-')
      case None => NumberMeaning(text, r.lo);
      case Some((lo, hi)) =>
        NumberMeaning(lo, r.lo);
        NumberMeaning(hi, r.hi);
    }
    if Spans(text, r) {
      if r.lo == r.hi && Denotes(text, r.lo) {
        NumberMeaning(text, r.lo);
        NoSeparator(text, '-');
      } else {
        var lo, hi :| text == lo + ['-'] + hi && Denotes(lo, r.lo) && Denotes(hi, r.hi);
        NumberMeaning(lo, r.lo);
        NumberMeaning(hi, r.hi);
        SplitOnceAt(lo, hi, '-');
      }
    }
  }

  lemma IntPrints(params: Params, key: Key, n: nat, lo: nat, hi: nat)
    requires key in params && params[key] == Dec(n) && lo <= n <= hi && n <= UINT32
    ensures IntOf(params, key, lo, hi) == Ok(n)
  {
    NumberPrints(n);
  }

  // ----- validation ------------------------------------------------------------------------------------

  /** Empty I1 to I5 are dropped. */
  function Clean(params: Params): Params {
    map key | key in params && !(key.I? && 1 <= key.n <= 5 && params[key] == []) :: params[key]
  }

  function CheckJunk(p: Params, mtu: nat): Option<Problem> {
    var jc, jmin, jmax := IntOf(p, Jc, 1, 128), IntOf(p, Jmin, 1, mtu), IntOf(p, Jmax, 1, mtu);
    if jc.Err? then Some(jc.error)
    else if jmin.Err? then Some(jmin.error)
    else if jmax.Err? then Some(jmax.error)
    else if jmin.value >= jmax.value then Some(JunkOrder)
    else None
  }

  /** The first of some problems. */
  function FirstOf(problems: seq<Option<Problem>>): (r: Option<Problem>)
    ensures r.None? <==> forall n :: 0 <= n < |problems| ==> problems[n].None?
    ensures r.Some? ==> exists n :: 0 <= n < |problems| && problems[n] == r && forall k :: 0 <= k < n ==> problems[k].None?
  {
    if problems == [] then None else if problems[0].Some? then problems[0] else FirstOf(problems[1..])
  }

  lemma NoneOfFour(a: Option<Problem>, b: Option<Problem>, c: Option<Problem>, d: Option<Problem>)
    ensures FirstOf([a, b, c, d]).None? <==> a.None? && b.None? && c.None? && d.None?
  {
    var all := [a, b, c, d];
    assert all[0] == a && all[1] == b && all[2] == c && all[3] == d;
    hide FirstOf;
  }

  lemma NoneOfFive(a: Option<Problem>, b: Option<Problem>, c: Option<Problem>, d: Option<Problem>, e: Option<Problem>)
    ensures FirstOf([a, b, c, d, e]).None? <==> a.None? && b.None? && c.None? && d.None? && e.None?
  {
    var all := [a, b, c, d, e];
    assert all[0] == a && all[1] == b && all[2] == c && all[3] == d && all[4] == e;
    hide FirstOf;
  }

  function CheckSize(p: Params, n: nat): Option<Problem> {
    if S(n) !in p then None
    else match IntOf(p, S(n), 0, 1132) case Err(problem) => Some(problem) case Ok(_) => None
  }

  function CheckSizes(p: Params): Option<Problem>
    requires S(1) in p && S(2) in p
  {
    var bad := FirstOf([CheckSize(p, 1), CheckSize(p, 2), CheckSize(p, 3), CheckSize(p, 4)]);
    if bad.Some? then bad
    else
      NoneOfFour(CheckSize(p, 1), CheckSize(p, 2), CheckSize(p, 3), CheckSize(p, 4));
      if IntOf(p, S(1), 0, 1132).value + 56 == IntOf(p, S(2), 0, 1132).value then Some(HandshakeSizes)
      else None
  }

  predicate Apart(heads: seq<Range>) {
    forall i, j :: 0 <= i < j < |heads| ==> !heads[i].Meets(heads[j])
  }

  function Unreadable(p: Params, key: Key): Option<Problem>
    requires key in p
  {
    if ParseRange(p[key]).None? then Some(BadRange(key)) else None
  }

  function CheckHead(v: Version, n: nat, r: Range): Option<Problem> {
    if r.lo < (if v.V31? then 1 else 5) then Some(HeadTooSmall(H(n)))
    else if v.V15? && r.lo != r.hi then Some(HeadNotSingle(H(n)))
    else None
  }

  function CheckHeads(v: Version, p: Params): Option<Problem>
    requires forall n :: 1 <= n <= 4 ==> H(n) in p
  {
    var bad := FirstOf([Unreadable(p, H(1)), Unreadable(p, H(2)), Unreadable(p, H(3)), Unreadable(p, H(4))]);
    var a, b, c, d := ParseRange(p[H(1)]), ParseRange(p[H(2)]), ParseRange(p[H(3)]), ParseRange(p[H(4)]);
    if bad.Some? || a.None? || b.None? || c.None? || d.None? then bad
    else
      var wrong := FirstOf([CheckHead(v, 1, a.value), CheckHead(v, 2, b.value), CheckHead(v, 3, c.value), CheckHead(v, 4, d.value)]);
      if wrong.Some? then wrong
      else if !Apart([a.value, b.value, c.value, d.value]) then Some(HeadsOverlap)
      else None
  }

  function CheckPacket(p: Params, n: nat): Option<Problem> {
    if I(n) in p && !(p[I(n)] != [] && AllTags(p[I(n)])) then Some(NotCps(I(n))) else None
  }

  function CheckPackets(p: Params): Option<Problem> {
    FirstOf([CheckPacket(p, 1), CheckPacket(p, 2), CheckPacket(p, 3), CheckPacket(p, 4), CheckPacket(p, 5)])
  }

  function CheckFlag(p: Params, key: Key): Option<Problem> {
    if key in p && p[key] != "true" && p[key] != "false" then Some(BadFlag(key)) else None
  }

  function CheckPadding(p: Params, n: nat): Option<Problem> {
    if IntOf(p, S(n), MIN_HEADER_PROTECTION_PADDING, 1132).Ok? then None else Some(TooLittlePadding(S(n)))
  }

  /** What only version 3.1 has. The key is strict base64, so it is taken in its UAPI form. */
  function CheckExtras(p: Params): Option<Problem>
    requires HeaderProtectionKey in p
  {
    var bad := FirstOf([CheckPadding(p, 1), CheckPadding(p, 2), CheckPadding(p, 3), CheckPadding(p, 4)]);
    if bad.Some? then bad
    else
      FirstOf([if Pool.IsKey(p[HeaderProtectionKey]) then None else Some(BadKey),
               if ContentPaddingAddition in p then Unreadable(p, ContentPaddingAddition) else None,
               CheckFlag(p, RandomTrailers), CheckFlag(p, DisableCookies)])
  }

  /** `validate`. */
  function Validate(v: Version, params: Params, mtu: nat): Result<Params, Problem> {
    var p := Clean(params);
    if v.Unknown? then Err(UnknownVersion)
    else if exists key <- p :: !Allowed(v, key) then Err(NotValidForVersion)
    else if !(Required(v) <= p.Keys) then Err(Missing)
    else
      RequiredKeys(v);
      if CheckJunk(p, mtu).Some? then Err(CheckJunk(p, mtu).value)
      else if CheckSizes(p).Some? then Err(CheckSizes(p).value)
      else if CheckHeads(v, p).Some? then Err(CheckHeads(v, p).value)
      else if CheckPackets(p).Some? then Err(CheckPackets(p).value)
      else if v.V31? && CheckExtras(p).Some? then Err(CheckExtras(p).value)
      else Ok(p)
  }

  // ----- what is legal -------------------------------------------------------------------------------

  ghost function NeededKeys(v: Version): set<Key> {
    match v
    case V15 => {Jc, Jmin, Jmax, S(1), S(2), H(1), H(2), H(3), H(4)}
    case V20 => {Jc, Jmin, Jmax, S(1), S(2), S(3), S(4), H(1), H(2), H(3), H(4)}
    case V31 => {Jc, Jmin, Jmax, S(1), S(2), S(3), S(4), H(1), H(2), H(3), H(4), HeaderProtectionKey}
    case Unknown(_) => {}
  }

  ghost function OptionalKeys(v: Version): set<Key> {
    {I(1), I(2), I(3), I(4), I(5)} + (if v.V31? then {ContentPaddingAddition, RandomTrailers, DisableCookies} else {})
  }

  ghost predicate LegalKeys(v: Version, p: Params) {
    !v.Unknown? && NeededKeys(v) <= p.Keys <= NeededKeys(v) + OptionalKeys(v)
  }

  ghost predicate LegalJunk(p: Params, mtu: nat)
    requires Jc in p && Jmin in p && Jmax in p
  {
    exists jc: nat, jmin: nat, jmax: nat ::
      && Denotes(p[Jc], jc) && Denotes(p[Jmin], jmin) && Denotes(p[Jmax], jmax)
      && 1 <= jc <= 128 && 1 <= jmin < jmax <= mtu
  }

  ghost predicate LegalSizes(v: Version, p: Params)
    requires S(1) in p && S(2) in p
  {
    && (forall n :: 1 <= n <= 4 && S(n) in p ==> Within(p[S(n)], if v.V31? then 12 else 0, 1132))
    && SizesDiffer(p[S(1)], p[S(2)])
  }

  /** `text` denotes a number from `lo` to `hi`. */
  ghost predicate Within(text: string, lo: nat, hi: nat) {
    exists n: nat :: Denotes(text, n) && lo <= n <= hi
  }

  ghost predicate SizesDiffer(first: string, second: string) {
    forall s: nat, t: nat :: Denotes(first, s) && Denotes(second, t) ==> s + 56 != t
  }

  /** Each head is a range, from the floor of the version on, a single number in 1.5, and no number is in two. */
  ghost predicate LegalHeads(v: Version, p: Params)
    requires forall n :: 1 <= n <= 4 ==> H(n) in p
  {
    (forall n :: 1 <= n <= 4 ==> LegalHead(v, p[H(n)])) && NoneTwice([p[H(1)], p[H(2)], p[H(3)], p[H(4)]])
  }

  ghost predicate Disjoint(r: Range, q: Range) {
    forall x: nat :: !(r.Has(x) && q.Has(x))
  }

  ghost predicate LegalPackets(p: Params) {
    forall n :: 1 <= n <= 5 && I(n) in p ==> exists tags :: tags != [] && AllValid(tags) && p[I(n)] == PrintAll(tags)
  }

  ghost predicate LegalExtras(p: Params)
    requires HeaderProtectionKey in p
  {
    && Pool.IsKey(p[HeaderProtectionKey])
    && (ContentPaddingAddition in p ==> exists r :: Spans(p[ContentPaddingAddition], r))
    && (RandomTrailers in p ==> p[RandomTrailers] in {"true", "false"})
    && (DisableCookies in p ==> p[DisableCookies] in {"true", "false"})
  }

  /** What a version may be configured with. */
  ghost predicate Legal(v: Version, p: Params, mtu: nat) {
    && LegalKeys(v, p)
    && (NeededMembers(v); LegalJunk(p, mtu) && LegalSizes(v, p) && LegalHeads(v, p) && LegalPackets(p)
        && (v.V31? ==> LegalExtras(p)))
  }

  lemma NeededMembers(v: Version)
    requires !v.Unknown?
    ensures {Jc, Jmin, Jmax, S(1), S(2)} <= NeededKeys(v) && forall n :: 1 <= n <= 4 ==> H(n) in NeededKeys(v)
    ensures !v.V15? ==> S(3) in NeededKeys(v) && S(4) in NeededKeys(v)
    ensures v.V31? ==> HeaderProtectionKey in NeededKeys(v)
  {
  }

  lemma NeededIsRequired(v: Version)
    requires !v.Unknown?
    ensures NeededKeys(v) == Required(v)
  {
  }

  lemma OthersAreAllowed(v: Version, key: Key)
    requires !v.Unknown?
    ensures Allowed(v, key) <==> key in NeededKeys(v) + OptionalKeys(v)
  {
    match v
    case V15 =>
    case V20 =>
    case V31 =>
  }

  lemma KeysMeaning(v: Version, p: Params)
    ensures LegalKeys(v, p) <==> !v.Unknown? && (forall key <- p :: Allowed(v, key)) && Required(v) <= p.Keys
  {
    if !v.Unknown? {
      hide Allowed, Required, NeededKeys, OptionalKeys;
      NeededIsRequired(v);
      forall key <- p ensures Allowed(v, key) <==> key in NeededKeys(v) + OptionalKeys(v) {
        OthersAreAllowed(v, key);
      }
    }
  }

  /** `int` in terms of what the text denotes. */
  lemma IntMeaning(p: Params, key: Key, lo: nat, hi: nat)
    requires key in p
    ensures IntOf(p, key, lo, hi).Ok? <==> Within(p[key], lo, hi)
    ensures forall n: nat :: Denotes(p[key], n) && lo <= n <= hi ==> IntOf(p, key, lo, hi) == Ok(n)
    ensures IntOf(p, key, lo, hi).Ok? ==>
              forall n: nat :: Denotes(p[key], n) <==> n == IntOf(p, key, lo, hi).value
    ensures IntOf(p, key, lo, hi).Ok? ==> lo <= IntOf(p, key, lo, hi).value <= hi
  {
    hide Denotes, Number;
    forall n: nat ensures IsNumber(p[key]) && Number(p[key]) == n <==> Denotes(p[key], n) {
      NumberMeaning(p[key], n);
    }
    assert IntOf(p, key, lo, hi).Ok? ==> Denotes(p[key], IntOf(p, key, lo, hi).value);
  }

  lemma JunkMeaning(p: Params, mtu: nat)
    requires Jc in p && Jmin in p && Jmax in p
    ensures CheckJunk(p, mtu).None? <==> LegalJunk(p, mtu)
  {
    hide IntOf, Denotes;
    IntMeaning(p, Jc, 1, 128);
    IntMeaning(p, Jmin, 1, mtu);
    IntMeaning(p, Jmax, 1, mtu);
  }

  lemma SizeMeaning(p: Params, n: nat)
    ensures CheckSize(p, n).None? <==> (S(n) in p ==> Within(p[S(n)], 0, 1132))
  {
    hide IntOf, Denotes;
    if S(n) in p {
      IntMeaning(p, S(n), 0, 1132);
    }
  }

  lemma HeadMeaning(v: Version, n: nat, text: string)
    ensures ParseRange(text).Some? && CheckHead(v, n, ParseRange(text).value).None? <==>
            LegalHead(v, text)
  {
    hide ParseRange, Spans;
    if ParseRange(text).Some? {
      RangeMeaning(text, ParseRange(text).value);
    }
    forall r ensures Spans(text, r) ==> ParseRange(text) == Some(r) {
      RangeMeaning(text, r);
    }
  }

  lemma MeetsMeaning(r: Range, q: Range)
    requires r.lo <= r.hi && q.lo <= q.hi
    ensures !r.Meets(q) <==> Disjoint(r, q)
  {
    if r.Meets(q) {
      var x := if r.lo <= q.lo then q.lo else r.lo;
      assert r.Has(x) && q.Has(x);
    }
  }

  lemma PacketMeaning(p: Params, n: nat)
    ensures CheckPacket(p, n).None? <==>
            (I(n) in p ==> exists tags :: tags != [] && AllValid(tags) && p[I(n)] == PrintAll(tags))
  {
    hide AllTags, AllValid, PrintAll;
    if I(n) in p {
      CpsGrammar(p[I(n)]);
    }
  }

  lemma EachSize(p: Params)
    ensures FirstOf([CheckSize(p, 1), CheckSize(p, 2), CheckSize(p, 3), CheckSize(p, 4)]).None? <==>
            forall n :: 1 <= n <= 4 && S(n) in p ==> Within(p[S(n)], 0, 1132)
  {
    hide FirstOf, CheckSize, Within;
    NoneOfFour(CheckSize(p, 1), CheckSize(p, 2), CheckSize(p, 3), CheckSize(p, 4));
    forall n | 1 <= n <= 4 ensures CheckSize(p, n).None? <==> (S(n) in p ==> Within(p[S(n)], 0, 1132)) {
      SizeMeaning(p, n);
    }
  }

  lemma HandshakeMeaning(p: Params)
    requires S(1) in p && S(2) in p && Within(p[S(1)], 0, 1132) && Within(p[S(2)], 0, 1132)
    ensures IntOf(p, S(1), 0, 1132).Ok? && IntOf(p, S(2), 0, 1132).Ok?
    ensures IntOf(p, S(1), 0, 1132).value + 56 != IntOf(p, S(2), 0, 1132).value <==> SizesDiffer(p[S(1)], p[S(2)])
  {
    hide IntOf, Denotes, Within;
    IntMeaning(p, S(1), 0, 1132);
    IntMeaning(p, S(2), 0, 1132);
    var s, t := IntOf(p, S(1), 0, 1132).value, IntOf(p, S(2), 0, 1132).value;
    assert Denotes(p[S(1)], s) && Denotes(p[S(2)], t);
  }

  lemma WithinWider(text: string, lo: nat, hi: nat)
    ensures Within(text, lo, hi) ==> Within(text, 0, hi)
  {
    hide Denotes;
  }

  lemma SizesMeaning(v: Version, p: Params)
    requires S(1) in p && S(2) in p && (v.V31? ==> S(3) in p && S(4) in p)
    ensures CheckSizes(p).None? && (v.V31? ==> forall n :: 1 <= n <= 4 ==> CheckPadding(p, n).None?) <==> LegalSizes(v, p)
  {
    hide IntOf, Within, FirstOf, CheckSize, CheckPadding, SizesDiffer;
    EachSize(p);
    if v.V31? {
      forall n | 1 <= n <= 4
        ensures CheckPadding(p, n).None? <==> Within(p[S(n)], 12, 1132)
        ensures Within(p[S(n)], 12, 1132) ==> Within(p[S(n)], 0, 1132)
      {
        PaddingMeaning(p, n);
        WithinWider(p[S(n)], 12, 1132);
      }
    }
    if forall n :: 1 <= n <= 4 && S(n) in p ==> Within(p[S(n)], 0, 1132) {
      HandshakeMeaning(p);
    }
  }

  lemma PaddingMeaning(p: Params, n: nat)
    requires S(n) in p
    ensures CheckPadding(p, n).None? <==> Within(p[S(n)], 12, 1132)
  {
    hide IntOf, Within;
    IntMeaning(p, S(n), MIN_HEADER_PROTECTION_PADDING, 1132);
  }

  ghost predicate LegalHead(v: Version, text: string) {
    exists r :: Spans(text, r) && r.lo >= (if v.V31? then 1 else 5) && (v.V15? ==> r.lo == r.hi)
  }

  lemma HeadsMeaning(v: Version, p: Params)
    requires forall n :: 1 <= n <= 4 ==> H(n) in p
    ensures CheckHeads(v, p).None? <==> LegalHeads(v, p)
  {
    hide ParseRange, LegalHead, NoneTwice, FirstOf, Apart;
    forall n | 1 <= n <= 4
      ensures ParseRange(p[H(n)]).Some? && CheckHead(v, n, ParseRange(p[H(n)]).value).None? <==> LegalHead(v, p[H(n)])
    {
      HeadMeaning(v, n, p[H(n)]);
    }
    NoneOfFour(Unreadable(p, H(1)), Unreadable(p, H(2)), Unreadable(p, H(3)), Unreadable(p, H(4)));
    hide CheckHead;
    var texts := [p[H(1)], p[H(2)], p[H(3)], p[H(4)]];
    if forall n :: 1 <= n <= 4 ==> ParseRange(p[H(n)]).Some? {
      var a, b, c, d :=
        ParseRange(p[H(1)]).value, ParseRange(p[H(2)]).value, ParseRange(p[H(3)]).value, ParseRange(p[H(4)]).value;
      NoneOfFour(CheckHead(v, 1, a), CheckHead(v, 2, b), CheckHead(v, 3, c), CheckHead(v, 4, d));
      ApartMeaning([a, b, c, d], texts);
    }
  }

  /** The texts of four heads span no number twice. */
  ghost predicate NoneTwice(texts: seq<string>) {
    forall n, m, r, q :: 0 <= n < m < |texts| && Spans(texts[n], r) && Spans(texts[m], q) ==> Disjoint(r, q)
  }

  lemma ApartMeaning(heads: seq<Range>, texts: seq<string>)
    requires |heads| == |texts| && forall n :: 0 <= n < |heads| ==> ParseRange(texts[n]) == Some(heads[n])
    ensures Apart(heads) <==> NoneTwice(texts)
  {
    hide ParseRange, Disjoint;
    forall n, r | 0 <= n < |heads| ensures Spans(texts[n], r) <==> r == heads[n] {
      RangeMeaning(texts[n], r);
    }
    forall n, m | 0 <= n < m < |heads| ensures !heads[n].Meets(heads[m]) <==> Disjoint(heads[n], heads[m]) {
      assert Spans(texts[n], heads[n]) && Spans(texts[m], heads[m]);
      MeetsMeaning(heads[n], heads[m]);
    }
    hide Spans, Range.Meets;
    if NoneTwice(texts) {
      forall n, m | 0 <= n < m < |heads| ensures !heads[n].Meets(heads[m]) {
        assert Spans(texts[n], heads[n]) && Spans(texts[m], heads[m]);
      }
    }
  }

  lemma PacketsMeaning(p: Params)
    ensures CheckPackets(p).None? <==> LegalPackets(p)
  {
    NoneOfFive(CheckPacket(p, 1), CheckPacket(p, 2), CheckPacket(p, 3), CheckPacket(p, 4), CheckPacket(p, 5));
    hide FirstOf, CheckPacket, AllValid, PrintAll;
    forall n | 1 <= n <= 5
      ensures CheckPacket(p, n).None? <==>
              (I(n) in p ==> exists tags :: tags != [] && AllValid(tags) && p[I(n)] == PrintAll(tags))
    {
      PacketMeaning(p, n);
    }
  }

  lemma ExtrasMeaning(p: Params)
    requires HeaderProtectionKey in p
    ensures CheckExtras(p).None? <==> (forall n :: 1 <= n <= 4 ==> CheckPadding(p, n).None?) && LegalExtras(p)
  {
    hide ParseRange, Spans, Pool.IsKey, CheckPadding, FirstOf;
    NoneOfFour(CheckPadding(p, 1), CheckPadding(p, 2), CheckPadding(p, 3), CheckPadding(p, 4));
    var key: Option<Problem> := if Pool.IsKey(p[HeaderProtectionKey]) then None else Some(BadKey);
    var padding := if ContentPaddingAddition in p then Unreadable(p, ContentPaddingAddition) else None;
    NoneOfFour(key, padding, CheckFlag(p, RandomTrailers), CheckFlag(p, DisableCookies));
    if ContentPaddingAddition in p {
      Readable(p[ContentPaddingAddition]);
    }
  }

  lemma Readable(text: string)
    ensures ParseRange(text).Some? <==> exists r :: Spans(text, r)
  {
    hide ParseRange, Spans;
    if ParseRange(text).Some? {
      RangeMeaning(text, ParseRange(text).value);
    }
    if r :| Spans(text, r) {
      RangeMeaning(text, r);
    }
  }

  /** `validate` accepts exactly what is legal once empty packets are dropped, and returns that. */
  lemma ValidateMeaning(v: Version, params: Params, mtu: nat)
    ensures Validate(v, params, mtu).Ok? <==> Legal(v, Clean(params), mtu)
    ensures Validate(v, params, mtu).Ok? ==> Validate(v, params, mtu).value == Clean(params)
    ensures v.Unknown? ==> Validate(v, params, mtu) == Err(UnknownVersion)
  {
    var p := Clean(params);
    hide Clean, CheckJunk, CheckSizes, CheckHeads, CheckPackets, CheckExtras, CheckPadding, Allowed, Required;
    hide LegalKeys, LegalJunk, LegalSizes, LegalHeads, LegalPackets, LegalExtras, NeededKeys, OptionalKeys;
    KeysMeaning(v, p);
    if LegalKeys(v, p) {
      ChecksMeaning(v, p, mtu);
    }
  }

  lemma ChecksMeaning(v: Version, p: Params, mtu: nat)
    requires LegalKeys(v, p)
    ensures CheckSizes.requires(p) && CheckHeads.requires(v, p) && (v.V31? ==> CheckExtras.requires(p))
    ensures Legal(v, p, mtu) <==>
            && CheckJunk(p, mtu).None? && CheckSizes(p).None? && CheckHeads(v, p).None? && CheckPackets(p).None?
            && (v.V31? ==> CheckExtras(p).None?)
  {
    NeededMembers(v);
    hide CheckJunk, CheckSizes, CheckHeads, CheckPackets, CheckExtras, CheckPadding, NeededKeys, OptionalKeys;
    hide LegalJunk, LegalSizes, LegalHeads, LegalPackets, LegalExtras;
    JunkMeaning(p, mtu);
    SizesMeaning(v, p);
    HeadsMeaning(v, p);
    PacketsMeaning(p);
    if v.V31? {
      ExtrasMeaning(p);
    }
  }

  /** Dropping empty packets: I1 to I5 go where they are empty, and nothing else changes. */
  lemma CleanMeaning(params: Params, key: Key)
    ensures Get(Clean(params), key)
            == if key in {I(1), I(2), I(3), I(4), I(5)} && Get(params, key) == Some([]) then None else Get(params, key)
  {
  }

  lemma RequiredKeys(v: Version)
    ensures S(1) in Required(v) && S(2) in Required(v)
    ensures forall n :: 1 <= n <= 4 ==> H(n) in Required(v)
    ensures v.V31? ==> HeaderProtectionKey in Required(v)
  {
  }

  /** What passed passes again, unchanged. */
  lemma ValidateIsIdempotent(v: Version, params: Params, mtu: nat)
    requires Validate(v, params, mtu).Ok?
    ensures Validate(v, Validate(v, params, mtu).value, mtu) == Validate(v, params, mtu)
  {
    hide CheckJunk, CheckSizes, CheckHeads, CheckExtras, CheckPackets, Required, Allowed;
    assert Clean(Clean(params)) == Clean(params);
  }

  // ----- randomness -----------------------------------------------------------------------------------------

  /** The random source. Its draws are anything; rejection loops stop when they do, or give up after so many draws. */
  class Rng {
    var patience: nat

    constructor (patience: nat)
    {
      this.patience := patience;
    }

    method Below(n: nat) returns (r: nat)
      requires n > 0
      ensures r < n
    {
      var draw: nat := *;
      return draw % n;
    }

    /** `randint`, both ends included. */
    method RandInt(lo: nat, hi: nat) returns (r: nat)
      requires lo <= hi
      ensures lo <= r <= hi
    {
      var below := Below(hi - lo + 1);
      return lo + below;
    }

    /** Another draw of a rejection loop. */
    method Again() returns (more: bool)
      modifies this
      ensures if more then patience < old(patience) else patience == 0
    {
      more := patience > 0;
      if more {
        patience := patience - 1;
      }
    }
  }

  /** `now` is `before` in another order: position `i` holds what was at `order[i]`. */
  ghost predicate Arranged<T>(now: seq<T>, before: seq<T>, order: seq<nat>) {
    && |order| == |now| == |before|
    && (forall i :: 0 <= i < |order| ==> order[i] < |before|)
    && (forall i, j :: 0 <= i < j < |order| ==> order[i] != order[j])
    && (forall i :: 0 <= i < |order| ==> order[i] < |before| && now[i] == before[order[i]])
  }

  lemma ArrangedAtFirst<T>(items: seq<T>)
    ensures Arranged(items, items, seq(|items|, i => i))
  {
  }

  method Swap<T>(items: array<T>, i: nat, j: nat, ghost before: seq<T>, ghost order: seq<nat>) returns (ghost next: seq<nat>)
    requires i < items.Length && j < items.Length && Arranged(items[..], before, order)
    modifies items
    ensures Arranged(items[..], before, next)
    ensures items[i] == old(items[j]) && items[j] == old(items[i])
    ensures forall k :: 0 <= k < items.Length && k != i && k != j ==> items[k] == old(items[k])
  {
    items[i], items[j] := items[j], items[i];
    next := order[i := order[j]][j := order[i]];
  }

  /** `shuffle`: every element ends up somewhere, once. */
  method Shuffle<T>(rng: Rng, items: array<T>) returns (ghost order: seq<nat>)
    modifies items
    ensures Arranged(items[..], old(items[..]), order)
  {
    hide Arranged;
    ghost var before := items[..];
    ArrangedAtFirst(before);
    order := seq(|before|, i => i);
    var i := items.Length;
    while i > 1
      invariant i <= items.Length && Arranged(items[..], before, order)
    {
      i := i - 1;
      var j := rng.Below(i + 1);
      order := Swap(items, i, j, before, order);
    }
  }

  // ----- generation ---------------------------------------------------------------------------------------------

  function HexChar(n: nat): (c: char)
    requires n < 16
    ensures IsHexDigit(c)
  {
    if n < 10 then '0' + n as char else 'a' + (n - 10) as char
  }

  /** `{:02x}` of a byte. */
  function Hex2(n: nat): string
    requires n < 256
  {
    [HexChar(n / 16), HexChar(n % 16)]
  }

  /** The tags of a first packet that looks like a QUIC Initial. */
  function InitialTags(first: nat, dcid: nat, tail: nat): seq<Tag>
    requires first < 256 && dcid < 256
  {
    [Hex(Hex2(first) + "00000001" + Hex2(dcid)), Random(Dec(dcid)), Hex("0000"), Time, Random(Dec(tail))]
  }

  lemma InitialTagsAreValid(first: nat, dcid: nat, tail: nat)
    requires first < 256 && 8 <= dcid <= 20 && 32 <= tail <= 96
    ensures AllValid(InitialTags(first, dcid, tail))
  {
    var hex := Hex2(first) + "00000001" + Hex2(dcid);
    assert Hex(hex).Valid() by {
      assert forall c <- "00000001" :: IsHexDigit(c);
    }
    assert Hex("0000").Valid();
    assert Pow10(4) == 10000 by {
      assert Pow10(4) == 10 * Pow10(3) == 100 * Pow10(2) == 1000 * Pow10(1) == 10000 * Pow10(0);
    }
    hide Pow10, Hex2;
    DecLength(dcid, 4);
    DecLength(tail, 4);
  }

  /** `default_i1`: always a custom packet string. */
  method DefaultI1(rng: Rng) returns (text: string)
    ensures text != [] && AllTags(text)
    ensures exists first: nat, dcid: nat, tail: nat ::
              && 0xC0 <= first <= 0xC3 && dcid in {8, 16, 18, 20} && 32 <= tail <= 96
              && text == PrintAll(InitialTags(first, dcid, tail))
  {
    hide InitialTags, AllTags, AllValid;
    var first := rng.RandInt(0, 3);
    var lengths := [8, 8, 8, 16, 18, 20];
    var which := rng.Below(6);
    var dcid := lengths[which];
    var tail := rng.RandInt(32, 96);
    InitialTagsAreValid(0xC0 + first, dcid, tail);
    PrintedTags(InitialTags(0xC0 + first, dcid, tail));
    PrintedIsNotEmpty(0xC0 + first, dcid, tail);
    return PrintAll(InitialTags(0xC0 + first, dcid, tail));
  }

  lemma PrintedIsNotEmpty(first: nat, dcid: nat, tail: nat)
    requires first < 256 && dcid < 256
    ensures PrintAll(InitialTags(first, dcid, tail)) != []
  {
    hide Dec;
    var tags := InitialTags(first, dcid, tail);
    assert PrintAll(tags) == tags[0].Print() + PrintAll(tags[1..]);
    assert tags[0].Print()[0] == '<';
  }

  /** Four header values as a version may have them. */
  ghost predicate HeadsOk(v: Version, heads: seq<string>) {
    && |heads| == 4
    && (forall n :: 0 <= n < 4 ==>
          && ParseRange(heads[n]).Some?
          && ParseRange(heads[n]).value.lo >= (if v.V31? then 1 else 5)
          && (v.V15? ==> ParseRange(heads[n]).value.lo == ParseRange(heads[n]).value.hi))
    && (forall n, m :: 0 <= n < m < 4 ==> !ParseRange(heads[n]).value.Meets(ParseRange(heads[m]).value))
  }

  /** The order does not matter. */
  lemma ArrangedHeads(v: Version, now: seq<string>, before: seq<string>, order: seq<nat>)
    requires Arranged(now, before, order) && HeadsOk(v, before)
    ensures HeadsOk(v, now)
  {
    hide ParseRange;
    forall n, m | 0 <= n < m < 4 ensures !ParseRange(now[n]).value.Meets(ParseRange(now[m]).value) {
      assert now[n] == before[order[n]] && now[m] == before[order[m]];
    }
  }

  /** Selection sort. */
  method Sort(items: array<nat>) returns (ghost order: seq<nat>)
    modifies items
    ensures Arranged(items[..], old(items[..]), order)
    ensures forall i, j :: 0 <= i < j < items.Length ==> items[i] <= items[j]
  {
    hide Arranged;
    ghost var before := items[..];
    ArrangedAtFirst(before);
    order := seq(|before|, i => i);
    for i := 0 to items.Length
      invariant Arranged(items[..], before, order)
      invariant forall p, q :: 0 <= p < q < items.Length && p < i ==> items[p] <= items[q]
    {
      var least := i;
      for j := i + 1 to items.Length
        invariant i <= least < items.Length && forall k :: i <= k < j ==> items[least] <= items[k]
      {
        if items[j] < items[least] {
          least := j;
        }
      }
      order := Swap(items, i, least, before, order);
    }
  }

  function Decimals(numbers: seq<nat>): (r: seq<string>)
    ensures |r| == |numbers| && forall n :: 0 <= n < |r| ==> r[n] == Dec(numbers[n])
  {
    seq(|numbers|, n requires 0 <= n < |numbers| => Dec(numbers[n]))
  }

  /** Different numbers a header may have. */
  ghost predicate Singles(numbers: seq<nat>) {
    && (forall n :: 0 <= n < |numbers| ==> 5 <= numbers[n] <= UINT32)
    && (forall n, m :: 0 <= n < m < |numbers| ==> numbers[n] != numbers[m])
  }

  lemma ArrangedSingles(now: seq<nat>, before: seq<nat>, order: seq<nat>)
    requires Arranged(now, before, order) && Singles(before)
    ensures |now| == |before| && Singles(now)
  {
    forall n, m | 0 <= n < m < |now| ensures now[n] != now[m] {
      assert now[n] == before[order[n]] && now[m] == before[order[m]];
    }
  }

  lemma SinglesAreOk(numbers: seq<nat>)
    requires |numbers| == 4 && Singles(numbers)
    ensures HeadsOk(V15, Decimals(numbers))
  {
    hide ParseRange;
    forall n | 0 <= n < 4 ensures ParseRange(Decimals(numbers)[n]) == Some(Range(numbers[n], numbers[n])) {
      SinglePrints(numbers[n]);
    }
  }

  /** The headers of version 1.5: four different numbers. */
  method DrawSingles(rng: Rng) returns (r: Option<seq<string>>)
    modifies rng
    ensures if r.Some? then HeadsOk(V15, r.value) else rng.patience == 0
  {
    hide HeadsOk;
    var heads: seq<nat> := [];
    while |heads| < 4
      invariant |heads| <= 4 && Singles(heads)
      decreases 4 - |heads|, rng.patience
    {
      var head := rng.RandInt(5, UINT32);
      if head !in heads {
        heads := heads + [head];
      } else {
        var more := rng.Again();
        if !more {
          return None;
        }
      }
    }
    var items := new nat[4](n requires 0 <= n < 4 => heads[n]);
    assert items[..] == heads;
    r := MixSingles(rng, items);
  }

  method MixSingles(rng: Rng, items: array<nat>) returns (r: Option<seq<string>>)
    requires items.Length == 4 && Singles(items[..])
    modifies items
    ensures r.Some? && HeadsOk(V15, r.value)
  {
    hide HeadsOk, Arranged, Singles;
    ghost var heads := items[..];
    ghost var sorting := Sort(items);
    ArrangedSingles(items[..], heads, sorting);
    ghost var sorted := items[..];
    ghost var mixing := Shuffle(rng, items);
    ArrangedSingles(items[..], sorted, mixing);
    SinglesAreOk(items[..]);
    return Some(Decimals(items[..]));
  }

  const SPAN := (UINT32 - 5) / 4

  /** Where quarter `slot` begins. */
  function Start(slot: nat, span: nat): nat {
    5 + slot * span
  }

  /** A range inside its quarter. */
  ghost predicate InQuarter(r: Range, slot: nat, span: nat) {
    Start(slot, span) <= r.lo <= r.hi < Start(slot + 1, span)
  }

  lemma StartsGrow(n: nat, m: nat, span: nat)
    requires n <= m
    ensures Start(n, span) <= Start(m, span)
    decreases m - n
  {
    if n < m {
      StartsGrow(n + 1, m, span);
      assert (n + 1) * span == n * span + span;
    }
  }

  /** One range of each quarter: none meets another. */
  lemma QuartersAreOk(ranges: seq<Range>, texts: seq<string>, span: nat)
    requires |ranges| == |texts| == 4 && Start(4, span) <= UINT32
    requires forall n :: 0 <= n < 4 ==> InQuarter(ranges[n], n, span) && texts[n] == ranges[n].Print()
    ensures HeadsOk(V20, texts)
  {
    hide ParseRange, Start;
    forall n | 0 <= n < 4 ensures ParseRange(texts[n]) == Some(ranges[n]) && ranges[n].lo >= 5 {
      QuarterBounds(ranges[n], n, span);
      RangePrints(ranges[n]);
    }
    forall n, m | 0 <= n < m < 4 ensures !ranges[n].Meets(ranges[m]) {
      StartsGrow(n + 1, m, span);
    }
  }

  lemma QuarterBounds(r: Range, slot: nat, span: nat)
    requires InQuarter(r, slot, span) && slot < 4 && Start(4, span) <= UINT32
    ensures 5 <= r.lo <= r.hi <= UINT32
  {
    StartsGrow(slot + 1, 4, span);
    StartsGrow(0, slot, span);
  }

  /** A range of quarter `slot`. */
  method DrawRange(rng: Rng, slot: nat, span: nat) returns (range: Range)
    requires span >= 4000
    ensures InQuarter(range, slot, span)
  {
    var base := Start(slot, span);
    var lo := rng.RandInt(0, span / 2 - 1000);
    var width := rng.RandInt(1000, span / 2 - 1);
    assert Start(slot + 1, span) == base + span by {
      assert (slot + 1) * span == slot * span + span;
    }
    return Range(base + lo, base + lo + width);
  }

  /** The headers of version 2.0: one range from each quarter, mixed. */
  method DrawRanges(rng: Rng) returns (r: seq<string>)
    ensures HeadsOk(V20, r)
  {
    hide HeadsOk, InQuarter;
    var texts: seq<string> := [];
    ghost var ranges: seq<Range> := [];
    for slot := 0 to 4
      invariant |texts| == |ranges| == slot
      invariant forall n :: 0 <= n < slot ==> InQuarter(ranges[n], n, SPAN) && texts[n] == ranges[n].Print()
    {
      var range := DrawRange(rng, slot, SPAN);
      texts := texts + [range.Print()];
      ranges := ranges + [range];
    }
    assert Start(4, SPAN) <= UINT32;
    QuartersAreOk(ranges, texts, SPAN);
    r := MixHeads(rng, texts);
  }

  method MixHeads(rng: Rng, texts: seq<string>) returns (r: seq<string>)
    requires HeadsOk(V20, texts)
    ensures HeadsOk(V20, r)
  {
    FourHeads(V20, texts);
    hide HeadsOk, Arranged;
    var items := new string[4](n requires 0 <= n < 4 => texts[n]);
    assert items[..] == texts;
    ghost var order := Shuffle(rng, items);
    ArrangedHeads(V20, items[..], texts, order);
    return items[..];
  }

  lemma FixedHeads()
    ensures HeadsOk(V31, ["1", "2", "3", "4"])
  {
    hide ParseRange;
    assert Dec(1) == "1" && Dec(2) == "2" && Dec(3) == "3" && Dec(4) == "4";
    SinglePrints(1);
    SinglePrints(2);
    SinglePrints(3);
    SinglePrints(4);
  }

  ghost predicate SizesOk(v: Version, s: seq<nat>) {
    && |s| == 4 && s[0] + 56 != s[1]
    && if v.V31? then forall n :: 0 <= n < 4 ==> MIN_HEADER_PROTECTION_PADDING <= s[n] <= 64
       else 15 <= s[0] <= 150 && 15 <= s[1] <= 150 && 8 <= s[2] <= 64 && 8 <= s[3] <= 64
  }

  /** The packet sizes, the second drawn again while it gives the first away. */
  method DrawSizes(v: Version, rng: Rng) returns (r: Option<seq<nat>>)
    modifies rng
    ensures if r.Some? then SizesOk(v, r.value) else rng.patience == 0
  {
    var lo, hi := if v.V31? then MIN_HEADER_PROTECTION_PADDING else 15, if v.V31? then 64 else 150;
    var s0 := rng.RandInt(lo, hi);
    var s1 := rng.RandInt(lo, hi);
    var s2 := rng.RandInt(if v.V31? then lo else 8, 64);
    var s3 := rng.RandInt(if v.V31? then lo else 8, 64);
    while s0 + 56 == s1
      invariant lo <= s1 <= hi
      decreases rng.patience
    {
      var more := rng.Again();
      if !more {
        return None;
      }
      s1 := rng.RandInt(lo, hi);
    }
    return Some([s0, s1, s2, s3]);
  }

  /** What is written down, in every version. */
  function Always(jc: nat, jmin: nat, jmax: nat, s: seq<nat>, heads: seq<string>, i1: string): Params
    requires |s| == 4 && |heads| == 4
  {
    map[
      Jc := Dec(jc), Jmin := Dec(jmin), Jmax := Dec(jmax), S(1) := Dec(s[0]), S(2) := Dec(s[1]),
      H(1) := heads[0], H(2) := heads[1], H(3) := heads[2], H(4) := heads[3], I(1) := i1]
  }

  function Assemble(v: Version, jc: nat, jmin: nat, jmax: nat, s: seq<nat>, heads: seq<string>, i1: string, key: string): Params
    requires |s| == 4 && |heads| == 4
  {
    var common := Always(jc, jmin, jmax, s, heads, i1);
    var sized := if v.V15? then common else common[S(3) := Dec(s[2])][S(4) := Dec(s[3])];
    if v.V31? then sized[HeaderProtectionKey := key][ContentPaddingAddition := "0-32"] else sized
  }

  lemma AlwaysNumbers(jc: nat, jmin: nat, jmax: nat, s: seq<nat>, heads: seq<string>, i1: string)
    requires |s| == 4 && |heads| == 4
    ensures var p := Always(jc, jmin, jmax, s, heads, i1);
            && Get(p, Jc) == Some(Dec(jc)) && Get(p, Jmin) == Some(Dec(jmin)) && Get(p, Jmax) == Some(Dec(jmax))
            && Get(p, S(1)) == Some(Dec(s[0])) && Get(p, S(2)) == Some(Dec(s[1])) && S(3) !in p && S(4) !in p
  {
    hide Dec;
  }

  lemma AlwaysTexts(jc: nat, jmin: nat, jmax: nat, s: seq<nat>, heads: seq<string>, i1: string)
    requires |s| == 4 && |heads| == 4
    ensures var p := Always(jc, jmin, jmax, s, heads, i1);
            && Get(p, H(1)) == Some(heads[0]) && Get(p, H(2)) == Some(heads[1])
            && Get(p, H(3)) == Some(heads[2]) && Get(p, H(4)) == Some(heads[3])
            && Get(p, I(1)) == Some(i1) && (forall n :: 2 <= n ==> I(n) !in p)
            && RandomTrailers !in p && DisableCookies !in p
  {
    hide Dec;
  }

  lemma AssembledKeys(v: Version, jc: nat, jmin: nat, jmax: nat, s: seq<nat>, heads: seq<string>, i1: string, key: string)
    requires |s| == 4 && |heads| == 4
    ensures Assemble(v, jc, jmin, jmax, s, heads, i1, key).Keys
            == Required(v) + {I(1)} + (if v.V31? then {ContentPaddingAddition} else {})
  {
    hide Dec;
  }

  lemma KeysAreAllowed(v: Version)
    requires !v.Unknown?
    ensures forall k <- Required(v) + {I(1)} + (if v.V31? then {ContentPaddingAddition} else {}) :: Allowed(v, k)
  {
  }

  lemma AssembledNumbers(v: Version, jc: nat, jmin: nat, jmax: nat, s: seq<nat>, heads: seq<string>, i1: string, key: string)
    requires |s| == 4 && |heads| == 4
    ensures var p := Assemble(v, jc, jmin, jmax, s, heads, i1, key);
            && Get(p, Jc) == Some(Dec(jc)) && Get(p, Jmin) == Some(Dec(jmin)) && Get(p, Jmax) == Some(Dec(jmax))
            && Get(p, S(1)) == Some(Dec(s[0])) && Get(p, S(2)) == Some(Dec(s[1]))
            && (if v.V15? then S(3) !in p && S(4) !in p
                else Get(p, S(3)) == Some(Dec(s[2])) && Get(p, S(4)) == Some(Dec(s[3])))
  {
    hide Dec, Always;
    AlwaysNumbers(jc, jmin, jmax, s, heads, i1);
  }

  lemma AssembledTexts(v: Version, jc: nat, jmin: nat, jmax: nat, s: seq<nat>, heads: seq<string>, i1: string, key: string)
    requires |s| == 4 && |heads| == 4
    ensures var p := Assemble(v, jc, jmin, jmax, s, heads, i1, key);
            && Get(p, H(1)) == Some(heads[0]) && Get(p, H(2)) == Some(heads[1])
            && Get(p, H(3)) == Some(heads[2]) && Get(p, H(4)) == Some(heads[3])
            && Get(p, I(1)) == Some(i1) && (forall n :: 2 <= n ==> I(n) !in p)
            && (v.V31? ==> Get(p, HeaderProtectionKey) == Some(key) && Get(p, ContentPaddingAddition) == Some("0-32"))
            && RandomTrailers !in p && DisableCookies !in p
  {
    hide Dec, Always;
    AlwaysTexts(jc, jmin, jmax, s, heads, i1);
  }

  function Get(p: Params, key: Key): Option<string> {
    if key in p then Some(p[key]) else None
  }

  lemma PaddingParses()
    ensures ParseRange("0-32") == Some(Range(0, 32))
  {
    assert Dec(0) == "0";
    assert Dec(32) == Dec(3) + [DigitChar(2)];
    assert Dec(3) == ['3'] && DigitChar(2) == '2';
    assert "0-32" == Range(0, 32).Print();
    RangePrints(Range(0, 32));
  }

  lemma JunkPasses(p: Params, jc: nat, jmin: nat, jmax: nat, mtu: nat)
    requires Get(p, Jc) == Some(Dec(jc)) && Get(p, Jmin) == Some(Dec(jmin)) && Get(p, Jmax) == Some(Dec(jmax))
    requires 1 <= jc <= 128 && 1 <= jmin < jmax <= mtu && jmax <= UINT32
    ensures CheckJunk(p, mtu).None?
  {
    hide IntOf, Dec;
    IntPrints(p, Jc, jc, 1, 128);
    IntPrints(p, Jmin, jmin, 1, mtu);
    IntPrints(p, Jmax, jmax, 1, mtu);
  }

  lemma SizesPass(v: Version, p: Params, s: seq<nat>)
    requires SizesOk(v, s) && Get(p, S(1)) == Some(Dec(s[0])) && Get(p, S(2)) == Some(Dec(s[1]))
    requires if v.V15? then S(3) !in p && S(4) !in p else Get(p, S(3)) == Some(Dec(s[2])) && Get(p, S(4)) == Some(Dec(s[3]))
    ensures CheckSizes(p).None?
    ensures v.V31? ==> forall n :: 1 <= n <= 4 ==> IntOf(p, S(n), MIN_HEADER_PROTECTION_PADDING, 1132).Ok?
  {
    hide IntOf, Dec;
    forall n | 1 <= n <= 4 && S(n) in p
      ensures IntOf(p, S(n), 0, 1132) == Ok(s[n - 1])
      ensures v.V31? ==> IntOf(p, S(n), MIN_HEADER_PROTECTION_PADDING, 1132).Ok?
    {
      assert p[S(n)] == Dec(s[n - 1]);
      IntPrints(p, S(n), s[n - 1], 0, 1132);
      if v.V31? {
        IntPrints(p, S(n), s[n - 1], MIN_HEADER_PROTECTION_PADDING, 1132);
      }
    }
  }

  lemma HeadsPass(v: Version, p: Params, heads: seq<string>)
    requires HeadsOk(v, heads) && !v.Unknown?
    requires Get(p, H(1)) == Some(heads[0]) && Get(p, H(2)) == Some(heads[1])
    requires Get(p, H(3)) == Some(heads[2]) && Get(p, H(4)) == Some(heads[3])
    ensures (forall n :: 1 <= n <= 4 ==> H(n) in p) && CheckHeads(v, p).None?
  {
    hide ParseRange;
    NoneOfFour(Unreadable(p, H(1)), Unreadable(p, H(2)), Unreadable(p, H(3)), Unreadable(p, H(4)));
    var a, b, c, d :=
      ParseRange(heads[0]).value, ParseRange(heads[1]).value, ParseRange(heads[2]).value, ParseRange(heads[3]).value;
    NoneOfFour(CheckHead(v, 1, a), CheckHead(v, 2, b), CheckHead(v, 3, c), CheckHead(v, 4, d));
    hide FirstOf;
    var parsed := [a, b, c, d];
    assert forall n :: 0 <= n < 4 ==> parsed[n] == ParseRange(heads[n]).value;
  }

  lemma PacketsPass(p: Params)
    requires (forall n :: 2 <= n ==> I(n) !in p) && I(1) in p && p[I(1)] != [] && AllTags(p[I(1)])
    ensures CheckPackets(p).None?
  {
    hide AllTags, FirstOf;
    NoneOfFive(CheckPacket(p, 1), CheckPacket(p, 2), CheckPacket(p, 3), CheckPacket(p, 4), CheckPacket(p, 5));
  }

  lemma ExtrasPass(p: Params)
    requires forall n :: 1 <= n <= 4 ==> IntOf(p, S(n), MIN_HEADER_PROTECTION_PADDING, 1132).Ok?
    requires HeaderProtectionKey in p && Pool.IsKey(p[HeaderProtectionKey]) && RandomTrailers !in p && DisableCookies !in p
    requires ContentPaddingAddition in p && ParseRange(p[ContentPaddingAddition]).Some?
    ensures CheckExtras(p).None?
  {
    hide IntOf, ParseRange, Pool.IsKey, FirstOf;
    NoneOfFour(CheckPadding(p, 1), CheckPadding(p, 2), CheckPadding(p, 3), CheckPadding(p, 4));
    NoneOfFour(None, None, None, None);
  }

  /** What is generated is valid as it stands. */
  lemma AssembledIsValid(v: Version, mtu: nat, jc: nat, jmin: nat, jmax: nat, s: seq<nat>, heads: seq<string>, i1: string,
                         key: string)
    requires !v.Unknown? && 1 <= jc <= 128 && 1 <= jmin < jmax <= mtu && jmax <= UINT32
    requires SizesOk(v, s) && HeadsOk(v, heads) && i1 != [] && AllTags(i1) && Pool.IsKey(key)
    ensures var p := Assemble(v, jc, jmin, jmax, s, heads, i1, key); Validate(v, p, mtu) == Ok(p)
  {
    hide Assemble, CheckJunk, CheckSizes, CheckHeads, CheckPackets, CheckExtras, HeadsOk;
    hide Required, Allowed, IntOf, ParseRange, Pool.IsKey, AllTags, Dec;
    FourHeads(v, heads);
    var p := Assemble(v, jc, jmin, jmax, s, heads, i1, key);
    AssembledKeys(v, jc, jmin, jmax, s, heads, i1, key);
    KeysAreAllowed(v);
    AssembledNumbers(v, jc, jmin, jmax, s, heads, i1, key);
    AssembledTexts(v, jc, jmin, jmax, s, heads, i1, key);
    JunkPasses(p, jc, jmin, jmax, mtu);
    SizesPass(v, p, s);
    HeadsPass(v, p, heads);
    PaddingParses();
    NothingToClean(p);
    PacketsPass(p);
    if v.V31? {
      ExtrasPass(p);
    }
  }

  lemma NothingToClean(p: Params)
    requires (forall n :: 2 <= n ==> I(n) !in p) && (I(1) in p ==> p[I(1)] != [])
    ensures Clean(p) == p
  {
  }

  /** The junk settings as they are drawn, and which keys there are. */
  ghost predicate Drawn(v: Version, p: Params, mtu: nat) {
    && p.Keys == NeededKeys(v) + {I(1)} + (if v.V31? then {ContentPaddingAddition} else {})
    && (v.V31? ==> p[ContentPaddingAddition] == "0-32")
    && Get(p, Jc).Some? && Within(p[Jc], 4, 8) && Get(p, Jmin).Some? && Get(p, Jmax).Some?
    && exists jmin: nat, jmax: nat ::
         && Denotes(p[Jmin], jmin) && Denotes(p[Jmax], jmax) && 8 <= jmin <= 24
         && jmax <= mtu && jmax <= jmin + 120 && (jmax < mtu ==> jmax >= jmin + 40)
  }

  lemma DecDenotes(n: nat)
    requires n <= UINT32
    ensures Denotes(Dec(n), n)
  {
    NumberPrints(n);
    hide Dec, Number, Denotes;
    NumberMeaning(Dec(n), n);
  }

  lemma AssembledIsDrawn(v: Version, mtu: nat, jc: nat, jmin: nat, more: nat, jmax: nat, s: seq<nat>, heads: seq<string>,
                         i1: string, key: string)
    requires !v.Unknown? && |s| == 4 && |heads| == 4 && 4 <= jc <= 8 && 8 <= jmin <= 24 && 40 <= more <= 120
    requires jmax == if jmin + more < mtu then jmin + more else mtu
    ensures Drawn(v, Assemble(v, jc, jmin, jmax, s, heads, i1, key), mtu)
  {
    hide Assemble, Dec, Denotes, Required, NeededKeys;
    NeededIsRequired(v);
    AssembledKeys(v, jc, jmin, jmax, s, heads, i1, key);
    AssembledNumbers(v, jc, jmin, jmax, s, heads, i1, key);
    AssembledTexts(v, jc, jmin, jmax, s, heads, i1, key);
    DecDenotes(jc);
    DecDenotes(jmin);
    DecDenotes(jmax);
    var p := Assemble(v, jc, jmin, jmax, s, heads, i1, key);
    assert Denotes(p[Jmin], jmin) && Denotes(p[Jmax], jmax) && Denotes(p[Jc], jc);
    assert v.V31? ==> Get(p, ContentPaddingAddition) == Some("0-32");
  }

  /** `generate`: whatever is drawn, what comes out is valid; nothing comes out while a rejection loop has not stopped. */
  method Generate(v: Version, mtu: nat, rng: Rng) returns (r: Option<Result<Params, Problem>>)
    requires mtu >= 25
    modifies rng
    ensures v.Unknown? ==> r == Some(Err(UnknownVersion))
    ensures !v.Unknown? && r.Some? ==>
              && r.value.Ok? && Legal(v, r.value.value, mtu) && Validate(v, r.value.value, mtu) == r.value
              && Drawn(v, r.value.value, mtu)
    ensures r.None? ==> rng.patience == 0
  {
    hide Assemble, Validate, Legal, Drawn, HeadsOk, SizesOk, Pool.IsKey, AllTags;
    if v.Unknown? {
      return Some(Err(UnknownVersion));
    }
    var jmin := rng.RandInt(8, 24);
    var more := rng.RandInt(40, 120);
    var jmax := if jmin + more < mtu then jmin + more else mtu;
    var jc := rng.RandInt(4, 8);
    var sizes := DrawSizes(v, rng);
    if sizes.None? {
      return None;
    }
    var heads := DrawHeads(v, rng);
    if heads.None? {
      return None;
    }
    var i1 := DefaultI1(rng);
    var key := DrawKey(rng);
    FourSizes(v, sizes.value);
    FourHeads(v, heads.value);
    var out := Assemble(v, jc, jmin, jmax, sizes.value, heads.value, i1, key);
    AssembledIsValid(v, mtu, jc, jmin, jmax, sizes.value, heads.value, i1, key);
    ValidateMeaning(v, out, mtu);
    AssembledIsDrawn(v, mtu, jc, jmin, more, jmax, sizes.value, heads.value, i1, key);
    return Some(match Validate(v, out, mtu) case Err(problem) => Err(problem) case Ok(_) => Ok(out));
  }

  lemma FourSizes(v: Version, s: seq<nat>)
    requires SizesOk(v, s)
    ensures |s| == 4
  {
  }

  lemma FourHeads(v: Version, heads: seq<string>)
    requires HeadsOk(v, heads)
    ensures |heads| == 4
  {
  }

  method DrawHeads(v: Version, rng: Rng) returns (r: Option<seq<string>>)
    requires !v.Unknown?
    modifies rng
    ensures if r.Some? then HeadsOk(v, r.value) else rng.patience == 0
  {
    hide HeadsOk;
    match v
    case V15 => r := DrawSingles(rng);
    case V20 =>
      var ranges := DrawRanges(rng);
      r := Some(ranges);
    case V31 =>
      FixedHeads();
      r := Some(["1", "2", "3", "4"]);
  }

  /** Thirty-two random bytes. */
  method DrawKey(rng: Rng) returns (key: string)
    ensures Pool.IsKey(key)
  {
    key := [];
    for n := 0 to 64
      invariant |key| == n && forall c <- key :: c in "0123456789abcdef"
    {
      var digit := rng.Below(16);
      key := key + ["0123456789abcdef"[digit]];
    }
  }

  /** `apply_overrides`: what the operator sets wins, and the result is checked as a whole. */
  lemma OverridesAreChecked(v: Version, base: Params, overrides: Params, mtu: nat)
    ensures Validate(v, base + overrides, mtu).Ok? <==> Legal(v, Clean(base + overrides), mtu)
    ensures Validate(v, base + overrides, mtu).Ok? ==>
              var merged := Validate(v, base + overrides, mtu).value;
              && Legal(v, merged, mtu) && Validate(v, merged, mtu) == Ok(merged)
              && (forall key <- overrides :: key in merged ==> merged[key] == overrides[key])
              && (forall key <- base :: key !in overrides && key in merged ==> merged[key] == base[key])
              && merged.Keys <= base.Keys + overrides.Keys
  {
    ValidateMeaning(v, base + overrides, mtu);
    hide Validate, Legal;
    if Validate(v, base + overrides, mtu).Ok? {
      ValidateIsIdempotent(v, base + overrides, mtu);
    }
  }
}
