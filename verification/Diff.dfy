/** The plan's diff: `SequenceMatcher` without junk (awg_manager/src/difflib.rs). */
module Diff {

  /** `size` elements from `i` in the first sequence and from `j` in the second. */
  datatype Block = Block(i: nat, j: nat, size: nat)

  /** The part of the two sequences a search is bounded to. */
  datatype Range = Range(alo: nat, ahi: nat, blo: nat, bhi: nat)

  ghost predicate InBounds<T>(a: seq<T>, b: seq<T>, r: Range) {
    r.alo <= r.ahi <= |a| && r.blo <= r.bhi <= |b|
  }

  /** The block lies inside the range and is the same on both sides. */
  ghost predicate IsCommon<T>(a: seq<T>, b: seq<T>, r: Range, m: Block)
    requires InBounds(a, b, r)
  {
    && r.alo <= m.i && m.i + m.size <= r.ahi && r.blo <= m.j && m.j + m.size <= r.bhi
    && a[m.i..m.i + m.size] == b[m.j..m.j + m.size]
  }

  /** Longer, or as long and earlier in the first sequence, or there too and earlier in the second. */
  predicate Beats(m: Block, n: Block) {
    m.size > n.size || (m.size == n.size && (m.i < n.i || (m.i == n.i && m.j <= n.j)))
  }

  ghost predicate IsLongest<T>(a: seq<T>, b: seq<T>, r: Range, m: Block)
    requires InBounds(a, b, r)
  {
    IsCommon(a, b, r, m) && forall n :: IsCommon(a, b, r, n) ==> Beats(m, n)
  }

  lemma LongestIsUnique<T>(a: seq<T>, b: seq<T>, r: Range, m: Block, n: Block)
    requires InBounds(a, b, r) && IsLongest(a, b, r, m) && IsLongest(a, b, r, n)
    ensures m == n
  {
    assert Beats(m, n) && Beats(n, m);
  }

  /** The common suffix of `a[alo..i]` and `b[blo..j]`. */
  ghost function Suffix<T>(a: seq<T>, b: seq<T>, r: Range, i: nat, j: nat): nat
    requires InBounds(a, b, r) && i <= r.ahi && j <= r.bhi
  {
    if i <= r.alo || j <= r.blo || a[i - 1] != b[j - 1] then 0 else 1 + Suffix(a, b, r, i - 1, j - 1)
  }

  lemma {:induction false} SuffixIsCommon<T>(a: seq<T>, b: seq<T>, r: Range, i: nat, j: nat)
    requires InBounds(a, b, r) && r.alo <= i <= r.ahi && r.blo <= j <= r.bhi
    ensures var k := Suffix(a, b, r, i, j);
            k <= i - r.alo && k <= j - r.blo && IsCommon(a, b, r, Block(i - k, j - k, k))
  {
    if i > r.alo && j > r.blo && a[i - 1] == b[j - 1] {
      SuffixIsCommon(a, b, r, i - 1, j - 1);
      var k := Suffix(a, b, r, i, j);
      LastOf(a, i - k, i);
      LastOf(b, j - k, j);
    }
  }

  lemma LastOf<T>(s: seq<T>, lo: nat, hi: nat)
    requires lo < hi <= |s|
    ensures s[lo..hi] == s[lo..hi - 1] + [s[hi - 1]]
  {
  }

  lemma {:induction false} CommonIsSuffix<T>(a: seq<T>, b: seq<T>, r: Range, m: Block)
    requires InBounds(a, b, r) && IsCommon(a, b, r, m)
    ensures Suffix(a, b, r, m.i + m.size, m.j + m.size) >= m.size
    decreases m.size
  {
    if m.size > 0 {
      var p, q, k := m.i + m.size, m.j + m.size, m.size - 1;
      assert a[m.i..p - 1] == a[m.i..p][..k] == b[m.j..q][..k] == b[m.j..q - 1];
      assert a[p - 1] == a[m.i..p][k] == b[m.j..q][k] == b[q - 1];
      CommonIsSuffix(a, b, r, m.(size := k));
    }
  }

  // ----- the index of the second sequence ----------------------------------------------------

  /** `b2j`: every element with its positions, in increasing order. */
  ghost predicate Indexes<T>(b: seq<T>, n: nat, index: map<T, seq<nat>>)
    requires n <= |b|
  {
    && (forall x <- index :: forall s :: 0 <= s < |index[x]| ==> index[x][s] < n && b[index[x][s]] == x)
    && (forall x <- index :: forall s, t :: 0 <= s < t < |index[x]| ==> index[x][s] < index[x][t])
    && (forall p :: 0 <= p < n ==> b[p] in index && p in index[b[p]])
  }

  method BuildIndex<T(==)>(b: seq<T>) returns (index: map<T, seq<nat>>)
    ensures Indexes(b, |b|, index)
  {
    index := map[];
    for n := 0 to |b|
      invariant Indexes(b, n, index)
    {
      var before := if b[n] in index then index[b[n]] else [];
      IndexNext(b, n, index, before);
      index := index[b[n] := before + [n]];
    }
  }

  lemma IndexNext<T>(b: seq<T>, n: nat, index: map<T, seq<nat>>, before: seq<nat>)
    requires n < |b| && Indexes(b, n, index) && before == if b[n] in index then index[b[n]] else []
    ensures Indexes(b, n + 1, index[b[n] := before + [n]])
  {
    var next := index[b[n] := before + [n]];
    forall p | 0 <= p < n + 1 ensures b[p] in next && p in next[b[p]] {
      assert p < n ==> p in index[b[p]];
      assert p in next[b[n]] || b[p] != b[n];
    }
  }

  // ----- the longest match ---------------------------------------------------------------------

  /** The lengths kept for row `i`, columns before `done`: the suffixes that end with a match of `a[i - 1]`. */
  ghost predicate IsRow<T>(a: seq<T>, b: seq<T>, r: Range, i: nat, done: nat, j2len: map<nat, nat>)
    requires InBounds(a, b, r) && r.alo <= i <= r.ahi && done <= r.bhi
  {
    && (forall j <- j2len :: r.blo <= j < done && j2len[j] == Suffix(a, b, r, i, j + 1))
    && (forall j :: r.blo <= j < done && j !in j2len ==> Suffix(a, b, r, i, j + 1) == 0)
  }

  /** `best` is the longest, first-ending suffix among the cells scanned: rows up to `i`, and of the next row the columns
      up to `j`. */
  ghost predicate IsBest<T>(a: seq<T>, b: seq<T>, r: Range, i: nat, j: nat, best: Block)
    requires InBounds(a, b, r)
  {
    && IsCommon(a, b, r, best)
    && (best.size == 0 ==> best.i == r.alo && best.j == r.blo)
    && (best.size > 0 ==> best.i + best.size <= i || (best.i + best.size == i + 1 && best.j + best.size <= j))
    && forall p, q :: r.alo < p <= r.ahi && r.blo < q <= r.bhi && (p <= i || (p == i + 1 && q <= j)) ==>
                        Below(a, b, r, p, q, best)
  }

  /** The suffix ending at a scanned cell is beaten by `best`. */
  ghost predicate Below<T>(a: seq<T>, b: seq<T>, r: Range, p: nat, q: nat, best: Block)
    requires InBounds(a, b, r) && p <= r.ahi && q <= r.bhi
  {
    var k := Suffix(a, b, r, p, q);
    k < best.size || (k == best.size && (k > 0 ==> best.i + k < p || (best.i + k == p && best.j + k <= q)))
  }

  lemma BestIsLongest<T>(a: seq<T>, b: seq<T>, r: Range, best: Block)
    requires InBounds(a, b, r)
    requires IsCommon(a, b, r, best) && (best.size == 0 ==> best.i == r.alo && best.j == r.blo)
    requires forall p, q :: r.alo < p <= r.ahi && r.blo < q <= r.bhi ==> Below(a, b, r, p, q, best)
    ensures IsLongest(a, b, r, best)
  {
    forall n | IsCommon(a, b, r, n) ensures Beats(best, n) {
      if n.size > 0 {
        CommonIsSuffix(a, b, r, n);
        assert Below(a, b, r, n.i + n.size, n.j + n.size, best);
      }
    }
  }

  lemma SuffixStep<T>(a: seq<T>, b: seq<T>, r: Range, i: nat, j: nat)
    requires InBounds(a, b, r) && r.alo <= i < r.ahi && r.blo <= j < r.bhi
    ensures Suffix(a, b, r, i + 1, j + 1) == if a[i] == b[j] then 1 + Suffix(a, b, r, i, j) else 0
  {
  }

  /** A stretch of the next row without a match of `a[i]` adds nothing. */
  lemma SkipColumns<T>(a: seq<T>, b: seq<T>, r: Range, i: nat, from: nat, to: nat, best: Block, row: map<nat, nat>)
    requires InBounds(a, b, r) && r.alo <= i < r.ahi && r.blo <= from <= to <= r.bhi
    requires forall j :: from <= j < to ==> b[j] != a[i]
    requires IsBest(a, b, r, i, from, best) && IsRow(a, b, r, i + 1, from, row)
    ensures IsBest(a, b, r, i, to, best) && IsRow(a, b, r, i + 1, to, row)
  {
    forall j | from <= j < to && j !in row ensures Suffix(a, b, r, i + 1, j + 1) == 0 {
      SuffixStep(a, b, r, i, j);
    }
    forall p, q | r.alo < p <= r.ahi && r.blo < q <= r.bhi && (p <= i || (p == i + 1 && q <= to))
      ensures Below(a, b, r, p, q, best)
    {
      if p == i + 1 && q > from {
        SuffixStep(a, b, r, i, q - 1);
      }
    }
  }

  /** Between the last position taken and the next one of `a[i]` there is no match of it. */
  lemma Unmatched<T>(a: seq<T>, b: seq<T>, index: map<T, seq<nat>>, i: nat, n: nat, from: nat, to: nat)
    requires i < |a| && to <= |b| && Indexes(b, |b|, index)
    requires a[i] in index ==>
               && n <= |index[a[i]]|
               && (forall m :: 0 <= m < n ==> index[a[i]][m] < from)
               && (n < |index[a[i]]| ==> to <= index[a[i]][n])
    ensures forall j :: from <= j < to ==> b[j] != a[i]
  {
  }

  /** The kept length of the previous row plus one is the suffix length of the cell. */
  lemma RowStep<T>(a: seq<T>, b: seq<T>, r: Range, i: nat, j: nat, j2len: map<nat, nat>, k: nat)
    requires InBounds(a, b, r) && r.alo <= i < r.ahi && r.blo <= j < r.bhi && a[i] == b[j]
    requires IsRow(a, b, r, i, r.bhi, j2len)
    requires k == (if j > 0 && j - 1 in j2len then j2len[j - 1] else 0) + 1
    ensures k == Suffix(a, b, r, i + 1, j + 1) && k <= i + 1 && k <= j + 1
  {
    SuffixIsCommon(a, b, r, i + 1, j + 1);
    if j > r.blo {
      assert j - 1 in j2len || Suffix(a, b, r, i, (j - 1) + 1) == 0;
    }
  }

  /** Taking the suffix that ends at the next cell if it is longer than `best`. */
  lemma TakeCell<T>(a: seq<T>, b: seq<T>, r: Range, i: nat, j: nat, best: Block, k: nat, better: Block, row: map<nat, nat>)
    requires InBounds(a, b, r) && r.alo <= i < r.ahi && r.blo <= j < r.bhi
    requires IsBest(a, b, r, i, j, best) && k == Suffix(a, b, r, i + 1, j + 1) && k > 0
    requires k <= i + 1 && k <= j + 1 && IsRow(a, b, r, i + 1, j, row)
    requires better == if k > best.size then Block(i + 1 - k, j + 1 - k, k) else best
    ensures IsBest(a, b, r, i, j + 1, better) && IsRow(a, b, r, i + 1, j + 1, row[j := k])
  {
    hide Suffix;
    ExtendRow(a, b, r, i, j, k, row);
    BestCell(a, b, r, i, j, best, k, better);
  }

  lemma ExtendRow<T>(a: seq<T>, b: seq<T>, r: Range, i: nat, j: nat, k: nat, row: map<nat, nat>)
    requires InBounds(a, b, r) && r.alo <= i < r.ahi && r.blo <= j < r.bhi
    requires k == Suffix(a, b, r, i + 1, j + 1) && IsRow(a, b, r, i + 1, j, row)
    ensures IsRow(a, b, r, i + 1, j + 1, row[j := k])
  {
    hide Suffix;
  }

  lemma BestCell<T>(a: seq<T>, b: seq<T>, r: Range, i: nat, j: nat, best: Block, k: nat, better: Block)
    requires InBounds(a, b, r) && r.alo <= i < r.ahi && r.blo <= j < r.bhi
    requires IsBest(a, b, r, i, j, best) && k == Suffix(a, b, r, i + 1, j + 1) && 0 < k <= i + 1 && k <= j + 1
    requires better == if k > best.size then Block(i + 1 - k, j + 1 - k, k) else best
    ensures IsBest(a, b, r, i, j + 1, better)
  {
    hide Suffix;
    SuffixIsCommon(a, b, r, i + 1, j + 1);
    forall p, q | r.alo < p <= r.ahi && r.blo < q <= r.bhi && (p <= i || (p == i + 1 && q <= j + 1))
      ensures Below(a, b, r, p, q, better)
    {
      if p == i + 1 && q == j + 1 {
      } else {
        assert Below(a, b, r, p, q, best);
      }
    }
  }

  lemma EmptyRow<T>(a: seq<T>, b: seq<T>, r: Range, i: nat)
    requires InBounds(a, b, r) && r.alo <= i <= r.ahi
    ensures IsRow(a, b, r, i, r.blo, map[])
  {
    hide Suffix;
  }

  /** The positions of one element. */
  lemma Positions<T>(b: seq<T>, index: map<T, seq<nat>>, x: T)
    requires Indexes(b, |b|, index)
    ensures x in index ==> forall s :: 0 <= s < |index[x]| ==> index[x][s] < |b| && b[index[x][s]] == x
    ensures x in index ==> forall s, t :: 0 <= s < t < |index[x]| ==> index[x][s] < index[x][t]
  {
  }

  /** One row of `longest_match`: extend the suffixes by element `i`, and take the first that is longer than `best`. */
  method ScanRow<T(==)>(a: seq<T>, ghost b: seq<T>, index: map<T, seq<nat>>, r: Range, i: nat, j2len: map<nat, nat>, best: Block)
    returns (next: map<nat, nat>, better: Block)
    requires InBounds(a, b, r) && r.alo <= i < r.ahi && Indexes(b, |b|, index)
    requires IsRow(a, b, r, i, r.bhi, j2len) && IsBest(a, b, r, i, r.blo, best)
    ensures IsRow(a, b, r, i + 1, r.bhi, next) && IsBest(a, b, r, i, r.bhi, better)
  {
    hide IsRow, IsBest, Suffix, Indexes;
    next, better := map[], best;
    EmptyRow(a, b, r, i + 1);
    var positions := if a[i] in index then index[a[i]] else [];
    Positions(b, index, a[i]);
    var n := 0;
    ghost var done := r.blo;
    while n < |positions|
      invariant 0 <= n <= |positions| && r.blo <= done <= r.bhi
      invariant forall m :: n <= m < |positions| ==> positions[m] < r.blo || done <= positions[m]
      invariant forall m :: 0 <= m < n ==> positions[m] < done
      invariant IsRow(a, b, r, i + 1, done, next) && IsBest(a, b, r, i, done, better)
    {
      var j := positions[n];
      if j < r.blo {
        n := n + 1;
        continue;
      }
      if j >= r.bhi {
        break;
      }
      Unmatched(a, b, index, i, n, done, j);
      SkipColumns(a, b, r, i, done, j, better, next);
      var k := (if j > 0 && j - 1 in j2len then j2len[j - 1] else 0) + 1;
      RowStep(a, b, r, i, j, j2len, k);
      ghost var before, row := better, next;
      next := next[j := k];
      if k > better.size {
        better := Block(i + 1 - k, j + 1 - k, k);
      }
      TakeCell(a, b, r, i, j, before, k, better, row);
      done := j + 1;
      n := n + 1;
    }
    Unmatched(a, b, index, i, n, done, r.bhi);
    SkipColumns(a, b, r, i, done, r.bhi, better, next);
  }

  /** `longest_match`: the longest common block of the range; of several, the earliest in `a`, then in `b`. */
  method LongestMatch<T(==)>(a: seq<T>, ghost b: seq<T>, index: map<T, seq<nat>>, r: Range) returns (best: Block)
    requires InBounds(a, b, r) && Indexes(b, |b|, index)
    ensures IsLongest(a, b, r, best)
  {
    best := Block(r.alo, r.blo, 0);
    var j2len: map<nat, nat> := map[];
    assert IsRow(a, b, r, r.alo, r.bhi, j2len) && IsBest(a, b, r, r.alo, r.blo, best);
    hide IsRow, IsBest, IsLongest, Indexes;
    for i := r.alo to r.ahi
      invariant IsRow(a, b, r, i, r.bhi, j2len) && IsBest(a, b, r, i, r.blo, best)
    {
      j2len, best := ScanRow(a, b, index, r, i, j2len, best);
    }
    BestIsLongest(a, b, r, best);
  }

  // ----- matching blocks -------------------------------------------------------------------------

  /** The longest match of a range; `LongestMatch` shows there always is one. */
  ghost function Longest<T>(a: seq<T>, b: seq<T>, r: Range): Block
    requires InBounds(a, b, r)
  {
    if m :| IsLongest(a, b, r, m) then m else Block(r.alo, r.blo, 0)
  }

  function Left(r: Range, m: Block): Range {
    Range(r.alo, m.i, r.blo, m.j)
  }

  function Right(r: Range, m: Block): Range {
    Range(m.i + m.size, r.ahi, m.j + m.size, r.bhi)
  }

  /** The blocks of a range in order: those left of its longest match, the match, those right of it. */
  ghost function Blocks<T>(a: seq<T>, b: seq<T>, r: Range): seq<Block>
    requires InBounds(a, b, r)
    decreases r.ahi - r.alo
  {
    var m := Longest(a, b, r);
    if IsLongest(a, b, r, m) && m.size > 0
    then Blocks(a, b, Left(r, m)) + [m] + Blocks(a, b, Right(r, m))
    else []
  }

  /** Of finitely many blocks one beats all others. */
  lemma {:induction false} SomeBlockBeats(blocks: set<Block>)
    requires blocks != {}
    ensures exists m <- blocks :: forall n <- blocks :: Beats(m, n)
  {
    hide Beats;
    var x :| x in blocks;
    var rest := blocks - {x};
    assert forall n <- blocks :: n == x || n in rest;
    if rest == {} {
      BeatsOrders(x, x, x);
      assert Beats(x, x);
    } else {
      SomeBlockBeats(rest);
      var m :| m in rest && forall n <- rest :: Beats(m, n);
      Winner(rest, m, x);
      var w := if Beats(x, m) then x else m;
      assert w in blocks && forall n <- blocks :: Beats(w, n);
    }
  }

  /** One more block: either it or the best so far beats all. */
  lemma Winner(rest: set<Block>, m: Block, x: Block)
    requires forall n <- rest :: Beats(m, n)
    ensures var w := if Beats(x, m) then x else m; Beats(w, x) && forall n <- rest :: Beats(w, n)
  {
    hide Beats;
    BeatsOrders(x, m, m);
    forall n <- rest ensures Beats(x, m) ==> Beats(x, n) {
      BeatsOrders(x, m, n);
    }
  }

  /** Beating is a total order. */
  lemma BeatsOrders(x: Block, y: Block, z: Block)
    ensures Beats(x, x) && (Beats(x, y) || Beats(y, x)) && (Beats(x, y) && Beats(y, z) ==> Beats(x, z))
  {
  }

  lemma LongestExists<T>(a: seq<T>, b: seq<T>, r: Range)
    requires InBounds(a, b, r)
    ensures IsLongest(a, b, r, Longest(a, b, r))
  {
    var all := set i, j, k | 0 <= i <= r.ahi && 0 <= j <= r.bhi && 0 <= k <= r.ahi && IsCommon(a, b, r, Block(i, j, k))
                 :: Block(i, j, k);
    assert Block(r.alo, r.blo, 0) in all by {
      assert IsCommon(a, b, r, Block(r.alo, r.blo, 0));
    }
    SomeBlockBeats(all);
    var m :| m in all && forall n <- all :: Beats(m, n);
    forall n | IsCommon(a, b, r, n) ensures Beats(m, n) {
      assert n == Block(n.i, n.j, n.size) && n in all;
    }
    assert IsLongest(a, b, r, m);
  }

  /** Where block `n` of a chain may start: the end of the block before it. */
  function EndOf(r: Range, bs: seq<Block>, n: nat): (nat, nat)
    requires n <= |bs|
  {
    if n == 0 then (r.alo, r.blo) else (bs[n - 1].i + bs[n - 1].size, bs[n - 1].j + bs[n - 1].size)
  }

  ghost predicate NothingShared<T>(a: seq<T>, b: seq<T>, alo: nat, ahi: nat, blo: nat, bhi: nat)
    requires ahi <= |a| && bhi <= |b|
  {
    forall p, q :: alo <= p < ahi && blo <= q < bhi ==> a[p] != b[q]
  }

  /** Block `n` is common, not empty, after the one before it on both sides, and the gap between them shares nothing. */
  ghost predicate Linked<T>(a: seq<T>, b: seq<T>, r: Range, bs: seq<Block>, n: nat)
    requires InBounds(a, b, r) && n < |bs|
  {
    var end, m := EndOf(r, bs, n), bs[n];
    && m.size > 0 && IsCommon(a, b, r, m) && end.0 <= m.i && end.1 <= m.j
    && NothingShared(a, b, end.0, m.i, end.1, m.j)
  }

  /** The blocks are in order, and neither a gap between them nor the rest after them shares an element. */
  ghost predicate Chained<T>(a: seq<T>, b: seq<T>, r: Range, bs: seq<Block>)
    requires InBounds(a, b, r)
  {
    && (forall n :: 0 <= n < |bs| ==> Linked(a, b, r, bs, n))
    && NothingShared(a, b, EndOf(r, bs, |bs|).0, r.ahi, EndOf(r, bs, |bs|).1, r.bhi)
  }

  lemma ChainJoin<T>(a: seq<T>, b: seq<T>, r: Range, left: seq<Block>, m: Block, right: seq<Block>)
    requires InBounds(a, b, r) && IsCommon(a, b, r, m) && m.size > 0
    requires Chained(a, b, Left(r, m), left) && Chained(a, b, Right(r, m), right)
    ensures Chained(a, b, r, left + [m] + right)
  {
    hide IsCommon, NothingShared;
    var bs := left + [m] + right;
    forall n | 0 <= n < |bs| ensures Linked(a, b, r, bs, n) {
      if n < |left| {
        JoinLeft(a, b, r, left, m, right, n);
      } else if n > |left| {
        JoinRight(a, b, r, left, m, right, n - |left| - 1);
      } else {
        JoinMiddle(a, b, r, left, m, right);
      }
    }
    assert EndOf(r, bs, |bs|) == EndOf(Right(r, m), right, |right|);
  }

  lemma JoinLeft<T>(a: seq<T>, b: seq<T>, r: Range, left: seq<Block>, m: Block, right: seq<Block>, n: nat)
    requires InBounds(a, b, r) && IsCommon(a, b, r, m) && n < |left| && Linked(a, b, Left(r, m), left, n)
    ensures Linked(a, b, r, left + [m] + right, n)
  {
    hide NothingShared;
    assert EndOf(r, left + [m] + right, n) == EndOf(Left(r, m), left, n);
  }

  lemma JoinRight<T>(a: seq<T>, b: seq<T>, r: Range, left: seq<Block>, m: Block, right: seq<Block>, k: nat)
    requires InBounds(a, b, r) && IsCommon(a, b, r, m) && k < |right| && Linked(a, b, Right(r, m), right, k)
    ensures Linked(a, b, r, left + [m] + right, |left| + 1 + k)
  {
    hide NothingShared;
    assert EndOf(r, left + [m] + right, |left| + 1 + k) == EndOf(Right(r, m), right, k);
  }

  lemma JoinMiddle<T>(a: seq<T>, b: seq<T>, r: Range, left: seq<Block>, m: Block, right: seq<Block>)
    requires InBounds(a, b, r) && IsCommon(a, b, r, m) && m.size > 0 && Chained(a, b, Left(r, m), left)
    ensures Linked(a, b, r, left + [m] + right, |left|)
  {
    hide NothingShared;
    assert EndOf(r, left + [m] + right, |left|) == EndOf(Left(r, m), left, |left|);
    assert |left| > 0 ==> Linked(a, b, Left(r, m), left, |left| - 1);
  }

  lemma NothingToMatch<T>(a: seq<T>, b: seq<T>, r: Range, m: Block)
    requires InBounds(a, b, r) && IsLongest(a, b, r, m) && m.size == 0
    ensures NothingShared(a, b, r.alo, r.ahi, r.blo, r.bhi)
  {
    forall p, q | r.alo <= p < r.ahi && r.blo <= q < r.bhi ensures a[p] != b[q] {
      var n := Block(p, q, 1);
      assert !IsCommon(a, b, r, n);
      assert a[p..p + 1] == [a[p]] && b[q..q + 1] == [b[q]];
    }
  }

  lemma {:induction false} BlocksAreChained<T>(a: seq<T>, b: seq<T>, r: Range)
    requires InBounds(a, b, r)
    ensures Chained(a, b, r, Blocks(a, b, r))
    decreases r.ahi - r.alo
  {
    var m := Longest(a, b, r);
    LongestExists(a, b, r);
    if m.size > 0 {
      BlocksAreChained(a, b, Left(r, m));
      BlocksAreChained(a, b, Right(r, m));
      ChainJoin(a, b, r, Blocks(a, b, Left(r, m)), m, Blocks(a, b, Right(r, m)));
    } else {
      NothingToMatch(a, b, r, m);
    }
  }

  lemma NoBlocks<T>(a: seq<T>, b: seq<T>, r: Range)
    requires InBounds(a, b, r) && (r.alo == r.ahi || r.blo == r.bhi)
    ensures Blocks(a, b, r) == []
  {
  }

  ghost predicate AllInBounds<T>(a: seq<T>, b: seq<T>, queue: seq<Range>) {
    forall n :: 0 <= n < |queue| ==> InBounds(a, b, queue[n])
  }

  /** The blocks still to come from the ranges in the queue. */
  ghost function Pending<T>(a: seq<T>, b: seq<T>, queue: seq<Range>): multiset<Block>
    requires AllInBounds(a, b, queue)
  {
    if queue == [] then multiset{}
    else Pending(a, b, queue[..|queue| - 1]) + multiset(Blocks(a, b, queue[|queue| - 1]))
  }

  lemma PendingPush<T>(a: seq<T>, b: seq<T>, queue: seq<Range>, r: Range)
    requires AllInBounds(a, b, queue) && InBounds(a, b, r)
    ensures AllInBounds(a, b, queue + [r])
    ensures Pending(a, b, queue + [r]) == Pending(a, b, queue) + multiset(Blocks(a, b, r))
  {
    hide Blocks;
    assert (queue + [r])[..|queue|] == queue;
  }

  lemma FirstPending<T>(a: seq<T>, b: seq<T>)
    ensures var r := Range(0, |a|, 0, |b|);
            AllInBounds(a, b, [r]) && Pending(a, b, [r]) == multiset(Blocks(a, b, r))
  {
    var r := Range(0, |a|, 0, |b|);
    PendingPush(a, b, [], r);
    assert [] + [r] == [r];
  }

  /** The work left: every step takes a range off and puts back strictly less. */
  ghost function Work(queue: seq<Range>): nat {
    if queue == [] then 0
    else
      var r := queue[|queue| - 1];
      Work(queue[..|queue| - 1]) + 1 + 2 * (if r.alo <= r.ahi then r.ahi - r.alo else 0)
  }

  lemma WorkPush(queue: seq<Range>, r: Range)
    requires r.alo <= r.ahi
    ensures Work(queue + [r]) == Work(queue) + 1 + 2 * (r.ahi - r.alo)
  {
    assert (queue + [r])[..|queue|] == queue;
  }

  /** Push a range unless it is empty on one side. */
  function Push(queue: seq<Range>, r: Range): seq<Range> {
    if r.alo < r.ahi && r.blo < r.bhi then queue + [r] else queue
  }

  lemma PushPending<T>(a: seq<T>, b: seq<T>, queue: seq<Range>, r: Range)
    requires AllInBounds(a, b, queue) && InBounds(a, b, r)
    ensures AllInBounds(a, b, Push(queue, r))
    ensures Pending(a, b, Push(queue, r)) == Pending(a, b, queue) + multiset(Blocks(a, b, r))
  {
    if r.alo < r.ahi && r.blo < r.bhi {
      PendingPush(a, b, queue, r);
    } else {
      NoBlocks(a, b, r);
    }
  }

  /** The queue with the ranges beside a match pushed. */
  function Pushed(rest: seq<Range>, r: Range, m: Block): seq<Range> {
    Push(Push(rest, Left(r, m)), Right(r, m))
  }

  /** Replacing a range by its longest match and the ranges beside it loses no block. */
  lemma PushedPending<T>(a: seq<T>, b: seq<T>, rest: seq<Range>, r: Range, m: Block)
    requires AllInBounds(a, b, rest) && InBounds(a, b, r) && IsLongest(a, b, r, m) && m.size > 0
    ensures AllInBounds(a, b, Pushed(rest, r, m))
    ensures Pending(a, b, Pushed(rest, r, m)) + multiset{m} == Pending(a, b, rest) + multiset(Blocks(a, b, r))
  {
    Popped(a, b, r, m);
    hide Blocks, Pending, IsLongest, Push;
    PushPending(a, b, rest, Left(r, m));
    PushPending(a, b, Push(rest, Left(r, m)), Right(r, m));
  }

  lemma PushedWork(rest: seq<Range>, r: Range, m: Block)
    requires r.alo <= m.i && m.i + m.size <= r.ahi && m.size > 0
    ensures Work(Pushed(rest, r, m)) < Work(rest + [r])
  {
    hide Work;
    WorkPush(rest, r);
    WorkPush(rest, Left(r, m));
    WorkPush(Push(rest, Left(r, m)), Right(r, m));
  }

  /** The worklist of `matching_blocks`: every range gives its longest match and the ranges beside it. */
  method CollectBlocks<T(==)>(a: seq<T>, b: seq<T>) returns (blocks: seq<Block>)
    ensures multiset(blocks) == multiset(Blocks(a, b, Range(0, |a|, 0, |b|)))
  {
    var index := BuildIndex(b);
    var queue := [Range(0, |a|, 0, |b|)];
    blocks := [];
    ghost var all := multiset(Blocks(a, b, Range(0, |a|, 0, |b|)));
    FirstPending(a, b);
    hide Blocks, Work, IsLongest, Pushed, Indexes, AllInBounds;
    while queue != []
      invariant AllInBounds(a, b, queue)
      invariant multiset(blocks) + Pending(a, b, queue) == all
      decreases Work(queue)
    {
      var r, rest := queue[|queue| - 1], queue[..|queue| - 1];
      var m := LongestMatch(a, b, index, r);
      Expand(a, b, queue, rest, r, m);
      if m.size > 0 {
        blocks := blocks + [m];
        queue := Pushed(rest, r, m);
      } else {
        queue := rest;
      }
    }
  }

  /** One step of the worklist: nothing is lost and the work shrinks. */
  lemma Expand<T>(a: seq<T>, b: seq<T>, queue: seq<Range>, rest: seq<Range>, r: Range, m: Block)
    requires AllInBounds(a, b, queue) && queue != []
    requires r == queue[|queue| - 1] && rest == queue[..|queue| - 1] && IsLongest(a, b, r, m)
    ensures AllInBounds(a, b, rest) && Work(rest) < Work(queue)
    ensures m.size == 0 ==> Pending(a, b, rest) == Pending(a, b, queue)
    ensures m.size > 0 ==>
              && AllInBounds(a, b, Pushed(rest, r, m)) && Work(Pushed(rest, r, m)) < Work(queue)
              && Pending(a, b, Pushed(rest, r, m)) + multiset{m} == Pending(a, b, queue)
  {
    assert queue == rest + [r];
    LongestInside(a, b, r, m);
    hide Blocks, Work, Pending, IsLongest, Pushed;
    PendingPush(a, b, rest, r);
    WorkPush(rest, r);
    if m.size > 0 {
      PushedPending(a, b, rest, r, m);
      PushedWork(rest, r, m);
    } else {
      Popped(a, b, r, m);
    }
  }

  lemma LongestInside<T>(a: seq<T>, b: seq<T>, r: Range, m: Block)
    requires InBounds(a, b, r) && IsLongest(a, b, r, m)
    ensures r.alo <= m.i && m.i + m.size <= r.ahi
  {
  }

  lemma Popped<T>(a: seq<T>, b: seq<T>, r: Range, m: Block)
    requires InBounds(a, b, r) && IsLongest(a, b, r, m)
    ensures InBounds(a, b, Left(r, m)) && InBounds(a, b, Right(r, m))
    ensures multiset(Blocks(a, b, r)) ==
            if m.size > 0
            then multiset(Blocks(a, b, Left(r, m))) + multiset{m} + multiset(Blocks(a, b, Right(r, m)))
            else multiset{}
  {
    LongestExists(a, b, r);
    LongestIsUnique(a, b, r, m, Longest(a, b, r));
  }

  // ----- sorting and merging ----------------------------------------------------------------------

  /** The order of the tuples `(i, j, size)`. */
  predicate Precedes(m: Block, n: Block) {
    m.i < n.i || (m.i == n.i && (m.j < n.j || (m.j == n.j && m.size <= n.size)))
  }

  ghost predicate Sorted(bs: seq<Block>) {
    forall s, t :: 0 <= s < t < |bs| ==> Precedes(bs[s], bs[t])
  }

  lemma InsertedMultiset(bs: seq<Block>, p: nat, m: Block)
    requires p <= |bs|
    ensures multiset(bs[..p] + [m] + bs[p..]) == multiset(bs) + multiset{m}
  {
    assert bs == bs[..p] + bs[p..];
  }

  /** Insertion at the first place where everything after is not smaller. */
  method Insert(m: Block, bs: seq<Block>) returns (r: seq<Block>)
    requires Sorted(bs)
    ensures Sorted(r) && multiset(r) == multiset(bs) + multiset{m}
  {
    var p := 0;
    while p < |bs| && !Precedes(m, bs[p])
      invariant 0 <= p <= |bs| && forall k :: 0 <= k < p ==> Precedes(bs[k], m)
    {
      p := p + 1;
    }
    forall k | p <= k < |bs| ensures Precedes(m, bs[k]) {
      assert k > p ==> Precedes(bs[p], bs[k]);
    }
    InsertedMultiset(bs, p, m);
    r := bs[..p] + [m] + bs[p..];
  }

  method Sort(bs: seq<Block>) returns (r: seq<Block>)
    ensures Sorted(r) && multiset(r) == multiset(bs)
  {
    r := [];
    hide Sorted;
    EmptyIsSorted();
    for n := 0 to |bs|
      invariant Sorted(r) && multiset(r) == multiset(bs[..n])
    {
      assert bs[..n + 1] == bs[..n] + [bs[n]];
      r := Insert(bs[n], r);
    }
    assert bs[..|bs|] == bs;
  }

  lemma EmptyIsSorted()
    ensures Sorted([])
  {
  }

  lemma TailMultiset(s: seq<Block>)
    requires s != []
    ensures multiset(s[1..]) == multiset(s) - multiset{s[0]}
  {
    assert s == [s[0]] + s[1..];
  }

  lemma SortedHead(s: seq<Block>, x: Block)
    requires Sorted(s) && x in multiset(s)
    ensures s != [] && Precedes(s[0], x)
  {
    assert x in s;
  }

  lemma {:induction false} SortedIsUnique(s: seq<Block>, t: seq<Block>)
    requires Sorted(s) && Sorted(t) && multiset(s) == multiset(t)
    ensures s == t
  {
    hide Sorted;
    assert |s| == |multiset(s)| == |multiset(t)| == |t|;
    if s != [] {
      SameHead(s, t);
      TailMultiset(s);
      TailMultiset(t);
      TailSorted(s);
      TailSorted(t);
      SortedIsUnique(s[1..], t[1..]);
      assert s == [s[0]] + s[1..] && t == [t[0]] + t[1..];
    }
  }

  lemma TailSorted(s: seq<Block>)
    requires Sorted(s) && s != []
    ensures Sorted(s[1..])
  {
  }

  lemma SameHead(s: seq<Block>, t: seq<Block>)
    requires Sorted(s) && Sorted(t) && multiset(s) == multiset(t) && s != [] && t != []
    ensures s[0] == t[0]
  {
    hide Sorted;
    assert s[0] in multiset(s) && t[0] in multiset(t);
    SortedHead(s, t[0]);
    SortedHead(t, s[0]);
  }

  lemma ChainedIsSorted<T>(a: seq<T>, b: seq<T>, r: Range, bs: seq<Block>)
    requires InBounds(a, b, r) && Chained(a, b, r, bs)
    ensures Sorted(bs)
  {
    forall s, t | 0 <= s < t < |bs| ensures bs[s].i < bs[t].i {
      Ascending(a, b, r, bs, s, t);
    }
  }

  lemma {:induction false} Ascending<T>(a: seq<T>, b: seq<T>, r: Range, bs: seq<Block>, s: nat, t: nat)
    requires InBounds(a, b, r) && Chained(a, b, r, bs) && s < t < |bs|
    ensures bs[s].i + bs[s].size <= bs[t].i && bs[s].j + bs[s].size <= bs[t].j && bs[s].i < bs[t].i
    decreases t
  {
    assert Linked(a, b, r, bs, s) && Linked(a, b, r, bs, t);
    if s < t - 1 {
      Ascending(a, b, r, bs, s, t - 1);
      assert Linked(a, b, r, bs, t - 1);
    }
  }

  /** No block continues the one before it on both sides. */
  ghost predicate Apart(r: Range, bs: seq<Block>) {
    forall n :: 1 <= n < |bs| ==> EndOf(r, bs, n) != (bs[n].i, bs[n].j)
  }

  ghost predicate AllLinked<T>(a: seq<T>, b: seq<T>, r: Range, bs: seq<Block>)
    requires InBounds(a, b, r)
  {
    forall n :: 0 <= n < |bs| ==> Linked(a, b, r, bs, n)
  }

  /** Block `m` may follow the last of `bs`. */
  ghost predicate Follows<T>(a: seq<T>, b: seq<T>, r: Range, bs: seq<Block>, m: Block)
    requires InBounds(a, b, r)
  {
    var end := EndOf(r, bs, |bs|);
    && m.size > 0 && IsCommon(a, b, r, m) && end.0 <= m.i && end.1 <= m.j
    && NothingShared(a, b, end.0, m.i, end.1, m.j)
  }

  /** A block that does not continue the last one becomes a block of its own. */
  lemma MergePush<T>(a: seq<T>, b: seq<T>, r: Range, bs: seq<Block>, m: Block)
    requires InBounds(a, b, r) && Apart(r, bs) && AllLinked(a, b, r, bs) && Follows(a, b, r, bs, m)
    requires bs != [] ==> EndOf(r, bs, |bs|) != (m.i, m.j)
    ensures Apart(r, bs + [m]) && AllLinked(a, b, r, bs + [m])
  {
    hide IsCommon, NothingShared;
    var merged := bs + [m];
    forall n | 0 <= n < |merged| ensures Linked(a, b, r, merged, n) {
      assert EndOf(r, merged, n) == EndOf(r, bs, n);
      assert n < |bs| ==> Linked(a, b, r, bs, n);
    }
    assert forall n :: 1 <= n < |merged| ==> EndOf(r, merged, n) == EndOf(r, bs, n);
  }

  /** A block that continues the last one on both sides lengthens it. */
  lemma MergeJoin<T>(a: seq<T>, b: seq<T>, r: Range, bs: seq<Block>, m: Block, merged: seq<Block>)
    requires InBounds(a, b, r) && Apart(r, bs) && AllLinked(a, b, r, bs) && Follows(a, b, r, bs, m)
    requires bs != [] && EndOf(r, bs, |bs|) == (m.i, m.j)
    requires var last := bs[|bs| - 1]; merged == bs[|bs| - 1 := last.(size := last.size + m.size)]
    ensures Apart(r, merged) && AllLinked(a, b, r, merged)
    ensures EndOf(r, merged, |merged|) == (m.i + m.size, m.j + m.size)
  {
    var k := |bs| - 1;
    MergedEnds(r, bs, merged, merged[k].size);
    StillApart(r, bs, merged);
    forall n | 0 <= n < |merged| ensures Linked(a, b, r, merged, n) {
      if n < k {
        assert Linked(a, b, r, bs, n);
        StillLinked(a, b, r, bs, merged, n);
      } else {
        JoinedLinked(a, b, r, bs, m, merged);
      }
    }
    hide Linked, Apart;
  }

  /** Only the size of the last block differs. */
  lemma MergedEnds(r: Range, bs: seq<Block>, merged: seq<Block>, size: nat)
    requires bs != [] && merged == bs[|bs| - 1 := bs[|bs| - 1].(size := size)]
    ensures forall n :: 0 <= n < |bs| ==> EndOf(r, merged, n) == EndOf(r, bs, n)
    ensures forall n :: 0 <= n < |bs| ==> merged[n].i == bs[n].i && merged[n].j == bs[n].j
  {
  }

  lemma StillLinked<T>(a: seq<T>, b: seq<T>, r: Range, bs: seq<Block>, merged: seq<Block>, n: nat)
    requires InBounds(a, b, r) && n < |bs| == |merged| && Linked(a, b, r, bs, n)
    requires merged[n] == bs[n] && EndOf(r, merged, n) == EndOf(r, bs, n)
    ensures Linked(a, b, r, merged, n)
  {
    hide IsCommon, NothingShared, EndOf;
  }

  lemma JoinedLinked<T>(a: seq<T>, b: seq<T>, r: Range, bs: seq<Block>, m: Block, merged: seq<Block>)
    requires InBounds(a, b, r) && bs != [] && Linked(a, b, r, bs, |bs| - 1) && IsCommon(a, b, r, m)
    requires |merged| == |bs|
    requires EndOf(r, bs, |bs|) == (m.i, m.j) && EndOf(r, merged, |bs| - 1) == EndOf(r, bs, |bs| - 1)
    requires var last := bs[|bs| - 1]; merged[|bs| - 1] == last.(size := last.size + m.size)
    ensures Linked(a, b, r, merged, |bs| - 1)
  {
    Joined(a, b, r, bs[|bs| - 1], m);
    hide IsCommon, NothingShared;
  }

  lemma StillApart(r: Range, bs: seq<Block>, merged: seq<Block>)
    requires Apart(r, bs) && |merged| == |bs| && forall n :: 0 <= n < |bs| ==> EndOf(r, merged, n) == EndOf(r, bs, n)
    requires forall n :: 0 <= n < |bs| ==> merged[n].i == bs[n].i && merged[n].j == bs[n].j
    ensures Apart(r, merged)
  {
    hide EndOf;
  }

  lemma Joined<T>(a: seq<T>, b: seq<T>, r: Range, l: Block, m: Block)
    requires InBounds(a, b, r) && IsCommon(a, b, r, l) && IsCommon(a, b, r, m)
    requires l.i + l.size == m.i && l.j + l.size == m.j
    ensures IsCommon(a, b, r, l.(size := l.size + m.size))
  {
    assert a[l.i..m.i + m.size] == a[l.i..m.i] + a[m.i..m.i + m.size];
    assert b[l.j..m.j + m.size] == b[l.j..m.j] + b[m.j..m.j + m.size];
  }

  /** Block `m` matches element `x` of the first sequence with element `y` of the second. */
  ghost predicate Matches(m: Block, x: nat, y: nat) {
    m.i <= x < m.i + m.size && y - m.j == x - m.i
  }

  /** Some block does. */
  ghost predicate Paired(bs: seq<Block>, x: nat, y: nat) {
    exists n :: 0 <= n < |bs| && Matches(bs[n], x, y)
  }

  lemma PairedPush(bs: seq<Block>, m: Block, x: nat, y: nat)
    ensures Paired(bs + [m], x, y) <==> Paired(bs, x, y) || Matches(m, x, y)
  {
    var all := bs + [m];
    if n :| 0 <= n < |bs| && Matches(bs[n], x, y) {
      assert all[n] == bs[n];
    }
    assert all[|bs|] == m;
  }

  lemma PairedJoin(bs: seq<Block>, m: Block, merged: seq<Block>, x: nat, y: nat)
    requires bs != [] && var last := bs[|bs| - 1];
             && (last.i + last.size, last.j + last.size) == (m.i, m.j)
             && merged == bs[|bs| - 1 := last.(size := last.size + m.size)]
    ensures Paired(merged, x, y) <==> Paired(bs, x, y) || Matches(m, x, y)
  {
    var rest, last := bs[..|bs| - 1], bs[|bs| - 1];
    var joined := last.(size := last.size + m.size);
    assert bs == rest + [last] && merged == rest + [joined];
    PairedPush(rest, last, x, y);
    PairedPush(rest, joined, x, y);
    hide Paired;
  }

  function Whole<T>(a: seq<T>, b: seq<T>): Range {
    Range(0, |a|, 0, |b|)
  }

  /** The merging loop of `matching_blocks`. */
  method Merge<T>(ghost a: seq<T>, ghost b: seq<T>, ghost r: Range, blocks: seq<Block>) returns (merged: seq<Block>)
    requires InBounds(a, b, r) && Chained(a, b, r, blocks)
    ensures Chained(a, b, r, merged) && Apart(r, merged)
    ensures |blocks| <= 1 ==> merged == blocks
    ensures forall x, y :: Paired(merged, x, y) <==> Paired(blocks, x, y)
  {
    merged := [];
    hide IsCommon, NothingShared, Paired, Matches;
    NonePaired();
    for n := 0 to |blocks|
      invariant Apart(r, merged) && AllLinked(a, b, r, merged)
      invariant EndOf(r, merged, |merged|) == EndOf(r, blocks, n)
      invariant n == 0 ==> merged == []
      invariant n == 1 ==> merged == [blocks[0]]
      invariant forall x, y :: Paired(merged, x, y) <==> Paired(blocks[..n], x, y)
    {
      var m := blocks[n];
      assert blocks[..n + 1] == blocks[..n] + [m];
      forall x, y ensures Paired(blocks[..n + 1], x, y) <==> Paired(merged, x, y) || Matches(m, x, y) {
        PairedPush(blocks[..n], m, x, y);
      }
      assert Linked(a, b, r, blocks, n);
      assert Follows(a, b, r, merged, m);
      if merged != [] && merged[|merged| - 1].i + merged[|merged| - 1].size == m.i
         && merged[|merged| - 1].j + merged[|merged| - 1].size == m.j {
        var last := merged[|merged| - 1];
        var joined := merged[|merged| - 1 := last.(size := last.size + m.size)];
        MergeJoin(a, b, r, merged, m, joined);
        forall x, y ensures Paired(joined, x, y) <==> Paired(merged, x, y) || Matches(m, x, y) {
          PairedJoin(merged, m, joined, x, y);
        }
        merged := joined;
      } else {
        MergePush(a, b, r, merged, m);
        forall x, y ensures Paired(merged + [m], x, y) <==> Paired(merged, x, y) || Matches(m, x, y) {
          PairedPush(merged, m, x, y);
        }
        merged := merged + [m];
      }
    }
    assert blocks[..|blocks|] == blocks;
  }

  lemma NonePaired()
    ensures forall x, y :: !Paired([], x, y)
  {
  }

  /** `matching_blocks`: the common blocks in order, merged where one continues the other, then the empty end block. */
  method MatchingBlocks<T(==)>(a: seq<T>, b: seq<T>) returns (result: seq<Block>)
    ensures result != [] && result[|result| - 1] == Block(|a|, |b|, 0)
    ensures Chained(a, b, Whole(a, b), result[..|result| - 1]) && Apart(Whole(a, b), result[..|result| - 1])
    ensures a == b ==> result == (if a == [] then [] else [Block(0, 0, |a|)]) + [Block(|a|, |b|, 0)]
    ensures forall x, y :: Paired(result, x, y) <==> Paired(Blocks(a, b, Whole(a, b)), x, y)
  {
    var blocks := CollectBlocks(a, b);
    blocks := Sort(blocks);
    ghost var r := Whole(a, b);
    BlocksAreChained(a, b, r);
    ChainedIsSorted(a, b, r, Blocks(a, b, r));
    SortedIsUnique(blocks, Blocks(a, b, r));
    SameIsOneBlock(a, b);
    hide Blocks, Sorted, Longest, Chained, Apart, Paired;
    var merged := Merge(a, b, r, blocks);
    result := merged + [Block(|a|, |b|, 0)];
    forall x, y ensures Paired(result, x, y) <==> Paired(merged, x, y) {
      PairedPush(merged, Block(|a|, |b|, 0), x, y);
    }
    assert result[..|result| - 1] == merged;
  }

  /** Equal sequences are one block. */
  lemma SameIsOneBlock<T>(a: seq<T>, b: seq<T>)
    ensures a == b ==> Blocks(a, b, Whole(a, b)) == if a == [] then [] else [Block(0, 0, |a|)]
  {
    if a == b && a == [] {
      NoBlocks(a, b, Whole(a, b));
    } else if a == b {
      var r, m := Whole(a, b), Block(0, 0, |a|);
      assert IsCommon(a, b, r, m);
      LongestExists(a, b, r);
      assert Beats(Longest(a, b, r), m);
      assert Longest(a, b, r) == m;
      NoBlocks(a, b, Left(r, m));
      NoBlocks(a, b, Right(r, m));
    }
  }

  // ----- changed lines -----------------------------------------------------------------------------

  /** One line of a way to turn the old lines into the new ones. */
  datatype Edit = Keep(line: string) | Delete(line: string) | Add(line: string)

  /** What a script shows: the lines before it, the lines after it, or the signed changes. */
  datatype View = Old | New | Changes

  ghost function Show(view: View, e: Edit): seq<string> {
    match e
    case Keep(line) => if view.Changes? then [] else [line]
    case Delete(line) => if view.Old? then [line] else if view.New? then [] else ["-" + line]
    case Add(line) => if view.Old? then [] else if view.New? then [line] else ["+" + line]
  }

  ghost function Shown(view: View, script: seq<Edit>): seq<string> {
    if script == [] then [] else Show(view, script[0]) + Shown(view, script[1..])
  }

  lemma ShownCons(view: View, e: Edit, script: seq<Edit>)
    ensures Shown(view, [e] + script) == Show(view, e) + Shown(view, script)
  {
    assert ([e] + script)[1..] == script;
  }

  lemma {:induction false} ShownConcat(view: View, s: seq<Edit>, t: seq<Edit>)
    ensures Shown(view, s + t) == Shown(view, s) + Shown(view, t)
  {
    hide Show;
    if s == [] {
      assert s + t == t;
    } else {
      ShownConcat(view, s[1..], t);
      assert (s + t)[0] == s[0] && (s + t)[1..] == s[1..] + t;
      Associates(Show(view, s[0]), Shown(view, s[1..]), Shown(view, t));
    }
  }

  lemma Associates(a: seq<string>, b: seq<string>, c: seq<string>)
    ensures a + (b + c) == a + b + c
  {
  }

  function Signed(sign: char, lines: seq<string>): seq<string> {
    seq(|lines|, n requires 0 <= n < |lines| => [sign] + lines[n])
  }

  lemma SignedCons(sign: char, lines: seq<string>)
    requires lines != []
    ensures Signed(sign, lines) == [[sign] + lines[0]] + Signed(sign, lines[1..])
  {
  }

  ghost function Kept(lines: seq<string>): seq<Edit> {
    seq(|lines|, n requires 0 <= n < |lines| => Keep(lines[n]))
  }

  ghost function Deleted(lines: seq<string>): seq<Edit> {
    seq(|lines|, n requires 0 <= n < |lines| => Delete(lines[n]))
  }

  ghost function Added(lines: seq<string>): seq<Edit> {
    seq(|lines|, n requires 0 <= n < |lines| => Add(lines[n]))
  }

  lemma {:induction false} KeptLines(view: View, lines: seq<string>)
    ensures Shown(view, Kept(lines)) == if view.Changes? then [] else lines
  {
    if lines != [] {
      KeptLines(view, lines[1..]);
      assert Kept(lines)[1..] == Kept(lines[1..]);
    }
  }

  lemma {:induction false} DeletedLines(view: View, lines: seq<string>)
    ensures Shown(view, Deleted(lines)) == match view case Old => lines case New => [] case Changes => Signed('-', lines)
  {
    if lines != [] {
      assert Deleted(lines) == [Delete(lines[0])] + Deleted(lines[1..]);
      SignedCons('-', lines);
      hide Shown, Deleted, Signed;
      DeletedLines(view, lines[1..]);
      ShownCons(view, Delete(lines[0]), Deleted(lines[1..]));
    }
  }

  lemma {:induction false} AddedLines(view: View, lines: seq<string>)
    ensures Shown(view, Added(lines)) == match view case Old => [] case New => lines case Changes => Signed('+', lines)
  {
    if lines != [] {
      assert Added(lines) == [Add(lines[0])] + Added(lines[1..]);
      SignedCons('+', lines);
      hide Shown, Added, Signed;
      AddedLines(view, lines[1..]);
      ShownCons(view, Add(lines[0]), Added(lines[1..]));
    }
  }

  lemma {:induction false} SilentScript(script: seq<Edit>)
    requires Shown(Changes, script) == []
    ensures Shown(Old, script) == Shown(New, script)
  {
    if script != [] {
      SilentScript(script[1..]);
    }
  }

  /** One run of changes, then the lines kept after it. */
  ghost function Hunk(gone: seq<string>, come: seq<string>, stay: seq<string>): seq<Edit> {
    Deleted(gone) + Added(come) + Kept(stay)
  }

  lemma HunkShown(view: View, script: seq<Edit>, gone: seq<string>, come: seq<string>, stay: seq<string>)
    ensures Shown(view, script + Hunk(gone, come, stay)) == Shown(view, script) +
              match view
              case Old => gone + stay
              case New => come + stay
              case Changes => Signed('-', gone) + Signed('+', come)
  {
    ShownConcat(view, script, Hunk(gone, come, stay));
    hide Shown, Kept, Deleted, Added, Signed;
    ShownConcat(view, Deleted(gone) + Added(come), Kept(stay));
    ShownConcat(view, Deleted(gone), Added(come));
    DeletedLines(view, gone);
    AddedLines(view, come);
    KeptLines(view, stay);
  }

  /** The script so far turns the lines before `i` into those before `j` and prints `out`. */
  ghost predicate Turns(a: seq<string>, i: nat, b: seq<string>, j: nat, script: seq<Edit>, out: seq<string>) {
    && i <= |a| && j <= |b|
    && Shown(Old, script) == a[..i] && Shown(New, script) == b[..j] && Shown(Changes, script) == out
  }

  lemma HunkTurns(a: seq<string>, i: nat, b: seq<string>, j: nat, m: Block, script: seq<Edit>, out: seq<string>)
    requires Turns(a, i, b, j, script, out)
    requires i <= m.i && m.i + m.size <= |a| && j <= m.j && m.j + m.size <= |b|
    requires a[m.i..m.i + m.size] == b[m.j..m.j + m.size]
    ensures Turns(a, m.i + m.size, b, m.j + m.size,
                  script + Hunk(a[i..m.i], b[j..m.j], a[m.i..m.i + m.size]),
                  out + Signed('-', a[i..m.i]) + Signed('+', b[j..m.j]))
  {
    hide Shown, Hunk, Signed;
    var gone, come, stay := a[i..m.i], b[j..m.j], a[m.i..m.i + m.size];
    HunkShown(Old, script, gone, come, stay);
    HunkShown(New, script, gone, come, stay);
    HunkShown(Changes, script, gone, come, stay);
    assert a[..m.i + m.size] == a[..i] + (gone + stay);
    assert b[..m.j + m.size] == b[..j] + (come + stay);
    assert out + (Signed('-', gone) + Signed('+', come)) == out + Signed('-', gone) + Signed('+', come);
  }

  // ----- which lines are kept, and in what order the others come -------------------------------------

  /** Edit `k` keeps line `x` of the old text as line `y` of the new one. */
  ghost predicate KeepsAs(script: seq<Edit>, k: nat, x: nat, y: nat)
    requires k < |script|
  {
    script[k].Keep? && |Shown(Old, script[..k])| == x && |Shown(New, script[..k])| == y
  }

  ghost predicate Keeps(script: seq<Edit>, x: nat, y: nat) {
    exists k :: 0 <= k < |script| && KeepsAs(script, k, x, y)
  }

  lemma KeepsIn(script: seq<Edit>, more: seq<Edit>, k: nat, x: nat, y: nat)
    requires k < |more|
    ensures KeepsAs(script + more, |script| + k, x, y) <==>
            && x >= |Shown(Old, script)| && y >= |Shown(New, script)|
            && KeepsAs(more, k, x - |Shown(Old, script)|, y - |Shown(New, script)|)
  {
    assert (script + more)[..|script| + k] == script + more[..k];
    ShownConcat(Old, script, more[..k]);
    ShownConcat(New, script, more[..k]);
    hide Shown;
  }

  lemma KeepsAppend(script: seq<Edit>, more: seq<Edit>, x: nat, y: nat)
    ensures Keeps(script + more, x, y) <==>
            || Keeps(script, x, y)
            || (x >= |Shown(Old, script)| && y >= |Shown(New, script)|
                && Keeps(more, x - |Shown(Old, script)|, y - |Shown(New, script)|))
  {
    hide Shown, Show;
    var all, i, j := script + more, |Shown(Old, script)|, |Shown(New, script)|;
    forall k | 0 <= k < |script| ensures KeepsAs(all, k, x, y) <==> KeepsAs(script, k, x, y) {
      assert all[..k] == script[..k];
    }
    hide KeepsAs;
    if k :| 0 <= k < |all| && KeepsAs(all, k, x, y) {
      if k >= |script| {
        KeepsIn(script, more, k - |script|, x, y);
      }
    }
    if x >= i && y >= j && Keeps(more, x - i, y - j) {
      var k :| 0 <= k < |more| && KeepsAs(more, k, x - i, y - j);
      KeepsIn(script, more, k, x, y);
      assert KeepsAs(all, |script| + k, x, y);
    }
    if k :| 0 <= k < |script| && KeepsAs(script, k, x, y) {
      assert KeepsAs(all, k, x, y);
    }
  }

  lemma HunkKeepsAs(gone: seq<string>, come: seq<string>, stay: seq<string>, t: nat, x: nat, y: nat)
    requires t < |stay|
    ensures KeepsAs(Hunk(gone, come, stay), |gone| + |come| + t, x, y) <==> x == |gone| + t && y == |come| + t
  {
    var h, k := Hunk(gone, come, stay), |gone| + |come| + t;
    assert h[..k] == [] + Hunk(gone, come, stay[..t]);
    HunkShown(Old, [], gone, come, stay[..t]);
    HunkShown(New, [], gone, come, stay[..t]);
  }

  lemma HunkKeeps(gone: seq<string>, come: seq<string>, stay: seq<string>, x: nat, y: nat)
    ensures Keeps(Hunk(gone, come, stay), x, y) <==> |gone| <= x < |gone| + |stay| && y - |come| == x - |gone|
  {
    hide KeepsAs;
    var h := Hunk(gone, come, stay);
    if k :| 0 <= k < |h| && KeepsAs(h, k, x, y) {
      OnlyKept(gone, come, stay, k, x, y);
      HunkKeepsAs(gone, come, stay, k - |gone| - |come|, x, y);
    }
    if |gone| <= x < |gone| + |stay| && y - |come| == x - |gone| {
      HunkKeepsAs(gone, come, stay, x - |gone|, x, y);
    }
  }

  lemma OnlyKept(gone: seq<string>, come: seq<string>, stay: seq<string>, k: nat, x: nat, y: nat)
    requires k < |Hunk(gone, come, stay)| && KeepsAs(Hunk(gone, come, stay), k, x, y)
    ensures |gone| + |come| <= k
  {
  }

  /** A hunk keeps exactly what its block matches. */
  lemma HunkPairs(a: seq<string>, i: nat, b: seq<string>, j: nat, m: Block, script: seq<Edit>, out: seq<string>, x: nat, y: nat)
    requires Turns(a, i, b, j, script, out)
    requires i <= m.i && m.i + m.size <= |a| && j <= m.j && m.j + m.size <= |b|
    ensures Keeps(script + Hunk(a[i..m.i], b[j..m.j], a[m.i..m.i + m.size]), x, y) <==> Keeps(script, x, y) || Matches(m, x, y)
  {
    hide Keeps, Hunk;
    KeepsAppend(script, Hunk(a[i..m.i], b[j..m.j], a[m.i..m.i + m.size]), x, y);
    if x >= i && y >= j {
      HunkKeeps(a[i..m.i], b[j..m.j], a[m.i..m.i + m.size], x - i, y - j);
    }
  }

  ghost predicate OneRun(script: seq<Edit>, p: nat, q: nat)
    requires p <= q < |script|
  {
    forall k :: p <= k <= q ==> !script[k].Keep?
  }

  /** In a run of changes deletions come first. */
  ghost predicate DeletesFirst(script: seq<Edit>) {
    forall p, q :: 0 <= p < q < |script| && OneRun(script, p, q) ==> !(script[p].Add? && script[q].Delete?)
  }

  /** In a run of changes no line is deleted and added. */
  ghost predicate NoneBack(script: seq<Edit>) {
    forall p, q :: 0 <= p < q < |script| && OneRun(script, p, q) ==>
                     script[p].Delete? && script[q].Add? ==> script[p].line != script[q].line
  }

  ghost predicate Ended(script: seq<Edit>) {
    script == [] || script[|script| - 1].Keep?
  }

  lemma RunsAppend(script: seq<Edit>, more: seq<Edit>)
    requires Ended(script) && DeletesFirst(script) && NoneBack(script) && DeletesFirst(more) && NoneBack(more)
    ensures DeletesFirst(script + more) && NoneBack(script + more)
    ensures Ended(more) ==> Ended(script + more)
  {
    var all := script + more;
    forall p, q | 0 <= p < |script| <= q < |all| ensures !OneRun(all, p, q) {
      assert all[|script| - 1] == script[|script| - 1];
    }
    forall p, q | 0 <= p < q < |all| && OneRun(all, p, q)
      ensures !(all[p].Add? && all[q].Delete?) && (all[p].Delete? && all[q].Add? ==> all[p].line != all[q].line)
    {
      if q < |script| {
        RunPrefix(script, more, p, q);
      } else if p >= |script| {
        RunShift(script, more, p - |script|, q - |script|);
      }
    }
  }

  lemma RunPrefix(script: seq<Edit>, more: seq<Edit>, p: nat, q: nat)
    requires p <= q < |script| && OneRun(script + more, p, q)
    ensures OneRun(script, p, q)
  {
    forall k | p <= k <= q ensures !script[k].Keep? {
      assert (script + more)[k] == script[k];
    }
  }

  lemma RunShift(script: seq<Edit>, more: seq<Edit>, p: nat, q: nat)
    requires p <= q < |more| && OneRun(script + more, |script| + p, |script| + q)
    ensures OneRun(more, p, q)
  {
    forall k | p <= k <= q ensures !more[k].Keep? {
      assert (script + more)[|script| + k] == more[k];
    }
  }

  lemma HunkRuns(gone: seq<string>, come: seq<string>, stay: seq<string>)
    requires forall x, y :: 0 <= x < |gone| && 0 <= y < |come| ==> gone[x] != come[y]
    ensures DeletesFirst(Hunk(gone, come, stay)) && NoneBack(Hunk(gone, come, stay))
    ensures stay != [] ==> Ended(Hunk(gone, come, stay))
  {
    hide OneRun;
    var h := Hunk(gone, come, stay);
    forall p | 0 <= p < |h|
      ensures h[p].Delete? <==> p < |gone|
      ensures h[p].Add? <==> |gone| <= p < |gone| + |come|
      ensures h[p].line == if p < |gone| then gone[p] else if p < |gone| + |come| then come[p - |gone|] else stay[p - |gone| - |come|]
    {
    }
  }

  /** The script so far keeps what `bs` match, and its runs are in order. */
  ghost predicate Realises(bs: seq<Block>, script: seq<Edit>) {
    (forall x, y :: Keeps(script, x, y) <==> Paired(bs, x, y)) && DeletesFirst(script) && NoneBack(script)
  }

  lemma HunkFollows(a: seq<string>, i: nat, b: seq<string>, j: nat, m: Block, bs: seq<Block>, script: seq<Edit>, out: seq<string>)
    requires Turns(a, i, b, j, script, out) && Realises(bs, script) && Ended(script)
    requires i <= m.i && m.i + m.size <= |a| && j <= m.j && m.j + m.size <= |b| && NothingShared(a, b, i, m.i, j, m.j)
    ensures var longer := script + Hunk(a[i..m.i], b[j..m.j], a[m.i..m.i + m.size]);
            Realises(bs + [m], longer) && (m.size > 0 ==> Ended(longer))
  {
    hide Keeps, Paired, Matches, Hunk, DeletesFirst, NoneBack, Turns;
    var gone, come, stay := a[i..m.i], b[j..m.j], a[m.i..m.i + m.size];
    var longer := script + Hunk(gone, come, stay);
    forall x, y ensures Keeps(longer, x, y) <==> Paired(bs + [m], x, y) {
      HunkPairs(a, i, b, j, m, script, out, x, y);
      PairedPush(bs, m, x, y);
    }
    HunkRuns(gone, come, stay);
    RunsAppend(script, Hunk(gone, come, stay));
  }

  /** The lines gone and come before a block. */
  method ShowHunk(a: seq<string>, i: nat, b: seq<string>, j: nat, m: Block, out: seq<string>,
                  ghost bs: seq<Block>, ghost script: seq<Edit>)
    returns (more: seq<string>, ghost longer: seq<Edit>)
    requires Turns(a, i, b, j, script, out) && Realises(bs, script) && Ended(script)
    requires i <= m.i && m.i + m.size <= |a| && j <= m.j && m.j + m.size <= |b| && NothingShared(a, b, i, m.i, j, m.j)
    requires a[m.i..m.i + m.size] == b[m.j..m.j + m.size]
    ensures Turns(a, m.i + m.size, b, m.j + m.size, longer, more)
    ensures Realises(bs + [m], longer) && (m.size > 0 ==> Ended(longer))
    ensures i == m.i && j == m.j ==> more == out
  {
    hide Turns, Hunk, Signed, Realises, Ended, NothingShared;
    HunkTurns(a, i, b, j, m, script, out);
    HunkFollows(a, i, b, j, m, bs, script, out);
    NoGaps(a, i, b, j, m);
    longer := script + Hunk(a[i..m.i], b[j..m.j], a[m.i..m.i + m.size]);
    more := out + Signed('-', a[i..m.i]);
    more := more + Signed('+', b[j..m.j]);
  }

  /** The hunks of blocks that line up the texts. */
  method ShowHunks(a: seq<string>, b: seq<string>, blocks: seq<Block>) returns (out: seq<string>, ghost script: seq<Edit>)
    requires LinesUp(a, b, blocks)
    ensures Shown(Old, script) == a && Shown(New, script) == b && Shown(Changes, script) == out
    ensures forall x, y :: Keeps(script, x, y) <==> Paired(blocks, x, y)
    ensures DeletesFirst(script) && NoneBack(script)
    ensures out == [] <==> a == b
  {
    out, script := [], [];
    var i, j := 0, 0;
    NoHunks(a, b, blocks);
    hide Underway, Shown, Paired, Keeps, DeletesFirst, NoneBack;
    for n := 0 to |blocks|
      invariant Underway(a, b, blocks, n, i, j, out, script)
    {
      i, j, out, script := ShowNext(a, b, blocks, n, i, j, out, script);
    }
    AllShown(a, b, blocks, i, j, out, script);
  }

  /** The first `n` hunks are shown. */
  ghost predicate Underway(a: seq<string>, b: seq<string>, blocks: seq<Block>, n: nat, i: nat, j: nat,
                           out: seq<string>, script: seq<Edit>)
  {
    && LinesUp(a, b, blocks) && n <= |blocks| && (i, j) == Reached(a, b, blocks, n) && Turns(a, i, b, j, script, out)
    && Realises(blocks[..n], script) && (n < |blocks| ==> Ended(script)) && (a == b ==> out == [])
  }

  method ShowNext(a: seq<string>, b: seq<string>, blocks: seq<Block>, n: nat, i: nat, j: nat,
                  out: seq<string>, ghost script: seq<Edit>)
    returns (i': nat, j': nat, more: seq<string>, ghost longer: seq<Edit>)
    requires n < |blocks| && Underway(a, b, blocks, n, i, j, out, script)
    ensures Underway(a, b, blocks, n + 1, i', j', more, longer)
  {
    hide Turns, LinesUp, Reached, Realises, Ended, NothingShared;
    var m := blocks[n];
    HunkFits(a, b, blocks, n);
    more, longer := ShowHunk(a, i, b, j, m, out, blocks[..n], script);
    assert blocks[..n + 1] == blocks[..n] + [m];
    i', j' := m.i + m.size, m.j + m.size;
  }

  lemma AllShown(a: seq<string>, b: seq<string>, blocks: seq<Block>, i: nat, j: nat, out: seq<string>, script: seq<Edit>)
    requires Underway(a, b, blocks, |blocks|, i, j, out, script)
    ensures Shown(Old, script) == a && Shown(New, script) == b && Shown(Changes, script) == out
    ensures forall x, y :: Keeps(script, x, y) <==> Paired(blocks, x, y)
    ensures DeletesFirst(script) && NoneBack(script)
    ensures out == [] <==> a == b
  {
    hide Turns, LinesUp, Reached, Shown, Realises, Paired, Keeps, DeletesFirst, NoneBack;
    assert blocks[..|blocks|] == blocks;
    RealisesMeaning(blocks, script);
    ReachedEnd(a, b, blocks);
    FullyTurned(a, b, script, out);
  }

  lemma NoHunks(a: seq<string>, b: seq<string>, blocks: seq<Block>)
    requires LinesUp(a, b, blocks)
    ensures Underway(a, b, blocks, 0, 0, 0, [], [])
  {
    assert blocks != [];
    hide LinesUp;
  }

  lemma ReachedEnd<T>(a: seq<T>, b: seq<T>, blocks: seq<Block>)
    ensures Reached(a, b, blocks, |blocks|) == (|a|, |b|)
  {
  }

  /** `changed_lines`: the signed lines of a script that turns `a` into `b`; none exactly when they are equal. The script
      keeps exactly the lines that the longest-match division pairs; in every run of changes deletions come first, and
      no line is both deleted and added. `ScriptIsUnique` says there is only one such script. */
  method ChangedLines(a: seq<string>, b: seq<string>) returns (out: seq<string>, ghost script: seq<Edit>)
    ensures Shown(Old, script) == a && Shown(New, script) == b && Shown(Changes, script) == out
    ensures forall x, y :: Keeps(script, x, y) <==> Paired(Blocks(a, b, Whole(a, b)), x, y)
    ensures DeletesFirst(script) && NoneBack(script)
    ensures out == [] <==> a == b
  {
    var blocks := MatchingBlocks(a, b);
    hide Blocks, Paired, Keeps, Shown, DeletesFirst, NoneBack, Chained, Apart;
    out, script := ShowHunks(a, b, blocks);
  }

  lemma RealisesMeaning(bs: seq<Block>, script: seq<Edit>)
    requires Realises(bs, script)
    ensures forall x, y :: Keeps(script, x, y) <==> Paired(bs, x, y)
    ensures DeletesFirst(script) && NoneBack(script)
  {
    hide Keeps, Paired, DeletesFirst, NoneBack;
  }

  /** Every edit shows in the old text or in the new one. */
  lemma {:induction false} ShownProgress(script: seq<Edit>, k: nat)
    requires k <= |script|
    ensures k > 0 ==> |Shown(Old, script[..k])| > 0 || |Shown(New, script[..k])| > 0
    ensures k > 0 && !script[0].Add? ==> |Shown(Old, script[..k])| > 0
  {
    if k > 0 {
      assert script[..k] == [script[0]] + script[1..k];
      ShownCons(Old, script[0], script[1..k]);
      ShownCons(New, script[0], script[1..k]);
    }
  }

  lemma ShowsNothing(script: seq<Edit>)
    ensures Shown(Old, script) == Shown(New, script) == [] <==> script == []
  {
    ShownProgress(script, |script|);
    assert script[..|script|] == script;
  }

  /** What a script keeps first: nothing but its first edit can keep the first lines, and an old line that is deleted is
      not kept. */
  lemma FirstKept(script: seq<Edit>)
    requires script != []
    ensures Keeps(script, 0, 0) <==> script[0].Keep?
    ensures script[0].Delete? ==> forall y :: !Keeps(script, 0, y)
  {
    assert script[..0] == [];
    if script[0].Keep? {
      assert KeepsAs(script, 0, 0, 0);
    }
    forall k, y | 0 < k < |script| ensures !KeepsAs(script, k, 0, 0) && (script[0].Delete? ==> !KeepsAs(script, k, 0, y)) {
      ShownProgress(script, k);
    }
  }

  lemma OneEdit(e: Edit, x: nat, y: nat)
    ensures |Shown(Old, [e])| == (if e.Add? then 0 else 1) && |Shown(New, [e])| == (if e.Delete? then 0 else 1)
    ensures Keeps([e], x, y) <==> e.Keep? && x == y == 0
  {
    assert [e][..0] == [];
    assert KeepsAs([e], 0, x, y) <==> e.Keep? && x == y == 0;
    ShownCons(Old, e, []);
    ShownCons(New, e, []);
    assert [e] + [] == [e];
  }

  /** What is kept beyond the first edit. */
  lemma KeepsTail(script: seq<Edit>, x: nat, y: nat)
    requires script != []
    ensures var e := script[0];
            var i, j := if e.Add? then 0 else 1, if e.Delete? then 0 else 1;
            Keeps(script[1..], x, y) <==> Keeps(script, x + i, y + j) && !(e.Keep? && x + i == 0 && y + j == 0)
  {
    var e, rest := script[0], script[1..];
    assert script == [e] + rest;
    KeepsAppend([e], rest, x + (if e.Add? then 0 else 1), y + (if e.Delete? then 0 else 1));
    OneEdit(e, x + (if e.Add? then 0 else 1), y + (if e.Delete? then 0 else 1));
    hide Keeps, Shown, Show;
  }

  /** A script that adds first and reaches an old line keeps one before it deletes any. */
  lemma {:induction false} AddedFirst(script: seq<Edit>)
    requires script != [] && script[0].Add? && DeletesFirst(script) && Shown(Old, script) != []
    ensures exists y :: Keeps(script, 0, y)
  {
    var rest := script[1..];
    assert script == [script[0]] + rest;
    ShownCons(Old, script[0], rest);
    TailRuns(script);
    assert rest != [];
    if rest[0].Add? {
      AddedFirst(rest);
      var y: nat :| Keeps(rest, 0, y);
      KeepsTail(script, 0, y);
      assert Keeps(script, 0, y + 1);
    } else if rest[0].Keep? {
      FirstKept(rest);
      KeepsTail(script, 0, 0);
      assert Keeps(script, 0, 1);
    } else {
      assert OneRun(script, 0, 1);
    }
  }

  lemma TailRuns(script: seq<Edit>)
    requires script != [] && DeletesFirst(script)
    ensures DeletesFirst(script[1..])
  {
    var rest := script[1..];
    forall p, q | 0 <= p < q < |rest| && OneRun(rest, p, q) ensures !(rest[p].Add? && rest[q].Delete?) {
      forall k | p + 1 <= k <= q + 1 ensures !script[k].Keep? {
        assert script[k] == rest[k - 1];
      }
      assert OneRun(script, p + 1, q + 1);
    }
  }

  /** Two scripts between the same texts that keep the same lines and delete first are the same. */
  lemma {:induction false} ScriptIsUnique(s: seq<Edit>, t: seq<Edit>)
    requires Shown(Old, s) == Shown(Old, t) && Shown(New, s) == Shown(New, t)
    requires SameKeeps(s, t)
    requires DeletesFirst(s) && DeletesFirst(t)
    ensures s == t
  {
    if s == [] || t == [] {
      hide SameKeeps, DeletesFirst, Shown;
      ShowsNothing(s);
      ShowsNothing(t);
    } else {
      hide SameKeeps, DeletesFirst, Shown;
      SameFirst(s, t);
      SameLine(s, t);
      TailRuns(s);
      TailRuns(t);
      SameTails(s, t);
      assert s == [s[0]] + s[1..] && t == [t[0]] + t[1..];
      ScriptIsUnique(s[1..], t[1..]);
    }
  }

  ghost predicate SameKeeps(s: seq<Edit>, t: seq<Edit>) {
    forall x, y :: Keeps(s, x, y) <==> Keeps(t, x, y)
  }

  lemma SameTails(s: seq<Edit>, t: seq<Edit>)
    requires s != [] && t != [] && s[0] == t[0] && SameKeeps(s, t)
    ensures SameKeeps(s[1..], t[1..])
  {
    hide Keeps;
    forall x, y ensures Keeps(s[1..], x, y) <==> Keeps(t[1..], x, y) {
      KeepsTail(s, x, y);
      KeepsTail(t, x, y);
    }
  }

  /** The first edits are of one kind. */
  lemma SameFirst(s: seq<Edit>, t: seq<Edit>)
    requires s != [] && t != [] && Shown(Old, s) == Shown(Old, t)
    requires SameKeeps(s, t)
    requires DeletesFirst(s) && DeletesFirst(t)
    ensures s[0].Keep? <==> t[0].Keep?
    ensures s[0].Delete? <==> t[0].Delete?
  {
    hide Keeps, DeletesFirst;
    FirstKept(s);
    FirstKept(t);
    assert s == [s[0]] + s[1..] && t == [t[0]] + t[1..];
    ShownCons(Old, s[0], s[1..]);
    ShownCons(Old, t[0], t[1..]);
    if s[0].Delete? && t[0].Add? {
      AddedFirst(t);
    }
    if t[0].Delete? && s[0].Add? {
      AddedFirst(s);
    }
  }

  lemma SameLine(s: seq<Edit>, t: seq<Edit>)
    requires s != [] && t != [] && (s[0].Keep? <==> t[0].Keep?) && (s[0].Delete? <==> t[0].Delete?)
    requires Shown(Old, s) == Shown(Old, t) && Shown(New, s) == Shown(New, t)
    ensures s[0] == t[0] && Shown(Old, s[1..]) == Shown(Old, t[1..]) && Shown(New, s[1..]) == Shown(New, t[1..])
  {
    assert s == [s[0]] + s[1..] && t == [t[0]] + t[1..];
    ShownCons(Old, s[0], s[1..]);
    ShownCons(New, s[0], s[1..]);
    ShownCons(Old, t[0], t[1..]);
    ShownCons(New, t[0], t[1..]);
    hide Shown;
    if !s[0].Add? {
      Cancel(s[0].line, Shown(Old, s[1..]), t[0].line, Shown(Old, t[1..]));
    }
    if !s[0].Delete? {
      Cancel(s[0].line, Shown(New, s[1..]), t[0].line, Shown(New, t[1..]));
    }
    assert forall rest: seq<string> :: [] + rest == rest;
  }

  lemma Cancel(x: string, xs: seq<string>, y: string, ys: seq<string>)
    ensures [x] + xs == [y] + ys ==> x == y && xs == ys
  {
    if [x] + xs == [y] + ys {
      assert ([x] + xs)[0] == ([y] + ys)[0] && ([x] + xs)[1..] == xs && ([y] + ys)[1..] == ys;
    }
  }

  lemma NoGaps(a: seq<string>, i: nat, b: seq<string>, j: nat, m: Block)
    requires i <= m.i <= |a| && j <= m.j <= |b|
    ensures i == m.i ==> Signed('-', a[i..m.i]) == []
    ensures j == m.j ==> Signed('+', b[j..m.j]) == []
  {
  }

  /** What `MatchingBlocks` promises: blocks that line up the sequences, and the sentinel. */
  ghost predicate LinesUp<T>(a: seq<T>, b: seq<T>, blocks: seq<Block>) {
    && blocks != [] && blocks[|blocks| - 1] == Block(|a|, |b|, 0)
    && Chained(a, b, Whole(a, b), blocks[..|blocks| - 1])
    && (a == b ==> blocks == (if a == [] then [] else [Block(0, 0, |a|)]) + [Block(|a|, |b|, 0)])
  }

  /** How far the first `n` blocks reach. */
  ghost function Reached<T>(a: seq<T>, b: seq<T>, blocks: seq<Block>, n: nat): (nat, nat)
    requires n <= |blocks|
  {
    if n == |blocks| then (|a|, |b|) else EndOf(Whole(a, b), blocks[..|blocks| - 1], n)
  }

  lemma HunkFits<T>(a: seq<T>, b: seq<T>, blocks: seq<Block>, n: nat)
    requires n < |blocks| && LinesUp(a, b, blocks)
    ensures var at, m := Reached(a, b, blocks, n), blocks[n];
            && at.0 <= m.i && m.i + m.size <= |a| && at.1 <= m.j && m.j + m.size <= |b|
            && a[m.i..m.i + m.size] == b[m.j..m.j + m.size]
            && Reached(a, b, blocks, n + 1) == (m.i + m.size, m.j + m.size)
            && (a == b ==> at == (m.i, m.j))
            && NothingShared(a, b, at.0, m.i, at.1, m.j) && (n + 1 < |blocks| ==> m.size > 0)
  {
    var r, bs := Whole(a, b), blocks[..|blocks| - 1];
    if n < |bs| {
      assert Linked(a, b, r, bs, n);
    } else {
      LastEnd(a, b, r, bs);
    }
  }

  lemma FullyTurned(a: seq<string>, b: seq<string>, script: seq<Edit>, out: seq<string>)
    requires Turns(a, |a|, b, |b|, script, out)
    ensures Shown(Old, script) == a && Shown(New, script) == b && Shown(Changes, script) == out
    ensures out == [] ==> a == b
  {
    assert a[..|a|] == a && b[..|b|] == b;
    if out == [] {
      SilentScript(script);
    }
  }

  lemma LastEnd<T>(a: seq<T>, b: seq<T>, r: Range, bs: seq<Block>)
    requires InBounds(a, b, r) && Chained(a, b, r, bs)
    ensures EndOf(r, bs, |bs|).0 <= r.ahi && EndOf(r, bs, |bs|).1 <= r.bhi
  {
    assert bs != [] ==> Linked(a, b, r, bs, |bs| - 1);
  }
}
