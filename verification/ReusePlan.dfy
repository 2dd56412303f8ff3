/** The activation-memory planner of vllm/v1/worker/graph_builder.py: last-use analysis and
    the first-fit reuse plan that places every tensor of a block graph in one flat buffer.
    A tensor is named by its position in the execution order (names are unique there). */
module ReusePlan {
  import opened Arith
  import opened Wrappers

  /** A node of the graph: the tensors it reads, the size in bytes of the tensor it writes,
      the tensor whose memory it must take over (if any), and whether its operation works
      element by element, so that it may legally write over one of its own inputs. */
  datatype Node = Node(inputs: seq<nat>, size: nat, alias: Option<nat>, elementwise: bool)

  type Graph = seq<Node>

  /** Tensor `j` is read by some node at or after time `k`. */
  predicate LiveAt(g: Graph, j: nat, k: nat) {
    exists m :: k <= m < |g| && j in g[m].inputs
  }

  /** The last reader of every tensor, or -1; one pass over the graph. */
  method LastUses(g: Graph) returns (deaths: seq<int>)
    ensures |deaths| == |g|
    ensures forall j, k: nat :: 0 <= j < |g| ==> (deaths[j] >= k <==> LiveAt(g, j, k))
  {
    deaths := seq(|g|, _ => -1);
    var i := 0;
    while i < |g|
      invariant 0 <= i <= |g| && |deaths| == |g|
      invariant forall j :: 0 <= j < |g| ==> -1 <= deaths[j] < i
      invariant forall j :: 0 <= j < |g| && deaths[j] >= 0 ==> j in g[deaths[j]].inputs
      invariant forall j, m :: 0 <= j < |g| && 0 <= m < i && j in g[m].inputs ==> m <= deaths[j]
    {
      var a := 0;
      while a < |g[i].inputs|
        invariant 0 <= a <= |g[i].inputs| && |deaths| == |g|
        invariant forall j :: 0 <= j < |g| ==> -1 <= deaths[j] <= i
        invariant forall j :: 0 <= j < |g| && deaths[j] >= 0 ==> j in g[deaths[j]].inputs
        invariant forall j, m :: 0 <= j < |g| && 0 <= m < i && j in g[m].inputs ==> m <= deaths[j]
        invariant forall b :: 0 <= b < a && g[i].inputs[b] < |g| ==> deaths[g[i].inputs[b]] == i
      {
        if g[i].inputs[a] < |g| {
          deaths := deaths[g[i].inputs[a] := i];
        }
        a := a + 1;
      }
      i := i + 1;
    }
    forall j, k: nat | 0 <= j < |g| ensures deaths[j] >= k <==> LiveAt(g, j, k) {
      if LiveAt(g, j, k) {
        var m :| k <= m < |g| && j in g[m].inputs;
      }
    }
  }

  // ---------------------------------------------------------------------------
  // The plan, as the code computes it
  // ---------------------------------------------------------------------------

  datatype Span = Span(start: nat, end: nat)

  /** Insertion by start, after blocks with the same start (a stable sort). */
  function Insert(b: Span, bs: seq<Span>): seq<Span> {
    if bs == [] then [b]
    else if b.start < bs[0].start then [b] + bs
    else [bs[0]] + Insert(b, bs[1..])
  }

  function SortByStart(bs: seq<Span>): seq<Span> {
    if bs == [] then [] else Insert(bs[|bs| - 1], SortByStart(bs[..|bs| - 1]))
  }

  /** The scan over the sorted live blocks: the first gap that is large enough. */
  function Scan(bs: seq<Span>, lastEnd: nat, size: nat): nat {
    if bs == [] then lastEnd
    else if bs[0].start - lastEnd >= size then lastEnd
    else Scan(bs[1..], bs[0].end, size)
  }

  /** The placed tensors among the first `n` that some node at or after time `i` reads. */
  function LiveBlocks(g: Graph, offs: seq<nat>, n: nat, i: nat): seq<Span>
    requires n <= |offs| && n <= |g|
  {
    if n == 0 then []
    else if g[n - 1].size > 0 && LiveAt(g, n - 1, i)
    then LiveBlocks(g, offs, n - 1, i) + [Span(offs[n - 1], offs[n - 1] + g[n - 1].size)]
    else LiveBlocks(g, offs, n - 1, i)
  }

  /** Every alias target is placed before the tensor that takes over its memory. */
  predicate AliasesResolved(g: Graph) {
    forall i :: 0 <= i < |g| && g[i].size > 0 && g[i].alias.Some?
      ==> g[i].alias.value < i && g[g[i].alias.value].size > 0
  }

  /** The offset of tensor `i`, given those of the tensors before it.  Tensors of size 0
      have no entry in the plan; they are given the empty range at 0. */
  function OffsetAt(g: Graph, offs: seq<nat>, i: nat): nat
    requires i < |g| && i <= |offs| && AliasesResolved(g)
  {
    if g[i].size == 0 then 0
    else if g[i].alias.Some? then offs[g[i].alias.value]
    else Scan(SortByStart(LiveBlocks(g, offs, i, i)), 0, g[i].size)
  }

  /** `offs` holds the offsets that the planner gives to the first `n` tensors. */
  ghost predicate IsPlan(g: Graph, offs: seq<nat>, n: nat)
    requires n <= |g|
  {
    AliasesResolved(g) && |offs| == n &&
    forall i {:trigger OffsetAt(g, offs, i)} :: 0 <= i < n ==> offs[i] == OffsetAt(g, offs, i)
  }

  /** Size of the buffer: the largest end of a placed tensor. */
  function Total(g: Graph, offs: seq<nat>, n: nat): nat
    requires n <= |g| && n <= |offs|
  {
    if n == 0 then 0
    else if g[n - 1].size == 0 then Total(g, offs, n - 1)
    else Max(Total(g, offs, n - 1), offs[n - 1] + g[n - 1].size)
  }

  datatype PlanResult = Planned(offs: seq<nat>, total: nat) | AliasNotAllocated

  /** The planner.  It fails exactly when an alias target has not been placed in time. */
  method GenerateReusePlan(g: Graph) returns (r: PlanResult)
    ensures r.Planned? <==> AliasesResolved(g)
    ensures r.Planned? ==> IsPlan(g, r.offs, |g|) && r.total == Total(g, r.offs, |g|)
  {
    var deaths := LastUses(g);
    var offs: seq<nat> := [];
    var total := 0;
    var i := 0;
    while i < |g|
      invariant 0 <= i <= |g| && |offs| == i
      invariant AliasesResolvedUpTo(g, i)
      invariant AliasesResolved(g) ==> IsPlan(g, offs, i)
      invariant total == Total(g, offs, i)
    {
      if g[i].size > 0 && g[i].alias.Some? && (g[i].alias.value >= i || g[g[i].alias.value].size == 0) {
        return AliasNotAllocated;
      }
      var found := PlaceTensor(g, offs, deaths, i);
      if AliasesResolved(g) {
        PlanGrows(g, offs, i, found);
      }
      TotalOfPrefix(g, offs, offs + [found], i);
      if g[i].size > 0 {
        total := Max(total, found + g[i].size);
      }
      offs := offs + [found];
      i := i + 1;
    }
    return Planned(offs, total);
  }

  predicate AliasesResolvedUpTo(g: Graph, n: nat)
    requires n <= |g|
  {
    forall i :: 0 <= i < n && g[i].size > 0 && g[i].alias.Some?
      ==> g[i].alias.value < i && g[g[i].alias.value].size > 0
  }

  /** The body of the planner's loop: where tensor `i` goes. */
  method PlaceTensor(g: Graph, offs: seq<nat>, deaths: seq<int>, i: nat) returns (found: nat)
    requires i < |g| && |offs| == i && |deaths| == |g|
    requires forall j, k: nat :: 0 <= j < |g| ==> (deaths[j] >= k <==> LiveAt(g, j, k))
    requires g[i].size > 0 && g[i].alias.Some? ==> g[i].alias.value < i
    ensures AliasesResolved(g) ==> found == OffsetAt(g, offs, i)
  {
    if g[i].size == 0 {
      return 0;
    }
    if g[i].alias.Some? {
      return offs[g[i].alias.value];
    }
    var live: seq<Span> := [];
    var j := 0;
    while j < i
      invariant 0 <= j <= i
      invariant live == LiveBlocks(g, offs, j, i)
    {
      if g[j].size > 0 && deaths[j] >= i {
        live := live + [Span(offs[j], offs[j] + g[j].size)];
      }
      j := j + 1;
    }
    found := FirstGap(SortByStart(live), g[i].size);
  }

  /** The scan over the sorted live blocks. */
  method FirstGap(live: seq<Span>, size: nat) returns (lastEnd: nat)
    ensures lastEnd == Scan(live, 0, size)
  {
    lastEnd := 0;
    var b := 0;
    while b < |live| && live[b].start - lastEnd < size
      invariant 0 <= b <= |live|
      invariant Scan(live[b..], lastEnd, size) == Scan(live, 0, size)
    {
      assert live[b..][1..] == live[b + 1..];
      lastEnd := live[b].end;
      b := b + 1;
    }
  }

  lemma {:induction false} LiveBlocksOfPrefix(g: Graph, p: seq<nat>, q: seq<nat>, n: nat, i: nat)
    requires n <= |g| && n <= |p| && p <= q
    ensures LiveBlocks(g, p, n, i) == LiveBlocks(g, q, n, i)
  {
    if n > 0 {
      LiveBlocksOfPrefix(g, p, q, n - 1, i);
    }
  }

  /** Placing one more tensor extends the plan. */
  lemma PlanGrows(g: Graph, offs: seq<nat>, i: nat, found: nat)
    requires i < |g| && IsPlan(g, offs, i) && found == OffsetAt(g, offs, i)
    ensures IsPlan(g, offs + [found], i + 1)
  {
    var q := offs + [found];
    forall k | 0 <= k < i + 1 ensures q[k] == OffsetAt(g, q, k) {
      LiveBlocksOfPrefix(g, offs, q, k, k);
      assert OffsetAt(g, q, k) == OffsetAt(g, offs, k);
    }
  }

  /** The plan as a function. */
  function Offsets(g: Graph, n: nat): (offs: seq<nat>)
    requires n <= |g| && AliasesResolved(g)
    ensures |offs| == n
  {
    if n == 0 then [] else var p := Offsets(g, n - 1); p + [OffsetAt(g, p, n - 1)]
  }

  /** It is a plan, and there is no other. */
  lemma {:induction false} OffsetsArePlan(g: Graph, n: nat)
    requires n <= |g| && AliasesResolved(g)
    ensures IsPlan(g, Offsets(g, n), n)
  {
    if n > 0 {
      OffsetsArePlan(g, n - 1);
      PlanGrows(g, Offsets(g, n - 1), n - 1, OffsetAt(g, Offsets(g, n - 1), n - 1));
    }
  }

  /** Two graphs with the same edges and aliases, whose first `n` tensors have the same sizes. */
  ghost predicate SameUpTo(g: Graph, h: Graph, n: nat) {
    && n <= |g| == |h|
    && (forall k :: 0 <= k < |g| ==> g[k].inputs == h[k].inputs && g[k].alias == h[k].alias)
    && (forall k :: 0 <= k < n ==> g[k].size == h[k].size)
  }

  lemma SameLiveness(g: Graph, h: Graph, n: nat, j: nat, k: nat)
    requires SameUpTo(g, h, n)
    ensures LiveAt(g, j, k) <==> LiveAt(h, j, k)
  {
    if m :| k <= m < |g| && j in g[m].inputs {
      assert j in h[m].inputs;
    }
    if m :| k <= m < |h| && j in h[m].inputs {
      assert j in g[m].inputs;
    }
  }

  ghost predicate AgreeUpTo(p: seq<nat>, q: seq<nat>, k: nat) {
    k <= |p| && k <= |q| && forall j :: 0 <= j < k ==> p[j] == q[j]
  }

  lemma {:induction false} SameLiveBlocks(g: Graph, h: Graph, p: seq<nat>, q: seq<nat>, n: nat, k: nat, i: nat)
    requires SameUpTo(g, h, n) && k <= n && AgreeUpTo(p, q, k)
    ensures LiveBlocks(g, p, k, i) == LiveBlocks(h, q, k, i)
  {
    if k > 0 {
      SameLiveness(g, h, n, k - 1, i);
      SameLiveBlocks(g, h, p, q, n, k - 1, i);
    }
  }

  lemma SameOffset(g: Graph, h: Graph, p: seq<nat>, q: seq<nat>, n: nat, k: nat)
    requires SameUpTo(g, h, n) && k < n && AgreeUpTo(p, q, k) && AliasesResolved(g) && AliasesResolved(h)
    ensures OffsetAt(g, p, k) == OffsetAt(h, q, k)
  {
    SameLiveBlocks(g, h, p, q, n, k, k);
  }

  /** Such graphs get the same plan up to there. */
  lemma {:induction false} SamePlan(g: Graph, h: Graph, p: seq<nat>, q: seq<nat>, n: nat, k: nat)
    requires SameUpTo(g, h, n) && k <= n && IsPlan(g, p, |g|) && IsPlan(h, q, |h|)
    ensures AgreeUpTo(p, q, k)
  {
    if k > 0 {
      SamePlan(g, h, p, q, n, k - 1);
      SameOffset(g, h, p, q, n, k - 1);
      assert p[k - 1] == OffsetAt(g, p, k - 1) && q[k - 1] == OffsetAt(h, q, k - 1);
    }
  }

  /** In particular a graph has one plan. */
  lemma PlanIsUnique(g: Graph, p: seq<nat>, q: seq<nat>)
    requires IsPlan(g, p, |g|) && IsPlan(g, q, |g|)
    ensures p == q
  {
    SamePlan(g, g, p, q, |g|, |g|);
  }

  lemma {:induction false} SameTotal(g: Graph, h: Graph, p: seq<nat>, q: seq<nat>, n: nat, k: nat)
    requires SameUpTo(g, h, n) && k <= n && AgreeUpTo(p, q, k)
    ensures Total(g, p, k) == Total(h, q, k)
  {
    if k > 0 {
      SameTotal(g, h, p, q, n, k - 1);
    }
  }

  lemma {:induction false} TotalOfPrefix(g: Graph, p: seq<nat>, q: seq<nat>, n: nat)
    requires n <= |g| && n <= |p| && p <= q
    ensures Total(g, p, n) == Total(g, q, n)
  {
    if n > 0 {
      TotalOfPrefix(g, p, q, n - 1);
    }
  }

  // ---------------------------------------------------------------------------
  // What first fit means
  // ---------------------------------------------------------------------------

  predicate Meets(o: int, size: int, b: Span) {
    o < b.end && b.start < o + size
  }

  predicate Blocked(bs: seq<Span>, o: int, size: int) {
    exists b :: b in bs && Meets(o, size, b)
  }

  ghost predicate Sorted(bs: seq<Span>) {
    forall a, b :: 0 <= a < b < |bs| ==> bs[a].start <= bs[b].start
  }

  ghost predicate Spread(bs: seq<Span>) {
    && (forall a :: 0 <= a < |bs| ==> bs[a].start < bs[a].end)
    && (forall a, b :: 0 <= a < b < |bs| ==> bs[a].end <= bs[b].start)
  }

  lemma {:induction false} InsertHolds(b: Span, bs: seq<Span>)
    ensures multiset(Insert(b, bs)) == multiset(bs) + multiset{b}
  {
    if bs != [] && b.start >= bs[0].start {
      InsertHolds(b, bs[1..]);
      assert bs == [bs[0]] + bs[1..];
    }
  }

  lemma {:induction false} InsertKeeps(b: Span, bs: seq<Span>)
    requires Sorted(bs)
    ensures Sorted(Insert(b, bs))
  {
    if bs != [] && b.start >= bs[0].start {
      InsertKeeps(b, bs[1..]);
      InsertHolds(b, bs[1..]);
      var t := Insert(b, bs[1..]);
      forall k | 0 <= k < |t| ensures bs[0].start <= t[k].start {
        assert t[k] in multiset(t);
      }
    }
  }

  lemma {:induction false} SortHolds(bs: seq<Span>)
    ensures multiset(SortByStart(bs)) == multiset(bs)
  {
    if bs != [] {
      var n := |bs| - 1;
      SortHolds(bs[..n]);
      InsertHolds(bs[n], SortByStart(bs[..n]));
      SplitLast(bs);
    }
  }

  lemma SplitLast(bs: seq<Span>)
    requires bs != []
    ensures multiset(bs) == multiset(bs[..|bs| - 1]) + multiset{bs[|bs| - 1]}
  {
    assert bs == bs[..|bs| - 1] + [bs[|bs| - 1]];
  }

  lemma {:induction false} SortSorts(bs: seq<Span>)
    ensures Sorted(SortByStart(bs))
  {
    if bs != [] {
      SortSorts(bs[..|bs| - 1]);
      InsertKeeps(bs[|bs| - 1], SortByStart(bs[..|bs| - 1]));
    }
  }

  lemma SortKeeps(bs: seq<Span>)
    ensures Sorted(SortByStart(bs)) && multiset(SortByStart(bs)) == multiset(bs)
  {
    SortSorts(bs);
    SortHolds(bs);
  }

  /** Over sorted blocks that do not overlap, the scan returns an offset that meets no
      block, and every smaller one (from `lastEnd` on) meets some block. */
  lemma {:induction false} ScanIsLeast(bs: seq<Span>, lastEnd: nat, size: nat)
    requires size > 0 && Spread(bs) && (bs != [] ==> lastEnd <= bs[0].start)
    ensures Scan(bs, lastEnd, size) >= lastEnd
    ensures !Blocked(bs, Scan(bs, lastEnd, size), size)
    ensures forall o :: lastEnd <= o < Scan(bs, lastEnd, size) ==> Blocked(bs, o, size)
  {
    if bs == [] {
    } else if bs[0].start - lastEnd >= size {
      forall b | b in bs ensures bs[0].start <= b.start {
      }
    } else {
      ScanIsLeast(bs[1..], bs[0].end, size);
      forall o | lastEnd <= o < Scan(bs, lastEnd, size) ensures Blocked(bs, o, size) {
        if o < bs[0].end {
          assert bs[0] in bs && Meets(o, size, bs[0]);
        } else {
          assert Blocked(bs[1..], o, size);
        }
      }
    }
  }

  // ---------------------------------------------------------------------------
  // Safety of the plan
  // ---------------------------------------------------------------------------

  /** The byte ranges of tensors `j` and `k` do not overlap. */
  predicate Apart(g: Graph, offs: seq<nat>, j: nat, k: nat)
    requires j < |g| && k < |g| && j < |offs| && k < |offs|
  {
    offs[j] + g[j].size <= offs[k] || offs[k] + g[k].size <= offs[j]
  }

  /** Node `k` works element by element, and writes exactly over its input `j`, which no
      later node reads. */
  predicate InPlace(g: Graph, offs: seq<nat>, j: nat, k: nat)
    requires j < |g| && k < |g| && j < |offs| && k < |offs|
  {
    && g[k].elementwise && j in g[k].inputs && !LiveAt(g, j, k + 1)
    && offs[j] == offs[k] && g[j].size == g[k].size
  }

  /** Writing tensor `k` destroys nothing that node `k` or a later node still reads. */
  ghost predicate WriteSafe(g: Graph, offs: seq<nat>, k: nat)
    requires k < |g| && k < |offs|
  {
    forall j :: 0 <= j < k && g[j].size > 0 && g[k].size > 0 && LiveAt(g, j, k)
      ==> Apart(g, offs, j, k) || InPlace(g, offs, j, k)
  }

  ghost predicate Safe(g: Graph, offs: seq<nat>, n: nat)
    requires n <= |g| && n <= |offs|
  {
    forall k :: 0 <= k < n ==> WriteSafe(g, offs, k)
  }

  /** Tensor `i` would fit at `o`: it meets no tensor that is still needed. */
  ghost predicate Fits(g: Graph, offs: seq<nat>, i: nat, o: int)
    requires i < |g| && i <= |offs|
  {
    forall j :: 0 <= j < i && g[j].size > 0 && LiveAt(g, j, i)
      ==> !Meets(o, g[i].size, Span(offs[j], offs[j] + g[j].size))
  }

  /** `o` is the least offset at which tensor `i` fits. */
  ghost predicate LeastFit(g: Graph, offs: seq<nat>, i: nat, o: nat)
    requires i < |g| && i <= |offs|
  {
    Fits(g, offs, i, o) && forall o' :: 0 <= o' < o ==> !Fits(g, offs, i, o')
  }

  lemma {:induction false} LiveBlocksAre(g: Graph, offs: seq<nat>, n: nat, i: nat, b: Span)
    requires n <= |offs| && n <= |g|
    ensures b in LiveBlocks(g, offs, n, i) <==>
              exists j :: 0 <= j < n && g[j].size > 0 && LiveAt(g, j, i) && b == Span(offs[j], offs[j] + g[j].size)
  {
    if n > 0 {
      LiveBlocksAre(g, offs, n - 1, i, b);
    }
  }

  ghost predicate Separated(bs: seq<Span>) {
    && (forall a :: 0 <= a < |bs| ==> bs[a].start < bs[a].end)
    && (forall a, b :: 0 <= a < b < |bs| ==> bs[a].end <= bs[b].start || bs[b].end <= bs[a].start)
  }

  /** In a safe plan, tensors that are needed at the same time do not overlap. */
  lemma {:induction false} LiveBlocksSeparated(g: Graph, offs: seq<nat>, n: nat, i: nat)
    requires n <= i && i <= |g| && n <= |offs| && Safe(g, offs, n)
    ensures Separated(LiveBlocks(g, offs, n, i))
  {
    if n > 0 {
      LiveBlocksSeparated(g, offs, n - 1, i);
      var k := n - 1;
      if g[k].size > 0 && LiveAt(g, k, i) {
        var bs := LiveBlocks(g, offs, k, i);
        forall a | 0 <= a < |bs| ensures bs[a].end <= offs[k] || offs[k] + g[k].size <= bs[a].start {
          LiveBlocksAre(g, offs, k, i, bs[a]);
          var j :| 0 <= j < k && g[j].size > 0 && LiveAt(g, j, i) && bs[a] == Span(offs[j], offs[j] + g[j].size);
          StillLive(g, j, k, i);
          StillLive(g, j, k + 1, i);
          assert WriteSafe(g, offs, k);
        }
      }
    }
  }

  lemma StillLive(g: Graph, j: nat, k: nat, i: nat)
    requires k <= i && LiveAt(g, j, i)
    ensures LiveAt(g, j, k)
  {
    var m :| i <= m < |g| && j in g[m].inputs;
  }

  /** No two positions of separated blocks hold overlapping blocks, also after sorting. */
  lemma SortSpreads(bs: seq<Span>)
    requires Separated(bs)
    ensures Spread(SortByStart(bs))
  {
    SortKeeps(bs);
    var s := SortByStart(bs);
    forall a | 0 <= a < |s| ensures s[a].start < s[a].end {
      assert s[a] in multiset(s);
      assert s[a] in bs;
    }
    forall a, b | 0 <= a < b < |s| ensures s[a].end <= s[b].start {
      SortedPair(bs, s, a, b);
    }
  }

  lemma SortedPair(bs: seq<Span>, s: seq<Span>, a: nat, b: nat)
    requires Separated(bs) && Sorted(s) && multiset(s) == multiset(bs) && a < b < |s|
    ensures s[a].end <= s[b].start
  {
    assert s[a] in multiset(s) && s[b] in multiset(s);
    var p :| 0 <= p < |bs| && bs[p] == s[a];
    var q :| 0 <= q < |bs| && bs[q] == s[b];
    if s[a] == s[b] {
      TwiceIn(s, a, b);
      NoTwins(bs, s[a]);
    }
  }

  lemma TwiceIn(s: seq<Span>, a: nat, b: nat)
    requires a < b < |s| && s[a] == s[b]
    ensures multiset(s)[s[a]] >= 2
  {
    assert s == s[..b] + s[b..];
    assert s[a] in s[..b] && s[b] in s[b..];
  }

  lemma {:induction false} NoTwins(bs: seq<Span>, x: Span)
    requires Separated(bs)
    ensures multiset(bs)[x] <= 1
  {
    if bs != [] {
      var n := |bs| - 1;
      NoTwins(bs[..n], x);
      assert bs == bs[..n] + [bs[n]];
      assert bs[n] !in bs[..n];
      assert multiset(bs) == multiset(bs[..n]) + multiset{bs[n]};
    }
  }

  /** "Meets no live block" and "fits" are the same thing. */
  lemma BlockedIsUnfit(g: Graph, offs: seq<nat>, i: nat, o: int)
    requires i < |g| && i <= |offs|
    ensures Blocked(SortByStart(LiveBlocks(g, offs, i, i)), o, g[i].size) <==> !Fits(g, offs, i, o)
  {
    var bs := LiveBlocks(g, offs, i, i);
    var s := SortByStart(bs);
    SortKeeps(bs);
    if Blocked(s, o, g[i].size) {
      var b :| b in s && Meets(o, g[i].size, b);
      assert b in multiset(bs);
      LiveBlocksAre(g, offs, i, i, b);
    }
    if !Fits(g, offs, i, o) {
      var j :| 0 <= j < i && g[j].size > 0 && LiveAt(g, j, i) && Meets(o, g[i].size, Span(offs[j], offs[j] + g[j].size));
      LiveBlocksAre(g, offs, i, i, Span(offs[j], offs[j] + g[j].size));
      assert Span(offs[j], offs[j] + g[j].size) in multiset(s);
    }
  }

  /** If the plan is safe so far, the scan places the next tensor at the least offset at
      which it fits. */
  lemma ScanFits(g: Graph, offs: seq<nat>, i: nat)
    requires i < |g| && i <= |offs| && AliasesResolved(g) && Safe(g, offs, i)
    requires g[i].size > 0 && g[i].alias.None?
    ensures LeastFit(g, offs, i, OffsetAt(g, offs, i))
  {
    var bs := LiveBlocks(g, offs, i, i);
    LiveBlocksSeparated(g, offs, i, i);
    SortSpreads(bs);
    ScanIsLeast(SortByStart(bs), 0, g[i].size);
    forall o ensures Blocked(SortByStart(bs), o, g[i].size) <==> !Fits(g, offs, i, o) {
      BlockedIsUnfit(g, offs, i, o);
    }
  }

  /** Every aliased tensor lands on memory that is free, or exactly on an input that the node
      consumes element by element. */
  ghost predicate AliasesSafe(g: Graph, offs: seq<nat>, n: nat)
    requires n <= |g| && n <= |offs|
  {
    forall k :: 0 <= k < n && g[k].alias.Some? ==> WriteSafe(g, offs, k)
  }

  /** Every tensor without an alias sits at the least offset at which it fits. */
  ghost predicate ScannedLeast(g: Graph, offs: seq<nat>, n: nat)
    requires n <= |g| && n <= |offs|
  {
    forall i :: 0 <= i < n && g[i].size > 0 && g[i].alias.None? ==> LeastFit(g, offs, i, offs[i])
  }

  /** Main theorem of the planner.  The plan of any graph is safe exactly when every aliased
      tensor lands on memory that nobody needs any more; in particular the plan of a graph
      without aliases is always safe.  Every tensor placed by the scan sits at the least
      offset at which it fits. */
  lemma {:induction false} PlanIsSafe(g: Graph, offs: seq<nat>, n: nat)
    requires n <= |g| && IsPlan(g, offs, |g|)
    ensures Safe(g, offs, n) <==> AliasesSafe(g, offs, n)
    ensures Safe(g, offs, n) ==> ScannedLeast(g, offs, n)
  {
    if n > 0 {
      var k := n - 1;
      PlanIsSafe(g, offs, k);
      if Safe(g, offs, k) && g[k].alias.None? {
        ScannedIsSafe(g, offs, k);
      }
    }
  }

  lemma ScannedIsSafe(g: Graph, offs: seq<nat>, k: nat)
    requires k < |g| && IsPlan(g, offs, |g|) && Safe(g, offs, k) && g[k].alias.None?
    ensures WriteSafe(g, offs, k)
    ensures g[k].size > 0 ==> LeastFit(g, offs, k, offs[k])
  {
    if g[k].size > 0 {
      ScanFits(g, offs, k);
      assert offs[k] == OffsetAt(g, offs, k);
      forall j | 0 <= j < k && g[j].size > 0 && LiveAt(g, j, k) ensures Apart(g, offs, j, k) {
        assert !Meets(offs[k], g[k].size, Span(offs[j], offs[j] + g[j].size));
      }
    }
  }

  // ---------------------------------------------------------------------------
  // Consequences of first fit
  // ---------------------------------------------------------------------------

  /** A least fit is 0 or the end of a tensor that is still needed. */
  lemma LeastFitTouches(g: Graph, offs: seq<nat>, i: nat, o: nat)
    requires i < |g| && i <= |offs| && g[i].size > 0 && LeastFit(g, offs, i, o) && o > 0
    ensures exists j :: 0 <= j < i && g[j].size > 0 && LiveAt(g, j, i) && offs[j] + g[j].size == o
  {
    assert !Fits(g, offs, i, o - 1);
    var j :| 0 <= j < i && g[j].size > 0 && LiveAt(g, j, i) &&
             Meets(o - 1, g[i].size, Span(offs[j], offs[j] + g[j].size));
    assert !Meets(o, g[i].size, Span(offs[j], offs[j] + g[j].size));
  }

  /** There is only one least fit. */
  lemma LeastFitUnique(g: Graph, offs: seq<nat>, i: nat, o: nat, o': nat)
    requires i < |g| && i <= |offs| && LeastFit(g, offs, i, o) && LeastFit(g, offs, i, o')
    ensures o == o'
  {
  }

  /** The offset of an aliased tensor is that of its target. */
  lemma AliasOffset(g: Graph, offs: seq<nat>, k: nat)
    requires k < |g| && IsPlan(g, offs, |g|) && g[k].size > 0 && g[k].alias.Some?
    ensures offs[k] == offs[g[k].alias.value]
  {
    assert offs[k] == OffsetAt(g, offs, k);
  }

  predicate Multiple(x: int, a: int)
    requires a > 0
  {
    x % a == 0
  }

  lemma MultipleSum(x: int, y: int, a: int)
    requires a > 0 && Multiple(x, a) && Multiple(y, a)
    ensures Multiple(x + y, a)
  {
    assert x + y == (x / a + y / a) * a;
    DivModUnique(x + y, a, x / a + y / a, 0);
  }

  /** Every tensor that some node reads has a size that is a multiple of `a`. */
  ghost predicate ReadSizes(g: Graph, a: nat)
    requires a > 0
  {
    forall j :: 0 <= j < |g| && LiveAt(g, j, 0) ==> Multiple(g[j].size, a)
  }

  /** Every offset is a multiple of the element size when the size of every tensor that is
      ever read is: the typed views of the buffer are aligned. */
  lemma {:induction false} PlanIsAligned(g: Graph, offs: seq<nat>, i: nat, a: nat)
    requires i < |g| && IsPlan(g, offs, |g|) && a > 0 && ScannedLeast(g, offs, |g|) && ReadSizes(g, a)
    ensures Multiple(offs[i], a)
  {
    if g[i].size == 0 {
      assert offs[i] == OffsetAt(g, offs, i);
    } else if g[i].alias.Some? {
      AliasOffset(g, offs, i);
      PlanIsAligned(g, offs, g[i].alias.value, a);
    } else if offs[i] > 0 {
      var j := Neighbour(g, offs, i);
      PlanIsAligned(g, offs, j, a);
      MultipleSum(offs[j], g[j].size, a);
    }
  }

  /** The tensor at whose end a scanned tensor starts. */
  lemma Neighbour(g: Graph, offs: seq<nat>, i: nat) returns (j: nat)
    requires i < |g| && |offs| == |g| && ScannedLeast(g, offs, |g|) && g[i].size > 0 && g[i].alias.None? && offs[i] > 0
    ensures j < i && LiveAt(g, j, 0) && offs[j] + g[j].size == offs[i]
  {
    LeastFitTouches(g, offs, i, offs[i]);
    j :| 0 <= j < i && g[j].size > 0 && LiveAt(g, j, i) && offs[j] + g[j].size == offs[i];
    StillLive(g, j, 0, i);
  }

  /** Every placed tensor lies inside the buffer. */
  lemma {:induction false} WithinTotal(g: Graph, offs: seq<nat>, n: nat, j: nat)
    requires n <= |g| && n <= |offs| && j < n && g[j].size > 0
    ensures offs[j] + g[j].size <= Total(g, offs, n)
  {
    if j < n - 1 {
      WithinTotal(g, offs, n - 1, j);
    }
  }

  /** A buffer that holds every tensor is at least as large as the planned one. */
  lemma {:induction false} TotalAtMost(g: Graph, offs: seq<nat>, n: nat, bound: nat)
    requires n <= |g| && n <= |offs| && forall j :: 0 <= j < n && g[j].size > 0 ==> offs[j] + g[j].size <= bound
    ensures Total(g, offs, n) <= bound
  {
    if n > 0 {
      TotalAtMost(g, offs, n - 1, bound);
    }
  }

  /** The buffer is no larger than needed: some tensor ends at its end. */
  lemma {:induction false} TotalIsTight(g: Graph, offs: seq<nat>, n: nat)
    requires n <= |g| && n <= |offs| && Total(g, offs, n) > 0
    ensures exists j :: 0 <= j < n && g[j].size > 0 && offs[j] + g[j].size == Total(g, offs, n)
  {
    if Total(g, offs, n) == Total(g, offs, n - 1) {
      TotalIsTight(g, offs, n - 1);
    } else {
      assert g[n - 1].size > 0;
    }
  }

  // ---------------------------------------------------------------------------
  // Aliases
  // ---------------------------------------------------------------------------

  /** A node that works element by element and takes over the memory of one of its own
      inputs, at that input's last use, is always placed safely. */
  lemma InPlaceAliasIsSafe(g: Graph, offs: seq<nat>, k: nat)
    requires k < |g| && IsPlan(g, offs, |g|) && g[k].size > 0 && g[k].alias.Some? && Safe(g, offs, k)
    requires var t := g[k].alias.value;
             g[k].elementwise && t in g[k].inputs && !LiveAt(g, t, k + 1) && g[t].size == g[k].size
    ensures WriteSafe(g, offs, k)
  {
    var t := g[k].alias.value;
    AliasOffset(g, offs, k);
    forall j | 0 <= j < k && g[j].size > 0 && LiveAt(g, j, k) && j != t ensures Apart(g, offs, j, k) {
      if j < t {
        StillLive(g, j, t, k);
        StillLive(g, j, t + 1, k);
        assert WriteSafe(g, offs, t);
      } else {
        assert LiveAt(g, t, k);
        StillLive(g, t, j, k);
        StillLive(g, t, j + 1, k);
        assert WriteSafe(g, offs, j);
      }
    }
  }

  /** What a caller can check of an aliased node before planning.  Either the node works element
      by element and takes over one of its inputs at its last use; or its target is no longer
      needed, is at least as large, and no tensor written since the target is still needed. */
  ghost predicate AliasGuard(g: Graph, k: nat)
    requires k < |g| && g[k].alias.Some? && g[k].alias.value < k
  {
    var t := g[k].alias.value;
    || (g[k].elementwise && t in g[k].inputs && !LiveAt(g, t, k + 1) && g[t].size == g[k].size)
    || (g[k].size <= g[t].size && forall j :: t <= j < k && g[j].size > 0 ==> !LiveAt(g, j, k))
  }

  /** A node that takes over memory in which nothing has been written since. */
  lemma FreeAliasIsSafe(g: Graph, offs: seq<nat>, k: nat)
    requires k < |g| && IsPlan(g, offs, |g|) && g[k].size > 0 && g[k].alias.Some? && Safe(g, offs, k)
    requires var t := g[k].alias.value;
             g[k].size <= g[t].size && forall j :: t <= j < k && g[j].size > 0 ==> !LiveAt(g, j, k)
    ensures WriteSafe(g, offs, k)
  {
    var t := g[k].alias.value;
    AliasOffset(g, offs, k);
    forall j | 0 <= j < k && g[j].size > 0 && LiveAt(g, j, k) ensures Apart(g, offs, j, k) {
      StillLive(g, j, t, k);
      StillLive(g, j, t + 1, k);
      assert WriteSafe(g, offs, t);
    }
  }

  /** Safety that can be checked on the graph alone: if every aliased node is guarded, the plan is
      safe.  The exact condition (`PlanIsSafe`) needs the offsets: a node that is not guarded may
      still land on free memory, as `final_output` of the block graphs does. */
  lemma {:induction false} GuardedPlanIsSafe(g: Graph, offs: seq<nat>, n: nat)
    requires n <= |g| && IsPlan(g, offs, |g|)
    requires forall k :: 0 <= k < |g| && g[k].size > 0 && g[k].alias.Some? ==> AliasGuard(g, k)
    ensures Safe(g, offs, n)
  {
    if n > 0 {
      var k := n - 1;
      GuardedPlanIsSafe(g, offs, k);
      if g[k].alias.None? {
        ScannedIsSafe(g, offs, k);
      } else if g[k].size > 0 {
        assert AliasGuard(g, k);
        var t := g[k].alias.value;
        if g[k].elementwise && t in g[k].inputs && !LiveAt(g, t, k + 1) && g[t].size == g[k].size {
          InPlaceAliasIsSafe(g, offs, k);
        } else {
          FreeAliasIsSafe(g, offs, k);
        }
      }
    }
  }

  function ClobberNode(i: int): Node {
    Node(if i <= 0 then [] else if i == 1 then [0] else if i < 4 then [1] else [2, 3],
         4, if i == 3 then Some(0) else None, false)
  }

  function ClobberGraph(): Graph { seq(5, ClobberNode) }

  /** In general the planner does not check what an alias lands on: in the plan of this graph
      tensor 3 is placed over tensor 2, which node 4 still reads. */
  lemma AliasCanClobber(offs: seq<nat>)
    requires IsPlan(ClobberGraph(), offs, 5)
    ensures !Safe(ClobberGraph(), offs, 5)
  {
    var g := ClobberGraph();
    ClobberFacts();
    if Safe(g, offs, 5) {
      PlanIsSafe(g, offs, 5);
      AliasOffset(g, offs, 3);
      ClobberSteps(g, offs);
    }
  }

  lemma ClobberFacts()
    ensures var g := ClobberGraph();
            && |g| == 5 && g[0].size == g[1].size == g[2].size == g[3].size == 4
            && g[0].alias.None? && g[2].alias.None? && g[3].alias == Some(0)
            && !g[1].elementwise && !g[3].elementwise
            && LiveAt(g, 0, 1) && !LiveAt(g, 0, 2) && LiveAt(g, 2, 3)
  {
    var g := ClobberGraph();
    assert 0 in g[1].inputs && 2 in g[4].inputs;
  }

  /** A tensor in the place of a dead tensor 0, then tensor 3 forced on top of it. */
  lemma ClobberSteps(g: Graph, offs: seq<nat>)
    requires |g| == 5 && |offs| == 5 && g[0].size == g[1].size == g[2].size == g[3].size == 4
    requires LiveAt(g, 0, 1) && !LiveAt(g, 0, 2) && LiveAt(g, 2, 3) && !g[1].elementwise && !g[3].elementwise
    requires LeastFit(g, offs, 0, offs[0]) && LeastFit(g, offs, 2, offs[2]) && offs[3] == offs[0]
    requires WriteSafe(g, offs, 1)
    ensures !WriteSafe(g, offs, 3)
  {
    assert Fits(g, offs, 0, 0);
    assert Apart(g, offs, 0, 1);
    assert Fits(g, offs, 2, 0);
    assert !Apart(g, offs, 2, 3);
  }

  // ---------------------------------------------------------------------------
  // Liveness and the reported peak
  // ---------------------------------------------------------------------------

  /** Every node reads tensors that exist when it runs. */
  predicate WellFormed(g: Graph) {
    forall i, j :: 0 <= i < |g| && j in g[i].inputs ==> j < i
  }

  /** Tensor `j` counts towards the memory in use at node `i`: it is the output of `i`, or a
      later node reads it. */
  predicate InUse(g: Graph, j: nat, i: nat) {
    j == i || LiveAt(g, j, i + 1)
  }

  /** The bytes in use at node `i`, over the first `n` tensors. */
  function BytesInUse(g: Graph, n: nat, i: nat): nat
    requires n <= |g|
  {
    if n == 0 then 0
    else BytesInUse(g, n - 1, i) + if InUse(g, n - 1, i) then g[n - 1].size else 0
  }

  ghost predicate IsLiveAfter(g: Graph, s: set<nat>, i: int)
    requires i >= 0
  {
    forall j :: j in s <==> 0 <= j <= i && LiveAt(g, j, i + 1)
  }

  /** The backward liveness pass: the set kept for node `i` holds exactly the tensors written
      up to `i` that a later node reads. */
  method AnalyzeLiveness(g: Graph) returns (after: seq<set<nat>>)
    requires WellFormed(g)
    ensures |after| == |g| && forall i :: 0 <= i < |g| ==> IsLiveAfter(g, after[i], i)
  {
    after := [];
    var live: set<nat> := {};
    var i := |g|;
    while i > 0
      invariant 0 <= i <= |g| && |after| == |g| - i
      invariant forall j :: j in live <==> 0 <= j < i && LiveAt(g, j, i)
      invariant forall u :: 0 <= u < |after| ==> IsLiveAfter(g, after[u], i + u)
    {
      i := i - 1;
      assert IsLiveAfter(g, live, i);
      after := [live] + after;
      live := (live - {i}) + (set x | x in g[i].inputs);
      forall j ensures j in live <==> 0 <= j < i && LiveAt(g, j, i) {
        if 0 <= j < i && LiveAt(g, j, i) && !LiveAt(g, j, i + 1) {
          var m :| i <= m < |g| && j in g[m].inputs;
          assert m == i;
        }
        if 0 <= j && LiveAt(g, j, i + 1) {
          StillLive(g, j, i, i + 1);
        }
      }
    }
  }

  /** The timeline: bytes in use at every node. */
  method MemoryTimeline(g: Graph) returns (timeline: seq<nat>)
    requires WellFormed(g)
    ensures |timeline| == |g|
    ensures forall i :: 0 <= i < |g| ==> timeline[i] == BytesInUse(g, i + 1, i)
  {
    var after := AnalyzeLiveness(g);
    timeline := [];
    for i := 0 to |g|
      invariant |timeline| == i
      invariant forall t :: 0 <= t < i ==> timeline[t] == BytesInUse(g, t + 1, t)
    {
      var sum := 0;
      var live := after[i] + {i};
      for j := 0 to i + 1
        invariant sum == BytesInUse(g, j, i)
      {
        if j in live {
          sum := sum + g[j].size;
        }
      }
      timeline := timeline + [sum];
    }
  }

  ghost function Cells(g: Graph, offs: seq<nat>, n: nat, i: nat): set<int>
    requires n <= |g| && n <= |offs|
  {
    if n == 0 then {}
    else Cells(g, offs, n - 1, i) + if InUse(g, n - 1, i) then Bytes(offs[n - 1], g[n - 1].size) else {}
  }

  ghost function Bytes(start: int, size: nat): (s: set<int>)
    ensures forall x :: x in s <==> start <= x < start + size
  {
    if size == 0 then {} else Bytes(start, size - 1) + {start + size - 1}
  }

  lemma {:induction false} BytesSize(start: int, size: nat)
    ensures |Bytes(start, size)| == size
  {
    if size > 0 {
      BytesSize(start, size - 1);
    }
  }

  lemma {:induction false} CellOwner(g: Graph, offs: seq<nat>, n: nat, i: nat, x: int) returns (j: nat)
    requires n <= |g| && n <= |offs| && x in Cells(g, offs, n, i)
    ensures j < n && InUse(g, j, i) && offs[j] <= x < offs[j] + g[j].size
  {
    if x in Cells(g, offs, n - 1, i) {
      j := CellOwner(g, offs, n - 1, i, x);
    } else {
      j := n - 1;
    }
  }

  /** Tensors in use at the same time share no byte. */
  lemma InUseApart(g: Graph, offs: seq<nat>, j: nat, k: nat, i: nat)
    requires j < k <= i < |g| && |offs| == |g| && Safe(g, offs, |g|)
    requires InUse(g, j, i) && InUse(g, k, i) && g[j].size > 0 && g[k].size > 0
    ensures Apart(g, offs, j, k)
  {
    StillLive(g, j, k, i + 1);
    StillLive(g, j, k + 1, i + 1);
    assert WriteSafe(g, offs, k);
  }

  lemma {:induction false} CellsSize(g: Graph, offs: seq<nat>, n: nat, i: nat)
    requires n <= i + 1 && i < |g| && |offs| == |g| && Safe(g, offs, |g|)
    ensures |Cells(g, offs, n, i)| == BytesInUse(g, n, i)
  {
    if n > 0 {
      var k := n - 1;
      CellsSize(g, offs, k, i);
      if InUse(g, k, i) {
        var c := Bytes(offs[k], g[k].size);
        BytesSize(offs[k], g[k].size);
        forall x | x in Cells(g, offs, k, i) && x in c ensures false {
          var j := CellOwner(g, offs, k, i, x);
          InUseApart(g, offs, j, k, i);
        }
        assert Cells(g, offs, k, i) !! c;
      }
    }
  }

  /** The memory reported for any node, hence the reported peak, never exceeds the buffer
      that the plan asks for. */
  lemma PeakWithinPlan(g: Graph, offs: seq<nat>, i: nat)
    requires i < |g| && |offs| == |g| && Safe(g, offs, |g|)
    ensures BytesInUse(g, i + 1, i) <= Total(g, offs, |g|)
  {
    var cells, total := Cells(g, offs, i + 1, i), Total(g, offs, |g|);
    assert |cells| == BytesInUse(g, i + 1, i) by { CellsSize(g, offs, i + 1, i); }
    assert |cells| <= total by {
      CellsWithin(g, offs, i);
      SubsetOfBytes(cells, total);
    }
  }

  lemma SubsetOfBytes(cells: set<int>, total: nat)
    requires cells <= Bytes(0, total)
    ensures |cells| <= total
  {
    BytesSize(0, total);
    SubsetSize(cells, Bytes(0, total));
  }

  lemma CellsWithin(g: Graph, offs: seq<nat>, i: nat)
    requires i < |g| && |offs| == |g|
    ensures Cells(g, offs, i + 1, i) <= Bytes(0, Total(g, offs, |g|))
  {
    forall x | x in Cells(g, offs, i + 1, i) ensures x in Bytes(0, Total(g, offs, |g|)) {
      CellWithin(g, offs, i, x);
    }
  }

  lemma CellWithin(g: Graph, offs: seq<nat>, i: nat, x: int)
    requires i < |g| && |offs| == |g| && x in Cells(g, offs, i + 1, i)
    ensures 0 <= x < Total(g, offs, |g|)
  {
    var j := CellOwner(g, offs, i + 1, i, x);
    WithinTotal(g, offs, |g|, j);
  }

  lemma {:induction false} SubsetSize<T>(a: set<T>, b: set<T>)
    requires a <= b
    ensures |a| <= |b|
  {
    if |a| > 0 {
      var x :| x in a;
      SubsetSize(a - {x}, b - {x});
    }
  }
}
