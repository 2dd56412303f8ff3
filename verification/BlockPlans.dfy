/** The plans of the block graphs (vllm/v1/worker/graph_builder.py) in detail: where the tensors
    lie, and how large the planned buffer is. */
module BlockPlans {
  import opened Arith
  import opened Wrappers
  import opened ReusePlan
  import opened BlockGraphs

  // ---------------------------------------------------------------------------
  // Liveness as a table
  // ---------------------------------------------------------------------------

  /** The last node that reads tensor `j`, or -1. */
  function LastUse(b: Block, j: nat): int {
    if j == 0 then 8
    else if j == 1 then 4
    else if j <= 4 then 5
    else if j == 5 then 6
    else if j == 6 then 8
    else if j == 7 then (if b.chunked then 14 else if b.moe then 9 else 10)
    else if j == 8 then b.Final()
    else if j == 9 then (if b.chunked then 13 else if b.moe then 10 else 11)
    else if j == 10 then (if b.chunked then 13 else 11)
    else if j == 11 then (if b.chunked then 13 else 12)
    else if j == 12 then b.Final()
    else if j == b.Final() then b.Final() + 1
    else -1
  }

  lemma LastUseReads(b: Block, j: nat)
    requires j < |b.Graph()| && LastUse(b, j) >= 0
    ensures LastUse(b, j) < |b.Graph()| && j in b.NodeAt(LastUse(b, j)).inputs
  {
  }

  lemma NoLaterUse(b: Block, j: nat, m: nat)
    requires m < |b.Graph()| && j in b.NodeAt(m).inputs
    ensures m <= LastUse(b, j)
  {
  }

  lemma LiveIff(b: Block, j: nat, k: nat)
    requires j < |b.Graph()|
    ensures LiveAt(b.Graph(), j, k) <==> k <= LastUse(b, j)
  {
    if k <= LastUse(b, j) {
      LastUseReads(b, j);
      KeptBy(b, j, k, LastUse(b, j));
    }
    if LiveAt(b.Graph(), j, k) {
      var m :| k <= m < |b.Graph()| && j in b.Graph()[m].inputs;
      assert b.Graph()[m] == b.NodeAt(m);
      NoLaterUse(b, j, m);
    }
  }

  // ---------------------------------------------------------------------------
  // Bounds on offsets
  // ---------------------------------------------------------------------------

  ghost predicate Planned(b: Block, offs: seq<nat>) {
    && b.Regular() && b.kv <= b.s
    && IsPlan(b.Graph(), offs, |b.Graph()|) && Safe(b.Graph(), offs, |b.Graph()|) && ScannedLeast(b.Graph(), offs, |b.Graph()|)
  }

  /** The plan of a regular block. */
  lemma PlannedBlock(b: Block, offs: seq<nat>)
    requires IsPlan(b.Graph(), offs, |b.Graph()|) && b.Regular() && b.kv <= b.s
    ensures Planned(b, offs)
  {
    BlockPlanSafe(b, offs);
    PlanIsSafe(b.Graph(), offs, |b.Graph()|);
  }

  /** Where tensor `j` ends. */
  function End(b: Block, offs: seq<nat>, j: nat): nat
    requires j < |offs|
  {
    offs[j] + b.NodeAt(j).size
  }

  /** Tensor `j` is needed when tensor `i` is placed, and does not meet [o, o + size of i). */
  predicate Clear(b: Block, offs: seq<nat>, j: nat, i: nat, o: nat)
    requires j < |offs|
  {
    i <= LastUse(b, j) ==> End(b, offs, j) <= o || o + b.NodeAt(i).size <= offs[j]
  }

  /** The tensors from `j` up to `i` are clear of [o, o + size of i). */
  predicate ClearFrom(b: Block, offs: seq<nat>, i: nat, o: nat, j: nat)
    requires j <= i <= |offs|
    decreases |offs| - j
  {
    j == i || (Clear(b, offs, j, i, o) && ClearFrom(b, offs, i, o, j + 1))
  }

  lemma {:induction false} ClearAt(b: Block, offs: seq<nat>, i: nat, o: nat, j: nat, k: nat)
    requires j <= k < i <= |offs| && ClearFrom(b, offs, i, o, j)
    ensures Clear(b, offs, k, i, o)
    decreases |offs| - j
  {
    if j < k {
      ClearAt(b, offs, i, o, j + 1, k);
    }
  }

  lemma {:induction false} IsClear(b: Block, offs: seq<nat>, i: nat, o: nat, j: nat)
    requires j <= i <= |offs| && forall k :: 0 <= k < i ==> Clear(b, offs, k, i, o)
    ensures ClearFrom(b, offs, i, o, j)
    decreases |offs| - j
  {
    if j < i {
      IsClear(b, offs, i, o, j + 1);
    }
  }

  /** A tensor is placed no higher than where it is clear of all needed ones. */
  lemma AtMost(b: Block, offs: seq<nat>, i: nat, o: nat)
    requires Planned(b, offs) && i < |offs| && i != b.Final() && b.NodeAt(i).size > 0
    requires ClearFrom(b, offs, i, o, 0)
    ensures offs[i] <= o
  {
    var g := b.Graph();
    assert g[i] == b.NodeAt(i);
    NoAlias(b, i);
    assert LeastFit(g, offs, i, offs[i]);
    forall j | 0 <= j < i && g[j].size > 0 && LiveAt(g, j, i)
      ensures !Meets(o, g[i].size, Span(offs[j], offs[j] + g[j].size))
    {
      LiveIff(b, j, i);
      ClearAt(b, offs, i, o, 0, j);
      assert g[j] == b.NodeAt(j);
    }
    assert Fits(g, offs, i, o);
  }

  lemma NoAlias(b: Block, i: nat)
    requires i < |b.Graph()| && i != b.Final()
    ensures b.Graph()[i].alias.None?
  {
    assert b.Graph()[i] == b.NodeAt(i);
  }

  /** Tensors needed together are apart. */
  lemma Together(b: Block, offs: seq<nat>, j: nat, i: nat)
    requires Planned(b, offs) && j < i < |offs| && i <= LastUse(b, j) && i != b.Final()
    requires b.NodeAt(j).size > 0 && b.NodeAt(i).size > 0
    ensures End(b, offs, j) <= offs[i] || End(b, offs, i) <= offs[j]
  {
    var g := b.Graph();
    assert g[i] == b.NodeAt(i) && g[j] == b.NodeAt(j);
    LiveIff(b, j, i);
    assert WriteSafe(g, offs, i);
    NotInPlace(b, i);
  }

  lemma NotInPlace(b: Block, i: nat)
    requires i < |b.Graph()| && i != b.Final()
    ensures !b.Graph()[i].elementwise
  {
    assert b.Graph()[i] == b.NodeAt(i);
  }

  // ---------------------------------------------------------------------------
  // The attention half
  // ---------------------------------------------------------------------------

  /** The tensors before the feed-forward stage lie where every plan puts them. */
  predicate Slots(b: Block, offs: seq<nat>)
    requires |offs| >= 9
  {
    && offs[0] == 0 && offs[1] == b.s && offs[2] == 2 * b.s && offs[3] == 3 * b.s && offs[4] == 3 * b.s + b.kv
    && offs[5] == b.s && offs[6] == 2 * b.s && offs[7] == b.s && offs[8] == 3 * b.s
  }

  lemma InputSlot(b: Block, offs: seq<nat>)
    requires Planned(b, offs)
    ensures offs[0] == 0
  {
    IsClear(b, offs, 0, 0, 0);
    AtMost(b, offs, 0, 0);
  }

  lemma NormedClear(b: Block, offs: seq<nat>)
    requires |offs| == |b.Graph()| && b.Regular() && b.kv <= b.s && offs[0] == 0
    ensures ClearFrom(b, offs, 1, b.s, 0)
  {
    IsClear(b, offs, 1, b.s, 0);
  }

  lemma NormedSlot(b: Block, offs: seq<nat>)
    requires Planned(b, offs) && offs[0] == 0
    ensures offs[1] == b.s
  {
    NormedClear(b, offs);
    AtMost(b, offs, 1, b.s);
    Together(b, offs, 0, 1);
  }

  lemma QueryClear(b: Block, offs: seq<nat>)
    requires |offs| == |b.Graph()| && b.Regular() && b.kv <= b.s && offs[0] == 0 && offs[1] == b.s
    ensures ClearFrom(b, offs, 2, 2 * b.s, 0)
  {
    IsClear(b, offs, 2, 2 * b.s, 0);
  }

  lemma QuerySlot(b: Block, offs: seq<nat>)
    requires Planned(b, offs) && offs[0] == 0 && offs[1] == b.s
    ensures offs[2] == 2 * b.s
  {
    QueryClear(b, offs);
    AtMost(b, offs, 2, 2 * b.s);
    Together(b, offs, 0, 2);
    Together(b, offs, 1, 2);
  }

  lemma KeyClear(b: Block, offs: seq<nat>)
    requires |offs| == |b.Graph()| && b.Regular() && b.kv <= b.s && offs[0] == 0 && offs[1] == b.s && offs[2] == 2 * b.s
    ensures ClearFrom(b, offs, 3, 3 * b.s, 0)
  {
    IsClear(b, offs, 3, 3 * b.s, 0);
  }

  lemma KeySlot(b: Block, offs: seq<nat>)
    requires Planned(b, offs) && offs[0] == 0 && offs[1] == b.s && offs[2] == 2 * b.s
    ensures offs[3] == 3 * b.s
  {
    KeyClear(b, offs);
    AtMost(b, offs, 3, 3 * b.s);
    Together(b, offs, 0, 3);
    Together(b, offs, 1, 3);
    Together(b, offs, 2, 3);
  }

  lemma ValueClear(b: Block, offs: seq<nat>)
    requires |offs| == |b.Graph()| && b.Regular() && b.kv <= b.s && offs[0] == 0 && offs[1] == b.s && offs[2] == 2 * b.s && offs[3] == 3 * b.s
    ensures ClearFrom(b, offs, 4, 3 * b.s + b.kv, 0)
  {
    IsClear(b, offs, 4, 3 * b.s + b.kv, 0);
  }

  lemma ValueSlot(b: Block, offs: seq<nat>)
    requires Planned(b, offs) && offs[0] == 0 && offs[1] == b.s && offs[2] == 2 * b.s && offs[3] == 3 * b.s
    ensures offs[4] == 3 * b.s + b.kv
  {
    ValueClear(b, offs);
    AtMost(b, offs, 4, 3 * b.s + b.kv);
    Together(b, offs, 0, 4);
    Together(b, offs, 1, 4);
    Together(b, offs, 2, 4);
    Together(b, offs, 3, 4);
  }

  lemma AttentionClear(b: Block, offs: seq<nat>)
    requires |offs| == |b.Graph()| && b.Regular() && b.kv <= b.s && offs[0] == 0 && offs[2] == 2 * b.s && offs[3] == 3 * b.s && offs[4] == 3 * b.s + b.kv
    ensures ClearFrom(b, offs, 5, b.s, 0)
  {
    IsClear(b, offs, 5, b.s, 0);
  }

  lemma AttentionSlot(b: Block, offs: seq<nat>)
    requires Planned(b, offs) && offs[0] == 0 && offs[2] == 2 * b.s && offs[3] == 3 * b.s && offs[4] == 3 * b.s + b.kv
    ensures offs[5] == b.s
  {
    AttentionClear(b, offs);
    AtMost(b, offs, 5, b.s);
    Together(b, offs, 0, 5);
  }

  lemma AttentionOutClear(b: Block, offs: seq<nat>)
    requires |offs| == |b.Graph()| && b.Regular() && b.kv <= b.s && offs[0] == 0 && offs[5] == b.s
    ensures ClearFrom(b, offs, 6, 2 * b.s, 0)
  {
    IsClear(b, offs, 6, 2 * b.s, 0);
  }

  lemma AttentionOutSlot(b: Block, offs: seq<nat>)
    requires Planned(b, offs) && offs[0] == 0 && offs[5] == b.s
    ensures offs[6] == 2 * b.s
  {
    AttentionOutClear(b, offs);
    AtMost(b, offs, 6, 2 * b.s);
    Together(b, offs, 0, 6);
    Together(b, offs, 5, 6);
  }

  lemma SecondNormClear(b: Block, offs: seq<nat>)
    requires |offs| == |b.Graph()| && b.Regular() && b.kv <= b.s && offs[0] == 0 && offs[6] == 2 * b.s
    ensures ClearFrom(b, offs, 7, b.s, 0)
  {
    IsClear(b, offs, 7, b.s, 0);
  }

  lemma SecondNormSlot(b: Block, offs: seq<nat>)
    requires Planned(b, offs) && offs[0] == 0 && offs[6] == 2 * b.s
    ensures offs[7] == b.s
  {
    SecondNormClear(b, offs);
    AtMost(b, offs, 7, b.s);
    Together(b, offs, 0, 7);
  }

  lemma ResidualClear(b: Block, offs: seq<nat>)
    requires |offs| == |b.Graph()| && b.Regular() && b.kv <= b.s && offs[0] == 0 && offs[6] == 2 * b.s && offs[7] == b.s
    ensures ClearFrom(b, offs, 8, 3 * b.s, 0)
  {
    IsClear(b, offs, 8, 3 * b.s, 0);
  }

  lemma ResidualSlot(b: Block, offs: seq<nat>)
    requires Planned(b, offs) && offs[0] == 0 && offs[6] == 2 * b.s && offs[7] == b.s
    ensures offs[8] == 3 * b.s
  {
    ResidualClear(b, offs);
    AtMost(b, offs, 8, 3 * b.s);
    Together(b, offs, 0, 8);
    Together(b, offs, 6, 8);
    Together(b, offs, 7, 8);
  }

  lemma FirstHalfSlots(b: Block, offs: seq<nat>)
    requires Planned(b, offs)
    ensures Slots(b, offs)
  {
    InputSlot(b, offs);
    NormedSlot(b, offs);
    QuerySlot(b, offs);
    KeySlot(b, offs);
    ValueSlot(b, offs);
    AttentionSlot(b, offs);
    AttentionOutSlot(b, offs);
    SecondNormSlot(b, offs);
    ResidualSlot(b, offs);
  }

  // ---------------------------------------------------------------------------
  // The size of the buffer
  // ---------------------------------------------------------------------------

  /** The buffer without the logits. */
  function BodyTotal(b: Block, offs: seq<nat>): nat
    requires |offs| == |b.Graph()|
  {
    Total(b.Graph(), offs, b.Final() + 1)
  }

  lemma BodyHolds(b: Block, offs: seq<nat>, j: nat)
    requires |offs| == |b.Graph()| && j <= b.Final() && b.NodeAt(j).size > 0
    ensures End(b, offs, j) <= BodyTotal(b, offs)
  {
    assert b.Graph()[j] == b.NodeAt(j);
    WithinTotal(b.Graph(), offs, b.Final() + 1, j);
  }

  lemma BodyAtMost(b: Block, offs: seq<nat>, bound: nat)
    requires |offs| == |b.Graph()| && forall j :: 0 <= j <= b.Final() ==> End(b, offs, j) <= bound
    ensures BodyTotal(b, offs) <= bound
  {
    var g := b.Graph();
    forall j | 0 <= j < b.Final() + 1 && g[j].size > 0 ensures offs[j] + g[j].size <= bound {
      assert g[j] == b.NodeAt(j) && End(b, offs, j) <= bound;
    }
    TotalAtMost(g, offs, b.Final() + 1, bound);
  }

  /** What no plan can do without: x, x_normed, q, k and v together, and x, x_normed_2, att_out and
      the residual together. */
  function LeastBody(b: Block): nat { Max(4 * b.s, 3 * b.s + 2 * b.kv) }

  lemma BodyAtLeast(b: Block, offs: seq<nat>)
    requires Planned(b, offs)
    ensures BodyTotal(b, offs) >= LeastBody(b)
  {
    FirstHalfSlots(b, offs);
    SlotsAtLeast(b, offs);
  }

  lemma SlotsAtLeast(b: Block, offs: seq<nat>)
    requires |offs| == |b.Graph()| && b.Regular() && Slots(b, offs)
    ensures BodyTotal(b, offs) >= LeastBody(b)
  {
    BodyHolds(b, offs, 4);
    BodyHolds(b, offs, 8);
  }

  /** final_output is the only tensor needed when the logits are placed, so they lie behind it,
      and the whole buffer is the larger of two independent parts. */
  lemma LogitsClear(b: Block, offs: seq<nat>)
    requires |offs| == |b.Graph()| && offs[b.Final()] == 0
    ensures ClearFrom(b, offs, b.Final() + 1, b.s, 0)
  {
    IsClear(b, offs, b.Final() + 1, b.s, 0);
  }

  lemma LogitsSlot(b: Block, offs: seq<nat>)
    requires Planned(b, offs) && b.logits > 0
    ensures offs[b.Final() + 1] == b.s
  {
    var f := b.Final();
    FinalSlot(b, offs);
    LogitsClear(b, offs);
    AtMost(b, offs, f + 1, b.s);
    Together(b, offs, f, f + 1);
  }

  lemma TotalIsTwoParts(b: Block, offs: seq<nat>)
    requires Planned(b, offs)
    ensures Total(b.Graph(), offs, |b.Graph()|) == Max(BodyTotal(b, offs), if b.logits > 0 then b.s + b.logits else 0)
  {
    var f := b.Final();
    assert b.Graph()[f + 1] == b.NodeAt(f + 1);
    if b.logits > 0 {
      LogitsSlot(b, offs);
    }
  }

  /** The body does not depend on the logits. */
  lemma BodyWithoutLogits(b: Block, c: Block, p: seq<nat>, q: seq<nat>)
    requires c == b.(logits := c.logits)
    requires IsPlan(b.Graph(), p, |b.Graph()|) && IsPlan(c.Graph(), q, |c.Graph()|)
    ensures BodyTotal(b, p) == BodyTotal(c, q)
  {
    var g, h, n := b.Graph(), c.Graph(), b.Final() + 1;
    forall k | 0 <= k < |g| ensures g[k].inputs == h[k].inputs && g[k].alias == h[k].alias && (k < n ==> g[k].size == h[k].size) {
      assert g[k] == b.NodeAt(k) && h[k] == c.NodeAt(k);
    }
    SamePlan(g, h, p, q, n, n);
    SameTotal(g, h, p, q, n, n);
  }

  // ---------------------------------------------------------------------------
  // Three kinds of blocks
  // ---------------------------------------------------------------------------

  lemma FinalSlot(b: Block, offs: seq<nat>)
    requires Planned(b, offs)
    ensures offs[b.Final()] == 0
  {
    BlockPlanSafe(b, offs);
  }

  /** The scratch of an uncut block is too large for the gaps below the residual. */
  predicate LargeUncut(b: Block) { !b.chunked && b.t1 > b.s && b.t2 > if b.moe then 3 * b.s else b.s }

  /** The first scratch tensor, if larger than a model tensor, goes behind the residual. */
  lemma FirstScratchBehind(b: Block, offs: seq<nat>)
    requires Planned(b, offs) && b.t1 > b.s && offs[7] == b.s && offs[8] == 3 * b.s
    ensures offs[9] >= 4 * b.s
  {
    Together(b, offs, 7, 9);
    Together(b, offs, 8, 9);
  }

  lemma FirstScratchClear(b: Block, offs: seq<nat>)
    requires |offs| == |b.Graph()| && b.Regular() && b.kv <= b.s && Slots(b, offs)
    ensures ClearFrom(b, offs, 9, 4 * b.s, 0)
  {
    IsClear(b, offs, 9, 4 * b.s, 0);
  }

  lemma FirstScratchPlaced(b: Block, offs: seq<nat>)
    requires Planned(b, offs) && ClearFrom(b, offs, 9, 4 * b.s, 0)
    ensures offs[9] <= 4 * b.s
  {
    AtMost(b, offs, 9, 4 * b.s);
  }

  lemma SecondScratchBehind(b: Block, offs: seq<nat>)
    requires Planned(b, offs) && LargeUncut(b) && offs[7] == b.s && offs[8] == 3 * b.s && offs[9] == 4 * b.s
    ensures offs[10] >= 4 * b.s + b.t1
  {
    Together(b, offs, 8, 10);
    if !b.moe {
      Together(b, offs, 7, 10);
    }
    Together(b, offs, 9, 10);
  }

  /** Then two scratch tensors are stacked behind the residual. */
  lemma UncutBody(b: Block, offs: seq<nat>)
    requires Planned(b, offs) && LargeUncut(b)
    ensures BodyTotal(b, offs) >= 4 * b.s + b.t1 + b.t2
  {
    FirstHalfSlots(b, offs);
    FirstScratchBehind(b, offs);
    FirstScratchClear(b, offs);
    FirstScratchPlaced(b, offs);
    SecondScratchBehind(b, offs);
    UncutAtLeast(b, offs);
  }

  lemma UncutAtLeast(b: Block, offs: seq<nat>)
    requires |offs| == |b.Graph()| && LargeUncut(b) && offs[10] >= 4 * b.s + b.t1
    ensures BodyTotal(b, offs) >= 4 * b.s + b.t1 + b.t2
  {
    BodyHolds(b, offs, 10);
  }

  /** Every scratch tensor of a chunked block is larger than a model tensor. */
  predicate LargeChunks(b: Block) { b.chunked && b.t1 > b.s && b.t2 > b.s && b.t3 > b.s }

  predicate LargeSlots(b: Block, offs: seq<nat>)
    requires |offs| >= 12
  {
    Slots(b, offs) && offs[9] == 4 * b.s && offs[10] == 4 * b.s + b.t1 && offs[11] == 4 * b.s + b.t1 + b.t2
  }

  /** Then all three are stacked behind the residual, and the output goes in front of it. */
  lemma LargeScratchSlots(b: Block, offs: seq<nat>)
    requires Planned(b, offs) && LargeChunks(b)
    ensures LargeSlots(b, offs)
  {
    FirstHalfSlots(b, offs);
    FirstScratchClear(b, offs);
    FirstScratchPlaced(b, offs);
    FirstScratchBehind(b, offs);
    MiddleScratchSlot(b, offs);
    LastScratchSlot(b, offs);
  }

  lemma MiddleClear(b: Block, offs: seq<nat>)
    requires |offs| == |b.Graph()| && b.Regular() && b.kv <= b.s && LargeChunks(b) && Slots(b, offs) && offs[9] == 4 * b.s
    ensures ClearFrom(b, offs, 10, 4 * b.s + b.t1, 0)
  {
    IsClear(b, offs, 10, 4 * b.s + b.t1, 0);
  }

  lemma MiddleScratchPlaced(b: Block, offs: seq<nat>)
    requires Planned(b, offs) && LargeChunks(b) && ClearFrom(b, offs, 10, 4 * b.s + b.t1, 0)
    ensures offs[10] <= 4 * b.s + b.t1
  {
    AtMost(b, offs, 10, 4 * b.s + b.t1);
  }

  lemma MiddleScratchSlot(b: Block, offs: seq<nat>)
    requires Planned(b, offs) && LargeChunks(b) && Slots(b, offs) && offs[9] == 4 * b.s
    ensures offs[10] == 4 * b.s + b.t1
  {
    MiddleClear(b, offs);
    MiddleScratchPlaced(b, offs);
    MiddleBehind(b, offs);
  }

  lemma MiddleBehind(b: Block, offs: seq<nat>)
    requires Planned(b, offs) && LargeChunks(b) && offs[7] == b.s && offs[8] == 3 * b.s && offs[9] == 4 * b.s
    ensures offs[10] >= 4 * b.s + b.t1
  {
    Together(b, offs, 7, 10);
    Together(b, offs, 8, 10);
    Together(b, offs, 9, 10);
  }

  lemma LastClear(b: Block, offs: seq<nat>)
    requires |offs| == |b.Graph()| && b.Regular() && b.kv <= b.s && LargeChunks(b) && Slots(b, offs) && offs[9] == 4 * b.s && offs[10] == 4 * b.s + b.t1
    ensures ClearFrom(b, offs, 11, 4 * b.s + b.t1 + b.t2, 0)
  {
    IsClear(b, offs, 11, 4 * b.s + b.t1 + b.t2, 0);
  }

  lemma LastScratchPlaced(b: Block, offs: seq<nat>)
    requires Planned(b, offs) && LargeChunks(b) && ClearFrom(b, offs, 11, 4 * b.s + b.t1 + b.t2, 0)
    ensures offs[11] <= 4 * b.s + b.t1 + b.t2
  {
    AtMost(b, offs, 11, 4 * b.s + b.t1 + b.t2);
  }

  lemma LastScratchSlot(b: Block, offs: seq<nat>)
    requires Planned(b, offs) && LargeChunks(b) && Slots(b, offs) && offs[9] == 4 * b.s && offs[10] == 4 * b.s + b.t1
    ensures offs[11] == 4 * b.s + b.t1 + b.t2
  {
    LastClear(b, offs);
    LastScratchPlaced(b, offs);
    LastBehind(b, offs);
  }

  lemma LastBehind(b: Block, offs: seq<nat>)
    requires Planned(b, offs) && LargeChunks(b) && offs[7] == b.s && offs[8] == 3 * b.s && offs[9] == 4 * b.s && offs[10] == 4 * b.s + b.t1
    ensures offs[11] >= 4 * b.s + b.t1 + b.t2
  {
    Together(b, offs, 7, 11);
    Together(b, offs, 8, 11);
    Together(b, offs, 9, 11);
    Together(b, offs, 10, 11);
  }

  lemma LargeOutputClear(b: Block, offs: seq<nat>)
    requires |offs| == |b.Graph()| && b.Regular() && b.kv <= b.s && LargeChunks(b) && LargeSlots(b, offs)
    ensures ClearFrom(b, offs, 12, 0, 0)
  {
    IsClear(b, offs, 12, 0, 0);
  }

  lemma LargeOutputPlaced(b: Block, offs: seq<nat>)
    requires Planned(b, offs) && LargeChunks(b) && ClearFrom(b, offs, 12, 0, 0)
    ensures offs[12] <= 0
  {
    AtMost(b, offs, 12, 0);
  }

  lemma LargeOutputSlot(b: Block, offs: seq<nat>)
    requires Planned(b, offs) && LargeChunks(b) && LargeSlots(b, offs)
    ensures offs[12] == 0
  {
    LargeOutputClear(b, offs);
    LargeOutputPlaced(b, offs);
  }

  lemma LargeFirstBarrierClear(b: Block, offs: seq<nat>)
    requires |offs| == |b.Graph()| && b.Regular() && b.kv <= b.s && LargeChunks(b) && LargeSlots(b, offs) && offs[12] == 0
    ensures ClearFrom(b, offs, 13, 2 * b.s, 0)
  {
    IsClear(b, offs, 13, 2 * b.s, 0);
  }

  lemma LargeFirstBarrierPlaced(b: Block, offs: seq<nat>)
    requires Planned(b, offs) && LargeChunks(b) && ClearFrom(b, offs, 13, 2 * b.s, 0)
    ensures offs[13] <= 2 * b.s
  {
    AtMost(b, offs, 13, 2 * b.s);
  }

  lemma LargeFirstBarrier(b: Block, offs: seq<nat>)
    requires Planned(b, offs) && LargeChunks(b) && LargeSlots(b, offs) && offs[12] == 0
    ensures offs[13] <= 2 * b.s
  {
    LargeFirstBarrierClear(b, offs);
    LargeFirstBarrierPlaced(b, offs);
  }

  lemma LargeSecondBarrierClear(b: Block, offs: seq<nat>)
    requires |offs| == |b.Graph()| && b.Regular() && b.kv <= b.s && LargeChunks(b) && LargeSlots(b, offs) && offs[12] == 0
    ensures ClearFrom(b, offs, 14, 2 * b.s, 0)
  {
    IsClear(b, offs, 14, 2 * b.s, 0);
  }

  lemma LargeSecondBarrierPlaced(b: Block, offs: seq<nat>)
    requires Planned(b, offs) && LargeChunks(b) && ClearFrom(b, offs, 14, 2 * b.s, 0)
    ensures offs[14] <= 2 * b.s
  {
    AtMost(b, offs, 14, 2 * b.s);
  }

  lemma LargeSecondBarrier(b: Block, offs: seq<nat>)
    requires Planned(b, offs) && LargeChunks(b) && LargeSlots(b, offs) && offs[12] == 0
    ensures offs[14] <= 2 * b.s
  {
    LargeSecondBarrierClear(b, offs);
    LargeSecondBarrierPlaced(b, offs);
  }

  lemma LargeEnd(b: Block, offs: seq<nat>, j: nat)
    requires |offs| == |b.Graph()| && b.Regular() && b.kv <= b.s && LargeChunks(b) && LargeSlots(b, offs) && j <= b.Final()
    requires offs[12] == 0 && offs[13] <= 2 * b.s && offs[14] <= 2 * b.s && offs[15] == 0
    ensures End(b, offs, j) <= 4 * b.s + b.t1 + b.t2 + b.t3
  {
  }

  lemma LargeBodyAtLeast(b: Block, offs: seq<nat>)
    requires |offs| == |b.Graph()| && LargeChunks(b) && LargeSlots(b, offs)
    ensures BodyTotal(b, offs) >= 4 * b.s + b.t1 + b.t2 + b.t3
  {
    BodyHolds(b, offs, 11);
  }

  lemma LargeBodyAtMost(b: Block, offs: seq<nat>)
    requires |offs| == |b.Graph()| && b.Regular() && b.kv <= b.s && LargeChunks(b) && LargeSlots(b, offs)
    requires offs[12] == 0 && offs[13] <= 2 * b.s && offs[14] <= 2 * b.s && offs[15] == 0
    ensures BodyTotal(b, offs) <= 4 * b.s + b.t1 + b.t2 + b.t3
  {
    var bound := 4 * b.s + b.t1 + b.t2 + b.t3;
    forall j | 0 <= j <= b.Final() ensures End(b, offs, j) <= bound {
      LargeEnd(b, offs, j);
    }
    BodyAtMost(b, offs, bound);
  }

  lemma LargeChunksBody(b: Block, offs: seq<nat>)
    requires Planned(b, offs) && LargeChunks(b)
    ensures BodyTotal(b, offs) == 4 * b.s + b.t1 + b.t2 + b.t3
  {
    LargeScratchSlots(b, offs);
    LargeOutputSlot(b, offs);
    LargeFirstBarrier(b, offs);
    LargeSecondBarrier(b, offs);
    FinalSlot(b, offs);
    LargeBodyAtLeast(b, offs);
    LargeBodyAtMost(b, offs);
  }

  /** The scratch of a chunked block together is no larger than k. */
  predicate SmallChunks(b: Block) { b.chunked && b.t1 + b.t2 + b.t3 <= b.kv }

  predicate SmallSlots(b: Block, offs: seq<nat>)
    requires |offs| >= 13
  {
    Slots(b, offs) && offs[9] == 0 && offs[10] <= b.t1 && offs[11] <= b.t1 + b.t2 && offs[12] == 2 * b.s
  }

  lemma SmallFirstClear(b: Block, offs: seq<nat>)
    requires |offs| == |b.Graph()| && b.Regular() && b.kv <= b.s && SmallChunks(b) && Slots(b, offs)
    ensures ClearFrom(b, offs, 9, 0, 0)
  {
    IsClear(b, offs, 9, 0, 0);
  }

  /** Then all of the stage fits between the tensors of the attention half. */
  lemma SmallFirstScratchPlaced(b: Block, offs: seq<nat>)
    requires Planned(b, offs) && SmallChunks(b) && ClearFrom(b, offs, 9, 0, 0)
    ensures offs[9] <= 0
  {
    AtMost(b, offs, 9, 0);
  }

  lemma SmallFirstScratch(b: Block, offs: seq<nat>)
    requires Planned(b, offs) && SmallChunks(b) && Slots(b, offs)
    ensures offs[9] == 0
  {
    SmallFirstClear(b, offs);
    SmallFirstScratchPlaced(b, offs);
  }

  lemma SmallMiddleClear(b: Block, offs: seq<nat>)
    requires |offs| == |b.Graph()| && b.Regular() && b.kv <= b.s && SmallChunks(b) && Slots(b, offs) && offs[9] == 0
    ensures ClearFrom(b, offs, 10, b.t1, 0)
  {
    IsClear(b, offs, 10, b.t1, 0);
  }

  lemma SmallLastClear(b: Block, offs: seq<nat>)
    requires |offs| == |b.Graph()| && b.Regular() && b.kv <= b.s && SmallChunks(b) && Slots(b, offs) && offs[9] == 0 && offs[10] <= b.t1
    ensures ClearFrom(b, offs, 11, b.t1 + b.t2, 0)
  {
    IsClear(b, offs, 11, b.t1 + b.t2, 0);
  }

  lemma SmallMiddleScratchPlaced(b: Block, offs: seq<nat>)
    requires Planned(b, offs) && SmallChunks(b) && ClearFrom(b, offs, 10, b.t1, 0)
    ensures offs[10] <= b.t1
  {
    AtMost(b, offs, 10, b.t1);
  }

  lemma SmallMiddleScratch(b: Block, offs: seq<nat>)
    requires Planned(b, offs) && SmallChunks(b) && Slots(b, offs) && offs[9] == 0
    ensures offs[10] <= b.t1
  {
    SmallMiddleClear(b, offs);
    SmallMiddleScratchPlaced(b, offs);
  }

  lemma SmallLastScratchPlaced(b: Block, offs: seq<nat>)
    requires Planned(b, offs) && SmallChunks(b) && ClearFrom(b, offs, 11, b.t1 + b.t2, 0)
    ensures offs[11] <= b.t1 + b.t2
  {
    AtMost(b, offs, 11, b.t1 + b.t2);
  }

  lemma SmallLastScratch(b: Block, offs: seq<nat>)
    requires Planned(b, offs) && SmallChunks(b) && Slots(b, offs) && offs[9] == 0 && offs[10] <= b.t1
    ensures offs[11] <= b.t1 + b.t2
  {
    SmallLastClear(b, offs);
    SmallLastScratchPlaced(b, offs);
  }

  lemma SmallOutputClear(b: Block, offs: seq<nat>)
    requires |offs| == |b.Graph()| && b.Regular() && b.kv <= b.s && SmallChunks(b) && Slots(b, offs) && offs[9] == 0 && offs[10] <= b.t1 && offs[11] <= b.t1 + b.t2
    ensures ClearFrom(b, offs, 12, 2 * b.s, 0)
  {
    IsClear(b, offs, 12, 2 * b.s, 0);
  }

  lemma SmallOutputPlaced(b: Block, offs: seq<nat>)
    requires Planned(b, offs) && SmallChunks(b) && ClearFrom(b, offs, 12, 2 * b.s, 0)
    ensures offs[12] <= 2 * b.s
  {
    AtMost(b, offs, 12, 2 * b.s);
  }

  lemma SmallOutput(b: Block, offs: seq<nat>)
    requires Planned(b, offs) && SmallChunks(b) && Slots(b, offs) && offs[9] == 0 && offs[10] <= b.t1 && offs[11] <= b.t1 + b.t2
    ensures offs[12] == 2 * b.s
  {
    SmallOutputClear(b, offs);
    SmallOutputPlaced(b, offs);
    SmallOutputBehind(b, offs);
  }

  lemma SmallOutputBehind(b: Block, offs: seq<nat>)
    requires Planned(b, offs) && SmallChunks(b) && offs[7] == b.s && offs[9] == 0
    ensures offs[12] >= 2 * b.s
  {
    Together(b, offs, 7, 12);
    Together(b, offs, 9, 12);
  }

  lemma SmallFirstBarrierClear(b: Block, offs: seq<nat>)
    requires |offs| == |b.Graph()| && b.Regular() && b.kv <= b.s && SmallChunks(b) && SmallSlots(b, offs)
    ensures ClearFrom(b, offs, 13, if b.kv < b.s then b.t1 + b.t2 + b.t3 else 4 * b.s, 0)
  {
    IsClear(b, offs, 13, if b.kv < b.s then b.t1 + b.t2 + b.t3 else 4 * b.s, 0);
  }

  lemma SmallFirstBarrierPlaced(b: Block, offs: seq<nat>)
    requires Planned(b, offs) && SmallChunks(b) && ClearFrom(b, offs, 13, if b.kv < b.s then b.t1 + b.t2 + b.t3 else 4 * b.s, 0)
    ensures offs[13] <= if b.kv < b.s then b.t1 + b.t2 + b.t3 else 4 * b.s
  {
    AtMost(b, offs, 13, if b.kv < b.s then b.t1 + b.t2 + b.t3 else 4 * b.s);
  }

  lemma SmallFirstBarrier(b: Block, offs: seq<nat>)
    requires Planned(b, offs) && SmallChunks(b) && SmallSlots(b, offs)
    ensures offs[13] + 1 <= LeastBody(b)
  {
    SmallFirstBarrierClear(b, offs);
    SmallFirstBarrierPlaced(b, offs);
  }

  lemma SmallSecondBarrierClear(b: Block, offs: seq<nat>)
    requires |offs| == |b.Graph()| && b.Regular() && b.kv <= b.s && SmallChunks(b) && SmallSlots(b, offs)
    ensures ClearFrom(b, offs, 14, 0, 0)
  {
    IsClear(b, offs, 14, 0, 0);
  }

  lemma SmallSecondBarrierPlaced(b: Block, offs: seq<nat>)
    requires Planned(b, offs) && SmallChunks(b) && ClearFrom(b, offs, 14, 0, 0)
    ensures offs[14] <= 0
  {
    AtMost(b, offs, 14, 0);
  }

  lemma SmallSecondBarrier(b: Block, offs: seq<nat>)
    requires Planned(b, offs) && SmallChunks(b) && SmallSlots(b, offs)
    ensures offs[14] == 0
  {
    SmallSecondBarrierClear(b, offs);
    SmallSecondBarrierPlaced(b, offs);
  }

  lemma SmallEnd(b: Block, offs: seq<nat>, j: nat)
    requires |offs| == |b.Graph()| && b.Regular() && b.kv <= b.s && SmallChunks(b) && SmallSlots(b, offs) && j <= b.Final()
    requires offs[13] + 1 <= LeastBody(b) && offs[14] == 0 && offs[15] == 0
    ensures End(b, offs, j) <= LeastBody(b)
  {
  }

  lemma SmallBodyAtMost(b: Block, offs: seq<nat>)
    requires |offs| == |b.Graph()| && b.Regular() && b.kv <= b.s && SmallChunks(b) && SmallSlots(b, offs)
    requires offs[13] + 1 <= LeastBody(b) && offs[14] == 0 && offs[15] == 0
    ensures BodyTotal(b, offs) <= LeastBody(b)
  {
    var bound := LeastBody(b);
    forall j | 0 <= j <= b.Final() ensures End(b, offs, j) <= bound {
      SmallEnd(b, offs, j);
    }
    BodyAtMost(b, offs, bound);
  }

  lemma SmallChunksBody(b: Block, offs: seq<nat>)
    requires Planned(b, offs) && SmallChunks(b)
    ensures BodyTotal(b, offs) == LeastBody(b)
  {
    FirstHalfSlots(b, offs);
    SmallFirstScratch(b, offs);
    SmallMiddleScratch(b, offs);
    SmallLastScratch(b, offs);
    SmallOutput(b, offs);
    SmallFirstBarrier(b, offs);
    SmallSecondBarrier(b, offs);
    FinalSlot(b, offs);
    BodyAtLeast(b, offs);
    SmallBodyAtMost(b, offs);
  }
}
