/** The block graphs of vllm/v1/worker/graph_builder.py for LLaDA, Dream and LLaDA-MoE, plain
    and chunked, and the proof that the reuse plan of each of them is safe for every number of
    tokens and every chunking, although `final_output` is forced onto the memory of `x`. */
module BlockGraphs {
  import opened Arith
  import opened Wrappers
  import opened ReusePlan

  /** Sizes in bytes of the tensors of a block: `s` for a model row per token (x, x_normed, q,
      att_tmp, att_out, x_normed_2, residual, the MLP or MoE output and final_output), `kv` for
      k and v, `t1`, `t2`, `t3` for the three scratch tensors of the feed-forward stage, and
      `logits`.  `moe` selects how the scratch tensors feed each other; `chunked` adds the two
      barrier nodes that keep the scratch and x_normed_2 alive across the tile loop. */
  datatype Block = Block(moe: bool, chunked: bool, s: nat, kv: nat, t1: nat, t2: nat, t3: nat, logits: nat) {
    /** Position of final_output. */
    function Final(): nat { if chunked then 15 else 13 }

    function NodeAt(i: int): Node {
      if i <= 0 then Node([], s, None, false)                            // x
      else if i == 1 then Node([0], s, None, false)                      // x_normed
      else if i == 2 then Node([1], s, None, false)                      // q
      else if i == 3 then Node([1], kv, None, false)                     // k
      else if i == 4 then Node([1], kv, None, false)                     // v
      else if i == 5 then Node([2, 3, 4], s, None, false)                // att_tmp
      else if i == 6 then Node([5], s, None, false)                      // att_out
      else if i == 7 then Node([0, 6], s, None, false)                   // x_normed_2
      else if i == 8 then Node([0, 6], s, None, false)                   // residual
      else if i == 9 then Node([7], t1, None, false)                     // mlp_x, x_gate, moe_cache1
      else if i == 10 then Node([if moe then 9 else 7], t2, None, false) // mlp_x_up, x_up, moe_cache2
      else if i == 11 then
        Node(if moe then [10] else [9, 10], t3, None, false)             // mlp_gated, x_mlp, moe_cache3
      else if i == 12 then Node([11], s, None, false)                    // mlp_output, moe_output
      else if chunked && i == 13 then Node([9, 10, 11, 12], 1, None, false) // loop hazard barrier
      else if chunked && i == 14 then Node([7], 1, None, false)          // x_normed_2 barrier
      else if i == Final() then Node([8, 12], s, Some(0), true)          // final_output, aliased to x
      else Node([Final()], logits, None, false)                          // logits
    }

    function Graph(): Graph { seq(Final() + 2, i => NodeAt(i)) }

    /** All tensors are present; without chunking, the last scratch tensor is at least as
        large as a model row. */
    predicate Regular() {
      s > 0 && kv > 0 && t1 > 0 && t2 > 0 && t3 > 0 && (chunked || t3 >= s)
    }
  }

  lemma Reads(b: Block, j: nat, m: nat)
    requires m < |b.Graph()| && j in b.NodeAt(m).inputs
    ensures j in b.Graph()[m].inputs
  {
  }

  /** Node `m` at or after `k` keeps `j` alive at `k`. */
  lemma KeptBy(b: Block, j: nat, k: nat, m: nat)
    requires k <= m < |b.Graph()| && j in b.NodeAt(m).inputs
    ensures LiveAt(b.Graph(), j, k)
  {
    Reads(b, j, m);
  }

  /** The graph is well formed: nodes read earlier tensors, and the one alias is resolved. */
  lemma WellBuilt(b: Block)
    ensures WellFormed(b.Graph())
    ensures AliasesResolved(b.Graph())
  {
  }

  /** What is dead when: x_normed after the projections, att_tmp after the output projection. */
  lemma DeadTensors(b: Block)
    ensures !LiveAt(b.Graph(), 1, 5) && !LiveAt(b.Graph(), 5, 7)
  {
  }

  /** At the node after the scratch, only the residual, the last scratch tensor and, if
      chunked, the other scratch tensors and x_normed_2 are alive. */
  lemma AliveAtOutput(b: Block, j: nat)
    requires !b.chunked && j < 12 && LiveAt(b.Graph(), j, 12)
    ensures j == 8 || j == 11
  {
    var m :| 12 <= m < |b.Graph()| && j in b.Graph()[m].inputs;
    assert b.Graph()[m] == b.NodeAt(m);
  }

  lemma AliveAtFinal(b: Block, j: nat)
    requires j < b.Final() && LiveAt(b.Graph(), j, b.Final())
    ensures j == 8 || j == 12
  {
    var m :| b.Final() <= m < |b.Graph()| && j in b.Graph()[m].inputs;
    assert b.Graph()[m] == b.NodeAt(m);
  }

  /** Tensors that are needed together, up to the node before the alias. */
  lemma TogetherApart(b: Block, offs: seq<nat>, j: nat, k: nat, m: nat)
    requires |offs| == |b.Graph()| && Safe(b.Graph(), offs, b.Final())
    requires j < k < b.Final() && k <= m < |b.Graph()| && j in b.NodeAt(m).inputs
    requires b.NodeAt(j).size > 0 && b.NodeAt(k).size > 0
    ensures Apart(b.Graph(), offs, j, k)
  {
    KeptBy(b, j, k, m);
    assert WriteSafe(b.Graph(), offs, k);
  }

  /** A tensor that fits right behind x, while x is needed, is placed there. */
  lemma PlacedBehindX(b: Block, offs: seq<nat>, i: nat)
    requires |offs| == |b.Graph()| && 0 < i < b.Final() && offs[0] == 0 && b.NodeAt(i).size > 0 && b.s > 0
    requires ScannedLeast(b.Graph(), offs, b.Final()) && Fits(b.Graph(), offs, i, b.s) && LiveAt(b.Graph(), 0, i)
    ensures offs[i] == b.s
  {
    var g := b.Graph();
    assert g[0] == b.NodeAt(0) && g[i] == b.NodeAt(i);
    assert LeastFit(g, offs, i, offs[i]);
    assert !Meets(offs[i], g[i].size, Span(offs[0], offs[0] + g[0].size));
  }

  /** The slot [s, 2s) fits tensor `i` when no tensor but x that is still needed reaches into it. */
  lemma FitsBehindX(b: Block, offs: seq<nat>, i: nat)
    requires |offs| == |b.Graph()| && 0 < i < b.Final() && offs[0] == 0 && b.NodeAt(i).size == b.s
    requires forall j :: 1 <= j < i && LiveAt(b.Graph(), j, i) ==> offs[j] >= 2 * b.s
    ensures Fits(b.Graph(), offs, i, b.s)
  {
    var g := b.Graph();
    assert g[i] == b.NodeAt(i) && g[0] == b.NodeAt(0);
  }

  /** A tensor alive together with x at 0 and a tensor at [s, 2s) lies behind both. */
  lemma BehindBoth(b: Block, offs: seq<nat>, mid: nat, k: nat, m: nat)
    requires |offs| == |b.Graph()| && Safe(b.Graph(), offs, b.Final()) && b.Regular()
    requires 1 <= mid < k <= 8 && k <= m < |b.Graph()| && mid in b.NodeAt(m).inputs
    requires offs[0] == 0 && offs[mid] == b.s && b.NodeAt(mid).size == b.s
    ensures offs[k] >= 2 * b.s
  {
    var g := b.Graph();
    assert g[0] == b.NodeAt(0) && g[k] == b.NodeAt(k) && g[mid] == b.NodeAt(mid);
    TogetherApart(b, offs, 0, k, 8);
    TogetherApart(b, offs, mid, k, m);
  }

  /** x sits at 0 and x_normed right behind it. */
  lemma FirstSlots(b: Block, offs: seq<nat>)
    requires |offs| == |b.Graph()| && b.Regular() && ScannedLeast(b.Graph(), offs, b.Final())
    ensures offs[0] == 0 && offs[1] == b.s
  {
    var g := b.Graph();
    assert g[0] == b.NodeAt(0);
    assert LeastFit(g, offs, 0, offs[0]) && Fits(g, offs, 0, 0);
    KeptBy(b, 0, 1, 8);
    FitsBehindX(b, offs, 1);
    PlacedBehindX(b, offs, 1);
  }

  /** att_tmp takes the place of x_normed. */
  lemma AttentionSlot(b: Block, offs: seq<nat>)
    requires |offs| == |b.Graph()| && b.Regular() && Safe(b.Graph(), offs, b.Final())
    requires ScannedLeast(b.Graph(), offs, b.Final()) && offs[0] == 0 && offs[1] == b.s
    ensures offs[5] == b.s && offs[2] >= 2 * b.s && offs[3] >= 2 * b.s && offs[4] >= 2 * b.s
  {
    BehindBoth(b, offs, 1, 2, 4);
    BehindBoth(b, offs, 1, 3, 4);
    BehindBoth(b, offs, 1, 4, 4);
    DeadTensors(b);
    KeptBy(b, 0, 5, 8);
    FitsBehindX(b, offs, 5);
    PlacedBehindX(b, offs, 5);
  }

  /** x_normed_2 takes the place of att_tmp; the residual lies behind both. */
  lemma NormSlot(b: Block, offs: seq<nat>)
    requires |offs| == |b.Graph()| && b.Regular() && Safe(b.Graph(), offs, b.Final())
    requires ScannedLeast(b.Graph(), offs, b.Final())
    ensures offs[0] == 0 && offs[7] == b.s && offs[8] >= 2 * b.s
  {
    FirstSlots(b, offs);
    AttentionSlot(b, offs);
    BehindBoth(b, offs, 5, 6, 6);
    DeadTensors(b);
    KeptBy(b, 0, 7, 8);
    FitsBehindX(b, offs, 7);
    PlacedBehindX(b, offs, 7);
    BehindBoth(b, offs, 7, 8, 9);
  }

  /** The output of the feed-forward stage lies exactly over x, or behind it. */
  lemma OutputSlot(b: Block, offs: seq<nat>)
    requires |offs| == |b.Graph()| && b.Regular() && Safe(b.Graph(), offs, b.Final())
    requires ScannedLeast(b.Graph(), offs, b.Final())
    requires offs[7] == b.s && offs[8] >= 2 * b.s
    ensures offs[12] == 0 || offs[12] >= b.s
  {
    var g := b.Graph();
    assert g[12] == b.NodeAt(12);
    if b.chunked {
      assert g[7] == b.NodeAt(7);
      TogetherApart(b, offs, 7, 12, 14);
    } else if offs[12] > 0 {
      PlainOutputSlot(b, offs);
    }
  }

  /** Without chunking the output touches the residual or the last scratch tensor. */
  lemma OutputNeighbour(b: Block, offs: seq<nat>) returns (j: nat)
    requires |offs| == |b.Graph()| && b.Regular() && !b.chunked && LeastFit(b.Graph(), offs, 12, offs[12]) && offs[12] > 0
    ensures (j == 8 || j == 11) && offs[j] + b.NodeAt(j).size == offs[12]
  {
    var g := b.Graph();
    assert g[12] == b.NodeAt(12);
    LeastFitTouches(g, offs, 12, offs[12]);
    j :| 0 <= j < 12 && g[j].size > 0 && LiveAt(g, j, 12) && offs[j] + g[j].size == offs[12];
    assert g[j] == b.NodeAt(j);
    AliveAtOutput(b, j);
  }

  lemma PlainOutputSlot(b: Block, offs: seq<nat>)
    requires |offs| == |b.Graph()| && b.Regular() && !b.chunked && ScannedLeast(b.Graph(), offs, b.Final())
    requires offs[8] >= 2 * b.s && offs[12] > 0
    ensures offs[12] >= b.s
  {
    assert b.Graph()[12] == b.NodeAt(12);
    var j := OutputNeighbour(b, offs);
  }

  /** Forcing final_output onto x destroys nothing: the residual is elsewhere, and the output
      of the feed-forward stage is elsewhere or exactly there, where the addition may
      overwrite it element by element. */
  lemma FinalIsSafe(b: Block, offs: seq<nat>)
    requires IsPlan(b.Graph(), offs, |b.Graph()|) && b.Regular()
    requires Safe(b.Graph(), offs, b.Final()) && ScannedLeast(b.Graph(), offs, b.Final())
    ensures WriteSafe(b.Graph(), offs, b.Final()) && offs[b.Final()] == offs[0] == 0
    ensures offs[12] == 0 || offs[12] >= b.s
  {
    var g := b.Graph();
    var f := b.Final();
    assert g[f] == b.NodeAt(f) && g[8] == b.NodeAt(8) && g[12] == b.NodeAt(12);
    NormSlot(b, offs);
    OutputSlot(b, offs);
    AliasOffset(g, offs, f);
    LandsSafely(b, offs);
  }

  lemma LandsSafely(b: Block, offs: seq<nat>)
    requires |offs| == |b.Graph()| && offs[b.Final()] == 0 && offs[8] >= b.s && (offs[12] == 0 || offs[12] >= b.s)
    ensures WriteSafe(b.Graph(), offs, b.Final())
  {
    var g := b.Graph();
    var f := b.Final();
    assert g[f] == b.NodeAt(f) && g[8] == b.NodeAt(8) && g[12] == b.NodeAt(12);
    OutputDies(b);
    forall j | 0 <= j < f && LiveAt(g, j, f) ensures Apart(g, offs, j, f) || InPlace(g, offs, j, f) {
      AliveAtFinal(b, j);
    }
  }

  lemma OutputDies(b: Block)
    ensures !LiveAt(b.Graph(), 12, b.Final() + 1)
  {
  }

  /** Main theorem: the plan of every block, for any sizes, chunked or not, is safe over the
      whole graph, and final_output lies exactly over x. */
  lemma BlockPlanSafe(b: Block, offs: seq<nat>)
    requires IsPlan(b.Graph(), offs, |b.Graph()|) && b.Regular()
    ensures Safe(b.Graph(), offs, |b.Graph()|)
    ensures offs[b.Final()] == offs[0] == 0
    ensures offs[12] == 0 || offs[12] >= b.s
  {
    var g := b.Graph();
    NoEarlyAlias(b, offs);
    PlanIsSafe(g, offs, b.Final());
    FinalIsSafe(b, offs);
    AllAliasesSafe(b, offs);
    PlanIsSafe(g, offs, |g|);
  }

  /** The plan is safe although the graph alone does not say so: the residual is written after x
      and still needed when final_output takes the place of x. */
  lemma FinalIsNotGuarded(b: Block)
    requires b.Regular()
    ensures !AliasGuard(b.Graph(), b.Final())
  {
    var g, f := b.Graph(), b.Final();
    assert g[f] == b.NodeAt(f) && g[8] == b.NodeAt(8);
    KeptBy(b, 8, f, f);
  }

  lemma NoEarlyAlias(b: Block, offs: seq<nat>)
    requires |offs| == |b.Graph()|
    ensures AliasesSafe(b.Graph(), offs, b.Final())
  {
    forall k | 0 <= k < b.Final() ensures b.Graph()[k].alias.None? {
      assert b.Graph()[k] == b.NodeAt(k);
    }
  }

  lemma AllAliasesSafe(b: Block, offs: seq<nat>)
    requires |offs| == |b.Graph()| && WriteSafe(b.Graph(), offs, b.Final())
    ensures AliasesSafe(b.Graph(), offs, |b.Graph()|)
  {
    forall k | 0 <= k < |b.Graph()| && k != b.Final() ensures b.Graph()[k].alias.None? {
      assert b.Graph()[k] == b.NodeAt(k);
    }
  }

  // ---------------------------------------------------------------------------
  // The three models
  // ---------------------------------------------------------------------------

  /** A block without tokens: no tensor that is read takes any room. */
  lemma EmptyBlockSafe(b: Block, offs: seq<nat>)
    requires IsPlan(b.Graph(), offs, |b.Graph()|) && b.s == b.kv == b.t1 == b.t2 == b.t3 == 0
    ensures Safe(b.Graph(), offs, |b.Graph()|) && offs[b.Final()] == offs[0] == 0
  {
    var g := b.Graph();
    var f := b.Final();
    assert g[0] == b.NodeAt(0) && g[f] == b.NodeAt(f);
    assert offs[0] == OffsetAt(g, offs, 0) && offs[f] == OffsetAt(g, offs, f);
    forall j, k | 0 <= j < k < |g| && LiveAt(g, j, k) ensures g[j].size == 0 {
      EmptyRead(b, j, k);
    }
  }

  lemma EmptyRead(b: Block, j: nat, k: nat)
    requires j < k < |b.Graph()| && b.s == b.kv == b.t1 == b.t2 == b.t3 == 0 && LiveAt(b.Graph(), j, k)
    ensures b.Graph()[j].size == 0
  {
    var g := b.Graph();
    var m :| k <= m < |g| && j in g[m].inputs;
    assert g[m] == b.NodeAt(m) && g[j] == b.NodeAt(j);
  }

  datatype Model = LLaDA | Dream | LLaDAMoE {
    /** Elements per token of a model row, of k and v, and of the three scratch tensors; and
        the vocabulary. */
    function Hidden(): nat { match this case LLaDA => 4096 case Dream => 3584 case LLaDAMoE => 2048 }
    function KvWidth(): nat { match this case LLaDA => 32 * 128 case Dream => 4 * 128 case LLaDAMoE => 16 * 128 }
    function Scratch1(): nat { match this case LLaDA => 12288 case Dream => 18944 case LLaDAMoE => 8 * (1024 * 2) }
    function Scratch2(): nat { match this case LLaDA => 12288 case Dream => 18944 case LLaDAMoE => 8 * 1024 }
    function Scratch3(): nat { match this case LLaDA => 12288 case Dream => 18944 case LLaDAMoE => 8 * 2048 }
    function Vocab(): nat { match this case LLaDA => 126464 case Dream => 152064 case LLaDAMoE => 157184 }
  }

  /** How a run is cut: chunk counts, or None for a stage that runs in one piece. */
  datatype Chunking = Chunking(mlp: Option<nat>, logits: Option<nat>) {
    predicate Valid() { (mlp.Some? ==> mlp.value >= 1) && (logits.Some? ==> logits.value >= 1) }
  }

  function RowsPerTile(n: nat, chunks: Option<nat>): nat
    requires chunks.Some? ==> chunks.value >= 1
  {
    if chunks.None? then n else CeilDiv(n, chunks.value)
  }

  /** The graph of one block: `n` tokens, logits for `m` of them, two bytes per element. */
  function BlockFor(model: Model, n: nat, m: nat, c: Chunking): Block
    requires c.Valid()
  {
    var t := RowsPerTile(n, c.mlp);
    Block(model.LLaDAMoE?, c.mlp.Some?,
          n * model.Hidden() * 2, n * model.KvWidth() * 2,
          t * model.Scratch1() * 2, t * model.Scratch2() * 2, t * model.Scratch3() * 2,
          RowsPerTile(m, c.logits) * model.Vocab() * 2)
  }

  lemma ModelIsRegular(model: Model, n: nat, m: nat, c: Chunking)
    requires c.Valid() && n >= 1
    ensures BlockFor(model, n, m, c).Regular()
  {
    if c.mlp.Some? {
      CeilDivBounds(n, c.mlp.value);
    }
  }

  predicate Even(x: int) { x % 2 == 0 }

  /** Only the barriers have odd sizes, and nothing reads them. */
  lemma ReadsEven(b: Block, j: nat)
    requires Even(b.s) && Even(b.kv) && Even(b.t1) && Even(b.t2) && Even(b.t3)
    requires j < |b.Graph()| && LiveAt(b.Graph(), j, 0)
    ensures Even(b.Graph()[j].size)
  {
    var g := b.Graph();
    var i :| 0 <= i < |g| && j in g[i].inputs;
    assert g[i] == b.NodeAt(i) && g[j] == b.NodeAt(j);
  }

  lemma ModelReadSizes(b: Block)
    requires Even(b.s) && Even(b.kv) && Even(b.t1) && Even(b.t2) && Even(b.t3)
    ensures ReadSizes(b.Graph(), 2)
  {
    var g := b.Graph();
    forall j | 0 <= j < |g| && LiveAt(g, j, 0) ensures Multiple(g[j].size, 2) {
      ReadsEven(b, j);
    }
  }

  /** The plan of every model, for every number of tokens and every chunking: no write
      destroys a tensor that is still needed, final_output lies exactly over x, and every
      tensor starts at an even byte. */
  lemma ModelPlanSafe(model: Model, n: nat, m: nat, c: Chunking, offs: seq<nat>)
    requires c.Valid()
    requires var g := BlockFor(model, n, m, c).Graph(); IsPlan(g, offs, |g|)
    ensures var b := BlockFor(model, n, m, c); var g := b.Graph();
            && Safe(g, offs, |g|)
            && offs[b.Final()] == offs[0] == 0
            && forall i :: 0 <= i < |g| ==> Multiple(offs[i], 2)
  {
    var b := BlockFor(model, n, m, c);
    if n == 0 {
      CeilOfZero(c);
      EmptyBlockSafe(b, offs);
    } else {
      ModelIsRegular(model, n, m, c);
      BlockPlanSafe(b, offs);
    }
    EvenOffsets(b, offs);
  }

  lemma EvenOffsets(b: Block, offs: seq<nat>)
    requires IsPlan(b.Graph(), offs, |b.Graph()|) && Safe(b.Graph(), offs, |b.Graph()|)
    requires Even(b.s) && Even(b.kv) && Even(b.t1) && Even(b.t2) && Even(b.t3)
    ensures forall i :: 0 <= i < |b.Graph()| ==> Multiple(offs[i], 2)
  {
    var g := b.Graph();
    PlanIsSafe(g, offs, |g|);
    ModelReadSizes(b);
    forall i | 0 <= i < |g| ensures Multiple(offs[i], 2) {
      PlanIsAligned(g, offs, i, 2);
    }
  }

  lemma CeilOfZero(c: Chunking)
    requires c.Valid()
    ensures RowsPerTile(0, c.mlp) == 0
  {
    if c.mlp.Some? {
      CeilDivBounds(0, c.mlp.value);
    }
  }
}
