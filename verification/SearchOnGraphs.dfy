/** The chunk search run on the real block graphs: exact component peaks of every block, and
    what they mean for the search of diffusion_tools/online_searcher.py. */
module SearchOnGraphs {
  import opened Arith
  import opened Wrappers
  import opened BlockGraphs
  import opened BlockPlans
  import opened ChunkSearch
  import RP = ReusePlan

  // ---------------------------------------------------------------------------
  // The timeline of a block
  // ---------------------------------------------------------------------------

  /** The part of the block that a node counts for; the search decides it by its name. */
  function KindOf(b: Block, i: nat): Kind {
    if 9 <= i < b.Final() then Mlp else if i > b.Final() then Logits else Fixed
  }

  /** Bytes in use at node `i`, over the first `n` tensors, read off the table. */
  function Used(b: Block, n: nat, i: nat): nat
    decreases n
  {
    if n == 0 then 0
    else Used(b, n - 1, i) + if n - 1 == i || i < LastUse(b, n - 1) then b.NodeAt(n - 1).size else 0
  }

  lemma {:induction false} UsedIs(b: Block, n: nat, i: nat)
    requires n <= |b.Graph()|
    ensures RP.BytesInUse(b.Graph(), n, i) == Used(b, n, i)
  {
    if n > 0 {
      UsedIs(b, n - 1, i);
      LiveIff(b, n - 1, i + 1);
      assert b.Graph()[n - 1] == b.NodeAt(n - 1);
    }
  }

  /** Bytes in use at every node, in closed form. */
  function StepBytes(b: Block, i: nat): nat {
    if i == 0 then b.s
    else if i == 1 then 2 * b.s
    else if i == 2 then 3 * b.s
    else if i == 3 then 3 * b.s + b.kv
    else if i == 4 then 2 * b.s + 2 * b.kv
    else if i <= 6 then 2 * b.s
    else if i == 7 then 3 * b.s
    else if i == 8 then 2 * b.s
    else if i == b.Final() then b.s
    else if i > b.Final() then b.logits
    else if b.chunked then
      (if i == 9 then 2 * b.s + b.t1
       else if i == 10 then 2 * b.s + b.t1 + b.t2
       else if i == 11 then 2 * b.s + b.t1 + b.t2 + b.t3
       else if i == 12 then 3 * b.s + b.t1 + b.t2 + b.t3
       else if i == 13 then 3 * b.s + 1
       else 2 * b.s + 1)
    else
      (if i == 9 then (if b.moe then b.s + b.t1 else 2 * b.s + b.t1)
       else if i == 10 then (if b.moe then b.s + b.t2 else b.s + b.t1 + b.t2)
       else if i == 11 then b.s + b.t3
       else 2 * b.s)
  }

  predicate Agrees(b: Block, i: nat) { Used(b, i + 1, i) == StepBytes(b, i) }

  lemma FirstSteps(b: Block)
    ensures Agrees(b, 0) && Agrees(b, 1) && Agrees(b, 2) && Agrees(b, 3) && Agrees(b, 4)
  {
  }

  lemma NextSteps(b: Block)
    ensures Agrees(b, 5) && Agrees(b, 6) && Agrees(b, 7) && Agrees(b, 8)
  {
  }

  lemma ScratchSteps(b: Block)
    ensures Agrees(b, 9) && Agrees(b, 10) && Agrees(b, 11)
  {
  }

  lemma OutputStep(b: Block)
    ensures Agrees(b, 12)
  {
  }

  lemma PlainEnd(b: Block)
    requires !b.chunked
    ensures Agrees(b, 13) && Agrees(b, 14)
  {
    assert Used(b, 8, 13) == 0 && Used(b, 8, 14) == 0;
  }

  lemma BarrierSteps(b: Block)
    requires b.chunked
    ensures Agrees(b, 13) && Agrees(b, 14)
  {
    assert Used(b, 8, 13) == b.s && Used(b, 8, 14) == 0;
  }

  lemma ChunkedEnd(b: Block)
    requires b.chunked
    ensures Used(b, 16, 15) == b.s && Used(b, 17, 16) == b.logits
  {
    assert Used(b, 8, 15) == 0 && Used(b, 8, 16) == 0;
  }

  lemma StepAgrees(b: Block, i: nat)
    requires i < |b.Graph()|
    ensures Agrees(b, i)
  {
    if i <= 4 {
      FirstSteps(b);
    } else if i <= 8 {
      NextSteps(b);
    } else if i <= 11 {
      ScratchSteps(b);
    } else if i == 12 {
      OutputStep(b);
    } else if !b.chunked {
      PlainEnd(b);
    } else if i <= 14 {
      BarrierSteps(b);
    } else {
      ChunkedEnd(b);
    }
  }

  /** The memory timeline of a block. */
  lemma StepBytesAre(b: Block, i: nat)
    requires i < |b.Graph()|
    ensures RP.BytesInUse(b.Graph(), i + 1, i) == StepBytes(b, i)
  {
    UsedIs(b, i + 1, i);
    StepAgrees(b, i);
  }

  ghost function Timeline(b: Block): (t: seq<Step>)
    ensures |t| == |b.Graph()|
  {
    seq(|b.Graph()|, i requires 0 <= i < |b.Graph()| => Step(KindOf(b, i), RP.BytesInUse(b.Graph(), i + 1, i)))
  }

  lemma TimelineAt(b: Block, i: nat)
    requires i < |b.Graph()|
    ensures Timeline(b)[i] == Step(KindOf(b, i), StepBytes(b, i))
  {
    StepBytesAre(b, i);
  }

  lemma PeakIs(b: Block, k: Kind, p: nat, top: nat)
    requires IsPeak(Timeline(b), k, p) && top < |b.Graph()| && KindOf(b, top) == k
    requires forall i :: 0 <= i < |b.Graph()| && KindOf(b, i) == k ==> StepBytes(b, i) <= StepBytes(b, top)
    ensures p == StepBytes(b, top)
  {
    TimelineAt(b, top);
    if p != 0 {
      var i :| 0 <= i < |b.Graph()| && Timeline(b)[i].kind == k && Timeline(b)[i].bytes == p;
      TimelineAt(b, i);
    }
  }

  // ---------------------------------------------------------------------------
  // Exact peaks
  // ---------------------------------------------------------------------------

  /** Sizes as the three models have them. */
  predicate ModelSized(b: Block) {
    && b.kv <= b.s && b.t2 <= b.t1 == b.t3
    && (!b.moe ==> b.t1 == b.t2)
    && (if b.chunked then b.t1 >= 1 else b.t1 >= b.s)
  }

  /** The peak of the fixed part is reached when k has been projected. */
  lemma FixedPeak(b: Block, p: nat)
    requires ModelSized(b) && IsPeak(Timeline(b), Fixed, p)
    ensures p == 3 * b.s + b.kv
  {
    PeakIs(b, Fixed, p, 3);
  }

  lemma LogitsPeak(b: Block, p: nat)
    requires IsPeak(Timeline(b), Logits, p)
    ensures p == b.logits
  {
    PeakIs(b, Logits, p, b.Final() + 1);
  }

  function MlpBytes(b: Block): nat {
    if b.chunked then 3 * b.s + b.t1 + b.t2 + b.t3 else if b.moe then b.s + b.t1 else b.s + b.t1 + b.t2
  }

  lemma MlpPeak(b: Block, p: nat)
    requires ModelSized(b) && IsPeak(Timeline(b), Mlp, p)
    ensures p == MlpBytes(b)
  {
    PeakIs(b, Mlp, p, if b.chunked then 12 else if b.moe then 9 else 10);
  }

  // ---------------------------------------------------------------------------
  // The analyser
  // ---------------------------------------------------------------------------

  /** `r` is the analysis of block `b`: its peaks, and the size of its plan. */
  ghost predicate IsReport(r: Report, b: Block) {
    && IsPeak(Timeline(b), Fixed, r.fixed) && IsPeak(Timeline(b), Mlp, r.mlp) && IsPeak(Timeline(b), Logits, r.logits)
    && exists offs :: RP.IsPlan(b.Graph(), offs, |b.Graph()|) && r.buffer == RP.Total(b.Graph(), offs, |b.Graph()|)
  }

  /** A stage with one chunk is not cut. */
  function ChunksOf(k: nat): (o: Option<nat>)
    ensures o.Some? ==> o.value >= 1
  {
    if k <= 1 then None else Some(k)
  }

  function BlockAt(model: Model, n: nat, m: nat, c: Config): Block {
    BlockFor(model, n, m, Chunking(ChunksOf(c.mlp), ChunksOf(c.logits)))
  }

  /** `f` analyses the blocks of one model for `n` tokens and `m` logits rows. */
  ghost predicate Analyses(f: Oracle, model: Model, n: nat, m: nat) {
    forall c: Config :: c.Ok() ==> IsReport(f(c), BlockAt(model, n, m, c))
  }

  lemma SizedModel(model: Model, n: nat, m: nat, c: Config)
    requires n >= 1
    ensures ModelSized(BlockAt(model, n, m, c))
  {
    if c.mlp >= 2 {
      CeilDivBounds(n, c.mlp);
    }
  }

  /** The buffer of a report is never below a peak. */
  lemma BufferCovers(r: Report, model: Model, n: nat, m: nat, c: Config, i: nat)
    requires IsReport(r, BlockAt(model, n, m, c)) && i < |BlockAt(model, n, m, c).Graph()|
    ensures StepBytes(BlockAt(model, n, m, c), i) <= r.buffer
  {
    var b := BlockAt(model, n, m, c);
    var g := b.Graph();
    var offs :| RP.IsPlan(g, offs, |g|) && r.buffer == RP.Total(g, offs, |g|);
    ModelPlanSafe(model, n, m, Chunking(ChunksOf(c.mlp), ChunksOf(c.logits)), offs);
    RP.PeakWithinPlan(g, offs, i);
    StepBytesAre(b, i);
  }

  /** A configuration that the search returns for a pool leaves 900 MiB of it free at every
      moment of the block, and another 700 MiB for LLaDA-MoE, for every model and size. */
  lemma ReturnedConfigFits(f: Oracle, model: Model, n: nat, m: nat, pool: int, turns: nat, c: Config, i: nat)
    requires Analyses(f, model, n, m)
    requires Run(f, LimitsFor(model.LLaDAMoE?, pool), Config(1, 1), turns) == Found(c, f(c).buffer)
    requires i < |BlockAt(model, n, m, c).Graph()|
    ensures RP.BytesInUse(BlockAt(model, n, m, c).Graph(), i + 1, i) + 943_718_400 + (if model.LLaDAMoE? then 734_003_200 else 0) <= pool
  {
    SearchIsSound(f, LimitsFor(model.LLaDAMoE?, pool), Config(1, 1), turns);
    BufferCovers(f(c), model, n, m, c, i);
    StepBytesAre(BlockAt(model, n, m, c), i);
  }

  // ---------------------------------------------------------------------------
  // The peaks as functions of the chunks
  // ---------------------------------------------------------------------------

  function FixedAt(model: Model, n: nat): nat { 3 * (n * model.Hidden() * 2) + n * model.KvWidth() * 2 }
  function MlpAt(model: Model, n: nat, k: nat): nat { MlpBytes(BlockAt(model, n, 0, Config(1, k))) }
  function LogitsAt(model: Model, m: nat, l: nat): nat { RowsPerTile(m, ChunksOf(l)) * model.Vocab() * 2 }

  function ShapeOf(model: Model, n: nat, m: nat): Shape {
    Shape(FixedAt(model, n), k => MlpAt(model, n, k), l => LogitsAt(model, m, l))
  }

  lemma ReportShape(f: Oracle, model: Model, n: nat, m: nat, c: Config)
    requires n >= 1 && Analyses(f, model, n, m) && c.Ok()
    ensures f(c).fixed == FixedAt(model, n) <= f(c).buffer
    ensures f(c).mlp == MlpAt(model, n, c.mlp) && f(c).logits == LogitsAt(model, m, c.logits)
  {
    var b := BlockAt(model, n, m, c);
    SizedModel(model, n, m, c);
    FixedPeak(b, f(c).fixed);
    MlpPeak(b, f(c).mlp);
    LogitsPeak(b, f(c).logits);
    BufferCovers(f(c), model, n, m, c, 3);
  }

  /** The peaks of the real graphs depend on their own chunks only, and the logits fall. */
  lemma RealShape(f: Oracle, model: Model, n: nat, m: nat)
    requires n >= 1 && Analyses(f, model, n, m)
    ensures HasShape(f, ShapeOf(model, n, m)) && ShapeOf(model, n, m).Falling()
  {
    forall c: Config | c.Ok()
      ensures f(c).fixed == FixedAt(model, n) && f(c).mlp == MlpAt(model, n, c.mlp) && f(c).logits == LogitsAt(model, m, c.logits)
    {
      ReportShape(f, model, n, m, c);
    }
    forall a, b: nat | 1 <= a <= b ensures LogitsAt(model, m, b) <= LogitsAt(model, m, a) {
      LogitsFall(model, m, a, b);
    }
  }

  lemma LogitsFall(model: Model, m: nat, a: nat, b: nat)
    requires 1 <= a <= b
    ensures LogitsAt(model, m, b) <= LogitsAt(model, m, a)
  {
    assert RowsPerTile(m, ChunksOf(a)) == CeilDiv(m, a) by { OneChunk(m); }
    assert RowsPerTile(m, ChunksOf(b)) == CeilDiv(m, b) by { OneChunk(m); }
    CeilDivFalls(m, a, b);
  }

  lemma OneChunk(m: nat)
    ensures CeilDiv(m, 1) == m
  {
  }

  /** The peaks of the three models in bytes, with `t` tokens in a tile. */
  lemma PeaksInBytes(model: Model, n: nat, m: nat, k: nat, t: nat)
    requires k >= 2 && t == CeilDiv(n, k)
    ensures FixedAt(model, n) == match model case LLaDA => 32768 * n case Dream => 22528 * n case LLaDAMoE => 16384 * n
    ensures MlpAt(model, n, 1) == match model case LLaDA => 57344 * n case Dream => 82944 * n case LLaDAMoE => 36864 * n
    ensures MlpAt(model, n, k) == match model case LLaDA => 24576 * n + 73728 * t case Dream => 21504 * n + 113664 * t case LLaDAMoE => 12288 * n + 81920 * t
    ensures LogitsAt(model, m, 1) == match model case LLaDA => 252928 * m case Dream => 304128 * m case LLaDAMoE => 314368 * m
    ensures LogitsAt(model, m, k) == CeilDiv(m, k) * match model case LLaDA => 252928 case Dream => 304128 case LLaDAMoE => 314368
  {
  }

  /** Below this number of tokens, cutting cannot bring the MLP down to the fixed part. */
  function EnoughTokens(model: Model): nat { match model case LLaDA => 9 case Dream => 111 case LLaDAMoE => 20 }

  lemma UncutMlp(model: Model, n: nat)
    requires n >= 1
    ensures MlpAt(model, n, 1) > FixedAt(model, n)
  {
  }

  lemma CutMlp(model: Model, n: nat, k: nat)
    requires n >= 1 && k >= 2
    ensures MlpAt(model, n, k) <= FixedAt(model, n) ==> n >= EnoughTokens(model)
    ensures k >= n >= EnoughTokens(model) ==> MlpAt(model, n, k) <= FixedAt(model, n)
  {
    CeilDivBounds(n, k);
    var t := CeilDiv(n, k);
    if k >= n && t >= 2 {
      MulMono(1, t - 1, k);
    }
  }

  /** Cutting is not always a gain: for LLaDA and LLaDA-MoE the first cut, into two chunks,
      raises the MLP peak, because x_normed_2 and the scratch must now survive the loop. */
  lemma TwoChunksCostMore(model: Model, n: nat)
    requires n >= 1 && !model.Dream?
    ensures MlpAt(model, n, 2) > MlpAt(model, n, 1)
  {
    CeilDivBounds(n, 2);
  }

  lemma OneRowOfLogits(model: Model, m: nat)
    ensures LogitsAt(model, m, Max(m, 1)) <= model.Vocab() * 2
  {
    if m >= 2 {
      DivModUnique(m + m - 1, m, 1, m - 1);
    }
  }

  lemma EnoughTokensCut(model: Model, n: nat, m: nat)
    requires n >= EnoughTokens(model)
    ensures CutsToFixed(ShapeOf(model, n, m), Config(Max(m, 1), n))
  {
    CutMlp(model, n, n);
    OneRowOfLogits(model, m);
  }

  lemma CutNeedsTokens(model: Model, n: nat, m: nat, d: Config)
    requires n >= 1 && CutsToFixed(ShapeOf(model, n, m), d)
    ensures n >= EnoughTokens(model)
  {
    assert MlpAt(model, n, d.mlp) <= FixedAt(model, n);
    UncutMlp(model, n);
    CutMlp(model, n, Max(d.mlp, 2));
  }

}
