/** A whole forward pass: plan the memory of a block, take the views that the plan names,
    run all layers in place, normalise, and sample the masked positions.  The plan of every
    model is a legal placement, so the pass computes the composition of the pure layers. */
module ModelForward {
  import opened Arith
  import opened Wrappers
  import opened FlatBuffer
  import opened FeedForward
  import opened DecoderLayer
  import opened LogitsTiles
  import opened BlockGraphs
  import RP = ReusePlan

  // ---------------------------------------------------------------------------
  // The views that a plan names
  // ---------------------------------------------------------------------------

  function View(b: Block, offs: seq<nat>, i: nat): Region
    requires i < |offs|
  {
    Region(offs[i], b.NodeAt(i).size)
  }

  function ViewsOf(b: Block, offs: seq<nat>): Views
    requires |offs| == |b.Graph()|
  {
    Views(View(b, offs, 0), View(b, offs, 1), View(b, offs, 2), View(b, offs, 3), View(b, offs, 4),
          View(b, offs, 5), View(b, offs, 6), View(b, offs, 7), View(b, offs, 8), View(b, offs, 9),
          View(b, offs, 10), View(b, offs, 11), View(b, offs, 12), View(b, offs, b.Final()))
  }

  ghost predicate Planned(b: Block, offs: seq<nat>) {
    RP.IsPlan(b.Graph(), offs, |b.Graph()|) && RP.Safe(b.Graph(), offs, |b.Graph()|) && b.Regular()
  }

  lemma Nonempty(b: Block, i: nat)
    requires b.Regular() && i < b.Final()
    ensures b.NodeAt(i).size > 0
  {
  }

  /** Tensor `j`, needed by node `m`, shares no byte with tensor `k` written up to `m`. */
  lemma Pair(b: Block, offs: seq<nat>, j: nat, k: nat, m: nat)
    requires Planned(b, offs) && j < k <= m < |b.Graph()| && j in b.NodeAt(m).inputs && k < b.Final()
    ensures Disjoint(View(b, offs, j), View(b, offs, k))
  {
    var g := b.Graph();
    assert g[j] == b.NodeAt(j) && g[k] == b.NodeAt(k);
    Nonempty(b, j);
    Nonempty(b, k);
    TogetherApart(b, offs, j, k, m);
  }

  lemma AttentionPairs(b: Block, offs: seq<nat>)
    requires Planned(b, offs)
    ensures ViewsOf(b, offs).AttentionApart()
  {
    Pair(b, offs, 0, 1, 8); Pair(b, offs, 0, 2, 8); Pair(b, offs, 0, 3, 8);
    Pair(b, offs, 0, 4, 8); Pair(b, offs, 0, 5, 8); Pair(b, offs, 0, 6, 8);
    Pair(b, offs, 1, 2, 4); Pair(b, offs, 1, 3, 4); Pair(b, offs, 1, 4, 4);
    Pair(b, offs, 2, 3, 5); Pair(b, offs, 2, 4, 5); Pair(b, offs, 3, 4, 5);
    Pair(b, offs, 2, 5, 5); Pair(b, offs, 3, 5, 5); Pair(b, offs, 4, 5, 5);
    Pair(b, offs, 5, 6, 6);
  }

  lemma ResidualPairs(b: Block, offs: seq<nat>)
    requires Planned(b, offs)
    ensures ViewsOf(b, offs).ResidualApart()
    ensures ViewsOf(b, offs).final == ViewsOf(b, offs).x
  {
    Pair(b, offs, 0, 7, 8); Pair(b, offs, 6, 7, 8);
    Pair(b, offs, 0, 8, 8); Pair(b, offs, 6, 8, 8); Pair(b, offs, 7, 8, 9);
    var f := b.Final();
    Pair(b, offs, 8, 9, f); Pair(b, offs, 8, 10, f); Pair(b, offs, 8, 11, f); Pair(b, offs, 8, 12, f);
    BlockPlanSafe(b, offs);
  }

  /** The scratch tensors of one pass of the feed-forward stage are apart as it needs. */
  lemma StagePairs(b: Block, offs: seq<nat>)
    requires Planned(b, offs)
    ensures var u := ViewsOf(b, offs);
            && Disjoint(u.normed2, u.a) && Disjoint(u.a, u.b) && Disjoint(u.b, u.c) && Disjoint(u.c, u.out)
            && (!b.moe ==> Disjoint(u.normed2, u.b) && Disjoint(u.a, u.c))
  {
    Pair(b, offs, 7, 9, 9); Pair(b, offs, 10, 11, 11); Pair(b, offs, 11, 12, 12);
    if b.moe {
      Pair(b, offs, 9, 10, 10);
    } else {
      Pair(b, offs, 9, 10, 11); Pair(b, offs, 7, 10, 10); Pair(b, offs, 9, 11, 11);
    }
  }

  /** The barriers of a chunked block keep everything that later tiles use. */
  lemma BarrierPairs(b: Block, offs: seq<nat>, d: Dims, cap: nat)
    requires Planned(b, offs) && b.chunked
    ensures ViewsOf(b, offs).Stage(d, cap).Reusable()
  {
    Pair(b, offs, 7, 9, 14); Pair(b, offs, 7, 10, 14); Pair(b, offs, 7, 11, 14); Pair(b, offs, 7, 12, 14);
    Pair(b, offs, 9, 12, 13); Pair(b, offs, 10, 12, 13); Pair(b, offs, 11, 12, 13);
  }

  // ---------------------------------------------------------------------------
  // The plan of a model is a placement
  // ---------------------------------------------------------------------------

  /** Two bytes per element, and one element per step of the final addition. */
  function DimsOf(model: Model, n: nat): Dims {
    Dims(n, 2 * model.Hidden(), 2 * model.KvWidth(), n * model.Hidden(), 2)
  }

  /** The feed-forward stage has the widths of the model. */
  predicate Shaped(model: Model, f: TokenFn) {
    match f
    case OfMlp(m) => !model.LLaDAMoE? && m.w == 2 * model.Hidden() && m.wi == 2 * model.Scratch1()
    case OfMoe(m) => model.LLaDAMoE? && m.w == 2 * model.Hidden() && m.w1 == 2 * model.Scratch1() &&
                     m.w2 == 2 * model.Scratch2() && m.w3 == 2 * model.Scratch3()
  }

  function CutOf(chunks: Option<nat>): Cut {
    if chunks.None? then Whole else Tiled(chunks.value)
  }

  lemma SizesAgree(model: Model, n: nat, m: nat, c: Chunking)
    requires c.Valid()
    ensures var b := BlockFor(model, n, m, c); var d := DimsOf(model, n); var t := RowsPerTile(n, c.mlp);
            && b.s == d.S() == Area(d.count, d.elem) && b.kv == d.KV()
            && b.t1 == Area(t, 2 * model.Scratch1()) && b.t2 == Area(t, 2 * model.Scratch2())
            && b.t3 == Area(t, 2 * model.Scratch3())
            && b.logits == Area(RowsPerTile(m, c.logits), 2 * model.Vocab())
  {
    var t := RowsPerTile(n, c.mlp);
    RowBytes(n, model.Hidden());
    AreaIsProduct(n * model.Hidden(), 2);
    RowBytes(n, model.KvWidth());
    RowBytes(t, model.Scratch1());
    RowBytes(t, model.Scratch2());
    RowBytes(t, model.Scratch3());
    RowBytes(RowsPerTile(m, c.logits), model.Vocab());
  }

  lemma RowBytes(n: nat, e: nat)
    ensures n * e * 2 == Area(n, 2 * e)
  {
    AreaIsProduct(n, 2 * e);
    assert n * e * 2 == n * (2 * e);
  }

  lemma ViewInside(b: Block, offs: seq<nat>, i: nat, size: nat)
    requires i < |b.Graph()| == |offs| && size >= RP.Total(b.Graph(), offs, |offs|)
    requires b.NodeAt(i).size == 0 ==> offs[i] == 0
    ensures View(b, offs, i).End() <= size
  {
    assert b.Graph()[i] == b.NodeAt(i);
    if b.NodeAt(i).size > 0 {
      RP.WithinTotal(b.Graph(), offs, |offs|, i);
    }
  }

  lemma EmptyOffset(b: Block, offs: seq<nat>, i: nat)
    requires RP.IsPlan(b.Graph(), offs, |b.Graph()|) && i < |offs| && b.NodeAt(i).size == 0
    ensures offs[i] == 0
  {
    assert b.Graph()[i] == b.NodeAt(i);
    assert offs[i] == RP.OffsetAt(b.Graph(), offs, i);
  }

  lemma ViewsFit(b: Block, offs: seq<nat>, d: Dims, size: nat)
    requires RP.IsPlan(b.Graph(), offs, |b.Graph()|) && size >= RP.Total(b.Graph(), offs, |offs|)
    requires b.s == d.S() && b.kv == d.KV()
    ensures ViewsOf(b, offs).Fit(d, size) && View(b, offs, b.Final() + 1).End() <= size
  {
    forall i | 0 <= i < |offs| ensures View(b, offs, i).End() <= size {
      if b.NodeAt(i).size == 0 {
        EmptyOffset(b, offs, i);
      }
      ViewInside(b, offs, i, size);
    }
  }

  /** A block without tokens: all views are empty and start at 0. */
  lemma EmptyPlaced(b: Block, offs: seq<nat>)
    requires RP.IsPlan(b.Graph(), offs, |b.Graph()|) && b.s == b.kv == b.t1 == b.t2 == b.t3 == 0
    ensures forall i :: 0 <= i < 13 ==> View(b, offs, i) == Region(0, 0)
    ensures View(b, offs, b.Final()) == Region(0, 0)
  {
    forall i | 0 <= i < 13 || i == b.Final() ensures View(b, offs, i) == Region(0, 0) {
      EmptyOffset(b, offs, i);
    }
  }

  lemma EmptyPlanPlaces(b: Block, offs: seq<nat>, d: Dims, l: Layer, cut: Cut, size: nat)
    requires RP.IsPlan(b.Graph(), offs, |b.Graph()|) && b.s == b.kv == b.t1 == b.t2 == b.t3 == 0
    requires cut.Ok() && d.n == 0 && ViewsOf(b, offs).Fit(d, size) && cut.Rows(0) == 0 && l.ff.Width() == d.w
    ensures Placed(d, ViewsOf(b, offs), l, cut, size) && ViewsOf(b, offs).final == ViewsOf(b, offs).x
  {
    EmptyPlaced(b, offs);
    EmptyViews(ViewsOf(b, offs), d, l, cut, size);
  }

  lemma EmptyViews(u: Views, d: Dims, l: Layer, cut: Cut, size: nat)
    requires var z := Region(0, 0);
             && u.x == z && u.normed == z && u.q == z && u.k == z && u.v == z && u.tmp == z && u.att == z
             && u.normed2 == z && u.residual == z && u.a == z && u.b == z && u.c == z && u.out == z && u.final == z
    requires cut.Ok() && d.n == 0 && u.Fit(d, size) && cut.Rows(0) == 0 && l.ff.Width() == d.w
    ensures Placed(d, u, l, cut, size)
  {
  }

  /** The scratch sizes of a block are those of the stage. */
  predicate ScratchAgrees(b: Block, f: TokenFn, cap: nat) {
    match f
    case OfMlp(m) => !b.moe && b.t1 == b.t2 == b.t3 == Area(cap, m.wi)
    case OfMoe(m) => b.moe && b.t1 == Area(cap, m.w1) && b.t2 == Area(cap, m.w2) && b.t3 == Area(cap, m.w3)
  }

  lemma SafePlanPlaces(b: Block, offs: seq<nat>, d: Dims, l: Layer, cut: Cut, size: nat)
    requires Planned(b, offs) && cut.Ok() && ViewsOf(b, offs).Fit(d, size) && l.ff.Width() == d.w
    requires ScratchAgrees(b, l.ff, cut.Rows(d.n)) && b.chunked == cut.Tiled?
    ensures Placed(d, ViewsOf(b, offs), l, cut, size) && ViewsOf(b, offs).final == ViewsOf(b, offs).x
  {
    AttentionPairs(b, offs);
    ResidualPairs(b, offs);
    StagePairs(b, offs);
    if b.chunked {
      BarrierPairs(b, offs, d, cut.Rows(d.n));
    }
  }

  /** Main lemma: the views that the planner gives to a block, for any model, number of
      tokens and chunking, keep apart all tensors that live at the same time, and
      final_output is x. */
  lemma PlanPlaces(model: Model, n: nat, m: nat, c: Chunking, offs: seq<nat>, l: Layer, size: nat)
    requires c.Valid() && Shaped(model, l.ff)
    requires var g := BlockFor(model, n, m, c).Graph(); RP.IsPlan(g, offs, |g|) && size >= RP.Total(g, offs, |g|)
    ensures CutOf(c.mlp).Ok()
    ensures var u := ViewsOf(BlockFor(model, n, m, c), offs);
            Placed(DimsOf(model, n), u, l, CutOf(c.mlp), size) && u.final == u.x
  {
    var b := BlockFor(model, n, m, c);
    var d := DimsOf(model, n);
    SizesAgree(model, n, m, c);
    ViewsFit(b, offs, d, size);
    if n == 0 {
      CeilOfZero(c);
      EmptyPlanPlaces(b, offs, d, l, CutOf(c.mlp), size);
    } else {
      ModelPlanSafe(model, n, m, c, offs);
      ModelIsRegular(model, n, m, c);
      SafePlanPlaces(b, offs, d, l, CutOf(c.mlp), size);
    }
  }

  /** The logits tensor does not overlap final_output, and so not x either. */
  lemma LogitsApart(b: Block, offs: seq<nat>)
    requires RP.IsPlan(b.Graph(), offs, |b.Graph()|) && RP.Safe(b.Graph(), offs, |b.Graph()|)
    ensures Disjoint(View(b, offs, b.Final()), View(b, offs, b.Final() + 1))
  {
    var g, f := b.Graph(), b.Final();
    assert g[f] == b.NodeAt(f) && g[f + 1] == b.NodeAt(f + 1);
    if b.logits == 0 {
      EmptyOffset(b, offs, f + 1);
    } else if b.s == 0 {
      EmptyOffset(b, offs, f);
    } else {
      KeptBy(b, f, f + 1, f + 1);
      assert RP.WriteSafe(g, offs, f + 1);
    }
  }

  // ---------------------------------------------------------------------------
  // The forward pass
  // ---------------------------------------------------------------------------

  /** What a pass needs besides the tokens: its layers, final norm, output projection and
      sampler. */
  datatype Net = Net(model: Model, layers: seq<Layer>, norm: RowFn, gemm: RowFn, sample: RowFn, ws: nat) {
    ghost predicate Ok(n: nat) {
      var d := DimsOf(model, n);
      && LayersOk(d, layers) && (forall l :: l in layers ==> Shaped(model, l.ff))
      && RowOk(norm, d.S(), d.S()) && RowOk(gemm, d.w, 2 * model.Vocab()) && RowOk(sample, 2 * model.Vocab(), ws)
    }

    /** The sample for the token in row `k`, computed without any buffer. */
    ghost function Answer(n: nat, x: Tensor, k: nat): Tensor
      requires Ok(n) && |x| == DimsOf(model, n).S() && k < n
    {
      var d := DimsOf(model, n);
      RowFits(k, n, d.w);
      sample(gemm(RowOf(norm(Compose(d, layers, x)), d.w, k)))
    }
  }

  /** The row of x that is read for output position `j`. */
  function Place(model: Model, p: nat, o: nat, j: nat): nat {
    OutputStart(model.Dream?, p, o) + j
  }

  /** The views of the block, ready for every layer and for the logits stage. */
  lemma PlanReady(net: Net, n: nat, m: nat, c: Chunking, offs: seq<nat>, size: nat)
    requires c.Valid() && net.Ok(n)
    requires var g := BlockFor(net.model, n, m, c).Graph(); RP.IsPlan(g, offs, |g|) && size >= RP.Total(g, offs, |g|)
    ensures CutOf(c.mlp).Ok() && CutOf(c.logits).Ok()
    ensures var b := BlockFor(net.model, n, m, c); var u := ViewsOf(b, offs);
            && AllPlaced(DimsOf(net.model, n), u, net.layers, CutOf(c.mlp), size) && u.final == u.x
            && HeadOf(net, b, offs, n, RowsPerTile(m, c.logits)).Ok(size)
  {
    LayersReady(net, n, m, c, offs, size);
    HeadReady(net, n, m, c, offs, size);
  }

  lemma LayersReady(net: Net, n: nat, m: nat, c: Chunking, offs: seq<nat>, size: nat)
    requires c.Valid() && net.Ok(n)
    requires var g := BlockFor(net.model, n, m, c).Graph(); RP.IsPlan(g, offs, |g|) && size >= RP.Total(g, offs, |g|)
    ensures AllPlaced(DimsOf(net.model, n), ViewsOf(BlockFor(net.model, n, m, c), offs), net.layers, CutOf(c.mlp), size)
  {
    var b := BlockFor(net.model, n, m, c);
    var d, u, cut := DimsOf(net.model, n), ViewsOf(b, offs), CutOf(c.mlp);
    forall l | l in net.layers ensures Placed(d, u, l, cut, size) {
      PlanPlaces(net.model, n, m, c, offs, l, size);
    }
    assert u.Fit(d, size) by {
      SizesAgree(net.model, n, m, c);
      ViewsFit(b, offs, d, size);
    }
  }

  lemma HeadReady(net: Net, n: nat, m: nat, c: Chunking, offs: seq<nat>, size: nat)
    requires c.Valid() && net.Ok(n)
    requires var g := BlockFor(net.model, n, m, c).Graph(); RP.IsPlan(g, offs, |g|) && size >= RP.Total(g, offs, |g|)
    ensures var b := BlockFor(net.model, n, m, c);
            HeadOf(net, b, offs, n, RowsPerTile(m, c.logits)).Ok(size) && ViewsOf(b, offs).final == ViewsOf(b, offs).x
  {
    var b := BlockFor(net.model, n, m, c);
    SizesAgree(net.model, n, m, c);
    ModelPlanSafe(net.model, n, m, c, offs);
    HeadPlaced(net, b, offs, n, RowsPerTile(m, c.logits), size);
  }

  lemma HeadPlaced(net: Net, b: Block, offs: seq<nat>, n: nat, cap: nat, size: nat)
    requires net.Ok(n) && RP.IsPlan(b.Graph(), offs, |b.Graph()|) && RP.Safe(b.Graph(), offs, |b.Graph()|)
    requires size >= RP.Total(b.Graph(), offs, |b.Graph()|) && offs[b.Final()] == offs[0]
    requires b.s == DimsOf(net.model, n).S() && b.kv == DimsOf(net.model, n).KV() && b.logits == Area(cap, 2 * net.model.Vocab())
    ensures HeadOf(net, b, offs, n, cap).Ok(size) && ViewsOf(b, offs).final == ViewsOf(b, offs).x
  {
    ViewsFit(b, offs, DimsOf(net.model, n), size);
    LogitsApart(b, offs);
    SameView(b, offs);
  }

  lemma SameView(b: Block, offs: seq<nat>)
    requires |offs| == |b.Graph()| && offs[b.Final()] == offs[0]
    ensures ViewsOf(b, offs).final == ViewsOf(b, offs).x
  {
  }

  function HeadOf(net: Net, b: Block, offs: seq<nat>, n: nat, cap: nat): Head
    requires |offs| == |b.Graph()|
  {
    Head(View(b, offs, 0), View(b, offs, b.Final() + 1), n, 2 * net.model.Hidden(), 2 * net.model.Vocab(), cap,
         net.gemm, net.sample, net.ws)
  }

  /** Samples, or the error of a tiled stage without rows, or that of a tensor without an entry in
      the plan. */
  datatype Outcome = Samples(rows: seq<Tensor>) | EmptyTile | KeyError

  /** The plan has an entry for a tensor exactly if it has any bytes. */
  function Entry(b: Block, offs: seq<nat>, i: nat): Option<Region>
    requires i < |offs|
  {
    if b.NodeAt(i).size > 0 then Some(View(b, offs, i)) else None
  }

  lemma EntriesExist(model: Model, n: nat, m: nat, c: Chunking, offs: seq<nat>)
    requires c.Valid() && |offs| == |BlockFor(model, n, m, c).Graph()|
    ensures var b := BlockFor(model, n, m, c);
            && (n == 0 ==> Entry(b, offs, 0) == None)
            && (n > 0 ==> forall i :: 0 <= i <= b.Final() ==> Entry(b, offs, i) == Some(View(b, offs, i)))
            && (Entry(b, offs, b.Final() + 1) == if m == 0 then None else Some(View(b, offs, b.Final() + 1)))
  {
    var b := BlockFor(model, n, m, c);
    LogitsBytes(model, m, c);
    if n > 0 {
      ModelIsRegular(model, n, m, c);
      forall i | 0 <= i <= b.Final() ensures b.NodeAt(i).size > 0 {
        if i < b.Final() {
          Nonempty(b, i);
        }
      }
    }
  }

  lemma LogitsBytes(model: Model, m: nat, c: Chunking)
    requires c.Valid()
    ensures RowsPerTile(m, c.logits) * model.Vocab() * 2 == 0 <==> m == 0
  {
    if c.logits.Some? {
      CeilDivBounds(m, c.logits.value);
    }
  }

  /** All layers of the model: LLaDA-MoE rebinds x, the others do not. */
  method RunLayers(buf: array<Cell>, net: Net, n: nat, u: Views, cut: Cut) returns (ok: bool)
    requires cut.Ok() && net.Ok(n) && u.final == u.x && AllPlaced(DimsOf(net.model, n), u, net.layers, cut, buf.Length)
    modifies buf
    ensures ok <==> cut.Whole? || n > 0 || net.layers == []
    ensures ok ==> Read(buf[..], u.x) == Compose(DimsOf(net.model, n), net.layers, Read(old(buf[..]), u.x))
  {
    if net.model.LLaDAMoE? {
      var x;
      assert u.(x := u.final) == u;
      ok, x := RunRebound(buf, DimsOf(net.model, n), u, net.layers, cut);
    } else {
      ok := RunShared(buf, DimsOf(net.model, n), u, net.layers, cut);
    }
  }

  lemma AnswersFollow(net: Net, n: nat, x: Tensor, h: Head, mem: Tensor, rows: seq<nat>, out: seq<Tensor>)
    requires net.Ok(n) && h.Ok(|mem|) && h.n == n && h.w == 2 * net.model.Hidden() && |x| == DimsOf(net.model, n).S()
    requires h.gemm == net.gemm && h.sample == net.sample && |out| == |rows| && Sampled(h, mem, rows, out, |rows|)
    requires Read(mem, h.x) == net.norm(Compose(DimsOf(net.model, n), net.layers, x))
    ensures Answers(net, n, x, rows, out)
  {
    forall i | 0 <= i < |rows| ensures rows[i] < n && out[i] == net.Answer(n, x, rows[i]) {
      RowOfRegion(mem, h.x, h.w, rows[i], n);
    }
  }

  /** Layers, final norm and samples, over a buffer with the given views.  The logits tensor is
      looked up after the layers. */
  method Pass(buf: array<Cell>, net: Net, n: nat, x: Tensor, u: Views, h: Head, hasLogits: bool, rows: seq<nat>, cut: Cut, cutLogits: Cut)
    returns (r: Outcome)
    requires net.Ok(n) && |x| == DimsOf(net.model, n).S() && cut.Ok() && cutLogits.Ok()
    requires AllPlaced(DimsOf(net.model, n), u, net.layers, cut, buf.Length) && u.final == u.x
    requires h.Ok(buf.Length) && h.x == u.x && h.n == n && h.w == 2 * net.model.Hidden() && h.cap == cutLogits.Rows(|rows|)
    requires h.gemm == net.gemm && h.sample == net.sample
    requires forall i :: 0 <= i < |rows| ==> rows[i] < n
    modifies buf
    ensures r.Samples? <==> (cut.Whole? || n > 0 || net.layers == []) && hasLogits && (cutLogits.Whole? || |rows| > 0)
    ensures r.Samples? ==> Answers(net, n, x, rows, r.rows)
  {
    Store(buf, u.x, x);
    var ok := RunLayers(buf, net, n, u, cut);
    if !ok {
      return EmptyTile;
    }
    InPlace(buf, u.x, net.norm);
    if !hasLogits {
      return KeyError;
    }
    ghost var mem := buf[..];
    var out;
    ok, out := SampleLogits(buf, h, rows, cutLogits);
    if !ok {
      return EmptyTile;
    }
    AnswersFollow(net, n, x, h, mem, rows, out);
    return Samples(out);
  }

  ghost predicate Answers(net: Net, n: nat, x: Tensor, rows: seq<nat>, out: seq<Tensor>)
    requires net.Ok(n) && |x| == DimsOf(net.model, n).S()
  {
    |out| == |rows| && forall i :: 0 <= i < |rows| ==> rows[i] < n && out[i] == net.Answer(n, x, rows[i])
  }

  /** Places of the masked output positions. */
  function Places(model: Model, p: nat, o: nat, mask: seq<nat>): (r: seq<nat>)
    requires forall i :: 0 <= i < |mask| ==> mask[i] < if o == 0 then p else o
    ensures |r| == |mask| && forall i :: 0 <= i < |r| ==> r[i] == Place(model, p, o, mask[i]) < p + o
  {
    PlacesInside(model, p, o, mask);
    seq(|mask|, i requires 0 <= i < |mask| => Place(model, p, o, mask[i]))
  }

  lemma PlacesInside(model: Model, p: nat, o: nat, mask: seq<nat>)
    requires forall i :: 0 <= i < |mask| ==> mask[i] < if o == 0 then p else o
    ensures forall i :: 0 <= i < |mask| ==> Place(model, p, o, mask[i]) < p + o
  {
    forall i | 0 <= i < |mask| && o > 0 ensures Place(model, p, o, mask[i]) < p + o {
      OutputPlace(model.Dream?, p, o, mask[i]);
    }
  }

  /** Planning a block never fails. */
  method PlanBlock(b: Block) returns (offs: seq<nat>, total: nat)
    ensures RP.IsPlan(b.Graph(), offs, |b.Graph()|) && total == RP.Total(b.Graph(), offs, |offs|)
  {
    WellBuilt(b);
    var plan := RP.GenerateReusePlan(b.Graph());
    return plan.offs, plan.total;
  }

  /** One forward pass over `p` prompt and `o` output tokens with embeddings `x`.  Planning
      never fails, and the samples are those of the pure network for the masked rows, for any
      model, number of layers and chunking, although every activation lives in one buffer.
      Tensors without bytes have no entry in the plan, so the pass raises exactly if there are no
      tokens or no masked positions. */
  method Forward(net: Net, p: nat, o: nat, mask: seq<nat>, c: Chunking, x: Tensor) returns (r: Outcome)
    requires c.Valid() && net.Ok(p + o) && |x| == DimsOf(net.model, p + o).S()
    requires forall i :: 0 <= i < |mask| ==> mask[i] < if o == 0 then p else o
    ensures r.Samples? <==> p + o > 0 && |mask| > 0
    ensures r.Samples? ==> |r.rows| == |mask|
    ensures r.Samples? && o == 0 ==>
              forall i :: 0 <= i < |mask| ==> mask[i] < p + o && r.rows[i] == net.Answer(p + o, x, mask[i])
    ensures r.Samples? && o > 0 && net.model.Dream? && p >= 1 ==>
              forall i :: 0 <= i < |mask| ==> 0 <= p + mask[i] - 1 < p + o && r.rows[i] == net.Answer(p + o, x, p + mask[i] - 1)
    ensures r.Samples? && o > 0 && !(net.model.Dream? && p >= 1) ==>
              forall i :: 0 <= i < |mask| ==> p + mask[i] < p + o && r.rows[i] == net.Answer(p + o, x, p + mask[i])
  {
    var rows := Places(net.model, p, o, mask);
    r := PlannedPass(net, p + o, x, rows, c);
    PlacesAre(net.model, p, o, mask);
    assert r.Samples? ==> forall i :: 0 <= i < |mask| ==> rows[i] < p + o && r.rows[i] == net.Answer(p + o, x, rows[i]);
  }

  /** The rows that the models read: LLaDA and LLaDA-MoE the masked position itself, Dream the one
      before it, if there is a prompt. */
  lemma PlacesAre(model: Model, p: nat, o: nat, mask: seq<nat>)
    requires forall i :: 0 <= i < |mask| ==> mask[i] < if o == 0 then p else o
    ensures forall i :: 0 <= i < |mask| ==>
              Places(model, p, o, mask)[i] == if o == 0 then mask[i] else if model.Dream? && p >= 1 then p + mask[i] - 1 else p + mask[i]
  {
    forall i | 0 <= i < |mask| && o > 0
      ensures Place(model, p, o, mask[i]) == if model.Dream? && p >= 1 then p + mask[i] - 1 else p + mask[i]
    {
      OutputPlace(model.Dream?, p, o, mask[i]);
    }
  }

  method PlannedPass(net: Net, n: nat, x: Tensor, rows: seq<nat>, c: Chunking) returns (r: Outcome)
    requires c.Valid() && net.Ok(n) && |x| == DimsOf(net.model, n).S()
    requires forall i :: 0 <= i < |rows| ==> rows[i] < n
    ensures r.Samples? <==> n > 0 && |rows| > 0
    ensures r.Samples? ==> Answers(net, n, x, rows, r.rows)
  {
    var b := BlockFor(net.model, n, |rows|, c);
    var offs, total := PlanBlock(b);
    EntriesExist(net.model, n, |rows|, c, offs);
    if Entry(b, offs, 0).None? {
      return KeyError;
    }
    PlanReady(net, n, |rows|, c, offs, total);
    var buf := new Cell[total];
    var h := HeadOf(net, b, offs, n, RowsPerTile(|rows|, c.logits));
    r := Pass(buf, net, n, x, ViewsOf(b, offs), h, Entry(b, offs, b.Final() + 1).Some?, rows, CutOf(c.mlp), CutOf(c.logits));
  }
}
