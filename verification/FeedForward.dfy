/** The feed-forward stage of a decoder layer, run in tiles of tokens that reuse a small
    scratch area of the activation buffer: the gated MLP of LLaDA and Dream
    (vllm_add_llada/llada_blocks.py, vllm_add_dream/dream_blocks.py) and the mixture of
    experts of LLaDA-MoE (vllm_add_llada_moe). */
module FeedForward {
  import opened Arith
  import opened FlatBuffer

  /** Where the stage reads and writes: `n` token rows of `w` cells in `src` and `out`, and
      three scratch tensors with room for `cap` token rows. */
  datatype Stage = Stage(src: Region, a: Region, b: Region, c: Region, out: Region, n: nat, cap: nat, w: nat)
  {
    predicate Inside(size: nat) {
      && src.End() <= size && a.End() <= size && b.End() <= size && c.End() <= size && out.End() <= size
      && src.len == out.len == Area(n, w)
    }

    /** A tile: the rows [i, e), at most as many as the scratch holds. */
    predicate Tile(i: nat, e: nat) { i <= e <= n && e - i <= cap }

    function Src(i: nat, e: nat): Region requires i <= e { Slice(src, w, i, e) }
    function Out(i: nat, e: nat): Region requires i <= e { Slice(out, w, i, e) }

    /** The separation that a stage with more than one tile needs: later tiles still read the
        input, and may not destroy the output rows of earlier tiles. */
    predicate Reusable() {
      && Disjoint(src, a) && Disjoint(src, b) && Disjoint(src, c) && Disjoint(src, out)
      && Disjoint(a, out) && Disjoint(b, out) && Disjoint(c, out)
    }

    /** Regions that a tile does not touch, and regions that the whole stage does not touch. */
    predicate Untouched(i: nat, e: nat, r: Region)
      requires i <= e
    {
      Disjoint(a, r) && Disjoint(b, r) && Disjoint(c, r) && Disjoint(Out(i, e), r)
    }

    predicate Foreign(r: Region) {
      Disjoint(a, r) && Disjoint(b, r) && Disjoint(c, r) && Disjoint(out, r)
    }
  }

  ghost predicate TileFrame(s: Stage, i: nat, e: nat, before: Tensor, mem: Tensor)
    requires i <= e
  {
    |before| == |mem| &&
    forall r: Region {:trigger s.Untouched(i, e, r)} :: Inside(r, |mem|) && s.Untouched(i, e, r) ==> Read(mem, r) == Read(before, r)
  }

  ghost predicate StageFrame(s: Stage, before: Tensor, mem: Tensor) {
    |before| == |mem| &&
    forall r: Region {:trigger s.Foreign(r)} :: Inside(r, |mem|) && s.Foreign(r) ==> Read(mem, r) == Read(before, r)
  }

  lemma SliceWithin(r: Region, w: nat, i: nat, e: nat, n: nat)
    requires i <= e <= n && r.len == Area(n, w)
    ensures r.off <= Slice(r, w, i, e).off && Slice(r, w, i, e).End() == r.off + Area(e, w) <= r.End()
  {
    AreaMono(i, e, w);
    AreaMono(e, n, w);
  }

  /** The regions of a tile lie inside those of the stage. */
  lemma TileInside(s: Stage, i: nat, e: nat, size: nat)
    requires s.Inside(size) && s.Tile(i, e)
    ensures s.src.off <= s.Src(i, e).off && s.Src(i, e).End() <= s.src.End()
    ensures s.out.off <= s.Out(i, e).off && s.Out(i, e).End() <= s.out.End()
    ensures s.Src(i, e).len == s.Out(i, e).len == Area(e - i, s.w)
  {
    SliceWithin(s.src, s.w, i, e, s.n);
    SliceWithin(s.out, s.w, i, e, s.n);
  }

  // ---------------------------------------------------------------------------
  // The gated MLP
  // ---------------------------------------------------------------------------

  /** The row functions of a gated MLP with model rows of `w` cells and inner rows of `wi`. */
  datatype Mlp = Mlp(gate: RowFn, up: RowFn, act: RowFn, mul: RowFn2, down: RowFn, w: nat, wi: nat) {
    ghost predicate Ok() {
      && RowOk(gate, w, wi) && RowOk(up, w, wi) && RowOk(act, wi, wi)
      && RowOk2(mul, wi, wi, wi) && RowOk(down, wi, w)
    }
  }

  /** The row functions of the expert stage.  `router` gives a token's routing (experts and
      weights) as a row of `wr` cells; a token then has `w1`, `w2` and `w3` cells in the three
      caches. */
  datatype Moe = Moe(router: RowFn, gemm1: RowFn2, act: RowFn, gemm2: RowFn2, sum: RowFn,
                     w: nat, wr: nat, w1: nat, w2: nat, w3: nat) {
    ghost predicate Ok() {
      && RowOk(router, w, wr) && RowOk2(gemm1, w, wr, w1) && RowOk(act, w1, w2)
      && RowOk2(gemm2, w2, wr, w3) && RowOk(sum, w3, w)
    }
  }

  /** The feed-forward stage as a function of one token. */
  datatype TokenFn = OfMlp(mlp: Mlp) | OfMoe(moe: Moe) {
    function Width(): nat { if OfMlp? then mlp.w else moe.w }

    ghost predicate Ok(w: nat) {
      match this
      case OfMlp(m) => m.Ok() && m.w == w
      case OfMoe(m) => m.Ok() && m.w == w
    }

    ghost function On(w: nat, row: Tensor): (r: Tensor)
      requires Ok(w) && |row| == w
      ensures |r| == w
    {
      match this
      case OfMlp(m) => m.down(m.mul(m.act(m.gate(row)), m.up(row)))
      case OfMoe(m) => m.sum(m.gemm2(m.act(m.gemm1(row, m.router(row))), m.router(row)))
    }
  }

  /** What the gated MLP of a row is made of: the product takes the activated gate projection on one
      side and the up projection on the other. */
  lemma MlpPaths(m: Mlp, row: Tensor, g: RowFn)
    requires m.Ok() && |row| == m.w
    ensures (forall a, b {:trigger m.mul(a, b)} :: m.mul(a, b) == g(a)) ==> OfMlp(m).On(m.w, row) == m.down(g(m.act(m.gate(row))))
    ensures (forall a, b {:trigger m.mul(a, b)} :: m.mul(a, b) == g(b)) ==> OfMlp(m).On(m.w, row) == m.down(g(m.up(row)))
  {
  }

  /** The same for the experts: both products see the routing of the row itself, the first the row,
      the second the activated first product. */
  lemma MoePaths(m: Moe, row: Tensor, g: RowFn, h: RowFn)
    requires m.Ok() && |row| == m.w
    ensures (forall a, b {:trigger m.gemm2(a, b)} :: m.gemm2(a, b) == h(b)) ==> OfMoe(m).On(m.w, row) == m.sum(h(m.router(row)))
    ensures (forall a, b {:trigger m.gemm2(a, b)} :: m.gemm2(a, b) == h(a)) && (forall a, b {:trigger m.gemm1(a, b)} :: m.gemm1(a, b) == g(a)) ==>
              OfMoe(m).On(m.w, row) == m.sum(h(m.act(g(row))))
    ensures (forall a, b {:trigger m.gemm2(a, b)} :: m.gemm2(a, b) == h(a)) && (forall a, b {:trigger m.gemm1(a, b)} :: m.gemm1(a, b) == g(b)) ==>
              OfMoe(m).On(m.w, row) == m.sum(h(m.act(g(m.router(row)))))
  {
  }

  /** Tokens [i, e) of the output hold the stage applied to tokens [i, e) of the input. */
  ghost predicate Computed(s: Stage, f: TokenFn, start: Tensor, mem: Tensor, i: nat, e: nat)
    requires f.Ok(s.w) && |start| == |mem|
  {
    forall k {:trigger RowAt(mem, s.out, s.w, k)} :: i <= k < e ==>
      && Inside(RowRegion(s.src, s.w, k), |mem|) && Inside(RowRegion(s.out, s.w, k), |mem|)
      && RowAt(mem, s.out, s.w, k) == f.On(s.w, RowAt(start, s.src, s.w, k))
  }

  /** What one pass over a tile needs. */
  predicate MlpPlaced(s: Stage, w: nat, wi: nat, size: nat) {
    && s.Inside(size) && s.w == w
    && s.a.len == s.b.len == s.c.len == Area(s.cap, wi)
    && Disjoint(s.src, s.a) && Disjoint(s.src, s.b) && Disjoint(s.a, s.b)
    && Disjoint(s.a, s.c) && Disjoint(s.b, s.c) && Disjoint(s.c, s.out)
  }

  /** One tile: gate and up projections into the scratch, activation in place, product, and
      the down projection into the tile's rows of the output. */
  method MlpTile(buf: array<Cell>, s: Stage, m: Mlp, i: nat, e: nat)
    requires m.Ok() && MlpPlaced(s, m.w, m.wi, buf.Length) && s.Tile(i, e)
    modifies buf
    ensures Computed(s, OfMlp(m), old(buf[..]), buf[..], i, e)
    ensures TileFrame(s, i, e, old(buf[..]), buf[..])
  {
    var t := e - i;
    var src, out := s.Src(i, e), s.Out(i, e);
    var a, b, c := Slice(s.a, m.wi, 0, t), Slice(s.b, m.wi, 0, t), Slice(s.c, m.wi, 0, t);
    TileInside(s, i, e, buf.Length);
    AreaMono(t, s.cap, m.wi);
    ghost var m0 := buf[..];
    RowOp(buf, src, a, t, m.w, m.wi, m.gate);
    ghost var m1 := buf[..];
    RowOp(buf, src, b, t, m.w, m.wi, m.up);
    ghost var m2 := buf[..];
    RowOp(buf, a, a, t, m.wi, m.wi, m.act);
    ghost var m3 := buf[..];
    RowOp2(buf, a, b, c, t, m.wi, m.mul);
    ghost var m4 := buf[..];
    RowOp(buf, c, out, t, m.wi, m.w, m.down);
    MlpRows(s, m, i, e, m0, m1, m2, m3, m4, buf[..], a, b, c);
    MlpFrame(s, i, e, m0, m1, m2, m3, m4, buf[..], a, b, c);
  }

  lemma MlpRows(s: Stage, m: Mlp, i: nat, e: nat, m0: Tensor, m1: Tensor, m2: Tensor, m3: Tensor, m4: Tensor, m5: Tensor,
                a: Region, b: Region, c: Region)
    requires m.Ok() && s.w == m.w && i <= e && |m0| == |m1| == |m2| == |m3| == |m4| == |m5|
    requires Inside(s.Src(i, e), |m0|) && Inside(a, |m0|) && Inside(b, |m0|) && a.len == b.len == Area(e - i, m.wi)
    requires Disjoint(a, s.Src(i, e)) && Disjoint(b, a) && Disjoint(a, b)
    requires Mapped(m.gate, m0, m1, s.Src(i, e), a, m.w, m.wi, e - i) && OnlyIn(m0, m1, a)
    requires Mapped(m.up, m1, m2, s.Src(i, e), b, m.w, m.wi, e - i) && OnlyIn(m1, m2, b)
    requires Mapped(m.act, m2, m3, a, a, m.wi, m.wi, e - i) && OnlyIn(m2, m3, a)
    requires Mapped2(m.mul, m3, m4, a, b, c, m.wi, e - i)
    requires Mapped(m.down, m4, m5, c, s.Out(i, e), m.wi, m.w, e - i)
    ensures Computed(s, OfMlp(m), m0, m5, i, e)
  {
    forall k | i <= k < e ensures
      && Inside(RowRegion(s.src, s.w, k), |m5|) && Inside(RowRegion(s.out, s.w, k), |m5|)
      && RowAt(m5, s.out, s.w, k) == OfMlp(m).On(s.w, RowAt(m0, s.src, s.w, k))
    {
      MlpTokenRow(m, m0, m1, m2, m3, m4, m5, s.Src(i, e), a, b, c, s.Out(i, e), e - i, k - i);
      TokenOfTile(s, OfMlp(m), m0, m5, i, e, k);
    }
  }

  /** A token row of a tile, seen from the stage. */
  lemma TokenOfTile(s: Stage, f: TokenFn, start: Tensor, mem: Tensor, i: nat, e: nat, k: nat)
    requires f.Ok(s.w) && |start| == |mem| && i <= k < e
    requires Inside(RowRegion(s.Src(i, e), s.w, k - i), |mem|) && Inside(RowRegion(s.Out(i, e), s.w, k - i), |mem|)
    requires RowAt(mem, s.Out(i, e), s.w, k - i) == f.On(s.w, RowAt(start, s.Src(i, e), s.w, k - i))
    ensures Inside(RowRegion(s.src, s.w, k), |mem|) && Inside(RowRegion(s.out, s.w, k), |mem|)
    ensures RowAt(mem, s.out, s.w, k) == f.On(s.w, RowAt(start, s.src, s.w, k))
  {
    RowOfSlice(s.src, s.w, i, e, k - i);
    RowOfSlice(s.out, s.w, i, e, k - i);
  }

  /** The five operations of a tile, seen from one token. */
  lemma MlpTokenRow(m: Mlp, m0: Tensor, m1: Tensor, m2: Tensor, m3: Tensor, m4: Tensor, m5: Tensor,
                    src: Region, a: Region, b: Region, c: Region, out: Region, t: nat, r: nat)
    requires m.Ok() && r < t && |m0| == |m1| == |m2| == |m3| == |m4| == |m5|
    requires Inside(src, |m0|) && Inside(a, |m0|) && Inside(b, |m0|)
    requires src.len == Area(t, m.w) && a.len == b.len == Area(t, m.wi)
    requires Disjoint(a, src) && Disjoint(b, a) && Disjoint(a, b)
    requires Mapped(m.gate, m0, m1, src, a, m.w, m.wi, t) && OnlyIn(m0, m1, a)
    requires Mapped(m.up, m1, m2, src, b, m.w, m.wi, t) && OnlyIn(m1, m2, b)
    requires Mapped(m.act, m2, m3, a, a, m.wi, m.wi, t) && OnlyIn(m2, m3, a)
    requires Mapped2(m.mul, m3, m4, a, b, c, m.wi, t)
    requires Mapped(m.down, m4, m5, c, out, m.wi, m.w, t)
    ensures Inside(RowRegion(src, m.w, r), |m0|) && Inside(RowRegion(out, m.w, r), |m0|)
    ensures RowAt(m5, out, m.w, r) == OfMlp(m).On(m.w, RowAt(m0, src, m.w, r))
  {
    RowKept(m0, m1, a, src, m.w, r, t);
    RowKept(m1, m2, b, a, m.wi, r, t);
    RowKept(m2, m3, a, b, m.wi, r, t);
  }

  lemma MlpFrame(s: Stage, i: nat, e: nat, m0: Tensor, m1: Tensor, m2: Tensor, m3: Tensor, m4: Tensor, m5: Tensor,
                 a: Region, b: Region, c: Region)
    requires i <= e && OnlyIn(m0, m1, a) && OnlyIn(m1, m2, b) && OnlyIn(m2, m3, a) && OnlyIn(m3, m4, c) && OnlyIn(m4, m5, s.Out(i, e))
    requires a.off == s.a.off && a.len <= s.a.len && b.off == s.b.off && b.len <= s.b.len
    requires c.off == s.c.off && c.len <= s.c.len
    ensures TileFrame(s, i, e, m0, m5)
  {
    forall r: Region | Inside(r, |m5|) && s.Untouched(i, e, r) ensures Read(m5, r) == Read(m0, r) {
      KeptOutside(m0, m1, a, r);
      KeptOutside(m1, m2, b, r);
      KeptOutside(m2, m3, a, r);
      KeptOutside(m3, m4, c, r);
      KeptOutside(m4, m5, s.Out(i, e), r);
    }
  }

  // ---------------------------------------------------------------------------
  // The mixture of experts
  // ---------------------------------------------------------------------------

  /** What one tile of the expert stage needs: consecutive caches are apart.  The third cache
      may share memory with the first. */
  predicate MoePlaced(s: Stage, m: Moe, size: nat) {
    && s.Inside(size) && s.w == m.w
    && s.a.len == Area(s.cap, m.w1) && s.b.len == Area(s.cap, m.w2) && s.c.len == Area(s.cap, m.w3)
    && Disjoint(s.src, s.a) && Disjoint(s.a, s.b) && Disjoint(s.b, s.c) && Disjoint(s.c, s.out)
  }

  /** `routing` is the routing of the first `n` tokens in region `src`. */
  ghost predicate IsRouting(m: Moe, n: nat, mem: Tensor, src: Region, routing: seq<Tensor>) {
    |routing| == n && forall r :: 0 <= r < n ==>
      Inside(RowRegion(src, m.w, r), |mem|) && routing[r] == m.router(RowAt(mem, src, m.w, r))
  }

  /** One tile of the expert stage, given the routing of its tokens: it computes the stage of
      its tokens, also when cache 3 shares memory with cache 1, and keeps everything else. */
  method MoeTile(buf: array<Cell>, s: Stage, m: Moe, i: nat, e: nat, routing: seq<Tensor>)
    requires m.Ok() && MoePlaced(s, m, buf.Length) && s.Tile(i, e)
    requires IsRouting(m, e - i, buf[..], s.Src(i, e), routing)
    modifies buf
    ensures Computed(s, OfMoe(m), old(buf[..]), buf[..], i, e)
    ensures TileFrame(s, i, e, old(buf[..]), buf[..])
  {
    var t := e - i;
    var src, out := s.Src(i, e), s.Out(i, e);
    var a, b, c := Slice(s.a, m.w1, 0, t), Slice(s.b, m.w2, 0, t), Slice(s.c, m.w3, 0, t);
    TileInside(s, i, e, buf.Length);
    AreaMono(t, s.cap, m.w1);
    AreaMono(t, s.cap, m.w2);
    AreaMono(t, s.cap, m.w3);
    ghost var m0 := buf[..];
    RowOpWith(buf, src, routing, a, t, m.w, m.wr, m.w1, m.gemm1);
    ghost var m1 := buf[..];
    RowOp(buf, a, b, t, m.w1, m.w2, m.act);
    ghost var m2 := buf[..];
    RowOpWith(buf, b, routing, c, t, m.w2, m.wr, m.w3, m.gemm2);
    ghost var m3 := buf[..];
    RowOp(buf, c, out, t, m.w3, m.w, m.sum);
    MoeRows(s, m, i, e, m0, m1, m2, m3, buf[..], a, b, c, routing);
    MoeFrame(s, i, e, m0, m1, m2, m3, buf[..], a, b, c);
  }

  lemma MoeRows(s: Stage, m: Moe, i: nat, e: nat, m0: Tensor, m1: Tensor, m2: Tensor, m3: Tensor, m4: Tensor,
                a: Region, b: Region, c: Region, routing: seq<Tensor>)
    requires m.Ok() && s.w == m.w && i <= e && |m0| == |m1| == |m2| == |m3| == |m4|
    requires IsRouting(m, e - i, m0, s.Src(i, e), routing)
    requires MappedWith(m.gemm1, m0, m1, s.Src(i, e), routing, a, m.w, m.w1, e - i)
    requires Mapped(m.act, m1, m2, a, b, m.w1, m.w2, e - i)
    requires MappedWith(m.gemm2, m2, m3, b, routing, c, m.w2, m.w3, e - i)
    requires Mapped(m.sum, m3, m4, c, s.Out(i, e), m.w3, m.w, e - i)
    ensures Computed(s, OfMoe(m), m0, m4, i, e)
  {
    forall k | i <= k < e ensures
      && Inside(RowRegion(s.src, s.w, k), |m4|) && Inside(RowRegion(s.out, s.w, k), |m4|)
      && RowAt(m4, s.out, s.w, k) == OfMoe(m).On(s.w, RowAt(m0, s.src, s.w, k))
    {
      MoeTokenRow(m, m0, m1, m2, m3, m4, s.Src(i, e), a, b, c, s.Out(i, e), routing, e - i, k - i);
      TokenOfTile(s, OfMoe(m), m0, m4, i, e, k);
    }
  }

  /** The four operations of a tile, seen from one token. */
  lemma MoeTokenRow(m: Moe, m0: Tensor, m1: Tensor, m2: Tensor, m3: Tensor, m4: Tensor,
                    src: Region, a: Region, b: Region, c: Region, out: Region, routing: seq<Tensor>, t: nat, r: nat)
    requires m.Ok() && r < t && |m0| == |m1| == |m2| == |m3| == |m4| && IsRouting(m, t, m0, src, routing)
    requires MappedWith(m.gemm1, m0, m1, src, routing, a, m.w, m.w1, t)
    requires Mapped(m.act, m1, m2, a, b, m.w1, m.w2, t)
    requires MappedWith(m.gemm2, m2, m3, b, routing, c, m.w2, m.w3, t)
    requires Mapped(m.sum, m3, m4, c, out, m.w3, m.w, t)
    ensures Inside(RowRegion(src, m.w, r), |m0|) && Inside(RowRegion(out, m.w, r), |m0|)
    ensures RowAt(m4, out, m.w, r) == OfMoe(m).On(m.w, RowAt(m0, src, m.w, r))
  {
    assert RowAt(m4, out, m.w, r) == m.sum(RowAt(m3, c, m.w3, r));
    assert RowAt(m3, c, m.w3, r) == m.gemm2(RowAt(m2, b, m.w2, r), routing[r]);
  }

  lemma MoeFrame(s: Stage, i: nat, e: nat, m0: Tensor, m1: Tensor, m2: Tensor, m3: Tensor, m4: Tensor,
                 a: Region, b: Region, c: Region)
    requires i <= e && OnlyIn(m0, m1, a) && OnlyIn(m1, m2, b) && OnlyIn(m2, m3, c) && OnlyIn(m3, m4, s.Out(i, e))
    requires a.off == s.a.off && a.len <= s.a.len && b.off == s.b.off && b.len <= s.b.len
    requires c.off == s.c.off && c.len <= s.c.len
    ensures TileFrame(s, i, e, m0, m4)
  {
    forall r: Region | Inside(r, |m4|) && s.Untouched(i, e, r) ensures Read(m4, r) == Read(m0, r) {
      KeptOutside(m0, m1, a, r);
      KeptOutside(m1, m2, b, r);
      KeptOutside(m2, m3, c, r);
      KeptOutside(m3, m4, s.Out(i, e), r);
    }
  }

  // ---------------------------------------------------------------------------
  // The tile loops
  // ---------------------------------------------------------------------------

  /** Where a tile loop stands after tokens [0, i): their output rows hold the result, the
      input is intact if it is still needed, and nothing outside the stage has changed. */
  ghost predicate Progress(s: Stage, f: TokenFn, start: Tensor, mem: Tensor, i: nat) {
    && f.Ok(s.w) && s.Inside(|mem|) && StageFrame(s, start, mem) && i <= s.n
    && (i < s.n ==> Read(mem, s.src) == Read(start, s.src))
    && Computed(s, f, start, mem, 0, i)
  }

  /** One tile takes the loop from token `i` to token `e`. */
  lemma ProgressStep(s: Stage, f: TokenFn, start: Tensor, mem: Tensor, mem': Tensor, i: nat, e: nat)
    requires Progress(s, f, start, mem, i) && s.Tile(i, e) && i < s.n && |mem'| == |mem|
    requires (i > 0 || e < s.n) ==> s.Reusable()
    requires Computed(s, f, mem, mem', i, e) && TileFrame(s, i, e, mem, mem')
    ensures Progress(s, f, start, mem', e)
  {
    TileInside(s, i, e, |mem|);
    forall k | 0 <= k < e ensures
      && Inside(RowRegion(s.src, s.w, k), |mem|) && Inside(RowRegion(s.out, s.w, k), |mem|)
      && RowAt(mem', s.out, s.w, k) == f.On(s.w, RowAt(start, s.src, s.w, k))
    {
      RowInside(s.src, s.w, k, s.n);
      if k < i {
        EarlierRowKept(s, mem, mem', i, e, k);
        assert RowAt(mem, s.out, s.w, k) == f.On(s.w, RowAt(start, s.src, s.w, k));
      } else {
        RowOfEqual(mem, start, s.src, s.w, k, s.n);
        assert RowAt(mem', s.out, s.w, k) == f.On(s.w, RowAt(mem, s.src, s.w, k));
      }
    }
    if e < s.n {
      assert s.Untouched(i, e, s.src);
    }
    forall r: Region | Inside(r, |mem|) && s.Foreign(r) ensures Read(mem', r) == Read(start, r) {
      assert s.Untouched(i, e, r);
    }
  }

  /** An output row of an earlier tile survives. */
  lemma EarlierRowKept(s: Stage, mem: Tensor, mem': Tensor, i: nat, e: nat, k: nat)
    requires s.Inside(|mem|) && k < i <= e <= s.n && s.Reusable() && TileFrame(s, i, e, mem, mem')
    ensures Inside(RowRegion(s.out, s.w, k), |mem|) && RowAt(mem', s.out, s.w, k) == RowAt(mem, s.out, s.w, k)
  {
    RowInside(s.out, s.w, k, s.n);
    RowFits(k, i, s.w);
    assert s.Untouched(i, e, RowRegion(s.out, s.w, k));
  }

  lemma PartOfEqual(mem: Tensor, start: Tensor, r: Region, p: Region)
    requires Inside(r, |mem|) && |start| == |mem| && Read(mem, r) == Read(start, r)
    requires r.off <= p.off && p.End() <= r.End()
    ensures Read(mem, p) == Read(start, p)
  {
    forall c | 0 <= c < p.len ensures Read(mem, p)[c] == Read(start, p)[c] {
      var d := p.off - r.off + c;
      assert Read(mem, r)[d] == mem[r.off + d] && Read(start, r)[d] == start[r.off + d];
    }
  }

  /** Equal regions have equal rows. */
  lemma RowOfEqual(mem: Tensor, start: Tensor, r: Region, w: nat, k: nat, n: nat)
    requires Inside(r, |mem|) && |start| == |mem| && r.len == Area(n, w) && k < n && Read(mem, r) == Read(start, r)
    ensures Inside(RowRegion(r, w, k), |mem|) && RowAt(mem, r, w, k) == RowAt(start, r, w, k)
  {
    RowInside(r, w, k, n);
    PartOfEqual(mem, start, r, RowRegion(r, w, k));
  }

  /** A loop that enters its last tile before token `n` has run at most `chunks` tiles of
      ceil(n / chunks) tokens. */
  lemma TileCount(n: nat, chunks: nat, tiles: nat)
    requires chunks >= 1 && n >= 1 && tiles >= 1 && Area(tiles - 1, CeilDiv(n, chunks)) < n
    ensures tiles <= chunks
  {
    CeilDivBounds(n, chunks);
    AreaIsProduct(tiles - 1, CeilDiv(n, chunks));
    if tiles > chunks {
      MulMono(chunks, tiles - 1, CeilDiv(n, chunks));
    }
  }

  /** The stage is complete: every token's output row is the stage applied to its input row,
      and nothing else has changed. */
  ghost predicate StageDone(s: Stage, f: TokenFn, start: Tensor, mem: Tensor) {
    f.Ok(s.w) && s.Inside(|mem|) && StageFrame(s, start, mem) && Computed(s, f, start, mem, 0, s.n)
  }

  /** Chunked MLP.  For at least one token, in at most `chunks` tiles that reuse a scratch
      with room for only ceil(n / chunks) tokens, every token gets the MLP of its own row, and
      memory outside the stage is unchanged.  With no tokens the tile size is 0 and the loop
      raises. */
  method TiledMlp(buf: array<Cell>, s: Stage, m: Mlp, chunks: nat) returns (ok: bool, tiles: nat)
    requires m.Ok() && MlpPlaced(s, m.w, m.wi, buf.Length) && chunks >= 1 && s.cap == CeilDiv(s.n, chunks)
    requires s.cap < s.n ==> s.Reusable()
    modifies buf
    ensures ok <==> s.n > 0
    ensures ok ==> tiles <= chunks && StageDone(s, OfMlp(m), old(buf[..]), buf[..])
    ensures !ok ==> buf[..] == old(buf[..])
  {
    if s.n == 0 {
      return false, 0;
    }
    CeilDivBounds(s.n, chunks);
    tiles := MlpLoop(buf, s, m);
    TileCount(s.n, chunks, tiles);
    ok := true;
  }

  /** The loop over tiles of `cap` tokens. */
  method MlpLoop(buf: array<Cell>, s: Stage, m: Mlp) returns (tiles: nat)
    requires m.Ok() && MlpPlaced(s, m.w, m.wi, buf.Length) && s.n >= 1 && s.cap >= 1
    requires s.cap < s.n ==> s.Reusable()
    modifies buf
    ensures StageDone(s, OfMlp(m), old(buf[..]), buf[..])
    ensures tiles >= 1 && Area(tiles - 1, s.cap) < s.n
  {
    ghost var start := buf[..];
    tiles := 0;
    ghost var last := 0;
    var i := 0;
    while i < s.n
      invariant 0 <= i <= s.n && (i < s.n ==> i == Area(tiles, s.cap))
      invariant tiles == 0 ==> i == 0
      invariant tiles > 0 ==> last == Area(tiles - 1, s.cap) < s.n
      invariant Progress(s, OfMlp(m), start, buf[..], i)
    {
      var e := Min(i + s.cap, s.n);
      ghost var mem := buf[..];
      MlpTile(buf, s, m, i, e);
      ProgressStep(s, OfMlp(m), start, mem, buf[..], i, e);
      last := i;
      i := e;
      tiles := tiles + 1;
    }
  }

  /** The router logits of all tokens, held outside the buffer. */
  method Route(buf: array<Cell>, s: Stage, m: Moe) returns (routing: seq<Tensor>)
    requires m.Ok() && Inside(s.src, buf.Length) && s.src.len == Area(s.n, m.w)
    ensures IsRouting(m, s.n, buf[..], s.src, routing)
  {
    routing := [];
    for r := 0 to s.n
      invariant IsRouting(m, r, buf[..], s.src, routing)
    {
      RowInside(s.src, m.w, r, s.n);
      routing := routing + [m.router(RowAt(buf[..], s.src, m.w, r))];
    }
  }

  /** The routing that a tile uses is the routing of its own tokens. */
  lemma RoutingOfTile(s: Stage, m: Moe, start: Tensor, mem: Tensor, i: nat, e: nat, routing: seq<Tensor>)
    requires m.Ok() && s.w == m.w && s.Inside(|mem|) && |start| == |mem| && s.Tile(i, e)
    requires Read(mem, s.src) == Read(start, s.src)
    requires IsRouting(m, s.n, start, s.src, routing)
    ensures IsRouting(m, e - i, mem, s.Src(i, e), routing[i..e])
  {
    forall r | 0 <= r < e - i ensures
      Inside(RowRegion(s.Src(i, e), m.w, r), |mem|) && routing[i + r] == m.router(RowAt(mem, s.Src(i, e), m.w, r))
    {
      RowOfSlice(s.src, s.w, i, e, r);
      RowOfEqual(mem, start, s.src, s.w, i + r, s.n);
    }
  }

  /** Chunked expert stage: the routing of all tokens is computed once, then the tiles run as
      above, even if the first and third caches share memory. */
  method TiledMoe(buf: array<Cell>, s: Stage, m: Moe, chunks: nat) returns (ok: bool, tiles: nat)
    requires m.Ok() && MoePlaced(s, m, buf.Length) && chunks >= 1 && s.cap == CeilDiv(s.n, chunks)
    requires s.cap < s.n ==> s.Reusable()
    modifies buf
    ensures ok <==> s.n > 0
    ensures ok ==> tiles <= chunks && StageDone(s, OfMoe(m), old(buf[..]), buf[..])
    ensures !ok ==> buf[..] == old(buf[..])
  {
    if s.n == 0 {
      return false, 0;
    }
    CeilDivBounds(s.n, chunks);
    tiles := MoeLoop(buf, s, m);
    TileCount(s.n, chunks, tiles);
    ok := true;
  }

  method MoeLoop(buf: array<Cell>, s: Stage, m: Moe) returns (tiles: nat)
    requires m.Ok() && MoePlaced(s, m, buf.Length) && s.n >= 1 && s.cap >= 1
    requires s.cap < s.n ==> s.Reusable()
    modifies buf
    ensures StageDone(s, OfMoe(m), old(buf[..]), buf[..])
    ensures tiles >= 1 && Area(tiles - 1, s.cap) < s.n
  {
    ghost var start := buf[..];
    var routing := Route(buf, s, m);
    tiles := 0;
    ghost var last := 0;
    var i := 0;
    while i < s.n
      invariant 0 <= i <= s.n && (i < s.n ==> i == Area(tiles, s.cap))
      invariant tiles == 0 ==> i == 0
      invariant tiles > 0 ==> last == Area(tiles - 1, s.cap) < s.n
      invariant Progress(s, OfMoe(m), start, buf[..], i)
    {
      var e := Min(i + s.cap, s.n);
      ghost var mem := buf[..];
      RoutingOfTile(s, m, start, mem, i, e, routing);
      MoeTile(buf, s, m, i, e, routing[i..e]);
      ProgressStep(s, OfMoe(m), start, mem, buf[..], i, e);
      last := i;
      i := e;
      tiles := tiles + 1;
    }
  }
}
