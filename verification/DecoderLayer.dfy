/** A decoder layer run in place over views of one buffer (vllm_add_llada/llada_blocks.py,
    vllm_add_dream/dream_blocks.py, vllm_add_llada_moe/llada_moe_blocks.py), and the loop over
    all layers.  Norms, projections, attention and the residual additions are arbitrary
    functions; what is proved is that the buffer discipline computes their composition. */
module DecoderLayer {
  import opened Arith
  import opened FlatBuffer
  import opened FeedForward

  type Fn3 = (Tensor, Tensor, Tensor) -> Tensor

  // ---------------------------------------------------------------------------
  // Tensors built row by row
  // ---------------------------------------------------------------------------

  function RowOf(t: Tensor, w: nat, k: nat): (row: Tensor)
    requires Area(k, w) + w <= |t|
    ensures |row| == w
  {
    t[Area(k, w)..Area(k, w) + w]
  }

  /** The feed-forward stage of every token of a tensor. */
  ghost function TokenRows(f: TokenFn, n: nat, w: nat, t: Tensor): (r: Tensor)
    requires f.Ok(w) && |t| == Area(n, w)
    ensures |r| == Area(n, w)
  {
    if n == 0 then [] else TokenRows(f, n - 1, w, t[..Area(n - 1, w)]) + f.On(w, RowOf(t, w, n - 1))
  }

  /** A binary operation on every element (of `w` cells) of two tensors. */
  ghost function Zip(f: RowFn2, n: nat, w: nat, a: Tensor, b: Tensor): (r: Tensor)
    requires RowOk2(f, w, w, w) && |a| == |b| == Area(n, w)
    ensures |r| == Area(n, w)
  {
    if n == 0 then []
    else Zip(f, n - 1, w, a[..Area(n - 1, w)], b[..Area(n - 1, w)]) + f(RowOf(a, w, n - 1), RowOf(b, w, n - 1))
  }

  lemma RowOfPrefix(t: Tensor, w: nat, k: nat, n: nat)
    requires k < n - 1 && |t| == Area(n, w)
    ensures Area(k, w) + w <= Area(n - 1, w) <= |t|
    ensures RowOf(t[..Area(n - 1, w)], w, k) == RowOf(t, w, k)
  {
    RowFits(k, n - 1, w);
    RowFits(n - 1, n, w);
  }

  ghost predicate IsTokenRows(f: TokenFn, n: nat, w: nat, t: Tensor, r: Tensor)
    requires f.Ok(w) && |t| == |r| == Area(n, w)
  {
    forall k :: 0 <= k < n ==> Area(k, w) + w <= |t| && RowOf(r, w, k) == f.On(w, RowOf(t, w, k))
  }

  ghost predicate IsZip(f: RowFn2, n: nat, w: nat, a: Tensor, b: Tensor, r: Tensor)
    requires |a| == |b| == |r| == Area(n, w)
  {
    forall k :: 0 <= k < n ==> Area(k, w) + w <= |a| && RowOf(r, w, k) == f(RowOf(a, w, k), RowOf(b, w, k))
  }

  lemma {:induction false} TokenRowsAre(f: TokenFn, n: nat, w: nat, t: Tensor, r: Tensor)
    requires f.Ok(w) && |t| == |r| == Area(n, w) && IsTokenRows(f, n, w, t, r)
    ensures r == TokenRows(f, n, w, t)
  {
    if n > 0 {
      var p := Area(n - 1, w);
      TokenRowsPrefix(f, n, w, t, r);
      TokenRowsAre(f, n - 1, w, t[..p], r[..p]);
      LastTokenRow(f, n, w, t, r);
    }
  }

  lemma LastTokenRow(f: TokenFn, n: nat, w: nat, t: Tensor, r: Tensor)
    requires n >= 1 && f.Ok(w) && |t| == |r| == Area(n, w) && Area(n - 1, w) + w == Area(n, w)
    requires r[..Area(n - 1, w)] == TokenRows(f, n - 1, w, t[..Area(n - 1, w)]) && RowOf(r, w, n - 1) == f.On(w, RowOf(t, w, n - 1))
    ensures r == TokenRows(f, n, w, t)
  {
    assert r == r[..Area(n - 1, w)] + RowOf(r, w, n - 1);
  }

  lemma TokenRowsPrefix(f: TokenFn, n: nat, w: nat, t: Tensor, r: Tensor)
    requires n >= 1 && f.Ok(w) && |t| == |r| == Area(n, w) && IsTokenRows(f, n, w, t, r)
    ensures Area(n - 1, w) <= Area(n, w) && IsTokenRows(f, n - 1, w, t[..Area(n - 1, w)], r[..Area(n - 1, w)])
  {
    var p := Area(n - 1, w);
    RowFits(n - 1, n, w);
    forall k | 0 <= k < n - 1 ensures Area(k, w) + w <= p && RowOf(r[..p], w, k) == f.On(w, RowOf(t[..p], w, k)) {
      RowOfPrefix(t, w, k, n);
      RowOfPrefix(r, w, k, n);
    }
  }

  lemma {:induction false} ZipIs(f: RowFn2, n: nat, w: nat, a: Tensor, b: Tensor, r: Tensor)
    requires RowOk2(f, w, w, w) && |a| == |b| == |r| == Area(n, w) && IsZip(f, n, w, a, b, r)
    ensures r == Zip(f, n, w, a, b)
  {
    if n > 0 {
      var p := Area(n - 1, w);
      forall k | 0 <= k < n - 1
        ensures Area(k, w) + w <= p && RowOf(r[..p], w, k) == f(RowOf(a[..p], w, k), RowOf(b[..p], w, k))
      {
        RowOfPrefix(a, w, k, n);
        RowOfPrefix(b, w, k, n);
        RowOfPrefix(r, w, k, n);
      }
      ZipIs(f, n - 1, w, a[..p], b[..p], r[..p]);
      assert r == r[..p] + RowOf(r, w, n - 1);
    }
  }

  /** A row of a region of the buffer is a row of the tensor stored there. */
  lemma RowOfRegion(mem: Tensor, r: Region, w: nat, k: nat, n: nat)
    requires Inside(r, |mem|) && r.len == Area(n, w) && k < n
    ensures Area(k, w) + w <= r.len && Inside(RowRegion(r, w, k), |mem|)
    ensures RowAt(mem, r, w, k) == RowOf(Read(mem, r), w, k)
  {
    RowFits(k, n, w);
  }

  /** A finished stage has stored the stage of the whole input tensor. */
  lemma StageStored(s: Stage, f: TokenFn, start: Tensor, mem: Tensor)
    requires StageDone(s, f, start, mem)
    ensures Read(mem, s.out) == TokenRows(f, s.n, s.w, Read(start, s.src))
  {
    forall k | 0 <= k < s.n
      ensures Area(k, s.w) + s.w <= s.src.len
      ensures RowOf(Read(mem, s.out), s.w, k) == f.On(s.w, RowOf(Read(start, s.src), s.w, k))
    {
      RowOfRegion(start, s.src, s.w, k, s.n);
      RowOfRegion(mem, s.out, s.w, k, s.n);
    }
    TokenRowsAre(f, s.n, s.w, Read(start, s.src), Read(mem, s.out));
  }

  lemma SumStored(f: RowFn2, n: nat, w: nat, start: Tensor, mem: Tensor, a: Region, b: Region, dst: Region)
    requires |start| == |mem| && Inside(a, |mem|) && Inside(b, |mem|) && Inside(dst, |mem|)
    requires a.len == b.len == dst.len == Area(n, w) && RowOk2(f, w, w, w)
    requires Mapped2(f, start, mem, a, b, dst, w, n)
    ensures Read(mem, dst) == Zip(f, n, w, Read(start, a), Read(start, b))
  {
    forall k | 0 <= k < n
      ensures Area(k, w) + w <= a.len
      ensures RowOf(Read(mem, dst), w, k) == f(RowOf(Read(start, a), w, k), RowOf(Read(start, b), w, k))
    {
      RowOfRegion(start, a, w, k, n);
      RowOfRegion(start, b, w, k, n);
      RowOfRegion(mem, dst, w, k, n);
    }
    ZipIs(f, n, w, Read(start, a), Read(start, b), Read(mem, dst));
  }

  // ---------------------------------------------------------------------------
  // The layer as a function
  // ---------------------------------------------------------------------------

  /** `n` tokens with model rows of `w` cells and k and v rows of `kv` cells; a model tensor
      is also `count` elements of `elem` cells. */
  datatype Dims = Dims(n: nat, w: nat, kv: nat, count: nat, elem: nat) {
    function S(): nat { Area(n, w) }
    function KV(): nat { Area(n, kv) }
    predicate Ok() { Area(count, elem) == Area(n, w) }
  }

  /** The operations of one layer.  `adjust` stands for what happens to q, k and v in place:
      bias, head norms, rotary embedding. */
  datatype Layer = Layer(norm: RowFn, q: RowFn, k: RowFn, v: RowFn,
                         adjustQ: RowFn, adjustK: RowFn, adjustV: RowFn,
                         attend: Fn3, project: RowFn, addNorm: RowFn2, addUp: RowFn2,
                         ff: TokenFn, add: RowFn2)
  {
    ghost predicate Ok(d: Dims) {
      && d.Ok() && RowOk(norm, d.S(), d.S()) && RowOk(q, d.S(), d.S()) && RowOk(k, d.S(), d.KV()) && RowOk(v, d.S(), d.KV())
      && RowOk(adjustQ, d.S(), d.S()) && RowOk(adjustK, d.KV(), d.KV()) && RowOk(adjustV, d.KV(), d.KV())
      && RowOk3(attend, d.S(), d.KV(), d.KV(), d.S()) && RowOk(project, d.S(), d.S())
      && RowOk2(addNorm, d.S(), d.S(), d.S()) && RowOk2(addUp, d.S(), d.S(), d.S())
      && ff.Ok(d.w) && RowOk2(add, d.elem, d.elem, d.elem)
    }

    /** Norm, projections, attention, output projection. */
    ghost function Attention(d: Dims, x: Tensor): (r: Tensor)
      requires Ok(d) && |x| == d.S()
      ensures |r| == d.S()
    {
      project(attend(adjustQ(q(norm(x))), adjustK(k(norm(x))), adjustV(v(norm(x)))))
    }

    /** The pure layer: attention and feed-forward stage, each with its residual. */
    ghost function Apply(d: Dims, x: Tensor): (r: Tensor)
      requires Ok(d) && |x| == d.S()
      ensures |r| == d.S()
    {
      var att := Attention(d, x);
      Zip(add, d.count, d.elem, addUp(x, att), TokenRows(ff, d.n, d.w, addNorm(x, att)))
    }
  }

  /** What attention sees: wherever it looks at its queries, keys or values alone, these are the
      adjusted projections of the normed input, each its own. */
  lemma AttentionPaths(l: Layer, d: Dims, x: Tensor, g: RowFn)
    requires l.Ok(d) && |x| == d.S()
    ensures (forall a, b, c {:trigger l.attend(a, b, c)} :: l.attend(a, b, c) == g(a)) ==> l.Attention(d, x) == l.project(g(l.adjustQ(l.q(l.norm(x)))))
    ensures (forall a, b, c {:trigger l.attend(a, b, c)} :: l.attend(a, b, c) == g(b)) ==> l.Attention(d, x) == l.project(g(l.adjustK(l.k(l.norm(x)))))
    ensures (forall a, b, c {:trigger l.attend(a, b, c)} :: l.attend(a, b, c) == g(c)) ==> l.Attention(d, x) == l.project(g(l.adjustV(l.v(l.norm(x)))))
  {
  }

  /** The output of a layer: the sum, element by element, of the residual (the input with its
      attention) and the feed-forward stage of every normed token. */
  lemma ApplyIs(l: Layer, d: Dims, x: Tensor)
    requires l.Ok(d) && |x| == d.S()
    ensures IsZip(l.add, d.count, d.elem, l.addUp(x, l.Attention(d, x)), TokenRows(l.ff, d.n, d.w, l.addNorm(x, l.Attention(d, x))), l.Apply(d, x))
  {
    var att := l.Attention(d, x);
    IsZipOf(l.add, d.count, d.elem, l.addUp(x, att), TokenRows(l.ff, d.n, d.w, l.addNorm(x, att)));
  }

  lemma {:induction false} IsZipOf(f: RowFn2, n: nat, w: nat, a: Tensor, b: Tensor)
    requires RowOk2(f, w, w, w) && |a| == |b| == Area(n, w)
    ensures IsZip(f, n, w, a, b, Zip(f, n, w, a, b))
  {
    if n > 0 {
      var p := Area(n - 1, w);
      var r := Zip(f, n, w, a, b);
      IsZipOf(f, n - 1, w, a[..p], b[..p]);
      assert r[..p] == Zip(f, n - 1, w, a[..p], b[..p]);
      RowsOfPrefix(f, n, w, a, b, r);
      assert RowOf(r, w, n - 1) == f(RowOf(a, w, n - 1), RowOf(b, w, n - 1));
    }
  }

  lemma RowsOfPrefix(f: RowFn2, n: nat, w: nat, a: Tensor, b: Tensor, r: Tensor)
    requires n >= 1 && |a| == |b| == |r| == Area(n, w) && Area(n - 1, w) <= Area(n, w)
    requires var p := Area(n - 1, w); IsZip(f, n - 1, w, a[..p], b[..p], r[..p])
    ensures forall k :: 0 <= k < n - 1 ==> Area(k, w) + w <= |a| && RowOf(r, w, k) == f(RowOf(a, w, k), RowOf(b, w, k))
  {
    forall k | 0 <= k < n - 1 ensures Area(k, w) + w <= |a| && RowOf(r, w, k) == f(RowOf(a, w, k), RowOf(b, w, k)) {
      RowOfPrefix(a, w, k, n);
      RowOfPrefix(b, w, k, n);
      RowOfPrefix(r, w, k, n);
    }
  }

  ghost predicate RowOk3(f: Fn3, wa: nat, wb: nat, wc: nat, wo: nat) {
    forall a: Tensor, b: Tensor, c: Tensor {:trigger f(a, b, c)} ::
      |a| == wa && |b| == wb && |c| == wc ==> |f(a, b, c)| == wo
  }

  /** Layers applied one after another. */
  ghost function Compose(d: Dims, layers: seq<Layer>, x: Tensor): (r: Tensor)
    requires (forall l :: l in layers ==> l.Ok(d)) && |x| == d.S()
    ensures |r| == d.S()
  {
    if layers == [] then x
    else layers[|layers| - 1].Apply(d, Compose(d, layers[..|layers| - 1], x))
  }

  /** One layer is itself, and more layers go on from where fewer ended. */
  lemma {:induction false} ComposeInSteps(d: Dims, before: seq<Layer>, after: seq<Layer>, x: Tensor)
    requires (forall l :: l in before + after ==> l.Ok(d)) && |x| == d.S()
    requires (forall l :: l in before ==> l.Ok(d)) && (forall l :: l in after ==> l.Ok(d))
    ensures Compose(d, before + after, x) == Compose(d, after, Compose(d, before, x))
    ensures |after| == 1 ==> Compose(d, after, x) == after[0].Apply(d, x)
  {
    if after == [] {
      assert before + after == before;
    } else {
      var n := |after| - 1;
      assert (before + after)[..|before + after| - 1] == before + after[..n];
      ComposeInSteps(d, before, after[..n], x);
    }
  }

  // ---------------------------------------------------------------------------
  // The layer in place
  // ---------------------------------------------------------------------------

  /** Where the tensors of a layer live. */
  datatype Views = Views(x: Region, normed: Region, q: Region, k: Region, v: Region, tmp: Region, att: Region,
                         normed2: Region, residual: Region, a: Region, b: Region, c: Region,
                         out: Region, final: Region)
  {
    function Stage(d: Dims, cap: nat): Stage { FeedForward.Stage(normed2, a, b, c, out, d.n, cap, d.w) }

    /** Sizes, and all views inside the buffer. */
    predicate Fit(d: Dims, size: nat) {
      && x.len == normed.len == q.len == tmp.len == att.len == normed2.len == residual.len == out.len == final.len == d.S()
      && k.len == v.len == d.KV()
      && x.End() <= size && normed.End() <= size && q.End() <= size && k.End() <= size && v.End() <= size
      && tmp.End() <= size && att.End() <= size && normed2.End() <= size && residual.End() <= size
      && a.End() <= size && b.End() <= size && c.End() <= size && out.End() <= size && final.End() <= size
    }

    /** Tensors of the attention half that are needed at the same time are disjoint. */
    predicate AttentionApart() {
      && Disjoint(x, normed) && Disjoint(x, q) && Disjoint(x, k) && Disjoint(x, v) && Disjoint(x, tmp) && Disjoint(x, att)
      && Disjoint(normed, q) && Disjoint(normed, k) && Disjoint(normed, v)
      && Disjoint(q, k) && Disjoint(q, v) && Disjoint(k, v)
      && Disjoint(q, tmp) && Disjoint(k, tmp) && Disjoint(v, tmp) && Disjoint(tmp, att)
    }

    /** The same for the second half, outside the feed-forward stage; the final addition may
        write exactly over the output of that stage. */
    predicate ResidualApart() {
      && Disjoint(x, normed2) && Disjoint(att, normed2)
      && Disjoint(x, residual) && Disjoint(att, residual) && Disjoint(normed2, residual)
      && Disjoint(residual, a) && Disjoint(residual, b) && Disjoint(residual, c) && Disjoint(residual, out)
      && Disjoint(residual, final) && (Disjoint(out, final) || out == final)
    }

    /** Nothing but x lies in the memory of x. */
    predicate XAlone() {
      && Disjoint(x, normed) && Disjoint(x, q) && Disjoint(x, k) && Disjoint(x, v) && Disjoint(x, tmp) && Disjoint(x, att)
      && Disjoint(x, normed2) && Disjoint(x, residual)
      && Disjoint(x, a) && Disjoint(x, b) && Disjoint(x, c) && Disjoint(x, out) && Disjoint(x, final)
    }
  }

  /** How the feed-forward stage runs: in one piece, or in `chunks` tiles. */
  datatype Cut = Whole | Tiled(chunks: nat) {
    predicate Ok() { Tiled? ==> chunks >= 1 }
    function Rows(n: nat): nat requires Ok() { if Whole? then n else CeilDiv(n, chunks) }
  }

  /** The scratch of the feed-forward stage, in the form that the layer's stage needs. */
  predicate StagePlaced(d: Dims, u: Views, f: TokenFn, cut: Cut, size: nat)
    requires cut.Ok()
  {
    var s := u.Stage(d, cut.Rows(d.n));
    && (match f case OfMlp(m) => MlpPlaced(s, m.w, m.wi, size) case OfMoe(m) => MoePlaced(s, m, size))
    && (s.cap < s.n ==> s.Reusable())
  }

  /** Tensors that live at the same time are disjoint. */
  predicate Placed(d: Dims, u: Views, l: Layer, cut: Cut, size: nat)
    requires cut.Ok()
  {
    u.Fit(d, size) && u.AttentionApart() && u.ResidualApart() && StagePlaced(d, u, l.ff, cut, size)
  }

  /** Norm and the three projections; x is kept. */
  method Project(buf: array<Cell>, d: Dims, u: Views, l: Layer)
    requires l.Ok(d) && u.Fit(d, buf.Length) && u.AttentionApart()
    modifies buf
    ensures Read(buf[..], u.x) == Read(old(buf[..]), u.x)
    ensures var h := l.norm(Read(old(buf[..]), u.x));
            Read(buf[..], u.q) == l.q(h) && Read(buf[..], u.k) == l.k(h) && Read(buf[..], u.v) == l.v(h)
  {
    ghost var m0 := buf[..];
    Whole1(buf, u.x, u.normed, l.norm);
    ghost var m1 := buf[..];
    KeptOutside(m0, m1, u.normed, u.x);
    Whole1(buf, u.normed, u.q, l.q);
    ghost var m2 := buf[..];
    KeptOutside(m1, m2, u.q, u.x);
    KeptOutside(m1, m2, u.q, u.normed);
    Whole1(buf, u.normed, u.k, l.k);
    ghost var m3 := buf[..];
    KeptOutside(m2, m3, u.k, u.x);
    KeptOutside(m2, m3, u.k, u.normed);
    KeptOutside(m2, m3, u.k, u.q);
    Whole1(buf, u.normed, u.v, l.v);
    KeptOutside(m3, buf[..], u.v, u.x);
    KeptOutside(m3, buf[..], u.v, u.q);
    KeptOutside(m3, buf[..], u.v, u.k);
  }

  /** The updates of q, k and v in place; x is kept. */
  method Adjust(buf: array<Cell>, d: Dims, u: Views, l: Layer)
    requires l.Ok(d) && u.Fit(d, buf.Length) && u.AttentionApart()
    modifies buf
    ensures Read(buf[..], u.x) == Read(old(buf[..]), u.x)
    ensures Read(buf[..], u.q) == l.adjustQ(Read(old(buf[..]), u.q))
    ensures Read(buf[..], u.k) == l.adjustK(Read(old(buf[..]), u.k))
    ensures Read(buf[..], u.v) == l.adjustV(Read(old(buf[..]), u.v))
  {
    ghost var m0 := buf[..];
    InPlace(buf, u.q, l.adjustQ);
    ghost var m1 := buf[..];
    KeptOutside(m0, m1, u.q, u.x);
    KeptOutside(m0, m1, u.q, u.k);
    KeptOutside(m0, m1, u.q, u.v);
    InPlace(buf, u.k, l.adjustK);
    ghost var m2 := buf[..];
    KeptOutside(m1, m2, u.k, u.x);
    KeptOutside(m1, m2, u.k, u.q);
    KeptOutside(m1, m2, u.k, u.v);
    InPlace(buf, u.v, l.adjustV);
    KeptOutside(m2, buf[..], u.v, u.x);
    KeptOutside(m2, buf[..], u.v, u.q);
    KeptOutside(m2, buf[..], u.v, u.k);
  }

  /** Attention over q, k, v and the output projection; x is kept. */
  method Attend(buf: array<Cell>, d: Dims, u: Views, l: Layer)
    requires l.Ok(d) && u.Fit(d, buf.Length) && u.AttentionApart()
    modifies buf
    ensures Read(buf[..], u.x) == Read(old(buf[..]), u.x)
    ensures Read(buf[..], u.att) ==
            l.project(l.attend(Read(old(buf[..]), u.q), Read(old(buf[..]), u.k), Read(old(buf[..]), u.v)))
  {
    ghost var m0 := buf[..];
    Store(buf, u.tmp, l.attend(Read(buf[..], u.q), Read(buf[..], u.k), Read(buf[..], u.v)));
    ghost var m1 := buf[..];
    KeptOutside(m0, m1, u.tmp, u.x);
    Whole1(buf, u.tmp, u.att, l.project);
    KeptOutside(m1, buf[..], u.att, u.x);
  }

  /** The attention half of a layer. */
  method AttentionHalf(buf: array<Cell>, d: Dims, u: Views, l: Layer)
    requires l.Ok(d) && u.Fit(d, buf.Length) && u.AttentionApart()
    modifies buf
    ensures Read(buf[..], u.x) == Read(old(buf[..]), u.x)
    ensures Read(buf[..], u.att) == l.Attention(d, Read(old(buf[..]), u.x))
  {
    Project(buf, d, u, l);
    Adjust(buf, d, u, l);
    Attend(buf, d, u, l);
  }

  // ---------------------------------------------------------------------------
  // The feed-forward half
  // ---------------------------------------------------------------------------

  /** A single tile over all tokens is the whole stage. */
  lemma WholeTile(s: Stage, f: TokenFn, start: Tensor, mem: Tensor)
    requires f.Ok(s.w) && s.Inside(|mem|) && TileFrame(s, 0, s.n, start, mem) && Computed(s, f, start, mem, 0, s.n)
    ensures StageDone(s, f, start, mem)
  {
    forall r: Region | Inside(r, |mem|) && s.Foreign(r) ensures Read(mem, r) == Read(start, r) {
      assert s.Out(0, s.n) == s.out;
      assert s.Untouched(0, s.n, r);
    }
  }

  /** The stage as the layer calls it: tiled or in one piece, dense or with experts. */
  method RunStage(buf: array<Cell>, s: Stage, f: TokenFn, cut: Cut) returns (ok: bool)
    requires cut.Ok() && f.Ok(s.w) && s.cap == cut.Rows(s.n) && (s.cap < s.n ==> s.Reusable())
    requires match f case OfMlp(m) => MlpPlaced(s, m.w, m.wi, buf.Length) case OfMoe(m) => MoePlaced(s, m, buf.Length)
    modifies buf
    ensures ok <==> cut.Whole? || s.n > 0
    ensures ok ==> StageDone(s, f, old(buf[..]), buf[..])
    ensures !ok ==> buf[..] == old(buf[..])
  {
    ghost var start := buf[..];
    match cut
    case Tiled(chunks) =>
      var tiles;
      match f {
        case OfMlp(m) => ok, tiles := TiledMlp(buf, s, m, chunks);
        case OfMoe(m) => ok, tiles := TiledMoe(buf, s, m, chunks);
      }
    case Whole =>
      match f {
        case OfMlp(m) => MlpTile(buf, s, m, 0, s.n);
        case OfMoe(m) =>
          var routing := Route(buf, s, m);
          RowsFromStart(s, m, buf[..], routing);
          MoeTile(buf, s, m, 0, s.n, routing);
      }
      WholeTile(s, f, start, buf[..]);
      ok := true;
  }

  lemma RowsFromStart(s: Stage, m: Moe, mem: Tensor, routing: seq<Tensor>)
    requires IsRouting(m, s.n, mem, s.src, routing) && s.src.len == Area(s.n, s.w)
    ensures IsRouting(m, s.n, mem, s.Src(0, s.n), routing)
  {
    assert s.Src(0, s.n) == s.src;
  }

  /** The fused residual addition and norm: two outputs from x and the attention output. */
  method AddAndNorm(buf: array<Cell>, d: Dims, u: Views, l: Layer)
    requires l.Ok(d) && u.Fit(d, buf.Length) && u.ResidualApart()
    modifies buf
    ensures Read(buf[..], u.x) == Read(old(buf[..]), u.x)
    ensures Read(buf[..], u.normed2) == l.addNorm(Read(old(buf[..]), u.x), Read(old(buf[..]), u.att))
    ensures Read(buf[..], u.residual) == l.addUp(Read(old(buf[..]), u.x), Read(old(buf[..]), u.att))
  {
    ghost var m0 := buf[..];
    Whole2(buf, u.x, u.att, u.normed2, l.addNorm);
    ghost var m1 := buf[..];
    KeptOutside(m0, m1, u.normed2, u.x);
    KeptOutside(m0, m1, u.normed2, u.att);
    Whole2(buf, u.x, u.att, u.residual, l.addUp);
    KeptOutside(m1, buf[..], u.residual, u.x);
    KeptOutside(m1, buf[..], u.residual, u.normed2);
  }

  /** The feed-forward stage and the final addition. */
  method FeedForwardHalf(buf: array<Cell>, d: Dims, u: Views, l: Layer, cut: Cut) returns (ok: bool)
    requires cut.Ok() && l.Ok(d) && u.Fit(d, buf.Length) && u.ResidualApart() && StagePlaced(d, u, l.ff, cut, buf.Length)
    modifies buf
    ensures ok <==> cut.Whole? || d.n > 0
    ensures ok ==> Read(buf[..], u.final) ==
                   Zip(l.add, d.count, d.elem, Read(old(buf[..]), u.residual),
                       TokenRows(l.ff, d.n, d.w, Read(old(buf[..]), u.normed2)))
    ensures u.XAlone() ==> Read(buf[..], u.x) == Read(old(buf[..]), u.x)
  {
    ok := FeedForwardStage(buf, d, u, l, cut);
    if ok {
      AddResidual(buf, d, u, l);
    }
  }

  /** The stage on all tokens; the residual is kept. */
  method FeedForwardStage(buf: array<Cell>, d: Dims, u: Views, l: Layer, cut: Cut) returns (ok: bool)
    requires cut.Ok() && l.Ok(d) && u.Fit(d, buf.Length) && u.ResidualApart() && StagePlaced(d, u, l.ff, cut, buf.Length)
    modifies buf
    ensures ok <==> cut.Whole? || d.n > 0
    ensures ok ==> Read(buf[..], u.out) == TokenRows(l.ff, d.n, d.w, Read(old(buf[..]), u.normed2))
    ensures ok ==> Read(buf[..], u.residual) == Read(old(buf[..]), u.residual)
    ensures u.XAlone() ==> Read(buf[..], u.x) == Read(old(buf[..]), u.x)
  {
    ghost var m0 := buf[..];
    ghost var s := u.Stage(d, cut.Rows(d.n));
    ok := RunStage(buf, u.Stage(d, cut.Rows(d.n)), l.ff, cut);
    if ok {
      StageStored(s, l.ff, m0, buf[..]);
      assert s.Foreign(u.residual);
      assert u.XAlone() ==> s.Foreign(u.x);
    }
  }

  /** The final addition, which may write exactly over the output of the stage. */
  method AddResidual(buf: array<Cell>, d: Dims, u: Views, l: Layer)
    requires l.Ok(d) && u.Fit(d, buf.Length) && u.ResidualApart()
    modifies buf
    ensures Read(buf[..], u.final) == Zip(l.add, d.count, d.elem, Read(old(buf[..]), u.residual), Read(old(buf[..]), u.out))
    ensures u.XAlone() ==> Read(buf[..], u.x) == Read(old(buf[..]), u.x)
  {
    ghost var m := buf[..];
    RowOp2(buf, u.residual, u.out, u.final, d.count, d.elem, l.add);
    SumStored(l.add, d.count, d.elem, m, buf[..], u.residual, u.out, u.final);
    if u.XAlone() {
      KeptOutside(m, buf[..], u.final, u.x);
    }
  }

  /** One layer in place: final_output holds the pure layer of x.  If no tensor shares the
      memory of x, x is left as it was. */
  method RunLayer(buf: array<Cell>, d: Dims, u: Views, l: Layer, cut: Cut) returns (ok: bool)
    requires cut.Ok() && l.Ok(d) && Placed(d, u, l, cut, buf.Length)
    modifies buf
    ensures ok <==> cut.Whole? || d.n > 0
    ensures ok ==> Read(buf[..], u.final) == l.Apply(d, Read(old(buf[..]), u.x))
    ensures u.XAlone() ==> Read(buf[..], u.x) == Read(old(buf[..]), u.x)
  {
    AttentionHalf(buf, d, u, l);
    AddAndNorm(buf, d, u, l);
    ok := FeedForwardHalf(buf, d, u, l, cut);
  }

  // ---------------------------------------------------------------------------
  // The loop over the layers
  // ---------------------------------------------------------------------------

  ghost predicate LayersOk(d: Dims, layers: seq<Layer>) {
    forall l :: l in layers ==> l.Ok(d)
  }

  ghost predicate AllPlaced(d: Dims, u: Views, layers: seq<Layer>, cut: Cut, size: nat)
    requires cut.Ok()
  {
    u.Fit(d, size) && forall l :: l in layers ==> Placed(d, u, l, cut, size)
  }

  lemma ComposeStep(d: Dims, layers: seq<Layer>, i: nat, x: Tensor)
    requires LayersOk(d, layers) && i < |layers| && |x| == d.S()
    ensures LayersOk(d, layers[..i]) && LayersOk(d, layers[..i + 1]) && layers[i].Ok(d)
    ensures Compose(d, layers[..i + 1], x) == layers[i].Apply(d, Compose(d, layers[..i], x))
  {
    assert layers[..i + 1][..i] == layers[..i];
    assert layers[i] in layers;
  }

  /** LLaDA and Dream: every layer reads `x` and writes `final_output`, and `x` is never
      rebound.  When final_output occupies x, the run is the composition of all layers.  When
      nothing shares the memory of x, the run leaves x as it was: the layers are lost. */
  method RunShared(buf: array<Cell>, d: Dims, u: Views, layers: seq<Layer>, cut: Cut) returns (ok: bool)
    requires cut.Ok() && LayersOk(d, layers) && AllPlaced(d, u, layers, cut, buf.Length)
    modifies buf
    ensures ok <==> cut.Whole? || d.n > 0 || layers == []
    ensures ok && u.final == u.x ==> Read(buf[..], u.x) == Compose(d, layers, Read(old(buf[..]), u.x))
    ensures u.XAlone() ==> Read(buf[..], u.x) == Read(old(buf[..]), u.x)
  {
    ghost var x0 := Read(buf[..], u.x);
    for i := 0 to |layers|
      invariant i > 0 ==> cut.Whole? || d.n > 0
      invariant LayersOk(d, layers[..i])
      invariant u.final == u.x ==> Read(buf[..], u.x) == Compose(d, layers[..i], x0)
      invariant u.XAlone() ==> Read(buf[..], u.x) == x0
    {
      assert layers[i] in layers;
      ComposeStep(d, layers, i, x0);
      ok := RunLayer(buf, d, u, layers[i], cut);
      if !ok {
        return;
      }
    }
    assert layers[..|layers|] == layers;
    ok := true;
  }

  /** LLaDA-MoE: after every layer `x` is rebound to final_output.  The run is the
      composition of all layers wherever final_output lies, provided that it is a legal place
      for x too. */
  method RunRebound(buf: array<Cell>, d: Dims, u: Views, layers: seq<Layer>, cut: Cut) returns (ok: bool, x: Region)
    requires cut.Ok() && LayersOk(d, layers) && AllPlaced(d, u, layers, cut, buf.Length)
    requires AllPlaced(d, u.(x := u.final), layers, cut, buf.Length)
    modifies buf
    ensures ok <==> cut.Whole? || d.n > 0 || layers == []
    ensures x == if ok && layers != [] then u.final else u.x
    ensures ok ==> Read(buf[..], x) == Compose(d, layers, Read(old(buf[..]), u.x))
  {
    ghost var x0 := Read(buf[..], u.x);
    x := u.x;
    for i := 0 to |layers|
      invariant i > 0 ==> cut.Whole? || d.n > 0
      invariant x == if i == 0 then u.x else u.final
      invariant LayersOk(d, layers[..i])
      invariant Read(buf[..], x) == Compose(d, layers[..i], x0)
    {
      assert layers[i] in layers;
      ComposeStep(d, layers, i, x0);
      assert Placed(d, u.(x := x), layers[i], cut, buf.Length);
      ok := RunLayer(buf, d, u.(x := x), layers[i], cut);
      if !ok {
        return;
      }
      x := u.final;
    }
    assert layers[..|layers|] == layers;
    ok := true;
  }
}
