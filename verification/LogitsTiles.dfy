/** The last stage of a forward pass (vllm_add_llada/llada_model.py, vllm_add_dream/dream_model.py,
    vllm_add_llada_moe/llada_moe_model.py): logits and samples for the masked output positions,
    in tiles that reuse one small logits tensor of the activation buffer. */
module LogitsTiles {
  import opened Arith
  import opened FlatBuffer
  import opened DecoderLayer

  // ---------------------------------------------------------------------------
  // Which hidden states are read
  // ---------------------------------------------------------------------------

  /** The first position of the Python slice `[start:...]` of a sequence of length `n`. */
  function SliceStart(n: nat, start: int): (r: nat)
    ensures r <= n
  {
    if start < 0 then Max(n + start, 0) else Min(start, n)
  }

  /** Where the slice of output positions starts: LLaDA and LLaDA-MoE take x[-O:], Dream takes
      x[-O-1:-1]; with no output tokens all take the whole of x. */
  function OutputStart(dream: bool, p: nat, o: nat): nat {
    if o == 0 then 0 else if dream then SliceStart(p + o, 0 - o - 1) else SliceStart(p + o, 0 - o)
  }

  /** Output position `j` is read at its own place P + j by LLaDA, and one place earlier by
      Dream, unless there is no prompt: then Dream reads place j itself. */
  lemma OutputPlace(dream: bool, p: nat, o: nat, j: nat)
    requires j < o
    ensures OutputStart(dream, p, o) + j < p + o
    ensures OutputStart(dream, p, o) + j == (if dream && p >= 1 then p + j - 1 else p + j)
    ensures dream ==> (OutputStart(dream, p, o) + j == p + j - 1 <==> p >= 1)
  {
  }

  // ---------------------------------------------------------------------------
  // One tile
  // ---------------------------------------------------------------------------

  /** The row-wise view of the last stage: `n` hidden rows of `w` cells at `x`, logits rows of
      `v` cells at `logits` (room for `cap` of them), and the two row functions. */
  datatype Head = Head(x: Region, logits: Region, n: nat, w: nat, v: nat, cap: nat, gemm: RowFn, sample: RowFn, ws: nat) {
    ghost predicate Ok(size: nat) {
      && Inside(x, size) && Inside(logits, size) && Disjoint(x, logits)
      && x.len == Area(n, w) && logits.len == Area(cap, v)
      && RowOk(gemm, w, v) && RowOk(sample, v, ws)
    }

    /** The sample of the hidden state in row `k` of a memory. */
    ghost function SampleOf(mem: Tensor, k: nat): Tensor
      requires Ok(|mem|) && k < n
    {
      RowInside(x, w, k, n);
      sample(gemm(RowAt(mem, x, w, k)))
    }
  }

  ghost predicate Gathered(h: Head, was: Tensor, mem: Tensor, rows: seq<nat>, r: nat)
    requires h.Ok(|mem|) && |was| == |mem| && r <= |rows|
  {
    forall k :: 0 <= k < r ==>
      rows[k] < h.n && Inside(RowRegion(h.x, h.w, rows[k]), |mem|) && Inside(RowRegion(h.logits, h.v, k), |mem|)
      && RowAt(mem, h.logits, h.v, k) == h.gemm(RowAt(was, h.x, h.w, rows[k]))
  }

  /** The gather-GEMM of a tile: logits row `k` is the projection of hidden row `rows[k]`. */
  method GatherTile(buf: array<Cell>, h: Head, rows: seq<nat>)
    requires h.Ok(buf.Length) && |rows| <= h.cap && forall k :: 0 <= k < |rows| ==> rows[k] < h.n
    modifies buf
    ensures Gathered(h, old(buf[..]), buf[..], rows, |rows|)
    ensures OnlyIn(old(buf[..]), buf[..], h.logits)
  {
    ghost var was := buf[..];
    var r := 0;
    AreaMono(|rows|, h.cap, h.v);
    while r < |rows|
      invariant 0 <= r <= |rows| && Area(r, h.v) <= h.logits.len
      invariant Gathered(h, was, buf[..], rows, r)
      invariant OnlyIn(was, buf[..], Region(h.logits.off, Area(r, h.v)))
    {
      ghost var before := buf[..];
      RowKept(was, before, Region(h.logits.off, Area(r, h.v)), h.x, h.w, rows[r], h.n);
      RowInside(h.logits, h.v, r, h.cap);
      Store(buf, RowRegion(h.logits, h.v, r), h.gemm(RowAt(buf[..], h.x, h.w, rows[r])));
      RowsBehind(was, before, buf[..], h.logits, h.v, r, h.cap);
      r := r + 1;
    }
  }

  ghost predicate Sampled(h: Head, was: Tensor, rows: seq<nat>, out: seq<Tensor>, n: nat)
    requires h.Ok(|was|) && n <= |rows| && n <= |out|
  {
    forall k :: 0 <= k < n ==> rows[k] < h.n && out[k] == h.SampleOf(was, rows[k])
  }

  /** The sampler, row by row. */
  method SampleRows(mem: Tensor, h: Head, n: nat) returns (out: seq<Tensor>)
    requires h.Ok(|mem|) && n <= h.cap
    ensures |out| == n
    ensures forall k :: 0 <= k < n ==>
              Inside(RowRegion(h.logits, h.v, k), |mem|) && out[k] == h.sample(RowAt(mem, h.logits, h.v, k))
  {
    out := [];
    for k := 0 to n
      invariant |out| == k
      invariant forall r :: 0 <= r < k ==>
                  Inside(RowRegion(h.logits, h.v, r), |mem|) && out[r] == h.sample(RowAt(mem, h.logits, h.v, r))
    {
      RowInside(h.logits, h.v, k, h.cap);
      out := out + [h.sample(RowAt(mem, h.logits, h.v, k))];
    }
  }

  /** Gather and sample one tile. */
  method SampleTile(buf: array<Cell>, h: Head, rows: seq<nat>) returns (out: seq<Tensor>)
    requires h.Ok(buf.Length) && |rows| <= h.cap && forall k :: 0 <= k < |rows| ==> rows[k] < h.n
    modifies buf
    ensures |out| == |rows| && Sampled(h, old(buf[..]), rows, out, |rows|)
    ensures OnlyIn(old(buf[..]), buf[..], h.logits)
  {
    GatherTile(buf, h, rows);
    out := SampleRows(buf[..], h, |rows|);
  }

  // ---------------------------------------------------------------------------
  // All tiles
  // ---------------------------------------------------------------------------

  /** Appending the samples of the next tile. */
  lemma SampledGrows(h: Head, was: Tensor, mem: Tensor, rows: seq<nat>, out: seq<Tensor>, tile: seq<Tensor>, i: nat, e: nat)
    requires h.Ok(|was|) && OnlyIn(was, mem, h.logits) && i <= e <= |rows| && |out| == i && |tile| == e - i
    requires Sampled(h, was, rows, out, i) && Sampled(h, mem, rows[i..e], tile, e - i)
    ensures Sampled(h, was, rows, out + tile, e)
  {
    forall k | 0 <= k < e ensures rows[k] < h.n && (out + tile)[k] == h.SampleOf(was, rows[k]) {
      if k >= i {
        assert rows[i..e][k - i] == rows[k];
        assert tile[k - i] == h.SampleOf(mem, rows[k]);
        RowKept(was, mem, h.logits, h.x, h.w, rows[k], h.n);
      }
    }
  }

  /** Logits and samples for the hidden rows `rows`, in tiles or in one piece.  The samples
      are those of every row on its own, in order; only the logits tensor is overwritten.  A
      tiled run without masked positions has tiles of 0 rows, and raises. */
  method SampleLogits(buf: array<Cell>, h: Head, rows: seq<nat>, cut: Cut) returns (ok: bool, out: seq<Tensor>)
    requires cut.Ok() && h.Ok(buf.Length) && h.cap == cut.Rows(|rows|)
    requires forall k :: 0 <= k < |rows| ==> rows[k] < h.n
    modifies buf
    ensures ok <==> cut.Whole? || |rows| > 0
    ensures ok ==> |out| == |rows| && Sampled(h, old(buf[..]), rows, out, |rows|)
    ensures OnlyIn(old(buf[..]), buf[..], h.logits)
  {
    out := [];
    match cut
    case Whole =>
      out := SampleTile(buf, h, rows);
      ok := true;
    case Tiled(chunks) =>
      if |rows| == 0 {
        return false, [];
      }
      CeilDivBounds(|rows|, chunks);
      var i := 0;
      while i < |rows|
        invariant 0 <= i <= |rows| && |out| == i
        invariant Sampled(h, old(buf[..]), rows, out, i)
        invariant OnlyIn(old(buf[..]), buf[..], h.logits)
      {
        var e := Min(i + h.cap, |rows|);
        ghost var mem := buf[..];
        var tile := SampleTile(buf, h, rows[i..e]);
        SampledGrows(h, old(buf[..]), mem, rows, out, tile, i, e);
        out := out + tile;
        i := e;
      }
      ok := true;
  }
}
