/** Views of one flat activation buffer.  A cell is one byte; a tensor is a contiguous
    region and its value is the sequence of its cells.  Row `r` of a tensor with rows of
    `w` cells starts at `Area(r, w)`, which is `r * w`. */
module FlatBuffer {

  type Cell = int
  type Tensor = seq<Cell>

  /** The number of cells in `n` rows of width `w`. */
  function Area(n: nat, w: nat): nat {
    if n == 0 then 0 else Area(n - 1, w) + w
  }

  lemma {:induction false} AreaIsProduct(n: nat, w: nat)
    ensures Area(n, w) == n * w
  {
    if n > 0 {
      AreaIsProduct(n - 1, w);
    }
  }

  lemma {:induction false} AreaSum(i: nat, j: nat, w: nat)
    ensures Area(i + j, w) == Area(i, w) + Area(j, w)
  {
    if j > 0 {
      AreaSum(i, j - 1, w);
    }
  }

  lemma AreaMono(i: nat, j: nat, w: nat)
    requires i <= j
    ensures Area(i, w) <= Area(j, w) && Area(j - i, w) == Area(j, w) - Area(i, w)
  {
    AreaSum(i, j - i, w);
  }

  datatype Region = Region(off: nat, len: nat) {
    function End(): nat { off + len }
  }

  predicate Disjoint(a: Region, b: Region) {
    a.End() <= b.off || b.End() <= a.off
  }

  predicate Inside(r: Region, size: nat) { r.End() <= size }

  function Read(mem: Tensor, r: Region): (v: Tensor)
    requires Inside(r, |mem|)
    ensures |v| == r.len
  {
    mem[r.off..r.End()]
  }

  /** Rows `i` to `j` of a tensor with rows of `w` cells. */
  function Slice(r: Region, w: nat, i: nat, j: nat): Region
    requires i <= j
  {
    Region(r.off + Area(i, w), Area(j - i, w))
  }

  /** Two memories agree outside region `r`. */
  ghost predicate OnlyIn(before: Tensor, mem: Tensor, r: Region) {
    |before| == |mem| && forall c :: 0 <= c < |mem| && !(r.off <= c < r.End()) ==> mem[c] == before[c]
  }

  lemma KeptOutside(before: Tensor, mem: Tensor, r: Region, s: Region)
    requires OnlyIn(before, mem, r) && Inside(s, |mem|) && Disjoint(r, s)
    ensures Read(mem, s) == Read(before, s)
  {
    assert forall c :: 0 <= c < s.len ==> Read(mem, s)[c] == mem[s.off + c] == before[s.off + c] == Read(before, s)[c];
  }

  // ---------------------------------------------------------------------------
  // Rows
  // ---------------------------------------------------------------------------

  type RowFn = Tensor -> Tensor
  type RowFn2 = (Tensor, Tensor) -> Tensor

  ghost predicate RowOk(f: RowFn, wi: nat, wo: nat) {
    forall row: Tensor {:trigger f(row)} :: |row| == wi ==> |f(row)| == wo
  }

  ghost predicate RowOk2(f: RowFn2, wa: nat, wb: nat, wo: nat) {
    forall a: Tensor, b: Tensor {:trigger f(a, b)} :: |a| == wa && |b| == wb ==> |f(a, b)| == wo
  }

  lemma RowFits(r: nat, n: nat, w: nat)
    requires r < n
    ensures Area(r, w) + w == Area(r + 1, w) <= Area(n, w)
  {
    AreaMono(r + 1, n, w);
  }

  /** The region of row `k`, and its value. */
  function RowRegion(r: Region, w: nat, k: nat): Region { Region(r.off + Area(k, w), w) }

  function RowAt(mem: Tensor, r: Region, w: nat, k: nat): (row: Tensor)
    requires Inside(RowRegion(r, w, k), |mem|)
    ensures |row| == w
  {
    Read(mem, RowRegion(r, w, k))
  }

  /** The first `n` rows of a region lie inside it. */
  lemma RowInside(r: Region, w: nat, k: nat, n: nat)
    requires k < n && Area(n, w) <= r.len
    ensures r.off <= RowRegion(r, w, k).off && RowRegion(r, w, k).End() <= r.End()
  {
    RowFits(k, n, w);
  }

  /** Rows of a region apart from the written one are kept. */
  lemma RowKept(before: Tensor, mem: Tensor, written: Region, r: Region, w: nat, k: nat, n: nat)
    requires OnlyIn(before, mem, written) && Inside(r, |mem|) && Disjoint(written, r) && k < n && Area(n, w) <= r.len
    ensures Inside(RowRegion(r, w, k), |mem|) && RowAt(mem, r, w, k) == RowAt(before, r, w, k)
  {
    RowInside(r, w, k, n);
    KeptOutside(before, mem, written, RowRegion(r, w, k));
  }

  /** Rows of the part [i, e) of a tensor are rows of the tensor. */
  lemma RowOfSlice(r: Region, w: nat, i: nat, e: nat, k: nat)
    requires i <= e && k < e - i
    ensures RowRegion(Slice(r, w, i, e), w, k) == RowRegion(r, w, i + k)
  {
    AreaSum(i, k, w);
  }

  // ---------------------------------------------------------------------------
  // Operations on the buffer
  // ---------------------------------------------------------------------------

  /** Write a value to a region of the buffer. */
  method Store(buf: array<Cell>, r: Region, v: Tensor)
    requires Inside(r, buf.Length) && |v| == r.len
    modifies buf
    ensures Read(buf[..], r) == v && OnlyIn(old(buf[..]), buf[..], r)
  {
    for i := 0 to |v|
      invariant forall c :: 0 <= c < i ==> buf[r.off + c] == v[c]
      invariant forall c :: 0 <= c < buf.Length && !(r.off <= c < r.off + i) ==> buf[c] == old(buf[c])
    {
      buf[r.off + i] := v[i];
    }
  }

  /** An operation on whole tensors; its output may not overlap its inputs. */
  method Whole1(buf: array<Cell>, src: Region, dst: Region, f: RowFn)
    requires Inside(src, buf.Length) && Inside(dst, buf.Length) && Disjoint(src, dst)
    requires RowOk(f, src.len, dst.len)
    modifies buf
    ensures Read(buf[..], dst) == f(Read(old(buf[..]), src)) && OnlyIn(old(buf[..]), buf[..], dst)
  {
    Store(buf, dst, f(Read(buf[..], src)));
  }

  method Whole2(buf: array<Cell>, a: Region, b: Region, dst: Region, f: RowFn2)
    requires Inside(a, buf.Length) && Inside(b, buf.Length) && Inside(dst, buf.Length)
    requires Disjoint(a, dst) && Disjoint(b, dst) && RowOk2(f, a.len, b.len, dst.len)
    modifies buf
    ensures Read(buf[..], dst) == f(Read(old(buf[..]), a), Read(old(buf[..]), b)) && OnlyIn(old(buf[..]), buf[..], dst)
  {
    Store(buf, dst, f(Read(buf[..], a), Read(buf[..], b)));
  }

  /** An update of a tensor in its own place. */
  method InPlace(buf: array<Cell>, r: Region, f: RowFn)
    requires Inside(r, buf.Length) && RowOk(f, r.len, r.len)
    modifies buf
    ensures Read(buf[..], r) == f(Read(old(buf[..]), r)) && OnlyIn(old(buf[..]), buf[..], r)
  {
    Store(buf, r, f(Read(buf[..], r)));
  }

  /** Rows [0, r) of `dst` hold `f` of the corresponding rows of `src`. */
  ghost predicate Mapped(f: RowFn, was: Tensor, mem: Tensor, src: Region, dst: Region, wi: nat, wo: nat, r: nat)
    requires |was| == |mem|
  {
    forall k :: 0 <= k < r ==>
      Inside(RowRegion(src, wi, k), |mem|) && Inside(RowRegion(dst, wo, k), |mem|) &&
      RowAt(mem, dst, wo, k) == f(RowAt(was, src, wi, k))
  }

  ghost predicate Mapped2(f: RowFn2, was: Tensor, mem: Tensor, a: Region, b: Region, dst: Region, w: nat, r: nat)
    requires |was| == |mem|
  {
    forall k :: 0 <= k < r ==>
      Inside(RowRegion(a, w, k), |mem|) && Inside(RowRegion(b, w, k), |mem|) && Inside(RowRegion(dst, w, k), |mem|) &&
      RowAt(mem, dst, w, k) == f(RowAt(was, a, w, k), RowAt(was, b, w, k))
  }

  ghost predicate MappedWith(f: RowFn2, was: Tensor, mem: Tensor, src: Region, aux: seq<Tensor>, dst: Region, wi: nat, wo: nat, r: nat)
    requires |was| == |mem| && r <= |aux|
  {
    forall k :: 0 <= k < r ==>
      Inside(RowRegion(src, wi, k), |mem|) && Inside(RowRegion(dst, wo, k), |mem|) &&
      RowAt(mem, dst, wo, k) == f(RowAt(was, src, wi, k), aux[k])
  }

  /** The effect of writing row `r` behind rows already written: earlier rows stay, and the
      next input row, if it is apart from or equal to the output, has not been touched. */
  lemma RowsBehind(was: Tensor, before: Tensor, mem: Tensor, dst: Region, wo: nat, r: nat, n: nat)
    requires r < n && Area(n, wo) <= dst.len && Inside(dst, |mem|) && |was| == |before|
    requires OnlyIn(was, before, Region(dst.off, Area(r, wo)))
    requires OnlyIn(before, mem, RowRegion(dst, wo, r))
    ensures Area(r + 1, wo) <= dst.len && OnlyIn(was, mem, Region(dst.off, Area(r + 1, wo)))
    ensures forall k :: 0 <= k < r ==> Inside(RowRegion(dst, wo, k), |mem|) && RowAt(mem, dst, wo, k) == RowAt(before, dst, wo, k)
  {
    RowFits(r, n, wo);
    forall k | 0 <= k < r
      ensures Inside(RowRegion(dst, wo, k), |mem|) && RowAt(mem, dst, wo, k) == RowAt(before, dst, wo, k)
    {
      RowFits(k, r, wo);
      KeptOutside(before, mem, RowRegion(dst, wo, r), RowRegion(dst, wo, k));
    }
  }

  lemma NextRow(was: Tensor, before: Tensor, src: Region, dst: Region, wi: nat, wo: nat, r: nat, n: nat)
    requires r < n && Area(n, wi) <= src.len && Inside(src, |before|) && Area(r, wo) <= dst.len
    requires OnlyIn(was, before, Region(dst.off, Area(r, wo)))
    requires Disjoint(src, dst) || (src.off == dst.off && wi == wo)
    ensures Inside(RowRegion(src, wi, r), |was|) && RowAt(before, src, wi, r) == RowAt(was, src, wi, r)
  {
    RowInside(src, wi, r, n);
    KeptOutside(was, before, Region(dst.off, Area(r, wo)), RowRegion(src, wi, r));
  }

  /** Row-wise operation with an `out=` region.  Rows are produced one after another from the
      current contents of the buffer, so the output region must be apart from the input, or be
      exactly the input with rows of the same width. */
  method RowOp(buf: array<Cell>, src: Region, dst: Region, n: nat, wi: nat, wo: nat, f: RowFn)
    requires Inside(src, buf.Length) && Inside(dst, buf.Length) && RowOk(f, wi, wo)
    requires src.len == Area(n, wi) && dst.len == Area(n, wo)
    requires Disjoint(src, dst) || (src == dst && wi == wo)
    modifies buf
    ensures Mapped(f, old(buf[..]), buf[..], src, dst, wi, wo, n) && OnlyIn(old(buf[..]), buf[..], dst)
  {
    ghost var was := buf[..];
    var r := 0;
    while r < n
      invariant 0 <= r <= n && Area(r, wo) <= dst.len
      invariant Mapped(f, was, buf[..], src, dst, wi, wo, r)
      invariant OnlyIn(was, buf[..], Region(dst.off, Area(r, wo)))
    {
      ghost var before := buf[..];
      NextRow(was, before, src, dst, wi, wo, r, n);
      RowInside(dst, wo, r, n);
      Store(buf, RowRegion(dst, wo, r), f(RowAt(buf[..], src, wi, r)));
      RowsBehind(was, before, buf[..], dst, wo, r, n);
      r := r + 1;
    }
  }

  /** The same for two inputs. */
  method RowOp2(buf: array<Cell>, a: Region, b: Region, dst: Region, n: nat, w: nat, f: RowFn2)
    requires Inside(a, buf.Length) && Inside(b, buf.Length) && Inside(dst, buf.Length) && RowOk2(f, w, w, w)
    requires a.len == b.len == dst.len == Area(n, w)
    requires (Disjoint(a, dst) || a == dst) && (Disjoint(b, dst) || b == dst)
    modifies buf
    ensures Mapped2(f, old(buf[..]), buf[..], a, b, dst, w, n) && OnlyIn(old(buf[..]), buf[..], dst)
  {
    ghost var was := buf[..];
    var r := 0;
    while r < n
      invariant 0 <= r <= n && Area(r, w) <= dst.len
      invariant Mapped2(f, was, buf[..], a, b, dst, w, r)
      invariant OnlyIn(was, buf[..], Region(dst.off, Area(r, w)))
    {
      ghost var before := buf[..];
      NextRow(was, before, a, dst, w, w, r, n);
      NextRow(was, before, b, dst, w, w, r, n);
      RowInside(dst, w, r, n);
      Store(buf, RowRegion(dst, w, r), f(RowAt(buf[..], a, w, r), RowAt(buf[..], b, w, r)));
      RowsBehind(was, before, buf[..], dst, w, r, n);
      r := r + 1;
    }
  }

  /** Row-wise operation on a tensor of the buffer and rows held elsewhere. */
  method RowOpWith(buf: array<Cell>, src: Region, aux: seq<Tensor>, dst: Region, n: nat, wi: nat, wx: nat, wo: nat, f: RowFn2)
    requires Inside(src, buf.Length) && Inside(dst, buf.Length) && Disjoint(src, dst) && RowOk2(f, wi, wx, wo)
    requires src.len == Area(n, wi) && dst.len == Area(n, wo) && |aux| == n
    requires forall k :: 0 <= k < n ==> |aux[k]| == wx
    modifies buf
    ensures MappedWith(f, old(buf[..]), buf[..], src, aux, dst, wi, wo, n) && OnlyIn(old(buf[..]), buf[..], dst)
  {
    ghost var was := buf[..];
    var r := 0;
    while r < n
      invariant 0 <= r <= n && Area(r, wo) <= dst.len
      invariant MappedWith(f, was, buf[..], src, aux, dst, wi, wo, r)
      invariant OnlyIn(was, buf[..], Region(dst.off, Area(r, wo)))
    {
      ghost var before := buf[..];
      NextRow(was, before, src, dst, wi, wo, r, n);
      RowInside(dst, wo, r, n);
      Store(buf, RowRegion(dst, wo, r), f(RowAt(buf[..], src, wi, r), aux[r]));
      RowsBehind(was, before, buf[..], dst, wo, r, n);
      r := r + 1;
    }
  }
}
