/** The fused gather-GEMM kernel of gather_gemm/gather_gemm_kernel.py: a grid of program
    instances, each of which finds its output tile through a grouped swizzle, accumulates
    over blocks of K with masked loads, and stores its tile into one shared output buffer.
    Arithmetic on elements is exact (`real`). */
module GatherGemm {
  import opened Arith

  // ---------------------------------------------------------------------------
  // The grouped swizzle
  // ---------------------------------------------------------------------------

  /** A tile of the output: row block `m`, column block `n`. */
  datatype Tile = Tile(m: nat, n: nat)

  /** The number of tile rows in the group that starts at tile row `first`; the last
      group may be ragged. */
  function GroupRows(first: nat, numM: nat, group: nat): int {
    Min(numM - first, group)
  }

  /** The tile row at which the group of `pid` starts. */
  function GroupStart(pid: nat, numN: nat, group: nat): nat
    requires group >= 1 && numN >= 1
  {
    MulMono(1, group, numN);
    MulMono(0, pid / (group * numN), group);
    (pid / (group * numN)) * group
  }

  /** The group of `pid` starts inside the grid, and `pid` lies in the group's window of
      exactly (rows of the group) * numN program ids. */
  lemma GroupWindow(pid: nat, numM: nat, numN: nat, group: nat)
    requires group >= 1 && pid < numM * numN && numN >= 1
    ensures GroupStart(pid, numN, group) < numM
    ensures GroupRows(GroupStart(pid, numN, group), numM, group) >= 1
    ensures var first := GroupStart(pid, numN, group);
            first * numN <= pid < first * numN + GroupRows(first, numM, group) * numN
  {
    var per := group * numN;
    MulMono(1, group, numN);
    var g := pid / per;
    var first := GroupStart(pid, numN, group);
    assert pid == per * g + pid % per;
    assert first * numN == per * g;
    if first >= numM {
      MulMono(numM, first, numN);
    }
    assert (numM - first) * numN == numM * numN - first * numN;
  }

  /** The tile that program instance `pid` works on. */
  function Swizzle(pid: nat, numM: nat, numN: nat, group: nat): (t: Tile)
    requires group >= 1 && pid < numM * numN && numN >= 1
    ensures t.m < numM && t.n < numN
  {
    GroupWindow(pid, numM, numN, group);
    var first := GroupStart(pid, numN, group);
    var rows := GroupRows(first, numM, group);
    Tile(first + pid % rows, (pid / rows) % numN)
  }

  /** The instance that owns a tile: the member of the group's window whose residue,
      read in mixed radix, is the tile's place in the group. */
  function PidOf(t: Tile, numM: nat, numN: nat, group: nat): (pid: int)
    requires group >= 1 && t.m < numM && t.n < numN
  {
    var first := (t.m / group) * group;
    var rows := GroupRows(first, numM, group);
    MulMono(0, t.m / group, group);
    assert t.m == group * (t.m / group) + t.m % group;
    MulMono(1, rows, numN);
    first * numN + (t.n * rows + (t.m - first) - first * numN) % (rows * numN)
  }

  /** Tile rows of group `g` are exactly those between `g * group` and the next group. */
  lemma GroupOfRow(m: int, g: int, group: int)
    requires group >= 1 && g * group <= m < g * group + group
    ensures m / group == g
  {
    DivModUnique(m, group, g, m - g * group);
  }

  /** A place (row `s`, column `u`) of a group with `rows` rows, read in mixed radix. */
  lemma PlaceInGroup(u: int, s: int, rows: int, numN: int)
    requires 0 <= u < numN && 0 <= s < rows
    ensures 0 <= u * rows + s < rows * numN
    ensures (u * rows + s) / rows == u && (u * rows + s) % rows == s
  {
    MulMono(0, u, rows);
    MulMono(u, numN - 1, rows);
    assert (numN - 1) * rows == rows * numN - rows;
    DivModUnique(u * rows + s, rows, u, s);
  }

  /** Every number in the window of group `g` belongs to that group and to the grid. */
  lemma WindowOfGroup(pid: int, g: nat, numM: nat, numN: nat, group: nat)
    requires group >= 1 && numN >= 1 && g * group < numM
    requires g * group * numN <= pid < g * group * numN + GroupRows(g * group, numM, group) * numN
    ensures 0 <= pid < numM * numN
    ensures GroupStart(pid, numN, group) == g * group
  {
    var first := g * group;
    var rows := GroupRows(first, numM, group);
    MulMono(0, first, numN);
    assert rows * numN <= (numM - first) * numN by { MulMono(rows, numM - first, numN); }
    assert (numM - first) * numN == numM * numN - first * numN;
    assert rows * numN <= group * numN by { MulMono(rows, group, numN); }
    assert g * (group * numN) == first * numN;
    DivModUnique(pid, group * numN, g, pid - first * numN);
  }

  /** A residue modulo the window length spells out the place in the group. */
  lemma PlaceOfResidue(pid: int, u: int, s: int, rows: int, numN: int)
    requires 0 <= u < numN && 0 <= s < rows && rows * numN > 0
    requires pid % (rows * numN) == u * rows + s
    ensures (pid / rows) % numN == u && pid % rows == s
  {
    ModOfPair(pid, rows, numN);
    PlaceInGroup((pid / rows) % numN, pid % rows, rows, numN);
    PlaceInGroup(u, s, rows, numN);
  }

  /** What `PidOf` picks: a number in the window of the tile's group, with the tile's residue. */
  lemma PidOfWindow(t: Tile, numM: nat, numN: nat, group: nat)
    requires group >= 1 && t.m < numM && t.n < numN
    ensures var first := (t.m / group) * group;
            var rows := GroupRows(first, numM, group);
            && 0 <= t.m - first < rows && 0 <= t.m / group && first < numM && rows * numN > 0
            && first * numN <= PidOf(t, numM, numN, group) < first * numN + rows * numN
            && PidOf(t, numM, numN, group) % (rows * numN) == t.n * rows + (t.m - first)
  {
    var g := t.m / group;
    var first := g * group;
    assert t.m == first + t.m % group;
    var rows := GroupRows(first, numM, group);
    PlaceInGroup(t.n, t.m - first, rows, numN);
    WindowMember(first * numN, t.n * rows + (t.m - first), rows * numN);
  }

  /** The point of the grouping: as many program ids as a group has tiles stay in the tile rows of that
      group, and neighbouring ids go down a column before they move to the next one. */
  lemma SwizzleInGroup(pid: nat, numM: nat, numN: nat, group: nat)
    requires group >= 1 && pid < numM * numN && numN >= 1
    ensures Swizzle(pid, numM, numN, group).m / group == pid / (group * numN)
    ensures var rows := Min(numM - pid / (group * numN) * group, group);
            rows >= 1 && Swizzle(pid, numM, numN, group).m % group == pid % rows
  {
    GroupWindow(pid, numM, numN, group);
    var first := GroupStart(pid, numN, group);
    var rows := GroupRows(first, numM, group);
    DivModUnique(first + pid % rows, group, pid / (group * numN), pid % rows);
  }

  /** The owner of a tile is a program instance and the swizzle sends it to that tile. */
  lemma SwizzleOnto(t: Tile, numM: nat, numN: nat, group: nat)
    requires group >= 1 && t.m < numM && t.n < numN
    ensures 0 <= PidOf(t, numM, numN, group) < numM * numN
    ensures Swizzle(PidOf(t, numM, numN, group), numM, numN, group) == t
  {
    PidOfWindow(t, numM, numN, group);
    var first := (t.m / group) * group;
    var rows := GroupRows(first, numM, group);
    WindowOfGroup(PidOf(t, numM, numN, group), t.m / group, numM, numN, group);
    PlaceOfResidue(PidOf(t, numM, numN, group), t.n, t.m - first, rows, numN);
  }

  /** The other inverse: the owner of the tile of `pid` is `pid`, so the swizzle is a
      bijection between program ids and tiles, ragged last group included. */
  lemma SwizzleOneToOne(pid: nat, numM: nat, numN: nat, group: nat)
    requires group >= 1 && pid < numM * numN && numN >= 1
    ensures PidOf(Swizzle(pid, numM, numN, group), numM, numN, group) == pid
  {
    var t := Swizzle(pid, numM, numN, group);
    GroupWindow(pid, numM, numN, group);
    var g := pid / (group * numN);
    var first := GroupStart(pid, numN, group);
    var rows := GroupRows(first, numM, group);
    GroupOfRow(t.m, g, group);
    ModOfPair(pid, rows, numN);
    var c := t.n * rows + (t.m - first);
    assert pid % (rows * numN) == c;
    WindowMember(first * numN, c, rows * numN);
    SameResidueInWindow(pid, PidOf(t, numM, numN, group), first * numN, rows * numN);
  }

  // ---------------------------------------------------------------------------
  // A launch of the kernel
  // ---------------------------------------------------------------------------

  /** The arguments of one launch.  Tensors are flat memories with strides; `rows` is the
      number of rows of `x`. */
  datatype Launch = Launch(
    x: seq<real>, w: seq<real>, indices: seq<nat>, outLen: nat,
    rows: nat, M: nat, N: nat, K: nat,
    sxm: nat, sxk: nat, swk: nat, swn: nat, som: nat, son: nat,
    bm: nat, bn: nat, bk: nat, group: nat)
  {
    function XAddr(r: int, k: int): int { r * sxm + k * sxk }
    function WAddr(k: int, j: int): int { k * swk + j * swn }
    function OAddr(i: int, j: int): int { i * som + j * son }

    function NumM(): nat requires bm >= 1 { CeilDiv(M, bm) }
    function NumN(): nat requires bn >= 1 { CeilDiv(N, bn) }

    ghost predicate Cell(i: int, j: int) { 0 <= i < M && 0 <= j < N }

    /** Block sizes are positive, indices name rows of `x`, every element of every tensor
        lies in its memory, and distinct output cells have distinct addresses. */
    ghost predicate Valid() {
      && bm >= 1 && bn >= 1 && bk >= 1 && group >= 1
      && |indices| == M
      && (forall i :: 0 <= i < M ==> indices[i] < rows)
      && (forall r, k :: 0 <= r < rows && 0 <= k < K ==> 0 <= XAddr(r, k) < |x|)
      && (forall k, j :: 0 <= k < K && 0 <= j < N ==> 0 <= WAddr(k, j) < |w|)
      && (forall i, j :: Cell(i, j) ==> 0 <= OAddr(i, j) < outLen)
      && (forall i, j, i', j' :: Cell(i, j) && Cell(i', j') && OAddr(i, j) == OAddr(i', j')
            ==> i == i' && j == j')
    }

    /** Row `indices[i]` of x and column `j` of w. */
    ghost function Row(i: int): (s: seq<real>)
      requires Valid() && 0 <= i < M
      ensures |s| == K
    {
      seq(K, k requires 0 <= k < K => x[XAddr(indices[i], k)])
    }

    ghost function Col(j: int): (s: seq<real>)
      requires Valid() && 0 <= j < N
      ensures |s| == K
    {
      seq(K, k requires 0 <= k < K => w[WAddr(k, j)])
    }

    /** The entry (i, j) of x[indices] @ w. */
    ghost function Product(i: int, j: int): real
      requires Valid() && Cell(i, j)
    {
      Inner(Row(i), Col(j), K)
    }

    ghost predicate InTile(t: Tile, i: int, j: int)
      requires bm >= 1 && bn >= 1
    {
      Cell(i, j) && t.m * bm <= i < t.m * bm + bm && t.n * bn <= j < t.n * bn + bn
    }
  }

  /** Each output cell lies in the tile of exactly one program instance. */
  lemma ExactlyOneWriter(c: Launch, i: int, j: int)
    requires c.Valid() && c.Cell(i, j)
    ensures c.NumN() >= 1
    ensures exists pid: nat :: pid < c.NumM() * c.NumN() &&
              c.InTile(Swizzle(pid, c.NumM(), c.NumN(), c.group), i, j) &&
              forall p: nat | p < c.NumM() * c.NumN() :: c.InTile(Swizzle(p, c.NumM(), c.NumN(), c.group), i, j) ==> p == pid
  {
    BlockOf(i, c.M, c.bm);
    BlockOf(j, c.N, c.bn);
    var t := Tile(i / c.bm, j / c.bn);
    SwizzleOnto(t, c.NumM(), c.NumN(), c.group);
    var pid: nat := PidOf(t, c.NumM(), c.NumN(), c.group);
    forall p: nat | p < c.NumM() * c.NumN() && c.InTile(Swizzle(p, c.NumM(), c.NumN(), c.group), i, j)
      ensures p == pid
    {
      var u := Swizzle(p, c.NumM(), c.NumN(), c.group);
      GroupOfRow(i, u.m, c.bm);
      GroupOfRow(j, u.n, c.bn);
      assert u == t;
      SwizzleOneToOne(p, c.NumM(), c.NumN(), c.group);
    }
    assert c.InTile(Swizzle(pid, c.NumM(), c.NumN(), c.group), i, j);
  }

  // ---------------------------------------------------------------------------
  // One program instance
  // ---------------------------------------------------------------------------

  /** The sum of the first `n` products of two vectors. */
  function Inner(a: seq<real>, b: seq<real>, n: nat): real
    requires n <= |a| && n <= |b|
  {
    if n == 0 then 0.0 else Inner(a, b, n - 1) + a[n - 1] * b[n - 1]
  }

  /** What it is, without its recursion: it has the value `a[k] * b[k]` where only `a[k]` is not
      zero, it is additive and symmetric, and no other function is like that. */
  lemma {:induction false} InnerOfUnit(a: seq<real>, b: seq<real>, n: nat, k: nat)
    requires k < n <= |a| && n <= |b| && forall i :: 0 <= i < n && i != k ==> a[i] == 0.0
    ensures Inner(a, b, n) == a[k] * b[k]
  {
    if k < n - 1 {
      InnerOfUnit(a, b, n - 1, k);
      ZeroTimes(b[n - 1]);
    } else {
      InnerOfZero(a, b, n - 1);
      assert a[n - 1] * b[n - 1] == a[k] * b[k];
    }
  }

  lemma {:induction false} InnerOfZero(a: seq<real>, b: seq<real>, n: nat)
    requires n <= |a| && n <= |b| && forall i :: 0 <= i < n ==> a[i] == 0.0
    ensures Inner(a, b, n) == 0.0
  {
    if n > 0 {
      InnerOfZero(a, b, n - 1);
      ZeroTimes(b[n - 1]);
    }
  }

  lemma ZeroTimes(x: real)
    ensures 0.0 * x == 0.0
  {
  }

  function Plus(a: seq<real>, c: seq<real>): (s: seq<real>)
    requires |a| == |c|
    ensures |s| == |a|
  {
    seq(|a|, i requires 0 <= i < |a| => a[i] + c[i])
  }

  lemma {:induction false} InnerAdds(a: seq<real>, c: seq<real>, b: seq<real>, n: nat)
    requires |a| == |c| && n <= |a| && n <= |b|
    ensures Inner(Plus(a, c), b, n) == Inner(a, b, n) + Inner(c, b, n)
  {
    if n > 0 {
      InnerAdds(a, c, b, n - 1);
    }
  }

  lemma {:induction false} InnerIsSymmetric(a: seq<real>, b: seq<real>, n: nat)
    requires n <= |a| && n <= |b|
    ensures Inner(a, b, n) == Inner(b, a, n)
  {
    if n > 0 {
      InnerIsSymmetric(a, b, n - 1);
    }
  }

  /** `f` is additive, and right on vectors with one entry, for vectors of length `n`. */
  ghost predicate Bilinear(f: (seq<real>, seq<real>) -> real, n: nat) {
    && (forall a: seq<real>, c: seq<real>, b: seq<real> :: |a| == |c| == |b| == n ==> AddsAt(f, a, c, b))
    && (forall a: seq<real>, b: seq<real>, k: nat :: |a| == |b| == n && k < n ==> UnitAt(f, a, b, k))
  }

  ghost predicate AddsAt(f: (seq<real>, seq<real>) -> real, a: seq<real>, c: seq<real>, b: seq<real>)
    requires |a| == |c|
  {
    f(Plus(a, c), b) == f(a, b) + f(c, b)
  }

  ghost predicate UnitAt(f: (seq<real>, seq<real>) -> real, a: seq<real>, b: seq<real>, k: nat)
    requires k < |a| && k < |b|
  {
    (forall i :: 0 <= i < |a| && i != k ==> a[i] == 0.0) ==> f(a, b) == a[k] * b[k]
  }

  /** The first `m` entries, and zeros. */
  function First(a: seq<real>, m: nat): (r: seq<real>)
    ensures |r| == |a| && forall i :: 0 <= i < |a| ==> r[i] == if i < m then a[i] else 0.0
  {
    seq(|a|, i requires 0 <= i < |a| => if i < m then a[i] else 0.0)
  }

  function Only(a: seq<real>, k: nat): (r: seq<real>)
    ensures |r| == |a| && forall i :: 0 <= i < |a| ==> r[i] == if i == k then a[i] else 0.0
  {
    seq(|a|, i requires 0 <= i < |a| => if i == k then a[i] else 0.0)
  }

  lemma NothingYet(f: (seq<real>, seq<real>) -> real, a: seq<real>, b: seq<real>)
    requires Bilinear(f, |a|) && |a| == |b|
    ensures f(First(a, 0), b) == 0.0
  {
    assert Plus(First(a, 0), First(a, 0)) == First(a, 0);
    assert AddsAt(f, First(a, 0), First(a, 0), b);
  }

  lemma UnitValue(f: (seq<real>, seq<real>) -> real, a: seq<real>, b: seq<real>, m: nat)
    requires Bilinear(f, |a|) && |a| == |b| && m < |a|
    ensures f(Only(a, m), b) == a[m] * b[m]
  {
    assert UnitAt(f, Only(a, m), b, m);
  }

  lemma SumValue(f: (seq<real>, seq<real>) -> real, a: seq<real>, b: seq<real>, m: nat)
    requires Bilinear(f, |a|) && |a| == |b| && m < |a|
    ensures f(First(a, m + 1), b) == f(First(a, m), b) + f(Only(a, m), b)
  {
    assert Plus(First(a, m), Only(a, m)) == First(a, m + 1);
    assert AddsAt(f, First(a, m), Only(a, m), b);
  }

  /** `f` grows entry by entry on these two vectors. */
  ghost predicate Grows(f: (seq<real>, seq<real>) -> real, a: seq<real>, b: seq<real>, n: nat)
    requires n <= |a| == |b|
  {
    forall m: nat :: m < n ==> f(First(a, m + 1), b) == f(First(a, m), b) + a[m] * b[m]
  }

  lemma {:induction false} GrowsToInner(f: (seq<real>, seq<real>) -> real, a: seq<real>, b: seq<real>, n: nat)
    requires n <= |a| == |b| && f(First(a, 0), b) == 0.0 && Grows(f, a, b, n)
    ensures f(First(a, n), b) == Inner(a, b, n)
  {
    if n > 0 {
      GrowsToInner(f, a, b, n - 1);
    }
  }

  lemma InnerIsOnly(f: (seq<real>, seq<real>) -> real, a: seq<real>, b: seq<real>)
    requires |a| == |b| && Bilinear(f, |a|)
    ensures f(a, b) == Inner(a, b, |a|)
  {
    NothingYet(f, a, b);
    forall m: nat | m < |a| ensures f(First(a, m + 1), b) == f(First(a, m), b) + a[m] * b[m] {
      UnitValue(f, a, b, m);
      SumValue(f, a, b, m);
    }
    GrowsToInner(f, a, b, |a|);
    assert First(a, |a|) == a;
  }

  /** `p` is the stretch of `v` that starts at `k0`, padded with zeros. */
  ghost predicate PaddedSlice(p: seq<real>, v: seq<real>, k0: nat) {
    forall k :: 0 <= k < |p| ==> p[k] == if k0 + k < |v| then v[k0 + k] else 0.0
  }

  /** Zero-padded stretches of two vectors contribute exactly the terms of the stretch. */
  lemma {:induction false} InnerOfStretch(a: seq<real>, b: seq<real>, p: seq<real>, q: seq<real>, k0: nat, n: nat)
    requires |a| == |b| && k0 <= |a| && n <= |p| && n <= |q|
    requires PaddedSlice(p, a, k0) && PaddedSlice(q, b, k0)
    ensures Inner(a, b, k0) + Inner(p, q, n) == Inner(a, b, Min(k0 + n, |a|))
  {
    if n > 0 {
      InnerOfStretch(a, b, p, q, k0, n - 1);
    }
  }

  /** Blocks of pointers and of values, as an instance holds them in registers. */
  type Block<T> = seq<seq<T>>

  predicate Shape<T>(b: Block<T>, rows: nat, cols: nat) {
    |b| == rows && forall r :: 0 <= r < rows ==> |b[r]| == cols
  }

  function Column(b: Block<real>, col: nat): (s: seq<real>)
    requires forall k :: 0 <= k < |b| ==> col < |b[k]|
    ensures |s| == |b|
  {
    seq(|b|, k requires 0 <= k < |b| => b[k][col])
  }

  /** `acc + xb @ wb` on blocks. */
  function MulAdd(acc: Block<real>, xb: Block<real>, wb: Block<real>, rows: nat, inner: nat, cols: nat): (r: Block<real>)
    requires Shape(acc, rows, cols) && Shape(xb, rows, inner) && Shape(wb, inner, cols)
    ensures Shape(r, rows, cols)
  {
    seq(rows, i requires 0 <= i < rows =>
      seq(cols, j requires 0 <= j < cols => acc[i][j] + Inner(xb[i], Column(wb, j), inner)))
  }

  function Advance(b: Block<int>, step: int): Block<int> {
    seq(|b|, r requires 0 <= r < |b| => seq(|b[r]|, k requires 0 <= k < |b[r]| => b[r][k] + step))
  }

  /** A block of addresses: `starts[r] + (k0 + k) * stride` for `cols` values of k. */
  ghost predicate XPointers(p: Block<int>, starts: seq<int>, k0: int, cols: nat, stride: int) {
    Shape(p, |starts|, cols) &&
    forall r, k :: 0 <= r < |starts| && 0 <= k < cols ==> p[r][k] == starts[r] + (k0 + k) * stride
  }

  /** The transposed form, for the weight. */
  ghost predicate WPointers(p: Block<int>, starts: seq<int>, k0: int, rows: nat, stride: int) {
    Shape(p, rows, |starts|) &&
    forall k, c :: 0 <= k < rows && 0 <= c < |starts| ==> p[k][c] == starts[c] + (k0 + k) * stride
  }

  lemma Distribute(k0: int, k: int, d: int, stride: int)
    ensures (k0 + k) * stride + d * stride == (k0 + d + k) * stride
  {
  }

  /** Adding one block's worth of stride moves a pointer block to the next K block. */
  lemma AdvanceX(p: Block<int>, starts: seq<int>, k0: int, cols: nat, stride: int, d: int)
    requires XPointers(p, starts, k0, cols, stride)
    ensures XPointers(Advance(p, d * stride), starts, k0 + d, cols, stride)
  {
    forall r, k | 0 <= r < |starts| && 0 <= k < cols
      ensures p[r][k] + d * stride == starts[r] + (k0 + d + k) * stride
    {
      Distribute(k0, k, d, stride);
    }
  }

  lemma AdvanceW(p: Block<int>, starts: seq<int>, k0: int, rows: nat, stride: int, d: int)
    requires WPointers(p, starts, k0, rows, stride)
    ensures WPointers(Advance(p, d * stride), starts, k0 + d, rows, stride)
  {
    forall k, c | 0 <= k < rows && 0 <= c < |starts|
      ensures p[k][c] + d * stride == starts[c] + (k0 + d + k) * stride
    {
      Distribute(k0, k, d, stride);
    }
  }

  /** Start addresses of the rows of x that a tile gathers; lanes past M use row 0. */
  function XStarts(c: Launch, m0: nat): (s: seq<int>)
    requires |c.indices| == c.M
    ensures |s| == c.bm
  {
    seq(c.bm, r requires 0 <= r < c.bm => (if m0 + r < c.M then c.indices[m0 + r] else 0) * c.sxm)
  }

  function WStarts(c: Launch, n0: nat): (s: seq<int>)
    ensures |s| == c.bn
  {
    seq(c.bn, j requires 0 <= j < c.bn => (n0 + j) * c.swn)
  }

  /** Masked load of a block of x: in-range rows get the zero-padded stretch of their row. */
  method LoadX(c: Launch, m0: nat, k0: nat, ptrs: Block<int>) returns (xb: Block<real>)
    requires c.Valid() && XPointers(ptrs, XStarts(c, m0), k0, c.bk, c.sxk)
    ensures Shape(xb, c.bm, c.bk)
    ensures forall r :: 0 <= r < c.bm && m0 + r < c.M ==> PaddedSlice(xb[r], c.Row(m0 + r), k0)
  {
    forall r, k | 0 <= r < c.bm && 0 <= k < c.bk && m0 + r < c.M && k < c.K - k0
      ensures ptrs[r][k] == c.XAddr(c.indices[m0 + r], k0 + k)
    {
    }
    xb := seq(c.bm, r requires 0 <= r < c.bm =>
      seq(c.bk, k requires 0 <= k < c.bk =>
        if m0 + r < c.M && k < c.K - k0 then c.x[ptrs[r][k]] else 0.0));
  }

  method LoadW(c: Launch, n0: nat, k0: nat, ptrs: Block<int>) returns (wb: Block<real>)
    requires c.Valid() && WPointers(ptrs, WStarts(c, n0), k0, c.bk, c.swk)
    ensures Shape(wb, c.bk, c.bn)
    ensures forall j :: 0 <= j < c.bn && n0 + j < c.N ==> PaddedSlice(Column(wb, j), c.Col(n0 + j), k0)
  {
    forall k, j | 0 <= k < c.bk && 0 <= j < c.bn && k < c.K - k0 && n0 + j < c.N
      ensures ptrs[k][j] == c.WAddr(k0 + k, n0 + j)
    {
      assert WStarts(c, n0)[j] == (n0 + j) * c.swn;
    }
    wb := seq(c.bk, k requires 0 <= k < c.bk =>
      seq(c.bn, j requires 0 <= j < c.bn =>
        if k < c.K - k0 && n0 + j < c.N then c.w[ptrs[k][j]] else 0.0));
  }

  /** Every accumulator lane inside the output holds the first `k` terms of its cell. */
  ghost predicate Partial(c: Launch, m0: nat, n0: nat, acc: Block<real>, k: nat)
    requires c.Valid() && k <= c.K
  {
    Shape(acc, c.bm, c.bn) &&
    forall r, j :: 0 <= r < c.bm && 0 <= j < c.bn && c.Cell(m0 + r, n0 + j)
      ==> acc[r][j] == Inner(c.Row(m0 + r), c.Col(n0 + j), k)
  }

  /** One turn of the K loop. */
  lemma PartialStep(c: Launch, m0: nat, n0: nat, acc: Block<real>, xb: Block<real>, wb: Block<real>, k0: nat)
    requires c.Valid() && k0 <= c.K && Partial(c, m0, n0, acc, k0)
    requires Shape(xb, c.bm, c.bk) && Shape(wb, c.bk, c.bn)
    requires forall r :: 0 <= r < c.bm && m0 + r < c.M ==> PaddedSlice(xb[r], c.Row(m0 + r), k0)
    requires forall j :: 0 <= j < c.bn && n0 + j < c.N ==> PaddedSlice(Column(wb, j), c.Col(n0 + j), k0)
    ensures Partial(c, m0, n0, MulAdd(acc, xb, wb, c.bm, c.bk, c.bn), Min(k0 + c.bk, c.K))
  {
    forall r, j | 0 <= r < c.bm && 0 <= j < c.bn && c.Cell(m0 + r, n0 + j)
      ensures acc[r][j] + Inner(xb[r], Column(wb, j), c.bk)
              == Inner(c.Row(m0 + r), c.Col(n0 + j), Min(k0 + c.bk, c.K))
    {
      CellStep(c, m0 + r, n0 + j, xb[r], Column(wb, j), acc[r][j], k0);
    }
  }

  /** One lane of one turn. */
  lemma CellStep(c: Launch, i: nat, j: nat, p: seq<real>, q: seq<real>, acc: real, k0: nat)
    requires c.Valid() && c.Cell(i, j) && k0 <= c.K && |p| == |q| == c.bk
    requires PaddedSlice(p, c.Row(i), k0) && PaddedSlice(q, c.Col(j), k0) && acc == Inner(c.Row(i), c.Col(j), k0)
    ensures acc + Inner(p, q, c.bk) == Inner(c.Row(i), c.Col(j), Min(k0 + c.bk, c.K))
  {
    InnerOfStretch(c.Row(i), c.Col(j), p, q, k0, c.bk);
  }

  /** The state of the K loop at offset `k0`: pointers and accumulator. */
  datatype Registers = Registers(acc: Block<real>, x: Block<int>, w: Block<int>)

  ghost predicate LoopAt(c: Launch, m0: nat, n0: nat, g: Registers, k0: nat)
    requires c.Valid()
  {
    && XPointers(g.x, XStarts(c, m0), k0, c.bk, c.sxk) && WPointers(g.w, WStarts(c, n0), k0, c.bk, c.swk)
    && Partial(c, m0, n0, g.acc, Min(k0, c.K))
  }

  /** One turn of the K loop: load both blocks, accumulate their product, advance. */
  method KStep(c: Launch, m0: nat, n0: nat, k0: nat, g: Registers) returns (h: Registers)
    requires c.Valid() && k0 <= c.K && LoopAt(c, m0, n0, g, k0)
    ensures LoopAt(c, m0, n0, h, k0 + c.bk)
  {
    var xb := LoadX(c, m0, k0, g.x);
    var wb := LoadW(c, n0, k0, g.w);
    PartialStep(c, m0, n0, g.acc, xb, wb, k0);
    AdvanceX(g.x, XStarts(c, m0), k0, c.bk, c.sxk, c.bk);
    AdvanceW(g.w, WStarts(c, n0), k0, c.bk, c.swk, c.bk);
    h := Registers(MulAdd(g.acc, xb, wb, c.bm, c.bk, c.bn), Advance(g.x, c.bk * c.sxk), Advance(g.w, c.bk * c.swk));
  }

  /** Zero accumulator and the first pointers. */
  method KStart(c: Launch, m0: nat, n0: nat) returns (g: Registers)
    requires c.Valid()
    ensures LoopAt(c, m0, n0, g, 0)
  {
    var xs, ws := XStarts(c, m0), WStarts(c, n0);
    var x := seq(c.bm, r requires 0 <= r < c.bm => seq(c.bk, k => xs[r] + k * c.sxk));
    var w := seq(c.bk, k => seq(c.bn, j requires 0 <= j < c.bn => ws[j] + k * c.swk));
    g := Registers(seq(c.bm, _ => seq(c.bn, _ => 0.0)), x, w);
  }

  /** The blocked K loop of the instance at tile (m0, n0). */
  method Accumulate(c: Launch, m0: nat, n0: nat) returns (acc: Block<real>)
    requires c.Valid()
    ensures Partial(c, m0, n0, acc, c.K)
  {
    var g := KStart(c, m0, n0);
    CeilDivBounds(c.K, c.bk);
    var k := 0;
    while k < CeilDiv(c.K, c.bk)
      invariant 0 <= k <= CeilDiv(c.K, c.bk) && 0 <= k * c.bk
      invariant LoopAt(c, m0, n0, g, k * c.bk)
    {
      NextBlock(c.K, c.bk, k);
      g := KStep(c, m0, n0, k * c.bk, g);
      k := k + 1;
    }
    acc := g.acc;
  }

  lemma NextBlock(K: nat, bk: nat, k: nat)
    requires bk >= 1 && k < CeilDiv(K, bk)
    ensures 0 <= k * bk < K && (k + 1) * bk == k * bk + bk
  {
    CeilDivBounds(K, bk);
    MulMono(0, k, bk);
    MulMono(k, CeilDiv(K, bk) - 1, bk);
  }

  /** `a` is the address of no output cell of tile `t`. */
  ghost predicate OutsideTile(c: Launch, t: Tile, a: int)
    requires c.bm >= 1 && c.bn >= 1
  {
    forall i, j :: c.InTile(t, i, j) ==> c.OAddr(i, j) != a
  }

  /** One program instance: it stores the right value in every output cell of its own tile
      and touches no other address of the shared buffer. */
  method Instance(c: Launch, pid: nat, out: array<real>)
    requires c.Valid() && out.Length == c.outLen
    requires c.NumN() >= 1 && pid < c.NumM() * c.NumN()
    modifies out
    ensures forall i, j :: c.InTile(Swizzle(pid, c.NumM(), c.NumN(), c.group), i, j)
              ==> out[c.OAddr(i, j)] == c.Product(i, j)
    ensures forall a :: 0 <= a < out.Length && OutsideTile(c, Swizzle(pid, c.NumM(), c.NumN(), c.group), a)
              ==> out[a] == old(out[a])
  {
    var t := Swizzle(pid, c.NumM(), c.NumN(), c.group);
    MulMono(0, t.m, c.bm);
    MulMono(0, t.n, c.bn);
    var acc := Accumulate(c, t.m * c.bm, t.n * c.bn);
    Store(c, t, t.m * c.bm, t.n * c.bn, acc, out);
  }

  /** The masked store of an accumulator. */
  method Store(c: Launch, t: Tile, m0: nat, n0: nat, acc: Block<real>, out: array<real>)
    requires c.Valid() && out.Length == c.outLen && m0 == t.m * c.bm && n0 == t.n * c.bn
    requires Partial(c, m0, n0, acc, c.K)
    modifies out
    ensures forall i, j :: c.InTile(t, i, j) ==> out[c.OAddr(i, j)] == c.Product(i, j)
    ensures forall a :: 0 <= a < out.Length && OutsideTile(c, t, a) ==> out[a] == old(out[a])
  {
    for r := 0 to c.bm
      invariant forall i, j :: c.InTile(t, i, j) && i < m0 + r ==> out[c.OAddr(i, j)] == c.Product(i, j)
      invariant forall a :: 0 <= a < out.Length && OutsideTile(c, t, a) ==> out[a] == old(out[a])
    {
      StoreRow(c, t, m0, n0, acc, r, m0 + r, out);
    }
  }

  /** No cell of row `i` of the tile has the address `a`. */
  ghost predicate OutsideRow(c: Launch, t: Tile, i: int, a: int)
    requires c.bm >= 1 && c.bn >= 1
  {
    forall j :: c.InTile(t, i, j) ==> c.OAddr(i, j) != a
  }

  /** Row `r` of the block, which is row `i` of the output. */
  method StoreRow(c: Launch, t: Tile, m0: nat, n0: nat, acc: Block<real>, r: nat, i: nat, out: array<real>)
    requires c.Valid() && out.Length == c.outLen && m0 == t.m * c.bm && n0 == t.n * c.bn && r < c.bm && i == m0 + r
    requires Partial(c, m0, n0, acc, c.K)
    modifies out
    ensures forall j :: c.InTile(t, i, j) ==> out[c.OAddr(i, j)] == c.Product(i, j)
    ensures forall a :: 0 <= a < out.Length && OutsideRow(c, t, i, a) ==> out[a] == old(out[a])
  {
    for col := 0 to c.bn
      invariant forall j :: c.InTile(t, i, j) && j < n0 + col ==> out[c.OAddr(i, j)] == c.Product(i, j)
      invariant forall a :: 0 <= a < out.Length && OutsideRow(c, t, i, a) ==> out[a] == old(out[a])
    {
      if i < c.M && n0 + col < c.N {
        assert c.InTile(t, i, n0 + col);
        out[c.OAddr(i, n0 + col)] := acc[r][col];
      }
    }
  }

  /** The order names program ids only, and every one of them. */
  ghost predicate CoversGrid(c: Launch, order: seq<nat>)
    requires c.bm >= 1 && c.bn >= 1
  {
    forall p :: p in order <==> 0 <= p < c.NumM() * c.NumN()
  }

  /** The whole launch, instances run one after another in the given order.  Whatever the
      order, as long as it names every program id, `out` ends as x[indices] @ w, and no
      address outside the output cells changes. */
  method RunGrid(c: Launch, order: seq<nat>, out: array<real>)
    requires c.Valid() && out.Length == c.outLen && CoversGrid(c, order)
    modifies out
    ensures forall i, j :: c.Cell(i, j) ==> out[c.OAddr(i, j)] == c.Product(i, j)
    ensures forall a :: 0 <= a < out.Length && (forall i, j :: c.Cell(i, j) ==> c.OAddr(i, j) != a)
              ==> out[a] == old(out[a])
  {
    ghost var tiles: seq<Tile> := [];
    var done := 0;
    while done < |order|
      invariant 0 <= done <= |order| && |tiles| == done
      invariant forall d | 0 <= d < done :: order[d] < c.NumM() * c.NumN() && c.NumN() >= 1
                  && tiles[d] == Swizzle(order[d], c.NumM(), c.NumN(), c.group)
      invariant forall d, i, j :: 0 <= d < done && c.InTile(tiles[d], i, j)
                  ==> out[c.OAddr(i, j)] == c.Product(i, j)
      invariant forall a :: 0 <= a < out.Length && (forall i, j :: c.Cell(i, j) ==> c.OAddr(i, j) != a)
                  ==> out[a] == old(out[a])
    {
      var pid := order[done];
      assert pid in order;
      ghost var t := Swizzle(pid, c.NumM(), c.NumN(), c.group);
      ghost var was := out[..];
      Instance(c, pid, out);
      forall d, i, j | 0 <= d < done && c.InTile(tiles[d], i, j)
        ensures out[c.OAddr(i, j)] == c.Product(i, j)
      {
        if !c.InTile(t, i, j) {
          assert OutsideTile(c, t, c.OAddr(i, j));
        }
      }
      tiles := tiles + [t];
      done := done + 1;
    }
    forall i, j | c.Cell(i, j) ensures out[c.OAddr(i, j)] == c.Product(i, j) {
      ExactlyOneWriter(c, i, j);
      var pid: nat :| pid < c.NumM() * c.NumN() && c.InTile(Swizzle(pid, c.NumM(), c.NumN(), c.group), i, j);
      assert pid in order;
      var d :| 0 <= d < |order| && order[d] == pid;
      assert c.InTile(tiles[d], i, j);
    }
  }

  // ---------------------------------------------------------------------------
  // The entry point
  // ---------------------------------------------------------------------------

  /** A matrix as a strided view of a memory. */
  datatype Matrix = Matrix(mem: seq<real>, rows: nat, cols: nat, rowStride: nat, colStride: nat) {
    function Addr(i: int, j: int): int { i * rowStride + j * colStride }

    ghost predicate Valid() {
      forall i, j :: 0 <= i < rows && 0 <= j < cols ==> 0 <= Addr(i, j) < |mem|
    }

    ghost function Row(i: nat): (v: seq<real>)
      requires Valid() && i < rows
      ensures |v| == cols
    {
      seq(cols, j requires 0 <= j < cols => mem[Addr(i, j)])
    }

    ghost function Col(j: nat): (v: seq<real>)
      requires Valid() && j < cols
      ensures |v| == rows
    {
      seq(rows, i requires 0 <= i < rows => mem[Addr(i, j)])
    }
  }

  /** The output as a strided view; no two elements share an address. */
  datatype OutView = OutView(rows: nat, cols: nat, rowStride: nat, colStride: nat) {
    function Addr(i: int, j: int): int { i * rowStride + j * colStride }

    predicate Has(i: int, j: int) { 0 <= i < rows && 0 <= j < cols }

    ghost predicate Valid(len: nat) {
      && (forall i, j :: Has(i, j) ==> 0 <= Addr(i, j) < len)
      && (forall i, j, i', j' :: Has(i, j) && Has(i', j') && Addr(i, j) == Addr(i', j') ==> i == i' && j == j')
    }
  }

  function LaunchOf(x: Matrix, indices: seq<nat>, w: Matrix, o: OutView, len: nat, bm: nat, bn: nat, bk: nat, group: nat): Launch {
    Launch(x.mem, w.mem, indices, len, x.rows, |indices|, w.cols, w.rows,
           x.rowStride, x.colStride, w.rowStride, w.colStride, o.rowStride, o.colStride, bm, bn, bk, group)
  }

  lemma LaunchIsValid(x: Matrix, indices: seq<nat>, w: Matrix, o: OutView, len: nat, bm: nat, bn: nat, bk: nat, group: nat)
    requires x.Valid() && w.Valid() && o.Valid(len) && bm >= 1 && bn >= 1 && bk >= 1 && group >= 1
    requires x.cols == w.rows && o.rows == |indices| && o.cols == w.cols && forall i :: 0 <= i < |indices| ==> indices[i] < x.rows
    ensures LaunchOf(x, indices, w, o, len, bm, bn, bk, group).Valid()
  {
    var c := LaunchOf(x, indices, w, o, len, bm, bn, bk, group);
    assert forall r, k :: c.XAddr(r, k) == x.Addr(r, k);
    assert forall k, j :: c.WAddr(k, j) == w.Addr(k, j);
    assert forall i, j :: c.OAddr(i, j) == o.Addr(i, j);
    assert forall i, j :: c.Cell(i, j) <==> o.Has(i, j);
  }

  /** Element (i, j) of the output is the inner product of a gathered row and a weight column. */
  ghost predicate EntryIs(x: Matrix, indices: seq<nat>, w: Matrix, o: OutView, mem: seq<real>, i: nat, j: nat)
    requires x.Valid() && w.Valid() && x.cols == w.rows && i < |indices| && indices[i] < x.rows && j < w.cols
  {
    0 <= o.Addr(i, j) < |mem| && mem[o.Addr(i, j)] == Inner(x.Row(indices[i]), w.Col(j), w.rows)
  }

  ghost predicate IsGathered(x: Matrix, indices: seq<nat>, w: Matrix, o: OutView, mem: seq<real>)
    requires x.Valid() && w.Valid() && x.cols == w.rows && forall i :: 0 <= i < |indices| ==> indices[i] < x.rows
  {
    forall i: nat, j: nat :: i < |indices| && j < w.cols ==> EntryIs(x, indices, w, o, mem, i, j)
  }

  lemma EntryFollows(x: Matrix, indices: seq<nat>, w: Matrix, o: OutView, c: Launch, mem: seq<real>, i: nat, j: nat)
    requires x.Valid() && w.Valid() && x.cols == w.rows && i < |indices| && indices[i] < x.rows && j < w.cols
    requires c.Valid() && c == LaunchOf(x, indices, w, o, |mem|, c.bm, c.bn, c.bk, c.group)
    requires 0 <= c.OAddr(i, j) < |mem| && mem[c.OAddr(i, j)] == c.Product(i, j)
    ensures EntryIs(x, indices, w, o, mem, i, j)
  {
    assert c.OAddr(i, j) == o.Addr(i, j);
    assert c.Row(i) == x.Row(indices[i]);
    assert c.Col(j) == w.Col(j);
  }

  /** gather_gemm on any strided tensors: it refuses mismatched shapes, and otherwise leaves
      out = x[indices] @ weight, for every block and group size and every order in which the
      program instances run; nothing outside the output changes. */
  method GatherMatmul(x: Matrix, indices: seq<nat>, w: Matrix, out: array<real>, o: OutView,
                      bm: nat, bn: nat, bk: nat, group: nat, order: seq<nat>) returns (ok: bool)
    requires x.Valid() && w.Valid() && o.Valid(out.Length) && forall i :: 0 <= i < |indices| ==> indices[i] < x.rows
    requires bm >= 1 && bn >= 1 && bk >= 1 && group >= 1
    requires forall p :: p in order <==> 0 <= p < CeilDiv(|indices|, bm) * CeilDiv(w.cols, bn)
    modifies out
    ensures ok <==> x.cols == w.rows && o.rows == |indices| && o.cols == w.cols
    ensures !ok ==> out[..] == old(out[..])
    ensures ok ==> IsGathered(x, indices, w, o, out[..])
    ensures forall a :: 0 <= a < out.Length && (forall i, j :: o.Has(i, j) ==> o.Addr(i, j) != a) ==> out[a] == old(out[a])
  {
    if x.cols != w.rows || o.rows != |indices| || o.cols != w.cols {
      return false;
    }
    var c := LaunchOf(x, indices, w, o, out.Length, bm, bn, bk, group);
    LaunchIsValid(x, indices, w, o, out.Length, bm, bn, bk, group);
    RunGrid(c, order, out);
    forall i: nat, j: nat | i < |indices| && j < w.cols ensures EntryIs(x, indices, w, o, out[..], i, j) {
      assert c.Cell(i, j);
      EntryFollows(x, indices, w, o, c, out[..], i, j);
    }
    forall a | 0 <= a < out.Length && (forall i, j :: o.Has(i, j) ==> o.Addr(i, j) != a) ensures out[a] == old(out[a]) {
      forall i, j | c.Cell(i, j) ensures c.OAddr(i, j) != a {
        assert o.Has(i, j) && c.OAddr(i, j) == o.Addr(i, j);
      }
    }
    ok := true;
  }

  // Row-major tensors

  function RowMajor(mem: seq<real>, rows: nat, cols: nat): Matrix { Matrix(mem, rows, cols, cols, 1) }

  /** The transposed view of a row-major matrix with `cols` rows, as the models pass their weight. */
  function Transposed(mem: seq<real>, rows: nat, cols: nat): Matrix { Matrix(mem, rows, cols, 1, rows) }

  lemma PlaceInRow(r: int, k: int, rows: int, n: int)
    requires 0 <= r < rows && 0 <= k < n
    ensures 0 <= r * n + k < rows * n
  {
    MulMono(r + 1, rows, n);
    MulMono(0, r, n);
  }

  lemma SamePlace(i: int, j: int, i': int, j': int, n: int)
    requires 0 <= j < n && 0 <= j' < n && i * n + j == i' * n + j'
    ensures i == i' && j == j'
  {
    DivModUnique(i * n + j, n, i, j);
    DivModUnique(i' * n + j', n, i', j');
  }

  /** Row-major inputs, a transposed weight and a contiguous output are legal, and the columns of
      the transposed weight are the rows of the weight itself. */
  lemma ContiguousIsValid(mem: seq<real>, rows: nat, cols: nat)
    requires |mem| == rows * cols
    ensures RowMajor(mem, rows, cols).Valid() && Transposed(mem, cols, rows).Valid()
    ensures OutView(rows, cols, cols, 1).Valid(|mem|)
    ensures forall r: nat :: r < rows ==> Transposed(mem, cols, rows).Col(r) == RowMajor(mem, rows, cols).Row(r)
  {
    var a, t, o := RowMajor(mem, rows, cols), Transposed(mem, cols, rows), OutView(rows, cols, cols, 1);
    forall r, k | 0 <= r < rows && 0 <= k < cols ensures 0 <= a.Addr(r, k) < |mem| && 0 <= t.Addr(k, r) < |mem| && 0 <= o.Addr(r, k) < |mem| {
      PlaceInRow(r, k, rows, cols);
    }
    forall i, j, i', j' | o.Has(i, j) && o.Has(i', j') && o.Addr(i, j) == o.Addr(i', j') ensures i == i' && j == j' {
      SamePlace(i, j, i', j', cols);
    }
    forall r: nat | r < rows ensures t.Col(r) == a.Row(r) {
      assert forall k :: 0 <= k < cols ==> t.Addr(k, r) == a.Addr(r, k);
    }
  }

  /** The rows of a row-major matrix are the consecutive stretches of its memory. */
  lemma RowIsSlice(mem: seq<real>, rows: nat, cols: nat, r: nat)
    requires |mem| == rows * cols && r < rows
    ensures 0 <= r * cols <= r * cols + cols <= |mem| && RowMajor(mem, rows, cols).Valid()
    ensures RowMajor(mem, rows, cols).Row(r) == mem[r * cols..r * cols + cols]
  {
    MulMono(r + 1, rows, cols);
    MulMono(0, r, cols);
    ContiguousIsValid(mem, rows, cols);
  }
}
