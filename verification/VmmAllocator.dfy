/** The virtual-memory allocator of vmm_allocator/vmm_allocator.cpp: an address range is reserved
    once, and physical memory is mapped from its beginning on demand; and the activation pool
    that uses it (vllm/v1/worker/activation_memory_pool.py).  Driver calls succeed; sizes do
    not wrap around. */
module VmmAllocator {
  import opened Arith

  /** Rounding up to a multiple of the page size. */
  function AlignUp(x: nat, g: nat): nat
    requires g > 0
  {
    CeilDivBounds(x, g);
    CeilDiv(x, g) * g
  }

  /** The page of a byte, or the number of whole pages in a size. */
  function Page(x: nat, g: nat): nat
    requires g > 0
  {
    x / g
  }

  lemma AlignUpIs(x: nat, g: nat)
    requires g > 0
    ensures AlignUp(x, g) % g == 0 && AlignUp(x, g) / g == CeilDiv(x, g) && x <= AlignUp(x, g) < x + g
  {
    CeilDivBounds(x, g);
    DivModUnique(AlignUp(x, g), g, CeilDiv(x, g), 0);
    assert x > 0 ==> (CeilDiv(x, g) - 1) * g == AlignUp(x, g) - g;
  }

  lemma AlignUpMono(x: nat, y: nat, g: nat)
    requires g > 0 && x <= y
    ensures CeilDiv(x, g) <= CeilDiv(y, g) && AlignUp(x, g) <= AlignUp(y, g)
  {
    CeilDivBounds(x, g);
    CeilDivBounds(y, g);
    if CeilDiv(x, g) > CeilDiv(y, g) {
      MulMono(CeilDiv(y, g), CeilDiv(x, g) - 1, g);
    }
    MulMono(CeilDiv(x, g), CeilDiv(y, g), g);
  }

  /** Sum of two multiples, in pages. */
  lemma SumOfPages(a: nat, b: nat, g: nat)
    requires g > 0
    ensures (a * g + b * g) / g == a + b && (a * g + b * g) % g == 0
  {
    DivModUnique(a * g + b * g, g, a + b, 0);
  }

  // ---------------------------------------------------------------------------
  // The allocator as a state machine
  // ---------------------------------------------------------------------------

  /** Page `p` is the bytes [p * g, p * g + g).  `pages` records what the driver has mapped, with
      multiplicity; `created` the physical bytes created since the reservation. */
  datatype Vmm = Vmm(g: nat, reserved: nat, mapped: nat, initialized: bool, pages: multiset<nat>, created: nat)

  function NewVmm(g: nat): Vmm { Vmm(g, 0, 0, false, multiset{}, 0) }

  function PageRange(a: nat, b: nat): multiset<nat> {
    if a >= b then multiset{} else PageRange(a, b - 1) + multiset{b - 1}
  }

  lemma {:induction false} PageRangeIs(a: nat, b: nat, p: nat)
    ensures PageRange(a, b)[p] == if a <= p < b then 1 else 0
  {
    if a < b {
      PageRangeIs(a, b - 1, p);
    }
  }

  datatype Op = Reserve(size: nat) | Map(offset: nat, size: nat) | Unmap(offset: nat, size: nat) | Free

  datatype Result = Done(s: Vmm) | Error(s: Vmm)

  /** The end of a request, in bytes, after both parts have been rounded up. */
  function End(g: nat, offset: nat, size: nat): nat
    requires g > 0
  {
    AlignUp(offset, g) + AlignUp(size, g)
  }

  function Step(s: Vmm, op: Op): Result
    requires s.g > 0
  {
    match op
    case Reserve(size) =>
      if s.initialized then Error(s)
      else Done(s.(reserved := AlignUp(size, s.g), mapped := 0, initialized := true, pages := multiset{}, created := 0))
    case Map(offset, size) =>
      if !s.initialized || End(s.g, offset, size) > s.reserved then Error(s)
      else if End(s.g, offset, size) <= s.mapped then Done(s)
      else
        var end := End(s.g, offset, size);
        Done(s.(mapped := end, pages := s.pages + PageRange(Page(s.mapped, s.g), Page(end, s.g)), created := s.created + (end - s.mapped)))
    case Unmap(offset, size) =>
      if !s.initialized then Error(s)
      else if End(s.g, offset, size) > s.mapped then Done(s)
      else Done(s.(pages := s.pages - PageRange(Page(AlignUp(offset, s.g), s.g), Page(End(s.g, offset, size), s.g))))
    case Free =>
      if !s.initialized then Done(s)
      else Done(s.(reserved := 0, mapped := 0, initialized := false, pages := multiset{}, created := 0))
  }

  /** Sizes are page multiples, mapped does not exceed reserved, exactly `mapped` bytes have
      been created, and no page is mapped twice or beyond `mapped`. */
  ghost predicate Inv(s: Vmm) {
    && s.g > 0 && s.reserved % s.g == 0 && s.mapped % s.g == 0
    && s.mapped <= s.reserved && s.created == s.mapped
    && (!s.initialized ==> s.reserved == 0)
    && (forall p: nat :: s.pages[p] <= 1 && (s.pages[p] == 1 ==> p < s.mapped / s.g))
  }

  /** The mapped bytes are exactly [0, mapped). */
  ghost predicate Full(s: Vmm) {
    s.g > 0 && forall p: nat :: s.pages[p] == if p < s.mapped / s.g then 1 else 0
  }

  lemma EndIs(g: nat, offset: nat, size: nat)
    requires g > 0
    ensures End(g, offset, size) % g == 0 && End(g, offset, size) / g == CeilDiv(offset, g) + CeilDiv(size, g)
    ensures offset + size <= End(g, offset, size)
  {
    AlignUpIs(offset, g);
    AlignUpIs(size, g);
    SumOfPages(CeilDiv(offset, g), CeilDiv(size, g), g);
  }

  lemma QuotientMono(a: nat, b: nat, g: nat)
    requires g > 0 && a <= b
    ensures a / g <= b / g
  {
    assert a == g * (a / g) + a % g && b == g * (b / g) + b % g;
    if a / g > b / g {
      MulMono(b / g + 1, a / g, g);
    }
  }

  lemma NoPages(g: nat)
    requires g > 0
    ensures 0 / g == 0 && 0 % g == 0
  {
    DivModUnique(0, g, 0, 0);
  }

  /** Every operation keeps the invariant; all but unmapping also keep the mapped part whole. */
  lemma StepKeeps(s: Vmm, op: Op)
    requires Inv(s)
    ensures Inv(Step(s, op).s) && Step(s, op).s.g == s.g
    ensures Full(s) && !op.Unmap? ==> Full(Step(s, op).s)
  {
    match op
    case Reserve(size) => ReserveKeeps(s, size);
    case Map(offset, size) => MapKeeps(s, offset, size);
    case Unmap(offset, size) => UnmapKeeps(s, offset, size);
    case Free => NoPages(s.g);
  }

  lemma ReserveKeeps(s: Vmm, size: nat)
    requires Inv(s)
    ensures Inv(Step(s, Reserve(size)).s) && (Full(s) ==> Full(Step(s, Reserve(size)).s))
  {
    AlignUpIs(size, s.g);
    NoPages(s.g);
  }

  lemma UnmapKeeps(s: Vmm, offset: nat, size: nat)
    requires Inv(s)
    ensures Inv(Step(s, Unmap(offset, size)).s)
  {
    var t := Step(s, Unmap(offset, size)).s;
    forall p: nat ensures t.pages[p] <= s.pages[p] {
    }
  }

  lemma MapKeeps(s: Vmm, offset: nat, size: nat)
    requires Inv(s)
    ensures Inv(Step(s, Map(offset, size)).s)
    ensures Full(s) ==> Full(Step(s, Map(offset, size)).s)
  {
    var end := End(s.g, offset, size);
    EndIs(s.g, offset, size);
    if s.mapped < end {
      QuotientMono(s.mapped, end, s.g);
      forall p: nat ensures PageRange(Page(s.mapped, s.g), Page(end, s.g))[p] == if s.mapped / s.g <= p < end / s.g then 1 else 0 {
        PageRangeIs(Page(s.mapped, s.g), Page(end, s.g), p);
      }
    }
  }

  /** Failed operations change nothing. */
  lemma ErrorKeeps(s: Vmm, op: Op)
    requires s.g > 0
    ensures Step(s, op).Error? ==> Step(s, op).s == s
  {
  }

  /** A run of operations; failed operations change nothing. */
  function Run(s: Vmm, ops: seq<Op>): Vmm
    requires s.g > 0
    ensures Run(s, ops).g == s.g
  {
    if ops == [] then s else Step(Run(s, ops[..|ops| - 1]), ops[|ops| - 1]).s
  }

  /** Main theorem: over every run the sizes are right and no page is mapped twice; over every
      run without unmapping, the mapped bytes are exactly [0, mapped_size). */
  lemma {:induction false} RunKeeps(g: nat, ops: seq<Op>)
    requires g > 0
    ensures Inv(Run(NewVmm(g), ops))
    ensures (forall k :: 0 <= k < |ops| ==> !ops[k].Unmap?) ==> Full(Run(NewVmm(g), ops))
  {
    if ops == [] {
      NoPages(g);
    } else {
      RunKeeps(g, ops[..|ops| - 1]);
      StepKeeps(Run(NewVmm(g), ops[..|ops| - 1]), ops[|ops| - 1]);
    }
  }

  // ---------------------------------------------------------------------------
  // Which operations succeed
  // ---------------------------------------------------------------------------

  /** Operation `k` made the reservation that is still there: nothing has been freed since, and
      every earlier reservation was. */
  ghost predicate LiveAt(ops: seq<Op>, k: nat) {
    && k < |ops| && ops[k].Reserve? && (forall j :: k < j < |ops| ==> !ops[j].Free?)
    && (forall j :: 0 <= j < k && ops[j].Reserve? ==> exists m :: j < m < k && ops[m].Free?)
  }

  lemma LiveBefore(ops: seq<Op>, k: nat)
    requires ops != [] && k < |ops| - 1
    ensures LiveAt(ops, k) <==> LiveAt(ops[..|ops| - 1], k) && !ops[|ops| - 1].Free?
  {
    var before := ops[..|ops| - 1];
    assert forall j :: 0 <= j < |before| ==> before[j] == ops[j];
    if LiveAt(ops, k) {
      forall j | 0 <= j < k && before[j].Reserve? ensures exists m :: j < m < k && before[m].Free? {
        var m :| j < m < k && ops[m].Free?;
        assert before[m].Free?;
      }
    }
    if LiveAt(before, k) {
      forall j | 0 <= j < k && ops[j].Reserve? ensures exists m :: j < m < k && ops[m].Free? {
        assert before[j].Reserve?;
        var m :| j < m < k && before[m].Free?;
        assert ops[m].Free?;
      }
    }
  }

  /** Some reservation is live. */
  ghost predicate Live(ops: seq<Op>) { exists k: nat :: LiveAt(ops, k) }

  /** Reservation `j` has not been freed. */
  predicate Open(ops: seq<Op>, j: nat) { j < |ops| && ops[j].Reserve? && forall m :: j < m < |ops| ==> !ops[m].Free? }

  /** If some reservation was never freed, the first since the last free is live. */
  lemma {:induction false} OpenIsLive(ops: seq<Op>, j: nat)
    requires Open(ops, j)
    ensures Live(ops)
  {
    if !LiveAt(ops, j) {
      var i :| 0 <= i < j && ops[i].Reserve? && forall m :: i < m < j ==> !ops[m].Free?;
      OpenIsLive(ops, i);
    }
  }

  /** The last operation makes a reservation exactly if there was none. */
  lemma LiveLast(ops: seq<Op>)
    requires ops != []
    ensures LiveAt(ops, |ops| - 1) <==> ops[|ops| - 1].Reserve? && !Live(ops[..|ops| - 1])
  {
    var n := |ops| - 1;
    var before := ops[..n];
    assert forall j :: 0 <= j < n ==> before[j] == ops[j];
    if ops[n].Reserve? && !LiveAt(ops, n) {
      var j :| 0 <= j < n && ops[j].Reserve? && forall m :: j < m < n ==> !ops[m].Free?;
      OpenIsLive(before, j);
    }
    if k: nat :| LiveAt(before, k) && ops[n].Reserve? {
      assert ops[k].Reserve? && forall m :: k < m < n ==> !ops[m].Free?;
    }
  }

  /** Over every run: the allocator is initialised exactly if a reservation is live, and that one
      decides the reserved size. */
  lemma {:induction false} ReservedIff(g: nat, ops: seq<Op>)
    requires g > 0
    ensures var s := Run(NewVmm(g), ops);
            && (s.initialized <==> Live(ops))
            && (forall k: nat :: LiveAt(ops, k) ==> s.reserved == CeilDiv(ops[k].size, g) * g)
  {
    if ops != [] {
      var n := |ops| - 1;
      ReservedIff(g, ops[..n]);
      LiveLast(ops);
      forall k: nat | k < n ensures LiveAt(ops, k) <==> LiveAt(ops[..n], k) && !ops[n].Free? {
        LiveBefore(ops, k);
      }
      ReservedStep(Run(NewVmm(g), ops[..n]), ops[n]);
    }
  }

  lemma ReservedStep(s: Vmm, op: Op)
    requires s.g > 0
    ensures var t := Step(s, op).s;
            if op.Free? then !t.initialized
            else if op.Reserve? && !s.initialized then t.initialized && t.reserved == CeilDiv(op.size, s.g) * s.g
            else t.initialized == s.initialized && t.reserved == s.reserved
  {
  }

  /** So after every run: reserving succeeds exactly if no reservation is live; mapping if one is and
      the pages of offset and size together lie inside it; unmapping if one is; freeing always. */
  lemma SucceedsIff(g: nat, ops: seq<Op>, op: Op)
    requires g > 0
    ensures Step(Run(NewVmm(g), ops), op).Done? <==>
              match op
              case Reserve(_) => !Live(ops)
              case Map(offset, size) => exists k: nat :: LiveAt(ops, k) && CeilDiv(offset, g) + CeilDiv(size, g) <= CeilDiv(ops[k].size, g)
              case Unmap(_, _) => Live(ops)
              case Free => true
  {
    ReservedIff(g, ops);
    if op.Map? && Run(NewVmm(g), ops).initialized {
      var k: nat :| LiveAt(ops, k);
      EndInPages(g, op.offset, op.size, ops[k].size);
    }
  }

  lemma EndInPages(g: nat, offset: nat, size: nat, reserved: nat)
    requires g > 0
    ensures End(g, offset, size) <= CeilDiv(reserved, g) * g <==> CeilDiv(offset, g) + CeilDiv(size, g) <= CeilDiv(reserved, g)
  {
    var a, b := CeilDiv(offset, g) + CeilDiv(size, g), CeilDiv(reserved, g);
    assert End(g, offset, size) == a * g;
    if a <= b {
      MulMono(a, b, g);
    } else {
      MulMono(b + 1, a, g);
    }
  }

  /** How the mapped size moves: a map that succeeds raises it to the end of its request, a
      reservation and a free bring it to 0, and nothing else changes it. */
  lemma MappedIs(s: Vmm, op: Op)
    requires Inv(s) && Step(s, op).Done?
    ensures Step(s, op).s.mapped ==
              match op
              case Reserve(_) => 0
              case Map(offset, size) => Max(s.mapped, (CeilDiv(offset, s.g) + CeilDiv(size, s.g)) * s.g)
              case Unmap(_, _) => s.mapped
              case Free => if s.initialized then 0 else s.mapped
  {
    if op.Map? {
      assert End(s.g, op.offset, op.size) == (CeilDiv(op.offset, s.g) + CeilDiv(op.size, s.g)) * s.g;
    }
  }

  // ---------------------------------------------------------------------------
  // What a returned map means
  // ---------------------------------------------------------------------------

  /** Every byte of [offset, offset + size) lies in a mapped page. */
  ghost predicate Backed(s: Vmm, offset: nat, size: nat)
    requires s.g > 0
  {
    forall x: nat {:trigger ByteBacked(s, x)} :: offset <= x < offset + size ==> ByteBacked(s, x)
  }

  predicate ByteBacked(s: Vmm, x: nat)
    requires s.g > 0
  {
    s.pages[Page(x, s.g)] >= 1
  }

  /** The bytes of the request that lay below the mapped size were backed before. */
  ghost predicate OldPartBacked(s: Vmm, offset: nat, size: nat)
    requires s.g > 0
  {
    forall x: nat {:trigger ByteBacked(s, x)} :: offset <= x < offset + size && x < s.mapped ==> ByteBacked(s, x)
  }

  lemma PageBelow(x: nat, m: nat, g: nat)
    requires g > 0 && m % g == 0
    ensures x / g < m / g <==> x < m
  {
    assert m == g * (m / g) && x == g * (x / g) + x % g;
    if x < m && x / g >= m / g {
      MulMono(m / g, x / g, g);
    }
    if x >= m && x / g < m / g {
      MulMono(x / g + 1, m / g, g);
    }
  }

  /** A map that returns backs its whole range exactly if the part below the mapped size had
      not been unmapped. */
  lemma MapBacksIff(s: Vmm, offset: nat, size: nat)
    requires Inv(s) && Step(s, Map(offset, size)).Done?
    ensures Backed(Step(s, Map(offset, size)).s, offset, size) <==> OldPartBacked(s, offset, size)
  {
    var t := Step(s, Map(offset, size)).s;
    forall x: nat | offset <= x < offset + size
      ensures ByteBacked(t, x) <==> (x < s.mapped ==> ByteBacked(s, x))
    {
      ByteAfterMap(s, offset, size, x);
    }
  }

  lemma ByteAfterMap(s: Vmm, offset: nat, size: nat, x: nat)
    requires Inv(s) && Step(s, Map(offset, size)).Done? && offset <= x < offset + size
    ensures ByteBacked(Step(s, Map(offset, size)).s, x) <==> (x < s.mapped ==> ByteBacked(s, x))
  {
    var end := End(s.g, offset, size);
    EndIs(s.g, offset, size);
    PageBelow(x, s.mapped, s.g);
    PageBelow(x, end, s.g);
    if s.mapped < end {
      PageRangeIs(Page(s.mapped, s.g), Page(end, s.g), Page(x, s.g));
    }
  }

  /** The operation takes page `p` away. */
  predicate Unmaps(s: Vmm, op: Op, p: nat)
    requires s.g > 0
  {
    && op.Unmap? && s.initialized && End(s.g, op.offset, op.size) <= s.mapped
    && AlignUp(op.offset, s.g) / s.g <= p < End(s.g, op.offset, op.size) / s.g
  }

  /** Operation `j` of the run unmapped page `p`, and nothing has been freed since. */
  ghost predicate PunchedAt(g: nat, ops: seq<Op>, p: nat, j: nat)
    requires g > 0
  {
    j < |ops| && Unmaps(Run(NewVmm(g), ops[..j]), ops[j], p) && forall k :: j < k < |ops| ==> !ops[k].Free?
  }

  /** Some unmap since the last reservation covered page `p`. */
  ghost predicate Punched(g: nat, ops: seq<Op>, p: nat)
    requires g > 0
  {
    exists j: nat :: PunchedAt(g, ops, p, j)
  }

  lemma PunchedStep(g: nat, ops: seq<Op>, p: nat)
    requires g > 0 && ops != []
    ensures var n := |ops| - 1;
            Punched(g, ops, p) <==> (Punched(g, ops[..n], p) && !ops[n].Free?) || Unmaps(Run(NewVmm(g), ops[..n]), ops[n], p)
  {
    var n := |ops| - 1;
    forall j: nat | j < n ensures PunchedAt(g, ops, p, j) <==> PunchedAt(g, ops[..n], p, j) && !ops[n].Free? {
      assert ops[..n][..j] == ops[..j];
    }
    assert PunchedAt(g, ops, p, n) <==> Unmaps(Run(NewVmm(g), ops[..n]), ops[n], p);
  }

  /** Over every run: a page is mapped exactly if it lies below the mapped size and no unmap since
      the last reservation covered it.  A map never brings it back. */
  lemma {:induction false} PageMappedIff(g: nat, ops: seq<Op>, p: nat)
    requires g > 0
    ensures var s := Run(NewVmm(g), ops);
            && (s.pages[p] == 1 <==> p < s.mapped / g && !Punched(g, ops, p))
            && (Punched(g, ops, p) ==> s.initialized && p < s.mapped / g)
  {
    if ops == [] {
      NoPages(g);
    } else {
      var n := |ops| - 1;
      PageMappedIff(g, ops[..n], p);
      RunKeeps(g, ops[..n]);
      PunchedStep(g, ops, p);
      PageStep(Run(NewVmm(g), ops[..n]), ops[n], p, Punched(g, ops[..n], p));
    }
  }

  /** One operation, seen from a page that may have been unmapped before. */
  lemma PageStep(s: Vmm, op: Op, p: nat, was: bool)
    requires Inv(s) && (s.pages[p] == 1 <==> p < s.mapped / s.g && !was) && (was ==> s.initialized && p < s.mapped / s.g)
    ensures var t := Step(s, op).s; var now := (was && !op.Free?) || Unmaps(s, op, p);
            && (t.pages[p] == 1 <==> p < t.mapped / s.g && !now)
            && (now ==> t.initialized && p < t.mapped / s.g)
  {
    NoPages(s.g);
    match op
    case Map(offset, size) =>
      MapOnPage(s, offset, size, p);
    case Unmap(offset, size) =>
      UnmapOnPage(s, offset, size, p);
      if Unmaps(s, op, p) {
        QuotientMono(End(s.g, offset, size), s.mapped, s.g);
      }
    case Reserve(size) =>
      ReserveOnPage(s, size, p);
    case Free =>
  }

  /** A reservation starts without pages, and an allocator that is not initialised has none. */
  lemma ReserveOnPage(s: Vmm, size: nat, p: nat)
    requires Inv(s)
    ensures var t := Step(s, Reserve(size)).s;
            if s.initialized then t == s else t.mapped / s.g == 0 && t.pages[p] == 0
  {
    NoPages(s.g);
  }

  lemma MapOnPage(s: Vmm, offset: nat, size: nat, p: nat)
    requires Inv(s)
    ensures var t := Step(s, Map(offset, size)).s;
            && t.mapped / s.g >= s.mapped / s.g
            && t.pages[p] == s.pages[p] + if s.mapped / s.g <= p < t.mapped / s.g then 1 else 0
  {
    var t := Step(s, Map(offset, size)).s;
    QuotientMono(s.mapped, t.mapped, s.g);
    PageRangeIs(Page(s.mapped, s.g), Page(t.mapped, s.g), p);
  }

  lemma UnmapOnPage(s: Vmm, offset: nat, size: nat, p: nat)
    requires Inv(s)
    ensures var t := Step(s, Unmap(offset, size)).s;
            t.pages[p] == if s.initialized && End(s.g, offset, size) <= s.mapped && AlignUp(offset, s.g) / s.g <= p < End(s.g, offset, size) / s.g
                          then 0 else s.pages[p]
  {
    PageRangeIs(Page(AlignUp(offset, s.g), s.g), Page(End(s.g, offset, size), s.g), p);
  }

  /** So, after any run, a map that returns backs its whole range exactly if no unmap since the last
      reservation covered a byte of it below the mapped size. */
  lemma MapBacksAfterRunIff(g: nat, ops: seq<Op>, offset: nat, size: nat)
    requires g > 0 && Step(Run(NewVmm(g), ops), Map(offset, size)).Done?
    ensures var s := Run(NewVmm(g), ops);
            Backed(Step(s, Map(offset, size)).s, offset, size) <==>
              forall x: nat :: offset <= x < offset + size && x < s.mapped ==> !Punched(g, ops, Page(x, g))
  {
    var s := Run(NewVmm(g), ops);
    RunKeeps(g, ops);
    MapBacksIff(s, offset, size);
    forall x: nat | x < s.mapped ensures ByteBacked(s, x) <==> !Punched(g, ops, Page(x, g)) {
      PageMappedIff(g, ops, Page(x, g));
      PageBelow(x, s.mapped, g);
    }
  }

  /** Without unmapping, a map that returns always backs its whole range. */
  lemma MapBacks(s: Vmm, offset: nat, size: nat)
    requires Inv(s) && Full(s) && Step(s, Map(offset, size)).Done?
    ensures Backed(Step(s, Map(offset, size)).s, offset, size)
  {
    assert OldPartBacked(s, offset, size) by { FullIsBacked(s, offset, size); }
    MapBacksIff(s, offset, size);
  }

  lemma FullIsBacked(s: Vmm, offset: nat, size: nat)
    requires Inv(s) && Full(s)
    ensures OldPartBacked(s, offset, size)
  {
    forall x: nat | offset <= x < offset + size && x < s.mapped ensures ByteBacked(s, x) {
      PageBelow(x, s.mapped, s.g);
    }
  }

  /** After unmapping, a later map of the same bytes returns without mapping them. */
  lemma MapAfterUnmapIsLost(g: nat)
    requires g > 0
    ensures var s := Run(NewVmm(g), [Reserve(g), Map(0, g), Unmap(0, g)]);
            && Step(s, Map(0, g)) == Done(s) && !ByteBacked(s, 0)
  {
    OnePage(g);
    var a, b, c := Vmm(g, g, 0, true, multiset{}, 0), Vmm(g, g, g, true, multiset{0}, g), Vmm(g, g, g, true, multiset{}, g);
    assert PageRange(0, 1) == multiset{0};
    assert Step(NewVmm(g), Reserve(g)).s == a && Step(a, Map(0, g)).s == b && Step(b, Unmap(0, g)).s == c;
    ThreeSteps(NewVmm(g), Reserve(g), Map(0, g), Unmap(0, g));
  }

  lemma OnePage(g: nat)
    requires g > 0
    ensures AlignUp(g, g) == g && AlignUp(0, g) == 0 && g / g == 1 && 0 / g == 0
  {
    DivModUnique(g, g, 1, 0);
    DivModUnique(0, g, 0, 0);
    DivModUnique(g + g - 1, g, 1, g - 1);
    DivModUnique(g - 1, g, 0, g - 1);
  }

  lemma ThreeSteps(s: Vmm, x: Op, y: Op, z: Op)
    requires s.g > 0
    ensures var a := Step(s, x).s; var b := Step(a, y).s; Run(s, [x, y, z]) == Step(b, z).s
  {
    assert [x, y, z][..2] == [x, y] && [x, y][..1] == [x] && [x][..0] == [];
    assert Run(s, [x]) == Step(s, x).s;
    assert Run(s, [x, y]) == Step(Step(s, x).s, y).s;
  }

  // ---------------------------------------------------------------------------
  // The allocator object, and the pool
  // ---------------------------------------------------------------------------

  class Allocator {
    const g: nat
    var reserved: nat
    var mapped: nat
    var initialized: bool
    ghost var pages: multiset<nat>
    ghost var created: nat

    ghost function Now(): Vmm
      reads this
    {
      Vmm(g, reserved, mapped, initialized, pages, created)
    }

    constructor (granularity: nat)
      requires granularity > 0
      ensures g == granularity && Now() == NewVmm(granularity)
    {
      g, reserved, mapped, initialized, pages, created := granularity, 0, 0, false, multiset{}, 0;
    }

    method Reserve(size: nat) returns (ok: bool)
      requires g > 0
      modifies this
      ensures ok == Step(old(Now()), Op.Reserve(size)).Done? && Now() == Step(old(Now()), Op.Reserve(size)).s
    {
      if initialized {
        return false;
      }
      reserved := AlignUp(size, g);
      initialized, mapped := true, 0;
      pages, created := multiset{}, 0;
      ok := true;
    }

    method MapPhysical(offset: nat, size: nat) returns (ok: bool)
      requires g > 0
      modifies this
      ensures ok == Step(old(Now()), Map(offset, size)).Done? && Now() == Step(old(Now()), Map(offset, size)).s
    {
      if !initialized {
        return false;
      }
      var end := AlignUp(offset, g) + AlignUp(size, g);
      if end > reserved {
        return false;
      }
      if end <= mapped {
        return true;
      }
      pages := pages + PageRange(Page(mapped, g), Page(end, g));
      created := created + (end - mapped);
      mapped := end;
      ok := true;
    }

    method UnmapPhysical(offset: nat, size: nat) returns (ok: bool)
      requires g > 0
      modifies this`pages
      ensures ok == Step(old(Now()), Unmap(offset, size)).Done? && Now() == Step(old(Now()), Unmap(offset, size)).s
    {
      if !initialized {
        return false;
      }
      var start, end := AlignUp(offset, g), AlignUp(offset, g) + AlignUp(size, g);
      if end > mapped {
        return true;
      }
      pages := pages - PageRange(Page(start, g), Page(end, g));
      ok := true;
    }

    method FreeAll()
      requires g > 0
      modifies this
      ensures Now() == Step(old(Now()), Free).s
    {
      if !initialized {
        return;
      }
      reserved, mapped, initialized := 0, 0, false;
      pages, created := multiset{}, 0;
    }
  }

  /** The activation pool: it maps its reservation in chunks, from the beginning. */
  class Pool {
    const vmm: Allocator
    const size: nat
    const chunk: nat
    var current: nat

    ghost predicate Valid()
      reads this, vmm
    {
      && chunk > 0 && vmm.g > 0 && vmm.initialized && Inv(vmm.Now()) && Full(vmm.Now())
      && vmm.reserved == AlignUp(size, vmm.g) && current <= size && current <= vmm.mapped
    }

    constructor (granularity: nat, size: nat, chunk: nat)
      requires granularity > 0 && chunk > 0
      ensures Valid() && fresh(vmm) && this.size == size && current == 0
    {
      var a := new Allocator(granularity);
      ghost var s := a.Now();
      var ok := a.Reserve(size);
      vmm, this.size, this.chunk, current := a, size, chunk, 0;
      new;
      NoPages(granularity);
      assert Inv(s) && Full(s);
      StepKeeps(s, Op.Reserve(size));
    }

    /** Whatever has been asked for before, the required bytes end up mapped, as far as the pool
        goes; the allocator never refuses, since the request is cut to the pool. */
    method EnsureMapped(required: nat)
      requires Valid()
      modifies this`current, vmm
      ensures Valid() && current == Max(old(current), if required > old(current) then Min(CeilDiv(required, chunk) * chunk, size) else 0)
      ensures vmm.mapped == if current > old(current) then Max(old(vmm.mapped), CeilDiv(current, vmm.g) * vmm.g) else old(vmm.mapped)
      ensures Backed(vmm.Now(), 0, Min(required, size))
    {
      AlignUpIs(required, chunk);
      if required > current && Min(AlignUp(required, chunk), size) > current {
        var want := Min(AlignUp(required, chunk), size);
        AlignUpMono(want, size, vmm.g);
        AlignUpIs(want, vmm.g);
        DivModUnique(vmm.g - 1, vmm.g, 0, vmm.g - 1);
        ghost var s := vmm.Now();
        assert AlignUp(0, vmm.g) == 0;
        MapBacksAll(s, want);
        StepKeeps(s, Map(0, want));
        var ok := vmm.MapPhysical(0, want);
        current := want;
      }
      BackedBelow(vmm.Now(), Min(required, size));
    }
  }

  lemma MapBacksAll(s: Vmm, want: nat)
    requires Inv(s) && s.initialized && AlignUp(0, s.g) == 0 && AlignUp(want, s.g) <= s.reserved
    ensures Step(s, Map(0, want)).Done? && want <= Step(s, Map(0, want)).s.mapped
    ensures s.mapped <= Step(s, Map(0, want)).s.mapped
  {
    AlignUpIs(want, s.g);
  }

  lemma BackedBelow(s: Vmm, n: nat)
    requires Inv(s) && Full(s) && n <= s.mapped
    ensures Backed(s, 0, n)
  {
    forall x: nat | 0 <= x < n ensures ByteBacked(s, x) {
      PageBelow(x, s.mapped, s.g);
    }
  }
}
