/** What the search of diffusion_tools/online_searcher.py does on the real block graphs, for every
    model, request and pool: when it returns, what it returns, when it raises and when it goes on
    for ever. */
module SearchResults {
  import opened Arith
  import opened Wrappers
  import opened BlockGraphs
  import opened BlockPlans
  import opened ChunkSearch
  import opened SearchOnGraphs
  import RP = ReusePlan

  // ---------------------------------------------------------------------------
  // The planned buffer
  // ---------------------------------------------------------------------------

  function ModelBytes(model: Model, n: nat): nat { n * model.Hidden() * 2 }
  function KvBytes(model: Model, n: nat): nat { n * model.KvWidth() * 2 }

  /** The plan of a block, without its logits. */
  function BodyAt(model: Model, n: nat, k: nat): nat {
    var b := BlockAt(model, n, 0, Config(1, k));
    WellBuilt(b);
    BodyTotal(b, RP.Offsets(b.Graph(), |b.Graph()|))
  }

  /** The hidden states and the logits behind them. */
  function TailAt(model: Model, n: nat, m: nat, l: nat): nat {
    if LogitsAt(model, m, l) > 0 then ModelBytes(model, n) + LogitsAt(model, m, l) else 0
  }

  lemma PlannedModel(model: Model, n: nat, m: nat, c: Config, offs: seq<nat>)
    requires n >= 1 && RP.IsPlan(BlockAt(model, n, m, c).Graph(), offs, |BlockAt(model, n, m, c).Graph()|)
    ensures Planned(BlockAt(model, n, m, c), offs)
  {
    ModelIsRegular(model, n, m, Chunking(ChunksOf(c.mlp), ChunksOf(c.logits)));
    SizedModel(model, n, m, c);
    PlannedBlock(BlockAt(model, n, m, c), offs);
  }

  /** The plan that `BodyAt` speaks of. */
  lemma BodyPlan(model: Model, n: nat, k: nat) returns (offs: seq<nat>)
    requires n >= 1
    ensures Planned(BlockAt(model, n, 0, Config(1, k)), offs) && BodyAt(model, n, k) == BodyTotal(BlockAt(model, n, 0, Config(1, k)), offs)
  {
    var b := BlockAt(model, n, 0, Config(1, k));
    WellBuilt(b);
    offs := RP.Offsets(b.Graph(), |b.Graph()|);
    RP.OffsetsArePlan(b.Graph(), |b.Graph()|);
    PlannedModel(model, n, 0, Config(1, k), offs);
  }

  /** The buffer of a configuration is the larger of a part that depends on the MLP chunks and a
      part that depends on the logits chunks. */
  lemma RealBuffer(f: Oracle, model: Model, n: nat, m: nat, c: Config)
    requires n >= 1 && Analyses(f, model, n, m) && c.Ok()
    ensures f(c).buffer == Max(BodyAt(model, n, c.mlp), TailAt(model, n, m, c.logits))
  {
    var b := BlockAt(model, n, m, c);
    var d := BlockAt(model, n, 0, Config(1, c.mlp));
    var offs :| RP.IsPlan(b.Graph(), offs, |b.Graph()|) && f(c).buffer == RP.Total(b.Graph(), offs, |b.Graph()|);
    PlannedModel(model, n, m, c, offs);
    TotalIsTwoParts(b, offs);
    var q := BodyPlan(model, n, c.mlp);
    BodyWithoutLogits(b, d, offs, q);
  }

  lemma RealSeparable(f: Oracle, model: Model, n: nat, m: nat)
    requires n >= 1 && Analyses(f, model, n, m)
    ensures Separable(f, k => BodyAt(model, n, k), l => TailAt(model, n, m, l))
  {
    forall c: Config | c.Ok() ensures f(c).buffer == Max(BodyAt(model, n, c.mlp), TailAt(model, n, m, c.logits)) {
      RealBuffer(f, model, n, m, c);
    }
  }

  /** No plan of the block is smaller than this. */
  function LeastPlan(model: Model, n: nat): nat {
    Max(4 * ModelBytes(model, n), 3 * ModelBytes(model, n) + 2 * KvBytes(model, n))
  }

  lemma BodyIsAtLeast(model: Model, n: nat, k: nat)
    requires n >= 1
    ensures BodyAt(model, n, k) >= LeastPlan(model, n)
  {
    var offs := BodyPlan(model, n, k);
    BodyAtLeast(BlockAt(model, n, 0, Config(1, k)), offs);
  }

  /** Cut until the MLP peak is down to the fixed part, the block needs no more than that. */
  lemma BodyWhenCut(model: Model, n: nat, k: nat)
    requires n >= 1 && k >= 2 && MlpAt(model, n, k) <= FixedAt(model, n)
    ensures BodyAt(model, n, k) == LeastPlan(model, n)
  {
    var offs := BodyPlan(model, n, k);
    SmallChunksBody(BlockAt(model, n, 0, Config(1, k)), offs);
  }

  lemma TailFalls(model: Model, n: nat, m: nat, a: nat, b: nat)
    requires 1 <= a <= b
    ensures TailAt(model, n, m, b) <= TailAt(model, n, m, a)
  {
    LogitsFall(model, m, a, b);
  }

  // ---------------------------------------------------------------------------
  // Requests with enough tokens
  // ---------------------------------------------------------------------------

  /** `l` is the least number of chunks that brings the logits down to the fixed part. */
  ghost predicate LastLogits(model: Model, n: nat, m: nat, l: nat) {
    l >= 1 && LogitsAt(model, m, l) <= FixedAt(model, n) && forall i :: 1 <= i < l ==> LogitsAt(model, m, i) > FixedAt(model, n)
  }

  lemma LastLogitsExists(model: Model, n: nat, m: nat) returns (l: nat)
    requires n >= EnoughTokens(model)
    ensures LastLogits(model, n, m, l)
  {
    EnoughTokensCut(model, n, m);
    assert LogitsAt(model, m, Max(m, 1)) <= FixedAt(model, n);
    l := 1;
    while LogitsAt(model, m, l) > FixedAt(model, n)
      invariant 1 <= l <= Max(m, 1) && forall i :: 1 <= i < l ==> LogitsAt(model, m, i) > FixedAt(model, n)
      decreases Max(m, 1) - l
    {
      l := l + 1;
    }
  }

  /** The path never cuts the logits further than needed to bring them down to the fixed part. */
  lemma PathStaysBelow(f: Oracle, model: Model, n: nat, m: nat, l: nat, k: nat)
    requires n >= 1 && Analyses(f, model, n, m) && l >= 1 && LogitsAt(model, m, l) <= FixedAt(model, n)
    requires PathFrom(f, Config(1, 1), k).Some?
    ensures PathFrom(f, Config(1, 1), k).value.Ok() && PathFrom(f, Config(1, 1), k).value.logits <= l
  {
    var s, c := ShapeOf(model, n, m), Config(1, 1);
    RealShape(f, model, n, m);
    PathCounts(f, c, k);
    PathIsAbove(f, s, c, k);
    assert s.logits(l) <= s.fixed;
  }

  /** Where the path ends, both stages are down to the fixed part. */
  lemma EndIsCut(f: Oracle, model: Model, n: nat, m: nat, k: nat)
    requires n >= 1 && Analyses(f, model, n, m) && EndsAt(f, Config(1, 1), k)
    ensures var d := PathFrom(f, Config(1, 1), k).value;
            d.Ok() && d.mlp >= 2 && LogitsAt(model, m, d.logits) <= FixedAt(model, n) && MlpAt(model, n, d.mlp) <= FixedAt(model, n)
  {
    var d := PathFrom(f, Config(1, 1), k).value;
    PathCounts(f, Config(1, 1), k);
    PathGoesOn(f, Config(1, 1), k);
    ReportShape(f, model, n, m, d);
    UncutMlp(model, n);
  }

  lemma PathHasEnd(f: Oracle, model: Model, n: nat, m: nat) returns (k: nat)
    requires n >= EnoughTokens(model) && Analyses(f, model, n, m)
    ensures EndsAt(f, Config(1, 1), k)
  {
    RealShape(f, model, n, m);
    EnoughTokensCut(model, n, m);
    PathEndsIff(f, ShapeOf(model, n, m));
    k :| EndsAt(f, Config(1, 1), k);
  }

  /** The last configuration of the path, and what it needs. */
  lemma PathEnd(f: Oracle, model: Model, n: nat, m: nat, l: nat) returns (k: nat)
    requires n >= EnoughTokens(model) && Analyses(f, model, n, m) && LastLogits(model, n, m, l)
    ensures EndsAt(f, Config(1, 1), k)
    ensures f(PathFrom(f, Config(1, 1), k).value).buffer == Max(LeastPlan(model, n), TailAt(model, n, m, l))
  {
    k := PathHasEnd(f, model, n, m);
    var d := PathFrom(f, Config(1, 1), k).value;
    EndIsCut(f, model, n, m, k);
    PathStaysBelow(f, model, n, m, l, k);
    assert d.logits == l;
    BodyWhenCut(model, n, d.mlp);
    RealBuffer(f, model, n, m, d);
  }

  /** Every configuration of the path needs at least as much as the last one. */
  lemma PathNeeds(f: Oracle, model: Model, n: nat, m: nat, l: nat, k: nat)
    requires n >= EnoughTokens(model) && Analyses(f, model, n, m) && LastLogits(model, n, m, l)
    requires PathFrom(f, Config(1, 1), k).Some?
    ensures f(PathFrom(f, Config(1, 1), k).value).buffer >= Max(LeastPlan(model, n), TailAt(model, n, m, l))
  {
    var d := PathFrom(f, Config(1, 1), k).value;
    PathStaysBelow(f, model, n, m, l, k);
    TailFalls(model, n, m, d.logits, l);
    BodyIsAtLeast(model, n, d.mlp);
    RealBuffer(f, model, n, m, d);
  }

  lemma MlpStaysBelow(f: Oracle, model: Model, n: nat, m: nat, j: nat, k: nat)
    requires n >= 1 && Analyses(f, model, n, m) && j >= 1 && MlpAt(model, n, j) <= FixedAt(model, n)
    requires PathFrom(f, Config(1, 1), k).Some?
    ensures PathFrom(f, Config(1, 1), k).value.mlp <= j
  {
    var s, c := ShapeOf(model, n, m), Config(1, 1);
    RealShape(f, model, n, m);
    PathIsAbove(f, s, c, k);
    assert s.mlp(j) <= s.fixed;
  }

  /** The path is no longer than there are rows to cut off. */
  lemma PathIsShort(f: Oracle, model: Model, n: nat, m: nat) returns (turns: nat)
    requires n >= EnoughTokens(model) && Analyses(f, model, n, m)
    ensures turns == Max(m, 1) + n - 1 && ShorterThan(f, turns)
  {
    turns := Max(m, 1) + n - 1;
    EnoughTokensCut(model, n, m);
    forall k: nat | Path(f, k).Some? ensures k < Max(m, 1) + n - 1 {
      PathStaysBelow(f, model, n, m, Max(m, 1), k);
      MlpStaysBelow(f, model, n, m, n, k);
      PathCounts(f, Config(1, 1), k);
    }
  }

  lemma StopsInRows(f: Oracle, model: Model, n: nat, m: nat, lim: Limits)
    requires n >= EnoughTokens(model) && Analyses(f, model, n, m)
    ensures StopsAfter(f, lim, Max(m, 1) + n - 1)
  {
    var turns := PathIsShort(f, model, n, m);
    StopsWithPath(f, lim, turns);
  }

  /** The path ends, and some configuration of it fits if and only if the last one does. */
  lemma PathFitsIff(f: Oracle, model: Model, n: nat, m: nat, lim: Limits, l: nat)
    requires n >= EnoughTokens(model) && Analyses(f, model, n, m) && LastLogits(model, n, m, l)
    ensures exists k: nat :: EndsAt(f, Config(1, 1), k)
    ensures (exists k: nat :: FitsAt(f, lim, Config(1, 1), k)) <==> lim.Budget() >= Max(LeastPlan(model, n), TailAt(model, n, m, l))
  {
    var k := PathEnd(f, model, n, m, l);
    assert lim.Budget() >= Max(LeastPlan(model, n), TailAt(model, n, m, l)) ==> FitsAt(f, lim, Config(1, 1), k);
    forall j: nat | FitsAt(f, lim, Config(1, 1), j) ensures lim.Budget() >= Max(LeastPlan(model, n), TailAt(model, n, m, l)) {
      PathNeeds(f, model, n, m, l, j);
    }
  }

  /** Exact for every pool: with enough tokens the search stops, after fewer turns than there are
      rows of hidden states and logits.  It raises if and only if the budget is below the least
      plan, or below what the hidden states and the logits need when these have been cut down to
      the fixed part; otherwise it returns a configuration. */
  lemma SearchIsExact(f: Oracle, model: Model, n: nat, m: nat, lim: Limits, l: nat)
    requires n >= EnoughTokens(model) && Analyses(f, model, n, m) && LastLogits(model, n, m, l)
    ensures StopsAfter(f, lim, Max(m, 1) + n - 1)
    ensures (exists turns: nat :: RaisesAfter(f, lim, turns)) <==>
              lim.Budget() < Max(LeastPlan(model, n), TailAt(model, n, m, l))
    ensures (exists turns: nat, d: Config :: FindsAfter(f, lim, turns, d)) <==>
              lim.Budget() >= Max(LeastPlan(model, n), TailAt(model, n, m, l))
  {
    StopsInRows(f, model, n, m, lim);
    PathFitsIff(f, model, n, m, lim, l);
    SearchOutcome(f, lim);
  }

  /** In bytes of the pool: 900 MiB stay free, and for LLaDA-MoE 700 MiB more. */
  lemma PoolNeeded(f: Oracle, model: Model, n: nat, m: nat, pool: int, l: nat)
    requires n >= EnoughTokens(model) && Analyses(f, model, n, m) && LastLogits(model, n, m, l)
    ensures (exists turns: nat, d: Config :: FindsAfter(f, LimitsFor(model.LLaDAMoE?, pool), turns, d)) <==>
              pool >= Max(LeastPlan(model, n), TailAt(model, n, m, l)) + 943_718_400 + if model.LLaDAMoE? then 734_003_200 else 0
  {
    SearchIsExact(f, model, n, m, LimitsFor(model.LLaDAMoE?, pool), l);
    BudgetIs(model.LLaDAMoE?, pool);
  }

  lemma BudgetIs(moe: bool, pool: int)
    ensures LimitsFor(moe, pool).Budget() == pool - 943_718_400 - if moe then 734_003_200 else 0
  {
  }

  /** Some configuration fits if and only if the least plan and one row of logits do. */
  lemma SomethingFitsIff(f: Oracle, model: Model, n: nat, m: nat, lim: Limits)
    requires n >= EnoughTokens(model) && Analyses(f, model, n, m)
    ensures (exists e: Config :: Feasible(f, lim, e)) <==>
              lim.Budget() >= Max(LeastPlan(model, n), TailAt(model, n, m, Max(m, 1)))
  {
    var d := Config(Max(m, 1), n);
    EnoughTokensCut(model, n, m);
    BodyWhenCut(model, n, n);
    RealBuffer(f, model, n, m, d);
    assert f(d).buffer <= lim.Budget() ==> Feasible(f, lim, d);
    forall e: Config | Feasible(f, lim, e) ensures f(d).buffer <= lim.Budget() {
      RealBuffer(f, model, n, m, e);
      BodyIsAtLeast(model, n, e.mlp);
      OneRowIsLeast(model, n, m, e.logits);
    }
  }

  lemma OneRowIsLeast(model: Model, n: nat, m: nat, l: nat)
    requires l >= 1
    ensures TailAt(model, n, m, l) >= TailAt(model, n, m, Max(m, 1))
  {
    OneRowOfLogits(model, m);
    if m >= 1 {
      CeilDivBounds(m, l);
    }
  }

  /** So it raises although something fits exactly for the budgets in between. */
  lemma RaisesThoughFitsIff(f: Oracle, model: Model, n: nat, m: nat, lim: Limits, l: nat)
    requires n >= EnoughTokens(model) && Analyses(f, model, n, m) && LastLogits(model, n, m, l)
    ensures (exists turns: nat :: RaisesAfter(f, lim, turns)) && (exists e: Config :: Feasible(f, lim, e)) <==>
              Max(LeastPlan(model, n), TailAt(model, n, m, Max(m, 1))) <= lim.Budget() < Max(LeastPlan(model, n), TailAt(model, n, m, l))
  {
    SearchIsExact(f, model, n, m, lim, l);
    SomethingFitsIff(f, model, n, m, lim);
  }

  /** LLaDA and LLaDA-MoE: the search raises only when no configuration fits. */
  lemma RaisesOnlyIfNothingFits(f: Oracle, model: Model, n: nat, m: nat, lim: Limits, turns: nat)
    requires n >= 1 && Analyses(f, model, n, m) && !model.Dream? && RaisesAfter(f, lim, turns)
    ensures forall e: Config :: !Feasible(f, lim, e)
  {
    RaiseNeedsTokens(f, model, n, m, lim, turns);
    var l := LastLogitsExists(model, n, m);
    SearchIsExact(f, model, n, m, lim, l);
    SomethingFitsIff(f, model, n, m, lim);
    assert LeastPlan(model, n) == ModelBytes(model, n) + FixedAt(model, n);
  }

  lemma RaiseNeedsTokens(f: Oracle, model: Model, n: nat, m: nat, lim: Limits, turns: nat)
    requires n >= 1 && Analyses(f, model, n, m) && RaisesAfter(f, lim, turns)
    ensures n >= EnoughTokens(model)
  {
    RealShape(f, model, n, m);
    SearchOutcome(f, lim);
    PathEndsIff(f, ShapeOf(model, n, m));
    var d: Config :| CutsToFixed(ShapeOf(model, n, m), d);
    CutNeedsTokens(model, n, m, d);
  }

  /** Dream: it can raise although a configuration fits, because it stops cutting the logits when
      they are down to the fixed part, which is then smaller than what the plan has room for. */
  lemma DreamRaisesTooEarly(f: Oracle, lim: Limits)
    requires Analyses(f, Dream, 111, 8) && lim.Budget() == 3182592
    ensures exists turns: nat :: RaisesAfter(f, lim, turns)
    ensures exists e: Config :: Feasible(f, lim, e)
  {
    assert LogitsAt(Dream, 8, 1) == 2433024 && FixedAt(Dream, 111) == 2500608;
    assert TailAt(Dream, 111, 8, 1) == 3228672 && LeastPlan(Dream, 111) == 3182592;
    SearchIsExact(f, Dream, 111, 8, lim, 1);
    OneRowOfLogits(Dream, 8);
    assert TailAt(Dream, 111, 8, 8) <= 795648 + 304128;
    SomethingFitsIff(f, Dream, 111, 8, lim);
  }

  // ---------------------------------------------------------------------------
  // Smaller requests
  // ---------------------------------------------------------------------------

  /** From this many chunks on, a tile is a single row and nothing changes any more. */
  lemma MlpSaturates(model: Model, n: nat, k: nat)
    requires n >= 1 && k >= Max(n, 2)
    ensures MlpAt(model, n, k) == MlpAt(model, n, Max(n, 2)) && BodyAt(model, n, k) == BodyAt(model, n, Max(n, 2))
  {
    SingleRow(n, k);
    SingleRow(n, Max(n, 2));
    assert BlockAt(model, n, 0, Config(1, k)) == BlockAt(model, n, 0, Config(1, Max(n, 2)));
  }

  lemma LogitsSaturate(model: Model, n: nat, m: nat, l: nat)
    requires l >= Max(m, 1)
    ensures LogitsAt(model, m, l) == LogitsAt(model, m, Max(m, 1)) && TailAt(model, n, m, l) == TailAt(model, n, m, Max(m, 1))
  {
    if m >= 1 {
      SingleRow(m, l);
      SingleRow(m, m);
    } else {
      CeilDivBounds(0, l);
    }
  }

  lemma SingleRow(a: nat, b: nat)
    requires 1 <= a <= b
    ensures CeilDiv(a, b) == 1
  {
    DivModUnique(a + b - 1, b, 1, a - 1);
  }

  lemma RealSaturates(model: Model, n: nat, m: nat)
    requires n >= 1
    ensures Saturates(ShapeOf(model, n, m), k => BodyAt(model, n, k), l => TailAt(model, n, m, l), Config(Max(m, 1), Max(n, 2)))
  {
    forall k: nat | k >= Max(n, 2) ensures MlpAt(model, n, k) == MlpAt(model, n, Max(n, 2)) && BodyAt(model, n, k) == BodyAt(model, n, Max(n, 2)) {
      MlpSaturates(model, n, k);
    }
    forall l: nat | l >= Max(m, 1)
      ensures LogitsAt(model, m, l) == LogitsAt(model, m, Max(m, 1)) && TailAt(model, n, m, l) == TailAt(model, n, m, Max(m, 1))
    {
      LogitsSaturate(model, n, m, l);
    }
  }

  /** With fewer tokens the path never ends. */
  lemma SmallRequestFits(f: Oracle, model: Model, n: nat, m: nat, lim: Limits)
    requires 1 <= n < EnoughTokens(model) && Analyses(f, model, n, m)
    ensures forall turns: nat :: !RaisesAfter(f, lim, turns)
    ensures (exists turns: nat :: StopsAfter(f, lim, turns)) <==> (exists k: nat :: FitsAt(f, lim, Config(1, 1), k))
  {
    RealShape(f, model, n, m);
    PathEndsIff(f, ShapeOf(model, n, m));
    forall d: Config ensures !CutsToFixed(ShapeOf(model, n, m), d) {
      if CutsToFixed(ShapeOf(model, n, m), d) {
        CutNeedsTokens(model, n, m, d);
      }
    }
    SearchOutcome(f, lim);
  }

  /** So for a smaller request the search never raises, and it stops if and only if one of the
      finitely many configurations with no more chunks than rows is reached and fits. */
  lemma SmallRequestStopsIff(f: Oracle, model: Model, n: nat, m: nat, lim: Limits)
    requires 1 <= n < EnoughTokens(model) && Analyses(f, model, n, m)
    ensures forall turns: nat :: !RaisesAfter(f, lim, turns)
    ensures (exists turns: nat :: StopsAfter(f, lim, turns)) <==>
              (exists e: Config :: e.logits <= Max(m, 1) && e.mlp <= Max(n, 2) && Reached(ShapeOf(model, n, m), e) && Feasible(f, lim, e))
  {
    SmallRequestFits(f, model, n, m, lim);
    RealShape(f, model, n, m);
    RealSeparable(f, model, n, m);
    RealSaturates(model, n, m);
    SomeFitIff(f, ShapeOf(model, n, m), k => BodyAt(model, n, k), l => TailAt(model, n, m, l), Config(Max(m, 1), Max(n, 2)), lim);
  }

  /** When already the fixed part of a block exceeds the budget, the search reports it exactly
      for requests with at least 9 tokens (LLaDA), 111 (Dream) or 20 (LLaDA-MoE); for smaller
      requests it never stops. */
  lemma SearchReportsIff(f: Oracle, model: Model, n: nat, m: nat, lim: Limits)
    requires n >= 1 && Analyses(f, model, n, m) && FixedAt(model, n) > lim.Budget()
    ensures (exists turns: nat :: RaisesAfter(f, lim, turns)) <==> n >= EnoughTokens(model)
    ensures n < EnoughTokens(model) ==> forall turns: nat :: !StopsAfter(f, lim, turns)
  {
    if n >= EnoughTokens(model) {
      var l := LastLogitsExists(model, n, m);
      SearchIsExact(f, model, n, m, lim, l);
    } else {
      SmallRequestFits(f, model, n, m, lim);
      forall k: nat ensures !FitsAt(f, lim, Config(1, 1), k) {
        if PathFrom(f, Config(1, 1), k).Some? {
          PathCounts(f, Config(1, 1), k);
          ReportShape(f, model, n, m, PathFrom(f, Config(1, 1), k).value);
        }
      }
    }
  }

  // ---------------------------------------------------------------------------
  // When the result is the least one
  // ---------------------------------------------------------------------------

  /** If anything fits, there is a configuration with the least number of chunks in each
      component. */
  lemma LeastConfig(f: Oracle, model: Model, n: nat, m: nat, lim: Limits, e: Config) returns (d: Config)
    requires n >= 1 && Analyses(f, model, n, m) && Feasible(f, lim, e)
    ensures LeastFeasible(f, lim, d)
  {
    RealSeparable(f, model, n, m);
    d := LeastExists(f, k => BodyAt(model, n, k), l => TailAt(model, n, m, l), lim, e);
  }

  /** The search returns the least configuration if and only if the peaks lead it there: every
      smaller MLP count has a peak above the fixed part and above the logits, and the previous
      logits count is above the fixed part and not below all MLP peaks up to this count. */
  lemma FindsLeastConfigIff(f: Oracle, model: Model, n: nat, m: nat, lim: Limits, d: Config)
    requires n >= 1 && Analyses(f, model, n, m) && LeastFeasible(f, lim, d)
    ensures (exists turns: nat :: FindsAfter(f, lim, turns, d)) <==> Reached(ShapeOf(model, n, m), d)
  {
    RealShape(f, model, n, m);
    FindsLeastIff(f, ShapeOf(model, n, m), lim, d);
  }

  lemma UncutSizes(model: Model, n: nat)
    requires n >= 1 && !model.LLaDA?
    ensures var b := BlockAt(model, n, 0, Config(1, 1));
            LargeUncut(b) && b.s == ModelBytes(model, n) && b.t1 == n * model.Scratch1() * 2 && b.t2 == n * model.Scratch2() * 2
  {
  }

  /** The uncut MLP stage in the plan. */
  lemma UncutBodyAt(model: Model, n: nat)
    requires n >= 1 && !model.LLaDA?
    ensures BodyAt(model, n, 1) >= 4 * ModelBytes(model, n) + n * model.Scratch1() * 2 + n * model.Scratch2() * 2
  {
    var offs := BodyPlan(model, n, 1);
    UncutSizes(model, n);
    UncutBody(BlockAt(model, n, 0, Config(1, 1)), offs);
  }

  /** The MLP stage in large chunks. */
  lemma LargeBodyAt(model: Model, n: nat, k: nat, t: nat)
    requires n >= 1 && k >= 2 && t == CeilDiv(n, k)
    requires t * model.Scratch1() > n * model.Hidden() && t * model.Scratch2() > n * model.Hidden() && t * model.Scratch3() > n * model.Hidden()
    ensures BodyAt(model, n, k) == 4 * ModelBytes(model, n) + t * model.Scratch1() * 2 + t * model.Scratch2() * 2 + t * model.Scratch3() * 2
  {
    var offs := BodyPlan(model, n, k);
    LargeChunksBody(BlockAt(model, n, 0, Config(1, k)), offs);
  }

  /** The result need not be the least one: for 4400 tokens and 1400 masked ones, Dream's search
      cuts the logits and then the MLP, although cutting the MLP alone would do. */
  lemma DreamResultNotLeast(f: Oracle, lim: Limits)
    requires Analyses(f, Dream, 4400, 1400) && lim.Budget() == 458_000_000
    ensures FindsAfter(f, lim, 3, Config(2, 2)) && Feasible(f, lim, Config(1, 2))
  {
    DreamUncut(f);
    DreamCutOnce(f);
    DreamCutTwice(f);
    ThreeTurns(f, lim, Config(2, 1), Config(2, 2));
  }

  lemma DreamUncut(f: Oracle)
    requires Analyses(f, Dream, 4400, 1400)
    ensures f(Config(1, 1)).buffer > 458_000_000 && Cut(f(Config(1, 1)), Config(1, 1)) == Some(Config(2, 1))
  {
    DreamSizes();
    DreamStep(f, Config(1, 1));
  }

  lemma DreamCutOnce(f: Oracle)
    requires Analyses(f, Dream, 4400, 1400)
    ensures f(Config(2, 1)).buffer > 458_000_000 && Cut(f(Config(2, 1)), Config(2, 1)) == Some(Config(2, 2))
  {
    DreamSizes();
    DreamStep(f, Config(2, 1));
  }

  lemma DreamCutTwice(f: Oracle)
    requires Analyses(f, Dream, 4400, 1400)
    ensures f(Config(2, 2)).buffer <= 458_000_000 && f(Config(1, 2)).buffer <= 458_000_000
  {
    DreamSizes();
    DreamStep(f, Config(2, 2));
    DreamStep(f, Config(1, 2));
  }

  lemma DreamStep(f: Oracle, c: Config)
    requires Analyses(f, Dream, 4400, 1400) && c.Ok()
    ensures f(c).fixed == FixedAt(Dream, 4400) && f(c).mlp == MlpAt(Dream, 4400, c.mlp) && f(c).logits == LogitsAt(Dream, 1400, c.logits)
    ensures f(c).buffer == Max(BodyAt(Dream, 4400, c.mlp), TailAt(Dream, 4400, 1400, c.logits))
  {
    ReportShape(f, Dream, 4400, 1400, c);
    RealBuffer(f, Dream, 4400, 1400, c);
  }

  lemma DreamSizes()
    ensures FixedAt(Dream, 4400) == 99_123_200 && MlpAt(Dream, 4400, 1) == 364_953_600
    ensures LogitsAt(Dream, 1400, 1) == 425_779_200 && LogitsAt(Dream, 1400, 2) == 212_889_600
    ensures TailAt(Dream, 4400, 1400, 1) == 457_318_400 && TailAt(Dream, 4400, 1400, 2) == 244_428_800
    ensures BodyAt(Dream, 4400, 1) >= 459_571_200 && BodyAt(Dream, 4400, 2) == 376_217_600
  {
    UncutBodyAt(Dream, 4400);
    LargeBodyAt(Dream, 4400, 2, 2200);
  }

  /** The search need not stop although something fits: for 6 tokens and one masked one, LLaDA-MoE's
      search cuts a single row of logits for ever, although cutting the MLP in two would do. */
  lemma MoeNeverStops(f: Oracle, lim: Limits)
    requires Analyses(f, LLaDAMoE, 6, 1) && 344_064 <= lim.Budget() < 393_216
    ensures Feasible(f, lim, Config(1, 2)) && forall turns: nat :: !StopsAfter(f, lim, turns)
  {
    MoeCut(f);
    SmallRequestFits(f, LLaDAMoE, 6, 1, lim);
    forall k: nat ensures !FitsAt(f, lim, Config(1, 1), k) {
      MoePath(f, k);
      MoeUncut(f, 1 + k);
    }
  }

  lemma MoeCut(f: Oracle)
    requires Analyses(f, LLaDAMoE, 6, 1)
    ensures f(Config(1, 2)).buffer == 344_064
  {
    MoeSizes();
    RealBuffer(f, LLaDAMoE, 6, 1, Config(1, 2));
  }

  lemma MoeUncut(f: Oracle, l: nat)
    requires Analyses(f, LLaDAMoE, 6, 1) && l >= 1
    ensures f(Config(l, 1)).buffer >= 393_216
  {
    MoeSizes();
    RealBuffer(f, LLaDAMoE, 6, 1, Config(l, 1));
  }

  lemma MoePath(f: Oracle, k: nat)
    requires Analyses(f, LLaDAMoE, 6, 1)
    ensures PathFrom(f, Config(1, 1), k) == Some(Config(1 + k, 1))
  {
    var s := ShapeOf(LLaDAMoE, 6, 1);
    RealShape(f, LLaDAMoE, 6, 1);
    forall i: nat | i >= 1 ensures s.logits(i) > s.fixed && s.logits(i) >= s.mlp(1) {
      MoePeaks(i);
    }
    LogitsForEver(f, s, 1, k);
  }

  lemma MoePeaks(l: nat)
    requires l >= 1
    ensures LogitsAt(LLaDAMoE, 1, l) == 314_368 && MlpAt(LLaDAMoE, 6, 1) == 221_184 && FixedAt(LLaDAMoE, 6) == 98_304
  {
    OneRow(l);
  }

  lemma OneRow(l: nat)
    requires l >= 1
    ensures CeilDiv(1, l) == 1
  {
    DivModUnique(l, l, 1, 0);
  }

  lemma MoeSizes()
    ensures LogitsAt(LLaDAMoE, 1, 1) == 314_368 && TailAt(LLaDAMoE, 6, 1, 1) == 338_944
    ensures BodyAt(LLaDAMoE, 6, 1) >= 393_216 && BodyAt(LLaDAMoE, 6, 2) == 344_064
  {
    UncutBodyAt(LLaDAMoE, 6);
    LargeBodyAt(LLaDAMoE, 6, 2, 3);
  }

  // ---------------------------------------------------------------------------
  // The analyser
  // ---------------------------------------------------------------------------

  /** The analyser exists: peaks and plan of every configuration. */
  ghost function Analyser(model: Model, n: nat, m: nat): Oracle {
    (c: Config) => ReportOf(BlockAt(model, n, m, c))
  }

  ghost function ReportOf(b: Block): Report {
    WellBuilt(b);
    var t, g := Timeline(b), b.Graph();
    Report(PeakOf(t, Fixed), PeakOf(t, Mlp), PeakOf(t, Logits), RP.Total(g, RP.Offsets(g, |g|), |g|))
  }

  lemma AnalyserAnalyses(model: Model, n: nat, m: nat)
    ensures Analyses(Analyser(model, n, m), model, n, m)
  {
    forall c: Config | c.Ok() ensures IsReport(Analyser(model, n, m)(c), BlockAt(model, n, m, c)) {
      ReportIsReport(BlockAt(model, n, m, c));
    }
  }

  lemma ReportIsReport(b: Block)
    ensures IsReport(ReportOf(b), b)
  {
    var t, g := Timeline(b), b.Graph();
    WellBuilt(b);
    PeakOfIsPeak(t, Fixed);
    PeakOfIsPeak(t, Mlp);
    PeakOfIsPeak(t, Logits);
    RP.OffsetsArePlan(g, |g|);
  }

  /** Its buffer is not the largest peak: for requests with enough tokens it needs more than the
      peaks where the search ends, so optimality in the sense of `SearchIsOptimal` is not to be had. */
  lemma BufferIsNotPeak(f: Oracle, model: Model, n: nat, m: nat, s: Shape)
    requires n >= EnoughTokens(model) && Analyses(f, model, n, m)
    ensures !Follows(f, s)
  {
    var d := Config(Max(m, 1), n);
    AboveAllPeaks(f, model, n, m, d);
    assert d.Ok();
  }

  lemma AboveAllPeaks(f: Oracle, model: Model, n: nat, m: nat, d: Config)
    requires n >= EnoughTokens(model) && Analyses(f, model, n, m) && d == Config(Max(m, 1), n)
    ensures f(d).buffer > Max(f(d).fixed, Max(f(d).mlp, f(d).logits))
  {
    BodyAboveFixed(f, model, n, m, d);
    ReportShape(f, model, n, m, d);
    EnoughTokensCut(model, n, m);
  }

  lemma BodyAboveFixed(f: Oracle, model: Model, n: nat, m: nat, d: Config)
    requires n >= 1 && Analyses(f, model, n, m) && d.Ok()
    ensures f(d).buffer > FixedAt(model, n)
  {
    RealBuffer(f, model, n, m, d);
    BodyIsAtLeast(model, n, d.mlp);
    LeastPlanAbove(model, n);
  }

  lemma LeastPlanAbove(model: Model, n: nat)
    requires n >= 1
    ensures LeastPlan(model, n) > FixedAt(model, n)
  {
  }
}
