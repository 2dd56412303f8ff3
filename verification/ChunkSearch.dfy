/** The online chunk planner of diffusion_tools/online_searcher.py: analyse the current
    configuration, accept it if it fits, otherwise cut the larger of the logits and MLP peaks,
    and give up when the fixed part is the bottleneck. */
module ChunkSearch {
  import opened Arith
  import opened Wrappers

  // ---------------------------------------------------------------------------
  // Component peaks
  // ---------------------------------------------------------------------------

  datatype Kind = Fixed | Mlp | Logits

  /** A step of the memory timeline: the part of the block it belongs to, and bytes in use. */
  datatype Step = Step(kind: Kind, bytes: nat)

  datatype Peaks = Peaks(fixed: nat, mlp: nat, logits: nat, total: nat) {
    function Of(k: Kind): nat { match k case Fixed => fixed case Mlp => mlp case Logits => logits }
  }

  /** `p` is the largest number of bytes among the steps of one kind, 0 if there is none. */
  ghost predicate IsPeak(t: seq<Step>, k: Kind, p: nat) {
    && (forall i :: 0 <= i < |t| && t[i].kind == k ==> t[i].bytes <= p)
    && (p == 0 || exists i :: 0 <= i < |t| && t[i].kind == k && t[i].bytes == p)
  }

  /** The peak as a function. */
  function PeakOf(t: seq<Step>, k: Kind): nat {
    if t == [] then 0
    else
      var p := PeakOf(t[..|t| - 1], k);
      if t[|t| - 1].kind == k then Max(p, t[|t| - 1].bytes) else p
  }

  lemma {:induction false} PeakOfIsPeak(t: seq<Step>, k: Kind)
    ensures IsPeak(t, k, PeakOf(t, k))
  {
    if t != [] {
      var i := |t| - 1;
      PeakOfIsPeak(t[..i], k);
      assert t[..i + 1] == t;
      PeakStep(t, i, k, PeakOf(t[..i], k), PeakOf(t, k));
    }
  }

  /** One pass over the timeline; the total peak is the largest of the three. */
  method AnalyzeComponents(t: seq<Step>) returns (p: Peaks)
    ensures forall k :: IsPeak(t, k, p.Of(k))
    ensures p.total == Max(p.fixed, Max(p.mlp, p.logits))
  {
    p := Peaks(0, 0, 0, 0);
    for i := 0 to |t|
      invariant forall k :: IsPeak(t[..i], k, p.Of(k))
      invariant p.total == Max(p.fixed, Max(p.mlp, p.logits))
    {
      ghost var before := p;
      match t[i].kind {
        case Logits => p := p.(logits := Max(p.logits, t[i].bytes));
        case Mlp => p := p.(mlp := Max(p.mlp, t[i].bytes));
        case Fixed => p := p.(fixed := Max(p.fixed, t[i].bytes));
      }
      p := p.(total := Max(p.total, t[i].bytes));
      forall k ensures IsPeak(t[..i + 1], k, p.Of(k)) {
        PeakStep(t, i, k, before.Of(k), p.Of(k));
      }
    }
    assert t[..|t|] == t;
  }

  lemma PeakStep(t: seq<Step>, i: nat, k: Kind, before: nat, p: nat)
    requires i < |t| && IsPeak(t[..i], k, before)
    requires p == if t[i].kind == k then Max(before, t[i].bytes) else before
    ensures IsPeak(t[..i + 1], k, p)
  {
    var s := t[..i + 1];
    assert forall j :: 0 <= j < i ==> s[j] == t[..i][j];
    if p != 0 {
      if t[i].kind == k && p == t[i].bytes {
        assert s[i].bytes == p;
      } else {
        var j :| 0 <= j < i && t[..i][j].kind == k && t[..i][j].bytes == p;
        assert s[j].bytes == p;
      }
    }
  }

  // ---------------------------------------------------------------------------
  // The search
  // ---------------------------------------------------------------------------

  /** Numbers of chunks for the logits and the MLP; 1 means that the stage is not cut. */
  datatype Config = Config(logits: nat, mlp: nat) {
    predicate Ok() { logits >= 1 && mlp >= 1 }

    predicate Within(top: Config) { logits <= top.logits && mlp <= top.mlp }
  }

  /** What the graph analyser reports for a configuration: the peaks of the three parts and
      the size of the planned buffer. */
  datatype Report = Report(fixed: nat, mlp: nat, logits: nat, buffer: nat)

  type Oracle = Config -> Report

  /** The limits of one search, in bytes: the pool, the safety margin taken off at the start,
      and the least slack that must remain (0 except for mixture-of-experts models). */
  datatype Limits = Limits(pool: int, margin: nat, slack: nat) {
    function Reduced(): int { pool - margin }
    function Budget(): int { Reduced() - slack }
  }

  function BaseMargin(): nat { 900 * 1024 * 1024 }
  function MoeSlack(): nat { 700 * 1024 * 1024 }

  function LimitsFor(moe: bool, pool: int): Limits {
    Limits(pool, BaseMargin(), if moe then MoeSlack() else 0)
  }

  /** The configuration fits: its buffer leaves the required slack in the reduced pool. */
  predicate Fits(f: Oracle, lim: Limits, c: Config) {
    f(c).buffer <= lim.Reduced() && lim.Reduced() - f(c).buffer >= lim.slack
  }

  /** Cutting the bottleneck: one more chunk for the logits or the MLP, or nothing if the fixed
      part is the bottleneck. */
  function Cut(r: Report, c: Config): Option<Config> {
    var bottleneck := Max(r.fixed, Max(r.mlp, r.logits));
    if bottleneck == r.logits && r.logits > r.fixed then
      Some(c.(logits := if c.logits == 1 then 2 else c.logits + 1))
    else if bottleneck == r.mlp && r.mlp > r.fixed then
      Some(c.(mlp := if c.mlp == 1 then 2 else c.mlp + 1))
    else None
  }

  datatype Verdict = Accept | Raise | Next(c: Config)

  /** One turn of the loop. */
  function Turn(f: Oracle, lim: Limits, c: Config): Verdict {
    if Fits(f, lim, c) then Accept
    else match Cut(f(c), c)
      case Some(d) => Next(d)
      case None => Raise
  }

  datatype Result = Found(config: Config, buffer: nat) | OutOfMemory(at: Config) | Searching(current: Config)

  /** The state of the search after at most `turns` turns from configuration `c`. */
  function Run(f: Oracle, lim: Limits, c: Config, turns: nat): Result
    decreases turns
  {
    if turns == 0 then Searching(c)
    else match Turn(f, lim, c)
      case Accept => Found(c, f(c).buffer)
      case Raise => OutOfMemory(c)
      case Next(d) => Run(f, lim, d, turns - 1)
  }

  /** A turn either ends the search or adds one chunk to one stage. */
  lemma TurnCuts(f: Oracle, lim: Limits, c: Config)
    requires c.Ok() && Turn(f, lim, c).Next?
    ensures var d := Turn(f, lim, c).c;
            d.Ok() && (d == Config(c.logits + 1, c.mlp) || d == Config(c.logits, c.mlp + 1))
  {
  }

  /** Soundness, for every analyser whatsoever: a configuration that the search returns has
      been analysed, and its buffer leaves the required slack in the reduced pool; and the
      search raises only where the fixed part is at least as large as both others. */
  lemma {:induction false} SearchIsSound(f: Oracle, lim: Limits, c: Config, turns: nat)
    requires c.Ok()
    ensures var r := Run(f, lim, c, turns);
            match r
            case Found(d, b) => d.Ok() && b == f(d).buffer <= lim.Budget() && b <= lim.Reduced()
                                && c.logits <= d.logits && c.mlp <= d.mlp
            case OutOfMemory(d) => d.Ok() && f(d).buffer > lim.Budget() && f(d).fixed >= f(d).mlp && f(d).fixed >= f(d).logits
            case Searching(d) => d.Ok() && d.logits + d.mlp == c.logits + c.mlp + turns
    decreases turns
  {
    if turns > 0 && Turn(f, lim, c).Next? {
      TurnCuts(f, lim, c);
      SearchIsSound(f, lim, Turn(f, lim, c).c, turns - 1);
    }
  }

  // ---------------------------------------------------------------------------
  // The cut path
  // ---------------------------------------------------------------------------

  /** The configuration after `k` cuts, if there are that many.  It does not depend on the pool. */
  function PathFrom(f: Oracle, c: Config, k: nat): Option<Config>
    decreases k
  {
    if k == 0 then Some(c)
    else match Cut(f(c), c)
      case None => None
      case Some(d) => PathFrom(f, d, k - 1)
  }

  function Path(f: Oracle, k: nat): Option<Config> { PathFrom(f, Config(1, 1), k) }

  lemma CutCuts(r: Report, c: Config)
    requires c.Ok() && Cut(r, c).Some?
    ensures var d := Cut(r, c).value;
            d.Ok() && (d == Config(c.logits + 1, c.mlp) || d == Config(c.logits, c.mlp + 1))
  {
  }

  /** The path goes on from its `k`-th configuration. */
  lemma {:induction false} PathGoesOn(f: Oracle, c: Config, k: nat)
    requires PathFrom(f, c, k).Some?
    ensures PathFrom(f, c, k + 1) == Cut(f(PathFrom(f, c, k).value), PathFrom(f, c, k).value)
    decreases k
  {
    if k > 0 {
      PathGoesOn(f, Cut(f(c), c).value, k - 1);
    }
  }

  /** Every cut adds one chunk. */
  lemma {:induction false} PathCounts(f: Oracle, c: Config, k: nat)
    requires c.Ok() && PathFrom(f, c, k).Some?
    ensures var d := PathFrom(f, c, k).value;
            d.Ok() && d.logits + d.mlp == c.logits + c.mlp + k && c.logits <= d.logits && c.mlp <= d.mlp
    decreases k
  {
    if k > 0 {
      CutCuts(f(c), c);
      PathCounts(f, Cut(f(c), c).value, k - 1);
    }
  }

  /** The path has a `j`-th configuration if it has a later one. */
  lemma {:induction false} PathBefore(f: Oracle, c: Config, j: nat, k: nat)
    requires j <= k && PathFrom(f, c, k).Some?
    ensures PathFrom(f, c, j).Some?
    decreases j
  {
    if j > 0 {
      PathBefore(f, Cut(f(c), c).value, j - 1, k - 1);
    }
  }

  predicate FitsAt(f: Oracle, lim: Limits, c: Config, k: nat) {
    PathFrom(f, c, k).Some? && Fits(f, lim, PathFrom(f, c, k).value)
  }

  /** The path ends at its `k`-th configuration: the fixed part is the bottleneck there. */
  predicate EndsAt(f: Oracle, c: Config, k: nat) {
    PathFrom(f, c, k).Some? && PathFrom(f, c, k + 1).None?
  }

  /** None of the first `k` configurations fits. */
  ghost predicate Misses(f: Oracle, lim: Limits, c: Config, k: nat) {
    forall j: nat :: j < k ==> !FitsAt(f, lim, c, j)
  }

  lemma MissesFromNext(f: Oracle, lim: Limits, c: Config, k: nat)
    requires Cut(f(c), c).Some?
    ensures Misses(f, lim, c, k + 1) <==> !Fits(f, lim, c) && Misses(f, lim, Cut(f(c), c).value, k)
  {
    var d := Cut(f(c), c).value;
    if Misses(f, lim, c, k + 1) {
      assert !FitsAt(f, lim, c, 0);
      forall j: nat | j < k ensures !FitsAt(f, lim, d, j) {
        assert !FitsAt(f, lim, c, j + 1);
      }
    }
    if !Fits(f, lim, c) && Misses(f, lim, d, k) {
      forall j: nat | j < k + 1 ensures !FitsAt(f, lim, c, j) {
        assert j > 0 ==> (FitsAt(f, lim, c, j) <==> FitsAt(f, lim, d, j - 1));
      }
    }
  }

  /** For every analyser: what the search returns is the first configuration of the path that
      fits. */
  lemma {:induction false} WhereFound(f: Oracle, lim: Limits, c: Config, turns: nat) returns (k: nat)
    requires Run(f, lim, c, turns).Found?
    ensures k < turns && FirstFit(f, lim, c, k, Run(f, lim, c, turns).config)
    ensures Run(f, lim, c, turns).buffer == f(Run(f, lim, c, turns).config).buffer
    decreases turns
  {
    if Fits(f, lim, c) {
      k := 0;
    } else {
      k := WhereFound(f, lim, Cut(f(c), c).value, turns - 1);
      MissesFromNext(f, lim, c, k);
      k := k + 1;
    }
  }

  /** It raises where the path ends without a configuration that fits. */
  lemma {:induction false} WhereRaised(f: Oracle, lim: Limits, c: Config, turns: nat) returns (k: nat)
    requires Run(f, lim, c, turns).OutOfMemory?
    ensures k < turns && DeadEnd(f, lim, c, k, Run(f, lim, c, turns).at)
    decreases turns
  {
    if Cut(f(c), c).None? {
      k := 0;
      assert PathFrom(f, c, 1) == None;
    } else {
      k := WhereRaised(f, lim, Cut(f(c), c).value, turns - 1);
      MissesFromNext(f, lim, c, k + 1);
      k := k + 1;
    }
  }

  /** It goes on while the path does and nothing has fitted. */
  lemma {:induction false} WhileSearching(f: Oracle, lim: Limits, c: Config, turns: nat)
    requires Run(f, lim, c, turns).Searching?
    ensures PathFrom(f, c, turns) == Some(Run(f, lim, c, turns).current) && Misses(f, lim, c, turns)
    decreases turns
  {
    if turns > 0 {
      WhileSearching(f, lim, Cut(f(c), c).value, turns - 1);
      MissesFromNext(f, lim, c, turns - 1);
    }
  }

  /** `d` is the `k`-th configuration, fits, and is the first that does. */
  ghost predicate FirstFit(f: Oracle, lim: Limits, c: Config, k: nat, d: Config) {
    PathFrom(f, c, k) == Some(d) && Fits(f, lim, d) && Misses(f, lim, c, k)
  }

  /** The path ends at `d`, its `k`-th configuration, and none fits. */
  ghost predicate DeadEnd(f: Oracle, lim: Limits, c: Config, k: nat, d: Config) {
    PathFrom(f, c, k) == Some(d) && EndsAt(f, c, k) && Misses(f, lim, c, k + 1)
  }

  lemma {:induction false} RunFinds(f: Oracle, lim: Limits, c: Config, k: nat, d: Config)
    requires FirstFit(f, lim, c, k, d)
    ensures Run(f, lim, c, k + 1) == Found(d, f(d).buffer)
    decreases k
  {
    if k > 0 {
      assert !FitsAt(f, lim, c, 0);
      MissesFromNext(f, lim, c, k - 1);
      RunFinds(f, lim, Cut(f(c), c).value, k - 1, d);
    }
  }

  lemma {:induction false} RunRaises(f: Oracle, lim: Limits, c: Config, k: nat, d: Config)
    requires DeadEnd(f, lim, c, k, d)
    ensures Run(f, lim, c, k + 1) == OutOfMemory(d)
    decreases k
  {
    assert !FitsAt(f, lim, c, 0);
    PathGoesOn(f, c, k);
    if k > 0 {
      MissesFromNext(f, lim, c, k);
      RunRaises(f, lim, Cut(f(c), c).value, k - 1, d);
    }
  }

  /** If some configuration of the path fits, there is a first one. */
  lemma {:induction false} FirstOfPath(f: Oracle, lim: Limits, c: Config, k: nat) returns (j: nat)
    requires FitsAt(f, lim, c, k)
    ensures j <= k && PathFrom(f, c, j).Some? && FirstFit(f, lim, c, j, PathFrom(f, c, j).value)
  {
    j := 0;
    while !FitsAt(f, lim, c, j)
      invariant j <= k && Misses(f, lim, c, j)
      decreases k - j
    {
      j := j + 1;
    }
  }

  predicate StopsAfter(f: Oracle, lim: Limits, turns: nat) { !Run(f, lim, Config(1, 1), turns).Searching? }
  predicate RaisesAfter(f: Oracle, lim: Limits, turns: nat) { Run(f, lim, Config(1, 1), turns).OutOfMemory? }
  predicate FindsAfter(f: Oracle, lim: Limits, turns: nat, d: Config) { Run(f, lim, Config(1, 1), turns) == Found(d, f(d).buffer) }

  /** For every analyser: the search returns something if and only if some configuration of the
      path fits, and raises if and only if the path ends and none does. */
  lemma SearchOutcome(f: Oracle, lim: Limits)
    ensures (exists turns: nat, d: Config :: FindsAfter(f, lim, turns, d)) <==> (exists k: nat :: FitsAt(f, lim, Config(1, 1), k))
    ensures (exists turns: nat :: RaisesAfter(f, lim, turns)) <==>
              (exists k: nat :: EndsAt(f, Config(1, 1), k)) && (forall k: nat :: !FitsAt(f, lim, Config(1, 1), k))
    ensures (exists turns: nat :: StopsAfter(f, lim, turns)) <==>
              (exists k: nat :: EndsAt(f, Config(1, 1), k)) || (exists k: nat :: FitsAt(f, lim, Config(1, 1), k))
  {
    var c := Config(1, 1);
    if k: nat :| FitsAt(f, lim, c, k) {
      var j := FirstOfPath(f, lim, c, k);
      RunFinds(f, lim, c, j, PathFrom(f, c, j).value);
      assert FindsAfter(f, lim, j + 1, PathFrom(f, c, j).value);
      assert StopsAfter(f, lim, j + 1);
    }
    forall turns: nat, d: Config | FindsAfter(f, lim, turns, d) ensures exists k: nat :: FitsAt(f, lim, c, k) {
      var k := WhereFound(f, lim, c, turns);
      assert FitsAt(f, lim, c, k);
    }
    EndedSearch(f, lim);
    assert forall turns: nat :: RaisesAfter(f, lim, turns) ==> StopsAfter(f, lim, turns);
  }

  lemma EndedSearch(f: Oracle, lim: Limits)
    ensures (exists turns: nat :: RaisesAfter(f, lim, turns)) <==>
              (exists k: nat :: EndsAt(f, Config(1, 1), k)) && (forall k: nat :: !FitsAt(f, lim, Config(1, 1), k))
    ensures (exists turns: nat :: StopsAfter(f, lim, turns)) ==>
              (exists k: nat :: EndsAt(f, Config(1, 1), k)) || (exists k: nat :: FitsAt(f, lim, Config(1, 1), k))
  {
    var c := Config(1, 1);
    if k: nat :| EndsAt(f, c, k) && forall k: nat :: !FitsAt(f, lim, c, k) {
      RunRaises(f, lim, c, k, PathFrom(f, c, k).value);
      assert RaisesAfter(f, lim, k + 1);
    }
    forall turns: nat | StopsAfter(f, lim, turns)
      ensures (exists k: nat :: EndsAt(f, c, k)) || (exists k: nat :: FitsAt(f, lim, c, k))
      ensures RaisesAfter(f, lim, turns) ==> (exists k: nat :: EndsAt(f, c, k)) && forall k: nat :: !FitsAt(f, lim, c, k)
    {
      StoppedWhere(f, lim, turns);
    }
  }

  lemma StoppedWhere(f: Oracle, lim: Limits, turns: nat)
    requires StopsAfter(f, lim, turns)
    ensures RaisesAfter(f, lim, turns) ==>
              (exists k: nat :: EndsAt(f, Config(1, 1), k)) && forall k: nat :: !FitsAt(f, lim, Config(1, 1), k)
    ensures !RaisesAfter(f, lim, turns) ==> exists k: nat :: FitsAt(f, lim, Config(1, 1), k)
  {
    var c := Config(1, 1);
    var r := Run(f, lim, c, turns);
    if r.OutOfMemory? {
      var e := WhereRaised(f, lim, c, turns);
      forall k: nat ensures !FitsAt(f, lim, c, k) {
        if k > e && PathFrom(f, c, k).Some? {
          PathBefore(f, c, e + 1, k);
        }
      }
    } else {
      var k := WhereFound(f, lim, c, turns);
      assert FitsAt(f, lim, c, k);
    }
  }

  /** One more turn of a search that is still going on. */
  lemma {:induction false} OneMoreTurn(f: Oracle, lim: Limits, c: Config, turns: nat, now: Config)
    requires Run(f, lim, c, turns) == Searching(now)
    ensures Run(f, lim, c, turns + 1) == Run(f, lim, now, 1)
    decreases turns
  {
    if turns > 0 {
      OneMoreTurn(f, lim, Turn(f, lim, c).c, turns - 1, now);
    }
  }

  /** A search that has stopped stays as it is. */
  lemma {:induction false} StaysStopped(f: Oracle, lim: Limits, c: Config, j: nat, k: nat)
    requires j <= k && !Run(f, lim, c, j).Searching?
    ensures Run(f, lim, c, k) == Run(f, lim, c, j)
    decreases j
  {
    if j > 0 && Turn(f, lim, c).Next? {
      StaysStopped(f, lim, Turn(f, lim, c).c, j - 1, k - 1);
    }
  }

  /** A search of three turns. */
  lemma ThreeTurns(f: Oracle, lim: Limits, c: Config, d: Config)
    requires !Fits(f, lim, Config(1, 1)) && Cut(f(Config(1, 1)), Config(1, 1)) == Some(c)
    requires !Fits(f, lim, c) && Cut(f(c), c) == Some(d) && Fits(f, lim, d)
    ensures FindsAfter(f, lim, 3, d)
  {
    assert Run(f, lim, d, 1) == Found(d, f(d).buffer);
    assert Run(f, lim, c, 2) == Run(f, lim, d, 1);
  }

  /** The loop itself, for any analyser and pool under which it stops at all. */
  method Search(f: Oracle, lim: Limits, ghost bound: nat) returns (r: Result)
    requires StopsAfter(f, lim, bound)
    ensures r == Run(f, lim, Config(1, 1), bound)
  {
    var c := Config(1, 1);
    ghost var turns := 0;
    while true
      invariant turns <= bound && Run(f, lim, Config(1, 1), turns) == Searching(c)
      decreases bound - turns
    {
      OneMoreTurn(f, lim, Config(1, 1), turns, c);
      assert turns < bound;
      turns := turns + 1;
      match Turn(f, lim, c)
      case Accept =>
        StaysStopped(f, lim, Config(1, 1), turns, bound);
        return Found(c, f(c).buffer);
      case Raise =>
        StaysStopped(f, lim, Config(1, 1), turns, bound);
        return OutOfMemory(c);
      case Next(n) =>
        c := n;
    }
  }

  // ---------------------------------------------------------------------------
  // Peaks that depend on their own chunks
  // ---------------------------------------------------------------------------

  /** The peaks of an analyser: the fixed peak is constant, each other peak depends only on its
      own number of chunks.  The MLP peak may grow with the number of chunks (and does, from one
      chunk to two). */
  datatype Shape = Shape(fixed: nat, mlp: nat -> nat, logits: nat -> nat) {
    /** More chunks never make the logits larger. */
    ghost predicate Falling() { forall a, b :: 1 <= a <= b ==> logits(b) <= logits(a) }
  }

  /** The peaks of `f` have shape `s`; nothing is said about the buffer. */
  ghost predicate HasShape(f: Oracle, s: Shape) {
    forall c: Config :: c.Ok() ==> f(c).fixed == s.fixed && f(c).mlp == s.mlp(c.mlp) && f(c).logits == s.logits(c.logits)
  }

  /** Both stages, cut like this, are no larger than the fixed part. */
  predicate CutsToFixed(s: Shape, d: Config) {
    d.Ok() && s.logits(d.logits) <= s.fixed && s.mlp(d.mlp) <= s.fixed
  }

  /** Every smaller number of chunks leaves its stage above the fixed part. */
  ghost predicate AboveFixed(s: Shape, c: Config) {
    && (forall l :: 1 <= l < c.logits ==> s.logits(l) > s.fixed)
    && (forall m :: 1 <= m < c.mlp ==> s.mlp(m) > s.fixed)
  }

  lemma {:induction false} PathIsAbove(f: Oracle, s: Shape, c: Config, k: nat)
    requires HasShape(f, s) && c.Ok() && AboveFixed(s, c) && PathFrom(f, c, k).Some?
    ensures AboveFixed(s, PathFrom(f, c, k).value)
    decreases k
  {
    if k > 0 {
      CutCuts(f(c), c);
      PathIsAbove(f, s, Cut(f(c), c).value, k - 1);
    }
  }

  /** The path ends if and only if both stages can be cut down to the fixed part. */
  lemma PathEndsIff(f: Oracle, s: Shape)
    requires HasShape(f, s)
    ensures (exists k: nat :: EndsAt(f, Config(1, 1), k)) <==> (exists d: Config :: CutsToFixed(s, d))
  {
    var c := Config(1, 1);
    if k: nat :| EndsAt(f, c, k) {
      PathGoesOn(f, c, k);
      PathCounts(f, c, k);
      assert CutsToFixed(s, PathFrom(f, c, k).value);
    }
    if d: Config :| CutsToFixed(s, d) {
      var k := d.logits + d.mlp;
      if PathFrom(f, c, k).Some? {
        PathIsAbove(f, s, c, k);
        PathCounts(f, c, k);
      }
      assert PathFrom(f, c, k).None?;
      var e := LastOfPath(f, c, k);
    }
  }

  /** The path ends before its configuration number `turns`. */
  ghost predicate ShorterThan(f: Oracle, turns: nat) { forall k: nat :: Path(f, k).Some? ==> k < turns }

  /** Where the path has ended, the search has stopped. */
  lemma StopsWithPath(f: Oracle, lim: Limits, turns: nat)
    requires ShorterThan(f, turns)
    ensures StopsAfter(f, lim, turns)
  {
    assert Path(f, turns).None?;
    if !StopsAfter(f, lim, turns) {
      WhileSearching(f, lim, Config(1, 1), turns);
    }
  }

  lemma {:induction false} LastOfPath(f: Oracle, c: Config, k: nat) returns (e: nat)
    requires PathFrom(f, c, k).None?
    ensures EndsAt(f, c, e)
  {
    e := 0;
    while PathFrom(f, c, e + 1).Some?
      invariant e < k && PathFrom(f, c, e).Some?
      decreases k - e
    {
      if e + 1 >= k {
        PathBefore(f, c, k, e + 1);
      }
      e := e + 1;
    }
  }

  /** If no number of chunks brings the logits below the uncut MLP or down to the fixed part, only
      the logits are cut, for ever. */
  lemma {:induction false} LogitsForEver(f: Oracle, s: Shape, l: nat, k: nat)
    requires HasShape(f, s) && l >= 1 && forall i :: i >= 1 ==> s.logits(i) > s.fixed && s.logits(i) >= s.mlp(1)
    ensures PathFrom(f, Config(l, 1), k) == Some(Config(l + k, 1))
    decreases k
  {
    if k > 0 {
      assert Cut(f(Config(l, 1)), Config(l, 1)) == Some(Config(l + 1, 1));
      LogitsForEver(f, s, l + 1, k - 1);
    }
  }

  // The configurations of the path

  /** Smaller MLP counts have a peak above the fixed part and above the logits; and either the
      logits are uncut, or their previous count was above the fixed part and not below some MLP
      peak reached by then. */
  ghost predicate Reached(s: Shape, d: Config) {
    && d.Ok()
    && (forall j :: 1 <= j < d.mlp ==> s.mlp(j) > s.logits(d.logits) && s.mlp(j) > s.fixed)
    && (d.logits > 1 ==> s.logits(d.logits - 1) > s.fixed && NotBelowSome(s, d.logits - 1, d.mlp))
  }

  ghost predicate NotBelowSome(s: Shape, l: nat, m: nat) {
    exists j: nat :: 1 <= j <= m && s.mlp(j) <= s.logits(l)
  }

  lemma ReachedStep(f: Oracle, s: Shape, c: Config)
    requires HasShape(f, s) && s.Falling() && Reached(s, c) && Cut(f(c), c).Some?
    ensures Reached(s, Cut(f(c), c).value)
  {
    var d := Cut(f(c), c).value;
    CutCuts(f(c), c);
    if d.logits > c.logits {
      assert s.mlp(c.mlp) <= s.logits(c.logits);
      assert NotBelowSome(s, c.logits, d.mlp);
    } else if d.logits > 1 {
      var j: nat :| 1 <= j <= c.mlp && s.mlp(j) <= s.logits(c.logits - 1);
      assert NotBelowSome(s, d.logits - 1, d.mlp);
    }
  }

  lemma {:induction false} PathIsReached(f: Oracle, s: Shape, c: Config, k: nat)
    requires HasShape(f, s) && s.Falling() && Reached(s, c) && PathFrom(f, c, k).Some?
    ensures Reached(s, PathFrom(f, c, k).value)
    decreases k
  {
    if k > 0 {
      ReachedStep(f, s, c);
      PathIsReached(f, s, Cut(f(c), c).value, k - 1);
    }
  }

  /** From a reached configuration below `d`, the next cut stays at or below `d`. */
  lemma StaysBelow(f: Oracle, s: Shape, c: Config, d: Config)
    requires HasShape(f, s) && s.Falling() && Reached(s, c) && Reached(s, d)
    requires c.logits <= d.logits && c.mlp <= d.mlp && c != d
    ensures Cut(f(c), c).Some?
    ensures Cut(f(c), c).value.logits <= d.logits && Cut(f(c), c).value.mlp <= d.mlp
  {
    if c.logits < d.logits {
      assert s.logits(c.logits) >= s.logits(d.logits - 1);
      var j: nat :| 1 <= j <= d.mlp && s.mlp(j) <= s.logits(d.logits - 1);
      assert j < c.mlp ==> s.mlp(j) > s.logits(c.logits);
    }
  }

  lemma {:induction false} PathTowards(f: Oracle, s: Shape, c: Config, d: Config, k: nat)
    requires HasShape(f, s) && s.Falling() && Reached(s, c) && Reached(s, d)
    requires c.logits <= d.logits && c.mlp <= d.mlp && k == d.logits - c.logits + (d.mlp - c.mlp)
    ensures PathFrom(f, c, k) == Some(d)
    decreases k
  {
    if k > 0 {
      StaysBelow(f, s, c, d);
      ReachedStep(f, s, c);
      CutCuts(f(c), c);
      PathTowards(f, s, Cut(f(c), c).value, d, k - 1);
    }
  }

  /** The cut path in closed form: `d` lies on it if and only if it is reached, and then after
      exactly as many cuts as it has extra chunks. */
  lemma OnPathIff(f: Oracle, s: Shape, d: Config)
    requires HasShape(f, s) && s.Falling() && d.Ok()
    ensures (exists k: nat :: Path(f, k) == Some(d)) <==> Reached(s, d)
    ensures Reached(s, d) ==> Path(f, d.logits + d.mlp - 2) == Some(d)
  {
    var c := Config(1, 1);
    if k: nat :| Path(f, k) == Some(d) {
      PathIsReached(f, s, c, k);
    }
    if Reached(s, d) {
      PathTowards(f, s, c, d, d.logits + d.mlp - 2);
      assert Path(f, d.logits + d.mlp - 2) == Some(d);
    }
  }

  // ---------------------------------------------------------------------------
  // Least configurations
  // ---------------------------------------------------------------------------

  predicate Feasible(f: Oracle, lim: Limits, c: Config) {
    c.Ok() && f(c).buffer <= lim.Budget()
  }

  /** `d` fits, and has in each component the least number of chunks of all that do. */
  ghost predicate LeastFeasible(f: Oracle, lim: Limits, d: Config) {
    Feasible(f, lim, d) && forall e :: Feasible(f, lim, e) ==> d.logits <= e.logits && d.mlp <= e.mlp
  }

  /** The search finds the least feasible configuration if and only if it lies on the cut path. */
  lemma FindsLeastIff(f: Oracle, s: Shape, lim: Limits, d: Config)
    requires HasShape(f, s) && s.Falling() && LeastFeasible(f, lim, d)
    ensures (exists turns: nat :: FindsAfter(f, lim, turns, d)) <==> Reached(s, d)
  {
    var c := Config(1, 1);
    OnPathIff(f, s, d);
    if turns: nat :| FindsAfter(f, lim, turns, d) {
      var k := WhereFound(f, lim, c, turns);
      assert Path(f, k) == Some(d);
    }
    if Reached(s, d) {
      var k := d.logits + d.mlp - 2;
      forall j: nat | j < k ensures !FitsAt(f, lim, c, j) {
        if PathFrom(f, c, j).Some? {
          PathCounts(f, c, j);
        }
      }
      RunFinds(f, lim, c, k, d);
      assert FindsAfter(f, lim, k + 1, d);
    }
  }

  /** The buffer is the larger of a part that depends on the MLP chunks and one that depends on
      the logits chunks. */
  ghost predicate Separable(f: Oracle, body: nat -> nat, tail: nat -> nat) {
    forall c: Config :: c.Ok() ==> f(c).buffer == Max(body(c.mlp), tail(c.logits))
  }

  lemma LeastBelow(g: nat -> nat, bound: int, k: nat) returns (j: nat)
    requires k >= 1 && g(k) <= bound
    ensures 1 <= j <= k && g(j) <= bound && forall i :: 1 <= i < j ==> g(i) > bound
  {
    j := 1;
    while g(j) > bound
      invariant 1 <= j <= k && forall i :: 1 <= i < j ==> g(i) > bound
      decreases k - j
    {
      j := j + 1;
    }
  }

  /** If anything fits, there is a least feasible configuration. */
  lemma LeastExists(f: Oracle, body: nat -> nat, tail: nat -> nat, lim: Limits, e: Config) returns (d: Config)
    requires Separable(f, body, tail) && Feasible(f, lim, e)
    ensures LeastFeasible(f, lim, d)
  {
    var m := LeastBelow(body, lim.Budget(), e.mlp);
    var l := LeastBelow(tail, lim.Budget(), e.logits);
    d := Config(l, m);
  }

  // ---------------------------------------------------------------------------
  // Peaks that stop changing
  // ---------------------------------------------------------------------------

  /** From the chunks of `top` on, more of them change neither a peak nor a part of the buffer. */
  ghost predicate Saturates(s: Shape, body: nat -> nat, tail: nat -> nat, top: Config) {
    && top.Ok()
    && (forall k :: k >= top.mlp ==> s.mlp(k) == s.mlp(top.mlp))
    && (forall k :: k >= top.mlp ==> body(k) == body(top.mlp))
    && (forall l :: l >= top.logits ==> s.logits(l) == s.logits(top.logits))
    && (forall l :: l >= top.logits ==> tail(l) == tail(top.logits))
  }

  /** Chunks that do not change their stage can be left out. */
  lemma FewerMlpReached(s: Shape, d: Config, k: nat)
    requires Reached(s, d) && 1 <= k <= d.mlp && forall j :: k <= j <= d.mlp ==> s.mlp(j) == s.mlp(k)
    ensures Reached(s, d.(mlp := k))
  {
    if d.logits > 1 {
      var j: nat :| 1 <= j <= d.mlp && s.mlp(j) <= s.logits(d.logits - 1);
      assert s.mlp(Min(j, k)) <= s.logits(d.logits - 1);
      assert NotBelowSome(s, d.logits - 1, k);
    }
  }

  lemma FewerLogitsReached(s: Shape, d: Config, l: nat)
    requires s.Falling() && Reached(s, d) && 1 <= l <= d.logits && s.logits(d.logits) == s.logits(l)
    ensures Reached(s, d.(logits := l))
  {
    if l > 1 {
      var j: nat :| 1 <= j <= d.mlp && s.mlp(j) <= s.logits(d.logits - 1);
      assert s.logits(d.logits - 1) <= s.logits(l - 1);
      assert NotBelowSome(s, l - 1, d.mlp);
    }
  }

  /** So if a configuration is reached and fits, then one within `top` is and does. */
  lemma ReachedWithin(f: Oracle, s: Shape, body: nat -> nat, tail: nat -> nat, top: Config, lim: Limits, d: Config) returns (e: Config)
    requires s.Falling() && Separable(f, body, tail) && Saturates(s, body, tail, top) && Reached(s, d) && Feasible(f, lim, d)
    ensures e.Within(top) && Reached(s, e) && Feasible(f, lim, e)
  {
    var c := d.(mlp := Min(d.mlp, top.mlp));
    FewerMlpReached(s, d, c.mlp);
    e := c.(logits := Min(d.logits, top.logits));
    FewerLogitsReached(s, c, e.logits);
    assert body(e.mlp) == body(d.mlp) && tail(e.logits) == tail(d.logits);
  }

  /** Whether the endless path has a configuration that fits is decided within `top`. */
  lemma SomeFitIff(f: Oracle, s: Shape, body: nat -> nat, tail: nat -> nat, top: Config, lim: Limits)
    requires HasShape(f, s) && s.Falling() && Separable(f, body, tail) && Saturates(s, body, tail, top)
    ensures (exists k: nat :: FitsAt(f, lim, Config(1, 1), k)) <==>
              (exists e: Config :: e.Within(top) && Reached(s, e) && Feasible(f, lim, e))
  {
    if k: nat :| FitsAt(f, lim, Config(1, 1), k) {
      var d := PathFrom(f, Config(1, 1), k).value;
      PathCounts(f, Config(1, 1), k);
      PathIsReached(f, s, Config(1, 1), k);
      var e := ReachedWithin(f, s, body, tail, top, lim, d);
      assert e.Within(top) && Reached(s, e) && Feasible(f, lim, e);
    }
    if e: Config :| e.Within(top) && Reached(s, e) && Feasible(f, lim, e) {
      OnPathIff(f, s, e);
      assert FitsAt(f, lim, Config(1, 1), e.logits + e.mlp - 2);
    }
  }

  // ---------------------------------------------------------------------------
  // An analyser whose buffer is the largest peak
  // ---------------------------------------------------------------------------

  /** The peaks have shape `s`, and the buffer is no larger than the largest of them. */
  ghost predicate Follows(f: Oracle, s: Shape) {
    forall c: Config :: c.Ok() ==>
      f(c) == Report(s.fixed, s.mlp(c.mlp), s.logits(c.logits), Max(s.fixed, Max(s.mlp(c.mlp), s.logits(c.logits))))
  }

  /** What each stage has to get below for the search to stop. */
  function Target(s: Shape, lim: Limits): int { Max(s.fixed, lim.Budget()) }

  /** The configuration is large enough for the search to stop there. */
  predicate Enough(s: Shape, lim: Limits, c: Config) {
    c.Ok() && s.logits(c.logits) <= Target(s, lim) && s.mlp(c.mlp) <= Target(s, lim)
  }

  /** No smaller number of chunks brings a stage below the target. */
  ghost predicate Needed(s: Shape, lim: Limits, c: Config) {
    && (forall l :: 1 <= l < c.logits ==> s.logits(l) > Target(s, lim))
    && (forall m :: 1 <= m < c.mlp ==> s.mlp(m) > Target(s, lim))
  }

  /** One turn, under the hypotheses: it stops exactly when both stages are below the target,
      accepts exactly when the fixed part fits, and otherwise adds a chunk that is needed. */
  lemma TurnUnderShape(f: Oracle, s: Shape, lim: Limits, c: Config)
    requires Follows(f, s) && c.Ok() && Needed(s, lim, c)
    ensures Turn(f, lim, c).Next? <==> !Enough(s, lim, c)
    ensures Turn(f, lim, c).Accept? <==> Feasible(f, lim, c)
    ensures Turn(f, lim, c).Raise? ==> s.fixed > lim.Budget()
    ensures Turn(f, lim, c).Next? ==> Needed(s, lim, Turn(f, lim, c).c)
  {
  }

  /** A needed configuration is at or below every one that is enough, in each component. */
  lemma NeededIsLeast(f: Oracle, s: Shape, lim: Limits, c: Config, d: Config)
    requires c.Ok() && Needed(s, lim, c) && Enough(s, lim, d)
    ensures c.logits <= d.logits && c.mlp <= d.mlp
  {
  }

  lemma FeasibleIsEnough(f: Oracle, s: Shape, lim: Limits, d: Config)
    requires Follows(f, s) && Feasible(f, lim, d)
    ensures Enough(s, lim, d) && s.fixed <= lim.Budget()
  {
  }

  /** The search from a needed configuration stops after as many turns as there are chunks
      between it and any configuration that is enough. */
  lemma {:induction false} SearchStops(f: Oracle, s: Shape, lim: Limits, c: Config, d: Config, turns: nat)
    requires Follows(f, s) && c.Ok() && Needed(s, lim, c) && Enough(s, lim, d)
    requires turns > d.logits - c.logits + (d.mlp - c.mlp)
    ensures !Run(f, lim, c, turns).Searching?
    decreases turns
  {
    NeededIsLeast(f, s, lim, c, d);
    TurnUnderShape(f, s, lim, c);
    if Turn(f, lim, c).Next? {
      TurnCuts(f, lim, c);
      NeededIsLeast(f, s, lim, Turn(f, lim, c).c, d);
      SearchStops(f, s, lim, Turn(f, lim, c).c, d, turns - 1);
    }
  }

  /** Where the search stops, the configuration is enough and needed. */
  lemma {:induction false} WhereItStops(f: Oracle, s: Shape, lim: Limits, c: Config, turns: nat)
    requires Follows(f, s) && c.Ok() && Needed(s, lim, c)
    ensures match Run(f, lim, c, turns)
            case Found(d, _) => d.Ok() && Feasible(f, lim, d) && Needed(s, lim, d)
            case OutOfMemory(d) => Enough(s, lim, d) && s.fixed > lim.Budget()
            case Searching(_) => true
    decreases turns
  {
    if turns > 0 {
      TurnUnderShape(f, s, lim, c);
      if Turn(f, lim, c).Next? {
        TurnCuts(f, lim, c);
        WhereItStops(f, s, lim, Turn(f, lim, c).c, turns - 1);
      }
    }
  }

  /** Main theorem.  The search from the uncut configuration stops if and only if some number
      of chunks brings each stage below the fixed part or the budget. */
  lemma StopsIff(f: Oracle, s: Shape, lim: Limits)
    requires Follows(f, s)
    ensures (exists turns: nat :: StopsAfter(f, lim, turns)) <==> (exists d :: Enough(s, lim, d))
  {
    if d :| Enough(s, lim, d) {
      SearchStops(f, s, lim, Config(1, 1), d, d.logits + d.mlp);
      assert StopsAfter(f, lim, d.logits + d.mlp);
    }
    if turns: nat :| StopsAfter(f, lim, turns) {
      WhereItStops(f, s, lim, Config(1, 1), turns);
      var r := Run(f, lim, Config(1, 1), turns);
      if r.Found? {
        FeasibleIsEnough(f, s, lim, r.config);
      }
    }
  }

  /** What it returns is feasible and, in each component, the least number of chunks of any
      feasible configuration; it raises only when no configuration is feasible. */
  lemma SearchIsOptimal(f: Oracle, s: Shape, lim: Limits, turns: nat)
    requires Follows(f, s)
    ensures match Run(f, lim, Config(1, 1), turns)
            case Found(d, _) => Feasible(f, lim, d) &&
                                forall e :: Feasible(f, lim, e) ==> d.logits <= e.logits && d.mlp <= e.mlp
            case OutOfMemory(_) => forall e :: !Feasible(f, lim, e)
            case Searching(_) => true
  {
    WhereItStops(f, s, lim, Config(1, 1), turns);
    var r := Run(f, lim, Config(1, 1), turns);
    forall e | Feasible(f, lim, e)
      ensures s.fixed <= lim.Budget()
      ensures r.Found? ==> r.config.logits <= e.logits && r.config.mlp <= e.mlp
    {
      FeasibleIsEnough(f, s, lim, e);
      if r.Found? {
        NeededIsLeast(f, s, lim, r.config, e);
      }
    }
  }

}
