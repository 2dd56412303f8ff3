/** Parallel sampling (vllm/sequence.py, vllm/outputs.py, vllm/sampling_params.py): one request
    is split into n sub-requests, whose reports are put together again.  Sub-request `i` is
    named by its index; the names are the request id and that index. */
module ParallelSample {
  import opened Wrappers

  // ---------------------------------------------------------------------------
  // Sampling parameters
  // ---------------------------------------------------------------------------

  datatype Params = Params(n: nat, bestOf: Option<nat>, realN: Option<nat>)
  datatype Checked = Accepted(p: Params) | ValueError

  /** With best_of, n sequences are wanted but best_of are sampled. */
  function PostInit(p: Params): Checked {
    if p.bestOf.None? || p.bestOf.value == 0 then Accepted(p)
    else if p.bestOf.value < p.n then ValueError
    else if p.realN.None? || p.realN.value == 0 then Accepted(Params(p.bestOf.value, p.bestOf, Some(p.n)))
    else Accepted(p)
  }

  /** The parameters are refused exactly if fewer sequences are sampled than wanted. */
  lemma RefusedIff(p: Params)
    requires p.n >= 1
    ensures PostInit(p) == ValueError <==> p.bestOf.Some? && 1 <= p.bestOf.value < p.n
    ensures PostInit(p).Accepted? && p.realN.None? ==>
              PostInit(p).p.n == if p.bestOf.Some? && p.bestOf.value > 0 then p.bestOf.value else p.n
  {
  }

  /** Initialising twice changes nothing more, and never asks for more sequences than sampled. */
  lemma PostInitTwice(p: Params)
    requires p.realN.None? && p.n >= 1 && PostInit(p).Accepted?
    ensures PostInit(PostInit(p).p) == PostInit(p)
    ensures var q := PostInit(p).p; q.realN.Some? ==> 1 <= q.realN.value <= q.n && q.realN.value == p.n
  {
  }

  // ---------------------------------------------------------------------------
  // The best sequences
  // ---------------------------------------------------------------------------

  datatype Sample = Sample(id: nat, logprob: real)

  /** Order of a stable descending sort of samples listed by id. */
  predicate Before(a: Sample, b: Sample) {
    a.logprob > b.logprob || (a.logprob == b.logprob && a.id < b.id)
  }

  ghost predicate Sorted(s: seq<Sample>) {
    forall i, j :: 0 <= i < j < |s| ==> Before(s[i], s[j])
  }

  function Insert(x: Sample, s: seq<Sample>): seq<Sample> {
    if s == [] then [x]
    else if s[0].logprob >= x.logprob then [s[0]] + Insert(x, s[1..])
    else [x] + s
  }

  function SortDescending(s: seq<Sample>): seq<Sample> {
    if s == [] then [] else Insert(s[|s| - 1], SortDescending(s[..|s| - 1]))
  }

  ghost predicate ById(s: seq<Sample>) {
    forall i, j :: 0 <= i < j < |s| ==> s[i].id < s[j].id
  }

  lemma {:induction false} InsertHolds(x: Sample, s: seq<Sample>)
    ensures multiset(Insert(x, s)) == multiset(s) + multiset{x}
  {
    if s != [] && s[0].logprob >= x.logprob {
      InsertHolds(x, s[1..]);
      assert s == [s[0]] + s[1..];
    }
  }

  lemma {:induction false} InsertSorts(x: Sample, s: seq<Sample>)
    requires Sorted(s) && forall y :: y in s ==> y.id < x.id
    ensures Sorted(Insert(x, s))
  {
    if s != [] && s[0].logprob >= x.logprob {
      InsertSorts(x, s[1..]);
      InsertHolds(x, s[1..]);
      var t := Insert(x, s[1..]);
      forall k | 0 <= k < |t| ensures Before(s[0], t[k]) {
        assert t[k] in multiset(t);
      }
    } else if s != [] {
      forall k | 0 <= k < |s| ensures Before(x, s[k]) {
        assert k == 0 || Before(s[0], s[k]);
      }
    }
  }

  lemma {:induction false} SortSorts(s: seq<Sample>)
    requires ById(s)
    ensures Sorted(SortDescending(s)) && multiset(SortDescending(s)) == multiset(s)
  {
    if s != [] {
      var p, x := s[..|s| - 1], s[|s| - 1];
      SortSorts(p);
      assert s == p + [x];
      forall y | y in SortDescending(p) ensures y.id < x.id {
        assert y in multiset(p);
      }
      InsertSorts(x, SortDescending(p));
      InsertHolds(x, SortDescending(p));
    }
  }

  function Top(s: seq<Sample>, n: nat): seq<Sample> {
    var t := SortDescending(s);
    if n <= |t| then t[..n] else t
  }

  /** The chosen samples are the best ones: everything chosen comes before everything left
      out, ties going to the lower index. */
  lemma TopIsBest(s: seq<Sample>, n: nat, x: Sample, y: Sample)
    requires ById(s) && x in Top(s, n) && y in s && y !in Top(s, n)
    ensures x in s && Before(x, y) && x.logprob >= y.logprob
  {
    SortSorts(s);
    var t := SortDescending(s);
    assert x in multiset(t) && y in multiset(t);
    var j :| 0 <= j < |t| && t[j] == y;
    var i :| 0 <= i < |Top(s, n)| && Top(s, n)[i] == x;
    assert n <= j;
  }

  /** They are the first `n` of the whole ranking, in its order, each once. */
  lemma TopIsPrefix(s: seq<Sample>, n: nat) returns (t: seq<Sample>)
    requires ById(s)
    ensures Sorted(t) && multiset(t) == multiset(s) && Top(s, n) == if n <= |t| then t[..n] else t
  {
    t := SortDescending(s);
    SortSorts(s);
  }

  lemma FirstIsBest(t: seq<Sample>, x: Sample)
    requires Sorted(t) && x in multiset(t)
    ensures t != [] && (x == t[0] || Before(t[0], x))
  {
    var i :| 0 <= i < |t| && t[i] == x;
  }

  lemma TailHolds(t: seq<Sample>)
    requires t != []
    ensures multiset(t[1..]) == multiset(t) - multiset{t[0]}
  {
    assert t == [t[0]] + t[1..];
  }

  /** There is only one ranking. */
  lemma {:induction false} RankingIsUnique(t: seq<Sample>, u: seq<Sample>)
    requires Sorted(t) && Sorted(u) && multiset(t) == multiset(u)
    ensures t == u
  {
    if t == [] {
      assert |multiset(t)| == |multiset(u)|;
    } else {
      assert t[0] in multiset(t);
      FirstIsBest(u, t[0]);
      assert u[0] in multiset(u);
      FirstIsBest(t, u[0]);
      TailHolds(t);
      TailHolds(u);
      RankingIsUnique(t[1..], u[1..]);
      assert t == [t[0]] + t[1..] && u == [u[0]] + u[1..];
    }
  }

  lemma TopSize(s: seq<Sample>, n: nat)
    requires ById(s)
    ensures |Top(s, n)| == if n <= |s| then n else |s|
  {
    SortSorts(s);
    assert |multiset(SortDescending(s))| == |multiset(s)|;
  }

  // ---------------------------------------------------------------------------
  // The group
  // ---------------------------------------------------------------------------

  /** The group of one request.  `registered` holds the sub-requests that the engine still maps
      to the group. */
  datatype Group = Group(n: nat, streaming: bool, realN: Option<nat>,
                         toBe: seq<nat>, done: seq<nat>, produced: bool, registered: set<nat>)

  function Ids(n: nat): seq<nat> { seq(n, i requires 0 <= i < n => i) }

  function NewGroup(n: nat, streaming: bool, realN: Option<nat>): Group {
    Group(n, streaming, realN, Ids(n), [], false, set i | i in Ids(n))
  }

  /** A report of one sub-request: whether it has finished, and the samples as they stand. */
  datatype Report = Report(id: nat, finished: bool, samples: seq<Sample>)

  /** What a report yields: nothing, or the samples of the assembled group. */
  datatype Outcome = KeyError | StopIteration | Nothing(g: Group) | Assembled(g: Group, samples: seq<Sample>)

  function Without(s: seq<nat>, x: nat): seq<nat> {
    if s == [] then [] else if s[0] == x then s[1..] else [s[0]] + Without(s[1..], x)
  }

  /** Whether the group is put together for this report. */
  predicate Assembles(g: Group, r: Report) {
    if g.streaming then g.toBe != [] && r.id == g.toBe[0]
    else |g.toBe| == 1 && r.id in g.toBe && r.finished && !g.produced
  }

  function Assembly(g: Group, r: Report): seq<Sample> {
    if !g.streaming && g.realN.Some?
    then Top(r.samples, if g.realN.value == 0 then g.n else g.realN.value)
    else r.samples
  }

  function HandleReport(g: Group, r: Report): Outcome {
    if g.streaming && g.toBe == [] then StopIteration
    else if r.finished && r.id !in g.toBe then KeyError
    else
      var h := g.(produced := g.produced || (!g.streaming && Assembles(g, r)));
      var k := if r.finished then h.(toBe := Without(g.toBe, r.id), done := g.done + [r.id]) else h;
      if !Assembles(g, r) then Nothing(k)
      else Assembled(if k.toBe == [] then k.(registered := {}) else k, Assembly(g, r))
  }

  /** The engine reports a sub-request only while it is registered and unfinished. */
  predicate Legal(g: Group, r: Report) { r.id in g.registered && r.id in g.toBe }

  ghost predicate Increasing(s: seq<nat>) {
    forall i, j :: 0 <= i < j < |s| ==> s[i] < s[j]
  }

  /** Unfinished and finished sub-requests partition the ids; the unfinished are in order; all
      are registered until none is left, and then none is; and a result has been produced only
      when none is left. */
  ghost predicate Inv(g: Group) {
    && Increasing(g.toBe)
    && (forall i :: 0 <= i < g.n <==> i in g.toBe || i in g.done)
    && (forall i :: i in g.toBe ==> i !in g.done)
    && (forall i, j :: 0 <= i < j < |g.done| ==> g.done[i] != g.done[j])
    && (g.toBe != [] ==> forall i :: i in g.registered <==> 0 <= i < g.n)
    && (g.toBe == [] ==> g.registered == {})
    && (!g.streaming ==> (g.produced <==> g.toBe == []))
  }

  lemma InIds(n: nat, i: nat)
    ensures i in Ids(n) <==> i < n
  {
    if i < n {
      assert Ids(n)[i] == i;
    }
  }

  lemma NewGroupInv(n: nat, streaming: bool, realN: Option<nat>)
    requires n >= 1
    ensures Inv(NewGroup(n, streaming, realN))
  {
    forall i: nat ensures i in Ids(n) <==> i < n {
      InIds(n, i);
    }
    assert Ids(n)[0] == 0;
  }

  lemma {:induction false} WithoutIs(s: seq<nat>, x: nat)
    requires Increasing(s) && x in s
    ensures Increasing(Without(s, x)) && |Without(s, x)| == |s| - 1
    ensures forall y :: y in Without(s, x) <==> y in s && y != x
  {
    if s[0] == x {
      assert s == [s[0]] + s[1..];
    } else {
      assert s == [s[0]] + s[1..];
      WithoutIs(s[1..], x);
      var t := Without(s[1..], x);
      forall k | 0 <= k < |t| ensures s[0] < t[k] {
        assert t[k] in s[1..];
      }
    }
  }

  /** Every legal report keeps the invariant, and raises nothing. */
  lemma ReportKeepsInv(g: Group, r: Report)
    requires Inv(g) && Legal(g, r)
    ensures (HandleReport(g, r).Nothing? || HandleReport(g, r).Assembled?) && Inv(HandleReport(g, r).g)
    ensures HandleReport(g, r).g.n == g.n && HandleReport(g, r).g.streaming == g.streaming
  {
    if r.finished {
      WithoutIs(g.toBe, r.id);
      var k := HandleReport(g, r).g;
      assert k.done == g.done + [r.id];
      if g.toBe[0] != r.id {
        assert g.toBe[0] in k.toBe;
      }
    }
  }

  /** Which reports yield the assembled group: in streaming mode those of the first remaining
      sub-request; otherwise the one with which the last sub-request finishes, and then all
      ids leave the registry. */
  lemma WhichReport(g: Group, r: Report)
    requires Inv(g) && Legal(g, r)
    ensures g.streaming ==> (HandleReport(g, r).Assembled? <==> forall i :: i in g.toBe ==> r.id <= i)
    ensures !g.streaming ==> (HandleReport(g, r).Assembled? <==> HandleReport(g, r).g.toBe == [])
    ensures HandleReport(g, r).g.toBe == [] ==> HandleReport(g, r).Assembled? && HandleReport(g, r).g.registered == {}
  {
    ReportKeepsInv(g, r);
    assert g.toBe[0] in g.toBe;
    if r.finished {
      WithoutIs(g.toBe, r.id);
    }
  }

  /** What is assembled: all samples as they stand; or with best_of and without streaming, the first
      of the ranking, as many as are wanted. */
  lemma AssembledIs(g: Group, r: Report, t: seq<Sample>)
    requires HandleReport(g, r).Assembled? && ById(r.samples) && Sorted(t) && multiset(t) == multiset(r.samples)
    ensures g.streaming || g.realN.None? ==> HandleReport(g, r).samples == r.samples
    ensures !g.streaming && g.realN.Some? && 1 <= g.realN.value <= |t| ==> HandleReport(g, r).samples == t[..g.realN.value]
  {
    if !g.streaming && g.realN.Some? {
      var u := TopIsPrefix(r.samples, g.realN.value);
      RankingIsUnique(t, u);
    }
  }

  /** A sub-request that finishes a second time raises, and so does a report to a streamed group of
      which none is left. */
  lemma SecondFinishRaises(g: Group, r: Report)
    requires Inv(g) && r.id in g.done && r.finished
    ensures HandleReport(g, r) == if g.streaming && (forall i :: 0 <= i < g.n ==> i in g.done) then StopIteration else KeyError
  {
    if g.toBe != [] {
      assert g.toBe[0] in g.toBe;
    }
  }

  /** With best_of, the one result consists of the wanted number of samples, and every chosen
      sample ranks before every other one. */
  lemma ResultIsBest(g: Group, r: Report, x: Sample, y: Sample)
    requires Inv(g) && Legal(g, r) && !g.streaming && HandleReport(g, r).Assembled?
    requires g.realN.Some? && 1 <= g.realN.value <= g.n && |r.samples| == g.n && ById(r.samples)
    ensures var out := HandleReport(g, r).samples;
            |out| == g.realN.value && (x in out && y in r.samples && y !in out ==> x in r.samples && Before(x, y))
  {
    TopSize(r.samples, g.realN.value);
    var out := Top(r.samples, g.realN.value);
    if x in out && y in r.samples && y !in out {
      TopIsBest(r.samples, g.realN.value, x, y);
    }
  }

  /** However the parameters ask for samples, the one result of a request without streaming has as
      many as the caller wanted: `n`, although with best_of more are sampled. */
  lemma ResultHasWantedNumber(p: Params, g: Group, r: Report)
    requires p.n >= 1 && p.realN.None? && PostInit(p).Accepted?
    requires g.n == PostInit(p).p.n && g.realN == PostInit(p).p.realN && !g.streaming
    requires Inv(g) && Legal(g, r) && HandleReport(g, r).Assembled? && |r.samples| == g.n && ById(r.samples)
    ensures |HandleReport(g, r).samples| == p.n
  {
    PostInitTwice(p);
    if g.realN.Some? {
      TopSize(r.samples, g.realN.value);
    }
  }

  // ---------------------------------------------------------------------------
  // Whole runs
  // ---------------------------------------------------------------------------

  /** The group after a run of reports. */
  function After(g: Group, reports: seq<Report>): Option<Group> {
    if reports == [] then Some(g)
    else match After(g, reports[..|reports| - 1])
      case None => None
      case Some(h) => match HandleReport(h, reports[|reports| - 1])
        case KeyError => None
        case StopIteration => None
        case Nothing(k) => Some(k)
        case Assembled(k, _) => Some(k)
  }

  /** How many reports of the run yielded the assembled group. */
  function Yields(g: Group, reports: seq<Report>): nat {
    if reports == [] then 0
    else
      var before := reports[..|reports| - 1];
      Yields(g, before) +
      if After(g, before).Some? && HandleReport(After(g, before).value, reports[|reports| - 1]).Assembled? then 1 else 0
  }

  ghost predicate LegalRun(g: Group, reports: seq<Report>) {
    reports != [] ==>
      && LegalRun(g, reports[..|reports| - 1])
      && After(g, reports[..|reports| - 1]).Some?
      && Legal(After(g, reports[..|reports| - 1]).value, reports[|reports| - 1])
  }

  /** Main theorem: in every run the ids stay partitioned; without streaming, the run yields
      the group exactly once if all sub-requests have finished, and not at all before. */
  lemma {:induction false} RunKeepsInv(n: nat, streaming: bool, realN: Option<nat>, reports: seq<Report>)
    requires n >= 1 && LegalRun(NewGroup(n, streaming, realN), reports)
    ensures var g := NewGroup(n, streaming, realN);
            && After(g, reports).Some? && Inv(After(g, reports).value)
            && After(g, reports).value.n == n && After(g, reports).value.streaming == streaming
            && (!streaming ==> Yields(g, reports) == if After(g, reports).value.toBe == [] then 1 else 0)
  {
    var g := NewGroup(n, streaming, realN);
    if reports == [] {
      NewGroupInv(n, streaming, realN);
      InIds(n, 0);
    } else {
      var before, r := reports[..|reports| - 1], reports[|reports| - 1];
      RunKeepsInv(n, streaming, realN, before);
      ReportKeepsInv(After(g, before).value, r);
      WhichReport(After(g, before).value, r);
    }
  }

  // ---------------------------------------------------------------------------
  // The group object
  // ---------------------------------------------------------------------------

  class ParallelSampleGroup {
    const n: nat
    const streaming: bool
    const realN: Option<nat>
    var toBe: seq<nat>
    var done: seq<nat>
    var produced: bool
    var registered: set<nat>

    ghost function Now(): Group
      reads this
    {
      Group(n, streaming, realN, toBe, done, produced, registered)
    }

    constructor (n: nat, streaming: bool, realN: Option<nat>)
      ensures Now() == NewGroup(n, streaming, realN)
    {
      this.n, this.streaming, this.realN := n, streaming, realN;
      toBe, done, produced := Ids(n), [], false;
      registered := set i | i in Ids(n);
    }

    /** Streaming: the group for the first remaining sub-request.  Otherwise: once, when the
        last sub-request finishes, cut to the best sequences if fewer are wanted. */
    method MaybeAssembleGroup(r: Report) returns (out: Option<seq<Sample>>)
      requires streaming ==> toBe != []
      modifies this`produced
      ensures out.Some? <==> Assembles(old(Now()), r)
      ensures out.Some? ==> out.value == Assembly(old(Now()), r)
      ensures produced == (old(produced) || (!streaming && Assembles(old(Now()), r)))
    {
      out := None;
      if streaming {
        if r.id == toBe[0] {
          out := Some(r.samples);
        }
        return;
      }
      if |toBe| == 1 && r.id in toBe && r.finished {
        if !produced {
          produced := true;
          if realN.Some? {
            out := Some(Top(r.samples, if realN.value == 0 then n else realN.value));
          } else {
            out := Some(r.samples);
          }
        }
      }
    }

    /** The engine's handling of a report of a registered sub-request. */
    method FromSeqGroup(r: Report) returns (out: Outcome)
      modifies this
      ensures out == HandleReport(old(Now()), r)
      ensures out.Nothing? || out.Assembled? ==> Now() == out.g
    {
      ghost var g := Now();
      if streaming && toBe == [] {
        return StopIteration;
      }
      var assembled := MaybeAssembleGroup(r);
      if r.finished {
        if r.id !in toBe {
          return KeyError;
        }
        toBe := Without(toBe, r.id);
        done := done + [r.id];
      }
      if assembled.None? {
        return Nothing(Group(n, streaming, realN, toBe, done, produced, registered));
      }
      if toBe == [] {
        registered := {};
      }
      out := Assembled(Group(n, streaming, realN, toBe, done, produced, registered), assembled.value);
    }
  }
}
