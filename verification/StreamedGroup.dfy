/** A streamed request with several samples: its sub-requests are reported one by one
    (vllm/sequence.py), and each report that assembles the group becomes one output about all of
    its sequences (vllm/outputs.py). */
module StreamedGroup {
  import opened Wrappers
  import PS = ParallelSample
  import RS = RequestStream
  import RO = RequestOutput

  /** A token for sequence `i`, or a report of the sub-request `i`. */
  datatype Step = Token(i: nat, token: RS.Token) | SubReport(i: nat)

  /** The group, and what the sequences and the outputs have seen. */
  datatype State = State(g: PS.Group, events: seq<RS.Event>)

  function Sequences(s: RS.Settings, prompt: seq<int>, st: State): (qs: seq<RS.Seq>)
    ensures |qs| == st.g.n
  {
    RS.After(s, prompt, st.g.n, st.events)
  }

  /** The report of a sub-request; a streamed group hands on its sequences as they are. */
  function ReportOf(s: RS.Settings, prompt: seq<int>, st: State, i: nat): PS.Report
    requires i < st.g.n
  {
    PS.Report(i, Sequences(s, prompt, st)[i].text.finished, [])
  }

  predicate Legal(s: RS.Settings, prompt: seq<int>, st: State, step: Step) {
    step.i < st.g.n && (step.SubReport? ==> PS.Legal(st.g, ReportOf(s, prompt, st, step.i)))
  }

  /** A report that does not assemble the group sends nothing; None if the engine raises. */
  function Next(s: RS.Settings, prompt: seq<int>, st: State, step: Step): Option<State>
    requires step.i < st.g.n
  {
    match step
    case Token(i, k) => Some(st.(events := st.events + [RS.Decode(i, k)]))
    case SubReport(i) =>
      match PS.HandleReport(st.g, ReportOf(s, prompt, st, i))
      case KeyError => None
      case StopIteration => None
      case Nothing(g) => Some(st.(g := g))
      case Assembled(g, _) => Some(State(g, st.events + [RS.Report]))
  }

  function Start(n: nat, realN: Option<nat>): State { State(PS.NewGroup(n, true, realN), []) }

  /** `sts` are the states of a legal run of a request with `n` samples. */
  ghost predicate IsRun(s: RS.Settings, prompt: seq<int>, n: nat, realN: Option<nat>, steps: seq<Step>, sts: seq<State>) {
    && |sts| == |steps| + 1 && sts[0] == Start(n, realN)
    && forall j :: 0 <= j < |steps| ==> Legal(s, prompt, sts[j], steps[j]) && Next(s, prompt, sts[j], steps[j]) == Some(sts[j + 1])
  }

  /** The sequence has finished, and all of it has been reported. */
  predicate AllReported(q: RS.Seq) {
    q.text.finished && q.text.offset == |q.text.text| && q.offset == |q.data.output|
  }

  /** Sub-requests that count as finished have finished sequences; and once none is left, everything
      has been reported. */
  ghost predicate Inv(s: RS.Settings, prompt: seq<int>, n: nat, st: State) {
    && st.g.n == n && st.g.streaming && PS.Inv(st.g)
    && (forall i :: i in st.g.done ==> i < n && Sequences(s, prompt, st)[i].text.finished)
    && (st.g.toBe == [] ==> RS.Report in st.events && forall i :: 0 <= i < n ==> AllReported(Sequences(s, prompt, st)[i]))
  }

  // ---------------------------------------------------------------------------
  // The sequences
  // ---------------------------------------------------------------------------

  lemma MoreEvents(s: RS.Settings, prompt: seq<int>, n: nat, events: seq<RS.Event>, e: RS.Event, i: nat)
    requires s.params.Valid() && i < n
    ensures var q, r := RS.After(s, prompt, n, events)[i], RS.After(s, prompt, n, events + [e])[i];
            && q.Valid(s.params)
            && r == if e.Report? then RS.Reported(s, q) else if e.i == i then RS.DecodeSeq(s.params, q, e.token) else q
  {
    RS.RunIsValid(s, prompt, n, events);
    assert (events + [e])[..|events|] == events;
  }

  /** A finished sequence stays finished, and stays reported. */
  lemma StaysFinished(s: RS.Settings, prompt: seq<int>, n: nat, events: seq<RS.Event>, e: RS.Event, i: nat)
    requires s.params.Valid() && i < n && RS.After(s, prompt, n, events)[i].text.finished
    ensures RS.After(s, prompt, n, events + [e])[i].text.finished
    ensures e.Report? || AllReported(RS.After(s, prompt, n, events)[i]) ==> AllReported(RS.After(s, prompt, n, events + [e])[i])
  {
    MoreEvents(s, prompt, n, events, e, i);
  }

  // ---------------------------------------------------------------------------
  // Every legal run
  // ---------------------------------------------------------------------------

  lemma TokenKeeps(s: RS.Settings, prompt: seq<int>, n: nat, st: State, i: nat, k: RS.Token)
    requires s.params.Valid() && Inv(s, prompt, n, st) && i < n
    ensures Inv(s, prompt, n, st.(events := st.events + [RS.Decode(i, k)]))
  {
    forall j | 0 <= j < n && Sequences(s, prompt, st)[j].text.finished
      ensures var q := Sequences(s, prompt, st.(events := st.events + [RS.Decode(i, k)]))[j];
              q.text.finished && (AllReported(Sequences(s, prompt, st)[j]) ==> AllReported(q))
    {
      StaysFinished(s, prompt, n, st.events, RS.Decode(i, k), j);
    }
  }

  /** Who is finished after a report of sub-request `i`. */
  lemma FinishedAfter(s: RS.Settings, prompt: seq<int>, n: nat, st: State, i: nat, g: PS.Group)
    requires Inv(s, prompt, n, st) && i < n
    requires var o := PS.HandleReport(st.g, ReportOf(s, prompt, st, i)); (o.Nothing? || o.Assembled?) && g == o.g
    ensures forall j :: j in g.done ==> j < n && Sequences(s, prompt, st)[j].text.finished
  {
  }

  lemma ReportKeeps(s: RS.Settings, prompt: seq<int>, n: nat, st: State, i: nat)
    requires s.params.Valid() && Inv(s, prompt, n, st) && i < n && PS.Legal(st.g, ReportOf(s, prompt, st, i))
    ensures Next(s, prompt, st, SubReport(i)).Some? && Inv(s, prompt, n, Next(s, prompt, st, SubReport(i)).value)
  {
    var r := ReportOf(s, prompt, st, i);
    PS.ReportKeepsInv(st.g, r);
    PS.WhichReport(st.g, r);
    FinishedAfter(s, prompt, n, st, i, PS.HandleReport(st.g, r).g);
    if PS.HandleReport(st.g, r).Assembled? {
      AssembledKeeps(s, prompt, n, st, PS.HandleReport(st.g, r).g);
    }
  }

  lemma AssembledKeeps(s: RS.Settings, prompt: seq<int>, n: nat, st: State, g: PS.Group)
    requires s.params.Valid() && st.g.n == n == g.n && g.streaming && PS.Inv(g)
    requires forall j :: j in g.done ==> j < n && Sequences(s, prompt, st)[j].text.finished
    ensures Inv(s, prompt, n, State(g, st.events + [RS.Report]))
  {
    forall j | 0 <= j < n && j in g.done
      ensures var q := Sequences(s, prompt, State(g, st.events + [RS.Report]))[j]; q.text.finished && AllReported(q)
    {
      StaysFinished(s, prompt, n, st.events, RS.Report, j);
    }
    assert (st.events + [RS.Report])[|st.events|] == RS.Report;
  }

  /** Which reports send an output: exactly those of the first sub-request that is left. */
  lemma SendsIff(s: RS.Settings, prompt: seq<int>, n: nat, st: State, i: nat)
    requires s.params.Valid() && Inv(s, prompt, n, st) && i < n && PS.Legal(st.g, ReportOf(s, prompt, st, i))
    ensures var next := Next(s, prompt, st, SubReport(i));
            && next.Some?
            && next.value.events == st.events + (if forall j :: j in st.g.toBe ==> i <= j then [RS.Report] else [])
            && next.value.g.done == st.g.done + (if Sequences(s, prompt, st)[i].text.finished then [i] else [])
  {
    PS.ReportKeepsInv(st.g, ReportOf(s, prompt, st, i));
    PS.WhichReport(st.g, ReportOf(s, prompt, st, i));
  }

  lemma {:induction false} RunKeeps(s: RS.Settings, prompt: seq<int>, n: nat, realN: Option<nat>, steps: seq<Step>, sts: seq<State>, j: nat)
    requires s.params.Valid() && n >= 1 && IsRun(s, prompt, n, realN, steps, sts) && j < |sts|
    ensures Inv(s, prompt, n, sts[j])
  {
    if j == 0 {
      PS.NewGroupInv(n, true, realN);
      PS.InIds(n, 0);
    } else {
      RunKeeps(s, prompt, n, realN, steps, sts, j - 1);
      assert Legal(s, prompt, sts[j - 1], steps[j - 1]) && Next(s, prompt, sts[j - 1], steps[j - 1]) == Some(sts[j]);
      match steps[j - 1]
      case Token(i, k) => TokenKeeps(s, prompt, n, sts[j - 1], i, k);
      case SubReport(i) => ReportKeeps(s, prompt, n, sts[j - 1], i);
    }
  }

  /** A legal report of a sub-request never raises. */
  lemma NeverRaises(s: RS.Settings, prompt: seq<int>, n: nat, realN: Option<nat>, steps: seq<Step>, sts: seq<State>, step: Step)
    requires s.params.Valid() && n >= 1 && IsRun(s, prompt, n, realN, steps, sts) && Legal(s, prompt, sts[|steps|], step)
    ensures Next(s, prompt, sts[|steps|], step).Some?
  {
    RunKeeps(s, prompt, n, realN, steps, sts, |steps|);
    if step.SubReport? {
      ReportKeeps(s, prompt, n, sts[|steps|], step.i);
    }
  }

  lemma {:induction false} SomethingSent(s: RS.Settings, prompt: seq<int>, n: nat, events: seq<RS.Event>)
    requires s.params.Valid() && RS.Report in events
    ensures |RS.Outputs(s, prompt, n, events)| >= 1
  {
    if !events[|events| - 1].Report? {
      SomethingSent(s, prompt, n, events[..|events| - 1]);
    }
  }

  lemma ReportedIsWhole(s: RS.Settings, prompt: seq<int>, n: nat, events: seq<RS.Event>, i: nat)
    requires s.params.Valid() && i < n && |RS.Outputs(s, prompt, n, events)| >= 1 && AllReported(RS.After(s, prompt, n, events)[i])
    ensures var outs := RS.Outputs(s, prompt, n, events); var q := RS.After(s, prompt, n, events)[i];
            && RO.Fold(outs).Ok? && RO.TextOf(RO.Fold(outs).outs, i) == q.text.text && RO.TokensOf(RO.Fold(outs).outs, i) == q.data.output
  {
    var outs, q := RS.Outputs(s, prompt, n, events), RS.After(s, prompt, n, events)[i];
    RS.RunSends(s, prompt, n, events, i);
    assert q.text.text[..q.text.offset] == q.text.text && q.data.output[..q.offset] == q.data.output;
    RS.FoldSucceeds(s, prompt, n, events);
    RO.FoldRebuilds(outs, i);
  }

  /** Main theorem: in every legal run of a streamed group, in whatever order its sub-requests
      decode, report and finish: once none is left to be finished, all sequences have finished, and
      the client that folds the outputs has the final text and all tokens of every one of them. */
  lemma StreamIsWhole(s: RS.Settings, prompt: seq<int>, n: nat, realN: Option<nat>, steps: seq<Step>, sts: seq<State>, i: nat)
    requires s.params.Valid() && n >= 1 && IsRun(s, prompt, n, realN, steps, sts) && i < n && sts[|steps|].g.toBe == []
    ensures var outs := RS.Outputs(s, prompt, n, sts[|steps|].events); var q := RS.After(s, prompt, n, sts[|steps|].events)[i];
            && |outs| >= 1 && RO.Fold(outs).Ok? && q.text.finished
            && RO.TextOf(RO.Fold(outs).outs, i) == q.text.text && RO.TokensOf(RO.Fold(outs).outs, i) == q.data.output
  {
    RunKeeps(s, prompt, n, realN, steps, sts, |steps|);
    NoneLeft(s, prompt, n, sts[|steps|], i);
  }

  lemma NoneLeft(s: RS.Settings, prompt: seq<int>, n: nat, st: State, i: nat)
    requires s.params.Valid() && Inv(s, prompt, n, st) && i < n && st.g.toBe == []
    ensures var outs := RS.Outputs(s, prompt, n, st.events); var q := RS.After(s, prompt, n, st.events)[i];
            && |outs| >= 1 && RO.Fold(outs).Ok? && q.text.finished
            && RO.TextOf(RO.Fold(outs).outs, i) == q.text.text && RO.TokensOf(RO.Fold(outs).outs, i) == q.data.output
  {
    SomethingSent(s, prompt, n, st.events);
    assert AllReported(Sequences(s, prompt, st)[i]);
    ReportedIsWhole(s, prompt, n, st.events, i);
  }
}
