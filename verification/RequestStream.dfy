/** A streamed request as its client sees it: sequences decode tokens, and every report of the
    request carries what is new in each of them (vllm/outputs.py, vllm/sequence.py).  Folding the
    reports gives the cumulative output. */
module RequestStream {
  import opened Wrappers
  import opened RequestOutput
  import TS = TextStream
  import SD = SequenceData

  /** How the request streams: its stop strings, and whether log probabilities are wanted. */
  datatype Settings = Settings(params: TS.Params, logprobs: bool)

  /** One sequence: its text, its tokens, the tokens already reported, and all log probabilities. */
  datatype Seq = Seq(text: TS.State, data: SD.Data, offset: nat, logprobs: seq<real>) {
    ghost predicate Valid(p: TS.Params) {
      && TS.Streamable(p, text) && data.Valid() && offset <= |data.output|
      && |logprobs| == |data.output|
    }
  }

  /** A decoded token: its id, its log probability and its text with the stop facts. */
  datatype Token = Token(id: int, logprob: real, text: TS.Token)

  /** A finished sequence gets no more tokens. */
  function DecodeSeq(p: TS.Params, q: Seq, k: Token): Seq {
    if q.text.finished then q
    else Seq(TS.Decode(p, q.text, k.text), SD.Append(q.data, k.id, k.logprob), q.offset, q.logprobs + [k.logprob])
  }

  /** The log probabilities of a delta at the moment it is sent: those of the new tokens; nothing
      for a delta without tokens, unless there are no tokens at all yet.  (In that case the list is
      the sequence's own; what becomes of it is the subject of SharedLogprobs.) */
  function LogprobDelta(q: Seq, wanted: bool): Option<seq<real>> {
    if !wanted then None
    else if q.logprobs == [] then Some([])
    else if q.offset < |q.logprobs| then Some(q.logprobs[q.offset..])
    else None
  }

  /** What a report says about a sequence, and the state it leaves. */
  function ReportSeq(s: Settings, i: nat, q: Seq): Completion
    requires q.data.Valid() && q.offset <= |q.data.output|
  {
    Completion(i, TS.Delta(s.params, q.text).0, SD.TokenDelta(q.data, q.offset).Ids(),
               if s.logprobs then Some(q.data.logprob) else None, LogprobDelta(q, s.logprobs),
               if q.text.finished then Some("stop") else None, None)
  }

  function Reported(s: Settings, q: Seq): Seq {
    q.(text := TS.Delta(s.params, q.text).1, offset := |q.data.output|)
  }

  datatype Event = Decode(i: nat, token: Token) | Report

  function NewSeq(prompt: seq<int>): Seq { Seq(TS.State("", 0, false), SD.Fresh(prompt, []), 0, []) }

  /** The sequences of a request after a run. */
  function After(s: Settings, prompt: seq<int>, n: nat, events: seq<Event>): (qs: seq<Seq>)
    ensures |qs| == n
  {
    if events == [] then seq(n, _ => NewSeq(prompt))
    else
      var qs := After(s, prompt, n, events[..|events| - 1]);
      match events[|events| - 1]
      case Decode(i, k) => if i < n then qs[i := DecodeSeq(s.params, qs[i], k)] else qs
      case Report => seq(n, i requires 0 <= i < n => Reported(s, qs[i]))
  }

  ghost predicate AllValid(s: Settings, qs: seq<Seq>) {
    forall i :: 0 <= i < |qs| ==> qs[i].Valid(s.params)
  }

  lemma DecodeKeeps(s: Settings, q: Seq, k: Token)
    requires s.params.Valid() && q.Valid(s.params)
    ensures DecodeSeq(s.params, q, k).Valid(s.params)
    ensures var r := DecodeSeq(s.params, q, k);
            && r.text.offset == q.text.offset && r.text.text[..r.text.offset] == q.text.text[..q.text.offset]
            && r.offset == q.offset && r.data.output[..r.offset] == q.data.output[..q.offset] && r.logprobs[..r.offset] == q.logprobs[..q.offset]
  {
    if !q.text.finished {
      TS.DecodeKeepsStream(s.params, q.text, k.text);
    }
  }

  lemma ReportKeeps(s: Settings, q: Seq)
    requires s.params.Valid() && q.Valid(s.params)
    ensures Reported(s, q).Valid(s.params)
  {
    TS.DeltaCatchesUp(s.params, q.text);
  }

  lemma {:induction false} RunIsValid(s: Settings, prompt: seq<int>, n: nat, events: seq<Event>)
    requires s.params.Valid()
    ensures AllValid(s, After(s, prompt, n, events))
  {
    if events != [] {
      var qs := After(s, prompt, n, events[..|events| - 1]);
      RunIsValid(s, prompt, n, events[..|events| - 1]);
      match events[|events| - 1]
      case Decode(i, k) =>
        if i < n {
          DecodeKeeps(s, qs[i], k);
        }
      case Report =>
        forall i | 0 <= i < n ensures Reported(s, qs[i]).Valid(s.params) {
          ReportKeeps(s, qs[i]);
        }
    }
  }

  /** The outputs that a run sends, one per report. */
  function Outputs(s: Settings, prompt: seq<int>, n: nat, events: seq<Event>): seq<seq<Completion>>
    requires s.params.Valid()
  {
    if events == [] then []
    else
      var before := events[..|events| - 1];
      RunIsValid(s, prompt, n, before);
      var qs := After(s, prompt, n, before);
      Outputs(s, prompt, n, before) +
      if events[|events| - 1].Report? then [seq(n, i requires 0 <= i < n => ReportSeq(s, i, qs[i]))] else []
  }

  // ---------------------------------------------------------------------------
  // The fold of the outputs
  // ---------------------------------------------------------------------------

  /** One output: a completion for every sequence. */
  function OutputOf(s: Settings, qs: seq<Seq>): (out: seq<Completion>)
    requires forall i :: 0 <= i < |qs| ==> qs[i].data.Valid() && qs[i].offset <= |qs[i].data.output|
    ensures |out| == |qs| && forall i :: 0 <= i < |qs| ==> out[i] == ReportSeq(s, i, qs[i])
  {
    seq(|qs|, i requires 0 <= i < |qs| => ReportSeq(s, i, qs[i]))
  }

  lemma OutputLookup(s: Settings, qs: seq<Seq>, i: int)
    requires AllValid(s, qs)
    ensures Distinct(OutputOf(s, qs))
    ensures Lookup(OutputOf(s, qs), i) == if 0 <= i < |qs| then Some(ReportSeq(s, i, qs[i])) else None
  {
    if 0 <= i < |qs| {
      LookupIs(OutputOf(s, qs), i);
    }
  }

  /** What has been sent about sequence `i`: exactly its reported text and tokens. */
  ghost predicate SentIs(s: Settings, outs: seq<seq<Completion>>, q: Seq, i: nat) {
    && q.Valid(s.params)
    && AllText(outs, i) == q.text.text[..q.text.offset] && AllTokens(outs, i) == q.data.output[..q.offset]
  }

  lemma SentByReport(s: Settings, outs: seq<seq<Completion>>, qs: seq<Seq>, i: nat)
    requires s.params.Valid() && AllValid(s, qs) && i < |qs| && SentIs(s, outs, qs[i], i)
    ensures SentIs(s, outs + [OutputOf(s, qs)], Reported(s, qs[i]), i)
  {
    TextByReport(s, outs, qs, i);
    TokensByReport(s, outs, qs, i);
    NowSent(s, outs + [OutputOf(s, qs)], qs[i], i);
  }

  /** If everything visible has been sent, that is what a report leaves behind. */
  lemma NowSent(s: Settings, outs: seq<seq<Completion>>, q: Seq, i: nat)
    requires s.params.Valid() && q.Valid(s.params)
    requires AllText(outs, i) == TS.Cumulative(s.params, q.text) && AllTokens(outs, i) == q.data.output
    ensures SentIs(s, outs, Reported(s, q), i)
  {
    ReportKeeps(s, q);
    TS.DeltaCatchesUp(s.params, q.text);
    assert q.data.output[..|q.data.output|] == q.data.output;
  }

  lemma TextByReport(s: Settings, outs: seq<seq<Completion>>, qs: seq<Seq>, i: nat)
    requires s.params.Valid() && AllValid(s, qs) && i < |qs| && AllText(outs, i) == qs[i].text.text[..qs[i].text.offset]
    ensures AllText(outs + [OutputOf(s, qs)], i) == TS.Cumulative(s.params, qs[i].text)
  {
    assert (outs + [OutputOf(s, qs)])[..|outs|] == outs;
    OutputLookup(s, qs, i);
    TS.DeltaCatchesUp(s.params, qs[i].text);
  }

  lemma TokensByReport(s: Settings, outs: seq<seq<Completion>>, qs: seq<Seq>, i: nat)
    requires AllValid(s, qs) && i < |qs| && AllTokens(outs, i) == qs[i].data.output[..qs[i].offset]
    ensures AllTokens(outs + [OutputOf(s, qs)], i) == qs[i].data.output
  {
    assert (outs + [OutputOf(s, qs)])[..|outs|] == outs;
    OutputLookup(s, qs, i);
    SD.TokenDeltaIs(qs[i].data, qs[i].offset);
  }

  lemma LogprobsByReport(s: Settings, outs: seq<seq<Completion>>, qs: seq<Seq>, i: nat)
    requires AllValid(s, qs) && i < |qs|
    requires AllLogprobs(outs, i) == if s.logprobs then qs[i].logprobs[..qs[i].offset] else []
    ensures AllLogprobs(outs + [OutputOf(s, qs)], i) == if s.logprobs then qs[i].logprobs else []
  {
    assert (outs + [OutputOf(s, qs)])[..|outs|] == outs;
    OutputLookup(s, qs, i);
    LogprobsRejoin(qs[i], s.logprobs);
  }

  lemma LogprobsRejoin(q: Seq, wanted: bool)
    requires q.offset <= |q.logprobs|
    ensures wanted ==> q.logprobs[..q.offset] + (if LogprobDelta(q, wanted).Some? then LogprobDelta(q, wanted).value else []) == q.logprobs
    ensures !wanted ==> LogprobDelta(q, wanted) == None
  {
    assert q.logprobs[..q.offset] + q.logprobs[q.offset..] == q.logprobs;
    assert q.offset == |q.logprobs| ==> q.logprobs[q.offset..] == [];
  }

  /** Over every run, the outputs carry exactly the text and tokens reported of every sequence. */
  lemma {:induction false} RunSends(s: Settings, prompt: seq<int>, n: nat, events: seq<Event>, i: nat)
    requires s.params.Valid() && i < n
    ensures SentIs(s, Outputs(s, prompt, n, events), After(s, prompt, n, events)[i], i)
  {
    if events != [] {
      var before := events[..|events| - 1];
      var qs, outs := After(s, prompt, n, before), Outputs(s, prompt, n, before);
      RunSends(s, prompt, n, before, i);
      RunIsValid(s, prompt, n, before);
      match events[|events| - 1]
      case Decode(j, k) =>
        assert Outputs(s, prompt, n, events) == outs;
        if j == i {
          DecodeKeeps(s, qs[i], k);
        }
      case Report =>
        ReportSends(s, prompt, n, events);
        SentByReport(s, outs, qs, i);
    }
  }

  /** If the client gets copies (outputs that are sent to another process), their lists carry
      exactly the reported log probabilities, too. */
  lemma {:induction false} RunSendsLogprobs(s: Settings, prompt: seq<int>, n: nat, events: seq<Event>, i: nat)
    requires s.params.Valid() && i < n
    ensures var q := After(s, prompt, n, events)[i];
            && q.Valid(s.params)
            && AllLogprobs(Outputs(s, prompt, n, events), i) == if s.logprobs then q.logprobs[..q.offset] else []
  {
    RunIsValid(s, prompt, n, events);
    if events != [] {
      var before := events[..|events| - 1];
      var qs, outs := After(s, prompt, n, before), Outputs(s, prompt, n, before);
      RunSendsLogprobs(s, prompt, n, before, i);
      RunIsValid(s, prompt, n, before);
      match events[|events| - 1]
      case Decode(j, k) =>
        assert Outputs(s, prompt, n, events) == outs;
        if j == i {
          DecodeKeeps(s, qs[i], k);
        }
      case Report =>
        ReportSends(s, prompt, n, events);
        LogprobsByReport(s, outs, qs, i);
        assert qs[i].logprobs[..|qs[i].logprobs|] == qs[i].logprobs;
    }
  }

  lemma ReportSends(s: Settings, prompt: seq<int>, n: nat, events: seq<Event>)
    requires s.params.Valid() && events != [] && events[|events| - 1].Report?
    ensures var before := events[..|events| - 1];
            && AllValid(s, After(s, prompt, n, before))
            && Outputs(s, prompt, n, events) == Outputs(s, prompt, n, before) + [OutputOf(s, After(s, prompt, n, before))]
  {
    var qs := After(s, prompt, n, events[..|events| - 1]);
    RunIsValid(s, prompt, n, events[..|events| - 1]);
    assert OutputOf(s, qs) == seq(n, i requires 0 <= i < n => ReportSeq(s, i, qs[i]));
  }

  /** Every output of a run is a list of one completion per sequence, and its log probabilities are
      as wanted; in the first output they are never missing if wanted. */
  ghost predicate WellSent(s: Settings, n: nat, outs: seq<seq<Completion>>) {
    && (forall k :: 0 <= k < |outs| ==> Distinct(outs[k]))
    && (forall k, i: int :: 0 <= k < |outs| && Lookup(outs[k], i).Some? ==> 0 <= i < n)
    && (!s.logprobs ==> forall k, i: int :: 0 <= k < |outs| && Lookup(outs[k], i).Some? ==> Lookup(outs[k], i).value.logprobs.None?)
    && (s.logprobs && outs != [] ==> forall i :: 0 <= i < n ==> Lookup(outs[0], i).Some? && Lookup(outs[0], i).value.logprobs.Some?)
  }

  lemma {:induction false} RunIsWellSent(s: Settings, prompt: seq<int>, n: nat, events: seq<Event>)
    requires s.params.Valid()
    ensures WellSent(s, n, Outputs(s, prompt, n, events))
    ensures Outputs(s, prompt, n, events) == [] ==> forall i :: 0 <= i < n ==> After(s, prompt, n, events)[i].offset == 0
  {
    if events != [] {
      var before := events[..|events| - 1];
      var qs, outs := After(s, prompt, n, before), Outputs(s, prompt, n, before);
      RunIsWellSent(s, prompt, n, before);
      if events[|events| - 1].Report? {
        ReportSends(s, prompt, n, events);
        NextIsWellSent(s, n, outs, qs);
      } else {
        assert Outputs(s, prompt, n, events) == outs;
      }
    }
  }

  lemma NextIsWellSent(s: Settings, n: nat, outs: seq<seq<Completion>>, qs: seq<Seq>)
    requires WellSent(s, n, outs) && |qs| == n && AllValid(s, qs)
    requires outs == [] ==> forall i :: 0 <= i < n ==> qs[i].offset == 0
    ensures WellSent(s, n, outs + [OutputOf(s, qs)])
  {
    forall i: int
      ensures Distinct(OutputOf(s, qs))
      ensures Lookup(OutputOf(s, qs), i) == if 0 <= i < |qs| then Some(ReportSeq(s, i, qs[i])) else None
    {
      OutputLookup(s, qs, i);
    }
  }

  lemma {:induction false} EarliestIsFirst(s: Settings, n: nat, outs: seq<seq<Completion>>, b: nat, i: int)
    requires WellSent(s, n, outs) && b <= |outs| && Earliest(outs[..b], i).Some?
    ensures 0 <= i < n && (Earliest(outs[..b], i).value.logprobs.None? <==> !s.logprobs)
  {
    assert b > 0;
    assert outs[..b][..b - 1] == outs[..b - 1];
    if Earliest(outs[..b - 1], i).Some? {
      EarliestIsFirst(s, n, outs, b - 1, i);
    } else if s.logprobs {
      FirstHasAll(s, n, outs, b, i);
    }
  }

  lemma {:induction false} FirstHasAll(s: Settings, n: nat, outs: seq<seq<Completion>>, b: nat, i: int)
    requires WellSent(s, n, outs) && s.logprobs && 1 <= b <= |outs| && 0 <= i < n
    ensures Earliest(outs[..b], i) == Lookup(outs[0], i)
  {
    assert outs[..b][..b - 1] == outs[..b - 1];
    if b > 1 {
      FirstHasAll(s, n, outs, b - 1, i);
    } else {
      assert outs[..0] == [];
    }
  }

  /** The fold of the outputs of a run never fails, although later deltas may lack log
      probabilities. */
  lemma FoldSucceeds(s: Settings, prompt: seq<int>, n: nat, events: seq<Event>)
    requires s.params.Valid() && |Outputs(s, prompt, n, events)| >= 1
    ensures forall k :: 0 <= k < |Outputs(s, prompt, n, events)| ==> Distinct(Outputs(s, prompt, n, events)[k])
    ensures Fold(Outputs(s, prompt, n, events)).Ok?
  {
    var outs := Outputs(s, prompt, n, events);
    RunIsWellSent(s, prompt, n, events);
    forall i: int, b: nat ensures !LateLogprobs(outs, i, b) {
      if b < |outs| && Earliest(outs[..b], i).Some? {
        EarliestIsFirst(s, n, outs, b, i);
      }
    }
    FoldOkIff(outs);
  }

  lemma SentAfterReport(s: Settings, prompt: seq<int>, n: nat, events: seq<Event>, i: nat)
    requires s.params.Valid() && i < n
    ensures var outs := Outputs(s, prompt, n, events + [Report]); var q := After(s, prompt, n, events)[i];
            |outs| >= 1 && AllText(outs, i) == TS.Cumulative(s.params, q.text) && AllTokens(outs, i) == q.data.output
  {
    assert (events + [Report])[..|events|] == events;
    ReportSends(s, prompt, n, events + [Report]);
    RunSends(s, prompt, n, events, i);
    TextByReport(s, Outputs(s, prompt, n, events), After(s, prompt, n, events), i);
    TokensByReport(s, Outputs(s, prompt, n, events), After(s, prompt, n, events), i);
  }

  /** Main theorem: after every report of every run, folding all outputs so far succeeds and gives,
      for every sequence, exactly its cumulative text and all its tokens. */
  lemma FoldIsCumulative(s: Settings, prompt: seq<int>, n: nat, events: seq<Event>, i: nat)
    requires s.params.Valid() && i < n
    ensures var outs := Outputs(s, prompt, n, events + [Report]); var q := After(s, prompt, n, events)[i];
            && |outs| >= 1 && Fold(outs).Ok?
            && TextOf(Fold(outs).outs, i) == TS.Cumulative(s.params, q.text)
            && TokensOf(Fold(outs).outs, i) == q.data.output
  {
    var outs := Outputs(s, prompt, n, events + [Report]);
    SentAfterReport(s, prompt, n, events, i);
    FoldSucceeds(s, prompt, n, events + [Report]);
    FoldRebuilds(outs, i);
  }

  /** The same for the log probabilities, if the client gets copies. */
  lemma FoldOfCopies(s: Settings, prompt: seq<int>, n: nat, events: seq<Event>, i: nat)
    requires s.params.Valid() && i < n
    ensures var outs := Outputs(s, prompt, n, events + [Report]);
            && |outs| >= 1 && Fold(outs).Ok?
            && LogprobsOf(Fold(outs).outs, i) == if s.logprobs then After(s, prompt, n, events)[i].logprobs else []
  {
    var outs := Outputs(s, prompt, n, events + [Report]);
    assert (events + [Report])[..|events|] == events;
    ReportSends(s, prompt, n, events + [Report]);
    RunSendsLogprobs(s, prompt, n, events, i);
    LogprobsByReport(s, Outputs(s, prompt, n, events), After(s, prompt, n, events), i);
    FoldSucceeds(s, prompt, n, events + [Report]);
    FoldKeepsLatest(outs, i);
  }

  /** The sum of all log probabilities of a sequence. */
  function SumOf(xs: seq<real>): real {
    if xs == [] then 0.0 else SumOf(xs[..|xs| - 1]) + xs[|xs| - 1]
  }

  lemma {:induction false} CumulativeIsSum(s: Settings, prompt: seq<int>, n: nat, events: seq<Event>, i: nat)
    requires i < n
    ensures After(s, prompt, n, events)[i].data.logprob == SumOf(After(s, prompt, n, events)[i].logprobs)
  {
    if events != [] {
      CumulativeIsSum(s, prompt, n, events[..|events| - 1], i);
      var q := After(s, prompt, n, events[..|events| - 1])[i];
      if events[|events| - 1].Decode? && events[|events| - 1].i == i {
        var x := events[|events| - 1].token.logprob;
        assert (q.logprobs + [x])[..|q.logprobs|] == q.logprobs;
      }
    }
  }

  /** Besides, the fold has the index of the sequence, the sum of all its log probabilities if these
      are wanted, and a finish reason exactly if it has finished. */
  lemma FoldHasLatest(s: Settings, prompt: seq<int>, n: nat, events: seq<Event>, i: nat)
    requires s.params.Valid() && i < n
    ensures var outs := Outputs(s, prompt, n, events + [Report]); var q := After(s, prompt, n, events)[i];
            && |outs| >= 1 && Fold(outs).Ok? && Lookup(Fold(outs).outs, i).Some?
            && var c := Lookup(Fold(outs).outs, i).value;
            && c.index == i && c.cumulative == (if s.logprobs then Some(SumOf(q.logprobs)) else None)
            && (c.finish.Some? <==> q.text.finished)
  {
    var outs := Outputs(s, prompt, n, events + [Report]);
    assert (events + [Report])[..|events|] == events;
    ReportSends(s, prompt, n, events + [Report]);
    FoldSucceeds(s, prompt, n, events + [Report]);
    FoldKeepsLatest(outs, i);
    CumulativeIsSum(s, prompt, n, events, i);
    OutputLookup(s, After(s, prompt, n, events), i);
    assert Latest(outs, i) == Lookup(outs[|outs| - 1], i);
  }

  /** Once a sequence has finished, that is its final text. */
  lemma FoldIsFinal(s: Settings, prompt: seq<int>, n: nat, events: seq<Event>, i: nat)
    requires s.params.Valid() && i < n && After(s, prompt, n, events)[i].text.finished
    ensures var outs := Outputs(s, prompt, n, events + [Report]);
            |outs| >= 1 && Fold(outs).Ok? && TextOf(Fold(outs).outs, i) == After(s, prompt, n, events)[i].text.text
  {
    FoldIsCumulative(s, prompt, n, events, i);
  }

  /** A client that starts folding in the middle of a run can fail.  If nothing is new in a sequence,
      its output lacks log probabilities; then one more token, and the next output has some. */
  lemma LateStartFails(s: Settings, prompt: seq<int>, n: nat, events: seq<Event>, i: nat, k: Token)
    requires s.params.Valid() && s.logprobs && i < n
    requires var q := After(s, prompt, n, events)[i]; !q.text.finished && q.offset == |q.data.output| > 0
    ensures var outs := Outputs(s, prompt, n, events + [Report] + [Decode(i, k)] + [Report]);
            |outs| >= 2 && Fold(outs[|outs| - 2..]).AssertionFailed?
  {
    var e2 := events + [Report] + [Decode(i, k)];
    var qs, rs := After(s, prompt, n, events), After(s, prompt, n, e2);
    var x, y := TwoReports(s, prompt, n, events, i, k);
    QuietThenToken(s, qs, rs, i, k);
  }

  /** The last two outputs of a run that ends with a report, a token and a report. */
  lemma TwoReports(s: Settings, prompt: seq<int>, n: nat, events: seq<Event>, i: nat, k: Token) returns (x: seq<Completion>, y: seq<Completion>)
    requires s.params.Valid() && i < n
    ensures var qs := After(s, prompt, n, events); var rs := After(s, prompt, n, events + [Report] + [Decode(i, k)]);
            var outs := Outputs(s, prompt, n, events + [Report] + [Decode(i, k)] + [Report]);
            && AllValid(s, qs) && AllValid(s, rs) && x == OutputOf(s, qs) && y == OutputOf(s, rs)
            && |outs| >= 2 && outs[|outs| - 2..] == [x, y]
            && rs[i] == DecodeSeq(s.params, Reported(s, qs[i]), k)
  {
    var e1 := events + [Report];
    var e2 := e1 + [Decode(i, k)];
    var e3 := e2 + [Report];
    assert e1[..|events|] == events && e2[..|e1|] == e1 && e3[..|e2|] == e2;
    ReportSends(s, prompt, n, e1);
    ReportSends(s, prompt, n, e3);
    x, y := OutputOf(s, After(s, prompt, n, events)), OutputOf(s, After(s, prompt, n, e2));
    assert Outputs(s, prompt, n, e2) == Outputs(s, prompt, n, e1);
  }

  lemma QuietThenToken(s: Settings, qs: seq<Seq>, rs: seq<Seq>, i: nat, k: Token)
    requires s.params.Valid() && s.logprobs && AllValid(s, qs) && AllValid(s, rs) && i < |qs| == |rs|
    requires !qs[i].text.finished && qs[i].offset == |qs[i].data.output| > 0
    requires rs[i] == DecodeSeq(s.params, Reported(s, qs[i]), k)
    ensures Fold([OutputOf(s, qs), OutputOf(s, rs)]).AssertionFailed?
  {
    var x, y := OutputOf(s, qs), OutputOf(s, rs);
    TS.DeltaCatchesUp(s.params, qs[i].text);
    OutputLookup(s, qs, i);
    OutputLookup(s, rs, i);
    assert Clashes(Lookup(x, i), Lookup(y, i));
    assert [x, y][..1] == [x];
    MergeOkIff(x, y);
    assert Fold([x]) == Ok(x);
  }
}
