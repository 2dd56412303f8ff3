/** Token data of a sequence and its replica on a worker (vllm/sequence.py): the engine appends
    tokens and sends deltas; the worker applies them. */
module SequenceData {

  type TokenId = int

  datatype Stage = Prefill | Decode

  /** The fields of SequenceData that deltas and resets touch. */
  datatype Data = Data(prompt: seq<TokenId>, output: seq<TokenId>, logprob: real, computed: int, stage: Stage,
                       cached: seq<TokenId>, pending: seq<TokenId>)
  {
    function Len(): nat { |output| + |prompt| }

    /** The cached token list is prompt and output, and no more tokens are computed than exist. */
    predicate Valid() { cached == prompt + output && 0 <= computed <= Len() }
  }

  datatype Delta = Delta(tokens: seq<TokenId>, logprob: real, computed: int, stage: Stage)

  function Fresh(prompt: seq<TokenId>, output: seq<TokenId>): (d: Data)
    ensures d.Valid()
  {
    Data(prompt, output, 0.0, 0, Prefill, prompt + output, [])
  }

  function Append(d: Data, t: TokenId, lp: real): Data {
    d.(output := d.output + [t], pending := d.pending + [t], cached := d.cached + [t], logprob := d.logprob + lp)
  }

  /** The count moves first; then the code asserts that it does not exceed the length. */
  function Compute(d: Data, n: nat): Data {
    var e := d.(computed := d.computed + n);
    if e.Len() - e.computed == 0 then e.(stage := Decode) else e
  }

  predicate CanCompute(d: Data, n: nat) { d.computed + n <= d.Len() }

  function Reset(d: Data): Data { d.(computed := 0, stage := Prefill, pending := []) }

  function DeltaOf(d: Data): Delta { Delta(d.pending, d.logprob, d.computed, d.stage) }

  function Sent(d: Data): Data { d.(pending := []) }

  function Apply(d: Data, x: Delta): Data {
    d.(computed := x.computed, logprob := x.logprob, stage := x.stage,
       output := d.output + x.tokens, cached := d.cached + x.tokens)
  }

  // ---------------------------------------------------------------------------
  // Replication
  // ---------------------------------------------------------------------------

  datatype Pair = Pair(primary: Data, replica: Data)

  /** What the worker has, followed by what it has not been told yet, is what the engine has. */
  ghost predicate Coherent(p: Pair) {
    && p.primary.Valid() && p.replica.cached == p.replica.prompt + p.replica.output
    && p.replica.prompt == p.primary.prompt
    && p.replica.output + p.primary.pending == p.primary.output
  }

  /** After a delta the worker agrees with the engine on everything that the model uses. */
  predicate Agree(p: Pair) {
    && p.replica.prompt == p.primary.prompt && p.replica.output == p.primary.output
    && p.replica.cached == p.primary.cached && p.replica.computed == p.primary.computed
    && p.replica.logprob == p.primary.logprob && p.replica.stage == p.primary.stage
  }

  datatype Event = AppendToken(t: TokenId, lp: real) | ComputeTokens(n: nat) | SendDelta | Recompute

  datatype Run = Running(p: Pair) | AssertionFailed

  /** `Recompute` is a reset followed by a full copy to the worker. */
  function Step(p: Pair, e: Event): Run {
    match e
    case AppendToken(t, lp) => Running(p.(primary := Append(p.primary, t, lp)))
    case ComputeTokens(n) =>
      if CanCompute(p.primary, n) then Running(p.(primary := Compute(p.primary, n))) else AssertionFailed
    case SendDelta => Running(Pair(Sent(p.primary), Apply(p.replica, DeltaOf(p.primary))))
    case Recompute => Running(Pair(Reset(p.primary), Reset(p.primary)))
  }

  /** A run from a first full copy. */
  function After(prompt: seq<TokenId>, output: seq<TokenId>, events: seq<Event>): Run {
    if events == [] then Running(Pair(Fresh(prompt, output), Fresh(prompt, output)))
    else match After(prompt, output, events[..|events| - 1])
      case AssertionFailed => AssertionFailed
      case Running(p) => Step(p, events[|events| - 1])
  }

  lemma StepKeeps(p: Pair, e: Event)
    requires Coherent(p)
    ensures Step(p, e).Running? ==> Coherent(Step(p, e).p)
    ensures Step(p, e).Running? && (e.SendDelta? || e.Recompute?) ==> Agree(Step(p, e).p)
  {
    match e
    case AppendToken(t, _) =>
      assert p.replica.output + (p.primary.pending + [t]) == p.replica.output + p.primary.pending + [t];
    case SendDelta =>
      assert p.replica.prompt + p.replica.output + p.primary.pending == p.replica.prompt + (p.replica.output + p.primary.pending);
    case _ =>
  }

  /** Main theorem: over every run, the worker lags exactly by the pending tokens, the cached
      token list is prompt and output, and after every delta or recompute both sides agree. */
  lemma {:induction false} RunIsCoherent(prompt: seq<TokenId>, output: seq<TokenId>, events: seq<Event>)
    ensures var r := After(prompt, output, events);
            r.Running? ==>
              && Coherent(r.p)
              && (events != [] && (events[|events| - 1].SendDelta? || events[|events| - 1].Recompute?) ==> Agree(r.p))
  {
    if events != [] {
      RunIsCoherent(prompt, output, events[..|events| - 1]);
      var r := After(prompt, output, events[..|events| - 1]);
      if r.Running? {
        StepKeeps(r.p, events[|events| - 1]);
      }
    }
  }

  /** Tokens appended in a run, and their log probabilities summed. */
  function Appended(events: seq<Event>): seq<TokenId> {
    if events == [] then []
    else Appended(events[..|events| - 1]) + match events[|events| - 1] case AppendToken(t, _) => [t] case _ => []
  }

  function Logprobs(events: seq<Event>): real {
    if events == [] then 0.0
    else Logprobs(events[..|events| - 1]) + match events[|events| - 1] case AppendToken(_, lp) => lp case _ => 0.0
  }

  /** Tokens reported as computed since the last recompute. */
  function Reported(events: seq<Event>): nat {
    if events == [] then 0
    else match events[|events| - 1]
      case ComputeTokens(n) => Reported(events[..|events| - 1]) + n
      case Recompute => 0
      case _ => Reported(events[..|events| - 1])
  }

  /** The output of the engine is the first output and every appended token, in order, its log
      probability is the sum over those tokens, and its count of computed tokens is what was
      reported since the last recompute, whatever deltas happen in between. */
  lemma {:induction false} OutputIsAppended(prompt: seq<TokenId>, output: seq<TokenId>, events: seq<Event>)
    ensures var r := After(prompt, output, events);
            r.Running? ==>
              && r.p.primary.prompt == prompt && r.p.primary.output == output + Appended(events)
              && r.p.primary.logprob == Logprobs(events) && r.p.primary.computed == Reported(events)
  {
    if events != [] {
      OutputIsAppended(prompt, output, events[..|events| - 1]);
    }
  }

  /** Which runs go on: only a report of more computed tokens than there are tokens fails. */
  lemma RunsOnIff(prompt: seq<TokenId>, output: seq<TokenId>, events: seq<Event>, e: Event)
    requires After(prompt, output, events).Running?
    ensures After(prompt, output, events + [e]).Running? <==>
              (e.ComputeTokens? ==> Reported(events) + e.n <= |prompt| + |output| + |Appended(events)|)
  {
    assert (events + [e])[..|events|] == events;
    OutputIsAppended(prompt, output, events);
  }

  /** At event `k` the computed tokens reached the length, and no recompute has happened since. */
  ghost predicate CaughtUpAt(prompt: seq<TokenId>, output: seq<TokenId>, events: seq<Event>, k: nat) {
    && k < |events| && events[k].ComputeTokens?
    && After(prompt, output, events[..k + 1]).Running?
    && (var d := After(prompt, output, events[..k + 1]).p.primary; d.computed == d.Len())
    && forall j :: k < j < |events| ==> !events[j].Recompute?
  }

  /** The sequence is in its decode stage exactly if it has caught up since the last recompute. */
  lemma {:induction false} StageIff(prompt: seq<TokenId>, output: seq<TokenId>, events: seq<Event>)
    ensures var r := After(prompt, output, events);
            r.Running? ==> (r.p.primary.stage == Decode <==> exists k: nat :: CaughtUpAt(prompt, output, events, k))
  {
    if events != [] && After(prompt, output, events).Running? {
      var n := |events| - 1;
      var before := events[..n];
      StageIff(prompt, output, before);
      assert events[..n + 1] == events;
      forall k: nat | k < n ensures CaughtUpAt(prompt, output, events, k) <==>
                                    CaughtUpAt(prompt, output, before, k) && !events[n].Recompute? {
        assert before[..k + 1] == events[..k + 1];
      }
      LastEvent(prompt, output, events);
    }
  }

  lemma LastEvent(prompt: seq<TokenId>, output: seq<TokenId>, events: seq<Event>)
    requires events != [] && After(prompt, output, events).Running?
    ensures var n := |events| - 1; var e := events[n];
            var d := After(prompt, output, events[..n]).p.primary; var d' := After(prompt, output, events).p.primary;
            && (e.Recompute? ==> d'.stage == Prefill)
            && (CaughtUpAt(prompt, output, events, n) <==> e.ComputeTokens? && d'.computed == d'.Len())
            && (CaughtUpAt(prompt, output, events, n) ==> d'.stage == Decode)
            && (!e.Recompute? && !CaughtUpAt(prompt, output, events, n) ==> d'.stage == d.stage)
  {
    assert events[..|events|] == events;
  }

  /** Without the full copy, a reset loses exactly the pending tokens: the pair stays coherent
      if and only if nothing was pending. */
  lemma ResetAloneIff(p: Pair)
    requires Coherent(p)
    ensures Coherent(p.(primary := Reset(p.primary))) <==> p.primary.pending == []
  {
    if Coherent(p.(primary := Reset(p.primary))) {
      assert |p.replica.output| + |p.primary.pending| == |p.primary.output|;
    }
  }

  /** A full copy taken while tokens are pending would send them twice. */
  lemma CopyIff(p: Pair)
    requires Coherent(p)
    ensures Coherent(p.(replica := p.primary)) <==> p.primary.pending == []
  {
    if Coherent(p.(replica := p.primary)) {
      assert |p.primary.output| + |p.primary.pending| == |p.primary.output|;
    }
  }

  // ---------------------------------------------------------------------------
  // Token deltas for the caller
  // ---------------------------------------------------------------------------

  /** What the token getter returns in delta mode: one bare token, or a list. */
  datatype Tokens = One(t: TokenId) | Many(ts: seq<TokenId>) {
    function Ids(): seq<TokenId> { match this case One(t) => [t] case Many(ts) => ts }
  }

  /** The getter reads the tail of the cached list. */
  function TokenDelta(d: Data, offset: nat): Tokens
    requires d.Valid() && offset <= |d.output|
  {
    var n := |d.output| - offset;
    if n == 1 then One(d.cached[|d.cached| - 1])
    else if n == 0 then Many([])
    else Many(d.cached[|d.cached| - n..])
  }

  /** It is exactly the output from the last offset on, so deltas concatenate to the output. */
  lemma TokenDeltaIs(d: Data, offset: nat)
    requires d.Valid() && offset <= |d.output|
    ensures TokenDelta(d, offset).Ids() == d.output[offset..]
    ensures d.output[..offset] + TokenDelta(d, offset).Ids() == d.output
  {
  }

  // ---------------------------------------------------------------------------
  // The object
  // ---------------------------------------------------------------------------

  class SequenceData {
    const prompt: seq<TokenId>
    var output: seq<TokenId>
    var logprob: real
    var computed: int
    var stage: Stage
    var cached: seq<TokenId>
    var pending: seq<TokenId>

    ghost function Now(): Data
      reads this
    {
      Data(prompt, output, logprob, computed, stage, cached, pending)
    }

    constructor (prompt: seq<TokenId>, output: seq<TokenId>)
      ensures Now() == Fresh(prompt, output)
    {
      this.prompt, this.output, logprob, computed := prompt, output, 0.0, 0;
      stage, cached, pending := Prefill, prompt + output, [];
    }

    method AppendTokenId(t: TokenId, lp: real)
      modifies this
      ensures Now() == Append(old(Now()), t, lp)
    {
      output := output + [t];
      pending := pending + [t];
      cached := cached + [t];
      logprob := logprob + lp;
    }

    /** Fails when more tokens are reported than exist; the count has moved by then. */
    method UpdateNumComputedTokens(n: nat) returns (ok: bool)
      modifies this
      ensures ok <==> CanCompute(old(Now()), n)
      ensures Now() == if ok then Compute(old(Now()), n) else old(Now()).(computed := old(computed) + n)
    {
      computed := computed + n;
      if computed > |output| + |prompt| {
        return false;
      }
      if |output| + |prompt| - computed == 0 {
        stage := Decode;
      }
      ok := true;
    }

    method ResetStateForRecompute()
      modifies this
      ensures Now() == Reset(old(Now()))
    {
      computed, stage, pending := 0, Prefill, [];
    }

    method GetDeltaAndReset() returns (x: Delta)
      modifies this
      ensures x == DeltaOf(old(Now())) && Now() == Sent(old(Now()))
    {
      x := Delta(pending, logprob, computed, stage);
      pending := [];
    }

    method ApplyDelta(x: Delta)
      modifies this
      ensures Now() == Apply(old(Now()), x)
    {
      computed, logprob, stage := x.computed, x.logprob, x.stage;
      output := output + x.tokens;
      cached := cached + x.tokens;
    }
  }
}
