/** Merging of request outputs (vllm/outputs.py): a request's streamed outputs are folded into
    one.  Completions are values; sharing of completion objects between outputs is not
    modelled. */
module RequestOutput {
  import opened Wrappers

  /** One completion of a request; `logprobs` is absent unless requested. */
  datatype Completion = Completion(index: int, text: string, tokens: seq<int>, cumulative: Option<real>,
                                   logprobs: Option<seq<real>>, finish: Option<string>, stopReason: Option<string>)

  /** Merging would extend logprobs that are not there: the code asserts against it. */
  predicate Clash(x: Completion, y: Completion) {
    x.logprobs.None? && y.logprobs.Some? && y.logprobs.value != []
  }

  /** The later completion `y` appended to `x`. */
  function Join(x: Completion, y: Completion): Completion {
    Completion(x.index, x.text + y.text, x.tokens + y.tokens, y.cumulative,
               if x.logprobs.Some? && y.logprobs.Some? then Some(x.logprobs.value + y.logprobs.value) else x.logprobs,
               y.finish, y.stopReason)
  }

  /** The first completion with index `i`, or the end. */
  function Position(a: seq<Completion>, i: int): (p: nat)
    ensures p <= |a| && (p < |a| ==> a[p].index == i) && forall k :: 0 <= k < p ==> a[k].index != i
  {
    if a == [] then 0 else if a[0].index == i then 0 else 1 + Position(a[1..], i)
  }

  function Lookup(a: seq<Completion>, i: int): Option<Completion> {
    if Position(a, i) < |a| then Some(a[Position(a, i)]) else None
  }

  datatype Merged = Ok(outs: seq<Completion>) | AssertionFailed

  /** Merge one completion: into the first with its index, or at the end. */
  function MergeOne(a: seq<Completion>, c: Completion, aggregate: bool): Merged {
    var p := Position(a, c.index);
    if p == |a| then Ok(a + [c])
    else if !aggregate then Ok(a[p := c])
    else if Clash(a[p], c) then AssertionFailed
    else Ok(a[p := Join(a[p], c)])
  }

  function Merge(a: seq<Completion>, b: seq<Completion>, aggregate: bool): Merged {
    if b == [] then Ok(a)
    else match Merge(a, b[..|b| - 1], aggregate)
      case AssertionFailed => AssertionFailed
      case Ok(m) => MergeOne(m, b[|b| - 1], aggregate)
  }

  /** The inner loop: the position of an index, or the end. */
  method FindIndex(a: seq<Completion>, index: int) returns (i: nat)
    ensures i == Position(a, index)
  {
    i := 0;
    while i < |a| && a[i].index != index
      invariant 0 <= i <= |a|
      invariant forall k :: 0 <= k < i ==> a[k].index != index
    {
      i := i + 1;
    }
  }

  class Output {
    var outputs: seq<Completion>
    var finished: bool
    var transfer: Option<string>

    constructor (outputs: seq<Completion>, finished: bool, transfer: Option<string>)
      ensures this.outputs == outputs && this.finished == finished && this.transfer == transfer
    {
      this.outputs, this.finished, this.transfer := outputs, finished, transfer;
    }

    /** Merge a subsequent output into this one. */
    method Add(next: seq<Completion>, nextFinished: bool, nextTransfer: Option<string>, aggregate: bool) returns (ok: bool)
      modifies this
      ensures finished == (old(finished) || nextFinished) && transfer == nextTransfer
      ensures ok <==> Merge(old(outputs), next, aggregate).Ok?
      ensures ok ==> outputs == Merge(old(outputs), next, aggregate).outs
    {
      finished := finished || nextFinished;
      transfer := nextTransfer;
      for n := 0 to |next|
        invariant finished == (old(finished) || nextFinished) && transfer == nextTransfer
        invariant Merge(old(outputs), next[..n], aggregate) == Ok(outputs)
      {
        MergeSteps(old(outputs), next, n, aggregate);
        var c := next[n];
        var i := FindIndex(outputs, c.index);
        if i == |outputs| {
          outputs := outputs + [c];
        } else if aggregate {
          if outputs[i].logprobs.None? && c.logprobs.Some? && c.logprobs.value != [] {
            return false;
          }
          outputs := outputs[i := Join(outputs[i], c)];
        } else {
          outputs := outputs[i := c];
        }
      }
      assert next[..|next|] == next;
      ok := true;
    }
  }

  /** The outcome after one more completion, and that a failure stays one. */
  lemma MergeSteps(a: seq<Completion>, b: seq<Completion>, n: nat, aggregate: bool)
    requires n < |b| && Merge(a, b[..n], aggregate).Ok?
    ensures Merge(a, b[..n + 1], aggregate) == MergeOne(Merge(a, b[..n], aggregate).outs, b[n], aggregate)
    ensures Merge(a, b[..n + 1], aggregate).AssertionFailed? ==> Merge(a, b, aggregate).AssertionFailed?
  {
    assert b[..n + 1][..n] == b[..n];
    if Merge(a, b[..n + 1], aggregate).AssertionFailed? {
      FailureStays(a, b, n + 1, aggregate);
    }
  }

  lemma {:induction false} FailureStays(a: seq<Completion>, b: seq<Completion>, n: nat, aggregate: bool)
    requires n <= |b| && Merge(a, b[..n], aggregate).AssertionFailed?
    ensures Merge(a, b, aggregate).AssertionFailed?
  {
    if n == |b| {
      assert b[..n] == b;
    } else {
      assert b[..|b| - 1][..n] == b[..n];
      FailureStays(a, b[..|b| - 1], n, aggregate);
    }
  }

  // ---------------------------------------------------------------------------
  // The merge, index by index
  // ---------------------------------------------------------------------------

  ghost predicate Distinct(a: seq<Completion>) {
    forall i, j :: 0 <= i < j < |a| ==> a[i].index != a[j].index
  }

  function JoinAll(x: Option<Completion>, y: Option<Completion>, aggregate: bool): Option<Completion> {
    if x.None? then y else if y.None? then x else if aggregate then Some(Join(x.value, y.value)) else y
  }

  predicate Clashes(x: Option<Completion>, y: Option<Completion>) {
    x.Some? && y.Some? && Clash(x.value, y.value)
  }

  lemma LookupIs(a: seq<Completion>, k: nat)
    requires k < |a| && Distinct(a)
    ensures Lookup(a, a[k].index) == Some(a[k])
  {
  }

  lemma PositionIn(a: seq<Completion>, i: int, p: nat)
    requires p <= |a| && (p < |a| ==> a[p].index == i) && forall k :: 0 <= k < p ==> a[k].index != i
    ensures Position(a, i) == p
  {
  }

  lemma MergeOneLooksUp(a: seq<Completion>, c: Completion, aggregate: bool, i: int)
    requires Distinct(a) && MergeOne(a, c, aggregate).Ok?
    ensures var m := MergeOne(a, c, aggregate).outs;
            && Distinct(m)
            && Lookup(m, i) == if i == c.index then JoinAll(Lookup(a, i), Some(c), aggregate) else Lookup(a, i)
  {
    var m := MergeOne(a, c, aggregate).outs;
    var p := Position(a, c.index);
    var q := Position(a, i);
    if i == c.index || q < |a| {
      PositionIn(m, i, q);
    } else {
      PositionIn(m, i, |m|);
    }
  }

  lemma LookupOfPrefix(b: seq<Completion>, i: int)
    requires b != [] && Distinct(b)
    ensures Distinct(b[..|b| - 1])
    ensures i != b[|b| - 1].index ==> Lookup(b[..|b| - 1], i) == Lookup(b, i)
    ensures i == b[|b| - 1].index ==> Lookup(b[..|b| - 1], i) == None && Lookup(b, i) == Some(b[|b| - 1])
  {
    var q := Position(b, i);
    if i == b[|b| - 1].index {
      PositionIn(b, i, |b| - 1);
      PositionIn(b[..|b| - 1], i, |b| - 1);
    } else if q < |b| {
      PositionIn(b[..|b| - 1], i, q);
    } else {
      PositionIn(b[..|b| - 1], i, |b| - 1);
    }
  }

  /** With distinct indices, merging joins the completions index by index. */
  lemma {:induction false} MergeLooksUp(a: seq<Completion>, b: seq<Completion>, aggregate: bool, i: int)
    requires Distinct(a) && Distinct(b) && Merge(a, b, aggregate).Ok?
    ensures var m := Merge(a, b, aggregate).outs;
            Distinct(m) && Lookup(m, i) == JoinAll(Lookup(a, i), Lookup(b, i), aggregate)
  {
    if b != [] {
      LookupOfPrefix(b, i);
      MergeLooksUp(a, b[..|b| - 1], aggregate, i);
      MergeOneLooksUp(Merge(a, b[..|b| - 1], aggregate).outs, b[|b| - 1], aggregate, i);
    }
  }

  /** No index merges logprobs into a completion that has none. */
  ghost predicate NoClash(a: seq<Completion>, b: seq<Completion>) {
    forall i :: !Clashes(Lookup(a, i), Lookup(b, i))
  }

  /** The merge fails exactly when some index would extend missing logprobs. */
  lemma {:induction false} MergeOkIff(a: seq<Completion>, b: seq<Completion>)
    requires Distinct(a) && Distinct(b)
    ensures Merge(a, b, true).Ok? <==> NoClash(a, b)
  {
    if b != [] {
      var d, c := b[..|b| - 1], b[|b| - 1];
      LookupOfPrefix(b, c.index);
      MergeOkIff(a, d);
      forall i ensures Clashes(Lookup(a, i), Lookup(b, i)) <==>
                       Clashes(Lookup(a, i), Lookup(d, i)) || (i == c.index && Clashes(Lookup(a, i), Some(c)))
      {
        LookupOfPrefix(b, i);
      }
      if Merge(a, d, true).Ok? {
        MergeLooksUp(a, d, true, c.index);
        assert Lookup(Merge(a, d, true).outs, c.index) == Lookup(a, c.index);
      }
    }
  }

  // ---------------------------------------------------------------------------
  // Associativity
  // ---------------------------------------------------------------------------

  function Indices(a: seq<Completion>): (r: seq<int>)
    ensures |r| == |a|
  {
    seq(|a|, k requires 0 <= k < |a| => a[k].index)
  }

  /** The elements of `b` that are not in `a`, in order. */
  function New(a: seq<int>, b: seq<int>): seq<int> {
    if b == [] then []
    else New(a, b[..|b| - 1]) + if b[|b| - 1] in a then [] else [b[|b| - 1]]
  }

  lemma {:induction false} NewIs(a: seq<int>, b: seq<int>, x: int)
    ensures x in New(a, b) <==> x in b && x !in a
  {
    if b != [] {
      NewIs(a, b[..|b| - 1], x);
      assert b == b[..|b| - 1] + [b[|b| - 1]];
    }
  }

  lemma {:induction false} NewOfSum(a: seq<int>, x: seq<int>, y: seq<int>)
    ensures New(a, x + y) == New(a, x) + New(a, y)
  {
    if y == [] {
      assert x + y == x;
    } else {
      assert (x + y)[..|x + y| - 1] == x + y[..|y| - 1];
      NewOfSum(a, x, y[..|y| - 1]);
    }
  }

  lemma {:induction false} NewTwice(a: seq<int>, b: seq<int>, c: seq<int>)
    ensures New(a + New(a, b), c) == New(a, New(b, c))
  {
    if c != [] {
      var x := c[|c| - 1];
      NewTwice(a, b, c[..|c| - 1]);
      NewIs(a, b, x);
      if x in b {
        assert New(b, c) == New(b, c[..|c| - 1]);
      } else {
        NewOfSum(a, New(b, c[..|c| - 1]), [x]);
        assert New(a, [x]) == if x in a then [] else [x] by { assert [x][..0] == []; }
      }
    }
  }

  lemma NewAssociates(a: seq<int>, b: seq<int>, c: seq<int>)
    ensures (a + New(a, b)) + New(a + New(a, b), c) == a + New(a, b + New(b, c))
  {
    NewTwice(a, b, c);
    NewOfSum(a, b, New(b, c));
  }

  /** The merge keeps the order of `a` and appends the new indices of `b` in their order. */
  lemma {:induction false} MergeOrder(a: seq<Completion>, b: seq<Completion>)
    requires Distinct(a) && Distinct(b) && Merge(a, b, true).Ok?
    ensures Indices(Merge(a, b, true).outs) == Indices(a) + New(Indices(a), Indices(b))
  {
    if b != [] {
      var d, c := b[..|b| - 1], b[|b| - 1];
      LookupOfPrefix(b, c.index);
      MergeOrder(a, d);
      var m := Merge(a, d, true).outs;
      MergeLooksUp(a, d, true, c.index);
      assert Indices(b)[..|b| - 1] == Indices(d);
      InIndices(a, c.index);
      InIndices(m, c.index);
      assert Indices(MergeOne(m, c, true).outs) == Indices(m) + if c.index in Indices(a) then [] else [c.index];
    }
  }

  lemma InIndices(a: seq<Completion>, i: int)
    ensures i in Indices(a) <==> Lookup(a, i).Some?
  {
    if Lookup(a, i).Some? {
      assert Indices(a)[Position(a, i)] == i;
    }
  }

  /** Outputs with the same indices in the same order and the same completions are equal. */
  lemma SameOutputs(a: seq<Completion>, b: seq<Completion>)
    requires Distinct(a) && Distinct(b) && Indices(a) == Indices(b) && forall i :: Lookup(a, i) == Lookup(b, i)
    ensures a == b
  {
    assert |a| == |Indices(a)| == |Indices(b)| == |b|;
    forall k | 0 <= k < |a| ensures a[k] == b[k] {
      assert a[k].index == Indices(a)[k] == Indices(b)[k] == b[k].index;
      LookupIs(a, k);
      LookupIs(b, k);
    }
  }

  /** Joining is associative where it does not fail; and where the right-nested join does not
      fail, the left-nested one does not either. */
  lemma JoinAssociates(x: Option<Completion>, y: Option<Completion>, z: Option<Completion>)
    requires !Clashes(y, z) && !Clashes(x, JoinAll(y, z, true))
    ensures !Clashes(x, y) && !Clashes(JoinAll(x, y, true), z)
    ensures JoinAll(JoinAll(x, y, true), z, true) == JoinAll(x, JoinAll(y, z, true), true)
  {
    if x.Some? && y.Some? && z.Some? {
      assert x.value.text + y.value.text + z.value.text == x.value.text + (y.value.text + z.value.text);
      assert x.value.tokens + y.value.tokens + z.value.tokens == x.value.tokens + (y.value.tokens + z.value.tokens);
      LogprobsAssociate(x.value, y.value, z.value);
    }
  }

  lemma LogprobsAssociate(x: Completion, y: Completion, z: Completion)
    requires !Clash(y, z) && !Clash(x, Join(y, z))
    ensures Join(Join(x, y), z).logprobs == Join(x, Join(y, z)).logprobs
  {
    if x.logprobs.Some? && y.logprobs.Some? && z.logprobs.Some? {
      assert x.logprobs.value + y.logprobs.value + z.logprobs.value == x.logprobs.value + (y.logprobs.value + z.logprobs.value);
    }
    if z.logprobs.Some? && z.logprobs.value == [] && x.logprobs.Some? {
      assert x.logprobs.value + z.logprobs.value == x.logprobs.value;
    }
  }

  /** The merge is associative: if merging `c` into `b` first succeeds, so does merging in
      order, with the same result. */
  lemma MergeAssociates(a: seq<Completion>, b: seq<Completion>, c: seq<Completion>)
    requires Distinct(a) && Distinct(b) && Distinct(c)
    requires Merge(b, c, true).Ok? && Merge(a, Merge(b, c, true).outs, true).Ok?
    ensures Merge(a, b, true).Ok?
    ensures Merge(Merge(a, b, true).outs, c, true) == Merge(a, Merge(b, c, true).outs, true)
  {
    var bc := Merge(b, c, true).outs;
    MergeLooksUp(b, c, true, 0);
    LeftSucceeds(a, b, c);
    var ab := Merge(a, b, true).outs;
    var l, r := Merge(ab, c, true).outs, Merge(a, bc, true).outs;
    MergeLooksUp(a, b, true, 0);
    MergeLooksUp(ab, c, true, 0);
    MergeLooksUp(a, bc, true, 0);
    forall i ensures Lookup(l, i) == Lookup(r, i) {
      SameLookup(a, b, c, i);
    }
    SameOrder(a, b, c);
    SameOutputs(l, r);
  }

  lemma LeftSucceeds(a: seq<Completion>, b: seq<Completion>, c: seq<Completion>)
    requires Distinct(a) && Distinct(b) && Distinct(c)
    requires Merge(b, c, true).Ok? && Merge(a, Merge(b, c, true).outs, true).Ok?
    ensures Merge(a, b, true).Ok? && Merge(Merge(a, b, true).outs, c, true).Ok?
  {
    var bc := Merge(b, c, true).outs;
    MergeLooksUp(b, c, true, 0);
    MergeOkIff(b, c);
    MergeOkIff(a, bc);
    forall i ensures !Clashes(Lookup(a, i), Lookup(b, i)) {
      MergeLooksUp(b, c, true, i);
      JoinAssociates(Lookup(a, i), Lookup(b, i), Lookup(c, i));
    }
    MergeOkIff(a, b);
    var ab := Merge(a, b, true).outs;
    MergeLooksUp(a, b, true, 0);
    forall i ensures !Clashes(Lookup(ab, i), Lookup(c, i)) {
      MergeLooksUp(b, c, true, i);
      MergeLooksUp(a, b, true, i);
      JoinAssociates(Lookup(a, i), Lookup(b, i), Lookup(c, i));
    }
    MergeOkIff(ab, c);
  }

  /** The converse: if merging in order succeeds, merging `c` into `b` first succeeds exactly
      when `b` and `c` can be merged on their own. */
  lemma RightSucceedsIff(a: seq<Completion>, b: seq<Completion>, c: seq<Completion>)
    requires Distinct(a) && Distinct(b) && Distinct(c)
    requires Merge(a, b, true).Ok? && Merge(Merge(a, b, true).outs, c, true).Ok?
    ensures Merge(b, c, true).Ok? && Merge(a, Merge(b, c, true).outs, true).Ok? <==> NoClash(b, c)
  {
    MergeOkIff(b, c);
    if NoClash(b, c) {
      var ab, bc := Merge(a, b, true).outs, Merge(b, c, true).outs;
      MergeLooksUp(a, b, true, 0);
      MergeLooksUp(b, c, true, 0);
      MergeOkIff(a, b);
      MergeOkIff(ab, c);
      forall i ensures !Clashes(Lookup(a, i), Lookup(bc, i)) {
        MergeLooksUp(a, b, true, i);
        MergeLooksUp(b, c, true, i);
        assert !Clashes(Lookup(a, i), Lookup(b, i)) && !Clashes(Lookup(ab, i), Lookup(c, i));
      }
      MergeOkIff(a, bc);
    }
  }

  lemma SameLookup(a: seq<Completion>, b: seq<Completion>, c: seq<Completion>, i: int)
    requires Distinct(a) && Distinct(b) && Distinct(c) && Merge(b, c, true).Ok? && Merge(a, b, true).Ok?
    requires Merge(a, Merge(b, c, true).outs, true).Ok? && Merge(Merge(a, b, true).outs, c, true).Ok?
    ensures Lookup(Merge(Merge(a, b, true).outs, c, true).outs, i) == Lookup(Merge(a, Merge(b, c, true).outs, true).outs, i)
  {
    var ab, bc := Merge(a, b, true).outs, Merge(b, c, true).outs;
    MergeLooksUp(a, b, true, i);
    MergeLooksUp(b, c, true, i);
    MergeLooksUp(ab, c, true, i);
    MergeLooksUp(a, bc, true, i);
    MergeOkIff(b, c);
    MergeOkIff(a, bc);
    JoinAssociates(Lookup(a, i), Lookup(b, i), Lookup(c, i));
  }

  lemma SameOrder(a: seq<Completion>, b: seq<Completion>, c: seq<Completion>)
    requires Distinct(a) && Distinct(b) && Distinct(c) && Merge(b, c, true).Ok? && Merge(a, b, true).Ok?
    requires Merge(a, Merge(b, c, true).outs, true).Ok? && Merge(Merge(a, b, true).outs, c, true).Ok?
    ensures Indices(Merge(Merge(a, b, true).outs, c, true).outs) == Indices(Merge(a, Merge(b, c, true).outs, true).outs)
  {
    var ab, bc := Merge(a, b, true).outs, Merge(b, c, true).outs;
    var ia, ib, ic := Indices(a), Indices(b), Indices(c);
    MergeLooksUp(a, b, true, 0);
    MergeLooksUp(b, c, true, 0);
    assert Indices(Merge(ab, c, true).outs) == (ia + New(ia, ib)) + New(ia + New(ia, ib), ic) by {
      MergeOrder(a, b);
      MergeOrder(ab, c);
    }
    assert Indices(Merge(a, bc, true).outs) == ia + New(ia, ib + New(ib, ic)) by {
      MergeOrder(b, c);
      MergeOrder(a, bc);
    }
    NewAssociates(ia, ib, ic);
  }

  /** Without aggregation the later completion of an index replaces the earlier one, and nothing
      fails. */
  lemma {:induction false} MergeReplaces(a: seq<Completion>, b: seq<Completion>, i: int)
    requires Distinct(a) && Distinct(b)
    ensures Merge(a, b, false).Ok?
    ensures Lookup(Merge(a, b, false).outs, i) == if Lookup(b, i).Some? then Lookup(b, i) else Lookup(a, i)
  {
    NeverFails(a, b);
    MergeLooksUp(a, b, false, i);
  }

  lemma {:induction false} NeverFails(a: seq<Completion>, b: seq<Completion>)
    ensures Merge(a, b, false).Ok?
  {
    if b != [] {
      NeverFails(a, b[..|b| - 1]);
    }
  }

  // ---------------------------------------------------------------------------
  // Folding a stream of outputs
  // ---------------------------------------------------------------------------

  function Fold(outs: seq<seq<Completion>>): Merged
    requires |outs| >= 1
  {
    if |outs| == 1 then Ok(outs[0])
    else match Fold(outs[..|outs| - 1])
      case AssertionFailed => AssertionFailed
      case Ok(m) => Merge(m, outs[|outs| - 1], true)
  }

  function TextOf(a: seq<Completion>, i: int): string { if Lookup(a, i).Some? then Lookup(a, i).value.text else "" }
  function TokensOf(a: seq<Completion>, i: int): seq<int> { if Lookup(a, i).Some? then Lookup(a, i).value.tokens else [] }

  function AllText(outs: seq<seq<Completion>>, i: int): string {
    if outs == [] then "" else AllText(outs[..|outs| - 1], i) + TextOf(outs[|outs| - 1], i)
  }

  function AllTokens(outs: seq<seq<Completion>>, i: int): seq<int> {
    if outs == [] then [] else AllTokens(outs[..|outs| - 1], i) + TokensOf(outs[|outs| - 1], i)
  }

  /** Folding all outputs of a stream rebuilds, for every index, the concatenation of all its
      texts and of all its tokens. */
  lemma {:induction false} FoldRebuilds(outs: seq<seq<Completion>>, i: int)
    requires |outs| >= 1 && (forall k :: 0 <= k < |outs| ==> Distinct(outs[k])) && Fold(outs).Ok?
    ensures Distinct(Fold(outs).outs)
    ensures TextOf(Fold(outs).outs, i) == AllText(outs, i) && TokensOf(Fold(outs).outs, i) == AllTokens(outs, i)
  {
    var n := |outs| - 1;
    if n > 0 {
      FoldRebuilds(outs[..n], i);
      MergeAppends(Fold(outs[..n]).outs, outs[n], i);
    } else {
      assert AllText(outs[..n], i) == "" && AllTokens(outs[..n], i) == [];
    }
  }

  lemma MergeAppends(a: seq<Completion>, b: seq<Completion>, i: int)
    requires Distinct(a) && Distinct(b) && Merge(a, b, true).Ok?
    ensures var m := Merge(a, b, true).outs;
            && Distinct(m)
            && TextOf(m, i) == TextOf(a, i) + TextOf(b, i) && TokensOf(m, i) == TokensOf(a, i) + TokensOf(b, i)
  {
    MergeLooksUp(a, b, true, i);
  }

  /** The last completion with index `i` in a stream. */
  function Latest(outs: seq<seq<Completion>>, i: int): Option<Completion> {
    if outs == [] then None
    else if Lookup(outs[|outs| - 1], i).Some? then Lookup(outs[|outs| - 1], i)
    else Latest(outs[..|outs| - 1], i)
  }

  function LogprobsOf(a: seq<Completion>, i: int): seq<real> {
    if Lookup(a, i).Some? && Lookup(a, i).value.logprobs.Some? then Lookup(a, i).value.logprobs.value else []
  }

  function AllLogprobs(outs: seq<seq<Completion>>, i: int): seq<real> {
    if outs == [] then [] else AllLogprobs(outs[..|outs| - 1], i) + LogprobsOf(outs[|outs| - 1], i)
  }

  /** Besides, the fold has the log probabilities of all outputs, and the cumulative log
      probability, finish reason and stop reason of the latest. */
  lemma {:induction false} FoldKeepsLatest(outs: seq<seq<Completion>>, i: int)
    requires |outs| >= 1 && (forall k :: 0 <= k < |outs| ==> Distinct(outs[k])) && Fold(outs).Ok?
    ensures Distinct(Fold(outs).outs)
    ensures LogprobsOf(Fold(outs).outs, i) == AllLogprobs(outs, i)
    ensures Lookup(Fold(outs).outs, i).Some? <==> Latest(outs, i).Some?
    ensures Latest(outs, i).Some? ==>
              var c := Lookup(Fold(outs).outs, i).value;
              && c.index == i && c.cumulative == Latest(outs, i).value.cumulative
              && c.finish == Latest(outs, i).value.finish && c.stopReason == Latest(outs, i).value.stopReason
  {
    var n := |outs| - 1;
    if n > 0 {
      FoldKeepsLatest(outs[..n], i);
      var m := Fold(outs[..n]).outs;
      MergeLooksUp(m, outs[n], true, i);
      MergeOkIff(m, outs[n]);
      assert !Clashes(Lookup(m, i), Lookup(outs[n], i));
    } else {
      assert AllLogprobs(outs[..n], i) == [] && Latest(outs[..n], i) == None;
    }
  }

  /** The first completion with index `i` in a stream. */
  function Earliest(outs: seq<seq<Completion>>, i: int): Option<Completion> {
    if outs == [] then None
    else if Earliest(outs[..|outs| - 1], i).Some? then Earliest(outs[..|outs| - 1], i)
    else Lookup(outs[|outs| - 1], i)
  }

  /** Output `b` has log probabilities for index `i`, whose first output had none. */
  predicate LateLogprobs(outs: seq<seq<Completion>>, i: int, b: nat) {
    b < |outs| && Clashes(Earliest(outs[..b], i), Lookup(outs[b], i))
  }

  /** The fold of a stream has log probabilities for an index exactly if its first output does. */
  lemma {:induction false} FoldHasFirst(outs: seq<seq<Completion>>, i: int)
    requires |outs| >= 1 && (forall k :: 0 <= k < |outs| ==> Distinct(outs[k])) && Fold(outs).Ok?
    ensures Distinct(Fold(outs).outs)
    ensures Lookup(Fold(outs).outs, i).Some? <==> Earliest(outs, i).Some?
    ensures Earliest(outs, i).Some? ==> (Lookup(Fold(outs).outs, i).value.logprobs.None? <==> Earliest(outs, i).value.logprobs.None?)
  {
    var n := |outs| - 1;
    if n > 0 {
      FoldHasFirst(outs[..n], i);
      MergeLooksUp(Fold(outs[..n]).outs, outs[n], true, i);
    } else {
      assert Earliest(outs[..n], i) == None;
    }
  }

  /** Folding a stream succeeds if and only if no index gets log probabilities after a first
      output that had none. */
  lemma {:induction false} FoldOkIff(outs: seq<seq<Completion>>)
    requires |outs| >= 1 && forall k :: 0 <= k < |outs| ==> Distinct(outs[k])
    ensures Fold(outs).Ok? <==> forall i: int, b: nat :: !LateLogprobs(outs, i, b)
  {
    var n := |outs| - 1;
    if n == 0 {
      forall i: int, b: nat ensures !LateLogprobs(outs, i, b) {
        assert b < |outs| ==> outs[..b] == [];
      }
    } else {
      var p := outs[..n];
      FoldOkIff(p);
      forall i: int, b: nat | b < n ensures LateLogprobs(outs, i, b) <==> LateLogprobs(p, i, b) {
        assert p[..b] == outs[..b];
      }
      if Fold(p).Ok? {
        LastClash(outs, n);
      }
    }
  }

  lemma LastClash(outs: seq<seq<Completion>>, n: nat)
    requires n >= 1 && |outs| == n + 1 && (forall k :: 0 <= k < |outs| ==> Distinct(outs[k])) && Fold(outs[..n]).Ok?
    ensures Fold(outs).Ok? <==> forall i: int :: !LateLogprobs(outs, i, n)
  {
    var m := Fold(outs[..n]).outs;
    FoldHasFirst(outs[..n], 0);
    MergeOkIff(m, outs[n]);
    forall i: int ensures Clashes(Lookup(m, i), Lookup(outs[n], i)) <==> LateLogprobs(outs, i, n) {
      FoldHasFirst(outs[..n], i);
    }
  }
}
