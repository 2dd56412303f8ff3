/** The log probabilities of a streamed sequence when client and engine share a process.  The
    completion of a sequence without tokens refers to the sequence's own list (vllm/outputs.py),
    which later tokens extend, and which the client extends again when it adds the next output. */
module SharedLogprobs {
  import opened Wrappers
  import opened RequestStream

  /** What a completion carries: a list of its own, the list of the sequence itself, or None. */
  datatype List = Own(items: seq<real>) | Shared | Absent

  /** The list of the sequence, the completions that the client has not added yet, the one that it
      adds them to, and whether its assertion has failed. */
  datatype Lists = Lists(list: seq<real>, pending: seq<List>, held: Option<List>, failed: bool) {
    function Items(m: List): seq<real> {
      match m
      case Own(items) => items
      case Shared => list
      case Absent => []
    }

    /** What the client holds now. */
    function Held(): seq<real> { if held.Some? then Items(held.value) else [] }

    /** All completions sent so far, those already added taken together. */
    function Queue(): seq<List> { (if held.Some? then [held.value] else []) + pending }
  }

  /** The last `n` elements, as the slice `[-n:]` takes them. */
  function LastOf(list: seq<real>, n: nat): seq<real> { if n <= |list| then list[|list| - n..] else list }

  /** The log probabilities of a completion with `n` new tokens. */
  function Carried(wanted: bool, list: seq<real>, n: nat): List {
    if !wanted then Absent
    else if list == [] then Shared
    else if n > 0 then Own(LastOf(list, n))
    else Absent
  }

  /** The client adds the next completion; the first one is kept as it is. */
  function AddNext(c: Lists): Lists {
    if c.failed || c.pending == [] then c
    else
      var d, items := c.(pending := c.pending[1..]), c.Items(c.pending[0]);
      if c.held.None? then d.(held := Some(c.pending[0]))
      else if items == [] then d
      else match c.held.value
        case Absent => d.(failed := true)
        case Own(held) => d.(held := Some(Own(held + items)))
        case Shared => d.(list := c.list + items)
  }

  /** The assertion fails exactly when log probabilities would extend a completion without any. */
  lemma AddFailsIff(c: Lists)
    ensures AddNext(c).failed <==> c.failed || (c.pending != [] && c.held == Some(Absent) && c.Items(c.pending[0]) != [])
  {
  }

  // ---------------------------------------------------------------------------
  // One sequence
  // ---------------------------------------------------------------------------

  /** What happens to the lists of a sequence: a token, a report, or the client adds an output. */
  datatype Act = Append(logprob: real) | Send | Add

  /** The log probabilities of all tokens, how many of them are reported, and the lists. */
  datatype State = State(logprobs: seq<real>, sent: nat, lists: Lists)

  function Step(wanted: bool, st: State, a: Act): (r: State)
    requires st.sent <= |st.logprobs|
    ensures r.sent <= |r.logprobs|
  {
    var c := st.lists;
    match a
    case Append(x) => State(st.logprobs + [x], st.sent, c.(list := c.list + [x]))
    case Send => State(st.logprobs, |st.logprobs|, c.(pending := c.pending + [Carried(wanted, c.list, |st.logprobs| - st.sent)]))
    case Add => st.(lists := AddNext(c))
  }

  function Play(wanted: bool, acts: seq<Act>): (r: State)
    ensures r.sent <= |r.logprobs|
  {
    if acts == [] then State([], 0, Lists([], [], None, false))
    else Step(wanted, Play(wanted, acts[..|acts| - 1]), acts[|acts| - 1])
  }

  // ---------------------------------------------------------------------------
  // Three kinds of runs
  // ---------------------------------------------------------------------------

  predicate HasToken(acts: seq<Act>) { exists k :: 0 <= k < |acts| && acts[k].Append? }

  /** A report precedes the first token. */
  predicate ReportedEarly(acts: seq<Act>) {
    exists j :: 0 <= j < |acts| && acts[j].Send? && forall k :: 0 <= k < j ==> !acts[k].Append?
  }

  /** No token yet: every completion refers to the empty list. */
  predicate Silent(c: Lists) {
    !c.failed && c.list == [] && forall j :: 0 <= j < |c.Queue()| ==> c.Queue()[j].Shared?
  }

  function OwnLength(ms: seq<List>): nat {
    if ms == [] then 0 else (if ms[0].Own? then |ms[0].items| else 0) + OwnLength(ms[1..])
  }

  /** The client adds to the sequence's list, which has `have` tokens of which `sent` are reported:
      it counts, or will count, the reported ones twice. */
  predicate Doubled(c: Lists, have: nat, sent: nat) {
    && !c.failed && |c.Queue()| > 0 && c.Queue()[0].Shared?
    && |c.list| >= have && |c.list| + OwnLength(c.pending) >= have + sent
  }

  function Joined(ms: seq<List>): seq<real> {
    if ms == [] then [] else (if ms[0].Own? then ms[0].items else []) + Joined(ms[1..])
  }

  /** All lists are the client's own, and together they are the reported part. */
  predicate Faithful(c: Lists, logprobs: seq<real>, sent: nat)
    requires sent <= |logprobs|
  {
    && !c.failed && c.list == logprobs && Joined(c.Queue()) == logprobs[..sent]
    && (forall j :: 0 <= j < |c.Queue()| ==> !c.Queue()[j].Shared?)
    && (|c.Queue()| > 0 ==> c.Queue()[0].Own?)
  }

  lemma {:induction false} JoinedOfSum(a: seq<List>, b: seq<List>)
    ensures Joined(a + b) == Joined(a) + Joined(b) && OwnLength(a + b) == OwnLength(a) + OwnLength(b)
  {
    if a == [] {
      assert a + b == b;
    } else {
      assert (a + b)[1..] == a[1..] + b;
      JoinedOfSum(a[1..], b);
    }
  }

  lemma JoinedOfOne(m: List)
    ensures Joined([m]) == (if m.Own? then m.items else []) && OwnLength([m]) == if m.Own? then |m.items| else 0
  {
    assert [m][1..] == [];
  }

  lemma {:induction false} NothingOwn(ms: seq<List>)
    requires forall j :: 0 <= j < |ms| ==> ms[j].Shared?
    ensures OwnLength(ms) == 0
  {
    if ms != [] {
      NothingOwn(ms[1..]);
    }
  }

  // The first token decides

  lemma FirstToken(c: Lists, x: real)
    requires Silent(c)
    ensures c.Queue() == [] ==> Faithful(c.(list := [x]), [x], 0)
    ensures c.Queue() != [] ==> Doubled(c.(list := [x]), 1, 0)
  {
    var d := c.(list := [x]);
    assert d.Queue() == c.Queue();
    if c.Queue() != [] {
      forall j | 0 <= j < |c.pending| ensures c.pending[j].Shared? {
        assert c.pending[j] == c.Queue()[j + |c.Queue()| - |c.pending|];
      }
      NothingOwn(c.pending);
    }
  }

  lemma DoubledAppend(c: Lists, have: nat, sent: nat, x: real)
    requires Doubled(c, have, sent)
    ensures Doubled(c.(list := c.list + [x]), have + 1, sent)
  {
    assert c.(list := c.list + [x]).Queue() == c.Queue();
  }

  lemma FaithfulAppend(c: Lists, logprobs: seq<real>, sent: nat, x: real)
    requires sent <= |logprobs| && Faithful(c, logprobs, sent)
    ensures Faithful(c.(list := c.list + [x]), logprobs + [x], sent)
  {
    assert c.(list := c.list + [x]).Queue() == c.Queue();
    assert (logprobs + [x])[..sent] == logprobs[..sent];
  }

  // Reports

  lemma SilentReport(c: Lists)
    requires Silent(c)
    ensures Silent(c.(pending := c.pending + [Shared]))
  {
    assert c.(pending := c.pending + [Shared]).Queue() == c.Queue() + [Shared];
  }

  lemma DoubledReport(c: Lists, have: nat, sent: nat)
    requires Doubled(c, have, sent) && sent <= have
    ensures Doubled(c.(pending := c.pending + [Carried(true, c.list, have - sent)]), have, have)
  {
    var m := Carried(true, c.list, have - sent);
    assert c.(pending := c.pending + [m]).Queue() == c.Queue() + [m];
    JoinedOfSum(c.pending, [m]);
    JoinedOfOne(m);
  }

  lemma FaithfulReport(c: Lists, logprobs: seq<real>, sent: nat)
    requires logprobs != [] && sent <= |logprobs| && Faithful(c, logprobs, sent)
    ensures Faithful(c.(pending := c.pending + [Carried(true, c.list, |logprobs| - sent)]), logprobs, |logprobs|)
  {
    var m := Carried(true, c.list, |logprobs| - sent);
    assert c.(pending := c.pending + [m]).Queue() == c.Queue() + [m];
    JoinedOfSum(c.Queue(), [m]);
    JoinedOfOne(m);
    assert logprobs[..sent] + logprobs[sent..] == logprobs == logprobs[..|logprobs|];
  }

  // The client adds

  lemma SilentAdd(c: Lists)
    requires Silent(c)
    ensures Silent(AddNext(c)) && (AddNext(c).Queue() == [] <==> c.Queue() == [])
  {
    if c.pending != [] {
      var d := AddNext(c);
      if c.held.None? {
        assert d.Queue() == c.Queue();
      } else {
        assert c.Queue()[0] == c.held.value && c.Queue()[1] == c.pending[0];
        assert d.Queue() == [c.held.value] + c.pending[1..];
        assert forall j :: 1 <= j < |d.Queue()| ==> d.Queue()[j] == c.Queue()[j + 1];
      }
    }
  }

  lemma DoubledAdd(c: Lists, have: nat, sent: nat)
    requires Doubled(c, have, sent)
    ensures Doubled(AddNext(c), have, sent)
  {
    if c.pending != [] {
      assert c.Queue()[0] == if c.held.Some? then c.held.value else c.pending[0];
    }
  }

  lemma FaithfulAdd(c: Lists, logprobs: seq<real>, sent: nat)
    requires sent <= |logprobs| && Faithful(c, logprobs, sent)
    ensures Faithful(AddNext(c), logprobs, sent)
  {
    if c.pending != [] {
      var d := AddNext(c);
      if c.held.None? {
        assert d.Queue() == c.Queue();
      } else {
        var h, m, rest := c.held.value, c.pending[0], c.pending[1..];
        assert c.Queue() == [h, m] + rest && c.Queue()[0] == h && c.Queue()[1] == m;
        TwoJoined(h, m, rest);
        assert d.Queue() == [if c.Items(m) == [] then h else Own(h.items + m.items)] + rest;
        JoinedOfSum([d.held.value], rest);
        JoinedOfOne(d.held.value);
        assert forall j :: 1 <= j < |d.Queue()| ==> d.Queue()[j] == c.Queue()[j + 1];
      }
    }
  }

  lemma TwoJoined(h: List, m: List, rest: seq<List>)
    ensures Joined([h, m] + rest) == (if h.Own? then h.items else []) + (if m.Own? then m.items else []) + Joined(rest)
  {
    assert [h, m] == [h] + [m];
    JoinedOfSum([h] + [m], rest);
    JoinedOfSum([h], [m]);
    JoinedOfOne(h);
    JoinedOfOne(m);
  }

  // ---------------------------------------------------------------------------
  // Every run of a sequence
  // ---------------------------------------------------------------------------

  lemma HasTokenSteps(acts: seq<Act>)
    requires acts != []
    ensures HasToken(acts) <==> HasToken(acts[..|acts| - 1]) || acts[|acts| - 1].Append?
  {
    var before := acts[..|acts| - 1];
    if k :| 0 <= k < |acts| && acts[k].Append? && k < |before| {
      assert before[k].Append?;
    }
    if k :| 0 <= k < |before| && before[k].Append? {
      assert acts[k].Append?;
    }
  }

  lemma EarlySteps(acts: seq<Act>)
    requires acts != []
    ensures ReportedEarly(acts) <==> ReportedEarly(acts[..|acts| - 1]) || (acts[|acts| - 1].Send? && !HasToken(acts[..|acts| - 1]))
  {
    var before := acts[..|acts| - 1];
    if j :| 0 <= j < |acts| && acts[j].Send? && (forall k :: 0 <= k < j ==> !acts[k].Append?) {
      if j < |before| {
        assert before[j].Send? && forall k :: 0 <= k < j ==> !before[k].Append?;
      }
    }
    if j :| 0 <= j < |before| && before[j].Send? && (forall k :: 0 <= k < j ==> !before[k].Append?) {
      assert acts[j].Send?;
      assert forall k :: 0 <= k < j ==> acts[k] == before[k];
    }
  }

  /** The state of the lists over every run in which log probabilities are wanted. */
  ghost predicate Follows(st: State, token: bool, early: bool) {
    && st.sent <= |st.logprobs| && (token <==> st.logprobs != [])
    && if !token then Silent(st.lists) && (st.lists.Queue() != [] <==> early)
       else if early then Doubled(st.lists, |st.logprobs|, st.sent)
       else Faithful(st.lists, st.logprobs, st.sent)
  }

  lemma FollowsSend(st: State, token: bool, early: bool)
    requires Follows(st, token, early)
    ensures Follows(Step(true, st, Send), token, early || !token)
  {
    if !token {
      SilentReport(st.lists);
    } else if early {
      DoubledReport(st.lists, |st.logprobs|, st.sent);
    } else {
      FaithfulReport(st.lists, st.logprobs, st.sent);
    }
  }

  lemma FollowsAdd(st: State, token: bool, early: bool)
    requires Follows(st, token, early)
    ensures Follows(Step(true, st, Add), token, early)
  {
    if !token {
      SilentAdd(st.lists);
    } else if early {
      DoubledAdd(st.lists, |st.logprobs|, st.sent);
    } else {
      FaithfulAdd(st.lists, st.logprobs, st.sent);
    }
  }

  lemma FollowsAppend(st: State, x: real, token: bool, early: bool)
    requires Follows(st, token, early)
    ensures Follows(Step(true, st, Append(x)), true, early)
  {
    if !token {
      assert st.lists.list + [x] == [x] == st.logprobs + [x];
      FirstToken(st.lists, x);
    } else if early {
      DoubledAppend(st.lists, |st.logprobs|, st.sent, x);
    } else {
      FaithfulAppend(st.lists, st.logprobs, st.sent, x);
    }
  }

  lemma {:induction false} RunFollows(acts: seq<Act>)
    ensures Follows(Play(true, acts), HasToken(acts), ReportedEarly(acts))
  {
    if acts != [] {
      var before := acts[..|acts| - 1];
      var st := Play(true, before);
      RunFollows(before);
      HasTokenSteps(acts);
      EarlySteps(acts);
      match acts[|acts| - 1]
      case Append(x) => FollowsAppend(st, x, HasToken(before), ReportedEarly(before));
      case Send => FollowsSend(st, HasToken(before), ReportedEarly(before));
      case Add => FollowsAdd(st, HasToken(before), ReportedEarly(before));
    }
  }

  /** Nothing is sent if log probabilities are not wanted. */
  predicate NoLists(st: State) {
    var c := st.lists;
    && !c.failed && c.list == st.logprobs
    && (forall j :: 0 <= j < |c.pending| ==> c.pending[j].Absent?) && (c.held.Some? ==> c.held.value.Absent?)
  }

  lemma {:induction false} NothingSent(acts: seq<Act>)
    ensures NoLists(Play(false, acts))
  {
    if acts != [] {
      NothingSent(acts[..|acts| - 1]);
    }
  }

  /** All tokens are reported, and all reports added. */
  predicate UpToDate(st: State) { st.lists.pending == [] && st.lists.held.Some? && st.sent == |st.logprobs| }

  /** Not wanted, or no token, or no report precedes the first one. */
  predicate InTime(wanted: bool, acts: seq<Act>) { !wanted || !HasToken(acts) || !ReportedEarly(acts) }

  /** However the client's additions are interleaved with tokens and reports, its assertion never
      fails; and an up-to-date client holds the log probabilities of the sequence if and only if the
      run is in time.  Otherwise it holds at least twice as many, and so does the sequence itself. */
  lemma HeldIsRightIff(wanted: bool, acts: seq<Act>)
    ensures var st := Play(wanted, acts);
            && !st.lists.failed
            && (UpToDate(st) ==>
                  && (st.lists.Held() == (if wanted then st.logprobs else []) <==> InTime(wanted, acts))
                  && (st.lists.list == st.logprobs <==> InTime(wanted, acts))
                  && (!InTime(wanted, acts) ==> st.lists.Held() == st.lists.list && |st.lists.list| >= 2 * |st.logprobs|))
  {
    var st := Play(wanted, acts);
    if wanted {
      RunFollows(acts);
      if UpToDate(st) {
        JoinedOfOne(st.lists.held.value);
        assert st.lists.Queue() == [st.lists.held.value];
        assert st.logprobs[..st.sent] == st.logprobs;
      }
    } else {
      NothingSent(acts);
    }
  }

  lemma OneMore(wanted: bool, acts: seq<Act>, a: Act)
    ensures Play(wanted, acts + [a]) == Step(wanted, Play(wanted, acts), a)
  {
    assert (acts + [a])[..|acts|] == acts;
  }

  /** A client that is up to date before the first token holds the sequence's own list. */
  lemma HoldsShared(acts: seq<Act>)
    requires !HasToken(acts) && UpToDate(Play(true, acts))
    ensures Play(true, acts) == State([], 0, Lists([], [], Some(Shared), false))
  {
    RunFollows(acts);
    var c := Play(true, acts).lists;
    assert c.Queue()[0] == c.held.value;
  }

  lemma SharedAppend(x: real)
    ensures Step(true, State([], 0, Lists([], [], Some(Shared), false)), Append(x)) == State([x], 0, Lists([x], [], Some(Shared), false))
  {
    assert [] + [x] == [x];
  }

  lemma SharedSend(x: real)
    ensures Step(true, State([x], 0, Lists([x], [], Some(Shared), false)), Send) == State([x], 1, Lists([x], [Own([x])], Some(Shared), false))
  {
    assert LastOf([x], 1) == [x];
    assert [] + [Own([x])] == [Own([x])];
  }

  lemma SharedAdd(x: real)
    ensures AddNext(Lists([x], [Own([x])], Some(Shared), false)) == Lists([x, x], [], Some(Shared), false)
  {
    assert [Own([x])][1..] == [];
    assert [x] + [x] == [x, x];
  }

  lemma ThreeMore(wanted: bool, acts: seq<Act>, a: Act, b: Act, c: Act)
    ensures Play(wanted, acts + [a] + [b] + [c]) == Step(wanted, Step(wanted, Step(wanted, Play(wanted, acts), a), b), c)
  {
    OneMore(wanted, acts, a);
    OneMore(wanted, acts + [a], b);
    OneMore(wanted, acts + [a] + [b], c);
  }

  /** From there on, the first token, a report and its addition give the token's log probability
      twice, to the client and in the list of the sequence. */
  lemma EarlyReportDoubles(acts: seq<Act>, x: real)
    requires !HasToken(acts) && UpToDate(Play(true, acts))
    ensures Play(true, acts + [Append(x)] + [Send] + [Add]) == State([x], 1, Lists([x, x], [], Some(Shared), false))
  {
    HoldsShared(acts);
    ThreeMore(true, acts, Append(x), Send, Add);
    SharedAppend(x);
    SharedSend(x);
    SharedAdd(x);
  }

  /** The shortest way there: one report, added at once. */
  lemma OneReport()
    ensures !HasToken([Send, Add]) && UpToDate(Play(true, [Send, Add]))
  {
    assert [Send][..0] == [] && [Send, Add][..1] == [Send];
    assert Play(true, [Send]) == State([], 0, Lists([], [Shared], None, false));
  }

  // ---------------------------------------------------------------------------
  // The sequences of a request
  // ---------------------------------------------------------------------------

  /** What can happen to a request: an event in the engine, or the client adds an output. */
  datatype Deed = Engine(event: Event) | Client

  function Events(deeds: seq<Deed>): seq<Event> {
    if deeds == [] then []
    else Events(deeds[..|deeds| - 1]) + if deeds[|deeds| - 1].Engine? then [deeds[|deeds| - 1].event] else []
  }

  function SeqAfter(s: Settings, prompt: seq<int>, n: nat, deeds: seq<Deed>, i: nat): Seq
    requires i < n
  {
    After(s, prompt, n, Events(deeds))[i]
  }

  /** What a deed does to sequence `i`; a finished one gets no more tokens. */
  function ActOf(d: Deed, i: nat, finished: bool): seq<Act> {
    if d.Client? then [Add]
    else match d.event
      case Report => [Send]
      case Decode(j, k) => if j == i && !finished then [Append(k.logprob)] else []
  }

  function ActsOf(s: Settings, prompt: seq<int>, n: nat, deeds: seq<Deed>, i: nat): seq<Act>
    requires i < n
  {
    if deeds == [] then []
    else
      var before := deeds[..|deeds| - 1];
      ActsOf(s, prompt, n, before, i) + ActOf(deeds[|deeds| - 1], i, SeqAfter(s, prompt, n, before, i).text.finished)
  }

  predicate Decodes(d: Deed, i: nat) { d.Engine? && d.event.Decode? && d.event.i == i }

  /** In the run of the request, a token is decoded for sequence `i`. */
  predicate HasTokenOf(deeds: seq<Deed>, i: nat) { exists k :: 0 <= k < |deeds| && Decodes(deeds[k], i) }

  /** In the run of the request, a report precedes the first token of sequence `i`. */
  predicate ReportedBefore(deeds: seq<Deed>, i: nat) {
    exists j :: 0 <= j < |deeds| && deeds[j] == Engine(Report) && forall k :: 0 <= k < j ==> !Decodes(deeds[k], i)
  }

  /** The sequence after one more deed. */
  function NextSeq(s: Settings, i: nat, q: Seq, d: Deed): Seq {
    if d.Client? then q
    else match d.event
      case Report => Reported(s, q)
      case Decode(j, k) => if j == i then DecodeSeq(s.params, q, k) else q
  }

  lemma SeqSteps(s: Settings, prompt: seq<int>, n: nat, deeds: seq<Deed>, i: nat)
    requires i < n && deeds != []
    ensures SeqAfter(s, prompt, n, deeds, i) == NextSeq(s, i, SeqAfter(s, prompt, n, deeds[..|deeds| - 1], i), deeds[|deeds| - 1])
  {
    var es := Events(deeds[..|deeds| - 1]);
    if deeds[|deeds| - 1].Engine? {
      assert Events(deeds)[..|es|] == es;
    } else {
      assert Events(deeds) == es;
    }
  }

  /** The sequence of the request and the played one agree. */
  predicate Agree(q: Seq, st: State) {
    q.logprobs == st.logprobs && q.offset == st.sent && |q.data.output| == |q.logprobs| && (q.text.finished ==> q.logprobs != [])
  }

  lemma AgreeReport(s: Settings, q: Seq, acts: seq<Act>)
    requires Agree(q, Play(s.logprobs, acts))
    ensures Agree(Reported(s, q), Play(s.logprobs, acts + [Send]))
  {
    OneMore(s.logprobs, acts, Send);
  }

  lemma AgreeDecode(s: Settings, q: Seq, k: Token, acts: seq<Act>)
    requires Agree(q, Play(s.logprobs, acts)) && !q.text.finished
    ensures Agree(DecodeSeq(s.params, q, k), Play(s.logprobs, acts + [Append(k.logprob)]))
  {
    OneMore(s.logprobs, acts, Append(k.logprob));
  }

  lemma AgreeStep(s: Settings, i: nat, q: Seq, d: Deed, acts: seq<Act>)
    requires Agree(q, Play(s.logprobs, acts))
    ensures Agree(NextSeq(s, i, q, d), Play(s.logprobs, acts + ActOf(d, i, q.text.finished)))
  {
    if d.Client? {
      OneMore(s.logprobs, acts, Add);
    } else if d.event.Report? {
      AgreeReport(s, q, acts);
    } else if d.event.i == i && !q.text.finished {
      AgreeDecode(s, q, d.event.token, acts);
    } else {
      assert acts + [] == acts;
    }
  }

  lemma {:induction false} SeqIsPlayed(s: Settings, prompt: seq<int>, n: nat, deeds: seq<Deed>, i: nat)
    requires i < n
    ensures Agree(SeqAfter(s, prompt, n, deeds, i), Play(s.logprobs, ActsOf(s, prompt, n, deeds, i)))
  {
    if deeds != [] {
      var before := deeds[..|deeds| - 1];
      SeqIsPlayed(s, prompt, n, before, i);
      SeqSteps(s, prompt, n, deeds, i);
      AgreeStep(s, i, SeqAfter(s, prompt, n, before, i), deeds[|deeds| - 1], ActsOf(s, prompt, n, before, i));
    }
  }

  // The condition, in terms of the run of the request

  lemma HasTokenOfSteps(deeds: seq<Deed>, i: nat)
    requires deeds != []
    ensures HasTokenOf(deeds, i) <==> HasTokenOf(deeds[..|deeds| - 1], i) || Decodes(deeds[|deeds| - 1], i)
  {
    var before := deeds[..|deeds| - 1];
    if k :| 0 <= k < |deeds| && Decodes(deeds[k], i) && k < |before| {
      assert Decodes(before[k], i);
    }
    if k :| 0 <= k < |before| && Decodes(before[k], i) {
      assert Decodes(deeds[k], i);
    }
  }

  lemma ReportedBeforeSteps(deeds: seq<Deed>, i: nat)
    requires deeds != []
    ensures ReportedBefore(deeds, i) <==>
              ReportedBefore(deeds[..|deeds| - 1], i) || (deeds[|deeds| - 1] == Engine(Report) && !HasTokenOf(deeds[..|deeds| - 1], i))
  {
    var before := deeds[..|deeds| - 1];
    if j :| 0 <= j < |deeds| && deeds[j] == Engine(Report) && (forall k :: 0 <= k < j ==> !Decodes(deeds[k], i)) {
      if j < |before| {
        assert before[j] == Engine(Report) && forall k :: 0 <= k < j ==> !Decodes(before[k], i);
      }
    }
    if j :| 0 <= j < |before| && before[j] == Engine(Report) && (forall k :: 0 <= k < j ==> !Decodes(before[k], i)) {
      assert deeds[j] == Engine(Report);
      assert forall k :: 0 <= k < j ==> deeds[k] == before[k];
    }
  }

  /** One more deed changes both conditions alike; the first token is never dropped. */
  lemma SameSteps(acts: seq<Act>, d: Deed, i: nat, finished: bool)
    requires finished ==> HasToken(acts)
    ensures var more := acts + ActOf(d, i, finished);
            && (HasToken(more) <==> HasToken(acts) || Decodes(d, i))
            && (ReportedEarly(more) <==> ReportedEarly(acts) || (d == Engine(Report) && !HasToken(acts)))
  {
    var a := ActOf(d, i, finished);
    if a == [] {
      assert acts + a == acts;
    } else {
      assert (acts + a)[..|acts|] == acts;
      HasTokenSteps(acts + a);
      EarlySteps(acts + a);
    }
  }

  lemma PlayedHasToken(wanted: bool, acts: seq<Act>)
    ensures HasToken(acts) <==> Play(wanted, acts).logprobs != []
  {
    if wanted {
      RunFollows(acts);
    } else {
      UnwantedHasToken(acts);
    }
  }

  lemma {:induction false} UnwantedHasToken(acts: seq<Act>)
    ensures HasToken(acts) <==> Play(false, acts).logprobs != []
  {
    if acts != [] {
      UnwantedHasToken(acts[..|acts| - 1]);
      HasTokenSteps(acts);
    }
  }

  lemma {:induction false} SameConditions(s: Settings, prompt: seq<int>, n: nat, deeds: seq<Deed>, i: nat)
    requires i < n
    ensures HasToken(ActsOf(s, prompt, n, deeds, i)) <==> HasTokenOf(deeds, i)
    ensures ReportedEarly(ActsOf(s, prompt, n, deeds, i)) <==> ReportedBefore(deeds, i)
  {
    if deeds != [] {
      var before := deeds[..|deeds| - 1];
      var acts := ActsOf(s, prompt, n, before, i);
      SameConditions(s, prompt, n, before, i);
      SeqIsPlayed(s, prompt, n, before, i);
      PlayedHasToken(s.logprobs, acts);
      SameSteps(acts, deeds[|deeds| - 1], i, SeqAfter(s, prompt, n, before, i).text.finished);
      HasTokenOfSteps(deeds, i);
      ReportedBeforeSteps(deeds, i);
    }
  }

  /** Main theorem, for every sequence of a request, every run and every interleaving of the
      client's additions: its assertion never fails; and once all of the sequence is reported and
      all reports are added, the client has its log probabilities if and only if these are not
      wanted, or it has no token, or no report precedes its first token. */
  lemma StreamedLogprobsIff(s: Settings, prompt: seq<int>, n: nat, deeds: seq<Deed>, i: nat)
    requires i < n
    ensures var q, st := SeqAfter(s, prompt, n, deeds, i), Play(s.logprobs, ActsOf(s, prompt, n, deeds, i));
            && q.logprobs == st.logprobs && q.offset == st.sent && |q.data.output| == |q.logprobs|
            && !st.lists.failed
            && (UpToDate(st) ==>
                  (st.lists.Held() == (if s.logprobs then q.logprobs else []) <==>
                     !s.logprobs || !HasTokenOf(deeds, i) || !ReportedBefore(deeds, i)))
  {
    SeqIsPlayed(s, prompt, n, deeds, i);
    SameConditions(s, prompt, n, deeds, i);
    HeldIsRightIff(s.logprobs, ActsOf(s, prompt, n, deeds, i));
  }
}
