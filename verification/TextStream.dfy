/** Streaming of output text with stop strings: the text getter of vllm/sequence.py, the number
    of characters that vllm/sampling_params.py holds back, and the stop checks of
    vllm/engine/output_processor/stop_checker.py. */
module TextStream {
  import opened Arith
  import opened Wrappers

  // ---------------------------------------------------------------------------
  // Finding a stop string
  // ---------------------------------------------------------------------------

  /** The first occurrence at or after `i`, or -1. */
  function FindFrom(t: string, s: string, i: nat): (r: int)
    ensures r == -1 || (r >= i && OccursAt(t, s, r))
    ensures forall k :: i <= k && OccursAt(t, s, k) ==> r != -1 && r <= k
    decreases |t| - i
  {
    if i + |s| > |t| then -1
    else if t[i..i + |s|] == s then i
    else FindFrom(t, s, i + 1)
  }

  /** Python's `t.find(s, start)`: a negative start counts from the end. */
  function Find(t: string, s: string, start: int): int {
    FindFrom(t, s, if start >= 0 then start else Max(|t| + start, 0))
  }

  /** Occurrences of `s` that end in the last `added` characters of the text. */
  predicate AddedAt(t: string, added: nat, s: string, i: int) {
    OccursAt(t, s, i) && i + |s| > |t| - added
  }

  /** The search does not start at the beginning of the text, but it finds exactly the
      occurrences that the new characters complete, the first of them first. */
  lemma FindIsAdded(t: string, added: nat, s: string)
    requires 1 <= added <= |t| && |s| >= 1
    ensures var i := Find(t, s, 1 - added - |s|);
            && (i == -1 || AddedAt(t, added, s, i))
            && forall k :: AddedAt(t, added, s, k) ==> i != -1 && i <= k
  {
  }

  // ---------------------------------------------------------------------------
  // The stop check
  // ---------------------------------------------------------------------------

  datatype Params = Params(stops: seq<string>, keepStop: bool) {
    /** Stop strings are not empty; the parameters are rejected otherwise. */
    predicate Valid() { forall i :: 0 <= i < |stops| ==> |stops[i]| >= 1 }
  }

  /** A match: which stop string, and the length to cut the text to (-1 for no cut). */
  datatype Match = NoMatch | Match(which: nat, cut: int)

  /** The loop over the stop strings, from the `k`-th on. */
  function CheckFrom(t: string, added: nat, p: Params, k: nat): (m: Match)
    requires k <= |p.stops|
    ensures m.Match? ==> m.cut == -1 || 0 <= m.cut <= |t|
    decreases |p.stops| - k
  {
    if k == |p.stops| then NoMatch
    else
      var s := p.stops[k];
      var i := Find(t, s, 1 - added - |s|);
      if i == -1 then CheckFrom(t, added, p, k + 1)
      else if p.keepStop then (if i + |s| >= |t| then Match(k, -1) else Match(k, i + |s|))
      else Match(k, i)
  }

  function CheckStops(t: string, added: nat, p: Params): (m: Match)
    ensures m.Match? ==> m.cut == -1 || 0 <= m.cut <= |t|
  {
    if added == 0 || p.stops == [] then NoMatch else CheckFrom(t, added, p, 0)
  }

  method CheckStopStrings(t: string, added: nat, p: Params) returns (m: Match)
    ensures m == CheckStops(t, added, p)
  {
    if added == 0 || |p.stops| == 0 {
      return NoMatch;
    }
    var k := 0;
    while k < |p.stops|
      invariant 0 <= k <= |p.stops|
      invariant CheckFrom(t, added, p, k) == CheckStops(t, added, p)
    {
      var s := p.stops[k];
      var i := Find(t, s, 1 - added - |s|);
      if i != -1 {
        if p.keepStop {
          i := i + |s|;
          if i >= |t| {
            return Match(k, -1);
          }
        }
        return Match(k, i);
      }
      k := k + 1;
    }
    m := NoMatch;
  }

  /** Some stop string is completed by the new characters. */
  ghost predicate Completed(t: string, added: nat, p: Params, j: nat) {
    j < |p.stops| && exists i :: AddedAt(t, added, p.stops[j], i)
  }

  /** The check finds the first-listed stop string that the new characters complete, at its
      first such place, and reports nothing exactly if there is none. */
  lemma CheckIs(t: string, added: nat, p: Params)
    requires p.Valid() && added <= |t|
    ensures CheckStops(t, added, p).NoMatch? <==> forall j :: !Completed(t, added, p, j)
    ensures CheckStops(t, added, p).Match? ==>
              exists i :: IsCheck(t, added, p, CheckStops(t, added, p), i)
  {
    if added > 0 && p.stops != [] {
      CheckFromIs(t, added, p, 0);
    }
  }

  /** The match `m` is about the place `i`. */
  ghost predicate IsCheck(t: string, added: nat, p: Params, m: Match, i: int) {
    && m.Match? && m.which < |p.stops|
    && AddedAt(t, added, p.stops[m.which], i)
    && (forall k :: AddedAt(t, added, p.stops[m.which], k) ==> i <= k)
    && (forall j :: 0 <= j < m.which ==> !Completed(t, added, p, j))
    && m.cut == if !p.keepStop then i else if i + |p.stops[m.which]| >= |t| then -1 else i + |p.stops[m.which]|
  }

  lemma {:induction false} CheckFromIs(t: string, added: nat, p: Params, k: nat)
    requires p.Valid() && 1 <= added <= |t| && k <= |p.stops|
    requires forall j :: 0 <= j < k ==> !Completed(t, added, p, j)
    ensures CheckFrom(t, added, p, k).NoMatch? <==> forall j :: !Completed(t, added, p, j)
    ensures CheckFrom(t, added, p, k).Match? ==>
              exists i :: IsCheck(t, added, p, CheckFrom(t, added, p, k), i)
    decreases |p.stops| - k
  {
    if k < |p.stops| {
      var s := p.stops[k];
      FindIsAdded(t, added, s);
      var i := Find(t, s, 1 - added - |s|);
      if i == -1 {
        CheckFromIs(t, added, p, k + 1);
      } else {
        assert Completed(t, added, p, k);
        assert IsCheck(t, added, p, CheckFrom(t, added, p, k), i);
      }
    }
  }

  // ---------------------------------------------------------------------------
  // The sequence
  // ---------------------------------------------------------------------------

  function MaxLen(stops: seq<string>): nat {
    if stops == [] then 0 else Max(MaxLen(stops[..|stops| - 1]), |stops[|stops| - 1]|)
  }

  lemma {:induction false} MaxLenBounds(stops: seq<string>, i: nat)
    requires i < |stops|
    ensures |stops[i]| <= MaxLen(stops)
  {
    if i < |stops| - 1 {
      MaxLenBounds(stops[..|stops| - 1], i);
    }
  }

  /** Characters held back while the sequence is running. */
  function BufferLength(p: Params): int {
    if p.stops != [] && !p.keepStop then MaxLen(p.stops) - 1 else 0
  }

  /** A new token: its text, and the facts that the stop checks look at. */
  datatype Token = Token(piece: string, early: bool, eos: bool, stopToken: bool, atLimit: bool)

  datatype State = State(text: string, offset: nat, finished: bool)

  /** Append the text of a token, then decide whether the sequence stops. */
  function Decode(p: Params, s: State, k: Token): State {
    var t := s.text + k.piece;
    if k.early then s.(text := t)
    else if k.eos || k.stopToken then
      s.(text := if |k.piece| > 0 && !p.keepStop then t[..|t| - |k.piece|] else t, finished := true)
    else
      match CheckStops(t, |k.piece|, p)
      case Match(_, cut) => s.(text := if cut != -1 then t[..cut] else t, finished := true)
      case NoMatch => s.(text := t, finished := k.atLimit)
  }

  /** The text that the getter may show when `hold` characters are held back: all of it once
      finished. */
  function VisibleWith(hold: int, s: State): int {
    if hold != 0 && !s.finished then |s.text| - hold else |s.text|
  }

  function Visible(p: Params, s: State): int { VisibleWith(BufferLength(p), s) }

  /** The delta getter: what it returns, and the state it leaves. */
  function DeltaWith(hold: int, s: State): (string, State) {
    var length := VisibleWith(hold, s);
    if s.offset < length <= |s.text| then (s.text[s.offset..length], s.(offset := length)) else ("", s)
  }

  function Delta(p: Params, s: State): (string, State) { DeltaWith(BufferLength(p), s) }

  /** The cumulative getter. */
  function Cumulative(p: Params, s: State): string {
    s.text[..Min(Max(Visible(p, s), 0), |s.text|)]
  }

  /** The streamed part lies inside the visible text, now and after the sequence finishes. */
  ghost predicate Streamable(p: Params, s: State) {
    s.offset <= |s.text| && (!s.finished ==> s.offset == 0 || s.offset <= |s.text| - BufferLength(p))
  }

  /** The text that a match cuts to still holds everything that has been streamed: a stop
      string that an append completes starts at or after the streamed part. */
  lemma CutIsBehindStream(p: Params, s: State, piece: string)
    requires p.Valid() && Streamable(p, s) && !s.finished
    ensures match CheckStops(s.text + piece, |piece|, p)
            case Match(_, cut) => cut == -1 || s.offset <= cut <= |s.text + piece|
            case NoMatch => true
  {
    var t := s.text + piece;
    CheckIs(t, |piece|, p);
    var m := CheckStops(t, |piece|, p);
    if m.Match? {
      var i :| IsCheck(t, |piece|, p, m, i);
      MaxLenBounds(p.stops, m.which);
    }
  }

  /** Decoding a token keeps the streamed part: it changes only text behind it. */
  lemma DecodeKeepsStream(p: Params, s: State, k: Token)
    requires p.Valid() && Streamable(p, s) && !s.finished
    ensures Streamable(p, Decode(p, s, k))
    ensures Decode(p, s, k).offset == s.offset && Decode(p, s, k).text[..s.offset] == s.text[..s.offset]
  {
    CutIsBehindStream(p, s, k.piece);
  }

  /** Which tokens finish a running sequence: an end or stop token, one that completes a stop
      string, or one at the limit of the length, unless there are too few tokens yet. */
  lemma FinishesIff(p: Params, s: State, k: Token)
    requires p.Valid() && !s.finished
    ensures Decode(p, s, k).finished <==>
              !k.early && (k.eos || k.stopToken || k.atLimit || exists j: nat :: Completed(s.text + k.piece, |k.piece|, p, j))
  {
    CheckIs(s.text + k.piece, |k.piece|, p);
  }

  /** And the text that each of them leaves: all of it, unless an end or stop token is dropped or a
      stop string is cut, the first-listed one that is completed, at its first place. */
  lemma TextAfterToken(p: Params, s: State, k: Token)
    requires p.Valid() && !s.finished
    ensures k.early ==> Decode(p, s, k).text == s.text + k.piece
    ensures !k.early && (k.eos || k.stopToken) ==> Decode(p, s, k).text == if p.keepStop then s.text + k.piece else s.text
    ensures !k.early && !k.eos && !k.stopToken && (forall j: nat :: !Completed(s.text + k.piece, |k.piece|, p, j)) ==>
              Decode(p, s, k).text == s.text + k.piece
    ensures !k.early && !k.eos && !k.stopToken && (exists j: nat :: Completed(s.text + k.piece, |k.piece|, p, j)) ==>
              exists j: nat, i: int :: FirstStop(s.text + k.piece, |k.piece|, p, j, i) &&
                Decode(p, s, k).text == (s.text + k.piece)[..if p.keepStop then i + |p.stops[j]| else i]
  {
    var t := s.text + k.piece;
    assert t[..|t| - |k.piece|] == s.text;
    CheckIs(t, |k.piece|, p);
    var m := CheckStops(t, |k.piece|, p);
    if !k.early && !k.eos && !k.stopToken && m.Match? {
      var i :| IsCheck(t, |k.piece|, p, m, i);
      assert FirstStop(t, |k.piece|, p, m.which, i);
    }
  }

  /** Stop string `j` is completed at `i` first, and none listed before it is completed. */
  ghost predicate FirstStop(t: string, added: nat, p: Params, j: nat, i: int) {
    && j < |p.stops| && AddedAt(t, added, p.stops[j], i)
    && (forall k :: AddedAt(t, added, p.stops[j], k) ==> i <= k)
    && (forall k :: 0 <= k < j ==> !Completed(t, added, p, k))
  }

  /** What is shown: everything once finished; while running, all but one character less than the
      longest stop string, or everything if stop strings are kept or there are none. */
  lemma ShownIs(p: Params, s: State)
    requires p.Valid()
    ensures s.finished || p.keepStop || p.stops == [] ==> Cumulative(p, s) == s.text
    ensures !s.finished && !p.keepStop && p.stops != [] ==>
              exists j: nat :: Longest(p, j) && Cumulative(p, s) == s.text[..Max(|s.text| - (|p.stops[j]| - 1), 0)]
  {
    if p.stops != [] {
      var j := LongestExists(p);
    }
  }

  ghost predicate Longest(p: Params, j: nat) {
    j < |p.stops| && forall i :: 0 <= i < |p.stops| ==> |p.stops[i]| <= |p.stops[j]|
  }

  lemma LongestExists(p: Params) returns (j: nat)
    requires p.Valid() && p.stops != []
    ensures Longest(p, j) && |p.stops[j]| == MaxLen(p.stops) >= 1
  {
    j := MaxLenReached(p.stops);
    forall i | 0 <= i < |p.stops| ensures |p.stops[i]| <= |p.stops[j]| {
      MaxLenBounds(p.stops, i);
    }
  }

  lemma {:induction false} MaxLenReached(stops: seq<string>) returns (j: nat)
    requires stops != []
    ensures j < |stops| && |stops[j]| == MaxLen(stops)
  {
    var n := |stops| - 1;
    if n == 0 {
      assert MaxLen(stops[..0]) == 0;
      j := 0;
    } else {
      j := MaxLenReached(stops[..n]);
      if |stops[j]| < |stops[n]| {
        j := n;
      }
    }
  }

  // ---------------------------------------------------------------------------
  // Whole runs
  // ---------------------------------------------------------------------------

  datatype Event = Append(token: Token) | Get

  /** A finished sequence gets no more tokens. */
  function Step(p: Params, s: State, e: Event): State {
    match e
    case Append(k) => if s.finished then s else Decode(p, s, k)
    case Get => Delta(p, s).1
  }

  function Sent(p: Params, s: State, e: Event): string {
    if e.Get? then Delta(p, s).0 else ""
  }

  /** The state after a run, and everything streamed during it. */
  function After(p: Params, events: seq<Event>): State {
    if events == [] then State("", 0, false)
    else Step(p, After(p, events[..|events| - 1]), events[|events| - 1])
  }

  function Streamed(p: Params, events: seq<Event>): string {
    if events == [] then ""
    else Streamed(p, events[..|events| - 1]) + Sent(p, After(p, events[..|events| - 1]), events[|events| - 1])
  }

  /** After every run of appends and reads, what has been streamed is a prefix of the text. */
  lemma {:induction false} StreamedIsPrefix(p: Params, events: seq<Event>)
    requires p.Valid()
    ensures Streamable(p, After(p, events))
    ensures Streamed(p, events) == After(p, events).text[..After(p, events).offset]
  {
    if events != [] {
      var before := events[..|events| - 1];
      var s := After(p, before);
      StreamedIsPrefix(p, before);
      match events[|events| - 1]
      case Append(k) =>
        if !s.finished {
          DecodeKeepsStream(p, s, k);
        }
      case Get =>
        DeltaCatchesUp(p, s);
    }
  }

  /** Over every run: the sequence has finished exactly if some token finished it, while it was still
      running. */
  lemma {:induction false} FinishedIff(p: Params, events: seq<Event>)
    requires p.Valid()
    ensures After(p, events).finished <==> exists j: nat :: FinishedAt(p, events, j)
  {
    if events != [] {
      var n := |events| - 1;
      FinishedIff(p, events[..n]);
      forall j: nat | j < n ensures FinishedAt(p, events, j) <==> FinishedAt(p, events[..n], j) {
        assert events[..n][..j] == events[..j];
      }
      if events[n].Append? && !After(p, events[..n]).finished {
        FinishesIff(p, After(p, events[..n]), events[n].token);
      }
      assert FinishedAt(p, events, n) ==> After(p, events).finished;
    }
  }

  /** Token `j` finished the sequence: it was running, and not too early. */
  ghost predicate FinishedAt(p: Params, events: seq<Event>, j: nat) {
    j < |events| && events[j].Append? && !After(p, events[..j]).finished &&
    var k, t := events[j].token, After(p, events[..j]).text + events[j].token.piece;
    !k.early && (k.eos || k.stopToken || k.atLimit || exists i: nat :: Completed(t, |k.piece|, p, i))
  }

  /** A delta takes the streamed part exactly to the cumulative output. */
  lemma DeltaCatchesUp(p: Params, s: State)
    requires p.Valid() && Streamable(p, s)
    ensures s.text[..s.offset] + Delta(p, s).0 == Cumulative(p, s)
    ensures Streamable(p, Delta(p, s).1) && Delta(p, s).1.text == s.text && Delta(p, s).1.finished == s.finished
    ensures s.text[..Delta(p, s).1.offset] == Cumulative(p, s)
  {
    var length := Visible(p, s);
    if s.offset < length <= |s.text| {
      assert s.text[..s.offset] + s.text[s.offset..length] == s.text[..length];
    } else {
      BufferIsNatural(p);
    }
  }

  /** A read leaves the stream exactly at the cumulative output, finished or not. */
  lemma ReadCatchesUp(p: Params, events: seq<Event>)
    requires p.Valid()
    ensures Streamed(p, events + [Get]) == Cumulative(p, After(p, events))
    ensures After(p, events + [Get]).text == After(p, events).text
  {
    assert (events + [Get])[..|events|] == events;
    StreamedIsPrefix(p, events);
    DeltaCatchesUp(p, After(p, events));
  }

  lemma BufferIsNatural(p: Params)
    requires p.Valid()
    ensures BufferLength(p) >= 0
  {
    if p.stops != [] {
      MaxLenBounds(p.stops, 0);
    }
  }

  /** Main theorem: once the sequence has finished, one more read completes the stream, and
      the concatenated deltas are exactly the final text. */
  lemma StreamIsComplete(p: Params, events: seq<Event>)
    requires p.Valid() && After(p, events).finished
    ensures Streamed(p, events + [Get]) == After(p, events).text
  {
    ReadCatchesUp(p, events);
  }

  /** No fewer characters would do: if `h` is less than the length of a stop string less one, then
      there is a run that streams text which is no prefix of the final text. */
  lemma HoldBackIsNeeded(stop: string, h: nat)
    requires h < |stop| - 1
    ensures var p := Params([stop], false);
            var first := Token(stop[..|stop| - 1], false, false, false, false);
            var last := Token([stop[|stop| - 1]], false, false, false, false);
            var s1 := Decode(p, State("", 0, false), first);
            var (sent, s2) := DeltaWith(h, s1);
            var s3 := Decode(p, s2, last);
            BufferLength(p) == |stop| - 1 && s3.finished && sent != "" && !(sent <= s3.text)
  {
    var p, n := Params([stop], false), |stop| - 1;
    var first := Token(stop[..n], false, false, false, false);
    var s1 := Decode(p, State("", 0, false), first);
    assert [stop][..0] == [] && MaxLen([stop]) == |stop|;
    assert "" + stop[..n] == stop[..n];
    CheckIs(stop[..n], n, p);
    assert s1 == State(stop[..n], 0, false);
    WholeStop(stop);
    assert stop[..n] + [stop[n]] == stop;
  }

  /** A text that is a stop string as a whole is cut to nothing. */
  lemma WholeStop(stop: string)
    requires |stop| >= 1
    ensures CheckStops(stop, 1, Params([stop], false)) == Match(0, 0)
  {
    var p := Params([stop], false);
    CheckIs(stop, 1, p);
    assert AddedAt(stop, 1, p.stops[0], 0);
    assert Completed(stop, 1, p, 0);
    var m := CheckStops(stop, 1, p);
    var i :| IsCheck(stop, 1, p, m, i);
  }

  /** All text that the tokens of a run decode to, up to the one that finishes the sequence. */
  function Pieces(p: Params, events: seq<Event>): string {
    if events == [] then ""
    else
      var before := events[..|events| - 1];
      match events[|events| - 1]
      case Get => Pieces(p, before)
      case Append(k) => if After(p, before).finished then Pieces(p, before) else Pieces(p, before) + k.piece
  }

  /** Over every run the text is a prefix of what the tokens decode to, and all of it while the
      sequence is running. */
  lemma {:induction false} TextIsDecoded(p: Params, events: seq<Event>)
    ensures After(p, events).text <= Pieces(p, events)
    ensures !After(p, events).finished ==> After(p, events).text == Pieces(p, events)
  {
    if events != [] {
      var before := events[..|events| - 1];
      TextIsDecoded(p, before);
      if events[|events| - 1].Append? && !After(p, before).finished {
        CutIsPrefix(p, After(p, before), events[|events| - 1].token);
      }
    }
  }

  lemma CutIsPrefix(p: Params, s: State, k: Token)
    ensures Decode(p, s, k).text <= s.text + k.piece
    ensures !Decode(p, s, k).finished ==> Decode(p, s, k).text == s.text + k.piece || s.finished
  {
  }

  /** After every run that a stop token ends, the text is all that was decoded before it; with the
      text of the token itself only if stop strings are kept. */
  lemma StopTokenDropped(p: Params, events: seq<Event>, k: Token)
    requires !After(p, events).finished && !k.early && (k.eos || k.stopToken)
    ensures var s := After(p, events + [Append(k)]);
            s.finished && s.text == if p.keepStop then Pieces(p, events) + k.piece else Pieces(p, events)
  {
    assert (events + [Append(k)])[..|events|] == events;
    TextIsDecoded(p, events);
    assert (Pieces(p, events) + k.piece)[..|Pieces(p, events)|] == Pieces(p, events);
  }

  /** A sequence that stops for a stop string drops it with all that follows, or keeps it as
      the end of its text. */
  lemma StopStringCut(p: Params, s: State, k: Token)
    requires p.Valid() && !s.finished && !k.early && !k.eos && !k.stopToken && !k.atLimit && Decode(p, s, k).finished
    ensures exists j: nat :: j < |p.stops| && CutAt(s.text + k.piece, Decode(p, s, k).text, p.stops[j], p.keepStop)
  {
    var t := s.text + k.piece;
    CheckIs(t, |k.piece|, p);
    var m := CheckStops(t, |k.piece|, p);
    var i :| IsCheck(t, |k.piece|, p, m, i);
    MatchCuts(t, |k.piece|, p, m, i);
  }

  lemma MatchCuts(t: string, added: nat, p: Params, m: Match, i: int)
    requires IsCheck(t, added, p, m, i)
    ensures m.cut == -1 || 0 <= m.cut <= |t|
    ensures CutAt(t, if m.cut != -1 then t[..m.cut] else t, p.stops[m.which], p.keepStop)
  {
    var stop := p.stops[m.which];
    assert OccursAt(t, stop, i) && (if m.cut != -1 then t[..m.cut] else t) == (if p.keepStop then t[..i + |stop|] else t[..i]);
  }

  /** `r` is `t` cut before or behind an occurrence of `stop`. */
  ghost predicate CutAt(t: string, r: string, stop: string, keep: bool) {
    exists i :: OccursAt(t, stop, i) && r == if keep then t[..i + |stop|] else t[..i]
  }

  // ---------------------------------------------------------------------------
  // What the final text contains
  // ---------------------------------------------------------------------------

  ghost predicate Clean(p: Params, t: string) {
    forall j :: 0 <= j < |p.stops| ==> !Occurs(t, p.stops[j])
  }

  /** The first-listed stop string is part of every other one. */
  ghost predicate FirstIsInner(p: Params) {
    forall j :: 0 <= j < |p.stops| ==> Occurs(p.stops[j], p.stops[0])
  }

  /** An occurrence in a text that was clean before the append ends in the appended part. */
  lemma NewIsAdded(p: Params, was: string, piece: string, j: nat, i: int)
    requires Clean(p, was) && j < |p.stops| && OccursAt(was + piece, p.stops[j], i)
    ensures AddedAt(was + piece, |piece|, p.stops[j], i)
  {
    if i + |p.stops[j]| <= |was| {
      assert OccursAt(was, p.stops[j], i) by {
        assert (was + piece)[i..i + |p.stops[j]|] == was[i..i + |p.stops[j]|];
      }
      assert Occurs(was, p.stops[j]);
    }
  }

  /** If the first-listed stop string is part of every other one, a text that was clean before
      an append is clean after the cut. */
  lemma CutIsClean(p: Params, was: string, piece: string)
    requires p.Valid() && !p.keepStop && Clean(p, was) && FirstIsInner(p)
    ensures var t := was + piece;
            match CheckStops(t, |piece|, p)
            case NoMatch => Clean(p, t)
            case Match(_, cut) => 0 <= cut <= |t| && Clean(p, t[..cut])
  {
    var t := was + piece;
    var m := CheckStops(t, |piece|, p);
    CheckIs(t, |piece|, p);
    if m.NoMatch? {
      forall j | 0 <= j < |p.stops| ensures !Occurs(t, p.stops[j]) {
        NoneCompleted(p, was, piece, j);
      }
    } else {
      var i :| IsCheck(t, |piece|, p, m, i);
      forall j | 0 <= j < |p.stops| ensures !Occurs(t[..i], p.stops[j]) {
        NothingBeforeCut(p, was, piece, m, i, j);
      }
    }
  }

  lemma NoneCompleted(p: Params, was: string, piece: string, j: nat)
    requires Clean(p, was) && j < |p.stops| && !Completed(was + piece, |piece|, p, j)
    ensures !Occurs(was + piece, p.stops[j])
  {
    if Occurs(was + piece, p.stops[j]) {
      var i :| OccursAt(was + piece, p.stops[j], i);
      NewIsAdded(p, was, piece, j, i);
    }
  }

  lemma NothingBeforeCut(p: Params, was: string, piece: string, m: Match, i: int, j: nat)
    requires Clean(p, was) && FirstIsInner(p) && p.Valid() && j < |p.stops|
    requires IsCheck(was + piece, |piece|, p, m, i)
    ensures !Occurs((was + piece)[..i], p.stops[j])
  {
    var t := was + piece;
    if Occurs(t[..i], p.stops[j]) {
      var k :| OccursAt(t[..i], p.stops[j], k);
      var d :| OccursAt(p.stops[j], p.stops[0], d);
      OccursDeeper(t[..i], p.stops[j], p.stops[0], k, d);
      OccursInPrefix(t, i, p.stops[0], k + d);
      NewIsAdded(p, was, piece, 0, k + d);
      assert Completed(t, |piece|, p, 0);
    }
  }

  /** Otherwise the cut text may still contain a stop string: here is the append. */
  lemma CutCanBeUnclean(p: Params, j: nat, c: char)
    requires p.Valid() && !p.keepStop && j < |p.stops| && !Occurs(p.stops[j], p.stops[0])
    requires forall i :: 0 <= i < |p.stops| ==> c !in p.stops[i]
    ensures var t := p.stops[j] + [c] + p.stops[0];
            CheckStops(t, |t|, p) == Match(0, |p.stops[j]| + 1) && Occurs(t[..|p.stops[j]| + 1], p.stops[j])
  {
    var s, f := p.stops[j], p.stops[0];
    var t := s + [c] + f;
    assert OccursAt(t, f, |s| + 1);
    assert OccursAt(t[..|s| + 1], s, 0);
    CheckIs(t, |t|, p);
    forall i | OccursAt(t, f, i) ensures i == |s| + 1 {
      if i <= |s| {
        StraddlesOrInside(s, c, f, i);
      }
    }
    assert AddedAt(t, |t|, f, |s| + 1);
    assert Completed(t, |t|, p, 0);
    FindIsAdded(t, |t|, f);
  }

  lemma StraddlesOrInside(s: string, c: char, f: string, i: int)
    requires |f| >= 1 && OccursAt(s + [c] + f, f, i) && i <= |s| && c !in f
    ensures Occurs(s, f)
  {
    var t := s + [c] + f;
    if i + |f| > |s| {
      OccursElement(t, f, i, |s| - i);
    }
    assert t[i..i + |f|] == s[i..i + |f|];
    assert OccursAt(s, f, i);
  }

  /** Exactly when every append to a clean text leaves a clean text (given a character that no
      stop string uses): the first-listed stop string is part of every other one. */
  lemma CleanIff(p: Params, c: char)
    requires p.Valid() && !p.keepStop
    requires forall i :: 0 <= i < |p.stops| ==> c !in p.stops[i]
    ensures FirstIsInner(p) <==> forall was: string, piece: string :: Clean(p, was) ==> CutClean(p, was, piece)
  {
    if FirstIsInner(p) {
      forall was: string, piece: string | Clean(p, was) ensures CutClean(p, was, piece) {
        CutIsClean(p, was, piece);
      }
    } else {
      var piece := UncleanPiece(p, c);
    }
  }

  lemma UncleanPiece(p: Params, c: char) returns (piece: string)
    requires p.Valid() && !p.keepStop && !FirstIsInner(p)
    requires forall i :: 0 <= i < |p.stops| ==> c !in p.stops[i]
    ensures Clean(p, "") && !CutClean(p, "", piece)
  {
    var j :| 0 <= j < |p.stops| && !Occurs(p.stops[j], p.stops[0]);
    CutCanBeUnclean(p, j, c);
    piece := p.stops[j] + [c] + p.stops[0];
    assert "" + piece == piece;
    EmptyIsClean(p);
  }

  lemma EmptyIsClean(p: Params)
    requires p.Valid()
    ensures Clean(p, "")
  {
  }

  ghost predicate CutClean(p: Params, was: string, piece: string) {
    var t := was + piece;
    match CheckStops(t, |piece|, p)
    case NoMatch => Clean(p, t)
    case Match(_, cut) => 0 <= cut <= |t| && Clean(p, t[..cut])
  }

  // ---------------------------------------------------------------------------
  // The sequence object
  // ---------------------------------------------------------------------------

  class Sequence {
    const params: Params
    var text: string
    var lastOffset: nat
    var finished: bool

    ghost function Now(): State
      reads this
    {
      State(text, lastOffset, finished)
    }

    constructor (p: Params)
      ensures params == p && Now() == After(p, [])
      ensures text == "" && lastOffset == 0 && !finished
    {
      params, text, lastOffset, finished := p, "", 0, false;
    }

    /** A decoded token: its text is appended and the stop checks run. */
    method DecodeToken(k: Token)
      requires !finished
      modifies this
      ensures Now() == Decode(params, old(Now()), k)
    {
      text := text + k.piece;
      var newChars := |k.piece|;
      if k.early {
        return;
      }
      if k.eos || k.stopToken {
        if newChars != 0 && !params.keepStop {
          text := text[..|text| - newChars];
        }
        finished := true;
        return;
      }
      var m := CheckStopStrings(text, newChars, params);
      if m.Match? {
        if m.cut != -1 {
          text := text[..m.cut];
        }
        finished := true;
        return;
      }
      finished := k.atLimit;
    }

    /** The text getter in delta mode. */
    method GetDelta() returns (r: string)
      modifies this`lastOffset
      ensures (r, Now()) == Delta(params, old(Now()))
    {
      var length: int := |text|;
      if BufferLength(params) != 0 && !finished {
        length := length - BufferLength(params);
      }
      if lastOffset < length <= |text| {
        r := text[lastOffset..length];
        lastOffset := length;
      } else {
        r := "";
      }
    }
  }
}
