/** The bad-words logits processor (vllm/logits_process.py) and generation under it. */
module BadWords {
  import opened Wrappers

  type TokenId = int
  type Word = seq<TokenId>

  /** A logit: minus infinity or a finite value; adding minus infinity absorbs. */
  datatype Logit = NegInf | Finite(value: real)

  function Add(a: Logit, b: Logit): Logit {
    if a.Finite? && b.Finite? then Finite(a.value + b.value) else NegInf
  }

  datatype Result = Logits(values: seq<Logit>) | ValueError | IndexError

  predicate InBounds(words: seq<Word>, vocab: nat) {
    forall w, k :: w in words && 0 <= k < |w| ==> 0 <= w[k] < vocab
  }

  /** Token `t` after `past` completes the word `w`. */
  predicate Completes(past: seq<TokenId>, t: TokenId, w: Word) {
    |w| >= 1 && |w| <= |past| + 1 && w[|w| - 1] == t && past[|past| + 1 - |w|..] == w[..|w| - 1]
  }

  predicate Banned(words: seq<Word>, past: seq<TokenId>, t: TokenId) {
    exists w :: w in words && Completes(past, t, w)
  }

  // ---------------------------------------------------------------------------
  // The processor
  // ---------------------------------------------------------------------------

  class NoBadWords {
    const words: seq<Word>
    /** Bias of the one-token words, made on the first call. */
    var wordBias: Option<seq<Logit>>

    ghost predicate Valid()
      reads this
    {
      wordBias.Some? ==>
        && InBounds(words, |wordBias.value|)
        && forall t :: 0 <= t < |wordBias.value| ==> wordBias.value[t] == if [t] in words then NegInf else Finite(0.0)
    }

    constructor (words: seq<Word>)
      ensures this.words == words && wordBias == None && Valid()
    {
      this.words, wordBias := words, None;
    }

    /** Checks every token of every word; then the one-token words get their bias. */
    method InitWordBias(vocab: nat) returns (ok: bool)
      requires wordBias.None?
      modifies this`wordBias
      ensures ok <==> forall i, k :: 0 <= i < |words| && 0 <= k < |words[i]| ==> 0 <= words[i][k] < vocab
      ensures Valid() && (ok ==> wordBias.Some? && |wordBias.value| == vocab) && (!ok ==> wordBias.None?)
    {
      ok := CheckTokenIdsBounds(words, vocab);
      if !ok {
        return;
      }
      var bias := seq(vocab, _ => Finite(0.0));
      for i := 0 to |words|
        invariant |bias| == vocab && wordBias.None?
        invariant forall t :: 0 <= t < vocab ==> bias[t] == if [t] in words[..i] then NegInf else Finite(0.0)
      {
        assert words[..i + 1] == words[..i] + [words[i]];
        if |words[i]| == 1 {
          assert words[i] in words;
          assert words[i] == [words[i][0]];
          bias := bias[words[i][0] := NegInf];
        }
      }
      assert words[..|words|] == words;
      wordBias := Some(bias);
    }

    /** One call.  It raises on a token out of bounds (first call) or an empty word; otherwise
        exactly the tokens that complete a bad word get minus infinity, and every other logit
        is unchanged. */
    method Call(past: seq<TokenId>, logits: seq<Logit>) returns (r: Result)
      requires Valid() && (wordBias.Some? ==> |wordBias.value| == |logits|)
      modifies this`wordBias
      ensures Valid() && (wordBias.Some? ==> |wordBias.value| == |logits|)
      ensures r.ValueError? <==> old(wordBias).None? && exists i, k :: 0 <= i < |words| && 0 <= k < |words[i]| && !(0 <= words[i][k] < |logits|)
      ensures r.IndexError? <==> !r.ValueError? && [] in words
      ensures r.Logits? ==> |r.values| == |logits|
      ensures r.Logits? ==>
                forall t :: 0 <= t < |logits| ==> r.values[t] == if Banned(words, past, t) then NegInf else logits[t]
    {
      if wordBias.None? {
        var ok := InitWordBias(|logits|);
        if !ok {
          return ValueError;
        }
      }
      var ok, bias := LastTokenBias(past, |logits|);
      if !ok {
        return IndexError;
      }
      var wb := wordBias.value;
      var values := seq(|logits|, t requires 0 <= t < |logits| => Add(Add(logits[t], wb[t]), bias[t]));
      forall t | 0 <= t < |logits| ensures values[t] == if Banned(words, past, t) then NegInf else logits[t] {
        BannedIs(words, past, t);
      }
      r := Logits(values);
    }

    /** The loop over the words of two tokens or more. */
    method LastTokenBias(past: seq<TokenId>, vocab: nat) returns (ok: bool, bias: seq<Logit>)
      requires InBounds(words, vocab)
      ensures ok <==> [] !in words
      ensures ok ==> |bias| == vocab
      ensures ok ==> forall t :: 0 <= t < vocab ==> bias[t] == if BannedByLong(words, past, t) then NegInf else Finite(0.0)
    {
      bias := seq(vocab, _ => Finite(0.0));
      for i := 0 to |words|
        invariant |bias| == vocab && [] !in words[..i]
        invariant forall t :: 0 <= t < vocab ==> bias[t] == if BannedByLong(words[..i], past, t) then NegInf else Finite(0.0)
      {
        var w := words[i];
        assert words[..i + 1] == words[..i] + [w];
        forall t ensures BannedByLong(words[..i + 1], past, t) <==>
                         BannedByLong(words[..i], past, t) || (|w| >= 2 && Completes(past, t, w)) {
          LongGrows(words[..i], w, past, t);
        }
        if |w| == 0 {
          assert w in words;
          return false, bias;
        }
        assert w in words;
        bias := ApplyWord(past, w, bias);
      }
      assert words[..|words|] == words;
      ok := true;
    }
  }

  /** The check of every token of every word. */
  method CheckTokenIdsBounds(words: seq<Word>, vocab: nat) returns (ok: bool)
    ensures ok <==> InBounds(words, vocab)
    ensures ok <==> forall i, k :: 0 <= i < |words| && 0 <= k < |words[i]| ==> 0 <= words[i][k] < vocab
  {
    for i := 0 to |words|
      invariant forall j, k :: 0 <= j < i && 0 <= k < |words[j]| ==> 0 <= words[j][k] < vocab
    {
      var w := words[i];
      assert w in words;
      for k := 0 to |w|
        invariant forall m :: 0 <= m < k ==> 0 <= w[m] < vocab
      {
        if w[k] < 0 || w[k] >= vocab {
          return false;
        }
      }
    }
    ok := true;
  }

  /** The bias after one word: the last token of a word whose other tokens just passed. */
  method ApplyWord(past: seq<TokenId>, w: Word, bias: seq<Logit>) returns (r: seq<Logit>)
    requires |w| >= 1 && 0 <= w[|w| - 1] < |bias|
    ensures |r| == |bias|
    ensures forall t :: 0 <= t < |bias| ==> r[t] == if |w| >= 2 && Completes(past, t, w) then NegInf else bias[t]
  {
    r := bias;
    if |w| != 1 && |w| <= |past| + 1 {
      var prefix := |w| - 1;
      var last := w[|w| - 1];
      var delta := if past[|past| - prefix..] == w[..prefix] then NegInf else Finite(0.0);
      r := bias[last := Add(bias[last], delta)];
    }
  }

  predicate BannedByLong(words: seq<Word>, past: seq<TokenId>, t: TokenId) {
    exists w :: w in words && |w| >= 2 && Completes(past, t, w)
  }

  lemma LongGrows(ws: seq<Word>, w: Word, past: seq<TokenId>, t: TokenId)
    ensures BannedByLong(ws + [w], past, t) <==> BannedByLong(ws, past, t) || (|w| >= 2 && Completes(past, t, w))
  {
    if |w| >= 2 && Completes(past, t, w) {
      assert w in ws + [w];
    }
    if BannedByLong(ws, past, t) {
      var v :| v in ws && |v| >= 2 && Completes(past, t, v);
      assert v in ws + [w];
    }
  }

  /** One-token words and longer words together. */
  lemma BannedIs(words: seq<Word>, past: seq<TokenId>, t: TokenId)
    ensures Banned(words, past, t) <==> [t] in words || BannedByLong(words, past, t)
  {
    if Banned(words, past, t) {
      var w :| w in words && Completes(past, t, w);
      if |w| == 1 {
        assert w == [t];
      }
    }
    if [t] in words {
      assert Completes(past, t, [t]);
    }
  }

  // ---------------------------------------------------------------------------
  // Generation
  // ---------------------------------------------------------------------------

  /** An output that can be generated from nothing: no token was banned when it was picked. */
  ghost predicate Generated(words: seq<Word>, s: seq<TokenId>) {
    forall k :: 0 <= k < |s| ==> !Banned(words, s[..k], s[k])
  }

  ghost predicate Free(words: seq<Word>, s: seq<TokenId>) {
    forall w :: w in words && |w| >= 1 ==> !Occurs(s, w)
  }

  /** A block that ends with token `k` is a word that this token completed. */
  lemma BlockEnds(s: seq<TokenId>, w: Word, i: int)
    requires |w| >= 1 && OccursAt(s, w, i)
    ensures var k := i + |w| - 1; 0 <= k < |s| && Completes(s[..k], s[k], w)
  {
    var k := i + |w| - 1;
    assert s[i..i + |w|][|w| - 1] == s[k];
    assert s[..k][i..] == s[i..i + |w|][..|w| - 1];
  }

  lemma CompletedBlock(s: seq<TokenId>, w: Word, k: nat)
    requires k < |s| && Completes(s[..k], s[k], w)
    ensures OccursAt(s, w, k + 1 - |w|)
  {
    var i := k + 1 - |w|;
    assert s[i..k + 1] == s[..k][i..] + [s[k]];
    assert w == w[..|w| - 1] + [w[|w| - 1]];
  }

  /** Main theorem: the outputs that can be generated are exactly those that contain no
      non-empty bad word. */
  lemma GeneratedIff(words: seq<Word>, s: seq<TokenId>)
    ensures Generated(words, s) <==> Free(words, s)
  {
    if Generated(words, s) {
      forall w | w in words && |w| >= 1 ensures !Occurs(s, w) {
        if Occurs(s, w) {
          var i :| OccursAt(s, w, i);
          BlockEnds(s, w, i);
        }
      }
    }
    if Free(words, s) {
      forall k | 0 <= k < |s| ensures !Banned(words, s[..k], s[k]) {
        if Banned(words, s[..k], s[k]) {
          var w :| w in words && Completes(s[..k], s[k], w);
          CompletedBlock(s, w, k);
        }
      }
    }
  }

  /** A generation loop: at every step the processor is applied to the model's logits, and any
      token whose processed logit is not minus infinity may be picked; `pick` proposes one, and
      the run ends when it proposes a suppressed or unknown token. */
  method Generate(words: seq<Word>, model: seq<seq<Logit>>, pick: seq<TokenId>, vocab: nat) returns (out: seq<TokenId>)
    requires InBounds(words, vocab) && [] !in words && |pick| == |model|
    requires forall k :: 0 <= k < |model| ==> |model[k]| == vocab
    ensures out <= pick && Free(words, out)
    ensures |out| < |pick| ==>
              var t := pick[|out|];
              t < 0 || t >= vocab || model[|out|][t].NegInf? || !Free(words, out + [t])
  {
    var p := new NoBadWords(words);
    out := [];
    while |out| < |pick|
      invariant fresh(p) && p.Valid() && p.words == words && (p.wordBias.Some? ==> |p.wordBias.value| == vocab)
      invariant out <= pick && Generated(words, out)
      decreases |pick| - |out|
    {
      var t := pick[|out|];
      var r := p.Call(out, model[|out|]);
      if t < 0 || t >= vocab || r.values[t].NegInf? {
        Extends(words, out, t);
        GeneratedIff(words, out);
        GeneratedIff(words, out + [t]);
        return;
      }
      Extends(words, out, t);
      out := out + [t];
    }
    GeneratedIff(words, out);
  }

  lemma Extends(words: seq<Word>, s: seq<TokenId>, t: TokenId)
    requires Generated(words, s)
    ensures Generated(words, s + [t]) <==> !Banned(words, s, t)
  {
    var u := s + [t];
    assert u[..|s|] == s;
    forall k | 0 <= k < |s| ensures !Banned(words, u[..k], u[k]) {
      assert u[..k] == s[..k];
    }
  }
}
