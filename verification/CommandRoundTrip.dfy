/** Printing words and reading them back: exactly which lists of words survive. */
module CommandRoundTrip {
  import opened Wrappers
  import opened Command

  // ── the condition ─────────────────────────────────────────

  /** A unit the tokenizer does not take literally outside quotes. */
  predicate Special(u: Unit) {
    IsQuote(u) || u == BACKSLASH
  }

  predicate Plain(w: Text) {
    forall i :: 0 <= i < |w| ==> !Special(w[i])
  }

  /** What a word must be like; the last one may end in a backslash. */
  predicate Clean(w: Text, last: bool) {
    if HasSpace(w) then NoControl(w) && Paired(w)
    else w != [] && (Plain(w) || (last && w[|w| - 1] == BACKSLASH && Plain(w[..|w| - 1])))
  }

  predicate AllClean(words: seq<Text>) {
    forall i :: 0 <= i < |words| ==> Clean(words[i], i == |words| - 1)
  }

  // ── a word printed as it is ───────────────────────────────

  /** The state after the units of a word without white space: nothing has been pushed, and little has been lost. */
  ghost predicate RawState(st: State, out: seq<Text>, w: Text) {
    && st.out == out
    && (st.quote.Some? ==> IsQuote(st.quote.value)) && (st.quote.Some? || st.cur != [] ==> st.has)
    && |st.cur| + (if st.esc then 1 else 0) <= |w|
    && (|st.cur| == |w| ==> st.cur == w && Plain(w) && st.quote == None && !st.esc)
    && (st.esc ==> w != [] && w[|w| - 1] == BACKSLASH)
    && (st.esc && |st.cur| + 1 == |w| ==> st.cur == w[..|w| - 1] && Plain(st.cur) && st.quote == None)
    && (w == [] ==> !st.has) && (w != [] && !st.esc ==> st.has)
    && Kept(w, st.cur)
  }

  /** Nothing but quotes and backslashes is dropped. */
  predicate Kept(w: Text, cur: Text) {
    forall i :: 0 <= i < |w| ==> Special(w[i]) || w[i] in cur
  }

  lemma {:induction false} ReadRaw(out: seq<Text>, w: Text)
    requires !HasSpace(w)
    ensures RawState(Feed(Fresh(out), w), out, w)
    decreases |w|
  {
    if w != [] {
      var n := |w| - 1;
      var init, c := w[..n], w[n];
      assert w == init + [c];
      assert forall i :: 0 <= i < n ==> !IsSpace(w[i]);
      assert !HasSpace(init) by { assert forall i :: 0 <= i < n ==> init[i] == w[i]; }
      ReadRaw(out, init);
      FeedConcat(Fresh(out), init, [c]);
      FeedOne(Feed(Fresh(out), init), c);
      assert !IsSpace(c);
      RawOneMore(Feed(Fresh(out), init), out, init, c);
    }
  }

  lemma RawOneMore(st: State, out: seq<Text>, w: Text, c: Unit)
    requires RawState(st, out, w) && !IsSpace(c)
    ensures RawState(Eat(st, c), out, w + [c])
  {}

  // ── the token under way only grows ────────────────────────

  /** Among the tokens from `n` on, the first begins with `p`. */
  ghost predicate Begins(tokens: seq<Text>, n: nat, p: Text) {
    n < |tokens| && p <= tokens[n]
  }

  /** What has been pushed stays, and the token under way keeps its beginning. */
  lemma {:induction false} FeedGrows(st: State, s: Text)
    ensures st.out <= Feed(st, s).out
    ensures st.cur != [] ==> (Feed(st, s).out == st.out && st.cur <= Feed(st, s).cur) || Begins(Feed(st, s).out, |st.out|, st.cur)
    decreases |s|
  {
    if s != [] {
      var t := Eat(st, s[0]);
      assert st.out <= t.out;
      assert st.cur != [] ==> (t.out == st.out && t.cur != [] && st.cur <= t.cur) || Begins(t.out, |st.out|, st.cur);
      FeedGrows(t, s[1..]);
    }
  }

  lemma FinishGrows(st: State, s: Text, tokens: seq<Text>)
    requires Finish(Feed(st, s)) == Ok(tokens)
    ensures st.out <= tokens
    ensures st.cur != [] ==> Begins(tokens, |st.out|, st.cur)
  {
    hide Feed;
    FeedGrows(st, s);
    var t := Feed(st, s);
    assert t.out <= tokens;
  }

  // ── one word and the space behind it ──────────────────────

  /** The rest of the display after its first word. */
  function Rest(words: seq<Text>): Text
    requires words != []
  {
    if |words| == 1 then [] else [SPACE] + Display(words[1..])
  }

  lemma DisplaySplits(words: seq<Text>)
    requires words != []
    ensures Display(words) == Printed(words[0]) + Rest(words)
  {}

  lemma SpaceThen(st: State, s: Text)
    ensures Feed(st, [SPACE] + s) == Feed(Eat(st, SPACE), s)
  {}

  /**
   * A printed word that is read with nothing open gives its token and leaves the rest to be read with nothing open;
   * otherwise the token runs on over the space.
   */
  lemma ReadWord(out: seq<Text>, words: seq<Text>, tokens: seq<Text>)
    requires words != [] && Finish(Feed(Fresh(out), Display(words))) == Ok(tokens)
    requires HasSpace(words[0])
    ensures out + [Shown(words[0])] <= tokens
    ensures |words| > 1 ==> Finish(Feed(Fresh(out + [Shown(words[0])]), Display(words[1..]))) == Ok(tokens)
    ensures |words| == 1 ==> tokens == out + [Shown(words[0])]
  {
    hide Feed, Printed, Display, HasSpace, Shown, Eat, Finish;
    var st := State(out, Shown(words[0]), None, true, false);
    DisplaySplits(words);
    FeedConcat(Fresh(out), Printed(words[0]), Rest(words));
    ReadQuoted(out, words[0]);
    if |words| > 1 {
      SpaceThen(st, Display(words[1..]));
      SpaceNext(st);
      FinishGrows(Fresh(out + [Shown(words[0])]), Display(words[1..]), tokens);
    } else {
      FeedNothing(st);
      FinishClosed(st);
    }
  }

  lemma FeedNothing(st: State)
    ensures Feed(st, []) == st
  {}

  lemma FinishClosed(st: State)
    requires st.quote == None && !st.esc && st.has
    ensures Finish(st) == Ok(st.out + [st.cur])
  {}

  /** Without white space: how the first word and what follows it were read. */
  lemma ReadRawWord(out: seq<Text>, words: seq<Text>, tokens: seq<Text>)
    requires words != [] && Finish(Feed(Fresh(out), Display(words))) == Ok(tokens)
    requires !HasSpace(words[0])
    ensures var st := Feed(Fresh(out), words[0]);
      && RawState(st, out, words[0])
      && (|words| == 1 ==> Finish(st) == Ok(tokens))
      && (|words| > 1 && (st.quote.Some? || st.esc) ==> Begins(tokens, |out|, st.cur + [SPACE]))
      && (|words| > 1 && st.quote == None && !st.esc ==> Finish(Feed(Push(st), Display(words[1..]))) == Ok(tokens))
  {
    hide Feed, Display, HasSpace, RawState, Eat, Finish, Push;
    var st := Feed(Fresh(out), words[0]);
    ReadRaw(out, words[0]);
    RawOut(st, out, words[0]);
    DisplaySplits(words);
    FeedConcat(Fresh(out), words[0], Rest(words));
    if |words| > 1 {
      SpaceThen(st, Display(words[1..]));
      SpaceNext(st);
      FinishGrows(Eat(st, SPACE), Display(words[1..]), tokens);
    } else {
      FeedNothing(st);
    }
  }

  lemma RawOut(st: State, out: seq<Text>, w: Text)
    requires RawState(st, out, w)
    ensures st.out == out && (st.quote.Some? ==> IsQuote(st.quote.value))
  {}

  lemma SpaceNext(st: State)
    requires st.quote.Some? ==> IsQuote(st.quote.value)
    ensures if st.quote.Some? || st.esc then Eat(st, SPACE).out == st.out && Eat(st, SPACE).cur == st.cur + [SPACE]
            else Eat(st, SPACE) == Push(st)
  {}

  // ── clean words survive ───────────────────────────────────

  lemma {:induction false} PlainFeeds(out: seq<Text>, cur: Text, w: Text)
    requires Plain(w) && !HasSpace(w)
    ensures Feed(State(out, cur, None, cur != [], false), w) == State(out, cur + w, None, cur + w != [], false)
    decreases |w|
  {
    if w == [] {
      assert cur + w == cur;
    } else {
      assert !IsSpace(w[0]) && !Special(w[0]);
      assert forall i :: 0 <= i < |w[1..]| ==> w[1..][i] == w[i + 1];
      PlainFeeds(out, cur + [w[0]], w[1..]);
      assert cur + [w[0]] + w[1..] == cur + w;
    }
  }

  /** A clean word that is not the last one is read as itself. */
  lemma CleanWordFeeds(out: seq<Text>, w: Text)
    requires Clean(w, false)
    ensures Feed(Fresh(out), Printed(w)) == State(out, w, None, true, false)
  {
    hide Feed, NoControl, Paired, Plain;
    if HasSpace(w) {
      ReadQuoted(out, w);
      ShownIsExact(w);
    } else {
      PlainFeeds(out, [], w);
      assert [] + w == w;
    }
  }

  /** So is the last one, which may end in a backslash. */
  lemma CleanLastWord(out: seq<Text>, w: Text)
    requires Clean(w, true)
    ensures Finish(Feed(Fresh(out), Printed(w))) == Ok(out + [w])
  {
    hide Feed, NoControl, Paired;
    if Clean(w, false) {
      CleanWordFeeds(out, w);
    } else {
      var init := w[..|w| - 1];
      assert w == init + [BACKSLASH];
      assert !HasSpace(init) by { assert forall i :: 0 <= i < |init| ==> init[i] == w[i]; }
      PlainFeeds(out, [], init);
      assert [] + init == init;
      FeedConcat(Fresh(out), init, [BACKSLASH]);
      FeedOne(State(out, init, None, init != [], false), BACKSLASH);
    }
  }

  lemma {:induction false} CleanSurvives(out: seq<Text>, words: seq<Text>)
    requires words != [] && AllClean(words)
    ensures Finish(Feed(Fresh(out), Display(words))) == Ok(out + words)
    decreases |words|
  {
    hide Feed, Clean, Printed, Finish;
    var w := words[0];
    assert Clean(w, |words| == 1);
    if |words| == 1 {
      CleanLastWord(out, w);
      assert words == [w];
    } else {
      var rest := words[1..];
      assert forall i :: 0 <= i < |rest| ==> Clean(words[i + 1], i + 1 == |words| - 1) && rest[i] == words[i + 1];
      CleanSurvives(out + [w], rest);
      assert out + [w] + rest == out + words;
      DisplaySplits(words);
      FeedConcat(Fresh(out), Printed(w), Rest(words));
      CleanWordFeeds(out, w);
      SpaceThen(State(out, w, None, true, false), Display(rest));
      SpaceNext(State(out, w, None, true, false));
    }
  }

  // ── and nothing else does ─────────────────────────────────

  predicate AllSpecial(w: Text) {
    forall i :: 0 <= i < |w| ==> Special(w[i])
  }

  lemma {:induction false} ShownHasOrdinary(w: Text)
    requires HasSpace(w)
    ensures !AllSpecial(Shown(w))
    decreases |w|
  {
    if |w| >= 2 && Lead(w[0]) && Trail(w[1]) {
      assert !Special(Shown(w)[0]);
    } else if IsSpace(w[0]) {
      SpaceShowsOrdinary(w[0]);
      assert Shown(w)[0] == ShownUnit(w[0])[0];
    } else {
      var i :| 0 <= i < |w| && IsSpace(w[i]);
      assert w[1..][i - 1] == w[i];
      ShownHasOrdinary(w[1..]);
      assert Shown(w) == ShownUnit(w[0]) + Shown(w[1..]);
      var k :| 0 <= k < |Shown(w[1..])| && !Special(Shown(w[1..])[k]);
      assert !Special(Shown(w)[|ShownUnit(w[0])| + k]);
    }
  }

  lemma SpaceShowsOrdinary(u: Unit)
    requires IsSpace(u)
    ensures ShownUnit(u) != [] && !Special(ShownUnit(u)[0])
  {}

  lemma BeginsWithSpace(tokens: seq<Text>, n: nat, cur: Text)
    requires Begins(tokens, n, cur + [SPACE])
    ensures HasSpace(tokens[n]) && !AllSpecial(tokens[n])
  {
    assert tokens[n][|cur|] == (cur + [SPACE])[|cur|];
  }

  /** A word that was read with nothing open has become the token `cur`. */
  lemma PushedWord(out: seq<Text>, words: seq<Text>, tokens: seq<Text>, st: State)
    requires |words| > 1 && RawState(st, out, words[0]) && words[0] != [] && st.quote == None && !st.esc
    requires Finish(Feed(Push(st), Display(words[1..]))) == Ok(tokens)
    ensures Push(st) == Fresh(out + [st.cur]) && |tokens| > |out| && tokens[|out|] == st.cur
    ensures Kept(words[0], st.cur)
    ensures st.cur == words[0] ==> Plain(words[0])
  {
    hide Feed, Display, Kept;
    FinishGrows(Push(st), Display(words[1..]), tokens);
    assert (out + [st.cur])[|out|] == st.cur;
  }

  lemma KeptSpecial(w: Text, cur: Text)
    requires Kept(w, cur) && AllSpecial(cur)
    ensures AllSpecial(w)
  {}

  lemma NoWord(out: seq<Text>)
    ensures Feed(Fresh(out), []) == Fresh(out) == Push(Fresh(out)) && Finish(Fresh(out)) == Ok(out)
  {}

  /** A tokenizer that owes words made of quotes and backslashes alone never catches up. */
  lemma {:induction false} NeverCatchesUp(out: seq<Text>, owed: seq<Text>, words: seq<Text>, tokens: seq<Text>)
    requires owed != [] && words != [] && forall i :: 0 <= i < |owed| ==> AllSpecial(owed[i])
    requires Finish(Feed(Fresh(out), Display(words))) == Ok(tokens)
    ensures tokens != out + owed + words
    decreases |words|
  {
    hide Feed, Display, HasSpace, AllSpecial, Finish, Push, RawState, Kept, Shown;
    var w, rest := words[0], words[1..];
    assert (out + owed + words)[|out|] == owed[0];
    if HasSpace(w) {
      ReadWord(out, words, tokens);
      ShownHasOrdinary(w);
      assert (out + [Shown(w)])[|out|] == Shown(w);
    } else {
      ReadRawWord(out, words, tokens);
      NoWord(out);
      var st := Feed(Fresh(out), w);
      if |words| == 1 {
        OneToken(st, out, w, tokens);
      } else if w == [] {
        assert AllSpecial(w) by { NothingSpecial(); }
        NeverCatchesUp(out, owed + [w], rest, tokens);
        assert out + (owed + [w]) + rest == out + owed + words;
      } else if st.quote.Some? || st.esc {
        BeginsWithSpace(tokens, |out|, st.cur);
      } else {
        PushedWord(out, words, tokens, st);
        if st.cur == owed[0] {
          KeptSpecial(w, st.cur);
          NeverCatchesUp(out + [st.cur], owed[1..] + [w], rest, tokens);
          assert out + [st.cur] + (owed[1..] + [w]) + rest == out + owed + words;
        }
      }
    }
  }

  lemma NothingSpecial()
    ensures AllSpecial([])
  {}

  /** The last word gives one token at most. */
  lemma OneToken(st: State, out: seq<Text>, w: Text, tokens: seq<Text>)
    requires RawState(st, out, w) && Finish(st) == Ok(tokens)
    ensures |tokens| <= |out| + 1
    ensures tokens == out + [w] ==> Clean(w, true) || HasSpace(w)
  {
    hide HasSpace, Kept;
    assert (out + [w])[|out|] == w;
    if st.esc {
      assert (out + [st.cur + [BACKSLASH]])[|out|] == st.cur + [BACKSLASH];
    } else if st.has || st.cur != [] {
      assert (out + [st.cur])[|out|] == st.cur;
    }
  }

  lemma {:induction false} OnlyCleanSurvives(out: seq<Text>, words: seq<Text>)
    requires words != [] && Finish(Feed(Fresh(out), Display(words))) == Ok(out + words)
    ensures AllClean(words)
    decreases |words|
  {
    hide Feed, Display, HasSpace, AllSpecial, Finish, Push, RawState, Shown, NoControl, Paired, Plain;
    var w, rest, tokens := words[0], words[1..], out + words;
    assert tokens[|out|] == w;
    if HasSpace(w) {
      ReadWord(out, words, tokens);
      assert (out + [Shown(w)])[|out|] == Shown(w);
      ShownIsExact(w);
      if |words| > 1 {
        assert out + [w] + rest == tokens;
        OnlyCleanSurvives(out + [w], rest);
      }
    } else {
      ReadRawWord(out, words, tokens);
      NoWord(out);
      var st := Feed(Fresh(out), w);
      if |words| == 1 {
        assert words == [w];
        OneToken(st, out, w, tokens);
      } else if st.quote.Some? || st.esc {
        BeginsWithSpace(tokens, |out|, st.cur);
        assert false;
      } else if w == [] {
        NothingSpecial();
        assert out + [w] + rest == tokens;
        NeverCatchesUp(out, [w], rest, tokens);
        assert false;
      } else {
        PushedWord(out, words, tokens, st);
        assert out + [w] + rest == tokens;
        OnlyCleanSurvives(out + [w], rest);
      }
    }
    assert forall i :: 1 <= i < |words| ==> words[i] == rest[i - 1];
    assert Clean(w, |words| == 1);
  }

  /** Exactly the lists of clean words are read back as they were. */
  lemma RoundTrip(words: seq<Text>)
    requires words != []
    ensures Lex(Display(words)) == Ok(words) <==> AllClean(words)
  {
    hide Feed, Finish, Display, AllClean;
    assert [] + words == words;
    if AllClean(words) { CleanSurvives([], words); }
    if Lex(Display(words)) == Ok(words) { OnlyCleanSurvives([], words); }
  }

  // ── lines without quotes and backslashes ──────────────────

  /** The line cut at every white space. */
  function Pieces(s: Text): (ps: seq<Text>)
    ensures ps != []
  {
    if s == [] then [[]]
    else var rest := Pieces(s[1..]);
      if IsSpace(s[0]) then [[]] + rest else [[s[0]] + rest[0]] + rest[1..]
  }

  function NonEmpty(ps: seq<Text>): seq<Text> {
    if ps == [] then [] else (if ps[0] == [] then [] else [ps[0]]) + NonEmpty(ps[1..])
  }

  /** The pieces, the first of them glued to what came before. */
  function Glued(cur: Text, ps: seq<Text>): seq<Text>
    requires ps != []
  {
    [cur + ps[0]] + ps[1..]
  }

  lemma GlueNothing(ps: seq<Text>)
    requires ps != []
    ensures Glued([], ps) == ps
  {
    assert [] + ps[0] == ps[0];
    assert [ps[0]] + ps[1..] == ps;
  }

  lemma GlueToNothing(cur: Text, rest: seq<Text>)
    ensures Glued(cur, [[]] + rest) == [cur] + rest
  {
    var none: Text := [];
    assert ([none] + rest)[0] == none && ([none] + rest)[1..] == rest;
    assert cur + none == cur;
  }

  lemma GlueUnit(cur: Text, c: Unit, rest: seq<Text>)
    requires rest != []
    ensures Glued(cur + [c], rest) == Glued(cur, [[c] + rest[0]] + rest[1..])
  {
    var ps := [[c] + rest[0]] + rest[1..];
    assert ps[0] == [c] + rest[0] && ps[1..] == rest[1..];
    assert cur + [c] + rest[0] == cur + ([c] + rest[0]);
  }

  lemma NonEmptyHead(x: Text, rest: seq<Text>)
    ensures NonEmpty([x] + rest) == (if x == [] then [] else [x]) + NonEmpty(rest)
  {}

  lemma {:induction false} PlainLineFrom(out: seq<Text>, cur: Text, s: Text)
    requires Plain(s)
    ensures Finish(Feed(State(out, cur, None, cur != [], false), s)) == Ok(out + NonEmpty(Glued(cur, Pieces(s))))
    decreases |s|
  {
    hide NonEmpty, Glued;
    var st := State(out, cur, None, cur != [], false);
    if s == [] {
      GlueToNothing(cur, []);
      NonEmptyHead(cur, []);
      NothingLeft();
      assert Pieces(s) == [[]] + [];
      assert NonEmpty(Glued(cur, Pieces(s))) == if cur == [] then [] else [cur];
      assert out + [] == out;
    } else {
      var rest := Pieces(s[1..]);
      assert !Special(s[0]) && forall i :: 0 <= i < |s[1..]| ==> s[1..][i] == s[i + 1];
      if IsSpace(s[0]) {
        PlainLineFrom(Push(st).out, [], s[1..]);
        GlueToNothing(cur, rest);
        GlueNothing(rest);
        NonEmptyHead(cur, rest);
        assert Push(st).out + NonEmpty(rest) == out + NonEmpty([cur] + rest);
      } else {
        PlainLineFrom(out, cur + [s[0]], s[1..]);
        GlueUnit(cur, s[0], rest);
      }
    }
  }

  lemma NothingLeft()
    ensures NonEmpty([]) == []
  {}

  /** Without quotes and backslashes the tokenizer splits at white space and drops the empty pieces. */
  lemma PlainLine(s: Text)
    requires Plain(s)
    ensures Lex(s) == Ok(NonEmpty(Pieces(s)))
  {
    PlainLineFrom([], [], s);
    GlueNothing(Pieces(s));
    assert [] + NonEmpty(Pieces(s)) == NonEmpty(Pieces(s));
  }
}
