/** What a command line means, as a grammar, and that the tokenizer reads every line by it. */
module CommandGrammar {
  import opened Wrappers
  import opened Command

  // ── the grammar ───────────────────────────────────────────

  /** A unit inside double quotes, as it is or behind a backslash. */
  datatype Inner = Just(u: Unit) | Slashed(u: Unit)

  /** What a word is made of. Inside single quotes everything stands for itself. */
  datatype Part = Bare(u: Unit) | Escaped(u: Unit) | InSingle(text: Text) | InDouble(inner: seq<Inner>)

  datatype Item = Gap(space: Unit) | Piece(part: Part)

  predicate GoodPart(p: Part) {
    match p
    case Bare(u) => !IsSpace(u) && u != SINGLE && u != DOUBLE && u != BACKSLASH
    case Escaped(_) => true
    case InSingle(text) => SINGLE !in text
    case InDouble(inner) => forall k :: 0 <= k < |inner| && inner[k].Just? ==> inner[k].u != DOUBLE && inner[k].u != BACKSLASH
  }

  predicate Good(items: seq<Item>) {
    forall k :: 0 <= k < |items| ==> if items[k].Gap? then IsSpace(items[k].space) else GoodPart(items[k].part)
  }

  function InnerUnit(i: Inner): Text {
    if i.Just? then [i.u] else [BACKSLASH, i.u]
  }

  function InnerWritten(inner: seq<Inner>): Text {
    if inner == [] then []
    else InnerUnit(inner[0]) + InnerWritten(inner[1..])
  }

  function InnerMeant(inner: seq<Inner>): Text {
    if inner == [] then [] else [inner[0].u] + InnerMeant(inner[1..])
  }

  function PartWritten(p: Part): Text {
    match p
    case Bare(u) => [u]
    case Escaped(u) => [BACKSLASH, u]
    case InSingle(text) => [SINGLE] + text + [SINGLE]
    case InDouble(inner) => [DOUBLE] + InnerWritten(inner) + [DOUBLE]
  }

  function Meant(p: Part): Text {
    match p
    case Bare(u) => [u]
    case Escaped(u) => [u]
    case InSingle(text) => text
    case InDouble(inner) => InnerMeant(inner)
  }

  /** The line; `lone` is a backslash that ends it. */
  function Written(items: seq<Item>, lone: bool): Text {
    if items == [] then (if lone then [BACKSLASH] else [])
    else (if items[0].Gap? then [items[0].space] else PartWritten(items[0].part)) + Written(items[1..], lone)
  }

  /** Nothing of a word comes next. */
  predicate WordEnds(items: seq<Item>, lone: bool) {
    if items == [] then !lone else items[0].Gap?
  }

  /** The words: parts that touch make one word, and a lone backslash stands for itself. */
  function Words(items: seq<Item>, lone: bool): (ws: seq<Text>)
    ensures !WordEnds(items, lone) ==> ws != []
    decreases |items|, 0
  {
    if items == [] then (if lone then [[BACKSLASH]] else [])
    else if items[0].Gap? then Words(items[1..], lone)
    else After(Meant(items[0].part), items[1..], lone)
  }

  /** The words behind the beginning of one. */
  function After(begun: Text, items: seq<Item>, lone: bool): (ws: seq<Text>)
    decreases |items|, 1
  {
    var ws := Words(items, lone);
    if WordEnds(items, lone) then [begun] + ws else [begun + ws[0]] + ws[1..]
  }

  // ── the tokenizer reads it ────────────────────────────────

  function Open(out: seq<Text>, cur: Text, quote: Unit): State {
    State(out, cur, Some(quote), true, false)
  }

  function Begun(out: seq<Text>, cur: Text): State {
    State(out, cur, None, true, false)
  }

  lemma {:induction false} ReadSingle(out: seq<Text>, cur: Text, text: Text)
    requires SINGLE !in text
    ensures Feed(Open(out, cur, SINGLE), text) == Open(out, cur + text, SINGLE)
    decreases |text|
  {
    if text == [] {
      assert cur + text == cur;
    } else {
      assert Eat(Open(out, cur, SINGLE), text[0]) == Open(out, cur + [text[0]], SINGLE);
      ReadSingle(out, cur + [text[0]], text[1..]);
      assert cur + [text[0]] + text[1..] == cur + text;
    }
  }

  lemma ReadInnerUnit(out: seq<Text>, cur: Text, i: Inner)
    requires i.Just? ==> i.u != DOUBLE && i.u != BACKSLASH
    ensures Feed(Open(out, cur, DOUBLE), InnerUnit(i)) == Open(out, cur + [i.u], DOUBLE)
  {
    if i.Just? {
      FeedOne(Open(out, cur, DOUBLE), i.u);
    } else {
      assert [BACKSLASH, i.u] == [BACKSLASH] + [i.u];
      FeedConcat(Open(out, cur, DOUBLE), [BACKSLASH], [i.u]);
      FeedOne(Open(out, cur, DOUBLE), BACKSLASH);
      FeedOne(Eat(Open(out, cur, DOUBLE), BACKSLASH), i.u);
    }
  }

  lemma InnerSplits(inner: seq<Inner>)
    requires inner != [] && GoodPart(InDouble(inner))
    ensures InnerWritten(inner) == InnerUnit(inner[0]) + InnerWritten(inner[1..])
    ensures InnerMeant(inner) == [inner[0].u] + InnerMeant(inner[1..])
    ensures GoodPart(InDouble(inner[1..])) && (inner[0].Just? ==> inner[0].u != DOUBLE && inner[0].u != BACKSLASH)
  {
    assert forall k :: 0 <= k < |inner[1..]| ==> inner[1..][k] == inner[k + 1];
  }

  lemma {:induction false} ReadInner(out: seq<Text>, cur: Text, inner: seq<Inner>)
    requires GoodPart(InDouble(inner))
    ensures Feed(Open(out, cur, DOUBLE), InnerWritten(inner)) == Open(out, cur + InnerMeant(inner), DOUBLE)
    decreases |inner|
  {
    if inner == [] {
      FeedNothing(Open(out, cur, DOUBLE));
      assert cur + [] == cur;
    } else {
      hide *;
      var (i, rest) := (inner[0], inner[1..]);
      InnerSplits(inner);
      ReadInnerUnit(out, cur, i);
      FeedConcat(Open(out, cur, DOUBLE), InnerUnit(i), InnerWritten(rest));
      ReadInner(out, cur + [i.u], rest);
      assert cur + [i.u] + InnerMeant(rest) == cur + ([i.u] + InnerMeant(rest));
    }
  }

  lemma FeedNothing(st: State)
    ensures Feed(st, []) == st
  {}

  /** A quoted part, given how its inside is read. */
  lemma ReadQuotes(out: seq<Text>, cur: Text, has: bool, quote: Unit, inside: Text, meant: Text)
    requires IsQuote(quote) && Feed(Open(out, cur, quote), inside) == Open(out, cur + meant, quote)
    ensures Feed(State(out, cur, None, has, false), [quote] + inside + [quote]) == Begun(out, cur + meant)
  {
    hide Feed;
    var st := State(out, cur, None, has, false);
    FeedConcat(st, [quote] + inside, [quote]);
    FeedConcat(st, [quote], inside);
    FeedOne(st, quote);
    FeedOne(Open(out, cur + meant, quote), quote);
  }

  /** A part is added to the word under way. */
  lemma ReadPart(out: seq<Text>, cur: Text, has: bool, p: Part)
    requires GoodPart(p)
    ensures Feed(State(out, cur, None, has, false), PartWritten(p)) == Begun(out, cur + Meant(p))
  {
    hide Feed;
    var st := State(out, cur, None, has, false);
    match p
    case Bare(u) => FeedOne(st, u);
    case Escaped(u) =>
      assert [BACKSLASH, u] == [BACKSLASH] + [u];
      FeedConcat(st, [BACKSLASH], [u]);
      FeedOne(st, BACKSLASH);
      FeedOne(Eat(st, BACKSLASH), u);
    case InSingle(text) =>
      ReadSingle(out, cur, text);
      ReadQuotes(out, cur, has, SINGLE, text, text);
    case InDouble(inner) =>
      ReadInner(out, cur, inner);
      ReadQuotes(out, cur, has, DOUBLE, InnerWritten(inner), InnerMeant(inner));
  }

  lemma RestIsGood(items: seq<Item>)
    requires items != [] && Good(items)
    ensures Good(items[1..]) && if items[0].Gap? then IsSpace(items[0].space) else GoodPart(items[0].part)
  {
    assert forall k :: 0 <= k < |items[1..]| ==> items[1..][k] == items[k + 1];
  }

  /** With no word begun, and with one. */
  lemma {:induction false} ReadFresh(out: seq<Text>, items: seq<Item>, lone: bool)
    requires Good(items)
    ensures Finish(Feed(Fresh(out), Written(items, lone))) == Ok(out + Words(items, lone))
    decreases |items|, 0
  {
    hide Feed, Good, GoodPart, PartWritten, Meant;
    if items == [] {
      EndOfLine(Fresh(out), lone);
      assert out + [] == out && [] + [BACKSLASH] == [BACKSLASH];
    } else {
      var rest := items[1..];
      RestIsGood(items);
      if items[0].Gap? {
        FeedConcat(Fresh(out), [items[0].space], Written(rest, lone));
        FeedOne(Fresh(out), items[0].space);
        SpaceAfter(out, [], false, items[0].space);
        ReadFresh(out, rest, lone);
      } else {
        var p := items[0].part;
        FeedConcat(Fresh(out), PartWritten(p), Written(rest, lone));
        ReadPart(out, [], false, p);
        assert [] + Meant(p) == Meant(p);
        ReadBegun(out, Meant(p), rest, lone);
      }
    }
  }

  lemma {:induction false} ReadBegun(out: seq<Text>, cur: Text, items: seq<Item>, lone: bool)
    requires Good(items)
    ensures Finish(Feed(Begun(out, cur), Written(items, lone))) == Ok(out + After(cur, items, lone))
    decreases |items|, 1
  {
    hide Feed, Good, GoodPart, PartWritten, Meant;
    if items == [] {
      EndOfLine(Begun(out, cur), lone);
      assert After(cur, items, lone) == [if lone then cur + [BACKSLASH] else cur];
    } else {
      var rest := items[1..];
      RestIsGood(items);
      if items[0].Gap? {
        FeedConcat(Begun(out, cur), [items[0].space], Written(rest, lone));
        FeedOne(Begun(out, cur), items[0].space);
        SpaceAfter(out, cur, true, items[0].space);
        ReadFresh(out + [cur], rest, lone);
        assert out + [cur] + Words(rest, lone) == out + ([cur] + Words(rest, lone));
      } else {
        var p := items[0].part;
        FeedConcat(Begun(out, cur), PartWritten(p), Written(rest, lone));
        ReadPart(out, cur, true, p);
        ReadBegun(out, cur + Meant(p), rest, lone);
        AfterTwice(cur, Meant(p), rest, lone);
      }
    }
  }

  lemma AfterTwice(a: Text, b: Text, items: seq<Item>, lone: bool)
    ensures var ws := After(b, items, lone); After(a + b, items, lone) == [a + ws[0]] + ws[1..]
  {
    var ws := Words(items, lone);
    if !WordEnds(items, lone) { assert a + b + ws[0] == a + (b + ws[0]); }
  }

  lemma EndOfLine(st: State, lone: bool)
    requires st.quote == None && !st.esc
    ensures Finish(Feed(st, if lone then [BACKSLASH] else [])) ==
      Ok(if lone then st.out + [st.cur + [BACKSLASH]] else Push(st).out)
  {
    if lone { FeedOne(st, BACKSLASH); }
  }

  lemma SpaceAfter(out: seq<Text>, cur: Text, has: bool, c: Unit)
    requires IsSpace(c) && (!has ==> cur == [])
    ensures Eat(State(out, cur, None, has, false), c) == Fresh(if has then out + [cur] else out)
  {}

  // ── and there is nothing else to read ─────────────────────

  /** The line can be written in this way. */
  predicate Spells(items: seq<Item>, lone: bool, s: Text) {
    Good(items) && Written(items, lone) == s
  }

  lemma SpellsMore(i: Item, items: seq<Item>, lone: bool, head: Text, s: Text)
    requires Spells(items, lone, s) && head == (if i.Gap? then [i.space] else PartWritten(i.part))
    requires if i.Gap? then IsSpace(i.space) else GoodPart(i.part)
    ensures Spells([i] + items, lone, head + s)
  {
    hide GoodPart, PartWritten;
    assert ([i] + items)[1..] == items;
  }

  lemma {:induction false} NeverClosed(st: State, s: Text)
    requires st.quote == Some(SINGLE) && !st.esc && SINGLE !in s
    ensures Finish(Feed(st, s)).Err?
    decreases |s|
  {
    if s != [] { NeverClosed(Eat(st, s[0]), s[1..]); }
  }

  /** Either a closing double quote comes, or it never does. */
  lemma {:induction false} ScanDouble(s: Text) returns (closed: bool, inner: seq<Inner>, rest: Text)
    ensures closed ==> GoodPart(InDouble(inner)) && s == InnerWritten(inner) + [DOUBLE] + rest
    ensures !closed ==> forall st: State :: st.quote == Some(DOUBLE) && !st.esc ==> Finish(Feed(st, s)).Err?
    decreases |s|
  {
    closed, inner, rest := false, [], [];
    if s == [] {
    } else if s[0] == DOUBLE {
      closed, rest := true, s[1..];
      assert s == [] + [DOUBLE] + rest;
    } else if s[0] == BACKSLASH && |s| == 1 {
      forall st: State | st.quote == Some(DOUBLE) && !st.esc ensures Finish(Feed(st, s)).Err? { FeedOne(st, BACKSLASH); assert s == [BACKSLASH]; }
    } else {
      var n := if s[0] == BACKSLASH then 2 else 1;
      var i := if s[0] == BACKSLASH then Slashed(s[1]) else Just(s[0]);
      var c, more, r := ScanDouble(s[n..]);
      closed, inner, rest := c, [i] + more, r;
      assert s == s[..n] + s[n..] && s[..n] == InnerUnit(i);
      if c {
        assert inner[1..] == more;
        assert s[..n] + (InnerWritten(more) + [DOUBLE] + rest) == s[..n] + InnerWritten(more) + [DOUBLE] + rest;
        assert forall k :: 1 <= k < |inner| ==> inner[k] == more[k - 1];
      } else {
        forall st: State | st.quote == Some(DOUBLE) && !st.esc ensures Finish(Feed(st, s)).Err? {
          FeedConcat(st, s[..n], s[n..]);
          StaysInside(st, i);
        }
      }
    }
  }

  lemma StaysInside(st: State, i: Inner)
    requires st.quote == Some(DOUBLE) && !st.esc && (i.Just? ==> i.u != DOUBLE && i.u != BACKSLASH)
    ensures var t := Feed(st, InnerUnit(i)); t.quote == Some(DOUBLE) && !t.esc
  {
    if i.Just? {
      FeedOne(st, i.u);
    } else {
      assert [BACKSLASH, i.u] == [BACKSLASH] + [i.u];
      FeedConcat(st, [BACKSLASH], [i.u]);
      FeedOne(st, BACKSLASH);
      FeedOne(Eat(st, BACKSLASH), i.u);
    }
  }

  /** Nothing can be made of this rest of a line: a quote in it is never closed. */
  ghost predicate Unclosed(s: Text) {
    forall st: State :: st.quote == None && !st.esc ==> Finish(Feed(st, s)).Err?
  }

  lemma UnclosedBehind(head: Text, p: Part, s: Text)
    requires GoodPart(p) && head == PartWritten(p) && Unclosed(s)
    ensures Unclosed(head + s)
  {
    hide Feed, GoodPart, PartWritten, Finish;
    forall st: State | st.quote == None && !st.esc ensures Finish(Feed(st, head + s)).Err? {
      FeedConcat(st, head, s);
      ReadPart(st.out, st.cur, st.has, p);
    }
  }

  lemma UnclosedGap(c: Unit, s: Text)
    requires IsSpace(c) && Unclosed(s)
    ensures Unclosed([c] + s)
  {
    forall st: State | st.quote == None && !st.esc ensures Finish(Feed(st, [c] + s)).Err? {
      FeedConcat(st, [c], s);
      FeedOne(st, c);
    }
  }

  lemma UnclosedQuote(q: Unit, s: Text)
    requires IsQuote(q) && forall st: State :: st.quote == Some(q) && !st.esc ==> Finish(Feed(st, s)).Err?
    ensures Unclosed([q] + s)
  {
    forall st: State | st.quote == None && !st.esc ensures Finish(Feed(st, [q] + s)).Err? {
      FeedConcat(st, [q], s);
      FeedOne(st, q);
    }
  }

  /** The first part or gap of a line, and what follows it. */
  predicate Splits(i: Item, rest: Text, s: Text) {
    && s == (if i.Gap? then [i.space] else PartWritten(i.part)) + rest && |rest| < |s|
    && if i.Gap? then IsSpace(i.space) else GoodPart(i.part)
  }

  lemma FirstItem(s: Text) returns (found: bool, i: Item, rest: Text)
    requires s != [] && s != [BACKSLASH]
    ensures if found then Splits(i, rest, s) else Unclosed(s)
  {
    var c := s[0];
    found, i, rest := true, Gap(c), s[1..];
    assert s == [c] + s[1..];
    if IsSpace(c) {
    } else if c == BACKSLASH {
      i, rest := Piece(Escaped(s[1])), s[2..];
      assert s == [BACKSLASH, s[1]] + s[2..];
    } else if c == SINGLE {
      if SINGLE in s[1..] {
        var k := FirstAt(s[1..], SINGLE);
        i, rest := Piece(InSingle(s[1..][..k])), s[k + 2..];
        assert s == [SINGLE] + s[1..][..k] + [SINGLE] + s[k + 2..];
      } else {
        forall st: State | st.quote == Some(SINGLE) && !st.esc ensures Finish(Feed(st, s[1..])).Err? { NeverClosed(st, s[1..]); }
        UnclosedQuote(SINGLE, s[1..]);
        found := false;
      }
    } else if c == DOUBLE {
      var closed, inner, r := ScanDouble(s[1..]);
      found, i, rest := closed, Piece(InDouble(inner)), r;
      if closed {
        assert s == [DOUBLE] + InnerWritten(inner) + [DOUBLE] + rest;
      } else {
        UnclosedQuote(DOUBLE, s[1..]);
      }
    } else {
      i := Piece(Bare(c));
    }
  }

  lemma {:induction false} FirstAt(s: Text, c: Unit) returns (k: nat)
    requires c in s
    ensures k < |s| && s[k] == c && c !in s[..k]
  {
    if s[0] == c {
      k := 0;
    } else {
      k := FirstAt(s[1..], c);
      assert s[..k + 1] == [s[0]] + s[1..][..k];
      k := k + 1;
    }
  }

  lemma {:induction false} SpelledOrUnclosed(s: Text)
    ensures (exists items, lone :: Spells(items, lone, s)) || Unclosed(s)
    decreases |s|
  {
    hide Unclosed, GoodPart, PartWritten;
    if s == [] || s == [BACKSLASH] {
      assert Spells([], s != [], s);
    } else {
      var found, i, rest := FirstItem(s);
      if found {
        var head := if i.Gap? then [i.space] else PartWritten(i.part);
        SpelledOrUnclosed(rest);
        if items, lone :| Spells(items, lone, rest) {
          SpellsMore(i, items, lone, head, rest);
        } else if i.Gap? {
          UnclosedGap(i.space, rest);
        } else {
          UnclosedBehind(head, i.part, rest);
        }
      }
    }
  }

  /**
   * The tokenizer answers these words if and only if the line can be written as gaps and parts that mean them; and it
   * fails if and only if the line cannot be written so, which is when a quote is not closed.
   */
  lemma LexIsGrammar(s: Text, words: seq<Text>)
    ensures Lex(s) == Ok(words) <==> exists items, lone :: Spells(items, lone, s) && Words(items, lone) == words
    ensures Lex(s).Err? <==> !exists items, lone :: Spells(items, lone, s)
  {
    hide Feed, Good, Words, Written;
    SpelledOrUnclosed(s);
    forall items, lone | Spells(items, lone, s) ensures Lex(s) == Ok(Words(items, lone)) {
      ReadFresh([], items, lone);
      assert [] + Words(items, lone) == Words(items, lone);
    }
  }

  // ── what it comes to ──────────────────────────────────────

  lemma OneWord(i: Item)
    requires i.Piece?
    ensures Words([i], false) == [Meant(i.part)]
  {
    assert [i][1..] == [];
    assert Words([], false) == [];
    assert After(Meant(i.part), [], false) == [Meant(i.part)];
  }

  /** Between single quotes everything is literal, backslashes and double quotes included. */
  lemma SingleQuotesAreLiteral(w: Text)
    requires SINGLE !in w
    ensures Lex([SINGLE] + w + [SINGLE]) == Ok([w])
  {
    var items := [Piece(InSingle(w))];
    assert items[1..] == [];
    assert Written(items, false) == [SINGLE] + w + [SINGLE] + [];
    assert Spells(items, false, [SINGLE] + w + [SINGLE]);
    OneWord(Piece(InSingle(w)));
    LexIsGrammar([SINGLE] + w + [SINGLE], [w]);
  }

  /** Behind a backslash outside quotes any unit is literal, white space and quotes included. */
  lemma BackslashIsLiteral(u: Unit)
    ensures Lex([BACKSLASH, u]) == Ok([[u]])
  {
    var items := [Piece(Escaped(u))];
    assert items[1..] == [];
    assert Written(items, false) == [BACKSLASH, u] + [];
    assert Spells(items, false, [BACKSLASH, u]);
    OneWord(Piece(Escaped(u)));
    LexIsGrammar([BACKSLASH, u], [[u]]);
  }

  /** A single quote that is not closed is an error, behind anything that is complete. */
  lemma OpenSingleQuoteFails(a: Text, b: Text)
    requires Lex(a).Ok? && SINGLE !in b && (a == [] || a[|a| - 1] != BACKSLASH)
    ensures Lex(a + [SINGLE] + b).Err?
  {
    hide Feed;
    var st := Feed(Fresh([]), a);
    FeedConcat(Fresh([]), a, [SINGLE] + b);
    assert a + ([SINGLE] + b) == a + [SINGLE] + b;
    NotEscaping(a);
    FeedConcat(st, [SINGLE], b);
    FeedOne(st, SINGLE);
    NeverClosed(Eat(st, SINGLE), b);
  }

  lemma NotEscaping(a: Text)
    requires a == [] || a[|a| - 1] != BACKSLASH
    ensures !Feed(Fresh([]), a).esc
  {
    if a != [] {
      var n := |a| - 1;
      assert a == a[..n] + [a[n]];
      FeedConcat(Fresh([]), a[..n], [a[n]]);
      FeedOne(Feed(Fresh([]), a[..n]), a[n]);
    }
  }
}
