/** Command lines: the tokenizer, the printer, and exactly when the one undoes the other. */
module Command {
  import opened Wrappers

  /** Strings are sequences of UTF-16 code units. */
  type Unit = u: int | 0 <= u < 0x1_0000
  type Text = seq<Unit>

  const SPACE: Unit := 32
  const DOUBLE: Unit := 34
  const SINGLE: Unit := 39
  const BACKSLASH: Unit := 92
  const LETTER_U: Unit := 117

  datatype ParseError = UnterminatedQuote

  /** What the regular expression class of white space matches. */
  predicate IsSpace(u: Unit) {
    || 9 <= u <= 13 || u == 32 || u == 0xA0 || u == 0x1680 || 0x2000 <= u <= 0x200A
    || u == 0x2028 || u == 0x2029 || u == 0x202F || u == 0x205F || u == 0x3000 || u == 0xFEFF
  }

  predicate IsQuote(u: Unit) {
    u == DOUBLE || u == SINGLE
  }

  // ── the tokenizer, one unit at a time ─────────────────────

  /** `esc` is a backslash whose partner has not been seen yet. */
  datatype State = State(out: seq<Text>, cur: Text, quote: Option<Unit>, has: bool, esc: bool)

  function Fresh(out: seq<Text>): State {
    State(out, [], None, false, false)
  }

  function Push(st: State): State {
    Fresh(if st.has || st.cur != [] then st.out + [st.cur] else st.out)
  }

  function Eat(st: State, c: Unit): State {
    if st.esc then st.(cur := st.cur + [c], esc := false, has := st.has || st.quote == None)
    else if st.quote.Some? then
      if c == st.quote.value then st.(quote := None)
      else if c == BACKSLASH && st.quote.value == DOUBLE then st.(esc := true)
      else st.(cur := st.cur + [c])
    else if IsQuote(c) then st.(quote := Some(c), has := true)
    else if c == BACKSLASH then st.(esc := true)
    else if IsSpace(c) then Push(st)
    else st.(cur := st.cur + [c], has := true)
  }

  function Feed(st: State, s: Text): State
    decreases |s|
  {
    if s == [] then st else Feed(Eat(st, s[0]), s[1..])
  }

  /** A backslash that ends the line stands for itself. */
  function Finish(st: State): Result<seq<Text>, ParseError> {
    if st.quote.Some? then Err(UnterminatedQuote)
    else if st.esc then Ok(st.out + [st.cur + [BACKSLASH]])
    else Ok(Push(st).out)
  }

  function Lex(s: Text): Result<seq<Text>, ParseError> {
    Finish(Feed(Fresh([]), s))
  }

  lemma {:induction false} FeedConcat(st: State, a: Text, b: Text)
    ensures Feed(st, a + b) == Feed(Feed(st, a), b)
    decreases |a|
  {
    if a == [] {
      assert a + b == b;
    } else {
      assert (a + b)[1..] == a[1..] + b;
      FeedConcat(Eat(st, a[0]), a[1..], b);
    }
  }

  lemma FeedOne(st: State, c: Unit)
    ensures Feed(st, [c]) == Eat(st, c)
  {}

  /** `tokenize`: the loop looks ahead over a backslash instead of remembering it. */
  method Tokenize(input: Text) returns (r: Result<seq<Text>, ParseError>)
    ensures r == Lex(input)
  {
    var out: seq<Text>, cur: Text, quote: Option<Unit>, has := [], [], None, false;
    var i := 0;
    while i < |input|
      invariant 0 <= i <= |input|
      invariant (cur != [] || quote.Some? ==> has) && (quote.Some? ==> IsQuote(quote.value))
      invariant Lex(input) == Finish(Feed(State(out, cur, quote, has, false), input[i..]))
    {
      var c := input[i];
      assert input[i..][1..] == input[i + 1..];
      if i + 1 < |input| { assert input[i + 1..][1..] == input[i + 2..]; }
      if quote.Some? {
        if c == quote.value {
          quote := None;
        } else if c == BACKSLASH && quote.value == DOUBLE && i + 1 < |input| {
          i := i + 1;
          cur := cur + [input[i]];
        } else {
          cur := cur + [c];
        }
      } else if IsQuote(c) {
        quote, has := Some(c), true;
      } else if c == BACKSLASH && i + 1 < |input| {
        i := i + 1;
        cur, has := cur + [input[i]], true;
      } else if IsSpace(c) {
        if has || cur != [] { out := out + [cur]; }
        cur, has := [], false;
      } else {
        cur, has := cur + [c], true;
      }
      i := i + 1;
    }
    if quote.Some? { return Err(UnterminatedQuote); }
    if has || cur != [] { out := out + [cur]; }
    return Ok(out);
  }

  // ── the printer ───────────────────────────────────────────

  predicate HasSpace(w: Text) {
    exists i :: 0 <= i < |w| && IsSpace(w[i])
  }

  predicate Lead(u: Unit) { 0xD800 <= u <= 0xDBFF }
  predicate Trail(u: Unit) { 0xDC00 <= u <= 0xDFFF }

  function Hex(n: int): Unit
    requires 0 <= n < 16
  {
    if n < 10 then 48 + n else 87 + n
  }

  /** One unit inside a JSON string; a surrogate reaches this only when it is alone. */
  function Escape(u: Unit): (t: Text)
    ensures t == [u] || (|t| >= 2 && t[0] == BACKSLASH)
  {
    if u == DOUBLE || u == BACKSLASH then [BACKSLASH, u]
    else if u == 8 then [BACKSLASH, 98]
    else if u == 9 then [BACKSLASH, 116]
    else if u == 10 then [BACKSLASH, 110]
    else if u == 12 then [BACKSLASH, 102]
    else if u == 13 then [BACKSLASH, 114]
    else if u < 32 || Lead(u) || Trail(u) then
      [BACKSLASH, LETTER_U, Hex(u / 4096), Hex(u / 256 % 16), Hex(u / 16 % 16), Hex(u % 16)]
    else [u]
  }

  function JsonBody(w: Text): Text
    decreases |w|
  {
    if w == [] then []
    else if |w| >= 2 && Lead(w[0]) && Trail(w[1]) then [w[0], w[1]] + JsonBody(w[2..])
    else Escape(w[0]) + JsonBody(w[1..])
  }

  function Printed(w: Text): Text {
    if HasSpace(w) then [DOUBLE] + JsonBody(w) + [DOUBLE] else w
  }

  /** `cmd(...).display` for the file and its arguments. */
  function Display(words: seq<Text>): Text
    requires words != []
  {
    if |words| == 1 then Printed(words[0]) else Printed(words[0]) + [SPACE] + Display(words[1..])
  }

  // ── what the tokenizer reads from one printed word ────────

  /** What is left of an escape once the tokenizer has dropped the backslash. */
  function ShownUnit(u: Unit): Text {
    if Escape(u) == [u] then [u] else Escape(u)[1..]
  }

  function Shown(w: Text): Text
    decreases |w|
  {
    if w == [] then []
    else if |w| >= 2 && Lead(w[0]) && Trail(w[1]) then [w[0], w[1]] + Shown(w[2..])
    else ShownUnit(w[0]) + Shown(w[1..])
  }

  function Inside(out: seq<Text>, cur: Text): State {
    State(out, cur, Some(DOUBLE), true, false)
  }

  lemma ReadEscape(out: seq<Text>, cur: Text, u: Unit)
    ensures Feed(Inside(out, cur), Escape(u)) == Inside(out, cur + ShownUnit(u))
  {
    var st, t := Inside(out, cur), Escape(u);
    if t == [u] {
      FeedOne(st, u);
    } else if |t| == 2 {
      assert t == [t[0]] + [t[1]];
      FeedConcat(st, [t[0]], [t[1]]);
      FeedOne(st, t[0]);
      FeedOne(Eat(st, t[0]), t[1]);
      assert t[1..] == [t[1]];
    } else {
      ReadHex(out, cur, t);
    }
  }

  lemma ReadHex(out: seq<Text>, cur: Text, t: Text)
    requires |t| == 6 && t[0] == BACKSLASH && forall k :: 2 <= k < 6 ==> t[k] != DOUBLE && t[k] != BACKSLASH
    ensures Feed(Inside(out, cur), t) == Inside(out, cur + t[1..])
  {
    var st := Inside(out, cur);
    assert t == [t[0]] + t[1..] && t[1..] == [t[1]] + t[2..];
    FeedConcat(st, [t[0]], t[1..]);
    FeedOne(st, t[0]);
    FeedConcat(Eat(st, t[0]), [t[1]], t[2..]);
    FeedOne(Eat(st, t[0]), t[1]);
    ReadPlainInside(out, cur + [t[1]], t[2..]);
    assert cur + [t[1]] + t[2..] == cur + t[1..];
  }

  lemma {:induction false} ReadPlainInside(out: seq<Text>, cur: Text, s: Text)
    requires forall k :: 0 <= k < |s| ==> s[k] != DOUBLE && s[k] != BACKSLASH
    ensures Feed(Inside(out, cur), s) == Inside(out, cur + s)
    decreases |s|
  {
    if s == [] {
      assert cur + s == cur;
    } else {
      ReadPlainInside(out, cur + [s[0]], s[1..]);
      assert cur + [s[0]] + s[1..] == cur + s;
    }
  }

  lemma Regroup(a: Text, b: Text, c: Text)
    ensures a + b + c == a + (b + c)
  {}

  lemma {:induction false} ReadBody(out: seq<Text>, cur: Text, w: Text)
    ensures Feed(Inside(out, cur), JsonBody(w)) == Inside(out, cur + Shown(w))
    decreases |w|
  {
    hide Escape, ShownUnit, Eat, Feed;
    if w == [] {
      assert cur + Shown(w) == cur;
      ReadPlainInside(out, cur, []);
    } else if |w| >= 2 && Lead(w[0]) && Trail(w[1]) {
      var pair := [w[0], w[1]];
      FeedConcat(Inside(out, cur), pair, JsonBody(w[2..]));
      ReadPlainInside(out, cur, pair);
      ReadBody(out, cur + pair, w[2..]);
      Regroup(cur, pair, Shown(w[2..]));
    } else {
      FeedConcat(Inside(out, cur), Escape(w[0]), JsonBody(w[1..]));
      ReadEscape(out, cur, w[0]);
      ReadBody(out, cur + ShownUnit(w[0]), w[1..]);
      Regroup(cur, ShownUnit(w[0]), Shown(w[1..]));
    }
  }

  /** A word in JSON quotes is read as one word. */
  lemma ReadQuoted(out: seq<Text>, w: Text)
    requires HasSpace(w)
    ensures Feed(Fresh(out), Printed(w)) == State(out, Shown(w), None, true, false)
  {
    hide JsonBody, Shown, HasSpace;
    var body := JsonBody(w);
    FeedConcat(Fresh(out), [DOUBLE] + body, [DOUBLE]);
    FeedConcat(Fresh(out), [DOUBLE], body);
    FeedOne(Fresh(out), DOUBLE);
    ReadBody(out, [], w);
    assert [] + Shown(w) == Shown(w);
    FeedOne(Inside(out, Shown(w)), DOUBLE);
  }

  // ── which words survive the quotes ────────────────────────

  predicate NoControl(w: Text) {
    forall i :: 0 <= i < |w| ==> w[i] >= 32
  }

  predicate PairedAt(w: Text, i: int)
    requires 0 <= i < |w|
  {
    (Lead(w[i]) ==> i + 1 < |w| && Trail(w[i + 1])) && (Trail(w[i]) ==> i > 0 && Lead(w[i - 1]))
  }

  /** Every surrogate has its partner. */
  predicate Paired(w: Text) {
    forall i :: 0 <= i < |w| ==> PairedAt(w, i)
  }

  predicate Survives(u: Unit) {
    u >= 32 && !Lead(u) && !Trail(u)
  }

  lemma ShownUnitIsExact(u: Unit)
    ensures ShownUnit(u) != []
    ensures if Survives(u) then ShownUnit(u) == [u] else ShownUnit(u)[0] != u
  {}

  lemma {:induction false} ShownIsExact(w: Text)
    ensures Shown(w) == w <==> NoControl(w) && Paired(w)
    decreases |w|
  {
    hide ShownUnit, NoControl, Paired;
    if w == [] {
      assert NoControl(w) && Paired(w) by { NothingPaired(); }
    } else if |w| >= 2 && Lead(w[0]) && Trail(w[1]) {
      ShownIsExact(w[2..]);
      SamePrefix(w, Shown(w), 2);
      assert Shown(w)[2..] == Shown(w[2..]);
      PairedSplits(w, 2);
    } else {
      ShownIsExact(w[1..]);
      ShownUnitIsExact(w[0]);
      if Survives(w[0]) {
        SamePrefix(w, Shown(w), 1);
        assert Shown(w)[1..] == Shown(w[1..]);
        PairedSplits(w, 1);
      } else {
        BadHead(w);
      }
    }
  }

  lemma NothingPaired()
    ensures NoControl([]) && Paired([])
  {}

  lemma BadHead(w: Text)
    requires w != [] && !Survives(w[0]) && !(|w| >= 2 && Lead(w[0]) && Trail(w[1]))
    ensures !(NoControl(w) && Paired(w))
  {
    assert w[0] < 32 || !PairedAt(w, 0);
  }

  lemma SamePrefix(a: Text, b: Text, n: nat)
    requires n <= |a| && n <= |b| && a[..n] == b[..n]
    ensures a == b <==> a[n..] == b[n..]
  {}

  lemma PairedSplits(w: Text, n: nat)
    requires n <= |w| && (n == 1 || n == 2)
    requires if n == 1 then Survives(w[0]) else Lead(w[0]) && Trail(w[1])
    ensures NoControl(w) && Paired(w) <==> NoControl(w[n..]) && Paired(w[n..])
  {
    var t := w[n..];
    assert forall i :: 0 <= i < n ==> w[i] >= 32 && PairedAt(w, i);
    forall i | n <= i < |w| ensures w[i] == t[i - n] && (i > n || n == 1 ==> PairedAt(w, i) == PairedAt(t, i - n)) {}
    assert NoControl(w) <==> NoControl(t);
    if n < |w| { assert PairedAt(w, n) == PairedAt(t, 0); }
    assert forall i :: 0 <= i < |t| ==> PairedAt(t, i) == PairedAt(w, n + i);
  }
}
