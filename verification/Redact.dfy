/** Redaction of registered secrets: the literal pass over a log line. */
module Redact {
  import opened Wrappers

  const TOKEN: string := "[REDACTED]"

  /** Shorter values are not registered: they would match all over the place. */
  const SHORTEST := 6

  // ── split and join ────────────────────────────────────────

  function Split(s: string, sep: string): (pieces: seq<string>)
    requires sep != ""
    ensures pieces != []
  {
    if |s| < |sep| then [s]
    else if sep <= s then [""] + Split(s[|sep|..], sep)
    else var rest := Split(s[1..], sep); [[s[0]] + rest[0]] + rest[1..]
  }

  function Join(pieces: seq<string>, glue: string): string
    requires pieces != []
  {
    if |pieces| == 1 then pieces[0] else pieces[0] + glue + Join(pieces[1..], glue)
  }

  /** Left to right, each occurrence becomes the token. */
  function Replace(s: string, lit: string): string
    requires lit != ""
  {
    if |s| < |lit| then s
    else if lit <= s then TOKEN + Replace(s[|lit|..], lit)
    else [s[0]] + Replace(s[1..], lit)
  }

  function RedactAll(s: string, lits: seq<string>): string
    requires "" !in lits
    decreases |lits|
  {
    if lits == [] then s else RedactAll(Replace(s, lits[0]), lits[1..])
  }

  lemma RedactOneMore(s: string, lits: seq<string>, lit: string)
    requires "" !in lits && lit != ""
    ensures RedactAll(s, lits + [lit]) == Replace(RedactAll(s, lits), lit)
    decreases |lits|
  {
    if lits != [] {
      assert (lits + [lit])[1..] == lits[1..] + [lit];
      RedactOneMore(Replace(s, lits[0]), lits[1..], lit);
    } else {
      assert (lits + [lit])[1..] == [];
    }
  }

  // ── the object ────────────────────────────────────────────

  class Redactor {
    /** A set that is iterated in insertion order. */
    var literals: seq<string>

    ghost predicate Valid()
      reads this
    {
      forall i :: 0 <= i < |literals| ==> |literals[i]| >= SHORTEST
    }

    constructor ()
      ensures Valid() && literals == []
    {
      literals := [];
    }

    method AddSecret(value: Option<string>)
      requires Valid()
      modifies this
      ensures Valid()
      ensures literals == old(literals) ||
              (value.Some? && |value.value| >= SHORTEST && value.value !in old(literals) && literals == old(literals) + [value.value])
      ensures value.Some? && |value.value| >= SHORTEST ==> value.value in literals
    {
      if value.Some? && |value.value| >= SHORTEST && value.value !in literals {
        literals := literals + [value.value];
      }
    }

    method RedactLiterals(input: string) returns (out: string)
      requires Valid()
      ensures "" !in literals && out == RedactAll(input, literals)
      ensures forall lit :: lit in literals && Safe(lit) ==> !Contains(out, lit)
    {
      out := input;
      for i := 0 to |literals|
        invariant out == RedactAll(input, literals[..i])
      {
        var lit := literals[i];
        SplitThenJoin(out, lit, TOKEN);
        RedactOneMore(input, literals[..i], lit);
        assert literals[..i] + [lit] == literals[..i + 1];
        out := Join(Split(out, lit), TOKEN);
      }
      assert literals[..|literals|] == literals;
      forall lit | lit in literals && Safe(lit) ensures !Contains(out, lit) { NoSafeSecretSurvives(input, literals, lit); }
    }
  }

  // ── what split and join do ────────────────────────────────

  /** Gluing the pieces with the separator gives the line back, with the token it gives the redacted line. */
  lemma {:induction false} SplitThenJoin(s: string, lit: string, glue: string)
    requires lit != ""
    ensures Join(Split(s, lit), lit) == s
    ensures glue == TOKEN ==> Join(Split(s, lit), glue) == Replace(s, lit)
  {
    if |s| < |lit| {
    } else if lit <= s {
      SplitThenJoin(s[|lit|..], lit, glue);
      assert ([""] + Split(s[|lit|..], lit))[1..] == Split(s[|lit|..], lit);
      assert s == "" + lit + s[|lit|..];
    } else {
      SplitThenJoin(s[1..], lit, glue);
      JoinHead(s[0], Split(s[1..], lit), lit);
      JoinHead(s[0], Split(s[1..], lit), glue);
      assert s == [s[0]] + s[1..];
    }
  }

  lemma JoinHead(c: char, pieces: seq<string>, glue: string)
    requires pieces != []
    ensures Join([[c] + pieces[0]] + pieces[1..], glue) == [c] + Join(pieces, glue)
  {}

  // ── which secrets are safe ────────────────────────────────

  predicate At(s: string, lit: string, i: int) {
    0 <= i <= |s| - |lit| && s[i..i + |lit|] == lit
  }

  ghost predicate Contains(s: string, lit: string) {
    exists i :: At(s, lit, i)
  }

  /** Laid over the token at offset `d`, the secret agrees with it wherever both have a character. */
  predicate Agrees(lit: string, d: int) {
    forall k :: 0 <= k < |lit| && 0 <= d + k < |TOKEN| ==> lit[k] == TOKEN[d + k]
  }

  /** No occurrence of the secret can share a character with a token. */
  ghost predicate Safe(lit: string) {
    forall d :: -|lit| < d < |TOKEN| ==> !Agrees(lit, d)
  }

  /** Secrets without square brackets that are not part of the word itself. */
  lemma PlainSecretsAreSafe(lit: string)
    requires |lit| >= 1 && '[' !in lit && ']' !in lit && !Contains("REDACTED", lit)
    ensures Safe(lit)
  {
    forall d | -|lit| < d < |TOKEN| ensures !Agrees(lit, d) {
      if d <= 0 {
        assert lit[-d] != TOKEN[d - d];
      } else if d + |lit| >= |TOKEN| {
        assert lit[|TOKEN| - 1 - d] != TOKEN[d + (|TOKEN| - 1 - d)];
      } else {
        InsideTheWord(lit, d);
      }
    }
  }

  lemma InsideTheWord(lit: string, d: int)
    requires 0 < d < d + |lit| < |TOKEN|
    ensures Agrees(lit, d) <==> At("REDACTED", lit, d - 1)
  {}

  // ── no safe secret survives ───────────────────────────────

  /** Up to the first token the output is the input. */
  lemma {:induction false} UpToFirstToken(s: string, lit: string, n: nat)
    requires lit != "" && n <= |Replace(s, lit)|
    ensures (n <= |s| && Replace(s, lit)[..n] == s[..n]) || exists j :: 0 <= j < n && TOKEN <= Replace(s, lit)[j..]
  {
    var out := Replace(s, lit);
    if n == 0 || |s| < |lit| {
    } else if lit <= s {
      assert out[0..] == out && TOKEN <= out[0..];
    } else {
      var rest := Replace(s[1..], lit);
      UpToFirstToken(s[1..], lit, n - 1);
      if j :| 0 <= j < n - 1 && TOKEN <= rest[j..] {
        assert out[j + 1..] == rest[j..];
      } else {
        assert out[..n] == [s[0]] + rest[..n - 1] && s[..n] == [s[0]] + s[1..][..n - 1];
      }
    }
  }

  lemma Differs(s: string, lit: string, i: int, k: int)
    requires 0 <= k < |lit| && (0 <= i + k < |s| ==> s[i + k] != lit[k])
    ensures !At(s, lit, i)
  {}

  /** A safe secret does not overlap a token. */
  lemma ApartFromTokens(out: string, lit: string, i: int, j: int)
    requires Safe(lit) && 0 <= j <= |out| && TOKEN <= out[j..] && j - |lit| < i < j + |TOKEN|
    ensures !At(out, lit, i)
  {
    assert !Agrees(lit, i - j);
    var k :| 0 <= k < |lit| && 0 <= i - j + k < |TOKEN| && lit[k] != TOKEN[i - j + k];
    assert TOKEN[i - j + k] == out[j..][i - j + k] == out[i + k];
    Differs(out, lit, i, k);
  }

  lemma AtSuffix(s: string, lit: string, n: nat, i: int)
    requires n <= |s| && n <= i
    ensures At(s, lit, i) <==> At(s[n..], lit, i - n)
  {}

  lemma SuffixHasNone(s: string, lit: string, n: nat)
    requires n <= |s| && !Contains(s, lit)
    ensures !Contains(s[n..], lit)
  {
    forall i ensures !At(s[n..], lit, i) {
      if i >= 0 { AtSuffix(s, lit, n, n + i); }
    }
  }

  /** An occurrence at the very start of the output comes from one at the start of the input, or touches a token. */
  lemma CleanAtStart(s: string, other: string, lit: string)
    requires Safe(lit) && lit != "" && other != "" && !(other <= s) && !(lit <= s)
    ensures !At(Replace(s, other), lit, 0)
  {
    var out := Replace(s, other);
    if |lit| <= |out| {
      UpToFirstToken(s, other, |lit|);
      if j :| 0 <= j < |lit| && TOKEN <= out[j..] {
        ApartFromTokens(out, lit, 0, j);
      } else {
        assert out[0..|lit|] == s[..|lit|];
      }
    }
  }

  /** Replacing a secret removes it, and replacing any other text does not bring it back. */
  lemma {:induction false} ReplaceIsClean(s: string, other: string, lit: string)
    requires Safe(lit) && lit != "" && other != "" && (other == lit || !Contains(s, lit))
    ensures !Contains(Replace(s, other), lit)
  {
    hide Safe, Agrees;
    var out := Replace(s, other);
    if |s| >= |other| {
      var n, m := if other <= s then |other| else 1, if other <= s then |TOKEN| else 1;
      if other != lit { SuffixHasNone(s, lit, n); }
      ReplaceIsClean(s[n..], other, lit);
      assert out[m..] == Replace(s[n..], other);
      assert other <= s ==> out[0..] == out && TOKEN <= out[0..];
      forall i ensures !At(out, lit, i) {
        if i >= m {
          AtSuffix(out, lit, m, i);
        } else if other <= s {
          if i >= 0 { ApartFromTokens(out, lit, i, 0); }
        } else {
          if other != lit && |lit| <= |s| { assert !At(s, lit, 0) && s[0..|lit|] == s[..|lit|]; }
          CleanAtStart(s, other, lit);
        }
      }
    }
  }

  /** Whatever else is registered and in whatever order: no safe registered secret is left in the output. */
  lemma {:induction false} NoSafeSecretSurvives(s: string, lits: seq<string>, lit: string)
    requires "" !in lits && Safe(lit) && lit != "" && (lit in lits || !Contains(s, lit))
    ensures !Contains(RedactAll(s, lits), lit)
    decreases |lits|
  {
    hide Safe, Contains;
    if lits != [] {
      if lits[0] == lit || !Contains(s, lit) { ReplaceIsClean(s, lits[0], lit); }
      NoSafeSecretSurvives(Replace(s, lits[0]), lits[1..], lit);
    }
  }

  // ── every unsafe secret can survive ───────────────────────

  function Run(c: char, n: nat): string {
    seq(n, _ => c)
  }

  /** A character that differs from four given ones. */
  function Fresh(a: char, b: char, c: char, d: char): (z: char)
    ensures z != a && z != b && z != c && z != d
  {
    if 'v' !in {a, b, c, d} then 'v' else if 'w' !in {a, b, c, d} then 'w' else if 'x' !in {a, b, c, d} then 'x'
    else if 'y' !in {a, b, c, d} then 'y' else 'z'
  }

  lemma {:induction false} ReplaceAfter(left: string, lit: string, tail: string)
    requires lit != "" && forall i :: 0 <= i < |left| ==> !At(left + lit + tail, lit, i)
    ensures Replace(left + lit + tail, lit) == left + TOKEN + Replace(tail, lit)
  {
    hide Contains;
    var s := left + lit + tail;
    if left == "" {
      assert s == lit + tail && s[|lit|..] == tail;
    } else {
      var shorter := left[1..] + lit + tail;
      FirstApart(left, lit, tail);
      assert !At(s, lit, 0) && s[0..|lit|] == s[..|lit|];
      forall i | 0 <= i < |left[1..]| ensures !At(shorter, lit, i) {
        assert !At(s, lit, i + 1);
        AtSuffix(s, lit, 1, i + 1);
      }
      ReplaceAfter(left[1..], lit, tail);
      FirstApart(left, TOKEN, Replace(tail, lit));
    }
  }

  lemma FirstApart(a: string, b: string, c: string)
    requires a != ""
    ensures a + b + c == [a[0]] + (a[1..] + b + c) && (a + b + c)[1..] == a[1..] + b + c
  {}

  lemma {:induction false} ReplaceNothing(s: string, lit: string)
    requires lit != "" && forall i :: !At(s, lit, i)
    ensures Replace(s, lit) == s
  {
    if |s| >= |lit| {
      assert !At(s, lit, 0) && s[0..|lit|] == s[..|lit|];
      forall i ensures !At(s[1..], lit, i) {
        if i >= 0 { AtSuffix(s, lit, 1, i + 1); }
      }
      ReplaceNothing(s[1..], lit);
    }
  }

  function LeftOf(lit: string, d: int): string
    requires -|lit| < d
  {
    if d < 0 then lit[..-d] else ""
  }

  function RightOf(lit: string, d: int): string
    requires d < |TOKEN|
  {
    if d + |lit| > |TOKEN| then lit[|TOKEN| - d..] else ""
  }

  /** A token with the right neighbours shows the secret. */
  lemma Rebuilt(lit: string, d: int)
    requires -|lit| < d < |TOKEN| && Agrees(lit, d)
    ensures Contains(LeftOf(lit, d) + TOKEN + RightOf(lit, d), lit)
  {
    hide Contains;
    var out := LeftOf(lit, d) + TOKEN + RightOf(lit, d);
    var at := if d < 0 then 0 else d;
    forall k | 0 <= k < |lit| ensures out[at + k] == lit[k] {
      if 0 <= d + k < |TOKEN| { assert lit[k] == TOKEN[d + k]; }
    }
    CharByChar(out, lit, at);
  }

  lemma CharByChar(s: string, lit: string, i: nat)
    requires i + |lit| <= |s| && forall k :: 0 <= k < |lit| ==> s[i + k] == lit[k]
    ensures Contains(s, lit)
  {
    assert s[i..i + |lit|] == lit;
    assert At(s, lit, i);
  }

  lemma TwoSecrets(s: string, a: string, b: string)
    requires a != "" && b != ""
    ensures RedactAll(s, [a, b]) == Replace(Replace(s, a), b)
  {
    RedactOneMore(s, [a], b);
    assert [a] + [b] == [a, b];
    RedactOneMore(s, [], a);
    assert [] + [a] == [a];
  }

  /** The line in which `lit` is rebuilt around the token that stands for the second secret. */
  lemma UnsafeSecretSurvives(lit: string, d: int) returns (input: string, other: string)
    requires |lit| >= SHORTEST && -|lit| < d < |TOKEN| && Agrees(lit, d)
    ensures |other| >= SHORTEST && Contains(RedactAll(input, [lit, other]), lit)
  {
    hide Contains, Agrees, Replace, RedactAll;
    var left, right := LeftOf(lit, d), RightOf(lit, d);
    var c := Fresh(lit[0], lit[|lit| - 1], if left == "" then lit[0] else left[|left| - 1], if right == "" then lit[0] else right[0]);
    other := Run(c, |lit|);
    input := left + other + right;
    forall i ensures !At(input, lit, i) { LitNotIn(lit, left, right, c, i); }
    ReplaceNothing(input, lit);
    forall i | 0 <= i < |left| ensures !At(input, other, i) { Differs(input, other, i, |left| - 1 - i); }
    ReplaceAfter(left, other, right);
    ReplaceNothing(right, other);
    TwoSecrets(input, lit, other);
    Rebuilt(lit, d);
  }

  lemma LitNotIn(lit: string, left: string, right: string, c: char, i: int)
    requires lit != "" && c != lit[0] && c != lit[|lit| - 1] && |left| < |lit| && |right| < |lit|
    ensures !At(left + Run(c, |lit|) + right, lit, i)
  {}

  ghost predicate AlwaysGone(lit: string) {
    forall s: string, lits: seq<string> :: "" !in lits && lit in lits ==> !Contains(RedactAll(s, lits), lit)
  }

  /** A registered secret is gone from every line, whatever else is registered, exactly when it is safe. */
  lemma GoneIffSafe(lit: string)
    requires |lit| >= SHORTEST
    ensures AlwaysGone(lit) <==> Safe(lit)
  {
    if Safe(lit) {
      forall s: string, lits: seq<string> | "" !in lits && lit in lits ensures !Contains(RedactAll(s, lits), lit) {
        NoSafeSecretSurvives(s, lits, lit);
      }
    } else {
      var d :| -|lit| < d < |TOKEN| && Agrees(lit, d);
      var s, other := UnsafeSecretSurvives(lit, d);
      var lits := [lit, other];
      assert lits[0] == lit && "" !in lits;
    }
  }
}
