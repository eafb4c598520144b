/** The quotes around a printed word are JSON: reading them as RFC 8259, section 7, says gives the word back. */
module CommandJson {
  import opened Wrappers
  import opened Command

  function HexValue(u: Unit): Option<int> {
    if 48 <= u <= 57 then Some(u - 48)
    else if 97 <= u <= 102 then Some(u - 87)
    else if 65 <= u <= 70 then Some(u - 55)
    else None
  }

  /** The unit that four hexadecimal digits stand for. */
  function FourDigits(t: Text): (r: Option<Unit>)
    requires |t| == 4
  {
    var (a, b, c, d) := (HexValue(t[0]), HexValue(t[1]), HexValue(t[2]), HexValue(t[3]));
    if a.None? || b.None? || c.None? || d.None? then None
    else Bounded(a.value * 4096 + b.value * 256 + c.value * 16 + d.value)
  }

  function Bounded(n: int): (r: Option<Unit>)
    ensures 0 <= n < 0x1_0000 ==> r == Some(n)
  {
    if 0 <= n < 0x1_0000 then Some(n) else None
  }

  /** The two-character escapes: quotation mark, reverse solidus, solidus, b, f, n, r and t. */
  function ShortEscape(u: Unit): Option<Unit> {
    match u
    case 34 => Some(34)
    case 92 => Some(92)
    case 47 => Some(47)
    case 98 => Some(8)
    case 102 => Some(12)
    case 110 => Some(10)
    case 114 => Some(13)
    case 116 => Some(9)
    case _ => None
  }

  /** What is between the quotation marks of a JSON string, read unit by unit; none if it is not JSON. */
  function Parsed(t: Text): Option<Text>
    decreases |t|
  {
    if t == [] then Some([])
    else if t[0] == DOUBLE || t[0] < 32 then None
    else if t[0] != BACKSLASH then Prefixed(Some(t[0]), Parsed(t[1..]))
    else if |t| < 2 then None
    else if t[1] == LETTER_U then
      if |t| < 6 then None else Prefixed(FourDigits(t[2..6]), Parsed(t[6..]))
    else Prefixed(ShortEscape(t[1]), Parsed(t[2..]))
  }

  function Prefixed(u: Option<Unit>, rest: Option<Text>): Option<Text> {
    if u.Some? && rest.Some? then Some([u.value] + rest.value) else None
  }

  lemma HexIsRight(n: int)
    requires 0 <= n < 16
    ensures HexValue(Hex(n)) == Some(n)
  {}

  lemma DigitsAddUp(u: Unit)
    ensures u / 4096 < 16 && u / 4096 * 4096 + u / 256 % 16 * 256 + u / 16 % 16 * 16 + u % 16 == u
  {
    assert u / 16 == u / 16 / 16 * 16 + u / 16 % 16;
    assert u / 16 / 16 == u / 256 && u / 256 == u / 256 / 16 * 16 + u / 256 % 16 && u / 256 / 16 == u / 4096;
  }

  lemma ParseOne(u: Unit, rest: Text)
    ensures Parsed(Escape(u) + rest) == Prefixed(Some(u), Parsed(rest))
  {
    var e := Escape(u);
    var t := e + rest;
    assert t[|e|..] == rest;
    if |e| == 6 {
      HexIsRight(u / 4096);
      HexIsRight(u / 256 % 16);
      HexIsRight(u / 16 % 16);
      HexIsRight(u % 16);
      DigitsAddUp(u);
      assert t[2..6] == [Hex(u / 4096), Hex(u / 256 % 16), Hex(u / 16 % 16), Hex(u % 16)];
      assert FourDigits(t[2..6]) == Some(u);
    }
  }

  /** For every word, control characters and lone surrogates included. */
  lemma {:induction false} QuotedIsJson(w: Text)
    ensures Parsed(JsonBody(w)) == Some(w)
    decreases |w|
  {
    hide Escape;
    if w != [] {
      if |w| >= 2 && Lead(w[0]) && Trail(w[1]) {
        var t := [w[0], w[1]] + JsonBody(w[2..]);
        QuotedIsJson(w[2..]);
        assert t[1..] == [w[1]] + JsonBody(w[2..]) && t[1..][1..] == JsonBody(w[2..]);
        assert w == [w[0]] + ([w[1]] + w[2..]);
      } else {
        QuotedIsJson(w[1..]);
        ParseOne(w[0], JsonBody(w[1..]));
        assert w == [w[0]] + w[1..];
      }
    }
  }

  /** A word is printed as it is unless it holds white space, and then as a JSON string that means it. */
  lemma PrintedMeansWord(w: Text)
    ensures if HasSpace(w) then |Printed(w)| >= 2 && Printed(w)[0] == DOUBLE == Printed(w)[|Printed(w)| - 1]
                                && Parsed(Printed(w)[1..|Printed(w)| - 1]) == Some(w)
            else Printed(w) == w
  {
    hide HasSpace, JsonBody, Parsed;
    QuotedIsJson(w);
    assert ([DOUBLE] + JsonBody(w) + [DOUBLE])[1..|JsonBody(w)| + 1] == JsonBody(w);
  }
}
