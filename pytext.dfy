/**
 * The Python `str` builtins that the core relies on, restricted to what the
 * core uses: `s.split(sep)` with a one-character separator, `int(s)` on ASCII
 * sign-and-digits literals, `str(n)` of an int, `s.lower()` on ASCII letters
 * and the substring test `sub in s`.
 */
module PyText {
  import opened Wrappers

  // ---------------------------------------------------------------------------
  // s.split(sep) and its inverse sep.join(parts)

  /** `s.split(sep)`: the maximal runs between separators, empty runs kept. */
  function Split(s: string, sep: char): (parts: seq<string>)
    ensures |parts| >= 1
    decreases |s|
  {
    if |s| == 0 then [""]
    else
      var rest := Split(s[1..], sep);
      if s[0] == sep then [""] + rest
      else [[s[0]] + rest[0]] + rest[1..]
  }

  /** `sep.join(parts)` for a non-empty list of parts. */
  function Join(parts: seq<string>, sep: char): string
    requires |parts| >= 1
    decreases |parts|
  {
    if |parts| == 1 then parts[0] else parts[0] + [sep] + Join(parts[1..], sep)
  }

  /** No part contains the separator. */
  predicate Separated(parts: seq<string>, sep: char) {
    forall i | 0 <= i < |parts| :: sep !in parts[i]
  }

  /** Splitting yields separator-free parts that join back to the input. */
  lemma {:induction false} SplitThenJoin(s: string, sep: char)
    ensures Separated(Split(s, sep), sep)
    ensures Join(Split(s, sep), sep) == s
    decreases |s|
  {
    if |s| > 0 {
      SplitThenJoin(s[1..], sep);
      var rest := Split(s[1..], sep);
      if s[0] == sep {
        assert Split(s, sep) == [""] + rest;
        assert ([""] + rest)[1..] == rest;
        assert s == [s[0]] + s[1..];
      } else {
        var parts := Split(s, sep);
        assert parts == [[s[0]] + rest[0]] + rest[1..];
        forall i | 0 <= i < |parts| ensures sep !in parts[i] {
          if i > 0 { assert parts[i] == rest[i]; }
          else {
            assert sep !in rest[0];
            assert parts[0] == [s[0]] + rest[0];
          }
        }
        if |rest| == 1 {
          assert s == [s[0]] + s[1..];
        } else {
          assert parts[1..] == rest[1..];
          assert Join(rest, sep) == rest[0] + [sep] + Join(rest[1..], sep);
          assert s == [s[0]] + s[1..];
        }
      }
    }
  }

  /** Splitting a text that starts with a separator-free run extends the first part. */
  lemma {:induction false} SplitAfterRun(a: string, t: string, sep: char)
    requires sep !in a
    ensures Split(a + t, sep) == [a + Split(t, sep)[0]] + Split(t, sep)[1..]
    decreases |a|
  {
    if |a| > 0 {
      assert (a + t)[1..] == a[1..] + t;
      assert (a + t)[0] == a[0];
      SplitAfterRun(a[1..], t, sep);
      assert [a[0]] + (a[1..] + Split(t, sep)[0]) == a + Split(t, sep)[0];
    } else {
      assert a + t == t;
      assert a + Split(t, sep)[0] == Split(t, sep)[0];
      assert Split(t, sep) == [Split(t, sep)[0]] + Split(t, sep)[1..];
    }
  }

  /** Joining separator-free parts and splitting again gives the parts back. */
  lemma {:induction false} JoinThenSplit(parts: seq<string>, sep: char)
    requires |parts| >= 1
    requires Separated(parts, sep)
    ensures Split(Join(parts, sep), sep) == parts
    decreases |parts|
  {
    if |parts| == 1 {
      SplitAfterRun(parts[0], "", sep);
      assert parts[0] + "" == parts[0];
    } else {
      var tail := Join(parts[1..], sep);
      assert sep !in parts[0];
      assert Separated(parts[1..], sep) by {
        forall i | 0 <= i < |parts| - 1 ensures sep !in parts[1..][i] {
          assert parts[1..][i] == parts[i + 1];
        }
      }
      JoinThenSplit(parts[1..], sep);
      assert Join(parts, sep) == parts[0] + ([sep] + tail);
      SplitAfterRun(parts[0], [sep] + tail, sep);
      assert ([sep] + tail)[1..] == tail;
      assert Split([sep] + tail, sep) == [""] + parts[1..];
      assert parts[0] + "" == parts[0];
      assert parts == [parts[0]] + parts[1..];
    }
  }

  // ---------------------------------------------------------------------------
  // int(s) on ASCII literals and str(n) for an int

  predicate IsDigit(c: char) {
    '0' <= c <= '9'
  }

  predicate AllDigits(d: string) {
    forall i | 0 <= i < |d| :: IsDigit(d[i])
  }

  /** The text after an optional leading `+` or `-`. */
  function Unsigned(s: string): string {
    if |s| > 0 && (s[0] == '+' || s[0] == '-') then s[1..] else s
  }

  /**
   * CPython's default limit on the number of digits an int/str conversion
   * handles (`sys.get_int_max_str_digits()`); beyond it both `int(s)` and
   * `str(n)` raise `ValueError`.
   */
  const MaxStrDigits := 4300

  /** What `int()` accepts: an optional sign followed by one to `MaxStrDigits` ASCII digits. */
  predicate IsIntLiteral(s: string) {
    var d := Unsigned(s);
    0 < |d| <= MaxStrDigits && AllDigits(d)
  }

  /** The value of a string of decimal digits, most significant first. */
  function DigitsValue(d: string): nat
    requires AllDigits(d)
    decreases |d|
  {
    if |d| == 0 then 0
    else DigitsValue(d[..|d| - 1]) * 10 + (d[|d| - 1] as int - '0' as int)
  }

  /** `int(s)`: `None` stands for the `ValueError` Python raises. */
  function ParseInt(s: string): (r: Option<int>)
    ensures r.Some? <==> IsIntLiteral(s)
    ensures r.Some? && |s| > 0 && s[0] == '-' ==> r.value <= 0
    ensures r.Some? && !(|s| > 0 && s[0] == '-') ==> r.value >= 0
  {
    var d := Unsigned(s);
    var v: int := if |d| > 0 && AllDigits(d) then DigitsValue(d) else 0;
    if 0 < |d| <= MaxStrDigits && AllDigits(d) then
      Some(if s[0] == '-' then -v else v)
    else None
  }

  /** The decimal digit character for 0 <= n < 10. */
  function DigitChar(n: nat): char
    requires n < 10
  {
    ('0' as int + n) as char
  }

  /** `str(n)` for a natural number: no sign, no leading zero. */
  function NatToString(n: nat): (s: string)
    ensures |s| > 0 && AllDigits(s)
    decreases n
  {
    if n < 10 then [DigitChar(n)] else NatToString(n / 10) + [DigitChar(n % 10)]
  }

  /** `str(n)` for an int. */
  function IntToString(n: int): string {
    if n < 0 then "-" + NatToString(-n) else NatToString(n)
  }

  /** `str(n)` stays within the conversion limit, so Python does not raise on it. */
  predicate WithinStrLimit(n: int) {
    |NatToString(if n < 0 then -n else n)| <= MaxStrDigits
  }

  lemma {:induction false} NatToStringValue(n: nat)
    ensures DigitsValue(NatToString(n)) == n
    decreases n
  {
    if n >= 10 {
      NatToStringValue(n / 10);
      var s := NatToString(n);
      assert s[..|s| - 1] == NatToString(n / 10);
    }
  }

  /** `int(str(n)) == n` for every int that `str` converts. */
  lemma ParseIntOfIntToString(n: int)
    requires WithinStrLimit(n)
    ensures ParseInt(IntToString(n)) == Some(n)
  {
    var m := if n < 0 then -n else n;
    NatToStringValue(m);
    var s := IntToString(n);
    if n < 0 {
      assert Unsigned(s) == NatToString(m);
    } else {
      assert Unsigned(s) == NatToString(m);
    }
  }

  /** A leading zero does not change the value of a digit string. */
  lemma {:induction false} DigitsValueLeadingZero(d: string)
    requires AllDigits(d)
    ensures AllDigits("0" + d) && DigitsValue("0" + d) == DigitsValue(d)
    decreases |d|
  {
    assert AllDigits("0" + d) by {
      forall i | 0 <= i < |"0" + d| ensures IsDigit(("0" + d)[i]) {
        if i > 0 { assert ("0" + d)[i] == d[i - 1]; }
      }
    }
    if |d| > 0 {
      var z := "0" + d;
      assert z[..|z| - 1] == "0" + d[..|d| - 1];
      assert z[|z| - 1] == d[|d| - 1];
      DigitsValueLeadingZero(d[..|d| - 1]);
    }
  }

  /**
   * `int()` of a signed or zero-padded literal: `+d` and `0d` read as `d`,
   * and `-d` as its negation.
   */
  lemma ParseIntPadding(d: string)
    requires AllDigits(d) && 0 < |d| < MaxStrDigits
    ensures ParseInt("0" + d) == ParseInt(d)
    ensures ParseInt("+" + d) == ParseInt(d)
    ensures ParseInt("-" + d) == Some(-ParseInt(d).value)
  {
    DigitsValueLeadingZero(d);
    assert Unsigned("+" + d) == d;
    assert Unsigned("-" + d) == d;
  }

  /** A digit string not starting with `0` has a positive value. */
  lemma {:induction false} DigitsValuePositive(d: string)
    requires AllDigits(d) && |d| > 0 && d[0] != '0'
    ensures DigitsValue(d) > 0
    decreases |d|
  {
    if |d| > 1 {
      DigitsValuePositive(d[..|d| - 1]);
    }
  }

  /** A digit string without a leading zero is `str` of its own value. */
  lemma {:induction false} NatToStringOfDigitsValue(d: string)
    requires AllDigits(d) && |d| > 0 && (d[0] != '0' || |d| == 1)
    ensures NatToString(DigitsValue(d)) == d
    decreases |d|
  {
    if |d| > 1 {
      var init := d[..|d| - 1];
      NatToStringOfDigitsValue(init);
      DigitsValuePositive(init);
      var n := DigitsValue(d);
      var c := d[|d| - 1] as int - '0' as int;
      assert n == DigitsValue(init) * 10 + c;
      assert n / 10 == DigitsValue(init) && n % 10 == c;
      assert d == init + [DigitChar(c)];
    }
  }

  /**
   * Every literal without leading zeros is exactly `str` of the value `int()`
   * reads from it; with `ParseIntPadding` this fixes the value of every
   * accepted literal.
   */
  lemma ParseIntCanonical(d: string)
    requires AllDigits(d) && 0 < |d| <= MaxStrDigits && (d[0] != '0' || |d| == 1)
    ensures ParseInt(d).Some? && IntToString(ParseInt(d).value) == d
  {
    NatToStringOfDigitsValue(d);
  }

  lemma ConcatAssoc(p: string, u: string, x: string)
    ensures p + u + x == p + (u + x)
  {
  }

  /** Equal texts with equal beginnings have equal rests. */
  lemma SamePrefixRest(p: string, u: string, v: string)
    requires p + u == p + v
    ensures u == v
  {
    assert u == (p + u)[|p|..];
    assert v == (p + v)[|p|..];
  }

  /** The length of the run of digits `t` starts with. */
  function DigitRun(t: string): nat
    decreases |t|
  {
    if |t| == 0 || !IsDigit(t[0]) then 0 else 1 + DigitRun(t[1..])
  }

  /** Digits followed by a non-digit (or nothing) form a run of exactly their length. */
  lemma {:induction false} DigitRunOf(u: string, x: string)
    requires AllDigits(u)
    requires x == "" || !IsDigit(x[0])
    ensures DigitRun(u + x) == |u|
    decreases |u|
  {
    if |u| == 0 {
      assert u + x == x;
    } else {
      assert (u + x)[1..] == u[1..] + x;
      DigitRunOf(u[1..], x);
    }
  }

  /** A run of digits ends where the first non-digit begins. */
  lemma DigitsPrefixFree(u: string, v: string, x: string, y: string)
    requires AllDigits(u) && AllDigits(v)
    requires x == "" || !IsDigit(x[0])
    requires y == "" || !IsDigit(y[0])
    requires u + x == v + y
    ensures u == v && x == y
  {
    var t := u + x;
    DigitRunOf(u, x);
    DigitRunOf(v, y);
    assert u == t[..|u|];
    assert v == t[..|v|];
    SamePrefixRest(u, x, y);
  }

  /** `str(n)` starts with a minus sign exactly when `n` is negative. */
  lemma IntToStringSign(n: int, x: string)
    ensures (IntToString(n) + x)[0] == '-' <==> n < 0
  {
    var d := NatToString(if n < 0 then -n else n);
    assert IsDigit(d[0]);
  }

  /** Two negative numbers' texts, each followed by a non-digit. */
  lemma NegativeTextsPrefixFree(a: int, b: int, x: string, y: string)
    requires a < 0 && b < 0
    requires x == "" || !IsDigit(x[0])
    requires y == "" || !IsDigit(y[0])
    requires IntToString(a) + x == IntToString(b) + y
    ensures IntToString(a) == IntToString(b) && x == y
  {
    var na, nb := NatToString(-a), NatToString(-b);
    assert IntToString(a) == "-" + na && IntToString(b) == "-" + nb;
    ConcatAssoc("-", na, x);
    ConcatAssoc("-", nb, y);
    SamePrefixRest("-", na + x, nb + y);
    DigitsPrefixFree(na, nb, x, y);
  }

  /** `str(n)` followed by a non-digit is read back unambiguously. */
  lemma IntToStringPrefixFree(a: int, b: int, x: string, y: string)
    requires x == "" || !IsDigit(x[0])
    requires y == "" || !IsDigit(y[0])
    requires IntToString(a) + x == IntToString(b) + y
    ensures a == b && x == y
  {
    IntToStringSign(a, x);
    IntToStringSign(b, y);
    if a < 0 {
      NegativeTextsPrefixFree(a, b, x, y);
    } else {
      DigitsPrefixFree(NatToString(a), NatToString(b), x, y);
    }
    var ma, mb := if a < 0 then -a else a, if b < 0 then -b else b;
    assert NatToString(ma) == NatToString(mb) by {
      if a < 0 { assert NatToString(ma) == IntToString(a)[1..]; assert NatToString(mb) == IntToString(b)[1..]; }
    }
    NatToStringValue(ma);
    NatToStringValue(mb);
  }

  /** A literal of more digits than the limit is a `ValueError`, whatever its digits. */
  lemma OverlongLiteralRejected(s: string)
    requires |Unsigned(s)| > MaxStrDigits
    ensures ParseInt(s) == None
  {
  }


  // ---------------------------------------------------------------------------
  // s.lower() and `sub in s`

  predicate IsAsciiUpper(c: char) {
    'A' <= c <= 'Z'
  }

  function LowerChar(c: char): char {
    if IsAsciiUpper(c) then (c as int + 32) as char else c
  }

  /** `s.lower()` on ASCII letters: upper-case letters become lower-case, all else stays. */
  function Lower(s: string): (r: string)
    ensures |r| == |s|
    ensures forall i | 0 <= i < |r| :: !IsAsciiUpper(r[i])
    ensures forall i | 0 <= i < |s| :: !IsAsciiUpper(s[i]) ==> r[i] == s[i]
    ensures forall i | 0 <= i < |s| :: IsAsciiUpper(s[i]) ==> r[i] as int == s[i] as int + 32
  {
    seq(|s|, i requires 0 <= i < |s| => LowerChar(s[i]))
  }

  /** Python's `sub in s`. */
  predicate Contains(s: string, sub: string)
    decreases |s|
  {
    (|sub| <= |s| && s[..|sub|] == sub) || (|s| > 0 && Contains(s[1..], sub))
  }

  /** `sub` occurs in `s` starting at index `i`. */
  predicate OccursAt(s: string, sub: string, i: int) {
    0 <= i <= |s| - |sub| && s[i..i + |sub|] == sub
  }

  /** `sub in s` holds exactly when `sub` occurs at some position of `s`. */
  lemma {:induction false} ContainsAt(s: string, sub: string)
    ensures Contains(s, sub) <==> exists i :: OccursAt(s, sub, i)
    decreases |s|
  {
    if |s| > 0 {
      ContainsAt(s[1..], sub);
      if Contains(s[1..], sub) {
        var i :| OccursAt(s[1..], sub, i);
        assert s[1..][i..i + |sub|] == s[i + 1..i + 1 + |sub|];
        assert OccursAt(s, sub, i + 1);
      }
      if |sub| <= |s| && s[..|sub|] == sub {
        assert OccursAt(s, sub, 0);
      }
      if exists i :: OccursAt(s, sub, i) {
        var i :| OccursAt(s, sub, i);
        if i > 0 {
          assert s[1..][i - 1..i - 1 + |sub|] == s[i..i + |sub|];
          assert OccursAt(s[1..], sub, i - 1);
        }
      }
    } else {
      if exists i :: OccursAt(s, sub, i) {
        var i :| OccursAt(s, sub, i);
        assert |sub| == 0;
      }
      if |sub| == 0 {
        assert OccursAt(s, sub, 0);
      }
    }
  }
}

/**
 * `repr(s)` of a string, as the dataclass `__repr__` writes each text field:
 * quotes chosen as Python chooses them, backslash escapes for the quote, the
 * backslash, tab, newline, carriage return and the other ASCII control
 * characters. Characters from U+0080 on are written as they are.
 */
module PyRepr {
  import opened Wrappers
  import opened PyText

  /** A double quote only when the text has a single quote and no double quote. */
  function ReprQuote(s: string): char {
    if '\'' in s && '"' !in s then '"' else '\''
  }

  predicate IsControl(c: char) {
    c < ' ' || c as int == 0x7f
  }

  function HexDigit(n: nat): char
    requires n < 16
  {
    if n < 10 then DigitChar(n) else ('a' as int + n - 10) as char
  }

  function HexValue(c: char): Option<nat> {
    if '0' <= c <= '9' then Some(c as int - '0' as int)
    else if 'a' <= c <= 'f' then Some(c as int - 'a' as int + 10)
    else None
  }

  /** How one character is written inside quotes `q`. */
  function EscapeChar(c: char, q: char): string {
    if c == q || c == '\\' then ['\\', c]
    else if c == '\t' then "\\t"
    else if c == '\n' then "\\n"
    else if c == '\r' then "\\r"
    else if IsControl(c) then ['\\', 'x', HexDigit(c as int / 16), HexDigit(c as int % 16)]
    else [c]
  }

  function EscapeAll(s: string, q: char): string
    decreases |s|
  {
    if |s| == 0 then "" else EscapeChar(s[0], q) + EscapeAll(s[1..], q)
  }

  function Repr(s: string): string {
    var q := ReprQuote(s);
    [q] + EscapeAll(s, q) + [q]
  }

  /** Puts `c` in front of the text a reader produced. */
  function Cons(c: char, r: Option<(string, string)>): Option<(string, string)> {
    match r
    case Some((t, rest)) => Some(([c] + t, rest))
    case None => None
  }

  /**
   * Reads escaped text up to its closing quote `q`: the text it stands for
   * and what follows the quote; `None` for a missing quote or an unknown escape.
   */
  function ReadQuoted(e: string, q: char): Option<(string, string)>
    decreases |e|
  {
    if |e| == 0 then None
    else if e[0] == q then Some(("", e[1..]))
    else if e[0] != '\\' then Cons(e[0], ReadQuoted(e[1..], q))
    else if |e| >= 2 && e[1] in "\\'\"tnr" then
      var c := if e[1] == 't' then '\t' else if e[1] == 'n' then '\n' else if e[1] == 'r' then '\r' else e[1];
      Cons(c, ReadQuoted(e[2..], q))
    else if |e| >= 4 && e[1] == 'x' && HexValue(e[2]).Some? && HexValue(e[3]).Some? then
      var c := (HexValue(e[2]).value * 16 + HexValue(e[3]).value) as char;
      Cons(c, ReadQuoted(e[4..], q))
    else None
  }

  /** Reads a `repr` at the start of `t`: the text and what follows it. */
  function ReadRepr(t: string): Option<(string, string)> {
    if |t| >= 1 && (t[0] == '\'' || t[0] == '"') then ReadQuoted(t[1..], t[0]) else None
  }

  lemma HexRoundTrip(n: nat)
    requires n < 16
    ensures HexValue(HexDigit(n)) == Some(n)
  {
  }

  /** Reading the escape of one character gives the character back, and reading goes on after it. */
  lemma ReadEscapeChar(c: char, q: char, rest: string)
    requires q == '\'' || q == '"'
    ensures ReadQuoted(EscapeChar(c, q) + rest, q) == Cons(c, ReadQuoted(rest, q))
  {
    var e := EscapeChar(c, q) + rest;
    if c == q || c == '\\' {
      assert e[2..] == rest;
    } else if c == '\t' || c == '\n' || c == '\r' {
      assert e[2..] == rest;
    } else if IsControl(c) {
      HexRoundTrip(c as int / 16);
      HexRoundTrip(c as int % 16);
      assert e[4..] == rest;
    } else {
      assert e[1..] == rest;
    }
  }

  /** The escaped text never holds a bare closing quote: reading stops exactly at the one after it. */
  lemma {:induction false} ReadEscapeAll(s: string, q: char, x: string)
    requires q == '\'' || q == '"'
    ensures ReadQuoted(EscapeAll(s, q) + [q] + x, q) == Some((s, x))
    decreases |s|
  {
    if |s| == 0 {
      assert EscapeAll(s, q) + [q] + x == [q] + x;
      assert ([q] + x)[1..] == x;
    } else {
      var rest := EscapeAll(s[1..], q) + [q] + x;
      assert EscapeAll(s, q) + [q] + x == EscapeChar(s[0], q) + rest;
      ReadEscapeAll(s[1..], q, x);
      ReadEscapeChar(s[0], q, rest);
      assert [s[0]] + s[1..] == s;
    }
  }

  /** `repr` loses nothing, and a reader finds where it ends whatever follows it. */
  lemma ReadReprRepr(s: string, x: string)
    ensures ReadRepr(Repr(s) + x) == Some((s, x))
  {
    var q := ReprQuote(s);
    var t := Repr(s) + x;
    assert t[1..] == EscapeAll(s, q) + [q] + x;
    ReadEscapeAll(s, q, x);
  }

  /** No `repr` is a proper prefix of another: what follows a `repr` is determined. */
  lemma ReprPrefixFree(a: string, b: string, x: string, y: string)
    requires Repr(a) + x == Repr(b) + y
    ensures a == b && x == y
  {
    ReadReprRepr(a, x);
    ReadReprRepr(b, y);
  }

  /** Distinct texts have distinct `repr`s. */
  lemma ReprInjective(a: string, b: string)
    requires Repr(a) == Repr(b)
    ensures a == b
  {
    assert Repr(a) + "" == Repr(b) + "";
    ReprPrefixFree(a, b, "", "");
  }
}
