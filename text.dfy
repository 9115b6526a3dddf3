/** The parts of Rust's `str`, `char` and integer formatting that the bot
    relies on: `split_whitespace`, `split(char)`, `join`, `lines`, decimal
    `Display` of integers, `str::parse::<i32>` and `Debug` of strings. */
module Text {
  import opened Wrappers

  /** `char::is_whitespace`: the characters with the Unicode White_Space property. */
  predicate IsWhitespace(c: char) {
    ('\t' <= c <= '\r') || c == ' ' || c == '\U{85}' || c == '\U{A0}' || c == '\U{1680}'
    || ('\U{2000}' <= c <= '\U{200A}') || c == '\U{2028}' || c == '\U{2029}'
    || c == '\U{202F}' || c == '\U{205F}' || c == '\U{3000}'
  }

  predicate AllWhitespace(s: string) {
    forall i :: 0 <= i < |s| ==> IsWhitespace(s[i])
  }

  predicate NoWhitespace(s: string) {
    forall i :: 0 <= i < |s| ==> !IsWhitespace(s[i])
  }

  /** The longest prefix of `s` that holds no whitespace. */
  function Word(s: string): (w: string)
    ensures w <= s && NoWhitespace(w)
    ensures |w| < |s| ==> IsWhitespace(s[|w|])
  {
    if s == [] || IsWhitespace(s[0]) then [] else [s[0]] + Word(s[1..])
  }

  /** `str::split_whitespace`: the maximal runs of non-whitespace characters, in order. */
  function Tokens(s: string): (r: seq<string>)
    ensures forall i :: 0 <= i < |r| ==> r[i] != [] && NoWhitespace(r[i])
    decreases |s|
  {
    if s == [] then []
    else if IsWhitespace(s[0]) then Tokens(s[1..])
    else var w := Word(s); [w] + Tokens(s[|w|..])
  }

  /** `split_whitespace` yields nothing exactly when the text is all whitespace
      (in particular when it is empty). */
  lemma {:induction false} TokensEmptyIff(s: string)
    ensures Tokens(s) == [] <==> AllWhitespace(s)
    decreases |s|
  {
    if s != [] && IsWhitespace(s[0]) {
      TokensEmptyIff(s[1..]);
      if AllWhitespace(s[1..]) {
        assert forall i :: 0 < i < |s| ==> s[i] == s[1..][i - 1];
      }
    }
  }

  function Concat(parts: seq<string>): string {
    if parts == [] then "" else parts[0] + Concat(parts[1..])
  }

  /** The characters of `s` that are not whitespace, in order. */
  function Visible(s: string): string {
    if s == [] then "" else (if IsWhitespace(s[0]) then "" else [s[0]]) + Visible(s[1..])
  }

  lemma {:induction false} VisibleAppend(a: string, b: string)
    ensures Visible(a + b) == Visible(a) + Visible(b)
  {
    if a != [] {
      assert (a + b)[1..] == a[1..] + b;
      VisibleAppend(a[1..], b);
    } else {
      assert a + b == b;
    }
  }

  lemma {:induction false} VisibleOfWord(w: string)
    requires NoWhitespace(w)
    ensures Visible(w) == w
  {
    if w != [] {
      VisibleOfWord(w[1..]);
    }
  }

  /** Nothing but whitespace is dropped by `split_whitespace`: gluing the
      tokens back together gives the text with its whitespace removed. */
  lemma {:induction false} TokensKeepVisible(s: string)
    ensures Concat(Tokens(s)) == Visible(s)
    decreases |s|
  {
    if s == [] {
    } else if IsWhitespace(s[0]) {
      TokensKeepVisible(s[1..]);
    } else {
      var w := Word(s);
      assert s == w + s[|w|..];
      TokensKeepVisible(s[|w|..]);
      VisibleAppend(w, s[|w|..]);
      VisibleOfWord(w);
      assert Tokens(s) == [w] + Tokens(s[|w|..]);
      assert ([w] + Tokens(s[|w|..]))[1..] == Tokens(s[|w|..]);
    }
  }

  /** `parts.join(sep)`. */
  function JoinWith(parts: seq<string>, sep: string): string {
    if parts == [] then ""
    else if |parts| == 1 then parts[0]
    else parts[0] + sep + JoinWith(parts[1..], sep)
  }

  /** `str::split(sep)`: the pieces between the separators; there is always at least one. */
  function SplitOn(s: string, sep: char): (r: seq<string>)
    ensures |r| >= 1
    ensures forall i :: 0 <= i < |r| ==> sep !in r[i]
  {
    if s == [] then [""]
    else
      var rest := SplitOn(s[1..], sep);
      if s[0] == sep then [""] + rest else [[s[0]] + rest[0]] + rest[1..]
  }

  /** Joining the pieces with the separator gives back the text. */
  lemma {:induction false} SplitJoin(s: string, sep: char)
    ensures JoinWith(SplitOn(s, sep), [sep]) == s
  {
    if s != [] {
      var rest := SplitOn(s[1..], sep);
      SplitJoin(s[1..], sep);
      if s[0] == sep {
        assert ([""] + rest)[1..] == rest;
      } else {
        var parts := [[s[0]] + rest[0]] + rest[1..];
        assert parts[1..] == rest[1..];
        if |rest| > 1 {
          assert JoinWith(rest, [sep]) == rest[0] + [sep] + JoinWith(rest[1..], [sep]);
        }
      }
    }
  }

  /** Splitting a join of separator-free pieces gives back the pieces. */
  lemma {:induction false} JoinSplit(parts: seq<string>, sep: char)
    requires |parts| >= 1
    requires forall i :: 0 <= i < |parts| ==> sep !in parts[i]
    ensures SplitOn(JoinWith(parts, [sep]), sep) == parts
    decreases |parts|, |parts[0]|
  {
    var p := parts[0];
    if p == [] {
      if |parts| > 1 {
        JoinSplit(parts[1..], sep);
        assert JoinWith(parts, [sep]) == [sep] + JoinWith(parts[1..], [sep]);
      }
    } else {
      var tail := [p[1..]] + parts[1..];
      assert tail[1..] == parts[1..];
      assert forall i :: 0 <= i < |tail| ==> sep !in tail[i] by {
        forall i | 0 <= i < |tail| ensures sep !in tail[i] {
          if i == 0 {
            assert forall k :: 0 <= k < |p[1..]| ==> p[1..][k] == p[k + 1];
          } else {
            assert tail[i] == parts[i];
          }
        }
      }
      JoinSplit(tail, sep);
      var joined := JoinWith(parts, [sep]);
      if |parts| == 1 {
        assert joined == [p[0]] + JoinWith(tail, [sep]);
      } else {
        assert joined == [p[0]] + JoinWith(tail, [sep]);
      }
      assert joined[1..] == JoinWith(tail, [sep]);
      assert p[0] != sep by { assert p[0] in p; }
      assert [p[0]] + p[1..] == p;
      assert [p] + parts[1..] == parts;
    }
  }

  /** `str::lines`: split at `\n`, drop a `\r` just before a `\n`, and yield no
      empty last line for a text that ends in a line ending. */
  function Lines(s: string): (r: seq<string>)
    ensures s == [] ==> r == []
  {
    if s == [] then []
    else
      var pieces := SplitOn(s, '\n');
      var last := pieces[|pieces| - 1];
      DropCarriageReturns(pieces[..|pieces| - 1]) + (if last == "" then [] else [last])
  }

  function DropCarriageReturn(line: string): string {
    if |line| > 0 && line[|line| - 1] == '\r' then line[..|line| - 1] else line
  }

  function DropCarriageReturns(lines: seq<string>): (r: seq<string>)
    ensures |r| == |lines|
    ensures forall i :: 0 <= i < |r| ==> r[i] == DropCarriageReturn(lines[i])
  {
    if lines == [] then [] else [DropCarriageReturn(lines[0])] + DropCarriageReturns(lines[1..])
  }

  // ---------------------------------------------------------------------
  // Decimal numbers

  predicate IsDigit(c: char) {
    '0' <= c <= '9'
  }

  predicate AllDigits(s: string) {
    forall i :: 0 <= i < |s| ==> IsDigit(s[i])
  }

  function DigitChar(d: nat): (c: char)
    requires d < 10
    ensures IsDigit(c) && c as int - '0' as int == d
  {
    (d + '0' as int) as char
  }

  /** `format!("{}", n)` for an unsigned integer. */
  function NatToString(n: nat): (s: string)
    ensures s != [] && AllDigits(s)
    decreases n
  {
    if n < 10 then [DigitChar(n)] else NatToString(n / 10) + [DigitChar(n % 10)]
  }

  /** `format!("{}", i)` for a signed integer. */
  function IntToString(i: int): string {
    if i < 0 then "-" + NatToString(-i) else NatToString(i)
  }

  /** The value of a string of decimal digits. */
  function DecimalValue(s: string): nat
    requires AllDigits(s)
    decreases |s|
  {
    if s == [] then 0 else DecimalValue(s[..|s| - 1]) * 10 + (s[|s| - 1] as int - '0' as int)
  }

  /** Reading back a rendered number gives the number. */
  lemma {:induction false} DecimalRoundTrip(n: nat)
    ensures DecimalValue(NatToString(n)) == n
    decreases n
  {
    if n >= 10 {
      var s := NatToString(n);
      assert s[..|s| - 1] == NatToString(n / 10);
      DecimalRoundTrip(n / 10);
    }
  }

  const I32Min: int := -0x8000_0000
  const I32Max: int := 0x7FFF_FFFF

  /** `str::parse::<i32>`: an optional `+` or `-`, then at least one ASCII
      digit, and a value that fits in 32 signed bits; anything else is an error. */
  function ParseI32(s: string): (r: Option<int>)
    ensures r.Some? ==> I32Min <= r.value <= I32Max
    ensures s == [] ==> r.None?
  {
    var negative := |s| > 0 && s[0] == '-';
    var digits := if |s| > 0 && (s[0] == '-' || s[0] == '+') then s[1..] else s;
    if digits == [] || !AllDigits(digits) then None
    else
      var v := if negative then -(DecimalValue(digits) as int) else DecimalValue(digits) as int;
      if I32Min <= v <= I32Max then Some(v) else None
  }

  /** Every 32-bit integer parses back from its decimal rendering. */
  lemma ParseI32RoundTrip(i: int)
    requires I32Min <= i <= I32Max
    ensures ParseI32(IntToString(i)) == Some(i)
  {
    ParseIntText(i);
  }

  /** The decimal rendering of any integer parses as an `i32` exactly when
      the integer fits, and then as itself. */
  lemma ParseIntText(i: int)
    ensures ParseI32(IntToString(i)) == if I32Min <= i <= I32Max then Some(i) else None
  {
    if i < 0 {
      ParseNegativeText(i);
    } else {
      ParseNonNegativeText(i);
    }
  }

  lemma ParseNegativeText(i: int)
    requires i < 0
    ensures ParseI32(IntToString(i)) == if I32Min <= i then Some(i) else None
  {
    var s := IntToString(i);
    assert s[0] == '-' && s[1..] == NatToString(-i);
    DecimalRoundTrip(-i);
  }

  lemma ParseNonNegativeText(i: nat)
    ensures ParseI32(IntToString(i)) == if i <= I32Max then Some(i) else None
  {
    var s := NatToString(i);
    assert IsDigit(s[0]);
    DecimalRoundTrip(i);
  }

  // ---------------------------------------------------------------------
  // `Debug` of strings

  /** How `{:?}` writes one character inside a string literal (the escapes
      for quote, backslash, newline, carriage return, tab and NUL). */
  function EscapeChar(c: char): string {
    if c == '"' then "\\\""
    else if c == '\\' then "\\\\"
    else if c == '\n' then "\\n"
    else if c == '\r' then "\\r"
    else if c == '\t' then "\\t"
    else if c == '\0' then "\\0"
    else [c]
  }

  function Escape(s: string): string {
    if s == [] then "" else EscapeChar(s[0]) + Escape(s[1..])
  }

  /** Reads escapes back; the reference against which `Escape` is checked. */
  function Unescape(s: string): string
    decreases |s|
  {
    if s == [] then ""
    else if s[0] == '\\' && |s| >= 2 then
      var e := s[1];
      [if e == 'n' then '\n' else if e == 'r' then '\r' else if e == 't' then '\t'
       else if e == '0' then '\0' else e] + Unescape(s[2..])
    else [s[0]] + Unescape(s[1..])
  }

  /** Escaping loses nothing: the escaped text reads back as the original. */
  lemma {:induction false} EscapeRoundTrip(s: string)
    ensures Unescape(Escape(s)) == s
  {
    if s != [] {
      var c, rest := s[0], Escape(s[1..]);
      EscapeRoundTrip(s[1..]);
      var t := EscapeChar(c) + rest;
      if |EscapeChar(c)| == 2 {
        assert t[2..] == rest;
      } else {
        assert t[1..] == rest;
      }
    }
  }

  /** `format!("{:?}", s)` for a `&str`. */
  function DebugStr(s: string): string {
    "\"" + Escape(s) + "\""
  }

  function DebugAll(xs: seq<string>): (r: seq<string>)
    ensures |r| == |xs|
    ensures forall i :: 0 <= i < |xs| ==> r[i] == DebugStr(xs[i])
  {
    if xs == [] then [] else [DebugStr(xs[0])] + DebugAll(xs[1..])
  }

  /** `format!("{:?}", v)` for a `Vec<&str>`. */
  function DebugStrList(xs: seq<string>): string {
    "[" + JoinWith(DebugAll(xs), ", ") + "]"
  }
}
