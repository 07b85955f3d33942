/** String primitives of the JavaScript runtime that the core relies on:
    `String.prototype.trim` and the `\s` class (one whitespace set), `startsWith`,
    `includes`, `indexOf('\n')`, `join`, ASCII `toLowerCase`, number-to-string
    conversion, `split('/').pop()`, and the "complete lines plus remainder" view
    of a buffer that both event-stream decoders use. */
module Text {
  import opened Wrappers

  /** A JavaScript string that may be absent (`undefined` or `null`) is truthy
      when it is present and non-empty. */
  predicate Filled(x: Option<string>) {
    x.Some? && x.value != []
  }

  // ---------------------------------------------------------------------------
  // Whitespace and trimming
  // ---------------------------------------------------------------------------

  /** The ECMAScript WhiteSpace and LineTerminator code points: exactly what
      `trim()` strips and what the regular-expression class `\s` matches. */
  predicate IsSpace(c: char) {
    c == '\t' || c == '\n' || c == '\U{000B}' || c == '\U{000C}' || c == '\r' ||
    c == ' ' || c == '\U{00A0}' || c == '\U{1680}' ||
    ('\U{2000}' <= c <= '\U{200A}') ||
    c == '\U{2028}' || c == '\U{2029}' || c == '\U{202F}' || c == '\U{205F}' ||
    c == '\U{3000}' || c == '\U{FEFF}'
  }

  predicate AllSpace(s: string) {
    forall i :: 0 <= i < |s| ==> IsSpace(s[i])
  }

  /** Neither the first nor the last character is whitespace. */
  predicate IsTrimmed(s: string) {
    s == [] || (!IsSpace(s[0]) && !IsSpace(s[|s| - 1]))
  }

  /** Number of whitespace characters at the start of `s`. */
  function LeadingSpaces(s: string): (n: nat)
    ensures n <= |s|
    ensures n == |s| || !IsSpace(s[n])
  {
    if s == [] || !IsSpace(s[0]) then 0 else 1 + LeadingSpaces(s[1..])
  }

  /** Number of whitespace characters at the end of `s`. */
  function TrailingSpaces(s: string): (n: nat)
    ensures n <= |s|
    ensures n == |s| || !IsSpace(s[|s| - n - 1])
  {
    if s == [] || !IsSpace(s[|s| - 1]) then 0 else 1 + TrailingSpaces(s[..|s| - 1])
  }

  lemma {:induction false} LeadingAreSpaces(s: string)
    ensures AllSpace(s[..LeadingSpaces(s)])
  {
    if s != [] && IsSpace(s[0]) {
      LeadingAreSpaces(s[1..]);
      var n := LeadingSpaces(s);
      assert s[..n] == [s[0]] + s[1..][..n - 1];
    }
  }

  lemma {:induction false} TrailingAreSpaces(s: string)
    ensures AllSpace(s[|s| - TrailingSpaces(s)..])
  {
    if s != [] && IsSpace(s[|s| - 1]) {
      var init := s[..|s| - 1];
      TrailingAreSpaces(init);
      var n := TrailingSpaces(s);
      assert s[|s| - n..] == init[|init| - (n - 1)..] + [s[|s| - 1]];
    }
  }

  /** `s.trim()`: drops the whitespace at both ends. */
  function Trim(s: string): (r: string)
    ensures IsTrimmed(r)
    ensures |r| <= |s|
  {
    var i := LeadingSpaces(s);
    var t := s[i..];
    var j := TrailingSpaces(t);
    assert j < |t| ==> !IsSpace(t[0]);
    t[..|t| - j]
  }

  /** `trim()` keeps an infix of the text and cuts off only whitespace on
      either side. */
  lemma TrimIsInfix(s: string) returns (a: nat)
    ensures a + |Trim(s)| <= |s| && Trim(s) == s[a..a + |Trim(s)|]
    ensures AllSpace(s[..a]) && AllSpace(s[a + |Trim(s)|..])
  {
    a := LeadingSpaces(s);
    var t := s[a..];
    var n := |t| - TrailingSpaces(t);
    assert Trim(s) == t[..n];
    LeadingAreSpaces(s);
    TrailingAreSpaces(t);
    SliceOfSuffix(s, a, n);
  }

  lemma SliceOfSuffix(s: string, a: nat, n: nat)
    requires a + n <= |s| && AllSpace(s[a..][n..])
    ensures s[a..][..n] == s[a..a + n] && AllSpace(s[a + n..])
  {
    assert s[a..][n..] == s[a + n..];
  }

  lemma TrimOfTrimmed(s: string)
    requires IsTrimmed(s)
    ensures Trim(s) == s
  {
    assert LeadingSpaces(s) == 0;
    if s != [] {
      assert TrailingSpaces(s) == 0;
    }
  }

  /** `s.trim() === ''` exactly when `s` is all whitespace. */
  lemma AllSpaceTrim(s: string)
    ensures Trim(s) == [] <==> AllSpace(s)
  {
    var a := TrimIsInfix(s);
    if Trim(s) == [] {
      forall k | 0 <= k < |s| ensures IsSpace(s[k]) {
        if k < a {
          assert s[k] == s[..a][k];
        } else {
          assert s[k] == s[a..][k - a];
        }
      }
    } else {
      assert !IsSpace(s[a]) by { assert s[a] == Trim(s)[0]; }
    }
  }

  // ---------------------------------------------------------------------------
  // Prefixes, substrings, first occurrence
  // ---------------------------------------------------------------------------

  /** `s.startsWith(p)`. */
  predicate StartsWith(s: string, p: string) {
    |p| <= |s| && s[..|p|] == p
  }

  /** `s.includes(p)`: `p` occurs in `s` at some position. */
  predicate Contains(s: string, p: string)
    decreases |s|
  {
    StartsWith(s, p) || (s != [] && Contains(s[1..], p))
  }

  lemma {:induction false} ContainsAt(s: string, p: string, i: nat)
    requires i + |p| <= |s| && s[i..i + |p|] == p
    ensures Contains(s, p)
    decreases i
  {
    if i > 0 {
      assert s[1..][i - 1..i - 1 + |p|] == s[i..i + |p|];
      ContainsAt(s[1..], p, i - 1);
    }
  }

  lemma {:induction false} ContainsWitness(s: string, p: string) returns (i: nat)
    requires Contains(s, p)
    ensures i + |p| <= |s| && s[i..i + |p|] == p
    decreases |s|
  {
    if StartsWith(s, p) {
      i := 0;
    } else {
      var j := ContainsWitness(s[1..], p);
      assert s[1..][j..j + |p|] == s[j + 1..j + 1 + |p|];
      i := j + 1;
    }
  }

  /** `s.indexOf(c)` for a single character: -1 when absent, otherwise the
      first position holding `c`. */
  function IndexOfChar(s: string, c: char): (k: int)
    ensures -1 <= k < |s|
    ensures k == -1 <==> c !in s
    ensures 0 <= k ==> s[k] == c && c !in s[..k]
  {
    if s == [] then -1
    else if s[0] == c then 0
    else
      var k := IndexOfChar(s[1..], c);
      if k == -1 then -1
      else
        assert s[..k + 1] == [s[0]] + s[1..][..k];
        k + 1
  }

  lemma IndexOfCharIs(s: string, c: char, k: nat)
    requires k < |s| && s[k] == c && c !in s[..k]
    ensures IndexOfChar(s, c) == k
  {
    if k > 0 {
      assert s[0] == s[..k][0];
      assert s[1..][..k - 1] == s[..k][1..];
      IndexOfCharIs(s[1..], c, k - 1);
    }
  }

  // ---------------------------------------------------------------------------
  // Concatenation
  // ---------------------------------------------------------------------------

  /** `parts.join(sep)`. */
  function Join(parts: seq<string>, sep: string): string {
    if parts == [] then ""
    else if |parts| == 1 then parts[0]
    else parts[0] + sep + Join(parts[1..], sep)
  }

  /** `parts.join('')`. */
  function Concat(parts: seq<string>): string {
    if parts == [] then "" else parts[0] + Concat(parts[1..])
  }

  lemma {:induction false} ConcatAppend(parts: seq<string>, last: string)
    ensures Concat(parts + [last]) == Concat(parts) + last
  {
    if parts != [] {
      assert (parts + [last])[1..] == parts[1..] + [last];
      ConcatAppend(parts[1..], last);
    }
  }

  lemma {:induction false} ConcatOfConcat(a: seq<string>, b: seq<string>)
    ensures Concat(a + b) == Concat(a) + Concat(b)
  {
    if a == [] {
      assert a + b == b;
    } else {
      assert (a + b)[0] == a[0];
      assert (a + b)[1..] == a[1..] + b;
      ConcatOfConcat(a[1..], b);
    }
  }

  lemma {:induction false} JoinAppend(parts: seq<string>, last: string, sep: string)
    requires parts != []
    ensures Join(parts + [last], sep) == Join(parts, sep) + sep + last
  {
    if |parts| == 1 {
      assert parts + [last] == [parts[0], last];
    } else {
      assert (parts + [last])[1..] == parts[1..] + [last];
      JoinAppend(parts[1..], last, sep);
    }
  }

  // ---------------------------------------------------------------------------
  // Case and numbers
  // ---------------------------------------------------------------------------

  /** `toLowerCase()` restricted to the ASCII letters; every other character is
      kept as it is. */
  function LowerChar(c: char): char {
    if 'A' <= c <= 'Z' then (c as int + 32) as char else c
  }

  function ToLower(s: string): (r: string)
    ensures |r| == |s|
    ensures forall i :: 0 <= i < |s| ==> r[i] == LowerChar(s[i])
  {
    if s == [] then "" else [LowerChar(s[0])] + ToLower(s[1..])
  }

  predicate IsDigit(c: char) {
    '0' <= c <= '9'
  }

  function DigitChar(d: nat): (c: char)
    requires d < 10
    ensures IsDigit(c) && c as int - '0' as int == d
  {
    ('0' as int + d) as char
  }

  /** Decimal rendering of a natural number, as template literals and
      `JSON.stringify` print it. */
  function NatToString(n: nat): (r: string)
    ensures r != []
    ensures forall i :: 0 <= i < |r| ==> IsDigit(r[i])
    ensures |r| > 1 ==> r[0] != '0'
  {
    if n < 10 then [DigitChar(n)] else NatToString(n / 10) + [DigitChar(n % 10)]
  }

  /** Decimal rendering of an integer, with a leading '-' for negatives. */
  function IntToString(i: int): (r: string)
    ensures r != [] && !IsSpace(r[0]) && !IsSpace(r[|r| - 1]) && '\n' !in r
  {
    if i < 0 then "-" + NatToString(-i) else NatToString(i)
  }

  /** Reads a string of decimal digits back as a number. */
  function DigitsValue(s: string): nat
    requires forall i :: 0 <= i < |s| ==> IsDigit(s[i])
  {
    if s == [] then 0
    else
      assert IsDigit(s[|s| - 1]);
      DigitsValue(s[..|s| - 1]) * 10 + (s[|s| - 1] as int - '0' as int)
  }

  /** Rendering a number and reading it back gives the number again, so two
      different numbers never render alike (the `source-N` ids are distinct). */
  lemma {:induction false} NatToStringRoundTrip(n: nat)
    ensures DigitsValue(NatToString(n)) == n
  {
    if n >= 10 {
      var r := NatToString(n);
      assert r[..|r| - 1] == NatToString(n / 10);
      NatToStringRoundTrip(n / 10);
    }
  }

  lemma NatToStringInjective(m: nat, n: nat)
    requires NatToString(m) == NatToString(n)
    ensures m == n
  {
    NatToStringRoundTrip(m);
    NatToStringRoundTrip(n);
  }

  /** The length of the run of decimal digits `s` starts with. */
  function DigitRun(s: string): (n: nat)
    ensures n <= |s| && (forall i :: 0 <= i < n ==> IsDigit(s[i])) && (n == |s| || !IsDigit(s[n]))
  {
    if s == [] || !IsDigit(s[0]) then 0 else 1 + DigitRun(s[1..])
  }

  /** `parseInt(s, 10)` short of floating point: leading whitespace is
      skipped, an optional sign is read, then the longest run of digits; with
      no digit the result is `NaN`, here `None`. */
  function ParseInt(s: string): Option<int> {
    var t := s[LeadingSpaces(s)..];
    var signed := t != [] && (t[0] == '-' || t[0] == '+');
    var u := if signed then t[1..] else t;
    var n := DigitRun(u);
    var value: int := if n == 0 then 0 else DigitsValue(u[..n]);
    if n == 0 then None
    else if signed && t[0] == '-' then Some(-value)
    else Some(value)
  }

  /** Whitespace before a rendered integer and anything after it that does
      not continue its digits leave `parseInt` reading the integer back. */
  lemma ParseIntReads(ws: string, i: int, rest: string)
    requires AllSpace(ws) && (rest == [] || !IsDigit(rest[0]))
    ensures ParseInt(ws + IntToString(i) + rest) == Some(i)
  {
    var t := IntToString(i) + rest;
    assert ws + IntToString(i) + rest == ws + t;
    assert t[0] == IntToString(i)[0];
    ParseIntAfterSpaces(ws, t);
    ParseIntOfRendered(i, rest);
  }

  lemma ParseIntAfterSpaces(ws: string, t: string)
    requires AllSpace(ws) && t != [] && !IsSpace(t[0])
    ensures ParseInt(ws + t) == ParseInt(t)
  {
    LeadingSpacesOf(ws, t);
    assert (ws + t)[|ws|..] == t;
    assert t[0] == t[0..][0];
    assert LeadingSpaces(t) == 0;
  }

  lemma ParseIntOfRendered(i: int, rest: string)
    requires rest == [] || !IsDigit(rest[0])
    ensures ParseInt(IntToString(i) + rest) == Some(i)
  {
    var digits := NatToString(if i < 0 then -i else i);
    NatToStringRoundTrip(if i < 0 then -i else i);
    if i < 0 {
      ParseIntUnsigned(digits, rest);
      assert (digits + rest)[0] == digits[0];
      ParseIntMinus(digits + rest);
      AppendAssoc("-", digits, rest);
    } else {
      ParseIntUnsigned(digits, rest);
    }
  }

  lemma ParseIntUnsigned(digits: string, rest: string)
    requires digits != [] && forall i :: 0 <= i < |digits| ==> IsDigit(digits[i])
    requires rest == [] || !IsDigit(rest[0])
    ensures ParseInt(digits + rest) == Some(DigitsValue(digits))
  {
    var t := digits + rest;
    DigitRunOf(digits, rest);
    assert t[0] == digits[0];
    assert LeadingSpaces(t) == 0;
    assert t[0..] == t;
    assert t[..|digits|] == digits;
  }

  /** A '-' in front of a run of digits negates what is read. */
  lemma ParseIntMinus(u: string)
    requires u != [] && IsDigit(u[0])
    ensures ParseInt(u).Some? && ParseInt("-" + u) == Some(-ParseInt(u).value)
  {
    var t := "-" + u;
    assert LeadingSpaces(t) == 0 by { assert t[0] == '-'; }
    assert LeadingSpaces(u) == 0;
    assert t[0..] == t && u[0..] == u;
    assert t[1..] == u;
  }

  lemma {:induction false} LeadingSpacesOf(ws: string, t: string)
    requires AllSpace(ws) && t != [] && !IsSpace(t[0])
    ensures LeadingSpaces(ws + t) == |ws|
  {
    LeadingAreSpaces(ws + t);
    assert (ws + t)[|ws|] == t[0];
    assert forall i :: 0 <= i < |ws| ==> (ws + t)[i] == ws[i];
  }

  lemma {:induction false} DigitRunOf(digits: string, rest: string)
    requires forall i :: 0 <= i < |digits| ==> IsDigit(digits[i])
    requires rest == [] || !IsDigit(rest[0])
    ensures DigitRun(digits + rest) == |digits|
  {
    if digits != [] {
      assert (digits + rest)[1..] == digits[1..] + rest;
      DigitRunOf(digits[1..], rest);
    } else {
      assert digits + rest == rest;
    }
  }

  // ---------------------------------------------------------------------------
  // `split('/').pop()`
  // ---------------------------------------------------------------------------

  /** The last `sep`-separated field of `s`: everything after its final `sep`,
      or `s` itself when it holds none. */
  function LastField(s: string, sep: char): (r: string)
    ensures sep !in r
    ensures |r| <= |s| && r == s[|s| - |r|..]
    ensures |r| < |s| ==> s[|s| - |r| - 1] == sep
    decreases |s|
  {
    var k := IndexOfChar(s, sep);
    if k < 0 then s
    else
      var t := s[k + 1..];
      var r := LastField(t, sep);
      SuffixOfSuffix(s, k + 1, |r|);
      assert |r| == |t| ==> |s| - |r| - 1 == k;
      r
  }

  lemma SuffixOfSuffix(s: string, b: nat, m: nat)
    requires b + m <= |s|
    ensures s[b..][|s| - b - m..] == s[|s| - m..]
    ensures b + m < |s| ==> s[b..][|s| - b - m - 1] == s[|s| - m - 1]
  {
  }

  lemma {:induction false} LastFieldAfter(prefix: string, sep: char, field: string)
    requires sep !in field
    ensures LastField(prefix + [sep] + field, sep) == field
    decreases |prefix|
  {
    var s := prefix + [sep] + field;
    var k := IndexOfChar(prefix, sep);
    assert s[..|prefix|] == prefix;
    if k < 0 {
      IndexOfCharIs(s, sep, |prefix|);
      assert s[|prefix| + 1..] == field;
      assert IndexOfChar(field, sep) == -1;
    } else {
      assert s[..k] == prefix[..k];
      IndexOfCharIs(s, sep, k);
      assert s[k + 1..] == prefix[k + 1..] + [sep] + field;
      LastFieldAfter(prefix[k + 1..], sep, field);
    }
  }

  // ---------------------------------------------------------------------------
  // Line framing: `while ((k = buffer.indexOf('\n')) !== -1)` loops
  // ---------------------------------------------------------------------------

  /** The newline-terminated lines at the front of `s`, without their '\n'. */
  function CompleteLines(s: string): (lines: seq<string>)
    ensures forall i :: 0 <= i < |lines| ==> '\n' !in lines[i]
    decreases |s|
  {
    var k := IndexOfChar(s, '\n');
    if k < 0 then [] else [s[..k]] + CompleteLines(s[k + 1..])
  }

  /** What follows the last '\n' of `s`: the part a decoder keeps buffered. */
  function Remainder(s: string): (r: string)
    ensures '\n' !in r
    decreases |s|
  {
    var k := IndexOfChar(s, '\n');
    if k < 0 then s else Remainder(s[k + 1..])
  }

  /** Each line followed by '\n': the inverse of `CompleteLines`. */
  function Unlines(lines: seq<string>): string {
    if lines == [] then "" else lines[0] + "\n" + Unlines(lines[1..])
  }

  lemma SplitAround(s: string, k: nat)
    requires k < |s| && s[k] == '\n'
    ensures s == s[..k] + "\n" + s[k + 1..]
  {
    assert s[k..] == [s[k]] + s[k + 1..];
    assert s == s[..k] + s[k..];
  }

  lemma UnlinesCons(line: string, lines: seq<string>)
    ensures Unlines([line] + lines) == line + "\n" + Unlines(lines)
  {
    assert ([line] + lines)[1..] == lines;
  }

  lemma {:induction false} UnlinesAppend(a: seq<string>, b: seq<string>)
    ensures Unlines(a + b) == Unlines(a) + Unlines(b)
  {
    if a == [] {
      assert a + b == b;
    } else {
      assert (a + b)[0] == a[0];
      assert (a + b)[1..] == a[1..] + b;
      UnlinesAppend(a[1..], b);
    }
  }

  /** Splitting loses nothing: the lines and the remainder put back together give
      the buffer again. */
  lemma {:induction false} LinesReassemble(s: string)
    ensures Unlines(CompleteLines(s)) + Remainder(s) == s
    decreases |s|
  {
    var k := IndexOfChar(s, '\n');
    if k >= 0 {
      var rest := s[k + 1..];
      LinesReassemble(rest);
      assert CompleteLines(s) == [s[..k]] + CompleteLines(rest);
      UnlinesCons(s[..k], CompleteLines(rest));
      assert Unlines(CompleteLines(s)) == s[..k] + "\n" + Unlines(CompleteLines(rest));
      assert Remainder(s) == Remainder(rest);
      AppendAssoc(s[..k] + "\n", Unlines(CompleteLines(rest)), Remainder(rest));
      SplitAround(s, k);
    }
  }

  /** Splitting inverts `Unlines`: text made of '\n'-free lines, each terminated,
      followed by an unterminated tail, splits back into exactly those lines and
      that tail. */
  lemma {:induction false} LinesOfUnlines(lines: seq<string>, tail: string)
    requires forall i :: 0 <= i < |lines| ==> '\n' !in lines[i]
    requires '\n' !in tail
    ensures CompleteLines(Unlines(lines) + tail) == lines
    ensures Remainder(Unlines(lines) + tail) == tail
  {
    if lines != [] {
      var s := Unlines(lines) + tail;
      var rest := Unlines(lines[1..]) + tail;
      assert s == lines[0] + "\n" + rest;
      assert s[..|lines[0]|] == lines[0];
      IndexOfCharIs(s, '\n', |lines[0]|);
      assert s[|lines[0]| + 1..] == rest;
      LinesOfUnlines(lines[1..], tail);
    }
  }

  /** Splitting is insensitive to how the text was chunked: decoding `a`, keeping
      its remainder, and decoding that remainder followed by `c` yields the same
      lines and the same final remainder as decoding `a + c` in one go. */
  lemma {:induction false} LinesOfConcat(a: string, c: string)
    ensures CompleteLines(a + c) == CompleteLines(a) + CompleteLines(Remainder(a) + c)
    ensures Remainder(a + c) == Remainder(Remainder(a) + c)
    decreases |a|
  {
    var k := IndexOfChar(a, '\n');
    if k >= 0 {
      assert (a + c)[..k] == a[..k];
      IndexOfCharIs(a + c, '\n', k);
      assert (a + c)[k + 1..] == a[k + 1..] + c;
      LinesOfConcat(a[k + 1..], c);
    }
  }

  // ---------------------------------------------------------------------------
  // Line-at-a-time decoders
  // ---------------------------------------------------------------------------

  /** What a line decoder has produced so far and the state it is in. */
  datatype Scanned<D, S> = Scanned(out: seq<D>, state: S)

  /** Runs the decoder step `step` over `lines` in order from state `st`,
      collecting what each line produces. */
  function Scan<D, S>(lines: seq<string>, st: S, step: (string, S) -> Scanned<D, S>): (r: Scanned<D, S>)
  {
    if lines == [] then Scanned([], st)
    else
      var first := step(lines[0], st);
      var rest := Scan(lines[1..], first.state, step);
      Scanned(first.out + rest.out, rest.state)
  }

  lemma Scan3<D, S>(l0: string, l1: string, l2: string, st: S, step: (string, S) -> Scanned<D, S>)
    ensures var s0 := step(l0, st); var s1 := step(l1, s0.state); var s2 := step(l2, s1.state);
      Scan([l0, l1, l2], st, step) == Scanned(s0.out + s1.out + s2.out, s2.state)
  {
    var s0 := step(l0, st);
    var s1 := step(l1, s0.state);
    var s2 := step(l2, s1.state);
    assert Scan([l2], s1.state, step) == Scanned(s2.out, s2.state) by {
      assert [l2][1..] == [];
      assert s2.out + [] == s2.out;
    }
    assert Scan([l1, l2], s0.state, step) == Scanned(s1.out + s2.out, s2.state) by {
      assert [l1, l2][1..] == [l2];
    }
    assert [l0, l1, l2][1..] == [l1, l2];
    assert s0.out + (s1.out + s2.out) == s0.out + s1.out + s2.out;
  }

  lemma AppendAssoc<T>(a: seq<T>, b: seq<T>, c: seq<T>)
    ensures a + b + c == a + (b + c)
  {
  }

  /** Taking the first complete line off a buffer: decoding the buffer's
      complete lines is decoding that line and then the rest's. */
  lemma ScanFirstLine<D, S>(buffer: string, k: int, st: S, step: (string, S) -> Scanned<D, S>)
    requires 0 <= k && k == IndexOfChar(buffer, '\n')
    ensures var first := step(buffer[..k], st);
      var rest := Scan(CompleteLines(buffer[k + 1..]), first.state, step);
      Scan(CompleteLines(buffer), st, step) == Scanned(first.out + rest.out, rest.state)
    ensures Remainder(buffer) == Remainder(buffer[k + 1..])
    ensures |buffer[k + 1..]| < |buffer|
  {
    var lines := CompleteLines(buffer);
    assert lines == [buffer[..k]] + CompleteLines(buffer[k + 1..]);
    assert lines[0] == buffer[..k] && lines[1..] == CompleteLines(buffer[k + 1..]);
  }

  /** Decoding two runs of lines one after the other is decoding their
      concatenation. */
  lemma {:induction false} ScanAppend<D, S>(a: seq<string>, b: seq<string>, st: S, step: (string, S) -> Scanned<D, S>)
    ensures Scan(a + b, st, step).out == Scan(a, st, step).out + Scan(b, Scan(a, st, step).state, step).out
    ensures Scan(a + b, st, step).state == Scan(b, Scan(a, st, step).state, step).state
  {
    if a == [] {
      assert a + b == b;
    } else {
      assert (a + b)[0] == a[0];
      assert (a + b)[1..] == a[1..] + b;
      ScanAppend(a[1..], b, step(a[0], st).state, step);
    }
  }

  /** A decoder that consumes the complete lines of its buffer as each chunk
      arrives and keeps the unterminated rest produces the same output and ends
      in the same state however the text was cut into chunks: two chunks `a`
      and `c` give what `a + c` gives at once. */
  lemma ScanChunks<D, S>(a: string, c: string, st: S, step: (string, S) -> Scanned<D, S>)
    ensures var first := Scan(CompleteLines(a), st, step);
      var second := Scan(CompleteLines(Remainder(a) + c), first.state, step);
      && Scan(CompleteLines(a + c), st, step) == Scanned(first.out + second.out, second.state)
      && Remainder(a + c) == Remainder(Remainder(a) + c)
  {
    LinesOfConcat(a, c);
    ScanAppend(CompleteLines(a), CompleteLines(Remainder(a) + c), st, step);
  }
}
