/** The string operations of Python 2 that the marshalling code relies on:
    `split('\n')`, `strip()`, `''.join`, `str(int)` / `%d`, and `int(str)`.
    Python 2 byte strings are modelled as `string`; the characters `strip()`
    removes are the six ASCII whitespace characters. */
module Strings {
  import opened Wrappers

  predicate IsSpace(c: char) {
    c == ' ' || c == '\t' || c == '\n' || c == '\r' || c as int == 11 || c as int == 12
  }

  // ---------------------------------------------------------------------
  // split('\n') and its inverse, '\n'.join

  /** `s.split('\n')`: the pieces between newlines, always at least one. */
  function SplitLines(s: string): (r: seq<string>)
    ensures |r| >= 1
    ensures forall i :: 0 <= i < |r| ==> '\n' !in r[i]
  {
    if s == [] then [""]
    else if s[0] == '\n' then [""] + SplitLines(s[1..])
    else
      var rest := SplitLines(s[1..]);
      [[s[0]] + rest[0]] + rest[1..]
  }

  function JoinWith(pieces: seq<string>, sep: string): string
    requires |pieces| >= 1
  {
    if |pieces| == 1 then pieces[0] else pieces[0] + sep + JoinWith(pieces[1..], sep)
  }

  /** Splitting at newlines loses nothing: joining the pieces back with
      newlines gives the original text. */
  lemma {:induction false} SplitLinesJoin(s: string)
    ensures JoinWith(SplitLines(s), "\n") == s
  {
    if s != [] {
      SplitLinesJoin(s[1..]);
      var rest := SplitLines(s[1..]);
      if s[0] == '\n' {
        assert ([""] + rest)[1..] == rest;
      } else if |rest| > 1 {
        assert ([[s[0]] + rest[0]] + rest[1..])[1..] == rest[1..];
        assert JoinWith(rest, "\n") == rest[0] + "\n" + JoinWith(rest[1..], "\n");
      }
    }
  }

  /** A string without a newline splits into itself alone. */
  lemma {:induction false} SplitLinesNoNewline(s: string)
    requires '\n' !in s
    ensures SplitLines(s) == [s]
  {
    if s != [] {
      assert '\n' !in s[1..];
      SplitLinesNoNewline(s[1..]);
      assert [s[0]] + s[1..] == s;
    }
  }

  /** `p` is `prefix`, then `key`, then `suffix`: the key can be read back
      from its place in `p`. */
  predicate Frames(p: string, prefix: string, key: string, suffix: string) {
    && |p| == |prefix| + |key| + |suffix|
    && p[..|prefix|] == prefix
    && p[|prefix|..|prefix| + |key|] == key
    && p[|prefix| + |key|..] == suffix
  }

  lemma FramesConcat(prefix: string, key: string, suffix: string)
    ensures Frames(prefix + key + suffix, prefix, key, suffix)
  {
    var p := prefix + key + suffix;
    assert p[..|prefix|] == prefix;
    assert p[|prefix|..|prefix| + |key|] == key;
    assert p[|prefix| + |key|..] == suffix;
  }

  // ---------------------------------------------------------------------
  // strip()

  /** Number of whitespace characters at the start of `s`. */
  function LeadCount(s: string): (n: nat)
    ensures n <= |s|
  {
    if s != [] && IsSpace(s[0]) then 1 + LeadCount(s[1..]) else 0
  }

  /** Number of whitespace characters at the end of `s`. */
  function TrailCount(s: string): (n: nat)
    ensures n <= |s|
  {
    if s != [] && IsSpace(s[|s| - 1]) then 1 + TrailCount(s[..|s| - 1]) else 0
  }

  function LStrip(s: string): string {
    s[LeadCount(s)..]
  }

  function RStrip(s: string): string {
    s[..|s| - TrailCount(s)]
  }

  /** `s.strip()`. */
  function Strip(s: string): string {
    RStrip(LStrip(s))
  }

  /** A string is tight when it neither starts nor ends with whitespace. */
  predicate Tight(s: string) {
    s == [] || (!IsSpace(s[0]) && !IsSpace(s[|s| - 1]))
  }

  /** The leading run of whitespace: every character before the count is
      whitespace, and the one at the count, if any, is not. */
  lemma {:induction false} LeadCountSpec(s: string)
    ensures forall k :: 0 <= k < LeadCount(s) ==> IsSpace(s[k])
    ensures LeadCount(s) == |s| || !IsSpace(s[LeadCount(s)])
  {
    if s != [] && IsSpace(s[0]) {
      LeadCountSpec(s[1..]);
      forall k | 0 < k < LeadCount(s)
        ensures IsSpace(s[k])
      {
        assert s[k] == s[1..][k - 1];
      }
    }
  }

  /** The trailing run of whitespace, likewise. */
  lemma {:induction false} TrailCountSpec(s: string)
    ensures forall k :: |s| - TrailCount(s) <= k < |s| ==> IsSpace(s[k])
    ensures TrailCount(s) == |s| || !IsSpace(s[|s| - 1 - TrailCount(s)])
  {
    if s != [] && IsSpace(s[|s| - 1]) {
      var init := s[..|s| - 1];
      TrailCountSpec(init);
      forall k | |s| - TrailCount(s) <= k < |s| - 1
        ensures IsSpace(s[k])
      {
        assert s[k] == init[k];
      }
    }
  }

  /** `strip()` cuts whitespace only, and all of it, from both ends: what it
      keeps is a substring that neither starts nor ends with whitespace, and
      everything before and after that substring is whitespace. */
  lemma StripSpec(s: string)
    ensures Tight(Strip(s))
    ensures exists i, j ::
              && 0 <= i <= j <= |s| && Strip(s) == s[i..j]
              && (forall k :: 0 <= k < i ==> IsSpace(s[k]))
              && (forall k :: j <= k < |s| ==> IsSpace(s[k]))
  {
    var lead := LeadCount(s);
    var l := s[lead..];
    var trail := TrailCount(l);
    LeadCountSpec(s);
    TrailCountSpec(l);
    assert Strip(s) == s[lead..|s| - trail];
    if Strip(s) != [] {
      assert Strip(s)[0] == l[0];
      assert Strip(s)[|Strip(s)| - 1] == l[|l| - 1 - trail];
    }
    forall k | |s| - trail <= k < |s|
      ensures IsSpace(s[k])
    {
      assert s[k] == l[k - lead];
    }
  }

  /** `strip()` leaves a tight string unchanged. */
  lemma TightStripFixed(s: string)
    requires Tight(s)
    ensures Strip(s) == s
  {
    assert LeadCount(s) == 0;
    assert LStrip(s) == s;
    assert TrailCount(s) == 0;
  }

  // ---------------------------------------------------------------------
  // The whitespace step of fix_xml_encoding: ''.join(i.strip() for i in
  // xml.split('\n')).

  /** The pieces one after the other: `''.join` of strings, and
      `chain.from_iterable` of lists. */
  function Concat<T>(pieces: seq<seq<T>>): seq<T> {
    if pieces == [] then [] else pieces[0] + Concat(pieces[1..])
  }

  function StripAll(lines: seq<string>): (r: seq<string>)
    ensures |r| == |lines|
    ensures forall i :: 0 <= i < |r| ==> r[i] == Strip(lines[i])
  {
    if lines == [] then [] else [Strip(lines[0])] + StripAll(lines[1..])
  }

  /** The whitespace step: it leaves no newline, and the text it leaves
      neither starts nor ends with whitespace. */
  function StripLines(xml: string): (r: string)
    ensures '\n' !in r && Tight(r)
  {
    StrippedLinesClean(SplitLines(xml));
    Concat(StripAll(SplitLines(xml)))
  }

  lemma {:induction false} ConcatNoChar(pieces: seq<string>, c: char)
    requires forall i :: 0 <= i < |pieces| ==> c !in pieces[i]
    ensures c !in Concat(pieces)
  {
    if pieces != [] {
      ConcatNoChar(pieces[1..], c);
    }
  }

  lemma {:induction false} ConcatTight(pieces: seq<string>)
    requires forall i :: 0 <= i < |pieces| ==> Tight(pieces[i])
    ensures Tight(Concat(pieces))
  {
    if pieces != [] {
      ConcatTight(pieces[1..]);
      var rest := Concat(pieces[1..]);
      var all := pieces[0] + rest;
      assert Concat(pieces) == all;
      if pieces[0] != [] && rest != [] {
        assert all[0] == pieces[0][0];
        assert all[|all| - 1] == rest[|rest| - 1];
      }
    }
  }

  /** Lines without newlines, stripped and joined, give one line that
      neither starts nor ends with whitespace. */
  lemma StrippedLinesClean(lines: seq<string>)
    requires forall i :: 0 <= i < |lines| ==> '\n' !in lines[i]
    ensures '\n' !in Concat(StripAll(lines))
    ensures Tight(Concat(StripAll(lines)))
  {
    var stripped := StripAll(lines);
    forall i | 0 <= i < |stripped|
      ensures '\n' !in stripped[i] && Tight(stripped[i])
    {
      StripLine(lines[i]);
    }
    ConcatNoChar(stripped, '\n');
    ConcatTight(stripped);
  }

  lemma StripLine(line: string)
    requires '\n' !in line
    ensures '\n' !in Strip(line) && Tight(Strip(line))
  {
    StripSpec(line);
    var a, b :| 0 <= a <= b <= |line| && Strip(line) == line[a..b];
    forall k | 0 <= k < b - a
      ensures line[a..b][k] != '\n'
    {
      assert line[a..b][k] == line[a + k];
    }
  }

  /** Applying the whitespace step twice is the same as applying it once. */
  lemma StripLinesIdempotent(xml: string)
    ensures StripLines(StripLines(xml)) == StripLines(xml)
  {
    var once := StripLines(xml);
    SplitLinesNoNewline(once);
    assert StripAll([once]) == [Strip(once)];
    assert Concat([Strip(once)]) == Strip(once) + Concat([]);
  }

  /** Text that is already one tight line passes through unchanged. */
  lemma StripLinesFixesTightLine(s: string)
    requires '\n' !in s && Tight(s)
    ensures StripLines(s) == s
  {
    SplitLinesNoNewline(s);
    assert StripAll([s]) == [Strip(s)];
    assert Concat([Strip(s)]) == Strip(s) + Concat([]);
  }

  // ---------------------------------------------------------------------
  // str(n) and '%d' % n for integers, and int(s) for strings.

  predicate IsDigit(c: char) {
    '0' <= c <= '9'
  }

  function DigitChar(d: nat): (c: char)
    requires d < 10
    ensures IsDigit(c)
    ensures c == '0' <==> d == 0
  {
    ['0', '1', '2', '3', '4', '5', '6', '7', '8', '9'][d]
  }

  function DigitValue(c: char): (d: nat)
    requires IsDigit(c)
    ensures d < 10
  {
    (c as int) - ('0' as int)
  }

  /** Canonical decimal: digits only, and a leading zero only in "0". */
  function NatToString(n: nat): (r: string)
    ensures |r| >= 1
    ensures forall i :: 0 <= i < |r| ==> IsDigit(r[i])
    ensures r[0] == '0' <==> n == 0
    ensures n == 0 ==> r == "0"
  {
    if n < 10 then [DigitChar(n)] else NatToString(n / 10) + [DigitChar(n % 10)]
  }

  /** Python's decimal rendering of an integer: a minus sign for negative
      numbers, then the digits with no leading zero. */
  function IntToString(i: int): string {
    if i < 0 then "-" + NatToString(-i) else NatToString(i)
  }

  predicate AllDigits(s: string) {
    forall i :: 0 <= i < |s| ==> IsDigit(s[i])
  }

  function DigitsValue(s: string): nat
    requires AllDigits(s)
  {
    if s == [] then 0 else DigitsValue(s[..|s| - 1]) * 10 + DigitValue(s[|s| - 1])
  }

  /** Python's `int(s)` on a byte string: surrounding whitespace is ignored,
      then an optional sign and at least one decimal digit; anything else
      raises ValueError, here `None`. */
  function ParseInt(s: string): (r: Option<int>)
    ensures r.Some? ==> var t := Strip(s);
      && t != []
      && (IsDigit(t[0]) || t[0] == '-' || t[0] == '+')
      && (forall k :: 1 <= k < |t| ==> IsDigit(t[k]))
      && (r.value < 0 ==> t[0] == '-')
  {
    var t := Strip(s);
    if t == [] then None
    else if t[0] == '-' || t[0] == '+' then
      if |t| > 1 && AllDigits(t[1..]) then
        var magnitude: int := DigitsValue(t[1..]);
        Some(if t[0] == '-' then -magnitude else magnitude)
      else None
    else if AllDigits(t) then Some(DigitsValue(t))
    else None
  }

  lemma {:induction false} NatToStringValue(n: nat)
    ensures DigitsValue(NatToString(n)) == n
  {
    if n >= 10 {
      NatToStringValue(n / 10);
      var s := NatToString(n / 10) + [DigitChar(n % 10)];
      assert s[..|s| - 1] == NatToString(n / 10);
      assert DigitValue(DigitChar(n % 10)) == n % 10;
    } else {
      assert DigitValue(DigitChar(n)) == n;
    }
  }

  lemma ParseDigits(digits: string)
    requires |digits| >= 1 && AllDigits(digits)
    ensures ParseInt(digits) == Some(DigitsValue(digits))
  {
    assert !IsSpace(digits[0]) && !IsSpace(digits[|digits| - 1]);
    TightStripFixed(digits);
  }

  lemma ParseNegativeDigits(digits: string)
    requires |digits| >= 1 && AllDigits(digits)
    ensures ParseInt("-" + digits) == Some(-(DigitsValue(digits) as int))
  {
    StripNegative(digits);
    ParseSigned(digits);
  }

  lemma StripNegative(digits: string)
    requires |digits| >= 1 && AllDigits(digits)
    ensures Strip("-" + digits) == "-" + digits
  {
    var s := "-" + digits;
    assert s[0] == '-' && s[|s| - 1] == digits[|digits| - 1];
    TightStripFixed(s);
  }

  /** A minus sign and digits, with no whitespace around, parse to the
      negated value of the digits. */
  lemma ParseSigned(digits: string)
    requires |digits| >= 1 && AllDigits(digits)
    requires Strip("-" + digits) == "-" + digits
    ensures ParseInt("-" + digits) == Some(-(DigitsValue(digits) as int))
  {
    assert ("-" + digits)[1..] == digits;
  }

  /** `int(str(i)) == i`: the decimal rendering parses back to the integer. */
  lemma IntRoundTrip(i: int)
    ensures ParseInt(IntToString(i)) == Some(i)
  {
    var digits := NatToString(if i < 0 then -i else i);
    var value := DigitsValue(digits);
    NatToStringValue(if i < 0 then -i else i);
    if i < 0 {
      assert IntToString(i) == "-" + digits;
      ParseNegativeDigits(digits);
      assert ParseInt("-" + digits) == Some(-(value as int));
    } else {
      assert IntToString(i) == digits;
      ParseDigits(digits);
      assert ParseInt(digits) == Some(value);
    }
  }
}
