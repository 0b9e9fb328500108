/** `_get_auth_string`: the credentials of section 2 of RFC 7617 (the API
    key as user-id, `x` as password, joined by a colon), base64-encoded with
    the alphabet of section 4 of RFC 4648 by Python 2's
    `base64.encodestring`, which writes the base64 of every 57-byte chunk
    on a line of its own (at most 76 characters, in the style of section
    6.8 of RFC 2045) and ends every line with a newline; `[:-1]` then drops
    the final newline only. */
module Auth {
  import opened Wrappers
  import opened Strings
  import opened Schema

  type Byte = b: int | 0 <= b < 256

  /** The base64 alphabet: the character of each 6-bit value. */
  function Sextet(n: nat): (c: char)
    requires n < 64
    ensures c != '=' && c != '\n'
  {
    if n < 26 then (('A' as int) + n) as char
    else if n < 52 then (('a' as int) + (n - 26)) as char
    else if n < 62 then (('0' as int) + (n - 52)) as char
    else if n == 62 then '+'
    else '/'
  }

  /** The value of an alphabet character; None for any other character. */
  function SextetValue(c: char): (r: Option<nat>)
    ensures r.Some? ==> r.value < 64
  {
    if 'A' <= c <= 'Z' then Some(c as int - 'A' as int)
    else if 'a' <= c <= 'z' then Some(c as int - 'a' as int + 26)
    else if '0' <= c <= '9' then Some(c as int - '0' as int + 52)
    else if c == '+' then Some(62)
    else if c == '/' then Some(63)
    else None
  }

  lemma SextetRoundTrip(n: nat)
    requires n < 64
    ensures SextetValue(Sextet(n)) == Some(n)
  {
  }

  /** The code of the pad character, one past the 6-bit values; a base64
      code is a 6-bit value or this one. */
  const PadValue: int := 64

  predicate IsCode(v: int) {
    0 <= v <= PadValue
  }

  /** The character of a code: the alphabet for 6-bit values, the pad
      character otherwise. */
  function Char(v: int): (c: char)
    ensures c != '\n'
  {
    if 0 <= v < PadValue then Sextet(v) else '='
  }

  /** The code of a character of base64 text; None for any other character. */
  function CharValue(c: char): (r: Option<int>)
    ensures r.Some? ==> IsCode(r.value)
  {
    if c == '=' then Some(PadValue)
    else match SextetValue(c)
      case None => None
      case Some(v) => Some(v)
  }

  lemma CharRoundTrip(v: int)
    requires IsCode(v)
    ensures CharValue(Char(v)) == Some(v)
  {
    if v < PadValue {
      SextetRoundTrip(v);
    }
  }

  /** `f` applied to every element, in order. */
  function Map<A, B>(f: A -> B, xs: seq<A>): (r: seq<B>)
    ensures |r| == |xs| && forall i :: 0 <= i < |xs| ==> r[i] == f(xs[i])
  {
    seq(|xs|, i requires 0 <= i < |xs| => f(xs[i]))
  }

  lemma MapAppend<A, B>(f: A -> B, a: seq<A>, b: seq<A>)
    ensures Map(f, a + b) == Map(f, a) + Map(f, b)
  {
    assert forall i :: 0 <= i < |a + b| ==> (a + b)[i] == if i < |a| then a[i] else b[i - |a|];
  }

  /** The codes of the characters of a text; None when one is not base64. */
  function Values(s: string): Option<seq<int>> {
    if s == "" then Some([])
    else match (CharValue(s[0]), Values(s[1..]))
      case (Some(v), Some(vs)) => Some([v] + vs)
      case _ => None
  }

  lemma {:induction false} CharsRoundTrip(vs: seq<int>)
    requires forall i :: 0 <= i < |vs| ==> IsCode(vs[i])
    ensures Values(Map(Char, vs)) == Some(vs)
  {
    if vs != [] {
      var s := Map(Char, vs);
      assert s[0] == Char(vs[0]);
      assert s[1..] == Map(Char, vs[1..]);
      CharRoundTrip(vs[0]);
      CharsRoundTrip(vs[1..]);
      assert [vs[0]] + vs[1..] == vs;
    }
  }

  // ---------------------------------------------------------------------
  // Base64 without line breaks

  /** The four codes of a full group of three bytes. */
  function Group(b0: Byte, b1: Byte, b2: Byte): (r: seq<int>)
    ensures |r| == 4
  {
    [b0 / 4, b0 % 4 * 16 + b1 / 16, b1 % 16 * 4 + b2 / 64, b2 % 64]
  }

  /** The codes of the base64 of a byte string, the last group padded. */
  function Sextets(bs: seq<Byte>): (r: seq<int>)
    ensures forall i :: 0 <= i < |r| ==> IsCode(r[i])
    decreases |bs|
  {
    if |bs| == 0 then []
    else if |bs| == 1 then [bs[0] / 4, bs[0] % 4 * 16, PadValue, PadValue]
    else if |bs| == 2 then [bs[0] / 4, bs[0] % 4 * 16 + bs[1] / 16, bs[1] % 16 * 4, PadValue]
    else Group(bs[0], bs[1], bs[2]) + Sextets(bs[3..])
  }

  /** Base64 of a byte string, section 4 of RFC 4648, without line breaks. */
  function Base64(bs: seq<Byte>): (s: string)
    ensures '\n' !in s
  {
    Map(Char, Sextets(bs))
  }

  /** Four characters for every started group of three bytes. */
  lemma Base64Length(bs: seq<Byte>)
    ensures |Base64(bs)| == 4 * ((|bs| + 2) / 3)
  {
    SextetsLength(bs);
  }

  lemma {:induction false} SextetsLength(bs: seq<Byte>)
    ensures |Sextets(bs)| == 4 * ((|bs| + 2) / 3)
    decreases |bs|
  {
    if |bs| >= 3 {
      SextetsLength(bs[3..]);
    }
  }

  /** The bytes of a sequence of codes, four codes to three bytes; None when
      the codes are not complete groups, padding appears before the last
      group, or the pad code stands where a byte's bits must be. */
  function Ungroup(vs: seq<int>): Option<seq<Byte>>
    decreases |vs|
  {
    if vs == [] then Some([])
    else if |vs| < 4 then None
    else
      var v0, v1, v2, v3 := vs[0], vs[1], vs[2], vs[3];
      if !(0 <= v0 < PadValue && 0 <= v1 < PadValue && IsCode(v2) && IsCode(v3)) then None
      else if v2 == PadValue then
        if v3 == PadValue && |vs| == 4 then Some([v0 * 4 + v1 / 16]) else None
      else if v3 == PadValue then
        if |vs| == 4 then Some([v0 * 4 + v1 / 16, v1 % 16 * 16 + v2 / 4]) else None
      else
        match Ungroup(vs[4..])
        case None => None
        case Some(rest) => Some([v0 * 4 + v1 / 16, v1 % 16 * 16 + v2 / 4, v2 % 4 * 64 + v3] + rest)
  }

  /** Base64 decoding of text without line breaks; None when it is not base64. */
  function Base64Decode(s: string): Option<seq<Byte>> {
    match Values(s)
    case None => None
    case Some(vs) => Ungroup(vs)
  }

  /** A value below a power of two splits uniquely into quotient and
      remainder: the facts about division by a constant the decoder uses. */
  lemma DivMod(q: nat, r: nat, d: nat)
    requires d == 4 || d == 16 || d == 64
    requires r < d
    ensures (q * d + r) / d == q && (q * d + r) % d == r
  {
  }

  /** Reassembling the bytes from the four codes of a group. */
  lemma Regroup(b0: Byte, b1: Byte, b2: Byte)
    ensures (b0 / 4) * 4 + (b0 % 4 * 16 + b1 / 16) / 16 == b0
    ensures (b0 % 4 * 16 + b1 / 16) % 16 * 16 + (b1 % 16 * 4 + b2 / 64) / 4 == b1
    ensures (b1 % 16 * 4 + b2 / 64) % 4 * 64 + b2 % 64 == b2
  {
    DivMod(b0 % 4, b1 / 16, 16);
    DivMod(b1 % 16, b2 / 64, 4);
  }

  /** One byte left over: two codes and two pads. */
  lemma UngroupOne(bs: seq<Byte>)
    requires |bs| == 1
    ensures Ungroup(Sextets(bs)) == Some(bs)
  {
    var b0 := bs[0];
    var h0, l0 := b0 / 4, b0 % 4;
    DivMod(l0, 0, 16);
    var vs := Sextets(bs);
    assert |vs| == 4 && vs[0] == h0 && vs[1] == l0 * 16 && vs[2] == PadValue && vs[3] == PadValue;
    assert vs[0] * 4 + vs[1] / 16 == b0;
    UngroupPadded2(vs, b0);
    assert bs == [b0];
  }

  /** A last group of two codes and two pads decodes to one byte. */
  lemma UngroupPadded2(vs: seq<int>, b0: Byte)
    requires |vs| == 4 && 0 <= vs[0] < 64 && 0 <= vs[1] < 64 && vs[2] == PadValue && vs[3] == PadValue
    requires b0 == vs[0] * 4 + vs[1] / 16
    ensures Ungroup(vs) == Some([b0])
  {
  }

  /** Two bytes left over: three codes and one pad. */
  lemma UngroupTwo(bs: seq<Byte>)
    requires |bs| == 2
    ensures Ungroup(Sextets(bs)) == Some(bs)
  {
    var b0, b1 := bs[0], bs[1];
    var h0, l0 := b0 / 4, b0 % 4;
    var h1, l1 := b1 / 16, b1 % 16;
    DivMod(l0, h1, 16);
    DivMod(l1, 0, 4);
    var vs := Sextets(bs);
    assert |vs| == 4 && vs[0] == h0 && vs[1] == l0 * 16 + h1 && vs[2] == l1 * 4 && vs[3] == PadValue;
    assert vs[0] * 4 + vs[1] / 16 == b0;
    assert vs[1] % 16 * 16 + vs[2] / 4 == b1;
    UngroupPadded1(vs, b0, b1);
    assert bs == [b0, b1];
  }

  /** A last group of three codes and one pad decodes to two bytes. */
  lemma UngroupPadded1(vs: seq<int>, b0: Byte, b1: Byte)
    requires |vs| == 4 && 0 <= vs[0] < 64 && 0 <= vs[1] < 64 && 0 <= vs[2] < 64 && vs[3] == PadValue
    requires b0 == vs[0] * 4 + vs[1] / 16 && b1 == vs[1] % 16 * 16 + vs[2] / 4
    ensures Ungroup(vs) == Some([b0, b1])
  {
  }

  /** A full group in front of more codes yields its three bytes in front
      of the bytes of the rest. */
  lemma UngroupStep(b0: Byte, b1: Byte, b2: Byte, rest: seq<int>)
    ensures Ungroup(Group(b0, b1, b2) + rest) ==
      match Ungroup(rest)
      case None => None
      case Some(r) => Some([b0, b1, b2] + r)
  {
    var vs := Group(b0, b1, b2) + rest;
    Regroup(b0, b1, b2);
    assert vs[..4] == Group(b0, b1, b2) && vs[4..] == rest;
  }

  /** Regrouping undoes the grouping. */
  lemma {:induction false} SextetsRoundTrip(bs: seq<Byte>)
    ensures Ungroup(Sextets(bs)) == Some(bs)
    decreases |bs|
  {
    if |bs| == 1 {
      UngroupOne(bs);
    } else if |bs| == 2 {
      UngroupTwo(bs);
    } else if |bs| >= 3 {
      SextetsRoundTrip(bs[3..]);
      UngroupStep(bs[0], bs[1], bs[2], Sextets(bs[3..]));
      assert [bs[0], bs[1], bs[2]] + bs[3..] == bs;
    }
  }

  /** Decoding undoes the encoding. */
  lemma Base64RoundTrip(bs: seq<Byte>)
    ensures Base64Decode(Base64(bs)) == Some(bs)
  {
    CharsRoundTrip(Sextets(bs));
    SextetsRoundTrip(bs);
  }

  /** Base64 is computed group by group, so text whose length is a multiple
      of three encodes independently of what follows it. */
  lemma Base64Append(a: seq<Byte>, b: seq<Byte>)
    requires |a| % 3 == 0
    ensures Base64(a + b) == Base64(a) + Base64(b)
  {
    SextetsAppend(a, b);
    MapAppend(Char, Sextets(a), Sextets(b));
  }

  lemma {:induction false} SextetsAppend(a: seq<Byte>, b: seq<Byte>)
    requires |a| % 3 == 0
    ensures Sextets(a + b) == Sextets(a) + Sextets(b)
    decreases |a|
  {
    if a == [] {
      assert a + b == b;
    } else {
      var ab := a + b;
      assert ab[0] == a[0] && ab[1] == a[1] && ab[2] == a[2] && ab[3..] == a[3..] + b;
      SextetsAppend(a[3..], b);
    }
  }

  // ---------------------------------------------------------------------
  // base64.encodestring and the auth string

  /** The bytes `encodestring` puts on one line. */
  const LineBytes: nat := 57

  /** `base64.encodestring`: the base64 of every 57-byte chunk, each followed
      by a newline; nothing at all for the empty string. */
  function EncodeString(bs: seq<Byte>): (r: string)
    decreases |bs|
    ensures r == "" <==> bs == []
    ensures bs != [] ==> r[|r| - 1] == '\n'
  {
    if |bs| == 0 then ""
    else if |bs| <= LineBytes then Base64(bs) + "\n"
    else Base64(bs[..LineBytes]) + "\n" + EncodeString(bs[LineBytes..])
  }

  /** The lines of an encoding: the base64 of each chunk, in order; more
      than one exactly when there is more than one chunk. */
  function WrappedLines(bs: seq<Byte>): (r: seq<string>)
    ensures |r| >= 1
    ensures |r| == 1 <==> |bs| <= LineBytes
    decreases |bs|
  {
    if |bs| <= LineBytes then [Base64(bs)]
    else [Base64(bs[..LineBytes])] + WrappedLines(bs[LineBytes..])
  }

  /** Python's `s[:-1]`: everything but the last character. */
  function DropLast(s: string): (r: string)
    ensures |r| == if s == "" then 0 else |s| - 1
    ensures r == s[..|r|]
  {
    if s == "" then "" else s[..|s| - 1]
  }

  /** A Python 2 byte string as its bytes; None when some character does not
      fit in a byte, where the interpreter would raise a UnicodeEncodeError. */
  function Latin(s: string): (r: Option<seq<Byte>>)
    ensures r.Some? <==> forall i :: 0 <= i < |s| ==> s[i] as int < 256
    ensures r.Some? ==> |r.value| == |s| && forall i :: 0 <= i < |s| ==> r.value[i] == s[i] as int
  {
    if forall i :: 0 <= i < |s| ==> s[i] as int < 256 then
      Some(seq(|s|, i requires 0 <= i < |s| => s[i] as int as Byte))
    else None
  }

  /** `'%s:%s' % (self.api_key, 'x')`: the user-id and password pair. */
  function Credentials(apiKey: Value): (r: string)
    ensures Frames(r, "", PyStr(apiKey), ":x")
  {
    FramesConcat("", PyStr(apiKey), ":x");
    assert "" + PyStr(apiKey) + ":x" == PyStr(apiKey) + ":x";
    PyStr(apiKey) + ":x"
  }

  /** `_get_auth_string`, as written: the credentials through `encodestring`
      with its last character cut off. */
  function AuthString(apiKey: Value): (r: Option<string>)
    ensures r.Some? <==> Latin(Credentials(apiKey)).Some?
    ensures r.Some? ==> r.value + "\n" == EncodeString(Latin(Credentials(apiKey)).value)
  {
    match Latin(Credentials(apiKey))
    case None => None
    case Some(bs) =>
      DropLastNewline(EncodeString(bs));
      Some(DropLast(EncodeString(bs)))
  }

  /** Cutting the final newline off loses only that newline. */
  lemma DropLastNewline(s: string)
    requires s != "" && s[|s| - 1] == '\n'
    ensures DropLast(s) + "\n" == s
  {
  }

  /** The text of an encoding without its final newline splits into exactly
      the wrapped lines. */
  lemma {:induction false} EncodeStringLines(bs: seq<Byte>)
    ensures SplitLines(DropLast(EncodeString(bs))) == WrappedLines(bs)
    decreases |bs|
  {
    if |bs| == 0 {
      assert EncodeString(bs) == "";
      assert bs == [];
    } else if |bs| <= LineBytes {
      var line := Base64(bs);
      assert DropLast(line + "\n") == line;
      SplitLinesNoNewline(line);
    } else {
      var line, tail := Base64(bs[..LineBytes]), EncodeString(bs[LineBytes..]);
      assert tail != "";
      var s := line + "\n" + tail;
      assert DropLast(s) == line + "\n" + DropLast(tail);
      SplitLinesAfter(line, DropLast(tail));
      EncodeStringLines(bs[LineBytes..]);
    }
  }

  /** Text without a newline, a newline and more text split into the
      first text followed by the pieces of the rest. */
  lemma {:induction false} SplitLinesAfter(a: string, rest: string)
    requires '\n' !in a
    ensures SplitLines(a + "\n" + rest) == [a] + SplitLines(rest)
    decreases |a|
  {
    var s := a + "\n" + rest;
    if a == [] {
      assert s[0] == '\n' && s[1..] == rest;
    } else {
      assert s[0] == a[0] && s[1..] == a[1..] + "\n" + rest;
      assert '\n' !in a[1..];
      SplitLinesAfter(a[1..], rest);
      assert [a[0]] + a[1..] == a;
    }
  }

  /** No line is longer than 76 characters, and every line but the last
      holds a full 57-byte chunk. */
  lemma {:induction false} WrappedLineLengths(bs: seq<Byte>)
    ensures forall i :: 0 <= i < |WrappedLines(bs)| ==> |WrappedLines(bs)[i]| <= 76
    ensures forall i :: 0 <= i < |WrappedLines(bs)| - 1 ==> |WrappedLines(bs)[i]| == 76
    decreases |bs|
  {
    if |bs| <= LineBytes {
      Base64Length(bs);
    } else {
      WrappedLineLengths(bs[LineBytes..]);
      Base64Length(bs[..LineBytes]);
    }
  }

  /** The lines together are the unwrapped base64 of all the bytes. */
  lemma {:induction false} WrappedLinesConcat(bs: seq<Byte>)
    ensures Concat(WrappedLines(bs)) == Base64(bs)
    decreases |bs|
  {
    var lines := WrappedLines(bs);
    if |bs| <= LineBytes {
      assert Concat(lines) == Base64(bs) + Concat([]);
    } else {
      var head, tail := bs[..LineBytes], bs[LineBytes..];
      WrappedLinesConcat(tail);
      Base64Append(head, tail);
      assert head + tail == bs;
      assert lines[1..] == WrappedLines(tail);
    }
  }

  /** The second of the pieces the auth string splits into exists exactly
      when the credentials are longer than one chunk. */
  lemma AuthStringBreaksLines(apiKey: Value)
    requires Latin(Credentials(apiKey)).Some?
    ensures '\n' in AuthString(apiKey).value <==> |Credentials(apiKey)| > LineBytes
  {
    var bs := Latin(Credentials(apiKey)).value;
    var text := AuthString(apiKey).value;
    EncodeStringLines(bs);
    if '\n' !in text {
      SplitLinesNoNewline(text);
    } else {
      SplitLinesJoin(text);
    }
  }

  /** Joining the lines of the auth string back together gives base64 that
      decodes to the credentials' bytes. */
  lemma AuthStringDecodes(apiKey: Value)
    requires Latin(Credentials(apiKey)).Some?
    ensures Base64Decode(Concat(SplitLines(AuthString(apiKey).value))) == Latin(Credentials(apiKey))
  {
    var bs := Latin(Credentials(apiKey)).value;
    EncodeStringLines(bs);
    WrappedLinesConcat(bs);
    Base64RoundTrip(bs);
  }

  /** An API key of 56 characters makes credentials of 58 bytes, one more
      than a line holds, so the value of the Authorization header carries a
      newline. */
  lemma LongKeyBreaksHeader()
    ensures var key := StrVal(seq(56, _ => 'a'));
      AuthString(key).Some? && '\n' in AuthString(key).value
  {
    var key := StrVal(seq(56, _ => 'a'));
    assert |Credentials(key)| == 58;
    AuthStringBreaksLines(key);
  }

  /** The token the Basic scheme expects: the credentials' base64 on a single
      line, without line breaks. */
  function AuthToken(apiKey: Value): (r: Option<string>)
    ensures r.Some? <==> Latin(Credentials(apiKey)).Some?
    ensures r.Some? ==> '\n' !in r.value && Base64Decode(r.value) == Latin(Credentials(apiKey))
  {
    match Latin(Credentials(apiKey))
    case None => None
    case Some(bs) => Base64RoundTrip(bs); Some(Base64(bs))
  }

  /** For credentials that fit on one line the token is exactly the auth
      string, so the two differ only for long API keys. */
  lemma AuthTokenAgreesOnShortKeys(apiKey: Value)
    requires Latin(Credentials(apiKey)).Some? && |Credentials(apiKey)| <= LineBytes
    ensures AuthToken(apiKey) == AuthString(apiKey)
  {
    var bs := Latin(Credentials(apiKey)).value;
    EncodeStringLines(bs);
    var text := AuthString(apiKey).value;
    AuthStringBreaksLines(apiKey);
    SplitLinesNoNewline(text);
  }
}
