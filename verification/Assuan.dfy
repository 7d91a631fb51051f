/** Percent escaping of Assuan data lines (libassuan manual, section "Server responses"). */
module Assuan {
  import opened Basics

  predicate Special(c: char) {
    c == '%' || c == '\n' || c == '\r'
  }

  /** The two upper-case hexadecimal digits of a special character. */
  function Code(c: char): string
    requires Special(c)
  {
    if c == '%' then "25" else if c == '\n' then "0A" else "0D"
  }

  // ----- Decoding -----

  function HexValue(c: char): Option<int> {
    if '0' <= c <= '9' then Some(c as int - '0' as int)
    else if 'a' <= c <= 'f' then Some(c as int - 'a' as int + 10)
    else if 'A' <= c <= 'F' then Some(c as int - 'A' as int + 10)
    else None
  }

  predicate IsSpace(c: char) {
    c == ' ' || 9 <= c as int <= 13
  }

  /** What QString::toInt makes of two characters in base 16: white space around a digit and a sign
      before it are accepted. */
  function Parsed(a: char, b: char): Option<int> {
    var high, low := HexValue(a), HexValue(b);
    if high.Some? && low.Some? then Some(16 * high.value + low.value)
    else if high.Some? && IsSpace(b) then high
    else if low.Some? && (IsSpace(a) || a == '+') then low
    else if low.Some? && a == '-' then Some(-low.value)
    else None
  }

  /** A 16-bit character of this code. */
  function CharOf(code: int): char
    requires -16 < code < 256
  {
    (if code < 0 then 0x1_0000 + code else code) as char
  }

  lemma ParsedIsSmall(a: char, b: char)
    ensures Parsed(a, b).Some? ==> -16 < Parsed(a, b).value < 256
  {
  }

  /** An escape that can be read at the head of `s`. */
  function Escape(s: string): Option<char> {
    if |s| > 2 && s[0] == '%' && Parsed(s[1], s[2]).Some? then
      ParsedIsSmall(s[1], s[2]);
      Some(CharOf(Parsed(s[1], s[2]).value))
    else None
  }

  function Decoded(s: string): string {
    if s == [] then []
    else if Escape(s).Some? then [Escape(s).value] + Decoded(s[3..])
    else [s[0]] + Decoded(s[1..])
  }

  lemma DecodeStep(input: string, i: nat)
    requires i < |input|
    ensures var escape := Escape(input[i..]);
            Decoded(input[i..]) ==
            if escape.Some? then [escape.value] + Decoded(input[i + 3..]) else [input[i]] + Decoded(input[i + 1..])
  {
    assert input[i..][1..] == input[i + 1..];
    assert |input[i..]| > 2 ==> input[i..][3..] == input[i + 3..];
  }

  method AssuanDecode(input: string) returns (result: string)
    ensures result == Decoded(input)
  {
    hide Decoded, Parsed;
    result := [];
    var i := 0;
    assert input[0..] == input;
    while i < |input|
      invariant 0 <= i <= |input|
      invariant result + Decoded(input[i..]) == Decoded(input)
    {
      DecodeStep(input, i);
      if input[i] == '%' && i + 2 < |input| {
        var code := Parsed(input[i + 1], input[i + 2]);
        if code.Some? {
          ParsedIsSmall(input[i + 1], input[i + 2]);
          result := result + [CharOf(code.value)];
          i := i + 3;
          continue;
        }
      }
      result := result + [input[i]];
      i := i + 1;
    }
    DecodedNothing(input[i..]);
  }

  lemma DecodedNothing(s: string)
    ensures s == [] ==> Decoded(s) == []
  {
  }

  // ----- Encoding -----

  /** How one special character is written: the program writes "%%XX", the protocol asks for "%XX". */
  datatype Style = AsWritten | AsSpecified

  function Mark(style: Style): string {
    if style.AsWritten? then "%%" else "%"
  }

  function Written(c: char, style: Style): string {
    if Special(c) then Mark(style) + Code(c) else [c]
  }

  function Encoded(s: string, style: Style): string {
    if s == [] then []
    else
      var n := |s| - 1;
      Encoded(s[..n], style) + Written(s[n], style)
  }

  method AssuanEncode(input: string) returns (result: string)
    ensures result == Encoded(input, AsWritten)
  {
    result := [];
    for i := 0 to |input|
      invariant result == Encoded(input[..i], AsWritten)
    {
      assert input[..i + 1][..i] == input[..i];
      var c := input[i];
      if c == '%' || c == '\n' || c == '\r' {
        result := result + ("%%" + Code(c));
      } else {
        result := result + [c];
      }
    }
    assert input[..|input|] == input;
  }

  lemma {:induction false} EncodedHead(s: string, style: Style)
    requires s != []
    ensures Encoded(s, style) == Written(s[0], style) + Encoded(s[1..], style)
  {
    hide Written;
    var n := |s| - 1;
    EncodedTail(s, style);
    if n == 0 {
      assert s[..0] == [] && s[1..] == [];
    } else {
      EncodedHead(s[..n], style);
      EncodedTail(s[1..], style);
      assert s[..n][1..] == s[1..][..n - 1];
    }
  }

  lemma EncodedTail(s: string, style: Style)
    requires s != []
    ensures Encoded(s, style) == Encoded(s[..|s| - 1], style) + Written(s[|s| - 1], style)
  {
  }

  lemma WrittenIsOneLine(c: char, style: Style)
    ensures '\n' !in Written(c, style) && '\r' !in Written(c, style)
  {
  }

  /** An encoded text stays on one line. */
  lemma {:induction false} EncodedIsOneLine(s: string, style: Style)
    ensures '\n' !in Encoded(s, style) && '\r' !in Encoded(s, style)
  {
    hide Written;
    if s != [] {
      var n := |s| - 1;
      EncodedIsOneLine(s[..n], style);
      WrittenIsOneLine(s[n], style);
    }
  }

  const UPPER := "0123456789ABCDEF"
  const LOWER := "0123456789abcdef"

  /** Every escape of two hexadecimal digits, in either case, is read as the character of that code. */
  lemma HexIsRead(high: nat, low: nat, a: char, b: char, rest: string)
    requires high < 16 && low < 16 && a in {UPPER[high], LOWER[high]} && b in {UPPER[low], LOWER[low]}
    ensures Decoded(['%', a, b] + rest) == [(16 * high + low) as char] + Decoded(rest)
  {
    DigitIsRead(high, a);
    DigitIsRead(low, b);
    var s := ['%', a, b] + rest;
    assert s[3..] == rest;
  }

  lemma DigitIsRead(value: nat, c: char)
    requires value < 16 && c in {UPPER[value], LOWER[value]}
    ensures HexValue(c) == Some(value)
  {
  }

  /** What holds no '%' is read as it is. */
  lemma {:induction false} PlainIsRead(s: string)
    requires '%' !in s
    ensures Decoded(s) == s
  {
    if s != [] {
      assert s[0] in s;
      assert forall c :: c in s[1..] ==> c in s;
      PlainIsRead(s[1..]);
      assert s == [s[0]] + s[1..];
    }
  }

  /** Reading one escape off the front. */
  lemma DecodedEscape(c: char, rest: string)
    requires Special(c)
    ensures Decoded("%" + Code(c) + rest) == [c] + Decoded(rest)
  {
    var s := "%" + Code(c) + rest;
    assert s[3..] == rest;
    assert s[1] == Code(c)[0] && s[2] == Code(c)[1];
  }

  /** Specified style: decoding undoes encoding, for every text. */
  lemma {:induction false} SpecifiedRoundTrip(s: string)
    ensures Decoded(Encoded(s, AsSpecified)) == s
  {
    if s != [] {
      EncodedHead(s, AsSpecified);
      var rest := Encoded(s[1..], AsSpecified);
      SpecifiedRoundTrip(s[1..]);
      if Special(s[0]) {
        DecodedEscape(s[0], rest);
        assert Mark(AsSpecified) + Code(s[0]) + rest == "%" + Code(s[0]) + rest;
      } else {
        PlainHead(s[0], rest);
      }
    }
  }

  /** The text with one more '%' before each special character. */
  function Widened(s: string): string {
    if s == [] then []
    else (if Special(s[0]) then ['%', s[0]] else [s[0]]) + Widened(s[1..])
  }

  /** Style of the program: the round trip leaves one more '%' before each special character. */
  lemma {:induction false} WrittenRoundTrip(s: string)
    ensures Decoded(Encoded(s, AsWritten)) == Widened(s)
  {
    if s != [] {
      EncodedHead(s, AsWritten);
      var rest := Encoded(s[1..], AsWritten);
      WrittenRoundTrip(s[1..]);
      if Special(s[0]) {
        DoubledEscape(s[0], rest);
      } else {
        PlainHead(s[0], rest);
      }
    }
  }

  lemma PlainHead(c: char, rest: string)
    requires !Special(c)
    ensures Decoded([c] + rest) == [c] + Decoded(rest)
  {
    assert ([c] + rest)[1..] == rest;
  }

  /** The first '%' of a doubled escape is read as itself, the second starts the escape. */
  lemma DoubledEscape(c: char, rest: string)
    requires Special(c)
    ensures Decoded(Mark(AsWritten) + Code(c) + rest) == ['%', c] + Decoded(rest)
  {
    var escape := "%" + Code(c) + rest;
    DecodedEscape(c, rest);
    assert Mark(AsWritten) + Code(c) + rest == ['%'] + escape;
    assert Escape(['%'] + escape) == None;
    assert (['%'] + escape)[1..] == escape;
  }

  lemma {:induction false} WidenedLength(s: string)
    ensures |Widened(s)| >= |s|
    ensures |Widened(s)| == |s| <==> forall k :: 0 <= k < |s| ==> !Special(s[k])
    ensures (forall k :: 0 <= k < |s| ==> !Special(s[k])) ==> Widened(s) == s
  {
    if s != [] {
      WidenedLength(s[1..]);
      assert forall k :: 0 <= k < |s| - 1 ==> s[1..][k] == s[k + 1];
      if forall k :: 0 <= k < |s| - 1 ==> !Special(s[1..][k]) {
        assert forall k :: 1 <= k < |s| ==> s[k] == s[1..][k - 1];
      }
    }
  }

  /** The program's round trip gives the text back exactly when nothing in it is special. */
  lemma WrittenRoundTripExact(s: string)
    ensures Decoded(Encoded(s, AsWritten)) == s <==> forall k :: 0 <= k < |s| ==> !Special(s[k])
  {
    WrittenRoundTrip(s);
    WidenedLength(s);
  }

  /** A lone '%' comes back doubled. */
  lemma PercentComesBackDoubled()
    ensures Decoded(Encoded("%", AsWritten)) == "%%"
  {
    WrittenRoundTrip("%");
    assert Widened("%") == "%%" + Widened("%"[1..]);
  }

  lemma {:induction false} WidenedIsInjective(a: string, b: string)
    requires Widened(a) == Widened(b)
    ensures a == b
  {
    WidenedLength(a);
    WidenedLength(b);
    if a != [] && b != [] {
      var x, y := Widened(a), Widened(b);
      assert Special(a[0]) <==> x[0] == '%';
      assert Special(b[0]) <==> y[0] == '%';
      if Special(a[0]) {
        assert x[1] == a[0] && y[1] == b[0];
        assert x[2..] == Widened(a[1..]) && y[2..] == Widened(b[1..]);
      } else {
        assert x[1..] == Widened(a[1..]) && y[1..] == Widened(b[1..]);
      }
      WidenedIsInjective(a[1..], b[1..]);
      assert a == [a[0]] + a[1..] && b == [b[0]] + b[1..];
    }
  }

  /** Either style writes different texts differently. */
  lemma EncodedIsInjective(a: string, b: string, style: Style)
    requires Encoded(a, style) == Encoded(b, style)
    ensures a == b
  {
    if style.AsSpecified? {
      SpecifiedRoundTrip(a);
      SpecifiedRoundTrip(b);
    } else {
      WrittenRoundTrip(a);
      WrittenRoundTrip(b);
      WidenedIsInjective(a, b);
    }
  }
}
