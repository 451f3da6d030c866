/** Percent-decoding of a query component, the way Go's `url.QueryUnescape`
    treats the `route` value (percent-encoding per section 2.1 of RFC 3986,
    plus the form-encoding rule that `+` stands for a space).

    Go strings are byte strings; here a `Byte` is a character below 256, so a
    decoded `%XX` is the character whose code is the byte XX. */
module Escaping {
  import opened Wrappers

  type Byte = c: char | c as int < 0x100 witness '\0'

  predicate IsHex(c: char) {
    ('0' <= c <= '9') || ('a' <= c <= 'f') || ('A' <= c <= 'F')
  }

  function HexValue(c: char): (v: nat)
    requires IsHex(c)
    ensures v < 16
  {
    if '0' <= c <= '9' then c as int - '0' as int
    else if 'a' <= c <= 'f' then c as int - 'a' as int + 10
    else c as int - 'A' as int + 10
  }

  /** Upper-case hex digit of a value below 16, as Go's escaper writes it. */
  function HexDigit(v: nat): (c: char)
    requires v < 16
    ensures IsHex(c) && HexValue(c) == v
  {
    "0123456789ABCDEF"[v]
  }

  /** A `%` at position i that is not followed by two hex digits. */
  ghost predicate BadEscapeAt(s: string, i: int)
    requires 0 <= i < |s|
  {
    s[i] == '%' && !(i + 2 < |s| && IsHex(s[i + 1]) && IsHex(s[i + 2]))
  }

  /** The input a decoding step consumes: three characters for `%XX`, one
      otherwise. */
  function Width(s: string): (w: nat)
    requires s != []
    ensures 1 <= w <= 3
  {
    if s[0] == '%' then 3 else 1
  }

  /** Whether the first step may proceed: no `%` without two hex digits. */
  predicate HeadOk(s: string)
    requires s != []
    ensures HeadOk(s) ==> Width(s) <= |s|
  {
    s[0] != '%' || (|s| >= 3 && IsHex(s[1]) && IsHex(s[2]))
  }

  /** The character the first step produces: the byte `%XX` names, a space
      for `+`, or the character itself. */
  function Decoded(s: string): char
    requires s != [] && HeadOk(s)
  {
    if s[0] == '%' then (HexValue(s[1]) * 16 + HexValue(s[2])) as char
    else if s[0] == '+' then ' '
    else s[0]
  }

  /** `url.QueryUnescape`: None is Go's `EscapeError`. */
  function Unescape(s: string): (r: Option<string>)
    ensures r.Some? ==> |r.value| <= |s|
    decreases |s|
  {
    if s == [] then Some([])
    else if !HeadOk(s) then None
    else
      match Unescape(s[Width(s)..])
      case None => None
      case Some(t) => Some([Decoded(s)] + t)
  }

  /** Decoding fails exactly when some `%` lacks its two hex digits (both
      directions): a well-formed escape never hides a `%` in its digits, so
      every `%` of the input is examined. */
  lemma {:induction false} UnescapeFailsIff(s: string)
    ensures Unescape(s).None? <==> exists i :: 0 <= i < |s| && BadEscapeAt(s, i)
    decreases |s|
  {
    if s == [] {
    } else if !HeadOk(s) {
      assert BadEscapeAt(s, 0);
    } else {
      var k := Width(s);
      var t := s[k..];
      UnescapeFailsIff(t);
      assert Unescape(s).None? <==> Unescape(t).None?;
      if exists j :: 0 <= j < |t| && BadEscapeAt(t, j) {
        var j :| 0 <= j < |t| && BadEscapeAt(t, j);
        assert BadEscapeAt(s, j + k);
      }
      if exists i :: 0 <= i < |s| && BadEscapeAt(s, i) {
        var i :| 0 <= i < |s| && BadEscapeAt(s, i);
        assert i >= k;
        assert BadEscapeAt(t, i - k);
      }
    }
  }

  /** Text without `%` and `+` decodes to itself. */
  lemma {:induction false} UnescapePlain(s: string)
    requires forall i | 0 <= i < |s| :: s[i] != '%' && s[i] != '+'
    ensures Unescape(s) == Some(s)
  {
    if s != [] {
      UnescapePlain(s[1..]);
      assert s == [s[0]] + s[1..];
    }
  }

  /** Characters Go's `url.QueryEscape` leaves as they are. */
  predicate IsUnreserved(c: char) {
    ('a' <= c <= 'z') || ('A' <= c <= 'Z') || ('0' <= c <= '9') || c == '-' || c == '_' || c == '.' || c == '~'
  }

  /** `url.QueryEscape`, the encoding a caller applies to build `route`. It is
      the inverse partner of Unescape. */
  function Escape(s: seq<Byte>): (r: string)
    ensures |r| >= |s|
  {
    if s == [] then []
    else EscapeByte(s[0]) + Escape(s[1..])
  }

  function EscapeByte(c: Byte): (r: string)
    ensures |r| == 1 || |r| == 3
  {
    if c == ' ' then "+"
    else if IsUnreserved(c) then [c]
    else ['%', HexDigit(c as int / 16), HexDigit(c as int % 16)]
  }

  /** Decoding an encoded byte string gives it back. */
  lemma {:induction false} UnescapeEscape(s: seq<Byte>)
    ensures Unescape(Escape(s)) == Some(s)
  {
    if s != [] {
      UnescapeEscape(s[1..]);
      DecodeEscapedByte(s[0], Escape(s[1..]));
      assert s == [s[0]] + s[1..];
    }
  }

  /** One escaped byte in front of any text: the first decoding step
      consumes exactly its escape and yields the byte. */
  lemma DecodeEscapedByte(c: Byte, rest: string)
    ensures var w := EscapeByte(c) + rest;
            w != [] && HeadOk(w) && Width(w) == |EscapeByte(c)| && Decoded(w) == c &&
            w[Width(w)..] == rest
  {
    var e := EscapeByte(c);
    var w := e + rest;
    if c == ' ' || IsUnreserved(c) {
      assert w[0] == (if c == ' ' then '+' else c) && w[0] != '%';
      assert w[1..] == rest;
    } else {
      assert w[0] == '%' && w[1] == e[1] && w[2] == e[2];
      assert w[3..] == rest;
      assert HexValue(w[1]) * 16 + HexValue(w[2]) == c as int;
    }
  }
}
