/**
 Percent-encoding as encodeURIComponent, decodeURIComponent and URLSearchParams do it. Texts are
 sequences of UTF-8 code units: a character below 256 stands for one byte.
 */
module Percent {
  import opened Values

  predicate Byte(c: char) {
    c < '\U{0100}'
  }

  predicate Bytes(s: string) {
    forall i :: 0 <= i < |s| ==> Byte(s[i])
  }

  function HexDigit(n: int): char
    requires 0 <= n < 16
  {
    if n < 10 then '0' + n as char else 'A' + (n - 10) as char
  }

  function HexValue(c: char): (v: Option<int>)
    ensures v.Some? ==> 0 <= v.value < 16
  {
    if '0' <= c <= '9' then Some(c as int - '0' as int)
    else if 'A' <= c <= 'F' then Some(c as int - 'A' as int + 10)
    else if 'a' <= c <= 'f' then Some(c as int - 'a' as int + 10)
    else None
  }

  predicate Alphanumeric(c: char) {
    'A' <= c <= 'Z' || 'a' <= c <= 'z' || '0' <= c <= '9'
  }

  predicate SafeInPath(c: char) {
    Alphanumeric(c) || c in "-_.!~*'()"
  }

  predicate SafeInQuery(c: char) {
    Alphanumeric(c) || c in "*-._"
  }

  function Escape(c: char): string
    requires Byte(c)
  {
    ['%', HexDigit(c as int / 16), HexDigit(c as int % 16)]
  }

  /** `s` begins with a whole escape. */
  predicate Escaped(s: string) {
    |s| >= 3 && s[0] == '%' && HexValue(s[1]).Some? && HexValue(s[2]).Some?
  }

  function Unescape(s: string): (c: char)
    requires Escaped(s)
    ensures Byte(c)
  {
    (HexValue(s[1]).value * 16 + HexValue(s[2]).value) as char
  }

  lemma EscapeInverts(c: char, rest: string)
    requires Byte(c)
    ensures Escaped(Escape(c) + rest) && Unescape(Escape(c) + rest) == c && (Escape(c) + rest)[3..] == rest
  {
  }

  // ---- paths ---------------------------------------------------------------

  function EncodePath(s: string): string
    requires Bytes(s)
  {
    if s == "" then "" else (if SafeInPath(s[0]) then [s[0]] else Escape(s[0])) + EncodePath(s[1..])
  }

  function Prepend(c: char, rest: Option<string>): Option<string> {
    if rest.Some? then Some([c] + rest.value) else None
  }

  /** None is the error for a malformed escape. */
  function DecodePath(s: string): Option<string> {
    if s == "" then Some("")
    else if s[0] != '%' then Prepend(s[0], DecodePath(s[1..]))
    else if Escaped(s) then Prepend(Unescape(s), DecodePath(s[3..]))
    else None
  }

  lemma {:induction false} DecodeEncodePath(s: string)
    requires Bytes(s)
    ensures DecodePath(EncodePath(s)) == Some(s)
    ensures forall i :: 0 <= i < |EncodePath(s)| ==> SafeInPath(EncodePath(s)[i]) || EncodePath(s)[i] == '%'
    ensures s != "" ==> EncodePath(s) != ""
  {
    if s != "" {
      var rest := EncodePath(s[1..]);
      DecodeEncodePath(s[1..]);
      assert s == [s[0]] + s[1..];
      if SafeInPath(s[0]) {
        assert ([s[0]] + rest)[1..] == rest;
      } else {
        EscapeInverts(s[0], rest);
      }
    }
  }

  lemma {:induction false} DecodePathBytes(s: string)
    requires Bytes(s) && DecodePath(s).Some?
    ensures Bytes(DecodePath(s).value)
  {
    if s != "" {
      DecodePathBytes(if s[0] != '%' then s[1..] else s[3..]);
    }
  }

  // ---- queries -------------------------------------------------------------

  function EncodeQuery(s: string): string
    requires Bytes(s)
  {
    if s == "" then ""
    else (if s[0] == ' ' then "+" else if SafeInQuery(s[0]) then [s[0]] else Escape(s[0])) + EncodeQuery(s[1..])
  }

  /** A malformed escape stands for itself. */
  function DecodeQuery(s: string): string {
    if s == "" then ""
    else if Escaped(s) then [Unescape(s)] + DecodeQuery(s[3..])
    else [if s[0] == '+' then ' ' else s[0]] + DecodeQuery(s[1..])
  }

  lemma {:induction false} DecodeEncodeQuery(s: string)
    requires Bytes(s)
    ensures DecodeQuery(EncodeQuery(s)) == s
    ensures forall i :: 0 <= i < |EncodeQuery(s)| ==> SafeInQuery(EncodeQuery(s)[i]) || EncodeQuery(s)[i] in "%+"
  {
    if s != "" {
      var rest := EncodeQuery(s[1..]);
      DecodeEncodeQuery(s[1..]);
      assert s == [s[0]] + s[1..];
      if s[0] == ' ' {
        assert ("+" + rest)[1..] == rest;
      } else if SafeInQuery(s[0]) {
        assert ([s[0]] + rest)[1..] == rest;
      } else {
        EscapeInverts(s[0], rest);
      }
    }
  }

  lemma {:induction false} DecodeQueryBytes(s: string)
    requires Bytes(s)
    ensures Bytes(DecodeQuery(s))
  {
    if s != "" {
      DecodeQueryBytes(if Escaped(s) then s[3..] else s[1..]);
    }
  }

  // ---- character by character -------------------------------------------------

  /** What stands for itself in a path, in a query, and how a byte is escaped. */
  lemma EncodedByOne(c: char)
    requires Byte(c)
    ensures EncodePath([c]) == if 'A' <= c <= 'Z' || 'a' <= c <= 'z' || '0' <= c <= '9' || c in "-_.!~*'()" then [c] else Escape(c)
    ensures EncodeQuery([c]) == if c == ' ' then "+"
                                else if 'A' <= c <= 'Z' || 'a' <= c <= 'z' || '0' <= c <= '9' || c in "*-._" then [c]
                                else Escape(c)
    ensures Escape(c)[0] == '%'
    ensures c as int == 16 * (if Escape(c)[1] <= '9' then Escape(c)[1] as int - '0' as int else Escape(c)[1] as int - 'A' as int + 10) +
                        (if Escape(c)[2] <= '9' then Escape(c)[2] as int - '0' as int else Escape(c)[2] as int - 'A' as int + 10)
  {
    assert EncodePath([c][1..]) == "" && EncodeQuery([c][1..]) == "";
  }

  /** A character that starts no escape; a plus is a blank in a query only. */
  lemma DecodedByOne(c: char, rest: string)
    requires c != '%'
    ensures DecodePath([c] + rest) == if DecodePath(rest).Some? then Some([c] + DecodePath(rest).value) else None
    ensures DecodeQuery([c] + rest) == [if c == '+' then ' ' else c] + DecodeQuery(rest)
  {
    assert ([c] + rest)[1..] == rest;
  }

  /** Escapes may be written in either letter case. */
  lemma HexEitherCase(n: int)
    requires 10 <= n < 16
    ensures HexValue('a' + (n - 10) as char) == Some(n) && HexValue('A' + (n - 10) as char) == Some(n)
    ensures HexValue('g') == None && HexValue('G') == None && HexValue(':') == None
  {
  }

  /** A percent sign without two digits after it fails in a path, and stands for itself in a query. */
  lemma MalformedEscape(rest: string)
    requires |rest| < 2 || HexValue(rest[0]).None? || HexValue(rest[1]).None?
    ensures DecodePath("%" + rest) == None
    ensures DecodeQuery("%" + rest) == "%" + DecodeQuery(rest)
  {
    assert ("%" + rest)[1..] == rest;
    assert |rest| >= 2 ==> ("%" + rest)[1] == rest[0] && ("%" + rest)[2] == rest[1];
  }
}
