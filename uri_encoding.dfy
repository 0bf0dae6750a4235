/**
 * `encodeURIComponent`: every character outside the unreserved set becomes the
 * percent-escapes of its UTF-8 bytes, with upper-case hexadecimal digits, as section 2.1 of
 * RFC 3986 describes. Strings here are sequences of Unicode scalar values, so the lone
 * surrogates on which JavaScript throws cannot occur.
 */
module UriEncoding {
  import opened Text

  /** The characters `encodeURIComponent` leaves as they are. */
  predicate Unreserved(c: char) {
    IsLower(c) || IsUpper(c) || IsDigit(c)
    || c == '-' || c == '_' || c == '.' || c == '!' || c == '~' || c == '*' || c == '\'' || c == '(' || c == ')'
  }

  /** An upper-case hexadecimal digit. */
  predicate IsHexDigit(c: char) {
    IsDigit(c) || ('A' <= c <= 'F')
  }

  /** The upper-case hexadecimal digit for `n`. */
  function HexDigit(n: nat): (c: char)
    requires n < 16
    ensures IsHexDigit(c)
  {
    if n < 10 then DigitChar(n) else ('A' as int + n - 10) as char
  }

  /** A byte value. */
  predicate IsByte(b: int) {
    0 <= b < 256
  }

  /** The UTF-8 encoding of one scalar value. */
  function Utf8(c: char): (bytes: seq<int>)
    ensures 1 <= |bytes| <= 4
    ensures forall i | 0 <= i < |bytes| :: IsByte(bytes[i])
    ensures |bytes| == 1 <==> c as int < 0x80
    ensures |bytes| == 1 ==> bytes[0] == c as int
  {
    var cp := c as int;
    if cp < 0x80 then [cp]
    else if cp < 0x800 then [0xC0 + cp / 64, 0x80 + cp % 64]
    else if cp < 0x10000 then [0xE0 + cp / 4096, 0x80 + cp / 64 % 64, 0x80 + cp % 64]
    else [0xF0 + cp / 262144, 0x80 + cp / 4096 % 64, 0x80 + cp / 64 % 64, 0x80 + cp % 64]
  }

  /** `%XX` for each byte. */
  function Escape(bytes: seq<int>): (r: string)
    requires forall i | 0 <= i < |bytes| :: IsByte(bytes[i])
    ensures |r| == 3 * |bytes|
    ensures forall i | 0 <= i < |r| :: (i % 3 == 0 <==> r[i] == '%')
    ensures forall i | 0 <= i < |r| :: r[i] == '%' || IsHexDigit(r[i])
  {
    if |bytes| == 0 then ""
    else
      assert IsByte(bytes[0]);
      var rest := Escape(bytes[1..]);
      var r := ['%', HexDigit(bytes[0] / 16), HexDigit(bytes[0] % 16)] + rest;
      assert forall i | 3 <= i < |r| :: r[i] == rest[i - 3];
      r
  }

  /** One character as `encodeURIComponent` writes it. */
  function EncodeChar(c: char): (r: string)
    ensures Unreserved(c) ==> r == [c]
    ensures !Unreserved(c) ==> |r| >= 3 && r[0] == '%'
    ensures forall i | 0 <= i < |r| :: Unreserved(r[i]) || r[i] == '%' || IsHexDigit(r[i])
  {
    if Unreserved(c) then [c] else Escape(Utf8(c))
  }

  /**
   * `encodeURIComponent(s)`: the output holds only unreserved characters, `%` and hexadecimal
   * digits, so no separator of a query string (`&`, `=`, `#`, `+`, space) survives in it.
   */
  function EncodeUriComponent(s: string): (r: string)
    ensures |r| >= |s|
    ensures forall i | 0 <= i < |r| :: Unreserved(r[i]) || r[i] == '%' || IsHexDigit(r[i])
  {
    if |s| == 0 then ""
    else
      var head := EncodeChar(s[0]);
      var rest := EncodeUriComponent(s[1..]);
      assert forall i | |head| <= i < |head| + |rest| :: (head + rest)[i] == rest[i - |head|];
      head + rest
  }

  /** Encoding works character by character: it distributes over concatenation. */
  lemma {:induction false} EncodeAppend(a: string, b: string)
    ensures EncodeUriComponent(a + b) == EncodeUriComponent(a) + EncodeUriComponent(b)
  {
    if |a| > 0 {
      assert (a + b)[1..] == a[1..] + b;
      EncodeAppend(a[1..], b);
    } else {
      assert a + b == b;
    }
  }

  /** Text made of unreserved characters only is left as it is. */
  lemma {:induction false} EncodeUnreserved(s: string)
    requires forall i | 0 <= i < |s| :: Unreserved(s[i])
    ensures EncodeUriComponent(s) == s
  {
    if |s| > 0 {
      EncodeUnreserved(s[1..]);
      assert s == [s[0]] + s[1..];
    }
  }

  /** Every reserved character grows into escapes: the output is longer than the input. */
  lemma {:induction false} EncodeGrows(s: string, i: nat)
    requires i < |s| && !Unreserved(s[i])
    ensures |EncodeUriComponent(s)| >= |s| + 2
  {
    if i > 0 {
      EncodeGrows(s[1..], i - 1);
    }
  }
}
