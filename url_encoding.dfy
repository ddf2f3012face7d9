/** PHP's `urlencode`: the application/x-www-form-urlencoded encoding of
    section 17.13.4.1 of HTML 4.01, applied byte by byte, and `urldecode`,
    its partner, which a server applies to a query parameter value. */
module UrlEncoding {
  import opened PhpStrings

  /** Bytes `urlencode` copies unchanged: ASCII letters, digits and `-_.`. */
  predicate IsKept(c: char)
  {
    ('a' <= c <= 'z') || ('A' <= c <= 'Z') || ('0' <= c <= '9') || c == '-' || c == '_' || c == '.'
  }

  /** The digits `urlencode` writes after `%` (upper case). */
  const HexDigits: string := "0123456789ABCDEF"

  predicate IsHexDigit(c: char)
  {
    ('0' <= c <= '9') || ('A' <= c <= 'F') || ('a' <= c <= 'f')
  }

  /** The value of a hex digit; `urldecode` accepts either case. */
  function HexValue(c: char): (v: nat)
    requires IsHexDigit(c)
    ensures v < 16
    ensures c in "0123456789ABCDEF" ==> HexDigits[v] == c
  {
    if '0' <= c <= '9' then c as int - '0' as int
    else if 'A' <= c <= 'F' then c as int - 'A' as int + 10
    else c as int - 'a' as int + 10
  }

  /** The encoding of one byte: kept, `+` for a space, `%XX` otherwise. */
  function EncodeByte(c: char): (r: PhpString)
    requires c as int < 256
  {
    if IsKept(c) then [c]
    else if c == ' ' then ['+']
    else ['%', HexDigits[c as int / 16], HexDigits[c as int % 16]]
  }

  function UrlEncode(s: PhpString): (r: PhpString)
    ensures |s| <= |r| <= 3 * |s|
  {
    if s == [] then [] else EncodeByte(s[0]) + UrlEncode(s[1..])
  }

  /** PHP's `urldecode`: `+` is a space, `%` followed by two hex digits is
      the byte they spell, and any other byte (a lone `%` included) is copied. */
  function FormDecode(s: PhpString): (r: PhpString)
  {
    if s == [] then []
    else if s[0] == '+' then [' '] + FormDecode(s[1..])
    else if s[0] == '%' && |s| >= 3 && IsHexDigit(s[1]) && IsHexDigit(s[2]) then
      [(HexValue(s[1]) * 16 + HexValue(s[2])) as char] + FormDecode(s[3..])
    else [s[0]] + FormDecode(s[1..])
  }

  /** Decoding one encoded byte in front of anything gives that byte back. */
  lemma FormDecodeEncodeByte(c: char, rest: PhpString)
    requires c as int < 256
    ensures FormDecode(EncodeByte(c) + rest) == [c] + FormDecode(rest)
  {
    var e := EncodeByte(c);
    if IsKept(c) {
      assert (e + rest)[1..] == rest;
    } else if c == ' ' {
      assert (e + rest)[1..] == rest;
    } else {
      var hi, lo := c as int / 16, c as int % 16;
      assert HexValue(HexDigits[hi]) == hi;
      assert HexValue(HexDigits[lo]) == lo;
      assert (e + rest)[3..] == rest;
    }
  }

  /** `urldecode` undoes `urlencode`: the server recovers exactly the bytes
      the client encoded. */
  lemma {:induction false} FormDecodeUrlEncode(s: PhpString)
    ensures FormDecode(UrlEncode(s)) == s
  {
    if s != [] {
      FormDecodeEncodeByte(s[0], UrlEncode(s[1..]));
      FormDecodeUrlEncode(s[1..]);
      assert [s[0]] + s[1..] == s;
    }
  }

  /** Different byte strings never encode alike. */
  lemma UrlEncodeInjective(a: PhpString, b: PhpString)
    requires UrlEncode(a) == UrlEncode(b)
    ensures a == b
  {
    FormDecodeUrlEncode(a);
    FormDecodeUrlEncode(b);
  }

  /** The bytes that can appear in `urlencode`'s output. */
  predicate IsFormSafe(c: char)
  {
    IsKept(c) || c == '%' || c == '+'
  }

  /** Every byte of an encoded string is kept, `%` or `+`. */
  lemma {:induction false} UrlEncodeIsFormSafe(s: PhpString)
    ensures forall i | 0 <= i < |UrlEncode(s)| :: IsFormSafe(UrlEncode(s)[i])
  {
    if s != [] {
      UrlEncodeIsFormSafe(s[1..]);
      var e, rest := EncodeByte(s[0]), UrlEncode(s[1..]);
      assert UrlEncode(s) == e + rest;
      forall i | 0 <= i < |e + rest|
        ensures IsFormSafe((e + rest)[i])
      {
        if i >= |e| {
          assert (e + rest)[i] == rest[i - |e|];
        }
      }
    }
  }

  /** So an encoded string holds no `&`, `=`, `#`, `?` or space: it stays a
      single query parameter value wherever it is placed in a URL. */
  lemma UrlEncodeHasNoDelimiter(s: PhpString)
    ensures '&' !in UrlEncode(s) && '=' !in UrlEncode(s) && '#' !in UrlEncode(s)
    ensures '?' !in UrlEncode(s) && ' ' !in UrlEncode(s)
  {
    UrlEncodeIsFormSafe(s);
  }

  /** A single byte encodes as `EncodeByte` says. */
  lemma UrlEncodeSingle(c: char)
    requires c as int < 256
    ensures UrlEncode([c]) == EncodeByte(c)
  {
    var s: PhpString := [c];
    assert s[1..] == [];
  }

  /** `urlencode` works byte by byte: encoding a concatenation is
      concatenating the encodings. */
  lemma {:induction false} UrlEncodeAppend(a: PhpString, b: PhpString)
    ensures UrlEncode(a + b) == UrlEncode(a) + UrlEncode(b)
  {
    if a == [] {
      assert a + b == b;
    } else {
      var ab: PhpString := a + b;
      var tail: PhpString := a[1..] + b;
      assert ab[0] == a[0] && ab[1..] == tail;
      UrlEncodeAppend(a[1..], b);
    }
  }

  /** A prefix made only of kept bytes passes through `urlencode` unchanged. */
  lemma {:induction false} UrlEncodeKeptPrefix(p: PhpString, s: PhpString)
    requires forall i | 0 <= i < |p| :: IsKept(p[i])
    ensures UrlEncode(p + s) == p + UrlEncode(s)
  {
    if p != [] {
      var ps: PhpString := p + s;
      var tail: PhpString := p[1..] + s;
      assert ps[0] == p[0] && ps[1..] == tail;
      assert IsKept(p[0]);
      assert UrlEncode(ps) == [p[0]] + UrlEncode(tail);
      assert forall i | 0 <= i < |p[1..]| :: IsKept(p[1..][i]);
      UrlEncodeKeptPrefix(p[1..], s);
      assert p == [p[0]] + p[1..];
    } else {
      assert p + s == s;
    }
  }

  /** Encoding keeps a leading "http": its four letters are all kept. */
  lemma UrlEncodeKeepsHttp(s: PhpString)
    requires StartsWith(s, "http")
    ensures StartsWith(UrlEncode(s), "http")
  {
    var rest: PhpString := s[4..];
    assert s == "http" + rest;
    UrlEncodeKeptPrefix("http", rest);
  }
}
