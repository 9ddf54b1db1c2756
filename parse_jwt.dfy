/**
 * `parseJWT`: take the second `.`-separated segment of a compact JWT, turn its
 * base64url alphabet into the base64 alphabet (RFC 4648 section 5 to section 4),
 * decode it with `atob`, escape every byte as `%hh`, and hand the result to
 * `decodeURIComponent` and `JSON.parse`. The browser primitives stay abstract:
 * they are the two functions of a `JwtCodec`.
 */
module ParseJwt {
  import opened Wrappers
  import opened KeycloakTypes

  /** A character of the binary string `atob` returns. */
  type Byte = x: int | 0 <= x < 256

  /**
   * The foreign calls: `window.atob` (None when it throws), and
   * `decodeURIComponent` followed by `JSON.parse` (None when either throws).
   */
  datatype JwtCodec = JwtCodec(atob: string -> Option<seq<Byte>>, parsePayload: string -> Option<Claims>)

  /** The three ways `parseJWT` throws. */
  datatype JwtError = MissingPayloadSegment | InvalidBase64 | InvalidPayload

  /** `parts.join(sep)` */
  function Join(parts: seq<string>, sep: char): string
    requires |parts| >= 1
  {
    if |parts| == 1 then parts[0] else parts[0] + [sep] + Join(parts[1..], sep)
  }

  /** `s.split(sep)` for a one-character separator. */
  function Split(s: string, sep: char): (parts: seq<string>)
    ensures |parts| >= 1
    ensures |parts| == 1 <==> sep !in s
    decreases |s|
  {
    if s == [] then [[]]
    else
      var rest := Split(s[1..], sep);
      assert s == [s[0]] + s[1..];
      if s[0] == sep then [[]] + rest
      else [[s[0]] + rest[0]] + rest[1..]
  }

  /** Splitting loses nothing: joining the parts with the separator gives the text back. */
  lemma {:induction false} SplitJoin(s: string, sep: char)
    ensures Join(Split(s, sep), sep) == s
    decreases |s|
  {
    if s != [] {
      var rest := Split(s[1..], sep);
      SplitJoin(s[1..], sep);
      assert s == [s[0]] + s[1..];
      var parts := Split(s, sep);
      if s[0] == sep {
        assert parts[1..] == rest;
      } else if |rest| > 1 {
        assert parts[1..] == rest[1..];
        assert Join(rest, sep) == rest[0] + [sep] + Join(rest[1..], sep);
        assert Join(parts, sep) == [s[0]] + rest[0] + [sep] + Join(rest[1..], sep);
      }
    }
  }

  /** No part contains the separator. */
  lemma {:induction false} SplitPartsLackSeparator(s: string, sep: char)
    ensures forall i :: 0 <= i < |Split(s, sep)| ==> sep !in Split(s, sep)[i]
    decreases |s|
  {
    if s != [] {
      SplitPartsLackSeparator(s[1..], sep);
      var rest := Split(s[1..], sep);
      var parts := Split(s, sep);
      if s[0] != sep {
        assert parts[0] == [s[0]] + rest[0];
        forall i | 1 <= i < |parts| ensures sep !in parts[i] {
          assert parts[i] == rest[i];
        }
      } else {
        forall i | 1 <= i < |parts| ensures sep !in parts[i] {
          assert parts[i] == rest[i - 1];
        }
      }
    }
  }

  /** Splitting at the first separator: the text before it is the first part. */
  lemma {:induction false} SplitAtFirstSeparator(a: string, b: string, sep: char)
    requires sep !in a
    ensures Split(a + [sep] + b, sep) == [a] + Split(b, sep)
    decreases |a|
  {
    if a == [] {
      assert [sep] + b == a + [sep] + b;
      assert ([sep] + b)[1..] == b;
    } else {
      var s := a + [sep] + b;
      assert s[1..] == a[1..] + [sep] + b;
      assert sep !in a[1..] by {
        forall i | 0 <= i < |a[1..]| ensures a[1..][i] != sep {
          assert a[1..][i] == a[i + 1];
        }
      }
      SplitAtFirstSeparator(a[1..], b, sep);
      assert [a[0]] + a[1..] == a;
    }
  }

  /** A part that is followed by a separator or by the end of the text is kept whole. */
  lemma {:induction false} SplitKeepsFirstPart(p: string, rest: string, sep: char)
    requires sep !in p
    requires rest == [] || rest[0] == sep
    ensures Split(p + rest, sep)[0] == p
    decreases |p|
  {
    if p == [] {
      assert p + rest == rest;
    } else {
      assert (p + rest)[1..] == p[1..] + rest;
      assert sep !in p[1..] by {
        forall i | 0 <= i < |p[1..]| ensures p[1..][i] != sep {
          assert p[1..][i] == p[i + 1];
        }
      }
      SplitKeepsFirstPart(p[1..], rest, sep);
      assert [p[0]] + p[1..] == p;
    }
  }

  /** `token.split(".")[1]`: None where the index is out of range (`undefined`). */
  function PayloadSegment(token: string): (segment: Option<string>)
    ensures segment.None? <==> '.' !in token
  {
    var parts := Split(token, '.');
    if |parts| > 1 then Some(parts[1]) else None
  }

  /** The payload segment is exactly the text between the first and the second dot. */
  lemma {:induction false} PayloadIsSecondSegment(header: string, payload: string, rest: string)
    requires '.' !in header && '.' !in payload
    requires rest == [] || rest[0] == '.'
    ensures PayloadSegment(header + "." + payload + rest) == Some(payload)
  {
    assert header + "." + payload + rest == header + ['.'] + (payload + rest);
    SplitAtFirstSeparator(header, payload + rest, '.');
    SplitKeepsFirstPart(payload, rest, '.');
  }

  /** `s.replaceAll(from, to)` for one-character patterns. */
  function ReplaceAll(s: string, from: char, to: char): (r: string)
    ensures |r| == |s|
    ensures forall i :: 0 <= i < |s| ==> r[i] == if s[i] == from then to else s[i]
    decreases |s|
  {
    if s == [] then []
    else [if s[0] == from then to else s[0]] + ReplaceAll(s[1..], from, to)
  }

  /** `.replaceAll('-', "+").replaceAll('_', "/")`: base64url alphabet to base64 alphabet. */
  function Base64UrlToBase64(s: string): (r: string)
    ensures |r| == |s|
    ensures forall i :: 0 <= i < |s| ==>
      r[i] == (if s[i] == '-' then '+' else if s[i] == '_' then '/' else s[i])
    ensures '-' !in r && '_' !in r
  {
    ReplaceAll(ReplaceAll(s, '-', '+'), '_', '/')
  }

  /** A digit of `Number.prototype.toString(16)`. */
  function HexDigit(d: nat): char
    requires d < 16
  {
    if d < 10 then ('0' as int + d) as char else ('a' as int + d - 10) as char
  }

  predicate IsLowerHexDigit(c: char) {
    '0' <= c <= '9' || 'a' <= c <= 'f'
  }

  /** The value of a lower-case hexadecimal digit, the inverse of `HexDigit`. */
  function HexValue(c: char): (d: nat)
    requires IsLowerHexDigit(c)
    ensures d < 16 && HexDigit(d) == c
  {
    if c <= '9' then c as int - '0' as int else c as int - 'a' as int + 10
  }

  /** `n.toString(16)` for a non-negative integer. */
  function ToHexString(n: nat): string
    decreases n
  {
    if n < 16 then [HexDigit(n)] else ToHexString(n / 16) + [HexDigit(n % 16)]
  }

  /** `s.slice(-2)` */
  function LastTwo(s: string): string {
    if |s| <= 2 then s else s[|s| - 2..]
  }

  /**
   * The callback of the `map`: `%${`00${c.codePointAt(0).toString(16)}`.slice(-2)}`.
   * Every byte becomes `%` and exactly two lower-case hexadecimal digits, high digit first.
   */
  function PercentEscape(b: Byte): (escape: string)
    ensures escape == ['%', HexDigit(b / 16), HexDigit(b % 16)]
  {
    if b < 16 then
      assert ToHexString(b) == [HexDigit(b)];
      assert HexDigit(0) == '0';
      "%" + LastTwo("00" + ToHexString(b))
    else
      assert ToHexString(b / 16) == [HexDigit(b / 16)];
      "%" + LastTwo("00" + ToHexString(b))
  }

  /** The two digits of an escape read back as the byte they came from. */
  lemma EscapeReadsBackAsByte(b: Byte)
    ensures IsLowerHexDigit(PercentEscape(b)[1]) && IsLowerHexDigit(PercentEscape(b)[2])
    ensures HexValue(PercentEscape(b)[1]) * 16 + HexValue(PercentEscape(b)[2]) == b
  {
    var hi, lo := HexDigit(b / 16), HexDigit(b % 16);
    HexDigitInjective(b / 16, HexValue(hi));
    HexDigitInjective(b % 16, HexValue(lo));
  }

  /** The `map(...).join("")` over the bytes `atob` produced. */
  function PercentEncode(bytes: seq<Byte>): (r: string)
    ensures |r| == 3 * |bytes|
    ensures forall i :: 0 <= i < |r| ==> r[i] == '%' || IsLowerHexDigit(r[i])
    decreases |bytes|
  {
    if bytes == [] then ""
    else
      PercentEscape(bytes[0]) + PercentEncode(bytes[1..])
  }

  /** Reading `%hh` triples back into bytes: the reference inverse of `PercentEncode`. */
  function PercentDecode(s: string): Option<seq<Byte>>
    decreases |s|
  {
    if s == [] then Some([])
    else if |s| >= 3 && s[0] == '%' && IsLowerHexDigit(s[1]) && IsLowerHexDigit(s[2]) then
      match PercentDecode(s[3..])
      case None => None
      case Some(rest) => Some([HexValue(s[1]) * 16 + HexValue(s[2])] + rest)
    else None
  }

  /** The escape step loses nothing: the bytes can be read back from the escaped string. */
  lemma {:induction false} PercentEncodeRoundTrip(bytes: seq<Byte>)
    ensures PercentDecode(PercentEncode(bytes)) == Some(bytes)
    decreases |bytes|
  {
    if bytes != [] {
      var b := bytes[0];
      var s := PercentEncode(bytes);
      assert s == PercentEscape(b) + PercentEncode(bytes[1..]);
      assert s[3..] == PercentEncode(bytes[1..]);
      assert s[..3] == PercentEscape(b);
      EscapeReadsBackAsByte(b);
      PercentEncodeRoundTrip(bytes[1..]);
      assert [b] + bytes[1..] == bytes;
    }
  }

  lemma HexDigitInjective(d: nat, e: nat)
    requires d < 16 && e < 16 && HexDigit(d) == HexDigit(e)
    ensures d == e
  {
  }

  /**
   * `parseJWT(token)`: the decoded payload, or the error it throws. Its only
   * inputs are the token and the two browser primitives.
   */
  function ParseJWT(token: string, codec: JwtCodec): (r: Result<Claims, JwtError>)
    ensures r == Failure(MissingPayloadSegment) <==> '.' !in token
  {
    match PayloadSegment(token)
    case None => Failure(MissingPayloadSegment)
    case Some(segment) =>
      match codec.atob(Base64UrlToBase64(segment))
      case None => Failure(InvalidBase64)
      case Some(bytes) =>
        match codec.parsePayload(PercentEncode(bytes))
        case None => Failure(InvalidPayload)
        case Some(claims) => Success(claims)
  }

  /** Only the second segment is read: the header and anything after the payload are ignored. */
  lemma OnlyPayloadSegmentMatters(h1: string, h2: string, payload: string, r1: string, r2: string, codec: JwtCodec)
    requires '.' !in h1 && '.' !in h2 && '.' !in payload
    requires r1 == [] || r1[0] == '.'
    requires r2 == [] || r2[0] == '.'
    ensures ParseJWT(h1 + "." + payload + r1, codec) == ParseJWT(h2 + "." + payload + r2, codec)
  {
    PayloadIsSecondSegment(h1, payload, r1);
    PayloadIsSecondSegment(h2, payload, r2);
  }

  /** An empty payload (`"a."`) passes the missing-segment check: only absence is tested. */
  lemma EmptyPayloadIsPresent(header: string, codec: JwtCodec)
    requires '.' !in header
    ensures PayloadSegment(header + ".") == Some("")
    ensures ParseJWT(header + ".", codec) != Failure(MissingPayloadSegment)
  {
    PayloadIsSecondSegment(header, "", "");
    assert header + "." + "" + "" == header + ".";
  }
}
