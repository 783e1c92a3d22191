/**
  The flexible base64 decoder: unpadded url, padded url, unpadded standard, padded standard, the first
  that accepts wins. Alphabets and padding are those of sections 3.2, 4 and 5 of RFC 4648; as in the
  decoder the program uses, carriage returns and line feeds are skipped and the spare bits of the last
  character are not looked at.
 */
module Base64 {
  import opened Options
  import opened Text

  type Byte = b: int | 0 <= b < 256
  type Sextet = v: int | 0 <= v < 64

  datatype Encoding = Encoding(url: bool, padded: bool)

  // ----- Alphabets -----

  function CharOf(v: Sextet, url: bool): char {
    if v < 26 then ('A' as int + v) as char
    else if v < 52 then ('a' as int + (v - 26)) as char
    else if v < 62 then ('0' as int + (v - 52)) as char
    else if v == 62 then (if url then '-' else '+')
    else (if url then '_' else '/')
  }

  function SextetOf(c: char, url: bool): Option<Sextet> {
    if 'A' <= c <= 'Z' then Some(c as int - 'A' as int)
    else if 'a' <= c <= 'z' then Some(c as int - 'a' as int + 26)
    else if '0' <= c <= '9' then Some(c as int - '0' as int + 52)
    else if c == (if url then '-' else '+') then Some(62)
    else if c == (if url then '_' else '/') then Some(63)
    else None
  }

  predicate IsSextet(c: char, url: bool) {
    SextetOf(c, url).Some?
  }

  lemma AlphabetInverts(v: Sextet, url: bool)
    ensures SextetOf(CharOf(v, url), url) == Some(v)
    ensures CharOf(v, url) != '=' && !IsSpace(CharOf(v, url))
  {
  }

  // ----- Encoding -----

  function Encode(b: seq<Byte>, e: Encoding): string {
    if b == [] then ""
    else if |b| == 1 then
      [CharOf(b[0] / 4, e.url), CharOf(b[0] % 4 * 16, e.url)] + if e.padded then "==" else ""
    else if |b| == 2 then
      [CharOf(b[0] / 4, e.url), CharOf(b[0] % 4 * 16 + b[1] / 16, e.url), CharOf(b[1] % 16 * 4, e.url)]
      + if e.padded then "=" else ""
    else
      [CharOf(b[0] / 4, e.url), CharOf(b[0] % 4 * 16 + b[1] / 16, e.url),
       CharOf(b[1] % 16 * 4 + b[2] / 64, e.url), CharOf(b[2] % 64, e.url)]
      + Encode(b[3..], e)
  }

  /** Test vectors of section 10 of RFC 4648, and the two characters in which the alphabets differ. */
  lemma Vectors()
    ensures Encode([0x66, 0x6f, 0x6f], Encoding(false, true)) == "Zm9v"
    ensures Encode([0x66, 0x6f], Encoding(false, true)) == "Zm8="
    ensures Encode([0x66], Encoding(false, true)) == "Zg=="
    ensures Encode([0xfb, 0xff], Encoding(false, true)) == "+/8="
    ensures Encode([0xfb, 0xff], Encoding(true, false)) == "-_8"
  {
    assert [0x66, 0x6f, 0x6f][3..] == [];
  }

  // ----- Decoding -----

  /** The text starts with four characters of the alphabet. */
  predicate Full(s: string, url: bool) {
    && |s| >= 4
    && IsSextet(s[0], url) && IsSextet(s[1], url) && IsSextet(s[2], url) && IsSextet(s[3], url)
  }

  /** The text is n characters of the alphabet, and padding up to four if the encoding pads. */
  predicate Short(s: string, n: nat, e: Encoding)
    requires 2 <= n <= 3
  {
    && |s| == (if e.padded then 4 else n)
    && IsSextet(s[0], e.url) && IsSextet(s[1], e.url)
    && (if n == 3 then IsSextet(s[2], e.url) else e.padded ==> s[2] == '=')
    && (e.padded ==> s[3] == '=')
  }

  function First(s: string, url: bool): Byte
    requires |s| >= 2 && IsSextet(s[0], url) && IsSextet(s[1], url)
  {
    SextetOf(s[0], url).value * 4 + SextetOf(s[1], url).value / 16
  }

  function Second(s: string, url: bool): Byte
    requires |s| >= 3 && IsSextet(s[1], url) && IsSextet(s[2], url)
  {
    SextetOf(s[1], url).value % 16 * 16 + SextetOf(s[2], url).value / 4
  }

  function Third(s: string, url: bool): Byte
    requires |s| >= 4 && IsSextet(s[2], url) && IsSextet(s[3], url)
  {
    SextetOf(s[2], url).value % 4 * 64 + SextetOf(s[3], url).value
  }

  function ValueOf(c: char, url: bool): int {
    match SextetOf(c, url)
    case None => -1
    case Some(v) => v
  }

  /** Section 4 of RFC 4648: four characters and their three bytes are one number of 24 bits, first byte first. */
  lemma GroupIsOneNumber(s: string, url: bool)
    requires Full(s, url)
    ensures var x: int, y: int, z: int := First(s, url), Second(s, url), Third(s, url);
            (x * 256 + y) * 256 + z ==
              ((ValueOf(s[0], url) * 64 + ValueOf(s[1], url)) * 64 + ValueOf(s[2], url)) * 64 + ValueOf(s[3], url)
  {
  }

  /** The last group of a text, when it is not four characters of the alphabet. */
  function DecodeTail(s: string, e: Encoding): Option<seq<Byte>> {
    if Short(s, 2, e) then Some([First(s, e.url)])
    else if Short(s, 3, e) then Some([First(s, e.url), Second(s, e.url)])
    else None
  }

  function DecodeGroups(s: string, e: Encoding): Option<seq<Byte>> {
    if s == "" then Some([])
    else if Full(s, e.url) then
      match DecodeGroups(s[4..], e)
      case None => None
      case Some(rest) => Some([First(s, e.url), Second(s, e.url), Third(s, e.url)] + rest)
    else DecodeTail(s, e)
  }

  function WithoutNewlines(s: string): string {
    if s == "" then ""
    else (if s[0] == '\r' || s[0] == '\n' then "" else [s[0]]) + WithoutNewlines(s[1..])
  }

  function Decode(s: string, e: Encoding): Option<seq<Byte>> {
    DecodeGroups(WithoutNewlines(s), e)
  }

  const CASCADE := [Encoding(true, false), Encoding(true, true), Encoding(false, false), Encoding(false, true)]

  function DecodeFirst(s: string, encodings: seq<Encoding>): Option<seq<Byte>> {
    if encodings == [] then None
    else
      var decoded := Decode(s, encodings[0]);
      if decoded.Some? then decoded else DecodeFirst(s, encodings[1..])
  }

  /** decodeBase64Flexible. */
  function DecodeFlexible(s: string): Option<seq<Byte>> {
    DecodeFirst(TrimSpace(s), CASCADE)
  }

  // ----- The order of the cascade does not matter -----

  /** A text that starts with a full group of one alphabet is no last group of any encoding. */
  lemma FullIsNoTail(s: string, url: bool, e: Encoding)
    requires Full(s, url)
    ensures DecodeTail(s, e) == None
  {
  }

  lemma TailsAgree(s: string, e: Encoding, e': Encoding)
    requires DecodeTail(s, e).Some? && DecodeTail(s, e').Some?
    ensures DecodeTail(s, e) == DecodeTail(s, e')
  {
  }

  /** Two decoders that both accept a text read the same bytes from it. */
  lemma {:induction false} DecodersAgree(s: string, e: Encoding, e': Encoding)
    requires DecodeGroups(s, e).Some? && DecodeGroups(s, e').Some?
    ensures DecodeGroups(s, e) == DecodeGroups(s, e')
    decreases |s|
  {
    if s != "" {
      if Full(s, e.url) && Full(s, e'.url) {
        DecodersAgree(s[4..], e, e');
      } else if Full(s, e.url) {
        FullIsNoTail(s, e.url, e');
      } else if Full(s, e'.url) {
        FullIsNoTail(s, e'.url, e);
      } else {
        TailsAgree(s, e, e');
      }
    }
  }

  lemma {:induction false} FirstIsAnyOf(s: string, encodings: seq<Encoding>, e: Encoding)
    requires e in encodings && Decode(s, e).Some?
    ensures DecodeFirst(s, encodings) == Decode(s, e)
    decreases |encodings|
  {
    if Decode(s, encodings[0]).Some? {
      DecodersAgree(WithoutNewlines(s), encodings[0], e);
    } else {
      assert e in encodings[1..];
      FirstIsAnyOf(s, encodings[1..], e);
    }
  }

  /** For every text and every decoder that accepts it, the cascade gives what that decoder gives. */
  lemma CascadeOrderIsIrrelevant(s: string, e: Encoding)
    requires Decode(TrimSpace(s), e).Some?
    ensures DecodeFlexible(s) == Decode(TrimSpace(s), e)
  {
    assert CASCADE[0].url && CASCADE[1].url && !CASCADE[2].url && !CASCADE[3].url;
    assert e in CASCADE;
    FirstIsAnyOf(TrimSpace(s), CASCADE, e);
  }

  // ----- Line breaks -----

  predicate IsBreak(c: char) {
    c == '\r' || c == '\n'
  }

  /** The second text is the first with line breaks put in, anywhere and any number of them. */
  predicate Broken(s: string, t: string) {
    if t == "" then s == ""
    else if IsBreak(t[0]) then Broken(s, t[1..])
    else s != "" && s[0] == t[0] && Broken(s[1..], t[1..])
  }

  lemma {:induction false} BreaksAreSkipped(s: string, t: string)
    requires Broken(s, t) && forall c <- s :: !IsBreak(c)
    ensures WithoutNewlines(t) == s
    decreases |t|
  {
    if t != "" {
      if IsBreak(t[0]) {
        BreaksAreSkipped(s, t[1..]);
      } else {
        BreaksAreSkipped(s[1..], t[1..]);
        assert s == [s[0]] + s[1..];
      }
    }
  }

  // ----- Round trips -----

  lemma {:induction false} EncodedText(b: seq<Byte>, e: Encoding)
    ensures forall i :: 0 <= i < |Encode(b, e)| ==> !IsSpace(Encode(b, e)[i])
    decreases |b|
  {
    forall v: Sextet
      ensures !IsSpace(CharOf(v, e.url))
    {
      AlphabetInverts(v, e.url);
    }
    if |b| >= 3 {
      EncodedText(b[3..], e);
    }
  }

  /** Cutting three bytes into sextets and joining them again gives the bytes. */
  lemma SextetsJoin(x: Byte, y: Byte, z: Byte)
    ensures x / 4 * 4 + (x % 4 * 16 + y / 16) / 16 == x
    ensures (x % 4 * 16 + y / 16) % 16 * 16 + (y % 16 * 4 + z / 64) / 4 == y
    ensures (y % 16 * 4 + z / 64) % 4 * 64 + z % 64 == z
  {
  }

  /** What a last group of two or three characters decodes to. */
  lemma ReadShort(v0: Sextet, v1: Sextet, v2: Sextet, e: Encoding)
    ensures var s := [CharOf(v0, e.url), CharOf(v1, e.url)] + if e.padded then "==" else "";
            !Full(s, e.url) && DecodeTail(s, e) == Some([v0 * 4 + v1 / 16])
    ensures var s := [CharOf(v0, e.url), CharOf(v1, e.url), CharOf(v2, e.url)] + if e.padded then "=" else "";
            !Full(s, e.url) && DecodeTail(s, e) == Some([v0 * 4 + v1 / 16, v1 % 16 * 16 + v2 / 4])
  {
    AlphabetInverts(v0, e.url);
    AlphabetInverts(v1, e.url);
    AlphabetInverts(v2, e.url);
  }

  lemma OwnLastByte(x: Byte, e: Encoding)
    ensures !Full(Encode([x], e), e.url)
    ensures DecodeTail(Encode([x], e), e) == Some([x])
  {
    SextetsJoin(x, 0, 0);
    ReadShort(x / 4, x % 4 * 16, 0, e);
  }

  lemma OwnLastTwoBytes(x: Byte, y: Byte, e: Encoding)
    ensures !Full(Encode([x, y], e), e.url)
    ensures DecodeTail(Encode([x, y], e), e) == Some([x, y])
  {
    var v0, v1, v2 := x / 4, x % 4 * 16 + y / 16, y % 16 * 4;
    assert v0 * 4 + v1 / 16 == x && v1 % 16 * 16 + v2 / 4 == y by {
      SextetsJoin(x, y, 0);
    }
    ReadShort(v0, v1, v2, e);
  }

  lemma OwnGroup(b: seq<Byte>, e: Encoding)
    requires |b| >= 3
    ensures var s := Encode(b, e);
            && Full(s, e.url) && s[4..] == Encode(b[3..], e)
            && First(s, e.url) == b[0] && Second(s, e.url) == b[1] && Third(s, e.url) == b[2]
  {
    var s := Encode(b, e);
    var v0, v1 := b[0] / 4, b[0] % 4 * 16 + b[1] / 16;
    var v2, v3 := b[1] % 16 * 4 + b[2] / 64, b[2] % 64;
    AlphabetInverts(v0, e.url);
    AlphabetInverts(v1, e.url);
    AlphabetInverts(v2, e.url);
    AlphabetInverts(v3, e.url);
    SextetsJoin(b[0], b[1], b[2]);
    assert s == [CharOf(v0, e.url), CharOf(v1, e.url), CharOf(v2, e.url), CharOf(v3, e.url)] + Encode(b[3..], e);
  }

  /** Each of the four decoders inverts the encoder it belongs to. */
  lemma {:induction false} OwnRoundTrip(b: seq<Byte>, e: Encoding)
    ensures DecodeGroups(Encode(b, e), e) == Some(b)
    decreases |b|
  {
    if |b| == 1 {
      assert b == [b[0]];
      OwnLastByte(b[0], e);
    } else if |b| == 2 {
      assert b == [b[0], b[1]];
      OwnLastTwoBytes(b[0], b[1], e);
    } else if |b| >= 3 {
      OwnGroup(b, e);
      OwnRoundTrip(b[3..], e);
      assert b == [b[0], b[1], b[2]] + b[3..];
    }
  }

  lemma {:induction false} NothingToSkip(s: string)
    requires forall i :: 0 <= i < |s| ==> !IsSpace(s[i])
    ensures WithoutNewlines(s) == s && TrimSpace(s) == s
  {
    if s != "" {
      assert forall i :: 0 <= i < |s[1..]| ==> s[1..][i] == s[i + 1];
      NothingToSkip(s[1..]);
    }
  }

  /** Whatever was encoded, in whichever of the four encodings, comes back. */
  lemma FlexibleRoundTrip(b: seq<Byte>, e: Encoding)
    ensures DecodeFlexible(Encode(b, e)) == Some(b)
  {
    EncodedText(b, e);
    NothingToSkip(Encode(b, e));
    OwnRoundTrip(b, e);
    CascadeOrderIsIrrelevant(Encode(b, e), e);
  }

  lemma {:induction false} LeftTrimmedStaysBroken(s: string, t: string)
    requires Broken(s, t) && forall c <- s :: !IsSpace(c)
    ensures Broken(s, TrimLeft(t))
    decreases |t|
  {
    if t != "" && IsSpace(t[0]) {
      LeftTrimmedStaysBroken(s, t[1..]);
    }
  }

  lemma {:induction false} WithoutLastStaysBroken(s: string, t: string)
    requires t != "" && IsSpace(t[|t| - 1]) && Broken(s, t) && forall c <- s :: !IsSpace(c)
    ensures Broken(s, t[..|t| - 1])
    decreases |t|
  {
    if |t| > 1 {
      assert t[1..][..|t| - 2] == t[..|t| - 1][1..];
      WithoutLastStaysBroken(if IsBreak(t[0]) then s else s[1..], t[1..]);
    }
  }

  lemma {:induction false} RightTrimmedStaysBroken(s: string, t: string)
    requires Broken(s, t) && forall c <- s :: !IsSpace(c)
    ensures Broken(s, TrimRight(t))
    decreases |t|
  {
    if t != "" && IsSpace(t[|t| - 1]) {
      WithoutLastStaysBroken(s, t);
      RightTrimmedStaysBroken(s, t[..|t| - 1]);
    }
  }

  /** And so does what was encoded and then wrapped into lines, wherever the breaks are. */
  lemma WrappedRoundTrip(b: seq<Byte>, e: Encoding, wrapped: string)
    requires Broken(Encode(b, e), wrapped)
    ensures DecodeFlexible(wrapped) == Some(b)
  {
    var s := Encode(b, e);
    EncodedText(b, e);
    assert forall c <- s :: !IsSpace(c) && !IsBreak(c);
    LeftTrimmedStaysBroken(s, wrapped);
    RightTrimmedStaysBroken(s, TrimLeft(wrapped));
    BreaksAreSkipped(s, TrimSpace(wrapped));
    OwnRoundTrip(b, e);
    CascadeOrderIsIrrelevant(wrapped, e);
  }
}
