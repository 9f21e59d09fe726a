/** The text form of link tokens: base64url without padding (section 5 of RFC 4648), produced from the
    standard alphabet by replacing two characters and dropping the padding. */
module Base64Url {
  import opened Common

  type Byte = b: nat | b < 256
  type Sextet = n: nat | n < 64

  /** Groups of three bytes as four six-bit numbers; a short last group is filled with zero bits. */
  function Sextets(bytes: seq<Byte>): (r: seq<Sextet>)
    decreases |bytes|
  {
    if |bytes| == 0 then []
    else if |bytes| == 1 then [bytes[0] / 4, bytes[0] % 4 * 16]
    else if |bytes| == 2 then [bytes[0] / 4, bytes[0] % 4 * 16 + bytes[1] / 16, bytes[1] % 16 * 4]
    else
      [bytes[0] / 4, bytes[0] % 4 * 16 + bytes[1] / 16, bytes[1] % 16 * 4 + bytes[2] / 64, bytes[2] % 64] +
      Sextets(bytes[3..])
  }

  function StandardChar(n: Sextet): char {
    if n < 26 then 'A' + n as char
    else if n < 52 then 'a' + (n - 26) as char
    else if n < 62 then '0' + (n - 52) as char
    else if n == 62 then '+'
    else '/'
  }

  function StandardChars(sextets: seq<Sextet>): string {
    seq(|sextets|, i requires 0 <= i < |sextets| => StandardChar(sextets[i]))
  }

  function Padding(length: nat): string {
    if length % 3 == 0 then "" else if length % 3 == 1 then "==" else "="
  }

  /** The platform's base64 of a binary string. */
  function Btoa(bytes: seq<Byte>): string {
    StandardChars(Sextets(bytes)) + Padding(|bytes|)
  }

  function ReplaceAll(text: string, old': char, new': char): string {
    seq(|text|, i requires 0 <= i < |text| => if text[i] == old' then new' else text[i])
  }

  /** Drop every trailing padding character. */
  function StripPadding(text: string): string
    decreases |text|
  {
    if text != "" && text[|text| - 1] == '=' then StripPadding(text[..|text| - 1]) else text
  }

  function EncodeBase64Url(bytes: seq<Byte>): string {
    StripPadding(ReplaceAll(ReplaceAll(Btoa(bytes), '+', '-'), '/', '_'))
  }

  predicate AlphabetChar(c: char) {
    'A' <= c <= 'Z' || 'a' <= c <= 'z' || '0' <= c <= '9' || c == '-' || c == '_'
  }

  // ---------------------------------------------------------------------------------------
  // An independent decoder
  // ---------------------------------------------------------------------------------------

  function ValueOf(c: char): Option<Sextet> {
    if 'A' <= c <= 'Z' then Some((c - 'A') as int)
    else if 'a' <= c <= 'z' then Some((c - 'a') as int + 26)
    else if '0' <= c <= '9' then Some((c - '0') as int + 52)
    else if c == '-' then Some(62)
    else if c == '_' then Some(63)
    else None
  }

  function HighByte(a: Sextet, b: Sextet): Byte {
    var high: int, low: int := a, b;
    high * 4 + low / 16
  }

  function MiddleByte(b: Sextet, c: Sextet): Byte {
    var high: int, low: int := b, c;
    high % 16 * 16 + low / 4
  }

  function LowByte(c: Sextet, d: Sextet): Byte {
    var high: int, low: int := c, d;
    high % 4 * 64 + low
  }

  function Bytes(sextets: seq<Sextet>): Option<seq<Byte>>
    decreases |sextets|
  {
    if |sextets| == 0 then Some([])
    else if |sextets| == 1 then None
    else if |sextets| == 2 then Some([HighByte(sextets[0], sextets[1])])
    else if |sextets| == 3 then Some([HighByte(sextets[0], sextets[1]), MiddleByte(sextets[1], sextets[2])])
    else
      var rest := Bytes(sextets[4..]);
      if rest.None? then None
      else
        Some([HighByte(sextets[0], sextets[1]), MiddleByte(sextets[1], sextets[2]), LowByte(sextets[2], sextets[3])] +
             rest.value)
  }

  function Values(text: string): Option<seq<Sextet>>
    decreases |text|
  {
    if text == "" then Some([])
    else
      var rest := Values(text[1..]);
      if ValueOf(text[0]).None? || rest.None? then None else Some([ValueOf(text[0]).value] + rest.value)
  }

  function DecodeBase64Url(text: string): Option<seq<Byte>> {
    var values := Values(text);
    if values.None? then None else Bytes(values.value)
  }

  // ---------------------------------------------------------------------------------------
  // Round trip
  // ---------------------------------------------------------------------------------------

  function UrlChar(n: Sextet): char {
    if StandardChar(n) == '+' then '-' else if StandardChar(n) == '/' then '_' else StandardChar(n)
  }

  function UrlChars(sextets: seq<Sextet>): string {
    seq(|sextets|, i requires 0 <= i < |sextets| => UrlChar(sextets[i]))
  }

  lemma ReplacedChars(sextets: seq<Sextet>, padding: string)
    requires padding == "" || padding == "=" || padding == "=="
    ensures ReplaceAll(ReplaceAll(StandardChars(sextets) + padding, '+', '-'), '/', '_') == UrlChars(sextets) + padding
  {
    var once := ReplaceAll(StandardChars(sextets) + padding, '+', '-');
    var twice := ReplaceAll(once, '/', '_');
    forall i | 0 <= i < |twice| ensures twice[i] == (UrlChars(sextets) + padding)[i] {
      assert i >= |sextets| ==> (StandardChars(sextets) + padding)[i] == '=';
    }
  }

  /** Replacing and stripping leaves exactly the url characters of the sextets. */
  lemma EncodesSextets(bytes: seq<Byte>)
    ensures EncodeBase64Url(bytes) == UrlChars(Sextets(bytes))
  {
    var chars := UrlChars(Sextets(bytes));
    ReplacedChars(Sextets(bytes), Padding(|bytes|));
    assert (chars + "==")[..|chars| + 1] == chars + "=";
    assert (chars + "=")[..|chars|] == chars;
    assert chars + "" == chars;
    if chars != "" {
      ValueOfChar(Sextets(bytes)[|chars| - 1]);
    }
    assert StripPadding(chars) == chars;
    assert StripPadding(chars + "=") == chars;
    assert StripPadding(chars + "==") == chars;
  }

  lemma ValueOfChar(n: Sextet)
    ensures ValueOf(UrlChar(n)) == Some(n) && AlphabetChar(UrlChar(n)) && UrlChar(n) != '='
  {
  }

  lemma {:induction false} ValuesOfChars(sextets: seq<Sextet>)
    ensures Values(UrlChars(sextets)) == Some(sextets)
    decreases |sextets|
  {
    if sextets != [] {
      ValuesOfChars(sextets[1..]);
      assert UrlChars(sextets)[1..] == UrlChars(sextets[1..]);
      ValueOfChar(sextets[0]);
      assert [sextets[0]] + sextets[1..] == sextets;
    }
  }

  lemma GroupOfThree(a: Byte, b: Byte, c: Byte)
    ensures HighByte(a / 4, a % 4 * 16 + b / 16) == a
    ensures MiddleByte(a % 4 * 16 + b / 16, b % 16 * 4 + c / 64) == b
    ensures LowByte(b % 16 * 4 + c / 64, c % 64) == c
  {
  }

  lemma {:induction false} BytesOfSextets(bytes: seq<Byte>)
    ensures Bytes(Sextets(bytes)) == Some(bytes)
    decreases |bytes|
  {
    if |bytes| >= 3 {
      BytesOfSextets(bytes[3..]);
      GroupOfThree(bytes[0], bytes[1], bytes[2]);
      assert Sextets(bytes)[4..] == Sextets(bytes[3..]);
      assert bytes == [bytes[0], bytes[1], bytes[2]] + bytes[3..];
    } else if |bytes| == 2 {
      GroupOfThree(bytes[0], bytes[1], 0);
      assert bytes == [bytes[0], bytes[1]];
    } else if |bytes| == 1 {
      GroupOfThree(bytes[0], 0, 0);
      assert bytes == [bytes[0]];
    }
  }

  lemma {:induction false} SextetCount(bytes: seq<Byte>)
    ensures |Sextets(bytes)| == (|bytes| * 4 + 2) / 3
    decreases |bytes|
  {
    if |bytes| >= 3 {
      SextetCount(bytes[3..]);
    }
  }

  /** Decoding gives back the bytes, so different bytes have different tokens; 32 bytes make 43
      characters of the alphabet. */
  lemma TokenRoundTrip(bytes: seq<Byte>)
    ensures DecodeBase64Url(EncodeBase64Url(bytes)) == Some(bytes)
    ensures forall c :: c in EncodeBase64Url(bytes) ==> AlphabetChar(c)
    ensures |EncodeBase64Url(bytes)| == (|bytes| * 4 + 2) / 3
    ensures |bytes| == 32 ==> |EncodeBase64Url(bytes)| == 43
  {
    EncodesSextets(bytes);
    ValuesOfChars(Sextets(bytes));
    BytesOfSextets(bytes);
    SextetCount(bytes);
    var chars := UrlChars(Sextets(bytes));
    forall i | 0 <= i < |chars| ensures AlphabetChar(chars[i]) {
      ValueOfChar(Sextets(bytes)[i]);
    }
  }

  lemma TokensAreDistinct(a: seq<Byte>, b: seq<Byte>)
    requires EncodeBase64Url(a) == EncodeBase64Url(b)
    ensures a == b
  {
    TokenRoundTrip(a);
    TokenRoundTrip(b);
  }
}
