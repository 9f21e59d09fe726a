/** Telegram messages as commands: the two command grammars of the webhook, matched exactly, and the
    deep link that makes Telegram send one of them. */
module TelegramCommand {
  import opened Common
  import opened Base64Url

  datatype Command = Link | Unlink

  datatype Content =
    | Text(text: string)
    | InvalidCommand(command: Command)
    | TokenCommand(command: Command, token: string)

  function NameOf(command: Command): string {
    match command
    case Link => "link"
    case Unlink => "unlink"
  }

  /** White space and line terminators of the source's regular expressions. */
  predicate Space(c: char) {
    '\t' <= c <= '\r' || c == ' ' || c == '\U{00A0}' || c == '\U{1680}' || '\U{2000}' <= c <= '\U{200A}' ||
    c == '\U{2028}' || c == '\U{2029}' || c == '\U{202F}' || c == '\U{205F}' || c == '\U{3000}' || c == '\U{FEFF}'
  }

  /** White space by code point (section 22.2.2.9 of ECMA-262). */
  lemma SpaceByCodePoint(c: char)
    ensures Space(c) <==>
            c as int in {
              9, 10, 11, 12, 13, 32, 160, 5760, 8192, 8193, 8194, 8195, 8196, 8197, 8198, 8199, 8200, 8201, 8202,
              8232, 8233, 8239, 8287, 12288, 65279}
  {
  }

  predicate NameChar(c: char) {
    'A' <= c <= 'Z' || 'a' <= c <= 'z' || '0' <= c <= '9' || c == '_'
  }

  predicate All(text: string, p: char -> bool) {
    forall c :: c in text ==> p(c)
  }

  predicate Spaces(text: string) {
    All(text, Space)
  }

  predicate Visible(text: string) {
    All(text, c => !Space(c))
  }

  predicate ValidToken(token: string) {
    |token| == 43 && All(token, AlphabetChar)
  }

  // ---------------------------------------------------------------------------------------
  // The grammars
  // ---------------------------------------------------------------------------------------

  /** An optional bot mention. */
  predicate Mention(text: string) {
    text == "" || (6 <= |text| <= 33 && text[0] == '@' && All(text[1..], NameChar))
  }

  /** `/link` or `/unlink`, an optional mention, an optional candidate after white space. */
  ghost predicate Direct(text: string, command: Command, candidate: string) {
    exists mention, gap, trail ::
      && text == "/" + NameOf(command) + (mention + (gap + (candidate + trail)))
      && DirectParts(mention, gap, candidate, trail)
  }

  predicate DirectParts(mention: string, gap: string, candidate: string, trail: string) {
    Mention(mention) && Spaces(gap) && Visible(candidate) && Spaces(trail) && (candidate == "" <==> gap == "")
  }

  /** `/start`, an optional mention, white space, then the purpose and a candidate as one word. */
  ghost predicate Start(text: string, command: Command, candidate: string) {
    exists mention, gap, trail ::
      && text == "/start" + (mention + (gap + (NameOf(command) + "_" + (candidate + trail))))
      && StartParts(mention, gap, candidate, trail)
  }

  predicate StartParts(mention: string, gap: string, candidate: string, trail: string) {
    Mention(mention) && Spaces(gap) && Visible(candidate) && Spaces(trail) && candidate != "" && gap != ""
  }

  // ---------------------------------------------------------------------------------------
  // The parser
  // ---------------------------------------------------------------------------------------

  /** Length of the longest prefix made of such characters. */
  function Span(text: string, p: char -> bool): (n: nat)
    ensures n <= |text| && All(text[..n], p) && (n < |text| ==> !p(text[n]))
  {
    if text == "" || !p(text[0]) then 0
    else
      assert forall n :: 0 <= n < |text| ==> text[..n + 1] == [text[0]] + text[1..][..n];
      1 + Span(text[1..], p)
  }

  /** What follows an optional mention. */
  function AfterMention(text: string): Option<string> {
    if text == "" || text[0] != '@' then Some(text)
    else
      var n := Span(text[1..], NameChar);
      if 5 <= n <= 32 then Some(text[n + 1..]) else None
  }

  /** The one word that is left, if it is followed by white space only. */
  function Word(text: string): Option<string> {
    var n := Span(text, c => !Space(c));
    if Span(text[n..], Space) == |text| - n then Some(text[..n]) else None
  }

  /** What follows a fixed prefix. */
  function Stripped(text: string, head: string): Option<string> {
    if head <= text then Some(text[|head|..]) else None
  }

  function DirectRest(text: string): Option<string> {
    var n := Span(text, Space);
    if n == |text| then Some("") else if n == 0 then None else Word(text[n..])
  }

  function ParseDirect(text: string, command: Command): Option<string> {
    var mentioned := Stripped(text, "/" + NameOf(command));
    if mentioned.None? then None
    else
      var rest := AfterMention(mentioned.value);
      if rest.None? then None else DirectRest(rest.value)
  }

  function StartRest(text: string, command: Command): Option<string> {
    var n := Span(text, Space);
    var rest := Stripped(text[n..], NameOf(command) + "_");
    if n == 0 || rest.None? || Word(rest.value) == Some("") then None else Word(rest.value)
  }

  function ParseStart(text: string, command: Command): Option<string> {
    var mentioned := Stripped(text, "/start");
    if mentioned.None? then None
    else
      var rest := AfterMention(mentioned.value);
      if rest.None? then None else StartRest(rest.value, command)
  }

  function Judge(command: Command, candidate: string): Content {
    if ValidToken(candidate) then TokenCommand(command, candidate) else InvalidCommand(command)
  }

  function Parse(text: string): Content {
    if ParseDirect(text, Link).Some? then Judge(Link, ParseDirect(text, Link).value)
    else if ParseDirect(text, Unlink).Some? then Judge(Unlink, ParseDirect(text, Unlink).value)
    else if ParseStart(text, Link).Some? then Judge(Link, ParseStart(text, Link).value)
    else if ParseStart(text, Unlink).Some? then Judge(Unlink, ParseStart(text, Unlink).value)
    else Text(text)
  }

  // ---------------------------------------------------------------------------------------
  // The parser decides the grammars
  // ---------------------------------------------------------------------------------------

  lemma {:induction false} SpanIs(a: string, b: string, p: char -> bool)
    requires All(a, p) && (b == "" || !p(b[0]))
    ensures Span(a + b, p) == |a|
    decreases |a|
  {
    if a == "" {
      assert a + b == b;
    } else {
      assert (a + b)[1..] == a[1..] + b;
      assert a[0] in a;
      SpanIs(a[1..], b, p);
    }
  }

  /** A mention followed by something that cannot extend it is found. */
  lemma AfterMentionFinds(mention: string, rest: string)
    requires Mention(mention) && (rest == "" || (!NameChar(rest[0]) && rest[0] != '@'))
    ensures AfterMention(mention + rest) == Some(rest)
  {
    if mention == "" {
      assert mention + rest == rest;
    } else {
      assert (mention + rest)[1..] == mention[1..] + rest;
      SpanIs(mention[1..], rest, NameChar);
    }
  }

  lemma AfterMentionMeans(text: string)
    requires AfterMention(text).Some?
    ensures exists mention :: Mention(mention) && text == mention + AfterMention(text).value
  {
    if text == "" || text[0] != '@' {
      assert Mention("") && text == "" + text;
    } else {
      var n := Span(text[1..], NameChar);
      assert text[..n + 1][1..] == text[1..][..n];
      assert text == text[..n + 1] + text[n + 1..];
      assert Mention(text[..n + 1]);
    }
  }

  lemma WordFinds(word: string, trail: string)
    requires Visible(word) && Spaces(trail)
    ensures Word(word + trail) == Some(word)
  {
    if trail != "" {
      assert trail[0] in trail;
    }
    SpanIs(word, trail, c => !Space(c));
    assert (word + trail)[|word|..] == trail;
    SpanIs(trail, "", Space);
    assert trail + "" == trail;
    assert (word + trail)[..|word|] == word;
  }

  lemma WordMeans(text: string)
    requires Word(text).Some?
    ensures Visible(Word(text).value) && Word(text).value <= text && Spaces(text[|Word(text).value|..])
  {
    var n := Span(text, c => !Space(c));
    assert text[n..][..|text| - n] == text[n..];
  }

  lemma StrippedIff(text: string, head: string, tail: string)
    ensures Stripped(text, head) == Some(tail) <==> text == head + tail
  {
  }

  /** White space and words begin with what they are made of. */
  lemma First(text: string, p: char -> bool)
    requires All(text, p)
    ensures text != "" ==> p(text[0])
  {
    if text != "" {
      assert text[0] in text;
    }
  }

  /** What is left after the mention begins with white space, if it begins at all. */
  lemma RestBegins(gap: string, tail: string)
    requires Spaces(gap) && (gap == "" ==> tail == "" || Space(tail[0]))
    ensures gap + tail == "" || Space((gap + tail)[0])
  {
    First(gap, Space);
  }

  lemma SpacesFound(gap: string, tail: string)
    requires Spaces(gap) && (tail == "" || !Space(tail[0]))
    ensures Span(gap + tail, Space) == |gap| && (gap + tail)[|gap|..] == tail
  {
    SpanIs(gap, tail, Space);
  }

  lemma SpacesMean(text: string)
    ensures var n := Span(text, Space); text == text[..n] + text[n..] && Spaces(text[..n])
  {
  }

  lemma WordIs(text: string, word: string)
    requires Word(text) == Some(word)
    ensures exists trail :: text == word + trail && Visible(word) && Spaces(trail)
  {
    WordMeans(text);
    assert text == word + text[|word|..];
  }

  lemma DirectRestFinds(gap: string, candidate: string, trail: string)
    requires DirectParts("", gap, candidate, trail)
    ensures DirectRest(gap + (candidate + trail)) == Some(candidate)
  {
    if candidate == "" {
      assert gap + (candidate + trail) == trail + "";
      SpacesFound(trail, "");
    } else {
      First(candidate, c => !Space(c));
      SpacesFound(gap, candidate + trail);
      WordFinds(candidate, trail);
    }
  }

  lemma DirectFinds(mention: string, gap: string, candidate: string, trail: string, command: Command)
    requires DirectParts(mention, gap, candidate, trail)
    ensures ParseDirect("/" + NameOf(command) + (mention + (gap + (candidate + trail))), command) == Some(candidate)
  {
    First(trail, Space);
    RestBegins(gap, candidate + trail);
    AfterMentionFinds(mention, gap + (candidate + trail));
    DirectRestFinds(gap, candidate, trail);
    hide Stripped, AfterMention, DirectRest, NameOf;
    var text := "/" + NameOf(command) + (mention + (gap + (candidate + trail)));
    StrippedIff(text, "/" + NameOf(command), mention + (gap + (candidate + trail)));
  }

  lemma DirectRestMeans(rest: string, candidate: string)
    requires DirectRest(rest) == Some(candidate)
    ensures exists gap, trail :: rest == gap + (candidate + trail) && DirectParts("", gap, candidate, trail)
  {
    var n := Span(rest, Space);
    SpacesMean(rest);
    if n == |rest| {
      assert rest == "" + ("" + rest) && rest[..n] == rest;
      assert DirectParts("", "", "", rest);
    } else {
      WordIs(rest[n..], candidate);
      var trail :| rest[n..] == candidate + trail && Visible(candidate) && Spaces(trail);
      First(trail, Space);
      assert DirectParts("", rest[..n], candidate, trail);
    }
  }

  lemma DirectMeans(text: string, command: Command, candidate: string)
    requires ParseDirect(text, command) == Some(candidate)
    ensures Direct(text, command, candidate)
  {
    hide Stripped, AfterMention, DirectRest, NameOf, Spaces, Visible, Mention;
    var mentioned := Stripped(text, "/" + NameOf(command)).value;
    StrippedIff(text, "/" + NameOf(command), mentioned);
    AfterMentionMeans(mentioned);
    var rest := AfterMention(mentioned).value;
    var mention :| Mention(mention) && mentioned == mention + rest;
    DirectRestMeans(rest, candidate);
    var gap, trail :| rest == gap + (candidate + trail) && DirectParts("", gap, candidate, trail);
    assert DirectParts(mention, gap, candidate, trail);
  }

  lemma StartRestFinds(gap: string, candidate: string, trail: string, command: Command)
    requires StartParts("", gap, candidate, trail)
    ensures StartRest(gap + (NameOf(command) + "_" + (candidate + trail)), command) == Some(candidate)
  {
    SpacesFound(gap, NameOf(command) + "_" + (candidate + trail));
    StrippedIff(NameOf(command) + "_" + (candidate + trail), NameOf(command) + "_", candidate + trail);
    WordFinds(candidate, trail);
    hide Span, Word, Stripped, NameOf;
  }

  lemma StartFinds(mention: string, gap: string, candidate: string, trail: string, command: Command)
    requires StartParts(mention, gap, candidate, trail)
    ensures ParseStart("/start" + (mention + (gap + (NameOf(command) + "_" + (candidate + trail)))), command) ==
            Some(candidate)
  {
    RestBegins(gap, NameOf(command) + "_" + (candidate + trail));
    AfterMentionFinds(mention, gap + (NameOf(command) + "_" + (candidate + trail)));
    StartRestFinds(gap, candidate, trail, command);
    hide Stripped, AfterMention, StartRest, NameOf;
    var rest := mention + (gap + (NameOf(command) + "_" + (candidate + trail)));
    StrippedIff("/start" + rest, "/start", rest);
  }

  lemma StartRestMeans(rest: string, command: Command, candidate: string)
    requires StartRest(rest, command) == Some(candidate)
    ensures exists gap, trail ::
              rest == gap + (NameOf(command) + "_" + (candidate + trail)) && StartParts("", gap, candidate, trail)
  {
    var n := Span(rest, Space);
    SpacesMean(rest);
    hide NameOf, Word, Stripped, Span;
    var word := Stripped(rest[n..], NameOf(command) + "_").value;
    StrippedIff(rest[n..], NameOf(command) + "_", word);
    WordIs(word, candidate);
    var trail :| word == candidate + trail && Visible(candidate) && Spaces(trail);
    assert StartParts("", rest[..n], candidate, trail);
  }

  lemma StartMeans(text: string, command: Command, candidate: string)
    requires ParseStart(text, command) == Some(candidate)
    ensures Start(text, command, candidate)
  {
    hide Stripped, AfterMention, StartRest, NameOf, Spaces, Visible, Mention;
    var mentioned := Stripped(text, "/start").value;
    StrippedIff(text, "/start", mentioned);
    AfterMentionMeans(mentioned);
    var rest := AfterMention(mentioned).value;
    var mention :| Mention(mention) && mentioned == mention + rest;
    StartRestMeans(rest, command, candidate);
    var gap, trail :| rest == gap + (NameOf(command) + "_" + (candidate + trail)) &&
      StartParts("", gap, candidate, trail);
    assert StartParts(mention, gap, candidate, trail);
  }

  lemma DirectIff(text: string, command: Command, candidate: string)
    ensures ParseDirect(text, command) == Some(candidate) <==> Direct(text, command, candidate)
  {
    hide ParseDirect, NameOf;
    if ParseDirect(text, command) == Some(candidate) {
      DirectMeans(text, command, candidate);
    }
    if Direct(text, command, candidate) {
      var mention, gap, trail :|
        text == "/" + NameOf(command) + (mention + (gap + (candidate + trail))) &&
          DirectParts(mention, gap, candidate, trail);
      DirectFinds(mention, gap, candidate, trail, command);
    }
  }

  lemma StartIff(text: string, command: Command, candidate: string)
    ensures ParseStart(text, command) == Some(candidate) <==> Start(text, command, candidate)
  {
    hide ParseStart, NameOf;
    if ParseStart(text, command) == Some(candidate) {
      StartMeans(text, command, candidate);
    }
    if Start(text, command, candidate) {
      var mention, gap, trail :|
        text == "/start" + (mention + (gap + (NameOf(command) + "_" + (candidate + trail)))) &&
        StartParts(mention, gap, candidate, trail);
      StartFinds(mention, gap, candidate, trail, command);
    }
  }

  /** Only one of the four forms can match a text. */
  lemma FormsExclude(text: string, command: Command)
    ensures ParseDirect(text, Link).Some? ==> ParseDirect(text, Unlink).None?
    ensures ParseDirect(text, command).Some? ==> ParseStart(text, Link).None? && ParseStart(text, Unlink).None?
    ensures ParseStart(text, Link).Some? ==> ParseStart(text, Unlink).None?
  {
    hide AfterMention, DirectRest, Word;
    StrippedSecond(text, "/link");
    StrippedSecond(text, "/unlink");
    StrippedSecond(text, "/start");
    if ParseStart(text, Link).Some? {
      var rest := AfterMention(Stripped(text, "/start").value).value;
      StartsDiffer(rest);
    }
  }

  lemma StrippedSecond(text: string, head: string)
    requires |head| >= 2
    ensures Stripped(text, head).Some? ==> |text| >= 2 && text[1] == head[1]
  {
  }

  lemma StartsDiffer(rest: string)
    requires StartRest(rest, Link).Some?
    ensures StartRest(rest, Unlink).None?
  {
    var n := Span(rest, Space);
    assert rest[n..][0] == 'l';
    assert "unlink_"[0] == 'u';
  }

  ghost predicate Matches(text: string, command: Command, candidate: string) {
    Direct(text, command, candidate) || Start(text, command, candidate)
  }

  /** The parser returns the purpose and token of exactly the texts that spell them, rejects exactly
      the commands without a well-formed token, and leaves every other text alone. */
  lemma ParseDecides(text: string, command: Command, token: string)
    ensures Parse(text) == TokenCommand(command, token) <==> Matches(text, command, token) && ValidToken(token)
    ensures Parse(text) == InvalidCommand(command) <==>
            exists candidate :: Matches(text, command, candidate) && !ValidToken(candidate)
    ensures Parse(text) == Text(text) <==> forall c, candidate :: !Matches(text, c, candidate)
  {
    hide ParseDirect, ParseStart, Direct, Start, ValidToken;
    forall c: Command, candidate: string
      ensures Matches(text, c, candidate) <==>
              ParseDirect(text, c) == Some(candidate) || ParseStart(text, c) == Some(candidate)
    {
      DirectIff(text, c, candidate);
      StartIff(text, c, candidate);
    }
    FormsExclude(text, Link);
    FormsExclude(text, Unlink);
    var parsed :=
      if ParseDirect(text, command).Some? then ParseDirect(text, command).value
      else if ParseStart(text, command).Some? then ParseStart(text, command).value
      else token;
    assert Parse(text) == InvalidCommand(command) ==> Matches(text, command, parsed) && !ValidToken(parsed);
    forall c, candidate | Matches(text, c, candidate) ensures Parse(text) != Text(text) {
      assert c == Link || c == Unlink;
    }
    if Parse(text) != Text(text) {
      var c := if ParseDirect(text, Link).Some? ||
        (ParseDirect(text, Unlink).None? && ParseStart(text, Link).Some?) then Link else Unlink;
      assert Matches(text, c,
                     if ParseDirect(text, c).Some? then ParseDirect(text, c).value else ParseStart(text, c).value);
    }
  }

  /** A well-formed token is any spelling of 32 bytes, and nothing else: what is checked before a challenge is
      looked up is that the decoder would accept it. */
  lemma TokensSpellBytes(token: string)
    ensures ValidToken(token) <==> DecodeBase64Url(token).Some? && |DecodeBase64Url(token).value| == 32
  {
    ValuesExist(token);
    if Values(token).Some? {
      BytesCount(Values(token).value);
    }
  }

  lemma {:induction false} ValuesExist(text: string)
    ensures Values(text).Some? <==> All(text, AlphabetChar)
    ensures Values(text).Some? ==> |Values(text).value| == |text|
    decreases |text|
  {
    if text != "" {
      assert ValueOf(text[0]).Some? <==> AlphabetChar(text[0]);
      assert All(text, AlphabetChar) <==> AlphabetChar(text[0]) && All(text[1..], AlphabetChar) by {
        assert text == [text[0]] + text[1..];
      }
      ValuesExist(text[1..]);
    }
  }

  lemma {:induction false} BytesCount(sextets: seq<Sextet>)
    ensures Bytes(sextets).Some? <==> |sextets| % 4 != 1
    ensures Bytes(sextets).Some? ==>
              |Bytes(sextets).value| == 3 * (|sextets| / 4) + (if |sextets| % 4 == 0 then 0 else |sextets| % 4 - 1)
    decreases |sextets|
  {
    if |sextets| >= 4 {
      BytesCount(sextets[4..]);
    }
  }

  // ---------------------------------------------------------------------------------------
  // Deep links
  // ---------------------------------------------------------------------------------------

  /** Characters that the application/x-www-form-urlencoded serializer leaves alone. */
  predicate FormSafe(c: char) {
    NameChar(c) || c == '*' || c == '-' || c == '.'
  }

  function Hex(n: int): char
    requires 0 <= n < 16
  {
    if n < 10 then '0' + n as char else 'A' + (n - 10) as char
  }

  function Percent(bytes: seq<int>): string
    requires forall b :: b in bytes ==> 0 <= b < 256
  {
    if bytes == [] then ""
    else
      assert bytes[0] in bytes && forall b :: b in bytes[1..] ==> b in bytes;
      ['%', Hex(bytes[0] / 16), Hex(bytes[0] % 16)] + Percent(bytes[1..])
  }

  function FormEncode(text: string): string {
    if text == "" then ""
    else
      (if FormSafe(text[0]) then [text[0]] else if text[0] == ' ' then "+" else Percent(Utf8Encode(text[0]))) +
      FormEncode(text[1..])
  }

  function StartParameter(purpose: Command, token: string): string {
    NameOf(purpose) + "_" + token
  }

  function DeepLink(bot: string, purpose: Command, token: string): string {
    "https://t.me/" + bot + "?start=" + FormEncode(StartParameter(purpose, token))
  }

  lemma {:induction false} SafeTextIsKept(text: string)
    requires All(text, FormSafe)
    ensures FormEncode(text) == text
    decreases |text|
  {
    if text != "" {
      assert text[0] in text;
      SafeTextIsKept(text[1..]);
    }
  }

  /** A token survives the whole journey: the deep link carries the start parameter unescaped, and
      both the message Telegram sends for it and the typed command parse to the same purpose and
      token, which decodes to the random bytes it was made from. */
  lemma TokenSurvives(bytes: seq<Byte>, purpose: Command, bot: string)
    requires |bytes| == 32
    ensures var token := EncodeBase64Url(bytes);
            && DeepLink(bot, purpose, token) == "https://t.me/" + bot + "?start=" + StartParameter(purpose, token)
            && Parse("/start" + " " + StartParameter(purpose, token)) == TokenCommand(purpose, token)
            && Parse("/" + NameOf(purpose) + " " + token) == TokenCommand(purpose, token)
            && DecodeBase64Url(token) == Some(bytes)
  {
    var token := EncodeBase64Url(bytes);
    TokenRoundTrip(bytes);
    hide EncodeBase64Url, DecodeBase64Url;
    forall c | c in StartParameter(purpose, token) ensures FormSafe(c) {
      assert c in NameOf(purpose) || c == '_' || c in token;
    }
    SafeTextIsKept(StartParameter(purpose, token));
    assert Visible(token);
    assert DirectParts("", " ", token, "") && StartParts("", " ", token, "");
    hide FormEncode;
    TokenMatches(purpose, token);
    ParseDecides("/start" + " " + StartParameter(purpose, token), purpose, token);
    ParseDecides("/" + NameOf(purpose) + " " + token, purpose, token);
  }

  lemma TokenMatches(purpose: Command, token: string)
    requires DirectParts("", " ", token, "") && StartParts("", " ", token, "")
    ensures Direct("/" + NameOf(purpose) + " " + token, purpose, token)
    ensures Start("/start" + " " + StartParameter(purpose, token), purpose, token)
  {
    hide DirectParts, StartParts;
    assert "" + (" " + (token + "")) == " " + token;
    assert "/" + NameOf(purpose) + ("" + (" " + (token + ""))) == "/" + NameOf(purpose) + " " + token;
    var parameter := StartParameter(purpose, token);
    assert NameOf(purpose) + "_" + (token + "") == parameter;
    assert "/start" + ("" + (" " + (NameOf(purpose) + "_" + (token + "")))) == "/start" + " " + parameter;
  }
}
