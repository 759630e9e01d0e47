/** Signed component ids (crates/pepeaudio-bot/src/component_id.rs): printed, parsed and
    authenticated, with only the message authentication code left abstract. */
module ComponentId {
  import opened Options
  import B = Base64Url
  import H = HexNumber

  const PREFIX := "pa1"
  const TAG_BYTES := 10
  const MAXIMUM := 100
  const U64_MAX := 0xFFFF_FFFF_FFFF_FFFF

  type Key = k: seq<B.Byte> | |k| >= 32 witness seq(32, _ => 0)
  type Digest = d: seq<B.Byte> | |d| == 32 witness seq(32, _ => 0)
  type Word = n: nat | n <= 0xFFFF_FFFF_FFFF_FFFF

  /** The code of a message under a key: some function, and nothing more is used of it. */
  type Hmac = (seq<B.Byte>, string) -> Digest

  datatype Action = PlayPause | Previous | Skip | Stop | Repeat | Shuffle | Spatial | Volume | Hrir

  datatype Decoded = Decoded(action: Action, guild: Word, revision: Word)

  datatype Error = TooLong | Malformed | UnsupportedVersion | UnknownAction | BadSignature

  datatype Result<+T> = Ok(value: T) | Err(error: Error)

  function Code(a: Action): (code: char)
    ensures code != '.' && code as int < 128
  {
    match a
    case PlayPause => 'p'
    case Previous => 'b'
    case Skip => 'n'
    case Stop => 'x'
    case Repeat => 'r'
    case Shuffle => 's'
    case Spatial => 'a'
    case Volume => 'v'
    case Hrir => 'h'
  }

  function ParseAction(text: string): Option<Action> {
    if text == "p" then Some(PlayPause)
    else if text == "b" then Some(Previous)
    else if text == "n" then Some(Skip)
    else if text == "x" then Some(Stop)
    else if text == "r" then Some(Repeat)
    else if text == "s" then Some(Shuffle)
    else if text == "a" then Some(Spatial)
    else if text == "v" then Some(Volume)
    else if text == "h" then Some(Hrir)
    else None
  }

  // ---------------------------------------------------------------- texts and fields

  function Utf8Length(text: string): nat {
    if text == "" then 0 else Utf8Length(text[1..]) + CharLength(text[0])
  }

  function CharLength(c: char): nat {
    if c as int < 0x80 then 1 else if c as int < 0x800 then 2 else if c as int < 0x1_0000 then 3 else 4
  }

  function Join(fields: seq<string>): string
    requires fields != []
  {
    if |fields| == 1 then fields[0] else fields[0] + "." + Join(fields[1..])
  }

  /** Where the first dot is, or the end. */
  function FirstDot(text: string): (i: nat)
    ensures i <= |text| && (i < |text| ==> text[i] == '.') && forall j :: 0 <= j < i ==> text[j] != '.'
  {
    if text == "" || text[0] == '.' then 0 else FirstDot(text[1..]) + 1
  }

  function Split(text: string): (fields: seq<string>)
    ensures fields != []
    decreases |text|
  {
    var i := FirstDot(text);
    if i == |text| then [text] else [text[..i]] + Split(text[i + 1..])
  }

  /** Where the last dot is, counted from one; nought if there is none. */
  function LastDot(text: string): (i: nat)
    ensures i <= |text| && (i > 0 ==> text[i - 1] == '.') && forall j :: i <= j < |text| ==> text[j] != '.'
  {
    if text == "" then 0
    else if text[|text| - 1] == '.' then |text|
    else LastDot(text[..|text| - 1])
  }

  predicate Dotless(text: string) {
    forall i :: 0 <= i < |text| ==> text[i] != '.'
  }

  predicate Ascii(text: string) {
    forall i :: 0 <= i < |text| ==> text[i] as int < 128
  }

  // ---------------------------------------------------------------- printing and parsing

  function Tag(hmac: Hmac, key: Key, body: string): (tag: seq<B.Byte>)
    ensures |tag| == TAG_BYTES
  {
    hmac(key, body)[..TAG_BYTES]
  }

  function Fields(a: Action, guild: Word, revision: Word): seq<string> {
    [PREFIX, [Code(a)], H.Print(guild), H.Print(revision)]
  }

  function Encode(hmac: Hmac, key: Key, a: Action, guild: Word, revision: Word): string {
    var body := Join(Fields(a, guild, revision));
    body + "." + B.Encode(Tag(hmac, key, body))
  }

  function ParseFields(fields: seq<string>): Result<Decoded> {
    if |fields| != 4 then Err(Malformed)
    else if fields[0] != PREFIX then Err(UnsupportedVersion)
    else
      var action := ParseAction(fields[1]);
      if action.None? then Err(UnknownAction)
      else
        var guild, revision := H.Parse(fields[2]), H.Parse(fields[3]);
        if guild.None? || guild.value == 0 || revision.None? then Err(Malformed)
        else Ok(Decoded(action.value, guild.value, revision.value))
  }

  function Decode(hmac: Hmac, key: Key, text: string): Result<Decoded> {
    if Utf8Length(text) > MAXIMUM then Err(TooLong)
    else
      var dot := LastDot(text);
      if dot == 0 then Err(Malformed)
      else
        var body, tag := text[..dot - 1], B.Decode(text[dot..]);
        if tag.None? || |tag.value| != TAG_BYTES then Err(Malformed)
        else if tag.value != Tag(hmac, key, body) then Err(BadSignature)
        else ParseFields(Split(body))
  }

  // ---------------------------------------------------------------- lemmas about texts

  /** How many bytes a character takes in UTF-8 (section 3 of RFC 3629). */
  lemma CharLengthIs(c: char)
    ensures CharLength(c) <= 1 <==> c as int < 0x80
    ensures CharLength(c) <= 2 <==> c as int < 0x800
    ensures CharLength(c) <= 3 <==> c as int < 0x1_0000
    ensures 1 <= CharLength(c) <= 4
  {
  }

  lemma {:induction false} LengthsAdd(a: string, b: string)
    ensures Utf8Length(a + b) == Utf8Length(a) + Utf8Length(b)
  {
    if a == "" {
      assert a + b == b;
    } else {
      LengthsAdd(a[1..], b);
      assert (a + b)[1..] == a[1..] + b;
    }
  }

  lemma ActionRoundTrip(a: Action, text: string)
    ensures ParseAction([Code(a)]) == Some(a)
    ensures ParseAction(text).Some? ==> text == [Code(ParseAction(text).value)]
  {
  }

  lemma {:induction false} AsciiLength(text: string)
    requires Ascii(text)
    ensures Utf8Length(text) == |text|
  {
    if text != "" {
      AsciiLength(text[1..]);
    }
  }

  lemma FirstDotAt(field: string, rest: string)
    requires Dotless(field)
    ensures FirstDot(field + "." + rest) == |field|
  {
    var text := field + "." + rest;
    assert text[|field|] == '.';
    assert forall j :: 0 <= j < |field| ==> text[j] == field[j];
  }

  lemma {:induction false} SplitInvertsJoin(fields: seq<string>)
    requires fields != [] && forall k :: 0 <= k < |fields| ==> Dotless(fields[k])
    ensures Split(Join(fields)) == fields
  {
    if |fields| == 1 {
      assert FirstDot(fields[0]) == |fields[0]|;
    } else {
      var rest := Join(fields[1..]);
      FirstDotAt(fields[0], rest);
      var text := Join(fields);
      assert text[..|fields[0]|] == fields[0];
      assert text[|fields[0]| + 1..] == rest;
      SplitInvertsJoin(fields[1..]);
    }
  }

  lemma JoinCons(head: string, tail: seq<string>)
    requires tail != []
    ensures Join([head] + tail) == head + "." + Join(tail)
  {
    assert ([head] + tail)[1..] == tail;
  }

  lemma {:induction false} JoinInvertsSplit(text: string)
    ensures Join(Split(text)) == text
    decreases |text|
  {
    hide FirstDot;
    var i := FirstDot(text);
    if i < |text| {
      var rest := text[i + 1..];
      JoinInvertsSplit(rest);
      JoinCons(text[..i], Split(rest));
      hide Join;
      assert text == text[..i] + "." + rest;
    }
  }

  lemma {:induction false} LastDotAt(body: string, tag: string)
    requires Dotless(tag)
    ensures LastDot(body + "." + tag) == |body| + 1
  {
    var text := body + "." + tag;
    assert text[|body|] == '.';
    assert forall j :: |body| + 1 <= j < |text| ==> text[j] == tag[j - (|body| + 1)];
  }

  lemma PrintedIsPlain(n: Word)
    ensures Dotless(H.Print(n)) && Ascii(H.Print(n)) && |H.Print(n)| <= 16
  {
    H.PrintFitsSixteen(n);
    forall i | 0 <= i < |H.Print(n)|
      ensures H.Print(n)[i] != '.' && H.Print(n)[i] as int < 128
    {
      assert H.IsLower(H.Print(n)[i]);
    }
  }

  lemma JoinFour(f: seq<string>)
    requires |f| == 4
    ensures Join(f) == f[0] + "." + (f[1] + "." + (f[2] + "." + f[3]))
  {
    assert f[1..][1..] == f[2..] && f[2..][1..] == [f[3]];
    assert Join(f[2..]) == f[2] + "." + Join([f[3]]);
    assert Join(f[1..]) == f[1] + "." + Join(f[2..]);
  }

  lemma BodyIsPlain(a: Action, guild: Word, revision: Word)
    ensures var body := Join(Fields(a, guild, revision));
      Ascii(body) && |body| <= 39 && Split(body) == Fields(a, guild, revision)
  {
    var fields := Fields(a, guild, revision);
    PrintedIsPlain(guild);
    PrintedIsPlain(revision);
    hide Join, Split, H.Print;
    JoinFour(fields);
    SplitInvertsJoin(fields);
  }

  // ---------------------------------------------------------------- the promises

  /** A dot and a tag can be taken off again. */
  lemma PartsAreUnique(body: string, bytes: seq<B.Byte>)
    ensures var text := body + "." + B.Encode(bytes);
      && LastDot(text) == |body| + 1 && text[..|body|] == body && text[|body| + 1..] == B.Encode(bytes)
      && B.Decode(text[|body| + 1..]) == Some(bytes)
  {
    B.EncodeIsSymbols(bytes);
    B.DecodeInvertsEncode(bytes);
    LastDotAt(body, B.Encode(bytes));
    var text := body + "." + B.Encode(bytes);
    assert text[..|body|] == body && text[|body| + 1..] == B.Encode(bytes);
  }

  /** Every id fits, with room to spare: 54 bytes at most. */
  lemma EncodeIsShort(hmac: Hmac, key: Key, a: Action, guild: Word, revision: Word)
    ensures Utf8Length(Encode(hmac, key, a, guild, revision)) <= 54
  {
    var body := Join(Fields(a, guild, revision));
    BodyIsPlain(a, guild, revision);
    B.EncodeIsSymbols(Tag(hmac, key, body));
    AsciiLength(Encode(hmac, key, a, guild, revision));
  }

  /** What was encoded is decoded, for every action, non-zero guild and revision. */
  lemma DecodeInvertsEncode(hmac: Hmac, key: Key, a: Action, guild: Word, revision: Word)
    requires guild != 0
    ensures Decode(hmac, key, Encode(hmac, key, a, guild, revision)) == Ok(Decoded(a, guild, revision))
  {
    var body := Join(Fields(a, guild, revision));
    EncodeIsShort(hmac, key, a, guild, revision);
    BodyIsPlain(a, guild, revision);
    ActionRoundTrip(a, "");
    H.ParseInvertsPrint(guild);
    H.ParseInvertsPrint(revision);
    hide Join, Split, B.Encode, B.Decode, LastDot, Utf8Length, H.Print, H.Parse, ParseAction, Code, Tag;
    PartsAreUnique(body, Tag(hmac, key, body));
  }

  /** Different components never share an id. */
  lemma EncodeIsInjective(hmac: Hmac, key: Key, x: Decoded, y: Decoded)
    requires x.guild != 0 && y.guild != 0
    requires Encode(hmac, key, x.action, x.guild, x.revision) == Encode(hmac, key, y.action, y.guild, y.revision)
    ensures x == y
  {
    DecodeInvertsEncode(hmac, key, x.action, x.guild, x.revision);
    DecodeInvertsEncode(hmac, key, y.action, y.guild, y.revision);
  }

  /** The parts of an accepted id. */
  lemma AcceptedParts(hmac: Hmac, key: Key, text: string) returns (body: string)
    requires Decode(hmac, key, text).Ok?
    ensures LastDot(text) > 0 && body == text[..LastDot(text) - 1]
    ensures text == body + "." + B.Encode(Tag(hmac, key, body))
    ensures ParseFields(Split(body)) == Decode(hmac, key, text) && Utf8Length(text) <= MAXIMUM
  {
    var dot := LastDot(text);
    body := text[..dot - 1];
    B.EncodeInvertsDecode(text[dot..]);
    assert text == body + "." + text[dot..];
  }

  /** Exactly what is accepted: a body of four good fields, a dot, and the one spelling of the
      body's own tag, in at most 100 bytes. */
  lemma AcceptedIff(hmac: Hmac, key: Key, text: string, d: Decoded)
    ensures Decode(hmac, key, text) == Ok(d) <==>
            Utf8Length(text) <= MAXIMUM &&
            (exists body :: text == body + "." + B.Encode(Tag(hmac, key, body)) && ParseFields(Split(body)) == Ok(d))
  {
    if Decode(hmac, key, text) == Ok(d) {
      var body := AcceptedParts(hmac, key, text);
    }
    forall body | text == body + "." + B.Encode(Tag(hmac, key, body)) && ParseFields(Split(body)) == Ok(d)
      && Utf8Length(text) <= MAXIMUM
      ensures Decode(hmac, key, text) == Ok(d)
    {
      hide LastDot, Split, ParseFields, B.Encode, B.Decode, Utf8Length;
      PartsAreUnique(body, Tag(hmac, key, body));
    }
  }

  // ---------------------------------------------------------------- what the signature binds

  /** A text of the right shape: some body, a dot, and ten bytes. */
  ghost predicate Shaped(text: string) {
    exists body, code: seq<B.Byte> :: |code| == 10 && text == body + "." + B.Encode(code)
  }

  /** A body under ten bytes is refused for its signature exactly if these are not the first
      ten of its own code under this key. */
  lemma SignatureIff(hmac: Hmac, key: Key, body: string, code: seq<B.Byte>)
    requires |code| == 10 && Utf8Length(body + "." + B.Encode(code)) <= 100
    ensures Decode(hmac, key, body + "." + B.Encode(code)) == Err(BadSignature) <==> code != hmac(key, body)[..10]
    ensures code == hmac(key, body)[..10] ==>
      Decode(hmac, key, body + "." + B.Encode(code)) == ParseFields(Split(body))
  {
    hide LastDot, Split, B.Encode, B.Decode, Utf8Length, H.Parse, ParseAction;
    PartsAreUnique(body, code);
  }

  /** Tampering is noticed: another body under an old tag, unless the two codes begin alike. */
  lemma TamperingIsNoticed(hmac: Hmac, key: Key, body: string, other: string)
    requires hmac(key, other)[..10] != hmac(key, body)[..10]
    requires Utf8Length(other + "." + B.Encode(hmac(key, body)[..10])) <= 100
    ensures Decode(hmac, key, other + "." + B.Encode(hmac(key, body)[..10])) == Err(BadSignature)
  {
    hide Decode, Utf8Length, B.Encode, Split, ParseFields;
    SignatureIff(hmac, key, other, hmac(key, body)[..10]);
  }

  /** And so is an id made under another key. */
  lemma OtherKeysAreNoticed(hmac: Hmac, key: Key, other: Key, a: Action, guild: Word, revision: Word)
    requires var body := Join(Fields(a, guild, revision)); hmac(key, body)[..10] != hmac(other, body)[..10]
    ensures Decode(hmac, key, Encode(hmac, other, a, guild, revision)) == Err(BadSignature)
  {
    var body := Join(Fields(a, guild, revision));
    EncodeIsShort(hmac, other, a, guild, revision);
    hide Decode, Utf8Length, B.Encode, Split, ParseFields, Fields, Join;
    SignatureIff(hmac, key, body, hmac(other, body)[..10]);
  }

  /** Nothing is accepted that is not signed: whatever is decoded ends in its own body's code. */
  lemma AcceptedIsSigned(hmac: Hmac, key: Key, text: string)
    requires Decode(hmac, key, text).Ok?
    ensures exists body :: text == body + "." + B.Encode(hmac(key, body)[..10])
  {
    var body := AcceptedParts(hmac, key, text);
    hide Decode, B.Encode;
  }

  // ---------------------------------------------------------------- what is printed, and what is refused

  /** The letter of each action. */
  const LETTERS := [('p', PlayPause), ('b', Previous), ('n', Skip), ('x', Stop), ('r', Repeat), ('s', Shuffle),
    ('a', Spatial), ('v', Volume), ('h', Hrir)]

  lemma CodeIsLetter(a: Action)
    ensures (Code(a), a) in LETTERS
  {
  }

  /** The text of an id: version, letter, guild and revision in hexadecimal, and the code. */
  lemma EncodeIs(hmac: Hmac, key: Key, a: Action, guild: Word, revision: Word)
    ensures var body := "pa1." + ([Code(a)] + ("." + (H.Print(guild) + ("." + H.Print(revision)))));
      Encode(hmac, key, a, guild, revision) == body + "." + B.Encode(hmac(key, body)[..10])
  {
    hide B.Encode, H.Print, Join, Code;
    JoinFour(Fields(a, guild, revision));
    var body := "pa1." + ([Code(a)] + ("." + (H.Print(guild) + ("." + H.Print(revision)))));
    assert Join(Fields(a, guild, revision)) == body;
  }

  /** Why a signed body is refused. */
  lemma FieldsRefused(text: string)
    ensures var fields, r := Split(text), ParseFields(Split(text));
      && (r == Err(UnsupportedVersion) <==> |fields| == 4 && fields[0] != "pa1")
      && (r == Err(UnknownAction) <==>
            |fields| == 4 && fields[0] == "pa1" && forall a: Action :: fields[1] != [Code(a)])
      && (r.Ok? <==>
            && |fields| == 4 && fields[0] == "pa1" && (exists a: Action :: fields[1] == [Code(a)])
            && H.Parse(fields[2]).Some? && H.Parse(fields[2]).value > 0 && H.Parse(fields[3]).Some?)
      && (r.Err? ==> r.error.UnsupportedVersion? || r.error.UnknownAction? || r.error.Malformed?)
  {
    hide Split, H.Parse, ParseAction, Code;
    var fields := Split(text);
    if |fields| == 4 {
      forall a: Action
        ensures ParseAction([Code(a)]) == Some(a)
      {
        ActionRoundTrip(a, "");
      }
      ActionRoundTrip(Stop, fields[1]);
    }
  }

  /** Why a text is refused before its signature is looked at. */
  lemma TextRefused(hmac: Hmac, key: Key, text: string)
    ensures Decode(hmac, key, text) == Err(TooLong) <==> Utf8Length(text) > 100
    ensures Utf8Length(text) <= 100 && !Shaped(text) ==> Decode(hmac, key, text) == Err(Malformed)
  {
    hide Split, H.Parse, ParseAction, B.Encode, B.Decode, Utf8Length;
    var dot := LastDot(text);
    if dot > 0 && B.Decode(text[dot..]).Some? && |B.Decode(text[dot..]).value| == 10 {
      var code := B.Decode(text[dot..]).value;
      B.EncodeInvertsDecode(text[dot..]);
      assert text == text[..dot - 1] + "." + B.Encode(code);
      assert Shaped(text);
    }
  }

  /** The guild and revision fields of an id's body. */
  predicate CanonicalFields(text: string) {
    var dot := LastDot(text);
    dot > 0 &&
    (var fields := Split(text[..dot - 1]);
     |fields| == 4 && H.Canonical(fields[2]) && H.Canonical(fields[3]))
  }

  /** Numbers are read more loosely than they are printed, so an accepted id is the encoder's
      own exactly when both its numbers are spelled as printed. */
  lemma EncodeInvertsDecodeIff(hmac: Hmac, key: Key, text: string)
    requires Decode(hmac, key, text).Ok?
    ensures var d := Decode(hmac, key, text).value;
      Encode(hmac, key, d.action, d.guild, d.revision) == text <==> CanonicalFields(text)
  {
    hide LastDot, B.Encode, Join, Split, H.Parse, H.Canonical, H.Print, Code, ParseAction;
    var d := Decode(hmac, key, text).value;
    var body := AcceptedParts(hmac, key, text);
    hide Decode;
    var printed := Fields(d.action, d.guild, d.revision);
    FieldsIff(body, d);
    if Encode(hmac, key, d.action, d.guild, d.revision) == text {
      PartsAreUnique(Join(printed), Tag(hmac, key, Join(printed)));
      PartsAreUnique(body, Tag(hmac, key, body));
    }
  }

  /** A parsed body is the printed one exactly when its numbers are canonical. */
  lemma FieldsIff(body: string, d: Decoded)
    requires ParseFields(Split(body)) == Ok(d)
    ensures Join(Fields(d.action, d.guild, d.revision)) == body <==>
            H.Canonical(Split(body)[2]) && H.Canonical(Split(body)[3])
  {
    hide H.Parse, H.Canonical, H.Print, Split, Join, Code, ParseAction;
    var fields := Split(body);
    ActionRoundTrip(d.action, fields[1]);
    JoinInvertsSplit(body);
    H.PrintInvertsParseIff(fields[2]);
    H.PrintInvertsParseIff(fields[3]);
    BodyIsPlain(d.action, d.guild, d.revision);
    assert fields == [fields[0], fields[1], fields[2], fields[3]];
  }

  const LOOSE := ["pa1", "x", "A", "+2"]

  lemma LooseSplits()
    ensures Split(Join(LOOSE)) == LOOSE && |Join(LOOSE)| == 10 && Ascii(Join(LOOSE))
  {
    hide Join, Split;
    JoinFour(LOOSE);
    SplitInvertsJoin(LOOSE);
  }

  lemma LooseNumbers()
    ensures H.Parse("A") == Some(10) && H.Parse("+2") == Some(2) && !H.Canonical("A")
  {
    assert H.ParseDigits("A"[..0]) == Some(0);
    assert "+2"[1..] == "2" && H.ParseDigits("2"[..0]) == Some(0);
    assert !H.IsLower("A"[0]);
  }

  lemma LooseParses()
    ensures ParseFields(LOOSE) == Ok(Decoded(Stop, 10, 2)) && !H.Canonical(LOOSE[2])
  {
    LooseNumbers();
    hide H.Parse, H.Canonical;
  }

  lemma LooseIsShort(tag: seq<B.Byte>)
    requires |tag| == TAG_BYTES
    ensures Utf8Length(Join(LOOSE) + "." + B.Encode(tag)) <= MAXIMUM
  {
    LooseSplits();
    B.EncodeIsSymbols(tag);
    hide Join, B.Encode, Split;
    AsciiLength(Join(LOOSE) + "." + B.Encode(tag));
  }

  /** Such a looser id exists under every key: capital digits and a plus sign are taken too. */
  lemma LooseSpellingIsAccepted(hmac: Hmac, key: Key)
    ensures exists text :: Decode(hmac, key, text) == Ok(Decoded(Stop, 10, 2)) && text != Encode(hmac, key, Stop, 10, 2)
  {
    hide Utf8Length, Split, Join, ParseFields, Tag, H.Canonical, Decode, Encode, LastDot, B.Encode, B.Decode;
    var body := Join(LOOSE);
    var tag := Tag(hmac, key, body);
    var text := body + "." + B.Encode(tag);
    LooseSplits();
    LooseParses();
    LooseIsShort(tag);
    AcceptedIff(hmac, key, text, Decoded(Stop, 10, 2));
    EncodeInvertsDecodeIff(hmac, key, text);
    PartsAreUnique(body, tag);
  }
}
