/** base64url without padding (section 5 of RFC 4648), as strict as the decoder the bot uses:
    no padding, no foreign character, and no bits left over. */
module Base64Url {
  import opened Options
  import opened Sequences

  type Byte = n: nat | n < 256

  function Symbol(v: nat): (c: char)
    requires v < 64
    ensures Value(c) == Some(v) && c != '.' && c as int < 128
  {
    if v < 26 then ('A' as int + v) as char
    else if v < 52 then ('a' as int + (v - 26)) as char
    else if v < 62 then ('0' as int + (v - 52)) as char
    else if v == 62 then '-' else '_'
  }

  function Value(c: char): (v: Option<nat>)
    ensures v.Some? ==> v.value < 64
  {
    if 'A' <= c <= 'Z' then Some(c as int - 'A' as int)
    else if 'a' <= c <= 'z' then Some(c as int - 'a' as int + 26)
    else if '0' <= c <= '9' then Some(c as int - '0' as int + 52)
    else if c == '-' then Some(62)
    else if c == '_' then Some(63)
    else None
  }

  /** The URL-safe alphabet, in its order. */
  lemma SymbolIsAlphabet(v: nat)
    requires v < 64
    ensures v < 26 ==> Symbol(v) == "ABCDEFGHIJKLMNOPQRSTUVWXYZ"[v]
    ensures 26 <= v < 52 ==> Symbol(v) == "abcdefghijklmnopqrstuvwxyz"[v - 26]
    ensures 52 <= v ==> Symbol(v) == "0123456789-_"[v - 52]
  {
  }

  /** Each symbol stands for one value only. */
  lemma SymbolOfValue(c: char)
    requires Value(c).Some?
    ensures Symbol(Value(c).value) == c
  {
  }

  // Three bytes are four symbols; one or two bytes at the end are two or three.

  function Encode(bytes: seq<Byte>): string {
    if |bytes| == 0 then ""
    else if |bytes| == 1 then [Symbol(bytes[0] / 4), Symbol(bytes[0] % 4 * 16)]
    else if |bytes| == 2 then
      [Symbol(bytes[0] / 4), Symbol(bytes[0] % 4 * 16 + bytes[1] / 16), Symbol(bytes[1] % 16 * 4)]
    else
      [Symbol(bytes[0] / 4), Symbol(bytes[0] % 4 * 16 + bytes[1] / 16),
       Symbol(bytes[1] % 16 * 4 + bytes[2] / 64), Symbol(bytes[2] % 64)] + Encode(bytes[3..])
  }

  predicate AllSymbols(text: string) {
    forall i :: 0 <= i < |text| ==> Value(text[i]).Some?
  }

  function Decode(text: string): Option<seq<Byte>> {
    if !AllSymbols(text) then None else DecodeSymbols(text)
  }

  function DecodeSymbols(text: string): Option<seq<Byte>>
    requires AllSymbols(text)
  {
    if |text| == 0 then Some([])
    else if |text| == 1 then None
    else
      var a, b := Value(text[0]).value, Value(text[1]).value;
      if |text| == 2 then
        if b % 16 == 0 then Some([a * 4 + b / 16]) else None
      else
        var c := Value(text[2]).value;
        if |text| == 3 then
          if c % 4 == 0 then Some([a * 4 + b / 16, b % 16 * 16 + c / 4]) else None
        else
          var d, rest := Value(text[3]).value, DecodeSymbols(text[4..]);
          if rest.None? then None
          else Some([a * 4 + b / 16, b % 16 * 16 + c / 4, c % 4 * 64 + d] + rest.value)
  }

  lemma {:induction false} EncodeIsSymbols(bytes: seq<Byte>)
    ensures AllSymbols(Encode(bytes))
      && (forall i :: 0 <= i < |Encode(bytes)| ==> Encode(bytes)[i] != '.' && Encode(bytes)[i] as int < 128)
    ensures |Encode(bytes)| == (4 * |bytes| + 2) / 3
  {
    if |bytes| >= 3 {
      EncodeIsSymbols(bytes[3..]);
    }
  }

  /** The bits of three bytes, dealt out and collected again. */
  lemma Regroup(x: Byte, y: Byte, z: Byte)
    ensures x / 4 * 4 + (x % 4 * 16 + y / 16) / 16 == x
    ensures (x % 4 * 16 + y / 16) % 16 * 16 + (y % 16 * 4 + z / 64) / 4 == y
    ensures (y % 16 * 4 + z / 64) % 4 * 64 + z % 64 == z
  {
  }

  /** The bits of four symbols, collected and dealt out again. */
  lemma Collect(a: nat, b: nat, c: nat, d: nat)
    requires a < 64 && b < 64 && c < 64 && d < 64
    ensures var x, y, z := a * 4 + b / 16, b % 16 * 16 + c / 4, c % 4 * 64 + d;
      && x / 4 == a && x % 4 * 16 + y / 16 == b && y % 16 * 4 + z / 64 == c && z % 64 == d
  {
  }

  lemma DecodeTwo(a: nat, b: nat)
    requires a < 64 && b < 64
    ensures Decode([Symbol(a), Symbol(b)]) == if b % 16 == 0 then Some([a * 4 + b / 16]) else None
  {
    hide Value, Symbol;
  }

  lemma DecodeThree(a: nat, b: nat, c: nat)
    requires a < 64 && b < 64 && c < 64
    ensures Decode([Symbol(a), Symbol(b), Symbol(c)]) == if c % 4 == 0 then
      Some([a * 4 + b / 16, b % 16 * 16 + c / 4]) else None
  {
    hide Value, Symbol;
  }

  /** The same for one and two bytes at the end, with the spare bits left empty. */
  lemma RegroupEnds(x: Byte, y: Byte)
    ensures x / 4 < 64 && x % 4 * 16 < 64 && x % 4 * 16 % 16 == 0 && x / 4 * 4 + x % 4 * 16 / 16 == x
    ensures x % 4 * 16 + y / 16 < 64 && x / 4 * 4 + (x % 4 * 16 + y / 16) / 16 == x
    ensures y % 16 * 4 < 64 && y % 16 * 4 % 4 == 0 && (x % 4 * 16 + y / 16) % 16 * 16 + y % 16 * 4 / 4 == y
  {
  }

  lemma OneByte(x: Byte)
    ensures Decode(Encode([x])) == Some([x])
  {
    assert Encode([x]) == [Symbol(x / 4), Symbol(x % 4 * 16)];
    hide Encode, Decode, Value, Symbol;
    RegroupEnds(x, 0);
    DecodeTwo(x / 4, x % 4 * 16);
  }

  lemma TwoBytes(x: Byte, y: Byte)
    ensures Decode(Encode([x, y])) == Some([x, y])
  {
    assert Encode([x, y]) == [Symbol(x / 4), Symbol(x % 4 * 16 + y / 16), Symbol(y % 16 * 4)];
    hide Encode, Decode, Value, Symbol;
    RegroupEnds(x, y);
    DecodeThree(x / 4, x % 4 * 16 + y / 16, y % 16 * 4);
  }

  lemma ShortEncodings(bytes: seq<Byte>)
    requires |bytes| < 3
    ensures Decode(Encode(bytes)) == Some(bytes)
  {
    if |bytes| == 1 {
      OneByte(bytes[0]);
      hide Encode, Decode;
      assert bytes == [bytes[0]];
    } else if |bytes| == 2 {
      TwoBytes(bytes[0], bytes[1]);
      hide Encode, Decode;
      assert bytes == [bytes[0], bytes[1]];
    } else {
      NothingDecodes();
    }
  }

  lemma NothingDecodes()
    ensures Decode("") == Some([])
  {
  }

  lemma {:induction false} DecodeInvertsEncode(bytes: seq<Byte>)
    ensures Decode(Encode(bytes)) == Some(bytes)
  {
    hide Value, Symbol;
    EncodeIsSymbols(bytes);
    if |bytes| < 3 {
      ShortEncodings(bytes);
    } else {
      var text, x, y, z := Encode(bytes), bytes[0], bytes[1], bytes[2];
      Regroup(x, y, z);
      DecodeInvertsEncode(bytes[3..]);
      EncodeIsSymbols(bytes[3..]);
      assert text[4..] == Encode(bytes[3..]) by {
        SplitAt(text, 4);
      }
      assert text[0] == Symbol(x / 4) && text[1] == Symbol(x % 4 * 16 + y / 16);
      assert text[2] == Symbol(y % 16 * 4 + z / 64) && text[3] == Symbol(z % 64);
      SplitAt(bytes, 3);
      assert bytes[..3] == [x, y, z];
    }
  }

  /** Decoding is strict: every text it accepts is the one encoding of its bytes. */
  lemma {:induction false} EncodeInvertsDecode(text: string)
    requires Decode(text).Some?
    ensures Encode(Decode(text).value) == text
  {
    hide Value, Symbol;
    if |text| == 0 {
    } else {
      SymbolOfValue(text[0]);
      SymbolOfValue(text[1]);
      var a, b := Value(text[0]).value, Value(text[1]).value;
      if |text| == 2 {
        ShortTails(text);
      } else if |text| == 3 {
        ShortTails(text);
      } else {
        SymbolOfValue(text[2]);
        SymbolOfValue(text[3]);
        Collect(a, b, Value(text[2]).value, Value(text[3]).value);
        EncodeInvertsDecode(text[4..]);
        assert Decode(text).value[3..] == Decode(text[4..]).value;
        SplitAt(text, 4);
      }
    }
  }

  lemma ShortTails(text: string)
    requires Decode(text).Some? && (|text| == 2 || |text| == 3)
    ensures Encode(Decode(text).value) == text
  {
    SymbolOfValue(text[0]);
    SymbolOfValue(text[1]);
    var a, b := Value(text[0]).value, Value(text[1]).value;
    hide Value, Symbol;
    if |text| == 2 {
      Collect(a, b, 0, 0);
    } else {
      SymbolOfValue(text[2]);
      Collect(a, b, Value(text[2]).value, 0);
    }
  }

  // ---------------------------------------------------------------- section 4 of RFC 4648

  /** The values of four symbols in a row, read as one number of 24 bits. */
  function Bits(text: string, at: nat): nat
    requires at + 4 <= |text| && AllSymbols(text)
  {
    var v := (k: nat) requires at + k < |text| && Value(text[at + k]).Some? => Value(text[at + k]).value;
    0x40000 * v(0) + 0x1000 * v(1) + 0x40 * v(2) + v(3)
  }

  /** Group by group, four symbols spell the three bytes, high bits first; one byte at the end
      is spelled by its bits and four zeros, two by theirs and two zeros. */
  lemma {:induction false} GroupsAreBigEndian(bytes: seq<Byte>, k: nat)
    requires 3 * k < |bytes|
    ensures AllSymbols(Encode(bytes)) && |Encode(bytes)| == (4 * |bytes| + 2) / 3
    ensures var rest, text := bytes[3 * k..], Encode(bytes)[4 * k..];
      if |rest| >= 3 then Bits(text, 0) == 0x10000 * (rest[0] as nat) + 0x100 * (rest[1] as nat) + rest[2] as nat
      else if |rest| == 2 then
        Value(text[0]).value * 0x1000 + Value(text[1]).value * 0x40 + Value(text[2]).value
        == (0x100 * (rest[0] as nat) + rest[1] as nat) * 4
      else Value(text[0]).value * 0x40 + Value(text[1]).value == rest[0] as nat * 16
  {
    EncodeIsSymbols(bytes);
    if k > 0 {
      GroupsAreBigEndian(bytes[3..], k - 1);
      assert bytes[3..][3 * (k - 1)..] == bytes[3 * k..];
      assert Encode(bytes)[4 * k..] == Encode(bytes[3..])[4 * (k - 1)..];
    }
  }
}
