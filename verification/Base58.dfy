/** The base58 text form of a 32-byte mesh key. */
module Base58 {
  import opened Options
  import opened Digits
  import opened HlcText

  /** The decimal digits and the letters, without zero, capital O, capital I and small l. */
  const ALPHABET := CAPITALS + "abcdefghijk" + "mnopqrstuvwxyz"
  const KEY_BYTES: nat := 32

  type Byte = n: nat | n < 256
  type Key = k: seq<Byte> | |k| == KEY_BYTES witness seq(KEY_BYTES, _ => 0)

  datatype KeyError = EmptyText | InvalidCharacter | TooLong | NotCanonical

  lemma AscendingConcat(a: string, b: string)
    requires a != [] && b != [] && Ascending(a) && Ascending(b) && a[|a| - 1] < b[0]
    ensures Ascending(a + b)
  {
    forall i, j | 0 <= i < j < |a + b|
      ensures (a + b)[i] < (a + b)[j]
    {
      if i < |a| <= j {
        assert a[i] <= a[|a| - 1] && b[0] <= b[j - |a|];
      }
    }
  }

  const CAPITALS := "123456789" + "ABCDEFGH" + "JKLMN" + "PQRSTUVWXYZ"

  lemma CapitalsOk()
    ensures |CAPITALS| == 33 && Ascending(CAPITALS) && CAPITALS[0] == '1' && CAPITALS[32] == 'Z'
  {
    var s1 := "123456789" + "ABCDEFGH";
    AscendingConcat("123456789", "ABCDEFGH");
    AscendingConcat(s1, "JKLMN");
    AscendingConcat(s1 + "JKLMN", "PQRSTUVWXYZ");
  }

  lemma AlphabetOk()
    ensures |ALPHABET| == 58 && Ascending(ALPHABET) && ALPHABET[0] == '1'
  {
    CapitalsOk();
    hide CAPITALS;
    AscendingConcat(CAPITALS, "abcdefghijk");
    AscendingConcat(CAPITALS + "abcdefghijk", "mnopqrstuvwxyz");
  }

  /** A decimal digit or an ASCII letter. */
  predicate Alphanumeric(c: char) { '0' <= c <= '9' || 'A' <= c <= 'Z' || 'a' <= c <= 'z' }

  /** The alphabet is exactly the digits and letters without the four that are easily confused. Being
      in ascending order, it is thereby fixed glyph by glyph. */
  lemma AlphabetIff(c: char)
    ensures |ALPHABET| == 58 && Ascending(ALPHABET) && (c in ALPHABET <==> Alphanumeric(c) && c !in {'0', 'O', 'I', 'l'})
  {
    AlphabetOk();
    RangeIff("123456789", '1', c);
    RangeIff("ABCDEFGH", 'A', c);
    RangeIff("JKLMN", 'J', c);
    RangeIff("PQRSTUVWXYZ", 'P', c);
    RangeIff("abcdefghijk", 'a', c);
    RangeIff("mnopqrstuvwxyz", 'm', c);
  }

  // ---- Encoding --------------------------------------------------------------------------

  function LeadingZeroBytes(bytes: seq<Byte>): (k: nat)
    ensures k <= |bytes|
  {
    if bytes != [] && bytes[0] == 0 then 1 + LeadingZeroBytes(bytes[1..]) else 0
  }

  function Ones(k: nat): string { seq(k, _ => '1') }

  function Encode(bytes: seq<Byte>): string {
    ToDigitsValue(Value(bytes, 256), 58);
    AlphabetOk();
    Ones(LeadingZeroBytes(bytes)) + Text(ToDigits(Value(bytes, 256), 58), ALPHABET)
  }

  /** The big number of the bytes. */
  method Accumulate(bytes: seq<Byte>) returns (e: nat)
    ensures e == Value(bytes, 256)
  {
    e := 0;
    for i := 0 to |bytes|
      invariant e == Value(bytes[..i], 256)
    {
      assert bytes[..i + 1][..i] == bytes[..i];
      e := e * 256 + bytes[i];
    }
    assert bytes[..|bytes|] == bytes;
  }

  lemma PrependDigit(e: nat, tail: seq<nat>)
    requires e > 0
    ensures ToDigits(e, 58) + tail == ToDigits(e / 58, 58) + ([e % 58] + tail)
  {}

  lemma PrependGlyph(d: nat, tail: seq<nat>)
    requires d < |ALPHABET| && AllBelow(tail, |ALPHABET|)
    ensures Text([d] + tail, ALPHABET) == [ALPHABET[d]] + Text(tail, ALPHABET)
  {}

  /** Digit by digit from the right. */
  method EncodeNumber(n: nat) returns (text: string)
    ensures |ALPHABET| == 58 && AllBelow(ToDigits(n, 58), 58) && text == Text(ToDigits(n, 58), ALPHABET)
  {
    hide Pow, Value, ToDigits, Text;
    AlphabetOk();
    ToDigitsValue(n, 58);
    var e := n;
    text := "";
    ghost var tail: seq<nat> := [];
    assert Text(tail, ALPHABET) == "" && ToDigits(n, 58) + tail == ToDigits(n, 58);
    while e > 0
      invariant ToDigits(n, 58) == ToDigits(e, 58) + tail
      invariant AllBelow(tail, 58) && text == Text(tail, ALPHABET)
    {
      PrependDigit(e, tail);
      PrependGlyph(e % 58, tail);
      text, tail, e := [ALPHABET[e % 58]] + text, [e % 58] + tail, e / 58;
    }
    NoDigits();
    assert [] + tail == tail;
  }

  lemma NoDigits()
    ensures ToDigits(0, 58) == []
  {}

  method EncodeKey(bytes: seq<Byte>) returns (text: string)
    ensures text == Encode(bytes)
  {
    hide Pow, Value, ToDigits, Text;
    var e := Accumulate(bytes);
    var digits := EncodeNumber(e);
    text := digits;
    var i := 0;
    while i < |bytes| && bytes[i] == 0
      invariant i <= |bytes| && text == Ones(i) + digits
      invariant LeadingZeroBytes(bytes) == i + LeadingZeroBytes(bytes[i..])
    {
      assert ['1'] + Ones(i) == Ones(i + 1);
      text, i := ['1'] + text, i + 1;
    }
  }

  // ---- Decoding --------------------------------------------------------------------------

  /** The number the text stands for, unless a character is outside the alphabet. */
  function Decode(text: string): Result<seq<nat>, KeyError> {
    match ParseNumber(text, ALPHABET)
    case None => Err(InvalidCharacter)
    case Some(n) => if n < Pow(256, KEY_BYTES) then Ok(Fixed(n, KEY_BYTES, 256)) else Err(TooLong)
  }

  lemma {:induction false} ParsePrefix(text: string, i: nat)
    requires i <= |text| && ParseNumber(text[..i], ALPHABET).None?
    ensures ParseNumber(text, ALPHABET).None?
    decreases |text| - i
  {
    if i < |text| {
      assert text[..i + 1][..i] == text[..i];
      ParsePrefix(text, i + 1);
    } else {
      assert text[..i] == text;
    }
  }

  method ReadNumber(text: string) returns (n: Option<nat>)
    ensures n == ParseNumber(text, ALPHABET)
  {
    hide IndexOf;
    AlphabetOk();
    var e: nat := 0;
    for i := 0 to |text|
      invariant ParseNumber(text[..i], ALPHABET) == Some(e)
    {
      assert text[..i + 1][..i] == text[..i];
      var digit := IndexOf(ALPHABET, text[i], 0);
      if digit.None? {
        ParsePrefix(text, i + 1);
        return None;
      }
      e := e * 58 + digit.value;
    }
    assert text[..|text|] == text;
    n := Some(e);
  }

  /** Fill a fixed buffer from the last byte to the first; what is left over must be zero. */
  method ToBuffer(n: nat) returns (bytes: Option<seq<nat>>)
    ensures bytes == if n < Pow(256, KEY_BYTES) then Some(Fixed(n, KEY_BYTES, 256)) else None
  {
    hide Pow, Fixed;
    var e: nat := n;
    var buffer := new nat[KEY_BYTES];
    var r: nat := KEY_BYTES;
    assert Fixed(n, KEY_BYTES, 256) + buffer[KEY_BYTES..] == Fixed(n, KEY_BYTES, 256);
    while r > 0
      invariant r <= KEY_BYTES
      invariant Fixed(n, KEY_BYTES, 256) == Fixed(e, r, 256) + buffer[r..]
      invariant n < Pow(256, KEY_BYTES) <==> e < Pow(256, r)
    {
      DropDigit(e, r, 256);
      ghost var tail := buffer[r..];
      FixedLast(e, r, tail);
      r := r - 1;
      buffer[r] := e % 256;
      assert buffer[r..] == [e % 256] + tail;
      e := e / 256;
    }
    NothingLeft(e);
    assert buffer[0..] == buffer[..] && [] + buffer[..] == buffer[..];
    return if e > 0 then None else Some(buffer[..]);
  }

  lemma FixedLast(e: nat, r: nat, tail: seq<nat>)
    requires r > 0
    ensures Fixed(e, r, 256) + tail == Fixed(e / 256, r - 1, 256) + ([e % 256] + tail)
  {}

  lemma NothingLeft(e: nat)
    ensures Fixed(e, 0, 256) == [] && (e < Pow(256, 0) <==> e == 0)
  {}

  method DecodeKey(text: string) returns (out: Result<seq<nat>, KeyError>)
    ensures out == Decode(text)
  {
    hide Pow, Fixed, ParseNumber;
    var n := ReadNumber(text);
    if n.None? {
      return Err(InvalidCharacter);
    }
    var bytes := ToBuffer(n.value);
    return if bytes.None? then Err(TooLong) else Ok(bytes.value);
  }

  // ---- Round trip ------------------------------------------------------------------------

  lemma {:induction false} OnesParse(k: nat, ds: seq<nat>)
    requires AllBelow(ds, 58)
    ensures ParseNumber(Ones(k) + Text(ds, ALPHABET), ALPHABET) == Some(Value(ds, 58))
  {
    AlphabetOk();
    var all := Zeros(k) + ds;
    assert AllBelow(all, 58);
    assert Text(all, ALPHABET) == Ones(k) + Text(ds, ALPHABET);
    ParseText(all, ALPHABET);
    LeadingZeros(k, ds, 58);
  }

  /** What an encoding is: one '1' for every zero byte the bytes begin with, and then the number of all
      the bytes in base 58, without a leading '1'. */
  lemma EncodeMeans(bytes: seq<Byte>) returns (zeros: nat, rest: string)
    ensures Encode(bytes) == Ones(zeros) + rest
    ensures zeros <= |bytes| && (forall i :: 0 <= i < zeros ==> bytes[i] == 0) && (zeros < |bytes| ==> bytes[zeros] != 0)
    ensures ParseNumber(rest, ALPHABET) == Some(Value(bytes, 256)) && (rest != "" ==> rest[0] != '1')
  {
    zeros, rest := LeadingZeroBytes(bytes), Encode(bytes)[LeadingZeroBytes(bytes)..];
    CountsZeros(bytes);
    var n := Value(bytes, 256);
    ToDigitsValue(n, 58);
    AlphabetOk();
    ParseText(ToDigits(n, 58), ALPHABET);
    assert rest == Text(ToDigits(n, 58), ALPHABET);
    hide Value;
    if n > 0 {
      assert ALPHABET[ToDigits(n, 58)[0]] != ALPHABET[0];
    }
  }

  lemma {:induction false} CountsZeros(bytes: seq<Byte>)
    ensures var z := LeadingZeroBytes(bytes); (forall i :: 0 <= i < z ==> bytes[i] == 0) && (z < |bytes| ==> bytes[z] != 0)
  {
    if bytes != [] && bytes[0] == 0 { CountsZeros(bytes[1..]); }
  }

  /** Decoding fails for exactly two reasons: a character outside the alphabet, or a number that does
      not fit the key; the first is reported first. */
  lemma DecodeFailsIff(text: string)
    ensures Decode(text) == Err(InvalidCharacter) <==> exists c :: c in text && c !in ALPHABET
    ensures Decode(text) == Err(TooLong) <==>
      (forall c :: c in text ==> c in ALPHABET) && ParseNumber(text, ALPHABET).value >= Pow(256, 32)
  {
    ParsesIff(text, ALPHABET);
    hide ALPHABET, ParseNumber;
  }

  lemma {:induction false} ParsesIff(s: string, alphabet: string)
    ensures ParseNumber(s, alphabet).Some? <==> forall c :: c in s ==> c in alphabet
  {
    if s != [] {
      var n := |s| - 1;
      assert s == s[..n] + [s[n]];
      ParsesIff(s[..n], alphabet);
      if s[n] in alphabet {
        var i :| 0 <= i < |alphabet| && alphabet[i] == s[n];
        FoundSome(alphabet, s[n], 0, i);
      }
    }
  }

  lemma {:induction false} FoundSome(s: string, c: char, start: nat, i: nat)
    requires start <= i < |s| && s[i] == c
    ensures IndexOf(s, c, start).Some?
    decreases i - start
  {
    if start < i && s[start] != c { FoundSome(s, c, start + 1, i); }
  }

  /** Every key comes back from its encoding, leading zeros and the all-zero key included. */
  lemma DecodeEncode(key: Key)
    ensures Decode(Encode(key)) == Ok(key)
  {
    var n := Value(key, 256);
    ToDigitsValue(n, 58);
    OnesParse(LeadingZeroBytes(key), ToDigits(n, 58));
    ValueBound(key, 256);
    FixedValue(n, KEY_BYTES, 256);
    FixedBelow(n, KEY_BYTES, 256);
    SameValueSameDigits(Fixed(n, KEY_BYTES, 256), key, 256);
    hide Pow, Value, Fixed;
  }

  /** The import check: the text must be the encoding of what it decodes to. */
  function Import(text: string): Result<Key, KeyError> {
    if text == "" then Err(EmptyText)
    else
      match Decode(text)
      case Err(e) => Err(e)
      case Ok(bytes) =>
        DecodedIsKey(text);
        var key: Key := bytes;
        if Encode(key) == text then Ok(key) else Err(NotCanonical)
  }

  lemma DecodedIsKey(text: string)
    requires Decode(text).Ok?
    ensures |Decode(text).value| == KEY_BYTES && AllBelow(Decode(text).value, 256)
  {
    FixedBelow(ParseNumber(text, ALPHABET).value, KEY_BYTES, 256);
  }

  lemma EncodingNotEmpty(key: Key)
    ensures Encode(key) != ""
  {
    if Value(key, 256) == 0 {
      LeadingZeros(KEY_BYTES, [], 256);
      assert Zeros(KEY_BYTES) + [] == Zeros(KEY_BYTES);
      SameValueSameDigits(key, Zeros(KEY_BYTES), 256);
      assert key[0] == 0;
    } else {
      ToDigitsValue(Value(key, 256), 58);
    }
  }

  /** A trimmed text is accepted exactly when it is the encoding of a key, of one key only. */
  lemma ImportAcceptsExactlyEncodings(text: string, key: Key)
    ensures Import(text) == Ok(key) <==> Encode(key) == text
  {
    if Encode(key) == text {
      EncodingNotEmpty(key);
      DecodeEncode(key);
    }
    hide Encode, Decode;
  }

  /** And refused with the error that fits: empty, undecodable for one of two reasons, or decodable but
      not the encoding of what it decodes to. */
  lemma ImportRefusesIff(text: string)
    ensures Import(text) == Err(EmptyText) <==> text == ""
    ensures text != "" ==> (Import(text) == Err(InvalidCharacter) <==> exists c :: c in text && c !in ALPHABET)
    ensures text != "" ==> (Import(text) == Err(NotCanonical) <==> Decode(text).Ok? && forall key: Key :: Encode(key) != text)
  {
    DecodeFailsIff(text);
    if text != "" && Decode(text).Ok? {
      DecodedIsKey(text);
      forall key: Key | Encode(key) == text ensures Decode(text) == Ok(key) { DecodeEncode(key); }
    }
    hide Encode, Decode, ALPHABET;
  }
}
