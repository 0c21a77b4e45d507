/** Short-code generation: `generate_short_code` of the create handler.
    The random source is replaced by the sequence of indices that the
    successive calls of `random.choice` pick from the alphabet. */
module ShortCode {

  const AsciiLowercase: string := "abcdefghijklmnopqrstuvwxyz"
  const AsciiUppercase: string := "ABCDEFGHIJKLMNOPQRSTUVWXYZ"
  const Digits: string := "0123456789"

  /** `characters = string.ascii_letters + string.digits` */
  const Alphabet: string := AsciiLowercase + AsciiUppercase + Digits

  /** The default `length` of `generate_short_code`. */
  const DefaultLength: nat := 6

  /** One draw of `random.choice(characters)`: the index of the chosen symbol. */
  type Pick = k: int | 0 <= k < 62

  /** The symbol at position `k` of the alphabet, computed from the layout
      lower-case letters, upper-case letters, digits. */
  function SymbolAt(k: Pick): (c: char) {
    if k < 26 then ('a' as int + k) as char
    else if k < 52 then ('A' as int + (k - 26)) as char
    else ('0' as int + (k - 52)) as char
  }

  /** `SymbolAt` reads the alphabet the source spells out. */
  lemma AlphabetPositions()
    ensures |Alphabet| == 62
    ensures forall k: Pick :: Alphabet[k] == SymbolAt(k)
  {
    assert forall i :: 0 <= i < 26 ==> AsciiLowercase[i] as int == 'a' as int + i;
    assert forall i :: 0 <= i < 26 ==> AsciiUppercase[i] as int == 'A' as int + i;
    assert forall i :: 0 <= i < 10 ==> Digits[i] as int == '0' as int + i;
  }

  /** A letter or a digit. */
  predicate IsSymbol(c: char) {
    ('a' <= c <= 'z') || ('A' <= c <= 'Z') || ('0' <= c <= '9')
  }

  /** Position of a letter or digit in the alphabet. */
  function SymbolIndex(c: char): (k: Pick)
    requires IsSymbol(c)
    ensures SymbolAt(k) == c
  {
    if 'a' <= c <= 'z' then c as int - 'a' as int
    else if 'A' <= c <= 'Z' then 26 + (c as int - 'A' as int)
    else 52 + (c as int - '0' as int)
  }

  /** The alphabet holds exactly the letters and digits. */
  lemma AlphabetIsLettersAndDigits(c: char)
    ensures c in Alphabet <==> IsSymbol(c)
  {
    AlphabetPositions();
    if IsSymbol(c) {
      assert Alphabet[SymbolIndex(c)] == c;
    }
  }

  /** A string the generator can produce with its default length. */
  predicate IsShortCode(s: string) {
    |s| == DefaultLength && forall i :: 0 <= i < |s| ==> IsSymbol(s[i])
  }

  /** `''.join(random.choice(characters) for i in range(length))`, where
      `draws[i]` is the index chosen in round `i`. */
  function GenerateShortCode(length: nat, draws: seq<Pick>): (code: string)
    requires |draws| == length
    ensures |code| == length
    ensures forall i :: 0 <= i < |code| ==> IsSymbol(code[i])
    decreases length
  {
    if length == 0 then ""
    else [SymbolAt(draws[0])] + GenerateShortCode(length - 1, draws[1..])
  }

  /** Every character of a generated code is one of `ascii_letters + digits`. */
  lemma GeneratedCodeInAlphabet(length: nat, draws: seq<Pick>)
    requires |draws| == length
    ensures forall i :: 0 <= i < length ==> GenerateShortCode(length, draws)[i] in Alphabet
  {
    var code := GenerateShortCode(length, draws);
    forall i | 0 <= i < length
      ensures code[i] in Alphabet
    {
      AlphabetIsLettersAndDigits(code[i]);
    }
  }

  /** The draws that produced a code: the inverse of the generator. */
  function Decode(code: string): (draws: seq<Pick>)
    requires forall i :: 0 <= i < |code| ==> IsSymbol(code[i])
    ensures |draws| == |code|
  {
    if code == [] then [] else [SymbolIndex(code[0])] + Decode(code[1..])
  }

  /** Decoding a generated code gives back the draws. */
  lemma {:induction false} DecodeGenerated(length: nat, draws: seq<Pick>)
    requires |draws| == length
    ensures Decode(GenerateShortCode(length, draws)) == draws
    decreases length
  {
    if length > 0 {
      var code := GenerateShortCode(length, draws);
      assert code[0] == SymbolAt(draws[0]);
      assert code[1..] == GenerateShortCode(length - 1, draws[1..]);
      DecodeGenerated(length - 1, draws[1..]);
    }
  }

  /** Every string of letters and digits is generated, by its own decoding. */
  lemma {:induction false} GenerateDecoded(code: string)
    requires forall i :: 0 <= i < |code| ==> IsSymbol(code[i])
    ensures GenerateShortCode(|code|, Decode(code)) == code
  {
    if code != [] {
      GenerateDecoded(code[1..]);
    }
  }

  /** Different draw sequences give different codes, so under uniform
      independent draws every code of a given length is equally likely. */
  lemma GenerateInjective(length: nat, d1: seq<Pick>, d2: seq<Pick>)
    requires |d1| == length && |d2| == length
    requires GenerateShortCode(length, d1) == GenerateShortCode(length, d2)
    ensures d1 == d2
  {
    DecodeGenerated(length, d1);
    DecodeGenerated(length, d2);
  }

  /** The strings produced with the default length are exactly the short codes. */
  lemma ShortCodesAreGenerated(s: string)
    ensures IsShortCode(s) <==>
      exists draws: seq<Pick> :: |draws| == DefaultLength && GenerateShortCode(DefaultLength, draws) == s
  {
    if IsShortCode(s) {
      GenerateDecoded(s);
    }
  }
}
