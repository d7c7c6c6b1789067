/**
 * The two sampling helpers of the provider options: `randomBytes`, which
 * turns draws into entropy bytes, and `randomAlphaNumericString`, which turns
 * draws into seed characters.
 */
module Sampling {
  import opened Prng

  /** One element of a Node.js `Buffer`. */
  type Byte = b: int | 0 <= b < 256

  const Upper: string := "ABCDEFGHIJKLMNOPQRSTUVWXYZ"
  const Lower: string := "abcdefghijklmnopqrstuvwxyz"
  const Digits: string := "0123456789"

  /**
   * The 62-character alphabet fresh seeds are spelled with: the upper-case
   * letters, then the lower-case letters, then the digits.
   */
  const Alphabet: string := Upper + Lower + Digits

  predicate IsAlphaNumeric(c: char) {
    'A' <= c <= 'Z' || 'a' <= c <= 'z' || '0' <= c <= '9'
  }

  predicate IsAlphaNumericString(s: string) {
    forall i :: 0 <= i < |s| ==> IsAlphaNumeric(s[i])
  }

  /** The alphabet is the upper-case letters, then the lower-case letters, then the digits, each in code order. */
  lemma AlphabetLayout()
    ensures |Alphabet| == 62
    ensures forall i :: 0 <= i < 26 ==> Alphabet[i] as int == 'A' as int + i
    ensures forall i :: 26 <= i < 52 ==> Alphabet[i] as int == 'a' as int + (i - 26)
    ensures forall i :: 52 <= i < 62 ==> Alphabet[i] as int == '0' as int + (i - 52)
  {
    assert forall i :: 0 <= i < 26 ==> Upper[i] as int == 'A' as int + i;
    assert forall i :: 0 <= i < 26 ==> Lower[i] as int == 'a' as int + i;
  }

  /** Where an alphanumeric character sits in the alphabet. */
  function AlphabetIndex(c: char): (i: nat)
    requires IsAlphaNumeric(c)
    ensures i < |Alphabet| && Alphabet[i] == c
  {
    AlphabetLayout();
    if 'A' <= c <= 'Z' then c as int - 'A' as int
    else if 'a' <= c <= 'z' then 26 + (c as int - 'a' as int)
    else 52 + (c as int - '0' as int)
  }

  /** The alphabet holds exactly the alphanumeric characters. */
  lemma AlphabetIsAlphaNumerics()
    ensures |Alphabet| == 62
    ensures forall k :: 0 <= k < |Alphabet| ==> IsAlphaNumeric(Alphabet[k])
    ensures forall c :: c in Alphabet <==> IsAlphaNumeric(c)
  {
    AlphabetLayout();
    forall c | IsAlphaNumeric(c)
      ensures c in Alphabet
    {
      var i := AlphabetIndex(c);
    }
  }

  /**
   * `randomBytes(length, rng)`: byte i is the truncated product of the i-th
   * draw with 255, so every byte lies in 0..254.
   */
  function RandomBytes(length: nat, rng: Stream): (buf: seq<Byte>)
    ensures |buf| == length
    ensures forall i :: 0 <= i < length ==> buf[i] == Scale(rng(i), 255)
    ensures forall i :: 0 <= i < length ==> buf[i] <= 254
  {
    if length == 0 then [] else RandomBytes(length - 1, rng) + [Scale(rng(length - 1), 255)]
  }

  /**
   * `alphabet[(x * alphabetLength) | 0]`: the character a draw selects. Its
   * position in the alphabet is the scaled draw, so the index is always in
   * bounds and the character alphanumeric.
   */
  function AlphabetChar(x: UnitInterval): (c: char)
    ensures IsAlphaNumeric(c)
    ensures AlphabetIndex(c) == Scale(x, |Alphabet|)
  {
    AlphabetLayout();
    Alphabet[Scale(x, |Alphabet|)]
  }

  /**
   * `randomAlphaNumericString(length, rng)`: character i is the one the i-th
   * draw selects, so the text is alphanumeric.
   */
  function RandomAlphaNumericString(length: nat, rng: Stream): (text: string)
    ensures |text| == length
    ensures forall i :: 0 <= i < length ==> text[i] == AlphabetChar(rng(i))
    ensures IsAlphaNumericString(text)
  {
    if length == 0 then ""
    else RandomAlphaNumericString(length - 1, rng) + [AlphabetChar(rng(length - 1))]
  }

  /** The draw that makes `randomBytes` produce byte `b` (for `b` below 255). */
  function DrawForByte(b: Byte): UnitInterval {
    if b < 255 then b as real / 255.0 else 0.0
  }

  /** The draw that makes `randomAlphaNumericString` produce character `c`. */
  function DrawForChar(c: char): UnitInterval {
    if IsAlphaNumeric(c) then AlphabetIndex(c) as real / 62.0 else 0.0
  }

  /**
   * The bytes `randomBytes` can return are exactly the sequences with every
   * byte below 255: each of them comes out of some stream of draws.
   */
  lemma {:induction false} EveryCappedByteStringIsSampled(bytes: seq<Byte>)
    requires forall i :: 0 <= i < |bytes| ==> bytes[i] < 255
    ensures exists rng: Stream :: RandomBytes(|bytes|, rng) == bytes
  {
    var rng := StreamOf(seq(|bytes|, i requires 0 <= i < |bytes| => DrawForByte(bytes[i])));
    var buf := RandomBytes(|bytes|, rng);
    forall i | 0 <= i < |bytes|
      ensures buf[i] == bytes[i]
    {
      assert rng(i) == bytes[i] as real / 255.0;
    }
    assert buf == bytes;
  }

  /**
   * The strings `randomAlphaNumericString` can return are exactly the
   * alphanumeric strings: each of them comes out of some stream of draws.
   */
  lemma {:induction false} EveryAlphaNumericStringIsSampled(s: string)
    requires IsAlphaNumericString(s)
    ensures exists rng: Stream :: RandomAlphaNumericString(|s|, rng) == s
  {
    AlphabetLayout();
    var rng := StreamOf(seq(|s|, i requires 0 <= i < |s| => DrawForChar(s[i])));
    var text := RandomAlphaNumericString(|s|, rng);
    forall i | 0 <= i < |s|
      ensures text[i] == s[i]
    {
      var k := AlphabetIndex(s[i]);
      assert rng(i) == k as real / 62.0;
      assert Scale(rng(i), |Alphabet|) == k;
    }
    assert text == s;
  }
}
