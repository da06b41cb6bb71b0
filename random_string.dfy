/**
 * The random string of the server script's login route (`generateRandomString`),
 * with `Math.random` replaced by a supply of alphabet indices.
 */
module RandomString {

  const Upper: string := "ABCDEFGHIJKLMNOPQRSTUVWXYZ"
  const Lower: string := "abcdefghijklmnopqrstuvwxyz"
  const Digits: string := "0123456789"

  /**
   * The 62-character alphabet `possible`, written as its three runs:
   * upper-case letters, lower-case letters, digits.
   */
  const Possible: string := Upper + Lower + Digits

  /** `Math.floor(Math.random() * possible.length)`: an index into `Possible`. */
  type AlphabetIndex = i: int | 0 <= i < 62

  predicate IsAlphanumeric(c: char)
  {
    'A' <= c <= 'Z' || 'a' <= c <= 'z' || '0' <= c <= '9'
  }

  /**
   * A string of `length` characters (none for a negative length), the k-th
   * taken from `Possible` at the k-th drawn index, so every one a letter or
   * a digit.
   */
  method GenerateRandomString(length: int, draw: nat -> AlphabetIndex) returns (text: string)
    ensures |text| == if length < 0 then 0 else length
    ensures forall k :: 0 <= k < |text| ==> text[k] == Possible[draw(k)]
    ensures forall k :: 0 <= k < |text| ==> IsAlphanumeric(text[k])
  {
    text := "";
    var i := 0;
    while i < length
      invariant 0 <= i <= (if length < 0 then 0 else length)
      invariant |text| == i
      invariant forall k :: 0 <= k < i ==> text[k] == Possible[draw(k)]
    {
      text := text + [Possible[draw(i)]];
      i := i + 1;
    }
    AlphabetIsAlphanumerics();
  }

  /** Positions 0-25 of `Possible` hold 'A'-'Z'. */
  lemma UpperCodes()
    ensures forall i :: 0 <= i < 26 ==> Possible[i] as int == 'A' as int + i
  {
    assert forall i :: 0 <= i < 26 ==> Upper[i] as int == 'A' as int + i;
  }

  /** Positions 26-51 of `Possible` hold 'a'-'z'. */
  lemma LowerCodes()
    ensures forall i :: 26 <= i < 52 ==> Possible[i] as int == 'a' as int + (i - 26)
  {
    assert forall i :: 0 <= i < 26 ==> Lower[i] as int == 'a' as int + i;
  }

  /** Positions 52-61 of `Possible` hold '0'-'9'. */
  lemma DigitCodes()
    ensures forall i :: 52 <= i < 62 ==> Possible[i] as int == '0' as int + (i - 52)
  {
    assert forall i :: 0 <= i < 10 ==> Digits[i] as int == '0' as int + i;
  }

  /** Where in `Possible` an alphanumeric character stands. */
  function IndexOf(c: char): (i: int)
    requires IsAlphanumeric(c)
    ensures 0 <= i < 62
  {
    if 'A' <= c <= 'Z' then c as int - 'A' as int
    else if 'a' <= c <= 'z' then 26 + (c as int - 'a' as int)
    else 52 + (c as int - '0' as int)
  }

  /**
   * `Possible` holds 62 distinct characters, and they are exactly the ASCII
   * letters and digits.
   */
  lemma AlphabetIsAlphanumerics()
    ensures |Possible| == 62
    ensures forall i :: 0 <= i < 62 ==> IsAlphanumeric(Possible[i]) && IndexOf(Possible[i]) == i
    ensures forall c :: c in Possible <==> IsAlphanumeric(c)
  {
    UpperCodes();
    LowerCodes();
    DigitCodes();
    forall c | IsAlphanumeric(c) ensures c in Possible {
      assert Possible[IndexOf(c)] == c;
    }
  }
}
