/** The Kazakh mobile-number check of src/lib/validators/phoneNumber.ts. */
module PhoneNumber {
  import opened JsText

  /** `/^7\d{10}$/`: a '7' followed by exactly ten digits and nothing else. */
  function MatchKazakhPattern(cleaned: string): (r: bool)
    ensures r <==> |cleaned| == 11 && cleaned[0] == '7' && AllDigits(cleaned)
  {
    |cleaned| == 11 && cleaned[0] == '7' && AllDigits(cleaned[1..])
  }

  /** `isValidKazakhPhone`: strip every non-digit, then test the pattern. */
  function IsValidKazakhPhone(phone: string): (r: bool)
    ensures r <==> |DigitsOf(phone)| == 11 && DigitsOf(phone)[0] == '7'
  {
    MatchKazakhPattern(DigitsOf(phone))
  }

  /** The verdict depends on the digits alone: a separator may be inserted or removed anywhere. */
  lemma SeparatorsIrrelevant(a: string, c: char, b: string)
    requires !IsDigit(c)
    ensures IsValidKazakhPhone(a + [c] + b) == IsValidKazakhPhone(a + b)
  {
    DigitsOfDropsSeparator(a, c, b);
  }

  /** Cleaning first changes nothing. */
  lemma CleanedNumberEquivalent(phone: string)
    ensures IsValidKazakhPhone(DigitsOf(phone)) == IsValidKazakhPhone(phone)
  {
    DigitsOfIdempotent(phone);
  }

  /** The domestic trunk prefix '8' is not accepted in place of the country code. */
  lemma TrunkPrefixRejected(phone: string)
    requires |DigitsOf(phone)| == 11 && DigitsOf(phone)[0] == '8'
    ensures !IsValidKazakhPhone(phone)
  {
  }
}
