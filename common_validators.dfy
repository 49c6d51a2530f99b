/** The generic form-field predicates of src/lib/validators/common.ts. */
module CommonValidators {
  import opened Wrappers
  import opened JsText

  /** `isRequired`: the value has some non-whitespace character. */
  function IsRequired(value: string): (r: bool)
    ensures r <==> exists i :: 0 <= i < |value| && !IsWhitespace(value[i])
  {
    TrimSpec(value);
    |Trim(value)| > 0
  }

  /** `minLength`: the trimmed value has at least `min` characters. */
  function MinLength(value: string, min: int): (r: bool)
    ensures min <= 0 ==> r
    ensures r ==> min <= |value|
  {
    |Trim(value)| >= min
  }

  /** A required field is one of minimum length 1. */
  lemma RequiredIsMinLengthOne(value: string)
    ensures IsRequired(value) == MinLength(value, 1)
  {
  }

  /** Lowering the minimum never turns an accepted value into a rejected one. */
  lemma MinLengthMonotone(value: string, min: int, min': int)
    requires min' <= min && MinLength(value, min)
    ensures MinLength(value, min')
  {
  }

  /** `/^[0-9]+$/`: one digit, then zero or more further digits, up to the end. */
  function MatchDigits(value: string): (r: bool)
    ensures r <==> value != [] && AllDigits(value)
  {
    value != [] && IsDigit(value[0]) && (|value| == 1 || MatchDigits(value[1..]))
  }

  /** `isNumber` */
  function IsNumber(value: string): (r: bool)
    ensures r <==> value != [] && forall i :: 0 <= i < |value| ==> '0' <= value[i] <= '9'
  {
    MatchDigits(value)
  }

  /** What `isNumber` accepts, `Number` reads as the same non-negative integer. */
  lemma IsNumberParses(value: string)
    requires IsNumber(value)
    ensures ParseNumber(value) == Some(ParseNat(value))
  {
    assert value[0] != '-' && value[0] != '+';
    TrimOfTrimmed(value);
  }

  /** `isPositive` */
  function IsPositive(value: int): (r: bool)
    ensures r <==> value >= 1
  {
    value > 0
  }
}
