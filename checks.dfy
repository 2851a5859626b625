/**
 * The zod checks the form schemas chain on a string field, and the composite field rules built
 * from them. All checks on a string run and each failing one contributes its message, in order;
 * a `.transform(...).refine(...)` step runs only when every string check before it passed.
 */
module Checks {
  import opened Text
  import opened JsNumber

  /** `.min(n, msg)`, which counts UTF-16 code units. */
  function Min(s: string, n: nat, msg: string): seq<string>
  {
    if JsLength(s) < n then [msg] else []
  }

  /** `.max(n, msg)`, which counts UTF-16 code units. */
  function Max(s: string, n: nat, msg: string): seq<string>
  {
    if JsLength(s) > n then [msg] else []
  }

  /** `.regex(re, msg)`, `.email(msg)` and `z.enum(values, msg)`: one message when the test fails. */
  function Test(ok: bool, msg: string): seq<string>
  {
    if ok then [] else [msg]
  }

  /** `.transform(...).refine(p, msg)` after string checks that reported `issues`. */
  function Refine(issues: seq<string>, ok: bool, msg: string): seq<string>
  {
    if issues != [] then issues else Test(ok, msg)
  }

  const Genders: set<string> := {"MALE", "FEMALE", "OTHERS"}
  const Statuses: set<string> := {"ACTIVE", "INACTIVE"}

  /** `z.string().min(1, msg)`. */
  function Required(s: string, msg: string): (r: seq<string>)
    ensures r == [] <==> s != ""
    ensures r != [] ==> r == [msg]
  {
    Min(s, 1, msg)
  }

  /** `z.enum(options, msg)` on a submitted string. */
  function OneOf(s: string, options: set<string>, msg: string): (r: seq<string>)
    ensures r == [] <==> s in options
    ensures r != [] ==> r == [msg]
  {
    Test(s in options, msg)
  }

  /** `z.string().email(msg)`, with the library's address format given as `isEmail`. */
  function Email(s: string, isEmail: string -> bool, msg: string): (r: seq<string>)
    ensures r == [] <==> isEmail(s)
    ensures r != [] ==> r == [msg]
  {
    Test(isEmail(s), msg)
  }

  /** `z.string().min(1, required).email(invalid)`: an empty string also reports a format error. */
  function RequiredEmail(s: string, isEmail: string -> bool, required: string, invalid: string): (r: seq<string>)
    ensures r == [] <==> s != "" && isEmail(s)
    ensures s == "" ==> r[0] == required && |r| <= 2
    ensures s != "" && !isEmail(s) ==> r == [invalid]
  {
    Min(s, 1, required) + Test(isEmail(s), invalid)
  }

  /** `z.string().min(1, required).regex(/^[0-9]+$/, notNumber)`. */
  function WholeNumber(s: string, required: string, notNumber: string): (r: seq<string>)
    ensures r == [] <==> IsDigits(s)
    ensures s == "" ==> r == [required, notNumber]
    ensures s != "" && !IsDigits(s) ==> r == [notNumber]
  {
    Min(s, 1, required) + Test(IsDigits(s), notNumber)
  }

  /** `WholeNumber` followed by `.transform(Number).refine(n => n > 0, notPositive)`. */
  function PositiveWhole(s: string, required: string, notNumber: string, notPositive: string): (r: seq<string>)
    ensures r == [] <==> IsDigits(s) && HasNonZeroDigit(s)
    ensures !IsDigits(s) ==> r == WholeNumber(s, required, notNumber)
    ensures IsDigits(s) && !HasNonZeroDigit(s) ==> r == [notPositive]
  {
    var issues := WholeNumber(s, required, notNumber);
    if issues == [] then
      DigitsToNumber(s);
      ValuePositive(s);
      Refine(issues, IsPositive(ToNumber(s)), notPositive)
    else Refine(issues, IsPositive(ToNumber(s)), notPositive)
  }

  /** `z.string().min(1, required).regex(/^[0-9]{10}$/, wrong)`. */
  function TenDigits(s: string, required: string, wrong: string): (r: seq<string>)
    ensures r == [] <==> IsTenDigits(s)
    ensures s == "" ==> r == [required, wrong]
    ensures s != "" && !IsTenDigits(s) ==> r == [wrong]
  {
    Min(s, 1, required) + Test(IsTenDigits(s), wrong)
  }

  /**
   * `z.string().min(1, required).regex(/^\d+(\.\d+)?$/, notNumber).transform(Number)
   * .refine(n => n > 0, notPositive)`.
   */
  function PositiveDecimal(s: string, required: string, notNumber: string, notPositive: string): (r: seq<string>)
    ensures r == [] <==> IsDecimal(s) && HasNonZeroDigit(s)
    ensures s == "" ==> r == [required, notNumber]
    ensures s != "" && !IsDecimal(s) ==> r == [notNumber]
    ensures IsDecimal(s) && !HasNonZeroDigit(s) ==> r == [notPositive]
  {
    var issues := Min(s, 1, required) + Test(IsDecimal(s), notNumber);
    if issues == [] then
      DecimalToNumber(s);
      Refine(issues, IsPositive(ToNumber(s)), notPositive)
    else
      assert s == "" ==> !IsDecimal(s);
      Refine(issues, IsPositive(ToNumber(s)), notPositive)
  }

  /** `WholeNumber` followed by `.transform(Number).refine(n => lo <= n && n <= hi, outOfRange)`. */
  function WholeBetween(s: string, lo: int, hi: int, required: string, notNumber: string, outOfRange: string): (r: seq<string>)
    ensures r == [] <==> IsDigits(s) && lo <= Value(s) <= hi
    ensures !IsDigits(s) ==> r == WholeNumber(s, required, notNumber)
    ensures IsDigits(s) && !(lo <= Value(s) <= hi) ==> r == [outOfRange]
  {
    var issues := WholeNumber(s, required, notNumber);
    if issues == [] then
      DigitsToNumber(s);
      Refine(issues, InRange(ToNumber(s), lo as real, hi as real), outOfRange)
    else Refine(issues, InRange(ToNumber(s), lo as real, hi as real), outOfRange)
  }

  /** `z.string().transform(Number).refine(n => n > 0, msg)`: no string check, any text is converted. */
  function PositiveNumber(s: string, msg: string): (r: seq<string>)
    ensures r == [] <==> IsPositive(ToNumber(s))
    ensures r != [] ==> r == [msg]
  {
    Refine([], IsPositive(ToNumber(s)), msg)
  }

  /**
   * `.min(n, wrongLength).max(n, wrongLength).regex(/^\d+$/, notDigits)`. The lengths are in UTF-16
   * code units, which for a digit string is the number of digits.
   */
  function ExactDigits(s: string, n: nat, wrongLength: string, notDigits: string): (r: seq<string>)
    requires n > 0
    ensures r == [] <==> |s| == n && AllDigits(s)
    ensures JsLength(s) != n ==> r != [] && r[0] == wrongLength
    ensures JsLength(s) != n && IsDigits(s) ==> r == [wrongLength]
    ensures JsLength(s) == n && !AllDigits(s) ==> r == [notDigits]
    ensures JsLength(s) < n && !IsDigits(s) ==> r == [wrongLength, notDigits]
  {
    var r := Min(s, n, wrongLength) + Max(s, n, wrongLength) + Test(IsDigits(s), notDigits);
    if AllDigits(s) then DigitsLength(s); r else r
  }
}
