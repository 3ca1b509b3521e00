/**
 * The process environment, passed explicitly as a map from variable names to
 * values, and the two .NET conversions the function applies to it:
 * `Convert.ToBoolean(string)` for the routing flags and
 * `Convert.ToInt16(string)` for the pre-processing delay.
 */
module Config {
  import opened Common
  import opened Text

  /** The environment variables visible to the function. */
  type Env = map<string, string>

  const EnableMockApiKey := "EnableMockAPI"
  const DelayInSecondsKey := "DelayInSeconds"
  const UsePowerAutomateApiKey := "UsePowerAutomateAPI"
  const InvoiceReportIdKey := "InvoiceReportId"
  const OrdersReportIdKey := "OrdersReportId"
  const AllocationsReportIdKey := "AllocationsReportId"
  const FromEmailAddressKey := "FromEmailAddress"

  /** `Environment.GetEnvironmentVariable(key)`: null when the variable is unset. */
  function Lookup(env: Env, key: string): Option<string> {
    if key in env then Some(env[key]) else None
  }

  /** `Environment.GetEnvironmentVariable(key) ?? ""`. */
  function GetOrEmpty(env: Env, key: string): (v: string)
    ensures key in env ==> v == env[key]
    ensures key !in env ==> v == ""
  {
    Lookup(env, key).GetOr("")
  }

  /** The exceptions the conversions and the delay can throw. */
  datatype Fault = FormatException | OverflowException | ArgumentOutOfRange

  /** `Boolean.Parse` trims white space and NUL characters before comparing. */
  predicate IsWhiteSpaceOrNul(c: char) {
    IsWhiteSpace(c) || c == '\0'
  }

  /** `Convert.ToBoolean(string)`: null is false; otherwise the trimmed text
      must be "true" or "false" ignoring (ASCII) case, or FormatException is
      thrown. */
  function ToBoolean(v: Option<string>): (r: Result<bool, Fault>)
    ensures v.None? ==> r == Success(false)
    ensures r.Failure? ==> r.error == FormatException
    // A text parses exactly when, trimmed, it is "true" or "false" in some
    // letter case, and then it reads as the boolean it spells.
    ensures v.Some? ==>
              (r.Success? <==> AsciiLower(TrimWhere(v.value, IsWhiteSpaceOrNul)) in {"true", "false"})
    ensures v.Some? && r.Success? ==>
              AsciiLower(TrimWhere(v.value, IsWhiteSpaceOrNul)) == AsciiLower(BooleanText(r.value))
  {
    match v
    case None => Success(false)
    case Some(s) =>
      BooleanTextLowered(true);
      BooleanTextLowered(false);
      var word := AsciiLower(TrimWhere(s, IsWhiteSpaceOrNul));
      if word == "true" then Success(true)
      else if word == "false" then Success(false)
      else Failure(FormatException)
  }

  /** `Boolean.ToString()`. */
  function BooleanText(b: bool): string {
    if b then "True" else "False"
  }

  /** "true" or "false" in any mix of ASCII letter cases, surrounded by
      white space, reads as that boolean. */
  lemma ToBooleanReadsAnyCasing(b: bool, w: string, before: string, after: string)
    requires AsciiLower(w) == AsciiLower(BooleanText(b))
    requires forall k :: 0 <= k < |before| ==> IsWhiteSpace(before[k])
    requires forall k :: 0 <= k < |after| ==> IsWhiteSpace(after[k])
    ensures ToBoolean(Some(before + w + after)) == Success(b)
  {
    BooleanTextLowered(b);
    var lw := AsciiLower(w);
    var last := |w| - 1;
    assert lw[0] == (if 'A' <= w[0] <= 'Z' then (w[0] as int + 32) as char else w[0]);
    assert lw[last] == (if 'A' <= w[last] <= 'Z' then (w[last] as int + 32) as char else w[last]);
    assert !IsWhiteSpaceOrNul(w[0]) && !IsWhiteSpaceOrNul(w[last]);
    TrimPadded(before, w, after, IsWhiteSpaceOrNul);
    if !b {
      assert AsciiLower(w)[0] != "true"[0];
    }
  }

  /** `Boolean.ToString()`'s text, case-folded, is the word `Boolean.Parse`
      compares against. */
  lemma BooleanTextLowered(b: bool)
    ensures AsciiLower(BooleanText(b)) == if b then "true" else "false"
  {
    var w := BooleanText(b);
    var l := AsciiLower(w);
    var expected := if b then "true" else "false";
    assert |l| == |expected|;
    forall k | 0 <= k < |l| ensures l[k] == expected[k] {
      assert l[k] == (if 'A' <= w[k] <= 'Z' then (w[k] as int + 32) as char else w[k]);
    }
  }

  const Int16Min := -32768
  const Int16Max := 32767

  /** The white space `NumberStyles.Integer` allows around a number. */
  predicate IsNumberWhite(c: char) {
    (0x09 <= c as int <= 0x0D) || c == ' '
  }

  predicate IsDigit(c: char) {
    '0' <= c <= '9'
  }

  predicate AllDigits(ds: string) {
    forall k :: 0 <= k < |ds| ==> IsDigit(ds[k])
  }

  /** The value of a string of decimal digits, most significant first. */
  function DigitsValue(ds: string): nat
    requires AllDigits(ds)
    decreases |ds|
  {
    if ds == [] then 0 else DigitsValue(ds[..|ds| - 1]) * 10 + (ds[|ds| - 1] as int - '0' as int)
  }

  /** `Convert.ToInt16(string)`: null is 0; otherwise optional white space, an
      optional sign, one or more decimal digits and optional white space
      (FormatException if not), whose value must fit in 16 bits
      (OverflowException if not). */
  function ToInt16(v: Option<string>): (r: Result<int, Fault>)
    ensures v.None? ==> r == Success(0)
    ensures r.Success? ==> Int16Min <= r.value <= Int16Max
    ensures r.Failure? ==> r.error in {FormatException, OverflowException}
    // Only white space, an optional sign and one or more digits get past the
    // format check.
    ensures v.Some? && r != Failure(FormatException) ==>
              exists sign: string, ds: string ::
                && (sign == "" || sign == "+" || sign == "-")
                && ds != [] && AllDigits(ds)
                && TrimWhere(v.value, IsNumberWhite) == sign + ds
  {
    match v
    case None => Success(0)
    case Some(s) =>
      var t := TrimWhere(s, IsNumberWhite);
      var signed := |t| > 0 && (t[0] == '-' || t[0] == '+');
      var digits := if signed then t[1..] else t;
      assert t == (if signed then t[..1] else "") + digits;
      if digits == [] || !AllDigits(digits) then Failure(FormatException)
      else
        var n: int := if signed && t[0] == '-' then -(DigitsValue(digits) as int) else DigitsValue(digits);
        if n < Int16Min || n > Int16Max then Failure(OverflowException) else Success(n)
  }

  /** The texts `NumberStyles.Integer` accepts: white space, an optional
      sign, one or more digits and white space read as the signed value of
      the digits, or throw OverflowException when that value does not fit
      in 16 bits. */
  lemma ToInt16ReadsSignedDigits(before: string, sign: string, ds: string, after: string)
    requires forall k :: 0 <= k < |before| ==> IsNumberWhite(before[k])
    requires forall k :: 0 <= k < |after| ==> IsNumberWhite(after[k])
    requires sign == "" || sign == "+" || sign == "-"
    requires ds != [] && AllDigits(ds)
    ensures var n := if sign == "-" then -(DigitsValue(ds) as int) else DigitsValue(ds);
            ToInt16(Some(before + sign + ds + after))
            == if Int16Min <= n <= Int16Max then Success(n) else Failure(OverflowException)
  {
    var w := sign + ds;
    assert w[|w| - 1] == ds[|ds| - 1];
    assert !IsNumberWhite(w[0]) && !IsNumberWhite(w[|w| - 1]);
    assert before + sign + ds + after == before + w + after;
    TrimPadded(before, w, after, IsNumberWhite);
    TrimmedSignedDigits(before + w + after, sign, ds);
  }

  /** A text that trims to a sign and digits reads as their value. */
  lemma TrimmedSignedDigits(s: string, sign: string, ds: string)
    requires sign == "" || sign == "+" || sign == "-"
    requires ds != [] && AllDigits(ds)
    requires TrimWhere(s, IsNumberWhite) == sign + ds
    ensures var n := if sign == "-" then -(DigitsValue(ds) as int) else DigitsValue(ds);
            ToInt16(Some(s)) == if Int16Min <= n <= Int16Max then Success(n) else Failure(OverflowException)
  {
    var t := sign + ds;
    if sign == "" {
      assert t == ds;
      assert !(ds[0] == '-' || ds[0] == '+');
    } else {
      assert t[1..] == ds;
    }
  }

  /** The decimal digits of `n`, without leading zeros. */
  function DecimalDigits(n: nat): (ds: string)
    ensures |ds| >= 1 && AllDigits(ds) && DigitsValue(ds) == n
  {
    var last := [('0' as int + n % 10) as char];
    if n < 10 then last
    else
      var ds := DecimalDigits(n / 10) + last;
      assert ds[..|ds| - 1] == DecimalDigits(n / 10);
      ds
  }

  /** `Int16.ToString()`. */
  function Int16Text(n: int): string
    requires Int16Min <= n <= Int16Max
  {
    if n < 0 then "-" + DecimalDigits(-n) else DecimalDigits(n)
  }

  /** Every 16-bit integer written by `Int16.ToString` reads back as itself. */
  lemma ToInt16ReadsInt16Text(n: int)
    requires Int16Min <= n <= Int16Max
    ensures ToInt16(Some(Int16Text(n))) == Success(n)
  {
    var s := Int16Text(n);
    var ds := DecimalDigits(if n < 0 then -n else n);
    assert s[|s| - 1] == ds[|ds| - 1];
    assert s[..|s|] == s;
    TrimmingIsUnique(s, s, IsNumberWhite, 0, |s|);
    if n < 0 {
      assert s[1..] == ds;
    }
  }

  /** The pre-processing delay, in seconds: `Convert.ToInt16` of
      DelayInSeconds, and `Task.Delay` throws ArgumentOutOfRange for a
      negative span. */
  function PreProcessingDelay(env: Env): (r: Result<nat, Fault>)
    ensures DelayInSecondsKey !in env ==> r == Success(0)
    ensures r.Success? ==> r.value <= Int16Max
    ensures r.Success? <==> ToInt16(Lookup(env, DelayInSecondsKey)).Success? && ToInt16(Lookup(env, DelayInSecondsKey)).value >= 0
  {
    match ToInt16(Lookup(env, DelayInSecondsKey))
    case Failure(e) => Failure(e)
    case Success(n) => if n < 0 then Failure(ArgumentOutOfRange) else Success(n)
  }
}
