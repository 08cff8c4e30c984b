/** The purchase policy of wikipolicyd/policy.py: a daily cap in GB, read
    from the `data_limit` configuration value, suspended on one optional
    exception date. */
module Policies {
  import opened Wrappers
  import opened Digits
  import opened Dates

  /** Why building a policy from configuration fails. */
  datatype PolicyError =
    | MissingDataLimit       // `config['data_limit']` raises KeyError
    | BadDataLimitFormat     // the value does not match `^\d+G$`
    | DataLimitNotInteger    // `int(data_limit[:-1])` raises ValueError
    | NonPositiveDataLimit   // the parsed cap is 0

  /** The `policy` configuration file: the `data_limit` value after `str(...)`,
      and the `exception` date if the key is present (already a date). */
  datatype PolicyConfig = PolicyConfig(dataLimit: Option<string>, exception: Option<CalendarDate>)

  /** Python's `re.match(r'^\d+G$', s)`: digits then `G`, where `$` also
      matches just before a final newline. */
  predicate MatchesDataLimitPattern(s: string) {
    || (|s| >= 2 && s[|s| - 1] == 'G' && IsDigits(s[..|s| - 1]))
    || (|s| >= 3 && s[|s| - 1] == '\n' && s[|s| - 2] == 'G' && IsDigits(s[..|s| - 2]))
  }

  /** The checks of `Policy.__init__` on the `data_limit` string, in order:
      the pattern, `int(...)` of everything but the last character, and
      positivity. */
  function ParseDataLimit(s: string): Result<int, PolicyError> {
    if !MatchesDataLimitPattern(s) then Failure(BadDataLimitFormat)
    else
      var digits := s[..|s| - 1];
      if !IsDigits(digits) then Failure(DataLimitNotInteger)
      else if DecimalValue(digits) <= 0 then Failure(NonPositiveDataLimit)
      else Success(DecimalValue(digits))
  }

  /** Exactly the strings "digits followed by one G" with a positive value are
      accepted, and the cap is the value of the digits. */
  lemma ParseDataLimitAccepts(s: string)
    ensures ParseDataLimit(s).Success? <==>
      |s| >= 2 && s[|s| - 1] == 'G' && IsDigits(s[..|s| - 1]) && DecimalValue(s[..|s| - 1]) > 0
    ensures ParseDataLimit(s).Success? ==>
      ParseDataLimit(s).value == DecimalValue(s[..|s| - 1]) && ParseDataLimit(s).value > 0
  {
  }

  /** Digits followed by `G` parse to the digits' value, or are refused as non-positive. */
  lemma ParseDataLimitOfDigits(t: string)
    requires IsDigits(t)
    ensures ParseDataLimit(t + "G") ==
      if DecimalValue(t) > 0 then Success(DecimalValue(t)) else Failure(NonPositiveDataLimit)
  {
    assert (t + "G")[..|t|] == t;
  }

  /** Writing a positive cap as zero-padded digits and a `G` reads it back. */
  lemma ParseDataLimitRoundTrip(n: nat, width: nat)
    requires 0 < n < Pow10(width)
    ensures ParseDataLimit(PadDigits(n, width) + "G") == Success(n)
  {
    PadDigitsRoundTrip(n, width);
    ParseDataLimitOfDigits(PadDigits(n, width));
  }

  /** Strings that do not fit the pattern are refused with the format error.
      A trailing newline slips past the pattern and is refused by `int(...)`. */
  lemma ParseDataLimitExamples()
    ensures ParseDataLimit("10G") == Success(10)
    ensures ParseDataLimit("007G") == Success(7)
    ensures ParseDataLimit("0G") == Failure(NonPositiveDataLimit)
    ensures ParseDataLimit("10") == Failure(BadDataLimitFormat)
    ensures ParseDataLimit("G") == Failure(BadDataLimitFormat)
    ensures ParseDataLimit("-5G") == Failure(BadDataLimitFormat)
    ensures ParseDataLimit("10GB") == Failure(BadDataLimitFormat)
    ensures ParseDataLimit("10G\n") == Failure(DataLimitNotInteger)
  {
    assert "10G"[..2] == "10";
    assert "007G"[..3] == "007" && "007"[..2] == "00" && "00"[..1] == "0" && "0"[..0] == "";
    assert "0G"[..1] == "0";
    assert "10G\n"[..3] == "10G";
    assert "10G\n"[..2] == "10";
    assert "10GB"[..3][2] == 'G';
    assert "-5G"[..2][0] == '-';
    assert !IsDigits("10"[..1]) || "10"[1] != 'G';
  }

  /** `Policy`: the daily cap and the optional exception date, fixed once built. */
  class Policy {
    const dataLimitGb: int
    const exceptionDate: Option<CalendarDate>

    /** `Policy(read_config=False, data_limit_gb=..., exception_date=...)`:
        stores the given values without any check. */
    constructor Unvalidated(dataLimitGb: int, exceptionDate: Option<CalendarDate> := None)
      ensures this.dataLimitGb == dataLimitGb && this.exceptionDate == exceptionDate
    {
      this.dataLimitGb := dataLimitGb;
      this.exceptionDate := exceptionDate;
    }

    /** `Policy()`: reads and checks the configuration, failing as `__init__` raises. */
    static method FromConfig(config: PolicyConfig) returns (r: Result<Policy, PolicyError>)
      ensures config.dataLimit.None? ==> r == Failure(MissingDataLimit)
      ensures config.dataLimit.Some? && ParseDataLimit(config.dataLimit.value).Failure? ==>
        r == Failure(ParseDataLimit(config.dataLimit.value).error)
      ensures r.Success? ==>
        && fresh(r.value)
        && config.dataLimit.Some?
        && ParseDataLimit(config.dataLimit.value) == Success(r.value.dataLimitGb)
        && r.value.dataLimitGb > 0
        && r.value.exceptionDate == config.exception
      ensures r.Failure? <==> config.dataLimit.None? || ParseDataLimit(config.dataLimit.value).Failure?
    {
      if config.dataLimit.None? {
        return Failure(MissingDataLimit);
      }
      var dataLimit := config.dataLimit.value;
      if !MatchesDataLimitPattern(dataLimit) {
        return Failure(BadDataLimitFormat);
      }
      var digits := dataLimit[..|dataLimit| - 1];
      if !IsDigits(digits) {
        return Failure(DataLimitNotInteger);
      }
      var limit := DecimalValue(digits);
      if limit <= 0 {
        return Failure(NonPositiveDataLimit);
      }
      var p := new Policy.Unvalidated(limit, config.exception);
      return Success(p);
    }

    /** `data_limit(date)`: no cap (`None`) on the exception date, the cap on every other date. */
    function DataLimit(d: CalendarDate): (r: Option<int>)
      ensures r.None? <==> exceptionDate == Some(d)
      ensures r.Some? ==> r.value == dataLimitGb
    {
      if exceptionDate.Some? && exceptionDate.value == d then None else Some(dataLimitGb)
    }
  }
}
