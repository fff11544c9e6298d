/**
 * The batch size of the lake sink: `LAKE_SINK_BATCH_SIZE`, default "1000",
 * read with `usize::from_str`; a value that does not parse aborts the sink
 * before anything is consumed.
 */
module BatchSize {
  import opened Wrappers

  const BATCH_SIZE_ENV_KEY := "LAKE_SINK_BATCH_SIZE"
  const BATCH_SIZE_DEFAULT := "1000"
  /** `usize::MAX` on a 64-bit target. */
  const USIZE_MAX: nat := 0xFFFF_FFFF_FFFF_FFFF

  datatype ConfigError = NotAPositiveInteger(raw: string)

  predicate IsDigit(c: char) {
    '0' <= c <= '9'
  }

  predicate AllDigits(s: string) {
    forall i :: 0 <= i < |s| ==> IsDigit(s[i])
  }

  function DigitsValue(ds: string): nat
    requires AllDigits(ds)
  {
    if ds == [] then 0 else DigitsValue(ds[..|ds| - 1]) * 10 + (ds[|ds| - 1] as int - '0' as int)
  }

  /** `usize::from_str`: an optional '+', then one or more decimal digits, value at most `USIZE_MAX`. */
  function ParseUsize(s: string): (r: Option<nat>)
    ensures r.Some? ==> r.value <= USIZE_MAX
  {
    var digits := if |s| > 0 && s[0] == '+' then s[1..] else s;
    if digits == [] || !AllDigits(digits) then None
    else if DigitsValue(digits) > USIZE_MAX then None
    else Some(DigitsValue(digits))
  }

  /** Decimal rendering without leading zeros: the partner of `ParseUsize`. */
  function ShowNat(n: nat): (s: string)
    ensures s != [] && AllDigits(s)
  {
    if n < 10 then ["0123456789"[n]] else ShowNat(n / 10) + ["0123456789"[n % 10]]
  }

  lemma {:induction false} DigitsValueShowNat(n: nat)
    ensures DigitsValue(ShowNat(n)) == n
  {
    if n >= 10 {
      DigitsValueShowNat(n / 10);
      var s := ShowNat(n);
      assert s[..|s| - 1] == ShowNat(n / 10);
    }
  }

  /** Every representable size is read back from its decimal form, with or without '+'. */
  lemma ParseShowNat(n: nat)
    requires n <= USIZE_MAX
    ensures ParseUsize(ShowNat(n)) == Some(n)
    ensures ParseUsize("+" + ShowNat(n)) == Some(n)
  {
    DigitsValueShowNat(n);
    assert ("+" + ShowNat(n))[1..] == ShowNat(n);
  }

  /** A value above `usize::MAX` is refused with or without '+': `from_str` reports an overflow there. */
  lemma ParseRejectsOverflow(n: nat)
    requires n > USIZE_MAX
    ensures ParseUsize(ShowNat(n)) == None
    ensures ParseUsize("+" + ShowNat(n)) == None
  {
    DigitsValueShowNat(n);
    assert ("+" + ShowNat(n))[1..] == ShowNat(n);
  }

  /** Leading zeros do not change the value of a digit string. */
  lemma {:induction false} DigitsValueLeadingZeros(zeros: string, ds: string)
    requires AllDigits(ds) && forall i :: 0 <= i < |zeros| ==> zeros[i] == '0'
    ensures AllDigits(zeros + ds) && DigitsValue(zeros + ds) == DigitsValue(ds)
    decreases |ds|
  {
    var s := zeros + ds;
    if ds == [] {
      assert s == zeros;
      AllZerosValue(zeros);
    } else {
      assert s[..|s| - 1] == zeros + ds[..|ds| - 1];
      DigitsValueLeadingZeros(zeros, ds[..|ds| - 1]);
    }
  }

  lemma {:induction false} AllZerosValue(zeros: string)
    requires forall i :: 0 <= i < |zeros| ==> zeros[i] == '0'
    ensures AllDigits(zeros) && DigitsValue(zeros) == 0
    decreases |zeros|
  {
    if zeros != [] {
      AllZerosValue(zeros[..|zeros| - 1]);
    }
  }

  /** A digit string of value 0 is all zeros. */
  lemma {:induction false} ZeroValueAllZeros(ds: string)
    requires AllDigits(ds) && DigitsValue(ds) == 0
    ensures forall i :: 0 <= i < |ds| ==> ds[i] == '0'
    decreases |ds|
  {
    if ds != [] {
      ZeroValueAllZeros(ds[..|ds| - 1]);
      assert forall i :: 0 <= i < |ds| - 1 ==> ds[i] == ds[..|ds| - 1][i];
    }
  }

  lemma DigitChar(c: char)
    requires IsDigit(c)
    ensures ShowNat(c as int - '0' as int) == [c]
  {
  }

  lemma Split10(w: int, d: int)
    requires 0 <= d < 10
    ensures (w * 10 + d) / 10 == w && (w * 10 + d) % 10 == d
  {
  }

  /** Every digit string is `k` zeros followed by the decimal form of its value. */
  lemma {:induction false} DigitsCanonical(ds: string) returns (k: nat)
    requires ds != [] && AllDigits(ds)
    ensures k < |ds| && (forall i :: 0 <= i < k ==> ds[i] == '0') && ds[k..] == ShowNat(DigitsValue(ds))
    decreases |ds|
  {
    var init, last := ds[..|ds| - 1], ds[|ds| - 1];
    var d := last as int - '0' as int;
    DigitChar(last);
    var w := DigitsValue(init);
    assert DigitsValue(ds) == w * 10 + d;
    assert forall i :: 0 <= i < |ds| - 1 ==> ds[i] == init[i];
    if init == [] || w == 0 {
      if init != [] {
        ZeroValueAllZeros(init);
      }
      k := |ds| - 1;
      assert ds[k..] == [last];
    } else {
      k := DigitsCanonical(init);
      Split10(w, d);
      assert ShowNat(w * 10 + d) == ShowNat(w) + [last];
      assert ds[k..] == init[k..] + [last];
    }
  }

  /**
   * What `ParseUsize` accepts is exactly an optional '+', some zeros, and the
   * decimal form of the value it returns.
   */
  lemma ParseUsizeCanonical(s: string)
    requires ParseUsize(s).Some?
    ensures var digits := if |s| > 0 && s[0] == '+' then s[1..] else s;
      exists k :: 0 <= k < |digits| && (forall i :: 0 <= i < k ==> digits[i] == '0')
        && digits[k..] == ShowNat(ParseUsize(s).value)
  {
    var digits := if |s| > 0 && s[0] == '+' then s[1..] else s;
    var k := DigitsCanonical(digits);
  }

  /** Leading zeros are accepted and ignored: `"007"` is 7. */
  lemma ParseLeadingZeros(zeros: string, n: nat)
    requires n <= USIZE_MAX && forall i :: 0 <= i < |zeros| ==> zeros[i] == '0'
    ensures ParseUsize(zeros + ShowNat(n)) == Some(n)
  {
    DigitsValueShowNat(n);
    DigitsValueLeadingZeros(zeros, ShowNat(n));
    assert (zeros + ShowNat(n))[0] != '+' by {
      if zeros == [] { assert (zeros + ShowNat(n))[0] == ShowNat(n)[0]; }
    }
  }

  /** A character other than a digit (or one leading '+') makes the text unparsable. */
  lemma ParseRejectsNonDigit(s: string, i: int)
    requires 0 <= i < |s| && !IsDigit(s[i]) && !(i == 0 && s[i] == '+')
    ensures ParseUsize(s) == None
  {
    if |s| > 0 && s[0] == '+' {
      assert s[1..][i - 1] == s[i];
    }
  }

  /** The batch size, or the configuration error that aborts the sink. */
  function BatchSizeFromEnv(env: map<string, string>): (r: Result<nat, ConfigError>)
    ensures BATCH_SIZE_ENV_KEY !in env ==> r == Ok(1000)
    ensures r.Ok? ==> r.value <= USIZE_MAX
    ensures BATCH_SIZE_ENV_KEY in env && ParseUsize(env[BATCH_SIZE_ENV_KEY]).None? ==>
      r == Err(NotAPositiveInteger(env[BATCH_SIZE_ENV_KEY]))
    ensures BATCH_SIZE_ENV_KEY in env && ParseUsize(env[BATCH_SIZE_ENV_KEY]).Some? ==>
      r == Ok(ParseUsize(env[BATCH_SIZE_ENV_KEY]).value)
  {
    var raw := if BATCH_SIZE_ENV_KEY in env then env[BATCH_SIZE_ENV_KEY] else BATCH_SIZE_DEFAULT;
    assert BATCH_SIZE_DEFAULT == ShowNat(1000);
    ParseShowNat(1000);
    match ParseUsize(raw)
    case None => Err(NotAPositiveInteger(raw))
    case Some(n) => Ok(n)
  }

  /** A configured size written in decimal is the size the sink runs with. */
  lemma BatchSizeFromDecimal(env: map<string, string>, n: nat)
    requires n <= USIZE_MAX && BATCH_SIZE_ENV_KEY in env && env[BATCH_SIZE_ENV_KEY] == ShowNat(n)
    ensures BatchSizeFromEnv(env) == Ok(n)
  {
    ParseShowNat(n);
  }
}
