/** Model of src/rim.py: the validator for A-share company codes, the
    RimProposal record and the proposal builder that reads four injected
    lookups (base-year indicators, EPS forecasts, the Shenwan level-2
    industry of a company and the ROE of that industry). */
module Rim {

  datatype Option<T> = None | Some(value: T)

  // ---------------------------------------------------------------------------
  // Floating-point values as far as the builder looks at them

  /** A double as the builder sees it. The only test ever applied is
      np.isnan; every other value is copied, never computed with. */
  datatype Float = NaN | PosInf | NegInf | Finite(value: real)

  const Zero: Float := Finite(0.0)

  /** The `is_nan` lambda of the builder: a missing (NaN) forecast becomes 0,
      every other value, infinities included, is kept as it is. */
  function ZeroIfNaN(x: Float): (y: Float)
    ensures !y.NaN?
    ensures !x.NaN? ==> y == x
    ensures x.NaN? ==> y == Zero
  {
    if x.NaN? then Zero else x
  }

  // ---------------------------------------------------------------------------
  // The A-share code validator

  predicate IsAsciiDigit(c: char) {
    '0' <= c <= '9'
  }

  /** Every character of `s` is an ASCII digit, checked one character at a time. */
  function AllAsciiDigits(s: string): (b: bool)
    ensures b <==> forall i :: 0 <= i < |s| ==> IsAsciiDigit(s[i])
  {
    if s == [] then true else IsAsciiDigit(s[0]) && AllAsciiDigits(s[1..])
  }

  /** `str.isdigit`, restricted to ASCII digits: false on the empty string. */
  function IsDigitString(s: string): (b: bool)
    ensures b <==> |s| > 0 && forall i :: 0 <= i < |s| ==> IsAsciiDigit(s[i])
  {
    |s| > 0 && AllAsciiDigits(s)
  }

  /** The board prefixes a listed A-share code may start with, in the order
      the validator tests them. */
  const BoardPrefixes: seq<string> := ["000", "002", "300", "600", "601", "603", "608", "688"]

  lemma BoardPrefixIsDigits(p: string)
    requires p in BoardPrefixes
    ensures |p| == 3 && forall i :: 0 <= i < |p| ==> IsAsciiDigit(p[i])
  {
  }

  /** Digits split at any point into digits, and join back. */
  lemma AllAsciiDigitsSplit(s: string, k: nat)
    requires k <= |s|
    ensures AllAsciiDigits(s) <==> AllAsciiDigits(s[..k]) && AllAsciiDigits(s[k..])
  {
    if AllAsciiDigits(s[..k]) && AllAsciiDigits(s[k..]) {
      forall i | 0 <= i < |s| ensures IsAsciiDigit(s[i]) {
        if i < k { assert s[i] == s[..k][i]; } else { assert s[i] == s[k..][i - k]; }
      }
    }
  }

  /** The source's test, all digits and six long with a whitelisted prefix,
      is the same as a whitelisted prefix followed by three digits, since the
      prefixes are digits themselves. */
  lemma PrefixAndDigitsSuffix(code: string)
    ensures (IsDigitString(code) && |code| == 6 && code[..3] in BoardPrefixes)
            <==> (|code| == 6 && code[..3] in BoardPrefixes && AllAsciiDigits(code[3..]))
  {
    if |code| == 6 && code[..3] in BoardPrefixes {
      BoardPrefixIsDigits(code[..3]);
      AllAsciiDigitsSplit(code, 3);
    }
  }

  /** `_is_A_list_company_symbol`: all digits, six long, and the first three
      characters one of the board prefixes. The contract reads it the other
      way round: a code is valid exactly when it is a board prefix followed by
      three digits. */
  function IsAListCompanySymbol(code: string): (b: bool)
    ensures b <==> |code| == 6 && code[..3] in BoardPrefixes && AllAsciiDigits(code[3..])
  {
    PrefixAndDigitsSuffix(code);
    IsDigitString(code) && |code| == 6 && code[..3] in BoardPrefixes
  }

  /** Every valid code is six ASCII digits; any other length, the empty string
      included, or any non-digit character rejects it. */
  lemma ValidCodesAreSixDigits(code: string)
    requires IsAListCompanySymbol(code)
    ensures |code| == 6
    ensures forall i :: 0 <= i < 6 ==> IsAsciiDigit(code[i])
  {
  }

  /** Only Shenzhen (leading 0 or 3) and Shanghai (leading 6) boards pass:
      a code starting with any other character, such as 7 or 9, is rejected. */
  lemma ValidCodesStartWithBoardDigit(code: string)
    requires IsAListCompanySymbol(code)
    ensures code[0] == '0' || code[0] == '3' || code[0] == '6'
  {
  }

  /** The doctests of the validator, and the malformed codes its callers must
      not get a proposal for. */
  lemma ValidatorExamples()
    ensures IsAListCompanySymbol("300072")
    ensures !IsAListCompanySymbol("300072.SZ")
    ensures !IsAListCompanySymbol("700072.SZ")
    ensures !IsAListCompanySymbol("70007")
    ensures !IsAListCompanySymbol("7000721")
    ensures !IsAListCompanySymbol("999999")
    ensures !IsAListCompanySymbol("")
  {
    assert "300072"[..3] == "300";
    assert AllAsciiDigits("300072"[3..]);
    assert "999999"[..3] == "999";
  }

  // ---------------------------------------------------------------------------
  // The validator as written, with Python's Unicode-aware `str.isdigit`

  /** Some of the characters Python's `str.isdigit` accepts: the ASCII
      digits, the superscripts one to three, the Arabic-Indic, extended
      Arabic-Indic, Devanagari, Bengali and Thai digits, the circled digits
      one to nine and the fullwidth digits. Python accepts more. */
  predicate PyIsDigitChar(c: char) {
    || IsAsciiDigit(c)
    || c == '\U{00B2}' || c == '\U{00B3}' || c == '\U{00B9}'
    || '\U{0660}' <= c <= '\U{0669}'
    || '\U{06F0}' <= c <= '\U{06F9}'
    || '\U{0966}' <= c <= '\U{096F}'
    || '\U{09E6}' <= c <= '\U{09EF}'
    || '\U{0E50}' <= c <= '\U{0E59}'
    || '\U{2460}' <= c <= '\U{2468}'
    || '\U{FF10}' <= c <= '\U{FF19}'
  }

  /** With the prefix whitelisted, Python's test reduces to its last three
      characters, since the prefixes are ASCII digits. */
  lemma PyPrefixAndDigitsSuffix(code: string)
    ensures ((|code| > 0 && forall i :: 0 <= i < |code| ==> PyIsDigitChar(code[i]))
             && |code| == 6 && code[..3] in BoardPrefixes)
            <==> (|code| == 6 && code[..3] in BoardPrefixes
                  && forall i :: 3 <= i < 6 ==> PyIsDigitChar(code[i]))
  {
    if |code| == 6 && code[..3] in BoardPrefixes {
      BoardPrefixIsDigits(code[..3]);
      assert forall i :: 0 <= i < 3 ==> code[i] == code[..3][i];
    }
  }

  /** `_is_A_list_company_symbol` with `str.isdigit` read as `PyIsDigitChar`
      on every character. */
  function AsWrittenIsAListCompanySymbol(code: string): (b: bool)
    ensures b <==> |code| == 6 && code[..3] in BoardPrefixes
                   && forall i :: 3 <= i < 6 ==> PyIsDigitChar(code[i])
  {
    PyPrefixAndDigitsSuffix(code);
    (|code| > 0 && forall i :: 0 <= i < |code| ==> PyIsDigitChar(code[i]))
    && |code| == 6 && code[..3] in BoardPrefixes
  }

  /** As written, a board prefix followed by three Arabic-Indic digits passes
      the validator, although no listed company has such a code; the ASCII
      validator rejects it. */
  lemma AsWrittenAcceptsNonAsciiDigits()
    ensures AsWrittenIsAListCompanySymbol("300\U{0660}\U{0667}\U{0662}")
    ensures !IsAListCompanySymbol("300\U{0660}\U{0667}\U{0662}")
  {
    var code := "300\U{0660}\U{0667}\U{0662}";
    assert code[..3] == "300";
    assert !IsAsciiDigit(code[3..][0]);
  }

  /** The ASCII validator only ever narrows the one as written, and the two
      agree on every code made of ASCII characters. */
  lemma AsciiValidatorRefinesAsWritten(code: string)
    ensures IsAListCompanySymbol(code) ==> AsWrittenIsAListCompanySymbol(code)
    ensures (forall i :: 0 <= i < |code| ==> code[i] < '\U{80}') ==>
              IsAListCompanySymbol(code) == AsWrittenIsAListCompanySymbol(code)
  {
  }

  // ---------------------------------------------------------------------------
  // The proposal builder

  /** The `RimProposal` named tuple. */
  datatype RimProposal = RimProposal(
    code: string,
    bps2018: Float,
    eps2018: Float,
    industryRoe: Float,
    eps2019: Float,
    eps2020: Float,
    eps2021: Float)

  /** One row of the indicator table, indexed by company code. */
  datatype IndicatorRow = IndicatorRow(bps: Float, eps: Float)

  /** One row of the EPS forecast table, indexed by company code. */
  datatype ForecastRow = ForecastRow(eps2019: Float, eps2020: Float, eps2021: Float)

  /** The tuple (industry code, industry name, industry ROE). */
  datatype IndustryRoe = IndustryRoe(industryCode: string, industryName: string, roe: Float)

  /** The four injected lookups. A table is a map from company code to its row,
      so `.loc` on a missing code is a missing key; the two industry lookups
      answer None where they would raise. */
  datatype Sources = Sources(
    getIndicator: string -> map<string, IndicatorRow>,
    getEpsForecast: string -> map<string, ForecastRow>,
    swIndustryCode: string -> Option<string>,
    industryRoe: string -> Option<IndustryRoe>)

  /** Why no proposal is built: the failed assert, or the lookup that raised. */
  datatype BuildError = InvalidCode | MissingIndicator | MissingForecast | MissingIndustryCode | MissingIndustryRoe

  datatype Result<T> = Ok(value: T) | Err(error: BuildError)

  /** The fiscal period of the base-year figures. */
  const IndicatorPeriod: string := "2018"

  /** The vintage date of the forecast snapshot. */
  const ForecastDate: string := "2020-03-12"

  /** `fn_industry_roe(fn_sw2_code(code))[2]`, None where either call raises. */
  function IndustryRoeOf(code: string, src: Sources): (r: Result<Float>)
    ensures r.Ok? <==> src.swIndustryCode(code).Some?
                       && src.industryRoe(src.swIndustryCode(code).value).Some?
    ensures r.Ok? ==> r.value == src.industryRoe(src.swIndustryCode(code).value).value.roe
    ensures r.Err? ==> r.error == (if src.swIndustryCode(code).None? then MissingIndustryCode else MissingIndustryRoe)
  {
    match src.swIndustryCode(code)
    case None => Err(MissingIndustryCode)
    case Some(industry) =>
      match src.industryRoe(industry)
      case None => Err(MissingIndustryRoe)
      case Some(entry) => Ok(entry.roe)
  }

  /** No forecast field of a proposal is NaN. */
  predicate ForecastsNormalised(p: RimProposal) {
    !p.eps2019.NaN? && !p.eps2020.NaN? && !p.eps2021.NaN?
  }

  /** `build_rim_proposal`. Failures are reported in the order Python meets
      them: the assert on the code, the indicator row, the forecast row, then
      the industry code and the industry ROE. Base-year figures and the
      industry ROE are copied as they are (a NaN stays NaN); only forecasts
      are normalised. */
  function BuildRimProposal(code: string, src: Sources): (r: Result<RimProposal>)
    ensures r.Ok? <==> && IsAListCompanySymbol(code)
                       && code in src.getIndicator(IndicatorPeriod)
                       && code in src.getEpsForecast(ForecastDate)
                       && IndustryRoeOf(code, src).Ok?
    ensures !IsAListCompanySymbol(code) ==> r == Err(InvalidCode)
    ensures IsAListCompanySymbol(code) && code !in src.getIndicator(IndicatorPeriod) ==>
              r == Err(MissingIndicator)
    ensures (IsAListCompanySymbol(code) && code in src.getIndicator(IndicatorPeriod)
             && code !in src.getEpsForecast(ForecastDate)) ==> r == Err(MissingForecast)
    ensures (IsAListCompanySymbol(code) && code in src.getIndicator(IndicatorPeriod)
             && code in src.getEpsForecast(ForecastDate) && IndustryRoeOf(code, src).Err?) ==>
              r == Err(IndustryRoeOf(code, src).error)
    ensures r.Ok? ==> && r.value.code == code
                      && r.value.bps2018 == src.getIndicator(IndicatorPeriod)[code].bps
                      && r.value.eps2018 == src.getIndicator(IndicatorPeriod)[code].eps
                      && r.value.industryRoe == IndustryRoeOf(code, src).value
    ensures r.Ok? ==> ForecastsNormalised(r.value)
    ensures r.Ok? ==>
              var f := src.getEpsForecast(ForecastDate)[code];
              && (!f.eps2019.NaN? ==> r.value.eps2019 == f.eps2019)
              && (!f.eps2020.NaN? ==> r.value.eps2020 == f.eps2020)
              && (!f.eps2021.NaN? ==> r.value.eps2021 == f.eps2021)
              && (f.eps2019.NaN? ==> r.value.eps2019 == Zero)
              && (f.eps2020.NaN? ==> r.value.eps2020 == Zero)
              && (f.eps2021.NaN? ==> r.value.eps2021 == Zero)
  {
    if !IsAListCompanySymbol(code) then Err(InvalidCode)
    else
      var indicators := src.getIndicator(IndicatorPeriod);
      var forecasts := src.getEpsForecast(ForecastDate);
      if code !in indicators then Err(MissingIndicator)
      else if code !in forecasts then Err(MissingForecast)
      else
        var row := indicators[code];
        var forecast := forecasts[code];
        match IndustryRoeOf(code, src)
        case Err(e) => Err(e)
        case Ok(roe) =>
          Ok(RimProposal(code, row.bps, row.eps, roe,
                         ZeroIfNaN(forecast.eps2019), ZeroIfNaN(forecast.eps2020), ZeroIfNaN(forecast.eps2021)))
  }

  /** The asymmetry between base figures and forecasts: with a NaN in every
      field of both rows, a proposal still comes out, its base figures NaN
      and its forecasts zero. */
  lemma BaseFiguresAreNotNormalised(code: string, src: Sources)
    requires IsAListCompanySymbol(code)
    requires src.getIndicator(IndicatorPeriod) == map[code := IndicatorRow(NaN, NaN)]
    requires src.getEpsForecast(ForecastDate) == map[code := ForecastRow(NaN, NaN, NaN)]
    requires IndustryRoeOf(code, src) == Ok(NaN)
    ensures BuildRimProposal(code, src) == Ok(RimProposal(code, NaN, NaN, NaN, Zero, Zero, Zero))
  {
  }
}
