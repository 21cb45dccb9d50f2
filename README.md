# RIM proposal builder: a Dafny model

This project models the input side of a Residual Income Model (RIM) valuation
service for Chinese A-share listed companies, as implemented in `src/rim.py`:

- the validator `_is_A_list_company_symbol`, which accepts a company code when
  it is six digits long and starts with one of the board prefixes
  `000, 002, 300, 600, 601, 603, 608, 688`;
- the `RimProposal` record and `build_rim_proposal`, which checks the code,
  reads the 2018 indicator row (book value and earnings per share), the EPS
  forecast row of the 2020-03-12 snapshot, and the ROE of the company's
  Shenwan level-2 industry, and assembles one proposal in which the three
  forecast EPS values have NaN replaced by 0 while the base-year figures and
  the industry ROE are copied as they are;
- the memoisation the builder gets from `lru_cache`.

Module `Rim` (`rim.dfy`) holds the validator, the record and the builder;
module `RimCache` (`rim_cache.dfy`) holds the cache.

Modelling choices:

- A double is `Rim.Float`: `NaN`, the two infinities, or a finite real. The
  builder only ever tests for NaN and otherwise copies values, so no
  floating-point arithmetic is needed.
- The four injected lookups are the fields of `Rim.Sources`. The indicator
  and forecast lookups return a table as a map from company code to row, and
  `.loc` on a code with no row is a missing key. The industry lookups return
  `None` where the real function would raise, since their behaviour on
  unknown input is not visible in this repository.
- Exceptions become `Rim.Result` values. `Rim.BuildError` names the failed
  assert (`InvalidCode`) and each lookup that can raise, and failures come
  out in Python's evaluation order: the assert, the indicator row, the
  forecast row, the industry code, the industry ROE.
- Digits are the ASCII digits `'0'..'9'`. Python's `str.isdigit` accepts
  more; see "## Findings".

## Model

| member | source | states |
|---|---|---|
| Rim.ZeroIfNaN | src/rim.py:70 | the result is never NaN; a NaN input becomes 0 and any other value, infinities included, is returned unchanged |
| Rim.AllAsciiDigits | src/rim.py:42 | a character-by-character scan is true exactly when every character of the string is an ASCII digit |
| Rim.IsDigitString | src/rim.py:42 | `isdigit` is true exactly when the string is non-empty and every character is a digit |
| Rim.BoardPrefixIsDigits | src/rim.py:44 | every whitelisted board prefix is three digits long and made only of digits |
| Rim.PrefixAndDigitsSuffix | src/rim.py:42-44 | the source's test (all digits, length 6, whitelisted prefix) holds exactly when the code is a whitelisted prefix followed by three digits |
| Rim.IsAListCompanySymbol | src/rim.py:41-44 | a code is valid exactly when it is six long, its first three characters are a whitelisted board prefix and its last three are digits |
| Rim.ValidCodesAreSixDigits | src/rim.py:42-43 | every valid code has length 6 and all six characters are digits, so the empty string, any other length and any non-digit are rejected |
| Rim.ValidCodesStartWithBoardDigit | src/rim.py:44 | every valid code starts with 0, 3 or 6, so codes starting with 7 or 9 are rejected |
| Rim.ValidatorExamples | src/rim.py:27-39 | `300072` is accepted; `300072.SZ`, `700072.SZ`, `70007`, `7000721`, `999999` and the empty string are rejected |
| Rim.AsWrittenIsAListCompanySymbol | src/rim.py:42-44 | with `isdigit` read as the digits of the listed scripts, a code is accepted exactly when it is six long, has a whitelisted prefix and its last three characters are such digits |
| Rim.PyPrefixAndDigitsSuffix | src/rim.py:42-44 | with a whitelisted prefix, the test with Python's digits reduces to the last three characters |
| Rim.AsWrittenAcceptsNonAsciiDigits | src/rim.py:42 | `300` followed by three Arabic-Indic digits passes the validator as written and fails the ASCII validator |
| Rim.AsciiValidatorRefinesAsWritten | src/rim.py:42-44 | the ASCII validator accepts only codes the validator as written accepts, and the two agree on every code made of ASCII characters |
| Rim.IndustryRoeOf | src/rim.py:75 | the third field of the ROE tuple of the company's industry, or the lookup that failed |
| Rim.BuildRimProposal | src/rim.py:47-78 | a proposal is built exactly when the code is valid, has an indicator row and a forecast row and its industry ROE resolves; an invalid code fails with `InvalidCode` before any lookup, a missing indicator row with `MissingIndicator`, a missing forecast row with `MissingForecast`, and a failed industry lookup with the error `Rim.IndustryRoeOf` names (`MissingIndustryCode`, else `MissingIndustryRoe`); the proposal carries the input code, the indicator row's bps and eps and the industry ROE unchanged, and each forecast field is 0 when the forecast is NaN and the forecast itself otherwise, so no forecast field is ever NaN |
| Rim.BaseFiguresAreNotNormalised | src/rim.py:74-78 | with NaN in every field of both rows a proposal is still built: its bps, eps and industry ROE stay NaN while its three forecasts become 0 |
| RimCache.EmptyMemo | src/rim.py:47 | the empty cache holds no code and agrees with the builder for every set of lookups |
| RimCache.CachedBuild | src/rim.py:47-48 | a call through a cache that agrees with the builder returns exactly what the builder returns, stores the proposal only when the build succeeds, keeps every earlier entry, and leaves a cache that still agrees with the builder |
| RimCache.SecondCallIsCacheHit | src/rim.py:47 | a second call for the same code returns the same result as the first and leaves the cache unchanged |

## Findings

| source | as written | input that shows it | evidently intended | confidence | as-written member | corrected member |
|---|---|---|---|---|---|---|
| src/rim.py:42 | `code.isdigit()` accepts every Unicode decimal digit, so the last three characters of an accepted code may be non-ASCII digits | `'300٠٧٢'` (`300` then U+0660, U+0667, U+0662) is accepted, although no listed company has such a code and the later `.loc` lookup cannot find it | only the ASCII digits `0`-`9` make an A-share code | medium, not executed | Rim.AsWrittenAcceptsNonAsciiDigits | Rim.IsAListCompanySymbol |

The builder in this model uses the ASCII validator `Rim.IsAListCompanySymbol`.
`Rim.PyIsDigitChar` lists only some of the characters Python's `isdigit`
accepts; the finding needs only one.

Further modelling choices, each following the code:

- The code raises `AssertionError` for an invalid code (src/rim.py:68) and
  the lookup's `KeyError` for a missing row (src/rim.py:72-73); the industry
  lookups raise whatever they raise (src/rim.py:75). The model keeps one
  `Rim.BuildError` per raising step.
- The three forecasts are the named fields `eps_2019`, `eps_2020` and
  `eps_2021` of the `RimProposal` named tuple (src/rim.py:11-12), and so they
  are in `Rim.RimProposal`.
- `lru_cache` (src/rim.py:47) keys an entry by the arguments as passed. A
  call that omits the lookups, as at src/api.py:107, is keyed by the code
  alone, and the default lookups are fixed once when the module loads
  (src/rim.py:49-52). The model keeps one cache per `Rim.Sources`; a
  `Rim.Sources` is a set of pure functions, so it stands for the default
  lookups together with one fixed snapshot of the data behind them.

## Left out

- src/api.py: HTTP routing, CORS, response schemas and server start-up are transport, not part of this model.
- `calculate_rim_value` and the valuation grid (discounting, continuing value, rate and growth ranges): they are called from src/api.py:67 but not defined in this repository, so there is no code to model; they would also be floating-point arithmetic.
- `get_profit_forecast` and `get_indicator2018`, called from src/api.py:40 and src/api.py:45, are not defined in this repository either.
- `aqi_db` and its default lookup functions: external data access, replaced by the fields of `Rim.Sources`.
- RimCache.CachedBuild: does not model the capacity of 4096 entries or least-recently-used eviction; a cache that evicts still only ever holds proposals the builder produced, which is what the model states.
- RimCache.CachedBuild: concurrent callers, and keying the cache by the identity of the lookup functions, are not modelled.
- Rim.IsAListCompanySymbol: the `isinstance(code, str)` assert (the doctest with the integer `300072`) is enforced by the parameter type `string` instead of being an error result.
- Rim.BuildRimProposal: running Python with `-O` removes the assert on the code, so an invalid code then reaches the lookups; the model always checks it.
- Rim.ZeroIfNaN: Python returns the integer `0` for a NaN forecast, which the model writes as the real `0.0`; `np.isnan` raising on a non-numeric cell is not modelled.
- Rim.BuildRimProposal: a table with a duplicated company index (where `.loc` returns several rows) or without the `bps`, `eps` or forecast columns is not modelled; a table is a map from code to one complete row.
- Rim.AsWrittenIsAListCompanySymbol: only under-approximates Python's `isdigit`; `Rim.PyIsDigitChar` lists the ASCII, superscript one to three, Arabic-Indic, extended Arabic-Indic, Devanagari, Bengali, Thai, circled one to nine and fullwidth digits, while Python accepts the digits of further scripts too, so some codes the source accepts are rejected here.
- Rim.BuildRimProposal: uses the ASCII validator, so a code whose last three characters include a non-ASCII digit, which passes the assert at src/rim.py:68 as written and then fails at the `.loc` lookups, is rejected here with `InvalidCode` instead of `MissingIndicator`.
- RimCache.CachedBuild: the data behind the lookups is one fixed snapshot; after the data changes, `lru_cache` keeps serving the proposal built from the old data while a fresh build would differ, and such stale entries are not modelled.
