# phishdetect-node: indicators and analysis pipelines in Dafny

This project models two parts of the phishdetect-node server.

**Indicators** (`api_indicators.go`). Administrators submit indicators of compromise:
e-mail addresses and domain names, possibly obfuscated (`a[@]b[.]com`), possibly
already given as SHA-256 hashes. The model covers:

- `cleanIndicator`, which canonicalises a submitted value. `Indicators.CleanIndicator`
  trims white space, lower-cases, undoes the four obfuscations and drops a leading
  `www.` from anything that is not an e-mail address.
- `detectIndicatorType`, which classifies a value as an e-mail or a domain through
  the validator.
- `prepareIndicators`, which groups stored indicators' hashes into the `emails` and
  `domains` lists that clients fetch.
- The per-element loops of the add and toggle handlers, over a `Database` class
  whose `indicators` map is keyed by hash.

  `IndicatorsApi.IndicatorsAdd` and `IndicatorsApi.IndicatorsToggle` are proved
  against prefix-recursive specification functions (`AddAll`/`AddedCount`,
  `ToggleAll`/`ToggledCount`). The database operations may fail at any call. That
  choice, and the time of each addition, is recorded in a ghost `steps`/`done`
  sequence. The lemmas then state what every stored record is and that the store
  stays keyed by hash. They also state that the submitted `type` is ignored, and
  that toggling flips an indicator once per listed occurrence whose lookup and
  update both succeed, so its flag ends negated by the parity of those flips.

**Analysis pipelines** (`analysis.go`):

- `analyzeDomain`, `analyzeURL` and `analyzeHTML` run the analysis library
  statically.
- `analyzeLink` first visits the link in a sandboxed browser.

The library's analysis context and the browser are classes whose methods may change
their fields arbitrarily and may fail. Each call they make is appended to a ghost
`CallLog`. Each pipeline's contract states:

- which error each early return produces, and when;
- that nothing runs after a failed call;
- that URL analysis only follows successful HTML analysis;
- which fields of the answer come from which call.

The base64 decoding of a submitted page is modelled in `Base64` as the standard
padded alphabet with line breaks ignored. It comes with an encoder and the round
trip `DecodeString(Encode(b)) == Some(b)`.

The canonicaliser is not idempotent, and the model follows the code:

- `Indicators.CleanNotIdempotent` shows that `www.www.a.com` loses one `www.` per
  application.
- `Indicators.CleanNestedBrackets` shows that `[[@]]` cleans to `[@]` and only on a
  second application to `@`.

## Model

| member | source | states |
|---|---|---|
| Strings.IsSpace | api_indicators.go:55 | Go's `unicode.IsSpace`: the tab to carriage-return range, space, U+0085, U+00A0, U+1680, U+2000 to U+200A, U+2028, U+2029, U+202F, U+205F and U+3000 |
| Strings.TrimLeftSuffix | api_indicators.go:55 | dropping leading white space leaves a suffix of the input that is empty or starts with a non-space |
| Strings.TrimRightPrefix | api_indicators.go:55 | dropping trailing white space leaves a prefix of the input that is empty or ends with a non-space |
| Strings.TrimSpace | api_indicators.go:55 | the result is a contiguous slice of the input and neither starts nor ends with white space |
| Strings.LowerChar | api_indicators.go:56 | an ASCII capital becomes its lower-case letter (code + 32), every other character is kept, and no capital is produced |
| Strings.ToLower | api_indicators.go:56 | same length, every character lowered position by position, and no ASCII capital remains |
| Strings.HasPrefix | api_indicators.go:62 | Go's `strings.HasPrefix`: the text is at least as long as the prefix and starts with it |
| Strings.ReplaceAll | api_indicators.go:57-60 | replacing a pattern by something no longer never lengthens the text |
| Strings.ReplaceAllNoAsciiUpper | api_indicators.go:57-60 | replacement introduces no capital when neither the text nor the replacement has one |
| Strings.ReplaceAllSkip | api_indicators.go:57-60 | text that cannot start a match is copied unchanged in front of the replaced remainder |
| Strings.ReplaceAllNoMatchIn | api_indicators.go:57-60 | a prefix at none of whose positions the pattern starts is copied unchanged in front of the replaced remainder |
| Strings.ReplaceAllFirst | api_indicators.go:57-60 | the first occurrence is replaced, whatever the prefix before it holds, and scanning resumes after it (left to right, non-overlapping) |
| Strings.ReplaceAllPassOver | api_indicators.go:57-60 | a text whose only possible match start does not begin a match is left unchanged |
| Strings.ReplaceAllAbsent | api_indicators.go:57-60 | a text that does not contain the pattern is left unchanged |
| Indicators.IsSha256 | api_indicators.go:168 | `validateSHA256`: exactly 64 characters, each a hexadecimal digit in either case |
| Indicators.Deobfuscate | api_indicators.go:57-60 | the four replacements never lengthen the value and never introduce a capital |
| Indicators.DeobfuscatePlain | api_indicators.go:57-60 | a value without `[` or `\` is left unchanged by the four replacements |
| Indicators.ReplaceSingle | api_indicators.go:57-60 | one obfuscated separator between plain text is replaced by its plain character |
| Indicators.DeobfuscateBracketAt | api_indicators.go:57 | `a[@]b` with plain `a`, `b` becomes `a@b` |
| Indicators.DeobfuscateBracketDot | api_indicators.go:58 | `a[.]b` with plain `a`, `b` becomes `a.b` |
| Indicators.DeobfuscateEscapedAt | api_indicators.go:59 | `a\@b` with plain `a`, `b` becomes `a@b` |
| Indicators.DeobfuscateEscapedDot | api_indicators.go:60 | `a\.b` with plain `a`, `b` becomes `a.b` |
| Indicators.StripWww | api_indicators.go:62-64 | a value with `@` is kept; otherwise a leading `www.` is removed and nothing else changes |
| Indicators.CleanIndicator | api_indicators.go:54-67 | the canonical value is never longer than the submission and holds no ASCII capital |
| Indicators.CleanSettled | api_indicators.go:55-56 | on a trimmed lower-case value, cleaning is only the replacements and the `www.` rule |
| Indicators.CleanObfuscatedEmail | api_indicators.go:54-67 | `a[@]b` cleans to the address `a@b`, keeping any `www.` since it now contains `@` |
| Indicators.CleanWwwDomain | api_indicators.go:62-64 | a plain lower-case `www.` domain cleans to the name without `www.` |
| Indicators.CleanNotIdempotent | api_indicators.go:62-64 | `www.www.a.com` cleans to `www.a.com`, which cleans again to `a.com`: cleaning is not idempotent |
| Indicators.NestedFirstPass | api_indicators.go:57 | one `[@]` replacement on `[[@]]` leaves `[@]` |
| Indicators.NestedDeobfuscate | api_indicators.go:57-60 | the four replacements take `[[@]]` to `[@]` |
| Indicators.CleanBracketedAt | api_indicators.go:54-67 | the bare obfuscated `[@]` cleans to `@` |
| Indicators.CleanNestedBrackets | api_indicators.go:54-67 | `[[@]]` cleans to `[@]`, and only a second cleaning gives `@` |
| Indicators.TrimTwoSpaces | api_indicators.go:55 | two spaces on each side are trimmed exactly |
| Indicators.CleanTrimmedDomain | api_indicators.go:54-67 | a padded `www.` domain cleans to its lower-cased name without `www.` |
| Indicators.ExampleLowered | api_indicators.go:56 | lower-casing `WWW.Example.com` gives a plain `www.` domain whose name is `example.com` |
| Indicators.CleanExampleDomain | api_indicators.go:54-67 | `  WWW.Example.com  ` cleans to `example.com` |
| Indicators.DetectIndicatorType | api_indicators.go:69-80 | e-mail exactly when the e-mail check passes; domain exactly when it fails and the FQDN check passes; an error exactly when both fail |
| Indicators.HashesOfType | api_indicators.go:86-93 | the hashes of one type are at most as many as the indicators |
| Indicators.HashesOfTypeAppend | api_indicators.go:86-93 | grouping distributes over concatenation, so input order is kept |
| Indicators.HashesOfTypeMembers | api_indicators.go:86-93 | a hash is listed exactly when some indicator of that type carries it |
| Indicators.HashesOfTwoTypes | api_indicators.go:82-101 | the two groups together hold at most one hash per indicator |
| Indicators.PrepareIndicators | api_indicators.go:82-101 | the answer has exactly the keys `emails` and `domains`, each the in-order hashes of its type, together no more than the input |
| IndicatorsApi.Database.GetUserByKey | api_indicators.go:157-161 | a user is found only under a key the store holds |
| IndicatorsApi.Database.AddIndicator | api_indicators.go:198-202 | on success the record is stored under its hash; on failure the store is unchanged |
| IndicatorsApi.Database.GetIndicatorByHash | api_indicators.go:230-233 | a found record is the one stored under that hash |
| IndicatorsApi.Database.UpdateIndicator | api_indicators.go:236-240 | on success the stored record under the hash is replaced; on failure nothing changes |
| IndicatorsApi.Candidate | api_indicators.go:166-196 | a record is built exactly when the value to type (empty for a hash, the cleaned submission otherwise) is detected; it carries the element's time; a hash submission keeps an empty original and the submission as hash; any other carries the cleaned value, its hash, its type and the request's tags, owner and flag |
| IndicatorsApi.AddStep | api_indicators.go:188-204 | the store after one element: the built record is written under its hash when the store accepts it; otherwise the store is as before |
| IndicatorsApi.AddAll | api_indicators.go:164-205 | the store after the loop: one `AddStep` per submitted element, in submission order |
| IndicatorsApi.AddedCount | api_indicators.go:164-205 | the counter never exceeds the number of submitted indicators |
| IndicatorsApi.AddOne | api_indicators.go:165-204 | one element: hashed submissions keep an empty original, others are cleaned and hashed; undetected types are skipped; the record is stored and counted only when the database accepts it |
| IndicatorsApi.IndicatorsAdd | api_indicators.go:147-213 | an unknown API key is refused with the store unchanged; otherwise the store and the counter are the element-by-element result of the loop |
| IndicatorsApi.HashedSubmissionSkipped | api_indicators.go:168-186 | a submission that is already a hash leaves an empty original, which neither validator accepts, so it is never stored |
| IndicatorsApi.AddAllRecords | api_indicators.go:188-204 | every record stored by the loop was built from one submitted element and the request's tags, owner and enabled flag, or was there before |
| IndicatorsApi.AddAllStoresCleaned | api_indicators.go:166-196 | every new record's original is the cleaned submission, its hash is the hash of that value and its type is the detected one |
| IndicatorsApi.AddAllKeyedByHash | api_indicators.go:198 | adding keeps every record stored under its own hash |
| IndicatorsApi.AddAllIgnoresKind | api_indicators.go:188-196 | the request's `type` field changes neither the stored records nor the counter |
| IndicatorsApi.AddAllGrowth | api_indicators.go:198-204 | adding never removes a hash, and the store grows by at most the counter |
| IndicatorsApi.Flip | api_indicators.go:235 | the record under the hash with its enabled flag negated and every other field and record kept |
| IndicatorsApi.ToggleStep | api_indicators.go:226-240 | the store after one element: flipped when the value is a hash, the lookup finds it and the update succeeds; otherwise as before |
| IndicatorsApi.ToggleAll | api_indicators.go:224-243 | the store after the loop: one `ToggleStep` per submitted hash, in submission order |
| IndicatorsApi.ToggledCount | api_indicators.go:224-243 | the counter never exceeds the number of submitted hashes |
| IndicatorsApi.ToggleOne | api_indicators.go:225-242 | one element: a non-hash or unknown hash is skipped; otherwise the record's enabled flag is flipped and counted when the update succeeds |
| IndicatorsApi.IndicatorsToggle | api_indicators.go:215-251 | the store and the counter are the element-by-element result of the loop |
| IndicatorsApi.ToggleAllKeys | api_indicators.go:224-243 | toggling never adds or removes an indicator |
| IndicatorsApi.FlipCount | api_indicators.go:224-243 | the number of successful flips of one hash is at most the number of submitted hashes |
| IndicatorsApi.ToggleAllParity | api_indicators.go:235-236 | an indicator ends enabled-flipped exactly when it was successfully toggled an odd number of times, with its other fields kept |
| IndicatorsApi.ToggleUnlisted | api_indicators.go:224-243 | an indicator whose hash was not submitted is unchanged |
| IndicatorsApi.FlipNone | api_indicators.go:224-243 | a hash that was not submitted is flipped zero times |
| IndicatorsApi.ToggleListedTwice | api_indicators.go:235 | submitting a stored hash twice, both updates succeeding, restores the store |
| IndicatorsApi.ToggleAllKeyedByHash | api_indicators.go:236 | toggling keeps every record stored under its own hash |
| Base64.EncodeChar | analysis.go:160 | a 6-bit value is encoded as a character of the standard alphabet |
| Base64.DecodeChar | analysis.go:160 | a character of the alphabet decodes to a 6-bit value |
| Base64.EncodeDecodeChar | analysis.go:160 | decoding a character and encoding it back gives the character |
| Base64.DecodeEncodeChar | analysis.go:160 | encoding a value and decoding it back gives the value |
| Base64.StripNewlines | analysis.go:160 | line breaks are dropped and nothing is added |
| Base64.StripNewlinesAppend | analysis.go:160 | dropping line breaks distributes over concatenation |
| Base64.StripNewlinesNone | analysis.go:160 | text without line breaks is unchanged |
| Base64.DecodeQuanta | analysis.go:160 | a successful decoding consumed whole four-character quanta |
| Base64.DecodeString | analysis.go:160 | a successful decoding had a multiple of four characters once line breaks are dropped |
| Base64.Encode | analysis.go:160 | the encoding that decoding inverts contains no line break |
| Base64.ThreeRoundTrip | analysis.go:160 | a full quantum decodes back to the three bytes it encodes |
| Base64.DecodeQuantaEncode | analysis.go:160 | decoding the padded encoding of any bytes gives the bytes back |
| Base64.DecodeStringEncode | analysis.go:160 | `DecodeString(Encode(b)) == Some(b)` for all byte strings |
| Base64.DecodeStringIgnoresNewline | analysis.go:160 | inserting a `\r` or `\n` anywhere does not change the decoding |
| Base64.DecodeStringEmpty | analysis.go:156-160 | the empty text decodes to no bytes, so the explicit empty check is what rejects it |
| Base64.DecodeStringPaddingLast | analysis.go:160 | a padded quantum followed by more text is rejected |
| Analysis.BytesToString | analysis.go:164 | the page text has one character per decoded byte, with equal codes |
| Analysis.Context.constructor | analysis.go:38 | a new context holds the URL and page, an empty verdict, and logs its creation |
| Analysis.Context.AnalyzeDomain | analysis.go:41 | the domain analyzer's outcome and the verdict it leaves are logged |
| Analysis.Context.AnalyzeURL | analysis.go:72 | the URL analyzer's outcome and the verdict it leaves are logged |
| Analysis.Context.AnalyzeHTML | analysis.go:121 | the HTML analyzer's outcome and the verdict it leaves are logged |
| Analysis.Context.GetBrand | analysis.go:45 | the chosen brand is logged |
| Analysis.Browser.constructor | analysis.go:105 | a new browser on the normalized URL has loaded nothing and logs its creation |
| Analysis.Browser.Run | analysis.go:106 | the run's outcome and the page it loaded are logged |
| Analysis.AnalyzeDomainPipeline | analysis.go:30-58 | invalid exactly when the normalized input fails validation, with nothing called; a failed analyzer ends the run; success carries the raw input, the normalized URL, the analyzer's verdict and the brand |
| Analysis.AnalyzeUrlPipeline | analysis.go:61-89 | as the domain pipeline, with the URL analyzer |
| Analysis.StopsAtFailureAppend | analysis.go:121-128 | a failure-free prefix followed by a trace that stops at its failure stops at its failure |
| Analysis.HtmlBeforeUrlAppend | analysis.go:121-128 | a prefix without URL analysis keeps URL analysis behind a successful HTML analysis |
| Analysis.AnalyzePage | analysis.go:121-129 | HTML analysis, then URL analysis only if it succeeded, then the brand only if that succeeded |
| Analysis.AnalyzeLinkPipeline | analysis.go:92-146 | invalid exactly when the normalized link fails validation; connection failure exactly when the browser ran and its final URL starts with `chrome-error://`, before any context exists; success carries the final URL, the screenshot as a PNG data URI, the visits, resources and HTML of the browser, and the verdict of the URL analyzer |
| Analysis.AnalyzeHtmlPipeline | analysis.go:149-191 | invalid URL exactly when the URL fails validation; invalid HTML exactly when the URL is valid and the payload is empty or not base64, with nothing called; success carries the URL as final URL and the decoded page |

## Left out

- The HTTP layer is not modelled. This covers JSON decoding and encoding, the response messages, the fetch handlers for recent and all indicators, and the details handler. The analysis handlers in `api_analysis.go` and the `enableAnalysis` gate they test are also out (`main.go:49` declares only `disableAnalysis`). These are plumbing around the core.
- The indicators' time windows in the database's fetch queries are not modelled, because they belong to the fetch handlers.
- `validateSHA256`, `encodeSHA256` and the database implementation are not part of this model.
  - `Indicators.IsSha256` takes the regular expression of `main.go:37` as a whole-string match of 64 hex digits. An unanchored match would also treat longer strings holding 64 hex digits as hashes.
  - The hash function is a parameter.
  - Each database operation may fail or succeed at every call.
  - `AddIndicator`'s policy on an existing hash is taken to be overwrite-or-fail.
- The validator's `email` and `fqdn` rules are predicates passed as parameters, because the validator library is foreign code.
- `NormalizeURL` and `validateURL` are likewise function parameters.
- The analysis library is foreign code.
  - Its analyzers, brand matching and scoring are arbitrary outcomes recorded in the call log.
  - `loadBrands` is not part of this model. It receives a copy of the analysis struct, but a Go struct copy shares the pointer, slice and map fields, so it may well change the brands the original context matches. The model does not depend on this: the brand is an arbitrary value returned by `GetBrand` and logged.
  - The browser sandbox, Docker and `os.Setenv` are not modelled beyond the fields a run fills in.
- Logging of failures is not modelled, because it has no effect on results.
- `time.Now()` is an arbitrary value per stored element, because clocks are outside the model.
- Strings.ToLower: lowers ASCII letters only. Go's `strings.ToLower` lowers every Unicode letter; Unicode case tables are not modelled.
- Strings.TrimSpace: only the Unicode white-space code points listed in `Strings.IsSpace` are trimmed. Go strings are modelled as sequences of code points, so invalid UTF-8 is not modelled.
- Analysis.BytesToString: maps each byte to the character with the same code. Go's `string(bytes)` keeps the bytes, and the UTF-8 reading of multi-byte sequences is not modelled.
- Scores are unbounded integers; Go's `int` is 64 bits wide.

