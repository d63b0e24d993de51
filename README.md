# rsync statistics parser — a Dafny model

This project models the parser that turns the text rsync prints at the end of
a run into numbers and a one-line summary, together with the filter that
prepares that text.

- `ParseRsyncOutput` is the parser class. Its constructor keeps the output
  lines and picks the second-last line as the summary line
  (`sent … bytes  received … bytes  … bytes/sec`). It sorts the lines into six
  buckets by fixed phrases. When the four common buckets hold exactly one line
  each, it decodes seven numbers with `rsyncver3` or `rsyncver2`.
  - `rsyncver3` removes rsync 3's thousands separators.
  - `rsyncver2` serves rsync 2 and openrsync and removes nothing.
  - Both split each line on single spaces and read fixed token positions.
  - `stats()` builds "N files : X MB in Y seconds" from the summary line.
    `formatresult` assembles that sentence.
- `TrimOutput` keeps the output lines that do not end in `/`.
- `TrimOutputFromRsync` does the same. It also raises a flag, once, when a
  kept line contains `rsync error:`.

Modules:

- `Wrappers`: `Option` (Swift's optionals) and `Outcome` (a throwing call that returns nothing).
- `Strings`: the Foundation string operations the code uses, on `seq<char>`:
  - `filter`
  - `replacingOccurrences` of one character by nothing
  - `contains`
  - `components(separatedBy:)` with one separator, empty pieces included
- `Numerals`:
  - Swift's `Int(String)`, with the 64-bit range
  - `Double(String)` on decimal text, as an exact real
  - `String(Int)`
  - rsync 3's thousands grouping
  - the IEEE results of `x / y`, including division by zero
- `ParseRsyncOutput`:
  - the parser class
  - the decoders, as functions of the bucket lines
  - `stats()` as a choice of outcome (`Summarize`) plus its rendering
- `RsyncText`: the statistics lines rsync prints, built from the numbers they
  report, with proofs that the decoders and `stats()` read those numbers back.
  For rsync 3 the "Number of files:" line is generated in the shape that
  carries both a `reg:` and a `dir:` count, and the created and deleted totals
  without their breakdown. A separate lemma shows what the decoder reads from
  the reg-only shape.
- `TrimOutput`, `TrimOutputFromRsync`: the two filters, as classes whose
  per-line method appends to `trimmeddata`.

The parser's text-to-number rendering (`String(Double)` and
`String(format: "%.2f", _)`) is a parameter, `NumberFormat`. Only the
spelling of infinities and NaN is fixed: `inf`, `-inf`, `nan`.

The model follows `ParseRsyncOutput.swift`, which decodes each statistics
line by token position.

## Model

| member | source | states |
|---|---|---|
| ParseRsyncOutput.BucketMember | Sources/ParseRsyncOutput/ParseRsyncOutput.swift:187-202 | a line is in a bucket exactly when it is an output line that contains the bucket's phrase |
| ParseRsyncOutput.BucketOrder | Sources/ParseRsyncOutput/ParseRsyncOutput.swift:187-202 | buckets keep the input order: the bucket of a concatenation is the concatenation of the buckets |
| ParseRsyncOutput.DecodeV2 | Sources/ParseRsyncOutput/ParseRsyncOutput.swift:113-116 | rsync 2 decoding always reports 0 directories, 0 created and 0 deleted files |
| ParseRsyncOutput.Summarize | Sources/ParseRsyncOutput/ParseRsyncOutput.swift:119-159 | the fallback exactly when there is no summary line; "0" exactly when the cleaned summary line has at most 8 spaces (at most 9 tokens); otherwise the file count is `transferNum ?? 0`, the amount is at least sent and at least received, it is received unless sent is strictly larger, and the time is the amount divided by token 8 |
| ParseRsyncOutput.ParseRsyncOutput.Stats | Sources/ParseRsyncOutput/ParseRsyncOutput.swift:119-143 | returns "0" exactly when the summary line splits into at most 9 tokens; with no summary line returns "<count> files :<size> KB in just a few seconds" |
| ParseRsyncOutput.ParseRsyncOutput.FormatResult | Sources/ParseRsyncOutput/ParseRsyncOutput.swift:164-175 | the sentence starts with the given count, or the number of captured lines when none is given, followed by " files : ", and ends with " seconds" |
| ParseRsyncOutput.ParseRsyncOutput.RsyncVer3 | Sources/ParseRsyncOutput/ParseRsyncOutput.swift:55-90 | assigns only the seven numbers; assigns nothing unless all six buckets are non-empty, and then exactly the rsync 3 decoding of each bucket's first line |
| ParseRsyncOutput.ParseRsyncOutput.RsyncVer2 | Sources/ParseRsyncOutput/ParseRsyncOutput.swift:92-117 | assigns only the seven numbers; assigns nothing unless its four buckets are non-empty, and then exactly the rsync 2 decoding of each bucket's first line |
| ParseRsyncOutput.ParseRsyncOutput.SetFigures | Sources/ParseRsyncOutput/ParseRsyncOutput.swift:75-89 | sets the seven numeric fields and leaves the output, summary line, buckets and dialect flag unchanged |
| ParseRsyncOutput.ParseRsyncOutput.constructor | Sources/ParseRsyncOutput/ParseRsyncOutput.swift:178-213 | empty input leaves every field nil except the dialect flag; otherwise the output, the summary line (second-last line when there are more than two) and the six buckets are captured; when a common bucket does not hold exactly one line only `transferNum` is set, to the number of lines; otherwise the dialect's decoding is stored |
| ParseRsyncOutput.StatsUsesFormatResult | Sources/ParseRsyncOutput/ParseRsyncOutput.swift:143-161 | on a long enough summary line, `stats()` is `formatresult` applied to the count, the amount moved and the time |
| Numerals.ParseInt | Sources/ParseRsyncOutput/ParseRsyncOutput.swift:75 | `Int(_)` only yields values within the 64-bit range |
| Numerals.ParseIntToString | Sources/ParseRsyncOutput/ParseRsyncOutput.swift:75 | `Int(String(n)) == n` for every 64-bit `n` |
| Numerals.ParseDoubleDecimal | Sources/ParseRsyncOutput/ParseRsyncOutput.swift:150 | a rate printed with two decimals reads back as its exact value |
| Numerals.StripGrouped | Sources/ParseRsyncOutput/ParseRsyncOutput.swift:62-63 | removing rsync 3's thousands separators from a grouped number leaves its plain digits |
| Numerals.Divide | Sources/ParseRsyncOutput/ParseRsyncOutput.swift:151 | the quotient is finite exactly when the divisor is non-zero and then times the divisor gives the dividend; dividing by zero gives +inf for a positive dividend and NaN for zero |
| Strings.Split | Sources/ParseRsyncOutput/ParseRsyncOutput.swift:97 | splitting never yields an empty list |
| Strings.SplitCount | Sources/ParseRsyncOutput/ParseRsyncOutput.swift:131-143 | a line splits into one more token than it has separators |
| Strings.JoinSplit | Sources/ParseRsyncOutput/ParseRsyncOutput.swift:97 | joining the tokens with the separator gives back the line |
| Strings.SplitJoin | Sources/ParseRsyncOutput/ParseRsyncOutput.swift:97 | splitting words joined by the separator gives back the words when no word holds it |
| Strings.ContainsIff | Tests/ParseRsyncOutputTests/TrimOutputFromRsync.swift:30 | `contains` holds exactly when the pattern occurs at some position |
| RsyncText.TokensOfLine | Sources/ParseRsyncOutput/ParseRsyncOutput.swift:63-68 | a line of space-free words splits into those words, each without thousands separators in rsync 3 mode |
| RsyncText.FileCountV3ReadsBack | Sources/ParseRsyncOutput/ParseRsyncOutput.swift:79-87 | on rsync 3's "Number of files:" line carrying both a `reg:` and a `dir:` count, token 5 is the regular-file count and token 7 without `)` the directory count, with or without a link count |
| RsyncText.FileCountRegOnlyMisread | Sources/ParseRsyncOutput/ParseRsyncOutput.swift:79-87 | on rsync 3's "Number of files: N (reg: R)" line, which has six tokens, the regular-file count reads as nil (token 5 is "R)") and the directory count as 0 (there is no token 7) |
| RsyncText.DecodeV3RoundTrip | Sources/ParseRsyncOutput/ParseRsyncOutput.swift:62-89 | on rsync 3's lines, with a "Number of files:" line carrying both `reg:` and `dir:` counts and created and deleted totals without a breakdown, the rsync 3 decoding recovers the regular-file count, directory count, both sizes and the transferred, created and deleted counts |
| RsyncText.DecodeV2RoundTrip | Sources/ParseRsyncOutput/ParseRsyncOutput.swift:97-116 | on the lines rsync 2 prints, the rsync 2 decoding recovers the file count, both sizes and the transferred count |
| RsyncText.SummaryRoundTrip | Sources/ParseRsyncOutput/ParseRsyncOutput.swift:128-159 | on the summary line rsync prints, in either dialect, the amount is the larger of sent and received and the time is that amount over the printed rate |
| RsyncText.StatsOfSummaryLine | Sources/ParseRsyncOutput/ParseRsyncOutput.swift:119-175 | given rsync's summary line, `stats()` is the sentence with the file count, the larger of sent and received, and that amount over the rate |
| TrimOutput.Trimmed | Sources/ParseRsyncOutput/TrimOutput.swift:26-29 | the kept lines are never more than the input lines |
| TrimOutput.TrimmedNoSlash | Sources/ParseRsyncOutput/TrimOutput.swift:27-28 | no kept line ends in `/` |
| TrimOutput.TrimmedMember | Sources/ParseRsyncOutput/TrimOutput.swift:26-29 | a line is kept exactly when it is an input line not ending in `/`, the empty line included |
| TrimOutput.TrimmedOrder | Sources/ParseRsyncOutput/TrimOutput.swift:18-28 | kept lines keep their relative order: trimming a concatenation trims each part |
| TrimOutput.TrimmedIdempotent | Sources/ParseRsyncOutput/TrimOutput.swift:27-28 | trimming trimmed output changes nothing |
| TrimOutput.TrimmedKeepsClean | Sources/ParseRsyncOutput/TrimOutput.swift:27-28 | output with no line ending in `/` passes unchanged |
| TrimOutput.TrimOutput.ReceiveValue | Sources/ParseRsyncOutput/TrimOutput.swift:26-30 | appends the line exactly when it does not end in `/` |
| TrimOutput.TrimOutput.constructor | Sources/ParseRsyncOutput/TrimOutput.swift:17-32 | `trimmeddata` is the input lines not ending in `/`, in order |
| TrimOutputFromRsync.CheckForRsyncError | Tests/ParseRsyncOutputTests/TrimOutputFromRsync.swift:29-34 | fails exactly when "rsync error:" occurs at some position of the line |
| TrimOutputFromRsync.ErrorSeenIff | Tests/ParseRsyncOutputTests/TrimOutputFromRsync.swift:45-57 | an error has been seen exactly when some kept line contains "rsync error:" |
| TrimOutputFromRsync.ErrorSeenMonotone | Tests/ParseRsyncOutputTests/TrimOutputFromRsync.swift:53-56 | once raised, the error flag stays raised whatever lines follow |
| TrimOutputFromRsync.SlashLineUnchecked | Tests/ParseRsyncOutputTests/TrimOutputFromRsync.swift:46-49 | a line ending in `/` never raises the flag, even when it contains the phrase |
| TrimOutputFromRsync.TrimOutputFromRsync.ReceiveValue | Tests/ParseRsyncOutputTests/TrimOutputFromRsync.swift:45-58 | appends the line unless it ends in `/`; the flag becomes its old value or whether the kept line fails the check |
| TrimOutputFromRsync.TrimOutputFromRsync.constructor | Tests/ParseRsyncOutputTests/TrimOutputFromRsync.swift:36-61 | `trimmeddata` is the input lines not ending in `/`, in order; `errordiscovered` holds exactly when some kept line contains "rsync error:" |

## Left out

- Combine's `publisher`/`sink`, the `subscriptions` set and `@MainActor`: the stream over an in-memory array is a plain loop over the lines, in order.
- Process launch, pipes, notifications and output accumulation are left out. These are `RsyncProcess`, `RsyncProcessNOFilehandler` and `OutputfromProcess`. They are I/O and asynchronous plumbing.
- The test driver `ParseRsyncOutputTests.swift` is left out. It reads files from the user's home directory and calls an API that this `ParseRsyncOutput` does not have.
- The commented-out `EnumNumbers` enum is left out. It is dead code.
- `String(Double)` and `String(format: "%.2f", _)` on finite values are a parameter (`NumberFormat`), not modelled. They depend on Foundation's binary-to-decimal conversion.
- Parsing with `Double(_)` covers an optional sign, digits and at most one `.` with at least one digit, and gives the exact value. Exponents, hexadecimal, `inf`/`nan` spellings, `-0.0` and rounding to binary64 are not modelled.
- Arithmetic on sizes is exact real arithmetic. Binary64 rounding of the division and of `/ 1000 / 1000` is not modelled. Only a zero divisor's IEEE results are.
- Strings are sequences of Unicode scalars. Swift compares and indexes `Character`s (grapheme clusters). For the parser the two differ only for combining sequences, which rsync's statistics lines do not contain. The filters also receive file-list lines, whose names may hold combining sequences (decomposed names on macOS). Their `line.last == "/"` test agrees with the scalar test except for a line whose last cluster is a `/` joined to a preceding prepended mark: Swift keeps that line, the model drops it. A name ending in a decomposed accented letter is kept by both. Their `contains("rsync error:")` test can differ when a scalar of the phrase combines with its neighbours; this case is not modelled.
- ParseRsyncOutput.ParseRsyncOutput.FormatResult: the contract fixes the count prefix and the " seconds" suffix only. The megabyte and seconds texts come from the abstract number format.
- rsync 3.1 and later print a "Number of files:" category only when its count is non-zero, and add a per-category breakdown after a non-zero created or deleted total. The round trips cover the shape with both `reg:` and `dir:` counts and totals without a breakdown. On the reg-only shape the decoder misreads the counts, as `RsyncText.FileCountRegOnlyMisread` states; the other shapes (`dir:` only, a breakdown after the created or deleted total) are not generated.
- The error value caught in `TrimOutputFromRsync` is bound and then discarded by the source, so only the flag is modelled.
- The class's fields are public in the source, and any caller may reassign them. The model only changes them through the members above.
