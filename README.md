# Kentucky Medicaid 837I claims processor and documentation tools, modelled in Dafny

This project models the core logic of a small health-care-claims repository:

- **The institutional claim processor** (`codeBase/claimsProcessor.py`):
  - the Kentucky Medicaid validation of claims, six rules with ERROR diagnostics plus advisory WARNING and INFO notices;
  - the subscriber notice pass;
  - the X12 date and control-number formatting;
  - the encoder that cuts the valid claims into batches and writes each batch as one ASC X12 005010X223A2 "837 Health Care Claim: Institutional" document, with ISA/GS/ST, loops 2000A, 2000B, 2010BA, 2300 and 2400, back-patched SE01, and GE/IEA.
- **The documentation helpers**:
  - the Markdown table-of-contents builder (`doc/toc.py`): code-fence removal, ATX/setext heading detection, slug links and hierarchical numbering;
  - the plain-text-to-Markdown line formatter and the JSON fence stripping (`doc/processing.py`);
  - the two filename extractors for download headers and links (`doc/network.py`).

Each file of the source takes its own form here:

- Loops that append to lists become Dafny `method`s with loop invariants. Each is proved equal to a specification function. Examples:
  - `validate_claims` becomes `ClaimsValidation.ValidateClaims`;
  - `remove_code_blocks` becomes `DocToc.RemoveCodeBlocks`;
  - `create_toc`, which mutates its `headerlevels` dictionary, becomes `DocToc.CreateToc`, with the dictionary as a `map`;
  - the `formatTextAsMarkdown` line loop becomes `DocMarkdown.FormatLines`;
  - the step-by-step segment writing becomes `ClaimsEncoder.WriteBatch` and the methods below it.
- The regex matchers and `format_date` are pure functions.
- The properties the code promises are lemmas about those functions.

Modules and files:

| file | module | models |
|---|---|---|
| `text.dfy` | `Text` | Python string operations: `strip` on ASCII whitespace, `split`, `join`, `replace`, `count`, `zfill`, `lower`, `isupper` |
| `claims_model.dfy` | `ClaimsModel` | `ErrorLevel`, `ValidationError` and the claim record |
| `claims_validation.dfy` | `ClaimsValidation` | `validate_claims`, `validate_subscriber_info` |
| `claims_format.dfy` | `ClaimsFormat` | `generate_control_numbers`, `format_date`, batching |
| `claims_segments.dfy` | `ClaimsSegments` | the segments of one 837I document, segment counts, HL ids, the HI segment |
| `claims_encoder.dfy` | `ClaimsEncoder` | `generate_837i_file`: writing, the `[COUNT]` patch, one file per batch |
| `toc.dfy` | `DocToc` | `doc/toc.py` |
| `markdown.dfy` | `DocMarkdown` | `formatTextAsMarkdown`, the fence stripping of `getJsonDict` |
| `network.dfy` | `DocNetwork` | `getFileNameFromHeader`, `getFileNameFromLink` |

The randomness and the clock become inputs:

- Each batch gets one `ClaimsFormat.BatchDraws`: the three numbers `random.randint` draws, and the clock reading `datetime.now()` returns. `ClaimsFormat.ValidDraws` keeps the draws inside `randint`'s ranges and the reading a real date and time of day.
- `ClaimsEncoder.WriteFiles` computes each batch's `Envelope` from its draws. The control numbers come from `GenerateControlNumbers`, and the `%Y%m%d` and `%H%M` strings of the reading from `ClockDate` and `ClockTime`. `ClaimsSegments.Envelopes` lists the envelopes that result.

SE01 is modelled as the code writes it. The code counts every `~` in the file. The X12 SE01 rule counts only the segments from ST to SE inclusive. `ClaimsEncoder.CountIncludesEnvelope` proves that the written value is that X12 count plus 4, for ISA, GS, GE and IEA.

## Model

| member | source | states |
|---|---|---|
| ClaimsValidation.ValidateClaims | codeBase/claimsProcessor.py:97-225 | the kept claims and all diagnostics equal the specification of the loop over claims |
| ClaimsValidation.CheckClaim | codeBase/claimsProcessor.py:103-216 | one claim's `claim_errors`: the six rule errors, a warning per non-`HC` line in order, then the three fixed notices |
| ClaimsValidation.CheckRules | codeBase/claimsProcessor.py:105-169 | the six checks, in source order, each appending its error exactly when it fails |
| ClaimsValidation.CheckCodes | codeBase/claimsProcessor.py:105-136 | transaction type not CH/RP, filing indicator not MC, entity qualifier not 1: one error each, in order |
| ClaimsValidation.CheckIndicators | codeBase/claimsProcessor.py:138-169 | accept assignment not A, benefits cert not Y, release info not Y: appended, in order |
| ClaimsValidation.ValidateSubscriberInfo | codeBase/claimsProcessor.py:480-497 | exactly one SBR01 INFO notice per claim given, in order |
| ClaimsValidation.RuleErrorsShape | codeBase/claimsProcessor.py:105-169 | every rule diagnostic is an ERROR; their fields are exactly the failed checks' fields in order; 0 to 6 of them |
| ClaimsValidation.RuleErrorsEmpty | codeBase/claimsProcessor.py:105-169 | no rule error if and only if the claim meets all six rules |
| ClaimsValidation.AcceptedTypes | codeBase/claimsProcessor.py:26 | the accepted transaction types are exactly CH and RP |
| ClaimsValidation.LineWarningsAreWarnings | codeBase/claimsProcessor.py:172-181 | the service-line diagnostics are all WARNING |
| ClaimsValidation.LineWarningsCount | codeBase/claimsProcessor.py:172-181 | one WARNING per service line whose qualifier is not HC |
| ClaimsValidation.FixedNoticesCounts | codeBase/claimsProcessor.py:188-216 | the fixed notices: two INFO, one WARNING, no ERROR |
| ClaimsValidation.ClaimCounts | codeBase/claimsProcessor.py:103-216 | per claim: ERRORs = number of failed rules (at most 6), WARNINGs = non-HC lines + 1, INFOs = 2 |
| ClaimsValidation.ClaimErrorFields | codeBase/claimsProcessor.py:105-216 | the fields of a claim's ERRORs are exactly its failed rules' fields; advisories add none |
| ClaimsValidation.KeepIffPasses | codeBase/claimsProcessor.py:221-223 | a claim has no ERROR if and only if it meets all six rules |
| ClaimsValidation.HasErrorCount | codeBase/claimsProcessor.py:222 | `any(e.level == ERROR)` holds if and only if the ERROR count is positive |
| ClaimsValidation.KeptArePassing | codeBase/claimsProcessor.py:219-223 | the kept claims are exactly the claims that meet the rules, in input order |
| ClaimsValidation.PassingIsSubsequence | codeBase/claimsProcessor.py:219-223 | the passing claims are an order-preserving subsequence; membership means input and passes |
| ClaimsValidation.ValidClaimsCharacterized | codeBase/claimsProcessor.py:100-225 | `valid_claims` is a subsequence of the input, and a claim is in it if and only if it is in the input and passes |
| ClaimsValidation.AllDiagnosticsInfo | codeBase/claimsProcessor.py:188-219 | the validation results hold exactly two INFO per claim |
| ClaimsValidation.LogCounts | codeBase/claimsProcessor.py:484-495 | adding the subscriber notices of the kept claims adds one INFO per kept claim and no ERROR |
| ClaimsModel.CountLevelConcat | codeBase/claimsProcessor.py:219 | level counts add up over `extend` |
| ClaimsFormat.ControlNumber | codeBase/claimsProcessor.py:229-231 | `str(n).zfill(w)` is all digits, denotes n, and has width w when n fits |
| ClaimsFormat.GenerateControlNumbers | codeBase/claimsProcessor.py:227-232 | ISA13 and GS06 have 9 digits, ST02 has 4, each denoting its draw |
| ClaimsFormat.ParseIsoDate | codeBase/claimsProcessor.py:239 | a parsed date has a year 1-9999, a month 1-12, and a day that exists in that month |
| ClaimsFormat.FormatDate | codeBase/claimsProcessor.py:234-242 | falsy gives ''; unparseable is returned unchanged; a parsed date gives 8 digits starting with its year |
| ClaimsFormat.FormatDateRoundTrip | codeBase/claimsProcessor.py:239-240 | the output read back with `%Y%m%d` is the date that was parsed |
| ClaimsFormat.FormatDateDropsDashes | codeBase/claimsProcessor.py:234-242 | on a valid zero-padded `YYYY-MM-DD` the result is the same digits without the dashes |
| ClaimsFormat.FormatDateIdempotent | codeBase/claimsProcessor.py:234-242 | formatting an already formatted date changes nothing |
| ClaimsFormat.ClockDateReadsBack | codeBase/claimsProcessor.py:263-264 | `now.strftime('%Y%m%d')` is 8 digits, and `%Y%m%d` reads back the clock's date |
| ClaimsFormat.ClockTimeValues | codeBase/claimsProcessor.py:265 | `now.strftime('%H%M')` is 4 digits: the hour, then the minute |
| ClaimsFormat.BatchesFlatten | codeBase/claimsProcessor.py:255 | the batches concatenated are the input |
| ClaimsFormat.BatchesCount | codeBase/claimsProcessor.py:255 | the number of batches is ceil(n / batch_size) |
| ClaimsFormat.BatchesSizes | codeBase/claimsProcessor.py:255 | every batch has 1 to batch_size claims; all but the last have exactly batch_size |
| ClaimsSegments.EnvelopeOfShape | codeBase/claimsProcessor.py:227-232 | a batch's envelope is all digits: ISA13 and GS06 have 9 and ST02 has 4, each denoting its draw; the date reads back as the clock's date, and the time gives its hour and minute |
| ClaimsSegments.Envelopes | codeBase/claimsProcessor.py:258-265 | one envelope per batch, in order, each built from that batch's draws |
| ClaimsSegments.LeftJustify | codeBase/claimsProcessor.py:275-276 | `ljust` pads to the width and keeps the text as its prefix |
| ClaimsSegments.StripEach | codeBase/claimsProcessor.py:412-415 | each comma-separated code is stripped, order and number kept |
| ClaimsSegments.LinesConcat | codeBase/claimsProcessor.py:272-460 | writing two runs of segments one after the other writes their texts concatenated |
| ClaimsSegments.ServiceLinesCount | codeBase/claimsProcessor.py:420-433 | three segments per service line |
| ClaimsSegments.ClaimSegmentsCount | codeBase/claimsProcessor.py:317-451 | a claim writes 18 + 3 per line + 1 for a referring NPI + 2 for an attending NPI segments |
| ClaimsSegments.BodyFromCount | codeBase/claimsProcessor.py:317-451 | the claims of a batch write the sum of their segment counts |
| ClaimsSegments.DocumentSegmentCount | codeBase/claimsProcessor.py:273-460 | a batch document has 10 + the claims' segments |
| ClaimsSegments.ProviderLoopHl | codeBase/claimsProcessor.py:319-323 | the 2000A HL gets the counter value and no parent |
| ClaimsSegments.SubscriberLoopHl | codeBase/claimsProcessor.py:347-350 | the 2000B HL gets the next id and the provider's id as parent |
| ClaimsSegments.ClaimHlPairs | codeBase/claimsProcessor.py:319-350 | each claim writes exactly the two HL segments (id, none) then (id+1, id) |
| ClaimsSegments.BodyHlPairs | codeBase/claimsProcessor.py:313-350 | in a batch the HL ids run 1, 2, ... in order; odd ids have no parent, each even id has the id before it |
| ClaimsSegments.ExpectedHlValues | codeBase/claimsProcessor.py:313-350 | the closed form of the HL ids and parents of claims k, k+1, ... |
| ClaimsSegments.AbfElementsShape | codeBase/claimsProcessor.py:413-415 | ABF elements for the first at most 8 codes, in order |
| ClaimsSegments.HiSegmentShape | codeBase/claimsProcessor.py:406-417 | HI is `ABK:` principal then `ABF:` of the first up to 8 stripped secondary codes, and none when the field is falsy |
| ClaimsSegments.LinesTerminators | codeBase/claimsProcessor.py:468 | without `~` in the data, the text of n segments holds exactly n `~` |
| ClaimsSegments.LinesNoChar | codeBase/claimsProcessor.py:272-460 | a character absent from every segment's data is absent from the written text |
| ClaimsSegments.PrefixFree | codeBase/claimsProcessor.py:273-451 | the header and claim segments carry no `~` or `[` when no claim value does |
| ClaimsSegments.FormatDateFree | codeBase/claimsProcessor.py:234-242 | formatting a date introduces no `~` or `[` |
| ClaimsEncoder.PatchCount | codeBase/claimsProcessor.py:453-471 | the raw file holds one `~` per segment, and only the SE placeholder is replaced, by that count |
| ClaimsEncoder.BatchDocumentShape | codeBase/claimsProcessor.py:272-471 | the final file is every segment in order, ISA to IEA, with SE01 set to the number of segments in the file |
| ClaimsEncoder.DocumentCount | codeBase/claimsProcessor.py:467-471 | SE01 = 10 + the sum over claims of (18 + 3 per line + referring + 2 x attending) |
| ClaimsEncoder.CountIncludesEnvelope | codeBase/claimsProcessor.py:468 | the written SE01 is the ST..SE segment count plus 4 |
| ClaimsEncoder.GeneratedDocument | codeBase/claimsProcessor.py:453-471 | for drawn control numbers, the file ends with SE carrying the count and the drawn ST02, then GE with the drawn GS06, then IEA with the drawn ISA13 |
| ClaimsEncoder.TrailerFacts | codeBase/claimsProcessor.py:453-460 | SE, GE and IEA add three `~` and no `[` after the placeholder |
| ClaimsEncoder.NoEarlyPattern | codeBase/claimsProcessor.py:471 | `SE*[COUNT]` cannot occur in text free of `[` |
| ClaimsEncoder.WriteHi | codeBase/claimsProcessor.py:406-417 | the HI segment as written equals its specification |
| ClaimsEncoder.WriteSecondaryCodes | codeBase/claimsProcessor.py:411-415 | the enumerate loop writes ABF for indexes below 8, of the stripped pieces |
| ClaimsEncoder.WriteServiceLines | codeBase/claimsProcessor.py:420-433 | LX, SV2, DTP*472 per line, in order |
| ClaimsEncoder.WriteClaim | codeBase/claimsProcessor.py:317-451 | one claim's segments, and the counter advanced by exactly 2 |
| ClaimsEncoder.WriteClaimTail | codeBase/claimsProcessor.py:379-451 | loop 2300, the service lines, then the optional referring and attending segments |
| ClaimsEncoder.WriteClaims | codeBase/claimsProcessor.py:313-451 | the claims written in order, with the counter starting at 1 |
| ClaimsEncoder.WriteBatch | codeBase/claimsProcessor.py:272-474 | the file content equals the patched document of the batch |
| ClaimsEncoder.WriteFiles | codeBase/claimsProcessor.py:258-476 | one file per batch, in order, numbered from 1, each with the envelope of its own draws and clock reading |
| ClaimsEncoder.Generate837IFile | codeBase/claimsProcessor.py:244-478 | no claims give no files; otherwise one non-empty batch per file, path numbered from 1 and dated by the batch's clock, content the batch document under the batch's drawn envelope |
| DocToc.RemoveCodeBlocks | doc/toc.py:53-71 | the loop with its `code_block` flag equals the fence-filtering specification |
| DocToc.CleanSubsequence | doc/toc.py:62-71 | the output is a subsequence of the input |
| DocToc.CleanNoFence | doc/toc.py:66-69 | no output line starts with a fence |
| DocToc.CleanUnfenced | doc/toc.py:62-71 | without fences the input is returned whole (and nothing inside an open block is kept) |
| DocToc.CleanConcat | doc/toc.py:65-69 | the pass over a + b is the pass over a then over b from the flag a leaves |
| DocToc.CleanBlock | doc/toc.py:65-69 | a fenced block is dropped whole, fences included, and the flag is closed after it |
| DocToc.IdentifyHeaders | doc/toc.py:11-29 | the indexed loop equals the heading specification |
| DocToc.HeaderLinesShape | doc/toc.py:18-29 | headings come from distinct lines, in increasing line order |
| DocToc.HeaderLinesComplete | doc/toc.py:18-28 | every line that yields a heading is among them |
| DocToc.HeadersOrigin | doc/toc.py:18-28 | one heading per contributing line: itself for `#+ `, `# `/`## ` + the previous line (the last for line 0) for `=`/`-` underlines |
| DocToc.HeadersAreHeadings | doc/toc.py:18-29 | every heading found starts with hashes and a space |
| DocToc.FormatHeader | doc/toc.py:32-50 | the counting loop equals the entry specification, with IndexError on an all-`#` header as `None` |
| DocToc.HeaderParts | doc/toc.py:40-50 | for n hashes then rest: level n, title the stripped rest, link `#` + slug of rest |
| DocToc.KeepLinkChars | doc/toc.py:47 | only letters, digits, spaces and hyphens are kept |
| DocToc.KeepLinkCharsCounts | doc/toc.py:47 | every character in the class occurs as often as in the input, and every other character is gone |
| DocToc.KeepLinkCharsWhole | doc/toc.py:47 | a text of class characters only is returned unchanged |
| DocToc.Hyphenate | doc/toc.py:47-49 | each space becomes a hyphen, every other character kept |
| DocToc.HyphenateReplaces | doc/toc.py:47-49 | that char-wise map is `replace(" ", "-")` |
| DocToc.SingleDashesReplaces | doc/toc.py:49 | the dash pass is `replace("--", "-")` |
| DocToc.LinkShape | doc/toc.py:47-49 | the link after `#` holds only lowercase letters, digits and hyphens |
| DocToc.MaxLevel | doc/toc.py:93 | `max` of the levels: at least each and attained |
| DocToc.Ones | doc/toc.py:94 | `dict.fromkeys(range(1, m), 1)` |
| DocToc.ResetLevels | doc/toc.py:98-100 | levels above the current one up to the previous one are reset to 1, the rest kept |
| DocToc.CountersStep | doc/toc.py:96-110 | after the reset, the counter of an entry's level is its number, and the counters stay in step |
| DocToc.CreateToc | doc/toc.py:74-111 | the loop with its counter dictionary equals the numbering specification; failure on no entries or a level below 1 |
| DocToc.TocLines | doc/toc.py:96-110 | a line per entry within the limit, in order, each with the entry's number |
| DocToc.TocShape | doc/toc.py:91-106 | the title line first, then as many lines as entries at most the limit |
| DocToc.TocLineTabs | doc/toc.py:105 | an entry at level L starts with exactly L-1 tabs, then its number |
| DocToc.SinceCounts | doc/toc.py:96-110 | an entry is numbered 1 + the earlier entries of its level since the last shallower one, hidden ones included |
| DocToc.FormatAll | doc/toc.py:119 | one formatted entry per header, in order |
| DocToc.CollectAll | doc/toc.py:119 | when every header formats, the entries are all there, in order |
| DocToc.GetToc | doc/toc.py:114-122 | the composition of the four passes equals the table-of-contents specification |
| DocToc.TocFailsWithoutHeadings | doc/toc.py:93-122 | getTOC fails exactly when no heading lies outside fenced code |
| DocMarkdown.FormatTextAsMarkdown | doc/processing.py:72-134 | the placeholder for empty text; otherwise the specification, which holds no run of three line breaks |
| DocMarkdown.FormatLines | doc/processing.py:92-126 | the loop with its flags equals the line-by-line specification |
| DocMarkdown.FormatLine | doc/processing.py:96-126 | one line's output and both flags after it |
| DocMarkdown.TableLineBars | doc/processing.py:105 | splitting on the bar gives at least three pieces exactly when the line has at least two bars |
| DocMarkdown.SeparatorCells | doc/processing.py:110-111 | the separator is a bar, then three hyphens and a bar per column: columns + 1 bars |
| DocMarkdown.TableStart | doc/processing.py:105-111 | a table line outside a table is written stripped, then a separator with one cell per bar, and opens a run |
| DocMarkdown.TableRun | doc/processing.py:99-115 | inside a run, table and blank lines are written stripped, with no further separator |
| DocMarkdown.BlankLine | doc/processing.py:99-102 | a blank line is written as "" and keeps the table flag |
| DocMarkdown.TableEnd | doc/processing.py:116-126 | any other line is written by the heading rules and ends the run |
| DocMarkdown.FormatLength | doc/processing.py:95-126 | between one and two output lines per input line |
| DocMarkdown.FormatWithoutTables | doc/processing.py:95-126 | without tables, exactly one output line per input line |
| DocMarkdown.CollapseNoTriple | doc/processing.py:132 | the result has no three line breaks in a row |
| DocMarkdown.CollapseKeeps | doc/processing.py:132 | text without such a run is unchanged |
| DocMarkdown.CollapseIdempotent | doc/processing.py:132 | applying the substitution twice equals applying it once |
| DocMarkdown.CollapseRun | doc/processing.py:132 | a run of three or more line breaks becomes one rule |
| DocMarkdown.FenceRoundTrip | doc/processing.py:137-140 | a fenced reply gives back exactly its contents |
| DocMarkdown.UnfencedKept | doc/processing.py:138-139 | unfenced text is passed to the parser unchanged |
| DocNetwork.FirstFilename | doc/network.py:22 | the leftmost position where `filename=(.+)` matches, or none |
| DocNetwork.FileNameFromHeader | doc/network.py:20-28 | "" for no or empty header and for no match; otherwise the rest of the line after the leftmost `filename=` |
| DocNetwork.LastLink | doc/network.py:32 | the last slash followed by a name with an inner dot, or none |
| DocNetwork.FileNameFromLink | doc/network.py:31-33 | "" for a multi-line URL or no qualifying slash; otherwise the text after the last qualifying slash |
| DocNetwork.LinkNameIsSuffix | doc/network.py:32-33 | a non-empty result is a suffix of the URL preceded by `/` |
| DocNetwork.LinkNameHasDot | doc/network.py:32 | a non-empty result has a dot with text on both sides |
| DocNetwork.LinkWithoutSlash | doc/network.py:32-33 | a URL with no slash gives "" |

## Left out

- Database access (`connect_to_db`, `fetch_claims_data`): claims are an input sequence of records.
- Filesystem work: creating the output directory, and the write, read-back and rewrite of each file. A file is its path and final contents. The model reads back exactly the text written. Python's text-mode `open(file_path, 'r')` turns each `\r` and `\r\n` into `\n`, so the model's contents match the file only when no claim value holds `\r`.
- `random.randint` and `datetime.now()`: their results are parameters, as `ClaimsFormat.BatchDraws`.
- ClaimsFormat.ClockDate: covers clock years 1000 to 9999 only (`ClaimsFormat.ValidMoment`). A clock set before the year 1000 is not modelled; glibc's `strftime` would write such a year unpadded.
- `print`, `main()`, the log file, and `ValidationError.__str__`, with its timestamp. Message texts are kept as data, by kind and values, and `ClaimsModel.MessageText` spells them out. No property is proved about the wording.
- ClaimsEncoder.Generate837IFile: requires a non-zero batch size only when there are claims. Python raises `ValueError` from `range` with step 0 when there are claims; that failure is not modelled.
- ClaimsEncoder.Generate837IFile: the default `batch_size=100` is not a default here; the caller passes it.
- ClaimsFormat.FormatDate: writes the four year digits of the input. `strftime('%Y')` on C libraries that do not pad years below 1000 would write fewer; that platform behaviour is not modelled.
- Claim fields the code reads without `or ''` are plain strings. A database NULL in them would print as `None`.
- Amounts (`claim_amount`, `charge_amount`) are opaque strings, not numbers.
- ClaimsEncoder.BatchDocumentShape and ClaimsEncoder.PatchCount: assume that no claim value contains `~` or `[`, and that the control numbers are digits. Without that, a `~` in the data changes the count, and a `[` could form a second `SE*[COUNT]`. For envelopes built from draws, `ClaimsSegments.EnvelopeOfShape` proves the digits, and `ClaimsEncoder.GeneratedDocument` keeps only the data assumption.
- ClaimsFormat.ParseIsoDate and ClaimsFormat.FormatDate: the four year digits and the second digit of a day from 10 to 29 are ASCII digits only. `strptime` matches these positions with `\d`, which on `str` also takes any Unicode decimal digit. So `format_date('٢٠٢٤-01-15')` and `format_date('2024-01-1٥')` give `'20240115'` in Python, but the model returns both unchanged, as unparseable.
- `str.strip`, `str.isupper` and `str.lower` are defined on ASCII only; the Unicode semantics are not modelled.
- DocMarkdown.IsNumbering and DocMarkdown.SubsectionStart: `\d` and `\s` in `re.match(r"^[\d\.]+\s+[A-Z]", line)` are the ASCII digits and whitespace. Python's `re` on `str` also matches other Unicode digits and spaces, so a line like `١. Introduction` is a subsection heading in Python but not here.
- `json.loads` in `getJsonDict`: only the fence stripping is modelled.
- DocMarkdown.FormatLine: `tableHeaderRow` is modelled, but nothing reads it, so no property mentions it beyond its update.
- DocMarkdown.FormatTextAsMarkdown: `replace("\r\n", "\n")` is one left-to-right pass, as in Python. No lemma claims the result is free of `\r\n`; for example, `\r\r\n` leaves `\r\n`.
- DocToc.GetToc: takes `depth` explicitly; the default of 2 is the caller's.
- DocToc.CreateToc and DocToc.FormatHeader: an `IndexError`, a `KeyError` or the `ValueError` of `max` become `None`. The exception types are not distinguished.
- The rest of `doc/network.py` (`checkDownloadable`, `downloadFile`, `getFileMD5`, `getFileName`) and of `doc/processing.py` (PDF and Markdown conversion, `saveMarkdown`) depend on HTTP, files or third-party converters.
- `main.py`, `doc/agentic.py`, `doc/rag.py`, `doc/loadingBar.py` and `doc/model.py` are not part of this model. They are the interactive loop, LLM and vector-database calls, a spinner thread and a dataclass.
