# VertretungsAnalyse: a Dafny model of the date annotation, key handling and OpenAI call

VertretungsAnalyse is an Outlook add-in. It reads the open email's headers and body and
sends them to the OpenAI chat-completion endpoint. It then annotates every date
(`DD.MM.YYYY`) in the reply with its German weekday abbreviation and shows the result.
This project models that core in Dafny and proves properties about it:

- `Text` (text.dfy): the JavaScript string built-ins the core relies on. These are
  `split` and `join` on one separator character, `includes`, `startsWith`, `trim`,
  `parseInt(s, 10)` and the decimal rendering of a status code.
- `Calendar` (calendar.dfy): what `new Date(year, monthIndex, day).getDay()` computes.
  This is a proleptic Gregorian day count, with ECMAScript's MakeDay carrying of overflowing
  months and days, the 0..99 year offset and the TimeClip range.
- `Utilities` (utilities.dfy): `formatDateWithWeekday`, `formatDateRangeWithWeekdays` and
  `isValidApiKeyFormat` from src/helpers/utilities.js.
- `OpenAiService` (openai_service.dfy): the outcome
  handling of `analyzeEmailWithOpenAI`. This covers the offline check, the not-ok message,
  the reply shape check, the trim, the AbortError mapping and the user-facing
  classification. The module also holds `storeApiKey` and `getApiKey` over a `LocalStorage`
  class whose item map the methods update.
- `DateScan` (date_scan.dfy): the two regular expressions of `callOpenAIAPI` as matchers
  at the front of a text, and `String.prototype.replace` with a global expression. The
  replacement is defined as a function and implemented by a scanning method proved against it.
- `Taskpane` (taskpane.dfy): `getEmailHeaders` and the email content text, and
  `getOrPromptForApiKey` over the local storage and a `RoamingSettings` class. It also holds
  the two replacement passes of `callOpenAIAPI` and `callOpenAIAPI` itself.

The network, the 30-second timer, `prompt()` and `navigator.onLine` are parameters. The
reply of `fetch` is a `FetchOutcome` value, the user's answer to the prompt is an
`Option<string>`, and the connectivity flag is a `bool`.

The model follows the code as written, including where it checks less than a reader might
expect:

- `formatDateRangeWithWeekdays` does not trim the two halves of a range.
- A key is accepted when it starts with `sk-` and is longer than 40 characters. The comment
  at src/helpers/utilities.js:63 speaks of 51 characters.
- Dates are not checked against the calendar. `31.04.2025` is annotated with the weekday of
  1 May 2025, because `Date` carries the overflow.
- Only the substring `500` is classified as a server error, not every 5xx status.
- The key is looked up in local storage only. The roaming settings are written but never read.

## Model

| member | source | states |
|---|---|---|
| Text.ContainsAt | src/services/openai-service.js:107-113 | `includes` holds exactly when the pattern occurs at some index |
| Text.ContainsAfterForeignPrefix | src/services/openai-service.js:80 | a prefix without the pattern's first character neither creates nor hides an occurrence |
| Text.NotContainsForeign | src/services/openai-service.js:107-113 | a text without the pattern's first character does not include it |
| Text.NotContainsAfterMismatch | src/services/openai-service.js:107-113 | a text whose only possible start fails on the second character does not include the pattern |
| Text.ContainsWitness | src/services/openai-service.js:107-113 | an occurrence at an index makes `includes` true |
| Text.ContainsAroundBreak | src/services/openai-service.js:77 | across a character the pattern lacks, an occurrence lies wholly on one side |
| Text.ContainsSameLength | src/services/openai-service.js:109-113 | a text as long as the pattern includes it exactly when the two are equal |
| Text.Count | src/helpers/utilities.js:13-14 | the count of a character is zero exactly when it is absent |
| Text.CountSplit | src/helpers/utilities.js:13-14 | one separator before a separator-free prefix adds one to the count |
| Text.Split | src/helpers/utilities.js:13 | `split` yields one more piece than separators, and no piece holds the separator |
| Text.JoinSplit | src/helpers/utilities.js:13 | joining the pieces of `split` with the separator gives back the text |
| Text.SplitJoinedLines | src/taskpane/taskpane.js:37 | splitting lines joined by a character they lack gives back the lines |
| Text.JoinLast | src/taskpane/taskpane.js:37 | a joined text ends with its last part |
| Text.SplitWithoutSeparator | src/helpers/utilities.js:13-16 | a text without the separator splits into itself alone |
| Text.SplitAtFirst | src/helpers/utilities.js:45 | the first piece is the text before the first separator, the rest is the split of what follows |
| Text.TrimStart | src/services/openai-service.js:94 | the result is a suffix, every dropped character is white space, and it does not start with white space |
| Text.TrimEnd | src/services/openai-service.js:94 | the result is a prefix, every dropped character is white space, and it does not end with white space |
| Text.Trim | src/services/openai-service.js:94 | the result neither starts nor ends with white space and sits in the text between runs of white space |
| Text.TrimKeepsTrimmed | src/services/openai-service.js:94 | a text without white space at its ends is its own trim |
| Text.TrimIdempotent | src/services/openai-service.js:94 | trimming twice is trimming once |
| Text.DigitValue | src/helpers/utilities.js:18-20 | a digit is worth less than ten |
| Text.DigitChar | src/helpers/utilities.js:18-20 | the character of a value below ten is a digit worth that value |
| Text.DigitRunLength | src/helpers/utilities.js:18-20 | the leading run of digits is all digits and is followed by a non-digit or the end |
| Text.ParseInt | src/helpers/utilities.js:18-20 | `parseInt(s, 10)` is a number exactly when, after leading white space and an optional sign, a digit follows |
| Text.ParseIntOfParts | src/helpers/utilities.js:18-20 | white space, an optional sign, a numeral and a rest that starts with no digit parse to the signed value of the numeral |
| Text.ParseTrimmedOfParts | src/helpers/utilities.js:18-20 | once the white space is dropped, the sign and the run of digits decide the value |
| Text.TrimStartAfterSpace | src/helpers/utilities.js:18-20 | leading white space is skipped up to the first other character |
| Text.ParseNumeral | src/helpers/utilities.js:18-20 | a numeral parses to its value |
| Text.DigitRunOfNumeral | src/helpers/utilities.js:18-20 | a numeral is its own run of digits |
| Text.Decimal | src/services/openai-service.js:77 | the decimal text of a number is a numeral worth that number, without a leading zero |
| Text.DecimalThreeDigits | src/services/openai-service.js:77 | a status code from 100 to 999 has three digits |
| Text.DecimalInjective | src/services/openai-service.js:77 | different numbers have different decimal texts |
| Text.ParseDecimal | src/services/openai-service.js:77 | parsing the decimal text of a number gives back the number |
| Calendar.DayNumber | src/helpers/utilities.js:22 | definition: the proleptic Gregorian count of days from 1 January 1970; its properties are the lemmas below |
| Calendar.MakeDay | src/helpers/utilities.js:22 | definition: ECMAScript's MakeDay, the month index carried into the year; see MakeDayInYear and the carrying lemmas |
| Calendar.DaysInMonth | src/helpers/utilities.js:22 | a month has 28 to 31 days, and 29 exactly for February of a leap year |
| Calendar.EpochIsDayZero | src/helpers/utilities.js:22 | 1 January 1970 is day zero |
| Calendar.NextMonth | src/helpers/utilities.js:22 | the first of a month follows the last day of the month before |
| Calendar.NextYear | src/helpers/utilities.js:22 | 1 January follows 31 December |
| Calendar.YearLength | src/helpers/utilities.js:22 | a year has 366 days when it is a leap year and 365 otherwise |
| Calendar.FullYear | src/helpers/utilities.js:22 | years 0 to 99 mean 1900 to 1999, other years are kept |
| Calendar.WeekDay | src/helpers/utilities.js:26 | `getDay` is below 7 |
| Calendar.WeekDayNext | src/helpers/utilities.js:26 | the next day has the next weekday, Saturday wrapping to Sunday |
| Calendar.LocalWeekDay | src/helpers/utilities.js:22-26 | a weekday below 7 exists exactly when the three parts are numbers and the day lies in the `Date` range |
| Calendar.MakeDayInYear | src/helpers/utilities.js:22 | for a month from 1 to 12, MakeDay is the Gregorian day number |
| Calendar.RealDateWeekDay | src/helpers/utilities.js:22-26 | a date of a year from 100 on in range has the weekday of its Gregorian day number |
| Calendar.MakeDayCarriesDay | src/helpers/utilities.js:22 | a day past the month's end is that many days into the next month |
| Calendar.MakeDayCarriesMonth | src/helpers/utilities.js:22 | a month index past December is that month of the next year |
| Utilities.AnnotationKnown | src/helpers/utilities.js:25-29 | every annotation is one of the seven abbreviations or ` (undefined)` |
| Utilities.WeekdayOfParts | src/helpers/utilities.js:18-26 | a weekday of three parts is below 7 |
| Utilities.FormatDateWithWeekday | src/helpers/utilities.js:10-34 | a text that does not split into three pieces is returned unchanged; otherwise the text itself is followed by one annotation |
| Utilities.FormatOfParts | src/helpers/utilities.js:13-29 | three dot-free pieces get the annotation of the weekday computed from the parsed pieces, month minus one |
| Utilities.FormatNumerals | src/helpers/utilities.js:18-29 | three numerals are annotated with the weekday of their values |
| Utilities.WeekdayOfNumerals | src/helpers/utilities.js:18-22 | the weekday of three numerals is that of their values, month minus one |
| Utilities.FormatRealDate | src/helpers/utilities.js:18-29 | a real date is annotated with the abbreviation of its Gregorian weekday |
| Utilities.FormatExample | src/helpers/utilities.js:7-8 | `12.05.2025` becomes `12.05.2025 (Mo)` |
| Utilities.FormatExampleEnd | src/helpers/utilities.js:38 | `14.05.2025` becomes `14.05.2025 (Mi)` |
| Utilities.FormatCarriesOverflow | src/helpers/utilities.js:22 | a day past the end of the month gets the weekday of the matching day of the next month |
| Utilities.OverflowExample | src/helpers/utilities.js:10-29 | `31.04.2025` is not rejected: it becomes `31.04.2025 (Do)` |
| Utilities.OverflowDay | src/helpers/utilities.js:22-26 | 31 April 2025 is the Thursday 1 May 2025 |
| Utilities.FormatNonNumeric | src/helpers/utilities.js:18-29 | a piece that is not a number gives ` (undefined)` |
| Utilities.Undefined | src/helpers/utilities.js:26-29 | an invalid date is annotated ` (undefined)` |
| Utilities.FormatTwoDigitYear | src/helpers/utilities.js:20-22 | a year from 0 to 99 is read as 1900 plus the year |
| Utilities.FormatDateRangeWithWeekdays | src/helpers/utilities.js:41-55 | a text without a hyphen is formatted as a single date, so it is kept as the front of the result |
| Utilities.FormatRangeHalves | src/helpers/utilities.js:44-46 | `A-B` becomes the formatted A, a hyphen and the formatted B |
| Utilities.FormatRangeDropsRest | src/helpers/utilities.js:45-46 | the text after a second hyphen is dropped |
| Utilities.SplitTwoHyphens | src/helpers/utilities.js:45 | the first two pieces of a text with two hyphens are the text before each |
| Utilities.RangeExample | src/helpers/utilities.js:38 | `12.05.2025-14.05.2025` becomes `12.05.2025 (Mo)-14.05.2025 (Mi)` |
| Utilities.IsValidApiKeyFormat | src/helpers/utilities.js:62-65 | definition: a string starting with `sk-` and longer than 40 characters; its properties are the two lemmas below |
| Utilities.ApiKeyFormatIsPrefixAndLength | src/helpers/utilities.js:62-65 | validity depends only on the first three characters and the length |
| Utilities.ApiKeyFormatExamples | src/helpers/utilities.js:62-65 | a missing key, `sk-short` and a wrong-case prefix are refused; a 51-character alphanumeric `sk-` key is accepted, and so is a 41-character `sk-` text of spaces and hyphens |
| DateScan.DateShapeUnique | src/taskpane/taskpane.js:126 | a date at the front of a text has one split into day and month widths |
| DateScan.DateLength | src/taskpane/taskpane.js:126 | a date match is 8 to 10 characters long and lies within the text |
| DateScan.DateLengthOfShape | src/taskpane/taskpane.js:126 | the match length is the two widths plus six |
| DateScan.ShapeOfDateLength | src/taskpane/taskpane.js:126 | every date match has such a split |
| DateScan.RangeLength | src/taskpane/taskpane.js:127 | a range match starts with a date followed by more text and is at least 17 characters long |
| DateScan.MatchAt | src/taskpane/taskpane.js:126-127 | a match is non-empty, within the text and starts with a date |
| DateScan.Replaced | src/taskpane/taskpane.js:130-133 | definition: the global `replace`, leftmost match first, resuming after each match; its properties are the lemmas below |
| DateScan.GlobalReplace | src/taskpane/taskpane.js:130-133 | the scan loop computes the global replacement |
| DateScan.ScanStep | src/taskpane/taskpane.js:130-133 | one step consumes a match or one character and emits its part of the replacement |
| DateScan.NoMatchAtNonDigit | src/taskpane/taskpane.js:126-127 | no match starts at a non-digit |
| DateScan.MatchingDigitLed | src/taskpane/taskpane.js:126-127 | all the expressions start with a digit |
| DateScan.RangeStartsWithDate | src/taskpane/taskpane.js:127 | a range match starts with a date match |
| DateScan.DateOfPrefix | src/taskpane/taskpane.js:126 | a whole date at the front matches itself, whatever follows |
| DateScan.DateHasTwoDots | src/taskpane/taskpane.js:126 | a date has two dots and no hyphen |
| DateScan.RangeOfDates | src/taskpane/taskpane.js:127 | two dates around a hyphen form a range match |
| DateScan.RangeMatchParts | src/taskpane/taskpane.js:127 | every range match is two dates around a hyphen |
| DateScan.NoMatchUnchanged | src/taskpane/taskpane.js:130-133 | a text without a match is unchanged by the replacement |
| DateScan.IdentityUnchanged | src/taskpane/taskpane.js:130-133 | replacing with the identity changes nothing |
| DateScan.SkipNonDigits | src/taskpane/taskpane.js:130-133 | non-digits at the front are copied |
| DateScan.ReplaceAtMatch | src/taskpane/taskpane.js:130-133 | a match at the front is replaced and the scan resumes after it |
| DateScan.ReplaceRange | src/taskpane/taskpane.js:130 | a range at the front is replaced whole |
| DateScan.ReplaceLoneDate | src/taskpane/taskpane.js:133 | a date not followed by a range hyphen is replaced by the range-or-date expression |
| DateScan.ReplaceDate | src/taskpane/taskpane.js:133 | a date at the front is replaced |
| DateScan.HasMatchAfter | src/taskpane/taskpane.js:133 | a match stays found after a character is put in front |
| DateScan.HasMatchOfDate | src/taskpane/taskpane.js:133 | a text that starts with a date has a date match |
| DateScan.NoDateNoMatch | src/taskpane/taskpane.js:126-127 | without a date match there is no range match either |
| OpenAiService.HttpErrorLine | src/services/openai-service.js:77 | definition: `HTTP error <status>: <statusText>`; see HttpLineContains |
| OpenAiService.NotOkMessage | src/services/openai-service.js:76-84 | an unreadable body keeps the HTTP line; a JSON body gives the API prefix followed by its non-empty error message, or else by the HTTP line |
| OpenAiService.FirstContent | src/services/openai-service.js:90 | a reply is accepted exactly when it has a first choice with non-empty content, and the value is that content |
| OpenAiService.Rethrown | src/services/openai-service.js:95-99 | an AbortError becomes the timeout message; any other error keeps its message |
| OpenAiService.Attempt | src/services/openai-service.js:20-99 | offline fails first; success exactly for an ok status with content, whose trimmed text is returned; a rejected fetch and an unreadable ok body give the rethrown message, a status that is not ok gives the not-ok message, and an ok body without content gives the format message |
| OpenAiService.UserFacingMessage | src/services/openai-service.js:107-117 | the first pattern found, in the order fetch or network, 401, 429, 500, decides which of the four fixed texts replaces the message; an unrecognised message is prefixed |
| OpenAiService.AnalyzeEmailWithOpenAI | src/services/openai-service.js:11-119 | it succeeds exactly when the attempt does, with its value; a failure is the user-facing message of the attempt's error |
| OpenAiService.GenericExactlyWhenUnrecognised | src/services/openai-service.js:107-117 | the generic prefix appears exactly for unrecognised messages and keeps the message after it |
| OpenAiService.PatternHeads | src/services/openai-service.js:107-113 | the first characters of the five patterns |
| OpenAiService.UnrecognisedWithoutHeads | src/services/openai-service.js:107-113 | a message without those first characters is not recognised |
| OpenAiService.OwnMessagesUnrecognised | src/services/openai-service.js:107-117 | the offline, malformed and timeout messages reach the user prefixed, not reclassified |
| OpenAiService.OfflineMessage | src/services/openai-service.js:20-22 | offline gives the prefixed offline message |
| OpenAiService.TimeoutMessage | src/services/openai-service.js:95-97 | an abort gives the prefixed timeout message |
| OpenAiService.MalformedReply | src/services/openai-service.js:90-91 | an ok reply without content gives the prefixed malformed-reply message |
| OpenAiService.FetchFailureIsNetworkError | src/services/openai-service.js:107-108 | a failed fetch gives the network message |
| OpenAiService.SuccessIsTrimmedContent | src/services/openai-service.js:94 | success returns the trimmed first content |
| OpenAiService.HttpLineContains | src/services/openai-service.js:77 | the HTTP line of any status holds a pattern the status spells |
| OpenAiService.ApiErrorPrefixContains | src/services/openai-service.js:80 | the API prefix adds no pattern occurrence |
| OpenAiService.CodeNumerals | src/services/openai-service.js:109-113 | a status spells `401`, `429` or `500` exactly when it is that status |
| OpenAiService.NotOkRecognised | src/services/openai-service.js:76-84 | without a JSON error message, the not-ok message holds the status |
| OpenAiService.ClassifyByStatus | src/services/openai-service.js:76-117 | statuses 401, 429 and 500 get their own messages when the body has no error message |
| OpenAiService.JsonMessageHidesStatus | src/services/openai-service.js:76-117 | a JSON error message replaces the status, so only its own text is classified |
| OpenAiService.LocalStorage.GetItem | src/services/openai-service.js:175 | `getItem` is the stored value, or null for an absent key |
| OpenAiService.LocalStorage.SetItem | src/services/openai-service.js:151-152 | `setItem` throws exactly when writes throw or the value exceeds the quota; otherwise it stores or discards, per the storage's behaviour |
| OpenAiService.LocalStorage.RemoveItem | src/services/openai-service.js:144 | `removeItem` drops the key when writes persist |
| OpenAiService.ItemsAfterStoreChanges | src/services/openai-service.js:138-152 | a store sets the key item, removes the test item and keeps every other item |
| OpenAiService.StoreApiKey | src/services/openai-service.js:125-157 | success exactly when storage is available, the test passes (the test value is stored, or writes are dropped but an old test item reads back) and the key write does not throw; the items become `ItemsAfterAttempt` |
| OpenAiService.GetApiKey | src/services/openai-service.js:163-180 | the key item, or null when storage is missing or the item absent |
| OpenAiService.GetAfterStore | src/services/openai-service.js:151-175 | a stored key is read back |
| OpenAiService.ItemsAfterAttempt | src/services/openai-service.js:138-152 | definition: unchanged unless the test write is stored; then the test item is removed and the key stored if it fits (see `ItemsAfterStoreChanges`) |
| OpenAiService.OversizedKeyNotStored | src/services/openai-service.js:151-155 | a key longer than the quota, after a passing test, makes `storeApiKey` report `false`; no key is stored and the test item is gone |
| OpenAiService.StaleTestItemFoolsCheck | src/services/openai-service.js:137-152 | `storeApiKey` on a storage that drops writes but holds an old test item reports success, and `getApiKey` then finds no key |
| Taskpane.AddressList | src/taskpane/taskpane.js:81-82 | one address per recipient, in order |
| Taskpane.Addresses | src/taskpane/taskpane.js:81-82 | definition: the addresses joined with `; `, or the empty text for a missing list; see RecipientCount |
| Taskpane.GetEmailHeaders | src/taskpane/taskpane.js:77-84 | the subject is kept; the sender's address or the empty text; each list's addresses joined with `; `, or the empty text when it is missing |
| Taskpane.AddressesCount | src/taskpane/taskpane.js:81-82 | joining n addresses gives n-1 separators |
| Taskpane.RecipientCount | src/taskpane/taskpane.js:81-82 | the To and CC texts have one separator fewer than recipients |
| Taskpane.EmailContent | src/taskpane/taskpane.js:37 | definition: the four labelled header lines, an empty line and the body; see EmailContentLines |
| Taskpane.EmailContentLines | src/taskpane/taskpane.js:37 | the content's lines are the four header lines, an empty line and the body's lines |
| Taskpane.EmailContentEndsWithBody | src/taskpane/taskpane.js:37 | the content ends with the body |
| Taskpane.StoreInRoamingSettings | src/helpers/utilities.js:72-81 | the roaming item is set when the settings exist |
| Taskpane.KeyChoice | src/taskpane/taskpane.js:90-109 | a saved truthy key is used as is; otherwise the answer is used exactly when its format is valid |
| Taskpane.KeyChoiceChecksOnlyPrompted | src/taskpane/taskpane.js:92-101 | a saved key is not format-checked |
| Taskpane.GetOrPromptForApiKey | src/taskpane/taskpane.js:90-109 | the result is the key choice; only a valid prompted key is stored, and then in both stores; when storage takes the test value and the key, `getApiKey` returns the result afterwards |
| Taskpane.RangePass | src/taskpane/taskpane.js:130 | definition: the global replacement of ranges by the range formatter; see RangePassKeepsDates and RangePassOfRange |
| Taskpane.TwoPasses | src/taskpane/taskpane.js:126-133 | the passes fail exactly when the formatter is missing and a date remains after the range pass |
| Taskpane.TwoPassesWithoutDates | src/taskpane/taskpane.js:130-133 | a reply without dates is returned unchanged |
| Taskpane.RangePassWithoutDates | src/taskpane/taskpane.js:130 | the range pass keeps a reply without dates |
| Taskpane.ShippedRewriteFailsOnDates | src/taskpane/taskpane.js:133 | the shipped rewrite fails exactly on replies that hold a date |
| Taskpane.RangePassKeepsDates | src/taskpane/taskpane.js:130 | the range pass leaves a date in a reply exactly when it had one |
| Taskpane.RangePassKeepsADate | src/taskpane/taskpane.js:130 | a reply with a date still has one after the range pass |
| Taskpane.FormattedDate | src/helpers/utilities.js:10-29 | a date's annotation is one of the known annotations |
| Taskpane.FormattedRange | src/helpers/utilities.js:44-46 | a range is formatted as the annotated start, a hyphen and the annotated end |
| Taskpane.DatePassOverAnnotated | src/taskpane/taskpane.js:133 | the date pass replaces a date and copies the digit-free annotation after it |
| Taskpane.RangePassOfRange | src/taskpane/taskpane.js:130 | the range pass annotates both dates of a range once |
| Taskpane.TwoPassesAnnotateRangeTwice | src/taskpane/taskpane.js:127-133 | both passes together annotate each date of a range twice |
| Taskpane.SecondPassOverRange | src/taskpane/taskpane.js:133 | the date pass annotates the two dates of an annotated range again |
| Taskpane.SecondPassOverDate | src/taskpane/taskpane.js:133 | the date pass annotates an annotated date again |
| Taskpane.AnnotatedReply | src/taskpane/taskpane.js:129-133 | definition of the corrected rewrite: one global pass of the range-or-date expression with the range formatter; see AnnotatedRange and AnnotatedLoneDate |
| Taskpane.AnnotateDates | src/taskpane/taskpane.js:129-133 | one range-or-date pass computes the corrected rewrite |
| Taskpane.AnnotatedWithoutDates | src/taskpane/taskpane.js:129-133 | the corrected rewrite keeps a reply without dates |
| Taskpane.AnnotatedRange | src/taskpane/taskpane.js:130 | the corrected rewrite annotates each date of a range once |
| Taskpane.AnnotatedLoneDate | src/taskpane/taskpane.js:133 | the corrected rewrite annotates a lone date once |
| Taskpane.AnnotatedRangeOnce | src/taskpane/taskpane.js:129-133 | a range alone gets each annotation once |
| Taskpane.RewriteExample | src/taskpane/taskpane.js:125-133 | for `12.05.2025-14.05.2025`: the shipped code fails, the imported formatter doubles the annotations, and the corrected rewrite gives `12.05.2025 (Mo)-14.05.2025 (Mi)` |
| Taskpane.CallResult | src/taskpane/taskpane.js:116-140 | a key or analysis error is rethrown as the prefix followed by its message; a failing pass gives the prefix and the ReferenceError text; success needs a key, an analysis and both passes, and returns the rewritten reply |
| Taskpane.UnrecognisedErrorPrefixedTwice | src/taskpane/taskpane.js:138 | an unrecognised service failure reaches the user with the prefix twice |
| Taskpane.CallOpenAIAPI | src/taskpane/taskpane.js:116-140 | the result of the key choice, the analysis and the passes, in that order; the two stores change exactly as in GetOrPromptForApiKey |

## Left out

- The HTTP request itself is left out: URL, headers, the German system prompt, temperature, token limit and request body (src/services/openai-service.js:29-72). `fetch` is a parameter whose outcome is a `FetchOutcome`. As a result, the email content does not flow into the request.
- The 30-second timer and `AbortController` are left out. A timeout appears as an `AbortError` outcome.
- `navigator.onLine` is a `bool` parameter, and the answer to `prompt()` is an `Option<string>` parameter.
- `console` logging is left out.
- `OpenAiService.NotOkMessage`: an error body that parses to `null` makes `errorData.error` throw inside the inner `try`, which keeps the HTTP line without the prefix. The model has no `null` body. Any other parsed body has an error message that is present or absent.
- `OpenAiService.Attempt`: an ok reply whose body parses to `null` makes `data.choices` throw a TypeError (src/services/openai-service.js:90). The user then sees the engine's TypeError text behind the prefix, not the malformed-reply message. The model has no `null` body, so this path is not modelled.
- `OpenAiService.FirstContent`: content that is a non-string truthy value, and error messages that are not strings, are not modelled.
- Strings are sequences of Unicode characters, while JavaScript counts UTF-16 code units. A character outside the Basic Multilingual Plane has length 1 in the model and 2 in JavaScript, which matters only for the key length check. `trim` uses the white-space set of `IsJsSpace`.
- `Taskpane.TwoPasses`: the ReferenceError text "formatDateWithWeekday is not defined" is the V8 engine's wording. Other engines word it differently.
- `Calendar.LocalWeekDay`: local time is taken to be UTC, so no time zone shift applies. `NaN` inputs are modelled as `None` and infinite values are left out.
- `Utilities.FormatDateWithWeekday`: the `catch` branch is not modelled, because nothing in the `try` can throw for a string argument.
- `Utilities.FormatDateRangeWithWeekdays`: only string arguments are modelled, so its `catch` branch is unreachable and left out.
- `localStorage` writes persist, are discarded or throw (`WriteBehaviour`). A storage whose writes persist also throws for a value longer than its `quota`, so the key write can fail after the test has passed.
- `OpenAiService.LocalStorage`: the quota bounds the length of each written value, not the total size of the storage, and removals are dropped exactly when writes are. A read-back that differs from the written value comes only from a discarded write: there is none when no old test item is present, and the old value otherwise.
- The read side of the roaming settings (`getFromRoamingSettings`, src/helpers/utilities.js:88-98) is left out, because nothing in the core calls it.
- `saveAsync` and its callback are left out. The roaming store is updated synchronously.
- `Taskpane.GetEmailHeaders`: the subject is a string, so an undefined subject is not modelled. A To or CC list is the joined addresses.
- Not modelled:
  - the DOM and the buttons;
  - `getEmailBody`, `displayResult`, `insertAnalysisInEmail`, `showError` and `analyzeEmail`;
  - the newline to `<br>` replacement.
- The second task pane (src/taskpane/taskpane.simple.js) and the deploy script are not part of this model.

## Findings

| source | as written | input that shows it | evidently intended | confidence | as-written member | corrected member |
|---|---|---|---|---|---|---|
| src/taskpane/taskpane.js:133 | `formatDateWithWeekday` is called in the date pass but line 9 imports only `formatDateRangeWithWeekdays`, so the call throws `ReferenceError` and every reply holding a date fails with "Failed to analyze email: formatDateWithWeekday is not defined" | the reply `12.05.2025-14.05.2025` | import both formatters, so that the date pass annotates dates | not executed | Taskpane.ShippedRewriteFailsOnDates | Taskpane.AnnotatedLoneDate |
| src/taskpane/taskpane.js:127-133 | with the formatter imported, the date pass runs over the output of the range pass and annotates the dates inside ranges a second time | `12.05.2025-14.05.2025` becomes `12.05.2025 (Mo) (Mo)-14.05.2025 (Mi) (Mi)` | as the comment at line 132 says, the date pass is for dates outside ranges: each date annotated once | not executed | Taskpane.TwoPassesAnnotateRangeTwice | Taskpane.AnnotatedRangeOnce |

In the model, `Taskpane.TwoPasses` takes the date formatter as an `Option`. `None` is the
code as shipped and `Some(FormatDateWithWeekday)` is the code with the import added.
`Taskpane.RewriteExample` shows both findings on the same reply. `Taskpane.AnnotatedReply`
and `Taskpane.AnnotateDates` are the corrected rewrite: one global pass of the range-or-date
expression. It passes every match to the range formatter, which formats a range as two dates
and a lone date as one date. `Taskpane.AnnotatedRange` and `Taskpane.AnnotatedLoneDate` prove that the
corrected rewrite annotates each date once.
