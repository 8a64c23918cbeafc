# Device-report CSV pipeline and interview-app view models, in Dafny

This project models two programs.

The first is the `csvparser` pipeline. It reads a pipe-delimited device
report made of:
- an `H|ServerID` header line;
- one `R|IMEI1|IMEI2|SerialNumber|DeviceName` line per device;
- a `T|RecordCount` trailer line.

It then validates what it read and projects it onto the
`DeviceReportWrapper` document that the JSON and XML writers serialise.

The second is the state logic of three view models of the `aivoice` app:
login, dashboard and interview session.

Modules, one per file:

- `Text` (`text.dfy`): the Kotlin string functions the parser relies on.
  - `Char.isWhitespace` is modelled with its full character list: ASCII 9-13 and 28-31, the space, and the Unicode space and separator characters.
  - `isBlank`, `trim`, `split` with a one-character delimiter (empty parts are kept), and `String.toInt()`.
  - `lowercase` and `repeat`.
  - Decimal printing of integers, used for messages and for printing a trailer.
- `CsvModel` (`csv_model.dfy`): `Header`, `DeviceLine`, `Trailer` and `ParseResult`.
  - The sealed `CsvParsingException` hierarchy becomes one datatype, `CsvError`, with one variant per subclass.
  - A thrown exception becomes the `Failure` of a `Result`.
- `CsvParser` (`csv_parser.dfy`): `parse` and its three line parsers.
  - `Parse` is the imperative loop of the source with the same three local variables, and `ParseLine` is its body.
  - Both are proved equal to the functional specification `ParseOutcome`.
  - `ParseOutcome` is in turn characterised declaratively (first failing line, missing header or trailer, records in file order).
- `CsvValidator` (`csv_validator.dfy`): `validate`, `validateDataIntegrity`, `validateDeviceLine`, `validateRecordCount` and `isValidImei`.
  - The checks run in the source's order, with the exact messages.
- `OutputWriter` (`output_writer.dfy`): the two writers' projection onto `DeviceReportWrapper`.
  - The document is a tree whose field names are those of the `@JsonProperty` annotations.
  - A reader proves that the tree loses nothing.
- `CsvFormat` (`csv_format.dfy`): the file format as the inverse of the parser.
  - Printing a parse result and parsing the printed lines gives the result back.
- `CsvService` (`csv_service.dfy`): `processFile`, `processFileToString`, `createOutputWriter` and `OutputFormat`.
- `Login` (`login.dfy`), `Dashboard` (`dashboard.dfy`) and `Session` (`session.dfy`): each view model is a class.
  - The `uiState` field holds the UI-state data class, and every method replaces it with a copy, as the source's `_uiState.value = ….copy(…)` does.
  - A coroutine is cut at its suspension point: the update before it happens inside the launching method, and the update after it is a separate completion method.
  - What is still suspended is kept in a field, so a completion resumes only a coroutine that exists.
  - Each step runs as one uninterrupted update. Under `viewModelScope` (`Dispatchers.Main.immediate`), the code between two suspension points runs on the main thread, with nothing interleaved.
  - Use-case results, fresh UUIDs, timestamps and the random voice pick arrive as parameters.

The input file is the list of its lines, and I/O is not modelled.

A note on the source: the whitespace set follows Kotlin's `Char.isWhitespace`, which includes the Unicode separators. Treating only ASCII characters as whitespace would make the model accept strings as non-blank that the source considers blank.

## Model

| member | source | states |
|---|---|---|
| Text.TrimEmptyIffBlank | csvparser/src/main/java/com/csvparser/parser/CsvParser.kt:80-83 | a trimmed string is empty exactly when the original is blank |
| Text.SplitJoin | csvparser/src/main/java/com/csvparser/parser/CsvParser.kt:75 | splitting delimiter-free parts joined by the delimiter gives the parts back |
| Text.JoinSplit | csvparser/src/main/java/com/csvparser/parser/CsvParser.kt:75 | joining the parts of a split with the delimiter gives the string back |
| Text.SplitPartsFree | csvparser/src/main/java/com/csvparser/parser/CsvParser.kt:75 | no part of a split contains the delimiter |
| Text.IntToStringRoundTrip | csvparser/src/main/java/com/csvparser/parser/CsvParser.kt:117-121 | `toInt` reads back every Int printed in decimal |
| CsvParser.ClassifyByFirstTwo | csvparser/src/main/java/com/csvparser/parser/CsvParser.kt:39-57 | a line is an H, R or T line exactly when its first two characters are that letter and `\|` |
| CsvParser.KeptLines | csvparser/src/main/java/com/csvparser/parser/CsvParser.kt:28 | the blank filter keeps no blank line, never adds lines, and leaves nothing exactly when every line is blank |
| CsvParser.KeptLinesOfOne | csvparser/src/main/java/com/csvparser/parser/CsvParser.kt:28 | on a single line the filter drops it exactly when it is blank, and keeps it otherwise |
| CsvParser.KeptLinesAppend | csvparser/src/main/java/com/csvparser/parser/CsvParser.kt:28 | filtering a concatenation filters each part and keeps their order; with `KeptLinesOfOne` this keeps every non-blank line, in file order |
| CsvParser.ParseIgnoresBlankLine | csvparser/src/main/java/com/csvparser/parser/CsvParser.kt:28-31 | inserting a blank line anywhere never changes the outcome of `parse` |
| CsvParser.ParseHeader | csvparser/src/main/java/com/csvparser/parser/CsvParser.kt:74-86 | a part count other than 2 gives the "exactly 2 parts" error; with two parts, a blank trimmed second part gives `MissingField("ServerID cannot be empty")`, and any other gives the header with that trimmed server id |
| CsvParser.ParseRecord | csvparser/src/main/java/com/csvparser/parser/CsvParser.kt:88-104 | a part count other than 5 gives the "exactly 5 parts" error; with five parts, any blank trimmed field gives `MissingField("All record fields must be non-empty: " + line)`, and otherwise the device line of the four trimmed parts |
| CsvParser.ParseTrailer | csvparser/src/main/java/com/csvparser/parser/CsvParser.kt:106-124 | a part count other than 2 gives the "exactly 2 parts" error; with two parts, a blank trimmed count gives `MissingField("Record count cannot be empty")`, one `toInt` refuses gives "Invalid record count format: " + the count text, and one it reads gives the trailer with that Int |
| CsvParser.ParsedFieldsWellFormed | csvparser/src/main/java/com/csvparser/parser/CsvParser.kt:80-103 | every value a line parser returns is non-empty, trimmed and free of `\|` |
| CsvParser.ParseLine | csvparser/src/main/java/com/csvparser/parser/CsvParser.kt:39-58 | one pass of the loop body: the duplicate-header and duplicate-trailer checks, the unknown-prefix error with its 1-based line number, and the new header, device lines and trailer |
| CsvParser.Parse | csvparser/src/main/java/com/csvparser/parser/CsvParser.kt:22-72 | the imperative `parse` (blank filter, "File is empty", then the loop, then the missing-header and missing-trailer checks) returns exactly `ParseOutcome` |
| CsvParser.ScanMatchesSpec | csvparser/src/main/java/com/csvparser/parser/CsvParser.kt:33-65 | after n lines the loop state is the declarative one (last header, all records in order, last trailer) while no line has failed, and is the first failure once one has |
| CsvParser.SectionsInPrefix | csvparser/src/main/java/com/csvparser/parser/CsvParser.kt:41-53 | while no line fails there is at most one H and one T line, and the header or trailer variable is set exactly when such a line was seen |
| CsvParser.ParseStopsAtFirstBadLine | csvparser/src/main/java/com/csvparser/parser/CsvParser.kt:37-64 | fail-fast: the first failing kept line decides the error, whatever follows it |
| CsvParser.ParseWithoutLineErrors | csvparser/src/main/java/com/csvparser/parser/CsvParser.kt:67-71 | with no failing line, a missing header is reported before a missing trailer, and otherwise the result holds the header, the trailer and every record in order |
| CsvParser.ParseSucceedsIff | csvparser/src/main/java/com/csvparser/parser/CsvParser.kt:22-72 | `parse` succeeds exactly on non-empty input without failing lines that has one H and one T line, and then returns the declarative result |
| CsvParser.RecordsInCount | csvparser/src/main/java/com/csvparser/parser/CsvParser.kt:46-48 | while no line fails, one device line is collected per R line |
| CsvParser.RecordsInIgnoresOtherLines | csvparser/src/main/java/com/csvparser/parser/CsvParser.kt:46-48 | a line that is not an R line, wherever it stands, does not change the collected device lines |
| CsvParser.ParsedResultNormalised | csvparser/src/main/java/com/csvparser/parser/CsvParser.kt:80-103 | the server id and every field of every device line that `parse` returns are non-empty, trimmed and free of `\|` |
| CsvValidator.MatchesDigits | csvparser/src/main/java/com/csvparser/validator/CsvValidator.kt:77-80 | the whole string matches `\d{n}` exactly when it has n characters, all ASCII digits |
| CsvValidator.BlankIsNoImei | csvparser/src/main/java/com/csvparser/validator/CsvValidator.kt:54-74 | a blank IMEI is never 15 digits, so the blank checks only choose the message |
| CsvValidator.DeviceLineProblem | csvparser/src/main/java/com/csvparser/validator/CsvValidator.kt:54-75 | `validateDeviceLine` throws exactly on lines that are not valid; its six checks come in source order, each with its own message: blank IMEI1, blank IMEI2, blank serial number, blank device name, then "Invalid IMEI1 format: …" and "Invalid IMEI2 format: …" |
| CsvValidator.CheckLinesFrom | csvparser/src/main/java/com/csvparser/validator/CsvValidator.kt:45-51 | the loop over device lines passes exactly when every line is valid, and a failure is a `ValidationException` |
| CsvValidator.ValidateDataIntegrity | csvparser/src/main/java/com/csvparser/validator/CsvValidator.kt:33-52 | passes exactly when the server id is not blank, the count is not negative and every line is valid; otherwise throws a `ValidationException`, with "Server ID cannot be blank" checked first and then "Record count cannot be negative" |
| CsvValidator.ValidateRecordCount | csvparser/src/main/java/com/csvparser/validator/CsvValidator.kt:24-31 | passes exactly when the number of lines equals the trailer count; otherwise throws a count mismatch carrying expected and actual |
| CsvValidator.ValidateSucceedsIff | csvparser/src/main/java/com/csvparser/validator/CsvValidator.kt:19-22 | `validate` returns normally exactly on valid reports and otherwise throws one of its two declared exceptions |
| CsvValidator.CheckLinesFromFirstBad | csvparser/src/main/java/com/csvparser/validator/CsvValidator.kt:45-51 | from position k on, the first invalid device line decides the failure, with its 1-based position and its own message |
| CsvValidator.ValidateReportsFirstBadLine | csvparser/src/main/java/com/csvparser/validator/CsvValidator.kt:45-51 | with a sound header and trailer, the first invalid line is reported with its 1-based position and its own message |
| CsvValidator.ValidateMismatchLast | csvparser/src/main/java/com/csvparser/validator/CsvValidator.kt:19-31 | the count mismatch is reported only when all other checks pass, and then exactly when the counts differ |
| CsvValidator.NegativeCountRefused | csvparser/src/main/java/com/csvparser/validator/CsvValidator.kt:39-42 | a negative count is refused as such, before any line is checked |
| OutputWriter.WrapperNode | csvparser/src/main/java/com/csvparser/model/DeviceReport.kt:19-22 | the root document has the single field `Devicedetails`, holding one list entry per report |
| OutputWriter.ReadLineOfLineNode | csvparser/src/main/java/com/csvparser/model/DeviceLine.kt:8-20 | a device line read back from its fields `IMEI1`, `IMEI2`, `Serialnumber` and `DeviceName` is the line itself |
| OutputWriter.DocumentRoundTrip | csvparser/src/main/java/com/csvparser/model/DeviceReport.kt:8-22 | reading the document back by its annotated field names gives the wrapper it was built from |
| OutputWriter.ProjectionFaithful | csvparser/src/main/java/com/csvparser/writer/OutputWriter.kt:48-59 | the document holds exactly one report, with the header's server id and the parsed device lines in length and order |
| OutputWriter.WritersAgree | csvparser/src/main/java/com/csvparser/writer/OutputWriter.kt:29-102 | `write` and `toJsonString`/`toXmlString` produce the same document, and the JSON and XML writers differ only in format |
| OutputWriter.EmptyLinesKept | csvparser/src/main/java/com/csvparser/writer/OutputWriter.kt:91-102 | an empty list of device lines stays in the document as an empty list |
| CsvFormat.HeaderLineView | csvparser/src/main/java/com/csvparser/parser/CsvParser.kt:74-86 | a printed header line parses back to its header |
| CsvFormat.RecordLineView | csvparser/src/main/java/com/csvparser/parser/CsvParser.kt:88-104 | a printed record line parses back to its device line |
| CsvFormat.TrailerLineView | csvparser/src/main/java/com/csvparser/parser/CsvParser.kt:106-124 | a printed trailer line parses back to its count, every Int included |
| CsvFormat.FileViews | csvparser/src/main/java/com/csvparser/parser/CsvParser.kt:28-57 | a printed file has no blank line, and its lines classify and decode as its header, its records in order, then its trailer |
| CsvFormat.ParseOfShapedLines | csvparser/src/main/java/com/csvparser/parser/CsvParser.kt:37-71 | lines that decode as one header, then records, then one trailer parse to exactly that header, those records and that trailer |
| CsvFormat.ParseOfPrinted | csvparser/src/main/java/com/csvparser/parser/CsvParser.kt:22-72 | printing a parse result with normalised fields and parsing it again gives the result back |
| CsvFormat.ReprintParsed | csvparser/src/main/java/com/csvparser/parser/CsvParser.kt:22-124 | whatever `parse` returns can be printed, and the printed file parses to the same result |
| CsvFormat.SmallestFile | csvparser/src/main/java/com/csvparser/parser/CsvParser.kt:22-72 | `H\|SERVER123` followed by `T\|0` parses to a header, no device lines and a zero count |
| CsvService.CreateOutputWriter | csvparser/src/main/java/com/csvparser/service/CsvProcessingService.kt:63-68 | JSON gives the JSON writer and XML the XML writer |
| CsvService.Checked | csvparser/src/main/java/com/csvparser/service/CsvProcessingService.kt:27-30 | parse then validate: a success is the parse result, and it is a valid report |
| CsvService.ProcessSucceedsIff | csvparser/src/main/java/com/csvparser/service/CsvProcessingService.kt:21-35 | `processFile` succeeds exactly when parsing succeeds and the result validates, and then writes the parse result's document in the chosen format |
| CsvService.ErrorsPropagate | csvparser/src/main/java/com/csvparser/service/CsvProcessingService.kt:21-61 | a parse or validation exception reaches the caller of either entry point unchanged, and nothing is written |
| CsvService.EntryPointsAgree | csvparser/src/main/java/com/csvparser/service/CsvProcessingService.kt:40-61 | `processFile` and `processFileToString` fail with the same error, or produce the same rendering |
| CsvService.ParsedFilesFailOnlyOnFormatOrCount | csvparser/src/main/java/com/csvparser/validator/CsvValidator.kt:33-75 | on a parsed file only the IMEI formats, the sign of the count and the count itself can fail validation |
| CsvService.SmallestFileProcessed | csvparser/src/main/java/com/csvparser/service/CsvProcessingService.kt:40-61 | the smallest file is accepted, and its document keeps the server id and an empty list of lines |
| Login.ValidateCredentialsAccepts | aivoice/src/main/java/com/aivoiceclassifier/presentation/login/LoginViewModel.kt:20-25 | the check accepts exactly the four demo pairs, after normalising the user name and password |
| Login.ValidateCredentialsNormalises | aivoice/src/main/java/com/aivoiceclassifier/presentation/login/LoginViewModel.kt:109-111 | upper case in the user name and white space at the ends of either field make no difference |
| Login.LoginViewModel.constructor | aivoice/src/main/java/com/aivoiceclassifier/presentation/login/LoginViewModel.kt:121-128 | the initial state has empty fields, all flags off and no error |
| Login.LoginViewModel.UpdateUsername | aivoice/src/main/java/com/aivoiceclassifier/presentation/login/LoginViewModel.kt:27-32 | sets the user name and clears the error, and nothing else changes |
| Login.LoginViewModel.UpdatePassword | aivoice/src/main/java/com/aivoiceclassifier/presentation/login/LoginViewModel.kt:34-39 | sets the password and clears the error, and nothing else changes |
| Login.LoginViewModel.Login | aivoice/src/main/java/com/aivoiceclassifier/presentation/login/LoginViewModel.kt:41-66 | ignored while loading; a blank user name, checked before the password, gives "Username is required", and then a blank password gives "Password is required", neither starting loading; otherwise loading starts with the credentials of that moment |
| Login.LoginViewModel.Resume | aivoice/src/main/java/com/aivoiceclassifier/presentation/login/LoginViewModel.kt:67-102 | loading ends; a user login succeeds exactly when the captured credentials are valid, with "Invalid login credentials" exactly when they are not; the admin login always succeeds |
| Login.LoginViewModel.AdminLogin | aivoice/src/main/java/com/aivoiceclassifier/presentation/login/LoginViewModel.kt:81-91 | ignored while loading; otherwise fills in the admin credentials, enters admin mode and starts loading |
| Login.LoginViewModel.ClearError | aivoice/src/main/java/com/aivoiceclassifier/presentation/login/LoginViewModel.kt:105-107 | only the error changes |
| Login.LoginViewModel.ResetLoginState | aivoice/src/main/java/com/aivoiceclassifier/presentation/login/LoginViewModel.kt:113-118 | clears success and error, and keeps the user name and password |
| Login.RepeatFailingLogin | aivoice/src/main/java/com/aivoiceclassifier/presentation/login/LoginViewModel.kt:41-79 | repeating a failing login leaves the same error, with loading and success both off |
| Dashboard.StoredNameOfInput | aivoice/src/main/java/com/aivoiceclassifier/presentation/dashboard/DashboardViewModel.kt:80-83 | a name that is not blank is stored trimmed and non-empty |
| Dashboard.DashboardViewModel.constructor | aivoice/src/main/java/com/aivoiceclassifier/presentation/dashboard/DashboardViewModel.kt:25-73 | the three built-in items, with Interview selected, and the two sample companies |
| Dashboard.DashboardViewModel.OnItemSelected | aivoice/src/main/java/com/aivoiceclassifier/presentation/dashboard/DashboardViewModel.kt:75-77 | only the selection changes |
| Dashboard.DashboardViewModel.AddCustomItem | aivoice/src/main/java/com/aivoiceclassifier/presentation/dashboard/DashboardViewModel.kt:79-94 | a blank name changes nothing; otherwise exactly one custom, non-default item with the trimmed name is appended and selected, and the earlier items are kept |
| Dashboard.DashboardViewModel.AddCompany | aivoice/src/main/java/com/aivoiceclassifier/presentation/dashboard/DashboardViewModel.kt:96-106 | a blank name changes nothing; otherwise exactly one company with the trimmed name is appended, and the others are kept |
| Dashboard.DashboardViewModel.NavigateToTranslator | aivoice/src/main/java/com/aivoiceclassifier/presentation/dashboard/DashboardViewModel.kt:108-110 | raises the navigation flag |
| Dashboard.DashboardViewModel.OnNavigationHandled | aivoice/src/main/java/com/aivoiceclassifier/presentation/dashboard/DashboardViewModel.kt:112-116 | lowers the navigation flag |
| Dashboard.DashboardViewModel.ClearError | aivoice/src/main/java/com/aivoiceclassifier/presentation/dashboard/DashboardViewModel.kt:118-120 | only the error changes |
| Dashboard.DashboardViewModel.CustomItems | aivoice/src/main/java/com/aivoiceclassifier/presentation/dashboard/DashboardViewModel.kt:88-91 | the item list is always the built-in items followed by custom items with stored names |
| Dashboard.NavigationRoundTrip | aivoice/src/main/java/com/aivoiceclassifier/presentation/dashboard/DashboardViewModel.kt:108-116 | raising and then handling navigation restores the state |
| Session.WithCorrection | aivoice/src/main/java/com/aivoiceclassifier/presentation/session/InterviewSessionViewModel.kt:141-147 | the list keeps its length and order; conversations with the id get the correction, and all others are unchanged |
| Session.WithCorrectionIdempotent | aivoice/src/main/java/com/aivoiceclassifier/presentation/session/InterviewSessionViewModel.kt:138-149 | applying the same correction twice is the same as applying it once |
| Session.WithCorrectionOfAbsentId | aivoice/src/main/java/com/aivoiceclassifier/presentation/session/InterviewSessionViewModel.kt:138-149 | an id that no conversation has changes nothing |
| Session.WithCorrectionOverrides | aivoice/src/main/java/com/aivoiceclassifier/presentation/session/InterviewSessionViewModel.kt:138-149 | a later correction of the same conversation replaces the earlier one |
| Session.TranscriptLineCount | aivoice/src/main/java/com/aivoiceclassifier/presentation/session/InterviewSessionViewModel.kt:159-181 | the transcript has three header lines, three lines per conversation, and one more per correction |
| Session.TranscriptSplitsIntoLines | aivoice/src/main/java/com/aivoiceclassifier/presentation/session/InterviewSessionViewModel.kt:159-181 | when no quoted text holds a line feed, the transcript splits at line feeds into exactly its lines: title, rule, blank line, then per conversation icon and question, answer, correction if any, and a blank line |
| Session.BuildTranscript | aivoice/src/main/java/com/aivoiceclassifier/presentation/session/InterviewSessionViewModel.kt:159-181 | the `buildString` loop produces exactly the transcript text |
| Session.InterviewSessionViewModel.ExportTranscript | aivoice/src/main/java/com/aivoiceclassifier/presentation/session/InterviewSessionViewModel.kt:155-182 | the transcript of the current company name and conversations |
| Session.InterviewSessionViewModel.constructor | aivoice/src/main/java/com/aivoiceclassifier/presentation/session/InterviewSessionViewModel.kt:277-286 | the default state, with no session id and nothing in flight |
| Session.InterviewSessionViewModel.StartSession | aivoice/src/main/java/com/aivoiceclassifier/presentation/session/InterviewSessionViewModel.kt:34-41 | a no-op while active, for a company id of 0 or less, or for a blank name; otherwise marks the session active and the start as waiting |
| Session.InterviewSessionViewModel.CompleteStartSession | aivoice/src/main/java/com/aivoiceclassifier/presentation/session/InterviewSessionViewModel.kt:43-58 | on success stores the session id and sets the company name, active and no error; on failure sets inactive and the failure's message or "Failed to start session" |
| Session.InterviewSessionViewModel.StopSession | aivoice/src/main/java/com/aivoiceclassifier/presentation/session/InterviewSessionViewModel.kt:63-75 | a no-op when inactive; otherwise clears the active flag, the AI flag, the question, the identifying flag and the voice name, and keeps the conversations |
| Session.InterviewSessionViewModel.IdentifyVoice | aivoice/src/main/java/com/aivoiceclassifier/presentation/session/InterviewSessionViewModel.kt:99-105 | a no-op while an identification runs or the session is inactive; otherwise raises the guard and the identifying flag |
| Session.InterviewSessionViewModel.ShowIdentifiedVoice | aivoice/src/main/java/com/aivoiceclassifier/presentation/session/InterviewSessionViewModel.kt:113-119 | shows the picked voice type, one of Human, Machine or AI, and ends identifying |
| Session.InterviewSessionViewModel.EndIdentification | aivoice/src/main/java/com/aivoiceclassifier/presentation/session/InterviewSessionViewModel.kt:121-134 | clears the voice name only if it is still the one shown, and lowers the guard |
| Session.InterviewSessionViewModel.AddCorrection | aivoice/src/main/java/com/aivoiceclassifier/presentation/session/InterviewSessionViewModel.kt:138-149 | a blank correction changes nothing; otherwise the conversations become `WithCorrection` of them |
| Session.InterviewSessionViewModel.ClearError | aivoice/src/main/java/com/aivoiceclassifier/presentation/session/InterviewSessionViewModel.kt:151-153 | only the error changes |
| Session.InterviewSessionViewModel.HandleAudioClassification | aivoice/src/main/java/com/aivoiceclassifier/presentation/session/InterviewSessionViewModel.kt:206-273 | ignored when inactive or for blank text; HUMAN sets the question when it differs, and MACHINE always sets it, both lowering the AI flag; AI, with a question on hand and no reply awaited, sends that question; UNKNOWN changes nothing |
| Session.InterviewSessionViewModel.CompleteAiRequest | aivoice/src/main/java/com/aivoiceclassifier/presentation/session/InterviewSessionViewModel.kt:229-257 | a reply appends exactly one AI conversation with the question sent and clears the question; a failure sets its message or "Failed to get AI response"; an exception sets "Unexpected error: …"; the AI flag goes down in every case |
| Session.QuestionAnswered | aivoice/src/main/java/com/aivoiceclassifier/presentation/session/InterviewSessionViewModel.kt:213-251 | a human question, then an AI voice, then a reply, adds exactly that question with that answer |

The class invariants (`Valid()`), which every method preserves, state the following.
- Login: loading is on exactly while a login is in flight, and a loading state shows no error.
- Dashboard:
  - the built-in items stay first and unchanged;
  - every later item is a non-default custom item with a trimmed, non-empty name;
  - every company name is trimmed and non-empty;
  - something is always selected.
- Session:
  - the guard flag is up exactly while an identification runs;
  - the question on hand and every question sent are empty or not blank;
  - every stored conversation is an AI answer to a non-blank question, and any correction it carries is not blank;
  - a shown voice name is one of the three types.

## Left out

- Reading the input file, and the "File not found" error: the input is the list of the file's lines.
- The catch-all "Error parsing line N" wrapper of `parse`: every helper raises a `CsvParsingException`, so the branch is unreachable, and the model has no such path.
- Jackson's JSON and XML rendering, the XML root element name, `mkdirs` and `writeValue`: an output is the document tree together with its format.
- `Main.kt`: command-line handling, help text and the process exit code.
- `Text.Lowercase`: only ASCII letters are lowered, where Kotlin's `lowercase` also maps other letters. This matters only for user names outside ASCII.
- `Text.ParseInt32`: only ASCII digits are accepted, where `Integer.parseInt` also accepts other Unicode digits. The regular expression `\d{15}` matches ASCII digits in both the model and the source.
- Coroutine timing: the delays are not modelled, and a launched coroutine is assumed to start at once, as under the main dispatcher. What happens after a suspension is a separate completion method, and completions may come in any order.
- `UUID.randomUUID()`, `System.currentTimeMillis()` and `voiceTypes.random()`: these values arrive as parameters.
- The repository save in `stopSession`, and its "Failed to save session" error: persistence is outside this model.
- `startAudioListening` and the collection of the classification flow, including "Audio processing error": the results the flow delivers are calls of `HandleAudioClassification`.
- The `catch` in `identifyVoice` ("Voice identification failed"): it can only be reached by cancelling the coroutine, which the model does not do.
- The other view models and screens, the audio classifier, the network client, repositories and DI modules are not part of this model.
- `WellFormedField`, and with it `CsvFormat.Printable`: the model does not exclude line feeds and carriage returns inside a field. `readLines` never yields a line holding either, so `CsvFormat.ParseOfPrinted` also covers printed "files" whose lines hold them, and such files cannot occur.
