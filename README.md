# Smart Car Buying Assistant: job engine, report formatter and key checks

This project models the core of the Smart Car Buying Assistant web
application in Dafny and proves properties of the model. The model has
three parts.

- **The job engine** (`crew_jobs.dfy`, module `CrewJobs`), from `app.py`.
  - `submit_requirements` validates the four form fields and creates a job
    record under a session id built from the current time.
  - `run_crew_background` drives that record through its phases. It sets the
    status to running, then the progress to 10, 20 and 30 with the matching
    task texts, then completes the job or stores the error.
  - `get_status` and `get_results` look records up, and
    `make_json_serializable` (`json_values.dfy`, module `JsonValues`) converts
    them before they are sent back.
  - The two module-level dictionaries `crew_status` and `crew_results` are the
    fields of the class `JobRegistry`. Each record is a `JobEntry` object whose
    fields the executor assigns one at a time. A ghost `history` keeps every
    value the record has had.
  - The executor is proved against `RunTrace`, the sequence of record values
    it writes. `RunMovesForward` and `RunOutcome` state what that sequence
    guarantees: progress never goes down, the status never goes back, and the
    run always ends completed or in error.
- **The report formatter** (`crew_report.dfy`, module `CrewReport`), from
  `format_crew_results` in `app.py`.
  - A header shows the customer profile. The profile is extracted from the
    comma-separated requirements by a first-match-wins keyword cascade, and in
    each slot the last matching part wins.
  - When the transcript says both "Top" and "Recommended", a ranked table
    lists its first ten lines that name a manufacturer.
  - The transcript follows verbatim.
  - Then comes a boilerplate section for each of five marker phrases the
    transcript lacks.
  - The two loops are methods (`ExtractProfile`, `NumberFirstTen`), and so
    are the five appends of the missing sections (`AppendSections`), each
    proved against a specification function. The
    properties (last match wins, first rule wins, the transcript is kept,
    every marker is present) are proved about those functions.
- **The key format checks** (`api_keys.dfy`, module `ApiKeys`), from
  `check_api_keys.py`.
  - `validate_openai_key`, `validate_serper_key` and `validate_brave_key`
    return the pair (valid, message).
  - The `.env` line reader strips the line, skips blank lines and comments,
    cuts at the first `=`, and removes one pair of matching quotes from the
    value.
  - Both readings of the patterns' closing `$` are modelled: Python's, which
    also matches before a final newline, and a strict end-of-text anchor.

`py_text.dfy` (module `PyText`) defines the Python `str` operations used:
`strip()`, `lower()`, `split()`, `split('=', 1)`, the `in` test and
`str(n)`. `Find`, the index of the first `=`, is where `split('=', 1)` cuts.
`wrappers.dfy` holds the `Option` type; Python's `None` is `None`.

### Behaviour worth knowing

- **The vehicle table is conditional.** The table is added only when the
  transcript contains both "Top" and "Recommended". Each of the five sections
  is added only when the transcript lacks its marker phrase.
- **Repeated markers stay repeated.** A marker the transcript already
  repeats is left as it is. `ReportHasEverySection` proves that every marker
  is present at least once.
- **An empty result gets no sections.** An empty or falsy result gives the
  header and the line "No results generated from the crew analysis." and
  nothing else (`EmptyResultReport`).
- **Session ids can collide.** The id has one-second resolution, so a second
  submission in the same second replaces the earlier record. `crew_results`
  keeps the earlier run's text (`Submit`).
- **A failed thread start leaves a stuck record.** The record is written
  before `thread.start()`, so when the start raises, the answer is a 500
  and the record stays at "starting" with progress 0 (`Submit`).
- **Two fallbacks give the same text.** A formatting failure is caught inside
  `format_crew_results` itself, and the executor's own fallback produces the
  same text. Both are modelled as one flag, `formatterRaises`.
- **Reformatting repeats the transcript but adds no section.**
  `ReformatAppendsNoSections` proves that formatting a report a second time
  appends no section. The header and the transcript are repeated.
- **Dict keys are not converted.** `make_json_serializable` converts dict
  values but keeps keys as they are, so a dict with a tuple key stays
  unserializable (`TupleKeyStays`). Job records have string keys, so they are
  serializable.

## Model

| member | source | states |
|---|---|---|
| JsonValues.MakeJsonSerializable | app.py:29-38 | The result holds no tuple and no other object at any depth. str, int, float, bool and None come back unchanged and any other object becomes its `str()`. Lists and tuples become lists of the same length. Dicts keep their keys, in order, and each value is the conversion of the matching value. |
| JsonValues.ConvertedIsFixpoint | app.py:29-38 | Converting a value that holds no tuple and no other object returns it unchanged. |
| JsonValues.ConversionKeepsKeys | app.py:35-36 | Every dict key of the result is a scalar exactly when every dict key of the input is. |
| JsonValues.SerializableIffScalarKeys | app.py:29-38 | The result is serializable (converted, with scalar keys) exactly when every dict key of the input, at any depth, is a scalar. |
| JsonValues.TupleKeyStays | app.py:35-36 | A dict with a tuple key comes back unchanged and stays unserializable. |
| JsonValues.MakeJsonSerializableIdempotent | app.py:29-38 | Converting twice gives the same value as converting once. |
| JsonValues.ListElementwise | app.py:33-34 | Element i of a converted list or tuple is the conversion of element i. |
| JsonValues.DictElementwise | app.py:35-36 | Entry i of a converted dict keeps its key and holds the conversion of value i. |
| PyText.Strip | app.py:256 | `strip()` returns the slice of `s` after its leading whitespace. The slice neither starts nor ends with whitespace, and everything after it is whitespace. |
| PyText.StripUnchanged | check_api_keys.py:177 | A string is its own `strip()` exactly when it neither starts nor ends with whitespace. |
| PyText.StripKeepsOut | check_api_keys.py:180-181 | A character that does not occur in `s` does not occur in `s.strip()`. |
| PyText.Lower | app.py:256 | `lower()` keeps the length, turns each capital A-Z into its lower-case letter (code point + 32), leaves no upper-case letter and keeps every other character. |
| PyText.Find | check_api_keys.py:180 | The index of the first occurrence of the character, or the length when there is none. |
| PyText.FindPrefixFree | check_api_keys.py:179-180 | The text before the first separator holds none, and no separator is found exactly when none occurs. |
| PyText.SplitPiecesFree | app.py:242 | No piece of `s.split(sep)` holds the separator. |
| PyText.JoinSplit | app.py:242 | Joining the pieces of `s.split(sep)` with `sep` gives `s` back. |
| PyText.SplitJoin | app.py:242 | Splitting the join of separator-free pieces gives the pieces back. |
| PyText.LastFieldShape | app.py:258 | `s.split(':')[-1]` holds no ':'. It is all of `s` when there is no ':', and otherwise `s` ends with ':' followed by it. |
| PyText.DecimalString | check_api_keys.py:32 | `str(n)` is a non-empty string of digits without a leading zero. |
| PyText.DecimalRoundTrip | check_api_keys.py:32 | `int(str(n)) == n`. |
| CrewReport.MentionsAnyIff | app.py:257 | A chain of `'w' in part or ...` holds exactly when one of the keywords occurs in the part. |
| CrewReport.SlotValueShape | app.py:258-260 | A colour or mileage part with a ':' stores a value that is shorter than the part and free of ':'. Every other part is stored whole. |
| CrewReport.StoredValueIsNotPlaceholder | app.py:245-273 | A value stored from a part is never "Not specified", since normalized parts hold no capital letter. |
| CrewReport.CascadeIsFirstRule | app.py:257-273 | For any keyword test, the cascade picks no slot exactly when no rule hits. Otherwise it picks the slot of the first rule that hits, and a feature part is must-have exactly when the urgency list hits. |
| CrewReport.ClassifyIsFirstRule | app.py:257-273 | The same three facts for the substring test on a part. |
| CrewReport.RequiredIsColor | app.py:257 | Every part containing "required" contains "red", so it is always classified as a colour. |
| CrewReport.BluetoothIsColor | app.py:257-261 | Every part containing "bluetooth" contains "blue", so it is always classified as a colour and never as a feature. |
| CrewReport.MustHaveSaysMust | app.py:262-263 | A must-have part always contains "must": the "required" test can never make a part must-have. |
| CrewReport.Classify | app.py:257-273 | The slot the keyword cascade assigns a normalized part to, if any. `ClassifyIsFirstRule` states what it does. |
| CrewReport.Header | app.py:276-292 | The title, the date and the eleven profile lines, in the order the source writes them. |
| CrewReport.Report | app.py:234-381 | The text `format_crew_results` returns. `ReportKeepsTranscript`, `ReportHasEverySection` and `EmptyResultReport` state what it holds. |
| CrewReport.ScanIsLastMatch | app.py:255-273 | Each slot of the profile the loop builds holds the value of the last part classified into it, or "Not specified". |
| CrewReport.ExtractProfile | app.py:242-273 | The extraction loop returns the profile of the requirements: each slot holds the value of the last part classified into it. |
| CrewReport.LastMatchUnset | app.py:245-252 | A slot stays "Not specified" exactly when no part is classified into it. |
| CrewReport.LastMatchIsLatest | app.py:255-273 | When part i is classified into a slot and no later part is, the slot holds part i's value. |
| CrewReport.FilterMembers | app.py:310-311 | The selected lines are exactly the lines that pass the test. |
| CrewReport.FilterAppend | app.py:310-311 | Selecting lines distributes over concatenation, so the selection keeps the original order. |
| CrewReport.BrandLinesMembers | app.py:311 | A line is selected for the table exactly when its lower-cased text names one of the ten manufacturers. |
| CrewReport.FilterStopsAtTen | app.py:318-320 | Once ten lines are selected, the remaining lines do not change the first ten. |
| CrewReport.NumberFirstTen | app.py:308-320 | The table loop returns the rows of the first ten selected lines, in order and ranked 1, 2, ..., and stops at the tenth. |
| CrewReport.NumberedAt | app.py:309-318 | Row k holds selected line k with rank k + 1. |
| CrewReport.TableRowShape | app.py:313-317 | A row opens with "\| rank \| ". A line with fewer than six '\|' fields keeps its whole stripped text and ends with the placeholder cells. |
| CrewReport.VehicleTableRows | app.py:299-322 | The table lists the first min(10, n) of the n vehicle lines, in order, and row k starts with rank k + 1. |
| CrewReport.RenderVehicleTable | app.py:301-322 | The table block is the heading, the ranked rows and a blank line. |
| CrewReport.Boilerplate | app.py:328-377 | Each boilerplate section contains its own marker phrase. |
| CrewReport.AppendIfMissing | app.py:328-330 | A section is appended exactly when the transcript lacks its marker. |
| CrewReport.AppendSections | app.py:327-377 | The five conditional appends add exactly the sections whose marker the transcript lacks, in their order. |
| CrewReport.MissingSectionsUnrolled | app.py:327-377 | The appended text is the five conditional sections, one after the other. |
| CrewReport.AppendTranscript | app.py:295-377 | After the header come the table (when the transcript says "Top" and "Recommended"), the transcript, then the missing sections. |
| CrewReport.FormatCrewResults | app.py:234-381 | The returned text is the report of the result, the four fields and the date. |
| CrewReport.ReportKeepsTranscript | app.py:276-325 | The report of a transcript starts with the header and contains the transcript verbatim. |
| CrewReport.EmptyResultReport | app.py:378-379 | With no result, the report is the header followed by the no-results line and nothing else. |
| CrewReport.MissingSectionsCover | app.py:328-377 | A section whose marker the transcript lacks is appended, so its marker appears. |
| CrewReport.ReportHasEverySection | app.py:325-377 | Every one of the five marker phrases appears in the report of a transcript, either given by the transcript or appended. |
| CrewReport.ReformatAppendsNoSections | app.py:327-377 | Formatting a report's text again appends no section, whatever the state. |
| CrewReport.NothingMissing | app.py:327-377 | A text that holds every marker gets no section appended. |
| CrewJobs.Failure | app.py:128-207 | The run fails exactly when the import cascade does not import a crew class, crew creation raises, or `kickoff` raises. An exception other than `ImportError` during the cascade keeps its own message, without a prefix. |
| CrewJobs.Stored | app.py:209-226 | The text a run that gets past `kickoff` stores: the formatted report, or the raw fallback when formatting raises. |
| CrewJobs.StartTrace | app.py:128-207 | The record values the run writes up to the end of `kickoff`, one per assignment, ending in the error handler when something raises. |
| CrewJobs.RunTrace | app.py:126-231 | The record values of a whole run. `RunMovesForward` and `RunOutcome` state what it guarantees. |
| CrewJobs.ResultText | app.py:209-226 | The stored text is the formatted report, or, when formatting raises, `str(result)` or "No results generated". |
| CrewJobs.StoredKeepsTranscript | app.py:209-226 | The stored text of a run with a transcript contains the transcript, whether or not formatting raised. |
| CrewJobs.ProgressMonotone | app.py:130-215 | Along a trace where every step moves forward, progress never decreases, and after a valid progress every progress is 0, 10, 20, 30 or 100. |
| CrewJobs.RunMovesForward | app.py:126-231 | From the record a submission creates, every value the run writes moves forward. Progress goes only through 0, 10, 20, 30, 100 and never down. The status goes from starting to running, then possibly to completed or error, and never back. The last value is terminal. |
| CrewJobs.RunOutcome | app.py:209-231 | A run ends completed exactly when nothing raised, with progress 100, task "Analysis complete!" and the stored text as results. Otherwise it ends in error with the exception's message as error, "Error: " + message as task, and the results unchanged. |
| CrewJobs.FreshRunResults | app.py:209-231 | A run from a fresh record ends either in error with no results, or completed with results and no error. |
| CrewJobs.RecordValue | app.py:102-108 | A job record, as the dict with its five string keys and scalar values, is serializable. |
| CrewJobs.SerializedRecord | app.py:396 | Serializing a record returns the record's dict unchanged. |
| CrewJobs.SessionId | app.py:99 | A session id is "session_" followed by the timestamp. |
| CrewJobs.JobEntry.constructor | app.py:102-108 | A new record is 'starting', progress 0, "Initializing...", with no results and no error. |
| CrewJobs.JobEntry.SetStatus | app.py:130 | One assignment to the status: only the status changes, and the new record is appended to the history. The same holds at app.py:213, 223 and 229. |
| CrewJobs.JobEntry.SetProgress | app.py:131 | One assignment to the progress: only the progress changes, and the new record is appended to the history. |
| CrewJobs.JobEntry.SetTask | app.py:132 | One assignment to the current task: only the task changes, and the new record is appended to the history. |
| CrewJobs.JobEntry.SetResults | app.py:216 | One assignment to the results: only the results change, and the new record is appended to the history. |
| CrewJobs.JobEntry.SetError | app.py:230 | One assignment to the error: only the error changes, and the new record is appended to the history. |
| CrewJobs.JobEntry.Advance | app.py:188-189 | A phase sets the progress and then the task, one assignment each. |
| CrewJobs.JobEntry.Fail | app.py:229-231 | The outer handler sets status 'error', then the error message, then the task "Error: " + message. |
| CrewJobs.JobEntry.Start | app.py:128-207 | The run up to the end of `kickoff` writes exactly the start of the trace. It reports reaching the end of `kickoff` exactly when nothing raised, and then the record is at progress 30, "Researching vehicle market...". |
| CrewJobs.JobEntry.Finish | app.py:212-216 | Completion sets status, progress 100, task and results, in that order. |
| CrewJobs.JobRegistry.constructor | app.py:25-27 | Both dictionaries start empty. |
| CrewJobs.JobRegistry.Submit | app.py:80-124 | A failing environment check is rejected with its message. A missing field is rejected with "All fields are required" and nothing changes. A passing check with every field given creates a fresh record under "session_" + timestamp, other sessions and the results are untouched, and an earlier record with the same id is replaced. The answer is `Started` with the session id, or, when `thread.start()` raises, `ServerError` with its message while the record stays at "starting". |
| CrewJobs.JobRegistry.RunJob | app.py:126-231 | The record goes through exactly the run's trace. A completed run stores its text in the results, and a failed run leaves them unchanged. Every other session's record and its history stay as they were. |
| CrewJobs.JobRegistry.StoreResult | app.py:211-216 | The text goes into the results, and the record is marked completed with the text as its results. Every other session's record stays as it was. |
| CrewJobs.JobRegistry.GetStatus | app.py:388-397 | An unknown id gives "Session not found" (HTTP 404). A known one gives its record's dict. |
| CrewJobs.JobRegistry.GetResults | app.py:406-419 | An id without results gives "Results not found" (HTTP 404). Otherwise the response holds the stored text with the record's dict, or an empty dict when there is no record. |
| ApiKeys.OpenAIReason | check_api_keys.py:20-40 | The checks of `validate_openai_key`, in their order: empty, prefix, too short, too long, characters. Its properties are stated by the lemmas below. |
| ApiKeys.AlnumReason | check_api_keys.py:42-70 | The checks shared by `validate_serper_key` and `validate_brave_key`, in their order: empty, too short, characters. |
| ApiKeys.ValidateOpenAIKey | check_api_keys.py:20-40 | `validate_openai_key`: the verdict and the message of the check that decided it. |
| ApiKeys.ValidateSerperKey | check_api_keys.py:42-55 | `validate_serper_key`: the verdict and the message of the check that decided it. |
| ApiKeys.ValidateBraveKey | check_api_keys.py:57-70 | `validate_brave_key`: the verdict and the message of the check that decided it. |
| ApiKeys.StripQuotes | check_api_keys.py:185-187 | Removes one pair of matching quotes around a value. `StripQuotesSpec` states what it does. |
| ApiKeys.ParseEnvLine | check_api_keys.py:176-191 | Reads one line of a `.env` file as skipped, malformed or an entry. `ParseClassifies` and `ParseEntryRoundTrip` state what it does. |
| ApiKeys.ValidIffWellFormed | check_api_keys.py:20-70 | Each validator says valid exactly when every check passed. |
| ApiKeys.MissingKeyRejected | check_api_keys.py:22-23 | A missing or empty key is rejected first by all three validators, with the same message "API key is empty". |
| ApiKeys.OpenAIPrefixChecked | check_api_keys.py:27-28 | A non-empty OpenAI key without "sk-" is rejected for the prefix, whatever its length and characters. |
| ApiKeys.OpenAILengthChecked | check_api_keys.py:31-34 | With the prefix, under 40 characters is too short and over 200 too long, whatever the characters. |
| ApiKeys.AlnumLengthChecked | check_api_keys.py:48-49 | A Serper or Brave key of 1 to 31 characters is too short, whatever its characters. |
| ApiKeys.OpenAIAcceptedIff | check_api_keys.py:20-40 | An OpenAI key is accepted exactly when it starts with "sk-", has 40 to 200 characters, and every later character is a letter, digit, '-' or '_', except that the last may be a newline. |
| ApiKeys.AlnumAcceptedIff | check_api_keys.py:42-70 | A Serper or Brave key is accepted exactly when it has at least 32 characters, all ASCII letters or digits, except that the last may be a newline. |
| ApiKeys.MessageReadsBack | check_api_keys.py:20-70 | Every message reads back as the check that produced it, length included, so no two outcomes share a message. |
| ApiKeys.LengthMessageReadsBack | check_api_keys.py:32-34 | The "too short" and "too long" messages carry the key's length, and it reads back. |
| ApiKeys.OpenAIAcceptsTrailingNewline | check_api_keys.py:37 | "sk-", 36 letters and a newline is accepted as written, and rejected for its characters with a strict end anchor. |
| ApiKeys.AlnumAcceptsTrailingNewline | check_api_keys.py:52 | 31 letters and a newline pass the Serper and Brave checks as written, and are rejected with a strict end anchor. |
| ApiKeys.StrictOpenAIAcceptedIff | check_api_keys.py:37 | With a strict end anchor, an accepted OpenAI key is "sk-" and 37 to 197 key characters, and it holds no newline. |
| ApiKeys.StrictAlnumAcceptedIff | check_api_keys.py:52 | With a strict end anchor, an accepted Serper or Brave key is 32 or more ASCII letters and digits. |
| ApiKeys.StrictIsStricter | check_api_keys.py:37 | A key the strict anchor accepts is also accepted as written, and a key rejected as written is rejected for the same reason under the strict anchor. |
| ApiKeys.StripQuotesSpec | check_api_keys.py:185-187 | A value that starts and ends with the same quote character loses exactly its first and last characters, and a lone quote becomes empty. Every other value is kept. |
| ApiKeys.StripQuotesRoundTrip | check_api_keys.py:185-187 | Quoting a value and removing the quotes gives the value back. |
| ApiKeys.ParseClassifies | check_api_keys.py:176-191 | A stripped line is skipped exactly when it is empty or starts with '#', malformed exactly when it lacks '=', and an entry otherwise. The key never holds an '='. |
| ApiKeys.ReadStrippedEntry | check_api_keys.py:179-187 | A stripped `key=value` line is cut after the key. |
| ApiKeys.ParseEntryRoundTrip | check_api_keys.py:176-187 | Writing `key=value` and reading it back gives the key and the unquoted value, for any valid key and any value, '=' characters included. |
| ApiKeys.ParseQuotedValue | check_api_keys.py:176-187 | A quoted value written after `key=` reads back without its quotes. |

## Left out

- Threads: `submit_requirements` starts the executor on a daemon thread. The model runs the executor as a separate method call, to its end, and does not model interleaving with pollers or unsynchronised access to the two dictionaries.
- Flask, `jsonify` and templates. Responses are datatypes holding the error text, and the HTTP status codes appear only in comments. `index`, `health_check` and `results_page` are routing and templating.
- `check_environment` (app.py:40-59): its verdict is the `envError` parameter of `Submit`, and its warnings are printing.
- `request.get_json()` and `data.get(field, '')`: the four fields are given directly, and a missing field is the empty string.
- `datetime.now()`: the session timestamp and the report date are parameters (`stamp`, `date`).
- The 500 paths of `get_status` and `get_results` (app.py:398-404, 420-426), and those of `submit_requirements` (app.py:123-124) other than a failed thread start: they answer exceptions raised by JSON conversion or request parsing, and the modelled conversion never fails. A failed `thread.start()` (app.py:116) is modelled: `Submit` answers `ServerError` and leaves the new record at "starting".
- The crew import cascade (app.py:136-177): which crew class is chosen depends on the environment and does not change the record. The model keeps only how the cascade ends: a class imported, every import failed (the last message behind a prefix), or another exception escaped (its own message).
- Crew creation, `kickoff` and the formatter raising are the `Collaborators` value. Which statement of the formatter raises is not modelled.
- `str(result)` and truthiness of the crew result: a `CrewOutput` is `Falsy` or `Truthy(text)`.
- PyText.Lower: only ASCII capitals are lowered. Python's full Unicode case mapping is not modelled.
- Printing and logging throughout, including the `.env` value preview (check_api_keys.py:189).
- `check_env_file`'s file reading: one line at a time is read, and the loop over the file is not modelled.
- Regular expressions in general: only the two patterns of the validators, as `MatchesPlus`.
- The rest of check_api_keys.py (`load_environment`, `check_api_keys`, the report it prints) is reporting around the three validators.

## Findings

| source | as written | input that shows it | evidently intended | confidence | as-written member | corrected member |
|---|---|---|---|---|---|---|
| check_api_keys.py:37 | The OpenAI pattern ends in `$`, which also matches just before a final newline, so a key ending in "\n" passes the character check. | "sk-" followed by 36 × 'a' and "\n" (40 characters) is accepted as valid. | Accept only keys whose every character after "sk-" is a letter, digit, '-' or '_' (anchor at the very end, `\Z`). | not executed | ApiKeys.OpenAIAcceptsTrailingNewline | ApiKeys.StrictOpenAIAcceptedIff |
| check_api_keys.py:52 | The Serper and Brave pattern ends in `$`, so a key ending in "\n" passes, and the newline counts toward the 32-character minimum. The Brave check, at line 67, behaves the same. | 31 × 'a' followed by "\n" is accepted as a valid Serper key and as a valid Brave key. | Accept only keys of 32 or more ASCII letters and digits. | not executed | ApiKeys.AlnumAcceptsTrailingNewline | ApiKeys.StrictAlnumAcceptedIff |
