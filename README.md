# Health-monitoring backend: request validation, in Dafny

This project models the request-handling core of a small Flask backend for
health monitoring. The backend has three POST endpoints:

- `/health-data` takes a heart-rate / blood-pressure reading. It validates the
  reading and classifies the heart rate as `Normal`, `High (Tachycardia)` or
  `Low (Bradycardia)`. It appends a row to the `health_records` SQLite table and
  echoes the reading back.
- `/fall-alert` takes a location. It composes an email with the fixed subject
  `URGENT: Fall Alert` and sends it once over SMTP.
- `/send-reminder` takes an optional message, or uses `This is your reminder.`.
  It speaks the message with a text-to-speech engine and echoes it back.

All three handlers first check that the request is JSON, then that the body is
a JSON object. Only then do they read any field. Each failure has its own
status code and error text.

Modules:

- `Wrappers` (wrappers.dfy): `Option`.
- `PyInt` (pyint.dfy): Python's `int(s)` on a string and `str(n)` on an
  integer. `int(s)` skips surrounding whitespace and takes one optional sign.
  It then reads ASCII digits in groups split by single underscores, and any
  other string raises `ValueError`.
- `Values` (values.dfy): decoded JSON values, Python truthiness, `dict.get` and
  f-string formatting.
- `Handlers` (handlers.dfy): the three handlers as functions. Each takes the
  request, plus the outcome reported by its external collaborator: the SMTP
  exchange, or the speech engine.
- `RecordStore` (store.dfy): the `health_records` table. It is a class holding
  a `seq<Record>`. `Submit` handles one `/health-data` request and appends
  exactly one row when the reply is a success.

The wall clock is a parameter (`now`). SMTP and the speech engine are reduced
to their outcome: success, or the text of the exception they raised. A handler
returns its reply, together with what it handed to that collaborator (the email
or the spoken text). "Nothing is sent before validation passes" is therefore a
statement about that second component.

A reply is `Ok` (HTTP 200 with its JSON payload), `Fail(code, error)` (a JSON
error that the handler returns itself), or `Aborted(code)`. `Aborted` stands
for an exception that leaves the handler; Flask then answers with its own page.
Three such cases exist:

- a JSON content type whose body does not decode (400);
- `int()` of a truthy list or dict heart rate, which raises `TypeError` (500);
- a blood pressure that Python's sqlite3 module cannot bind, such as a list, a
  dict, or an integer beyond 64 bits. The INSERT raises before any row is
  written (500).

Two behaviours of the code are worth stating plainly:

- The "required" test on `heart_rate` and `bp` is Python truthiness
  (main.py:47). So the integer 0 is refused as missing, although the range
  check that follows admits 0, while the string `"0"` is accepted and
  classified as Low. `SampleReadingsRefused` and `SampleZeroString` state both
  cases.
- `engine.stop()` runs only after a successful `runAndWait()`
  (main.py:132-135); an exception from `say` or `runAndWait` skips it. The
  engine's lifecycle is not modelled (see below).

## Model

| member | source | states |
|---|---|---|
| `PyInt.Int` | main.py:50 | Defines `int(s)` on a string: trim the whitespace, then read the rest as a literal; None stands for `ValueError` |
| `PyInt.Literal` | main.py:50 | Defines the value of a trimmed literal: one optional sign, then ASCII digits grouped by single underscores; anything else is None |
| `PyInt.Str` | main.py:102 | Defines `str(n)` of an integer: a minus sign for negative numbers, then the digits of the magnitude |
| `Values.Truthy` | main.py:47 | Defines Python truthiness of a decoded value: None, False, 0, empty string, empty list and empty dict are false (also used at main.py:92) |
| `Values.GetOr` | main.py:128 | Defines `d.get(key, default)`: the stored value when the key is present, the default otherwise |
| `Values.Get` | main.py:45-46 | Defines `d.get(key)`: the stored value, or None for a missing key (also used at main.py:91) |
| `Values.Show` | main.py:102 | Defines how the f-string shows a location: a string as it is, an int by `str`, booleans as True/False, None as None, lists and dicts by the given `repr` |
| `Handlers.Payload` | main.py:38-42 | Defines the opening checks: a non-JSON content type gives 400 "Request must be JSON", an undecodable body 400 from Flask, a non-dict body 400 "Invalid data format", and a dict is passed on (same checks at main.py:84-88 and 123-127) |
| `Handlers.ToInt` | main.py:50 | Defines `int(v)` on a decoded value: a bool as 0 or 1, an int as itself, a string through `PyInt.Int` (ValueError when rejected), and None, lists and dicts as TypeError |
| `Handlers.Bindable` | main.py:72-75 | Defines which values sqlite3 binds as parameters: None, bools, strings and ints within 64 bits; lists, dicts and larger ints raise |
| `Handlers.AlertBody` | main.py:102 | Defines the alert text: "A fall has been detected at " + location + " on " + timestamp + "." |
| `PyInt.TrimStart` | main.py:50 | The whitespace `int()` skips before a literal: the result is a suffix of the input, everything removed is whitespace, and the result does not start with whitespace |
| `PyInt.TrimEnd` | main.py:50 | The whitespace `int()` skips after a literal: the result is a prefix of the input, everything removed is whitespace, and the result does not end with whitespace |
| `PyInt.Digits` | main.py:50 | `str(n)` for `n >= 0` is non-empty and all ASCII digits, and starts with `0` only for `n == 0` |
| `PyInt.DigitsSpellValue` | main.py:50 | The digits of `str(n)` form a well-grouped literal whose value is `n` |
| `PyInt.IntOfStr` | main.py:49-50 | Round trip: `int(str(n)) == n` for every integer, negative ones included |
| `PyInt.TrimSurrounding` | main.py:50 | Trimming a string with no whitespace at its ends, padded with whitespace on both sides, gives back exactly that string |
| `PyInt.StrHasNoSpaceAtEnds` | main.py:50 | `str(n)` is non-empty and neither starts nor ends with a character `int()` would skip |
| `PyInt.IntIgnoresSpaceAround` | main.py:49-50 | For any string with no whitespace at its ends, whitespace added on either side does not change what `int()` makes of it |
| `PyInt.IntIgnoresSurroundingSpace` | main.py:49-50 | `int()` of `str(n)` with whitespace on either side, as in `" 72 "`, gives `n` |
| `PyInt.IntNeedsADigit` | main.py:49-54 | In this model's ASCII-only `int()`, a string with no ASCII digit raises `ValueError` (CPython also reads other Unicode decimal digits; see Left out) |
| `Handlers.Classify` | main.py:56-61 | `High (Tachycardia)` exactly above 100; `Low (Bradycardia)` exactly below 60; `Normal` exactly on [60, 100], boundaries included |
| `Handlers.Analyze` | main.py:38-79 | A success passes both shape checks, has truthy `heart_rate` and `bp`, and `int(heart_rate)` gives the reported rate, in [0, 200]. It echoes `bp` verbatim with `analysis == Classify(rate)`. Every handler-made failure is a 400 |
| `Handlers.AnalyzeAccepts` | main.py:45-79 | Converse of `Analyze`: every request that passes the checks is answered with the parsed rate, `bp` as sent, and its classification |
| `Handlers.AnalyzeRequiresBoth` | main.py:45-48 | A missing, null, empty or zero `heart_rate` or `bp` gives 400 "Heart rate and blood pressure are required", before any parsing |
| `Handlers.AnalyzeRejectsNonNumber` | main.py:49-54 | A non-empty `heart_rate` string that `int()` rejects gives 400 "Heart rate must be a number" |
| `Handlers.AnalyzeRejectsUnparsable` | main.py:49-54 | Any present heart rate whose `int()` conversion raises ValueError (with a present blood pressure) gives 400 "Heart rate must be a number" |
| `Handlers.AnalyzeRejectsOutOfRange` | main.py:49-52 | A heart rate that parses to a value below 0 or above 200 gives 400 "Invalid heart rate (0-200 bpm)" |
| `Handlers.AnalyzeAbortsOnContainerHeartRate` | main.py:49-54 | A truthy list or dict heart rate makes `int()` raise TypeError, which `except ValueError` does not catch: the reply is Flask's 500 |
| `Handlers.AnalyzeAbortsOnUnbindableBp` | main.py:72-75 | An in-range reading whose `bp` sqlite3 cannot bind makes the INSERT raise: the reply is Flask's 500 |
| `Handlers.AnalyzeAcceptsDecimalString` | main.py:49-54 | A heart rate sent as the decimal string of an integer in [0, 200] is accepted as that integer |
| `Handlers.FallAlert` | main.py:82-118 | The email is handed to SMTP exactly when the body is a dict with a truthy `location`. It has the fixed subject and the body "A fall has been detected at <location> on <now>.". The reply is 200 exactly when delivery succeeds, and a failed delivery gives 500 with the reason. Nothing is sent on a 400 |
| `Handlers.FallAlertRequiresLocation` | main.py:91-93 | A falsy `location` gives 400 "Location is required", and nothing is sent |
| `Handlers.FallAlertNamesLocation` | main.py:100-102 | A string location appears verbatim in the body, after "A fall has been detected at " and before the timestamp |
| `Handlers.SendReminder` | main.py:121-138 | The engine is handed the `message` string, or the default when the key is absent. A present non-string, null included, gives 400 "Message must be a string" and nothing is spoken. A success echoes the spoken message; an engine failure gives 500 with the reason |
| `Handlers.ReminderDefaultsMessage` | main.py:128 | With no `message` key, "This is your reminder." is spoken and returned |
| `Handlers.ReminderRejectsNonString` | main.py:128-130 | A present `message` that is not a string is refused whatever the engine would do |
| `Handlers.ChecksComeFirst` | main.py:38-42 | All three handlers answer a non-JSON request with 400 "Request must be JSON". They answer a non-dict body with 400 "Invalid data format" and an undecodable body with 400 from Flask. None of them sends anything (same checks at main.py:84-88 and main.py:123-127) |
| `RecordStore.Inserted` | main.py:72-75 | Defines the table after one request: the row (next key, timestamp, parsed rate, `bp`, status) appended when `Analyze` accepts, the table unchanged otherwise |
| `RecordStore.InsertedAppendsOnlyOnSuccess` | main.py:64-76 | A rejected request leaves the table unchanged. An accepted one appends exactly one row: the timestamp, the parsed rate, `bp` as sent and the status. Earlier rows are untouched |
| `RecordStore.InsertedKeepsShape` | main.py:66-75 | Inserting keeps every row well formed: keys 1, 2, … in order, rate in [0, 200] with its classification, and a present, bindable blood pressure |
| `RecordStore.NoDeduplication` | main.py:72-75 | The same accepted payload submitted twice adds two rows, with distinct keys, each with its own timestamp and the same reading |
| `RecordStore.SampleReadingsStored` | main.py:56-76 | `{"heart_rate": 72, "bp": "120/80"}` is stored as Normal; `{"heart_rate": 150, "bp": "130/85"}` is stored as High (Tachycardia) |
| `RecordStore.SampleReadingsRefused` | main.py:45-48 | `{"bp": "120/80"}` and `{"heart_rate": 0, "bp": "120/80"}` are refused as missing, and the table is unchanged |
| `RecordStore.SampleZeroString` | main.py:47-61 | `{"heart_rate": "0", "bp": "120/80"}` is accepted as 0, Low (Bradycardia) |
| `RecordStore.HealthTable.constructor` | main.py:66-71 | A newly created table is empty and well formed |
| `RecordStore.HealthTable.Submit` | main.py:64-79 | Replies as `Analyze` does and keeps the table well formed. The new rows are `Inserted(old rows)`: one row appended on success with earlier rows unchanged, no change otherwise |

## Left out

- Flask routing, the HTML pages `/` and `/profile`, and `app.run`: web framework and static assets.
- The SQLite connection, `CREATE TABLE IF NOT EXISTS` and `commit`: database I/O. The table is a sequence that only grows. Failures of the database file itself are not modelled.
- SQLite's TEXT column affinity: a non-string blood pressure is recorded as the value that was bound, not as the text SQLite stores.
- SMTP connection, STARTTLS, login and `send_message`, and reading the sender, receiver and password from the environment. Delivery is one abstract outcome that carries the exception text. The email's From and To headers are not modelled.
- The text-to-speech engine: creating it, `say`, `runAndWait` and `stop`. The engine is one abstract outcome, so its release is not modelled.
- `datetime.now().strftime(...)`: the timestamp is a string parameter.
- JSON floating-point numbers: `int()` truncation of a float heart rate, and the falsiness of `0.0`. `Json` carries integers only.
- Python's `int()` on strings of Unicode decimal digits other than ASCII, and its limit on the number of digits in a converted string.
- Lone surrogates in JSON strings: Dafny characters cannot hold them, so the encoding failure they cause at the INSERT is not modelled.
- `Values.Show`: Python's `repr` of a list or dict location in the alert body is taken as a parameter, not defined.
- The `print` logging lines.
