# homework_bot: the poll loop, modelled in Dafny

homework_bot polls a homework-review API and sends chat notifications when the
status of the most recent homework changes. It also reports failures, but
suppresses an error it has already reported. This project models the logic of
`homework.py`:

- `json.dfy` (module `JsonValue`): decoded JSON values. It also captures the
  two pieces of Python behaviour the core relies on. `dict.get` reads an
  absent key as `None`, and Python's type names appear in its error texts.
- `homework.dfy` (module `Homework`): the verdict table, `check_tokens`,
  `check_response` and `parse_status`, each as a function that returns a
  result or the exception the source raises. It also holds a decoder that
  reads a status message back into its homework name and status. The
  round trip through that decoder is proved.
- `poller.dfy` (module `Poller`): the body of `main`'s loop. Its three
  locals are the cursor `timestamp`, the last status notified on (`answers`)
  and the last error text notified on (`errors`). One cycle is modelled
  twice:
  - `Step`, a pure transition from a state and a poll outcome to a new state
    and the messages sent;
  - `Cycle`, a method on the locals that follows the source branch by
    branch and is proved equal to `Step`.

  `RunBot` is `main` over a finite sequence of poll outcomes. It checks the
  tokens, then runs the loop, whose invariant ties it to the fold `Run`.
- `poller_properties.dfy` (module `PollerProperties`): the properties of one
  cycle and of runs of cycles.

A poll outcome is either the decoded body or the text of the exception raised
by the HTTP call. Sending a message is modelled as appending its text to the
cycle's output.

Notes on the code's behaviour:

- The loop remembers one status string and one error string, not sets.
  Statuses A, B, A are therefore notified three times
  (`AlternatingStatusesRenotify`).
- De-duplication compares statuses only. A second homework with the status
  just notified is not notified (`RepeatedStatusNotifiedOnce`).
- The cursor moves right after `check_response`, before the first homework is
  parsed. It keeps its new value when parsing then fails
  (`CursorMovesEvenIfParseFails`). `current_date` is adopted whatever its
  JSON type, so the cursor is a JSON value.
- An unknown status raises a `KeyError`. Python shows a `KeyError`'s text in
  quotes, so the error notification contains the message in single quotes
  (`BogusStatusExample`).
- A homework entry that is not an object raises an `AttributeError` from
  `.get`. A status that is a list or an object raises an "unhashable type"
  `TypeError` before the verdict lookup. Both texts are modelled in the
  wording of CPython 3.8 to 3.13 (`'list' object has no attribute 'get'`,
  `unhashable type: 'list'`); later releases may word the second one
  differently.

## Model

| member | source | states |
|---|---|---|
| `Homework.Lookup` | homework.py:38-42 | a key is found exactly when the table has an entry with that key, and the value found is that entry's verdict |
| `Homework.KnownStatuses` | homework.py:38-42 | the table knows exactly `approved`, `reviewing` and `rejected`, with their verdict texts |
| `Homework.ResetStatuses` | homework.py:156 | the first two keys of the table in insertion order are `approved` and `reviewing` |
| `Homework.CheckTokens` | homework.py:45-51 | start-up fails exactly when one of the three tokens is unset or empty |
| `Homework.CheckResponse` | homework.py:89-97 | accepted exactly when the body is a dict whose `homeworks` entry is a list (an empty list included); otherwise the not-a-dict or not-a-list TypeError, in that order |
| `Homework.ParseStatus` | homework.py:100-115 | succeeds exactly on a dict with a string `homework_name` and a status that is a table key, and then returns `Изменился статус проверки работы "{name}". {verdict}`; a non-dict gives the `.get` AttributeError; a bad name gives its TypeError whatever the status; a bad status gives the KeyError, or the unhashable TypeError for a list or dict |
| `Homework.DecodeTailFinds` | homework.py:38-42 | no verdict text can be mistaken for another when a message is read back from its end |
| `Homework.DecodeParseStatus` | homework.py:112-115 | round trip: decoding a rendered status message gives back the homework's name and status |
| `Homework.MessageIdentifiesRecord` | homework.py:112-115 | two records with the same message have the same name and status |
| `Poller.Evaluate` | homework.py:133-169 | a fetch failure, a body refused by check_response and a parse_status failure each give a fault carrying `str(error)` of the exception raised there; a checked body with an empty list gives no news, exactly; a checked non-empty body is reported exactly when its first entry parses, with that entry's status (one of the three keys) and message |
| `Poller.Cursor` | homework.py:134-135 | the cursor changes only to the `current_date` of a body that passed check_response |
| `Poller.Step` | homework.py:130-169 | one cycle sends at most one message and only when it changes the remembered status or error; the status moves only on a report, the error only on a failure or an `approved`/`reviewing` report; the cursor is `Cursor` |
| `Poller.Run` | homework.py:129-172 | a run of n cycles sends at most n messages |
| `Poller.RunSnoc` | homework.py:129-172 | one more cycle extends a run by one `Step` |
| `Poller.Cycle` | homework.py:130-169 | the loop body on the locals computes exactly `Step` |
| `Poller.RunBot` | homework.py:118-172 | a token failure is fatal before any cycle; otherwise the final locals and messages are those of `Run` from the start state |
| `PollerProperties.CursorAfterCheckedResponse` | homework.py:134-135 | after a checked body the cursor is `current_date` if the key is present, else unchanged |
| `PollerProperties.CursorKeptWithoutCheckedResponse` | homework.py:133-135 | a fetch failure or a refused body leaves the cursor unchanged |
| `PollerProperties.CursorMovesEvenIfParseFails` | homework.py:134-169 | the cursor update (to `current_date` if present, else unchanged) persists when parse_status fails in the same cycle, and that failure's text is sent if new and remembered |
| `PollerProperties.EmptyHomeworksSendNothing` | homework.py:137-161 | an empty list sends nothing and keeps the remembered status and error |
| `PollerProperties.OnlyFirstHomeworkMatters` | homework.py:137-144 | entries after index 0 never affect a cycle |
| `PollerProperties.StatusNotifiedWhenChanged` | homework.py:148-158 | a status is sent exactly when it differs from the remembered one and is remembered after; `approved`/`reviewing` clear the error, `rejected` keeps it |
| `PollerProperties.FaultNotifiedWhenChanged` | homework.py:163-169 | `Сбой в работе программы: {err}` is sent exactly when err differs from the remembered error; err is remembered, the status is untouched |
| `PollerProperties.RepeatedStatusNotifiedOnce` | homework.py:148-157 | the same status on consecutive cycles is sent at most once, on the first cycle |
| `PollerProperties.RepeatedFaultNotifiedOnce` | homework.py:163-169 | the same error on consecutive cycles is sent at most once, and the remembered status never changes |
| `PollerProperties.StatusKeptUntilAnotherReported` | homework.py:148-157 | until another status is reported, the remembered status stays and only error messages are sent |
| `PollerProperties.ErrorKeptWithoutFaultOrReset` | homework.py:156-158 | the remembered error survives every cycle that neither fails nor reports `approved`/`reviewing` |
| `PollerProperties.AlternatingStatusesRenotify` | homework.py:148-150 | statuses A, B, A notify A again on the third cycle |
| `PollerProperties.ResetStatusRenotifiesError` | homework.py:156-169 | an error seen before an `approved`/`reviewing` report is notified again when it recurs after it |
| `PollerProperties.ReviewingExample` | homework.py:133-157 | the `reviewing` example body from the start state sends the rendered message, moves the cursor to 1000 and remembers `reviewing` |
| `PollerProperties.BogusStatusExample` | homework.py:108-110 | an unknown status is sent once as an error carrying the quoted KeyError text |

## Left out

- `get_api_answer` (homework.py:63-86), the HTTP request, its status check and its exception mapping: only its result is modelled, as a decoded body or the text of the exception it raised.
- `send_message` (homework.py:54-60), the Telegram call: a send is an append to the cycle's output. Delivery failures are swallowed by the source and change nothing the model tracks. An exception other than `TelegramError` escaping a send is not modelled.
- Loading of environment variables and the `config` module (homework.py:15-24): the three tokens are parameters of `RunBot`. `config` is not part of this model.
- Logging (homework.py:26-36 and the logger calls), `time.sleep`, and the interrupt handler of the entry point (homework.py:175-181). They have no effect on the state or the messages. `time.time()` is the parameter `now`.
- The unbounded `while True`: `RunBot` runs the loop over a finite sequence of outcomes, and the lemmas are over finite runs.
- JSON numbers with a fractional part are kept as `real` values. Only their Python type name matters to the core.
- Homework.CheckTokens: the exception is modelled as a generic failure carrying the intended text. In the source, `exceptions.TokensError` is not defined in exceptions.py, so what actually escapes is an `AttributeError`. Either way the process stops before the loop.
- exceptions.py: it holds only empty exception classes and no logic.
