# homework_bot: a Dafny model of the polling bot's core

The bot asks a homework-review API at regular intervals for the student's submissions. It checks
the shape of the answer, turns the first homework's review status into a sentence, and sends that
sentence to one Telegram chat unless it is the same as the last one.

This project models the part between "an answer arrived" and "a text was sent":

- `validation.dfy` (module `Validation`): `Option`, `Result`, and a fail-fast validator written as
  an ordered list of guards (`Check`, `FirstViolation`).
- `json.dfy` (module `Json`): the decoded JSON value (`Value`). It also has Python's `str()` of such
  a value (`PyStr`), which is what the f-string in `parse_status` does to `homework_name`.
- `homework.dfy` (module `Homework`):
  - `check_tokens` (`CheckTokens`), `check_response` (`CheckResponse`) and `parse_status` (`ParseStatus`);
  - the verdict table `HOMEWORK_VERDICTS` (`VERDICTS`) and the exception texts;
  - the proofs that both validators raise the error of the first check that fails;
  - the proof that, for string names, a status sentence determines the homework's name and status.
- `poll.dfy` (module `Poll`): one iteration of the `while True` loop in `main`.
  - `Next` is the iteration as a pure function on the state (`last_message`, `timestamp`, and the messages the chat received).
  - Class `Poller` holds the same state as fields. Its `Step` method runs one iteration and is proved equal to `Next`.
  - `Run` loops `Step` over a finite list of iterations.
  - `Start` is the credential check at startup.
  - Lemmas cover deduplication, the cursor, failure messages and runs.

The inputs of each iteration are parameters (`Iteration`):
- what `get_api_answer` gave: a decoded body, or the text of the error it raised;
- the clock reading `int(time.time())`;
- whether Telegram accepted the send.

`send_message` swallows `TelegramError`: a refused send leaves the chat unchanged, and `last_message`
(homework.py:122, 130) and the cursor (homework.py:121) change after the call whether or not
Telegram accepted the message, so `Next` and `Step` update them whatever `delivered` is. The cursor moves only on the success path
(homework.py:121); the failure path never touches it.

## Model

| member | source | states |
|---|---|---|
| `Validation.FirstViolation` | homework.py:75-83 | a fail-fast chain of guards has no error exactly when every guard holds; otherwise it raises the error of some guard that fails when all earlier guards hold |
| `Json.IntText` | homework.py:98 | the text of an int is a minus sign exactly for negative values, followed by decimal digits without leading zeros that denote its magnitude; zero is `0` |
| `Json.IntTextInjective` | homework.py:98 | different ints never print the same text |
| `Json.PyStr` | homework.py:98 | a string name is interpolated as itself, an int as its decimal text, None as `None` and a bool as `True`/`False` |
| `Json.PyStrConflatesIntAndString` | homework.py:98 | the int name `1` and the string name `"1"` print the same, so the sentence alone cannot tell them apart |
| `Homework.ExcText` | homework.py:126 | str() of a KeyError is its text between single quotes; str() of the other errors is their text unchanged |
| `Homework.CheckTokens` | homework.py:32-34 | true exactly when none of the three credentials is None and none is the empty string |
| `Homework.CheckResponse` | homework.py:72-83 | succeeds exactly on an object with `homeworks` and `current_date` whose `homeworks` is a list. It then returns that list unchanged, possibly empty. Every failure is one of the four documented errors |
| `Homework.CheckResponseFailsFast` | homework.py:75-83 | the validator raises exactly the error of the first failing check in the order: not an object (TypeError), no `homeworks` (KeyError), no `current_date` (KeyError), `homeworks` not a list (TypeError) |
| `Homework.ParseStatus` | homework.py:86-98 | yields a sentence exactly when the record is a dict with `homework_name` and a `status` the verdict table knows. The sentence is then `Изменился статус проверки работы "{name}". {verdict}` with the verdict for that status |
| `Homework.LookupVerdict` | homework.py:95-97 | succeeds exactly on a status the table knows, with that status's verdict; a list or dict status raises the unhashable TypeError, any other unknown status the KeyError of homework.py:96 |
| `Homework.ParseStatusFailsFast` | homework.py:89-96 | on a dict, raises exactly the error of the first failing check: no `homework_name`, then no `status`, then an unknown status |
| `Homework.UnknownStatusIsAnError` | homework.py:95-96 | a status outside the table never yields a sentence. It is a KeyError, or a TypeError when the status is a list or dict and cannot be hashed |
| `Homework.VerdictsDifferAtTheEnd` | homework.py:25-29 | two different statuses of the table give verdicts that no common text before them can make equal |
| `Homework.SentenceDeterminesRecord` | homework.py:97-98 | for string names, equal sentences come from records with the same name and the same status |
| `Poll.Produce` | homework.py:113-118 | a fetch error is passed on. A malformed answer raises the validator's error. An empty list gives `Список работ пуст`. Otherwise the result is `parse_status` of element 0 |
| `Poll.FailureText` | homework.py:126 | the failure message is `Сбой в работе программы: ` followed by exactly str() of the exception |
| `Poll.Message` | homework.py:113-126 | the message of an iteration is the success path's message when the try block succeeds, and the failure text of the raised exception otherwise |
| `Poll.Deliver` | homework.py:40-45 | a send keeps every earlier chat message; it appends exactly the message when Telegram accepts it and nothing when it is refused |
| `Poll.Next` | homework.py:111-130 | a message equal to `last_message` leaves the whole state unchanged. A different one is sent once (received unless refused) and becomes `last_message`. The cursor becomes the clock value only when the success path sent something |
| `Poll.Poller.constructor` | homework.py:108-109 | the loop starts with `last_message` empty, the cursor at the current time and an empty chat |
| `Poll.Poller.SendMessage` | homework.py:37-45 | the message reaches the chat unless refused; a refusal is swallowed and the loop variables are unchanged |
| `Poll.Poller.Step` | homework.py:112-130 | the new fields are exactly `Next` of the old ones; the result says whether `send_message` was called |
| `Poll.Poller.Run` | homework.py:111-132 | after any finite run of iterations the fields equal the replay of `Next` over them in order |
| `Poll.Start` | homework.py:103-109 | a loop is created exactly when the credential check passes, and it starts in the initial state |
| `Poll.OnlyFirstHomeworkCounts` | homework.py:115-116 | two well-formed answers with the same first homework give the same message; later homeworks are ignored |
| `Poll.SecondIdenticalPollIsSilent` | homework.py:119-124 | a poll whose message equals the previous poll's sends nothing and changes nothing, whatever the clock, so two such polls send at most once |
| `Poll.UnchangedFirstHomeworkIsSilent` | homework.py:115-124 | after a well-formed answer, a second well-formed answer with the same first homework (whatever its `current_date`) sends nothing and changes nothing |
| `Poll.FailureDiffersFromSuccess` | homework.py:126 | a `Сбой в работе программы: …` message never equals a message of the success path |
| `Poll.RecoveryIsReported` | homework.py:119-130 | after a failure was the last message, the next successful iteration is always sent and moves the cursor |
| `Poll.StatusChangeIsReported` | homework.py:116-122 | when the first homework keeps its name (of any type) but its status changes, the new sentence is always sent and the cursor moves |
| `Poll.DeliveredRunHasNoRepeats` | homework.py:119-130 | from startup, while every send is accepted, the chat never gets the same message twice in a row, and its last message is `last_message` |
| `Poll.CursorComesFromSuccessfulSends` | homework.py:121 | after any run the cursor is its start value or the clock of an iteration whose try block succeeded and which sent its message |
| `Poll.ApprovedExample` | homework.py:25-29 | the answer with one homework `hw1` in status `approved` gives `Изменился статус проверки работы "hw1". Работа проверена: ревьюеру всё понравилось. Ура!` |
| `Poll.EmptyListExample` | homework.py:117-118 | the answer with an empty `homeworks` list gives `Список работ пуст` |
| `Poll.MissingHomeworksText` | homework.py:126 | the failure message for the missing-`homeworks` KeyError is `Сбой в работе программы: 'Ошибка ключа "homeworks"'` |
| `Poll.MissingHomeworksExample` | homework.py:77-78 | an answer without `homeworks` gives `Сбой в работе программы: 'Ошибка ключа "homeworks"'`; str() of a KeyError quotes its text |

## Left out

- `get_api_answer` (homework.py:48-69): the HTTP request, the status-code check and `response.json()` are not modelled. Their outcome is an input, either the decoded body or the text of the raised error, and the model does not relate the answer to the `from_date` it was asked with.
- `telegram.Bot` and the Telegram API: a foreign library. The model assumes that `telegram.Bot(token=TELEGRAM_TOKEN)` (homework.py:107) never raises, so `Start` creates a loop whenever the credential check passes. A send appends to the chat unless the `delivered` input says it was refused. Exceptions from `bot.send_message` other than `TelegramError` are not modelled. One raised by the send at homework.py:120 would reach the loop's `except` block; one raised by the send at homework.py:129 happens inside that handler, so it passes through the `finally` sleep, leaves `while True` and ends `main`.
- `load_dotenv` and `os.getenv` (homework.py:13-18): the three credentials are a parameter of `CheckTokens` and `Start`.
- `time.time()`, `time.sleep(RETRY_PERIOD)` and the endless `while True`: the clock is an input of each iteration, the sleep has no effect on the state, and `Run` covers any finite prefix of the endless loop.
- `sys.exit` after a failed credential check: `Start` returns no loop instead.
- All `logging` calls and `logging.basicConfig`: they have no effect on the state.
- The `exceptions` module is not part of this model. Its two error classes are the single kind `ApiFailure`, carrying their text.
- Json.PyStr: a `homework_name` that is an array or object is rendered by a fixed placeholder, not by Python's repr. The model's object is an unordered map, so key order is lost.
- JSON floats are not part of `Json.Value`.
- Homework.ExcText: it wraps a KeyError's text in single quotes. That is Python's repr only for printable texts without a single quote or a backslash (double quotes stay as they are inside single quotes), which holds for every KeyError this code raises.
- Homework.ParseStatus: the interpreter's own TypeError texts (`argument of type 'int' is not iterable`, `unhashable type: 'list'`, and the subscript errors for lists and strings) are those of CPython 3.11; other versions word some of them differently.
