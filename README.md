# Homework-status bot: a Dafny model of its decision logic

The bot in `homework.py` polls a review-status API every ten minutes. It checks
that the answer is a JSON object whose `homeworks` field is a list. When the list
is non-empty, it turns the first item's status into a fixed Russian notification
and sends that text to a chat through a messaging bot. Every failure inside a
cycle is caught, and the loop goes on. At startup, the process exits when one of
its three settings (API token, bot token, chat id) is unset.

The model keeps all of that logic and replaces I/O with inputs:

- `Python` models the decoded JSON payload as Python holds it (`None`, `bool`,
  `int`, `str`, `list`, `dict`). It also models the Python operations the bot
  relies on: `in`, subscripting, dictionary lookup, `all()`, and `str()`/`repr()`
  as an f-string uses them.
- `Telegram` models the messaging bot as a class that records, in order, every
  sendMessage request it makes. Whether the service accepts a request is an
  input.
- `Homework` holds the verdict catalogue and the startup token check
  (`CheckTokens`, a loop over the three tokens). It also holds the send guard
  (`SendMessage`), the fetcher's outcome (`GetApiAnswer`), the validator
  (`CheckResponse`) and the formatter (`ParseStatus`). The body of the polling
  loop is the method `PollCycle`, specified by the functions `Decide`,
  `CycleOutcome` and `CycleRequests`. `Poll` runs the loop over a finite list of
  cycles and is specified by `Outcomes` and `Sent`. `Run` is the whole program
  over such a list.
- `HomeworkProperties` holds the lemmas that relate these operations.

Points where the code's behaviour is easy to misread; the model follows the code:

- A token that is set but empty does not stop the startup check. `all()` over a
  `str` never raises, so only an unset token (Python `None`) makes the startup
  check exit.
- The formatter's failures are Python exceptions. A missing `status`, a missing
  `homework_name`, or a hashable status outside the catalogue raises `KeyError`.
  An item that is not a dict, or a dict with both keys whose status is a list or
  dict, raises `TypeError`.
- The validator checks only the shape of the answer. It does not check the items
  in the list. Only the first item is ever read.
- Every validator failure is a `TypeError`, raised at one of three places, which
  the model does not tell apart. None, a bool and an int raise in the `in` test
  (homework.py:65). A str or a list that contains `"homeworks"` raises in the
  subscript (homework.py:66). Every other answer that fails, including any other
  str or list, reaches the explicit `raise` (homework.py:70).

## Model

| member | source | states |
|---|---|---|
| `Homework.CheckTokens` | homework.py:29-38 | the process exits exactly when at least one of the three tokens is unset; an empty token passes |
| `Python.All` | homework.py:34 | `all()` on a `str` never raises and is True; it fails exactly on a non-iterable value such as None, and the failure is a TypeError |
| `Homework.SendMessage` | homework.py:41-46 | an empty message makes no bot request and succeeds; any other message makes exactly one request with that text and the configured chat id, and fails exactly when the service refuses it |
| `Telegram.Bot.SendMessage` | homework.py:46 | a sendMessage call appends one request (chat, text) to the bot's record and raises a TelegramError exactly when the service refuses it |
| `Telegram.Bot.constructor` | homework.py:94 | a new bot has made no requests |
| `Homework.GetApiAnswer` | homework.py:49-60 | a 200 reply whose body decodes hands that body on; a transport failure, a non-200 status (raised as HTTPError and swallowed) or an undecodable body hands on None |
| `Homework.CheckResponse` | homework.py:63-71 | succeeds exactly when the answer is a dict whose `homeworks` is a list, and then returns that list unchanged; every failure is a TypeError |
| `Homework.ParseStatus` | homework.py:74-83 | succeeds exactly for a dict with a `homework_name` and a catalogued str `status`, giving the fixed template filled with str() of the name and the status's verdict; otherwise TypeError for a non-dict item or an unhashable status with both keys present, KeyError in every other case |
| `Homework.PollCycle` | homework.py:96-108 | one cycle ends as `CycleOutcome` says and adds exactly `CycleRequests` to the bot's requests; no exception leaves the cycle |
| `Homework.Poll` | homework.py:95-109 | over a run of cycles, the outcomes are exactly `Outcomes` of the run and the bot's requests grow by exactly `Sent` of the run |
| `Homework.Run` | homework.py:86-109 | the program exits before polling exactly when a token is unset, making no request; otherwise its requests are exactly `Sent` of the run, addressed to the configured chat |
| `HomeworkProperties.FailedFetchIsRejected` | homework.py:49-60 | a transport failure or a non-200 reply reaches the validator as None and is rejected with a TypeError; the cycle fails and makes no request |
| `HomeworkProperties.NullBodyLikeFailedFetch` | homework.py:57-60 | a 200 reply whose body is JSON null ends the cycle exactly as a failed fetch does |
| `HomeworkProperties.RecognisedStatusMessage` | homework.py:77-83 | for a catalogued status and a str name, the message is `Изменился статус проверки работы "<name>". <verdict>`, whatever other keys the item has |
| `HomeworkProperties.OtherKeysIgnored` | homework.py:76-79 | two items that agree on `status` and `homework_name` format identically |
| `HomeworkProperties.MissingKeyOrUnknownStatus` | homework.py:76-81 | a missing `status`, a missing `homework_name`, or a str status outside the catalogue all raise the same KeyError |
| `HomeworkProperties.VerdictsDistinct` | homework.py:22-26 | the three verdict texts are pairwise distinct |
| `HomeworkProperties.DistinctStatusesDistinctMessages` | homework.py:79-83 | two different catalogued statuses give different messages for the same name |
| `HomeworkProperties.DecideCases` | homework.py:98-104 | a cycle decides no change exactly when the answer is well formed with an empty list; it has a message exactly when the list is non-empty and its first item is recognised, and that message is the formatter's non-empty text for the first item; a malformed answer fails with TypeError, an unrecognised first item with the formatter's exception |
| `HomeworkProperties.FirstItemOnly` | homework.py:100-101 | two well-formed answers with non-empty lists and the same first item decide the same cycle, whatever the rest of their lists hold |
| `HomeworkProperties.RequestsMatchOutcome` | homework.py:97-108 | a notified cycle made one request with the notified text; a refused delivery made one request; a quiet cycle or a cycle failed before sending made none |
| `HomeworkProperties.OutcomesAt` | homework.py:95-109 | a run has one outcome per cycle, and the i-th outcome is how cycle i ends on its own |
| `HomeworkProperties.SentShape` | homework.py:95-109 | no cycle makes more than one request, so a run makes no more requests than it has cycles; every request goes to the configured chat with a non-empty text |
| `HomeworkProperties.SameAnswerEveryCycle` | homework.py:95-109 | with the same answer on every cycle, the bot sends the same message once per cycle; nothing is remembered between cycles |
| `HomeworkProperties.QuietRun` | homework.py:97-108 | a run in which every cycle is quiet or fails in validation or formatting makes no request |
| `HomeworkProperties.ServiceUnavailableScenario` | homework.py:54-56 | a 503 reply fails the cycle with a TypeError and sends no notification |
| `HomeworkProperties.EmptyListScenario` | homework.py:100-104 | `{"homeworks": []}` changes nothing and sends no notification |
| `HomeworkProperties.ApprovedScenario` | homework.py:100-102 | an approved `hw1` sends the exact approved text to the configured chat |
| `HomeworkProperties.UnknownStatusScenario` | homework.py:79-81 | an unknown status fails the cycle with a KeyError and sends no notification |
| `HomeworkProperties.ListAnswerScenario` | homework.py:65-70 | a list answer fails the cycle with a TypeError and sends no notification |
| `Python.ToStrShape` | homework.py:83 | `str()` of the name in the f-string: a str is itself, None and the bools are their names, an int reads back as the same int, a list is bracketed by `[` `]` and a dict by `{` `}` |
| `Python.IntToStringRoundTrip` | homework.py:83 | the decimal rendering of an int-valued `homework_name` reads back as the same int |
| `Python.QuoteStringRoundTrip` | homework.py:83 | the quoted, escaped rendering of a str inside a list or dict name reads back as the same str |
| `Python.SortedKeys` | homework.py:83 | a dict-valued name lists each of its keys once, in ascending order |

## Left out

- The HTTP request is left out: `requests.get`, the endpoint, the `Authorization` header and the `from_date` cursor. The model takes what the request returned as an input (`HttpReply`: a transport failure, or a status code with the decoded body).
- A body that is not valid JSON becomes None in the model. This assumes a `requests` release in which `JSONDecodeError` is a `RequestException`, so `get_api_answer` catches it.
- Loading the environment with `dotenv`/`os.getenv` is left out. The three settings are the `Config` input.
- Logging is left out: its configuration, every log call, and the text of the "Сбой в работе программы" line, which is only logged. Exception messages are left out too; only the exception's class is kept.
- `time.time()`, `time.sleep(RETRY_PERIOD)` and the endless `while True` are left out. `Poll` and `Run` cover any finite run of cycles.
- `sys.exit()` becomes the result `Exit`.
- Homework.Run: assumes the messaging library accepts every set bot token when the bot is built. For an empty or malformed bot token, the program raises at homework.py:94, outside the loop, and makes no request, whereas `Run` goes on to `Sent` of the run.
- `telegram.Bot` is the messaging library. The model records its requests and takes each delivery result as an input. It also assumes a synchronous library, where `send_message` makes the request when called.
- JSON numbers with a fraction or an exponent (Python floats) are not values of the model.
- JSON strings holding a lone surrogate escape (such as `"\ud800"`) are not values of the model. Python's json turns them into a str, but a Dafny `char` cannot hold a surrogate code point.
- A stalled connection is left out. `requests.get` at homework.py:52-53 has no timeout, so the program can block there forever. Every `Cycle` of the model ends.
- Python.SortedKeys: Python prints a dict-valued name's keys in the order the payload gave them. A map has no order, so the model prints them in ascending order.
- Python.QuoteStringRoundTrip: the model escapes only ASCII control characters. Python's `repr` also escapes non-ASCII characters it considers unprintable; the model treats those as printable.
