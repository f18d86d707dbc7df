# Homework-status bot: a Dafny model

The bot polls a review-status API for one student's work item and forwards
status changes to one chat. This project models the two parts of
`homework.py` that are logic rather than I/O:

- the **status interpreter** (`parse_homework_status`), which turns the newest
  work item into a notification text using a three-entry status catalog; and
- **one iteration of the poll loop** (the body of `while True` in `main`), as a
  pure transition over the loop's state: the cursor, the messages delivered so
  far (`outbox`) and the sleeps taken so far (`sleeps`).

The status query and each message dispatch are not called. Their outcomes are
inputs of the step: `Fetch` is a decoded response or the text of a failure, and
`Delivery` says whether a send went through. A failure while fetching or
sending the notification ends the guarded part of the iteration. The cursor
then stays where it was, `BotError` plus the failure's text is sent, and the
loop sleeps 5 seconds. A completed iteration sleeps 300 seconds. A failure
while sending that error report is not caught, and the loop ends (`Escaped`).

Files:

- `payload.dfy` (`Payload`): `Option`, the work item, the response, and `Newest`, the one item the loop reads.
- `messages.dfy` (`Messages`): the fixed texts, the status catalog, and the verdict report template.
- `interpreter.dfy` (`Interpreter`): `Interpret`, the parser `Read` and the classification `Classify`. `Classify` is an independent statement of which notification an item deserves. `Read` parses a sent text back into what it says. `ReadInterpret` proves that the round trip gives the classification back.
- `poll_loop.dfy` (`PollLoop`): `Step` (one iteration), `Run` (several iterations), and invariants of runs.

One might expect the error report to be best-effort, the cursor to only move forward, a failed send not to lose the new cursor, repeated statuses to be sent once, and a transport failure's cause to reach the chat. The code does otherwise, and the model follows the code:

- A failed error report is not swallowed. The send at `homework.py:118` sits in the `except` block unguarded, so its failure leaves `main`. `Step` returns `Escaped`.
- The cursor is not monotonic. Line 110 copies the server's `current_date` as it is (`CursorMayMoveBack`).
- A failed notification send at line 108 also throws away the new cursor, because line 110 is never reached (`FailedNotificationKeepsCursor`).
- Nothing is deduplicated. The same newest item is sent again on every poll (`RepeatedItemIsResent`).
- After a transport failure, the cause is not what reaches the chat. `get_homework_statuses` logs the request exception and then returns a local name that was never bound (line 89). The text that gets reported is that of the resulting name error. The model keeps the failure text abstract (`FetchFailed(error)`).

## Model

| member | source | states |
|---|---|---|
| Interpreter.Interpret | homework.py:54-69 | A missing name or status yields exactly the no-data text, even when the status is also unknown. Otherwise an uncatalogued status yields exactly the unknown-status text. `reviewing` yields the catalog text alone. `rejected`/`approved` yield the name quoted in the report template, followed by the verdict. |
| Interpreter.Classify | homework.py:58-69 | Every item falls into one of four kinds of notification. A verdict kind only arises for `rejected` or `approved`. |
| Interpreter.Read | homework.py:54-69 | A text reads as missing-data, unknown-status or under-review exactly when it is that fixed text. A text read as a verdict is exactly the report of that name and verdict. |
| Interpreter.ReadInterpret | homework.py:54-69 | Round trip: reading back the notification for any item gives that item's classification, with the quoted name for verdicts. So every notification is readable. |
| Interpreter.VerdictReportsIdentify | homework.py:68-69 | Two items with a verdict status get the same notification only when they have the same name and status. |
| Interpreter.VerdictQuotesNameAndVerdict | homework.py:68-69 | A `rejected`/`approved` notification holds the item name right after the opening text and ends with that status's catalog verdict. |
| Interpreter.ReviewingIgnoresName | homework.py:66-67 | The `reviewing` notification is the same for every item name. |
| Messages.Report | homework.py:68-69 | The verdict report is the opening text, then the name, then the closing quote, `!` and two newlines, then the verdict. Each part can be found at its fixed position. |
| Payload.Newest | homework.py:105-107 | Only the first item is interpreted. Nothing is interpreted when the list is missing or empty. |
| PollLoop.Try | homework.py:103-112 | The guarded part of an iteration fails exactly when the query failed, or when there was a notification and it was not delivered. It then carries that failure's text. Otherwise the query succeeded, the new cursor is its `current_date` or else the old cursor, and the one message sent is the notification for the first item, or nothing when the list is missing or empty. |
| PollLoop.Step | homework.py:102-119 | After a successful query, the cursor becomes `current_date` if one was given and otherwise stays. The notification for the first item is appended when there is one, and nothing when the list is missing or empty. The sleep is 300. After a failed query or failed notification, the cursor stays, exactly `BotError` plus the failure text is appended, and the sleep is 5. If that report fails, the loop ends with the state unchanged. |
| PollLoop.Run | homework.py:102-119 | Over a sequence of polls, earlier messages and sleeps are never rewritten. Each completed iteration sleeps once, either 300 or 5, and sends at most one message. A run that ends early has slept fewer times than it had polls. |
| PollLoop.ErrorReportIsNoNotification | homework.py:28-30 | An error report never reads as a status notification. |
| PollLoop.StepSendsSendable | homework.py:105-119 | Every message one iteration appends is a status notification or an error report, whatever the outbox held before, such as the start-up greeting. |
| PollLoop.RunSendsSendable | homework.py:102-119 | Over a whole run, every message the loop appends is a status notification or an error report. Messages sent before the loop, such as the start-up greeting, are not constrained. |
| PollLoop.RunCursorFromServer | homework.py:110-112 | After a run, the cursor is either the starting cursor or a `current_date` that some query of the run returned. |
| PollLoop.CursorMayMoveBack | homework.py:110-112 | A completed iteration whose `current_date` is earlier than the cursor moves the cursor back. |
| PollLoop.FailedNotificationKeepsCursor | homework.py:106-119 | If the notification cannot be sent, the cursor the query returned is dropped. The failure is reported instead, and the sleep is 5. |
| PollLoop.RepeatedItemIsResent | homework.py:105-109 | Two polls that return the same newest item send its notification twice. |

## Left out

- Loading the environment and checking the tokens at start-up (`homework.py:11`, `33-39`). This is process bootstrap that ends in `SystemExit`.
- The log-file handler setup (`homework.py:13-24`) and every logging call. They are side effects only.
- The HTTP request and JSON decoding in `get_homework_statuses` (`homework.py:72-89`), and the clock reads at lines 74 and 97. Their results become the `Fetch` input. Every way they fail (request error, undecodable body, a body that is not an object) ends in the `except` at line 116, so they all become `FetchFailed` with some text.
- `send_message` and the Telegram client (`homework.py:92-93`, `98`). Sending becomes a `Delivery` input, plus appending to `outbox`.
- The preamble of `main` (`homework.py:96-100`): reading the clock for the first cursor, building the client, and the start-up greeting. Runs start from an arbitrary state.
- `time.sleep` itself. The duration is recorded in `sleeps` instead.
- The endless `while True` and its liveness. Only single steps and finite runs are modelled.
- A `current_date` that is present but JSON `null`. The code would make the cursor `None`, and the next query would fall back to the clock (lines 73-74). The model's `currentDate` is an optional integer, so it treats `null` as absent.
- Work items that are not objects, names that are not strings, and statuses that cannot be hashed. In the code these raise inside the guarded block or are converted by the f-string. The model's work item has two optional string fields.
