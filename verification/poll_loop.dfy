/**
 One iteration of the bot's endless poll loop as a pure state transition,
 and a run of several iterations.

 The network is not called: the outcome of the status query (`Fetch`) and
 of each message dispatch (`Delivery`) are inputs of the step. Sleeping is
 recorded by appending the duration to `sleeps`; sending is recorded by
 appending the delivered text to `outbox`.

 An iteration first tries to fetch, interpret the newest item, send the
 notification and advance the cursor; any failure in that attempt skips the
 rest of it, and the bot then reports `BotError` followed by the failure's
 text and sleeps briefly. A failure of that report itself is not caught: the
 loop ends (`Escaped`).
 */
module PollLoop {
  import opened Payload
  import opened Messages
  import opened Interpreter

  /** Seconds slept after a completed iteration. */
  const PollInterval: int := 300
  /** Seconds slept after a failed iteration. */
  const RetryInterval: int := 5

  /** What the loop owns between iterations. */
  datatype State = State(cursor: int, outbox: seq<string>, sleeps: seq<int>)

  /** The outcome of one status query: a decoded response, or the text of the failure. */
  datatype Fetch = Fetched(response: Response) | FetchFailed(error: string)

  /** The outcome of one message dispatch. */
  datatype Delivery = Delivered | Undelivered(error: string)

  /** After an iteration the loop either goes on, or a failure escaped it. */
  datatype Next = Continue(state: State) | Escaped(state: State, error: string)

  /** The inputs of one iteration: the query, the notification send, the error report send. */
  datatype Poll = Poll(fetch: Fetch, notify: Delivery, report: Delivery)

  /** The outcome of the guarded part of an iteration. */
  datatype Attempt = Completed(cursor: int, sent: seq<string>) | Raised(error: string)

  /** The guarded part fails: the query failed, or the notification could not be sent. */
  predicate Fails(fetch: Fetch, notify: Delivery)
  {
    fetch.FetchFailed? || (Newest(fetch.response).Some? && notify.Undelivered?)
  }

  /** The text of the failure that ended the guarded part. */
  function Cause(fetch: Fetch, notify: Delivery): string
    requires Fails(fetch, notify)
  {
    if fetch.FetchFailed? then fetch.error else notify.error
  }

  /** The guarded part: fetch, interpret the newest item and send it, advance the cursor. */
  function Try(cursor: int, fetch: Fetch, notify: Delivery): (a: Attempt)
    ensures a.Raised? <==> Fails(fetch, notify)
    ensures a.Raised? ==> a.error == Cause(fetch, notify)
    ensures a.Completed? ==>
      fetch.Fetched? && a.cursor == fetch.response.currentDate.GetOr(cursor)
    ensures a.Completed? ==>
      a.sent == match Newest(fetch.response) case Some(item) => [Interpret(item)] case None => []
  {
    match fetch
    case FetchFailed(error) => Raised(error)
    case Fetched(response) =>
      var next := response.currentDate.GetOr(cursor);
      match Newest(response)
      case None => Completed(next, [])
      case Some(item) =>
        match notify
        case Undelivered(error) => Raised(error)
        case Delivered => Completed(next, [Interpret(item)])
  }

  /** One pass through the body of the poll loop. */
  function Step(s: State, fetch: Fetch, notify: Delivery, report: Delivery): (r: Next)
    // a successful query: the cursor takes the server's date when it gave one
    ensures fetch.Fetched? && Newest(fetch.response).None? ==>
      r == Continue(State(fetch.response.currentDate.GetOr(s.cursor),
                          s.outbox, s.sleeps + [PollInterval]))
    ensures fetch.Fetched? && Newest(fetch.response).Some? && notify.Delivered? ==>
      r == Continue(State(fetch.response.currentDate.GetOr(s.cursor),
                          s.outbox + [Interpret(Newest(fetch.response).value)],
                          s.sleeps + [PollInterval]))
    // a failed query or notification: the cursor stays, the failure is reported
    ensures Fails(fetch, notify) && report.Delivered? ==>
      r == Continue(State(s.cursor, s.outbox + [BotError + Cause(fetch, notify)],
                          s.sleeps + [RetryInterval]))
    // a failed report leaves the loop
    ensures Fails(fetch, notify) && report.Undelivered? ==> r == Escaped(s, report.error)
  {
    match Try(s.cursor, fetch, notify)
    case Completed(cursor, sent) =>
      assert s.outbox + [] == s.outbox;
      Continue(State(cursor, s.outbox + sent, s.sleeps + [PollInterval]))
    case Raised(error) =>
      match report
      case Delivered =>
        Continue(s.(outbox := s.outbox + [BotError + error], sleeps := s.sleeps + [RetryInterval]))
      case Undelivered(failure) => Escaped(s, failure)
  }

  /** Every completed iteration sleeps one of the two fixed intervals. */
  predicate IsInterval(d: int)
  {
    d == PollInterval || d == RetryInterval
  }

  /**
   The loop run over `polls` from `s`, stopping at the first escape. Each
   completed iteration sleeps once and sends at most one message; nothing
   already sent or slept is ever rewritten.
   */
  function Run(s: State, polls: seq<Poll>): (r: Next)
    decreases |polls|
    ensures s.outbox <= r.state.outbox && s.sleeps <= r.state.sleeps
    ensures r.Continue? ==> |r.state.sleeps| == |s.sleeps| + |polls|
    ensures r.Escaped? ==> |r.state.sleeps| < |s.sleeps| + |polls|
    ensures |r.state.outbox| - |s.outbox| <= |r.state.sleeps| - |s.sleeps|
    ensures forall i :: |s.sleeps| <= i < |r.state.sleeps| ==> IsInterval(r.state.sleeps[i])
  {
    if |polls| == 0 then Continue(s)
    else
      match Step(s, polls[0].fetch, polls[0].notify, polls[0].report)
      case Escaped(t, error) => Escaped(t, error)
      case Continue(t) => Run(t, polls[1..])
  }

  /** An error report is never mistaken for a status notification. */
  lemma ErrorReportIsNoNotification(cause: string)
    ensures Read(BotError + cause) == Unreadable
  {
    var m := BotError + cause;
    assert m[0] == 'Б';
    assert NoData[0] == 'Н' && StatusError[0] == 'П' && Statuses[Reviewing][0] == 'Р';
    assert Opening[0] == 'У';
  }

  /** A message the bot sends: a status notification or an error report. */
  predicate Sendable(m: string)
  {
    Read(m) != Unreadable || (|m| >= |BotError| && m[..|BotError|] == BotError)
  }

  /** Every message of `outbox` from position `from` on is sendable. */
  predicate SendableFrom(outbox: seq<string>, from: nat)
  {
    forall i :: from <= i < |outbox| ==> Sendable(outbox[i])
  }

  /**
   A step only ever sends notifications and error reports, whatever was
   sent before it (such as the start-up greeting).
   */
  lemma StepSendsSendable(s: State, fetch: Fetch, notify: Delivery, report: Delivery)
    ensures SendableFrom(Step(s, fetch, notify, report).state.outbox, |s.outbox|)
  {
  }

  /** A whole run only ever sends notifications and error reports. */
  lemma {:induction false} RunSendsSendable(s: State, polls: seq<Poll>)
    ensures SendableFrom(Run(s, polls).state.outbox, |s.outbox|)
    decreases |polls|
  {
    if |polls| > 0 {
      var p := polls[0];
      StepSendsSendable(s, p.fetch, p.notify, p.report);
      match Step(s, p.fetch, p.notify, p.report)
      case Escaped(t, error) =>
      case Continue(t) =>
        RunSendsSendable(t, polls[1..]);
        var o := Run(t, polls[1..]).state.outbox;
        assert forall i :: |s.outbox| <= i < |t.outbox| ==> o[i] == t.outbox[i];
    }
  }

  /**
   The cursor after a run is the starting cursor or a date some query of the
   run returned: the loop never invents a cursor value.
   */
  lemma {:induction false} RunCursorFromServer(s: State, polls: seq<Poll>)
    ensures var c := Run(s, polls).state.cursor;
      c == s.cursor ||
      exists i :: 0 <= i < |polls| && polls[i].fetch.Fetched? &&
                  polls[i].fetch.response.currentDate == Some(c)
    decreases |polls|
  {
    if |polls| > 0 {
      var p := polls[0];
      match Step(s, p.fetch, p.notify, p.report)
      case Escaped(t, error) =>
      case Continue(t) =>
        RunCursorFromServer(t, polls[1..]);
        var c := Run(s, polls).state.cursor;
        if c != t.cursor {
          var i :| 0 <= i < |polls[1..]| && polls[1..][i].fetch.Fetched? &&
                   polls[1..][i].fetch.response.currentDate == Some(c);
          assert polls[i + 1] == polls[1..][i];
        } else if c != s.cursor {
          assert polls[0].fetch.Fetched? && polls[0].fetch.response.currentDate == Some(c);
        }
    }
  }

  /**
   The cursor follows the server even backwards: a query that returns an
   earlier date moves the cursor back.
   */
  lemma CursorMayMoveBack(s: State, response: Response, notify: Delivery, report: Delivery)
    requires response.currentDate.Some? && response.currentDate.value < s.cursor
    requires Newest(response).None? || notify.Delivered?
    ensures Step(s, Fetched(response), notify, report).state.cursor < s.cursor
  {
  }

  /**
   A failed notification also discards the cursor the query returned: the
   next query asks again from the old cursor.
   */
  lemma FailedNotificationKeepsCursor(s: State, response: Response, error: string)
    requires Newest(response).Some?
    ensures Step(s, Fetched(response), Undelivered(error), Delivered)
         == Continue(State(s.cursor, s.outbox + [BotError + error], s.sleeps + [RetryInterval]))
  {
  }

  /**
   No deduplication: two polls that return the same newest item both send
   its notification.
   */
  lemma RepeatedItemIsResent(s: State, response: Response, report: Delivery)
    requires Newest(response).Some?
    ensures var p := Poll(Fetched(response), Delivered, report);
      var m := Interpret(Newest(response).value);
      Run(s, [p, p]).Continue? && Run(s, [p, p]).state.outbox == s.outbox + [m, m]
  {
  }
}
