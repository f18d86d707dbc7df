/**
 The status interpreter: turns the newest work item of a poll into the text
 the bot sends. Its four branches are checked in a fixed order: missing data,
 unknown status, `reviewing` (catalog text only), and `rejected`/`approved`
 (the item name quoted in a report followed by the verdict).

 Alongside `Interpret` stand `Read`, a parser of the texts it produces, and
 `Classify`, an independent statement of which kind of notification an item
 deserves; `ReadInterpret` proves that reading back a notification recovers
 exactly that classification, name included.
 */
module Interpreter {
  import opened Payload
  import opened Messages

  /** What a notification tells its reader. */
  datatype Reading =
    | Missing                               // the item lacked its name or its status
    | Unknown                               // the status is outside the catalog
    | UnderReview                           // the item is being reviewed
    | Verdict(name: string, status: string) // the item `name` was rejected or approved
    | Unreadable                            // not a notification text at all

  /** The kind of notification an item deserves, decided on the item alone. */
  function Classify(item: WorkItem): (k: Reading)
    ensures k != Unreadable
    ensures k.Verdict? ==> k.status in Verdicts
  {
    match (item.name, item.status)
    case (Some(name), Some(status)) =>
      if status !in Statuses then Unknown
      else if status == Reviewing then UnderReview
      else Verdict(name, status)
    case _ => Missing
  }

  /**
   The notification text for `item`. A missing field wins over an unknown
   status; `reviewing` ignores the name; the two verdicts quote it.
   */
  function Interpret(item: WorkItem): (r: string)
    ensures item.name.None? || item.status.None? ==> r == NoData
    ensures item.name.Some? && item.status.Some? && item.status.value !in Statuses
            ==> r == StatusError
    ensures item.name.Some? && item.status == Some(Reviewing) ==> r == Statuses[Reviewing]
    ensures item.name.Some? && item.status.Some? && item.status.value in Verdicts
            ==> r == Report(item.name.value, item.status.value)
  {
    if item.name.None? || item.status.None? then NoData
    else
      var name, status := item.name.value, item.status.value;
      if status !in Statuses then StatusError
      else if status == Reviewing then Statuses[status]
      else Report(name, status)
  }

  /** `msg` has the shape of the report for `status`, around some name. */
  predicate IsReport(msg: string, status: string)
    requires status in Statuses
  {
    && |msg| >= |Opening| + |Tail(status)|
    && msg[..|Opening|] == Opening
    && msg[|msg| - |Tail(status)|..] == Tail(status)
  }

  /** The name quoted in a report for `status`. */
  function QuotedName(msg: string, status: string): (name: string)
    requires status in Statuses && IsReport(msg, status)
    ensures msg == Report(name, status)
  {
    var name := msg[|Opening|..|msg| - |Tail(status)|];
    assert msg == msg[..|Opening|] + name + msg[|msg| - |Tail(status)|..];
    name
  }

  /** Parses a text the bot may have sent back into what it says. */
  function Read(msg: string): (r: Reading)
    ensures r == Missing <==> msg == NoData
    ensures r == Unknown <==> msg == StatusError
    ensures r == UnderReview <==> msg == Statuses[Reviewing]
    ensures r.Verdict? ==> r.status in Verdicts && msg == Report(r.name, r.status)
  {
    if msg == NoData then Missing
    else if msg == StatusError then Unknown
    else if msg == Statuses[Reviewing] then UnderReview
    else if IsReport(msg, Rejected) then Verdict(QuotedName(msg, Rejected), Rejected)
    else if IsReport(msg, Approved) then Verdict(QuotedName(msg, Approved), Approved)
    else Unreadable
  }

  /** A verdict report is longer than every fixed notification text. */
  lemma ReportIsLong(name: string, status: string)
    requires status in Verdicts
    ensures |Report(name, status)| > |NoData|
    ensures |Report(name, status)| > |StatusError|
    ensures |Report(name, status)| > |Statuses[Reviewing]|
  {
  }

  /** The two verdict tails differ where the shorter one ends. */
  lemma TailsDiffer()
    ensures |Tail(Rejected)| < |Tail(Approved)|
    ensures Tail(Approved)[|Tail(Approved)| - |Tail(Rejected)|..] != Tail(Rejected)
  {
    var a, j := Tail(Approved), Tail(Rejected);
    assert |a| == 66 && |j| == 40;
    assert a[64] == 'у' && j[38] == 'и';
    assert a[|a| - |j|..][38] == a[64];
  }

  /** A report is recognised as the report for its own status and for no other. */
  lemma ReportShape(name: string, status: string)
    requires status in Verdicts
    ensures IsReport(Report(name, status), status)
    ensures status == Approved ==> !IsReport(Report(name, status), Rejected)
  {
    var msg := Report(name, status);
    if status == Approved {
      TailsDiffer();
      var a, j := Tail(Approved), Tail(Rejected);
      assert msg[|msg| - |j|..] == a[|a| - |j|..];
    }
  }

  /**
   Round trip: reading back what `Interpret` produced yields the item's
   classification, so every notification is readable and a verdict report
   gives back the item's name and status.
   */
  lemma ReadInterpret(item: WorkItem)
    ensures Read(Interpret(item)) == Classify(item)
  {
    if item.name.Some? && item.status.Some? && item.status.value in Verdicts {
      var name, status := item.name.value, item.status.value;
      ReportIsLong(name, status);
      ReportShape(name, status);
      var msg := Report(name, status);
      var k := Read(msg);
      assert k.Verdict? && msg == Report(k.name, k.status);
      assert k.name == msg[|Opening|..|Opening| + |name|];
    }
  }

  /**
   Two items with a verdict status get the same notification only when they
   have the same name and status: the report identifies the item.
   */
  lemma VerdictReportsIdentify(a: WorkItem, b: WorkItem)
    requires a.name.Some? && a.status.Some? && a.status.value in Verdicts
    requires Interpret(a) == Interpret(b)
    ensures a == b
  {
    ReadInterpret(a);
    ReadInterpret(b);
  }

  /** For a verdict status the notification contains the name and ends with the verdict. */
  lemma VerdictQuotesNameAndVerdict(name: string, status: string)
    requires status in Verdicts
    ensures var r := Interpret(WorkItem(Some(name), Some(status)));
      && r[|Opening|..|Opening| + |name|] == name
      && |r| >= |Statuses[status]|
      && r[|r| - |Statuses[status]|..] == Statuses[status]
  {
  }

  /** The `reviewing` notification does not depend on the name. */
  lemma ReviewingIgnoresName(a: string, b: string)
    ensures Interpret(WorkItem(Some(a), Some(Reviewing)))
         == Interpret(WorkItem(Some(b), Some(Reviewing)))
  {
  }
}
