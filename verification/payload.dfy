/**
 The shapes of the data the review-status API returns, as the bot reads
 them: a work item with two optional fields, and a poll response with an
 optional item list and an optional server timestamp. A work-item field that
 is missing or null is `None`, which is what a dictionary `get` yields for
 both; `currentDate` treats a null date as a missing one.
 */
module Payload {

  datatype Option<+T> = None | Some(value: T) {

    /** The carried value, or `default` when there is none. */
    function GetOr(default: T): T
    {
      match this
      case Some(v) => v
      case None => default
    }
  }

  /** One work item of the `homeworks` list. */
  datatype WorkItem = WorkItem(name: Option<string>, status: Option<string>)

  /** The decoded body of one successful status query. */
  datatype Response = Response(homeworks: Option<seq<WorkItem>>, currentDate: Option<int>)

  /**
   The item the bot interprets: the first of the list, when the list is
   present and non-empty (an empty list is falsy and sends nothing).
   */
  function Newest(response: Response): (r: Option<WorkItem>)
    ensures r.Some? <==> response.homeworks.Some? && |response.homeworks.value| > 0
    ensures r.Some? ==> r.value == response.homeworks.value[0]
  {
    match response.homeworks
    case Some(items) => if |items| > 0 then Some(items[0]) else None
    case None => None
  }
}
