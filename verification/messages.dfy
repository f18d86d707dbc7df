/**
 The fixed texts the bot sends and the status catalog, character for
 character as the bot defines them (including the misspelling in
 `StatusError`).
 */
module Messages {

  /** Prefix of every report of a failed poll iteration. */
  const BotError: string := "Бот столкнулся с ошибкой: "
  /** Sent when the status of the newest item is not in the catalog. */
  const StatusError: string := "Получен незвестный статус."
  /** Sent when the newest item lacks its name or its status. */
  const NoData: string := "Не удалось получить данные."

  const Rejected: string := "rejected"
  const Reviewing: string := "reviewing"
  const Approved: string := "approved"

  /** The status catalog: status keyword to verdict text. */
  const Statuses: map<string, string> := map[
    Rejected := "К сожалению в работе нашлись ошибки.",
    Reviewing := "Работа взята в ревью.",
    Approved := "Ревьюеру всё понравилось, можно приступать к следующему уроку."
  ]

  /** The statuses whose notification quotes the item name. */
  const Verdicts: set<string> := {Rejected, Approved}

  /** The text before and after the quoted item name in a verdict report. */
  const Opening: string := "У вас проверили работу \""
  const Closing: string := "\"!\n\n"

  /** The part of a verdict report that follows the name. */
  function Tail(status: string): string
    requires status in Statuses
  {
    Closing + Statuses[status]
  }

  /** The verdict report for an item called `name` whose status is `status`. */
  function Report(name: string, status: string): (r: string)
    requires status in Statuses
    ensures |r| == |Opening| + |name| + |Tail(status)|
    ensures r[..|Opening|] == Opening
    ensures r[|Opening|..|Opening| + |name|] == name
    ensures r[|Opening| + |name|..] == Tail(status)
  {
    Opening + name + Tail(status)
  }
}
