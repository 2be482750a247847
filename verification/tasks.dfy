/** The task-shaped record the adapters and the orchestrator produce. */
module Tasks {
  import opened Wrappers
  import opened Seqs
  import opened Text

  /** A time as the source obtains it; rendering to ISO-8601 is left out. */
  datatype Timestamp =
    | Iso(text: string)                 // `new Date().toISOString()` or a string the API gave
    | UnixSeconds(seconds: int)         // Chatwork `send_time`
    | UnixMillisText(millis: string)    // Gmail `internalDate`

  /** The `external_source` object, whose keys differ per producer. */
  datatype Source =
    | ChatworkSource(chatworkMessageId: string, roomName: string, senderName: string)
    | GoogleChatSource(messageName: Option<string>, spaceName: string, senderName: string)
    | GmailSource(gmailMessageId: string, subject: string, from: string, labels: seq<string>)
    | SyncSource(sourceType: string, messageId: string, connectionId: string)

  datatype Task = Task(
    id: string,
    title: string,
    description: string,
    status: string,
    priority: string,
    assignee: string,
    dueDate: Option<string>,
    createdAt: Timestamp,
    updatedAt: string,
    externalSource: Source)

  const Pending := "pending"
  const Medium := "medium"
  const High := "high"

  /** A title taken as "the first line, cut to `limit` characters": a
      prefix of `text`, without a newline, that stops only at the limit,
      at a newline or at the end. */
  predicate FirstLineTitle(title: string, text: string, limit: nat) {
    && title <= text
    && '\n' !in title
    && |title| <= limit
    && (|title| < limit ==> |title| == |text| || text[|title|] == '\n')
  }

  /** `text.split('\n')[0].substring(0, limit)`, the limit counted in
      characters rather than UTF-16 code units. */
  function FirstLine(text: string, limit: nat): (r: string)
    ensures FirstLineTitle(r, text, limit)
  {
    FirstN(Before(text, '\n'), limit)
  }
}
