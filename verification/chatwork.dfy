/** The pure helpers of the Chatwork adapter
    (src/services/external/chatworkService.js). */
module Chatwork {
  import opened Wrappers
  import opened Text
  import opened Seqs
  import opened Tasks

  /** A native Chatwork message: `message_id`, `body`, `account.name`,
      `send_time`. The id is kept as the text the API sends; the code only
      interpolates and stores it. */
  datatype Message = Message(messageId: string, body: string, accountName: string, sendTime: int)

  /** A room as `GET /rooms` lists it. */
  datatype Room = Room(roomId: int, name: string)

  /** `ChatworkService.convertMessageToTask(message, roomName, defaultPriority)`;
      `defaultPriority` is None when the argument is omitted. `now` stands for
      `new Date().toISOString()`. */
  function ConvertMessageToTask(m: Message, roomName: string, defaultPriority: Option<string>, now: string): (t: Task)
    ensures t.id == "chatwork_" + m.messageId
    ensures FirstLineTitle(t.title, m.body, 100)
    ensures t.description == "[Chatwork] " + roomName + "\n送信者: " + m.accountName + "\n\n" + m.body
    ensures t.status == Pending && t.dueDate == None
    ensures t.priority == if defaultPriority.Some? then defaultPriority.value else Medium
    ensures t.createdAt == UnixSeconds(m.sendTime) && t.updatedAt == now
    ensures t.externalSource == ChatworkSource(m.messageId, roomName, m.accountName)
  {
    Task(
      id := "chatwork_" + m.messageId,
      title := FirstLine(m.body, 100),
      description := "[Chatwork] " + roomName + "\n送信者: " + m.accountName + "\n\n" + m.body,
      status := Pending,
      priority := defaultPriority.GetOr(Medium),
      assignee := "Chatworkから自動作成",
      dueDate := None,
      createdAt := UnixSeconds(m.sendTime),
      updatedAt := now,
      externalSource := ChatworkSource(m.messageId, roomName, m.accountName))
  }

  /** `ChatworkService.filterMessagesByKeywords`; an absent keyword list is `[]`. */
  function FilterMessagesByKeywords(messages: seq<Message>, keywords: seq<string>): (r: seq<Message>)
    ensures |keywords| == 0 ==> r == messages
    ensures SubsequenceOf(r, messages)
    ensures forall m :: m in r <==> m in messages && (|keywords| == 0 || ContainsAnyFolded(m.body, keywords))
  {
    if |keywords| == 0 then SubsequenceOfSelf(messages); messages
    else Filter(messages, (m: Message) => ContainsAnyFolded(m.body, keywords))
  }
}
