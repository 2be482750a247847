/** The pure helpers of the Google Chat adapter
    (src/services/external/googleChatService.js). */
module GoogleChat {
  import opened Wrappers
  import opened Text
  import opened Seqs
  import opened Tasks

  /** A native Google Chat message. `name` is the resource name
      ("spaces/S/messages/M"); the other strings are "" when absent. */
  datatype Message = Message(
    name: Option<string>,
    text: string,
    argumentText: string,
    senderDisplayName: string,
    senderEmail: string,
    createTime: string)

  /** A space as `GET /spaces` lists it. */
  datatype Space = Space(name: string, displayName: string)

  /** `message.text || message.argumentText || ''`. */
  function MessageText(m: Message): (r: string)
    ensures m.text != "" ==> r == m.text
    ensures m.text == "" ==> r == m.argumentText
  {
    if m.text != "" then m.text else m.argumentText
  }

  /** `message.sender?.displayName || 'Unknown'`. */
  function SenderName(m: Message): (r: string)
    ensures r != ""
    ensures m.senderDisplayName != "" ==> r == m.senderDisplayName
  {
    if m.senderDisplayName != "" then m.senderDisplayName else "Unknown"
  }

  /** `message.name?.split('/').pop()`, "" when the name is absent: the
      name's last `/`-separated segment. */
  function NameSegment(m: Message): (r: string)
    ensures '/' !in r
    ensures m.name.None? ==> r == ""
  {
    if m.name.Some? then AfterLast(m.name.value, '/') else ""
  }

  /** `GoogleChatService.convertMessageToTask(message, spaceName, defaultPriority)`;
      `nowMillis` stands for `Date.now()`, `now` for `new Date().toISOString()`. */
  function ConvertMessageToTask(m: Message, spaceName: string, defaultPriority: Option<string>,
                                nowMillis: string, now: string): (t: Task)
    ensures NameSegment(m) != "" ==> t.id == "gchat_" + NameSegment(m)
    ensures NameSegment(m) == "" ==> t.id == "gchat_" + nowMillis
    ensures FirstLine(MessageText(m), 100) != "" ==> FirstLineTitle(t.title, MessageText(m), 100)
    ensures FirstLine(MessageText(m), 100) == "" ==> t.title == "Google Chatメッセージ"
    ensures t.description == "[Google Chat] " + spaceName + "\n送信者: " + SenderName(m) + "\n\n" + MessageText(m)
    ensures t.status == Pending && t.dueDate == None
    ensures t.priority == if defaultPriority.Some? then defaultPriority.value else Medium
    ensures t.createdAt == Iso(if m.createTime != "" then m.createTime else now)
    ensures t.externalSource == GoogleChatSource(m.name, spaceName, SenderName(m))
  {
    var text := MessageText(m);
    var line := FirstLine(text, 100);
    var segment := NameSegment(m);
    Task(
      id := "gchat_" + (if segment != "" then segment else nowMillis),
      title := if line != "" then line else "Google Chatメッセージ",
      description := "[Google Chat] " + spaceName + "\n送信者: " + SenderName(m) + "\n\n" + text,
      status := Pending,
      priority := defaultPriority.GetOr(Medium),
      assignee := "Google Chatから自動作成",
      dueDate := None,
      createdAt := Iso(if m.createTime != "" then m.createTime else now),
      updatedAt := now,
      externalSource := GoogleChatSource(m.name, spaceName, SenderName(m)))
  }

  /** `GoogleChatService.filterMessagesByKeywords`; an absent list is `[]`. */
  function FilterMessagesByKeywords(messages: seq<Message>, keywords: seq<string>): (r: seq<Message>)
    ensures |keywords| == 0 ==> r == messages
    ensures SubsequenceOf(r, messages)
    ensures forall m :: m in r <==> m in messages && (|keywords| == 0 || ContainsAnyFolded(MessageText(m), keywords))
  {
    if |keywords| == 0 then SubsequenceOfSelf(messages); messages
    else Filter(messages, (m: Message) => ContainsAnyFolded(MessageText(m), keywords))
  }

  /** `GoogleChatService.filterMessagesBySender`: exact, case-sensitive
      equality with `sender.email` ("" when missing). */
  function FilterMessagesBySender(messages: seq<Message>, senderEmails: seq<string>): (r: seq<Message>)
    ensures |senderEmails| == 0 ==> r == messages
    ensures SubsequenceOf(r, messages)
    ensures forall m :: m in r <==> m in messages && (|senderEmails| == 0 || m.senderEmail in senderEmails)
  {
    if |senderEmails| == 0 then SubsequenceOfSelf(messages); messages
    else Filter(messages, (m: Message) => m.senderEmail in senderEmails)
  }
}
