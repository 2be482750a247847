/** The pure helpers of the Gmail adapter
    (src/services/external/gmailService.js). */
module Gmail {
  import opened Wrappers
  import opened Text
  import opened Seqs
  import opened Tasks
  import Base64

  datatype Header = Header(name: string, value: string)

  /** One MIME part; `data` is `part.body.data`, "" when absent. */
  datatype Part = Part(mimeType: string, data: string)

  /** `payload.headers`, `payload.body.data` and `payload.parts`; an absent
      list is `[]` and absent data is "". */
  datatype Payload = Payload(headers: seq<Header>, data: string, parts: seq<Part>)

  /** A message as `GET /users/me/messages/{id}` returns it. */
  datatype Message = Message(id: string, payload: Option<Payload>, labelIds: seq<string>, internalDate: string)

  predicate Named(h: Header, name: string) {
    ToLower(h.name) == ToLower(name)
  }

  /** `headers.find(h => h.name.toLowerCase() === name.toLowerCase())?.value`. */
  function FindHeader(headers: seq<Header>, name: string): (r: Option<string>)
    ensures r.None? <==> forall k :: 0 <= k < |headers| ==> !Named(headers[k], name)
    ensures r.Some? ==> exists k :: 0 <= k < |headers| && Named(headers[k], name) && r.value == headers[k].value
                                    && forall j :: 0 <= j < k ==> !Named(headers[j], name)
    decreases |headers|
  {
    if |headers| == 0 then None
    else if Named(headers[0], name) then Some(headers[0].value)
    else
      FindHeader(headers[1..], name)
  }

  function Headers(m: Message): seq<Header> {
    if m.payload.Some? then m.payload.value.headers else []
  }

  /** `GmailService.getHeader`: the value of the first header whose name
      matches case-insensitively, "" when there is none. */
  function GetHeader(m: Message, name: string): (r: string)
    ensures (forall k :: 0 <= k < |Headers(m)| ==> !Named(Headers(m)[k], name)) ==> r == ""
    ensures forall k :: 0 <= k < |Headers(m)| && Named(Headers(m)[k], name)
                        && (forall j :: 0 <= j < k ==> !Named(Headers(m)[j], name))
                        ==> r == Headers(m)[k].value
  {
    FindHeader(Headers(m), name).GetOr("")
  }

  /** The data of the first part of the given MIME type that carries data. */
  function FirstPartData(parts: seq<Part>, mimeType: string): (r: Option<string>)
    ensures r.None? <==> forall k :: 0 <= k < |parts| ==> parts[k].mimeType != mimeType || parts[k].data == ""
    ensures r.Some? ==> r.value != ""
    ensures r.Some? ==> exists k :: (0 <= k < |parts| && parts[k] == Part(mimeType, r.value)
                        && forall j :: 0 <= j < k ==> parts[j].mimeType != mimeType || parts[j].data == "")
    decreases |parts|
  {
    if |parts| == 0 then None
    else if parts[0].mimeType == mimeType && parts[0].data != "" then Some(parts[0].data)
    else
      FirstPartData(parts[1..], mimeType)
  }

  /** The encoded text `getBody` decodes: the top-level data, else the first
      text/plain part, else the first text/html part; None when there is none. */
  function BodySource(p: Payload): Option<string> {
    if p.data != "" then Some(p.data)
    else if FirstPartData(p.parts, "text/plain").Some? then FirstPartData(p.parts, "text/plain")
    else FirstPartData(p.parts, "text/html")
  }

  /** `GmailService.getBody`. None where the source throws: the payload is
      missing, or `atob` rejects the chosen data. */
  function GetBody(m: Message): (r: Option<string>)
    ensures m.payload.None? ==> r.None?
    ensures m.payload.Some? && BodySource(m.payload.value).None? ==> r == Some("")
    ensures m.payload.Some? && BodySource(m.payload.value).Some? ==> r == Base64.DecodeUrl(BodySource(m.payload.value).value)
  {
    match m.payload
    case None => None
    case Some(p) =>
      match BodySource(p)
      case None => Some("")
      case Some(data) => Base64.DecodeUrl(data)
  }

  /** When the top level carries no data, a text/plain part with data
      decides the body, wherever text/html parts stand. */
  lemma PlainBeatsHtml(m: Message)
    requires m.payload.Some? && m.payload.value.data == ""
    requires FirstPartData(m.payload.value.parts, "text/plain").Some?
    ensures GetBody(m) == Base64.DecodeUrl(FirstPartData(m.payload.value.parts, "text/plain").value)
  {
  }

  /** Without top-level data or a text/plain part with data, the first
      text/html part carrying the base64url text of some bytes yields those
      bytes as text, markup and all. */
  lemma HtmlOnlyBody(m: Message, b: seq<Base64.byte>)
    requires m.payload.Some? && m.payload.value.data == ""
    requires FirstPartData(m.payload.value.parts, "text/plain").None?
    requires FirstPartData(m.payload.value.parts, "text/html") == Some(Base64.EncodeUrl(b))
    ensures GetBody(m) == Some(Base64.Latin1(b))
  {
    Base64.DecodeUrlEncodeUrl(b);
  }

  const Important := "IMPORTANT"
  const Starred := "STARRED"

  /** The header block of the task description, up to the body preview. */
  function DescriptionHead(from: string, date: string, subject: string): string {
    "[Gmail] " + from + "\n日時: " + date + "\n\n件名: " + subject + "\n\n"
  }

  /** The description's body preview: at most 500 characters of the body,
      followed by "..." exactly when the body was cut. */
  function Preview(body: string): (r: string)
    ensures |body| > 500 ==> r == body[..500] + "..."
    ensures |body| <= 500 ==> r == body
  {
    FirstN(body, 500) + (if |body| > 500 then "..." else "")
  }

  /** The priority rule: IMPORTANT or STARRED means "high", otherwise the
      default ("medium" when omitted). */
  function LabelPriority(labelIds: seq<string>, defaultPriority: Option<string>): (r: string)
    ensures Important in labelIds || Starred in labelIds ==> r == High
    ensures Important !in labelIds && Starred !in labelIds ==> r == defaultPriority.GetOr(Medium)
  {
    if Important in labelIds || Starred in labelIds then High else defaultPriority.GetOr(Medium)
  }

  /** `GmailService.convertMessageToTask`: None where `getBody` throws. */
  function ConvertMessageToTask(m: Message, defaultPriority: Option<string>, now: string): (r: Option<Task>)
    ensures r.Some? <==> GetBody(m).Some?
    ensures r.Some? ==> r.value.id == "gmail_" + m.id
    ensures r.Some? ==> r.value.title == (if GetHeader(m, "Subject") != "" then GetHeader(m, "Subject") else "Gmailメッセージ")
    ensures r.Some? ==> r.value.description
                        == DescriptionHead(GetHeader(m, "From"), GetHeader(m, "Date"), GetHeader(m, "Subject"))
                           + Preview(GetBody(m).value)
    ensures r.Some? ==> r.value.priority == LabelPriority(m.labelIds, defaultPriority)
    ensures r.Some? ==> r.value.status == Pending && r.value.dueDate == None
    ensures r.Some? ==> r.value.createdAt == UnixMillisText(m.internalDate)
    ensures r.Some? ==> r.value.externalSource == GmailSource(m.id, GetHeader(m, "Subject"), GetHeader(m, "From"), m.labelIds)
  {
    var subject := GetHeader(m, "Subject");
    var from := GetHeader(m, "From");
    var date := GetHeader(m, "Date");
    match GetBody(m)
    case None => None
    case Some(body) =>
      Some(Task(
        id := "gmail_" + m.id,
        title := if subject != "" then subject else "Gmailメッセージ",
        description := DescriptionHead(from, date, subject) + Preview(body),
        status := Pending,
        priority := LabelPriority(m.labelIds, defaultPriority),
        assignee := "Gmailから自動作成",
        dueDate := None,
        createdAt := UnixMillisText(m.internalDate),
        updatedAt := now,
        externalSource := GmailSource(m.id, subject, from, m.labelIds)))
  }

  /** Whether a message passes the keyword filter; None when its body throws
      (the filter reads the body before testing any keyword). */
  function KeywordHit(m: Message, keywords: seq<string>): Option<bool> {
    match GetBody(m)
    case None => None
    case Some(body) =>
      Some(exists k :: (k in keywords &&
        (Contains(ToLower(GetHeader(m, "Subject")), ToLower(k)) || Contains(ToLower(body), ToLower(k)))))
  }

  function FilterKeywordHits(messages: seq<Message>, keywords: seq<string>): (r: Option<seq<Message>>)
    ensures r.None? <==> exists i :: 0 <= i < |messages| && KeywordHit(messages[i], keywords).None?
    ensures r.Some? ==> SubsequenceOf(r.value, messages)
    ensures r.Some? ==> forall m :: m in r.value <==> m in messages && KeywordHit(m, keywords) == Some(true)
    decreases |messages|
  {
    if |messages| == 0 then Some([])
    else match (KeywordHit(messages[0], keywords), FilterKeywordHits(messages[1..], keywords))
      case (Some(hit), Some(rest)) =>
        assert forall i :: 1 <= i < |messages| ==> messages[i] == messages[1..][i - 1];
        Some(if hit then [messages[0]] + rest else rest)
      case (None, _) => None
      case (_, None) =>
        var i :| 0 <= i < |messages| - 1 && KeywordHit(messages[1..][i], keywords).None?;
        assert KeywordHit(messages[i + 1], keywords).None?;
        None
  }

  /** `GmailService.filterMessagesByKeywords`: subject or body contains a
      keyword, case-insensitively. None where some body throws. */
  function FilterMessagesByKeywords(messages: seq<Message>, keywords: seq<string>): (r: Option<seq<Message>>)
    ensures |keywords| == 0 ==> r == Some(messages)
    ensures |keywords| > 0 ==> (r.None? <==> exists i :: 0 <= i < |messages| && GetBody(messages[i]).None?)
    ensures r.Some? ==> SubsequenceOf(r.value, messages)
    ensures |keywords| > 0 && r.Some? ==> forall m :: m in r.value <==> m in messages && KeywordHit(m, keywords) == Some(true)
  {
    if |keywords| == 0 then SubsequenceOfSelf(messages); Some(messages)
    else FilterKeywordHits(messages, keywords)
  }

  /** `GmailService.filterMessagesBySender`: some address is a
      case-insensitive substring of the From header. */
  function FilterMessagesBySender(messages: seq<Message>, senderEmails: seq<string>): (r: seq<Message>)
    ensures |senderEmails| == 0 ==> r == messages
    ensures SubsequenceOf(r, messages)
    ensures forall m :: m in r <==> m in messages && (|senderEmails| == 0 || ContainsAnyFolded(GetHeader(m, "From"), senderEmails))
  {
    if |senderEmails| == 0 then SubsequenceOfSelf(messages); messages
    else Filter(messages, (m: Message) => ContainsAnyFolded(GetHeader(m, "From"), senderEmails))
  }

  /** `GmailService.filterMessagesByLabels`: some given label is among the
      message's `labelIds`. */
  function FilterMessagesByLabels(messages: seq<Message>, labelIds: seq<string>): (r: seq<Message>)
    ensures |labelIds| == 0 ==> r == messages
    ensures SubsequenceOf(r, messages)
    ensures forall m :: m in r <==> m in messages && (|labelIds| == 0 || exists l :: l in labelIds && l in m.labelIds)
  {
    if |labelIds| == 0 then SubsequenceOfSelf(messages); messages
    else Filter(messages, (m: Message) => exists l :: l in labelIds && l in m.labelIds)
  }
}
