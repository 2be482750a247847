/** The normalise-and-merge half of `syncChatworkMessages`,
    `syncGoogleChatMessages` and `syncGmailMessages`: how each service's
    native messages become `ExternalMessage` records, which of them a sync
    gathers, and which of those are new to the store. The remote answers
    are inputs; nothing here performs a request. */
module SyncBatch {
  import opened Wrappers
  import opened Text
  import opened Seqs
  import opened Tasks
  import opened SyncRecords
  import Chatwork
  import GoogleChat
  import Gmail

  /** The outcome of one remote call: its value, or the error it threw. */
  datatype Fetched<T> = Fetched(value: T) | FetchFailed(reason: string)

  /** A Chatwork room and the answer to fetching its messages. */
  datatype RoomFetch = RoomFetch(room: Chatwork.Room, messages: Fetched<seq<Chatwork.Message>>)

  /** A Google Chat space and the answer to fetching its messages. */
  datatype SpaceFetch = SpaceFetch(space: GoogleChat.Space, messages: Fetched<seq<GoogleChat.Message>>)

  /** What the three services answer for a connection's token: the room
      (space) list with each room's (space's) messages, and the Gmail
      message list with each message's details. */
  datatype Remote = Remote(
    chatworkRooms: Fetched<seq<RoomFetch>>,
    googleChatSpaces: Fetched<seq<SpaceFetch>>,
    gmailMessages: Fetched<seq<Fetched<Gmail.Message>>>)

  /** The errors `syncMessages` throws. */
  datatype SyncError =
    | ConnectionNotFound
    | ConnectionInactive
    | UnsupportedServiceType(serviceType: string)
    | RemoteFailure(reason: string)
    | UndecodableBody(gmailMessageId: string)

  /** At most this many rooms (spaces) are read per sync. */
  const MaxRooms: nat := 5
  /** Gmail bodies are stored cut to this many characters. */
  const GmailBodyLimit: nat := 1000

  /** A record as every normaliser leaves it: tied to the connection,
      of the given type, not yet converted and without a task. */
  predicate FreshFrom(m: ExternalMessage, conn: Connection, messageType: string) {
    && m.connectionId == conn.id
    && m.messageType == messageType
    && !m.isConvertedToTask
    && m.taskId == None
  }

  // ---------------------------------------------------------------- Chatwork

  function NormalizeChatwork(conn: Connection, room: Chatwork.Room, msg: Chatwork.Message, now: string): (r: ExternalMessage)
    ensures FreshFrom(r, conn, "chatwork")
    ensures r.externalMessageId == msg.messageId && r.id == "msg_chatwork_" + r.externalMessageId
    ensures r.senderName == msg.accountName && r.body == msg.body
    ensures r.senderEmail == None && r.subject == None && r.labels == []
    ensures r.roomId == Some(IntToString(room.roomId)) && r.roomName == Some(room.name)
  {
    var externalId := msg.messageId;
    ExternalMessage(
      "msg_chatwork_" + externalId, conn.id, externalId, "chatwork",
      msg.accountName, None, None, msg.body,
      Some(IntToString(room.roomId)), Some(room.name), [],
      false, None, UnixSeconds(msg.sendTime), now, now)
  }

  /** One room's records; a room whose fetch failed gives none. */
  function RoomRecords(conn: Connection, rf: RoomFetch, now: string): (r: seq<ExternalMessage>)
    ensures rf.messages.FetchFailed? ==> r == []
    ensures rf.messages.Fetched? ==> (|r| == |rf.messages.value|
      && forall i :: 0 <= i < |r| ==> r[i] == NormalizeChatwork(conn, rf.room, rf.messages.value[i], now))
  {
    match rf.messages
    case FetchFailed(_) => []
    case Fetched(msgs) => seq(|msgs|, i requires 0 <= i < |msgs| => NormalizeChatwork(conn, rf.room, msgs[i], now))
  }

  /** The records gathered from the given rooms, room by room. */
  function ChatworkRecords(conn: Connection, rooms: seq<RoomFetch>, now: string): seq<ExternalMessage> {
    FlatMap(rooms, (rf: RoomFetch) => RoomRecords(conn, rf, now))
  }

  /** Gathering one more room appends that room's records. */
  lemma ChatworkRecordsStep(conn: Connection, rooms: seq<RoomFetch>, i: nat, now: string)
    requires i < |rooms|
    ensures ChatworkRecords(conn, rooms[..i + 1], now) == ChatworkRecords(conn, rooms[..i], now) + RoomRecords(conn, rooms[i], now)
  {
    assert rooms[..i + 1][..i] == rooms[..i];
  }

  /** Every gathered Chatwork record is fresh and comes from a room whose
      fetch succeeded. */
  lemma ChatworkRecordsFresh(conn: Connection, rooms: seq<RoomFetch>, now: string)
    ensures forall m :: m in ChatworkRecords(conn, rooms, now) ==>
      FreshFrom(m, conn, "chatwork")
      && exists i :: 0 <= i < |rooms| && rooms[i].messages.Fetched? && m in RoomRecords(conn, rooms[i], now)
  {
  }

  /** A room whose fetch fails is skipped: the others are gathered as if
      it were not there. */
  lemma FailedRoomSkipped(conn: Connection, rooms: seq<RoomFetch>, k: nat, now: string)
    requires k < |rooms| && rooms[k].messages.FetchFailed?
    ensures ChatworkRecords(conn, rooms, now) == ChatworkRecords(conn, rooms[..k] + rooms[k + 1..], now)
  {
    var f := (rf: RoomFetch) => RoomRecords(conn, rf, now);
    assert rooms == rooms[..k] + ([rooms[k]] + rooms[k + 1..]);
    FlatMapAppend(rooms[..k], [rooms[k]] + rooms[k + 1..], f);
    FlatMapAppend([rooms[k]], rooms[k + 1..], f);
    FlatMapAppend(rooms[..k], rooms[k + 1..], f);
    assert FlatMap([rooms[k]], f) == FlatMap([], f) + f(rooms[k]);
  }

  // ------------------------------------------------------------- Google Chat

  /** `msg.name?.split('/').pop() || Date.now().toString()`. */
  function GoogleChatId(msg: GoogleChat.Message, nowMillis: string): (r: string)
    ensures GoogleChat.NameSegment(msg) != "" ==> r == GoogleChat.NameSegment(msg)
    ensures GoogleChat.NameSegment(msg) == "" ==> r == nowMillis
  {
    var segment := GoogleChat.NameSegment(msg);
    if segment != "" then segment else nowMillis
  }

  function NormalizeGoogleChat(conn: Connection, space: GoogleChat.Space, msg: GoogleChat.Message,
                               nowMillis: string, now: string): (r: ExternalMessage)
    ensures FreshFrom(r, conn, "google_chat")
    ensures r.externalMessageId == GoogleChatId(msg, nowMillis) && r.id == "msg_gchat_" + r.externalMessageId
    ensures r.senderName == GoogleChat.SenderName(msg) && r.body == GoogleChat.MessageText(msg)
    ensures r.senderEmail == (if msg.senderEmail != "" then Some(msg.senderEmail) else None)
    ensures r.subject == None && r.labels == []
    ensures r.roomId == Some(space.name) && r.roomName == Some(space.displayName)
    ensures r.receivedAt == Iso(if msg.createTime != "" then msg.createTime else now)
  {
    var externalId := GoogleChatId(msg, nowMillis);
    ExternalMessage(
      "msg_gchat_" + externalId, conn.id, externalId, "google_chat",
      GoogleChat.SenderName(msg),
      if msg.senderEmail != "" then Some(msg.senderEmail) else None,
      None, GoogleChat.MessageText(msg),
      Some(space.name), Some(space.displayName), [],
      false, None, Iso(if msg.createTime != "" then msg.createTime else now), now, now)
  }

  function SpaceRecords(conn: Connection, sf: SpaceFetch, nowMillis: string, now: string): (r: seq<ExternalMessage>)
    ensures sf.messages.FetchFailed? ==> r == []
    ensures sf.messages.Fetched? ==> (|r| == |sf.messages.value|
      && forall i :: 0 <= i < |r| ==> r[i] == NormalizeGoogleChat(conn, sf.space, sf.messages.value[i], nowMillis, now))
  {
    match sf.messages
    case FetchFailed(_) => []
    case Fetched(msgs) => seq(|msgs|, i requires 0 <= i < |msgs| => NormalizeGoogleChat(conn, sf.space, msgs[i], nowMillis, now))
  }

  function GoogleChatRecords(conn: Connection, spaces: seq<SpaceFetch>, nowMillis: string, now: string): seq<ExternalMessage> {
    FlatMap(spaces, (sf: SpaceFetch) => SpaceRecords(conn, sf, nowMillis, now))
  }

  /** Gathering one more space appends that space's records. */
  lemma GoogleChatRecordsStep(conn: Connection, spaces: seq<SpaceFetch>, i: nat, nowMillis: string, now: string)
    requires i < |spaces|
    ensures GoogleChatRecords(conn, spaces[..i + 1], nowMillis, now)
      == GoogleChatRecords(conn, spaces[..i], nowMillis, now) + SpaceRecords(conn, spaces[i], nowMillis, now)
  {
    assert spaces[..i + 1][..i] == spaces[..i];
  }

  lemma FailedSpaceSkipped(conn: Connection, spaces: seq<SpaceFetch>, k: nat, nowMillis: string, now: string)
    requires k < |spaces| && spaces[k].messages.FetchFailed?
    ensures GoogleChatRecords(conn, spaces, nowMillis, now) == GoogleChatRecords(conn, spaces[..k] + spaces[k + 1..], nowMillis, now)
  {
    var f := (sf: SpaceFetch) => SpaceRecords(conn, sf, nowMillis, now);
    assert spaces == spaces[..k] + ([spaces[k]] + spaces[k + 1..]);
    FlatMapAppend(spaces[..k], [spaces[k]] + spaces[k + 1..], f);
    FlatMapAppend([spaces[k]], spaces[k + 1..], f);
    FlatMapAppend(spaces[..k], spaces[k + 1..], f);
    assert FlatMap([spaces[k]], f) == FlatMap([], f) + f(spaces[k]);
  }

  // ------------------------------------------------------------------- Gmail

  predicate IsLineTerminator(c: char) {
    c == '\n' || c == '\r' || c == '\U{2028}' || c == '\U{2029}'
  }

  /** The first line terminator at or after `k`, or the end. */
  function LineEnd(s: string, k: nat): (r: nat)
    requires k <= |s|
    ensures k <= r <= |s| && (r == |s| || IsLineTerminator(s[r]))
    ensures forall t :: k <= t < r ==> !IsLineTerminator(s[t])
    decreases |s| - k
  {
    if k == |s| || IsLineTerminator(s[k]) then k else LineEnd(s, k + 1)
  }

  /** The last `>` in `s[lo..hi]`, or -1. */
  function LastClose(s: string, lo: nat, hi: nat): (r: int)
    requires lo <= hi <= |s|
    ensures r == -1 || (lo <= r < hi && s[r] == '>')
    ensures r == -1 ==> forall t :: lo <= t < hi ==> s[t] != '>'
    ensures r != -1 ==> forall t :: r < t < hi ==> s[t] != '>'
    decreases hi - lo
  {
    if hi == lo then -1 else if s[hi - 1] == '>' then hi - 1 else LastClose(s, lo, hi - 1)
  }

  /** The group of `s.match(/<(.+)>/)` searched from index `i`: from the
      first `<` that is followed, on the same line, by at least one
      character and a `>`, up to the last such `>` (the `+` is greedy and
      `.` stops at line terminators). */
  function AngleGroup(s: string, i: nat): (r: Option<string>)
    ensures r.Some? ==> r.value != [] && exists j :: (i <= j && j + |r.value| + 1 < |s|
      && s[j] == '<' && s[j + 1..j + 1 + |r.value|] == r.value && s[j + 1 + |r.value|] == '>')
    ensures r.Some? ==> forall t :: 0 <= t < |r.value| ==> !IsLineTerminator(r.value[t])
    decreases |s| - i
  {
    if i >= |s| then None
    else
      var e := LineEnd(s, i + 1);
      if s[i] == '<' && e >= i + 2 && LastClose(s, i + 2, e) != -1 then
        var j := LastClose(s, i + 2, e);
        Some(s[i + 1..j])
      else AngleGroup(s, i + 1)
  }

  /** `from.split('<')[0].trim()`. */
  function GmailSenderName(from: string): string {
    Trim(Before(from, '<'))
  }

  /** `from.match(/<(.+)>/)?.[1] || from`. */
  function GmailSenderEmail(from: string): (r: string)
    ensures AngleGroup(from, 0).Some? ==> r == AngleGroup(from, 0).value
    ensures AngleGroup(from, 0).None? ==> r == from
  {
    match AngleGroup(from, 0)
    case Some(address) => address
    case None => from
  }

  lemma AngleGroupSkips(s: string, i: nat, k: nat)
    requires i <= k <= |s|
    requires forall t :: i <= t < k ==> s[t] != '<'
    ensures AngleGroup(s, i) == AngleGroup(s, k)
  {
    forall x: nat | i <= x < k
      ensures AngleGroup(s, x) == AngleGroup(s, x + 1)
    {
      AngleGroupStep(s, x);
    }
    ConstantRun((x: nat) => AngleGroup(s, x), i, k);
  }

  /** A character other than `<` starts no group. */
  lemma AngleGroupStep(s: string, i: nat)
    requires i < |s| && s[i] != '<'
    ensures AngleGroup(s, i) == AngleGroup(s, i + 1)
  {
  }

  lemma {:induction false} LineEndAtEnd(s: string, k: nat)
    requires k <= |s|
    requires forall t :: k <= t < |s| ==> !IsLineTerminator(s[t])
    ensures LineEnd(s, k) == |s|
    decreases |s| - k
  {
    if k < |s| {
      LineEndAtEnd(s, k + 1);
    }
  }

  /** The text before the first `<` of `name + rest`, when `rest` starts
      with it, is `name`. */
  lemma BeforeAngle(name: string, rest: string)
    requires '<' !in name && |rest| > 0 && rest[0] == '<'
    ensures Before(name + rest, '<') == name
  {
    assert (name + rest)[|name|] == '<';
  }

  /** A `<` followed to the end of the string by one line ending in `>`
      opens the group, which runs to that final `>`. */
  lemma AngleGroupToEnd(s: string, j: nat)
    requires j + 2 < |s| && s[j] == '<' && s[|s| - 1] == '>'
    requires forall t :: j + 1 <= t < |s| ==> !IsLineTerminator(s[t])
    ensures AngleGroup(s, j) == Some(s[j + 1..|s| - 1])
  {
    LineEndAtEnd(s, j + 1);
  }

  /** For a From value of the usual `Name <address>` shape, the sender
      name is the trimmed display name and the email is the address (the
      match is greedy, so the address may itself hold a `>`). */
  lemma DisplayNameAndAddress(name: string, address: string)
    requires '<' !in name
    requires address != []
    requires forall t :: 0 <= t < |address| ==> !IsLineTerminator(address[t])
    ensures GmailSenderName(name + "<" + address + ">") == Trim(name)
    ensures GmailSenderEmail(name + "<" + address + ">") == address
  {
    var tail := "<" + address + ">";
    assert name + "<" + address + ">" == name + tail;
    BeforeAngle(name, tail);
    AngleGroupOfShape(name, address);
  }

  /** The group of `name<address>` is the address. */
  lemma AngleGroupOfShape(name: string, address: string)
    requires '<' !in name
    requires address != []
    requires forall t :: 0 <= t < |address| ==> !IsLineTerminator(address[t])
    ensures AngleGroup(name + "<" + address + ">", 0) == Some(address)
  {
    ShapeLayout(name, address);
    AngleGroupAfter(name + "<" + address + ">", |name|, address);
  }

  /** Where the parts of `name<address>` sit. */
  lemma ShapeLayout(name: string, address: string)
    requires '<' !in name
    requires forall t :: 0 <= t < |address| ==> !IsLineTerminator(address[t])
    ensures var s := name + "<" + address + ">";
      && |s| == |name| + |address| + 2
      && (forall t :: 0 <= t < |name| ==> s[t] != '<')
      && s[|name|] == '<' && s[|s| - 1] == '>'
      && s[|name| + 1..|s| - 1] == address
      && forall t :: |name| + 1 <= t < |s| ==> !IsLineTerminator(s[t])
  {
    var s := name + "<" + address + ">";
    assert forall t :: 0 <= t < |name| ==> s[t] == name[t];
    assert forall t :: |name| + 1 <= t < |s| - 1 ==> s[t] == address[t - |name| - 1];
    assert s[|name| + 1..|s| - 1] == address;
  }

  /** A string with no `<` before index `n`, a `<` there, and one line
      running to a final `>` has the text between them as its group. */
  lemma AngleGroupAfter(s: string, n: nat, address: string)
    requires |s| == n + |address| + 2 && address != []
    requires forall t :: 0 <= t < n ==> s[t] != '<'
    requires s[n] == '<' && s[|s| - 1] == '>'
    requires s[n + 1..|s| - 1] == address
    requires forall t :: n + 1 <= t < |s| ==> !IsLineTerminator(s[t])
    ensures AngleGroup(s, 0) == Some(address)
  {
    AngleGroupSkips(s, 0, n);
    AngleGroupToEnd(s, n);
  }

  /** A Gmail message as a record, or the error `getBody` throws. */
  function NormalizeGmail(conn: Connection, msg: Gmail.Message, now: string): (r: Result<ExternalMessage, SyncError>)
    ensures Gmail.GetBody(msg).None? <==> r.Err?
    ensures r.Err? ==> r.error == UndecodableBody(msg.id)
    ensures r.Ok? ==> var m := r.value;
      && FreshFrom(m, conn, "gmail")
      && m.externalMessageId == msg.id && m.id == "msg_gmail_" + msg.id
      && m.subject == Some(Gmail.GetHeader(msg, "Subject"))
      && m.senderName == GmailSenderName(Gmail.GetHeader(msg, "From"))
      && m.senderEmail == Some(GmailSenderEmail(Gmail.GetHeader(msg, "From")))
      && m.body == FirstN(Gmail.GetBody(msg).value, GmailBodyLimit)
      && m.roomId == None && m.roomName == None && m.labels == msg.labelIds
  {
    match Gmail.GetBody(msg)
    case None => Err(UndecodableBody(msg.id))
    case Some(body) =>
      var from := Gmail.GetHeader(msg, "From");
      Ok(ExternalMessage(
        "msg_gmail_" + msg.id, conn.id, msg.id, "gmail",
        GmailSenderName(from), Some(GmailSenderEmail(from)),
        Some(Gmail.GetHeader(msg, "Subject")), FirstN(body, GmailBodyLimit),
        None, None, msg.labelIds,
        false, None, UnixMillisText(msg.internalDate), now, now))
  }

  /** `getMessagesDetails`: the messages whose detail fetch succeeded, in order. */
  function FetchedDetails(details: seq<Fetched<Gmail.Message>>): (r: seq<Gmail.Message>)
    ensures |r| <= |details|
    ensures forall m :: m in r ==> Fetched(m) in details
  {
    Collect(details, (d: Fetched<Gmail.Message>) => if d.Fetched? then Some(d.value) else None)
  }

  /** `messages.map(...)`: every message normalised, or the error of the
      first message whose body cannot be decoded. */
  function GmailRecords(conn: Connection, msgs: seq<Gmail.Message>, now: string): (r: Result<seq<ExternalMessage>, SyncError>)
  {
    MapAll(msgs, (msg: Gmail.Message) => NormalizeGmail(conn, msg, now))
  }

  /** The Gmail step fails exactly when some fetched body cannot be
      decoded, naming the first such message; otherwise it yields one
      record per message, in order. */
  lemma GmailRecordsOutcome(conn: Connection, msgs: seq<Gmail.Message>, now: string)
    ensures GmailRecords(conn, msgs, now).Ok? <==> forall i :: 0 <= i < |msgs| ==> Gmail.GetBody(msgs[i]).Some?
    ensures GmailRecords(conn, msgs, now).Ok? ==> var r := GmailRecords(conn, msgs, now).value;
      |r| == |msgs| && forall i :: 0 <= i < |msgs| ==> NormalizeGmail(conn, msgs[i], now) == Ok(r[i])
    ensures GmailRecords(conn, msgs, now).Err? ==> exists i :: (0 <= i < |msgs|
      && GmailRecords(conn, msgs, now).error == UndecodableBody(msgs[i].id)
      && Gmail.GetBody(msgs[i]).None?
      && forall j :: 0 <= j < i ==> Gmail.GetBody(msgs[j]).Some?)
  {
    var normalize := (msg: Gmail.Message) => NormalizeGmail(conn, msg, now);
    var r := MapAll(msgs, normalize);
    assert forall i :: 0 <= i < |msgs| ==> (normalize(msgs[i]).Ok? <==> Gmail.GetBody(msgs[i]).Some?);
    if r.Err? {
      var i :| 0 <= i < |msgs| && normalize(msgs[i]) == Err(r.error)
        && forall j :: 0 <= j < i ==> normalize(msgs[j]).Ok?;
      assert r.error == UndecodableBody(msgs[i].id);
    }
  }

  // -------------------------------------------------------------- dispatch

  const SupportedServiceTypes := {"chatwork", "google_chat", "gmail"}

  /** The records one sync of `conn` gathers before merging, or the error
      it throws: the switch on `service_type` in `syncMessages`. */
  function Gathered(conn: Connection, remote: Remote, nowMillis: string, now: string): (r: Result<seq<ExternalMessage>, SyncError>)
    ensures conn.serviceType !in SupportedServiceTypes ==> r == Err(UnsupportedServiceType(conn.serviceType))
    ensures r.Ok? ==> forall m :: m in r.value ==> FreshFrom(m, conn, m.messageType) && m.messageType == conn.serviceType
  {
    match conn.serviceType
    case "chatwork" =>
      (match remote.chatworkRooms
       case FetchFailed(reason) => Err(RemoteFailure(reason))
       case Fetched(rooms) =>
         ChatworkRecordsFresh(conn, FirstN(rooms, MaxRooms), now);
         Ok(ChatworkRecords(conn, FirstN(rooms, MaxRooms), now)))
    case "google_chat" =>
      (match remote.googleChatSpaces
       case FetchFailed(reason) => Err(RemoteFailure(reason))
       case Fetched(spaces) =>
         GoogleChatRecordsFresh(conn, FirstN(spaces, MaxRooms), nowMillis, now);
         Ok(GoogleChatRecords(conn, FirstN(spaces, MaxRooms), nowMillis, now)))
    case "gmail" =>
      (match remote.gmailMessages
       case FetchFailed(reason) => Err(RemoteFailure(reason))
       case Fetched(details) => GmailRecords(conn, FetchedDetails(details), now))
    case _ => Err(UnsupportedServiceType(conn.serviceType))
  }

  lemma GoogleChatRecordsFresh(conn: Connection, spaces: seq<SpaceFetch>, nowMillis: string, now: string)
    ensures forall m :: m in GoogleChatRecords(conn, spaces, nowMillis, now) ==> FreshFrom(m, conn, "google_chat")
  {
  }

  // ----------------------------------------------------------------- merge

  /** Some stored record carries this external message id. */
  predicate Known(existing: seq<ExternalMessage>, externalId: string) {
    exists k :: 0 <= k < |existing| && existing[k].externalMessageId == externalId
  }

  /** `allMessages.filter(msg => !existingMessages.some(em =>
      em.external_message_id === msg.external_message_id))`. The test is
      on the external id alone, whatever the message type. */
  function NewMessages(existing: seq<ExternalMessage>, batch: seq<ExternalMessage>): (r: seq<ExternalMessage>)
    ensures forall m :: m in r ==> m in batch && !Known(existing, m.externalMessageId)
    ensures forall m :: m in batch && !Known(existing, m.externalMessageId) ==> m in r
    ensures SubsequenceOf(r, batch)
  {
    Filter(batch, (m: ExternalMessage) => !Known(existing, m.externalMessageId))
  }

  /** After the new records are appended, merging the same batch again
      finds nothing new. */
  lemma SecondMergeIsEmpty(existing: seq<ExternalMessage>, batch: seq<ExternalMessage>)
    ensures NewMessages(existing + NewMessages(existing, batch), batch) == []
  {
    var added := NewMessages(existing, batch);
    var stored := existing + added;
    forall m | m in batch
      ensures Known(stored, m.externalMessageId)
    {
      if Known(existing, m.externalMessageId) {
        var k :| 0 <= k < |existing| && existing[k].externalMessageId == m.externalMessageId;
        assert stored[k] == existing[k];
      } else {
        assert m in added;
        var k :| 0 <= k < |added| && added[k] == m;
        assert stored[|existing| + k] == m;
      }
    }
  }

  /** Against an empty store every gathered record is new. */
  lemma EmptyStoreKeepsAll(batch: seq<ExternalMessage>)
    ensures NewMessages([], batch) == batch
  {
  }
}
