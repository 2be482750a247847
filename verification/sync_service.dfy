/** `ExternalSyncService` (src/services/external/externalSyncService.js):
    the one document under the `external_sync_data` key, held as three
    lists, and the operations that read and rewrite it. A missing key or
    list reads as the empty list. Ids and timestamps the source draws from
    the clock are parameters. */
module ExternalSync {
  import opened Wrappers
  import opened Seqs
  import opened Tasks
  import opened SyncRecords
  import opened RuleMatcher
  import opened Conversion
  import opened SyncBatch

  /** `connections.findIndex(c => c.id === id)`. */
  function ConnectionIndex(cs: seq<Connection>, id: string): (r: int)
    ensures -1 <= r < |cs|
    ensures r == -1 <==> forall i :: 0 <= i < |cs| ==> cs[i].id != id
    ensures r >= 0 ==> cs[r].id == id && forall i :: 0 <= i < r ==> cs[i].id != id
  {
    FindIndex(cs, (c: Connection) => c.id == id)
  }

  /** `rules.findIndex(r => r.id === id)`. */
  function RuleIndex(rs: seq<SyncRule>, id: string): (r: int)
    ensures -1 <= r < |rs|
    ensures r == -1 <==> forall i :: 0 <= i < |rs| ==> rs[i].id != id
    ensures r >= 0 ==> rs[r].id == id && forall i :: 0 <= i < r ==> rs[i].id != id
  {
    FindIndex(rs, (rule: SyncRule) => rule.id == id)
  }

  /** The record `{ id, ...data }` builds from a connection payload: keys
      the payload lacks are read as their falsy defaults. */
  function BlankConnection(id: string): Connection {
    Connection(id, "", "", "", "", false, false, 0, None, "", "")
  }

  function BlankRule(id: string): SyncRule {
    SyncRule(id, "", "", "", None, "", "", false, false, "", "")
  }

  /** `connections.filter(c => c.id !== id)`. */
  function WithoutConnection(cs: seq<Connection>, id: string): (r: seq<Connection>)
    ensures forall c :: c in r <==> c in cs && c.id != id
    ensures SubsequenceOf(r, cs)
  {
    Filter(cs, (c: Connection) => c.id != id)
  }

  /** `rules.filter(r => r.id !== id)`. */
  function WithoutRule(rs: seq<SyncRule>, id: string): (r: seq<SyncRule>)
    ensures forall rule :: rule in r <==> rule in rs && rule.id != id
    ensures SubsequenceOf(r, rs)
  {
    Filter(rs, (rule: SyncRule) => rule.id != id)
  }

  class SyncStore {
    var connections: seq<Connection>
    var syncRules: seq<SyncRule>
    var externalMessages: seq<ExternalMessage>

    /** A store whose key is not yet set. */
    constructor()
      ensures connections == [] && syncRules == [] && externalMessages == []
    {
      connections := [];
      syncRules := [];
      externalMessages := [];
    }

    /** `saveConnections` writes a document holding only the connections:
        the stored rules and messages are lost. */
    method SaveConnections(cs: seq<Connection>)
      modifies this
      ensures connections == cs
      ensures syncRules == [] && externalMessages == []
    {
      connections := cs;
      syncRules := [];
      externalMessages := [];
    }

    /** `saveSyncRules` replaces the rules and keeps the rest of the document. */
    method SaveSyncRules(rs: seq<SyncRule>)
      modifies this
      ensures syncRules == rs
      ensures connections == old(connections) && externalMessages == old(externalMessages)
    {
      syncRules := rs;
    }

    /** `saveExternalMessages` replaces the messages and keeps the rest. */
    method SaveExternalMessages(ms: seq<ExternalMessage>)
      modifies this
      ensures externalMessages == ms
      ensures connections == old(connections) && syncRules == old(syncRules)
    {
      externalMessages := ms;
    }

    /** `addConnection(data)`: the payload overrides the generated id, and
        the timestamps and `last_sync_at` override the payload. */
    method AddConnection(data: ConnectionPatch, generatedId: string, now: string) returns (c: Connection)
      modifies this
      ensures c == PatchConnection(BlankConnection(generatedId), data).(createdAt := now, updatedAt := now, lastSyncAt := None)
      ensures c.id == data.id.GetOr(generatedId)
      ensures connections == old(connections) + [c]
      ensures syncRules == [] && externalMessages == []
    {
      c := PatchConnection(BlankConnection(generatedId), data).(createdAt := now, updatedAt := now, lastSyncAt := None);
      SaveConnections(connections + [c]);
    }

    /** `updateConnection(id, updates)`. */
    method UpdateConnection(id: string, updates: ConnectionPatch, now: string) returns (r: Result<Connection, string>)
      modifies this
      ensures r.Err? <==> ConnectionIndex(old(connections), id) == -1
      ensures r.Err? ==> r.error == "Connection not found" && unchanged(this)
      ensures r.Ok? ==> var i := ConnectionIndex(old(connections), id);
        && r.value == PatchConnection(old(connections)[i], updates).(updatedAt := now)
        && connections == old(connections)[i := r.value]
        && syncRules == [] && externalMessages == []
    {
      var i := ConnectionIndex(connections, id);
      if i == -1 {
        return Err("Connection not found");
      }
      var updated := PatchConnection(connections[i], updates).(updatedAt := now);
      SaveConnections(connections[i := updated]);
      r := Ok(updated);
    }

    /** `deleteConnection(id)`. */
    method DeleteConnection(id: string)
      modifies this
      ensures connections == WithoutConnection(old(connections), id)
      ensures syncRules == [] && externalMessages == []
    {
      SaveConnections(WithoutConnection(connections, id));
    }

    /** `addSyncRule(data)`. */
    method AddSyncRule(data: SyncRulePatch, generatedId: string, now: string) returns (rule: SyncRule)
      modifies this
      ensures rule == PatchRule(BlankRule(generatedId), data).(createdAt := now, updatedAt := now)
      ensures rule.id == data.id.GetOr(generatedId)
      ensures syncRules == old(syncRules) + [rule]
      ensures connections == old(connections) && externalMessages == old(externalMessages)
    {
      rule := PatchRule(BlankRule(generatedId), data).(createdAt := now, updatedAt := now);
      SaveSyncRules(syncRules + [rule]);
    }

    /** `updateSyncRule(id, updates)`. */
    method UpdateSyncRule(id: string, updates: SyncRulePatch, now: string) returns (r: Result<SyncRule, string>)
      modifies this
      ensures r.Err? <==> RuleIndex(old(syncRules), id) == -1
      ensures r.Err? ==> r.error == "Rule not found" && unchanged(this)
      ensures r.Ok? ==> var i := RuleIndex(old(syncRules), id);
        && r.value == PatchRule(old(syncRules)[i], updates).(updatedAt := now)
        && syncRules == old(syncRules)[i := r.value]
        && connections == old(connections) && externalMessages == old(externalMessages)
    {
      var i := RuleIndex(syncRules, id);
      if i == -1 {
        return Err("Rule not found");
      }
      var updated := PatchRule(syncRules[i], updates).(updatedAt := now);
      SaveSyncRules(syncRules[i := updated]);
      r := Ok(updated);
    }

    /** `deleteSyncRule(id)`. */
    method DeleteSyncRule(id: string)
      modifies this
      ensures syncRules == WithoutRule(old(syncRules), id)
      ensures connections == old(connections) && externalMessages == old(externalMessages)
    {
      SaveSyncRules(WithoutRule(syncRules, id));
    }

    /** The merge that ends each `sync*Messages`: the gathered records
        whose external id is not stored yet are appended, and nothing is
        written when there are none. */
    method MergeNewMessages(gathered: seq<ExternalMessage>) returns (added: seq<ExternalMessage>)
      modifies this
      ensures added == NewMessages(old(externalMessages), gathered)
      ensures externalMessages == old(externalMessages) + added
      ensures connections == old(connections) && syncRules == old(syncRules)
      ensures |added| == 0 ==> unchanged(this)
    {
      var existing := externalMessages;
      added := NewMessages(existing, gathered);
      if |added| > 0 {
        SaveExternalMessages(existing + added);
      }
    }

    /** `syncMessages(connectionId)`: the checks in order, the gathering
        step of the connection's service, the merge, then the
        `last_sync_at` update, whose `saveConnections` drops the rules
        and the messages just merged. */
    method SyncMessages(connectionId: string, remote: Remote, nowMillis: string, now: string)
      returns (r: Result<seq<ExternalMessage>, SyncError>)
      modifies this
      ensures ConnectionIndex(old(connections), connectionId) == -1 ==> r == Err(ConnectionNotFound)
      ensures ConnectionIndex(old(connections), connectionId) >= 0 ==>
        var conn := old(connections)[ConnectionIndex(old(connections), connectionId)];
        && (!conn.isActive ==> r == Err(ConnectionInactive))
        && (conn.isActive ==> r.Err? == Gathered(conn, remote, nowMillis, now).Err?)
        && (conn.isActive && r.Err? ==> r == Err(Gathered(conn, remote, nowMillis, now).error))
        && (r.Ok? ==> r.value == NewMessages(old(externalMessages), Gathered(conn, remote, nowMillis, now).value))
      ensures r.Err? ==> unchanged(this)
      ensures r.Ok? ==> var i := ConnectionIndex(old(connections), connectionId);
        && i >= 0
        && connections == old(connections)[i := old(connections)[i].(lastSyncAt := Some(now), updatedAt := now)]
        && syncRules == [] && externalMessages == []
    {
      var i := ConnectionIndex(connections, connectionId);
      if i == -1 {
        return Err(ConnectionNotFound);
      }
      var conn := connections[i];
      if !conn.isActive {
        return Err(ConnectionInactive);
      }
      var gathered: seq<ExternalMessage>;
      match conn.serviceType {
        case "chatwork" =>
          if remote.chatworkRooms.FetchFailed? {
            return Err(RemoteFailure(remote.chatworkRooms.reason));
          }
          gathered := GatherChatwork(conn, remote.chatworkRooms.value, now);
        case "google_chat" =>
          if remote.googleChatSpaces.FetchFailed? {
            return Err(RemoteFailure(remote.googleChatSpaces.reason));
          }
          gathered := GatherGoogleChat(conn, remote.googleChatSpaces.value, nowMillis, now);
        case "gmail" =>
          if remote.gmailMessages.FetchFailed? {
            return Err(RemoteFailure(remote.gmailMessages.reason));
          }
          var records := GmailRecords(conn, FetchedDetails(remote.gmailMessages.value), now);
          if records.Err? {
            return Err(records.error);
          }
          gathered := records.value;
        case _ =>
          return Err(UnsupportedServiceType(conn.serviceType));
      }
      assert Gathered(conn, remote, nowMillis, now) == Ok(gathered);
      var added := MergeNewMessages(gathered);
      var updated := UpdateConnection(connectionId, NoConnectionChanges.(lastSyncAt := Some(Some(now))), now);
      r := Ok(added);
    }

    /** `convertMessagesToTasks(messages, rules)`: the loop marks the
        caller's messages in place and returns the tasks; the store is
        rewritten with what it already held, so the marks are not saved. */
    method ConvertMessagesToTasks(messages: array<ExternalMessage>, rules: seq<SyncRule>, now: string)
      returns (tasks: seq<Task>)
      modifies this, messages
      ensures tasks == ConvertedTasks(old(messages[..]), rules, now)
      ensures messages[..] == MarkAll(old(messages[..]), rules, now)
      ensures connections == old(connections) && syncRules == old(syncRules)
      ensures externalMessages == old(externalMessages)
    {
      tasks := ConvertAll(messages, rules, now);
      SaveExternalMessages(externalMessages);
    }
  }

  /** The outer loop of `convertMessagesToTasks`: every message in turn,
      its task pushed and the message marked in place. */
  method ConvertAll(messages: array<ExternalMessage>, rules: seq<SyncRule>, now: string)
    returns (tasks: seq<Task>)
    modifies messages
    ensures tasks == ConvertedTasks(old(messages[..]), rules, now)
    ensures messages[..] == MarkAll(old(messages[..]), rules, now)
  {
    ghost var original := messages[..];
    tasks := [];
    var i := 0;
    while i < messages.Length
      invariant 0 <= i <= messages.Length
      invariant tasks == ConvertedTasks(original[..i], rules, now)
      invariant messages[..] == MarkAll(original, rules, now)[..i] + original[i..]
    {
      tasks := ConvertAt(messages, i, rules, now, original, tasks);
      i := i + 1;
    }
    assert original[..messages.Length] == original;
    assert messages[..] == MarkAll(original, rules, now)[..messages.Length] + [];
  }

  /** One turn of the outer loop of `convertMessagesToTasks`: the `i`-th
      message's task, if any, is pushed and that message marked in place. */
  method ConvertAt(messages: array<ExternalMessage>, i: nat, rules: seq<SyncRule>, now: string,
                   ghost original: seq<ExternalMessage>, tasks: seq<Task>) returns (more: seq<Task>)
    requires i < messages.Length == |original|
    requires messages[..] == MarkAll(original, rules, now)[..i] + original[i..]
    requires tasks == ConvertedTasks(original[..i], rules, now)
    modifies messages
    ensures more == ConvertedTasks(original[..i + 1], rules, now)
    ensures messages[..] == MarkAll(original, rules, now)[..i + 1] + original[i + 1..]
  {
    ghost var target := MarkAll(original, rules, now);
    ghost var before := messages[..];
    assert messages[i] == original[i];
    var task := ConvertOne(messages[i], rules, now);
    StepConverted(original, i, rules, now);
    if task.Some? {
      more := tasks + [task.value];
      MarkConverted(messages, i, task.value.id);
    } else {
      more := tasks;
      UpdateSame(before, i);
    }
    assert messages[..] == before[i := target[i]];
    StepPrefix(target, original, i);
  }

  /** `message.is_converted_to_task = true; message.task_id = taskId` on
      the `i`-th message. */
  method MarkConverted(messages: array<ExternalMessage>, i: nat, taskId: string)
    requires i < messages.Length
    modifies messages
    ensures messages[..] == old(messages[..])[i := old(messages[i]).(isConvertedToTask := true, taskId := Some(taskId))]
  {
    messages[i] := messages[i].(isConvertedToTask := true, taskId := Some(taskId));
  }

  /** The body of the outer loop of `convertMessagesToTasks` for one
      message: skip it when converted, else the task of the first
      applicable rule it matches. */
  method ConvertOne(message: ExternalMessage, rules: seq<SyncRule>, now: string) returns (task: Option<Task>)
    ensures task == TaskFor(message, rules, now)
  {
    if message.isConvertedToTask {
      return None;
    }
    var chosen := ChooseRule(message, rules);
    if chosen.Some? {
      task := Some(CreateTaskFromMessage(message, chosen.value, now));
    } else {
      task := None;
    }
  }

  /** The inner loop of `convertMessagesToTasks`: the applicable rules in
      order, stopping at the first the message matches. */
  method ChooseRule(message: ExternalMessage, rules: seq<SyncRule>) returns (chosen: Option<SyncRule>)
    ensures chosen == ChosenRule(message, rules)
  {
    var applicable := ApplicableRules(message, rules);
    var matches := (rule: SyncRule) => MessageMatchesRule(message, rule);
    chosen := None;
    var j := 0;
    while j < |applicable|
      invariant 0 <= j <= |applicable|
      invariant forall k :: 0 <= k < j ==> !matches(applicable[k])
    {
      if matches(applicable[j]) {
        FirstWhereAt(applicable, matches, j);
        chosen := Some(applicable[j]);
        break;
      }
      j := j + 1;
    }
  }

  /** One step of the conversion loop appends the task of the next message. */
  lemma StepConverted(ms: seq<ExternalMessage>, i: nat, rules: seq<SyncRule>, now: string)
    requires i < |ms|
    ensures ConvertedTasks(ms[..i + 1], rules, now) ==
      ConvertedTasks(ms[..i], rules, now) + (match TaskFor(ms[i], rules, now) case None => [] case Some(t) => [t])
  {
    assert ms[..i + 1] == ms[..i] + [ms[i]];
    ConvertedTasksAppend(ms[..i], [ms[i]], rules, now);
    assert [ms[i]][..0] == [];
  }

  /** The room loop of `syncChatworkMessages`: the first `MaxRooms` rooms,
      each room's messages normalised in order, a failed room skipped. */
  method GatherChatwork(conn: Connection, rooms: seq<RoomFetch>, now: string) returns (all: seq<ExternalMessage>)
    ensures all == ChatworkRecords(conn, FirstN(rooms, MaxRooms), now)
  {
    var selected := FirstN(rooms, MaxRooms);
    all := [];
    var i := 0;
    while i < |selected|
      invariant 0 <= i <= |selected|
      invariant all == ChatworkRecords(conn, selected[..i], now)
    {
      var records := GatherRoom(conn, selected[i], now);
      ChatworkRecordsStep(conn, selected, i, now);
      all := all + records;
      i := i + 1;
    }
    assert selected[..i] == selected;
  }

  /** The `forEach` over one room's messages; a failed room adds nothing. */
  method GatherRoom(conn: Connection, room: RoomFetch, now: string) returns (records: seq<ExternalMessage>)
    ensures records == RoomRecords(conn, room, now)
  {
    records := [];
    if room.messages.Fetched? {
      var msgs := room.messages.value;
      var j := 0;
      while j < |msgs|
        invariant 0 <= j <= |msgs| && |records| == j
        invariant forall k :: 0 <= k < j ==> records[k] == NormalizeChatwork(conn, room.room, msgs[k], now)
      {
        records := records + [NormalizeChatwork(conn, room.room, msgs[j], now)];
        j := j + 1;
      }
    }
  }

  /** The space loop of `syncGoogleChatMessages`. */
  method GatherGoogleChat(conn: Connection, spaces: seq<SpaceFetch>, nowMillis: string, now: string)
    returns (all: seq<ExternalMessage>)
    ensures all == GoogleChatRecords(conn, FirstN(spaces, MaxRooms), nowMillis, now)
  {
    var selected := FirstN(spaces, MaxRooms);
    all := [];
    var i := 0;
    while i < |selected|
      invariant 0 <= i <= |selected|
      invariant all == GoogleChatRecords(conn, selected[..i], nowMillis, now)
    {
      all := GatherNextSpace(conn, selected, i, all, nowMillis, now);
      i := i + 1;
    }
    assert selected[..i] == selected;
  }

  /** One turn of the space loop: the next space's records are appended. */
  method GatherNextSpace(conn: Connection, spaces: seq<SpaceFetch>, i: nat, all: seq<ExternalMessage>,
                         nowMillis: string, now: string) returns (more: seq<ExternalMessage>)
    requires i < |spaces| && all == GoogleChatRecords(conn, spaces[..i], nowMillis, now)
    ensures more == GoogleChatRecords(conn, spaces[..i + 1], nowMillis, now)
  {
    var records := GatherSpace(conn, spaces[i], nowMillis, now);
    GoogleChatRecordsStep(conn, spaces, i, nowMillis, now);
    more := all + records;
  }

  /** The `forEach` over one space's messages; a failed space adds nothing. */
  method GatherSpace(conn: Connection, space: SpaceFetch, nowMillis: string, now: string) returns (records: seq<ExternalMessage>)
    ensures records == SpaceRecords(conn, space, nowMillis, now)
  {
    records := [];
    if space.messages.Fetched? {
      records := NormalizeSpaceMessages(conn, space.space, space.messages.value, nowMillis, now);
    }
  }

  /** The body of that `forEach`: each message normalised and pushed in turn. */
  method NormalizeSpaceMessages(conn: Connection, space: GoogleChat.Space, msgs: seq<GoogleChat.Message>,
                                nowMillis: string, now: string) returns (records: seq<ExternalMessage>)
    ensures |records| == |msgs|
    ensures forall k :: 0 <= k < |msgs| ==> records[k] == NormalizeGoogleChat(conn, space, msgs[k], nowMillis, now)
  {
    var normalize := (m: GoogleChat.Message) => NormalizeGoogleChat(conn, space, m, nowMillis, now);
    records := [];
    var j := 0;
    while j < |msgs|
      invariant 0 <= j <= |msgs| && records == Map(msgs[..j], normalize)
    {
      MapStep(msgs, normalize, j);
      records := records + [normalize(msgs[j])];
      j := j + 1;
    }
    assert msgs[..j] == msgs;
  }
}
