/** The three kinds of record the external-sync service keeps under its
    storage key: connections, sync rules and normalised external messages
    (src/services/external/externalSyncService.js). Absent optional
    strings are `None` where the source stores `null`, and "" where the
    source only ever tests them for truthiness. */
module SyncRecords {
  import opened Wrappers
  import opened Tasks

  /** An account on one of the external services. */
  datatype Connection = Connection(
    id: string,
    serviceType: string,            // "chatwork" | "google_chat" | "gmail" | anything else
    serviceName: string,
    accountEmail: string,
    apiToken: string,
    isActive: bool,
    autoSyncEnabled: bool,
    syncIntervalMinutes: int,
    lastSyncAt: Option<string>,
    createdAt: string,
    updatedAt: string)

  /** The keys an object spread `{...c, ...patch}` may override: `None`
      for a key the patch object does not carry. */
  datatype ConnectionPatch = ConnectionPatch(
    id: Option<string>,
    serviceType: Option<string>,
    serviceName: Option<string>,
    accountEmail: Option<string>,
    apiToken: Option<string>,
    isActive: Option<bool>,
    autoSyncEnabled: Option<bool>,
    syncIntervalMinutes: Option<int>,
    lastSyncAt: Option<Option<string>>,
    createdAt: Option<string>,
    updatedAt: Option<string>)

  const NoConnectionChanges := ConnectionPatch(None, None, None, None, None, None, None, None, None, None, None)

  /** One key of a spread: the patch's value when it carries the key. */
  function Override<T>(current: T, patch: Option<T>): (r: T)
    ensures patch.Some? ==> r == patch.value
    ensures patch.None? ==> r == current
  {
    if patch.Some? then patch.value else current
  }

  /** `{...c, ...p}` on connection records. */
  function PatchConnection(c: Connection, p: ConnectionPatch): Connection {
    Connection(
      Override(c.id, p.id),
      Override(c.serviceType, p.serviceType),
      Override(c.serviceName, p.serviceName),
      Override(c.accountEmail, p.accountEmail),
      Override(c.apiToken, p.apiToken),
      Override(c.isActive, p.isActive),
      Override(c.autoSyncEnabled, p.autoSyncEnabled),
      Override(c.syncIntervalMinutes, p.syncIntervalMinutes),
      Override(c.lastSyncAt, p.lastSyncAt),
      Override(c.createdAt, p.createdAt),
      Override(c.updatedAt, p.updatedAt))
  }

  /** Spreading a patch that carries no key changes nothing, and spreading
      the same patch twice is spreading it once. */
  lemma PatchConnectionLaws(c: Connection, p: ConnectionPatch)
    ensures PatchConnection(c, NoConnectionChanges) == c
    ensures PatchConnection(PatchConnection(c, p), p) == PatchConnection(c, p)
  {
  }

  /** A filtering rule that turns matching messages into tasks. */
  datatype SyncRule = SyncRule(
    id: string,
    connectionId: string,
    ruleName: string,
    filterType: string,              // "all" | "keyword" | "sender" | "label" | "room" | anything else
    filterValue: Option<string>,     // None: the key is missing
    defaultPriority: string,         // "" when unset
    defaultAssignee: string,         // "" when unset
    autoCreateTask: bool,
    isActive: bool,
    createdAt: string,
    updatedAt: string)

  datatype SyncRulePatch = SyncRulePatch(
    id: Option<string>,
    connectionId: Option<string>,
    ruleName: Option<string>,
    filterType: Option<string>,
    filterValue: Option<Option<string>>,
    defaultPriority: Option<string>,
    defaultAssignee: Option<string>,
    autoCreateTask: Option<bool>,
    isActive: Option<bool>,
    createdAt: Option<string>,
    updatedAt: Option<string>)

  const NoRuleChanges := SyncRulePatch(None, None, None, None, None, None, None, None, None, None, None)

  /** `{...r, ...p}` on rule records. */
  function PatchRule(r: SyncRule, p: SyncRulePatch): SyncRule {
    SyncRule(
      Override(r.id, p.id),
      Override(r.connectionId, p.connectionId),
      Override(r.ruleName, p.ruleName),
      Override(r.filterType, p.filterType),
      Override(r.filterValue, p.filterValue),
      Override(r.defaultPriority, p.defaultPriority),
      Override(r.defaultAssignee, p.defaultAssignee),
      Override(r.autoCreateTask, p.autoCreateTask),
      Override(r.isActive, p.isActive),
      Override(r.createdAt, p.createdAt),
      Override(r.updatedAt, p.updatedAt))
  }

  lemma PatchRuleLaws(r: SyncRule, p: SyncRulePatch)
    ensures PatchRule(r, NoRuleChanges) == r
    ensures PatchRule(PatchRule(r, p), p) == PatchRule(r, p)
  {
  }

  /** A message fetched from a service, normalised to one shape. */
  datatype ExternalMessage = ExternalMessage(
    id: string,
    connectionId: string,
    externalMessageId: string,
    messageType: string,             // "chatwork" | "google_chat" | "gmail"
    senderName: string,
    senderEmail: Option<string>,
    subject: Option<string>,
    body: string,
    roomId: Option<string>,
    roomName: Option<string>,
    labels: seq<string>,
    isConvertedToTask: bool,
    taskId: Option<string>,
    receivedAt: Timestamp,
    createdAt: string,
    updatedAt: string)

  /** JavaScript truthiness of an optional string. */
  predicate Truthy(s: Option<string>) {
    s.Some? && s.value != ""
  }

  /** `s || ''`. */
  function OrEmpty(s: Option<string>): (r: string)
    ensures Truthy(s) ==> r == s.value
    ensures !Truthy(s) ==> r == ""
  {
    if s.Some? then s.value else ""
  }
}
