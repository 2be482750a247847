# External-message sync and task conversion, modelled in Dafny

This project models the part of the task-management application that
pulls messages from Chatwork, Google Chat and Gmail, stores them in one
local document, and turns them into tasks through user-defined sync rules.
It also models the mock Base44 client that stores those tasks, the two
small page utilities, and the message preview page that persists the
conversion.

The modules follow the program's files:

- `ExternalSync` (sync_service.dfy) is `ExternalSyncService`. The class
  `SyncStore` holds the three collections of the `external_sync_data`
  document (connections, sync rules, external messages). Its methods are
  the create, update and delete operations, `syncMessages` and
  `convertMessagesToTasks`.
- `SyncRecords` holds the three record kinds and object spread on them.
- `SyncBatch` holds the normalise-and-merge steps of the three
  `sync*Messages` methods, as functions over fetched results.
- `RuleMatcher` holds `messageMatchesRule` and `createTaskFromMessage`.
- `Conversion` states what `convertMessagesToTasks` computes, as
  functions over the message list.
- `Chatwork`, `GoogleChat`, `Gmail` and `Base64` hold the static helpers
  of the three adapters. `Base64` is the decoder of `getBody`: section 5
  (URL-safe) of RFC 4648 mapped to section 4, then `atob`.
- `Base44` is the mock client. The class `EntityTable` is one entity
  handler over its storage entry; the class `MockBase44` holds the four
  handlers and `loadInitialData`.
- `PageUtils` holds `createPageUrl` and `cn`.
- `MessagePreview` is the preview page. The class `PreviewPage` holds the
  page's state; its methods are the toggle and the "convert selected"
  action.
- `Text`, `Seqs`, `Tasks` and `Wrappers` are shared definitions: string
  helpers, order-preserving filters and searches, the task record, and
  Option/Result.

Several behaviours are modelled as the code has them, not as one might
expect:

- `saveConnections` writes a document holding only the connections. So
  every connection write (add, update, delete, and the `last_sync_at`
  update that ends a successful sync) empties the stored rules and
  messages (`ExternalSync.SyncStore.SyncMessages`).
- `convertMessagesToTasks` flags its input messages but saves a fresh
  read of the store. Its flags therefore never reach the store
  (`ExternalSync.SyncStore.ConvertMessagesToTasks` leaves
  `externalMessages` as it was).
- A keyword or sender rule whose filter value is the empty string
  matches every message (`RuleMatcher.EmptyKeywordMatchesAll`). A rule
  with no filter value matches nothing unless its type is "all"
  (`RuleMatcher.MatchTable`).
- The preview page flags every selected message as converted, even one
  no rule matched. It links each one to the first task whose id merely
  contains the message's external id. Re-converting messages that are
  already converted drops their task link
  (`MessagePreview.ReconvertDropsLinks`).

## Model

| member | source | states |
|---|---|---|
| ExternalSync.SyncStore.constructor | src/services/external/externalSyncService.js:18-23 | a store without a document reads every collection as empty |
| ExternalSync.SyncStore.SaveConnections | src/services/external/externalSyncService.js:28-31 | the connections become the given list, and the rules and messages are gone |
| ExternalSync.SyncStore.SaveSyncRules | src/services/external/externalSyncService.js:90-94 | only the rules are replaced; connections and messages are kept |
| ExternalSync.SyncStore.SaveExternalMessages | src/services/external/externalSyncService.js:152-156 | only the messages are replaced; connections and rules are kept |
| ExternalSync.SyncStore.AddConnection | src/services/external/externalSyncService.js:36-48 | one record is appended after the existing ones; an id in the payload beats the generated one; created_at, updated_at and a null last_sync_at beat the payload; rules and messages are wiped |
| ExternalSync.ConnectionIndex | src/services/external/externalSyncService.js:55 | the first index with that id, or -1 exactly when no connection has it |
| ExternalSync.SyncStore.UpdateConnection | src/services/external/externalSyncService.js:53-66 | an unknown id gives "Connection not found" and changes nothing; otherwise only that index changes, to the old record overridden by the update and a new updated_at, and rules and messages are wiped |
| ExternalSync.WithoutConnection | src/services/external/externalSyncService.js:73 | keeps exactly the connections with another id, in order |
| ExternalSync.SyncStore.DeleteConnection | src/services/external/externalSyncService.js:71-75 | the connections lose exactly those with that id and keep their order; rules and messages are wiped |
| ExternalSync.SyncStore.AddSyncRule | src/services/external/externalSyncService.js:99-110 | one rule is appended; payload id beats the generated one; timestamps beat the payload; connections and messages are kept |
| ExternalSync.RuleIndex | src/services/external/externalSyncService.js:117 | the first index with that id, or -1 exactly when no rule has it |
| ExternalSync.SyncStore.UpdateSyncRule | src/services/external/externalSyncService.js:115-128 | an unknown id gives "Rule not found" and changes nothing; otherwise only that index changes, to the overridden rule |
| ExternalSync.WithoutRule | src/services/external/externalSyncService.js:135 | keeps exactly the rules with another id, in order |
| ExternalSync.SyncStore.DeleteSyncRule | src/services/external/externalSyncService.js:133-137 | the rules lose exactly those with that id and keep their order; the rest is kept |
| ExternalSync.SyncStore.MergeNewMessages | src/services/external/externalSyncService.js:238-247 | returns the new records and saves existing ++ new, so the stored list is an unchanged prefix; nothing is written when nothing is new |
| ExternalSync.SyncStore.SyncMessages | src/services/external/externalSyncService.js:161-197 | an unknown id, then an inactive connection, then an unsupported type or a failed fetch is an error that changes nothing; on success it returns the new records and stamps last_sync_at, which wipes rules and messages |
| ExternalSync.GatherChatwork | src/services/external/externalSyncService.js:207-235 | the room loop gathers exactly the records of the first five rooms, room by room |
| ExternalSync.GatherGoogleChat | src/services/external/externalSyncService.js:257-286 | the space loop gathers exactly the records of the first five spaces, space by space |
| ExternalSync.GatherRoom | src/services/external/externalSyncService.js:210-234 | one room's records are its messages normalised in order; a room whose fetch failed adds nothing |
| ExternalSync.GatherSpace | src/services/external/externalSyncService.js:260-285 | one space's records are its messages normalised in order; a space whose fetch failed adds nothing |
| ExternalSync.NormalizeSpaceMessages | src/services/external/externalSyncService.js:262-282 | one normalised record per message, at the message's position |
| ExternalSync.SyncStore.ConvertMessagesToTasks | src/services/external/externalSyncService.js:357-386 | returns the tasks `Conversion.ConvertedTasks` names, in message order; in the array it flags and links each message that yielded a task and nothing else; leaves the whole store as it was |
| ExternalSync.ConvertAll | src/services/external/externalSyncService.js:360-380 | the outer loop yields `Conversion.ConvertedTasks` of the messages and leaves the array as `Conversion.MarkAll` of its old contents |
| ExternalSync.ChooseRule | src/services/external/externalSyncService.js:365-379 | the inner loop picks the rule `Conversion.ChosenRule` names |
| ExternalSync.ConvertOne | src/services/external/externalSyncService.js:362-379 | one outer-loop step yields the task `Conversion.TaskFor` names |
| ExternalSync.MarkConverted | src/services/external/externalSyncService.js:375-376 | only the i-th message changes: it is flagged and linked to the task id |
| ExternalSync.StepConverted | src/services/external/externalSyncService.js:360-380 | one more message appends its task, if any, to the tasks so far |
| SyncRecords.Override | src/services/external/externalSyncService.js:58-62 | a key the patch carries wins over the current value; otherwise the value is kept |
| SyncRecords.PatchConnectionLaws | src/services/external/externalSyncService.js:58-62 | an empty patch changes no connection, and spreading a patch twice equals spreading it once |
| SyncRecords.PatchRuleLaws | src/services/external/externalSyncService.js:120-124 | an empty patch changes no rule, and spreading a patch twice equals spreading it once |
| SyncRecords.OrEmpty | src/services/external/externalSyncService.js:398 | an absent or empty string reads as "", any other as itself |
| SyncBatch.NormalizeChatwork | src/services/external/externalSyncService.js:213-230 | the record carries the connection, type "chatwork", id "msg_chatwork_" + message id, the room as room id and name, no email or subject, and is unconverted |
| SyncBatch.RoomRecords | src/services/external/externalSyncService.js:210-234 | a failed room gives no record; a fetched room gives one record per message, in order |
| SyncBatch.ChatworkRecordsFresh | src/services/external/externalSyncService.js:212-230 | every gathered Chatwork record is unconverted, tied to the connection, and comes from a room that was fetched |
| SyncBatch.FailedRoomSkipped | src/services/external/externalSyncService.js:232-234 | a failing room changes nothing about the other rooms' records |
| SyncBatch.GoogleChatId | src/services/external/externalSyncService.js:263 | the last `/` segment of the message name, or the current time in milliseconds when that is empty |
| SyncBatch.NormalizeGoogleChat | src/services/external/externalSyncService.js:263-281 | the record carries type "google_chat", id "msg_gchat_" + segment, the sender name or "Unknown", an email only when present, the text fallbacks and the space as room |
| SyncBatch.SpaceRecords | src/services/external/externalSyncService.js:260-285 | a failed space gives no record; a fetched space gives one record per message, in order |
| SyncBatch.FailedSpaceSkipped | src/services/external/externalSyncService.js:283-285 | a failing space changes nothing about the other spaces' records |
| SyncBatch.GoogleChatRecordsFresh | src/services/external/externalSyncService.js:262-281 | every gathered Google Chat record is unconverted and tied to the connection |
| SyncBatch.AngleGroup | src/services/external/externalSyncService.js:327 | a match of `/<(.+)>/` is a non-empty run without line terminators that stands between a `<` and a `>` of the text |
| SyncBatch.GmailSenderEmail | src/services/external/externalSyncService.js:327 | the regex group when `/<(.+)>/` matches, else the whole From value |
| SyncBatch.DisplayNameAndAddress | src/services/external/externalSyncService.js:326-327 | for `Name <address>` the sender name is the trimmed name and the email is the address |
| SyncBatch.NormalizeGmail | src/services/external/externalSyncService.js:316-338 | an undecodable body is an error; otherwise the record has type "gmail", the Subject, the parsed sender, the body cut to 1000 characters, the labels and no room |
| SyncBatch.FetchedDetails | src/services/external/gmailService.js:119-132 | the messages whose detail fetch succeeded, each one fetched |
| SyncBatch.GmailRecordsOutcome | src/services/external/externalSyncService.js:316-339 | the Gmail step succeeds exactly when every body decodes, with one record per message in order; otherwise it fails on the first undecodable one |
| SyncBatch.Gathered | src/services/external/externalSyncService.js:174-186 | an unsupported service type is an error; every gathered record is fresh and of the connection's type |
| SyncBatch.NewMessages | src/services/external/externalSyncService.js:239-241 | keeps, in order, exactly the gathered records whose external id no stored record has |
| SyncBatch.SecondMergeIsEmpty | src/services/external/externalSyncService.js:238-247 | merging the same batch a second time yields nothing |
| SyncBatch.EmptyStoreKeepsAll | src/services/external/externalSyncService.js:239-241 | against an empty store every gathered record is new |
| RuleMatcher.Terms | src/services/external/externalSyncService.js:397 | one trimmed, optionally lower-cased term per comma-separated part |
| RuleMatcher.RuleTerms | src/services/external/externalSyncService.js:397 | a missing filter value gives no term; a present one at least one |
| RuleMatcher.MatchTable | src/services/external/externalSyncService.js:391-418 | "all" matches everything, an unknown type nothing, "room" exactly an equal room id, and a missing filter value nothing unless the type is "all" |
| RuleMatcher.KeywordMatch | src/services/external/externalSyncService.js:396-399 | a keyword rule matches exactly when some trimmed term occurs in subject + " " + body, ignoring ASCII case |
| RuleMatcher.EmptyKeywordMatchesAll | src/services/external/externalSyncService.js:396-399 | an empty keyword filter matches every message |
| RuleMatcher.EmptySenderMatchesAll | src/services/external/externalSyncService.js:401-406 | an empty sender filter matches every message |
| RuleMatcher.CreateTaskFromMessage | src/services/external/externalSyncService.js:423-447 | id "task_<type>_<external id>"; title from subject, else first line, else "<type>メッセージ"; description with at most 500 body characters; pending, no due date; rule priority or "medium"; rule assignee or the default |
| RuleMatcher.TaskBounds | src/services/external/externalSyncService.js:424-429 | the title is never empty and the description quotes a prefix of at most 500 characters |
| Conversion.ApplicableRules | src/services/external/externalSyncService.js:365-367 | exactly the active rules of the message's connection |
| Conversion.ChosenRule | src/services/external/externalSyncService.js:365-379 | the first applicable rule, in stored order, that the message matches; none exactly when none matches |
| Conversion.TaskFor | src/services/external/externalSyncService.js:360-379 | a converted message yields no task; an unconverted one yields a task exactly when a rule is chosen, with id "task_<type>_<external id>" |
| Conversion.Marked | src/services/external/externalSyncService.js:375-376 | a message that yields a task is flagged and linked to that id; any other is untouched |
| Conversion.MarkAll | src/services/external/externalSyncService.js:360-380 | each message of the list is marked in place, nothing else |
| Conversion.ConvertedTasks | src/services/external/externalSyncService.js:358-385 | at most one task per message |
| Conversion.ConvertedTasksOrigin | src/services/external/externalSyncService.js:369-373 | every returned task is the task of some message of the list |
| Conversion.ConvertedTasksAppend | src/services/external/externalSyncService.js:358-380 | tasks come out in message order |
| Conversion.ConvertedYieldNothing | src/services/external/externalSyncService.js:362 | a list of converted messages yields no task |
| Conversion.MarkedIsFinal | src/services/external/externalSyncService.js:362-376 | a marked message yields no task later and marking it again changes nothing |
| Conversion.SecondRunYieldsNothing | src/services/external/externalSyncService.js:357-386 | converting the marked list again yields nothing and leaves it as it is |
| Conversion.MarkedCarriesTaskId | src/services/external/externalSyncService.js:375-376 | a message that yielded a task is flagged and carries that task's id |
| Gmail.FindHeader | src/services/external/gmailService.js:141 | the value of the first header whose name matches ignoring case; none exactly when no name matches |
| Gmail.GetHeader | src/services/external/gmailService.js:139-143 | that value, or "" when no header matches or there are no headers |
| Gmail.FirstPartData | src/services/external/gmailService.js:159-171 | the data of the first part of the given type that has data |
| Gmail.GetBody | src/services/external/gmailService.js:149-174 | a missing payload throws; the top-level data, else the first text/plain part, else the first text/html part is decoded; with none the body is "" |
| Gmail.PlainBeatsHtml | src/services/external/gmailService.js:158-171 | with no top-level data, any message whose parts include a text/plain part with data decodes that part's data, wherever text/html parts stand |
| Gmail.HtmlOnlyBody | src/services/external/gmailService.js:166-171 | with no top-level data and no text/plain part with data, a message whose first text/html part with data is the base64url text of some bytes yields those bytes as text |
| Gmail.Preview | src/services/external/gmailService.js:191-192 | the first 500 body characters, with "..." exactly when the body is longer |
| Gmail.LabelPriority | src/services/external/gmailService.js:195-199 | "high" exactly when IMPORTANT or STARRED is among the labels, else the default |
| Gmail.ConvertMessageToTask | src/services/external/gmailService.js:181-219 | defined exactly when the body decodes; id "gmail_" + id; Subject or "Gmailメッセージ" as title; description head + preview; label priority; pending, no due date |
| Gmail.FilterKeywordHits | src/services/external/gmailService.js:231-239 | keeps, in order, exactly the messages whose subject or body contains some keyword; throws when some body does not decode |
| Gmail.FilterMessagesByKeywords | src/services/external/gmailService.js:226-240 | no keywords gives the input unchanged; otherwise the filtered subsequence |
| Gmail.FilterMessagesBySender | src/services/external/gmailService.js:247-256 | no addresses gives the input; otherwise exactly the messages whose From contains one, ignoring case, in order |
| Gmail.FilterMessagesByLabels | src/services/external/gmailService.js:263-272 | no labels gives the input; otherwise exactly the messages carrying one of them, in order |
| Base64.UrlToStandard | src/services/external/gmailService.js:154 | `-` becomes `+`, `_` becomes `/`, every other character stays |
| Base64.DecodeUrl | src/services/external/gmailService.js:154 | defined exactly when `atob` accepts the mapped text |
| Base64.Latin1 | src/services/external/gmailService.js:154 | one character per decoded byte, with that code |
| Base64.DecodeEncode | src/services/external/gmailService.js:154 | standard decoding undoes standard encoding |
| Base64.UrlToStandardOfEncodeUrl | src/services/external/gmailService.js:154 | mapping base64url text to the standard alphabet gives the standard encoding |
| Base64.DecodeUrlEncodeUrl | src/services/external/gmailService.js:154 | the body decoder returns the bytes whose base64url text it was given |
| GoogleChat.MessageText | src/services/external/googleChatService.js:105 | the text, else the argument text |
| GoogleChat.SenderName | src/services/external/googleChatService.js:107 | the display name, else "Unknown"; never empty |
| GoogleChat.NameSegment | src/services/external/googleChatService.js:112 | holds no `/`, and is "" without a name; that it is the text after the last `/` is the contract of `Text.AfterLast` |
| Text.AfterLast | src/services/external/googleChatService.js:112 | a suffix of the input holding no separator that is the whole input or follows a separator |
| GoogleChat.ConvertMessageToTask | src/services/external/googleChatService.js:104-128 | id "gchat_" + segment (or the time); first line of the text or "Google Chatメッセージ"; the description; pending, no due date, the priority |
| GoogleChat.FilterMessagesByKeywords | src/services/external/googleChatService.js:135-144 | no keywords gives the input; otherwise exactly the messages whose text contains one ignoring case, in order |
| GoogleChat.FilterMessagesBySender | src/services/external/googleChatService.js:151-160 | no addresses gives the input; otherwise exactly the messages whose email equals one, in order |
| Chatwork.ConvertMessageToTask | src/services/external/chatworkService.js:125-146 | id "chatwork_" + message id; the first line of the body, at most 100 characters; the exact description; pending, no due date, the priority; the source record |
| Chatwork.FilterMessagesByKeywords | src/services/external/chatworkService.js:153-162 | no keywords gives the input; otherwise exactly the messages whose body contains one ignoring case, in order |
| Tasks.FirstLine | src/services/external/chatworkService.js:126 | a prefix of the text without a newline, cut only at the limit, a newline or the end |
| Base44.GetFromStorage | src/api/base44Client.js:84-92 | a missing or unparsable entry reads as the empty list |
| Base44.NewItem | src/api/base44Client.js:46-51 | the data's keys plus id and the two timestamps; an id in the data beats the generated one; the timestamps beat the data |
| Base44.MergedItem | src/api/base44Client.js:65-69 | the data's fields override the item's, and updated_at overrides both |
| Base44.Insert | src/api/base44Client.js:26-33 | the result holds the sorted items plus the new one |
| Base44.InsertWhere | src/api/base44Client.js:26-33 | placing an item among sorted ones yields a permutation of them plus the item, one longer |
| Base44.SortBy | src/api/base44Client.js:26-33 | the sort returns a permutation of the items |
| Base44.PrecedesTransitive | src/api/base44Client.js:26-33 | on a field of strings or of numbers the comparator is transitive |
| Base44.SortByOrdered | src/api/base44Client.js:26-33 | on such a field the sorted list is in comparator order |
| Base44.Listed | src/api/base44Client.js:18-37 | no sort key gives storage order; any sort gives a permutation |
| Base44.ListedOrdered | src/api/base44Client.js:22-33 | "field" sorts ascending and "-field" descending by that field |
| Base44.EntityTable.List | src/api/base44Client.js:18-37 | returns the listed items and does not write |
| Base44.EntityTable.Get | src/api/base44Client.js:39-42 | the first item with that id, or none exactly when no item has it |
| Base44.EntityTable.Create | src/api/base44Client.js:44-55 | exactly one new item is appended after the others |
| Base44.EntityTable.Update | src/api/base44Client.js:57-73 | a missing id gives "Item with id … not found" and changes nothing; otherwise only the first item with that id changes, to the merged item |
| Base44.EntityTable.Delete | src/api/base44Client.js:75-80 | exactly the items with that id are removed, the rest keep their order, and it always reports success |
| Base44.MockBase44.constructor | src/api/base44Client.js:7-14 | four handlers on the keys tasks, templates, googleAccounts and googleCalendars |
| Base44.SampleTasks | src/api/base44Client.js:110-148 | three sample tasks |
| Base44.MockBase44.LoadInitialData | src/api/base44Client.js:107-152 | adds the three sample tasks exactly when the task list reads as empty, otherwise writes nothing |
| Base44.CreateEach | src/api/base44Client.js:149-151 | the table gains exactly the new items, one per input and in input order, with the ids given |
| PageUtils.CreatePageUrl | src/utils/index.js:4-10 | starts with "/", holds no upper-case ASCII letter, and is one hyphen longer per lower/upper boundary |
| PageUtils.InsertHyphensAtBoundaries | src/utils/index.js:7 | the replacement puts a hyphen at every lower/upper boundary and nowhere else |
| PageUtils.InsertHyphensLength | src/utils/index.js:7 | one hyphen per boundary |
| PageUtils.CamelPair | src/utils/index.js:6-9 | two camel-case words give "/first-second", as "KanbanBoard" gives "/kanban-board" |
| PageUtils.CnDropsFalsy | src/utils/index.js:15-17 | falsy arguments alone give "" |
| PageUtils.CnLength | src/utils/index.js:16 | n non-empty strings give their total length plus n - 1 |
| PageUtils.CnJoinsTruthy | src/utils/index.js:15-17 | for any mix of arguments, the rendered truthy ones joined by single spaces in order, so a falsy argument adds no separator |
| MessagePreview.FilteredMessages | src/Pages/MessagePreview.jsx:28-33 | "converted" keeps exactly the converted messages, "unconverted" exactly the others, and any other filter all, in order |
| MessagePreview.CountsAddUp | src/Pages/MessagePreview.jsx:130-138 | the unconverted and converted counts add up to the number of messages |
| MessagePreview.Toggle | src/Pages/MessagePreview.jsx:35-43 | the id changes side and every other id stays |
| MessagePreview.ToggleTwice | src/Pages/MessagePreview.jsx:35-43 | toggling twice restores the selection |
| MessagePreview.SelectedMessages | src/Pages/MessagePreview.jsx:46-48 | exactly the selected messages, in order |
| MessagePreview.TaskIdFor | src/Pages/MessagePreview.jsx:68 | the id of the first task whose id contains the external id; none exactly when no task's id does |
| MessagePreview.MarkSelected | src/Pages/MessagePreview.jsx:63-72 | same length and order; unselected messages unchanged; selected ones flagged and linked by `TaskIdFor` |
| MessagePreview.SelectedAllMarked | src/Pages/MessagePreview.jsx:63-72 | every selected message is flagged, even one that produced no task, and ids are kept |
| MessagePreview.OwnTaskFound | src/Pages/MessagePreview.jsx:68 | when a message's own task is among the tasks, the message is linked to some task |
| MessagePreview.ConvertedMessageLinked | src/Pages/MessagePreview.jsx:55-72 | a selected unconverted message that a rule matches is linked to a task after the save |
| MessagePreview.ReconvertDropsLinks | src/Pages/MessagePreview.jsx:55-72 | selecting only converted messages yields no task, and the save leaves them without a task id |
| MessagePreview.StoredTasksFields | src/Pages/MessagePreview.jsx:58-60 | one stored item per task, in order, keeping the task's id, title and source and carrying the store's timestamps |
| MessagePreview.CreateTasks | src/Pages/MessagePreview.jsx:58-60 | the task table gains exactly the stored tasks, appended in order |
| MessagePreview.PreviewPage.constructor | src/Pages/MessagePreview.jsx:10-14 | empty lists, empty selection, filter "all" |
| MessagePreview.PreviewPage.LoadData | src/Pages/MessagePreview.jsx:22-26 | the page's lists become the store's |
| MessagePreview.PreviewPage.SetFilterType | src/Pages/MessagePreview.jsx:14 | only the filter changes |
| MessagePreview.PreviewPage.HandleToggleMessage | src/Pages/MessagePreview.jsx:35-43 | the selection becomes its toggle and nothing else changes |
| MessagePreview.PreviewPage.HandleConvertToTasks | src/Pages/MessagePreview.jsx:45-79 | with nothing selected nothing changes; otherwise the selected messages' tasks are created in order, the marked list is saved, the selection is cleared and the data reloaded |

## Left out

- The HTTP calls of the three adapters (rooms, spaces, message lists and details, labels, the account check) are remote I/O. What they answer is an input to `SyncMessages`: a value or a failure per call.
- Clocks and id generators (`Date.now`, `new Date().toISOString()`, `generateId`) are parameters. Rendering a Unix time or a Gmail `internalDate` as ISO text is not modelled; the record keeps the raw value.
- A Gmail `internalDate` that is not a number makes `toISOString` throw. The model keeps the text and does not throw.
- `async`/`await`: each operation is one sequential method. Nothing runs concurrently.
- `localStorage` and JSON text: the stores hold structured values. A document or entry that parses but is not of the expected shape (not an array, or an object without the key) is not modelled beyond "absent means empty".
- `Base44.EntityTable.List`: the sort is a stable insertion sort on a copy of the list. `Array.prototype.sort` works in place with an engine-specific algorithm; the model keeps the order of equal items, and on fields mixing strings and numbers it need not match the engine's order.
- `Base44.ToNumber`: JSON numbers are integers. A string compared with a non-string, and every array or object, reads as `NaN`, so `JsLess` is false for them. JavaScript instead converts such a string to a number, and turns arrays and objects into their primitive (string) form first: when both sides then are strings it compares those strings (`['a'] < ['b']` and `[1,2] < [1,3]` are true), otherwise their numeric values. So `list` sorted on a field holding arrays, objects or a mix of strings and numbers can order items differently from the source.
- FirstLine: `Tasks.FirstLine` cuts at `limit` characters (Unicode scalar values), where `substring(0, limit)` counts UTF-16 code units. The two differ only beyond the Basic Multilingual Plane: a first line of 60 emoji keeps all 60 in the model but 50 in the source, and where the source's cut falls inside a surrogate pair it keeps a lone surrogate that a Dafny string cannot hold.
- ConvertMessageToTask: `Chatwork.ConvertMessageToTask` and `GoogleChat.ConvertMessageToTask` take their titles from `Tasks.FirstLine`, so the 100-unit cut of the title counts characters, not UTF-16 code units, as the line above says.
- CreateTaskFromMessage: `RuleMatcher.CreateTaskFromMessage` cuts the title at 100 and the quoted body at 500 characters (`Seqs.FirstN`), not UTF-16 code units. `RuleMatcher.TaskBounds` is stated in the same characters. The results differ from the source only for text beyond the Basic Multilingual Plane. The Gmail cuts (`Gmail.Preview`, the 1000-character body of `SyncBatch.NormalizeGmail`) work on `Base64.Latin1` text, whose characters are all below U+0100, and so agree with the source.
- `Base44.StrLess`: strings compare by code point, where JavaScript compares UTF-16 code units. They differ only beyond the Basic Multilingual Plane.
- `Text.ToLower`: case folding covers ASCII letters only. `toLowerCase` beyond ASCII is not modelled.
- `Base64.Latin1`: `atob` returns a binary string; the model returns one character per byte and does not decode UTF-8.
- The Gmail `maxResults: 20` and label filter of the list call are the remote's concern and are not modelled.
- `alert`, `console` and all React rendering are left out. The `alert` with the number of created tasks is the length of the returned tasks.
- `MessagePreview.PreviewPage.HandleConvertToTasks`: the conversion gets a copy of the selected messages. In the source they are the same objects as the page's list, but the marking overwrites both fields it could have changed, so the saved list is the same.
- `MessagePreview.TimestampValue`: only ISO text is rendered as a stored value. The create handler overwrites `created_at` anyway.
- `SyncBatch.NormalizeGoogleChat`: an absent space display name is stored as "".
- `ExternalSync.SyncStore.SyncMessages`: a failure inside the dispatch is returned as an error value instead of being thrown after a console message.
