/** The message preview page (src/Pages/MessagePreview.jsx): its status
    filter, its selection, and the "convert selected messages" action that
    runs the conversion, stores the tasks through the Base44 task table
    and saves the marked messages back to the sync store. React state is
    the fields of `PreviewPage`; `alert` calls are left out. */
module MessagePreview {
  import opened Wrappers
  import opened Text
  import opened Seqs
  import opened Tasks
  import opened SyncRecords
  import opened Conversion
  import opened ExternalSync
  import opened Base44

  // ------------------------------------------------------------ the filter

  /** `filteredMessages`: "converted" keeps the converted messages,
      "unconverted" the others, and "all" or any other value keeps every
      message. The order is kept. */
  function FilteredMessages(ms: seq<ExternalMessage>, filterType: string): (r: seq<ExternalMessage>)
    ensures filterType == "converted" ==> forall m :: m in r <==> m in ms && m.isConvertedToTask
    ensures filterType == "unconverted" ==> forall m :: m in r <==> m in ms && !m.isConvertedToTask
    ensures filterType != "converted" && filterType != "unconverted" ==> r == ms
    ensures SubsequenceOf(r, ms)
  {
    if filterType == "converted" then Filter(ms, (m: ExternalMessage) => m.isConvertedToTask)
    else if filterType == "unconverted" then Filter(ms, (m: ExternalMessage) => !m.isConvertedToTask)
    else
      SubsequenceOfSelf(ms);
      ms
  }

  /** The two counts on the filter buttons add up to the number of
      messages: every message is either unconverted or converted. */
  lemma {:induction false} CountsAddUp(ms: seq<ExternalMessage>)
    ensures |FilteredMessages(ms, "unconverted")| + |FilteredMessages(ms, "converted")| == |ms|
    decreases |ms|
  {
    if |ms| > 0 {
      CountsAddUp(ms[1..]);
    }
  }

  // ------------------------------------------------------------ the selection

  /** The selection after `handleToggleMessage(id)`: `id` changes side and
      every other id stays where it was. */
  function Toggle(selected: set<string>, id: string): (r: set<string>)
    ensures id in r <==> id !in selected
    ensures forall x :: x != id ==> (x in r <==> x in selected)
  {
    if id in selected then selected - {id} else selected + {id}
  }

  /** Toggling the same message twice restores the selection. */
  lemma ToggleTwice(selected: set<string>, id: string)
    ensures Toggle(Toggle(selected, id), id) == selected
  {
    var once := Toggle(selected, id);
    var twice := Toggle(once, id);
    forall x
      ensures x in twice <==> x in selected
    {
      if x == id {
        assert id in twice <==> id !in once;
      }
    }
  }

  /** `externalMessages.filter(msg => selectedMessages.has(msg.id))`. */
  function SelectedMessages(ms: seq<ExternalMessage>, selected: set<string>): (r: seq<ExternalMessage>)
    ensures forall m :: m in r <==> m in ms && m.id in selected
    ensures SubsequenceOf(r, ms)
  {
    Filter(ms, (m: ExternalMessage) => m.id in selected)
  }

  // ------------------------------------------------------------ the marking

  /** `tasks.find(t => t.id.includes(externalMessageId))?.id`: the id of
      the first task whose id contains the message's external id as a
      substring, or nothing. */
  function TaskIdFor(tasks: seq<Task>, externalMessageId: string): (r: Option<string>)
    ensures r.None? <==> forall i :: 0 <= i < |tasks| ==> !Contains(tasks[i].id, externalMessageId)
    ensures r.Some? ==> exists k :: (0 <= k < |tasks| && tasks[k].id == r.value
      && Contains(tasks[k].id, externalMessageId)
      && forall j :: 0 <= j < k ==> !Contains(tasks[j].id, externalMessageId))
  {
    match FirstWhere(tasks, (t: Task) => Contains(t.id, externalMessageId))
    case None => None
    case Some(t) => Some(t.id)
  }

  /** The list `handleConvertToTasks` saves: each selected message is
      flagged as converted and linked to `TaskIdFor`, whatever the
      conversion made of it; the others are kept as they are. */
  function MarkSelected(ms: seq<ExternalMessage>, selected: set<string>, tasks: seq<Task>): (r: seq<ExternalMessage>)
    ensures |r| == |ms|
    ensures forall i :: 0 <= i < |ms| && ms[i].id !in selected ==> r[i] == ms[i]
    ensures forall i :: 0 <= i < |ms| && ms[i].id in selected ==>
      r[i] == ms[i].(isConvertedToTask := true, taskId := TaskIdFor(tasks, ms[i].externalMessageId))
  {
    seq(|ms|, i requires 0 <= i < |ms| =>
      if ms[i].id in selected
      then ms[i].(isConvertedToTask := true, taskId := TaskIdFor(tasks, ms[i].externalMessageId))
      else ms[i])
  }

  /** After the save every selected message reads as converted, even one
      for which no task was made (no rule matched it), and the messages
      keep their ids and their order. */
  lemma SelectedAllMarked(ms: seq<ExternalMessage>, selected: set<string>, tasks: seq<Task>)
    ensures forall i :: 0 <= i < |ms| ==> MarkSelected(ms, selected, tasks)[i].id == ms[i].id
    ensures forall i :: 0 <= i < |ms| && ms[i].id in selected ==> MarkSelected(ms, selected, tasks)[i].isConvertedToTask
    ensures FilteredMessages(SelectedMessages(MarkSelected(ms, selected, tasks), selected), "unconverted") == []
  {
    var marked := MarkSelected(ms, selected, tasks);
    var picked := SelectedMessages(marked, selected);
    forall i | 0 <= i < |picked|
      ensures picked[i].isConvertedToTask
    {
      assert picked[i] in picked;
      var k :| 0 <= k < |marked| && marked[k] == picked[i];
    }
    NoUnconverted(picked);
  }

  /** A list of converted messages has nothing under "unconverted". */
  lemma {:induction false} NoUnconverted(ms: seq<ExternalMessage>)
    requires forall i :: 0 <= i < |ms| ==> ms[i].isConvertedToTask
    ensures FilteredMessages(ms, "unconverted") == []
    decreases |ms|
  {
    if |ms| > 0 {
      NoUnconverted(ms[1..]);
    }
  }

  /** A message's own task (`task_<type>_<external id>`) contains its
      external id, so once that task is among the converted ones the
      saved message is linked to some task. */
  lemma OwnTaskFound(tasks: seq<Task>, m: ExternalMessage, k: nat)
    requires k < |tasks| && tasks[k].id == "task_" + m.messageType + "_" + m.externalMessageId
    ensures TaskIdFor(tasks, m.externalMessageId).Some?
  {
    var prefix := "task_" + m.messageType + "_";
    assert tasks[k].id == prefix + m.externalMessageId;
    assert OccursAt(tasks[k].id, m.externalMessageId, |prefix|);
    ContainsAt(tasks[k].id, m.externalMessageId);
  }

  /** Every selected, not yet converted message that a rule matches is
      linked to a task after the save. */
  lemma ConvertedMessageLinked(ms: seq<ExternalMessage>, selected: set<string>, rules: seq<SyncRule>, now: string, i: nat)
    requires i < |ms| && ms[i].id in selected
    requires TaskFor(ms[i], rules, now).Some?
    ensures MarkSelected(ms, selected, ConvertedTasks(SelectedMessages(ms, selected), rules, now))[i].taskId.Some?
  {
    var picked := SelectedMessages(ms, selected);
    var tasks := ConvertedTasks(picked, rules, now);
    assert ms[i] in picked;
    var j :| 0 <= j < |picked| && picked[j] == ms[i];
    TaskCollected(picked, rules, now, j);
    var k :| 0 <= k < |tasks| && tasks[k] == TaskFor(ms[i], rules, now).value;
    OwnTaskFound(tasks, ms[i], k);
  }

  /** The task a message yields is among the converted tasks. */
  lemma TaskCollected(ms: seq<ExternalMessage>, rules: seq<SyncRule>, now: string, j: nat)
    requires j < |ms| && TaskFor(ms[j], rules, now).Some?
    ensures TaskFor(ms[j], rules, now).value in ConvertedTasks(ms, rules, now)
  {
    var f := (m: ExternalMessage) => TaskFor(m, rules, now);
    assert f(ms[j]) == TaskFor(ms[j], rules, now);
    CollectKeeps(ms, f, j);
  }

  /** As written, selecting only messages that are already converted
      yields no task, and the save then drops the link of every selected
      message whose external id no task contains: its `task_id` becomes
      undefined. */
  lemma ReconvertDropsLinks(ms: seq<ExternalMessage>, selected: set<string>, rules: seq<SyncRule>, now: string)
    requires forall i :: 0 <= i < |ms| && ms[i].id in selected ==> ms[i].isConvertedToTask
    ensures ConvertedTasks(SelectedMessages(ms, selected), rules, now) == []
    ensures forall i :: 0 <= i < |ms| && ms[i].id in selected ==>
      MarkSelected(ms, selected, ConvertedTasks(SelectedMessages(ms, selected), rules, now))[i].taskId.None?
  {
    var picked := SelectedMessages(ms, selected);
    forall j | 0 <= j < |picked|
      ensures picked[j].isConvertedToTask
    {
      assert picked[j] in picked;
    }
    ConvertedYieldNothing(picked, rules, now);
  }

  // ------------------------------------------------------------ stored tasks

  /** A timestamp as a JSON value. Only ISO text is stored by this page;
      the create handler overwrites `created_at` anyway. */
  function TimestampValue(ts: Timestamp): Value {
    match ts
    case Iso(text) => Str(text)
    case _ => Null
  }

  /** The `external_source` object as JSON; an absent Google Chat message
      name is an absent key. */
  function SourceValue(s: Source): Value {
    match s
    case ChatworkSource(id, roomName, senderName) =>
      Obj(map["type" := Str("chatwork"), "messageId" := Str(id), "roomName" := Str(roomName), "senderName" := Str(senderName)])
    case GoogleChatSource(name, spaceName, senderName) =>
      var fields := map["type" := Str("google_chat"), "spaceName" := Str(spaceName), "senderName" := Str(senderName)];
      Obj(if name.Some? then fields["messageId" := Str(name.value)] else fields)
    case GmailSource(id, subject, from, labels) =>
      Obj(map["type" := Str("gmail"), "messageId" := Str(id), "subject" := Str(subject), "from" := Str(from),
               "labels" := Arr(seq(|labels|, i requires 0 <= i < |labels| => Str(labels[i])))])
    case SyncSource(sourceType, messageId, connectionId) =>
      Obj(map["type" := Str(sourceType), "messageId" := Str(messageId), "connectionId" := Str(connectionId)])
  }

  /** A task as the JSON object handed to `base44.entities.Task.create`. */
  function TaskRecord(t: Task): (r: Record)
    ensures "id" in r && r["id"] == Str(t.id)
    ensures "title" in r && r["title"] == Str(t.title)
    ensures "external_source" in r && r["external_source"] == SourceValue(t.externalSource)
  {
    map["id" := Str(t.id), "title" := Str(t.title), "description" := Str(t.description),
        "status" := Str(t.status), "priority" := Str(t.priority), "assignee" := Str(t.assignee),
        "due_date" := (if t.dueDate.Some? then Str(t.dueDate.value) else Null),
        "created_at" := TimestampValue(t.createdAt), "updated_at" := Str(t.updatedAt),
        "external_source" := SourceValue(t.externalSource)]
  }

  /** The items the create loop appends, one per task and in task order. */
  function StoredTasks(tasks: seq<Task>, generatedId: string, now: string): (r: seq<Record>)
    ensures |r| == |tasks|
  {
    Map(tasks, (t: Task) => NewItem(TaskRecord(t), generatedId, now))
  }

  /** Each stored item keeps its task's own id, so the generated id is
      never used, keeps its title and source, and carries the store's
      timestamps. */
  lemma StoredTasksFields(tasks: seq<Task>, generatedId: string, now: string)
    ensures var r := StoredTasks(tasks, generatedId, now);
      && (forall i :: 0 <= i < |tasks| ==> HasId(r[i], tasks[i].id))
      && (forall i :: 0 <= i < |tasks| ==>
            "created_at" in r[i] && r[i]["created_at"] == Str(now) && "updated_at" in r[i] && r[i]["updated_at"] == Str(now))
      && (forall i :: 0 <= i < |tasks| ==>
            "title" in r[i] && r[i]["title"] == Str(tasks[i].title)
            && "external_source" in r[i] && r[i]["external_source"] == SourceValue(tasks[i].externalSource))
  {
  }

  lemma StoredTasksStep(tasks: seq<Task>, k: nat, generatedId: string, now: string)
    requires k < |tasks|
    ensures StoredTasks(tasks[..k + 1], generatedId, now)
      == StoredTasks(tasks[..k], generatedId, now) + [NewItem(TaskRecord(tasks[k]), generatedId, now)]
  {
    MapStep(tasks, (t: Task) => NewItem(TaskRecord(t), generatedId, now), k);
  }

  // ------------------------------------------------------------ the page

  class PreviewPage {
    const store: SyncStore
    const taskTable: EntityTable
    var externalMessages: seq<ExternalMessage>
    var connections: seq<Connection>
    var syncRules: seq<SyncRule>
    var selected: set<string>
    var filterType: string

    /** The initial state, before the mount effect loads the data. */
    constructor(store: SyncStore, taskTable: EntityTable)
      ensures this.store == store && this.taskTable == taskTable
      ensures externalMessages == [] && connections == [] && syncRules == []
      ensures selected == {} && filterType == "all"
    {
      this.store := store;
      this.taskTable := taskTable;
      externalMessages := [];
      connections := [];
      syncRules := [];
      selected := {};
      filterType := "all";
    }

    /** The messages the list shows. */
    function Shown(): seq<ExternalMessage>
      reads this
    {
      FilteredMessages(externalMessages, filterType)
    }

    /** `loadData()`: the page's copies are the store's lists. */
    method LoadData()
      modifies this
      ensures externalMessages == store.externalMessages
      ensures connections == store.connections && syncRules == store.syncRules
      ensures selected == old(selected) && filterType == old(filterType)
    {
      externalMessages := store.externalMessages;
      connections := store.connections;
      syncRules := store.syncRules;
    }

    /** `setFilterType(value)` from the filter buttons. */
    method SetFilterType(value: string)
      modifies this
      ensures filterType == value
      ensures externalMessages == old(externalMessages) && selected == old(selected)
      ensures connections == old(connections) && syncRules == old(syncRules)
    {
      filterType := value;
    }

    /** `handleToggleMessage(messageId)`. */
    method HandleToggleMessage(messageId: string)
      modifies this
      ensures selected == Toggle(old(selected), messageId)
      ensures externalMessages == old(externalMessages) && filterType == old(filterType)
      ensures connections == old(connections) && syncRules == old(syncRules)
    {
      var next := selected;
      if messageId in next {
        next := next - {messageId};
      } else {
        next := next + {messageId};
      }
      selected := next;
    }

    /** `handleConvertToTasks()`. With nothing selected nothing changes.
        Otherwise the selected messages are converted with the page's
        rules, every task is created in the task table in order, the
        page's message list is saved with the selected messages marked,
        the selection is cleared and the data reloaded. */
    method HandleConvertToTasks(generatedId: string, now: string) returns (tasks: seq<Task>)
      modifies this, store, taskTable
      ensures SelectedMessages(old(externalMessages), old(selected)) == [] ==>
        tasks == [] && unchanged(this) && unchanged(store) && unchanged(taskTable)
      ensures SelectedMessages(old(externalMessages), old(selected)) != [] ==>
        && tasks == ConvertedTasks(SelectedMessages(old(externalMessages), old(selected)), old(syncRules), now)
        && taskTable.Contents() == old(taskTable.Contents()) + StoredTasks(tasks, generatedId, now)
        && store.externalMessages == MarkSelected(old(externalMessages), old(selected), tasks)
        && store.connections == old(store.connections) && store.syncRules == old(store.syncRules)
        && selected == {} && filterType == old(filterType)
        && externalMessages == store.externalMessages
        && connections == store.connections && syncRules == store.syncRules
    {
      var picked := SelectedMessages(externalMessages, selected);
      if |picked| == 0 {
        return [];
      }
      tasks := ConvertAndStore(store, taskTable, picked, syncRules, generatedId, now);
      var updated := MarkSelected(externalMessages, selected, tasks);
      store.SaveExternalMessages(updated);
      selected := {};
      LoadData();
    }
  }

  /** The tasks of the picked messages, converted on a fresh array (so
      the marks the conversion makes are lost) and then created in the
      task table. The sync store is written, but with what it held. */
  method ConvertAndStore(store: SyncStore, taskTable: EntityTable, picked: seq<ExternalMessage>,
                         rules: seq<SyncRule>, generatedId: string, now: string) returns (tasks: seq<Task>)
    modifies store, taskTable
    ensures tasks == ConvertedTasks(picked, rules, now)
    ensures taskTable.Contents() == old(taskTable.Contents()) + StoredTasks(tasks, generatedId, now)
    ensures store.externalMessages == old(store.externalMessages)
    ensures store.connections == old(store.connections) && store.syncRules == old(store.syncRules)
  {
    var batch := new ExternalMessage[|picked|](i requires 0 <= i < |picked| => picked[i]);
    assert batch[..] == picked;
    tasks := store.ConvertMessagesToTasks(batch, rules, now);
    CreateTasks(taskTable, tasks, generatedId, now);
  }

  /** `for (const task of tasks) await base44.entities.Task.create(task)`. */
  method CreateTasks(table: EntityTable, tasks: seq<Task>, generatedId: string, now: string)
    modifies table
    ensures table.Contents() == old(table.Contents()) + StoredTasks(tasks, generatedId, now)
  {
    var k := 0;
    while k < |tasks|
      invariant 0 <= k <= |tasks|
      invariant table.Contents() == old(table.Contents()) + StoredTasks(tasks[..k], generatedId, now)
    {
      var item := table.Create(TaskRecord(tasks[k]), generatedId, now);
      StoredTasksStep(tasks, k, generatedId, now);
      k := k + 1;
    }
    assert tasks[..k] == tasks;
  }
}
