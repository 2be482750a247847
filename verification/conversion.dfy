/** What `convertMessagesToTasks` computes, as functions over the message
    list: which rule each message picks, which task it yields, and how the
    message is marked. The loop that computes it is
    `ExternalSync.SyncStore.ConvertMessagesToTasks`. */
module Conversion {
  import opened Wrappers
  import opened Seqs
  import opened Tasks
  import opened SyncRecords
  import opened RuleMatcher

  /** A rule is considered for a message when it belongs to the message's
      connection and is active. */
  predicate Applicable(rule: SyncRule, m: ExternalMessage) {
    rule.connectionId == m.connectionId && rule.isActive
  }

  /** `rules.filter(r => r.connection_id === message.connection_id && r.is_active)`. */
  function ApplicableRules(m: ExternalMessage, rules: seq<SyncRule>): (r: seq<SyncRule>)
    ensures forall rule :: rule in r <==> rule in rules && Applicable(rule, m)
  {
    Filter(rules, (rule: SyncRule) => Applicable(rule, m))
  }

  /** The rule a message is converted by: the first rule, in stored order,
      that is applicable to it and that it matches. Later rules are never
      consulted once one matches. */
  function ChosenRule(m: ExternalMessage, rules: seq<SyncRule>): (r: Option<SyncRule>)
    ensures r.None? <==> forall i :: 0 <= i < |rules| ==> !(Applicable(rules[i], m) && MessageMatchesRule(m, rules[i]))
    ensures r.Some? ==> exists k :: (0 <= k < |rules| && rules[k] == r.value
      && Applicable(rules[k], m) && MessageMatchesRule(m, rules[k])
      && forall j :: 0 <= j < k ==> !(Applicable(rules[j], m) && MessageMatchesRule(m, rules[j])))
  {
    FirstWhereFilter(rules, (rule: SyncRule) => Applicable(rule, m), (rule: SyncRule) => MessageMatchesRule(m, rule));
    FirstWhere(ApplicableRules(m, rules), (rule: SyncRule) => MessageMatchesRule(m, rule))
  }

  /** The task one message yields: none when it is already converted or
      no rule is chosen, else the chosen rule's task. */
  function TaskFor(m: ExternalMessage, rules: seq<SyncRule>, now: string): (r: Option<Task>)
    ensures m.isConvertedToTask ==> r.None?
    ensures !m.isConvertedToTask ==> (r.Some? <==> ChosenRule(m, rules).Some?)
    ensures r.Some? ==> r.value.id == "task_" + m.messageType + "_" + m.externalMessageId
  {
    if m.isConvertedToTask then None
    else
      match ChosenRule(m, rules)
      case None => None
      case Some(rule) => Some(CreateTaskFromMessage(m, rule, now))
  }

  /** The message as the loop leaves it: flagged and linked to its task
      when one was produced, untouched otherwise. */
  function Marked(m: ExternalMessage, rules: seq<SyncRule>, now: string): (r: ExternalMessage)
    ensures TaskFor(m, rules, now).None? ==> r == m
    ensures TaskFor(m, rules, now).Some? ==>
      r == m.(isConvertedToTask := true, taskId := Some("task_" + m.messageType + "_" + m.externalMessageId))
  {
    match TaskFor(m, rules, now)
    case None => m
    case Some(t) => m.(isConvertedToTask := true, taskId := Some(t.id))
  }

  /** The marked message list. */
  function MarkAll(ms: seq<ExternalMessage>, rules: seq<SyncRule>, now: string): (r: seq<ExternalMessage>)
    ensures |r| == |ms|
    ensures forall i :: 0 <= i < |ms| ==> r[i] == Marked(ms[i], rules, now)
  {
    seq(|ms|, i requires 0 <= i < |ms| => Marked(ms[i], rules, now))
  }

  /** The tasks returned, in message order: at most one per message, and
      each one the task its message yields. */
  function ConvertedTasks(ms: seq<ExternalMessage>, rules: seq<SyncRule>, now: string): (r: seq<Task>)
    ensures |r| <= |ms|
  {
    Collect(ms, (m: ExternalMessage) => TaskFor(m, rules, now))
  }

  /** Each returned task is the task some message of the list yields. */
  lemma ConvertedTasksOrigin(ms: seq<ExternalMessage>, rules: seq<SyncRule>, now: string)
    ensures forall t :: t in ConvertedTasks(ms, rules, now) ==>
      exists i :: 0 <= i < |ms| && TaskFor(ms[i], rules, now) == Some(t)
  {
  }

  /** Converting a concatenation converts each part in turn: tasks come
      out in message order. */
  lemma ConvertedTasksAppend(a: seq<ExternalMessage>, b: seq<ExternalMessage>, rules: seq<SyncRule>, now: string)
    ensures ConvertedTasks(a + b, rules, now) == ConvertedTasks(a, rules, now) + ConvertedTasks(b, rules, now)
  {
    CollectAppend(a, b, (m: ExternalMessage) => TaskFor(m, rules, now));
  }

  /** A list whose messages are all converted yields no task. */
  lemma ConvertedYieldNothing(ms: seq<ExternalMessage>, rules: seq<SyncRule>, now: string)
    requires forall i :: 0 <= i < |ms| ==> ms[i].isConvertedToTask
    ensures ConvertedTasks(ms, rules, now) == []
  {
    CollectNothing(ms, (m: ExternalMessage) => TaskFor(m, rules, now));
  }

  /** Marking is final: a marked message yields no task on a later run
      (whatever the time) and marking it again changes nothing. */
  lemma MarkedIsFinal(m: ExternalMessage, rules: seq<SyncRule>, now: string, later: string)
    ensures TaskFor(Marked(m, rules, now), rules, later).None?
    ensures Marked(Marked(m, rules, now), rules, later) == Marked(m, rules, now)
  {
    if TaskFor(m, rules, now).None? && !m.isConvertedToTask {
      assert ChosenRule(m, rules).None?;
    }
  }

  /** Running the conversion over its own marked output yields no task
      and leaves the list as it is. */
  lemma SecondRunYieldsNothing(ms: seq<ExternalMessage>, rules: seq<SyncRule>, now: string, later: string)
    ensures ConvertedTasks(MarkAll(ms, rules, now), rules, later) == []
    ensures MarkAll(MarkAll(ms, rules, now), rules, later) == MarkAll(ms, rules, now)
  {
    var marked := MarkAll(ms, rules, now);
    forall i | 0 <= i < |ms|
      ensures TaskFor(marked[i], rules, later).None?
      ensures Marked(marked[i], rules, later) == marked[i]
    {
      MarkedIsFinal(ms[i], rules, now, later);
    }
    CollectNothing(marked, (m: ExternalMessage) => TaskFor(m, rules, later));
  }

  /** Every marked message that yielded a task carries that task's id. */
  lemma MarkedCarriesTaskId(m: ExternalMessage, rules: seq<SyncRule>, now: string)
    requires TaskFor(m, rules, now).Some?
    ensures Marked(m, rules, now).isConvertedToTask
    ensures Marked(m, rules, now).taskId == Some(TaskFor(m, rules, now).value.id)
  {
  }
}
