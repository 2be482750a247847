/** Rule matching and the message-to-task step of the external-sync
    service (`messageMatchesRule`, `createTaskFromMessage`). */
module RuleMatcher {
  import opened Wrappers
  import opened Seqs
  import opened Text
  import opened Tasks
  import opened SyncRecords

  /** `value.split(',').map(k => k.trim())`, optionally lower-cased: the
      terms of a comma-separated filter value. */
  function Terms(value: string, fold: bool): (r: seq<string>)
    ensures |r| == |Split(value, ',')|
    ensures forall i :: 0 <= i < |r| ==> r[i] == (if fold then ToLower(Trim(Split(value, ',')[i])) else Trim(Split(value, ',')[i]))
  {
    var parts := Split(value, ',');
    seq(|parts|, i requires 0 <= i < |parts| => if fold then ToLower(Trim(parts[i])) else Trim(parts[i]))
  }

  /** `rule.filter_value?.split(',').map(...) || []`: a missing filter
      value yields no terms. */
  function RuleTerms(rule: SyncRule, fold: bool): (r: seq<string>)
    ensures rule.filterValue.None? ==> r == []
    ensures rule.filterValue.Some? ==> |r| >= 1
  {
    if rule.filterValue.Some? then Terms(rule.filterValue.value, fold) else []
  }

  /** The text a keyword rule searches: `${subject || ''} ${body}`, lower-cased. */
  function KeywordText(m: ExternalMessage): string {
    ToLower(OrEmpty(m.subject) + " " + m.body)
  }

  /** `sender_name?.toLowerCase().includes(s) || sender_email?.toLowerCase().includes(s)`. */
  predicate SenderHit(m: ExternalMessage, s: string) {
    Contains(ToLower(m.senderName), s) || (m.senderEmail.Some? && Contains(ToLower(m.senderEmail.value), s))
  }

  /** `messageMatchesRule(message, rule)`. */
  predicate MessageMatchesRule(m: ExternalMessage, rule: SyncRule) {
    match rule.filterType
    case "all" => true
    case "keyword" =>
      var keywords := RuleTerms(rule, true);
      exists i :: 0 <= i < |keywords| && Contains(KeywordText(m), keywords[i])
    case "sender" =>
      var senders := RuleTerms(rule, true);
      exists i :: 0 <= i < |senders| && SenderHit(m, senders[i])
    case "label" =>
      var labels := RuleTerms(rule, false);
      exists i :: 0 <= i < |labels| && labels[i] in m.labels
    case "room" => m.roomId.Some? && m.roomId == rule.filterValue
    case _ => false
  }

  const FilterTypes := {"all", "keyword", "sender", "label", "room"}

  /** What each filter type accepts, stated without the term lists:
      "all" accepts every message, an unknown type none, "room" exactly
      the messages whose room id equals the filter value, and a rule
      whose filter value is missing accepts nothing unless it is "all". */
  lemma MatchTable(m: ExternalMessage, rule: SyncRule)
    ensures rule.filterType == "all" ==> MessageMatchesRule(m, rule)
    ensures rule.filterType !in FilterTypes ==> !MessageMatchesRule(m, rule)
    ensures rule.filterType == "room" ==>
      (MessageMatchesRule(m, rule) <==> m.roomId.Some? && rule.filterValue == Some(m.roomId.value))
    ensures rule.filterType != "all" && rule.filterValue.None? ==> !MessageMatchesRule(m, rule)
  {
  }

  /** As written, an empty keyword filter is the single term "", which
      every text contains: the rule matches every message. */
  lemma EmptyKeywordMatchesAll(m: ExternalMessage, rule: SyncRule)
    requires rule.filterType == "keyword" && rule.filterValue == Some("")
    ensures MessageMatchesRule(m, rule)
  {
    EmptyValueTerms(rule);
    ContainsEmpty(KeywordText(m));
    assert Contains(KeywordText(m), RuleTerms(rule, true)[0]);
  }

  /** Likewise an empty sender filter matches every sender. */
  lemma EmptySenderMatchesAll(m: ExternalMessage, rule: SyncRule)
    requires rule.filterType == "sender" && rule.filterValue == Some("")
    ensures MessageMatchesRule(m, rule)
  {
    EmptyValueTerms(rule);
    ContainsEmpty(ToLower(m.senderName));
    assert SenderHit(m, RuleTerms(rule, true)[0]);
  }

  /** An empty filter value is the single empty term. */
  lemma EmptyValueTerms(rule: SyncRule)
    requires rule.filterValue == Some("")
    ensures RuleTerms(rule, true) == [""]
  {
    assert Split("", ',') == [""];
    assert Trim("") == "";
  }

  /** A keyword rule matches exactly when some trimmed term occurs in the
      subject-and-body text, ignoring ASCII case on both sides. */
  lemma KeywordMatch(m: ExternalMessage, rule: SyncRule, v: string)
    requires rule.filterType == "keyword" && rule.filterValue == Some(v)
    ensures MessageMatchesRule(m, rule) <==>
      exists k :: k in Split(v, ',') && Contains(ToLower(OrEmpty(m.subject) + " " + m.body), ToLower(Trim(k)))
  {
    var parts := Split(v, ',');
    var keywords := RuleTerms(rule, true);
    if MessageMatchesRule(m, rule) {
      var i :| 0 <= i < |keywords| && Contains(KeywordText(m), keywords[i]);
      assert parts[i] in parts;
    }
    if exists k :: k in parts && Contains(ToLower(OrEmpty(m.subject) + " " + m.body), ToLower(Trim(k))) {
      var k :| k in parts && Contains(ToLower(OrEmpty(m.subject) + " " + m.body), ToLower(Trim(k)));
      var i :| 0 <= i < |parts| && parts[i] == k;
      assert Contains(KeywordText(m), keywords[i]);
    }
  }

  /** `createTaskFromMessage(message, rule)`; `now` stands for
      `new Date().toISOString()`. */
  function CreateTaskFromMessage(m: ExternalMessage, rule: SyncRule, now: string): (t: Task)
    ensures t.id == "task_" + m.messageType + "_" + m.externalMessageId
    ensures Truthy(m.subject) ==> t.title == m.subject.value
    ensures !Truthy(m.subject) && FirstLine(m.body, 100) != "" ==> FirstLineTitle(t.title, m.body, 100)
    ensures !Truthy(m.subject) && FirstLine(m.body, 100) == "" ==> t.title == m.messageType + "メッセージ"
    ensures t.description == "[" + ToUpper(m.messageType) + "] " + OrEmpty(m.roomName)
                             + "\n送信者: " + m.senderName + "\n\n" + FirstN(m.body, 500)
    ensures t.status == Pending && t.dueDate == None
    ensures t.priority == if rule.defaultPriority != "" then rule.defaultPriority else Medium
    ensures t.assignee == if rule.defaultAssignee != "" then rule.defaultAssignee else m.messageType + "から自動作成"
    ensures t.createdAt == Iso(now) && t.updatedAt == now
    ensures t.externalSource == SyncSource(m.messageType, m.externalMessageId, m.connectionId)
  {
    var line := FirstLine(m.body, 100);
    var title := if Truthy(m.subject) then m.subject.value
                 else if line != "" then line
                 else m.messageType + "メッセージ";
    Task(
      "task_" + m.messageType + "_" + m.externalMessageId,
      title,
      "[" + ToUpper(m.messageType) + "] " + OrEmpty(m.roomName) + "\n送信者: " + m.senderName + "\n\n" + FirstN(m.body, 500),
      Pending,
      if rule.defaultPriority != "" then rule.defaultPriority else Medium,
      if rule.defaultAssignee != "" then rule.defaultAssignee else m.messageType + "から自動作成",
      None,
      Iso(now),
      now,
      SyncSource(m.messageType, m.externalMessageId, m.connectionId))
  }

  /** The task's description quotes at most the first 500 characters of
      the body, and its title is never empty. */
  lemma TaskBounds(m: ExternalMessage, rule: SyncRule, now: string)
    ensures var t := CreateTaskFromMessage(m, rule, now);
      t.title != "" && FirstN(m.body, 500) <= m.body && |FirstN(m.body, 500)| <= 500
  {
  }
}
