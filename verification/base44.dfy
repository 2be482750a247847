/** The mock Base44 client (src/api/base44Client.js): each entity kind is
    a list of JSON objects kept under its own storage key, read and
    rewritten by one generic handler. */
module Base44 {
  import opened Wrappers
  import opened Seqs

  /** A JSON value as `JSON.parse` yields it; numbers are integers here. */
  datatype Value =
    | Null
    | Bool(b: bool)
    | Num(n: int)
    | Str(s: string)
    | Arr(elems: seq<Value>)
    | Obj(fields: map<string, Value>)

  /** A stored item: a JSON object. A key the object lacks reads as `undefined`. */
  type Record = map<string, Value>

  /** What `localStorage.getItem('base44_' + key)` holds. */
  datatype Stored =
    | Missing                       // no entry, or the empty string
    | Unparsable                    // text `JSON.parse` rejects
    | Items(items: seq<Record>)     // a JSON array of objects

  /** `getFromStorage(key)`: the stored list, or `[]` when the key is
      missing or its text does not parse. */
  function GetFromStorage(stored: Stored): (r: seq<Record>)
    ensures stored.Missing? || stored.Unparsable? ==> r == []
    ensures stored.Items? ==> r == stored.items
  {
    match stored
    case Items(items) => items
    case _ => []
  }

  /** `item.id === id` for a string id. */
  predicate HasId(item: Record, id: string) {
    "id" in item && item["id"] == Str(id)
  }

  /** `{ id: generatedId, ...data, created_at: now, updated_at: now }`. */
  function NewItem(data: Record, generatedId: string, now: string): (r: Record)
    ensures r.Keys == data.Keys + {"id", "created_at", "updated_at"}
    ensures r["created_at"] == Str(now) && r["updated_at"] == Str(now)
    ensures "id" in data ==> r["id"] == data["id"]
    ensures "id" !in data ==> r["id"] == Str(generatedId)
    ensures forall k :: k in data && k != "created_at" && k != "updated_at" ==> r[k] == data[k]
  {
    map["id" := Str(generatedId)] + data + map["created_at" := Str(now), "updated_at" := Str(now)]
  }

  /** `{ ...item, ...data, updated_at: now }`. */
  function MergedItem(item: Record, data: Record, now: string): (r: Record)
    ensures r.Keys == item.Keys + data.Keys + {"updated_at"}
    ensures r["updated_at"] == Str(now)
    ensures forall k :: k in data && k != "updated_at" ==> r[k] == data[k]
    ensures forall k :: k in item && k !in data && k != "updated_at" ==> r[k] == item[k]
  {
    item + data + map["updated_at" := Str(now)]
  }

  // ----------------------------------------------------------------- sorting

  /** JavaScript's `<` on two strings: code-point order, a proper prefix first. */
  predicate StrLess(a: string, b: string)
    decreases |a|
  {
    if |a| == 0 then |b| > 0
    else if |b| == 0 then false
    else if a[0] != b[0] then a[0] < b[0]
    else StrLess(a[1..], b[1..])
  }

  lemma {:induction false} StrLessIrreflexive(a: string)
    ensures !StrLess(a, a)
    decreases |a|
  {
    if |a| > 0 {
      StrLessIrreflexive(a[1..]);
    }
  }

  lemma {:induction false} StrLessTransitive(a: string, b: string, c: string)
    requires StrLess(a, b) && StrLess(b, c)
    ensures StrLess(a, c)
    decreases |a|
  {
    if |a| > 0 && |b| > 0 && |c| > 0 && a[0] == b[0] && b[0] == c[0] {
      StrLessTransitive(a[1..], b[1..], c[1..]);
    }
  }

  lemma {:induction false} StrLessAsymmetric(a: string, b: string)
    requires StrLess(a, b)
    ensures !StrLess(b, a)
    decreases |a|
  {
    if |a| > 0 && |b| > 0 && a[0] == b[0] {
      StrLessAsymmetric(a[1..], b[1..]);
    }
  }

  /** `Number(v)` for the values whose conversion the model follows;
      `None` stands for `NaN`. */
  function ToNumber(v: Option<Value>): Option<int> {
    match v
    case Some(Null) => Some(0)
    case Some(Bool(b)) => Some(if b then 1 else 0)
    case Some(Num(n)) => Some(n)
    case _ => None
  }

  /** JavaScript's `a < b` on two field values (`None` is `undefined`):
      strings compare as strings, everything else as numbers, and a
      comparison with `NaN` is false. */
  predicate JsLess(a: Option<Value>, b: Option<Value>) {
    if a.Some? && a.value.Str? && b.Some? && b.value.Str? then StrLess(a.value.s, b.value.s)
    else ToNumber(a).Some? && ToNumber(b).Some? && ToNumber(a).value < ToNumber(b).value
  }

  function FieldOf(item: Record, field: string): Option<Value> {
    if field in item then Some(item[field]) else None
  }

  /** The comparator of `list` returns a negative number for (a, b). */
  predicate Precedes(field: string, desc: bool, a: Record, b: Record) {
    var x := FieldOf(a, field);
    var y := FieldOf(b, field);
    if desc then !JsLess(x, y) && JsLess(y, x) else JsLess(x, y)
  }

  /** `x` goes in front of the first element `goesBefore` accepts, or at
      the end: it stays behind every element it is not put before. */
  function InsertWhere<T>(x: T, sorted: seq<T>, goesBefore: T -> bool): (r: seq<T>)
    ensures multiset(r) == multiset(sorted) + multiset{x}
    ensures |r| == |sorted| + 1
    decreases |sorted|
  {
    if |sorted| == 0 then [x]
    else if goesBefore(sorted[0]) then [x] + sorted
    else
      assert sorted == [sorted[0]] + sorted[1..];
      [sorted[0]] + InsertWhere(x, sorted[1..], goesBefore)
  }

  /** One insertion step of the stable sort: `x` is placed after every
      element it does not strictly precede, so equal elements keep their
      order. */
  function Insert(field: string, desc: bool, x: Record, sorted: seq<Record>): (r: seq<Record>)
    ensures multiset(r) == multiset(sorted) + multiset{x}
    ensures |r| == |sorted| + 1
  {
    InsertWhere(x, sorted, (y: Record) => Precedes(field, desc, x, y))
  }

  /** `items.sort(comparator)`, stable, on a copy of the list. */
  function SortBy(items: seq<Record>, field: string, desc: bool): (r: seq<Record>)
    ensures multiset(r) == multiset(items)
    ensures |r| == |items|
    decreases |items|
  {
    if |items| == 0 then []
    else
      assert items == items[..|items| - 1] + [items[|items| - 1]];
      Insert(field, desc, items[|items| - 1], SortBy(items[..|items| - 1], field, desc))
  }

  /** No element is strictly preceded by one placed after it. */
  predicate Ordered(field: string, desc: bool, s: seq<Record>) {
    forall i, j :: 0 <= i < j < |s| ==> !Precedes(field, desc, s[j], s[i])
  }

  /** The sort field holds a string in every item, or a number in every item. */
  predicate UniformField(items: seq<Record>, field: string) {
    || (forall i :: 0 <= i < |items| ==> field in items[i] && items[i][field].Str?)
    || (forall i :: 0 <= i < |items| ==> field in items[i] && items[i][field].Num?)
  }

  /** On such fields the comparator is a strict order. */
  lemma PrecedesTransitive(field: string, desc: bool, a: Record, b: Record, c: Record)
    requires (field in a && a[field].Str? && field in b && b[field].Str? && field in c && c[field].Str?)
          || (field in a && a[field].Num? && field in b && b[field].Num? && field in c && c[field].Num?)
    requires Precedes(field, desc, a, b) && Precedes(field, desc, b, c)
    ensures Precedes(field, desc, a, c)
  {
    if a[field].Str? {
      var x, y, z := a[field].s, b[field].s, c[field].s;
      if desc {
        StrLessTransitive(z, y, x);
        StrLessAsymmetric(z, x);
      } else {
        StrLessTransitive(x, y, z);
      }
    }
  }

  lemma {:induction false} InsertOrdered(field: string, desc: bool, x: Record, sorted: seq<Record>, all: seq<Record>)
    requires UniformField(all, field)
    requires x in all && forall k :: 0 <= k < |sorted| ==> sorted[k] in all
    requires Ordered(field, desc, sorted)
    ensures Ordered(field, desc, Insert(field, desc, x, sorted))
    ensures forall k :: 0 <= k < |Insert(field, desc, x, sorted)| ==> Insert(field, desc, x, sorted)[k] in all
    decreases |sorted|
  {
    if |sorted| == 0 {
    } else if Precedes(field, desc, x, sorted[0]) {
      InsertedInFront(field, desc, x, sorted, all);
    } else {
      InsertOrdered(field, desc, x, sorted[1..], all);
      InsertedBehind(field, desc, x, sorted, Insert(field, desc, x, sorted[1..]), all);
    }
  }

  /** An item that precedes the head of an ordered list can go in front. */
  lemma InsertedInFront(field: string, desc: bool, x: Record, sorted: seq<Record>, all: seq<Record>)
    requires UniformField(all, field)
    requires x in all && forall k :: 0 <= k < |sorted| ==> sorted[k] in all
    requires Ordered(field, desc, sorted)
    requires |sorted| > 0 && Precedes(field, desc, x, sorted[0])
    ensures Ordered(field, desc, [x] + sorted)
  {
    var r := [x] + sorted;
    forall i, j | 0 <= i < j < |r|
      ensures !Precedes(field, desc, r[j], r[i])
    {
      if i == 0 && Precedes(field, desc, r[j], x) {
        PrecedesTransitive(field, desc, r[j], x, sorted[0]);
        if j - 1 == 0 {
          PrecedesIrreflexive(field, desc, sorted[0], all);
        }
      }
    }
  }

  /** The head of an ordered list stays in front of any ordered
      rearrangement of its tail plus an item that does not precede it. */
  lemma InsertedBehind(field: string, desc: bool, x: Record, sorted: seq<Record>, rest: seq<Record>, all: seq<Record>)
    requires |sorted| > 0 && Ordered(field, desc, sorted)
    requires !Precedes(field, desc, x, sorted[0])
    requires Ordered(field, desc, rest)
    requires multiset(rest) == multiset(sorted[1..]) + multiset{x}
    ensures Ordered(field, desc, [sorted[0]] + rest)
  {
    var r := [sorted[0]] + rest;
    forall j | 1 <= j < |r|
      ensures !Precedes(field, desc, r[j], sorted[0])
    {
      assert r[j] == rest[j - 1];
      assert r[j] in multiset(rest);
      if r[j] != x {
        assert r[j] in multiset(sorted[1..]);
        var k :| 0 <= k < |sorted[1..]| && sorted[1..][k] == r[j];
        assert sorted[k + 1] == r[j];
      }
    }
  }

  lemma PrecedesIrreflexive(field: string, desc: bool, a: Record, all: seq<Record>)
    requires UniformField(all, field) && a in all
    ensures !Precedes(field, desc, a, a)
  {
    if a[field].Str? {
      StrLessIrreflexive(a[field].s);
    }
  }

  /** On a uniform field the sorted list is in comparator order. */
  lemma {:induction false} SortByOrdered(items: seq<Record>, field: string, desc: bool)
    requires UniformField(items, field)
    ensures Ordered(field, desc, SortBy(items, field, desc))
    ensures forall k :: 0 <= k < |items| ==> SortBy(items, field, desc)[k] in items
    decreases |items|
  {
    if |items| > 0 {
      var front := items[..|items| - 1];
      FrontUniform(items, field);
      SortByOrdered(front, field, desc);
      var sortedFront := SortBy(front, field, desc);
      MembersOfFront(sortedFront, items);
      InsertOrdered(field, desc, items[|items| - 1], sortedFront, items);
    }
  }

  lemma FrontUniform(items: seq<Record>, field: string)
    requires |items| > 0 && UniformField(items, field)
    ensures UniformField(items[..|items| - 1], field)
  {
    var front := items[..|items| - 1];
    assert forall i :: 0 <= i < |front| ==> front[i] == items[i];
  }

  lemma MembersOfFront(s: seq<Record>, items: seq<Record>)
    requires |items| > 0 && forall k :: 0 <= k < |s| ==> s[k] in items[..|items| - 1]
    ensures forall k :: 0 <= k < |s| ==> s[k] in items
  {
    forall k | 0 <= k < |s|
      ensures s[k] in items
    {
      var i :| 0 <= i < |items| - 1 && items[..|items| - 1][i] == s[k];
      assert items[i] == s[k];
    }
  }

  /** `sortBy` names a descending sort when it starts with `-`. */
  predicate IsDescending(sortBy: string) {
    |sortBy| > 0 && sortBy[0] == '-'
  }

  /** The field `sortBy` names: `sortBy.substring(1)` when descending. */
  function SortField(sortBy: string): string {
    if IsDescending(sortBy) then sortBy[1..] else sortBy
  }

  /** The result of `list(sortBy)` on the stored list. */
  function Listed(items: seq<Record>, sortBy: string): (r: seq<Record>)
    ensures sortBy == "" ==> r == items
    ensures multiset(r) == multiset(items)
  {
    if sortBy == "" then items else SortBy(items, SortField(sortBy), IsDescending(sortBy))
  }

  /** When the named field holds strings throughout or numbers throughout,
      `list(sortBy)` returns the items in that field's order, ascending or,
      with a leading `-`, descending. */
  lemma ListedOrdered(items: seq<Record>, sortBy: string)
    requires sortBy != "" && UniformField(items, SortField(sortBy))
    ensures Ordered(SortField(sortBy), IsDescending(sortBy), Listed(items, sortBy))
  {
    SortByOrdered(items, SortField(sortBy), IsDescending(sortBy));
  }

  // ------------------------------------------------------------ the handler

  /** One entity kind's handler (`createEntityHandler(key)`) over its
      storage entry. */
  class EntityTable {
    const key: string
    var stored: Stored

    constructor(key: string, stored: Stored)
      ensures this.key == key && this.stored == stored
    {
      this.key := key;
      this.stored := stored;
    }

    /** The list `getFromStorage(key)` reads. */
    function Contents(): seq<Record>
      reads this
    {
      GetFromStorage(stored)
    }

    /** `list(sortBy)`. */
    method List(sortBy: string) returns (items: seq<Record>)
      ensures items == Listed(Contents(), sortBy)
      ensures sortBy == "" ==> items == Contents()
      ensures multiset(items) == multiset(Contents())
    {
      items := GetFromStorage(stored);
      if sortBy != "" {
        items := SortBy(items, SortField(sortBy), IsDescending(sortBy));
      }
    }

    /** `get(id)`: the first item with that id, or `undefined`. */
    method Get(id: string) returns (item: Option<Record>)
      ensures item.None? <==> forall i :: 0 <= i < |Contents()| ==> !HasId(Contents()[i], id)
      ensures item.Some? ==> exists k :: (0 <= k < |Contents()| && Contents()[k] == item.value
        && HasId(item.value, id) && forall j :: 0 <= j < k ==> !HasId(Contents()[j], id))
    {
      var items := GetFromStorage(stored);
      var p := (r: Record) => HasId(r, id);
      item := FirstWhere(items, p);
      assert items == Contents();
      assert forall i :: 0 <= i < |items| ==> p(items[i]) == HasId(items[i], id);
    }

    /** `create(data)`. */
    method Create(data: Record, generatedId: string, now: string) returns (item: Record)
      modifies this
      ensures item == NewItem(data, generatedId, now)
      ensures stored == Items(old(Contents()) + [item])
      ensures Contents() == old(Contents()) + [item]
    {
      var items := GetFromStorage(stored);
      item := NewItem(data, generatedId, now);
      stored := Items(items + [item]);
    }

    /** `update(id, data)`. */
    method Update(id: string, data: Record, now: string) returns (r: Result<Record, string>)
      modifies this
      ensures r.Err? <==> forall i :: 0 <= i < |old(Contents())| ==> !HasId(old(Contents())[i], id)
      ensures r.Err? ==> r.error == "Item with id " + id + " not found" && unchanged(this)
      ensures r.Ok? ==> var i := FindIndex(old(Contents()), (x: Record) => HasId(x, id));
        && 0 <= i < |old(Contents())|
        && r.value == MergedItem(old(Contents())[i], data, now)
        && stored == Items(old(Contents())[i := r.value])
    {
      var items := GetFromStorage(stored);
      var p := (x: Record) => HasId(x, id);
      var index := FindIndex(items, p);
      assert items == Contents();
      assert forall i :: 0 <= i < |items| ==> p(items[i]) == HasId(items[i], id);
      if index == -1 {
        return Err("Item with id " + id + " not found");
      }
      var updated := MergedItem(items[index], data, now);
      stored := Items(items[index := updated]);
      r := Ok(updated);
    }

    /** `delete(id)`: always succeeds. */
    method Delete(id: string) returns (success: bool)
      modifies this
      ensures success
      ensures stored == Items(Filter(old(Contents()), (x: Record) => !HasId(x, id)))
      ensures forall x :: x in Contents() <==> x in old(Contents()) && !HasId(x, id)
    {
      stored := Items(Filter(GetFromStorage(stored), (x: Record) => !HasId(x, id)));
      success := true;
    }
  }

  /** The sample tasks `loadInitialData` creates. */
  function SampleTasks(): (r: seq<Record>)
    ensures |r| == 3
  {
    [ SampleTask("経費精算書の提出", "11月分の出張経費をまとめて提出", "pending", "high",
                 "経費申請", "2025-11-10", "山田太郎", "領収書はすべて添付済み"),
      SampleTask("新規取引先との契約書確認", "法務部の確認を経て社長承認待ち", "preparation", "urgent",
                 "契約稟議", "2025-11-08", "社長", "重要案件"),
      SampleTask("年末休暇申請", "12/28-1/5の休暇申請", "approved", "medium",
                 "休暇申請", "2025-11-15", "鈴木花子", "") ]
  }

  function SampleTask(title: string, description: string, status: string, priority: string,
                      category: string, dueDate: string, approver: string, memo: string): Record {
    map["title" := Str(title), "description" := Str(description), "status" := Str(status),
        "priority" := Str(priority), "category" := Str(category), "due_date" := Str(dueDate),
        "approver" := Str(approver), "memo" := Str(memo), "comments" := Arr([]), "attachments" := Arr([])]
  }

  /** The client: one handler per entity kind. */
  class MockBase44 {
    const tasks: EntityTable
    const templates: EntityTable
    const googleAccounts: EntityTable
    const googleCalendars: EntityTable

    constructor(taskStore: Stored, templateStore: Stored, accountStore: Stored, calendarStore: Stored)
      ensures tasks.key == "tasks" && templates.key == "templates"
      ensures googleAccounts.key == "googleAccounts" && googleCalendars.key == "googleCalendars"
      ensures tasks.stored == taskStore && templates.stored == templateStore
      ensures googleAccounts.stored == accountStore && googleCalendars.stored == calendarStore
      ensures fresh(tasks) && fresh(templates) && fresh(googleAccounts) && fresh(googleCalendars)
    {
      tasks := new EntityTable("tasks", taskStore);
      templates := new EntityTable("templates", templateStore);
      googleAccounts := new EntityTable("googleAccounts", accountStore);
      googleCalendars := new EntityTable("googleCalendars", calendarStore);
    }

    /** `loadInitialData()`: the three sample tasks are created, in order,
        only when the task list reads as empty. */
    method LoadInitialData(ids: seq<string>, now: string)
      requires |ids| == 3
      modifies tasks
      ensures old(tasks.Contents()) == [] ==>
        tasks.Contents() == seq(3, i requires 0 <= i < 3 => NewItem(SampleTasks()[i], ids[i], now))
      ensures old(tasks.Contents()) != [] ==> unchanged(tasks)
    {
      var existing := tasks.List("");
      if |existing| == 0 {
        CreateEach(tasks, SampleTasks(), ids, now);
      }
    }
  }

  /** `items.forEach(data => table.create(data))`, the `i`-th item
      getting the `i`-th generated id. */
  method CreateEach(table: EntityTable, items: seq<Record>, ids: seq<string>, now: string)
    requires |ids| == |items|
    modifies table
    ensures table.Contents() == old(table.Contents()) + seq(|items|, i requires 0 <= i < |items| => NewItem(items[i], ids[i], now))
  {
    var k := 0;
    while k < |items|
      invariant 0 <= k <= |items|
      invariant table.Contents() == old(table.Contents()) + seq(k, i requires 0 <= i < k => NewItem(items[i], ids[i], now))
    {
      var created := table.Create(items[k], ids[k], now);
      k := k + 1;
    }
  }
}
