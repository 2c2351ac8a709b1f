/**
 * lambda/task/read_task.go: the materializer (group rows by id, fold each
 * row into its task), the id de-duplication of a reverse lookup, and the
 * read handlers built from them.
 */
module TaskRead {
  import opened TaskModel
  import opened Store
  import opened Events
  import opened TaskUpdate

  // ---------------------------------------------------------------------
  // Specification of the materializer
  // ---------------------------------------------------------------------

  /**
   * The map the grouping loops build from `rows`: one task per id, created
   * on first sight as `&Task{ID: id}`, each row folded in with `ApplyField`.
   */
  function Materialize(rows: seq<Row>): map<string, Task>
    decreases |rows|
  {
    if rows == [] then map[]
    else
      var m := Materialize(rows[..|rows| - 1]);
      var r := rows[|rows| - 1];
      var t := if r.id in m then m[r.id] else NewTask(r.id);
      m[r.id := ApplyField(t, r.dataType, r.dataValue)]
  }

  predicate Matches(r: Row, id: string, dataType: string)
  {
    r.id == id && r.dataType == dataType
  }

  /** The value of the last row of type `dataType` for `id`, or "" when there is none. */
  function LastValue(rows: seq<Row>, id: string, dataType: string): string
    decreases |rows|
  {
    if rows == [] then ""
    else if Matches(rows[|rows| - 1], id, dataType) then rows[|rows| - 1].dataValue
    else LastValue(rows[..|rows| - 1], id, dataType)
  }

  /** With no row of type `dataType` for `id`, the field stays "". */
  lemma {:induction false} LastValueOfNone(rows: seq<Row>, id: string, dataType: string)
    requires forall i :: 0 <= i < |rows| ==> !Matches(rows[i], id, dataType)
    ensures LastValue(rows, id, dataType) == ""
    decreases |rows|
  {
    if rows != [] {
      var p := rows[..|rows| - 1];
      assert forall i :: 0 <= i < |p| ==> p[i] == rows[i];
      LastValueOfNone(p, id, dataType);
    }
  }

  /** Otherwise it is the value of the matching row that no later row matches. */
  lemma {:induction false} LastValueOfLastMatch(rows: seq<Row>, id: string, dataType: string, i: nat)
    requires i < |rows| && Matches(rows[i], id, dataType)
    requires forall j :: i < j < |rows| ==> !Matches(rows[j], id, dataType)
    ensures LastValue(rows, id, dataType) == rows[i].dataValue
    decreases |rows|
  {
    var n := |rows| - 1;
    if i < n {
      var p := rows[..n];
      assert p[i] == rows[i];
      assert forall j :: i < j < n ==> p[j] == rows[j];
      LastValueOfLastMatch(p, id, dataType, i);
    }
  }

  /** The values of the Tags rows for `id`, in input order, duplicates kept. */
  function TagsOf(rows: seq<Row>, id: string): (tags: seq<string>)
    decreases |rows|
  {
    if rows == [] then []
    else
      var r := rows[|rows| - 1];
      TagsOf(rows[..|rows| - 1], id) + (if Matches(r, id, "Tags") then [r.dataValue] else [])
  }

  /** The task for `id` described field by field, independently of the fold. */
  function Expected(rows: seq<Row>, id: string): Task
  {
    Task(id, LastValue(rows, id, "Title"), LastValue(rows, id, "Description"),
         LastValue(rows, id, "Status"), TagsOf(rows, id), "", "")
  }

  lemma IdsOfSnoc(p: seq<Row>, r: Row)
    ensures IdsOf(p + [r]) == IdsOf(p) + {r.id}
  {
    assert forall x :: x in p + [r] <==> x in p || x == r;
  }

  /** Tags of concatenated row sequences are the concatenated tags: rows keep their order. */
  lemma {:induction false} TagsOfConcat(a: seq<Row>, b: seq<Row>, id: string)
    ensures TagsOf(a + b, id) == TagsOf(a, id) + TagsOf(b, id)
    decreases |b|
  {
    if b == [] {
      assert a + b == a;
    } else {
      var b' := b[..|b| - 1];
      assert (a + b)[..|a + b| - 1] == a + b';
      assert (a + b)[|a + b| - 1] == b[|b| - 1];
      TagsOfConcat(a, b', id);
    }
  }

  /** With no Tags row for `id`, the task has no tags. */
  lemma {:induction false} TagsOfNone(rows: seq<Row>, id: string)
    requires forall i :: 0 <= i < |rows| ==> !Matches(rows[i], id, "Tags")
    ensures TagsOf(rows, id) == []
    decreases |rows|
  {
    if rows != [] {
      TagsOfNone(rows[..|rows| - 1], id);
    }
  }

  /** An id with no rows materializes, were it created, as the zero task. */
  lemma {:induction false} ExpectedOfAbsentId(rows: seq<Row>, id: string)
    requires id !in IdsOf(rows)
    ensures Expected(rows, id) == NewTask(id)
    decreases |rows|
  {
    if rows != [] {
      var p, r := rows[..|rows| - 1], rows[|rows| - 1];
      assert rows == p + [r];
      IdsOfSnoc(p, r);
      ExpectedOfAbsentId(p, id);
    }
  }

  /** One more row changes the expected task of its own id as `ApplyField` does, and no other. */
  lemma ExpectedSnoc(p: seq<Row>, r: Row, id: string)
    ensures Expected(p + [r], id)
            == if id == r.id then ApplyField(Expected(p, id), r.dataType, r.dataValue) else Expected(p, id)
  {
    var rows := p + [r];
    assert rows[..|rows| - 1] == p;
    assert rows[|rows| - 1] == r;
  }

  /**
   * The materializer yields exactly one task per distinct row id and no other key;
   * each task has its key as ID, the last Title/Description/Status row's value
   * (or "") in those fields, and the Tags rows' values in input order.
   */
  lemma {:induction false} MaterializeCharacterized(rows: seq<Row>)
    ensures Materialize(rows).Keys == IdsOf(rows)
    ensures forall id :: id in Materialize(rows) ==> Materialize(rows)[id] == Expected(rows, id)
    decreases |rows|
  {
    if rows != [] {
      var p, r := rows[..|rows| - 1], rows[|rows| - 1];
      assert rows == p + [r];
      MaterializeCharacterized(p);
      IdsOfSnoc(p, r);
      var m := Materialize(p);
      assert Materialize(rows) == m[r.id := ApplyField(if r.id in m then m[r.id] else NewTask(r.id), r.dataType, r.dataValue)];
      forall id | id in Materialize(rows)
        ensures Materialize(rows)[id] == Expected(rows, id)
      {
        ExpectedSnoc(p, r, id);
        if id == r.id && id !in m {
          ExpectedOfAbsentId(p, id);
        }
      }
    }
  }

  /** The fold one row further: how the loops' invariant advances. */
  lemma MaterializeSnoc(rows: seq<Row>, i: nat)
    requires i < |rows|
    ensures var m, r := Materialize(rows[..i]), rows[i];
      Materialize(rows[..i + 1])
      == m[r.id := ApplyField(if r.id in m then m[r.id] else NewTask(r.id), r.dataType, r.dataValue)]
  {
    assert rows[..i + 1][..i] == rows[..i];
  }

  /** Every task's ID equals its key. */
  lemma MaterializedIdsMatchKeys(rows: seq<Row>)
    ensures forall id :: id in Materialize(rows) ==> Materialize(rows)[id].id == id
  {
    MaterializeCharacterized(rows);
  }

  /**
   * The rows of the fetch-by-id test: two ids with a Title and a Description row each
   * give two tasks, each holding only its own id's values.
   */
  lemma FetchByIdTestRows()
    ensures Materialize([Row("1", "Title", "Task Title"), Row("1", "Description", "Description of the task1"),
                         Row("2", "Title", "Task Title"), Row("2", "Description", "Description of the task2")])
            == map["1" := Task("1", "Task Title", "Description of the task1", "", [], "", ""),
                   "2" := Task("2", "Task Title", "Description of the task2", "", [], "", "")]
  {
    var rows := [Row("1", "Title", "Task Title"), Row("1", "Description", "Description of the task1"),
                 Row("2", "Title", "Task Title"), Row("2", "Description", "Description of the task2")];
    MaterializeSnoc(rows, 0);
    assert rows[..0] == [];
    assert Materialize(rows[..1]) == map["1" := Task("1", "Task Title", "", "", [], "", "")];
    MaterializeSnoc(rows, 1);
    assert Materialize(rows[..2]) == map["1" := Task("1", "Task Title", "Description of the task1", "", [], "", "")];
    MaterializeSnoc(rows, 2);
    MaterializeSnoc(rows, 3);
    assert rows[..4] == rows;
  }

  /**
   * `tasks` lists the map `m`: one entry per map entry, each entry being the map's
   * task for its own ID.
   */
  ghost predicate ListsMap(tasks: seq<Task>, m: map<string, Task>)
  {
    && |tasks| == |m|
    && (set t | t in tasks :: t.id) == m.Keys
    && forall t :: t in tasks ==> t.id in m && m[t.id] == t
  }

  lemma ListedFromKeys(tasks: seq<Task>, keys: seq<string>, m: map<string, Task>)
    requires |tasks| == |keys| == |m|
    requires (set k | k in keys) == m.Keys
    requires forall i :: 0 <= i < |tasks| ==> keys[i] in m && tasks[i] == m[keys[i]]
    requires forall k :: k in m ==> m[k].id == k
    ensures ListsMap(tasks, m)
  {
    forall k | k in m.Keys ensures k in (set t | t in tasks :: t.id) {
      var i :| 0 <= i < |keys| && keys[i] == k;
      assert tasks[i] in tasks;
    }
  }

  // ---------------------------------------------------------------------
  // The loops
  // ---------------------------------------------------------------------

  /**
   * The grouping loop of `GetTaskById`: creates `&Task{ID: id}` on first sight of
   * an id and folds every row into its task with `UpdateTaskField`.
   */
  method GroupRows(rows: seq<Row>) returns (taskMap: map<string, TaskRecord>)
    ensures taskMap.Keys == Materialize(rows).Keys
    ensures forall id :: id in taskMap ==> taskMap[id].Value() == Materialize(rows)[id]
  {
    taskMap := map[];
    for i := 0 to |rows|
      invariant forall id :: id in taskMap <==> id in Materialize(rows[..i])
      invariant forall id :: id in taskMap ==> fresh(taskMap[id])
      invariant forall a, b :: a in taskMap && b in taskMap && a != b ==> taskMap[a] != taskMap[b]
      invariant forall id :: id in taskMap ==> taskMap[id].Value() == Materialize(rows[..i])[id]
    {
      var row := rows[i];
      if row.id !in taskMap {
        var created := new TaskRecord(row.id);
        taskMap := taskMap[row.id := created];
      }
      var task := taskMap[row.id];
      UpdateTaskField(task, row.dataType, row.dataValue);
      MaterializeSnoc(rows, i);
    }
    assert rows[..|rows|] == rows;
  }

  /**
   * The grouping loop of `GetTasksByTaskIds`, with the switch of `UpdateTaskField`
   * written out on the task's fields; it builds the same map.
   */
  method GroupRowsInline(rows: seq<Row>) returns (taskMap: map<string, TaskRecord>)
    ensures taskMap.Keys == Materialize(rows).Keys
    ensures forall id :: id in taskMap ==> taskMap[id].Value() == Materialize(rows)[id]
  {
    taskMap := map[];
    ghost var model: map<string, Task> := map[];
    for i := 0 to |rows|
      invariant model == Materialize(rows[..i])
      invariant forall id :: id in taskMap <==> id in model
      invariant forall id :: id in taskMap ==> fresh(taskMap[id])
      invariant forall a, b :: a in taskMap && b in taskMap && a != b ==> taskMap[a] != taskMap[b]
      invariant forall id :: id in taskMap ==> taskMap[id].Value() == model[id]
    {
      var row := rows[i];
      if row.id !in taskMap {
        var created := new TaskRecord(row.id);
        taskMap := taskMap[row.id := created];
      }
      var task := taskMap[row.id];
      ghost var before := task.Value();
      match row.dataType {
        case "Title" => task.title := row.dataValue;
        case "Description" => task.description := row.dataValue;
        case "Status" => task.status := row.dataValue;
        case "Tags" => task.tags := task.tags + [row.dataValue];
        case _ =>
      }
      assert task.Value() == ApplyField(before, row.dataType, row.dataValue);
      MaterializeSnoc(rows, i);
      model := model[row.id := ApplyField(before, row.dataType, row.dataValue)];
    }
    assert rows[..|rows|] == rows;
  }

  /**
   * The loop over the map's entries that appends a copy of each pointed-to task to the
   * output list, in the map's (unspecified) iteration order, given by `keys`.
   */
  method Flatten(taskMap: map<string, TaskRecord>) returns (tasks: seq<Task>, ghost keys: seq<string>)
    ensures |tasks| == |taskMap|
    ensures |keys| == |tasks|
    ensures (set k | k in keys) == taskMap.Keys
    ensures forall i :: 0 <= i < |tasks| ==> keys[i] in taskMap && tasks[i] == taskMap[keys[i]].Value()
  {
    tasks, keys := [], [];
    var rest := taskMap.Keys;
    while rest != {}
      invariant rest <= taskMap.Keys
      invariant |tasks| == |keys|
      invariant forall k :: k in taskMap ==> (k in keys <==> k !in rest)
      invariant |keys| + |rest| == |taskMap.Keys|
      invariant forall i :: 0 <= i < |tasks| ==> keys[i] in taskMap && tasks[i] == taskMap[keys[i]].Value()
      decreases |rest|
    {
      var k :| k in rest;
      tasks := tasks + [taskMap[k].Value()];
      keys := keys + [k];
      rest := rest - {k};
    }
    assert |taskMap.Keys| == |taskMap|;
  }

  /**
   * The id collection of a reverse lookup: `idsMap` marks every item's id, and
   * `ids` lists its keys. No duplicates, exactly the items' ids; no items, no ids.
   */
  method CollectIds(items: seq<Row>) returns (ids: seq<string>)
    ensures NoDuplicates(ids)
    ensures (set x | x in ids) == IdsOf(items)
    ensures |ids| == |IdsOf(items)|
    ensures items == [] ==> ids == []
  {
    var idsMap: map<string, bool> := map[];
    for i := 0 to |items|
      invariant idsMap.Keys == IdsOf(items[..i])
    {
      var id := items[i].id;
      if id !in idsMap {
        idsMap := idsMap[id := true];
      }
      assert items[..i + 1] == items[..i] + [items[i]];
      IdsOfSnoc(items[..i], items[i]);
    }
    assert items[..|items|] == items;
    ids := [];
    var rest := idsMap.Keys;
    while rest != {}
      invariant rest <= idsMap.Keys
      invariant NoDuplicates(ids)
      invariant forall x :: x in ids <==> x in idsMap && x !in rest
      invariant |ids| + |rest| == |idsMap.Keys|
      decreases |rest|
    {
      var id :| id in rest;
      ids := ids + [id];
      rest := rest - {id};
    }
  }

  // ---------------------------------------------------------------------
  // The handlers
  // ---------------------------------------------------------------------

  /** What a fetch by id answers: the query's failure, or the listing of its rows' tasks. */
  ghost predicate FetchedById(id: string, svc: Svc, h: Handled)
  {
    && h.calls == [QueryById(id)]
    && match svc.query
       case Err(e) => h.outcome == Plain(StatusInternalServerError, "Query failed: " + e)
       case Ok(rows) =>
         && h.outcome.Returned? && h.outcome.error == None
         && h.outcome.response.statusCode == StatusOK
         && h.outcome.response.body.TaskList?
         && ListsMap(h.outcome.response.body.tasks, Materialize(rows))
  }

  /** `GetTaskById(id)`: query the rows of `id`, group them, list the tasks. */
  method GetTaskById(id: string, svc: Svc) returns (h: Handled)
    ensures FetchedById(id, svc, h)
  {
    var calls := [QueryById(id)];
    match svc.query {
      case Err(e) =>
        h := Handled(calls, Plain(StatusInternalServerError, "Query failed: " + e));
      case Ok(rows) =>
        var taskMap := GroupRows(rows);
        var tasks;
        ghost var keys;
        tasks, keys := Flatten(taskMap);
        MaterializedIdsMatchKeys(rows);
        ListedFromKeys(tasks, keys, Materialize(rows));
        h := Handled(calls, Returned(Response(StatusOK, TaskList(tasks)), None));
    }
  }

  /**
   * `GetTasksByTaskIds(ids)`: one batch fetch of the keys `{"id": id}`, in the order of
   * `ids`; its failure is returned as the error, otherwise the grouped tasks.
   */
  method GetTasksByTaskIds(ids: seq<string>, svc: Svc)
    returns (calls: seq<Call>, result: Reply<map<string, TaskRecord>>)
    ensures calls == [BatchGet(ids)]
    ensures svc.batchGet.Err? ==> result == Err(svc.batchGet.message)
    ensures svc.batchGet.Ok? ==>
      && result.Ok?
      && result.value.Keys == Materialize(svc.batchGet.value).Keys
      && forall id :: id in result.value ==> result.value[id].Value() == Materialize(svc.batchGet.value)[id]
  {
    calls := [BatchGet(ids)];
    match svc.batchGet {
      case Err(e) =>
        result := Err(e);
      case Ok(rows) =>
        var taskMap := GroupRowsInline(rows);
        result := Ok(taskMap);
    }
  }

  /** The body of a 500 answer when the batch fetch fails. */
  datatype FetchFailureText = Fixed(text: string) | WithError(prefix: string)

  function FailureText(f: FetchFailureText, e: string): string
  {
    match f
    case Fixed(text) => text
    case WithError(prefix) => prefix + e
  }

  /**
   * What a reverse lookup by `(dataType, value)` answers: it queries the index with
   * exactly that pair; on failure it answers 500; otherwise it batch-fetches a
   * duplicate-free list of exactly the matched ids and, unless that fails, lists the
   * tasks materialized from the fetched rows.
   */
  ghost predicate Answered(dataType: string, value: string, failure: FetchFailureText, svc: Svc, h: Handled)
  {
    && |h.calls| >= 1
    && h.calls[0] == QueryIndex(IndexName, dataType, value)
    && match svc.query
       case Err(e) =>
         && |h.calls| == 1
         && h.outcome == Plain(StatusInternalServerError, "Query failed: " + e)
       case Ok(items) =>
         && |h.calls| == 2
         && h.calls[1].BatchGet?
         && NoDuplicates(h.calls[1].ids)
         && (set x | x in h.calls[1].ids) == IdsOf(items)
         && |h.calls[1].ids| == |IdsOf(items)|
         && match svc.batchGet
            case Err(e) => h.outcome == Plain(StatusInternalServerError, FailureText(failure, e))
            case Ok(rows) =>
              && h.outcome.Returned? && h.outcome.error == None
              && h.outcome.response.statusCode == StatusOK
              && h.outcome.response.body.TaskList?
              && ListsMap(h.outcome.response.body.tasks, Materialize(rows))
  }

  /**
   * A lookup matching no index item still issues the batch fetch, with no keys; when
   * that fetch returns no rows the answer is 200 with an empty list, not an error.
   */
  lemma EmptyLookupAnswersEmptyList(dataType: string, value: string, failure: FetchFailureText, svc: Svc, h: Handled)
    requires svc.query == Ok([]) && svc.batchGet == Ok([])
    requires Answered(dataType, value, failure, svc, h)
    ensures h.calls == [QueryIndex(IndexName, dataType, value), BatchGet([])]
    ensures h.outcome == Returned(Response(StatusOK, TaskList([])), None)
  {
    assert IdsOf([]) == {};
    assert h.calls == [h.calls[0], h.calls[1]];
    var tasks := h.outcome.response.body.tasks;
    assert |tasks| == |Materialize([])| == 0;
  }

  /**
   * The five steps shared by every reverse lookup: query the index, collect the
   * distinct ids, batch-fetch them, materialize, list.
   */
  method ResolveByAttribute(dataType: string, value: string, failure: FetchFailureText, svc: Svc)
    returns (h: Handled)
    ensures Answered(dataType, value, failure, svc, h)
  {
    var queryCall := QueryIndex(IndexName, dataType, value);
    match svc.query {
      case Err(e) =>
        h := Handled([queryCall], Plain(StatusInternalServerError, "Query failed: " + e));
      case Ok(items) =>
        var ids := CollectIds(items);
        var batchCalls, result := GetTasksByTaskIds(ids, svc);
        match result {
          case Err(e) =>
            h := Handled([queryCall] + batchCalls, Plain(StatusInternalServerError, FailureText(failure, e)));
          case Ok(taskMap) =>
            var tasks;
            ghost var keys;
            tasks, keys := Flatten(taskMap);
            MaterializedIdsMatchKeys(svc.batchGet.value);
            ListedFromKeys(tasks, keys, Materialize(svc.batchGet.value));
            h := Handled([queryCall] + batchCalls, Returned(Response(StatusOK, TaskList(tasks)), None));
        }
    }
  }

  /**
   * `GetTasksByAttribute(request, attributeKey, attributeValue)`: looks up
   * `(attributeKey, QueryStringParameters[attributeKey])`; `attributeValue` is unused.
   */
  method GetTasksByAttribute(request: Request, attributeKey: string, attributeValue: string, svc: Svc)
    returns (h: Handled)
    ensures Answered(attributeKey, Param(request.queryStringParameters, attributeKey),
                     Fixed("Failed to retrieve tasks by " + attributeKey), svc, h)
  {
    var value := Param(request.queryStringParameters, attributeKey);
    h := ResolveByAttribute(attributeKey, value, Fixed("Failed to retrieve tasks by " + attributeKey), svc);
  }

  /** `GetTasksByTag(request)`: looks up `("Tags", QueryStringParameters["tag"])`. */
  method GetTasksByTag(request: Request, svc: Svc) returns (h: Handled)
    ensures Answered("Tags", Param(request.queryStringParameters, "tag"),
                     WithError("Failed to retrieve tasks by IDs: "), svc, h)
  {
    var tag := Param(request.queryStringParameters, "tag");
    h := ResolveByAttribute("Tags", tag, WithError("Failed to retrieve tasks by IDs: "), svc);
  }
}
