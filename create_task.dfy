/**
 * lambda/task/create_task.go: adding a tag to a task, and creating a task
 * from a decoded request body, where exactly one `(DataType, DataValue)`
 * attribute is chosen for the item.
 */
module TaskCreate {
  import opened TaskModel
  import opened Store
  import opened Events

  // ---------------------------------------------------------------------
  // AddTagToTask
  // ---------------------------------------------------------------------

  /**
   * The update `AddTagToTask` sends: on `(id, "Tags")`, ADD the one-element set `{tag}`.
   * The store accepts it exactly when that item is absent or holds a string set.
   */
  function AddTagInput(request: Request): (r: UpdateInput)
    ensures r.key == Key(Param(request.queryStringParameters, "id"), "Tags")
    ensures forall t: Table :: ApplyUpdate(t, r).Some? <==> HoldsSet(Lookup(t, r.key))
  {
    var q := request.queryStringParameters;
    var r := UpdateInput(Key(Param(q, "id"), "Tags"), [AddToSet({Param(q, "tag")})]);
    OneClauseUpdate(r);
    r
  }

  /**
   * `AddTagToTask(request)`: exactly one UpdateItem call, with `AddTagInput`; 200 "Tag
   * added to task successfully" when it succeeds, otherwise 500 with the error text,
   * never with a Go error.
   */
  function AddTagToTask(request: Request, svc: Svc): (h: Handled)
    ensures h.calls == [UpdateItem(AddTagInput(request))]
    ensures h.outcome.Returned? && h.outcome.error == None
    ensures h.outcome.response.statusCode == StatusOK <==> svc.updateItem.Ok?
    ensures svc.updateItem.Err? ==>
              h.outcome.response == Response(StatusInternalServerError,
                                             Text("Failed to add tag to task: " + svc.updateItem.message))
    ensures svc.updateItem.Ok? ==> h.outcome.response.body == Text("Tag added to task successfully")
  {
    var calls := [UpdateItem(AddTagInput(request))];
    match svc.updateItem
    case Err(e) => Handled(calls, Plain(StatusInternalServerError, "Failed to add tag to task: " + e))
    case Ok(_) => Handled(calls, Plain(StatusOK, "Tag added to task successfully"))
  }

  /**
   * In the set model the update turns the tag set `S` into `S + {tag}`, creating the
   * set when the item is absent, and touches no other item.
   */
  lemma AddTagEffect(request: Request, t: Table)
    requires HoldsSet(Lookup(t, AddTagInput(request).key))
    ensures var u := AddTagInput(request);
      var tag := Param(request.queryStringParameters, "tag");
      && ApplyUpdate(t, u) == Some(t[u.key := StrSet(Members(Lookup(t, u.key)) + {tag})])
      && tag in Members(Lookup(ApplyUpdate(t, u).value, u.key))
  {
    var u := AddTagInput(request);
    var s := Members(Lookup(t, u.key));
    var tag := Param(request.queryStringParameters, "tag");
    if Lookup(t, u.key).Absent? {
      assert {} + {tag} == {tag};
    }
    assert ApplyAction(Lookup(t, u.key), u.actions[0]) == Some(StrSet(s + {tag}));
    assert u.actions[1..] == [];
    assert ApplyActions(Lookup(t, u.key), u.actions) == Some(StrSet(s + {tag}));
  }

  /** Adding the same tag twice leaves the table as adding it once. */
  lemma AddTagIdempotent(request: Request, t: Table)
    requires HoldsSet(Lookup(t, AddTagInput(request).key))
    ensures ApplyUpdate(t, AddTagInput(request)).Some?
    ensures ApplyUpdate(ApplyUpdate(t, AddTagInput(request)).value, AddTagInput(request))
            == ApplyUpdate(t, AddTagInput(request))
  {
    var u := AddTagInput(request);
    var tag := Param(request.queryStringParameters, "tag");
    AddTagEffect(request, t);
    var t1 := ApplyUpdate(t, u).value;
    AddTagEffect(request, t1);
    var s := Members(Lookup(t, u.key));
    assert Members(Lookup(t1, u.key)) == s + {tag};
    assert (s + {tag}) + {tag} == s + {tag};
    assert t1[u.key := StrSet(s + {tag})] == t1;
  }

  /** An ADD on a key that holds a plain string is refused by the store. */
  lemma AddTagOnStringRejected(request: Request, t: Table)
    requires Lookup(t, AddTagInput(request).key).Str?
    ensures ApplyUpdate(t, AddTagInput(request)) == None
  {
    var u := AddTagInput(request);
    assert ApplyAction(Lookup(t, u.key), u.actions[0]) == None;
  }

  // ---------------------------------------------------------------------
  // CreateTask
  // ---------------------------------------------------------------------

  /**
   * The item `CreateTask` builds from the decoded body: the first non-empty field in
   * the order Title, Status, Description, Tags becomes `(DataType, DataValue)`, the
   * tags through their JSON encoding `encodeTags`; with none, the body's own pair is kept.
   * Only `DataType` and `DataValue` are assigned: every field the body carried is kept.
   */
  function ChooseDataAttribute(t: Task, encodeTags: seq<string> -> string): (r: Task)
    ensures r.(dataType := t.dataType, dataValue := t.dataValue) == t
  {
    if t.title != "" then t.(dataType := "Title", dataValue := t.title)
    else if t.status != "" then t.(dataType := "Status", dataValue := t.status)
    else if t.description != "" then t.(dataType := "Description", dataValue := t.description)
    else if |t.tags| > 0 then t.(dataType := "Tags", dataValue := encodeTags(t.tags))
    else t
  }

  /** A non-empty Title wins, whatever the other fields hold. */
  lemma TitleWins(t: Task, encodeTags: seq<string> -> string)
    requires t.title != ""
    ensures ChooseDataAttribute(t, encodeTags).dataType == "Title"
    ensures ChooseDataAttribute(t, encodeTags).dataValue == t.title
  {
  }

  /** With Title empty, a non-empty Status wins over Description and Tags. */
  lemma StatusWinsWithoutTitle(t: Task, encodeTags: seq<string> -> string)
    requires t.title == "" && t.status != ""
    ensures ChooseDataAttribute(t, encodeTags).dataType == "Status"
    ensures ChooseDataAttribute(t, encodeTags).dataValue == t.status
  {
  }

  /** With Title and Status empty, a non-empty Description wins over Tags. */
  lemma DescriptionWinsWithoutTitleOrStatus(t: Task, encodeTags: seq<string> -> string)
    requires t.title == "" && t.status == "" && t.description != ""
    ensures ChooseDataAttribute(t, encodeTags).dataType == "Description"
    ensures ChooseDataAttribute(t, encodeTags).dataValue == t.description
  {
  }

  /** When only Tags is set, the pair is `("Tags", encodeTags(tags))`. */
  lemma TagsChosenLast(t: Task, encodeTags: seq<string> -> string)
    requires t.title == "" && t.status == "" && t.description == "" && |t.tags| > 0
    ensures ChooseDataAttribute(t, encodeTags).dataType == "Tags"
    ensures ChooseDataAttribute(t, encodeTags).dataValue == encodeTags(t.tags)
  {
  }

  /** With no field set, the body's own `DataType`/`DataValue` go through untouched. */
  lemma BodyPairKeptWhenNoField(t: Task, encodeTags: seq<string> -> string)
    requires t.title == "" && t.status == "" && t.description == "" && |t.tags| == 0
    ensures ChooseDataAttribute(t, encodeTags) == t
  {
  }

  /**
   * The item lacks a DataType exactly when the body set none of Title, Status,
   * Description, Tags and no DataType of its own.
   */
  lemma MissingDataTypeExactly(t: Task, encodeTags: seq<string> -> string)
    ensures ChooseDataAttribute(t, encodeTags).dataType == ""
            <==> t.title == "" && t.status == "" && t.description == "" && |t.tags| == 0 && t.dataType == ""
  {
  }

  /**
   * What `CreateTask` does with `body`: an undecodable body ends the process; an item
   * without DataType is refused with 400 and an error, storing nothing; otherwise exactly
   * that item is put, and the answer is 201 unless the put fails, which ends the process.
   */
  ghost predicate Created(body: Payload, encodeTags: seq<string> -> string, svc: Svc, h: Handled)
  {
    match body
    case Malformed(e) => h == Handled([], Exited("Failed to unmarshal task from JSON, " + e))
    case Json(t) =>
      var item := ChooseDataAttribute(t, encodeTags);
      if item.dataType == "" then
        h == Handled([], Returned(Response(StatusBadRequest, Text("Missing DataType in the item")),
                                  Some("missing DataType in the item")))
      else
        && h.calls == [PutItem(item)]
        && match svc.putItem
           case Err(e) => h.outcome == Exited("Got error calling PutItem: " + e)
           case Ok(_) => h.outcome == Plain(StatusCreated, "Task created successfully")
  }

  /** `CreateTask(request)`: decode, pick the data attribute on the local struct, validate, put. */
  method CreateTask(body: Payload, encodeTags: seq<string> -> string, svc: Svc) returns (h: Handled)
    ensures Created(body, encodeTags, svc, h)
  {
    match body {
      case Malformed(e) =>
        h := Handled([], Exited("Failed to unmarshal task from JSON, " + e));
      case Json(decoded) =>
        var task := decoded;
        if task.title != "" {
          task := task.(dataType := "Title");
          task := task.(dataValue := task.title);
        } else if task.status != "" {
          task := task.(dataType := "Status");
          task := task.(dataValue := task.status);
        } else if task.description != "" {
          task := task.(dataType := "Description");
          task := task.(dataValue := task.description);
        } else if |task.tags| > 0 {
          task := task.(dataType := "Tags");
          task := task.(dataValue := encodeTags(task.tags));
        }
        if task.dataType == "" {
          h := Handled([], Returned(Response(StatusBadRequest, Text("Missing DataType in the item")),
                                    Some("missing DataType in the item")));
        } else {
          var calls := [PutItem(task)];
          match svc.putItem {
            case Err(e) =>
              h := Handled(calls, Exited("Got error calling PutItem: " + e));
            case Ok(_) =>
              h := Handled(calls, Plain(StatusCreated, "Task created successfully"));
          }
        }
    }
  }

  /**
   * A body carrying only `DataType`/`DataValue` is accepted: that pair is put as given
   * and, when the put succeeds, the answer is 201.
   */
  lemma BodyWithOnlyDataPairAccepted(t: Task, encodeTags: seq<string> -> string, svc: Svc, h: Handled)
    requires t.title == "" && t.status == "" && t.description == "" && |t.tags| == 0 && t.dataType != ""
    requires svc.putItem.Ok?
    requires Created(Json(t), encodeTags, svc, h)
    ensures h.calls == [PutItem(t)]
    ensures h.outcome == Plain(StatusCreated, "Task created successfully")
  {
    BodyPairKeptWhenNoField(t, encodeTags);
  }
}
