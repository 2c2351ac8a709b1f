/**
 * lambda/task/update_task.go: folding one attribute row into a task, and the
 * two update handlers (replace a tag, overwrite a scalar attribute).
 */
module TaskUpdate {
  import opened TaskModel
  import opened Store
  import opened Events

  /** The three single-valued attributes. */
  predicate IsScalar(dataType: string)
  {
    dataType == "Title" || dataType == "Description" || dataType == "Status"
  }

  /** What `UpdateTaskField` does to the struct: the switch on `dataType`, with no default case. */
  function ApplyField(t: Task, dataType: string, dataValue: string): Task
  {
    match dataType
    case "Title" => t.(title := dataValue)
    case "Description" => t.(description := dataValue)
    case "Status" => t.(status := dataValue)
    case "Tags" => t.(tags := t.tags + [dataValue])
    case _ => t
  }

  /** `UpdateTaskField(task, dataType, dataValue)`: updates the pointed-to struct in place. */
  method UpdateTaskField(task: TaskRecord, dataType: string, dataValue: string)
    modifies task
    ensures task.Value() == ApplyField(old(task.Value()), dataType, dataValue)
  {
    if dataType == "Title" {
      task.title := dataValue;
    } else if dataType == "Description" {
      task.description := dataValue;
    } else if dataType == "Status" {
      task.status := dataValue;
    } else if dataType == "Tags" {
      task.tags := task.tags + [dataValue];
    }
  }

  /** A scalar row sets its own field to the row's value and leaves every other field as it was. */
  lemma ScalarRowSetsOnlyItsField(t: Task, dataType: string, v: string)
    requires IsScalar(dataType)
    ensures var r := ApplyField(t, dataType, v);
      && r.id == t.id && r.tags == t.tags && r.dataType == t.dataType && r.dataValue == t.dataValue
      && (if dataType == "Title" then r.title == v else r.title == t.title)
      && (if dataType == "Description" then r.description == v else r.description == t.description)
      && (if dataType == "Status" then r.status == v else r.status == t.status)
  {
  }

  /** A Tags row appends its value: one more tag, the earlier ones untouched, nothing else changed. */
  lemma TagsRowAppends(t: Task, v: string)
    ensures var r := ApplyField(t, "Tags", v);
      && r.tags == t.tags + [v]
      && |r.tags| == |t.tags| + 1
      && r.tags[..|t.tags|] == t.tags
      && r.(tags := t.tags) == t
  {
  }

  /** A row of any other type leaves the task exactly as it was. */
  lemma UnknownRowIgnored(t: Task, dataType: string, v: string)
    requires !IsScalar(dataType) && dataType != "Tags"
    ensures ApplyField(t, dataType, v) == t
  {
  }

  /** Applying a scalar row twice is applying it once. */
  lemma ScalarRowIdempotent(t: Task, dataType: string, v: string)
    requires IsScalar(dataType)
    ensures ApplyField(ApplyField(t, dataType, v), dataType, v) == ApplyField(t, dataType, v)
  {
  }

  /** Two scalar rows for the same field: the later one wins. */
  lemma ScalarLastWriteWins(t: Task, dataType: string, v1: string, v2: string)
    requires IsScalar(dataType)
    ensures ApplyField(ApplyField(t, dataType, v1), dataType, v2) == ApplyField(t, dataType, v2)
  {
  }

  /** Scalar rows for different fields commute. */
  lemma ScalarRowsCommute(t: Task, dt1: string, v1: string, dt2: string, v2: string)
    requires IsScalar(dt1) && IsScalar(dt2) && dt1 != dt2
    ensures ApplyField(ApplyField(t, dt1, v1), dt2, v2) == ApplyField(ApplyField(t, dt2, v2), dt1, v1)
  {
  }

  /**
   * The update `UpdateTagOnTask` sends: on `(id, "Tags")`, DELETE `{old_tag}` then ADD `{new_tag}`.
   * The store accepts it exactly when that item is absent or holds a string set.
   */
  function ReplaceTagInput(request: Request): (r: UpdateInput)
    ensures r.key == Key(Param(request.queryStringParameters, "id"), "Tags")
    ensures forall t: Table :: ApplyUpdate(t, r).Some? <==> HoldsSet(Lookup(t, r.key))
  {
    var q := request.queryStringParameters;
    var r := UpdateInput(Key(Param(q, "id"), "Tags"),
                         [DeleteFromSet({Param(q, "old_tag")}), AddToSet({Param(q, "new_tag")})]);
    SetClausesAcceptedExactlyOnSets(r);
    r
  }

  /**
   * An update made of a DELETE and an ADD of string sets succeeds exactly when the
   * attribute holds a set or nothing.
   */
  lemma SetClausesAcceptedExactlyOnSets(u: UpdateInput)
    requires |u.actions| == 2 && u.actions[0].DeleteFromSet? && u.actions[1].AddToSet?
    ensures forall t: Table :: ApplyUpdate(t, u).Some? <==> HoldsSet(Lookup(t, u.key))
  {
    forall t: Table ensures ApplyActions(Lookup(t, u.key), u.actions).Some? <==> HoldsSet(Lookup(t, u.key)) {
      var c := Lookup(t, u.key);
      assert u.actions[1..][0] == u.actions[1];
      assert u.actions[1..][1..] == [];
      if HoldsSet(c) {
        var c' := ApplyAction(c, u.actions[0]).value;
        assert HoldsSet(c');
        assert ApplyActions(c', u.actions[1..]).Some?;
      }
    }
  }

  /**
   * `UpdateTagOnTask(request)`: exactly one UpdateItem call, with `ReplaceTagInput`;
   * 200 "Tag updated on task successfully" when it succeeds, otherwise 500 with the
   * error text, never with a Go error.
   */
  function UpdateTagOnTask(request: Request, svc: Svc): (h: Handled)
    ensures h.calls == [UpdateItem(ReplaceTagInput(request))]
    ensures h.outcome.Returned? && h.outcome.error == None
    ensures h.outcome.response.statusCode == StatusOK <==> svc.updateItem.Ok?
    ensures svc.updateItem.Err? ==>
              h.outcome.response == Response(StatusInternalServerError,
                                             Text("Failed to update tag on task: " + svc.updateItem.message))
    ensures svc.updateItem.Ok? ==> h.outcome.response.body == Text("Tag updated on task successfully")
  {
    var calls := [UpdateItem(ReplaceTagInput(request))];
    match svc.updateItem
    case Err(e) => Handled(calls, Plain(StatusInternalServerError, "Failed to update tag on task: " + e))
    case Ok(_) => Handled(calls, Plain(StatusOK, "Tag updated on task successfully"))
  }

  /**
   * In the set model the update replaces the tag set `S` by `(S - {old}) + {new}`:
   * `new` is present afterwards and no other item changes.
   */
  lemma {:induction false} ReplaceTagEffect(request: Request, t: Table)
    requires HoldsSet(Lookup(t, ReplaceTagInput(request).key))
    ensures var u := ReplaceTagInput(request);
      var q := request.queryStringParameters;
      var s := Members(Lookup(t, u.key));
      && ApplyUpdate(t, u) == Some(t[u.key := StrSet((s - {Param(q, "old_tag")}) + {Param(q, "new_tag")})])
      && Param(q, "new_tag") in Members(Lookup(ApplyUpdate(t, u).value, u.key))
  {
    var u := ReplaceTagInput(request);
    var q := request.queryStringParameters;
    var s := Members(Lookup(t, u.key));
    var old_tag, new_tag := Param(q, "old_tag"), Param(q, "new_tag");
    var afterDelete := if s - {old_tag} == {} then Absent else StrSet(s - {old_tag});
    assert ApplyAction(Lookup(t, u.key), u.actions[0]) == Some(afterDelete);
    if s - {old_tag} == {} {
      assert (s - {old_tag}) + {new_tag} == {new_tag};
    }
    assert ApplyAction(afterDelete, u.actions[1]) == Some(StrSet((s - {old_tag}) + {new_tag}));
    assert u.actions[1..][0] == u.actions[1];
    assert u.actions[1..][1..] == [];
    assert ApplyActions(afterDelete, u.actions[1..]) == Some(StrSet((s - {old_tag}) + {new_tag}));
    assert ApplyActions(Lookup(t, u.key), u.actions) == Some(StrSet((s - {old_tag}) + {new_tag}));
  }

  /** Replacing the only tag a task has leaves exactly the new tag. */
  lemma ReplaceOnlyTag(request: Request, t: Table)
    requires Lookup(t, ReplaceTagInput(request).key) == StrSet({Param(request.queryStringParameters, "old_tag")})
    ensures var u := ReplaceTagInput(request);
      ApplyUpdate(t, u) == Some(t[u.key := StrSet({Param(request.queryStringParameters, "new_tag")})])
  {
    ReplaceTagEffect(request, t);
    var q := request.queryStringParameters;
    assert ({Param(q, "old_tag")} - {Param(q, "old_tag")}) + {Param(q, "new_tag")} == {Param(q, "new_tag")};
  }

  /**
   * The update `UpdateTaskAttribute` sends: SET on `(id, attributeKey)` to the query
   * parameter NAMED by `attributeValue` (its argument is a parameter name, not the value).
   */
  function SetAttributeInput(request: Request, attributeKey: string, attributeValue: string): (r: UpdateInput)
    ensures r.key == Key(Param(request.queryStringParameters, "id"), attributeKey)
    ensures forall t: Table :: ApplyUpdate(t, r).Some?
  {
    var q := request.queryStringParameters;
    var r := UpdateInput(Key(Param(q, "id"), attributeKey), [SetValue(Param(q, attributeValue))]);
    OneClauseUpdate(r);
    r
  }

  /**
   * `UpdateTaskAttribute(request, attributeKey, attributeValue)`: exactly one UpdateItem
   * call, with `SetAttributeInput`; 200 "<attributeKey> updated on task successfully" when
   * it succeeds, otherwise 500 with the error text, never with a Go error.
   */
  function UpdateTaskAttribute(request: Request, attributeKey: string, attributeValue: string, svc: Svc): (h: Handled)
    ensures h.calls == [UpdateItem(SetAttributeInput(request, attributeKey, attributeValue))]
    ensures h.outcome.Returned? && h.outcome.error == None
    ensures h.outcome.response.statusCode == StatusOK <==> svc.updateItem.Ok?
    ensures svc.updateItem.Err? ==>
              h.outcome.response == Response(StatusInternalServerError,
                                             Text("Failed to update " + attributeKey + " on task: " + svc.updateItem.message))
    ensures svc.updateItem.Ok? ==> h.outcome.response.body == Text(attributeKey + " updated on task successfully")
  {
    var calls := [UpdateItem(SetAttributeInput(request, attributeKey, attributeValue))];
    match svc.updateItem
    case Err(e) =>
      Handled(calls, Plain(StatusInternalServerError, "Failed to update " + attributeKey + " on task: " + e))
    case Ok(_) =>
      Handled(calls, Plain(StatusOK, attributeKey + " updated on task successfully"))
  }

  /**
   * In the table model the update overwrites the attribute at `(id, attributeKey)` with
   * the value of the parameter named `attributeValue`, whatever it held, and changes nothing else.
   */
  lemma SetAttributeEffect(request: Request, attributeKey: string, attributeValue: string, t: Table)
    ensures var u := SetAttributeInput(request, attributeKey, attributeValue);
      ApplyUpdate(t, u) == Some(t[u.key := Str(Param(request.queryStringParameters, attributeValue))])
  {
    var u := SetAttributeInput(request, attributeKey, attributeValue);
    var v := Param(request.queryStringParameters, attributeValue);
    assert ApplyAction(Lookup(t, u.key), u.actions[0]) == Some(Str(v));
    assert u.actions[1..] == [];
    assert ApplyActions(Lookup(t, u.key), u.actions) == Some(Str(v));
  }
}
