# Task management Lambda: the sparse-row model

The service stores each task as a set of rows in one table. Each row holds one
attribute of one task under the key `(id, DataType)`. For example, a task with
a title and two tags becomes a `Title` row and a `Tags` set. The handlers turn
HTTP-shaped requests into storage calls and folds.

This Dafny project models the parts of the service that carry logic:

- **The field fold.** `UpdateTaskField` applies one `(dataType, dataValue)` row to a task.
- **The group-by-id materializer.** The loops over query and batch-fetch results build
  `map[id]*Task`. They create a task on first sight of an id and fold every row into it.
- **The id de-duplication of the reverse lookups.** A lookup queries the index for
  `(dataType, dataValue)`, collects the distinct ids, batch-fetches them, then lists
  the tasks.
- **The create-time choice of the one stored attribute.** The first non-empty field wins,
  in the order Title, Status, Description, Tags. An item without a DataType is refused.
- **The update requests.** For each request the model gives the key it addresses and
  its SET, ADD or DELETE clauses, with their meaning on an abstract table.
- **The method dispatch of the Lambda `handler`.**

Modules follow the source files:

- `TaskModel` (task.dfy): the `Task` value and the `Row` it is stored as. It also holds
  the class `TaskRecord`, the Go `*Task` that the loops update in place.
- `Store` (storage.dfy): the storage calls a handler issues and the canned reply per kind
  of call (the tests stub the client the same way). It also holds the abstract table
  `(id, DataType) → dataValue`, on which SET overwrites, ADD takes a union and DELETE a
  difference.
- `Events` (events.dfy): requests, responses, and `Outcome`. An outcome is either a Go
  return `(response, error)` or the process exit of `log.Fatalf`.
- `TaskUpdate`, `TaskRead`, `TaskCreate`: the files of package `task`.
- `Lambda` (main.dfy): `handler` and the package-main copies of the read handlers.

How the proofs are arranged:

- The materializer is specified by the function `TaskRead.Materialize`.
- `TaskRead.MaterializeCharacterized` proves that function equal to an independent,
  field-by-field description: last write wins for scalars, tags in row order, unknown
  types ignored.
- Each grouping loop is proved to build exactly `Materialize` of its rows: the one that
  calls `UpdateTaskField`, and the ones with the switch written inline. So the inline
  copies and the call give the same map.
- Go map iteration order is not fixed. The loops that range over a map pick an arbitrary
  remaining key, and their contracts speak per id or about the set of ids.

## Model

| member | source | states |
|---|---|---|
| TaskModel.TaskRecord.constructor | lambda/task/read_task.go:36-38 | a task first seen under `id` is `&Task{ID: id}`, every other field at its zero value |
| Store.ApplyUpdate | lambda/task/update_task.go:43 | an update changes only the item at its key; it fails exactly when a clause does (a set operation on a string attribute) |
| TaskUpdate.UpdateTaskField | lambda/task/update_task.go:12-26 | the pointed-to task becomes the field fold `ApplyField` of its old value with the row |
| TaskUpdate.ScalarRowSetsOnlyItsField | lambda/task/update_task.go:14-19 | a Title, Description or Status row sets that field to the value and leaves ID, the other fields and Tags unchanged |
| TaskUpdate.TagsRowAppends | lambda/task/update_task.go:20-24 | a Tags row appends its value: one more tag, the earlier tags untouched, nothing else changed |
| TaskUpdate.UnknownRowIgnored | lambda/task/update_task.go:13-25 | any other dataType leaves the task exactly as it was (no default case, no error) |
| TaskUpdate.ScalarRowIdempotent | lambda/task/update_task.go:14-19 | applying the same scalar row twice equals applying it once |
| TaskUpdate.ScalarLastWriteWins | lambda/task/update_task.go:14-19 | of two scalar rows for the same field, the later one wins |
| TaskUpdate.ScalarRowsCommute | lambda/task/update_task.go:14-19 | scalar rows for different fields commute |
| TaskUpdate.ReplaceTagInput | lambda/task/update_task.go:29-52 | the update addresses `(QueryStringParameters["id"], "Tags")`; the store accepts it exactly when that item is absent or holds a string set, and refuses it on a plain string |
| TaskUpdate.UpdateTagOnTask | lambda/task/update_task.go:28-66 | exactly one call, the update `ReplaceTagInput(request)`; 200 "Tag updated on task successfully" exactly when it succeeds, otherwise 500 "Failed to update tag on task: <error>"; never a Go error |
| TaskUpdate.ReplaceTagEffect | lambda/task/update_task.go:33-51 | DELETE `{old_tag}` then ADD `{new_tag}` turns the tag set S into (S − {old}) ∪ {new}, so new_tag is present afterwards and no other item changes |
| TaskUpdate.ReplaceOnlyTag | lambda/task/update_task.go:33-51 | replacing a task's only tag leaves exactly the new tag |
| TaskUpdate.SetAttributeInput | lambda/task/update_task.go:69-88 | the update addresses `(QueryStringParameters["id"], attributeKey)`; being a SET, the store accepts it whatever the item held |
| TaskUpdate.UpdateTaskAttribute | lambda/task/update_task.go:68-102 | exactly one call, the update `SetAttributeInput(request, attributeKey, attributeValue)`; 200 "<attributeKey> updated on task successfully" exactly when it succeeds, otherwise 500 "Failed to update <attributeKey> on task: <error>"; never a Go error |
| TaskUpdate.SetAttributeEffect | lambda/task/update_task.go:69-88 | the update SETs `(id, attributeKey)` to the query parameter NAMED by `attributeValue`, whatever it held, and nothing else changes |
| TaskRead.LastValueOfNone | lambda/task/read_task.go:92-98 | with no row of a scalar type for an id, that field stays "" |
| TaskRead.LastValueOfLastMatch | lambda/task/read_task.go:92-98 | otherwise the field holds the value of the last row of that type for that id |
| TaskRead.TagsOfConcat | lambda/task/read_task.go:99-103 | tags follow the rows' order: the tags of concatenated row lists are the concatenated tags, duplicates kept |
| TaskRead.TagsOfNone | lambda/task/read_task.go:99-103 | with no Tags row for an id, its tags are empty |
| TaskRead.ExpectedOfAbsentId | lambda/task/read_task.go:87-89 | an id with no rows has the zero task |
| TaskRead.ExpectedSnoc | lambda/task/read_task.go:85-104 | one more row changes the field-by-field description of its own id as the field fold does, and no other id's |
| TaskRead.MaterializeCharacterized | lambda/task/read_task.go:84-105 | the grouping yields exactly one task per distinct row id and no other key; each task has the last Title/Description/Status values (or "") and the Tags values in row order |
| TaskRead.MaterializedIdsMatchKeys | lambda/task/read_task.go:86-88 | every task's ID equals its map key |
| TaskRead.FetchByIdTestRows | lambda/main_test.go:96-141 | the fetch-by-id test's four rows give two tasks, each with only its own title and description |
| TaskRead.GroupRows | lambda/task/read_task.go:33-43 | the loop calling `UpdateTaskField` builds a map whose keys and pointed-to tasks are `Materialize(rows)` |
| TaskRead.GroupRowsInline | lambda/task/read_task.go:84-105 | the loop with the switch inline builds a map with the same keys and tasks, so the inlined switch equals folding `UpdateTaskField` |
| TaskRead.Flatten | lambda/task/read_task.go:45-48 | the output list has one entry per map entry (its length is the map's size), each a copy of a distinct key's task |
| TaskRead.CollectIds | lambda/task/read_task.go:135-146 | the batch-fetch id list has no duplicates and the same set as the ids of the index items; no items gives an empty list |
| TaskRead.GetTaskById | lambda/task/read_task.go:13-62 | one query by id; on failure 500 "Query failed: …"; otherwise 200 listing exactly the materialized tasks of the rows |
| TaskRead.GetTasksByTaskIds | lambda/task/read_task.go:64-108 | one batch fetch of the given ids in order; its error is passed back, otherwise the grouped tasks of the fetched rows |
| TaskRead.EmptyLookupAnswersEmptyList | lambda/task/read_task.go:135-159 | an index query with no items still issues the batch fetch, with no keys; if that fetch returns no rows, the answer is 200 with an empty list |
| TaskRead.ResolveByAttribute | lambda/task/read_task.go:113-172 | query the index on (dataType, value), then a single batch fetch of the distinct matched ids; 500 on either failure; otherwise 200 listing the fetched rows' tasks |
| TaskRead.GetTasksByAttribute | lambda/task/read_task.go:110-173 | looks up dataType = attributeKey and dataValue = `QueryStringParameters[attributeKey]`; `attributeValue` is unused; a failed batch fetch answers "Failed to retrieve tasks by <attributeKey>" |
| TaskRead.GetTasksByTag | lambda/task/read_task.go:175-238 | looks up dataType "Tags" and the `tag` parameter; a failed batch fetch answers "Failed to retrieve tasks by IDs: <error>" |
| TaskCreate.AddTagInput | lambda/task/create_task.go:32-51 | the update addresses `(QueryStringParameters["id"], "Tags")`; the store accepts it exactly when that item is absent or holds a string set |
| TaskCreate.AddTagToTask | lambda/task/create_task.go:31-65 | exactly one call, the update `AddTagInput(request)`; 200 "Tag added to task successfully" exactly when it succeeds, otherwise 500 "Failed to add tag to task: <error>"; never a Go error |
| TaskCreate.AddTagEffect | lambda/task/create_task.go:35-51 | ADD `{tag}` turns the tag set S into S ∪ {tag}, creating it if absent; the tag is present afterwards |
| TaskCreate.AddTagIdempotent | lambda/task/create_task.go:35-51 | adding the same tag twice leaves the table as adding it once |
| TaskCreate.AddTagOnStringRejected | lambda/task/create_task.go:45 | ADD on a key holding a plain string fails in the store |
| TaskCreate.ChooseDataAttribute | lambda/task/create_task.go:76-94 | only DataType and DataValue are assigned; every other field of the body is kept |
| TaskCreate.TitleWins | lambda/task/create_task.go:77-79 | a non-empty Title gives ("Title", Title), whatever the other fields hold |
| TaskCreate.StatusWinsWithoutTitle | lambda/task/create_task.go:80-82 | with Title empty, a non-empty Status gives ("Status", Status) |
| TaskCreate.DescriptionWinsWithoutTitleOrStatus | lambda/task/create_task.go:83-85 | with Title and Status empty, a non-empty Description gives ("Description", Description) |
| TaskCreate.TagsChosenLast | lambda/task/create_task.go:86-93 | when only Tags is non-empty, the pair is ("Tags", JSON encoding of the tags) |
| TaskCreate.BodyPairKeptWhenNoField | lambda/task/create_task.go:76-94 | when no field is set, the body's own DataType/DataValue are kept |
| TaskCreate.MissingDataTypeExactly | lambda/task/create_task.go:76-106 | the item lacks a DataType exactly when the body has no Title, Status, Description, Tags or DataType |
| TaskCreate.CreateTask | lambda/task/create_task.go:67-123 | undecodable body: process exit; no DataType: 400 "Missing DataType in the item" with an error and no put; otherwise exactly one put of the chosen item, then 201 "Task created successfully", or process exit if the put fails |
| TaskCreate.BodyWithOnlyDataPairAccepted | lambda/main_test.go:64-71 | a body carrying only DataType/DataValue is put as given and answered 201 |
| Lambda.GetTaskById | lambda/main.go:35-95 | the package-main copy, with the inline switch, answers as `TaskRead.GetTaskById` does |
| Lambda.GetTasksByTitle | lambda/main.go:146-210 | the generic lookup with dataType "Title" and the `title` parameter |
| Lambda.GetTasksByStatus | lambda/main.go:212-275 | the generic lookup with dataType "Status" and the `status` parameter |
| Lambda.GetTasksByTag | lambda/main.go:277-340 | the generic lookup with dataType "Tags" and the `tag` parameter |
| Lambda.Handler | lambda/main.go:443-456 | GET answers the fetch of `PathParameters["id"]`; POST answers the create of the body; any other method answers 405 "Method not allowed" with no storage call |

## Left out

- Storage calls are not modelled as transport. A call is recorded as a `Call` value. Its reply is canned per kind of call and does not depend on the request, as with the tests' stubs. The table name is not recorded in the calls.
- Several real DynamoDB behaviours are not modelled: BatchGetItem size limits and unprocessed keys, key validation against the composite key, and rejection of an update whose DELETE and ADD clauses name the same attribute.
- Attribute casing is not modelled. Create writes `DataType`/`DataValue`, while reads and queries name `dataType`/`dataValue`, and the index is keyed differently again. The model uses one abstract attribute per row.
- JSON is not modelled. Decoding the request body is taken as done: a body is either a decoded `Task` or a decoding error. A task list is returned as a list of values. The encoding of the tag array is an uninterpreted function parameter.
- Marshal failures cannot occur for these types, so these branches are left out: json.Marshal of the task list (500 "Failed to marshal …"), json.Marshal of the tags, and dynamodbattribute.MarshalMap.
- A nil Tags slice and an empty one are the same sequence in the model.
- Malformed rows are not modelled. A `Row` always holds three string attributes `id`, `dataType` and `dataValue`. The read loops dereference these attributes' string pointers (lambda/task/read_task.go:35, 40-41, 86, 92-103; lambda/main.go:57, 63-74), so in Go they panic on an item that lacks one of them or holds it as a string set. The write path produces such items: ADD and DELETE store `(id, "Tags")` as a string set, and `omitempty` drops an empty DataValue from a created item. The model has no panic outcome. The proved equality of `TaskRead.GroupRows` and `TaskRead.GroupRowsInline` holds for well-formed rows only. On a malformed row the two differ in Go: `GetTaskById` reads `dataValue` for every row, while the inline switches read it only for the four known types.
- The order of the output list is not fixed: it follows Go map iteration. The model lists tasks in an arbitrary order, and the contracts are per id.
- Requests with no matching ids are not short-circuited, following the code: a reverse lookup always issues the batch fetch, even with an empty id list. What it then answers depends on the store's reply to that fetch.
- The package-main `getTasksByTaskIds` (lambda/main.go:100-144) is the package's `GetTasksByTaskIds`, line for line, and is modelled by `TaskRead.GetTasksByTaskIds`.
- Likewise, the package-main `createTask` (lambda/main.go:342-398) is the package's `CreateTask` and is modelled by `TaskCreate.CreateTask`, and the package-main `addTagToTask` (lambda/main.go:401-435) is `AddTagToTask` and is modelled by `TaskCreate.AddTagToTask`.
- lambda/task/delete_task.go is not part of this model: it is a single DeleteItem call and a status mapping.
- cdk/main.go is not part of this model. It only provisions infrastructure.
- The `main` function's session setup and `lambda.Start` are not part of this model.
