/**
 * The task entity and the sparse attribute row it is stored as.
 *
 * A `Task` is the assembled, logical view (the Go struct `Task` of package
 * `task`); a `Row` is one physical item of the table, holding a single
 * attribute of one task under the key `(id, DataType)`.
 */
module TaskModel {

  /** The Go struct `Task`, as a value. `dataType`/`dataValue` are only used on the create path. */
  datatype Task = Task(
    id: string,
    title: string,
    description: string,
    status: string,
    tags: seq<string>,
    dataType: string,
    dataValue: string)

  /** One attribute row `(id, dataType, dataValue)` as returned by a query or a batch fetch. */
  datatype Row = Row(id: string, dataType: string, dataValue: string)

  /** The literal `&Task{ID: id}`: every other field is Go's zero value. */
  function NewTask(id: string): Task
  {
    Task(id, "", "", "", [], "", "")
  }

  /**
   * A `*Task` that the materializer loops update in place through the map
   * `map[string]*Task`. A nil `Tags` slice and an empty one are the same
   * sequence here.
   */
  class TaskRecord {
    var id: string
    var title: string
    var description: string
    var status: string
    var tags: seq<string>
    var dataType: string
    var dataValue: string

    /** The struct the pointer currently points to. */
    function Value(): Task
      reads this
    {
      Task(id, title, description, status, tags, dataType, dataValue)
    }

    /** `&Task{ID: id}` */
    constructor (id: string)
      ensures Value() == NewTask(id)
    {
      this.id := id;
      title, description, status := "", "", "";
      tags := [];
      dataType, dataValue := "", "";
    }
  }

  /** The set of distinct ids that occur in `rows`. */
  ghost function IdsOf(rows: seq<Row>): set<string>
  {
    set r | r in rows :: r.id
  }

  /** No id occurs twice in `ids`. */
  predicate NoDuplicates(ids: seq<string>)
  {
    forall i, j :: 0 <= i < j < |ids| ==> ids[i] != ids[j]
  }
}
