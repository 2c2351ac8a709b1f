/**
 * The storage service as the handlers see it.
 *
 * A handler never inspects the service: it issues calls and reads back a
 * reply. Each call the handler issues is recorded as a `Call` value, and the
 * replies are canned per kind of call in an `Svc` value, the way the
 * repository's tests stub the client. Where the meaning of a write matters,
 * the table is an abstract map from the key `(id, DataType)` to the
 * `dataValue` attribute, on which an update's SET, ADD and DELETE clauses
 * act as overwrite, set union and set difference.
 */
module Store {
  import opened TaskModel

  datatype Option<T> = None | Some(value: T)

  /** The reply of one storage call: its output or the error it failed with. */
  datatype Reply<T> = Ok(value: T) | Err(message: string)

  /** The table's composite primary key: partition key `id`, sort key `DataType`. */
  datatype Key = Key(id: string, dataType: string)

  /** One clause of an update expression on the `dataValue` attribute. */
  datatype UpdateAction =
    | SetValue(value: string)           // SET dataValue = :v
    | AddToSet(values: set<string>)     // ADD dataValue :ss
    | DeleteFromSet(values: set<string>) // DELETE dataValue :ss

  /** An `UpdateItemInput`: the key it addresses and its clauses, in order. */
  datatype UpdateInput = UpdateInput(key: Key, actions: seq<UpdateAction>)

  const IndexName := "GSI1"

  /** A call issued to the storage service. */
  datatype Call =
    | QueryById(id: string)                                              // "id = :id" on the table
    | QueryIndex(indexName: string, dataType: string, dataValue: string) // "dataType = :dataType AND dataValue = :dataValue"
    | BatchGet(ids: seq<string>)                                         // one key {"id": id} per entry
    | PutItem(item: Task)
    | UpdateItem(input: UpdateInput)

  /** The canned reply for each kind of call, as a stubbed client gives it. */
  datatype Svc = Svc(
    query: Reply<seq<Row>>,
    batchGet: Reply<seq<Row>>,
    putItem: Reply<()>,
    updateItem: Reply<()>)

  /** The `dataValue` attribute of the item at one key. */
  datatype Cell = Absent | Str(s: string) | StrSet(ss: set<string>)

  type Table = map<Key, Cell>

  function Lookup(t: Table, k: Key): Cell
  {
    if k in t then t[k] else Absent
  }

  /**
   * One clause applied to the attribute; `None` when the store rejects it
   * (a set operation on a string attribute). A set emptied by DELETE is
   * removed, since the store keeps no empty sets.
   */
  function ApplyAction(c: Cell, a: UpdateAction): Option<Cell>
  {
    match a
    case SetValue(v) => Some(Str(v))
    case AddToSet(xs) =>
      (match c
       case Absent => Some(StrSet(xs))
       case StrSet(s) => Some(StrSet(s + xs))
       case Str(_) => None)
    case DeleteFromSet(xs) =>
      (match c
       case Absent => Some(Absent)
       case StrSet(s) => if s - xs == {} then Some(Absent) else Some(StrSet(s - xs))
       case Str(_) => None)
  }

  /** The clauses of one update expression, left to right. */
  function ApplyActions(c: Cell, actions: seq<UpdateAction>): Option<Cell>
    decreases |actions|
  {
    if actions == [] then Some(c)
    else
      match ApplyAction(c, actions[0])
      case None => None
      case Some(c') => ApplyActions(c', actions[1..])
  }

  /** Table after `UpdateItem(u)`; an update touches only the item at `u.key`. */
  function ApplyUpdate(t: Table, u: UpdateInput): (r: Option<Table>)
    ensures r.Some? ==> forall k :: k != u.key ==> Lookup(r.value, k) == Lookup(t, k)
    ensures r.Some? <==> ApplyActions(Lookup(t, u.key), u.actions).Some?
  {
    match ApplyActions(Lookup(t, u.key), u.actions)
    case None => None
    case Some(Absent) => Some(t - {u.key})
    case Some(c) => Some(t[u.key := c])
  }

  /** An update with a single clause succeeds exactly when that clause does. */
  lemma OneClauseUpdate(u: UpdateInput)
    requires |u.actions| == 1
    ensures forall t: Table :: ApplyUpdate(t, u).Some? <==> ApplyAction(Lookup(t, u.key), u.actions[0]).Some?
  {
    forall t: Table ensures ApplyActions(Lookup(t, u.key), u.actions).Some?
                            <==> ApplyAction(Lookup(t, u.key), u.actions[0]).Some? {
      assert u.actions[1..] == [];
    }
  }

  /** The key holds a string set, or nothing at all. */
  predicate HoldsSet(c: Cell)
  {
    c.Absent? || c.StrSet?
  }

  /** The strings in a set-valued (or absent) attribute. */
  function Members(c: Cell): set<string>
  {
    if c.StrSet? then c.ss else {}
  }
}
