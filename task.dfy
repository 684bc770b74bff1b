/** The task record of the board, the partial records used to update it,
    and the three status columns. */
module TaskRecord {
  import opened Outcomes

  /** Task ids are opaque strings assigned by the store. */
  type Id = string

  /** A persisted task. The status is kept as the string the store holds: the
      store does not check it, so a refetched list may carry any value. */
  datatype Task = Task(id: Id, title: string, description: string, status: string, tags: seq<string>)

  /** A task as submitted for creation, before the store assigns its id. */
  datatype Draft = Draft(title: string, description: string, status: string, tags: seq<string>)

  /** A partial task: the fields that are present overwrite the task's. */
  datatype Patch = Patch(
    id: Option<Id>,
    title: Option<string>,
    description: Option<string>,
    status: Option<string>,
    tags: Option<seq<string>>)

  /** The ids of the three droppable columns of the board. */
  const ToDo: string := "To Do"
  const InProgress: string := "In Progress"
  const Done: string := "Done"

  predicate IsColumn(s: string) {
    s == ToDo || s == InProgress || s == Done
  }

  /** A status that names one of the board's columns. */
  type ColumnId = s: string | IsColumn(s) witness "To Do"

  /** Every task of the list sits in one of the three columns. */
  predicate AllInColumns(ts: seq<Task>) {
    forall t :: t in ts ==> IsColumn(t.status)
  }

  /** A patch that sets no status, or sets a column. */
  predicate KeepsColumns(p: Patch) {
    p.status.Some? ==> IsColumn(p.status.value)
  }

  function Pick<T>(field: Option<T>, current: T): T {
    if field.Some? then field.value else current
  }

  /** The object spread `{ ...task, ...patch }`: every field present in the
      patch wins, every absent one keeps the task's value. The id is a field
      like the others, so a patch carrying an id rewrites it. */
  function Merge(t: Task, p: Patch): (r: Task)
    ensures r.id == (if p.id.Some? then p.id.value else t.id)
    ensures r.title == (if p.title.Some? then p.title.value else t.title)
    ensures r.description == (if p.description.Some? then p.description.value else t.description)
    ensures r.status == (if p.status.Some? then p.status.value else t.status)
    ensures r.tags == (if p.tags.Some? then p.tags.value else t.tags)
  {
    Task(Pick(p.id, t.id), Pick(p.title, t.title), Pick(p.description, t.description),
         Pick(p.status, t.status), Pick(p.tags, t.tags))
  }

  /** The patch a drag-and-drop move sends: the status alone. */
  function StatusPatch(status: string): Patch {
    Patch(None, None, None, Some(status), None)
  }

  /** The patch an inline edit saves: title and description alone. */
  function EditPatch(title: string, description: string): Patch {
    Patch(None, Some(title), Some(description), None, None)
  }

  /** Overlaying the same patch twice is the same as overlaying it once. */
  lemma MergeIdempotent(t: Task, p: Patch)
    ensures Merge(Merge(t, p), p) == Merge(t, p)
  {
  }

  /** The empty patch leaves a task as it is. */
  lemma MergeEmpty(t: Task)
    ensures Merge(t, Patch(None, None, None, None, None)) == t
  {
  }
}
