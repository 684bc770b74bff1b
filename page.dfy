/** The board page: the `Home` component's state and handlers, and the
    save action of a task card. Every handler is one atomic step over the
    current state; what the server answers is a parameter, and each handler
    returns the requests it sent to the task API, in order, and the kind of
    notice it showed. */
module Page {
  import opened Outcomes
  import opened TaskRecord
  import opened TaskList
  import opened Titles

  /** A call to the task API (`fetchTasks`, `createTask`, `updateTask`, `deleteTask`). */
  datatype Request = ListTasks | CreateTask(draft: Draft) | UpdateTask(id: Id, patch: Patch) | DeleteTask(id: Id)

  /** The kind of toast a handler shows, if any. */
  datatype Toast = NoToast | SuccessToast | ErrorToast

  /** What the drag-and-drop library reports when a drag ends: the dragged
      task's id, and the column it was dropped on, if any. The only droppable
      ids on the board are the three columns. */
  datatype DropResult = DropResult(draggableId: Id, destination: Option<ColumnId>)

  class Home {
    var tasks: seq<Task>
    var newTaskTitle: string
    var newTaskDescription: string
    var isCreateFormOpen: bool
    var suggestedTags: seq<string>
    var editingTaskId: Option<Id>

    /** The board as first rendered: no tasks, empty drafts, form closed. */
    constructor ()
      ensures tasks == [] && newTaskTitle == "" && newTaskDescription == ""
      ensures !isCreateFormOpen && suggestedTags == [] && editingTaskId == None
    {
      tasks := [];
      newTaskTitle := "";
      newTaskDescription := "";
      isCreateFormOpen := false;
      suggestedTags := [];
      editingTaskId := None;
    }

    /** The tag-suggestion effect: while either draft is non-empty the tags
        the suggestion service returns, or none when it fails; with both
        drafts empty, no tags. */
    method RefreshSuggestedTags(suggestion: Outcome<seq<string>>)
      modifies this`suggestedTags
      ensures newTaskTitle == "" && newTaskDescription == "" ==> suggestedTags == []
      ensures newTaskTitle != "" || newTaskDescription != "" ==>
        suggestedTags == if suggestion.Ok? then suggestion.value else []
    {
      if newTaskTitle != "" || newTaskDescription != "" {
        suggestedTags := if suggestion.Ok? then suggestion.value else [];
      } else {
        suggestedTags := [];
      }
    }

    /** The blank-title test `!title.trim()`: true exactly when the title
        is empty or all white space. */
    static method IsBlankTitle(title: string) returns (blank: bool)
      ensures blank <==> AllWhiteSpace(title)
    {
      BlankIffAllWhiteSpace(title);
      blank := Trim(title) == [];
    }

    /** Create from the drafts. A blank title is refused with no call; else
        the drafts are submitted as a "To Do" task carrying the suggested
        tags, and the task the server returns is appended. */
    method HandleCreateTask(created: Outcome<Task>) returns (sent: seq<Request>, toast: Toast)
      modifies this
      ensures AllWhiteSpace(old(newTaskTitle)) ==> sent == [] && toast == ErrorToast && unchanged(this)
      ensures !AllWhiteSpace(old(newTaskTitle)) ==>
        sent == [CreateTask(Draft(old(newTaskTitle), old(newTaskDescription), ToDo, old(suggestedTags)))]
      ensures !AllWhiteSpace(old(newTaskTitle)) && created.Ok? ==>
        && tasks == old(tasks) + [created.value]
        && newTaskTitle == "" && newTaskDescription == "" && suggestedTags == []
        && !isCreateFormOpen && editingTaskId == old(editingTaskId)
        && toast == SuccessToast
      ensures !AllWhiteSpace(old(newTaskTitle)) && created.Failed? ==> unchanged(this) && toast == ErrorToast
      ensures AllInColumns(old(tasks)) && (created.Ok? ==> IsColumn(created.value.status)) ==> AllInColumns(tasks)
    {
      var blank := IsBlankTitle(newTaskTitle);
      if blank {
        return [], ErrorToast;
      }
      sent := [CreateTask(Draft(newTaskTitle, newTaskDescription, ToDo, suggestedTags))];
      if created.Failed? {
        return sent, ErrorToast;
      }
      tasks := tasks + [created.value];
      assert forall t :: t in tasks ==> t in old(tasks) || t == created.value;
      newTaskTitle := "";
      newTaskDescription := "";
      suggestedTags := [];
      isCreateFormOpen := false;
      toast := SuccessToast;
    }

    /** The fallback every failed mutation runs: refetch the list and, when
        that succeeds, replace the local list with it wholesale; when it fails
        too, keep the local list as it is. */
    method RefreshAfterFailure(refetched: Outcome<seq<Task>>) returns (sent: seq<Request>)
      modifies this`tasks
      ensures sent == [ListTasks]
      ensures tasks == if refetched.Ok? then refetched.value else old(tasks)
    {
      sent := [ListTasks];
      if refetched.Ok? {
        tasks := refetched.value;
      }
    }

    /** Overlay the patch on the task with the id at once, leave edit mode,
        then send the update. A failure is not undone locally: the list is
        replaced by the refetched one, or stays optimistic if that fails. */
    method HandleUpdateTask(taskId: Id, patch: Patch, serverOk: bool, refetched: Outcome<seq<Task>>)
      returns (sent: seq<Request>, toast: Toast)
      modifies this`tasks, this`editingTaskId
      ensures editingTaskId == None
      ensures sent == [UpdateTask(taskId, patch)] + (if serverOk then [] else [ListTasks])
      ensures toast == if serverOk then SuccessToast else ErrorToast
      ensures serverOk || refetched.Failed? ==> tasks == UpdateById(old(tasks), taskId, patch)
      ensures !serverOk && refetched.Ok? ==> tasks == refetched.value
      ensures (AllInColumns(old(tasks)) && KeepsColumns(patch)
               && (refetched.Ok? ==> AllInColumns(refetched.value))) ==> AllInColumns(tasks)
    {
      if AllInColumns(tasks) && KeepsColumns(patch) {
        UpdateKeepsColumns(tasks, taskId, patch);
      }
      tasks := UpdateById(tasks, taskId, patch);
      editingTaskId := None;
      sent := [UpdateTask(taskId, patch)];
      if serverOk {
        toast := SuccessToast;
      } else {
        toast := ErrorToast;
        var refresh := RefreshAfterFailure(refetched);
        sent := sent + refresh;
      }
    }

    /** Drop the task with the id at once, then send the delete, whether or
        not the id is present. Failure handling is that of an update. */
    method HandleDeleteTask(taskId: Id, serverOk: bool, refetched: Outcome<seq<Task>>)
      returns (sent: seq<Request>, toast: Toast)
      modifies this`tasks
      ensures sent == [DeleteTask(taskId)] + (if serverOk then [] else [ListTasks])
      ensures toast == if serverOk then SuccessToast else ErrorToast
      ensures serverOk || refetched.Failed? ==> tasks == RemoveById(old(tasks), taskId)
      ensures !serverOk && refetched.Ok? ==> tasks == refetched.value
      ensures AllInColumns(old(tasks)) && (refetched.Ok? ==> AllInColumns(refetched.value)) ==> AllInColumns(tasks)
    {
      tasks := RemoveById(tasks, taskId);
      sent := [DeleteTask(taskId)];
      if serverOk {
        toast := SuccessToast;
      } else {
        toast := ErrorToast;
        var refresh := RefreshAfterFailure(refetched);
        sent := sent + refresh;
      }
    }

    /** The end of a drag. Without a destination, or for an id no task has,
        nothing happens and nothing is sent. Otherwise the task moves to the
        destination column at once and the status alone is sent; failure
        handling is that of an update. */
    method OnDragEnd(result: DropResult, serverOk: bool, refetched: Outcome<seq<Task>>)
      returns (sent: seq<Request>, toast: Toast)
      modifies this`tasks
      ensures result.destination.None? || FindById(old(tasks), result.draggableId).None? ==>
        sent == [] && toast == NoToast && tasks == old(tasks)
      ensures result.destination.Some? && FindById(old(tasks), result.draggableId).Some? ==>
        && sent == [UpdateTask(result.draggableId, StatusPatch(result.destination.value))]
                   + (if serverOk then [] else [ListTasks])
        && toast == (if serverOk then SuccessToast else ErrorToast)
        && (serverOk || refetched.Failed? ==>
              tasks == MoveToColumn(old(tasks), result.draggableId, result.destination.value))
        && (!serverOk && refetched.Ok? ==> tasks == refetched.value)
      ensures AllInColumns(old(tasks)) && (refetched.Ok? ==> AllInColumns(refetched.value)) ==> AllInColumns(tasks)
    {
      if result.destination.None? {
        return [], NoToast;
      }
      var taskId := result.draggableId;
      var newStatus := result.destination.value;
      if FindById(tasks, taskId).None? {
        return [], NoToast;
      }
      if AllInColumns(tasks) {
        UpdateKeepsColumns(tasks, taskId, StatusPatch(newStatus));
      }
      tasks := MoveToColumn(tasks, taskId, newStatus);
      sent := [UpdateTask(taskId, StatusPatch(newStatus))];
      if serverOk {
        toast := SuccessToast;
      } else {
        toast := ErrorToast;
        var refresh := RefreshAfterFailure(refetched);
        sent := sent + refresh;
      }
    }

    /** The load effect: install the fetched list only when it is non-empty.
        An empty list or a failure leaves the list as it was; no sample data
        is ever installed. */
    method LoadTasks(loaded: Outcome<seq<Task>>) returns (sent: seq<Request>, toast: Toast)
      modifies this`tasks
      ensures sent == [ListTasks]
      ensures loaded.Ok? && loaded.value != [] ==> tasks == loaded.value
      ensures loaded.Failed? || loaded.value == [] ==> tasks == old(tasks)
      ensures toast == if loaded.Failed? then ErrorToast else NoToast
      ensures AllInColumns(old(tasks)) && (loaded.Ok? ==> AllInColumns(loaded.value)) ==> AllInColumns(tasks)
    {
      sent := [ListTasks];
      toast := NoToast;
      if loaded.Failed? {
        toast := ErrorToast;
      } else if |loaded.value| > 0 {
        tasks := loaded.value;
      }
    }
  }

  /** A card of the board. Its title and description drafts start as the
      task's own. */
  class TaskCard {
    const task: Task
    var title: string
    var description: string

    constructor (task: Task)
      ensures this.task == task && title == task.title && description == task.description
    {
      this.task := task;
      title := task.title;
      description := task.description;
    }

    /** Save sends an update of exactly the title and description drafts for
        this card's task, and leaves edit mode. */
    method HandleSave(home: Home, serverOk: bool, refetched: Outcome<seq<Task>>)
      returns (sent: seq<Request>, toast: Toast)
      modifies home`tasks, home`editingTaskId
      ensures sent == [UpdateTask(task.id, EditPatch(title, description))] + (if serverOk then [] else [ListTasks])
      ensures toast == if serverOk then SuccessToast else ErrorToast
      ensures home.editingTaskId == None
      ensures serverOk || refetched.Failed? ==> home.tasks == SaveEdit(old(home.tasks), task.id, title, description)
      ensures !serverOk && refetched.Ok? ==> home.tasks == refetched.value
      ensures AllInColumns(old(home.tasks)) && (refetched.Ok? ==> AllInColumns(refetched.value)) ==> AllInColumns(home.tasks)
    {
      sent, toast := home.HandleUpdateTask(task.id, EditPatch(title, description), serverOk, refetched);
      home.editingTaskId := None;
    }
  }
}
