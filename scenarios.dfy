/** Client runs of the board, each checking from the handlers' contracts
    alone what the page does in one situation. */
module Scenarios {
  import opened Outcomes
  import opened TaskRecord
  import opened TaskList
  import opened Page

  /** A failed move whose refetch succeeds ends with exactly the server's
      list: the optimistic move is overwritten. */
  method MoveFailureIsOverwrittenByRefetch() {
    var a := Task("a", "A", "", ToDo, []);
    var b := Task("b", "B", "", InProgress, []);
    var home := new Home();
    var sent, toast := home.LoadTasks(Ok([a, b]));
    assert home.tasks == [a, b];
    assert FindById(home.tasks, "a") == Some(a);
    sent, toast := home.OnDragEnd(DropResult("a", Some(Done)), false, Ok([a, b]));
    assert sent == [UpdateTask("a", StatusPatch(Done)), ListTasks];
    assert home.tasks == [a, b];
  }

  /** When both the move and its refetch fail, the optimistic move stays. */
  method MoveAndRefetchFailureKeepsOptimisticMove() {
    var a := Task("a", "A", "", ToDo, []);
    var home := new Home();
    var sent, toast := home.LoadTasks(Ok([a]));
    assert FindById(home.tasks, "a") == Some(a);
    sent, toast := home.OnDragEnd(DropResult("a", Some(Done)), false, Failed);
    assert home.tasks[0] == a.(status := Done);
    assert toast == ErrorToast;
  }

  /** An empty or failed first load leaves the board empty: the sample tasks
      are never installed. */
  method LoadNeverInstallsSampleData() {
    var home := new Home();
    var sent, toast := home.LoadTasks(Failed);
    assert home.tasks == [] && toast == ErrorToast;
    sent, toast := home.LoadTasks(Ok([]));
    assert home.tasks == [] && toast == NoToast;
  }

  /** A blank title sends nothing and changes nothing. */
  method BlankTitleSendsNothing(created: Task) {
    var home := new Home();
    home.newTaskTitle := " \t";
    var sent, toast := home.HandleCreateTask(Ok(created));
    assert sent == [] && home.tasks == [] && toast == ErrorToast;
  }

  /** A failed tag suggestion does not stop a create: the task is submitted
      with no tags. */
  method FailedSuggestionStillCreates(created: Task) {
    var home := new Home();
    home.newTaskTitle := "Plan";
    home.RefreshSuggestedTags(Failed);
    assert "Plan"[0] == 'P' && !Titles.IsWhiteSpace('P');
    var sent, toast := home.HandleCreateTask(Ok(created));
    assert sent == [CreateTask(Draft("Plan", "", ToDo, []))];
    assert home.tasks == [created] && home.newTaskTitle == "";
  }
}
