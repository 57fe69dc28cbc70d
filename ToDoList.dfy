/** The ToDoList component (ToDoList.tsx): the "no task done" scan that picks
    the container class, and the task-title input with its `title`/`error`
    state, its add button and its Enter key. */
module ToDoListView {
  import opened Tasks
  import opened Text
  import opened TitleRules

  /** No task of `tasks` is done. */
  predicate NoTaskDone(tasks: seq<Task>)
  {
    forall i :: 0 <= i < |tasks| ==> !tasks[i].isDone
  }

  /** The scan of the rendered tasks in index order that stops at the first
      done task; `scanned` is where it stopped. */
  method AllTasksNotDone(tasks: seq<Task>) returns (isAllTasksNotIsDone: bool, ghost scanned: nat)
    ensures isAllTasksNotIsDone <==> NoTaskDone(tasks)
    ensures scanned <= |tasks| && forall i :: 0 <= i < scanned ==> !tasks[i].isDone
    ensures isAllTasksNotIsDone ==> scanned == |tasks|
    ensures !isAllTasksNotIsDone ==> scanned < |tasks| && tasks[scanned].isDone
  {
    isAllTasksNotIsDone := true;
    var i := 0;
    while i < |tasks|
      invariant 0 <= i <= |tasks|
      invariant forall k :: 0 <= k < i ==> !tasks[k].isDone
    {
      if tasks[i].isDone {
        isAllTasksNotIsDone := false;
        break;
      }
      i := i + 1;
    }
    scanned := i;
  }

  /** The class of the list's container. */
  function TodoClasses(tasks: seq<Task>): (cls: string)
    ensures cls == "todolist-empty" <==> NoTaskDone(tasks)
    ensures cls == "todolist" <==> exists i :: 0 <= i < |tasks| && tasks[i].isDone
  {
    if NoTaskDone(tasks) then "todolist-empty" else "todolist"
  }

  lemma {:induction false} NoTaskDoneIffNoneCounted(tasks: seq<Task>)
    ensures NoTaskDone(tasks) <==> CountWithStatus(tasks, true) == 0
    decreases |tasks|
  {
    if tasks != [] {
      NoTaskDoneIffNoneCounted(tasks[1..]);
      if NoTaskDone(tasks[1..]) && !tasks[0].isDone {
        forall i | 0 <= i < |tasks| ensures !tasks[i].isDone {
          if i > 0 {
            assert tasks[i] == tasks[1..][i - 1];
          }
        }
      }
    }
  }

  /** The Enter key has a handler: adding is possible. */
  function EnterEnabled(title: string): (enabled: bool)
    ensures enabled <==> 0 < |title| < MaxTitleLength
  {
    !IsAddTaskNotPossible(title)
  }

  /** Whatever the Enter key submits is non-empty and shorter than the maximum length. */
  lemma EnterSubmissionIsShort(title: string)
    requires EnterEnabled(title)
    ensures Submission(title).Some? ==> 0 < |Submission(title).value| < MaxTitleLength
  {
  }

  /** The task-title input of one list. `error ==> title == ""` holds
      throughout: the error is raised only by a submit, which also clears the
      title, and every edit clears it. */
  class ToDoList {
    var title: string
    var error: bool

    ghost predicate Valid()
      reads this
    {
      error ==> title == ""
    }

    constructor ()
      ensures Valid() && title == "" && !error
    {
      title := "";
      error := false;
    }

    /** The input's class: "input-error" while the error is raised, none otherwise. */
    function InputClass(): (cls: string)
      reads this
      ensures cls == "input-error" <==> error
      ensures cls == "" <==> !error
    {
      if error then "input-error" else ""
    }

    /** The add button (and the Enter key) submit: the trimmed title goes to
        `addTask` when it is non-empty, the error is raised otherwise, and the
        title is cleared either way. */
    method AddTaskHandler() returns (sent: Option<string>)
      requires Valid()
      modifies this
      ensures Valid()
      ensures sent == Submission(old(title))
      ensures title == ""
      ensures error <==> sent.None?
    {
      var trimmedTitle := Trim(title);
      if trimmedTitle != [] {
        sent := Some(trimmedTitle);
        title := "";
      } else {
        sent := None;
        error := true;
      }
      title := "";
    }

    /** An edit of the input: the new value replaces the title and the error is cleared. */
    method SetLocalTitleHandler(value: string)
      modifies this
      ensures Valid()
      ensures title == value && !error
    {
      if error {
        error := false;
      }
      title := value;
    }

    /** A key press in the input: only Enter, and only while adding is possible, submits. */
    method OnKeyDownAddTaskHandler(key: string) returns (sent: Option<string>)
      requires Valid()
      modifies this
      ensures Valid()
      ensures EnterEnabled(old(title)) && key == "Enter" ==>
                sent == Submission(old(title)) && title == "" && (error <==> sent.None?)
      ensures !(EnterEnabled(old(title)) && key == "Enter") ==>
                sent == None && title == old(title) && error == old(error)
      ensures sent.Some? ==> |sent.value| < MaxTitleLength
    {
      if EnterEnabled(title) && key == "Enter" {
        EnterSubmissionIsShort(title);
        sent := AddTaskHandler();
      } else {
        sent := None;
      }
    }

    /** A click on the add button, which is disabled while adding is not possible. */
    method OnAddButtonClick() returns (sent: Option<string>)
      requires Valid()
      modifies this
      ensures Valid()
      ensures !IsAddTaskNotPossible(old(title)) ==>
                sent == Submission(old(title)) && title == "" && (error <==> sent.None?)
      ensures IsAddTaskNotPossible(old(title)) ==>
                sent == None && title == old(title) && error == old(error)
    {
      if IsAddTaskNotPossible(title) {
        sent := None;
      } else {
        sent := AddTaskHandler();
      }
    }
  }
}
