/** The AddItemForm component (AddItemForm.tsx): a title input with its
    `title`/`error` state, an add button and an Enter key, handing trimmed
    titles to `addNewItem`. */
module AddItemFormView {
  import opened Text
  import opened TitleRules
  import ToDoListView

  /** The Enter key has a handler: the input is not empty. Unlike the
      ToDoList input, this ignores the maximum length. */
  function EnterEnabled(title: string): (enabled: bool)
    ensures enabled <==> title != ""
  {
    |title| != 0
  }

  /** The two inputs gate the Enter key alike except at and beyond the maximum
      length, where only this form still submits on Enter, although its add
      button is disabled there. */
  lemma EnterGateComparedWithToDoList(title: string)
    ensures ToDoListView.EnterEnabled(title) ==> EnterEnabled(title)
    ensures EnterEnabled(title) && !ToDoListView.EnterEnabled(title) <==> |title| >= MaxTitleLength
    ensures EnterEnabled(title) <==> !IsAddTaskNotPossible(title) || |title| >= MaxTitleLength
  {
  }

  /** A title of at least the maximum length that is not all whitespace is
      submitted by Enter while the add button is disabled, and what goes to
      `addNewItem` can itself exceed the maximum length. */
  lemma EnterSubmitsPastDisabledButton(title: string)
    requires |title| >= MaxTitleLength && !AllWhitespace(title)
    ensures EnterEnabled(title) && IsAddTaskNotPossible(title)
    ensures Submission(title).Some?
    ensures !IsWhitespace(title[0]) && !IsWhitespace(title[|title| - 1]) ==>
              Submission(title).value == title
  {
  }

  /** The title input that creates to-do lists. `error ==> title == ""`
      holds throughout, as in the ToDoList input. */
  class AddItemForm {
    var title: string
    var error: bool

    ghost predicate Valid()
      reads this
    {
      error ==> title == ""
    }

    constructor ()
      ensures Valid() && title == "" && !error
    {
      title := "";
      error := false;
    }

    /** The input is empty: the Enter key has no handler. */
    function InputIsEmpty(): (empty: bool)
      reads this
      ensures empty <==> title == ""
    {
      !EnterEnabled(title)
    }

    /** The input's class: "input-error" while the error is raised, "input" otherwise. */
    function InputClass(): (cls: string)
      reads this
      ensures cls == "input-error" <==> error
      ensures cls == "input" <==> !error
    {
      if error then "input-error" else "input"
    }

    /** A submit: the trimmed title goes to `addNewItem` when it is non-empty,
        the error is raised otherwise, and the title is cleared either way. */
    method AddTaskItem() returns (sent: Option<string>)
      requires Valid()
      modifies this
      ensures Valid()
      ensures sent == Submission(old(title))
      ensures title == ""
      ensures error <==> sent.None?
    {
      var trimmedTitle := Trim(title);
      if trimmedTitle != [] {
        sent := Some(trimmedTitle);
        title := "";
      } else {
        sent := None;
        error := true;
      }
      title := "";
    }

    /** An edit of the input: the new value replaces the title and the error is cleared. */
    method SetLocalTitleHandler(value: string)
      modifies this
      ensures Valid()
      ensures title == value && !error
    {
      if error {
        error := false;
      }
      title := value;
    }

    /** A key press in the input: Enter submits whenever the input is not empty. */
    method OnEnter(key: string) returns (sent: Option<string>)
      requires Valid()
      modifies this
      ensures Valid()
      ensures EnterEnabled(old(title)) && key == "Enter" ==>
                sent == Submission(old(title)) && title == "" && (error <==> sent.None?)
      ensures !(EnterEnabled(old(title)) && key == "Enter") ==>
                sent == None && title == old(title) && error == old(error)
    {
      if !InputIsEmpty() && key == "Enter" {
        sent := AddTaskItem();
      } else {
        sent := None;
      }
    }

    /** A click on the add button, which is disabled while adding is not possible. */
    method OnAddButtonClick() returns (sent: Option<string>)
      requires Valid()
      modifies this
      ensures Valid()
      ensures !IsAddTaskNotPossible(old(title)) ==>
                sent == Submission(old(title)) && title == "" && (error <==> sent.None?)
      ensures IsAddTaskNotPossible(old(title)) ==>
                sent == None && title == old(title) && error == old(error)
    {
      if IsAddTaskNotPossible(title) {
        sent := None;
      } else {
        sent := AddTaskItem();
      }
    }
  }
}
