# To-do list: view filter, dispatch fan-out and title inputs

A Dafny model of the logic in a small React to-do list application. The
application keeps several named to-do lists. Each list holds tasks, and each
task is done or not done. A list is shown through a filter: all, active or
completed.

The model covers three parts of the application.

- **The view filter** (`Tasks.dfy`). `FilteredTasksForRender` selects the tasks a list shows.
  - Under "all" the list comes back unchanged.
  - Under "active" and "completed" the result is exactly the not-done or done tasks, in their original order.
  - The two views partition the list, and filtering twice equals filtering once.
- **The dispatch fan-out** (`Dispatch.dfy`). The application shell holds two reducer-backed stores: the lists and the tasks per list.
  - Its handlers build action values and dispatch them.
  - Creating or removing a list sends the identical action value to the list store and then to the task store.
  - Every other action goes to exactly one store.
  - The class `App` records every dispatch in a log. The model proves that both stores receive the same list creations and removals, in the same order. They rely on this to stay consistent.
- **The title inputs** (`Text.dfy`, `TitleRules.dfy`, `ToDoList.dfy`, `AddItemForm.dfy`). Both inputs hold a `title` and an `error` flag.
  - An edit replaces the title and clears the error.
  - A submit trims the title. It either hands the trimmed title to the callback or raises the error, and it always clears the title.
  - Both inputs keep `error ==> title == ""`.
  - The add button is disabled when the title is empty or at least 20 characters long. "Title should be shorter" shows for lengths 11 to 20, and "Title too long" shows above 20.
  - The two inputs gate the Enter key differently. In the ToDoList input, Enter works only when adding is possible. In AddItemForm, Enter works whenever the input is not empty. So AddItemForm can submit a title of 20 or more characters, even though its add button is disabled.
  - ToDoList also scans its tasks for a done one, and that scan picks the container class.

The reducers, and what each action does to a store, are outside the model. So
are the action constructors' internals, identifier generation and rendering.
Each store's state is the result of the actions it has received, so the model
states its properties over those action streams.

## Model

| member | source | states |
|---|---|---|
| `Tasks.FilteredTasksForRender` | 1-todolist/src/AppWithReducers.tsx:104-116 | "all" returns the list itself. Every view is an order-preserving subsequence of the list. "active" holds only not-done tasks, as many as the list has; "completed" likewise for done tasks |
| `Tasks.WithStatus` | 1-todolist/src/AppWithReducers.tsx:108-111 | the `filter` call keeps only tasks with the wanted status, and as many as the input holds |
| `Tasks.WithStatusIsSubsequence` | 1-todolist/src/AppWithReducers.tsx:108-111 | the filtered tasks are an order-preserving subsequence of the input |
| `Tasks.WithStatusCharacterised` | 1-todolist/src/AppWithReducers.tsx:108-111 | a sequence is the active (completed) view iff it is a subsequence of the list, holds only not-done (done) tasks, and holds all of them. Both directions |
| `Tasks.WithStatusMembers` | 1-todolist/src/AppWithReducers.tsx:108-111 | a task is in the active (completed) view iff it is in the list and is not done (done) |
| `Tasks.ActiveCompletedPartition` | 1-todolist/src/AppWithReducers.tsx:108-111 | the active and completed views are subsequences of the list. Their lengths sum to its length, and their multisets add up to its multiset |
| `Tasks.FilterIdempotent` | 1-todolist/src/AppWithReducers.tsx:104-116 | filtering a view again with the same filter leaves it unchanged |
| `Tasks.TaskViewsForRender` | 1-todolist/src/AppWithReducers.tsx:118-119 | one view per list, in list order. Under "all" a view is that list's tasks. Under "active" ("completed") it is a subsequence of them, holds only not-done (done) tasks, and holds as many as the list has, which fixes it uniquely. Every list must have a task-store entry |
| `Dispatch.Domain` | 1-todolist/src/AppWithReducers.tsx:73-101 | the list actions (creation, removal, title and filter changes) belong to the list store, every task action to the task store |
| `Dispatch.Targets` | 1-todolist/src/AppWithReducers.tsx:73-101 | an action always reaches its own store. It reaches the other store only when that is the task store and the action creates or removes a list. The list store receives only list actions |
| `Dispatch.DispatchesOf` | 1-todolist/src/AppWithReducers.tsx:90-98 | a handler dispatches one or two entries, all carrying the one action value it built. There are two exactly for list creation and removal: the list store first, then the task store. Only targeted stores receive it, and each targeted store does |
| `Dispatch.ReceivedOfDispatches` | 1-todolist/src/AppWithReducers.tsx:73-101 | one handler call delivers its action to a store exactly once if the fan-out rule targets that store, and never otherwise |
| `Dispatch.ReceivedIsSentTo` | 1-todolist/src/AppWithReducers.tsx:73-101 | over any history of handler calls, each store receives, in order, exactly the actions the fan-out rule assigns to it |
| `Dispatch.SentToDomains` | 1-todolist/src/AppWithReducers.tsx:73-101 | the list store receives only list actions. The task store receives only task actions and list creations and removals |
| `Dispatch.LifecycleAgreement` | 1-todolist/src/AppWithReducers.tsx:90-98 | both stores receive the same list creations and removals, identical values in the same order, and exactly those the handlers built |
| `Dispatch.FanOutPaired` | 1-todolist/src/AppWithReducers.tsx:90-98 | every list creation or removal sent to the list store is followed directly by the identical value sent to the task store, and conversely. The log is as long as the number of handler calls plus the number of list creations and removals |
| `Dispatch.App.TaskRemover` | 1-todolist/src/AppWithReducers.tsx:73-75 | appends exactly one remove-task dispatch to the task store |
| `Dispatch.App.AddTask` | 1-todolist/src/AppWithReducers.tsx:76-78 | appends exactly one add-task dispatch to the task store |
| `Dispatch.App.ChangeTaskStatus` | 1-todolist/src/AppWithReducers.tsx:79-81 | appends exactly one status-change dispatch to the task store |
| `Dispatch.App.ChangeTaskTitle` | 1-todolist/src/AppWithReducers.tsx:82-84 | appends exactly one title-change dispatch to the task store |
| `Dispatch.App.ChangeToDoListFilter` | 1-todolist/src/AppWithReducers.tsx:87-89 | appends exactly one filter-change dispatch to the list store |
| `Dispatch.App.RemoveTodoList` | 1-todolist/src/AppWithReducers.tsx:90-93 | appends the remove action for the same id to the list store and then to the task store |
| `Dispatch.App.AddTodoList` | 1-todolist/src/AppWithReducers.tsx:94-98 | builds one action value and appends that value first to the list store, then to the task store |
| `Dispatch.App.ChangeToDoListTitle` | 1-todolist/src/AppWithReducers.tsx:99-101 | appends exactly one title-change dispatch to the list store |
| `Dispatch.App.DispatchTo` | 1-todolist/src/AppWithReducers.tsx:53-57 | a dispatch adds one entry to the log and nothing else |
| `Text.TrimStart` | 1-todolist/src/ToDoList.tsx:58 | the result is a suffix of the input that does not start with whitespace, and only whitespace is dropped |
| `Text.TrimEnd` | 1-todolist/src/ToDoList.tsx:58 | the result is a prefix of the input that does not end with whitespace, and only whitespace is dropped |
| `Text.Trim` | 1-todolist/src/ToDoList.tsx:58 | the result is the slice of the input after its leading whitespace. Only whitespace lies outside it, and it neither starts nor ends with whitespace |
| `Text.TrimEmptyIffAllWhitespace` | 1-todolist/src/Components/AddItemForm/AddItemForm.tsx:12-13 | trimming gives the empty string iff the input is all whitespace |
| `Text.TrimIdempotent` | 1-todolist/src/Components/AddItemForm/AddItemForm.tsx:12 | trimming twice equals trimming once |
| `TitleRules.Submission` | 1-todolist/src/Components/AddItemForm/AddItemForm.tsx:12-14 | nothing is submitted iff the title is all whitespace. What is submitted is never empty, never starts or ends with whitespace, and is the title's slice after its leading whitespace |
| `TitleRules.SubmissionIdempotent` | 1-todolist/src/Components/AddItemForm/AddItemForm.tsx:12-14 | a submitted title, submitted again, is submitted unchanged |
| `TitleRules.IsAddTaskNotPossible` | 1-todolist/src/ToDoList.tsx:54 | adding is possible exactly for titles of 1 to 19 characters (the same gate is at AddItemForm.tsx:33) |
| `TitleRules.ShowsLengthWarning` | 1-todolist/src/ToDoList.tsx:97 | "Title should be shorter" shows only above 10 characters and always for 11 to 19. It comes with a disabled button only at exactly 20 (the same condition is at AddItemForm.tsx:56) |
| `TitleRules.ShowsLengthError` | 1-todolist/src/ToDoList.tsx:98 | "Title too long" shows exactly from 21 characters on, and only with a disabled button (the same condition is at AddItemForm.tsx:57) |
| `TitleRules.LengthMessagesExclusive` | 1-todolist/src/ToDoList.tsx:97-98 | "should be shorter" and "too long" are never shown together. "too long" comes only with a disabled button. At exactly 20 characters the button is disabled, but only the warning shows |
| `ToDoListView.AllTasksNotDone` | 1-todolist/src/ToDoList.tsx:26-32 | the flag is true iff no task is done. The scan goes in index order, stays within the sequence, and stops at the first done task |
| `ToDoListView.TodoClasses` | 1-todolist/src/ToDoList.tsx:34 | the class is `todolist-empty` iff no task is done, and `todolist` iff some task is done |
| `ToDoListView.NoTaskDoneIffNoneCounted` | 1-todolist/src/ToDoList.tsx:26-32 | no task is done iff the count of done tasks is zero |
| `ToDoListView.EnterEnabled` | 1-todolist/src/ToDoList.tsx:71-73 | the Enter key has a handler exactly for titles of 1 to 19 characters |
| `ToDoListView.EnterSubmissionIsShort` | 1-todolist/src/ToDoList.tsx:71-73 | whatever Enter can submit is non-empty and shorter than 20 characters |
| `ToDoListView.ToDoList.constructor` | 1-todolist/src/ToDoList.tsx:23-25 | the input starts with an empty title and no error, so its invariant holds |
| `ToDoListView.ToDoList.InputClass` | 1-todolist/src/ToDoList.tsx:89 | the input's class is `input-error` iff the error is raised, and empty otherwise |
| `ToDoListView.ToDoList.AddTaskHandler` | 1-todolist/src/ToDoList.tsx:57-67 | hands the trimmed title to `addTask` exactly when it is non-empty, and otherwise raises the error. Clears the title either way. Afterwards the error is raised iff nothing was submitted |
| `ToDoListView.ToDoList.SetLocalTitleHandler` | 1-todolist/src/ToDoList.tsx:68-70 | the title becomes the edited value, and the error is cleared |
| `ToDoListView.ToDoList.OnKeyDownAddTaskHandler` | 1-todolist/src/ToDoList.tsx:71-73 | Enter submits only while adding is possible. Any other key, or Enter otherwise, changes nothing. What it submits is shorter than 20 characters |
| `ToDoListView.ToDoList.OnAddButtonClick` | 1-todolist/src/ToDoList.tsx:91-95 | the button submits only while adding is possible, and otherwise changes nothing |
| `AddItemFormView.EnterEnabled` | 1-todolist/src/Components/AddItemForm/AddItemForm.tsx:28-29 | the Enter key has a handler exactly when the title is not empty |
| `AddItemFormView.EnterGateComparedWithToDoList` | 1-todolist/src/Components/AddItemForm/AddItemForm.tsx:28-29 | where the ToDoList input accepts Enter, this form does too. Only this form accepts it, exactly at 20 characters or more |
| `AddItemFormView.EnterSubmitsPastDisabledButton` | 1-todolist/src/Components/AddItemForm/AddItemForm.tsx:28-33 | a title of 20 or more characters that is not all whitespace has Enter enabled and the button disabled, and Enter submits it. With no whitespace at its ends, it is submitted whole |
| `AddItemFormView.AddItemForm.constructor` | 1-todolist/src/Components/AddItemForm/AddItemForm.tsx:8-9 | the form starts with an empty title and no error, so its invariant holds |
| `AddItemFormView.AddItemForm.InputIsEmpty` | 1-todolist/src/Components/AddItemForm/AddItemForm.tsx:22 | true iff the title is the empty string |
| `AddItemFormView.AddItemForm.InputClass` | 1-todolist/src/Components/AddItemForm/AddItemForm.tsx:48 | the input's class is `input-error` iff the error is raised, and `input` otherwise |
| `AddItemFormView.AddItemForm.AddTaskItem` | 1-todolist/src/Components/AddItemForm/AddItemForm.tsx:11-20 | hands the trimmed title to `addNewItem` exactly when it is non-empty, and otherwise raises the error. Clears the title either way. Afterwards the error is raised iff nothing was submitted |
| `AddItemFormView.AddItemForm.SetLocalTitleHandler` | 1-todolist/src/Components/AddItemForm/AddItemForm.tsx:23-26 | the title becomes the edited value, and the error is cleared |
| `AddItemFormView.AddItemForm.OnEnter` | 1-todolist/src/Components/AddItemForm/AddItemForm.tsx:28-29 | Enter submits whenever the input is not empty, whatever its length. Any other key, or an empty input, changes nothing |
| `AddItemFormView.AddItemForm.OnAddButtonClick` | 1-todolist/src/Components/AddItemForm/AddItemForm.tsx:50-53 | the button submits only while adding is possible, and otherwise changes nothing |

## Left out

- The reducers `todolistReducer` and `tasksReducer` and the action constructors: their source is not part of this model. Actions are a datatype with one constructor per action constructor, carrying the arguments it is called with. A store's behaviour is described only through the stream of actions it receives.
- Identifier generation (`v1` from `uuid`): a foreign library. The id that `AddTodoListAC` generates for a new list is the parameter `newId` of `Dispatch.App.AddTodoList`. `RemoveTodoListAC` and the other constructors are taken to build equal values from equal arguments.
- Which component receives the filtered views: AppWithReducers.tsx renders the ToDoList of `./Components/ToDoList/ToDoList`, which is not part of this model, with props that the modelled `src/ToDoList.tsx` does not declare. The model therefore states nothing about the modelled ToDoList receiving the views of `Tasks.TaskViewsForRender`; its container scan is proved for whatever tasks it is given.
- The seed lists and tasks of the initial state: they are data, not logic.
- The clock-driven dark mode, theming, MUI layout and all JSX rendering. That includes the per-task row handlers and the filter buttons of the ToDoList component, which only forward to the application's handlers.
- The `default:` branch of the filter switch: it cannot be reached with the three-valued filter type, so the datatype match has no such case.
- `tasks[tl.id]` for a list with no task-store entry, which yields JavaScript's `undefined`: `Tasks.TaskViewsForRender` requires every list to have an entry.
- Text.IsWhitespace: covers the ASCII spaces and line breaks, no-break space, the line and paragraph separators and the byte-order mark. It does not cover the rest of the Unicode space separators that JavaScript's `trim` also removes. No proof depends on which characters the set holds.
- String lengths are counted in Unicode code points. JavaScript counts UTF-16 code units, so a title with characters outside the Basic Multilingual Plane hits the 10- and 20-character thresholds earlier in the browser than in the model.
- React's asynchronous state setters: each handler reads the state once and its updates take effect together when it returns, as they do after React's re-render. The duplicate `setTitle("")` in the submit handlers is kept as two assignments of the same value.
- The "Please write proper task title" message is shown exactly when `error` is set. It has no member of its own; the `error` field and `InputClass` carry that condition.
- The ToDoList component's other props (`taskRemover`, `changeTaskStatus`, `changeToDoListFilter`) and its type import of the filter type from `./App`: the module that defines it is not part of this model. The model reuses the three-valued filter type defined in AppWithReducers.tsx.
