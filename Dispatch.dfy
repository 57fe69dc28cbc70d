/** The UI handlers of AppWithReducers.tsx and the rule by which they fan
    action values out to the two stores. The reducers themselves are not
    modelled: what each store ends up holding is determined by the sequence of
    actions it receives, and that sequence is what this module describes. */
module Dispatch {
  import opened Tasks

  /** The two reducer-backed stores: the to-do lists and the tasks per list. */
  datatype Store = TodoListsStore | TasksStore

  /** Action values, one kind per action constructor. `AddTodoList` carries the
      id its constructor generates for the new list. */
  datatype Action =
    | AddTodoList(title: string, todoListId: string)
    | RemoveTodoList(todoListId: string)
    | ChangeTodoListTitle(todoListId: string, title: string)
    | ChangeTodoListFilter(todoListId: string, filter: FilterValue)
    | RemoveTask(taskId: string, todoListId: string)
    | AddTask(title: string, todoListId: string)
    | ChangeTaskStatus(taskId: string, isDone: bool, todoListId: string)
    | ChangeTaskTitle(taskId: string, title: string, todoListId: string)

  /** Creating or removing a list: both stores must react. */
  predicate IsListLifecycle(a: Action)
  {
    a.AddTodoList? || a.RemoveTodoList?
  }

  /** The store whose state an action is about. */
  function Domain(a: Action): (store: Store)
    ensures store == TodoListsStore <==>
              a.AddTodoList? || a.RemoveTodoList? || a.ChangeTodoListTitle? || a.ChangeTodoListFilter?
    ensures IsListLifecycle(a) ==> store == TodoListsStore
  {
    match a
    case AddTodoList(_, _) => TodoListsStore
    case RemoveTodoList(_) => TodoListsStore
    case ChangeTodoListTitle(_, _) => TodoListsStore
    case ChangeTodoListFilter(_, _) => TodoListsStore
    case _ => TasksStore
  }

  /** The fan-out rule: an action goes to its own store, and a list lifecycle
      action to the task store as well. */
  function Targets(store: Store, a: Action): (targeted: bool)
    ensures store == Domain(a) ==> targeted
    ensures targeted && store != Domain(a) ==> store == TasksStore && IsListLifecycle(a)
    ensures store == TodoListsStore ==> (targeted <==> Domain(a) == TodoListsStore)
  {
    Domain(a) == store || (store == TasksStore && IsListLifecycle(a))
  }

  /** One entry of the dispatch log: an action value handed to a store. */
  datatype Dispatched = Dispatched(store: Store, action: Action)

  /** The dispatches a handler performs for the action it builds: the same
      value to every store the rule targets, the list store first. */
  function DispatchesOf(a: Action): (d: seq<Dispatched>)
    ensures 1 <= |d| <= 2 && (|d| == 2 <==> IsListLifecycle(a))
    ensures forall i :: 0 <= i < |d| ==> d[i].action == a && Targets(d[i].store, a)
    ensures forall store :: Targets(store, a) ==> d[0].store == store || d[|d| - 1].store == store
    ensures |d| == 2 ==> d[0].store == TodoListsStore && d[1].store == TasksStore
  {
    if IsListLifecycle(a) then [Dispatched(TodoListsStore, a), Dispatched(TasksStore, a)]
    else [Dispatched(Domain(a), a)]
  }

  /** The dispatch log produced by handler calls building `actions`, in order. */
  function FanOut(actions: seq<Action>): seq<Dispatched>
  {
    if actions == [] then []
    else FanOut(actions[..|actions| - 1]) + DispatchesOf(actions[|actions| - 1])
  }

  /** The actions a store receives, in the order of the log. */
  function Received(log: seq<Dispatched>, store: Store): seq<Action>
  {
    if log == [] then []
    else
      var last := log[|log| - 1];
      Received(log[..|log| - 1], store) + (if last.store == store then [last.action] else [])
  }

  /** Reference definition: the actions of `actions` the rule sends to `store`. */
  function SentTo(actions: seq<Action>, store: Store): seq<Action>
  {
    if actions == [] then []
    else
      var last := actions[|actions| - 1];
      SentTo(actions[..|actions| - 1], store) + (if Targets(store, last) then [last] else [])
  }

  /** The list lifecycle actions of `actions`, in order. */
  function Lifecycle(actions: seq<Action>): seq<Action>
  {
    if actions == [] then []
    else
      var last := actions[|actions| - 1];
      Lifecycle(actions[..|actions| - 1]) + (if IsListLifecycle(last) then [last] else [])
  }

  lemma {:induction false} ReceivedAppend(l1: seq<Dispatched>, l2: seq<Dispatched>, store: Store)
    ensures Received(l1 + l2, store) == Received(l1, store) + Received(l2, store)
    decreases |l2|
  {
    if l2 != [] {
      var l := l1 + l2;
      assert l[..|l| - 1] == l1 + l2[..|l2| - 1];
      assert l[|l| - 1] == l2[|l2| - 1];
      ReceivedAppend(l1, l2[..|l2| - 1], store);
    } else {
      assert l1 + l2 == l1;
    }
  }

  /** Each store receives, in order, exactly the actions the fan-out rule
      sends it. */
  lemma {:induction false} ReceivedIsSentTo(actions: seq<Action>, store: Store)
    ensures Received(FanOut(actions), store) == SentTo(actions, store)
    decreases |actions|
  {
    if actions != [] {
      var prefix, a := actions[..|actions| - 1], actions[|actions| - 1];
      ReceivedIsSentTo(prefix, store);
      ReceivedAppend(FanOut(prefix), DispatchesOf(a), store);
      ReceivedOfDispatches(a, store);
    }
  }

  /** A store receives an action's value once if the rule targets it, never otherwise. */
  lemma ReceivedOfDispatches(a: Action, store: Store)
    ensures Received(DispatchesOf(a), store) == if Targets(store, a) then [a] else []
  {
    var d := DispatchesOf(a);
    assert Received(d[..0], store) == [];
    if |d| == 2 {
      assert d[..1] == [d[0]];
      assert Received(d[..1], store) == if d[0].store == store then [a] else [];
    }
  }

  /** The list store only ever receives list actions; the task store receives
      task actions and the list lifecycle actions, nothing else. */
  lemma {:induction false} SentToDomains(actions: seq<Action>, store: Store)
    ensures forall i :: 0 <= i < |SentTo(actions, store)| ==> Targets(store, SentTo(actions, store)[i])
    ensures store == TodoListsStore ==>
              forall i :: 0 <= i < |SentTo(actions, store)| ==> Domain(SentTo(actions, store)[i]) == TodoListsStore
    decreases |actions|
  {
    if actions != [] {
      SentToDomains(actions[..|actions| - 1], store);
    }
  }

  /** Both stores see the same list creations and removals, the identical
      values in the identical order: the list/task-store consistency the
      application relies on. */
  lemma {:induction false} LifecycleAgreement(actions: seq<Action>)
    ensures Lifecycle(Received(FanOut(actions), TodoListsStore)) == Lifecycle(actions)
    ensures Lifecycle(Received(FanOut(actions), TasksStore)) == Lifecycle(actions)
  {
    ReceivedIsSentTo(actions, TodoListsStore);
    ReceivedIsSentTo(actions, TasksStore);
    LifecycleOfSentTo(actions, TodoListsStore);
    LifecycleOfSentTo(actions, TasksStore);
  }

  lemma {:induction false} LifecycleOfSentTo(actions: seq<Action>, store: Store)
    ensures Lifecycle(SentTo(actions, store)) == Lifecycle(actions)
    decreases |actions|
  {
    if actions != [] {
      var prefix, a := actions[..|actions| - 1], actions[|actions| - 1];
      LifecycleOfSentTo(prefix, store);
      var sent := SentTo(actions, store);
      if Targets(store, a) {
        assert sent[..|sent| - 1] == SentTo(prefix, store);
      } else {
        assert sent == SentTo(prefix, store);
      }
    }
  }

  /** In the log, every lifecycle dispatch to the list store is followed
      directly by the identical value to the task store, and every lifecycle
      dispatch to the task store directly follows it. */
  predicate PairedLifecycle(log: seq<Dispatched>)
  {
    && (forall i :: 0 <= i < |log| && log[i].store == TodoListsStore && IsListLifecycle(log[i].action) ==>
          i + 1 < |log| && log[i + 1] == Dispatched(TasksStore, log[i].action))
    && (forall i :: 0 <= i < |log| && log[i].store == TasksStore && IsListLifecycle(log[i].action) ==>
          0 < i && log[i - 1] == Dispatched(TodoListsStore, log[i].action))
  }

  lemma {:induction false} FanOutPaired(actions: seq<Action>)
    ensures PairedLifecycle(FanOut(actions))
    ensures |FanOut(actions)| == |actions| + |Lifecycle(actions)|
    decreases |actions|
  {
    if actions != [] {
      var prefix, a := actions[..|actions| - 1], actions[|actions| - 1];
      FanOutPaired(prefix);
      var l, d := FanOut(prefix), DispatchesOf(a);
      var log := l + d;
      forall i | 0 <= i < |log| && log[i].store == TodoListsStore && IsListLifecycle(log[i].action)
        ensures i + 1 < |log| && log[i + 1] == Dispatched(TasksStore, log[i].action)
      {
        if i < |l| {
          assert log[i] == l[i];
        } else {
          assert log[i] == d[i - |l|];
        }
      }
      forall i | 0 <= i < |log| && log[i].store == TasksStore && IsListLifecycle(log[i].action)
        ensures 0 < i && log[i - 1] == Dispatched(TodoListsStore, log[i].action)
      {
        if i < |l| {
          assert log[i] == l[i];
        } else {
          assert log[i] == d[i - |l|];
        }
      }
    }
  }

  /** The application shell: its handlers build action values and hand them to
      the stores' dispatch functions; `log` records every dispatch in order.
      `actions` is the history of action values the handlers built. */
  class App {
    var log: seq<Dispatched>
    ghost var actions: seq<Action>

    ghost predicate Valid()
      reads this
    {
      log == FanOut(actions)
    }

    constructor ()
      ensures Valid() && log == [] && actions == []
    {
      log := [];
      actions := [];
    }

    /** Sends `a` to the given store's reducer. */
    method DispatchTo(store: Store, a: Action)
      modifies this`log
      ensures log == old(log) + [Dispatched(store, a)]
    {
      log := log + [Dispatched(store, a)];
    }

    method TaskRemover(taskId: string, todoListId: string)
      requires Valid()
      modifies this
      ensures Valid() && actions == old(actions) + [Action.RemoveTask(taskId, todoListId)]
      ensures log == old(log) + [Dispatched(TasksStore, Action.RemoveTask(taskId, todoListId))]
    {
      DispatchTo(TasksStore, Action.RemoveTask(taskId, todoListId));
      actions := actions + [Action.RemoveTask(taskId, todoListId)];
      assert actions[..|actions| - 1] == old(actions);
    }

    method AddTask(title: string, todoListId: string)
      requires Valid()
      modifies this
      ensures Valid() && actions == old(actions) + [Action.AddTask(title, todoListId)]
      ensures log == old(log) + [Dispatched(TasksStore, Action.AddTask(title, todoListId))]
    {
      DispatchTo(TasksStore, Action.AddTask(title, todoListId));
      actions := actions + [Action.AddTask(title, todoListId)];
      assert actions[..|actions| - 1] == old(actions);
    }

    method ChangeTaskStatus(taskId: string, newIsDone: bool, todoListId: string)
      requires Valid()
      modifies this
      ensures Valid() && actions == old(actions) + [Action.ChangeTaskStatus(taskId, newIsDone, todoListId)]
      ensures log == old(log) + [Dispatched(TasksStore, Action.ChangeTaskStatus(taskId, newIsDone, todoListId))]
    {
      DispatchTo(TasksStore, Action.ChangeTaskStatus(taskId, newIsDone, todoListId));
      actions := actions + [Action.ChangeTaskStatus(taskId, newIsDone, todoListId)];
      assert actions[..|actions| - 1] == old(actions);
    }

    method ChangeTaskTitle(taskId: string, newTitle: string, todoListId: string)
      requires Valid()
      modifies this
      ensures Valid() && actions == old(actions) + [Action.ChangeTaskTitle(taskId, newTitle, todoListId)]
      ensures log == old(log) + [Dispatched(TasksStore, Action.ChangeTaskTitle(taskId, newTitle, todoListId))]
    {
      DispatchTo(TasksStore, Action.ChangeTaskTitle(taskId, newTitle, todoListId));
      actions := actions + [Action.ChangeTaskTitle(taskId, newTitle, todoListId)];
      assert actions[..|actions| - 1] == old(actions);
    }

    method ChangeToDoListFilter(filter: FilterValue, todoListId: string)
      requires Valid()
      modifies this
      ensures Valid() && actions == old(actions) + [Action.ChangeTodoListFilter(todoListId, filter)]
      ensures log == old(log) + [Dispatched(TodoListsStore, Action.ChangeTodoListFilter(todoListId, filter))]
    {
      DispatchTo(TodoListsStore, Action.ChangeTodoListFilter(todoListId, filter));
      actions := actions + [Action.ChangeTodoListFilter(todoListId, filter)];
      assert actions[..|actions| - 1] == old(actions);
    }

    /** Builds the remove action twice from the same id; the two values are equal. */
    method RemoveTodoList(todoListsId: string)
      requires Valid()
      modifies this
      ensures Valid() && actions == old(actions) + [Action.RemoveTodoList(todoListsId)]
      ensures log == old(log) + [Dispatched(TodoListsStore, Action.RemoveTodoList(todoListsId)),
                                 Dispatched(TasksStore, Action.RemoveTodoList(todoListsId))]
    {
      DispatchTo(TodoListsStore, Action.RemoveTodoList(todoListsId));
      DispatchTo(TasksStore, Action.RemoveTodoList(todoListsId));
      actions := actions + [Action.RemoveTodoList(todoListsId)];
      assert actions[..|actions| - 1] == old(actions);
    }

    /** Builds one action, carrying the id `newId` its constructor generates,
        and hands that same value to both stores. */
    method AddTodoList(title: string, newId: string)
      requires Valid()
      modifies this
      ensures Valid() && actions == old(actions) + [Action.AddTodoList(title, newId)]
      ensures log == old(log) + [Dispatched(TodoListsStore, Action.AddTodoList(title, newId)),
                                 Dispatched(TasksStore, Action.AddTodoList(title, newId))]
    {
      var action := Action.AddTodoList(title, newId);
      DispatchTo(TodoListsStore, action);
      DispatchTo(TasksStore, action);
      actions := actions + [action];
      assert actions[..|actions| - 1] == old(actions);
    }

    method ChangeToDoListTitle(newTitle: string, todoListId: string)
      requires Valid()
      modifies this
      ensures Valid() && actions == old(actions) + [Action.ChangeTodoListTitle(todoListId, newTitle)]
      ensures log == old(log) + [Dispatched(TodoListsStore, Action.ChangeTodoListTitle(todoListId, newTitle))]
    {
      DispatchTo(TodoListsStore, Action.ChangeTodoListTitle(todoListId, newTitle));
      actions := actions + [Action.ChangeTodoListTitle(todoListId, newTitle)];
      assert actions[..|actions| - 1] == old(actions);
    }
  }
}
