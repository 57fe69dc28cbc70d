/** Entities of the to-do application and the view filter that selects which
    tasks of a list are rendered (AppWithReducers.tsx). */
module Tasks {

  /** The filter a to-do list shows its tasks through. */
  datatype FilterValue = All | Active | Completed

  datatype Task = Task(id: string, isDone: bool, title: string)

  datatype TodoList = TodoList(id: string, title: string, filter: FilterValue)

  /** The task store: list id to that list's tasks, in display order. */
  type TaskState = map<string, seq<Task>>

  /** `xs` is `ys` with some elements dropped, the rest kept in order. */
  predicate IsSubsequence(xs: seq<Task>, ys: seq<Task>)
    decreases |ys|
  {
    if xs == [] then true
    else if ys == [] then false
    else (xs[0] == ys[0] && IsSubsequence(xs[1..], ys[1..])) || IsSubsequence(xs, ys[1..])
  }

  /** Number of tasks in `s` whose status is `done`. */
  function CountWithStatus(s: seq<Task>, done: bool): nat
  {
    if s == [] then 0
    else (if s[0].isDone == done then 1 else 0) + CountWithStatus(s[1..], done)
  }

  /** The tasks of `s` whose status is `done`, in their original order
      (the `filter` call of the source). */
  function WithStatus(s: seq<Task>, done: bool): (r: seq<Task>)
    ensures forall i :: 0 <= i < |r| ==> r[i].isDone == done
    ensures |r| == CountWithStatus(s, done)
  {
    if s == [] then []
    else if s[0].isDone == done then [s[0]] + WithStatus(s[1..], done)
    else WithStatus(s[1..], done)
  }

  /** The tasks a list shows under `filterValue`. */
  function FilteredTasksForRender(taskList: seq<Task>, filterValue: FilterValue): (r: seq<Task>)
    ensures filterValue == All ==> r == taskList
    ensures IsSubsequence(r, taskList)
    ensures filterValue == Active ==>
              (forall i :: 0 <= i < |r| ==> !r[i].isDone) && |r| == CountWithStatus(taskList, false)
    ensures filterValue == Completed ==>
              (forall i :: 0 <= i < |r| ==> r[i].isDone) && |r| == CountWithStatus(taskList, true)
  {
    WithStatusIsSubsequence(taskList, false);
    WithStatusIsSubsequence(taskList, true);
    SubsequenceReflexive(taskList);
    match filterValue
    case All => taskList
    case Active => WithStatus(taskList, false)
    case Completed => WithStatus(taskList, true)
  }

  lemma {:induction false} WithStatusIsSubsequence(s: seq<Task>, done: bool)
    ensures IsSubsequence(WithStatus(s, done), s)
    decreases |s|
  {
    if s != [] {
      WithStatusIsSubsequence(s[1..], done);
      if s[0].isDone != done {
        SubsequenceOfTail(WithStatus(s[1..], done), s);
      }
    }
  }

  lemma {:induction false} SubsequenceReflexive(s: seq<Task>)
    ensures IsSubsequence(s, s)
    decreases |s|
  {
    if s != [] {
      SubsequenceReflexive(s[1..]);
    }
  }

  /** A subsequence of the tail is a subsequence of the whole. */
  lemma {:induction false} SubsequenceOfTail(xs: seq<Task>, ys: seq<Task>)
    requires ys != [] && IsSubsequence(xs, ys[1..])
    ensures IsSubsequence(xs, ys)
  {
  }

  /** A subsequence whose tasks all have status `done` is no longer than
      the number of such tasks in the whole. */
  lemma {:induction false} MatchingSubsequenceBound(xs: seq<Task>, ys: seq<Task>, done: bool)
    requires IsSubsequence(xs, ys)
    requires forall i :: 0 <= i < |xs| ==> xs[i].isDone == done
    ensures |xs| <= CountWithStatus(ys, done)
    decreases |ys|
  {
    if xs != [] {
      if xs[0] == ys[0] && IsSubsequence(xs[1..], ys[1..]) {
        MatchingSubsequenceBound(xs[1..], ys[1..], done);
      } else {
        MatchingSubsequenceBound(xs, ys[1..], done);
      }
    }
  }

  /** Characterisation of the active/completed views: `r` is the filtered
      view exactly when it is an order-preserving subsequence of `s` made of
      tasks with the wanted status and holding all of them. */
  lemma {:induction false} WithStatusCharacterised(r: seq<Task>, s: seq<Task>, done: bool)
    ensures r == WithStatus(s, done) <==>
              IsSubsequence(r, s)
              && (forall i :: 0 <= i < |r| ==> r[i].isDone == done)
              && |r| == CountWithStatus(s, done)
    decreases |s|
  {
    if r == WithStatus(s, done) {
      WithStatusIsSubsequence(s, done);
    } else if IsSubsequence(r, s) && (forall i :: 0 <= i < |r| ==> r[i].isDone == done)
              && |r| == CountWithStatus(s, done) {
      MatchingIsFiltered(r, s, done);
    }
  }

  lemma {:induction false} MatchingIsFiltered(r: seq<Task>, s: seq<Task>, done: bool)
    requires IsSubsequence(r, s)
    requires forall i :: 0 <= i < |r| ==> r[i].isDone == done
    requires |r| == CountWithStatus(s, done)
    ensures r == WithStatus(s, done)
    decreases |s|
  {
    if r == [] {
      assert |WithStatus(s, done)| == 0;
    } else if r[0] == s[0] && IsSubsequence(r[1..], s[1..]) {
      MatchingIsFiltered(r[1..], s[1..], done);
      assert r == [r[0]] + r[1..];
    } else {
      MatchingSubsequenceBound(r, s[1..], done);
      MatchingIsFiltered(r, s[1..], done);
    }
  }

  /** The tasks of both statuses together are the whole list. */
  lemma {:induction false} WithStatusSplit(s: seq<Task>)
    ensures multiset(WithStatus(s, false)) + multiset(WithStatus(s, true)) == multiset(s)
    decreases |s|
  {
    if s != [] {
      WithStatusSplit(s[1..]);
      assert s == [s[0]] + s[1..];
    }
  }

  /** The active and completed views split the list: they are subsequences of
      it, and together hold every task exactly as often as the list does. */
  lemma {:induction false} ActiveCompletedPartition(s: seq<Task>)
    ensures multiset(FilteredTasksForRender(s, Active)) + multiset(FilteredTasksForRender(s, Completed))
            == multiset(s)
    ensures |FilteredTasksForRender(s, Active)| + |FilteredTasksForRender(s, Completed)| == |s|
    ensures IsSubsequence(FilteredTasksForRender(s, Active), s)
    ensures IsSubsequence(FilteredTasksForRender(s, Completed), s)
  {
    WithStatusSplit(s);
    assert |multiset(s)| == |s|;
  }

  /** A task is in the active (completed) view exactly when it is in the list
      and is not done (is done). */
  lemma {:induction false} WithStatusMembers(s: seq<Task>, done: bool, t: Task)
    ensures t in WithStatus(s, done) <==> t in s && t.isDone == done
    decreases |s|
  {
    if s != [] {
      WithStatusMembers(s[1..], done, t);
      assert s == [s[0]] + s[1..];
    }
  }

  /** Filtering is idempotent: a filtered view filtered again is unchanged. */
  lemma {:induction false} FilterIdempotent(s: seq<Task>, f: FilterValue)
    ensures FilteredTasksForRender(FilteredTasksForRender(s, f), f) == FilteredTasksForRender(s, f)
  {
    match f
    case All =>
    case Active => WithStatusFixed(WithStatus(s, false), false);
    case Completed => WithStatusFixed(WithStatus(s, true), true);
  }

  /** Filtering a sequence whose tasks all have the wanted status changes nothing. */
  lemma {:induction false} WithStatusFixed(s: seq<Task>, done: bool)
    requires forall i :: 0 <= i < |s| ==> s[i].isDone == done
    ensures WithStatus(s, done) == s
    decreases |s|
  {
    if s != [] {
      WithStatusFixed(s[1..], done);
      assert s == [s[0]] + s[1..];
    }
  }

  /** The views the application renders, one per to-do list, in list order
      (`tasks[tl.id]` requires the list to have an entry in the store). Under
      "all" a view is the list's tasks; under "active" and "completed" it is a
      subsequence of them with the wanted status and as many tasks as have it,
      which by `WithStatusCharacterised` fixes it uniquely. */
  function TaskViewsForRender(todoLists: seq<TodoList>, tasks: TaskState): (views: seq<seq<Task>>)
    requires forall i :: 0 <= i < |todoLists| ==> todoLists[i].id in tasks
    ensures |views| == |todoLists|
    ensures forall i :: 0 <= i < |views| ==> IsSubsequence(views[i], tasks[todoLists[i].id])
    ensures forall i :: 0 <= i < |views| && todoLists[i].filter == All ==> views[i] == tasks[todoLists[i].id]
    ensures forall i :: 0 <= i < |views| && todoLists[i].filter == Active ==>
              && (forall k :: 0 <= k < |views[i]| ==> !views[i][k].isDone)
              && |views[i]| == CountWithStatus(tasks[todoLists[i].id], false)
    ensures forall i :: 0 <= i < |views| && todoLists[i].filter == Completed ==>
              && (forall k :: 0 <= k < |views[i]| ==> views[i][k].isDone)
              && |views[i]| == CountWithStatus(tasks[todoLists[i].id], true)
  {
    seq(|todoLists|, i requires 0 <= i < |todoLists| =>
      FilteredTasksForRender(tasks[todoLists[i].id], todoLists[i].filter))
  }
}
