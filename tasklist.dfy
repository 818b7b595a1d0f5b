/** The task list view: the tasks a view shows, in the order the list's
    comparator gives (open before completed, then priority, then due date,
    then newest first). */
module TaskList {
  import opened Wrappers
  import opened Calendar
  import opened Types
  import Seqs
  import Sorting
  import Tasks

  /** The test of the `filteredTasks` switch. */
  predicate ShownIn(t: Task, filter: TaskFilter, today: Day) {
    match filter
    case TodayView => !IsCompleted(t) && t.dueDate.Some? && t.dueDate.value == today
    case ThisWeekView => !IsCompleted(t) && t.dueDate.Some? && IsThisWeek(t.dueDate.value, today)
    case BacklogView => !IsCompleted(t) && t.dueDate.None?
    case CompletedView => IsCompleted(t)
  }

  function ShownBy(filter: TaskFilter, today: Day): Task -> bool {
    (t: Task) => ShownIn(t, filter, today)
  }

  function FilteredTasks(tasks: seq<Task>, filter: TaskFilter, today: Day): (r: seq<Task>)
  {
    Seqs.Filter(tasks, ShownBy(filter, today))
  }

  /** The views agree with `filterTasksByDate` on today and this week; the
      list's backlog is narrower, holding only undated tasks; the completed
      view is disjoint from the other three. */
  lemma {:induction false} ViewsAgainstDateFilter(tasks: seq<Task>, today: Day, t: Task)
    ensures t in FilteredTasks(tasks, TodayView, today) <==> t in Tasks.FilterTasksByDate(tasks, Tasks.DueToday, today)
    ensures t in FilteredTasks(tasks, ThisWeekView, today) <==> t in Tasks.FilterTasksByDate(tasks, Tasks.DueThisWeek, today)
    ensures t in FilteredTasks(tasks, BacklogView, today) <==>
      t in Tasks.FilterTasksByDate(tasks, Tasks.Backlog, today) && t.dueDate.None?
    ensures t in FilteredTasks(tasks, CompletedView, today) <==> t in tasks && IsCompleted(t)
    ensures t in FilteredTasks(tasks, BacklogView, today) ==> t !in FilteredTasks(tasks, ThisWeekView, today)
    ensures t in FilteredTasks(tasks, CompletedView, today) ==>
      forall f :: f != CompletedView ==> t !in FilteredTasks(tasks, f, today)
  {
    assert forall f :: t in FilteredTasks(tasks, f, today) <==> t in tasks && ShownIn(t, f, today);
    assert forall f :: t in Tasks.FilterTasksByDate(tasks, f, today) <==> t in tasks && Tasks.KeptByDate(t, f, today);
  }

  function Rank(t: Task): int {
    Tasks.Rank(t.priority)
  }

  /** The comparator of `sortedTasks`, as the number it returns: negative
      when `a` goes first. */
  function Compare(a: Task, b: Task): int {
    if IsCompleted(a) && !IsCompleted(b) then 1
    else if !IsCompleted(a) && IsCompleted(b) then -1
    else if Rank(a) != Rank(b) then Rank(b) - Rank(a)
    else if a.dueDate.Some? && b.dueDate.Some? then a.dueDate.value - b.dueDate.value
    else if a.dueDate.Some? && b.dueDate.None? then -1
    else if a.dueDate.None? && b.dueDate.Some? then 1
    else b.createdAt - a.createdAt
  }

  function ListOrder(): (Task, Task) -> bool {
    (a: Task, b: Task) => Compare(a, b) <= 0
  }

  /** The comparator is antisymmetric: swapping its arguments negates it. */
  lemma CompareAntisymmetric(a: Task, b: Task)
    ensures Compare(b, a) == -Compare(a, b)
  {
  }

  lemma CompareTransitive(a: Task, b: Task, c: Task)
    requires Compare(a, b) <= 0 && Compare(b, c) <= 0
    ensures Compare(a, c) <= 0
  {
  }

  /** The comparator ties two tasks exactly when they agree on status,
      priority and due date and, when undated, on creation time. */
  lemma CompareTiesExactlySameKey(a: Task, b: Task)
    ensures Compare(a, b) == 0 <==> SortKey(a) == SortKey(b)
  {
  }

  /** The comparator is consistent, so the stable sort is the only order it
      allows. */
  lemma {:induction false} ListOrderIsTotalPreorder()
    ensures Sorting.TotalPreorder(ListOrder())
  {
    var le := ListOrder();
    forall a, b
      ensures le(a, b) || le(b, a)
    {
      CompareAntisymmetric(a, b);
    }
    forall a, b, c | le(a, b) && le(b, c)
      ensures le(a, c)
    {
      CompareTransitive(a, b, c);
    }
  }

  /** `sortedTasks`: the filtered tasks sorted by the comparator. */
  function SortedTasks(tasks: seq<Task>, filter: TaskFilter, today: Day): (r: seq<Task>)
    ensures multiset(r) == multiset(FilteredTasks(tasks, filter, today))
    ensures Sorting.SortedBy(r, ListOrder())
  {
    ListOrderIsTotalPreorder();
    Sorting.SortBySorted(FilteredTasks(tasks, filter, today), ListOrder());
    Sorting.SortBy(FilteredTasks(tasks, filter, today), ListOrder())
  }

  /** The order the comparator gives, level by level: every open task before
      every completed one; at the same status a higher priority (missing
      counting as low) first; then an earlier due date first and dated
      before undated; and of two undated tasks the newer first. */
  lemma {:induction false} SortedTaskOrder(tasks: seq<Task>, filter: TaskFilter, today: Day, i: int, j: int)
    requires 0 <= i < j < |SortedTasks(tasks, filter, today)|
    ensures var r := SortedTasks(tasks, filter, today);
      && (IsCompleted(r[i]) ==> IsCompleted(r[j]))
      && (IsCompleted(r[i]) == IsCompleted(r[j]) ==> Rank(r[i]) >= Rank(r[j]))
      && (IsCompleted(r[i]) == IsCompleted(r[j]) && Rank(r[i]) == Rank(r[j]) ==>
            (r[i].dueDate.None? ==> r[j].dueDate.None?)
            && (r[i].dueDate.Some? && r[j].dueDate.Some? ==> r[i].dueDate.value <= r[j].dueDate.value)
            && (r[i].dueDate.None? && r[j].dueDate.None? ==> r[i].createdAt >= r[j].createdAt))
  {
    var r := SortedTasks(tasks, filter, today);
    assert ListOrder()(r[i], r[j]);
  }

  /** What the comparator cannot tell apart: same status, rank and due
      date, and for undated tasks the same creation time. */
  function SortKey(t: Task): (bool, int, Option<Day>, Instant) {
    (IsCompleted(t), Rank(t), t.dueDate, if t.dueDate.None? then t.createdAt else 0)
  }

  function SameKey(k: (bool, int, Option<Day>, Instant)): Task -> bool {
    (t: Task) => SortKey(t) == k
  }

  /** Tasks the comparator ties keep their order from the task list; this
      includes two dated tasks due the same day, whatever their creation
      times. */
  lemma {:induction false} SortedTiesKeepOrder(tasks: seq<Task>, filter: TaskFilter, today: Day,
                                               k: (bool, int, Option<Day>, Instant))
    ensures Seqs.Filter(SortedTasks(tasks, filter, today), SameKey(k))
         == Seqs.Filter(FilteredTasks(tasks, filter, today), SameKey(k))
  {
    var le := ListOrder();
    var cls := SameKey(k);
    forall a, b | cls(a) && cls(b)
      ensures le(a, b)
    {
    }
    Sorting.SortByStable(FilteredTasks(tasks, filter, today), le, cls);
  }
}
