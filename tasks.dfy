/** The task utilities: the date filter, the priority sort, validation of a
    task draft and the overdue test. The current day is a parameter. */
module Tasks {
  import opened Wrappers
  import opened Text
  import opened Calendar
  import opened Types
  import Seqs
  import Sorting

  // ---------------------------------------------------------------------
  // Date filter
  // ---------------------------------------------------------------------

  /** The argument of `filterTasksByDate`. */
  datatype DateFilter = DueToday | DueThisWeek | Backlog

  /** The test `filterTasksByDate` applies to each task. */
  predicate KeptByDate(t: Task, filter: DateFilter, today: Day) {
    !IsCompleted(t) &&
    match filter
    case DueToday => t.dueDate.Some? && t.dueDate.value == today
    case DueThisWeek => t.dueDate.Some? && IsThisWeek(t.dueDate.value, today)
    case Backlog => t.dueDate.None? || !IsThisWeek(t.dueDate.value, today)
  }

  function KeptBy(filter: DateFilter, today: Day): Task -> bool {
    (t: Task) => KeptByDate(t, filter, today)
  }

  /** `filterTasksByDate`: the tasks of the input the filter keeps, in
      their input order. */
  function FilterTasksByDate(tasks: seq<Task>, filter: DateFilter, today: Day): (r: seq<Task>)
    ensures forall t :: t in r <==> t in tasks && KeptByDate(t, filter, today)
    ensures |r| <= |tasks|
  {
    Seqs.Filter(tasks, KeptBy(filter, today))
  }

  /** No filter returns a completed task; today and this week return no
      undated task; the backlog takes every open undated task; and this
      week and the backlog split the open tasks between them. */
  lemma {:induction false} DateFilterContents(tasks: seq<Task>, today: Day, t: Task)
    ensures forall f :: t in FilterTasksByDate(tasks, f, today) ==> t in tasks && !IsCompleted(t)
    ensures t in FilterTasksByDate(tasks, DueToday, today) ==> t.dueDate == Some(today)
    ensures t in FilterTasksByDate(tasks, DueThisWeek, today) ==> t.dueDate.Some?
    ensures t in tasks && !IsCompleted(t) && t.dueDate.None? ==> t in FilterTasksByDate(tasks, Backlog, today)
    ensures t in tasks && !IsCompleted(t) ==>
      (t in FilterTasksByDate(tasks, DueThisWeek, today) <==> t !in FilterTasksByDate(tasks, Backlog, today))
  {
    assert forall f :: t in FilterTasksByDate(tasks, f, today) <==> t in tasks && KeptByDate(t, f, today);
  }

  /** A task due today is due this week. */
  lemma {:induction false} TodayIsThisWeek(tasks: seq<Task>, today: Day, t: Task)
    ensures t in FilterTasksByDate(tasks, DueToday, today) ==> t in FilterTasksByDate(tasks, DueThisWeek, today)
  {
    assert t in FilterTasksByDate(tasks, DueToday, today) <==> t in tasks && KeptByDate(t, DueToday, today);
  }

  // ---------------------------------------------------------------------
  // Priority sort
  // ---------------------------------------------------------------------

  /** `priorityOrder[priority || 'low']`: high 3, medium 2, low or missing 1. */
  function Rank(p: Option<Priority>): (r: int)
    ensures 1 <= r <= 3
    ensures r == 3 <==> p == Some(High)
    ensures r == 2 <==> p == Some(Medium)
  {
    match p
    case Some(High) => 3
    case Some(Medium) => 2
    case _ => 1
  }

  /** The order of the comparator `bPriority - aPriority`: `a` may come
      first when its rank is not lower. */
  function ByPriority(): (Task, Task) -> bool {
    (a: Task, b: Task) => Rank(b.priority) <= Rank(a.priority)
  }

  /** The tasks of one rank, which the comparator ties. */
  function RankIs(k: int): Task -> bool {
    (t: Task) => Rank(t.priority) == k
  }

  /** `sortTasksByPriority`: the input is copied before the stable sort, so
      the caller's sequence is not touched; the result is a permutation of
      it with ranks non-increasing. */
  function SortTasksByPriority(tasks: seq<Task>): (r: seq<Task>)
    ensures multiset(r) == multiset(tasks)
    ensures forall i, j :: 0 <= i < j < |r| ==> Rank(r[i].priority) >= Rank(r[j].priority)
  {
    Sorting.SortBySorted(tasks, ByPriority());
    Sorting.SortBy(tasks, ByPriority())
  }

  /** Tasks of equal rank keep their relative order. */
  lemma {:induction false} PrioritySortIsStable(tasks: seq<Task>, k: int)
    ensures Seqs.Filter(SortTasksByPriority(tasks), RankIs(k)) == Seqs.Filter(tasks, RankIs(k))
  {
    Sorting.SortByStable(tasks, ByPriority(), RankIs(k));
  }

  // ---------------------------------------------------------------------
  // Validation
  // ---------------------------------------------------------------------

  const TitleRequired: string := "Title is required"
  const TitleTooLong: string := "Title must be less than 200 characters"
  const InvalidDueDate: string := "Invalid due date"
  const MaxTitleLength: nat := 200

  /** The three messages, in the order they are checked. */
  const ValidationMessages: seq<string> := [TitleRequired, TitleTooLong, InvalidDueDate]

  datatype Validation = Validation(valid: bool, errors: seq<string>)

  /** The draft's title is missing or blank (`!task.title?.trim()`). */
  predicate TitleMissing(title: Option<string>) {
    title.None? || Trim(title.value) == ""
  }

  /** A due date is given (a non-empty string) and does not parse; `isDate`
      stands for `!isNaN(parseISO(s).getTime())`. */
  predicate DueDateBad(dueDate: Option<string>, isDate: string -> bool) {
    dueDate.Some? && dueDate.value != "" && !isDate(dueDate.value)
  }

  /** The title is over the limit. JavaScript's `length` counts UTF-16
      code units, so the limit is on code units, not characters. */
  predicate TitleTooLongFor(title: Option<string>) {
    title.Some? && Utf16Length(title.value) > MaxTitleLength
  }

  /** The messages `validateTask` collects for a draft: each is one of
      the three messages, none appears twice, and at most three appear. */
  function ValidationErrors(title: Option<string>, dueDate: Option<string>, isDate: string -> bool): (r: seq<string>)
    ensures |r| <= |ValidationMessages|
    ensures forall m :: m in r ==> m in ValidationMessages
    ensures Seqs.NoDup(r)
  {
    var missing, long, bad := TitleMissing(title), TitleTooLongFor(title), DueDateBad(dueDate, isDate);
    FlaggedMeaning(missing, long, bad);
    Flagged(missing, long, bad)
  }

  /** `validateTask`: the checks push their messages in turn, and the draft
      is valid exactly when none was pushed. */
  method ValidateTask(title: Option<string>, dueDate: Option<string>, isDate: string -> bool)
    returns (result: Validation)
    ensures result.errors == ValidationErrors(title, dueDate, isDate)
    ensures result.valid <==> result.errors == []
  {
    var errors: seq<string> := [];
    if title.None? || Trim(title.value) == "" {
      errors := errors + [TitleRequired];
    }
    assert errors == Pushed([], TitleMissing(title), TitleRequired);
    ghost var first := errors;
    if title.Some? && title.value != "" && Utf16Length(title.value) > MaxTitleLength {
      errors := errors + [TitleTooLong];
    }
    assert errors == Pushed(first, TitleTooLongFor(title), TitleTooLong);
    ghost var second := errors;
    if dueDate.Some? && dueDate.value != "" {
      if !isDate(dueDate.value) {
        errors := errors + [InvalidDueDate];
      }
    }
    assert errors == Pushed(second, DueDateBad(dueDate, isDate), InvalidDueDate);
    result := Validation(|errors| == 0, errors);
  }

  /** Which message is reported when, and in which order: a missing or
      blank title is required, a title over 200 UTF-16 code units is too
      long (a title of 201 spaces gets both), a given date that does not parse is
      invalid; messages follow the order of `ValidationMessages`, each at
      most once. */
  lemma {:induction false} ValidationErrorsMeaning(title: Option<string>, dueDate: Option<string>, isDate: string -> bool)
    ensures var e := ValidationErrors(title, dueDate, isDate);
      && (TitleRequired in e <==> TitleMissing(title))
      && (TitleTooLong in e <==> title.Some? && Utf16Length(title.value) > 200)
      && (InvalidDueDate in e <==> DueDateBad(dueDate, isDate))
      && (e == [] <==> !TitleMissing(title) && Utf16Length(title.value) <= 200 && !DueDateBad(dueDate, isDate))
      && (forall i, j :: 0 <= i < j < |e| ==> MessageIndex(e[i]) < MessageIndex(e[j]))
  {
    var missing, long, bad := TitleMissing(title), TitleTooLongFor(title), DueDateBad(dueDate, isDate);
    FlaggedMeaning(missing, long, bad);
  }

  /** A title of 101 characters outside the Basic Multilingual Plane (101
      emoji) is too long, although it has fewer than 200 characters; a
      title of 200 characters of the plane is not. */
  lemma {:induction false} LengthCountsCodeUnits(title: string, dueDate: Option<string>, isDate: string -> bool)
    ensures |title| > 100 && (forall i :: 0 <= i < |title| ==> title[i] as int >= 0x1_0000) ==>
      TitleTooLong in ValidationErrors(Some(title), dueDate, isDate)
    ensures |title| <= 200 && (forall i :: 0 <= i < |title| ==> title[i] as int < 0x1_0000) ==>
      TitleTooLong !in ValidationErrors(Some(title), dueDate, isDate)
  {
    Utf16LengthBounds(title);
    ValidationErrorsMeaning(Some(title), dueDate, isDate);
  }

  /** The messages of the checks that failed, pushed in order. */
  function Flagged(missing: bool, long: bool, bad: bool): seq<string> {
    Pushed(Pushed(Pushed([], missing, TitleRequired), long, TitleTooLong), bad, InvalidDueDate)
  }

  /** `if (failed) errors.push(m)`. */
  function Pushed(errors: seq<string>, failed: bool, m: string): seq<string> {
    if failed then errors + [m] else errors
  }

  lemma FlaggedMeaning(missing: bool, long: bool, bad: bool)
    ensures var e := Flagged(missing, long, bad);
      && (TitleRequired in e <==> missing)
      && (TitleTooLong in e <==> long)
      && (InvalidDueDate in e <==> bad)
      && (e == [] <==> !missing && !long && !bad)
      && (forall i, j :: 0 <= i < j < |e| ==> MessageIndex(e[i]) < MessageIndex(e[j]))
  {
    MessagesDistinct();
  }

  /** The three messages differ, and each sits at its own index. */
  lemma MessagesDistinct()
    ensures TitleRequired != TitleTooLong && TitleRequired != InvalidDueDate && TitleTooLong != InvalidDueDate
    ensures MessageIndex(TitleRequired) == 0 && MessageIndex(TitleTooLong) == 1 && MessageIndex(InvalidDueDate) == 2
  {
    assert |TitleRequired| == 17 && |TitleTooLong| == 38 && |InvalidDueDate| == 16;
  }

  /** The position of a message in `ValidationMessages`. */
  function MessageIndex(m: string): nat {
    if m == TitleRequired then 0 else if m == TitleTooLong then 1 else 2
  }

  // ---------------------------------------------------------------------
  // Overdue
  // ---------------------------------------------------------------------

  /** `isTaskOverdue`: an open task whose due date is before the start of
      today. Due dates are whole days, so that is a day before today. */
  predicate IsTaskOverdue(t: Task, today: Day) {
    t.dueDate.Some? && !IsCompleted(t) && t.dueDate.value < today
  }

  /** An overdue task is not due today; it is due this week when it is
      earlier this week, and is in the backlog otherwise. */
  lemma {:induction false} OverdueTasksByDate(tasks: seq<Task>, today: Day, t: Task)
    requires t in tasks && IsTaskOverdue(t, today)
    ensures t !in FilterTasksByDate(tasks, DueToday, today)
    ensures t in FilterTasksByDate(tasks, DueThisWeek, today) <==> SundayOf(today) <= t.dueDate.value
    ensures t in FilterTasksByDate(tasks, Backlog, today) <==> t.dueDate.value < SundayOf(today)
  {
    DateFilterContents(tasks, today, t);
    ThisWeekIsSevenDays(t.dueDate.value, today);
  }
}
