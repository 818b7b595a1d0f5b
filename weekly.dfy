/** The weekly review ritual: the Monday-to-Sunday week range, the open
    tasks of the week grouped by project, the anchor candidates for next
    week, the capped anchor selection, and completing the review. */
module WeeklyRitual {
  import opened Wrappers
  import opened Calendar
  import opened Types
  import Seqs
  import TaskStore
  import JournalStore

  /** The anchor selection holds at most this many ids. */
  const MaxAnchors: nat := 5

  /** The bucket of tasks without a project. */
  const NoProject: string := "no-project"

  // ---------------------------------------------------------------------
  // Week range and task lists
  // ---------------------------------------------------------------------

  /** `getWeekRange`: Monday 00:00 to Sunday 23:59:59.999, as the days
      from `start` to `end` inclusive. The week number is not modelled. */
  datatype WeekRange = WeekRange(start: Day, end: Day)

  function GetWeekRange(today: Day): (r: WeekRange)
    ensures WeekdayOf(r.start) == 1 && r.end == r.start + 6
    ensures r.start <= today <= r.end
  {
    WeekRange(WeekMonday(today), WeekMonday(today) + 6)
  }

  /** The range starts at the Monday offset from today, -6 to 0 days. */
  lemma {:induction false} WeekRangeOffset(today: Day)
    ensures var o := MondayOffset(WeekdayOf(today));
      -6 <= o <= 0 && GetWeekRange(today).start == today + o && WeekdayOf(today + o) == 1
  {
    MondayOffsetLandsOnMonday(today);
  }

  predicate OpenThisWeek(t: Task, w: WeekRange) {
    !IsCompleted(t) && t.dueDate.Some? && w.start <= t.dueDate.value <= w.end
  }

  /** Backlog tasks and tasks due after this week. */
  predicate AnchorCandidate(t: Task, w: WeekRange) {
    !IsCompleted(t) && (t.dueDate.None? || t.dueDate.value > w.end)
  }

  function OpenThisWeekOf(w: WeekRange): Task -> bool {
    (t: Task) => OpenThisWeek(t, w)
  }

  function AnchorCandidateOf(w: WeekRange): Task -> bool {
    (t: Task) => AnchorCandidate(t, w)
  }

  function OpenThisWeekTasks(tasks: seq<Task>, w: WeekRange): seq<Task> {
    Seqs.Filter(tasks, OpenThisWeekOf(w))
  }

  function AnchorCandidates(tasks: seq<Task>, w: WeekRange): seq<Task> {
    Seqs.Filter(tasks, AnchorCandidateOf(w))
  }

  /** The two lists are disjoint and hold no completed task; an open task
      due before this week is in neither. */
  lemma {:induction false} WeekListsDisjoint(tasks: seq<Task>, w: WeekRange, t: Task)
    requires w.start <= w.end
    ensures t in OpenThisWeekTasks(tasks, w) ==> t in tasks && !IsCompleted(t) && t !in AnchorCandidates(tasks, w)
    ensures t in AnchorCandidates(tasks, w) ==> t in tasks && !IsCompleted(t)
    ensures t.dueDate.Some? && t.dueDate.value < w.start ==>
      t !in OpenThisWeekTasks(tasks, w) && t !in AnchorCandidates(tasks, w)
  {
    assert t in OpenThisWeekTasks(tasks, w) <==> t in tasks && OpenThisWeek(t, w);
    assert t in AnchorCandidates(tasks, w) <==> t in tasks && AnchorCandidate(t, w);
  }

  // ---------------------------------------------------------------------
  // Grouping by project
  // ---------------------------------------------------------------------

  /** `task.project_id || 'no-project'`. */
  function GroupKey(t: Task): string {
    if t.projectId.Some? && t.projectId.value != "" then t.projectId.value else NoProject
  }

  function InGroup(k: string): Task -> bool {
    (t: Task) => GroupKey(t) == k
  }

  /** The `reduce` of `tasksByProject`: each task pushed onto its bucket. */
  function GroupByProject(tasks: seq<Task>): map<string, seq<Task>>
  {
    if |tasks| == 0 then map[]
    else
      var acc := GroupByProject(tasks[..|tasks| - 1]);
      var t := tasks[|tasks| - 1];
      var k := GroupKey(t);
      acc[k := (if k in acc then acc[k] else []) + [t]]
  }

  /** There is a bucket for exactly the keys that occur, and each bucket
      holds the tasks with its key in their order: every task is in exactly
      one bucket. */
  lemma {:induction false} GroupingIsExact(tasks: seq<Task>, k: string)
    ensures k in GroupByProject(tasks) <==> exists i :: 0 <= i < |tasks| && GroupKey(tasks[i]) == k
    ensures k in GroupByProject(tasks) ==> GroupByProject(tasks)[k] == Seqs.Filter(tasks, InGroup(k))
    ensures k !in GroupByProject(tasks) ==> Seqs.Filter(tasks, InGroup(k)) == []
  {
    GroupKeysOccur(tasks, k);
    GroupBuckets(tasks, k);
  }

  /** The last task lands in the bucket of its key, on top of the buckets
      of the tasks before it. */
  lemma GroupLast(tasks: seq<Task>)
    requires |tasks| > 0
    ensures var front, t := tasks[..|tasks| - 1], tasks[|tasks| - 1];
      var acc := GroupByProject(front);
      GroupByProject(tasks) == acc[GroupKey(t) := (if GroupKey(t) in acc then acc[GroupKey(t)] else []) + [t]]
  {
  }

  lemma {:induction false} GroupKeysOccur(tasks: seq<Task>, k: string)
    ensures k in GroupByProject(tasks) <==> exists i :: 0 <= i < |tasks| && GroupKey(tasks[i]) == k
  {
    if |tasks| > 0 {
      var front := tasks[..|tasks| - 1];
      var t := tasks[|tasks| - 1];
      GroupKeysOccur(front, k);
      GroupLast(tasks);
      if GroupKey(t) == k {
        assert GroupKey(tasks[|tasks| - 1]) == k;
      } else if k in GroupByProject(front) {
        var i :| 0 <= i < |front| && GroupKey(front[i]) == k;
        assert tasks[i] == front[i];
      } else {
        forall i | 0 <= i < |tasks|
          ensures GroupKey(tasks[i]) != k
        {
          if i < |front| {
            assert tasks[i] == front[i];
          }
        }
      }
    }
  }

  /** Pushing `t` onto its bucket extends the bucket of `k` by `t` exactly
      when `t` has key `k`. */
  lemma BucketStep(acc: map<string, seq<Task>>, bucket: seq<Task>, t: Task, k: string)
    requires k in acc ==> acc[k] == bucket
    requires k !in acc ==> bucket == []
    ensures var g := acc[GroupKey(t) := (if GroupKey(t) in acc then acc[GroupKey(t)] else []) + [t]];
      var grown := bucket + (if GroupKey(t) == k then [t] else []);
      && (k in g ==> g[k] == grown)
      && (k !in g ==> grown == [])
  {
  }

  lemma {:induction false} GroupBuckets(tasks: seq<Task>, k: string)
    ensures k in GroupByProject(tasks) ==> GroupByProject(tasks)[k] == Seqs.Filter(tasks, InGroup(k))
    ensures k !in GroupByProject(tasks) ==> Seqs.Filter(tasks, InGroup(k)) == []
  {
    if |tasks| > 0 {
      var front := tasks[..|tasks| - 1];
      var t := tasks[|tasks| - 1];
      GroupBuckets(front, k);
      GroupLast(tasks);
      Seqs.FilterLast(tasks, InGroup(k));
      BucketStep(GroupByProject(front), Seqs.Filter(front, InGroup(k)), t, k);
    }
  }

  // ---------------------------------------------------------------------
  // Anchor selection
  // ---------------------------------------------------------------------

  /** `toggleAnchorSelection`: a selected id is removed; an unselected one
      is appended while fewer than five are selected. */
  function ToggledAnchors(selected: seq<string>, id: string): seq<string> {
    if id in selected then Seqs.RemoveAll(selected, id)
    else if |selected| < MaxAnchors then selected + [id]
    else selected
  }

  /** A card for an unselected id is disabled once five are selected; a
      toggle there would change nothing. */
  predicate CardDisabled(selected: seq<string>, id: string) {
    id !in selected && |selected| >= MaxAnchors
  }

  predicate ValidSelection(selected: seq<string>) {
    Seqs.NoDup(selected) && |selected| <= MaxAnchors
  }

  /** A toggle keeps the selection duplicate-free and within five; it
      selects the id exactly when it was unselected and there was room, and
      a disabled card's toggle is a no-op. */
  lemma {:induction false} ToggleKeepsSelectionValid(selected: seq<string>, id: string)
    requires ValidSelection(selected)
    ensures ValidSelection(ToggledAnchors(selected, id))
    ensures id in ToggledAnchors(selected, id) <==> id !in selected && |selected| < MaxAnchors
    ensures forall x :: x != id ==> (x in ToggledAnchors(selected, id) <==> x in selected)
    ensures CardDisabled(selected, id) ==> ToggledAnchors(selected, id) == selected
  {
    if id !in selected && |selected| < MaxAnchors {
      var r := selected + [id];
      forall i, j | 0 <= i < j < |r|
        ensures r[i] != r[j]
      {
        if j == |selected| {
          assert r[i] == selected[i];
        }
      }
    }
  }

  /** The selection after a run of toggles. */
  function ToggleAll(selected: seq<string>, ids: seq<string>): seq<string>
  {
    if |ids| == 0 then selected
    else ToggledAnchors(ToggleAll(selected, ids[..|ids| - 1]), ids[|ids| - 1])
  }

  /** From the empty start, no run of toggles selects more than five ids or
      any id twice. */
  lemma {:induction false} SelectionFromEmptyStaysValid(ids: seq<string>)
    ensures ValidSelection(ToggleAll([], ids))
  {
    if |ids| > 0 {
      SelectionFromEmptyStaysValid(ids[..|ids| - 1]);
      ToggleKeepsSelectionValid(ToggleAll([], ids[..|ids| - 1]), ids[|ids| - 1]);
    }
  }

  // ---------------------------------------------------------------------
  // Completing the review
  // ---------------------------------------------------------------------

  /** The updates each anchor gets: weekly focus, due a week after the
      range ends. */
  function AnchorPatch(w: WeekRange): TaskPatch {
    EmptyTaskPatch.(weeklyFocus := Some(Some(true)), dueDate := Some(Some(w.end + 7)))
  }

  /** Every selected anchor ends focused and due the Sunday after next week
      starts; every other task is unchanged. */
  lemma {:induction false} AnchorsAreFocused(tasks: seq<Task>, selected: seq<string>, today: Day, now: Instant, i: int)
    requires 0 <= i < |tasks|
    ensures var w := GetWeekRange(today);
      var r := TaskStore.MergeEach(tasks, selected, AnchorPatch(w), now);
      && |r| == |tasks|
      && (tasks[i].id in selected ==>
            r[i].weeklyFocus == Some(true) && r[i].dueDate == Some(w.end + 7) && WeekdayOf(r[i].dueDate.value) == 0
            && r[i].status == tasks[i].status && r[i].title == tasks[i].title)
      && (tasks[i].id !in selected ==> r[i] == tasks[i])
  {
    var w := GetWeekRange(today);
    TaskStore.MergeEachContents(tasks, selected, AnchorPatch(w), now, i);
    WeekdayShift(w.start, 13);
  }

  /** The page state of the weekly review. */
  class WeeklyPage {
    var highlight: string
    var selectedAnchors: seq<string>
    var isCompletingReview: bool

    constructor()
      ensures highlight == "" && selectedAnchors == [] && !isCompletingReview
      ensures ValidSelection(selectedAnchors)
    {
      highlight := "";
      selectedAnchors := [];
      isCompletingReview := false;
    }

    method SetHighlight(text: string)
      modifies this
      ensures highlight == text && selectedAnchors == old(selectedAnchors) && isCompletingReview == old(isCompletingReview)
    {
      highlight := text;
    }

    method ToggleAnchorSelection(id: string)
      modifies this
      ensures selectedAnchors == ToggledAnchors(old(selectedAnchors), id)
      ensures old(ValidSelection(selectedAnchors)) ==> ValidSelection(selectedAnchors)
      ensures highlight == old(highlight) && isCompletingReview == old(isCompletingReview)
    {
      if ValidSelection(selectedAnchors) {
        ToggleKeepsSelectionValid(selectedAnchors, id);
      }
      if id in selectedAnchors {
        selectedAnchors := Seqs.RemoveAll(selectedAnchors, id);
      } else if |selectedAnchors| < MaxAnchors {
        selectedAnchors := selectedAnchors + [id];
      }
    }

    /** The complete button is enabled while no review is in progress and
        an anchor is selected. */
    predicate CompleteEnabled()
      reads this
    {
      !(isCompletingReview || |selectedAnchors| == 0)
    }

    /** `handleCompleteWeeklyReview`: a no-op while a review is in
        progress; otherwise each selected anchor is updated in turn (the
        list `tagged`), the review saved with the highlight and the anchors,
        the tasks fetched again, and the progress flag cleared. The
        selection is not cleared. The signed-in user and the rows the
        refresh fetches are parameters. */
    method HandleCompleteWeeklyReview(store: TaskStore.Store, journal: JournalStore.Journal,
                                      session: JournalStore.Session, reply: JournalStore.UpsertReply,
                                      user: TaskStore.Identity, refreshed: TaskStore.Fetched<Task>,
                                      today: Day, now: Instant)
      returns (sent: Option<JournalStore.EntryRequest>, ghost tagged: seq<Task>)
      modifies this, store, journal
      ensures old(isCompletingReview) ==> sent == None && unchanged(this, store, journal)
      ensures !old(isCompletingReview) ==>
        var w := GetWeekRange(today);
        var review := JournalStore.WeeklyReview(old(highlight), old(selectedAnchors));
        && tagged == TaskStore.MergeEach(old(store.tasks), old(selectedAnchors), AnchorPatch(w), now)
        && sent == (if session.User? then Some(JournalStore.WeeklyRequest(review, today)) else None)
        && journal.entries == (if session.User? && reply.Saved?
                               then JournalStore.Upserted(old(journal.entries), WeekMonday(today), Weekly, reply.row)
                               else old(journal.entries))
        && journal.error == (if session.User? && reply.Saved? then None
                             else Some(JournalStore.SaveFailure(session, reply, "Failed to save weekly review")))
        && !journal.loading
        && store.tasks == (if TaskStore.Authenticated(user) && refreshed.Rows? then refreshed.data.GetOr([]) else [])
        && !store.loading && store.error == None && store.projects == old(store.projects)
        && store.filter == old(store.filter)
        && !isCompletingReview && selectedAnchors == old(selectedAnchors) && highlight == old(highlight)
    {
      tagged := store.tasks;
      if isCompletingReview {
        return None, tagged;
      }
      isCompletingReview := true;
      TaskStore.UpdateEach(store, selectedAnchors, AnchorPatch(GetWeekRange(today)), now);
      tagged := store.tasks;
      sent := journal.SaveWeeklyReview(JournalStore.WeeklyReview(highlight, selectedAnchors), session, reply, today);
      store.FetchTasks(user, refreshed);
      isCompletingReview := false;
    }
  }

  /** The complete button is disabled with no anchor selected, and enabled
      only when the handler would not return at once as a review in
      progress; with an anchor and no review in progress it is enabled. */
  lemma CompleteButtonGuard(p: WeeklyPage)
    ensures |p.selectedAnchors| == 0 ==> !p.CompleteEnabled()
    ensures p.CompleteEnabled() ==> !p.isCompletingReview
    ensures !p.isCompletingReview && |p.selectedAnchors| != 0 ==> p.CompleteEnabled()
  {
  }
}
