/** The morning ritual: up to three picks from the backlog and the coming
    week, moved to today and recorded as the day's morning picks. */
module MorningRitual {
  import opened Wrappers
  import opened Calendar
  import opened Types
  import Seqs
  import TaskStore
  import JournalStore
  import TaskSections

  /** The start button needs between one and this many picks. */
  const MaxPicks: nat := 3

  /** `handleStartDay` returns at once with no pick or more than three. */
  predicate SkipsStart(picks: seq<string>) {
    |picks| == 0 || |picks| > MaxPicks
  }

  // ---------------------------------------------------------------------
  // Candidates and the completed check
  // ---------------------------------------------------------------------

  /** The candidates are the dashboard's backlog and this-week sections:
      the page filters the tasks with the same tests. */
  function BacklogCandidates(tasks: seq<Task>, today: Day): seq<Task> {
    TaskSections.SectionTasks(tasks, TaskSections.BacklogSection, today)
  }

  function WeekCandidates(tasks: seq<Task>, today: Day): seq<Task> {
    TaskSections.SectionTasks(tasks, TaskSections.WeekSection, today)
  }

  function TodayTasks(tasks: seq<Task>, today: Day): seq<Task> {
    TaskSections.SectionTasks(tasks, TaskSections.TodaySection, today)
  }

  /** A candidate is open, in one of the two lists only, and not already due
      today. */
  lemma {:induction false} CandidatesAreNotToday(tasks: seq<Task>, today: Day, t: Task)
    ensures t in BacklogCandidates(tasks, today) ==>
      t in tasks && !IsCompleted(t) && t.dueDate.None? && t !in WeekCandidates(tasks, today)
    ensures t in WeekCandidates(tasks, today) ==>
      t in tasks && !IsCompleted(t) && today < t.dueDate.value <= today + 7
    ensures t in BacklogCandidates(tasks, today) || t in WeekCandidates(tasks, today) ==>
      t !in TodayTasks(tasks, today)
  {
    TaskSections.SectionsPartition(tasks, today, t);
    assert t in WeekCandidates(tasks, today) ==> TaskSections.InSection(t, TaskSections.WeekSection, today);
  }

  /** `hasCompletedRitual`: today's daily entry has a non-empty list of
      morning picks. */
  predicate HasCompletedRitual(entries: seq<JournalEntry>, today: Day) {
    var e := JournalStore.TodayEntry(entries, today);
    e.Some? && e.value.morningPicks.Some? && |e.value.morningPicks.value| > 0
  }

  /** Once the store keeps a saved daily row for today that carries picks,
      the ritual counts as completed; without a daily entry for today it
      does not. */
  lemma {:induction false} SavedPicksCompleteRitual(entries: seq<JournalEntry>, today: Day, row: JournalEntry)
    requires JournalStore.HasKey(row, today, Daily)
    requires row.morningPicks.Some? && |row.morningPicks.value| > 0
    ensures HasCompletedRitual(JournalStore.Upserted(entries, today, Daily, row), today)
    ensures (forall e :: e in entries ==> !JournalStore.HasKey(e, today, Daily)) ==> !HasCompletedRitual(entries, today)
  {
    JournalStore.SavedEntryIsFound(entries, today, row);
  }

  // ---------------------------------------------------------------------
  // Selection
  // ---------------------------------------------------------------------

  /** `handleTaskToggle`: deselect a selected id, append any other; there is
      no cap at this point. */
  function ToggledPicks(selected: seq<string>, id: string): seq<string> {
    if id in selected then Seqs.RemoveAll(selected, id) else selected + [id]
  }

  /** A toggle keeps the selection duplicate-free and flips exactly the
      toggled id; toggling an unselected id twice restores the selection. */
  lemma {:induction false} ToggleFlipsOnePick(selected: seq<string>, id: string)
    requires Seqs.NoDup(selected)
    ensures Seqs.NoDup(ToggledPicks(selected, id))
    ensures id in ToggledPicks(selected, id) <==> id !in selected
    ensures forall x :: x != id ==> (x in ToggledPicks(selected, id) <==> x in selected)
    ensures id !in selected ==> ToggledPicks(ToggledPicks(selected, id), id) == selected
  {
    if id !in selected {
      Seqs.RemoveAppended(selected, id);
      var r := selected + [id];
      forall i, j | 0 <= i < j < |r|
        ensures r[i] != r[j]
      {
        if j == |selected| {
          assert r[i] == selected[i];
        }
      }
    }
  }

  /** The updates each pick gets: due today. */
  function TodayPatch(today: Day): TaskPatch {
    EmptyTaskPatch.(dueDate := Some(Some(today)))
  }

  /** After the start, every open picked task is in today's section with
      its other fields kept, and every unpicked task is unchanged. */
  lemma {:induction false} PicksLandToday(tasks: seq<Task>, picks: seq<string>, today: Day, now: Instant, i: int)
    requires 0 <= i < |tasks|
    ensures var r := TaskStore.MergeEach(tasks, picks, TodayPatch(today), now);
      && |r| == |tasks|
      && (tasks[i].id in picks && !IsCompleted(tasks[i]) ==>
            TaskSections.InSection(r[i], TaskSections.TodaySection, today)
            && r[i] == tasks[i].(dueDate := Some(today), updatedAt := now))
      && (tasks[i].id !in picks ==> r[i] == tasks[i])
  {
    TaskStore.MergeEachContents(tasks, picks, TodayPatch(today), now, i);
  }

  /** The page state of the morning ritual. */
  class MorningPage {
    var selectedTasks: seq<string>
    var isStartingDay: bool

    constructor()
      ensures selectedTasks == [] && !isStartingDay
    {
      selectedTasks := [];
      isStartingDay := false;
    }

    method HandleTaskToggle(id: string)
      modifies this
      ensures selectedTasks == ToggledPicks(old(selectedTasks), id)
      ensures old(Seqs.NoDup(selectedTasks)) ==> Seqs.NoDup(selectedTasks)
      ensures isStartingDay == old(isStartingDay)
    {
      if Seqs.NoDup(selectedTasks) {
        ToggleFlipsOnePick(selectedTasks, id);
      }
      if id in selectedTasks {
        selectedTasks := Seqs.RemoveAll(selectedTasks, id);
      } else {
        selectedTasks := selectedTasks + [id];
      }
    }

    /** The start button is enabled with one to three picks while no start
        is in progress. */
    predicate StartEnabled()
      reads this
    {
      !(|selectedTasks| == 0 || |selectedTasks| > MaxPicks || isStartingDay)
    }

    /** `handleStartDay`: with no pick or more than three nothing happens;
        otherwise each pick is made due today in turn, the picks saved as
        the day's morning picks and the selection cleared. The journal store
        records its own failures, so the selection is cleared either way. */
    method HandleStartDay(store: TaskStore.Store, journal: JournalStore.Journal,
                          session: JournalStore.Session, reply: JournalStore.UpsertReply,
                          today: Day, now: Instant)
      returns (sent: Option<JournalStore.EntryRequest>)
      modifies this, store, journal
      ensures SkipsStart(old(selectedTasks)) ==> sent == None && unchanged(this, store, journal)
      ensures !SkipsStart(old(selectedTasks)) ==>
        && store.tasks == TaskStore.MergeEach(old(store.tasks), old(selectedTasks), TodayPatch(today), now)
        && sent == (if session.User?
                    then Some(JournalStore.DailyRequest(JournalStore.PicksFields(old(selectedTasks)), today))
                    else None)
        && journal.entries == (if session.User? && reply.Saved?
                               then JournalStore.Upserted(old(journal.entries), today, Daily, reply.row)
                               else old(journal.entries))
        && journal.error == (if session.User? && reply.Saved? then None
                             else Some(JournalStore.SaveFailure(session, reply, "Failed to save journal entry")))
        && !journal.loading
        && store.projects == old(store.projects) && store.loading == old(store.loading)
        && store.error == old(store.error) && store.filter == old(store.filter)
        && selectedTasks == [] && !isStartingDay
    {
      if SkipsStart(selectedTasks) {
        return None;
      }
      isStartingDay := true;
      TaskStore.UpdateEach(store, selectedTasks, TodayPatch(today), now);
      sent := journal.SaveMorningPicks(selectedTasks, session, reply, today);
      selectedTasks := [];
      isStartingDay := false;
    }
  }

  /** The start button is enabled exactly when the handler's own guard lets
      the picks through and no start is in progress. */
  lemma StartButtonGuard(p: MorningPage)
    ensures p.StartEnabled() <==> !SkipsStart(p.selectedTasks) && !p.isStartingDay
    ensures p.StartEnabled() <==> 0 < |p.selectedTasks| <= MaxPicks && !p.isStartingDay
  {
  }
}
