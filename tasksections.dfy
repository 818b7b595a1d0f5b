/** The dashboard's Today / This Week / Backlog sections, the drag-and-drop
    that re-dates a task by dropping it on a section, and the title editor
    of a task card. The day of "now" is a parameter; "now" is taken to lie
    within that day. Handlers return the `onEdit` call they make. */
module TaskSections {
  import opened Wrappers
  import opened Text
  import opened Calendar
  import opened Types
  import Seqs
  import TaskStore

  // ---------------------------------------------------------------------
  // Sections
  // ---------------------------------------------------------------------

  datatype Section = TodaySection | WeekSection | BacklogSection

  /** The section filters. A due date is a day; `taskDate > today` and
      `taskDate <= weekFromNow` compare its midnight with the current time
      and with a week later, so this week is the seven days after today. */
  predicate InSection(t: Task, s: Section, today: Day) {
    !IsCompleted(t) &&
    match s
    case TodaySection => t.dueDate.Some? && t.dueDate.value == today
    case WeekSection =>
      t.dueDate.Some? && t.dueDate.value != today && today < t.dueDate.value <= today + 7
    case BacklogSection => t.dueDate.None?
  }

  function InSectionOf(s: Section, today: Day): Task -> bool {
    (t: Task) => InSection(t, s, today)
  }

  function SectionTasks(tasks: seq<Task>, s: Section, today: Day): seq<Task> {
    Seqs.Filter(tasks, InSectionOf(s, today))
  }

  /** The sections are pairwise disjoint and hold no completed task; the
      backlog is exactly the open undated tasks; an open task due before
      today or more than a week ahead is in no section. */
  lemma {:induction false} SectionsPartition(tasks: seq<Task>, today: Day, t: Task)
    ensures forall s :: t in SectionTasks(tasks, s, today) ==> t in tasks && !IsCompleted(t)
    ensures forall s1, s2 :: s1 != s2 && t in SectionTasks(tasks, s1, today) ==> t !in SectionTasks(tasks, s2, today)
    ensures t in SectionTasks(tasks, BacklogSection, today) <==> t in tasks && !IsCompleted(t) && t.dueDate.None?
    ensures t.dueDate.Some? && (t.dueDate.value < today || t.dueDate.value > today + 7) ==>
      forall s :: t !in SectionTasks(tasks, s, today)
  {
    assert forall s :: t in SectionTasks(tasks, s, today) <==> t in tasks && InSection(t, s, today);
  }

  // ---------------------------------------------------------------------
  // Drag and drop
  // ---------------------------------------------------------------------

  /** The due date a drop on a section sets: today, tomorrow, or none. */
  function DropDate(s: Section, today: Day): Option<Day> {
    match s
    case TodaySection => Some(today)
    case WeekSection => Some(today + 1)
    case BacklogSection => None
  }

  /** `onEdit(draggedTask.id, { due_date: newDueDate || undefined })`: the
      key is always present, and `undefined` clears the date. */
  function DropEdit(dragged: Task, s: Section, today: Day): Edit {
    Edit(dragged.id, EmptyTaskPatch.(dueDate := Some(DropDate(s, today))))
  }

  /** Applied by the task store, a drop moves an open dragged task into the
      section it was dropped on, and edits no task with another id. */
  lemma {:induction false} DropMovesTask(tasks: seq<Task>, dragged: Task, s: Section, today: Day, now: Instant, i: int)
    requires 0 <= i < |tasks|
    ensures var e := DropEdit(dragged, s, today);
      var r := TaskStore.MergeTask(tasks, e.id, e.updates, now);
      && |r| == |tasks|
      && (tasks[i].id == dragged.id && !IsCompleted(tasks[i]) ==> InSection(r[i], s, today))
      && (tasks[i].id != dragged.id ==> r[i] == tasks[i])
  {
    var e := DropEdit(dragged, s, today);
    TaskStore.MergeTaskContents(tasks, e.id, e.updates, now, i);
  }

  /** The drag state of the sections. */
  class Board {
    var draggedTask: Option<Task>
    var dragOverSection: Option<Section>

    constructor()
      ensures draggedTask == None && dragOverSection == None
    {
      draggedTask := None;
      dragOverSection := None;
    }

    method HandleDragStart(t: Task)
      modifies this
      ensures draggedTask == Some(t) && dragOverSection == old(dragOverSection)
    {
      draggedTask := Some(t);
    }

    /** A section's `onDragOver`. */
    method DragOver(s: Section)
      modifies this
      ensures dragOverSection == Some(s) && draggedTask == old(draggedTask)
    {
      dragOverSection := Some(s);
    }

    /** A section's `onDragLeave`: the hover is cleared only when the
        pointer leaves the drop zone itself, not for a child element. */
    method DragLeave(leftZone: bool)
      modifies this
      ensures dragOverSection == if leftZone then None else old(dragOverSection)
      ensures draggedTask == old(draggedTask)
    {
      if leftZone {
        dragOverSection := None;
      }
    }

    /** `handleDrop`: without a dragged task nothing happens; otherwise the
        task is re-dated for the section and both drag fields are cleared. */
    method HandleDrop(s: Section, today: Day) returns (edit: Option<Edit>)
      modifies this
      ensures old(draggedTask).None? ==>
        edit == None && draggedTask == None && dragOverSection == old(dragOverSection)
      ensures old(draggedTask).Some? ==>
        edit == Some(DropEdit(old(draggedTask).value, s, today)) && draggedTask == None && dragOverSection == None
    {
      if draggedTask.None? {
        return None;
      }
      edit := Some(DropEdit(draggedTask.value, s, today));
      draggedTask := None;
      dragOverSection := None;
    }

    /** A section's `onDrop`: `handleDrop`, then the hover cleared whether
        or not a task was dragged. */
    method Drop(s: Section, today: Day) returns (edit: Option<Edit>)
      modifies this
      ensures edit == if old(draggedTask).Some? then Some(DropEdit(old(draggedTask).value, s, today)) else None
      ensures draggedTask == None && dragOverSection == None
    {
      edit := HandleDrop(s, today);
      dragOverSection := None;
    }

    method HandleDragEnd()
      modifies this
      ensures draggedTask == None && dragOverSection == None
    {
      draggedTask := None;
      dragOverSection := None;
    }
  }

  // ---------------------------------------------------------------------
  // Title editing
  // ---------------------------------------------------------------------

  /** The `onEdit` call `handleSave` makes for the edited text: the trimmed
      text, when it is non-empty and differs from the title. */
  function SaveEdit(task: Task, editTitle: string): (r: Option<Edit>)
    ensures r.Some? <==> Trim(editTitle) != "" && Trim(editTitle) != task.title
    ensures r.Some? ==> r.value == Edit(task.id, EmptyTaskPatch.(title := Some(Trim(editTitle))))
  {
    var title := Trim(editTitle);
    if title != "" && title != task.title then Some(Edit(task.id, EmptyTaskPatch.(title := Some(title))))
    else None
  }

  /** A saved title is trimmed and non-empty, the edit changes only the
      title (and the store's stamp), and saving the same text again over
      the edited task makes no further edit. */
  lemma {:induction false} SavedTitleSettles(task: Task, editTitle: string, now: Instant)
    requires SaveEdit(task, editTitle).Some?
    ensures var e := SaveEdit(task, editTitle).value;
      var edited := TaskStore.MergeTask([task], e.id, e.updates, now)[0];
      && edited.title == Trim(editTitle) && IsTrimmed(edited.title) && edited.title != ""
      && edited == task.(title := Trim(editTitle), updatedAt := now)
      && SaveEdit(edited, editTitle) == None
  {
    var e := SaveEdit(task, editTitle).value;
    TaskStore.MergeTaskContents([task], e.id, e.updates, now, 0);
    TrimIsTrimmed(editTitle);
  }

  datatype Key = Enter | Escape | OtherKey

  /** The editing state of one task card. */
  class TaskCard {
    const task: Task
    var isEditing: bool
    var editTitle: string
    var isDragging: bool

    constructor(t: Task)
      ensures task == t && !isEditing && editTitle == t.title && !isDragging
    {
      task := t;
      isEditing := false;
      editTitle := t.title;
      isDragging := false;
    }

    method StartEditing()
      modifies this
      ensures isEditing && editTitle == old(editTitle) && isDragging == old(isDragging)
    {
      isEditing := true;
    }

    /** The input's `onChange`. */
    method TypeTitle(text: string)
      modifies this
      ensures editTitle == text && isEditing == old(isEditing) && isDragging == old(isDragging)
    {
      editTitle := text;
    }

    /** `handleSave`: the edit, if any, and always out of edit mode; the
        typed text stays. */
    method HandleSave() returns (edit: Option<Edit>)
      modifies this
      ensures edit == SaveEdit(task, old(editTitle))
      ensures !isEditing && editTitle == old(editTitle) && isDragging == old(isDragging)
    {
      var title := Trim(editTitle);
      edit := None;
      if title != "" && title != task.title {
        edit := Some(Edit(task.id, EmptyTaskPatch.(title := Some(title))));
      }
      isEditing := false;
    }

    /** `handleCancel`: the typed text is dropped and edit mode left. */
    method HandleCancel()
      modifies this
      ensures editTitle == task.title && !isEditing && isDragging == old(isDragging)
    {
      editTitle := task.title;
      isEditing := false;
    }

    /** `handleKeyPress`: Enter saves, Escape cancels. */
    method HandleKeyPress(key: Key) returns (edit: Option<Edit>)
      modifies this
      ensures key == Enter ==> edit == SaveEdit(task, old(editTitle)) && !isEditing && editTitle == old(editTitle)
      ensures key == Escape ==> edit == None && !isEditing && editTitle == task.title
      ensures key == OtherKey ==> edit == None && isEditing == old(isEditing) && editTitle == old(editTitle)
      ensures isDragging == old(isDragging)
    {
      edit := None;
      if key == Enter {
        edit := HandleSave();
      } else if key == Escape {
        HandleCancel();
      }
    }

    /** The card's `onDragStart`, which hands the task to the board. */
    method DragStart(board: Board)
      modifies this, board
      ensures isDragging && board.draggedTask == Some(task)
      ensures board.dragOverSection == old(board.dragOverSection)
      ensures isEditing == old(isEditing) && editTitle == old(editTitle)
    {
      isDragging := true;
      board.HandleDragStart(task);
    }

    method DragEnd(board: Board)
      modifies this, board
      ensures !isDragging && board.draggedTask == None && board.dragOverSection == None
      ensures isEditing == old(isEditing) && editTitle == old(editTitle)
    {
      isDragging := false;
      board.HandleDragEnd();
    }
  }
}
