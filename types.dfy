/** The application's entities: tasks, projects and journal entries, with
    the enumerations they use, and the partial records (`Partial<Task>`,
    `Partial<Project>`) that updates are made of. */
module Types {
  import opened Wrappers
  import opened Calendar

  /** A timestamp (`created_at`, `completed_at`, ...): milliseconds since the epoch. */
  type Instant = int

  datatype Priority = Low | Medium | High

  datatype Status = Todo | InProgress | Completed | Snoozed

  datatype Task = Task(
    id: string,
    title: string,
    description: Option<string>,
    dueDate: Option<Day>,
    priority: Option<Priority>,
    status: Status,
    isFeature: bool,
    projectId: Option<string>,
    completedAt: Option<Instant>,
    snoozedUntil: Option<Instant>,
    weeklyFocus: Option<bool>,
    createdAt: Instant,
    updatedAt: Instant)

  datatype Project = Project(
    id: string,
    name: string,
    color: Option<string>,
    description: Option<string>,
    isArchived: bool,
    createdAt: Instant,
    updatedAt: Instant)

  datatype EntryKind = Daily | Weekly

  datatype JournalEntry = JournalEntry(
    id: string,
    date: Day,
    kind: EntryKind,
    morningPicks: Option<seq<string>>,
    reflection: Option<string>,
    completedTasks: Option<seq<string>>,
    weeklyAnchors: Option<seq<string>>,
    createdAt: Instant,
    updatedAt: Instant)

  /** The four task views. */
  datatype TaskFilter = TodayView | ThisWeekView | BacklogView | CompletedView

  predicate IsCompleted(t: Task) {
    t.status == Completed
  }

  /** A `Partial<Task>`. For a required field, `None` means the key is
      absent. For an optional field, `None` means the key is absent and
      `Some(None)` means the key is present with the value `undefined`,
      which clears the field when the patch is spread over a task. */
  datatype TaskPatch = TaskPatch(
    id: Option<string>,
    title: Option<string>,
    description: Option<Option<string>>,
    dueDate: Option<Option<Day>>,
    priority: Option<Option<Priority>>,
    status: Option<Status>,
    isFeature: Option<bool>,
    projectId: Option<Option<string>>,
    completedAt: Option<Option<Instant>>,
    snoozedUntil: Option<Option<Instant>>,
    weeklyFocus: Option<Option<bool>>,
    createdAt: Option<Instant>,
    updatedAt: Option<Instant>)

  const EmptyTaskPatch: TaskPatch :=
    TaskPatch(None, None, None, None, None, None, None, None, None, None, None, None, None)

  /** The value of a field after spreading a patch over it. */
  function Over<T>(current: T, patch: Option<T>): T {
    patch.GetOr(current)
  }

  /** `{ ...task, ...patch }`. */
  function ApplyPatch(t: Task, p: TaskPatch): (r: Task)
  {
    Task(
      Over(t.id, p.id), Over(t.title, p.title), Over(t.description, p.description),
      Over(t.dueDate, p.dueDate), Over(t.priority, p.priority), Over(t.status, p.status),
      Over(t.isFeature, p.isFeature), Over(t.projectId, p.projectId),
      Over(t.completedAt, p.completedAt), Over(t.snoozedUntil, p.snoozedUntil),
      Over(t.weeklyFocus, p.weeklyFocus), Over(t.createdAt, p.createdAt),
      Over(t.updatedAt, p.updatedAt))
  }

  /** Spreading the same patch twice is spreading it once. */
  lemma ApplyPatchIdempotent(t: Task, p: TaskPatch)
    ensures ApplyPatch(ApplyPatch(t, p), p) == ApplyPatch(t, p)
  {
  }

  /** A field the patch does not name keeps its value. */
  lemma ApplyEmptyPatch(t: Task)
    ensures ApplyPatch(t, EmptyTaskPatch) == t
  {
  }

  /** A `Partial<Project>`, read as `TaskPatch` is. */
  datatype ProjectPatch = ProjectPatch(
    id: Option<string>,
    name: Option<string>,
    color: Option<Option<string>>,
    description: Option<Option<string>>,
    isArchived: Option<bool>,
    createdAt: Option<Instant>,
    updatedAt: Option<Instant>)

  /** `{ ...project, ...patch }`. */
  function ApplyProjectPatch(pr: Project, p: ProjectPatch): Project
  {
    Project(
      Over(pr.id, p.id), Over(pr.name, p.name), Over(pr.color, p.color),
      Over(pr.description, p.description), Over(pr.isArchived, p.isArchived),
      Over(pr.createdAt, p.createdAt), Over(pr.updatedAt, p.updatedAt))
  }

  /** A call of the `onEdit(id, updates)` callback that pages and sections
      hand to the task store's `updateTask`. */
  datatype Edit = Edit(id: string, updates: TaskPatch)

  /** What a failing backend call throws: an `Error` with its message, or a
      value that is not an `Error`. */
  datatype Thrown = ErrorObject(message: string) | OtherValue

  /** `error instanceof Error ? error.message : fallback`. */
  function ErrorText(e: Thrown, fallback: string): string {
    match e
    case ErrorObject(m) => m
    case OtherValue => fallback
  }
}
