/** The task store: the local task and project lists and the effect each
    action has on them. The signed-in user, the ids and clock readings the
    actions generate, and what the backend answers are parameters; the
    backend sync happens after the local change and its outcome never
    alters the local state. */
module TaskStore {
  import opened Wrappers
  import opened Types
  import Seqs

  /** What `getUserId` gives: a user id (`null` when signed out), or a
      thrown error. */
  datatype Identity = SignedIn(userId: string) | SignedOut | LookupFailed(thrown: Thrown)

  /** `if (!userId)` passes: the id is present and non-empty. */
  predicate Authenticated(u: Identity) {
    u.SignedIn? && u.userId != ""
  }

  /** The error an add action records when it cannot proceed. */
  function AddFailure(u: Identity, fallback: string): string {
    match u
    case LookupFailed(e) => ErrorText(e, fallback)
    case _ => "User not authenticated"
  }

  /** What a select query answers: rows (`data`, possibly `null`) or an
      error. */
  datatype Fetched<T> = Rows(data: Option<seq<T>>) | QueryFailed

  /** The fields of a task without `id`, `created_at` and `updated_at`. */
  datatype TaskDraft = TaskDraft(
    title: string,
    description: Option<string>,
    dueDate: Option<int>,
    priority: Option<Priority>,
    status: Status,
    isFeature: bool,
    projectId: Option<string>,
    completedAt: Option<Instant>,
    snoozedUntil: Option<Instant>,
    weeklyFocus: Option<bool>)

  /** `{ ...taskData, id, created_at: now, updated_at: now }`. */
  function NewTask(d: TaskDraft, id: string, now: Instant): Task {
    Task(id, d.title, d.description, d.dueDate, d.priority, d.status, d.isFeature, d.projectId,
         d.completedAt, d.snoozedUntil, d.weeklyFocus, now, now)
  }

  datatype ProjectDraft = ProjectDraft(
    name: string, color: Option<string>, description: Option<string>, isArchived: bool)

  function NewProject(d: ProjectDraft, id: string, now: Instant): Project {
    Project(id, d.name, d.color, d.description, d.isArchived, now, now)
  }

  // ---------------------------------------------------------------------
  // The list updates the actions make
  // ---------------------------------------------------------------------

  predicate UniqueTaskIds(tasks: seq<Task>) {
    forall i, j :: 0 <= i < j < |tasks| ==> tasks[i].id != tasks[j].id
  }

  function HasTaskId(id: string): Task -> bool {
    (t: Task) => t.id == id
  }

  function LacksTaskId(id: string): Task -> bool {
    (t: Task) => t.id != id
  }

  /** `{ ...updates, updated_at: now }`: the stamp wins over any
      `updated_at` the updates carry. */
  function Stamped(updates: TaskPatch, now: Instant): TaskPatch {
    updates.(updatedAt := Some(now))
  }

  function Patcher(p: TaskPatch): Task -> Task {
    (t: Task) => ApplyPatch(t, p)
  }

  /** The `map` of `updateTask`. */
  function MergeTask(tasks: seq<Task>, id: string, updates: TaskPatch, now: Instant): seq<Task> {
    Seqs.MapWhere(tasks, HasTaskId(id), Patcher(Stamped(updates, now)))
  }

  /** The `filter` of `deleteTask`. */
  function RemoveTask(tasks: seq<Task>, id: string): seq<Task> {
    Seqs.Filter(tasks, LacksTaskId(id))
  }

  /** The updates `completeTask` sends. */
  function CompletePatch(at: Instant): TaskPatch {
    EmptyTaskPatch.(status := Some(Completed), completedAt := Some(Some(at)))
  }

  /** The updates `snoozeTask` sends. */
  function SnoozePatch(until: Instant): TaskPatch {
    EmptyTaskPatch.(status := Some(Snoozed), snoozedUntil := Some(Some(until)))
  }

  /** The same updates sent for each id in turn, as the ritual pages do. */
  function MergeEach(tasks: seq<Task>, ids: seq<string>, updates: TaskPatch, now: Instant): seq<Task>
  {
    if |ids| == 0 then tasks
    else MergeTask(MergeEach(tasks, ids[..|ids| - 1], updates, now), ids[|ids| - 1], updates, now)
  }

  /** After updates sent for each of `ids`, every task with one of those
      ids carries them once, and every other task is unchanged. */
  lemma {:induction false} MergeEachContents(tasks: seq<Task>, ids: seq<string>, updates: TaskPatch, now: Instant, i: int)
    requires updates.id.None?
    requires 0 <= i < |tasks|
    ensures |MergeEach(tasks, ids, updates, now)| == |tasks|
    ensures MergeEach(tasks, ids, updates, now)[i]
         == if tasks[i].id in ids then ApplyPatch(tasks[i], Stamped(updates, now)) else tasks[i]
  {
    if |ids| > 0 {
      var front := ids[..|ids| - 1];
      var last := ids[|ids| - 1];
      MergeEachContents(tasks, front, updates, now, i);
      var before := MergeEach(tasks, front, updates, now);
      assert before[i].id == tasks[i].id;
      assert tasks[i].id in ids <==> tasks[i].id in front || tasks[i].id == last by {
        assert ids == front + [last];
      }
      if tasks[i].id in front && tasks[i].id == last {
        ApplyPatchIdempotent(tasks[i], Stamped(updates, now));
      }
    }
  }

  /** Every task with the id gets the updates and the stamp, and keeps the
      fields the updates do not name; every other task is unchanged; the
      length and order are kept. */
  lemma {:induction false} MergeTaskContents(tasks: seq<Task>, id: string, updates: TaskPatch, now: Instant, i: int)
    requires 0 <= i < |tasks|
    ensures |MergeTask(tasks, id, updates, now)| == |tasks|
    ensures var t := MergeTask(tasks, id, updates, now)[i];
      if tasks[i].id == id then
        && t.updatedAt == now
        && t.title == updates.title.GetOr(tasks[i].title)
        && t.status == updates.status.GetOr(tasks[i].status)
        && t.dueDate == updates.dueDate.GetOr(tasks[i].dueDate)
        && t.createdAt == updates.createdAt.GetOr(tasks[i].createdAt)
        && t == ApplyPatch(tasks[i], Stamped(updates, now))
      else t == tasks[i]
  {
  }

  /** Applying the same update twice is applying it once, unless the
      update moves a task to another id. */
  lemma {:induction false} MergeTaskIdempotent(tasks: seq<Task>, id: string, updates: TaskPatch, now: Instant)
    requires updates.id.None? || updates.id == Some(id)
    ensures MergeTask(MergeTask(tasks, id, updates, now), id, updates, now) == MergeTask(tasks, id, updates, now)
  {
    var once := MergeTask(tasks, id, updates, now);
    var twice := MergeTask(once, id, updates, now);
    forall i | 0 <= i < |tasks|
      ensures twice[i] == once[i]
    {
      if tasks[i].id == id {
        ApplyPatchIdempotent(tasks[i], Stamped(updates, now));
      }
    }
  }

  /** The update reaches no task when the id is not held. */
  lemma {:induction false} MergeUnknownTask(tasks: seq<Task>, id: string, updates: TaskPatch, now: Instant)
    requires forall t :: t in tasks ==> t.id != id
    ensures MergeTask(tasks, id, updates, now) == tasks
  {
    var r := MergeTask(tasks, id, updates, now);
    forall i | 0 <= i < |tasks|
      ensures r[i] == tasks[i]
    {
      assert tasks[i] in tasks;
    }
  }

  /** No task with the id is left, and the others stay, in their order. */
  lemma {:induction false} RemoveTaskContents(tasks: seq<Task>, id: string)
    ensures forall t :: t in RemoveTask(tasks, id) <==> t in tasks && t.id != id
    ensures (forall t :: t in tasks ==> t.id != id) ==> RemoveTask(tasks, id) == tasks
    ensures forall front, back :: tasks == front + back ==>
      RemoveTask(tasks, id) == RemoveTask(front, id) + RemoveTask(back, id)
  {
    if forall t :: t in tasks ==> t.id != id {
      Seqs.FilterAll(tasks, LacksTaskId(id));
    }
    forall front, back | tasks == front + back
      ensures RemoveTask(tasks, id) == RemoveTask(front, id) + RemoveTask(back, id)
    {
      Seqs.FilterAppend(front, back, LacksTaskId(id));
    }
  }

  /** Deleting a task just added with a fresh id gives the list back. */
  lemma {:induction false} DeleteUndoesAdd(tasks: seq<Task>, d: TaskDraft, id: string, now: Instant)
    requires forall t :: t in tasks ==> t.id != id
    ensures RemoveTask(tasks + [NewTask(d, id, now)], id) == tasks
  {
    Seqs.FilterAppend(tasks, [NewTask(d, id, now)], LacksTaskId(id));
    Seqs.FilterAll(tasks, LacksTaskId(id));
  }

  /** The list operations keep ids unique: an add with a fresh id, an
      update that names no new id, and a delete. */
  lemma {:induction false} TaskIdsStayUnique(tasks: seq<Task>, d: TaskDraft, id: string, updates: TaskPatch, now: Instant)
    requires UniqueTaskIds(tasks)
    ensures (forall t :: t in tasks ==> t.id != id) ==> UniqueTaskIds(tasks + [NewTask(d, id, now)])
    ensures updates.id.None? ==> UniqueTaskIds(MergeTask(tasks, id, updates, now))
    ensures UniqueTaskIds(RemoveTask(tasks, id))
  {
    if forall t :: t in tasks ==> t.id != id {
      UniqueAfterAppend(tasks, NewTask(d, id, now));
    }
    if updates.id.None? {
      UniqueAfterMerge(tasks, id, updates, now);
    }
    UniqueAfterFilter(tasks, LacksTaskId(id));
  }

  lemma UniqueAfterAppend(tasks: seq<Task>, t: Task)
    requires UniqueTaskIds(tasks) && forall u :: u in tasks ==> u.id != t.id
    ensures UniqueTaskIds(tasks + [t])
  {
    var r := tasks + [t];
    forall i, j | 0 <= i < j < |r|
      ensures r[i].id != r[j].id
    {
      if j == |tasks| {
        assert tasks[i] in tasks;
      }
    }
  }

  lemma UniqueAfterMerge(tasks: seq<Task>, id: string, updates: TaskPatch, now: Instant)
    requires UniqueTaskIds(tasks) && updates.id.None?
    ensures UniqueTaskIds(MergeTask(tasks, id, updates, now))
  {
    var r := MergeTask(tasks, id, updates, now);
    forall i | 0 <= i < |tasks|
      ensures r[i].id == tasks[i].id
    {
      MergeTaskContents(tasks, id, updates, now, i);
    }
  }

  lemma {:induction false} UniqueAfterFilter(tasks: seq<Task>, keep: Task -> bool)
    requires UniqueTaskIds(tasks)
    ensures UniqueTaskIds(Seqs.Filter(tasks, keep))
  {
    if |tasks| > 0 {
      UniqueAfterFilter(tasks[1..], keep);
      var rest := Seqs.Filter(tasks[1..], keep);
      if keep(tasks[0]) {
        var r := [tasks[0]] + rest;
        forall i, j | 0 <= i < j < |r|
          ensures r[i].id != r[j].id
        {
          if i == 0 {
            assert r[j] in tasks[1..];
          }
        }
      }
    }
  }

  /** A completed task shows in the completed view with its completion
      time; a snoozed task is snoozed until the given time. */
  lemma {:induction false} CompleteAndSnooze(tasks: seq<Task>, id: string, at: Instant, now: Instant, i: int)
    requires 0 <= i < |tasks| && tasks[i].id == id
    ensures var t := MergeTask(tasks, id, CompletePatch(at), now)[i];
      IsCompleted(t) && t.completedAt == Some(at) && t.updatedAt == now && t.snoozedUntil == tasks[i].snoozedUntil
    ensures var t := MergeTask(tasks, id, SnoozePatch(at), now)[i];
      t.status == Snoozed && t.snoozedUntil == Some(at) && t.updatedAt == now && t.completedAt == tasks[i].completedAt
  {
  }

  // ---------------------------------------------------------------------
  // The same rules on projects
  // ---------------------------------------------------------------------

  function HasProjectId(id: string): Project -> bool {
    (p: Project) => p.id == id
  }

  function LacksProjectId(id: string): Project -> bool {
    (p: Project) => p.id != id
  }

  function ProjectPatcher(u: ProjectPatch): Project -> Project {
    (p: Project) => ApplyProjectPatch(p, u)
  }

  function MergeProject(projects: seq<Project>, id: string, updates: ProjectPatch, now: Instant): seq<Project> {
    Seqs.MapWhere(projects, HasProjectId(id), ProjectPatcher(updates.(updatedAt := Some(now))))
  }

  function RemoveProject(projects: seq<Project>, id: string): seq<Project> {
    Seqs.Filter(projects, LacksProjectId(id))
  }

  /** The project update follows the task rule: every project with the id
      gets the updates and the new `updated_at` and keeps the fields the
      updates do not name; every other project is unchanged; the length and
      order are kept, so an update for an id no project has changes
      nothing. */
  lemma {:induction false} MergeProjectContents(projects: seq<Project>, id: string, updates: ProjectPatch, now: Instant, i: int)
    requires 0 <= i < |projects|
    ensures |MergeProject(projects, id, updates, now)| == |projects|
    ensures var p := MergeProject(projects, id, updates, now)[i];
      if projects[i].id == id then
        && p.updatedAt == now
        && p.id == updates.id.GetOr(id)
        && p.name == updates.name.GetOr(projects[i].name)
        && p.color == updates.color.GetOr(projects[i].color)
        && p.description == updates.description.GetOr(projects[i].description)
        && p.isArchived == updates.isArchived.GetOr(projects[i].isArchived)
        && p.createdAt == updates.createdAt.GetOr(projects[i].createdAt)
        && p == ApplyProjectPatch(projects[i], updates.(updatedAt := Some(now)))
      else p == projects[i]
  {
  }

  /** The project delete follows the task rule: no project with the id is
      left, the others stay in their order, and a delete of an id no project
      has changes nothing. */
  lemma {:induction false} RemoveProjectContents(projects: seq<Project>, id: string)
    ensures forall p :: p in RemoveProject(projects, id) <==> p in projects && p.id != id
    ensures (forall p :: p in projects ==> p.id != id) ==> RemoveProject(projects, id) == projects
    ensures forall front, back :: projects == front + back ==>
      RemoveProject(projects, id) == RemoveProject(front, id) + RemoveProject(back, id)
  {
    if forall p :: p in projects ==> p.id != id {
      Seqs.FilterAll(projects, LacksProjectId(id));
    }
    forall front, back | projects == front + back
      ensures RemoveProject(projects, id) == RemoveProject(front, id) + RemoveProject(back, id)
    {
      Seqs.FilterAppend(front, back, LacksProjectId(id));
    }
  }

  // ---------------------------------------------------------------------
  // The store
  // ---------------------------------------------------------------------

  class Store {
    var tasks: seq<Task>
    var projects: seq<Project>
    var loading: bool
    var error: Option<string>
    var filter: TaskFilter

    constructor()
      ensures tasks == [] && projects == [] && !loading && error == None && filter == TodayView
    {
      tasks := [];
      projects := [];
      loading := false;
      error := None;
      filter := TodayView;
    }

    /** `addTask`: with a user, the new task is appended; without one, the
        list is kept and the error recorded. The sync outcome `synced`
        changes nothing. */
    method AddTask(draft: TaskDraft, user: Identity, id: string, now: Instant, synced: bool)
      modifies this
      ensures Authenticated(user) ==> tasks == old(tasks) + [NewTask(draft, id, now)] && error == old(error)
      ensures !Authenticated(user) ==> tasks == old(tasks) && error == Some(AddFailure(user, "Failed to add task"))
      ensures projects == old(projects) && loading == old(loading) && filter == old(filter)
    {
      if !Authenticated(user) {
        error := Some(AddFailure(user, "Failed to add task"));
        return;
      }
      tasks := tasks + [NewTask(draft, id, now)];
    }

    /** `updateTask`: every task with the id is merged with the updates and
        stamped; a failed sync does not roll it back. */
    method UpdateTask(id: string, updates: TaskPatch, now: Instant, synced: bool)
      modifies this
      ensures tasks == MergeTask(old(tasks), id, updates, now)
      ensures projects == old(projects) && loading == old(loading) && error == old(error) && filter == old(filter)
    {
      tasks := MergeTask(tasks, id, updates, now);
    }

    /** `deleteTask`: every task with the id is removed. */
    method DeleteTask(id: string, synced: bool)
      modifies this
      ensures tasks == RemoveTask(old(tasks), id)
      ensures projects == old(projects) && loading == old(loading) && error == old(error) && filter == old(filter)
    {
      tasks := RemoveTask(tasks, id);
    }

    /** `completeTask`: an update to completed, stamped with the completion
        time `at`. */
    method CompleteTask(id: string, at: Instant, now: Instant, synced: bool)
      modifies this
      ensures tasks == MergeTask(old(tasks), id, CompletePatch(at), now)
      ensures projects == old(projects) && loading == old(loading) && error == old(error) && filter == old(filter)
    {
      UpdateTask(id, CompletePatch(at), now, synced);
    }

    /** `snoozeTask`: an update to snoozed until `until`. */
    method SnoozeTask(id: string, until: Instant, now: Instant, synced: bool)
      modifies this
      ensures tasks == MergeTask(old(tasks), id, SnoozePatch(until), now)
      ensures projects == old(projects) && loading == old(loading) && error == old(error) && filter == old(filter)
    {
      UpdateTask(id, SnoozePatch(until), now, synced);
    }

    method AddProject(draft: ProjectDraft, user: Identity, id: string, now: Instant, synced: bool)
      modifies this
      ensures Authenticated(user) ==> projects == old(projects) + [NewProject(draft, id, now)] && error == old(error)
      ensures !Authenticated(user) ==> projects == old(projects) && error == Some(AddFailure(user, "Failed to add project"))
      ensures tasks == old(tasks) && loading == old(loading) && filter == old(filter)
    {
      if !Authenticated(user) {
        error := Some(AddFailure(user, "Failed to add project"));
        return;
      }
      projects := projects + [NewProject(draft, id, now)];
    }

    method UpdateProject(id: string, updates: ProjectPatch, now: Instant, synced: bool)
      modifies this
      ensures projects == MergeProject(old(projects), id, updates, now)
      ensures tasks == old(tasks) && loading == old(loading) && error == old(error) && filter == old(filter)
    {
      projects := MergeProject(projects, id, updates, now);
    }

    method DeleteProject(id: string, synced: bool)
      modifies this
      ensures projects == RemoveProject(old(projects), id)
      ensures tasks == old(tasks) && loading == old(loading) && error == old(error) && filter == old(filter)
    {
      projects := RemoveProject(projects, id);
    }

    /** `fetchTasks`: the fetched rows, newest first as the query orders
        them, or no tasks when signed out or on any failure; it always ends
        not loading and with no error. */
    method FetchTasks(user: Identity, response: Fetched<Task>)
      modifies this
      ensures tasks == if Authenticated(user) && response.Rows? then response.data.GetOr([]) else []
      ensures !loading && error == None
      ensures projects == old(projects) && filter == old(filter)
    {
      loading := true;
      error := None;
      if !Authenticated(user) {
        tasks := [];
        loading := false;
        return;
      }
      if response.QueryFailed? {
        tasks := [];
        loading := false;
        error := None;
        return;
      }
      tasks := response.data.GetOr([]);
      loading := false;
    }

    /** `fetchProjects`: the fetched rows, or no projects. */
    method FetchProjects(user: Identity, response: Fetched<Project>)
      modifies this
      ensures projects == if Authenticated(user) && response.Rows? then response.data.GetOr([]) else []
      ensures tasks == old(tasks) && loading == old(loading) && error == old(error) && filter == old(filter)
    {
      if !Authenticated(user) || response.QueryFailed? {
        projects := [];
        return;
      }
      projects := response.data.GetOr([]);
    }
  }

  /** The loop both rituals run: `updateTask` for each id in turn, each
      finished before the next begins. */
  method UpdateEach(store: Store, ids: seq<string>, updates: TaskPatch, now: Instant)
    modifies store
    ensures store.tasks == MergeEach(old(store.tasks), ids, updates, now)
    ensures store.projects == old(store.projects) && store.loading == old(store.loading)
    ensures store.error == old(store.error) && store.filter == old(store.filter)
  {
    var i := 0;
    while i < |ids|
      invariant 0 <= i <= |ids|
      invariant store.tasks == MergeEach(old(store.tasks), ids[..i], updates, now)
      invariant store.projects == old(store.projects) && store.loading == old(store.loading)
      invariant store.error == old(store.error) && store.filter == old(store.filter)
    {
      assert ids[..i + 1][..i] == ids[..i];
      store.UpdateTask(ids[i], updates, now, true);
      i := i + 1;
    }
    assert ids[..i] == ids;
  }
}
