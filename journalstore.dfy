/** The journal store: the local list of journal entries, the lookup of
    today's daily entry, and the replace-or-prepend update that follows a
    successful save. The session, the current day and the row the backend
    returns are parameters; the row each save sends is returned. */
module JournalStore {
  import opened Wrappers
  import opened Text
  import opened Calendar
  import opened Types
  import Seqs

  /** What `supabase.auth.getUser()` gives. */
  datatype Session = User(userId: string) | NoUser | SessionFailed(thrown: Thrown)

  /** What the upsert answers: the stored row, or an error. */
  datatype UpsertReply = Saved(row: JournalEntry) | Failed(thrown: Thrown)

  datatype Fetched = Rows(data: Option<seq<JournalEntry>>) | QueryFailed(thrown: Thrown)

  /** The content fields a daily save passes on. */
  datatype DailyFields = DailyFields(
    morningPicks: Option<seq<string>>,
    reflection: Option<string>,
    completedTasks: Option<seq<string>>)

  /** The fields of a `saveWeeklyReview` call that reach the row; the week
      number, year and counts are not stored. */
  datatype WeeklyReview = WeeklyReview(highlight: string, anchorTasks: seq<string>)

  /** The row sent to the upsert, keyed by date and type. */
  datatype EntryRequest = EntryRequest(
    date: Day,
    kind: EntryKind,
    morningPicks: Option<seq<string>>,
    reflection: Option<string>,
    completedTasks: Option<seq<string>>,
    weeklyAnchors: Option<seq<string>>)

  /** `text.trim() || undefined`. */
  function StoredText(text: string): (r: Option<string>)
    ensures r.None? <==> IsBlank(text)
    ensures r.Some? ==> r.value == Trim(text) && IsTrimmed(r.value) && r.value != ""
  {
    TrimEmptyIffBlank(text);
    TrimIsTrimmed(text);
    if Trim(text) != "" then Some(Trim(text)) else None
  }

  function DailyRequest(fields: DailyFields, today: Day): EntryRequest {
    EntryRequest(today, Daily, fields.morningPicks, fields.reflection, fields.completedTasks, None)
  }

  /** The fields of `saveMorningPicks`. */
  function PicksFields(taskIds: seq<string>): DailyFields {
    DailyFields(Some(taskIds), None, None)
  }

  /** The fields of `saveEveningReflection`. */
  function ReflectionFields(reflection: string, completedTaskIds: seq<string>): DailyFields {
    DailyFields(None, StoredText(reflection), Some(completedTaskIds))
  }

  function WeeklyRequest(review: WeeklyReview, today: Day): EntryRequest {
    EntryRequest(WeekMonday(today), Weekly, None, StoredText(review.highlight), None, Some(review.anchorTasks))
  }

  /** The message a failed fetch records: the missing user, or the thrown
      error's message with the fetch fallback. */
  function FetchFailure(session: Session, response: Fetched): string {
    match session
    case NoUser => "No authenticated user"
    case SessionFailed(e) => ErrorText(e, "Failed to fetch journal entries")
    case User(_) =>
      if response.QueryFailed? then ErrorText(response.thrown, "Failed to fetch journal entries")
      else "Failed to fetch journal entries"
  }

  /** The message a failed save records. */
  function SaveFailure(session: Session, reply: UpsertReply, fallback: string): string {
    match session
    case NoUser => "No authenticated user"
    case SessionFailed(e) => ErrorText(e, fallback)
    case User(_) => if reply.Failed? then ErrorText(reply.thrown, fallback) else fallback
  }

  // ---------------------------------------------------------------------
  // Lookup and upsert on the entry list
  // ---------------------------------------------------------------------

  predicate HasKey(e: JournalEntry, date: Day, kind: EntryKind) {
    e.date == date && e.kind == kind
  }

  function Keyed(date: Day, kind: EntryKind): JournalEntry -> bool {
    (e: JournalEntry) => HasKey(e, date, kind)
  }

  function Unkeyed(date: Day, kind: EntryKind): JournalEntry -> bool {
    (e: JournalEntry) => !HasKey(e, date, kind)
  }

  /** `getTodayEntry`: the first daily entry dated today, or `null`. */
  function TodayEntry(entries: seq<JournalEntry>, today: Day): (r: Option<JournalEntry>)
    ensures r.Some? ==> r.value in entries && r.value.date == today && r.value.kind == Daily
    ensures r.None? <==> forall e :: e in entries ==> !HasKey(e, today, Daily)
    ensures r.Some? ==> exists k :: 0 <= k < |entries| && entries[k] == r.value
                                    && forall m :: 0 <= m < k ==> !HasKey(entries[m], today, Daily)
  {
    match Seqs.FindFirst(entries, Keyed(today, Daily))
    case Some(k) =>
      assert forall m :: 0 <= m < k ==> !Keyed(today, Daily)(entries[m]);
      Some(entries[k])
    case None =>
      assert forall e :: e in entries ==> !Keyed(today, Daily)(e);
      None
  }

  /** The local update after a save: the first entry with the key is
      replaced by the stored row, or the row is put in front. */
  function Upserted(entries: seq<JournalEntry>, date: Day, kind: EntryKind, row: JournalEntry): seq<JournalEntry>
  {
    match Seqs.FindFirst(entries, Keyed(date, kind))
    case Some(k) => entries[k := row]
    case None => [row] + entries
  }

  /** With an entry under the key, the first one is replaced and the length
      kept; without one, the row is prepended and the length grows by one;
      nothing else changes. */
  lemma {:induction false} UpsertReplacesOrPrepends(entries: seq<JournalEntry>, date: Day, kind: EntryKind,
                                                    row: JournalEntry, k: int)
    ensures 0 <= k < |entries| && HasKey(entries[k], date, kind)
            && (forall m :: 0 <= m < k ==> !HasKey(entries[m], date, kind)) ==>
      var r := Upserted(entries, date, kind, row);
      |r| == |entries| && r[k] == row && forall m :: 0 <= m < |r| && m != k ==> r[m] == entries[m]
    ensures (forall e :: e in entries ==> !HasKey(e, date, kind)) ==>
      Upserted(entries, date, kind, row) == [row] + entries
  {
    var pick := Keyed(date, kind);
    if 0 <= k < |entries| && HasKey(entries[k], date, kind) && (forall m :: 0 <= m < k ==> !HasKey(entries[m], date, kind)) {
      assert pick(entries[k]);
      forall m | 0 <= m < k
        ensures !pick(entries[m])
      {
      }
      Seqs.FindFirstAt(entries, pick, k);
    }
    if forall e :: e in entries ==> !HasKey(e, date, kind) {
      forall m | 0 <= m < |entries|
        ensures !pick(entries[m])
      {
        assert entries[m] in entries;
      }
    }
  }

  /** The entries under other keys keep their values and their order. */
  lemma {:induction false} UpsertKeepsOthers(entries: seq<JournalEntry>, date: Day, kind: EntryKind, row: JournalEntry)
    requires HasKey(row, date, kind)
    ensures Seqs.Filter(Upserted(entries, date, kind, row), Unkeyed(date, kind))
         == Seqs.Filter(entries, Unkeyed(date, kind))
  {
    var other := Unkeyed(date, kind);
    match Seqs.FindFirst(entries, Keyed(date, kind))
    case Some(k) =>
      assert entries == entries[..k] + ([entries[k]] + entries[k + 1..]);
      assert entries[k := row] == entries[..k] + ([row] + entries[k + 1..]);
      Seqs.FilterAppend(entries[..k], [entries[k]] + entries[k + 1..], other);
      Seqs.FilterAppend([entries[k]], entries[k + 1..], other);
      Seqs.FilterAppend(entries[..k], [row] + entries[k + 1..], other);
      Seqs.FilterAppend([row], entries[k + 1..], other);
    case None =>
      Seqs.FilterAppend([row], entries, other);
  }

  /** A saved daily row under today's key is what `getTodayEntry` finds
      next; saving the same row again changes nothing. */
  lemma {:induction false} SavedEntryIsFound(entries: seq<JournalEntry>, today: Day, row: JournalEntry)
    requires HasKey(row, today, Daily)
    ensures TodayEntry(Upserted(entries, today, Daily, row), today) == Some(row)
    ensures Upserted(Upserted(entries, today, Daily, row), today, Daily, row) == Upserted(entries, today, Daily, row)
  {
    var pick := Keyed(today, Daily);
    var r := Upserted(entries, today, Daily, row);
    match Seqs.FindFirst(entries, pick)
    case Some(k) =>
      forall m | 0 <= m < k
        ensures !pick(r[m])
      {
        assert r[m] == entries[m];
      }
      Seqs.FindFirstAt(r, pick, k);
      assert r[k := row] == r;
    case None =>
      Seqs.FindFirstAt(r, pick, 0);
      assert r[0 := row] == r;
  }

  // ---------------------------------------------------------------------
  // The store
  // ---------------------------------------------------------------------

  class Journal {
    var entries: seq<JournalEntry>
    var loading: bool
    var error: Option<string>

    constructor()
      ensures entries == [] && !loading && error == None
    {
      entries := [];
      loading := false;
      error := None;
    }

    function GetTodayEntry(today: Day): Option<JournalEntry>
      reads this
    {
      TodayEntry(entries, today)
    }

    /** `fetchEntries`: the fetched entries, or on failure the entries kept
        and the error recorded. */
    method FetchEntries(session: Session, response: Fetched)
      modifies this
      ensures session.User? && response.Rows? ==> entries == response.data.GetOr([]) && error == None
      ensures !(session.User? && response.Rows?) ==>
        entries == old(entries) && error == Some(FetchFailure(session, response))
      ensures !loading
    {
      loading := true;
      error := None;
      if session.NoUser? {
        error := Some("No authenticated user");
      } else if session.SessionFailed? {
        error := Some(ErrorText(session.thrown, "Failed to fetch journal entries"));
      } else if response.QueryFailed? {
        error := Some(ErrorText(response.thrown, "Failed to fetch journal entries"));
      } else {
        entries := response.data.GetOr([]);
      }
      loading := false;
    }

    /** The save both upserts share: without a session nothing is sent; on
        success the stored row is upserted locally under the key, and on any
        failure the entries are kept and the error recorded. */
    method Save(request: EntryRequest, session: Session, reply: UpsertReply, fallback: string)
      returns (sent: Option<EntryRequest>)
      modifies this
      ensures sent == if session.User? then Some(request) else None
      ensures session.User? && reply.Saved? ==>
        entries == Upserted(old(entries), request.date, request.kind, reply.row) && error == None
      ensures !(session.User? && reply.Saved?) ==>
        entries == old(entries) && error == Some(SaveFailure(session, reply, fallback))
      ensures !loading
    {
      loading := true;
      error := None;
      sent := None;
      if !session.User? {
        error := Some(SaveFailure(session, reply, fallback));
        loading := false;
        return;
      }
      sent := Some(request);
      if reply.Failed? {
        error := Some(SaveFailure(session, reply, fallback));
        loading := false;
        return;
      }
      var k := FirstIndex(entries, request.date, request.kind);
      if k >= 0 {
        entries := entries[k := reply.row];
      } else {
        entries := [reply.row] + entries;
      }
      loading := false;
    }

    /** `createOrUpdateDailyEntry`: a save under today's daily key. */
    method CreateOrUpdateDailyEntry(fields: DailyFields, session: Session, reply: UpsertReply, today: Day)
      returns (sent: Option<EntryRequest>)
      modifies this
      ensures sent == if session.User? then Some(DailyRequest(fields, today)) else None
      ensures session.User? && reply.Saved? ==>
        entries == Upserted(old(entries), today, Daily, reply.row) && error == None
      ensures !(session.User? && reply.Saved?) ==>
        entries == old(entries) && error == Some(SaveFailure(session, reply, "Failed to save journal entry"))
      ensures !loading
    {
      sent := Save(DailyRequest(fields, today), session, reply, "Failed to save journal entry");
    }

    method SaveMorningPicks(taskIds: seq<string>, session: Session, reply: UpsertReply, today: Day)
      returns (sent: Option<EntryRequest>)
      modifies this
      ensures sent == if session.User? then Some(DailyRequest(PicksFields(taskIds), today)) else None
      ensures session.User? && reply.Saved? ==>
        entries == Upserted(old(entries), today, Daily, reply.row) && error == None
      ensures !(session.User? && reply.Saved?) ==>
        entries == old(entries) && error == Some(SaveFailure(session, reply, "Failed to save journal entry"))
      ensures !loading
    {
      sent := CreateOrUpdateDailyEntry(PicksFields(taskIds), session, reply, today);
    }

    /** `saveEveningReflection`: the reflection is sent trimmed, or left out
        when blank. */
    method SaveEveningReflection(reflection: string, completedTaskIds: seq<string>, session: Session,
                                 reply: UpsertReply, today: Day)
      returns (sent: Option<EntryRequest>)
      modifies this
      ensures sent == if session.User? then Some(DailyRequest(ReflectionFields(reflection, completedTaskIds), today)) else None
      ensures session.User? && reply.Saved? ==>
        entries == Upserted(old(entries), today, Daily, reply.row) && error == None
      ensures !(session.User? && reply.Saved?) ==>
        entries == old(entries) && error == Some(SaveFailure(session, reply, "Failed to save journal entry"))
      ensures !loading
    {
      sent := CreateOrUpdateDailyEntry(ReflectionFields(reflection, completedTaskIds), session, reply, today);
    }

    /** `saveWeeklyReview`: a save under the key of this week's Monday and
        the weekly type. */
    method SaveWeeklyReview(review: WeeklyReview, session: Session, reply: UpsertReply, today: Day)
      returns (sent: Option<EntryRequest>)
      modifies this
      ensures sent == if session.User? then Some(WeeklyRequest(review, today)) else None
      ensures session.User? && reply.Saved? ==>
        entries == Upserted(old(entries), WeekMonday(today), Weekly, reply.row) && error == None
      ensures !(session.User? && reply.Saved?) ==>
        entries == old(entries) && error == Some(SaveFailure(session, reply, "Failed to save weekly review"))
      ensures !loading
    {
      sent := Save(WeeklyRequest(review, today), session, reply, "Failed to save weekly review");
    }

    method ClearError()
      modifies this
      ensures error == None && entries == old(entries) && loading == old(loading)
    {
      error := None;
    }
  }

  /** `entries.findIndex(e => e.date === date && e.type === kind)`, as the
      loop it runs. */
  method FirstIndex(entries: seq<JournalEntry>, date: Day, kind: EntryKind) returns (k: int)
    ensures k == match Seqs.FindFirst(entries, Keyed(date, kind)) case Some(i) => i case None => -1
  {
    k := 0;
    while k < |entries|
      invariant 0 <= k <= |entries|
      invariant forall m :: 0 <= m < k ==> !HasKey(entries[m], date, kind)
    {
      if HasKey(entries[k], date, kind) {
        Seqs.FindFirstAt(entries, Keyed(date, kind), k);
        return;
      }
      k := k + 1;
    }
    assert forall m :: 0 <= m < |entries| ==> !Keyed(date, kind)(entries[m]);
    k := -1;
  }
}
