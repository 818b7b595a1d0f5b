# Nucleus task cockpit: a verified model of its task rules

Nucleus is a personal productivity web application: tasks and projects,
a morning and an evening ritual journal, and a weekly review. This
project models the parts of it that hold real logic, and proves what they
promise:

- the natural-language task annotation parser (`NaturalLanguageTaskParser`),
  which turns an entry such as `Ship it #tomorrow !high $web %feat` into a
  task draft (module `NaturalLanguageParser`, with worked inputs in
  `ParserExamples`);
- the task utilities: the date filter, the stable priority sort,
  validation and the overdue test (`Tasks`), and the task list's view
  filter and four-level comparator (`TaskList`);
- the local state of the two stores: `TaskStore.Store` (tasks, projects,
  loading, error, filter) and `JournalStore.Journal` (journal entries,
  loading, error);
- the planning rules of the pages: the dashboard's Today / This Week /
  Backlog sections with drag-and-drop re-dating and the task card's title
  editor (`TaskSections`), the weekly review (`WeeklyRitual`) and the
  morning ritual (`MorningRitual`).

Shared modules: `Wrappers` (the `Option` type for optional fields),
`Types` (the entities of `src/types/index.ts`: `Task`, `Project`,
`JournalEntry`, the priority and status enumerations, and the partial
records that updates are made of), `Text` (JavaScript `trim`,
`toLowerCase`, `includes`, `indexOf`, `replace`, `split`), `Calendar`
(day numbers and the `Date` constructor's normalisation), `Seqs`
(`filter`, `findIndex`, `map` over the matching elements) and `Sorting`
(the stable `Array.prototype.sort`, as an insertion sort).

Modelling choices:

- Dates are day numbers (days since 1970-01-01); timestamps are integer
  `Instant`s. The current date is a parameter everywhere: the parser takes
  it as a calendar date (year, month, day), from which its day number and
  weekday follow.
- `new Date(y, m - 1, d)` (`Calendar.MakeDate`): normalisation is
  modelled as `new Date` does it, so an out-of-range month or day carries
  into the next year or month, and a year 0..99 is read as 1900..1999; the
  day count is checked against known dates only (see "## Left out"). So a date token that matches a pattern
  always resolves: an impossible date such as month 13 does not fail,
  because `new Date` normalises it, so the `isNaN` test never fires for
  digit input.
- The `YYYY-MM-DD` pattern is modelled as written. The year-first test
  compares the pattern's `source` with a string that starts with an
  escaped parenthesis, so it is never true. `#2024-01-15` is therefore
  read as month 2024, day 1, year 15 (1915), which is 1 August 2083
  (`NaturalLanguageParser.YearFirstDateIsMisread`).
- The token expression `\<symbol>([^\s#!$%]+)` is an explicit character
  scan (`FindMarker`, `RunEnd`); `\s` and `trim` use the same ECMAScript
  whitespace set.
- Confidence is counted in tenths: 8 stands for 0.8.
- The parser's project list is a parameter. The source holds it in a
  field that is set once in the constructor and never changed.
- Backend calls are inputs: the signed-in user (or the failure to get
  one), whether a sync succeeded, and the row or rows the backend returns.
  Fresh ids and clock readings are parameters too.
- `isThisWeek` (date-fns, weeks starting on Sunday) is modelled as "in the
  same Sunday-to-Saturday week as today".
- The task list comparator returns the due-date difference whenever both
  tasks are dated, even when it is 0. So the newest-first tie-break only
  separates two undated tasks; two tasks due the same day keep their input
  order (`TaskList.SortedTiesKeepOrder`).
- A state-changing handler returns the `onEdit(id, updates)` call it makes
  as a value (`Types.Edit`), and the lemmas apply it with the task store's
  merge rule.

## Model

| member | source | states |
|---|---|---|
| `NaturalLanguageParser.FindMarker` | src/utils/naturalLanguageParser.ts:120-121 | finds the leftmost position where the marker is followed by a value character; no earlier position qualifies, and `None` means none exists |
| `NaturalLanguageParser.RunEnd` | src/utils/naturalLanguageParser.ts:120 | the greedy `+`: every character of the run is a value character, and the run stops at the end or at a non-value character |
| `NaturalLanguageParser.TokenSpan` | src/utils/naturalLanguageParser.ts:120-121 | yields no span exactly when the marker occurs nowhere with a value after it; otherwise the span is the first match of the token expression |
| `NaturalLanguageParser.ReplaceRemovesToken` | src/utils/naturalLanguageParser.ts:126 | `replace(match[0], '')` removes the matched occurrence itself, because no earlier occurrence of the token text exists |
| `NaturalLanguageParser.TokenEdits` | src/utils/naturalLanguageParser.ts:125-126 | the captured value needs no trimming, and the replace cuts out exactly the matched span |
| `NaturalLanguageParser.ExtractWithSymbol` | src/utils/naturalLanguageParser.ts:119-131 | extracts nothing, with the text unchanged, exactly when there is no token; otherwise the value is the first token's value, and the remaining text is the input without that token, trimmed |
| `NaturalLanguageParser.TokenExtracted` | src/utils/naturalLanguageParser.ts:119-131 | the first match `text[i..j]` is the one extracted, and the remaining text is the trimmed text on either side of it |
| `NaturalLanguageParser.ExtractionShrinks` | src/utils/naturalLanguageParser.ts:120-126 | an extracted value is non-empty, has no whitespace and no marker, and the remaining text is shorter than the input |
| `NaturalLanguageParser.AbsentSymbolExtractsNothing` | src/utils/naturalLanguageParser.ts:123-130 | text without the marker character extracts nothing and is returned unchanged |
| `NaturalLanguageParser.DaysUntil` | src/utils/naturalLanguageParser.ts:267 | `(target - current + 7) % 7 \|\| 7` is 1 to 7 days and lands on the target weekday |
| `NaturalLanguageParser.NextFridayAhead` | src/utils/naturalLanguageParser.ts:264-271 | `NextFriday`: the next Friday is 1 to 7 days ahead, never today, and is a Friday |
| `NaturalLanguageParser.NextDayOfWeekAhead` | src/utils/naturalLanguageParser.ts:273-285 | `NextDayOfWeek`: for each weekday group, the next day of that weekday is 1 to 7 days ahead and has that weekday |
| `NaturalLanguageParser.ScanWeekdays` | src/utils/naturalLanguageParser.ts:159-165 | the loop over the keyword table returns the first weekday group that contains the word, resolved to its next date, or nothing |
| `NaturalLanguageParser.ScanPatterns` | src/utils/naturalLanguageParser.ts:168-205 | the loop over the five date patterns returns the date of the first pattern that matches, or nothing |
| `NaturalLanguageParser.MatchPattern` | src/utils/naturalLanguageParser.ts:177 | a match yields one number per group of the pattern |
| `NaturalLanguageParser.ParseDateString` | src/utils/naturalLanguageParser.ts:133-208 | against `ResolveDate`: resolves a date token in order: today/now, tomorrow/tmr, thisweek/week, nextweek, weekday names, then the patterns |
| `NaturalLanguageParser.RelativeDayKeywords` | src/utils/naturalLanguageParser.ts:136-145 | `ResolveDate`: "today" and "now" give today; "tomorrow" and "tmr" give the next day, in any letter case |
| `NaturalLanguageParser.WeekKeywordsGiveFridays` | src/utils/naturalLanguageParser.ts:148-157 | `ResolveDate`: "thisweek" and "week" give a Friday 1 to 7 days ahead; "nextweek" gives a Friday 8 to 14 days ahead |
| `NaturalLanguageParser.WeekdayWordsLookAhead` | src/utils/naturalLanguageParser.ts:159-165 | `ResolveDate`: a weekday word gives the next day with that weekday, 1 to 7 days ahead and never today |
| `NaturalLanguageParser.WeekdayGroupFound` | src/utils/naturalLanguageParser.ts:160-164 | the keyword loop stops at the one group that holds the word |
| `NaturalLanguageParser.WeekdayGroupsDisjoint` | src/utils/naturalLanguageParser.ts:30-42 | a word of a weekday group belongs to no other group of the keyword table |
| `NaturalLanguageParser.DayNameIndex` | src/utils/naturalLanguageParser.ts:274-275 | each weekday group name is lower case and sits in the `days` list at its weekday index |
| `NaturalLanguageParser.PatternShapes` | src/utils/naturalLanguageParser.ts:168-174 | every date pattern has two or three groups |
| `NaturalLanguageParser.NoPatternReadsYearFirst` | src/utils/naturalLanguageParser.ts:184 | the year-first test is false for every pattern source |
| `NaturalLanguageParser.FullYearMarker` | src/utils/naturalLanguageParser.ts:182 | the three three-group pattern sources contain `\d{4}` |
| `NaturalLanguageParser.PatternGroupsAsWritten` | src/utils/naturalLanguageParser.ts:180-197 | `PatternDate`: three-group patterns read their groups as month, day, year; two-group patterns as month and day of the current year |
| `NaturalLanguageParser.YearFirstDateIsMisread` | src/utils/naturalLanguageParser.ts:169-199 | `#2024-01-15` resolves to 1 August 2083, not to 15 January 2024 |
| `NaturalLanguageParser.NotAKeyword` | src/utils/naturalLanguageParser.ts:136-165 | a ten-character token is no keyword and names no weekday |
| `NaturalLanguageParser.PriorityWordsTable` | src/utils/naturalLanguageParser.ts:210-232 | `ParsePriority`: a priority token resolves to a level exactly when it is, in any letter case, a word of that level, and resolves to nothing otherwise |
| `NaturalLanguageParser.PriorityNumerals` | src/utils/naturalLanguageParser.ts:219-223 | `ParsePriority`: "1" and "3" give high, "2" gives medium, "0" gives low |
| `NaturalLanguageParser.ParseFeature` | src/utils/naturalLanguageParser.ts:234-243 | a feature token resolves exactly when it is "feat" or "feature" in any letter case, and then only to true |
| `NaturalLanguageParser.FoundProjectIsListed` | src/utils/naturalLanguageParser.ts:245-262 | `FindProjectByName` and `ResolveProject`: a found project id is the id of a held project, and a resolved one is also non-empty |
| `NaturalLanguageParser.ExactNameWins` | src/utils/naturalLanguageParser.ts:248-252 | `FindProjectByName`: the first project whose name equals the token, ignoring case, is chosen over any partial match |
| `NaturalLanguageParser.FirstPartialNameWins` | src/utils/naturalLanguageParser.ts:254-259 | `FindProjectByName`: without an exact match, the first project whose name contains the token or is contained in it is chosen |
| `NaturalLanguageParser.UnmatchedNameIsUnresolved` | src/utils/naturalLanguageParser.ts:245-262 | `FindProjectByName`: a token that no name contains, equals or is contained in finds no project |
| `NaturalLanguageParser.EmptyProjectNameTakesAnyToken` | src/utils/naturalLanguageParser.ts:254-259 | a project with an empty name is contained in every token, so without an exact match it takes any token |
| `NaturalLanguageParser.ProjectTags` | src/utils/naturalLanguageParser.ts:296 | the tags are `$name` for each of the first three projects at most |
| `NaturalLanguageParser.GenerateSuggestions` | src/utils/naturalLanguageParser.ts:287-300 | the four fixed hints come first; a fifth hint listing up to three projects is added exactly when there are projects |
| `NaturalLanguageParser.Pass` | src/utils/naturalLanguageParser.ts:66-107 | a pass that resolves nothing leaves the working text unchanged, and no pass makes the text longer |
| `NaturalLanguageParser.PassWithoutToken` | src/utils/naturalLanguageParser.ts:66-67 | a pass whose marker has no token leaves the text and the field alone |
| `NaturalLanguageParser.PassWithToken` | src/utils/naturalLanguageParser.ts:66-74 | a pass with a token takes the resolved value and the cut text, or keeps the text when the value does not resolve |
| `NaturalLanguageParser.DatePass` | src/utils/naturalLanguageParser.ts:65-74 | the date pass, step by step, gives the pass outcome of the date resolver |
| `NaturalLanguageParser.LookupPass` | src/utils/naturalLanguageParser.ts:76-107 | the priority, project and feature passes, step by step, give the pass outcome of their lookups |
| `NaturalLanguageParser.Parse` | src/utils/naturalLanguageParser.ts:51-117 | `parse`, run as the code runs it (four passes over the working text, a tenth of confidence per resolved field), gives the specified result |
| `NaturalLanguageParser.PassesAssemble` | src/utils/naturalLanguageParser.ts:61-116 | `Parsed`: the result of non-blank input is assembled from its four passes in order: title fallback, fields, confidence and suggestions |
| `NaturalLanguageParser.BlankInputGivesEmptyDraft` | src/utils/naturalLanguageParser.ts:52-59 | `Parsed`: exactly the blank inputs give title "", confidence 0, no fields and no suggestions |
| `NaturalLanguageParser.ConfidenceCountsResolvedFields` | src/utils/naturalLanguageParser.ts:63-116 | `Parsed`: for non-blank input the confidence is min(8 + resolved fields, 10) tenths, so 0.8 to 1.0, and the suggestions are returned |
| `NaturalLanguageParser.TitleIsNonEmptyAndTrimmed` | src/utils/naturalLanguageParser.ts:110 | the title of non-blank input is non-empty, trimmed and no longer than the trimmed input |
| `NaturalLanguageParser.UnresolvedInputIsTitle` | src/utils/naturalLanguageParser.ts:66-110 | when no token resolves, the title is the whole trimmed input and the confidence 0.8 |
| `NaturalLanguageParser.UnresolvedFallbackIsIdempotent` | src/utils/naturalLanguageParser.ts:51-117 | parsing the title of an input none of whose tokens resolved gives the same result again |
| `ParserExamples.PlainTextIsTitle` | src/utils/naturalLanguageParser.ts:51-117 | "Buy milk" is all title, with no fields, at confidence 0.8 |
| `ParserExamples.FeatureTokenSetsFlag` | src/utils/naturalLanguageParser.ts:98-110 | "%feat Launch page" sets the feature flag and has the title "Launch page" |
| `ParserExamples.UnresolvedDateStaysInTitle` | src/utils/naturalLanguageParser.ts:65-74 | "#bogusdate Review" leaves the date unset and keeps the whole text as title, at 0.8 |
| `ParserExamples.DateAndPriority` | src/utils/naturalLanguageParser.ts:65-116 | "Ship it #tomorrow !high" gives title "Ship it", tomorrow's date, high priority, confidence 1.0 |
| `ParserExamples.PartialProjectName` | src/utils/naturalLanguageParser.ts:87-96 | "Fix bug $web" with the project "Website" picks that project by partial match, at 0.9 |
| `Calendar.MondayOffset` | src/stores/journalStore.ts:149 | the offset back to Monday is between -6 and 0 |
| `Calendar.MondayOffsetLandsOnMonday` | src/stores/journalStore.ts:147-151 | the offset from any day lands on a Monday |
| `Calendar.WeekMonday` | src/stores/journalStore.ts:147-153 | the Monday of the week is 0 to 6 days before today |
| `Calendar.WeekdayShift` | src/utils/naturalLanguageParser.ts:268-269 | moving on `u` days moves the weekday `u` places round the week |
| `Calendar.SundayOf` | src/utils/tasks.ts:35 | the Sunday that starts a date's week is on or up to six days before it |
| `Calendar.ThisWeekIsSevenDays` | src/utils/tasks.ts:35 | `IsThisWeek`: a date is in this week exactly when it lies in the seven days from the Sunday on or before today |
| `Calendar.NormalisedCarriesMonths` | src/utils/naturalLanguageParser.ts:197 | month 13 of a year is January of the next year |
| `Calendar.NormalisedCarriesDays` | src/utils/naturalLanguageParser.ts:197 | one more day in the day field is the next day, whatever the month length |
| `Calendar.KnownDays` | src/utils/naturalLanguageParser.ts:197 | the day count agrees with known dates, and year 24 is read as 1924 |
| `Calendar.SurplusMonthsCarry` | src/utils/naturalLanguageParser.ts:197 | month 2024 of year 15 is 1 August 2083 |
| `Text.TrimIsTrimmed` | src/utils/naturalLanguageParser.ts:110 | `Trim`: the result neither starts nor ends with whitespace |
| `Text.TrimOffset` | src/utils/naturalLanguageParser.ts:110 | `Trim`: the result is a contiguous slice of the input, at the returned offset |
| `Text.TrimEmptyIffBlank` | src/utils/naturalLanguageParser.ts:52-54 | `trim()` is empty exactly when the string is all whitespace |
| `Text.TrimIdempotent` | src/utils/naturalLanguageParser.ts:110 | trimming twice is trimming once |
| `Text.TrimPadded` | src/utils/naturalLanguageParser.ts:126 | `Trim`: trimming a trimmed string padded with whitespace gives it back |
| `Text.ReplaceFirstMeaning` | src/utils/naturalLanguageParser.ts:126 | `ReplaceFirst`: a string without the pattern is unchanged; otherwise only the leftmost occurrence is replaced |
| `Text.Utf16Length` | src/utils/tasks.ts:62 | `length` counts UTF-16 code units: between one and two per character |
| `Text.Utf16LengthBounds` | src/utils/tasks.ts:62 | the code-unit length is the character count exactly when every character is in the Basic Multilingual Plane, and twice it when none is |
| `Text.IndexOf` | src/utils/naturalLanguageParser.ts:126 | `indexOf` finds the first occurrence at or after the start, or reports that there is none |
| `Text.Split` | src/utils/naturalLanguageParser.ts:177 | `split` gives at least one part, and no part holds the separator |
| `Types.ApplyPatchIdempotent` | src/stores/taskStore.ts:100 | spreading the same partial task twice is spreading it once |
| `Types.ApplyEmptyPatch` | src/stores/taskStore.ts:100 | spreading a partial task with no keys keeps the task |
| `Tasks.FilterTasksByDate` | src/utils/tasks.ts:25-42 | the result holds exactly the input's tasks that pass the filter's test, and is no longer than the input |
| `Tasks.DateFilterContents` | src/utils/tasks.ts:25-42 | `FilterTasksByDate` and its test `KeptByDate`: no filter returns a completed task; today and this week return only dated tasks; the backlog holds every open undated task; this week and the backlog split the open tasks |
| `Tasks.TodayIsThisWeek` | src/utils/tasks.ts:32-35 | a task the today filter returns is returned by the this-week filter |
| `Tasks.Rank` | src/utils/tasks.ts:45-49 | high ranks 3, medium 2, low or missing 1 |
| `Tasks.SortTasksByPriority` | src/utils/tasks.ts:44-52 | the result is a permutation of the input with non-increasing rank; the input is a value and is not changed |
| `Tasks.PrioritySortIsStable` | src/utils/tasks.ts:47-51 | tasks of equal rank keep their relative order |
| `Tasks.ValidationErrors` | src/utils/tasks.ts:55-71 | the messages are drawn from the three messages, none twice, so at most three |
| `Tasks.LengthCountsCodeUnits` | src/utils/tasks.ts:62 | a title of 101 characters outside the Basic Multilingual Plane is too long; a title of at most 200 characters inside it is not |
| `Tasks.ValidateTask` | src/utils/tasks.ts:55-77 | the messages pushed are those of `ValidationErrors`, and the task is valid exactly when there is none |
| `Tasks.ValidationErrorsMeaning` | src/utils/tasks.ts:57-71 | "Title is required" exactly for a missing or blank title, the length message exactly for a title over 200 UTF-16 code units, the date message exactly for a given date that does not parse; the messages come in that order |
| `Tasks.OverdueTasksByDate` | src/utils/tasks.ts:85-92 | `IsTaskOverdue`: an overdue task is not due today; it is in this week's list when due earlier this week and in the backlog when due before this week |
| `TaskList.ViewsAgainstDateFilter` | src/components/dashboard/TaskList.tsx:28-49 | `ShownIn` and `FilteredTasks`: the today and this-week views hold the open dated tasks the date filter returns; the backlog view only open undated tasks; the completed view only completed tasks, which no other view holds |
| `TaskList.CompareAntisymmetric` | src/components/dashboard/TaskList.tsx:52-73 | swapping the comparator's arguments negates its result |
| `TaskList.CompareTiesExactlySameKey` | src/components/dashboard/TaskList.tsx:52-73 | `Compare`: two tasks tie exactly when they agree on status, priority and due date and, when both are undated, on creation time |
| `TaskList.CompareTransitive` | src/components/dashboard/TaskList.tsx:52-73 | the comparator's order is transitive |
| `TaskList.ListOrderIsTotalPreorder` | src/components/dashboard/TaskList.tsx:52-73 | the comparator is consistent: a total preorder |
| `TaskList.SortedTasks` | src/components/dashboard/TaskList.tsx:52-73 | the sorted list is a permutation of the filtered tasks and is ordered by the comparator |
| `TaskList.SortedTaskOrder` | src/components/dashboard/TaskList.tsx:54-71 | open tasks come before completed ones; at equal status higher priority first; at equal priority earlier due date first and dated before undated; of two undated tasks the newer first |
| `TaskList.SortedTiesKeepOrder` | src/components/dashboard/TaskList.tsx:52-73 | tasks the comparator ties keep their input order |
| `Sorting.Insert` | src/components/dashboard/TaskList.tsx:52 | inserting adds exactly the one element |
| `Sorting.SortBy` | src/utils/tasks.ts:47 | the sort returns a permutation of its input |
| `Sorting.InsertSorted` | src/utils/tasks.ts:47 | inserting into a sorted list keeps it sorted |
| `Sorting.SortBySorted` | src/utils/tasks.ts:47 | the sort yields a sorted permutation for any consistent comparator |
| `Sorting.InsertKeepsTies` | src/utils/tasks.ts:47 | inserting puts the new element after the existing elements it ties with |
| `Sorting.SortByStable` | src/utils/tasks.ts:47 | the sort is stable: tied elements keep their input order |
| `TaskStore.MergeTaskContents` | src/stores/taskStore.ts:93-102 | `MergeTask`: every task with the id gets the updates and the new `updated_at` and keeps the other fields; all other tasks, the length and the order are unchanged |
| `TaskStore.MergeTaskIdempotent` | src/stores/taskStore.ts:98-102 | applying the same update twice is applying it once, unless it moves the task to another id |
| `TaskStore.MergeUnknownTask` | src/stores/taskStore.ts:98-102 | an update for an id no task has changes nothing |
| `TaskStore.RemoveTaskContents` | src/stores/taskStore.ts:120-125 | `RemoveTask`: no task with the id is left; the others stay, in order |
| `TaskStore.DeleteUndoesAdd` | src/stores/taskStore.ts:57-125 | deleting a task just added under a fresh id gives the list back |
| `TaskStore.TaskIdsStayUnique` | src/stores/taskStore.ts:57-125 | adding under a fresh id, updating without an id change, and deleting all keep the ids unique |
| `TaskStore.UniqueAfterFilter` | src/stores/taskStore.ts:124 | filtering keeps the ids unique |
| `TaskStore.CompleteAndSnooze` | src/stores/taskStore.ts:143-155 | a completed task is completed at the given time; a snoozed task is snoozed until the given time; neither changes the other's field |
| `TaskStore.MergeProjectContents` | src/stores/taskStore.ts:187-196 | `MergeProject`: every project with the id gets the updates and the new `updated_at` and keeps every field the updates do not name; all other projects, the length and the order are unchanged |
| `TaskStore.RemoveProjectContents` | src/stores/taskStore.ts:215-220 | `RemoveProject`: no project with the id is left; the others stay, in order (removal distributes over concatenation); with no project under the id nothing changes |
| `TaskStore.MergeEachContents` | src/app/rituals/weekly/page.tsx:156-161 | after the same updates are sent for each id in turn, every task with one of the ids carries them once and every other task is unchanged |
| `TaskStore.Store.constructor` | src/stores/taskStore.ts:42-47 | the store starts empty, not loading, without error, on the today filter |
| `TaskStore.Store.AddTask` | src/stores/taskStore.ts:57-91 | with a user, exactly one new task (the fields plus the fresh id and timestamps) is appended at the end; without one, the tasks are kept and the error set; a failed sync changes nothing |
| `TaskStore.Store.UpdateTask` | src/stores/taskStore.ts:93-118 | the tasks become their merge with the updates; a failed sync neither rolls back nor sets an error |
| `TaskStore.Store.DeleteTask` | src/stores/taskStore.ts:120-141 | the tasks with the id are removed; a failed sync neither rolls back nor sets an error |
| `TaskStore.Store.CompleteTask` | src/stores/taskStore.ts:143-148 | an update to status completed with `completed_at` set |
| `TaskStore.Store.SnoozeTask` | src/stores/taskStore.ts:150-155 | an update to status snoozed with `snoozed_until` set |
| `TaskStore.Store.AddProject` | src/stores/taskStore.ts:158-185 | with a user, the new project is appended; without one, the projects are kept and the error set |
| `TaskStore.Store.UpdateProject` | src/stores/taskStore.ts:187-213 | the projects become their merge with the updates |
| `TaskStore.Store.DeleteProject` | src/stores/taskStore.ts:215-234 | the projects with the id are removed |
| `TaskStore.Store.FetchTasks` | src/stores/taskStore.ts:237-268 | the fetched rows with a user and a successful query; no tasks without a user or on failure; always not loading and without error |
| `TaskStore.Store.FetchProjects` | src/stores/taskStore.ts:270-291 | the fetched rows, or no projects without a user or on failure |
| `TaskStore.UpdateEach` | src/app/rituals/morning/page.tsx:101-103 | the loop of `updateTask` calls leaves the tasks merged with the updates for each id in turn, and nothing else changed |
| `JournalStore.StoredText` | src/stores/journalStore.ts:134 | a text is stored trimmed and non-empty, or absent exactly when it is blank |
| `JournalStore.TodayEntry` | src/stores/journalStore.ts:60-64 | the entry found is the first daily entry dated today in the list; none is found exactly when there is no such entry |
| `JournalStore.UpsertReplacesOrPrepends` | src/stores/journalStore.ts:106-118 | `Upserted`: with an entry under the key, the first such entry is replaced and the length kept; otherwise the row is prepended |
| `JournalStore.UpsertKeepsOthers` | src/stores/journalStore.ts:107-118 | `Upserted`: entries under other keys keep their values and their relative order |
| `JournalStore.SavedEntryIsFound` | src/stores/journalStore.ts:60-118 | a saved daily row for today is what `getTodayEntry` then finds, and saving it again changes nothing |
| `JournalStore.FirstIndex` | src/stores/journalStore.ts:108-110 | the `findIndex` loop gives the first index with the key, or -1 |
| `JournalStore.Journal.constructor` | src/stores/journalStore.ts:30-33 | the journal starts empty, not loading, without error |
| `JournalStore.Journal.FetchEntries` | src/stores/journalStore.ts:35-58 | the fetched entries (none when the query gives no data) and no error on success; on any failure the entries are kept and the error is `FetchFailure`: "No authenticated user" without a user, otherwise the thrown message with "Failed to fetch journal entries" as fallback; always not loading |
| `JournalStore.Journal.Save` | src/stores/journalStore.ts:95-125 | without a user nothing is sent; on success the stored row is upserted under its key; on any failure the entries are kept, the error is set and loading ends |
| `JournalStore.Journal.CreateOrUpdateDailyEntry` | src/stores/journalStore.ts:80-126 | the save under today's daily key, with the same success and failure cases |
| `JournalStore.Journal.SaveMorningPicks` | src/stores/journalStore.ts:128-130 | a daily save of the picks |
| `JournalStore.Journal.SaveEveningReflection` | src/stores/journalStore.ts:132-137 | a daily save of the trimmed reflection, absent when blank, and the completed task ids |
| `JournalStore.Journal.SaveWeeklyReview` | src/stores/journalStore.ts:139-195 | the save under this week's Monday and the weekly type, with the trimmed highlight and the anchors |
| `JournalStore.Journal.ClearError` | src/stores/journalStore.ts:197 | the error is cleared and nothing else changes |
| `TaskSections.SectionsPartition` | src/components/dashboard/TaskSections.tsx:352-369 | `InSection` and `SectionTasks`: the sections are pairwise disjoint and hold no completed task; the backlog is exactly the open undated tasks; an open task due before today or over a week ahead is in no section |
| `TaskSections.DropMovesTask` | src/components/dashboard/TaskSections.tsx:375-391 | `DropEdit`: a drop, applied by the store, moves an open dragged task into the section it was dropped on and edits no task with another id |
| `TaskSections.Board.constructor` | src/components/dashboard/TaskSections.tsx:341-342 | no task is dragged and no section hovered at first |
| `TaskSections.Board.HandleDragStart` | src/components/dashboard/TaskSections.tsx:396-398 | the task becomes the dragged task |
| `TaskSections.Board.DragOver` | src/components/dashboard/TaskSections.tsx:272-275 | the section becomes the hovered one |
| `TaskSections.Board.DragLeave` | src/components/dashboard/TaskSections.tsx:276-282 | the hover is cleared only when the pointer leaves the drop zone itself |
| `TaskSections.Board.HandleDrop` | src/components/dashboard/TaskSections.tsx:372-394 | without a dragged task nothing happens; otherwise the task is re-dated to today, tomorrow or no date for the section, and both drag fields are cleared |
| `TaskSections.Board.Drop` | src/components/dashboard/TaskSections.tsx:283-287 | the drop zone's handler makes the drop's edit, if any, and always leaves nothing dragged and nothing hovered |
| `TaskSections.Board.HandleDragEnd` | src/components/dashboard/TaskSections.tsx:400-403 | both drag fields are cleared |
| `TaskSections.SaveEdit` | src/components/dashboard/TaskSections.tsx:22-27 | a title edit is made exactly when the trimmed text is non-empty and differs from the title, and it sets the trimmed text |
| `TaskSections.SavedTitleSettles` | src/components/dashboard/TaskSections.tsx:22-27 | a saved title is trimmed and non-empty, only the title and the stamp change, and the same save again makes no edit |
| `TaskSections.TaskCard.constructor` | src/components/dashboard/TaskSections.tsx:18-20 | a card starts out of edit mode, with the task's title as its text, not dragging |
| `TaskSections.TaskCard.StartEditing` | src/components/dashboard/TaskSections.tsx:125 | edit mode is entered and the text kept |
| `TaskSections.TaskCard.TypeTitle` | src/components/dashboard/TaskSections.tsx:94 | the typed text becomes the edit text |
| `TaskSections.TaskCard.HandleSave` | src/components/dashboard/TaskSections.tsx:22-27 | the save edit, if any, and always out of edit mode |
| `TaskSections.TaskCard.HandleCancel` | src/components/dashboard/TaskSections.tsx:29-32 | the original title is restored and edit mode left |
| `TaskSections.TaskCard.HandleKeyPress` | src/components/dashboard/TaskSections.tsx:34-40 | Enter saves, Escape cancels, any other key changes nothing |
| `TaskSections.TaskCard.DragStart` | src/components/dashboard/TaskSections.tsx:47-50 | the card is dragging and its task is the board's dragged task |
| `TaskSections.TaskCard.DragEnd` | src/components/dashboard/TaskSections.tsx:51-54 | the card stops dragging and the board's drag fields are cleared |
| `WeeklyRitual.GetWeekRange` | src/app/rituals/weekly/page.tsx:59-77 | the week starts on a Monday on or before today and ends six days later, on or after today |
| `WeeklyRitual.WeekRangeOffset` | src/app/rituals/weekly/page.tsx:60-66 | the Monday offset is between -6 and 0 and lands on a Monday |
| `WeeklyRitual.WeekListsDisjoint` | src/app/rituals/weekly/page.tsx:113-135 | `OpenThisWeekTasks` and `AnchorCandidates`: the open tasks of the week and the anchor candidates are disjoint and hold no completed task; an open task due before the week is in neither |
| `WeeklyRitual.GroupingIsExact` | src/app/rituals/weekly/page.tsx:138-145 | `GroupByProject`: there is a bucket for exactly the keys that occur, keyed by project id or "no-project", and each bucket holds its tasks in order, so every task is in exactly one |
| `WeeklyRitual.ToggleKeepsSelectionValid` | src/app/rituals/weekly/page.tsx:182-191 | `ToggledAnchors`: a toggle keeps the selection duplicate-free and at most 5; it selects the id exactly when it was unselected and there was room, and touches no other id |
| `WeeklyRitual.SelectionFromEmptyStaysValid` | src/app/rituals/weekly/page.tsx:182-191 | from the empty start, no run of toggles selects more than 5 ids or any id twice |
| `WeeklyRitual.AnchorsAreFocused` | src/app/rituals/weekly/page.tsx:156-161 | every selected anchor ends focused and due the week end plus 7 days, a Sunday, with status and title kept; every other task is unchanged |
| `WeeklyRitual.WeeklyPage.constructor` | src/app/rituals/weekly/page.tsx:100-102 | the page starts with no highlight, no anchors and no review in progress |
| `WeeklyRitual.WeeklyPage.SetHighlight` | src/app/rituals/weekly/page.tsx:324 | the typed text becomes the highlight |
| `WeeklyRitual.WeeklyPage.ToggleAnchorSelection` | src/app/rituals/weekly/page.tsx:182-191 | the selection becomes its toggle, and a valid selection stays valid |
| `WeeklyRitual.WeeklyPage.HandleCompleteWeeklyReview` | src/app/rituals/weekly/page.tsx:150-180 | a no-op while a review is in progress; otherwise the anchors are tagged, the review saved (the journal's entries, error and loading flag as the save leaves them), the tasks fetched again (the store's projects and filter kept) and the progress flag cleared |
| `WeeklyRitual.CompleteButtonGuard` | src/app/rituals/weekly/page.tsx:378 | `CompleteEnabled`: the complete button is disabled with no anchor selected, enabled only when no review is in progress (so the handler is not its in-progress no-op), and enabled with an anchor and no review in progress |
| `MorningRitual.CandidatesAreNotToday` | src/app/rituals/morning/page.tsx:60-82 | the backlog and this-week candidates are disjoint, hold no completed task and no task due today |
| `MorningRitual.SavedPicksCompleteRitual` | src/app/rituals/morning/page.tsx:73-75 | `HasCompletedRitual`: once a daily row for today with picks is saved the ritual counts as completed; without a daily entry for today it does not |
| `MorningRitual.ToggleFlipsOnePick` | src/app/rituals/morning/page.tsx:84-90 | `ToggledPicks`: a toggle flips exactly the toggled id, with no cap, keeps the selection duplicate-free, and toggling an unselected id twice restores it |
| `MorningRitual.PicksLandToday` | src/app/rituals/morning/page.tsx:101-103 | every open picked task ends in today's section with its other fields kept; every unpicked task is unchanged |
| `MorningRitual.MorningPage.constructor` | src/app/rituals/morning/page.tsx:43-44 | the page starts with no picks and no start in progress |
| `MorningRitual.MorningPage.HandleTaskToggle` | src/app/rituals/morning/page.tsx:84-90 | the selection becomes its toggle and stays duplicate-free |
| `MorningRitual.MorningPage.HandleStartDay` | src/app/rituals/morning/page.tsx:92-113 | with no pick or more than 3 nothing happens; otherwise each pick is made due today (the store's other fields kept), the picks are saved (the journal's entries, error and loading flag as the save leaves them) and the selection cleared |
| `MorningRitual.StartButtonGuard` | src/app/rituals/morning/page.tsx:282 | `StartEnabled`: the start button is enabled exactly when `handleStartDay`'s own guard `SkipsStart` lets the picks through (one to three) and no start is in progress |

## Left out

- Backend and network I/O (the hosted database's queries, upserts and
  authentication): only the local state effect is modelled, with the user,
  the outcome and the returned rows as inputs. The IndexedDB cache, sample
  data and the authentication context are not part of this model.
- The clock and time zones: "now" is a day number given as a parameter.
  The mix of UTC (`toISOString`) and local time (`getDay`, `setDate`) in
  the source, and the day shift it can cause, is not modelled.
- Floating-point confidence: it is counted in integer tenths.
- `Calendar.KnownDays`: the day count `DaysFromCivil` is the usual
  days-from-civil formula; it is tied to the real calendar only at the
  known dates this lemma lists, not proved equal to it in general.
- Letter case beyond ASCII: `toLowerCase` is modelled on A-Z only.
- date-fns formatting (`formatDate`, `formatRelativeDate`); `parseISO` in
  `validateTask` is a parameter `isDate`.
- Random ids (`crypto.randomUUID`, `generateTaskId`): ids are fresh
  parameters.
- `getWeekNumber` and `getWeekEntry`: they use floating-point millisecond
  division and `Math.ceil`. The week number and year sent by
  `saveWeeklyReview` are not stored in the row and are not modelled; so
  are the open and completed counts, and the `completedThisWeekTasks`
  filter that only feeds a count.
- The interleaving of `await`s and React state batching: each handler
  runs to completion before the next event.
- `JournalStore.Journal.CreateOrUpdateDailyEntry`: takes only the daily
  content fields (`DailyFields`). The source accepts any partial entry and
  spreads it last, so a `date`, `type` or `id` key in it would override the
  daily key; both callers pass only content fields, so that case is not
  modelled.
- `JournalStore.Journal.Save`: the source writes the stored row into the
  current `entries` array in place (or `unshift`s it) before publishing a
  copy; the model assigns a fresh sequence, so a holder of the old array
  seeing the change (aliasing) is not modelled.
- The store setters (`setTasks`, `setFilter`, ...) and
  `syncOfflineChanges`, which only assign a field or log.
- JavaScript object prototype keys in the `tasksByProject` record: the
  grouping is a map keyed by strings.
- Rendering-only components, the remaining pages and the generated
  database types.
