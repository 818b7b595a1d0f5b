/** The natural-language task annotation parser
    (`NaturalLanguageTaskParser`): a free-text entry such as
    "Ship it #tomorrow !high $web %feat" becomes a task draft. The first
    `#date`, `!priority`, `$project` and `%feature` token is examined, in
    that order; a token whose value resolves is cut out of the text and sets
    its field, a token that does not resolve stays in the text. The parser's
    project list is a parameter, and so is the current date. */
module NaturalLanguageParser {
  import opened Wrappers
  import opened Text
  import opened Calendar
  import opened Types
  import Seqs

  const DateSymbol: char := '#'
  const PrioritySymbol: char := '!'
  const ProjectSymbol: char := '$'
  const FeatureSymbol: char := '%'

  predicate IsSymbol(c: char) {
    c == DateSymbol || c == PrioritySymbol || c == ProjectSymbol || c == FeatureSymbol
  }

  /** The characters of the class `[^\s#!$%]`. */
  predicate IsValueChar(c: char) {
    !IsWhitespace(c) && !IsSymbol(c)
  }

  // ---------------------------------------------------------------------
  // Token extraction: the regular expression `\<symbol>([^\s#!$%]+)`
  // ---------------------------------------------------------------------

  /** A match of the token expression can start at `i`. */
  predicate MarkerAt(text: string, symbol: char, i: int) {
    0 <= i && i + 1 < |text| && text[i] == symbol && IsValueChar(text[i + 1])
  }

  /** The leftmost position at or after `from` where a match starts. */
  function FindMarker(text: string, symbol: char, from: nat): (r: Option<nat>)
    ensures r.Some? ==> from <= r.value && MarkerAt(text, symbol, r.value)
    ensures r.Some? ==> forall k :: from <= k < r.value ==> !MarkerAt(text, symbol, k)
    ensures r.None? ==> forall k :: from <= k ==> !MarkerAt(text, symbol, k)
    decreases |text| - from
  {
    if from + 1 >= |text| then None
    else if MarkerAt(text, symbol, from) then Some(from)
    else FindMarker(text, symbol, from + 1)
  }

  /** The end of the longest run of value characters starting at `k` (the
      greedy `+`). */
  function RunEnd(text: string, k: nat): (j: nat)
    requires k <= |text|
    ensures k <= j <= |text|
    ensures forall m :: k <= m < j ==> IsValueChar(text[m])
    ensures j == |text| || !IsValueChar(text[j])
    decreases |text| - k
  {
    if k < |text| && IsValueChar(text[k]) then RunEnd(text, k + 1) else k
  }

  /** `text[i..j]` is the match `regex.exec(text)` finds: the leftmost
      marker followed by the longest run of value characters. */
  predicate FirstTokenAt(text: string, symbol: char, i: int, j: int) {
    && MarkerAt(text, symbol, i)
    && (forall k :: 0 <= k < i ==> !MarkerAt(text, symbol, k))
    && i + 1 < j <= |text|
    && (forall m :: i + 1 <= m < j ==> IsValueChar(text[m]))
    && (j == |text| || !IsValueChar(text[j]))
  }

  /** `text.replace(match[0], '')` cuts out the matched token itself: no
      earlier occurrence of the token's text exists, since it would start
      an earlier match. */
  lemma {:induction false} ReplaceRemovesToken(text: string, symbol: char, i: int, j: int)
    requires FirstTokenAt(text, symbol, i, j)
    ensures ReplaceFirst(text, text[i..j], "") == text[..i] + text[j..]
  {
    var tok := text[i..j];
    assert OccursAt(text, tok, i);
    forall k | 0 <= k < i
      ensures !OccursAt(text, tok, k)
    {
      OccurrenceIsMarker(text, symbol, i, j, k);
    }
    var found := IndexOf(text, tok, 0);
    assert found == Some(i);
    assert text[..i] + "" + text[i + |tok|..] == text[..i] + text[j..];
  }

  /** Wherever the token's text occurs, a marker starts. */
  lemma OccurrenceIsMarker(text: string, symbol: char, i: int, j: int, k: int)
    requires FirstTokenAt(text, symbol, i, j) && 0 <= k
    ensures OccursAt(text, text[i..j], k) ==> MarkerAt(text, symbol, k)
  {
    var tok := text[i..j];
    if OccursAt(text, tok, k) {
      assert text[k] == tok[0] && text[k + 1] == tok[1];
    }
  }

  /** Where `regex.exec(text)` matches: the span of the first token for
      `symbol`, or `None` when there is none. */
  function TokenSpan(text: string, symbol: char): (r: Option<(nat, nat)>)
    ensures r.None? <==> forall k :: !MarkerAt(text, symbol, k)
    ensures r.Some? ==> FirstTokenAt(text, symbol, r.value.0, r.value.1)
  {
    match FindMarker(text, symbol, 0)
    case None => None
    case Some(i) => Some((i, RunEnd(text, i + 1)))
  }

  /** What the extraction computes from a matched span: the captured
      value needs no trimming, and the replace cuts out the span. */
  lemma TokenEdits(text: string, symbol: char, i: int, j: int)
    requires FirstTokenAt(text, symbol, i, j)
    ensures Trim(text[i + 1..j]) == text[i + 1..j]
    ensures ReplaceFirst(text, text[i..j], "") == text[..i] + text[j..]
  {
    ReplaceRemovesToken(text, symbol, i, j);
    TrimmedNoWhitespace(text[i + 1..j]);
  }

  datatype Extraction = Extraction(extracted: Option<string>, remainingText: string)

  /** Without the symbol in the text nothing is extracted. */
  lemma AbsentSymbolExtractsNothing(text: string, symbol: char)
    requires forall k :: 0 <= k < |text| ==> text[k] != symbol
    ensures ExtractWithSymbol(text, symbol) == Extraction(None, text)
  {
    assert forall k :: !MarkerAt(text, symbol, k);
  }

  /** `extractWithSymbol`: the value of the first token introduced by
      `symbol`, and the text with that token cut out and trimmed. */
  function ExtractWithSymbol(text: string, symbol: char): (r: Extraction)
    ensures r.extracted.None? <==> forall k :: !MarkerAt(text, symbol, k)
    ensures r.extracted.None? ==> r.remainingText == text
    ensures r.extracted.Some? ==>
      var (i, j) := TokenSpan(text, symbol).value;
      && r.extracted.value == text[i + 1..j]
      && r.remainingText == Trim(text[..i] + text[j..])
  {
    match TokenSpan(text, symbol)
    case None => Extraction(None, text)
    case Some((i, j)) =>
      TokenEdits(text, symbol, i, j);
      Extraction(Some(Trim(text[i + 1..j])), Trim(ReplaceFirst(text, text[i..j], "")))
  }

  /** The token `text[i..j]` that the expression matches is what is
      extracted and cut out. */
  lemma TokenExtracted(text: string, symbol: char, i: int, j: int)
    requires FirstTokenAt(text, symbol, i, j)
    ensures ExtractWithSymbol(text, symbol) == Extraction(Some(text[i + 1..j]), Trim(text[..i] + text[j..]))
  {
    var found := FindMarker(text, symbol, 0);
    assert found == Some(i);
    var end := RunEnd(text, i + 1);
    assert end == j;
    assert TokenSpan(text, symbol) == Some((i, j));
  }

  /** An extracted value is a non-empty run of value characters, and the
      remaining text is shorter than the text. */
  lemma ExtractionShrinks(text: string, symbol: char)
    ensures var r := ExtractWithSymbol(text, symbol);
      r.extracted.Some? ==>
        && r.extracted.value != []
        && (forall m :: 0 <= m < |r.extracted.value| ==> IsValueChar(r.extracted.value[m]))
        && |r.remainingText| < |text|
  {
    var span := TokenSpan(text, symbol);
    if span.Some? {
      var (i, j) := span.value;
      TokenShrinks(text, symbol, i, j);
    }
  }

  lemma TokenShrinks(text: string, symbol: char, i: int, j: int)
    requires FirstTokenAt(text, symbol, i, j)
    ensures var r := ExtractWithSymbol(text, symbol);
      && r.extracted.Some? && r.extracted.value != []
      && (forall m :: 0 <= m < |r.extracted.value| ==> IsValueChar(r.extracted.value[m]))
      && |r.remainingText| < |text|
  {
    var v, rest := text[i + 1..j], text[..i] + text[j..];
    TokenExtracted(text, symbol, i, j);
    assert ExtractWithSymbol(text, symbol) == Extraction(Some(v), Trim(rest));
    forall m | 0 <= m < |v|
      ensures IsValueChar(v[m])
    {
      assert v[m] == text[i + 1 + m];
    }
    assert |rest| < |text|;
    TrimNoLonger(rest);
  }

  // ---------------------------------------------------------------------
  // Date tokens
  // ---------------------------------------------------------------------

  /** One entry of the `DATE_KEYWORDS` table. */
  datatype KeywordGroup = KeywordGroup(name: string, words: seq<string>)

  const DateKeywords: seq<KeywordGroup> := [
    KeywordGroup("today", ["today", "now"]),
    KeywordGroup("tomorrow", ["tomorrow", "tmr"]),
    KeywordGroup("thisWeek", ["thisweek", "week"]),
    KeywordGroup("nextWeek", ["nextweek"]),
    KeywordGroup("monday", ["monday", "mon"]),
    KeywordGroup("tuesday", ["tuesday", "tue", "tues"]),
    KeywordGroup("wednesday", ["wednesday", "wed"]),
    KeywordGroup("thursday", ["thursday", "thu", "thur"]),
    KeywordGroup("friday", ["friday", "fri"]),
    KeywordGroup("saturday", ["saturday", "sat"]),
    KeywordGroup("sunday", ["sunday", "sun"])
  ]

  /** The `days` list of `getNextDayOfWeek`, indexed by `getDay()` number. */
  const DayNames: seq<string> :=
    ["sunday", "monday", "tuesday", "wednesday", "thursday", "friday", "saturday"]

  /** The test inside the keyword loop: one of the group's words, in a group
      other than the four handled before the loop. */
  predicate IsWeekdayGroupMatch(g: KeywordGroup, lower: string) {
    lower in g.words && g.name != "today" && g.name != "tomorrow"
    && g.name != "thisWeek" && g.name != "nextWeek"
  }

  function WeekdayGroupOf(lower: string): KeywordGroup -> bool {
    (g: KeywordGroup) => IsWeekdayGroupMatch(g, lower)
  }

  /** Days from a weekday to the next `target` weekday, 7 when they agree:
      `(target - current + 7) % 7 || 7`. */
  function DaysUntil(target: Weekday, current: Weekday): (u: int)
    ensures 1 <= u <= 7
    ensures (current + u) % 7 == target
  {
    var u := (target - current + 7) % 7;
    if u == 0 then 7 else u
  }

  /** `getNextFriday`. */
  function NextFriday(today: CivilDate): Day
  {
    var n := DayOf(today);
    n + DaysUntil(5, WeekdayOf(n))
  }

  /** The test of `days.indexOf(dayName.toLowerCase())`. */
  function NamedDay(dayName: string): string -> bool {
    (d: string) => d == Lower(dayName)
  }

  /** `getNextDayOfWeek(dayName)`: today when the name is not a day name. */
  function NextDayOfWeek(dayName: string, today: CivilDate): Day
  {
    var n := DayOf(today);
    match Seqs.FindFirst(DayNames, NamedDay(dayName))
    case None => n
    case Some(target) => n + DaysUntil(target, WeekdayOf(n))
  }

  /** One entry of `datePatterns`: the `source` text of the regular
      expression, and the shape it accepts (groups of ASCII digits of the
      given lengths, joined by one separator character). */
  datatype DatePattern = DatePattern(source: string, separator: char, widths: seq<(nat, nat)>)

  const DatePatterns: seq<DatePattern> := [
    DatePattern("^(\\d{4})-(\\d{1,2})-(\\d{1,2})$", '-', [(4, 4), (1, 2), (1, 2)]),
    DatePattern("^(\\d{1,2})-(\\d{1,2})-(\\d{4})$", '-', [(1, 2), (1, 2), (4, 4)]),
    DatePattern("^(\\d{1,2})\\/(\\d{1,2})\\/(\\d{4})$", '/', [(1, 2), (1, 2), (4, 4)]),
    DatePattern("^(\\d{1,2})\\/(\\d{1,2})$", '/', [(1, 2), (1, 2)]),
    DatePattern("^(\\d{1,2})-(\\d{1,2})$", '-', [(1, 2), (1, 2)])
  ]

  predicate GroupsFit(parts: seq<string>, widths: seq<(nat, nat)>) {
    |parts| == |widths|
    && forall k :: 0 <= k < |parts| ==>
         AllDigits(parts[k]) && widths[k].0 <= |parts[k]| <= widths[k].1
  }

  /** `Number` of each group. */
  function GroupValues(parts: seq<string>): (r: seq<nat>)
    requires forall k :: 0 <= k < |parts| ==> AllDigits(parts[k])
    ensures |r| == |parts|
    ensures forall k :: 0 <= k < |parts| ==> r[k] == DigitsValue(parts[k])
  {
    if |parts| == 0 then [] else [DigitsValue(parts[0])] + GroupValues(parts[1..])
  }

  /** `dateStr.match(pattern)`, with the captured groups as numbers
      (`match.map(Number)` without the whole match). The groups are digits
      only, so splitting at the separator finds them. */
  function MatchPattern(s: string, p: DatePattern): (r: Option<seq<nat>>)
    ensures r.Some? ==> |r.value| == |p.widths|
  {
    var parts := Split(s, p.separator);
    if GroupsFit(parts, p.widths) then
      Some(GroupValues(parts))
    else None
  }

  /** The test meant to pick out the year-first pattern. It compares the
      pattern's source with a string that begins with an escaped
      parenthesis, which no source here begins with. */
  predicate YearFirstSource(source: string) {
    StartsWith(source, "^\\(\\\\d\\{4\\}")
  }

  /** The date a matched pattern stands for: `new Date(year, month - 1, day)`
      with the groups read as the code reads them. */
  function PatternDate(p: DatePattern, groups: seq<nat>, today: CivilDate): Day
    requires |groups| == |p.widths| >= 2
  {
    if Contains(p.source, "\\d{4}") && |groups| == 3 then
      if YearFirstSource(p.source) then MakeDate(groups[0], groups[1], groups[2])
      else MakeDate(groups[2], groups[0], groups[1])
    else MakeDate(today.year, groups[0], groups[1])
  }

  /** Every pattern has two or three groups. */
  lemma PatternShapes(q: int)
    requires 0 <= q < |DatePatterns|
    ensures 2 <= |DatePatterns[q].widths| <= 3
    ensures DatePatterns[q].separator == '-' || DatePatterns[q].separator == '/'
  {
  }

  predicate Matches(s: string, p: DatePattern) {
    MatchPattern(s, p).Some?
  }

  function PatternMatching(token: string): DatePattern -> bool {
    (p: DatePattern) => Matches(token, p)
  }

  /** The weekday a token names, looked up in the keyword table as the loop
      of `parseDateString` does. */
  function ResolveWeekday(lower: string, today: CivilDate): Option<Day>
  {
    match Seqs.FindFirst(DateKeywords, WeekdayGroupOf(lower))
    case Some(k) => Some(NextDayOfWeek(DateKeywords[k].name, today))
    case None => None
  }

  /** The date of the first pattern that matches the token. A matched
      pattern always gives a date, as `new Date` normalises out-of-range
      fields. */
  function ResolvePattern(token: string, today: CivilDate): Option<Day>
  {
    match Seqs.FindFirst(DatePatterns, PatternMatching(token))
    case Some(q) =>
      var groups := MatchPattern(token, DatePatterns[q]).value;
      PatternShapes(q);
      Some(PatternDate(DatePatterns[q], groups, today))
    case None => None
  }

  /** The date a date token resolves to, or `None`: keyword groups first,
      then weekday names, then the patterns. */
  function ResolveDate(token: string, today: CivilDate): Option<Day>
  {
    var lower := Lower(token);
    var n := DayOf(today);
    if lower in DateKeywords[0].words then Some(n)
    else if lower in DateKeywords[1].words then Some(n + 1)
    else if lower in DateKeywords[2].words then Some(NextFriday(today))
    else if lower in DateKeywords[3].words then Some(NextFriday(today) + 7)
    else if ResolveWeekday(lower, today).Some? then ResolveWeekday(lower, today)
    else ResolvePattern(token, today)
  }

  /** `parseDateString`. The two loops, over the keyword table and over the
      patterns, are the methods below. */
  method ParseDateString(dateStr: string, today: CivilDate) returns (r: Option<Day>)
    ensures r == ResolveDate(dateStr, today)
  {
    var lower := Lower(dateStr);
    var n := DayOf(today);
    if lower in DateKeywords[0].words {
      return Some(n);
    }
    if lower in DateKeywords[1].words {
      return Some(n + 1);
    }
    if lower in DateKeywords[2].words {
      return Some(NextFriday(today));
    }
    if lower in DateKeywords[3].words {
      var friday := NextFriday(today);
      return Some(friday + 7);
    }
    r := ScanWeekdays(lower, today);
    if r.None? {
      r := ScanPatterns(dateStr, today);
    }
  }

  /** The loop over the keyword table. */
  method ScanWeekdays(lower: string, today: CivilDate) returns (r: Option<Day>)
    ensures r == ResolveWeekday(lower, today)
  {
    var k := 0;
    while k < |DateKeywords|
      invariant 0 <= k <= |DateKeywords|
      invariant forall m :: 0 <= m < k ==> !WeekdayGroupOf(lower)(DateKeywords[m])
    {
      var g := DateKeywords[k];
      if IsWeekdayGroupMatch(g, lower) {
        Seqs.FindFirstAt(DateKeywords, WeekdayGroupOf(lower), k);
        return Some(NextDayOfWeek(g.name, today));
      }
      k := k + 1;
    }
    Seqs.FindFirstNone(DateKeywords, WeekdayGroupOf(lower));
    return None;
  }

  /** The loop over the patterns. */
  method ScanPatterns(dateStr: string, today: CivilDate) returns (r: Option<Day>)
    ensures r == ResolvePattern(dateStr, today)
  {
    ghost var matching := PatternMatching(dateStr);
    var q := 0;
    while q < |DatePatterns|
      invariant 0 <= q <= |DatePatterns|
      invariant forall m :: 0 <= m < q ==> !matching(DatePatterns[m])
    {
      var pattern := DatePatterns[q];
      var groups := MatchPattern(dateStr, pattern);
      if groups.Some? {
        PatternShapes(q);
        Seqs.FindFirstAt(DatePatterns, matching, q);
        return Some(PatternDate(pattern, groups.value, today));
      }
      q := q + 1;
    }
    Seqs.FindFirstNone(DatePatterns, matching);
    return None;
  }

  // ---------------------------------------------------------------------
  // Priority, feature and project tokens
  // ---------------------------------------------------------------------

  const PriorityLevels: seq<string> := ["low", "medium", "high"]
  const HighAliases: seq<string> := ["urgent", "important", "critical", "asap", "1", "3"]
  const MediumAliases: seq<string> := ["normal", "moderate", "2"]
  const LowAliases: seq<string> := ["minor", "someday", "maybe", "0"]

  function LevelNamed(level: string): Priority
  {
    if level == "high" then High else if level == "medium" then Medium else Low
  }

  /** `parsePriorityString`: the level names, then the aliases of high,
      medium and low in that order, all compared lower-cased. */
  function ParsePriority(s: string): Option<Priority>
  {
    var lower := Lower(s);
    if lower in PriorityLevels then Some(LevelNamed(lower))
    else if lower in HighAliases then Some(High)
    else if lower in MediumAliases then Some(Medium)
    else if lower in LowAliases then Some(Low)
    else None
  }

  /** The words that mark a feature, in either letter case. */
  const FeatureWords: seq<string> := ["feat", "feature"]

  /** `parseFeatureString`: a token resolves exactly when it is one of the
      feature words in any letter case (`%FEAT`, `%Feature`), and then only
      to true; anything else (`%feats`, `%f`) resolves to nothing. */
  function ParseFeature(s: string): (r: Option<bool>)
    ensures r.Some? <==> Lower(s) in FeatureWords
    ensures r.Some? ==> r.value
  {
    var lower := Lower(s);
    if lower == "feat" || lower == "feature" then Some(true) else None
  }

  predicate ExactName(p: Project, lower: string) {
    Lower(p.name) == lower
  }

  predicate PartialName(p: Project, lower: string) {
    Contains(Lower(p.name), lower) || Contains(lower, Lower(p.name))
  }

  function ExactNameOf(lower: string): Project -> bool {
    (p: Project) => ExactName(p, lower)
  }

  function PartialNameOf(lower: string): Project -> bool {
    (p: Project) => PartialName(p, lower)
  }

  /** `findProjectByName`: the first project whose lower-cased name equals
      the lower-cased token, else the first whose name contains the token or
      is contained in it. */
  function FindProjectByName(projects: seq<Project>, name: string): Option<string>
  {
    var lower := Lower(name);
    match Seqs.FindFirst(projects, ExactNameOf(lower))
    case Some(k) => Some(projects[k].id)
    case None =>
      match Seqs.FindFirst(projects, PartialNameOf(lower))
      case Some(k) => Some(projects[k].id)
      case None => None
  }

  /** The project id as the `if (projectId)` test in `parse` sees it: an empty
      id is falsy, so it counts as not found. */
  function ResolveProject(projects: seq<Project>, name: string): Option<string>
  {
    match FindProjectByName(projects, name)
    case Some(id) => if id != "" then Some(id) else None
    case None => None
  }

  // ---------------------------------------------------------------------
  // Suggestions
  // ---------------------------------------------------------------------

  const FixedSuggestions: seq<string> := [
    "Use #tomorrow, #monday, or #2024-01-15 for due dates",
    "Use !high, !medium, or !low for priority",
    "Use $projectname to assign to a project",
    "Use %Feat to mark as a feature"
  ]

  /** `$name` for each of the first three projects. */
  function ProjectTags(projects: seq<Project>): (r: seq<string>)
    ensures |r| == Min(|projects|, 3)
    ensures forall i :: 0 <= i < |r| ==> r[i] == "$" + projects[i].name
  {
    var shown := if |projects| <= 3 then projects else projects[..3];
    seq(|shown|, i requires 0 <= i < |shown| => "$" + shown[i].name)
  }

  /** `generateSuggestions`: the four usage hints, and a fifth naming up to
      three projects when there are any. */
  function GenerateSuggestions(projects: seq<Project>): (r: seq<string>)
    ensures |r| == if |projects| > 0 then 5 else 4
    ensures r[..4] == FixedSuggestions
    ensures |projects| > 0 ==> r[4] == "Available projects: " + Join(ProjectTags(projects), ", ")
  {
    if |projects| > 0 then
      FixedSuggestions + ["Available projects: " + Join(ProjectTags(projects), ", ")]
    else FixedSuggestions
  }

  // ---------------------------------------------------------------------
  // parse
  // ---------------------------------------------------------------------

  datatype ParsedTask = ParsedTask(
    title: string,
    priority: Option<Priority>,
    dueDate: Option<Day>,
    projectId: Option<string>,
    isFeature: Option<bool>)

  /** A parse result. The confidence is in tenths (8 stands for 0.8); the
      suggestions are absent for blank input. */
  datatype ParseResult = ParseResult(parsed: ParsedTask, confidence: nat, suggestions: Option<seq<string>>)

  const BlankResult: ParseResult := ParseResult(ParsedTask("", None, None, None, None), 0, None)

  /** The outcome of one pass: the value it resolved, and the working text
      after it. */
  datatype Step<T> = Step(value: Option<T>, rest: string)

  /** The resolvers of the date and project passes. */
  function DateResolver(today: CivilDate): string -> Option<Day> {
    (t: string) => ResolveDate(t, today)
  }

  function ProjectResolver(projects: seq<Project>): string -> Option<string> {
    (t: string) => ResolveProject(projects, t)
  }

  /** One pass of `parse`: extract the first token for `symbol`; if its value
      resolves, take the value and the text without the token, otherwise
      keep the text. */
  function Pass<T>(text: string, symbol: char, resolve: string -> Option<T>): (s: Step<T>)
    ensures s.value.None? ==> s.rest == text
    ensures |s.rest| <= |text|
  {
    ExtractionShrinks(text, symbol);
    var e := ExtractWithSymbol(text, symbol);
    if e.extracted.Some? then
      var v := resolve(e.extracted.value);
      if v.Some? then Step(v, e.remainingText) else Step(None, text)
    else Step(None, text)
  }

  /** A pass whose symbol has no token keeps the text and resolves nothing. */
  lemma PassWithoutToken<T>(text: string, symbol: char, resolve: string -> Option<T>)
    requires ExtractWithSymbol(text, symbol).extracted.None?
    ensures Pass(text, symbol, resolve) == Step(None, text)
  {
  }

  /** A pass whose token is `value` takes the resolved value and the cut
      text, or keeps the text when the value does not resolve. */
  lemma PassWithToken<T>(text: string, symbol: char, resolve: string -> Option<T>, value: string, rest: string)
    requires ExtractWithSymbol(text, symbol) == Extraction(Some(value), rest)
    ensures Pass(text, symbol, resolve) == if resolve(value).Some? then Step(resolve(value), rest) else Step(None, text)
  {
  }

  function Tenth<T>(o: Option<T>): nat {
    if o.Some? then 1 else 0
  }

  function ResolvedCount(t: ParsedTask): nat {
    Tenth(t.dueDate) + Tenth(t.priority) + Tenth(t.projectId) + Tenth(t.isFeature)
  }

  function Min(a: nat, b: nat): nat {
    if a < b then a else b
  }

  /** What `parse` returns. */
  function Parsed(input: string, projects: seq<Project>, today: CivilDate): ParseResult
  {
    var clean := Trim(input);
    if clean == "" then BlankResult else ParsedClean(clean, projects, today)
  }

  /** What `parse` returns for the trimmed, non-blank input `clean`: the
      four passes in order, each on the text the previous one left. */
  function ParsedClean(clean: string, projects: seq<Project>, today: CivilDate): ParseResult
  {
    var d := Pass(clean, DateSymbol, DateResolver(today));
    var p := Pass(d.rest, PrioritySymbol, ParsePriority);
    var j := Pass(p.rest, ProjectSymbol, ProjectResolver(projects));
    var f := Pass(j.rest, FeatureSymbol, ParseFeature);
    var leftover := Trim(f.rest);
    var task := ParsedTask(if leftover != "" then leftover else clean, p.value, d.value, j.value, f.value);
    ParseResult(task, Min(8 + ResolvedCount(task), 10), Some(GenerateSuggestions(projects)))
  }

  /** `parse`, step by step as the code runs it: four passes over the
      working text, each adding a tenth of confidence when it resolves. */
  method Parse(input: string, projects: seq<Project>, today: CivilDate) returns (result: ParseResult)
    ensures result == Parsed(input, projects, today)
  {
    var cleanInput := Trim(input);
    if cleanInput == "" {
      return BlankResult;
    }
    var workingText := cleanInput;
    var confidence: nat := 8;

    var dueDate: Option<Day>;
    dueDate, workingText := DatePass(workingText, today);
    ghost var d := Step(dueDate, workingText);
    if dueDate.Some? {
      confidence := confidence + 1;
    }

    var priority: Option<Priority>;
    priority, workingText := LookupPass(workingText, PrioritySymbol, ParsePriority);
    ghost var p := Step(priority, workingText);
    if priority.Some? {
      confidence := confidence + 1;
    }

    var projectId: Option<string>;
    projectId, workingText := LookupPass(workingText, ProjectSymbol, ProjectResolver(projects));
    ghost var j := Step(projectId, workingText);
    if projectId.Some? {
      confidence := confidence + 1;
    }

    var isFeature: Option<bool>;
    isFeature, workingText := LookupPass(workingText, FeatureSymbol, ParseFeature);
    ghost var f := Step(isFeature, workingText);
    if isFeature.Some? {
      confidence := confidence + 1;
    }

    var leftover := Trim(workingText);
    var title := if leftover != "" then leftover else cleanInput;
    var task := ParsedTask(title, priority, dueDate, projectId, isFeature);
    assert confidence == 8 + ResolvedCount(task);
    result := ParseResult(task, Min(confidence, 10), Some(GenerateSuggestions(projects)));
    PassesAssemble(input, projects, today, d, p, j, f);
  }

  /** `ParsedClean` assembled from the outcomes of its four passes. */
  lemma PassesAssemble(input: string, projects: seq<Project>, today: CivilDate,
                       d: Step<Day>, p: Step<Priority>, j: Step<string>, f: Step<bool>)
    requires Trim(input) != ""
    requires d == Pass(Trim(input), DateSymbol, DateResolver(today))
    requires p == Pass(d.rest, PrioritySymbol, ParsePriority)
    requires j == Pass(p.rest, ProjectSymbol, ProjectResolver(projects))
    requires f == Pass(j.rest, FeatureSymbol, ParseFeature)
    ensures var leftover := Trim(f.rest);
      var task := ParsedTask(if leftover != "" then leftover else Trim(input), p.value, d.value, j.value, f.value);
      Parsed(input, projects, today) == ParseResult(task, Min(8 + ResolvedCount(task), 10), Some(GenerateSuggestions(projects)))
  {
  }

  /** The date pass of `parse`, which resolves its token with the
      `parseDateString` loops. */
  method DatePass(text: string, today: CivilDate) returns (value: Option<Day>, rest: string)
    ensures Step(value, rest) == Pass(text, DateSymbol, DateResolver(today))
  {
    value, rest := None, text;
    var extraction := ExtractWithSymbol(text, DateSymbol);
    if extraction.extracted.Some? {
      var date := ParseDateString(extraction.extracted.value, today);
      assert date == DateResolver(today)(extraction.extracted.value);
      if date.Some? {
        value, rest := date, extraction.remainingText;
      }
    }
  }

  /** The priority, project and feature passes of `parse`, whose lookups are
      functions. */
  method LookupPass<T>(text: string, symbol: char, resolve: string -> Option<T>) returns (value: Option<T>, rest: string)
    ensures Step(value, rest) == Pass(text, symbol, resolve)
  {
    value, rest := None, text;
    var extraction := ExtractWithSymbol(text, symbol);
    if extraction.extracted.Some? {
      var found := resolve(extraction.extracted.value);
      if found.Some? {
        value, rest := found, extraction.remainingText;
      }
    }
  }

  // ---------------------------------------------------------------------
  // Properties of parse
  // ---------------------------------------------------------------------

  /** Blank input, and only blank input, gives the empty draft with zero
      confidence and no suggestions. */
  lemma {:induction false} BlankInputGivesEmptyDraft(input: string, projects: seq<Project>, today: CivilDate)
    ensures IsBlank(input) <==> Parsed(input, projects, today) == BlankResult
  {
    TrimEmptyIffBlank(input);
  }

  /** Confidence is 0.8 plus a tenth per resolved field, capped at 1.0. */
  lemma {:induction false} ConfidenceCountsResolvedFields(input: string, projects: seq<Project>, today: CivilDate)
    requires !IsBlank(input)
    ensures var r := Parsed(input, projects, today);
      r.confidence == Min(8 + ResolvedCount(r.parsed), 10) && 8 <= r.confidence <= 10
      && r.suggestions == Some(GenerateSuggestions(projects))
  {
    TrimEmptyIffBlank(input);
    var clean := Trim(input);
    assert Parsed(input, projects, today) == ParsedClean(clean, projects, today);
  }

  /** The title of a non-blank input is non-empty, trimmed, and no longer
      than the trimmed input. */
  lemma {:induction false} TitleIsNonEmptyAndTrimmed(input: string, projects: seq<Project>, today: CivilDate)
    requires !IsBlank(input)
    ensures var t := Parsed(input, projects, today).parsed.title;
      t != [] && IsTrimmed(t) && |t| <= |Trim(input)|
  {
    TrimEmptyIffBlank(input);
    var clean := Trim(input);
    TrimIsTrimmed(input);
    var d := Pass(clean, DateSymbol, DateResolver(today));
    var p := Pass(d.rest, PrioritySymbol, ParsePriority);
    var j := Pass(p.rest, ProjectSymbol, ProjectResolver(projects));
    var f := Pass(j.rest, FeatureSymbol, ParseFeature);
    TrimIsTrimmed(f.rest);
    var o := TrimOffset(f.rest);
  }

  /** When no token resolves, the title is the trimmed input. */
  lemma {:induction false} UnresolvedInputIsTitle(input: string, projects: seq<Project>, today: CivilDate)
    requires !IsBlank(input)
    requires ResolvedCount(Parsed(input, projects, today).parsed) == 0
    ensures Parsed(input, projects, today).parsed.title == Trim(input)
    ensures Parsed(input, projects, today).confidence == 8
  {
    TrimEmptyIffBlank(input);
    var clean := Trim(input);
    var d := Pass(clean, DateSymbol, DateResolver(today));
    var p := Pass(d.rest, PrioritySymbol, ParsePriority);
    var j := Pass(p.rest, ProjectSymbol, ProjectResolver(projects));
    var f := Pass(j.rest, FeatureSymbol, ParseFeature);
    assert d.value.None? && p.value.None? && j.value.None? && f.value.None?;
    assert f.rest == clean;
    TrimIdempotent(input);
  }

  /** Re-parsing the title of an input none of whose tokens resolved gives
      the same result. */
  lemma {:induction false} UnresolvedFallbackIsIdempotent(input: string, projects: seq<Project>, today: CivilDate)
    requires ResolvedCount(Parsed(input, projects, today).parsed) == 0
    ensures var r := Parsed(input, projects, today);
      Parsed(r.parsed.title, projects, today) == r
  {
    TrimEmptyIffBlank(input);
    if !IsBlank(input) {
      UnresolvedInputIsTitle(input, projects, today);
      TrimIdempotent(input);
    }
  }

  // ---------------------------------------------------------------------
  // Properties of the date tokens
  // ---------------------------------------------------------------------

  /** "today" and "now" give today, "tomorrow" and "tmr" the day after. */
  lemma {:induction false} RelativeDayKeywords(token: string, today: CivilDate)
    ensures Lower(token) in ["today", "now"] ==> ResolveDate(token, today) == Some(DayOf(today))
    ensures Lower(token) in ["tomorrow", "tmr"] ==> ResolveDate(token, today) == Some(DayOf(today) + 1)
  {
    assert DateKeywords[0].words == ["today", "now"];
    assert DateKeywords[1].words == ["tomorrow", "tmr"];
  }

  /** "thisweek" and "week" give the next Friday, 1 to 7 days ahead (a week
      ahead when today is a Friday); "nextweek" gives the Friday after it. */
  lemma {:induction false} WeekKeywordsGiveFridays(token: string, today: CivilDate)
    ensures Lower(token) in ["thisweek", "week"] ==>
      ResolveDate(token, today).Some?
      && 1 <= ResolveDate(token, today).value - DayOf(today) <= 7
      && WeekdayOf(ResolveDate(token, today).value) == 5
    ensures Lower(token) == "nextweek" ==>
      ResolveDate(token, today).Some?
      && 8 <= ResolveDate(token, today).value - DayOf(today) <= 14
      && WeekdayOf(ResolveDate(token, today).value) == 5
  {
    var lower := Lower(token);
    assert DateKeywords[2].words == ["thisweek", "week"];
    assert DateKeywords[3].words == ["nextweek"];
    if lower in ["thisweek", "week"] || lower == "nextweek" {
      assert lower !in DateKeywords[0].words && lower !in DateKeywords[1].words;
      NextFridayAhead(today);
      if lower == "nextweek" {
        assert lower !in DateKeywords[2].words;
        WeekdayPeriodic(NextFriday(today), 1);
      }
    }
  }

  lemma NextFridayAhead(today: CivilDate)
    ensures 1 <= NextFriday(today) - DayOf(today) <= 7 && WeekdayOf(NextFriday(today)) == 5
  {
    var n := DayOf(today);
    var u := DaysUntil(5, WeekdayOf(n));
    WeekdayShift(n, u);
  }

  /** The weekday index a weekday group of the keyword table stands for
      (0 for Sunday). */
  function GroupWeekday(g: int): Weekday
    requires 4 <= g < |DateKeywords|
  {
    (g - 3) % 7
  }

  /** A weekday word resolves to the next day with that weekday, 1 to 7
      days ahead (a week ahead when today is that weekday). */
  lemma {:induction false} WeekdayWordsLookAhead(token: string, today: CivilDate, g: int)
    requires 4 <= g < |DateKeywords| && Lower(token) in DateKeywords[g].words
    ensures ResolveDate(token, today).Some?
    ensures 1 <= ResolveDate(token, today).value - DayOf(today) <= 7
    ensures WeekdayOf(ResolveDate(token, today).value) == GroupWeekday(g)
  {
    var lower := Lower(token);
    WeekdayGroupsDisjoint(lower, g);
    WeekdayGroupFound(lower, today, g);
    NextDayOfWeekAhead(today, g);
    assert lower !in DateKeywords[0].words && lower !in DateKeywords[1].words;
    assert lower !in DateKeywords[2].words && lower !in DateKeywords[3].words;
    ResolveDateByWeekday(token, today);
  }

  /** A token in none of the four groups before the weekdays, that names a
      weekday group, resolves by that group. */
  lemma ResolveDateByWeekday(token: string, today: CivilDate)
    requires Lower(token) !in DateKeywords[0].words && Lower(token) !in DateKeywords[1].words
    requires Lower(token) !in DateKeywords[2].words && Lower(token) !in DateKeywords[3].words
    requires ResolveWeekday(Lower(token), today).Some?
    ensures ResolveDate(token, today) == ResolveWeekday(Lower(token), today)
  {
  }

  lemma WeekdayGroupFound(lower: string, today: CivilDate, g: int)
    requires 4 <= g < |DateKeywords| && lower in DateKeywords[g].words
    requires forall m :: 0 <= m < |DateKeywords| && m != g ==> lower !in DateKeywords[m].words
    ensures ResolveWeekday(lower, today) == Some(NextDayOfWeek(DateKeywords[g].name, today))
  {
    var pick := WeekdayGroupOf(lower);
    var name := DateKeywords[g].name;
    assert name in ["monday", "tuesday", "wednesday", "thursday", "friday", "saturday", "sunday"];
    assert pick(DateKeywords[g]);
    forall m | 0 <= m < g
      ensures !pick(DateKeywords[m])
    {
      assert lower !in DateKeywords[m].words;
    }
    Seqs.FindFirstAt(DateKeywords, pick, g);
  }

  lemma NextDayOfWeekAhead(today: CivilDate, g: int)
    requires 4 <= g < |DateKeywords|
    ensures var due := NextDayOfWeek(DateKeywords[g].name, today);
      1 <= due - DayOf(today) <= 7 && WeekdayOf(due) == GroupWeekday(g)
  {
    DayNameIndex(g);
    NamedDayFound(DateKeywords[g].name, GroupWeekday(g));
    NamedDayAhead(DateKeywords[g].name, GroupWeekday(g), today);
  }

  /** The next day of the weekday `name` names, first listed at `w`. */
  lemma NamedDayAhead(name: string, w: Weekday, today: CivilDate)
    requires Seqs.FindFirst(DayNames, NamedDay(name)) == Some(w)
    ensures var due := NextDayOfWeek(name, today);
      1 <= due - DayOf(today) <= 7 && WeekdayOf(due) == w
  {
    var n := DayOf(today);
    assert NextDayOfWeek(name, today) == n + DaysUntil(w, WeekdayOf(n));
    DaysUntilAhead(n, w);
  }

  /** Counting `DaysUntil` days from day `n` lands 1 to 7 days ahead, on
      the weekday `w`. */
  lemma DaysUntilAhead(n: Day, w: Weekday)
    ensures var due := n + DaysUntil(w, WeekdayOf(n));
      1 <= due - n <= 7 && WeekdayOf(due) == w
  {
    WeekdayShift(n, DaysUntil(w, WeekdayOf(n)));
  }

  lemma NamedDayFound(name: string, w: Weekday)
    requires DayNames[w] == Lower(name)
    requires forall m :: 0 <= m < w ==> DayNames[m] != Lower(name)
    ensures Seqs.FindFirst(DayNames, NamedDay(name)) == Some(w)
  {
    var pick := NamedDay(name);
    assert pick(DayNames[w]);
    forall m | 0 <= m < w
      ensures !pick(DayNames[m])
    {
    }
    Seqs.FindFirstAt(DayNames, pick, w);
  }

  /** A word of a weekday group belongs to no other group. */
  lemma WeekdayGroupsDisjoint(lower: string, g: int)
    requires 4 <= g < |DateKeywords| && lower in DateKeywords[g].words
    ensures forall m :: 0 <= m < |DateKeywords| && m != g ==> lower !in DateKeywords[m].words
  {
    forall m | 0 <= m < |DateKeywords| && m != g
      ensures lower !in DateKeywords[m].words
    {
      WordInOneGroup(lower, g, m);
    }
  }

  lemma WordInOneGroup(lower: string, g: int, m: int)
    requires 4 <= g < |DateKeywords| && lower in DateKeywords[g].words
    requires 0 <= m < |DateKeywords| && m != g
    ensures lower !in DateKeywords[m].words
  {
  }

  /** The weekday group names are lower case and sit in `DayNames` at their
      weekday index, and nowhere before it. */
  lemma DayNameIndex(g: int)
    requires 4 <= g < |DateKeywords|
    ensures Lower(DateKeywords[g].name) == DateKeywords[g].name
    ensures DayNames[GroupWeekday(g)] == DateKeywords[g].name
    ensures forall m :: 0 <= m < GroupWeekday(g) ==> DayNames[m] != DateKeywords[g].name
  {
    var w := GroupWeekday(g);
    assert DayNames[w] == DateKeywords[g].name;
    DayNamesLower(w);
    DayNamesDistinct();
  }

  lemma DayNamesLower(w: Weekday)
    ensures Lower(DayNames[w]) == DayNames[w]
  {
    var name := DayNames[w];
    if w == 0 {
      assert Lower(name) == "sunday";
    } else if w == 1 {
      assert Lower(name) == "monday";
    } else if w == 2 {
      assert Lower(name) == "tuesday";
    } else if w == 3 {
      assert Lower(name) == "wednesday";
    } else if w == 4 {
      assert Lower(name) == "thursday";
    } else if w == 5 {
      assert Lower(name) == "friday";
    } else {
      assert Lower(name) == "saturday";
    }
  }

  lemma DayNamesDistinct()
    ensures forall a, b :: 0 <= a < b < |DayNames| ==> DayNames[a] != DayNames[b]
  {
  }

  /** No pattern source passes the year-first test, so the `YYYY-MM-DD`
      pattern's groups are read as month, day and year, like the other
      three-group patterns. */
  lemma {:induction false} NoPatternReadsYearFirst(q: int)
    requires 0 <= q < |DatePatterns|
    ensures !YearFirstSource(DatePatterns[q].source)
  {
    var s := DatePatterns[q].source;
    assert s[1] == '(';
    assert "^\\(\\\\d\\{4\\}"[1] == '\\';
  }

  /** Three-group patterns read their groups as month, day, year; two-group
      patterns as month and day of the current year. */
  lemma {:induction false} PatternGroupsAsWritten(p: DatePattern, groups: seq<nat>, today: CivilDate, q: int)
    requires 0 <= q < |DatePatterns| && p == DatePatterns[q]
    requires |groups| == |p.widths|
    ensures |groups| == 3 ==> PatternDate(p, groups, today) == MakeDate(groups[2], groups[0], groups[1])
    ensures |groups| == 2 ==> PatternDate(p, groups, today) == MakeDate(today.year, groups[0], groups[1])
  {
    NoPatternReadsYearFirst(q);
    PatternShapes(q);
    if |groups| == 3 {
      assert q <= 2;
      FullYearMarker(q);
    }
  }

  /** The three-group patterns contain `\d{4}` in their source. */
  lemma FullYearMarker(q: int)
    requires 0 <= q <= 2
    ensures Contains(DatePatterns[q].source, "\\d{4}")
  {
    var s, marker := DatePatterns[q].source, "\\d{4}";
    var at := if q == 0 then 2 else if q == 1 then 22 else 24;
    FullYearMarkerAt(q, marker, at);
    OccursThenContains(s, marker, at);
  }

  lemma FullYearMarkerAt(q: int, marker: string, at: int)
    requires 0 <= q <= 2 && marker == "\\d{4}" && at == if q == 0 then 2 else if q == 1 then 22 else 24
    ensures OccursAt(DatePatterns[q].source, marker, at)
  {
    var s := DatePatterns[q].source;
    if q == 0 {
      assert s[2] == '\\' && s[3] == 'd' && s[4] == '{' && s[5] == '4' && s[6] == '}';
    } else if q == 1 {
      assert s[22] == '\\' && s[23] == 'd' && s[24] == '{' && s[25] == '4' && s[26] == '}';
    } else {
      assert s[24] == '\\' && s[25] == 'd' && s[26] == '{' && s[27] == '4' && s[28] == '}';
    }
    FiveCharsOccur(s, marker, at);
  }

  lemma FiveCharsOccur(s: string, pat: string, at: int)
    requires |pat| == 5 && 0 <= at && at + 5 <= |s|
    requires s[at] == pat[0] && s[at + 1] == pat[1] && s[at + 2] == pat[2]
    requires s[at + 3] == pat[3] && s[at + 4] == pat[4]
    ensures OccursAt(s, pat, at)
  {
    assert s[at..at + 5] == pat;
  }

  /** "2024-01-15", the year-first form the suggestions advertise, is read
      as month 2024, day 1 of year 15; `new Date` takes year 15 as 1915 and
      carries the 2023 surplus months into 1 August 2083. */
  lemma {:induction false} YearFirstDateIsMisread(today: CivilDate)
    ensures ResolveDate("2024-01-15", today) == Some(MakeDate(15, 2024, 1))
    ensures MakeDate(15, 2024, 1) == DayOf(CivilDate(2083, 8, 1))
    ensures MakeDate(15, 2024, 1) != MakeDate(2024, 1, 15)
  {
    YearFirstTokenResolvesByPattern(today);
    YearFirstTokenMatchesFirstPattern(today);
    PatternGroupsAsWritten(DatePatterns[0], [2024, 1, 15], today, 0);
    KnownDays();
    SurplusMonthsCarry();
  }

  lemma YearFirstTokenResolvesByPattern(today: CivilDate)
    ensures ResolveDate("2024-01-15", today) == ResolvePattern("2024-01-15", today)
  {
    var lower := Lower("2024-01-15");
    NotAKeyword("2024-01-15", today);
    assert lower !in DateKeywords[0].words && lower !in DateKeywords[1].words;
    assert lower !in DateKeywords[2].words && lower !in DateKeywords[3].words;
  }

  lemma YearFirstTokenMatchesFirstPattern(today: CivilDate)
    ensures ResolvePattern("2024-01-15", today) == Some(PatternDate(DatePatterns[0], [2024, 1, 15], today))
  {
    YearFirstTokenGroups();
    var pick := PatternMatching("2024-01-15");
    assert pick(DatePatterns[0]);
  }

  lemma YearFirstTokenGroups()
    ensures MatchPattern("2024-01-15", DatePatterns[0]) == Some([2024, 1, 15])
  {
    var token, parts, values := "2024-01-15", ["2024", "01", "15"], [2024, 1, 15];
    YearFirstTokenSplits();
    YearFirstGroupValues();
    YearFirstPartsFit(parts);
    MatchedGroups(token, DatePatterns[0], parts, values);
  }

  lemma YearFirstPartsFit(parts: seq<string>)
    requires parts == ["2024", "01", "15"]
    ensures GroupsFit(parts, DatePatterns[0].widths)
  {
    var widths := DatePatterns[0].widths;
    assert widths == [(4, 4), (1, 2), (1, 2)];
    forall k | 0 <= k < 3
      ensures AllDigits(parts[k]) && widths[k].0 <= |parts[k]| <= widths[k].1
    {
    }
  }

  /** A token whose parts fit the pattern's groups matches with their
      values. */
  lemma MatchedGroups(token: string, p: DatePattern, parts: seq<string>, values: seq<nat>)
    requires Split(token, p.separator) == parts && GroupsFit(parts, p.widths)
    requires GroupValues(parts) == values
    ensures MatchPattern(token, p) == Some(values)
  {
  }

  lemma YearFirstGroupValues()
    ensures AllDigits("2024") && AllDigits("01") && AllDigits("15")
    ensures GroupValues(["2024", "01", "15"]) == [2024, 1, 15]
  {
    assert "2024"[..3] == "202" && "202"[..2] == "20" && "20"[..1] == "2" && "2"[..0] == "";
    assert "01"[..1] == "0" && "0"[..0] == "" && "15"[..1] == "1" && "1"[..0] == "";
    assert DigitsValue("2024") == 2024 && DigitsValue("01") == 1 && DigitsValue("15") == 15;
  }

  lemma YearFirstTokenSplits()
    ensures Split("2024-01-15", '-') == ["2024", "01", "15"]
  {
    var token, year, month, day, dash := "2024-01-15", "2024", "01", "15", '-';
    assert token == year + [dash] + (month + [dash] + day);
    SplitThree(year, month, day, dash);
  }

  /** A token of ten characters is none of the keywords. */
  lemma NotAKeyword(token: string, today: CivilDate)
    requires |token| == 10
    ensures forall m :: 0 <= m < |DateKeywords| ==> Lower(token) !in DateKeywords[m].words
    ensures ResolveWeekday(Lower(token), today) == None
  {
    var lower := Lower(token);
    KeywordsAreShort();
    var pick := WeekdayGroupOf(lower);
    forall m | 0 <= m < |DateKeywords|
      ensures lower !in DateKeywords[m].words && !pick(DateKeywords[m])
    {
      var words := DateKeywords[m].words;
      assert forall k :: 0 <= k < |words| ==> words[k] != lower;
    }
    Seqs.FindFirstNone(DateKeywords, pick);
  }

  /** Every keyword has at most nine characters. */
  lemma KeywordsAreShort()
    ensures forall m, k :: 0 <= m < |DateKeywords| && 0 <= k < |DateKeywords[m].words| ==> |DateKeywords[m].words[k]| <= 9
  {
  }

  // ---------------------------------------------------------------------
  // Properties of the priority, feature and project tokens
  // ---------------------------------------------------------------------

  /** The words that give each priority, in either letter case. */
  const HighWords: seq<string> := ["high"] + HighAliases
  const MediumWords: seq<string> := ["medium"] + MediumAliases
  const LowWords: seq<string> := ["low"] + LowAliases

  /** A priority token resolves to a level exactly when it is one of that
      level's words; the numeral aliases 1 and 3 mean high, 2 medium and
      0 low. */
  lemma {:induction false} PriorityWordsTable(s: string)
    ensures ParsePriority(s) == Some(High) <==> Lower(s) in HighWords
    ensures ParsePriority(s) == Some(Medium) <==> Lower(s) in MediumWords
    ensures ParsePriority(s) == Some(Low) <==> Lower(s) in LowWords
    ensures ParsePriority(s).None? <==> Lower(s) !in HighWords + MediumWords + LowWords
  {
    var lower := Lower(s);
    if lower in PriorityLevels {
      assert lower == "low" || lower == "medium" || lower == "high";
      assert lower !in HighAliases && lower !in MediumAliases && lower !in LowAliases;
    } else if lower in HighAliases {
      assert lower !in MediumAliases && lower !in LowAliases;
    } else if lower in MediumAliases {
      assert lower !in LowAliases;
    }
  }

  lemma {:induction false} PriorityNumerals()
    ensures ParsePriority("1") == Some(High) && ParsePriority("3") == Some(High)
    ensures ParsePriority("2") == Some(Medium) && ParsePriority("0") == Some(Low)
  {
    PriorityWordsTable("1");
    PriorityWordsTable("3");
    PriorityWordsTable("2");
    PriorityWordsTable("0");
    assert Lower("1") == "1" && Lower("3") == "3" && Lower("2") == "2" && Lower("0") == "0";
  }

  /** A found project is one of the listed projects. */
  lemma {:induction false} FoundProjectIsListed(projects: seq<Project>, name: string)
    ensures FindProjectByName(projects, name).Some? ==>
      exists k :: 0 <= k < |projects| && projects[k].id == FindProjectByName(projects, name).value
    ensures ResolveProject(projects, name).Some? ==>
      ResolveProject(projects, name).value != ""
      && exists k :: 0 <= k < |projects| && projects[k].id == ResolveProject(projects, name).value
  {
    var lower := Lower(name);
    match Seqs.FindFirst(projects, ExactNameOf(lower))
    case Some(k) =>
      assert projects[k].id == FindProjectByName(projects, name).value;
    case None =>
      match Seqs.FindFirst(projects, PartialNameOf(lower))
      case Some(k) =>
        assert projects[k].id == FindProjectByName(projects, name).value;
      case None =>
  }

  /** The first project whose name equals the token, ignoring case, wins
      over every partial match. */
  lemma {:induction false} ExactNameWins(projects: seq<Project>, name: string, k: int)
    requires 0 <= k < |projects| && Lower(projects[k].name) == Lower(name)
    requires forall m :: 0 <= m < k ==> Lower(projects[m].name) != Lower(name)
    ensures FindProjectByName(projects, name) == Some(projects[k].id)
  {
    var pick := ExactNameOf(Lower(name));
    assert pick(projects[k]);
    forall m | 0 <= m < k
      ensures !pick(projects[m])
    {
    }
    Seqs.FindFirstAt(projects, pick, k);
  }

  /** Without an exact match, the first project whose name contains the
      token, or is contained in it, is taken. */
  lemma {:induction false} FirstPartialNameWins(projects: seq<Project>, name: string, k: int)
    requires forall m :: 0 <= m < |projects| ==> Lower(projects[m].name) != Lower(name)
    requires 0 <= k < |projects| && PartialName(projects[k], Lower(name))
    requires forall m :: 0 <= m < k ==> !PartialName(projects[m], Lower(name))
    ensures FindProjectByName(projects, name) == Some(projects[k].id)
  {
    var lower := Lower(name);
    var exact := ExactNameOf(lower);
    forall m | 0 <= m < |projects|
      ensures !exact(projects[m])
    {
    }
    Seqs.FindFirstNone(projects, exact);
    var partial := PartialNameOf(lower);
    assert partial(projects[k]);
    forall m | 0 <= m < k
      ensures !partial(projects[m])
    {
    }
    Seqs.FindFirstAt(projects, partial, k);
  }

  /** A token names no project when no name equals it, contains it or is
      contained in it. */
  lemma {:induction false} UnmatchedNameIsUnresolved(projects: seq<Project>, name: string)
    requires forall m :: 0 <= m < |projects| ==> !PartialName(projects[m], Lower(name))
    ensures FindProjectByName(projects, name) == None
  {
    var lower := Lower(name);
    var exact := ExactNameOf(lower);
    forall m | 0 <= m < |projects|
      ensures !exact(projects[m])
    {
    }
    Seqs.FindFirstNone(projects, exact);
    var partial := PartialNameOf(lower);
    forall m | 0 <= m < |projects|
      ensures !partial(projects[m])
    {
    }
    Seqs.FindFirstNone(projects, partial);
  }

  /** A project with an empty name is contained in every token, so when no
      name matches exactly, the first such project takes any token. */
  lemma {:induction false} EmptyProjectNameTakesAnyToken(projects: seq<Project>, name: string, k: int)
    requires forall m :: 0 <= m < |projects| ==> Lower(projects[m].name) != Lower(name)
    requires 0 <= k < |projects| && projects[k].name == ""
    requires forall m :: 0 <= m < k ==> !PartialName(projects[m], Lower(name))
    ensures FindProjectByName(projects, name) == Some(projects[k].id)
  {
    assert OccursAt(Lower(name), Lower(projects[k].name), 0);
    FirstPartialNameWins(projects, name, k);
  }
}
