/** Worked inputs of the annotation parser, each stated for any current
    date and project list the example allows. The general lemmas first
    give the draft of a text of a given shape; each example then only
    checks that its text has that shape. */
module ParserExamples {
  import opened Wrappers
  import opened Text
  import opened Calendar
  import opened Types
  import opened NaturalLanguageParser

  /** The character `c` does not occur in `text`. */
  predicate Lacks(text: string, c: char) {
    forall k :: 0 <= k < |text| ==> text[k] != c
  }

  // ---------------------------------------------------------------------
  // Drafts of texts of a given shape
  // ---------------------------------------------------------------------

  /** Cutting `text[i..j]` out of `text` leaves `rest` padded by blanks. */
  predicate CutsTo(text: string, i: int, j: int, pad: string, rest: string, tail: string) {
    && 0 <= i <= j <= |text|
    && text[..i] + text[j..] == pad + rest + tail
    && IsBlank(pad) && IsBlank(tail) && IsTrimmed(rest) && rest != ""
  }

  /** A pass over a text without its marker keeps the text. */
  lemma MarkerlessPass<T>(text: string, symbol: char, resolve: string -> Option<T>)
    requires Lacks(text, symbol)
    ensures Pass(text, symbol, resolve) == Step(None, text)
  {
    AbsentSymbolExtractsNothing(text, symbol);
    PassWithoutToken(text, symbol, resolve);
  }

  /** A pass whose first token `text[i..j]` resolves to `v` takes `v` and
      the trimmed cut. */
  lemma ResolvingPass<T>(text: string, symbol: char, resolve: string -> Option<T>, i: int, j: int,
                         pad: string, rest: string, tail: string, v: T)
    requires FirstTokenAt(text, symbol, i, j) && resolve(text[i + 1..j]) == Some(v)
    requires CutsTo(text, i, j, pad, rest, tail)
    ensures Pass(text, symbol, resolve) == Step(Some(v), rest)
  {
    TrimPadded(pad, rest, tail);
    TokenExtracted(text, symbol, i, j);
    PassWithToken(text, symbol, resolve, text[i + 1..j], rest);
  }

  /** A pass whose first token `text[i..j]` does not resolve keeps the
      text, token and all. */
  lemma UnresolvingPass<T>(text: string, symbol: char, resolve: string -> Option<T>, i: int, j: int)
    requires FirstTokenAt(text, symbol, i, j) && resolve(text[i + 1..j]) == None
    ensures Pass(text, symbol, resolve) == Step(None, text)
  {
    TokenExtracted(text, symbol, i, j);
    PassWithToken(text, symbol, resolve, text[i + 1..j], Trim(text[..i] + text[j..]));
  }

  /** The draft of a trimmed text from the outcomes of its four passes,
      when the last one leaves a trimmed, non-blank title. */
  lemma FourPasses(text: string, title: string, d: Option<Day>, afterDate: string, p: Option<Priority>,
                   afterPriority: string, j: Option<string>, afterProject: string, f: Option<bool>,
                   projects: seq<Project>, today: CivilDate)
    requires IsTrimmed(text) && text != "" && IsTrimmed(title) && title != ""
    requires Pass(text, DateSymbol, DateResolver(today)) == Step(d, afterDate)
    requires Pass(afterDate, PrioritySymbol, ParsePriority) == Step(p, afterPriority)
    requires Pass(afterPriority, ProjectSymbol, ProjectResolver(projects)) == Step(j, afterProject)
    requires Pass(afterProject, FeatureSymbol, ParseFeature) == Step(f, title)
    ensures Parsed(text, projects, today)
      == ParseResult(ParsedTask(title, p, d, j, f), Min(8 + Tenth(d) + Tenth(p) + Tenth(j) + Tenth(f), 10),
                     Some(GenerateSuggestions(projects)))
  {
    TrimOfTrimmed(text);
    TrimOfTrimmed(title);
    PassesAssemble(text, projects, today, Step(d, afterDate), Step(p, afterPriority), Step(j, afterProject), Step(f, title));
  }

  /** A trimmed text without marker characters is all title. */
  lemma NoMarkers(text: string, projects: seq<Project>, today: CivilDate)
    requires IsTrimmed(text) && text != ""
    requires Lacks(text, DateSymbol) && Lacks(text, PrioritySymbol)
    requires Lacks(text, ProjectSymbol) && Lacks(text, FeatureSymbol)
    ensures Parsed(text, projects, today)
      == ParseResult(ParsedTask(text, None, None, None, None), 8, Some(GenerateSuggestions(projects)))
  {
    MarkerlessPass(text, DateSymbol, DateResolver(today));
    MarkerlessPass(text, PrioritySymbol, ParsePriority);
    MarkerlessPass(text, ProjectSymbol, ProjectResolver(projects));
    MarkerlessPass(text, FeatureSymbol, ParseFeature);
    FourPasses(text, text, None, text, None, text, None, text, None, projects, today);
  }

  /** A trimmed text whose one marker is the feature token `text[i..j]`
      with value "feat", leaving `rest`. */
  lemma OnlyFeatureToken(text: string, i: int, j: int, pad: string, rest: string, tail: string,
                         projects: seq<Project>, today: CivilDate)
    requires IsTrimmed(text) && text != ""
    requires Lacks(text, DateSymbol) && Lacks(text, PrioritySymbol) && Lacks(text, ProjectSymbol)
    requires FirstTokenAt(text, FeatureSymbol, i, j) && ParseFeature(text[i + 1..j]) == Some(true)
    requires CutsTo(text, i, j, pad, rest, tail)
    ensures Parsed(text, projects, today)
      == ParseResult(ParsedTask(rest, None, None, None, Some(true)), 9, Some(GenerateSuggestions(projects)))
  {
    MarkerlessPass(text, DateSymbol, DateResolver(today));
    MarkerlessPass(text, PrioritySymbol, ParsePriority);
    MarkerlessPass(text, ProjectSymbol, ProjectResolver(projects));
    ResolvingPass(text, FeatureSymbol, ParseFeature, i, j, pad, rest, tail, true);
    FourPasses(text, rest, None, text, None, text, None, text, Some(true), projects, today);
  }

  /** A trimmed text whose one marker is a date token `text[i..j]` that
      does not resolve: the whole text is the title. */
  lemma OnlyUnresolvedDate(text: string, i: int, j: int, projects: seq<Project>, today: CivilDate)
    requires IsTrimmed(text) && text != ""
    requires Lacks(text, PrioritySymbol) && Lacks(text, ProjectSymbol) && Lacks(text, FeatureSymbol)
    requires FirstTokenAt(text, DateSymbol, i, j) && Undated(text[i + 1..j])
    ensures Parsed(text, projects, today)
      == ParseResult(ParsedTask(text, None, None, None, None), 8, Some(GenerateSuggestions(projects)))
  {
    UndatedUnresolved(text[i + 1..j], today);
    UnresolvingPass(text, DateSymbol, DateResolver(today), i, j);
    MarkerlessPass(text, PrioritySymbol, ParsePriority);
    MarkerlessPass(text, ProjectSymbol, ProjectResolver(projects));
    MarkerlessPass(text, FeatureSymbol, ParseFeature);
    FourPasses(text, text, None, text, None, text, None, text, None, projects, today);
  }

  /** A trimmed text whose markers are a resolving date token
      `text[i..j]`, and then, in the text `cut` that leaves, a resolving
      priority token `cut[i2..j2]`. */
  lemma DateThenPriorityTokens(text: string, i: int, j: int, cut: string, i2: int, j2: int,
                               pad: string, title: string, tail: string,
                               day: Day, level: Priority, projects: seq<Project>, today: CivilDate)
    requires IsTrimmed(text) && text != ""
    requires FirstTokenAt(text, DateSymbol, i, j) && ResolveDate(text[i + 1..j], today) == Some(day)
    requires CutsTo(text, i, j, [], cut, [])
    requires FirstTokenAt(cut, PrioritySymbol, i2, j2) && ParsePriority(cut[i2 + 1..j2]) == Some(level)
    requires CutsTo(cut, i2, j2, pad, title, tail)
    requires Lacks(title, ProjectSymbol) && Lacks(title, FeatureSymbol)
    ensures Parsed(text, projects, today)
      == ParseResult(ParsedTask(title, Some(level), Some(day), None, None), 10, Some(GenerateSuggestions(projects)))
  {
    ResolvingPass(text, DateSymbol, DateResolver(today), i, j, [], cut, [], day);
    ResolvingPass(cut, PrioritySymbol, ParsePriority, i2, j2, pad, title, tail, level);
    MarkerlessPass(title, ProjectSymbol, ProjectResolver(projects));
    MarkerlessPass(title, FeatureSymbol, ParseFeature);
    FourPasses(text, title, Some(day), cut, Some(level), title, None, title, None, projects, today);
  }

  /** A trimmed text whose one marker is a project token `text[i..j]` that
      resolves to `id`. */
  lemma OnlyProjectToken(text: string, i: int, j: int, pad: string, title: string, tail: string, id: string,
                         projects: seq<Project>, today: CivilDate)
    requires IsTrimmed(text) && text != ""
    requires Lacks(text, DateSymbol) && Lacks(text, PrioritySymbol)
    requires FirstTokenAt(text, ProjectSymbol, i, j) && ResolveProject(projects, text[i + 1..j]) == Some(id)
    requires CutsTo(text, i, j, pad, title, tail) && Lacks(title, FeatureSymbol)
    ensures Parsed(text, projects, today)
      == ParseResult(ParsedTask(title, None, None, Some(id), None), 9, Some(GenerateSuggestions(projects)))
  {
    MarkerlessPass(text, DateSymbol, DateResolver(today));
    MarkerlessPass(text, PrioritySymbol, ParsePriority);
    ResolvingPass(text, ProjectSymbol, ProjectResolver(projects), i, j, pad, title, tail, id);
    MarkerlessPass(title, FeatureSymbol, ParseFeature);
    FourPasses(text, title, None, text, None, text, Some(id), title, None, projects, today);
  }

  // ---------------------------------------------------------------------
  // "Buy milk"
  // ---------------------------------------------------------------------

  /** Plain text is all title, at the base confidence 0.8. */
  lemma {:induction false} PlainTextIsTitle(text: string, projects: seq<Project>, today: CivilDate)
    requires text == "Buy milk"
    ensures Parsed(text, projects, today)
      == ParseResult(ParsedTask(text, None, None, None, None), 8, Some(GenerateSuggestions(projects)))
  {
    BuyMilkShape(text);
    NoMarkers(text, projects, today);
  }

  lemma BuyMilkShape(text: string)
    requires text == "Buy milk"
    ensures IsTrimmed(text) && text != ""
    ensures Lacks(text, DateSymbol) && Lacks(text, PrioritySymbol)
    ensures Lacks(text, ProjectSymbol) && Lacks(text, FeatureSymbol)
  {
  }

  // ---------------------------------------------------------------------
  // "%feat Launch page"
  // ---------------------------------------------------------------------

  /** A feature token sets the flag; the rest is the title. */
  lemma {:induction false} FeatureTokenSetsFlag(text: string, projects: seq<Project>, today: CivilDate)
    requires text == "%feat Launch page"
    ensures Parsed(text, projects, today)
      == ParseResult(ParsedTask("Launch page", None, None, None, Some(true)), 9, Some(GenerateSuggestions(projects)))
  {
    var pad, title, tail := " ", "Launch page", "";
    FeatureShape(text);
    FeatureTokenSpan(text);
    FeatureCut(text, pad, title, tail);
    FeatureWord(text[1..5]);
    OnlyFeatureToken(text, 0, 5, pad, title, tail, projects, today);
  }

  lemma FeatureShape(text: string)
    requires text == "%feat Launch page"
    ensures IsTrimmed(text) && text != ""
    ensures Lacks(text, DateSymbol) && Lacks(text, PrioritySymbol) && Lacks(text, ProjectSymbol)
  {
  }

  lemma FeatureTokenSpan(text: string)
    requires text == "%feat Launch page"
    ensures FirstTokenAt(text, FeatureSymbol, 0, 5)
  {
    assert text[1] == 'f' && text[2] == 'e' && text[3] == 'a' && text[4] == 't' && text[5] == ' ';
  }

  lemma FeatureCut(text: string, pad: string, title: string, tail: string)
    requires text == "%feat Launch page"
    requires pad == " " && title == "Launch page" && tail == ""
    ensures text[1..5] == "feat"
    ensures CutsTo(text, 0, 5, pad, title, tail)
  {
    assert text[..0] + text[5..] == pad + title + tail;
    assert IsBlank(pad) && IsTrimmed(title);
  }

  lemma FeatureWord(s: string)
    requires s == "feat"
    ensures ParseFeature(s) == Some(true)
  {
    assert Lower(s) == s;
  }

  // ---------------------------------------------------------------------
  // "#bogusdate Review"
  // ---------------------------------------------------------------------

  /** A token that does not resolve stays in the title, as written. */
  lemma {:induction false} UnresolvedDateStaysInTitle(text: string, projects: seq<Project>, today: CivilDate)
    requires text == "#bogusdate Review"
    ensures Parsed(text, projects, today)
      == ParseResult(ParsedTask(text, None, None, None, None), 8, Some(GenerateSuggestions(projects)))
  {
    BogusShape(text);
    BogusTokenSpan(text);
    BogusWord(text[1..10]);
    OnlyUnresolvedDate(text, 0, 10, projects, today);
  }

  lemma BogusShape(text: string)
    requires text == "#bogusdate Review"
    ensures IsTrimmed(text) && text != ""
    ensures Lacks(text, PrioritySymbol) && Lacks(text, ProjectSymbol) && Lacks(text, FeatureSymbol)
  {
  }

  lemma BogusTokenSpan(text: string)
    requires text == "#bogusdate Review"
    ensures FirstTokenAt(text, DateSymbol, 0, 10)
    ensures text[1..10] == "bogusdate"
  {
    assert forall m :: 1 <= m < 10 ==> 'a' <= text[m] <= 'z';
    assert text[10] == ' ';
  }

  lemma BogusWord(token: string)
    requires token == "bogusdate"
    ensures Undated(token)
  {
  }

  /** A lower-case word in no keyword group and without a separator. */
  predicate Undated(token: string) {
    && Lower(token) == token
    && (forall m :: 0 <= m < |DateKeywords| ==> token !in DateKeywords[m].words)
    && Lacks(token, '-') && Lacks(token, '/')
  }

  /** Such a word is no keyword, no weekday and matches no pattern. */
  lemma UndatedUnresolved(token: string, today: CivilDate)
    requires Undated(token)
    ensures ResolveDate(token, today) == None
  {
    UnlistedDate(token, today);
    UnseparatedMatchesNoPattern(token, today);
  }

  /** A token in no keyword group, whatever its spelling, falls through to
      the patterns. */
  lemma UnlistedDate(token: string, today: CivilDate)
    requires Lower(token) == token
    requires forall m :: 0 <= m < |DateKeywords| ==> token !in DateKeywords[m].words
    ensures ResolveDate(token, today) == ResolvePattern(token, today)
  {
    UnlistedNoWeekday(token, today);
    assert token !in DateKeywords[0].words && token !in DateKeywords[1].words;
    assert token !in DateKeywords[2].words && token !in DateKeywords[3].words;
  }

  lemma UnlistedNoWeekday(token: string, today: CivilDate)
    requires forall m :: 0 <= m < |DateKeywords| ==> token !in DateKeywords[m].words
    ensures ResolveWeekday(token, today) == None
  {
    var group := WeekdayGroupOf(token);
    forall m | 0 <= m < |DateKeywords|
      ensures !group(DateKeywords[m])
    {
    }
    Seqs.FindFirstNone(DateKeywords, group);
  }

  /** A token without a separator matches no pattern. */
  lemma UnseparatedMatchesNoPattern(token: string, today: CivilDate)
    requires Lacks(token, '-') && Lacks(token, '/')
    ensures ResolvePattern(token, today) == None
  {
    var matching := PatternMatching(token);
    forall q | 0 <= q < |DatePatterns|
      ensures !matching(DatePatterns[q])
    {
      PatternShapes(q);
      SplitNoSeparator(token, DatePatterns[q].separator);
    }
    Seqs.FindFirstNone(DatePatterns, matching);
  }

  // ---------------------------------------------------------------------
  // "Ship it #tomorrow !high"
  // ---------------------------------------------------------------------

  /** Two resolving tokens: a relative date and a priority word. The
      double space the cut leaves inside the text stays until the last
      trim removes it at the end. */
  lemma {:induction false} DateAndPriority(text: string, projects: seq<Project>, today: CivilDate)
    requires text == "Ship it #tomorrow !high"
    ensures Parsed(text, projects, today)
      == ParseResult(ParsedTask("Ship it", Some(High), Some(DayOf(today) + 1), None, None), 10,
                     Some(GenerateSuggestions(projects)))
  {
    var cut, none, title, pad := "Ship it  !high", "", "Ship it", "  ";
    ShipShape(text);
    ShipDateSpan(text);
    ShipDateCut(text, cut);
    ShipPrioritySpan(cut);
    ShipPriorityCut(cut, none, title, pad);
    ShipValues(text[9..17], cut[10..14], today);
    DateThenPriorityTokens(text, 8, 17, cut, 9, 14, none, title, pad, DayOf(today) + 1, High, projects, today);
  }

  lemma ShipShape(text: string)
    requires text == "Ship it #tomorrow !high"
    ensures IsTrimmed(text) && text != ""
  {
  }

  lemma ShipDateSpan(text: string)
    requires text == "Ship it #tomorrow !high"
    ensures FirstTokenAt(text, DateSymbol, 8, 17)
  {
    assert forall k :: 0 <= k < 8 ==> text[k] != DateSymbol;
    assert forall m :: 9 <= m < 17 ==> 'a' <= text[m] <= 'z';
    assert text[17] == ' ';
  }

  lemma ShipDateCut(text: string, cut: string)
    requires text == "Ship it #tomorrow !high" && cut == "Ship it  !high"
    ensures text[9..17] == "tomorrow"
    ensures CutsTo(text, 8, 17, [], cut, [])
  {
    var none := "";
    assert text[..8] + text[17..] == none + cut + none;
    assert IsTrimmed(cut);
  }

  lemma ShipPrioritySpan(cut: string)
    requires cut == "Ship it  !high"
    ensures FirstTokenAt(cut, PrioritySymbol, 9, 14)
  {
    assert forall k :: 0 <= k < 9 ==> cut[k] != PrioritySymbol;
    assert forall m :: 10 <= m < 14 ==> 'a' <= cut[m] <= 'z';
  }

  lemma ShipPriorityCut(cut: string, none: string, title: string, pad: string)
    requires cut == "Ship it  !high" && none == "" && title == "Ship it" && pad == "  "
    ensures cut[10..14] == "high"
    ensures CutsTo(cut, 9, 14, none, title, pad)
    ensures Lacks(title, ProjectSymbol) && Lacks(title, FeatureSymbol)
  {
    assert cut[..9] + cut[14..] == none + title + pad;
    assert IsBlank(pad) && IsTrimmed(title);
  }

  lemma ShipValues(date: string, level: string, today: CivilDate)
    requires date == "tomorrow" && level == "high"
    ensures ResolveDate(date, today) == Some(DayOf(today) + 1)
    ensures ParsePriority(level) == Some(High)
  {
    assert Lower(date) == date;
    RelativeDayKeywords(date, today);
    assert Lower(level) == level;
    PriorityWordsTable(level);
  }

  // ---------------------------------------------------------------------
  // "Fix bug $web"
  // ---------------------------------------------------------------------

  /** A project token that is part of a project's name picks that project. */
  lemma {:induction false} PartialProjectName(text: string, projects: seq<Project>, today: CivilDate)
    requires text == "Fix bug $web"
    requires |projects| == 1 && projects[0].id == "p1" && projects[0].name == "Website"
    ensures Parsed(text, projects, today)
      == ParseResult(ParsedTask("Fix bug", None, None, Some("p1"), None), 9, Some(GenerateSuggestions(projects)))
  {
    var none, title, pad, id := "", "Fix bug", " ", "p1";
    FixShape(text);
    FixProjectSpan(text);
    FixProjectCut(text, none, title, pad);
    WebIsPartOfWebsite(projects, text[9..12]);
    OnlyProjectToken(text, 8, 12, none, title, pad, id, projects, today);
  }

  lemma FixShape(text: string)
    requires text == "Fix bug $web"
    ensures IsTrimmed(text) && text != ""
    ensures Lacks(text, DateSymbol) && Lacks(text, PrioritySymbol)
  {
  }

  lemma FixProjectSpan(text: string)
    requires text == "Fix bug $web"
    ensures FirstTokenAt(text, ProjectSymbol, 8, 12)
  {
    assert forall k :: 0 <= k < 8 ==> text[k] != ProjectSymbol;
    assert forall m :: 9 <= m < 12 ==> 'a' <= text[m] <= 'z';
  }

  lemma FixProjectCut(text: string, none: string, title: string, pad: string)
    requires text == "Fix bug $web" && none == "" && title == "Fix bug" && pad == " "
    ensures text[9..12] == "web"
    ensures CutsTo(text, 8, 12, none, title, pad) && Lacks(title, FeatureSymbol)
  {
    assert text[..8] + text[12..] == none + title + pad;
    assert IsBlank(pad) && IsTrimmed(title);
  }

  lemma WebIsPartOfWebsite(projects: seq<Project>, name: string)
    requires name == "web"
    requires |projects| == 1 && projects[0].id == "p1" && projects[0].name == "Website"
    ensures ResolveProject(projects, name) == Some("p1")
  {
    WebLower(projects[0].name, name);
    assert OccursAt(Lower(projects[0].name), Lower(name), 0);
    ContainsIff(Lower(projects[0].name), Lower(name));
    FirstPartialNameWins(projects, name, 0);
  }

  lemma WebLower(full: string, name: string)
    requires full == "Website" && name == "web"
    ensures Lower(full) == "website" && Lower(name) == "web"
  {
  }
}
