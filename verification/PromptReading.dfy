/** Reading a prompt back: for every request within its field limits no text can leave its place, so a
    reader that knows nothing about the request finds every section, and every field of every item,
    where it belongs. */
module PromptReading {
  import opened Options
  import opened ReceiptText
  import opened PromptText
  import opened JsonText
  import opened PromptLists
  import opened PromptGoal
  import opened PromptBudget
  import opened PromptLedger
  import opened PromptRecords

  // ------------------------------------------------------------------ small values

  lemma SimpleIsPlain(text: string)
    requires Simple(text)
    ensures Plain(text)
  {
  }

  lemma NumberIsValue(n: nat)
    ensures IsValue(Decimal(n))
  {
    ParseDecimal(n);
    PlainIsValue(Decimal(n));
  }

  lemma IntegerIsValue(n: int)
    ensures IsValue(Integer(n))
  {
    ParseDecimal(if n < 0 then -n else n);
    PlainIsValue(Integer(n));
  }

  lemma NullIsValue()
    ensures IsValue("null")
  {
    PlainIsValue("null");
  }

  lemma OptionalNumberIsValue(n: Option<nat>)
    ensures IsValue(OptionalNumber(n))
  {
    if n.Some? {
      NumberIsValue(n.value);
    } else {
      NullIsValue();
    }
  }

  lemma FlagIsValue(b: bool)
    ensures IsValue(Flag(b))
  {
    PlainIsValue(Flag(b));
  }

  /** Characters that no string ends at. */
  predicate Unmarked(text: string) {
    forall c :: c in text ==> c != '\"' && c != '\\'
  }

  lemma {:induction false} UnmarkedPasses(d: nat, text: string)
    requires Unmarked(text)
    ensures Passes(Scan(d, true, false), text, Scan(d, true, false))
    decreases |text|
  {
    if text != [] {
      assert text[0] in text;
      forall c | c in text[1..] ensures c in text {
      }
      UnmarkedPasses(d, text[1..]);
    }
  }

  lemma QuotedIsValue(text: string)
    requires Unmarked(text)
    ensures IsValue(Quoted(text))
  {
    forall d: nat {:trigger Open(d)} ensures Passes(Open(d), Quoted(text), Open(d)) {
      var inside := Scan(d, true, false);
      OneCharacter(Open(d), '\"');
      UnmarkedPasses(d, text);
      OneCharacter(inside, '\"');
      PassesConcat(Open(d), "\"", inside, text, inside);
      PassesConcat(Open(d), "\"" + text, inside, "\"", Open(d));
    }
  }

  lemma SimpleQuoted(text: string)
    requires Simple(text)
    ensures IsValue(Quoted(text))
  {
    QuotedIsValue(text);
  }

  lemma OptionalTextIsValue(text: Option<string>)
    requires text.Some? ==> Simple(text.value)
    ensures IsValue(OptionalText(text))
  {
    if text.Some? {
      SimpleQuoted(text.value);
    } else {
      NullIsValue();
    }
  }

  lemma TextIsValue(text: string)
    ensures IsValue(Quote(JsonCode, text))
  {
    JsonCodeStaysInside();
    QuoteIsValue(JsonCode, text);
  }

  /** Evidence cannot end its string either, although it is escaped twice. */
  lemma EvidenceStaysInside()
    ensures StaysInside(EvidenceCode)
  {
    JsonCodeStaysInside();
    forall c: char, d: nat ensures StaysAt(EvidenceCode, c, d) {
      EncodedStaysInside(JsonCode, BoundaryCode(c), d);
    }
  }

  // ------------------------------------------------------------------------ items

  lemma OneMemberMore(name: string, value: string, more: Members)
    requires Simple(name) && IsValue(value) && WellFormed(more)
    ensures WellFormed(Member(name, value, more))
  {
    SimpleIsPlain(name);
  }

  lemma ProjectNames()
    ensures Simple("id") && Simple("name") && Simple("start_date")
    ensures Simple("target_date") && Simple("status")
  {
  }

  lemma StateNames()
    ensures Simple("planned_date") && Simple("due_at") && Simple("estimated_minutes")
    ensures Simple("completed_at")
  {
  }

  lemma TaskNames()
    ensures Simple("id") && Simple("project_id") && Simple("title")
    ensures Simple("status") && Simple("priority")
  {
  }

  lemma PlaceNames()
    ensures Simple("page_number") && Simple("ordinal") && Simple("vector_rank")
    ensures Simple("lexical_rank") && Simple("fusion_score")
  {
  }

  lemma CitationNames()
    ensures Simple("citation_id") && Simple("document_id") && Simple("chunk_id")
    ensures Simple("source")
  {
  }

  lemma StampsAreWellFormed(createdAt: string, updatedAt: string)
    requires Simple(createdAt) && Simple(updatedAt)
    ensures WellFormed(StampMembers(createdAt, updatedAt))
  {
    SimpleQuoted(createdAt);
    SimpleQuoted(updatedAt);
    OneMemberMore("updated_at", Quoted(updatedAt), Nil);
    OneMemberMore("created_at", Quoted(createdAt), Member("updated_at", Quoted(updatedAt), Nil));
  }

  lemma StatusIsSimple(status: string)
    requires status in {"NOT_STARTED", "IN_PROGRESS", "COMPLETED", "ARCHIVED", "TODO", "CANCELLED", "LOW", "MEDIUM",
                        "HIGH", "URGENT"}
    ensures Simple(status)
  {
  }

  lemma ProjectIsWellFormed(p: Project)
    requires ProjectInLimits(p)
    ensures WellFormed(ProjectMembers(p))
  {
    ProjectNames();
    var m := ProjectMembers(p);
    var n := m.more.more.more;
    StampsAreWellFormed(p.createdAt, p.updatedAt);
    StatusIsSimple(p.status);
    SimpleQuoted(p.status);
    OneMemberMore("status", n.more.value, n.more.more);
    OptionalTextIsValue(p.targetDate);
    OneMemberMore("target_date", n.value, n.more);
    OptionalTextIsValue(p.startDate);
    OneMemberMore("start_date", m.more.more.value, n);
    TextIsValue(p.name);
    OneMemberMore("name", m.more.value, m.more.more);
    SimpleQuoted(p.id);
    OneMemberMore("id", m.value, m.more);
  }

  lemma PlanStateIsWellFormed(t: Task, more: Members)
    requires TaskInLimits(t)
    requires more == StateMembers(t).more.more
    ensures WellFormed(more)
  {
    StateNames();
    StampsAreWellFormed(t.createdAt, t.updatedAt);
    OptionalTextIsValue(t.completedAt);
    var last := more.more.more;
    OneMemberMore("completed_at", OptionalText(t.completedAt), last.more);
    OptionalNumberIsValue(t.estimatedMinutes);
    OneMemberMore("estimated_minutes", OptionalNumber(t.estimatedMinutes), last);
    OptionalTextIsValue(t.dueAt);
    OneMemberMore("due_at", OptionalText(t.dueAt), more.more.more);
    OptionalTextIsValue(t.plannedDate);
    OneMemberMore("planned_date", OptionalText(t.plannedDate), more.more);
  }

  lemma TaskIsWellFormed(t: Task)
    requires TaskInLimits(t)
    ensures WellFormed(TaskMembers(t))
  {
    TaskNames();
    var state := StateMembers(t);
    PlanStateIsWellFormed(t, state.more.more);
    StatusIsSimple(t.priority);
    SimpleQuoted(t.priority);
    OneMemberMore("priority", Quoted(t.priority), state.more.more);
    StatusIsSimple(t.status);
    SimpleQuoted(t.status);
    OneMemberMore("status", Quoted(t.status), state.more);
    TextIsValue(t.title);
    OneMemberMore("title", Quote(JsonCode, t.title), state);
    SimpleQuoted(t.project);
    OneMemberMore("project_id", Quoted(t.project), Member("title", Quote(JsonCode, t.title), state));
    SimpleQuoted(t.id);
    OneMemberMore("id", Quoted(t.id), TaskMembers(t).more);
  }

  lemma PlaceIsWellFormed(c: Citation)
    requires Simple(c.score)
    ensures WellFormed(PlaceMembers(c))
  {
    PlaceNames();
    var m := PlaceMembers(c);
    SimpleIsPlain(c.score);
    PlainIsValue(c.score);
    OneMemberMore("fusion_score", c.score, Nil);
    OptionalNumberIsValue(c.lexicalRank);
    OneMemberMore("lexical_rank", OptionalNumber(c.lexicalRank), m.more.more.more.more);
    OptionalNumberIsValue(c.vectorRank);
    OneMemberMore("vector_rank", OptionalNumber(c.vectorRank), m.more.more.more);
    NumberIsValue(c.ordinal);
    OneMemberMore("ordinal", Decimal(c.ordinal), m.more.more);
    OptionalNumberIsValue(c.page);
    OneMemberMore("page_number", OptionalNumber(c.page), m.more);
  }

  lemma CitationIsWellFormed(c: Citation)
    requires CitationInLimits(c)
    ensures WellFormed(CitationMembers(c))
  {
    CitationNames();
    var m := CitationMembers(c);
    PlaceIsWellFormed(c);
    EvidenceStaysInside();
    QuoteIsValue(EvidenceCode, c.source);
    OneMemberMore("source", Quote(EvidenceCode, c.source), PlaceMembers(c));
    SimpleQuoted(c.chunk);
    OneMemberMore("chunk_id", Quoted(c.chunk), m.more.more.more);
    SimpleQuoted(c.document);
    OneMemberMore("document_id", Quoted(c.document), m.more.more);
    SimpleQuoted("knowledge:" + c.document + ":" + c.chunk);
    OneMemberMore("citation_id", m.value, m.more);
  }

  // ---------------------------------------------------------------------- shown items

  /** The members of an item with what is shown of its long text. */
  function ShownMembers(members: Members, name: string, code: char -> string, shown: Shown): Members {
    match shown
    case Hidden => members
    case Null => Append(members, name, "null")
    case Text(text) => Append(members, name, Quote(code, text))
  }

  /** The format writes the long text under this name, in strings that it cannot leave. */
  ghost predicate Writes(f: ListFormat, name: string) {
    f.field == "," + Key(name) && Simple(name) && StaysInside(f.code)
  }

  /** An item is written as one object: its own members, and then its long text if it is shown. */
  lemma ItemText(f: ListFormat, name: string, members: Members, shown: Shown)
    requires Writes(f, name) && members.Member?
    ensures RenderItem(f, Projected("{" + MembersText(members), shown))
         == ObjectText(ShownMembers(members, name, f.code, shown))
  {
    match shown {
      case Hidden =>
      case Null =>
        AppendText(members, name, "null");
        Joined(MembersText(members), Key(name), "null");
      case Text(text) =>
        AppendText(members, name, Quote(f.code, text));
        Joined(MembersText(members), Key(name), Quote(f.code, text));
    }
  }

  lemma Joined(inner: string, key: string, value: string)
    ensures "{" + inner + ("," + key + value) + "}" == "{" + (inner + ("," + (key + value))) + "}"
  {
  }

  lemma ShownIsWellFormed(f: ListFormat, name: string, members: Members, shown: Shown)
    requires Writes(f, name) && WellFormed(members)
    ensures WellFormed(ShownMembers(members, name, f.code, shown))
  {
    SimpleIsPlain(name);
    match shown {
      case Hidden =>
      case Null =>
        NullIsValue();
        AppendIsWellFormed(members, name, "null");
      case Text(text) =>
        QuoteIsValue(f.code, text);
        AppendIsWellFormed(members, name, Quote(f.code, text));
    }
  }

  /** Every item in a section is one value, and is read back as its own members with what is shown
      of its long text, whatever that text is. */
  lemma ItemReadsBack(f: ListFormat, name: string, members: Members, shown: Shown)
    requires Writes(f, name) && WellFormed(members) && members.Member?
    ensures var text := RenderItem(f, Projected("{" + MembersText(members), shown));
            && IsValue(text) && text != [] && text[0] == '{'
            && ReadObject(text) == Some((ShownMembers(members, name, f.code, shown), ""))
  {
    var all := ShownMembers(members, name, f.code, shown);
    ItemText(f, name, members, shown);
    ShownIsWellFormed(f, name, members, shown);
    ReadsObject(all, "");
    ObjectIsValue(all);
    assert ObjectText(all) + "" == ObjectText(all);
  }

  // --------------------------------------------------------------------- sections

  function Rendered(f: ListFormat, items: seq<Projected>): seq<string> {
    seq(|items|, i requires 0 <= i < |items| => RenderItem(f, items[i]))
  }

  lemma {:induction false} ListedIsElements(f: ListFormat, items: seq<Projected>)
    ensures Listed(f, items) == ElementsText(Rendered(f, items))
  {
    if |items| > 1 {
      var front, last := items[..|items| - 1], items[|items| - 1];
      ListedIsElements(f, front);
      assert Rendered(f, items) == Rendered(f, front) + [RenderItem(f, last)];
      ElementsSnoc(Rendered(f, front), RenderItem(f, last));
      LastListed(Listed(f, front), RenderItem(f, last));
    } else if |items| == 1 {
      assert Rendered(f, items) == [RenderItem(f, items[0])];
    }
  }

  lemma LastListed(before: string, last: string)
    ensures before + "," + last == before + ("," + last)
  {
  }

  /** The members of the i-th item that was to be listed. */
  type Records = nat -> Members

  /** Each shown item is one of these records, with some or none of its long text. */
  ghost predicate ShowsRecords(items: seq<Projected>, records: Records) {
    forall i: nat :: i < |items| ==>
      && items[i].identity == "{" + MembersText(records(i)) && WellFormed(records(i)) && records(i).Member?
  }

  lemma ItemsAreValues(f: ListFormat, name: string, items: seq<Projected>, records: Records)
    requires Writes(f, name) && ShowsRecords(items, records)
    ensures AllValues(Rendered(f, items))
  {
    forall e | e in Rendered(f, items) ensures IsValue(e) && e != [] && e[0] != ']' {
      var i: nat :| i < |items| && Rendered(f, items)[i] == e;
      ItemReadsBack(f, name, records(i), items[i].text);
      assert items[i] == Projected("{" + MembersText(records(i)), items[i].text);
    }
  }

  /** A page section as an object: its items, and then the place of the page. */
  function ListMembers(f: ListFormat, items: seq<Projected>, total: nat): Members {
    Member("items", ArrayText(Rendered(f, items)), PageMembers(total))
  }

  lemma ListText(items: seq<Projected>, total: nat)
    ensures var f := PageFormat(total); RenderList(f, items) == ObjectText(ListMembers(f, items, total))
  {
    var f := PageFormat(total);
    ListedIsElements(f, items);
    PageJoins(Listed(f, items), MembersText(PageMembers(total)));
  }

  lemma PageJoins(inner: string, more: string)
    ensures "{\"items\":[" + inner + ("]," + more + "}")
         == "{" + (Key("items") + ("[" + inner + "]") + ("," + more)) + "}"
  {
    assert "{\"items\":[" == "{" + (Key("items") + "[");
  }

  lemma PageNames()
    ensures Simple("items") && Simple("page") && Simple("page_size") && Simple("total") && Simple("pages")
  {
  }

  lemma PageIsWellFormed(total: nat)
    ensures WellFormed(PageMembers(total))
  {
    PageNames();
    var pages := (total + PAGE_SIZE - 1) / PAGE_SIZE;
    NumberIsValue(pages);
    OneMemberMore("pages", Decimal(pages), Nil);
    NumberIsValue(total);
    OneMemberMore("total", Decimal(total), Member("pages", Decimal(pages), Nil));
    PlainIsValue("20");
    OneMemberMore("page_size", "20", PageMembers(total).more.more);
    PlainIsValue("1");
    OneMemberMore("page", "1", PageMembers(total).more);
  }

  lemma PageWrites(total: nat)
    ensures Writes(PageFormat(total), "description")
  {
    JsonCodeStaysInside();
    assert ",\"description\":" == "," + Key("description");
  }

  /** A page section is one value, and its items are read back one by one. */
  lemma ListReadsBack(items: seq<Projected>, total: nat, records: Records)
    requires ShowsRecords(items, records)
    ensures var f := PageFormat(total);
            && IsValue(RenderList(f, items))
            && ReadObject(RenderList(f, items)) == Some((ListMembers(f, items, total), ""))
            && ReadArray(ListMembers(f, items, total).value) == Some((Rendered(f, items), ""))
  {
    var f := PageFormat(total);
    var all := ListMembers(f, items, total);
    PageWrites(total);
    ItemsAreValues(f, "description", items, records);
    ArrayIsValue(Rendered(f, items));
    PageNames();
    PageIsWellFormed(total);
    OneMemberMore("items", ArrayText(Rendered(f, items)), PageMembers(total));
    ListText(items, total);
    ObjectIsValue(all);
    ReadsObject(all, "");
    ReadsArray(Rendered(f, items), "");
    assert ObjectText(all) + "" == ObjectText(all);
    assert ArrayText(Rendered(f, items)) + "" == ArrayText(Rendered(f, items));
  }

  // ------------------------------------------------------------------------- goal

  function QuotedAll(texts: seq<string>): seq<string> {
    seq(|texts|, i requires 0 <= i < |texts| => Quote(JsonCode, texts[i]))
  }

  lemma {:induction false} QuotesAreElements(texts: seq<string>)
    ensures Quotes(JsonCode, texts) == ElementsText(QuotedAll(texts))
  {
    if |texts| > 1 {
      var front, last := texts[..|texts| - 1], texts[|texts| - 1];
      QuotesAreElements(front);
      assert QuotedAll(texts) == QuotedAll(front) + [Quote(JsonCode, last)];
      ElementsSnoc(QuotedAll(front), Quote(JsonCode, last));
      LastListed(Quotes(JsonCode, front), Quote(JsonCode, last));
    } else if |texts| == 1 {
      assert QuotedAll(texts) == [Quote(JsonCode, texts[0])];
    }
  }

  function GoalMembers(objective: string, constraints: seq<string>): Members {
    Member("objective", Quote(JsonCode, objective),
    Member("constraints", ArrayText(QuotedAll(constraints)),
    Member("required_context", ArrayText(CONTEXT_KINDS), Nil)))
  }

  /** The fixed parts of the goal section. */
  lemma GoalKeys()
    ensures "{\"objective\":" == "{" + Key("objective")
    ensures ",\"constraints\":[" == "," + Key("constraints") + "["
  {
  }

  lemma GoalText(objective: string, constraints: seq<string>)
    ensures RenderGoal(GoalFormat(JsonCode, GOAL_TAIL), objective, constraints)
         == ObjectText(GoalMembers(objective, constraints))
  {
    QuotesAreElements(constraints);
    GoalKeys();
    var context := Key("required_context") + ArrayText(CONTEXT_KINDS);
    assert context + [] == context;
    var all := GoalMembers(objective, constraints);
    assert MembersText(all.more.more) == context;
    assert MembersText(all.more) == Key("constraints") + ArrayText(QuotedAll(constraints)) + ("," + context);
    GoalJoins(Key("objective"), Quote(JsonCode, objective), Key("constraints"), Quotes(JsonCode, constraints), context);
  }

  lemma GoalJoins(first: string, objective: string, second: string, inner: string, context: string)
    ensures "{" + first + objective + ("," + second + "[") + inner + "]" + ("," + context + "}")
         == "{" + (first + objective + ("," + (second + ("[" + inner + "]") + ("," + context)))) + "}"
  {
    var front, listed := first + objective, second + ("[" + inner + "]");
    FrontJoins("{" + first + objective, second, inner);
    BackJoins(front, listed, context);
    assert "{" + first + objective == "{" + front;
  }

  lemma FrontJoins(front: string, second: string, inner: string)
    ensures front + ("," + second + "[") + inner + "]" == front + ("," + (second + ("[" + inner + "]")))
  {
  }

  lemma BackJoins(front: string, listed: string, context: string)
    ensures "{" + front + ("," + listed) + ("," + context + "}")
         == "{" + (front + ("," + (listed + ("," + context)))) + "}"
  {
  }

  lemma QuotedAllAreValues(texts: seq<string>)
    ensures AllValues(QuotedAll(texts))
  {
    forall e | e in QuotedAll(texts) ensures IsValue(e) && e != [] && e[0] != ']' {
      var i :| 0 <= i < |texts| && QuotedAll(texts)[i] == e;
      TextIsValue(texts[i]);
    }
  }

  lemma ThreeValues(a: string, b: string, c: string)
    requires IsValue(a) && IsValue(b) && IsValue(c) && a != [] && b != [] && c != []
    requires a[0] != ']' && b[0] != ']' && c[0] != ']'
    ensures AllValues([a, b, c])
  {
  }

  lemma KindsAreValues()
    ensures AllValues(CONTEXT_KINDS)
  {
    SimpleQuoted("projects");
    SimpleQuoted("tasks");
    SimpleQuoted("knowledge");
    ThreeValues(Quoted("projects"), Quoted("tasks"), Quoted("knowledge"));
  }

  lemma GoalNames()
    ensures Simple("objective") && Simple("constraints") && Simple("required_context")
  {
  }

  /** The goal section is one value, and objective and constraints are read back from it as they are
      shown. */
  lemma GoalReadsBack(objective: string, constraints: seq<string>)
    ensures var text := RenderGoal(GoalFormat(JsonCode, GOAL_TAIL), objective, constraints);
            && IsValue(text)
            && ReadObject(text) == Some((GoalMembers(objective, constraints), ""))
            && ReadText(GoalMembers(objective, constraints).value) == Some(objective)
            && ReadArray(GoalMembers(objective, constraints).more.value) == Some((QuotedAll(constraints), ""))
            && forall i :: 0 <= i < |constraints| ==> ReadText(QuotedAll(constraints)[i]) == Some(constraints[i])
  {
    var all := GoalMembers(objective, constraints);
    GoalText(objective, constraints);
    GoalNames();
    KindsAreValues();
    ArrayIsValue(CONTEXT_KINDS);
    OneMemberMore("required_context", ArrayText(CONTEXT_KINDS), Nil);
    QuotedAllAreValues(constraints);
    ArrayIsValue(QuotedAll(constraints));
    OneMemberMore("constraints", ArrayText(QuotedAll(constraints)), all.more.more);
    TextIsValue(objective);
    OneMemberMore("objective", Quote(JsonCode, objective), all.more);
    ObjectIsValue(all);
    ReadsObject(all, "");
    assert ObjectText(all) + "" == ObjectText(all);
    ReadsText(objective);
    ReadsArray(QuotedAll(constraints), "");
    assert ArrayText(QuotedAll(constraints)) + "" == ArrayText(QuotedAll(constraints));
    forall i | 0 <= i < |constraints| ensures ReadText(QuotedAll(constraints)[i]) == Some(constraints[i]) {
      ReadsText(constraints[i]);
    }
  }

  // --------------------------------------------------------------------- manifest

  lemma ManifestNames()
    ensures Simple("truncated") && Simple("objective_truncated") && Simple("omitted") && Simple("items_omitted")
    ensures Simple(CUT_DESCRIPTIONS) && Simple(CUT_EXCERPTS)
  {
  }

  lemma SectionNames()
    ensures Simple("goal_constraints") && Simple("revision_feedback") && Simple("projects") && Simple("tasks")
    ensures Simple("grounding")
  {
  }

  lemma ListManifestIsValue(p: Projection, cut: string)
    requires cut == CUT_DESCRIPTIONS || cut == CUT_EXCERPTS
    ensures IsValue(ListManifest(p, cut))
  {
    ManifestNames();
    var last := Member("items_omitted", Decimal(p.itemsOmitted), Nil);
    NumberIsValue(p.itemsOmitted);
    OneMemberMore("items_omitted", Decimal(p.itemsOmitted), Nil);
    NumberIsValue(p.textsTruncated);
    OneMemberMore(cut, Decimal(p.textsTruncated), last);
    FlagIsValue(p.truncated);
    OneMemberMore("truncated", Flag(p.truncated), Member(cut, Decimal(p.textsTruncated), last));
    ObjectIsValue(Member("truncated", Flag(p.truncated), Member(cut, Decimal(p.textsTruncated), last)));
  }

  lemma GoalManifestIsValue(g: GoalSection)
    ensures IsValue(GoalManifest(g))
  {
    ManifestNames();
    var last := Member("omitted", Integer(g.omitted), Nil);
    var more := Member("objective_truncated", Flag(g.objectiveTruncated), last);
    IntegerIsValue(g.omitted);
    OneMemberMore("omitted", Integer(g.omitted), Nil);
    FlagIsValue(g.objectiveTruncated);
    OneMemberMore("objective_truncated", Flag(g.objectiveTruncated), last);
    FlagIsValue(g.truncated);
    OneMemberMore("truncated", Flag(g.truncated), more);
    ObjectIsValue(Member("truncated", Flag(g.truncated), more));
  }

  lemma FeedbackManifestIsValue(t: TextSection)
    ensures IsValue(FeedbackManifest(t))
  {
    ManifestNames();
    FlagIsValue(t.truncated);
    OneMemberMore("truncated", Flag(t.truncated), Nil);
    ObjectIsValue(Member("truncated", Flag(t.truncated), Nil));
  }

  lemma ManifestIsValue(s: Sections)
    ensures IsValue(Manifest(s))
  {
    SectionNames();
    var m := ManifestMembers(s);
    ListManifestIsValue(s.grounding, CUT_EXCERPTS);
    OneMemberMore("grounding", ListManifest(s.grounding, CUT_EXCERPTS), Nil);
    ListManifestIsValue(s.tasks, CUT_DESCRIPTIONS);
    OneMemberMore("tasks", ListManifest(s.tasks, CUT_DESCRIPTIONS), m.more.more.more.more);
    ListManifestIsValue(s.projects, CUT_DESCRIPTIONS);
    OneMemberMore("projects", ListManifest(s.projects, CUT_DESCRIPTIONS), m.more.more.more);
    FeedbackManifestIsValue(s.feedback);
    OneMemberMore("revision_feedback", FeedbackManifest(s.feedback), m.more.more);
    GoalManifestIsValue(s.goal);
    OneMemberMore("goal_constraints", GoalManifest(s.goal), m.more);
    ObjectIsValue(m);
  }

  // ------------------------------------------------------------------- the prompt

  const PROMPT_HEADER := "Untrusted planning data JSON:\n"
  const EVIDENCE_HEADING := "\n\nRetrieved knowledge evidence:\n"

  /** Read the data behind the header, and then the evidence behind its heading. */
  function ReadPrompt(text: string): Option<(Members, string)> {
    if !StartsWith(text, PROMPT_HEADER) then None
    else
      var data := ReadObject(text[|PROMPT_HEADER|..]);
      if data.None? || !StartsWith(data.value.1, EVIDENCE_HEADING) then None
      else Some((data.value.0, data.value.1[|EVIDENCE_HEADING|..]))
  }

  predicate StartsWith(text: string, prefix: string) {
    |prefix| <= |text| && text[..|prefix|] == prefix
  }

  lemma WithoutPrefix(prefix: string, rest: string)
    ensures StartsWith(prefix + rest, prefix) && (prefix + rest)[|prefix|..] == rest
  {
  }

  function PromptMembers(s: Sections): Members {
    Member("goal_analysis", s.goal.serialized,
    Member("revision_feedback", s.feedback.serialized,
    Member("projects", s.projects.serialized,
    Member("tasks", s.tasks.serialized,
    Member("truncation", Manifest(s), Nil)))))
  }

  lemma PromptNames()
    ensures Simple("goal_analysis") && Simple("revision_feedback") && Simple("projects") && Simple("tasks")
    ensures Simple("truncation")
  {
  }

  lemma GoalKey()
    ensures "Untrusted planning data JSON:\n{\"goal_analysis\":" == PROMPT_HEADER + ("{" + Key("goal_analysis"))
  {
  }

  lemma FeedbackKey()
    ensures ",\"revision_feedback\":" == "," + Key("revision_feedback")
  {
  }

  lemma ListKeys()
    ensures ",\"projects\":" == "," + Key("projects") && ",\"tasks\":" == "," + Key("tasks")
  {
  }

  lemma TruncationKey()
    ensures ",\"truncation\":" == "," + Key("truncation")
  {
  }

  /** The sections are complete values. */
  ghost predicate SectionsAreValues(s: Sections) {
    && IsValue(s.goal.serialized) && IsValue(s.feedback.serialized)
    && IsValue(s.projects.serialized) && IsValue(s.tasks.serialized)
  }

  lemma PromptIsWellFormed(s: Sections)
    requires SectionsAreValues(s)
    ensures WellFormed(PromptMembers(s))
  {
    PromptNames();
    var m := PromptMembers(s);
    ManifestIsValue(s);
    OneMemberMore("truncation", Manifest(s), Nil);
    OneMemberMore("tasks", s.tasks.serialized, m.more.more.more.more);
    OneMemberMore("projects", s.projects.serialized, m.more.more.more);
    OneMemberMore("revision_feedback", s.feedback.serialized, m.more.more);
    OneMemberMore("goal_analysis", s.goal.serialized, m.more);
  }

  /** What follows a member, with the member put before it. */
  lemma NextPart(key: string, name: string, value: string, more: Members, rest: string, after: string, text: string)
    requires key == "," + Key(name) && more.Member?
    requires after == "," + (MembersText(more) + "}" + rest) && text == key + value + after
    ensures text == "," + (MembersText(Member(name, value, more)) + "}" + rest)
  {
    Chained(Key(name) + value, MembersText(more), rest);
    assert "," + Key(name) + value + after == "," + (Key(name) + value + after);
  }

  lemma LastPart(key: string, name: string, value: string, rest: string, text: string)
    requires key == "," + Key(name) && text == key + value + ("}" + rest)
    ensures text == "," + (MembersText(Member(name, value, Nil)) + "}" + rest)
  {
    assert Key(name) + value + [] == Key(name) + value;
    assert "," + Key(name) + value + ("}" + rest) == "," + (Key(name) + value + "}" + rest);
  }

  lemma FirstPart(header: string, name: string, value: string, more: Members, rest: string, after: string)
    requires more.Member? && after == "," + (MembersText(more) + "}" + rest)
    ensures header + ("{" + Key(name)) + value + after
         == header + (ObjectText(Member(name, value, more)) + rest)
  {
    Chained(Key(name) + value, MembersText(more), rest);
    var all := Key(name) + value + ("," + MembersText(more));
    assert header + ("{" + Key(name)) + value + after == header + ("{" + (Key(name) + value + after));
    assert "{" + (all + "}" + rest) == "{" + all + "}" + rest;
  }

  lemma Chained(first: string, more: string, rest: string)
    ensures first + ("," + (more + "}" + rest)) == first + ("," + more) + "}" + rest
  {
  }

  /** What follows the header's key. */
  lemma PartsFollow(s: Sections, rest: string, r1: string, r2: string, r3: string, r4: string)
    requires r1 == ",\"revision_feedback\":" + s.feedback.serialized + r2
    requires r2 == ",\"projects\":" + s.projects.serialized + r3
    requires r3 == ",\"tasks\":" + s.tasks.serialized + r4
    requires r4 == ",\"truncation\":" + Manifest(s) + ("}" + rest)
    ensures r1 == "," + (MembersText(PromptMembers(s).more) + "}" + rest)
  {
    var m := PromptMembers(s);
    TruncationKey();
    LastPart(",\"truncation\":", "truncation", Manifest(s), rest, r4);
    ListKeys();
    NextPart(",\"tasks\":", "tasks", s.tasks.serialized, m.more.more.more.more, rest, r4, r3);
    NextPart(",\"projects\":", "projects", s.projects.serialized, m.more.more.more, rest, r3, r2);
    FeedbackKey();
    NextPart(",\"revision_feedback\":", "revision_feedback", s.feedback.serialized, m.more.more, rest, r2, r1);
  }

  lemma EvidenceKey()
    ensures "}\n\nRetrieved knowledge evidence:\n" == "}" + EVIDENCE_HEADING
  {
  }

  lemma Closes(heading: string, evidence: string)
    ensures "}" + heading + evidence == "}" + (heading + evidence)
  {
  }

  /** The assembled text as header, object, heading and evidence. */
  lemma AssembledText(s: Sections)
    ensures Assemble(Manifest, s)
         == PROMPT_HEADER + (ObjectText(PromptMembers(s)) + (EVIDENCE_HEADING + s.grounding.serialized))
  {
    var r1, r2, r3, r4, r5 := AssembledParts(Manifest, s);
    var rest := EVIDENCE_HEADING + s.grounding.serialized;
    EvidenceKey();
    Closes(EVIDENCE_HEADING, s.grounding.serialized);
    PartsFollow(s, rest, r1, r2, r3, r4);
    GoalKey();
    FirstPart(PROMPT_HEADER, "goal_analysis", s.goal.serialized, PromptMembers(s).more, rest, r1);
  }

  /** The prompt is read back: its five parts under their names, and its evidence. */
  lemma PromptReadsBack(s: Sections)
    requires SectionsAreValues(s)
    ensures ReadPrompt(Assemble(Manifest, s)) == Some((PromptMembers(s), s.grounding.serialized))
  {
    var rest := EVIDENCE_HEADING + s.grounding.serialized;
    AssembledText(s);
    WithoutPrefix(PROMPT_HEADER, ObjectText(PromptMembers(s)) + rest);
    PromptIsWellFormed(s);
    ReadsObject(PromptMembers(s), rest);
    WithoutPrefix(EVIDENCE_HEADING, s.grounding.serialized);
  }

  // ------------------------------------------------------------------ every request

  function ProjectRecords(r: Request): Records {
    (i: nat) => if i < |r.projects| then ProjectMembers(r.projects[i]) else Nil
  }

  function TaskRecords(r: Request): Records {
    (i: nat) => if i < |r.tasks| then TaskMembers(r.tasks[i]) else Nil
  }

  /** Items keep the identity that they had in the source. */
  lemma IdentitiesStay(marks: Marks, render: ListRenderer, items: seq<Item>, budget: int, p: Projection, i: nat)
    requires HonestList(marks, render, items, budget, p) && i < |p.items|
    ensures p.items[i].identity == items[i].identity
  {
    assert |Stage(items, p.items, i)| == |p.items|;
  }

  lemma ProjectsAreRecords(marks: Marks, r: Request, budget: int, p: Projection)
    requires forall x :: x in r.projects ==> ProjectInLimits(x)
    requires HonestList(marks, Serializer(PageFormat(r.projectTotal)), SourceOf(r).projects, budget, p)
    ensures ShowsRecords(p.items, ProjectRecords(r))
  {
    forall i: nat | i < |p.items|
      ensures p.items[i].identity == "{" + MembersText(ProjectRecords(r)(i))
              && WellFormed(ProjectRecords(r)(i)) && ProjectRecords(r)(i).Member?
    {
      IdentitiesStay(marks, Serializer(PageFormat(r.projectTotal)), SourceOf(r).projects, budget, p, i);
      assert r.projects[i] in r.projects;
      ProjectIsWellFormed(r.projects[i]);
    }
  }

  lemma TasksAreRecords(marks: Marks, r: Request, budget: int, p: Projection)
    requires forall x :: x in r.tasks ==> TaskInLimits(x)
    requires HonestList(marks, Serializer(PageFormat(r.taskTotal)), SourceOf(r).tasks, budget, p)
    ensures ShowsRecords(p.items, TaskRecords(r))
  {
    forall i: nat | i < |p.items|
      ensures p.items[i].identity == "{" + MembersText(TaskRecords(r)(i))
              && WellFormed(TaskRecords(r)(i)) && TaskRecords(r)(i).Member?
    {
      IdentitiesStay(marks, Serializer(PageFormat(r.taskTotal)), SourceOf(r).tasks, budget, p, i);
      assert r.tasks[i] in r.tasks;
      TaskIsWellFormed(r.tasks[i]);
    }
  }

  lemma FeedbackIsValue(marks: Marks, feedback: Option<string>, budget: int, t: TextSection)
    requires HonestFeedback(marks, QuoteSerializer(JsonCode), feedback, budget, t)
    ensures IsValue(t.serialized)
  {
    if t.shown.None? {
      NullIsValue();
    } else {
      TextIsValue(t.shown.value);
    }
  }

  /** What the two page sections are. */
  ghost predicate PagesAreRecords(r: Request, s: Sections) {
    && ShowsRecords(s.projects.items, ProjectRecords(r)) && ShowsRecords(s.tasks.items, TaskRecords(r))
    && s.projects.serialized == RenderList(PageFormat(r.projectTotal), s.projects.items)
    && s.tasks.serialized == RenderList(PageFormat(r.taskTotal), s.tasks.items)
  }

  lemma ToldSections(marks: Marks, r: Request, n: Budgets, s: Sections)
    requires WithinFieldLimits(r) && TellsAll(marks, SourceOf(r), JsonFormat(r), n, s)
    ensures PagesAreRecords(r, s) && SectionsAreValues(s)
    ensures s.goal.serialized == RenderGoal(GoalFormat(JsonCode, GOAL_TAIL), s.goal.objective, s.goal.constraints)
  {
    ProjectsAreRecords(marks, r, n.projects, s.projects);
    TasksAreRecords(marks, r, n.tasks, s.tasks);
    ListReadsBack(s.projects.items, r.projectTotal, ProjectRecords(r));
    ListReadsBack(s.tasks.items, r.taskTotal, TaskRecords(r));
    GoalReadsBack(s.goal.objective, s.goal.constraints);
    FeedbackIsValue(marks, r.feedback, FEEDBACK_BUDGET, s.feedback);
  }

  // ------------------------------------------------------------- what is read back

  /** The elements under the first member of a page section. */
  function ReadItems(text: string): Option<seq<string>> {
    var page := ReadObject(text);
    if page.None? || page.value.1 != [] || page.value.0.Nil? || page.value.0.name != "items" then None
    else
      var items := ReadArray(page.value.0.value);
      if items.None? || items.value.1 != [] then None else Some(items.value.0)
  }

  /** Each item is read back as the members of its own record, with what is shown of its long text. */
  ghost predicate ItemsTold(items: seq<Projected>, records: Records, text: string) {
    var elements := ReadItems(text);
    && elements.Some? && |elements.value| == |items|
    && forall i: nat :: i < |items| ==>
         ReadObject(elements.value[i])
         == Some((ShownMembers(records(i), "description", JsonCode, items[i].text), ""))
  }

  /** Objective and constraints are read back as they are shown. */
  ghost predicate GoalTold(g: GoalSection, text: string) {
    var goal := ReadObject(text);
    && goal.Some? && goal.value.1 == [] && goal.value.0.Member? && goal.value.0.more.Member?
    && goal.value.0.name == "objective" && ReadText(goal.value.0.value) == Some(g.objective)
    && goal.value.0.more.name == "constraints"
    && var constraints := ReadArray(goal.value.0.more.value);
       && constraints.Some? && constraints.value.1 == [] && |constraints.value.0| == |g.constraints|
       && forall i :: 0 <= i < |g.constraints| ==> ReadText(constraints.value.0[i]) == Some(g.constraints[i])
  }

  ghost predicate FeedbackTold(t: TextSection, text: string) {
    if t.shown.None? then text == "null" else ReadText(text) == t.shown
  }

  /** A reader finds the five parts under their names and the evidence behind its heading; in each part
      it finds what the section shows, item by item. */
  ghost predicate PromptTold(r: Request, s: Sections, text: string) {
    var read := ReadPrompt(text);
    && read == Some((PromptMembers(s), s.grounding.serialized))
    && GoalTold(s.goal, s.goal.serialized) && FeedbackTold(s.feedback, s.feedback.serialized)
    && ItemsTold(s.projects.items, ProjectRecords(r), s.projects.serialized)
    && ItemsTold(s.tasks.items, TaskRecords(r), s.tasks.serialized)
  }

  lemma ItemsAreTold(items: seq<Projected>, total: nat, records: Records)
    requires ShowsRecords(items, records)
    ensures ItemsTold(items, records, RenderList(PageFormat(total), items))
  {
    var f := PageFormat(total);
    ListReadsBack(items, total, records);
    PageWrites(total);
    forall i: nat | i < |items|
      ensures ReadObject(Rendered(f, items)[i])
           == Some((ShownMembers(records(i), "description", JsonCode, items[i].text), ""))
    {
      ItemReadsBack(f, "description", records(i), items[i].text);
      assert items[i] == Projected("{" + MembersText(records(i)), items[i].text);
    }
  }

  lemma GoalIsTold(g: GoalSection)
    requires g.serialized == RenderGoal(GoalFormat(JsonCode, GOAL_TAIL), g.objective, g.constraints)
    ensures GoalTold(g, g.serialized)
  {
    GoalReadsBack(g.objective, g.constraints);
  }

  lemma FeedbackIsTold(marks: Marks, feedback: Option<string>, budget: int, t: TextSection)
    requires HonestFeedback(marks, QuoteSerializer(JsonCode), feedback, budget, t)
    ensures FeedbackTold(t, t.serialized)
  {
    if t.shown.Some? {
      ReadsText(t.shown.value);
    }
  }

  lemma ToldPrompt(marks: Marks, r: Request, n: Budgets, s: Sections)
    requires WithinFieldLimits(r) && TellsAll(marks, SourceOf(r), JsonFormat(r), n, s)
    ensures PromptTold(r, s, Assemble(Manifest, s))
  {
    ToldSections(marks, r, n, s);
    PromptReadsBack(s);
    GoalIsTold(s.goal);
    FeedbackIsTold(marks, r.feedback, FEEDBACK_BUDGET, s.feedback);
    ItemsAreTold(s.projects.items, r.projectTotal, ProjectRecords(r));
    ItemsAreTold(s.tasks.items, r.taskTotal, TaskRecords(r));
  }

  lemma RequestIsTold(marks: Marks, r: Request)
    requires WithinFieldLimits(r) && FinalSections(PromptBuilders(marks, r)).Some?
    ensures var s := FinalSections(PromptBuilders(marks, r)).value; PromptTold(r, s, Assemble(Manifest, s))
  {
    var b := PromptBuilders(marks, r);
    BuildersBuild(marks, SourceOf(r), JsonFormat(r));
    FinalSectionsTellAll(marks, SourceOf(r), JsonFormat(r), b);
    ToldPrompt(marks, r, SecondBudgets(b, FirstPass(b).value), FinalSections(b).value);
  }

  /** The program on its own records: refused exactly by overrun, and whatever the texts of the request
      contain, a reader finds every section and every item of the returned prompt in its place. */
  method BuildBudgetedAgentPlanInput(marks: Marks, r: Request) returns (input: Option<string>)
    requires WithinFieldLimits(r)
    ensures FinalSections(PromptBuilders(marks, r)).Some?
    ensures var s := FinalSections(PromptBuilders(marks, r)).value;
            && (input.Some? <==> SectionLength(s) <= SECTION_TOTAL + Spare(s))
            && (input.Some? ==> PromptTold(r, s, input.value))
  {
    RefusedOnlyByOverrun(marks, r);
    RequestIsTold(marks, r);
    input := BuildPlanInput(marks, SourceOf(r), JsonFormat(r));
  }

  // ----------------------------------------------------------- fields of the records

  /** The members of a project are its fields. */
  lemma ProjectFields(p: Project)
    ensures var m := ProjectMembers(p);
            && m.name == "id" && m.value == Quoted(p.id)
            && m.more.name == "name" && ReadText(m.more.value) == Some(p.name)
            && var n := m.more.more;
               && n.name == "start_date" && n.value == OptionalText(p.startDate)
               && n.more.name == "target_date" && n.more.value == OptionalText(p.targetDate)
               && n.more.more.name == "status" && n.more.more.value == Quoted(p.status)
               && StampsTold(n.more.more.more, p.createdAt, p.updatedAt)
  {
    ReadsText(p.name);
  }

  predicate StampsTold(m: Members, createdAt: string, updatedAt: string) {
    m == Member("created_at", Quoted(createdAt), Member("updated_at", Quoted(updatedAt), Nil))
  }

  /** The members of a task are its fields. */
  lemma TaskFields(t: Task)
    ensures var m := TaskMembers(t);
            && m.name == "id" && m.value == Quoted(t.id)
            && m.more.name == "project_id" && m.more.value == Quoted(t.project)
            && m.more.more.name == "title" && ReadText(m.more.more.value) == Some(t.title)
            && var n := m.more.more.more;
               && n.name == "status" && n.value == Quoted(t.status)
               && n.more.name == "priority" && n.more.value == Quoted(t.priority)
               && n.more.more.name == "planned_date" && n.more.more.value == OptionalText(t.plannedDate)
               && var o := n.more.more.more;
                  && o.name == "due_at" && o.value == OptionalText(t.dueAt)
                  && o.more.name == "estimated_minutes" && o.more.value == OptionalNumber(t.estimatedMinutes)
                  && o.more.more.name == "completed_at" && o.more.more.value == OptionalText(t.completedAt)
                  && StampsTold(o.more.more.more, t.createdAt, t.updatedAt)
  {
    ReadsText(t.title);
  }
}
