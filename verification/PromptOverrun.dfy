/** Requests within all field limits whose sections exceed the total after redistribution, by any
    amount up to 2,000, and whose prompts are refused for it alone. */
module PromptOverrun {
  import opened Options
  import opened ReceiptText
  import opened PromptText
  import opened JsonText
  import opened PromptLists
  import opened PromptGoal
  import opened PromptBudget
  import opened PromptLedger
  import opened PromptRecords

  // ---------------------------------------------------------------- the request

  function Filler(n: nat): (text: string)
    ensures |text| == n && forall c :: c in text ==> c == 'a'
  {
    seq(n, _ => 'a')
  }

  /** Characters that take seven each once they are escaped and serialized. */
  function Angles(n: nat): (text: string)
    ensures |text| == n && forall c :: c in text ==> c == '<'
  {
    seq(n, _ => '<')
  }

  const TIME := "2026-01-01T00:00:00Z"

  /** The k-th identifier of its kind. */
  function Uuid(kind: nat, k: nat): string
    requires kind < 10 && k < 10
  {
    "00000000-0000-4000-8000-0000000000" + [Digit(kind), Digit(k)]
  }

  /** The only chunk of the k-th document, whose name has this many angle brackets. */
  function Chunk(k: nat, brackets: nat, score: string, excerpt: string): Citation
    requires k < 10
  {
    Citation(Uuid(1, k), Uuid(2, k), Angles(brackets) + ".txt", None, 0, Some(k), None, score, excerpt)
  }

  function First(): Citation {
    Chunk(1, 251, "0.01639344262295082", "a")
  }

  function Second(): Citation {
    Chunk(2, 44, "0.016129032258064516", "a")
  }

  function Third(): Citation {
    Chunk(3, 251, "0.015873015873015872", Angles(300))
  }

  function Fourth(): Citation {
    Chunk(4, 251, "0.015625", Angles(300))
  }

  function TheEvidence(): seq<Citation> {
    [First(), Second(), Third(), Fourth()]
  }

  function TheProject(): Project {
    Project(Uuid(3, 1), "a", Some(Filler(2000)), None, None, "IN_PROGRESS", TIME, TIME)
  }

  function TheTask(): Task {
    Task(Uuid(4, 1), Uuid(3, 1), "a", Some(Filler(4054)), "TODO", "MEDIUM", None, None, None, None, TIME, TIME)
  }

  /** One project, one task, four pieces of evidence, and an objective of n characters. */
  function OverrunRequest(n: nat): Request {
    Request(Filler(n), [], None, [TheProject()], 1, [TheTask()], 1, TheEvidence())
  }

  // ----------------------------------------------------------------- its measures

  /** What of a citation decides its length. */
  predicate CitationShape(c: Citation, brackets: nat, score: nat, excerpt: string) {
    && |c.document| == 36 && |c.chunk| == 36 && c.source == Angles(brackets) + ".txt" && c.excerpt == excerpt
    && c.page.None? && c.ordinal < 10 && c.vectorRank.Some? && c.vectorRank.value < 10 && c.lexicalRank.None?
    && |c.score| == score
  }

  predicate ProjectShape(p: Project) {
    && |p.id| == 36 && p.name == "a" && p.description == Some(Filler(2000))
    && p.startDate.None? && p.targetDate.None? && |p.status| == 11 && |p.createdAt| == 20 && |p.updatedAt| == 20
  }

  predicate TaskShape(t: Task) {
    && |t.id| == 36 && |t.project| == 36 && t.title == "a" && t.description == Some(Filler(4054))
    && |t.status| == 4 && |t.priority| == 6 && t.plannedDate.None? && t.dueAt.None?
    && t.estimatedMinutes.None? && t.completedAt.None? && |t.createdAt| == 20 && |t.updatedAt| == 20
  }

  predicate EvidenceShape(e: seq<Citation>) {
    && |e| == 4
    && CitationShape(e[0], 251, 19, "a") && CitationShape(e[1], 44, 20, "a")
    && CitationShape(e[2], 251, 20, Angles(300)) && CitationShape(e[3], 251, 8, Angles(300))
  }

  predicate RequestShape(r: Request, n: nat) {
    && r.objective == Filler(n) && r.constraints == [] && r.feedback == None
    && r.projectTotal == 1 && |r.projects| == 1 && ProjectShape(r.projects[0])
    && r.taskTotal == 1 && |r.tasks| == 1 && TaskShape(r.tasks[0])
    && EvidenceShape(r.evidence)
  }

  lemma ChunkShape(k: nat, brackets: nat, score: string, excerpt: string)
    requires k < 10
    ensures CitationShape(Chunk(k, brackets, score, excerpt), brackets, |score|, excerpt)
  {
    UuidLength(1, k);
    UuidLength(2, k);
  }

  lemma RequestIsShaped(n: nat)
    ensures RequestShape(OverrunRequest(n), n)
  {
    UuidLength(3, 1);
    UuidLength(4, 1);
    TimeIsTime();
    ChunkShape(1, 251, First().score, "a");
    ChunkShape(2, 44, Second().score, "a");
    ChunkShape(3, 251, Third().score, Angles(300));
    ChunkShape(4, 251, Fourth().score, Angles(300));
  }

  // ---------------------------------------------------------------------- limits

  lemma PlainIsBounded(n: nat, maximum: nat)
    requires 1 <= n <= maximum
    ensures Bounded(Filler(n), maximum)
  {
    assert Filler(n)[0] in Filler(n) && Filler(n)[n - 1] in Filler(n);
  }

  lemma NameIsBounded(brackets: nat)
    requires 1 <= brackets <= 251
    ensures Bounded(Angles(brackets) + ".txt", 255)
  {
    var name := Angles(brackets) + ".txt";
    assert name[0] == Angles(brackets)[0] && Angles(brackets)[0] in Angles(brackets);
    assert name[|name| - 1] == 't';
  }

  lemma UuidLength(kind: nat, k: nat)
    requires kind < 10 && k < 10
    ensures |Uuid(kind, k)| == 36 && Simple(Uuid(kind, k))
  {
  }

  lemma TimeIsTime()
    ensures |TIME| == 20 && Simple(TIME)
  {
  }

  lemma ChunkInLimits(k: nat, brackets: nat, score: string, excerpt: string)
    requires 1 <= k < 10 && 1 <= brackets <= 251 && 1 <= |excerpt| <= 500
    requires 3 <= |score| <= 24 && Simple(score)
    ensures CitationInLimits(Chunk(k, brackets, score, excerpt))
  {
    UuidLength(1, k);
    UuidLength(2, k);
    NameIsBounded(brackets);
  }

  lemma ScoresAreSimple()
    ensures Simple("0.01639344262295082") && Simple("0.016129032258064516")
    ensures Simple("0.015873015873015872") && Simple("0.015625")
  {
  }

  lemma EvidenceInLimits(k: nat)
    requires k < 4
    ensures CitationInLimits(TheEvidence()[k])
  {
    ScoresAreSimple();
    match k {
      case 0 => ChunkInLimits(1, 251, "0.01639344262295082", "a");
      case 1 => ChunkInLimits(2, 44, "0.016129032258064516", "a");
      case 2 => ChunkInLimits(3, 251, "0.015873015873015872", Angles(300));
      case _ => ChunkInLimits(4, 251, "0.015625", Angles(300));
    }
  }

  lemma EvidenceIsDistinct()
    ensures var e := TheEvidence(); forall i, j :: 0 <= i < j < |e| ==> e[i].document != e[j].document
  {
    DocumentsDiffer(1, 2);
    DocumentsDiffer(1, 3);
    DocumentsDiffer(1, 4);
    DocumentsDiffer(2, 3);
    DocumentsDiffer(2, 4);
    DocumentsDiffer(3, 4);
  }

  lemma ProjectIsInLimits()
    ensures ProjectInLimits(TheProject())
  {
    UuidLength(3, 1);
    PlainIsBounded(2000, 2000);
    TimeIsTime();
  }

  lemma TaskIsInLimits()
    ensures TaskInLimits(TheTask())
  {
    UuidLength(4, 1);
    UuidLength(3, 1);
    PlainIsBounded(4054, 5000);
    TimeIsTime();
  }

  lemma {:induction false} TenToIsPositive(d: nat)
    ensures TenTo(d) >= 1
  {
    if d > 0 {
      TenToIsPositive(d - 1);
    }
  }

  lemma DocumentsDiffer(j: nat, k: nat)
    requires j < 10 && k < 10 && j != k
    ensures Uuid(1, j) != Uuid(1, k)
  {
    assert Uuid(1, j)[35] == Digit(j) && Uuid(1, k)[35] == Digit(k);
  }

  lemma RequestInLimits(n: nat)
    requires 1 <= n <= 2000
    ensures WithinFieldLimits(OverrunRequest(n))
  {
    PlainIsBounded(n, 2000);
    TenToIsPositive(18);
    ProjectIsInLimits();
    TaskIsInLimits();
    forall c | c in TheEvidence() ensures CitationInLimits(c) {
      var k: nat :| k < 4 && TheEvidence()[k] == c;
      EvidenceInLimits(k);
    }
    EvidenceIsDistinct();
  }

  // -------------------------------------------------------------------- lengths

  lemma PlainLength(code: char -> string, n: nat)
    requires |code('a')| == 1
    ensures |Encode(code, Filler(n))| == n
  {
    EncodeLength(code, Filler(n), 1);
  }

  lemma BracketLength()
    ensures |EvidenceCode('<')| == 7
  {
    assert BoundaryCode('<') == "\\" + "u003c";
    EncodeConcat(JsonCode, "\\", "u003c");
    EncodeLength(JsonCode, "u003c", 1);
    EncodeLength(JsonCode, "\\", 2);
  }

  lemma PlainCharLength(c: char)
    requires c as int >= 32 && c != '\"' && c != '\\' && c != '<' && c != '>'
    ensures |EvidenceCode(c)| == 1
  {
    EncodeLength(JsonCode, [c], 1);
  }

  lemma SuffixLength()
    ensures |Encode(EvidenceCode, ".txt")| == 4
  {
    PlainCharLength('.');
    PlainCharLength('t');
    PlainCharLength('x');
    EncodeLength(EvidenceCode, ".txt", 1);
  }

  lemma NameLength(brackets: nat)
    ensures |Quote(EvidenceCode, Angles(brackets) + ".txt")| == 7 * brackets + 6
  {
    BracketLength();
    SuffixLength();
    EncodeConcat(EvidenceCode, Angles(brackets), ".txt");
    EncodeLength(EvidenceCode, Angles(brackets), 7);
  }

  lemma PlaceLength(c: Citation)
    requires c.page.None? && c.ordinal < 10 && c.vectorRank.Some? && c.vectorRank.value < 10 && c.lexicalRank.None?
    ensures |MembersText(PlaceMembers(c))| == 82 + |c.score|
  {
    var m := PlaceMembers(c);
    MembersLength(m.name, m.value, m.more);
    MembersLength(m.more.name, m.more.value, m.more.more);
    var n := m.more.more;
    MembersLength(n.name, n.value, n.more);
    MembersLength(n.more.name, n.more.value, n.more.more);
    MembersLength("fusion_score", c.score, Nil);
  }

  lemma CitationLength(c: Citation, brackets: nat, score: nat, excerpt: string)
    requires CitationShape(c, brackets, score, excerpt)
    ensures |CitationItem(c).identity| == 302 + 7 * brackets + score
  {
    NameLength(brackets);
    PlaceLength(c);
    var m := CitationMembers(c);
    MembersLength(m.name, m.value, m.more);
    MembersLength(m.more.name, m.more.value, m.more.more);
    var n := m.more.more;
    MembersLength(n.name, n.value, n.more);
    MembersLength(n.more.name, n.more.value, n.more.more);
  }

  const FORMAT := GroundingFormat(true)

  lemma FormatLength()
    ensures |FORMAT.head| + |FORMAT.tail| == 212 && |FORMAT.field| == 11
  {
    GroundingHeadLength(EVIDENCE_NOTICE);
    NoticesAreShort();
  }

  /** How long an item is without and with its text. */
  predicate Measures(f: ListFormat, item: Item, bare: nat, whole: nat) {
    |RenderItem(f, IdentityOnly(item))| == bare && |RenderItem(f, Whole(item))| == whole
  }

  lemma ItemMeasures(f: ListFormat, item: Item, size: nat)
    requires item.text.Some? && |Encode(f.code, item.text.value)| == size
    ensures Measures(f, item, |item.identity| + 1, |item.identity| + |f.field| + size + 3)
  {
  }

  lemma CitationMeasures(c: Citation, brackets: nat, score: nat, excerpt: string, size: nat)
    requires CitationShape(c, brackets, score, excerpt) && |Encode(EvidenceCode, excerpt)| == size
    ensures var bare := 303 + 7 * brackets + score; Measures(FORMAT, CitationItem(c), bare, bare + size + 13)
  {
    CitationLength(c, brackets, score, excerpt);
    FormatLength();
    ItemMeasures(FORMAT, CitationItem(c), size);
  }

  lemma ExcerptLengths()
    ensures |Encode(EvidenceCode, "a")| == 1 && |Encode(EvidenceCode, Angles(300))| == 2100
  {
    BracketLength();
    PlainCharLength('a');
    EncodeLength(EvidenceCode, "a", 1);
    EncodeLength(EvidenceCode, Angles(300), 7);
  }

  lemma ListedLast(f: ListFormat, items: seq<Projected>, p: Projected)
    ensures |Listed(f, items + [p])| == (if items == [] then 0 else |Listed(f, items)| + 1) + |RenderItem(f, p)|
  {
    assert (items + [p])[..|items|] == items;
  }

  lemma TwoItems(f: ListFormat, a: Projected, b: Projected)
    ensures |Listed(f, [a, b])| == |RenderItem(f, a)| + 1 + |RenderItem(f, b)|
  {
    ListedLast(f, [a], b);
    assert [a] + [b] == [a, b];
  }

  lemma ThreeItems(f: ListFormat, a: Projected, b: Projected, c: Projected)
    ensures |Listed(f, [a, b, c])| == |Listed(f, [a, b])| + 1 + |RenderItem(f, c)|
  {
    ListedLast(f, [a, b], c);
    assert [a, b] + [c] == [a, b, c];
  }

  lemma FourItems(f: ListFormat, a: Projected, b: Projected, c: Projected, d: Projected)
    ensures |Listed(f, [a, b, c, d])| == |Listed(f, [a, b, c])| + 1 + |RenderItem(f, d)|
  {
    ListedLast(f, [a, b, c], d);
    assert [a, b, c] + [d] == [a, b, c, d];
  }

  // ------------------------------------------------------------------- evidence

  /** Four pieces of evidence of these lengths: the first two leave no room for the third. */
  predicate Measured(f: ListFormat, items: seq<Item>) {
    && |f.head| + |f.tail| == 212 && |items| == 4
    && Measures(f, items[0], 2079, 2093) && Measures(f, items[1], 631, 645)
    && Measures(f, items[2], 2080, 4193) && Measures(f, items[3], 2068, 4181)
  }

  lemma IdentityLengths(f: ListFormat, items: seq<Item>)
    requires Measured(f, items)
    ensures |RenderList(f, Ids(items, 2))| == 2923 && |RenderList(f, Ids(items, 3))| == 5004
  {
    var a, b, c := IdentityOnly(items[0]), IdentityOnly(items[1]), IdentityOnly(items[2]);
    TwoItems(f, a, b);
    ThreeItems(f, a, b, c);
    assert Ids(items, 2) == [a, b] && Ids(items, 3) == [a, b, c];
  }

  lemma CompleteLengths(f: ListFormat, items: seq<Item>)
    requires Measured(f, items)
    ensures |RenderList(f, Complete(items[..2]))| == 2951 && |RenderList(f, Complete(items))| == 11_327
  {
    var a, b, c, d := Whole(items[0]), Whole(items[1]), Whole(items[2]), Whole(items[3]);
    TwoItems(f, a, b);
    ThreeItems(f, a, b, c);
    FourItems(f, a, b, c, d);
    assert Complete(items[..2]) == [a, b] && Complete(items) == [a, b, c, d];
  }

  lemma TwoAreKept(f: ListFormat, items: seq<Item>)
    requires Measured(f, items)
    ensures Greedy(Serializer(f), items, GROUNDING_BUDGET, 0) == 2
  {
    SerializerGrows(f);
    IdentityLengths(f, items);
    GreedyExactly(f.code, Serializer(f), items, GROUNDING_BUDGET, 2);
    GreedyExactly(f.code, Serializer(f), items, GROUNDING_BUDGET, 3);
  }

  /** Only the items that are kept matter for their texts. */
  lemma {:induction false} ShowFromKept(marks: Marks, render: ListRenderer, items: seq<Item>, shown: seq<Projected>,
                                        i: nat, budget: int)
    requires i <= |shown| <= |items|
    ensures ShowFrom(marks, render, items, shown, i, budget)
         == ShowFrom(marks, render, items[..|shown|], shown, i, budget)
    decreases |shown| - i
  {
    if i < |shown| {
      ShowFromKept(marks, render, items, ShowAt(marks, render, items[i], shown, i, budget), i + 1, budget);
    }
  }

  /** If the kept items fit with their texts, that is what is shown. */
  lemma KeptIsShown(code: char -> string, marks: Marks, render: ListRenderer, items: seq<Item>, budget: int)
    requires Growing(code, render)
    requires var kept := items[..Greedy(render, items, budget, 0)]; ListFits(render, Complete(kept), budget)
    ensures ShownItems(marks, render, items, budget) == Complete(items[..Greedy(render, items, budget, 0)])
  {
    var k := Greedy(render, items, budget, 0);
    assert Ids(items, k) == Ids(items[..k], k);
    ShowFromKept(marks, render, items, Ids(items, k), 0, budget);
    ShowFromCompletes(code, marks, render, items[..k], Ids(items[..k], k), 0, budget);
  }

  /** In its first budget only the first two pieces of evidence are shown. */
  lemma FirstEvidence(marks: Marks, f: ListFormat, items: seq<Item>)
    requires Measured(f, items)
    ensures |ProjectionOf(marks, Serializer(f), items, GROUNDING_BUDGET).serialized| == 2951
  {
    TwoAreKept(f, items);
    SerializerGrows(f);
    CompleteLengths(f, items);
    KeptIsShown(f.code, marks, Serializer(f), items, GROUNDING_BUDGET);
  }

  // ---------------------------------------------------------------- the sections

  /** A list whose complete source fits is shown in full. */
  lemma FullSection(marks: Marks, f: ListFormat, items: seq<Item>, budget: int)
    requires |RenderList(f, Complete(items))| <= budget
    ensures var p := ProjectionOf(marks, Serializer(f), items, budget);
            !p.truncated && p.serialized == RenderList(f, Complete(items))
  {
    SerializerGrows(f);
    TruncatedExactly(f.code, marks, Serializer(f), items, budget);
  }

  lemma SingleLength(f: ListFormat, item: Item, size: nat)
    requires item.text.Some? && |Encode(f.code, item.text.value)| == size
    ensures |RenderList(f, Complete([item]))|
         == |f.head| + |f.tail| + |item.identity| + |f.field| + size + 3
  {
    ItemMeasures(f, item, size);
    assert Complete([item]) == [Whole(item)];
  }

  lemma PageLength()
    ensures var f := PageFormat(1); |f.head| + |f.tail| == 56 && |f.field| == 15
  {
    assert |PageTail(1)| == 46;
  }

  lemma NameIsShort()
    ensures |Quote(JsonCode, "a")| == 3
  {
    EncodeLength(JsonCode, "a", 1);
  }

  lemma StampsLength(createdAt: string, updatedAt: string)
    requires |createdAt| == 20 && |updatedAt| == 20
    ensures |MembersText(StampMembers(createdAt, updatedAt))| == 71
  {
    MembersLength("updated_at", Quoted(updatedAt), Nil);
    MembersLength("created_at", Quoted(createdAt), Member("updated_at", Quoted(updatedAt), Nil));
  }

  lemma ProjectLength(p: Project)
    requires ProjectShape(p)
    ensures |RenderList(PageFormat(1), Complete([ProjectItem(p)]))| == 2261
  {
    NameIsShort();
    PageLength();
    PlainLength(JsonCode, 2000);
    StampsLength(p.createdAt, p.updatedAt);
    var m := ProjectMembers(p);
    MembersLength(m.name, m.value, m.more);
    MembersLength(m.more.name, m.more.value, m.more.more);
    var n := m.more.more;
    MembersLength(n.name, n.value, n.more);
    MembersLength(n.more.name, n.more.value, n.more.more);
    MembersLength("status", Quoted(p.status), StampMembers(p.createdAt, p.updatedAt));
    assert |ProjectItem(p).identity| == 187;
    SingleLength(PageFormat(1), ProjectItem(p), 2000);
  }

  lemma StateLength(t: Task)
    requires TaskShape(t)
    ensures |MembersText(StateMembers(t))| == 186
  {
    StampsLength(t.createdAt, t.updatedAt);
    var m := StateMembers(t);
    MembersLength(m.name, m.value, m.more);
    MembersLength(m.more.name, m.more.value, m.more.more);
    var n := m.more.more;
    MembersLength(n.name, n.value, n.more);
    MembersLength(n.more.name, n.more.value, n.more.more);
    var o := n.more.more;
    MembersLength(o.name, o.value, o.more);
    MembersLength(o.more.name, o.more.value, o.more.more);
  }

  lemma TaskLength(t: Task)
    requires TaskShape(t)
    ensures |RenderList(PageFormat(1), Complete([TaskItem(t)]))| == 4423
  {
    StateLength(t);
    var m := TaskMembers(t);
    MembersLength(m.name, m.value, m.more);
    MembersLength(m.more.name, m.more.value, m.more.more);
    MembersLength("title", Quote(JsonCode, t.title), StateMembers(t));
    NameIsShort();
    PageLength();
    PlainLength(JsonCode, 4054);
    assert |TaskItem(t).identity| == 295;
    SingleLength(PageFormat(1), TaskItem(t), 4054);
  }

  predicate WholeGoal(g: Option<GoalSection>, n: nat) {
    && g.Some? && |g.value.serialized| == 85 + n
    && !g.value.truncated && !g.value.objectiveTruncated && g.value.omitted == 0
  }

  lemma GoalLength(marks: Marks, n: nat)
    requires n <= 2000
    ensures WholeGoal(GoalOf(marks, GoalSerializer(GoalFormat(JsonCode, GOAL_TAIL)), Filler(n), [], GOAL_BUDGET), n)
  {
    var f := GoalFormat(JsonCode, GOAL_TAIL);
    PlainLength(JsonCode, n);
    GoalTailLength();
    GoalSerializerGrows(f);
    GoalIsHonest(marks, GoalSerializer(f), Filler(n), [], GOAL_BUDGET);
  }

  // ------------------------------------------------------------- the two passes

  /** What of a source and its format decides the two passes. */
  ghost predicate OverrunParts(source: Source, f: Format, n: nat) {
    && GoalFormatOf(f) == GoalFormat(JsonCode, GOAL_TAIL)
    && source.objective == Filler(n) && source.constraints == [] && source.feedback == None
    && |RenderList(f.projects, Complete(source.projects))| == 2261
    && |RenderList(f.tasks, Complete(source.tasks))| == 4423
    && Measured(f.grounding, source.evidence)
  }

  lemma EvidenceIsMeasured(e: seq<Citation>, items: seq<Item>)
    requires EvidenceShape(e) && |items| == 4 && forall i :: 0 <= i < 4 ==> items[i] == CitationItem(e[i])
    ensures Measured(FORMAT, items)
  {
    FormatLength();
    ExcerptLengths();
    CitationMeasures(e[0], 251, 19, "a", 1);
    CitationMeasures(e[1], 44, 20, "a", 1);
    CitationMeasures(e[2], 251, 20, Angles(300), 2100);
    CitationMeasures(e[3], 251, 8, Angles(300), 2100);
  }

  lemma PagesAreMeasured(r: Request, projects: seq<Item>, tasks: seq<Item>)
    requires |r.projects| == 1 && ProjectShape(r.projects[0]) && projects == [ProjectItem(r.projects[0])]
    requires |r.tasks| == 1 && TaskShape(r.tasks[0]) && tasks == [TaskItem(r.tasks[0])]
    ensures |RenderList(PageFormat(1), Complete(projects))| == 2261
    ensures |RenderList(PageFormat(1), Complete(tasks))| == 4423
  {
    ProjectLength(r.projects[0]);
    TaskLength(r.tasks[0]);
  }

  lemma ShapeDecidesParts(r: Request, n: nat, source: Source, f: Format)
    requires RequestShape(r, n) && source == SourceOf(r) && f == JsonFormat(r)
    ensures OverrunParts(source, f, n) && SizesInLimits(source)
  {
    EvidenceIsMeasured(r.evidence, source.evidence);
    PagesAreMeasured(r, source.projects, source.tasks);
  }

  /** The builders give complete sections of these lengths in the first pass, evidence apart. */
  ghost predicate FirstLengths(b: Builders, n: nat) {
    && WholeGoal(b.goal(GOAL_BUDGET), n)
    && b.feedback(FEEDBACK_BUDGET) == Some(TextSection(None, "null", false))
    && !b.projects(PROJECTS_BUDGET).truncated && |b.projects(PROJECTS_BUDGET).serialized| == 2261
    && !b.tasks(TASKS_BUDGET).truncated && |b.tasks(TASKS_BUDGET).serialized| == 4423
    && |b.grounding(GROUNDING_BUDGET).serialized| == 2951
  }

  lemma OverrunBuilders(marks: Marks, source: Source, f: Format, n: nat, b: Builders)
    requires n <= 2000 && OverrunParts(source, f, n) && Builds(marks, source, f, b)
    ensures FirstLengths(b, n)
  {
    assert Asked(GOAL_BUDGET) && Asked(FEEDBACK_BUDGET) && Asked(PROJECTS_BUDGET) && Asked(TASKS_BUDGET);
    assert Asked(GROUNDING_BUDGET);
    GoalLength(marks, n);
    FullSection(marks, f.projects, source.projects, PROJECTS_BUDGET);
    FullSection(marks, f.tasks, source.tasks, TASKS_BUDGET);
    FirstEvidence(marks, f.grounding, source.evidence);
  }

  /** All evidence is shown in any room that it needs. */
  lemma AllEvidence(marks: Marks, source: Source, f: Format, n: nat, b: Builders, room: int)
    requires OverrunParts(source, f, n) && Builds(marks, source, f, b) && room >= 11_327
    ensures !b.grounding(room).truncated && |b.grounding(room).serialized| == 11_327
  {
    assert Asked(room);
    CompleteLengths(f.grounding, source.evidence);
    FullSection(marks, f.grounding, source.evidence, room);
  }

  lemma FirstSections(b: Builders, n: nat)
    requires FirstLengths(b, n) && n <= 2000
    ensures var first := FirstPass(b);
            && first.Some? && SectionLength(first.value) == 9724 + n && 11_327 <= Room(first.value)
            && !first.value.goal.truncated && !first.value.tasks.truncated && !first.value.projects.truncated
            && |first.value.grounding.serialized| == 2951
  {
  }

  /** The second pass shows everything, and that is n characters too many. */
  ghost predicate Overruns(b: Builders, n: nat) {
    var first, final := FirstPass(b), FinalSections(b);
    && first.Some? && SectionLength(first.value) == 9724 + n
    && final.Some? && SectionLength(final.value) == SECTION_TOTAL + n
    && final.value == first.value.(grounding := final.value.grounding)
    && !final.value.grounding.truncated
  }

  lemma SecondSections(marks: Marks, source: Source, f: Format, n: nat, b: Builders)
    requires n <= 2000 && OverrunParts(source, f, n) && Framed(EmptiesOf(f)) && b == BuildersOf(marks, source, f)
    ensures FirstLengths(b, n) && Overruns(b, n)
  {
    BuildersBuild(marks, source, f);
    BuildersAreSound(marks, source, f);
    OverrunBuilders(marks, source, f, n, b);
    FirstSections(b, n);
    OnlyEvidenceIsCut(b, EmptiesOf(f), FirstPass(b).value);
    AllEvidence(marks, source, f, n, b, Room(FirstPass(b).value));
  }

  lemma ShapedOverruns(marks: Marks, r: Request, n: nat)
    requires n <= 2000 && RequestShape(r, n) && PagesInLimits(r)
    ensures Overruns(PromptBuilders(marks, r), n)
  {
    ShapeDecidesParts(r, n, SourceOf(r), JsonFormat(r));
    JsonFormatIsFramed(r);
    SecondSections(marks, SourceOf(r), JsonFormat(r), n, PromptBuilders(marks, r));
  }

  /** A request within all field limits whose first pass has 9,724 + n characters and whose second
      pass exceeds the total by n, for every n from 1 to 2,000. */
  lemma SectionsCanExceedTotal(marks: Marks, n: nat)
    requires 1 <= n <= 2000
    ensures WithinFieldLimits(OverrunRequest(n))
    ensures var b := PromptBuilders(marks, OverrunRequest(n));
            && FirstPass(b).Some? && SectionLength(FirstPass(b).value) == 9724 + n
            && FinalSections(b).Some? && SectionLength(FinalSections(b).value) == SECTION_TOTAL + n
  {
    RequestInLimits(n);
    RequestIsShaped(n);
    ShapedOverruns(marks, OverrunRequest(n), n);
  }

  // ----------------------------------------------------------------- the refusal

  /** A list of which nothing is missing. */
  predicate AllShown(p: Projection) {
    !p.truncated && p.textsTruncated == 0 && p.itemsOmitted == 0
  }

  lemma CompleteManifest(s: Sections)
    requires !s.goal.truncated && !s.goal.objectiveTruncated && s.goal.omitted == 0 && !s.feedback.truncated
    requires AllShown(s.projects) && AllShown(s.tasks) && AllShown(s.grounding)
    ensures |Manifest(s)| == 342
  {
    ManifestLength(s);
    CutFieldLengths();
    GoalManifestSize(s.goal);
    FeedbackManifestLength(s.feedback);
    AllShownManifest(s.projects, CUT_DESCRIPTIONS);
    AllShownManifest(s.tasks, CUT_DESCRIPTIONS);
    AllShownManifest(s.grounding, CUT_EXCERPTS);
  }

  lemma AllShownManifest(p: Projection, cut: string)
    requires AllShown(p)
    ensures |ListManifest(p, cut)| == 42 + |cut|
  {
    ListManifestSize(p, cut);
  }

  lemma UntruncatedIsAllShown(marks: Marks, render: ListRenderer, items: seq<Item>, budget: int)
    requires !ProjectionOf(marks, render, items, budget).truncated
    ensures AllShown(ProjectionOf(marks, render, items, budget))
  {
    UntruncatedSection(marks, render, items, budget);
  }

  lemma FinalManifest(marks: Marks, source: Source, f: Format, n: nat, b: Builders)
    requires Builds(marks, source, f, b) && FirstLengths(b, n) && Overruns(b, n)
    ensures |Manifest(FinalSections(b).value)| == 342
  {
    var s, room := FinalSections(b).value, Room(Rebuilt(b, FirstPass(b).value).value);
    assert Asked(PROJECTS_BUDGET) && Asked(TASKS_BUDGET) && Asked(room);
    UntruncatedIsAllShown(marks, Serializer(f.projects), source.projects, PROJECTS_BUDGET);
    UntruncatedIsAllShown(marks, Serializer(f.tasks), source.tasks, TASKS_BUDGET);
    UntruncatedIsAllShown(marks, Serializer(f.grounding), source.evidence, room);
    CompleteManifest(s);
  }

  lemma FirstIsWithinLimits(marks: Marks, source: Source, f: Format, b: Builders, first: Sections)
    requires SizesInLimits(source) && Builds(marks, source, f, b)
    requires FirstPass(b) == Some(first) && SectionLength(first) <= SECTION_TOTAL
    ensures WithinLimits(Manifest, first)
  {
    var budgets := Budgets(GOAL_BUDGET, TASKS_BUDGET, PROJECTS_BUDGET, GROUNDING_BUDGET);
    BuiltCounts(marks, source, f, b, budgets, first);
    LimitsLeaveSpare(first);
  }

  /** The first pass is within all limits, and the second exactly up to an overrun of 522. */
  ghost predicate RefusedFrom523(b: Builders, n: nat) {
    && FirstPass(b).Some? && WithinLimits(Manifest, FirstPass(b).value)
    && FinalSections(b).Some? && (WithinLimits(Manifest, FinalSections(b).value) <==> n <= 522)
  }

  lemma LimitsOf(s: Sections, n: nat)
    requires |Manifest(s)| == 342 && SectionLength(s) == SECTION_TOTAL + n
    ensures WithinLimits(Manifest, s) <==> n <= 522
  {
    FramingLength(Manifest, s);
  }

  lemma PartsRefusal(marks: Marks, source: Source, f: Format, n: nat, b: Builders)
    requires n <= 2000 && OverrunParts(source, f, n) && SizesInLimits(source) && Framed(EmptiesOf(f))
    requires b == BuildersOf(marks, source, f)
    ensures RefusedFrom523(b, n)
  {
    SecondSections(marks, source, f, n, b);
    BuildersBuild(marks, source, f);
    FirstIsWithinLimits(marks, source, f, b, FirstPass(b).value);
    FinalManifest(marks, source, f, n, b);
    LimitsOf(FinalSections(b).value, n);
  }

  lemma ShapedRefusal(marks: Marks, r: Request, n: nat)
    requires n <= 2000 && RequestShape(r, n) && PagesInLimits(r)
    ensures RefusedFrom523(PromptBuilders(marks, r), n)
  {
    ShapeDecidesParts(r, n, SourceOf(r), JsonFormat(r));
    JsonFormatIsFramed(r);
    PartsRefusal(marks, SourceOf(r), JsonFormat(r), n, PromptBuilders(marks, r));
  }

  /** A prompt can be refused because of the redistribution alone: the first pass of each of these
      requests is within all limits, and its prompt is returned exactly up to an overrun of 522. */
  lemma RedistributionCanRefuse(marks: Marks, n: nat)
    requires 1 <= n <= 2000
    ensures WithinFieldLimits(OverrunRequest(n)) && RefusedFrom523(PromptBuilders(marks, OverrunRequest(n)), n)
  {
    RequestInLimits(n);
    RequestIsShaped(n);
    ShapedRefusal(marks, OverrunRequest(n), n);
  }
}
