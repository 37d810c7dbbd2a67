/** The ledger of the prompt's character budget: build every section, give what is unused to the
    sections in turn, and accept the result only under the hard limits. */
module PromptBudget {
  import opened Options
  import opened PromptText
  import opened PromptLists
  import opened PromptGoal

  const MAX_PROMPT_INPUT: int := 20_000
  const FRAMING_BUDGET: int := 1_000
  const GOAL_BUDGET: int := 4_000
  const FEEDBACK_BUDGET: int := 1_100
  const PROJECTS_BUDGET: int := 3_000
  const TASKS_BUDGET: int := 5_000
  const GROUNDING_BUDGET: int := 5_000
  const SAFETY_MARGIN: int := 900
  const SECTION_TOTAL: int :=
    GOAL_BUDGET + FEEDBACK_BUDGET + PROJECTS_BUDGET + TASKS_BUDGET + GROUNDING_BUDGET

  datatype Sections = Sections(
    goal: GoalSection,
    feedback: TextSection,
    projects: Projection,
    tasks: Projection,
    grounding: Projection)

  function SectionLength(s: Sections): int {
    |s.goal.serialized| + |s.feedback.serialized| + |s.projects.serialized| + |s.tasks.serialized|
    + |s.grounding.serialized|
  }

  /** The ledger: what these sections leave of the total. */
  function Unused(s: Sections): int {
    SECTION_TOTAL - SectionLength(s)
  }

  // ----------------------------------------------------------------- the passes

  /** What each section is for every budget it may be given. */
  datatype Builders = Builders(
    goal: int -> Option<GoalSection>,
    feedback: int -> Option<TextSection>,
    projects: int -> Projection,
    tasks: int -> Projection,
    grounding: int -> Projection)

  /** Every section in its own budget; nothing when the feedback or the goal is refused. */
  function FirstPass(b: Builders): Option<Sections> {
    var feedback, goal := b.feedback(FEEDBACK_BUDGET), b.goal(GOAL_BUDGET);
    if feedback.None? || goal.None? then None
    else Some(Sections(goal.value, feedback.value, b.projects(PROJECTS_BUDGET), b.tasks(TASKS_BUDGET),
                       b.grounding(GROUNDING_BUDGET)))
  }

  function RebuiltTasks(b: Builders, s: Sections): Sections {
    s.(tasks := b.tasks(TASKS_BUDGET + Unused(s)))
  }

  function RebuiltProjects(b: Builders, s: Sections): Sections {
    s.(projects := b.projects(PROJECTS_BUDGET + Unused(s)))
  }

  /** The sections before the last rebuild. */
  function Rebuilt(b: Builders, first: Sections): Option<Sections> {
    var goal := b.goal(GOAL_BUDGET + Unused(first));
    if goal.None? then None else Some(RebuiltProjects(b, RebuiltTasks(b, first.(goal := goal.value))))
  }

  /** The budget of the last rebuild. */
  function Room(s: Sections): int {
    if GROUNDING_BUDGET + Unused(s) > MAX_GROUNDING_CONTEXT_CHARACTERS then MAX_GROUNDING_CONTEXT_CHARACTERS
    else GROUNDING_BUDGET + Unused(s)
  }

  function RebuiltGrounding(b: Builders, s: Sections): Option<Sections> {
    if Room(s) < 1 then None else Some(s.(grounding := b.grounding(Room(s))))
  }

  /** Goal, tasks, projects and evidence again, each with its own budget plus what is unused then. */
  function SecondPass(b: Builders, first: Sections): Option<Sections> {
    var rebuilt := Rebuilt(b, first);
    if rebuilt.None? then None else RebuiltGrounding(b, rebuilt.value)
  }

  /** The sections of the prompt, before the limits are checked. */
  function FinalSections(b: Builders): Option<Sections> {
    var first := FirstPass(b);
    if first.None? then None else SecondPass(b, first.value)
  }

  function Assemble(manifest: Sections -> string, s: Sections): string {
    "Untrusted planning data JSON:\n{\"goal_analysis\":" + s.goal.serialized
    + ",\"revision_feedback\":" + s.feedback.serialized
    + ",\"projects\":" + s.projects.serialized
    + ",\"tasks\":" + s.tasks.serialized
    + ",\"truncation\":" + manifest(s) + "}\n\nRetrieved knowledge evidence:\n"
    + s.grounding.serialized
  }

  /** The hard limits on the assembled input. */
  predicate WithinLimits(manifest: Sections -> string, s: Sections) {
    && |Assemble(manifest, s)| - SectionLength(s) <= FRAMING_BUDGET
    && |Assemble(manifest, s)| <= MAX_PROMPT_INPUT - SAFETY_MARGIN
  }

  // --------------------------------------------------------------- reading it back

  /** The lengths of the parts, in the order in which they are read. */
  datatype Sizes = Sizes(goal: nat, feedback: nat, projects: nat, tasks: nat, manifest: nat)

  datatype Parts = Parts(
    goal: string,
    feedback: string,
    projects: string,
    tasks: string,
    manifest: string,
    evidence: string)

  function SizesOf(s: Sections, manifest: string): Sizes {
    Sizes(|s.goal.serialized|, |s.feedback.serialized|, |s.projects.serialized|, |s.tasks.serialized|, |manifest|)
  }

  function PartsOf(s: Sections, manifest: string): Parts {
    Parts(s.goal.serialized, s.feedback.serialized, s.projects.serialized, s.tasks.serialized, manifest,
          s.grounding.serialized)
  }

  /** Read this key and as many characters after it; the second part is what follows. */
  function ReadPart(text: string, key: string, size: nat): Option<(string, string)> {
    if |text| < |key| + size || text[..|key|] != key then None
    else Some((text[|key|..|key| + size], text[|key| + size..]))
  }

  /** The same after a part that was read. */
  function ReadNext(before: Option<(string, string)>, key: string, size: nat): Option<(string, string)> {
    if before.None? then None else ReadPart(before.value.1, key, size)
  }

  /** Each part under its own key, and the evidence behind its heading. */
  function ReadParts(text: string, n: Sizes): Option<Parts> {
    var goal := ReadPart(text, "Untrusted planning data JSON:\n{\"goal_analysis\":", n.goal);
    var feedback := ReadNext(goal, ",\"revision_feedback\":", n.feedback);
    var projects := ReadNext(feedback, ",\"projects\":", n.projects);
    var tasks := ReadNext(projects, ",\"tasks\":", n.tasks);
    var manifest := ReadNext(tasks, ",\"truncation\":", n.manifest);
    var heading := ReadNext(manifest, "}\n\nRetrieved knowledge evidence:\n", 0);
    if heading.None? then None
    else Some(Parts(goal.value.0, feedback.value.0, projects.value.0, tasks.value.0, manifest.value.0, heading.value.1))
  }

  lemma ReadsPart(key: string, part: string, rest: string)
    ensures ReadPart(key + part + rest, key, |part|) == Some((part, rest))
  {
    var text := key + part + rest;
    assert text[..|key|] == key && text[|key|..|key| + |part|] == part && text[|key| + |part|..] == rest;
  }

  /** What follows the k-th key of the assembled text. */
  lemma AssembledParts(manifest: Sections -> string, s: Sections)
    returns (r1: string, r2: string, r3: string, r4: string, r5: string)
    ensures Assemble(manifest, s)
         == "Untrusted planning data JSON:\n{\"goal_analysis\":" + s.goal.serialized + r1
    ensures r1 == ",\"revision_feedback\":" + s.feedback.serialized + r2
    ensures r2 == ",\"projects\":" + s.projects.serialized + r3
    ensures r3 == ",\"tasks\":" + s.tasks.serialized + r4
    ensures r4 == ",\"truncation\":" + manifest(s) + r5
    ensures r5 == "}\n\nRetrieved knowledge evidence:\n" + s.grounding.serialized
  {
    r5 := "}\n\nRetrieved knowledge evidence:\n" + s.grounding.serialized;
    r4 := ",\"truncation\":" + manifest(s) + r5;
    r3 := ",\"tasks\":" + s.tasks.serialized + r4;
    r2 := ",\"projects\":" + s.projects.serialized + r3;
    r1 := ",\"revision_feedback\":" + s.feedback.serialized + r2;
  }

  /** The input has every section under its own key, in order, and nothing else. */
  lemma InputIsReadBack(manifest: Sections -> string, s: Sections)
    ensures ReadParts(Assemble(manifest, s), SizesOf(s, manifest(s))) == Some(PartsOf(s, manifest(s)))
  {
    var r1, r2, r3, r4, r5 := AssembledParts(manifest, s);
    ReadsPart("Untrusted planning data JSON:\n{\"goal_analysis\":", s.goal.serialized, r1);
    ReadsPart(",\"revision_feedback\":", s.feedback.serialized, r2);
    ReadsPart(",\"projects\":", s.projects.serialized, r3);
    ReadsPart(",\"tasks\":", s.tasks.serialized, r4);
    ReadsPart(",\"truncation\":", manifest(s), r5);
    ReadsPart("}\n\nRetrieved knowledge evidence:\n", "", s.grounding.serialized);
    assert r5 == "}\n\nRetrieved knowledge evidence:\n" + "" + s.grounding.serialized;
  }

  // ----------------------------------------------------------------- the program

  datatype Source = Source(
    objective: string,
    constraints: seq<string>,
    feedback: Option<string>,
    projects: seq<Item>,
    tasks: seq<Item>,
    evidence: seq<Item>)

  /** How the characters of JSON strings are escaped, the fixed parts of the sections, and the
      serialized truncation manifest. */
  datatype Format = Format(
    code: char -> string,
    goalTail: string,
    projects: ListFormat,
    tasks: ListFormat,
    grounding: ListFormat,
    manifest: Sections -> string)

  function GoalFormatOf(f: Format): GoalFormat {
    GoalFormat(f.code, f.goalTail)
  }

  /** Points the verifier at one budget. */
  predicate Asked(budget: int) {
    true
  }

  /** `b` gives the sections of this source in this format. */
  ghost predicate Builds(marks: Marks, source: Source, f: Format, b: Builders) {
    forall n: int {:trigger Asked(n)} :: Asked(n) ==>
      && b.goal(n) == GoalOf(marks, GoalSerializer(GoalFormatOf(f)), source.objective, source.constraints, n)
      && b.feedback(n) == FeedbackOf(marks, QuoteSerializer(f.code), source.feedback, n)
      && b.projects(n) == ProjectionOf(marks, Serializer(f.projects), source.projects, n)
      && b.tasks(n) == ProjectionOf(marks, Serializer(f.tasks), source.tasks, n)
      && b.grounding(n) == ProjectionOf(marks, Serializer(f.grounding), source.evidence, n)
  }

  function BuildersOf(marks: Marks, source: Source, f: Format): Builders {
    Builders(
      budget => GoalOf(marks, GoalSerializer(GoalFormatOf(f)), source.objective, source.constraints, budget),
      budget => FeedbackOf(marks, QuoteSerializer(f.code), source.feedback, budget),
      budget => ProjectionOf(marks, Serializer(f.projects), source.projects, budget),
      budget => ProjectionOf(marks, Serializer(f.tasks), source.tasks, budget),
      budget => ProjectionOf(marks, Serializer(f.grounding), source.evidence, budget))
  }

  lemma BuildersBuild(marks: Marks, source: Source, f: Format)
    ensures Builds(marks, source, f, BuildersOf(marks, source, f))
  {
  }

  /** An input is returned exactly when no builder refuses and the assembled text is within the
      limits, and it is that text. */
  method BuildPlanInput(marks: Marks, source: Source, f: Format) returns (input: Option<string>)
    ensures var final := FinalSections(BuildersOf(marks, source, f));
            input == if final.Some? && WithinLimits(f.manifest, final.value)
                     then Some(Assemble(f.manifest, final.value)) else None
    // read back by its keys, the input has every final section in its own place
    ensures input.Some? ==>
              var s := FinalSections(BuildersOf(marks, source, f)).value;
              ReadParts(input.value, SizesOf(s, f.manifest(s))) == Some(PartsOf(s, f.manifest(s)))
  {
    BuildersBuild(marks, source, f);
    input := BuildWith(marks, source, f, BuildersOf(marks, source, f));
    if input.Some? {
      InputIsReadBack(f.manifest, FinalSections(BuildersOf(marks, source, f)).value);
    }
  }

  method BuildWith(marks: Marks, source: Source, f: Format, ghost b: Builders) returns (input: Option<string>)
    requires Builds(marks, source, f, b)
    ensures var final := FinalSections(b);
            input == if final.Some? && WithinLimits(f.manifest, final.value)
                     then Some(Assemble(f.manifest, final.value)) else None
  {
    input := None;
    var feedback := FeedbackFor(marks, source, f, FEEDBACK_BUDGET, b);
    if feedback.None? {
      return;
    }
    var goal := GoalSectionFor(marks, source, f, GOAL_BUDGET, b);
    if goal.None? {
      return;
    }
    var tasks := TasksFor(marks, source, f, TASKS_BUDGET, b);
    var projects := ProjectsFor(marks, source, f, PROJECTS_BUDGET, b);
    var grounding := GroundingFor(marks, source, f, GROUNDING_BUDGET, b);
    var first := Sections(goal.value, feedback.value, projects, tasks, grounding.value);
    var sections := Redistribute(marks, source, f, first, b);
    if sections.None? {
      return;
    }
    var text := Assemble(f.manifest, sections.value);
    if |text| - SectionLength(sections.value) > FRAMING_BUDGET || |text| > MAX_PROMPT_INPUT - SAFETY_MARGIN {
      return;
    }
    input := Some(text);
  }

  method FeedbackFor(marks: Marks, source: Source, f: Format, budget: int, ghost b: Builders)
    returns (section: Option<TextSection>)
    requires Builds(marks, source, f, b)
    ensures section == b.feedback(budget)
  {
    assert Asked(budget);
    section := BuildFeedback(marks, QuoteSerializer(f.code), source.feedback, budget);
  }

  /** The rebuilds in turn, with a running ledger that always equals the total minus the lengths. */
  method Redistribute(marks: Marks, source: Source, f: Format, first: Sections, ghost b: Builders)
    returns (sections: Option<Sections>)
    requires Builds(marks, source, f, b)
    ensures sections == SecondPass(b, first)
  {
    sections := None;
    var unused := SECTION_TOTAL - SectionLength(first);
    var goal := GoalSectionFor(marks, source, f, GOAL_BUDGET + unused, b);
    if goal.None? {
      return;
    }
    unused := unused - (|goal.value.serialized| - |first.goal.serialized|);
    var current := first.(goal := goal.value);
    assert unused == Unused(current);

    var tasks := TasksFor(marks, source, f, TASKS_BUDGET + unused, b);
    unused := unused - (|tasks.serialized| - |current.tasks.serialized|);
    current := current.(tasks := tasks);
    assert unused == Unused(current);

    var projects := ProjectsFor(marks, source, f, PROJECTS_BUDGET + unused, b);
    unused := unused - (|projects.serialized| - |current.projects.serialized|);
    current := current.(projects := projects);
    assert unused == Unused(current) && Rebuilt(b, first) == Some(current);

    var room := GROUNDING_BUDGET + unused;
    if room > MAX_GROUNDING_CONTEXT_CHARACTERS {
      room := MAX_GROUNDING_CONTEXT_CHARACTERS;
    }
    var grounding := GroundingFor(marks, source, f, room, b);
    if grounding.None? {
      return;
    }
    sections := Some(current.(grounding := grounding.value));
  }

  method GoalSectionFor(marks: Marks, source: Source, f: Format, budget: int, ghost b: Builders)
    returns (section: Option<GoalSection>)
    requires Builds(marks, source, f, b)
    ensures section == b.goal(budget)
  {
    assert Asked(budget);
    section := BuildGoalAnalysis(marks, GoalSerializer(GoalFormatOf(f)), source.objective, source.constraints, budget);
  }

  method TasksFor(marks: Marks, source: Source, f: Format, budget: int, ghost b: Builders)
    returns (section: Projection)
    requires Builds(marks, source, f, b)
    ensures section == b.tasks(budget)
  {
    assert Asked(budget);
    section := BuildProjection(marks, Serializer(f.tasks), source.tasks, budget);
  }

  method ProjectsFor(marks: Marks, source: Source, f: Format, budget: int, ghost b: Builders)
    returns (section: Projection)
    requires Builds(marks, source, f, b)
    ensures section == b.projects(budget)
  {
    assert Asked(budget);
    section := BuildProjection(marks, Serializer(f.projects), source.projects, budget);
  }

  method GroundingFor(marks: Marks, source: Source, f: Format, budget: int, ghost b: Builders)
    returns (section: Option<Projection>)
    requires Builds(marks, source, f, b)
    ensures section == if 1 <= budget <= MAX_GROUNDING_CONTEXT_CHARACTERS then Some(b.grounding(budget)) else None
  {
    assert Asked(budget);
    section := BuildGrounding(marks, Serializer(f.grounding), source.evidence, budget);
  }
}
