/** What the two passes over the prompt's sections promise: when a prompt is refused, what its sections
    tell, and when their sum stays within the total. */
module PromptLedger {
  import opened Options
  import opened Numbers
  import opened PromptText
  import opened PromptLists
  import opened PromptGoal
  import opened PromptBudget

  // ------------------------------------------------- what the builders guarantee

  /** A list section stays within its budget or is empty, once complete it does not change, and it
      takes more room than it uses to change it. */
  ghost predicate SoundList(build: int -> Projection, empty: nat) {
    && (forall n: int :: empty <= |build(n).serialized|
                         && (|build(n).serialized| <= n || |build(n).serialized| == empty))
    && (forall m: int, n: int :: m <= n && !build(m).truncated ==> build(n) == build(m))
    && (forall m: int, n: int :: m <= n && |build(n).serialized| <= m ==> build(m) == build(n))
  }

  ghost predicate SoundGoal(build: int -> Option<GoalSection>) {
    && (forall n: int :: build(n).Some? ==> |build(n).value.serialized| <= n)
    && (forall m: int, n: int :: m <= n && build(m).Some? ==>
          build(n).Some? && (!build(m).value.truncated ==> build(n) == build(m)))
  }

  /** The lengths of the empty lists. */
  datatype Empties = Empties(projects: nat, tasks: nat, grounding: nat)

  ghost predicate Sound(b: Builders, e: Empties) {
    && SoundGoal(b.goal)
    && (b.feedback(FEEDBACK_BUDGET).Some? ==> |b.feedback(FEEDBACK_BUDGET).value.serialized| <= FEEDBACK_BUDGET)
    && SoundList(b.projects, e.projects) && SoundList(b.tasks, e.tasks) && SoundList(b.grounding, e.grounding)
  }

  function EmptyLength(f: ListFormat): nat {
    |RenderList(f, [])|
  }

  function EmptiesOf(f: Format): Empties {
    Empties(EmptyLength(f.projects), EmptyLength(f.tasks), EmptyLength(f.grounding))
  }

  /** The empty lists fit into their own budgets, and an empty list of tasks is not nothing. */
  predicate Framed(e: Empties) {
    e.projects <= PROJECTS_BUDGET && 1 <= e.tasks <= TASKS_BUDGET && e.grounding <= GROUNDING_BUDGET
  }

  lemma CompleteStays(code: char -> string, marks: Marks, render: ListRenderer, items: seq<Item>, m: int, n: int)
    requires Growing(code, render) && m <= n && !ProjectionOf(marks, render, items, m).truncated
    ensures ProjectionOf(marks, render, items, n) == ProjectionOf(marks, render, items, m)
  {
    TruncatedExactly(code, marks, render, items, m);
    TruncatedExactly(code, marks, render, items, n);
    UntruncatedSection(marks, render, items, m);
    UntruncatedSection(marks, render, items, n);
  }

  lemma UntruncatedSection(marks: Marks, render: ListRenderer, items: seq<Item>, n: int)
    requires !ProjectionOf(marks, render, items, n).truncated
    ensures ProjectionOf(marks, render, items, n)
         == Projection(ProjectionOf(marks, render, items, n).items, ProjectionOf(marks, render, items, n).serialized,
                       false, 0, 0)
  {
  }

  lemma ListIsSound(marks: Marks, f: ListFormat, items: seq<Item>, build: int -> Projection)
    requires forall n: int :: build(n) == ProjectionOf(marks, Serializer(f), items, n)
    ensures SoundList(build, EmptyLength(f))
  {
    var render := Serializer(f);
    SerializerGrows(f);
    forall n: int
      ensures EmptyLength(f) <= |build(n).serialized|
              && (|build(n).serialized| <= n || |build(n).serialized| == EmptyLength(f))
    {
      ProjectionBounds(f.code, marks, render, items, n);
    }
    forall m: int, n: int | m <= n && !build(m).truncated ensures build(n) == build(m) {
      CompleteStays(f.code, marks, render, items, m, n);
    }
    forall m: int, n: int | m <= n && |build(n).serialized| <= m ensures build(m) == build(n) {
      SameSection(f.code, marks, render, items, m, n);
    }
  }

  lemma CompleteGoalStays(marks: Marks, render: GoalRenderer, objective: string, constraints: seq<string>,
                          m: int, n: int)
    requires GoalGrows(render) && m <= n && GoalOf(marks, render, objective, constraints, m).Some?
    ensures var small, large := GoalOf(marks, render, objective, constraints, m),
                                GoalOf(marks, render, objective, constraints, n);
            large.Some? && (!small.value.truncated ==> large == small)
  {
    GoalIsHonest(marks, render, objective, constraints, m);
    GoalIsHonest(marks, render, objective, constraints, n);
    assert |render(objective, constraints[..0])| <= |render(objective, constraints)|;
  }

  lemma GoalIsSound(marks: Marks, f: GoalFormat, objective: string, constraints: seq<string>,
                    build: int -> Option<GoalSection>)
    requires forall n: int :: build(n) == GoalOf(marks, GoalSerializer(f), objective, constraints, n)
    ensures SoundGoal(build)
  {
    GoalSerializerGrows(f);
    forall n: int | build(n).Some? ensures |build(n).value.serialized| <= n {
      GoalIsHonest(marks, GoalSerializer(f), objective, constraints, n);
    }
    forall m: int, n: int | m <= n && build(m).Some?
      ensures build(n).Some? && (!build(m).value.truncated ==> build(n) == build(m))
    {
      CompleteGoalStays(marks, GoalSerializer(f), objective, constraints, m, n);
    }
  }

  /** The sections of every source in every format are built soundly. */
  lemma BuildersAreSound(marks: Marks, source: Source, f: Format)
    ensures Sound(BuildersOf(marks, source, f), EmptiesOf(f))
  {
    var b := BuildersOf(marks, source, f);
    GoalIsSound(marks, GoalFormatOf(f), source.objective, source.constraints, b.goal);
    ListIsSound(marks, f.projects, source.projects, b.projects);
    ListIsSound(marks, f.tasks, source.tasks, b.tasks);
    ListIsSound(marks, f.grounding, source.evidence, b.grounding);
    FeedbackIsSound(marks, source, f);
  }

  lemma FeedbackIsSound(marks: Marks, source: Source, f: Format)
    ensures var t := FeedbackOf(marks, QuoteSerializer(f.code), source.feedback, FEEDBACK_BUDGET);
            t.Some? ==> |t.value.serialized| <= FEEDBACK_BUDGET
  {
    if source.feedback.Some? {
      QuoteGrows(f.code, source.feedback.value);
    }
    FeedbackIsHonest(marks, QuoteSerializer(f.code), source.feedback, FEEDBACK_BUDGET);
  }

  // --------------------------------------------------------------- what is refused

  lemma FirstPassBounds(b: Builders, e: Empties, s: Sections)
    requires Sound(b, e) && Framed(e) && FirstPass(b) == Some(s)
    ensures |s.goal.serialized| <= GOAL_BUDGET && |s.feedback.serialized| <= FEEDBACK_BUDGET
    ensures e.projects <= |s.projects.serialized| <= PROJECTS_BUDGET
    ensures e.tasks <= |s.tasks.serialized| <= TASKS_BUDGET
    ensures e.grounding <= |s.grounding.serialized| <= GROUNDING_BUDGET
    ensures Unused(s) >= 0
  {
  }

  /** The most that a section other than the evidence left unused in its own budget. */
  function Slack(s: Sections): int {
    Max(GOAL_BUDGET - |s.goal.serialized|,
        Max(TASKS_BUDGET - |s.tasks.serialized|, PROJECTS_BUDGET - |s.projects.serialized|))
  }

  /** What a list rebuild leaves in the ledger: it may use up its own slack a second time, no more. */
  lemma RebuildLeaves(build: int -> Projection, empty: nat, budget: int, length: int, unused: int)
    requires SoundList(build, empty) && empty <= length
    ensures var left := unused - (|build(budget + unused).serialized| - length);
            left >= length - budget || left >= unused
  {
  }

  lemma GoalLeaves(b: Builders, e: Empties, first: Sections)
    requires Sound(b, e) && Framed(e) && FirstPass(b) == Some(first)
    ensures var goal := b.goal(GOAL_BUDGET + Unused(first));
            goal.Some? && Unused(first.(goal := goal.value)) >= |first.goal.serialized| - GOAL_BUDGET
  {
    FirstPassBounds(b, e, first);
    assert b.goal(GOAL_BUDGET).Some?;
  }

  /** The first three rebuilds are never refused. They overdraw the ledger by at most that slack,
      since a section may use up its own slack a second time. */
  lemma RebuiltLeaves(b: Builders, e: Empties, first: Sections)
    requires Sound(b, e) && Framed(e) && FirstPass(b) == Some(first)
    ensures var s := Rebuilt(b, first);
            && s.Some? && Unused(s.value) >= -Slack(first)
            && s.value.grounding == first.grounding && s.value.feedback == first.feedback
  {
    FirstPassBounds(b, e, first);
    GoalLeaves(b, e, first);
    var x := first.(goal := b.goal(GOAL_BUDGET + Unused(first)).value);
    ListsLeave(b, e, x, Slack(first));
  }

  lemma ListsLeave(b: Builders, e: Empties, x: Sections, slack: int)
    requires Sound(b, e) && e.tasks <= |x.tasks.serialized| && e.projects <= |x.projects.serialized|
    requires Unused(x) >= -slack && |x.tasks.serialized| >= TASKS_BUDGET - slack
    requires |x.projects.serialized| >= PROJECTS_BUDGET - slack
    ensures Unused(RebuiltProjects(b, RebuiltTasks(b, x))) >= -slack
  {
    RebuildLeaves(b.tasks, e.tasks, TASKS_BUDGET, |x.tasks.serialized|, Unused(x));
    var y := RebuiltTasks(b, x);
    assert Unused(y) == Unused(x) - (|y.tasks.serialized| - |x.tasks.serialized|) >= -slack;
    RebuildLeaves(b.projects, e.projects, PROJECTS_BUDGET, |y.projects.serialized|, Unused(y));
  }

  /** No rebuild is ever refused: once the first pass succeeds, so does the second. */
  lemma SecondPassSucceeds(b: Builders, e: Empties, first: Sections)
    requires Sound(b, e) && Framed(e) && FirstPass(b) == Some(first)
    ensures SecondPass(b, first).Some?
  {
    RebuiltLeaves(b, e, first);
    FirstPassBounds(b, e, first);
  }

  lemma OnlyFirstPassRefuses(b: Builders, e: Empties)
    requires Sound(b, e) && Framed(e)
    ensures FinalSections(b).None? <==> FirstPass(b).None?
  {
    if FirstPass(b).Some? {
      SecondPassSucceeds(b, e, FirstPass(b).value);
    }
  }

  /** The feedback, or the objective, does not fit even as a bare marker. */
  predicate NothingToShow(source: Source, f: Format) {
    var quote, goal := QuoteSerializer(f.code), GoalSerializer(GoalFormatOf(f));
    || (&& source.feedback.Some? && !Fits(quote, source.feedback.value, FEEDBACK_BUDGET)
        && !Fits(quote, TRUNCATION_MARKER, FEEDBACK_BUDGET))
    || (&& !GoalFits(goal, source.objective, [], GOAL_BUDGET)
        && !GoalFits(goal, TRUNCATION_MARKER, [], GOAL_BUDGET))
  }

  lemma FirstPassRefuses(marks: Marks, source: Source, f: Format)
    ensures FirstPass(BuildersOf(marks, source, f)).None? <==> NothingToShow(source, f)
  {
    GoalSerializerGrows(GoalFormatOf(f));
    GoalIsHonest(marks, GoalSerializer(GoalFormatOf(f)), source.objective, source.constraints, GOAL_BUDGET);
    if source.feedback.Some? {
      QuoteGrows(f.code, source.feedback.value);
    }
    FeedbackIsHonest(marks, QuoteSerializer(f.code), source.feedback, FEEDBACK_BUDGET);
  }

  /** The sections are refused exactly when the feedback or the objective does not fit even as a bare
      marker; a prompt is refused exactly then, or when its final sections exceed the hard limits. */
  lemma RefusedExactly(marks: Marks, source: Source, f: Format)
    requires Framed(EmptiesOf(f))
    ensures FinalSections(BuildersOf(marks, source, f)).None? <==> NothingToShow(source, f)
  {
    BuildersAreSound(marks, source, f);
    OnlyFirstPassRefuses(BuildersOf(marks, source, f), EmptiesOf(f));
    FirstPassRefuses(marks, source, f);
  }

  // ------------------------------------------------------------------ honesty

  /** The budgets of the second pass. */
  datatype Budgets = Budgets(goal: int, tasks: int, projects: int, grounding: int)

  /** Each section has its own budget plus what is unused when its turn comes; evidence is capped. */
  function SecondBudgets(b: Builders, first: Sections): Budgets {
    var goal := GOAL_BUDGET + Unused(first);
    var x := if b.goal(goal).Some? then first.(goal := b.goal(goal).value) else first;
    var y := RebuiltTasks(b, x);
    Budgets(goal, TASKS_BUDGET + Unused(x), PROJECTS_BUDGET + Unused(y), Room(RebuiltProjects(b, y)))
  }

  /** Every section of a prompt is what its builder makes of its budget. */
  ghost predicate BuiltFrom(b: Builders, n: Budgets, s: Sections) {
    && b.goal(n.goal) == Some(s.goal) && b.feedback(FEEDBACK_BUDGET) == Some(s.feedback)
    && b.tasks(n.tasks) == s.tasks && b.projects(n.projects) == s.projects
    && b.grounding(n.grounding) == s.grounding
  }

  lemma FinalSectionsAreBuilt(b: Builders)
    requires FinalSections(b).Some?
    ensures BuiltFrom(b, SecondBudgets(b, FirstPass(b).value), FinalSections(b).value)
  {
  }

  /** A list section that shows as much as its budget allows and tells exactly what it leaves out:
      it is truncated exactly when the whole source does not fit into that budget. */
  ghost predicate TellsList(marks: Marks, f: ListFormat, items: seq<Item>, budget: int, p: Projection) {
    && HonestList(marks, Serializer(f), items, budget, p)
    && (p.truncated <==> items != [] && !ListFits(Serializer(f), Complete(items), budget))
    && (!p.truncated ==> p.items == Complete(items))
  }

  /** The same for every section of the prompt, each in its own budget. */
  ghost predicate TellsAll(marks: Marks, source: Source, f: Format, n: Budgets, s: Sections) {
    && HonestFeedback(marks, QuoteSerializer(f.code), source.feedback, FEEDBACK_BUDGET, s.feedback)
    && HonestGoal(marks, GoalSerializer(GoalFormatOf(f)), source.objective, source.constraints, n.goal, s.goal)
    && TellsList(marks, f.projects, source.projects, n.projects, s.projects)
    && TellsList(marks, f.tasks, source.tasks, n.tasks, s.tasks)
    && TellsList(marks, f.grounding, source.evidence, n.grounding, s.grounding)
  }

  lemma ProjectionTells(marks: Marks, f: ListFormat, items: seq<Item>, budget: int)
    ensures TellsList(marks, f, items, budget, ProjectionOf(marks, Serializer(f), items, budget))
  {
    SerializerGrows(f);
    ProjectionIsHonest(f.code, marks, Serializer(f), items, budget);
    TruncatedExactly(f.code, marks, Serializer(f), items, budget);
  }

  /** No section of a prompt loses anything in silence, and each shows as much as the budget of its
      second pass allows. */
  lemma FinalSectionsTellAll(marks: Marks, source: Source, f: Format, b: Builders)
    requires Builds(marks, source, f, b) && FinalSections(b).Some?
    ensures TellsAll(marks, source, f, SecondBudgets(b, FirstPass(b).value), FinalSections(b).value)
  {
    FinalSectionsAreBuilt(b);
    BuiltSectionsTell(marks, source, f, b, SecondBudgets(b, FirstPass(b).value), FinalSections(b).value);
  }

  /** Sections built from these budgets tell all. */
  lemma BuiltSectionsTell(marks: Marks, source: Source, f: Format, b: Builders, n: Budgets, s: Sections)
    requires Builds(marks, source, f, b) && BuiltFrom(b, n, s)
    ensures TellsAll(marks, source, f, n, s)
  {
    assert Asked(n.goal) && Asked(FEEDBACK_BUDGET) && Asked(n.tasks) && Asked(n.projects) && Asked(n.grounding);
    if source.feedback.Some? {
      QuoteGrows(f.code, source.feedback.value);
    }
    FeedbackIsHonest(marks, QuoteSerializer(f.code), source.feedback, FEEDBACK_BUDGET);
    GoalSerializerGrows(GoalFormatOf(f));
    GoalIsHonest(marks, GoalSerializer(GoalFormatOf(f)), source.objective, source.constraints, n.goal);
    ProjectionTells(marks, f.projects, source.projects, n.projects);
    ProjectionTells(marks, f.tasks, source.tasks, n.tasks);
    ProjectionTells(marks, f.grounding, source.evidence, n.grounding);
  }

  // ------------------------------------------------------------------ the total

  /** What the ledger really leaves for the evidence: the room of its first section and what is still
      unused before the last rebuild. The code gives it `Room` instead, which counts the slack of the
      first evidence section a second time. */
  function Affordable(b: Builders, first: Sections): int
    requires Rebuilt(b, first).Some?
  {
    |first.grounding.serialized| + Unused(Rebuilt(b, first).value)
  }

  /** The evidence shows no more in the room that it is given than in the room that there is. */
  predicate SlackShowsNothing(b: Builders, e: Empties, first: Sections)
    requires Rebuilt(b, first).Some?
  {
    var room, left := Room(Rebuilt(b, first).value), Affordable(b, first);
    left >= e.grounding && (room <= left || b.grounding(left) == b.grounding(room))
  }

  lemma SlackDecides(b: Builders, e: Empties, first: Sections)
    requires Sound(b, e) && Framed(e) && FirstPass(b) == Some(first)
    ensures Rebuilt(b, first).Some? && SecondPass(b, first).Some?
    ensures SectionLength(SecondPass(b, first).value) <= SECTION_TOTAL <==> SlackShowsNothing(b, e, first)
  {
    SecondPassSucceeds(b, e, first);
    RebuiltLeaves(b, e, first);
    var s := Rebuilt(b, first).value;
    LongerIsMore(b.grounding, e.grounding, Affordable(b, first), Room(s));
    assert SectionLength(SecondPass(b, first).value)
        == SECTION_TOTAL - Affordable(b, first) + |b.grounding(Room(s)).serialized|;
  }

  /** A section exceeds a smaller budget exactly when it differs from the section of that budget. */
  lemma LongerIsMore(build: int -> Projection, empty: nat, left: int, room: int)
    requires SoundList(build, empty)
    ensures |build(room).serialized| <= left <==> left >= empty && (room <= left || build(left) == build(room))
  {
  }

  /** For every source: the sections stay within the total exactly when the slack that is counted
      twice makes the evidence section show nothing more. */
  lemma WithinTotalExactly(marks: Marks, source: Source, f: Format, first: Sections)
    requires Framed(EmptiesOf(f)) && FirstPass(BuildersOf(marks, source, f)) == Some(first)
    ensures var b := BuildersOf(marks, source, f);
            && Rebuilt(b, first).Some? && SecondPass(b, first).Some?
            && (SectionLength(SecondPass(b, first).value) <= SECTION_TOTAL
                <==> SlackShowsNothing(b, EmptiesOf(f), first))
  {
    BuildersAreSound(marks, source, f);
    SlackDecides(BuildersOf(marks, source, f), EmptiesOf(f), first);
  }

  /** However the sections grow, they overrun the total by no more than the largest slack that a
      section of the first pass left in its own budget. */
  lemma OverrunIsBounded(b: Builders, e: Empties, first: Sections)
    requires Sound(b, e) && Framed(e) && FirstPass(b) == Some(first)
    ensures SecondPass(b, first).Some?
    ensures SectionLength(SecondPass(b, first).value)
         <= SECTION_TOTAL + Max(Slack(first), GROUNDING_BUDGET - |first.grounding.serialized|)
  {
    SecondPassSucceeds(b, e, first);
    RebuiltLeaves(b, e, first);
    FirstPassBounds(b, e, first);
  }

  predicate FullOrComplete(p: Projection, budget: int) {
    !p.truncated || |p.serialized| == budget
  }

  /** Every section of the first pass shows its whole source or uses up its budget. */
  predicate NoWastedBudget(s: Sections) {
    && (!s.goal.truncated || |s.goal.serialized| == GOAL_BUDGET)
    && FullOrComplete(s.tasks, TASKS_BUDGET) && FullOrComplete(s.projects, PROJECTS_BUDGET)
    && FullOrComplete(s.grounding, GROUNDING_BUDGET)
  }

  /** Such a section is rebuilt without overdrawing a ledger that is not overdrawn. */
  lemma RebuildDrawsLess(build: int -> Projection, empty: nat, budget: int, unused: int)
    requires SoundList(build, empty) && empty <= budget && unused >= 0 && FullOrComplete(build(budget), budget)
    ensures |build(budget + unused).serialized| <= |build(budget).serialized| + unused
  {
  }

  lemma NoWasteRebuilt(b: Builders, e: Empties, first: Sections)
    requires Sound(b, e) && Framed(e) && FirstPass(b) == Some(first) && NoWastedBudget(first)
    ensures Rebuilt(b, first).Some? && Unused(Rebuilt(b, first).value) >= 0
    ensures Rebuilt(b, first).value.grounding == first.grounding
  {
    FirstPassBounds(b, e, first);
    GoalLeaves(b, e, first);
    var x := first.(goal := b.goal(GOAL_BUDGET + Unused(first)).value);
    RebuildDrawsLess(b.tasks, e.tasks, TASKS_BUDGET, Unused(x));
    RebuildDrawsLess(b.projects, e.projects, PROJECTS_BUDGET, Unused(RebuiltTasks(b, x)));
  }

  /** If no section of the first pass was cut short of its budget, the sum stays within the total. */
  lemma NoWasteStaysWithin(b: Builders, e: Empties, first: Sections)
    requires Sound(b, e) && Framed(e) && FirstPass(b) == Some(first) && NoWastedBudget(first)
    ensures SecondPass(b, first).Some? && SectionLength(SecondPass(b, first).value) <= SECTION_TOTAL
  {
    NoWasteRebuilt(b, e, first);
    RebuildDrawsLess(b.grounding, e.grounding, GROUNDING_BUDGET, Room(Rebuilt(b, first).value) - GROUNDING_BUDGET);
  }

  /** If nothing is cut on the first pass, the second changes nothing. */
  lemma NothingCutNothingChanges(b: Builders, e: Empties, first: Sections)
    requires Sound(b, e) && Framed(e) && FirstPass(b) == Some(first)
    requires !first.goal.truncated && !first.tasks.truncated && !first.projects.truncated
             && !first.grounding.truncated
    ensures SecondPass(b, first) == Some(first)
  {
    OnlyEvidenceIsCut(b, e, first);
    FirstPassBounds(b, e, first);
  }

  /** If only evidence is cut on the first pass, the other sections stay, and the total is exceeded
      exactly when evidence shows more in the room it is given than in what it and the ledger leave. */
  lemma OnlyEvidenceIsCut(b: Builders, e: Empties, first: Sections)
    requires Sound(b, e) && Framed(e) && FirstPass(b) == Some(first)
    requires !first.goal.truncated && !first.tasks.truncated && !first.projects.truncated
    ensures SecondPass(b, first) == Some(first.(grounding := b.grounding(Room(first))))
    ensures var left := |first.grounding.serialized| + Unused(first);
            SectionLength(SecondPass(b, first).value) > SECTION_TOTAL
            <==> left < Room(first) && b.grounding(left) != b.grounding(Room(first))
  {
    FirstPassBounds(b, e, first);
    CompleteSectionsStay(b, e, first);
    SlackDecides(b, e, first);
  }

  lemma CompleteSectionsStay(b: Builders, e: Empties, first: Sections)
    requires Sound(b, e) && Framed(e) && FirstPass(b) == Some(first)
    requires !first.goal.truncated && !first.tasks.truncated && !first.projects.truncated
    ensures Rebuilt(b, first) == Some(first)
  {
    FirstPassBounds(b, e, first);
    var x := first.(goal := b.goal(GOAL_BUDGET + Unused(first)).value);
    assert x == first;
    assert RebuiltTasks(b, first) == first;
    assert RebuiltProjects(b, first) == first;
  }

  /** On the source itself, where all evidence fits the room it is given: the total is exceeded exactly
      when the complete evidence is longer than its first section and what was unused together. */
  lemma CompleteEvidenceDecides(marks: Marks, source: Source, f: Format, first: Sections)
    requires Framed(EmptiesOf(f)) && FirstPass(BuildersOf(marks, source, f)) == Some(first)
    requires !first.goal.truncated && !first.tasks.truncated && !first.projects.truncated
    requires |RenderList(f.grounding, Complete(source.evidence))| <= Room(first)
    ensures var b := BuildersOf(marks, source, f);
            && SecondPass(b, first).Some?
            && (SectionLength(SecondPass(b, first).value) > SECTION_TOTAL
                <==> |RenderList(f.grounding, Complete(source.evidence))|
                     > |first.grounding.serialized| + Unused(first))
  {
    var b := BuildersOf(marks, source, f);
    BuildersAreSound(marks, source, f);
    OnlyEvidenceIsCut(b, EmptiesOf(f), first);
    SerializerGrows(f.grounding);
    TruncatedExactly(f.grounding.code, marks, Serializer(f.grounding), source.evidence, Room(first));
  }
}
