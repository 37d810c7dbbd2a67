/** The goal section and the feedback section of the prompt. */
module PromptGoal {
  import opened Options
  import opened PromptText

  // ------------------------------------------------------------------ rendering

  /** How characters are escaped, and what follows the constraints. */
  datatype GoalFormat = GoalFormat(code: char -> string, tail: string)

  function Quotes(code: char -> string, texts: seq<string>): string {
    if texts == [] then ""
    else if |texts| == 1 then Quote(code, texts[0])
    else Quotes(code, texts[..|texts| - 1]) + "," + Quote(code, texts[|texts| - 1])
  }

  function RenderGoal(f: GoalFormat, objective: string, constraints: seq<string>): string {
    "{\"objective\":" + Quote(f.code, objective) + ",\"constraints\":[" + Quotes(f.code, constraints) + "]" + f.tail
  }

  type GoalRenderer = (string, seq<string>) -> string

  function GoalSerializer(f: GoalFormat): GoalRenderer {
    (objective, constraints) => RenderGoal(f, objective, constraints)
  }

  predicate GoalFits(render: GoalRenderer, objective: string, constraints: seq<string>, budget: int) {
    |render(objective, constraints)| <= budget
  }

  function ObjectiveRenderer(render: GoalRenderer): Renderer {
    text => render(text, [])
  }

  function ConstraintRenderer(render: GoalRenderer, objective: string, kept: seq<string>): Renderer {
    text => render(objective, kept + [text])
  }

  /** Longer texts and more constraints never render shorter. */
  ghost predicate GoalGrows(render: GoalRenderer) {
    && (forall value :: LengthMonotone(ObjectiveRenderer(render), value))
    && (forall objective, kept, value :: LengthMonotone(ConstraintRenderer(render, objective, kept), value))
    && (forall objective, constraints, n :: 0 <= n <= |constraints| ==>
          |render(objective, constraints[..n])| <= |render(objective, constraints)|)
  }

  lemma {:induction false} QuotesGrow(code: char -> string, texts: seq<string>, n: nat)
    requires n <= |texts|
    ensures |Quotes(code, texts[..n])| <= |Quotes(code, texts)|
    decreases |texts|
  {
    if n < |texts| {
      var front := texts[..|texts| - 1];
      assert front[..n] == texts[..n];
      QuotesGrow(code, front, n);
    } else {
      assert texts[..n] == texts;
    }
  }

  lemma QuotesLast(code: char -> string, texts: seq<string>, last: string)
    ensures |Quotes(code, texts + [last])|
         == (if texts == [] then 0 else |Quotes(code, texts)| + 1) + |Quote(code, last)|
  {
    assert (texts + [last])[..|texts|] == texts;
  }

  lemma ObjectivesGrow(f: GoalFormat, value: string)
    ensures LengthMonotone(ObjectiveRenderer(GoalSerializer(f)), value)
  {
    forall j: nat, k: nat | j <= k <= |value|
      ensures |RenderGoal(f, value[..j] + TRUNCATION_MARKER, [])|
           <= |RenderGoal(f, value[..k] + TRUNCATION_MARKER, [])|
    {
      EncodeGrows(f.code, value, j, k);
    }
  }

  lemma ConstraintsGrow(f: GoalFormat, objective: string, kept: seq<string>, value: string)
    ensures LengthMonotone(ConstraintRenderer(GoalSerializer(f), objective, kept), value)
  {
    forall j: nat, k: nat | j <= k <= |value|
      ensures |RenderGoal(f, objective, kept + [value[..j] + TRUNCATION_MARKER])|
           <= |RenderGoal(f, objective, kept + [value[..k] + TRUNCATION_MARKER])|
    {
      EncodeGrows(f.code, value, j, k);
      QuotesLast(f.code, kept, value[..j] + TRUNCATION_MARKER);
      QuotesLast(f.code, kept, value[..k] + TRUNCATION_MARKER);
    }
  }

  lemma GoalSerializerGrows(f: GoalFormat)
    ensures GoalGrows(GoalSerializer(f))
  {
    var render := GoalSerializer(f);
    forall value ensures LengthMonotone(ObjectiveRenderer(render), value) {
      ObjectivesGrow(f, value);
    }
    forall objective, kept, value ensures LengthMonotone(ConstraintRenderer(render, objective, kept), value) {
      ConstraintsGrow(f, objective, kept, value);
    }
    forall objective, constraints, n | 0 <= n <= |constraints|
      ensures |render(objective, constraints[..n])| <= |render(objective, constraints)|
    {
      QuotesGrow(f.code, constraints, n);
    }
  }

  // ----------------------------------------------------------------- constraints

  /** The constraints shown when the first `n` are in: one more as long as they fit, then the longest
      fitting cut of the first that does not. */
  function KeptFrom(marks: Marks, render: GoalRenderer, objective: string, constraints: seq<string>, budget: int,
                    n: nat): (kept: seq<string>)
    requires n <= |constraints|
    decreases |constraints| - n
  {
    if n == |constraints| then constraints
    else if GoalFits(render, objective, constraints[..n + 1], budget)
    then KeptFrom(marks, render, objective, constraints, budget, n + 1)
    else
      var cut := Fitted(marks, constraints[n], budget, ConstraintRenderer(render, objective, constraints[..n]));
      constraints[..n] + (if cut.Some? then [cut.value] else [])
  }

  /** The first `n` constraints are in, and the next one as far as it fits. */
  ghost predicate KeptAt(marks: Marks, render: GoalRenderer, objective: string, constraints: seq<string>, budget: int,
                         n: nat, kept: seq<string>)
  {
    && n <= |constraints| && GoalFits(render, objective, constraints[..n], budget)
    && if n == |constraints| then kept == constraints
       else
         && !GoalFits(render, objective, constraints[..n + 1], budget)
         && exists cut ::
              && BestFit(marks, constraints[n], budget, ConstraintRenderer(render, objective, constraints[..n]), cut)
              && kept == constraints[..n] + (if cut.Some? then [cut.value] else [])
  }

  lemma {:induction false} KeptIsBest(marks: Marks, render: GoalRenderer, objective: string, constraints: seq<string>,
                                      budget: int, n: nat) returns (m: nat)
    requires GoalGrows(render) && n <= |constraints| && GoalFits(render, objective, constraints[..n], budget)
    ensures KeptAt(marks, render, objective, constraints, budget, m,
                   KeptFrom(marks, render, objective, constraints, budget, n))
    decreases |constraints| - n
  {
    m := n;
    if n < |constraints| {
      if GoalFits(render, objective, constraints[..n + 1], budget) {
        m := KeptIsBest(marks, render, objective, constraints, budget, n + 1);
      } else {
        FittedIsBest(marks, constraints[n], budget, ConstraintRenderer(render, objective, constraints[..n]));
      }
    }
  }

  lemma {:induction false} KeptFits(marks: Marks, render: GoalRenderer, objective: string, constraints: seq<string>,
                                    budget: int, n: nat)
    requires n <= |constraints| && GoalFits(render, objective, constraints[..n], budget)
    ensures GoalFits(render, objective, KeptFrom(marks, render, objective, constraints, budget, n), budget)
    decreases |constraints| - n
  {
    if n == |constraints| {
      assert constraints[..n] == constraints;
    } else if GoalFits(render, objective, constraints[..n + 1], budget) {
      KeptFits(marks, render, objective, constraints, budget, n + 1);
    } else {
      FittedIsHonest(marks, constraints[n], budget, ConstraintRenderer(render, objective, constraints[..n]));
      assert constraints[..n] + [] == constraints[..n];
    }
  }

  /** Constraints that fit are all kept, and constraints that do not are not. */
  lemma {:induction false} KeptCompletely(marks: Marks, render: GoalRenderer, objective: string,
                                          constraints: seq<string>, budget: int, n: nat)
    requires GoalGrows(render) && n <= |constraints| && GoalFits(render, objective, constraints[..n], budget)
    ensures KeptFrom(marks, render, objective, constraints, budget, n) == constraints
       <==> GoalFits(render, objective, constraints, budget)
    decreases |constraints| - n
  {
    KeptFits(marks, render, objective, constraints, budget, n);
    if n < |constraints| && GoalFits(render, objective, constraints, budget) {
      assert |render(objective, constraints[..n + 1])| <= |render(objective, constraints)|;
      KeptCompletely(marks, render, objective, constraints, budget, n + 1);
    }
  }

  // ----------------------------------------------------------------- the section

  datatype GoalSection = GoalSection(
    objective: string,
    constraints: seq<string>,
    serialized: string,
    truncated: bool,
    objectiveTruncated: bool,
    omitted: int)

  /** Fit the objective, then the constraints in order. */
  function GoalOf(marks: Marks, render: GoalRenderer, objective: string, constraints: seq<string>, budget: int)
    : Option<GoalSection>
  {
    var shown := Fitted(marks, objective, budget, ObjectiveRenderer(render));
    if shown.None? then None
    else
      var kept := KeptFrom(marks, render, shown.value, constraints, budget, 0);
      var cut := !GoalFits(render, objective, [], budget);
      Some(GoalSection(shown.value, kept, render(shown.value, kept), cut || kept != constraints, cut,
                       |constraints| - |kept|))
  }

  method BuildGoalAnalysis(marks: Marks, render: GoalRenderer, objective: string, constraints: seq<string>,
                           budget: int)
    returns (section: Option<GoalSection>)
    ensures section == GoalOf(marks, render, objective, constraints, budget)
  {
    var fitted, objectiveTruncated := FitText(marks, objective, budget, ObjectiveRenderer(render));
    if fitted.None? {
      return None;
    }
    var shown := fitted.value;
    var included, constraintTruncated := KeepConstraints(marks, render, shown, constraints, budget);
    var omitted := |constraints| - |included|;
    section := Some(GoalSection(shown, included, render(shown, included),
                                objectiveTruncated || constraintTruncated || omitted > 0,
                                objectiveTruncated, omitted));
  }

  /** The loop over the constraints, up to the first that does not fit whole. */
  method KeepConstraints(marks: Marks, render: GoalRenderer, shown: string, constraints: seq<string>, budget: int)
    returns (included: seq<string>, cut: bool)
    ensures included == KeptFrom(marks, render, shown, constraints, budget, 0)
    ensures cut <==> included != constraints
    ensures |included| <= |constraints|
  {
    included, cut := [], false;
    while |included| < |constraints|
      invariant |included| <= |constraints| && included == constraints[..|included|]
      invariant KeptFrom(marks, render, shown, constraints, budget, |included|)
             == KeptFrom(marks, render, shown, constraints, budget, 0)
    {
      var n := |included|;
      var full := included + [constraints[n]];
      assert full == constraints[..n + 1];
      if |render(shown, full)| <= budget {
        included := full;
        continue;
      }
      FittedIsHonest(marks, constraints[n], budget, ConstraintRenderer(render, shown, included));
      var candidate, _ := FitText(marks, constraints[n], budget, ConstraintRenderer(render, shown, included));
      if candidate.Some? {
        included := included + [candidate.value];
        assert included[n] != constraints[n];
      }
      return included, true;
    }
  }

  /** What a goal section is: the objective as far as it fits, then the constraints as far as they do. */
  ghost predicate HonestGoal(marks: Marks, render: GoalRenderer, objective: string, constraints: seq<string>,
                             budget: int, g: GoalSection)
  {
    && BestFit(marks, objective, budget, ObjectiveRenderer(render), Some(g.objective))
    && (exists n: nat :: KeptAt(marks, render, g.objective, constraints, budget, n, g.constraints))
    && g.serialized == render(g.objective, g.constraints) && |g.serialized| <= budget
    && g.omitted == |constraints| - |g.constraints| >= 0
    && (g.objectiveTruncated <==> !GoalFits(render, objective, [], budget))
    && (g.truncated <==> !GoalFits(render, objective, constraints, budget))
    && (!g.truncated ==> g.objective == objective && g.constraints == constraints)
  }

  /** The goal is refused exactly when neither the objective nor the marker alone fits; otherwise its
      section is truncated exactly when the complete goal does not fit. */
  lemma GoalIsHonest(marks: Marks, render: GoalRenderer, objective: string, constraints: seq<string>, budget: int)
    requires GoalGrows(render)
    ensures var g := GoalOf(marks, render, objective, constraints, budget);
            && (g.None? <==>
                  !GoalFits(render, objective, [], budget) && !GoalFits(render, TRUNCATION_MARKER, [], budget))
            && (g.Some? ==> HonestGoal(marks, render, objective, constraints, budget, g.value))
  {
    var shown := Fitted(marks, objective, budget, ObjectiveRenderer(render));
    assert LengthMonotone(ObjectiveRenderer(render), objective);
    FittedIsBest(marks, objective, budget, ObjectiveRenderer(render));
    FittedIsHonest(marks, objective, budget, ObjectiveRenderer(render));
    if shown.Some? {
      assert constraints[..0] == [];
      var m := KeptIsBest(marks, render, shown.value, constraints, budget, 0);
      KeptFits(marks, render, shown.value, constraints, budget, 0);
      KeptCompletely(marks, render, shown.value, constraints, budget, 0);
      assert |render(objective, constraints[..0])| <= |render(objective, constraints)|;
    }
  }

  // -------------------------------------------------------------------- feedback

  datatype TextSection = TextSection(shown: Option<string>, serialized: string, truncated: bool)

  function FeedbackOf(marks: Marks, render: Renderer, feedback: Option<string>, budget: int): Option<TextSection> {
    if feedback.None? then Some(TextSection(None, "null", false))
    else
      var fitted := Fitted(marks, feedback.value, budget, render);
      if fitted.None? then None
      else Some(TextSection(fitted, render(fitted.value), !Fits(render, feedback.value, budget)))
  }

  method BuildFeedback(marks: Marks, render: Renderer, feedback: Option<string>, budget: int)
    returns (section: Option<TextSection>)
    ensures section == FeedbackOf(marks, render, feedback, budget)
  {
    if feedback.None? {
      return Some(TextSection(None, "null", false));
    }
    var fitted, truncated := FitText(marks, feedback.value, budget, render);
    if fitted.None? {
      return None;
    }
    section := Some(TextSection(fitted, render(fitted.value), truncated));
  }

  function QuoteSerializer(code: char -> string): Renderer {
    text => Quote(code, text)
  }

  lemma QuoteGrows(code: char -> string, value: string)
    ensures LengthMonotone(QuoteSerializer(code), value)
  {
    forall j: nat, k: nat | j <= k <= |value|
      ensures |Quote(code, value[..j] + TRUNCATION_MARKER)| <= |Quote(code, value[..k] + TRUNCATION_MARKER)|
    {
      EncodeGrows(code, value, j, k);
    }
  }

  /** What a feedback section is: nothing for no feedback, else the feedback as far as it fits. */
  ghost predicate HonestFeedback(marks: Marks, render: Renderer, feedback: Option<string>, budget: int, t: TextSection)
  {
    if feedback.None? then t == TextSection(None, "null", false)
    else
      && t.shown.Some? && BestFit(marks, feedback.value, budget, render, t.shown)
      && t.serialized == render(t.shown.value) && |t.serialized| <= budget
      && (t.truncated <==> !Fits(render, feedback.value, budget))
  }

  /** Feedback is refused exactly when neither it nor the marker alone fits. */
  lemma FeedbackIsHonest(marks: Marks, render: Renderer, feedback: Option<string>, budget: int)
    requires feedback.Some? ==> LengthMonotone(render, feedback.value)
    ensures var t := FeedbackOf(marks, render, feedback, budget);
            && (t.None? <==> feedback.Some? && !Fits(render, feedback.value, budget)
                             && !Fits(render, TRUNCATION_MARKER, budget))
            && (t.Some? ==> HonestFeedback(marks, render, feedback, budget, t.value))
  {
    if feedback.Some? {
      FittedIsBest(marks, feedback.value, budget, render);
      FittedIsHonest(marks, feedback.value, budget, render);
    }
  }
}
