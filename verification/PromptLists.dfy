/** The list sections of the prompt: projects, tasks and evidence. */
module PromptLists {
  import opened Options
  import opened PromptText

  // ------------------------------------------------------------------ rendering

  /** One listed project, task or piece of evidence: its serialized identity fields, without the
      closing brace, and its long text. */
  datatype Item = Item(identity: string, text: Option<string>)

  /** What the projection shows of the long text. */
  datatype Shown = Hidden | Null | Text(shown: string)

  datatype Projected = Projected(identity: string, text: Shown)

  /** The fixed parts around the items and before a text, and how its characters are escaped. */
  datatype ListFormat = ListFormat(head: string, field: string, tail: string, code: char -> string)

  function RenderItem(f: ListFormat, p: Projected): string {
    p.identity
    + (match p.text
       case Hidden => ""
       case Null => f.field + "null"
       case Text(t) => f.field + Quote(f.code, t))
    + "}"
  }

  function Listed(f: ListFormat, items: seq<Projected>): string {
    if items == [] then ""
    else if |items| == 1 then RenderItem(f, items[0])
    else Listed(f, items[..|items| - 1]) + "," + RenderItem(f, items[|items| - 1])
  }

  function RenderList(f: ListFormat, items: seq<Projected>): string {
    f.head + Listed(f, items) + f.tail
  }

  /** How a list section is serialized. */
  type ListRenderer = seq<Projected> -> string

  function Serializer(f: ListFormat): ListRenderer {
    items => RenderList(f, items)
  }

  predicate ListFits(render: ListRenderer, items: seq<Projected>, budget: int) {
    |render(items)| <= budget
  }

  /** The same item with its text hidden, or with a text that takes no more room. */
  predicate NoLonger(code: char -> string, a: Projected, b: Projected) {
    && a.identity == b.identity
    && (|| a.text == b.text || a.text == Hidden
        || (a.text.Text? && b.text.Text? && |Encode(code, a.text.shown)| <= |Encode(code, b.text.shown)|))
  }

  predicate NoLongerList(code: char -> string, a: seq<Projected>, b: seq<Projected>) {
    |a| <= |b| && forall i :: 0 <= i < |a| ==> NoLonger(code, a[i], b[i])
  }

  /** Fewer items with no longer texts never render longer. */
  ghost predicate Growing(code: char -> string, render: ListRenderer) {
    forall a, b :: NoLongerList(code, a, b) ==> |render(a)| <= |render(b)|
  }

  lemma ItemsGrow(f: ListFormat, a: Projected, b: Projected)
    requires NoLonger(f.code, a, b)
    ensures |RenderItem(f, a)| <= |RenderItem(f, b)|
  {
  }

  lemma {:induction false} RenderListGrows(f: ListFormat, a: seq<Projected>, b: seq<Projected>)
    requires NoLongerList(f.code, a, b)
    ensures |RenderList(f, a)| <= |RenderList(f, b)|
    decreases |b|
  {
    if a != [] {
      var last := |b| - 1;
      if |a| < |b| {
        RenderListGrows(f, a, b[..last]);
      } else {
        ItemsGrow(f, a[last], b[last]);
        if last > 0 {
          RenderListGrows(f, a[..last], b[..last]);
        }
      }
    }
  }

  /** The serialized lists grow with what they show. */
  lemma SerializerGrows(f: ListFormat)
    ensures Growing(f.code, Serializer(f))
  {
    forall a, b | NoLongerList(f.code, a, b) ensures |Serializer(f)(a)| <= |Serializer(f)(b)| {
      RenderListGrows(f, a, b);
    }
  }

  // ------------------------------------------------------------- choosing items

  function IdentityOnly(item: Item): Projected {
    Projected(item.identity, if item.text.None? then Null else Hidden)
  }

  function Whole(item: Item): Projected {
    Projected(item.identity, if item.text.None? then Null else Text(item.text.value))
  }

  /** The first `n` items by identity. */
  function Ids(items: seq<Item>, n: nat): seq<Projected>
    requires n <= |items|
  {
    seq(n, i requires 0 <= i < n => IdentityOnly(items[i]))
  }

  /** The whole source. */
  function Complete(items: seq<Item>): seq<Projected> {
    seq(|items|, i requires 0 <= i < |items| => Whole(items[i]))
  }

  /** How many items are kept: one more as long as the identities fit. */
  function Greedy(render: ListRenderer, items: seq<Item>, budget: int, n: nat): (k: nat)
    requires n <= |items|
    ensures n <= k <= |items|
    decreases |items| - n
  {
    if n == |items| || !ListFits(render, Ids(items, n + 1), budget) then n
    else Greedy(render, items, budget, n + 1)
  }

  method RetainIdentities(render: ListRenderer, items: seq<Item>, budget: int) returns (projected: seq<Projected>)
    ensures projected == Ids(items, Greedy(render, items, budget, 0))
  {
    projected := [];
    while |projected| < |items|
      invariant |projected| <= |items| && projected == Ids(items, |projected|)
      invariant Greedy(render, items, budget, |projected|) == Greedy(render, items, budget, 0)
    {
      var candidate := projected + [IdentityOnly(items[|projected|])];
      assert candidate == Ids(items, |projected| + 1);
      if |render(candidate)| > budget {
        break;
      }
      projected := candidate;
    }
  }

  lemma {:induction false} GreedyStops(render: ListRenderer, items: seq<Item>, budget: int, n: nat)
    requires n <= |items| && (n > 0 ==> ListFits(render, Ids(items, n), budget))
    ensures var k := Greedy(render, items, budget, n);
            && (k > 0 ==> ListFits(render, Ids(items, k), budget))
            && (k < |items| ==> !ListFits(render, Ids(items, k + 1), budget))
    decreases |items| - n
  {
    if n < |items| && ListFits(render, Ids(items, n + 1), budget) {
      GreedyStops(render, items, budget, n + 1);
    }
  }

  lemma MoreIdsAreLonger(code: char -> string, render: ListRenderer, items: seq<Item>, n: nat, m: nat)
    requires Growing(code, render) && n <= m <= |items|
    ensures |render(Ids(items, n))| <= |render(Ids(items, m))|
  {
    assert NoLongerList(code, Ids(items, n), Ids(items, m));
  }

  /** An item is kept exactly when the identities up to it fit. */
  lemma GreedyExactly(code: char -> string, render: ListRenderer, items: seq<Item>, budget: int, n: nat)
    requires Growing(code, render) && 0 < n <= |items|
    ensures n <= Greedy(render, items, budget, 0) <==> ListFits(render, Ids(items, n), budget)
  {
    var k := Greedy(render, items, budget, 0);
    GreedyStops(render, items, budget, 0);
    if n <= k {
      MoreIdsAreLonger(code, render, items, n, k);
    } else {
      MoreIdsAreLonger(code, render, items, k + 1, n);
    }
  }

  // -------------------------------------------------------------- showing texts

  function WithText(items: seq<Projected>, at: nat, text: string): seq<Projected>
    requires at < |items|
  {
    items[at := Projected(items[at].identity, Text(text))]
  }

  function TextRenderer(render: ListRenderer, items: seq<Projected>, at: nat): Renderer
    requires at < |items|
  {
    text => render(WithText(items, at, text))
  }

  lemma TextRendererIsMonotone(code: char -> string, render: ListRenderer, items: seq<Projected>, at: nat,
                               value: string)
    requires Growing(code, render) && at < |items|
    ensures LengthMonotone(TextRenderer(render, items, at), value)
  {
    forall j: nat, k: nat | j <= k <= |value|
      ensures |render(WithText(items, at, value[..j] + TRUNCATION_MARKER))|
           <= |render(WithText(items, at, value[..k] + TRUNCATION_MARKER))|
    {
      EncodeGrows(code, value, j, k);
      assert NoLongerList(code, WithText(items, at, value[..j] + TRUNCATION_MARKER),
                          WithText(items, at, value[..k] + TRUNCATION_MARKER));
    }
  }

  /** The list after item `at` got its text back, or its longest fitting cut, or nothing. */
  function ShowAt(marks: Marks, render: ListRenderer, item: Item, items: seq<Projected>, at: nat, budget: int)
    : (shown: seq<Projected>)
    requires at < |items|
    ensures |shown| == |items| && shown == items[at := shown[at]]
  {
    if item.text.None? then items
    else
      var fitted := Fitted(marks, item.text.value, budget, TextRenderer(render, items, at));
      if fitted.None? then items else WithText(items, at, fitted.value)
  }

  method ShowText(marks: Marks, render: ListRenderer, item: Item, items: seq<Projected>, at: nat, budget: int)
    returns (shown: seq<Projected>, cut: bool)
    requires at < |items| && items[at] == IdentityOnly(item)
    ensures shown == ShowAt(marks, render, item, items, at, budget)
    ensures cut <==> shown[at] != Whole(item)
  {
    shown, cut := items, false;
    if item.text.Some? {
      var text := item.text.value;
      var full := WithText(items, at, text);
      if |render(full)| <= budget {
        shown := full;
      } else {
        FittedIsHonest(marks, text, budget, TextRenderer(render, items, at));
        var fitted, _ := FitText(marks, text, budget, TextRenderer(render, items, at));
        if fitted.Some? {
          shown := WithText(items, at, fitted.value);
        }
        cut := true;
      }
    }
  }

  /** What one item shows: its text whole if it fits, else its longest fitting cut, and nothing
      exactly when not even the marker fits. */
  ghost predicate ShowsBest(marks: Marks, render: ListRenderer, item: Item, stage: seq<Projected>, at: nat,
                            budget: int, p: Projected)
    requires at < |stage|
  {
    && p.identity == item.identity
    && match item.text
       case None => p.text == Null
       case Some(text) =>
         if p.text == Hidden then BestFit(marks, text, budget, TextRenderer(render, stage, at), None)
         else p.text.Text? && BestFit(marks, text, budget, TextRenderer(render, stage, at), Some(p.text.shown))
  }

  lemma ShowAtIsBest(code: char -> string, marks: Marks, render: ListRenderer, item: Item, items: seq<Projected>,
                     at: nat, budget: int)
    requires Growing(code, render) && at < |items| && items[at] == IdentityOnly(item)
    ensures ShowsBest(marks, render, item, items, at, budget,
                      ShowAt(marks, render, item, items, at, budget)[at])
  {
    if item.text.Some? {
      TextRendererIsMonotone(code, render, items, at, item.text.value);
      FittedIsBest(marks, item.text.value, budget, TextRenderer(render, items, at));
    }
  }

  lemma ShowAtFits(marks: Marks, render: ListRenderer, item: Item, items: seq<Projected>, at: nat, budget: int)
    requires at < |items| && ListFits(render, items, budget)
    ensures ListFits(render, ShowAt(marks, render, item, items, at, budget), budget)
  {
    if item.text.Some? {
      FittedIsHonest(marks, item.text.value, budget, TextRenderer(render, items, at));
    }
  }

  /** Give the items from `i` on their texts back, in order. */
  function ShowFrom(marks: Marks, render: ListRenderer, items: seq<Item>, shown: seq<Projected>, i: nat, budget: int)
    : (after: seq<Projected>)
    requires i <= |shown| <= |items|
    ensures |after| == |shown|
    decreases |shown| - i
  {
    if i == |shown| then shown
    else ShowFrom(marks, render, items, ShowAt(marks, render, items[i], shown, i, budget), i + 1, budget)
  }

  lemma {:induction false} ShowFromKeeps(marks: Marks, render: ListRenderer, items: seq<Item>, shown: seq<Projected>,
                                         i: nat, budget: int)
    requires i <= |shown| <= |items|
    ensures var after := ShowFrom(marks, render, items, shown, i, budget);
            && (forall j :: 0 <= j < i ==> after[j] == shown[j])
            && (ListFits(render, shown, budget) ==> ListFits(render, after, budget))
    decreases |shown| - i
  {
    if i < |shown| {
      if ListFits(render, shown, budget) {
        ShowAtFits(marks, render, items[i], shown, i, budget);
      }
      ShowFromKeeps(marks, render, items, ShowAt(marks, render, items[i], shown, i, budget), i + 1, budget);
    }
  }

  /** From item `i` on only identities are shown so far. */
  predicate PlainFrom(items: seq<Item>, shown: seq<Projected>, i: nat)
    requires |shown| <= |items|
  {
    forall j :: i <= j < |shown| ==> shown[j] == IdentityOnly(items[j])
  }

  /** The list when item `j` has its turn: the earlier texts as shown, the later items by identity. */
  function Stage(items: seq<Item>, shown: seq<Projected>, j: nat): (stage: seq<Projected>)
    requires j < |shown| <= |items|
    ensures |stage| == |shown|
  {
    seq(|shown|, i requires 0 <= i < |shown| => if i < j then shown[i] else IdentityOnly(items[i]))
  }

  /** Every item shows the best it could when its turn came, before the later ones. */
  ghost predicate AllShowBest(marks: Marks, render: ListRenderer, items: seq<Item>, shown: seq<Projected>,
                              i: nat, budget: int)
    requires |shown| <= |items|
  {
    forall j {:trigger Stage(items, shown, j)} :: i <= j < |shown| ==>
      ShowsBest(marks, render, items[j], Stage(items, shown, j), j, budget, shown[j])
  }

  /** Points the verifier at one turn. */
  predicate Turn(stage: seq<Projected>, j: nat) {
    true
  }

  /** `good` holds of what an item shows whenever it has its turn. */
  ghost predicate TurnsAreGood(marks: Marks, render: ListRenderer, items: seq<Item>, budget: int,
                               good: (seq<Projected>, nat, Projected) -> bool)
  {
    forall stage: seq<Projected>, j: nat {:trigger Turn(stage, j)} ::
      Turn(stage, j) && j < |stage| <= |items| && stage[j] == IdentityOnly(items[j]) ==>
        good(stage, j, ShowAt(marks, render, items[j], stage, j, budget)[j])
  }

  ghost predicate GoodFrom(items: seq<Item>, after: seq<Projected>, i: nat,
                           good: (seq<Projected>, nat, Projected) -> bool)
    requires |after| <= |items|
  {
    forall j: nat {:trigger Stage(items, after, j)} :: i <= j < |after| ==> good(Stage(items, after, j), j, after[j])
  }

  /** Then it holds of all that is shown in the end. */
  lemma {:induction false} ShowFromIsGood(marks: Marks, render: ListRenderer, items: seq<Item>, shown: seq<Projected>,
                                          i: nat, budget: int, good: (seq<Projected>, nat, Projected) -> bool)
    requires TurnsAreGood(marks, render, items, budget, good)
    requires i <= |shown| <= |items| && PlainFrom(items, shown, i)
    ensures var after := ShowFrom(marks, render, items, shown, i, budget);
            GoodFrom(items, after, i, good)
    decreases |shown| - i
  {
    if i < |shown| {
      var next := ShowAt(marks, render, items[i], shown, i, budget);
      var after := ShowFrom(marks, render, items, next, i + 1, budget);
      assert Turn(shown, i);
      ShowFromIsGood(marks, render, items, next, i + 1, budget, good);
      ShowFromKeeps(marks, render, items, next, i + 1, budget);
      StageIsShown(items, shown, after, i);
    }
  }

  lemma ShowFromIsBest(code: char -> string, marks: Marks, render: ListRenderer, items: seq<Item>,
                       shown: seq<Projected>, i: nat, budget: int)
    requires Growing(code, render) && i <= |shown| <= |items| && PlainFrom(items, shown, i)
    ensures AllShowBest(marks, render, items, ShowFrom(marks, render, items, shown, i, budget), i, budget)
  {
    var good := (stage: seq<Projected>, j: nat, p: Projected) =>
      j < |stage| && j < |items| && ShowsBest(marks, render, items[j], stage, j, budget, p);
    forall stage: seq<Projected>, j: nat {:trigger Turn(stage, j)} |
      j < |stage| <= |items| && stage[j] == IdentityOnly(items[j])
      ensures good(stage, j, ShowAt(marks, render, items[j], stage, j, budget)[j])
    {
      ShowAtIsBest(code, marks, render, items[j], stage, j, budget);
    }
    ShowFromIsGood(marks, render, items, shown, i, budget, good);
  }

  lemma StageIsShown(items: seq<Item>, shown: seq<Projected>, after: seq<Projected>, i: nat)
    requires i < |shown| == |after| <= |items| && PlainFrom(items, shown, i)
    requires forall j :: 0 <= j < i ==> after[j] == shown[j]
    ensures Stage(items, after, i) == shown
  {
  }

  // -------------------------------------------------------------- list sections

  /** A section with its place in the manifest. */
  datatype Projection = Projection(
    items: seq<Projected>,
    serialized: string,
    truncated: bool,
    textsTruncated: nat,
    itemsOmitted: nat)

  /** How many of the first `n` items do not show their text in full. */
  function CutTexts(items: seq<Item>, shown: seq<Projected>, n: nat): nat
    requires n <= |shown| <= |items|
  {
    if n == 0 then 0
    else CutTexts(items, shown, n - 1) + (if shown[n - 1] == Whole(items[n - 1]) then 0 else 1)
  }

  lemma {:induction false} CutTextsLocal(items: seq<Item>, a: seq<Projected>, b: seq<Projected>, n: nat)
    requires n <= |a| == |b| <= |items| && forall i :: 0 <= i < n ==> a[i] == b[i]
    ensures CutTexts(items, a, n) == CutTexts(items, b, n)
  {
    if n > 0 {
      CutTextsLocal(items, a, b, n - 1);
    }
  }

  lemma {:induction false} NothingCut(items: seq<Item>, shown: seq<Projected>, n: nat)
    requires n <= |shown| <= |items|
    ensures CutTexts(items, shown, n) == 0 <==> forall i :: 0 <= i < n ==> shown[i] == Whole(items[i])
  {
    if n > 0 {
      NothingCut(items, shown, n - 1);
    }
  }

  /** The items of a section: as many as fit by identity, then their texts in order. */
  function ShownItems(marks: Marks, render: ListRenderer, items: seq<Item>, budget: int): (shown: seq<Projected>)
    ensures |shown| == Greedy(render, items, budget, 0)
  {
    ShowFrom(marks, render, items, Ids(items, Greedy(render, items, budget, 0)), 0, budget)
  }

  /** A section with these items. */
  function SectionWith(render: ListRenderer, items: seq<Item>, shown: seq<Projected>): Projection
    requires |shown| <= |items|
  {
    var cut := CutTexts(items, shown, |shown|);
    Projection(shown, render(shown), cut > 0 || |shown| < |items|, cut, |items| - |shown|)
  }

  function ProjectionOf(marks: Marks, render: ListRenderer, items: seq<Item>, budget: int): Projection {
    SectionWith(render, items, ShownItems(marks, render, items, budget))
  }

  lemma TextIsCounted(items: seq<Item>, before: seq<Projected>, shown: seq<Projected>, i: nat, cut: bool)
    requires i < |before| == |shown| <= |items| && shown == before[i := shown[i]]
    requires cut <==> shown[i] != Whole(items[i])
    ensures CutTexts(items, shown, i + 1) == CutTexts(items, before, i) + (if cut then 1 else 0)
    ensures PlainFrom(items, before, i) ==> PlainFrom(items, shown, i + 1)
  {
    CutTextsLocal(items, before, shown, i);
  }

  method BuildProjection(marks: Marks, render: ListRenderer, items: seq<Item>, budget: int)
    returns (section: Projection)
    ensures section == ProjectionOf(marks, render, items, budget)
  {
    var shown := RetainIdentities(render, items, budget);
    var kept := |shown|;
    ghost var goal := ShownItems(marks, render, items, budget);
    var cutTexts := 0;
    var i := 0;
    while i < kept
      invariant 0 <= i <= kept == |shown| <= |items|
      invariant PlainFrom(items, shown, i)
      invariant ShowFrom(marks, render, items, shown, i, budget) == goal
      invariant cutTexts == CutTexts(items, shown, i)
    {
      ghost var before := shown;
      var cut;
      shown, cut := ShowText(marks, render, items[i], shown, i, budget);
      if cut {
        cutTexts := cutTexts + 1;
      }
      TextIsCounted(items, before, shown, i, cut);
      i := i + 1;
    }
    section := Projection(shown, render(shown), cutTexts > 0 || |items| > kept, cutTexts, |items| - kept);
  }

  /** What a list section is: the longest prefix of the source whose identities fit, each item
      showing the best it could, and exact counts of what is missing. */
  ghost predicate HonestList(marks: Marks, render: ListRenderer, items: seq<Item>, budget: int, p: Projection) {
    && |p.items| <= |items| && p.serialized == render(p.items)
    && (forall n :: 0 < n <= |items| ==> (n <= |p.items| <==> ListFits(render, Ids(items, n), budget)))
    && AllShowBest(marks, render, items, p.items, 0, budget)
    && p.itemsOmitted == |items| - |p.items|
    && p.textsTruncated == CutTexts(items, p.items, |p.items|)
    && (p.truncated <==> p.itemsOmitted > 0 || p.textsTruncated > 0)
  }

  lemma ProjectionIsHonest(code: char -> string, marks: Marks, render: ListRenderer, items: seq<Item>, budget: int)
    requires Growing(code, render)
    ensures HonestList(marks, render, items, budget, ProjectionOf(marks, render, items, budget))
  {
    var kept := Greedy(render, items, budget, 0);
    ShowFromIsBest(code, marks, render, items, Ids(items, kept), 0, budget);
    forall n | 0 < n <= |items| ensures n <= kept <==> ListFits(render, Ids(items, n), budget) {
      GreedyExactly(code, render, items, budget, n);
    }
  }

  /** A section stays within its budget whenever the empty list does, and is never shorter than
      the empty list. */
  lemma ProjectionBounds(code: char -> string, marks: Marks, render: ListRenderer, items: seq<Item>, budget: int)
    requires Growing(code, render)
    ensures var length, empty := |ProjectionOf(marks, render, items, budget).serialized|, |render([])|;
            empty <= length && (length <= budget || length == empty)
  {
    var kept := Greedy(render, items, budget, 0);
    GreedyStops(render, items, budget, 0);
    ShowFromKeeps(marks, render, items, Ids(items, kept), 0, budget);
    var shown := ShownItems(marks, render, items, budget);
    assert NoLongerList(code, [], shown);
    if kept == 0 {
      assert shown == [];
    }
  }

  lemma TowardsComplete(code: char -> string, render: ListRenderer, items: seq<Item>, shown: seq<Projected>, i: nat)
    requires Growing(code, render) && |shown| == |items| && i < |items| && PlainFrom(items, shown, i)
    requires forall j :: 0 <= j < i ==> shown[j] == Whole(items[j])
    ensures items[i].text.Some? ==>
              |render(WithText(shown, i, items[i].text.value))| <= |render(Complete(items))|
  {
    if items[i].text.Some? {
      assert NoLongerList(code, WithText(shown, i, items[i].text.value), Complete(items));
    }
  }

  lemma {:induction false} ShowFromCompletes(code: char -> string, marks: Marks, render: ListRenderer,
                                             items: seq<Item>, shown: seq<Projected>, i: nat, budget: int)
    requires Growing(code, render) && i <= |shown| == |items| && PlainFrom(items, shown, i)
    requires forall j :: 0 <= j < i ==> shown[j] == Whole(items[j])
    requires ListFits(render, Complete(items), budget)
    ensures ShowFrom(marks, render, items, shown, i, budget) == Complete(items)
    decreases |shown| - i
  {
    if i < |shown| {
      TowardsComplete(code, render, items, shown, i);
      var next := ShowAt(marks, render, items[i], shown, i, budget);
      assert next[i] == Whole(items[i]);
      ShowFromCompletes(code, marks, render, items, next, i + 1, budget);
    }
  }

  /** A source that fits is shown in full. */
  lemma FittingIsComplete(code: char -> string, marks: Marks, render: ListRenderer, items: seq<Item>, budget: int)
    requires Growing(code, render) && ListFits(render, Complete(items), budget)
    ensures ShownItems(marks, render, items, budget) == Complete(items)
  {
    if items != [] {
      assert NoLongerList(code, Ids(items, |items|), Complete(items));
      GreedyExactly(code, render, items, budget, |items|);
    }
    ShowFromCompletes(code, marks, render, items, Ids(items, |items|), 0, budget);
  }

  lemma ShownFits(marks: Marks, render: ListRenderer, items: seq<Item>, budget: int)
    ensures ShownItems(marks, render, items, budget) != [] ==>
              ListFits(render, ShownItems(marks, render, items, budget), budget)
  {
    GreedyStops(render, items, budget, 0);
    ShowFromKeeps(marks, render, items, Ids(items, Greedy(render, items, budget, 0)), 0, budget);
  }

  /** A section is truncated exactly when its complete source does not fit. */
  lemma TruncatedExactly(code: char -> string, marks: Marks, render: ListRenderer, items: seq<Item>, budget: int)
    requires Growing(code, render)
    ensures var p := ProjectionOf(marks, render, items, budget);
            && (p.truncated <==> items != [] && !ListFits(render, Complete(items), budget))
            && (!p.truncated ==> p.items == Complete(items) && p.serialized == render(Complete(items)))
  {
    var shown := ShownItems(marks, render, items, budget);
    NothingCut(items, shown, |shown|);
    ShownFits(marks, render, items, budget);
    if ListFits(render, Complete(items), budget) {
      FittingIsComplete(code, marks, render, items, budget);
    } else if !SectionWith(render, items, shown).truncated {
      assert shown == Complete(items);
    }
  }

  // ------------------------------------------------------------ smaller budgets

  /** Giving texts back only makes the list longer. */
  lemma ShowFromGrows(code: char -> string, marks: Marks, render: ListRenderer, items: seq<Item>,
                      shown: seq<Projected>, i: nat, budget: int)
    requires Growing(code, render) && i <= |shown| <= |items| && PlainFrom(items, shown, i)
    ensures |render(shown)| <= |render(ShowFrom(marks, render, items, shown, i, budget))|
  {
    var after := ShowFrom(marks, render, items, shown, i, budget);
    ShowFromKeeps(marks, render, items, shown, i, budget);
    ShowFromIsBest(code, marks, render, items, shown, i, budget);
    forall j | 0 <= j < |shown| ensures NoLonger(code, shown[j], after[j]) {
      if j >= i {
        assert |Stage(items, after, j)| == |after|;
      }
    }
    assert NoLongerList(code, shown, after);
  }

  lemma ShowAtShrinks(code: char -> string, marks: Marks, render: ListRenderer, item: Item, items: seq<Projected>,
                      at: nat, small: int, large: int)
    requires Growing(code, render) && at < |items| && items[at] == IdentityOnly(item) && small <= large
    requires ListFits(render, ShowAt(marks, render, item, items, at, large), small)
    ensures ShowAt(marks, render, item, items, at, small) == ShowAt(marks, render, item, items, at, large)
  {
    if item.text.Some? {
      TextRendererIsMonotone(code, render, items, at, item.text.value);
      FittedShrinks(marks, item.text.value, small, large, TextRenderer(render, items, at));
    }
  }

  lemma {:induction false} ShowFromShrinks(code: char -> string, marks: Marks, render: ListRenderer, items: seq<Item>,
                                           shown: seq<Projected>, i: nat, small: int, large: int)
    requires Growing(code, render) && i <= |shown| <= |items| && PlainFrom(items, shown, i) && small <= large
    requires ListFits(render, ShowFrom(marks, render, items, shown, i, large), small)
    ensures ShowFrom(marks, render, items, shown, i, small) == ShowFrom(marks, render, items, shown, i, large)
    decreases |shown| - i
  {
    if i < |shown| {
      var next := ShowAt(marks, render, items[i], shown, i, large);
      ShowFromGrows(code, marks, render, items, next, i + 1, large);
      ShowAtShrinks(code, marks, render, items[i], shown, i, small, large);
      ShowFromShrinks(code, marks, render, items, next, i + 1, small, large);
    }
  }

  lemma GreedyShrinks(code: char -> string, marks: Marks, render: ListRenderer, items: seq<Item>,
                      small: int, large: int)
    requires Growing(code, render) && small <= large
    requires ListFits(render, ShownItems(marks, render, items, large), small)
    ensures Greedy(render, items, small, 0) == Greedy(render, items, large, 0)
  {
    var k, m := Greedy(render, items, small, 0), Greedy(render, items, large, 0);
    ShowFromGrows(code, marks, render, items, Ids(items, m), 0, large);
    if m > 0 {
      GreedyExactly(code, render, items, small, m);
    }
    if k > 0 {
      GreedyExactly(code, render, items, small, k);
      GreedyExactly(code, render, items, large, k);
    }
  }

  /** A section that does not need all of its budget is the section of every smaller budget that it
      does not exceed: only more room than it uses can make it show more. */
  lemma SameSection(code: char -> string, marks: Marks, render: ListRenderer, items: seq<Item>, small: int, large: int)
    requires Growing(code, render) && small <= large
    requires |ProjectionOf(marks, render, items, large).serialized| <= small
    ensures ProjectionOf(marks, render, items, small) == ProjectionOf(marks, render, items, large)
  {
    GreedyShrinks(code, marks, render, items, small, large);
    var ids := Ids(items, Greedy(render, items, large, 0));
    ShowFromShrinks(code, marks, render, items, ids, 0, small, large);
  }

  const MAX_GROUNDING_CONTEXT_CHARACTERS: int := 12_000

  /** The evidence section refuses budgets outside its own limits. */
  method BuildGrounding(marks: Marks, render: ListRenderer, evidence: seq<Item>, budget: int)
    returns (section: Option<Projection>)
    ensures section == if 1 <= budget <= MAX_GROUNDING_CONTEXT_CHARACTERS
                       then Some(ProjectionOf(marks, render, evidence, budget)) else None
  {
    if !(1 <= budget <= MAX_GROUNDING_CONTEXT_CHARACTERS) {
      return None;
    }
    var built := BuildProjection(marks, render, evidence, budget);
    section := Some(built);
  }
}
