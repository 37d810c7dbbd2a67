/** Cutting one text to a character budget without breaking what the reader sees as one character. */
module PromptText {
  import opened Options

  const ZERO_WIDTH_JOINER: char := '\U{200D}'
  const TRUNCATION_MARKER: string := "\U{2026}[truncated]"

  /** Which characters the Unicode tables call combining or marks. */
  type Marks = char -> bool

  /** Serialized text of a section as a function of the text being fitted. */
  type Renderer = string -> string

  predicate IsVariationSelector(c: char) {
    0xFE00 <= c as int <= 0xFE0F || 0xE0100 <= c as int <= 0xE01EF
  }

  predicate IsGraphemeExtension(marks: Marks, c: char) {
    c == ZERO_WIDTH_JOINER || marks(c) || IsVariationSelector(c)
  }

  // ---------------------------------------------------------- safe prefixes

  /** Cutting here leaves a joiner dangling or a base without its extension. */
  predicate Broken(marks: Marks, value: string, cut: nat)
    requires 0 < cut < |value|
  {
    value[cut - 1] == ZERO_WIDTH_JOINER || IsGraphemeExtension(marks, value[cut])
  }

  predicate Boundary(marks: Marks, value: string, cut: nat)
    requires cut <= |value|
  {
    cut == 0 || cut == |value| || !Broken(marks, value, cut)
  }

  function StepBack(marks: Marks, value: string, cut: nat): (r: nat)
    requires cut < |value|
    ensures r <= cut
  {
    if cut > 0 && Broken(marks, value, cut) then StepBack(marks, value, cut - 1) else cut
  }

  function SafeLength(marks: Marks, value: string, maximum: int): (r: nat)
    ensures r <= |value|
  {
    if maximum >= |value| then |value|
    else if maximum <= 0 then 0
    else StepBack(marks, value, maximum)
  }

  method UnicodeSafePrefix(marks: Marks, value: string, maximum: int) returns (prefix: string)
    ensures prefix == value[..SafeLength(marks, value, maximum)]
  {
    if maximum >= |value| {
      return value;
    }
    if maximum <= 0 {
      return "";
    }
    var cut := maximum;
    while cut > 0
      invariant 0 <= cut <= maximum
      invariant StepBack(marks, value, cut) == StepBack(marks, value, maximum)
    {
      if value[cut - 1] == ZERO_WIDTH_JOINER {
        cut := cut - 1;
        continue;
      }
      if IsGraphemeExtension(marks, value[cut]) {
        cut := cut - 1;
        continue;
      }
      break;
    }
    prefix := value[..cut];
  }

  lemma {:induction false} StepBackIsGreatest(marks: Marks, value: string, cut: nat)
    requires cut < |value|
    ensures Boundary(marks, value, StepBack(marks, value, cut))
    ensures forall b: nat :: StepBack(marks, value, cut) < b <= cut ==> !Boundary(marks, value, b)
  {
    if cut > 0 && Broken(marks, value, cut) {
      StepBackIsGreatest(marks, value, cut - 1);
    }
  }

  /** The safe prefix ends at the greatest boundary at or below the limit. */
  lemma SafeLengthIsGreatest(marks: Marks, value: string, maximum: int)
    ensures Boundary(marks, value, SafeLength(marks, value, maximum))
    ensures maximum >= 0 ==> SafeLength(marks, value, maximum) <= maximum
    ensures forall b: nat :: b <= |value| && b <= maximum && Boundary(marks, value, b) ==>
              b <= SafeLength(marks, value, maximum)
  {
    if 0 < maximum < |value| {
      StepBackIsGreatest(marks, value, maximum);
    }
  }

  lemma SafeLengthMonotone(marks: Marks, value: string, small: int, large: int)
    requires small <= large
    ensures SafeLength(marks, value, small) <= SafeLength(marks, value, large)
  {
    SafeLengthIsGreatest(marks, value, small);
    SafeLengthIsGreatest(marks, value, large);
  }

  // ------------------------------------------------------------ fitting text

  function Candidate(marks: Marks, value: string, limit: int): string {
    value[..SafeLength(marks, value, limit)] + TRUNCATION_MARKER
  }

  predicate Fits(render: Renderer, text: string, budget: int) {
    |render(text)| <= budget
  }

  /** The limits whose candidates fit. */
  function FitsAt(marks: Marks, value: string, budget: int, render: Renderer): int -> bool {
    limit => Fits(render, Candidate(marks, value, limit), budget)
  }

  /** The binary search over limits; `best` is the last one found to fit. */
  function Search(fits: int -> bool, low: int, high: int, best: Option<int>): Option<int>
    decreases if low <= high then high - low + 1 else 0
  {
    if low > high then best
    else
      var middle := (low + high) / 2;
      if fits(middle) then Search(fits, middle + 1, high, Some(middle)) else Search(fits, low, middle - 1, best)
  }

  function Cut(marks: Marks, value: string, limit: Option<int>): Option<string> {
    if limit.None? then None else Some(Candidate(marks, value, limit.value))
  }

  /** The whole text if it fits, else what the search finds. */
  function Fitted(marks: Marks, value: string, budget: int, render: Renderer): Option<string> {
    if Fits(render, value, budget) then Some(value)
    else Cut(marks, value, Search(FitsAt(marks, value, budget, render), 0, |value|, None))
  }

  method FitText(marks: Marks, value: string, budget: int, render: Renderer)
    returns (text: Option<string>, truncated: bool)
    ensures text == Fitted(marks, value, budget, render)
    ensures truncated <==> !Fits(render, value, budget)
  {
    if |render(value)| <= budget {
      return Some(value), false;
    }
    ghost var fits := FitsAt(marks, value, budget, render);
    ghost var best: Option<int> := None;
    var low: int, high: int := 0, |value|;
    text, truncated := None, true;
    while low <= high
      invariant text == Cut(marks, value, best)
      invariant Search(fits, low, high, best) == Search(fits, 0, |value|, None)
    {
      var middle := (low + high) / 2;
      var prefix := UnicodeSafePrefix(marks, value, middle);
      var candidate := prefix + TRUNCATION_MARKER;
      assert fits(middle) <==> |render(candidate)| <= budget;
      if |render(candidate)| <= budget {
        text, best := Some(candidate), Some(middle);
        low := middle + 1;
      } else {
        high := middle - 1;
      }
    }
  }

  /** `text` is a safe prefix of the value, marked as cut. */
  ghost predicate MarkedPrefix(marks: Marks, value: string, text: string) {
    exists limit: nat :: limit <= |value| && text == Candidate(marks, value, limit)
  }

  lemma {:induction false} SearchFits(fits: int -> bool, top: nat, low: int, high: int, best: Option<int>)
    requires 0 <= low && high <= top && (best.Some? ==> 0 <= best.value <= top && fits(best.value))
    ensures var found := Search(fits, low, high, best);
            found.Some? ==> 0 <= found.value <= top && fits(found.value)
    decreases if low <= high then high - low + 1 else 0
  {
    if low <= high {
      var middle := (low + high) / 2;
      if fits(middle) {
        SearchFits(fits, top, middle + 1, high, Some(middle));
      } else {
        SearchFits(fits, top, low, middle - 1, best);
      }
    }
  }

  /** Whatever the renderer: a result fits, and is the whole value or one of its marked safe prefixes. */
  lemma FittedIsHonest(marks: Marks, value: string, budget: int, render: Renderer)
    ensures var text := Fitted(marks, value, budget, render);
            text.Some? ==>
              && Fits(render, text.value, budget)
              && (if Fits(render, value, budget) then text.value == value else MarkedPrefix(marks, value, text.value))
  {
    if !Fits(render, value, budget) {
      SearchFits(FitsAt(marks, value, budget, render), |value|, 0, |value|, None);
    }
  }

  // ----------------------------------------------------------- the linear scan

  /** The simple form: try the limits from the longest down and take the first that fits. */
  function Descend(fits: int -> bool, limit: nat): Option<int> {
    if fits(limit) then Some(limit) else if limit == 0 then None else Descend(fits, limit - 1)
  }

  /** A limit that fits makes every smaller one fit. */
  ghost predicate DownClosed(fits: int -> bool, top: nat) {
    forall j: nat, k: nat :: j <= k <= top && fits(k) ==> fits(j)
  }

  /** `found` is the greatest limit up to `top` that fits. */
  ghost predicate IsGreatest(fits: int -> bool, top: nat, found: Option<int>) {
    && (found.Some? ==> 0 <= found.value <= top && fits(found.value))
    && forall m: nat :: m <= top && (found.None? || found.value < m) ==> !fits(m)
  }

  lemma {:induction false} DescendIsGreatest(fits: int -> bool, limit: nat)
    ensures IsGreatest(fits, limit, Descend(fits, limit))
  {
    if !fits(limit) && limit > 0 {
      DescendIsGreatest(fits, limit - 1);
    }
  }

  /** What the search keeps: `best` is just below `low`, and nothing above `high` fits. */
  ghost predicate Narrowed(fits: int -> bool, top: nat, low: int, high: int, best: Option<int>) {
    && 0 <= low <= high + 1 <= top + 1
    && (best.None? ==> low == 0)
    && (best.Some? ==> low > 0 && best.value == low - 1 && fits(best.value))
    && forall m: nat :: high < m <= top ==> !fits(m)
  }

  lemma {:induction false} SearchIsGreatest(fits: int -> bool, top: nat, low: int, high: int, best: Option<int>)
    requires DownClosed(fits, top) && Narrowed(fits, top, low, high, best)
    ensures IsGreatest(fits, top, Search(fits, low, high, best))
    decreases if low <= high then high - low + 1 else 0
  {
    if low <= high {
      var middle := (low + high) / 2;
      if fits(middle) {
        SearchIsGreatest(fits, top, middle + 1, high, Some(middle));
      } else {
        SearchIsGreatest(fits, top, low, middle - 1, best);
      }
    }
  }

  /** Binary search refines the linear scan. */
  lemma SearchIsLinear(fits: int -> bool, top: nat)
    requires DownClosed(fits, top)
    ensures Search(fits, 0, top, None) == Descend(fits, top)
  {
    SearchIsGreatest(fits, top, 0, top, None);
    DescendIsGreatest(fits, top);
    GreatestIsUnique(fits, top, Search(fits, 0, top, None), Descend(fits, top));
  }

  lemma GreatestIsUnique(fits: int -> bool, top: nat, a: Option<int>, b: Option<int>)
    requires IsGreatest(fits, top, a) && IsGreatest(fits, top, b)
    ensures a == b
  {
  }

  /** A longer marked prefix never renders shorter. */
  ghost predicate LengthMonotone(render: Renderer, value: string) {
    forall j: nat, k: nat :: j <= k <= |value| ==>
      |render(value[..j] + TRUNCATION_MARKER)| <= |render(value[..k] + TRUNCATION_MARKER)|
  }

  lemma MonotoneIsDownClosed(marks: Marks, value: string, budget: int, render: Renderer)
    requires LengthMonotone(render, value)
    ensures DownClosed(FitsAt(marks, value, budget, render), |value|)
  {
    var fits := FitsAt(marks, value, budget, render);
    forall j: nat, k: nat | j <= k <= |value| && fits(k) ensures fits(j) {
      SafeLengthMonotone(marks, value, j, k);
    }
  }

  /** The marked prefix that ends at boundary `cut` fits. */
  predicate FittingCut(marks: Marks, value: string, budget: int, render: Renderer, cut: nat) {
    cut <= |value| && Boundary(marks, value, cut) && Fits(render, value[..cut] + TRUNCATION_MARKER, budget)
  }

  /** `cut` is the longest fitting boundary. */
  ghost predicate LongestCut(marks: Marks, value: string, budget: int, render: Renderer, cut: nat) {
    && FittingCut(marks, value, budget, render, cut)
    && forall b: nat :: FittingCut(marks, value, budget, render, b) ==> b <= cut
  }

  lemma BoundaryIsSafe(marks: Marks, value: string, b: nat)
    requires b <= |value| && Boundary(marks, value, b)
    ensures SafeLength(marks, value, b) == b
  {
    SafeLengthIsGreatest(marks, value, b);
  }

  /** The longest limit that fits ends at the longest boundary that fits. */
  lemma GreatestLimitIsLongestCut(marks: Marks, value: string, budget: int, render: Renderer, limit: nat)
    requires limit <= |value| && FitsAt(marks, value, budget, render)(limit)
    requires forall m: nat :: limit < m <= |value| ==> !FitsAt(marks, value, budget, render)(m)
    ensures LongestCut(marks, value, budget, render, SafeLength(marks, value, limit))
  {
    SafeLengthIsGreatest(marks, value, limit);
    forall b: nat | FittingCut(marks, value, budget, render, b) ensures b <= SafeLength(marks, value, limit) {
      BoundaryIsSafe(marks, value, b);
      assert FitsAt(marks, value, budget, render)(b);
      SafeLengthMonotone(marks, value, b, limit);
    }
  }

  /** `text` is the longest marked safe prefix of the value that fits. */
  ghost predicate LongestMarked(marks: Marks, value: string, budget: int, render: Renderer, text: string) {
    exists cut: nat :: LongestCut(marks, value, budget, render, cut) && text == value[..cut] + TRUNCATION_MARKER
  }

  /** For a length-monotone renderer: the whole value if it fits, else the longest marked prefix that
      does, and nothing exactly when neither the value nor the marker alone fits. */
  ghost predicate BestFit(marks: Marks, value: string, budget: int, render: Renderer, text: Option<string>) {
    if Fits(render, value, budget) then text == Some(value)
    else if !Fits(render, TRUNCATION_MARKER, budget) then text == None
    else text.Some? && LongestMarked(marks, value, budget, render, text.value)
  }

  /** The binary search refines the linear scan, and so returns the best fit. */
  lemma FittedIsBest(marks: Marks, value: string, budget: int, render: Renderer)
    requires LengthMonotone(render, value)
    ensures BestFit(marks, value, budget, render, Fitted(marks, value, budget, render))
  {
    if !Fits(render, value, budget) {
      var fits := FitsAt(marks, value, budget, render);
      MonotoneIsDownClosed(marks, value, budget, render);
      SearchIsGreatest(fits, |value|, 0, |value|, None);
      GreatestIsBest(marks, value, budget, render, Search(fits, 0, |value|, None));
    }
  }

  lemma GreatestIsBest(marks: Marks, value: string, budget: int, render: Renderer, found: Option<int>)
    requires !Fits(render, value, budget) && LengthMonotone(render, value)
    requires IsGreatest(FitsAt(marks, value, budget, render), |value|, found)
    ensures BestFit(marks, value, budget, render, Cut(marks, value, found))
  {
    var fits := FitsAt(marks, value, budget, render);
    MarkerIsShortest(marks, value);
    if found.None? {
      assert !fits(0);
    } else {
      MonotoneIsDownClosed(marks, value, budget, render);
      assert fits(0);
      GreatestLimitIsLongestCut(marks, value, budget, render, found.value);
    }
  }

  lemma LongestIsUnique(marks: Marks, value: string, budget: int, render: Renderer, a: string, b: string)
    requires LongestMarked(marks, value, budget, render, a) && LongestMarked(marks, value, budget, render, b)
    ensures a == b
  {
    var x: nat :| LongestCut(marks, value, budget, render, x) && a == value[..x] + TRUNCATION_MARKER;
    var y: nat :| LongestCut(marks, value, budget, render, y) && b == value[..y] + TRUNCATION_MARKER;
    assert x <= y && y <= x;
  }

  lemma BestFitIsUnique(marks: Marks, value: string, budget: int, render: Renderer, a: Option<string>,
                        b: Option<string>)
    requires BestFit(marks, value, budget, render, a) && BestFit(marks, value, budget, render, b)
    ensures a == b
  {
    if !Fits(render, value, budget) && Fits(render, TRUNCATION_MARKER, budget) {
      LongestIsUnique(marks, value, budget, render, a.value, b.value);
    }
  }

  /** The longest cut for a budget that also fits a smaller one is the longest there. */
  lemma LongestShrinks(marks: Marks, value: string, small: int, large: int, render: Renderer, text: string)
    requires small <= large && LengthMonotone(render, value)
    requires LongestMarked(marks, value, large, render, text) && Fits(render, text, small)
    ensures LongestMarked(marks, value, small, render, text) && Fits(render, TRUNCATION_MARKER, small)
  {
    var cut: nat :| LongestCut(marks, value, large, render, cut) && text == value[..cut] + TRUNCATION_MARKER;
    forall b: nat | FittingCut(marks, value, small, render, b) ensures b <= cut {
      assert FittingCut(marks, value, large, render, b);
    }
    assert LongestCut(marks, value, small, render, cut);
    assert value[..0] + TRUNCATION_MARKER == TRUNCATION_MARKER;
  }

  /** What is fitted into a budget is fitted into every smaller one that it does not exceed. */
  lemma FittedShrinks(marks: Marks, value: string, small: int, large: int, render: Renderer)
    requires small <= large && LengthMonotone(render, value)
    requires var text := Fitted(marks, value, large, render); text.Some? ==> Fits(render, text.value, small)
    ensures Fitted(marks, value, small, render) == Fitted(marks, value, large, render)
  {
    var text := Fitted(marks, value, large, render);
    FittedIsBest(marks, value, small, render);
    FittedIsBest(marks, value, large, render);
    if !Fits(render, value, large) && text.Some? {
      LongestShrinks(marks, value, small, large, render, text.value);
    }
    BestFitIsUnique(marks, value, small, render, Fitted(marks, value, small, render), text);
  }

  lemma MarkerIsShortest(marks: Marks, value: string)
    ensures Candidate(marks, value, 0) == TRUNCATION_MARKER
  {
    SafeLengthIsGreatest(marks, value, 0);
  }

  // ------------------------------------------------------------------ escaping

  /** Escaping character by character, as in a serialized string. */
  function Encode(escape: char -> string, text: string): string {
    if text == [] then [] else Encode(escape, text[..|text| - 1]) + escape(text[|text| - 1])
  }

  lemma {:induction false} EncodeConcat(escape: char -> string, a: string, b: string)
    ensures Encode(escape, a + b) == Encode(escape, a) + Encode(escape, b)
  {
    if b == [] {
      assert a + b == a;
    } else {
      var front, last := b[..|b| - 1], b[|b| - 1];
      assert (a + b)[..|a + b| - 1] == a + front && (a + b)[|a + b| - 1] == last;
      EncodeConcat(escape, a, front);
      Regroup(Encode(escape, a), Encode(escape, front), escape(last));
    }
  }

  lemma Regroup(a: string, b: string, c: string)
    ensures a + (b + c) == (a + b) + c
  {
  }

  function Quote(escape: char -> string, text: string): string {
    "\"" + Encode(escape, text) + "\""
  }

  lemma EncodeGrows(escape: char -> string, value: string, j: nat, k: nat)
    requires j <= k <= |value|
    ensures |Encode(escape, value[..j] + TRUNCATION_MARKER)| <= |Encode(escape, value[..k] + TRUNCATION_MARKER)|
  {
    assert value[..k] == value[..j] + value[j..k];
    EncodeConcat(escape, value[..j], value[j..k]);
    EncodeConcat(escape, value[..j], TRUNCATION_MARKER);
    EncodeConcat(escape, value[..k], TRUNCATION_MARKER);
  }

  /** Escaping twice, as evidence is escaped before it is serialized, is escaping once. */
  lemma {:induction false} EncodeTwice(outer: char -> string, inner: char -> string, text: string)
    ensures Encode(outer, Encode(inner, text)) == Encode(c => Encode(outer, inner(c)), text)
  {
    if text != [] {
      var front, last := text[..|text| - 1], text[|text| - 1];
      EncodeTwice(outer, inner, front);
      EncodeConcat(outer, Encode(inner, front), inner(last));
    }
  }
}
