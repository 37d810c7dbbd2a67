/** The receipt text of a task batch, and reading the count back out of it. */
module ReceiptText {
  import opened Options

  /** Whitespace as the text splitter understands it. */
  predicate IsSpace(c: char) {
    var n := c as int;
    || 9 <= n <= 13 || 28 <= n <= 32 || n == 0x85 || n == 0xA0 || n == 0x1680
    || 0x2000 <= n <= 0x200A || n == 0x2028 || n == 0x2029 || n == 0x202F || n == 0x205F || n == 0x3000
  }

  /** The maximal runs of non-space characters; `word` is the run read so far. */
  function Words(text: string, word: string): seq<string> {
    if text == [] then (if word == [] then [] else [word])
    else if IsSpace(text[0]) then (if word == [] then [] else [word]) + Words(text[1..], [])
    else Words(text[1..], word + [text[0]])
  }

  function Digit(n: nat): char
    requires n < 10
  {
    (48 + n) as char
  }

  /** Decimal notation without leading zeros. */
  function Decimal(n: nat): string {
    if n < 10 then [Digit(n)] else Decimal(n / 10) + [Digit(n % 10)]
  }

  predicate IsDigit(c: char) {
    48 <= c as int <= 57
  }

  function ParseNat(text: string): Option<nat> {
    if text == [] then None
    else
      var last := text[|text| - 1];
      if !IsDigit(last) then None
      else if |text| == 1 then Some(last as int - 48)
      else
        var front := ParseNat(text[..|text| - 1]);
        if front.None? then None else Some(front.value * 10 + (last as int - 48))
  }

  /** An optional sign and decimal digits. */
  function ParseInt(text: string): Option<int> {
    if text != [] && (text[0] == '+' || text[0] == '-') then
      match ParseNat(text[1..])
      case None => None
      case Some(n) => var signed: int := if text[0] == '-' then 0 - n else n; Some(signed)
    else
      match ParseNat(text)
      case None => None
      case Some(n) => Some(n)
  }

  function BatchSummary(count: nat): string {
    "Created " + Decimal(count) + " tasks"
  }

  /** The count in a batch receipt, or nothing when the text is not a receipt. */
  function ParseBatchSummary(text: string): Option<int> {
    var parts := Words(text, []);
    if |parts| != 3 || parts[0] != "Created" || parts[2] != "tasks" then None
    else ParseInt(parts[1])
  }

  lemma {:induction false} ParseDecimal(n: nat)
    ensures ParseNat(Decimal(n)) == Some(n)
    ensures Decimal(n) != []
    ensures forall c :: c in Decimal(n) ==> IsDigit(c)
  {
    if n >= 10 {
      ParseDecimal(n / 10);
      assert Decimal(n)[..|Decimal(n)| - 1] == Decimal(n / 10);
    }
  }

  lemma {:induction false} ReadWord(word: string, rest: string, before: string)
    requires forall c :: c in word ==> !IsSpace(c)
    ensures Words(word + rest, before) == Words(rest, before + word)
  {
    if word == [] {
      assert word + rest == rest && before + word == before;
    } else {
      var text := word + rest;
      assert text[0] == word[0] && text[1..] == word[1..] + rest;
      ReadWord(word[1..], rest, before + [word[0]]);
      assert before + [word[0]] + word[1..] == before + word;
    }
  }

  /** A word followed by a space is one word. */
  lemma ReadSpacedWord(word: string, rest: string)
    requires word != [] && forall c :: c in word ==> !IsSpace(c)
    ensures Words(word + ([' '] + rest), []) == [word] + Words(rest, [])
  {
    ReadWord(word, [' '] + rest, []);
    assert [] + word == word;
    assert ([' '] + rest)[1..] == rest;
  }

  lemma ReadLastWord(word: string)
    requires word != [] && forall c :: c in word ==> !IsSpace(c)
    ensures Words(word, []) == [word]
  {
    ReadWord(word, [], []);
    assert word + [] == word && [] + word == word;
  }

  lemma DigitsAreAWord(n: nat)
    ensures Decimal(n) != [] && forall c :: c in Decimal(n) ==> !IsSpace(c)
    ensures ParseInt(Decimal(n)) == Some(n)
  {
    ParseDecimal(n);
    assert IsDigit(Decimal(n)[0]);
  }

  /** A batch receipt reads back as the number that was written, for every number. */
  lemma BatchSummaryRoundTrip(n: nat)
    ensures ParseBatchSummary(BatchSummary(n)) == Some(n)
  {
    var digits := Decimal(n);
    DigitsAreAWord(n);
    var rest := digits + ([' '] + "tasks");
    assert BatchSummary(n) == "Created" + ([' '] + rest);
    ReadSpacedWord("Created", rest);
    ReadSpacedWord(digits, "tasks");
    ReadLastWord("tasks");
  }
}
