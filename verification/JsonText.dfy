/** Reading serialized objects and strings back, without knowing what was written. */
module JsonText {
  import opened Options
  import opened PromptText

  // -------------------------------------------------------------------- scanning

  /** Where a reader stands: how many brackets are open, and whether it is inside a string. */
  datatype Scan = Scan(depth: nat, quoted: bool, escaped: bool)

  const TOP := Scan(0, false, false)

  function Open(depth: nat): Scan {
    Scan(depth, false, false)
  }

  function Feed(s: Scan, c: char): Scan {
    if s.quoted then
      if s.escaped then s.(escaped := false)
      else if c == '\\' then s.(escaped := true)
      else if c == '\"' then s.(quoted := false)
      else s
    else if c == '\"' then s.(quoted := true)
    else if c == '{' || c == '[' then s.(depth := s.depth + 1)
    else if (c == '}' || c == ']') && s.depth > 0 then s.(depth := s.depth - 1)
    else s
  }

  predicate Ends(s: Scan, c: char) {
    s == TOP && (c == ',' || c == '}' || c == ']')
  }

  function FeedAll(s: Scan, text: string): Scan
    decreases |text|
  {
    if text == [] then s else FeedAll(Feed(s, text[0]), text[1..])
  }

  /** Nothing in the text ends the value that is being read. */
  predicate GoesOn(s: Scan, text: string)
    decreases |text|
  {
    text == [] || (!Ends(s, text[0]) && GoesOn(Feed(s, text[0]), text[1..]))
  }

  /** How long the value at the start of the text is. */
  function ValueLength(s: Scan, text: string): (n: nat)
    ensures n <= |text|
    decreases |text|
  {
    if text == [] || Ends(s, text[0]) then 0 else 1 + ValueLength(Feed(s, text[0]), text[1..])
  }

  /** From here the text is read to there, as one piece. */
  predicate Passes(s: Scan, text: string, t: Scan) {
    FeedAll(s, text) == t && GoesOn(s, text)
  }

  lemma {:induction false} PassesConcat(s: Scan, a: string, t: Scan, b: string, u: Scan)
    requires Passes(s, a, t) && Passes(t, b, u)
    ensures Passes(s, a + b, u)
    decreases |a|
  {
    if a == [] {
      assert a + b == b;
    } else {
      assert (a + b)[0] == a[0] && (a + b)[1..] == a[1..] + b;
      PassesConcat(Feed(s, a[0]), a[1..], t, b, u);
    }
  }

  lemma {:induction false} ValueEnds(s: Scan, value: string, rest: string)
    requires Passes(s, value, TOP) && rest != [] && Ends(TOP, rest[0])
    ensures ValueLength(s, value + rest) == |value|
    decreases |value|
  {
    if value == [] {
      assert value + rest == rest;
    } else {
      assert (value + rest)[0] == value[0] && (value + rest)[1..] == value[1..] + rest;
      ValueEnds(Feed(s, value[0]), value[1..], rest);
    }
  }

  /** A complete value, at the top or inside others. */
  ghost predicate IsValue(text: string) {
    forall d: nat {:trigger Open(d)} :: Passes(Open(d), text, Open(d))
  }

  /** A part of the inside of a value. */
  ghost predicate IsInner(text: string) {
    forall d: nat {:trigger Open(d)} :: d > 0 ==> Passes(Open(d), text, Open(d))
  }

  lemma InnerConcat(a: string, b: string)
    requires IsInner(a) && IsInner(b)
    ensures IsInner(a + b)
  {
    forall d: nat {:trigger Open(d)} | d > 0 ensures Passes(Open(d), a + b, Open(d)) {
      PassesConcat(Open(d), a, Open(d), b, Open(d));
    }
  }

  /** Characters that mean nothing to the reader. */
  predicate Plain(text: string) {
    forall c :: c in text ==> c !in {'\"', '\\', '{', '}', '[', ']', ','}
  }

  lemma PlainRest(text: string)
    requires Plain(text) && text != []
    ensures Plain(text[1..]) && text[0] !in {'\"', '\\', '{', '}', '[', ']', ','}
  {
    assert text[0] in text;
    forall c | c in text[1..] ensures c in text {
    }
  }

  lemma {:induction false} PlainPasses(s: Scan, text: string)
    requires Plain(text) && !s.escaped
    ensures Passes(s, text, s)
    decreases |text|
  {
    if text != [] {
      PlainRest(text);
      PlainPasses(s, text[1..]);
    }
  }

  lemma PlainIsValue(text: string)
    requires Plain(text)
    ensures IsValue(text)
  {
    forall d: nat {:trigger Open(d)} ensures Passes(Open(d), text, Open(d)) {
      PlainPasses(Open(d), text);
    }
  }

  lemma OneCharacter(s: Scan, c: char)
    requires !Ends(s, c)
    ensures Passes(s, [c], Feed(s, c))
  {
    assert FeedAll(s, [c]) == FeedAll(Feed(s, c), [c][1..]);
  }

  lemma CommaIsInner()
    ensures IsInner(",")
  {
    forall d: nat {:trigger Open(d)} | d > 0 ensures Passes(Open(d), ",", Open(d)) {
      OneCharacter(Open(d), ',');
    }
  }

  /** Between brackets the inside of a value is a value. */
  lemma BracketsClose(open: char, inner: string, close: char)
    requires open in {'{', '['} && close in {'}', ']'} && IsInner(inner)
    ensures IsValue([open] + inner + [close])
  {
    forall d: nat {:trigger Open(d)} ensures Passes(Open(d), [open] + inner + [close], Open(d)) {
      OneCharacter(Open(d), open);
      OneCharacter(Open(d + 1), close);
      PassesConcat(Open(d), [open], Open(d + 1), inner, Open(d + 1));
      PassesConcat(Open(d), [open] + inner, Open(d + 1), [close], Open(d));
    }
  }

  // --------------------------------------------------------------------- strings

  predicate StaysAt(code: char -> string, c: char, d: nat) {
    Passes(Scan(d, true, false), code(c), Scan(d, true, false))
  }

  /** The characters stay inside the string that they are put into. */
  ghost predicate StaysInside(code: char -> string) {
    forall c: char, d: nat :: StaysAt(code, c, d)
  }

  lemma {:induction false} EncodedStaysInside(code: char -> string, text: string, d: nat)
    requires StaysInside(code)
    ensures Passes(Scan(d, true, false), Encode(code, text), Scan(d, true, false))
  {
    if text != [] {
      var front, last := text[..|text| - 1], text[|text| - 1];
      EncodedStaysInside(code, front, d);
      assert StaysAt(code, last, d);
      PassesConcat(Scan(d, true, false), Encode(code, front), Scan(d, true, false), code(last), Scan(d, true, false));
    }
  }

  /** Whatever the text is, its quotation is one value. */
  lemma QuoteIsValue(code: char -> string, text: string)
    requires StaysInside(code)
    ensures IsValue(Quote(code, text))
  {
    forall d: nat {:trigger Open(d)} ensures Passes(Open(d), Quote(code, text), Open(d)) {
      var inside := Scan(d, true, false);
      EncodedStaysInside(code, text, d);
      OneCharacter(Open(d), '\"');
      OneCharacter(inside, '\"');
      PassesConcat(Open(d), "\"", inside, Encode(code, text), inside);
      PassesConcat(Open(d), "\"" + Encode(code, text), inside, "\"", Open(d));
    }
  }

  // --------------------------------------------------------------------- objects

  /** The members of an object in their order. */
  datatype Members = Nil | Member(name: string, value: string, more: Members)

  function Key(name: string): string {
    "\"" + name + "\":"
  }

  function MembersText(members: Members): string {
    match members
    case Nil => []
    case Member(name, value, more) =>
      Key(name) + value + (if more.Nil? then [] else "," + MembersText(more))
  }

  function ObjectText(members: Members): string {
    "{" + MembersText(members) + "}"
  }

  /** The index of the next quotation mark. */
  function NextMark(text: string): (n: nat)
    ensures n <= |text|
  {
    if text == [] || text[0] == '\"' then 0 else 1 + NextMark(text[1..])
  }

  /** Read a name and its value; the third part is what follows. */
  function ReadMember(text: string): (r: Option<(string, string, string)>)
    ensures r.Some? ==> |r.value.2| < |text|
  {
    if text == [] || text[0] != '\"' then None
    else
      var n := NextMark(text[1..]);
      if n + 2 >= |text| || text[n + 2] != ':' then None
      else
        var rest := text[n + 3..];
        var size := ValueLength(TOP, rest);
        Some((text[1..n + 1], rest[..size], rest[size..]))
  }

  /** Read names and values up to the closing brace; the second part is what follows it. */
  function ReadMembers(text: string): Option<(Members, string)>
    decreases |text|
  {
    var first := ReadMember(text);
    if first.None? || first.value.2 == [] then None
    else
      var (name, value, rest) := first.value;
      if rest[0] == '}' then Some((Member(name, value, Nil), rest[1..]))
      else if rest[0] != ',' then None
      else
        var more := ReadMembers(rest[1..]);
        if more.None? then None else Some((Member(name, value, more.value.0), more.value.1))
  }

  function ReadObject(text: string): Option<(Members, string)> {
    if text == [] || text[0] != '{' then None else ReadMembers(text[1..])
  }

  lemma {:induction false} MarkFollows(name: string, rest: string)
    requires Plain(name)
    ensures NextMark(name + "\"" + rest) == |name|
  {
    if name == [] {
      assert name + "\"" + rest == "\"" + rest;
    } else {
      PlainRest(name);
      assert (name + "\"" + rest)[1..] == name[1..] + "\"" + rest;
      MarkFollows(name[1..], rest);
    }
  }

  /** Names mean nothing to the reader, and values are complete. */
  ghost predicate WellFormed(members: Members) {
    match members
    case Nil => true
    case Member(name, value, more) => Plain(name) && IsValue(value) && WellFormed(more)
  }

  /** A name and its value are read back, whatever ends the value. */
  lemma ReadsMember(name: string, value: string, rest: string)
    requires Plain(name) && IsValue(value) && rest != [] && Ends(TOP, rest[0])
    ensures ReadMember(Key(name) + value + rest) == Some((name, value, rest))
  {
    var text := Key(name) + value + rest;
    assert text[1..] == name + "\"" + (":" + value + rest);
    MarkFollows(name, ":" + value + rest);
    assert text[|name| + 3..] == value + rest;
    assert text[1..|name| + 1] == name && text[|name| + 2] == ':';
    assert Open(0) == TOP;
    ValueEnds(TOP, value, rest);
    assert (value + rest)[..|value|] == value && (value + rest)[|value|..] == rest;
  }

  lemma ReadsLast(name: string, value: string, rest: string)
    requires Plain(name) && IsValue(value)
    ensures ReadMembers(Key(name) + value + "}" + rest) == Some((Member(name, value, Nil), rest))
  {
    var after := "}" + rest;
    ReadsMember(name, value, after);
    assert Key(name) + value + "}" + rest == Key(name) + value + after;
    assert after[1..] == rest;
  }

  lemma ReadsNext(name: string, value: string, more: string)
    requires Plain(name) && IsValue(value)
    ensures ReadMembers(Key(name) + value + ("," + more))
         == if ReadMembers(more).None? then None
            else Some((Member(name, value, ReadMembers(more).value.0), ReadMembers(more).value.1))
  {
    ReadsMember(name, value, "," + more);
    assert ("," + more)[1..] == more;
  }

  /** What was written as an object is read back as it was, whatever follows it. */
  lemma {:induction false} ReadsMembers(members: Members, rest: string)
    requires WellFormed(members) && members.Member?
    ensures ReadMembers(MembersText(members) + "}" + rest) == Some((members, rest))
    decreases members
  {
    var first := Key(members.name) + members.value;
    if members.more.Nil? {
      ReadsLast(members.name, members.value, rest);
      assert first + [] == first;
    } else {
      ReadsMembers(members.more, rest);
      ReadsNext(members.name, members.value, MembersText(members.more) + "}" + rest);
      MembersSplit(first, MembersText(members.more), rest);
    }
  }

  lemma MembersSplit(first: string, more: string, rest: string)
    ensures first + ("," + more) + "}" + rest == first + ("," + (more + "}" + rest))
  {
  }

  lemma ReadsObject(members: Members, rest: string)
    requires WellFormed(members) && members.Member?
    ensures ReadObject(ObjectText(members) + rest) == Some((members, rest))
  {
    ReadsMembers(members, rest);
    ObjectOpens(MembersText(members), rest);
  }

  lemma ObjectOpens(inner: string, rest: string)
    ensures ("{" + inner + "}" + rest)[0] == '{' && ("{" + inner + "}" + rest)[1..] == inner + "}" + rest
  {
  }

  lemma ValueIsInner(text: string)
    requires IsValue(text)
    ensures IsInner(text)
  {
  }

  lemma KeyIsInner(name: string)
    requires Plain(name)
    ensures IsInner(Key(name))
  {
    forall d: nat {:trigger Open(d)} | d > 0 ensures Passes(Open(d), Key(name), Open(d)) {
      var inside := Scan(d, true, false);
      OneCharacter(Open(d), '\"');
      PlainPasses(inside, name);
      OneCharacter(inside, '\"');
      OneCharacter(Open(d), ':');
      PassesConcat(Open(d), "\"", inside, name, inside);
      PassesConcat(Open(d), "\"" + name, inside, "\"", Open(d));
      PassesConcat(Open(d), "\"" + name + "\"", Open(d), ":", Open(d));
      assert Key(name) == "\"" + name + "\"" + ":";
    }
  }

  lemma MemberIsInner(name: string, value: string)
    requires Plain(name) && IsValue(value)
    ensures IsInner(Key(name) + value)
  {
    KeyIsInner(name);
    ValueIsInner(value);
    InnerConcat(Key(name), value);
  }

  lemma {:induction false} MembersAreInner(members: Members)
    requires WellFormed(members)
    ensures IsInner(MembersText(members))
    decreases members
  {
    if members.Nil? {
      NothingIsInner();
    } else {
      var first := Key(members.name) + members.value;
      MemberIsInner(members.name, members.value);
      if members.more.Nil? {
        assert first + [] == first;
      } else {
        MembersAreInner(members.more);
        CommaIsInner();
        InnerConcat(",", MembersText(members.more));
        InnerConcat(first, "," + MembersText(members.more));
      }
    }
  }

  /** One more member at the end. */
  function Append(members: Members, name: string, value: string): (m: Members)
    ensures m.Member?
  {
    match members
    case Nil => Member(name, value, Nil)
    case Member(n, v, more) => Member(n, v, Append(more, name, value))
  }

  lemma {:induction false} AppendText(members: Members, name: string, value: string)
    requires members.Member?
    ensures MembersText(Append(members, name, value)) == MembersText(members) + ("," + (Key(name) + value))
    decreases members
  {
    var first := Key(members.name) + members.value;
    if members.more.Nil? {
      assert first + [] == first;
      assert Key(name) + value + [] == Key(name) + value;
    } else {
      AppendText(members.more, name, value);
      Regrouped(first, MembersText(members.more), "," + (Key(name) + value));
    }
  }

  lemma Regrouped(first: string, more: string, rest: string)
    ensures first + ("," + (more + rest)) == first + ("," + more) + rest
  {
  }

  lemma {:induction false} AppendIsWellFormed(members: Members, name: string, value: string)
    requires WellFormed(members) && Plain(name) && IsValue(value)
    ensures WellFormed(Append(members, name, value))
  {
    if members.Member? {
      AppendIsWellFormed(members.more, name, value);
    }
  }

  /** The value under a name. */
  function Lookup(members: Members, name: string): Option<string> {
    match members
    case Nil => None
    case Member(n, v, more) => if n == name then Some(v) else Lookup(more, name)
  }

  /** How long one more member makes an object. */
  lemma MembersLength(name: string, value: string, more: Members)
    ensures |MembersText(Member(name, value, more))|
         == |name| + 3 + |value| + (if more.Nil? then 0 else 1 + |MembersText(more)|)
  {
  }

  /** An object is one value. */
  lemma ObjectIsValue(members: Members)
    requires WellFormed(members)
    ensures IsValue(ObjectText(members))
  {
    MembersAreInner(members);
    BracketsClose('{', MembersText(members), '}');
  }

  // ---------------------------------------------------------------------- arrays

  function ElementsText(elements: seq<string>): string {
    if elements == [] then []
    else if |elements| == 1 then elements[0]
    else elements[0] + ("," + ElementsText(elements[1..]))
  }

  function ArrayText(elements: seq<string>): string {
    "[" + ElementsText(elements) + "]"
  }

  /** Read elements up to the closing bracket; the second part is what follows it. */
  function ReadElements(text: string): Option<(seq<string>, string)>
    decreases |text|
  {
    var size := ValueLength(TOP, text);
    var first, rest := text[..size], text[size..];
    if rest == [] then None
    else if rest[0] == ']' then Some(([first], rest[1..]))
    else if rest[0] != ',' then None
    else
      var more := ReadElements(rest[1..]);
      if more.None? then None else Some(([first] + more.value.0, more.value.1))
  }

  function ReadArray(text: string): Option<(seq<string>, string)> {
    if |text| < 2 || text[0] != '[' then None
    else if text[1] == ']' then Some(([], text[2..]))
    else ReadElements(text[1..])
  }

  ghost predicate AllValues(elements: seq<string>) {
    forall e :: e in elements ==> IsValue(e) && e != [] && e[0] != ']'
  }

  lemma ReadsElement(value: string, rest: string)
    requires IsValue(value) && rest != [] && Ends(TOP, rest[0])
    ensures var size := ValueLength(TOP, value + rest);
            (value + rest)[..size] == value && (value + rest)[size..] == rest
  {
    assert Open(0) == TOP;
    ValueEnds(TOP, value, rest);
  }

  lemma MoreElements(elements: seq<string>)
    requires AllValues(elements) && |elements| > 1
    ensures AllValues(elements[1..]) && elements == [elements[0]] + elements[1..] && IsValue(elements[0])
  {
    assert elements[0] in elements;
    forall e | e in elements[1..] ensures e in elements {
    }
  }

  lemma ReadsLastElement(value: string, rest: string)
    requires IsValue(value)
    ensures ReadElements(value + "]" + rest) == Some(([value], rest))
  {
    ReadsElement(value, "]" + rest);
    assert value + "]" + rest == value + ("]" + rest);
    assert ("]" + rest)[1..] == rest;
  }

  lemma ReadsNextElement(value: string, more: string)
    requires IsValue(value)
    ensures ReadElements(value + ("," + more))
         == if ReadElements(more).None? then None
            else Some(([value] + ReadElements(more).value.0, ReadElements(more).value.1))
  {
    ReadsElement(value, "," + more);
    assert ("," + more)[1..] == more;
  }

  lemma ElementsSplit(first: string, more: string, rest: string)
    ensures first + ("," + more) + "]" + rest == first + ("," + (more + "]" + rest))
  {
  }

  lemma {:induction false} ReadsElements(elements: seq<string>, rest: string)
    requires elements != [] && AllValues(elements)
    ensures ReadElements(ElementsText(elements) + "]" + rest) == Some((elements, rest))
    decreases |elements|
  {
    var e := elements[0];
    assert e in elements;
    if |elements| == 1 {
      ReadsLastElement(e, rest);
      assert elements == [e];
    } else {
      MoreElements(elements);
      ReadsElements(elements[1..], rest);
      ReadsNextElement(e, ElementsText(elements[1..]) + "]" + rest);
      ElementsSplit(e, ElementsText(elements[1..]), rest);
    }
  }

  /** What was written as an array is read back as it was, whatever follows it. */
  lemma ReadsArray(elements: seq<string>, rest: string)
    requires AllValues(elements)
    ensures ReadArray(ArrayText(elements) + rest) == Some((elements, rest))
  {
    if elements == [] {
      assert ArrayText(elements) + rest == "[]" + rest;
      assert ("[]" + rest)[2..] == rest;
    } else {
      ReadsElements(elements, rest);
      assert elements[0] in elements;
      ArrayOpens(elements, rest);
    }
  }

  lemma ArrayOpens(elements: seq<string>, rest: string)
    requires elements != [] && elements[0] != []
    ensures var text := ArrayText(elements) + rest;
            text[0] == '[' && text[1] == elements[0][0] && text[1..] == ElementsText(elements) + "]" + rest
  {
  }

  lemma {:induction false} ElementsAreInner(elements: seq<string>)
    requires AllValues(elements)
    ensures IsInner(ElementsText(elements))
    decreases |elements|
  {
    if elements == [] {
      NothingIsInner();
    } else {
      var e := elements[0];
      assert e in elements;
      ValueIsInner(e);
      if |elements| > 1 {
        MoreElements(elements);
        ElementsAreInner(elements[1..]);
        CommaIsInner();
        InnerConcat(",", ElementsText(elements[1..]));
        InnerConcat(e, "," + ElementsText(elements[1..]));
      }
    }
  }

  lemma {:induction false} ElementsSnoc(elements: seq<string>, last: string)
    ensures ElementsText(elements + [last])
         == if elements == [] then last else ElementsText(elements) + ("," + last)
    decreases |elements|
  {
    if |elements| == 1 {
      assert (elements + [last])[1..] == [last];
    } else if elements != [] {
      assert (elements + [last])[1..] == elements[1..] + [last];
      ElementsSnoc(elements[1..], last);
      Regrouped(elements[0], ElementsText(elements[1..]), "," + last);
    }
  }

  lemma NothingIsInner()
    ensures IsInner("")
  {
  }

  /** An array is one value. */
  lemma ArrayIsValue(elements: seq<string>)
    requires AllValues(elements)
    ensures IsValue(ArrayText(elements))
  {
    ElementsAreInner(elements);
    BracketsClose('[', ElementsText(elements), ']');
  }

  // --------------------------------------------------------- what strings stand for

  function HexDigit(n: nat): char
    requires n < 16
  {
    if n < 10 then (48 + n) as char else (87 + n) as char
  }

  /** How one character is escaped when other scripts are kept as they are. */
  function JsonCode(c: char): string {
    if c == '\"' then "\\\""
    else if c == '\\' then "\\\\"
    else if c as int >= 32 then [c]
    else if c == '\n' then "\\n"
    else if c == '\r' then "\\r"
    else if c == '\t' then "\\t"
    else if c as int == 8 then "\\b"
    else if c as int == 12 then "\\f"
    else "\\u00" + [HexDigit(c as int / 16), HexDigit(c as int % 16)]
  }

  function HexValue(c: char): Option<nat> {
    if '0' <= c <= '9' then Some(c as int - 48)
    else if 'a' <= c <= 'f' then Some(c as int - 87)
    else None
  }

  /** The character that an escape stands for, and how long the escape is. */
  function Unescape(text: string): Option<(char, nat)> {
    if |text| < 2 || text[0] != '\\' then None
    else if text[1] == 'u' then
      if |text| < 6 || text[2] != '0' || text[3] != '0' then None
      else
        var high, low := HexValue(text[4]), HexValue(text[5]);
        if high.None? || low.None? then None else Some(((16 * high.value + low.value) as char, 6))
    else match text[1]
      case 'n' => Some(('\n', 2))
      case 'r' => Some(('\r', 2))
      case 't' => Some(('\t', 2))
      case 'b' => Some((8 as char, 2))
      case 'f' => Some((12 as char, 2))
      case c => Some((c, 2))
  }

  /** The text that the inside of a string stands for. */
  function Decode(text: string): Option<string>
    decreases |text|
  {
    if text == [] then Some([])
    else if text[0] != '\\' then
      var rest := Decode(text[1..]);
      if rest.None? then None else Some([text[0]] + rest.value)
    else
      var first := Unescape(text);
      if first.None? || first.value.1 > |text| then None
      else
        var rest := Decode(text[first.value.1..]);
        if rest.None? then None else Some([first.value.0] + rest.value)
  }

  lemma HexRoundTrip(n: nat)
    requires n < 16
    ensures HexValue(HexDigit(n)) == Some(n)
  {
  }

  lemma UnescapesOne(c: char, rest: string)
    requires JsonCode(c) != [c]
    ensures Unescape(JsonCode(c) + rest) == Some((c, |JsonCode(c)|)) && (JsonCode(c) + rest)[0] == '\\'
  {
    if c as int < 32 {
      HexRoundTrip(c as int / 16);
      HexRoundTrip(c as int % 16);
    }
  }

  lemma DecodesOne(c: char, rest: string)
    requires Decode(rest).Some?
    ensures Decode(JsonCode(c) + rest) == Some([c] + Decode(rest).value)
  {
    if JsonCode(c) == [c] {
      assert ([c] + rest)[1..] == rest;
    } else {
      UnescapesOne(c, rest);
      assert (JsonCode(c) + rest)[|JsonCode(c)|..] == rest;
    }
  }

  lemma EncodeFirst(code: char -> string, c: char, rest: string)
    ensures Encode(code, [c] + rest) == code(c) + Encode(code, rest)
  {
    EncodeConcat(code, [c], rest);
    assert [c][..0] == [];
  }

  /** Escaping loses nothing: every text comes back from the inside of its string. */
  lemma {:induction false} DecodeUndoesEncode(text: string)
    ensures Decode(Encode(JsonCode, text)) == Some(text)
    decreases |text|
  {
    if text != [] {
      var c, rest := text[0], text[1..];
      assert text == [c] + rest;
      DecodeUndoesEncode(rest);
      EncodeFirst(JsonCode, c, rest);
      DecodesOne(c, Encode(JsonCode, rest));
    }
  }

  /** The text that a string stands for. */
  function ReadText(text: string): Option<string> {
    if |text| < 2 || text[0] != '\"' || text[|text| - 1] != '\"' then None else Decode(text[1..|text| - 1])
  }

  lemma ReadsText(text: string)
    ensures ReadText(Quote(JsonCode, text)) == Some(text)
  {
    var quote := Quote(JsonCode, text);
    assert quote[1..|quote| - 1] == Encode(JsonCode, text);
    DecodeUndoesEncode(text);
  }

  lemma OneEscape(d: nat, c: char)
    ensures Passes(Scan(d, true, false), ['\\', c], Scan(d, true, false))
  {
    var inside := Scan(d, true, false);
    OneCharacter(inside, '\\');
    OneCharacter(Scan(d, true, true), c);
    PassesConcat(inside, ['\\'], Scan(d, true, true), [c], inside);
    assert ['\\'] + [c] == ['\\', c];
  }

  lemma EscapePasses(d: nat, c: char)
    ensures Passes(Scan(d, true, false), JsonCode(c), Scan(d, true, false))
  {
    var inside, code := Scan(d, true, false), JsonCode(c);
    if code == [c] {
      OneCharacter(inside, c);
    } else {
      OneEscape(d, code[1]);
      var digits := code[2..];
      PlainPasses(inside, digits);
      PassesConcat(inside, ['\\', code[1]], inside, digits, inside);
      assert ['\\', code[1]] + digits == code;
    }
  }

  /** No text can end the string that it is put into. */
  lemma JsonCodeStaysInside()
    ensures StaysInside(JsonCode)
  {
    forall c: char, d: nat ensures StaysAt(JsonCode, c, d) {
      EscapePasses(d, c);
    }
  }
}
