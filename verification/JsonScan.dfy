/**
 The JSON scanner for one-line objects, against a printer. The scanner is given first as functions from the text that
 is left to the text that is left after a step; the methods that move a pointer refine them.
 */
module JsonScan {

  function Drop(s: string, n: nat): (r: string)
    ensures |r| <= |s| && (n > 0 && s != "" ==> |r| < |s|)
  {
    if n <= |s| then s[n..] else ""
  }

  predicate Starts(s: string, c: char) {
    s != "" && s[0] == c
  }

  /** The text from the first character on that is not one of the given ones. */
  function SkipAny(s: string, chars: string): (r: string)
    ensures |r| <= |s|
    ensures r != "" ==> r[0] !in chars
  {
    if s != "" && s[0] in chars then SkipAny(s[1..], chars) else s
  }

  /** The text from the first of the given characters on. */
  function SkipUntil(s: string, chars: string): (r: string)
    ensures |r| <= |s|
    ensures r != "" ==> r[0] in chars
  {
    if s != "" && s[0] !in chars then SkipUntil(s[1..], chars) else s
  }

  /** What SkipUntil has passed. */
  function Until(s: string, chars: string): string {
    if s != "" && s[0] !in chars then [s[0]] + Until(s[1..], chars) else ""
  }

  /** Inside a string: the text from the closing quote on. */
  function StringEnd(s: string): (r: string)
    ensures |r| <= |s|
    ensures r != "" ==> r[0] == '"'
    decreases |s|
  {
    if s == "" || s[0] == '"' then s
    else if s[0] == '\\' then StringEnd(Drop(s, 2))
    else StringEnd(s[1..])
  }

  /** Inside nested brackets of one kind: the text after the bracket that closes the outermost. */
  function SkipNested(s: string, depth: nat, open: char, close: char): (r: string)
    ensures |r| <= |s|
    decreases |s|
  {
    if s == "" || depth == 0 then s
    else if s[0] == open then SkipNested(s[1..], depth + 1, open, close)
    else if s[0] == close then SkipNested(s[1..], depth - 1, open, close)
    else if s[0] == '"' then SkipNested(Drop(StringEnd(s[1..]), 1), depth, open, close)
    else SkipNested(s[1..], depth, open, close)
  }

  /** skip_value */
  function SkipValue(text: string): (r: string)
    ensures |r| <= |text|
  {
    var s := SkipAny(text, " ");
    if Starts(s, '"') then Drop(StringEnd(s[1..]), 1)
    else if Starts(s, '[') then SkipNested(s[1..], 1, '[', ']')
    else if Starts(s, '{') then SkipNested(s[1..], 1, '{', '}')
    else SkipUntil(s, ",}]")
  }

  // Where the scanner runs past the end of the text.

  /** Inside a string: the text ends in the middle of an escape. */
  predicate EscapesEnd(s: string)
    decreases |s|
  {
    if s == "" || s[0] == '"' then false
    else if s[0] == '\\' then |s| == 1 || EscapesEnd(Drop(s, 2))
    else EscapesEnd(s[1..])
  }

  /** Inside nested brackets: some string is not closed before the text ends. */
  predicate OpenString(s: string, depth: nat, open: char, close: char)
    decreases |s|
  {
    if s == "" || depth == 0 then false
    else if s[0] == open then OpenString(s[1..], depth + 1, open, close)
    else if s[0] == close then OpenString(s[1..], depth - 1, open, close)
    else if s[0] == '"' then
      StringEnd(s[1..]) == "" || OpenString(Drop(StringEnd(s[1..]), 1), depth, open, close)
    else OpenString(s[1..], depth, open, close)
  }

  /** A string that ends in the middle of an escape, or brackets with a string that is not closed. */
  predicate Overruns(text: string) {
    var s := SkipAny(text, " ");
    if Starts(s, '"') then EscapesEnd(s[1..])
    else if Starts(s, '[') then OpenString(s[1..], 1, '[', ']')
    else if Starts(s, '{') then OpenString(s[1..], 1, '{', '}')
    else false
  }

  /** One callback: the key, and the text from the value on. */
  datatype Field = Field(key: string, value: string)

  /** The loop of json_scan_object over what follows the opening brace. */
  function Fields(text: string): seq<Field>
    decreases |text|
  {
    var s := SkipAny(text, " ,\n\r");
    if !Starts(s, '"') then []
    else
      var key := Until(s[1..], "\"");
      var value := SkipAny(Drop(SkipUntil(s[1..], "\""), 1), " :");
      [Field(key, value)] + Fields(SkipValue(value))
  }

  /** json_scan_object */
  function ScanObject(line: string): seq<Field> {
    Fields(Drop(SkipUntil(line, "{"), 1))
  }

  /** json_parse_string, after the opening quote: at most `limit` characters. */
  function Unescaped(s: string, limit: nat): string
    decreases |s|
  {
    if s == "" || s[0] == '"' || limit == 0 then ""
    else if s[0] != '\\' then [s[0]] + Unescaped(s[1..], limit - 1)
    else if |s| == 1 then ""
    else [s[1]] + Unescaped(s[2..], limit - 1)
  }

  // ----- The printer -----

  datatype Value =
    | Atom(text: string)
    | Str(chars: string)
    | Arr(items: seq<Value>)
    | Obj(members: seq<Member>)

  datatype Member = Member(key: string, value: Value)

  /** Numbers, truth values and null: no character that means something to the scanner. */
  predicate AtomOk(text: string) {
    text != "" && forall i | 0 <= i < |text| :: text[i] !in " ,:[]{}\"\n\r"
  }

  predicate WellFormed(v: Value) {
    match v
    case Atom(text) => AtomOk(text)
    case Str(_) => true
    case Arr(items) => forall w | w in items :: WellFormed(w)
    case Obj(members) => forall m | m in members :: WellFormed(m.value)
  }

  predicate MembersOk(members: seq<Member>) {
    forall m | m in members :: WellFormed(m.value)
  }

  // The printer puts a text in front of another; `gap` is the number of spaces after each comma and colon.

  function SpacesTo(gap: nat, rest: string): string {
    if gap == 0 then rest else [' '] + SpacesTo(gap - 1, rest)
  }

  /** Escapes the quote and the backslash only. */
  function EscapeTo(s: string, rest: string): string {
    if s == "" then rest
    else if s[0] == '"' || s[0] == '\\' then ['\\', s[0]] + EscapeTo(s[1..], rest)
    else [s[0]] + EscapeTo(s[1..], rest)
  }

  function QuoteTo(s: string, rest: string): string {
    ['"'] + EscapeTo(s, ['"'] + rest)
  }

  function RenderTo(v: Value, gap: nat, rest: string): string
    decreases v
  {
    match v
    case Atom(text) => text + rest
    case Str(chars) => QuoteTo(chars, rest)
    case Arr(items) => ['['] + ItemsTo(items, gap, [']'] + rest)
    case Obj(members) => ['{'] + MembersTo(members, gap, ['}'] + rest)
  }

  function ItemsTo(items: seq<Value>, gap: nat, rest: string): string
    decreases items, 0
  {
    if items == [] then rest else RenderTo(items[0], gap, MoreItemsTo(items[1..], gap, rest))
  }

  function MoreItemsTo(items: seq<Value>, gap: nat, rest: string): string
    decreases items, 1
  {
    if items == [] then rest else [','] + SpacesTo(gap, ItemsTo(items, gap, rest))
  }

  function MembersTo(members: seq<Member>, gap: nat, rest: string): string
    decreases members, 1
  {
    if members == [] then rest
    else QuoteTo(members[0].key, [':'] + SpacesTo(gap, ValueTo(members, gap, rest)))
  }

  /** The first value and all that follows it. */
  function ValueTo(members: seq<Member>, gap: nat, rest: string): string
    requires members != []
    decreases members, 0
  {
    RenderTo(members[0].value, gap, MoreMembersTo(members[1..], gap, rest))
  }

  function MoreMembersTo(members: seq<Member>, gap: nat, rest: string): string
    decreases members, 2
  {
    if members == [] then rest else [','] + SpacesTo(gap, MembersTo(members, gap, rest))
  }

  // ----- Skipping one rendered value -----

  lemma {:induction false} StringEndsAtQuote(s: string, rest: string)
    ensures StringEnd(EscapeTo(s, ['"'] + rest)) == ['"'] + rest
    ensures !EscapesEnd(EscapeTo(s, ['"'] + rest))
  {
    if s != "" {
      StringEndsAtQuote(s[1..], rest);
    }
  }

  /** A quoted string is passed without a change of depth. */
  lemma NestedQuote(s: string, rest: string, depth: nat, open: char, close: char)
    requires depth > 0 && open != '"' && close != '"'
    ensures SkipNested(QuoteTo(s, rest), depth, open, close) == SkipNested(rest, depth, open, close)
    ensures OpenString(QuoteTo(s, rest), depth, open, close) == OpenString(rest, depth, open, close)
  {
    StringEndsAtQuote(s, rest);
  }

  predicate Brackets(open: char, close: char) {
    (open == '[' && close == ']') || (open == '{' && close == '}')
  }

  lemma NestedChar(c: char, rest: string, depth: nat, open: char, close: char)
    requires depth > 0 && Brackets(open, close) && c !in "[]{}\""
    ensures SkipNested([c] + rest, depth, open, close) == SkipNested(rest, depth, open, close)
    ensures OpenString([c] + rest, depth, open, close) == OpenString(rest, depth, open, close)
  {
  }

  lemma {:induction false} NestedSpaces(gap: nat, rest: string, depth: nat, open: char, close: char)
    requires depth > 0 && Brackets(open, close)
    ensures SkipNested(SpacesTo(gap, rest), depth, open, close) == SkipNested(rest, depth, open, close)
    ensures OpenString(SpacesTo(gap, rest), depth, open, close) == OpenString(rest, depth, open, close)
  {
    if gap > 0 {
      NestedSpaces(gap - 1, rest, depth, open, close);
    }
  }

  lemma {:induction false} NestedAtom(text: string, rest: string, depth: nat, open: char, close: char)
    requires depth > 0 && Brackets(open, close) && forall i | 0 <= i < |text| :: text[i] !in "[]{}\""
    ensures SkipNested(text + rest, depth, open, close) == SkipNested(rest, depth, open, close)
    ensures OpenString(text + rest, depth, open, close) == OpenString(rest, depth, open, close)
  {
    if text == "" {
      assert text + rest == rest;
    } else {
      NestedAtom(text[1..], rest, depth, open, close);
      assert (text + rest)[1..] == text[1..] + rest;
    }
  }

  /** However deeply it nests, a rendered value is passed without a change of depth. */
  lemma {:induction false} NestedValue(v: Value, gap: nat, rest: string, depth: nat, open: char, close: char)
    requires depth > 0 && Brackets(open, close) && WellFormed(v)
    ensures SkipNested(RenderTo(v, gap, rest), depth, open, close) == SkipNested(rest, depth, open, close)
    ensures OpenString(RenderTo(v, gap, rest), depth, open, close) == OpenString(rest, depth, open, close)
    decreases v
  {
    match v
    case Atom(text) => NestedAtom(text, rest, depth, open, close);
    case Str(chars) => NestedQuote(chars, rest, depth, open, close);
    case Arr(items) =>
      NestedItems(items, gap, [']'] + rest, if open == '[' then depth + 1 else depth, open, close);
    case Obj(members) =>
      NestedMembers(members, gap, ['}'] + rest, if open == '{' then depth + 1 else depth, open, close);
  }

  lemma {:induction false} NestedItems(items: seq<Value>, gap: nat, rest: string, depth: nat, open: char, close: char)
    requires depth > 0 && Brackets(open, close) && forall w | w in items :: WellFormed(w)
    ensures SkipNested(ItemsTo(items, gap, rest), depth, open, close) == SkipNested(rest, depth, open, close)
    ensures OpenString(ItemsTo(items, gap, rest), depth, open, close) == OpenString(rest, depth, open, close)
    decreases items
  {
    hide SkipNested, OpenString, RenderTo, SpacesTo, WellFormed;
    if items != [] {
      var more := items[1..];
      NestedChar(',', SpacesTo(gap, ItemsTo(more, gap, rest)), depth, open, close);
      NestedValue(items[0], gap, MoreItemsTo(more, gap, rest), depth, open, close);
      if more != [] {
        NestedSpaces(gap, ItemsTo(more, gap, rest), depth, open, close);
        NestedItems(more, gap, rest, depth, open, close);
      }
    }
  }

  lemma {:induction false} NestedMembers(
      members: seq<Member>, gap: nat, rest: string, depth: nat, open: char, close: char)
    requires depth > 0 && Brackets(open, close) && MembersOk(members)
    ensures SkipNested(MembersTo(members, gap, rest), depth, open, close) == SkipNested(rest, depth, open, close)
    ensures OpenString(MembersTo(members, gap, rest), depth, open, close) == OpenString(rest, depth, open, close)
    decreases members
  {
    hide SkipNested, OpenString, QuoteTo, RenderTo, SpacesTo, WellFormed;
    if members != [] {
      var more := members[1..];
      var value := ValueTo(members, gap, rest);
      NestedChar(':', SpacesTo(gap, value), depth, open, close);
      NestedChar(',', SpacesTo(gap, MembersTo(more, gap, rest)), depth, open, close);
      NestedQuote(members[0].key, [':'] + SpacesTo(gap, value), depth, open, close);
      NestedSpaces(gap, value, depth, open, close);
      NestedValue(members[0].value, gap, MoreMembersTo(more, gap, rest), depth, open, close);
      if more != [] {
        NestedSpaces(gap, MembersTo(more, gap, rest), depth, open, close);
        NestedMembers(more, gap, rest, depth, open, close);
      }
    }
  }

  lemma {:induction false} SkipAtom(text: string, rest: string)
    requires forall i | 0 <= i < |text| :: text[i] !in ",}]"
    requires rest == "" || rest[0] in ",}]"
    ensures SkipUntil(text + rest, ",}]") == rest
  {
    if text == "" {
      assert text + rest == rest;
    } else {
      SkipAtom(text[1..], rest);
      assert (text + rest)[1..] == text[1..] + rest;
    }
  }

  /**
   A value is skipped exactly, without running past the end, if its end can be seen: after an atom the text must end
   or go on with a delimiter.
   */
  lemma SkipsOneValue(v: Value, gap: nat, rest: string)
    requires WellFormed(v)
    requires v.Atom? ==> rest == "" || rest[0] in ",}]"
    ensures SkipValue(RenderTo(v, gap, rest)) == rest
    ensures !Overruns(RenderTo(v, gap, rest))
  {
    match v
    case Atom(text) =>
      SkipAtom(text, rest);
      assert text[0] !in " \"[{";
      assert (text + rest)[0] == text[0];
    case Str(chars) => StringEndsAtQuote(chars, rest);
    case Arr(items) => NestedItems(items, gap, [']'] + rest, 1, '[', ']');
    case Obj(members) => NestedMembers(members, gap, ['}'] + rest, 1, '{', '}');
  }

  // ----- Scanning a rendered object -----

  predicate NoQuotes(members: seq<Member>) {
    forall m | m in members :: '"' !in m.key
  }

  /** The fields of an object, in order: each key as it is printed, and the text from its value on. */
  function Printed(members: seq<Member>, gap: nat, rest: string): seq<Field> {
    if members == [] then []
    else [Field(EscapeTo(members[0].key, ""), ValueTo(members, gap, rest))] + Printed(members[1..], gap, rest)
  }

  lemma {:induction false} SkipsSpaces(gap: nat, rest: string, chars: string)
    requires ' ' in chars
    ensures SkipAny(SpacesTo(gap, rest), chars) == SkipAny(rest, chars)
  {
    if gap > 0 {
      SkipsSpaces(gap - 1, rest, chars);
    }
  }

  /** The scanner looks for the next quote, escaped or not; without one in the key it finds the end of the key. */
  lemma {:induction false} KeyIsFound(key: string, rest: string)
    requires '"' !in key
    ensures Until(EscapeTo(key, ['"'] + rest), "\"") == EscapeTo(key, "")
    ensures SkipUntil(EscapeTo(key, ['"'] + rest), "\"") == ['"'] + rest
  {
    if key != "" {
      assert key == [key[0]] + key[1..];
      KeyIsFound(key[1..], rest);
    }
  }

  lemma {:induction false} KeyIsCut(key: string, rest: string)
    requires '"' in key
    ensures |Until(EscapeTo(key, ['"'] + rest), "\"")| < |EscapeTo(key, "")|
  {
    if key[0] != '"' {
      assert key == [key[0]] + key[1..];
      KeyIsCut(key[1..], rest);
    }
  }

  /** Where a value may start: the scanner has nothing to skip there. */
  lemma ValueStarts(v: Value, gap: nat, rest: string)
    requires WellFormed(v)
    ensures SkipAny(RenderTo(v, gap, rest), " :") == RenderTo(v, gap, rest)
  {
    if v.Atom? {
      assert v.text[0] !in " ,:[]{}\"\n\r";
      assert (v.text + rest)[0] == v.text[0];
    }
  }

  lemma ColonIsSkipped(members: seq<Member>, gap: nat, rest: string)
    requires members != [] && MembersOk(members)
    ensures SkipAny([':'] + SpacesTo(gap, ValueTo(members, gap, rest)), " :") == ValueTo(members, gap, rest)
  {
    SkipsSpaces(gap, ValueTo(members, gap, rest), " :");
    ValueStarts(members[0].value, gap, MoreMembersTo(members[1..], gap, rest));
  }

  /** What follows a member: a comma and the other members, or the end of the object. */
  lemma MoreMembersStart(members: seq<Member>, gap: nat, rest: string)
    ensures MoreMembersTo(members, gap, ['}'] + rest) != "" && MoreMembersTo(members, gap, ['}'] + rest)[0] in ",}]"
    ensures SkipAny(MoreMembersTo(members, gap, ['}'] + rest), " ,\n\r") == MembersTo(members, gap, ['}'] + rest)
    ensures SkipAny(MembersTo(members, gap, ['}'] + rest), " ,\n\r") == MembersTo(members, gap, ['}'] + rest)
  {
    SkipsSpaces(gap, MembersTo(members, gap, ['}'] + rest), " ,\n\r");
  }

  /** The first field, if the key has no quote. */
  lemma FirstField(members: seq<Member>, gap: nat, rest: string)
    requires members != [] && MembersOk(members) && '"' !in members[0].key
    ensures Fields(MembersTo(members, gap, ['}'] + rest))
         == [Printed(members, gap, ['}'] + rest)[0]] + Fields(MembersTo(members[1..], gap, ['}'] + rest))
  {
    var end := ['}'] + rest;
    var s, value := MembersTo(members, gap, end), ValueTo(members, gap, end);
    var more := MoreMembersTo(members[1..], gap, end);
    MoreMembersStart(members, gap, rest);
    KeyIsFound(members[0].key, [':'] + SpacesTo(gap, value));
    ColonIsSkipped(members, gap, end);
    SkipsOneValue(members[0].value, gap, more) by {
      MoreMembersStart(members[1..], gap, rest);
    }
    assert Fields(s) == [Field(EscapeTo(members[0].key, ""), value)] + Fields(more);
    MoreMembersStart(members[1..], gap, rest);
  }

  lemma {:induction false} FieldsArePrintedIff(members: seq<Member>, gap: nat, rest: string)
    requires MembersOk(members)
    ensures Fields(MembersTo(members, gap, ['}'] + rest)) == Printed(members, gap, ['}'] + rest) <==> NoQuotes(members)
    decreases members
  {
    hide Fields;
    if members == [] {
      assert Fields(['}'] + rest) == [] by {
        NoMoreFields(rest);
      }
    } else if '"' in members[0].key {
      QuotedKeyIsCut(members, gap, rest);
    } else {
      assert members == [members[0]] + members[1..];
      FirstField(members, gap, rest);
      FieldsArePrintedIff(members[1..], gap, rest);
      var printed := Printed(members[1..], gap, ['}'] + rest);
      var found := Fields(MembersTo(members[1..], gap, ['}'] + rest));
      var first := Printed(members, gap, ['}'] + rest)[0];
      assert ([first] + found)[1..] == found && ([first] + printed)[1..] == printed;
    }
  }

  lemma NoMoreFields(rest: string)
    ensures Fields(['}'] + rest) == []
  {
  }

  lemma QuotedKeyIsCut(members: seq<Member>, gap: nat, rest: string)
    requires members != [] && '"' in members[0].key
    ensures Fields(MembersTo(members, gap, ['}'] + rest)) != Printed(members, gap, ['}'] + rest)
  {
    var value := ValueTo(members, gap, ['}'] + rest);
    KeyIsCut(members[0].key, [':'] + SpacesTo(gap, value));
    var s := MembersTo(members, gap, ['}'] + rest);
    assert s[1..] == EscapeTo(members[0].key, ['"'] + ([':'] + SpacesTo(gap, value)));
    assert Fields(s)[0].key == Until(s[1..], "\"");
  }

  // ----- The printer as a function of the value alone -----

  function Render(v: Value, gap: nat): string {
    RenderTo(v, gap, "")
  }

  function Escape(s: string): string {
    EscapeTo(s, "")
  }

  lemma {:induction false} SpacesAppend(gap: nat, a: string, b: string)
    ensures SpacesTo(gap, a + b) == SpacesTo(gap, a) + b
  {
    if gap > 0 {
      SpacesAppend(gap - 1, a, b);
    }
  }

  lemma {:induction false} EscapeAppends(s: string, a: string, b: string)
    ensures EscapeTo(s, a + b) == EscapeTo(s, a) + b
  {
    if s != "" {
      EscapeAppends(s[1..], a, b);
    }
  }

  lemma QuoteAppends(s: string, a: string, b: string)
    ensures QuoteTo(s, a + b) == QuoteTo(s, a) + b
  {
    EscapeAppends(s, ['"'] + a, b);
    assert ['"'] + (a + b) == (['"'] + a) + b;
  }

  lemma {:induction false} RenderAppends(v: Value, gap: nat, a: string, b: string)
    ensures RenderTo(v, gap, a + b) == RenderTo(v, gap, a) + b
    decreases v
  {
    match v
    case Atom(text) => assert text + (a + b) == (text + a) + b;
    case Str(chars) => QuoteAppends(chars, a, b);
    case Arr(items) =>
      ItemsAppend(items, gap, [']'] + a, b);
      assert [']'] + (a + b) == ([']'] + a) + b;
    case Obj(members) =>
      MembersAppend(members, gap, ['}'] + a, b);
      assert ['}'] + (a + b) == (['}'] + a) + b;
  }

  lemma {:induction false} ItemsAppend(items: seq<Value>, gap: nat, a: string, b: string)
    ensures ItemsTo(items, gap, a + b) == ItemsTo(items, gap, a) + b
    decreases items
  {
    if items != [] {
      var more := items[1..];
      if more != [] {
        ItemsAppend(more, gap, a, b);
        SpacesAppend(gap, ItemsTo(more, gap, a), b);
      }
      RenderAppends(items[0], gap, MoreItemsTo(more, gap, a), b);
      assert MoreItemsTo(more, gap, a + b) == MoreItemsTo(more, gap, a) + b;
    }
  }

  lemma {:induction false} MembersAppend(members: seq<Member>, gap: nat, a: string, b: string)
    ensures MembersTo(members, gap, a + b) == MembersTo(members, gap, a) + b
    decreases members
  {
    if members != [] {
      var more := members[1..];
      if more != [] {
        MembersAppend(more, gap, a, b);
        SpacesAppend(gap, MembersTo(more, gap, a), b);
      }
      RenderAppends(members[0].value, gap, MoreMembersTo(more, gap, a), b);
      assert MoreMembersTo(more, gap, a + b) == MoreMembersTo(more, gap, a) + b;
      var value := ValueTo(members, gap, a);
      SpacesAppend(gap, value, b);
      assert [':'] + SpacesTo(gap, value + b) == ([':'] + SpacesTo(gap, value)) + b;
      QuoteAppends(members[0].key, [':'] + SpacesTo(gap, value), b);
    }
  }

  // ----- The main results -----

  lemma {:induction false} BraceIsFound(before: string, s: string)
    requires '{' !in before && Starts(s, '{')
    ensures SkipUntil(before + s, "{") == s
  {
    if before == "" {
      assert before + s == s;
    } else {
      assert before == [before[0]] + before[1..];
      BraceIsFound(before[1..], s);
      assert (before + s)[1..] == before[1..] + s;
    }
  }

  /**
   The scan of a line that holds the rendering of an object visits exactly its members, in order, each with its key as
   printed and with the text from its value on, if and only if no key of the object has a quote.
   */
  lemma ScanVisitsMembersIff(members: seq<Member>, gap: nat, before: string, after: string)
    requires MembersOk(members) && '{' !in before
    ensures ScanObject(before + (Render(Obj(members), gap) + after)) == Printed(members, gap, ['}'] + after)
            <==> NoQuotes(members)
  {
    hide Fields, Printed, MembersTo;
    RenderAppends(Obj(members), gap, "", after);
    assert "" + after == after;
    BraceIsFound(before, RenderTo(Obj(members), gap, after));
    FieldsArePrintedIff(members, gap, after);
  }

  /** The text of the k-th field starts with the rendering of the k-th value. */
  lemma {:induction false} PrintedValues(members: seq<Member>, gap: nat, rest: string, k: nat)
    requires k < |members|
    ensures |Printed(members, gap, rest)| == |members|
    ensures Printed(members, gap, rest)[k].key == Escape(members[k].key)
    ensures Render(members[k].value, gap) <= Printed(members, gap, rest)[k].value
    decreases k
  {
    PrintedLength(members, gap, rest);
    if k == 0 {
      var more := MoreMembersTo(members[1..], gap, rest);
      RenderAppends(members[0].value, gap, "", more);
      assert "" + more == more;
    } else {
      PrintedValues(members[1..], gap, rest, k - 1);
    }
  }

  lemma {:induction false} PrintedLength(members: seq<Member>, gap: nat, rest: string)
    ensures |Printed(members, gap, rest)| == |members|
  {
    if members != [] {
      PrintedLength(members[1..], gap, rest);
    }
  }

  /** A key without quotes is visited unchanged if and only if it has no backslash. */
  lemma {:induction false} EscapeChanges(s: string)
    ensures |Escape(s)| >= |s|
    ensures Escape(s) == s <==> '"' !in s && '\\' !in s
  {
    if s != "" {
      EscapeChanges(s[1..]);
      assert s == [s[0]] + s[1..];
      if s[0] != '"' && s[0] != '\\' {
        assert Escape(s)[1..] == Escape(s[1..]);
      }
    }
  }

  /** Reading a printed string gives back as much of it as fits. */
  lemma {:induction false} ParseUndoesPrint(s: string, rest: string, limit: nat)
    ensures Unescaped(EscapeTo(s, ['"'] + rest), limit) == if |s| <= limit then s else s[..limit]
  {
    if s != "" && limit > 0 {
      ParseUndoesPrint(s[1..], rest, limit - 1);
    }
  }

  // ----- The scanner as the program runs it: a pointer into a text that ends with a NUL -----

  /** The character a pointer shows; past the text it shows NUL. */
  function At(text: string, p: nat): char {
    if p < |text| then text[p] else '\0'
  }

  function Rest(text: string, p: nat): string {
    if p <= |text| then text[p..] else ""
  }

  /** The pointer and the text that is left move together. */
  lemma Moves(text: string, p: nat)
    requires '\0' !in text
    ensures p <= |text| ==> |Rest(text, p)| == |text| - p
    ensures At(text, p) == '\0' <==> Rest(text, p) == ""
    ensures p < |text| <==> Rest(text, p) != ""
    ensures Rest(text, p) != "" ==> Rest(text, p)[0] == At(text, p) && Rest(text, p)[1..] == Rest(text, p + 1)
    ensures Drop(Rest(text, p), 1) == Rest(text, p + 1) && Drop(Rest(text, p), 2) == Rest(text, p + 2)
  {
  }

  /** The pointer at the first character that is not one of the given ones. */
  method PassAny(text: string, p: nat, chars: string) returns (q: nat)
    requires '\0' !in text && '\0' !in chars
    ensures p <= q && Rest(text, q) == SkipAny(Rest(text, p), chars)
    ensures p <= |text| ==> q <= |text|
  {
    hide Rest, At;
    q := p;
    Moves(text, q);
    while At(text, q) in chars
      invariant p <= q && (p <= |text| ==> q <= |text|)
      invariant SkipAny(Rest(text, q), chars) == SkipAny(Rest(text, p), chars)
      decreases |text| - q
    {
      Moves(text, q);
      q := q + 1;
    }
    Moves(text, q);
  }

  lemma UntilMoves(text: string, p: nat, q: nat, chars: string)
    requires p <= q < |text| && At(text, q) !in chars
    ensures text[p..q] + Until(Rest(text, q), chars) == text[p..q + 1] + Until(Rest(text, q + 1), chars)
  {
    var more := Until(Rest(text, q + 1), chars);
    assert Until(Rest(text, q), chars) == [text[q]] + more;
    assert text[p..q + 1] == text[p..q] + [text[q]];
    assert (text[p..q] + [text[q]]) + more == text[p..q] + ([text[q]] + more);
  }

  /** The pointer at the first of the given characters. */
  method PassUntil(text: string, p: nat, chars: string) returns (q: nat)
    requires '\0' !in text
    ensures p <= q && Rest(text, q) == SkipUntil(Rest(text, p), chars)
    ensures p <= |text| ==> q <= |text| && text[p..q] == Until(Rest(text, p), chars)
  {
    hide Rest, At;
    q := p;
    while At(text, q) != '\0' && At(text, q) !in chars
      invariant p <= q && (p <= |text| ==> q <= |text|)
      invariant SkipUntil(Rest(text, q), chars) == SkipUntil(Rest(text, p), chars)
      invariant p <= |text| ==> text[p..q] + Until(Rest(text, q), chars) == Until(Rest(text, p), chars)
      decreases |text| - q
    {
      Moves(text, q);
      if p <= |text| {
        UntilMoves(text, p, q, chars);
      }
      q := q + 1;
    }
    Moves(text, q);
  }

  /** The pointer at the quote that closes a string. */
  method PassString(text: string, p: nat) returns (q: nat)
    requires '\0' !in text
    ensures p <= q && Rest(text, q) == StringEnd(Rest(text, p))
    ensures p <= |text| ==> (q <= |text| <==> !EscapesEnd(Rest(text, p)))
  {
    hide Rest, At, Drop;
    q := p;
    while At(text, q) != '\0' && At(text, q) != '"'
      invariant p <= q && StringEnd(Rest(text, q)) == StringEnd(Rest(text, p))
      invariant p <= |text| ==>
                  if q <= |text| then EscapesEnd(Rest(text, q)) == EscapesEnd(Rest(text, p))
                  else EscapesEnd(Rest(text, p))
      decreases |text| - q
    {
      Moves(text, q);
      if At(text, q) == '\\' {
        q := q + 1;
      }
      q := q + 1;
    }
    Moves(text, q);
  }

  /** The pointer after the bracket that closes the one just passed. */
  method PassNested(text: string, p: nat, open: char, close: char) returns (q: nat)
    requires '\0' !in text && Brackets(open, close)
    ensures p <= q && Rest(text, q) == SkipNested(Rest(text, p), 1, open, close)
    ensures p <= |text| ==> (q <= |text| <==> !OpenString(Rest(text, p), 1, open, close))
  {
    hide Rest, At, Drop, StringEnd;
    q := p;
    var depth: nat := 1;
    while At(text, q) != '\0' && depth > 0
      invariant p <= q
      invariant SkipNested(Rest(text, q), depth, open, close) == SkipNested(Rest(text, p), 1, open, close)
      invariant p <= |text| ==>
                  OpenString(Rest(text, p), 1, open, close)
                  == if q <= |text| then OpenString(Rest(text, q), depth, open, close) else true
      decreases |text| - q
    {
      Moves(text, q);
      if At(text, q) == open {
        depth := depth + 1;
      } else if At(text, q) == close {
        depth := depth - 1;
      } else if At(text, q) == '"' {
        q := PassString(text, q + 1);
        Moves(text, q);
      }
      q := q + 1;
    }
    Moves(text, q);
  }

  /** skip_value */
  method PassValue(text: string, p: nat) returns (q: nat)
    requires '\0' !in text
    ensures p <= q && Rest(text, q) == SkipValue(Rest(text, p))
    ensures p <= |text| ==> (q <= |text| <==> !Overruns(Rest(text, p)))
  {
    hide Rest, At, Drop, StringEnd, SkipNested, SkipUntil, SkipAny;
    q := PassAny(text, p, " ");
    Moves(text, q);
    if At(text, q) == '"' {
      q := PassString(text, q + 1);
      Moves(text, q);
      if At(text, q) == '"' {
        q := q + 1;
      }
    } else if At(text, q) == '[' {
      q := PassNested(text, q + 1, '[', ']');
    } else if At(text, q) == '{' {
      q := PassNested(text, q + 1, '{', '}');
    } else {
      q := PassUntil(text, q, ",}]");
    }
  }

  /** One turn of the loop from the key on: its end, and the pointer at the value. */
  method TakeKey(line: string, start: nat) returns (key: string, p: nat)
    requires '\0' !in line && start <= |line|
    ensures start <= p && key == Until(Rest(line, start), "\"")
    ensures Rest(line, p) == SkipAny(Drop(SkipUntil(Rest(line, start), "\""), 1), " :")
  {
    hide Until, SkipUntil, SkipAny;
    p := PassUntil(line, start, "\"");
    key := line[start..p];
    if At(line, p) == '"' {
      p := p + 1;
    }
    p := PassAny(line, p, " :");
  }

  lemma FieldsMove(text: string, key: string, value: string, calls: seq<Field>)
    requires Starts(SkipAny(text, " ,\n\r"), '"')
    requires key == Until(SkipAny(text, " ,\n\r")[1..], "\"")
    requires value == SkipAny(Drop(SkipUntil(SkipAny(text, " ,\n\r")[1..], "\""), 1), " :")
    ensures calls + Fields(text) == (calls + [Field(key, value)]) + Fields(SkipValue(value))
  {
    hide Until, SkipUntil, SkipAny, SkipValue;
  }

  /** json_scan_object, with the calls of its callback as the result. */
  method Scan(line: string) returns (calls: seq<Field>)
    requires '\0' !in line
    ensures calls == ScanObject(line)
  {
    hide Until, SkipUntil, SkipAny, SkipValue;
    calls := [];
    var p := PassUntil(line, 0, "{");
    if At(line, p) == '\0' {
      return;
    }
    p := p + 1;
    while At(line, p) != '\0'
      invariant calls + Fields(Rest(line, p)) == ScanObject(line)
      decreases |line| - p
    {
      ghost var text := Rest(line, p);
      p := PassAny(line, p, " ,\n\r");
      if At(line, p) == '}' || At(line, p) == '\0' || At(line, p) != '"' {
        break;
      }
      assert SkipAny(text, " ,\n\r")[1..] == Rest(line, p + 1);
      var key;
      key, p := TakeKey(line, p + 1);
      FieldsMove(text, key, Rest(line, p), calls);
      calls := calls + [Field(key, Rest(line, p))];
      p := PassValue(line, p);
    }
  }

  /** One turn of json_parse_string. */
  lemma UnescapeMoves(text: string, p: nat, q: nat, limit: nat, done: string)
    requires At(text, p) !in "\0\"" && limit > 0 && '\0' !in text
    requires q == (if At(text, p) == '\\' then p + 1 else p) && At(text, q) != '\0'
    ensures done + Unescaped(Rest(text, p), limit)
         == (done + [At(text, q)]) + Unescaped(Rest(text, q + 1), limit - 1)
  {
    var more := Unescaped(Rest(text, q + 1), limit - 1);
    assert Unescaped(Rest(text, p), limit) == [At(text, q)] + more;
    assert done + ([At(text, q)] + more) == (done + [At(text, q)]) + more;
  }

  lemma UnescapeEnds(text: string, p: nat, limit: nat, done: string)
    requires '\0' !in text
    requires At(text, p) in "\0\"" || limit == 0 || (At(text, p) == '\\' && At(text, p + 1) == '\0')
    ensures done + Unescaped(Rest(text, p), limit) == done
  {
  }

  /** json_parse_string into a buffer of at least maxLen characters. */
  method ParseString(text: string, start: nat, out: array<char>, maxLen: nat) returns (n: nat)
    requires '\0' !in text && 1 <= maxLen <= out.Length
    modifies out
    ensures !Starts(Rest(text, start), '"') ==> n == 0 && out[..] == old(out[..])
    ensures Starts(Rest(text, start), '"') ==>
      n < maxLen && out[..n] == Unescaped(Rest(text, start + 1), maxLen - 1) && out[n] == '\0'
      && forall k | n < k < out.Length :: out[k] == old(out[k])
  {
    n := 0;
    if At(text, start) != '"' {
      return;
    }
    n := Unescape(text, start + 1, out, maxLen - 1);
    out[n] := '\0';
  }

  method Put(out: array<char>, n: nat, c: char)
    requires n < out.Length
    modifies out
    ensures out[..n + 1] == old(out[..n]) + [c]
    ensures forall k | n < k < out.Length :: out[k] == old(out[k])
  {
    out[n] := c;
  }

  /** The loop of json_parse_string. */
  method Unescape(text: string, start: nat, out: array<char>, limit: nat) returns (n: nat)
    requires '\0' !in text && limit <= out.Length
    modifies out
    ensures n <= limit && out[..n] == Unescaped(Rest(text, start), limit)
    ensures forall k | n <= k < out.Length :: out[k] == old(out[k])
  {
    hide Rest, At, Unescaped;
    n := 0;
    var p := start;
    ghost var done := "";
    assert done + Unescaped(Rest(text, p), limit) == Unescaped(Rest(text, p), limit);
    while At(text, p) != '\0' && At(text, p) != '"' && n < limit
      invariant n <= limit && out[..n] == done
      invariant done + Unescaped(Rest(text, p), limit - n) == Unescaped(Rest(text, start), limit)
      invariant forall k | n <= k < out.Length :: out[k] == old(out[k])
      decreases limit - n
    {
      ghost var from := p;
      if At(text, p) == '\\' {
        p := p + 1;
        if At(text, p) == '\0' {
          UnescapeEnds(text, from, limit - n, done);
          return;
        }
      }
      UnescapeMoves(text, from, p, limit - n, done);
      done := done + [At(text, p)];
      Put(out, n, At(text, p));
      n, p := n + 1, p + 1;
    }
    UnescapeEnds(text, p, limit - n, done);
  }
}
