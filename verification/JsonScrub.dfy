/** `scrub_database_message`: JSON blocks in database errors are replaced before
    the error is logged. */
module JsonScrub {
  import opened Texts

  const MARK := "<scrubbed-json>"

  predicate Opens(c: char) {
    c == '{' || c == '['
  }

  function Closer(open: char): char {
    if open == '{' then '}' else ']'
  }

  /** What is left of `s` after the block whose opener has been read. Only
      brackets of the opener's kind count, and only outside strings. */
  function Skip(s: string, open: char, depth: nat, inString: bool, escaped: bool): (rest: string)
    ensures |rest| <= |s|
    decreases |s|
  {
    if s == "" then ""
    else if escaped then Skip(s[1..], open, depth, inString, false)
    else if s[0] == '\\' then Skip(s[1..], open, depth, inString, true)
    else if s[0] == '"' then Skip(s[1..], open, depth, !inString, false)
    else if inString then Skip(s[1..], open, depth, inString, false)
    else if s[0] == open then Skip(s[1..], open, depth + 1, inString, false)
    else if s[0] == Closer(open) then
      if depth <= 1 then s[1..] else Skip(s[1..], open, depth - 1, inString, false)
    else Skip(s[1..], open, depth, inString, false)
  }

  function Scrub(msg: string): string
    decreases |msg|
  {
    if msg == "" then ""
    else if Opens(msg[0]) then MARK + Scrub(Skip(msg[1..], msg[0], 1, false, false))
    else [msg[0]] + Scrub(msg[1..])
  }

  /** The scanner: one pass with a nested loop that eats a block. */
  method ScrubDatabaseMessage(msg: string) returns (out: string)
    ensures out == Scrub(msg)
  {
    out := "";
    var i := 0;
    while i < |msg|
      invariant i <= |msg| && out + Scrub(msg[i..]) == Scrub(msg)
    {
      var c := msg[i];
      ghost var left := msg[i..];
      i := i + 1;
      assert left[1..] == msg[i..];
      if c == '{' || c == '[' {
        i := EatBlock(msg, i, c);
        Assoc(out, MARK, Scrub(msg[i..]));
        out := out + MARK;
      } else {
        Assoc(out, [c], Scrub(msg[i..]));
        out := out + [c];
      }
    }
  }

  method EatBlock(msg: string, start: nat, c: char) returns (i: nat)
    requires start <= |msg| && Opens(c)
    ensures start <= i <= |msg| && msg[i..] == Skip(msg[start..], c, 1, false, false)
  {
    var close := if c == '{' then '}' else ']';
    var depth, inString, escaped := 1, false, false;
    i := start;
    while i < |msg|
      invariant start <= i <= |msg| && depth >= 1
      invariant Skip(msg[i..], c, depth, inString, escaped) == Skip(msg[start..], c, 1, false, false)
    {
      var inner := msg[i];
      i := i + 1;
      if escaped {
        escaped := false;
      } else if inner == '\\' {
        escaped := true;
      } else if inner == '"' {
        inString := !inString;
      } else if !inString {
        if inner == c {
          depth := depth + 1;
        } else if inner == close {
          depth := depth - 1;
          if depth == 0 {
            break;
          }
        }
      }
    }
  }

  // ---- JSON texts (RFC 8259) -----------------------------------------------

  /** A character of a string: unescaped, escaped by one character, or `\uXXXX`
      (section 7). */
  datatype Unit = Unescaped(c: char) | Escape(e: char) | Hex(digits: string)

  predicate IsHex(c: char) {
    '0' <= c <= '9' || 'a' <= c <= 'f' || 'A' <= c <= 'F'
  }

  predicate UnitOk(u: Unit) {
    match u
    case Unescaped(c) => c >= ' ' && c != '"' && c != '\\'
    case Escape(e) => e in "\"\\/bfnrt"
    case Hex(digits) => |digits| == 4 && forall k :: 0 <= k < 4 ==> IsHex(digits[k])
  }

  /** Whitespace may stand around every structural character (section 2). */
  predicate Blank(s: string) {
    forall k :: 0 <= k < |s| ==> s[k] in " \t\n\r"
  }

  /** The characters of numbers and of the three literal names. */
  predicate ScalarText(s: string) {
    forall k :: 0 <= k < |s| ==> '0' <= s[k] <= '9' || 'a' <= s[k] <= 'z' || s[k] in "+-.E"
  }

  datatype Value =
    | Scalar(text: string)
    | Text(units: seq<Unit>)
    | Array(blank: string, elements: Elements)
    | Object(blank: string, members: Members)

  datatype Elements = NoElement | Element(before: string, value: Value, after: string, rest: Elements)

  datatype Members =
    | NoMember
    | Member(before: string, name: seq<Unit>, colon: string, gap: string, value: Value, after: string, rest: Members)

  predicate UnitsOk(units: seq<Unit>) {
    forall k :: 0 <= k < |units| ==> UnitOk(units[k])
  }

  predicate ValueOk(v: Value) {
    match v
    case Scalar(text) => ScalarText(text)
    case Text(units) => UnitsOk(units)
    case Array(blank, elements) => Blank(blank) && ElementsOk(elements)
    case Object(blank, members) => Blank(blank) && MembersOk(members)
  }

  predicate ElementsOk(es: Elements) {
    match es
    case NoElement => true
    case Element(before, value, after, rest) => Blank(before) && ValueOk(value) && Blank(after) && ElementsOk(rest)
  }

  predicate MembersOk(ms: Members) {
    match ms
    case NoMember => true
    case Member(before, name, colon, gap, value, after, rest) =>
      Blank(before) && UnitsOk(name) && Blank(colon) && Blank(gap) && ValueOk(value) && Blank(after) && MembersOk(rest)
  }

  function PrintUnit(u: Unit): string {
    match u
    case Unescaped(c) => [c]
    case Escape(e) => ['\\', e]
    case Hex(digits) => "\\u" + digits
  }

  function PrintUnits(units: seq<Unit>): string {
    if units == [] then "" else PrintUnit(units[0]) + PrintUnits(units[1..])
  }

  function PrintString(units: seq<Unit>): string {
    "\"" + PrintUnits(units) + "\""
  }

  function Print(v: Value): string {
    match v
    case Scalar(text) => text
    case Text(units) => PrintString(units)
    case Array(blank, elements) => "[" + blank + PrintElements(elements) + "]"
    case Object(blank, members) => "{" + blank + PrintMembers(members) + "}"
  }

  function PrintElements(es: Elements): string {
    match es
    case NoElement => ""
    case Element(before, value, after, rest) =>
      before + Print(value) + after + (if rest.NoElement? then "" else ",") + PrintElements(rest)
  }

  function PrintMembers(ms: Members): string {
    match ms
    case NoMember => ""
    case Member(before, name, colon, gap, value, after, rest) =>
      before + PrintString(name) + colon + ":" + gap + Print(value) + after
      + (if rest.NoMember? then "" else ",") + PrintMembers(rest)
  }

  // ---- skipping what a block contains --------------------------------------

  /** Characters that the scanner passes over outside strings. */
  predicate Inert(s: string) {
    forall k :: 0 <= k < |s| ==> s[k] !in "\"\\{}[]"
  }

  lemma {:induction false} SkipInert(s: string, rest: string, open: char, depth: nat)
    requires Inert(s) && Opens(open)
    ensures Skip(s + rest, open, depth, false, false) == Skip(rest, open, depth, false, false)
    decreases |s|
  {
    if s == "" {
      assert s + rest == rest;
    } else {
      assert s[0] !in "\"\\{}[]";
      assert (s + rest)[1..] == s[1..] + rest;
      SkipInert(s[1..], rest, open, depth);
    }
  }

  lemma {:induction false} SkipPlain(s: string, rest: string, open: char, depth: nat)
    requires forall k :: 0 <= k < |s| ==> s[k] != '"' && s[k] != '\\'
    ensures Skip(s + rest, open, depth, true, false) == Skip(rest, open, depth, true, false)
    decreases |s|
  {
    if s == "" {
      assert s + rest == rest;
    } else {
      assert (s + rest)[1..] == s[1..] + rest;
      SkipPlain(s[1..], rest, open, depth);
    }
  }

  lemma SkipUnit(u: Unit, rest: string, open: char, depth: nat)
    requires UnitOk(u)
    ensures Skip(PrintUnit(u) + rest, open, depth, true, false) == Skip(rest, open, depth, true, false)
  {
    match u
    case Unescaped(c) =>
      SkipPlain([c], rest, open, depth);
    case Escape(e) =>
      assert ([('\\'), e] + rest)[1..] == [e] + rest;
      assert ([e] + rest)[1..] == rest;
    case Hex(digits) =>
      assert ("\\u" + digits + rest)[1..] == ['u'] + (digits + rest);
      assert (['u'] + (digits + rest))[1..] == digits + rest;
      SkipPlain(digits, rest, open, depth);
      assert PrintUnit(u) + rest == "\\u" + digits + rest;
  }

  lemma {:induction false} SkipUnits(units: seq<Unit>, rest: string, open: char, depth: nat)
    requires UnitsOk(units)
    ensures Skip(PrintUnits(units) + rest, open, depth, true, false) == Skip(rest, open, depth, true, false)
    decreases |units|
  {
    if units == [] {
      assert PrintUnits(units) + rest == rest;
    } else {
      SkipUnit(units[0], PrintUnits(units[1..]) + rest, open, depth);
      SkipUnits(units[1..], rest, open, depth);
      assert PrintUnits(units) + rest == PrintUnit(units[0]) + (PrintUnits(units[1..]) + rest);
    }
  }

  /** Quotes, brackets and escapes inside a string do not count. */
  lemma SkipString(units: seq<Unit>, rest: string, open: char, depth: nat)
    requires UnitsOk(units) && Opens(open)
    ensures Skip(PrintString(units) + rest, open, depth, false, false) == Skip(rest, open, depth, false, false)
  {
    var tail := "\"" + rest;
    assert PrintString(units) + rest == "\"" + (PrintUnits(units) + tail);
    assert ("\"" + (PrintUnits(units) + tail))[1..] == PrintUnits(units) + tail;
    SkipUnits(units, tail, open, depth);
    assert tail[1..] == rest;
  }

  lemma BlankIsInert(s: string)
    requires Blank(s)
    ensures Inert(s)
  {
  }

  lemma SkipBracket(c: char, rest: string, open: char, depth: nat)
    requires c in "{}[]" && Opens(open) && depth >= 1
    ensures Skip([c] + rest, open, depth, false, false) ==
            if c == open then Skip(rest, open, depth + 1, false, false)
            else if c != Closer(open) then Skip(rest, open, depth, false, false)
            else if depth == 1 then rest else Skip(rest, open, depth - 1, false, false)
  {
    assert ([c] + rest)[1..] == rest;
  }

  /** A whole value leaves the scanner's depth where it was. */
  lemma {:induction false} SkipValue(v: Value, rest: string, open: char, depth: nat)
    requires ValueOk(v) && Opens(open) && depth >= 1
    ensures Skip(Print(v) + rest, open, depth, false, false) == Skip(rest, open, depth, false, false)
    decreases v, 2
  {
    match v
    case Scalar(text) =>
      SkipInert(text, rest, open, depth);
    case Text(units) =>
      SkipString(units, rest, open, depth);
    case Array(_, _) =>
      SkipBlock(v, rest, open, depth);
    case Object(_, _) =>
      SkipBlock(v, rest, open, depth);
  }

  lemma {:induction false} SkipBlock(v: Value, rest: string, open: char, depth: nat)
    requires (v.Array? || v.Object?) && ValueOk(v) && Opens(open) && depth >= 1
    ensures Skip(Print(v) + rest, open, depth, false, false) == Skip(rest, open, depth, false, false)
    decreases v, 1
  {
    var own := Opener(v);
    var inner := if open == own then depth + 1 else depth;
    var tail := [Closer(own)] + rest;
    PrintBlock(v, rest);
    assert own != Closer(open);
    SkipBracket(own, Body(v) + tail, open, depth);
    SkipBody(v, tail, open, inner);
    ClosersDiffer(own, open);
    SkipBracket(Closer(own), rest, open, inner);
  }

  lemma ClosersDiffer(a: char, b: char)
    requires Opens(a) && Opens(b)
    ensures (Closer(a) == Closer(b) <==> a == b) && Closer(a) != b && Closer(a) in "{}[]"
  {
  }

  function Opener(v: Value): char {
    if v.Array? then '[' else '{'
  }

  lemma PrintBlock(v: Value, rest: string)
    requires v.Array? || v.Object?
    ensures Print(v) + rest == [Opener(v)] + (Body(v) + ([Closer(Opener(v))] + rest))
  {
    var inside := if v.Array? then PrintElements(v.elements) else PrintMembers(v.members);
    Assoc([Opener(v)] + v.blank + inside, [Closer(Opener(v))], rest);
    Assoc([Opener(v)], v.blank, inside);
    Assoc([Opener(v)], Body(v), [Closer(Opener(v))] + rest);
  }

  /** What stands between the brackets of an array or object. */
  function Body(v: Value): string
    requires v.Array? || v.Object?
  {
    if v.Array? then v.blank + PrintElements(v.elements) else v.blank + PrintMembers(v.members)
  }

  lemma {:induction false} SkipBody(v: Value, rest: string, open: char, depth: nat)
    requires (v.Array? || v.Object?) && ValueOk(v) && Opens(open) && depth >= 1
    ensures Skip(Body(v) + rest, open, depth, false, false) == Skip(rest, open, depth, false, false)
    decreases v, 0
  {
    var inside := if v.Array? then PrintElements(v.elements) else PrintMembers(v.members);
    assert Body(v) + rest == v.blank + (inside + rest);
    SkipInert(v.blank, inside + rest, open, depth);
    if v.Array? {
      SkipElements(v.elements, rest, open, depth);
    } else {
      SkipMembers(v.members, rest, open, depth);
    }
  }

  lemma {:induction false} SkipElements(es: Elements, rest: string, open: char, depth: nat)
    requires ElementsOk(es) && Opens(open) && depth >= 1
    ensures Skip(PrintElements(es) + rest, open, depth, false, false) == Skip(rest, open, depth, false, false)
    decreases es, 2
  {
    if es.NoElement? {
      assert PrintElements(es) + rest == rest;
    } else {
      var comma := if es.rest.NoElement? then "" else ",";
      var tail := PrintElements(es.rest) + rest;
      PrintFirstElement(es, rest);
      SkipInert(es.before, Print(es.value) + (es.after + (comma + tail)), open, depth);
      SkipValue(es.value, es.after + (comma + tail), open, depth);
      SkipSeparator(es.after, comma, tail, open, depth);
      SkipElements(es.rest, rest, open, depth);
    }
  }

  lemma PrintFirstElement(es: Elements, rest: string)
    requires es.Element?
    ensures var comma := if es.rest.NoElement? then "" else ",";
            PrintElements(es) + rest
            == es.before + (Print(es.value) + (es.after + (comma + (PrintElements(es.rest) + rest))))
  {
    var comma := if es.rest.NoElement? then "" else ",";
    var tail := PrintElements(es.rest) + rest;
    Assoc(es.before + Print(es.value) + es.after + comma, PrintElements(es.rest), rest);
    Assoc(es.before + Print(es.value) + es.after, comma, tail);
    Assoc(es.before + Print(es.value), es.after, comma + tail);
    Assoc(es.before, Print(es.value), es.after + (comma + tail));
  }

  lemma {:induction false} SkipMembers(ms: Members, rest: string, open: char, depth: nat)
    requires MembersOk(ms) && Opens(open) && depth >= 1
    ensures Skip(PrintMembers(ms) + rest, open, depth, false, false) == Skip(rest, open, depth, false, false)
    decreases ms, 2
  {
    if ms.NoMember? {
      assert PrintMembers(ms) + rest == rest;
    } else {
      var comma := if ms.rest.NoMember? then "" else ",";
      var tail := PrintMembers(ms.rest) + rest;
      SkipFirstName(ms, rest, open, depth);
      SkipValue(ms.value, ms.after + (comma + tail), open, depth);
      SkipSeparator(ms.after, comma, tail, open, depth);
      SkipMembers(ms.rest, rest, open, depth);
    }
  }

  lemma SkipSeparator(after: string, comma: string, tail: string, open: char, depth: nat)
    requires Blank(after) && (comma == "" || comma == ",") && Opens(open)
    ensures Skip(after + (comma + tail), open, depth, false, false) == Skip(tail, open, depth, false, false)
  {
    SkipInert(after, comma + tail, open, depth);
    SkipInert(comma, tail, open, depth);
  }

  lemma SkipFirstName(ms: Members, rest: string, open: char, depth: nat)
    requires ms.Member? && MembersOk(ms) && Opens(open) && depth >= 1
    ensures var comma := if ms.rest.NoMember? then "" else ",";
            Skip(PrintMembers(ms) + rest, open, depth, false, false)
            == Skip(Print(ms.value) + (ms.after + (comma + (PrintMembers(ms.rest) + rest))), open, depth, false, false)
  {
    var comma := if ms.rest.NoMember? then "" else ",";
    PrintFirstMember(ms, rest);
    SkipName(ms, Print(ms.value) + (ms.after + (comma + (PrintMembers(ms.rest) + rest))), open, depth);
  }

  lemma SkipName(ms: Members, value: string, open: char, depth: nat)
    requires ms.Member? && MembersOk(ms) && Opens(open) && depth >= 1
    ensures Skip(ms.before + (PrintString(ms.name) + (ms.colon + (":" + (ms.gap + value)))), open, depth, false, false)
            == Skip(value, open, depth, false, false)
  {
    BlankIsInert(ms.colon);
    BlankIsInert(ms.gap);
    SkipNameText(ms.before, ms.name, ms.colon + (":" + (ms.gap + value)), open, depth);
    SkipColon(ms.colon, ms.gap, value, open, depth);
  }

  lemma SkipNameText(before: string, name: seq<Unit>, tail: string, open: char, depth: nat)
    requires Blank(before) && UnitsOk(name) && Opens(open) && depth >= 1
    ensures Skip(before + (PrintString(name) + tail), open, depth, false, false) == Skip(tail, open, depth, false, false)
  {
    SkipInert(before, PrintString(name) + tail, open, depth);
    SkipString(name, tail, open, depth);
  }

  lemma SkipColon(colon: string, gap: string, value: string, open: char, depth: nat)
    requires Opens(open) && Inert(colon) && Inert(gap)
    ensures Skip(colon + (":" + (gap + value)), open, depth, false, false) == Skip(value, open, depth, false, false)
  {
    SkipInert(colon, ":" + (gap + value), open, depth);
    SkipInert(":", gap + value, open, depth);
    SkipInert(gap, value, open, depth);
  }

  lemma PrintFirstMember(ms: Members, rest: string)
    requires ms.Member?
    ensures var comma := if ms.rest.NoMember? then "" else ",";
            var value := Print(ms.value) + (ms.after + (comma + (PrintMembers(ms.rest) + rest)));
            PrintMembers(ms) + rest
            == ms.before + (PrintString(ms.name) + (ms.colon + (":" + (ms.gap + value))))
  {
    var comma := if ms.rest.NoMember? then "" else ",";
    var tail := PrintMembers(ms.rest) + rest;
    var head := ms.before + PrintString(ms.name);
    Assoc(head + ms.colon + ":" + ms.gap + Print(ms.value) + ms.after + comma, PrintMembers(ms.rest), rest);
    Assoc(head + ms.colon + ":" + ms.gap + Print(ms.value) + ms.after, comma, tail);
    Assoc(head + ms.colon + ":" + ms.gap + Print(ms.value), ms.after, comma + tail);
    Assoc(head + ms.colon + ":" + ms.gap, Print(ms.value), ms.after + (comma + tail));
    var value := Print(ms.value) + (ms.after + (comma + tail));
    Assoc(head + ms.colon + ":", ms.gap, value);
    Assoc(head + ms.colon, ":", ms.gap + value);
    Assoc(head, ms.colon, ":" + (ms.gap + value));
    Assoc(ms.before, PrintString(ms.name), ms.colon + (":" + (ms.gap + value)));
  }

  // ---- what the scanner guarantees -----------------------------------------

  predicate NoOpener(s: string) {
    forall k :: 0 <= k < |s| ==> !Opens(s[k])
  }

  lemma {:induction false} ScrubKeepsPrefix(prefix: string, rest: string)
    requires NoOpener(prefix)
    ensures Scrub(prefix + rest) == prefix + Scrub(rest)
    decreases |prefix|
  {
    if prefix == "" {
      assert prefix + rest == rest;
    } else {
      assert (prefix + rest)[1..] == prefix[1..] + rest;
      ScrubKeepsPrefix(prefix[1..], rest);
      assert [prefix[0]] + (prefix[1..] + Scrub(rest)) == prefix + Scrub(rest);
    }
  }

  /** Any JSON object or array, however nested and whatever its strings hold, is
      replaced exactly: nothing of it is kept and nothing around it is lost. */
  lemma ScrubReplacesJson(prefix: string, v: Value, suffix: string)
    requires NoOpener(prefix) && ValueOk(v) && (v.Array? || v.Object?)
    ensures Scrub(prefix + Print(v) + suffix) == prefix + MARK + Scrub(suffix)
  {
    var open := Opener(v);
    var block := [open] + (Body(v) + ([Closer(open)] + suffix));
    PrintBlock(v, suffix);
    Assoc(prefix, Print(v), suffix);
    ScrubKeepsPrefix(prefix, block);
    SkipBody(v, [Closer(open)] + suffix, open, 1);
    SkipBracket(Closer(open), suffix, open, 1);
    assert block[1..] == Body(v) + ([Closer(open)] + suffix);
    Assoc(prefix, MARK, Scrub(suffix));
  }

  lemma {:induction false} ScrubLeavesNoOpener(msg: string)
    ensures NoOpener(Scrub(msg))
    decreases |msg|
  {
    if msg != "" {
      if Opens(msg[0]) {
        ScrubLeavesNoOpener(Skip(msg[1..], msg[0], 1, false, false));
      } else {
        ScrubLeavesNoOpener(msg[1..]);
      }
    }
  }

  /** Scrubbing twice is scrubbing once, on every input. */
  lemma ScrubIsIdempotent(msg: string)
    ensures Scrub(Scrub(msg)) == Scrub(msg)
  {
    ScrubLeavesNoOpener(msg);
    ScrubKeepsPrefix(Scrub(msg), "");
    assert Scrub(msg) + "" == Scrub(msg);
  }
}
