/**
  The launch checklist attached to an offer: a plain-text outline of phase
  headings and dash-prefixed tasks, parsed into an ordered list of items,
  rendered back to text for editing, and re-parsed after an edit with the
  completion marks carried over by exact task text.
 */
module Checklist {
  import opened Base
  import opened PyText

  /** One entry of the parsed outline. A phase has no completion mark. */
  datatype Item = Phase(text: string) | Task(text: string, completed: bool)

  // ----- parsing -----

  /** One line of the outline: nothing for a blank line, a task for a line
      whose stripped form starts with a dash, a phase otherwise. */
  function ParseLine(line: string): (r: Option<Item>)
    ensures r.None? <==> |Strip(line)| == 0
    ensures r.Some? ==> (r.value.Task? <==> Strip(line)[0] == '-')
    ensures r.Some? && r.value.Task? ==> !r.value.completed
  {
    var t := Strip(line);
    if |t| == 0 then None
    else if t[0] == '-' then Some(Task(Strip(t[1..]), false))
    else Some(Phase(t))
  }

  /** A line is read only through its strip. */
  lemma ParseLineByStrip(a: string, b: string)
    requires Strip(a) == Strip(b)
    ensures ParseLine(a) == ParseLine(b)
  {
  }

  /** Items of the non-blank lines, in line order. */
  function ParseLines(lines: seq<string>): (r: seq<Item>)
    ensures |r| <= |lines|
  {
    if |lines| == 0 then []
    else
      match ParseLine(lines[0])
      case Some(item) => [item] + ParseLines(lines[1..])
      case None => ParseLines(lines[1..])
  }

  /** `parse_checklist`: strip the whole text, split it into lines, parse each. */
  function Parse(raw: string): seq<Item>
  {
    ParseLines(Split(Strip(raw)))
  }

  // ----- rendering -----

  /** A phase is written as its text, a task as a dash, a blank and its text. */
  function Render(item: Item): (r: string)
    ensures |item.text| <= |r| && r[|r| - |item.text|..] == item.text
    ensures item.Task? <==> |r| == |item.text| + 2
    ensures item.Task? ==> r[..2] == "- "
  {
    match item
    case Phase(text) => text
    case Task(text, _) => "- " + text
  }

  function RenderAll(items: seq<Item>): (r: seq<string>)
    ensures |r| == |items|
    ensures forall i :: 0 <= i < |items| ==> r[i] == Render(items[i])
  {
    if |items| == 0 then [] else [Render(items[0])] + RenderAll(items[1..])
  }

  /** `unparse_checklist`: the rendered items joined by line feeds. */
  function Unparse(items: seq<Item>): string
  {
    Join(RenderAll(items))
  }

  // ----- the shape of parsed items -----

  /** What every item produced by the parser looks like: a single line with
      no surrounding whitespace, and a phase is never empty and never starts
      with the task marker. */
  predicate WellFormed(item: Item) {
    && '\n' !in item.text
    && Stripped(item.text)
    && (item.Phase? ==> item.text != [] && item.text[0] != '-')
  }

  predicate AllWellFormed(items: seq<Item>) {
    forall i :: 0 <= i < |items| ==> WellFormed(items[i])
  }

  /** The item with its completion mark, if any, cleared. */
  function Cleared(item: Item): Item {
    match item
    case Phase(text) => Phase(text)
    case Task(text, _) => Task(text, false)
  }

  function ClearedAll(items: seq<Item>): (r: seq<Item>)
    ensures |r| == |items|
    ensures forall i :: 0 <= i < |items| ==> r[i] == Cleared(items[i])
  {
    if |items| == 0 then [] else [Cleared(items[0])] + ClearedAll(items[1..])
  }

  // ----- facts about parsing -----

  lemma {:induction false} ParseLinesAppend(a: seq<string>, b: seq<string>)
    ensures ParseLines(a + b) == ParseLines(a) + ParseLines(b)
    decreases |a|
  {
    if a != [] {
      assert (a + b)[0] == a[0] && (a + b)[1..] == a[1..] + b;
      ParseLinesAppend(a[1..], b);
    } else {
      assert a + b == b;
    }
  }

  /** A non-blank line without a line feed parses to a well-formed,
      unmarked item. */
  lemma ParseLineShape(line: string)
    requires '\n' !in line
    requires ParseLine(line).Some?
    ensures WellFormed(ParseLine(line).value)
    ensures ParseLine(line) == Some(Cleared(ParseLine(line).value))
  {
    var t := Strip(line);
    StripIsStripped(line);
    NoNewlineInStrip(line);
    if t[0] == '-' {
      var u := t[1..];
      NoNewlineInTail(t);
      NoNewlineInStrip(u);
      StripIsStripped(u);
    }
  }

  lemma NoNewlineInStrip(s: string)
    requires '\n' !in s
    ensures '\n' !in Strip(s)
  {
    if '\n' in Strip(s) { StripChars(s, '\n'); }
  }

  lemma NoNewlineInTail(t: string)
    requires t != [] && '\n' !in t
    ensures '\n' !in t[1..]
  {
    forall i | 0 <= i < |t| - 1 ensures t[1..][i] != '\n' { assert t[1..][i] == t[i + 1]; }
  }

  /** Every item that `Parse` produces is well formed and not yet completed. */
  lemma {:induction false} ParseLinesWellFormed(lines: seq<string>)
    requires forall i :: 0 <= i < |lines| ==> '\n' !in lines[i]
    ensures AllWellFormed(ParseLines(lines))
    ensures ClearedAll(ParseLines(lines)) == ParseLines(lines)
    decreases |lines|
  {
    if lines != [] {
      var rest := ParseLines(lines[1..]);
      ParseLinesWellFormed(lines[1..]);
      match ParseLine(lines[0])
      case None =>
        assert ParseLines(lines) == rest;
      case Some(item) =>
        ParseLineShape(lines[0]);
        assert ParseLines(lines) == [item] + rest;
        ConsWellFormed(item, rest);
    }
  }

  lemma ConsWellFormed(item: Item, rest: seq<Item>)
    requires WellFormed(item) && item == Cleared(item)
    requires AllWellFormed(rest) && ClearedAll(rest) == rest
    ensures AllWellFormed([item] + rest)
    ensures ClearedAll([item] + rest) == [item] + rest
  {
    assert ([item] + rest)[1..] == rest;
  }

  lemma ParseWellFormed(raw: string)
    ensures AllWellFormed(Parse(raw))
    ensures ClearedAll(Parse(raw)) == Parse(raw)
  {
    ParseLinesWellFormed(Split(Strip(raw)));
  }

  /** Whitespace at the front of the text never reaches the items. */
  lemma SpaceHeadImmaterial(s: string)
    requires s != [] && IsSpace(s[0])
    ensures ParseLines(Split(s)) == ParseLines(Split(s[1..]))
  {
    var q := Split(s[1..]);
    if s[0] == '\n' {
      assert Split(s) == [[]] + q;
      ParseLinesAppend([[]], q);
    } else {
      var h := [s[0]] + q[0];
      assert Split(s) == [h] + q[1..];
      StripAfterSpace(s[0], q[0]);
      ParseLineByStrip(h, q[0]);
      ParseLinesAppend([h], q[1..]);
      ParseLinesAppend([q[0]], q[1..]);
      assert q == [q[0]] + q[1..];
    }
  }

  lemma {:induction false} LeadingSpaceImmaterial(s: string)
    ensures ParseLines(Split(TrimStart(s))) == ParseLines(Split(s))
    decreases |s|
  {
    if s != [] && IsSpace(s[0]) {
      LeadingSpaceImmaterial(s[1..]);
      SpaceHeadImmaterial(s);
    }
  }

  /** Whitespace at the end of the text never reaches the items. */
  lemma SpaceTailImmaterial(s: string)
    requires s != [] && IsSpace(s[|s| - 1])
    ensures ParseLines(Split(s)) == ParseLines(Split(s[..|s| - 1]))
  {
    var x, c := s[..|s| - 1], s[|s| - 1];
    DropLast(s);
    if c == '\n' {
      NewlineTailImmaterial(x);
    } else {
      SpaceCharTailImmaterial(x, c);
    }
  }

  lemma NewlineTailImmaterial(x: string)
    ensures ParseLines(Split(x + ['\n'])) == ParseLines(Split(x))
  {
    var p := Split(x);
    SplitSnocNewline(x);
    ParseLinesAppend(p, [[]]);
    BlankLineParsesToNothing();
    assert ParseLines(p) + [] == ParseLines(p);
  }

  lemma BlankLineParsesToNothing()
    ensures ParseLines([[]]) == []
  {
  }

  lemma SpaceCharTailImmaterial(x: string, c: char)
    requires IsSpace(c) && c != '\n'
    ensures ParseLines(Split(x + [c])) == ParseLines(Split(x))
  {
    var p := Split(x);
    SplitSnoc(x, c);
    var init, last := p[..|p| - 1], p[|p| - 1];
    assert p == init + [last];
    StripBeforeSpace(last, c);
    ParseLineByStrip(last + [c], last);
    assert ParseLines([last + [c]]) == ParseLines([last]);
    ParseLinesAppend(init, [last + [c]]);
    ParseLinesAppend(init, [last]);
  }

  lemma {:induction false} TrailingSpaceImmaterial(s: string)
    ensures ParseLines(Split(TrimEnd(s))) == ParseLines(Split(s))
    decreases |s|
  {
    if s != [] && IsSpace(s[|s| - 1]) {
      TrailingSpaceImmaterial(s[..|s| - 1]);
      SpaceTailImmaterial(s);
    }
  }

  /** Stripping the whole text first, as the source does, changes nothing:
      the outline is read line by line. */
  lemma ParseByLines(raw: string)
    ensures Parse(raw) == ParseLines(Split(raw))
  {
    TrailingSpaceImmaterial(TrimStart(raw));
    LeadingSpaceImmaterial(raw);
  }

  // ----- the round trip -----

  /** A rendered well-formed item parses back to itself, unmarked. */
  lemma RenderParse(item: Item)
    requires WellFormed(item)
    ensures '\n' !in Render(item)
    ensures ParseLine(Render(item)) == Some(Cleared(item))
  {
    match item
    case Phase(text) =>
      RenderParsePhase(text);
    case Task(text, _) =>
      if |text| == 0 {
        RenderParseEmptyTask(text);
      } else {
        RenderParseTextTask(text);
      }
  }

  lemma RenderParsePhase(text: string)
    requires '\n' !in text && Stripped(text) && |text| != 0 && text[0] != '-'
    ensures ParseLine(text) == Some(Phase(text))
  {
    StripOfTrimmed(text);
  }

  /** A task with empty text is written as a dash and a blank, whose strip
      is the dash alone. */
  lemma RenderParseEmptyTask(text: string)
    requires |text| == 0
    ensures '\n' !in "- " + text
    ensures ParseLine("- " + text) == Some(Task(text, false))
  {
    var line := "- " + text;
    assert |line| == 2 && line[0] == '-' && line[1] == ' ';
    DashIsNotSpace();
    TrimStartAtText(line);
    var dash := line[..1];
    assert TrimEnd(line) == TrimEnd(dash);
    TrimEndAtText(dash);
    StripNothing(dash[1..]);
    assert dash[1..] == text;
  }

  lemma DashIsNotSpace()
    ensures !IsSpace('-')
  {
  }

  lemma RenderParseTextTask(text: string)
    requires Stripped(text) && text != [] && '\n' !in text
    ensures '\n' !in "- " + text
    ensures ParseLine("- " + text) == Some(Task(text, false))
  {
    DashThenText(text);
    StripOfTrimmed("- " + text);
    StripAfterSpace(' ', text);
    StripOfTrimmed(text);
  }

  /** How a rendered task is laid out, character by character. */
  lemma DashThenText(text: string)
    ensures "- " + text == "-" + [' '] + text
    ensures ("- " + text)[0] == '-' && ("- " + text)[1..] == [' '] + text
    ensures text != [] ==> ("- " + text)[|text| + 1] == text[|text| - 1]
    ensures '\n' !in text ==> '\n' !in "- " + text
    ensures "-"[1..] == [] && "- " == "-" + [' ']
  {
  }

  lemma {:induction false} ParseRendered(items: seq<Item>)
    requires AllWellFormed(items)
    ensures ParseLines(RenderAll(items)) == ClearedAll(items)
    decreases |items|
  {
    if items != [] {
      var rest := RenderAll(items[1..]);
      RenderParse(items[0]);
      ParseRendered(items[1..]);
      assert RenderAll(items) == [Render(items[0])] + rest;
      ParseLinesCons(Render(items[0]), rest, Cleared(items[0]));
      assert ClearedAll(items) == [Cleared(items[0])] + ClearedAll(items[1..]);
    }
  }

  lemma ParseLinesCons(line: string, rest: seq<string>, item: Item)
    requires ParseLine(line) == Some(item)
    ensures ParseLines([line] + rest) == [item] + ParseLines(rest)
  {
    assert ([line] + rest)[0] == line && ([line] + rest)[1..] == rest;
  }

  /** Parsing a rendered list gives back the same phases and tasks, in the
      same order, with every task unmarked (the text form carries no marks). */
  lemma RoundTrip(items: seq<Item>)
    requires AllWellFormed(items)
    ensures Parse(Unparse(items)) == ClearedAll(items)
  {
    var lines := RenderAll(items);
    ParseByLines(Unparse(items));
    if items == [] {
      assert Split([]) == [[]];
    } else {
      forall i | 0 <= i < |lines| ensures '\n' !in lines[i] { RenderParse(items[i]); }
      SplitJoin(lines);
    }
    ParseRendered(items);
  }

  /** For any outline text, rendering what was parsed and parsing it again
      gives exactly what was parsed. */
  lemma ParseUnparseParse(raw: string)
    ensures Parse(Unparse(Parse(raw))) == Parse(raw)
  {
    ParseWellFormed(raw);
    RoundTrip(Parse(raw));
  }

  // ----- merging an edited outline -----

  /** Item `j` of `items` is a task with text `t`. */
  predicate TaskAt(items: seq<Item>, j: int, t: string) {
    0 <= j < |items| && items[j].Task? && items[j].text == t
  }

  /** Item `j` is the last task of `items` with text `t`. */
  predicate LastTaskAt(items: seq<Item>, j: int, t: string) {
    TaskAt(items, j, t) && forall k :: j < k < |items| ==> !TaskAt(items, k, t)
  }

  /** The last task with text `t` in `items` is completed. */
  ghost predicate MarkedDone(items: seq<Item>, t: string) {
    exists j :: LastTaskAt(items, j, t) && items[j].completed
  }

  lemma LastTaskUnique(items: seq<Item>, j: int, k: int, t: string)
    requires LastTaskAt(items, j, t) && LastTaskAt(items, k, t)
    ensures j == k
  {
  }

  /** The dictionary `{text: completed}` over the tasks of the old list;
      where several tasks share a text, the last one wins. */
  function StatusTable(prior: seq<Item>): map<string, bool>
    decreases |prior|
  {
    if prior == [] then map[]
    else
      var last := prior[|prior| - 1];
      var m := StatusTable(prior[..|prior| - 1]);
      if last.Task? then m[last.text := last.completed] else m
  }

  /** The table holds exactly the texts of the old tasks, each with the
      mark of the last task carrying it. */
  lemma {:induction false} StatusTableMeaning(prior: seq<Item>, t: string)
    ensures t in StatusTable(prior) <==> exists j :: TaskAt(prior, j, t)
    ensures t in StatusTable(prior) ==>
      exists j :: LastTaskAt(prior, j, t) && StatusTable(prior)[t] == prior[j].completed
    decreases |prior|
  {
    if prior != [] {
      var n := |prior| - 1;
      var init := prior[..n];
      StatusTableMeaning(init, t);
      forall j | TaskAt(init, j, t) ensures TaskAt(prior, j, t) { }
      if prior[n].Task? && prior[n].text == t {
        assert LastTaskAt(prior, n, t);
      } else {
        forall j | TaskAt(prior, j, t) ensures TaskAt(init, j, t) { }
        if t in StatusTable(init) {
          var j :| LastTaskAt(init, j, t) && StatusTable(init)[t] == init[j].completed;
          assert LastTaskAt(prior, j, t);
        }
      }
    }
  }

  /** One item of the fresh parse after the old marks were applied to it. */
  function CarryOver(status: map<string, bool>, item: Item): (r: Item)
    ensures r.text == item.text && r.Task? == item.Task?
    ensures !(item.Task? && item.text in status) ==> r == item
    ensures item.Task? && item.text in status ==> r.completed == status[item.text]
  {
    if item.Task? && item.text in status then item.(completed := status[item.text]) else item
  }

  /** A fresh (unmarked) item keeps its kind and text, and a task ends up
      marked exactly when the last old task with its text was. */
  lemma CarryOverMeaning(prior: seq<Item>, item: Item)
    requires item == Cleared(item)
    ensures CarryOver(StatusTable(prior), item).text == item.text
    ensures CarryOver(StatusTable(prior), item).Task? == item.Task?
    ensures item.Task? ==>
      (CarryOver(StatusTable(prior), item).completed <==> MarkedDone(prior, item.text))
  {
    var t := item.text;
    StatusTableMeaning(prior, t);
    if item.Task? {
      if t in StatusTable(prior) {
        var j :| LastTaskAt(prior, j, t) && StatusTable(prior)[t] == prior[j].completed;
        forall k | LastTaskAt(prior, k, t) ensures k == j { LastTaskUnique(prior, j, k, t); }
      } else {
        assert !MarkedDone(prior, t);
      }
    }
  }

  /** `merge_checklists`: parse the edited text afresh, then give every task
      whose text equals that of an old task the old task's mark. */
  method MergeChecklists(prior: seq<Item>, raw: string) returns (merged: seq<Item>)
    ensures |merged| == |Parse(raw)|
    ensures forall i :: 0 <= i < |merged| ==>
      merged[i].text == Parse(raw)[i].text && merged[i].Task? == Parse(raw)[i].Task?
    ensures forall i :: 0 <= i < |merged| && merged[i].Task? ==>
      (merged[i].completed <==> MarkedDone(prior, merged[i].text))
  {
    var parsed := Parse(raw);
    merged := CarryOverMarks(StatusTable(prior), parsed);
    ParseWellFormed(raw);
    CarriedOverMeaning(prior, parsed, merged);
  }

  /** The loop of `merge_checklists`: each task of the fresh parse whose
      text is in the table takes the mark stored there, in place. */
  method CarryOverMarks(status: map<string, bool>, parsed: seq<Item>) returns (merged: seq<Item>)
    ensures |merged| == |parsed|
    ensures forall k :: 0 <= k < |parsed| ==> merged[k] == CarryOver(status, parsed[k])
  {
    var a := new Item[|parsed|](i requires 0 <= i < |parsed| => parsed[i]);
    for i := 0 to a.Length
      invariant forall k :: i <= k < a.Length ==> a[k] == parsed[k]
      invariant forall k :: 0 <= k < i ==> a[k] == CarryOver(status, parsed[k])
    {
      var item := a[i];
      if item.Task? && item.text in status {
        a[i] := item.(completed := status[item.text]);
      }
    }
    merged := a[..];
  }

  /** Item by item, what carrying the old marks over a fresh parse gives. */
  lemma CarriedOverMeaning(prior: seq<Item>, parsed: seq<Item>, merged: seq<Item>)
    requires ClearedAll(parsed) == parsed
    requires |merged| == |parsed|
    requires forall k :: 0 <= k < |parsed| ==> merged[k] == CarryOver(StatusTable(prior), parsed[k])
    ensures forall i :: 0 <= i < |merged| ==>
      merged[i].text == parsed[i].text && merged[i].Task? == parsed[i].Task?
    ensures forall i :: 0 <= i < |merged| && merged[i].Task? ==>
      (merged[i].completed <==> MarkedDone(prior, merged[i].text))
  {
    forall i | 0 <= i < |merged|
      ensures merged[i].text == parsed[i].text && merged[i].Task? == parsed[i].Task?
      ensures merged[i].Task? ==> (merged[i].completed <==> MarkedDone(prior, merged[i].text))
    {
      assert parsed[i] == ClearedAll(parsed)[i];
      CarryOverMeaning(prior, parsed[i]);
    }
  }

  // ----- progress -----

  function TaskCount(items: seq<Item>): (n: nat)
    ensures n <= |items|
  {
    if |items| == 0 then 0 else (if items[0].Task? then 1 else 0) + TaskCount(items[1..])
  }

  function DoneCount(items: seq<Item>): (n: nat)
    ensures n <= TaskCount(items)
  {
    if |items| == 0 then 0
    else (if items[0].Task? && items[0].completed then 1 else 0) + DoneCount(items[1..])
  }

  /** The share of tasks completed, 0 for a checklist without tasks. */
  function Progress(items: seq<Item>): (p: real)
    ensures 0.0 <= p <= 1.0
    ensures TaskCount(items) == 0 ==> p == 0.0
    ensures TaskCount(items) > 0 ==> p == DoneCount(items) as real / TaskCount(items) as real
  {
    Share(DoneCount(items), TaskCount(items))
  }

  /** `part / whole`, or 0 when `whole` is 0. */
  function Share(part: nat, whole: nat): (r: real)
    ensures whole == 0 ==> r == 0.0
    ensures whole > 0 ==> r == part as real / whole as real
    ensures whole > 0 ==> r * whole as real == part as real
    ensures part <= whole ==> 0.0 <= r <= 1.0
  {
    if whole == 0 then 0.0
    else
      var q := part as real / whole as real;
      assert q * whole as real == part as real;
      q
  }

  /** The progress bar is full exactly when there are tasks and every one
      of them is done. */
  lemma ProgressComplete(items: seq<Item>)
    ensures Progress(items) == 1.0 <==> TaskCount(items) > 0 && DoneCount(items) == TaskCount(items)
  {
    if TaskCount(items) > 0 {
      ShareIsWhole(DoneCount(items), TaskCount(items));
    }
  }

  lemma ShareIsWhole(part: nat, whole: nat)
    requires whole > 0
    ensures Share(part, whole) == 1.0 <==> part == whole
  {
    var q := Share(part, whole);
    if q == 1.0 {
      assert part as real == q * whole as real;
    }
  }

  /** A freshly parsed checklist has made no progress. */
  lemma {:induction false} ClearedNoneDone(items: seq<Item>)
    requires ClearedAll(items) == items
    ensures DoneCount(items) == 0
    decreases |items|
  {
    if items != [] {
      assert items[0] == Cleared(items[0]);
      assert ClearedAll(items[1..]) == ClearedAll(items)[1..];
      ClearedNoneDone(items[1..]);
    }
  }
}
