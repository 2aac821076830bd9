/** memory_bank/knowledge_checklist.py: a checklist kept as Markdown text, against the list-based manager
    of memory_bank/knowledge_inmemory.py. */
module Checklist {
  import opened Wrappers
  import opened Text
  import opened KnowledgeTypes

  datatype ChecklistItem = ChecklistItem(text: string, done: bool, tags: seq<string>)

  /** `str.lower()` */
  type Lower = string -> string

  // ----- text form -----

  /** `text.split("\n")` */
  function SplitLines(text: string): (lines: seq<string>)
    ensures lines != []
  {
    if text == "" then [""]
    else
      var rest := SplitLines(text[1..]);
      if text[0] == '\n' then [""] + rest else [[text[0]] + rest[0]] + rest[1..]
  }

  function ParseLine(line: string): Option<ChecklistItem> {
    var l := Strip(line);
    if "- [x] " <= l || "- [X] " <= l then Some(ChecklistItem(Strip(l[6..]), true, []))
    else if "- [ ] " <= l then Some(ChecklistItem(Strip(l[6..]), false, []))
    else None
  }

  function ParseLines(lines: seq<string>): seq<ChecklistItem> {
    if lines == [] then []
    else
      match ParseLine(lines[0])
      case None => ParseLines(lines[1..])
      case Some(item) => [item] + ParseLines(lines[1..])
  }

  function Parse(raw: string): seq<ChecklistItem> {
    if raw == "" then [] else ParseLines(SplitLines(Strip(raw)))
  }

  function PrintItem(item: ChecklistItem): string {
    "- [" + (if item.done then "x" else " ") + "] " + item.text
  }

  function PrintLines(items: seq<ChecklistItem>): seq<string> {
    if items == [] then [] else [PrintItem(items[0])] + PrintLines(items[1..])
  }

  function Print(items: seq<ChecklistItem>): string {
    Join(PrintLines(items), "\n") + "\n"
  }

  // ----- round trip -----

  predicate OneLine(text: string) {
    '\n' !in text
  }

  /** An item that the text form can hold. */
  predicate Storable(item: ChecklistItem) {
    item.text != "" && Stripped(item.text) && OneLine(item.text) && item.tags == []
  }

  predicate AllStorable(items: seq<ChecklistItem>) {
    forall i :: 0 <= i < |items| ==> Storable(items[i])
  }

  lemma {:induction false} SplitOneLine(text: string)
    requires OneLine(text)
    ensures SplitLines(text) == [text]
  {
    if text != "" {
      SplitOneLine(text[1..]);
      assert [text[0]] + text[1..] == text;
    }
  }

  lemma {:induction false} SplitFirstLine(line: string, rest: string)
    requires OneLine(line)
    ensures SplitLines(line + "\n" + rest) == [line] + SplitLines(rest)
  {
    var text := line + "\n" + rest;
    if line == "" {
      assert text[1..] == rest;
    } else {
      assert text[1..] == line[1..] + "\n" + rest;
      SplitFirstLine(line[1..], rest);
      assert [line[0]] + line[1..] == line;
    }
  }

  lemma {:induction false} SplitOfJoin(lines: seq<string>)
    requires lines != [] && forall i :: 0 <= i < |lines| ==> OneLine(lines[i])
    ensures SplitLines(Join(lines, "\n")) == lines
  {
    if |lines| == 1 {
      SplitOneLine(lines[0]);
    } else {
      SplitOfJoin(lines[1..]);
      SplitFirstLine(lines[0], Join(lines[1..], "\n"));
    }
  }

  lemma {:induction false} SplitIsOneLine(text: string)
    ensures forall i :: 0 <= i < |SplitLines(text)| ==> OneLine(SplitLines(text)[i])
  {
    if text != "" {
      SplitIsOneLine(text[1..]);
    }
  }

  lemma ParseOfPrintItem(item: ChecklistItem)
    requires Storable(item)
    ensures ParseLine(PrintItem(item)) == Some(item)
    ensures OneLine(PrintItem(item)) && Stripped(PrintItem(item)) && PrintItem(item) != ""
  {
    var line := PrintItem(item);
    assert line[6..] == item.text;
    assert line[|line| - 1] == item.text[|item.text| - 1];
    StripOfStripped(line);
    StripOfStripped(item.text);
    if item.done {
      assert line[..6] == "- [x] ";
    } else {
      assert line[..6] == "- [ ] " && line[3] == ' ';
    }
  }

  lemma {:induction false} ParseOfPrintLines(items: seq<ChecklistItem>)
    requires AllStorable(items)
    ensures ParseLines(PrintLines(items)) == items
    ensures forall i :: 0 <= i < |PrintLines(items)| ==> OneLine(PrintLines(items)[i])
  {
    if items != [] {
      ParseOfPrintItem(items[0]);
      ParseOfPrintLines(items[1..]);
    }
  }

  lemma {:induction false} JoinIsStripped(items: seq<ChecklistItem>)
    requires items != [] && AllStorable(items)
    ensures Stripped(Join(PrintLines(items), "\n")) && Join(PrintLines(items), "\n") != ""
  {
    ParseOfPrintItem(items[0]);
    if |items| > 1 {
      JoinIsStripped(items[1..]);
      var first, rest := PrintItem(items[0]), Join(PrintLines(items[1..]), "\n");
      assert Join(PrintLines(items), "\n") == first + "\n" + rest;
      EndsStripped(first, "\n", rest);
    }
  }

  lemma EndsStripped(first: string, middle: string, last: string)
    requires first != "" && Stripped(first) && last != "" && Stripped(last)
    ensures first + middle + last != "" && Stripped(first + middle + last)
  {
    var text := first + middle + last;
    assert text[0] == first[0] && text[|text| - 1] == last[|last| - 1];
  }

  lemma StorableRoundTrip(items: seq<ChecklistItem>)
    requires AllStorable(items)
    ensures Parse(Print(items)) == items
  {
    var body := Join(PrintLines(items), "\n");
    if items == [] {
      assert "" + "" + "\n" == Print(items);
      StripUnique("", "", "\n");
      assert SplitLines("") == [""] && ParseLine("") == None;
      assert Print(items) == "\n" && Strip("\n") == "";
      assert ParseLines([""]) == ParseLines([""][1..]);
    } else {
      ParseOfPrintLines(items);
      JoinIsStripped(items);
      assert "" + body + "\n" == Print(items);
      StripUnique("", body, "\n");
      SplitOfJoin(PrintLines(items));
    }
  }

  lemma SubtextOneLine(text: string)
    requires OneLine(text)
    ensures OneLine(Strip(text))
  {
    var l, t := StripParts(text);
    forall c | c in Strip(text) ensures c in text {
    }
  }

  lemma ParseLineIsStorable(line: string)
    requires OneLine(line)
    ensures ParseLine(line).Some? ==> Storable(ParseLine(line).value)
  {
    if ParseLine(line).Some? {
      var l := Strip(line);
      SubtextOneLine(line);
      assert OneLine(l[6..]);
      SubtextOneLine(l[6..]);
      ParseLineIsOfText(line);
    }
  }

  lemma ParseLineIsOfText(line: string)
    requires ParseLine(line).Some?
    ensures ParseLine(line).value.text != "" && Stripped(ParseLine(line).value.text)
  {
    var l := Strip(line);
    var lead, trail := StripParts(line);
    assert l[5] == ' ' && !IsSpace(l[|l| - 1]);
    var tail := l[6..];
    assert tail[|tail| - 1] == l[|l| - 1];
    var lead', trail' := StripParts(tail);
    if Strip(tail) == "" {
      BlankIfStripsEmpty(tail);
    }
  }

  /** How a line begins with an open or a ticked box. */
  function BoxFront(box: char): string {
    "- [" + [box] + "] "
  }

  /** A line of the text form: a box, open or ticked in either case, and a text, with white space around both. */
  ghost predicate IsItemLine(line: string, lead: string, box: char, gap: string, item: ChecklistItem, trail: string) {
    && AllSpace(lead) && AllSpace(gap) && AllSpace(trail)
    && box in {' ', 'x', 'X'}
    && line == lead + (BoxFront(box) + (gap + item.text)) + trail
    && item.text != "" && Stripped(item.text) && item.tags == []
    && item.done == (box != ' ')
  }

  /** The three beginnings differ in the box alone. */
  lemma BoxOf(line: string, box: char)
    requires BoxFront(box) <= line
    ensures "- [x] " <= line <==> box == 'x'
    ensures "- [X] " <= line <==> box == 'X'
    ensures "- [ ] " <= line <==> box == ' '
    ensures |BoxFront(box)| == 6 && line[0] == '-'
  {
    assert line[3] == BoxFront(box)[3] == box;
    assert "- [x] "[3] == 'x' && "- [X] "[3] == 'X' && "- [ ] "[3] == ' ';
  }

  /** Every such line is read as its item. */
  lemma ItemLineParses(line: string, lead: string, box: char, gap: string, item: ChecklistItem, trail: string)
    requires IsItemLine(line, lead, box, gap, item, trail)
    ensures ParseLine(line) == Some(item)
  {
    var tail := gap + item.text;
    var core := BoxFront(box) + tail;
    BoxOf(core, box);
    assert core[6..] == tail;
    assert core[|core| - 1] == tail[|tail| - 1] == item.text[|item.text| - 1];
    StripUnique(lead, core, trail);
    assert gap + item.text + "" == tail;
    StripUnique(gap, item.text, "");
  }

  lemma TailEnds(core: string)
    requires |core| >= 6 && core[5] == ' ' && Stripped(core)
    ensures core[6..] != "" && !IsSpace(core[6..][|core| - 7])
  {
    assert !IsSpace(core[|core| - 1]);
  }

  /** And a line is read as an item only if it is one. */
  lemma ParsedLineIsItem(line: string) returns (lead: string, box: char, gap: string, trail: string)
    requires ParseLine(line).Some?
    ensures IsItemLine(line, lead, box, gap, ParseLine(line).value, trail)
  {
    lead, trail := StripParts(line);
    box, gap := ParsedCore(Strip(line));
    BoxOf(Strip(line), box);
    ParseLineIsOfText(line);
  }

  lemma ParsedCore(core: string) returns (box: char, gap: string)
    requires "- [x] " <= core || "- [X] " <= core || "- [ ] " <= core
    requires Stripped(core)
    ensures box in {' ', 'x', 'X'} && AllSpace(gap)
    ensures core == BoxFront(box) + (gap + Strip(core[6..]))
  {
    box := core[3];
    assert core[..6] == BoxFront(box);
    TailEnds(core);
    gap := StripBeginning(core[6..]);
    assert core == core[..6] + core[6..];
  }

  /** The lines are read one by one, in order, and other lines are skipped. */
  lemma {:induction false} ParseLinesConcat(a: seq<string>, b: seq<string>)
    ensures ParseLines(a + b) == ParseLines(a) + ParseLines(b)
  {
    if a == [] {
      assert a + b == b;
    } else {
      var rest := a[1..] + b;
      assert (a + b)[1..] == rest && (a + b)[0] == a[0];
      ParseLinesConcat(a[1..], b);
    }
  }

  lemma ParseOfLine(line: string)
    ensures ParseLines([line]) == if ParseLine(line).Some? then [ParseLine(line).value] else []
  {
    assert [line][1..] == [];
  }

  lemma {:induction false} ParseLinesAreStorable(lines: seq<string>)
    requires forall i :: 0 <= i < |lines| ==> OneLine(lines[i])
    ensures AllStorable(ParseLines(lines))
  {
    if lines != [] {
      ParseLineIsStorable(lines[0]);
      ParseLinesAreStorable(lines[1..]);
    }
  }

  /** Whatever the text, parsing it yields only items that can be stored. */
  lemma ParseIsStorable(raw: string)
    ensures AllStorable(Parse(raw))
  {
    SplitIsOneLine(Strip(raw));
    ParseLinesAreStorable(SplitLines(Strip(raw)));
  }

  /** Printing and parsing gives a list of items back exactly when all of them have a nonempty, stripped,
      one-line text and no tags. */
  lemma RoundTripIff(items: seq<ChecklistItem>)
    ensures Parse(Print(items)) == items <==> AllStorable(items)
  {
    ParseIsStorable(Print(items));
    if AllStorable(items) {
      StorableRoundTrip(items);
    }
  }

  /** Saving what was loaded changes nothing that a later load can see, whatever the file held. */
  lemma ReparseIsStable(raw: string)
    ensures Parse(Print(Parse(raw))) == Parse(raw)
  {
    ParseIsStorable(raw);
    StorableRoundTrip(Parse(raw));
  }

  // ----- the operations on a list -----

  /** The first item whose text starts with the prefix, ignoring case. */
  function FirstMatch(lower: Lower, items: seq<ChecklistItem>, prefix: string): (i: nat)
    ensures i <= |items|
    ensures i < |items| ==> lower(prefix) <= lower(items[i].text)
    ensures forall j :: 0 <= j < i ==> !(lower(prefix) <= lower(items[j].text))
  {
    if items == [] || lower(prefix) <= lower(items[0].text) then 0
    else 1 + FirstMatch(lower, items[1..], prefix)
  }

  function Flip(items: seq<ChecklistItem>, i: nat): seq<ChecklistItem>
    requires i < |items|
  {
    items[i := items[i].(done := !items[i].done)]
  }

  function WithDone(items: seq<ChecklistItem>, done: bool): seq<ChecklistItem> {
    if items == [] then []
    else if items[0].done == done then [items[0]] + WithDone(items[1..], done)
    else WithDone(items[1..], done)
  }

  lemma {:induction false} WithDoneConcat(a: seq<ChecklistItem>, b: seq<ChecklistItem>, done: bool)
    ensures WithDone(a + b, done) == WithDone(a, done) + WithDone(b, done)
  {
    if a == [] {
      assert a + b == b;
    } else {
      assert (a + b)[1..] == a[1..] + b;
      WithDoneConcat(a[1..], b, done);
    }
  }

  method SelectDone(items: seq<ChecklistItem>, done: bool) returns (selected: seq<ChecklistItem>)
    ensures selected == WithDone(items, done)
  {
    selected := [];
    for i := 0 to |items|
      invariant selected == WithDone(items[..i], done)
    {
      assert items[..i + 1] == items[..i] + [items[i]];
      WithDoneConcat(items[..i], [items[i]], done);
      if items[i].done == done {
        selected := selected + [items[i]];
      }
    }
    assert items[..|items|] == items;
  }

  /** Listing by status selects exactly the items of that status. */
  lemma {:induction false} WithDoneSelects(items: seq<ChecklistItem>, done: bool)
    ensures forall item :: item in WithDone(items, done) <==> item in items && item.done == done
    ensures multiset(items) == multiset(WithDone(items, true)) + multiset(WithDone(items, false))
  {
    if items != [] {
      WithDoneSelects(items[1..], done);
      assert items == [items[0]] + items[1..];
    }
  }

  /** An operation of the manager, and its answer. */
  datatype Op = Add(item: ChecklistItem) | Toggle(prefix: string) | Get(filter: Option<bool>) | ClearDone
  datatype Answer = Added | Toggled(found: bool) | Items(items: seq<ChecklistItem>) | Cleared(count: nat)

  function StepList(lower: Lower, items: seq<ChecklistItem>, op: Op): (seq<ChecklistItem>, Answer) {
    match op
    case Add(item) => (items + [item], Added)
    case Toggle(prefix) =>
      var i := FirstMatch(lower, items, prefix);
      if i < |items| then (Flip(items, i), Toggled(true)) else (items, Toggled(false))
    case Get(None) => (items, Items(items))
    case Get(Some(done)) => (items, Items(WithDone(items, done)))
    case ClearDone =>
      WithDoneSize(items);
      (WithDone(items, false), Cleared(|items| - |WithDone(items, false)|))
  }

  lemma {:induction false} WithDoneSize(items: seq<ChecklistItem>)
    ensures |WithDone(items, false)| <= |items|
    ensures |WithDone(items, false)| == |items| ==> WithDone(items, false) == items
  {
    if items != [] {
      WithDoneSize(items[1..]);
    }
  }

  /** Toggling the same prefix again restores the list; one toggle changes the first item that has the
      prefix, and of it only whether it is done. */
  lemma ToggleTwice(lower: Lower, items: seq<ChecklistItem>, prefix: string)
    ensures
      var (once, found) := StepList(lower, items, Toggle(prefix));
      var (twice, again) := StepList(lower, once, Toggle(prefix));
      && twice == items && found == again
      && |once| == |items|
      && (found == Toggled(false) <==> forall j :: 0 <= j < |items| ==> !(lower(prefix) <= lower(items[j].text)))
      && forall i :: 0 <= i < |items| ==>
           && once[i].text == items[i].text && once[i].tags == items[i].tags
           && (once[i].done != items[i].done <==>
                 && lower(prefix) <= lower(items[i].text)
                 && forall j :: 0 <= j < i ==> !(lower(prefix) <= lower(items[j].text)))
  {
    var i := FirstMatch(lower, items, prefix);
    if i < |items| {
      var once := Flip(items, i);
      assert forall j :: 0 <= j < |items| ==> once[j].text == items[j].text;
      assert FirstMatch(lower, once, prefix) == i;
    }
  }

  /** Clearing removes what was listed as done and nothing else. */
  lemma ClearRemovesDone(lower: Lower, items: seq<ChecklistItem>)
    ensures
      var (left, answer) := StepList(lower, items, ClearDone);
      && Items(left) == StepList(lower, items, Get(Some(false))).1
      && StepList(lower, left, Get(Some(true))).1 == Items([])
      && StepList(lower, items, Get(Some(true))).1.Items?
      && answer == Cleared(|StepList(lower, items, Get(Some(true))).1.items|)
  {
    WithDoneSplits(items);
  }

  lemma {:induction false} WithDoneSplits(items: seq<ChecklistItem>)
    ensures |items| == |WithDone(items, true)| + |WithDone(items, false)|
    ensures WithDone(WithDone(items, false), true) == []
  {
    if items != [] {
      WithDoneSplits(items[1..]);
    }
  }

  /** The items in a file that may be missing. */
  function LoadItems(raw: Option<string>): seq<ChecklistItem> {
    if raw.None? then [] else Parse(raw.value)
  }

  /** The same operation on the file: load, change, and print again if something changed. */
  function StepFile(lower: Lower, raw: Option<string>, op: Op): (Option<string>, Answer) {
    var (items, answer) := StepList(lower, LoadItems(raw), op);
    var write := match answer
      case Added => true
      case Toggled(found) => found
      case Items(_) => false
      case Cleared(count) => count > 0;
    (if write then Some(Print(items)) else raw, answer)
  }

  lemma {:induction false} ClearStep(lower: Lower, raw: Option<string>, items: seq<ChecklistItem>,
                                     left: seq<ChecklistItem>)
    requires items == LoadItems(raw) && left == WithDone(items, false)
    ensures |left| <= |items|
    ensures StepFile(lower, raw, ClearDone)
         == (if |items| - |left| > 0 then Some(Print(left)) else raw, Cleared(|items| - |left|))
  {
    ClearList(lower, items, left);
  }

  lemma {:induction false} ClearList(lower: Lower, items: seq<ChecklistItem>, left: seq<ChecklistItem>)
    requires left == WithDone(items, false)
    ensures |left| <= |items| && StepList(lower, items, ClearDone) == (left, Cleared(|items| - |left|))
  {
    WithDoneSize(items);
  }

  /** The file is left alone by an operation that finds nothing to change. */
  lemma FileIsLeftAlone(lower: Lower, raw: Option<string>, op: Op)
    requires !op.Add? && StepList(lower, LoadItems(raw), op).0 == LoadItems(raw)
    ensures StepFile(lower, raw, op).0 == raw
  {
    if op.Toggle? {
      ToggleTwice(lower, LoadItems(raw), op.prefix);
    }
  }

  // ----- the two managers -----

  class DefaultChecklistManager {
    const provider: MemoryBank
    const path: string
    const lower: Lower

    constructor (provider: MemoryBank, path: string, lower: Lower)
      ensures this.provider == provider && this.path == path && this.lower == lower
    {
      this.provider := provider;
      this.path := path;
      this.lower := lower;
    }

    function Raw(): Option<string>
      reads provider
    {
      if path in provider.files then Some(provider.files[path]) else None
    }

    method AddItem(item: ChecklistItem)
      modifies provider
      ensures (Raw(), Added) == StepFile(lower, old(Raw()), Add(item))
    {
      var items := Load();
      items := items + [item];
      Store(items);
    }

    method ToggleItem(textPrefix: string) returns (found: bool)
      modifies provider
      ensures (Raw(), Toggled(found)) == StepFile(lower, old(Raw()), Toggle(textPrefix))
    {
      var items := Load();
      var prefixLower := lower(textPrefix);
      for i := 0 to |items|
        invariant Raw() == old(Raw())
        invariant forall j :: 0 <= j < i ==> !(prefixLower <= lower(items[j].text))
      {
        if prefixLower <= lower(items[i].text) {
          assert i == FirstMatch(lower, items, textPrefix);
          items := items[i := items[i].(done := !items[i].done)];
          Store(items);
          return true;
        }
      }
      found := false;
    }

    method GetItems(done: Option<bool>) returns (items: seq<ChecklistItem>)
      ensures (Raw(), Items(items)) == StepFile(lower, Raw(), Get(done))
    {
      items := Load();
      if done.Some? {
        items := SelectDone(items, done.value);
      }
    }

    method ClearDoneItems() returns (removed: nat)
      modifies provider
      ensures (Raw(), Cleared(removed)) == StepFile(lower, old(Raw()), ClearDone)
    {
      var items := Load();
      var remaining := SelectDone(items, false);
      ClearStep(lower, Raw(), items, remaining);
      removed := KeepOnly(|items|, remaining);
    }

    /** Stores what remains of `n` items, unless it is all of them. */
    method KeepOnly(n: nat, remaining: seq<ChecklistItem>) returns (removed: nat)
      requires |remaining| <= n
      modifies provider
      ensures removed == n - |remaining|
      ensures Raw() == if n - |remaining| > 0 then Some(Print(remaining)) else old(Raw())
    {
      removed := n - |remaining|;
      if removed > 0 {
        Store(remaining);
      }
    }

    method Load() returns (items: seq<ChecklistItem>)
      ensures items == LoadItems(Raw())
    {
      var raw := provider.ReadFile(path);
      if raw.None? || raw.value == "" {
        return [];
      }
      var lines := SplitLines(Strip(raw.value));
      items := [];
      for i := 0 to |lines|
        invariant items + ParseLines(lines[i..]) == ParseLines(lines)
      {
        var item := ParseLine(lines[i]);
        if item.Some? {
          items := items + [item.value];
        }
      }
    }

    method Store(items: seq<ChecklistItem>)
      modifies provider
      ensures provider.files == old(provider.files)[path := Print(items)]
    {
      var lines := [];
      for i := 0 to |items|
        invariant lines + PrintLines(items[i..]) == PrintLines(items)
      {
        lines := lines + [PrintItem(items[i])];
      }
      assert lines == PrintLines(items);
      provider.WriteFile(path, Join(lines, "\n") + "\n");
    }
  }

  class InMemoryChecklistManager {
    const lower: Lower
    var items: seq<ChecklistItem>

    constructor (lower: Lower)
      ensures this.lower == lower && items == []
    {
      this.lower := lower;
      items := [];
    }

    method AddItem(item: ChecklistItem)
      modifies this
      ensures (items, Added) == StepList(lower, old(items), Add(item))
    {
      items := items + [item];
    }

    method ToggleItem(textPrefix: string) returns (found: bool)
      modifies this
      ensures (items, Toggled(found)) == StepList(lower, old(items), Toggle(textPrefix))
    {
      var prefixLower := lower(textPrefix);
      for i := 0 to |items|
        invariant items == old(items)
        invariant forall j :: 0 <= j < i ==> !(prefixLower <= lower(items[j].text))
      {
        if prefixLower <= lower(items[i].text) {
          assert i == FirstMatch(lower, items, textPrefix);
          items := items[i := items[i].(done := !items[i].done)];
          return true;
        }
      }
      found := false;
    }

    method GetItems(done: Option<bool>) returns (result: seq<ChecklistItem>)
      ensures (items, Items(result)) == StepList(lower, items, Get(done))
    {
      if done.None? {
        return items;
      }
      result := SelectDone(items, done.value);
    }

    method ClearDoneItems() returns (removed: nat)
      modifies this
      ensures (items, Cleared(removed)) == StepList(lower, old(items), ClearDone)
    {
      var before := |items|;
      WithDoneSize(items);
      var remaining := SelectDone(items, false);
      items := remaining;
      removed := before - |items|;
    }
  }

  // ----- runs of both managers -----

  function RunList(lower: Lower, items: seq<ChecklistItem>, ops: seq<Op>): seq<Answer>
    decreases |ops|
  {
    if ops == [] then []
    else
      var (next, answer) := StepList(lower, items, ops[0]);
      [answer] + RunList(lower, next, ops[1..])
  }

  function RunFile(lower: Lower, raw: Option<string>, ops: seq<Op>): seq<Answer>
    decreases |ops|
  {
    if ops == [] then []
    else
      var (next, answer) := StepFile(lower, raw, ops[0]);
      [answer] + RunFile(lower, next, ops[1..])
  }

  predicate AddsStorable(ops: seq<Op>) {
    forall i :: 0 <= i < |ops| && ops[i].Add? ==> Storable(ops[i].item)
  }

  lemma {:induction false} WithDoneStorable(items: seq<ChecklistItem>, done: bool)
    requires AllStorable(items)
    ensures AllStorable(WithDone(items, done))
  {
    if items != [] {
      WithDoneStorable(items[1..], done);
    }
  }

  /** One operation keeps file and list in agreement. */
  lemma StepAgrees(lower: Lower, raw: Option<string>, op: Op)
    requires op.Add? ==> Storable(op.item)
    ensures
      var (items, answer) := StepList(lower, LoadItems(raw), op);
      var (raw', answer') := StepFile(lower, raw, op);
      answer == answer' && LoadItems(raw') == items
  {
    if raw.Some? {
      ParseIsStorable(raw.value);
    }
    StepKeepsStorable(lower, LoadItems(raw), op);
    StorableRoundTrip(StepList(lower, LoadItems(raw), op).0);
  }

  lemma StepKeepsStorable(lower: Lower, items: seq<ChecklistItem>, op: Op)
    requires AllStorable(items) && (op.Add? ==> Storable(op.item))
    ensures
      var (items', answer) := StepList(lower, items, op);
      && AllStorable(items')
      && (answer == Toggled(false) || answer == Cleared(0) || answer.Items? ==> items' == items)
  {
    WithDoneStorable(items, false);
    WithDoneSize(items);
  }

  lemma {:induction false} RunsAgreeFrom(lower: Lower, raw: Option<string>, ops: seq<Op>)
    requires AddsStorable(ops)
    ensures RunFile(lower, raw, ops) == RunList(lower, LoadItems(raw), ops)
    decreases |ops|
  {
    if ops != [] {
      StepAgrees(lower, raw, ops[0]);
      RunsAgreeFrom(lower, StepFile(lower, raw, ops[0]).0, ops[1..]);
    }
  }

  /** The first unstorable item that is added shows in the next listing. */
  lemma {:induction false} UnstorableShows(lower: Lower, raw: Option<string>, ops: seq<Op>, k: nat)
    requires k < |ops| && ops[k].Add? && !Storable(ops[k].item)
    requires AddsStorable(ops[..k])
    ensures RunFile(lower, raw, ops[..k + 1] + [Get(None)])
         != RunList(lower, LoadItems(raw), ops[..k + 1] + [Get(None)])
    decreases k
  {
    var shown := ops[..k + 1] + [Get(None)];
    var raw' := StepFile(lower, raw, ops[0]).0;
    var items' := StepList(lower, LoadItems(raw), ops[0]).0;
    assert shown[0] == ops[0];
    if k == 0 {
      assert shown[1..] == [Get(None)];
      UnstorableListed(lower, raw', items');
    } else {
      assert ops[..k][0] == ops[0];
      StepAgrees(lower, raw, ops[0]);
      assert ops[1..][..k - 1] == ops[..k][1..];
      UnstorableShows(lower, raw', ops[1..], k - 1);
      assert shown[1..] == ops[1..][..k] + [Get(None)];
    }
    TailsDiffer(StepFile(lower, raw, ops[0]).1, RunFile(lower, raw', shown[1..]),
                StepList(lower, LoadItems(raw), ops[0]).1, RunList(lower, items', shown[1..]));
  }

  /** A file never lists an unstorable item. */
  lemma UnstorableListed(lower: Lower, raw: Option<string>, items: seq<ChecklistItem>)
    requires items != [] && !Storable(items[|items| - 1])
    ensures RunFile(lower, raw, [Get(None)]) != RunList(lower, items, [Get(None)])
  {
    if raw.Some? {
      ParseIsStorable(raw.value);
    }
    assert AllStorable(LoadItems(raw)) && LoadItems(raw) != items;
    assert RunFile(lower, raw, [Get(None)])[0] == Items(LoadItems(raw));
    assert RunList(lower, items, [Get(None)])[0] == Items(items);
  }

  lemma TailsDiffer(x: Answer, a: seq<Answer>, y: Answer, b: seq<Answer>)
    requires a != b
    ensures [x] + a != [y] + b
  {
    assert ([x] + a)[1..] == a && ([y] + b)[1..] == b;
  }

  /** The text-based manager and the list-based one give the same answers in every run, and the same
      listing after every prefix of it, exactly when the run adds only storable items. */
  lemma ManagersAgreeIff(lower: Lower, ops: seq<Op>)
    ensures (forall k: nat :: k <= |ops| ==>
               RunFile(lower, None, ops[..k] + [Get(None)]) == RunList(lower, [], ops[..k] + [Get(None)]))
       <==> AddsStorable(ops)
    ensures AddsStorable(ops) ==> RunFile(lower, None, ops) == RunList(lower, [], ops)
  {
    if AddsStorable(ops) {
      RunsAgreeFrom(lower, None, ops);
      forall k: nat | k <= |ops|
        ensures RunFile(lower, None, ops[..k] + [Get(None)]) == RunList(lower, [], ops[..k] + [Get(None)])
      {
        RunsAgreeFrom(lower, None, ops[..k] + [Get(None)]);
      }
    } else {
      var k := FirstUnstorable(ops);
      UnstorableShows(lower, None, ops, k);
    }
  }

  lemma {:induction false} FirstUnstorable(ops: seq<Op>) returns (k: nat)
    requires !AddsStorable(ops)
    ensures k < |ops| && ops[k].Add? && !Storable(ops[k].item) && AddsStorable(ops[..k])
  {
    if ops[0].Add? && !Storable(ops[0].item) {
      k := 0;
    } else {
      var rest := FirstUnstorable(ops[1..]);
      k := rest + 1;
      assert ops[..k][1..] == ops[1..][..rest];
    }
  }
}
