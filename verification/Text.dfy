/** Python string operations on sequences of code points. */
module Text {
  /** `text[:k]`, where a negative `k` counts from the end. */
  function Prefix(text: string, k: int): (r: string)
    ensures r <= text
    ensures k >= 0 ==> |r| == if k < |text| then k else |text|
  {
    if k >= |text| then text
    else if k >= 0 then text[..k]
    else if |text| + k >= 0 then text[..|text| + k]
    else ""
  }

  /** The characters that `str.strip()` removes. */
  predicate IsSpace(c: char) {
    || '\t' <= c <= '\r'
    || '\U{1c}' <= c <= ' '
    || c == '\U{85}'
    || c == '\U{a0}'
    || c == '\U{1680}'
    || '\U{2000}' <= c <= '\U{200a}'
    || c == '\U{2028}'
    || c == '\U{2029}'
    || c == '\U{202f}'
    || c == '\U{205f}'
    || c == '\U{3000}'
  }

  function StripLeft(text: string): string {
    if text != "" && IsSpace(text[0]) then StripLeft(text[1..]) else text
  }

  function StripRight(text: string): string {
    if text != "" && IsSpace(text[|text| - 1]) then StripRight(text[..|text| - 1]) else text
  }

  function Strip(text: string): string {
    StripRight(StripLeft(text))
  }

  /** Neither end of the text is white space. */
  predicate Stripped(text: string) {
    text != "" ==> !IsSpace(text[0]) && !IsSpace(text[|text| - 1])
  }

  predicate AllSpace(text: string) {
    forall k :: 0 <= k < |text| ==> IsSpace(text[k])
  }

  lemma {:induction false} StripLeftParts(text: string) returns (lead: string)
    ensures AllSpace(lead)
    ensures text == lead + StripLeft(text)
    ensures StripLeft(text) != "" ==> !IsSpace(StripLeft(text)[0])
  {
    if text != "" && IsSpace(text[0]) {
      var rest := StripLeftParts(text[1..]);
      lead := [text[0]] + rest;
    } else {
      lead := "";
    }
  }

  lemma {:induction false} StripRightParts(text: string) returns (trail: string)
    ensures AllSpace(trail)
    ensures text == StripRight(text) + trail
    ensures StripRight(text) != "" ==> !IsSpace(StripRight(text)[|StripRight(text)| - 1])
  {
    if text != "" && IsSpace(text[|text| - 1]) {
      var rest := StripRightParts(text[..|text| - 1]);
      trail := rest + [text[|text| - 1]];
    } else {
      trail := "";
    }
  }

  /** A text is its stripped core between two runs of white space. */
  lemma StripParts(text: string) returns (lead: string, trail: string)
    ensures AllSpace(lead) && AllSpace(trail)
    ensures text == lead + Strip(text) + trail
    ensures Stripped(Strip(text))
  {
    lead := StripLeftParts(text);
    trail := StripRightParts(StripLeft(text));
    var core := Strip(text);
    if core != "" {
      assert StripLeft(text)[0] == core[0];
    }
  }

  lemma {:induction false} StripLeftSkips(lead: string, rest: string)
    requires AllSpace(lead)
    ensures StripLeft(lead + rest) == StripLeft(rest)
  {
    if lead == "" {
      assert lead + rest == rest;
    } else {
      assert (lead + rest)[1..] == lead[1..] + rest;
      StripLeftSkips(lead[1..], rest);
    }
  }

  lemma {:induction false} StripRightSkips(rest: string, trail: string)
    requires AllSpace(trail)
    ensures StripRight(rest + trail) == StripRight(rest)
  {
    if trail == "" {
      assert rest + trail == rest;
    } else {
      var n := |rest + trail| - 1;
      assert (rest + trail)[..n] == rest + trail[..|trail| - 1];
      StripRightSkips(rest, trail[..|trail| - 1]);
    }
  }

  /** The converse of `StripParts`: the core is the only text with that property. */
  lemma StripUnique(lead: string, core: string, trail: string)
    requires AllSpace(lead) && AllSpace(trail) && Stripped(core)
    ensures Strip(lead + core + trail) == core
  {
    assert lead + core + trail == lead + (core + trail);
    StripLeftSkips(lead, core + trail);
    if core == "" {
      assert core + trail == trail + "";
      StripLeftSkips(trail, "");
    } else {
      assert StripLeft(core + trail) == core + trail;
      StripRightSkips(core, trail);
    }
  }

  lemma StripOfStripped(text: string)
    requires Stripped(text)
    ensures Strip(text) == text
  {
    StripUnique("", text, "");
    assert "" + text + "" == text;
  }

  /** White space around a text does not change what `strip` leaves. */
  lemma StripIgnoresMargins(lead: string, text: string, trail: string)
    requires AllSpace(lead) && AllSpace(trail)
    ensures Strip(lead + text + trail) == Strip(text)
  {
    var l, t := StripParts(text);
    assert lead + text + trail == (lead + l) + Strip(text) + (t + trail);
    StripUnique(lead + l, Strip(text), t + trail);
  }

  /** A text that does not end with white space loses only a beginning. */
  lemma StripBeginning(text: string) returns (lead: string)
    requires text != "" && !IsSpace(text[|text| - 1])
    ensures AllSpace(lead) && text == lead + Strip(text)
  {
    lead := StripLeftParts(text);
    var rest := StripLeft(text);
    assert rest != "" && rest[|rest| - 1] == text[|text| - 1];
  }

  lemma BlankIfStripsEmpty(text: string)
    requires Strip(text) == ""
    ensures AllSpace(text)
  {
    var lead, trail := StripParts(text);
    assert text == lead + trail;
  }

  /** Prepending a text that is not blank makes the stripped text longer. */
  lemma StripGrows(front: string, text: string)
    requires !AllSpace(front)
    ensures |Strip(front + text)| > |Strip(text)|
  {
    var lead, trail := StripParts(front);
    var l, t := StripParts(text);
    var core := Strip(front);
    if core == "" {
      BlankIfStripsEmpty(front);
    } else if Strip(text) == "" {
      assert front + text == lead + core + (trail + l + t);
      StripUnique(lead, core, trail + l + t);
    } else {
      var middle := core + trail + l + Strip(text);
      assert front + text == lead + middle + t;
      assert middle[0] == core[0] && middle[|middle| - 1] == Strip(text)[|Strip(text)| - 1];
      StripUnique(lead, middle, t);
    }
  }

  predicate EndsWith(text: string, suffix: string) {
    |suffix| <= |text| && text[|text| - |suffix|..] == suffix
  }

  lemma AppendEnds(front: string, text: string)
    ensures EndsWith(front + text, text)
  {
    assert (front + text)[|front|..] == text;
  }

  /** `pattern` occurs in `text` at position `i`. */
  predicate OccursAt(text: string, pattern: string, i: nat) {
    i + |pattern| <= |text| && text[i..i + |pattern|] == pattern
  }

  predicate Contains(text: string, pattern: string) {
    exists i: nat :: i <= |text| && OccursAt(text, pattern, i)
  }

  lemma LongerContains(front: string, text: string, back: string, pattern: string)
    requires Contains(text, pattern)
    ensures Contains(front + text + back, pattern)
  {
    var i: nat :| i <= |text| && OccursAt(text, pattern, i);
    var whole := front + text + back;
    assert whole[|front| + i..|front| + i + |pattern|] == text[i..i + |pattern|];
    assert OccursAt(whole, pattern, |front| + i);
  }

  lemma ContainsTransitive(text: string, middle: string, pattern: string)
    requires Contains(text, middle) && Contains(middle, pattern)
    ensures Contains(text, pattern)
  {
    var i: nat :| i <= |text| && OccursAt(text, middle, i);
    LongerContains(text[..i], middle, text[i + |middle|..], pattern);
    assert text == text[..i] + middle + text[i + |middle|..];
  }

  datatype Position = NotFound | At(index: nat)

  /** `text.find(pattern, from)`: the first occurrence at or after `from`. */
  function Find(text: string, pattern: string, from: nat): (r: Position)
    ensures r.At? ==> from <= r.index && OccursAt(text, pattern, r.index)
    ensures forall i: nat :: from <= i && OccursAt(text, pattern, i) ==> r.At? && r.index <= i
    decreases |text| - from
  {
    if from + |pattern| > |text| then NotFound
    else if text[from..from + |pattern|] == pattern then At(from)
    else if from == |text| then NotFound
    else Find(text, pattern, from + 1)
  }

  /** The length of the UTF-8 encoding (RFC 3629, section 3). */
  function Utf8Length(text: string): nat {
    if text == "" then 0
    else
      (if text[0] < '\U{80}' then 1
       else if text[0] < '\U{800}' then 2
       else if text[0] < '\U{10000}' then 3
       else 4) + Utf8Length(text[1..])
  }

  /** The length is summed up character by character, with the ranges of the standard. */
  lemma {:induction false} Utf8LengthConcat(a: string, b: string)
    ensures Utf8Length(a + b) == Utf8Length(a) + Utf8Length(b)
  {
    if a == "" {
      assert a + b == b;
    } else {
      assert (a + b)[1..] == a[1..] + b;
      Utf8LengthConcat(a[1..], b);
    }
  }

  lemma Utf8LengthOfChar(c: char)
    ensures Utf8Length([c]) == 1 <==> c <= '\U{7f}'
    ensures Utf8Length([c]) == 2 <==> '\U{80}' <= c <= '\U{7ff}'
    ensures Utf8Length([c]) == 3 <==> '\U{800}' <= c <= '\U{ffff}'
    ensures Utf8Length([c]) == 4 <==> '\U{10000}' <= c
  {
    assert [c][1..] == "";
  }

  /** `sep.join(parts)` */
  function Join(parts: seq<string>, sep: string): string {
    if parts == [] then ""
    else if |parts| == 1 then parts[0]
    else parts[0] + sep + Join(parts[1..], sep)
  }

  lemma {:induction false} JoinContains(parts: seq<string>, sep: string, k: nat)
    requires k < |parts|
    ensures Contains(Join(parts, sep), parts[k])
  {
    var text := Join(parts, sep);
    if k == 0 {
      assert text[0..0 + |parts[0]|] == parts[0];
      assert OccursAt(text, parts[0], 0);
    } else {
      JoinContains(parts[1..], sep, k - 1);
      var rest := Join(parts[1..], sep);
      var i: nat :| i <= |rest| && OccursAt(rest, parts[k], i);
      var start := |parts[0] + sep| + i;
      assert text == parts[0] + sep + rest;
      assert text[start..start + |parts[k]|] == rest[i..i + |parts[k]|];
      assert OccursAt(text, parts[k], start);
    }
  }

  lemma {:induction false} JoinAppend(parts: seq<string>, last: string, sep: string)
    requires parts != []
    ensures Join(parts + [last], sep) == Join(parts, sep) + sep + last
  {
    if |parts| == 1 {
      assert (parts + [last])[1..] == [last];
    } else {
      assert (parts + [last])[1..] == parts[1..] + [last];
      JoinAppend(parts[1..], last, sep);
    }
  }
}
