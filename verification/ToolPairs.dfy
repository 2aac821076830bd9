/** compaction.py, tier 1: finding tool call/result pairs and collapsing the old ones. */
module ToolPairs {
  import opened Text
  import opened Messages

  const SNIPPET_MAX_CHARS := 100

  /** The assistant half of a pair. */
  predicate IsToolCall(m: Message) {
    m.role == "assistant" && m.metadata.Some? && "tool_call" in m.metadata.value
  }

  /** Messages `i` and `i + 1` are a tool call and its result. */
  predicate IsPair(ms: seq<Message>, i: nat) {
    i + 1 < |ms| && IsToolCall(ms[i]) && ms[i + 1].role == "tool"
  }

  /** How many pairs start strictly before message `i`. */
  function PairsBefore(ms: seq<Message>, i: nat): nat {
    if i == 0 then 0 else PairsBefore(ms, i - 1) + if IsPair(ms, i - 1) then 1 else 0
  }

  function PairCount(ms: seq<Message>): nat {
    PairsBefore(ms, |ms|)
  }

  function ToolName(call: Message): string {
    if call.metadata.Some? && "tool_call" in call.metadata.value
    then call.metadata.value["tool_call"].text
    else "unknown"
  }

  /** The message that takes the place of a collapsed pair. */
  function PairSummary(call: Message, result: Message): Message {
    PlainMessage("system",
                 "[Collapsed tool call: " + ToolName(call) + "] " + Prefix(result.content, SNIPPET_MAX_CHARS))
  }

  /** How many of the oldest pairs are collapsed; a negative setting preserves none. */
  function CollapseCount(pairs: nat, preserve: int): nat {
    if preserve >= pairs then 0 else if preserve <= 0 then pairs else pairs - preserve
  }

  /** The messages from `i` on, with every pair among the first `c` pairs of the whole list collapsed. */
  function CollapseFrom(ms: seq<Message>, c: nat, i: nat): seq<Message>
    requires i <= |ms|
    decreases |ms| - i
  {
    if i == |ms| then []
    else if IsPair(ms, i) && PairsBefore(ms, i) < c then
      [PairSummary(ms[i], ms[i + 1])] + CollapseFrom(ms, c, i + 2)
    else [ms[i]] + CollapseFrom(ms, c, i + 1)
  }

  function Collapse(ms: seq<Message>, preserve: int): seq<Message> {
    CollapseFrom(ms, CollapseCount(PairCount(ms), preserve), 0)
  }

  /** Message `i` is the call of a pair that gets collapsed. */
  predicate CollapsedCall(ms: seq<Message>, c: nat, i: nat) {
    IsPair(ms, i) && PairsBefore(ms, i) < c
  }

  /** Message `i` is the tool result of a pair that gets collapsed. */
  predicate CollapsedResult(ms: seq<Message>, c: nat, i: nat) {
    i > 0 && CollapsedCall(ms, c, i - 1)
  }

  predicate InCollapsedPair(ms: seq<Message>, c: nat, i: nat) {
    CollapsedCall(ms, c, i) || CollapsedResult(ms, c, i)
  }

  // ----- the two methods of the filter -----

  /** Finds every pair, once, from left to right. */
  method FindToolPairs(ms: seq<Message>) returns (pairs: seq<(nat, nat)>)
    ensures |pairs| == PairCount(ms)
    ensures forall k :: 0 <= k < |pairs| ==>
              IsPair(ms, pairs[k].0) && pairs[k].1 == pairs[k].0 + 1 && PairsBefore(ms, pairs[k].0) == k
    ensures forall i :: IsPair(ms, i) ==>
              PairsBefore(ms, i) < |pairs| && pairs[PairsBefore(ms, i)] == (i, i + 1)
  {
    pairs := [];
    var i := 0;
    while i < |ms| - 1
      invariant 0 <= i <= |ms|
      invariant |pairs| == PairsBefore(ms, i)
      invariant forall k :: 0 <= k < |pairs| ==>
                  IsPair(ms, pairs[k].0) && pairs[k].1 == pairs[k].0 + 1 && PairsBefore(ms, pairs[k].0) == k
      invariant forall j :: 0 <= j < i && IsPair(ms, j) ==>
                  PairsBefore(ms, j) < |pairs| && pairs[PairsBefore(ms, j)] == (j, j + 1)
    {
      var call := ms[i];
      var result := ms[i + 1];
      if call.role == "assistant" && call.metadata.Some? && "tool_call" in call.metadata.value
         && result.role == "tool" {
        assert IsPair(ms, i) && !IsPair(ms, i + 1);
        pairs := pairs + [(i, i + 1)];
        i := i + 2;
      } else {
        assert !IsPair(ms, i);
        i := i + 1;
      }
    }
  }

  /** The positions of both halves of the stale pairs. */
  method CollapseIndices(ms: seq<Message>, stale: seq<(nat, nat)>) returns (indices: set<nat>)
    requires forall k :: 0 <= k < |stale| ==>
               IsPair(ms, stale[k].0) && stale[k].1 == stale[k].0 + 1 && PairsBefore(ms, stale[k].0) == k
    requires forall i :: IsPair(ms, i) && PairsBefore(ms, i) < |stale| ==> stale[PairsBefore(ms, i)] == (i, i + 1)
    ensures forall i: nat :: i in indices <==> InCollapsedPair(ms, |stale|, i)
  {
    indices := {};
    for k := 0 to |stale|
      invariant forall i: nat :: i in indices <==> InCollapsedPair(ms, k, i)
    {
      indices := indices + {stale[k].0, stale[k].1};
      forall i: nat | CollapsedCall(ms, k + 1, i)
        ensures CollapsedCall(ms, k, i) || i == stale[k].0
      {
        assert stale[PairsBefore(ms, i)] == (i, i + 1);
      }
    }
  }

  /** Replaces each stale pair by one summary message; the second branch is never taken. */
  method CollapseToolResults(ms: seq<Message>, preserve: int) returns (result: seq<Message>)
    ensures result == Collapse(ms, preserve)
  {
    var pairs := FindToolPairs(ms);
    if pairs == [] {
      CollapseNothing(ms, 0);
      return ms;
    }
    if preserve >= |pairs| {
      CollapseNothing(ms, 0);
      return ms;
    }
    var c: nat := if preserve < 0 then |pairs| else |pairs| - preserve;
    var collapseSet := CollapseIndices(ms, pairs[..c]);

    result := ReplacePairs(ms, c, collapseSet);
  }

  /** Copies the list, emitting one summary per collapsed pair. */
  method ReplacePairs(ms: seq<Message>, c: nat, collapseSet: set<nat>) returns (result: seq<Message>)
    requires forall i: nat :: i in collapseSet <==> InCollapsedPair(ms, c, i)
    ensures result == CollapseFrom(ms, c, 0)
  {
    result := [];
    var i := 0;
    while i < |ms|
      invariant 0 <= i <= |ms|
      invariant !CollapsedResult(ms, c, i)
      invariant CollapseFrom(ms, c, 0) == result + CollapseFrom(ms, c, i)
    {
      ReplaceRound(ms, c, i, result);
      if i in collapseSet && ms[i].role == "assistant" {
        var call := ms[i];
        var toolResult := ms[i + 1];
        result := result + [PairSummary(call, toolResult)];
        i := i + 2;
      } else if i in collapseSet {
        assert false;
      } else {
        result := result + [ms[i]];
        i := i + 1;
      }
    }
  }

  /** One round of the copying loop. */
  lemma ReplaceRound(ms: seq<Message>, c: nat, i: nat, result: seq<Message>)
    requires i < |ms| && !CollapsedResult(ms, c, i)
    requires CollapseFrom(ms, c, 0) == result + CollapseFrom(ms, c, i)
    ensures InCollapsedPair(ms, c, i) ==>
              && i + 1 < |ms| && ms[i].role == "assistant" && !CollapsedResult(ms, c, i + 2)
              && CollapseFrom(ms, c, 0) == result + [PairSummary(ms[i], ms[i + 1])] + CollapseFrom(ms, c, i + 2)
    ensures !InCollapsedPair(ms, c, i) ==>
              && !CollapsedResult(ms, c, i + 1)
              && CollapseFrom(ms, c, 0) == result + [ms[i]] + CollapseFrom(ms, c, i + 1)
  {
    var whole, here := CollapseFrom(ms, c, 0), CollapseFrom(ms, c, i);
    CollapseFromStep(ms, c, i);
    if CollapsedCall(ms, c, i) {
      MoveAcross(whole, result, here, PairSummary(ms[i], ms[i + 1]), CollapseFrom(ms, c, i + 2));
    } else {
      MoveAcross(whole, result, here, ms[i], CollapseFrom(ms, c, i + 1));
    }
  }

  lemma MoveAcross(whole: seq<Message>, done: seq<Message>, here: seq<Message>, m: Message, rest: seq<Message>)
    requires whole == done + here && here == [m] + rest
    ensures whole == done + [m] + rest
  {
  }

  lemma CollapseFromStep(ms: seq<Message>, c: nat, i: nat)
    requires i < |ms| && !CollapsedResult(ms, c, i)
    ensures CollapsedCall(ms, c, i) ==>
              && i + 1 < |ms| && ms[i].role == "assistant" && !CollapsedResult(ms, c, i + 2)
              && CollapseFrom(ms, c, i) == [PairSummary(ms[i], ms[i + 1])] + CollapseFrom(ms, c, i + 2)
    ensures !CollapsedCall(ms, c, i) ==>
              CollapseFrom(ms, c, i) == [ms[i]] + CollapseFrom(ms, c, i + 1)
  {
  }

  // ----- what tier 1 guarantees -----

  lemma {:induction false} CollapseNothing(ms: seq<Message>, i: nat)
    requires i <= |ms|
    ensures CollapseFrom(ms, 0, i) == ms[i..]
    decreases |ms| - i
  {
    if i < |ms| {
      CollapseNothing(ms, i + 1);
    }
  }

  /** Where message `j` ends up: every collapsed pair before it moves it one place to the left. */
  function NewIndex(ms: seq<Message>, c: nat, j: nat): int {
    j - if PairsBefore(ms, j) < c then PairsBefore(ms, j) else c
  }

  lemma NewIndexStep(ms: seq<Message>, c: nat, i: nat)
    requires !CollapsedCall(ms, c, i)
    ensures NewIndex(ms, c, i + 1) == NewIndex(ms, c, i) + 1
  {
    assert PairsBefore(ms, i + 1) == PairsBefore(ms, i) + if IsPair(ms, i) then 1 else 0;
  }

  lemma NewIndexSkipsPair(ms: seq<Message>, c: nat, i: nat)
    requires CollapsedCall(ms, c, i)
    ensures !IsPair(ms, i + 1)
    ensures NewIndex(ms, c, i + 2) == NewIndex(ms, c, i) + 1
  {
    assert PairsBefore(ms, i + 2) == PairsBefore(ms, i) + 1;
  }

  lemma {:induction false} CollapseFromAt(ms: seq<Message>, c: nat, i: nat, j: nat)
    requires i <= j < |ms|
    requires !CollapsedResult(ms, c, i)
    requires !CollapsedResult(ms, c, j)
    ensures 0 <= NewIndex(ms, c, j) - NewIndex(ms, c, i) < |CollapseFrom(ms, c, i)|
    ensures CollapseFrom(ms, c, i)[NewIndex(ms, c, j) - NewIndex(ms, c, i)]
         == if CollapsedCall(ms, c, j) then PairSummary(ms[j], ms[j + 1]) else ms[j]
    decreases j - i
  {
    if i == j {
    } else if CollapsedCall(ms, c, i) {
      NewIndexSkipsPair(ms, c, i);
      CollapseFromAt(ms, c, i + 2, j);
      assert CollapseFrom(ms, c, i) == [PairSummary(ms[i], ms[i + 1])] + CollapseFrom(ms, c, i + 2);
    } else {
      NewIndexStep(ms, c, i);
      CollapseFromAt(ms, c, i + 1, j);
      assert CollapseFrom(ms, c, i) == [ms[i]] + CollapseFrom(ms, c, i + 1);
    }
  }

  lemma {:induction false} CollapseFromLength(ms: seq<Message>, c: nat, i: nat)
    requires i <= |ms|
    requires !CollapsedResult(ms, c, i)
    ensures |CollapseFrom(ms, c, i)| == NewIndex(ms, c, |ms|) - NewIndex(ms, c, i)
    decreases |ms| - i
  {
    if i < |ms| {
      if CollapsedCall(ms, c, i) {
        NewIndexSkipsPair(ms, c, i);
        CollapseFromLength(ms, c, i + 2);
      } else {
        NewIndexStep(ms, c, i);
        CollapseFromLength(ms, c, i + 1);
      }
    }
  }

  /** Tier 1 changes exactly the pairs it collapses: the result is one message shorter for each of them,
      each collapsed pair has become its summary, and every other message is found verbatim at the
      position that the earlier collapses leave it. */
  lemma CollapseTouchesOnlyOldPairs(ms: seq<Message>, preserve: int, j: nat)
    requires j < |ms|
    ensures |Collapse(ms, preserve)| == |ms| - CollapseCount(PairCount(ms), preserve)
    ensures
      var c := CollapseCount(PairCount(ms), preserve);
      var result := Collapse(ms, preserve);
      !CollapsedResult(ms, c, j) ==>
        && 0 <= NewIndex(ms, c, j) < |result|
        && result[NewIndex(ms, c, j)] == if CollapsedCall(ms, c, j) then PairSummary(ms[j], ms[j + 1]) else ms[j]
  {
    var c := CollapseCount(PairCount(ms), preserve);
    CollapseFromLength(ms, c, 0);
    if !CollapsedResult(ms, c, j) {
      CollapseFromAt(ms, c, 0, j);
    }
  }

  /** The text that a collapsed pair leaves: it names the tool and ends with the result, or with its first
      hundred characters. */
  lemma PairSummaryText(call: Message, result: Message)
    requires IsToolCall(call)
    ensures
      var summary := PairSummary(call, result);
      && summary.role == "system"
      && Contains(summary.content, call.metadata.value["tool_call"].text)
      && EndsWith(summary.content, if |result.content| <= 100 then result.content else result.content[..100])
  {
    var prefix, name := "[Collapsed tool call: ", ToolName(call);
    var snippet := Prefix(result.content, SNIPPET_MAX_CHARS);
    var content := PairSummary(call, result).content;
    assert content == prefix + name + ("] " + snippet);
    assert content[|prefix|..|prefix| + |name|] == name;
    assert OccursAt(content, name, |prefix|);
  }

  /** Each of the last `preserve` pairs is kept as it is; each older one has become one message with its
      tool name and its shortened result. */
  lemma PairOutcome(ms: seq<Message>, preserve: int, i: nat) returns (k: nat)
    requires i + 1 < |ms| && ms[i].role == "assistant" && ms[i + 1].role == "tool"
    requires ms[i].metadata.Some? && "tool_call" in ms[i].metadata.value
    ensures
      var result := Collapse(ms, preserve);
      if PairCount(ms) - PairsBefore(ms, i) <= preserve then
        k + 1 < |result| && result[k] == ms[i] && result[k + 1] == ms[i + 1]
      else
        && k < |result| && result[k].role == "system"
        && Contains(result[k].content, ms[i].metadata.value["tool_call"].text)
        && EndsWith(result[k].content,
                    if |ms[i + 1].content| <= 100 then ms[i + 1].content else ms[i + 1].content[..100])
  {
    var c := CollapseCount(PairCount(ms), preserve);
    PairsBeforeGrows(ms, i + 1, |ms|);
    k := NewIndexOf(ms, c, i);
    CollapseFromAt(ms, c, 0, i);
    if CollapsedCall(ms, c, i) {
      PairSummaryText(ms[i], ms[i + 1]);
    } else {
      PairIsKept(ms, c, i);
    }
  }

  lemma PairIsKept(ms: seq<Message>, c: nat, i: nat)
    requires IsPair(ms, i) && PairsBefore(ms, i) >= c
    ensures 0 <= NewIndex(ms, c, i) && NewIndex(ms, c, i) + 1 < |CollapseFrom(ms, c, 0)|
    ensures CollapseFrom(ms, c, 0)[NewIndex(ms, c, i)] == ms[i]
    ensures CollapseFrom(ms, c, 0)[NewIndex(ms, c, i) + 1] == ms[i + 1]
  {
    NewIndexStep(ms, c, i);
    CollapseFromAt(ms, c, 0, i);
    CollapseFromAt(ms, c, 0, i + 1);
  }

  lemma NewIndexOf(ms: seq<Message>, c: nat, i: nat) returns (k: nat)
    requires i < |ms| && !CollapsedResult(ms, c, i)
    ensures k == NewIndex(ms, c, i)
  {
    CollapseFromAt(ms, c, 0, i);
    k := NewIndex(ms, c, i);
  }

  lemma {:induction false} PairsBeforeGrows(ms: seq<Message>, i: nat, j: nat)
    requires i <= j
    ensures PairsBefore(ms, i) <= PairsBefore(ms, j)
  {
    if i < j {
      PairsBeforeGrows(ms, i, j - 1);
    }
  }

  /** Pairs counted from the front instead of from the back. */
  lemma {:induction false} PairsBeforeShift(x: Message, rest: seq<Message>, i: nat)
    requires i <= |rest|
    ensures PairsBefore([x] + rest, i + 1)
         == (if IsPair([x] + rest, 0) then 1 else 0) + PairsBefore(rest, i)
  {
    if i == 0 {
      assert PairsBefore([x] + rest, 0) == 0;
    } else {
      PairsBeforeShift(x, rest, i - 1);
      assert IsPair([x] + rest, i) == IsPair(rest, i - 1);
    }
  }

  /** The head of a collapsed suffix is a tool result exactly when the head of the suffix is. */
  lemma CollapseFromHead(ms: seq<Message>, c: nat, i: nat)
    requires i < |ms|
    ensures CollapseFrom(ms, c, i) != []
    ensures CollapseFrom(ms, c, i)[0].role == "tool" <==> ms[i].role == "tool"
  {
  }

  lemma {:induction false} CollapseFromPairs(ms: seq<Message>, c: nat, i: nat)
    requires i <= |ms|
    requires !CollapsedResult(ms, c, i)
    ensures PairCount(CollapseFrom(ms, c, i))
         == PairCount(ms) - PairsBefore(ms, i) - (|ms| - i - |CollapseFrom(ms, c, i)|)
    decreases |ms| - i
  {
    if i < |ms| {
      if CollapsedCall(ms, c, i) {
        assert !IsPair(ms, i + 1);
        var rest := CollapseFrom(ms, c, i + 2);
        CollapseFromPairs(ms, c, i + 2);
        PairsBeforeShift(PairSummary(ms[i], ms[i + 1]), rest, |rest|);
        assert !IsPair(CollapseFrom(ms, c, i), 0);
      } else {
        var rest := CollapseFrom(ms, c, i + 1);
        CollapseFromPairs(ms, c, i + 1);
        PairsBeforeShift(ms[i], rest, |rest|);
        if i + 1 < |ms| {
          CollapseFromHead(ms, c, i + 1);
        }
        assert IsPair(CollapseFrom(ms, c, i), 0) == IsPair(ms, i);
      }
    }
  }

  /** Collapsing creates no pair: what is left are as many pairs as are to be preserved, or all if there
      are no more. */
  lemma CollapseCreatesNoPair(ms: seq<Message>, preserve: int)
    ensures PairCount(Collapse(ms, preserve)) == PairCount(ms) - CollapseCount(PairCount(ms), preserve)
    ensures PairCount(Collapse(ms, preserve))
         == if preserve < 0 then 0 else if preserve < PairCount(ms) then preserve else PairCount(ms)
  {
    var c := CollapseCount(PairCount(ms), preserve);
    CollapseFromPairs(ms, c, 0);
    CollapseFromLength(ms, c, 0);
  }

  /** Running tier 1 again changes nothing. */
  lemma CollapseIdempotent(ms: seq<Message>, preserve: int)
    ensures Collapse(Collapse(ms, preserve), preserve) == Collapse(ms, preserve)
  {
    CollapseCreatesNoPair(ms, preserve);
    CollapseNothing(Collapse(ms, preserve), 0);
  }

  /** The list ends with a tool call and its result. */
  predicate EndsWithPair(ms: seq<Message>) {
    |ms| >= 2 && IsPair(ms, |ms| - 2)
  }

  /** Tier 1 keeps the last message verbatim unless it is the result of a pair and no pair is preserved. */
  lemma CollapseKeepsLastIff(ms: seq<Message>, preserve: int)
    requires ms != []
    ensures Collapse(ms, preserve) != []
    ensures Collapse(ms, preserve)[|Collapse(ms, preserve)| - 1] == ms[|ms| - 1]
       <==> !(preserve <= 0 && EndsWithPair(ms))
  {
    var n := |ms|;
    var c := CollapseCount(PairCount(ms), preserve);
    CollapseFromLength(ms, c, 0);
    assert !IsPair(ms, n - 1);
    if n >= 2 && CollapsedCall(ms, c, n - 2) {
      assert PairsBefore(ms, n - 1) == PairCount(ms);
      if n >= 3 {
        assert !IsPair(ms, n - 3);
      }
      CollapseFromAt(ms, c, 0, n - 2);
      assert ms[n - 1].role == "tool";
    } else {
      CollapseFromAt(ms, c, 0, n - 1);
      if EndsWithPair(ms) {
        assert PairsBefore(ms, n - 2) + 1 == PairCount(ms);
      }
    }
  }
}
