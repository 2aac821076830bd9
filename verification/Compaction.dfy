/** compaction.py: the three-tier compaction filter. */
module Compaction {
  import opened Wrappers
  import opened Text
  import opened Budget
  import opened Messages
  import opened ToolPairs

  const SUMMARIZE_PROMPT :=
    "Summarize this conversation segment concisely (max 500 tokens).\n" +
    "Preserve: key decisions, tool call results, project instructions, task state.\n" +
    "Format: continuous text, third person.\n"

  datatype CompactionConfig = CompactionConfig(
    enabled: bool,
    thresholdTokens: int,
    preserveRecentPairs: int,
    tier1Enabled: bool,
    tier2Enabled: bool,
    tier3Enabled: bool
  )

  /** The summarizing model: any reply, or a failure, for a prompt and a dialog text. */
  type LlmCall = (string, string) -> Result<string, string>

  predicate IsNonCompactable(m: Message) {
    && m.metadata.Some?
    && "non_compactable" in m.metadata.value
    && m.metadata.value["non_compactable"].truthy
  }

  /** The mark counts if it is there and its value is truthy, whatever else the metadata holds. */
  lemma MarkDecides(m: Message, metadata: map<string, MetaValue>, mark: MetaValue)
    ensures !IsNonCompactable(m.(metadata := None))
    ensures !IsNonCompactable(m.(metadata := Some(metadata - {"non_compactable"})))
    ensures IsNonCompactable(m.(metadata := Some(metadata["non_compactable" := mark]))) <==> mark.truthy
  {
  }

  /** The non-compactable messages, in order. */
  function Pinned(ms: seq<Message>): seq<Message> {
    if ms == [] then []
    else if IsNonCompactable(ms[0]) then [ms[0]] + Pinned(ms[1..])
    else Pinned(ms[1..])
  }

  function Compactable(ms: seq<Message>): seq<Message> {
    if ms == [] then []
    else if IsNonCompactable(ms[0]) then Compactable(ms[1..])
    else [ms[0]] + Compactable(ms[1..])
  }

  function MessageTokens(ms: seq<Message>): nat {
    if ms == [] then 0 else EstimateTokens(ms[0].content) + MessageTokens(ms[1..])
  }

  function TotalTokens(ms: seq<Message>, systemPrompt: string): nat {
    EstimateTokens(systemPrompt) + MessageTokens(ms)
  }

  function Last(ms: seq<Message>): Message
    requires ms != []
  {
    ms[|ms| - 1]
  }

  /** Every message but the last is non-compactable. */
  predicate OnlyPinnedBeforeLast(ms: seq<Message>) {
    forall i :: 0 <= i < |ms| - 1 ==> IsNonCompactable(ms[i])
  }

  // ----- tier 2 -----

  function PreserveCount(preserve: int): nat {
    if preserve * 2 + 1 > 1 then preserve * 2 + 1 else 1
  }

  function DialogLines(ms: seq<Message>): seq<string> {
    if ms == [] then [] else [ms[0].role + ": " + ms[0].content] + DialogLines(ms[1..])
  }

  function SummaryMessage(summary: string): Message {
    PlainMessage("system", "[Conversation summary]: " + summary)
  }

  function Summarize(ms: seq<Message>, preserve: int, llm: LlmCall): Result<seq<Message>, string> {
    if |ms| <= PreserveCount(preserve) then Success(ms)
    else
      var cut := |ms| - PreserveCount(preserve);
      if Compactable(ms[..cut]) == [] then Success(ms)
      else
        match llm(SUMMARIZE_PROMPT, Join(DialogLines(Compactable(ms[..cut])), "\n"))
        case Failure(error) => Failure(error)
        case Success(summary) => Success([SummaryMessage(summary)] + Pinned(ms[..cut]) + ms[cut..])
  }

  // ----- tier 3 -----

  /** Drops every compactable message before position `i` and keeps everything else. */
  function Cut(ms: seq<Message>, i: nat): seq<Message>
    requires i <= |ms|
  {
    Pinned(ms[..i]) + ms[i..]
  }

  /** The first cut, from `i` on, that fits the budget; the last message is never cut. */
  function CutPoint(ms: seq<Message>, budget: int, i: nat): nat
    requires i < |ms|
    ensures i <= CutPoint(ms, budget, i) < |ms|
    decreases |ms| - i
  {
    if i == |ms| - 1 || MessageTokens(Cut(ms, i)) <= budget then i else CutPoint(ms, budget, i + 1)
  }

  function Truncate(ms: seq<Message>, budget: int): seq<Message>
    requires ms != []
  {
    Cut(ms, CutPoint(ms, budget, 0))
  }

  // ----- the whole filter -----

  predicate Fits(config: CompactionConfig, ms: seq<Message>, systemPrompt: string) {
    TotalTokens(ms, systemPrompt) <= config.thresholdTokens
  }

  /** The messages after tier 1. */
  function AfterTier1(config: CompactionConfig, ms: seq<Message>): seq<Message> {
    if config.tier1Enabled then Collapse(ms, config.preserveRecentPairs) else ms
  }

  /** The messages after tier 2; a failing call leaves them alone. */
  function AfterTier2(config: CompactionConfig, llm: Option<LlmCall>, ms: seq<Message>): seq<Message> {
    if config.tier2Enabled && llm.Some? then
      match Summarize(ms, config.preserveRecentPairs, llm.value)
      case Success(summarized) => summarized
      case Failure(_) => ms
    else ms
  }

  /** What tiers 2 and 3 do to the outcome of tier 1. */
  function AfterTiers2And3(config: CompactionConfig, llm: Option<LlmCall>, ms1: seq<Message>, systemPrompt: string)
    : seq<Message>
  {
    if Fits(config, ms1, systemPrompt) then ms1
    else
      var ms2 := AfterTier2(config, llm, ms1);
      if Fits(config, ms2, systemPrompt) || !config.tier3Enabled || ms2 == [] then ms2
      else Truncate(ms2, config.thresholdTokens - EstimateTokens(systemPrompt))
  }

  function Compact(config: CompactionConfig, llm: Option<LlmCall>, ms: seq<Message>, systemPrompt: string)
    : seq<Message>
  {
    if !config.enabled || ms == [] || Fits(config, ms, systemPrompt) then ms
    else AfterTiers2And3(config, llm, AfterTier1(config, ms), systemPrompt)
  }

  // ----- facts about the helpers -----

  lemma {:induction false} TokensConcat(a: seq<Message>, b: seq<Message>)
    ensures MessageTokens(a + b) == MessageTokens(a) + MessageTokens(b)
  {
    if a == [] {
      assert a + b == b;
    } else {
      assert (a + b)[1..] == a[1..] + b;
      TokensConcat(a[1..], b);
    }
  }

  lemma {:induction false} PinnedConcat(a: seq<Message>, b: seq<Message>)
    ensures Pinned(a + b) == Pinned(a) + Pinned(b)
  {
    if a == [] {
      assert a + b == b;
    } else {
      assert (a + b)[1..] == a[1..] + b;
      PinnedConcat(a[1..], b);
    }
  }

  lemma {:induction false} CompactableConcat(a: seq<Message>, b: seq<Message>)
    ensures Compactable(a + b) == Compactable(a) + Compactable(b)
  {
    if a == [] {
      assert a + b == b;
    } else {
      assert (a + b)[1..] == a[1..] + b;
      CompactableConcat(a[1..], b);
    }
  }

  /** The estimate of a list, message by message. */
  lemma TotalTokensOf(ms: seq<Message>, m: Message, systemPrompt: string)
    ensures TotalTokens([], systemPrompt) == |systemPrompt| / 4 + 1
    ensures TotalTokens(ms + [m], systemPrompt) == TotalTokens(ms, systemPrompt) + |m.content| / 4 + 1
  {
    TokensConcat(ms, [m]);
    assert [m][1..] == [];
  }

  /** The dialog has a line for each message, in order. */
  lemma {:induction false} DialogLineAt(ms: seq<Message>, i: nat)
    requires i < |ms|
    ensures |DialogLines(ms)| == |ms| && DialogLines(ms)[i] == ms[i].role + ": " + ms[i].content
  {
    if |ms| > 1 {
      DialogLineAt(ms[1..], if i > 0 then i - 1 else 0);
    }
  }

  lemma {:induction false} DialogLinesConcat(a: seq<Message>, b: seq<Message>)
    ensures DialogLines(a + b) == DialogLines(a) + DialogLines(b)
  {
    if a == [] {
      assert a + b == b;
    } else {
      assert (a + b)[1..] == a[1..] + b;
      DialogLinesConcat(a[1..], b);
    }
  }

  lemma {:induction false} PinnedOfPinned(ms: seq<Message>)
    ensures Pinned(Pinned(ms)) == Pinned(ms)
    ensures forall m :: m in Pinned(ms) ==> IsNonCompactable(m)
  {
    if ms != [] {
      PinnedOfPinned(ms[1..]);
      PinnedConcat(if IsNonCompactable(ms[0]) then [ms[0]] else [], Pinned(ms[1..]));
    }
  }

  /** The positions of the compactable messages before position `i`. */
  function CompactableBefore(ms: seq<Message>, i: nat): set<nat>
    requires i <= |ms|
  {
    set j: nat | j < i && !IsNonCompactable(ms[j])
  }

  lemma CompactableBeforeStep(ms: seq<Message>, i: nat)
    requires i < |ms|
    ensures CompactableBefore(ms, i + 1) == CompactableBefore(ms, i) + if IsNonCompactable(ms[i]) then {} else {i}
  {
  }

  /** One more message decided: a compactable message leaves the cut list, a pinned one stays. */
  lemma CutStep(ms: seq<Message>, i: nat)
    requires i < |ms|
    ensures MessageTokens(Cut(ms, i + 1))
         == MessageTokens(Cut(ms, i)) - if IsNonCompactable(ms[i]) then 0 else EstimateTokens(ms[i].content)
    ensures IsNonCompactable(ms[i]) ==> Cut(ms, i + 1) == Cut(ms, i)
  {
    var here := Pinned([ms[i]]);
    assert ms[..i + 1] == ms[..i] + [ms[i]];
    PinnedConcat(ms[..i], [ms[i]]);
    TokensConcat(Pinned(ms[..i]), here);
    TokensConcat(Pinned(ms[..i + 1]), ms[i + 1..]);
    TokensConcat(Pinned(ms[..i]), ms[i..]);
    assert ms[i..] == [ms[i]] + ms[i + 1..];
  }

  // ----- the methods of the filter -----

  class ConversationCompactionFilter {
    const config: CompactionConfig
    const llmCall: Option<LlmCall>

    constructor (config: CompactionConfig, llmCall: Option<LlmCall>)
      ensures this.config == config && this.llmCall == llmCall
    {
      this.config := config;
      this.llmCall := llmCall;
    }

    method EstimateTotal(ms: seq<Message>, systemPrompt: string) returns (total: nat)
      ensures total == TotalTokens(ms, systemPrompt)
    {
      total := EstimateTokens(systemPrompt);
      for i := 0 to |ms|
        invariant total + MessageTokens(ms[i..]) == TotalTokens(ms, systemPrompt)
      {
        total := total + EstimateTokens(ms[i].content);
      }
    }

    /** The messages to summarize and the ones to carry over, each in their order. */
    method SplitRegion(region: seq<Message>) returns (compactable: seq<Message>, nonCompactable: seq<Message>)
      ensures compactable == Compactable(region) && nonCompactable == Pinned(region)
    {
      compactable, nonCompactable := [], [];
      for i := 0 to |region|
        invariant compactable == Compactable(region[..i])
        invariant nonCompactable == Pinned(region[..i])
      {
        assert region[..i + 1] == region[..i] + [region[i]];
        CompactableConcat(region[..i], [region[i]]);
        PinnedConcat(region[..i], [region[i]]);
        if IsNonCompactable(region[i]) {
          nonCompactable := nonCompactable + [region[i]];
        } else {
          compactable := compactable + [region[i]];
        }
      }
      assert region[..|region|] == region;
    }

    method CollectDialogLines(ms: seq<Message>) returns (dialogLines: seq<string>)
      ensures dialogLines == DialogLines(ms)
    {
      dialogLines := [];
      for i := 0 to |ms|
        invariant dialogLines == DialogLines(ms[..i])
      {
        assert ms[..i + 1] == ms[..i] + [ms[i]];
        DialogLinesConcat(ms[..i], [ms[i]]);
        dialogLines := dialogLines + [ms[i].role + ": " + ms[i].content];
      }
      assert ms[..|ms|] == ms;
    }

    method SummarizeOldest(ms: seq<Message>, llm: LlmCall) returns (result: Result<seq<Message>, string>)
      ensures result == Summarize(ms, config.preserveRecentPairs, llm)
    {
      var preserve := config.preserveRecentPairs * 2 + 1;
      if preserve < 1 { preserve := 1; }
      if |ms| <= preserve {
        return Success(ms);
      }
      var region := ms[..|ms| - preserve];
      var preserved := ms[|ms| - preserve..];
      var compactable, nonCompactable := SplitRegion(region);
      if compactable == [] {
        return Success(ms);
      }
      var dialogLines := CollectDialogLines(compactable);
      match llm(SUMMARIZE_PROMPT, Join(dialogLines, "\n")) {
        case Failure(error) => return Failure(error);
        case Success(summary) => return Success([SummaryMessage(summary)] + nonCompactable + preserved);
      }
    }

    method EmergencyTruncate(ms: seq<Message>, systemPrompt: string) returns (result: seq<Message>)
      requires ms != []
      ensures result == Truncate(ms, config.thresholdTokens - EstimateTokens(systemPrompt))
    {
      var budget := config.thresholdTokens - EstimateTokens(systemPrompt);
      if budget <= 0 {
        var nonCompactable := SelectPinned(ms[..|ms| - 1]);
        NothingFitsNoBudget(ms, budget, 0);
        assert ms[|ms| - 1..] == [ms[|ms| - 1]];
        return nonCompactable + [ms[|ms| - 1]];
      }
      var dropped := DropOldest(ms, budget);
      result := WithoutDropped(ms, dropped, CutPoint(ms, budget, 0));
    }

    method SelectPinned(ms: seq<Message>) returns (result: seq<Message>)
      ensures result == Pinned(ms)
    {
      result := [];
      for i := 0 to |ms|
        invariant result == Pinned(ms[..i])
      {
        assert ms[..i + 1] == ms[..i] + [ms[i]];
        PinnedConcat(ms[..i], [ms[i]]);
        if IsNonCompactable(ms[i]) {
          result := result + [ms[i]];
        }
      }
      assert ms[..|ms|] == ms;
    }

    method SumTokens(ms: seq<Message>) returns (total: nat)
      ensures total == MessageTokens(ms)
    {
      total := 0;
      for i := 0 to |ms|
        invariant total + MessageTokens(ms[i..]) == MessageTokens(ms)
      {
        total := total + EstimateTokens(ms[i].content);
      }
    }

    /** Drops compactable messages, oldest first, until the rest fits. */
    method DropOldest(ms: seq<Message>, budget: int) returns (dropped: set<nat>)
      requires ms != []
      ensures dropped == CompactableBefore(ms, CutPoint(ms, budget, 0))
    {
      var total: int := SumTokens(ms);
      dropped := {};
      var i := 0;
      assert Cut(ms, 0) == ms;
      while i < |ms| - 1
        invariant 0 <= i < |ms|
        invariant dropped == CompactableBefore(ms, i)
        invariant total == MessageTokens(Cut(ms, i))
        invariant CutPoint(ms, budget, 0) == CutPoint(ms, budget, i)
      {
        if total <= budget {
          break;
        }
        CutStep(ms, i);
        CompactableBeforeStep(ms, i);
        if !IsNonCompactable(ms[i]) {
          total := total - EstimateTokens(ms[i].content);
          dropped := dropped + {i};
        }
        i := i + 1;
      }
    }

    /** The messages whose position is not in `dropped`. */
    method WithoutDropped(ms: seq<Message>, dropped: set<nat>, ghost i: nat) returns (result: seq<Message>)
      requires i <= |ms|
      requires dropped == CompactableBefore(ms, i)
      ensures result == Cut(ms, i)
    {
      result := [];
      for j := 0 to |ms|
        invariant j <= i ==> result == Pinned(ms[..j])
        invariant j > i ==> result == Pinned(ms[..i]) + ms[i..j]
      {
        assert ms[..j + 1] == ms[..j] + [ms[j]];
        PinnedConcat(ms[..j], [ms[j]]);
        if j !in dropped {
          result := result + [ms[j]];
        }
      }
    }

    /** Applies the tiers one after the other until the messages fit. */
    method Filter(input: seq<Message>, systemPrompt: string)
      returns (messages: seq<Message>, prompt: string)
      ensures messages == Compact(config, llmCall, input, systemPrompt)
      ensures prompt == systemPrompt
    {
      messages, prompt := input, systemPrompt;
      if !config.enabled || messages == [] {
        return;
      }
      var total := EstimateTotal(messages, systemPrompt);
      if total <= config.thresholdTokens {
        return;
      }
      if config.tier1Enabled {
        CollapseKeepsLastIff(messages, config.preserveRecentPairs);
        messages := CollapseToolResults(messages, config.preserveRecentPairs);
        total := EstimateTotal(messages, systemPrompt);
        if total <= config.thresholdTokens {
          return;
        }
      }
      if config.tier2Enabled && llmCall.Some? {
        var summarized := SummarizeOldest(messages, llmCall.value);
        if summarized.Success? {
          messages := summarized.value;
          total := EstimateTotal(messages, systemPrompt);
          if total <= config.thresholdTokens {
            return;
          }
        }
      }
      if config.tier3Enabled {
        messages := EmergencyTruncate(messages, systemPrompt);
      }
    }
  }

  /** The tiers come in turn, each only if it is enabled and the messages do not fit yet. */
  lemma FirstFittingTier(config: CompactionConfig, llm: Option<LlmCall>, ms: seq<Message>, systemPrompt: string)
    ensures
      var result := Compact(config, llm, ms, systemPrompt);
      var collapsed := Collapse(ms, config.preserveRecentPairs);
      var ms1 := if config.tier1Enabled then collapsed else ms;
      if !config.enabled || ms == [] || Fits(config, ms, systemPrompt) then result == ms
      else if config.tier1Enabled && Fits(config, collapsed, systemPrompt) then result == collapsed
      else
        var reply := if config.tier2Enabled && llm.Some? then Summarize(ms1, config.preserveRecentPairs, llm.value)
                     else Failure("");
        var ms2 := if reply.Success? then reply.value else ms1;
        if reply.Success? && Fits(config, reply.value, systemPrompt) then result == reply.value
        else if !config.tier3Enabled || ms2 == [] then result == ms2
        else result == Truncate(ms2, config.thresholdTokens - EstimateTokens(systemPrompt))
  {
  }

  // ----- what tier 3 guarantees -----

  lemma {:induction false} NothingFitsNoBudget(ms: seq<Message>, budget: int, i: nat)
    requires i < |ms|
    requires budget <= 0
    ensures CutPoint(ms, budget, i) == |ms| - 1
    decreases |ms| - i
  {
    TokensConcat(Pinned(ms[..i]), ms[i..]);
    if i < |ms| - 1 {
      NothingFitsNoBudget(ms, budget, i + 1);
    }
  }

  lemma {:induction false} CutPointLeast(ms: seq<Message>, budget: int, i: nat, j: nat)
    requires i < |ms| && i <= j < CutPoint(ms, budget, i)
    ensures MessageTokens(Cut(ms, j)) > budget
    decreases |ms| - i
  {
    if i < j {
      CutPointLeast(ms, budget, i + 1, j);
    }
  }

  lemma {:induction false} CutPointFits(ms: seq<Message>, budget: int, i: nat)
    requires i < |ms|
    ensures MessageTokens(Cut(ms, CutPoint(ms, budget, i))) <= budget || CutPoint(ms, budget, i) == |ms| - 1
    decreases |ms| - i
  {
    if i < |ms| - 1 {
      CutPointFits(ms, budget, i + 1);
    }
  }

  /** Emergency truncation drops an initial segment of the compactable messages and no more of it than the
      budget forces: every shorter initial segment leaves too much. */
  lemma TruncateDropsLeast(ms: seq<Message>, budget: int)
    requires ms != []
    ensures exists i: nat ::
              && i < |ms|
              && Truncate(ms, budget) == Cut(ms, i)
              && (MessageTokens(Cut(ms, i)) <= budget || i == |ms| - 1)
              && forall j: nat :: j < i ==> MessageTokens(Cut(ms, j)) > budget
  {
    var i := CutPoint(ms, budget, 0);
    CutPointFits(ms, budget, 0);
    forall j: nat | j < i ensures MessageTokens(Cut(ms, j)) > budget {
      CutPointLeast(ms, budget, 0, j);
    }
    assert i < |ms| && Truncate(ms, budget) == Cut(ms, i);
  }

  lemma TruncateOutcome(ms: seq<Message>, budget: int)
    requires ms != []
    ensures var result := Truncate(ms, budget);
            && result != []
            && Last(result) == Last(ms)
            && Pinned(result) == Pinned(ms)
            && (MessageTokens(result) <= budget || OnlyPinnedBeforeLast(result))
  {
    var i := CutPoint(ms, budget, 0);
    CutPointFits(ms, budget, 0);
    PinnedOfPinned(ms[..i]);
    PinnedConcat(Pinned(ms[..i]), ms[i..]);
    PinnedConcat(ms[..i], ms[i..]);
    assert ms == ms[..i] + ms[i..];
    if i == |ms| - 1 {
      assert Truncate(ms, budget)[..|Truncate(ms, budget)| - 1] == Pinned(ms[..i]);
    }
  }

  // ----- what tiers 1 and 2 guarantee -----

  predicate NoPinnedCollapsedFrom(ms: seq<Message>, c: nat, i: nat) {
    forall k: nat :: i <= k < |ms| && InCollapsedPair(ms, c, k) ==> !IsNonCompactable(ms[k])
  }

  lemma PinnedHead(m: Message, rest: seq<Message>)
    ensures Pinned([m] + rest) == (if IsNonCompactable(m) then [m] else []) + Pinned(rest)
  {
    assert ([m] + rest)[1..] == rest;
  }

  /** `Pinned` of a suffix, taken apart at the front. */
  lemma PinnedSuffix(ms: seq<Message>, i: nat)
    requires i < |ms|
    ensures Pinned(ms[i..]) == (if IsNonCompactable(ms[i]) then [ms[i]] else []) + Pinned(ms[i + 1..])
  {
    PinnedHead(ms[i], ms[i + 1..]);
    assert ms[i..] == [ms[i]] + ms[i + 1..];
  }

  lemma {:induction false} CollapseFromPinned(ms: seq<Message>, c: nat, i: nat)
    requires i <= |ms|
    requires !CollapsedResult(ms, c, i)
    ensures if NoPinnedCollapsedFrom(ms, c, i)
            then Pinned(CollapseFrom(ms, c, i)) == Pinned(ms[i..])
            else |Pinned(CollapseFrom(ms, c, i))| < |Pinned(ms[i..])|
    decreases |ms| - i
  {
    if i == |ms| {
    } else if CollapsedCall(ms, c, i) {
      NewIndexSkipsPair(ms, c, i);
      CollapseFromPinned(ms, c, i + 2);
      PinnedSuffix(ms, i);
      PinnedSuffix(ms, i + 1);
      PinnedHead(PairSummary(ms[i], ms[i + 1]), CollapseFrom(ms, c, i + 2));
      assert InCollapsedPair(ms, c, i) && InCollapsedPair(ms, c, i + 1);
      assert NoPinnedCollapsedFrom(ms, c, i) <==>
        NoPinnedCollapsedFrom(ms, c, i + 2) && !IsNonCompactable(ms[i]) && !IsNonCompactable(ms[i + 1]);
    } else {
      CollapseFromPinned(ms, c, i + 1);
      PinnedSuffix(ms, i);
      PinnedHead(ms[i], CollapseFrom(ms, c, i + 1));
      assert NoPinnedCollapsedFrom(ms, c, i) <==> NoPinnedCollapsedFrom(ms, c, i + 1);
    }
  }

  /** No message of a pair that tier 1 collapses is marked as non-compactable. */
  predicate NoPinnedCollapsed(ms: seq<Message>, preserve: int) {
    NoPinnedCollapsedFrom(ms, CollapseCount(PairCount(ms), preserve), 0)
  }

  /** Tier 1 preserves the non-compactable messages exactly when none of them is part of an old pair;
      it does not look at the mark. */
  lemma CollapseKeepsPinnedIff(ms: seq<Message>, preserve: int)
    ensures Pinned(Collapse(ms, preserve)) == Pinned(ms) <==> NoPinnedCollapsed(ms, preserve)
  {
    CollapseFromPinned(ms, CollapseCount(PairCount(ms), preserve), 0);
    assert ms[0..] == ms;
  }

  /** Summarizing keeps the non-compactable messages, their order and the last messages, and replaces at
      least one message by the summary; it also says where every non-compactable message lands. */
  lemma SummarizeOutcome(ms: seq<Message>, preserve: int, llm: LlmCall)
    requires ms != []
    requires Summarize(ms, preserve, llm).Success?
    ensures
      var result := Summarize(ms, preserve, llm).value;
      var kept := if |ms| <= PreserveCount(preserve) then |ms| else PreserveCount(preserve);
      && Pinned(result) == Pinned(ms)
      && kept <= |result| <= |ms|
      && result[|result| - kept..] == ms[|ms| - kept..]
      && Last(result) == Last(ms)
      && (Summarizes(ms, preserve) ==>
            forall k: nat :: k < |ms| && IsNonCompactable(ms[k]) ==>
              0 <= NewPlace(ms, preserve, k) < |result| && result[NewPlace(ms, preserve, k)] == ms[k])
  {
    forall k: nat | Summarizes(ms, preserve) && k < |ms| && IsNonCompactable(ms[k])
      ensures
        var result := Summarize(ms, preserve, llm).value;
        0 <= NewPlace(ms, preserve, k) < |result| && result[NewPlace(ms, preserve, k)] == ms[k]
    {
      PinnedPosition(ms, preserve, llm, k);
    }
    if |ms| > PreserveCount(preserve) {
      var cut := |ms| - PreserveCount(preserve);
      if Compactable(ms[..cut]) != [] {
        var summary := llm(SUMMARIZE_PROMPT, Join(DialogLines(Compactable(ms[..cut])), "\n")).value;
        SummarizedList(ms, cut, SummaryMessage(summary));
      }
    }
  }

  /** With nothing compactable before the preserved messages, the model is not asked. */
  lemma NothingToSummarize(ms: seq<Message>, preserve: int, llm: LlmCall)
    requires forall i: nat :: i < |ms| - 1 && i < |ms| - (2 * preserve + 1) ==> IsNonCompactable(ms[i])
    ensures Summarize(ms, preserve, llm) == Success(ms)
  {
    if |ms| > PreserveCount(preserve) {
      NoneCompactable(ms[..|ms| - PreserveCount(preserve)]);
    }
  }

  lemma {:induction false} NoneCompactable(ms: seq<Message>)
    requires forall j :: 0 <= j < |ms| ==> IsNonCompactable(ms[j])
    ensures Compactable(ms) == []
  {
    if ms != [] {
      NoneCompactable(ms[1..]);
    }
  }

  /** A summary is made: there is something to summarize before the preserved messages. */
  predicate Summarizes(ms: seq<Message>, preserve: int) {
    |ms| > PreserveCount(preserve) && Compactable(ms[..|ms| - PreserveCount(preserve)]) != []
  }

  /** The compactable messages before position `k` that a summary replaces. */
  function ReplacedBefore(ms: seq<Message>, preserve: int, k: nat): seq<Message>
    requires k <= |ms|
  {
    var cut := if |ms| > PreserveCount(preserve) then |ms| - PreserveCount(preserve) else 0;
    Compactable(ms[..if k < cut then k else cut])
  }

  /** The summary comes in front of message `k`, and the replaced messages before it are gone. */
  function NewPlace(ms: seq<Message>, preserve: int, k: nat): int
    requires k <= |ms|
  {
    k + 1 - |ReplacedBefore(ms, preserve, k)|
  }

  lemma {:induction false} PinnedAt(ms: seq<Message>, k: nat)
    requires k < |ms| && IsNonCompactable(ms[k])
    ensures |Pinned(ms[..k])| < |Pinned(ms)| && Pinned(ms)[|Pinned(ms[..k])|] == ms[k]
  {
    PinnedConcat(ms[..k], ms[k..]);
    assert ms == ms[..k] + ms[k..];
    PinnedSuffix(ms, k);
  }

  /** The parts of a list with a summary: the summary, the non-compactable messages of the region, and the
      preserved messages, which all move by the same distance. */
  lemma SummaryParts(ms: seq<Message>, preserve: int, llm: LlmCall)
    requires Summarizes(ms, preserve) && Summarize(ms, preserve, llm).Success?
    ensures
      var result, cut := Summarize(ms, preserve, llm).value, |ms| - PreserveCount(preserve);
      var n := 1 + |Pinned(ms[..cut])|;
      && n == cut + 1 - |Compactable(ms[..cut])|
      && |result| == n + |ms| - cut
      && !IsNonCompactable(result[0])
      && result[1..n] == Pinned(ms[..cut])
      && forall j :: n <= j < |result| ==> result[j] == ms[j + cut - n]
  {
    SplitLength(ms[..|ms| - PreserveCount(preserve)]);
  }

  /** Where a non-compactable message lands when a summary is made, wherever it stood, and that it keeps its
      position exactly when the summary replaces one message before it. */
  lemma PinnedPosition(ms: seq<Message>, preserve: int, llm: LlmCall, k: nat)
    requires Summarizes(ms, preserve) && Summarize(ms, preserve, llm).Success?
    requires k < |ms| && IsNonCompactable(ms[k])
    ensures
      var result, place := Summarize(ms, preserve, llm).value, NewPlace(ms, preserve, k);
      && 0 <= place < |result| && result[place] == ms[k]
      && (place == k <==> |ReplacedBefore(ms, preserve, k)| == 1)
  {
    var cut := |ms| - PreserveCount(preserve);
    SummaryParts(ms, preserve, llm);
    if k < cut {
      PinnedAt(ms[..cut], k);
      assert ms[..cut][..k] == ms[..k];
      SplitLength(ms[..k]);
      var n := 1 + |Pinned(ms[..cut])|;
      var place := NewPlace(ms, preserve, k);
      assert Summarize(ms, preserve, llm).value[1..n][place - 1] == Pinned(ms[..cut])[place - 1];
    }
  }

  /** Every non-compactable message is found where it was. */
  ghost predicate KeepsPositions(ms: seq<Message>, result: seq<Message>) {
    forall k: nat :: k < |ms| && IsNonCompactable(ms[k]) ==> k < |result| && result[k] == ms[k]
  }

  /** Before every non-compactable message, the summary replaces one message. */
  ghost predicate OneReplacedBefore(ms: seq<Message>, preserve: int) {
    forall k: nat :: k < |ms| && IsNonCompactable(ms[k]) ==> |ReplacedBefore(ms, preserve, k)| == 1
  }

  /** The last non-compactable message. */
  lemma {:induction false} LastPinned(ms: seq<Message>, i: nat) returns (k: nat)
    requires i < |ms| && IsNonCompactable(ms[i])
    ensures i <= k < |ms| && IsNonCompactable(ms[k])
    ensures forall j :: k < j < |ms| ==> !IsNonCompactable(ms[j])
    decreases |ms| - i
  {
    k := i;
    if j: nat :| i < j < |ms| && IsNonCompactable(ms[j]) {
      k := LastPinned(ms, j);
    }
  }

  lemma ReplacedBeforeGrows(ms: seq<Message>, preserve: int, i: nat, k: nat)
    requires i <= k <= |ms|
    ensures |ReplacedBefore(ms, preserve, i)| <= |ReplacedBefore(ms, preserve, k)|
  {
    var cut := if |ms| > PreserveCount(preserve) then |ms| - PreserveCount(preserve) else 0;
    var a, b := if i < cut then i else cut, if k < cut then k else cut;
    assert ms[..b] == ms[..a] + ms[a..b];
    CompactableConcat(ms[..a], ms[a..b]);
  }

  /** If the summary replaces two messages or more before some non-compactable message, then the last one
      moves forward, and no other one takes its place. */
  lemma LastPinnedMoves(ms: seq<Message>, preserve: int, llm: LlmCall, i: nat)
    requires Summarizes(ms, preserve) && Summarize(ms, preserve, llm).Success?
    requires i < |ms| && IsNonCompactable(ms[i]) && |ReplacedBefore(ms, preserve, i)| > 1
    ensures !KeepsPositions(ms, Summarize(ms, preserve, llm).value)
  {
    var result, cut := Summarize(ms, preserve, llm).value, |ms| - PreserveCount(preserve);
    var k := LastPinned(ms, i);
    ReplacedBeforeGrows(ms, preserve, i, k);
    SummaryParts(ms, preserve, llm);
    PinnedPosition(ms, preserve, llm, k);
    var n := 1 + |Pinned(ms[..cut])|;
    if k < cut {
      var rest := ms[k + 1..cut];
      assert ms[..cut] == ms[..k + 1] + rest;
      PinnedConcat(ms[..k + 1], rest);
      NonePinned(rest);
      assert ms[..k + 1] == ms[..k] + [ms[k]];
      PinnedConcat(ms[..k], [ms[k]]);
      SplitLength(ms[..k]);
    }
    assert n <= k && k < k + cut - n + 1;
    if k < |result| {
      assert result[k] == ms[k + cut - n];
    }
  }

  lemma {:induction false} NonePinned(ms: seq<Message>)
    requires forall j :: 0 <= j < |ms| ==> !IsNonCompactable(ms[j])
    ensures Pinned(ms) == []
  {
    if ms != [] {
      NonePinned(ms[1..]);
    }
  }

  /** If it replaces none, the list starts with a non-compactable message, and the summary takes its place. */
  lemma FirstPinnedMoves(ms: seq<Message>, preserve: int, llm: LlmCall, i: nat)
    requires Summarizes(ms, preserve) && Summarize(ms, preserve, llm).Success?
    requires i < |ms| && IsNonCompactable(ms[i]) && |ReplacedBefore(ms, preserve, i)| == 0
    ensures !KeepsPositions(ms, Summarize(ms, preserve, llm).value)
  {
    SummaryParts(ms, preserve, llm);
    if i > 0 {
      assert ms[..i][0] == ms[0];
    }
    assert IsNonCompactable(ms[0]);
  }

  /** All non-compactable messages keep their positions exactly when the summary replaces one message, and no
      more, before each of them. */
  lemma PositionsKeptIff(ms: seq<Message>, preserve: int, llm: LlmCall)
    requires Summarizes(ms, preserve) && Summarize(ms, preserve, llm).Success?
    ensures KeepsPositions(ms, Summarize(ms, preserve, llm).value) <==> OneReplacedBefore(ms, preserve)
  {
    var result := Summarize(ms, preserve, llm).value;
    if OneReplacedBefore(ms, preserve) {
      forall k: nat | k < |ms| && IsNonCompactable(ms[k]) ensures k < |result| && result[k] == ms[k] {
        PinnedPosition(ms, preserve, llm, k);
      }
    } else {
      var i: nat :| i < |ms| && IsNonCompactable(ms[i]) && |ReplacedBefore(ms, preserve, i)| != 1;
      if |ReplacedBefore(ms, preserve, i)| == 0 {
        FirstPinnedMoves(ms, preserve, llm, i);
      } else {
        LastPinnedMoves(ms, preserve, llm, i);
      }
    }
  }

  function Marked(role: string, key: string): Message {
    Message(role, "", None, None, Some(map[key := MetaValue("", true)]), None)
  }

  /** A non-compactable first message is moved behind the summary of what came after it. */
  lemma PinnedMessageMoves(llm: LlmCall)
    requires forall prompt, dialog :: llm(prompt, dialog).Success?
    ensures
      var pinned, plain := Marked("user", "non_compactable"), PlainMessage("user", "");
      var result := Summarize([pinned, plain, plain], 0, llm).value;
      && |result| == 3 && result[1] == pinned && result[0] != pinned && result[2] == plain
  {
    var pinned, plain := Marked("user", "non_compactable"), PlainMessage("user", "");
    var ms := [pinned, plain, plain];
    assert ms[..2] == [pinned, plain] && ms[2..] == [plain];
    assert [pinned, plain][1..] == [plain] && [plain][1..] == [];
    assert Compactable([pinned, plain]) == Compactable([plain]) == [plain];
    assert Pinned([pinned, plain]) == [pinned] + Pinned([plain]) && Pinned([plain]) == [];
  }

  /** A non-compactable last message moves forward when two messages before it are summarized. */
  lemma PreservedMessageMoves(llm: LlmCall)
    requires forall prompt, dialog :: llm(prompt, dialog).Success?
    ensures
      var pinned, plain := Marked("user", "non_compactable"), PlainMessage("user", "");
      var result := Summarize([plain, plain, pinned], 0, llm).value;
      |result| == 2 && result[1] == pinned
  {
    var pinned, plain := Marked("user", "non_compactable"), PlainMessage("user", "");
    var ms := [plain, plain, pinned];
    assert ms[..2] == [plain, plain] && ms[2..] == [pinned];
    assert [plain, plain][1..] == [plain] && [plain][1..] == [];
    assert Compactable([plain, plain]) == [plain] + Compactable([plain]);
    assert Pinned([plain, plain]) == Pinned([plain]) == [];
  }

  lemma {:induction false} CompactableLine(ms: seq<Message>, k: nat) returns (j: nat)
    requires k < |ms| && !IsNonCompactable(ms[k])
    ensures j < |DialogLines(Compactable(ms))|
    ensures DialogLines(Compactable(ms))[j] == ms[k].role + ": " + ms[k].content
  {
    var rest := Compactable(ms[1..]);
    if k == 0 {
      j := 0;
      assert Compactable(ms) == [ms[0]] + rest;
    } else {
      j := CompactableLine(ms[1..], k - 1);
      if IsNonCompactable(ms[0]) {
        assert Compactable(ms) == rest;
      } else {
        assert Compactable(ms) == [ms[0]] + rest && Compactable(ms)[1..] == rest;
        j := j + 1;
      }
    }
  }

  /** What a summary replaces was shown to the model: each compactable message before the preserved ones, of
      which there is at least one, is a line of the dialog text. A failing call fails; else one message that
      ends with the reply takes the place of all of them. */
  lemma SummaryCoversDropped(ms: seq<Message>, preserve: int, llm: LlmCall, k: nat)
    requires k < |ms| - 1 && k < |ms| - (2 * preserve + 1) && !IsNonCompactable(ms[k])
    ensures
      var kept := if preserve > 0 then 2 * preserve + 1 else 1;
      exists dialog ::
        && Contains(dialog, ms[k].role + ": " + ms[k].content)
        && (Summarize(ms, preserve, llm).Success? <==> llm(SUMMARIZE_PROMPT, dialog).Success?)
        && (llm(SUMMARIZE_PROMPT, dialog).Success? ==>
              var result, reply := Summarize(ms, preserve, llm).value, llm(SUMMARIZE_PROMPT, dialog).value;
              && result == [SummaryMessage(reply)] + Pinned(ms[..|ms| - kept]) + ms[|ms| - kept..]
              && result[0].role == "system"
              && "[Conversation summary]: " <= result[0].content && EndsWith(result[0].content, reply))
  {
    var region := ms[..|ms| - PreserveCount(preserve)];
    var j := CompactableLine(region, k);
    var lines := DialogLines(Compactable(region));
    JoinContains(lines, "\n", j);
    var dialog := Join(lines, "\n");
    assert Contains(dialog, ms[k].role + ": " + ms[k].content);
    if llm(SUMMARIZE_PROMPT, dialog).Success? {
      SummaryText(llm(SUMMARIZE_PROMPT, dialog).value);
    }
  }

  lemma SummaryText(reply: string)
    ensures SummaryMessage(reply).role == "system"
    ensures "[Conversation summary]: " <= SummaryMessage(reply).content
    ensures EndsWith(SummaryMessage(reply).content, reply)
  {
    var content := SummaryMessage(reply).content;
    assert content[|content| - |reply|..] == reply;
  }

  lemma SummarizedList(ms: seq<Message>, cut: nat, summary: Message)
    requires cut < |ms| && Compactable(ms[..cut]) != [] && !IsNonCompactable(summary)
    ensures
      var result := [summary] + Pinned(ms[..cut]) + ms[cut..];
      && Pinned(result) == Pinned(ms)
      && |ms| - cut <= |result| <= |ms|
      && result[|result| - (|ms| - cut)..] == ms[cut..]
  {
    var kept, tail := Pinned(ms[..cut]), ms[cut..];
    assert [summary] + kept + tail == [summary] + (kept + tail);
    PinnedHead(summary, kept + tail);
    PinnedConcat(kept, tail);
    PinnedConcat(ms[..cut], tail);
    PinnedOfPinned(ms[..cut]);
    assert ms == ms[..cut] + tail;
    SplitLength(ms[..cut]);
  }

  lemma {:induction false} SplitLength(ms: seq<Message>)
    ensures |Pinned(ms)| + |Compactable(ms)| == |ms|
  {
    if ms != [] {
      SplitLength(ms[1..]);
    }
  }

  // ----- the main results about the filter -----

  /** Tier 1 runs. */
  predicate Collapses(config: CompactionConfig, ms: seq<Message>, systemPrompt: string) {
    config.enabled && ms != [] && !Fits(config, ms, systemPrompt) && config.tier1Enabled
  }

  lemma Tier2Outcome(config: CompactionConfig, llm: Option<LlmCall>, ms: seq<Message>)
    requires ms != []
    ensures
      var result := AfterTier2(config, llm, ms);
      result != [] && Last(result) == Last(ms) && Pinned(result) == Pinned(ms)
  {
    if config.tier2Enabled && llm.Some? && Summarize(ms, config.preserveRecentPairs, llm.value).Success? {
      SummarizeOutcome(ms, config.preserveRecentPairs, llm.value);
    }
  }

  lemma Tiers2And3Outcome(config: CompactionConfig, llm: Option<LlmCall>, ms1: seq<Message>, systemPrompt: string)
    requires ms1 != []
    ensures
      var result := AfterTiers2And3(config, llm, ms1, systemPrompt);
      && result != []
      && Last(result) == Last(ms1)
      && Pinned(result) == Pinned(ms1)
      && (config.tier3Enabled ==> Fits(config, result, systemPrompt) || OnlyPinnedBeforeLast(result))
  {
    if !Fits(config, ms1, systemPrompt) {
      Tier2Outcome(config, llm, ms1);
      TruncateOutcome(AfterTier2(config, llm, ms1), config.thresholdTokens - EstimateTokens(systemPrompt));
    }
  }

  /** Whatever the model replies and even if it fails: with tier 3 enabled, the result fits the threshold
      or nothing but the last message and non-compactable ones is left. */
  lemma CompactFitsOrIsMinimal(config: CompactionConfig, llm: Option<LlmCall>, ms: seq<Message>, systemPrompt: string)
    requires config.enabled && config.tier3Enabled && ms != []
    ensures
      var result := Compact(config, llm, ms, systemPrompt);
      && result != []
      && (Fits(config, result, systemPrompt) || OnlyPinnedBeforeLast(result))
  {
    if !Fits(config, ms, systemPrompt) {
      CollapseKeepsLastIff(ms, config.preserveRecentPairs);
      Tiers2And3Outcome(config, llm, AfterTier1(config, ms), systemPrompt);
    }
  }

  /** The last message survives verbatim exactly when tier 1 does not run, or preserves some pair, or the
      messages do not end with a pair. */
  lemma CompactKeepsLastIff(config: CompactionConfig, llm: Option<LlmCall>, ms: seq<Message>, systemPrompt: string)
    requires ms != []
    ensures Compact(config, llm, ms, systemPrompt) != []
    ensures Last(Compact(config, llm, ms, systemPrompt)) == Last(ms)
       <==> !(Collapses(config, ms, systemPrompt) && config.preserveRecentPairs <= 0 && EndsWithPair(ms))
  {
    if config.enabled && !Fits(config, ms, systemPrompt) {
      CollapseKeepsLastIff(ms, config.preserveRecentPairs);
      Tiers2And3Outcome(config, llm, AfterTier1(config, ms), systemPrompt);
    }
  }

  /** The non-compactable messages survive, all of them and in order, exactly when tier 1 does not run or
      collapses none of them; tiers 2 and 3 never lose one. */
  lemma CompactKeepsPinnedIff(config: CompactionConfig, llm: Option<LlmCall>, ms: seq<Message>, systemPrompt: string)
    ensures Pinned(Compact(config, llm, ms, systemPrompt)) == Pinned(ms)
       <==> !Collapses(config, ms, systemPrompt) || NoPinnedCollapsed(ms, config.preserveRecentPairs)
  {
    if config.enabled && ms != [] && !Fits(config, ms, systemPrompt) {
      CollapseKeepsPinnedIff(ms, config.preserveRecentPairs);
      CollapseKeepsLastIff(ms, config.preserveRecentPairs);
      Tiers2And3Outcome(config, llm, AfterTier1(config, ms), systemPrompt);
    }
  }

  // ----- inputs on which tier 1 loses a message -----

  function ToolCallPair(result: Message): seq<Message> {
    [Marked("assistant", "tool_call"), result]
  }

  /** A filter that preserves no pair and is always over its threshold. */
  const STRICT := CompactionConfig(true, 0, 0, true, false, false)

  lemma StrictCollapsesPair(result: Message, systemPrompt: string)
    requires result.role == "tool"
    ensures Collapses(STRICT, ToolCallPair(result), systemPrompt)
    ensures EndsWithPair(ToolCallPair(result)) && InCollapsedPair(ToolCallPair(result), 1, 1)
    ensures CollapseCount(PairCount(ToolCallPair(result)), 0) == 1
  {
    var ms := ToolCallPair(result);
    assert IsPair(ms, 0) && !IsPair(ms, 1);
    assert PairsBefore(ms, 1) == 1 && PairsBefore(ms, 2) == 1;
    assert CollapsedCall(ms, 1, 0);
  }

  /** A list that ends with a tool result loses it when no pair is preserved. */
  lemma LastMessageIsLost(systemPrompt: string)
    ensures
      var ms := ToolCallPair(PlainMessage("tool", ""));
      && Compact(STRICT, None, ms, systemPrompt) != []
      && Last(Compact(STRICT, None, ms, systemPrompt)) != Last(ms)
  {
    var ms := ToolCallPair(PlainMessage("tool", ""));
    StrictCollapsesPair(PlainMessage("tool", ""), systemPrompt);
    CompactKeepsLastIff(STRICT, None, ms, systemPrompt);
  }

  /** A non-compactable tool result is lost with its pair. */
  lemma PinnedMessageIsLost(systemPrompt: string)
    ensures
      var ms := ToolCallPair(Marked("tool", "non_compactable"));
      Pinned(Compact(STRICT, None, ms, systemPrompt)) != Pinned(ms)
  {
    var ms := ToolCallPair(Marked("tool", "non_compactable"));
    StrictCollapsesPair(Marked("tool", "non_compactable"), systemPrompt);
    assert IsNonCompactable(ms[1]);
    CompactKeepsPinnedIff(STRICT, None, ms, systemPrompt);
  }

  // ----- running the filter twice -----

  lemma PairsAfterTier1(ms: seq<Message>, preserve: int)
    ensures CollapseCount(PairCount(Collapse(ms, preserve)), preserve) == 0
    ensures |Collapse(ms, preserve)| == |ms| - CollapseCount(PairCount(ms), preserve)
    ensures CollapseCount(PairCount(ms), preserve) == 0 <==> Collapse(ms, preserve) == ms
  {
    CollapseCreatesNoPair(ms, preserve);
    CollapseFromLength(ms, CollapseCount(PairCount(ms), preserve), 0);
    if CollapseCount(PairCount(ms), preserve) == 0 {
      CollapseNothing(ms, 0);
    }
  }

  /** Tiers 2 and 3 never make a list longer. */
  lemma TiersShorten(config: CompactionConfig, llm: Option<LlmCall>, ms1: seq<Message>, systemPrompt: string)
    requires ms1 != []
    ensures |AfterTier2(config, llm, ms1)| <= |ms1|
    ensures |AfterTiers2And3(config, llm, ms1, systemPrompt)| <= |ms1|
  {
    Tier2Outcome(config, llm, ms1);
    if config.tier2Enabled && llm.Some? && Summarize(ms1, config.preserveRecentPairs, llm.value).Success? {
      SummarizeOutcome(ms1, config.preserveRecentPairs, llm.value);
    }
    var ms2 := AfterTier2(config, llm, ms1);
    var i := CutPoint(ms2, config.thresholdTokens - EstimateTokens(systemPrompt), 0);
    SplitLength(ms2[..i]);
  }

  lemma {:induction false} PinnedAll(ms: seq<Message>)
    requires forall i :: 0 <= i < |ms| ==> IsNonCompactable(ms[i])
    ensures Pinned(ms) == ms && Compactable(ms) == []
  {
    if ms != [] {
      PinnedAll(ms[1..]);
    }
  }

  /** A list with nothing but non-compactable messages before the last one is left alone by tiers 2 and 3. */
  lemma MinimalStays(config: CompactionConfig, llm: Option<LlmCall>, ms: seq<Message>, systemPrompt: string)
    requires ms != [] && OnlyPinnedBeforeLast(ms)
    ensures AfterTier2(config, llm, ms) == ms
    ensures AfterTiers2And3(config, llm, ms, systemPrompt) == ms
  {
    if |ms| > PreserveCount(config.preserveRecentPairs) {
      PinnedAll(ms[..|ms| - PreserveCount(config.preserveRecentPairs)]);
    }
    var i := CutPoint(ms, config.thresholdTokens - EstimateTokens(systemPrompt), 0);
    PinnedAll(ms[..i]);
    assert ms[..i] + ms[i..] == ms;
  }

  /** What the second run finds left to do: too many tokens, and an old pair to collapse or, without tier 3,
      a summary to make. */
  predicate RunsAgain(config: CompactionConfig, llm: Option<LlmCall>, ms: seq<Message>, systemPrompt: string) {
    && config.enabled && ms != [] && !Fits(config, ms, systemPrompt)
    && (|| (config.tier1Enabled && CollapseCount(PairCount(ms), config.preserveRecentPairs) > 0)
        || (!config.tier3Enabled && AfterTier2(config, llm, ms) != ms))
  }

  lemma SecondRun(config: CompactionConfig, llm: Option<LlmCall>, ms: seq<Message>, systemPrompt: string)
    requires config.tier3Enabled && config.enabled && ms != [] ==>
               Fits(config, ms, systemPrompt) || OnlyPinnedBeforeLast(ms)
    ensures Compact(config, llm, ms, systemPrompt) == ms <==> !RunsAgain(config, llm, ms, systemPrompt)
  {
    if config.enabled && ms != [] && !Fits(config, ms, systemPrompt) {
      PairsAfterTier1(ms, config.preserveRecentPairs);
      CollapseKeepsLastIff(ms, config.preserveRecentPairs);
      TiersShorten(config, llm, AfterTier1(config, ms), systemPrompt);
      if AfterTier1(config, ms) == ms && config.tier3Enabled {
        MinimalStays(config, llm, ms, systemPrompt);
      }
    }
  }

  /** Running the whole filter twice is running it once exactly when the first result fits, or it has no old
      pair to collapse and, without tier 3, no summary to make. */
  lemma CompactTwiceIff(config: CompactionConfig, llm: Option<LlmCall>, ms: seq<Message>, systemPrompt: string)
    ensures
      var once := Compact(config, llm, ms, systemPrompt);
      Compact(config, llm, once, systemPrompt) == once <==> !RunsAgain(config, llm, once, systemPrompt)
  {
    if config.enabled && config.tier3Enabled && ms != [] {
      CompactFitsOrIsMinimal(config, llm, ms, systemPrompt);
    }
    SecondRun(config, llm, Compact(config, llm, ms, systemPrompt), systemPrompt);
  }

  /** Tier 3 can bring a tool call and a tool result together that were apart: the second run collapses them. */
  lemma NewPairIsCollapsedNext(systemPrompt: string)
    ensures
      var config := STRICT.(tier3Enabled := true);
      var call := Message("assistant", "", None, None,
                          Some(map["tool_call" := MetaValue("", true), "non_compactable" := MetaValue("", true)]), None);
      var once := Compact(config, None, [call, PlainMessage("user", ""), PlainMessage("tool", "")], systemPrompt);
      && once == [call, PlainMessage("tool", "")]
      && Compact(config, None, once, systemPrompt) != once
  {
    var config := STRICT.(tier3Enabled := true);
    var call := Message("assistant", "", None, None,
                        Some(map["tool_call" := MetaValue("", true), "non_compactable" := MetaValue("", true)]), None);
    var ms := [call, PlainMessage("user", ""), PlainMessage("tool", "")];
    assert !IsPair(ms, 0) && !IsPair(ms, 1) && !IsPair(ms, 2);
    assert PairsBefore(ms, 1) == 0;
    assert PairsBefore(ms, 2) == 0;
    CollapseNothing(ms, 0);
    NothingFitsNoBudget(ms, config.thresholdTokens - EstimateTokens(systemPrompt), 0);
    assert ms[..2] == [call, PlainMessage("user", "")] && ms[2..] == [PlainMessage("tool", "")];
    assert ms[..2][1..] == [PlainMessage("user", "")] && [PlainMessage("user", "")][1..] == [];
    assert Pinned(ms[..2]) == [call] + Pinned([PlainMessage("user", "")]) && Pinned([PlainMessage("user", "")]) == [];
    var once := [call, PlainMessage("tool", "")];
    assert Compact(config, None, ms, systemPrompt) == once;
    assert IsPair(once, 0) && !IsPair(once, 1);
    assert PairsBefore(once, 1) == 1;
    SecondRun(config, None, once, systemPrompt);
  }
}
