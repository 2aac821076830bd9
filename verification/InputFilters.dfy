/** input_filters.py: the quadratic truncation loop, compared with tier 3 of the compaction filter. */
module InputFilters {
  import opened Budget
  import opened Messages
  import opened Compaction

  type Estimator = string -> nat

  type Ratio = r: real | r > 0.0 witness 1.0

  /** `int(len(text) / chars_per_token)` */
  function CharEstimate(text: string, charsPerToken: Ratio): nat {
    assert |text| as real / charsPerToken >= 0.0;
    (|text| as real / charsPerToken).Floor
  }

  function CharEstimator(charsPerToken: Ratio): Estimator {
    text => CharEstimate(text, charsPerToken)
  }

  function EstimatedSum(ms: seq<Message>, estimate: Estimator): nat {
    if ms == [] then 0 else estimate(ms[0].content) + EstimatedSum(ms[1..], estimate)
  }

  /** The first position, from `i` on, whose suffix fits the budget; the last message always stays. */
  function TrimPoint(ms: seq<Message>, estimate: Estimator, budget: int, i: nat): nat
    requires i < |ms|
    ensures i <= TrimPoint(ms, estimate, budget, i) < |ms|
    decreases |ms| - i
  {
    if i == |ms| - 1 || EstimatedSum(ms[i..], estimate) <= budget then i
    else TrimPoint(ms, estimate, budget, i + 1)
  }

  /** The messages that a budget admits; without any budget only the last one. */
  function Trim(ms: seq<Message>, estimate: Estimator, budget: int): seq<Message>
    requires ms != []
  {
    if budget <= 0 then [Last(ms)] else ms[TrimPoint(ms, estimate, budget, 0)..]
  }

  method SumTokens(tokens: seq<nat>, ghost ms: seq<Message>, ghost estimate: Estimator) returns (total: nat)
    requires |tokens| == |ms| && forall i :: 0 <= i < |ms| ==> tokens[i] == estimate(ms[i].content)
    ensures total == EstimatedSum(ms, estimate)
  {
    total := 0;
    for i := 0 to |tokens|
      invariant total + EstimatedSum(ms[i..], estimate) == EstimatedSum(ms, estimate)
    {
      total := total + tokens[i];
    }
  }

  class MaxTokensFilter {
    const maxTokens: int
    const charsPerToken: Ratio

    constructor (maxTokens: int, charsPerToken: Ratio)
      ensures this.maxTokens == maxTokens && this.charsPerToken == charsPerToken
    {
      this.maxTokens := maxTokens;
      this.charsPerToken := charsPerToken;
    }

    /** Pops the oldest message until the rest fits, summing the whole list again for every test. */
    method Filter(ms: seq<Message>, systemPrompt: string) returns (result: seq<Message>, prompt: string)
      ensures prompt == systemPrompt
      ensures ms == [] ==> result == []
      ensures ms != [] ==>
                result == Trim(ms, CharEstimator(charsPerToken), maxTokens - CharEstimate(systemPrompt, charsPerToken))
    {
      prompt := systemPrompt;
      if ms == [] {
        return ms, prompt;
      }
      var cpt := charsPerToken;
      ghost var estimate: Estimator := CharEstimator(charsPerToken);
      var budget := maxTokens - CharEstimate(systemPrompt, cpt);
      if budget <= 0 {
        return [ms[|ms| - 1]], prompt;
      }
      var tokens: seq<nat> := [];
      for i := 0 to |ms|
        invariant |tokens| == i && forall j :: 0 <= j < i ==> tokens[j] == estimate(ms[j].content)
      {
        tokens := tokens + [CharEstimate(ms[i].content, cpt)];
      }
      var total := SumTokens(tokens, ms, estimate);
      assert ms[0..] == ms;
      if total <= budget {
        return ms, prompt;
      }
      result := ms;
      ghost var i := 0;
      while |result| > 1 && total > budget
        invariant i < |ms| && result == ms[i..]
        invariant |tokens| == |result| && forall j :: 0 <= j < |result| ==> tokens[j] == estimate(result[j].content)
        invariant total == EstimatedSum(result, estimate)
        invariant TrimPoint(ms, estimate, budget, 0) == TrimPoint(ms, estimate, budget, i)
        decreases |result|
      {
        result := result[1..];
        tokens := tokens[1..];
        i := i + 1;
        total := SumTokens(tokens, result, estimate);
      }
    }
  }

  // ----- the longest suffix -----

  lemma {:induction false} TrimPointLeast(ms: seq<Message>, estimate: Estimator, budget: int, i: nat, j: nat)
    requires i < |ms| && i <= j < TrimPoint(ms, estimate, budget, i)
    ensures EstimatedSum(ms[j..], estimate) > budget
    decreases |ms| - i
  {
    if i < j {
      TrimPointLeast(ms, estimate, budget, i + 1, j);
    }
  }

  lemma {:induction false} TrimPointFits(ms: seq<Message>, estimate: Estimator, budget: int, i: nat)
    requires i < |ms|
    ensures
      var k := TrimPoint(ms, estimate, budget, i);
      EstimatedSum(ms[k..], estimate) <= budget || k == |ms| - 1
    decreases |ms| - i
  {
    if i < |ms| - 1 {
      TrimPointFits(ms, estimate, budget, i + 1);
    }
  }

  /** What is kept is the longest suffix that a positive budget admits, and at least the last message; without
      a positive budget it is the last message alone, also if the messages are estimated at nothing. */
  lemma TrimIsLongest(ms: seq<Message>, estimate: Estimator, budget: int)
    requires ms != []
    ensures
      var kept := Trim(ms, estimate, budget);
      && kept != [] && IsTail(kept, ms)
      && (budget <= 0 ==> |kept| == 1)
      && (budget > 0 ==>
            && (EstimatedSum(kept, estimate) <= budget || |kept| == 1)
            && forall j: nat :: j < |ms| - |kept| ==> EstimatedSum(ms[j..], estimate) > budget)
  {
    if budget > 0 {
      var k := TrimPoint(ms, estimate, budget, 0);
      TrimPointFits(ms, estimate, budget, 0);
      forall j: nat | j < k ensures EstimatedSum(ms[j..], estimate) > budget {
        TrimPointLeast(ms, estimate, budget, 0, j);
      }
    }
  }

  // ----- comparison with emergency truncation -----

  lemma {:induction false} SharedSum(ms: seq<Message>)
    ensures EstimatedSum(ms, EstimateTokens) == MessageTokens(ms)
  {
    if ms != [] {
      SharedSum(ms[1..]);
    }
  }

  /** A cut of a list without non-compactable messages is a suffix. */
  lemma CutIsSuffix(ms: seq<Message>, i: nat)
    requires i <= |ms|
    requires forall m :: m in ms ==> !IsNonCompactable(m)
    ensures Cut(ms, i) == ms[i..]
  {
    NonePinned(ms[..i]);
  }

  lemma {:induction false} SharedCutPoint(ms: seq<Message>, budget: int, i: nat)
    requires i < |ms|
    requires forall m :: m in ms ==> !IsNonCompactable(m)
    ensures CutPoint(ms, budget, i) == TrimPoint(ms, EstimateTokens, budget, i)
    decreases |ms| - i
  {
    CutIsSuffix(ms, i);
    SharedSum(ms[i..]);
    if i < |ms| - 1 {
      SharedCutPoint(ms, budget, i + 1);
    }
  }

  /** The linear truncation of tier 3 and the quadratic loop compute the same suffix when they share an
      estimator and no message is non-compactable. */
  lemma TruncateIsTrim(ms: seq<Message>, budget: int)
    requires ms != []
    requires forall m :: m in ms ==> !IsNonCompactable(m)
    ensures Truncate(ms, budget) == Trim(ms, EstimateTokens, budget)
  {
    SharedCutPoint(ms, budget, 0);
    CutIsSuffix(ms, CutPoint(ms, budget, 0));
    if budget <= 0 {
      NothingFitsNoBudget(ms, budget, 0);
    }
  }

  /** `b` ends with `a`. */
  predicate IsTail(a: seq<Message>, b: seq<Message>) {
    |a| <= |b| && a == b[|b| - |a|..]
  }

  /** No message is estimated higher by the one estimator than by the other. */
  predicate NoHigher(ms: seq<Message>, small: Estimator) {
    forall i :: 0 <= i < |ms| ==> small(ms[i].content) <= EstimateTokens(ms[i].content)
  }

  lemma {:induction false} SmallerEstimateSum(ms: seq<Message>, small: Estimator)
    requires NoHigher(ms, small)
    ensures EstimatedSum(ms, small) <= EstimatedSum(ms, EstimateTokens)
  {
    if ms != [] {
      SmallerEstimateSum(ms[1..], small);
    }
  }

  lemma {:induction false} SmallerEstimateTrimsLater(ms: seq<Message>, small: Estimator, budget: int, wide: int, i: nat)
    requires i < |ms| && budget <= wide && NoHigher(ms, small)
    ensures TrimPoint(ms, small, wide, i) <= TrimPoint(ms, EstimateTokens, budget, i)
    decreases |ms| - i
  {
    SmallerEstimateSum(ms[i..], small);
    if i < |ms| - 1 {
      SmallerEstimateTrimsLater(ms, small, budget, wide, i + 1);
    }
  }

  /** With the estimators the two filters really use, and the same limit, tier 3 never keeps a message that
      `MaxTokensFilter` drops, provided that no text is estimated higher there: its result is a suffix of the
      other one. With four characters per token or more that is always so. */
  lemma TruncateKeepsNoMoreThanMaxTokens(ms: seq<Message>, systemPrompt: string, limit: int, charsPerToken: Ratio)
    requires ms != []
    requires forall m :: m in ms ==> !IsNonCompactable(m)
    requires NoHigher([PlainMessage("system", systemPrompt)] + ms, CharEstimator(charsPerToken))
    ensures
      var wide := Trim(ms, CharEstimator(charsPerToken), limit - CharEstimate(systemPrompt, charsPerToken));
      var narrow := Truncate(ms, limit - EstimateTokens(systemPrompt));
      IsTail(narrow, wide)
  {
    NoHigherParts(ms, systemPrompt, CharEstimator(charsPerToken));
    TruncateIsTrim(ms, limit - EstimateTokens(systemPrompt));
    SmallerEstimateKeepsMore(ms, CharEstimator(charsPerToken), limit - EstimateTokens(systemPrompt),
                             limit - CharEstimate(systemPrompt, charsPerToken));
  }

  lemma NoHigherParts(ms: seq<Message>, systemPrompt: string, small: Estimator)
    requires NoHigher([PlainMessage("system", systemPrompt)] + ms, small)
    ensures NoHigher(ms, small) && small(systemPrompt) <= EstimateTokens(systemPrompt)
  {
    var all := [PlainMessage("system", systemPrompt)] + ms;
    assert all[0].content == systemPrompt;
    assert forall i :: 0 <= i < |ms| ==> ms[i] == all[i + 1];
  }

  lemma NeverHigher(ms: seq<Message>, charsPerToken: Ratio)
    requires charsPerToken >= 4.0
    ensures NoHigher(ms, CharEstimator(charsPerToken))
  {
    forall i | 0 <= i < |ms|
      ensures CharEstimator(charsPerToken)(ms[i].content) <= EstimateTokens(ms[i].content)
    {
      CharEstimateIsSmaller(ms[i].content, charsPerToken);
    }
  }

  lemma SmallerEstimateKeepsMore(ms: seq<Message>, small: Estimator, budget: int, wide: int)
    requires ms != [] && budget <= wide && NoHigher(ms, small)
    ensures IsTail(Trim(ms, EstimateTokens, budget), Trim(ms, small, wide))
  {
    SmallerEstimateTrimsLater(ms, small, budget, wide, 0);
  }

  lemma CharEstimateIsSmaller(text: string, charsPerToken: Ratio)
    requires charsPerToken >= 4.0
    ensures CharEstimate(text, charsPerToken) <= EstimateTokens(text)
  {
    var x := |text| as real;
    var q := x / charsPerToken;
    assert q * charsPerToken == x;
    assert q * 4.0 <= q * charsPerToken;
    assert q.Floor as real <= q;
    assert 4 * q.Floor <= |text|;
  }
}
