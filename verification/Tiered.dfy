/** memory_bank/tiered.py: filling a token budget with ranked overview texts. */
module Tiered {
  import opened Wrappers
  import opened Text
  import opened Budget

  const MIN_TRUNCATED_TOKENS := 50

  /** A ranked candidate: its abstract, and its overview if one was generated. */
  datatype Candidate = Candidate(path: string, abstract_: string, overview: Option<string>)

  datatype TieredEntry = TieredEntry(path: string, content: string, tokenCount: nat)

  function TruncateToTokens(text: string, maxTokens: int): string {
    var maxChars := maxTokens * 4;
    if |text| <= maxChars then text else Prefix(text, maxChars) + "..."
  }

  /** The overview, or the abstract in its place. */
  function ContentOf(c: Candidate): string {
    if c.overview.Some? then c.overview.value else c.abstract_
  }

  function WholeEntry(c: Candidate): TieredEntry {
    TieredEntry(c.path, ContentOf(c), EstimateTokens(ContentOf(c)))
  }

  /** The first `k` candidates, each with its whole content. */
  function Whole(cs: seq<Candidate>, k: nat): seq<TieredEntry>
    requires k <= |cs|
  {
    if k == 0 then [] else Whole(cs, k - 1) + [WholeEntry(cs[k - 1])]
  }

  function Used(cs: seq<Candidate>, k: nat): nat
    requires k <= |cs|
  {
    if k == 0 then 0 else Used(cs, k - 1) + EstimateTokens(ContentOf(cs[k - 1]))
  }

  function TokenSum(entries: seq<TieredEntry>): nat {
    if entries == [] then 0 else TokenSum(entries[..|entries| - 1]) + entries[|entries| - 1].tokenCount
  }

  /** How many candidates, from the front and from `k` on, fit the budget as a whole. */
  function FitCount(cs: seq<Candidate>, budget: int, k: nat): (n: nat)
    requires k <= |cs|
    ensures k <= n <= |cs|
    decreases |cs| - k
  {
    if k < |cs| && Used(cs, k + 1) <= budget then FitCount(cs, budget, k + 1) else k
  }

  function CutEntry(c: Candidate, room: int): TieredEntry {
    var content := TruncateToTokens(ContentOf(c), room);
    TieredEntry(c.path, content, EstimateTokens(content))
  }

  /** The candidates that fit, and the next one cut to the room that is left if that is worth it. */
  function Filled(cs: seq<Candidate>, budget: int): seq<TieredEntry> {
    var n := FitCount(cs, budget, 0);
    var room := budget - Used(cs, n);
    if n < |cs| && room > MIN_TRUNCATED_TOKENS then Whole(cs, n) + [CutEntry(cs[n], room)] else Whole(cs, n)
  }

  lemma SumAppend(entries: seq<TieredEntry>, e: TieredEntry)
    ensures TokenSum(entries + [e]) == TokenSum(entries) + e.tokenCount
  {
    assert (entries + [e])[..|entries|] == entries;
  }

  lemma {:induction false} WholeEntries(cs: seq<Candidate>, k: nat)
    requires k <= |cs|
    ensures |Whole(cs, k)| == k
    ensures forall i :: 0 <= i < k ==> Whole(cs, k)[i] == WholeEntry(cs[i])
  {
    if k > 0 {
      WholeEntries(cs, k - 1);
    }
  }

  lemma {:induction false} WholeSum(cs: seq<Candidate>, k: nat)
    requires k <= |cs|
    ensures TokenSum(Whole(cs, k)) == Used(cs, k)
  {
    if k > 0 {
      WholeSum(cs, k - 1);
      SumAppend(Whole(cs, k - 1), WholeEntry(cs[k - 1]));
    }
  }

  /** A candidate that does not fit the room that is left takes exactly one token more than that room once
      it is cut: cutting keeps four characters per token, and the estimate adds one. */
  lemma CutOverrunsByOne(c: Candidate, room: nat)
    requires EstimateTokens(ContentOf(c)) > room
    ensures CutEntry(c, room).tokenCount == room + 1
  {
  }

  /** One round: the candidate fits, or it is the first that does not, and what is filled is decided. */
  lemma FitStep(cs: seq<Candidate>, budget: int, i: nat)
    requires i < |cs|
    ensures Used(cs, i + 1) == Used(cs, i) + EstimateTokens(ContentOf(cs[i]))
    ensures Whole(cs, i + 1) == Whole(cs, i) + [WholeEntry(cs[i])]
    ensures Used(cs, i + 1) <= budget ==> FitCount(cs, budget, i) == FitCount(cs, budget, i + 1)
    ensures Used(cs, i + 1) > budget ==> FitCount(cs, budget, i) == i
    ensures Used(cs, i + 1) > budget && FitCount(cs, budget, 0) == i ==>
              Filled(cs, budget) == Whole(cs, i) + if budget - Used(cs, i) > MIN_TRUNCATED_TOKENS
                                                   then [CutEntry(cs[i], budget - Used(cs, i))] else []
  {
  }

  /** The budget loop of `search`, over the ranked candidates. */
  method FillBudget(ranked: seq<Candidate>, budgetTokens: int) returns (results: seq<TieredEntry>)
    ensures results == Filled(ranked, budgetTokens)
  {
    results := [];
    var usedTokens: nat := 0;
    ghost var cut := false;
    for i := 0 to |ranked|
      invariant cut ==> results == Filled(ranked, budgetTokens) && usedTokens > budgetTokens
      invariant !cut ==> results == Whole(ranked, i) && usedTokens == Used(ranked, i)
      invariant !cut ==> FitCount(ranked, budgetTokens, 0) == FitCount(ranked, budgetTokens, i)
    {
      var content := if ranked[i].overview.Some? then ranked[i].overview.value else ranked[i].abstract_;
      var tokens := EstimateTokens(content);
      FitStep(ranked, budgetTokens, i);
      if usedTokens + tokens > budgetTokens {
        var remaining := budgetTokens - usedTokens;
        if remaining > MIN_TRUNCATED_TOKENS {
          CutOverrunsByOne(ranked[i], remaining);
          content := TruncateToTokens(content, remaining);
          tokens := EstimateTokens(content);
          cut := true;
        } else {
          return;
        }
      }
      results := results + [TieredEntry(ranked[i].path, content, tokens)];
      usedTokens := usedTokens + tokens;
    }
  }

  // ----- the bound -----

  lemma {:induction false} FitCountFits(cs: seq<Candidate>, budget: int, k: nat)
    requires k <= |cs| && Used(cs, k) <= budget
    ensures
      var n := FitCount(cs, budget, k);
      Used(cs, n) <= budget && (n < |cs| ==> Used(cs, n + 1) > budget)
    decreases |cs| - k
  {
    if k < |cs| && Used(cs, k + 1) <= budget {
      FitCountFits(cs, budget, k + 1);
    }
  }

  /** The entries are the candidates from the front, in rank order: those that fit, whole, and at most one
      more, which is cut. */
  lemma FilledIsRankedPrefix(cs: seq<Candidate>, budget: nat)
    ensures
      var results, n := Filled(cs, budget), FitCount(cs, budget, 0);
      && n <= |results| <= n + 1 && |results| <= |cs|
      && (forall i :: 0 <= i < n ==> results[i] == WholeEntry(cs[i]))
      && (|results| == n + 1 ==> results[n] == CutEntry(cs[n], budget - Used(cs, n)))
      && (n < |cs| ==> EstimateTokens(ContentOf(cs[n])) > budget - Used(cs, n))
  {
    FitCountFits(cs, budget, 0);
    WholeEntries(cs, FitCount(cs, budget, 0));
  }

  /** Each entry belongs to the candidate of its rank and has its overview, or its abstract in place of a missing
      one, whole; only the last one can be cut, to a beginning of more than two hundred characters. */
  lemma EntryText(cs: seq<Candidate>, budget: nat, i: nat)
    requires i < |Filled(cs, budget)|
    ensures
      && |Filled(cs, budget)| <= |cs|
      && var e, text := Filled(cs, budget)[i], if cs[i].overview.Some? then cs[i].overview.value else cs[i].abstract_;
      && e.path == cs[i].path && e.tokenCount == |e.content| / 4 + 1
      && (e.content == text
          || (i == |Filled(cs, budget)| - 1 && exists n :: 200 < n < |text| && e.content == text[..n] + "..."))
  {
    FilledIsRankedPrefix(cs, budget);
    var n := FitCount(cs, budget, 0);
    WholeEntries(cs, n);
    if i == n {
      var room := budget - Used(cs, n);
      assert room > 50;
      assert |ContentOf(cs[n])| > 4 * room ==> 200 < 4 * room < |ContentOf(cs[n])|;
    }
  }

  /** The token counts stay within the budget, or overrun it by exactly one; and they overrun it exactly
      when the first candidate that does not fit finds more than fifty tokens left and is cut. */
  lemma FilledWithinOneToken(cs: seq<Candidate>, budget: nat)
    ensures
      var n := FitCount(cs, budget, 0);
      var room := budget - Used(cs, n);
      && 0 <= room
      && TokenSum(Filled(cs, budget)) == if n < |cs| && room > MIN_TRUNCATED_TOKENS then budget + 1 else budget - room
  {
    var n := FitCount(cs, budget, 0);
    FitCountFits(cs, budget, 0);
    WholeSum(cs, n);
    var room := budget - Used(cs, n);
    if n < |cs| && room > MIN_TRUNCATED_TOKENS {
      CutOverrunsByOne(cs[n], room);
      SumAppend(Whole(cs, n), CutEntry(cs[n], room));
    }
  }

  /** An overview of 205 characters in a budget of 51 tokens is cut and costs 52. */
  lemma CutOverviewOverruns(path: string, overview: string)
    requires |overview| == 205
    ensures TokenSum(Filled([Candidate(path, "", Some(overview))], 51)) == 52
  {
    var cs := [Candidate(path, "", Some(overview))];
    assert Used(cs, 1) == Used(cs, 0) + 52 && FitCount(cs, 51, 0) == 0;
    FilledWithinOneToken(cs, 51);
  }
}
