/** context/budget.py: the token estimate and the truncation that every packer shares. */
module Budget {
  import opened Text

  const TRUNCATION_SUFFIX := "\n... [обрезано]"

  function EstimateTokens(text: string): nat {
    |text| / 4 + 1
  }

  function TruncateToBudget(text: string, maxTokens: int): string {
    var maxChars := maxTokens * 4;
    if |text| <= maxChars then text else Prefix(text, maxChars) + TRUNCATION_SUFFIX
  }

  /** A text that is short enough is kept; of a longer one the beginning is kept, as long as the limit says
      at four characters for each token, with the suffix after it. */
  lemma TruncationKeepsBeginning(text: string, maxTokens: nat)
    ensures
      var result := TruncateToBudget(text, maxTokens);
      if |text| <= 4 * maxTokens then result == text
      else
        && |result| == 4 * maxTokens + 15 && EndsWith(result, "\n... [обрезано]")
        && forall i :: 0 <= i < 4 * maxTokens ==> result[i] == text[i]
  {
    if |text| > 4 * maxTokens {
      var suffix := "\n... [обрезано]";
      assert |suffix| == 15;
      assert (Prefix(text, 4 * maxTokens) + suffix)[4 * maxTokens..] == suffix;
    }
  }

  /** How far a truncated text overshoots the budget it was cut to: a text that is really cut costs
      exactly four tokens more than asked for, because the suffix has fifteen characters. */
  lemma TruncationOvershoot(text: string, maxTokens: nat)
    ensures EstimateTokens(TruncateToBudget(text, maxTokens))
         == if |text| <= 4 * maxTokens then EstimateTokens(text) else maxTokens + 4
    ensures EstimateTokens(TruncateToBudget(text, maxTokens)) <= maxTokens + 4
  {
    assert |TRUNCATION_SUFFIX| == 15;
  }
}
