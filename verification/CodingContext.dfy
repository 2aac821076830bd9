/** context/coding_context_builder.py: packing the six slices of a coding context into a token budget. */
module CodingContext {
  import opened Text
  import opened Budget

  const MIN_CONTENT_TOKENS := 10
  const TRUNCATION_SUFFIX_TOKENS := 5

  datatype Slice = Slice(name: string, header: string, text: string)

  datatype CodingSliceInput = CodingSliceInput(
    codingMode: bool,
    totalTokens: int,
    task: string,
    board: string,
    workspace: string,
    search: string,
    session: string,
    skillProfile: string
  )

  datatype CodingContextResult = CodingContextResult(
    contextText: string,
    includedSlices: seq<string>,
    omittedSlices: seq<string>,
    truncatedSlices: seq<string>,
    continuitySummary: string
  )

  /** The slices in priority order. */
  function SlicesOf(inp: CodingSliceInput): seq<Slice> {
    [Slice("task", "## Current Task", inp.task),
     Slice("workspace", "## Workspace", inp.workspace),
     Slice("board", "## Task Board", inp.board),
     Slice("session", "## Session", inp.session),
     Slice("skill_profile", "## Skill Profile", inp.skillProfile),
     Slice("search", "## Recent Search", inp.search)]
  }

  function Pack(s: Slice): string {
    s.header + "\n" + s.text
  }

  /** The variables of the packing loop. */
  datatype Packing = Packing(
    remaining: int,
    included: seq<Slice>,
    omitted: seq<Slice>,
    truncated: seq<Slice>,
    parts: seq<string>
  )

  function CutPack(s: Slice, remaining: int): string {
    TruncateToBudget(Pack(s), remaining - TRUNCATION_SUFFIX_TOKENS)
  }

  function AddSlice(p: Packing, s: Slice): Packing {
    var tokens := EstimateTokens(Pack(s));
    if s.text == "" then p
    else if p.remaining <= 0 then p.(omitted := p.omitted + [s])
    else if tokens <= p.remaining then
      p.(included := p.included + [s], parts := p.parts + [Pack(s)], remaining := p.remaining - tokens)
    else if p.remaining > EstimateTokens(s.header) + MIN_CONTENT_TOKENS then
      var cut := CutPack(s, p.remaining);
      p.(truncated := p.truncated + [s], included := p.included + [s], parts := p.parts + [cut],
         remaining := p.remaining - EstimateTokens(cut))
    else p.(omitted := p.omitted + [s])
  }

  function PackAll(total: int, slices: seq<Slice>): Packing {
    if slices == [] then Packing(total, [], [], [], [])
    else AddSlice(PackAll(total, slices[..|slices| - 1]), slices[|slices| - 1])
  }

  function Names(slices: seq<Slice>): seq<string> {
    seq(|slices|, i requires 0 <= i < |slices| => slices[i].name)
  }

  function Continuity(p: Packing): string {
    var first := if p.omitted != [] then ["Omitted slices: " + Join(Names(p.omitted), ", ")] else [];
    var second := if p.truncated != [] then ["Truncated slices: " + Join(Names(p.truncated), ", ")] else [];
    Join(first + second, "; ")
  }

  function ResultOf(p: Packing): CodingContextResult {
    CodingContextResult(Join(p.parts, "\n\n"), Names(p.included), Names(p.omitted), Names(p.truncated), Continuity(p))
  }

  /** The assembler; outside coding mode everything is empty. */
  method Assemble(inp: CodingSliceInput) returns (result: CodingContextResult)
    ensures result == if inp.codingMode then ResultOf(PackAll(inp.totalTokens, SlicesOf(inp)))
                      else CodingContextResult("", [], [], [], "")
  {
    if !inp.codingMode {
      return CodingContextResult("", [], [], [], "");
    }
    var slices := SlicesOf(inp);
    var p := Packing(inp.totalTokens, [], [], [], []);
    for i := 0 to |slices|
      invariant p == PackAll(inp.totalTokens, slices[..i])
    {
      assert slices[..i + 1][..i] == slices[..i];
      p := Place(p, slices[i]);
    }
    assert slices[..|slices|] == slices;
    result := ResultOf(p);
  }

  /** The body of the packing loop. */
  method Place(p: Packing, slice: Slice) returns (p': Packing)
    ensures p' == AddSlice(p, slice)
  {
    var Packing(remaining, included, omitted, truncated, parts) := p;
    if slice.text == "" {
      return p;
    }
    var pack := Pack(slice);
    var tokens := EstimateTokens(pack);
    if remaining <= 0 {
      omitted := omitted + [slice];
      return Packing(remaining, included, omitted, truncated, parts);
    }
    if tokens > remaining {
      if remaining > EstimateTokens(slice.header) + MIN_CONTENT_TOKENS {
        pack := TruncateToBudget(pack, remaining - TRUNCATION_SUFFIX_TOKENS);
        truncated := truncated + [slice];
        included := included + [slice];
        parts := parts + [pack];
        remaining := remaining - EstimateTokens(pack);
      } else {
        omitted := omitted + [slice];
      }
      return Packing(remaining, included, omitted, truncated, parts);
    }
    included := included + [slice];
    parts := parts + [pack];
    remaining := remaining - tokens;
    return Packing(remaining, included, omitted, truncated, parts);
  }

  // ----- what the packing guarantees -----

  function NonEmpty(slices: seq<Slice>): seq<Slice> {
    if slices == [] then []
    else NonEmpty(slices[..|slices| - 1]) + if slices[|slices| - 1].text == "" then [] else [slices[|slices| - 1]]
  }

  /** `all` is an interleaving of `a` and `b` that keeps the order of each. */
  predicate Interleaves(a: seq<Slice>, b: seq<Slice>, all: seq<Slice>) {
    if all == [] then a == [] && b == []
    else
      var init, last := all[..|all| - 1], all[|all| - 1];
      || (a != [] && a[|a| - 1] == last && Interleaves(a[..|a| - 1], b, init))
      || (b != [] && b[|b| - 1] == last && Interleaves(a, b[..|b| - 1], init))
  }

  function TokenSum(parts: seq<string>): nat {
    if parts == [] then 0 else TokenSum(parts[..|parts| - 1]) + EstimateTokens(parts[|parts| - 1])
  }

  /** The slices with their headers. */
  function Packs(slices: seq<Slice>): (parts: seq<string>)
    ensures |parts| == |slices|
  {
    if slices == [] then [] else Packs(slices[..|slices| - 1]) + [Pack(slices[|slices| - 1])]
  }

  /** Headers are long enough that no slice fits into a single token. */
  predicate RealHeaders(slices: seq<Slice>) {
    forall i :: 0 <= i < |slices| ==> |slices[i].header| >= 4
  }

  /** The accounting of the loop; after a truncation one token is left, too little for anything else. */
  predicate Accounted(p: Packing, total: int) {
    && |p.parts| == |p.included|
    && p.remaining == total - TokenSum(p.parts)
    && (total >= 0 ==> p.remaining >= 0)
    && (p.truncated != [] ==>
          p.included != [] && p.truncated == [p.included[|p.included| - 1]] && p.remaining == 1)
  }

  /** The slice does not fit, and there is useful room for a part of it. */
  predicate IsCut(s: Slice, room: int) {
    EstimateTokens(Pack(s)) > room > EstimateTokens(s.header) + MIN_CONTENT_TOKENS
  }

  /** Every part is its slice, verbatim or, if it is the truncated one, cut to what was left for it. */
  predicate Faithful(p: Packing, total: int)
    requires |p.parts| == |p.included|
  {
    FaithfulParts(p.parts, p.included, p.truncated, total)
  }

  predicate FaithfulParts(parts: seq<string>, included: seq<Slice>, truncated: seq<Slice>, total: int)
    requires |parts| == |included|
  {
    && |truncated| <= |parts|
    && parts[..|parts| - |truncated|] == Packs(included[..|parts| - |truncated|])
    && (truncated != [] ==>
          var room := total - TokenSum(parts[..|parts| - 1]);
          parts[|parts| - 1] == CutPack(truncated[0], room) && IsCut(truncated[0], room))
  }

  lemma AddSliceAccounted(p: Packing, total: int, s: Slice)
    requires Accounted(p, total) && |s.header| >= 4
    ensures Accounted(AddSlice(p, s), total)
    ensures AddSlice(p, s).parts != p.parts ==> p.truncated == []
  {
    var p' := AddSlice(p, s);
    if p'.parts != p.parts {
      assert p'.parts[..|p.parts|] == p.parts;
      if p'.truncated != p.truncated {
        TruncationOvershoot(Pack(s), p.remaining - TRUNCATION_SUFFIX_TOKENS);
      }
    }
  }

  lemma AddSliceFaithful(p: Packing, total: int, s: Slice)
    requires Accounted(p, total) && Faithful(p, total) && |s.header| >= 4
    ensures Accounted(AddSlice(p, s), total) && Faithful(AddSlice(p, s), total)
  {
    AddSliceAccounted(p, total, s);
    AddSliceEmits(p, s);
    EmitsFaithful(p, AddSlice(p, s), total, s);
  }

  /** What a slice adds to the parts: nothing, itself, or itself cut to what is left. */
  predicate Emits(p: Packing, p': Packing, s: Slice) {
    || (p'.parts == p.parts && p'.included == p.included && p'.truncated == p.truncated)
    || (p'.parts == p.parts + [Pack(s)] && p'.included == p.included + [s] && p'.truncated == p.truncated)
    || (p'.parts == p.parts + [CutPack(s, p.remaining)] && p'.included == p.included + [s]
        && p'.truncated == p.truncated + [s] && IsCut(s, p.remaining))
  }

  lemma AddSliceEmits(p: Packing, s: Slice)
    ensures Emits(p, AddSlice(p, s), s)
  {
  }

  lemma EmitsFaithful(p: Packing, p': Packing, total: int, s: Slice)
    requires Accounted(p, total) && Faithful(p, total) && Emits(p, p', s)
    requires p'.parts != p.parts ==> p.truncated == []
    ensures |p'.parts| == |p'.included| && Faithful(p', total)
  {
    if p'.parts == p.parts + [Pack(s)] && p'.truncated == [] {
      EmittedWhole(p, total, s, p');
    } else if p'.parts != p.parts {
      EmittedCut(p, total, s, p');
    }
  }

  /** One more part at the end, verbatim. */
  lemma EmittedWhole(p: Packing, total: int, s: Slice, p': Packing)
    requires |p.parts| == |p.included| && Faithful(p, total) && p.truncated == []
    requires p'.parts == p.parts + [Pack(s)] && p'.included == p.included + [s] && p'.truncated == []
    ensures Faithful(p', total)
  {
    var n := |p.parts|;
    PacksAppend(p.included, s);
    assert p.parts[..n] == p.parts && p.included[..n] == p.included;
    assert p'.parts[..n + 1] == p'.parts && p'.included[..n + 1] == p'.included;
  }

  /** One more part at the end, cut to what is left. */
  lemma EmittedCut(p: Packing, total: int, s: Slice, p': Packing)
    requires |p.parts| == |p.included| && Faithful(p, total) && p.truncated == []
    requires p.remaining == total - TokenSum(p.parts) && IsCut(s, p.remaining)
    requires p'.parts == p.parts + [CutPack(s, p.remaining)] && p'.included == p.included + [s] && p'.truncated == [s]
    ensures Faithful(p', total)
  {
    var n := |p.parts|;
    assert p.parts[..n] == p.parts && p.included[..n] == p.included;
    CutAtEnd(p.parts, p.included, s, total, p'.parts, p'.included);
  }

  lemma CutAtEnd(parts: seq<string>, included: seq<Slice>, s: Slice, total: int, parts': seq<string>,
                 included': seq<Slice>)
    requires parts == Packs(included) && IsCut(s, total - TokenSum(parts))
    requires parts' == parts + [CutPack(s, total - TokenSum(parts))] && included' == included + [s]
    ensures FaithfulParts(parts', included', [s], total)
  {
    var n := |parts|;
    assert parts'[..n] == parts && included'[..n] == included;
  }

  lemma PacksAppend(slices: seq<Slice>, s: Slice)
    ensures Packs(slices + [s]) == Packs(slices) + [Pack(s)]
  {
    assert (slices + [s])[..|slices|] == slices;
  }

  lemma InterleavesAppend(a: seq<Slice>, b: seq<Slice>, all: seq<Slice>, s: Slice)
    requires Interleaves(a, b, all)
    ensures Interleaves(a + [s], b, all + [s]) && Interleaves(a, b + [s], all + [s])
  {
    assert (all + [s])[..|all|] == all;
    assert (a + [s])[..|a|] == a;
    assert (b + [s])[..|b|] == b;
  }

  /** A slice is included, or omitted, or empty. */
  lemma AddSliceShape(p: Packing, s: Slice)
    ensures
      var p' := AddSlice(p, s);
      if s.text == "" then p'.included == p.included && p'.omitted == p.omitted
      else
        || (p'.included == p.included + [s] && p'.omitted == p.omitted)
        || (p'.included == p.included && p'.omitted == p.omitted + [s])
  {
  }

  lemma NonEmptyAppend(slices: seq<Slice>, s: Slice)
    ensures NonEmpty(slices + [s]) == if s.text == "" then NonEmpty(slices) else NonEmpty(slices) + [s]
  {
    assert (slices + [s])[..|slices|] == slices;
  }

  lemma AddSliceInterleaves(p: Packing, p': Packing, init: seq<Slice>, s: Slice, slices: seq<Slice>)
    requires Interleaves(p.included, p.omitted, NonEmpty(init))
    requires p' == AddSlice(p, s) && slices == init + [s]
    ensures Interleaves(p'.included, p'.omitted, NonEmpty(slices))
  {
    AddSliceShape(p, s);
    NonEmptyAppend(init, s);
    InterleavesAppend(p.included, p.omitted, NonEmpty(init), s);
  }

  lemma {:induction false} PackAllAccounts(total: int, slices: seq<Slice>)
    requires RealHeaders(slices)
    ensures Accounted(PackAll(total, slices), total) && Faithful(PackAll(total, slices), total)
  {
    if slices != [] {
      var init := slices[..|slices| - 1];
      PackAllAccounts(total, init);
      AddSliceFaithful(PackAll(total, init), total, slices[|slices| - 1]);
    }
  }

  lemma {:induction false} PackAllInterleaves(total: int, slices: seq<Slice>)
    ensures Interleaves(PackAll(total, slices).included, PackAll(total, slices).omitted, NonEmpty(slices))
  {
    if slices != [] {
      var init, last := slices[..|slices| - 1], slices[|slices| - 1];
      PackAllInterleaves(total, init);
      AddSliceInterleaves(PackAll(total, init), PackAll(total, slices), init, last, slices);
    }
  }

  lemma {:induction false} JoinLength(parts: seq<string>)
    ensures |Join(parts, "\n\n")| <= 4 * TokenSum(parts) + |parts| - if parts == [] then 0 else 2
  {
    if |parts| > 1 {
      var init, last := parts[..|parts| - 1], parts[|parts| - 1];
      JoinLength(init);
      JoinAppend(init, last, "\n\n");
      assert parts == init + [last];
    } else if parts != [] {
      assert TokenSum(parts[..0]) == 0;
    }
  }

  lemma {:induction false} InterleavesLength(a: seq<Slice>, b: seq<Slice>, all: seq<Slice>)
    requires Interleaves(a, b, all)
    ensures |a| + |b| == |all|
  {
    if all != [] {
      var init, last := all[..|all| - 1], all[|all| - 1];
      if a != [] && a[|a| - 1] == last && Interleaves(a[..|a| - 1], b, init) {
        InterleavesLength(a[..|a| - 1], b, init);
      } else {
        InterleavesLength(a, b[..|b| - 1], init);
      }
    }
  }

  lemma {:induction false} NonEmptyLength(slices: seq<Slice>)
    ensures |NonEmpty(slices)| <= |slices|
  {
    if slices != [] {
      NonEmptyLength(slices[..|slices| - 1]);
    }
  }

  /** What packing guarantees of any slices, six or fewer, within a budget. */
  ghost predicate WithinBudget(p: Packing, total: int, slices: seq<Slice>) {
    && Interleaves(p.included, p.omitted, NonEmpty(slices))
    && |p.parts| == |p.included|
    && Faithful(p, total)
    && (p.truncated != [] ==> p.included != [] && p.truncated == [p.included[|p.included| - 1]])
    && TokenSum(p.parts) <= total
    && EstimateTokens(Join(p.parts, "\n\n")) <= total + 2
  }

  lemma PackedWithinBudget(total: nat, slices: seq<Slice>)
    requires RealHeaders(slices) && |slices| <= 6
    ensures WithinBudget(PackAll(total, slices), total, slices)
  {
    var p := PackAll(total, slices);
    PackAllAccounts(total, slices);
    PackAllInterleaves(total, slices);
    InterleavesLength(p.included, p.omitted, NonEmpty(slices));
    NonEmptyLength(slices);
    JoinLength(p.parts);
  }

  /** The nonempty slices are split, in priority order, into included and omitted ones; every included slice
      is verbatim except that the last one may be truncated; the parts stay within the budget; and the
      joined text exceeds it by at most two tokens. */
  lemma AssemblyWithinBudget(inp: CodingSliceInput)
    requires inp.totalTokens >= 0
    ensures WithinBudget(PackAll(inp.totalTokens, SlicesOf(inp)), inp.totalTokens, SlicesOf(inp))
  {
    PackedWithinBudget(inp.totalTokens, SlicesOf(inp));
  }

  /** The same for the result as its reader sees it: every nonempty slice is reported once, as included or as
      omitted; only the last included one can be reported as truncated; and there is a continuity summary
      exactly when something was omitted or truncated. */
  lemma ResultWithinBudget(inp: CodingSliceInput)
    requires inp.totalTokens >= 0
    ensures
      var r := ResultOf(PackAll(inp.totalTokens, SlicesOf(inp)));
      && EstimateTokens(r.contextText) <= inp.totalTokens + 2
      && |r.includedSlices| + |r.omittedSlices| == |NonEmpty(SlicesOf(inp))|
      && (r.truncatedSlices != [] ==>
            r.includedSlices != [] && r.truncatedSlices == [r.includedSlices[|r.includedSlices| - 1]])
      && (r.continuitySummary == "" <==> r.omittedSlices == [] && r.truncatedSlices == [])
  {
    var p := PackAll(inp.totalTokens, SlicesOf(inp));
    AssemblyWithinBudget(inp);
    InterleavesLength(p.included, p.omitted, NonEmpty(SlicesOf(inp)));
    ContinuityIff(p);
  }

  /** The six sections of a context, in the order in which they are to be read. */
  function SixPacks(inp: CodingSliceInput): seq<string> {
    ["## Current Task\n" + inp.task,
     "## Workspace\n" + inp.workspace,
     "## Task Board\n" + inp.board,
     "## Session\n" + inp.session,
     "## Skill Profile\n" + inp.skillProfile,
     "## Recent Search\n" + inp.search]
  }

  lemma PackAt(inp: CodingSliceInput)
    ensures Pack(SlicesOf(inp)[0]) == "## Current Task\n" + inp.task
    ensures Pack(SlicesOf(inp)[1]) == "## Workspace\n" + inp.workspace
    ensures Pack(SlicesOf(inp)[2]) == "## Task Board\n" + inp.board
    ensures Pack(SlicesOf(inp)[3]) == "## Session\n" + inp.session
    ensures Pack(SlicesOf(inp)[4]) == "## Skill Profile\n" + inp.skillProfile
    ensures Pack(SlicesOf(inp)[5]) == "## Recent Search\n" + inp.search
  {
    assert "## Current Task" + "\n" == "## Current Task\n" && "## Workspace" + "\n" == "## Workspace\n";
    assert "## Task Board" + "\n" == "## Task Board\n" && "## Session" + "\n" == "## Session\n";
    assert "## Skill Profile" + "\n" == "## Skill Profile\n" && "## Recent Search" + "\n" == "## Recent Search\n";
  }

  lemma {:induction false} PacksAt(slices: seq<Slice>, i: nat)
    requires i < |slices|
    ensures Packs(slices)[i] == Pack(slices[i])
  {
    if i < |slices| - 1 {
      PacksAt(slices[..|slices| - 1], i);
    }
  }

  lemma {:induction false} AllTextIsKept(slices: seq<Slice>)
    requires AllText(slices)
    ensures NonEmpty(slices) == slices
  {
    if slices != [] {
      AllTextIsKept(slices[..|slices| - 1]);
    }
  }

  lemma SixPacksAre(inp: CodingSliceInput, packs: seq<string>)
    requires packs == SixPacks(inp)
    ensures packs == Packs(SlicesOf(inp))
  {
    forall i | 0 <= i < 6 ensures packs[i] == Packs(SlicesOf(inp))[i] {
      PacksAt(SlicesOf(inp), i);
      PackAt(inp);
    }
  }

  lemma {:induction false} TokenSumOfPacks(slices: seq<Slice>)
    ensures TokenSum(Packs(slices)) == WholeTokens(slices)
  {
    if slices != [] {
      TokenSumOfPacks(slices[..|slices| - 1]);
      var parts := Packs(slices[..|slices| - 1]);
      assert (parts + [Pack(slices[|slices| - 1])])[..|parts|] == parts;
    }
  }

  /** Six slices that fit the budget are all there, whole and in the order of their priority. */
  lemma AllSixFit(inp: CodingSliceInput)
    requires "" !in [inp.task, inp.workspace, inp.board, inp.session, inp.skillProfile, inp.search]
    requires TokenSum(SixPacks(inp)) <= inp.totalTokens
    ensures
      var r := ResultOf(PackAll(inp.totalTokens, SlicesOf(inp)));
      && r.contextText == Join(SixPacks(inp), "\n\n")
      && r.includedSlices == ["task", "workspace", "board", "session", "skill_profile", "search"]
      && r.omittedSlices == [] && r.truncatedSlices == [] && r.continuitySummary == ""
  {
    var slices := SlicesOf(inp);
    SixPacksAre(inp, SixPacks(inp));
    TokenSumOfPacks(slices);
    TextOfAll(inp);
    WholeFit(inp.totalTokens, slices);
    ContinuityIff(PackAll(inp.totalTokens, slices));
    NamesOfSlices(inp);
  }

  lemma TextOfAll(inp: CodingSliceInput)
    requires "" !in [inp.task, inp.workspace, inp.board, inp.session, inp.skillProfile, inp.search]
    ensures AllText(SlicesOf(inp))
  {
    var texts := [inp.task, inp.workspace, inp.board, inp.session, inp.skillProfile, inp.search];
    assert forall i :: 0 <= i < 6 ==> SlicesOf(inp)[i].text == texts[i];
  }

  lemma NamesOfSlices(inp: CodingSliceInput)
    ensures Names(SlicesOf(inp)) == ["task", "workspace", "board", "session", "skill_profile", "search"]
  {
  }

  /** What happens to a slice, in lengths: it is included if it has fewer than four characters for each token
      that is left; else its beginning is, with the suffix, if more than ten tokens are left besides the
      estimate of its header; else it is omitted. */
  lemma SliceByLength(p: Packing, s: Slice)
    requires s.text != ""
    ensures
      var p', left, pack := AddSlice(p, s), p.remaining, s.header + "\n" + s.text;
      if |pack| < 4 * left then
        p' == Packing(left - (|pack| / 4 + 1), p.included + [s], p.omitted, p.truncated, p.parts + [pack])
      else if left > |s.header| / 4 + 11 then
        p' == Packing(1, p.included + [s], p.omitted, p.truncated + [s],
                      p.parts + [pack[..4 * (left - 5)] + "\n... [обрезано]"])
      else p' == p.(omitted := p.omitted + [s])
  {
    var pack, left := Pack(s), p.remaining;
    if |pack| >= 4 * left && left > |s.header| / 4 + 11 {
      TruncationOvershoot(pack, left - 5);
    }
  }

  /** The continuity summary names every slice that is not there as a whole. */
  lemma ContinuityNames(p: Packing, name: string)
    requires name in Names(p.omitted) || name in Names(p.truncated)
    ensures Contains(Continuity(p), name)
  {
    var first := if p.omitted != [] then ["Omitted slices: " + Join(Names(p.omitted), ", ")] else [];
    var second := if p.truncated != [] then ["Truncated slices: " + Join(Names(p.truncated), ", ")] else [];
    var all := first + second;
    if name in Names(p.omitted) {
      var k: nat :| k < |Names(p.omitted)| && Names(p.omitted)[k] == name;
      JoinContains(Names(p.omitted), ", ", k);
      LongerContains("Omitted slices: ", Join(Names(p.omitted), ", "), "", name);
      assert all[0] == "Omitted slices: " + Join(Names(p.omitted), ", ") + "";
      JoinContains(all, "; ", 0);
      ContainsTransitive(Join(all, "; "), all[0], name);
    } else {
      var k: nat :| k < |Names(p.truncated)| && Names(p.truncated)[k] == name;
      JoinContains(Names(p.truncated), ", ", k);
      LongerContains("Truncated slices: ", Join(Names(p.truncated), ", "), "", name);
      assert all[|first|] == "Truncated slices: " + Join(Names(p.truncated), ", ") + "";
      JoinContains(all, "; ", |first|);
      ContainsTransitive(Join(all, "; "), all[|first|], name);
    }
  }

  lemma ContinuityIff(p: Packing)
    ensures Continuity(p) == "" <==> p.omitted == [] && p.truncated == []
  {
    var first := if p.omitted != [] then ["Omitted slices: " + Join(Names(p.omitted), ", ")] else [];
    var second := if p.truncated != [] then ["Truncated slices: " + Join(Names(p.truncated), ", ")] else [];
    assert forall i :: 0 <= i < |first + second| ==> |(first + second)[i]| >= 16;
  }

  /** Each slice that is left out was left out for want of room: the budget that was left when its turn came
      is smaller than the slice and leaves no useful room after its header. */
  lemma {:induction false} OmittedForWantOfRoom(total: int, slices: seq<Slice>, k: nat)
    requires k < |slices| && slices[k].text != ""
    requires RealHeaders(slices)
    ensures
      var before := PackAll(total, slices[..k]);
      var after := PackAll(total, slices[..k + 1]);
      after.omitted == before.omitted + [slices[k]]
      <==> before.remaining < EstimateTokens(Pack(slices[k]))
           && before.remaining <= EstimateTokens(slices[k].header) + MIN_CONTENT_TOKENS
  {
    assert slices[..k + 1][..k] == slices[..k];
    PackAllAccounts(total, slices[..k]);
  }

  // ----- which slices are left out -----

  /** The cost of the slices, each as a whole. */
  function WholeTokens(slices: seq<Slice>): nat {
    if slices == [] then 0 else WholeTokens(slices[..|slices| - 1]) + EstimateTokens(Pack(slices[|slices| - 1]))
  }

  /** The slice is included, whole or cut, if this much room is left. */
  predicate FindsRoom(s: Slice, room: int) {
    EstimateTokens(Pack(s)) <= room || room > EstimateTokens(s.header) + MIN_CONTENT_TOKENS
  }

  /** How many slices, from the front and from `k` on, fit the budget as a whole. */
  function FitCount(slices: seq<Slice>, total: int, k: nat): (n: nat)
    requires k <= |slices|
    ensures k <= n <= |slices|
    decreases |slices| - k
  {
    if k < |slices| && WholeTokens(slices[..k + 1]) <= total then FitCount(slices, total, k + 1) else k
  }

  /** What is left before the first slice that does not fit as a whole. */
  function RoomAt(slices: seq<Slice>, total: int, k: nat): int
    requires k <= |slices|
  {
    total - WholeTokens(slices[..k])
  }

  /** The documented order holds for these nonempty slices: all of them fit, or the first one that does not
      fit is cut, or no later one finds room where it found none. */
  predicate OrderKept(slices: seq<Slice>, total: int) {
    var k := FitCount(slices, total, 0);
    || k == |slices|
    || FindsRoom(slices[k], RoomAt(slices, total, k))
    || NoneFindsRoom(slices, k + 1, RoomAt(slices, total, k))
  }

  predicate AllText(slices: seq<Slice>) {
    forall i :: 0 <= i < |slices| ==> slices[i].text != ""
  }

  /** The packing loop, from some point on. */
  function AddAll(p: Packing, slices: seq<Slice>): Packing
    decreases |slices|
  {
    if slices == [] then p else AddAll(AddSlice(p, slices[0]), slices[1..])
  }

  lemma PackAllAppend(total: int, slices: seq<Slice>, s: Slice)
    ensures PackAll(total, slices + [s]) == AddSlice(PackAll(total, slices), s)
  {
    assert (slices + [s])[..|slices|] == slices;
  }

  lemma SkipEmptyStep(total: int, init: seq<Slice>, kept: seq<Slice>, last: Slice, slices: seq<Slice>,
                      kept': seq<Slice>)
    requires PackAll(total, init) == PackAll(total, kept)
    requires slices == init + [last] && kept' == if last.text == "" then kept else kept + [last]
    ensures PackAll(total, slices) == PackAll(total, kept')
  {
    PackAllAppend(total, init, last);
    PackAllAppend(total, kept, last);
  }

  lemma {:induction false} PackAllSkipsEmpty(total: int, slices: seq<Slice>)
    ensures PackAll(total, slices) == PackAll(total, NonEmpty(slices))
  {
    if slices == [] {
      assert NonEmpty(slices) == slices;
    } else {
      var init, last := slices[..|slices| - 1], slices[|slices| - 1];
      PackAllSkipsEmpty(total, init);
      NonEmptyAppend(init, last);
      assert slices == init + [last];
      SkipEmptyStep(total, init, NonEmpty(init), last, slices, NonEmpty(slices));
    }
  }

  lemma {:induction false} NonEmptyHasText(slices: seq<Slice>)
    ensures AllText(NonEmpty(slices))
    ensures RealHeaders(slices) ==> RealHeaders(NonEmpty(slices))
  {
    if slices != [] {
      NonEmptyHasText(slices[..|slices| - 1]);
    }
  }

  lemma {:induction false} PackAllFrom(total: int, slices: seq<Slice>, k: nat)
    requires k <= |slices|
    ensures PackAll(total, slices) == AddAll(PackAll(total, slices[..k]), slices[k..])
    decreases |slices| - k
  {
    if k == |slices| {
      assert slices[..k] == slices && slices[k..] == [];
    } else {
      PackAllFrom(total, slices, k + 1);
      PackAllFromStep(total, slices, k);
    }
  }

  lemma PackAllFromStep(total: int, slices: seq<Slice>, k: nat)
    requires k < |slices|
    ensures AddAll(PackAll(total, slices[..k]), slices[k..])
         == AddAll(PackAll(total, slices[..k + 1]), slices[k + 1..])
  {
    PackAllAppend(total, slices[..k], slices[k]);
    AddAllStep(PackAll(total, slices[..k]), slices[k], slices[k + 1..], slices[k..]);
    assert slices[..k + 1] == slices[..k] + [slices[k]];
  }

  lemma AddAllStep(p: Packing, s: Slice, rest: seq<Slice>, slices: seq<Slice>)
    requires slices == [s] + rest
    ensures AddAll(p, slices) == AddAll(AddSlice(p, s), rest)
  {
    assert slices[1..] == rest;
  }

  /** Slices that fit together are all included as they are. */
  lemma {:induction false} WholeFit(total: int, slices: seq<Slice>)
    requires AllText(slices) && (slices == [] || WholeTokens(slices) <= total)
    ensures PackAll(total, slices) == Packing(total - WholeTokens(slices), slices, [], [], Packs(slices))
  {
    if slices != [] {
      var init, last := slices[..|slices| - 1], slices[|slices| - 1];
      WholeFit(total, init);
      assert slices == init + [last];
      PackAllAppend(total, init, last);
      PacksAppend(init, last);
      AddSliceFits(PackAll(total, init), last);
    }
  }

  lemma AddSliceFits(p: Packing, s: Slice)
    requires s.text != "" && EstimateTokens(Pack(s)) <= p.remaining
    ensures AddSlice(p, s)
         == Packing(p.remaining - EstimateTokens(Pack(s)), p.included + [s], p.omitted, p.truncated, p.parts + [Pack(s)])
  {
  }

  lemma {:induction false} FitCountFits(slices: seq<Slice>, total: int, k: nat)
    requires k <= |slices| && (k == 0 || WholeTokens(slices[..k]) <= total)
    ensures
      var n := FitCount(slices, total, k);
      && (n == 0 || WholeTokens(slices[..n]) <= total)
      && (n < |slices| ==> EstimateTokens(Pack(slices[n])) > RoomAt(slices, total, n))
    decreases |slices| - k
  {
    if k < |slices| {
      assert slices[..k + 1][..k] == slices[..k];
      if WholeTokens(slices[..k + 1]) <= total {
        FitCountFits(slices, total, k + 1);
      }
    }
  }

  /** The packing up to the first slice that does not fit. */
  lemma PackedPrefix(slices: seq<Slice>, total: int)
    requires AllText(slices)
    ensures
      var k := FitCount(slices, total, 0);
      && PackAll(total, slices[..k]) == Packing(RoomAt(slices, total, k), slices[..k], [], [], Packs(slices[..k]))
      && (k < |slices| ==> EstimateTokens(Pack(slices[k])) > RoomAt(slices, total, k))
  {
    FitCountFits(slices, total, 0);
    WholeFit(total, slices[..FitCount(slices, total, 0)]);
  }

  lemma {:induction false} NoRoomLeft(p: Packing, slices: seq<Slice>)
    requires AllText(slices) && forall i :: 0 <= i < |slices| ==> !FindsRoom(slices[i], p.remaining)
    ensures AddAll(p, slices) == p.(omitted := p.omitted + slices)
    decreases |slices|
  {
    if slices == [] {
      assert p.omitted + slices == p.omitted;
    } else {
      NoRoomLeft(AddSlice(p, slices[0]), slices[1..]);
      assert p.omitted + [slices[0]] + slices[1..] == p.omitted + slices;
    }
  }

  lemma {:induction false} IncludedGrows(p: Packing, slices: seq<Slice>)
    ensures p.included <= AddAll(p, slices).included
    decreases |slices|
  {
    if slices != [] {
      IncludedGrows(AddSlice(p, slices[0]), slices[1..]);
    }
  }

  /** The first slice that finds room comes right after those that are included already. */
  lemma {:induction false} NextIncluded(p: Packing, slices: seq<Slice>, i: nat) returns (j: nat)
    requires AllText(slices) && i < |slices| && FindsRoom(slices[i], p.remaining)
    ensures j < |slices| && FindsRoom(slices[j], p.remaining)
    ensures p.included + [slices[j]] <= AddAll(p, slices).included
    decreases |slices|
  {
    if FindsRoom(slices[0], p.remaining) {
      j := 0;
      IncludedGrows(AddSlice(p, slices[0]), slices[1..]);
    } else {
      j := NextIncluded(AddSlice(p, slices[0]), slices[1..], i - 1);
      j := j + 1;
    }
  }

  /** After a slice that is cut no other one finds room. */
  lemma NothingAfterCut(p: Packing, total: int, s: Slice, rest: seq<Slice>)
    requires Accounted(p, total) && p.truncated == []
    requires s.text != "" && |s.header| >= 4 && IsCut(s, p.remaining)
    requires AllText(rest) && RealHeaders(rest)
    ensures var last := AddAll(AddSlice(p, s), rest);
            last.included == p.included + [s] && last.truncated == [s]
  {
    AddSliceAccounted(p, total, s);
    var p' := AddSlice(p, s);
    assert p'.included == p.included + [s] && p'.truncated == [s] && p'.remaining == 1;
    forall i | 0 <= i < |rest| ensures !FindsRoom(rest[i], 1) {
      assert |Pack(rest[i])| >= 5;
    }
    NoRoomLeft(p', rest);
  }

  /** If the first slice that does not fit is cut, it is the last one included. */
  lemma CutIsLast(slices: seq<Slice>, total: int)
    requires AllText(slices) && RealHeaders(slices)
    requires var k := FitCount(slices, total, 0); k < |slices| && FindsRoom(slices[k], RoomAt(slices, total, k))
    ensures
      var p, k := PackAll(total, slices), FitCount(slices, total, 0);
      p.included == slices[..k + 1] && p.truncated == [slices[k]]
  {
    PackedPrefix(slices, total);
    CutIsLastAt(slices, total, FitCount(slices, total, 0));
  }

  lemma CutIsLastAt(slices: seq<Slice>, total: int, k: nat)
    requires AllText(slices) && RealHeaders(slices) && k < |slices|
    requires var p := PackAll(total, slices[..k]);
             p.included == slices[..k] && p.truncated == [] && IsCut(slices[k], p.remaining)
    ensures PackAll(total, slices).included == slices[..k + 1] && PackAll(total, slices).truncated == [slices[k]]
  {
    var p, s, rest := PackAll(total, slices[..k]), slices[k], slices[k + 1..];
    PackAllAccounts(total, slices[..k]);
    PackAllFrom(total, slices, k);
    SplitTail(slices, k);
    NothingAfterCut(p, total, s, rest);
    AddAllStep(p, s, rest, slices[k..]);
    assert slices[..k + 1] == slices[..k] + [s];
  }

  lemma SplitTail(slices: seq<Slice>, k: nat)
    requires k < |slices|
    ensures slices[k..] == [slices[k]] + slices[k + 1..] && slices == slices[..k] + slices[k..]
    ensures AllText(slices) ==> AllText(slices[k..]) && AllText(slices[k + 1..])
    ensures RealHeaders(slices) ==> RealHeaders(slices[k + 1..])
  {
  }

  /** What follows a point where the first slice finds no room: either no slice finds any, or one is included
      that is not the next one. */
  lemma AfterLeftOut(p: Packing, rest: seq<Slice>)
    requires AllText(rest) && rest != [] && !FindsRoom(rest[0], p.remaining)
    ensures
      if NoneFindsRoom(rest, 1, p.remaining)
      then AddAll(p, rest).included == p.included
      else !(AddAll(p, rest).included <= p.included + rest)
  {
    if NoneFindsRoom(rest, 1, p.remaining) {
      NoRoomLeft(p, rest);
    } else {
      var i :| 0 < i < |rest| && FindsRoom(rest[i], p.remaining);
      var j := NextIncluded(p, rest, i);
      var n := |p.included|;
      assert AddAll(p, rest).included[n] == (p.included + [rest[j]])[n] == rest[j];
      assert (p.included + rest)[n] == rest[0] != rest[j];
    }
  }

  /** If the first slice that does not fit is left out, what follows decides. */
  lemma LeftOutIff(slices: seq<Slice>, total: int)
    requires AllText(slices)
    requires var k := FitCount(slices, total, 0); k < |slices| && !FindsRoom(slices[k], RoomAt(slices, total, k))
    ensures PackAll(total, slices).included <= slices <==> OrderKept(slices, total)
  {
    PackedPrefix(slices, total);
    LeftOutAt(slices, total, FitCount(slices, total, 0));
  }

  predicate NoneFindsRoom(slices: seq<Slice>, from: nat, room: int) {
    forall j :: from <= j < |slices| ==> !FindsRoom(slices[j], room)
  }

  lemma RoomInTail(slices: seq<Slice>, k: nat, room: int)
    requires k < |slices|
    ensures NoneFindsRoom(slices, k + 1, room) <==> NoneFindsRoom(slices[k..], 1, room)
  {
    var rest := slices[k..];
    assert forall j :: k < j < |slices| ==> slices[j] == rest[j - k];
    assert forall j :: 0 < j < |rest| ==> rest[j] == slices[k + j];
  }

  lemma LeftOutAt(slices: seq<Slice>, total: int, k: nat)
    requires AllText(slices) && k < |slices|
    requires var p := PackAll(total, slices[..k]);
             p.included == slices[..k] && !FindsRoom(slices[k], p.remaining)
    ensures PackAll(total, slices).included <= slices
       <==> NoneFindsRoom(slices, k + 1, PackAll(total, slices[..k]).remaining)
  {
    var p := PackAll(total, slices[..k]);
    PackAllFrom(total, slices, k);
    SplitTail(slices, k);
    AfterLeftOut(p, slices[k..]);
    RoomInTail(slices, k, p.remaining);
  }

  lemma DropOrderOf(slices: seq<Slice>, total: int)
    requires AllText(slices) && RealHeaders(slices)
    ensures PackAll(total, slices).included <= slices <==> OrderKept(slices, total)
  {
    var k := FitCount(slices, total, 0);
    PackedPrefix(slices, total);
    if k == |slices| {
      assert slices[..k] == slices;
    } else if FindsRoom(slices[k], RoomAt(slices, total, k)) {
      CutIsLast(slices, total);
    } else {
      LeftOutIff(slices, total);
    }
  }

  /** Slices are left out from the end of the priority list, so that the included ones are the first of the
      nonempty ones, exactly when all of them fit, or the first that does not fit is cut, or no later one
      finds room where that one found none. */
  lemma DropOrderIff(inp: CodingSliceInput)
    ensures PackAll(inp.totalTokens, SlicesOf(inp)).included <= NonEmpty(SlicesOf(inp))
       <==> OrderKept(NonEmpty(SlicesOf(inp)), inp.totalTokens)
  {
    HeadersAreReal(inp);
    DropOrderOfNonEmpty(SlicesOf(inp), inp.totalTokens);
  }

  lemma HeadersAreReal(inp: CodingSliceInput)
    ensures RealHeaders(SlicesOf(inp))
  {
  }

  lemma DropOrderOfNonEmpty(slices: seq<Slice>, total: int)
    requires RealHeaders(slices)
    ensures PackAll(total, slices).included <= NonEmpty(slices) <==> OrderKept(NonEmpty(slices), total)
  {
    PackAllSkipsEmpty(total, slices);
    NonEmptyHasText(slices);
    DropOrderOf(NonEmpty(slices), total);
  }

  /** A long task and a short workspace in a small budget: the first is left out and the second is not. */
  lemma LaterSliceCanSurvive(task: string)
    requires |task| == 64
    ensures
      var r := ResultOf(PackAll(9, SlicesOf(CodingSliceInput(true, 9, task, "", "ab", "", "", ""))));
      r.omittedSlices == ["task"] && r.includedSlices == ["workspace"]
  {
    var slices := SlicesOf(CodingSliceInput(true, 9, task, "", "ab", "", "", ""));
    var p0 := Packing(9, [], [], [], []);
    OnlyTwoSlices(9, slices);
    var p1 := AddSlice(p0, slices[0]);
    assert |Pack(slices[0])| == 80 && |slices[0].header| == 15 && p1 == p0.(omitted := [slices[0]]);
    var p2 := AddSlice(p1, slices[1]);
    assert |Pack(slices[1])| == 15 && p2.included == [slices[1]] && p2.omitted == [slices[0]];
  }

  /** A packing in which only the first two slices have a text. */
  lemma OnlyTwoSlices(total: int, slices: seq<Slice>)
    requires |slices| >= 2 && forall i :: 2 <= i < |slices| ==> slices[i].text == ""
    ensures PackAll(total, slices) == AddSlice(AddSlice(Packing(total, [], [], [], []), slices[0]), slices[1])
  {
    PackAllFrom(total, slices, 2);
    NoTextNoChange(PackAll(total, slices[..2]), slices[2..]);
    assert slices[..2] == [slices[0]] + [slices[1]] && [slices[0]] == [] + [slices[0]];
    PackAllAppend(total, [], slices[0]);
    PackAllAppend(total, [slices[0]], slices[1]);
  }

  lemma {:induction false} NoTextNoChange(p: Packing, slices: seq<Slice>)
    requires forall i :: 0 <= i < |slices| ==> slices[i].text == ""
    ensures AddAll(p, slices) == p
    decreases |slices|
  {
    if slices != [] {
      NoTextNoChange(p, slices[1..]);
    }
  }

  // ----- the length of the joined text -----

  function CharSum(parts: seq<string>): nat {
    if parts == [] then 0 else CharSum(parts[..|parts| - 1]) + |parts[|parts| - 1]|
  }

  /** The characters of the slices with their headers. */
  function PackChars(slices: seq<Slice>): nat {
    if slices == [] then 0 else PackChars(slices[..|slices| - 1]) + |Pack(slices[|slices| - 1])|
  }

  /** The characters between `n` parts. */
  function Separators(n: nat): nat {
    if n == 0 then 0 else 2 * (n - 1)
  }

  /** The characters of a slice that is cut to this room: four for each token but the reserved ones, and the
      fifteen of the suffix. */
  function CutChars(room: int): int {
    4 * (room - TRUNCATION_SUFFIX_TOKENS) + 15
  }

  lemma {:induction false} JoinChars(parts: seq<string>)
    ensures |Join(parts, "\n\n")| == CharSum(parts) + Separators(|parts|)
  {
    if |parts| > 1 {
      var init, last := parts[..|parts| - 1], parts[|parts| - 1];
      JoinChars(init);
      JoinAppend(init, last, "\n\n");
      assert parts == init + [last];
    } else if parts != [] {
      assert CharSum(parts[..0]) == 0;
    }
  }

  lemma {:induction false} PacksChars(slices: seq<Slice>)
    ensures CharSum(Packs(slices)) == PackChars(slices) && TokenSum(Packs(slices)) == WholeTokens(slices)
  {
    if slices != [] {
      PacksChars(slices[..|slices| - 1]);
      SumsAppend(Packs(slices[..|slices| - 1]), Pack(slices[|slices| - 1]));
    }
  }

  lemma SumsAppend(parts: seq<string>, part: string)
    ensures CharSum(parts + [part]) == CharSum(parts) + |part|
    ensures TokenSum(parts + [part]) == TokenSum(parts) + EstimateTokens(part)
  {
    assert (parts + [part])[..|parts|] == parts;
  }

  lemma CutPackLength(s: Slice, room: int)
    requires IsCut(s, room)
    ensures |CutPack(s, room)| == CutChars(room)
  {
    assert |TRUNCATION_SUFFIX| == 15;
  }

  /** The characters of the included slices, of which the last one may be cut. */
  function IncludedChars(included: seq<Slice>, cut: bool, total: int): int
    requires cut ==> included != []
  {
    if !cut then PackChars(included)
    else
      var whole := included[..|included| - 1];
      PackChars(whole) + CutChars(total - WholeTokens(whole))
  }

  lemma PartsChars(p: Packing, total: int)
    requires Accounted(p, total) && Faithful(p, total)
    ensures CharSum(p.parts) == IncludedChars(p.included, p.truncated != [], total)
  {
    var n := |p.parts| - |p.truncated|;
    PacksChars(p.included[..n]);
    if p.truncated == [] {
      assert p.parts[..n] == p.parts && p.included[..n] == p.included;
    } else {
      assert CharSum(p.parts) == CharSum(p.parts[..n]) + |p.parts[n]|;
      CutPackLength(p.truncated[0], total - TokenSum(p.parts[..n]));
    }
  }

  lemma JoinedFits(total: int, slices: seq<Slice>)
    requires RealHeaders(slices)
    ensures
      var p := PackAll(total, slices);
      && (p.truncated != [] ==> p.included != [])
      && (EstimateTokens(Join(p.parts, "\n\n")) <= total
          <==> IncludedChars(p.included, p.truncated != [], total) + Separators(|p.included|) < 4 * total)
  {
    var p := PackAll(total, slices);
    PackAllAccounts(total, slices);
    PartsChars(p, total);
    JoinChars(p.parts);
  }

  /** The joined text stays within the budget exactly when the characters of the included slices and of the
      separators between them are fewer than four for each token of the budget. */
  lemma JoinedTextFitsIff(inp: CodingSliceInput)
    ensures
      var total, p := inp.totalTokens, PackAll(inp.totalTokens, SlicesOf(inp));
      && (p.truncated != [] ==> p.included != [])
      && (EstimateTokens(ResultOf(p).contextText) <= total
          <==> IncludedChars(p.included, p.truncated != [], total) + Separators(|p.included|) < 4 * total)
  {
    HeadersAreReal(inp);
    JoinedFits(inp.totalTokens, SlicesOf(inp));
  }

  /** The slices without those that are left out before one is cut: the first slice that does not fit and
      finds no room goes, until all fit or the first that does not fit is cut. */
  function Kept(slices: seq<Slice>, total: int): (kept: seq<Slice>)
    ensures var k := FitCount(kept, total, 0); k == |kept| || FindsRoom(kept[k], RoomAt(kept, total, k))
    decreases |slices|
  {
    var k := FitCount(slices, total, 0);
    if k == |slices| || FindsRoom(slices[k], RoomAt(slices, total, k)) then slices
    else Kept(slices[..k] + slices[k + 1..], total)
  }

  /** The slices that were left out have no bearing on what follows. */
  lemma {:induction false} OmittedIsIrrelevant(p: Packing, omitted: seq<Slice>, slices: seq<Slice>)
    ensures
      var a, b := AddAll(p, slices), AddAll(p.(omitted := omitted), slices);
      a.parts == b.parts && a.included == b.included && a.truncated == b.truncated
    decreases |slices|
  {
    if slices != [] {
      var s := slices[0];
      var next := AddSlice(p.(omitted := omitted), s);
      assert next == AddSlice(p, s).(omitted := next.omitted);
      OmittedIsIrrelevant(AddSlice(p, s), next.omitted, slices[1..]);
    }
  }

  /** Leaving out a slice that finds no room changes nothing but the list of omitted slices. */
  lemma WithoutLeftOut(slices: seq<Slice>, total: int, k: nat)
    requires AllText(slices) && k < |slices| && !FindsRoom(slices[k], PackAll(total, slices[..k]).remaining)
    ensures
      var a, b := PackAll(total, slices), PackAll(total, slices[..k] + slices[k + 1..]);
      a.parts == b.parts && a.included == b.included && a.truncated == b.truncated
  {
    var p, s, rest := PackAll(total, slices[..k]), slices[k], slices[k + 1..];
    PackAllFrom(total, slices, k);
    AddAllStep(p, s, rest, slices[k..]);
    PackAllFrom(total, slices[..k] + rest, k);
    assert (slices[..k] + rest)[..k] == slices[..k] && (slices[..k] + rest)[k..] == rest;
    assert AddSlice(p, s) == p.(omitted := p.omitted + [s]);
    OmittedIsIrrelevant(p, p.omitted + [s], rest);
  }

  lemma {:induction false} KeptIsEnough(slices: seq<Slice>, total: int)
    requires AllText(slices) && RealHeaders(slices)
    ensures AllText(Kept(slices, total)) && RealHeaders(Kept(slices, total))
    ensures PackAll(total, slices).parts == PackAll(total, Kept(slices, total)).parts
    decreases |slices|
  {
    var k := FitCount(slices, total, 0);
    if k < |slices| && !FindsRoom(slices[k], RoomAt(slices, total, k)) {
      var next := slices[..k] + slices[k + 1..];
      FirstLeftOut(slices, total, k, next);
      KeptIsEnough(next, total);
    }
  }

  lemma FirstLeftOut(slices: seq<Slice>, total: int, k: nat, next: seq<Slice>)
    requires AllText(slices) && RealHeaders(slices)
    requires k == FitCount(slices, total, 0) && k < |slices| && !FindsRoom(slices[k], RoomAt(slices, total, k))
    requires next == slices[..k] + slices[k + 1..]
    ensures AllText(next) && RealHeaders(next)
    ensures PackAll(total, slices).parts == PackAll(total, next).parts
  {
    PackedPrefix(slices, total);
    WithoutLeftOut(slices, total, k);
  }

  /** The same in terms of the input alone: of the slices that are kept, all fit as a whole, or the first one
      that does not fit is cut, and the characters of these count. */
  lemma JoinedTextFitsOnInput(inp: CodingSliceInput)
    ensures
      var total, kept := inp.totalTokens, Kept(NonEmpty(SlicesOf(inp)), inp.totalTokens);
      var k := FitCount(kept, total, 0);
      var fits := EstimateTokens(ResultOf(PackAll(total, SlicesOf(inp))).contextText) <= total;
      if k == |kept| then fits <==> PackChars(kept) + Separators(|kept|) < 4 * total
      else fits <==> PackChars(kept[..k]) + CutChars(RoomAt(kept, total, k)) + 2 * k < 4 * total
  {
    HeadersAreReal(inp);
    PackAllSkipsEmpty(inp.totalTokens, SlicesOf(inp));
    NonEmptyHasText(SlicesOf(inp));
    KeptIsEnough(NonEmpty(SlicesOf(inp)), inp.totalTokens);
    JoinedFitsOn(inp.totalTokens, Kept(NonEmpty(SlicesOf(inp)), inp.totalTokens));
  }

  /** If the first slice that does not fit finds no room, and none after it does, the slices before it count. */
  lemma JoinedFitsIfNoneFindsRoom(slices: seq<Slice>, total: int)
    requires AllText(slices) && RealHeaders(slices)
    requires
      var k := FitCount(slices, total, 0);
      k < |slices| && NoneFindsRoom(slices, k, RoomAt(slices, total, k))
    ensures
      var k := FitCount(slices, total, 0);
      EstimateTokens(Join(PackAll(total, slices).parts, "\n\n")) <= total
      <==> PackChars(slices[..k]) + Separators(k) < 4 * total
  {
    var k := FitCount(slices, total, 0);
    PackedPrefix(slices, total);
    JoinedFits(total, slices);
    AllLeftOut(slices, total, k);
  }

  lemma AllLeftOut(slices: seq<Slice>, total: int, k: nat)
    requires AllText(slices) && k < |slices|
    requires NoneFindsRoom(slices, k, PackAll(total, slices[..k]).remaining)
    ensures
      var p, before := PackAll(total, slices), PackAll(total, slices[..k]);
      p.included == before.included && p.truncated == before.truncated
  {
    var p, rest := PackAll(total, slices[..k]), slices[k..];
    PackAllFrom(total, slices, k);
    forall j | 0 <= j < |rest| ensures !FindsRoom(rest[j], p.remaining) {
      assert rest[j] == slices[k + j];
    }
    NoRoomLeft(p, rest);
  }

  lemma JoinedFitsOn(total: int, given: seq<Slice>)
    requires AllText(given) && RealHeaders(given)
    ensures
      var k := FitCount(given, total, 0);
      var fits := EstimateTokens(Join(PackAll(total, given).parts, "\n\n")) <= total;
      && (k == |given| ==> (fits <==> PackChars(given) + Separators(|given|) < 4 * total))
      && (k < |given| && FindsRoom(given[k], RoomAt(given, total, k)) ==>
            (fits <==> PackChars(given[..k]) + CutChars(RoomAt(given, total, k)) + 2 * k < 4 * total))
  {
    if FitCount(given, total, 0) == |given| {
      WholeJoinFits(total, given);
    } else if FindsRoom(given[FitCount(given, total, 0)], RoomAt(given, total, FitCount(given, total, 0))) {
      CutJoinFits(total, given, FitCount(given, total, 0));
    }
  }

  lemma WholeJoinFits(total: int, given: seq<Slice>)
    requires AllText(given) && RealHeaders(given) && FitCount(given, total, 0) == |given|
    ensures EstimateTokens(Join(PackAll(total, given).parts, "\n\n")) <= total
       <==> PackChars(given) + Separators(|given|) < 4 * total
  {
    JoinedFits(total, given);
    PackedPrefix(given, total);
    assert given[..|given|] == given;
  }

  lemma CutJoinFits(total: int, given: seq<Slice>, k: nat)
    requires AllText(given) && RealHeaders(given)
    requires k == FitCount(given, total, 0) && k < |given| && FindsRoom(given[k], RoomAt(given, total, k))
    ensures EstimateTokens(Join(PackAll(total, given).parts, "\n\n")) <= total
       <==> PackChars(given[..k]) + CutChars(RoomAt(given, total, k)) + 2 * k < 4 * total
  {
    JoinedFits(total, given);
    CutIsLast(given, total);
    IncludedCharsOfCut(given, total, k);
  }

  lemma IncludedCharsOfCut(given: seq<Slice>, total: int, k: nat)
    requires k < |given|
    ensures IncludedChars(given[..k + 1], true, total) == PackChars(given[..k]) + CutChars(RoomAt(given, total, k))
  {
    assert given[..k + 1][..k] == given[..k];
  }

  /** The separators between the slices are not counted: two slices that fill the budget exactly overrun it
      once joined. */
  lemma JoinedTextCanExceedBudget()
    ensures exists inp: CodingSliceInput ::
              && inp.totalTokens == 9
              && EstimateTokens(ResultOf(PackAll(9, SlicesOf(inp))).contextText) == 10
  {
    var inp := CodingSliceInput(true, 9, "abc", "", "ab", "", "", "");
    var slices := SlicesOf(inp);
    var p0 := Packing(9, [], [], [], []);
    var p1 := AddSlice(p0, slices[0]);
    assert |Pack(slices[0])| == 19 && p1.remaining == 4 && p1.parts == [Pack(slices[0])];
    var p2 := AddSlice(p1, slices[1]);
    assert |Pack(slices[1])| == 15 && p2.remaining == 0 && p2.parts == [Pack(slices[0]), Pack(slices[1])];
    OnlyTwoSlices(9, slices);
    assert Join(p2.parts, "\n\n") == Pack(slices[0]) + "\n\n" + Pack(slices[1]);
  }
}
