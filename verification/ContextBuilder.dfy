/** context/builder.py: building a system prompt from packs of decreasing priority. */
module ContextBuilder {
  import opened Wrappers
  import opened Text
  import opened Budget

  datatype ContextBudget = ContextBudget(
    totalTokens: int,
    goalMax: int,
    toolsMax: int,
    messagesMax: int,
    memoryMax: int,
    profileMax: int,
    summaryMax: int
  )

  datatype Skill = Skill(skillId: string, title: string, instruction: string)
  datatype ChatMessage = ChatMessage(role: string, content: string)
  datatype Fact = Fact(key: string, value: string)

  /** The arguments of `build` with the prompt files already loaded; an absent text is empty. */
  datatype BuildInput = BuildInput(
    budget: ContextBudget,
    identity: string,
    guardrails: string,
    roleId: string,
    roleText: string,
    memoryBankPrompt: string,
    memoryBankContent: string,
    goalText: string,
    phaseText: string,
    skills: seq<Skill>,
    activeSkillIds: seq<string>,
    lastMessages: seq<ChatMessage>,
    recallFacts: seq<Fact>,
    profileFacts: seq<Fact>,
    summary: string
  )

  datatype BuiltContext = BuiltContext(systemPrompt: string, toolBudget: nat, truncatedPacks: seq<string>)

  // ----- the texts of the packs -----

  const ERROR_MARKERS := [
    "{\"error\"", "MCP error", "Таймаут при вызове", "HTTP ошибка MCP", "Runtime не ответил вовремя",
    "Не удалось получить ответ", "SDK subprocess упал", "Ошибка SDK", "Client error"
  ]

  predicate IsErrorMessage(content: string) {
    || content == ""
    || "{\"error\"" <= content
    || "\U{26a0}\U{fe0f}" <= content
    || exists i :: 0 <= i < |ERROR_MARKERS| && Contains(Prefix(content, 200), ERROR_MARKERS[i])
  }

  /** The line for a message; error messages and empty ones have none, long ones are cut. */
  function MessageLine(m: ChatMessage): Option<string> {
    var content := Strip(m.content);
    var speaker := if m.role == "user" then "user" else "assistant";
    var shown := if |content| > 500 then Prefix(content, 500) + "..." else content;
    if IsErrorMessage(content) then None else Some("- [" + speaker + "]: " + shown)
  }

  function MessageLines(ms: seq<ChatMessage>): seq<string> {
    if ms == [] then []
    else if MessageLine(ms[0]).Some? then [MessageLine(ms[0]).value] + MessageLines(ms[1..])
    else MessageLines(ms[1..])
  }

  function FactLines(facts: seq<Fact>): seq<string> {
    if facts == [] then [] else ["- " + facts[0].key + ": " + facts[0].value] + FactLines(facts[1..])
  }

  function Instructions(skills: seq<Skill>, active: seq<string>): seq<string> {
    if skills == [] then []
    else
      (if skills[0].skillId in active && skills[0].instruction != ""
       then ["### Скилл: " + skills[0].title + "\n" + skills[0].instruction] else [])
      + Instructions(skills[1..], active)
  }

  method CollectInstructions(skills: seq<Skill>, active: seq<string>) returns (instructions: seq<string>)
    ensures instructions == Instructions(skills, active)
  {
    instructions := [];
    for i := 0 to |skills|
      invariant instructions + Instructions(skills[i..], active) == Instructions(skills, active)
    {
      if skills[i].skillId in active && skills[i].instruction != "" {
        instructions := instructions + ["### Скилл: " + skills[i].title + "\n" + skills[i].instruction];
      }
    }
  }

  /** A message is shown unless it is blank, starts as an error does, or has a marker that ends within its
      first two hundred characters. */
  lemma ShownIff(m: ChatMessage)
    ensures
      var content := Strip(m.content);
      MessageLine(m).Some?
      <==>
        && content != ""
        && !("{\"error\"" <= content) && !("\U{26a0}\U{fe0f}" <= content)
        && forall k: nat, i: nat :: k < |ERROR_MARKERS| && OccursAt(content, ERROR_MARKERS[k], i) ==>
             i + |ERROR_MARKERS[k]| > 200
  {
    var content := Strip(m.content);
    var start := Prefix(content, 200);
    forall k: nat | k < |ERROR_MARKERS|
      ensures Contains(start, ERROR_MARKERS[k])
         <==> exists i: nat :: OccursAt(content, ERROR_MARKERS[k], i) && i + |ERROR_MARKERS[k]| <= 200
    {
      ContainsInPrefix(content, 200, ERROR_MARKERS[k]);
    }
  }

  lemma ContainsInPrefix(text: string, n: nat, pattern: string)
    ensures Contains(Prefix(text, n), pattern)
       <==> exists i: nat :: OccursAt(text, pattern, i) && i + |pattern| <= n
  {
    var start := Prefix(text, n);
    if Contains(start, pattern) {
      var i: nat :| i <= |start| && OccursAt(start, pattern, i);
      assert start[i..i + |pattern|] == text[i..i + |pattern|];
      assert OccursAt(text, pattern, i);
    }
    if i: nat :| OccursAt(text, pattern, i) && i + |pattern| <= n {
      assert start[i..i + |pattern|] == text[i..i + |pattern|];
      assert OccursAt(start, pattern, i);
    }
  }

  /** The line names the speaker, everyone but the user as the assistant, and ends with the message or with
      its first five hundred characters. */
  lemma ShownText(m: ChatMessage)
    requires MessageLine(m).Some?
    ensures
      var content := Strip(m.content);
      MessageLine(m).value == (if m.role == "user" then "- [user]: " else "- [assistant]: ")
                              + if |content| <= 500 then content else content[..500] + "..."
  {
    if m.role == "user" {
      assert "- [" + "user" + "]: " == "- [user]: ";
    } else {
      assert "- [" + "assistant" + "]: " == "- [assistant]: ";
    }
  }

  /** Each fact has its line. */
  lemma {:induction false} FactLineAt(facts: seq<Fact>, i: nat)
    requires i < |facts|
    ensures |FactLines(facts)| == |facts| && FactLines(facts)[i] == "- " + facts[i].key + ": " + facts[i].value
  {
    if |facts| > 1 {
      FactLineAt(facts[1..], if i > 0 then i - 1 else 0);
    }
  }

  /** The instructions of the active skills, in the order of the skills. */
  lemma {:induction false} InstructionsConcat(a: seq<Skill>, b: seq<Skill>, active: seq<string>)
    ensures Instructions(a + b, active) == Instructions(a, active) + Instructions(b, active)
  {
    if a == [] {
      assert a + b == b;
    } else {
      assert (a + b)[1..] == a[1..] + b;
      InstructionsConcat(a[1..], b, active);
    }
  }

  lemma InstructionsOfOne(skill: Skill, active: seq<string>)
    ensures Instructions([skill], active)
         == if skill.skillId in active && skill.instruction != ""
            then ["### Скилл: " + skill.title + "\n" + skill.instruction] else []
  {
    assert [skill][1..] == [];
  }

  lemma {:induction false} MessageLinesAppend(ms: seq<ChatMessage>, m: ChatMessage)
    ensures MessageLines(ms + [m])
         == MessageLines(ms) + if MessageLine(m).Some? then [MessageLine(m).value] else []
  {
    if ms == [] {
      assert ms + [m] == [m];
    } else {
      assert (ms + [m])[1..] == ms[1..] + [m];
      MessageLinesAppend(ms[1..], m);
    }
  }

  method CollectMessageLines(ms: seq<ChatMessage>) returns (lines: seq<string>)
    ensures lines == MessageLines(ms)
  {
    lines := [];
    for i := 0 to |ms|
      invariant lines == MessageLines(ms[..i])
    {
      assert ms[..i + 1] == ms[..i] + [ms[i]];
      MessageLinesAppend(ms[..i], ms[i]);
      var line := MessageLine(ms[i]);
      if line.Some? {
        lines := lines + [line.value];
      }
    }
    assert ms[..|ms|] == ms;
  }

  // ----- stages -----

  /** How a pack is limited: never dropped, cut to the room that is left, cut to a cap of its own, not cut
      at all, or, for the summary, dropped early and cut to the room if it exceeds that, else to its cap. */
  datatype Rule = Mandatory | ToRoom | ToCap(cap: int) | Uncut | SummaryRule(cap: int)

  /** A pack that may enter the prompt; `wanted` without a pack is a stage with nothing to say. */
  datatype Stage = Stage(name: string, wanted: bool, pack: Option<string>, rule: Rule)

  datatype Building = Building(remaining: int, packs: seq<string>, truncated: seq<string>)

  /** The room that must be exceeded for a stage to be considered. */
  function Threshold(rule: Rule): int {
    if rule.SummaryRule? then 100 else 0
  }

  /** The text that a stage emits when it is considered. */
  function Limited(pack: string, rule: Rule, remaining: int): string {
    var tokens := EstimateTokens(pack);
    match rule
    case Mandatory => pack
    case Uncut => pack
    case ToRoom => if tokens > remaining then TruncateToBudget(pack, remaining) else pack
    case ToCap(cap) => if tokens > cap then TruncateToBudget(pack, cap) else pack
    case SummaryRule(cap) =>
      if remaining < tokens then TruncateToBudget(pack, remaining)
      else if tokens > cap then TruncateToBudget(pack, cap)
      else pack
  }

  predicate IsLimited(pack: string, rule: Rule, remaining: int) {
    var tokens := EstimateTokens(pack);
    match rule
    case Mandatory => false
    case Uncut => false
    case ToRoom => tokens > remaining
    case ToCap(cap) => tokens > cap
    case SummaryRule(cap) => remaining < tokens || tokens > cap
  }

  function AddStage(b: Building, s: Stage): Building {
    if !s.wanted then b
    else if s.rule != Mandatory && b.remaining <= Threshold(s.rule) then b.(truncated := b.truncated + [s.name])
    else if s.pack.None? then b
    else
      var text := Limited(s.pack.value, s.rule, b.remaining);
      Building(b.remaining - EstimateTokens(text), b.packs + [text],
               if IsLimited(s.pack.value, s.rule, b.remaining) then b.truncated + [s.name] else b.truncated)
  }

  function AddStages(b: Building, stages: seq<Stage>): Building
    decreases |stages|
  {
    if stages == [] then b else AddStages(AddStage(b, stages[0]), stages[1..])
  }

  function GuardrailsStage(inp: BuildInput): Stage {
    Stage("guardrails", true, Some(inp.identity + "\n\n" + inp.guardrails), Mandatory)
  }

  function RoleStage(inp: BuildInput): Stage {
    Stage("role", inp.roleText != "", Some("\n## Текущая роль: " + inp.roleId + "\n" + inp.roleText), Mandatory)
  }

  function MemoryBankStage(inp: BuildInput): Stage {
    var bank := if inp.memoryBankContent != ""
                then "\n\n## Текущий банк памяти (MEMORY.md)\n" + inp.memoryBankContent else "";
    Stage("memory_bank", inp.memoryBankPrompt != "", Some("\n" + inp.memoryBankPrompt + bank), ToRoom)
  }

  function GoalStage(inp: BuildInput): Stage {
    Stage("active_goal", inp.goalText != "", Some("\n## Текущая цель\n" + Strip(inp.goalText)), ToCap(inp.budget.goalMax))
  }

  function PhaseStage(inp: BuildInput): Stage {
    Stage("phase", inp.phaseText != "", Some("\n## Текущая фаза\n" + Strip(inp.phaseText)), Uncut)
  }

  function ToolsStage(inp: BuildInput, instructions: seq<string>): Stage {
    Stage("tool_hints", inp.skills != [],
          if instructions == [] then None else Some("\n## Доступные инструменты\n" + Join(instructions, "\n\n")),
          ToCap(inp.budget.toolsMax))
  }

  function MessagesStage(inp: BuildInput, lines: seq<string>): Stage {
    Stage("last_messages", inp.lastMessages != [],
          Some("\n## Последние сообщения диалога\n" + Join(lines, "\n")),
          ToCap(inp.budget.messagesMax))
  }

  function RecallStage(inp: BuildInput): Stage {
    Stage("memory_recall", inp.recallFacts != [],
          Some("\n## Воспоминания из прошлых диалогов\n" + Join(FactLines(inp.recallFacts), "\n")),
          ToCap(inp.budget.memoryMax))
  }

  function ProfileStage(inp: BuildInput): Stage {
    Stage("user_profile", inp.profileFacts != [],
          Some("\n## Профиль пользователя\n" + Join(FactLines(inp.profileFacts), "\n")),
          ToCap(inp.budget.profileMax))
  }

  function SummaryStage(inp: BuildInput): Stage {
    Stage("summary", inp.summary != "", Some("\n## Контекст диалога (summary)\n" + inp.summary),
          SummaryRule(inp.budget.summaryMax))
  }

  /** The stages that can be dropped, in the order of their priority. */
  function OptionalStages(inp: BuildInput): seq<Stage> {
    [MemoryBankStage(inp), GoalStage(inp), PhaseStage(inp),
     ToolsStage(inp, Instructions(inp.skills, inp.activeSkillIds)),
     MessagesStage(inp, MessageLines(inp.lastMessages)),
     RecallStage(inp), ProfileStage(inp), SummaryStage(inp)]
  }

  /** Guardrails and role, which are never dropped. */
  function Base(inp: BuildInput): Building {
    AddStage(AddStage(Building(inp.budget.totalTokens, [], []), GuardrailsStage(inp)), RoleStage(inp))
  }

  function Built(inp: BuildInput): Building {
    AddStages(Base(inp), OptionalStages(inp))
  }

  function Finish(b: Building): BuiltContext {
    BuiltContext(Join(b.packs, "\n"), if b.remaining > 0 then b.remaining else 0, b.truncated)
  }

  method Build(inp: BuildInput) returns (result: BuiltContext)
    ensures result == Finish(Built(inp))
  {
    var packs := [inp.identity + "\n\n" + inp.guardrails];
    var truncated: seq<string> := [];
    var remaining := inp.budget.totalTokens - EstimateTokens(packs[0]);
    if inp.roleText != "" {
      var rolePack := "\n## Текущая роль: " + inp.roleId + "\n" + inp.roleText;
      remaining := remaining - EstimateTokens(rolePack);
      packs := packs + [rolePack];
    }
    assert Building(remaining, packs, truncated) == Base(inp);
    var instructions := CollectInstructions(inp.skills, inp.activeSkillIds);
    var lines := CollectMessageLines(inp.lastMessages);
    var stages := [MemoryBankStage(inp), GoalStage(inp), PhaseStage(inp), ToolsStage(inp, instructions),
                   MessagesStage(inp, lines), RecallStage(inp), ProfileStage(inp), SummaryStage(inp)];
    assert stages == OptionalStages(inp);
    for i := 0 to |stages|
      invariant AddStages(Building(remaining, packs, truncated), stages[i..]) == Built(inp)
    {
      assert stages[i..][0] == stages[i] && stages[i..][1..] == stages[i + 1..];
      remaining, packs, truncated := Consider(stages[i], remaining, packs, truncated);
    }
    result := Finish(Building(remaining, packs, truncated));
  }

  /** One stage of the build: emit the pack, whole or cut, or note that it was dropped. */
  method Consider(s: Stage, remaining: int, packs: seq<string>, truncated: seq<string>)
    returns (remaining': int, packs': seq<string>, truncated': seq<string>)
    requires s.rule != Mandatory
    ensures Building(remaining', packs', truncated') == AddStage(Building(remaining, packs, truncated), s)
  {
    remaining', packs', truncated' := remaining, packs, truncated;
    if s.wanted && remaining > Threshold(s.rule) {
      if s.pack.Some? {
        var pack := s.pack.value;
        var tokens := EstimateTokens(pack);
        match s.rule {
          case ToRoom =>
            if tokens > remaining {
              pack := TruncateToBudget(pack, remaining);
              truncated' := truncated' + [s.name];
            }
          case ToCap(cap) =>
            if tokens > cap {
              pack := TruncateToBudget(pack, cap);
              truncated' := truncated' + [s.name];
            }
          case SummaryRule(cap) =>
            if remaining < tokens {
              pack := TruncateToBudget(pack, remaining);
              truncated' := truncated' + [s.name];
            } else if tokens > cap {
              pack := TruncateToBudget(pack, cap);
              truncated' := truncated' + [s.name];
            }
          case Uncut =>
        }
        remaining' := remaining - EstimateTokens(pack);
        packs' := packs' + [pack];
      }
    } else if s.wanted {
      truncated' := truncated' + [s.name];
    }
  }

  // ----- accounting -----

  function TokenSum(packs: seq<string>): nat {
    if packs == [] then 0 else TokenSum(packs[..|packs| - 1]) + EstimateTokens(packs[|packs| - 1])
  }

  lemma TokenSumAppend(packs: seq<string>, pack: string)
    ensures TokenSum(packs + [pack]) == TokenSum(packs) + EstimateTokens(pack)
  {
    assert (packs + [pack])[..|packs|] == packs;
  }

  lemma AddStageAccounts(b: Building, s: Stage, total: int)
    requires b.remaining == total - TokenSum(b.packs)
    ensures AddStage(b, s).remaining == total - TokenSum(AddStage(b, s).packs)
    ensures b.packs <= AddStage(b, s).packs
  {
    if AddStage(b, s).packs != b.packs {
      TokenSumAppend(b.packs, Limited(s.pack.value, s.rule, b.remaining));
    }
  }

  lemma {:induction false} AddStagesAccount(b: Building, stages: seq<Stage>, total: int)
    requires b.remaining == total - TokenSum(b.packs)
    ensures AddStages(b, stages).remaining == total - TokenSum(AddStages(b, stages).packs)
    ensures b.packs <= AddStages(b, stages).packs
    decreases |stages|
  {
    if stages != [] {
      AddStageAccounts(b, stages[0], total);
      AddStagesAccount(AddStage(b, stages[0]), stages[1..], total);
    }
  }

  lemma BaseAccounts(inp: BuildInput)
    ensures Base(inp).remaining == inp.budget.totalTokens - TokenSum(Base(inp).packs)
  {
    var b := Building(inp.budget.totalTokens, [], []);
    AddStageAccounts(b, GuardrailsStage(inp), inp.budget.totalTokens);
    AddStageAccounts(AddStage(b, GuardrailsStage(inp)), RoleStage(inp), inp.budget.totalTokens);
  }

  /** What the prompt leaves for tools is what the emitted packs leave of the budget, or nothing. */
  lemma ToolBudgetIsWhatIsLeft(inp: BuildInput)
    ensures
      var left := inp.budget.totalTokens - TokenSum(Built(inp).packs);
      Finish(Built(inp)).toolBudget == if left > 0 then left else 0
  {
    BaseAccounts(inp);
    AddStagesAccount(Base(inp), OptionalStages(inp), inp.budget.totalTokens);
  }

  predicate AllOptional(stages: seq<Stage>) {
    forall i :: 0 <= i < |stages| ==> stages[i].rule != Mandatory
  }

  /** The names of the stages that have something to offer. */
  function WantedNames(stages: seq<Stage>): seq<string> {
    if stages == [] then []
    else (if stages[0].wanted then [stages[0].name] else []) + WantedNames(stages[1..])
  }

  /** Once no room is left, no later pack is emitted, and each one that was wanted is reported as dropped. */
  lemma {:induction false} NothingAfterExhaustion(b: Building, stages: seq<Stage>)
    requires b.remaining <= 0 && AllOptional(stages)
    ensures AddStages(b, stages) == b.(truncated := b.truncated + WantedNames(stages))
    decreases |stages|
  {
    if stages == [] {
      assert b.truncated + WantedNames(stages) == b.truncated;
    } else {
      NothingAfterExhaustion(AddStage(b, stages[0]), stages[1..]);
    }
  }

  // ----- a budget that is ample, and one that is exhausted -----

  function OfferOf(s: Stage): seq<string> {
    if s.wanted && s.pack.Some? then [s.pack.value] else []
  }

  /** What the stages have to offer, in order. */
  function Offers(stages: seq<Stage>): seq<string> {
    if stages == [] then [] else OfferOf(stages[0]) + Offers(stages[1..])
  }

  predicate WithinCap(s: Stage) {
    s.wanted && s.pack.Some? && (s.rule.ToCap? || s.rule.SummaryRule?) ==> EstimateTokens(s.pack.value) <= s.rule.cap
  }

  predicate AllCapped(stages: seq<Stage>) {
    forall i :: 0 <= i < |stages| ==> WithinCap(stages[i])
  }

  lemma {:induction false} TokenSumConcat(a: seq<string>, b: seq<string>)
    ensures TokenSum(a + b) == TokenSum(a) + TokenSum(b)
  {
    if b == [] {
      assert a + b == a;
    } else {
      var init, last := b[..|b| - 1], b[|b| - 1];
      assert a + b == a + init + [last] && b == init + [last];
      TokenSumConcat(a, init);
      TokenSumAppend(a + init, last);
    }
  }

  lemma AmpleStage(b: Building, s: Stage)
    requires s.rule != Mandatory && WithinCap(s) && b.remaining - TokenSum(OfferOf(s)) > 100
    ensures AddStage(b, s) == Building(b.remaining - TokenSum(OfferOf(s)), b.packs + OfferOf(s), b.truncated)
  {
    if s.wanted && s.pack.Some? {
      assert OfferOf(s)[..0] == [];
      assert TokenSum(OfferOf(s)) == EstimateTokens(s.pack.value);
    }
  }

  lemma {:induction false} AmpleStages(b: Building, stages: seq<Stage>)
    requires AllOptional(stages) && AllCapped(stages)
    requires b.remaining - TokenSum(Offers(stages)) > 100
    ensures AddStages(b, stages)
         == Building(b.remaining - TokenSum(Offers(stages)), b.packs + Offers(stages), b.truncated)
    decreases |stages|
  {
    if stages != [] {
      AmpleTail(stages);
      var offer, rest := OfferOf(stages[0]), Offers(stages[1..]);
      TokenSumConcat(offer, rest);
      AmpleStage(b, stages[0]);
      AmpleStages(AddStage(b, stages[0]), stages[1..]);
      PacksAdd(b.packs, offer, rest, Offers(stages));
    }
  }

  lemma AmpleTail(stages: seq<Stage>)
    requires stages != [] && AllOptional(stages) && AllCapped(stages)
    ensures stages[0].rule != Mandatory && WithinCap(stages[0])
    ensures AllOptional(stages[1..]) && AllCapped(stages[1..])
  {
  }

  lemma PacksAdd(packs: seq<string>, offer: seq<string>, rest: seq<string>, all: seq<string>)
    requires all == offer + rest
    ensures packs + offer + rest == packs + all
  {
  }

  function Flatten(parts: seq<seq<string>>): seq<string> {
    if parts == [] then [] else parts[0] + Flatten(parts[1..])
  }

  lemma {:induction false} OffersInParts(stages: seq<Stage>, parts: seq<seq<string>>)
    requires |parts| == |stages| && forall i :: 0 <= i < |stages| ==> parts[i] == OfferOf(stages[i])
    ensures Offers(stages) == Flatten(parts)
  {
    if stages != [] {
      OffersInParts(stages[1..], parts[1..]);
    }
  }

  lemma {:induction false} NamesInParts(stages: seq<Stage>, parts: seq<seq<string>>)
    requires |parts| == |stages|
    requires forall i :: 0 <= i < |stages| ==> parts[i] == NameOf(stages[i])
    ensures WantedNames(stages) == Flatten(parts)
  {
    if stages != [] {
      NamesInParts(stages[1..], parts[1..]);
    }
  }

  /** A section with its heading, if something is given for it. */
  function Section(given: bool, heading: string, text: string): seq<string> {
    if given then [heading + text] else []
  }

  /** The sections that are never dropped. */
  function FixedSections(inp: BuildInput): seq<string> {
    [inp.identity + "\n\n" + inp.guardrails]
    + Section(inp.roleText != "", "\n## Текущая роль: " + inp.roleId + "\n", inp.roleText)
  }

  /** The other sections, uncut, in the order in which they are to be read. */
  function OtherSections(inp: BuildInput): seq<seq<string>> {
    var bank := if inp.memoryBankContent == "" then ""
                else "\n\n## Текущий банк памяти (MEMORY.md)\n" + inp.memoryBankContent;
    var instructions := Instructions(inp.skills, inp.activeSkillIds);
    [Section(inp.memoryBankPrompt != "", "\n" + inp.memoryBankPrompt, bank),
     Section(inp.goalText != "", "\n## Текущая цель\n", Strip(inp.goalText)),
     Section(inp.phaseText != "", "\n## Текущая фаза\n", Strip(inp.phaseText)),
     Section(instructions != [], "\n## Доступные инструменты\n", Join(instructions, "\n\n")),
     Section(inp.lastMessages != [], "\n## Последние сообщения диалога\n", Join(MessageLines(inp.lastMessages), "\n")),
     Section(inp.recallFacts != [], "\n## Воспоминания из прошлых диалогов\n", Join(FactLines(inp.recallFacts), "\n")),
     Section(inp.profileFacts != [], "\n## Профиль пользователя\n", Join(FactLines(inp.profileFacts), "\n")),
     Section(inp.summary != "", "\n## Контекст диалога (summary)\n", inp.summary)]
  }

  function AllSections(inp: BuildInput): seq<string> {
    FixedSections(inp) + Flatten(OtherSections(inp))
  }

  function GivenName(given: bool, name: string): seq<string> {
    if given then [name] else []
  }

  function NameOf(s: Stage): seq<string> {
    GivenName(s.wanted, s.name)
  }

  /** The names of the sections that can be dropped, if something is given for them. */
  function GivenNames(inp: BuildInput): seq<seq<string>> {
    [GivenName(inp.memoryBankPrompt != "", "memory_bank"),
     GivenName(inp.goalText != "", "active_goal"),
     GivenName(inp.phaseText != "", "phase"),
     GivenName(inp.skills != [], "tool_hints"),
     GivenName(inp.lastMessages != [], "last_messages"),
     GivenName(inp.recallFacts != [], "memory_recall"),
     GivenName(inp.profileFacts != [], "user_profile"),
     GivenName(inp.summary != "", "summary")]
  }

  lemma BaseOffers(inp: BuildInput)
    ensures Base(inp).packs == FixedSections(inp) && Base(inp).truncated == []
  {
  }

  lemma MemoryOffer(inp: BuildInput)
    ensures OfferOf(MemoryBankStage(inp)) == OtherSections(inp)[0]
  {
  }

  lemma ToolsOffer(inp: BuildInput)
    ensures OfferOf(ToolsStage(inp, Instructions(inp.skills, inp.activeSkillIds))) == OtherSections(inp)[3]
  {
    assert inp.skills == [] ==> Instructions(inp.skills, inp.activeSkillIds) == [];
  }

  lemma DialogOffers(inp: BuildInput)
    ensures OfferOf(MessagesStage(inp, MessageLines(inp.lastMessages))) == OtherSections(inp)[4]
    ensures OfferOf(RecallStage(inp)) == OtherSections(inp)[5]
    ensures OfferOf(ProfileStage(inp)) == OtherSections(inp)[6]
  {
  }

  lemma TextOffers(inp: BuildInput)
    ensures OfferOf(GoalStage(inp)) == OtherSections(inp)[1]
    ensures OfferOf(PhaseStage(inp)) == OtherSections(inp)[2]
    ensures OfferOf(SummaryStage(inp)) == OtherSections(inp)[7]
  {
  }

  lemma SectionsAreOffers(inp: BuildInput, parts: seq<seq<string>>)
    requires parts == OtherSections(inp)
    ensures Offers(OptionalStages(inp)) == Flatten(parts)
  {
    MemoryOffer(inp);
    TextOffers(inp);
    ToolsOffer(inp);
    DialogOffers(inp);
    OffersInParts(OptionalStages(inp), parts);
  }

  lemma FirstNames(inp: BuildInput)
    ensures NameOf(MemoryBankStage(inp)) == GivenNames(inp)[0] && NameOf(GoalStage(inp)) == GivenNames(inp)[1]
    ensures NameOf(PhaseStage(inp)) == GivenNames(inp)[2]
    ensures NameOf(ToolsStage(inp, Instructions(inp.skills, inp.activeSkillIds))) == GivenNames(inp)[3]
  {
  }

  lemma LastNames(inp: BuildInput)
    ensures NameOf(MessagesStage(inp, MessageLines(inp.lastMessages))) == GivenNames(inp)[4]
    ensures NameOf(RecallStage(inp)) == GivenNames(inp)[5] && NameOf(ProfileStage(inp)) == GivenNames(inp)[6]
    ensures NameOf(SummaryStage(inp)) == GivenNames(inp)[7]
  {
  }

  lemma NamesAreGiven(inp: BuildInput, parts: seq<seq<string>>)
    requires parts == GivenNames(inp)
    ensures WantedNames(OptionalStages(inp)) == Flatten(parts)
  {
    var stages := OptionalStages(inp);
    assert |stages| == |parts| == 8;
    forall i | 0 <= i < 4 ensures parts[i] == NameOf(stages[i]) {
      FirstNames(inp);
    }
    forall i | 4 <= i < 8 ensures parts[i] == NameOf(stages[i]) {
      LastNames(inp);
    }
    NamesInParts(stages, parts);
  }

  /** If no section exceeds its cap and more than a hundred tokens are left after all of them, the prompt has
      every section, whole and in order, and the rest is left for tools. */
  lemma AmpleBudgetKeepsAll(inp: BuildInput)
    requires AllCapped(OptionalStages(inp)) && inp.budget.totalTokens - TokenSum(AllSections(inp)) > 100
    ensures Finish(Built(inp))
         == BuiltContext(Join(AllSections(inp), "\n"), inp.budget.totalTokens - TokenSum(AllSections(inp)), [])
  {
    BaseAccounts(inp);
    BaseOffers(inp);
    SectionsAreOffers(inp, OtherSections(inp));
    TokenSumConcat(Base(inp).packs, Offers(OptionalStages(inp)));
    OptionalAreOptional(inp);
    AmpleStages(Base(inp), OptionalStages(inp));
  }

  lemma OptionalAreOptional(inp: BuildInput)
    ensures AllOptional(OptionalStages(inp))
  {
  }

  /** If guardrails and role leave no room, they are the whole prompt, and every other section that something
      is given for is reported as dropped. */
  lemma ExhaustedKeepsBase(inp: BuildInput)
    requires inp.budget.totalTokens <= TokenSum(FixedSections(inp))
    ensures Finish(Built(inp)) == BuiltContext(Join(FixedSections(inp), "\n"), 0, Flatten(GivenNames(inp)))
  {
    BaseAccounts(inp);
    BaseOffers(inp);
    OptionalAreOptional(inp);
    NothingAfterExhaustion(Base(inp), OptionalStages(inp));
    NamesAreGiven(inp, GivenNames(inp));
  }

  // ----- one stage -----

  /** How many tokens a pack may have. */
  function LimitOf(rule: Rule, room: int, pack: string): Option<int> {
    match rule
    case Mandatory => None
    case Uncut => None
    case ToRoom => Some(room)
    case ToCap(cap) => Some(cap)
    case SummaryRule(cap) => Some(if |pack| >= 4 * room then room else cap)
  }

  /** Without anything to say a stage changes nothing; without more room than nothing, or than a hundred tokens
      for the summary, it is reported as dropped. */
  lemma SilentOrDropped(b: Building, s: Stage)
    ensures !s.wanted ==> AddStage(b, s) == b
    ensures s.wanted && s.rule != Mandatory && b.remaining <= (if s.rule.SummaryRule? then 100 else 0) ==>
              AddStage(b, s) == b.(truncated := b.truncated + [s.name])
    ensures s.wanted && s.pack.None? && b.remaining > 100 ==> AddStage(b, s) == b
  {
  }

  /** Otherwise its pack is emitted, and its cost is taken off. It is whole if it has no more than four
      characters for each token of its limit, else its beginning with the suffix; it is reported as truncated
      if it has as many or more. */
  lemma EmittedByLength(b: Building, s: Stage)
    requires s.wanted && s.pack.Some?
    requires s.rule == Mandatory || b.remaining > if s.rule.SummaryRule? then 100 else 0
    requires CapNonNegative(s.rule)
    ensures
      var pack, limit, b' := s.pack.value, LimitOf(s.rule, b.remaining, s.pack.value), AddStage(b, s);
      && |b'.packs| == |b.packs| + 1 && b'.packs[..|b.packs|] == b.packs
      && var text := b'.packs[|b.packs|];
      && b'.remaining == b.remaining - (|text| / 4 + 1)
      && (if limit.None? || |pack| <= 4 * limit.value then text == pack
          else text == pack[..4 * limit.value] + "\n... [обрезано]")
      && b'.truncated == if limit.None? || |pack| < 4 * limit.value then b.truncated else b.truncated + [s.name]
  {
  }

  /** A summary exceeds its cap by more than the four tokens of a cut exactly when the room that is left is
      larger than the cap and the summary does not fit it: then it is cut to the room. */
  lemma SummaryCapIff(b: Building, s: Stage)
    requires s.wanted && s.pack.Some? && s.rule.SummaryRule? && s.rule.cap >= 0 && b.remaining > 100
    ensures
      var cap := s.rule.cap;
      b.remaining - AddStage(b, s).remaining > cap + 4
      <==> || (cap < b.remaining && 4 * b.remaining < |s.pack.value|)
           || (cap + 3 < b.remaining && 4 * b.remaining == |s.pack.value|)
  {
    TruncationOvershoot(s.pack.value, b.remaining);
    TruncationOvershoot(s.pack.value, s.rule.cap);
  }

  // ----- the bound -----

  /** By how much a stage can overrun the budget, given that some room is left when it is considered. */
  function Overrun(s: Stage): nat {
    match s.rule
    case Mandatory => 0
    case ToRoom => 4
    case ToCap(cap) => if cap > 0 then cap + 3 else 3
    case Uncut => if s.pack.Some? then EstimateTokens(s.pack.value) - 1 else 0
    case SummaryRule(_) => 4
  }

  /** No stage that has something to offer can overrun the budget by more than `m`. */
  predicate OverrunAtMost(stages: seq<Stage>, m: nat) {
    forall i :: 0 <= i < |stages| ==> StageWithin(stages[i], m)
  }

  predicate CapNonNegative(rule: Rule) {
    rule.ToCap? || rule.SummaryRule? ==> rule.cap >= 0
  }

  predicate CapsNonNegative(stages: seq<Stage>) {
    forall i :: 0 <= i < |stages| ==> CapNonNegative(stages[i].rule)
  }

  lemma LimitedCost(pack: string, rule: Rule, remaining: int)
    requires remaining > Threshold(rule) && !rule.Mandatory? && !rule.Uncut?
    requires rule.ToCap? || rule.SummaryRule? ==> rule.cap >= 0
    ensures EstimateTokens(Limited(pack, rule, remaining))
         <= if rule.ToCap? then rule.cap + 4 else remaining + 4
  {
    TruncationOvershoot(pack, remaining);
    if rule.ToCap? || rule.SummaryRule? {
      TruncationOvershoot(pack, rule.cap);
    }
  }

  lemma AddStageBound(b: Building, s: Stage)
    requires s.rule != Mandatory && CapNonNegative(s.rule)
    ensures AddStage(b, s).remaining >= b.remaining || (s.wanted && AddStage(b, s).remaining >= 0 - Overrun(s))
  {
    if s.wanted && b.remaining > Threshold(s.rule) && s.pack.Some? && s.rule != Uncut {
      LimitedCost(s.pack.value, s.rule, b.remaining);
    }
  }

  lemma {:induction false} AddStagesBound(b: Building, stages: seq<Stage>, m: nat)
    requires AllOptional(stages) && CapsNonNegative(stages) && OverrunAtMost(stages, m)
    ensures AddStages(b, stages).remaining >= b.remaining || AddStages(b, stages).remaining >= 0 - m
    decreases |stages|
  {
    if stages != [] {
      AddStageBound(b, stages[0]);
      AddStagesBound(AddStage(b, stages[0]), stages[1..], m);
    }
  }

  function Max(a: int, b: int): int {
    if a > b then a else b
  }

  /** The largest cap, and one if all are zero. */
  function LargestCap(budget: ContextBudget): int {
    Max(1, Max(budget.goalMax, Max(budget.toolsMax, Max(budget.messagesMax, Max(budget.memoryMax, budget.profileMax)))))
  }

  predicate NonNegativeCaps(budget: ContextBudget) {
    && budget.goalMax >= 0 && budget.toolsMax >= 0 && budget.messagesMax >= 0
    && budget.memoryMax >= 0 && budget.profileMax >= 0 && budget.summaryMax >= 0
  }

  /** How far the packs can overrun: the largest cap and three tokens, or the size of the phase text, which
      has no cap. */
  function Slack(inp: BuildInput): nat {
    var phase := if inp.phaseText == "" then 0 else EstimateTokens(PhaseStage(inp).pack.value) - 1;
    Max(LargestCap(inp.budget) + 3, phase)
  }

  lemma StagesHaveRules(inp: BuildInput)
    requires NonNegativeCaps(inp.budget)
    ensures AllOptional(OptionalStages(inp)) && CapsNonNegative(OptionalStages(inp))
  {
  }

  lemma CapsWithinLargest(budget: ContextBudget)
    requires NonNegativeCaps(budget)
    ensures 1 <= LargestCap(budget)
    ensures budget.goalMax <= LargestCap(budget) && budget.toolsMax <= LargestCap(budget)
    ensures budget.messagesMax <= LargestCap(budget) && budget.memoryMax <= LargestCap(budget)
    ensures budget.profileMax <= LargestCap(budget)
  {
  }

  predicate StageWithin(s: Stage, m: nat) {
    s.wanted ==> Overrun(s) <= m
  }

  lemma StagesWithinSlack(inp: BuildInput)
    requires NonNegativeCaps(inp.budget)
    ensures OverrunAtMost(OptionalStages(inp), Slack(inp))
  {
    var m, stages := Slack(inp), OptionalStages(inp);
    CapsWithinLargest(inp.budget);
    assert m >= LargestCap(inp.budget) + 3 >= 4;
    CappedWithin(GoalStage(inp), m);
    CappedWithin(stages[3], m);
    CappedWithin(stages[4], m);
    CappedWithin(RecallStage(inp), m);
    CappedWithin(ProfileStage(inp), m);
    assert StageWithin(MemoryBankStage(inp), m) && StageWithin(PhaseStage(inp), m) && StageWithin(SummaryStage(inp), m);
  }

  lemma CappedWithin(s: Stage, m: nat)
    requires s.rule.ToCap? && 3 <= m && s.rule.cap + 3 <= m
    ensures StageWithin(s, m)
  {
  }

  /** The emitted packs exceed the budget by no more than that, unless guardrails and role alone do. */
  lemma BuiltWithinBound(inp: BuildInput)
    requires NonNegativeCaps(inp.budget)
    ensures TokenSum(Built(inp).packs) <= Max(TokenSum(Base(inp).packs), inp.budget.totalTokens + Slack(inp))
  {
    BaseAccounts(inp);
    AddStagesAccount(Base(inp), OptionalStages(inp), inp.budget.totalTokens);
    StagesHaveRules(inp);
    StagesWithinSlack(inp);
    AddStagesBound(Base(inp), OptionalStages(inp), Slack(inp));
  }
}
