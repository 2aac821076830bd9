/** hooks/registry.py and hooks/dispatcher.py: registering, merging and dispatching hooks. */
module Hooks {
  import opened Wrappers

  /** A tool input; values stand for themselves. */
  type ToolInput = map<string, string>

  datatype Action = Allow | Block | Modify

  datatype HookResult = HookResult(action: Action, modifiedInput: Option<ToolInput>, message: Option<string>)

  const ALLOW := HookResult(Allow, None, None)

  function BlockWith(message: string): HookResult {
    HookResult(Block, None, Some(message))
  }

  function ModifyTo(input: ToolInput): HookResult {
    HookResult(Modify, Some(input), None)
  }

  /** What a callback call comes to: a value of one of the accepted shapes, another value, or an exception. */
  datatype Returned =
    | Structured(result: HookResult)
    | Legacy(decision: Option<string>, reason: Option<string>, continues: bool, toolResult: Option<string>)
    | Text(text: string)
    | OtherValue
    | Raised

  /** One callable, as observed through the three ways in which it can be called. */
  datatype Callback = Callback(
    preTool: (string, ToolInput) -> Returned,
    postTool: (string, ToolInput, string) -> Returned,
    userPrompt: string -> Returned
  )

  datatype HookEntry = HookEntry(event: string, callback: Callback, matcher: string)

  /** `fnmatch(name, pattern)` */
  type Matcher = (string, string) -> bool

  const PRE_TOOL_USE := "PreToolUse"
  const POST_TOOL_USE := "PostToolUse"
  const USER_PROMPT_SUBMIT := "UserPromptSubmit"

  // ----- the registry -----

  type Hooks = map<string, seq<HookEntry>>

  function HooksFor(hooks: Hooks, event: string): seq<HookEntry> {
    if event in hooks then hooks[event] else []
  }

  class HookRegistry {
    var hooks: Hooks

    /** Entries are filed under their own event. */
    ghost predicate Valid()
      reads this
    {
      forall event :: event in hooks ==> forall i :: 0 <= i < |hooks[event]| ==> hooks[event][i].event == event
    }

    constructor ()
      ensures Valid() && hooks == map[]
    {
      hooks := map[];
    }

    method Add(event: string, callback: Callback, matcher: string)
      requires Valid()
      modifies this
      ensures Valid()
      ensures HooksFor(hooks, event) == HooksFor(old(hooks), event) + [HookEntry(event, callback, matcher)]
      ensures forall e :: e != event ==> HooksFor(hooks, e) == HooksFor(old(hooks), e)
    {
      if event !in hooks {
        hooks := hooks[event := []];
      }
      hooks := hooks[event := hooks[event] + [HookEntry(event, callback, matcher)]];
    }

    method GetHooks(event: string) returns (entries: seq<HookEntry>)
      ensures entries == HooksFor(hooks, event)
    {
      entries := if event in hooks then hooks[event] else [];
    }

    /** A new registry with the hooks of this one before those of the other; both are left alone. */
    method Merge(other: HookRegistry) returns (merged: HookRegistry)
      requires Valid() && other.Valid()
      ensures fresh(merged) && merged.Valid()
      ensures forall e :: HooksFor(merged.hooks, e) == HooksFor(hooks, e) + HooksFor(other.hooks, e)
    {
      merged := new HookRegistry();
      merged.AddAll(this);
      merged.AddAll(other);
    }

    method AddAll(source: HookRegistry)
      requires Valid() && source.Valid() && source != this
      modifies this
      ensures Valid()
      ensures forall e :: HooksFor(hooks, e) == HooksFor(old(hooks), e) + HooksFor(source.hooks, e)
    {
      var events := source.hooks.Keys;
      while events != {}
        invariant Valid() && source.hooks == old(source.hooks) && events <= source.hooks.Keys
        invariant forall e :: HooksFor(hooks, e)
                           == HooksFor(old(hooks), e) + if e in events then [] else HooksFor(source.hooks, e)
        decreases events
      {
        var event :| event in events;
        AddEntries(event, source.hooks[event]);
        events := events - {event};
      }
    }

    method AddEntries(event: string, entries: seq<HookEntry>)
      requires Valid() && forall i :: 0 <= i < |entries| ==> entries[i].event == event
      modifies this
      ensures Valid()
      ensures HooksFor(hooks, event) == HooksFor(old(hooks), event) + entries
      ensures forall e :: e != event ==> HooksFor(hooks, e) == HooksFor(old(hooks), e)
    {
      for i := 0 to |entries|
        invariant Valid()
        invariant HooksFor(hooks, event) == HooksFor(old(hooks), event) + entries[..i]
        invariant forall e :: e != event ==> HooksFor(hooks, e) == HooksFor(old(hooks), e)
      {
        Add(entries[i].event, entries[i].callback, entries[i].matcher);
        assert entries[..i + 1] == entries[..i] + [entries[i]];
      }
      assert entries[..|entries|] == entries;
    }
  }

  // ----- coercion -----

  function CoercePreTool(returned: Returned): HookResult {
    match returned
    case Structured(result) => result
    case Legacy(decision, reason, continues, _) =>
      if decision == Some("block") then BlockWith(if reason.Some? then reason.value else "Blocked by hook") else ALLOW
    case _ => ALLOW
  }

  function CoercePostTool(returned: Returned): Option<string> {
    match returned
    case Text(text) => Some(text)
    case Legacy(_, _, continues, toolResult) => if continues then None else toolResult
    case _ => None
  }

  // ----- dispatch, one hook at a time -----

  predicate Applies(fnmatch: Matcher, entry: HookEntry, tool: string) {
    entry.matcher == "" || fnmatch(tool, entry.matcher)
  }

  /** What one hook does to the current input: nothing, a new input, or a block. */
  datatype Effect = Pass | NewInput(input: ToolInput) | Stop(result: HookResult)

  function EffectOf(fnmatch: Matcher, entry: HookEntry, tool: string, input: ToolInput): Effect {
    if !Applies(fnmatch, entry, tool) || entry.callback.preTool(tool, input).Raised? then Pass
    else
      var result := CoercePreTool(entry.callback.preTool(tool, input));
      match result.action
      case Block => Stop(result)
      case Modify => if result.modifiedInput.Some? then NewInput(result.modifiedInput.value) else Pass
      case Allow => Pass
  }

  function DispatchPreFrom(fnmatch: Matcher, entries: seq<HookEntry>, tool: string, input: ToolInput, modified: bool)
    : HookResult
  {
    if entries == [] then if modified then ModifyTo(input) else ALLOW
    else
      match EffectOf(fnmatch, entries[0], tool, input)
      case Pass => DispatchPreFrom(fnmatch, entries[1..], tool, input, modified)
      case NewInput(next) => DispatchPreFrom(fnmatch, entries[1..], tool, next, true)
      case Stop(result) => result
  }

  function DispatchPre(fnmatch: Matcher, entries: seq<HookEntry>, tool: string, input: ToolInput): HookResult {
    DispatchPreFrom(fnmatch, entries, tool, input, false)
  }

  function DispatchPost(fnmatch: Matcher, entries: seq<HookEntry>, tool: string, input: ToolInput, output: string)
    : Option<string>
  {
    if entries == [] then None
    else
      var later := DispatchPost(fnmatch, entries[1..], tool, input, output);
      if later.Some? || !Applies(fnmatch, entries[0], tool) then later
      else CoercePostTool(entries[0].callback.postTool(tool, input, output))
  }

  function PromptAfter(entry: HookEntry, prompt: string): string {
    var returned := entry.callback.userPrompt(prompt);
    if returned.Text? then returned.text else prompt
  }

  function DispatchPrompt(entries: seq<HookEntry>, prompt: string): string {
    if entries == [] then prompt else DispatchPrompt(entries[1..], PromptAfter(entries[0], prompt))
  }

  // ----- the dispatcher object -----

  class DefaultHookDispatcher {
    const registry: HookRegistry
    const fnmatch: Matcher

    constructor (registry: HookRegistry, fnmatch: Matcher)
      ensures this.registry == registry && this.fnmatch == fnmatch
    {
      this.registry := registry;
      this.fnmatch := fnmatch;
    }

    method DispatchPreTool(tool: string, input: ToolInput) returns (result: HookResult)
      ensures result == DispatchPre(fnmatch, HooksFor(registry.hooks, PRE_TOOL_USE), tool, input)
    {
      var currentInput := input;
      var wasModified := false;
      var entries := registry.GetHooks(PRE_TOOL_USE);
      for i := 0 to |entries|
        invariant DispatchPre(fnmatch, entries, tool, input)
               == DispatchPreFrom(fnmatch, entries[i..], tool, currentInput, wasModified)
      {
        var entry := entries[i];
        assert entries[i..][0] == entry && entries[i..][1..] == entries[i + 1..];
        if entry.matcher != "" && !fnmatch(tool, entry.matcher) {
          continue;
        }
        var returned := entry.callback.preTool(tool, currentInput);
        if returned.Raised? {
          continue;
        }
        var hookResult := CoercePreTool(returned);
        if hookResult.action == Block {
          return hookResult;
        }
        if hookResult.action == Modify && hookResult.modifiedInput.Some? {
          currentInput := hookResult.modifiedInput.value;
          wasModified := true;
        }
      }
      if wasModified {
        return ModifyTo(currentInput);
      }
      return ALLOW;
    }

    method DispatchPostTool(tool: string, input: ToolInput, output: string) returns (modified: Option<string>)
      ensures modified == DispatchPost(fnmatch, HooksFor(registry.hooks, POST_TOOL_USE), tool, input, output)
    {
      modified := None;
      var entries := registry.GetHooks(POST_TOOL_USE);
      for i := 0 to |entries|
        invariant modified == DispatchPost(fnmatch, entries[..i], tool, input, output)
      {
        var entry := entries[i];
        assert entries[..i + 1] == entries[..i] + [entry];
        PostCompose(fnmatch, entries[..i], [entry], tool, input, output);
        if entry.matcher != "" && !fnmatch(tool, entry.matcher) {
          continue;
        }
        var returned := entry.callback.postTool(tool, input, output);
        if returned.Raised? {
          continue;
        }
        var coerced := CoercePostTool(returned);
        if coerced.Some? {
          modified := coerced;
        }
      }
      assert entries[..|entries|] == entries;
    }

    method DispatchUserPrompt(prompt: string) returns (current: string)
      ensures current == DispatchPrompt(HooksFor(registry.hooks, USER_PROMPT_SUBMIT), prompt)
    {
      current := prompt;
      var entries := registry.GetHooks(USER_PROMPT_SUBMIT);
      for i := 0 to |entries|
        invariant DispatchPrompt(entries, prompt) == DispatchPrompt(entries[i..], current)
      {
        assert entries[i..][1..] == entries[i + 1..];
        var returned := entries[i].callback.userPrompt(current);
        if returned.Raised? {
          continue;
        }
        if returned.Text? {
          current := returned.text;
        }
      }
    }
  }

  // ----- composition -----

  /** The input that the next hooks see. */
  function InputAfter(result: HookResult, input: ToolInput): ToolInput {
    if result.action == Modify && result.modifiedInput.Some? then result.modifiedInput.value else input
  }

  /** One dispatch after another: a block ends it, and a later change replaces an earlier one. */
  function Sequel(first: HookResult, second: HookResult): HookResult {
    if first.action == Block || second.action == Allow then first else second
  }

  lemma {:induction false} PreComposeFrom(fnmatch: Matcher, a: seq<HookEntry>, b: seq<HookEntry>, tool: string,
                                          input: ToolInput, modified: bool)
    ensures var first := DispatchPreFrom(fnmatch, a, tool, input, modified);
            && DispatchPreFrom(fnmatch, a + b, tool, input, modified)
               == Sequel(first, DispatchPre(fnmatch, b, tool, InputAfter(first, input)))
            && (first.action == Modify ==> first.modifiedInput.Some?)
            && (modified ==> first.action != Allow)
  {
    if a == [] {
      assert a + b == b;
      PreFlag(fnmatch, b, tool, input);
    } else {
      assert (a + b)[1..] == a[1..] + b && (a + b)[0] == a[0];
      match EffectOf(fnmatch, a[0], tool, input) {
        case Pass => PreComposeFrom(fnmatch, a[1..], b, tool, input, modified);
        case NewInput(next) => PreComposeFrom(fnmatch, a[1..], b, tool, next, true);
        case Stop(result) =>
      }
    }
  }

  /** The flag only decides whether a dispatch that changes nothing reports the current input. */
  lemma {:induction false} PreFlag(fnmatch: Matcher, entries: seq<HookEntry>, tool: string, input: ToolInput)
    ensures var plain := DispatchPre(fnmatch, entries, tool, input);
            && DispatchPreFrom(fnmatch, entries, tool, input, true)
               == (if plain.action == Allow then ModifyTo(input) else plain)
            && (plain.action == Allow ==> plain == ALLOW)
  {
    if entries != [] {
      match EffectOf(fnmatch, entries[0], tool, input) {
        case Pass => PreFlag(fnmatch, entries[1..], tool, input);
        case NewInput(next) => PreFlag(fnmatch, entries[1..], tool, next);
        case Stop(result) =>
      }
    }
  }

  lemma {:induction false} PostCompose(fnmatch: Matcher, a: seq<HookEntry>, b: seq<HookEntry>, tool: string,
                                       input: ToolInput, output: string)
    ensures DispatchPost(fnmatch, a + b, tool, input, output)
         == var later := DispatchPost(fnmatch, b, tool, input, output);
            if later.Some? then later else DispatchPost(fnmatch, a, tool, input, output)
  {
    if a == [] {
      assert a + b == b;
    } else {
      assert (a + b)[1..] == a[1..] + b && (a + b)[0] == a[0];
      PostCompose(fnmatch, a[1..], b, tool, input, output);
    }
  }

  lemma {:induction false} PromptCompose(a: seq<HookEntry>, b: seq<HookEntry>, prompt: string)
    ensures DispatchPrompt(a + b, prompt) == DispatchPrompt(b, DispatchPrompt(a, prompt))
  {
    if a == [] {
      assert a + b == b;
    } else {
      assert (a + b)[1..] == a[1..] + b && (a + b)[0] == a[0];
      PromptCompose(a[1..], b, PromptAfter(a[0], prompt));
    }
  }

  /** `merged` holds the hooks of two registries, those of the first one first. */
  ghost predicate MergeOf(merged: Hooks, first: Hooks, second: Hooks) {
    forall e :: HooksFor(merged, e) == HooksFor(first, e) + HooksFor(second, e)
  }

  /** Dispatching over a merged registry is dispatching over the first and then, unless it blocks, over the
      second with the input that the first leaves; prompts chain; of post-tool outputs the later one wins. */
  lemma MergedDispatchIsSequential(fnmatch: Matcher, merged: Hooks, first: Hooks, second: Hooks,
                                   tool: string, input: ToolInput, output: string, prompt: string)
    requires MergeOf(merged, first, second)
    ensures
      var one := DispatchPre(fnmatch, HooksFor(first, PRE_TOOL_USE), tool, input);
      DispatchPre(fnmatch, HooksFor(merged, PRE_TOOL_USE), tool, input)
      == Sequel(one, DispatchPre(fnmatch, HooksFor(second, PRE_TOOL_USE), tool, InputAfter(one, input)))
    ensures DispatchPrompt(HooksFor(merged, USER_PROMPT_SUBMIT), prompt)
         == DispatchPrompt(HooksFor(second, USER_PROMPT_SUBMIT),
                           DispatchPrompt(HooksFor(first, USER_PROMPT_SUBMIT), prompt))
    ensures DispatchPost(fnmatch, HooksFor(merged, POST_TOOL_USE), tool, input, output)
         == var later := DispatchPost(fnmatch, HooksFor(second, POST_TOOL_USE), tool, input, output);
            if later.Some? then later
            else DispatchPost(fnmatch, HooksFor(first, POST_TOOL_USE), tool, input, output)
  {
    PreComposeFrom(fnmatch, HooksFor(first, PRE_TOOL_USE), HooksFor(second, PRE_TOOL_USE), tool, input, false);
    PostCompose(fnmatch, HooksFor(first, POST_TOOL_USE), HooksFor(second, POST_TOOL_USE), tool, input, output);
    PromptCompose(HooksFor(first, USER_PROMPT_SUBMIT), HooksFor(second, USER_PROMPT_SUBMIT), prompt);
  }

  /** Fail-open: a hook that does not apply, or that raises on the input it would see, can be left out. */
  lemma RaisingHookIsIdentity(fnmatch: Matcher, a: seq<HookEntry>, hook: HookEntry, b: seq<HookEntry>,
                              tool: string, input: ToolInput)
    requires var seen := InputAfter(DispatchPre(fnmatch, a, tool, input), input);
             !Applies(fnmatch, hook, tool) || hook.callback.preTool(tool, seen).Raised?
    ensures DispatchPre(fnmatch, a + [hook] + b, tool, input) == DispatchPre(fnmatch, a + b, tool, input)
  {
    var seen := InputAfter(DispatchPre(fnmatch, a, tool, input), input);
    assert a + [hook] + b == a + ([hook] + b);
    PreComposeFrom(fnmatch, a, [hook] + b, tool, input, false);
    PreComposeFrom(fnmatch, a, b, tool, input, false);
    assert ([hook] + b)[1..] == b;
    assert EffectOf(fnmatch, hook, tool, seen) == Pass;
  }

  /** A hook that is reached decides by the shape of what it returns. A block, also one in the dictionary
      form, ends the dispatch with its message, whatever hooks follow. */
  lemma BlockingHookStops(fnmatch: Matcher, a: seq<HookEntry>, hook: HookEntry, b: seq<HookEntry>,
                          tool: string, input: ToolInput)
    requires DispatchPre(fnmatch, a, tool, input).action != Block
    requires hook.matcher == "" || fnmatch(tool, hook.matcher)
    ensures
      var result := DispatchPre(fnmatch, a + [hook] + b, tool, input);
      var returned := hook.callback.preTool(tool, InputAfter(DispatchPre(fnmatch, a, tool, input), input));
      && (returned.Structured? && returned.result.action == Block ==> result == returned.result)
      && (returned.Legacy? && returned.decision == Some("block") ==>
            && (result.action, result.modifiedInput) == (Block, None)
            && result.message == Some(if returned.reason.Some? then returned.reason.value else "Blocked by hook"))
  {
    assert a + [hook] + b == a + ([hook] + b);
    PreComposeFrom(fnmatch, a, [hook] + b, tool, input, false);
    assert ([hook] + b)[1..] == b;
  }

  /** A new input is what the later hooks see, and what the dispatch reports unless they change it again
      or block. */
  lemma ModifyingHookReplaces(fnmatch: Matcher, a: seq<HookEntry>, hook: HookEntry, b: seq<HookEntry>,
                              tool: string, input: ToolInput, next: ToolInput)
    requires DispatchPre(fnmatch, a, tool, input).action != Block
    requires hook.matcher == "" || fnmatch(tool, hook.matcher)
    requires var returned := hook.callback.preTool(tool, InputAfter(DispatchPre(fnmatch, a, tool, input), input));
             returned.Structured? && returned.result.action == Modify && returned.result.modifiedInput == Some(next)
    ensures
      var later := DispatchPre(fnmatch, b, tool, next);
      DispatchPre(fnmatch, a + [hook] + b, tool, input)
      == if later.action == Allow then HookResult(Modify, Some(next), None) else later
  {
    assert a + [hook] + b == a + ([hook] + b);
    PreComposeFrom(fnmatch, a, [hook] + b, tool, input, false);
    assert ([hook] + b)[1..] == b;
    PreFlag(fnmatch, b, tool, next);
  }

  /** Any other answer allows: the hook can be left out, as if it did not match. */
  lemma AllowingHookIsIdentity(fnmatch: Matcher, a: seq<HookEntry>, hook: HookEntry, b: seq<HookEntry>,
                               tool: string, input: ToolInput)
    requires var returned := hook.callback.preTool(tool, InputAfter(DispatchPre(fnmatch, a, tool, input), input));
             || (hook.matcher != "" && !fnmatch(tool, hook.matcher))
             || (returned.Structured? && returned.result.action != Block && returned.result.modifiedInput.None?)
             || (returned.Structured? && returned.result.action == Allow)
             || (returned.Legacy? && returned.decision != Some("block"))
             || returned.Text? || returned.OtherValue? || returned.Raised?
    ensures DispatchPre(fnmatch, a + [hook] + b, tool, input) == DispatchPre(fnmatch, a + b, tool, input)
  {
    var seen := InputAfter(DispatchPre(fnmatch, a, tool, input), input);
    assert a + [hook] + b == a + ([hook] + b);
    PreComposeFrom(fnmatch, a, [hook] + b, tool, input, false);
    PreComposeFrom(fnmatch, a, b, tool, input, false);
    assert ([hook] + b)[1..] == b;
    assert EffectOf(fnmatch, hook, tool, seen) == Pass;
  }

  /** What a hook puts in place of the output when it is called: its text, or the entry of a dictionary that
      does not ask to continue. It stands if and only if no later hook has an output. */
  lemma LastOutputStands(fnmatch: Matcher, a: seq<HookEntry>, hook: HookEntry, b: seq<HookEntry>,
                         tool: string, input: ToolInput, output: string)
    requires hook.matcher == "" || fnmatch(tool, hook.matcher)
    ensures
      var whole := DispatchPost(fnmatch, a + [hook] + b, tool, input, output);
      var later := DispatchPost(fnmatch, b, tool, input, output);
      var returned := hook.callback.postTool(tool, input, output);
      whole == if later.Some? then later
               else if returned.Text? then Some(returned.text)
               else if returned.Legacy? && !returned.continues && returned.toolResult.Some? then returned.toolResult
               else DispatchPost(fnmatch, a, tool, input, output)
  {
    assert a + [hook] + b == a + ([hook] + b) && ([hook] + b)[1..] == b;
    PostCompose(fnmatch, a, [hook] + b, tool, input, output);
  }

  /** A hook that returns a text replaces the prompt for the hooks after it; any other one can be left out. */
  lemma PromptHookReplaces(a: seq<HookEntry>, hook: HookEntry, b: seq<HookEntry>, prompt: string)
    ensures
      var returned := hook.callback.userPrompt(DispatchPrompt(a, prompt));
      DispatchPrompt(a + [hook] + b, prompt)
      == if returned.Text? then DispatchPrompt(b, returned.text) else DispatchPrompt(a + b, prompt)
  {
    assert a + [hook] + b == a + ([hook] + b) && ([hook] + b)[1..] == b;
    PromptCompose(a, [hook] + b, prompt);
    PromptCompose(a, b, prompt);
  }

  /** The first block wins, whatever hooks follow; and a dispatch blocks only if some hook does, on the
      input that the hooks before it leave. */
  lemma FirstBlockWins(fnmatch: Matcher, entries: seq<HookEntry>, tool: string, input: ToolInput)
    ensures DispatchPre(fnmatch, entries, tool, input).action == Block
       <==> exists i: nat ::
              && i < |entries|
              && BlocksAt(fnmatch, entries, i, tool, input)
              && DispatchPre(fnmatch, entries, tool, input)
                 == CoercePreTool(entries[i].callback.preTool(tool, SeenBy(fnmatch, entries, i, tool, input)))
  {
    if DispatchPre(fnmatch, entries, tool, input).action == Block {
      var i := FirstBlock(fnmatch, entries, tool, input);
    }
    forall i: nat | i < |entries| && BlocksAt(fnmatch, entries, i, tool, input)
      ensures DispatchPre(fnmatch, entries, tool, input).action == Block
    {
      assert entries == entries[..i] + entries[i..];
      PreComposeFrom(fnmatch, entries[..i], entries[i..], tool, input, false);
    }
  }

  /** The input that hook `i` is called with. */
  function SeenBy(fnmatch: Matcher, entries: seq<HookEntry>, i: nat, tool: string, input: ToolInput): ToolInput
    requires i <= |entries|
  {
    InputAfter(DispatchPre(fnmatch, entries[..i], tool, input), input)
  }

  /** No hook before `i` blocks, and hook `i` does. */
  predicate BlocksAt(fnmatch: Matcher, entries: seq<HookEntry>, i: nat, tool: string, input: ToolInput)
    requires i < |entries|
  {
    && DispatchPre(fnmatch, entries[..i], tool, input).action != Block
    && EffectOf(fnmatch, entries[i], tool, SeenBy(fnmatch, entries, i, tool, input)).Stop?
  }

  lemma OneHook(fnmatch: Matcher, hook: HookEntry, tool: string, input: ToolInput)
    ensures DispatchPre(fnmatch, [hook], tool, input)
         == match EffectOf(fnmatch, hook, tool, input)
            case Pass => ALLOW
            case NewInput(next) => ModifyTo(next)
            case Stop(result) => result
  {
    var one := [hook];
    assert one[0] == hook && one[1..] == [];
    match EffectOf(fnmatch, hook, tool, input) {
      case Pass => assert DispatchPreFrom(fnmatch, one[1..], tool, input, false) == ALLOW;
      case NewInput(next) => assert DispatchPreFrom(fnmatch, one[1..], tool, next, true) == ModifyTo(next);
      case Stop(result) =>
    }
  }

  lemma {:induction false} FirstBlock(fnmatch: Matcher, entries: seq<HookEntry>, tool: string, input: ToolInput)
    returns (i: nat)
    requires DispatchPre(fnmatch, entries, tool, input).action == Block
    ensures i < |entries| && BlocksAt(fnmatch, entries, i, tool, input)
    ensures DispatchPre(fnmatch, entries, tool, input)
         == CoercePreTool(entries[i].callback.preTool(tool, SeenBy(fnmatch, entries, i, tool, input)))
    decreases |entries|
  {
    var n := |entries| - 1;
    var init := entries[..n];
    assert entries == init + [entries[n]];
    PreComposeFrom(fnmatch, init, [entries[n]], tool, input, false);
    var before := DispatchPre(fnmatch, init, tool, input);
    if before.action == Block {
      i := FirstBlock(fnmatch, init, tool, input);
      assert init[..i] == entries[..i];
    } else {
      i := n;
      var last := [entries[n]];
      OneHook(fnmatch, entries[n], tool, InputAfter(before, input));
    }
  }
}
