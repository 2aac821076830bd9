/** agent/conversation.py: the history of a conversation and its copy in the message store. */
module Conversation {
  import opened Wrappers
  import opened Messages
  import opened MessageStore
  import opened Compaction

  const RESUME_LIMIT := 0x7fff_ffff

  /** The events of one reply, as far as the history depends on them. A final event can carry its text and
      its new messages as attributes or in its data; the attributes win. */
  datatype Event =
    | TextDelta(delta: string)
    | ErrorEvent
    | FinalEvent(text: Option<string>, dataText: Option<string>,
                 newMessages: Option<seq<Message>>, dataNewMessages: Option<seq<Message>>)
    | OtherEvent

  function NewMessagesOf(e: Event): seq<Message>
    requires e.FinalEvent?
  {
    if e.newMessages.Some? then e.newMessages.value
    else if e.dataNewMessages.Some? then e.dataNewMessages.value
    else []
  }

  datatype Collected = Collected(text: string, newMessages: seq<Message>, error: bool)

  /** What `collect_stream_result` gathers: a final text replaces the deltas. */
  function Collect(events: seq<Event>): Collected {
    if events == [] then Collected("", [], false)
    else
      var sofar := Collect(events[..|events| - 1]);
      match events[|events| - 1]
      case TextDelta(text) => sofar.(text := sofar.text + text)
      case ErrorEvent => sofar.(error := true)
      case OtherEvent => sofar
      case FinalEvent(text, dataText, _, _) =>
        sofar.(text := if text.Some? && text.value != "" then text.value
                       else if dataText.Some? then dataText.value else sofar.text,
               newMessages := NewMessagesOf(events[|events| - 1]))
  }

  /** What `stream` gathers: the deltas only. */
  function CollectStream(events: seq<Event>): Collected {
    if events == [] then Collected("", [], false)
    else
      var sofar := CollectStream(events[..|events| - 1]);
      match events[|events| - 1]
      case TextDelta(text) => sofar.(text := sofar.text + text)
      case ErrorEvent => sofar.(error := true)
      case OtherEvent => sofar
      case FinalEvent(_, _, _, _) => sofar.(newMessages := NewMessagesOf(events[|events| - 1]))
  }

  /** The messages that a reply adds. */
  function ReplyMessages(c: Collected): seq<Message> {
    if c.error then []
    else if c.newMessages != [] then c.newMessages
    else if c.text != "" then [PlainMessage("assistant", c.text)]
    else []
  }

  /** A turn of the dialog. `Broken` is a turn that ends in an exception, or a stream that its consumer
      abandons: it has put `added` into the history, of which at most `saved` messages were stored. */
  datatype Turn =
    | Say(prompt: string, events: seq<Event>)
    | Stream(prompt: string, events: seq<Event>)
    | Broken(added: seq<Message>, saved: nat)
    | Resume(session: string)

  datatype State = State(userId: string, session: string, history: seq<Message>, messages: Stored)

  function KeyOf(s: State): Key {
    (s.userId, s.session)
  }

  /** The messages that a turn adds to the history. */
  function AddedBy(turn: Turn): seq<Message> {
    match turn
    case Say(prompt, events) => [PlainMessage("user", prompt)] + ReplyMessages(Collect(events))
    case Stream(prompt, events) => [PlainMessage("user", prompt)] + ReplyMessages(CollectStream(events))
    case Broken(added, _) => added
    case Resume(_) => []
  }

  /** How many of them are stored: all up to the first one that raises, but none after a stream with an
      error event. */
  function SavedBy(turn: Turn): (n: nat)
    ensures n <= |AddedBy(turn)| && AllStorable(AddedBy(turn)[..n])
  {
    var n := StorableCount(AddedBy(turn));
    match turn
    case Stream(_, events) => if CollectStream(events).error then 0 else n
    case Broken(added, saved) =>
      assert forall k: nat :: k <= n ==> added[..k] == added[..n][..k];
      if saved < n then saved else n
    case _ => n
  }

  function Appended(messages: Stored, key: Key, mms: seq<MemoryMessage>): Stored {
    if mms == [] then messages else messages[key := StoredAt(messages, key) + mms]
  }

  /** The store after saving these messages up to the first one that raises. */
  function Persisted(messages: Stored, key: Key, ms: seq<Message>): Stored {
    Appended(messages, key, ToMemoryAll(ms[..StorableCount(ms)]))
  }

  /** Adds messages to the history and stores the first `saved` of them. */
  function Record(s: State, ms: seq<Message>, saved: nat): State
    requires saved <= |ms| && AllStorable(ms[..saved])
  {
    s.(history := s.history + ms, messages := Appended(s.messages, KeyOf(s), ToMemoryAll(ms[..saved])))
  }

  /** What `get_messages` returns for a limit. */
  function LastN(mms: seq<MemoryMessage>, limit: int): (r: seq<MemoryMessage>)
    ensures IsSuffix(r, mms)
    ensures limit <= 0 ==> r == []
    ensures limit > 0 ==> |r| == if limit < |mms| then limit else |mms|
  {
    if limit <= 0 then [] else if limit < |mms| then mms[|mms| - limit..] else mms
  }

  /** The history that resuming a session loads, before compaction. */
  function LoadedHistory(messages: Stored, key: Key): seq<Message> {
    FromMemoryAll(LastN(StoredAt(messages, key), RESUME_LIMIT))
  }

  /** Compaction after loading; there is no summarizing model here. */
  function Compacted(config: Option<CompactionConfig>, history: seq<Message>, systemPrompt: string): seq<Message> {
    if config.None? || history == [] then history else Compact(config.value, None, history, systemPrompt)
  }

  function Step(s: State, turn: Turn, config: Option<CompactionConfig>, systemPrompt: string): State {
    match turn
    case Resume(session) =>
      s.(session := session,
         history := Compacted(config, LoadedHistory(s.messages, (s.userId, session)), systemPrompt))
    case _ => Record(s, AddedBy(turn), SavedBy(turn))
  }

  /** A turn that is not cut short persists what it adds. */
  lemma StepPersists(s: State, turn: Turn, config: Option<CompactionConfig>, systemPrompt: string)
    requires !turn.Resume? && SavedBy(turn) == StorableCount(AddedBy(turn))
    ensures Step(s, turn, config, systemPrompt)
         == s.(history := s.history + AddedBy(turn), messages := Persisted(s.messages, KeyOf(s), AddedBy(turn)))
  {
  }

  /** A failed stream adds its prompt to the history and nothing to the store. */
  lemma StepForgets(s: State, prompt: string, events: seq<Event>, config: Option<CompactionConfig>,
                    systemPrompt: string)
    requires CollectStream(events).error
    ensures AddedBy(Stream(prompt, events)) == [PlainMessage("user", prompt)]
    ensures Step(s, Stream(prompt, events), config, systemPrompt)
         == s.(history := s.history + [PlainMessage("user", prompt)])
  {
    assert ToMemoryAll(AddedBy(Stream(prompt, events))[..0]) == [];
  }

  // ----- the conversation object -----

  class Conversation {
    const userId: string
    const store: InMemoryMemoryProvider?
    const compaction: Option<CompactionConfig>
    const systemPrompt: string
    var sessionId: string
    var history: seq<Message>

    constructor (sessionId: string, store: InMemoryMemoryProvider?, userId: string,
                 compaction: Option<CompactionConfig>, systemPrompt: string)
      ensures this.sessionId == sessionId && history == []
      ensures this.store == store && this.userId == userId
      ensures this.compaction == compaction && this.systemPrompt == systemPrompt
    {
      this.userId := userId;
      this.store := store;
      this.compaction := compaction;
      this.systemPrompt := systemPrompt;
      this.sessionId := sessionId;
      history := [];
    }

    ghost function Abs(): State
      requires store != null
      reads this, store
    {
      State(userId, sessionId, history, store.messages)
    }

    /** `prompt` is the prompt after the middleware, `events` what the runtime yields. The turn raises if a
        message cannot be stored. */
    method SayTurn(prompt: string, events: seq<Event>) returns (raised: bool)
      modifies this`history, store
      ensures raised <==> store != null && !AllStorable(AddedBy(Say(prompt, events)))
      ensures store != null ==> Abs() == Step(old(Abs()), Say(prompt, events), compaction, systemPrompt)
      ensures store == null ==>
                history == old(history) + AddedBy(Say(prompt, events))
    {
      var lenBefore := |history|;
      history := history + [PlainMessage("user", prompt)];
      var c := CollectResult(events);
      raised := FinishTurn(lenBefore, c, Say(prompt, events), old(history));
      if store != null {
        StepPersists(old(Abs()), Say(prompt, events), compaction, systemPrompt);
      }
    }

    method StreamTurn(prompt: string, events: seq<Event>) returns (raised: bool)
      modifies this`history, store
      ensures raised <==>
                store != null && !CollectStream(events).error && !AllStorable(AddedBy(Stream(prompt, events)))
      ensures store != null ==> Abs() == Step(old(Abs()), Stream(prompt, events), compaction, systemPrompt)
      ensures store == null ==>
                history == old(history) + AddedBy(Stream(prompt, events))
    {
      var lenBefore := |history|;
      history := history + [PlainMessage("user", prompt)];
      var c := CollectStreamed(events);
      if c.error {
        assert AddedBy(Stream(prompt, events)) == [PlainMessage("user", prompt)];
        if store != null {
          StepForgets(old(Abs()), prompt, events, compaction, systemPrompt);
        }
        return false;
      }
      raised := FinishTurn(lenBefore, c, Stream(prompt, events), old(history));
      if store != null {
        StepPersists(old(Abs()), Stream(prompt, events), compaction, systemPrompt);
      }
    }

    /** The reply and what was there before it since the turn began are stored. */
    method FinishTurn(lenBefore: nat, c: Collected, ghost turn: Turn, ghost before: seq<Message>)
      returns (raised: bool)
      requires lenBefore == |before| && history + ReplyMessages(c) == before + AddedBy(turn)
      modifies this`history, store
      ensures history == before + AddedBy(turn)
      ensures raised <==> store != null && !AllStorable(AddedBy(turn))
      ensures store != null ==> store.messages == Persisted(old(store.messages), (userId, sessionId), AddedBy(turn))
    {
      AppendReply(c);
      raised := PersistFrom(lenBefore, AddedBy(turn));
    }

    method AppendReply(c: Collected)
      modifies this`history
      ensures history == old(history) + ReplyMessages(c)
    {
      if !c.error && c.newMessages != [] {
        history := history + c.newMessages;
      } else if !c.error && c.text != "" {
        history := history + [PlainMessage("assistant", c.text)];
      }
    }

    /** Saves the messages from a position on, one by one, up to the first one that raises. */
    method PersistFrom(start: nat, ghost ms: seq<Message>) returns (raised: bool)
      requires start <= |history| && history[start..] == ms
      modifies store
      ensures raised <==> store != null && !AllStorable(ms)
      ensures store != null ==> store.messages == Persisted(old(store.messages), (userId, sessionId), ms)
    {
      if store == null {
        return false;
      }
      ghost var key := (userId, sessionId);
      var rest := history[start..];
      for i := 0 to |rest|
        invariant i <= StorableCount(rest) && AllStorable(rest[..i])
        invariant store.messages == Appended(old(store.messages), key, ToMemoryAll(rest[..i]))
      {
        var message := ToMemory(rest[i]);
        if message.None? {
          StorableUpTo(rest, i);
          return true;
        }
        StorableGoesOn(rest, i);
        StorableNext(rest, i);
        AppendedNext(old(store.messages), key, ToMemoryAll(rest[..i]), message.value);
        store.SaveMessage(userId, sessionId, message.value);
      }
      assert rest[..|rest|] == rest;
      return false;
    }

    method ResumeSession(session: string) returns (result: Result<(), string>)
      modifies this`sessionId, this`history
      ensures result.Failure? <==> store == null
      ensures store == null ==> sessionId == old(sessionId) && history == old(history)
      ensures store != null ==> Abs() == Step(old(Abs()), Resume(session), compaction, systemPrompt)
    {
      if store == null {
        return Failure("Cannot resume: no message_store configured.");
      }
      sessionId := session;
      var stored := store.GetMessages(userId, session, RESUME_LIMIT);
      assert stored == LastN(StoredAt(store.messages, (userId, session)), RESUME_LIMIT);
      var loaded := LoadMessages(stored);
      history := loaded;
      if compaction.Some? && history != [] {
        var compactor := new ConversationCompactionFilter(compaction.value, None);
        var prompt;
        history, prompt := compactor.Filter(history, systemPrompt);
      }
      return Success(());
    }
  }

  /** `collect_stream_result` */
  method CollectResult(events: seq<Event>) returns (c: Collected)
    ensures c == Collect(events)
  {
    var text, newMessages, hasError := "", [], false;
    for i := 0 to |events|
      invariant Collect(events[..i]) == Collected(text, newMessages, hasError)
    {
      assert events[..i + 1][..i] == events[..i];
      match events[i] {
        case TextDelta(delta) => text := text + delta;
        case ErrorEvent => hasError := true;
        case OtherEvent =>
        case FinalEvent(finalText, dataText, _, _) =>
          if finalText.Some? && finalText.value != "" {
            text := finalText.value;
          } else if dataText.Some? {
            text := dataText.value;
          }
          newMessages := NewMessagesOf(events[i]);
      }
    }
    assert events[..|events|] == events;
    return Collected(text, newMessages, hasError);
  }

  /** The loop of `stream` over the events. */
  method CollectStreamed(events: seq<Event>) returns (c: Collected)
    ensures c == CollectStream(events)
  {
    var fullText, finalNewMessages, sawError := "", [], false;
    for i := 0 to |events|
      invariant CollectStream(events[..i]) == Collected(fullText, finalNewMessages, sawError)
    {
      assert events[..i + 1][..i] == events[..i];
      match events[i] {
        case TextDelta(delta) => fullText := fullText + delta;
        case ErrorEvent => sawError := true;
        case OtherEvent =>
        case FinalEvent(_, _, _, _) => finalNewMessages := NewMessagesOf(events[i]);
      }
    }
    assert events[..|events|] == events;
    return Collected(fullText, finalNewMessages, sawError);
  }

  method LoadMessages(stored: seq<MemoryMessage>) returns (loaded: seq<Message>)
    ensures loaded == FromMemoryAll(stored)
  {
    loaded := [];
    for i := 0 to |stored|
      invariant loaded + FromMemoryAll(stored[i..]) == FromMemoryAll(stored)
    {
      var m := LoadMessage(stored[i]);
      loaded := loaded + [m];
    }
  }

  lemma {:induction false} ToMemoryAppend(ms: seq<Message>, m: Message)
    requires AllStorable(ms) && ToMemory(m).Some?
    ensures AllStorable(ms + [m]) && ToMemoryAll(ms + [m]) == ToMemoryAll(ms) + [ToMemory(m).value]
  {
    if ms == [] {
      assert ms + [m] == [m];
    } else {
      assert (ms + [m])[1..] == ms[1..] + [m];
      ToMemoryAppend(ms[1..], m);
    }
  }

  /** The first message that raises is where saving stops. */
  lemma StorableUpTo(ms: seq<Message>, i: nat)
    requires i < |ms| && i <= StorableCount(ms) && ToMemory(ms[i]).None?
    ensures StorableCount(ms) == i && !AllStorable(ms)
  {
  }

  lemma StorableGoesOn(ms: seq<Message>, i: nat)
    requires i < |ms| && i <= StorableCount(ms) && ToMemory(ms[i]).Some?
    ensures i < StorableCount(ms)
  {
  }

  lemma StorableNext(ms: seq<Message>, i: nat)
    requires i < |ms| && AllStorable(ms[..i]) && ToMemory(ms[i]).Some?
    ensures AllStorable(ms[..i + 1])
    ensures ToMemoryAll(ms[..i + 1]) == ToMemoryAll(ms[..i]) + [ToMemory(ms[i]).value]
  {
    ToMemoryAppend(ms[..i], ms[i]);
    assert ms[..i + 1] == ms[..i] + [ms[i]];
  }

  lemma AppendedNext(messages: Stored, key: Key, mms: seq<MemoryMessage>, mm: MemoryMessage)
    ensures StoredAt(Appended(messages, key, mms), key) == StoredAt(messages, key) + mms
    ensures Appended(messages, key, mms)[key := StoredAt(Appended(messages, key, mms), key) + [mm]]
         == Appended(messages, key, mms + [mm])
  {
    assert StoredAt(messages, key) + mms + [mm] == StoredAt(messages, key) + (mms + [mm]);
  }

  // ----- what a reply adds -----

  /** The deltas of a reply, one after the other. */
  function DeltaText(events: seq<Event>): string {
    if events == [] then ""
    else if events[0].TextDelta? then events[0].delta + DeltaText(events[1..])
    else DeltaText(events[1..])
  }

  predicate NoFinal(events: seq<Event>) {
    forall e :: e in events ==> !e.FinalEvent?
  }

  lemma {:induction false} DeltaTextConcat(a: seq<Event>, b: seq<Event>)
    ensures DeltaText(a + b) == DeltaText(a) + DeltaText(b)
  {
    if a == [] {
      assert a + b == b;
    } else {
      assert (a + b)[1..] == a[1..] + b;
      DeltaTextConcat(a[1..], b);
    }
  }

  /** Without a final event both loops gather the deltas in order, and see an error if and only if there is
      one; the loop of `stream` gathers the deltas in any case. */
  lemma {:induction false} CollectsDeltas(events: seq<Event>)
    ensures CollectStream(events).text == DeltaText(events)
    ensures Collect(events).error == CollectStream(events).error == (ErrorEvent in events)
    ensures Collect(events).newMessages == CollectStream(events).newMessages
    ensures NoFinal(events) ==> Collect(events).text == DeltaText(events) && Collect(events).newMessages == []
  {
    if events != [] {
      var init, last := events[..|events| - 1], events[|events| - 1];
      assert events == init + [last];
      CollectsDeltas(init);
      DeltaTextConcat(init, [last]);
      assert [last][1..] == [];
      assert NoFinal(events) ==> NoFinal(init);
    }
  }

  lemma CollectNext(events: seq<Event>, e: Event)
    ensures
      var sofar, next := Collect(events), Collect(events + [e]);
      && next.error == (sofar.error || e.ErrorEvent?)
      && next.newMessages == (if e.FinalEvent? then NewMessagesOf(e) else sofar.newMessages)
      && next.text == if e.TextDelta? then sofar.text + e.delta
                      else if e.FinalEvent? && e.text.Some? && e.text.value != "" then e.text.value
                      else if e.FinalEvent? && e.dataText.Some? then e.dataText.value
                      else sofar.text
  {
    assert (events + [e])[..|events|] == events;
  }

  /** Events without a final one add their deltas to what was gathered before. */
  lemma {:induction false} DeltasAfter(a: seq<Event>, b: seq<Event>, all: seq<Event>)
    requires NoFinal(b) && all == a + b
    ensures Collect(all).text == Collect(a).text + DeltaText(b)
    ensures Collect(all).newMessages == Collect(a).newMessages
    decreases |b|
  {
    if b == [] {
      assert all == a;
    } else {
      var e, next, rest := b[0], a + [b[0]], b[1..];
      assert e in b && all == next + rest;
      CollectNext(a, e);
      DeltasAfter(next, rest, all);
      if e.TextDelta? {
        TextInParts(Collect(a).text, e.delta, DeltaText(rest));
      }
    }
  }

  lemma TextInParts(a: string, b: string, c: string)
    ensures a + b + c == a + (b + c)
  {
  }

  /** A later final event decides on the messages. Its text, or else the text in its data, replaces what came
      before; the deltas after it are added. */
  lemma LastFinalDecides(a: seq<Event>, final: Event, b: seq<Event>)
    requires final.FinalEvent? && NoFinal(b)
    ensures
      var c := Collect(a + [final] + b);
      && c.text == (if final.text.Some? && final.text.value != "" then final.text.value
                    else if final.dataText.Some? then final.dataText.value
                    else Collect(a).text) + DeltaText(b)
      && c.newMessages == (if final.newMessages.Some? then final.newMessages.value
                           else if final.dataNewMessages.Some? then final.dataNewMessages.value
                           else [])
  {
    CollectNext(a, final);
    DeltasAfter(a + [final], b, a + [final] + b);
  }

  /** A turn whose reply consists of deltas adds the prompt and one message with their text, both to the
      history and to the store; it makes no difference whether it is streamed. */
  lemma DeltaTurnAdds(s: State, prompt: string, events: seq<Event>, streamed: bool,
                      config: Option<CompactionConfig>, systemPrompt: string)
    requires NoFinal(events) && ErrorEvent !in events && DeltaText(events) != ""
    ensures
      var s' := Step(s, if streamed then Stream(prompt, events) else Say(prompt, events), config, systemPrompt);
      var added := [PlainMessage("user", prompt), PlainMessage("assistant", DeltaText(events))];
      && s'.history == s.history + added
      && FromMemoryAll(StoredAt(s'.messages, KeyOf(s))) == FromMemoryAll(StoredAt(s.messages, KeyOf(s))) + added
  {
    var turn := if streamed then Stream(prompt, events) else Say(prompt, events);
    var added := [PlainMessage("user", prompt), PlainMessage("assistant", DeltaText(events))];
    CollectsDeltas(events);
    assert AddedBy(turn) == added;
    PlainTurnStores(s, turn, added, config, systemPrompt);
  }

  /** Plain messages that a turn adds are stored as they are. */
  lemma PlainTurnStores(s: State, turn: Turn, added: seq<Message>, config: Option<CompactionConfig>,
                        systemPrompt: string)
    requires added == AddedBy(turn) && !turn.Resume? && !turn.Broken?
    requires forall m :: m in added ==> m.contentBlocks.None?
    requires turn.Stream? ==> ErrorEvent !in turn.events
    ensures
      var s' := Step(s, turn, config, systemPrompt);
      && s'.history == s.history + added
      && FromMemoryAll(StoredAt(s'.messages, KeyOf(s))) == FromMemoryAll(StoredAt(s.messages, KeyOf(s))) + added
  {
    if turn.Stream? {
      CollectsDeltas(turn.events);
    }
    forall i | 0 <= i < |added| ensures ToMemory(added[i]).Some? {
      assert added[i] in added;
    }
    assert StorableCount(added) == |added| && added[..|added|] == added;
    RecordStores(s, added, |added|);
    StoredForm(StoredAt(s.messages, KeyOf(s)), added);
    NormalizeIsIdentityIff(added);
  }

  /** An error event leaves the prompt alone in the history, which `say` stores and `stream` does not. */
  lemma ErrorTurnAdds(s: State, prompt: string, events: seq<Event>, config: Option<CompactionConfig>,
                      systemPrompt: string)
    requires ErrorEvent in events
    ensures
      var said, streamed := Step(s, Say(prompt, events), config, systemPrompt),
                            Step(s, Stream(prompt, events), config, systemPrompt);
      && said.history == streamed.history == s.history + [PlainMessage("user", prompt)]
      && FromMemoryAll(StoredAt(said.messages, KeyOf(s)))
         == FromMemoryAll(StoredAt(s.messages, KeyOf(s))) + [PlainMessage("user", prompt)]
      && streamed.messages == s.messages
  {
    CollectsDeltas(events);
    PlainTurnStores(s, Say(prompt, events), [PlainMessage("user", prompt)], config, systemPrompt);
    StepForgets(s, prompt, events, config, systemPrompt);
  }

  /** A turn that breaks off leaves what it added in the history, and in the store what it saved of it, at most
      up to the first message that cannot be stored. */
  lemma BrokenTurnAdds(s: State, added: seq<Message>, saved: nat, config: Option<CompactionConfig>,
                       systemPrompt: string)
    ensures
      var s' := Step(s, Broken(added, saved), config, systemPrompt);
      var n := if saved < StorableCount(added) then saved else StorableCount(added);
      && s'.history == s.history + added
      && FromMemoryAll(StoredAt(s'.messages, KeyOf(s)))
         == FromMemoryAll(StoredAt(s.messages, KeyOf(s))) + NormalizeAll(added[..n])
  {
    var n := SavedBy(Broken(added, saved));
    RecordStores(s, added, n);
    StoredForm(StoredAt(s.messages, KeyOf(s)), added[..n]);
  }

  /** What a reply with a final event at its end adds: its messages, if it carries any. Else `say` adds its
      text and `stream` the deltas; an empty text adds nothing. */
  lemma FinalTurnAdds(prompt: string, a: seq<Event>, final: Event)
    requires final.FinalEvent? && ErrorEvent !in a && NoFinal(a)
    ensures
      var user, events := PlainMessage("user", prompt), a + [final];
      var messages := if final.newMessages.Some? then final.newMessages.value
                      else if final.dataNewMessages.Some? then final.dataNewMessages.value
                      else [];
      var text := if final.text.Some? && final.text.value != "" then final.text.value
                  else if final.dataText.Some? then final.dataText.value
                  else DeltaText(a);
      if messages != [] then
        AddedBy(Say(prompt, events)) == AddedBy(Stream(prompt, events)) == [user] + messages
      else
        && AddedBy(Say(prompt, events)) == [user] + (if text == "" then [] else [PlainMessage("assistant", text)])
        && AddedBy(Stream(prompt, events))
           == [user] + if DeltaText(a) == "" then [] else [PlainMessage("assistant", DeltaText(a))]
  {
    var events := a + [final];
    assert events == a + [final] + [] && ErrorEvent !in events;
    LastFinalDecides(a, final, []);
    CollectsDeltas(a);
    CollectsDeltas(events);
    DeltaTextConcat(a, [final]);
    assert [final][1..] == [];
  }

  // ----- subsequences -----

  /** `a` arises from `b` by leaving messages out. */
  predicate Subsequence(a: seq<Message>, b: seq<Message>) {
    if a == [] then true
    else if b == [] then false
    else if a[|a| - 1] == b[|b| - 1] then Subsequence(a[..|a| - 1], b[..|b| - 1])
    else Subsequence(a, b[..|b| - 1])
  }

  lemma {:induction false} SubsequenceDropLast(a: seq<Message>, b: seq<Message>)
    requires a != [] && Subsequence(a, b)
    ensures Subsequence(a[..|a| - 1], b)
    decreases |a| + |b|
  {
    if a[|a| - 1] == b[|b| - 1] {
      SubsequenceAppendRight(a[..|a| - 1], b[..|b| - 1], b[|b| - 1]);
      assert b == b[..|b| - 1] + [b[|b| - 1]];
    } else {
      SubsequenceDropLast(a, b[..|b| - 1]);
      SubsequenceAppendRight(a[..|a| - 1], b[..|b| - 1], b[|b| - 1]);
      assert b == b[..|b| - 1] + [b[|b| - 1]];
    }
  }

  lemma {:induction false} SubsequenceAppendRight(a: seq<Message>, b: seq<Message>, x: Message)
    requires Subsequence(a, b)
    ensures Subsequence(a, b + [x])
    decreases |a| + |b| + 1
  {
    assert (b + [x])[..|b|] == b;
    if a != [] && a[|a| - 1] == x {
      SubsequenceDropLast(a, b);
    }
  }

  lemma {:induction false} SubsequenceAppendAll(a: seq<Message>, b: seq<Message>, c: seq<Message>)
    requires Subsequence(a, b)
    ensures Subsequence(a, b + c)
  {
    if c == [] {
      assert b + c == b;
    } else {
      var init, x := c[..|c| - 1], c[|c| - 1];
      SubsequenceAppendAll(a, b, init);
      SubsequenceAppendRight(a, b + init, x);
      assert b + c == b + init + [x];
    }
  }

  lemma {:induction false} SubsequenceAppendBoth(a: seq<Message>, b: seq<Message>, c: seq<Message>)
    requires Subsequence(a, b)
    ensures Subsequence(a + c, b + c)
  {
    if c == [] {
      assert a + c == a && b + c == b;
    } else {
      var init, x := c[..|c| - 1], c[|c| - 1];
      SubsequenceAppendBoth(a, b, init);
      assert (a + c)[..|a + c| - 1] == a + init && (b + c)[..|b + c| - 1] == b + init;
    }
  }

  lemma SubsequenceOfMore(a: seq<Message>, b: seq<Message>, kept: seq<Message>, lost: seq<Message>,
                          all: seq<Message>)
    requires Subsequence(a, b) && all == kept + lost
    ensures Subsequence(a + kept, b + all)
  {
    SubsequenceAppendBoth(a, b, kept);
    SubsequenceAppendAll(a + kept, b + kept, lost);
    assert b + kept + lost == b + all;
  }

  lemma {:induction false} SubsequenceLength(a: seq<Message>, b: seq<Message>)
    requires Subsequence(a, b)
    ensures |a| <= |b|
    ensures |a| == |b| ==> a == b
  {
    if a != [] {
      if a[|a| - 1] == b[|b| - 1] {
        SubsequenceLength(a[..|a| - 1], b[..|b| - 1]);
        assert a == a[..|a| - 1] + [a[|a| - 1]] && b == b[..|b| - 1] + [b[|b| - 1]];
      } else {
        SubsequenceLength(a, b[..|b| - 1]);
      }
    }
  }

  lemma {:induction false} SubsequenceSelf(a: seq<Message>)
    ensures Subsequence(a, a)
  {
    if a != [] {
      SubsequenceSelf(a[..|a| - 1]);
    }
  }

  // ----- runs -----

  function RunWith(s: State, turns: seq<Turn>, config: Option<CompactionConfig>, systemPrompt: string): State
    decreases |turns|
  {
    if turns == [] then s else RunWith(Step(s, turns[0], config, systemPrompt), turns[1..], config, systemPrompt)
  }

  /** A run without compaction. */
  function Run(s: State, turns: seq<Turn>): State {
    RunWith(s, turns, None, "")
  }

  function DebtAfter(turn: Turn, before: nat): nat {
    if turn.Resume? then 0 else before + |AddedBy(turn)| - SavedBy(turn)
  }

  /** How many messages of the history were not stored since the session was last loaded. */
  function Debt(turns: seq<Turn>, before: nat): nat
    decreases |turns|
  {
    if turns == [] then before
    else Debt(turns[1..], DebtAfter(turns[0], before))
  }

  /** The store holds the history except for `debt` messages, up to empty block lists. */
  ghost predicate Tracks(s: State, debt: nat) {
    var stored := StoredAt(s.messages, KeyOf(s));
    && Subsequence(FromMemoryAll(stored), NormalizeAll(s.history))
    && |s.history| == |stored| + debt
  }

  /** Every session is short enough for `resume` to load it completely. */
  predicate WithinLimit(messages: Stored) {
    forall key :: key in messages ==> |messages[key]| <= RESUME_LIMIT
  }

  lemma {:induction false} FromMemoryConcat(a: seq<MemoryMessage>, b: seq<MemoryMessage>)
    ensures FromMemoryAll(a + b) == FromMemoryAll(a) + FromMemoryAll(b)
    ensures |FromMemoryAll(a)| == |a|
  {
    if a == [] {
      assert a + b == b;
    } else {
      assert (a + b)[1..] == a[1..] + b;
      FromMemoryConcat(a[1..], b);
    }
  }

  lemma {:induction false} NormalizeConcat(a: seq<Message>, b: seq<Message>)
    ensures NormalizeAll(a + b) == NormalizeAll(a) + NormalizeAll(b)
    ensures |NormalizeAll(a)| == |a|
  {
    if a == [] {
      assert a + b == b;
    } else {
      assert (a + b)[1..] == a[1..] + b;
      NormalizeConcat(a[1..], b);
    }
  }

  lemma {:induction false} NormalizeLoaded(mms: seq<MemoryMessage>)
    ensures NormalizeAll(FromMemoryAll(mms)) == FromMemoryAll(mms)
  {
    if mms != [] {
      NormalizeLoaded(mms[1..]);
    }
  }

  /** Messages of which only the first ones were stored: the stored ones are a subsequence of all. */
  lemma RecordedPart(stored: seq<MemoryMessage>, history: seq<Message>, ms: seq<Message>, saved: nat)
    requires saved <= |ms| && AllStorable(ms[..saved])
    requires Subsequence(FromMemoryAll(stored), NormalizeAll(history))
    ensures Subsequence(FromMemoryAll(stored + ToMemoryAll(ms[..saved])), NormalizeAll(history + ms))
    ensures |ToMemoryAll(ms[..saved])| == saved
  {
    StoredForm(stored, ms[..saved]);
    HistoryForm(history, ms, saved);
    SubsequenceOfMore(FromMemoryAll(stored), NormalizeAll(history), NormalizeAll(ms[..saved]),
                      NormalizeAll(ms[saved..]), NormalizeAll(ms));
  }

  lemma StoredForm(stored: seq<MemoryMessage>, kept: seq<Message>)
    requires AllStorable(kept)
    ensures FromMemoryAll(stored + ToMemoryAll(kept)) == FromMemoryAll(stored) + NormalizeAll(kept)
    ensures |ToMemoryAll(kept)| == |kept|
  {
    FromMemoryConcat(stored, ToMemoryAll(kept));
    SaveLoadAll(kept);
  }

  lemma HistoryForm(history: seq<Message>, ms: seq<Message>, saved: nat)
    requires saved <= |ms|
    ensures NormalizeAll(ms) == NormalizeAll(ms[..saved]) + NormalizeAll(ms[saved..])
    ensures NormalizeAll(history + ms) == NormalizeAll(history) + NormalizeAll(ms)
  {
    NormalizeConcat(history, ms);
    NormalizeConcat(ms[..saved], ms[saved..]);
    assert ms[..saved] + ms[saved..] == ms;
  }

  lemma RecordTracks(s: State, ms: seq<Message>, saved: nat, debt: nat)
    requires saved <= |ms| && AllStorable(ms[..saved])
    requires Tracks(s, debt)
    ensures Tracks(Record(s, ms, saved), debt + |ms| - saved)
  {
    var stored, added := StoredAt(s.messages, KeyOf(s)), ToMemoryAll(ms[..saved]);
    RecordedPart(stored, s.history, ms, saved);
    assert StoredAt(Record(s, ms, saved).messages, KeyOf(s)) == stored + added;
  }

  lemma ResumeTracks(s: State, session: string)
    requires WithinLimit(s.messages)
    ensures Tracks(Step(s, Resume(session), None, ""), 0)
  {
    var stored := StoredAt(s.messages, (s.userId, session));
    assert LastN(stored, RESUME_LIMIT) == stored;
    NormalizeLoaded(stored);
    SubsequenceSelf(FromMemoryAll(stored));
    FromMemoryConcat(stored, []);
  }

  lemma {:induction false} StoreGrows(s: State, turns: seq<Turn>)
    requires WithinLimit(Run(s, turns).messages)
    ensures WithinLimit(s.messages)
    decreases |turns|
  {
    if turns != [] {
      StoreGrows(Step(s, turns[0], None, ""), turns[1..]);
      StepGrows(s, turns[0]);
    }
  }

  lemma StepGrows(s: State, turn: Turn)
    requires WithinLimit(Step(s, turn, None, "").messages)
    ensures WithinLimit(s.messages)
  {
    var after := Step(s, turn, None, "").messages;
    forall key | key in s.messages ensures |s.messages[key]| <= RESUME_LIMIT {
      assert key in after && |s.messages[key]| <= |after[key]|;
    }
  }

  lemma StepTracks(s: State, turn: Turn, debt: nat)
    requires Tracks(s, debt) && WithinLimit(s.messages)
    ensures Tracks(Step(s, turn, None, ""), DebtAfter(turn, debt))
  {
    if turn.Resume? {
      ResumeTracks(s, turn.session);
    } else {
      RecordTracks(s, AddedBy(turn), SavedBy(turn), debt);
    }
  }

  lemma {:induction false} RunTracks(s: State, turns: seq<Turn>, debt: nat)
    requires Tracks(s, debt)
    requires WithinLimit(Run(s, turns).messages)
    ensures Tracks(Run(s, turns), Debt(turns, debt))
    decreases |turns|
  {
    if turns != [] {
      StoreGrows(s, turns);
      StepTracks(s, turns[0], debt);
      RunTracks(Step(s, turns[0], None, ""), turns[1..], DebtAfter(turns[0], debt));
    }
  }

  // ----- the main results -----

  predicate NoEmptyBlockList(ms: seq<Message>) {
    forall i :: 0 <= i < |ms| ==> ms[i].contentBlocks != Some([])
  }

  lemma {:induction false} NormalizeIsIdentityIff(ms: seq<Message>)
    ensures NormalizeAll(ms) == ms <==> NoEmptyBlockList(ms)
  {
    if ms != [] {
      NormalizeIsIdentityIff(ms[1..]);
      NormalizeConcat(ms[1..], []);
      assert NormalizeAll(ms)[0] == Normalize(ms[0]) && NormalizeAll(ms)[1..] == NormalizeAll(ms[1..]);
      if NoEmptyBlockList(ms[1..]) && ms[0].contentBlocks != Some([]) {
        assert forall i :: 1 <= i < |ms| ==> ms[i] == ms[1..][i - 1];
      }
      if NoEmptyBlockList(ms) {
        assert forall i :: 0 <= i < |ms[1..]| ==> ms[1..][i] == ms[i + 1];
      }
    }
  }

  /** In any run of turns from an empty session, the store holds a subsequence of the history, short of it
      by exactly the messages that were not stored since the session was last loaded: the prompts of failed
      streams, and what follows the first message that raised in a broken turn. */
  lemma StoreIsSubsequence(userId: string, session: string, turns: seq<Turn>)
    requires WithinLimit(Run(State(userId, session, [], map[]), turns).messages)
    ensures
      var s := Run(State(userId, session, [], map[]), turns);
      var stored := StoredAt(s.messages, KeyOf(s));
      && Subsequence(FromMemoryAll(stored), NormalizeAll(s.history))
      && |s.history| == |stored| + Debt(turns, 0)
  {
    RunTracks(State(userId, session, [], map[]), turns, 0);
  }

  /** Resuming the current session after any such run reproduces the history exactly when every message of
      it was stored since the session was last loaded and none carries an empty block list. */
  lemma ResumeReproducesIff(userId: string, session: string, turns: seq<Turn>)
    requires WithinLimit(Run(State(userId, session, [], map[]), turns).messages)
    ensures
      var s := Run(State(userId, session, [], map[]), turns);
      Step(s, Resume(s.session), None, "").history == s.history
      <==> Debt(turns, 0) == 0 && NoEmptyBlockList(s.history)
  {
    var s := Run(State(userId, session, [], map[]), turns);
    RunTracks(State(userId, session, [], map[]), turns, 0);
    var stored := StoredAt(s.messages, KeyOf(s));
    assert LastN(stored, RESUME_LIMIT) == stored;
    FromMemoryConcat(stored, []);
    NormalizeConcat(s.history, []);
    SubsequenceLength(FromMemoryAll(stored), NormalizeAll(s.history));
    NormalizeIsIdentityIff(s.history);
  }

  /** A failed stream leaves its prompt in the history; resuming loses it. */
  lemma FailedStreamIsLost(userId: string, session: string, prompt: string)
    ensures
      var s := Run(State(userId, session, [], map[]), [Stream(prompt, [ErrorEvent])]);
      && s.history == [PlainMessage("user", prompt)]
      && Step(s, Resume(s.session), None, "").history == []
  {
    var s0 := State(userId, session, [], map[]);
    var turn := Stream(prompt, [ErrorEvent]);
    assert [ErrorEvent][..0] == [];
    assert CollectStream([ErrorEvent]).error;
    assert AddedBy(turn) == [PlainMessage("user", prompt)] && SavedBy(turn) == 0;
    assert [turn][1..] == [];
    assert Run(s0, [turn]) == RunWith(Step(s0, turn, None, ""), [], None, "") == Step(s0, turn, None, "");
  }

  function UntypedReply(raw: RawBlock): Message {
    Message("assistant", "", None, None, None, Some([UntypedBlock(raw)]))
  }

  function UntypedTurn(prompt: string, raw: RawBlock): Turn {
    Say(prompt, [FinalEvent(None, None, Some([UntypedReply(raw)]), None)])
  }

  lemma UntypedTurnSaves(prompt: string, raw: RawBlock)
    ensures AddedBy(UntypedTurn(prompt, raw)) == [PlainMessage("user", prompt), UntypedReply(raw)]
    ensures SavedBy(UntypedTurn(prompt, raw)) == 1
  {
    var user, reply := PlainMessage("user", prompt), UntypedReply(raw);
    var events := UntypedTurn(prompt, raw).events;
    assert events[..0] == [] && Collect(events) == Collected("", [reply], false);
    SaveLoad(reply);
    assert reply.contentBlocks.value[0].UntypedBlock?;
    assert [user, reply][1..] == [reply] && StorableCount([reply]) == 0;
  }

  /** What a session with one stored message loads. */
  lemma LoadsOne(s: State, m: Message)
    requires ToMemory(m).Some? && m.contentBlocks != Some([])
    requires StoredAt(s.messages, KeyOf(s)) == [ToMemory(m).value]
    ensures Step(s, Resume(s.session), None, "").history == [m]
  {
    var stored := StoredAt(s.messages, KeyOf(s));
    SaveLoad(m);
    assert stored[1..] == [] && LastN(stored, RESUME_LIMIT) == stored;
    assert FromMemoryAll(stored) == [FromMemory(stored[0])] + FromMemoryAll(stored[1..]);
    assert LoadedHistory(s.messages, KeyOf(s)) == [m];
  }

  /** A final message with an untyped block stays out of the store, though the whole turn is in the history. */
  lemma UntypedBlockIsLost(userId: string, session: string, prompt: string, raw: RawBlock)
    ensures
      var s := Run(State(userId, session, [], map[]), [UntypedTurn(prompt, raw)]);
      && s.history == [PlainMessage("user", prompt), UntypedReply(raw)]
      && Step(s, Resume(s.session), None, "").history == [PlainMessage("user", prompt)]
  {
    var turn, user := UntypedTurn(prompt, raw), PlainMessage("user", prompt);
    var s0 := State(userId, session, [], map[]);
    UntypedTurnSaves(prompt, raw);
    RecordStores(s0, AddedBy(turn), 1);
    assert [turn][1..] == [];
    assert Run(s0, [turn]) == RunWith(Step(s0, turn, None, ""), [], None, "") == Record(s0, AddedBy(turn), 1);
    assert AddedBy(turn)[..1] == [user] && ToMemoryAll([user]) == [ToMemory(user).value] + ToMemoryAll([user][1..]);
    assert [user][1..] == [];
    LoadsOne(Run(s0, [turn]), user);
  }

  // ----- runs with compaction -----

  predicate NoResume(turns: seq<Turn>) {
    forall i :: 0 <= i < |turns| ==> !turns[i].Resume?
  }

  /** Between two points of a run: what was stored is a subsequence of what entered the history, short of it
      by `debt` messages. */
  ghost predicate PartTracks(before: seq<MemoryMessage>, stored: seq<MemoryMessage>,
                             earlier: seq<Message>, history: seq<Message>, debt: nat) {
    && earlier <= history && before <= stored
    && Subsequence(FromMemoryAll(stored[|before|..]), NormalizeAll(history[|earlier|..]))
    && |history| - |earlier| == |stored| - |before| + debt
  }

  ghost predicate TracksSince(base: State, s: State, debt: nat) {
    && KeyOf(s) == KeyOf(base)
    && PartTracks(StoredAt(base.messages, KeyOf(base)), StoredAt(s.messages, KeyOf(s)), base.history, s.history, debt)
  }

  lemma RecordedPartTracks(before: seq<MemoryMessage>, stored: seq<MemoryMessage>, earlier: seq<Message>,
                           history: seq<Message>, debt: nat, ms: seq<Message>, saved: nat)
    requires PartTracks(before, stored, earlier, history, debt)
    requires saved <= |ms| && AllStorable(ms[..saved])
    ensures PartTracks(before, stored + ToMemoryAll(ms[..saved]), earlier, history + ms, debt + |ms| - saved)
  {
    RecordedPart(stored[|before|..], history[|earlier|..], ms, saved);
    TailAppend(stored, |before|, ToMemoryAll(ms[..saved]));
    TailAppend(history, |earlier|, ms);
  }

  lemma TailAppend<T>(whole: seq<T>, n: nat, more: seq<T>)
    requires n <= |whole|
    ensures (whole + more)[n..] == whole[n..] + more && whole[..n] == (whole + more)[..n]
  {
  }

  lemma RecordStores(s: State, ms: seq<Message>, saved: nat)
    requires saved <= |ms| && AllStorable(ms[..saved])
    ensures var s' := Record(s, ms, saved);
            && KeyOf(s') == KeyOf(s) && s'.history == s.history + ms
            && StoredAt(s'.messages, KeyOf(s)) == StoredAt(s.messages, KeyOf(s)) + ToMemoryAll(ms[..saved])
  {
  }

  lemma StepTracksSince(base: State, s: State, turn: Turn, config: Option<CompactionConfig>, systemPrompt: string,
                        debt: nat)
    requires TracksSince(base, s, debt) && !turn.Resume?
    ensures TracksSince(base, Step(s, turn, config, systemPrompt), DebtAfter(turn, debt))
  {
    RecordStores(s, AddedBy(turn), SavedBy(turn));
    RecordedPartTracks(StoredAt(base.messages, KeyOf(base)), StoredAt(s.messages, KeyOf(s)), base.history, s.history,
                       debt, AddedBy(turn), SavedBy(turn));
  }

  lemma {:induction false} RunTracksSince(base: State, s: State, turns: seq<Turn>, config: Option<CompactionConfig>,
                                          systemPrompt: string, debt: nat)
    requires TracksSince(base, s, debt) && NoResume(turns)
    ensures TracksSince(base, RunWith(s, turns, config, systemPrompt), Debt(turns, debt))
    decreases |turns|
  {
    if turns != [] {
      StepTracksSince(base, s, turns[0], config, systemPrompt, debt);
      RunTracksSince(base, Step(s, turns[0], config, systemPrompt), turns[1..], config, systemPrompt,
                     DebtAfter(turns[0], debt));
    }
  }

  lemma {:induction false} RunInParts(s: State, a: seq<Turn>, b: seq<Turn>, config: Option<CompactionConfig>,
                                      systemPrompt: string)
    ensures RunWith(s, a + b, config, systemPrompt)
         == RunWith(RunWith(s, a, config, systemPrompt), b, config, systemPrompt)
    decreases |a|
  {
    if a == [] {
      assert a + b == b;
    } else {
      assert (a + b)[1..] == a[1..] + b;
      RunInParts(Step(s, a[0], config, systemPrompt), a[1..], b, config, systemPrompt);
    }
  }

  /** The whole run with compaction, up to its last resume and after it: the resume compacts what the
      session holds, and what is recorded from then on is stored as in a run without compaction. */
  lemma CompactedRunTracks(s: State, before: seq<Turn>, session: string, after: seq<Turn>,
                           config: Option<CompactionConfig>, systemPrompt: string)
    requires NoResume(after)
    ensures
      var resumed := RunWith(s, before + [Resume(session)], config, systemPrompt);
      var last := RunWith(s, before + [Resume(session)] + after, config, systemPrompt);
      && resumed.history == Compacted(config, LoadedHistory(resumed.messages, KeyOf(resumed)), systemPrompt)
      && resumed.session == session
      && TracksSince(resumed, last, Debt(after, 0))
  {
    var resumed := RunWith(s, before + [Resume(session)], config, systemPrompt);
    var s1 := RunWith(s, before, config, systemPrompt);
    RunInParts(s, before, [Resume(session)], config, systemPrompt);
    RunInParts(s, before + [Resume(session)], after, config, systemPrompt);
    assert [Resume(session)][1..] == [];
    assert resumed == RunWith(Step(s1, Resume(session), config, systemPrompt), [], config, systemPrompt);
    var stored := StoredAt(resumed.messages, KeyOf(resumed));
    assert stored[|stored|..] == [] && resumed.history[|resumed.history|..] == [];
    RunTracksSince(resumed, resumed, after, config, systemPrompt, 0);
  }

  /** Resuming with compaction: the history either fits the threshold or is minimal, and with a pair or
      more preserved it ends with the last stored message. */
  lemma ResumeCompacts(s: State, session: string, config: CompactionConfig, systemPrompt: string)
    requires config.enabled && config.tier3Enabled
    ensures
      var loaded := LoadedHistory(s.messages, (s.userId, session));
      var history := Step(s, Resume(session), Some(config), systemPrompt).history;
      loaded != [] ==>
        && history != []
        && (Fits(config, history, systemPrompt) || OnlyPinnedBeforeLast(history))
        && (config.preserveRecentPairs >= 1 ==> Last(history) == Last(loaded))
  {
    var loaded := LoadedHistory(s.messages, (s.userId, session));
    if loaded != [] {
      CompactFitsOrIsMinimal(config, None, loaded, systemPrompt);
      CompactKeepsLastIff(config, None, loaded, systemPrompt);
    }
  }
}
