/** domain_types.py (conversion from and to stored messages) and the messages of memory/inmemory.py. */
module MessageStore {
  import opened Wrappers
  import opened Messages

  datatype MemoryMessage = MemoryMessage(
    role: string,
    content: string,
    name: Option<string>,
    toolCalls: Option<seq<string>>,
    metadata: Option<map<string, MetaValue>>,
    contentBlocks: Option<seq<RawBlock>>
  )

  /** `block.to_dict()`; none for the exception that an untyped block raises. */
  function BlockToDict(block: ContentBlock): Option<RawBlock> {
    match block
    case TextBlock(text) => Some(RawDict(map["type" := RawText("text"), "text" := RawText(text)]))
    case ImageBlock(data, mediaType) =>
      Some(RawDict(map["type" := RawText("image"), "data" := RawText(data), "media_type" := RawText(mediaType)]))
    case UntypedBlock(_) => None
  }

  function BlocksToDicts(blocks: seq<ContentBlock>): Option<seq<RawBlock>> {
    if blocks == [] then Some([])
    else
      var first, rest := BlockToDict(blocks[0]), BlocksToDicts(blocks[1..]);
      if first.None? || rest.None? then None else Some([first.value] + rest.value)
  }

  function TextField(fields: map<string, RawValue>, key: string): Option<string> {
    if key in fields && fields[key].RawText? then Some(fields[key].s) else None
  }

  /** A block that does not have the expected shape is skipped. */
  function ParseBlock(raw: RawBlock): Option<ContentBlock> {
    if raw.NotADict? then None
    else
      var kind, text := TextField(raw.fields, "type"), TextField(raw.fields, "text");
      var data, mediaType := TextField(raw.fields, "data"), TextField(raw.fields, "media_type");
      if kind == Some("text") && text.Some? then Some(TextBlock(text.value))
      else if kind == Some("image") && data.Some? && mediaType.Some? then Some(ImageBlock(data.value, mediaType.value))
      else None
  }

  function ParseBlocks(raws: seq<RawBlock>): seq<ContentBlock> {
    if raws == [] then []
    else
      (match ParseBlock(raws[0])
       case None => []
       case Some(block) => [block]) + ParseBlocks(raws[1..])
  }

  /** The message that is saved; none if one of its blocks cannot be converted. */
  function ToMemory(m: Message): Option<MemoryMessage> {
    var blocks := if m.contentBlocks.Some? then BlocksToDicts(m.contentBlocks.value) else Some([]);
    if blocks.None? then None
    else
      Some(MemoryMessage(m.role, m.content, m.name, m.toolCalls, m.metadata,
                         if m.contentBlocks.Some? then blocks else None))
  }

  predicate AllStorable(ms: seq<Message>) {
    forall i :: 0 <= i < |ms| ==> ToMemory(ms[i]).Some?
  }

  function ToMemoryAll(ms: seq<Message>): seq<MemoryMessage>
    requires AllStorable(ms)
  {
    if ms == [] then [] else [ToMemory(ms[0]).value] + ToMemoryAll(ms[1..])
  }

  /** How many messages are saved, one by one, before the first one that raises. */
  function StorableCount(ms: seq<Message>): (n: nat)
    ensures n <= |ms| && AllStorable(ms[..n])
    ensures forall i :: 0 <= i < n ==> ToMemory(ms[i]).Some?
    ensures n < |ms| ==> ToMemory(ms[n]).None?
  {
    if ms == [] || ToMemory(ms[0]).None? then 0
    else
      var n := StorableCount(ms[1..]);
      assert forall i :: 0 < i <= n ==> ms[i] == ms[1..][..n][i - 1];
      n + 1
  }

  /** `Message.from_memory_message` */
  function FromMemory(mm: MemoryMessage): Message {
    var blocks := if mm.contentBlocks.Some? then ParseBlocks(mm.contentBlocks.value) else [];
    Message(mm.role, mm.content, mm.name, mm.toolCalls, mm.metadata, if blocks == [] then None else Some(blocks))
  }

  function FromMemoryAll(mms: seq<MemoryMessage>): seq<Message> {
    if mms == [] then [] else [FromMemory(mms[0])] + FromMemoryAll(mms[1..])
  }

  /** Building the block list step by step. */
  method LoadMessage(mm: MemoryMessage) returns (m: Message)
    ensures m == FromMemory(mm)
  {
    var parsedBlocks: Option<seq<ContentBlock>> := None;
    if mm.contentBlocks.Some? {
      var raws := mm.contentBlocks.value;
      var parsed := [];
      for i := 0 to |raws|
        invariant parsed + ParseBlocks(raws[i..]) == ParseBlocks(raws)
      {
        ParseBlocksNext(raws, i);
        var block := ParseBlock(raws[i]);
        if block.Some? {
          parsed := parsed + [block.value];
        }
      }
      assert parsed == ParseBlocks(raws);
      if parsed != [] {
        parsedBlocks := Some(parsed);
      }
    }
    m := Message(mm.role, mm.content, mm.name, mm.toolCalls, mm.metadata, parsedBlocks);
  }

  lemma ParseBlocksNext(raws: seq<RawBlock>, i: nat)
    requires i < |raws|
    ensures ParseBlocks(raws[i..])
         == (if ParseBlock(raws[i]).Some? then [ParseBlock(raws[i]).value] else []) + ParseBlocks(raws[i + 1..])
  {
    assert raws[i..][1..] == raws[i + 1..];
  }

  predicate AllTyped(blocks: seq<ContentBlock>) {
    forall i :: 0 <= i < |blocks| ==> !blocks[i].UntypedBlock?
  }

  lemma {:induction false} ParseOfBlocksToDicts(blocks: seq<ContentBlock>)
    ensures BlocksToDicts(blocks).Some? <==> AllTyped(blocks)
    ensures AllTyped(blocks) ==> ParseBlocks(BlocksToDicts(blocks).value) == blocks
  {
    if blocks != [] {
      ParseOfBlocksToDicts(blocks[1..]);
      if !blocks[0].UntypedBlock? {
        assert ParseBlock(BlockToDict(blocks[0]).value) == Some(blocks[0]);
        assert AllTyped(blocks) <==> AllTyped(blocks[1..]) by {
          assert forall i :: 0 < i < |blocks| ==> blocks[i] == blocks[1..][i - 1];
          assert forall i :: 0 <= i < |blocks[1..]| ==> blocks[1..][i] == blocks[i + 1];
        }
      }
    }
  }

  /** A dictionary is read as a block exactly when it has all the entries that the block is written with;
      other entries do not matter, and anything else is skipped. */
  lemma ParseBlockIff(raw: RawBlock, block: ContentBlock)
    ensures ParseBlock(raw) == Some(block)
       <==> raw.RawDict? && !block.UntypedBlock?
            && forall key :: key in BlockToDict(block).value.fields ==>
                 key in raw.fields && raw.fields[key] == BlockToDict(block).value.fields[key]
  {
    if raw.RawDict? && !block.UntypedBlock? {
      var fields := BlockToDict(block).value.fields;
      assert "type" in fields;
      assert block.TextBlock? ==> "text" in fields;
      assert block.ImageBlock? ==> "data" in fields && "media_type" in fields;
    }
  }

  /** The fields of a stored message are those of the message. */
  lemma StoredFields(m: Message)
    requires ToMemory(m).Some?
    ensures var mm := ToMemory(m).value;
            && mm.role == m.role && mm.content == m.content && mm.name == m.name
            && mm.toolCalls == m.toolCalls && mm.metadata == m.metadata
            && (mm.contentBlocks.Some? <==> m.contentBlocks.Some?)
            && (m.contentBlocks.Some? ==> |mm.contentBlocks.value| == |m.contentBlocks.value|)
  {
    if m.contentBlocks.Some? {
      BlocksToDictsLength(m.contentBlocks.value);
    }
  }

  lemma {:induction false} BlocksToDictsLength(blocks: seq<ContentBlock>)
    requires BlocksToDicts(blocks).Some?
    ensures |BlocksToDicts(blocks).value| == |blocks|
  {
    if blocks != [] {
      BlocksToDictsLength(blocks[1..]);
    }
  }

  /** An empty block list is stored, but it is read back as no list. */
  function Normalize(m: Message): Message {
    if m.contentBlocks == Some([]) then m.(contentBlocks := None) else m
  }

  function NormalizeAll(ms: seq<Message>): seq<Message> {
    if ms == [] then [] else [Normalize(ms[0])] + NormalizeAll(ms[1..])
  }

  /** Saving a message raises exactly when one of its blocks is untyped; and what was saved is read back
      unchanged unless the block list is empty. */
  lemma SaveLoad(m: Message)
    ensures ToMemory(m).Some? <==> (m.contentBlocks.Some? ==> AllTyped(m.contentBlocks.value))
    ensures ToMemory(m).Some? ==>
              && FromMemory(ToMemory(m).value) == Normalize(m)
              && (FromMemory(ToMemory(m).value) == m <==> m.contentBlocks != Some([]))
  {
    if m.contentBlocks.Some? {
      ParseOfBlocksToDicts(m.contentBlocks.value);
    }
  }

  lemma {:induction false} SaveLoadAll(ms: seq<Message>)
    requires AllStorable(ms)
    ensures FromMemoryAll(ToMemoryAll(ms)) == NormalizeAll(ms)
    ensures |ToMemoryAll(ms)| == |ms|
  {
    if ms != [] {
      SaveLoad(ms[0]);
      SaveLoadAll(ms[1..]);
    }
  }

  type Key = (string, string)
  type Stored = map<Key, seq<MemoryMessage>>

  function StoredAt(messages: Stored, key: Key): seq<MemoryMessage> {
    if key in messages then messages[key] else []
  }

  /** `b` ends with `a`. */
  predicate IsSuffix(a: seq<MemoryMessage>, b: seq<MemoryMessage>) {
    |a| <= |b| && b[|b| - |a|..] == a
  }

  class InMemoryMemoryProvider {
    var messages: Stored

    constructor ()
      ensures messages == map[]
    {
      messages := map[];
    }

    method SaveMessage(userId: string, topicId: string, message: MemoryMessage)
      modifies this
      ensures messages == old(messages)[(userId, topicId) := StoredAt(old(messages), (userId, topicId)) + [message]]
    {
      var key := (userId, topicId);
      messages := messages[key := StoredAt(messages, key) + [message]];
    }

    method GetMessages(userId: string, topicId: string, limit: int) returns (result: seq<MemoryMessage>)
      ensures IsSuffix(result, StoredAt(messages, (userId, topicId)))
      ensures limit <= 0 ==> result == []
      ensures limit > 0 ==>
                var n := |StoredAt(messages, (userId, topicId))|;
                |result| == if limit < n then limit else n
    {
      var stored := StoredAt(messages, (userId, topicId));
      if limit <= 0 {
        return [];
      }
      result := if limit < |stored| then stored[|stored| - limit..] else stored;
    }
  }
}
