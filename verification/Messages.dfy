/** domain_types.py: the runtime message and its content blocks. */
module Messages {
  import opened Wrappers

  /** A metadata value as the code observes it: what `str()` prints and whether it is truthy. */
  datatype MetaValue = MetaValue(text: string, truthy: bool)

  /** A dictionary of whose values only strings matter, or something else. */
  datatype RawValue = RawText(s: string) | RawOther
  datatype RawBlock = RawDict(fields: map<string, RawValue>) | NotADict

  /** A content block. `Message(**payload)` puts the dictionaries of the payload into the list as they are:
      such a block is untyped and has no `to_dict`. */
  datatype ContentBlock =
    | TextBlock(text: string)
    | ImageBlock(data: string, mediaType: string)
    | UntypedBlock(raw: RawBlock)

  datatype Message = Message(
    role: string,
    content: string,
    name: Option<string>,
    toolCalls: Option<seq<string>>,
    metadata: Option<map<string, MetaValue>>,
    contentBlocks: Option<seq<ContentBlock>>
  )

  /** `Message(role=..., content=...)` with every other field left at its default. */
  function PlainMessage(role: string, content: string): Message {
    Message(role, content, None, None, None, None)
  }
}
