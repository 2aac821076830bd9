/** memory_bank/knowledge_types.py, and the file store that the knowledge bank writes to. */
module KnowledgeTypes {
  import opened Wrappers
  import opened Text
  import opened Frontmatter

  datatype KnowledgeEntry = KnowledgeEntry(path: string, meta: DocumentMeta, content: string, sizeBytes: nat)

  datatype IndexEntry = IndexEntry(
    path: string,
    kind: Value,
    tags: seq<Value>,
    importance: Value,
    summary: string,
    updated: string
  )

  datatype KnowledgeIndex = KnowledgeIndex(version: int, updated: string, entries: seq<IndexEntry>)

  /** The JSON library: the text of an index, and the index of a text (none if it is malformed). */
  datatype Json = Json(print_: KnowledgeIndex -> string, parse: string -> Option<KnowledgeIndex>)

  type Files = map<string, string>

  const INDEX_PATH := "index.json"
  const SUMMARY_CHARS := 100

  function IndexEntryOf(entry: KnowledgeEntry): IndexEntry {
    IndexEntry(entry.path, entry.meta.kind, entry.meta.tags, entry.meta.importance,
               Prefix(entry.content, SUMMARY_CHARS), entry.meta.updated)
  }

  /** The fields that go into the index are strings, as their annotations say. */
  predicate Annotated(e: IndexEntry) {
    e.kind.Str? && e.importance.Str? && forall i :: 0 <= i < |e.tags| ==> e.tags[i].Str?
  }

  /** JSON reads back every index whose fields are strings, and prints something for it. */
  ghost predicate JsonReadsBack(json: Json) {
    forall index: KnowledgeIndex :: (forall e :: e in index.entries ==> Annotated(e)) ==>
      json.print_(index) != "" && json.parse(json.print_(index)) == Some(index)
  }

  class MemoryBank {
    var files: Files

    constructor ()
      ensures files == map[]
    {
      files := map[];
    }

    method ReadFile(path: string) returns (raw: Option<string>)
      ensures raw == if path in files then Some(files[path]) else None
    {
      raw := if path in files then Some(files[path]) else None;
    }

    method WriteFile(path: string, content: string)
      modifies this
      ensures files == old(files)[path := content]
    {
      files := files[path := content];
    }

    method DeleteFile(path: string)
      modifies this
      ensures files == old(files) - {path}
    {
      files := files - {path};
    }

    /** Every path once, in an order that the caller must not rely on. */
    method ListFiles() returns (paths: seq<string>)
      ensures forall p :: p in paths <==> p in files
      ensures forall i, j :: 0 <= i < j < |paths| ==> paths[i] != paths[j]
    {
      paths := [];
      var rest := files.Keys;
      while rest != {}
        invariant rest <= files.Keys
        invariant forall p :: p in paths <==> p in files && p !in rest
        invariant forall i, j :: 0 <= i < j < |paths| ==> paths[i] != paths[j]
        decreases rest
      {
        var p :| p in rest;
        paths := paths + [p];
        rest := rest - {p};
      }
    }
  }
}
