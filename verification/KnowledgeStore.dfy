/** memory_bank/knowledge_store.py and the dictionary store of memory_bank/knowledge_inmemory.py. */
module KnowledgeStore {
  import opened Wrappers
  import opened Text
  import opened Frontmatter
  import opened KnowledgeTypes

  const EMPTY_INDEX := KnowledgeIndex(1, "", [])

  // ----- the operations as functions on the files -----

  function LoadIndex(json: Json, files: Files): KnowledgeIndex {
    if INDEX_PATH !in files then EMPTY_INDEX
    else
      match json.parse(files[INDEX_PATH])
      case None => EMPTY_INDEX
      case Some(index) => index
  }

  function WithoutPath(entries: seq<IndexEntry>, path: string): seq<IndexEntry> {
    if entries == [] then []
    else (if entries[0].path != path then [entries[0]] else []) + WithoutPath(entries[1..], path)
  }

  function Save(yaml: Yaml, json: Json, files: Files, entry: KnowledgeEntry, now: string): Files {
    var written := files[entry.path := RenderFrontmatter(yaml, entry.meta, entry.content)];
    var index := LoadIndex(json, written);
    var entries := WithoutPath(index.entries, entry.path) + [IndexEntryOf(entry)];
    written[INDEX_PATH := json.print_(KnowledgeIndex(index.version, now, entries))]
  }

  function Delete(json: Json, files: Files, path: string, now: string): Files {
    var left := files - {path};
    var index := LoadIndex(json, left);
    var entries := WithoutPath(index.entries, path);
    if |entries| == |index.entries| then left
    else left[INDEX_PATH := json.print_(KnowledgeIndex(index.version, now, entries))]
  }

  function OfKind(entries: seq<IndexEntry>, kind: Option<Value>): seq<IndexEntry> {
    if entries == [] then []
    else (if kind.None? || entries[0].kind == kind.value then [entries[0]] else []) + OfKind(entries[1..], kind)
  }

  lemma OfKindNext(entries: seq<IndexEntry>, kind: Option<Value>, i: nat)
    requires i < |entries|
    ensures OfKind(entries[i..], kind)
         == (if kind.None? || entries[i].kind == kind.value then [entries[i]] else []) + OfKind(entries[i + 1..], kind)
  {
    assert entries[i..][1..] == entries[i + 1..];
  }

  datatype Loaded = Missing | Found(entry: KnowledgeEntry) | Raised

  const DEFAULT_META := DocumentMeta(Str("note"), [], Str("medium"), "", "", [], map[])

  function Load(yaml: Yaml, files: Files, path: string): Loaded {
    if path !in files then Missing
    else
      match ParseFrontmatter(yaml, files[path])
      case NotIterable => Raised
      case Parsed(meta, body) =>
        Found(KnowledgeEntry(path, if meta.Some? then meta.value else DEFAULT_META, body, Utf8Length(files[path])))
  }

  class DefaultKnowledgeStore {
    const provider: MemoryBank
    const yaml: Yaml
    const json: Json

    constructor (provider: MemoryBank, yaml: Yaml, json: Json)
      ensures this.provider == provider && this.yaml == yaml && this.json == json
    {
      this.provider := provider;
      this.yaml := yaml;
      this.json := json;
    }

    method SaveEntry(entry: KnowledgeEntry, now: string)
      modifies provider
      ensures provider.files == Save(yaml, json, old(provider.files), entry, now)
    {
      provider.WriteFile(entry.path, RenderFrontmatter(yaml, entry.meta, entry.content));
      var index := ReadIndex();
      var existing := SelectOthers(index.entries, entry.path);
      existing := existing + [IndexEntryOf(entry)];
      provider.WriteFile(INDEX_PATH, json.print_(KnowledgeIndex(index.version, now, existing)));
    }

    method LoadEntry(path: string) returns (result: Loaded)
      ensures result == Load(yaml, provider.files, path)
    {
      var raw := provider.ReadFile(path);
      if raw.None? {
        return Missing;
      }
      match ParseFrontmatter(yaml, raw.value) {
        case NotIterable => return Raised;
        case Parsed(parsed, body) =>
          var meta := DEFAULT_META;
          if parsed.Some? {
            meta := parsed.value;
          }
          return Found(KnowledgeEntry(path, meta, body, Utf8Length(raw.value)));
      }
    }

    method DeleteEntry(path: string, now: string)
      modifies provider
      ensures provider.files == Delete(json, old(provider.files), path, now)
    {
      provider.DeleteFile(path);
      var index := ReadIndex();
      var remaining := SelectOthers(index.entries, path);
      if |remaining| != |index.entries| {
        provider.WriteFile(INDEX_PATH, json.print_(KnowledgeIndex(index.version, now, remaining)));
      }
    }

    method ListEntries(kind: Option<Value>) returns (entries: seq<IndexEntry>)
      ensures entries == OfKind(LoadIndex(json, provider.files).entries, kind)
    {
      var index := ReadIndex();
      entries := [];
      for i := 0 to |index.entries|
        invariant entries + OfKind(index.entries[i..], kind) == OfKind(index.entries, kind)
      {
        OfKindNext(index.entries, kind, i);
        if kind.None? || index.entries[i].kind == kind.value {
          entries := entries + [index.entries[i]];
        }
      }
    }

    method Exists(path: string) returns (found: bool)
      ensures found <==> path in provider.files
    {
      var raw := provider.ReadFile(path);
      found := raw.Some?;
    }

    method ReadIndex() returns (index: KnowledgeIndex)
      ensures index == LoadIndex(json, provider.files)
    {
      var raw := provider.ReadFile(INDEX_PATH);
      if raw.None? {
        return EMPTY_INDEX;
      }
      match json.parse(raw.value) {
        case None => return EMPTY_INDEX;
        case Some(parsed) => return parsed;
      }
    }

    static method SelectOthers(entries: seq<IndexEntry>, path: string) returns (others: seq<IndexEntry>)
      ensures others == WithoutPath(entries, path)
    {
      others := [];
      for i := 0 to |entries|
        invariant others + WithoutPath(entries[i..], path) == WithoutPath(entries, path)
      {
        if entries[i].path != path {
          others := others + [entries[i]];
        }
      }
    }
  }

  // ----- the reference store -----

  type Memory = map<string, KnowledgeEntry>

  /** The index lines of the reference store, as a set. */
  function Listed(memory: Memory, kind: Option<Value>): set<IndexEntry> {
    set p | p in memory && (kind.None? || memory[p].meta.kind == kind.value) :: IndexEntryOf(memory[p])
  }

  class InMemoryKnowledgeStore {
    var entries: Memory

    /** Every entry is filed under its own path. */
    ghost predicate Valid()
      reads this
    {
      forall p :: p in entries ==> entries[p].path == p
    }

    constructor ()
      ensures Valid() && entries == map[]
    {
      entries := map[];
    }

    method SaveEntry(entry: KnowledgeEntry)
      requires Valid()
      modifies this
      ensures Valid()
      ensures entries == old(entries)[entry.path := entry]
    {
      entries := entries[entry.path := entry];
    }

    method DeleteEntry(path: string)
      requires Valid()
      modifies this
      ensures Valid()
      ensures entries == old(entries) - {path}
    {
      entries := entries - {path};
    }

    method LoadEntry(path: string) returns (entry: Option<KnowledgeEntry>)
      ensures entry.None? <==> path !in entries
      ensures entry.Some? ==> entry.value == entries[path]
    {
      entry := if path in entries then Some(entries[path]) else None;
    }

    method ListEntries(kind: Option<Value>) returns (results: seq<IndexEntry>)
      requires Valid()
      ensures Lines(results) == Listed(entries, kind)
      ensures DistinctPaths(results)
    {
      results := [];
      var rest := entries.Keys;
      while rest != {}
        invariant rest <= entries.Keys
        invariant forall e :: e in results ==> e in Listed(entries, kind) && e.path !in rest
        invariant DistinctPaths(results)
        invariant forall p :: p in entries && p !in rest && (kind.None? || entries[p].meta.kind == kind.value) ==>
                    IndexEntryOf(entries[p]) in results
        decreases rest
      {
        var p :| p in rest;
        rest := rest - {p};
        if kind.Some? && entries[p].meta.kind != kind.value {
          continue;
        }
        forall k | 0 <= k < |results| ensures results[k].path != p {
          assert results[k] in results;
        }
        results := results + [IndexEntryOf(entries[p])];
      }
    }
  }

  // ----- runs -----

  datatype Op = OpSave(entry: KnowledgeEntry, now: string) | OpDelete(path: string, now: string)

  function OpPath(op: Op): string {
    match op
    case OpSave(entry, _) => entry.path
    case OpDelete(path, _) => path
  }

  function RunStore(yaml: Yaml, json: Json, files: Files, ops: seq<Op>): Files
    decreases |ops|
  {
    if ops == [] then files
    else
      var next := match ops[0]
        case OpSave(entry, now) => Save(yaml, json, files, entry, now)
        case OpDelete(path, now) => Delete(json, files, path, now);
      RunStore(yaml, json, next, ops[1..])
  }

  function RunMemory(memory: Memory, ops: seq<Op>): Memory
    decreases |ops|
  {
    if ops == [] then memory
    else
      var next := match ops[0]
        case OpSave(entry, _) => memory[entry.path := entry]
        case OpDelete(path, _) => memory - {path};
      RunMemory(next, ops[1..])
  }

  /** No operation names the index file, and what is saved has the annotated types. */
  predicate Proper(ops: seq<Op>) {
    forall i :: 0 <= i < |ops| ==>
      && OpPath(ops[i]) != INDEX_PATH
      && (ops[i].OpSave? ==> Annotated(IndexEntryOf(ops[i].entry)))
  }

  // ----- the refinement invariant -----

  function Lines(entries: seq<IndexEntry>): set<IndexEntry> {
    set e | e in entries
  }

  predicate DistinctPaths(entries: seq<IndexEntry>) {
    forall i, j :: 0 <= i < j < |entries| ==> entries[i].path != entries[j].path
  }

  /** Each path of the reference store has exactly one index line, and there are no others. */
  ghost predicate Indexes(entries: seq<IndexEntry>, memory: Memory) {
    && DistinctPaths(entries)
    && (forall e :: e in entries ==> e.path in memory && e == IndexEntryOf(memory[e.path]))
    && (forall p :: p in memory ==> IndexEntryOf(memory[p]) in entries)
  }

  /** Every document of the reference store is on file, and no other file but the index. */
  ghost predicate HoldsDocuments(yaml: Yaml, files: Files, memory: Memory) {
    && (forall p :: p in memory ==> p != INDEX_PATH && memory[p].path == p && Annotated(IndexEntryOf(memory[p])))
    && files.Keys - {INDEX_PATH} == memory.Keys
    && (forall p :: p in memory ==> files[p] == RenderFrontmatter(yaml, memory[p].meta, memory[p].content))
  }

  ghost predicate Refines(yaml: Yaml, json: Json, files: Files, memory: Memory) {
    && HoldsDocuments(yaml, files, memory)
    && Indexes(LoadIndex(json, files).entries, memory)
    && (INDEX_PATH in files ==> files[INDEX_PATH] != "" && json.parse(files[INDEX_PATH]).Some?)
  }

  lemma {:induction false} WithoutPathMembers(entries: seq<IndexEntry>, path: string)
    ensures forall e :: e in WithoutPath(entries, path) <==> e in entries && e.path != path
  {
    if entries != [] {
      WithoutPathMembers(entries[1..], path);
      assert entries == [entries[0]] + entries[1..];
    }
  }

  lemma {:induction false} WithoutPathDistinct(entries: seq<IndexEntry>, path: string)
    requires DistinctPaths(entries)
    ensures DistinctPaths(WithoutPath(entries, path))
  {
    if entries != [] {
      WithoutPathDistinct(entries[1..], path);
      WithoutPathMembers(entries[1..], path);
      var rest := WithoutPath(entries[1..], path);
      forall j | 0 <= j < |rest| ensures rest[j].path != entries[0].path {
        assert rest[j] in entries[1..];
      }
    }
  }

  lemma {:induction false} WithoutPathLength(entries: seq<IndexEntry>, path: string)
    ensures |WithoutPath(entries, path)| <= |entries|
    ensures |WithoutPath(entries, path)| == |entries| ==> WithoutPath(entries, path) == entries
  {
    if entries != [] {
      WithoutPathLength(entries[1..], path);
    }
  }

  lemma ParsePrinted(json: Json, index: KnowledgeIndex)
    requires JsonReadsBack(json)
    requires forall e :: e in index.entries ==> Annotated(e)
    ensures json.print_(index) != "" && json.parse(json.print_(index)) == Some(index)
  {
  }

  lemma IndexAfterSave(entries: seq<IndexEntry>, memory: Memory, entry: KnowledgeEntry)
    requires Indexes(entries, memory)
    requires forall p :: p in memory ==> memory[p].path == p
    ensures Indexes(WithoutPath(entries, entry.path) + [IndexEntryOf(entry)], memory[entry.path := entry])
  {
    var others, line := WithoutPath(entries, entry.path), IndexEntryOf(entry);
    var after := memory[entry.path := entry];
    WithoutPathMembers(entries, entry.path);
    WithoutPathDistinct(entries, entry.path);
    forall i | 0 <= i < |others| ensures others[i].path != line.path {
      assert others[i] in others;
    }
    forall e | e in others + [line] ensures e.path in after && e == IndexEntryOf(after[e.path]) {
      assert e in others || e == line;
    }
    forall p: string | p in after ensures IndexEntryOf(after[p]) in others + [line] {
      if p == entry.path {
        assert (others + [line])[|others|] == line;
      } else {
        assert IndexEntryOf(memory[p]) in others;
      }
    }
  }

  lemma IndexAfterDelete(entries: seq<IndexEntry>, memory: Memory, path: string)
    requires Indexes(entries, memory)
    requires forall p :: p in memory ==> memory[p].path == p
    ensures Indexes(WithoutPath(entries, path), memory - {path})
  {
    WithoutPathMembers(entries, path);
    WithoutPathDistinct(entries, path);
  }

  /** Writing an index that lists exactly the documents on file makes the files refine the reference. */
  lemma WrittenIndexRefines(yaml: Yaml, json: Json, files: Files, memory: Memory, index: KnowledgeIndex)
    requires JsonReadsBack(json)
    requires HoldsDocuments(yaml, files, memory)
    requires Indexes(index.entries, memory)
    ensures Refines(yaml, json, files[INDEX_PATH := json.print_(index)], memory)
  {
    forall e | e in index.entries ensures Annotated(e) {
      assert Annotated(IndexEntryOf(memory[e.path]));
    }
    ParsePrinted(json, index);
    IndexWriteKeepsDocuments(yaml, files, memory, json.print_(index));
  }

  lemma IndexWriteKeepsDocuments(yaml: Yaml, files: Files, memory: Memory, text: string)
    requires HoldsDocuments(yaml, files, memory)
    ensures HoldsDocuments(yaml, files[INDEX_PATH := text], memory)
  {
  }

  lemma SaveRefines(yaml: Yaml, json: Json, files: Files, memory: Memory, entry: KnowledgeEntry, now: string)
    requires JsonReadsBack(json)
    requires Refines(yaml, json, files, memory)
    requires entry.path != INDEX_PATH && Annotated(IndexEntryOf(entry))
    ensures Refines(yaml, json, Save(yaml, json, files, entry, now), memory[entry.path := entry])
  {
    var before := LoadIndex(json, files);
    IndexAfterSave(before.entries, memory, entry);
    var written := files[entry.path := RenderFrontmatter(yaml, entry.meta, entry.content)];
    assert LoadIndex(json, written) == before;
    assert HoldsDocuments(yaml, written, memory[entry.path := entry]);
    var index := KnowledgeIndex(before.version, now, WithoutPath(before.entries, entry.path) + [IndexEntryOf(entry)]);
    WrittenIndexRefines(yaml, json, written, memory[entry.path := entry], index);
  }

  lemma DeleteRefines(yaml: Yaml, json: Json, files: Files, memory: Memory, path: string, now: string)
    requires JsonReadsBack(json)
    requires Refines(yaml, json, files, memory)
    requires path != INDEX_PATH
    ensures Refines(yaml, json, Delete(json, files, path, now), memory - {path})
  {
    var before := LoadIndex(json, files);
    IndexAfterDelete(before.entries, memory, path);
    WithoutPathLength(before.entries, path);
    assert LoadIndex(json, files - {path}) == before;
    assert HoldsDocuments(yaml, files - {path}, memory - {path});
    var index := KnowledgeIndex(before.version, now, WithoutPath(before.entries, path));
    WrittenIndexRefines(yaml, json, files - {path}, memory - {path}, index);
  }

  /** The index after a save: stamped with the time, the same version, the other lines in their order, and the
      new line last. */
  lemma IndexAfterSaving(yaml: Yaml, json: Json, files: Files, memory: Memory, entry: KnowledgeEntry, now: string)
    requires JsonReadsBack(json)
    requires Refines(yaml, json, files, memory)
    requires entry.path != INDEX_PATH && Annotated(IndexEntryOf(entry))
    ensures
      var before, after := LoadIndex(json, files), LoadIndex(json, Save(yaml, json, files, entry, now));
      && after.updated == now && after.version == before.version
      && after.entries == WithoutPath(before.entries, entry.path) + [IndexEntryOf(entry)]
  {
    var before := LoadIndex(json, files);
    var written := files[entry.path := RenderFrontmatter(yaml, entry.meta, entry.content)];
    assert LoadIndex(json, written) == before;
    var index := KnowledgeIndex(before.version, now, WithoutPath(before.entries, entry.path) + [IndexEntryOf(entry)]);
    OthersAnnotated(yaml, files, memory, before.entries, entry.path);
    ParsePrinted(json, index);
  }

  lemma OthersAnnotated(yaml: Yaml, files: Files, memory: Memory, entries: seq<IndexEntry>, path: string)
    requires HoldsDocuments(yaml, files, memory) && Indexes(entries, memory)
    ensures forall e :: e in WithoutPath(entries, path) ==> Annotated(e)
  {
    WithoutPathMembers(entries, path);
    forall e | e in WithoutPath(entries, path) ensures Annotated(e) {
      assert Annotated(IndexEntryOf(memory[e.path]));
    }
  }

  /** The index after a delete: stamped with the time if a line went, else as it was. */
  lemma IndexAfterDeleting(yaml: Yaml, json: Json, files: Files, memory: Memory, path: string, now: string)
    requires JsonReadsBack(json)
    requires Refines(yaml, json, files, memory)
    requires path != INDEX_PATH
    ensures
      var before, after := LoadIndex(json, files), LoadIndex(json, Delete(json, files, path, now));
      if path in memory then
        after == KnowledgeIndex(before.version, now, WithoutPath(before.entries, path))
      else Delete(json, files, path, now) == files
  {
    var before := LoadIndex(json, files);
    assert LoadIndex(json, files - {path}) == before;
    OthersAnnotated(yaml, files, memory, before.entries, path);
    WithoutPathLength(before.entries, path);
    WithoutPathMembers(before.entries, path);
    if path in memory {
      assert IndexEntryOf(memory[path]) in before.entries;
      ParsePrinted(json, KnowledgeIndex(before.version, now, WithoutPath(before.entries, path)));
    } else {
      NoLineGoes(before.entries, path);
      assert files - {path} == files;
    }
  }

  lemma {:induction false} NoLineGoes(entries: seq<IndexEntry>, path: string)
    requires forall e :: e in entries ==> e.path != path
    ensures WithoutPath(entries, path) == entries
  {
    if entries != [] {
      NoLineGoes(entries[1..], path);
    }
  }

  /** The version of the index is one after every run. */
  lemma {:induction false} VersionIsOne(yaml: Yaml, json: Json, files: Files, memory: Memory, ops: seq<Op>)
    requires JsonReadsBack(json) && Proper(ops)
    requires Refines(yaml, json, files, memory) && LoadIndex(json, files).version == 1
    ensures LoadIndex(json, RunStore(yaml, json, files, ops)).version == 1
    decreases |ops|
  {
    if ops != [] {
      assert OpPath(ops[0]) != INDEX_PATH;
      match ops[0] {
        case OpSave(entry, now) =>
          SaveRefines(yaml, json, files, memory, entry, now);
          IndexAfterSaving(yaml, json, files, memory, entry, now);
          VersionIsOne(yaml, json, Save(yaml, json, files, entry, now), memory[entry.path := entry], ops[1..]);
        case OpDelete(path, now) =>
          DeleteRefines(yaml, json, files, memory, path, now);
          IndexAfterDeleting(yaml, json, files, memory, path, now);
          VersionIsOne(yaml, json, Delete(json, files, path, now), memory - {path}, ops[1..]);
      }
    }
  }

  lemma EmptyBankRefines(yaml: Yaml, json: Json)
    ensures Refines(yaml, json, map[], map[]) && LoadIndex(json, map[]) == KnowledgeIndex(1, "", [])
  {
  }

  /** A file without a header loads as a note of medium importance with nothing else, and its whole text. */
  lemma HeaderlessFileLoads(yaml: Yaml, files: Files, path: string)
    requires path in files && !("---" <= files[path])
    ensures
      var meta := DocumentMeta(Str("note"), [], Str("medium"), "", "", [], map[]);
      Load(yaml, files, path) == Found(KnowledgeEntry(path, meta, files[path], Utf8Length(files[path])))
  {
    HeaderlessDocument(yaml, files[path]);
  }

  /** The lines are gone through in their order. */
  lemma {:induction false} WithoutPathConcat(a: seq<IndexEntry>, b: seq<IndexEntry>, path: string)
    ensures WithoutPath(a + b, path) == WithoutPath(a, path) + WithoutPath(b, path)
  {
    if a == [] {
      assert a + b == b;
    } else {
      assert (a + b)[1..] == a[1..] + b;
      WithoutPathConcat(a[1..], b, path);
    }
  }

  lemma WithoutPathOfOne(e: IndexEntry, path: string)
    ensures WithoutPath([e], path) == if e.path == path then [] else [e]
  {
    assert [e][1..] == [];
  }

  lemma {:induction false} RunRefines(yaml: Yaml, json: Json, files: Files, memory: Memory, ops: seq<Op>)
    requires JsonReadsBack(json)
    requires Refines(yaml, json, files, memory)
    requires Proper(ops)
    ensures Refines(yaml, json, RunStore(yaml, json, files, ops), RunMemory(memory, ops))
    decreases |ops|
  {
    if ops != [] {
      assert OpPath(ops[0]) != INDEX_PATH;
      match ops[0] {
        case OpSave(entry, now) =>
          SaveRefines(yaml, json, files, memory, entry, now);
          RunRefines(yaml, json, Save(yaml, json, files, entry, now), memory[entry.path := entry], ops[1..]);
        case OpDelete(path, now) =>
          DeleteRefines(yaml, json, files, memory, path, now);
          RunRefines(yaml, json, Delete(json, files, path, now), memory - {path}, ops[1..]);
      }
    }
  }

  lemma {:induction false} OfKindMembers(entries: seq<IndexEntry>, kind: Option<Value>)
    ensures forall e :: e in OfKind(entries, kind) <==> e in entries && (kind.None? || e.kind == kind.value)
    ensures DistinctPaths(entries) ==> DistinctPaths(OfKind(entries, kind))
  {
    if entries != [] {
      OfKindMembers(entries[1..], kind);
      assert entries == [entries[0]] + entries[1..];
    }
  }

  // ----- the main results -----

  /** After any run of saves and deletes from an empty bank, the file store lists the same index lines as
      the dictionary store, each path once, and both have the same documents. */
  lemma StoreRefinesMemory(yaml: Yaml, json: Json, ops: seq<Op>, kind: Option<Value>)
    requires JsonReadsBack(json) && Proper(ops)
    ensures
      var files, memory := RunStore(yaml, json, map[], ops), RunMemory(map[], ops);
      var listed := OfKind(LoadIndex(json, files).entries, kind);
      && Lines(listed) == Listed(memory, kind)
      && DistinctPaths(listed)
      && files.Keys - {INDEX_PATH} == memory.Keys
  {
    RunRefines(yaml, json, map[], map[], ops);
    OfKindMembers(LoadIndex(json, RunStore(yaml, json, map[], ops)).entries, kind);
  }

  /** The header has no dashes of its own and no custom key hides a known one. */
  predicate Survives(yaml: Yaml, meta: DocumentMeta) {
    !Contains(Header(yaml, meta), DASHES) && meta.custom.Keys !! KNOWN_KEYS
  }

  /** What the file store loads after any run is what the dictionary store holds, with stripped content
      and the real file size, exactly when the header of the document survives the round trip. */
  lemma LoadAgreesIff(yaml: Yaml, json: Json, ops: seq<Op>, path: string)
    requires JsonReadsBack(json) && Proper(ops)
    requires path in RunMemory(map[], ops)
    requires ReadsBack(yaml, RunMemory(map[], ops)[path].meta)
    ensures
      var files, entry := RunStore(yaml, json, map[], ops), RunMemory(map[], ops)[path];
      var loaded := Load(yaml, files, path);
      && path in files
      && (loaded == Found(entry.(content := Strip(entry.content), sizeBytes := Utf8Length(files[path])))
          <==> Survives(yaml, entry.meta))
  {
    RunRefines(yaml, json, map[], map[], ops);
    var entry := RunMemory(map[], ops)[path];
    if Contains(Header(yaml, entry.meta), DASHES) {
      ParseOfRenderedDashes(yaml, entry.meta, entry.content);
    } else {
      ParseOfRendered(yaml, entry.meta, entry.content);
      RenderDataInverse(yaml, entry.meta);
    }
  }
}
