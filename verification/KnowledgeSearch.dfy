/** memory_bank/knowledge_search.py: rebuilding the index from the documents, and the cached index. */
module KnowledgeSearch {
  import opened Wrappers
  import opened Text
  import opened Frontmatter
  import opened KnowledgeTypes
  import opened KnowledgeStore

  predicate Indexable(path: string) {
    path != INDEX_PATH && EndsWith(path, ".md")
  }

  /** The index line of a document on file; none if parsing it raises. */
  function RebuiltEntry(yaml: Yaml, path: string, raw: string): Option<IndexEntry> {
    match ParseFrontmatter(yaml, raw)
    case NotIterable => None
    case Parsed(None, body) => Some(IndexEntry(path, Str("note"), [], Str("medium"), Prefix(body, SUMMARY_CHARS), ""))
    case Parsed(Some(meta), body) =>
      Some(IndexEntry(path, meta.kind, meta.tags, meta.importance, Prefix(body, SUMMARY_CHARS), meta.updated))
  }

  /** One line for each Markdown document on file, and nothing else. */
  ghost predicate Rebuilds(yaml: Yaml, files: Files, entries: seq<IndexEntry>) {
    && DistinctPaths(entries)
    && (forall e :: e in entries ==>
          Indexable(e.path) && e.path in files && RebuiltEntry(yaml, e.path, files[e.path]) == Some(e))
    && (forall p :: p in files && Indexable(p) ==> exists e :: e in entries && e.path == p)
  }

  /** The index that a searcher without a cache finds on file. */
  function StoredIndex(json: Json, files: Files): Option<KnowledgeIndex> {
    if INDEX_PATH in files && files[INDEX_PATH] != "" then json.parse(files[INDEX_PATH]) else None
  }

  class DefaultKnowledgeSearcher {
    const provider: MemoryBank
    const yaml: Yaml
    const json: Json
    var index: Option<KnowledgeIndex>

    constructor (provider: MemoryBank, yaml: Yaml, json: Json)
      ensures this.provider == provider && this.yaml == yaml && this.json == json && index == None
    {
      this.provider := provider;
      this.yaml := yaml;
      this.json := json;
      index := None;
    }

    /** Scans all documents; a document that makes the parser raise ends the scan with no effect. */
    method RebuildIndex(now: string) returns (result: Result<KnowledgeIndex, string>)
      modifies this, provider
      ensures result.Success? ==>
                && Rebuilds(yaml, old(provider.files), result.value.entries)
                && result.value.version == 1 && result.value.updated == now
                && index == Some(result.value)
                && provider.files == old(provider.files)[INDEX_PATH := json.print_(result.value)]
      ensures result.Failure? ==>
                && index == old(index) && provider.files == old(provider.files)
                && exists p :: p in provider.files && Indexable(p)
                               && RebuiltEntry(yaml, p, provider.files[p]).None?
    {
      var paths := provider.ListFiles();
      var entries: seq<IndexEntry> := [];
      for i := 0 to |paths|
        invariant provider.files == old(provider.files) && index == old(index)
        invariant DistinctPaths(entries)
        invariant forall e :: e in entries ==>
                    && e.path in paths[..i] && Indexable(e.path) && e.path in provider.files
                    && RebuiltEntry(yaml, e.path, provider.files[e.path]) == Some(e)
        invariant forall j :: 0 <= j < i && Indexable(paths[j]) ==> exists e :: e in entries && e.path == paths[j]
      {
        var f := paths[i];
        assert f in paths;
        if f == INDEX_PATH || !EndsWith(f, ".md") {
          continue;
        }
        var raw := provider.ReadFile(f);
        var entry := RebuiltEntry(yaml, f, raw.value);
        if entry.None? {
          return Failure("TypeError");
        }
        forall k | 0 <= k < |entries| ensures entries[k].path != f {
          assert entries[k] in entries;
        }
        assert entry.value.path == f;
        ghost var before := entries;
        entries := entries + [entry.value];
        assert forall e :: e in entries <==> e in before || e == entry.value;
        assert entry.value in entries;
      }
      index := Some(KnowledgeIndex(1, now, entries));
      provider.WriteFile(INDEX_PATH, json.print_(index.value));
      result := Success(index.value);
    }

    method GetIndex(now: string) returns (result: Result<KnowledgeIndex, string>)
      modifies this, provider
      ensures old(index).Some? ==>
                result == Success(old(index).value) && index == old(index) && provider.files == old(provider.files)
      ensures old(index).None? && StoredIndex(json, old(provider.files)).Some? ==>
                && result == Success(StoredIndex(json, old(provider.files)).value)
                && index == StoredIndex(json, old(provider.files)) && provider.files == old(provider.files)
      ensures old(index).None? && StoredIndex(json, old(provider.files)).None? && result.Success? ==>
                && Rebuilds(yaml, old(provider.files), result.value.entries)
                && result.value.version == 1 && result.value.updated == now
                && index == Some(result.value)
                && provider.files == old(provider.files)[INDEX_PATH := json.print_(result.value)]
      ensures result.Failure? ==>
                && old(index).None? && StoredIndex(json, old(provider.files)).None?
                && index == None && provider.files == old(provider.files)
                && exists p :: p in provider.files && Indexable(p)
                               && RebuiltEntry(yaml, p, provider.files[p]).None?
    {
      if index.Some? {
        return Success(index.value);
      }
      var raw := provider.ReadFile(INDEX_PATH);
      if raw.Some? && raw.value != "" {
        var parsed := json.parse(raw.value);
        if parsed.Some? {
          index := parsed;
          return Success(parsed.value);
        }
      }
      result := RebuildIndex(now);
    }
  }

  // ----- rebuilding against incremental maintenance -----

  /** Stripping the content of this document does not change the first characters that the index keeps. */
  predicate SummaryIsStripped(entry: KnowledgeEntry) {
    Prefix(Strip(entry.content), SUMMARY_CHARS) == Prefix(entry.content, SUMMARY_CHARS)
  }

  /** Every live Markdown document has a header that the library reads back and that has no dashes of its own. */
  ghost predicate AllReadable(yaml: Yaml, memory: Memory) {
    forall p :: p in memory && EndsWith(p, ".md") ==> Readable(yaml, memory[p].meta)
  }

  ghost predicate Readable(yaml: Yaml, meta: DocumentMeta) {
    ReadsBack(yaml, meta) && !Contains(Header(yaml, meta), DASHES)
  }

  /** The value that is printed under a known key: a custom key of the same name wins. */
  function Printed(meta: DocumentMeta, key: string, own: Value): Value {
    Get(meta.custom, key, own)
  }

  /** What is printed under `tags` and `related` can be iterated over. */
  predicate ListsIterable(meta: DocumentMeta) {
    && Iterate(Printed(meta, "tags", List(meta.tags))).Some?
    && Iterate(Printed(meta, "related", List(meta.related))).Some?
  }

  /** Custom keys that hide a known one do not change what the index keeps of it. */
  predicate LineKeysKept(yaml: Yaml, meta: DocumentMeta) {
    && ListsIterable(meta)
    && Printed(meta, "kind", meta.kind) == meta.kind
    && Iterate(Printed(meta, "tags", List(meta.tags))) == Some(meta.tags)
    && Printed(meta, "importance", meta.importance) == meta.importance
    && yaml.show(Printed(meta, "updated", Str(meta.updated))) == meta.updated
  }

  lemma PrintedIsRead(meta: DocumentMeta, key: string, default: Value, own: Value)
    requires Get(KnownData(meta), key, default) == own
    ensures Get(RenderData(meta), key, default) == Printed(meta, key, own)
  {
  }

  /** What the parser makes of the rendered mapping, custom keys included. */
  lemma MetaOfRendered(yaml: Yaml, meta: DocumentMeta)
    ensures
      var read := MetaFromData(yaml, RenderData(meta));
      && (read.Some? <==> ListsIterable(meta))
      && (read.Some? ==>
            && read.value.kind == Printed(meta, "kind", meta.kind)
            && Some(read.value.tags) == Iterate(Printed(meta, "tags", List(meta.tags)))
            && read.value.importance == Printed(meta, "importance", meta.importance)
            && read.value.updated == yaml.show(Printed(meta, "updated", Str(meta.updated))))
  {
    KnownDataLookups(meta);
    PrintedIsRead(meta, "kind", Str("note"), meta.kind);
    PrintedIsRead(meta, "tags", List([]), List(meta.tags));
    PrintedIsRead(meta, "importance", Str("medium"), meta.importance);
    PrintedIsRead(meta, "updated", Str(""), Str(meta.updated));
    PrintedIsRead(meta, "related", List([]), List(meta.related));
  }

  /** Rebuilding the line of a readable document gives the stored line exactly when stripping does not change
      its summary and no custom key changes what the index keeps; and it raises exactly when a custom key
      puts something under `tags` or `related` that cannot be iterated over. */
  lemma RebuiltLineIff(yaml: Yaml, entry: KnowledgeEntry)
    requires Readable(yaml, entry.meta)
    ensures
      var rebuilt := RebuiltEntry(yaml, entry.path, RenderFrontmatter(yaml, entry.meta, entry.content));
      && (rebuilt.Some? <==> ListsIterable(entry.meta))
      && (rebuilt == Some(IndexEntryOf(entry)) <==> LineKeysKept(yaml, entry.meta) && SummaryIsStripped(entry))
  {
    ParseOfRendered(yaml, entry.meta, entry.content);
    MetaOfRendered(yaml, entry.meta);
  }

  /** For any file at all, rendered or not, rebuilding makes the line of what loading the file gives, with the
      first hundred characters of its body, and raises exactly when loading does. */
  lemma RebuiltIsLoaded(yaml: Yaml, files: Files, path: string)
    requires path in files && yaml.show(Str("")) == ""
    ensures
      var loaded, line := Load(yaml, files, path), RebuiltEntry(yaml, path, files[path]);
      && (loaded.Raised? <==> line.None?)
      && (loaded.Found? ==> line == Some(IndexEntryOf(loaded.entry)))
      && (loaded.Found? ==>
            line.value.summary == if |loaded.entry.content| <= 100 then loaded.entry.content
                                  else loaded.entry.content[..100])
  {
  }

  /** The two indexes agree on one document. */
  lemma LineAgreesIff(yaml: Yaml, json: Json, files: Files, memory: Memory, entries: seq<IndexEntry>, path: string)
    requires Refines(yaml, json, files, memory)
    requires Rebuilds(yaml, files, entries)
    requires path in memory && (EndsWith(path, ".md") ==> Readable(yaml, memory[path].meta))
    ensures IndexEntryOf(memory[path]) in entries <==> SameLine(yaml, memory, path)
  {
    if EndsWith(path, ".md") {
      RebuiltLineIff(yaml, memory[path]);
      assert Indexable(path);
      var e :| e in entries && e.path == path;
    }
  }

  /** The documents whose line the two indexes agree on. */
  predicate SameLine(yaml: Yaml, memory: Memory, path: string)
    requires path in memory
  {
    EndsWith(path, ".md") && SummaryIsStripped(memory[path]) && LineKeysKept(yaml, memory[path].meta)
  }

  ghost predicate AllSameLine(yaml: Yaml, memory: Memory) {
    forall p :: p in memory ==> SameLine(yaml, memory, p)
  }

  lemma RebuildAgreesOn(yaml: Yaml, json: Json, files: Files, memory: Memory, entries: seq<IndexEntry>)
    requires Refines(yaml, json, files, memory) && AllReadable(yaml, memory)
    requires Rebuilds(yaml, files, entries)
    ensures Lines(entries) == Lines(LoadIndex(json, files).entries)
       <==> AllSameLine(yaml, memory)
  {
    var stored := LoadIndex(json, files).entries;
    forall p | p in memory ensures IndexEntryOf(memory[p]) in entries <==> SameLine(yaml, memory, p) {
      LineAgreesIff(yaml, json, files, memory, entries, p);
    }
    if AllSameLine(yaml, memory) {
      forall e | e in Lines(entries) ensures e in Lines(stored) {
        assert SameLine(yaml, memory, e.path);
        RebuiltLineIff(yaml, memory[e.path]);
        assert IndexEntryOf(memory[e.path]) in stored;
      }
      forall e | e in Lines(stored) ensures e in Lines(entries) {
        assert e == IndexEntryOf(memory[e.path]);
      }
    } else {
      var p :| p in memory && !SameLine(yaml, memory, p);
      var line := IndexEntryOf(memory[p]);
      assert line in Lines(stored) && line !in Lines(entries);
    }
  }

  /** After any run of saves and deletes that leaves only readable Markdown documents, an index rebuilt from
      the documents has the same lines as the incrementally maintained one exactly when every live document
      is a Markdown file, stripping does not change its summary, and its custom keys change nothing that the
      index keeps. A header with dashes of its own is cut short; what the library reads from the cut text is
      not determined. */
  lemma RebuildAgreesIff(yaml: Yaml, json: Json, ops: seq<Op>, entries: seq<IndexEntry>)
    requires JsonReadsBack(json) && Proper(ops)
    requires AllReadable(yaml, RunMemory(map[], ops))
    requires Rebuilds(yaml, RunStore(yaml, json, map[], ops), entries)
    ensures Lines(entries) == Lines(LoadIndex(json, RunStore(yaml, json, map[], ops)).entries)
       <==> AllSameLine(yaml, RunMemory(map[], ops))
  {
    RunRefines(yaml, json, map[], map[], ops);
    RebuildAgreesOn(yaml, json, RunStore(yaml, json, map[], ops), RunMemory(map[], ops), entries);
  }

  /** Rebuilding raises on no readable document of such a run except for one whose custom keys put something
      under `tags` or `related` that cannot be iterated over. */
  lemma RebuildSucceedsIff(yaml: Yaml, json: Json, ops: seq<Op>, path: string)
    requires JsonReadsBack(json) && Proper(ops)
    requires path in RunMemory(map[], ops) && Readable(yaml, RunMemory(map[], ops)[path].meta)
    ensures path in RunStore(yaml, json, map[], ops)
    ensures RebuiltEntry(yaml, path, RunStore(yaml, json, map[], ops)[path]).Some?
       <==> ListsIterable(RunMemory(map[], ops)[path].meta)
  {
    RunRefines(yaml, json, map[], map[], ops);
    RebuiltLineIff(yaml, RunMemory(map[], ops)[path]);
  }

  lemma IndexedIsListed(entries: seq<IndexEntry>, memory: Memory, path: string)
    requires Indexes(entries, memory) && path in memory
    ensures entries != []
  {
    assert IndexEntryOf(memory[path]) in entries;
  }

  lemma RebuiltIsOnFile(yaml: Yaml, files: Files, entries: seq<IndexEntry>)
    requires Rebuilds(yaml, files, entries) && entries != []
    ensures files.Keys - {INDEX_PATH} != {}
  {
    assert entries[0] in entries;
    assert entries[0].path in files.Keys - {INDEX_PATH};
  }

  /** A fresh searcher sees the index of the store after any run: it finds it on file, or there is nothing
      to index and rebuilding finds nothing. */
  lemma FreshSearcherSeesStore(yaml: Yaml, json: Json, ops: seq<Op>)
    requires JsonReadsBack(json) && Proper(ops)
    ensures
      var files := RunStore(yaml, json, map[], ops);
      if INDEX_PATH in files then StoredIndex(json, files) == Some(LoadIndex(json, files))
      else LoadIndex(json, files).entries == [] && forall entries :: Rebuilds(yaml, files, entries) ==> entries == []
  {
    var files, memory := RunStore(yaml, json, map[], ops), RunMemory(map[], ops);
    RunRefines(yaml, json, map[], map[], ops);
    if INDEX_PATH !in files {
      forall p | p in memory ensures false {
        IndexedIsListed(LoadIndex(json, files).entries, memory, p);
      }
      forall entries | Rebuilds(yaml, files, entries) ensures entries == [] {
        if entries != [] {
          RebuiltIsOnFile(yaml, files, entries);
        }
      }
    }
  }

  /** The last of the operations that names the path. */
  function LastOp(ops: seq<Op>, path: string): Option<Op> {
    if ops == [] then None
    else if LastOp(ops[1..], path).Some? then LastOp(ops[1..], path)
    else if OpPath(ops[0]) == path then Some(ops[0])
    else None
  }

  /** The operation leaves the index line of its path as the cached index has it. */
  predicate LeavesLine(cached: seq<IndexEntry>, op: Op) {
    match op
    case OpSave(entry, _) => IndexEntryOf(entry) in cached
    case OpDelete(path, _) => forall i :: 0 <= i < |cached| ==> cached[i].path != path
  }

  /** The last operation on the path, if there is one, leaves its line. */
  predicate KeptAt(cached: seq<IndexEntry>, ops: seq<Op>, path: string) {
    LastOp(ops, path).Some? ==> LeavesLine(cached, LastOp(ops, path).value)
  }

  /** A path holds what the last operation on it left, or what it held before. */
  lemma {:induction false} MemoryAfterOps(memory: Memory, ops: seq<Op>, path: string)
    ensures
      var after, last := RunMemory(memory, ops), LastOp(ops, path);
      if last.None? then
        (path in after <==> path in memory) && (path in after ==> after[path] == memory[path])
      else
        match last.value
        case OpSave(entry, _) => entry.path == path && path in after && after[path] == entry
        case OpDelete(p, _) => p == path && path !in after
    decreases |ops|
  {
    if ops != [] {
      match ops[0] {
        case OpSave(entry, _) => MemoryAfterOps(memory[entry.path := entry], ops[1..], path);
        case OpDelete(p, _) => MemoryAfterOps(memory - {p}, ops[1..], path);
      }
    }
  }

  /** The lines of two dictionaries agree exactly if they agree path by path. */
  lemma SameLinesByPath(before: seq<IndexEntry>, memory: Memory, after: seq<IndexEntry>, memory': Memory)
    requires Indexes(before, memory) && Indexes(after, memory')
    requires forall p :: p in memory ==> memory[p].path == p
    requires forall p :: p in memory' ==> memory'[p].path == p
    ensures Lines(before) == Lines(after)
       <==> forall p :: SameAt(memory, memory', p)
  {
    if Lines(before) == Lines(after) {
      forall p ensures SameAt(memory, memory', p) {
        assert p in memory ==> IndexEntryOf(memory[p]) in Lines(before);
        assert p in memory' ==> IndexEntryOf(memory'[p]) in Lines(after);
      }
    }
    if forall p :: SameAt(memory, memory', p) {
      forall e | e in before ensures e in after {
        assert SameAt(memory, memory', e.path);
      }
      forall e | e in after ensures e in before {
        assert SameAt(memory, memory', e.path);
      }
    }
  }

  predicate SameAt(memory: Memory, memory': Memory, path: string) {
    && (path in memory <==> path in memory')
    && (path in memory ==> IndexEntryOf(memory[path]) == IndexEntryOf(memory'[path]))
  }

  lemma SameAtIff(cached: seq<IndexEntry>, memory: Memory, ops: seq<Op>, path: string)
    requires Indexes(cached, memory)
    requires forall p :: p in memory ==> memory[p].path == p
    ensures SameAt(memory, RunMemory(memory, ops), path)
       <==> KeptAt(cached, ops, path)
  {
    MemoryAfterOps(memory, ops, path);
    if path in memory {
      var line := IndexEntryOf(memory[path]);
      assert line in cached;
      var i :| 0 <= i < |cached| && cached[i] == line;
    }
  }

  /** A searcher that cached the index after a run still has the lines of the store after any further run
      exactly when the last further operation on every path left the index line of that path as it was. */
  lemma CacheStaysFreshIff(yaml: Yaml, json: Json, ops: seq<Op>, later: seq<Op>)
    requires JsonReadsBack(json) && Proper(ops) && Proper(later)
    ensures
      var files := RunStore(yaml, json, map[], ops);
      var cached := LoadIndex(json, files).entries;
      var current := LoadIndex(json, RunStore(yaml, json, files, later)).entries;
      Lines(cached) == Lines(current)
      <==> forall p :: KeptAt(cached, later, p)
  {
    RunRefines(yaml, json, map[], map[], ops);
    RunRefines(yaml, json, RunStore(yaml, json, map[], ops), RunMemory(map[], ops), later);
    LinesAfterOps(LoadIndex(json, RunStore(yaml, json, map[], ops)).entries, RunMemory(map[], ops), later,
                  LoadIndex(json, RunStore(yaml, json, RunStore(yaml, json, map[], ops), later)).entries);
  }

  lemma LinesAfterOps(cached: seq<IndexEntry>, memory: Memory, later: seq<Op>, current: seq<IndexEntry>)
    requires Indexes(cached, memory) && Indexes(current, RunMemory(memory, later))
    requires forall p :: p in memory ==> memory[p].path == p
    requires forall p :: p in RunMemory(memory, later) ==> RunMemory(memory, later)[p].path == p
    ensures Lines(cached) == Lines(current)
       <==> forall p :: KeptAt(cached, later, p)
  {
    SameLinesByPath(cached, memory, current, RunMemory(memory, later));
    forall p
      ensures SameAt(memory, RunMemory(memory, later), p)
         <==> KeptAt(cached, later, p)
    {
      SameAtIff(cached, memory, later, p);
    }
  }

  // ----- inputs on which the indexes differ -----

  /** A document that is not a Markdown file is in the maintained index and not in a rebuilt one. */
  lemma TextFileIsNotRebuilt(yaml: Yaml, json: Json, now: string, entries: seq<IndexEntry>)
    requires JsonReadsBack(json)
    requires Rebuilds(yaml, RunStore(yaml, json, map[], [OpSave(KnowledgeEntry("a.txt", DEFAULT_META, "", 0), now)]),
                      entries)
    ensures
      var files := RunStore(yaml, json, map[], [OpSave(KnowledgeEntry("a.txt", DEFAULT_META, "", 0), now)]);
      Lines(entries) != Lines(LoadIndex(json, files).entries)
  {
    var entry := KnowledgeEntry("a.txt", DEFAULT_META, "", 0);
    var ops := [OpSave(entry, now)];
    assert ops[1..] == [] && RunMemory(map[], ops) == RunMemory(map["a.txt" := entry], []) == map["a.txt" := entry];
    assert !EndsWith("a.txt", ".md") by {
      assert "a.txt"[2..] == "txt";
    }
    RebuildAgreesIff(yaml, json, ops, entries);
    assert !SameLine(yaml, RunMemory(map[], ops), "a.txt");
  }

  /** An index that was cached while the bank was empty is stale after the first save. */
  lemma CacheOfEmptyBankIsStale(yaml: Yaml, json: Json, entry: KnowledgeEntry, now: string)
    requires JsonReadsBack(json)
    requires entry.path != INDEX_PATH && Annotated(IndexEntryOf(entry))
    ensures
      var files := RunStore(yaml, json, map[], []);
      Lines(LoadIndex(json, files).entries)
      != Lines(LoadIndex(json, RunStore(yaml, json, files, [OpSave(entry, now)])).entries)
  {
    var later := [OpSave(entry, now)];
    CacheStaysFreshIff(yaml, json, [], later);
    assert later[1..] == [] && LastOp([], entry.path) == None;
    assert LastOp(later, entry.path) == Some(later[0]);
    assert !KeptAt([], later, entry.path);
  }
}
