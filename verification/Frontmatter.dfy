/** memory_bank/frontmatter.py: the YAML header of a knowledge document. */
module Frontmatter {
  import opened Wrappers
  import opened Text

  /** A value in a YAML mapping. `Other` is anything that is neither a string nor a list: `items` is what
      iterating over it yields, if it can be iterated at all. */
  datatype Value =
    | Str(s: string)
    | List(elements: seq<Value>)
    | Other(text: string, items: Option<seq<Value>>)

  /** What `yaml.safe_load` returns for a text. */
  datatype YamlDocument = Mapping(data: map<string, Value>) | Falsy | NotAMapping | YamlError

  /** The YAML library: parser, printer, and `str()` of a value. */
  datatype Yaml = Yaml(
    load: string -> YamlDocument,
    dump: map<string, Value> -> string,
    show: Value -> string
  )

  datatype DocumentMeta = DocumentMeta(
    kind: Value,
    tags: seq<Value>,
    importance: Value,
    created: string,
    updated: string,
    related: seq<Value>,
    custom: map<string, Value>
  )

  /** The result of parsing; `NotIterable` is the exception that a scalar under `tags` or `related` raises. */
  datatype ParseResult = Parsed(meta: Option<DocumentMeta>, body: string) | NotIterable

  const DASHES := "---"
  const KNOWN_KEYS := {"kind", "tags", "importance", "created", "updated", "related"}

  function Get(data: map<string, Value>, key: string, default: Value): Value {
    if key in data then data[key] else default
  }

  function Chars(s: string): seq<Value> {
    seq(|s|, i requires 0 <= i < |s| => Str([s[i]]))
  }

  /** `tuple(value)` */
  function Iterate(value: Value): Option<seq<Value>> {
    match value
    case Str(s) => Some(Chars(s))
    case List(elements) => Some(elements)
    case Other(_, items) => items
  }

  function MetaFromData(yaml: Yaml, data: map<string, Value>): Option<DocumentMeta> {
    var tags := Iterate(Get(data, "tags", List([])));
    var related := Iterate(Get(data, "related", List([])));
    if tags.None? || related.None? then None
    else
      Some(DocumentMeta(
             Get(data, "kind", Str("note")),
             tags.value,
             Get(data, "importance", Str("medium")),
             yaml.show(Get(data, "created", Str(""))),
             yaml.show(Get(data, "updated", Str(""))),
             related.value,
             data - KNOWN_KEYS))
  }

  function ParseFrontmatter(yaml: Yaml, text: string): ParseResult {
    if !(DASHES <= text) then Parsed(None, text)
    else
      match Find(text, DASHES, 3)
      case NotFound => Parsed(None, text)
      case At(end) =>
        var body := Strip(text[end + 3..]);
        match yaml.load(Strip(text[3..end]))
        case YamlError => Parsed(None, text)
        case NotAMapping => Parsed(None, text)
        case Falsy => FromMeta(MetaFromData(yaml, map[]), body)
        case Mapping(data) => FromMeta(MetaFromData(yaml, data), body)
  }

  function FromMeta(meta: Option<DocumentMeta>, body: string): ParseResult {
    if meta.None? then NotIterable else Parsed(meta, body)
  }

  /** The known keys that are printed: defaults are left out. */
  function KnownData(meta: DocumentMeta): map<string, Value> {
    var data := map["kind" := meta.kind];
    var data := if meta.tags != [] then data["tags" := List(meta.tags)] else data;
    var data := if meta.importance != Str("medium") then data["importance" := meta.importance] else data;
    var data := if meta.created != "" then data["created" := Str(meta.created)] else data;
    var data := if meta.updated != "" then data["updated" := Str(meta.updated)] else data;
    if meta.related != [] then data["related" := List(meta.related)] else data
  }

  /** The mapping that is printed: custom keys come last and win. */
  function RenderData(meta: DocumentMeta): map<string, Value> {
    KnownData(meta) + meta.custom
  }

  function Header(yaml: Yaml, meta: DocumentMeta): string {
    Strip(yaml.dump(RenderData(meta)))
  }

  function RenderFrontmatter(yaml: Yaml, meta: DocumentMeta, body: string): string {
    "---\n" + Header(yaml, meta) + "\n---\n\n" + body
  }

  /** The library reads back the header of this document, and `str()` of a string is the string. */
  ghost predicate ReadsBack(yaml: Yaml, meta: DocumentMeta) {
    && yaml.load(Header(yaml, meta)) == Mapping(RenderData(meta))
    && forall s :: yaml.show(Str(s)) == s
  }

  // ----- round trip -----

  /** Parsing finds the closing dashes that rendering wrote, unless the header has dashes of its own. */
  lemma ClosingDashes(header: string, body: string)
    ensures
      var text := "---\n" + header + "\n---\n\n" + body;
      if Contains(header, DASHES)
      then Find(text, DASHES, 3).At? && Find(text, DASHES, 3).index + 3 <= 4 + |header|
      else Find(text, DASHES, 3) == At(5 + |header|)
  {
    var text := "---\n" + header + "\n---\n\n" + body;
    var n := |header|;
    assert text[4..4 + n] == header;
    assert OccursAt(text, DASHES, 5 + n) by {
      assert text[5 + n..8 + n] == DASHES;
    }
    assert text[3] == '\n' && text[4 + n] == '\n';
    if Contains(header, DASHES) {
      var i: nat :| i <= n && OccursAt(header, DASHES, i);
      assert text[i + 4..i + 7] == header[i..i + 3];
      assert OccursAt(text, DASHES, i + 4);
    } else {
      NoDashesBefore(header, body);
    }
  }

  lemma NoDashesBefore(header: string, body: string)
    requires !Contains(header, DASHES)
    ensures forall p: nat :: 3 <= p < 5 + |header| ==> !OccursAt("---\n" + header + "\n---\n\n" + body, DASHES, p)
  {
    var n := |header|;
    var text := "---\n" + header + "\n---\n\n" + body;
    assert text[3] == '\n' && text[4 + n] == '\n';
    forall p: nat | 3 <= p < 5 + n ensures !OccursAt(text, DASHES, p) {
      if OccursAt(text, DASHES, p) {
        var dashes := text[p..p + 3];
        assert text[p] == dashes[0] && text[p + 1] == dashes[1] && text[p + 2] == dashes[2];
        assert p != 3 && p + 3 <= 4 + n;
        assert header[p - 4..p - 1] == text[p..p + 3];
        assert OccursAt(header, DASHES, p - 4);
      }
    }
  }

  lemma ClosingDashesAfter(header: string, body: string)
    requires !Contains(header + "--", DASHES)
    ensures
      var text := "---" + header + "---" + body;
      && DASHES <= text && Find(text, DASHES, 3) == At(3 + |header|)
      && text[3..3 + |header|] == header && text[6 + |header|..] == body
  {
    var text := "---" + header + "---" + body;
    var n := |header|;
    assert OccursAt(text, DASHES, 3 + n) by {
      assert text[3 + n..6 + n] == DASHES;
    }
    forall p: nat | 3 <= p < 3 + n ensures !OccursAt(text, DASHES, p) {
      if OccursAt(text, DASHES, p) {
        EarlierDashes(header, body, p);
      }
    }
  }

  lemma EarlierDashes(header: string, body: string, p: nat)
    requires 3 <= p < 3 + |header| && OccursAt("---" + header + "---" + body, DASHES, p)
    ensures Contains(header + "--", DASHES)
  {
    var text := "---" + header + "---" + body;
    assert (header + "--")[p - 3..p] == text[p..p + 3];
    assert OccursAt(header + "--", DASHES, p - 3);
  }

  /** What becomes of any document, also one that was not rendered here: without an opening and a closing
      `---`, or with something between them that is no mapping, it is all body, unchanged. */
  lemma ForeignDocument(yaml: Yaml, header: string, body: string)
    requires !Contains(header + "--", DASHES)
    ensures
      var result := ParseFrontmatter(yaml, "---" + header + "---" + body);
      match yaml.load(Strip(header))
      case Mapping(data) =>
        (result.NotIterable? <==> MetaFromData(yaml, data).None?)
        && (result.Parsed? ==> result == Parsed(MetaFromData(yaml, data), Strip(body)))
      case Falsy =>
        result == Parsed(Some(DocumentMeta(Str("note"), [], Str("medium"), yaml.show(Str("")), yaml.show(Str("")),
                                           [], map[])), Strip(body))
      case _ => result == Parsed(None, "---" + header + "---" + body)
  {
    ClosingDashesAfter(header, body);
    var none: map<string, Value> := map[];
    assert none - KNOWN_KEYS == none;
  }

  lemma HeaderlessDocument(yaml: Yaml, text: string)
    requires !(DASHES <= text) || !Contains(text[3..], DASHES)
    ensures ParseFrontmatter(yaml, text) == Parsed(None, text)
  {
    if DASHES <= text && Find(text, DASHES, 3).At? {
      var i := Find(text, DASHES, 3).index;
      assert text[i..i + 3] == text[3..][i - 3..i];
      assert OccursAt(text[3..], DASHES, i - 3);
    }
  }

  /** A key is omitted exactly if it has its default, and it reads back as that. */
  lemma KnownDataLookups(meta: DocumentMeta)
    ensures var data := KnownData(meta);
            && "kind" in data
            && ("tags" in data <==> meta.tags != []) && ("related" in data <==> meta.related != [])
            && ("importance" in data <==> meta.importance != Str("medium"))
            && ("created" in data <==> meta.created != "") && ("updated" in data <==> meta.updated != "")
    ensures var data := KnownData(meta);
            && data.Keys <= KNOWN_KEYS
            && Get(data, "kind", Str("note")) == meta.kind
            && Get(data, "tags", List([])) == List(meta.tags)
            && Get(data, "importance", Str("medium")) == meta.importance
            && Get(data, "created", Str("")) == Str(meta.created)
            && Get(data, "updated", Str("")) == Str(meta.updated)
            && Get(data, "related", List([])) == List(meta.related)
  {
  }

  lemma CustomDoesNotHide(known: map<string, Value>, custom: map<string, Value>, key: string, default: Value)
    requires key !in custom
    ensures Get(known + custom, key, default) == Get(known, key, default)
  {
  }

  /** The mapping that rendering prints determines the metadata, unless a custom key hides a known one. */
  lemma RenderDataInverse(yaml: Yaml, meta: DocumentMeta)
    requires forall s :: yaml.show(Str(s)) == s
    ensures MetaFromData(yaml, RenderData(meta)) == Some(meta) <==> meta.custom.Keys !! KNOWN_KEYS
  {
    var known, custom := KnownData(meta), meta.custom;
    KnownDataLookups(meta);
    if custom.Keys !! KNOWN_KEYS {
      CustomDoesNotHide(known, custom, "kind", Str("note"));
      CustomDoesNotHide(known, custom, "tags", List([]));
      CustomDoesNotHide(known, custom, "importance", Str("medium"));
      CustomDoesNotHide(known, custom, "created", Str(""));
      CustomDoesNotHide(known, custom, "updated", Str(""));
      CustomDoesNotHide(known, custom, "related", List([]));
      assert RenderData(meta) - KNOWN_KEYS == custom;
    } else {
      var key :| key in custom && key in KNOWN_KEYS;
      assert key !in RenderData(meta) - KNOWN_KEYS;
    }
  }

  /** A header without dashes is handed to the YAML parser as it was printed. */
  lemma ParseOfRendered(yaml: Yaml, meta: DocumentMeta, body: string)
    requires ReadsBack(yaml, meta)
    requires !Contains(Header(yaml, meta), DASHES)
    ensures ParseFrontmatter(yaml, RenderFrontmatter(yaml, meta, body))
         == FromMeta(MetaFromData(yaml, RenderData(meta)), Strip(body))
  {
    var header := Header(yaml, meta);
    var n := |header|;
    var text := RenderFrontmatter(yaml, meta, body);
    ClosingDashes(header, body);
    assert DASHES <= text && text == "---\n" + header + "\n---\n\n" + body;
    assert text[3..5 + n] == "\n" + header + "\n";
    assert text[8 + n..] == "\n\n" + body;
    HeaderStripped(yaml, meta);
    StripBlankLine(body);
  }

  /** A header with dashes is cut short, and the rest of it ends up in the body. */
  lemma CutHeaderSpills(header: string, body: string)
    requires Contains(header, DASHES)
    ensures
      var text := "---\n" + header + "\n---\n\n" + body;
      && DASHES <= text
      && Find(text, DASHES, 3).At?
      && |Strip(text[Find(text, DASHES, 3).index + 3..])| > |Strip(body)|
      && |text| > |Strip(body)|
  {
    var n := |header|;
    var text := "---\n" + header + "\n---\n\n" + body;
    ClosingDashes(header, body);
    var end := Find(text, DASHES, 3).index;
    var front := text[end + 3..8 + n];
    assert text[end + 3..] == front + ("\n\n" + body);
    assert text[7 + n] == '-' && front[|front| - 1] == '-';
    StripGrows(front, "\n\n" + body);
    StripBlankLine(body);
    var l, t := StripParts(body);
  }

  lemma ParseOfRenderedDashes(yaml: Yaml, meta: DocumentMeta, body: string)
    requires Contains(Header(yaml, meta), DASHES)
    ensures
      var result := ParseFrontmatter(yaml, RenderFrontmatter(yaml, meta, body));
      result.Parsed? ==> result.body != Strip(body)
  {
    CutHeaderSpills(Header(yaml, meta), body);
  }

  /** Parsing a rendered document gives back its metadata and its stripped body exactly when the header
      text has no `---` in it and no custom key is one of the known keys. */
  lemma RoundTripIff(yaml: Yaml, meta: DocumentMeta, body: string)
    requires ReadsBack(yaml, meta)
    ensures ParseFrontmatter(yaml, RenderFrontmatter(yaml, meta, body)) == Parsed(Some(meta), Strip(body))
       <==> !Contains(Header(yaml, meta), DASHES) && meta.custom.Keys !! KNOWN_KEYS
  {
    if Contains(Header(yaml, meta), DASHES) {
      ParseOfRenderedDashes(yaml, meta, body);
    } else {
      ParseOfRendered(yaml, meta, body);
      RenderDataInverse(yaml, meta);
    }
  }

  lemma HeaderStripped(yaml: Yaml, meta: DocumentMeta)
    ensures Strip("\n" + Header(yaml, meta) + "\n") == Header(yaml, meta)
  {
    var l, t := StripParts(yaml.dump(RenderData(meta)));
    StripUnique("\n", Header(yaml, meta), "\n");
  }

  lemma StripBlankLine(body: string)
    ensures Strip("\n\n" + body) == Strip(body)
  {
    StripIgnoresMargins("\n\n", body, "");
    assert "\n\n" + body + "" == "\n\n" + body;
  }

  /** A custom key that has the name of a known one comes back as that one. */
  lemma HiddenKeyIsLost(yaml: Yaml, body: string)
    requires ReadsBack(yaml, DocumentMeta(Str("note"), [], Str("medium"), "", "", [], map["kind" := Str("plan")]))
    ensures
      var meta := DocumentMeta(Str("note"), [], Str("medium"), "", "", [], map["kind" := Str("plan")]);
      ParseFrontmatter(yaml, RenderFrontmatter(yaml, meta, body)) != Parsed(Some(meta), Strip(body))
  {
    var meta := DocumentMeta(Str("note"), [], Str("medium"), "", "", [], map["kind" := Str("plan")]);
    assert "kind" in meta.custom.Keys && "kind" in KNOWN_KEYS;
    RoundTripIff(yaml, meta, body);
  }
}
