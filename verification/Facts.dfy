/** The facts of memory/sqlite.py (upsert guard and scoped overlay, with memory/_shared.py) against those of
    memory/inmemory.py. */
module Facts {
  import opened Wrappers

  /** One write; `topic` is none for a global fact. */
  datatype Write = Write(user: string, topic: Option<string>, key: string, value: string, source: string)

  /** What a fact is stored under: user, topic, key. */
  type CellKey = (string, Option<string>, string)

  datatype Cell = Cell(value: string, source: string)

  type Table = map<CellKey, Cell>

  function KeyOf(w: Write): CellKey {
    (w.user, w.topic, w.key)
  }

  function Priority(source: string): nat {
    if source == "user" then 3
    else if source == "ai_inferred" then 2
    else if source == "mcp" then 1
    else 0
  }

  /** The upsert: an existing cell is kept if its source ranks higher than the incoming one. */
  function Upsert(table: Table, w: Write): Table {
    if KeyOf(w) in table && Priority(table[KeyOf(w)].source) > Priority(w.source) then table
    else table[KeyOf(w) := Cell(w.value, w.source)]
  }

  function TableAfter(ws: seq<Write>): Table {
    if ws == [] then map[] else Upsert(TableAfter(ws[..|ws| - 1]), ws[|ws| - 1])
  }

  /** The in-memory provider: a dictionary of facts for each user and topic; the source is ignored. */
  type Memory = map<(string, Option<string>), map<string, string>>

  function FactsAt(memory: Memory, user: string, topic: Option<string>): map<string, string> {
    if (user, topic) in memory then memory[(user, topic)] else map[]
  }

  function Remember(memory: Memory, w: Write): Memory {
    memory[(w.user, w.topic) := FactsAt(memory, w.user, w.topic)[w.key := w.value]]
  }

  function MemoryAfter(ws: seq<Write>): Memory {
    if ws == [] then map[] else Remember(MemoryAfter(ws[..|ws| - 1]), ws[|ws| - 1])
  }

  // ----- reading -----

  /** A row of the query result. */
  datatype Row = Row(topic: Option<string>, key: string, value: string)

  function OfScope(rows: seq<Row>, global: bool): seq<Row> {
    if rows == [] then []
    else if rows[0].topic.None? == global then [rows[0]] + OfScope(rows[1..], global)
    else OfScope(rows[1..], global)
  }

  function Assign(merged: map<string, string>, rows: seq<Row>): map<string, string>
    decreases |rows|
  {
    if rows == [] then merged else Assign(merged[rows[0].key := rows[0].value], rows[1..])
  }

  lemma {:induction false} OfScopeConcat(a: seq<Row>, b: seq<Row>, global: bool)
    ensures OfScope(a + b, global) == OfScope(a, global) + OfScope(b, global)
  {
    if a == [] {
      assert a + b == b;
    } else {
      assert (a + b)[1..] == a[1..] + b;
      OfScopeConcat(a[1..], b, global);
    }
  }

  method SelectScope(rows: seq<Row>, global: bool) returns (selected: seq<Row>)
    ensures selected == OfScope(rows, global)
  {
    selected := [];
    for i := 0 to |rows|
      invariant selected == OfScope(rows[..i], global)
    {
      assert rows[..i + 1] == rows[..i] + [rows[i]];
      OfScopeConcat(rows[..i], [rows[i]], global);
      if rows[i].topic.None? == global {
        selected := selected + [rows[i]];
      }
    }
    assert rows[..|rows|] == rows;
  }

  /** A later row overwrites an earlier one with the same key. */
  method AssignRows(rows: seq<Row>) returns (merged: map<string, string>)
    ensures merged == Assign(map[], rows)
  {
    merged := map[];
    for i := 0 to |rows|
      invariant Assign(merged, rows[i..]) == Assign(map[], rows)
    {
      merged := merged[rows[i].key := rows[i].value];
    }
  }

  method MergeScopedFacts(rows: seq<Row>) returns (merged: map<string, string>)
    ensures merged == Assign(map[], OfScope(rows, true) + OfScope(rows, false))
  {
    var globalRows := SelectScope(rows, true);
    var topicRows := SelectScope(rows, false);
    merged := AssignRows(globalRows + topicRows);
  }

  /** A topic that is given and not empty. */
  predicate Scoped(topic: Option<string>) {
    topic.Some? && topic.value != ""
  }

  /** A store as its readers use it: the value in a cell, if there is one. */
  type Lookup = CellKey -> Option<string>

  function InTable(table: Table): Lookup {
    (c: CellKey) => if c in table then Some(table[c].value) else None
  }

  function InMemory(memory: Memory): Lookup {
    (c: CellKey) => var facts := FactsAt(memory, c.0, c.1); if c.2 in facts then Some(facts[c.2]) else None
  }

  /** What a reader of this scope sees under a key, by cell lookup alone. */
  function Seen(cells: Lookup, user: string, topic: Option<string>, key: string): Option<string> {
    if Scoped(topic) && cells((user, topic, key)).Some? then cells((user, topic, key)) else cells((user, None, key))
  }

  function Value(facts: map<string, string>, key: string): Option<string> {
    if key in facts then Some(facts[key]) else None
  }

  ghost predicate Shows(facts: map<string, string>, cells: Lookup, user: string, topic: Option<string>) {
    forall key :: Value(facts, key) == Seen(cells, user, topic, key)
  }

  /** The rows that the query selects, each once, in any order. */
  ghost predicate Selects(rows: seq<Row>, table: Table, user: string, topic: Option<string>) {
    && (forall r :: r in rows ==>
          && (r.topic == None || (Scoped(topic) && r.topic == topic))
          && (user, r.topic, r.key) in table && table[(user, r.topic, r.key)].value == r.value)
    && (forall key :: (user, None, key) in table ==> Row(None, key, table[(user, None, key)].value) in rows)
    && (Scoped(topic) ==>
          forall key :: (user, topic, key) in table ==> Row(topic, key, table[(user, topic, key)].value) in rows)
  }

  class SQLiteFacts {
    var table: Table

    constructor ()
      ensures table == map[]
    {
      table := map[];
    }

    method UpsertFact(w: Write)
      modifies this
      ensures table == Upsert(old(table), w)
    {
      if KeyOf(w) !in table {
        table := table[KeyOf(w) := Cell(w.value, w.source)];
      } else if Priority(table[KeyOf(w)].source) <= Priority(w.source) {
        table := table[KeyOf(w) := Cell(w.value, w.source)];
      }
    }

    /** The query, whose row order is not used. */
    method SelectRows(user: string, topic: Option<string>) returns (rows: seq<Row>)
      ensures Selects(rows, table, user, topic)
    {
      rows := [];
      var rest := table.Keys;
      while rest != {}
        invariant rest <= table.Keys
        invariant forall r :: r in rows ==>
                    && (r.topic == None || (Scoped(topic) && r.topic == topic))
                    && (user, r.topic, r.key) in table && table[(user, r.topic, r.key)].value == r.value
        invariant forall c :: c in table && c !in rest && c.0 == user && (c.1 == None || (Scoped(topic) && c.1 == topic)) ==>
                    Row(c.1, c.2, table[c].value) in rows
        decreases rest
      {
        var c :| c in rest;
        rest := rest - {c};
        if c.0 == user && (c.1 == None || (Scoped(topic) && c.1 == topic)) {
          rows := rows + [Row(c.1, c.2, table[c].value)];
        }
      }
    }

    method GetFacts(user: string, topic: Option<string>) returns (facts: map<string, string>)
      ensures Shows(facts, InTable(table), user, topic)
    {
      var rows := SelectRows(user, topic);
      MergeShowsOverlay(rows, table, user, topic);
      if !Scoped(topic) {
        AllGlobal(rows);
        assert OfScope(rows, true) + OfScope(rows, false) == rows;
        facts := AssignRows(rows);
      } else {
        facts := MergeScopedFacts(rows);
      }
    }
  }

  class InMemoryFacts {
    var memory: Memory

    constructor ()
      ensures memory == map[]
    {
      memory := map[];
    }

    method UpsertFact(w: Write)
      modifies this
      ensures memory == Remember(old(memory), w)
    {
      memory := memory[(w.user, w.topic) := FactsAt(memory, w.user, w.topic)[w.key := w.value]];
    }

    method GetFacts(user: string, topic: Option<string>) returns (facts: map<string, string>)
      ensures Shows(facts, InMemory(memory), user, topic)
    {
      facts := FactsAt(memory, user, None);
      if Scoped(topic) {
        facts := facts + FactsAt(memory, user, topic);
      }
    }
  }

  // ----- the overlay does not depend on the order of rows -----

  lemma {:induction false} AssignKnown(merged: map<string, string>, rows: seq<Row>, key: string, value: string)
    requires forall r :: r in rows && r.key == key ==> r.value == value
    ensures (exists r :: r in rows && r.key == key) ==>
              key in Assign(merged, rows) && Assign(merged, rows)[key] == value
    ensures !(exists r :: r in rows && r.key == key) ==>
              && (key in Assign(merged, rows) <==> key in merged)
              && (key in merged ==> Assign(merged, rows)[key] == merged[key])
    decreases |rows|
  {
    if rows != [] {
      var next := merged[rows[0].key := rows[0].value];
      assert rows == [rows[0]] + rows[1..];
      AssignKnown(next, rows[1..], key, value);
    }
  }

  lemma {:induction false} AssignConcat(merged: map<string, string>, a: seq<Row>, b: seq<Row>)
    ensures Assign(merged, a + b) == Assign(Assign(merged, a), b)
    decreases |a|
  {
    if a == [] {
      assert a + b == b;
    } else {
      assert (a + b)[1..] == a[1..] + b;
      AssignConcat(merged[a[0].key := a[0].value], a[1..], b);
    }
  }

  lemma {:induction false} OfScopeMembers(rows: seq<Row>, global: bool)
    ensures forall r :: r in OfScope(rows, global) <==> r in rows && r.topic.None? == global
  {
    if rows != [] {
      assert rows == [rows[0]] + rows[1..];
      OfScopeMembers(rows[1..], global);
    }
  }

  /** Without a topic the query selects global rows only. */
  lemma {:induction false} AllGlobal(rows: seq<Row>)
    requires forall r :: r in rows ==> r.topic == None
    ensures OfScope(rows, true) == rows && OfScope(rows, false) == []
  {
    if rows != [] {
      assert rows[0] in rows;
      AllGlobal(rows[1..]);
    }
  }

  lemma MergeShowsKey(rows: seq<Row>, table: Table, user: string, topic: Option<string>, key: string)
    requires Selects(rows, table, user, topic)
    ensures var facts := Assign(map[], OfScope(rows, true) + OfScope(rows, false));
            Value(facts, key) == Seen(InTable(table), user, topic, key)
  {
    var globals, scoped := OfScope(rows, true), OfScope(rows, false);
    OfScopeMembers(rows, true);
    OfScopeMembers(rows, false);
    AssignConcat(map[], globals, scoped);
    var g, t := (user, None, key), (user, topic, key);
    AssignKnown(map[], globals, key, if g in table then table[g].value else "");
    AssignKnown(Assign(map[], globals), scoped, key, if t in table then table[t].value else "");
    if g in table {
      assert Row(None, key, table[g].value) in globals;
    }
    if Scoped(topic) && t in table {
      assert Row(topic, key, table[t].value) in scoped;
    }
  }

  /** However the rows are ordered, the merged facts are the overlay of the topic on the global facts. */
  lemma MergeShowsOverlay(rows: seq<Row>, table: Table, user: string, topic: Option<string>)
    requires Selects(rows, table, user, topic)
    ensures Shows(Assign(map[], OfScope(rows, true) + OfScope(rows, false)), InTable(table), user, topic)
  {
    forall key
      ensures var facts := Assign(map[], OfScope(rows, true) + OfScope(rows, false));
              Value(facts, key) == Seen(InTable(table), user, topic, key)
    {
      MergeShowsKey(rows, table, user, topic, key);
    }
  }

  // ----- histories -----

  /** The last write to a cell, or the number of writes if there is none. */
  function LastWrite(ws: seq<Write>, c: CellKey): (i: nat)
    ensures i <= |ws|
    ensures i < |ws| ==> KeyOf(ws[i]) == c
    ensures forall j :: i < j < |ws| ==> KeyOf(ws[j]) != c
    ensures i == |ws| ==> forall j :: 0 <= j < |ws| ==> KeyOf(ws[j]) != c
  {
    if ws == [] then 0
    else if KeyOf(ws[|ws| - 1]) == c then |ws| - 1
    else
      var i := LastWrite(ws[..|ws| - 1], c);
      if i == |ws| - 1 then |ws| else i
  }

  /** Write `i` is the last one of the highest priority among the writes to its cell. */
  predicate IsWinner(ws: seq<Write>, c: CellKey, i: nat) {
    && i < |ws| && KeyOf(ws[i]) == c
    && (forall j :: 0 <= j < |ws| && KeyOf(ws[j]) == c ==> Priority(ws[j].source) <= Priority(ws[i].source))
    && (forall j :: i < j < |ws| && KeyOf(ws[j]) == c ==> Priority(ws[j].source) < Priority(ws[i].source))
  }

  /** A write that is weaker, or to another cell, leaves the winner in place. */
  lemma WinnerStays(ws: seq<Write>, w: Write, c: CellKey, i: nat)
    requires IsWinner(ws, c, i)
    requires KeyOf(w) != c || Priority(w.source) < Priority(ws[i].source)
    ensures IsWinner(ws + [w], c, i)
  {
  }

  /** A write that is no weaker than any write to its cell wins. */
  lemma WinnerChanges(ws: seq<Write>, w: Write)
    requires forall j :: 0 <= j < |ws| && KeyOf(ws[j]) == KeyOf(w) ==> Priority(ws[j].source) <= Priority(w.source)
    ensures IsWinner(ws + [w], KeyOf(w), |ws|)
  {
    assert forall j :: 0 <= j < |ws| ==> (ws + [w])[j] == ws[j];
  }

  /** After any history, a cell is there exactly if it was written, and it holds the value and the source of
      the last write of the highest priority. */
  lemma {:induction false} CellHoldsWinner(ws: seq<Write>, c: CellKey) returns (i: nat)
    ensures c in TableAfter(ws) <==> LastWrite(ws, c) < |ws|
    ensures c in TableAfter(ws) ==> IsWinner(ws, c, i) && TableAfter(ws)[c] == Cell(ws[i].value, ws[i].source)
  {
    i := 0;
    if ws != [] {
      var init, w := ws[..|ws| - 1], ws[|ws| - 1];
      assert ws == init + [w];
      i := CellHoldsWinner(init, c);
      if KeyOf(w) == c && (c in TableAfter(init) ==> Priority(init[i].source) <= Priority(w.source)) {
        WinnerChanges(init, w);
        i := |init|;
      } else if c in TableAfter(init) {
        WinnerStays(init, w, c, i);
      }
    }
  }

  /** A cell of the in-memory provider holds the last write. */
  lemma {:induction false} MemoryHoldsLast(ws: seq<Write>, c: CellKey)
    ensures c.2 in FactsAt(MemoryAfter(ws), c.0, c.1) <==> LastWrite(ws, c) < |ws|
    ensures LastWrite(ws, c) < |ws| ==> FactsAt(MemoryAfter(ws), c.0, c.1)[c.2] == ws[LastWrite(ws, c)].value
  {
    if ws != [] {
      MemoryHoldsLast(ws[..|ws| - 1], c);
    }
  }

  /** Some reader can see the cell; a fact under an empty topic is stored but never shown. */
  predicate Readable(c: CellKey) {
    c.1 == None || Scoped(c.1)
  }

  /** The last write to each readable cell has the highest priority of all writes to it. */
  predicate LastIsStrongest(ws: seq<Write>) {
    forall i, j :: 0 <= i < j < |ws| && KeyOf(ws[i]) == KeyOf(ws[j]) && Readable(KeyOf(ws[i]))
                   && LastWrite(ws, KeyOf(ws[i])) == j ==>
      Priority(ws[i].source) <= Priority(ws[j].source)
  }

  /** The writes can be told apart by what they wrote. */
  predicate DistinctValues(ws: seq<Write>) {
    forall i, j :: 0 <= i < j < |ws| ==> ws[i].value != ws[j].value
  }

  /** The two providers hold the value of the same write in a cell exactly when the last write to the cell is
      of the highest priority. */
  lemma SameWriteIff(ws: seq<Write>, c: CellKey, i: nat)
    requires IsWinner(ws, c, i)
    ensures i == LastWrite(ws, c)
       <==> forall j :: 0 <= j < |ws| && KeyOf(ws[j]) == c ==>
              Priority(ws[j].source) <= Priority(ws[LastWrite(ws, c)].source)
  {
    assert KeyOf(ws[i]) == c;
  }

  /** Of two writes to one cell the first one survives exactly when its source outranks that of the second:
      a user outranks everything else, inference everything but a user, and a tool every unknown source. */
  lemma FirstWriteSurvivesIff(first: Write, second: Write)
    requires KeyOf(first) == KeyOf(second) && first.value != second.value
    ensures
      var cell := TableAfter([first, second])[KeyOf(first)];
      && cell in {Cell(first.value, first.source), Cell(second.value, second.source)}
      && (cell.value == first.value <==>
            match first.source
            case "user" => second.source != "user"
            case "ai_inferred" => second.source !in {"user", "ai_inferred"}
            case "mcp" => second.source !in {"user", "ai_inferred", "mcp"}
            case _ => false)
  {
    var ws := [first, second];
    assert ws[..1] == [first] && [first][..0] == [];
    assert TableAfter([first]) == map[KeyOf(first) := Cell(first.value, first.source)];
  }

  /** A reader with a nonempty topic sees the facts of the topic and, where it has none, the global ones; any
      other reader sees the global ones. */
  lemma SeenIsOverlay(cells: Lookup, user: string, topic: string, key: string)
    ensures Seen(cells, user, None, key) == Seen(cells, user, Some(""), key) == cells((user, None, key))
    ensures topic != "" ==>
              Seen(cells, user, Some(topic), key)
              == match cells((user, Some(topic), key))
                 case Some(value) => Some(value)
                 case None => cells((user, None, key))
  {
  }

  /** Both providers show the same facts to every reader after a history in which no write is followed by a
      weaker last write to its cell; in particular when all writes have the same priority. */
  lemma ProvidersAgree(ws: seq<Write>, user: string, topic: Option<string>, key: string)
    requires LastIsStrongest(ws)
    ensures Seen(InTable(TableAfter(ws)), user, topic, key) == Seen(InMemory(MemoryAfter(ws)), user, topic, key)
  {
    if Scoped(topic) {
      CellsAgree(ws, (user, topic, key));
    }
    CellsAgree(ws, (user, None, key));
  }

  lemma CellsAgree(ws: seq<Write>, c: CellKey)
    requires LastIsStrongest(ws) && Readable(c)
    ensures InTable(TableAfter(ws))(c) == InMemory(MemoryAfter(ws))(c)
  {
    MemoryHoldsLast(ws, c);
    var i := CellHoldsWinner(ws, c);
    if c in TableAfter(ws) {
      SameWriteIff(ws, c, i);
    }
  }

  /** A readable cell whose last write is weaker than an earlier one shows different writes. */
  lemma WeakerLastWriteShows(ws: seq<Write>, i: nat, j: nat)
    requires DistinctValues(ws)
    requires i < j < |ws| && KeyOf(ws[i]) == KeyOf(ws[j]) && Readable(KeyOf(ws[i]))
    requires LastWrite(ws, KeyOf(ws[i])) == j && Priority(ws[i].source) > Priority(ws[j].source)
    ensures
      var c := KeyOf(ws[i]);
      Seen(InTable(TableAfter(ws)), c.0, c.1, c.2) != Seen(InMemory(MemoryAfter(ws)), c.0, c.1, c.2)
  {
    var c := KeyOf(ws[i]);
    MemoryHoldsLast(ws, c);
    var k := CellHoldsWinner(ws, c);
    assert k != j;
    assert InTable(TableAfter(ws))(c) == Some(ws[k].value);
    assert InMemory(MemoryAfter(ws))(c) == Some(ws[j].value);
  }

  /** Both providers show the same facts to every reader exactly when the last write to every cell that can
      be read is of the highest priority, provided that the values tell the writes apart. */
  lemma ProvidersAgreeIff(ws: seq<Write>)
    requires DistinctValues(ws)
    ensures (forall user, topic, key ::
               Seen(InTable(TableAfter(ws)), user, topic, key) == Seen(InMemory(MemoryAfter(ws)), user, topic, key))
       <==> LastIsStrongest(ws)
  {
    if LastIsStrongest(ws) {
      forall user, topic, key
        ensures Seen(InTable(TableAfter(ws)), user, topic, key) == Seen(InMemory(MemoryAfter(ws)), user, topic, key)
      {
        ProvidersAgree(ws, user, topic, key);
      }
    } else {
      var i: nat, j: nat :| i < j < |ws| && KeyOf(ws[i]) == KeyOf(ws[j]) && Readable(KeyOf(ws[i]))
                  && LastWrite(ws, KeyOf(ws[i])) == j && Priority(ws[i].source) > Priority(ws[j].source);
      WeakerLastWriteShows(ws, i, j);
    }
  }

  /** A weaker write after a stronger one is lost in the guarded store and wins in the other. */
  lemma WeakerLastWriteDiffers(user: string, key: string)
    ensures
      var ws := [Write(user, None, key, "a", "user"), Write(user, None, key, "b", "mcp")];
      && !LastIsStrongest(ws)
      && Seen(InTable(TableAfter(ws)), user, None, key) == Some("a")
      && Seen(InMemory(MemoryAfter(ws)), user, None, key) == Some("b")
  {
    var w0, w1 := Write(user, None, key, "a", "user"), Write(user, None, key, "b", "mcp");
    var ws := [w0, w1];
    var c := (user, None, key);
    assert ws[..1] == [w0] && [w0][..0] == [];
    assert LastWrite(ws, KeyOf(ws[0])) == 1;
    assert TableAfter([w0]) == map[c := Cell("a", "user")];
    MemoryHoldsLast(ws, c);
  }
}
