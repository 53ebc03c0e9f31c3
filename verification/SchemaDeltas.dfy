/**
 Schema-delta replay: `applySchemaDeltas` of flow/activities/flowable_core.go inside the
 transaction of `ReadModifyWriteTableSchemasToCatalog` in flow/internal/postgres.go.
 */
module SchemaDeltas {
  import opened Subsequences

  datatype Column = Column(name: string, kind: string)

  /** `details` stands for the fields of a table schema that deltas do not touch. */
  datatype TableSchema = TableSchema(columns: seq<Column>, details: string)

  datatype Delta = Delta(table: string, added: seq<Column>)

  /** One mirror's rows of table_schema_mapping. */
  type Schemas = map<string, TableSchema>

  // ---- what replay means ----

  function Names(columns: seq<Column>): set<string> {
    set i | 0 <= i < |columns| :: columns[i].name
  }

  /** The columns of `added` whose name occurs neither in `existing` nor earlier in `added`. */
  function NewColumns(existing: seq<Column>, added: seq<Column>): seq<Column> {
    if added == [] then []
    else
      var before, last := added[..|added| - 1], added[|added| - 1];
      NewColumns(existing, before) + if last.name in Names(existing) + Names(before) then [] else [last]
  }

  function Extend(existing: seq<Column>, added: seq<Column>): seq<Column> {
    existing + NewColumns(existing, added)
  }

  /** Everything the deltas add to `table`, in order. */
  function AddedTo(table: string, deltas: seq<Delta>): seq<Column> {
    if deltas == [] then []
    else
      var last := deltas[|deltas| - 1];
      AddedTo(table, deltas[..|deltas| - 1]) + if last.table == table then last.added else []
  }

  function Applied(schemas: Schemas, deltas: seq<Delta>): Schemas {
    map t | t in schemas :: schemas[t].(columns := Extend(schemas[t].columns, AddedTo(t, deltas)))
  }

  // ---- the code ----

  /** The inner loop: keep the set of names seen so far and append what it lacks. */
  method AddColumns(existing: seq<Column>, added: seq<Column>) returns (columns: seq<Column>)
    ensures columns == Extend(existing, added)
  {
    columns := existing;
    var names := Names(existing);
    for i := 0 to |added|
      invariant columns == Extend(existing, added[..i])
      invariant names == Names(existing) + Names(added[..i])
    {
      var column := added[i];
      assert added[..i + 1][..i] == added[..i];
      NamesAppend(added[..i], column);
      assert added[..i + 1] == added[..i] + [column];
      if column.name !in names {
        columns := columns + [column];
        names := names + {column.name};
      }
    }
    assert added[..|added|] == added;
  }

  /** The outer loop over the schemas read from the catalog. */
  method ApplyDeltas(loaded: Schemas, deltas: seq<Delta>) returns (schemas: Schemas)
    ensures schemas == Applied(loaded, deltas)
  {
    schemas := loaded;
    OnlyMentioned(loaded, []);
    assert Applied(loaded, []) == loaded;
    for i := 0 to |deltas|
      invariant schemas == Applied(loaded, deltas[..i])
    {
      var delta := deltas[i];
      AppliedOneMore(loaded, deltas[..i], delta);
      assert deltas[..i + 1] == deltas[..i] + [delta];
      if delta.table in schemas {
        var columns := AddColumns(schemas[delta.table].columns, delta.added);
        schemas := schemas[delta.table := schemas[delta.table].(columns := columns)];
      }
    }
    assert deltas[..|deltas|] == deltas;
  }

  class Catalog {
    var schemas: Schemas

    constructor (schemas: Schemas)
      ensures this.schemas == schemas
    {
      this.schemas := schemas;
    }

    /**
     Load the mentioned tables, modify the copy, write every modified table back and
     commit. Any failure on the way (`works` false) rolls the transaction back.
     */
    method ReadModifyWrite(deltas: seq<Delta>, works: bool) returns (ok: bool)
      modifies this
      ensures ok == works
      ensures schemas == if ok then Applied(old(schemas), deltas) else old(schemas)
    {
      var loaded := Mentioned(schemas, deltas);
      var modified := ApplyDeltas(loaded, deltas);
      var written := WriteBack(schemas, modified);
      if !works {
        return false;
      }
      MentionedSuffice(schemas, deltas);
      schemas := written;
      return true;
    }
  }

  /** What the catalog query returns: the rows of the tables some delta names. */
  function Mentioned(schemas: Schemas, deltas: seq<Delta>): Schemas {
    map t | t in schemas && (exists i | 0 <= i < |deltas| :: deltas[i].table == t) :: schemas[t]
  }

  /** One update per modified table, in whatever order the map yields them. */
  method WriteBack(schemas: Schemas, modified: Schemas) returns (written: Schemas)
    requires modified.Keys <= schemas.Keys
    ensures written == schemas + modified
  {
    written := schemas;
    var left := modified.Keys;
    while left != {}
      invariant left <= modified.Keys && written.Keys == schemas.Keys
      invariant forall t <- schemas :: written[t] == if t in modified.Keys - left then modified[t] else schemas[t]
      decreases |left|
    {
      var t :| t in left;
      written, left := written[t := modified[t]], left - {t};
    }
  }

  // ---- lemmas ----

  lemma NamesAppend(columns: seq<Column>, column: Column)
    ensures Names(columns + [column]) == Names(columns) + {column.name}
  {
    var all := columns + [column];
    assert all[|columns|] == column;
    assert forall i | 0 <= i < |columns| :: all[i] == columns[i];
  }

  lemma {:induction false} NamesConcat(a: seq<Column>, b: seq<Column>)
    ensures Names(a + b) == Names(a) + Names(b)
    decreases |b|
  {
    if b == [] {
      assert a + b == a;
    } else {
      var before, last := b[..|b| - 1], b[|b| - 1];
      NamesConcat(a, before);
      assert a + b == (a + before) + [last] && b == before + [last];
      NamesAppend(a + before, last);
      NamesAppend(before, last);
    }
  }

  /** Exactly the added names become known. */
  lemma {:induction false} ExtendNames(existing: seq<Column>, added: seq<Column>)
    ensures Names(Extend(existing, added)) == Names(existing) + Names(added)
    decreases |added|
  {
    if added == [] {
      assert Extend(existing, added) == existing;
    } else {
      var before, last := added[..|added| - 1], added[|added| - 1];
      ExtendNames(existing, before);
      assert added == before + [last];
      NamesAppend(before, last);
      if last.name !in Names(existing) + Names(before) {
        assert Extend(existing, added) == Extend(existing, before) + [last];
        NamesAppend(Extend(existing, before), last);
      } else {
        assert Extend(existing, added) == Extend(existing, before);
      }
    }
  }

  /** `added[i]` is the first of its name, which `existing` does not have. */
  ghost predicate IsFirstNew(existing: seq<Column>, added: seq<Column>, i: int) {
    && 0 <= i < |added| && added[i].name !in Names(existing)
    && forall j | 0 <= j < i :: added[j].name != added[i].name
  }

  /** Told without the recursion: the first new column of each name and nothing else, in order. */
  ghost predicate AreFirstNew(existing: seq<Column>, added: seq<Column>, columns: seq<Column>) {
    && Subsequence(columns, added)
    && (forall i | IsFirstNew(existing, added, i) :: added[i] in columns)
    && (forall column <- columns :: exists i :: IsFirstNew(existing, added, i) && added[i] == column)
    && (forall i, j | 0 <= i < j < |columns| :: columns[i].name != columns[j].name)
  }

  lemma FirstNewGrows(existing: seq<Column>, added: seq<Column>, last: Column, i: int)
    ensures IsFirstNew(existing, added + [last], i) <==>
      IsFirstNew(existing, added, i) || (i == |added| && last.name !in Names(existing) + Names(added))
  {
    var all := added + [last];
    assert forall j | 0 <= j < |added| :: all[j] == added[j];
    assert all[|added|] == last;
  }

  lemma OneMoreColumn(existing: seq<Column>, added: seq<Column>, columns: seq<Column>, last: Column)
    requires AreFirstNew(existing, added, columns)
    ensures var known := last.name in Names(existing) + Names(added);
      AreFirstNew(existing, added + [last], columns + if known then [] else [last])
  {
    var all := added + [last];
    var columns' := columns + if last.name in Names(existing) + Names(added) then [] else [last];
    assert all[|added|] == last;
    SubsequenceGrows(columns, added, last);
    assert columns + [] == columns;
    forall i
      ensures IsFirstNew(existing, all, i) ==> all[i] in columns'
      ensures IsFirstNew(existing, added, i) ==> IsFirstNew(existing, all, i) && all[i] == added[i]
    {
      FirstNewGrows(existing, added, last, i);
    }
    FirstNewGrows(existing, added, last, |added|);
    forall column <- columns
      ensures column.name in Names(added) && exists i :: IsFirstNew(existing, all, i) && all[i] == column
    {
      var i :| IsFirstNew(existing, added, i) && added[i] == column;
      assert IsFirstNew(existing, all, i) && all[i] == column;
    }
  }

  lemma NewColumnsLast(existing: seq<Column>, added: seq<Column>)
    requires added != []
    ensures var before, last := added[..|added| - 1], added[|added| - 1];
      && added == before + [last]
      && NewColumns(existing, added)
           == NewColumns(existing, before) + if last.name in Names(existing) + Names(before) then [] else [last]
  {
  }

  lemma {:induction false} NewColumnsAreFirst(existing: seq<Column>, added: seq<Column>)
    ensures AreFirstNew(existing, added, NewColumns(existing, added))
    decreases |added|
  {
    if added != [] {
      var before, last := added[..|added| - 1], added[|added| - 1];
      NewColumnsAreFirst(existing, before);
      NewColumnsLast(existing, added);
      OneMoreColumn(existing, before, NewColumns(existing, before), last);
    }
  }

  /** Columns a table had stay in place, and after them come its first new ones, as its deltas list them. */
  lemma ColumnsInOrder(schemas: Schemas, deltas: seq<Delta>, t: string)
    requires t in schemas
    ensures var columns, columns' := schemas[t].columns, Applied(schemas, deltas)[t].columns;
      columns <= columns' && AreFirstNew(columns, AddedTo(t, deltas), columns'[|columns|..])
  {
    NewColumnsAreFirst(schemas[t].columns, AddedTo(t, deltas));
  }

  lemma AddedToOne(t: string, delta: Delta)
    ensures AddedTo(t, [delta]) == if delta.table == t then delta.added else []
  {
    assert [delta][..0] == [];
    assert AddedTo(t, [delta][..0]) == [];
  }

  lemma ExtendLast(existing: seq<Column>, added: seq<Column>, last: Column)
    ensures Extend(existing, added + [last])
         == Extend(existing, added) + if last.name in Names(existing) + Names(added) then [] else [last]
  {
    assert (added + [last])[..|added|] == added;
  }

  lemma {:induction false} ExtendTwice(existing: seq<Column>, a: seq<Column>, b: seq<Column>)
    ensures Extend(Extend(existing, a), b) == Extend(existing, a + b)
    decreases |b|
  {
    if b == [] {
      assert a + b == a;
    } else {
      var before, last := b[..|b| - 1], b[|b| - 1];
      ExtendTwice(existing, a, before);
      assert b == before + [last] && a + b == (a + before) + [last];
      ExtendLast(Extend(existing, a), before, last);
      ExtendLast(existing, a + before, last);
      ExtendNames(existing, a);
      NamesConcat(a, before);
    }
  }

  /** Adding columns changes nothing exactly when all their names are known. */
  lemma {:induction false} ExtendNothing(existing: seq<Column>, added: seq<Column>)
    ensures Extend(existing, added) == existing <==> Names(added) <= Names(existing)
    decreases |added|
  {
    if added != [] {
      var before, last := added[..|added| - 1], added[|added| - 1];
      ExtendNothing(existing, before);
      assert added == before + [last];
      NamesAppend(before, last);
      ExtendNames(existing, added);
    }
  }

  predicate Unique(columns: seq<Column>) {
    forall i, j | 0 <= i < j < |columns| :: columns[i].name != columns[j].name
  }

  lemma {:induction false} ExtendUnique(existing: seq<Column>, added: seq<Column>)
    requires Unique(existing)
    ensures Unique(Extend(existing, added))
    decreases |added|
  {
    if added == [] {
      assert Extend(existing, added) == existing;
    } else {
      var before, last := added[..|added| - 1], added[|added| - 1];
      ExtendUnique(existing, before);
      ExtendNames(existing, before);
      var old' := Extend(existing, before);
      assert Extend(existing, added) == old' || Extend(existing, added) == old' + [last];
      assert forall i | 0 <= i < |old'| :: old'[i].name in Names(old');
    }
  }

  lemma {:induction false} AddedToConcat(t: string, a: seq<Delta>, b: seq<Delta>)
    ensures AddedTo(t, a + b) == AddedTo(t, a) + AddedTo(t, b)
    decreases |b|
  {
    if b == [] {
      assert a + b == a;
    } else {
      assert (a + b)[..|a + b| - 1] == a + b[..|b| - 1];
      AddedToConcat(t, a, b[..|b| - 1]);
    }
  }

  lemma {:induction false} AddedToUnmentioned(t: string, deltas: seq<Delta>)
    requires forall i | 0 <= i < |deltas| :: deltas[i].table != t
    ensures AddedTo(t, deltas) == []
    decreases |deltas|
  {
    if deltas != [] {
      AddedToUnmentioned(t, deltas[..|deltas| - 1]);
    }
  }

  /** A name is added to `t` exactly when some delta for `t` carries it. */
  lemma {:induction false} AddedToNames(t: string, deltas: seq<Delta>, name: string)
    ensures name in Names(AddedTo(t, deltas)) <==>
      exists i | 0 <= i < |deltas| :: deltas[i].table == t && name in Names(deltas[i].added)
    decreases |deltas|
  {
    if deltas != [] {
      var before, last := deltas[..|deltas| - 1], deltas[|deltas| - 1];
      AddedToNames(t, before, name);
      NamesConcat(AddedTo(t, before), if last.table == t then last.added else []);
      assert forall i | 0 <= i < |before| :: deltas[i] == before[i];
    }
  }

  lemma OneMoreDelta(columns: seq<Column>, t: string, deltas: seq<Delta>, delta: Delta)
    ensures Extend(columns, AddedTo(t, deltas + [delta]))
         == if t == delta.table then Extend(Extend(columns, AddedTo(t, deltas)), delta.added)
            else Extend(columns, AddedTo(t, deltas))
  {
    assert (deltas + [delta])[..|deltas|] == deltas;
    ExtendTwice(columns, AddedTo(t, deltas), delta.added);
    assert t != delta.table ==> AddedTo(t, deltas + [delta]) == AddedTo(t, deltas);
  }

  lemma AppliedOneMore(schemas: Schemas, deltas: seq<Delta>, delta: Delta)
    ensures var now := Applied(schemas, deltas);
      Applied(schemas, deltas + [delta]) ==
        if delta.table !in now then now
        else now[delta.table := now[delta.table].(columns := Extend(now[delta.table].columns, delta.added))]
  {
    forall t <- schemas
      ensures Extend(schemas[t].columns, AddedTo(t, deltas + [delta]))
           == if t == delta.table then Extend(Extend(schemas[t].columns, AddedTo(t, deltas)), delta.added)
              else Extend(schemas[t].columns, AddedTo(t, deltas))
    {
      OneMoreDelta(schemas[t].columns, t, deltas, delta);
    }
  }

  // ---- what replay promises ----

  /** No table appears or disappears, no detail changes, and tables no delta mentions stay as they are. */
  lemma OnlyMentioned(schemas: Schemas, deltas: seq<Delta>)
    ensures Applied(schemas, deltas).Keys == schemas.Keys
    ensures forall t <- schemas :: Applied(schemas, deltas)[t].details == schemas[t].details
    ensures forall t <- schemas | (forall i | 0 <= i < |deltas| :: deltas[i].table != t) ::
              Applied(schemas, deltas)[t] == schemas[t]
  {
    forall t <- schemas | (forall i | 0 <= i < |deltas| :: deltas[i].table != t)
      ensures Applied(schemas, deltas)[t] == schemas[t]
    {
      AddedToUnmentioned(t, deltas);
      assert Extend(schemas[t].columns, []) == schemas[t].columns;
    }
  }

  lemma MentionedSuffice(schemas: Schemas, deltas: seq<Delta>)
    ensures schemas + Applied(Mentioned(schemas, deltas), deltas) == Applied(schemas, deltas)
  {
    OnlyMentioned(schemas, deltas);
  }

  /** Tables whose column names were distinct keep distinct names. */
  lemma KeepsUnique(schemas: Schemas, deltas: seq<Delta>)
    requires forall t <- schemas :: Unique(schemas[t].columns)
    ensures forall t <- schemas :: Unique(Applied(schemas, deltas)[t].columns)
  {
    forall t <- schemas
      ensures Unique(Applied(schemas, deltas)[t].columns)
    {
      ExtendUnique(schemas[t].columns, AddedTo(t, deltas));
    }
  }

  /** Applying a list of deltas in two calls is applying it in one. */
  lemma Composes(schemas: Schemas, a: seq<Delta>, b: seq<Delta>)
    ensures Applied(Applied(schemas, a), b) == Applied(schemas, a + b)
  {
    forall t <- schemas
      ensures Extend(Extend(schemas[t].columns, AddedTo(t, a)), AddedTo(t, b))
           == Extend(schemas[t].columns, AddedTo(t, a + b))
    {
      AddedToConcat(t, a, b);
      ExtendTwice(schemas[t].columns, AddedTo(t, a), AddedTo(t, b));
    }
  }

  /** A delta is a no-op exactly when its table is not catalogued or all its names are known. */
  lemma NoOpExactly(schemas: Schemas, deltas: seq<Delta>)
    ensures Applied(schemas, deltas) == schemas <==>
      forall i | 0 <= i < |deltas| ::
        deltas[i].table in schemas ==> Names(deltas[i].added) <= Names(schemas[deltas[i].table].columns)
  {
    forall t <- schemas
      ensures Applied(schemas, deltas)[t] == schemas[t] <==> Names(AddedTo(t, deltas)) <= Names(schemas[t].columns)
      ensures forall name :: name in Names(AddedTo(t, deltas)) <==>
                exists i | 0 <= i < |deltas| :: deltas[i].table == t && name in Names(deltas[i].added)
    {
      ExtendNothing(schemas[t].columns, AddedTo(t, deltas));
      forall name {
        AddedToNames(t, deltas, name);
      }
    }
  }

  /** Replaying any of the applied deltas, in any order and number, changes nothing. */
  lemma ReplayIsNoOp(schemas: Schemas, deltas: seq<Delta>, again: seq<Delta>)
    requires forall i | 0 <= i < |again| :: again[i] in deltas
    ensures Applied(Applied(schemas, deltas), again) == Applied(schemas, deltas)
  {
    var now := Applied(schemas, deltas);
    forall i | 0 <= i < |again| && again[i].table in now
      ensures Names(again[i].added) <= Names(now[again[i].table].columns)
    {
      var t := again[i].table;
      ExtendNames(schemas[t].columns, AddedTo(t, deltas));
      forall name <- Names(again[i].added)
        ensures name in Names(AddedTo(t, deltas))
      {
        AddedToNames(t, deltas, name);
      }
    }
    NoOpExactly(now, again);
  }
}
