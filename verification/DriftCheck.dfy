/**
 Structural drift detection (packages/db/src/drift-check.ts): two canonical schemas are compared.

 `DiffSchemas` is the code; `Differs` says what differences there are. The list the code builds holds
 each of them once and nothing else.
 */
module DriftCheck {
  datatype Column = Column(name: string, columnType: string, notNull: bool)

  datatype Index = Index(name: string, columns: seq<string>, isUnique: bool)

  datatype ForeignKey = ForeignKey(name: string, columnsFrom: seq<string>, tableTo: string, columnsTo: seq<string>,
                                   onDelete: string, onUpdate: string)

  datatype Table = Table(name: string, columns: map<string, Column>, indexes: map<string, Index>,
                         foreignKeys: map<string, ForeignKey>, primaryKeyColumns: seq<string>)

  datatype Schema = Schema(tables: map<string, Table>, enums: map<string, seq<string>>)

  // ---- Differences ---------------------------------------------------------------------------------

  datatype Kind = TableKind | ColumnKind | EnumKind | IndexKind | ForeignKeyKind | PrimaryKeyKind

  datatype Detail = MissingInDb | UnexpectedInDb | Mismatch

  /** `owner` is the table of a column, index, foreign key or primary key, and empty otherwise. */
  datatype Difference = Difference(kind: Kind, owner: string, item: string, detail: Detail)

  function SameColumn(): (same: (Column, Column) -> bool)
    ensures forall e, a :: same(e, a) <==> e.columnType == a.columnType && e.notNull == a.notNull
  {
    (e: Column, a: Column) => e.columnType == a.columnType && e.notNull == a.notNull
  }

  function SameIndex(): (same: (Index, Index) -> bool)
    ensures forall e, a :: same(e, a) <==> e.columns == a.columns && e.isUnique == a.isUnique
  {
    (e: Index, a: Index) => e.isUnique == a.isUnique && e.columns == a.columns
  }

  /** Everything but the name counts. */
  function SameForeignKey(): (same: (ForeignKey, ForeignKey) -> bool)
    ensures forall e, a :: same(e, a) <==> e == a.(name := e.name)
  {
    (e: ForeignKey, a: ForeignKey) =>
      e.columnsFrom == a.columnsFrom && e.columnsTo == a.columnsTo && e.tableTo == a.tableTo
      && e.onDelete == a.onDelete && e.onUpdate == a.onUpdate
  }

  function SameValues(): (same: (seq<string>, seq<string>) -> bool)
    ensures forall e, a :: same(e, a) <==> e == a
  {
    (e: seq<string>, a: seq<string>) => e == a
  }

  predicate MapDiffers<V>(e: map<string, V>, a: map<string, V>, same: (V, V) -> bool, name: string, detail: Detail) {
    match detail
    case MissingInDb => name in e && name !in a
    case UnexpectedInDb => name !in e && name in a
    case Mismatch => name in e && name in a && !same(e[name], a[name])
  }

  predicate TableDiffers(e: Table, a: Table, d: Difference) {
    && d.owner == e.name
    && match d.kind
       case ColumnKind => MapDiffers(e.columns, a.columns, SameColumn(), d.item, d.detail)
       case IndexKind => MapDiffers(e.indexes, a.indexes, SameIndex(), d.item, d.detail)
       case ForeignKeyKind => MapDiffers(e.foreignKeys, a.foreignKeys, SameForeignKey(), d.item, d.detail)
       case PrimaryKeyKind => d.item == e.name && d.detail == Mismatch && e.primaryKeyColumns != a.primaryKeyColumns
       case _ => false
  }

  /** The differences there are, said without an order of looking for them. */
  predicate Differs(e: Schema, a: Schema, d: Difference) {
    match d.kind
    case EnumKind => d.owner == "" && MapDiffers(e.enums, a.enums, SameValues(), d.item, d.detail)
    case TableKind =>
      && d.owner == ""
      && (match d.detail
          case MissingInDb => d.item in e.tables && d.item !in a.tables
          case UnexpectedInDb => d.item !in e.tables && d.item in a.tables
          case Mismatch => false)
    case _ => d.owner in e.tables && d.owner in a.tables && TableDiffers(e.tables[d.owner], a.tables[d.owner], d)
  }

  ghost predicate Once(ds: seq<Difference>) {
    forall i, j :: 0 <= i < j < |ds| ==> ds[i] != ds[j]
  }

  /** Tables are kept under their own names. */
  ghost predicate Named(tables: map<string, Table>) {
    forall t :: t in tables ==> tables[t].name == t
  }

  method DiffMaps<V>(e: map<string, V>, a: map<string, V>, same: (V, V) -> bool, kind: Kind, owner: string)
      returns (ds: seq<Difference>)
    ensures Once(ds)
    ensures forall d :: d in ds <==> d.kind == kind && d.owner == owner && MapDiffers(e, a, same, d.item, d.detail)
  {
    ds := [];
    var remaining := e.Keys;
    while |remaining| != 0
      invariant remaining <= e.Keys && Once(ds)
      invariant forall d :: d in ds <==> d.kind == kind && d.owner == owner && d.detail != UnexpectedInDb
                                         && d.item in e.Keys - remaining && MapDiffers(e, a, same, d.item, d.detail)
      decreases |remaining|
    {
      var name :| name in remaining;
      if name !in a {
        ds := ds + [Difference(kind, owner, name, MissingInDb)];
      } else if !same(e[name], a[name]) {
        ds := ds + [Difference(kind, owner, name, Mismatch)];
      }
      remaining := remaining - {name};
    }
    remaining := a.Keys;
    while |remaining| != 0
      invariant remaining <= a.Keys && Once(ds)
      invariant forall d :: d in ds <==> d.kind == kind && d.owner == owner && MapDiffers(e, a, same, d.item, d.detail)
                                         && (d.detail == UnexpectedInDb ==> d.item in a.Keys - remaining)
      decreases |remaining|
    {
      var name :| name in remaining;
      if name !in e {
        ds := ds + [Difference(kind, owner, name, UnexpectedInDb)];
      }
      remaining := remaining - {name};
    }
  }

  method DiffTable(e: Table, a: Table) returns (ds: seq<Difference>)
    ensures Once(ds)
    ensures forall d :: d in ds <==> TableDiffers(e, a, d)
    ensures forall d :: d in ds ==> d.owner == e.name && d.kind !in {EnumKind, TableKind}
  {
    hide MapDiffers;
    var columns := DiffMaps(e.columns, a.columns, SameColumn(), ColumnKind, e.name);
    var indexes := DiffMaps(e.indexes, a.indexes, SameIndex(), IndexKind, e.name);
    var foreignKeys := DiffMaps(e.foreignKeys, a.foreignKeys, SameForeignKey(), ForeignKeyKind, e.name);
    ds := columns + indexes + foreignKeys;
    if e.primaryKeyColumns != a.primaryKeyColumns {
      ds := ds + [Difference(PrimaryKeyKind, e.name, e.name, Mismatch)];
    }
  }

  /** What has been reported while the expected tables in `remaining` are still to be looked at. */
  predicate FoundBy(d: Difference, remaining: set<string>) {
    match d.kind
    case EnumKind => true
    case TableKind => d.detail == MissingInDb && d.item !in remaining
    case _ => d.owner !in remaining
  }

  lemma {:induction false} OnceBoth(a: seq<Difference>, b: seq<Difference>)
    requires Once(a) && Once(b) && forall d :: d in a ==> d !in b
    ensures Once(a + b)
  {
    var s := a + b;
    forall i, j | 0 <= i < j < |s| ensures s[i] != s[j] {
      assert i < |a| ==> s[i] in a;
      assert j >= |a| ==> s[j] in b;
    }
  }

  /** What one expected table contributes. */
  method DiffExpectedTable(e: Schema, a: Schema, name: string,
      ghost remaining: set<string>) returns (ds: seq<Difference>)
    requires Named(e.tables) && name in e.tables && name in remaining
    ensures Once(ds)
    ensures forall d :: d in ds <==> Differs(e, a, d) && FoundBy(d, remaining - {name}) && !FoundBy(d, remaining)
  {
    hide MapDiffers;
    hide TableDiffers;
    if name !in a.tables {
      ds := [Difference(TableKind, "", name, MissingInDb)];
    } else {
      ds := DiffTable(e.tables[name], a.tables[name]);
    }
  }

  method DiffUnexpectedTables(e: Schema, a: Schema) returns (ds: seq<Difference>)
    ensures Once(ds)
    ensures forall d :: d in ds <==> Differs(e, a, d) && d.kind == TableKind && d.detail == UnexpectedInDb
  {
    hide MapDiffers;
    hide TableDiffers;
    ds := [];
    var remaining := a.tables.Keys;
    while |remaining| != 0
      invariant remaining <= a.tables.Keys && Once(ds)
      invariant forall d :: d in ds <==>
        Differs(e, a, d) && d.kind == TableKind && d.detail == UnexpectedInDb && d.item !in remaining
      decreases |remaining|
    {
      var name :| name in remaining;
      if name !in e.tables {
        ds := ds + [Difference(TableKind, "", name, UnexpectedInDb)];
      }
      remaining := remaining - {name};
    }
  }

  /** Which mismatches of two tables are reported, field by field. */
  ghost predicate MismatchesTold(e: Table, a: Table, t: string, ds: seq<Difference>) {
    && (forall c :: c in e.columns && c in a.columns ==>
          (Difference(ColumnKind, t, c, Mismatch) in ds
           <==> e.columns[c].columnType != a.columns[c].columnType || e.columns[c].notNull != a.columns[c].notNull))
    && (forall i :: i in e.indexes && i in a.indexes ==>
          (Difference(IndexKind, t, i, Mismatch) in ds
           <==> e.indexes[i].columns != a.indexes[i].columns || e.indexes[i].isUnique != a.indexes[i].isUnique))
    && (forall k :: k in e.foreignKeys && k in a.foreignKeys ==>
          var x, y := e.foreignKeys[k], a.foreignKeys[k];
          (Difference(ForeignKeyKind, t, k, Mismatch) in ds
           <==> x.columnsFrom != y.columnsFrom || x.tableTo != y.tableTo || x.columnsTo != y.columnsTo
                || x.onDelete != y.onDelete || x.onUpdate != y.onUpdate))
    && (Difference(PrimaryKeyKind, t, t, Mismatch) in ds <==> e.primaryKeyColumns != a.primaryKeyColumns)
  }

  /** And which parts are reported as missing or unexpected. */
  ghost predicate NamesTold(e: Table, a: Table, t: string, ds: seq<Difference>) {
    && (forall c :: Difference(ColumnKind, t, c, MissingInDb) in ds <==> c in e.columns && c !in a.columns)
    && (forall c :: Difference(ColumnKind, t, c, UnexpectedInDb) in ds <==> c !in e.columns && c in a.columns)
    && (forall i :: Difference(IndexKind, t, i, MissingInDb) in ds <==> i in e.indexes && i !in a.indexes)
    && (forall i :: Difference(IndexKind, t, i, UnexpectedInDb) in ds <==> i !in e.indexes && i in a.indexes)
    && (forall k :: Difference(ForeignKeyKind, t, k, MissingInDb) in ds <==> k in e.foreignKeys && k !in a.foreignKeys)
    && (forall k :: Difference(ForeignKeyKind, t, k, UnexpectedInDb) in ds <==> k !in e.foreignKeys && k in a.foreignKeys)
  }

  ghost predicate TablesTold(e: Schema, a: Schema, ds: seq<Difference>) {
    && (forall t :: Difference(TableKind, "", t, MissingInDb) in ds <==> t in e.tables && t !in a.tables)
    && (forall t :: Difference(TableKind, "", t, UnexpectedInDb) in ds <==> t !in e.tables && t in a.tables)
    && (forall n :: Difference(EnumKind, "", n, MissingInDb) in ds <==> n in e.enums && n !in a.enums)
    && (forall n :: Difference(EnumKind, "", n, UnexpectedInDb) in ds <==> n !in e.enums && n in a.enums)
    && (forall n :: n in e.enums && n in a.enums ==>
          (Difference(EnumKind, "", n, Mismatch) in ds <==> e.enums[n] != a.enums[n]))
  }

  lemma {:induction false} TableIsTold(e: Schema, a: Schema, t: string, ds: seq<Difference>)
    requires Named(e.tables) && t in e.tables && t in a.tables && forall d :: d in ds <==> Differs(e, a, d)
    ensures MismatchesTold(e.tables[t], a.tables[t], t, ds) && NamesTold(e.tables[t], a.tables[t], t, ds)
  {
  }

  lemma {:induction false} SchemaIsTold(e: Schema, a: Schema, ds: seq<Difference>)
    requires forall d :: d in ds <==> Differs(e, a, d)
    ensures TablesTold(e, a, ds)
  {
  }

  /** Every difference is reported, once, and nothing else is. */
  method DiffSchemas(e: Schema, a: Schema) returns (ds: seq<Difference>)
    requires Named(e.tables)
    ensures Once(ds)
    ensures forall d :: d in ds <==> Differs(e, a, d)
    ensures TablesTold(e, a, ds)
    ensures forall t :: t in e.tables && t in a.tables ==>
              MismatchesTold(e.tables[t], a.tables[t], t, ds) && NamesTold(e.tables[t], a.tables[t], t, ds)
  {
    hide TablesTold;
    hide MismatchesTold;
    hide NamesTold;
    hide MapDiffers;
    hide TableDiffers;
    ds := DiffMaps(e.enums, a.enums, SameValues(), EnumKind, "");
    var remaining := e.tables.Keys;
    assert forall d :: d in ds <==> Differs(e, a, d) && FoundBy(d, remaining);
    while |remaining| != 0
      invariant remaining <= e.tables.Keys && Once(ds)
      invariant forall d :: d in ds <==> Differs(e, a, d) && FoundBy(d, remaining)
      decreases |remaining|
    {
      hide Differs;
      hide Once;
      var name :| name in remaining;
      var more := DiffExpectedTable(e, a, name, remaining);
      OnceBoth(ds, more);
      ds := ds + more;
      remaining := remaining - {name};
    }
    var unexpected := DiffUnexpectedTables(e, a);
    hide Once;
    OnceBoth(ds, unexpected);
    ds := ds + unexpected;
    SchemaIsTold(e, a, ds);
    forall t | t in e.tables && t in a.tables
      ensures MismatchesTold(e.tables[t], a.tables[t], t, ds) && NamesTold(e.tables[t], a.tables[t], t, ds)
    {
      TableIsTold(e, a, t, ds);
    }
  }

  // ---- Agreement -----------------------------------------------------------------------------------

  ghost predicate MapsAgree<V>(e: map<string, V>, a: map<string, V>, same: (V, V) -> bool) {
    e.Keys == a.Keys && forall n :: n in e ==> same(e[n], a[n])
  }

  ghost predicate TablesAgree(e: Table, a: Table) {
    && MapsAgree(e.columns, a.columns, SameColumn())
    && MapsAgree(e.indexes, a.indexes, SameIndex())
    && MapsAgree(e.foreignKeys, a.foreignKeys, SameForeignKey())
    && e.primaryKeyColumns == a.primaryKeyColumns
  }

  ghost predicate Agree(e: Schema, a: Schema) {
    && e.enums == a.enums && e.tables.Keys == a.tables.Keys
    && forall t :: t in e.tables ==> TablesAgree(e.tables[t], a.tables[t])
  }

  lemma {:induction false} MapsAgreeExactly<V>(e: map<string, V>, a: map<string, V>, same: (V, V) -> bool)
    ensures MapsAgree(e, a, same) <==> forall n, detail :: !MapDiffers(e, a, same, n, detail)
  {
    if forall n, detail :: !MapDiffers(e, a, same, n, detail) {
      forall n ensures n in e <==> n in a {
        assert !MapDiffers(e, a, same, n, MissingInDb) && !MapDiffers(e, a, same, n, UnexpectedInDb);
      }
      forall n | n in e ensures same(e[n], a[n]) { assert !MapDiffers(e, a, same, n, Mismatch); }
    }
  }

  lemma {:induction false} TablesAgreeExactly(e: Table, a: Table)
    ensures TablesAgree(e, a) <==> forall d :: !TableDiffers(e, a, d)
  {
    MapsAgreeExactly(e.columns, a.columns, SameColumn());
    MapsAgreeExactly(e.indexes, a.indexes, SameIndex());
    MapsAgreeExactly(e.foreignKeys, a.foreignKeys, SameForeignKey());
    hide MapDiffers;
    hide MapsAgree;
    if forall d :: !TableDiffers(e, a, d) {
      assert !TableDiffers(e, a, Difference(PrimaryKeyKind, e.name, e.name, Mismatch));
      forall n, detail ensures !MapDiffers(e.columns, a.columns, SameColumn(), n, detail) {
        assert !TableDiffers(e, a, Difference(ColumnKind, e.name, n, detail));
      }
      forall n, detail ensures !MapDiffers(e.indexes, a.indexes, SameIndex(), n, detail) {
        assert !TableDiffers(e, a, Difference(IndexKind, e.name, n, detail));
      }
      forall n, detail ensures !MapDiffers(e.foreignKeys, a.foreignKeys, SameForeignKey(), n, detail) {
        assert !TableDiffers(e, a, Difference(ForeignKeyKind, e.name, n, detail));
      }
    }
  }

  /** There is no difference exactly when the schemas agree on everything that is compared. */
  lemma {:induction false} NoDifferenceExactly(e: Schema, a: Schema)
    requires Named(e.tables)
    ensures Agree(e, a) <==> forall d :: !Differs(e, a, d)
  {
    MapsAgreeExactly(e.enums, a.enums, SameValues());
    forall t | t in e.tables && t in a.tables
      ensures TablesAgree(e.tables[t], a.tables[t]) <==> forall d :: !TableDiffers(e.tables[t], a.tables[t], d)
    {
      TablesAgreeExactly(e.tables[t], a.tables[t]);
    }
    hide TablesAgree;
    if forall d :: !Differs(e, a, d) {
      forall n, detail ensures !MapDiffers(e.enums, a.enums, SameValues(), n, detail) {
        assert !Differs(e, a, Difference(EnumKind, "", n, detail));
      }
      forall t ensures t in e.tables <==> t in a.tables {
        assert !Differs(e, a, Difference(TableKind, "", t, MissingInDb));
        assert !Differs(e, a, Difference(TableKind, "", t, UnexpectedInDb));
      }
      forall t, d | t in e.tables ensures !TableDiffers(e.tables[t], a.tables[t], d) {
        assert !Differs(e, a, d);
      }
    }
  }
}
