/**
 The catalog rows of a schema (packages/db/src/drift-check.ts): for every schema there are rows that
 describe it and rows that the queries return for it, so the round trips of `Introspection` and
 `LiveCheck` are never about nothing.
 */
module Catalog {
  import opened Common
  import opened Sorting
  import opened DriftCheck
  import opened Introspection
  import opened LiveCheck

  // ---- Rows by table and name ------------------------------------------------------------------------

  /** The members of a set, each once. */
  ghost function Listed(names: set<string>): seq<string> {
    if names == {} then []
    else
      var n :| n in names;
      [n] + Listed(names - {n})
  }

  lemma {:induction false} ListedOnce(names: set<string>)
    ensures Distinct(Listed(names)) && forall n :: n in Listed(names) <==> n in names
  {
    if names != {} {
      var n := Listed(names)[0];
      assert Listed(names)[1..] == Listed(names - {n});
      ListedOnce(names - {n});
    }
  }

  ghost function Rows<T>(t: string, names: seq<string>, rowsOf: (string, string) -> seq<T>): seq<T> {
    if names == [] then [] else rowsOf(t, names[0]) + Rows(t, names[1..], rowsOf)
  }

  ghost function AllRows<T>(tables: seq<string>, names: string -> set<string>,
      rowsOf: (string, string) -> seq<T>): seq<T> {
    if tables == [] then [] else Rows(tables[0], Listed(names(tables[0])), rowsOf) + AllRows(tables[1..], names, rowsOf)
  }

  lemma {:induction false} FilterConcat<T>(a: seq<T>, b: seq<T>, p: T -> bool)
    ensures Filter(a + b, p) == Filter(a, p) + Filter(b, p)
  {
    if a == [] {
      assert a + b == b;
    } else {
      FilterConcat(a[1..], b, p);
      assert (a + b)[1..] == a[1..] + b;
    }
  }

  lemma {:induction false} FilterAll<T>(s: seq<T>, p: T -> bool)
    requires forall r :: r in s ==> p(r)
    ensures Filter(s, p) == s
  {
    if s != [] { FilterAll(s[1..], p); }
  }

  lemma {:induction false} FilterNone<T>(s: seq<T>, p: T -> bool)
    requires forall r :: r in s ==> !p(r)
    ensures Filter(s, p) == []
  {
    NothingKept(s, p);
  }

  /** `p` holds of exactly the rows of the name `n` of the table `t`. */
  ghost predicate Selects<T(!new)>(p: T -> bool, rowsOf: (string, string) -> seq<T>, t: string, n: string) {
    forall u, m, r :: r in rowsOf(u, m) ==> (p(r) <==> u == t && m == n)
  }

  lemma {:induction false} FilterOf<T(!new)>(rowsOf: (string, string) -> seq<T>, p: T -> bool, u: string, m: string,
      t: string, n: string)
    requires Selects(p, rowsOf, t, n)
    ensures Filter(rowsOf(u, m), p) == if u == t && m == n then rowsOf(t, n) else []
  {
    if u == t && m == n { FilterAll(rowsOf(u, m), p); } else { FilterNone(rowsOf(u, m), p); }
  }

  lemma {:induction false} FilterRows<T(!new)>(u: string, names: seq<string>, rowsOf: (string, string) -> seq<T>,
      p: T -> bool, t: string, n: string)
    requires Distinct(names) && Selects(p, rowsOf, t, n)
    ensures Filter(Rows(u, names, rowsOf), p) == if u == t && n in names then rowsOf(t, n) else []
  {
    hide Selects;
    if names == [] {
      FilterNone(Rows(u, names, rowsOf), p);
    } else {
      FilterRows(u, names[1..], rowsOf, p, t, n);
      FilterOf(rowsOf, p, u, names[0], t, n);
      hide Filter;
      FilterConcat(rowsOf(u, names[0]), Rows(u, names[1..], rowsOf), p);
    }
  }

  /** Selecting the rows of one name of one table finds those rows and no others. */
  lemma {:induction false} FilterAllRows<T(!new)>(
      tables: seq<string>, names: string -> set<string>, rowsOf: (string, string) -> seq<T>, p: T -> bool,
      t: string, n: string)
    requires Distinct(tables) && Selects(p, rowsOf, t, n)
    ensures Filter(AllRows(tables, names, rowsOf), p) == if t in tables && n in names(t) then rowsOf(t, n) else []
  {
    hide Selects;
    hide Listed;
    if tables == [] {
      FilterNone(AllRows(tables, names, rowsOf), p);
    } else {
      var first := Listed(names(tables[0]));
      FilterAllRows(tables[1..], names, rowsOf, p, t, n);
      ListedOnce(names(tables[0]));
      FilterRows(tables[0], first, rowsOf, p, t, n);
      hide Filter;
      FilterConcat(Rows(tables[0], first, rowsOf), AllRows(tables[1..], names, rowsOf), p);
    }
  }

  lemma {:induction false} RowsAreOn<T(!new)>(u: string, names: seq<string>, rowsOf: (string, string) -> seq<T>,
      table: T -> string)
    requires forall v, m, r :: r in rowsOf(v, m) ==> table(r) == v
    ensures forall r :: r in Rows(u, names, rowsOf) ==> table(r) == u
  {
    if names != [] { RowsAreOn(u, names[1..], rowsOf, table); }
  }

  lemma {:induction false} AllRowsAreOn<T(!new)>(
      tables: seq<string>, names: string -> set<string>, rowsOf: (string, string) -> seq<T>, table: T -> string)
    requires forall v, m, r :: r in rowsOf(v, m) ==> table(r) == v
    ensures forall r :: r in AllRows(tables, names, rowsOf) ==> table(r) in tables
  {
    hide Listed;
    if tables != [] {
      RowsAreOn(tables[0], Listed(names(tables[0])), rowsOf, table);
      AllRowsAreOn(tables[1..], names, rowsOf, table);
    }
  }

  // ---- The rows of a schema ----------------------------------------------------------------------------

  /** A type under its own name is read back as it is. */
  function ColumnRowsOf(s: Schema): (string, string) -> seq<ColumnRow> {
    (t: string, c: string) =>
      var columns := TableOf(s.tables, t).columns;
      if c in columns
      then [ColumnRow(t, c, "USER-DEFINED", columns[c].columnType, if columns[c].notNull then "NO" else "YES", None)]
      else []
  }

  function IndexRowsOf(s: Schema): (string, string) -> seq<IndexRow> {
    (t: string, i: string) =>
      var indexes := TableOf(s.tables, t).indexes;
      if i in indexes
      then seq(|indexes[i].columns|, k requires 0 <= k < |indexes[i].columns| =>
             IndexRow(i, t, indexes[i].isUnique, indexes[i].columns[k], k + 1))
      else []
  }

  function KeyRowsOf(s: Schema): (string, string) -> seq<KeyRow> {
    (t: string, k: string) =>
      var key := Lookup(TableOf(s.tables, t).foreignKeys, k);
      if key.Some? && |key.value.columnsFrom| == |key.value.columnsTo| then KeyRows(t, k, key) else []
  }

  /** The tables that have a key named `k`. */
  ghost function BearersOf(s: Schema, k: string): seq<string> {
    Listed(set t | t in s.tables && k in s.tables[t].foreignKeys)
  }

  lemma {:induction false} BearersBear(s: Schema, k: string)
    ensures Bearers(s, k, BearersOf(s, k))
  {
    ListedOnce(set t | t in s.tables && k in s.tables[t].foreignKeys);
  }

  ghost function QueriedRowsOf(s: Schema): (string, string) -> seq<KeyRow> {
    (t: string, k: string) =>
      if k in TableOf(s.tables, t).foreignKeys then
        BearersBear(s, k);
        QueriedRows(t, k, KeysNamed(s, k, BearersOf(s, k)))
      else []
  }

  /** A table has one primary key, which needs no name. */
  function PrimaryRowsOf(s: Schema): (string, string) -> seq<PrimaryRow> {
    (t: string, n: string) =>
      var columns := TableOf(s.tables, t).primaryKeyColumns;
      if n == "" then seq(|columns|, k requires 0 <= k < |columns| => PrimaryRow(t, columns[k], k + 1)) else []
  }

  /** Enums belong to no table. */
  function EnumRowsOf(s: Schema): (string, string) -> seq<EnumRow> {
    (t: string, n: string) =>
      if t == "" && n in s.enums then Map(s.enums[n], (v: string) => EnumRow(n, v)) else []
  }

  function ColumnNames(s: Schema): string -> set<string> {
    (t: string) => TableOf(s.tables, t).columns.Keys
  }

  function IndexNames(s: Schema): string -> set<string> {
    (t: string) => TableOf(s.tables, t).indexes.Keys
  }

  function KeyNames(s: Schema): string -> set<string> {
    (t: string) => TableOf(s.tables, t).foreignKeys.Keys
  }

  function NoName(): string -> set<string> {
    (t: string) => {""}
  }

  /** `keyRows` gives rows to the keys there are, under their own names. */
  ghost predicate OwnKeys(s: Schema, keyRows: (string, string) -> seq<KeyRow>) {
    && (forall t, k, r :: r in keyRows(t, k) ==> r.tableFrom == t && r.key == k)
    && (forall t, k :: keyRows(t, k) != [] ==> k in TableOf(s.tables, t).foreignKeys)
  }

  ghost function Explode(s: Schema, keyRows: (string, string) -> seq<KeyRow>): Raw {
    var tables := Listed(s.tables.Keys);
    Raw(tables,
        AllRows(tables, ColumnNames(s), ColumnRowsOf(s)),
        Rows("", Listed(s.enums.Keys), EnumRowsOf(s)),
        AllRows(tables, IndexNames(s), IndexRowsOf(s)),
        AllRows(tables, KeyNames(s), keyRows),
        AllRows(tables, NoName(), PrimaryRowsOf(s)))
  }

  lemma {:induction false} Exploded(s: Schema, keyRows: (string, string) -> seq<KeyRow>)
    ensures var raw, tables := Explode(s, keyRows), Listed(s.tables.Keys);
            && raw.tables == tables
            && raw.columns == AllRows(tables, ColumnNames(s), ColumnRowsOf(s))
            && raw.enums == Rows("", Listed(s.enums.Keys), EnumRowsOf(s))
            && raw.indexes == AllRows(tables, IndexNames(s), IndexRowsOf(s))
            && raw.foreignKeys == AllRows(tables, KeyNames(s), keyRows)
            && raw.primaryKeys == AllRows(tables, NoName(), PrimaryRowsOf(s))
  {
  }

  lemma {:induction false} FilterTables<T(!new)>(
      s: Schema, names: string -> set<string>, rowsOf: (string, string) -> seq<T>, p: T -> bool, t: string, n: string)
    requires Selects(p, rowsOf, t, n) && (rowsOf(t, n) != [] ==> t in s.tables && n in names(t))
    ensures Filter(AllRows(Listed(s.tables.Keys), names, rowsOf), p) == rowsOf(t, n)
  {
    hide *;
    ListedOnce(s.tables.Keys);
    FilterAllRows(Listed(s.tables.Keys), names, rowsOf, p, t, n);
  }

  lemma {:induction false} ColumnRowIs(s: Schema, t: string, c: string, r: ColumnRow)
    requires r in ColumnRowsOf(s)(t, c)
    ensures r.table == t && r.column == c && t in s.tables && c in ColumnNames(s)(t)
  {
  }

  lemma {:induction false} ColumnRowsSelected(s: Schema, t: string, c: string)
    ensures Selects(IsColumn(t, c), ColumnRowsOf(s), t, c)
    ensures ColumnRowsOf(s)(t, c) != [] ==> t in s.tables && c in ColumnNames(s)(t)
  {
    hide ColumnRowsOf;
    hide ColumnNames;
    forall u, m, r | r in ColumnRowsOf(s)(u, m) ensures IsColumn(t, c)(r) <==> u == t && m == c { ColumnRowIs(s, u, m, r); }
    var rows := ColumnRowsOf(s)(t, c);
    if rows != [] { ColumnRowIs(s, t, c, rows[0]); }
  }

  lemma {:induction false} ColumnRowsDescribe(s: Schema, t: string, c: string)
    ensures DescribesColumn(ColumnRowsOf(s)(t, c), Lookup(TableOf(s.tables, t).columns, c))
  {
    hide Decimal;
  }

  lemma {:induction false} IndexRowsSelected(s: Schema, t: string, i: string)
    ensures Selects(IsIndex(t, i), IndexRowsOf(s), t, i)
    ensures IndexRowsOf(s)(t, i) != [] ==> t in s.tables && i in IndexNames(s)(t)
    ensures DescribesIndex(IndexRowsOf(s)(t, i), t, i, Lookup(TableOf(s.tables, t).indexes, i))
  {
    assert AreIndexRows(IndexRowsOf(s)(t, i), t, i, Lookup(TableOf(s.tables, t).indexes, i));
  }

  lemma {:induction false} KeyRowsSelected(s: Schema, keyRows: (string, string) -> seq<KeyRow>, t: string, k: string)
    requires OwnKeys(s, keyRows)
    ensures Selects(IsKey(t, k), keyRows, t, k)
    ensures keyRows(t, k) != [] ==> t in s.tables && k in KeyNames(s)(t)
  {
  }

  lemma {:induction false} ExplodedKey(s: Schema, keyRows: (string, string) -> seq<KeyRow>, t: string, k: string)
    requires OwnKeys(s, keyRows)
    ensures Filter(Explode(s, keyRows).foreignKeys, IsKey(t, k)) == keyRows(t, k)
  {
    hide *;
    Exploded(s, keyRows);
    KeyRowsSelected(s, keyRows, t, k);
    FilterTables(s, KeyNames(s), keyRows, IsKey(t, k), t, k);
  }

  lemma {:induction false} PrimaryRowsSelected(s: Schema, t: string)
    ensures Selects(IsPrimary(t), PrimaryRowsOf(s), t, "")
    ensures PrimaryRowsOf(s)(t, "") != [] ==> t in s.tables && "" in NoName()(t)
    ensures PrimaryFrom(PrimaryRowsOf(s)(t, "")) == TableOf(s.tables, t).primaryKeyColumns
  {
  }

  lemma {:induction false} EnumRowsSelected(s: Schema, n: string)
    ensures Selects(IsEnum(n), EnumRowsOf(s), "", n)
    ensures Map(if n in s.enums then EnumRowsOf(s)("", n) else [], (r: EnumRow) => r.value)
         == if n in s.enums then s.enums[n] else []
  {
  }

  lemma {:induction false} RowsAreOnTheirTables(s: Schema, keyRows: (string, string) -> seq<KeyRow>)
    requires OwnKeys(s, keyRows)
    ensures forall t, n, r :: r in ColumnRowsOf(s)(t, n) ==> ColumnTable()(r) == t
    ensures forall t, n, r :: r in IndexRowsOf(s)(t, n) ==> IndexTable()(r) == t
    ensures forall t, n, r :: r in keyRows(t, n) ==> KeyTable()(r) == t
    ensures forall t, n, r :: r in PrimaryRowsOf(s)(t, n) ==> PrimaryTable()(r) == t
  {
  }

  lemma {:induction false} OnlyOn<T>(rows: seq<T>, table: T -> string, tables: seq<string>, t: string)
    requires (forall r :: r in rows ==> table(r) in tables) && OnTable(rows, table, t)
    ensures t in tables
  {
  }

  lemma {:induction false} ExplodedTables(s: Schema, keyRows: (string, string) -> seq<KeyRow>, t: string)
    requires OwnKeys(s, keyRows)
    ensures Mentions(Explode(s, keyRows), t) <==> t in s.tables
  {
    hide *;
    var raw, tables := Explode(s, keyRows), Listed(s.tables.Keys);
    Exploded(s, keyRows);
    ListedOnce(s.tables.Keys);
    RowsAreOnTheirTables(s, keyRows);
    AllRowsAreOn(tables, ColumnNames(s), ColumnRowsOf(s), ColumnTable());
    AllRowsAreOn(tables, IndexNames(s), IndexRowsOf(s), IndexTable());
    AllRowsAreOn(tables, KeyNames(s), keyRows, KeyTable());
    AllRowsAreOn(tables, NoName(), PrimaryRowsOf(s), PrimaryTable());
    if OnTable(raw.columns, ColumnTable(), t) { OnlyOn(raw.columns, ColumnTable(), tables, t); }
    if OnTable(raw.indexes, IndexTable(), t) { OnlyOn(raw.indexes, IndexTable(), tables, t); }
    if OnTable(raw.foreignKeys, KeyTable(), t) { OnlyOn(raw.foreignKeys, KeyTable(), tables, t); }
    if OnTable(raw.primaryKeys, PrimaryTable(), t) { OnlyOn(raw.primaryKeys, PrimaryTable(), tables, t); }
    MentionsMeans(raw, t);
  }

  lemma {:induction false} MentionsMeans(raw: Raw, t: string)
    ensures Mentions(raw, t) <==>
      || t in raw.tables || OnTable(raw.columns, ColumnTable(), t) || OnTable(raw.indexes, IndexTable(), t)
      || OnTable(raw.foreignKeys, KeyTable(), t) || OnTable(raw.primaryKeys, PrimaryTable(), t)
  {
  }

  lemma {:induction false} ButKeys(raw: Raw, s: Schema)
    requires forall t :: Mentions(raw, t) <==> t in s.tables
    requires forall t, c :: DescribesColumn(Filter(raw.columns, IsColumn(t, c)), Lookup(TableOf(s.tables, t).columns, c))
    requires forall t, i :: DescribesIndex(Filter(raw.indexes, IsIndex(t, i)), t, i, Lookup(TableOf(s.tables, t).indexes, i))
    requires forall t :: PrimaryFrom(Filter(raw.primaryKeys, IsPrimary(t))) == TableOf(s.tables, t).primaryKeyColumns
    requires forall n :: Map(Filter(raw.enums, IsEnum(n)), (r: EnumRow) => r.value) == if n in s.enums then s.enums[n] else []
    ensures DescribesButKeys(raw, s)
  {
    hide Filter;
    hide Mentions;
    hide DescribesColumn;
    hide DescribesIndex;
    hide PrimaryFrom;
  }

  lemma {:induction false} ExplodeDescribesButKeys(s: Schema, keyRows: (string, string) -> seq<KeyRow>)
    requires OwnKeys(s, keyRows)
    ensures DescribesButKeys(Explode(s, keyRows), s)
  {
    hide *;
    var raw := Explode(s, keyRows);
    Exploded(s, keyRows);
    forall t ensures Mentions(raw, t) <==> t in s.tables { ExplodedTables(s, keyRows, t); }
    forall t, c
      ensures DescribesColumn(Filter(raw.columns, IsColumn(t, c)), Lookup(TableOf(s.tables, t).columns, c))
    {
      ColumnRowsSelected(s, t, c);
      ColumnRowsDescribe(s, t, c);
      FilterTables(s, ColumnNames(s), ColumnRowsOf(s), IsColumn(t, c), t, c);
    }
    forall t, i
      ensures DescribesIndex(Filter(raw.indexes, IsIndex(t, i)), t, i, Lookup(TableOf(s.tables, t).indexes, i))
    {
      IndexRowsSelected(s, t, i);
      FilterTables(s, IndexNames(s), IndexRowsOf(s), IsIndex(t, i), t, i);
    }
    forall t
      ensures PrimaryFrom(Filter(raw.primaryKeys, IsPrimary(t))) == TableOf(s.tables, t).primaryKeyColumns
    {
      PrimaryRowsSelected(s, t);
      FilterTables(s, NoName(), PrimaryRowsOf(s), IsPrimary(t), t, "");
    }
    forall n
      ensures Map(Filter(raw.enums, IsEnum(n)), (r: EnumRow) => r.value) == if n in s.enums then s.enums[n] else []
    {
      ListedOnce(s.enums.Keys);
      EnumRowsSelected(s, n);
      FilterRows("", Listed(s.enums.Keys), EnumRowsOf(s), IsEnum(n), "", n);
    }
    ButKeys(raw, s);
  }

  lemma {:induction false} KeyRowsAreOwn(s: Schema)
    requires Paired(s)
    ensures OwnKeys(s, KeyRowsOf(s))
    ensures forall t, k :: KeyRowsOf(s)(t, k) == KeyRows(t, k, Lookup(TableOf(s.tables, t).foreignKeys, k))
  {
  }

  /** Every schema, complete or not, is described by some rows. */
  lemma {:induction false} ExplodeDescribes(s: Schema)
    requires Paired(s)
    ensures Describes(Explode(s, KeyRowsOf(s)), s)
  {
    var raw := Explode(s, KeyRowsOf(s));
    hide Explode;
    hide KeyRowsOf;
    hide KeyRows;
    hide Filter;
    hide OwnKeys;
    hide DescribesButKeys;
    hide TableOf;
    KeyRowsAreOwn(s);
    ExplodeDescribesButKeys(s, KeyRowsOf(s));
    forall t, k
      ensures multiset(Filter(raw.foreignKeys, IsKey(t, k)))
           == multiset(KeyRows(t, k, Lookup(TableOf(s.tables, t).foreignKeys, k)))
    {
      ExplodedKey(s, KeyRowsOf(s), t, k);
    }
  }

  lemma {:induction false} UnderOneKey(t: string, k: string, froms: seq<FromColumn>, tos: seq<ToColumn>,
      rule: ForeignKey)
    ensures forall r :: r in RowsUnder(t, k, froms, tos, rule) ==> r.tableFrom == t && r.key == k
  {
    if froms != [] { UnderOneKey(t, k, froms[1..], tos, rule); }
  }

  lemma {:induction false} JoinedUnderOneKey(t: string, k: string, froms: seq<FromColumn>, tos: seq<ToColumn>,
      rules: seq<ForeignKey>)
    ensures forall r :: r in JoinedRows(t, k, froms, tos, rules) ==> r.tableFrom == t && r.key == k
  {
    if rules != [] {
      UnderOneKey(t, k, froms, tos, rules[0]);
      JoinedUnderOneKey(t, k, froms, tos, rules[1..]);
    }
  }

  lemma {:induction false} QueriedRowsOfOne(s: Schema, t: string, k: string)
    ensures var rows := QueriedRowsOf(s)(t, k);
            && QueriedKey(rows, s, t, k) && (rows != [] ==> k in TableOf(s.tables, t).foreignKeys)
            && forall r :: r in rows ==> r.tableFrom == t && r.key == k
  {
    BearersBear(s, k);
    hide BearersOf;
    var keys := KeysNamed(s, k, BearersOf(s, k));
    JoinedUnderOneKey(t, k, FromColumns(keys), ToColumns(keys), keys);
    hide JoinedRows;
    hide FromColumns;
    hide ToColumns;
  }

  /** And the queries return some rows for it. */
  lemma {:induction false} ExplodeIsQueried(s: Schema)
    ensures Queried(Explode(s, QueriedRowsOf(s)), s)
  {
    hide Explode;
    hide QueriedRowsOf;
    hide QueriedKey;
    hide Filter;
    hide DescribesButKeys;
    hide TableOf;
    var raw := Explode(s, QueriedRowsOf(s));
    forall t, k, r | r in QueriedRowsOf(s)(t, k) ensures r.tableFrom == t && r.key == k { QueriedRowsOfOne(s, t, k); }
    forall t, k | QueriedRowsOf(s)(t, k) != []
      ensures k in TableOf(s.tables, t).foreignKeys
    {
      QueriedRowsOfOne(s, t, k);
    }
    assert OwnKeys(s, QueriedRowsOf(s));
    hide OwnKeys;
    ExplodeDescribesButKeys(s, QueriedRowsOf(s));
    forall t, k ensures QueriedKey(Filter(raw.foreignKeys, IsKey(t, k)), s, t, k) {
      ExplodedKey(s, QueriedRowsOf(s), t, k);
      QueriedRowsOfOne(s, t, k);
    }
  }
}
