/**
 Assembly of the live schema from catalog rows (packages/db/src/drift-check.ts).

 `AssembleLiveSchema` is the code; `Assembles` says for every table, index, foreign key and enum which
 rows it comes from. The round trip is about any rows that describe a schema, in any order.
 */
module Introspection {
  import opened Common
  import opened Sorting
  import opened DriftCheck

  datatype ColumnRow = ColumnRow(table: string, column: string, dataType: string, udtName: string,
                                 isNullable: string, maxLength: Option<nat>)

  datatype EnumRow = EnumRow(name: string, value: string)

  datatype IndexRow = IndexRow(index: string, table: string, isUnique: bool, column: string, ord: int)

  datatype KeyRow = KeyRow(key: string, tableFrom: string, tableTo: string, colFrom: string, colTo: string,
                           onDelete: string, onUpdate: string, ord: int)

  datatype PrimaryRow = PrimaryRow(table: string, column: string, ord: int)

  datatype Raw = Raw(tables: seq<string>, columns: seq<ColumnRow>, enums: seq<EnumRow>, indexes: seq<IndexRow>,
                     foreignKeys: seq<KeyRow>, primaryKeys: seq<PrimaryRow>)

  // ---- Normalizers ---------------------------------------------------------------------------------

  function CanonicalType(r: ColumnRow): string {
    if r.dataType == "USER-DEFINED" then r.udtName
    else if r.dataType == "character varying" then
      if r.maxLength.Some? then "varchar(" + Decimal(r.maxLength.value) + ")" else "varchar"
    else if r.dataType == "character" then
      if r.maxLength.Some? then "char(" + Decimal(r.maxLength.value) + ")" else "char"
    else r.dataType
  }

  function Trim(s: string): string {
    if s == [] then []
    else if IsSpace(s[0]) then Trim(s[1..])
    else if IsSpace(s[|s| - 1]) then Trim(s[..|s| - 1])
    else s
  }

  /** `trim` takes the white space from both ends, and nothing else. */
  lemma {:induction false} TrimIs(s: string) returns (i: nat, j: nat)
    ensures i <= j <= |s| && Trim(s) == s[i..j]
    ensures (forall k :: 0 <= k < i ==> IsSpace(s[k])) && forall k :: j <= k < |s| ==> IsSpace(s[k])
    ensures i < j ==> !IsSpace(s[i]) && !IsSpace(s[j - 1])
  {
    hide IsSpace;
    if s == [] {
      i, j := 0, 0;
    } else if IsSpace(s[0]) {
      i, j := TrimIs(s[1..]);
      assert s[1..][i..j] == s[i + 1..j + 1];
      assert forall k :: 1 <= k < |s| ==> s[k] == s[1..][k - 1];
      i, j := i + 1, j + 1;
    } else if IsSpace(s[|s| - 1]) {
      i, j := TrimIs(s[..|s| - 1]);
      assert s[..|s| - 1][i..j] == s[i..j];
      assert forall k :: 0 <= k < |s| - 1 ==> s[k] == s[..|s| - 1][k];
    } else {
      i, j := 0, |s|;
    }
  }

  const LOWER := "abcdefghijklmnopqrstuvwxyz"
  const UPPER := "ABCDEFGHIJKLMNOPQRSTUVWXYZ"

  function UpperChar(c: char): char {
    if 'a' <= c <= 'z' then c - 'a' + 'A' else c
  }

  lemma {:induction false} LettersAre(k: nat)
    requires k < 26
    ensures LOWER[k] == 'a' + k as char && LOWER[k] in LOWER && UPPER[k] == 'A' + k as char
  {
  }

  lemma {:induction false} CapitalsAre(c: char, k: nat)
    ensures k < 26 && c == LOWER[k] ==> UpperChar(c) == UPPER[k]
    ensures c !in LOWER ==> UpperChar(c) == c
  {
    hide LOWER;
    hide UPPER;
    if k < 26 { LettersAre(k); }
    if 'a' <= c <= 'z' { LettersAre(c as int - 'a' as int); }
  }

  function Upper(s: string): (u: string)
    ensures |u| == |s| && forall i :: 0 <= i < |s| ==> u[i] == UpperChar(s[i])
  {
    seq(|s|, i requires 0 <= i < |s| => UpperChar(s[i]))
  }

  function NormalizeAction(action: Option<string>): string {
    Upper(Trim(if action.Some? then action.value else "no action"))
  }

  /** What the catalog calls a type and what the snapshot does. */
  lemma {:induction false} CanonicalTypeIs(r: ColumnRow, n: nat)
    ensures r.dataType == "USER-DEFINED" ==> CanonicalType(r) == r.udtName
    ensures r.dataType == "character varying" && r.maxLength == Some(n) ==> CanonicalType(r) == "varchar(" + Decimal(n) + ")"
    ensures r.dataType == "character varying" && r.maxLength == None ==> CanonicalType(r) == "varchar"
    ensures r.dataType == "character" && r.maxLength == Some(n) ==> CanonicalType(r) == "char(" + Decimal(n) + ")"
    ensures r.dataType == "character" && r.maxLength == None ==> CanonicalType(r) == "char"
    ensures r.dataType !in ["USER-DEFINED", "character varying", "character"] ==> CanonicalType(r) == r.dataType
  {
  }

  /** An absent action is the default one. */
  lemma {:induction false} ActionIs(action: Option<string>)
    ensures action.None? ==> NormalizeAction(action) == "NO ACTION"
    ensures action.Some? ==> NormalizeAction(action) == Upper(Trim(action.value))
  {
    var s := "no action";
    TrimKeeps(s);
    assert Upper(s) == "NO ACTION";
  }

  lemma {:induction false} TrimKeeps(s: string)
    requires s != "" && !IsSpace(s[0]) && !IsSpace(s[|s| - 1])
    ensures Trim(s) == s
  {
  }

  lemma {:induction false} TrimNothing(s: string)
    requires s == ""
    ensures Trim(s) == ""
  {
  }

  lemma {:induction false} NormalizedIs(action: Option<string>)
    ensures NormalizeAction(action) == Upper(Trim(if action.Some? then action.value else "no action"))
  {
  }

  lemma {:induction false} UpperStays(s: string)
    ensures Upper(Upper(s)) == Upper(s)
    ensures s != "" ==> (IsSpace(Upper(s)[0]) <==> IsSpace(s[0])) && (IsSpace(Upper(s)[|s| - 1]) <==> IsSpace(s[|s| - 1]))
  {
  }

  /** Normalizing twice is normalizing once, so both sides of a comparison can do it. */
  lemma {:induction false} NormalizedStays(action: Option<string>)
    ensures NormalizeAction(Some(NormalizeAction(action))) == NormalizeAction(action)
  {
    var t := Trim(if action.Some? then action.value else "no action");
    UpperStays(t);
    var i, j := TrimIs(if action.Some? then action.value else "no action");
    hide *;
    if t != "" { TrimKeeps(Upper(t)); } else { TrimNothing(Upper(t)); }
    NormalizedIs(action);
    NormalizedIs(Some(Upper(t)));
  }

  // ---- What comes from which rows ------------------------------------------------------------------

  function Lookup<V>(m: map<string, V>, name: string): Option<V> {
    if name in m then Some(m[name]) else None
  }

  function TableOf(tables: map<string, Table>, t: string): Table {
    if t in tables then tables[t] else Table(t, map[], map[], map[], [])
  }

  function IsColumn(t: string, c: string): ColumnRow -> bool {
    (r: ColumnRow) => r.table == t && r.column == c
  }

  function IsIndex(t: string, i: string): IndexRow -> bool {
    (r: IndexRow) => r.table == t && r.index == i
  }

  function IsKey(t: string, k: string): KeyRow -> bool {
    (r: KeyRow) => r.tableFrom == t && r.key == k
  }

  function IsPrimary(t: string): PrimaryRow -> bool {
    (r: PrimaryRow) => r.table == t
  }

  function IsEnum(n: string): EnumRow -> bool {
    (r: EnumRow) => r.name == n
  }

  function ByIndexOrd(): (IndexRow, IndexRow) -> bool {
    (a: IndexRow, b: IndexRow) => a.ord <= b.ord
  }

  function ByKeyOrd(): (KeyRow, KeyRow) -> bool {
    (a: KeyRow, b: KeyRow) => a.ord <= b.ord
  }

  function ByPrimaryOrd(): (PrimaryRow, PrimaryRow) -> bool {
    (a: PrimaryRow, b: PrimaryRow) => a.ord <= b.ord
  }

  function Map<A, B>(s: seq<A>, f: A -> B): (r: seq<B>)
    ensures |r| == |s| && forall i :: 0 <= i < |s| ==> r[i] == f(s[i])
  {
    seq(|s|, i requires 0 <= i < |s| => f(s[i]))
  }

  function ColumnFrom(rows: seq<ColumnRow>): Option<Column> {
    if rows == [] then None
    else
      var r := rows[|rows| - 1];
      Some(Column(r.column, CanonicalType(r), r.isNullable == "NO"))
  }

  function IndexFrom(rows: seq<IndexRow>): Option<Index> {
    if rows == [] then None
    else Some(Index(rows[0].index, Map(rows, (r: IndexRow) => r.column), rows[0].isUnique))
  }

  function KeyFrom(rows: seq<KeyRow>): Option<ForeignKey> {
    if rows == [] then None
    else
      var r := rows[0];
      Some(ForeignKey(r.key, Map(rows, (r: KeyRow) => r.colFrom), r.tableTo, Map(rows, (r: KeyRow) => r.colTo),
                      NormalizeAction(Some(r.onDelete)), NormalizeAction(Some(r.onUpdate))))
  }

  function PrimaryFrom(rows: seq<PrimaryRow>): seq<string> {
    Map(rows, (r: PrimaryRow) => r.column)
  }

  function EnumFrom(rows: seq<EnumRow>): Option<seq<string>> {
    if rows == [] then None else Some(Map(rows, (r: EnumRow) => r.value))
  }

  function ColumnTable(): ColumnRow -> string { (r: ColumnRow) => r.table }

  function IndexTable(): IndexRow -> string { (r: IndexRow) => r.table }

  function KeyTable(): KeyRow -> string { (r: KeyRow) => r.tableFrom }

  function PrimaryTable(): PrimaryRow -> string { (r: PrimaryRow) => r.table }

  ghost predicate OnTable<T>(rows: seq<T>, table: T -> string, t: string) {
    exists i :: 0 <= i < |rows| && table(rows[i]) == t
  }

  lemma {:induction false} NoRows<T>(rows: seq<T>, table: T -> string, t: string)
    requires |rows| == 0
    ensures !OnTable(rows, table, t)
  {
  }

  lemma {:induction false} OnTableMore<T>(rows: seq<T>, r: T, table: T -> string, t: string)
    ensures OnTable(rows + [r], table, t) <==> OnTable(rows, table, t) || table(r) == t
  {
    var more := rows + [r];
    assert more[|rows|] == r;
    if OnTable(rows, table, t) {
      var i :| 0 <= i < |rows| && table(rows[i]) == t;
      assert more[i] == rows[i];
    }
  }

  ghost predicate Mentions(raw: Raw, t: string) {
    || t in raw.tables
    || OnTable(raw.columns, ColumnTable(), t)
    || OnTable(raw.indexes, IndexTable(), t)
    || OnTable(raw.foreignKeys, KeyTable(), t)
    || OnTable(raw.primaryKeys, PrimaryTable(), t)
  }

  ghost predicate HasColumns(tables: map<string, Table>, rows: seq<ColumnRow>) {
    forall t, c :: Lookup(TableOf(tables, t).columns, c) == ColumnFrom(Filter(rows, IsColumn(t, c)))
  }

  ghost predicate HasIndexes(tables: map<string, Table>, rows: seq<IndexRow>) {
    forall t, i :: Lookup(TableOf(tables, t).indexes, i) == IndexFrom(Filter(rows, IsIndex(t, i)))
  }

  ghost predicate HasKeys(tables: map<string, Table>, rows: seq<KeyRow>) {
    forall t, k :: Lookup(TableOf(tables, t).foreignKeys, k) == KeyFrom(Filter(rows, IsKey(t, k)))
  }

  ghost predicate HasPrimaries(tables: map<string, Table>, rows: seq<PrimaryRow>) {
    forall t :: TableOf(tables, t).primaryKeyColumns == PrimaryFrom(Filter(rows, IsPrimary(t)))
  }

  ghost predicate HasEnums(enums: map<string, seq<string>>, rows: seq<EnumRow>) {
    forall n :: Lookup(enums, n) == EnumFrom(Filter(rows, IsEnum(n)))
  }

  // ---- Assembly ------------------------------------------------------------------------------------

  ghost predicate OnlyColumns(before: map<string, Table>, after: map<string, Table>) {
    forall t :: TableOf(after, t) == TableOf(before, t).(columns := TableOf(after, t).columns)
  }

  ghost predicate OnlyIndexes(before: map<string, Table>, after: map<string, Table>) {
    forall t :: TableOf(after, t) == TableOf(before, t).(indexes := TableOf(after, t).indexes)
  }

  ghost predicate OnlyKeys(before: map<string, Table>, after: map<string, Table>) {
    forall t :: TableOf(after, t) == TableOf(before, t).(foreignKeys := TableOf(after, t).foreignKeys)
  }

  ghost predicate OnlyPrimaries(before: map<string, Table>, after: map<string, Table>) {
    forall t :: TableOf(after, t) == TableOf(before, t).(primaryKeyColumns := TableOf(after, t).primaryKeyColumns)
  }

  function WithColumn(tables: map<string, Table>, r: ColumnRow): map<string, Table> {
    var t := TableOf(tables, r.table);
    tables[r.table := t.(columns := t.columns[r.column := Column(r.column, CanonicalType(r), r.isNullable == "NO")])]
  }

  lemma {:induction false} ColumnStep(tables: map<string, Table>, rows: seq<ColumnRow>, r: ColumnRow)
    requires HasColumns(tables, rows)
    ensures HasColumns(WithColumn(tables, r), rows + [r])
  {
    forall t, c ensures Lookup(TableOf(WithColumn(tables, r), t).columns, c)
      == ColumnFrom(Filter(rows + [r], IsColumn(t, c)))
    {
      FilterAppend(rows, r, IsColumn(t, c));
      hide Filter;
      assert Lookup(TableOf(tables, t).columns, c) == ColumnFrom(Filter(rows, IsColumn(t, c)));
    }
  }

  method AddColumns(before: map<string, Table>, rows: seq<ColumnRow>) returns (tables: map<string, Table>)
    requires Named(before) && HasColumns(before, [])
    ensures Named(tables) && HasColumns(tables, rows) && OnlyColumns(before, tables)
    ensures forall t :: t in tables <==> t in before || OnTable(rows, ColumnTable(), t)
  {
    hide HasColumns;
    hide OnTable;
    hide NormalizeAction;
    hide CanonicalType;
    hide Filter;
    tables := before;
    var k := 0;
    forall t ensures !OnTable(rows[..0], ColumnTable(), t) { NoRows(rows[..0], ColumnTable(), t); }
    while k < |rows|
      invariant k <= |rows| && Named(tables) && HasColumns(tables, rows[..k]) && OnlyColumns(before, tables)
      invariant forall t :: t in tables <==> t in before || OnTable(rows[..k], ColumnTable(), t)
    {
      forall t
        ensures OnTable(rows[..k] + [rows[k]], ColumnTable(), t)
           <==> OnTable(rows[..k], ColumnTable(), t) || ColumnTable()(rows[k]) == t
      {
        OnTableMore(rows[..k], rows[k], ColumnTable(), t);
      }
      ColumnStep(tables, rows[..k], rows[k]);
      assert rows[..k] + [rows[k]] == rows[..k + 1];
      tables := WithColumn(tables, rows[k]);
      k := k + 1;
    }
    assert rows[..k] == rows;
  }

  function WithIndex(tables: map<string, Table>, r: IndexRow): map<string, Table> {
    var t := TableOf(tables, r.table);
    var index := if r.index in t.indexes then t.indexes[r.index] else Index(r.index, [], r.isUnique);
    tables[r.table := t.(indexes := t.indexes[r.index := index.(columns := index.columns + [r.column])])]
  }

  lemma {:induction false} IndexFromMore(rows: seq<IndexRow>, r: IndexRow)
    ensures IndexFrom(rows + [r])
         == var index := if IndexFrom(rows).Some? then IndexFrom(rows).value else Index(r.index, [], r.isUnique);
            Some(index.(columns := index.columns + [r.column]))
  {
    var more := IndexFrom(rows + [r]).value;
    if rows == [] {
      assert rows + [r] == [r];
      assert more.columns == [] + [r.column];
    } else {
      assert more.columns == IndexFrom(rows).value.columns + [r.column];
    }
  }

  lemma {:induction false} IndexStep(tables: map<string, Table>, rows: seq<IndexRow>, r: IndexRow)
    requires HasIndexes(tables, rows)
    ensures HasIndexes(WithIndex(tables, r), rows + [r])
  {
    forall t, i ensures Lookup(TableOf(WithIndex(tables, r), t).indexes, i)
      == IndexFrom(Filter(rows + [r], IsIndex(t, i)))
    {
      FilterAppend(rows, r, IsIndex(t, i));
      IndexFromMore(Filter(rows, IsIndex(t, i)), r);
      hide Filter;
      hide IndexFrom;
      assert Lookup(TableOf(tables, t).indexes, i) == IndexFrom(Filter(rows, IsIndex(t, i)));
    }
  }

  method AddIndexes(before: map<string, Table>, rows: seq<IndexRow>) returns (tables: map<string, Table>)
    requires Named(before) && HasIndexes(before, [])
    ensures Named(tables) && HasIndexes(tables, rows) && OnlyIndexes(before, tables)
    ensures forall t :: t in tables <==> t in before || OnTable(rows, IndexTable(), t)
  {
    hide HasIndexes;
    hide OnTable;
    hide NormalizeAction;
    hide CanonicalType;
    hide Filter;
    tables := before;
    var k := 0;
    forall t ensures !OnTable(rows[..0], IndexTable(), t) { NoRows(rows[..0], IndexTable(), t); }
    while k < |rows|
      invariant k <= |rows| && Named(tables) && HasIndexes(tables, rows[..k]) && OnlyIndexes(before, tables)
      invariant forall t :: t in tables <==> t in before || OnTable(rows[..k], IndexTable(), t)
    {
      forall t
        ensures OnTable(rows[..k] + [rows[k]], IndexTable(), t)
           <==> OnTable(rows[..k], IndexTable(), t) || IndexTable()(rows[k]) == t
      {
        OnTableMore(rows[..k], rows[k], IndexTable(), t);
      }
      IndexStep(tables, rows[..k], rows[k]);
      assert rows[..k] + [rows[k]] == rows[..k + 1];
      tables := WithIndex(tables, rows[k]);
      k := k + 1;
    }
    assert rows[..k] == rows;
  }

  function WithKey(tables: map<string, Table>, r: KeyRow): map<string, Table> {
    var t := TableOf(tables, r.tableFrom);
    var key := if r.key in t.foreignKeys then t.foreignKeys[r.key]
               else ForeignKey(r.key, [], r.tableTo, [],
                               NormalizeAction(Some(r.onDelete)), NormalizeAction(Some(r.onUpdate)));
    tables[r.tableFrom := t.(foreignKeys := t.foreignKeys[r.key :=
      key.(columnsFrom := key.columnsFrom + [r.colFrom], columnsTo := key.columnsTo + [r.colTo])])]
  }

  lemma {:induction false} KeyFromMore(rows: seq<KeyRow>, r: KeyRow)
    ensures KeyFrom(rows + [r])
         == var key := if KeyFrom(rows).Some? then KeyFrom(rows).value
                       else ForeignKey(r.key, [], r.tableTo, [],
                                       NormalizeAction(Some(r.onDelete)), NormalizeAction(Some(r.onUpdate)));
            Some(key.(columnsFrom := key.columnsFrom + [r.colFrom], columnsTo := key.columnsTo + [r.colTo]))
  {
    var more := KeyFrom(rows + [r]).value;
    hide NormalizeAction;
    if rows == [] {
      assert rows + [r] == [r];
      assert more.columnsFrom == [] + [r.colFrom] && more.columnsTo == [] + [r.colTo];
    } else {
      assert more.columnsFrom == KeyFrom(rows).value.columnsFrom + [r.colFrom];
      assert more.columnsTo == KeyFrom(rows).value.columnsTo + [r.colTo];
    }
  }

  lemma {:induction false} KeyStep(tables: map<string, Table>, rows: seq<KeyRow>, r: KeyRow)
    requires HasKeys(tables, rows)
    ensures HasKeys(WithKey(tables, r), rows + [r])
  {
    forall t, k ensures Lookup(TableOf(WithKey(tables, r), t).foreignKeys, k)
      == KeyFrom(Filter(rows + [r], IsKey(t, k)))
    {
      FilterAppend(rows, r, IsKey(t, k));
      KeyFromMore(Filter(rows, IsKey(t, k)), r);
      hide Filter;
      hide KeyFrom;
      hide NormalizeAction;
      assert Lookup(TableOf(tables, t).foreignKeys, k) == KeyFrom(Filter(rows, IsKey(t, k)));
    }
  }

  method AddForeignKeys(before: map<string, Table>, rows: seq<KeyRow>) returns (tables: map<string, Table>)
    requires Named(before) && HasKeys(before, [])
    ensures Named(tables) && HasKeys(tables, rows) && OnlyKeys(before, tables)
    ensures forall t :: t in tables <==> t in before || OnTable(rows, KeyTable(), t)
  {
    hide HasKeys;
    hide OnTable;
    hide NormalizeAction;
    hide CanonicalType;
    hide Filter;
    tables := before;
    var k := 0;
    forall t ensures !OnTable(rows[..0], KeyTable(), t) { NoRows(rows[..0], KeyTable(), t); }
    while k < |rows|
      invariant k <= |rows| && Named(tables) && HasKeys(tables, rows[..k]) && OnlyKeys(before, tables)
      invariant forall t :: t in tables <==> t in before || OnTable(rows[..k], KeyTable(), t)
    {
      forall t
        ensures OnTable(rows[..k] + [rows[k]], KeyTable(), t)
           <==> OnTable(rows[..k], KeyTable(), t) || KeyTable()(rows[k]) == t
      {
        OnTableMore(rows[..k], rows[k], KeyTable(), t);
      }
      KeyStep(tables, rows[..k], rows[k]);
      assert rows[..k] + [rows[k]] == rows[..k + 1];
      tables := WithKey(tables, rows[k]);
      k := k + 1;
    }
    assert rows[..k] == rows;
  }

  function WithPrimary(tables: map<string, Table>, r: PrimaryRow): map<string, Table> {
    var t := TableOf(tables, r.table);
    tables[r.table := t.(primaryKeyColumns := t.primaryKeyColumns + [r.column])]
  }

  lemma {:induction false} PrimaryStep(tables: map<string, Table>, rows: seq<PrimaryRow>, r: PrimaryRow)
    requires HasPrimaries(tables, rows)
    ensures HasPrimaries(WithPrimary(tables, r), rows + [r])
  {
    forall t ensures TableOf(WithPrimary(tables, r), t).primaryKeyColumns
      == PrimaryFrom(Filter(rows + [r], IsPrimary(t)))
    {
      FilterAppend(rows, r, IsPrimary(t));
      hide Filter;
      assert TableOf(tables, t).primaryKeyColumns == PrimaryFrom(Filter(rows, IsPrimary(t)));
    }
  }

  method AddPrimaryKeys(before: map<string, Table>, rows: seq<PrimaryRow>) returns (tables: map<string, Table>)
    requires Named(before) && HasPrimaries(before, [])
    ensures Named(tables) && HasPrimaries(tables, rows) && OnlyPrimaries(before, tables)
    ensures forall t :: t in tables <==> t in before || OnTable(rows, PrimaryTable(), t)
  {
    hide HasPrimaries;
    hide OnTable;
    hide NormalizeAction;
    hide CanonicalType;
    hide Filter;
    tables := before;
    var k := 0;
    forall t ensures !OnTable(rows[..0], PrimaryTable(), t) { NoRows(rows[..0], PrimaryTable(), t); }
    while k < |rows|
      invariant k <= |rows| && Named(tables) && HasPrimaries(tables, rows[..k]) && OnlyPrimaries(before, tables)
      invariant forall t :: t in tables <==> t in before || OnTable(rows[..k], PrimaryTable(), t)
    {
      forall t
        ensures OnTable(rows[..k] + [rows[k]], PrimaryTable(), t)
           <==> OnTable(rows[..k], PrimaryTable(), t) || PrimaryTable()(rows[k]) == t
      {
        OnTableMore(rows[..k], rows[k], PrimaryTable(), t);
      }
      PrimaryStep(tables, rows[..k], rows[k]);
      assert rows[..k] + [rows[k]] == rows[..k + 1];
      tables := WithPrimary(tables, rows[k]);
      k := k + 1;
    }
    assert rows[..k] == rows;
  }

  method SortPrimaryKeys(before: map<string, Table>) returns (tables: map<string, Table>)
    requires Named(before)
    ensures Named(tables) && tables.Keys == before.Keys && OnlyPrimaries(before, tables)
    ensures forall t :: TableOf(tables, t).primaryKeyColumns == Sort(TableOf(before, t).primaryKeyColumns, StringLe)
  {
    tables := before;
    var remaining := before.Keys;
    while |remaining| != 0
      invariant remaining <= before.Keys == tables.Keys && Named(tables) && OnlyPrimaries(before, tables)
      invariant forall t :: t in remaining ==> tables[t] == before[t]
      invariant forall t :: t !in remaining ==>
        TableOf(tables, t).primaryKeyColumns == Sort(TableOf(before, t).primaryKeyColumns, StringLe)
      decreases |remaining|
    {
      var t :| t in remaining;
      tables := tables[t := tables[t].(primaryKeyColumns := Sort(tables[t].primaryKeyColumns, StringLe))];
      remaining := remaining - {t};
    }
  }

  function WithEnum(enums: map<string, seq<string>>, r: EnumRow): map<string, seq<string>> {
    enums[r.name := (if r.name in enums then enums[r.name] else []) + [r.value]]
  }

  lemma {:induction false} EnumFromMore(rows: seq<EnumRow>, r: EnumRow)
    ensures EnumFrom(rows + [r]) == Some((if EnumFrom(rows).Some? then EnumFrom(rows).value else []) + [r.value])
  {
    var more := EnumFrom(rows + [r]).value;
    if rows == [] {
      assert rows + [r] == [r];
      assert more == [] + [r.value];
    } else {
      assert more == EnumFrom(rows).value + [r.value];
    }
  }

  lemma {:induction false} EnumStep(enums: map<string, seq<string>>, rows: seq<EnumRow>, r: EnumRow)
    requires HasEnums(enums, rows)
    ensures HasEnums(WithEnum(enums, r), rows + [r])
  {
    forall n ensures Lookup(WithEnum(enums, r), n) == EnumFrom(Filter(rows + [r], IsEnum(n))) {
      FilterAppend(rows, r, IsEnum(n));
      EnumFromMore(Filter(rows, IsEnum(n)), r);
      hide Filter;
      hide EnumFrom;
      assert Lookup(enums, n) == EnumFrom(Filter(rows, IsEnum(n)));
    }
  }

  method AddEnums(rows: seq<EnumRow>) returns (enums: map<string, seq<string>>)
    ensures HasEnums(enums, rows)
  {
    enums := map[];
    var k := 0;
    while k < |rows|
      invariant k <= |rows| && HasEnums(enums, rows[..k])
    {
      EnumStep(enums, rows[..k], rows[k]);
      assert rows[..k] + [rows[k]] == rows[..k + 1];
      hide HasEnums;
      enums := WithEnum(enums, rows[k]);
      k := k + 1;
    }
    assert rows[..k] == rows;
  }

  method EnsureTables(names: seq<string>) returns (tables: map<string, Table>)
    ensures Named(tables)
    ensures forall t :: t in tables <==> t in names
    ensures forall t :: TableOf(tables, t) == Table(t, map[], map[], map[], [])
  {
    tables := map[];
    var k := 0;
    while k < |names|
      invariant k <= |names| && Named(tables)
      invariant forall t :: t in tables <==> t in names[..k]
      invariant forall t :: TableOf(tables, t) == Table(t, map[], map[], map[], [])
    {
      tables := tables[names[k] := TableOf(tables, names[k])];
      k := k + 1;
    }
  }

  /** Where everything in an assembled schema comes from. */
  ghost predicate Assembles(raw: Raw, s: Schema) {
    && Named(s.tables) && (forall t :: t in s.tables <==> Mentions(raw, t))
    && HasColumns(s.tables, raw.columns)
    && HasIndexes(s.tables, Sort(raw.indexes, ByIndexOrd()))
    && HasKeys(s.tables, Sort(raw.foreignKeys, ByKeyOrd()))
    && (forall t :: TableOf(s.tables, t).primaryKeyColumns
                    == Sort(PrimaryFrom(Filter(Sort(raw.primaryKeys, ByPrimaryOrd()), IsPrimary(t))), StringLe))
    && HasEnums(s.enums, raw.enums)
  }

  /** The tables after some of the rows have been added. */
  ghost predicate Holds(tables: map<string, Table>, columns: seq<ColumnRow>, indexes: seq<IndexRow>, keys: seq<KeyRow>,
      primaries: seq<PrimaryRow>) {
    && HasColumns(tables, columns) && HasIndexes(tables, indexes)
    && HasKeys(tables, keys) && HasPrimaries(tables, primaries)
  }

  lemma {:induction false} NothingYet(tables: map<string, Table>)
    requires forall t :: TableOf(tables, t) == Table(t, map[], map[], map[], [])
    ensures Holds(tables, [], [], [], [])
  {
  }

  lemma {:induction false} ColumnsAdded(before: map<string, Table>, after: map<string, Table>, rows: seq<ColumnRow>)
    requires Holds(before, [], [], [], []) && HasColumns(after, rows) && OnlyColumns(before, after)
    ensures Holds(after, rows, [], [], [])
  {
    hide Filter;
    hide TableOf;
  }

  lemma {:induction false} IndexesAdded(before: map<string, Table>, after: map<string, Table>, columns: seq<ColumnRow>,
      rows: seq<IndexRow>)
    requires Holds(before, columns, [], [], []) && HasIndexes(after, rows) && OnlyIndexes(before, after)
    ensures Holds(after, columns, rows, [], [])
  {
    hide Filter;
    hide TableOf;
  }

  lemma {:induction false} KeysAdded(before: map<string, Table>, after: map<string, Table>, columns: seq<ColumnRow>,
      indexes: seq<IndexRow>, rows: seq<KeyRow>)
    requires Holds(before, columns, indexes, [], []) && HasKeys(after, rows) && OnlyKeys(before, after)
    ensures Holds(after, columns, indexes, rows, [])
  {
    hide Filter;
    hide TableOf;
  }

  lemma {:induction false} PrimariesAdded(before: map<string, Table>, after: map<string, Table>,
      columns: seq<ColumnRow>, indexes: seq<IndexRow>, keys: seq<KeyRow>, rows: seq<PrimaryRow>)
    requires Holds(before, columns, indexes, keys, []) && HasPrimaries(after, rows) && OnlyPrimaries(before, after)
    ensures Holds(after, columns, indexes, keys, rows)
  {
    hide Filter;
    hide TableOf;
  }

  lemma {:induction false} PrimariesSorted(before: map<string, Table>, after: map<string, Table>,
      columns: seq<ColumnRow>, indexes: seq<IndexRow>, keys: seq<KeyRow>, rows: seq<PrimaryRow>)
    requires Holds(before, columns, indexes, keys, rows) && OnlyPrimaries(before, after)
    requires forall t :: TableOf(after, t).primaryKeyColumns == Sort(TableOf(before, t).primaryKeyColumns, StringLe)
    ensures HasColumns(after, columns) && HasIndexes(after, indexes) && HasKeys(after, keys)
    ensures forall t :: TableOf(after, t).primaryKeyColumns == Sort(PrimaryFrom(Filter(rows, IsPrimary(t))), StringLe)
  {
    hide Filter;
    hide Sort;
    hide TableOf;
  }

  lemma {:induction false} SameTables<T(!new)>(a: seq<T>, b: seq<T>, table: T -> string, t: string)
    requires multiset(a) == multiset(b)
    ensures OnTable(a, table, t) <==> OnTable(b, table, t)
  {
    if OnTable(a, table, t) {
      var i :| 0 <= i < |a| && table(a[i]) == t;
      assert a[i] in multiset(a) && a[i] in multiset(b);
      var j :| 0 <= j < |b| && b[j] == a[i];
    }
    if OnTable(b, table, t) {
      var i :| 0 <= i < |b| && table(b[i]) == t;
      assert b[i] in multiset(b) && b[i] in multiset(a);
      var j :| 0 <= j < |a| && a[j] == b[i];
    }
  }

  lemma {:induction false} SortedMentions(raw: Raw, t: string)
    ensures Mentions(raw, t) <==>
      || t in raw.tables
      || OnTable(raw.columns, ColumnTable(), t)
      || OnTable(Sort(raw.indexes, ByIndexOrd()), IndexTable(), t)
      || OnTable(Sort(raw.foreignKeys, ByKeyOrd()), KeyTable(), t)
      || OnTable(Sort(raw.primaryKeys, ByPrimaryOrd()), PrimaryTable(), t)
  {
    hide OnTable;
    hide Sort;
    SortSorts(raw.indexes, ByIndexOrd());
    SortSorts(raw.foreignKeys, ByKeyOrd());
    SortSorts(raw.primaryKeys, ByPrimaryOrd());
    hide Sorted;
    hide TotalPreorder;
    SameTables(raw.indexes, Sort(raw.indexes, ByIndexOrd()), IndexTable(), t);
    SameTables(raw.foreignKeys, Sort(raw.foreignKeys, ByKeyOrd()), KeyTable(), t);
    SameTables(raw.primaryKeys, Sort(raw.primaryKeys, ByPrimaryOrd()), PrimaryTable(), t);
  }

  method AssembleLiveSchema(raw: Raw) returns (s: Schema)
    ensures Assembles(raw, s)
  {
    hide HasColumns;
    hide HasIndexes;
    hide HasKeys;
    hide HasPrimaries;
    hide HasEnums;
    hide OnlyColumns;
    hide OnlyIndexes;
    hide OnlyKeys;
    hide OnlyPrimaries;
    hide OnTable;
    hide Mentions;
    hide Named;
    hide TableOf;
    hide Sort;
    hide Filter;
    var t0 := EnsureTables(raw.tables);
    NothingYet(t0);
    var t1 := AddColumns(t0, raw.columns);
    ColumnsAdded(t0, t1, raw.columns);
    var indexRows := Sort(raw.indexes, ByIndexOrd());
    var t2 := AddIndexes(t1, indexRows);
    IndexesAdded(t1, t2, raw.columns, indexRows);
    var keyRows := Sort(raw.foreignKeys, ByKeyOrd());
    var t3 := AddForeignKeys(t2, keyRows);
    KeysAdded(t2, t3, raw.columns, indexRows, keyRows);
    var primaryRows := Sort(raw.primaryKeys, ByPrimaryOrd());
    var t4 := AddPrimaryKeys(t3, primaryRows);
    PrimariesAdded(t3, t4, raw.columns, indexRows, keyRows, primaryRows);
    var t5 := SortPrimaryKeys(t4);
    PrimariesSorted(t4, t5, raw.columns, indexRows, keyRows, primaryRows);
    var enums := AddEnums(raw.enums);
    forall t ensures t in t5 <==> Mentions(raw, t) { SortedMentions(raw, t); }
    s := Schema(t5, enums);
  }

  // ---- Round trip ----------------------------------------------------------------------------------

  /**
   The catalog's rows of an index: one per column, with rising numbers. Parts of the index that are
   expressions have a number but no row, so there may be gaps.
   */
  ghost predicate AreIndexRows(rows: seq<IndexRow>, t: string, i: string, index: Option<Index>) {
    && |rows| == (if index.Some? then |index.value.columns| else 0)
    && (forall k :: 0 <= k < |rows| ==>
          rows[k] == IndexRow(i, t, index.value.isUnique, index.value.columns[k], rows[k].ord))
    && forall k, l :: 0 <= k < l < |rows| ==> rows[k].ord < rows[l].ord
  }

  ghost predicate DescribesIndex(rows: seq<IndexRow>, t: string, i: string, index: Option<Index>) {
    exists inOrder :: AreIndexRows(inOrder, t, i, index) && multiset(rows) == multiset(inOrder)
  }

  function KeyRows(t: string, k: string, key: Option<ForeignKey>): seq<KeyRow>
    requires key.Some? ==> |key.value.columnsFrom| == |key.value.columnsTo|
  {
    if key.None? then []
    else seq(|key.value.columnsFrom|, n requires 0 <= n < |key.value.columnsFrom| =>
           KeyRow(k, t, key.value.tableTo, key.value.columnsFrom[n], key.value.columnsTo[n],
                  key.value.onDelete, key.value.onUpdate, n + 1))
  }

  ghost predicate DescribesColumn(rows: seq<ColumnRow>, column: Option<Column>) {
    match column
    case None => rows == []
    case Some(col) =>
      rows != [] && forall r :: r in rows ==>
        CanonicalType(r) == col.columnType && (r.isNullable == "NO" <==> col.notNull)
  }

  /** A foreign key has as many columns on one side as on the other. */
  ghost predicate Paired(s: Schema) {
    forall t, k :: k in TableOf(s.tables, t).foreignKeys ==>
      |TableOf(s.tables, t).foreignKeys[k].columnsFrom| == |TableOf(s.tables, t).foreignKeys[k].columnsTo|
  }

  /** `raw` holds the rows of `s`, foreign keys aside; those of indexes and primary keys in any order. */
  ghost predicate DescribesButKeys(raw: Raw, s: Schema) {
    && (forall t :: Mentions(raw, t) <==> t in s.tables)
    && (forall t, c :: DescribesColumn(Filter(raw.columns, IsColumn(t, c)), Lookup(TableOf(s.tables, t).columns, c)))
    && (forall t, i :: DescribesIndex(Filter(raw.indexes, IsIndex(t, i)), t, i, Lookup(TableOf(s.tables, t).indexes, i)))
    && (forall t :: multiset(PrimaryFrom(Filter(raw.primaryKeys, IsPrimary(t))))
                    == multiset(TableOf(s.tables, t).primaryKeyColumns))
    && (forall n :: Map(Filter(raw.enums, IsEnum(n)), (r: EnumRow) => r.value)
                    == if n in s.enums then s.enums[n] else [])
  }

  /** `raw` holds the rows of `s`, and one row for each column of a foreign key. */
  ghost predicate Describes(raw: Raw, s: Schema)
    requires Paired(s)
  {
    && DescribesButKeys(raw, s)
    && (forall t, k :: multiset(Filter(raw.foreignKeys, IsKey(t, k)))
                       == multiset(KeyRows(t, k, Lookup(TableOf(s.tables, t).foreignKeys, k))))
  }

  /** Nothing in the schema is without rows of its own, and it is in canonical form. */
  ghost predicate Complete(s: Schema) {
    && (forall t, i :: i in TableOf(s.tables, t).indexes ==> TableOf(s.tables, t).indexes[i].columns != [])
    && (forall t, k :: k in TableOf(s.tables, t).foreignKeys ==> CompleteKey(TableOf(s.tables, t).foreignKeys[k]))
    && (forall t :: Sorted(TableOf(s.tables, t).primaryKeyColumns, StringLe))
    && (forall n :: n in s.enums ==> s.enums[n] != [])
  }

  ghost predicate CompleteKey(key: ForeignKey) {
    && key.columnsFrom != [] && |key.columnsFrom| == |key.columnsTo|
    && NormalizeAction(Some(key.onDelete)) == key.onDelete && NormalizeAction(Some(key.onUpdate)) == key.onUpdate
  }

  lemma {:induction false} IndexRowsAreNumbered(inOrder: seq<IndexRow>, t: string, i: string, index: Option<Index>)
    requires AreIndexRows(inOrder, t, i, index)
    ensures Sorted(inOrder, ByIndexOrd()) && NoTies(multiset(inOrder), ByIndexOrd())
  {
    forall x, y | x in multiset(inOrder) && y in multiset(inOrder) && ByIndexOrd()(x, y) && ByIndexOrd()(y, x)
      ensures x == y
    {
      assert x in inOrder && y in inOrder;
    }
  }

  /** Rows in any order, once sorted by their numbers, are the rows in order. */
  lemma {:induction false} IndexRowsComeBack(rows: seq<IndexRow>, inOrder: seq<IndexRow>, t: string, i: string,
      index: Option<Index>)
    requires AreIndexRows(inOrder, t, i, index) && multiset(Filter(rows, IsIndex(t, i))) == multiset(inOrder)
    ensures Filter(Sort(rows, ByIndexOrd()), IsIndex(t, i)) == inOrder
  {
    hide Sort;
    hide Filter;
    hide AreIndexRows;
    hide Sorted;
    hide NoTies;
    var mine := Filter(rows, IsIndex(t, i));
    FilterSort(rows, ByIndexOrd(), IsIndex(t, i));
    SortSorts(mine, ByIndexOrd());
    IndexRowsAreNumbered(inOrder, t, i, index);
    SortedIsUnique(inOrder, Sort(mine, ByIndexOrd()), ByIndexOrd());
  }

  lemma {:induction false} KeyRowsAreNumbered(t: string, k: string, key: Option<ForeignKey>)
    requires key.Some? ==> |key.value.columnsFrom| == |key.value.columnsTo|
    ensures Sorted(KeyRows(t, k, key), ByKeyOrd()) && NoTies(multiset(KeyRows(t, k, key)), ByKeyOrd())
  {
    var inOrder := KeyRows(t, k, key);
    forall x, y | x in multiset(inOrder) && y in multiset(inOrder) && ByKeyOrd()(x, y) && ByKeyOrd()(y, x)
      ensures x == y
    {
      assert x in inOrder && y in inOrder;
    }
  }

  lemma {:induction false} KeyRowsComeBack(rows: seq<KeyRow>, t: string, k: string, key: Option<ForeignKey>)
    requires key.Some? ==> |key.value.columnsFrom| == |key.value.columnsTo|
    requires multiset(Filter(rows, IsKey(t, k))) == multiset(KeyRows(t, k, key))
    ensures Filter(Sort(rows, ByKeyOrd()), IsKey(t, k)) == KeyRows(t, k, key)
  {
    hide Sort;
    hide Filter;
    hide KeyRows;
    hide Sorted;
    hide NoTies;
    var mine := Filter(rows, IsKey(t, k));
    FilterSort(rows, ByKeyOrd(), IsKey(t, k));
    SortSorts(mine, ByKeyOrd());
    KeyRowsAreNumbered(t, k, key);
    SortedIsUnique(KeyRows(t, k, key), Sort(mine, ByKeyOrd()), ByKeyOrd());
  }

  lemma {:induction false} IndexFromRows(inOrder: seq<IndexRow>, t: string, i: string, index: Option<Index>)
    requires AreIndexRows(inOrder, t, i, index)
    ensures IndexFrom(inOrder)
         == if index.None? || index.value.columns == [] then None
            else Some(Index(i, index.value.columns, index.value.isUnique))
  {
    if index.Some? && index.value.columns != [] {
      assert IndexFrom(inOrder).value.columns == index.value.columns;
    }
  }

  lemma {:induction false} KeyFromRows(t: string, k: string, key: Option<ForeignKey>)
    requires key.Some? ==> |key.value.columnsFrom| == |key.value.columnsTo|
    ensures KeyFrom(KeyRows(t, k, key))
         == if key.None? || key.value.columnsFrom == [] then None
            else Some(key.value.(name := k, onDelete := NormalizeAction(Some(key.value.onDelete)),
                                 onUpdate := NormalizeAction(Some(key.value.onUpdate))))
  {
    hide NormalizeAction;
    if key.Some? && key.value.columnsFrom != [] {
      assert KeyFrom(KeyRows(t, k, key)).value.columnsFrom == key.value.columnsFrom;
      assert KeyFrom(KeyRows(t, k, key)).value.columnsTo == key.value.columnsTo;
    }
  }

  lemma {:induction false} MapInsert<A, B>(x: A, s: seq<A>, leq: (A, A) -> bool, f: A -> B)
    ensures multiset(Map(Insert(x, s, leq), f)) == multiset(Map(s, f)) + multiset{f(x)}
  {
    if s == [] || !leq(s[0], x) {
      assert Map([x] + s, f) == [f(x)] + Map(s, f);
    } else {
      MapInsert(x, s[1..], leq, f);
      assert Map([s[0]] + Insert(x, s[1..], leq), f) == [f(s[0])] + Map(Insert(x, s[1..], leq), f);
      assert Map(s, f) == [f(s[0])] + Map(s[1..], f);
    }
  }

  lemma {:induction false} MapSort<A, B>(s: seq<A>, leq: (A, A) -> bool, f: A -> B)
    ensures multiset(Map(Sort(s, leq), f)) == multiset(Map(s, f))
  {
    if s != [] {
      MapSort(s[..|s| - 1], leq, f);
      MapInsert(s[|s| - 1], Sort(s[..|s| - 1], leq), leq, f);
      assert Map(s, f) == Map(s[..|s| - 1], f) + [f(s[|s| - 1])];
    }
  }

  lemma {:induction false} PrimariesComeBack(rows: seq<PrimaryRow>, t: string, columns: seq<string>)
    requires multiset(PrimaryFrom(Filter(rows, IsPrimary(t)))) == multiset(columns)
    ensures var sorted := Sort(PrimaryFrom(Filter(Sort(rows, ByPrimaryOrd()), IsPrimary(t))), StringLe);
            Sorted(columns, StringLe) <==> sorted == columns
  {
    FilterSort(rows, ByPrimaryOrd(), IsPrimary(t));
    MapSort(Filter(rows, IsPrimary(t)), ByPrimaryOrd(), (r: PrimaryRow) => r.column);
    var live := PrimaryFrom(Filter(Sort(rows, ByPrimaryOrd()), IsPrimary(t)));
    hide Filter;
    hide Sort;
    StringLeOrders();
    SortSorts(live, StringLe);
    if Sorted(columns, StringLe) { SortStrings(live, columns); }
  }

  lemma {:induction false} ColumnsAgree(raw: Raw, s: Schema, a: Schema, t: string)
    requires Paired(s) && Describes(raw, s) && Assembles(raw, a)
    ensures MapsAgree(TableOf(s.tables, t).columns, TableOf(a.tables, t).columns, SameColumn())
  {
    var e, l := TableOf(s.tables, t).columns, TableOf(a.tables, t).columns;
    forall c ensures (c in e <==> c in l) && (c in e ==> SameColumn()(e[c], l[c])) {
      var rows := Filter(raw.columns, IsColumn(t, c));
      assert DescribesColumn(rows, Lookup(e, c));
      assert Lookup(l, c) == ColumnFrom(rows);
      hide Filter;
      if rows != [] { assert rows[|rows| - 1] in rows; }
    }
  }

  function Live(k: string, key: ForeignKey): ForeignKey {
    key.(name := k, onDelete := NormalizeAction(Some(key.onDelete)), onUpdate := NormalizeAction(Some(key.onUpdate)))
  }

  lemma {:induction false} LiveIndex(raw: Raw, s: Schema, a: Schema, t: string, i: string)
    requires Paired(s) && Describes(raw, s) && Assembles(raw, a)
    ensures var e := TableOf(s.tables, t).indexes;
            Lookup(TableOf(a.tables, t).indexes, i)
            == if i !in e || e[i].columns == [] then None else Some(Index(i, e[i].columns, e[i].isUnique))
  {
    var index := Lookup(TableOf(s.tables, t).indexes, i);
    assert DescribesIndex(Filter(raw.indexes, IsIndex(t, i)), t, i, index);
    var inOrder :| AreIndexRows(inOrder, t, i, index)
              && multiset(Filter(raw.indexes, IsIndex(t, i))) == multiset(inOrder);
    assert Lookup(TableOf(a.tables, t).indexes, i) == IndexFrom(Filter(Sort(raw.indexes, ByIndexOrd()), IsIndex(t, i)));
    hide Describes;
    hide Assembles;
    hide Filter;
    hide Sort;
    IndexRowsComeBack(raw.indexes, inOrder, t, i, index);
    hide IndexFrom;
    IndexFromRows(inOrder, t, i, index);
  }

  lemma {:induction false} IndexMapsAgree(e: map<string, Index>, l: map<string, Index>)
    requires forall i :: Lookup(l, i)
               == if i !in e || e[i].columns == [] then None else Some(Index(i, e[i].columns, e[i].isUnique))
    ensures MapsAgree(e, l, SameIndex()) <==> forall i :: i in e ==> e[i].columns != []
  {
    forall i | i in e && e[i].columns == [] ensures !MapsAgree(e, l, SameIndex()) {
      assert Lookup(l, i) == None;
    }
    if forall i :: i in e ==> e[i].columns != [] {
      forall i ensures (i in e <==> i in l) && (i in e ==> SameIndex()(e[i], l[i])) {
        assert Lookup(l, i) == if i !in e then None else Some(Index(i, e[i].columns, e[i].isUnique));
      }
    }
  }

  lemma {:induction false} LiveKey(raw: Raw, s: Schema, a: Schema, t: string, k: string)
    requires Paired(s) && Describes(raw, s) && Assembles(raw, a)
    ensures var e := TableOf(s.tables, t).foreignKeys;
            Lookup(TableOf(a.tables, t).foreignKeys, k)
            == if k !in e || e[k].columnsFrom == [] then None else Some(Live(k, e[k]))
  {
    var key := Lookup(TableOf(s.tables, t).foreignKeys, k);
    assert key.Some? ==> |key.value.columnsFrom| == |key.value.columnsTo|;
    assert multiset(Filter(raw.foreignKeys, IsKey(t, k))) == multiset(KeyRows(t, k, key));
    assert Lookup(TableOf(a.tables, t).foreignKeys, k)
              == KeyFrom(Filter(Sort(raw.foreignKeys, ByKeyOrd()), IsKey(t, k)));
    hide Describes;
    hide Assembles;
    hide Paired;
    hide Filter;
    hide Sort;
    hide NormalizeAction;
    KeyRowsComeBack(raw.foreignKeys, t, k, key);
    hide KeyFrom;
    KeyFromRows(t, k, key);
    hide KeyRows;
  }

  lemma {:induction false} KeyMapsAgree(e: map<string, ForeignKey>, l: map<string, ForeignKey>)
    requires forall k :: Lookup(l, k) == if k !in e || e[k].columnsFrom == [] then None else Some(Live(k, e[k]))
    requires forall k :: k in e ==> |e[k].columnsFrom| == |e[k].columnsTo|
    ensures MapsAgree(e, l, SameForeignKey()) <==> forall k :: k in e ==> CompleteKey(e[k])
  {
    hide NormalizeAction;
    forall k | k in e && !CompleteKey(e[k]) ensures !MapsAgree(e, l, SameForeignKey()) {
      assert Lookup(l, k) == if e[k].columnsFrom == [] then None else Some(Live(k, e[k]));
    }
    if forall k :: k in e ==> CompleteKey(e[k]) {
      forall k ensures (k in e <==> k in l) && (k in e ==> SameForeignKey()(e[k], l[k])) {
        assert Lookup(l, k) == if k !in e then None else Some(Live(k, e[k]));
      }
    }
  }

  lemma {:induction false} EnumsAgree(raw: Raw, s: Schema, a: Schema)
    requires Paired(s) && Describes(raw, s) && Assembles(raw, a)
    ensures s.enums == a.enums <==> forall n :: n in s.enums ==> s.enums[n] != []
  {
    forall n ensures Lookup(a.enums, n) == if n !in s.enums || s.enums[n] == [] then None else Some(s.enums[n]) {
      var rows := Filter(raw.enums, IsEnum(n));
      assert Lookup(a.enums, n) == EnumFrom(rows);
      assert Map(rows, (r: EnumRow) => r.value) == if n in s.enums then s.enums[n] else [];
    }
    hide Describes;
    hide Assembles;
    forall n | n in s.enums && s.enums[n] == [] ensures s.enums != a.enums {
      assert Lookup(a.enums, n) == None;
    }
    if forall n :: n in s.enums ==> s.enums[n] != [] {
      forall n ensures (n in s.enums <==> n in a.enums) && (n in s.enums ==> s.enums[n] == a.enums[n]) {
        assert Lookup(a.enums, n) == if n !in s.enums then None else Some(s.enums[n]);
      }
    }
  }

  lemma {:induction false} IndexesAgree(raw: Raw, s: Schema, a: Schema, t: string)
    requires Paired(s) && Describes(raw, s) && Assembles(raw, a)
    ensures var e, l := TableOf(s.tables, t).indexes, TableOf(a.tables, t).indexes;
            MapsAgree(e, l, SameIndex()) <==> forall i :: i in e ==> e[i].columns != []
  {
    hide *;
    var e, l := TableOf(s.tables, t).indexes, TableOf(a.tables, t).indexes;
    forall i
      ensures Lookup(l, i)
           == if i !in e || e[i].columns == [] then None else Some(Index(i, e[i].columns, e[i].isUnique))
    {
      LiveIndex(raw, s, a, t, i);
    }
    IndexMapsAgree(e, l);
  }

  lemma {:induction false} PairedIn(s: Schema, t: string)
    requires Paired(s)
    ensures var e := TableOf(s.tables, t).foreignKeys; forall k :: k in e ==> |e[k].columnsFrom| == |e[k].columnsTo|
  {
  }

  lemma {:induction false} KeysAgree(raw: Raw, s: Schema, a: Schema, t: string)
    requires Paired(s) && Describes(raw, s) && Assembles(raw, a)
    ensures var e, l := TableOf(s.tables, t).foreignKeys, TableOf(a.tables, t).foreignKeys;
            MapsAgree(e, l, SameForeignKey()) <==> forall k :: k in e ==> CompleteKey(e[k])
  {
    hide *;
    var e, l := TableOf(s.tables, t).foreignKeys, TableOf(a.tables, t).foreignKeys;
    forall k ensures Lookup(l, k) == if k !in e || e[k].columnsFrom == [] then None else Some(Live(k, e[k])) {
      LiveKey(raw, s, a, t, k);
    }
    PairedIn(s, t);
    KeyMapsAgree(e, l);
  }

  lemma {:induction false} TablesAgreeWhenComplete(raw: Raw, s: Schema, a: Schema, t: string)
    requires Paired(s) && Describes(raw, s) && Assembles(raw, a)
    ensures TablesAgree(TableOf(s.tables, t), TableOf(a.tables, t)) <==> CompleteTable(TableOf(s.tables, t))
  {
    hide MapsAgree;
    hide CompleteKey;
    hide Sorted;
    hide Sort;
    hide Filter;
    hide TableOf;
    PrimariesComeBack(raw.primaryKeys, t, TableOf(s.tables, t).primaryKeyColumns);
    ColumnsAgree(raw, s, a, t);
    IndexesAgree(raw, s, a, t);
    KeysAgree(raw, s, a, t);
  }

  /**
   A database that is described by the rows of a schema, given in any order, shows no difference from
   it exactly when every index, foreign key and enum of the schema has at least one column or value and
   the schema is in canonical form. An index on expressions alone has none, and always shows as drift.
   */
  lemma {:induction false} RoundTripExactly(raw: Raw, s: Schema, a: Schema)
    requires Paired(s) && Describes(raw, s) && Assembles(raw, a)
    ensures Agree(s, a) <==> Complete(s)
  {
    hide *;
    EnumsAgree(raw, s, a);
    SameTableNames(raw, s, a);
    forall t ensures TablesAgree(TableOf(s.tables, t), TableOf(a.tables, t)) <==> CompleteTable(TableOf(s.tables, t)) {
      TablesAgreeWhenComplete(raw, s, a, t);
    }
    AgreeByTable(s, a);
    CompleteByTable(s);
  }

  lemma {:induction false} SameTableNames(raw: Raw, s: Schema, a: Schema)
    requires Paired(s) && Describes(raw, s) && Assembles(raw, a)
    ensures s.tables.Keys == a.tables.Keys
  {
    hide Mentions;
    forall t ensures t in s.tables <==> t in a.tables {
      assert Mentions(raw, t) <==> t in s.tables;
    }
  }

  lemma {:induction false} AgreeByTable(s: Schema, a: Schema)
    requires s.tables.Keys == a.tables.Keys
    ensures Agree(s, a) <==> s.enums == a.enums && forall t :: TablesAgree(TableOf(s.tables, t), TableOf(a.tables, t))
  {
    hide TablesAgree;
    forall t | t !in s.tables ensures TablesAgree(TableOf(s.tables, t), TableOf(a.tables, t)) { EmptyAgrees(t); }
    forall t | t in s.tables ensures TableOf(s.tables, t) == s.tables[t] && TableOf(a.tables, t) == a.tables[t] {}
  }

  lemma {:induction false} EmptyAgrees(t: string)
    ensures TablesAgree(Table(t, map[], map[], map[], []), Table(t, map[], map[], map[], []))
  {
  }

  ghost predicate CompleteTable(t: Table) {
    && (forall i :: i in t.indexes ==> t.indexes[i].columns != [])
    && (forall k :: k in t.foreignKeys ==> CompleteKey(t.foreignKeys[k]))
    && Sorted(t.primaryKeyColumns, StringLe)
  }

  lemma {:induction false} CompleteByTable(s: Schema)
    ensures Complete(s)
       <==> (forall t :: CompleteTable(TableOf(s.tables, t))) && forall n :: n in s.enums ==> s.enums[n] != []
  {
    if Complete(s) {
      forall t ensures CompleteTable(TableOf(s.tables, t)) {}
    }
    if forall t :: CompleteTable(TableOf(s.tables, t)) {
      forall t ensures CompleteTable(TableOf(s.tables, t)) {}
    }
  }

  /** Whatever the database holds, a schema that is not complete never matches it. */
  lemma {:induction false} IncompleteNeverMatches(raw: Raw, s: Schema, a: Schema)
    requires Named(s.tables) && Assembles(raw, a) && Agree(s, a)
    ensures Complete(s)
  {
    forall t ensures CompleteTable(TableOf(s.tables, t)) {
      LiveIsComplete(raw, a, t);
      if t in s.tables { SameAsComplete(s.tables[t], a.tables[t]); }
    }
    forall n | n in s.enums ensures s.enums[n] != [] {
      assert Lookup(a.enums, n) == EnumFrom(Filter(raw.enums, IsEnum(n)));
    }
    CompleteByTable(s);
  }

  lemma {:induction false} SameAsComplete(e: Table, a: Table)
    requires TablesAgree(e, a) && CompleteTable(a)
    ensures CompleteTable(e)
  {
    hide NormalizeAction;
    hide Sorted;
    forall k | k in e.foreignKeys ensures CompleteKey(e.foreignKeys[k]) {
      assert SameForeignKey()(e.foreignKeys[k], a.foreignKeys[k]) && CompleteKey(a.foreignKeys[k]);
    }
    forall i | i in e.indexes ensures e.indexes[i].columns != [] {
      assert SameIndex()(e.indexes[i], a.indexes[i]) && a.indexes[i].columns != [];
    }
  }

  lemma {:induction false} LiveIsComplete(raw: Raw, a: Schema, t: string)
    requires Assembles(raw, a)
    ensures CompleteTable(TableOf(a.tables, t))
  {
    var live := TableOf(a.tables, t);
    var keys, indexes := Sort(raw.foreignKeys, ByKeyOrd()), Sort(raw.indexes, ByIndexOrd());
    hide Filter;
    hide Sort;
    hide NormalizeAction;
    forall k | k in live.foreignKeys ensures CompleteKey(live.foreignKeys[k]) {
      var rows := Filter(keys, IsKey(t, k));
      assert Lookup(live.foreignKeys, k) == KeyFrom(rows);
      NormalizedStays(Some(rows[0].onDelete));
      NormalizedStays(Some(rows[0].onUpdate));
    }
    forall i | i in live.indexes ensures live.indexes[i].columns != [] {
      assert Lookup(live.indexes, i) == IndexFrom(Filter(indexes, IsIndex(t, i)));
    }
    StringLeOrders();
    SortSorts(PrimaryFrom(Filter(Sort(raw.primaryKeys, ByPrimaryOrd()), IsPrimary(t))), StringLe);
  }

  /** A foreign key has as many columns as there are rows of it. */
  lemma {:induction false} KeyColumnsAreItsRows(raw: Raw, a: Schema, t: string, k: string)
    requires Assembles(raw, a) && Filter(raw.foreignKeys, IsKey(t, k)) != []
    ensures t in a.tables && k in a.tables[t].foreignKeys
    ensures |a.tables[t].foreignKeys[k].columnsFrom| == |Filter(raw.foreignKeys, IsKey(t, k))|
  {
    var rows := Filter(raw.foreignKeys, IsKey(t, k));
    var sorted := Sort(rows, ByKeyOrd());
    assert Lookup(TableOf(a.tables, t).foreignKeys, k) == KeyFrom(sorted) by {
      assert Lookup(TableOf(a.tables, t).foreignKeys, k)
                == KeyFrom(Filter(Sort(raw.foreignKeys, ByKeyOrd()), IsKey(t, k)));
      hide *;
      FilterSort(raw.foreignKeys, ByKeyOrd(), IsKey(t, k));
    }
    hide Assembles;
    hide Filter;
    hide Sort;
    hide NormalizeAction;
    SortSorts(rows, ByKeyOrd());
    assert |sorted| == |multiset(sorted)| == |multiset(rows)| == |rows|;
  }

  // ---- Projection of the committed snapshot --------------------------------------------------------

  datatype SnapshotColumn = SnapshotColumn(name: string, primaryKey: bool)

  datatype IndexPart = IndexPart(expression: string, isExpression: bool)

  function PlainPart(): IndexPart -> bool {
    (p: IndexPart) => !p.isExpression
  }

  function ProjectIndex(name: string, parts: seq<IndexPart>, isUnique: bool): Index {
    Index(name, Map(Filter(parts, PlainPart()), (p: IndexPart) => p.expression), isUnique)
  }

  /** The key columns of a table: those flagged on columns, then those of composite keys, each once. */
  method ProjectPrimaryKey(columns: seq<SnapshotColumn>, compositeKeys: seq<seq<string>>) returns (key: seq<string>)
    ensures Sorted(key, StringLe)
    ensures forall c :: c in key <==> (exists i :: 0 <= i < |columns| && columns[i] == SnapshotColumn(c, true))
                                      || (exists j :: 0 <= j < |compositeKeys| && c in compositeKeys[j])
  {
    hide Sort;
    hide Sorted;
    hide StringLe;
    var collected: seq<string> := [];
    var i := 0;
    while i < |columns|
      invariant i <= |columns|
      invariant forall c :: c in collected <==> exists n :: 0 <= n < i && columns[n] == SnapshotColumn(c, true)
    {
      if columns[i].primaryKey { collected := collected + [columns[i].name]; }
      i := i + 1;
    }
    ghost var flagged := collected;
    var j := 0;
    while j < |compositeKeys|
      invariant j <= |compositeKeys|
      invariant forall c :: c in collected <==> c in flagged || exists n :: 0 <= n < j && c in compositeKeys[n]
    {
      var n := 0;
      ghost var before := collected;
      while n < |compositeKeys[j]|
        invariant n <= |compositeKeys[j]|
        invariant forall c :: c in collected <==> c in before || c in compositeKeys[j][..n]
      {
        if compositeKeys[j][n] !in collected { collected := collected + [compositeKeys[j][n]]; }
        n := n + 1;
      }
      assert compositeKeys[j][..n] == compositeKeys[j];
      j := j + 1;
    }
    StringLeOrders();
    SortSorts(collected, StringLe);
    key := Sort(collected, StringLe);
    forall c ensures c in key <==> c in collected { assert c in multiset(key) <==> c in multiset(collected); }
  }

  /** An index whose parts are all expressions is reported as drift against every database. */
  lemma {:induction false} ExpressionIndexAlwaysDrifts(raw: Raw, s: Schema, a: Schema, t: string, i: string,
      parts: seq<IndexPart>)
    requires Named(s.tables) && Assembles(raw, a) && t in s.tables && i in s.tables[t].indexes
    requires s.tables[t].indexes[i] == ProjectIndex(i, parts, s.tables[t].indexes[i].isUnique)
    requires forall n :: 0 <= n < |parts| ==> parts[n].isExpression
    ensures exists d :: Differs(s, a, d)
  {
    NothingKept(parts, PlainPart());
    assert !Complete(s) by { assert TableOf(s.tables, t).indexes[i].columns == []; }
    hide Complete;
    hide Assembles;
    hide Agree;
    hide Differs;
    if Agree(s, a) { IncompleteNeverMatches(raw, s, a); }
    NoDifferenceExactly(s, a);
  }
}
