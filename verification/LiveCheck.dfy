/**
 The drift check on the rows its own queries return (packages/db/src/drift-check.ts).

 The foreign-key query joins the catalog's views on the name of the constraint alone. It pairs every
 column of one side of a key with every column of the other, and does so across all tables that have a
 key of that name. The module says exactly when a database that has the expected schema passes the check.
 */
module LiveCheck {
  import opened Common
  import opened Sorting
  import opened DriftCheck
  import opened Introspection

  // ---- The rows of the foreign-key query -------------------------------------------------------------

  /** A row of `key_column_usage`: a column of a key and its position. */
  datatype FromColumn = FromColumn(column: string, ord: nat)

  /** A row of `constraint_column_usage`: a column that a key refers to. */
  datatype ToColumn = ToColumn(table: string, column: string)

  /** `tables` are the tables that have a key named `k`. */
  ghost predicate Bearers(s: Schema, k: string, tables: seq<string>) {
    Distinct(tables) && forall t :: t in tables <==> k in TableOf(s.tables, t).foreignKeys
  }

  function KeysNamed(s: Schema, k: string, tables: seq<string>): (keys: seq<ForeignKey>)
    requires forall t :: t in tables ==> k in TableOf(s.tables, t).foreignKeys
    ensures |keys| == |tables|
  {
    seq(|tables|, i requires 0 <= i < |tables| => TableOf(s.tables, tables[i]).foreignKeys[k])
  }

  function FromColumns(keys: seq<ForeignKey>): seq<FromColumn> {
    if keys == [] then []
    else
      var columns := keys[0].columnsFrom;
      seq(|columns|, i requires 0 <= i < |columns| => FromColumn(columns[i], i + 1)) + FromColumns(keys[1..])
  }

  function ToColumns(keys: seq<ForeignKey>): seq<ToColumn> {
    if keys == [] then []
    else Map(keys[0].columnsTo, (c: string) => ToColumn(keys[0].tableTo, c)) + ToColumns(keys[1..])
  }

  function RowsFrom(t: string, k: string, from: FromColumn, tos: seq<ToColumn>, rule: ForeignKey): (rows: seq<KeyRow>)
    ensures |rows| == |tos|
  {
    Map(tos, (to: ToColumn) => KeyRow(k, t, to.table, from.column, to.column, rule.onDelete, rule.onUpdate, from.ord))
  }

  function RowsUnder(t: string, k: string, froms: seq<FromColumn>, tos: seq<ToColumn>, rule: ForeignKey): seq<KeyRow> {
    if froms == [] then [] else RowsFrom(t, k, froms[0], tos, rule) + RowsUnder(t, k, froms[1..], tos, rule)
  }

  /** The join: every column of the keys with every referred column and the rules of every key. */
  function JoinedRows(t: string, k: string, froms: seq<FromColumn>, tos: seq<ToColumn>,
      rules: seq<ForeignKey>): seq<KeyRow> {
    if rules == [] then [] else RowsUnder(t, k, froms, tos, rules[0]) + JoinedRows(t, k, froms, tos, rules[1..])
  }

  function QueriedRows(t: string, k: string, keys: seq<ForeignKey>): seq<KeyRow> {
    JoinedRows(t, k, FromColumns(keys), ToColumns(keys), keys)
  }

  /** The query returns, in any order, the joined rows of every key there is. */
  ghost predicate QueriedKey(rows: seq<KeyRow>, s: Schema, t: string, k: string) {
    exists tables :: Bearers(s, k, tables)
      && multiset(rows) == multiset(if t in tables then QueriedRows(t, k, KeysNamed(s, k, tables)) else [])
  }

  /** `raw` is what the queries return, in any order, from a database that has the schema `s`. */
  ghost predicate Queried(raw: Raw, s: Schema) {
    DescribesButKeys(raw, s) && forall t, k :: QueriedKey(Filter(raw.foreignKeys, IsKey(t, k)), s, t, k)
  }

  // ---- How many rows there are -----------------------------------------------------------------------

  lemma {:induction false} OneMore(n: nat, each: nat)
    ensures (n + 1) * each == each + n * each
  {
  }

  lemma {:induction false} CountUnder(t: string, k: string, froms: seq<FromColumn>, tos: seq<ToColumn>,
      rule: ForeignKey)
    ensures |RowsUnder(t, k, froms, tos, rule)| == |froms| * |tos|
  {
    if froms != [] {
      CountUnder(t, k, froms[1..], tos, rule);
      OneMore(|froms| - 1, |tos|);
    }
  }

  lemma {:induction false} CountJoined(t: string, k: string, froms: seq<FromColumn>, tos: seq<ToColumn>,
      rules: seq<ForeignKey>)
    ensures |JoinedRows(t, k, froms, tos, rules)| == |rules| * (|froms| * |tos|)
  {
    if rules != [] {
      CountUnder(t, k, froms, tos, rules[0]);
      CountJoined(t, k, froms, tos, rules[1..]);
      OneMore(|rules| - 1, |froms| * |tos|);
    }
  }

  lemma {:induction false} CountColumns(keys: seq<ForeignKey>, i: nat)
    requires i < |keys|
    ensures |FromColumns(keys)| >= |keys[i].columnsFrom| && |ToColumns(keys)| >= |keys[i].columnsTo|
  {
    if i > 0 { CountColumns(keys[1..], i - 1); }
  }

  lemma {:induction false} Product(bearers: nat, froms: nat, tos: nat, n: nat)
    requires bearers >= 1 && n >= 1 && froms >= n && tos >= n
    ensures bearers * (froms * tos) >= n
    ensures bearers * (froms * tos) == n ==> bearers == 1 && n == 1
  {
    AtLeast(froms, tos);
    AtLeast(bearers, froms * tos);
  }

  lemma {:induction false} AtLeast(a: nat, b: nat)
    requires a >= 1 && b >= 1
    ensures a * b >= a + b - 1
  {
    assert a * b == a + b - 1 + (a - 1) * (b - 1);
  }

  lemma {:induction false} OnlyBearer(tables: seq<string>, t: string)
    requires Distinct(tables) && t in tables && forall u :: u in tables ==> u == t
    ensures tables == [t]
  {
    assert |tables| > 1 ==> tables[0] != tables[1];
    forall i | 0 <= i < |tables| ensures tables[i] == t { assert tables[i] in tables; }
  }

  /** A key of one column whose name no other table uses has the one row it should have. */
  lemma {:induction false} SimpleKeyRows(t: string, k: string, key: ForeignKey)
    requires |key.columnsFrom| == |key.columnsTo| == 1
    ensures QueriedRows(t, k, [key]) == KeyRows(t, k, Some(key))
  {
    var rest := [key][1..];
    assert rest == [] && FromColumns(rest) == [] && ToColumns(rest) == [];
    var froms, tos := FromColumns([key]), ToColumns([key]);
    assert froms == [FromColumn(key.columnsFrom[0], 1)] && tos == [ToColumn(key.tableTo, key.columnsTo[0])];
    assert RowsUnder(t, k, froms, tos, key) == RowsFrom(t, k, froms[0], tos, key) + [];
    assert JoinedRows(t, k, froms, tos, [key]) == RowsUnder(t, k, froms, tos, key) + [];
  }

  // ---- When the check passes -------------------------------------------------------------------------

  ghost predicate SimpleKey(s: Schema, t: string, k: string)
    requires k in TableOf(s.tables, t).foreignKeys
  {
    && |TableOf(s.tables, t).foreignKeys[k].columnsFrom| == 1
    && forall u :: k in TableOf(s.tables, u).foreignKeys ==> u == t
  }

  /** Every foreign key has one column and a name that no other table uses for one. */
  ghost predicate SimpleKeys(s: Schema) {
    forall t, k :: k in TableOf(s.tables, t).foreignKeys ==> SimpleKey(s, t, k)
  }

  lemma {:induction false} KeyIsDescribed(rows: seq<KeyRow>, s: Schema, t: string, k: string)
    requires Paired(s) && QueriedKey(rows, s, t, k)
    requires k in TableOf(s.tables, t).foreignKeys ==> SimpleKey(s, t, k)
    ensures multiset(rows) == multiset(KeyRows(t, k, Lookup(TableOf(s.tables, t).foreignKeys, k)))
  {
    var tables :| Bearers(s, k, tables)
      && multiset(rows) == multiset(if t in tables then QueriedRows(t, k, KeysNamed(s, k, tables)) else []);
    hide QueriedRows;
    if t in tables {
      var key := TableOf(s.tables, t).foreignKeys[k];
      OnlyBearer(tables, t);
      assert KeysNamed(s, k, tables) == [key];
      SimpleKeyRows(t, k, key);
    }
  }

  lemma {:induction false} QueriedIsDescribed(raw: Raw, s: Schema)
    requires Paired(s) && Queried(raw, s) && SimpleKeys(s)
    ensures Describes(raw, s)
  {
    hide DescribesButKeys;
    hide QueriedKey;
    hide Filter;
    hide KeyRows;
    hide SimpleKey;
    hide TableOf;
    forall t, k
      ensures multiset(Filter(raw.foreignKeys, IsKey(t, k)))
                == multiset(KeyRows(t, k, Lookup(TableOf(s.tables, t).foreignKeys, k)))
    {
      KeyIsDescribed(Filter(raw.foreignKeys, IsKey(t, k)), s, t, k);
    }
  }

  lemma {:induction false} CountQueried(rows: seq<KeyRow>, s: Schema, t: string, k: string)
      returns (tables: seq<string>)
    requires Paired(s) && QueriedKey(rows, s, t, k) && k in TableOf(s.tables, t).foreignKeys
    ensures Bearers(s, k, tables) && t in tables
    ensures var keys, n := KeysNamed(s, k, tables), |TableOf(s.tables, t).foreignKeys[k].columnsFrom|;
            && |rows| == |keys| * (|FromColumns(keys)| * |ToColumns(keys)|)
            && |FromColumns(keys)| >= n && |ToColumns(keys)| >= n
  {
    tables :| Bearers(s, k, tables)
      && multiset(rows) == multiset(if t in tables then QueriedRows(t, k, KeysNamed(s, k, tables)) else []);
    var keys := KeysNamed(s, k, tables);
    assert |rows| == |multiset(rows)| == |multiset(QueriedRows(t, k, keys))| == |QueriedRows(t, k, keys)|;
    hide FromColumns;
    hide ToColumns;
    CountJoined(t, k, FromColumns(keys), ToColumns(keys), keys);
    hide JoinedRows;
    var i :| 0 <= i < |tables| && tables[i] == t;
    CountColumns(keys, i);
  }

  /** A key has rows, and as many as columns only if it has one column and its name is not shared. */
  lemma {:induction false} RowsLikeColumns(rows: seq<KeyRow>, s: Schema, t: string, k: string)
    requires Paired(s) && QueriedKey(rows, s, t, k) && k in TableOf(s.tables, t).foreignKeys
    requires TableOf(s.tables, t).foreignKeys[k].columnsFrom != []
    ensures rows != []
    ensures |rows| == |TableOf(s.tables, t).foreignKeys[k].columnsFrom| ==> SimpleKey(s, t, k)
  {
    hide QueriedKey;
    hide FromColumns;
    hide ToColumns;
    hide Paired;
    var tables := CountQueried(rows, s, t, k);
    var keys, n := KeysNamed(s, k, tables), |TableOf(s.tables, t).foreignKeys[k].columnsFrom|;
    Product(|keys|, |FromColumns(keys)|, |ToColumns(keys)|, n);
    if |keys| == 1 { assert tables == [t]; }
  }

  /**
   A key of several columns, or one whose name another table uses too, is reported as a mismatch against
   the very database that has it.
   */
  lemma {:induction false} CompositeKeyAlwaysDrifts(raw: Raw, s: Schema, a: Schema, t: string, k: string)
    requires Named(s.tables) && Paired(s) && Queried(raw, s) && Assembles(raw, a)
    requires t in s.tables && k in s.tables[t].foreignKeys && s.tables[t].foreignKeys[k].columnsFrom != []
    requires !SimpleKey(s, t, k)
    ensures Differs(s, a, Difference(ForeignKeyKind, t, k, Mismatch))
  {
    var rows := Filter(raw.foreignKeys, IsKey(t, k));
    assert QueriedKey(rows, s, t, k);
    hide *;
    assert TableOf(s.tables, t) == s.tables[t] by { TableIs(s, t); }
    RowsLikeColumns(rows, s, t, k);
    KeyColumnsAreItsRows(raw, a, t, k);
    OtherLength(s, a, t, k);
  }

  lemma {:induction false} TableIs(s: Schema, t: string)
    requires t in s.tables
    ensures TableOf(s.tables, t) == s.tables[t]
  {
  }

  lemma {:induction false} OtherLength(s: Schema, a: Schema, t: string, k: string)
    requires Named(s.tables) && t in s.tables && k in s.tables[t].foreignKeys
    requires t in a.tables && k in a.tables[t].foreignKeys
    requires |a.tables[t].foreignKeys[k].columnsFrom| != |s.tables[t].foreignKeys[k].columnsFrom|
    ensures Differs(s, a, Difference(ForeignKeyKind, t, k, Mismatch))
  {
  }

  /**
   A database that has the expected schema shows no difference from it if and only if the schema is
   complete and in canonical form, and every foreign key has one column and a name of its own.
   */
  lemma {:induction false} LiveRoundTripExactly(raw: Raw, s: Schema, a: Schema)
    requires Named(s.tables) && Paired(s) && Queried(raw, s) && Assembles(raw, a)
    ensures Agree(s, a) <==> Complete(s) && SimpleKeys(s)
  {
    hide Queried;
    hide Assembles;
    hide Agree;
    hide Describes;
    hide Differs;
    hide SimpleKey;
    if Agree(s, a) {
      IncompleteNeverMatches(raw, s, a);
      NoDifferenceExactly(s, a);
      forall t, k | k in TableOf(s.tables, t).foreignKeys ensures SimpleKey(s, t, k) {
        assert CompleteKey(TableOf(s.tables, t).foreignKeys[k]);
        if !SimpleKey(s, t, k) { CompositeKeyAlwaysDrifts(raw, s, a, t, k); }
      }
    } else if SimpleKeys(s) {
      hide Complete;
      QueriedIsDescribed(raw, s);
      RoundTripExactly(raw, s, a);
    }
  }

  // ---- Which databases pass --------------------------------------------------------------------------

  /** Everything is kept under its own name. */
  ghost predicate WellNamed(s: Schema) {
    && Named(s.tables)
    && (forall t, c :: c in TableOf(s.tables, t).columns ==> TableOf(s.tables, t).columns[c].name == c)
    && (forall t, i :: i in TableOf(s.tables, t).indexes ==> TableOf(s.tables, t).indexes[i].name == i)
    && (forall t, k :: k in TableOf(s.tables, t).foreignKeys ==> TableOf(s.tables, t).foreignKeys[k].name == k)
  }

  lemma {:induction false} TablesAgreeIsEqual(e: Table, a: Table)
    requires e.name == a.name
    requires (forall c :: c in e.columns ==> e.columns[c].name == c) && forall c :: c in a.columns ==> a.columns[c].name == c
    requires (forall i :: i in e.indexes ==> e.indexes[i].name == i) && forall i :: i in a.indexes ==> a.indexes[i].name == i
    requires (forall k :: k in e.foreignKeys ==> e.foreignKeys[k].name == k)
             && forall k :: k in a.foreignKeys ==> a.foreignKeys[k].name == k
    ensures TablesAgree(e, a) <==> e == a
  {
    if TablesAgree(e, a) {
      forall c | c in e.columns ensures e.columns[c] == a.columns[c] { assert SameColumn()(e.columns[c], a.columns[c]); }
      forall i | i in e.indexes ensures e.indexes[i] == a.indexes[i] { assert SameIndex()(e.indexes[i], a.indexes[i]); }
      forall k | k in e.foreignKeys ensures e.foreignKeys[k] == a.foreignKeys[k] {
        assert SameForeignKey()(e.foreignKeys[k], a.foreignKeys[k]);
      }
      assert e.columns == a.columns && e.indexes == a.indexes && e.foreignKeys == a.foreignKeys;
    }
  }

  lemma {:induction false} AgreeIsEqual(s: Schema, a: Schema)
    requires WellNamed(s) && WellNamed(a)
    ensures Agree(s, a) <==> s == a
  {
    forall t | t in s.tables && t in a.tables
      ensures TablesAgree(s.tables[t], a.tables[t]) <==> s.tables[t] == a.tables[t]
    {
      TableIs(s, t);
      TableIs(a, t);
      hide TableOf;
      TablesAgreeIsEqual(s.tables[t], a.tables[t]);
    }
    hide TablesAgree;
    if Agree(s, a) { assert s.tables == a.tables; }
  }

  lemma {:induction false} AssembledWellNamed(raw: Raw, a: Schema)
    requires Assembles(raw, a)
    ensures WellNamed(a)
  {
    var indexes, keys := Sort(raw.indexes, ByIndexOrd()), Sort(raw.foreignKeys, ByKeyOrd());
    forall t, c | c in TableOf(a.tables, t).columns ensures TableOf(a.tables, t).columns[c].name == c {
      var rows := Filter(raw.columns, IsColumn(t, c));
      assert Lookup(TableOf(a.tables, t).columns, c) == ColumnFrom(rows);
      FilterMember(raw.columns, IsColumn(t, c));
      hide Filter;
      assert rows[|rows| - 1] in rows;
    }
    forall t, i | i in TableOf(a.tables, t).indexes ensures TableOf(a.tables, t).indexes[i].name == i {
      var rows := Filter(indexes, IsIndex(t, i));
      assert Lookup(TableOf(a.tables, t).indexes, i) == IndexFrom(rows);
      FilterMember(indexes, IsIndex(t, i));
      hide Filter;
      assert rows[0] in rows;
    }
    forall t, k | k in TableOf(a.tables, t).foreignKeys ensures TableOf(a.tables, t).foreignKeys[k].name == k {
      var rows := Filter(keys, IsKey(t, k));
      assert Lookup(TableOf(a.tables, t).foreignKeys, k) == KeyFrom(rows);
      FilterMember(keys, IsKey(t, k));
      hide Filter;
      assert rows[0] in rows;
    }
  }

  /** A database with a schema that passes its own check is found to be that schema and no other. */
  lemma {:induction false} DescribedIsAssembled(raw: Raw, live: Schema, a: Schema)
    requires WellNamed(live) && Paired(live) && Complete(live) && Describes(raw, live) && Assembles(raw, a)
    ensures a == live
  {
    hide *;
    RoundTripExactly(raw, live, a);
    AssembledWellNamed(raw, a);
    AgreeIsEqual(live, a);
  }

  /** The database has the schema `live`, and nothing about it goes wrong on the way to the check. */
  ghost predicate Shows(raw: Raw, live: Schema) {
    && WellNamed(live) && Paired(live) && Complete(live)
    && (Describes(raw, live) || (Queried(raw, live) && SimpleKeys(live)))
  }

  lemma {:induction false} ShownIsAssembled(raw: Raw, live: Schema, a: Schema)
    requires Shows(raw, live) && Assembles(raw, a)
    ensures a == live
  {
    hide Assembles;
    hide Describes;
    hide Queried;
    hide SimpleKeys;
    hide Complete;
    hide WellNamed;
    if !Describes(raw, live) { QueriedIsDescribed(raw, live); }
    DescribedIsAssembled(raw, live, a);
  }

  /** The whole check, as `checkDrift` runs it on the rows it queried. */
  method CheckDrift(expected: Schema, raw: Raw) returns (hasDrift: bool, differences: seq<Difference>)
    requires Named(expected.tables)
    ensures hasDrift <==> differences != []
    ensures !hasDrift ==> Complete(expected)
    ensures Paired(expected) && Describes(raw, expected) ==> (hasDrift <==> !Complete(expected))
    ensures Paired(expected) && Queried(raw, expected) ==> (hasDrift <==> !Complete(expected) || !SimpleKeys(expected))
    ensures forall live :: WellNamed(expected) && Shows(raw, live) ==> (hasDrift <==> expected != live)
  {
    hide WellNamed;
    hide Shows;
    hide Complete;
    hide Describes;
    hide Queried;
    hide SimpleKeys;
    hide Assembles;
    hide Differs;
    hide Agree;
    var actual := AssembleLiveSchema(raw);
    differences := DiffSchemas(expected, actual);
    hasDrift := |differences| > 0;
    NoDifferenceExactly(expected, actual);
    if hasDrift {
      assert differences[0] in differences;
    } else {
      IncompleteNeverMatches(raw, expected, actual);
    }
    if Paired(expected) && Describes(raw, expected) { RoundTripExactly(raw, expected, actual); }
    if Paired(expected) && Queried(raw, expected) { LiveRoundTripExactly(raw, expected, actual); }
    forall live | WellNamed(expected) && Shows(raw, live) ensures hasDrift <==> expected != live {
      ShownIsAssembled(raw, live, actual);
      AssembledWellNamed(raw, actual);
      AgreeIsEqual(expected, actual);
    }
  }
}
