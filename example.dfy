/** A worked table: `id int64`, `name string`, `created_at time.Time` and
    `deleted_at *time.Time`, each named only by its `json` tag, in that
    order. The statement `Migrate` builds for table `t` is spelled out. */
module ExampleTable {
  import opened Wrappers
  import opened Text
  import opened ColumnModel
  import opened Resolve
  import opened Render
  import opened Migration

  function Untagged(json: string, kind: Kind, ptrDepth: nat): FieldDesc {
    FieldDesc(true, kind, ptrDepth, [""], [json], [""], [""])
  }

  function Fields(): seq<FieldDesc> {
    [Untagged("id", Int64, 0), Untagged("name", String, 0),
     Untagged("created_at", Time, 0), Untagged("deleted_at", Time, 1)]
  }

  function IdColumn(): Column {
    EmptyColumn.(name := "id", sqlType := "bigint", primary := true, autoIncrement := true, defaultValue := "'0'")
  }

  function NameColumn(): Column {
    EmptyColumn.(name := "name", sqlType := "varchar(255)", defaultValue := "''")
  }

  function CreatedAtColumnValue(): Column {
    EmptyColumn.(name := CreatedAtColumn, sqlType := "timestamp", defaultValue := CurrentTimestamp)
  }

  function DeletedAtColumnValue(): Column {
    EmptyColumn.(name := DeletedAtColumn, sqlType := "timestamp", nullable := true, defaultValue := "null")
  }

  lemma IdResolves()
    ensures ResolveField(0, Fields()[0]) == Some(IdColumn())
  {
    var f := Fields()[0];
    UntaggedFacts(0, f);
    var r := ResolveField(0, f).value;
    assert FieldName(f) == "id";
    assert BookkeepingOf("id").None?;
    assert r.sqlType == "bigint";
    assert r.primary && r.autoIncrement && !r.nullable;
    assert PreModifierColumn(0, f).defaultValue == "0";
    assert Lower("0") == "0";
    assert !IsBareDefault("0");
    assert r.defaultValue == "'0'";
  }

  lemma NameResolves()
    ensures ResolveField(1, Fields()[1]) == Some(NameColumn())
  {
    var f := Fields()[1];
    UntaggedFacts(1, f);
    var r := ResolveField(1, f).value;
    assert FieldName(f) == "name";
    assert BookkeepingOf("name").None?;
    assert r.sqlType == "varchar(255)";
    assert !r.primary && !r.autoIncrement && !r.nullable;
    assert PreModifierColumn(1, f).defaultValue == "";
    assert r.defaultValue == "''";
  }

  /** What the resolution lemmas say about a field with only a `json` name. */
  lemma UntaggedFacts(i: nat, f: FieldDesc)
    requires TagsPresent(f) && !Dropped(f) && f.ormTags[0] == "" && f.defaultTags[0] == "" && f.commentTags[0] == ""
    ensures var r := ResolveField(i, f).value;
      && r.name == f.jsonTags[0] && r.comment == ""
      && r.sqlType == Bookkeeping(BaseColumn(i, f)).sqlType
      && (r.primary <==> i == 0)
      && (r.autoIncrement <==> i == 0 && IsIntegerLike(f.kind))
      && (r.nullable <==> f.ptrDepth == 1 || FieldName(f) == DeletedAtColumn)
      && !r.unique && !r.index && r.uniqueGroups == [] && r.indexGroups == []
      && r.defaultValue == QuoteDefault(if r.nullable then "null" else PreModifierColumn(i, f).defaultValue)
  {
    ResolvedColumnBasics(i, f);
    ConventionWithoutOrmName(i, f);
    PreModifierFacts(i, f);
    ResolvedDefault(i, f);
  }

  lemma CreatedAtResolves()
    ensures ResolveField(2, Fields()[2]) == Some(CreatedAtColumnValue())
  {
    BareTimestampDefaults();
  }

  lemma DeletedAtResolves()
    ensures ResolveField(3, Fields()[3]) == Some(DeletedAtColumnValue())
  {
    BareTimestampDefaults();
  }

  /** All four fields survive, in order. */
  lemma ExampleColumns(fs: seq<FieldDesc>)
    requires fs == Fields()
    ensures AllTagsPresent(fs)
    ensures Columns(fs) == [IdColumn(), NameColumn(), CreatedAtColumnValue(), DeletedAtColumnValue()]
  {
    FirstThreeColumns();
    DeletedAtResolves();
  }

  lemma FirstThreeColumns()
    ensures AllTagsPresent(Fields()) && AllTagsPresent(Fields()[..3])
    ensures Columns(Fields()[..3]) == [IdColumn(), NameColumn(), CreatedAtColumnValue()]
  {
    var fs := Fields();
    FirstTwoColumns();
    ColumnsSnoc(fs, 2);
    CreatedAtResolves();
  }

  lemma FirstTwoColumns()
    ensures AllTagsPresent(Fields()) && AllTagsPresent(Fields()[..2])
    ensures Columns(Fields()[..2]) == [IdColumn(), NameColumn()]
  {
    var fs := Fields();
    assert AllTagsPresent(fs);
    assert fs[..0] == [];
    ColumnsSnoc(fs, 0);
    IdResolves();
    assert Columns(fs[..1]) == [IdColumn()];
    ColumnsSnoc(fs, 1);
    NameResolves();
  }

  lemma JoinFour(w: seq<string>, sep: string)
    requires |w| == 4
    ensures Join(w, sep) == w[0] + sep + w[1] + sep + w[2] + sep + w[3]
  {
    assert w[..3][..2][..1] == [w[0]];
    assert w[..3][..2] == [w[0], w[1]];
    assert Join(w[..3][..2], sep) == w[0] + sep + w[1];
    assert Join(w[..3], sep) == w[0] + sep + w[1] + sep + w[2];
  }

  lemma JoinFive(w: seq<string>, sep: string)
    requires |w| == 5
    ensures Join(w, sep) == w[0] + sep + w[1] + sep + w[2] + sep + w[3] + sep + w[4]
  {
    JoinFour(w[..4], sep);
  }

  lemma IdClause(c: Column)
    requires c == IdColumn()
    ensures ColumnClause(c) == "`id`" + " " + "bigint" + " " + "not null" + " " + "auto_increment"
  {
    assert Backtick(c.name) == "`id`";
    assert ColumnWords(c) == ["`id`", "bigint", "not null", "auto_increment"];
    JoinFour(ColumnWords(c), " ");
  }

  lemma NameClause(c: Column)
    requires c == NameColumn()
    ensures ColumnClause(c) == "`name`" + " " + "varchar(255)" + " " + "not null" + " " + ("default " + "''")
  {
    assert Backtick(c.name) == "`name`";
    assert ColumnWords(c) == ["`name`", "varchar(255)", "not null", "default " + "''"];
    JoinFour(ColumnWords(c), " ");
  }

  lemma CreatedAtClause(c: Column)
    requires c == CreatedAtColumnValue()
    ensures ColumnClause(c) ==
      "`created_at`" + " " + "timestamp" + " " + "not null" + " " + ("default " + CurrentTimestamp)
  {
    assert Backtick(c.name) == "`created_at`";
    assert ColumnWords(c) == ["`created_at`", "timestamp", "not null", "default " + CurrentTimestamp];
    JoinFour(ColumnWords(c), " ");
  }

  lemma DeletedAtClause(c: Column)
    requires c == DeletedAtColumnValue()
    ensures ColumnClause(c) == "`deleted_at`" + " " + "timestamp" + " " + "null" + " " + ("default " + "null")
  {
    assert Backtick(c.name) == "`deleted_at`";
    assert ColumnWords(c) == ["`deleted_at`", "timestamp", "null", "default " + "null"];
    JoinFour(ColumnWords(c), " ");
  }

  /** The clauses: one per column, then the single primary key clause. */
  lemma ExampleClauses(cols: seq<Column>)
    requires cols == [IdColumn(), NameColumn(), CreatedAtColumnValue(), DeletedAtColumnValue()]
    ensures Clauses(cols) ==
      [ColumnClause(cols[0]), ColumnClause(cols[1]), ColumnClause(cols[2]), ColumnClause(cols[3]),
       "primary key (" + "`id`" + ")"]
  {
    ExampleKeySection(cols);
    assert ColumnClauses(cols) == [ColumnClause(cols[0]), ColumnClause(cols[1]), ColumnClause(cols[2]), ColumnClause(cols[3])];
  }

  /** Only `id` is primary, and nothing is flagged unique or index. */
  lemma ExampleKeySection(cols: seq<Column>)
    requires cols == [IdColumn(), NameColumn(), CreatedAtColumnValue(), DeletedAtColumnValue()]
    ensures KeySection(cols) == ["primary key (" + "`id`" + ")"]
  {
    PrimaryStrLast(cols, 0);
    assert Backtick("id") == "`id`";
    NoKeysOrGroups(cols);
  }

  /** Columns without key flags or groups add no simple or composite key
      clause. */
  lemma {:induction false} NoKeysOrGroups(cols: seq<Column>)
    requires forall k :: 0 <= k < |cols| ==>
      !cols[k].unique && !cols[k].index && cols[k].uniqueGroups == [] && cols[k].indexGroups == []
    ensures UniqueKeyClauses(cols) == [] && KeyClauses(cols) == []
    ensures CompositeGroups(cols, true) == [] && CompositeGroups(cols, false) == []
    decreases |cols|
  {
    if |cols| > 0 {
      var n := |cols| - 1;
      assert forall k :: 0 <= k < n ==> cols[..n][k] == cols[k];
      NoKeysOrGroups(cols[..n]);
    }
  }

  /** The full statement `Migrate` builds and runs for table `t`. */
  lemma ExampleStatement(fs: seq<FieldDesc>)
    requires fs == Fields()
    ensures AllTagsPresent(fs)
    ensures CreateTableSql("t", Clauses(Columns(fs))) ==
      "create table IF NOT EXISTS `" + "t" + "` (" +
      (("`id`" + " " + "bigint" + " " + "not null" + " " + "auto_increment") + "," +
       ("`name`" + " " + "varchar(255)" + " " + "not null" + " " + ("default " + "''")) + "," +
       ("`created_at`" + " " + "timestamp" + " " + "not null" + " " + ("default " + CurrentTimestamp)) + "," +
       ("`deleted_at`" + " " + "timestamp" + " " + "null" + " " + ("default " + "null")) + "," +
       ("primary key (" + "`id`" + ")"))
      + ")"
  {
    ExampleColumns(fs);
    ExampleColumnsStatement(Columns(fs));
  }

  lemma ExampleColumnsStatement(cols: seq<Column>)
    requires cols == [IdColumn(), NameColumn(), CreatedAtColumnValue(), DeletedAtColumnValue()]
    ensures CreateTableSql("t", Clauses(cols)) ==
      "create table IF NOT EXISTS `" + "t" + "` (" +
      (("`id`" + " " + "bigint" + " " + "not null" + " " + "auto_increment") + "," +
       ("`name`" + " " + "varchar(255)" + " " + "not null" + " " + ("default " + "''")) + "," +
       ("`created_at`" + " " + "timestamp" + " " + "not null" + " " + ("default " + CurrentTimestamp)) + "," +
       ("`deleted_at`" + " " + "timestamp" + " " + "null" + " " + ("default " + "null")) + "," +
       ("primary key (" + "`id`" + ")"))
      + ")"
  {
    ExampleClauses(cols);
    IdClause(cols[0]);
    NameClause(cols[1]);
    CreatedAtClause(cols[2]);
    DeletedAtClause(cols[3]);
    JoinFive(Clauses(cols), ",");
  }
}
