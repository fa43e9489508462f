/** The entry point `Migrate`: precondition checks, then the statement text.
    Running the statement (`db.Exec`) belongs to the database handle: the
    handle is given as the function from a statement to the error it
    returns, if any. */
module Migration {
  import opened Wrappers
  import opened Text
  import opened ColumnModel
  import opened Resolve
  import opened Render

  /** The registered table (`queryTable`): the `Table` value, which may be
      nil, given here by its `TableName()`; how many ORM fields were
      registered; and the struct fields in declaration order. */
  datatype QueryTable = QueryTable(table: Option<string>, ormFieldCount: nat, fields: seq<FieldDesc>)

  /** The errors `Migrate` returns. */
  datatype MigrateError = NoDb | NoTable | NoColumn | ExecFailed(message: string) {
    function Message(): string {
      match this
      case NoDb => "no db exist"
      case NoTable => "no table exist"
      case NoColumn => "no column exist"
      case ExecFailed(msg) => msg
    }
  }

  /** `db.Exec`, seen only through the error it returns. */
  type Executor = string -> Option<string>

  /** The table checks of `Migrate`: no table, no ORM fields, nil table or
      empty table name. */
  predicate TableMissing(tables: seq<QueryTable>) {
    |tables| == 0 || tables[0].ormFieldCount == 0 || tables[0].table.None? || tables[0].table.value == ""
  }

  predicate WellFormedTables(tables: seq<QueryTable>) {
    |tables| > 0 ==> AllTagsPresent(tables[0].fields)
  }

  function CreateTableSql(name: string, clauses: seq<string>): string {
    "create table IF NOT EXISTS `" + name + "` (" + Join(clauses, ",") + ")"
  }

  /** `Migrate`: a configuration error returns no SQL and runs nothing;
      otherwise the statement for the first table is run and returned with
      whatever error running it gave. `ran` records the statement handed to
      the handle, if any. */
  method Migrate(db: Option<Executor>, tables: seq<QueryTable>)
    returns (sql: string, err: Option<MigrateError>, ghost ran: Option<string>)
    requires WellFormedTables(tables)
    ensures db.None? ==> sql == "" && err == Some(NoDb) && ran.None?
    ensures db.Some? && TableMissing(tables) ==> sql == "" && err == Some(NoTable) && ran.None?
    ensures db.Some? && !TableMissing(tables) && Columns(tables[0].fields) == [] ==>
      sql == "" && err == Some(NoColumn) && ran.None?
    ensures db.Some? && !TableMissing(tables) && Columns(tables[0].fields) != [] ==>
      && sql == CreateTableSql(tables[0].table.value, Clauses(Columns(tables[0].fields)))
      && ran == Some(sql)
      && err == match db.value(sql) case None => None case Some(msg) => Some(ExecFailed(msg))
  {
    ran := None;
    if db.None? {
      return "", Some(NoDb), ran;
    }
    if |tables| == 0 || tables[0].ormFieldCount == 0 || tables[0].table.None? || tables[0].table.value == "" {
      return "", Some(NoTable), ran;
    }
    var dbColumns := GetMigrateColumns(tables[0].fields);
    if |dbColumns| == 0 {
      return "", Some(NoColumn), ran;
    }
    var dbColumnStrs := GenerateColumnStrings(dbColumns);
    sql := CreateTableSql(tables[0].table.value, dbColumnStrs);
    var execErr := db.value(sql);
    ran := Some(sql);
    err := match execErr case None => None case Some(msg) => Some(ExecFailed(msg));
  }

  /** The statement always names the table and opens with the column
      clauses, one per column in column order (`ColumnsAreKeptFields` says
      which field each column comes from). */
  lemma StatementShape(name: string, cols: seq<Column>)
    ensures var sql := CreateTableSql(name, Clauses(cols));
      HasPrefix(sql, "create table IF NOT EXISTS `" + name + "` (") && sql[|sql| - 1] == ')'
    ensures |Clauses(cols)| >= |cols|
    ensures forall k :: 0 <= k < |cols| ==> Clauses(cols)[k] == ColumnClause(cols[k])
  {
    assert Clauses(cols) == ColumnClauses(cols) + KeySection(cols);
    var p := "create table IF NOT EXISTS `" + name + "` (";
    var sql := CreateTableSql(name, Clauses(cols));
    assert sql == p + (Join(Clauses(cols), ",") + ")");
  }
}
