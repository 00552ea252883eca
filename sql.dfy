/** The statement and command texts ddl.py builds: `format_sql`, the INSERT of
    `Model.insert`, the SELECT/UPDATE pair of `Model.update`, the statements
    of `Model.drop`, `Model.delete` and `DDL.create`, and the shell command of
    `DDL.mysql_load_data`. */
module Sql {
  import opened Wrappers
  import opened Text

  // ------------------------------------------------------------- records

  predicate DistinctKeys(r: seq<(string, string)>) {
    forall i, j :: 0 <= i < j < |r| ==> r[i].0 != r[j].0
  }

  /** A Python dict of one row, as its (key, value) pairs in iteration order;
      each value is the text `'{0}'.format(value)` renders. */
  type Record = r: seq<(string, string)> | DistinctKeys(r)

  /** `group.get(key)` */
  function Get(rec: seq<(string, string)>, key: string): (r: Option<string>)
    ensures r.Some? <==> exists i :: 0 <= i < |rec| && rec[i].0 == key
    ensures r.Some? ==> exists i :: 0 <= i < |rec| && rec[i] == (key, r.value)
  {
    if rec == [] then None
    else if rec[0].0 == key then Some(rec[0].1)
    else Get(rec[1..], key)
  }

  /** `group.get(f, 0)` rendered as text */
  function ValueOr0(rec: Record, f: string): string {
    match Get(rec, f)
    case Some(v) => v
    case None => "0"
  }

  function Quote(v: string): string {
    "'" + v + "'"
  }

  /** The quoted values of `format_sql`, one per field. */
  function QuotedValues(rec: Record, fields: seq<string>): (r: seq<string>)
    ensures |r| == |fields|
  {
    seq(|fields|, i requires 0 <= i < |fields| => Quote(ValueOr0(rec, fields[i])))
  }

  /** `format_sql(group, fields)`: one parenthesised tuple. */
  function FormatRow(rec: Record, fields: seq<string>): string {
    "(" + Join(",", QuotedValues(rec, fields)) + ")"
  }

  /** Reading a tuple back: drop the parentheses, split at commas, unquote. */
  function ParseRow(row: string): seq<string> {
    var inner := if |row| >= 2 then row[1..|row| - 1] else row;
    var parts := Split(inner, ',');
    seq(|parts|, i requires 0 <= i < |parts| => Unquote(parts[i]))
  }

  function Unquote(q: string): string {
    if |q| >= 2 then q[1..|q| - 1] else q
  }

  /** A tuple holds exactly one value per field, in FIELDS order, with '0'
      for a key the record lacks: reading it back gives those values (as long
      as no value holds a comma). */
  lemma RowRoundTrip(rec: Record, fields: seq<string>)
    requires |fields| >= 1
    requires forall i :: 0 <= i < |fields| ==> ',' !in ValueOr0(rec, fields[i])
    ensures ParseRow(FormatRow(rec, fields)) == seq(|fields|, i requires 0 <= i < |fields| => ValueOr0(rec, fields[i]))
    ensures forall i :: 0 <= i < |fields| && Get(rec, fields[i]).None? ==>
              ParseRow(FormatRow(rec, fields))[i] == "0"
  {
    var qs := QuotedValues(rec, fields);
    var row := FormatRow(rec, fields);
    assert row[1..|row| - 1] == Join(",", qs);
    forall i | 0 <= i < |qs| ensures ',' !in qs[i] {
      assert qs[i] == "'" + ValueOr0(rec, fields[i]) + "'";
    }
    SplitJoin(qs, ',');
    assert [','] == ",";
    forall i | 0 <= i < |qs| ensures Unquote(qs[i]) == ValueOr0(rec, fields[i]) {
      var v := ValueOr0(rec, fields[i]);
      assert qs[i] == "'" + v + "'";
      assert qs[i][1..|qs[i]| - 1] == v;
    }
  }

  /** The argument of `Model.insert`: one dict, or a list/tuple of dicts. */
  datatype Batch = Single(record: Record) | Many(records: seq<Record>)

  /** `not groupdict`: an empty dict or an empty list. */
  predicate IsFalsy(b: Batch) {
    match b
    case Single(r) => r == []
    case Many(rs) => rs == []
  }

  /** The records `Model.update` iterates over (a dict becomes a one-element list). */
  function Records(b: Batch): seq<Record> {
    match b
    case Single(r) => [r]
    case Many(rs) => rs
  }

  /** The VALUES part of `Model.insert`: one tuple per record, comma-separated. */
  function Values(b: Batch, fields: seq<string>): (r: string)
    ensures b.Single? ==> r == FormatRow(b.record, fields)
  {
    var rs := Records(b);
    Join(",", seq(|rs|, i requires 0 <= i < |rs| => FormatRow(rs[i], fields)))
  }

  function InsertSql(table: string, fields: seq<string>, values: string): string {
    "insert into " + table + "(" + Join(",", fields) + ") values" + values
  }

  // --------------------------------------------------------------- update

  /** `"{0}='{1}'".format(f, v)` */
  function Equality(f: string, v: string): string {
    f + "='" + v + "'"
  }

  /** The terms of the WHERE clause of `Model.update`, one per `where` field,
      or the KeyError `group[f]` raises for the first field the record lacks. */
  function WhereTerms(rec: Record, where: seq<string>): (r: Result<seq<string>, Error>)
    ensures r.Err? <==> exists i :: 0 <= i < |where| && Get(rec, where[i]).None?
    ensures r.Err? ==> exists i :: 0 <= i < |where| && r.error == KeyError(where[i]) && Get(rec, where[i]).None?
                                    && forall j :: 0 <= j < i ==> Get(rec, where[j]).Some?
    ensures r.Ok? ==> |r.value| == |where|
    ensures r.Ok? ==> forall i :: 0 <= i < |where| ==> r.value[i] == Equality(where[i], Get(rec, where[i]).value)
  {
    if where == [] then Ok([])
    else
      match Get(rec, where[0])
      case None => Err(KeyError(where[0]))
      case Some(v) =>
        match WhereTerms(rec, where[1..])
        case Err(e) =>
          assert forall i :: 1 <= i < |where| ==> where[i] == where[1..][i - 1];
          Err(e)
        case Ok(ts) => Ok([Equality(where[0], v)] + ts)
  }

  function WhereClause(terms: seq<string>): string {
    Join(" and ", terms)
  }

  function SelectSql(table: string, clause: string): string {
    "select 1 from " + table + " where " + clause
  }

  /** The record's pairs whose key is not a `where` field, in record order. */
  function Unkeyed(rec: seq<(string, string)>, where: seq<string>): (r: seq<(string, string)>)
    ensures forall p :: p in r <==> p in rec && p.0 !in where
    ensures |r| <= |rec|
  {
    if rec == [] then []
    else if rec[0].0 in where then Unkeyed(rec[1..], where)
    else [rec[0]] + Unkeyed(rec[1..], where)
  }

  /** The SET list of `Model.update`. */
  function Assignments(rec: Record, where: seq<string>): string {
    var u := Unkeyed(rec, where);
    Join(",", seq(|u|, i requires 0 <= i < |u| => Equality(u[i].0, u[i].1)))
  }

  function UpdateSql(table: string, assignments: string, clause: string): string {
    "update " + table + " set " + assignments + " where " + clause
  }

  // --------------------------------------------------------- drop, delete

  function DropSql(table: string): string {
    "drop table if exists " + table
  }

  /** A keyword argument of `Model.delete`: a scalar, or a list/tuple/set of values. */
  datatype Condition = Equals(value: string) | InList(values: seq<string>)

  /** Equality for a scalar, an unquoted `in(...)` for a collection. */
  function ConditionSql(key: string, c: Condition): string {
    match c
    case Equals(v) => Equality(key, v)
    case InList(vs) => key + " in(" + Join(",", vs) + ")"
  }

  function DeleteSql(table: string, where: seq<(string, Condition)>, gameids: seq<string>): string {
    var terms := seq(|where|, i requires 0 <= i < |where| => ConditionSql(where[i].0, where[i].1));
    "delete from " + table + " where " + Join(" and ", terms) + " and gameid in(" + Join(",", gameids) + ")"
  }

  // --------------------------------------------------------------- create

  function DescSql(table: string): string {
    "desc `" + table + "`"
  }

  function CreateTableSql(table: string, body: string): string {
    "create table if not exists `" + table + "`(" + body
  }

  // ------------------------------------------------------------ load data

  /** `-p{password}`, or nothing for an empty password. */
  function PasswordOption(password: string): (r: string)
    ensures r == "" <==> password == ""
    ensures r != "" ==> StartsWith(r, "-p") && r[2..] == password
  {
    if password != "" then "-p" + password else ""
  }

  /** `ignore N lines` for a non-empty `ignore`, otherwise nothing. */
  function IgnoreClause(ignore: string): (r: string)
    ensures r == "" <==> ignore == ""
  {
    if ignore != "" then "ignore " + ignore + " lines" else ignore
  }

  /** The `mysql ... load data local infile` command `DDL.mysql_load_data`
      renders: the values it fills into its template. */
  datatype LoadCommand = LoadCommand(
    user: string, passwordOption: string, host: string, db: string, csv: string,
    table: string, ignoreClause: string, columns: string)

  /** The text of the command, with the line continuations of its
      triple-quoted template resolved. */
  function CommandText(c: LoadCommand): string {
    "mysql -u" + c.user + " " + c.passwordOption + " -h " + c.host + " " + c.db
    + " --local-infile=1 -e \"load data local infile '" + c.csv + "' ignore into table \\`" + c.table + "\\` "
    + "            character set utf8 fields terminated by ',' optionally enclosed by '\\\"' escaped by '\\\"' "
    + "            lines terminated by '\\n' " + c.ignoreClause + " (" + c.columns + ");\""
    + "            "
  }

  // ----------------------------------------------------------- statements

  /** A statement one of the call sites sends; `SqlText` is the SQL it sends. */
  datatype Statement =
    | Desc(table: string)
    | CreateTable(table: string, body: string)
    | InsertRows(table: string, fields: seq<string>, values: string)
    | SelectOne(table: string, clause: string)
    | UpdateRows(table: string, assignments: string, clause: string)
    | DropTable(table: string)
    | DeleteRows(table: string, where: seq<(string, Condition)>, gameids: seq<string>)
    | Raw(sql: string)   // a statement handed in by the caller

  function SqlText(s: Statement): string {
    match s
    case Desc(t) => DescSql(t)
    case CreateTable(t, body) => CreateTableSql(t, body)
    case InsertRows(t, fields, values) => InsertSql(t, fields, values)
    case SelectOne(t, clause) => SelectSql(t, clause)
    case UpdateRows(t, assignments, clause) => UpdateSql(t, assignments, clause)
    case DropTable(t) => DropSql(t)
    case DeleteRows(t, where, gameids) => DeleteSql(t, where, gameids)
    case Raw(sql) => sql
  }
}
