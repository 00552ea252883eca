/** The class attributes of a `Model` subclass (ddl.py) and the rules that
    turn its TABLE_NAME into a physical table name. */
module Schema {
  import opened Wrappers
  import Text

  /** `config.DB_STORE` and `config.DB_ANALYSE`, the two logical databases. */
  datatype LogicalDb = DbStore | DbAnalyse

  /** One table class. Fields the core never reads (DEFAULTS, Dtype,
      CLIENT_SPLIT, STORE) are not kept. `fields` is FIELDS, which class
      registration derives from `createSql`. */
  datatype Schema = Schema(
    tableName: string,     // TABLE_NAME
    oldbiTable: string,    // OLDBI_TABLE, the legacy log alias
    newbiTable: string,    // NEWBI_TABLE, the newer log alias
    createSql: string,     // CREATE_SQL, the column part of the DDL
    timestamp: string,     // TIMESTAMP
    needGameid: bool,      // NEED_GAMEID: one table per game
    db: LogicalDb,         // DB
    fields: seq<string>)   // FIELDS

  /** The attributes `Model` declares, which every subclass inherits. */
  const ModelBase := Schema("", "", "", "", "", true, DbStore, [])

  /** `Merge` overrides NEED_GAMEID and DB: one statistics table for all games. */
  const MergeBase := ModelBase.(needGameid := false, db := DbAnalyse)

  /** The physical table that `DDL.create` and `DDL.mysql_load_data` address:
      `table`, `{gameid}_{table}` or `{gameid}_{table}_{date}`. */
  function ShardName(table: string, gameid: Option<string>, date: Option<string>, needGameid: bool): string
  {
    if gameid.Some? && needGameid then
      if date.Some? then gameid.value + "_" + table + "_" + date.value
      else gameid.value + "_" + table
    else table
  }

  /** `Model.table_name(gameid)`: never carries a date. */
  function TableName(m: Schema, gameid: Option<string>): string {
    if gameid.Some? && m.needGameid then gameid.value + "_" + m.tableName else m.tableName
  }

  /** The unsharded name `table_name()` used by `delete` is TABLE_NAME itself,
      and `table_name(gameid)` is the name `create` gives the table when no
      date is passed. */
  lemma TableNameIsUndatedShard(m: Schema, gameid: Option<string>)
    ensures TableName(m, None) == m.tableName
    ensures TableName(m, gameid) == ShardName(m.tableName, gameid, None, m.needGameid)
  {
  }

  /** Tenant isolation: for game ids without an underscore, two games (or two
      dates of one game) never share a physical table. */
  lemma ShardsDisjoint(table: string, g1: string, d1: Option<string>, g2: string, d2: Option<string>)
    requires '_' !in g1 && '_' !in g2
    requires ShardName(table, Some(g1), d1, true) == ShardName(table, Some(g2), d2, true)
    ensures g1 == g2 && d1 == d2
  {
    var n := ShardName(table, Some(g1), d1, true);
    var rest1 := table + (if d1.Some? then "_" + d1.value else "");
    var rest2 := table + (if d2.Some? then "_" + d2.value else "");
    assert n == g1 + "_" + rest1;
    assert n == g2 + "_" + rest2;
    Text.TakeUntilBefore(g1, '_', rest1);
    Text.TakeUntilBefore(g2, '_', rest2);
    assert g1 == g2;
    assert rest1 == n[|g1| + 1..] == rest2;
    if d1.Some? && d2.Some? {
      assert "_" + d1.value == rest1[|table|..] == rest2[|table|..] == "_" + d2.value;
      assert d1.value == ("_" + d1.value)[1..];
    }
  }
}
