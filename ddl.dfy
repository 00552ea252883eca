/** The stateful side of ddl.py: the class-level maps and the connection
    cache of `DDL`, and the statements `DDL` and `Model` send to MySQL.
    The servers are abstract: a set of existing tables and a log of the
    statements sent, where any statement may be refused. */
module Ddl {
  import opened Wrappers
  import opened Schema
  import opened Sql
  import Registry
  import Fields
  import Text

  /** A statement as sent: the logical database of its connection and the
      statement (whose SQL text is `Sql.SqlText`). */
  type Sent = (LogicalDb, Statement)

  /** What a statement the server accepts does to the set of tables. The
      model interprets only the DDL statements; a `desc` probe is accepted
      only on a table that exists. */
  function Apply(s: Statement, db: LogicalDb, tables: set<(LogicalDb, string)>): set<(LogicalDb, string)> {
    match s
    case CreateTable(t, _) => tables + {(db, t)}
    case DropTable(t) => tables - {(db, t)}
    case _ => tables
  }

  /** The MySQL servers behind both logical databases. */
  class Server {
    var tables: set<(LogicalDb, string)>
    var log: seq<Sent>

    constructor (existing: set<(LogicalDb, string)>)
      ensures tables == existing && log == []
    {
      tables := existing;
      log := [];
    }

    /** `execute`: the statement is sent; the server accepts or refuses it. */
    method Run(db: LogicalDb, s: Statement) returns (ok: bool)
      modifies this
      ensures log == old(log) + [(db, s)]
      ensures s.Desc? && ok ==> (db, s.table) in old(tables)
      ensures tables == if ok then Apply(s, db, old(tables)) else old(tables)
    {
      log := log + [(db, s)];
      ok :| s.Desc? && ok ==> (db, s.table) in tables;
      if ok {
        tables := Apply(s, db, tables);
      }
    }

    /** `execute_rowcount`: the statement is sent; the result is a row count,
        or None when the server refuses it. */
    method RowCount(db: LogicalDb, s: Statement) returns (count: Option<nat>)
      modifies this
      ensures log == old(log) + [(db, s)]
      ensures tables == old(tables)
    {
      log := log + [(db, s)];
      var ok: bool :| true;
      var n: nat :| true;
      count := if ok then Some(n) else None;
    }
  }

  /** The values `DDL.connection` and `DDL.mysql_load_data` read with
      `config.get(db, key)` for one logical database. */
  datatype DbConfig = DbConfig(host: string, database: string, user: string, password: string)

  /** The configuration of both logical databases. */
  datatype Config = Config(store: DbConfig, analyse: DbConfig) {
    function For(db: LogicalDb): DbConfig {
      match db
      case DbStore => store
      case DbAnalyse => analyse
    }
  }

  /** A `torndb.Connection`: the database it was opened for, its settings
      and the server it talks to. */
  class MySqlConnection {
    const db: LogicalDb
    const settings: DbConfig
    const server: Server

    constructor (db: LogicalDb, settings: DbConfig, server: Server)
      ensures this.db == db && this.settings == settings && this.server == server
    {
      this.db := db;
      this.settings := settings;
      this.server := server;
    }
  }

  /** The result of `DDL.create`: None for an unknown name, True once the
      table is known to exist, or the exception of a refused CREATE. */
  datatype CreateOutcome = NoModel | Done | Failed(error: Error)

  /** The statements `DDL.create(table, gameid, date)` sends, given TABLES:
      nothing for an unknown name; otherwise a `desc` probe of the physical
      table, followed by a CREATE only when the probe was refused. */
  ghost predicate CreateTrace(reg: map<string, Schema>, table: string, gameid: Option<string>, date: Option<string>,
                              trace: seq<Sent>, outcome: CreateOutcome)
  {
    if table !in reg then trace == [] && outcome == NoModel
    else
      var m := reg[table];
      var t := ShardName(table, gameid, date, m.needGameid);
      var create := CreateTable(t, m.createSql);
      || (trace == [(m.db, Desc(t))] && outcome == Done)
      || (trace == [(m.db, Desc(t)), (m.db, create)] && (outcome == Done || outcome == Failed(SqlError(SqlText(create)))))
  }

  /** The INSERT `Model.insert(groupdict, gameid)` sends for a model `m`:
      every record of the batch into `table_name(gameid)`, in FIELDS order. */
  function InsertOf(m: Schema, batch: Batch, gameid: Option<string>): Statement {
    InsertRows(TableName(m, gameid), m.fields, Values(batch, m.fields))
  }

  /** In a consistent registry, a registered model inserts, and loads when no
      `field` is given, exactly the columns `check_fields` reads from its
      CREATE_SQL, in the order of the DDL. */
  lemma RegisteredColumns(reg: Registry.Registry, name: string, batch: Batch, gameid: Option<string>)
    requires Registry.Consistent(reg) && name in reg.tables
    ensures var m := reg.tables[name];
            && Fields.FieldsOf(m.createSql).Ok?
            && m.fields == Fields.FieldsOf(m.createSql).value
            && InsertOf(m, batch, gameid) ==
                 InsertRows(TableName(m, gameid), Fields.FieldsOf(m.createSql).value,
                            Values(batch, Fields.FieldsOf(m.createSql).value))
  {
    assert Registry.Derived(reg.tables[name]);
  }

  /** `DDL.create` sent `trace` and did not raise. */
  ghost predicate CreateOk(reg: map<string, Schema>, table: string, gameid: Option<string>, date: Option<string>,
                           trace: seq<Sent>)
  {
    CreateTrace(reg, table, gameid, date, trace, NoModel) || CreateTrace(reg, table, gameid, date, trace, Done)
  }

  /** The statements `Model.insert` sends: nothing for an empty batch;
      otherwise those of `DDL.create`, then, unless the CREATE raised, the INSERT. */
  ghost predicate InsertTrace(reg: map<string, Schema>, m: Schema, batch: Batch, gameid: Option<string>,
                              trace: seq<Sent>, r: Result<(), Error>)
  {
    if IsFalsy(batch) then trace == [] && r == Ok(())
    else
      || (&& r == Ok(())
          && |trace| >= 1
          && trace[|trace| - 1] == (m.db, InsertOf(m, batch, gameid))
          && CreateOk(reg, m.tableName, gameid, None, trace[..|trace| - 1]))
      || (r.Err? && CreateTrace(reg, m.tableName, gameid, None, trace, Failed(r.error)))
  }

  /** The statements `Model.update` sends for one record: nothing when a
      `where` field is missing (KeyError); otherwise the `select 1` probe,
      then either nothing more (the probe raised), an insert of the record
      (fewer than one row), or one UPDATE of its non-key fields. */
  ghost predicate UpdateStep(reg: map<string, Schema>, m: Schema, rec: Record, where: seq<string>, gameid: Option<string>,
                             trace: seq<Sent>, r: Result<(), Error>)
  {
    match WhereTerms(rec, where)
    case Err(e) => trace == [] && r == Err(e)
    case Ok(terms) =>
      var table := TableName(m, gameid);
      var select := SelectOne(table, WhereClause(terms));
      && |trace| >= 1
      && trace[0] == (m.db, select)
      && (|| (|trace| == 1 && r == Err(SqlError(SqlText(select))))
          || InsertTrace(reg, m, Single(rec), gameid, trace[1..], r)
          || (trace[1..] == [(m.db, UpdateRows(table, Assignments(rec, where), WhereClause(terms)))] && r == Ok(())))
  }

  function Flatten(segs: seq<seq<Sent>>): seq<Sent> {
    if segs == [] then [] else Flatten(segs[..|segs| - 1]) + segs[|segs| - 1]
  }

  /** The log after one more record's statements. */
  lemma FlattenSnoc(log: seq<Sent>, segs: seq<seq<Sent>>, seg: seq<Sent>)
    ensures log + Flatten(segs) + seg == log + Flatten(segs + [seg])
  {
    assert (segs + [seg])[..|segs|] == segs;
    LogAppend(log, Flatten(segs), seg);
  }

  /** Statements sent in two rounds are the log followed by both rounds. */
  lemma LogAppend(log: seq<Sent>, a: seq<Sent>, b: seq<Sent>)
    ensures log + a + b == log + (a + b)
  {
  }

  /** The step of the `k`th record; StepsOk's quantifier is triggered only
      where a proof names it. */
  ghost function StepAt(steps: seq<seq<Sent>>, k: nat): seq<Sent>
    requires k < |steps|
  {
    steps[k]
  }

  /** Every record of `records` up to the number of `steps` went through
      `Model.update` without raising, each sending its step of the log. */
  ghost predicate StepsOk(reg: map<string, Schema>, m: Schema, records: seq<Record>, where: seq<string>,
                          gameid: Option<string>, steps: seq<seq<Sent>>)
  {
    && |steps| <= |records|
    && forall k {:trigger StepAt(steps, k)} :: 0 <= k < |steps| ==>
         UpdateStep(reg, m, records[k], where, gameid, StepAt(steps, k), Ok(()))
  }

  /** The records before the last step went through, and the last one
      raised `r` after sending its step. */
  ghost predicate StoppedAt(reg: map<string, Schema>, m: Schema, records: seq<Record>, where: seq<string>,
                            gameid: Option<string>, steps: seq<seq<Sent>>, r: Result<(), Error>)
  {
    && 1 <= |steps| <= |records|
    && StepsOk(reg, m, records, where, gameid, steps[..|steps| - 1])
    && UpdateStep(reg, m, records[|steps| - 1], where, gameid, steps[|steps| - 1], r)
  }

  /** A record that went through without raising extends StepsOk. */
  lemma StepsSnoc(reg: map<string, Schema>, m: Schema, records: seq<Record>, where: seq<string>,
                  gameid: Option<string>, steps: seq<seq<Sent>>, seg: seq<Sent>, r: Result<(), Error>)
    requires StepsOk(reg, m, records, where, gameid, steps) && |steps| < |records|
    requires r.Ok? && UpdateStep(reg, m, records[|steps|], where, gameid, seg, r)
    ensures StepsOk(reg, m, records, where, gameid, steps + [seg])
  {
    assert r == Ok(());
    var next := steps + [seg];
    forall k | 0 <= k < |next|
      ensures UpdateStep(reg, m, records[k], where, gameid, StepAt(next, k), Ok(()))
    {
      if k < |steps| {
        assert StepAt(next, k) == StepAt(steps, k);
      } else {
        assert StepAt(next, k) == seg;
      }
    }
  }

  /** A record that raised ends the steps. */
  lemma StepsStop(reg: map<string, Schema>, m: Schema, records: seq<Record>, where: seq<string>,
                  gameid: Option<string>, steps: seq<seq<Sent>>, seg: seq<Sent>, r: Result<(), Error>)
    requires StepsOk(reg, m, records, where, gameid, steps) && |steps| < |records|
    requires UpdateStep(reg, m, records[|steps|], where, gameid, seg, r)
    ensures StoppedAt(reg, m, records, where, gameid, steps + [seg], r)
  {
    var next := steps + [seg];
    assert next[..|next| - 1] == steps;
    assert next[|next| - 1] == seg;
  }

  /** Otherwise the INSERT follows what `DDL.create` sent. */
  lemma InsertDone(reg: map<string, Schema>, m: Schema, batch: Batch, gameid: Option<string>,
                   ct: seq<Sent>, co: CreateOutcome)
    requires !IsFalsy(batch) && !co.Failed?
    requires CreateTrace(reg, m.tableName, gameid, None, ct, co)
    ensures InsertTrace(reg, m, batch, gameid, ct + [(m.db, InsertOf(m, batch, gameid))], Ok(()))
  {
    var trace := ct + [(m.db, InsertOf(m, batch, gameid))];
    assert trace[..|ct|] == ct;
  }

  /** The ids of `Model.delete`: a single id, or a list, tuple or set of them. */
  datatype GameIds = OneGame(id: string) | Games(ids: seq<string>)

  function GameIdList(g: GameIds): seq<string> {
    match g
    case OneGame(id) => [id]
    case Games(ids) => ids
  }

  /** A `mysql_load_data` table argument: a TABLE_NAME to look up, or a model. */
  datatype TableRef = ByName(name: string) | ByModel(model: Schema)

  /** The connections map only gains entries for `dbs`; existing entries keep their object. */
  ghost predicate Extends(before: map<LogicalDb, MySqlConnection>, after: map<LogicalDb, MySqlConnection>, dbs: set<LogicalDb>) {
    && after.Keys == before.Keys + dbs
    && forall d :: d in before ==> after[d] == before[d]
  }

  /** The class `DDL`: its class-level maps, the MySQL settings it reads
      through `config.get(db, key)`, and the servers. */
  class Ddl {
    var tables: map<string, Schema>
    var oldTables: map<string, Schema>
    var newTables: map<string, Schema>
    var connections: map<LogicalDb, MySqlConnection>
    const config: Config
    const server: Server

    /** Every cached connection is the one built for its database from the
        configuration, talking to the servers. */
    ghost predicate Valid()
      reads this
    {
      forall db :: db in connections ==>
        && connections[db].db == db
        && connections[db].server == server
        && connections[db].settings == config.For(db)
    }

    function Snapshot(): Registry.Registry
      reads this
    {
      Registry.Registry(tables, oldTables, newTables)
    }

    constructor (config: Config, server: Server)
      ensures Valid() && Snapshot() == Registry.Empty && connections == map[]
      ensures this.config == config && this.server == server
    {
      tables, oldTables, newTables := map[], map[], map[];
      connections := map[];
      this.config := config;
      this.server := server;
    }

    /** `TableMeta.__init__` for one class statement. */
    method Register(d: Registry.Decl) returns (raised: Option<Error>)
      modifies this`tables, this`oldTables, this`newTables
      ensures Snapshot() == Registry.Register(old(Snapshot()), d)
      ensures raised == Registry.Raised(d)
    {
      if Registry.IsBase(d.className) {
        return None;
      }
      var s := d.schema;
      var fields := Fields.CheckFields(s.createSql);
      var instance := if fields.Ok? then s.(fields := fields.value) else s;
      if s.tableName !in tables {
        tables := tables[s.tableName := instance];
      }
      oldTables := oldTables[s.oldbiTable := instance];
      newTables := newTables[s.newbiTable := instance];
      raised := if fields.Err? then Some(fields.error) else None;
    }

    /** `DDL.connection(db)`: built once per database, then always the cached object. */
    method Connection(db: LogicalDb) returns (c: MySqlConnection)
      requires Valid()
      modifies this`connections
      ensures Valid()
      ensures c.db == db && c.server == server
      ensures db in old(connections) ==> c == old(connections)[db] && connections == old(connections)
      ensures db !in old(connections) ==> fresh(c) && connections == old(connections)[db := c]
      ensures db in connections && connections[db] == c
    {
      if db !in connections {
        c := new MySqlConnection(db, config.For(db), server);
        connections := connections[db := c];
        return;
      }
      return connections[db];
    }

    /** `DDL.execute(sql, db)`: a refused statement is logged and swallowed. */
    method Execute(s: Statement, db: LogicalDb)
      requires Valid()
      modifies this`connections, server
      ensures Valid() && Extends(old(connections), connections, {db})
      ensures server.log == old(server.log) + [(db, s)]
      ensures server.tables == old(server.tables) || server.tables == Apply(s, db, old(server.tables))
    {
      var c := Connection(db);
      var _ := c.server.Run(db, s);
    }

    /** `DDL.create(table, gameid, date)`; `trace` is what it sends. */
    method Create(table: string, gameid: Option<string>, date: Option<string>)
      returns (r: CreateOutcome, ghost trace: seq<Sent>)
      requires Valid()
      modifies this`connections, server
      ensures Valid()
      ensures server.log == old(server.log) + trace
      ensures CreateTrace(tables, table, gameid, date, trace, r)
      ensures table !in tables ==> connections == old(connections) && server.tables == old(server.tables)
      ensures table in tables ==>
                var m := tables[table];
                var t := ShardName(table, gameid, date, m.needGameid);
                && Extends(old(connections), connections, {m.db})
                && server.tables == old(server.tables) + (if r == Done && |trace| == 2 then {(m.db, t)} else {})
                && (r == Done ==> (m.db, t) in server.tables)
                && (|trace| == 1 ==> (m.db, t) in old(server.tables))
    {
      if table !in tables {
        return NoModel, [];
      }
      var m := tables[table];
      var t := ShardName(table, gameid, date, m.needGameid);
      var c := Connection(m.db);
      var found := c.server.Run(m.db, Desc(t));
      if found {
        return Done, [(m.db, Desc(t))];
      }
      c := Connection(m.db);
      var create := CreateTable(t, m.createSql);
      var ok := c.server.Run(m.db, create);
      LogAppend(old(server.log), [(m.db, Desc(t))], [(m.db, create)]);
      r := if ok then Done else Failed(SqlError(SqlText(create)));
      trace := [(m.db, Desc(t)), (m.db, create)];
      assert trace == [(m.db, Desc(t))] + [(m.db, create)];
    }

    /** `Model.insert(groupdict, gameid)` on a model `m`; `trace` is what it sends. */
    method ModelInsert(m: Schema, batch: Batch, gameid: Option<string>)
      returns (r: Result<(), Error>, ghost trace: seq<Sent>)
      requires Valid()
      modifies this`connections, server
      ensures Valid()
      ensures server.log == old(server.log) + trace
      ensures InsertTrace(tables, m, batch, gameid, trace, r)
      ensures IsFalsy(batch) ==> connections == old(connections) && server.tables == old(server.tables)
      ensures m.tableName in tables && tables[m.tableName] == m && r.Ok? && !IsFalsy(batch) ==>
                (m.db, TableName(m, gameid)) in server.tables
    {
      if IsFalsy(batch) {
        return Ok(()), [];
      }
      var created, ct := Create(m.tableName, gameid, None);
      if created.Failed? {
        return Err(created.error), ct;
      }
      var values := Values(batch, m.fields);
      var insert := InsertRows(TableName(m, gameid), m.fields, values);
      var c := Connection(m.db);
      var _ := c.server.Run(m.db, insert);
      LogAppend(old(server.log), ct, [(m.db, insert)]);
      InsertDone(tables, m, batch, gameid, ct, created);
      r, trace := Ok(()), ct + [(m.db, insert)];
    }

    /** `DDL.insert(table, groupdict, gameid)`: KeyError for an unknown name. */
    method Insert(table: string, batch: Batch, gameid: Option<string>)
      returns (r: Result<(), Error>, ghost trace: seq<Sent>)
      requires Valid()
      modifies this`connections, server
      ensures Valid()
      ensures server.log == old(server.log) + trace
      ensures table !in tables ==> r == Err(KeyError(table)) && trace == [] && connections == old(connections)
      ensures table in tables ==> InsertTrace(tables, tables[table], batch, gameid, trace, r)
    {
      if table !in tables {
        return Err(KeyError(table)), [];
      }
      r, trace := ModelInsert(tables[table], batch, gameid);
    }

    /** `Model.execute(sql)`: through `DDL.execute` on the model's database. */
    method ModelExecute(m: Schema, sql: string)
      requires Valid()
      modifies this`connections, server
      ensures Valid() && Extends(old(connections), connections, {m.db})
      ensures server.log == old(server.log) + [(m.db, Raw(sql))]
      ensures server.tables == old(server.tables)
    {
      Execute(Raw(sql), m.db);
    }

    /** `Model.drop(gameid)`: drops `table_name(gameid)`; a refusal is swallowed. */
    method ModelDrop(m: Schema, gameid: Option<string>)
      requires Valid()
      modifies this`connections, server
      ensures Valid() && Extends(old(connections), connections, {m.db})
      ensures server.log == old(server.log) + [(m.db, DropTable(TableName(m, gameid)))]
      ensures server.tables == old(server.tables) || server.tables == old(server.tables) - {(m.db, TableName(m, gameid))}
    {
      Execute(DropTable(TableName(m, gameid)), m.db);
    }

    /** `Model.delete(gameids, **where)`: always on the unsharded TABLE_NAME;
        a refusal is swallowed. */
    method ModelDelete(m: Schema, gameids: GameIds, where: seq<(string, Condition)>)
      requires Valid()
      modifies this`connections, server
      ensures Valid() && Extends(old(connections), connections, {m.db})
      ensures server.log == old(server.log) + [(m.db, DeleteRows(m.tableName, where, GameIdList(gameids)))]
      ensures server.tables == old(server.tables)
    {
      Execute(DeleteRows(TableName(m, None), where, GameIdList(gameids)), m.db);
    }

    /** `Model.update(groupdict, where, gameid)`: for each record in turn, the
        check-then-act upsert described by UpdateStep; the loop stops at the
        first record that raises. `steps` splits the log by record. */
    method ModelUpdate(m: Schema, batch: Batch, where: seq<string>, gameid: Option<string>)
      returns (r: Result<(), Error>, ghost steps: seq<seq<Sent>>)
      requires Valid()
      modifies this`connections, server
      ensures Valid()
      ensures server.log == old(server.log) + Flatten(steps)
      ensures r.Ok? ==> |steps| == |Records(batch)| && StepsOk(tables, m, Records(batch), where, gameid, steps)
      ensures r.Err? ==> StoppedAt(tables, m, Records(batch), where, gameid, steps, r)
    {
      var records := Records(batch);
      ghost var reg := tables;
      steps := [];
      var i := 0;
      while i < |records|
        invariant Valid() && tables == reg
        invariant 0 <= i <= |records| && |steps| == i
        invariant server.log == old(server.log) + Flatten(steps)
        invariant StepsOk(reg, m, records, where, gameid, steps)
      {
        var step, seg := UpdateOne(m, records[i], where, gameid);
        FlattenSnoc(old(server.log), steps, seg);
        if step.Err? {
          StepsStop(reg, m, records, where, gameid, steps, seg, step);
          return step, steps + [seg];
        }
        StepsSnoc(reg, m, records, where, gameid, steps, seg, step);
        steps := steps + [seg];
        i := i + 1;
      }
      r := Ok(());
    }

    /** The body of the loop of `Model.update` for one record. */
    method UpdateOne(m: Schema, rec: Record, where: seq<string>, gameid: Option<string>)
      returns (r: Result<(), Error>, ghost trace: seq<Sent>)
      requires Valid()
      modifies this`connections, server
      ensures Valid()
      ensures server.log == old(server.log) + trace
      ensures UpdateStep(tables, m, rec, where, gameid, trace, r)
    {
      var terms := WhereTerms(rec, where);
      if terms.Err? {
        return Err(terms.error), [];
      }
      var table := TableName(m, gameid);
      var clause := WhereClause(terms.value);
      var select := SelectOne(table, clause);
      var c := Connection(m.db);
      var count := c.server.RowCount(m.db, select);
      if count.None? {
        return Err(SqlError(SqlText(select))), [(m.db, select)];
      }
      if count.value < 1 {
        ghost var it;
        r, it := ModelInsert(m, Single(rec), gameid);
        LogAppend(old(server.log), [(m.db, select)], it);
        trace := [(m.db, select)] + it;
        assert trace[1..] == it;
        return;
      }
      var update := UpdateRows(table, Assignments(rec, where), clause);
      c := Connection(m.db);
      var _ := c.server.Run(m.db, update);
      LogAppend(old(server.log), [(m.db, select)], [(m.db, update)]);
      r, trace := Ok(()), [(m.db, select)] + [(m.db, update)];
    }

    /** `DDL.mysql_load_data(table, csv, gameid, db, ignore, field, date)`:
        makes sure the table exists, then renders the load command (None
        stands for the empty text returned for an unknown name). `field` is
        empty when the caller passes none (`field or FIELDS`). */
    method LoadData(table: TableRef, csv: string, gameid: Option<string>, db: Option<string>, ignore: string,
                    field: seq<string>, date: Option<string>)
      returns (r: Result<Option<LoadCommand>, Error>, ghost trace: seq<Sent>)
      requires Valid()
      modifies this`connections, server
      ensures Valid()
      ensures server.log == old(server.log) + trace
      ensures table.ByName? && table.name !in tables ==> r == Ok(None) && trace == [] && connections == old(connections)
      ensures (table.ByModel? || table.name in tables) ==>
                var m := if table.ByName? then tables[table.name] else table.model;
                && (r.Ok? ==> CreateOk(tables, m.tableName, gameid, date, trace))
                && (r.Err? ==> CreateTrace(tables, m.tableName, gameid, date, trace, Failed(r.error)))
                && (r.Ok? ==> r.value == Some(LoadCommand(
                      config.For(m.db).user, PasswordOption(config.For(m.db).password), config.For(m.db).host,
                      if db.Some? then db.value else config.For(m.db).database, csv,
                      ShardName(m.tableName, gameid, date, m.needGameid), IgnoreClause(ignore),
                      Text.Join(",", if field != [] then field else m.fields))))
                && (m.tableName in tables && tables[m.tableName] == m ==>
                      trace[0] == (m.db, Desc(ShardName(m.tableName, gameid, date, m.needGameid))))
    {
      var m: Schema;
      if table.ByName? {
        if table.name !in tables {
          return Ok(None), [];
        }
        m := tables[table.name];
      } else {
        m := table.model;
      }
      var database := if db.Some? then db.value else config.For(m.db).database;
      var passwd := PasswordOption(config.For(m.db).password);
      var created;
      created, trace := Create(m.tableName, gameid, date);
      if created.Failed? {
        return Err(created.error), trace;
      }
      var target := ShardName(m.tableName, gameid, date, m.needGameid);
      var fields := if field != [] then field else m.fields;
      r := Ok(Some(LoadCommand(config.For(m.db).user, passwd, config.For(m.db).host, database, csv, target,
                               IgnoreClause(ignore), Text.Join(",", fields))));
    }
  }
}
