/** What the `TableMeta` metaclass of ddl.py does when a class body is
    executed: derive FIELDS and enter the instance into DDL.TABLES,
    DDL.OLD_TABLES and DDL.NEW_TABLES. */
module Registry {
  import opened Wrappers
  import opened Schema
  import Fields

  /** A class statement: the class name and the attributes it ends up with
      after inheritance (FIELDS not yet derived). */
  datatype Decl = Decl(className: string, schema: Schema)

  /** The three class-level maps of `DDL`. */
  datatype Registry = Registry(
    tables: map<string, Schema>,      // TABLE_NAME -> instance
    oldTables: map<string, Schema>,   // OLDBI_TABLE -> instance
    newTables: map<string, Schema>)   // NEWBI_TABLE -> instance

  const Empty := Registry(map[], map[], map[])

  /** `Model` and `Merge` are the abstract bases the metaclass passes over. */
  predicate IsBase(className: string) {
    className == "Model" || className == "Merge"
  }

  /** The instance `cls()` as the maps hold it once the class statement has
      finished: FIELDS is what `check_fields(CREATE_SQL)` returned. When
      `check_fields` raises, the instance is already in the maps and keeps
      the attributes it had. */
  function Instance(d: Decl): (s: Schema)
    ensures s.tableName == d.schema.tableName && s.oldbiTable == d.schema.oldbiTable
    ensures s.newbiTable == d.schema.newbiTable && s.createSql == d.schema.createSql
    ensures Fields.FieldsOf(d.schema.createSql).Ok? ==> s.fields == Fields.FieldsOf(d.schema.createSql).value
  {
    match Fields.FieldsOf(d.schema.createSql)
    case Ok(fs) => d.schema.(fields := fs)
    case Err(_) => d.schema
  }

  /** The maps after one class statement. TABLES is only written when the
      name is new; OLD_TABLES and NEW_TABLES are written on every
      registration, with the aliases every class has (`""` unless it overrides
      them). */
  function Register(reg: Registry, d: Decl): Registry {
    if IsBase(d.className) then reg
    else
      var inst := Instance(d);
      var s := d.schema;
      Registry(
        if s.tableName in reg.tables then reg.tables else reg.tables[s.tableName := inst],
        reg.oldTables[s.oldbiTable := inst],
        reg.newTables[s.newbiTable := inst])
  }

  /** The class statement raises (and the module import stops) when
      `check_fields` raises. */
  function Raised(d: Decl): (r: Option<Error>)
    ensures r.Some? <==> !IsBase(d.className) && Fields.FieldsOf(d.schema.createSql).Err?
  {
    if IsBase(d.className) then None
    else
      match Fields.FieldsOf(d.schema.createSql)
      case Ok(_) => None
      case Err(e) => Some(e)
  }

  /** A module's class statements executed in order, stopping at the first one that raises. */
  function RegisterFrom(reg: Registry, decls: seq<Decl>): Result<Registry, Error>
    decreases |decls|
  {
    if decls == [] then Ok(reg)
    else
      match Raised(decls[0])
      case Some(e) => Err(e)
      case None => RegisterFrom(Register(reg, decls[0]), decls[1..])
  }

  /** The registry after the declarations, starting from empty maps. */
  function RegisterAll(decls: seq<Decl>): Result<Registry, Error> {
    RegisterFrom(Empty, decls)
  }

  predicate Names(d: Decl, table: string) {
    !IsBase(d.className) && d.schema.tableName == table
  }

  predicate OldAlias(d: Decl, alias: string) {
    !IsBase(d.className) && d.schema.oldbiTable == alias
  }

  predicate NewAlias(d: Decl, alias: string) {
    !IsBase(d.className) && d.schema.newbiTable == alias
  }

  /** The first registrable declaration of a table name. */
  function FirstWith(decls: seq<Decl>, table: string): (r: Option<nat>)
    ensures r.Some? ==> r.value < |decls| && Names(decls[r.value], table)
                        && forall j :: 0 <= j < r.value ==> !Names(decls[j], table)
    ensures r.None? ==> forall j :: 0 <= j < |decls| ==> !Names(decls[j], table)
    decreases |decls|
  {
    if decls == [] then None
    else if Names(decls[0], table) then Some(0)
    else match FirstWith(decls[1..], table)
      case None => None
      case Some(k) => Some(k + 1)
  }

  /** First registration wins: a table name already present keeps its
      instance, and a new one ends up bound to its first registrable
      declaration's instance. Later duplicates only warn. */
  lemma {:induction false} TablesFirstWins(reg: Registry, decls: seq<Decl>, table: string)
    requires RegisterFrom(reg, decls).Ok?
    ensures table in reg.tables ==>
              table in RegisterFrom(reg, decls).value.tables && RegisterFrom(reg, decls).value.tables[table] == reg.tables[table]
    ensures table !in reg.tables ==>
              (table in RegisterFrom(reg, decls).value.tables <==> FirstWith(decls, table).Some?)
    ensures table !in reg.tables && FirstWith(decls, table).Some? ==>
              RegisterFrom(reg, decls).value.tables[table] == Instance(decls[FirstWith(decls, table).value])
    decreases |decls|
  {
    if decls != [] {
      var next := Register(reg, decls[0]);
      TablesFirstWins(next, decls[1..], table);
      if table !in reg.tables && !Names(decls[0], table) {
        assert table !in next.tables;
        match FirstWith(decls[1..], table)
        case None =>
        case Some(k) => assert decls[1..][k] == decls[k + 1];
      }
    }
  }

  /** The last registrable declaration satisfying an alias predicate. */
  function LastOld(decls: seq<Decl>, alias: string): (r: Option<nat>)
    ensures r.Some? ==> r.value < |decls| && OldAlias(decls[r.value], alias)
                        && forall j :: r.value < j < |decls| ==> !OldAlias(decls[j], alias)
    ensures r.None? ==> forall j :: 0 <= j < |decls| ==> !OldAlias(decls[j], alias)
    decreases |decls|
  {
    if decls == [] then None
    else if OldAlias(decls[|decls| - 1], alias) then Some(|decls| - 1)
    else LastOld(decls[..|decls| - 1], alias)
  }

  function LastNew(decls: seq<Decl>, alias: string): (r: Option<nat>)
    ensures r.Some? ==> r.value < |decls| && NewAlias(decls[r.value], alias)
                        && forall j :: r.value < j < |decls| ==> !NewAlias(decls[j], alias)
    ensures r.None? ==> forall j :: 0 <= j < |decls| ==> !NewAlias(decls[j], alias)
    decreases |decls|
  {
    if decls == [] then None
    else if NewAlias(decls[|decls| - 1], alias) then Some(|decls| - 1)
    else LastNew(decls[..|decls| - 1], alias)
  }

  /** OLD_TABLES is last-write-wins: an alias maps to the instance of the
      last registrable declaration carrying it, or keeps its old binding when
      no declaration carries it. */
  lemma {:induction false} OldAliasLastWins(reg: Registry, decls: seq<Decl>, alias: string)
    requires RegisterFrom(reg, decls).Ok?
    ensures LastOld(decls, alias).Some? ==>
              alias in RegisterFrom(reg, decls).value.oldTables
              && RegisterFrom(reg, decls).value.oldTables[alias] == Instance(decls[LastOld(decls, alias).value])
    ensures LastOld(decls, alias).None? ==>
              (alias in reg.oldTables ==> alias in RegisterFrom(reg, decls).value.oldTables
                                          && RegisterFrom(reg, decls).value.oldTables[alias] == reg.oldTables[alias])
              && (alias !in reg.oldTables ==> alias !in RegisterFrom(reg, decls).value.oldTables)
    decreases |decls|
  {
    if decls != [] {
      var init := decls[..|decls| - 1];
      var last := decls[|decls| - 1];
      assert decls == init + [last];
      RegisterFromSnoc(reg, init, last);
      OldAliasLastWins(reg, init, alias);
      if !OldAlias(last, alias) && LastOld(init, alias).None? {
        assert forall j :: 0 <= j < |init| ==> init[j] == decls[j];
      }
    }
  }

  /** NEW_TABLES is last-write-wins in the same way. */
  lemma {:induction false} NewAliasLastWins(reg: Registry, decls: seq<Decl>, alias: string)
    requires RegisterFrom(reg, decls).Ok?
    ensures LastNew(decls, alias).Some? ==>
              alias in RegisterFrom(reg, decls).value.newTables
              && RegisterFrom(reg, decls).value.newTables[alias] == Instance(decls[LastNew(decls, alias).value])
    ensures LastNew(decls, alias).None? ==>
              (alias in reg.newTables ==> alias in RegisterFrom(reg, decls).value.newTables
                                          && RegisterFrom(reg, decls).value.newTables[alias] == reg.newTables[alias])
              && (alias !in reg.newTables ==> alias !in RegisterFrom(reg, decls).value.newTables)
    decreases |decls|
  {
    if decls != [] {
      var init := decls[..|decls| - 1];
      var last := decls[|decls| - 1];
      assert decls == init + [last];
      RegisterFromSnoc(reg, init, last);
      NewAliasLastWins(reg, init, alias);
      if !NewAlias(last, alias) && LastNew(init, alias).None? {
        assert forall j :: 0 <= j < |init| ==> init[j] == decls[j];
      }
    }
  }

  /** Registering one more declaration after a successful prefix. */
  lemma {:induction false} RegisterFromSnoc(reg: Registry, init: seq<Decl>, last: Decl)
    requires RegisterFrom(reg, init + [last]).Ok?
    ensures RegisterFrom(reg, init).Ok?
    ensures Raised(last).None?
    ensures RegisterFrom(reg, init + [last]) == Ok(Register(RegisterFrom(reg, init).value, last))
    decreases |init|
  {
    if init == [] {
      assert init + [last] == [last];
      assert [last][1..] == [];
    } else {
      assert (init + [last])[0] == init[0];
      assert (init + [last])[1..] == init[1..] + [last];
      RegisterFromSnoc(Register(reg, init[0]), init[1..], last);
    }
  }

  /** FIELDS is what `check_fields` returns for the instance's CREATE_SQL, so
      the column list of an INSERT or a load command follows the order of
      the columns in the DDL. */
  predicate Derived(s: Schema) {
    Fields.FieldsOf(s.createSql) == Ok(s.fields)
  }

  /** Every entry of TABLES is keyed by its own TABLE_NAME, every alias entry
      by its own alias, and every instance carries the FIELDS derived from
      its CREATE_SQL. */
  predicate Consistent(reg: Registry) {
    && (forall t :: t in reg.tables ==> reg.tables[t].tableName == t && Derived(reg.tables[t]))
    && (forall a :: a in reg.oldTables ==> reg.oldTables[a].oldbiTable == a && Derived(reg.oldTables[a]))
    && (forall a :: a in reg.newTables ==> reg.newTables[a].newbiTable == a && Derived(reg.newTables[a]))
  }

  /** Registration keeps the maps consistent. */
  lemma {:induction false} RegisterKeepsConsistent(reg: Registry, decls: seq<Decl>)
    requires Consistent(reg)
    requires RegisterFrom(reg, decls).Ok?
    ensures Consistent(RegisterFrom(reg, decls).value)
    decreases |decls|
  {
    if decls != [] {
      RegisterOneConsistent(reg, decls[0]);
      RegisterKeepsConsistent(Register(reg, decls[0]), decls[1..]);
    }
  }

  lemma RegisterOneConsistent(reg: Registry, d: Decl)
    requires Consistent(reg) && Raised(d).None?
    ensures Consistent(Register(reg, d))
  {
    if !IsBase(d.className) {
      var inst := Instance(d);
      assert Derived(inst);
      var next := Register(reg, d);
      forall t | t in next.tables ensures next.tables[t].tableName == t && Derived(next.tables[t]) {
        if t != d.schema.tableName || d.schema.tableName in reg.tables {
          assert next.tables[t] == reg.tables[t];
        }
      }
      forall a | a in next.oldTables ensures next.oldTables[a].oldbiTable == a && Derived(next.oldTables[a]) {
        if a != d.schema.oldbiTable {
          assert next.oldTables[a] == reg.oldTables[a];
        }
      }
      forall a | a in next.newTables ensures next.newTables[a].newbiTable == a && Derived(next.newTables[a]) {
        if a != d.schema.newbiTable {
          assert next.newTables[a] == reg.newTables[a];
        }
      }
    }
  }

  /** The abstract bases change nothing. */
  lemma BasesNotRegistered(reg: Registry, d: Decl)
    requires IsBase(d.className)
    ensures Register(reg, d) == reg && Raised(d).None?
  {
  }
}
