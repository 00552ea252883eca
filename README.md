# linjia BI core in Dafny

This project models the core of the linjia BI tools, a Python 2 code base.

`ddl.py` is the table registry and sharded-write layer:
- the `TableMeta` metaclass fills the class-level maps `DDL.TABLES`, `OLD_TABLES` and `NEW_TABLES`;
- `check_fields` derives a table's insertable columns (`FIELDS`) from its `CREATE_SQL`;
- `DDL.connection` keeps one connection per logical database;
- `DDL.create` probes a physical table with `desc` and creates it when the probe fails;
- `Model.insert`, `update`, `drop` and `delete` build and send SQL;
- `DDL.mysql_load_data` renders a `mysql ... load data local infile` command.

`manage.py` is the command-line side:
- the `Manage` command table, with `run` and the `k:v` argument splitting of `execute`;
- the `ensure` confirmation rule;
- the `model_timesamp` column choice;
- the `Online` aggregation of online users into five-minute buckets.

Modules:

- `Wrappers`: `Option`, `Result` and the Python exceptions the core raises (`KeyError`, `IndexError`, `ValueError`, and a refused statement).
- `Text`: the Python string operations the core relies on, with their laws:
  - `strip`, `splitlines`, `split`, `join` and `in`;
  - `int(s)` and `str(n)`.
- `Fields`: `check_fields`, as a loop and as a function over lines.
- `Schema`: the class attributes of one table class and the physical-name rule.
- `Sql`: records (Python dicts in iteration order), `format_sql`, and the statements the call sites send.
- `Registry`: `TableMeta.__init__` as a function on the three maps, and the first-wins and last-wins laws.
- `Ddl`: the class `DDL` (maps, connection cache, configuration) over an abstract MySQL `Server`.
  - The server holds a set of existing tables and the log of statements sent.
  - It accepts or refuses each statement nondeterministically.
  - Each method states the exact statements it sends.
- `Schemas`: the three concrete tables `AllUser`, `PropsGetDay` and `GoldConsumeDay`.
  - Their `CREATE_SQL` is built from structured lines.
  - It proves `check_fields` of each one, and the registry that importing `ddl.py` leaves behind.
- `Manage`: the command table class with `command`, `run` and `execute`; the `ensure` rule; `model_timesamp`.
- `Online`: `date_time` minute flooring and the loops of `cal_online`, ending in one `Model.insert`.

Where the code and its documentation disagree, the model follows the code:

- `DDL.create` sends its CREATE inside the `except` handler of the probe, so a refused CREATE raises out of `create`, and out of `Model.insert` and `mysql_load_data` too.
- The `select 1` probe of `Model.update` is not inside a `try`, so its failure propagates. Only the final UPDATE is swallowed.
- `check_fields` raises `IndexError` on a line that is blank after `strip()` (`row[0]`). It does not skip such lines.
- `create` returns `True` both after creating a table and when the table already existed. The model's `Done` does not distinguish the two.
- `Model.drop` and `Model.delete` ask for no confirmation themselves. Only the commands that call `ensure` do.

## Model

| member | source | states |
|---|---|---|
| Text.Strip | ddl.py:139 | `strip()` is empty exactly for all-whitespace text. Otherwise it neither starts nor ends in whitespace and is the infix of the input just after its leading whitespace. |
| Text.StripAfterIndent | ddl.py:139 | Stripping indentation in front of trimmed text gives that text back. |
| Text.SplitLines | ddl.py:138 | No line that `splitlines()` returns holds a line break. |
| Text.SplitJoinLines | ddl.py:138 | `splitlines()` of lines joined by newlines gives the lines back (no breaks inside, last line non-empty). |
| Text.Contains | ddl.py:140 | `t in s` holds exactly when `t` occurs in `s` at some index. |
| Text.MissingCharNotContained | ddl.py:140 | Text lacking one character of `t` does not contain `t`. |
| Text.TakeUntil | ddl.py:142 | The text before the first `c` is a prefix without `c`, followed by `c` or by the end of the input. |
| Text.Split | manage.py:96 | `split(c)` has at least one part and no part holds `c`. |
| Text.SplitJoin | manage.py:96 | `split` undoes `join` over parts that do not hold the separator. |
| Text.JoinSplit | manage.py:96 | `join` undoes `split`: no character is lost. |
| Text.SplitLength | manage.py:96 | `split(c)` has one more part than the input has `c`s. |
| Text.CountZeroFree | manage.py:95 | No occurrence of `c` is the same as `c` not in the text. |
| Text.ParseDigits | manage.py:388 | `int` of a run of digits is the number it denotes. |
| Text.ParseNegative | manage.py:388 | `int` of a minus sign and a run of digits is the negated number. |
| Text.IntRoundTrip | manage.py:386-390 | `int(str(n)) == n` for every integer. |
| Text.SpacedSign | manage.py:376 | Whitespace between the sign and the digits is accepted while the value fits a C `long`. Beyond that range the same text raises `ValueError`. |
| Text.DigitsRoundTrip | manage.py:388 | The digits of a natural number denote it. |
| Fields.LineField | ddl.py:139-142 | A line raises `IndexError` exactly when it is blank after `strip()`. It contributes a name exactly when, after `strip()`, it starts with a backtick and lacks `AUTO_INCREMENT`. That name holds no backtick. |
| Fields.CheckFields | ddl.py:135-144 | The loop returns or raises what `check_fields` does, as `FieldsOf(sql)`. |
| Fields.LinesFieldsAppend | ddl.py:137-144 | The fields of two groups of lines are the first group's followed by the second's: declaration order is kept. |
| Fields.LinesFieldsFailure | ddl.py:138-140 | `check_fields` raises exactly when some line is blank after `strip()`, and the error is `IndexError`. |
| Fields.LinesFieldsOrigin | ddl.py:135-142 | Field `k` is the name read from line `FieldLines(lines)[k]`. Those line indices strictly increase, so each field has its own line and the fields keep line order. Every line that names a column is among them. |
| Schema.TableNameIsUndatedShard | ddl.py:167-171 | `table_name(gameid)` is the physical name without a date. `table_name()` is the bare TABLE_NAME. |
| Schema.ShardsDisjoint | ddl.py:47-51 | For game ids without `_`, two games, or two dates of one game, never share a physical table. |
| Sql.Get | ddl.py:148 | `group.get(key)` is present exactly when the dict has the key, and is its value. |
| Sql.QuotedValues | ddl.py:147-149 | `format_sql` has one value per field. |
| Sql.RowRoundTrip | ddl.py:147-149 | Reading a tuple back gives one value per field, in FIELDS order. A missing key reads `0`. |
| Sql.Values | ddl.py:178-181 | A single dict gives exactly one `format_sql` tuple. |
| Sql.WhereTerms | ddl.py:223 | `group[f]` over `where` raises `KeyError` exactly when some `where` key is missing, naming one missing key. Otherwise it gives one `f='v'` term per key, in order. |
| Sql.Unkeyed | ddl.py:229 | The SET list holds exactly the record's pairs whose key is not a `where` field. |
| Sql.PasswordOption | ddl.py:84-88 | The `-p` option is empty exactly for an empty password. Otherwise it is `-p` followed by the password. |
| Sql.IgnoreClause | ddl.py:99-100 | The `ignore N lines` clause is empty exactly when `ignore` is. |
| Registry.Instance | ddl.py:116-130 | The registered instance keeps TABLE_NAME, the aliases and CREATE_SQL, and its FIELDS is `check_fields(CREATE_SQL)`. |
| Registry.Raised | ddl.py:128-129 | A class statement raises exactly when the class is not a base and `check_fields` of its CREATE_SQL raises. |
| Registry.BasesNotRegistered | ddl.py:113-114 | `Model` and `Merge` change no map and never raise. |
| Registry.TablesFirstWins | ddl.py:118-122 | A TABLE_NAME already in TABLES keeps its instance. Otherwise it ends up bound to its first registrable class, or stays absent. |
| Registry.OldAliasLastWins | ddl.py:124-125 | An OLDBI_TABLE alias ends up bound to the last class declaring it, or keeps its old binding. |
| Registry.NewAliasLastWins | ddl.py:126-127 | A NEWBI_TABLE alias ends up bound to the last class declaring it, or keeps its old binding. |
| Registry.RegisterFromSnoc | ddl.py:110-132 | After a prefix that did not raise, one more registrable class gives the maps of one more registration. |
| Registry.RegisterKeepsConsistent | ddl.py:116-130 | Registration keeps every entry keyed by its own TABLE_NAME or alias, with FIELDS derived from its CREATE_SQL. |
| Ddl.Server.Run | ddl.py:37 | A statement is logged once. Only an accepted statement changes the tables, and a `desc` is accepted only for an existing table. |
| Ddl.Server.RowCount | ddl.py:225 | `execute_rowcount` is logged and changes no table. |
| Ddl.Ddl.constructor | ddl.py:15-19 | `DDL` starts with empty maps and no connection. |
| Ddl.Ddl.Register | ddl.py:110-132 | `TableMeta.__init__` updates the three maps as `Registry.Register` does and raises as `Registry.Raised` says. |
| Ddl.Ddl.Connection | ddl.py:21-32 | A cached database gets back its identical cached connection. Otherwise a fresh one is built from that database's settings and cached. There is at most one connection per database. |
| Ddl.Ddl.Execute | ddl.py:34-39 | The statement is sent once on its database. A refusal is swallowed and leaves the tables as they were. |
| Ddl.Ddl.Create | ddl.py:41-63 | An unknown name sends nothing and returns None. Otherwise it sends a `desc` of the physical name, then a CREATE only when the probe was refused. A refused CREATE raises. After `True` the table exists. |
| Ddl.RegisteredColumns | ddl.py:174-184 | In a consistent registry, a registered model's FIELDS is what `check_fields` read from its CREATE_SQL at registration. Its INSERT lists exactly those columns, in DDL order. |
| Ddl.Ddl.ModelInsert | ddl.py:173-188 | An empty batch sends nothing. Otherwise it sends `create`'s statements and then exactly one INSERT of every record in FIELDS order. A refused INSERT is swallowed. |
| Ddl.Ddl.Insert | ddl.py:65-68 | An unknown name raises `KeyError` and sends nothing. Otherwise it does what `Model.insert` does on the registered model. |
| Ddl.Ddl.ModelExecute | ddl.py:194-196 | Raw SQL goes through `DDL.execute` on the model's database and never raises. |
| Ddl.Ddl.ModelDrop | ddl.py:198-204 | It sends one `drop table if exists` of `table_name(gameid)`. A refusal is swallowed. |
| Ddl.Ddl.ModelDelete | ddl.py:206-215 | It sends one DELETE on the unsharded TABLE_NAME with the rendered conditions and the game id list. Game ids are strings, and a refusal is swallowed, so it does not raise. |
| Ddl.Ddl.ModelUpdate | ddl.py:217-234 | A dict counts as a one-record list. Each record in turn sends what `UpdateStep` allows. The first record that raises ends the loop. |
| Ddl.Ddl.UpdateOne | ddl.py:222-234 | A missing `where` key raises before anything is sent. Otherwise the `select 1` probe follows: a raising probe propagates, fewer than one row inserts the record, otherwise one UPDATE of its non-key fields. |
| Ddl.StepsSnoc | ddl.py:222-234 | A record that went through extends the steps of the update loop. |
| Ddl.InsertDone | ddl.py:177-186 | After a `create` that did not raise, the INSERT completes the insert's trace. |
| Ddl.Ddl.LoadData | ddl.py:70-107 | An unknown name sends nothing and gives the empty command. Otherwise it first does what `create` does on the same physical name, then renders the command. The command uses that database's settings, `-p` only for a non-empty password, `ignore N lines` only for a non-empty `ignore`, and `field or FIELDS` as the columns. |
| Schemas.LineFieldOf | ddl.py:138-142 | `check_fields` reads a column's name off each well-formed column line, and nothing off the AUTO_INCREMENT, key and closing lines. |
| Schemas.BodyFields | ddl.py:135-144 | `check_fields` of a body of well-formed lines is its column names, in order. |
| Schemas.TableFields | ddl.py:135-144 | `check_fields(CREATE_SQL)` of a well-formed table is its declared columns, in declaration order. |
| Schemas.AllUserFields | ddl.py:243-254 | FIELDS of `AllUser` is `openid, snid, login_time`. |
| Schemas.PropsGetDayFields | ddl.py:258-278 | FIELDS of `PropsGetDay` is its eleven columns after `id`, in order. |
| Schemas.GoldConsumeDayFields | ddl.py:283-304 | FIELDS of `GoldConsumeDay` is its twelve columns after `id`, in order. |
| Schemas.BasesRegisterNothing | ddl.py:152-164 | The class statements of `Model` and `Merge` register nothing. |
| Schemas.RegisterAllUser | ddl.py:252-254 | `AllUser` binds its instance under `all_user` and under the inherited empty aliases. |
| Schemas.RegisterPropsGetDay | ddl.py:274-278 | `PropsGetDay` binds its instance under its name and as both of its aliases. |
| Schemas.RegisterGoldConsumeDay | ddl.py:300-304 | `GoldConsumeDay` binds its instance under its name and as both of its aliases. |
| Schemas.ModuleRegistry | ddl.py:237-304 | Importing the module gives TABLES with the three tables and their FIELDS. The empty aliases stay bound to `AllUser`, and each statistics table is its own alias. |
| Manage.TableNames | manage.py:104-105 | The command table holds a name exactly when some registered function has it. |
| Manage.TableLastWins | manage.py:104-105 | For each name the table holds the function registered last under it. |
| Manage.Manage.Register | manage.py:104-105 | `command` stores the function under its name, replacing an earlier one. |
| Manage.Manage.Run | manage.py:78-86 | A missing `argv[1]` raises `IndexError`. An unknown command shows help, saying "not found" unless it is `help`, `-l` or `-h`. A known one runs with the split of `argv[2:]`, or raises its error. |
| Manage.Manage.Execute | manage.py:88-102 | The loop gives the split of the arguments; `kwargs` passed in are discarded. |
| Manage.KeyValue | manage.py:95-97 | Unpacking `k:v` succeeds exactly for one colon, giving both colon-free halves; otherwise `ValueError`. |
| Manage.KeyValueOf | manage.py:96-97 | Writing `k:v` and splitting it back gives `(k, v)`. |
| Manage.SplitArgs | manage.py:92-99 | Splitting the arguments can only fail with `ValueError`. |
| Manage.SplitArgsFails | manage.py:96 | Splitting fails exactly when some argument has two or more colons. |
| Manage.SplitArgsPositional | manage.py:98-99 | The positional arguments are the colon-free ones, in their order. |
| Manage.SplitArgsKeywords | manage.py:95-97 | The keywords are exactly the keys the `k:v` arguments set, each bound to its last argument's value. |
| Manage.SplitArgsStops | manage.py:94-96 | Once an argument raised, the whole loop raises that error. |
| Manage.ColonFreeArgs | manage.py:94-99 | Without colons everything is positional and no keyword is set. |
| Manage.SplitArgsSnoc | manage.py:95-97 | One more `k:v` argument sets `k` to `v` and keeps the positional arguments. |
| Manage.Ensure | manage.py:117-122 | The command is cancelled exactly when it prompts (no `ensure`, or `ensure` is `yes`) and the answer is not `yes`. |
| Manage.EnsureOff | manage.py:117-118 | `ensure:v` on the command line, for any `v` other than `yes`, reaches the command as a keyword and skips the prompt. |
| Manage.FirstTimeField | manage.py:154 | The first field ending in `_time` is found exactly when one exists. |
| Manage.ModelTimestamp | manage.py:151-159 | A non-empty TIMESTAMP wins. Otherwise the result is the first `_time` field, and None exactly when there is none. |
| Manage.AllUserTimestamp | manage.py:151-159 | For `AllUser` the timestamp column is `login_time`. |
| Online.FloorMinute | manage.py:374-378 | Same date and hour, second 0, and the minute the multiple of 5 at most 4 below the reading. |
| Online.FloorUnique | manage.py:378 | That multiple is the only one, so flooring twice changes nothing. |
| Online.DateTime | manage.py:374-379 | A timestamp that `int` rejects raises `ValueError`; every other gives a bucket. |
| Online.SameBucket | manage.py:374-379 | Readings in the same five minutes of one hour and date share a bucket. |
| Online.UsersRoundTrip | manage.py:387-390 | A count written as text reads back as itself; an empty cell counts 0. |
| Online.AllParseTimes | manage.py:386-391 | The frame goes through exactly when every `online_time` is an integer. |
| Online.EntriesOfRows | manage.py:386-391 | Each row gives its game, client, bucket and user count (0 when not an integer). |
| Online.Slots | manage.py:392-393 | The (game, client, bucket) keys are exactly those of the rows, each once. |
| Online.GameSlots | manage.py:394-395 | The (game, bucket) keys are exactly those of the rows, each once. |
| Online.LastUsersWins | manage.py:393 | For each (game, client, bucket) key, the last row with that key decides its users. |
| Online.TotalSplit | manage.py:395 | A (game, bucket) total is additive over runs of rows. |
| Online.TotalOthers | manage.py:395 | Rows of other keys add nothing to a total. |
| Online.AggregatedClient | manage.py:399-405 | Every row's (game, client, bucket) has a row in `group_list` with its last users. |
| Online.AggregatedTotal | manage.py:407-411 | Every row's (game, bucket) has a total row in `group_list` with the sum over its rows. |
| Online.AggregatedOnly | manage.py:399-411 | Position `j` of `group_list` is the client row of the `j`-th (game, client, bucket) key with its last count. A position past the client rows is the total row, with client id 0 and the summed count, of one (game, bucket) key. There is nothing else. |
| Online.GroupSnoc | manage.py:392-393 | One row: `group` keeps the last users per key and its keys in first-appearance order. |
| Online.TotalsSnoc | manage.py:394-395 | One row: `all_group` keeps the running total per key and its keys in first-appearance order. |
| Online.AddRow | manage.py:391-395 | One pass of the first loop keeps `group` and `all_group` equal to their definitions over the rows so far. |
| Online.Group | manage.py:386-395 | The first loop fails exactly when some time does not parse. Otherwise it ends with `group` and `all_group` as defined over every row. |
| Online.EmitClients | manage.py:398-405 | The loop over `group` emits one row per (game, client, bucket) with its last users. |
| Online.EmitTotals | manage.py:407-411 | The loop over `all_group` emits one total row per (game, bucket). |
| Online.Aggregate | manage.py:381-413 | `cal_online` up to the insert: `ValueError` on an unparsable time, otherwise exactly `Aggregated` of the rows. |
| Online.CalOnline | manage.py:381-415 | `cal_online` sends nothing when a time does not parse. Otherwise it makes exactly one `Model.insert` of every aggregated row. |

## Left out

- Connection construction: `torndb.Connection` always succeeds in the model. A failure to build a connection is not modelled.
- MySQL itself: whether the server accepts a statement, and the row count of `select 1`, are nondeterministic choices. The SQL's meaning is not modelled, beyond `create table` and `drop table` changing the set of existing tables.
- `config.get`: modelled as a fixed configuration value giving each logical database's host, database, user and password, rather than a function of (database, key).
- Logging, `print` and `show_help`'s output: left out. `run` reports only whether the "not found" line is printed.
- `Application.set_up` (argv paths, config and log initialisation): left out. `execute` creates the application only to pass it on.
- Calling the command function: `Manage.Manage.Run` and `Manage.Manage.Execute` end with the split arguments. The call itself, its result and an arity `TypeError` are not modelled. Nor is the `wrapper` that `command` returns.
- The I/O commands of `manage.py` (`clear`, `clear_history`, `clear_filter_openid`, `uniq_history`, `fix`, `fix_date`, `shell`, `online`): subprocess, filesystem and pandas work, left out; `fab.py` and `fabfile.py` are not part of this model.
- `ensure`: the prompt text and `raw_input` are left out; the answer read is a parameter. Cancelling is modelled as the `Cancelled` outcome instead of `sys.exit(0)`.
- `Model.query`, DEFAULTS, Dtype, CLIENT_SPLIT and STORE: never read by the core, and not modelled.
- The helpers `test`, `test_check_field` and `test_insert` of `ddl.py` name tables that do not exist in the module, so they are not modelled.
- Python dict order: records, and the `**where` conditions of `Model.delete`, are association lists in the order the caller gives. The keys of `group` and `all_group` are emitted in first-appearance order, where Python 2 uses hash order.
- Online.Group: `group` is keyed by (game, client, bucket) and `all_group` by (game, bucket), rather than by nested dicts. The rows and values are the same.
- Online.FloorMinute: fixed at the default `delta` of 5 minutes, the only width any caller uses.
- Online.DateTime: `datetime.fromtimestamp` (the local timezone) is the parameter `localTime`, and only its flooring and formatting are modelled. The cells of the frame are their text, so pandas typing is not modelled.
- Online.CalOnline: the schema of `RealtimeOnline` is a parameter; its class is not part of this model.
- Ddl.Ddl.LoadData: returns the structured `LoadCommand` (or None for the empty text), which `Sql.CommandText` renders as text.
- Schemas: each CREATE_SQL body is produced from structured lines (column, AUTO_INCREMENT key, index, closing line), rendered line by line like the source text. Column types are written in lower case and comments are kept as written.
- Ddl.Ddl.ModelDelete: game ids are strings. A non-string id, which makes `",".join` raise `TypeError` before anything is sent, is not modelled.
- Text.ParseInt: the C `long` that bounds a spaced sign is taken to be 64 bits wide, as on LP64 platforms.
- Concurrency: the code has none, and the model claims none.
