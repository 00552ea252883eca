/** The three concrete table classes of ddl.py (`AllUser`, `PropsGetDay`,
    `GoldConsumeDay`): their CREATE_SQL bodies, the FIELDS registration
    derives from them, and what registering them leaves in the maps. */
module Schemas {
  import opened Wrappers
  import opened Text
  import opened Fields
  import opened Schema
  import opened Registry

  // ---------------------------------------------------------------- lines

  /** The MySQL column types the schemas use. */
  datatype Kind = Bigint | Int | Smallint | Varchar | Date

  function KindName(k: Kind): string {
    match k
    case Bigint => "bigint"
    case Int => "int"
    case Smallint => "smallint"
    case Varchar => "varchar"
    case Date => "date"
  }

  /** A column definition: type, display size, signedness and nullability. */
  datatype SqlType = SqlType(kind: Kind, size: Option<nat>, unsigned: bool, notNull: bool)

  function NotNull(k: Kind, size: nat): SqlType {
    SqlType(k, Some(size), false, true)
  }

  function Nullable(k: Kind, size: Option<nat>): SqlType {
    SqlType(k, size, false, false)
  }

  /** `bigint(20) NOT NULL`, `date DEFAULT NULL`, ... */
  function TypeText(t: SqlType): string {
    KindName(t.kind)
    + (if t.size.Some? then "(" + Digits(t.size.value) + ")" else "")
    + (if t.unsigned then " unsigned" else "")
    + (if t.notNull then " NOT NULL" else " DEFAULT NULL")
  }

  /** One line of a CREATE_SQL body, as the schemas write them. */
  datatype Line =
    | Column(name: string, sqlType: SqlType, comment: Option<string>)
    | AutoIncrement(name: string, sqlType: SqlType)
    | Index(text: string)
    | TableEnd(tableComment: string)

  /** The text of a line: columns and keys are indented by two spaces, and
      the closing line carries the table options. */
  function Render(l: Line): string {
    match l
    case Column(n, t, c) => "  `" + n + "`" + ColumnTail(t, c)
    case AutoIncrement(n, t) => "  `" + n + "`" + " " + TypeText(t) + " AUTO_INCREMENT,"
    case Index(text) => "  " + text
    case TableEnd(c) => TableOptions + c + "' "
  }

  /** What follows a column's backticked name. */
  function ColumnTail(t: SqlType, c: Option<string>): string {
    match c
    case None => " " + TypeText(t) + ","
    case Some(text) => " " + TypeText(t) + " COMMENT '" + text + "',"
  }

  const TableOptions := ") ENGINE=InnoDB " + "DEFAULT CHARSET=utf8 COMMENT='"

  /** No control character (so no line break and no whitespace but ' '). */
  predicate Printable(s: string) {
    forall i :: 0 <= i < |s| ==> ' ' <= s[i]
  }

  /** Printable, with no backtick and no letter R (so it cannot spell AUTO_INCREMENT). */
  predicate Plain(s: string) {
    forall i :: 0 <= i < |s| ==> ' ' <= s[i] && s[i] != '`' && s[i] != 'R'
  }

  predicate WellFormed(l: Line) {
    match l
    case Column(n, _, c) => Plain(n) && (c.Some? ==> Plain(c.value))
    case AutoIncrement(n, _) => Printable(n)
    case Index(t) => t != [] && t[0] != '`' && t[0] != ' ' && Printable(t)
    case TableEnd(c) => Printable(c)
  }

  /** What the line should add to FIELDS: the name of an ordinary column. */
  function Contributes(l: Line): Option<string> {
    if l.Column? then Some(l.name) else None
  }

  lemma TypeTextPlain(t: SqlType)
    ensures Plain(TypeText(t))
  {
    var kind := KindName(t.kind);
    var size := if t.size.Some? then "(" + Digits(t.size.value) + ")" else "";
    var sign := if t.unsigned then " unsigned" else "";
    var nullity := if t.notNull then " NOT NULL" else " DEFAULT NULL";
    KindNamePlain(t.kind);
    SizePlain(t.size);
    FlagsPlain(t.unsigned, t.notNull);
    PlainConcat(kind, size);
    PlainConcat(kind + size, sign);
    PlainConcat(kind + size + sign, nullity);
  }

  lemma KindNamePlain(k: Kind)
    ensures Plain(KindName(k))
  {
  }

  lemma SizePlain(size: Option<nat>)
    ensures Plain(if size.Some? then "(" + Digits(size.value) + ")" else "")
  {
    if size.Some? {
      var ds := Digits(size.value);
      assert Plain(ds);
      PlainConcat("(", ds);
      PlainConcat("(" + ds, ")");
    }
  }

  lemma FlagsPlain(unsigned: bool, notNull: bool)
    ensures Plain(if unsigned then " unsigned" else "")
    ensures Plain(if notNull then " NOT NULL" else " DEFAULT NULL")
  {
  }

  lemma PlainConcat(a: string, b: string)
    requires Plain(a) && Plain(b)
    ensures Plain(a + b)
  {
    forall i | 0 <= i < |a + b| ensures ' ' <= (a + b)[i] && (a + b)[i] != '`' && (a + b)[i] != 'R' {
      if i < |a| { assert (a + b)[i] == a[i]; } else { assert (a + b)[i] == b[i - |a|]; }
    }
  }

  lemma PrintableConcat(a: string, b: string)
    requires Printable(a) && Printable(b)
    ensures Printable(a + b)
  {
    forall i | 0 <= i < |a + b| ensures ' ' <= (a + b)[i] {
      if i < |a| { assert (a + b)[i] == a[i]; } else { assert (a + b)[i] == b[i - |a|]; }
    }
  }

  lemma ColumnTailPlain(t: SqlType, c: Option<string>)
    requires c.Some? ==> Plain(c.value)
    ensures Plain(ColumnTail(t, c)) && ColumnTail(t, c) != [] && ColumnTail(t, c)[|ColumnTail(t, c)| - 1] == ','
  {
    var d := TypeText(t);
    TypeTextPlain(t);
    PlainConcat(" ", d);
    match c
    case None =>
      PlainConcat(" " + d, ",");
    case Some(text) =>
      PlainConcat(" " + d, " COMMENT '");
      PlainConcat(" " + d + " COMMENT '", text);
      PlainConcat(" " + d + " COMMENT '" + text, "',");
  }

  /** A line holding a backticked name is read as that name, provided
      nothing on it spells AUTO_INCREMENT. */
  lemma NamedLine(n: string, rest: string)
    requires Plain(n) && Plain(rest) && rest != [] && rest[|rest| - 1] == ','
    ensures LineField("  `" + n + "`" + rest) == Ok(Some(n))
    ensures NoLineBreak("  `" + n + "`" + rest)
  {
    var t := "`" + n + "`" + rest;
    IndentedStrip(n, rest);
    NoAutoIncrement(n, rest);
    NameBeforeBacktick(n, rest);
    PrintableLine(n, rest);
  }

  lemma IndentedStrip(n: string, rest: string)
    requires rest != [] && rest[|rest| - 1] == ','
    ensures Strip("  `" + n + "`" + rest) == "`" + n + "`" + rest
  {
    var t := "`" + n + "`" + rest;
    assert "  `" + n + "`" + rest == "  " + t;
    StripAfterIndent("  ", t);
  }

  lemma NoAutoIncrement(n: string, rest: string)
    requires Plain(n) && Plain(rest)
    ensures !Contains("`" + n + "`" + rest, "AUTO_INCREMENT")
  {
    assert 'R' !in n && 'R' !in rest;
    MissingCharNotContained("`" + n + "`" + rest, "AUTO_INCREMENT", 8);
  }

  lemma NameBeforeBacktick(n: string, rest: string)
    requires Plain(n)
    ensures ("`" + n + "`" + rest)[0] == '`'
    ensures TakeUntil(("`" + n + "`" + rest)[1..], '`') == n
  {
    assert ("`" + n + "`" + rest)[1..] == n + ['`'] + rest;
    assert '`' !in n;
    TakeUntilBefore(n, '`', rest);
  }

  lemma PrintableLine(n: string, rest: string)
    requires Plain(n) && Plain(rest)
    ensures NoLineBreak("  `" + n + "`" + rest)
  {
    PlainPrintable(n);
    PlainPrintable(rest);
    PrintableConcat("  `", n);
    PrintableConcat("  `" + n, "`");
    PrintableConcat("  `" + n + "`", rest);
    PrintableNoBreak("  `" + n + "`" + rest);
  }

  lemma PlainPrintable(s: string)
    requires Plain(s)
    ensures Printable(s)
  {
  }

  lemma PrintableNoBreak(s: string)
    requires Printable(s)
    ensures NoLineBreak(s)
  {
  }

  /** `check_fields` reads the intended field off every well-formed line:
      a column's name, and nothing for the AUTO_INCREMENT key, an index or
      the closing line. */
  lemma LineFieldOf(l: Line)
    requires WellFormed(l)
    ensures LineField(Render(l)) == Ok(Contributes(l))
    ensures Render(l) != [] && NoLineBreak(Render(l))
  {
    match l
    case Column(n, t, c) =>
      ColumnTailPlain(t, c);
      NamedLine(n, ColumnTail(t, c));
    case AutoIncrement(n, t) =>
      TypeTextPlain(t);
      PlainPrintable(TypeText(t));
      AutoIncrementLine(n, TypeText(t));
    case Index(t) =>
      IndexLine(t);
    case TableEnd(c) =>
      TableEndLine(c);
  }

  lemma AutoIncrementLine(n: string, d: string)
    requires Printable(n) && Printable(d)
    ensures LineField("  `" + n + "`" + " " + d + " AUTO_INCREMENT,") == Ok(None)
    ensures NoLineBreak("  `" + n + "`" + " " + d + " AUTO_INCREMENT,")
  {
    var rest := " " + d + " AUTO_INCREMENT,";
    assert "  `" + n + "`" + " " + d + " AUTO_INCREMENT," == "  `" + n + "`" + rest;
    IndentedStrip(n, rest);
    MarkedAutoIncrement(n, d);
    AutoIncrementPrintable(n, d);
  }

  lemma MarkedAutoIncrement(n: string, d: string)
    ensures Contains("`" + n + "`" + (" " + d + " AUTO_INCREMENT,"), "AUTO_INCREMENT")
  {
    var rest := " " + d + " AUTO_INCREMENT,";
    var t := "`" + n + "`" + rest;
    assert OccursAt(rest, "AUTO_INCREMENT", |rest| - 15);
    assert t[|t| - |rest|..] == rest;
    assert OccursAt(t, "AUTO_INCREMENT", |t| - 15);
  }

  lemma AutoIncrementPrintable(n: string, d: string)
    requires Printable(n) && Printable(d)
    ensures NoLineBreak("  `" + n + "`" + (" " + d + " AUTO_INCREMENT,"))
  {
    var rest := " " + d + " AUTO_INCREMENT,";
    PrintableConcat(" ", d);
    PrintableConcat(" " + d, " AUTO_INCREMENT,");
    PrintableConcat("  `", n);
    PrintableConcat("  `" + n, "`");
    PrintableConcat("  `" + n + "`", rest);
    PrintableNoBreak("  `" + n + "`" + rest);
  }

  lemma IndexLine(t: string)
    requires t != [] && t[0] != '`' && t[0] != ' ' && Printable(t)
    ensures LineField(Render(Index(t))) == Ok(None)
    ensures NoLineBreak(Render(Index(t)))
  {
    StripFirst("  ", t);
    PrintableConcat("  ", t);
    PrintableNoBreak("  " + t);
  }

  lemma TableEndLine(c: string)
    requires Printable(c)
    ensures LineField(Render(TableEnd(c))) == Ok(None)
    ensures NoLineBreak(Render(TableEnd(c)))
  {
    TableEndStrip(c);
    TableEndPrintable(c);
  }

  lemma TableEndStrip(c: string)
    ensures Strip(TableOptions + c + "' ") != [] && Strip(TableOptions + c + "' ")[0] == ')'
  {
    var line := TableOptions + c + "' ";
    TableOptionsPrintable();
    assert line[0] == ')';
    assert line == "" + line;
    StripFirst("", line);
  }

  lemma TableEndPrintable(c: string)
    requires Printable(c)
    ensures NoLineBreak(TableOptions + c + "' ")
  {
    TableOptionsPrintable();
    PrintableConcat(TableOptions, c);
    PrintableConcat(TableOptions + c, "' ");
    PrintableNoBreak(TableOptions + c + "' ");
  }

  lemma TableOptionsPrintable()
    ensures Printable(TableOptions) && TableOptions[0] == ')'
  {
    PrintableConcat(") ENGINE=InnoDB ", "DEFAULT CHARSET=utf8 COMMENT='");
  }

  /** The lines of a body, rendered. */
  function Rendered(ls: seq<Line>): (r: seq<string>)
    ensures |r| == |ls|
    ensures forall i :: 0 <= i < |ls| ==> r[i] == Render(ls[i])
  {
    if ls == [] then [] else [Render(ls[0])] + Rendered(ls[1..])
  }

  /** The names of the ordinary columns, in order. */
  function Columns(ls: seq<Line>): seq<string> {
    if ls == [] then []
    else (if ls[0].Column? then [ls[0].name] else []) + Columns(ls[1..])
  }

  /** A CREATE_SQL body: its lines joined by newlines, no leading newline. */
  function Body(ls: seq<Line>): string {
    Join("\n", Rendered(ls))
  }

  lemma {:induction false} RenderedFields(ls: seq<Line>)
    requires forall i :: 0 <= i < |ls| ==> WellFormed(ls[i])
    ensures LinesFields(Rendered(ls)) == Ok(Columns(ls))
  {
    if ls != [] {
      var r0, rest := Render(ls[0]), Rendered(ls[1..]);
      assert ls[0] in ls;
      LineFieldOf(ls[0]);
      RenderedFields(ls[1..]);
      ConsFields(r0, rest, Contributes(ls[0]), Columns(ls[1..]));
      assert Rendered(ls) == [r0] + rest;
    }
  }

  lemma ConsFields(line: string, rest: seq<string>, o: Option<string>, fs: seq<string>)
    requires LineField(line) == Ok(o) && LinesFields(rest) == Ok(fs)
    ensures LinesFields([line] + rest) == Ok((if o.Some? then [o.value] else []) + fs)
  {
    LinesFieldsSnoc([], line);
    assert [] + [line] == [line];
    if o.Some? {
      var none: seq<string> := [];
      assert none + [o.value] == [o.value];
    }
    assert LinesFields([line]) == Ok(if o.Some? then [o.value] else []);
    LinesFieldsAppend([line], rest);
  }

  /** `check_fields` of a body of well-formed lines is the list of its
      ordinary column names in declaration order. */
  lemma BodyFields(ls: seq<Line>)
    requires ls != []
    requires forall i :: 0 <= i < |ls| ==> WellFormed(ls[i])
    ensures FieldsOf(Body(ls)) == Ok(Columns(ls))
  {
    forall i | 0 <= i < |ls| ensures NoLineBreak(Rendered(ls)[i]) && Rendered(ls)[i] != [] {
      LineFieldOf(ls[i]);
    }
    SplitJoinLines(Rendered(ls));
    RenderedFields(ls);
  }

  // ------------------------------------------------------------- tables

  /** One ordinary column of a table. */
  datatype ColumnDecl = ColumnDecl(name: string, sqlType: SqlType, comment: Option<string>)

  /** The shape all three schemas share: an AUTO_INCREMENT `id` surrogate
      key, the ordinary columns, the primary key on `id`, further keys, and
      the closing line with the table comment. */
  datatype Table = Table(columns: seq<ColumnDecl>, keys: seq<string>, comment: string)

  const IdColumn := AutoIncrement("id", SqlType(Bigint, Some(20), true, true))
  const PrimaryKey := Index("PRIMARY KEY (`id`),")

  function ColumnLines(cs: seq<ColumnDecl>): (r: seq<Line>)
    ensures |r| == |cs|
  {
    seq(|cs|, i requires 0 <= i < |cs| => Column(cs[i].name, cs[i].sqlType, cs[i].comment))
  }

  function KeyLines(ks: seq<string>): (r: seq<Line>)
    ensures |r| == |ks|
  {
    seq(|ks|, i requires 0 <= i < |ks| => Index(ks[i]))
  }

  function Lines(t: Table): seq<Line> {
    [IdColumn] + ColumnLines(t.columns) + [PrimaryKey] + KeyLines(t.keys) + [TableEnd(t.comment)]
  }

  /** CREATE_SQL: the table's lines, one per source line. */
  function CreateSql(t: Table): string {
    Body(Lines(t))
  }

  /** The column names in declaration order. */
  function Names(cs: seq<ColumnDecl>): (r: seq<string>)
    ensures |r| == |cs|
  {
    seq(|cs|, i requires 0 <= i < |cs| => cs[i].name)
  }

  predicate DeclOk(c: ColumnDecl) {
    Plain(c.name) && (c.comment.Some? ==> Plain(c.comment.value))
  }

  predicate KeyOk(k: string) {
    k != [] && k[0] != '`' && k[0] != ' ' && Printable(k)
  }

  predicate TableOk(t: Table) {
    && (forall i :: 0 <= i < |t.columns| ==> DeclOk(t.columns[i]))
    && (forall i :: 0 <= i < |t.keys| ==> KeyOk(t.keys[i]))
    && Printable(t.comment)
  }

  lemma {:induction false} ColumnsAppend(a: seq<Line>, b: seq<Line>)
    ensures Columns(a + b) == Columns(a) + Columns(b)
    decreases |a|
  {
    if a != [] {
      assert (a + b)[1..] == a[1..] + b;
      ColumnsAppend(a[1..], b);
    } else {
      assert a + b == b;
    }
  }

  lemma {:induction false} ColumnLinesNames(cs: seq<ColumnDecl>)
    ensures Columns(ColumnLines(cs)) == Names(cs)
    decreases |cs|
  {
    if cs != [] {
      assert ColumnLines(cs)[1..] == ColumnLines(cs[1..]);
      assert Names(cs) == [cs[0].name] + Names(cs[1..]);
      ColumnLinesNames(cs[1..]);
    }
  }

  lemma {:induction false} KeyLinesNoColumns(ks: seq<string>)
    ensures Columns(KeyLines(ks)) == []
    decreases |ks|
  {
    if ks != [] {
      assert KeyLines(ks)[1..] == KeyLines(ks[1..]);
      KeyLinesNoColumns(ks[1..]);
    }
  }

  /** The columns of a table's lines are its declared columns. */
  lemma LinesColumns(t: Table)
    ensures Columns(Lines(t)) == Names(t.columns)
  {
    var cl, kl := ColumnLines(t.columns), KeyLines(t.keys);
    ColumnsAppend([IdColumn], cl);
    ColumnsAppend([IdColumn] + cl, [PrimaryKey]);
    ColumnsAppend([IdColumn] + cl + [PrimaryKey], kl);
    ColumnsAppend([IdColumn] + cl + [PrimaryKey] + kl, [TableEnd(t.comment)]);
    ColumnLinesNames(t.columns);
    KeyLinesNoColumns(t.keys);
  }

  lemma LinesWellFormed(t: Table)
    requires TableOk(t)
    ensures forall i :: 0 <= i < |Lines(t)| ==> WellFormed(Lines(t)[i])
  {
    var ls := Lines(t);
    var n, m := |t.columns|, |t.keys|;
    forall i | 0 <= i < |ls| ensures WellFormed(ls[i]) {
      if i == 0 {
        assert ls[i] == IdColumn;
      } else if i <= n {
        assert ls[i] == ColumnLines(t.columns)[i - 1];
        assert DeclOk(t.columns[i - 1]);
      } else if i == n + 1 {
        assert ls[i] == PrimaryKey;
      } else if i <= n + 1 + m {
        assert ls[i] == KeyLines(t.keys)[i - n - 2];
        assert KeyOk(t.keys[i - n - 2]);
      } else {
        assert ls[i] == TableEnd(t.comment);
      }
    }
  }

  /** `check_fields(CREATE_SQL)` of a table is the list of its ordinary
      columns in declaration order: the AUTO_INCREMENT id and the key lines
      contribute nothing. */
  lemma TableFields(t: Table)
    requires TableOk(t)
    ensures FieldsOf(CreateSql(t)) == Ok(Names(t.columns))
  {
    LinesWellFormed(t);
    BodyFields(Lines(t));
    LinesColumns(t);
  }

  // ---------------------------------------------------- the three schemas

  /** `_all_user_sql` */
  const AllUserTable := Table(
    [ ColumnDecl("openid", NotNull(Varchar, 100), Some("用户平台账号")),
      ColumnDecl("snid", NotNull(Int, 11), Some("平台ID")),
      ColumnDecl("login_time", Nullable(Int, Some(11)), None)],
    [ "UNIQUE KEY `openid_snid` " + "(`openid`,`snid`),",
      "KEY `login_time` (`login_time`)"],
    "所有用户表")

  /** `_props_get_day_sql` */
  const PropsGetDayTable := Table(
    [ ColumnDecl("ds", Nullable(Date, None), None),
      ColumnDecl("dimension", Nullable(Smallint, Some(6)), Some("dau1,新用户2,首付费3,流水4,历史付费7")),
      ColumnDecl("gameid", NotNull(Varchar, 32), Some("游戏ID")),
      ColumnDecl("clientid", NotNull(Int, 11), Some("区服ID")),
      ColumnDecl("propsid", NotNull(Varchar, 200), Some("道具ID")),
      ColumnDecl("type", NotNull(Varchar, 200), Some("道具特征(bind，unbind)")),
      ColumnDecl("get_wayid", NotNull(Int, 11), Some("获得方式")),
      ColumnDecl("get_wayclassid", NotNull(Int, 11), Some("获得方式所属分类(任务，拍卖行)")),
      ColumnDecl("total_cnt", NotNull(Int, 11), Some("人次")),
      ColumnDecl("unique_cnt", NotNull(Int, 11), Some("人数")),
      ColumnDecl("props_sum", NotNull(Int, 11), Some("获取道具总数量"))],
    [ "KEY `dx1` " + "(`ds`,`gameid`,`dimension`, `clientid`)"],
    "道具产出表")

  /** `_gold_consume_day_sql` */
  const GoldConsumeDayTable := Table(
    [ ColumnDecl("ds", Nullable(Date, None), None),
      ColumnDecl("dimension", Nullable(Smallint, Some(6)), Some("dau1,新用户2,首付费3,流水4,历史付费7")),
      ColumnDecl("gameid", NotNull(Varchar, 32), Some("游戏ID")),
      ColumnDecl("clientid", NotNull(Int, 11), Some("区服ID")),
      ColumnDecl("goodsid", NotNull(Int, 11), Some("物品")),
      ColumnDecl("consume_wayid", NotNull(Int, 11), Some("获得方式")),
      ColumnDecl("consume_wayclassid", NotNull(Int, 11), Some("获得方式所属分类(任务，拍卖行)")),
      ColumnDecl("total_cnt", NotNull(Bigint, 20), Some("人次")),
      ColumnDecl("unique_cnt", NotNull(Int, 11), Some("人数")),
      ColumnDecl("gold_sum", NotNull(Bigint, 20), Some("获取金币总数量")),
      ColumnDecl("poundage", NotNull(Bigint, 20), Some("手续费总数量")),
      ColumnDecl("goodsnum", NotNull(Bigint, 20), Some("物品总数量"))],
    [ "KEY `dx1` " + "(`ds`,`gameid`,`dimension`, `clientid`, " + "`goodsid`, `consume_wayclassid`)"],
    "道具消耗日统计表")
  lemma AllUserParts1()
    ensures DeclOk(AllUserTable.columns[0])
         && DeclOk(AllUserTable.columns[1])
         && DeclOk(AllUserTable.columns[2])
  {
  }

  lemma AllUserParts2()
    ensures KeyOk(AllUserTable.keys[0])
  {
  }

  lemma AllUserParts3()
    ensures KeyOk(AllUserTable.keys[1])
         && Printable(AllUserTable.comment)
  {
  }

  lemma AllUserOk()
    ensures TableOk(AllUserTable)
  {
    AllUserParts1();
    AllUserParts2();
    AllUserParts3();
    forall i | 0 <= i < |AllUserTable.columns| ensures DeclOk(AllUserTable.columns[i]) {
      assert i == 0 || i == 1 || i == 2;
    }
    forall i | 0 <= i < |AllUserTable.keys| ensures KeyOk(AllUserTable.keys[i]) {
      assert i == 0 || i == 1;
    }
  }

  lemma AllUserFields()
    ensures FieldsOf(CreateSql(AllUserTable)) == Ok(["openid", "snid", "login_time"])
  {
    AllUserOk();
    TableFields(AllUserTable);
    var names := ["openid", "snid", "login_time"];
    assert |AllUserTable.columns| == 3;
    forall i | 0 <= i < |names| ensures Names(AllUserTable.columns)[i] == names[i] {
      assert i == 0 || i == 1 || i == 2;
    }
    assert Names(AllUserTable.columns) == names;
  }

  lemma PropsGetDayParts1()
    ensures DeclOk(PropsGetDayTable.columns[0])
         && DeclOk(PropsGetDayTable.columns[1])
  {
  }

  lemma PropsGetDayParts2()
    ensures DeclOk(PropsGetDayTable.columns[2])
         && DeclOk(PropsGetDayTable.columns[3])
         && DeclOk(PropsGetDayTable.columns[4])
  {
  }

  lemma PropsGetDayParts3()
    ensures DeclOk(PropsGetDayTable.columns[5])
         && DeclOk(PropsGetDayTable.columns[6])
  {
  }

  lemma PropsGetDayParts4()
    ensures DeclOk(PropsGetDayTable.columns[7])
         && DeclOk(PropsGetDayTable.columns[8])
  {
  }

  lemma PropsGetDayParts5()
    ensures DeclOk(PropsGetDayTable.columns[9])
         && DeclOk(PropsGetDayTable.columns[10])
  {
  }

  lemma PropsGetDayParts6()
    ensures KeyOk(PropsGetDayTable.keys[0])
         && Printable(PropsGetDayTable.comment)
  {
  }

  lemma PropsGetDayOk()
    ensures TableOk(PropsGetDayTable)
  {
    PropsGetDayParts1();
    PropsGetDayParts2();
    PropsGetDayParts3();
    PropsGetDayParts4();
    PropsGetDayParts5();
    PropsGetDayParts6();
    forall i | 0 <= i < |PropsGetDayTable.columns| ensures DeclOk(PropsGetDayTable.columns[i]) {
      assert i == 0 || i == 1 || i == 2 || i == 3 || i == 4 || i == 5 || i == 6 || i == 7 || i == 8 || i == 9 || i == 10;
    }
    forall i | 0 <= i < |PropsGetDayTable.keys| ensures KeyOk(PropsGetDayTable.keys[i]) {
      assert i == 0;
    }
  }

  lemma PropsGetDayFields()
    ensures FieldsOf(CreateSql(PropsGetDayTable)) == Ok(["ds", "dimension", "gameid", "clientid", "propsid", "type",
              "get_wayid", "get_wayclassid", "total_cnt", "unique_cnt", "props_sum"])
  {
    PropsGetDayOk();
    TableFields(PropsGetDayTable);
    var names := ["ds", "dimension", "gameid", "clientid", "propsid", "type",
              "get_wayid", "get_wayclassid", "total_cnt", "unique_cnt", "props_sum"];
    assert |PropsGetDayTable.columns| == 11;
    forall i | 0 <= i < |names| ensures Names(PropsGetDayTable.columns)[i] == names[i] {
      assert i == 0 || i == 1 || i == 2 || i == 3 || i == 4 || i == 5 || i == 6 || i == 7 || i == 8 || i == 9 || i == 10;
    }
    assert Names(PropsGetDayTable.columns) == names;
  }

  lemma GoldConsumeDayParts1()
    ensures DeclOk(GoldConsumeDayTable.columns[0])
         && DeclOk(GoldConsumeDayTable.columns[1])
  {
  }

  lemma GoldConsumeDayParts2()
    ensures DeclOk(GoldConsumeDayTable.columns[2])
         && DeclOk(GoldConsumeDayTable.columns[3])
         && DeclOk(GoldConsumeDayTable.columns[4])
  {
  }

  lemma GoldConsumeDayParts3()
    ensures DeclOk(GoldConsumeDayTable.columns[5])
  {
  }

  lemma GoldConsumeDayParts4()
    ensures DeclOk(GoldConsumeDayTable.columns[6])
         && DeclOk(GoldConsumeDayTable.columns[7])
  {
  }

  lemma GoldConsumeDayParts5()
    ensures DeclOk(GoldConsumeDayTable.columns[8])
         && DeclOk(GoldConsumeDayTable.columns[9])
         && DeclOk(GoldConsumeDayTable.columns[10])
  {
  }

  lemma GoldConsumeDayParts6()
    ensures DeclOk(GoldConsumeDayTable.columns[11])
  {
  }

  lemma GoldConsumeDayParts7()
    ensures KeyOk(GoldConsumeDayTable.keys[0])
  {
  }

  lemma GoldConsumeDayParts8()
    ensures Printable(GoldConsumeDayTable.comment)
  {
  }

  lemma GoldConsumeDayOk()
    ensures TableOk(GoldConsumeDayTable)
  {
    GoldConsumeDayParts1();
    GoldConsumeDayParts2();
    GoldConsumeDayParts3();
    GoldConsumeDayParts4();
    GoldConsumeDayParts5();
    GoldConsumeDayParts6();
    GoldConsumeDayParts7();
    GoldConsumeDayParts8();
    forall i | 0 <= i < |GoldConsumeDayTable.columns| ensures DeclOk(GoldConsumeDayTable.columns[i]) {
      assert i == 0 || i == 1 || i == 2 || i == 3 || i == 4 || i == 5 || i == 6 || i == 7 || i == 8 || i == 9 || i == 10 || i == 11;
    }
    forall i | 0 <= i < |GoldConsumeDayTable.keys| ensures KeyOk(GoldConsumeDayTable.keys[i]) {
      assert i == 0;
    }
  }

  lemma GoldConsumeDayFields()
    ensures FieldsOf(CreateSql(GoldConsumeDayTable)) == Ok(["ds", "dimension", "gameid", "clientid", "goodsid", "consume_wayid",
              "consume_wayclassid", "total_cnt", "unique_cnt", "gold_sum", "poundage", "goodsnum"])
  {
    GoldConsumeDayOk();
    TableFields(GoldConsumeDayTable);
    var names := ["ds", "dimension", "gameid", "clientid", "goodsid", "consume_wayid",
              "consume_wayclassid", "total_cnt", "unique_cnt", "gold_sum", "poundage", "goodsnum"];
    assert |GoldConsumeDayTable.columns| == 12;
    forall i | 0 <= i < |names| ensures Names(GoldConsumeDayTable.columns)[i] == names[i] {
      assert i == 0 || i == 1 || i == 2 || i == 3 || i == 4 || i == 5 || i == 6 || i == 7 || i == 8 || i == 9 || i == 10 || i == 11;
    }
    assert Names(GoldConsumeDayTable.columns) == names;
  }

  // ------------------------------------------------------- registration

  /** The class attributes of the three table classes. */
  const AllUser := ModelBase.(tableName := "all_user", createSql := CreateSql(AllUserTable))
  const PropsGetDay := MergeBase.(tableName := "props_get_day", oldbiTable := "props_get_day",
                                  newbiTable := "props_get_day", createSql := CreateSql(PropsGetDayTable))
  const GoldConsumeDay := MergeBase.(tableName := "gold_consume_day", oldbiTable := "gold_consume_day",
                                     newbiTable := "gold_consume_day", createSql := CreateSql(GoldConsumeDayTable))

  /** The class statements of ddl.py, in module order. */
  const Decls := [
    Decl("Model", ModelBase), Decl("Merge", MergeBase), Decl("AllUser", AllUser),
    Decl("PropsGetDay", PropsGetDay), Decl("GoldConsumeDay", GoldConsumeDay)]

  /** The instances the maps hold: the class attributes with FIELDS set. */
  const AllUserInstance := AllUser.(fields := ["openid", "snid", "login_time"])
  const PropsGetDayInstance := PropsGetDay.(fields := ["ds", "dimension", "gameid", "clientid", "propsid",
    "type", "get_wayid", "get_wayclassid", "total_cnt", "unique_cnt", "props_sum"])
  const GoldConsumeDayInstance := GoldConsumeDay.(fields := ["ds", "dimension", "gameid", "clientid", "goodsid",
    "consume_wayid", "consume_wayclassid", "total_cnt", "unique_cnt", "gold_sum", "poundage", "goodsnum"])

  const AfterAllUser := Registry(
    map["all_user" := AllUserInstance], map["" := AllUserInstance], map["" := AllUserInstance])

  const AfterPropsGetDay := Registry(
    AfterAllUser.tables["props_get_day" := PropsGetDayInstance],
    AfterAllUser.oldTables["props_get_day" := PropsGetDayInstance],
    AfterAllUser.newTables["props_get_day" := PropsGetDayInstance])

  /** A registrable class with a new TABLE_NAME binds its instance in all three maps. */
  lemma RegisterNewName(reg: Registry, d: Decl, inst: Schema)
    requires !IsBase(d.className) && Instance(d) == inst && d.schema.tableName !in reg.tables
    ensures Register(reg, d) == Registry(
      reg.tables[d.schema.tableName := inst],
      reg.oldTables[d.schema.oldbiTable := inst],
      reg.newTables[d.schema.newbiTable := inst])
  {
  }

  lemma AllUserInstanceOf()
    ensures Raised(Decls[2]).None? && Instance(Decls[2]) == AllUserInstance
  {
    AllUserFields();
  }

  lemma RegisterAllUser()
    ensures Raised(Decls[2]).None? && Register(Empty, Decls[2]) == AfterAllUser
  {
    AllUserInstanceOf();
    RegisterNewName(Empty, Decls[2], AllUserInstance);
  }

  lemma PropsGetDayInstanceOf()
    ensures Raised(Decls[3]).None? && Instance(Decls[3]) == PropsGetDayInstance
  {
    PropsGetDayFields();
  }

  lemma RegisterPropsGetDay()
    ensures Raised(Decls[3]).None? && Register(AfterAllUser, Decls[3]) == AfterPropsGetDay
  {
    PropsGetDayInstanceOf();
    assert "props_get_day" != "all_user";
    RegisterNewName(AfterAllUser, Decls[3], PropsGetDayInstance);
  }

  lemma RegisterGoldConsumeDay()
    ensures Raised(Decls[4]).None?
    ensures Register(AfterPropsGetDay, Decls[4]) == Registry(
      AfterPropsGetDay.tables["gold_consume_day" := GoldConsumeDayInstance],
      AfterPropsGetDay.oldTables["gold_consume_day" := GoldConsumeDayInstance],
      AfterPropsGetDay.newTables["gold_consume_day" := GoldConsumeDayInstance])
  {
    GoldConsumeDayInstanceOf();
    assert "gold_consume_day" != "all_user" && "gold_consume_day" != "props_get_day";
    RegisterNewName(AfterPropsGetDay, Decls[4], GoldConsumeDayInstance);
  }

  lemma GoldConsumeDayInstanceOf()
    ensures Raised(Decls[4]).None? && Instance(Decls[4]) == GoldConsumeDayInstance
  {
    GoldConsumeDayFields();
  }

  const Final := Registry(
    map["all_user" := AllUserInstance, "props_get_day" := PropsGetDayInstance,
        "gold_consume_day" := GoldConsumeDayInstance],
    map["" := AllUserInstance, "props_get_day" := PropsGetDayInstance,
        "gold_consume_day" := GoldConsumeDayInstance],
    map["" := AllUserInstance, "props_get_day" := PropsGetDayInstance,
        "gold_consume_day" := GoldConsumeDayInstance])

  lemma RegisterFromStep(reg: Registry, k: nat)
    requires k < |Decls| && Raised(Decls[k]).None?
    ensures RegisterFrom(reg, Decls[k..]) == RegisterFrom(Register(reg, Decls[k]), Decls[k + 1..])
  {
    assert Decls[k..][1..] == Decls[k + 1..];
  }

  lemma BasesRegisterNothing()
    ensures Raised(Decls[0]).None? && Register(Empty, Decls[0]) == Empty
    ensures Raised(Decls[1]).None? && Register(Empty, Decls[1]) == Empty
  {
    assert IsBase(Decls[0].className) && IsBase(Decls[1].className);
  }

  lemma FinalMaps()
    ensures Registry(
      AfterPropsGetDay.tables["gold_consume_day" := GoldConsumeDayInstance],
      AfterPropsGetDay.oldTables["gold_consume_day" := GoldConsumeDayInstance],
      AfterPropsGetDay.newTables["gold_consume_day" := GoldConsumeDayInstance]) == Final
  {
  }

  /** Importing ddl.py registers the three tables under their names with the
      FIELDS of their CREATE_SQL; the inherited empty aliases end up bound to
      `AllUser`, the only class that does not override them, and the two
      statistics tables are their own aliases. */
  lemma ModuleRegistry()
    ensures RegisterAll(Decls) == Ok(Final)
  {
    BasesRegisterNothing();
    RegisterFromStep(Empty, 0);
    RegisterFromStep(Empty, 1);
    RegisterAllUser();
    RegisterFromStep(Empty, 2);
    RegisterPropsGetDay();
    RegisterFromStep(AfterAllUser, 3);
    RegisterGoldConsumeDay();
    RegisterFromStep(AfterPropsGetDay, 4);
    FinalMaps();
    assert Decls[5..] == [];
  }
}
