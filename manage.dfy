/** The command-line front of manage.py: the command table of `Manage`,
    the dispatch of `Manage.run`, the `k:v` splitting of `Manage.execute`,
    the confirmation rule of `ensure` and the timestamp column chosen by
    `model_timesamp`. */
module Manage {
  import opened Wrappers
  import opened Text
  import opened Schema
  import Schemas

  /** A command function, as far as the table and the dispatch see it:
      its `__name__` and the names of its parameters after `app`. */
  datatype Command = Command(name: string, params: seq<string>)

  /** The arguments a command function is called with after `app`. */
  datatype Call = Call(positional: seq<string>, keywords: map<string, string>)

  /** What `Manage.run(argv)` does: call a command with its split arguments,
      show the help (with the "not found" line or without it), or raise. */
  datatype RunOutcome =
    | Executed(command: Command, call: Call)
    | ShowHelp(notFound: bool)
    | Raised(error: Error)

  // --------------------------------------------------------- command table

  /** The table after registering `fs` in order. */
  function Table(fs: seq<Command>): map<string, Command> {
    if fs == [] then map[] else Table(fs[..|fs| - 1])[fs[|fs| - 1].name := fs[|fs| - 1]]
  }

  /** The table holds a name exactly when some registered function has it. */
  lemma {:induction false} TableNames(fs: seq<Command>)
    ensures forall n :: n in Table(fs) <==> exists i :: 0 <= i < |fs| && fs[i].name == n
  {
    if fs != [] {
      var init := fs[..|fs| - 1];
      TableNames(init);
      assert forall i :: 0 <= i < |init| ==> init[i] == fs[i];
    }
  }

  /** For each name the table holds the function registered last under it. */
  lemma {:induction false} TableLastWins(fs: seq<Command>, i: nat)
    requires i < |fs| && LastRegistered(fs, i)
    ensures fs[i].name in Table(fs) && Table(fs)[fs[i].name] == fs[i]
  {
    if i < |fs| - 1 {
      var init := fs[..|fs| - 1];
      assert init[i] == fs[i];
      assert LastRegistered(init, i) by {
        forall j | i < j < |init|
          ensures init[j].name != init[i].name
        {
          assert init[j] == fs[j];
        }
      }
      TableLastWins(init, i);
    }
  }

  /** No function after the `i`th has its name. */
  ghost predicate LastRegistered(fs: seq<Command>, i: int)
    requires 0 <= i < |fs|
  {
    forall j :: i < j < |fs| ==> fs[j].name != fs[i].name
  }

  // ---------------------------------------------------------- k:v splitting

  /** `k, v = arg.split(":")`: the unpacking raises ValueError unless the
      split has exactly two parts. */
  function KeyValue(arg: string): (r: Result<(string, string), Error>)
    requires ':' in arg
    ensures r.Ok? <==> Count(arg, ':') == 1
    ensures r.Err? ==> r.error == ValueError
    ensures r.Ok? ==> arg == r.value.0 + ":" + r.value.1 && ':' !in r.value.0 && ':' !in r.value.1
  {
    var parts := Split(arg, ':');
    SplitLength(arg, ':');
    CountZeroFree(arg, ':');
    JoinSplit(arg, ':');
    if |parts| == 2 then
      assert Join([':'], parts) == parts[0] + [':'] + parts[1];
      Ok((parts[0], parts[1]))
    else Err(ValueError)
  }

  /** Splitting undoes writing `k:v` for a colon-free key and value. */
  lemma KeyValueOf(k: string, v: string)
    requires ':' !in k && ':' !in v
    ensures ':' in k + ":" + v && KeyValue(k + ":" + v) == Ok((k, v))
  {
    assert (k + ":" + v)[|k|] == ':';
    assert Join([':'], [k, v]) == k + ":" + v;
    SplitJoin([k, v], ':');
  }

  /** `arg` is a `k:v` argument giving `k` the value `v`. */
  ghost predicate Sets(arg: string, k: string, v: string) {
    ':' in arg && KeyValue(arg) == Ok((k, v))
  }

  /** `args[i]` sets `k` to `v`, and no later argument sets `k`. */
  ghost predicate LastSets(args: seq<string>, i: int, k: string, v: string) {
    && 0 <= i < |args|
    && Sets(args[i], k, v)
    && forall j, w :: i < j < |args| ==> !Sets(args[j], k, w)
  }

  /** The loop of `Manage.execute` over `args`, as a function of its prefix:
      a `k:v` argument sets a keyword, any other argument is appended to the
      positional ones, and the first malformed `k:v` argument raises. */
  function SplitArgs(args: seq<string>): (r: Result<Call, Error>)
    ensures r.Err? ==> r.error == ValueError
  {
    if args == [] then Ok(Call([], map[]))
    else
      var a := args[|args| - 1];
      match SplitArgs(args[..|args| - 1])
      case Err(e) => Err(e)
      case Ok(c) =>
        if ':' in a then
          match KeyValue(a)
          case Err(e) => Err(e)
          case Ok(kv) => Ok(c.(keywords := c.keywords[kv.0 := kv.1]))
        else Ok(c.(positional := c.positional + [a]))
  }

  /** The arguments without a colon, in their order. */
  function Positional(args: seq<string>): (r: seq<string>)
    ensures |r| <= |args|
  {
    if args == [] then [] else (if ':' in args[0] then [] else [args[0]]) + Positional(args[1..])
  }

  lemma {:induction false} PositionalSnoc(args: seq<string>, a: string)
    ensures Positional(args + [a]) == Positional(args) + (if ':' in a then [] else [a])
  {
    if args == [] {
      assert [a][1..] == [];
    } else {
      assert (args + [a])[1..] == args[1..] + [a];
      PositionalSnoc(args[1..], a);
    }
  }

  /** Splitting fails exactly when some argument has two or more colons. */
  lemma {:induction false} SplitArgsFails(args: seq<string>)
    ensures SplitArgs(args).Err? <==> exists i :: 0 <= i < |args| && Count(args[i], ':') >= 2
  {
    if args != [] {
      var init := args[..|args| - 1];
      var a := args[|args| - 1];
      SplitArgsFails(init);
      assert forall i :: 0 <= i < |init| ==> init[i] == args[i];
      CountZeroFree(a, ':');
      if SplitArgs(args).Err? && SplitArgs(init).Ok? {
        assert Count(a, ':') >= 2;
      }
      if exists i :: 0 <= i < |args| && Count(args[i], ':') >= 2 {
        var i :| 0 <= i < |args| && Count(args[i], ':') >= 2;
        if i < |init| {
          assert Count(init[i], ':') >= 2;
        }
      }
    }
  }

  /** The positional arguments are the colon-free ones, in order. */
  lemma {:induction false} SplitArgsPositional(args: seq<string>)
    requires SplitArgs(args).Ok?
    ensures SplitArgs(args).value.positional == Positional(args)
  {
    if args != [] {
      var init := args[..|args| - 1];
      var a := args[|args| - 1];
      SplitArgsPositional(init);
      assert args == init + [a];
      PositionalSnoc(init, a);
    }
  }

  /** The keywords are the keys of the `k:v` arguments, each bound to the
      value of the last argument that sets it. */
  lemma {:induction false} SplitArgsKeywords(args: seq<string>)
    requires SplitArgs(args).Ok?
    ensures KeywordsOf(args, SplitArgs(args).value.keywords)
  {
    if args != [] {
      var init := args[..|args| - 1];
      var a := args[|args| - 1];
      assert args == init + [a];
      SplitArgsKeywords(init);
      KeywordsSnoc(init, a);
    }
  }

  /** `kw` holds exactly the keys the `k:v` arguments set, each with the
      value of the last argument that sets it. */
  ghost predicate KeywordsOf(args: seq<string>, kw: map<string, string>) {
    && (forall k :: k in kw <==> exists i, v :: 0 <= i < |args| && Sets(args[i], k, v))
    && (forall i, k, v :: LastSets(args, i, k, v) ==> k in kw && kw[k] == v)
  }

  lemma KeywordsSnoc(init: seq<string>, a: string)
    requires SplitArgs(init + [a]).Ok?
    requires SplitArgs(init).Ok? && KeywordsOf(init, SplitArgs(init).value.keywords)
    ensures KeywordsOf(init + [a], SplitArgs(init + [a]).value.keywords)
  {
    var args := init + [a];
    var n := |init|;
    assert args[..n] == init;
    assert forall i :: 0 <= i < n ==> args[i] == init[i];
    var before := SplitArgs(init).value.keywords;
    var after := SplitArgs(args).value.keywords;
    if ':' in a {
      var kv := KeyValue(a).value;
      assert Sets(a, kv.0, kv.1);
      assert after == before[kv.0 := kv.1];
      forall i, k, v | LastSets(args, i, k, v)
        ensures k in after && after[k] == v
      {
        if i < n {
          assert k != kv.0 by {
            assert i < n && Sets(args[n], kv.0, kv.1);
          }
          assert LastSets(init, i, k, v);
        }
      }
    } else {
      assert after == before;
      forall i, k, v | LastSets(args, i, k, v)
        ensures k in after && after[k] == v
      {
        assert i < n;
        assert LastSets(init, i, k, v);
      }
    }
  }

  // ---------------------------------------------------------- the manager

  /** `Manage`: `cmds`, the command table, filled by `command`. */
  class Manage {
    var cmds: map<string, Command>
    /** The functions registered so far, in order. */
    ghost var registered: seq<Command>

    ghost predicate Valid()
      reads this
    {
      cmds == Table(registered)
    }

    /** `Manage()`: an empty table. */
    constructor ()
      ensures Valid() && registered == [] && cmds == map[]
    {
      cmds := map[];
      registered := [];
    }

    /** `command(func)`: stores `func` under its `__name__`, replacing an
        earlier function of that name. */
    method Register(f: Command)
      requires Valid()
      modifies this
      ensures Valid() && registered == old(registered) + [f]
      ensures cmds == old(cmds)[f.name := f]
    {
      cmds := cmds[f.name := f];
      registered := registered + [f];
      assert registered[..|registered| - 1] == old(registered);
    }

    /** `execute(func, *args, **kwargs)`: the loop that splits `args`; the
        `kwargs` passed in play no part, as the loop starts from an empty dict. */
    method Execute(f: Command, args: seq<string>, kwargs: map<string, string>) returns (r: Result<Call, Error>)
      ensures r == SplitArgs(args)
    {
      var nargs: seq<string> := [];
      var kw: map<string, string> := map[];
      var i := 0;
      while i < |args|
        invariant 0 <= i <= |args|
        invariant SplitArgs(args[..i]) == Ok(Call(nargs, kw))
      {
        var arg := args[i];
        assert args[..i + 1][..i] == args[..i];
        if ':' in arg {
          var kv := KeyValue(arg);
          if kv.Err? {
            SplitArgsStops(args, i + 1);
            return Err(kv.error);
          }
          kw := kw[kv.value.0 := kv.value.1];
        } else {
          nargs := nargs + [arg];
        }
        i := i + 1;
      }
      assert args[..i] == args;
      r := Ok(Call(nargs, kw));
    }

    /** `run(argv)`: `argv[1]` names the command, the rest are its arguments. */
    method Run(argv: seq<string>) returns (r: RunOutcome)
      ensures |argv| < 2 ==> r == Raised(IndexError)
      ensures |argv| >= 2 && argv[1] !in cmds ==>
                r == ShowHelp(argv[1] != "help" && argv[1] != "-l" && argv[1] != "-h")
      ensures |argv| >= 2 && argv[1] in cmds ==>
                || (r.Executed? && r.command == cmds[argv[1]] && SplitArgs(argv[2..]) == Ok(r.call))
                || (r.Raised? && SplitArgs(argv[2..]) == Err(r.error))
    {
      if |argv| < 2 {
        return Raised(IndexError);
      }
      var cmd := argv[1];
      if cmd !in cmds {
        var notFound := cmd !in ["help", "-l", "-h"];
        return ShowHelp(notFound);
      }
      var f := cmds[cmd];
      var call := Execute(f, argv[2..], map[]);
      r := match call
        case Ok(c) => Executed(f, c)
        case Err(e) => Raised(e);
    }
  }

  /** Once a prefix raised, the whole loop raises the same error. */
  lemma {:induction false} SplitArgsStops(args: seq<string>, n: nat)
    requires n <= |args| && SplitArgs(args[..n]).Err?
    ensures SplitArgs(args) == SplitArgs(args[..n])
    decreases |args| - n
  {
    if n < |args| {
      assert args[..n + 1][..n] == args[..n];
      SplitArgsStops(args, n + 1);
    } else {
      assert args[..n] == args;
    }
  }

  // ----------------------------------------------------------------- ensure

  /** `ensure(option, msg)` asks for confirmation unless `ensure` is given
      with a value other than "yes". */
  predicate Prompts(option: map<string, string>) {
    "ensure" !in option || option["ensure"] == "yes"
  }

  /** Whether the command goes on or `sys.exit(0)` ends it. */
  datatype Confirmation = Proceed | Cancelled

  /** `ensure(option, msg)` with `answer` the line `raw_input` reads, which is
      looked at only when prompting. */
  function Ensure(option: map<string, string>, answer: string): (r: Confirmation)
    ensures r == Cancelled <==> Prompts(option) && answer != "yes"
  {
    if Prompts(option) && answer != "yes" then Cancelled else Proceed
  }

  /** A command line carrying `ensure:v` with any value but "yes" (such as
      `ensure:no`) skips the prompt, whatever the answer would have been. */
  lemma EnsureOff(positional: seq<string>, v: string, answer: string)
    requires forall i :: 0 <= i < |positional| ==> ':' !in positional[i]
    requires ':' !in v && v != "yes"
    ensures SplitArgs(positional + ["ensure" + ":" + v]) == Ok(Call(positional, map["ensure" := v]))
    ensures Ensure(map["ensure" := v], answer) == Proceed
  {
    ColonFreeArgs(positional);
    assert ':' !in "ensure";
    KeyValueOf("ensure", v);
    SplitArgsSnoc(positional, "ensure" + ":" + v);
    assert map[]["ensure" := v] == map["ensure" := v];
  }

  /** Arguments without a colon are all passed positionally. */
  lemma {:induction false} ColonFreeArgs(args: seq<string>)
    requires forall i :: 0 <= i < |args| ==> ':' !in args[i]
    ensures SplitArgs(args) == Ok(Call(args, map[]))
  {
    if args != [] {
      var init := args[..|args| - 1];
      assert forall i :: 0 <= i < |init| ==> init[i] == args[i];
      ColonFreeArgs(init);
      assert init + [args[|args| - 1]] == args;
    }
  }

  /** One more well-formed `k:v` argument sets its keyword. */
  lemma SplitArgsSnoc(init: seq<string>, a: string)
    requires SplitArgs(init).Ok? && ':' in a && KeyValue(a).Ok?
    ensures SplitArgs(init + [a]) ==
              Ok(SplitArgs(init).value.(keywords := SplitArgs(init).value.keywords[KeyValue(a).value.0 := KeyValue(a).value.1]))
  {
    assert (init + [a])[..|init|] == init;
  }

  // --------------------------------------------------------- model_timesamp

  predicate IsTimeField(f: string) {
    EndsWith(f, "_time")
  }

  /** The first field whose name ends in `_time`. */
  function FirstTimeField(fields: seq<string>): (r: Option<string>)
    ensures r.Some? <==> exists i :: 0 <= i < |fields| && IsTimeField(fields[i])
    ensures r.Some? ==> exists i :: 0 <= i < |fields| && fields[i] == r.value && IsTimeField(fields[i])
                                    && forall j :: 0 <= j < i ==> !IsTimeField(fields[j])
  {
    if fields == [] then None
    else if IsTimeField(fields[0]) then Some(fields[0])
    else
      var r := FirstTimeField(fields[1..]);
      assert forall i :: 1 <= i < |fields| ==> fields[i] == fields[1..][i - 1];
      r
  }

  /** `model_timesamp(model)`: TIMESTAMP when it is non-empty, otherwise the
      first `_time` field; None (after logging the IndexError) when there is
      neither. */
  function ModelTimestamp(m: Schema): (r: Option<string>)
    ensures m.timestamp != "" ==> r == Some(m.timestamp)
    ensures m.timestamp == "" ==> (r.Some? <==> exists i :: 0 <= i < |m.fields| && IsTimeField(m.fields[i]))
    ensures m.timestamp == "" && r.Some? ==>
              exists i :: 0 <= i < |m.fields| && m.fields[i] == r.value && IsTimeField(m.fields[i])
                          && forall j :: 0 <= j < i ==> !IsTimeField(m.fields[j])
  {
    if m.timestamp != "" then Some(m.timestamp) else FirstTimeField(m.fields)
  }

  /** `clear_history` deletes `all_user` rows by `login_time`, its only `_time` field. */
  lemma AllUserTimestamp()
    ensures ModelTimestamp(Schemas.AllUserInstance) == Some("login_time")
  {
    var fs := Schemas.AllUserInstance.fields;
    assert fs == ["openid", "snid", "login_time"];
    assert !IsTimeField(fs[0]) && !IsTimeField(fs[1]);
    assert IsTimeField(fs[2]);
    assert FirstTimeField(fs[2..]) == Some("login_time");
    assert fs[1..][1..] == fs[2..];
  }
}
