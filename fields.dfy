/** `check_fields` (ddl.py): the insertable column names of a CREATE_SQL body. */
module Fields {
  import opened Wrappers
  import opened Text

  /** What one line of the body contributes. `row[0]` on a line that is blank
      after `strip()` raises IndexError; a line that does not start with a
      backtick, or that mentions AUTO_INCREMENT, is skipped; any other line
      contributes the text between its first and second backtick. */
  function LineField(line: string): (r: Result<Option<string>, Error>)
    ensures r.Err? <==> AllSpace(line)
    ensures r.Err? ==> r.error == IndexError
    ensures r.Ok? && r.value.Some? <==>
              !AllSpace(line) && Strip(line)[0] == '`' && !Contains(Strip(line), "AUTO_INCREMENT")
    ensures r.Ok? && r.value.Some? ==> '`' !in r.value.value
  {
    var row := Strip(line);
    if row == [] then Err(IndexError)
    else if row[0] != '`' || Contains(row, "AUTO_INCREMENT") then Ok(None)
    // row.split('`', 2)[1]: row starts with the separator, so part 1 runs
    // up to the second backtick, or to the end when there is none
    else Ok(Some(TakeUntil(row[1..], '`')))
  }

  /** The fields so far, extended by what one more line contributes. */
  function Extend(acc: Result<seq<string>, Error>, line: Result<Option<string>, Error>): Result<seq<string>, Error> {
    match acc
    case Err(e) => Err(e)
    case Ok(fs) =>
      match line
      case Err(e) => Err(e)
      case Ok(None) => Ok(fs)
      case Ok(Some(f)) => Ok(fs + [f])
  }

  /** The fields contributed by a sequence of lines, in order; the first blank line raises. */
  function LinesFields(lines: seq<string>): Result<seq<string>, Error>
  {
    if lines == [] then Ok([])
    else Extend(LinesFields(lines[..|lines| - 1]), LineField(lines[|lines| - 1]))
  }

  /** What `check_fields(sql)` returns or raises. */
  function FieldsOf(sql: string): Result<seq<string>, Error> {
    LinesFields(SplitLines(sql))
  }

  /** `check_fields` as the source writes it: a loop over `sql.splitlines()`
      that appends one name per column line. */
  method CheckFields(sql: string) returns (r: Result<seq<string>, Error>)
    ensures r == FieldsOf(sql)
  {
    var lines := SplitLines(sql);
    var fields: seq<string> := [];
    var i := 0;
    while i < |lines|
      invariant 0 <= i <= |lines|
      invariant LinesFields(lines[..i]) == Ok(fields)
    {
      assert lines[..i + 1][..i] == lines[..i];
      var row := Strip(lines[i]);
      if row == [] {
        LinesFieldsFailure(lines);
        return Err(IndexError);
      }
      if row[0] != '`' || Contains(row, "AUTO_INCREMENT") {
        i := i + 1;
        continue;
      }
      fields := fields + [TakeUntil(row[1..], '`')];
      i := i + 1;
    }
    assert lines[..i] == lines;
    return Ok(fields);
  }

  /** Fields keep the order of their lines: the fields of a concatenation of
      line sequences are the fields of the first followed by those of the second. */
  lemma {:induction false} LinesFieldsAppend(a: seq<string>, b: seq<string>)
    requires LinesFields(a).Ok? && LinesFields(b).Ok?
    ensures LinesFields(a + b) == Ok(LinesFields(a).value + LinesFields(b).value)
    decreases |b|
  {
    if b == [] {
      assert a + b == a;
      assert LinesFields(a).value + [] == LinesFields(a).value;
    } else {
      var b', last := b[..|b| - 1], b[|b| - 1];
      assert b == b' + [last];
      assert a + b == (a + b') + [last];
      LinesFieldsSnoc(a + b', last);
      LinesFieldsSnoc(b', last);
      LinesFieldsAppend(a, b');
      ExtendAfter(LinesFields(a).value, LinesFields(b').value, LineField(last));
    }
  }

  lemma LinesFieldsSnoc(lines: seq<string>, last: string)
    ensures LinesFields(lines + [last]) == Extend(LinesFields(lines), LineField(last))
  {
    assert (lines + [last])[..|lines|] == lines;
  }

  lemma ExtendAfter(fa: seq<string>, fb: seq<string>, line: Result<Option<string>, Error>)
    requires Extend(Ok(fb), line).Ok?
    ensures Extend(Ok(fa + fb), line) == Ok(fa + Extend(Ok(fb), line).value)
  {
    if line.Ok? && line.value.Some? {
      assert (fa + fb) + [line.value.value] == fa + (fb + [line.value.value]);
    }
  }

  /** `check_fields` raises exactly when some line is blank after trimming. */
  lemma {:induction false} LinesFieldsFailure(lines: seq<string>)
    ensures LinesFields(lines).Err? <==> exists i :: 0 <= i < |lines| && AllSpace(lines[i])
    ensures LinesFields(lines).Err? ==> LinesFields(lines).error == IndexError
  {
    if lines != [] {
      var init := lines[..|lines| - 1];
      LinesFieldsFailure(init);
      if i :| 0 <= i < |init| && AllSpace(init[i]) {
        assert lines[i] == init[i];
      }
      if i :| 0 <= i < |lines| && AllSpace(lines[i]) {
        if i < |init| { assert init[i] == lines[i]; }
      }
    }
  }

  /** What each line contributes, one entry per line. */
  function PerLine(lines: seq<string>): (rs: seq<Result<Option<string>, Error>>)
    ensures |rs| == |lines|
  {
    seq(|lines|, i requires 0 <= i < |lines| => LineField(lines[i]))
  }

  /** The fields a sequence of per-line contributions adds up to. */
  function Collect(rs: seq<Result<Option<string>, Error>>): Result<seq<string>, Error>
  {
    if rs == [] then Ok([]) else Extend(Collect(rs[..|rs| - 1]), rs[|rs| - 1])
  }

  predicate IsName(r: Result<Option<string>, Error>) {
    r.Ok? && r.value.Some?
  }

  /** The positions of the contributions that are names, in increasing order. */
  function Named(rs: seq<Result<Option<string>, Error>>): (idx: seq<nat>)
    ensures forall k :: 0 <= k < |idx| ==> idx[k] < |rs|
  {
    if rs == [] then []
    else if IsName(rs[|rs| - 1]) then Named(rs[..|rs| - 1]) + [|rs| - 1]
    else Named(rs[..|rs| - 1])
  }

  /** The indices of the lines that contribute a field, in line order. */
  function FieldLines(lines: seq<string>): (idx: seq<nat>)
    ensures forall k :: 0 <= k < |idx| ==> idx[k] < |lines|
  {
    Named(PerLine(lines))
  }

  lemma {:induction false} LinesFieldsCollect(lines: seq<string>)
    ensures LinesFields(lines) == Collect(PerLine(lines))
  {
    if lines != [] {
      var init := lines[..|lines| - 1];
      LinesFieldsCollect(init);
      assert PerLine(lines)[..|lines| - 1] == PerLine(init);
    }
  }

  /** Entry `k` of `fs` is the name at position `idx[k]` of `rs`; the
      positions increase, and every name in `rs` is at one of them. */
  predicate Origin(rs: seq<Result<Option<string>, Error>>, fs: seq<string>, idx: seq<nat>) {
    && |idx| == |fs|
    && (forall k :: 0 <= k < |idx| ==> idx[k] < |rs| && rs[idx[k]] == Ok(Some(fs[k])))
    && (forall k, l :: 0 <= k < l < |idx| ==> idx[k] < idx[l])
    && (forall i :: 0 <= i < |rs| && IsName(rs[i]) ==> i in idx)
  }

  lemma {:induction false} CollectOrigin(rs: seq<Result<Option<string>, Error>>)
    requires Collect(rs).Ok?
    ensures Origin(rs, Collect(rs).value, Named(rs))
  {
    if rs != [] {
      var n := |rs| - 1;
      var init := rs[..n];
      CollectOrigin(init);
      assert rs == init + [rs[n]];
      if IsName(rs[n]) {
        OriginName(init, rs[n], Collect(init).value, Named(init));
      } else {
        OriginSkip(init, rs[n], Collect(init).value, Named(init));
      }
    }
  }

  /** A contribution that is a name adds the name and its position. */
  lemma OriginName(rs: seq<Result<Option<string>, Error>>, r: Result<Option<string>, Error>,
                   fs: seq<string>, idx: seq<nat>)
    requires Origin(rs, fs, idx) && IsName(r)
    ensures Origin(rs + [r], fs + [r.value.value], idx + [|rs|])
  {
    var rs', fs', idx' := rs + [r], fs + [r.value.value], idx + [|rs|];
    forall k | 0 <= k < |idx'| ensures idx'[k] < |rs'| && rs'[idx'[k]] == Ok(Some(fs'[k])) {
      if k < |idx| {
        assert idx'[k] == idx[k] && fs'[k] == fs[k];
        assert rs'[idx[k]] == rs[idx[k]];
      }
    }
    forall k, l | 0 <= k < l < |idx'| ensures idx'[k] < idx'[l] {
      assert idx'[k] == idx[k];
      if l < |idx| { assert idx'[l] == idx[l]; }
    }
    forall i | 0 <= i < |rs'| && IsName(rs'[i]) ensures i in idx' {
      if i < |rs| {
        assert rs'[i] == rs[i];
        var k :| 0 <= k < |idx| && idx[k] == i;
        assert idx'[k] == i;
      } else {
        assert idx'[|idx|] == i;
      }
    }
  }

  /** A contribution that is not a name adds nothing. */
  lemma OriginSkip(rs: seq<Result<Option<string>, Error>>, r: Result<Option<string>, Error>,
                   fs: seq<string>, idx: seq<nat>)
    requires Origin(rs, fs, idx) && !IsName(r)
    ensures Origin(rs + [r], fs, idx)
  {
    var rs' := rs + [r];
    forall k | 0 <= k < |idx| ensures idx[k] < |rs'| && rs'[idx[k]] == Ok(Some(fs[k])) {
      assert rs'[idx[k]] == rs[idx[k]];
    }
    forall i | 0 <= i < |rs'| && IsName(rs'[i]) ensures i in idx {
      assert i < |rs|;
      assert rs'[i] == rs[i];
    }
  }

  /** Field `k` is the backticked name of line `FieldLines(lines)[k]`; those
      lines are distinct and in increasing order, and every line that names a
      column is one of them. */
  lemma LinesFieldsOrigin(lines: seq<string>)
    requires LinesFields(lines).Ok?
    ensures |FieldLines(lines)| == |LinesFields(lines).value|
    ensures forall k :: 0 <= k < |FieldLines(lines)| ==>
              LineField(lines[FieldLines(lines)[k]]) == Ok(Some(LinesFields(lines).value[k]))
    ensures forall k, l :: 0 <= k < l < |FieldLines(lines)| ==> FieldLines(lines)[k] < FieldLines(lines)[l]
    ensures forall i :: 0 <= i < |lines| && LineField(lines[i]).Ok? && LineField(lines[i]).value.Some? ==>
              i in FieldLines(lines)
  {
    LinesFieldsCollect(lines);
    var rs := PerLine(lines);
    CollectOrigin(rs);
    assert Origin(rs, LinesFields(lines).value, FieldLines(lines));
    forall i | 0 <= i < |lines| && LineField(lines[i]).Ok? && LineField(lines[i]).value.Some?
      ensures i in FieldLines(lines)
    {
      assert IsName(rs[i]);
    }
  }
}
