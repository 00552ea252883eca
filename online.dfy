/** `Online` of manage.py: the five-minute buckets of `date_time` and the
    aggregation of `cal_online`, which counts online users per game, client
    and bucket and per game and bucket, and hands every row to one
    `Model.insert`. */
module Online {
  import opened Wrappers
  import opened Text
  import opened Sql
  import opened Schema
  import Ddl

  /** `Online.INTERVAL`, the bucket width in minutes. */
  const Interval: nat := 5

  /** A local wall-clock reading, as `datetime.fromtimestamp` gives it. */
  datatype WallClock = WallClock(date: string, hour: nat, minute: nat, second: nat)

  type Clock = c: WallClock | c.hour < 24 && c.minute < 60 && c.second < 60
    witness WallClock("", 0, 0, 0)

  /** `tt.replace(minute=tt.minute / delta * delta, second=0)` with the
      default `delta`: the start of the five-minute slot the reading falls in. */
  function FloorMinute(t: Clock): (r: Clock)
    ensures r.date == t.date && r.hour == t.hour && r.second == 0
    ensures r.minute % Interval == 0 && r.minute <= t.minute < r.minute + Interval
  {
    t.(minute := t.minute / Interval * Interval, second := 0)
  }

  /** The floored minute is the only multiple of five at most four minutes
      below the reading, so flooring again changes nothing. */
  lemma FloorUnique(t: Clock, m: nat)
    requires m % Interval == 0 && m <= t.minute < m + Interval
    ensures FloorMinute(t).minute == m
    ensures FloorMinute(FloorMinute(t)) == FloorMinute(t)
  {
  }

  /** Two decimal digits, as `str` renders the fields of a `time`. */
  function Pad2(n: nat): (r: string)
    requires n < 100
    ensures |r| == 2
  {
    if n < 10 then "0" + [DigitChar(n)] else [DigitChar(n / 10), DigitChar(n % 10)]
  }

  /** `str(t2)` for a time without microseconds: `HH:MM:SS`. */
  function TimeText(t: Clock): string {
    Pad2(t.hour) + ":" + Pad2(t.minute) + ":" + Pad2(t.second)
  }

  /** A bucket: `(str(t.date()), str(t2))`. */
  datatype Bucket = Bucket(ds: string, ti: string)

  /** `date_time(timestamp)`: `int(timestamp)` raises ValueError on a cell
      that is not an integer; `localTime` is the timezone conversion. */
  function DateTime(timestamp: string, localTime: int -> Clock): (r: Result<Bucket, Error>)
    ensures r.Err? <==> ParseInt(timestamp).None?
    ensures r.Err? ==> r.error == ValueError
  {
    match ParseInt(timestamp)
    case None => Err(ValueError)
    case Some(n) =>
      var t := FloorMinute(localTime(n));
      Ok(Bucket(t.date, TimeText(t)))
  }

  /** `self.date_time` as the bucket function of the rows. */
  function Buckets(localTime: int -> Clock): string -> Result<Bucket, Error> {
    t => DateTime(t, localTime)
  }

  /** Readings in the same five minutes of the same hour and day share a bucket. */
  lemma SameBucket(s1: string, s2: string, localTime: int -> Clock)
    requires ParseInt(s1).Some? && ParseInt(s2).Some?
    requires var t1, t2 := localTime(ParseInt(s1).value), localTime(ParseInt(s2).value);
             t1.date == t2.date && t1.hour == t2.hour && t1.minute / Interval == t2.minute / Interval
    ensures DateTime(s1, localTime) == DateTime(s2, localTime)
  {
  }

  /** `int(users)`, with 0 for a cell that does not parse. */
  function UsersOf(cell: string): int {
    match ParseInt(cell)
    case Some(n) => n
    case None => 0
  }

  /** A count written by `str` reads back as itself; an empty cell counts 0. */
  lemma UsersRoundTrip(n: int)
    ensures UsersOf(IntToString(n)) == n
    ensures UsersOf("") == 0
  {
    IntRoundTrip(n);
  }

  // ------------------------------------------------------------ entries

  /** One row of the frame: `gameid`, `clientid`, `online_time`, `users`,
      each as the text of its cell. */
  datatype Sample = Sample(gameid: string, clientid: string, onlineTime: string, users: string)

  /** A row after `int(users)` and `date_time(online_time)`. */
  datatype Entry = Entry(gameid: string, clientid: string, bucket: Bucket, users: int)

  /** The keys of `group` (game, client, bucket) and of `all_group` (game, bucket). */
  datatype Slot = Slot(gameid: string, clientid: string, bucket: Bucket)
  datatype GameSlot = GameSlot(gameid: string, bucket: Bucket)

  function SlotOf(e: Entry): Slot {
    Slot(e.gameid, e.clientid, e.bucket)
  }

  function GameSlotOf(e: Entry): GameSlot {
    GameSlot(e.gameid, e.bucket)
  }

  function EntryOf(s: Sample, bucketOf: string -> Result<Bucket, Error>): Result<Entry, Error> {
    match bucketOf(s.onlineTime)
    case Err(e) => Err(e)
    case Ok(b) => Ok(Entry(s.gameid, s.clientid, b, UsersOf(s.users)))
  }

  /** No row's time fails to parse, so `cal_online` does not raise. */
  predicate AllParse(samples: seq<Sample>, bucketOf: string -> Result<Bucket, Error>) {
    forall i :: 0 <= i < |samples| ==> EntryOf(samples[i], bucketOf).Ok?
  }

  /** The entries of the rows, in order. */
  function EntriesOf(samples: seq<Sample>, bucketOf: string -> Result<Bucket, Error>): (r: seq<Entry>)
    requires AllParse(samples, bucketOf)
  {
    seq(|samples|, i requires 0 <= i < |samples| => EntryOf(samples[i], bucketOf).value)
  }

  /** Each row gives one entry: its game and client, the bucket of its
      time and its user count (0 when that is not an integer). */
  lemma EntriesOfRows(samples: seq<Sample>, bucketOf: string -> Result<Bucket, Error>, i: nat)
    requires AllParse(samples, bucketOf) && i < |samples|
    ensures |EntriesOf(samples, bucketOf)| == |samples|
    ensures var e := EntriesOf(samples, bucketOf)[i];
            && e.gameid == samples[i].gameid && e.clientid == samples[i].clientid
            && Ok(e.bucket) == bucketOf(samples[i].onlineTime)
            && e.users == UsersOf(samples[i].users)
  {
  }

  lemma EntriesSnoc(samples: seq<Sample>, i: nat, bucketOf: string -> Result<Bucket, Error>, e: Entry)
    requires i < |samples| && AllParse(samples[..i], bucketOf)
    requires EntryOf(samples[i], bucketOf) == Ok(e)
    ensures AllParse(samples[..i + 1], bucketOf)
    ensures EntriesOf(samples[..i + 1], bucketOf) == EntriesOf(samples[..i], bucketOf) + [e]
  {
    var next := samples[..i + 1];
    assert forall k :: 0 <= k < i ==> next[k] == samples[..i][k];
    assert next[i] == samples[i];
  }

  /** Under `date_time`, the frame goes through exactly when every
      `online_time` cell is an integer. */
  lemma AllParseTimes(samples: seq<Sample>, localTime: int -> Clock)
    ensures AllParse(samples, Buckets(localTime)) <==> forall i :: 0 <= i < |samples| ==> ParseInt(samples[i].onlineTime).Some?
  {
    forall i | 0 <= i < |samples|
      ensures EntryOf(samples[i], Buckets(localTime)).Ok? <==> ParseInt(samples[i].onlineTime).Some?
    {
      assert Buckets(localTime)(samples[i].onlineTime) == DateTime(samples[i].onlineTime, localTime);
    }
  }

  // --------------------------------------------------- aggregation (spec)

  /** The (game, client, bucket) keys in order of first appearance. */
  function Slots(es: seq<Entry>): (r: seq<Slot>)
    ensures forall s :: s in r <==> exists i :: 0 <= i < |es| && SlotOf(es[i]) == s
    ensures forall i, j :: 0 <= i < j < |r| ==> r[i] != r[j]
  {
    if es == [] then []
    else
      var init := es[..|es| - 1];
      assert forall i :: 0 <= i < |init| ==> init[i] == es[i];
      var ks := Slots(init);
      var s := SlotOf(es[|es| - 1]);
      if s in ks then ks else ks + [s]
  }

  /** The (game, bucket) keys in order of first appearance. */
  function GameSlots(es: seq<Entry>): (r: seq<GameSlot>)
    ensures forall g :: g in r <==> exists i :: 0 <= i < |es| && GameSlotOf(es[i]) == g
    ensures forall i, j :: 0 <= i < j < |r| ==> r[i] != r[j]
  {
    if es == [] then []
    else
      var init := es[..|es| - 1];
      assert forall i :: 0 <= i < |init| ==> init[i] == es[i];
      var ks := GameSlots(init);
      var g := GameSlotOf(es[|es| - 1]);
      if g in ks then ks else ks + [g]
  }

  /** The users `group[gameid][clientid][dt]` ends with: each row overwrites
      what an earlier row of the same key stored (0 for a key no row has). */
  function LastUsers(es: seq<Entry>, s: Slot): int {
    if es == [] then 0
    else if SlotOf(es[|es| - 1]) == s then es[|es| - 1].users
    else LastUsers(es[..|es| - 1], s)
  }

  /** The last row of a key decides its users. */
  lemma {:induction false} LastUsersWins(es: seq<Entry>, i: nat)
    requires i < |es|
    requires forall j :: i < j < |es| ==> SlotOf(es[j]) != SlotOf(es[i])
    ensures LastUsers(es, SlotOf(es[i])) == es[i].users
  {
    if i < |es| - 1 {
      var init := es[..|es| - 1];
      assert forall j :: i < j < |init| ==> init[j] == es[j];
      assert init[i] == es[i];
      LastUsersWins(init, i);
    }
  }

  /** `all_group[gameid][dt]`: the sum of the users of every row with that key. */
  function TotalUsers(es: seq<Entry>, g: GameSlot): int {
    if es == [] then 0
    else TotalUsers(es[..|es| - 1], g) + (if GameSlotOf(es[|es| - 1]) == g then es[|es| - 1].users else 0)
  }

  /** Totals add up over consecutive runs of rows. */
  lemma {:induction false} TotalSplit(a: seq<Entry>, b: seq<Entry>, g: GameSlot)
    ensures TotalUsers(a + b, g) == TotalUsers(a, g) + TotalUsers(b, g)
    decreases |b|
  {
    if b == [] {
      assert a + b == a;
    } else {
      var b0 := b[..|b| - 1];
      assert (a + b)[..|a + b| - 1] == a + b0;
      TotalSplit(a, b0, g);
    }
  }

  /** Rows of other games or buckets do not count towards a total. */
  lemma {:induction false} TotalOthers(es: seq<Entry>, g: GameSlot)
    requires forall i :: 0 <= i < |es| ==> GameSlotOf(es[i]) != g
    ensures TotalUsers(es, g) == 0
  {
    if es != [] {
      var init := es[..|es| - 1];
      assert forall i :: 0 <= i < |init| ==> init[i] == es[i];
      TotalOthers(init, g);
    }
  }

  /** A row of `group_list`. */
  datatype OutRow = OutRow(gameid: string, clientid: string, ds: string, ti: string, user: int)

  function ClientRow(s: Slot, users: int): OutRow {
    OutRow(s.gameid, s.clientid, s.bucket.ds, s.bucket.ti, users)
  }

  /** A total row carries client id 0. */
  function TotalRow(g: GameSlot, users: int): OutRow {
    OutRow(g.gameid, "0", g.bucket.ds, g.bucket.ti, users)
  }

  /** `group_list`: one row per (game, client, bucket), then one total row
      per (game, bucket). */
  function Aggregated(es: seq<Entry>): (r: seq<OutRow>)
    ensures |r| == |Slots(es)| + |GameSlots(es)|
  {
    ClientRows(es, Slots(es)) + TotalRows(es, GameSlots(es))
  }

  function ClientRows(es: seq<Entry>, slots: seq<Slot>): (r: seq<OutRow>)
    ensures |r| == |slots|
  {
    seq(|slots|, i requires 0 <= i < |slots| => ClientRow(slots[i], LastUsers(es, slots[i])))
  }

  function TotalRows(es: seq<Entry>, games: seq<GameSlot>): (r: seq<OutRow>)
    ensures |r| == |games|
  {
    seq(|games|, i requires 0 <= i < |games| => TotalRow(games[i], TotalUsers(es, games[i])))
  }

  /** Every (game, client, bucket) of the rows has its row in `group_list`,
      with the users of its last row. */
  lemma AggregatedClient(es: seq<Entry>, i: nat)
    requires i < |es|
    ensures exists j :: 0 <= j < |Slots(es)| && Aggregated(es)[j] == ClientRow(SlotOf(es[i]), LastUsers(es, SlotOf(es[i])))
  {
    var s := SlotOf(es[i]);
    var slots := Slots(es);
    assert s in slots;
    var j :| 0 <= j < |slots| && slots[j] == s;
    assert Aggregated(es)[j] == ClientRows(es, slots)[j];
  }

  /** Every (game, bucket) of the rows has a total row in `group_list`, with
      client id 0 and the sum over its rows. */
  lemma AggregatedTotal(es: seq<Entry>, i: nat)
    requires i < |es|
    ensures exists j :: |Slots(es)| <= j < |Aggregated(es)| &&
                        Aggregated(es)[j] == TotalRow(GameSlotOf(es[i]), TotalUsers(es, GameSlotOf(es[i])))
  {
    var g := GameSlotOf(es[i]);
    var games := GameSlots(es);
    var n := |Slots(es)|;
    assert g in games;
    var k :| 0 <= k < |games| && games[k] == g;
    var rows := Aggregated(es);
    assert rows == ClientRows(es, Slots(es)) + TotalRows(es, games);
    assert rows[n + k] == TotalRows(es, games)[k] == TotalRow(g, TotalUsers(es, g));
  }

  /** `group_list` has no other rows: each is the row of one key, and no key
      has two. */
  lemma AggregatedOnly(es: seq<Entry>, j: nat)
    requires j < |Aggregated(es)|
    ensures j < |Slots(es)| ==> Aggregated(es)[j] == ClientRow(Slots(es)[j], LastUsers(es, Slots(es)[j]))
    ensures j >= |Slots(es)| ==>
              && j - |Slots(es)| < |GameSlots(es)|
              && Aggregated(es)[j] == TotalRow(GameSlots(es)[j - |Slots(es)|], TotalUsers(es, GameSlots(es)[j - |Slots(es)|]))
  {
    if j >= |Slots(es)| {
      assert Aggregated(es)[j] == TotalRows(es, GameSlots(es))[j - |Slots(es)|];
    }
  }

  /** The dict `cal_online` inserts for a row: `'{0}'.format(value)` of each. */
  function RecordOf(o: OutRow): Record {
    [("gameid", o.gameid), ("clientid", o.clientid), ("ds", o.ds), ("ti", o.ti), ("user", IntToString(o.user))]
  }

  function RecordsOf(rows: seq<OutRow>): (r: seq<Record>)
    ensures |r| == |rows|
  {
    seq(|rows|, i requires 0 <= i < |rows| => RecordOf(rows[i]))
  }

  // ------------------------------------------------ aggregation (the loops)

  /** `group` (flattened to one key per game, client and bucket) with its
      keys in first-appearance order, after the rows `es`. */
  ghost predicate GroupOf(es: seq<Entry>, group: map<Slot, int>, slots: seq<Slot>) {
    && slots == Slots(es)
    && (forall s :: s in group <==> s in slots)
    && forall s :: s in group ==> group[s] == LastUsers(es, s)
  }

  /** `all_group` (one key per game and bucket) with its keys in
      first-appearance order, after the rows `es`. */
  ghost predicate TotalsOf(es: seq<Entry>, allGroup: map<GameSlot, int>, games: seq<GameSlot>) {
    && games == GameSlots(es)
    && (forall g :: g in allGroup <==> g in games)
    && forall g :: g in allGroup ==> allGroup[g] == TotalUsers(es, g)
  }

  /** One more row: its key joins the order of first appearance when new. */
  lemma SlotsSnoc(es: seq<Entry>, e: Entry)
    ensures Slots(es + [e]) == if SlotOf(e) in Slots(es) then Slots(es) else Slots(es) + [SlotOf(e)]
    ensures GameSlots(es + [e]) == if GameSlotOf(e) in GameSlots(es) then GameSlots(es) else GameSlots(es) + [GameSlotOf(e)]
  {
    var next := es + [e];
    assert next[..|next| - 1] == es && next[|next| - 1] == e;
  }

  /** One more row: it decides the users of its own key and adds to the
      total of its own game and bucket, and touches no other key. */
  lemma UsersSnoc(es: seq<Entry>, e: Entry, t: Slot, h: GameSlot)
    ensures LastUsers(es + [e], t) == if t == SlotOf(e) then e.users else LastUsers(es, t)
    ensures TotalUsers(es + [e], h) == TotalUsers(es, h) + (if h == GameSlotOf(e) then e.users else 0)
  {
    var next := es + [e];
    assert next[..|next| - 1] == es && next[|next| - 1] == e;
  }

  lemma GroupSnoc(es: seq<Entry>, e: Entry, group: map<Slot, int>, slots: seq<Slot>, group': map<Slot, int>, slots': seq<Slot>)
    requires GroupOf(es, group, slots)
    requires group' == group[SlotOf(e) := e.users]
    requires slots' == if SlotOf(e) in group then slots else slots + [SlotOf(e)]
    ensures GroupOf(es + [e], group', slots')
  {
    assert slots' == Slots(es + [e]) by {
      SlotsSnoc(es, e);
    }
    forall t | t in group'
      ensures group'[t] == LastUsers(es + [e], t)
    {
      UsersSnoc(es, e, t, GameSlotOf(e));
    }
  }

  lemma TotalsSnoc(es: seq<Entry>, e: Entry, allGroup: map<GameSlot, int>, games: seq<GameSlot>, base: int,
                   allGroup': map<GameSlot, int>, games': seq<GameSlot>)
    requires TotalsOf(es, allGroup, games)
    requires base == if GameSlotOf(e) in allGroup then allGroup[GameSlotOf(e)] else 0
    requires allGroup' == allGroup[GameSlotOf(e) := base + e.users]
    requires games' == if GameSlotOf(e) in allGroup then games else games + [GameSlotOf(e)]
    ensures TotalsOf(es + [e], allGroup', games')
  {
    var g := GameSlotOf(e);
    assert games' == GameSlots(es + [e]) by {
      SlotsSnoc(es, e);
    }
    assert base == TotalUsers(es, g) by {
      if g !in allGroup {
        TotalOthers(es, g);
      }
    }
    forall h | h in allGroup'
      ensures allGroup'[h] == TotalUsers(es + [e], h)
    {
      UsersSnoc(es, e, SlotOf(e), h);
    }
  }

  /** One pass of the first loop of `cal_online` for the entry `e`:
      `setdefault` then overwrite in `group`, `setdefault(dt, 0)` then add
      in `all_group` (one update from the old value or 0); a key seen for
      the first time joins its order. */
  method AddRow(ghost es: seq<Entry>, e: Entry, group: map<Slot, int>, slots: seq<Slot>,
                allGroup: map<GameSlot, int>, games: seq<GameSlot>)
    returns (group': map<Slot, int>, slots': seq<Slot>, allGroup': map<GameSlot, int>, games': seq<GameSlot>)
    requires GroupOf(es, group, slots) && TotalsOf(es, allGroup, games)
    ensures GroupOf(es + [e], group', slots') && TotalsOf(es + [e], allGroup', games')
  {
    var s := SlotOf(e);
    slots' := slots;
    if s !in group {
      slots' := slots + [s];
    }
    group' := group[s := e.users];
    GroupSnoc(es, e, group, slots, group', slots');
    var g := GameSlotOf(e);
    games' := games;
    var base := 0;
    if g in allGroup {
      base := allGroup[g];
    } else {
      games' := games + [g];
    }
    allGroup' := allGroup[g := base + e.users];
    TotalsSnoc(es, e, allGroup, games, base, allGroup', games');
  }

  /** The first loop of `cal_online`: `group` and `all_group` over the rows,
      or ValueError at the first row whose time does not parse. */
  method Group(samples: seq<Sample>, bucketOf: string -> Result<Bucket, Error>)
    returns (ok: bool, group: map<Slot, int>, slots: seq<Slot>, allGroup: map<GameSlot, int>, games: seq<GameSlot>)
    ensures ok <==> AllParse(samples, bucketOf)
    ensures ok ==> GroupOf(EntriesOf(samples, bucketOf), group, slots)
    ensures ok ==> TotalsOf(EntriesOf(samples, bucketOf), allGroup, games)
  {
    group, slots, allGroup, games := map[], [], map[], [];
    ghost var es: seq<Entry> := [];
    var i := 0;
    while i < |samples|
      invariant 0 <= i <= |samples| && AllParse(samples[..i], bucketOf)
      invariant es == EntriesOf(samples[..i], bucketOf)
      invariant GroupOf(es, group, slots) && TotalsOf(es, allGroup, games)
    {
      var sample := samples[i];
      var users := UsersOf(sample.users);
      var dt := bucketOf(sample.onlineTime);
      if dt.Err? {
        assert !EntryOf(samples[i], bucketOf).Ok?;
        return false, group, slots, allGroup, games;
      }
      var e := Entry(sample.gameid, sample.clientid, dt.value, users);
      EntriesSnoc(samples, i, bucketOf, e);
      group, slots, allGroup, games := AddRow(es, e, group, slots, allGroup, games);
      es := es + [e];
      i := i + 1;
    }
    assert samples[..i] == samples;
    ok := true;
  }

  /** The loop over `group`: one row per (game, client, bucket). */
  method EmitClients(ghost es: seq<Entry>, group: map<Slot, int>, slots: seq<Slot>) returns (out: seq<OutRow>)
    requires GroupOf(es, group, slots)
    ensures out == ClientRows(es, slots)
  {
    out := [];
    var j := 0;
    while j < |slots|
      invariant 0 <= j <= |slots| && |out| == j
      invariant forall k :: 0 <= k < j ==> out[k] == ClientRow(slots[k], LastUsers(es, slots[k]))
    {
      assert slots[j] in slots;
      out := out + [ClientRow(slots[j], group[slots[j]])];
      j := j + 1;
    }
  }

  /** The loop over `all_group`: one total row per (game, bucket). */
  method EmitTotals(ghost es: seq<Entry>, allGroup: map<GameSlot, int>, games: seq<GameSlot>) returns (out: seq<OutRow>)
    requires TotalsOf(es, allGroup, games)
    ensures out == TotalRows(es, games)
  {
    out := [];
    var j := 0;
    while j < |games|
      invariant 0 <= j <= |games| && |out| == j
      invariant forall k :: 0 <= k < j ==> out[k] == TotalRow(games[k], TotalUsers(es, games[k]))
    {
      assert games[j] in games;
      out := out + [TotalRow(games[j], allGroup[games[j]])];
      j := j + 1;
    }
  }

  /** `cal_online` up to the insert. */
  method Aggregate(samples: seq<Sample>, localTime: int -> Clock) returns (r: Result<seq<OutRow>, Error>)
    ensures !AllParse(samples, Buckets(localTime)) ==> r == Err(ValueError)
    ensures AllParse(samples, Buckets(localTime)) ==> r == Ok(Aggregated(EntriesOf(samples, Buckets(localTime))))
  {
    var ok, group, slots, allGroup, games := Group(samples, Buckets(localTime));
    if !ok {
      return Err(ValueError);
    }
    ghost var es := EntriesOf(samples, Buckets(localTime));
    var clients := EmitClients(es, group, slots);
    var totals := EmitTotals(es, allGroup, games);
    r := Ok(clients + totals);
  }

  // ----------------------------------------------------------- cal_online

  /** `cal_online(df)`: aggregate, then one `Model.insert` of `group_list`
      into `m`, the RealtimeOnline model. A row whose time does not parse
      raises before anything is sent. */
  method CalOnline(d: Ddl.Ddl, m: Schema, samples: seq<Sample>, localTime: int -> Clock)
    returns (r: Result<(), Error>, ghost trace: seq<Ddl.Sent>)
    requires d.Valid()
    modifies d`connections, d.server
    ensures d.Valid()
    ensures d.server.log == old(d.server.log) + trace
    ensures !AllParse(samples, Buckets(localTime)) ==> r == Err(ValueError) && trace == []
    ensures AllParse(samples, Buckets(localTime)) ==>
              Ddl.InsertTrace(d.tables, m, Many(RecordsOf(Aggregated(EntriesOf(samples, Buckets(localTime))))), None, trace, r)
  {
    var rows := Aggregate(samples, localTime);
    if rows.Err? {
      return Err(rows.error), [];
    }
    r, trace := d.ModelInsert(m, Many(RecordsOf(rows.value)), None);
  }
}
