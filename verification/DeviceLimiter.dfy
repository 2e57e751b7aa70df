// The per-device token buckets of the instruction routes. Rows are kept in
// order of use so that idle ones can be swept from the front; the sweep must not
// change any answer.
module DeviceLimiter {
  import opened Common

  type Device = string

  datatype Config = Config(burst: real, refill: real, idle: real, maxDevices: nat)

  datatype Row = Row(device: Device, tokens: real, stamp: real)

  predicate Plausible(cfg: Config) {
    cfg.burst >= 0.0 && cfg.refill > 0.0
  }

  // An idle row has had time to fill up completely.
  predicate IdleMeansFull(cfg: Config) {
    Plausible(cfg) && cfg.idle >= cfg.burst * cfg.refill
  }

  // The tokens a device has at now, before the charge.
  function Level(cfg: Config, row: Option<Row>, now: real): real
    requires cfg.refill > 0.0
  {
    if row.None? then cfg.burst
    else
      var elapsed := if now > row.value.stamp then now - row.value.stamp else 0.0;
      RealMin(cfg.burst, row.value.tokens + elapsed / cfg.refill)
  }

  function Charged(device: Device, level: real, now: real): Row {
    Row(device, if level >= 1.0 then level - 1.0 else level, now)
  }

  // None admits; otherwise the seconds to wait.
  function Retry(cfg: Config, level: real): Option<int> {
    if level >= 1.0 then None
    else
      var wait := Ceiling((1.0 - level) * cfg.refill);
      Some(if wait < 1 then 1 else wait)
  }

  // ----- the table with eviction -----

  function Swept(cfg: Config, rows: seq<Row>, now: real): seq<Row> {
    if rows == [] || now - rows[0].stamp < cfg.idle then rows else Swept(cfg, rows[1..], now)
  }

  function Find(rows: seq<Row>, device: Device): (r: Option<Row>)
    ensures r.Some? ==> r.value in rows && r.value.device == device
    ensures r.None? ==> forall k :: 0 <= k < |rows| ==> rows[k].device != device
  {
    if rows == [] then None else if rows[0].device == device then Some(rows[0]) else Find(rows[1..], device)
  }

  function Without(rows: seq<Row>, device: Device): (r: seq<Row>)
    ensures forall k :: 0 <= k < |r| ==> r[k] in rows && r[k].device != device
  {
    if rows == [] then []
    else if rows[0].device == device then Without(rows[1..], device)
    else [rows[0]] + Without(rows[1..], device)
  }

  function Trimmed(cfg: Config, rows: seq<Row>): seq<Row> {
    if |rows| > cfg.maxDevices then rows[|rows| - cfg.maxDevices..] else rows
  }

  function Charge(cfg: Config, rows: seq<Row>, device: Device, now: real): (seq<Row>, Option<int>)
    requires cfg.refill > 0.0
  {
    var live := Swept(cfg, rows, now);
    var level := Level(cfg, Find(live, device), now);
    (Trimmed(cfg, Without(live, device) + [Charged(device, level, now)]), Retry(cfg, level))
  }

  // ----- the table without -----

  type Table = map<Device, Row>

  function Entry(table: Table, device: Device): Option<Row> {
    if device in table then Some(table[device]) else None
  }

  function ChargeForever(cfg: Config, table: Table, device: Device, now: real): (Table, Option<int>)
    requires cfg.refill > 0.0
  {
    var level := Level(cfg, Entry(table, device), now);
    (table[device := Charged(device, level, now)], Retry(cfg, level))
  }
}

module LimiterRuns {
  import opened Common
  import opened DeviceLimiter

  // ----- what every call keeps -----

  // One row per device, oldest first, none from the future, no negative tokens.
  predicate InOrder(rows: seq<Row>, now: real) {
    (forall i :: 0 <= i < |rows| ==> rows[i].stamp <= now && rows[i].tokens >= 0.0)
    && (forall i, j :: 0 <= i < j < |rows| ==> rows[i].stamp <= rows[j].stamp)
    && forall i, j :: 0 <= i < j < |rows| ==> rows[i].device != rows[j].device
  }

  predicate Idle(cfg: Config, r: Row, now: real) {
    now - r.stamp >= cfg.idle
  }

  // Sweeping from the front removes exactly the idle rows.
  lemma {:induction false} SweepIsExact(cfg: Config, rows: seq<Row>, now: real)
    requires InOrder(rows, now)
    ensures InOrder(Swept(cfg, rows, now), now)
    ensures forall r :: r in Swept(cfg, rows, now) <==> r in rows && !Idle(cfg, r, now)
    decreases |rows|
  {
    if rows != [] {
      if now - rows[0].stamp < cfg.idle {
        assert forall k :: 0 <= k < |rows| ==> rows[0].stamp <= rows[k].stamp;
      } else {
        SweepIsExact(cfg, rows[1..], now);
        assert rows == [rows[0]] + rows[1..];
      }
    }
  }

  lemma PrependKeepsOrder(first: Row, rest: seq<Row>, now: real)
    requires InOrder(rest, now) && first.stamp <= now && first.tokens >= 0.0
    requires forall r :: r in rest ==> first.stamp <= r.stamp && first.device != r.device
    ensures InOrder([first] + rest, now)
  {
  }

  lemma TailInOrder(rows: seq<Row>, now: real)
    requires InOrder(rows, now) && rows != []
    ensures InOrder(rows[1..], now)
    ensures forall r :: r in rows[1..] ==> rows[0].stamp <= r.stamp && rows[0].device != r.device
    ensures forall r :: r in rows <==> r == rows[0] || r in rows[1..]
  {
    assert rows == [rows[0]] + rows[1..];
  }

  lemma {:induction false} WithoutKeepsOrder(rows: seq<Row>, device: Device, now: real)
    requires InOrder(rows, now)
    ensures InOrder(Without(rows, device), now)
    ensures forall r :: r in Without(rows, device) <==> r in rows && r.device != device
    decreases |rows|
  {
    if rows != [] {
      TailInOrder(rows, now);
      WithoutKeepsOrder(rows[1..], device, now);
      if rows[0].device != device {
        PrependKeepsOrder(rows[0], Without(rows[1..], device), now);
      }
    }
  }

  lemma LevelNonNegative(cfg: Config, row: Option<Row>, now: real)
    requires Plausible(cfg) && (row.Some? ==> row.value.tokens >= 0.0)
    ensures 0.0 <= Level(cfg, row, now) <= cfg.burst
  {
  }

  lemma AppendKeepsOrder(rows: seq<Row>, r: Row, now: real)
    requires InOrder(rows, now) && r.stamp == now && r.tokens >= 0.0
    requires forall k :: 0 <= k < |rows| ==> rows[k].device != r.device
    ensures InOrder(rows + [r], now)
  {
  }

  lemma LaterKeepsOrder(rows: seq<Row>, before: real, now: real)
    requires InOrder(rows, before) && before <= now
    ensures InOrder(rows, now)
  {
  }

  lemma FindIsMember(rows: seq<Row>, device: Device, r: Row, now: real)
    requires InOrder(rows, now) && r in rows && r.device == device
    ensures Find(rows, device) == Some(r)
  {
    var f := Find(rows, device);
    var i :| 0 <= i < |rows| && rows[i] == r;
    if f.Some? {
      var j :| 0 <= j < |rows| && rows[j] == f.value;
    }
  }

  // ----- the two tables agree -----

  // Every row kept is the unbounded table's, and a device without one has been
  // idle long enough.
  predicate Agree(cfg: Config, rows: seq<Row>, table: Table, now: real) {
    InOrder(rows, now)
    && (forall r :: r in rows ==> r.device in table && table[r.device] == r)
    && (forall d :: d in table ==>
          table[d].device == d && table[d].tokens >= 0.0 && table[d].stamp <= now
              && (table[d] in rows || Idle(cfg, table[d], now)))
  }

  // A device idle that long is back at its burst either way.
  lemma IdleIsFull(cfg: Config, r: Row, now: real)
    requires IdleMeansFull(cfg) && r.tokens >= 0.0 && r.stamp <= now && Idle(cfg, r, now)
    ensures Level(cfg, Some(r), now) == cfg.burst
  {
    var elapsed := now - r.stamp;
    assert elapsed / cfg.refill * cfg.refill == elapsed;
    if elapsed / cfg.refill < cfg.burst {
      Scale(elapsed / cfg.refill, cfg.burst, cfg.refill);
    }
  }

  lemma Scale(x: real, y: real, m: real)
    requires x < y && m > 0.0
    ensures x * m < y * m
  {
  }

  lemma SameLevel(cfg: Config, rows: seq<Row>, table: Table, before: real, device: Device, now: real)
    requires IdleMeansFull(cfg) && Agree(cfg, rows, table, before) && before <= now
    ensures Level(cfg, Find(Swept(cfg, rows, now), device), now) == Level(cfg, Entry(table, device), now)
  {
    LaterKeepsOrder(rows, before, now);
    SweepIsExact(cfg, rows, now);
    var live := Swept(cfg, rows, now);
    if device in table {
      var r := table[device];
      if r in live {
        FindIsMember(live, device, r, now);
      } else {
        assert Idle(cfg, r, now);
        IdleIsFull(cfg, r, now);
      }
    }
  }

  // The limiter's cap does not cut anything off this call.
  predicate Roomy(cfg: Config, rows: seq<Row>, device: Device, now: real) {
    |Without(Swept(cfg, rows, now), device)| + 1 <= cfg.maxDevices
  }

  // rest are the rows kept of the other devices; row is the charged device's new one.
  lemma InsertAgrees(cfg: Config, rest: seq<Row>, row: Row, table: Table, now: real)
    requires InOrder(rest, now) && row.stamp == now && row.tokens >= 0.0
    requires forall r :: r in rest ==> r.device != row.device && r.device in table && table[r.device] == r
    requires forall d :: d in table && d != row.device ==>
      table[d].device == d && table[d].tokens >= 0.0 && table[d].stamp <= now
          && (table[d] in rest || Idle(cfg, table[d], now))
    ensures Agree(cfg, rest + [row], table[row.device := row], now)
  {
    AppendKeepsOrder(rest, row, now);
    var after := rest + [row];
    assert after[|rest|] == row;
    assert forall r :: r in after <==> r in rest || r == row;
  }

  lemma ChargeAgrees(cfg: Config, rows: seq<Row>, table: Table, before: real, device: Device, now: real)
    requires IdleMeansFull(cfg) && Agree(cfg, rows, table, before) && before <= now && Roomy(cfg, rows, device, now)
    ensures Charge(cfg, rows, device, now).1 == ChargeForever(cfg, table, device, now).1
    ensures Agree(cfg, Charge(cfg, rows, device, now).0, ChargeForever(cfg, table, device, now).0, now)
  {
    SameLevel(cfg, rows, table, before, device, now);
    LaterKeepsOrder(rows, before, now);
    SweepIsExact(cfg, rows, now);
    var live := Swept(cfg, rows, now);
    WithoutKeepsOrder(live, device, now);
    var level := Level(cfg, Entry(table, device), now);
    LevelNonNegative(cfg, Entry(table, device), now);
    InsertAgrees(cfg, Without(live, device), Charged(device, level, now), table, now);
  }

  // ----- runs -----

  datatype Call = Call(device: Device, now: real)

  predicate ClockOk(calls: seq<Call>, start: real) {
    (forall i :: 0 <= i < |calls| ==> start <= calls[i].now)
    && forall i, j :: 0 <= i < j < |calls| ==> calls[i].now <= calls[j].now
  }

  function RowsAfter(cfg: Config, calls: seq<Call>, n: nat): seq<Row>
    requires cfg.refill > 0.0 && n <= |calls|
  {
    if n == 0 then [] else Charge(cfg, RowsAfter(cfg, calls, n - 1), calls[n - 1].device, calls[n - 1].now).0
  }

  function TableAfter(cfg: Config, calls: seq<Call>, n: nat): Table
    requires cfg.refill > 0.0 && n <= |calls|
  {
    if n == 0 then map[] else ChargeForever(cfg, TableAfter(cfg, calls, n - 1), calls[n - 1].device, calls[n - 1].now).0
  }

  predicate NeverFull(cfg: Config, calls: seq<Call>)
    requires cfg.refill > 0.0
  {
    forall i :: 0 <= i < |calls| ==> RoomAt(cfg, calls, i)
  }

  predicate RoomAt(cfg: Config, calls: seq<Call>, i: nat)
    requires cfg.refill > 0.0 && i < |calls|
  {
    Roomy(cfg, RowsAfter(cfg, calls, i), calls[i].device, calls[i].now)
  }

  // The last clock reading before call n.
  function Moment(calls: seq<Call>, start: real, n: nat): real
    requires n <= |calls|
  {
    if n == 0 then start else calls[n - 1].now
  }

  ghost predicate AgreeAt(cfg: Config, calls: seq<Call>, start: real, n: nat)
    requires cfg.refill > 0.0 && n <= |calls|
  {
    Agree(cfg, RowsAfter(cfg, calls, n), TableAfter(cfg, calls, n), Moment(calls, start, n))
  }

  lemma CallAgrees(cfg: Config, calls: seq<Call>, start: real, n: nat, next: nat)
    requires IdleMeansFull(cfg) && next == n + 1 <= |calls| && RoomAt(cfg, calls, n)
      && Moment(calls, start, n) <= calls[n].now
    requires AgreeAt(cfg, calls, start, n)
    ensures Charge(cfg, RowsAfter(cfg, calls, n), calls[n].device, calls[n].now).1
         == ChargeForever(cfg, TableAfter(cfg, calls, n), calls[n].device, calls[n].now).1
    ensures AgreeAt(cfg, calls, start, next)
  {
    var rows, table := RowsAfter(cfg, calls, n), TableAfter(cfg, calls, n);
    ChargeAgrees(cfg, rows, table, Moment(calls, start, n), calls[n].device, calls[n].now);
    AfterOneMore(cfg, calls, n, next);
  }

  lemma AfterOneMore(cfg: Config, calls: seq<Call>, n: nat, next: nat)
    requires cfg.refill > 0.0 && next == n + 1 <= |calls|
    ensures RowsAfter(cfg, calls, next) == Charge(cfg, RowsAfter(cfg, calls, n), calls[n].device, calls[n].now).0
    ensures TableAfter(cfg, calls, next)
      == ChargeForever(cfg, TableAfter(cfg, calls, n), calls[n].device, calls[n].now).0
  {
  }

  lemma NothingAgrees(cfg: Config, calls: seq<Call>, start: real)
    requires cfg.refill > 0.0
    ensures AgreeAt(cfg, calls, start, 0)
  {
  }

  lemma {:induction false} TablesAgree(cfg: Config, calls: seq<Call>, start: real, n: nat)
    requires IdleMeansFull(cfg) && ClockOk(calls, start) && NeverFull(cfg, calls) && n <= |calls|
    ensures AgreeAt(cfg, calls, start, n)
  {
    if n == 0 {
      NothingAgrees(cfg, calls, start);
    } else {
      TablesAgree(cfg, calls, start, n - 1);
      CallAgrees(cfg, calls, start, n - 1, n);
    }
  }

  // Every call of every run is answered as an unbounded table would answer it.
  lemma EvictionIsInvisible(cfg: Config, calls: seq<Call>, start: real, n: nat)
    requires IdleMeansFull(cfg) && ClockOk(calls, start) && NeverFull(cfg, calls) && n < |calls|
    ensures Charge(cfg, RowsAfter(cfg, calls, n), calls[n].device, calls[n].now).1
         == ChargeForever(cfg, TableAfter(cfg, calls, n), calls[n].device, calls[n].now).1
  {
    TablesAgree(cfg, calls, start, n);
    CallAgrees(cfg, calls, start, n, n + 1);
  }

  // The three limiters the catalog sets up are all of that kind.
  lemma ConfiguredLimitersQualify()
    ensures IdleMeansFull(Config(2.0, 10.0, 20.0, 20000))
    ensures IdleMeansFull(Config(2.0, 300.0, 3600.0, 10000))
    ensures IdleMeansFull(Config(2.0, 10.0, 600.0, 10000))
  {
  }
}

// One charge in its own words.
module LimiterMeaning {
  import opened Common
  import opened DeviceLimiter
  import opened LimiterRuns

  // What a device has at a time: a full burst if it has no row, else what its row has
  // and one token per refill time since, up to the burst.
  predicate HasAt(cfg: Config, row: Option<Row>, now: real, level: real)
    requires cfg.refill > 0.0
  {
    if row.None? then level == cfg.burst
    else
      var since := if now < row.value.stamp then 0.0 else now - row.value.stamp;
      level <= cfg.burst && (level == cfg.burst || level == row.value.tokens + since / cfg.refill)
      && level <= row.value.tokens + since / cfg.refill
  }

  // With a token it is let in and pays it; otherwise it pays nothing and is told the
  // shortest wait in whole seconds, at least one, after which it would have one.
  predicate PaysOrWaits(cfg: Config, device: Device, now: real, level: real, after: Row, retry: Option<int>) {
    && after.device == device && after.stamp == now
    && (retry.None? <==> level >= 1.0)
    && after.tokens == (if level >= 1.0 then level - 1.0 else level)
    && (retry.Some? ==>
          retry.value >= 1 && retry.value as real >= (1.0 - level) * cfg.refill
          && (retry.value > 1 ==> (retry.value - 1) as real < (1.0 - level) * cfg.refill))
  }

  // The row of a device that is not idle yet.
  ghost predicate LiveRow(cfg: Config, rows: seq<Row>, device: Device, now: real, row: Option<Row>) {
    if row.None? then forall r :: r in rows && r.device == device ==> now - r.stamp >= cfg.idle
    else row.value in rows && row.value.device == device && now - row.value.stamp < cfg.idle
  }

  // The table afterwards: the device's new row is the last one; of the others those
  // that are not idle stay, and if they are too many the oldest go.
  ghost predicate TableLeft(cfg: Config, rows: seq<Row>, device: Device, now: real, after: seq<Row>, charged: Row) {
    && |after| <= cfg.maxDevices
    && (cfg.maxDevices > 0 ==> |after| > 0 && after[|after| - 1] == charged)
    && (forall r :: r in after && r != charged ==> r in rows && r.device != device && now - r.stamp < cfg.idle)
    && (forall r :: r in rows && r.device != device && now - r.stamp < cfg.idle && r !in after ==>
          |after| == cfg.maxDevices && forall k :: 0 <= k < |after| ==> r.stamp <= after[k].stamp)
  }

  ghost predicate ChargedAs(cfg: Config, rows: seq<Row>, device: Device, now: real, after: seq<Row>, retry: Option<int>)
    requires cfg.refill > 0.0
  {
    exists row, level, charged ::
      LiveRow(cfg, rows, device, now, row) && HasAt(cfg, row, now, level)
      && PaysOrWaits(cfg, device, now, level, charged, retry) && TableLeft(cfg, rows, device, now, after, charged)
  }

  lemma LevelIsHad(cfg: Config, row: Option<Row>, now: real)
    requires cfg.refill > 0.0
    ensures HasAt(cfg, row, now, Level(cfg, row, now))
  {
  }

  lemma ChargePaysOrWaits(cfg: Config, device: Device, now: real, level: real)
    ensures PaysOrWaits(cfg, device, now, level, Charged(device, level, now), Retry(cfg, level))
  {
  }

  lemma FoundIsLive(cfg: Config, rows: seq<Row>, device: Device, now: real)
    requires InOrder(rows, now)
    ensures LiveRow(cfg, rows, device, now, Find(Swept(cfg, rows, now), device))
  {
    SweepIsExact(cfg, rows, now);
    var live := Swept(cfg, rows, now);
    if Find(live, device).None? {
      forall r | r in rows && r.device == device ensures now - r.stamp >= cfg.idle {
        assert r !in live;
      }
    }
  }

  lemma OlderThanKept(rows: seq<Row>, cut: nat, now: real, r: Row)
    requires InOrder(rows, now) && cut <= |rows| && r in rows[..cut]
    ensures forall k :: cut <= k < |rows| ==> r.stamp <= rows[k].stamp
  {
    var j :| 0 <= j < |rows[..cut]| && rows[..cut][j] == r;
    assert rows[j] == r;
  }

  // Dropping the first rows drops only rows no younger than those kept.
  lemma DropsOldest(rows: seq<Row>, cut: nat, now: real, r: Row)
    requires InOrder(rows, now) && cut <= |rows| && r in rows && r !in rows[cut..]
    ensures forall k :: 0 <= k < |rows[cut..]| ==> r.stamp <= rows[cut..][k].stamp
  {
    assert rows == rows[..cut] + rows[cut..];
    OlderThanKept(rows, cut, now, r);
  }

  lemma TrimmedIs(cfg: Config, rows: seq<Row>) returns (cut: nat)
    ensures cut <= |rows| && Trimmed(cfg, rows) == rows[cut..] && |rows| - cut <= cfg.maxDevices
    ensures cut == 0 || |rows| - cut == cfg.maxDevices
  {
    cut := if |rows| > cfg.maxDevices then |rows| - cfg.maxDevices else 0;
  }

  lemma TrimmedKeepsNewest(cfg: Config, rows: seq<Row>, now: real)
    requires InOrder(rows, now) && rows != []
    ensures var t := Trimmed(cfg, rows);
      && |t| <= cfg.maxDevices && (forall r :: r in t ==> r in rows)
      && (cfg.maxDevices > 0 ==> |t| > 0 && t[|t| - 1] == rows[|rows| - 1])
      && forall r :: r in rows && r !in t ==>
           |t| == cfg.maxDevices && forall k :: 0 <= k < |t| ==> r.stamp <= t[k].stamp
  {
    var cut := TrimmedIs(cfg, rows);
    forall r | r in rows && r !in rows[cut..]
      ensures cut != 0 && forall k :: 0 <= k < |rows[cut..]| ==> r.stamp <= rows[cut..][k].stamp
    {
      assert rows[0..] == rows;
      DropsOldest(rows, cut, now, r);
    }
  }

  lemma ChargeIs(cfg: Config, rows: seq<Row>, device: Device, now: real)
    requires Plausible(cfg) && InOrder(rows, now)
    ensures ChargedAs(cfg, rows, device, now, Charge(cfg, rows, device, now).0, Charge(cfg, rows, device, now).1)
  {
    var live := Swept(cfg, rows, now);
    var row := Find(live, device);
    var level := Level(cfg, row, now);
    var charged := Charged(device, level, now);
    FoundIsLive(cfg, rows, device, now);
    LevelIsHad(cfg, row, now);
    SweepIsExact(cfg, rows, now);
    LevelNonNegative(cfg, row, now);
    ChargePaysOrWaits(cfg, device, now, level);
    TableIs(cfg, rows, device, now, charged);
  }

  lemma TableIs(cfg: Config, rows: seq<Row>, device: Device, now: real, charged: Row)
    requires InOrder(rows, now) && charged.device == device && charged.stamp == now && charged.tokens >= 0.0
    ensures TableLeft(cfg, rows, device, now,
                       Trimmed(cfg, Without(Swept(cfg, rows, now), device) + [charged]), charged)
  {
    var live := Swept(cfg, rows, now);
    SweepIsExact(cfg, rows, now);
    WithoutKeepsOrder(live, device, now);
    AppendKeepsOrder(Without(live, device), charged, now);
    TrimmedKeepsNewest(cfg, Without(live, device) + [charged], now);
  }
}

// The limiter as it updates its ordered table.
module LimiterTable {
  import opened Common
  import opened DeviceLimiter
  import opened LimiterRuns
  import opened LimiterMeaning

  class InstructionLimiter {
    const cfg: Config
    var rows: seq<Row>

    constructor (c: Config)
      ensures cfg == c && rows == []
    {
      cfg, rows := c, [];
    }

    method SweepIdle(now: real)
      modifies this
      ensures rows == Swept(cfg, old(rows), now)
    {
      while rows != [] && !(now - rows[0].stamp < cfg.idle)
        invariant Swept(cfg, rows, now) == Swept(cfg, old(rows), now)
        decreases |rows|
      {
        rows := rows[1..];
      }
    }

    method TrimOldest()
      modifies this
      ensures rows == Trimmed(cfg, old(rows))
    {
      while |rows| > cfg.maxDevices
        invariant |rows| <= |old(rows)| && rows == old(rows)[|old(rows)| - |rows|..]
        invariant |rows| < |old(rows)| ==> |rows| >= cfg.maxDevices
        decreases |rows|
      {
        rows := rows[1..];
      }
    }

    // Refill one bucket and try to take a token from it.
    method Spend(device: Device, row: Option<Row>, now: real) returns (after: Row, retry: Option<int>)
      requires cfg.refill > 0.0
      ensures after == Charged(device, Level(cfg, row, now), now) && retry == Retry(cfg, Level(cfg, row, now))
    {
      var tokens := cfg.burst;
      if row.Some? {
        var elapsed := if now > row.value.stamp then now - row.value.stamp else 0.0;
        tokens := RealMin(cfg.burst, row.value.tokens + elapsed / cfg.refill);
      }
      retry := Retry(cfg, tokens);
      if retry.None? {
        tokens := tokens - 1.0;
      }
      after := Row(device, tokens, now);
    }

    method ChargeDevice(device: Device, now: real) returns (retry: Option<int>)
      requires cfg.refill > 0.0
      modifies this
      ensures rows == Charge(cfg, old(rows), device, now).0
      ensures retry == Charge(cfg, old(rows), device, now).1
      ensures Plausible(cfg) && InOrder(old(rows), now) ==> ChargedAs(cfg, old(rows), device, now, rows, retry)
    {
      if Plausible(cfg) && InOrder(rows, now) {
        ChargeIs(cfg, rows, device, now);
      }
      SweepIdle(now);
      var after;
      after, retry := Spend(device, Find(rows, device), now);
      rows := Without(rows, device) + [after];
      TrimOldest();
    }
  }
}
