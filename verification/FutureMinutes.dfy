/**
  The future-minute bitmap. Messages that are not due yet are remembered only by the minute
  they were posted in: one row of 60 bits per hour, kept in the order of its primary key.
  The rows stand for a plain set of minutes, and every operation below is related to it.
 */
module FutureMinutes {
  import opened Wrappers

  const MINUTE: int := 60_000
  const HOUR: int := 3_600_000

  /** LIMIT of the queries that walk the rows after a moment. */
  const WALK_LIMIT: nat := 170

  /** LIMIT of the compaction query. */
  const COMPACT_LIMIT: nat := 32

  /** One row's `minutes` column. */
  type Bits = b: seq<bool> | |b| == 60 witness seq(60, _ => false)

  datatype Row = Row(hour: int, bits: Bits)

  type Table = seq<Row>

  ghost predicate NonZero(bits: Bits) {
    exists i :: 0 <= i < 60 && bits[i]
  }

  ghost predicate ValidRow(row: Row) {
    row.hour >= 0 && row.hour % HOUR == 0 && NonZero(row.bits)
  }

  /** Hours are distinct, ascending and non-negative, and no row is all zero. */
  ghost predicate Valid(t: Table) {
    && (forall k :: 0 <= k < |t| ==> ValidRow(t[k]))
    && (forall j, k :: 0 <= j < k < |t| ==> t[j].hour < t[k].hour)
  }

  function HourOf(ms: int): int {
    ms / HOUR * HOUR
  }

  function MinuteOf(ms: int): int {
    ms / MINUTE * MINUTE
  }

  /** The position of the bit for a moment in the row of its hour. */
  function BitOf(ms: int): (i: int)
    ensures 0 <= i < 60
  {
    (ms - HourOf(ms)) / MINUTE
  }

  /** The last millisecond of the minute that starts at `x`. */
  function End(x: int): int {
    x + MINUTE - 1
  }

  /** The minute that starts at `x` is in the set the rows stand for. */
  predicate Has(t: Table, x: int) {
    x % MINUTE == 0 && exists k :: 0 <= k < |t| && t[k].hour == HourOf(x) && t[k].bits[BitOf(x)]
  }

  // ---- arithmetic of hours and minutes ----

  lemma Decompose(h: int, i: int)
    requires h % HOUR == 0 && 0 <= i < 60
    ensures (h + i * MINUTE) % MINUTE == 0
    ensures HourOf(h + i * MINUTE) == h && BitOf(h + i * MINUTE) == i
  {
    var q := h / HOUR;
    assert h == q * HOUR;
    assert h + i * MINUTE == (60 * q + i) * MINUTE;
  }

  lemma Compose(x: int)
    requires x % MINUTE == 0
    ensures HourOf(x) % HOUR == 0 && HourOf(x) + BitOf(x) * MINUTE == x
    ensures HourOf(x) <= x < HourOf(x) + HOUR
  {
    var m := x / MINUTE;
    assert x == m * MINUTE;
    assert HourOf(x) == (m / 60) * HOUR;
  }

  lemma MinuteFacts(ms: int)
    ensures MinuteOf(ms) % MINUTE == 0 && MinuteOf(ms) <= ms <= End(MinuteOf(ms))
    ensures HourOf(MinuteOf(ms)) == HourOf(ms) && BitOf(MinuteOf(ms)) == BitOf(ms)
    ensures HourOf(ms) % HOUR == 0
    ensures ms >= 0 ==> HourOf(ms) >= 0
  {
    var m, q := ms / MINUTE, ms / HOUR;
    assert HourOf(ms) == q * HOUR;
    assert 60 * q <= m < 60 * q + 60;
    assert MinuteOf(ms) == HourOf(ms) + (m - 60 * q) * MINUTE;
    Decompose(HourOf(ms), m - 60 * q);
  }

  lemma HourGap(a: int, b: int)
    requires a % HOUR == 0 && b % HOUR == 0 && a < b
    ensures a + HOUR <= b
  {
    var p, q := a / HOUR, b / HOUR;
    assert a == p * HOUR && b == q * HOUR;
  }

  /** Whether a row holds a minute can be read off its own bit. */
  lemma BitIsMinute(t: Table, k: int, i: int)
    requires Valid(t) && 0 <= k < |t| && 0 <= i < 60
    ensures Has(t, t[k].hour + i * MINUTE) <==> t[k].bits[i]
  {
    Decompose(t[k].hour, i);
  }

  /** The row behind a minute of the set. */
  lemma RowOf(t: Table, x: int) returns (k: int)
    requires Has(t, x)
    ensures 0 <= k < |t| && t[k].hour == HourOf(x) && t[k].bits[BitOf(x)]
    ensures t[k].hour + BitOf(x) * MINUTE == x && t[k].hour <= x < t[k].hour + HOUR
  {
    k :| 0 <= k < |t| && t[k].hour == HourOf(x) && t[k].bits[BitOf(x)];
    Compose(x);
  }

  // ---- put: INSERT ... ON CONFLICT DO UPDATE SET minutes = minutes | EXCLUDED.minutes ----

  function OneBit(i: int): Bits
    requires 0 <= i < 60
  {
    seq(60, j => j == i)
  }

  function Or(a: Bits, b: Bits): Bits {
    seq(60, j requires 0 <= j < 60 => a[j] || b[j])
  }

  /** Inserts a row, or ORs its bits into the row of the same hour. */
  function Merge(t: Table, row: Row): Table {
    if t == [] || row.hour < t[0].hour then [row] + t
    else if row.hour == t[0].hour then [Row(row.hour, Or(t[0].bits, row.bits))] + t[1..]
    else [t[0]] + Merge(t[1..], row)
  }

  /** Remembers the minute of `sourceMs`. */
  function Put(t: Table, sourceMs: int): Table {
    Merge(t, Row(HourOf(sourceMs), OneBit(BitOf(sourceMs))))
  }

  ghost predicate RowHas(row: Row, x: int) {
    x % MINUTE == 0 && row.hour == HourOf(x) && row.bits[BitOf(x)]
  }

  lemma HasCons(t: Table, x: int)
    requires t != []
    ensures Has(t, x) <==> RowHas(t[0], x) || Has(t[1..], x)
  {
    if Has(t, x) && !RowHas(t[0], x) {
      var k := RowOf(t, x);
      assert t[k] == t[1..][k - 1];
    }
    if Has(t[1..], x) {
      var k := RowOf(t[1..], x);
      assert t[k + 1] == t[1..][k];
    }
  }

  ghost predicate ValidAbove(t: Table, low: int) {
    Valid(t) && forall k :: 0 <= k < |t| ==> low < t[k].hour
  }

  lemma ConsValid(row: Row, rest: Table, low: int)
    requires ValidRow(row) && low < row.hour && ValidAbove(rest, row.hour)
    ensures ValidAbove([row] + rest, low)
  {
  }

  lemma {:induction false} MergeHours(t: Table, row: Row, low: int)
    requires ValidAbove(t, low) && ValidRow(row) && low < row.hour
    ensures ValidAbove(Merge(t, row), low)
  {
    if t == [] {
    } else if row.hour < t[0].hour {
      ConsValid(row, t, low);
    } else if row.hour == t[0].hour {
      var i :| 0 <= i < 60 && row.bits[i];
      assert Or(t[0].bits, row.bits)[i];
      ConsValid(Row(row.hour, Or(t[0].bits, row.bits)), t[1..], low);
    } else {
      MergeHours(t[1..], row, t[0].hour);
      ConsValid(t[0], Merge(t[1..], row), low);
    }
  }

  lemma {:induction false} MergeMinutes(t: Table, row: Row, x: int)
    ensures Has(Merge(t, row), x) <==> Has(t, x) || RowHas(row, x)
  {
    HasCons(Merge(t, row), x);
    if t == [] || row.hour < t[0].hour {
      assert Merge(t, row)[1..] == t;
    } else {
      HasCons(t, x);
      if row.hour == t[0].hour {
        assert Merge(t, row)[1..] == t[1..];
      } else {
        assert Merge(t, row)[1..] == Merge(t[1..], row);
        MergeMinutes(t[1..], row, x);
      }
    }
  }

  /** Putting a moment adds exactly its minute to the set. */
  lemma PutAddsMinute(t: Table, sourceMs: int)
    requires Valid(t) && sourceMs >= 0
    ensures Valid(Put(t, sourceMs))
    ensures forall x :: Has(Put(t, sourceMs), x) <==> Has(t, x) || x == MinuteOf(sourceMs)
  {
    MinuteFacts(sourceMs);
    var row := Row(HourOf(sourceMs), OneBit(BitOf(sourceMs)));
    assert row.bits[BitOf(sourceMs)];
    MergeHours(t, row, -1);
    forall x
      ensures Has(Put(t, sourceMs), x) <==> Has(t, x) || x == MinuteOf(sourceMs)
    {
      MergeMinutes(t, row, x);
      if RowHas(row, x) {
        Compose(x);
        Compose(MinuteOf(sourceMs));
      }
    }
  }

  function PutAll(t: Table, sources: seq<int>): Table {
    if sources == [] then t else Put(PutAll(t, sources[..|sources| - 1]), sources[|sources| - 1])
  }

  lemma {:induction false} PutAllAddsMinutes(t: Table, sources: seq<int>)
    requires Valid(t) && forall k :: 0 <= k < |sources| ==> sources[k] >= 0
    ensures Valid(PutAll(t, sources))
    ensures forall x :: Has(PutAll(t, sources), x) <==>
                        Has(t, x) || exists k :: 0 <= k < |sources| && x == MinuteOf(sources[k])
  {
    if sources == [] {
    } else {
      var n := |sources| - 1;
      var rest := sources[..n];
      PutAllAddsMinutes(t, rest);
      PutAddsMinute(PutAll(t, rest), sources[n]);
      forall x
        ensures Has(PutAll(t, sources), x) <==>
                Has(t, x) || exists k :: 0 <= k < |sources| && x == MinuteOf(sources[k])
      {
        if Has(PutAll(t, rest), x) && !Has(t, x) {
          var k :| 0 <= k < |rest| && x == MinuteOf(rest[k]);
          assert x == MinuteOf(sources[k]);
        }
        if k :| 0 <= k < |sources| && x == MinuteOf(sources[k]) {
          assert k < n ==> rest[k] == sources[k];
        }
      }
    }
  }

  // ---- first minute after a moment ----

  /** A minute counts when it ends after the given moment; without a moment every minute does. */
  predicate Counts(x: int, after: Option<int>) {
    after.None? || End(x) > after.value
  }

  function FirstBit(row: Row, after: Option<int>, i: int): Option<int>
    requires 0 <= i <= 60
    decreases 60 - i
  {
    if i == 60 then None
    else if row.bits[i] && Counts(row.hour + i * MINUTE, after) then Some(row.hour + i * MINUTE)
    else FirstBit(row, after, i + 1)
  }

  /** The first tracked minute that counts, looking at every row in turn. */
  function FirstAfter(t: Table, after: Option<int>): Option<int> {
    if t == [] then None
    else
      var first := FirstBit(t[0], after, 0);
      if first.Some? then first else FirstAfter(t[1..], after)
  }

  lemma {:induction false} FirstBitIsLeast(row: Row, after: Option<int>, i: int)
    requires 0 <= i <= 60
    ensures var r := FirstBit(row, after, i);
            && (r.None? ==> forall j :: i <= j < 60 && row.bits[j] ==> !Counts(row.hour + j * MINUTE, after))
            && (r.Some? ==> exists k :: i <= k < 60 && row.bits[k] && r.value == row.hour + k * MINUTE
                                        && Counts(r.value, after)
                                        && forall j :: i <= j < k && row.bits[j] ==>
                                             !Counts(row.hour + j * MINUTE, after))
    decreases 60 - i
  {
    if i < 60 {
      FirstBitIsLeast(row, after, i + 1);
    }
  }

  ghost predicate LeastCounting(t: Table, after: Option<int>, r: Option<int>) {
    match r
    case None => forall x :: Has(t, x) ==> !Counts(x, after)
    case Some(m) => Has(t, m) && Counts(m, after) && forall x :: Has(t, x) && Counts(x, after) ==> m <= x
  }

  lemma FirstBitOfRow(t: Table, after: Option<int>)
    requires Valid(t) && t != []
    ensures var r := FirstBit(t[0], after, 0);
            && (r.None? ==> forall x :: RowHas(t[0], x) ==> !Counts(x, after))
            && (r.Some? ==> RowHas(t[0], r.value) && Counts(r.value, after)
                            && forall x :: RowHas(t[0], x) && Counts(x, after) ==> r.value <= x)
  {
    FirstBitIsLeast(t[0], after, 0);
    var r := FirstBit(t[0], after, 0);
    if r.Some? {
      var k :| 0 <= k < 60 && t[0].bits[k] && r.value == t[0].hour + k * MINUTE
               && forall j :: 0 <= j < k && t[0].bits[j] ==> !Counts(t[0].hour + j * MINUTE, after);
      Decompose(t[0].hour, k);
      forall x | RowHas(t[0], x) && Counts(x, after)
        ensures r.value <= x
      {
        Compose(x);
      }
    } else {
      forall x | RowHas(t[0], x)
        ensures !Counts(x, after)
      {
        Compose(x);
      }
    }
  }

  lemma LaterRowsAreLater(t: Table, x: int, y: int)
    requires Valid(t) && t != [] && RowHas(t[0], x) && Has(t[1..], y)
    ensures x < y
  {
    var k := RowOf(t[1..], y);
    assert t[1..][k] == t[k + 1];
    Compose(x);
    HourGap(t[0].hour, t[k + 1].hour);
  }

  /** The result is the minimum of the tracked minutes that count, and missing only when there is none. */
  lemma {:induction false} FirstAfterIsLeast(t: Table, after: Option<int>)
    requires Valid(t)
    ensures LeastCounting(t, after, FirstAfter(t, after))
    decreases |t|
  {
    if t == [] {
    } else {
      FirstBitOfRow(t, after);
      FirstAfterIsLeast(t[1..], after);
      var first := FirstAfter(t, after);
      if first.Some? {
        HasCons(t, first.value);
      }
      forall x | Has(t, x) && Counts(x, after)
        ensures first.Some? && first.value <= x
      {
        HasCons(t, x);
        if FirstBit(t[0], after, 0).Some? && Has(t[1..], x) {
          LaterRowsAreLater(t, first.value, x);
        }
      }
    }
  }

  /** WHERE hour >= low ORDER BY hour LIMIT limit. */
  function From(t: Table, low: int, limit: nat): Table {
    if t == [] || limit == 0 then []
    else if t[0].hour >= low then [t[0]] + From(t[1..], low, limit - 1)
    else From(t[1..], low, limit)
  }

  lemma {:induction false} FromAll(t: Table, low: int, limit: nat)
    requires forall k :: 0 <= k < |t| ==> t[k].hour >= low
    ensures From(t, low, limit) == if |t| < limit then t else t[..limit]
    decreases |t|
  {
    if t == [] || limit == 0 {
    } else {
      FromAll(t[1..], low, limit - 1);
    }
  }

  /** A row of an hour that ended by `after` holds no minute that counts; a row of a later hour always does. */
  lemma RowBeforeOrAfter(row: Row, after: int)
    requires ValidRow(row)
    ensures row.hour < HourOf(after) ==> FirstBit(row, Some(after), 0).None?
    ensures row.hour > HourOf(after) ==> FirstBit(row, Some(after), 0).Some?
  {
    FirstBitIsLeast(row, Some(after), 0);
    MinuteFacts(after);
    if row.hour < HourOf(after) {
      HourGap(row.hour, HourOf(after));
    } else if row.hour > HourOf(after) {
      HourGap(HourOf(after), row.hour);
    }
  }

  /**
    The LIMIT of the query never hides the answer: from the hour of `after` on, at most one row
    can be without a minute that counts.
   */
  lemma {:induction false} LimitSuffices(t: Table, after: int, limit: nat)
    requires Valid(t) && limit >= 2
    ensures FirstAfter(From(t, HourOf(after), limit), Some(after)) == FirstAfter(t, Some(after))
    decreases |t|
  {
    if t == [] {
    } else if t[0].hour < HourOf(after) {
      RowBeforeOrAfter(t[0], after);
      LimitSuffices(t[1..], after, limit);
    } else {
      FromAll(t, HourOf(after), limit);
      var page := From(t, HourOf(after), limit);
      assert page[0] == t[0];
      if |t| > 1 {
        RowBeforeOrAfter(t[1], after);
        assert page[1..][0] == t[1] && t[1..][0] == t[1];
      } else {
        assert page == t;
      }
    }
  }

  /** Without a moment the single first row is enough. */
  lemma FirstRowSuffices(t: Table)
    requires Valid(t)
    ensures FirstAfter(From(t, 0, 1), None) == FirstAfter(t, None)
  {
    FromAll(t, 0, 1);
    if t != [] {
      FirstBitIsLeast(t[0], None, 0);
      assert From(t, 0, 1)[0] == t[0];
    }
  }

  /** Walks the 60 bits of one row. */
  method FirstInRow(row: Row, after: Option<int>) returns (first: Option<int>)
    ensures first == FirstBit(row, after, 0)
  {
    var minute := 0;
    while minute < 60
      invariant 0 <= minute <= 60
      invariant FirstBit(row, after, minute) == FirstBit(row, after, 0)
    {
      var sourceMs := row.hour + minute * MINUTE;
      if row.bits[minute] && Counts(sourceMs, after) {
        return Some(sourceMs);
      }
      minute := minute + 1;
    }
    return None;
  }

  /** Walks the selected rows in order and returns the first minute that counts. */
  method FirstInRows(rows: Table, after: Option<int>) returns (first: Option<int>)
    ensures first == FirstAfter(rows, after)
  {
    var r := 0;
    while r < |rows|
      invariant 0 <= r <= |rows|
      invariant FirstAfter(rows[r..], after) == FirstAfter(rows, after)
    {
      first := FirstInRow(rows[r], after);
      assert rows[r..][0] == rows[r] && rows[r..][1..] == rows[r + 1..];
      if first.Some? {
        return;
      }
      r := r + 1;
    }
    return None;
  }

  method FirstFutureMinute(t: Table, after: Option<int>) returns (first: Option<int>)
    requires Valid(t)
    ensures first == FirstAfter(t, after) && LeastCounting(t, after, first)
  {
    FirstAfterIsLeast(t, after);
    match after
    case None =>
      FirstRowSuffices(t);
      first := FirstInRows(From(t, 0, 1), None);
    case Some(a) =>
      LimitSuffices(t, a, WALK_LIMIT);
      first := FirstInRows(From(t, HourOf(a), WALK_LIMIT), after);
  }

  // ---- clear: minutes wholly inside a completed window ----

  predicate Inside(x: int, low: int, high: int) {
    low <= x && End(x) <= high
  }

  function ClearBits(row: Row, low: int, high: int): Bits {
    seq(60, i requires 0 <= i < 60 => row.bits[i] && !Inside(row.hour + i * MINUTE, low, high))
  }

  predicate AllZero(bits: Bits) {
    forall i :: 0 <= i < 60 ==> !bits[i]
  }

  /** What is left of one row: nothing when its last bit goes. */
  function ClearedRows(row: Row, low: int, high: int): Table {
    var bits := ClearBits(row, low, high);
    if AllZero(bits) then [] else [Row(row.hour, bits)]
  }

  /** Clears at most `limit` rows between the hours of `low` and `high`; rows left empty are deleted. */
  function Clear(t: Table, low: int, high: int, limit: nat): Table {
    if t == [] || limit == 0 then t
    else if t[0].hour < HourOf(low) then [t[0]] + Clear(t[1..], low, high, limit)
    else if t[0].hour > HourOf(high) then t
    else ClearedRows(t[0], low, high) + Clear(t[1..], low, high, limit - 1)
  }

  /** How many rows between the hour of `low` and the hour of `x` the table has. */
  function RowsUpTo(t: Table, low: int, x: int): nat {
    if t == [] then 0
    else (if HourOf(low) <= t[0].hour <= HourOf(x) then 1 else 0) + RowsUpTo(t[1..], low, x)
  }

  lemma ClearedRowsValid(row: Row, low: int, high: int, rest: Table, floor: int)
    requires ValidRow(row) && floor < row.hour && ValidAbove(rest, row.hour)
    ensures ValidAbove(ClearedRows(row, low, high) + rest, floor)
  {
    var bits := ClearBits(row, low, high);
    if AllZero(bits) {
      assert ClearedRows(row, low, high) + rest == rest;
    } else {
      ConsValid(Row(row.hour, bits), rest, floor);
    }
  }

  lemma {:induction false} ClearHours(t: Table, low: int, high: int, limit: nat, floor: int)
    requires ValidAbove(t, floor)
    ensures ValidAbove(Clear(t, low, high, limit), floor)
    decreases |t|
  {
    if t == [] || limit == 0 {
    } else if t[0].hour < HourOf(low) {
      ClearHours(t[1..], low, high, limit, t[0].hour);
      ConsValid(t[0], Clear(t[1..], low, high, limit), floor);
    } else if t[0].hour > HourOf(high) {
    } else {
      ClearHours(t[1..], low, high, limit - 1, t[0].hour);
      ClearedRowsValid(t[0], low, high, Clear(t[1..], low, high, limit - 1), floor);
    }
  }

  lemma ClearedRow(row: Row, low: int, high: int, x: int)
    requires ValidRow(row)
    ensures RowHas(Row(row.hour, ClearBits(row, low, high)), x) <==> RowHas(row, x) && !Inside(x, low, high)
  {
    if x % MINUTE == 0 && row.hour == HourOf(x) {
      Compose(x);
    }
  }

  lemma HourMonotone(a: int, b: int)
    requires a <= b
    ensures HourOf(a) <= HourOf(b)
  {
  }

  /** One step of clearing, seen through membership. */
  lemma ClearStep(t: Table, low: int, high: int, limit: nat, x: int)
    requires Valid(t) && t != [] && limit > 0
    requires HourOf(low) <= t[0].hour <= HourOf(high)
    ensures Has(Clear(t, low, high, limit), x) <==>
            (RowHas(t[0], x) && !Inside(x, low, high)) || Has(Clear(t[1..], low, high, limit - 1), x)
  {
    var c := Clear(t, low, high, limit);
    ClearedRow(t[0], low, high, x);
    var bits := ClearBits(t[0], low, high);
    if AllZero(bits) {
      assert c == Clear(t[1..], low, high, limit - 1);
    } else {
      HasCons(c, x);
      assert c[1..] == Clear(t[1..], low, high, limit - 1);
    }
  }

  lemma ClearSkip(t: Table, low: int, high: int, limit: nat, x: int)
    requires t != [] && limit > 0 && t[0].hour < HourOf(low)
    ensures Has(Clear(t, low, high, limit), x) <==> RowHas(t[0], x) || Has(Clear(t[1..], low, high, limit), x)
  {
    var c := Clear(t, low, high, limit);
    HasCons(c, x);
    assert c[1..] == Clear(t[1..], low, high, limit);
  }

  /** Clearing removes only minutes wholly inside the window. */
  lemma {:induction false} ClearRemovesInside(t: Table, low: int, high: int, limit: nat, x: int)
    requires Valid(t)
    ensures Has(Clear(t, low, high, limit), x) ==> Has(t, x)
    ensures Has(t, x) && !Inside(x, low, high) ==> Has(Clear(t, low, high, limit), x)
    decreases |t|
  {
    if t == [] || limit == 0 {
    } else if t[0].hour < HourOf(low) {
      ClearRemovesInside(t[1..], low, high, limit, x);
      HasCons(t, x);
      ClearSkip(t, low, high, limit, x);
    } else if t[0].hour > HourOf(high) {
    } else {
      ClearRemovesInside(t[1..], low, high, limit - 1, x);
      HasCons(t, x);
      ClearStep(t, low, high, limit, x);
    }
  }

  /** Clearing removes every minute inside the window that its row limit reaches. */
  lemma {:induction false} ClearReaches(t: Table, low: int, high: int, limit: nat, x: int)
    requires Valid(t)
    requires Inside(x, low, high) && RowsUpTo(t, low, x) <= limit
    ensures !Has(Clear(t, low, high, limit), x)
    decreases |t|
  {
    HourMonotone(low, x);
    HourMonotone(x, high);
    if t == [] {
    } else if limit == 0 {
      NoRowsUpTo(t, low, x);
    } else if t[0].hour < HourOf(low) {
      ClearReaches(t[1..], low, high, limit, x);
      ClearSkip(t, low, high, limit, x);
    } else if t[0].hour > HourOf(x) {
      NotBefore(t, x);
      ClearRemovesInside(t, low, high, limit, x);
    } else {
      ClearReaches(t[1..], low, high, limit - 1, x);
      ClearStep(t, low, high, limit, x);
    }
  }

  /** A minute of an hour before the first row is not tracked. */
  lemma NotBefore(t: Table, x: int)
    requires forall k :: 0 <= k < |t| ==> t[k].hour > HourOf(x)
    ensures !Has(t, x)
  {
  }

  lemma {:induction false} NoRowsUpTo(t: Table, low: int, x: int)
    requires RowsUpTo(t, low, x) == 0 && HourOf(low) <= HourOf(x)
    ensures !Has(t, x)
    decreases |t|
  {
    if t == [] {
    } else {
      NoRowsUpTo(t[1..], low, x);
      HasCons(t, x);
    }
  }

  /** One row of a completed window: the bits of minutes wholly inside it are set to zero. */
  method ClearRow(row: Row, low: int, high: int) returns (bits: Bits)
    ensures bits == ClearBits(row, low, high)
  {
    bits := row.bits;
    var minute := 0;
    while minute < 60
      invariant 0 <= minute <= 60
      invariant forall i :: 0 <= i < minute ==> bits[i] == ClearBits(row, low, high)[i]
      invariant forall i :: minute <= i < 60 ==> bits[i] == row.bits[i]
    {
      var start := row.hour + minute * MINUTE;
      if start >= low && End(start) <= high {
        bits := bits[minute := false];
      }
      minute := minute + 1;
    }
  }

  /** The row a cleared table starts with, and how much of the row limit it uses. */
  function ClearHead(row: Row, low: int, high: int): Table {
    if row.hour < HourOf(low) then [row] else ClearedRows(row, low, high)
  }

  lemma ClearUnfold(r: Table, t: Table, k: nat, low: int, high: int, limit: nat)
    requires k < |t| && limit > 0 && t[k].hour <= HourOf(high)
    ensures var left := if t[k].hour < HourOf(low) then limit else limit - 1;
            r + Clear(t[k..], low, high, limit)
            == (r + ClearHead(t[k], low, high)) + Clear(t[k + 1..], low, high, left)
  {
    assert t[k..][0] == t[k] && t[k..][1..] == t[k + 1..];
  }

  /** Walks the rows of the window in order and drops the rows it leaves empty. */
  method ClearCoveredMinutes(t: Table, low: int, high: int) returns (r: Table)
    requires Valid(t)
    ensures r == Clear(t, low, high, WALK_LIMIT)
    ensures Valid(r) && forall x :: Has(r, x) ==> Has(t, x)
    ensures forall x :: Has(t, x) && !Inside(x, low, high) ==> Has(r, x)
  {
    r := ClearRowsInOrder(t, low, high, WALK_LIMIT);
    ClearIsSound(t, low, high, WALK_LIMIT);
  }

  method ClearRowsInOrder(t: Table, low: int, high: int, limit: nat) returns (r: Table)
    requires Valid(t)
    ensures r == Clear(t, low, high, limit)
  {
    r := [];
    assert t[0..] == t;
    var k, left := 0, limit;
    while k < |t| && left > 0 && t[k].hour <= HourOf(high)
      invariant 0 <= k <= |t|
      invariant r + Clear(t[k..], low, high, left) == Clear(t, low, high, limit)
      decreases |t| - k
    {
      ClearUnfold(r, t, k, low, high, left);
      if t[k].hour < HourOf(low) {
        r := r + [t[k]];
      } else {
        var bits := ClearRow(t[k], low, high);
        r := r + if AllZero(bits) then [] else [Row(t[k].hour, bits)];
        left := left - 1;
      }
      k := k + 1;
    }
    ClearAbove(t[k..], low, high, left);
    r := r + t[k..];
  }

  lemma ClearIsSound(t: Table, low: int, high: int, limit: nat)
    requires Valid(t)
    ensures Valid(Clear(t, low, high, limit))
    ensures forall x :: Has(Clear(t, low, high, limit), x) ==> Has(t, x)
    ensures forall x :: Has(t, x) && !Inside(x, low, high) ==> Has(Clear(t, low, high, limit), x)
  {
    ClearHours(t, low, high, limit, -1);
    forall x
      ensures Has(Clear(t, low, high, limit), x) ==> Has(t, x)
      ensures Has(t, x) && !Inside(x, low, high) ==> Has(Clear(t, low, high, limit), x)
    {
      ClearRemovesInside(t, low, high, limit, x);
    }
  }

  /** Rows beyond the hour of `high` are never touched. */
  lemma ClearAbove(t: Table, low: int, high: int, limit: nat)
    requires limit == 0 || t == [] || t[0].hour > HourOf(high)
    requires Valid(t)
    ensures Clear(t, low, high, limit) == t
    decreases |t|
  {
    if t != [] && limit > 0 && t[0].hour < HourOf(low) {
      if |t| > 1 {
        assert t[1..][0].hour > HourOf(high);
      }
      ClearAbove(t[1..], low, high, limit);
    }
  }

  // ---- compaction: rows of expired hours become one due floor ----

  /** The first rows whose hour is at most `bound`. */
  function Expired(t: Table, bound: int, limit: nat): (r: Table)
    ensures |r| <= |t| && r == t[..|r|]
    ensures forall k :: 0 <= k < |r| ==> r[k].hour <= bound
  {
    if t == [] || limit == 0 || t[0].hour > bound then []
    else [t[0]] + Expired(t[1..], bound, limit - 1)
  }

  function LastBit(bits: Bits, n: nat): (r: int)
    requires n <= 60
    ensures -1 <= r < n
    ensures r >= 0 ==> bits[r]
    ensures forall i :: r < i < n ==> !bits[i]
  {
    if n == 0 then -1 else if bits[n - 1] then n - 1 else LastBit(bits, n - 1)
  }

  /** Some expired minute ends after `upper`. */
  predicate ReachesPast(rows: Table, upper: int) {
    exists k :: 0 <= k < |rows| && rows[k].hour + (LastBit(rows[k].bits, 60) + 1) * MINUTE - 1 > upper
  }

  lemma ReachesPastMeans(rows: Table, upper: int)
    requires Valid(rows)
    ensures ReachesPast(rows, upper) <==> exists x :: Has(rows, x) && End(x) > upper
  {
    if ReachesPast(rows, upper) {
      var k :| 0 <= k < |rows| && rows[k].hour + (LastBit(rows[k].bits, 60) + 1) * MINUTE - 1 > upper;
      var i := LastBit(rows[k].bits, 60);
      assert i >= 0;
      BitIsMinute(rows, k, i);
      assert End(rows[k].hour + i * MINUTE) > upper;
    }
    if x :| Has(rows, x) && End(x) > upper {
      var k := RowOf(rows, x);
      assert LastBit(rows[k].bits, 60) >= BitOf(x);
    }
  }

  lemma SplitRows(t: Table, n: nat, x: int)
    requires n <= |t|
    ensures Has(t, x) <==> Has(t[..n], x) || Has(t[n..], x)
  {
    if Has(t, x) {
      var k := RowOf(t, x);
      if k < n { assert t[..n][k] == t[k]; } else { assert t[n..][k - n] == t[k]; }
    }
    if Has(t[..n], x) {
      var k := RowOf(t[..n], x);
      assert t[k] == t[..n][k];
    }
    if Has(t[n..], x) {
      var k := RowOf(t[n..], x);
      assert t[n + k] == t[n..][k];
    }
  }

  /**
    Dropping the expired rows loses only minutes that start at or after the new floor and that
    are over by `bound` plus one hour; the floor is the first tracked minute of all.
   */
  lemma CompactionIsCovered(t: Table, bound: int, limit: nat)
    requires Valid(t) && Expired(t, bound, limit) != []
    ensures FirstAfter(t, None).Some?
    ensures FirstAfter(t, None) == FirstBit(t[0], None, 0)
    ensures Valid(t[|Expired(t, bound, limit)|..])
    ensures var rest := t[|Expired(t, bound, limit)|..];
            forall x :: Has(t, x) ==> Has(rest, x) || (FirstAfter(t, None).value <= x && End(x) < bound + HOUR)
    ensures var rest := t[|Expired(t, bound, limit)|..];
            forall x :: Has(rest, x) ==> Has(t, x)
  {
    FirstAfterIsLeast(t, None);
    FirstBitIsLeast(t[0], None, 0);
    var rows := Expired(t, bound, limit);
    forall x | Has(t, x) && !Has(t[|rows|..], x)
      ensures FirstAfter(t, None).value <= x && End(x) < bound + HOUR
    {
      SplitRows(t, |rows|, x);
      var k := RowOf(rows, x);
      assert x <= rows[k].hour + 59 * MINUTE;
    }
    forall x | Has(t[|rows|..], x)
      ensures Has(t, x)
    {
      SplitRows(t, |rows|, x);
    }
  }

  // ---- park: the minutes of several candidates are grouped by hour and ORed in at once ----

  /** Groups the sources by hour in a loop, then merges the grouped rows. */
  method ParkMinutes(t: Table, sources: seq<int>) returns (r: Table)
    requires Valid(t) && forall k :: 0 <= k < |sources| ==> sources[k] >= 0
    ensures Valid(r) && r == PutAll(t, sources)
    ensures forall x :: Has(r, x) <==> Has(PutAll(t, sources), x)
  {
    var buckets: Table := [];
    var k := 0;
    while k < |sources|
      invariant 0 <= k <= |sources|
      invariant Valid(buckets)
      invariant forall x :: Has(buckets, x) <==> exists j :: 0 <= j < k && x == MinuteOf(sources[j])
    {
      PutAddsMinute(buckets, sources[k]);
      buckets := Put(buckets, sources[k]);
      k := k + 1;
    }
    r := t;
    k := 0;
    while k < |buckets|
      invariant 0 <= k <= |buckets|
      invariant Valid(r)
      invariant forall x :: Has(r, x) <==> Has(t, x) || Has(buckets[..k], x)
    {
      MergeHours(r, buckets[k], -1);
      forall x
        ensures Has(Merge(r, buckets[k]), x) <==> Has(t, x) || Has(buckets[..k + 1], x)
      {
        MergeMinutes(r, buckets[k], x);
        SplitRows(buckets[..k + 1], k, x);
        assert buckets[..k + 1][..k] == buckets[..k] && buckets[..k + 1][k..] == [buckets[k]];
        HasCons([buckets[k]], x);
      }
      r := Merge(r, buckets[k]);
      k := k + 1;
    }
    assert buckets[..|buckets|] == buckets;
    PutAllAddsMinutes(t, sources);
    SameMinutesSameRows(r, PutAll(t, sources));
  }

  // ---- the rows are determined by the minutes ----

  lemma HasTail(t: Table, x: int)
    requires Valid(t) && t != []
    ensures Has(t[1..], x) <==> Has(t, x) && HourOf(x) != t[0].hour
  {
    HasCons(t, x);
    if Has(t[1..], x) {
      var k := RowOf(t[1..], x);
      assert t[1..][k] == t[k + 1];
    }
  }

  /** The first hour of one table is in the other, so neither can begin later. */
  lemma FirstHourFound(a: Table, b: Table)
    requires Valid(a) && Valid(b) && a != [] && forall x :: Has(a, x) ==> Has(b, x)
    ensures b != [] && b[0].hour <= a[0].hour
  {
    assert ValidRow(a[0]);
    var i :| 0 <= i < 60 && a[0].bits[i];
    BitIsMinute(a, 0, i);
    Decompose(a[0].hour, i);
    var k := RowOf(b, a[0].hour + i * MINUTE);
    assert k > 0 ==> b[0].hour < b[k].hour;
  }

  lemma FirstRowsAgree(a: Table, b: Table)
    requires Valid(a) && Valid(b) && a != [] && b != [] && forall x :: Has(a, x) <==> Has(b, x)
    ensures a[0] == b[0]
  {
    FirstHourFound(a, b);
    FirstHourFound(b, a);
    forall i | 0 <= i < 60
      ensures a[0].bits[i] == b[0].bits[i]
    {
      BitIsMinute(a, 0, i);
      BitIsMinute(b, 0, i);
    }
    assert a[0].bits == b[0].bits;
  }

  /** Two valid tables that stand for the same minutes are the same table. */
  lemma {:induction false} SameMinutesSameRows(a: Table, b: Table)
    requires Valid(a) && Valid(b) && forall x :: Has(a, x) <==> Has(b, x)
    ensures a == b
    decreases |a|
  {
    if a != [] {
      FirstHourFound(a, b);
      FirstRowsAgree(a, b);
      forall x
        ensures Has(a[1..], x) <==> Has(b[1..], x)
      {
        HasTail(a, x);
        HasTail(b, x);
      }
      SameMinutesSameRows(a[1..], b[1..]);
      assert a == [a[0]] + a[1..] && b == [b[0]] + b[1..];
    } else if b != [] {
      FirstHourFound(b, a);
    }
  }
}
