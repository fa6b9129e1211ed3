/**
 * DetectionDb::flush: one transaction that merges a batch of detections into the signals table,
 * each into the nearest matching recent row, or into a new row when there is none.
 */
module SignalTable {
  import opened Prelude

  datatype Detection = Detection(freq: real, bandwidth: real, power: real, at: int)

  /** The columns this writer reads or writes; times in milliseconds. */
  datatype Row = Row(freq: real, bandwidth: Option<real>, power: real, hits: nat, lastSeen: int)

  const FREQ_WINDOW_HZ: real := 10000.0
  const MIN_BANDWIDTH_HZ: real := 1000.0
  const RECENT_MS: int := 600000

  function BandwidthOf(d: Detection): Option<real> {
    if d.bandwidth > 0.0 then Some(d.bandwidth) else None
  }

  function Distance(r: Row, d: Detection): real {
    Abs(r.freq - d.freq)
  }

  /** The WHERE clause. */
  predicate Matches(r: Row, d: Detection, now: int) {
    var bw := BandwidthOf(d);
    && Distance(r, d) < FREQ_WINDOW_HZ
    && (bw.None? || r.bandwidth.None?
      || Abs(r.bandwidth.value - bw.value) / RMax(r.bandwidth.value, MIN_BANDWIDTH_HZ) < 0.5)
    && r.lastSeen > now - RECENT_MS
  }

  /** Row i matches and no matching row is nearer; among equally near ones the database may pick any. */
  predicate Nearest(t: seq<Row>, d: Detection, now: int, i: nat) {
    && i < |t| && Matches(t[i], d, now)
    && forall k :: 0 <= k < |t| && Matches(t[k], d, now) ==> Distance(t[i], d) <= Distance(t[k], d)
  }

  predicate AnyMatch(t: seq<Row>, d: Detection, now: int) {
    exists k :: 0 <= k < |t| && Matches(t[k], d, now)
  }

  function Merged(r: Row, d: Detection): Row {
    r.(lastSeen := d.at, power := RMax(r.power, d.power), hits := r.hits + 1)
  }

  function Inserted(d: Detection): Row {
    Row(d.freq, BandwidthOf(d), d.power, 1, d.at)
  }

  /** One detection's effect on the table. */
  ghost predicate Upserted(t: seq<Row>, d: Detection, now: int, t': seq<Row>) {
    if AnyMatch(t, d, now) then exists i: nat :: Nearest(t, d, now, i) && t' == t[i := Merged(t[i], d)]
    else t' == t + [Inserted(d)]
  }

  /** The tables in between when a batch is stored, one detection after the other. */
  ghost predicate Chain(t: seq<Row>, batch: seq<Detection>, now: int, t': seq<Row>, tables: seq<seq<Row>>) {
    && |tables| == |batch| + 1 && tables[0] == t && tables[|batch|] == t'
    && forall k :: 0 <= k < |batch| ==> Upserted(tables[k], batch[k], now, tables[k + 1])
  }

  /** A batch's effect, within one transaction. */
  ghost predicate Flushed(t: seq<Row>, batch: seq<Detection>, now: int, t': seq<Row>) {
    exists tables :: Chain(t, batch, now, t', tables)
  }

  /** SELECT ... ORDER BY distance LIMIT 1. */
  method FindNearest(t: seq<Row>, d: Detection, now: int) returns (found: Option<nat>)
    ensures found.Some? ==> Nearest(t, d, now, found.value)
    ensures found.None? ==> !AnyMatch(t, d, now)
  {
    found := None;
    for k := 0 to |t|
      invariant found.None? ==> forall m :: 0 <= m < k ==> !Matches(t[m], d, now)
      invariant found.Some? ==> found.value < k && Matches(t[found.value], d, now)
      invariant found.Some? ==> forall m :: 0 <= m < k && Matches(t[m], d, now) ==>
        Distance(t[found.value], d) <= Distance(t[m], d)
    {
      if Matches(t[k], d, now) && (found.None? || Distance(t[k], d) < Distance(t[found.value], d)) {
        found := Some(k);
      }
    }
  }

  /** flush() on a committed transaction. */
  method Flush(t: seq<Row>, batch: seq<Detection>, now: int) returns (t': seq<Row>)
    ensures Flushed(t, batch, now, t')
  {
    t' := t;
    ghost var tables := [t];
    hide Upserted;
    for i := 0 to |batch|
      invariant Chain(t, batch[..i], now, t', tables)
    {
      ghost var before := t';
      t' := Upsert(t', batch[i], now);
      ghost var more := tables + [t'];
      forall k | 0 <= k < i + 1 ensures Upserted(more[k], batch[..i + 1][k], now, more[k + 1]) {
        if k < i {
          assert batch[..i][k] == batch[..i + 1][k];
        }
      }
      tables := more;
    }
    assert batch[..|batch|] == batch;
  }

  method Upsert(t: seq<Row>, d: Detection, now: int) returns (t': seq<Row>)
    ensures Upserted(t, d, now, t')
  {
    var existing := FindNearest(t, d, now);
    if existing.Some? {
      t' := t[existing.value := Merged(t[existing.value], d)];
    } else {
      t' := t + [Inserted(d)];
    }
  }

  // ---------- Bookkeeping ----------

  function TotalHits(t: seq<Row>): nat {
    if t == [] then 0 else TotalHits(t[..|t| - 1]) + t[|t| - 1].hits
  }

  lemma {:induction false} TotalHitsUpdate(t: seq<Row>, i: nat, r: Row)
    requires i < |t|
    ensures TotalHits(t[i := r]) + t[i].hits == TotalHits(t) + r.hits
  {
    var m := |t| - 1;
    if i < m {
      TotalHitsUpdate(t[..m], i, r);
      assert t[i := r][..m] == t[..m][i := r];
    } else {
      assert t[i := r][..m] == t[..m];
    }
  }

  /** Rows are never removed, moved or retuned; power and hits never fall. */
  ghost predicate Grows(t: seq<Row>, t': seq<Row>) {
    && |t| <= |t'|
    && forall i :: 0 <= i < |t| ==>
      && t'[i].freq == t[i].freq && t'[i].bandwidth == t[i].bandwidth
      && t'[i].power >= t[i].power && t'[i].hits >= t[i].hits
  }

  lemma MergeCounts(t: seq<Row>, i: nat, d: Detection)
    requires i < |t|
    ensures
      var t' := t[i := Merged(t[i], d)];
      TotalHits(t') == TotalHits(t) + 1 && Grows(t, t')
  {
    TotalHitsUpdate(t, i, Merged(t[i], d));
    hide TotalHits;
  }

  lemma InsertCounts(t: seq<Row>, r: Row)
    ensures TotalHits(t + [r]) == TotalHits(t) + r.hits && Grows(t, t + [r])
  {
    assert (t + [r])[..|t|] == t;
  }

  lemma UpsertCounts(t: seq<Row>, d: Detection, now: int, t': seq<Row>)
    requires Upserted(t, d, now, t')
    ensures TotalHits(t') == TotalHits(t) + 1 && Grows(t, t')
    ensures |t'| == |t| + if AnyMatch(t, d, now) then 0 else 1
  {
    hide AnyMatch, TotalHits, Grows, Matches;
    if AnyMatch(t, d, now) {
      var i: nat :| Nearest(t, d, now, i) && t' == t[i := Merged(t[i], d)];
      MergeCounts(t, i, d);
    } else {
      InsertCounts(t, Inserted(d));
    }
  }

  /** The row was seen within the last ten minutes, is closer than 10 kHz, and its bandwidth is not known to differ by half. */
  predicate Alike(r: Row, d: Detection, now: int) {
    && r.lastSeen > now - 600000
    && -10000.0 < r.freq - d.freq < 10000.0
    && (r.bandwidth.None? || d.bandwidth <= 0.0 ||
      var b, off := r.bandwidth.value, Abs(r.bandwidth.value - d.bandwidth);
      if b >= 1000.0 then 2.0 * off < b else off < 500.0)
  }

  lemma HalfBandwidth(off: real, b: real)
    ensures off / RMax(b, MIN_BANDWIDTH_HZ) < 0.5 <==> if b >= 1000.0 then 2.0 * off < b else off < 500.0
  {
    var n := RMax(b, MIN_BANDWIDTH_HZ);
    var q := off / n;
    assert n > 0.0 && q * n == off;
    if q < 0.5 {
      ProductPositive(0.5 - q, n);
      assert (0.5 - q) * n == 0.5 * n - off;
    } else {
      ProductNonNegative(q - 0.5, n);
      assert (q - 0.5) * n == off - 0.5 * n;
    }
  }

  lemma MatchesIff(r: Row, d: Detection, now: int)
    ensures Matches(r, d, now) <==> Alike(r, d, now)
  {
    if r.bandwidth.Some? {
      HalfBandwidth(Abs(r.bandwidth.value - d.bandwidth), r.bandwidth.value);
    }
  }

  /**
   * What one detection does, without a query: if some row is alike it goes into one nearest to it among
   * those, whose frequency and bandwidth stay; if none is, a new row is added. No other row changes.
   */
  lemma UpsertMeans(t: seq<Row>, d: Detection, now: int, t': seq<Row>) returns (i: nat)
    requires Upserted(t, d, now, t')
    ensures i < |t'| && |t'| == |t| + (if i < |t| then 0 else 1)
    ensures i < |t| <==> exists k :: 0 <= k < |t| && Alike(t[k], d, now)
    ensures forall k :: 0 <= k < |t| && k != i ==> t'[k] == t[k]
    ensures i < |t| ==>
      && Alike(t[i], d, now)
      && (forall k :: 0 <= k < |t| && Alike(t[k], d, now) ==> Abs(t[i].freq - d.freq) <= Abs(t[k].freq - d.freq))
      && t'[i].freq == t[i].freq && t'[i].bandwidth == t[i].bandwidth && t'[i].hits == t[i].hits + 1
      && t'[i].lastSeen == d.at && t'[i].power == (if t[i].power >= d.power then t[i].power else d.power)
    ensures i == |t| ==>
      && t'[i].freq == d.freq && t'[i].power == d.power && t'[i].hits == 1 && t'[i].lastSeen == d.at
      && t'[i].bandwidth == if d.bandwidth > 0.0 then Some(d.bandwidth) else None
  {
    forall k | 0 <= k < |t| ensures Matches(t[k], d, now) <==> Alike(t[k], d, now) {
      MatchesIff(t[k], d, now);
    }
    hide Matches, Alike;
    if AnyMatch(t, d, now) {
      i :| Nearest(t, d, now, i) && t' == t[i := Merged(t[i], d)];
    } else {
      i := |t|;
    }
  }

  /**
   * A detection is not merged, and a row is added for it, exactly when every row seen in the last ten
   * minutes and closer than 10 kHz has a known bandwidth that differs from its own by half or more.
   */
  lemma UpsertAddsIff(t: seq<Row>, d: Detection, now: int, t': seq<Row>)
    requires Upserted(t, d, now, t')
    ensures |t'| == |t| + 1 <==>
      forall k :: 0 <= k < |t| && t[k].lastSeen > now - 600000 && -10000.0 < t[k].freq - d.freq < 10000.0 ==>
        && t[k].bandwidth.Some? && d.bandwidth > 0.0
        && var b, off := t[k].bandwidth.value, Abs(t[k].bandwidth.value - d.bandwidth);
          if b >= 1000.0 then 2.0 * off >= b else off >= 500.0
  {
    var i := UpsertMeans(t, d, now, t');
    hide Upserted;
  }

  /** In a committed batch a detection leaves every row alone that is not alike at that point. */
  lemma UnlikeRowsKept(t: seq<Row>, batch: seq<Detection>, now: int, t': seq<Row>, tables: seq<seq<Row>>, k: nat, m: nat)
    requires Chain(t, batch, now, t', tables) && k < |batch| && m < |tables[k]|
    requires !Alike(tables[k][m], batch[k], now)
    ensures m < |tables[k + 1]| && tables[k + 1][m] == tables[k][m]
  {
    var i := UpsertMeans(tables[k], batch[k], now, tables[k + 1]);
    hide Upserted, Alike;
  }

  /** A committed batch raises the total of hits by exactly its size, and only ever adds to the table. */
  lemma FlushCounts(t: seq<Row>, batch: seq<Detection>, now: int, t': seq<Row>)
    requires Flushed(t, batch, now, t')
    ensures TotalHits(t') == TotalHits(t) + |batch| && Grows(t, t')
    ensures |t'| <= |t| + |batch|
  {
    var tables :| Chain(t, batch, now, t', tables);
    ChainCounts(t, batch, now, t', tables, |batch|);
  }

  lemma {:induction false} ChainCounts(t: seq<Row>, batch: seq<Detection>, now: int, t': seq<Row>, tables: seq<seq<Row>>, n: nat)
    requires Chain(t, batch, now, t', tables) && n <= |batch|
    ensures TotalHits(tables[n]) == TotalHits(t) + n && Grows(t, tables[n]) && |tables[n]| <= |t| + n
  {
    hide TotalHits, Upserted;
    if n == 0 {
    } else {
      ChainCounts(t, batch, now, t', tables, n - 1);
      UpsertCounts(tables[n - 1], batch[n - 1], now, tables[n]);
    }
  }

  /** After a detection has been stored there is a row for it, at least as loud, and recent if the detection is. */
  lemma StoredHasRow(t: seq<Row>, d: Detection, now: int, t': seq<Row>) returns (i: nat)
    requires Upserted(t, d, now, t')
    ensures i < |t'| && Distance(t'[i], d) < FREQ_WINDOW_HZ && t'[i].power >= d.power && t'[i].lastSeen == d.at
    ensures d.at > now - RECENT_MS ==> Matches(t'[i], d, now)
  {
    if AnyMatch(t, d, now) {
      hide AnyMatch;
      var m: nat :| Nearest(t, d, now, m) && t' == t[m := Merged(t[m], d)];
      i := m;
    } else {
      i := |t|;
      if d.bandwidth > 0.0 {
        SameBandwidth(d.bandwidth);
      }
    }
  }

  /** After a whole committed batch every detection of it has a row within 10 kHz that is at least as loud. */
  lemma BatchHasRows(t: seq<Row>, batch: seq<Detection>, now: int, t': seq<Row>, k: nat) returns (i: nat)
    requires Flushed(t, batch, now, t') && k < |batch|
    ensures i < |t'| && Distance(t'[i], batch[k]) < FREQ_WINDOW_HZ && t'[i].power >= batch[k].power
  {
    hide Upserted, TotalHits, Matches, Distance;
    var tables :| Chain(t, batch, now, t', tables);
    i := StoredHasRow(tables[k], batch[k], now, tables[k + 1]);
    ChainRest(t, batch, now, t', tables, k + 1);
    hide Chain;
    ChainCounts(tables[k + 1], batch[k + 1..], now, t', tables[k + 1..], |batch| - k - 1);
    SameDistance(tables[k + 1][i], t'[i], batch[k]);
  }

  /** What is left of a chain after its first k steps is a chain. */
  lemma ChainRest(t: seq<Row>, batch: seq<Detection>, now: int, t': seq<Row>, tables: seq<seq<Row>>, k: nat)
    requires Chain(t, batch, now, t', tables) && k <= |batch|
    ensures Chain(tables[k], batch[k..], now, t', tables[k..])
    ensures tables[k..][|batch| - k] == t'
  {
    hide Upserted;
  }

  lemma SameDistance(r: Row, r': Row, d: Detection)
    requires r'.freq == r.freq
    ensures Distance(r', d) == Distance(r, d)
  {
  }

  lemma SameBandwidth(b: real)
    ensures Abs(b - b) / RMax(b, MIN_BANDWIDTH_HZ) < 0.5
  {
    assert b - b == 0.0;
  }

  /** Seeing the same recent signal again merges: no second row appears for it. */
  lemma RepeatMerges(t: seq<Row>, d: Detection, again: Detection, now: int, t1: seq<Row>, t2: seq<Row>)
    requires Upserted(t, d, now, t1) && Upserted(t1, again, now, t2)
    requires d.at > now - RECENT_MS && again.freq == d.freq && again.bandwidth == d.bandwidth
    ensures |t2| == |t1| && TotalHits(t2) == TotalHits(t) + 2
  {
    var i := StoredHasRow(t, d, now, t1);
    assert Matches(t1[i], again, now);
    hide Matches, Distance;
    UpsertCounts(t, d, now, t1);
    UpsertCounts(t1, again, now, t2);
  }
}
