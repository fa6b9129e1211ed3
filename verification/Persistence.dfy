/**
 * The persistence filter of SpectrumScanner::processDwell for one channel and one centre
 * frequency: a map of hit and miss counters, and what that map says about the history of dwells.
 */
module Persistence {
  import opened Prelude

  const MIN_HITS: nat := 2
  const MAX_MISSES: nat := 4
  const BYPASS_PAPR_DB: real := 15.0
  const PEAK_FLOOR_DB: real := -300.0

  datatype Entry = Entry(hits: nat, misses: nat, peak: real)

  /** What the filter sees of one detected signal: its quantised frequency, peak and mean. */
  datatype Sighting = Sighting(key: nat, peak: real, mean: real)

  type Entries = map<nat, Entry>

  function EntryOf(m: Entries, key: nat): Entry {
    if key in m then m[key] else Entry(0, 0, PEAK_FLOOR_DB)
  }

  function Touch(m: Entries, s: Sighting): Entries {
    var e := EntryOf(m, s.key);
    m[s.key := Entry(e.hits + 1, 0, RMax(e.peak, s.peak))]
  }

  function TouchAll(m: Entries, d: seq<Sighting>): Entries {
    if d == [] then m else Touch(TouchAll(m, d[..|d| - 1]), d[|d| - 1])
  }

  function Keys(d: seq<Sighting>): set<nat> {
    set s | s in d :: s.key
  }

  /** One more miss for every key of todo that was not seen; too many misses drop the entry. */
  function Decayed(m: Entries, todo: set<nat>, seen: set<nat>): Entries {
    map k | k in m && (k !in todo || k in seen || m[k].misses + 1 <= MAX_MISSES) ::
      if k in todo && k !in seen then m[k].(misses := m[k].misses + 1) else m[k]
  }

  function AfterDwell(m: Entries, d: seq<Sighting>): Entries {
    var fed := TouchAll(m, d);
    Decayed(fed, fed.Keys, Keys(d))
  }

  predicate Strong(s: Sighting) {
    s.peak - s.mean >= BYPASS_PAPR_DB
  }

  /** Whether the j-th signal of dwell d is passed on when the filter holds m before the dwell. */
  predicate Emits(m: Entries, d: seq<Sighting>, j: nat)
    requires j < |d|
  {
    Strong(d[j]) || EntryOf(TouchAll(m, d[..j + 1]), d[j].key).hits >= MIN_HITS
  }

  // ---------- The loops ----------

  lemma DecayOne(m: Entries, todo: set<nat>, seen: set<nat>, k: nat)
    requires todo <= m.Keys && k in todo
    ensures
      var m' := Decayed(m, {k}, seen);
      todo - {k} <= m'.Keys && Decayed(m', todo - {k}, seen) == Decayed(m, todo, seen)
  {
  }

  lemma DecayNone(m: Entries, seen: set<nat>)
    ensures Decayed(m, {}, seen) == m
  {
  }

  /** The decay loop: visit every entry once, in any order, erasing while iterating. */
  method Decay(m: Entries, seen: set<nat>) returns (r: Entries)
    ensures r == Decayed(m, m.Keys, seen)
  {
    r := m;
    var todo := m.Keys;
    while todo != {}
      invariant todo <= r.Keys
      invariant Decayed(r, todo, seen) == Decayed(m, m.Keys, seen)
      decreases |todo|
    {
      var k :| k in todo;
      DecayOne(r, todo, seen, k);
      r := Visit(r, seen, k);
      todo := todo - {k};
    }
    DecayNone(r, seen);
  }

  /** One entry's turn. */
  method Visit(m: Entries, seen: set<nat>, k: nat) returns (r: Entries)
    requires k in m
    ensures r == Decayed(m, {k}, seen)
  {
    r := m;
    if k !in seen {
      if m[k].misses + 1 > MAX_MISSES {
        r := m - {k};
      } else {
        r := m[k := m[k].(misses := m[k].misses + 1)];
      }
    }
  }

  // ---------- The history view ----------

  predicate SeenIn(d: seq<Sighting>, key: nat) {
    exists i :: 0 <= i < |d| && d[i].key == key
  }

  function CountIn(d: seq<Sighting>, key: nat): nat {
    if d == [] then 0 else CountIn(d[..|d| - 1], key) + if d[|d| - 1].key == key then 1 else 0
  }

  function PeakIn(base: real, d: seq<Sighting>, key: nat): real {
    if d == [] then base
    else
      var p := PeakIn(base, d[..|d| - 1], key);
      if d[|d| - 1].key == key then RMax(p, d[|d| - 1].peak) else p
  }

  type History = seq<seq<Sighting>>

  /** The entries after the first t dwells. */
  function After(h: History, t: nat): Entries
    requires t <= |h|
  {
    if t == 0 then map[] else AfterDwell(After(h, t - 1), h[t - 1])
  }

  /** The five dwells just before t all missed the key. */
  predicate Gap(h: History, key: nat, t: nat)
    requires t <= |h|
  {
    t >= 5 && forall s :: t - 5 <= s < t ==> !SeenIn(h[s], key)
  }

  /** The end of the last such gap at or before t, or the beginning of the history. */
  function SpanStart(h: History, key: nat, t: nat): (s: nat)
    requires t <= |h|
    ensures s <= t && (s == 0 || Gap(h, key, s))
    ensures forall u :: s < u <= t ==> !Gap(h, key, u)
  {
    if t == 0 || Gap(h, key, t) then t else SpanStart(h, key, t - 1)
  }

  /** How many signals with the key the dwells s..t held. */
  function HitsBetween(h: History, key: nat, s: nat, t: nat): nat
    requires t <= |h|
  {
    if s >= t then 0 else HitsBetween(h, key, s, t - 1) + CountIn(h[t - 1], key)
  }

  function PeakBetween(h: History, key: nat, s: nat, t: nat): real
    requires t <= |h|
  {
    if s >= t then -300.0 else PeakIn(PeakBetween(h, key, s, t - 1), h[t - 1], key)
  }

  /** How many of the latest dwells in a row missed the key. */
  function MissesAt(h: History, key: nat, t: nat): (m: nat)
    requires t <= |h|
    ensures m <= t && (m < t ==> SeenIn(h[t - 1 - m], key))
    ensures forall s :: t - m <= s < t ==> !SeenIn(h[s], key)
  {
    if t == 0 || SeenIn(h[t - 1], key) then 0 else MissesAt(h, key, t - 1) + 1
  }

  /** What the history says the entry should be. */
  function EntryByHistory(h: History, key: nat, t: nat): Entry
    requires t <= |h|
  {
    var s := SpanStart(h, key, t);
    Entry(HitsBetween(h, key, s, t), MissesAt(h, key, t), PeakBetween(h, key, s, t))
  }

  predicate SeenRecently(h: History, key: nat, t: nat)
    requires t <= |h|
  {
    exists s :: 0 <= s < t && t - 5 <= s && SeenIn(h[s], key)
  }

  lemma SeenInSnoc(d: seq<Sighting>, s: Sighting, key: nat)
    ensures SeenIn(d + [s], key) <==> SeenIn(d, key) || s.key == key
  {
    if i :| 0 <= i < |d| && d[i].key == key {
      assert (d + [s])[i].key == key;
    }
    if s.key == key {
      assert (d + [s])[|d|].key == key;
    }
  }

  lemma {:induction false} TouchAllAt(m: Entries, d: seq<Sighting>, key: nat)
    ensures SeenIn(d, key) <==> CountIn(d, key) > 0
    ensures key in TouchAll(m, d) <==> key in m || SeenIn(d, key)
    ensures key in TouchAll(m, d) ==> TouchAll(m, d)[key] == Entry(
      EntryOf(m, key).hits + CountIn(d, key),
      if SeenIn(d, key) then 0 else EntryOf(m, key).misses,
      PeakIn(EntryOf(m, key).peak, d, key))
  {
    if d == [] {
    } else {
      var n := |d| - 1;
      assert d == d[..n] + [d[n]];
      SeenInSnoc(d[..n], d[n], key);
      TouchAllAt(m, d[..n], key);
      if !SeenIn(d[..n], key) {
        UnseenPeak(EntryOf(m, key).peak, d[..n], key);
      }
      hide SeenIn;
    }
  }

  lemma SeenKeys(d: seq<Sighting>, key: nat)
    ensures key in Keys(d) <==> SeenIn(d, key)
  {
    if i :| 0 <= i < |d| && d[i].key == key {
      assert d[i] in d;
    }
  }

  lemma {:induction false} UnseenSpan(h: History, key: nat, s: nat, t: nat)
    requires t <= |h| && forall u :: s <= u < t ==> !SeenIn(h[u], key)
    ensures HitsBetween(h, key, s, t) == 0 && PeakBetween(h, key, s, t) == PEAK_FLOOR_DB
  {
    if s >= t {
    } else {
      UnseenSpan(h, key, s, t - 1);
      TouchAllAt(map[], h[t - 1], key);
      UnseenPeak(PEAK_FLOOR_DB, h[t - 1], key);
    }
  }

  lemma {:induction false} UnseenPeak(base: real, d: seq<Sighting>, key: nat)
    requires !SeenIn(d, key)
    ensures PeakIn(base, d, key) == base
  {
    if d == [] {
    } else {
      var n := |d| - 1;
      assert forall i :: 0 <= i < n ==> d[..n][i].key == d[i].key;
      UnseenPeak(base, d[..n], key);
    }
  }

  /** Out of the map means: nothing counted in the current span. */
  lemma ForgottenSpan(h: History, key: nat, t: nat)
    requires t <= |h| && !SeenRecently(h, key, t)
    ensures HitsBetween(h, key, SpanStart(h, key, t), t) == 0
    ensures PeakBetween(h, key, SpanStart(h, key, t), t) == PEAK_FLOOR_DB
  {
    if t > MAX_MISSES {
      assert Gap(h, key, t);
    } else {
      assert forall u :: 0 <= u < t ==> !SeenIn(h[u], key);
      UnseenSpan(h, key, SpanStart(h, key, t), t);
    }
  }

  lemma RecentlyByMisses(h: History, key: nat, t: nat)
    requires t <= |h|
    ensures SeenRecently(h, key, t) <==> MissesAt(h, key, t) < t && MissesAt(h, key, t) <= MAX_MISSES
    ensures t > 0 && SeenRecently(h, key, t) ==> SpanStart(h, key, t) == SpanStart(h, key, t - 1)
  {
    var m := MissesAt(h, key, t);
    if m < t && m <= MAX_MISSES {
      assert SeenIn(h[t - 1 - m], key);
    }
  }

  /** One dwell's effect on one key. */
  lemma KeyAfterDwell(m: Entries, d: seq<Sighting>, key: nat)
    ensures SeenIn(d, key) ==>
      && key in AfterDwell(m, d)
      && AfterDwell(m, d)[key] ==
        Entry(EntryOf(m, key).hits + CountIn(d, key), 0, PeakIn(EntryOf(m, key).peak, d, key))
    ensures !SeenIn(d, key) ==>
      && (key in AfterDwell(m, d) <==> key in m && m[key].misses + 1 <= MAX_MISSES)
      && (key in AfterDwell(m, d) ==> AfterDwell(m, d)[key] == m[key].(misses := m[key].misses + 1))
  {
    TouchAllAt(m, d, key);
    SeenKeys(d, key);
    if !SeenIn(d, key) {
      UnseenPeak(EntryOf(m, key).peak, d, key);
    }
    hide TouchAll, SeenIn, PeakIn, CountIn, Keys;
  }

  /**
   * The map is exactly what the history says: it holds the keys seen in the last five dwells,
   * with the dwells since, and with the signals and the peak since the last gap of five.
   */
  lemma {:induction false} EntriesMatchHistory(h: History, key: nat, t: nat)
    requires t <= |h|
    ensures key in After(h, t) <==> SeenRecently(h, key, t)
    ensures key in After(h, t) ==> After(h, t)[key] == EntryByHistory(h, key, t)
  {
    if t == 0 {
    } else {
      EntriesMatchHistory(h, key, t - 1);
      hide AfterDwell, EntryByHistory, SeenRecently;
      EntryFollows(h, key, t, After(h, t - 1));
    }
  }

  lemma EntryFollows(h: History, key: nat, t: nat, m: Entries)
    requires 0 < t <= |h|
    requires key in m <==> SeenRecently(h, key, t - 1)
    requires key in m ==> m[key] == EntryByHistory(h, key, t - 1)
    ensures
      var m' := AfterDwell(m, h[t - 1]);
      && (key in m' <==> SeenRecently(h, key, t))
      && (key in m' ==> m'[key] == EntryByHistory(h, key, t))
  {
    RecentlyByMisses(h, key, t - 1);
    RecentlyByMisses(h, key, t);
    EntryOfHistory(h, key, t - 1, m);
    if SeenRecently(h, key, t) {
      SpanExtends(h, key, t);
    }
    KeyAfterDwell(m, h[t - 1], key);
    hide AfterDwell, SeenIn, PeakIn, CountIn, SeenRecently, SpanStart;
  }

  /** Seeing or not seeing the key once more, in terms of the span. */
  lemma SpanExtends(h: History, key: nat, t: nat)
    requires 0 < t <= |h| && SeenRecently(h, key, t)
    ensures
      var e, d := EntryByHistory(h, key, t - 1), h[t - 1];
      EntryByHistory(h, key, t) ==
        if SeenIn(d, key) then Entry(e.hits + CountIn(d, key), 0, PeakIn(e.peak, d, key))
        else e.(misses := e.misses + 1)
  {
    RecentlyByMisses(h, key, t);
    if !SeenIn(h[t - 1], key) {
      TouchAllAt(map[], h[t - 1], key);
      UnseenPeak(PeakBetween(h, key, SpanStart(h, key, t - 1), t - 1), h[t - 1], key);
    }
  }

  /** A forgotten key starts over from the empty entry. */
  lemma EntryOfHistory(h: History, key: nat, t: nat, m: Entries)
    requires t <= |h|
    requires key in m <==> SeenRecently(h, key, t)
    requires key in m ==> m[key] == EntryByHistory(h, key, t)
    ensures EntryOf(m, key).hits == EntryByHistory(h, key, t).hits
    ensures EntryOf(m, key).peak == EntryByHistory(h, key, t).peak
  {
    if key !in m {
      ForgottenSpan(h, key, t);
    }
  }

  // ---------- Emission ----------

  /** A signal with d[j]'s key was met before: earlier in this dwell, or earlier in its span. */
  predicate MetBefore(h: History, t: nat, j: nat)
    requires t < |h| && j < |h[t]|
  {
    || (exists i :: 0 <= i < j && h[t][i].key == h[t][j].key)
    || (exists s :: SpanStart(h, h[t][j].key, t) <= s < t && SeenIn(h[s], h[t][j].key))
  }

  lemma {:induction false} HitsMeanSeen(h: History, key: nat, s: nat, t: nat)
    requires s <= t <= |h|
    ensures HitsBetween(h, key, s, t) > 0 <==> exists u :: s <= u < t && SeenIn(h[u], key)
  {
    if s >= t {
    } else {
      HitsMeanSeen(h, key, s, t - 1);
      TouchAllAt(map[], h[t - 1], key);
      hide SeenIn, CountIn;
    }
  }

  /**
   * The rule the code implements: a signal is passed on iff it is strong or its key was met
   * before within the current span.
   */
  lemma EmissionRule(h: History, t: nat, j: nat)
    requires t < |h| && j < |h[t]|
    ensures Emits(After(h, t), h[t], j) <==> h[t][j].peak - h[t][j].mean >= 15.0 || MetBefore(h, t, j)
  {
    var d, m := h[t], After(h, t);
    var key := d[j].key;
    EntriesMatchHistory(h, key, t);
    if key !in m {
      ForgottenSpan(h, key, t);
    }
    HitsMeanSeen(h, key, SpanStart(h, key, t), t);
    assert EntryOf(m, key).hits == HitsBetween(h, key, SpanStart(h, key, t), t);
    TouchAllAt(m, d[..j + 1], key);
    TouchAllAt(m, d[..j], key);
    assert d[..j + 1][..j] == d[..j] && d[..j + 1][j] == d[j];
    assert SeenIn(d[..j + 1], key);
    assert SeenIn(d[..j], key) <==> exists i :: 0 <= i < j && d[i].key == key by {
      assert forall i :: 0 <= i < j ==> d[..j][i] == d[i];
    }
  }

  /**
   * The documented rule, "at least two consecutive sweeps", is not what is implemented. One dwell
   * with two weak signals in the same 10 kHz step already confirms the second of them.
   */
  lemma OneDwellCanConfirm()
    ensures
      var s := Sighting(100000, -40.0, -45.0);
      !Strong(s) && !Emits(After([[s, s]], 0), [s, s], 0) && Emits(After([[s, s]], 0), [s, s], 1)
  {
    var s := Sighting(100000, -40.0, -45.0);
    var h: History := [[s, s]];
    assert h[0][0].key == h[0][1].key;
    EmissionRule(h, 0, 0);
    EmissionRule(h, 0, 1);
  }

  lemma {:induction false} SpanReachesBack(h: History, key: nat, s: nat, t: nat)
    requires s < t <= |h| && t - s - 1 <= MAX_MISSES && SeenIn(h[s], key)
    ensures SpanStart(h, key, t) <= s
    decreases t
  {
    assert !Gap(h, key, t);
    if s == t - 1 {
    } else {
      SpanReachesBack(h, key, s, t - 1);
    }
  }

  /** Met before means: earlier in the same dwell, or in one of the last five. */
  lemma MetBeforeIff(h: History, t: nat, j: nat)
    requires t < |h| && j < |h[t]|
    ensures MetBefore(h, t, j) <==>
      (exists i :: 0 <= i < j && h[t][i].key == h[t][j].key) || SeenRecently(h, h[t][j].key, t)
  {
    var key := h[t][j].key;
    hide SeenIn;
    if s :| 0 <= s < t && t - 5 <= s && SeenIn(h[s], key) {
      SpanReachesBack(h, key, s, t);
    }
    if s :| SpanStart(h, key, t) <= s < t && SeenIn(h[s], key) {
      assert !Gap(h, key, t);
      assert SeenRecently(h, key, t);
    }
  }

  /** The documented rule: strong, or seen in the sweep just before as well. */
  predicate Documented(h: History, t: nat, j: nat)
    requires t < |h| && j < |h[t]|
  {
    h[t][j].peak - h[t][j].mean >= 15.0 || (t > 0 && SeenIn(h[t - 1], h[t][j].key))
  }

  /**
   * Exactly when the code decides as documented: unless a weak signal that the dwell just before missed
   * has its key earlier in the same dwell or in one of the four dwells before that one.
   */
  lemma DocumentedRuleIff(h: History, t: nat, j: nat)
    requires t < |h| && j < |h[t]|
    ensures
      var key := h[t][j].key;
      (Emits(After(h, t), h[t], j) <==> Documented(h, t, j)) <==>
        || Documented(h, t, j)
        || !((exists i :: 0 <= i < j && h[t][i].key == key)
          || (exists s :: 0 <= s < t - 1 && t - 5 <= s && SeenIn(h[s], key)))
  {
    hide SeenIn, Emits, After, SpanStart;
    EmissionRule(h, t, j);
    MetBeforeIff(h, t, j);
  }

  /** And up to four missed dwells in between do not break a confirmation; five do. */
  lemma MissesTolerated(h: History, s: nat, t: nat, j: nat)
    requires s < t < |h| && j < |h[t]|
    requires SeenIn(h[s], h[t][j].key)
    requires forall u :: s < u < t ==> !SeenIn(h[u], h[t][j].key)
    requires h[t][j].peak - h[t][j].mean < 15.0 && forall i :: 0 <= i < j ==> h[t][i].key != h[t][j].key
    ensures Emits(After(h, t), h[t], j) <==> t - s - 1 <= 4
  {
    var key := h[t][j].key;
    EmissionRule(h, t, j);
    if t - s - 1 > MAX_MISSES {
      assert Gap(h, key, t);
      assert SpanStart(h, key, t) == t;
    } else {
      SpanReachesBack(h, key, s, t);
    }
  }

  /** The recorded peak is the loudest signal with the key in the span. */
  lemma {:induction false} PeakIsLoudest(h: History, key: nat, s: nat, t: nat, u: nat, i: nat)
    requires s <= u < t <= |h| && i < |h[u]| && h[u][i].key == key
    ensures h[u][i].peak <= PeakBetween(h, key, s, t)
    decreases t
  {
    PeakInGrows(PeakBetween(h, key, s, t - 1), h[t - 1], key, if u == t - 1 then i else 0);
    if u == t - 1 {
    } else {
      PeakIsLoudest(h, key, s, t - 1, u, i);
    }
  }

  lemma {:induction false} PeakInGrows(base: real, d: seq<Sighting>, key: nat, i: nat)
    ensures base <= PeakIn(base, d, key)
    ensures i < |d| && d[i].key == key ==> d[i].peak <= PeakIn(base, d, key)
  {
    if d == [] {
    } else {
      PeakInGrows(base, d[..|d| - 1], key, i);
    }
  }
}
