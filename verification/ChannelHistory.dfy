/**
 * A channel over all its dwells: what it holds for one centre frequency depends on the dwells at that
 * centre only, and is what their history says.
 */
module ChannelHistory {
  import opened Prelude
  import opened ChannelDwell
  import IqStream
  import P = Persistence
  import N = NoiseFloor

  const EMPTY: ChannelState := ChannelState(map[], map[])

  /** The channel after these dwells, oldest first. */
  function AfterAll(alpha: real, jobs: seq<Job>): ChannelState {
    if jobs == [] then EMPTY else AfterJob(alpha, AfterAll(alpha, jobs[..|jobs| - 1]), jobs[|jobs| - 1])
  }

  function IfAt(job: Job, center: nat): seq<Job> {
    if job.center == center then [job] else []
  }

  /** The dwells among them at one centre. */
  function VisitsTo(jobs: seq<Job>, center: nat): (v: seq<Job>)
    ensures forall i :: 0 <= i < |v| ==> v[i].center == center && v[i] in jobs
  {
    if jobs == [] then [] else VisitsTo(jobs[..|jobs| - 1], center) + IfAt(jobs[|jobs| - 1], center)
  }

  function SightingsOf(visits: seq<Job>): (h: P.History)
    ensures |h| == |visits| && forall i :: 0 <= i < |visits| ==> h[i] == visits[i].sightings
  {
    seq(|visits|, i requires 0 <= i < |visits| => visits[i].sightings)
  }

  lemma {:induction false} AfterPrefix(h: P.History, g: P.History, t: nat)
    requires t <= |h| && t <= |g| && forall i :: 0 <= i < t ==> h[i] == g[i]
    ensures P.After(h, t) == P.After(g, t)
  {
    hide P.AfterDwell;
    if t == 0 {
    } else {
      AfterPrefix(h, g, t - 1);
    }
  }

  lemma HistoryExtends(visits: seq<Job>, job: Job)
    ensures
      var g, h := SightingsOf(visits), SightingsOf(visits + [job]);
      P.After(h, |h|) == P.AfterDwell(P.After(g, |g|), job.sightings)
  {
    var g, h := SightingsOf(visits), SightingsOf(visits + [job]);
    AfterPrefix(h, g, |g|);
    hide P.AfterDwell;
  }

  /** One dwell's effect on the entries and the floor of a centre. */
  lemma DwellAtCenter(alpha: real, cs: ChannelState, job: Job, center: nat)
    ensures EntriesAt(AfterJob(alpha, cs, job).persist, center) ==
      if job.center == center then P.AfterDwell(EntriesAt(cs.persist, center), job.sightings) else EntriesAt(cs.persist, center)
    ensures center in AfterJob(alpha, cs, job).floors <==> center in cs.floors || job.center == center
    ensures job.center == center ==> AfterJob(alpha, cs, job).floors[center] == FloorAt(alpha, cs.floors, job.center, job.spectrum)
    ensures job.center != center && center in cs.floors ==>
      AfterJob(alpha, cs, job).floors[center] == cs.floors[center]
  {
    hide P.AfterDwell, FloorAt;
  }

  /** The entries of a centre are those of the history of its own dwells. */
  lemma {:induction false} EntriesFollowVisits(alpha: real, jobs: seq<Job>, center: nat)
    ensures
      var h := SightingsOf(VisitsTo(jobs, center));
      EntriesAt(AfterAll(alpha, jobs).persist, center) == P.After(h, |h|)
  {
    if jobs == [] {
    } else {
      var m := |jobs| - 1;
      EntriesFollowVisits(alpha, jobs[..m], center);
      DwellAtCenter(alpha, AfterAll(alpha, jobs[..m]), jobs[m], center);
      HistoryExtends(VisitsTo(jobs[..m], center), jobs[m]);
      hide P.AfterDwell, P.After, AfterJob, EntriesAt;
      assert VisitsTo(jobs[..m], center) + [] == VisitsTo(jobs[..m], center);
    }
  }

  /**
   * Over any run of a channel: an entry exists iff its key was seen in the last five dwells at that
   * centre, and then counts signals, misses and peak as the history of that centre says.
   */
  lemma ChannelRemembers(alpha: real, jobs: seq<Job>, center: nat, key: nat)
    ensures
      var h := SightingsOf(VisitsTo(jobs, center));
      var m := EntriesAt(AfterAll(alpha, jobs).persist, center);
      && (key in m <==> P.SeenRecently(h, key, |h|))
      && (key in m ==> m[key] == P.EntryByHistory(h, key, |h|))
  {
    var h := SightingsOf(VisitsTo(jobs, center));
    EntriesFollowVisits(alpha, jobs, center);
    P.EntriesMatchHistory(h, key, |h|);
    hide P.SeenRecently, P.EntryByHistory;
  }

  /**
   * Over any run of a channel: of the next dwell, exactly those signals are passed on that are strong
   * or whose key was met before in their span, earlier in the same dwell included.
   */
  lemma ChannelEmits(alpha: real, jobs: seq<Job>, next: Job, j: nat)
    requires j < |next.sightings|
    ensures
      var h := SightingsOf(VisitsTo(jobs, next.center)) + [next.sightings];
      j in Emitted(AfterAll(alpha, jobs), next) <==>
        next.sightings[j].peak - next.sightings[j].mean >= 15.0 || P.MetBefore(h, |h| - 1, j)
  {
    var g := SightingsOf(VisitsTo(jobs, next.center));
    var h := g + [next.sightings];
    EntriesFollowVisits(alpha, jobs, next.center);
    AfterPrefix(g, h, |g|);
    P.EmissionRule(h, |g|, j);
    hide P.MetBefore, P.Emits, AfterAll, P.After;
    assert forall i :: i in Emitted(AfterAll(alpha, jobs), next) ==>
      P.Emits(EntriesAt(AfterAll(alpha, jobs).persist, next.center), next.sightings, i);
  }

  /** The powers observed in one bin. */
  function BinHistory(visits: seq<Job>, k: nat): (r: seq<real>)
    requires forall i :: 0 <= i < |visits| ==> k < |visits[i].spectrum|
    ensures |r| == |visits| && forall i :: 0 <= i < |visits| ==> r[i] == visits[i].spectrum[k]
  {
    seq(|visits|, i requires 0 <= i < |visits| => visits[i].spectrum[k])
  }

  /** The noise floor of a centre is the tracker run over the spectra of its own dwells, bin by bin. */
  lemma {:induction false} FloorFollowsVisits(alpha: real, jobs: seq<Job>, center: nat, n: nat)
    requires forall i :: 0 <= i < |jobs| ==> |jobs[i].spectrum| == n
    ensures
      var v := VisitsTo(jobs, center);
      var floors := AfterAll(alpha, jobs).floors;
      && (center in floors <==> v != [])
      && (v != [] ==> |floors[center]| == n)
      && (v != [] ==> forall k :: 0 <= k < n ==> floors[center][k] == N.FloorAfter(alpha, BinHistory(v, k)))
  {
    if jobs == [] {
    } else {
      var m := |jobs| - 1;
      FloorFollowsVisits(alpha, jobs[..m], center, n);
      DwellAtCenter(alpha, AfterAll(alpha, jobs[..m]), jobs[m], center);
      var u, v := VisitsTo(jobs[..m], center), VisitsTo(jobs, center);
      hide AfterJob, VisitsTo;
      if jobs[m].center == center {
        assert v == u + [jobs[m]];
        FloorExtends(alpha, AfterAll(alpha, jobs[..m]), u, jobs[m], n);
      } else {
        assert v == u;
      }
    }
  }

  lemma FloorExtends(alpha: real, cs: ChannelState, visits: seq<Job>, job: Job, n: nat)
    requires |job.spectrum| == n && forall i :: 0 <= i < |visits| ==> |visits[i].spectrum| == n
    requires job.center in cs.floors <==> visits != []
    requires visits != [] ==> |cs.floors[job.center]| == n
    requires visits != [] ==>
      forall k :: 0 <= k < n ==> cs.floors[job.center][k] == N.FloorAfter(alpha, BinHistory(visits, k))
    ensures |FloorAt(alpha, cs.floors, job.center, job.spectrum)| == n
    ensures forall k :: 0 <= k < n ==> FloorAt(alpha, cs.floors, job.center, job.spectrum)[k] == N.FloorAfter(alpha, BinHistory(visits + [job], k))
  {
    hide N.Track;
    forall k | 0 <= k < n
      ensures FloorAt(alpha, cs.floors, job.center, job.spectrum)[k] == N.FloorAfter(alpha, BinHistory(visits + [job], k))
    {
      assert BinHistory(visits + [job], k)[..|visits|] == BinHistory(visits, k);
    }
  }

  /** No noise-floor bin ever leaves the range of the powers observed there. */
  lemma FloorNeverOvershoots(alpha: real, jobs: seq<Job>, center: nat, n: nat, k: nat, lo: real, hi: real)
    requires 0.0 < alpha <= 1.0 && k < n && VisitsTo(jobs, center) != []
    requires forall i :: 0 <= i < |jobs| ==> |jobs[i].spectrum| == n
    requires forall i :: 0 <= i < |jobs| && jobs[i].center == center ==> lo <= jobs[i].spectrum[k] <= hi
    ensures center in AfterAll(alpha, jobs).floors && |AfterAll(alpha, jobs).floors[center]| == n
    ensures lo <= AfterAll(alpha, jobs).floors[center][k] <= hi
  {
    FloorFollowsVisits(alpha, jobs, center, n);
    N.FloorWithinObserved(alpha, BinHistory(VisitsTo(jobs, center), k), lo, hi);
  }

  // ---------- From the dwells of the source to the jobs of a channel ----------

  /** All channels after these dwells, each dispatched in full. */
  ghost function AfterDwells(env: Env, dwells: seq<IqStream.Dwell>): (states: seq<ChannelState>)
    requires env.Valid()
    ensures |states| == |env.procs|
  {
    if dwells == [] then seq(|env.procs|, _ => EMPTY)
    else
      var last := dwells[|dwells| - 1];
      env.StatesAfter(AfterDwells(env, dwells[..|dwells| - 1]), last, env.Channels(last))
  }

  /** What these dwells had for one channel, those with too few samples left out. */
  ghost function JobsOf(env: Env, dwells: seq<IqStream.Dwell>, ch: nat): (jobs: seq<Job>)
    requires env.Valid()
    ensures forall i :: 0 <= i < |jobs| ==> |jobs[i].spectrum| == env.search.fftSize
  {
    if dwells == [] then []
    else
      var last := dwells[|dwells| - 1];
      JobsOf(env, dwells[..|dwells| - 1], ch) + if env.Enough(last, ch) then [env.JobOf(last, ch)] else []
  }

  /** Over any sequence of dwells a channel is where its own jobs take it, so the theorems above hold for the scanner. */
  lemma {:induction false} ChannelsFollowTheirJobs(env: Env, dwells: seq<IqStream.Dwell>, ch: nat)
    requires env.Valid() && ch < |env.procs|
    ensures AfterDwells(env, dwells)[ch] == AfterAll(env.alpha, JobsOf(env, dwells, ch))
  {
    hide Env.Valid, Env.JobOf, AfterJob;
    if dwells == [] {
    } else {
      var m := |dwells| - 1;
      ChannelsFollowTheirJobs(env, dwells[..m], ch);
      StatesAfterExact(env, AfterDwells(env, dwells[..m]), dwells[m], env.Channels(dwells[m]), ch);
      var jobs := JobsOf(env, dwells[..m], ch);
      assert jobs + [] == jobs;
      assert env.Enough(dwells[m], ch) ==> (jobs + [env.JobOf(dwells[m], ch)])[..|jobs|] == jobs;
    }
  }
}
