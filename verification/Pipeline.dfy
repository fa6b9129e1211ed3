/** From the stream to the callbacks: what next() delivers, dispatched dwell by dwell. */
module Pipeline {
  import opened Prelude
  import opened IqStream
  import opened IqStreamTheorems
  import opened ChannelDwell
  import opened ChannelHistory
  import P = Persistence

  /** What the dwells so far and the next one held for a channel at the next one's centre. */
  ghost function HistoryAt(env: Env, dwells: seq<Dwell>, next: Dwell, ch: nat): (h: P.History)
    requires env.Valid() && env.Enough(next, ch)
    ensures h != [] && h[|h| - 1] == env.JobOf(next, ch).sightings
  {
    var job := env.JobOf(next, ch);
    ChannelHistory.SightingsOf(VisitsTo(JobsOf(env, dwells, ch), job.center)) + [job.sightings]
  }

  /** Signal j of channel ch of the next dwell is strong, or its key was met before at that centre. */
  ghost predicate Confirmed(env: Env, dwells: seq<Dwell>, next: Dwell, ch: nat, j: nat)
    requires env.Valid() && env.Enough(next, ch) && j < |env.JobOf(next, ch).sightings|
  {
    var h := HistoryAt(env, dwells, next, ch);
    var x := env.JobOf(next, ch).sightings[j];
    x.peak - x.mean >= 15.0 || P.MetBefore(h, |h| - 1, j)
  }

  /** After these dwells channel ch passes on exactly the confirmed signals of the next one. */
  ghost predicate PassesConfirmed(env: Env, dwells: seq<Dwell>, next: Dwell, ch: nat)
    requires env.Valid() && env.Enough(next, ch)
  {
    var job := env.JobOf(next, ch);
    forall j :: 0 <= j < |job.sightings| ==>
      (j in Emitted(AfterDwells(env, dwells)[ch], job) <==> Confirmed(env, dwells, next, ch, j))
  }

  /**
   * The scanner over any dwells: the next one calls back, channel by channel for those with enough
   * samples, exactly the detections of the signals confirmed by the history of their channel and centre.
   */
  lemma ScannerCallsBack(env: Env, dwells: seq<Dwell>, next: Dwell)
    requires env.Valid()
    ensures
      var states, n := AfterDwells(env, dwells), env.Channels(next);
      && env.CallsAfter(states, next, n) == Results(env, states, next, Eligible(env, next, n))
      && forall ch :: 0 <= ch < n && env.Enough(next, ch) ==> PassesConfirmed(env, dwells, next, ch)
  {
    var states, n := AfterDwells(env, dwells), env.Channels(next);
    CallsAfterExact(env, states, next, n);
    forall ch | 0 <= ch < n && env.Enough(next, ch) ensures PassesConfirmed(env, dwells, next, ch) {
      forall j | 0 <= j < |env.JobOf(next, ch).sightings|
        ensures j in Emitted(states[ch], env.JobOf(next, ch)) <==> Confirmed(env, dwells, next, ch, j)
      {
        SignalPassed(env, dwells, next, ch, j);
      }
    }
  }

  lemma SignalPassed(env: Env, dwells: seq<Dwell>, next: Dwell, ch: nat, j: nat)
    requires env.Valid() && env.Enough(next, ch) && j < |env.JobOf(next, ch).sightings|
    ensures j in Emitted(AfterDwells(env, dwells)[ch], env.JobOf(next, ch)) <==> Confirmed(env, dwells, next, ch, j)
  {
    hide P.MetBefore, Emitted, AfterAll, AfterDwells;
    ChannelsFollowTheirJobs(env, dwells, ch);
    ChannelEmits(env.alpha, JobsOf(env, dwells, ch), env.JobOf(next, ch), j);
  }

  /**
   * Receiver and scanner together, over any stream and any number of next() calls: dwell i holds, channel
   * by channel, exactly the samples of its own stretch of the accepted packets, and once dispatched after
   * the dwells before it calls back exactly the signals confirmed by those.
   */
  lemma StreamToCallbacks(cfg: Config, s: State, events: seq<Recv>, n: nat, env: Env, i: nat, ch: nat)
    requires cfg.Valid() && s.asm == Blank(cfg.rxChannels)
    requires env.Valid() && |env.procs| == cfg.rxChannels && ch < cfg.rxChannels
    requires i < |CallNext(cfg, s, events, n).dwells|
    ensures
      var r := CallNext(cfg, s, events, n);
      var taken := AcceptedIn(events[..r.used]);
      var t := Replay(cfg, Fresh(cfg), taken);
      && Flatten(t.groups) + t.held == taken && |t.groups| == |r.dwells|
      && |r.dwells[i].channels| == cfg.rxChannels
      && r.dwells[i].channels[ch] == SamplesOn(t.groups[i], ch)
      && (env.Enough(r.dwells[i], ch) <==> |SamplesOn(t.groups[i], ch)| >= env.search.fftSize)
      && (env.Enough(r.dwells[i], ch) ==> PassesConfirmed(env, r.dwells[..i], r.dwells[i], ch))
  {
    hide Replay, Serve, SamplesOn, CallNext, AfterDwells, PassesConfirmed, Env.JobOf;
    var r := CallNext(cfg, s, events, n);
    var taken := AcceptedIn(events[..r.used]);
    CallsReplay(cfg, s, events, n);
    PacketsConserved(cfg, taken);
    ScannerCallsBack(env, r.dwells[..i], r.dwells[i]);
  }
}
