/**
 * The channels of one dwell processed at the same time. The sweep thread launches one task per channel
 * that has enough samples, then waits for their results in order and fires the callbacks; the tasks
 * work on the scanner's vectors and on their channel's FFT processor. A run is any interleaving.
 */
module ChannelTasks {
  import opened Prelude
  import opened CfarSpec
  import opened Persistence
  import opened ChannelDwell
  import IqStream

  // ---------- What the tasks share ----------

  /** The processors' buffers, and the noise floors and persistence entries of all channels. */
  datatype Shared = Shared(
    power: map<object, seq<real>>, floors: seq<map<nat, seq<real>>>, persist: seq<map<nat, Entries>>)

  ghost predicate Fits(env: Env, sh: Shared) {
    && env.Valid()
    && |sh.floors| == |sh.persist| == |env.procs|
    && forall ch :: 0 <= ch < |env.procs| ==>
      env.procs[ch] in sh.power && |sh.power[env.procs[ch]]| == env.search.fftSize
  }

  /** No two channels have the same processor. */
  ghost predicate Separate(env: Env) {
    forall i, j :: 0 <= i < j < |env.procs| ==> env.procs[i] != env.procs[j]
  }

  function StateAt(sh: Shared, ch: nat): ChannelState
    requires ch < |sh.floors| == |sh.persist|
  {
    ChannelState(sh.floors[ch], sh.persist[ch])
  }

  function StatesOf(sh: Shared): (states: seq<ChannelState>)
    requires |sh.floors| == |sh.persist|
    ensures |states| == |sh.floors|
    ensures forall ch :: 0 <= ch < |states| ==> states[ch] == StateAt(sh, ch)
  {
    seq(|sh.floors|, ch requires 0 <= ch < |sh.floors| => StateAt(sh, ch))
  }

  // ---------- One task ----------

  /** Where processDwell is: each phase ends with one access to what the tasks share. */
  datatype Phase =
    | Begun               // about to compute the spectrum into the processor's buffer
    | Loaded              // about to blank the DC guard zone there
    | Cleared             // about to search the buffer
    | Searched            // about to fold the buffer into the noise floor
    | Tracked             // about to look up, or create, the centre's persistence entries
    | Signals(next: nat)  // about to handle a signal
    | Decaying(todo: set<nat>)
    | Done

  /** A running task: its channel, the signals found, and the detections to return. */
  datatype Task = Task(ch: nat, phase: Phase, sigs: seq<Signal>, out: seq<Detection>)

  ghost function KeyOf(dwell: IqStream.Dwell): nat {
    RoundHz(dwell.center as real)
  }

  ghost function SightingsIn(env: Env, dwell: IqStream.Dwell, sigs: seq<Signal>): (d: seq<Sighting>)
    requires env.Valid()
    ensures |d| == |sigs|
  {
    SightingsOf(env.search.fftSize, env.sampleRate, dwell.center as real, sigs)
  }

  ghost function WithEntries(sh: Shared, ch: nat, key: nat, m: Entries): Shared
    requires ch < |sh.persist|
  {
    sh.(persist := sh.persist[ch := Put(sh.persist[ch], key, m)])
  }

  /** What a task's next step does to what is shared; pick is the entry the decay loop happens to visit. */
  ghost function StepShared(env: Env, dwell: IqStream.Dwell, sh: Shared, t: Task, pick: nat): (r: Shared)
    requires Fits(env, sh) && env.Enough(dwell, t.ch)
    ensures Fits(env, r)
  {
    var ch, buffer, key := t.ch, env.procs[t.ch], KeyOf(dwell);
    var m, d := EntriesAt(sh.persist[ch], key), SightingsIn(env, dwell, t.sigs);
    match t.phase
    case Begun => sh.(power := sh.power[buffer := env.spectrum(dwell.channels[ch])])
    case Loaded => sh.(power := sh.power[buffer := env.search.Blanked(sh.power[buffer])])
    case Searched =>
      var floor := FloorAt(env.alpha, sh.floors[ch], key, sh.power[buffer]);
      sh.(floors := sh.floors[ch := Put(sh.floors[ch], key, floor)])
    case Tracked => WithEntries(sh, ch, key, m)
    case Signals(j) => if j < |d| then WithEntries(sh, ch, key, Touch(m, d[j])) else sh
    case Decaying(todo) =>
      if pick in todo && pick in m then WithEntries(sh, ch, key, Decayed(m, {pick}, Keys(d))) else sh
    case _ => sh
  }

  /** And what it does to the task. */
  ghost function StepTask(env: Env, dwell: IqStream.Dwell, sh: Shared, t: Task, pick: nat): (r: Task)
    requires Fits(env, sh) && env.Enough(dwell, t.ch)
    ensures r.ch == t.ch
  {
    var m, d := EntriesAt(sh.persist[t.ch], KeyOf(dwell)), SightingsIn(env, dwell, t.sigs);
    match t.phase
    case Begun => t.(phase := Loaded)
    case Loaded => t.(phase := Cleared)
    case Cleared => t.(phase := Searched, sigs := env.sort(Found(env.search, sh.power[env.procs[t.ch]])))
    case Searched => t.(phase := Tracked)
    case Tracked => t.(phase := Signals(0))
    case Signals(j) =>
      if j >= |d| then t.(phase := Decaying(m.Keys))
      else if Strong(d[j]) || Touch(m, d[j])[d[j].key].hits >= MIN_HITS
      then
        var det := DetectionOf(env.search.fftSize, env.sampleRate, dwell.center as real, t.ch, t.sigs[j]);
        t.(phase := Signals(j + 1), out := t.out + [det])
      else t.(phase := Signals(j + 1))
    case Decaying(todo) =>
      if todo == {} then t.(phase := Done)
      else if pick in todo && pick in m then t.(phase := Decaying(todo - {pick}))
      else t
    case Done => t
  }

  /**
   * How far a task has come, in terms of what its channel's share of the dwell means: cs is the state the
   * channel had before the dwell, now and power what the channel and its processor's buffer hold.
   */
  ghost predicate OnCourse(env: Env, dwell: IqStream.Dwell, cs: ChannelState, now: ChannelState, power: seq<real>, t: Task)
    requires env.Valid() && env.Enough(dwell, t.ch)
  {
    var job, sigs := env.JobOf(dwell, t.ch), env.SignalsOf(dwell, t.ch);
    var key, d, m := job.center, job.sightings, EntriesAt(cs.persist, job.center);
    var floors := Put(cs.floors, key, FloorAt(env.alpha, cs.floors, key, job.spectrum));
    match t.phase
    case Begun => now == cs && t.out == []
    case Loaded => now == cs && t.out == [] && power == env.spectrum(dwell.channels[t.ch])
    case Cleared => now == cs && t.out == [] && power == job.spectrum
    case Searched => now == cs && t.out == [] && power == job.spectrum && t.sigs == sigs
    case Tracked => now == ChannelState(floors, cs.persist) && t.out == [] && t.sigs == sigs
    case Signals(j) =>
      && j <= |sigs| && t.sigs == sigs
      && now == ChannelState(floors, Put(cs.persist, key, TouchAll(m, d[..j])))
      && t.out == Passed(env.search.fftSize, env.sampleRate, dwell.center as real, t.ch, sigs, m, j)
    case Decaying(todo) =>
      var left := EntriesAt(now.persist, key);
      && t.sigs == sigs
      && now == ChannelState(floors, Put(cs.persist, key, left))
      && todo <= left.Keys && Decayed(left, todo, Keys(d)) == AfterDwell(m, d)
      && t.out == env.Outcome(cs, dwell, t.ch)
    case Done => now == AfterJob(env.alpha, cs, job) && t.out == env.Outcome(cs, dwell, t.ch)
  }

  /** The same, read off what is shared. */
  ghost predicate TaskOnCourse(env: Env, dwell: IqStream.Dwell, cs: ChannelState, sh: Shared, t: Task)
    requires Fits(env, sh) && env.Enough(dwell, t.ch)
  {
    OnCourse(env, dwell, cs, StateAt(sh, t.ch), sh.power[env.procs[t.ch]], t)
  }

  lemma DetectionStays(env: Env, dwell: IqStream.Dwell, cs: ChannelState, sh: Shared, t: Task, pick: nat)
    requires Fits(env, sh) && env.Enough(dwell, t.ch) && TaskOnCourse(env, dwell, cs, sh, t)
    requires t.phase in {Begun, Loaded, Cleared, Searched, Tracked}
    ensures TaskOnCourse(env, dwell, cs, StepShared(env, dwell, sh, t, pick), StepTask(env, dwell, sh, t, pick))
  {
    hide Search.Blanked, FloorAt, Found, SightingsOf;
    if t.phase.Tracked? {
      var m, d := EntriesAt(cs.persist, KeyOf(dwell)), SightingsIn(env, dwell, t.sigs);
      assert d[..0] == [];
      assert TouchAll(m, d[..0]) == m;
    }
  }

  lemma SignalStays(env: Env, dwell: IqStream.Dwell, cs: ChannelState, sh: Shared, t: Task, pick: nat)
    requires Fits(env, sh) && env.Enough(dwell, t.ch) && TaskOnCourse(env, dwell, cs, sh, t)
    requires t.phase.Signals? && t.phase.next < |t.sigs|
    ensures TaskOnCourse(env, dwell, cs, StepShared(env, dwell, sh, t, pick), StepTask(env, dwell, sh, t, pick))
  {
    SignalStep(env, dwell, sh, t, pick);
    hide StepShared, StepTask, OnCourse, SightingsIn;
    var sh', t' := StepShared(env, dwell, sh, t, pick), StepTask(env, dwell, sh, t, pick);
    SignalOnCourse(env, dwell, cs, StateAt(sh, t.ch), StateAt(sh', t.ch), sh.power[env.procs[t.ch]], t, t');
  }

  /** The entries and the task after a signal has been handled. */
  ghost predicate HandlesSignal(env: Env, dwell: IqStream.Dwell, now: ChannelState, now': ChannelState, t: Task, t': Task)
    requires env.Valid() && t.phase.Signals? && t.phase.next < |t.sigs|
  {
    var j, key, d := t.phase.next, KeyOf(dwell), SightingsIn(env, dwell, t.sigs);
    var m' := Touch(EntriesAt(now.persist, key), d[j]);
    && now' == now.(persist := Put(now.persist, key, m'))
    && t' == t.(phase := Signals(j + 1), out := t.out +
      if Strong(d[j]) || m'[d[j].key].hits >= MIN_HITS
      then [DetectionOf(env.search.fftSize, env.sampleRate, dwell.center as real, t.ch, t.sigs[j])] else [])
  }

  lemma SignalStep(env: Env, dwell: IqStream.Dwell, sh: Shared, t: Task, pick: nat)
    requires Fits(env, sh) && env.Enough(dwell, t.ch) && t.phase.Signals? && t.phase.next < |t.sigs|
    ensures
      var sh', t' := StepShared(env, dwell, sh, t, pick), StepTask(env, dwell, sh, t, pick);
      && HandlesSignal(env, dwell, StateAt(sh, t.ch), StateAt(sh', t.ch), t, t')
      && sh'.power == sh.power
  {
    hide Touch, Strong, SightingsOf, DetectionOf;
  }

  lemma SignalOnCourse(env: Env, dwell: IqStream.Dwell, cs: ChannelState, now: ChannelState, now': ChannelState,
      power: seq<real>, t: Task, t': Task)
    requires env.Valid() && env.Enough(dwell, t.ch) && t.phase.Signals? && t.phase.next < |t.sigs|
    requires OnCourse(env, dwell, cs, now, power, t) && HandlesSignal(env, dwell, now, now', t, t')
    ensures t'.ch == t.ch && OnCourse(env, dwell, cs, now', power, t')
  {
    hide TouchAll, Touch, Passed, FloorAt, Strong, SightingsOf, DetectionOf, Env.SignalsOf, AfterJob, AfterDwell, Env.Outcome;
    SignalHandled(env, dwell, EntriesAt(cs.persist, KeyOf(dwell)), t.ch, t.sigs, t.phase.next);
  }

  /** One more signal, in terms of what the filter makes of the first ones. */
  lemma SignalHandled(env: Env, dwell: IqStream.Dwell, m: Entries, ch: nat, sigs: seq<Signal>, j: nat)
    requires env.Valid() && j < |sigs|
    ensures
      var d := SightingsIn(env, dwell, sigs);
      var m' := Touch(TouchAll(m, d[..j]), d[j]);
      && TouchAll(m, d[..j + 1]) == m'
      && Passed(env.search.fftSize, env.sampleRate, dwell.center as real, ch, sigs, m, j + 1)
        == Passed(env.search.fftSize, env.sampleRate, dwell.center as real, ch, sigs, m, j)
          + if Strong(d[j]) || m'[d[j].key].hits >= MIN_HITS
            then [DetectionOf(env.search.fftSize, env.sampleRate, dwell.center as real, ch, sigs[j])] else []
  {
    var d := SightingsIn(env, dwell, sigs);
    PassedStep(env.search.fftSize, env.sampleRate, dwell.center as real, ch, sigs, m, j);
    assert d[..j + 1][..j] == d[..j];
    hide Passed, SightingsOf, DetectionOf, Strong;
  }

  lemma EndStays(env: Env, dwell: IqStream.Dwell, cs: ChannelState, sh: Shared, t: Task, pick: nat)
    requires Fits(env, sh) && env.Enough(dwell, t.ch) && TaskOnCourse(env, dwell, cs, sh, t)
    requires t.phase.Signals? && t.phase.next >= |t.sigs|
    ensures TaskOnCourse(env, dwell, cs, StepShared(env, dwell, sh, t, pick), StepTask(env, dwell, sh, t, pick))
  {
    EndStep(env, dwell, sh, t, pick);
    hide StepShared, StepTask, OnCourse, KeyOf;
    EndOnCourse(env, dwell, cs, StateAt(sh, t.ch), sh.power[env.procs[t.ch]], t);
  }

  /** The task once it has turned to the decay loop. */
  ghost function BeginsDecay(dwell: IqStream.Dwell, now: ChannelState, t: Task): Task {
    t.(phase := Decaying(EntriesAt(now.persist, KeyOf(dwell)).Keys))
  }

  lemma EndStep(env: Env, dwell: IqStream.Dwell, sh: Shared, t: Task, pick: nat)
    requires Fits(env, sh) && env.Enough(dwell, t.ch) && t.phase.Signals? && t.phase.next >= |t.sigs|
    ensures StepShared(env, dwell, sh, t, pick) == sh
    ensures StepTask(env, dwell, sh, t, pick) == BeginsDecay(dwell, StateAt(sh, t.ch), t)
  {
  }

  lemma EndOnCourse(env: Env, dwell: IqStream.Dwell, cs: ChannelState, now: ChannelState, power: seq<real>, t: Task)
    requires env.Valid() && env.Enough(dwell, t.ch) && t.phase.Signals? && t.phase.next >= |t.sigs|
    requires OnCourse(env, dwell, cs, now, power, t)
    ensures OnCourse(env, dwell, cs, now, power, BeginsDecay(dwell, now, t))
  {
    hide FloorAt, Env.SignalsOf, Env.Outcome, SightingsOf, Passed, TouchAll, Decayed, Keys, AfterDwell, AfterJob;
    AllHandled(env, dwell, cs, t.ch);
  }

  /** With every signal handled only the decay is left, and the output is complete. */
  lemma AllHandled(env: Env, dwell: IqStream.Dwell, cs: ChannelState, ch: nat)
    requires env.Valid() && env.Enough(dwell, ch)
    ensures
      var sigs, d, m := env.SignalsOf(dwell, ch), env.JobOf(dwell, ch).sightings, EntriesAt(cs.persist, KeyOf(dwell));
      && |d| == |sigs|
      && AfterDwell(m, d) == Decayed(TouchAll(m, d[..|d|]), TouchAll(m, d[..|d|]).Keys, Keys(d))
      && Passed(env.search.fftSize, env.sampleRate, dwell.center as real, ch, sigs, m, |sigs|)
        == env.Outcome(cs, dwell, ch)
  {
    hide Env.SignalsOf, Decayed, TouchAll;
    var d := env.JobOf(dwell, ch).sightings;
    assert d[..|d|] == d;
  }

  lemma DecayStays(env: Env, dwell: IqStream.Dwell, cs: ChannelState, sh: Shared, t: Task, pick: nat)
    requires Fits(env, sh) && env.Enough(dwell, t.ch) && TaskOnCourse(env, dwell, cs, sh, t)
    requires t.phase.Decaying?
    ensures TaskOnCourse(env, dwell, cs, StepShared(env, dwell, sh, t, pick), StepTask(env, dwell, sh, t, pick))
  {
    hide FloorAt, AfterDwell, Decayed, Keys, SightingsOf, Env.SignalsOf, Env.Outcome, Touch, TouchAll, Passed, Found;
    var m, todo, seen := EntriesAt(sh.persist[t.ch], KeyOf(dwell)), t.phase.todo, Keys(SightingsIn(env, dwell, t.sigs));
    if todo == {} {
      DecayNone(m, seen);
    } else if pick in todo {
      DecayOne(m, todo, seen, pick);
    }
  }

  /** A task's own step keeps it on course. */
  lemma OwnStepStays(env: Env, dwell: IqStream.Dwell, cs: ChannelState, sh: Shared, t: Task, pick: nat)
    requires Fits(env, sh) && env.Enough(dwell, t.ch) && TaskOnCourse(env, dwell, cs, sh, t)
    ensures TaskOnCourse(env, dwell, cs, StepShared(env, dwell, sh, t, pick), StepTask(env, dwell, sh, t, pick))
  {
    if t.phase.Done? {
      assert StepShared(env, dwell, sh, t, pick) == sh && StepTask(env, dwell, sh, t, pick) == t;
    }
    hide OnCourse, StepShared, StepTask;
    if t.phase in {Begun, Loaded, Cleared, Searched, Tracked} {
      DetectionStays(env, dwell, cs, sh, t, pick);
    } else if t.phase.Decaying? {
      DecayStays(env, dwell, cs, sh, t, pick);
    } else if t.phase.Signals? && t.phase.next < |t.sigs| {
      SignalStays(env, dwell, cs, sh, t, pick);
    } else if t.phase.Signals? {
      EndStays(env, dwell, cs, sh, t, pick);
    }
  }

  /** A step of one channel's task leaves the other channels and their processors alone. */
  lemma OtherChannelsKept(env: Env, dwell: IqStream.Dwell, sh: Shared, t: Task, pick: nat, ch: nat)
    requires Fits(env, sh) && Separate(env) && env.Enough(dwell, t.ch)
    requires ch < |env.procs| && ch != t.ch
    ensures StateAt(StepShared(env, dwell, sh, t, pick), ch) == StateAt(sh, ch)
    ensures StepShared(env, dwell, sh, t, pick).power[env.procs[ch]] == sh.power[env.procs[ch]]
  {
    hide Search.Blanked, FloorAt, Touch, Decayed, SightingsIn;
  }

  // ---------- All of them, and the sweep thread ----------

  /** The sweep thread launches channel by channel, then takes the results future by future. */
  datatype Sweeper = Launching(ch: nat) | Collecting(future: nat, next: nat) | Finished

  /** tasks holds the futures in launch order, calls what has been handed to the callback. */
  datatype World = World(sh: Shared, tasks: seq<Task>, sweep: Sweeper, calls: seq<Detection>)

  ghost predicate Sane(env: Env, dwell: IqStream.Dwell, w: World) {
    Fits(env, w.sh) && forall i :: 0 <= i < |w.tasks| ==> env.Enough(dwell, w.tasks[i].ch)
  }

  /** One step of the sweep thread; waiting for a future that is not ready changes nothing. */
  ghost function SweepStep(env: Env, dwell: IqStream.Dwell, w: World): (r: World)
    requires Sane(env, dwell, w)
    ensures Sane(env, dwell, r)
  {
    match w.sweep
    case Launching(ch) =>
      if ch >= env.Channels(dwell) then w.(sweep := Collecting(0, 0))
      else if env.Enough(dwell, ch) then w.(sweep := Launching(ch + 1), tasks := w.tasks + [Task(ch, Begun, [], [])])
      else w.(sweep := Launching(ch + 1))
    case Collecting(i, j) =>
      if i >= |w.tasks| then w.(sweep := Finished)
      else if !w.tasks[i].phase.Done? then w
      else if j >= |w.tasks[i].out| then w.(sweep := Collecting(i + 1, 0))
      else w.(sweep := Collecting(i, j + 1), calls := w.calls + [w.tasks[i].out[j]])
    case Finished => w
  }

  ghost function TaskStep(env: Env, dwell: IqStream.Dwell, w: World, i: nat, pick: nat): (r: World)
    requires Sane(env, dwell, w) && i < |w.tasks|
    ensures Sane(env, dwell, r)
  {
    w.(sh := StepShared(env, dwell, w.sh, w.tasks[i], pick),
       tasks := w.tasks[i := StepTask(env, dwell, w.sh, w.tasks[i], pick)])
  }

  /** The scheduler lets the sweep thread or one of the tasks make one step. */
  datatype Turn = Sweep | Work(task: nat, pick: nat)

  ghost function TakeTurn(env: Env, dwell: IqStream.Dwell, w: World, turn: Turn): (r: World)
    requires Sane(env, dwell, w)
    ensures Sane(env, dwell, r)
  {
    match turn
    case Sweep => SweepStep(env, dwell, w)
    case Work(i, pick) => if i < |w.tasks| then TaskStep(env, dwell, w, i, pick) else w
  }

  ghost function Play(env: Env, dwell: IqStream.Dwell, sh: Shared, turns: seq<Turn>): (w: World)
    requires Fits(env, sh)
    ensures Sane(env, dwell, w)
  {
    if turns == [] then World(sh, [], Launching(0), [])
    else TakeTurn(env, dwell, Play(env, dwell, sh, turns[..|turns| - 1]), turns[|turns| - 1])
  }

  /** How many channels the launch loop has passed. */
  function Considered(env: Env, dwell: IqStream.Dwell, w: World): nat {
    if w.sweep.Launching? then Min(w.sweep.ch, env.Channels(dwell)) else env.Channels(dwell)
  }

  function ChannelsOf(tasks: seq<Task>): (chs: seq<nat>)
    ensures |chs| == |tasks| && forall i :: 0 <= i < |tasks| ==> chs[i] == tasks[i].ch
  {
    seq(|tasks|, i requires 0 <= i < |tasks| => tasks[i].ch)
  }

  /** One task for each channel passed that has enough samples, each on its course; other channels are as before. */
  ghost predicate Tracks(env: Env, dwell: IqStream.Dwell, states: seq<ChannelState>, w: World)
    requires env.Valid() && |states| == |env.procs|
  {
    && Sane(env, dwell, w)
    && (w.sweep.Launching? ==> w.sweep.ch <= env.Channels(dwell))
    && ChannelsOf(w.tasks) == Eligible(env, dwell, Considered(env, dwell, w))
    && (forall i :: 0 <= i < |w.tasks| ==> TaskOnCourse(env, dwell, states[w.tasks[i].ch], w.sh, w.tasks[i]))
    && (forall ch :: 0 <= ch < |states| && ch !in ChannelsOf(w.tasks) ==> StateAt(w.sh, ch) == states[ch])
  }

  /** The callbacks so far are those of the futures taken, in order, and of the one being taken. */
  ghost predicate Called(env: Env, dwell: IqStream.Dwell, states: seq<ChannelState>, w: World)
    requires |states| == |env.procs| && Sane(env, dwell, w)
  {
    match w.sweep
    case Launching(_) => w.calls == []
    case Collecting(i, j) =>
      && i <= |w.tasks| && (forall k :: 0 <= k < i ==> w.tasks[k].phase.Done?)
      && (if i < |w.tasks| then j <= |w.tasks[i].out| && (j > 0 ==> w.tasks[i].phase.Done?) else j == 0)
      && w.calls == Results(env, states, dwell, ChannelsOf(w.tasks[..i])) +
        if i < |w.tasks| then w.tasks[i].out[..j] else []
    case Finished =>
      && (forall k :: 0 <= k < |w.tasks| ==> w.tasks[k].phase.Done?)
      && w.calls == Results(env, states, dwell, ChannelsOf(w.tasks))
  }

  lemma TaskStepTracks(env: Env, dwell: IqStream.Dwell, states: seq<ChannelState>, w: World, i: nat, pick: nat)
    requires env.Valid() && |states| == |env.procs| && Separate(env)
    requires Tracks(env, dwell, states, w) && i < |w.tasks|
    ensures Tracks(env, dwell, states, TaskStep(env, dwell, w, i, pick))
  {
    hide OnCourse, StepShared, StepTask, Env.Valid;
    var r := TaskStep(env, dwell, w, i, pick);
    OwnStepStays(env, dwell, states[w.tasks[i].ch], w.sh, w.tasks[i], pick);
    assert ChannelsOf(r.tasks) == ChannelsOf(w.tasks);
    forall k | 0 <= k < |w.tasks|
      ensures TaskOnCourse(env, dwell, states[r.tasks[k].ch], r.sh, r.tasks[k])
    {
      if k != i {
        assert w.tasks[k].ch == ChannelsOf(w.tasks)[k] != ChannelsOf(w.tasks)[i];
        OtherChannelsKept(env, dwell, w.sh, w.tasks[i], pick, w.tasks[k].ch);
      }
    }
    forall ch | 0 <= ch < |states| && ch !in ChannelsOf(w.tasks) ensures StateAt(r.sh, ch) == states[ch] {
      assert ChannelsOf(w.tasks)[i] == w.tasks[i].ch;
      OtherChannelsKept(env, dwell, w.sh, w.tasks[i], pick, ch);
    }
  }

  lemma TaskStepCalls(env: Env, dwell: IqStream.Dwell, states: seq<ChannelState>, w: World, i: nat, pick: nat)
    requires |states| == |env.procs| && Sane(env, dwell, w) && Called(env, dwell, states, w) && i < |w.tasks|
    ensures Called(env, dwell, states, TaskStep(env, dwell, w, i, pick))
  {
    hide StepShared, Results, Env.Enough, Env.Channels, Fits;
    var r := TaskStep(env, dwell, w, i, pick);
    assert ChannelsOf(r.tasks) == ChannelsOf(w.tasks);
    if w.sweep.Collecting? {
      assert ChannelsOf(r.tasks[..w.sweep.future]) == ChannelsOf(w.tasks[..w.sweep.future]);
    }
    if w.tasks[i].phase.Done? {
      assert r.tasks == w.tasks;
    }
    hide StepTask;
  }

  lemma SweepStepTracks(env: Env, dwell: IqStream.Dwell, states: seq<ChannelState>, w: World)
    requires env.Valid() && |states| == |env.procs| && Tracks(env, dwell, states, w)
    ensures Tracks(env, dwell, states, SweepStep(env, dwell, w))
  {
    hide Env.Valid, OnCourse;
    var r := SweepStep(env, dwell, w);
    if w.sweep.Launching? && w.sweep.ch < env.Channels(dwell) {
      var ch, chs := w.sweep.ch, ChannelsOf(w.tasks);
      assert ch !in chs;
      if env.Enough(dwell, ch) {
        BeginsOnCourse(env, dwell, states[ch], w.sh, ch);
        assert ChannelsOf(r.tasks) == chs + [ch];
        assert r.tasks[|w.tasks|] == Task(ch, Begun, [], []) && ChannelsOf(r.tasks)[|w.tasks|] == ch;
        assert forall k :: 0 <= k < |w.tasks| ==> r.tasks[k] == w.tasks[k] && ChannelsOf(r.tasks)[k] == chs[k];
      } else {
        assert chs + [] == chs;
      }
    }
  }

  lemma BeginsOnCourse(env: Env, dwell: IqStream.Dwell, cs: ChannelState, sh: Shared, ch: nat)
    requires Fits(env, sh) && env.Enough(dwell, ch) && StateAt(sh, ch) == cs
    ensures TaskOnCourse(env, dwell, cs, sh, Task(ch, Begun, [], []))
  {
  }

  lemma SweepStepCalls(env: Env, dwell: IqStream.Dwell, states: seq<ChannelState>, w: World)
    requires env.Valid() && |states| == |env.procs| && Tracks(env, dwell, states, w) && Called(env, dwell, states, w)
    ensures Called(env, dwell, states, SweepStep(env, dwell, w))
  {
    hide Env.Valid, Env.Enough, Env.Channels, Env.Outcome, OnCourse;
    if w.sweep.Collecting? && w.sweep.future < |w.tasks| {
      CollectStepCalls(env, dwell, states, w);
    } else {
      assert ChannelsOf(w.tasks[..0]) == [];
      assert w.tasks[..|w.tasks|] == w.tasks;
    }
  }

  lemma CollectStepCalls(env: Env, dwell: IqStream.Dwell, states: seq<ChannelState>, w: World)
    requires env.Valid() && |states| == |env.procs| && Tracks(env, dwell, states, w) && Called(env, dwell, states, w)
    requires w.sweep.Collecting? && w.sweep.future < |w.tasks|
    ensures Called(env, dwell, states, SweepStep(env, dwell, w))
  {
    hide Env.Valid, Env.Outcome, Fits, TaskOnCourse, Eligible, Results;
    assert Sane(env, dwell, w);
    hide Tracks;
    var i, j := w.sweep.future, w.sweep.next;
    var t, chs := w.tasks[i], ChannelsOf(w.tasks[..i]);
    assert env.Enough(dwell, t.ch);
    if t.phase.Done? {
      if j < |t.out| {
        assert t.out[..j + 1] == t.out[..j] + [t.out[j]];
      } else {
        assert t.out[..j] == t.out;
        assert ChannelsOf(w.tasks[..i + 1]) == chs + [t.ch];
        TakenIsOutcome(env, dwell, states, w, i);
        ResultsSnoc(env, states, dwell, chs, t.ch);
      }
    }
  }

  lemma TakenIsOutcome(env: Env, dwell: IqStream.Dwell, states: seq<ChannelState>, w: World, i: nat)
    requires env.Valid() && |states| == |env.procs| && Tracks(env, dwell, states, w)
    requires i < |w.tasks| && w.tasks[i].phase.Done?
    ensures w.tasks[i].out == env.Outcome(states[w.tasks[i].ch], dwell, w.tasks[i].ch)
  {
    hide Env.Outcome, OnCourse;
    FutureIsOutcome(env, dwell, states[w.tasks[i].ch], w.sh, w.tasks[i]);
  }

  lemma FutureIsOutcome(env: Env, dwell: IqStream.Dwell, cs: ChannelState, sh: Shared, t: Task)
    requires Fits(env, sh) && env.Enough(dwell, t.ch) && TaskOnCourse(env, dwell, cs, sh, t) && t.phase.Done?
    ensures t.out == env.Outcome(cs, dwell, t.ch)
    ensures StateAt(sh, t.ch) == AfterJob(env.alpha, cs, env.JobOf(dwell, t.ch))
  {
    hide Env.Outcome, AfterJob;
  }

  /** In every interleaving. */
  lemma {:induction false} PlayStaysOnCourse(env: Env, dwell: IqStream.Dwell, sh: Shared, turns: seq<Turn>)
    requires Fits(env, sh) && Separate(env)
    ensures
      var w := Play(env, dwell, sh, turns);
      Tracks(env, dwell, StatesOf(sh), w) && Called(env, dwell, StatesOf(sh), w)
  {
    hide Tracks, Called, Env.Valid;
    if turns == [] {
      PlayBegins(env, dwell, sh);
    } else {
      var m := |turns| - 1;
      PlayStaysOnCourse(env, dwell, sh, turns[..m]);
      var w := Play(env, dwell, sh, turns[..m]);
      hide SweepStep, TaskStep, Fits, Sane, Separate;
      match turns[m] {
        case Sweep =>
          SweepStepTracks(env, dwell, StatesOf(sh), w);
          SweepStepCalls(env, dwell, StatesOf(sh), w);
        case Work(i, pick) =>
          if i < |w.tasks| {
            TaskStepTracks(env, dwell, StatesOf(sh), w, i, pick);
            TaskStepCalls(env, dwell, StatesOf(sh), w, i, pick);
          }
      }
    }
  }

  lemma PlayBegins(env: Env, dwell: IqStream.Dwell, sh: Shared)
    requires Fits(env, sh)
    ensures
      var w := Play(env, dwell, sh, []);
      Tracks(env, dwell, StatesOf(sh), w) && Called(env, dwell, StatesOf(sh), w)
  {
  }

  // ---------- What follows ----------

  lemma {:induction false} EligibleHas(env: Env, dwell: IqStream.Dwell, n: nat, ch: nat)
    requires ch < n <= env.Channels(dwell) && env.Enough(dwell, ch)
    ensures ch in Eligible(env, dwell, n)
  {
    if ch < n - 1 {
      EligibleHas(env, dwell, n - 1, ch);
    } else {
      assert Eligible(env, dwell, n)[|Eligible(env, dwell, n)| - 1] == ch;
    }
  }

  /** Results of more channels only add callbacks behind. */
  lemma {:induction false} ResultsGrow(env: Env, states: seq<ChannelState>, dwell: IqStream.Dwell, chs: seq<nat>, n: nat)
    requires env.Valid() && |states| == |env.procs| && n <= |chs|
    requires forall i :: 0 <= i < |chs| ==> env.Enough(dwell, chs[i])
    ensures Results(env, states, dwell, chs[..n]) <= Results(env, states, dwell, chs)
    decreases |chs|
  {
    hide Env.Outcome, Env.Valid;
    if n == |chs| {
      assert chs[..n] == chs;
    } else {
      var m := |chs| - 1;
      assert chs[..m][..n] == chs[..n];
      ResultsGrow(env, states, dwell, chs[..m], n);
    }
  }

  /** Whatever has been called back so far begins what the channels have to say in launch order. */
  lemma CalledIsPrefix(env: Env, dwell: IqStream.Dwell, states: seq<ChannelState>, w: World)
    requires env.Valid() && |states| == |env.procs| && Tracks(env, dwell, states, w) && Called(env, dwell, states, w)
    requires !w.sweep.Launching?
    ensures w.calls <= Results(env, states, dwell, ChannelsOf(w.tasks))
  {
    hide Env.Valid, Env.Outcome, Fits, TaskOnCourse, Eligible, Results;
    assert Sane(env, dwell, w);
    hide Tracks;
    if w.sweep.Collecting? {
      var i, j, chs := w.sweep.future, w.sweep.next, ChannelsOf(w.tasks);
      assert ChannelsOf(w.tasks[..i]) == chs[..i];
      ResultsGrow(env, states, dwell, chs, i);
      if i < |w.tasks| && j > 0 {
        var t := w.tasks[i];
        assert chs[..i + 1] == chs[..i] + [t.ch];
        TakenIsOutcome(env, dwell, states, w, i);
        ResultsSnoc(env, states, dwell, chs[..i], t.ch);
        ResultsGrow(env, states, dwell, chs, i + 1);
      }
    }
  }

  /**
   * For every interleaving: what has been called back is at every moment a beginning of what processing
   * the channels one after the other calls back; and when the sweep thread is through, the callbacks,
   * the noise floors and the persistence entries are those of that sequential run.
   */
  lemma ScheduleDoesNotMatter(env: Env, dwell: IqStream.Dwell, sh: Shared, turns: seq<Turn>)
    requires Fits(env, sh) && Separate(env)
    ensures
      var w, n := Play(env, dwell, sh, turns), env.Channels(dwell);
      && w.calls <= env.CallsAfter(StatesOf(sh), dwell, n)
      && (w.sweep.Finished? ==>
        && w.calls == env.CallsAfter(StatesOf(sh), dwell, n)
        && StatesOf(w.sh) == env.StatesAfter(StatesOf(sh), dwell, n))
  {
    var w, n, states := Play(env, dwell, sh, turns), env.Channels(dwell), StatesOf(sh);
    PlayStaysOnCourse(env, dwell, sh, turns);
    CallsAfterExact(env, states, dwell, n);
    hide Play, Env.Valid, OnCourse, Results, Env.CallsAfter, Env.StatesAfter;
    if !w.sweep.Launching? {
      CalledIsPrefix(env, dwell, states, w);
    }
    if w.sweep.Finished? {
      forall ch | 0 <= ch < |states|
        ensures StateAt(w.sh, ch) == env.StatesAfter(states, dwell, n)[ch]
      {
        FinalState(env, dwell, states, w, ch);
      }
      assert StatesOf(w.sh) == env.StatesAfter(states, dwell, n);
    }
  }

  lemma FinalState(env: Env, dwell: IqStream.Dwell, states: seq<ChannelState>, w: World, ch: nat)
    requires env.Valid() && |states| == |env.procs| && ch < |states|
    requires Tracks(env, dwell, states, w) && Called(env, dwell, states, w) && w.sweep.Finished?
    ensures StateAt(w.sh, ch) == env.StatesAfter(states, dwell, env.Channels(dwell))[ch]
  {
    hide Env.Valid, OnCourse, Results, AfterJob, Env.JobOf, Env.StatesAfter;
    StatesAfterExact(env, states, dwell, env.Channels(dwell), ch);
    if env.Enough(dwell, ch) {
      EligibleHas(env, dwell, env.Channels(dwell), ch);
      var i :| 0 <= i < |w.tasks| && ChannelsOf(w.tasks)[i] == ch;
      FutureIsOutcome(env, dwell, states[ch], w.sh, w.tasks[i]);
    }
    hide Eligible;
  }

  /** What is left of a task: first the phases, then the work inside one. */
  function Remaining(t: Task): (nat, nat) {
    match t.phase
    case Begun => (7, 0)
    case Loaded => (6, 0)
    case Cleared => (5, 0)
    case Searched => (4, 0)
    case Tracked => (3, 0)
    case Signals(j) => (2, if j <= |t.sigs| then |t.sigs| - j else 0)
    case Decaying(todo) => (1, |todo|)
    case Done => (0, 0)
  }

  predicate Less(a: (nat, nat), b: (nat, nat)) {
    a.0 < b.0 || (a.0 == b.0 && a.1 < b.1)
  }

  /** No task gets stuck: whatever else is going on, it has a step that leaves it less to do. */
  lemma TaskProgresses(env: Env, dwell: IqStream.Dwell, sh: Shared, turns: seq<Turn>, i: nat) returns (pick: nat)
    requires Fits(env, sh) && Separate(env)
    requires i < |Play(env, dwell, sh, turns).tasks| && !Play(env, dwell, sh, turns).tasks[i].phase.Done?
    ensures
      var w := Play(env, dwell, sh, turns);
      Less(Remaining(TaskStep(env, dwell, w, i, pick).tasks[i]), Remaining(w.tasks[i]))
  {
    var w := Play(env, dwell, sh, turns);
    PlayStaysOnCourse(env, dwell, sh, turns);
    pick := 0;
    if w.tasks[i].phase.Decaying? && w.tasks[i].phase.todo != {} {
      pick :| pick in w.tasks[i].phase.todo;
    }
    StepProgresses(env, dwell, StatesOf(sh)[w.tasks[i].ch], w.sh, w.tasks[i], pick);
    hide OnCourse, StepTask, StepShared, Play;
  }

  lemma StepProgresses(env: Env, dwell: IqStream.Dwell, cs: ChannelState, sh: Shared, t: Task, pick: nat)
    requires Fits(env, sh) && env.Enough(dwell, t.ch) && TaskOnCourse(env, dwell, cs, sh, t) && !t.phase.Done?
    requires t.phase.Decaying? && t.phase.todo != {} ==> pick in t.phase.todo
    ensures Less(Remaining(StepTask(env, dwell, sh, t, pick)), Remaining(t))
  {
    hide FloorAt, TouchAll, Decayed, Env.Outcome, Env.SignalsOf, Found;
  }

  /** And the sweep thread waits only for a task that is not done: it moves on as soon as that one is. */
  lemma SweepWaitsForTask(env: Env, dwell: IqStream.Dwell, w: World)
    requires Sane(env, dwell, w) && !w.sweep.Finished?
    ensures SweepStep(env, dwell, w) == w <==>
      w.sweep.Collecting? && w.sweep.future < |w.tasks| && !w.tasks[w.sweep.future].phase.Done?
  {
    hide Fits, Env.Enough, Env.Channels;
  }

  // ---------- Why each channel needs a processor of its own ----------

  lemma PlaySnoc(env: Env, dwell: IqStream.Dwell, sh: Shared, turns: seq<Turn>, turn: Turn)
    requires Fits(env, sh)
    ensures Play(env, dwell, sh, turns + [turn]) == TakeTurn(env, dwell, Play(env, dwell, sh, turns), turn)
  {
    assert (turns + [turn])[..|turns|] == turns;
  }

  /** Both channels' tasks launched, neither begun. */
  lemma BothLaunch(env: Env, dwell: IqStream.Dwell, sh: Shared)
    requires Fits(env, sh) && |env.procs| >= 2 && env.Enough(dwell, 0) && env.Enough(dwell, 1)
    ensures Play(env, dwell, sh, [Sweep, Sweep]) == World(sh, [Task(0, Begun, [], []), Task(1, Begun, [], [])], Launching(2), [])
  {
    hide Fits;
    assert [] + [Sweep] == [Sweep] && [Sweep] + [Sweep] == [Sweep, Sweep];
    PlaySnoc(env, dwell, sh, [], Sweep);
    PlaySnoc(env, dwell, sh, [Sweep], Sweep);
    assert Play(env, dwell, sh, []) == World(sh, [], Launching(0), []);
    hide Play;
    assert Play(env, dwell, sh, [Sweep]).tasks == [Task(0, Begun, [], [])];
  }

  /** One step of the first task, when it is about to use its processor's buffer. */
  lemma FirstSteps(env: Env, dwell: IqStream.Dwell, sh: Shared, turns: seq<Turn>)
    requires Fits(env, sh) && |env.procs| > 0
    requires var w := Play(env, dwell, sh, turns); w.tasks != [] && w.tasks[0].ch == 0
    ensures
      var w, r := Play(env, dwell, sh, turns), Play(env, dwell, sh, turns + [Work(0, 0)]);
      var key, buffer := KeyOf(dwell), env.procs[0];
      && r.tasks != [] && r.tasks[0].ch == 0
      && (w.tasks[0].phase.Loaded? ==>
        r.tasks[0].phase.Cleared? && r.sh == w.sh.(power := w.sh.power[buffer := env.search.Blanked(w.sh.power[buffer])]))
      && (w.tasks[0].phase.Cleared? ==> r.tasks[0].phase.Searched? && r.sh == w.sh)
      && (w.tasks[0].phase.Searched? ==>
        key in r.sh.floors[0] && r.sh.floors[0][key] == FloorAt(env.alpha, w.sh.floors[0], key, w.sh.power[buffer]))
  {
    hide Search.Blanked, Found, FloorAt, Play;
    PlaySnoc(env, dwell, sh, turns, Work(0, 0));
  }

  /** Both spectra computed, the later one into the earlier one's buffer when the channels share it. */
  lemma BothLoad(env: Env, dwell: IqStream.Dwell, sh: Shared)
    requires Fits(env, sh) && |env.procs| >= 2 && env.Enough(dwell, 0) && env.Enough(dwell, 1)
    ensures
      var w := Play(env, dwell, sh, [Sweep, Sweep, Work(0, 0), Work(1, 0)]);
      && |w.tasks| == 2 && w.tasks[0] == Task(0, Loaded, [], []) && w.sh.floors == sh.floors
      && w.sh.power[env.procs[1]] == env.spectrum(dwell.channels[1])
  {
    BothLaunch(env, dwell, sh);
    assert [Sweep, Sweep] + [Work(0, 0)] == [Sweep, Sweep, Work(0, 0)];
    assert [Sweep, Sweep, Work(0, 0)] + [Work(1, 0)] == [Sweep, Sweep, Work(0, 0), Work(1, 0)];
    PlaySnoc(env, dwell, sh, [Sweep, Sweep], Work(0, 0));
    PlaySnoc(env, dwell, sh, [Sweep, Sweep, Work(0, 0)], Work(1, 0));
    hide Play, Env.Enough;
  }

  /**
   * If channels 0 and 1 had one processor, a schedule would seed channel 0's noise floor with channel 1's
   * spectrum: both compute their spectra before channel 0 goes on.
   */
  lemma SharedProcessorRaces(env: Env, dwell: IqStream.Dwell, sh: Shared) returns (turns: seq<Turn>)
    requires Fits(env, sh) && |env.procs| >= 2 && env.procs[0] == env.procs[1]
    requires env.Enough(dwell, 0) && env.Enough(dwell, 1) && KeyOf(dwell) !in sh.floors[0]
    ensures
      var w := Play(env, dwell, sh, turns);
      KeyOf(dwell) in w.sh.floors[0] && w.sh.floors[0][KeyOf(dwell)] == env.BlankedSpectrum(dwell, 1)
  {
    turns := [Sweep, Sweep, Work(0, 0), Work(1, 0)];
    BothLoad(env, dwell, sh);
    hide Play, Search.Blanked, Fits;
    FirstSteps(env, dwell, sh, turns);
    turns := turns + [Work(0, 0)];
    FirstSteps(env, dwell, sh, turns);
    turns := turns + [Work(0, 0)];
    FirstSteps(env, dwell, sh, turns);
    turns := turns + [Work(0, 0)];
  }
}
