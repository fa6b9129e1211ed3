# Verification of the acquisition pipeline

This project models the scanning pipeline of AcquisitionApp end to end and proves properties of the
model: asking the controller for a sweep, reassembling dwells from a lossy packet stream, detecting
signals in a spectrum, confirming them over time, and writing them to the database.

| file | part of the program |
|---|---|
| `BandSplit.dfy` | distribution of devices over bands (`SweepConfig::splitBands`, and its copy in `main`) |
| `ScanPlan.dfy` | the entry list of a SCAN task and the resume position |
| `IqStream.dfy`, `IqStreamTheorems.dfy`, `IqPurity.dfy`, `ReceiverRuns.dfy` | `TaskManagerIqSource::next()`, and the receiver as a run of the sweep protocol |
| `TaskChannel.dfy` | the request/response channel shared with the broker's thread |
| `SourceLifecycle.dfy`, `StopHandshake.dfy` | the sweep loop: socket and task over failing opens; the two running flags |
| `RankStatistic.dfy`, `CfarSpec.dfy`, `CfarMeaning.dfy`, `FftProcessor.dfy`, `CfarTheorems.dfy` | the CA-CFAR detector: what it should find, what that means in plain arithmetic, how it finds it, what follows |
| `Persistence.dfy`, `NoiseFloor.dfy`, `ChannelDwell.dfy` | what `processDwell` means: the filter, the tracker, one dwell for one channel and for all channels in order |
| `SpectrumScanner.dfy`, `ChannelTasks.dfy`, `ChannelHistory.dfy` | `processDwell` and the dispatch of a dwell as written, the concurrent run of its channels, a channel over all its dwells |
| `Pipeline.dfy` | from the packet stream to the callbacks |
| `SignalTable.dfy`, `DetectionWriter.dfy` | the merge-or-insert rule and the asynchronous batch writer |
| `Prelude.dfy` | shared arithmetic and sequence vocabulary |

Code that updates state in loops is written as methods and classes that update state in loops; each is
proved equal to a function of its inputs or of its old state, and the theorems are about those
functions. Whatever is concurrent is a machine whose steps are single critical sections, flag accesses,
accesses to shared vectors and buffers, or blocking calls; its theorems hold for every interleaving.

## Conventions

- Frequencies, powers and rates are exact reals. The average of no bins (a NaN in the program) is `None`.
- A spectrum is an arbitrary array of powers above the accumulator's starting value of -1e30 dB; the
  program's spectra never fall below -300 dB.
- Preconditions on configuration are those the loader enforces (`start < stop`, usable fraction and
  floor coefficient in (0, 1], FFT size a power of two of at least 64, dwell at least one FFT frame, at
  least one channel). The detector also needs a positive sample rate and `ScanPlan` a positive step, which
  the loader does not check.
- Receive outcomes, replies, flushes and scheduling decisions are arbitrary event sequences.

## Where the code and its documentation differ

The model follows the code.

- The comment at src/TaskManagerIqSource.cpp:316-319 says every frequency is covered exactly once per
  task. Resume is set to a centre plus one step but read as the start of a slice, so after the first
  packet the next task may observe half a step twice. `ScanPlan.ExactlyOnceIff` says exactly when the
  comment holds, `ScanPlan.SweptTwice` gives an input for which it does not, and
  `ScanPlan.RunsStayOnGrid` what holds always.
- The persistence filter is documented as "at least two consecutive sweeps". It keeps its count across
  up to four missed dwells, and two signals in one 10 kHz step of one dwell count as two.
  `Persistence.EmissionRule` states the implemented rule for every history, `Persistence.DocumentedRuleIff` exactly
  when it decides as documented.
- The noise floor is documented to rise faster than it falls. The cap on the rising rate makes both equal
  at a coefficient of 0.4 and reverses this above (`NoiseFloor.RisesFasterIff`).
- A dwell is documented to hold data from a single frequency position (include/IqSource.hpp:33). When the flagged
  first packet of a retune is lost it holds samples of both positions (`IqPurity.LostAnnouncementMixes`);
  `IqPurity.AlwaysPureIff` says exactly when it holds one.
- The sub-bin centre is documented as an interpolated peak position. When a run-edge peak has a louder
  neighbour outside its run it can lie far outside the run (`CfarTheorems.CenterWithinHalfBin`,
  `CfarTheorems.EdgePeakCenterLeavesSpectrum`).

## Model

| member | source | states |
|---|---|---|
| BandSplit.SplitBands | src/SweepConfig.cpp:247-272 | the two nested counting loops build exactly the slices of the specification, or return the bands unchanged when there are no more devices than bands |
| BandSplit.EffectiveBands | src/main.cpp:196-230 | the start-up copy of the loops builds the same list, except that it never splits when every band insists on its device |
| BandSplit.NothingToSplit | src/SweepConfig.cpp:249-251 | with no more devices than bands every band comes back as it was |
| BandSplit.SplitAt | src/SweepConfig.cpp:253-271 | which slice stands at which position: each band in turn gets n / bands slices, the first n mod bands of them one more |
| BandSplit.OneSlicePerDevice | src/SweepConfig.cpp:253-259 | n devices get exactly n slices, and the slice counts of two bands differ by at most one |
| BandSplit.SlicesTile | src/SweepConfig.cpp:260-268 | within a band the slices are equally wide, follow each other without gap from start to stop, and inherit device id and required flag |
| BandSplit.OneSlicePerFrequency | src/SweepConfig.cpp:260-268 | every frequency of a band lies in exactly one of its slices |
| BandSplit.DisjointBandsDisjointSlices | src/SweepConfig.cpp:258-271 | pairwise disjoint bands give pairwise disjoint slices, so no two devices observe the same frequency |
| BandSplit.WidthConserved | src/SweepConfig.cpp:258-271 | the total width of the slices of the first i bands is that of those bands |
| ScanPlan.BuildEntries | src/TaskManagerIqSource.cpp:306-333 | the two accumulating loops produce, in order and numbered from 0, the centres of the plan with the configured bandwidth, rate and dwell time |
| ScanPlan.DwellMsMeans | src/TaskManagerIqSource.cpp:314 | the dwell time is the whole milliseconds that fit into the samples of a dwell, at least one |
| ScanPlan.AppendEntries | src/TaskManagerIqSource.cpp:320-333 | one loop appends exactly the entries whose centre does not pass the limit and leaves earlier ones alone |
| ScanPlan.CountExact | src/TaskManagerIqSource.cpp:330-333 | the number of entries a loop makes: the i-th is there iff its centre is at most the limit |
| ScanPlan.PlanMultiplicity | src/TaskManagerIqSource.cpp:330-333 | how often a task observes any given frequency: once for each of its two contiguous stretches that contains it |
| ScanPlan.PlanIsGood | src/TaskManagerIqSource.cpp:313-333 | resuming at any half-step grid point below stop gives a non-empty list of distinct in-band centres that covers everything up to half a step below stop and nothing more than twice |
| ScanPlan.ResumeStaysGood | src/TaskManagerIqSource.cpp:569-581 | a packet at a grid centre leaves resume on the half-step grid and below stop |
| ScanPlan.RunsStayOnGrid | src/TaskManagerIqSource.cpp:569-581 | over any run of submissions and packets, late packets of earlier tasks included, resume stays a whole number of half steps above start and below stop and every submitted task is good |
| ScanPlan.NoRoomNoEntries | src/TaskManagerIqSource.cpp:330-333 | the first task is empty iff start plus half a step exceeds stop |
| ScanPlan.FullSweepReturns | src/TaskManagerIqSource.cpp:569-581 | in any run, receiving one packet for every entry of a sweep begun at start leaves resume at start |
| ScanPlan.SweepReceived | src/TaskManagerIqSource.cpp:569-581 | whatever came before, receiving every entry of a task sets resume to where its last centre puts it and changes nothing else |
| ScanPlan.WrappedSweepMovesOn | src/TaskManagerIqSource.cpp:569-581 | in any run, receiving one packet for every entry of a sweep begun elsewhere ends in its wrapped part and moves resume on by one or two half steps, or back to start |
| ScanPlan.ExactlyOnceIff | src/TaskManagerIqSource.cpp:316-333 | a task observes every frequency of the band exactly once iff, resuming a whole number of steps above start, the steps left to stop are whole or have a fraction of at least a half; or, resuming half a step off, less than half a step is left |
| ScanPlan.SweptTwice | src/TaskManagerIqSource.cpp:316-333 | a concrete band where one preemption makes the next task observe a frequency twice |
| IqStream.IqSource.Next | src/TaskManagerIqSource.cpp:522-641 | the receive loop consumes, changes and returns exactly what the specification of one call says |
| IqStream.IqSource.Accept | src/TaskManagerIqSource.cpp:566-638 | what one datagram does: the resume position for any frame with our magic number, the buffers only for a sound one |
| IqStreamTheorems.FrameTaken | src/TaskManagerIqSource.cpp:585-638 | for every centre, length, channel and flag of a sound frame: which dwell it completes, under which centre, and what each channel's buffer holds afterwards |
| IqStreamTheorems.FrameDropped | src/TaskManagerIqSource.cpp:585-604 | a short, foreign, malformed or truncated datagram leaves the buffers alone and completes nothing |
| IqStreamTheorems.CallEndsWith | src/TaskManagerIqSource.cpp:539-563 | a call runs to its first error or stop request, and its last event says how it ended |
| IqStream.IqSource.Absorb | src/TaskManagerIqSource.cpp:609-638 | buffering one accepted packet, with hand-over on retune or on a full channel 0 |
| IqStream.IqSource.BeginTask | src/TaskManagerIqSource.cpp:507-509 | a new task starts with empty buffers, the long allowance, and the old resume position |
| IqStream.IqSource.ResetAccum | src/TaskManagerIqSource.cpp:265-271 | one empty buffer per channel and no centre |
| IqStreamTheorems.PacketsConserved | src/TaskManagerIqSource.cpp:606-638 | every accepted packet ends up once and in order in a delivered dwell or in the buffers, and the buffers hold exactly the samples of the packets held |
| IqStreamTheorems.SamplesConserved | src/TaskManagerIqSource.cpp:606-638 | per channel, delivered dwells followed by the buffer are the samples of the packet stream |
| IqStreamTheorems.StreamConserved | src/TaskManagerIqSource.cpp:522-641 | the same for any event stream after an open() and any number of next() calls, however the stream is cut into calls |
| IqStreamTheorems.CallsReplay | src/TaskManagerIqSource.cpp:522-641 | buffers and dwells after n calls are those of replaying the accepted packets consumed |
| IqStreamTheorems.DwellsHaveData | src/TaskManagerIqSource.cpp:611-638 | no stream whatever makes any of n next() calls deliver an empty dwell |
| IqPurity.FeedPurity | src/TaskManagerIqSource.cpp:609-638 | while every dwell is pure, one more packet keeps it so iff it is flagged as a retune or agrees in centre with all buffered samples |
| IqPurity.AlwaysPureIff | src/TaskManagerIqSource.cpp:609-638 | with non-zero centres, every dwell delivered or under way holds one frequency position at every moment iff no unflagged packet arrives while samples of another centre are buffered |
| IqPurity.PureNowIff | src/TaskManagerIqSource.cpp:609-638 | when every packet has a buffer a mixture never heals, so the dwells and buffers of a single moment are pure iff none has occurred |
| IqPurity.StreamPureIff | src/TaskManagerIqSource.cpp:522-641 | the same condition for the dwells delivered by any number of next() calls on any event stream |
| IqPurity.AnnouncedMixesNothing | src/TaskManagerIqSource.cpp:609-614 | a stream whose every change of centre is flagged on its first packet mixes nothing |
| IqPurity.StreamPure | src/TaskManagerIqSource.cpp:522-641 | on such a stream every dwell delivered by any call is non-empty and contains only samples from the centre it is labelled with |
| IqPurity.LostAnnouncementMixes | src/TaskManagerIqSource.cpp:628-638 | for every receiver, centres and dwell length: when the flagged packet of a retune is lost, next() delivers the samples of both centres as one dwell under the later label |
| IqStreamTheorems.ChannelZeroBounded | src/TaskManagerIqSource.cpp:616-638 | over any stream and any number of next() calls channel 0 never holds more than a dwell less one sample or one packet, and no dwell delivers more than one packet beyond that |
| IqStreamTheorems.SilenceIff | src/TaskManagerIqSource.cpp:535-563 | next() gives up for silence exactly at the 300th time-out in a row before the task's first datagram, or at the 50th after it |
| IqStreamTheorems.ExhaustedIsSilent | src/TaskManagerIqSource.cpp:535-563 | a call still blocked that times out once more ends in silence there iff its run of time-outs then fills the allowance, whatever follows |
| IqStreamTheorems.BlockedWithinBudget | src/TaskManagerIqSource.cpp:554-563 | a call that is still blocked has not used up its allowance |
| IqStreamTheorems.InterruptsIgnored | src/TaskManagerIqSource.cpp:541-553 | interrupted receives change neither how a call ends nor the state it leaves |
| IqStreamTheorems.LongAllowanceOnce | src/TaskManagerIqSource.cpp:535-568 | across all calls for a task the long allowance lasts until the first datagram of any kind and does not come back |
| ReceiverRuns.ResubmissionIsGood | src/TaskManagerIqSource.cpp:569-581 | after any calls on a stream with grid centres the next task built from resume is good |
| ReceiverRuns.ResumeAfterCalls | src/TaskManagerIqSource.cpp:572-581 | after any number of calls resume is where it was if no frame with the magic number came, else the centre of the last such frame plus a step, or start if that is at stop or beyond |
| ReceiverRuns.ReceiverPlays | src/TaskManagerIqSource.cpp:522-641 | over any sequence of tasks, whatever their sockets bring, the receiver's resume position is that of the protocol's run of submissions and packets |
| ReceiverRuns.ReceiverSubmitsGoodTasks | src/TaskManagerIqSource.cpp:313-333 | if frames carry centres requested before them every task the receiver submits is good |
| ReceiverRuns.ReceiverSweepReturns | src/TaskManagerIqSource.cpp:569-581 | a task begun at start whose entries all come in leaves the receiver at start |
| ReceiverRuns.ReceiverSweepMovesOn | src/TaskManagerIqSource.cpp:569-581 | one begun elsewhere leaves it one or two half steps further on, or at start |
| TaskChannel.Channel.OnMessage | src/TaskManagerIqSource.cpp:191-205 | the slot is filled and closed iff the message parses, a request is pending and one of the message's two ids is the pending one; otherwise nothing changes |
| TaskChannel.Channel.BeginExchange | src/TaskManagerIqSource.cpp:109-120 | registers the id and empties the slot, or returns at once when the channel is not ready |
| TaskChannel.Channel.EndExchange | src/TaskManagerIqSource.cpp:129-133 | returns whatever the slot holds, woken or timed out |
| TaskChannel.ReturnIsFirstAnswer | src/TaskManagerIqSource.cpp:109-133 | in every interleaving an exchange returns the body of the first message answering its id since this very call registered it, or nothing if there was none |
| TaskChannel.ReceivedIsOwnReply | src/TaskManagerIqSource.cpp:191-205 | a received result is the first message between registration and return one of whose two ids is the caller's, so a late reply to another id is never returned |
| TaskChannel.NothingReceivedIff | src/TaskManagerIqSource.cpp:129-133 | nothing is received iff no message since the registration carried the caller's id |
| TaskChannel.ForeignReplyIgnored | src/TaskManagerIqSource.cpp:197-199 | a message both of whose ids differ from the pending one changes nothing |
| TaskChannel.OwnReplyTaken | src/TaskManagerIqSource.cpp:197-202 | one that carries it fills the slot and closes it |
| TaskChannel.OneReplyPerRegistration | src/TaskManagerIqSource.cpp:197-203 | between two replies taken there is always a new registration |
| SourceLifecycle.Source.BindUdp | src/TaskManagerIqSource.cpp:273-304 | on success the socket is held, on failure nothing stays open |
| SourceLifecycle.Source.SubmitTask | src/TaskManagerIqSource.cpp:374-403 | the task id is kept as soon as it is received, even when the port is missing and the call throws |
| SourceLifecycle.Source.Open | src/TaskManagerIqSource.cpp:475-510 | exactly which effects happen, which socket and which task id are held, for every way open() can go and every port the controller names |
| SourceLifecycle.Source.Close | src/TaskManagerIqSource.cpp:512-520 | from any state issues the stop and closes the socket that are held, and holds nothing afterwards |
| SourceLifecycle.Source.SendTaskStop | src/TaskManagerIqSource.cpp:405-422 | one stop for a held id, none without |
| SourceLifecycle.Source.SweepLoop | src/SpectrumScanner.cpp:54-109 | every pass ends with nothing held, and the log is that of the passes one after the other |
| SourceLifecycle.OpenAudits | src/TaskManagerIqSource.cpp:475-510 | however open() fails, what it acquired and released adds up to what it still holds |
| SourceLifecycle.SweepIsBalanced | src/SpectrumScanner.cpp:54-109 | for every sequence of passes and failures a second socket or task is never acquired while one is held, nothing is released that is not held, and nothing is held at the end |
| SourceLifecycle.RunIsBalanced | src/SpectrumScanner.cpp:58-73 | such a log has at most one socket open at every moment, closes each as often as it was opened, and stops each task as often as it was received |
| SourceLifecycle.SweepTotals | src/SpectrumScanner.cpp:54-109 | a run's log holds one socket for each the system gave, first or overridden port, and as many receptions and stops of a task id as passes accepted under it |
| StopHandshake.StoppedNeverReceives | src/SpectrumScanner.cpp:48-82 | in every interleaving, once both writes of stop() are done the sweep thread is not inside next() with the source still running |
| StopHandshake.StopsWithinFiveSteps | src/SpectrumScanner.cpp:48-121 | after that the sweep thread leaves its loop within five further steps of its own |
| StopHandshake.FlagDownOutsidePasses | src/TaskManagerIqSource.cpp:507-516 | in every interleaving the source's running flag is up only between an open() that succeeded and the close() after it |
| StopHandshake.DwellsAreProcessed | src/SpectrumScanner.cpp:54-84 | without a stop the thread comes to processing a dwell |
| StopHandshake.SwappedOrderFails | src/SpectrumScanner.cpp:48-52 | with the two writes the other way round an interleaving leaves the sweep thread inside next() with the source running |
| RankStatistic.NthElement | src/FftProcessor.cpp:132-133 | the in-place selection permutes the cells and partitions them around the given position |
| RankStatistic.EstimateNoise | src/FftProcessor.cpp:127-135 | the estimate is the rank-n/2 value of the window, and the spectrum is not touched |
| RankStatistic.RankValueIsRank | src/FftProcessor.cpp:132-134 | the specified value has at most k smaller elements and more than k that do not exceed it, and is an element |
| RankStatistic.RankUnique | src/FftProcessor.cpp:132-134 | that count determines the value |
| RankStatistic.OverwriteKeepsRank | src/FftProcessor.cpp:155-167 | overwriting any elements with the rank value leaves the rank value where it was |
| Detector.FftProcessor.DetectFromSpectrum | src/FftProcessor.cpp:138-246 | blanks the spectrum as specified and returns the specified report sorted: a permutation in descending peak order |
| Detector.FftProcessor.DetectInBins | src/FftProcessor.cpp:155-246 | the same for a search already expressed in bins |
| Detector.FftProcessor.BlankDc | src/FftProcessor.cpp:155-165 | exactly the guard bins inside the window become the noise estimate |
| Detector.FftProcessor.BuildPrefixSums | src/FftProcessor.cpp:169-175 | cell i of the prefix array is the sum of the first i window bins |
| Detector.RefMeanFast | src/FftProcessor.cpp:177-183 | the prefix-sum query is the plain average over the clamped reference window |
| Detector.FftProcessor.TestBin | src/FftProcessor.cpp:219-232 | the per-bin test is the specified threshold rule |
| Detector.FftProcessor.Flush | src/FftProcessor.cpp:197-217 | closing a run reports its signal iff it passes the width and PAPR gates |
| Detector.FftProcessor.Interpolate | src/FftProcessor.cpp:203-211 | the three-point refinement, inside the window only |
| Detector.FftProcessor.ScanRuns | src/FftProcessor.cpp:190-241 | one pass with running accumulators reports the signals of all maximal runs in order |
| Detector.SortByPeak | src/FftProcessor.cpp:243-245 | the sorting loop gives the sorted list |
| Detector.SortedByPeak | src/FftProcessor.cpp:243-245 | the sorted list is a permutation in descending peak order |
| CfarSpec.PeakAt | src/FftProcessor.cpp:234 | the peak of a run is its maximum at the first position that attains it |
| CfarMeaning.NoiseIsWeighedSum | src/FftProcessor.cpp:177-228 | for every spectrum the local noise is the weighted sum of the window's cells: each side's existing reference cells share half the weight, or all of it if the other side has none, and no other cell counts |
| CfarMeaning.NoiseStep | src/FftProcessor.cpp:219-228 | raising one cell raises the local noise by exactly that cell's weight |
| CfarMeaning.NoiseStepInside | src/FftProcessor.cpp:219-228 | away from the ends a cell weighs 1/(2 refs) iff its distance is above guard and at most guard + refs, and nothing otherwise |
| CfarMeaning.NoiseOfConstant | src/FftProcessor.cpp:219-228 | equal powers give that power as local noise |
| CfarMeaning.NoiseWithoutCells | src/FftProcessor.cpp:223-224 | with no reference cell on either side the fallback is taken |
| CfarMeaning.HotIff | src/FftProcessor.cpp:229-232 | a bin is hot iff it stands the threshold or more above its local noise and above the historical floor where there is one |
| CfarMeaning.HotFlagsMean | src/FftProcessor.cpp:155-232 | the bins a call tests are those of the blanked window, the fallback the median of the window as given |
| CfarMeaning.SearchMeans | src/FftProcessor.cpp:151-188 | the first window bin is the greatest number within half the unusable fraction, the width gate the least number of bins as wide as the minimum bandwidth; everything else is handed on |
| CfarMeaning.WindowMeans | src/FftProcessor.cpp:127-167 | the bins searched and their rank n/2 value |
| CfarMeaning.BlankedMeans | src/FftProcessor.cpp:155-165 | a bin is overwritten with the median iff there is a DC guard, the bin lies in the window and no further from the middle than the least number of bins as wide as the guard |
| CfarMeaning.PassesIff | src/FftProcessor.cpp:197-202 | a run passes iff it is wide enough and, unless a single bin, its peak stands the gate or more above the average of its bins |
| CfarMeaning.SignalMeans | src/FftProcessor.cpp:197-217 | a signal's ends, the first of its loudest bins, the average of its bins, and a centre refined only when that bin has neighbours and is no plateau |
| CfarMeaning.VertexIsExtremum | src/FftProcessor.cpp:204-210 | the refined position is the only extremum of the parabola through the three bins |
| CfarTheorems.ReportExact | src/FftProcessor.cpp:190-241 | a signal is reported iff it is that of a maximal run of hot bins that passes both gates |
| CfarTheorems.ReportOrdered | src/FftProcessor.cpp:219-241 | before sorting, signals lie left to right with a cold bin between any two |
| CfarTheorems.RunsAreMaximal | src/FftProcessor.cpp:219-241 | the runs enumerated are exactly the runs of hot bins that cannot be extended |
| CfarTheorems.GuardCellsExcluded | src/FftProcessor.cpp:219-227 | the noise a bin is measured against depends on its reference cells only, not on itself, its guard cells or anything further away |
| CfarTheorems.BlankingKeepsNoise | src/FftProcessor.cpp:155-167 | the noise estimate after blanking equals the value blanked with |
| CfarTheorems.DetectTwice | src/FftProcessor.cpp:138-246 | a second call with the same arguments changes no bin and reports the same signals |
| CfarTheorems.GainInvariance | src/FftProcessor.cpp:155-245 | adding c dB to every bin reports the same runs and centres in the same order with every peak and mean shifted by c |
| CfarTheorems.ThresholdNests | src/FftProcessor.cpp:219-240 | every raw run under a higher threshold lies inside a raw run under the lower one |
| CfarTheorems.HistoryNests | src/FftProcessor.cpp:229-232 | every raw run found with a historical floor lies inside one found without |
| CfarTheorems.GatesNest | src/FftProcessor.cpp:187-202 | a wider bin gate or a stricter PAPR gate gives a subsequence of the unsorted report: signals left out, nothing else changed |
| CfarTheorems.TighterArguments | src/FftProcessor.cpp:146-188 | raising the minimum bandwidth in Hz or the PAPR gate changes nothing of the search but its gates, and only upward |
| CfarTheorems.VertexWithinHalfBin | src/FftProcessor.cpp:204-211 | the interpolated centre is within half a bin of the peak iff the neighbours are not on opposite sides of it |
| CfarTheorems.CenterWithinHalfBin | src/FftProcessor.cpp:203-211 | the reported centre of a peak strictly inside the window is within half a bin of it iff the curvature is too small to interpolate or the neighbours are not on opposite sides of the peak |
| CfarTheorems.InteriorPeakCenter | src/FftProcessor.cpp:203-211 | a peak inside its run has its centre within half a bin, inside the run and inside the window |
| CfarTheorems.EdgePeakCenterLeavesSpectrum | src/FftProcessor.cpp:203-211 | for a concrete 64-bin spectrum a signal on bins 30 to 31 is reported with its centre at bin -69.5 |
| CfarTheorems.BinToHzMonotone | src/FftProcessor.cpp:262-272 | bin to frequency is monotone with a constant slope of one bin width |
| CfarTheorems.BinToHzAnchored | src/FftProcessor.cpp:262-272 | the middle bin is the tuned frequency, and each bin further one bin width higher |
| CfarTheorems.ReportedFrequency | src/SpectrumScanner.cpp:196-202 | when no neighbour exceeds the peak the reported frequency lies, in Hertz around the tuned frequency, within half a bin of the run's edges and inside the usable band |
| Persistence.Decay | src/SpectrumScanner.cpp:236-246 | visiting entries in any order and erasing while iterating has the effect specified for the whole map |
| Persistence.EntriesMatchHistory | src/SpectrumScanner.cpp:187-246 | after any history the map holds exactly the keys seen in the last five dwells, with the dwells since, and with the signal count and peak since the last gap of five |
| Persistence.EmissionRule | src/SpectrumScanner.cpp:206-213 | a signal is passed on iff its PAPR is at least 15 dB or its key was met before in the span, earlier in the same dwell included |
| Persistence.MetBeforeIff | src/SpectrumScanner.cpp:204-246 | met before in the span means earlier in the same dwell or in one of the last five |
| Persistence.DocumentedRuleIff | include/SpectrumScanner.hpp:102-107 | the code decides as documented iff the signal is strong or was seen in the dwell just before, or its key appears neither earlier in the same dwell nor in the four dwells before that one |
| Persistence.MissesTolerated | include/SpectrumScanner.hpp:102-107 | a repeat after missed dwells is confirmed iff at most four were missed |
| Persistence.OneDwellCanConfirm | src/SpectrumScanner.cpp:204-213 | two weak signals in one 10 kHz step of one dwell: the second is passed on |
| Persistence.PeakIsLoudest | src/SpectrumScanner.cpp:206-209 | the recorded peak is at least that of every signal with the key in the span |
| NoiseFloor.UpdateFloor | src/SpectrumScanner.cpp:160-166 | the in-place loop applies the tracker to every bin |
| NoiseFloor.FloorWithinObserved | src/SpectrumScanner.cpp:156-167 | the floor of a bin never leaves the range of the powers observed there |
| NoiseFloor.GapIsGeometric | src/SpectrumScanner.cpp:160-166 | under constant power the gap never changes sign and after n updates is exactly (1-a)^n of the initial one, with a = min(4 alpha, 0.4) rising and alpha otherwise |
| NoiseFloor.RisesFasterIff | src/SpectrumScanner.cpp:160-161 | rising is strictly faster than falling iff the coefficient is below 0.4, strictly slower iff it is above, as at 0.5 |
| ChannelTasks.ScheduleDoesNotMatter | src/SpectrumScanner.cpp:92-106 | for every interleaving of launch loop, result loop and tasks on the shared vectors and processor buffers: the callbacks so far are a beginning of those of processing the channels in index order, and at the end callbacks, noise floors and persistence entries are exactly those of that sequential run |
| ChannelTasks.OwnStepStays | src/SpectrumScanner.cpp:123-249 | each step of a task, from computing the spectrum to the last decay visited in any order, brings its channel further towards what its share of the dwell means |
| ChannelTasks.OtherChannelsKept | src/SpectrumScanner.cpp:127-187 | if no two channels have the same processor, a step of one channel's task leaves the others' vectors and buffers alone |
| ChannelTasks.SharedProcessorRaces | src/SpectrumScanner.cpp:31-35 | if two channels had one processor, a schedule seeds the first one's noise floor with the second one's spectrum |
| ChannelTasks.SweepWaitsForTask | src/SpectrumScanner.cpp:97-106 | the sweep thread is held up exactly while the future it is taking is not ready |
| ChannelTasks.TaskProgresses | src/SpectrumScanner.cpp:98-105 | in every reachable state each unfinished task has a step that leaves it less to do |
| ChannelDwell.EmittedUpTo | src/SpectrumScanner.cpp:195-234 | exactly the signals the filter passes are emitted, in order |
| ChannelDwell.StatesAfterExact | src/SpectrumScanner.cpp:92-106 | processing the channels in turn takes each channel with enough samples where its own job takes it and leaves the others unchanged |
| ChannelDwell.CallsAfterExact | src/SpectrumScanner.cpp:104-106 | and calls back channel by channel what each has to say from its state before the dwell |
| ChannelHistory.ChannelRemembers | src/SpectrumScanner.cpp:187-246 | over any run of a channel the entries of a centre are what the history of the dwells at that centre says, whatever happened at other centres |
| ChannelHistory.ChannelEmits | src/SpectrumScanner.cpp:195-213 | over any run exactly the strong or already met signals of the next dwell are passed on |
| ChannelHistory.FloorFollowsVisits | src/SpectrumScanner.cpp:153-167 | the floor of a centre is the tracker run over the spectra of its own dwells |
| ChannelHistory.FloorNeverOvershoots | src/SpectrumScanner.cpp:153-167 | every floor bin of a channel stays between the least and greatest power observed at that centre and bin |
| ChannelHistory.ChannelsFollowTheirJobs | src/SpectrumScanner.cpp:80-106 | over any sequence of dwells dispatched, each channel is where its own dwells with enough samples take it, so what holds over a channel's run holds in the scanner |
| Pipeline.ScannerCallsBack | src/SpectrumScanner.cpp:80-106 | after any dwells the next one calls back channel by channel, and of each channel exactly the signals that are strong or were met before in the history of that channel and centre |
| Pipeline.StreamToCallbacks | src/SpectrumScanner.cpp:80-106 | over any stream and any number of next() calls each dwell holds exactly the samples of its own stretch of the accepted packets, and dispatched after the dwells before it calls back exactly the signals those confirm |
| Scanner.SpectrumScanner.ProcessDwell | src/SpectrumScanner.cpp:123-249 | detection, noise floor and persistence in sequence: new state and detections for the channel are those specified, every detection's frequency and levels are those of a signal found, other channels are untouched |
| ChannelDwell.DetectionMeans | src/SpectrumScanner.cpp:196-231 | a detection's frequency is the tuned one plus the centre's offset from the middle bin in bin widths; power, SNR and channel are the signal's |
| ChannelDwell.BandwidthMeans | src/SpectrumScanner.cpp:196-226 | its bandwidth is the distance of the run's outer bins to within one Hertz, at least one |
| ChannelDwell.SightingMeans | src/SpectrumScanner.cpp:200-204 | its persistence key is the multiple of 10 kHz at or below the rounded frequency |
| Scanner.SpectrumScanner.Dispatch | src/SpectrumScanner.cpp:84-107 | both branches process the channels that dwell and scanner share and that hold an FFT frame: new states and callbacks are those of the sequential run |
| Scanner.SpectrumScanner.EveryScheduleDispatches | src/SpectrumScanner.cpp:92-106 | every schedule of the tasks on this scanner's vectors and buffers ends in what Dispatch leaves and calls back |
| Scanner.SpectrumScanner.constructor | src/SpectrumScanner.cpp:28-38 | one processor per channel with buffers of its own, and no floors or entries |
| Scanner.SpectrumScanner.TrackAndFilter | src/SpectrumScanner.cpp:150-249 | the noise-floor step and the persistence step on the processed spectrum |
| Scanner.SpectrumScanner.UpdateFloor | src/SpectrumScanner.cpp:150-167 | the first visit to a centre seeds its floor with the blanked spectrum, later ones track it |
| Scanner.FilterSignals | src/SpectrumScanner.cpp:187-248 | the loop over signals and the decay loop leave the specified map and pass on the specified detections |
| ChannelDwell.RoundHz | src/SpectrumScanner.cpp:130-202 | within the range of the unsigned type the key is the nearest integer frequency |
| SignalTable.FindNearest | src/DetectionDb.cpp:153-165 | the row found matches frequency, bandwidth and recency and no matching row is nearer; none is found iff none matches |
| SignalTable.UpsertMeans | src/DetectionDb.cpp:153-204 | a detection goes into a nearest row among those recent, closer than 10 kHz and of a bandwidth not known to differ by half, or into a new row if there is none; which columns change, and that no other row does |
| SignalTable.UpsertAddsIff | src/DetectionDb.cpp:153-178 | a row is added iff every row of the last ten minutes closer than 10 kHz has a known bandwidth that differs from the detection's by half or more |
| SignalTable.UnlikeRowsKept | src/DetectionDb.cpp:143-208 | within a batch a detection leaves every row alone that is too old, too far or too different in bandwidth |
| SignalTable.Flush | src/DetectionDb.cpp:140-210 | a committed batch is its detections merged or inserted one after the other |
| SignalTable.FlushCounts | src/DetectionDb.cpp:167-208 | it raises the total of hits by exactly its size, removes or retunes no row, and lowers no power |
| SignalTable.RepeatMerges | src/DetectionDb.cpp:153-178 | a recent signal seen again is merged, never inserted a second time |
| SignalTable.StoredHasRow | src/DetectionDb.cpp:167-204 | afterwards there is a row within 10 kHz, at least as loud and seen at the detection's time |
| SignalTable.BatchHasRows | src/DetectionDb.cpp:140-210 | after a whole committed batch every detection of it has a row within 10 kHz that is at least as loud |
| DetectionWriter.Writer.TakeBatch | src/DetectionDb.cpp:93-105 | moves the oldest detections while the batch has room, and no others: the worker's step of the machine |
| DetectionWriter.Writer.Drain | src/DetectionDb.cpp:125-131 | moves everything, whatever the batch size: the machine's drain |
| DetectionWriter.Writer.ClearBatch | src/DetectionDb.cpp:108-121 | after a flush that went through or threw the batch is dropped: the machine's hand-over |
| DetectionWriter.Writer.Enqueue | src/DetectionDb.cpp:82-88 | a push appends to the queue and touches nothing else |
| DetectionWriter.QueueConserved | src/DetectionDb.cpp:82-138 | in every interleaving the batches handed over, then the batch in hand, then the queue, are the pushed sequence |
| DetectionWriter.BatchesSized | src/DetectionDb.cpp:94-122 | no batch is empty and none before the drain exceeds the batch size |
| DetectionWriter.BatchesFull | src/DetectionDb.cpp:102-107 | a batch is taken as full as it can be |
| DetectionWriter.FlushClears | src/DetectionDb.cpp:107-122 | after a flush the batch is gone whether or not it committed, and only a commit touched the table |
| DetectionWriter.AllHandedOver | src/DetectionDb.cpp:76-138 | after shutdown with no later pushes every detection has been handed to a flush exactly once, in order |
| DetectionWriter.StopsWithinFiveSteps | src/DetectionDb.cpp:76-80 | once the stop flag is set the worker finishes within five steps, so the destructor's join returns |
| DetectionWriter.HitsAccountFor | src/DetectionDb.cpp:108-137 | over any run the total of hits has risen by exactly the number of detections in committed batches |

## Left out

- The FFT, the window and the averaging of frames (`accumFrame`, `computeSpectrum`): the model starts from a given spectrum.
- Floating-point rounding, including that of the accumulated positions in the plan and of float sums in the prefix array.
- The range of the 32-bit integers that bin counts are truncated to.
- The packet header's layout: sdr/Types.hpp is not part of this model. A frame's payload is the complete samples after its header, and the link-level size limit of the receive buffer is not used.
- ScanPlan.RunsStayOnGrid: packets are assumed to carry the centre of some entry submitted so far; a stream at other centres would take resume off the grid.
- Detector.SortedByPeak: keeps equal peaks in bin order, an order std::sort leaves open; ChannelTasks.ScheduleDoesNotMatter holds for every sort function.
- Detector.FftProcessor.constructor: the rejection of FFT sizes that are not powers of two is a precondition, of which only evenness and the minimum are used.
- RankStatistic.NthElement: the library does not fix an algorithm; the model selects minima in turn.
- SourceLifecycle.Source.SendTaskStop: issuing a stop is counted when the message is handed to the channel, which drops it while disconnected.
- SourceLifecycle.Source.SubmitTask: a task whose acceptance arrives after the request timed out is never known to the client and is not stopped.
- TaskChannel.Channel.BeginExchange: the wait for readiness is one step that ends ready or not; sending the request itself has no effect in the model.
- ChannelTasks.ScheduleDoesNotMatter: computing a spectrum, blanking it, searching it and updating a floor are one step each; the processor's scratch and prefix-sum arrays, rewritten by every search, are covered by its one buffer. The decay loop's iteration order is arbitrary.
- Scanner.SpectrumScanner.ProcessDwell: wall-clock stamps, the scanner id, the IQ snapshot and GPS stamping of detections.
- DetectionWriter.Writer.TakeBatch: the wait with its time-out is any moment the scheduler picks; pushes after the drain stay in the queue.
- DetectionWriter.HitsAccountFor: holds if a flush commits as a whole or changes nothing and no other writer touches the table.
- SignalTable.Flush: position, scanner id and channel columns, and the columns owned by the analysis application.
- queryDeviceCount: a bounded retry loop around one exchange; its parsed number is an argument of the splitting.
- Connection management of the broker and the database, JSON, XML and logging.
- AlertConsumer, P25GrantConsumer, AmqpPublisher, AlertPublisher, GpsCache, GpsMonitor, AlertStore, P25Db and sdr_recon.py.
