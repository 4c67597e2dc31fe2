/**
 * `BoidPerformanceMetrics`: the benchmark harness. Once tagged sheep exist it waits out
 * a warm-up, then samples every rendered frame (frame rate, frame time, allocation,
 * summed flocking time of all sheep) and every physics tick until the test duration
 * has passed, and finally prints one summary.
 */
module Metrics {
  import opened Wrappers
  import opened Statistics

  // ----- The phase flags -----

  /** `sheepFound`, `isRecording`, `testCompleted` */
  datatype Flags = Flags(sheepFound: bool, isRecording: bool, testCompleted: bool)

  datatype Phase = WaitingForSheep | Warmup | Recording | Completed

  /** The phase the three flags describe, as the debug overlay reports it. */
  function PhaseOf(f: Flags): Phase {
    if !f.sheepFound then WaitingForSheep
    else if !f.isRecording then Warmup
    else if !f.testCompleted then Recording
    else Completed
  }

  function Rank(p: Phase): nat {
    match p
    case WaitingForSheep => 0
    case Warmup => 1
    case Recording => 2
    case Completed => 3
  }

  /**
   * The flags after one `Update`. `tagged` says whether the search for sheep (made only
   * while none are known) found any; `elapsed` is the time since the test started.
   */
  function NextFlags(f: Flags, tagged: bool, elapsed: real, warmup: real, duration: real): (g: Flags)
    ensures (f.sheepFound ==> g.sheepFound) && (f.isRecording ==> g.isRecording)
         && (f.testCompleted ==> g.testCompleted)
    ensures !f.sheepFound && !tagged ==> g == f
    ensures g.sheepFound ==> (g.isRecording <==> f.isRecording || elapsed >= warmup)
    ensures g.sheepFound ==> (g.testCompleted <==> f.testCompleted || elapsed >= duration)
  {
    if !f.sheepFound && !tagged then f
    else Flags(true, f.isRecording || elapsed >= warmup, f.testCompleted || elapsed >= duration)
  }

  /** Flags that only ever switch on describe phases that only ever advance. */
  lemma PhaseMonotone(f: Flags, g: Flags)
    requires (f.sheepFound ==> g.sheepFound) && (f.isRecording ==> g.isRecording)
    requires (f.testCompleted ==> g.testCompleted)
    requires g.isRecording ==> g.sheepFound
    ensures Rank(PhaseOf(f)) <= Rank(PhaseOf(g))
  {
  }

  /** One frame as the phase machine sees it. */
  datatype FrameInput = FrameInput(tagged: bool, elapsed: real)

  /** The flags after a run of frames. */
  function Run(f: Flags, frames: seq<FrameInput>, warmup: real, duration: real): Flags {
    if frames == [] then f
    else
      var last := frames[|frames| - 1];
      NextFlags(Run(f, frames[..|frames| - 1], warmup, duration), last.tagged, last.elapsed, warmup, duration)
  }

  /** How many frames of a run call `PrintResults`: those on which `testCompleted` switches on. */
  function Completions(f: Flags, frames: seq<FrameInput>, warmup: real, duration: real): nat {
    if frames == [] then 0
    else
      var init := frames[..|frames| - 1];
      var before := Run(f, init, warmup, duration);
      var after := Run(f, frames, warmup, duration);
      Completions(f, init, warmup, duration) + (if !before.testCompleted && after.testCompleted then 1 else 0)
  }

  /** Along any run the flags only switch on, so the phase never goes back. */
  lemma {:induction false} RunMonotone(f: Flags, frames: seq<FrameInput>, warmup: real, duration: real)
    ensures var g := Run(f, frames, warmup, duration);
            && (f.sheepFound ==> g.sheepFound) && (f.isRecording ==> g.isRecording)
            && (f.testCompleted ==> g.testCompleted)
            && ((f.isRecording ==> f.sheepFound) ==> (g.isRecording ==> g.sheepFound))
            && ((f.isRecording ==> f.sheepFound) ==> Rank(PhaseOf(f)) <= Rank(PhaseOf(g)))
  {
    var g := Run(f, frames, warmup, duration);
    if frames != [] {
      RunMonotone(f, frames[..|frames| - 1], warmup, duration);
    }
    if f.isRecording ==> f.sheepFound {
      PhaseMonotone(f, g);
    }
  }

  /**
   * The summary is printed exactly once over any run that completes the test, and
   * never over one that does not.
   */
  lemma {:induction false} PrintedOnce(f: Flags, frames: seq<FrameInput>, warmup: real, duration: real)
    ensures Completions(f, frames, warmup, duration)
         == if !f.testCompleted && Run(f, frames, warmup, duration).testCompleted then 1 else 0
  {
    if frames != [] {
      var init := frames[..|frames| - 1];
      PrintedOnce(f, init, warmup, duration);
      RunMonotone(f, init, warmup, duration);
    }
  }

  /**
   * With the warm-up no longer than the test, a completed test has been recording:
   * the frame that reaches the test duration has passed the warm-up too.
   */
  lemma {:induction false} CompletedAfterRecording(f: Flags, frames: seq<FrameInput>, warmup: real, duration: real)
    requires warmup <= duration
    requires f.testCompleted ==> f.isRecording
    ensures var g := Run(f, frames, warmup, duration);
            g.testCompleted ==> g.isRecording
  {
    if frames != [] {
      CompletedAfterRecording(f, frames[..|frames| - 1], warmup, duration);
    }
  }

  // ----- Scripts time -----

  /** Handle of a tagged game object. */
  type ObjectId = nat

  /**
   * A tagged object as `MeasureScriptsTime` finds it: destroyed (`null`), or alive with
   * the `lastCalcTime` of each agent component it carries (`None` when absent), for
   * `SheepAgent`, `SheepAgentBVH`, `SheepAgentTemporal` and `SheepAgentGrid`.
   */
  datatype SheepObject =
    | Destroyed
    | Live(base: Option<real>, bvh: Option<real>, temporal: Option<real>, grid: Option<real>)

  /** The time of the first agent component found, trying the four kinds in that order. */
  function CalcTime(o: SheepObject): (t: Option<real>)
    ensures t.None? <==> o.Destroyed? || (o.base.None? && o.bvh.None? && o.temporal.None? && o.grid.None?)
    ensures o.Live? && o.base.Some? ==> t == o.base
  {
    match o
    case Destroyed => None
    case Live(b, v, m, g) =>
      if b.Some? then b else if v.Some? then v else if m.Some? then m else g
  }

  /** `totalScriptsTime` and `validCount` */
  datatype Tally = Tally(total: real, validCount: nat)

  /** What the loop over `allSheep` accumulates. */
  function ScriptsTally(objects: ObjectId -> SheepObject, ids: seq<ObjectId>): Tally {
    if ids == [] then Tally(0.0, 0)
    else
      var t := ScriptsTally(objects, ids[..|ids| - 1]);
      match CalcTime(objects(ids[|ids| - 1]))
      case None => t
      case Some(c) => Tally(t.total + c, t.validCount + 1)
  }

  /** The times of the recognised agents among `ids`, in order. */
  function Recognised(objects: ObjectId -> SheepObject, ids: seq<ObjectId>): seq<real> {
    if ids == [] then []
    else
      var rest := Recognised(objects, ids[..|ids| - 1]);
      match CalcTime(objects(ids[|ids| - 1]))
      case None => rest
      case Some(c) => rest + [c]
  }

  /** The tally is the sum and the number of the recognised agents' times. */
  lemma {:induction false} TallyIsSum(objects: ObjectId -> SheepObject, ids: seq<ObjectId>)
    ensures ScriptsTally(objects, ids) == Tally(Sum(Recognised(objects, ids)), |Recognised(objects, ids)|)
  {
    if ids != [] {
      var init := ids[..|ids| - 1];
      TallyIsSum(objects, init);
      var r := Recognised(objects, init);
      if CalcTime(objects(ids[|ids| - 1])).Some? {
        assert (r + [CalcTime(objects(ids[|ids| - 1])).value])[..|r|] == r;
      }
    }
  }

  /** Nothing is recognised exactly when no object carries a known agent component. */
  lemma {:induction false} TallyCount(objects: ObjectId -> SheepObject, ids: seq<ObjectId>)
    ensures ScriptsTally(objects, ids).validCount <= |ids|
    ensures ScriptsTally(objects, ids).validCount == 0
        <==> forall i :: 0 <= i < |ids| ==> CalcTime(objects(ids[i])).None?
  {
    if ids != [] {
      var init := ids[..|ids| - 1];
      TallyCount(objects, init);
      assert forall i :: 0 <= i < |init| ==> init[i] == ids[i];
    }
  }

  // ----- The summary -----

  /** The data row and the detailed breakdown `PrintResults` logs. */
  datatype Report = Report(
    sheepCount: int,
    avgFps: real,
    minFps: real,
    onePercentLowFps: real,
    maxFrameTime: real,
    avgScriptsTime: real,
    maxScriptsTime: real,
    avgTimePerSheep: real,
    avgGcAlloc: int,
    framesRecorded: nat,
    fixedUpdates: nat,
    fixedUpdatesPerFrame: real,
    performanceRatio: real)

  /**
   * What `PrintResults` produces: the "No data recorded" error, the exception LINQ
   * throws when a history it averages is empty, or the report.
   */
  datatype Outcome = NoDataRecorded | EmptyHistory | Printed(report: Report)

  /** Nominal time budget of one physics tick at 50 ticks per second, in milliseconds. */
  const TickBudget := 20.0

  /** The histories and counters a summary is computed from. */
  datatype Snapshot = Snapshot(fps: seq<real>, frameTimes: seq<real>, gcAllocs: seq<int>, scripts: seq<real>,
                               sheepCount: int, fixedUpdateCount: nat)

  /**
   * The figures `PrintResults` logs for the data in `r`. It fails with "No data recorded"
   * exactly when no frame was sampled, and prints exactly when every history has data;
   * with histories of equal length, as the collector keeps them, the exception comes only
   * from an empty scripts-time history.
   */
  function Summarize(r: Snapshot): (o: Outcome)
    requires r.sheepCount > 0
    ensures o == NoDataRecorded <==> |r.fps| == 0
    ensures o.Printed? <==> |r.fps| > 0 && |r.frameTimes| > 0 && |r.scripts| > 0 && |r.gcAllocs| > 0
    ensures |r.fps| == |r.frameTimes| == |r.gcAllocs| ==> (o == EmptyHistory <==> |r.fps| > 0 && |r.scripts| == 0)
  {
    if |r.fps| == 0 then NoDataRecorded
    else if |r.frameTimes| == 0 || |r.scripts| == 0 || |r.gcAllocs| == 0 then EmptyHistory
    else
      var avgScripts := Mean(r.scripts);
      Printed(Report(r.sheepCount, Mean(r.fps), Min(r.fps), OnePercentLow(r.fps), Max(r.frameTimes),
                     avgScripts, Max(r.scripts), avgScripts / (r.sheepCount as real), AverageAlloc(r.gcAllocs),
                     |r.fps|, r.fixedUpdateCount, (r.fixedUpdateCount as real) / (|r.fps| as real),
                     avgScripts / TickBudget))
  }

  /**
   * The frame-rate figures of a printed summary: the minimum bounds every sample from
   * below, the 1% low lies between the minimum and the average, the maximum frame time
   * bounds every frame time, and every sampled frame is counted.
   */
  lemma SummarizeFrameFigures(r: Snapshot)
    requires r.sheepCount > 0 && |r.fps| > 0 && |r.frameTimes| > 0 && |r.scripts| > 0 && |r.gcAllocs| > 0
    ensures Summarize(r).Printed?
    ensures var rep := Summarize(r).report;
            && rep.minFps <= rep.onePercentLowFps <= rep.avgFps
            && (forall i :: 0 <= i < |r.fps| ==> rep.minFps <= r.fps[i])
            && (forall i :: 0 <= i < |r.frameTimes| ==> r.frameTimes[i] <= rep.maxFrameTime)
            && rep.framesRecorded == |r.fps|
  {
    OnePercentLowBounds(r.fps);
    MinIsLeast(r.fps);
    MaxIsGreatest(r.frameTimes);
  }

  /**
   * The scripts-time figures of a printed summary: the average does not exceed the
   * maximum, and the per-sheep time is the average shared out over the sheep.
   */
  lemma SummarizeScriptsFigures(r: Snapshot)
    requires r.sheepCount > 0 && |r.fps| > 0 && |r.frameTimes| > 0 && |r.scripts| > 0 && |r.gcAllocs| > 0
    ensures Summarize(r).Printed?
    ensures var rep := Summarize(r).report;
            && rep.avgScriptsTime <= rep.maxScriptsTime
            && rep.avgTimePerSheep * (r.sheepCount as real) == rep.avgScriptsTime
  {
    MeanBetween(r.scripts);
  }

  // ----- The collector -----

  class BoidPerformanceMetrics {
    const warmupDuration: real
    const testDuration: real
    var sheepCount: int

    var fpsHistory: seq<real>
    var frameTimeHistory: seq<real>
    var gcAllocHistory: seq<int>
    var scriptsTimeHistory: seq<real>
    var fixedUpdateCount: nat

    var allSheep: seq<ObjectId>
    var sheepFound: bool

    var testStartTime: real
    var currentTestTime: real
    var isRecording: bool
    var testCompleted: bool

    var currentFPS: real
    var currentFrameTime: real
    var currentScriptsTime: real
    var lastGCAlloc: int

    /**
     * One entry per `PrintResults` call, in order: the data that call summarised. What
     * it logged is `Summarize` of the entry.
     */
    var printed: seq<Snapshot>

    function FlagsNow(): Flags
      reads this
    {
      Flags(sheepFound, isRecording, testCompleted)
    }

    function SnapshotNow(): Snapshot
      reads this
    {
      Snapshot(fpsHistory, frameTimeHistory, gcAllocHistory, scriptsTimeHistory, sheepCount, fixedUpdateCount)
    }

    ghost predicate Valid()
      reads this
    {
      && |fpsHistory| == |frameTimeHistory| == |gcAllocHistory|
      && |scriptsTimeHistory| <= |fpsHistory|
      && (isRecording ==> sheepFound)
      && (testCompleted ==> sheepFound)
      && (!isRecording ==> fpsHistory == [] && scriptsTimeHistory == [] && fixedUpdateCount == 0)
      && (sheepFound ==> sheepCount == |allSheep| > 0)
      && |printed| == (if testCompleted then 1 else 0)
      && (forall i :: 0 <= i < |printed| ==> printed[i].sheepCount > 0)
    }

    /** The serialized settings, then `Start`, which notes the start time. */
    constructor (warmupDuration: real, testDuration: real, sheepCount: int, now: real)
      ensures Valid() && FlagsNow() == Flags(false, false, false)
      ensures this.warmupDuration == warmupDuration && this.testDuration == testDuration
      ensures this.sheepCount == sheepCount && testStartTime == now
      ensures fpsHistory == [] && frameTimeHistory == [] && gcAllocHistory == [] && scriptsTimeHistory == []
      ensures fixedUpdateCount == 0 && allSheep == [] && printed == [] && lastGCAlloc == 0
    {
      this.warmupDuration := warmupDuration;
      this.testDuration := testDuration;
      this.sheepCount := sheepCount;
      fpsHistory, frameTimeHistory, gcAllocHistory, scriptsTimeHistory := [], [], [], [];
      fixedUpdateCount := 0;
      allSheep := [];
      sheepFound, isRecording, testCompleted := false, false, false;
      testStartTime := now;
      currentTestTime := 0.0;
      currentFPS, currentFrameTime, currentScriptsTime := 0.0, 0.0, 0.0;
      lastGCAlloc := 0;
      printed := [];
    }

    /** Counts physics ticks, but only inside the recording window. */
    method FixedUpdate()
      requires Valid()
      modifies this`fixedUpdateCount
      ensures Valid()
      ensures fixedUpdateCount == old(fixedUpdateCount) + (if isRecording && !testCompleted then 1 else 0)
    {
      if isRecording && !testCompleted {
        fixedUpdateCount := fixedUpdateCount + 1;
      }
    }

    /**
     * Takes `tagged`, the objects tagged "Sheep" right now; if there are any, the test
     * (re)starts at `now` with that many sheep.
     */
    method TryFindSheep(tagged: seq<ObjectId>, now: real)
      modifies this`allSheep, this`sheepFound, this`testStartTime, this`sheepCount
      ensures allSheep == tagged
      ensures |tagged| > 0 ==> sheepFound && testStartTime == now && sheepCount == |tagged|
      ensures |tagged| == 0 ==>
        sheepFound == old(sheepFound) && testStartTime == old(testStartTime) && sheepCount == old(sheepCount)
    {
      allSheep := tagged;
      if |allSheep| > 0 {
        sheepFound := true;
        testStartTime := now;
        sheepCount := |allSheep|;
      }
    }

    /**
     * Sums `lastCalcTime` over the sheep objects that still exist and carry a known
     * agent; appends the sum only when there was at least one.
     */
    method MeasureScriptsTime(objects: ObjectId -> SheepObject)
      modifies this`currentScriptsTime, this`scriptsTimeHistory
      ensures var tally := ScriptsTally(objects, allSheep);
              if tally.validCount > 0 then
                scriptsTimeHistory == old(scriptsTimeHistory) + [tally.total] && currentScriptsTime == tally.total
              else
                scriptsTimeHistory == old(scriptsTimeHistory) && currentScriptsTime == old(currentScriptsTime)
    {
      if |allSheep| == 0 {
        return;
      }
      var totalScriptsTime := 0.0;
      var validCount := 0;
      var i := 0;
      while i < |allSheep|
        invariant 0 <= i <= |allSheep|
        invariant Tally(totalScriptsTime, validCount) == ScriptsTally(objects, allSheep[..i])
      {
        var sheepObj := objects(allSheep[i]);
        assert allSheep[..i + 1][..i] == allSheep[..i];
        if sheepObj.Live? {
          var time := CalcTime(sheepObj);
          if time.Some? {
            totalScriptsTime := totalScriptsTime + time.value;
            validCount := validCount + 1;
          }
        }
        i := i + 1;
      }
      assert allSheep[..i] == allSheep;
      if validCount > 0 {
        currentScriptsTime := totalScriptsTime;
        scriptsTimeHistory := scriptsTimeHistory + [currentScriptsTime];
      }
    }

    /** Logs the summary of the histories recorded so far. */
    method PrintResults() returns (outcome: Outcome)
      requires sheepCount > 0
      modifies this`printed
      ensures printed == old(printed) + [SnapshotNow()]
      ensures outcome == Summarize(SnapshotNow())
    {
      printed := printed + [SnapshotNow()];
      outcome := Summarize(SnapshotNow());
    }

    /**
     * Appends the frame's samples: frame rate, frame time, allocation and, when any
     * agent is recognised, the summed flocking time.
     */
    method Sample(deltaTime: real, gcAllocThisFrame: int, objects: ObjectId -> SheepObject, ghost tally: Tally)
      requires deltaTime > 0.0 && tally == ScriptsTally(objects, allSheep)
      modifies this`fpsHistory, this`frameTimeHistory, this`gcAllocHistory, this`currentScriptsTime,
               this`scriptsTimeHistory
      ensures fpsHistory == old(fpsHistory) + [1.0 / deltaTime]
      ensures frameTimeHistory == old(frameTimeHistory) + [deltaTime * 1000.0]
      ensures gcAllocHistory == old(gcAllocHistory) + [gcAllocThisFrame]
      ensures scriptsTimeHistory
              == old(scriptsTimeHistory) + (if tally.validCount > 0 then [tally.total] else [])
    {
      fpsHistory := fpsHistory + [1.0 / deltaTime];
      frameTimeHistory := frameTimeHistory + [deltaTime * 1000.0];
      gcAllocHistory := gcAllocHistory + [gcAllocThisFrame];
      MeasureScriptsTime(objects);
    }

    /** The part of `Update` that runs once sheep are known. */
    method Tick(now: real, deltaTime: real, totalAllocated: int, objects: ObjectId -> SheepObject,
                ghost tally: Tally)
      requires Valid() && sheepFound && deltaTime > 0.0
      requires tally == ScriptsTally(objects, allSheep)
      modifies this`currentTestTime, this`isRecording, this`testCompleted, this`currentFPS, this`currentFrameTime,
               this`lastGCAlloc, this`fpsHistory, this`frameTimeHistory, this`gcAllocHistory,
               this`currentScriptsTime, this`scriptsTimeHistory, this`printed
      ensures Valid()
      ensures currentTestTime == now - testStartTime
      ensures FlagsNow() == NextFlags(old(FlagsNow()), true, currentTestTime, warmupDuration, testDuration)
      ensures lastGCAlloc == totalAllocated
      ensures var sampled := isRecording && !old(testCompleted);
        && fpsHistory == old(fpsHistory) + (if sampled then [1.0 / deltaTime] else [])
        && frameTimeHistory == old(frameTimeHistory) + (if sampled then [deltaTime * 1000.0] else [])
        && gcAllocHistory == old(gcAllocHistory) + (if sampled then [totalAllocated - old(lastGCAlloc)] else [])
        && scriptsTimeHistory
           == old(scriptsTimeHistory) + (if sampled && tally.validCount > 0 then [tally.total] else [])
      ensures printed
              == old(printed)
                 + (if testCompleted && !old(testCompleted)
                    then [SnapshotNow()]
                    else [])
    {
      var gcAllocThisFrame := BeginFrame(now, deltaTime, totalAllocated);
      EndFrame(deltaTime, gcAllocThisFrame, objects, tally);
    }

    /**
     * The start of a frame: the test clock, the warm-up check, the frame's rate and
     * duration, and the bytes allocated since the previous frame.
     */
    method BeginFrame(now: real, deltaTime: real, totalAllocated: int) returns (gcAllocThisFrame: int)
      requires Valid() && sheepFound && deltaTime > 0.0
      modifies this`currentTestTime, this`isRecording, this`currentFPS, this`currentFrameTime, this`lastGCAlloc
      ensures Valid()
      ensures currentTestTime == now - testStartTime
      ensures isRecording == (old(isRecording) || currentTestTime >= warmupDuration)
      ensures currentFPS == 1.0 / deltaTime && currentFrameTime == deltaTime * 1000.0
      ensures lastGCAlloc == totalAllocated && gcAllocThisFrame == totalAllocated - old(lastGCAlloc)
    {
      currentTestTime := now - testStartTime;
      StartRecordingIfDue();

      currentFPS := 1.0 / deltaTime;
      currentFrameTime := deltaTime * 1000.0;

      var currentGCAlloc := totalAllocated;
      gcAllocThisFrame := currentGCAlloc - lastGCAlloc;
      lastGCAlloc := currentGCAlloc;
    }

    /** The end of a frame: the sample inside the recording window, then the completion check. */
    method EndFrame(deltaTime: real, gcAllocThisFrame: int, objects: ObjectId -> SheepObject, ghost tally: Tally)
      requires Valid() && sheepFound && deltaTime > 0.0 && tally == ScriptsTally(objects, allSheep)
      modifies this`testCompleted, this`printed, this`fpsHistory, this`frameTimeHistory, this`gcAllocHistory,
               this`currentScriptsTime, this`scriptsTimeHistory
      ensures Valid()
      ensures testCompleted == (old(testCompleted) || currentTestTime >= testDuration)
      ensures var sampled := isRecording && !old(testCompleted);
        && fpsHistory == old(fpsHistory) + (if sampled then [1.0 / deltaTime] else [])
        && frameTimeHistory == old(frameTimeHistory) + (if sampled then [deltaTime * 1000.0] else [])
        && gcAllocHistory == old(gcAllocHistory) + (if sampled then [gcAllocThisFrame] else [])
        && scriptsTimeHistory
           == old(scriptsTimeHistory) + (if sampled && tally.validCount > 0 then [tally.total] else [])
      ensures printed
              == old(printed)
                 + (if testCompleted && !old(testCompleted)
                    then [SnapshotNow()]
                    else [])
    {
      SampleIfRecording(deltaTime, gcAllocThisFrame, objects, tally);
      CompleteIfDue();
    }

    /** Recording starts once the warm-up has elapsed, and then stays on. */
    method StartRecordingIfDue()
      modifies this`isRecording
      ensures isRecording == (old(isRecording) || currentTestTime >= warmupDuration)
    {
      if currentTestTime >= warmupDuration && !isRecording {
        isRecording := true;
      }
    }

    /** Samples the frame inside the recording window. */
    method SampleIfRecording(deltaTime: real, gcAllocThisFrame: int, objects: ObjectId -> SheepObject,
                             ghost tally: Tally)
      requires deltaTime > 0.0 && tally == ScriptsTally(objects, allSheep)
      modifies this`fpsHistory, this`frameTimeHistory, this`gcAllocHistory, this`currentScriptsTime,
               this`scriptsTimeHistory
      ensures var sampled := isRecording && !testCompleted;
        && fpsHistory == old(fpsHistory) + (if sampled then [1.0 / deltaTime] else [])
        && frameTimeHistory == old(frameTimeHistory) + (if sampled then [deltaTime * 1000.0] else [])
        && gcAllocHistory == old(gcAllocHistory) + (if sampled then [gcAllocThisFrame] else [])
        && scriptsTimeHistory
           == old(scriptsTimeHistory) + (if sampled && tally.validCount > 0 then [tally.total] else [])
    {
      if isRecording && !testCompleted {
        Sample(deltaTime, gcAllocThisFrame, objects, tally);
      }
    }

    /** The frame that reaches the test duration completes the test and prints the summary. */
    method CompleteIfDue()
      requires sheepCount > 0
      modifies this`testCompleted, this`printed
      ensures testCompleted == (old(testCompleted) || currentTestTime >= testDuration)
      ensures printed
              == old(printed)
                 + (if testCompleted && !old(testCompleted)
                    then [SnapshotNow()]
                    else [])
    {
      if currentTestTime >= testDuration && !testCompleted {
        testCompleted := true;
        var outcome := PrintResults();
      }
    }

    /**
     * One rendered frame at time `now`, `deltaTime` after the previous one, with
     * `totalAllocated` bytes allocated so far, `tagged` the objects tagged "Sheep" and
     * `objects` their current state. Until sheep are found it only searches; then the
     * flags advance, the frame is sampled inside the recording window, and the frame
     * that reaches the test duration prints the summary.
     */
    method Update(now: real, deltaTime: real, totalAllocated: int, tagged: seq<ObjectId>,
                  objects: ObjectId -> SheepObject)
      requires Valid() && deltaTime > 0.0
      modifies this`allSheep, this`sheepFound, this`testStartTime, this`sheepCount,
               this`currentTestTime, this`isRecording, this`testCompleted, this`currentFPS, this`currentFrameTime,
               this`lastGCAlloc, this`fpsHistory, this`frameTimeHistory, this`gcAllocHistory,
               this`currentScriptsTime, this`scriptsTimeHistory, this`printed
      ensures Valid()
      ensures FlagsNow() == NextFlags(old(FlagsNow()), |tagged| > 0, currentTestTime, warmupDuration, testDuration)
      ensures old(sheepFound) ==> sheepCount == old(sheepCount)
      ensures !old(sheepFound) && |tagged| == 0 ==>
        && allSheep == tagged
        && fpsHistory == old(fpsHistory) && frameTimeHistory == old(frameTimeHistory)
        && gcAllocHistory == old(gcAllocHistory) && scriptsTimeHistory == old(scriptsTimeHistory)
        && sheepCount == old(sheepCount) && currentTestTime == old(currentTestTime)
        && currentScriptsTime == old(currentScriptsTime) && currentFPS == old(currentFPS)
        && currentFrameTime == old(currentFrameTime)
        && printed == old(printed) && testStartTime == old(testStartTime) && lastGCAlloc == old(lastGCAlloc)
      ensures old(sheepFound) || |tagged| > 0 ==>
        var sampled := isRecording && !old(testCompleted);
        && testStartTime == (if old(sheepFound) then old(testStartTime) else now)
        && currentTestTime == now - testStartTime
        && allSheep == (if old(sheepFound) then old(allSheep) else tagged)
        && lastGCAlloc == totalAllocated
        && fpsHistory == old(fpsHistory) + (if sampled then [1.0 / deltaTime] else [])
        && frameTimeHistory == old(frameTimeHistory) + (if sampled then [deltaTime * 1000.0] else [])
        && gcAllocHistory == old(gcAllocHistory) + (if sampled then [totalAllocated - old(lastGCAlloc)] else [])
        && scriptsTimeHistory
           == old(scriptsTimeHistory)
              + (if sampled && ScriptsTally(objects, allSheep).validCount > 0
                 then [ScriptsTally(objects, allSheep).total] else [])
        && printed
           == old(printed)
              + (if testCompleted && !old(testCompleted)
                 then [SnapshotNow()]
                 else [])
    {
      if !sheepFound {
        TryFindSheep(tagged, now);
        if !sheepFound {
          return;
        }
      }
      Tick(now, deltaTime, totalAllocated, objects, ScriptsTally(objects, allSheep));
    }
  }
}
