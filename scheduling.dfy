/** The detection loop of the demo: once per animation frame it runs the
    detector on a new video frame, redraws the overlay at most every
    drawObjectsInterval and reports the mean time per detection at most every
    drawProcessingTimeInterval. The detector, the clock and the video position
    are inputs of each tick; the animation-frame scheduling is the caller
    handing in one frame after another. */
module Scheduling {
  import opened Overlay

  /** The two refresh intervals, compared against differences of clock readings. */
  datatype Config = Config(drawObjectsInterval: real, drawProcessingTimeInterval: real)

  /** The intervals the demo is built with. */
  const DefaultConfig := Config(0.1, 0.25)

  /** The four variables the loop keeps between ticks. */
  datatype LoopState = LoopState(
    lastVideoTime: real,
    lastObjectDrawTime: real,
    lastProcessingTimeDrawTime: real,
    detectionsSinceLastRefresh: nat)

  /** Before the first tick: every time at the sentinel -1, no detections. */
  const Initial := LoopState(-1.0, -1.0, -1.0, 0)

  /** What one tick observes: the video position, the clock before and after
      the detector runs, and what the detector returns. */
  datatype Frame = Frame(position: real, startTime: real, endTime: real, detections: seq<Detection>)

  /** The effects of a tick, in the order they happen. */
  datatype Action =
    | RanDetector(timestamp: real)
    | DrewObjects(at: real, detections: seq<Detection>)
    | DrewProcessingTime(at: real, frameAverage: real)

  datatype StepResult = StepResult(next: LoopState, actions: seq<Action>)

  /** How many times the detector ran. */
  function DetectCount(log: seq<Action>): nat {
    if log == [] then 0
    else DetectCount(log[..|log| - 1]) + (if log[|log| - 1].RanDetector? then 1 else 0)
  }

  // ---------------------------------------------------------------------
  // One tick

  /** The detector runs on the new frame, with the start time, and the
      counter goes up. */
  function Detect(s: LoopState, f: Frame): StepResult {
    StepResult(s.(detectionsSinceLastRefresh := s.detectionsSinceLastRefresh + 1), [RanDetector(f.startTime)])
  }

  /** The overlay is redrawn if more than its interval has passed. */
  function MaybeDrawObjects(cfg: Config, r: StepResult, f: Frame): StepResult {
    if f.endTime - r.next.lastObjectDrawTime > cfg.drawObjectsInterval then
      StepResult(r.next.(lastObjectDrawTime := f.endTime), r.actions + [DrewObjects(f.endTime, f.detections)])
    else r
  }

  /** The throughput is reported if more than its interval has passed, and
      the counter restarts. */
  function MaybeDrawProcessingTime(cfg: Config, r: StepResult, f: Frame): StepResult
    requires r.next.detectionsSinceLastRefresh >= 1
  {
    if f.endTime - r.next.lastProcessingTimeDrawTime > cfg.drawProcessingTimeInterval then
      var frameAverage := (f.endTime - r.next.lastProcessingTimeDrawTime) / (r.next.detectionsSinceLastRefresh as real);
      StepResult(r.next.(lastProcessingTimeDrawTime := f.endTime, detectionsSinceLastRefresh := 0),
                 r.actions + [DrewProcessingTime(f.endTime, frameAverage)])
    else r
  }

  /** One call of detectLoop. */
  function Step(cfg: Config, s: LoopState, f: Frame): (r: StepResult)
    // a frame that was already processed changes nothing and does nothing
    ensures f.position == s.lastVideoTime ==> r == StepResult(s, [])
    // a new frame runs the detector first, with the start time
    ensures f.position != s.lastVideoTime ==> |r.actions| >= 1 && r.actions[0] == RanDetector(f.startTime)
    ensures r.next.lastVideoTime == f.position
    // the counter goes up by one, or restarts at zero with a report
    ensures f.position != s.lastVideoTime ==>
      r.next.detectionsSinceLastRefresh == s.detectionsSinceLastRefresh + 1
      || r.next.detectionsSinceLastRefresh == 0
  {
    if f.position == s.lastVideoTime then StepResult(s, [])
    else
      var r := MaybeDrawProcessingTime(cfg, MaybeDrawObjects(cfg, Detect(s, f), f), f);
      StepResult(r.next.(lastVideoTime := f.position), r.actions)
  }

  /** The overlay is redrawn, with what the detector returned, exactly when
      a new frame comes more than the interval after the last redraw. */
  lemma StepDrawsWhenDue(cfg: Config, s: LoopState, f: Frame)
    ensures var r := Step(cfg, s, f);
      && ((exists a :: a in r.actions && a.DrewObjects?)
          <==> f.position != s.lastVideoTime && f.endTime - s.lastObjectDrawTime > cfg.drawObjectsInterval)
      && (forall a :: a in r.actions && a.DrewObjects? ==> a == DrewObjects(f.endTime, f.detections))
      && r.next.lastObjectDrawTime
         == (if exists a :: a in r.actions && a.DrewObjects? then f.endTime else s.lastObjectDrawTime)
      // one detection, then at most one redraw and at most one report
      && (f.position != s.lastVideoTime ==>
            |r.actions| == 1 + (if f.endTime - s.lastObjectDrawTime > cfg.drawObjectsInterval then 1 else 0)
                             + (if f.endTime - s.lastProcessingTimeDrawTime > cfg.drawProcessingTimeInterval then 1 else 0))
  {
    var r := Step(cfg, s, f);
    if f.position != s.lastVideoTime && f.endTime - s.lastObjectDrawTime > cfg.drawObjectsInterval {
      assert r.actions[1] in r.actions;
    }
  }

  /** The throughput is reported exactly when a new frame comes more than its
      interval after the last report; the figure is the time since the last
      report over the detections since then, this one included, and the
      count restarts. */
  lemma StepReportsWhenDue(cfg: Config, s: LoopState, f: Frame)
    ensures var r := Step(cfg, s, f);
      && ((exists a :: a in r.actions && a.DrewProcessingTime?)
          <==> f.position != s.lastVideoTime && f.endTime - s.lastProcessingTimeDrawTime > cfg.drawProcessingTimeInterval)
      && (forall a :: a in r.actions && a.DrewProcessingTime? ==>
            a == DrewProcessingTime(f.endTime,
                   (f.endTime - s.lastProcessingTimeDrawTime) / ((s.detectionsSinceLastRefresh + 1) as real)))
      && ((exists a :: a in r.actions && a.DrewProcessingTime?) ==>
            r.next.lastProcessingTimeDrawTime == f.endTime && r.next.detectionsSinceLastRefresh == 0)
      // without a report the report time stays and the counter only counts this tick's detection
      && (!(exists a :: a in r.actions && a.DrewProcessingTime?) ==>
            r.next.lastProcessingTimeDrawTime == s.lastProcessingTimeDrawTime
            && r.next.detectionsSinceLastRefresh
               == s.detectionsSinceLastRefresh + (if f.position != s.lastVideoTime then 1 else 0))
      // one detection, then at most one redraw and at most one report
      && (f.position != s.lastVideoTime ==>
            |r.actions| == 1 + (if f.endTime - s.lastObjectDrawTime > cfg.drawObjectsInterval then 1 else 0)
                             + (if f.endTime - s.lastProcessingTimeDrawTime > cfg.drawProcessingTimeInterval then 1 else 0))
  {
    var r := Step(cfg, s, f);
    if f.position != s.lastVideoTime && f.endTime - s.lastProcessingTimeDrawTime > cfg.drawProcessingTimeInterval {
      assert r.actions[|r.actions| - 1] in r.actions;
    }
  }

  /** A tick runs the detector once on a new frame and not at all otherwise. */
  lemma StepDetectsOnce(cfg: Config, s: LoopState, f: Frame)
    ensures DetectCount(Step(cfg, s, f).actions) == if f.position != s.lastVideoTime then 1 else 0
  {
    var actions := Step(cfg, s, f).actions;
    if f.position != s.lastVideoTime {
      var rest := actions[1..];
      assert actions == [actions[0]] + rest;
      DetectCountConcat([actions[0]], rest);
      DetectCountSingle(actions[0]);
      assert |rest| <= 2 && forall a :: a in rest ==> !a.RanDetector?;
      NoDetections(rest);
    }
  }

  lemma {:induction false} NoDetections(log: seq<Action>)
    requires forall a :: a in log ==> !a.RanDetector?
    ensures DetectCount(log) == 0
    decreases |log|
  {
    if log != [] {
      var n := |log| - 1;
      assert forall a :: a in log[..n] ==> a in log;
      NoDetections(log[..n]);
      assert log[n] in log;
    }
  }

  lemma DetectCountSingle(a: Action)
    ensures DetectCount([a]) == if a.RanDetector? then 1 else 0
  {
    assert [a][..0] == [];
  }

  /** The first tick after start-up, on a real video position and a clock
      that does not read negative, redraws and reports: every sentinel is
      more than an interval in the past. The first report therefore counts
      the time since the sentinel, endTime + 1, which the demo accepts as
      an inaccurate first value. */
  lemma FirstTickFiresBoth(f: Frame)
    requires f.position >= 0.0 && f.endTime >= 0.0
    ensures Step(DefaultConfig, Initial, f).actions
         == [RanDetector(f.startTime), DrewObjects(f.endTime, f.detections),
             DrewProcessingTime(f.endTime, f.endTime + 1.0)]
    ensures Step(DefaultConfig, Initial, f).next == LoopState(f.position, f.endTime, f.endTime, 0)
  {
  }

  // ---------------------------------------------------------------------
  // A run of ticks

  /** Ticks on frames one after another, from state s. */
  function Run(cfg: Config, s: LoopState, frames: seq<Frame>): StepResult {
    if frames == [] then StepResult(s, [])
    else
      var before := Run(cfg, s, frames[..|frames| - 1]);
      var last := Step(cfg, before.next, frames[|frames| - 1]);
      StepResult(last.next, before.actions + last.actions)
  }

  lemma RunStep(cfg: Config, s: LoopState, frames: seq<Frame>, i: nat)
    requires i < |frames|
    ensures Run(cfg, s, frames[..i + 1]).next == Step(cfg, Run(cfg, s, frames[..i]).next, frames[i]).next
    ensures Run(cfg, s, frames[..i + 1]).actions
         == Run(cfg, s, frames[..i]).actions + Step(cfg, Run(cfg, s, frames[..i]).next, frames[i]).actions
  {
    TakeTake(frames, i + 1, i);
  }

  /** The position the loop last saw: the last frame's, or where it started. */
  function LastPosition(start: real, frames: seq<Frame>): real {
    if frames == [] then start else frames[|frames| - 1].position
  }

  /** How many frames show a position different from the one before them. */
  function Changes(start: real, frames: seq<Frame>): nat {
    if frames == [] then 0
    else
      var n := |frames| - 1;
      Changes(start, frames[..n]) + (if frames[n].position != LastPosition(start, frames[..n]) then 1 else 0)
  }

  /** The detector runs once per change of video position, never twice on
      the same frame. */
  lemma {:induction false} RunDetections(cfg: Config, s: LoopState, frames: seq<Frame>)
    ensures Run(cfg, s, frames).next.lastVideoTime == LastPosition(s.lastVideoTime, frames)
    ensures DetectCount(Run(cfg, s, frames).actions) == Changes(s.lastVideoTime, frames)
    decreases |frames|
  {
    if frames != [] {
      var n := |frames| - 1;
      RunDetections(cfg, s, frames[..n]);
      var before := Run(cfg, s, frames[..n]);
      var last := Step(cfg, before.next, frames[n]);
      DetectCountConcat(before.actions, last.actions);
      StepDetectsOnce(cfg, before.next, frames[n]);
    }
  }

  lemma {:induction false} DetectCountConcat(a: seq<Action>, b: seq<Action>)
    ensures DetectCount(a + b) == DetectCount(a) + DetectCount(b)
    decreases |b|
  {
    if b == [] {
      ConcatEmpty(a);
    } else {
      var n := |b| - 1;
      DetectCountConcat(a, b[..n]);
      TakeConcat(a, b, n);
      assert (a + b)[|a| + n] == b[n];
    }
  }

  /** A video held on one new frame for any number of ticks is detected once. */
  lemma HeldPositionDetectsOnce(cfg: Config, s: LoopState, frames: seq<Frame>, p: real)
    requires frames != [] && p != s.lastVideoTime
    requires forall i :: 0 <= i < |frames| ==> frames[i].position == p
    ensures DetectCount(Run(cfg, s, frames).actions) == 1
  {
    RunDetections(cfg, s, frames);
    HeldChangesOnce(s.lastVideoTime, frames, p);
  }

  lemma {:induction false} HeldChangesOnce(start: real, frames: seq<Frame>, p: real)
    requires frames != [] && p != start
    requires forall i :: 0 <= i < |frames| ==> frames[i].position == p
    ensures Changes(start, frames) == 1
    decreases |frames|
  {
    var n := |frames| - 1;
    if n > 0 {
      var prefix := frames[..n];
      assert forall i :: 0 <= i < |prefix| ==> prefix[i].position == frames[i].position;
      HeldChangesOnce(start, prefix, p);
      assert prefix[n - 1] == frames[n - 1];
    } else {
      assert frames[..n] == [];
    }
  }

  // ---------------------------------------------------------------------
  // What the log of actions says about the loop's variables

  /** When the overlay was last drawn, or the sentinel. */
  function LastDrawTime(log: seq<Action>): real {
    if log == [] then -1.0
    else if log[|log| - 1].DrewObjects? then log[|log| - 1].at
    else LastDrawTime(log[..|log| - 1])
  }

  /** When the throughput was last reported, or the sentinel. */
  function LastReportTime(log: seq<Action>): real {
    if log == [] then -1.0
    else if log[|log| - 1].DrewProcessingTime? then log[|log| - 1].at
    else LastReportTime(log[..|log| - 1])
  }

  /** How many detections ran since the last report. */
  function DetectionsSinceReport(log: seq<Action>): nat {
    if log == [] then 0
    else if log[|log| - 1].DrewProcessingTime? then 0
    else DetectionsSinceReport(log[..|log| - 1]) + (if log[|log| - 1].RanDetector? then 1 else 0)
  }

  /** Every redraw comes more than the interval after the one before it. */
  predicate DrawsSpaced(interval: real, log: seq<Action>) {
    log == [] ||
    (DrawsSpaced(interval, log[..|log| - 1]) &&
     (log[|log| - 1].DrewObjects? ==> log[|log| - 1].at - LastDrawTime(log[..|log| - 1]) > interval))
  }

  /** Every report comes more than the interval after the one before it, and
      reports the time since then divided by the detections since then, of
      which there is at least one. */
  predicate ReportsAccurate(interval: real, log: seq<Action>) {
    log == [] ||
    (ReportsAccurate(interval, log[..|log| - 1]) &&
     var a, before := log[|log| - 1], log[..|log| - 1];
     (a.DrewProcessingTime? ==>
        && a.at - LastReportTime(before) > interval
        && DetectionsSinceReport(before) >= 1
        && a.frameAverage == (a.at - LastReportTime(before)) / (DetectionsSinceReport(before) as real)))
  }

  /** The loop's variables are what the log says, and the log is well timed. */
  predicate Explains(cfg: Config, s: LoopState, log: seq<Action>) {
    && s.lastObjectDrawTime == LastDrawTime(log)
    && s.lastProcessingTimeDrawTime == LastReportTime(log)
    && s.detectionsSinceLastRefresh == DetectionsSinceReport(log)
    && DrawsSpaced(cfg.drawObjectsInterval, log)
    && ReportsAccurate(cfg.drawProcessingTimeInterval, log)
  }

  lemma ExplainsAppend(cfg: Config, s: LoopState, log: seq<Action>, a: Action, s': LoopState)
    requires Explains(cfg, s, log)
    requires s'.lastObjectDrawTime == (if a.DrewObjects? then a.at else s.lastObjectDrawTime)
    requires s'.lastProcessingTimeDrawTime == (if a.DrewProcessingTime? then a.at else s.lastProcessingTimeDrawTime)
    requires s'.detectionsSinceLastRefresh
          == (if a.DrewProcessingTime? then 0
              else s.detectionsSinceLastRefresh + (if a.RanDetector? then 1 else 0))
    requires a.DrewObjects? ==> a.at - s.lastObjectDrawTime > cfg.drawObjectsInterval
    requires a.DrewProcessingTime? ==>
      && a.at - s.lastProcessingTimeDrawTime > cfg.drawProcessingTimeInterval
      && s.detectionsSinceLastRefresh >= 1
      && a.frameAverage == (a.at - s.lastProcessingTimeDrawTime) / (s.detectionsSinceLastRefresh as real)
    ensures Explains(cfg, s', log + [a])
  {
    TakeAppend(log, [a]);
  }

  /** Running the detector counts one more detection. */
  lemma DetectExplained(cfg: Config, s: LoopState, log: seq<Action>, f: Frame)
    requires Explains(cfg, s, log)
    ensures Explains(cfg, Detect(s, f).next, log + Detect(s, f).actions)
  {
    ExplainsAppend(cfg, s, log, RanDetector(f.startTime), Detect(s, f).next);
  }

  /** The redraw of a tick, if it is due. */
  lemma DrawExplained(cfg: Config, r: StepResult, log: seq<Action>, f: Frame)
    requires Explains(cfg, r.next, log + r.actions)
    ensures Explains(cfg, MaybeDrawObjects(cfg, r, f).next, log + MaybeDrawObjects(cfg, r, f).actions)
  {
    if f.endTime - r.next.lastObjectDrawTime > cfg.drawObjectsInterval {
      var a := DrewObjects(f.endTime, f.detections);
      ExplainsAppend(cfg, r.next, log + r.actions, a, MaybeDrawObjects(cfg, r, f).next);
      ConcatAssoc(log, r.actions, [a]);
    }
  }

  /** The report of a tick, if it is due, after at least one detection. */
  lemma ReportExplained(cfg: Config, r: StepResult, log: seq<Action>, f: Frame)
    requires Explains(cfg, r.next, log + r.actions) && r.next.detectionsSinceLastRefresh >= 1
    ensures Explains(cfg, MaybeDrawProcessingTime(cfg, r, f).next, log + MaybeDrawProcessingTime(cfg, r, f).actions)
  {
    if f.endTime - r.next.lastProcessingTimeDrawTime > cfg.drawProcessingTimeInterval {
      var a := MaybeDrawProcessingTime(cfg, r, f).actions[|r.actions|];
      assert MaybeDrawProcessingTime(cfg, r, f).actions == r.actions + [a];
      ExplainsAppend(cfg, r.next, log + r.actions, a, MaybeDrawProcessingTime(cfg, r, f).next);
      ConcatAssoc(log, r.actions, [a]);
    }
  }

  /** One tick keeps the variables explained by the log. */
  lemma StepExplained(cfg: Config, s: LoopState, log: seq<Action>, f: Frame)
    requires Explains(cfg, s, log)
    ensures Explains(cfg, Step(cfg, s, f).next, log + Step(cfg, s, f).actions)
  {
    if f.position == s.lastVideoTime {
      ConcatEmpty(log);
    } else {
      var r1 := Detect(s, f);
      DetectExplained(cfg, s, log, f);
      var r2 := MaybeDrawObjects(cfg, r1, f);
      DrawExplained(cfg, r1, log, f);
      ReportExplained(cfg, r2, log, f);
    }
  }

  /** Over any run from start-up, the variables are what the log of actions
      says: the last redraw, the last report and the detections since it;
      redraws and reports keep their intervals, and every report is the
      mean time per detection since the one before. */
  lemma {:induction false} RunExplained(cfg: Config, frames: seq<Frame>)
    ensures Explains(cfg, Run(cfg, Initial, frames).next, Run(cfg, Initial, frames).actions)
    decreases |frames|
  {
    if frames != [] {
      var n := |frames| - 1;
      RunExplained(cfg, frames[..n]);
      var before := Run(cfg, Initial, frames[..n]);
      StepExplained(cfg, before.next, before.actions, frames[n]);
    }
  }

  // ---------------------------------------------------------------------
  // What the canvas shows

  /** A tick on this frame from state s redraws the overlay, the only place
      where the detections' boxes are read. */
  predicate RedrawDue(cfg: Config, s: LoopState, f: Frame) {
    f.position != s.lastVideoTime && f.endTime - s.lastObjectDrawTime > cfg.drawObjectsInterval
  }

  /** The canvas commands of one action: a redraw's overlay, else nothing. */
  function ActionCommands(width: nat, height: nat, a: Action): seq<Command> {
    if a.DrewObjects? then OverlayCommands(a.detections, width, height) else []
  }

  function Shown(width: nat, height: nat): Action -> seq<Command> {
    a => ActionCommands(width, height, a)
  }

  /** The canvas commands issued by a log of actions: each redraw's overlay. */
  function CanvasOutput(width: nat, height: nat, log: seq<Action>): seq<Command> {
    FlatMap(Shown(width, height), log)
  }

  lemma CanvasOutputAppend(width: nat, height: nat, log: seq<Action>, a: Action)
    ensures CanvasOutput(width, height, log + [a]) == CanvasOutput(width, height, log) + ActionCommands(width, height, a)
  {
    FlatMapAppend(Shown(width, height), log, a);
  }

  lemma ShowStep(width: nat, height: nat, start: seq<Command>, log: seq<Action>, a: Action,
                 c0: seq<Command>, c1: seq<Command>)
    requires c0 == start + CanvasOutput(width, height, log)
    requires c1 == c0 + ActionCommands(width, height, a)
    ensures c1 == start + CanvasOutput(width, height, log + [a])
  {
    CanvasOutputAppend(width, height, log, a);
    ConcatAssoc(start, CanvasOutput(width, height, log), ActionCommands(width, height, a));
  }

  lemma CanvasOutputConcat(width: nat, height: nat, a: seq<Action>, b: seq<Action>)
    ensures CanvasOutput(width, height, a + b) == CanvasOutput(width, height, a) + CanvasOutput(width, height, b)
  {
    FlatMapConcat(Shown(width, height), a, b);
  }

  // ---------------------------------------------------------------------
  // The loop as the demo keeps it

  /** The loop's variables, and the canvas it draws on. */
  class DetectLoop {
    const config: Config
    const canvas: Canvas
    var lastVideoTime: real
    var lastObjectDrawTime: real
    var lastProcessingTimeDrawTime: real
    var detectionsSinceLastRefresh: nat

    ghost function State(): LoopState
      reads this
    {
      LoopState(lastVideoTime, lastObjectDrawTime, lastProcessingTimeDrawTime, detectionsSinceLastRefresh)
    }

    constructor (config: Config, canvas: Canvas)
      ensures this.config == config && this.canvas == canvas
      ensures State() == Initial
    {
      this.config := config;
      this.canvas := canvas;
      lastVideoTime := -1.0;
      lastObjectDrawTime := -1.0;
      lastProcessingTimeDrawTime := -1.0;
      detectionsSinceLastRefresh := 0;
    }

    /** detectLoop, one animation frame: returns what it did. */
    method Tick(f: Frame) returns (actions: seq<Action>)
      requires f.position != lastVideoTime && f.endTime - lastObjectDrawTime > config.drawObjectsInterval
               ==> AllDrawable(f.detections)
      modifies this, canvas
      ensures State() == Step(config, old(State()), f).next
      ensures actions == Step(config, old(State()), f).actions
      ensures canvas.log == old(canvas.log) + CanvasOutput(canvas.width, canvas.height, actions)
    {
      actions := [];
      if f.position != lastVideoTime {
        ghost var s0 := State();
        var startTime := f.startTime;
        ghost var c0 := canvas.log;
        assert c0 == old(canvas.log) + CanvasOutput(canvas.width, canvas.height, []);
        ShowStep(canvas.width, canvas.height, old(canvas.log), [], RanDetector(startTime), c0, c0 + []);
        actions := [RanDetector(startTime)];
        detectionsSinceLastRefresh := detectionsSinceLastRefresh + 1;
        ghost var r1 := Detect(s0, f);
        assert State() == r1.next && actions == r1.actions;
        actions := RedrawIfDue(f, old(canvas.log), actions);
        ghost var r2 := MaybeDrawObjects(config, r1, f);
        assert State() == r2.next && actions == r2.actions;
        actions := ReportIfDue(f, old(canvas.log), actions);
        assert State() == MaybeDrawProcessingTime(config, r2, f).next;
        lastVideoTime := f.position;
      }
    }

    /** The redraw stage of a tick: the overlay of what the detector
        returned, if more than the interval has passed since the last one. */
    method RedrawIfDue(f: Frame, ghost start: seq<Command>, actions: seq<Action>) returns (actions': seq<Action>)
      requires f.endTime - lastObjectDrawTime > config.drawObjectsInterval ==> AllDrawable(f.detections)
      requires canvas.log == start + CanvasOutput(canvas.width, canvas.height, actions)
      modifies this, canvas
      ensures StepResult(State(), actions') == MaybeDrawObjects(config, StepResult(old(State()), actions), f)
      ensures canvas.log == start + CanvasOutput(canvas.width, canvas.height, actions')
    {
      actions' := actions;
      if f.endTime - lastObjectDrawTime > config.drawObjectsInterval {
        ghost var c1 := canvas.log;
        canvas.DrawObjects(f.detections);
        ShowStep(canvas.width, canvas.height, start, actions, DrewObjects(f.endTime, f.detections), c1, canvas.log);
        actions' := actions + [DrewObjects(f.endTime, f.detections)];
        lastObjectDrawTime := f.endTime;
      }
    }

    /** The report stage of a tick: the mean time per detection since the
        last report, if more than its interval has passed; the count restarts. */
    method ReportIfDue(f: Frame, ghost start: seq<Command>, actions: seq<Action>) returns (actions': seq<Action>)
      requires detectionsSinceLastRefresh >= 1
      requires canvas.log == start + CanvasOutput(canvas.width, canvas.height, actions)
      modifies this
      ensures StepResult(State(), actions') == MaybeDrawProcessingTime(config, StepResult(old(State()), actions), f)
      ensures canvas.log == start + CanvasOutput(canvas.width, canvas.height, actions')
    {
      actions' := actions;
      if f.endTime - lastProcessingTimeDrawTime > config.drawProcessingTimeInterval {
        var frameAverage := (f.endTime - lastProcessingTimeDrawTime) / (detectionsSinceLastRefresh as real);
        ShowStep(canvas.width, canvas.height, start, actions, DrewProcessingTime(f.endTime, frameAverage),
          canvas.log, canvas.log + []);
        actions' := actions + [DrewProcessingTime(f.endTime, frameAverage)];
        lastProcessingTimeDrawTime := f.endTime;
        detectionsSinceLastRefresh := 0;
      }
    }

    /** The animation-frame loop over a sequence of frames. */
    method RunTicks(frames: seq<Frame>) returns (actions: seq<Action>)
      requires forall i :: 0 <= i < |frames| && RedrawDue(config, Run(config, State(), frames[..i]).next, frames[i])
                 ==> AllDrawable(frames[i].detections)
      modifies this, canvas
      ensures State() == Run(config, old(State()), frames).next
      ensures actions == Run(config, old(State()), frames).actions
      ensures canvas.log == old(canvas.log) + CanvasOutput(canvas.width, canvas.height, actions)
    {
      ghost var s0 := State();
      actions := [];
      var i := 0;
      while i < |frames|
        invariant 0 <= i <= |frames|
        invariant State() == Run(config, s0, frames[..i]).next
        invariant actions == Run(config, s0, frames[..i]).actions
        invariant canvas.log == old(canvas.log) + CanvasOutput(canvas.width, canvas.height, actions)
      {
        ghost var logBefore := canvas.log;
        var tickActions := Tick(frames[i]);
        RunStep(config, s0, frames, i);
        CanvasOutputConcat(canvas.width, canvas.height, actions, tickActions);
        ConcatAssoc(old(canvas.log), CanvasOutput(canvas.width, canvas.height, actions),
          CanvasOutput(canvas.width, canvas.height, tickActions));
        actions := actions + tickActions;
        i := i + 1;
      }
      WholePrefix(frames);
    }
  }
}
