/**
 What an undisturbed thread of the activation protocol brings about. The safety statements of AnalyticsProtocol would
 also hold of a session that did nothing; these say that frames, results and failures get through.
 */
module AnalyticsProgress {
  import opened Common
  import opened Sequences
  import opened Suppression
  import opened Analytics
  import opened AnalyticsProtocol

  // ----- the worker

  /** Up to `n` moves of the worker alone, all calls returning normally. */
  function Worked(s: System, d: seq<Detection>, n: nat): System
    decreases n
  {
    if n == 0 || !Enabled(s, Work(true, d)) then s else Worked(Next(s, Work(true, d)), d, n - 1)
  }

  predicate IsCurrent(s: State, id: Identity) {
    s.enabled && id.streamRunId == s.streamRunId && id.generation == s.generation
  }

  /** The worker runs, and the state around it is that of `s`. */
  predicate Surrounds(s: System, t: System) {
    t.state == s.state && t.gui == s.gui && !t.stop
  }

  lemma {:induction false} WorkedInParts(s: System, d: seq<Detection>, m: nat, n: nat)
    ensures Worked(s, d, m + n) == Worked(Worked(s, d, m), d, n)
    decreases m
  {
    hide Next, Enabled;
    if m > 0 {
      if Enabled(s, Work(true, d)) {
        WorkedInParts(Next(s, Work(true, d)), d, m - 1, n);
      } else {
        WorkedNowhere(s, d, n);
      }
    }
  }

  lemma WorkedNowhere(s: System, d: seq<Detection>, n: nat)
    requires !Enabled(s, Work(true, d))
    ensures Worked(s, d, n) == s
  {
  }

  lemma FrameIsTaken(s: System, d: seq<Detection>, f: Frame)
    requires s.worker.LoopHead? && !s.stop && s.state.pending == Some(f)
    ensures var t := Worked(s, d, 2);
            t.worker == Taken(f) && t.state == s.state.(pending := None) && t.gui == s.gui && !t.stop
  {
    var t := Next(s, Work(true, d));
    assert Worked(s, d, 2) == Worked(t, d, 1) == Next(t, Work(true, d));
  }

  lemma ModelIsLoaded(s: System, d: seq<Detection>, f: Frame)
    requires s.worker == Taken(f) && !s.stop && IsCurrent(s.state, f.identity)
    ensures var t := Worked(s, d, 2); t.worker == Loaded(f) && t.detector && Surrounds(s, t)
  {
    var t := Next(s, Work(true, d));
    assert Worked(s, d, 2) == Worked(t, d, 1) == Next(t, Work(true, d));
  }

  lemma FrameIsExamined(s: System, d: seq<Detection>, f: Frame)
    requires s.worker == Loaded(f) && !s.stop && IsCurrent(s.state, f.identity)
    ensures var t := Worked(s, d, 2); t.worker == Detecting(f) && Surrounds(s, t)
  {
    var t := Next(s, Work(true, d));
    assert Worked(s, d, 2) == Worked(t, d, 1) == Next(t, Work(true, d));
  }

  predicate IsResultOf(r: AnalyticsResult, f: Frame, d: seq<Detection>) {
    && r.identity == f.identity && r.decodeTime == f.decodeTime && r.detections == d
    && r.imageWidth == f.image.width && r.imageHeight == f.image.height
  }

  lemma ResultIsReady(s: System, d: seq<Detection>, f: Frame)
    requires s.worker == Detecting(f) && !s.stop
    ensures var t := Worked(s, d, 2);
            t.worker.Publishing? && IsResultOf(t.worker.result, f, d) && Surrounds(s, t)
  {
    var t := Next(s, Work(true, d));
    assert Worked(s, d, 2) == Worked(t, d, 1) == Next(t, Work(true, d));
  }

  lemma ResultIsPublished(s: System, d: seq<Detection>)
    requires s.worker.Publishing? && IsCurrent(s.state, s.worker.result.identity)
    ensures var t := Worked(s, d, 1);
            && t.worker.LoopHead? && t.state.latest == Some(s.worker.result) && t.state.notificationPending
            && t.state.posted == (if s.state.notificationPending then s.state.posted else s.state.posted + [Notify])
            && t.gui == s.gui && t.state.pending == s.state.pending
  {
    assert Worked(s, d, 1) == Next(s, Work(true, d));
  }

  lemma FrameIsUnderWay(s: System, d: seq<Detection>, f: Frame)
    requires s.worker.LoopHead? && !s.stop && s.state.pending == Some(f) && IsCurrent(s.state, f.identity)
    ensures var t := Worked(s, d, 6);
            t.worker == Detecting(f) && t.state == s.state.(pending := None) && !t.stop
  {
    FrameIsTaken(s, d, f);
    var s2 := Worked(s, d, 2);
    ModelIsLoaded(s2, d, f);
    var s4 := Worked(s2, d, 2);
    FrameIsExamined(s4, d, f);
    hide Worked, Next, Enabled;
    WorkedInParts(s, d, 2, 4);
    WorkedInParts(s2, d, 2, 2);
  }

  /** Nine moves of an undisturbed worker turn any pending frame of the activation into the latest result. */
  lemma PendingFrameIsAnalysed(s: System, d: seq<Detection>, f: Frame)
    requires s.worker.LoopHead? && !s.stop && s.state.pending == Some(f) && IsCurrent(s.state, f.identity)
    ensures var t := Worked(s, d, 9);
            && t.worker.LoopHead? && t.state.pending == None
            && t.state.latest.Some? && IsResultOf(t.state.latest.value, f, d)
            && t.state.notificationPending
            && t.state.posted == (if s.state.notificationPending then s.state.posted else s.state.posted + [Notify])
  {
    FrameIsUnderWay(s, d, f);
    var s6 := Worked(s, d, 6);
    ResultIsReady(s6, d, f);
    var s8 := Worked(s6, d, 2);
    ResultIsPublished(s8, d);
    hide Worked, IsResultOf, Next, Enabled;
    WorkedInParts(s, d, 6, 3);
    WorkedInParts(s6, d, 2, 1);
  }

  /** A call that throws costs the detector; if the activation is still on, it ends and its failure is posted. */
  lemma ThrowingCallIsReported(s: System, d: seq<Detection>, f: Frame)
    requires s.worker == Detecting(f) || (s.worker == Loading(f) && !s.detector)
    ensures var failing := Next(s, Work(false, d));
            && failing.worker == Failing(f) && !failing.detector && failing.state == s.state
            && var t := Next(failing, Work(true, d));
               && t.worker.LoopHead? && !t.detector
               && if IsCurrent(s.state, f.identity)
                  then && !t.state.enabled && t.state.pending == None && t.state.latest == None
                       && t.state.posted == s.state.posted + [Fail(f.identity)]
                  else t.state == s.state
  {
  }

  /** Loading, detecting and publishing begin only for frames of the activation that is on at that moment. */
  lemma OnlyCurrentFramesAreWorkedOn(s: System, step: Step)
    requires Enabled(s, step)
    ensures var t := Next(s, step);
            && (t.worker.Loading? && !s.worker.Loading? ==> IsCurrent(s.state, t.worker.frame.identity))
            && (t.effort.detects > s.effort.detects ==>
                  t.worker.Detecting? && t.detector == s.detector && IsCurrent(s.state, t.worker.frame.identity))
            && (t.effort.publications > s.effort.publications ==>
                  || (s.worker.Publishing? && IsCurrent(s.state, s.worker.result.identity))
                  || (s.worker.Failing? && IsCurrent(s.state, s.worker.frame.identity)))
  {
    hide NextContinue;
    if step.Work? {
      hide AfterTakeFrame, AfterPublish, AfterFailure;
    } else {
      hide NextWork;
    }
  }

  // ----- the GUI thread

  /** The first queued closure starts, and the GUI thread goes on `n` times. */
  function Handled(s: System, n: nat): System
    requires Enabled(s, Dispatch)
  {
    if n == 0 then Next(s, Dispatch)
    else
      var t := Handled(s, n - 1);
      if t.gui == [] then t else Next(t, Continue)
  }

  /** A queued notification reaches the listeners of resultAvailable if there is something to announce. */
  lemma NotificationReachesListeners(s: System)
    requires s.gui == [] && s.state.posted != [] && s.state.posted[0] == Notify
    requires s.state.enabled && s.state.latest.Some?
    ensures var t := Handled(s, 2);
            && t.gui == [ResultSlots]
            && t.state == s.state.(posted := s.state.posted[1..], notificationPending := false)
  {
    assert Handled(s, 0).gui == [NotifyStarted];
    assert Handled(s, 1).gui == [AnnounceResult];
  }

  predicate Stands(s: State, id: Identity) {
    !s.enabled && s.streamRunId == id.streamRunId && s.generation == id.generation
  }

  /** A queued failure that still stands is announced by enabledChanged, and listeners find the session off ... */
  lemma FailureReachesListeners(s: System, id: Identity)
    requires s.gui == [] && s.state.posted != [] && s.state.posted[0] == Fail(id) && Stands(s.state, id)
    ensures var t := Handled(s, 2);
            && t.gui == [FailureSlots(id)] && !t.signals.observed
            && t.state == s.state.(posted := s.state.posted[1..])
  {
    assert Handled(s, 0).gui == [FailStarted(id)];
    assert Handled(s, 1).gui == [AnnounceFailure(id)];
  }

  /** ... and then reported by errorOccurred, unless a slot has switched the session on again. */
  lemma ErrorReachesListeners(s: System, id: Identity)
    requires s.gui == [FailureSlots(id)]
    ensures var t := Next(s, Continue);
            if Stands(s.state, id)
            then && t.gui == [AnnounceError(id)]
                 && Next(t, Continue).gui == [ErrorSlots]
                 && Next(t, Continue).signals.errors == s.signals.errors + [id]
            else t.gui == [] && t.signals.errors == s.signals.errors
  {
  }
}
