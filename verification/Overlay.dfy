/** The detection overlay: the callbacks that connect one stream, the analytics session and one view model. */
module Overlay {
  import opened Common
  import opened Sequences
  import opened Analytics
  import opened Stream

  /** 750 milliseconds in nanoseconds. */
  const MAX_AGE: int := 750_000_000

  datatype OverlayState = OverlayState(
    runId: nat,
    generation: nat,
    lastRevision: nat,
    failed: bool,
    displayedFrameTime: Option<int>,
    timerActive: bool,
    shown: Option<AnalyticsResult>)  // what the view model displays

  const NO_OVERLAY := OverlayState(0, 0, 0, false, None, true, None)

  /** What a callback can see of the stream and the view model. */
  datatype View = View(streamAlive: bool, viewAlive: bool, state: ConnectionState, runId: nat, now: int)

  predicate TooOld(decodeTime: int, now: int) {
    now - decodeTime > MAX_AGE
  }

  // ----- effect of each callback

  function AfterError(o: OverlayState, v: View): OverlayState {
    o.(failed := true, timerActive := false, shown := if v.viewAlive then None else o.shown)
  }

  /** The result may be displayed now. */
  predicate Displayable(o: OverlayState, r: AnalyticsResult, v: View) {
    && v.streamAlive && v.viewAlive
    && v.state == Connected
    && r.identity.streamRunId == v.runId
    && r.identity.generation == o.generation
    && !TooOld(r.decodeTime, v.now)
  }

  function AfterResult(o: OverlayState, result: Option<AnalyticsResult>, v: View): OverlayState {
    if result.None? || !Displayable(o, result.value, v) then o
    else o.(displayedFrameTime := Some(result.value.decodeTime),
            shown := if result.value.imageWidth <= 0 || result.value.imageHeight <= 0 then None else result)
  }

  /** How a timer tick goes on after its first checks. */
  datatype Plan = Abandon | Ignore | SwitchOff | SwitchOn | Look

  function Expire(o: OverlayState, now: int): OverlayState {
    if o.displayedFrameTime.Some? && TooOld(o.displayedFrameTime.value, now)
    then o.(shown := None, displayedFrameTime := None)
    else o
  }

  function PlanOf(o: OverlayState, v: View): Plan {
    if !v.streamAlive || !v.viewAlive then Abandon
    else if o.failed then Ignore
    else if v.runId == 0 || v.state != Connected then SwitchOff
    else if o.runId != v.runId then SwitchOn
    else Look
  }

  /** The overlay when the plan is made and the session has been switched; `generation` is its new activation. */
  function AfterPlan(o: OverlayState, v: View, generation: nat): OverlayState {
    match PlanOf(o, v)
    case Abandon => o.(timerActive := false)
    case Ignore => o
    case SwitchOff => o.(shown := None, runId := 0, lastRevision := 0, displayedFrameTime := None)
    case SwitchOn =>
      o.(shown := None, generation := generation, runId := v.runId, lastRevision := 0, displayedFrameTime := None)
    case Look => Expire(o, v.now)
  }

  predicate IsNews(o: OverlayState, snapshot: Snapshot, runId: nat) {
    snapshot.valid && snapshot.streamRunId == runId && snapshot.revision != o.lastRevision
  }

  function FrameOf(o: OverlayState, snapshot: Snapshot): Frame {
    Frame(Identity(snapshot.streamRunId, o.generation, snapshot.revision), snapshot.decodeTime, snapshot.image)
  }

  // ----- what the callbacks mean, field by field

  /** A result is displayed exactly when stream, run, activation and age allow; one of an empty image clears. */
  lemma ResultMeaning(o: OverlayState, r: AnalyticsResult, v: View)
    ensures var t := AfterResult(o, Some(r), v);
            if && v.streamAlive && v.viewAlive && v.state == Connected && r.identity.streamRunId == v.runId
               && r.identity.generation == o.generation && v.now - r.decodeTime <= 750_000_000
            then && t.displayedFrameTime == Some(r.decodeTime)
                 && t.shown == (if r.imageWidth <= 0 || r.imageHeight <= 0 then None else Some(r))
                 && t.(displayedFrameTime := o.displayedFrameTime, shown := o.shown) == o
            else t == o
    ensures AfterResult(o, None, v) == o
  {
  }

  /** The five ways of a tick. */
  lemma TickMeaning(o: OverlayState, v: View, generation: nat)
    ensures var t, plan := AfterPlan(o, v, generation), PlanOf(o, v);
            if !v.streamAlive || !v.viewAlive then plan == Abandon && t == o.(timerActive := false)
            else if o.failed then plan == Ignore && t == o
            else if v.runId == 0 || v.state != Connected then
              && plan == SwitchOff && t.shown == None && t.runId == 0 && t.lastRevision == 0
              && t.displayedFrameTime == None && t.generation == o.generation
            else if v.runId != o.runId then
              && plan == SwitchOn && t.shown == None && t.runId == v.runId && t.generation == generation
              && t.lastRevision == 0 && t.displayedFrameTime == None
            else
              && plan == Look && t.runId == o.runId && t.generation == o.generation && t.lastRevision == o.lastRevision
              && if o.displayedFrameTime.Some? && v.now - o.displayedFrameTime.value > 750_000_000
                 then t.shown == None && t.displayedFrameTime == None else t == o
  {
  }

  class OverlayClient {
    var runId: nat
    var generation: nat
    var lastRevision: nat
    var failed: bool
    var displayedFrameTime: Option<int>
    var timerActive: bool
    var shown: Option<AnalyticsResult>
    const analytics: AnalyticsSession

    ghost function Overlay(): OverlayState
      reads this
    {
      OverlayState(runId, generation, lastRevision, failed, displayedFrameTime, timerActive, shown)
    }

    constructor (analytics: AnalyticsSession)
      ensures Overlay() == NO_OVERLAY && this.analytics == analytics
    {
      runId, generation, lastRevision, failed := 0, 0, 0, false;
      displayedFrameTime, timerActive, shown := None, true, None;
      this.analytics := analytics;
    }

    method ClearDetections()
      modifies this`shown
      ensures shown == None
    {
      shown := None;
    }

    method UpdateDetections(result: AnalyticsResult)
      modifies this`shown
      ensures shown == if result.imageWidth <= 0 || result.imageHeight <= 0 then None else Some(result)
    {
      if result.imageWidth <= 0 || result.imageHeight <= 0 {
        ClearDetections();
        return;
      }
      shown := Some(result);
    }

    /** The view model's slot for a change of the connection state. */
    method OnStateChanged(state: ConnectionState)
      modifies this`shown
      ensures shown == if state == Connected then old(shown) else None
    {
      if state != Connected {
        ClearDetections();
      }
    }

    /** The view model's slot for the end of the streaming session. */
    method OnSessionDestroyed()
      modifies this`shown
      ensures shown == None
    {
      ClearDetections();
    }

    method OnError(v: View)
      modifies this
      ensures Overlay() == AfterError(old(Overlay()), v)
      ensures failed && !timerActive && shown == if v.viewAlive then None else old(shown)
    {
      failed := true;
      timerActive := false;
      if v.viewAlive {
        ClearDetections();
      }
    }

    method OnResult(v: View)
      modifies this, analytics.results
      ensures analytics.View() == AfterTakeLatest(old(analytics.View()))
      ensures var l := old(analytics.results.latest);
              var taken := if l.Some? && old(Accepts(analytics.View(), l.value.identity)) then l else None;
              Overlay() == AfterResult(old(Overlay()), taken, v)
    {
      var result := analytics.TakeLatestResult();
      if result.None? || !v.streamAlive || !v.viewAlive {
        return;
      }
      var age := v.now - result.value.decodeTime;
      if v.state != Connected || result.value.identity.streamRunId != v.runId ||
         result.value.identity.generation != generation || age > MAX_AGE
      {
        return;
      }
      displayedFrameTime := Some(result.value.decodeTime);
      UpdateDetections(result.value);
    }

    /** The tick up to the point where it looks at the current frame; `look` tells whether it gets there. */
    method OnTimeout(v: View) returns (ok: bool, look: bool)
      modifies this, analytics, analytics.frames, analytics.results
      ensures var before := old(analytics.View());
              var plan := old(PlanOf(Overlay(), v));
              && ok == !(plan.SwitchOn? && before.generation == MAX_U64)
              && (ok ==>
                    && Overlay() == AfterPlan(old(Overlay()), v, analytics.generation)
                    && look == (plan.SwitchOn? || plan.Look?)
                    && analytics.View() == match plan
                                           case Abandon => AfterDisable(before)
                                           case SwitchOff => AfterDisable(before)
                                           case SwitchOn => AfterEnable(before, v.runId)
                                           case _ => before)
    {
      if !v.streamAlive || !v.viewAlive {
        timerActive := false;
        var _ := analytics.Disable();
        return true, false;
      }
      if failed {
        return true, false;
      }
      if displayedFrameTime.Some? && v.now - displayedFrameTime.value > MAX_AGE {
        ClearDetections();
        displayedFrameTime := None;
      }
      if v.runId == 0 || v.state != Connected {
        var _ := analytics.Disable();
        ClearDetections();
        runId := 0;
        lastRevision := 0;
        displayedFrameTime := None;
        return true, false;
      }
      if runId != v.runId {
        ClearDetections();
        var activation, _ := analytics.Enable(v.runId);
        if activation.InvalidArgument? {
          return false, false;
        }
        generation := activation.value;
        runId := v.runId;
        lastRevision := 0;
        displayedFrameTime := None;
      }
      return true, true;
    }

    /** The rest of the tick. */
    method OnFrame(snapshot: Snapshot, current: nat)
      modifies this, analytics.frames
      ensures var o := old(Overlay());
              if IsNews(o, snapshot, current)
              then && Overlay() == o.(lastRevision := snapshot.revision)
                   && analytics.View() == AfterSubmit(old(analytics.View()), FrameOf(o, snapshot))
              else Overlay() == o && analytics.View() == old(analytics.View())
      ensures snapshot.valid && snapshot.streamRunId == current && snapshot.revision != old(lastRevision) ==>
                && lastRevision == snapshot.revision
                && analytics.frames.pending
                   == if && !snapshot.image.isNull && snapshot.image.isRgb888 && analytics.enabled
                         && analytics.streamRunId == current && analytics.generation == generation
                      then Some(Frame(Identity(current, generation, snapshot.revision),
                                      snapshot.decodeTime, snapshot.image))
                      else old(analytics.frames.pending)
      ensures !(snapshot.valid && snapshot.streamRunId == current && snapshot.revision != old(lastRevision)) ==>
                lastRevision == old(lastRevision) && analytics.frames.pending == old(analytics.frames.pending)
    {
      if !snapshot.valid || snapshot.streamRunId != current || snapshot.revision == lastRevision {
        return;
      }
      lastRevision := snapshot.revision;
      var frame := Frame(Identity(snapshot.streamRunId, generation, snapshot.revision),
                         snapshot.decodeTime, snapshot.image);
      var _ := analytics.SubmitFrame(frame);
    }
  }
}
