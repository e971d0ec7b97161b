/**
 The whole application around one camera: the streaming protocol, the analytics protocol and the overlay that
 connects them, in every interleaving of the GUI thread, the streaming thread and the analytics worker.
 */
module OverlayProtocol {
  import opened Common
  import opened Sequences
  import opened Geometry
  import opened Suppression
  import opened Analytics
  import opened Stream
  import opened Overlay
  import A = AnalyticsProtocol
  import S = StreamProtocol
  import W = StreamWorker

  /** Where the GUI thread stands in a timer tick that began at time `now`. */
  datatype Tick =
    | Resting
    | Looking(now: int, run: nat)
    | Submitting(now: int, frame: Frame)
    | Finishing(now: int, attended: bool)  // `attended`: stream and view model were found alive

  datatype World = World(
    session: A.System,
    stream: S.System,
    overlay: OverlayState,
    streamAlive: bool,
    viewAlive: bool,
    tick: Tick,
    clock: int)

  function Start(maxRetries: nat): World {
    World(A.START, S.Start(maxRetries), NO_OVERLAY, true, true, Resting, 0)
  }

  datatype Step =
    | Worker(ok: bool, detections: seq<Detection>)
    | Dispatch
    | Continue
    | ResultSlot
    | ErrorSlot
    | Timeout
    | Proceed
    | Streaming(step: S.Step)
    | DestroyStream
    | DestroyView
    | Elapse(time: nat)

  function ViewOf(w: World): View {
    View(w.streamAlive, w.viewAlive, w.stream.session.state, StreamRunId(w.stream.session), w.clock)
  }

  predicate GuiResting(w: World) {
    w.session.gui == [] && w.tick.Resting?
  }

  predicate Enabled(w: World, step: Step) {
    match step
    case Worker(ok, d) => A.Enabled(w.session, A.Work(ok, d))
    case Dispatch => GuiResting(w) && w.session.state.posted != []
    case Continue => w.session.gui != [] && !Last(w.session.gui).ResultSlots? && !Last(w.session.gui).ErrorSlots?
    case ResultSlot => w.session.gui != [] && Last(w.session.gui).ResultSlots?
    case ErrorSlot => w.session.gui != [] && Last(w.session.gui).ErrorSlots?
    case Timeout =>
      && GuiResting(w) && w.overlay.timerActive
      && (PlanOf(w.overlay, ViewOf(w)).SwitchOn? ==> w.session.state.generation < MAX_U64)
    case Proceed => w.session.gui == [] && !w.tick.Resting?
    case Streaming(s) =>
      && w.streamAlive && S.Enabled(w.stream, s)
      && (S.OnGuiThread(s) ==> GuiResting(w))
      && (s.PublishFrame? ==> s.decodeTime == w.clock)
    case DestroyStream => GuiResting(w) && w.streamAlive
    case DestroyView => GuiResting(w) && w.viewAlive
    case Elapse(_) => true
  }

  function Next(w: World, step: Step): World
    requires Enabled(w, step)
  {
    match step
    case Worker(ok, d) => w.(session := A.Next(w.session, A.Work(ok, d)))
    case Dispatch => w.(session := A.Next(w.session, A.Dispatch))
    case Continue => w.(session := A.Next(w.session, A.Continue))
    case ResultSlot => NextResult(w)
    case ErrorSlot => w.(overlay := AfterError(w.overlay, ViewOf(w)), session := A.Next(w.session, A.Continue))
    case Timeout => NextTimeout(w)
    case Proceed => NextProceed(w)
    case Streaming(s) => NextStreaming(w, s)
    case DestroyStream => w.(streamAlive := false, overlay := w.overlay.(shown := None))
    case DestroyView => w.(viewAlive := false, overlay := w.overlay.(shown := None))
    case Elapse(time) => w.(clock := w.clock + time)
  }

  /** The slot takes the result, shows it if it may, and returns. */
  function NextResult(w: World): World
    requires Enabled(w, ResultSlot)
  {
    var l := w.session.state.latest;
    var taken := if l.Some? && Accepts(w.session.state, l.value.identity) then l else None;
    w.(session := A.Next(A.Next(w.session, A.TakeLatest), A.Continue),
       overlay := AfterResult(w.overlay, taken, ViewOf(w)))
  }

  function SwitchSession(w: World): A.System
    requires Enabled(w, Timeout)
  {
    match PlanOf(w.overlay, ViewOf(w))
    case Abandon => A.Next(w.session, A.Disable)
    case SwitchOff => A.Next(w.session, A.Disable)
    case SwitchOn => A.Next(w.session, A.Enable(ViewOf(w).runId))
    case _ => w.session
  }

  function NextTimeout(w: World): World
    requires Enabled(w, Timeout)
  {
    var v := ViewOf(w);
    var plan := PlanOf(w.overlay, v);
    var session := SwitchSession(w);
    w.(session := session,
       overlay := AfterPlan(w.overlay, v, session.state.generation),
       tick := if plan.SwitchOn? || plan.Look? then Looking(v.now, v.runId) else Finishing(v.now, !plan.Abandon?))
  }

  function NextProceed(w: World): World
    requires Enabled(w, Proceed)
  {
    match w.tick
    case Looking(now, run) =>
      var snapshot := CurrentFrame(w.stream.session, w.stream.exchange);
      if IsNews(w.overlay, snapshot, run)
      then w.(overlay := w.overlay.(lastRevision := snapshot.revision),
              tick := Submitting(now, FrameOf(w.overlay, snapshot)))
      else w.(tick := Finishing(now, true))
    case Submitting(now, frame) =>
      w.(session := A.Next(w.session, A.Submit(frame)), tick := Finishing(now, true))
    case Finishing(_, _) => w.(tick := Resting)
  }

  /** A change of the connection state away from Connected also clears the view. */
  function NextStreaming(w: World, s: S.Step): World
    requires Enabled(w, Streaming(s))
  {
    var t := S.Next(w.stream, s);
    if t.session.state != w.stream.session.state && t.session.state != Connected && w.viewAlive
    then w.(stream := t, overlay := w.overlay.(shown := None))
    else w.(stream := t)
  }

  ghost predicate Run(w: World, steps: seq<Step>, t: World)
    decreases |steps|
  {
    if steps == [] then w == t
    else Enabled(w, steps[0]) && Run(Next(w, steps[0]), steps[1..], t)
  }

  ghost predicate Reachable(t: World) {
    exists steps :: Run(Start(t.stream.max), steps, t)
  }

  // ----- invariants

  /** The GUI thread runs either a closure or a tick, and inside a tick only a call into the session. */
  ghost predicate Shape(w: World) {
    && |w.session.gui| <= 1
    && (w.session.gui != [] ==> (w.session.gui[0].InCall() <==> !w.tick.Resting?))
    && (w.session.gui != [] && w.session.gui[0].ErrorSlots? ==> !w.session.state.enabled)
  }

  /** The overlay knows which activation is current. */
  ghost predicate Agreed(w: World) {
    && w.overlay.generation == w.session.state.generation
    && (w.overlay.runId == 0 ==> !w.session.state.enabled)
    && (w.overlay.runId != 0 ==> w.overlay.runId == w.session.state.streamRunId)
  }

  ghost predicate ShownBelongs(w: World) {
    var o := w.overlay;
    o.shown.Some? ==>
      && w.streamAlive && w.viewAlive && !o.failed
      && o.displayedFrameTime == Some(o.shown.value.decodeTime)
      && o.runId != 0
      && o.shown.value.identity.streamRunId == o.runId
      && o.shown.value.identity.generation == o.generation
  }

  ghost predicate FailureFinal(w: World) {
    w.overlay.failed ==> !w.overlay.timerActive && w.tick.Resting? && !w.session.state.enabled
  }

  ghost predicate StreamCurrent(w: World) {
    w.stream.session.state == Connected && StreamRunId(w.stream.session) == w.overlay.runId != 0
  }

  ghost predicate ShownFresh(w: World, now: int) {
    w.overlay.shown.Some? ==> !TooOld(w.overlay.shown.value.decodeTime, now)
  }

  ghost predicate TickSound(w: World) {
    match w.tick
    case Resting => true
    case Looking(now, run) => StreamCurrent(w) && w.overlay.runId == run && ShownFresh(w, now)
    case Submitting(now, frame) =>
      && StreamCurrent(w) && ShownFresh(w, now)
      && frame.identity == Identity(w.overlay.runId, w.overlay.generation, w.overlay.lastRevision)
    case Finishing(now, attended) =>
      attended && w.overlay.shown.Some? ==> StreamCurrent(w) && ShownFresh(w, now)
  }

  predicate Precedes(a: Identity, b: Identity) {
    a.generation < b.generation || (a.generation == b.generation && a.revision < b.revision)
  }

  ghost predicate FramesRise(frames: seq<Frame>) {
    forall i, j :: 0 <= i < j < |frames| ==> Precedes(frames[i].identity, frames[j].identity)
  }

  /** A frame accepted next will come after `id`. */
  ghost predicate Behind(w: World, id: Identity) {
    && id.generation <= w.overlay.generation
    && (id.generation == w.overlay.generation && w.overlay.runId != 0 ==>
          && id.revision <= w.overlay.lastRevision
          && (w.tick.Submitting? ==> id.revision < w.overlay.lastRevision))
  }

  ghost predicate FramesInOrder(w: World) {
    && FramesRise(w.session.ledger.accepted)
    && (forall i :: 0 <= i < |w.session.ledger.accepted| ==> Behind(w, w.session.ledger.accepted[i].identity))
    && w.overlay.lastRevision <= w.stream.exchange.revision
  }

  ghost predicate Inv(w: World) {
    && A.Inv(w.session) && S.Inv(w.stream)
    && Shape(w) && Agreed(w) && ShownBelongs(w) && FailureFinal(w) && TickSound(w) && FramesInOrder(w)
  }

  lemma StartIsGood(max: nat)
    ensures Inv(Start(max))
  {
    A.StartIsGood();
    S.StartIsGood(max);
  }

  // ----- what the steps of the two protocols leave alone

  lemma WorkFrame(s: A.System, ok: bool, d: seq<Detection>)
    requires A.Enabled(s, A.Work(ok, d))
    ensures var t := A.Next(s, A.Work(ok, d));
            && t.gui == s.gui
            && t.state.generation == s.state.generation
            && t.state.streamRunId == s.state.streamRunId
            && (t.state.enabled ==> s.state.enabled)
            && t.ledger.accepted == s.ledger.accepted
  {
    hide A.NextLocal;
  }

  lemma ContinueFrame(s: A.System)
    requires |s.gui| == 1
    ensures var t := A.Next(s, A.Continue);
            && |t.gui| <= 1
            && (t.gui != [] ==> t.gui[0].InCall() == s.gui[0].InCall())
            && (t.gui != [] && t.gui[0].ErrorSlots? ==> s.gui[0].AnnounceError?)
            && t.state.generation == s.state.generation
            && t.state.streamRunId == s.state.streamRunId
            && t.state.enabled == s.state.enabled
            && t.ledger.accepted == s.ledger.accepted
  {
    hide A.NextContinue;
    ContinueGui(s);
  }

  lemma ContinueGui(s: A.System)
    requires |s.gui| == 1
    ensures var t := A.NextContinue(s);
            && |t.gui| <= 1
            && (t.gui != [] ==> t.gui[0].InCall() == s.gui[0].InCall())
            && (t.gui != [] && t.gui[0].ErrorSlots? ==> s.gui[0].AnnounceError?)
  {
    hide FailureStands, AfterAcknowledge;
  }

  lemma TakeKeepsGui(s: A.System)
    requires A.Enabled(s, A.TakeLatest)
    ensures A.Next(s, A.TakeLatest).gui == s.gui
  {
  }

  /** What the session is after the slot of resultAvailable. */
  lemma ResultFrame(w: World)
    requires Enabled(w, ResultSlot) && |w.session.gui| == 1
    ensures var t := NextResult(w).session;
            && t.gui == []
            && t.state == AfterTakeLatest(w.session.state)
            && t.ledger.accepted == w.session.ledger.accepted
  {
  }

  /** What the session is after a tick has switched it. */
  lemma SwitchFrame(w: World)
    requires Enabled(w, Timeout)
    ensures var t := SwitchSession(w);
            var plan := PlanOf(w.overlay, ViewOf(w));
            && |t.gui| <= 1 && (t.gui != [] ==> t.gui[0].InCall())
            && t.ledger.accepted == w.session.ledger.accepted
            && (plan.Abandon? || plan.SwitchOff? ==> t.state == AfterDisable(w.session.state))
            && (plan.SwitchOn? ==> t.state == AfterEnable(w.session.state, ViewOf(w).runId))
            && (plan.Ignore? || plan.Look? ==> t == w.session)
  {
    hide PlanOf;
  }

  /** The streaming thread does not touch what the GUI thread owns. */
  lemma StreamingFrame(s: S.System, step: S.Step)
    requires S.Enabled(s, step)
    ensures var t := S.Next(s, step);
            && (!S.OnGuiThread(step) ==>
                  && t.session.state == s.session.state
                  && StreamRunId(t.session) == StreamRunId(s.session))
            && t.exchange.revision >= s.exchange.revision
  {
  }

  // ----- every step keeps every invariant

  lemma SessionStaysGood(w: World, step: Step)
    requires Enabled(w, step) && A.Inv(w.session)
    ensures A.Inv(Next(w, step).session)
  {
    hide A.Inv, A.Next;
    match step
    case Worker(ok, d) => A.StepKeepsInv(w.session, A.Work(ok, d));
    case Dispatch => A.StepKeepsInv(w.session, A.Dispatch);
    case Continue => A.StepKeepsInv(w.session, A.Continue);
    case ErrorSlot => A.StepKeepsInv(w.session, A.Continue);
    case ResultSlot =>
      A.StepKeepsInv(w.session, A.TakeLatest);
      TakeKeepsGui(w.session);
      A.StepKeepsInv(A.Next(w.session, A.TakeLatest), A.Continue);
    case Timeout => SwitchKeepsSessionGood(w);
    case Proceed =>
      if w.tick.Submitting? {
        A.StepKeepsInv(w.session, A.Submit(w.tick.frame));
      }
    case _ =>
  }

  lemma SwitchKeepsSessionGood(w: World)
    requires Enabled(w, Timeout) && A.Inv(w.session)
    ensures A.Inv(SwitchSession(w))
  {
    hide A.Inv, A.Next, PlanOf;
    match PlanOf(w.overlay, ViewOf(w))
    case SwitchOn => A.StepKeepsInv(w.session, A.Enable(ViewOf(w).runId));
    case Abandon => A.StepKeepsInv(w.session, A.Disable);
    case SwitchOff => A.StepKeepsInv(w.session, A.Disable);
    case _ =>
  }

  lemma StreamStaysGood(w: World, step: Step)
    requires Enabled(w, step) && S.Inv(w.stream)
    ensures S.Inv(Next(w, step).stream)
  {
    hide S.Inv, S.Next, S.Enabled, A.Next, SwitchSession, AfterPlan, AfterResult;
    if step.Streaming? {
      S.StepKeepsInv(w.stream, step.step);
    }
  }

  lemma ErrorsComeWhenOff(s: A.System)
    requires A.Inv(s) && s.gui != [] && Last(s.gui).AnnounceError?
    ensures !s.state.enabled
  {
    assert A.AnnouncedFailureStands(s);
  }

  lemma ShapeStays(w: World, step: Step)
    requires Enabled(w, step) && Shape(w) && A.Inv(w.session)
    ensures Shape(Next(w, step))
  {
    hide A.Inv, A.NextWork, A.NextContinue, SwitchSession, AfterPlan, AfterResult, AfterError, PlanOf, IsNews,
         S.Next, S.Enabled;
    if w.session.gui != [] && Last(w.session.gui).AnnounceError? {
      ErrorsComeWhenOff(w.session);
    }
    match step
    case Worker(ok, d) => WorkFrame(w.session, ok, d);
    case Continue => ContinueFrame(w.session);
    case ErrorSlot => ContinueFrame(w.session);
    case ResultSlot => ResultFrame(w);
    case Timeout => SwitchFrame(w);
    case _ =>
  }

  lemma AgreementStays(w: World, step: Step)
    requires Enabled(w, step) && Shape(w) && Agreed(w)
    ensures Agreed(Next(w, step))
  {
    hide A.Next, SwitchSession, IsNews, Displayable, S.Next, S.Enabled;
    match step
    case Worker(ok, d) => WorkFrame(w.session, ok, d);
    case Continue => ContinueFrame(w.session);
    case ErrorSlot => ContinueFrame(w.session);
    case ResultSlot => ResultFrame(w);
    case Timeout => SwitchFrame(w);
    case Dispatch => DispatchFrame(w.session);
    case Proceed =>
      if w.tick.Submitting? {
        SubmitFrame(w.session, w.tick.frame);
      }
    case _ =>
  }

  lemma DispatchFrame(s: A.System)
    requires A.Enabled(s, A.Dispatch)
    ensures var t := A.Next(s, A.Dispatch);
            && t.state == s.state.(posted := s.state.posted[1..])
            && t.ledger == s.ledger
            && |t.gui| == 1 && !t.gui[0].InCall() && !t.gui[0].ErrorSlots?
  {
  }

  lemma SubmitFrame(s: A.System, f: Frame)
    ensures var t := A.Next(s, A.Submit(f));
            && t.state == AfterSubmit(s.state, f)
            && t.gui == s.gui
            && t.ledger.accepted == if Submittable(s.state, f) then s.ledger.accepted + [f] else s.ledger.accepted
  {
  }

  lemma ShownKeepsBelonging(w: World, step: Step)
    requires Enabled(w, step) && A.Inv(w.session) && Agreed(w) && FailureFinal(w) && ShownBelongs(w)
    ensures ShownBelongs(Next(w, step))
  {
    assert A.MailboxesCurrent(w.session.state);
    hide A.Inv, A.Next, SwitchSession, IsNews, S.Next, S.Enabled;
  }

  lemma FailureStaysFinal(w: World, step: Step)
    requires Enabled(w, step) && Shape(w) && FailureFinal(w)
    ensures FailureFinal(Next(w, step))
  {
    hide A.Next, SwitchSession, IsNews, Displayable, S.Next, S.Enabled;
    match step
    case Worker(ok, d) => WorkFrame(w.session, ok, d);
    case Continue => ContinueFrame(w.session);
    case ErrorSlot => ContinueFrame(w.session);
    case ResultSlot => ResultFrame(w);
    case Timeout => SwitchFrame(w);
    case Dispatch => DispatchFrame(w.session);
    case _ =>
  }

  lemma TickStaysSound(w: World, step: Step)
    requires Enabled(w, step) && Shape(w) && FailureFinal(w) && ShownBelongs(w) && TickSound(w)
    ensures TickSound(Next(w, step))
  {
    hide A.Next, SwitchSession, Displayable, S.Next, S.Enabled;
    match step
    case Streaming(s) => StreamingFrame(w.stream, s);
    case _ =>
  }

  lemma OrderStaysInProceed(w: World)
    requires Enabled(w, Proceed) && TickSound(w) && FramesInOrder(w)
    ensures FramesInOrder(NextProceed(w))
  {
    hide A.Next;
    if w.tick.Submitting? {
      SubmitFrame(w.session, w.tick.frame);
    }
  }

  lemma OrderStaysInTimeout(w: World)
    requires Enabled(w, Timeout) && Agreed(w) && FramesInOrder(w)
    ensures FramesInOrder(NextTimeout(w))
  {
    hide A.Next, SwitchSession;
    SwitchFrame(w);
  }

  lemma OrderStays(w: World, step: Step)
    requires Enabled(w, step) && Shape(w) && Agreed(w) && TickSound(w) && FramesInOrder(w)
    ensures FramesInOrder(Next(w, step))
  {
    hide A.Next, NextTimeout, NextProceed, Displayable, S.Next, S.Enabled;
    match step
    case Worker(ok, d) => WorkFrame(w.session, ok, d);
    case Continue => ContinueFrame(w.session);
    case ErrorSlot => ContinueFrame(w.session);
    case ResultSlot => ResultFrame(w);
    case Timeout => OrderStaysInTimeout(w);
    case Dispatch => DispatchFrame(w.session);
    case Streaming(s) => StreamingFrame(w.stream, s);
    case Proceed => OrderStaysInProceed(w);
    case _ =>
  }

  lemma StepKeepsInv(w: World, step: Step)
    requires Enabled(w, step) && Inv(w)
    ensures Inv(Next(w, step))
  {
    hide A.Inv, S.Inv, Enabled, Next, Shape, Agreed, ShownBelongs, FailureFinal, TickSound, FramesInOrder;
    SessionStaysGood(w, step);
    StreamStaysGood(w, step);
    ShapeStays(w, step);
    AgreementStays(w, step);
    ShownKeepsBelonging(w, step);
    FailureStaysFinal(w, step);
    TickStaysSound(w, step);
    OrderStays(w, step);
  }

  lemma {:induction false} RunKeepsInv(w: World, steps: seq<Step>, t: World)
    requires Inv(w) && Run(w, steps, t)
    ensures Inv(t)
    decreases |steps|
  {
    hide Inv, Next, Enabled;
    if steps != [] {
      StepKeepsInv(w, steps[0]);
      RunKeepsInv(Next(w, steps[0]), steps[1..], t);
    }
  }

  lemma ReachableIsGood(t: World)
    requires Reachable(t)
    ensures Inv(t)
  {
    hide Inv, Run;
    StartIsGood(t.stream.max);
    var steps :| Run(Start(t.stream.max), steps, t);
    RunKeepsInv(Start(t.stream.max), steps, t);
  }

  // ----- what the user sees

  /**
   When a timer tick that found stream and view model alive ends, detections on display belong to the current run,
   which nobody has stopped, and to the current activation; the stream is connected; and they were at most 750
   milliseconds old at that tick.
   */
  lemma OverlayIsCurrentAfterTick(w: World)
    requires Reachable(w) && w.tick.Finishing? && w.tick.attended && w.overlay.shown.Some?
    ensures var shown := w.overlay.shown.value;
            && w.stream.session.run !in w.stream.session.stopped
            && shown.identity.streamRunId == w.stream.session.run
            && shown.identity.generation == w.overlay.generation == w.session.state.generation
            && w.stream.session.state == Connected
            && w.tick.now - shown.decodeTime <= 750_000_000
  {
    ReachableIsGood(w);
    hide A.Inv, S.Inv;
  }

  /** The same holds, at the present time, whenever a result is put on display. */
  lemma OverlayIsCurrentWhenShown(w: World)
    requires Reachable(w) && Enabled(w, ResultSlot)
    requires NextResult(w).overlay.shown != w.overlay.shown && NextResult(w).overlay.shown.Some?
    ensures var shown := NextResult(w).overlay.shown.value;
            && w.stream.session.run !in w.stream.session.stopped
            && shown.identity.streamRunId == w.stream.session.run
            && shown.identity.generation == w.session.state.generation
            && w.stream.session.state == Connected
            && w.clock - shown.decodeTime <= 750_000_000
  {
    ReachableIsGood(w);
    hide A.Inv, S.Inv, A.Next;
  }

  /** Nothing is on display without a living stream and view model, whatever the timer does. */
  lemma NothingShownWithoutStream(w: World)
    requires Reachable(w) && (!w.streamAlive || !w.viewAlive)
    ensures w.overlay.shown == None
  {
    ReachableIsGood(w);
    hide A.Inv, S.Inv;
  }

  lemma {:induction false} FailurePersists(w: World, steps: seq<Step>, t: World)
    requires w.overlay.failed && Run(w, steps, t)
    ensures t.overlay.failed
    decreases |steps|
  {
    if steps != [] {
      FailureSticks(w, steps[0]);
      hide Next, Enabled;
      FailurePersists(Next(w, steps[0]), steps[1..], t);
    }
  }

  lemma FailureSticks(w: World, step: Step)
    requires w.overlay.failed && Enabled(w, step)
    ensures Next(w, step).overlay.failed
  {
    hide A.Next, S.Next, S.Enabled, SwitchSession, Displayable, IsNews;
  }

  /** Once a failure was reported, nothing is ever displayed again and no frame is ever accepted again. */
  lemma FailureIsFinal(w: World, steps: seq<Step>, t: World)
    requires Reachable(w) && w.overlay.failed && Run(w, steps, t)
    ensures t.overlay.shown == None && !t.session.state.enabled
  {
    hide Inv, Run;
    ReachableIsGood(w);
    RunKeepsInv(w, steps, t);
    FailurePersists(w, steps, t);
    FailedShowsNothing(t);
  }

  lemma FailedShowsNothing(t: World)
    requires Inv(t) && t.overlay.failed
    ensures t.overlay.shown == None && !t.session.state.enabled
  {
  }

  /**
   The results handed to the overlay come in strictly rising order of activation and, within one, of frame
   revision.
   */
  lemma DeliveredRevisionsRise(w: World)
    requires Reachable(w)
    ensures var d := w.session.ledger.delivered;
            forall i, j :: 0 <= i < j < |d| ==> Precedes(d[i].identity, d[j].identity)
  {
    ReachableIsGood(w);
    hide S.Inv, Shape, Agreed, ShownBelongs, FailureFinal, TickSound;
    var l := w.session.ledger;
    var order := A.Pipeline(w.session) + [|l.accepted|];
    forall i | 0 <= i < |l.delivered|
      ensures l.deliveredTickets[i] == order[i] && A.ComputedFrom(l, l.deliveredTickets[i], l.delivered[i])
    {
    }
  }

  /** Leaving Connected clears the display at once, without waiting for a tick. */
  lemma DisconnectionClears(w: World)
    requires Reachable(w) && Enabled(w, Streaming(S.Deliver))
    requires w.stream.inbox[0] != w.stream.session.state && w.stream.inbox[0] != Connected
    ensures Next(w, Streaming(S.Deliver)).overlay.shown == None
    ensures Next(w, Streaming(S.Deliver)).stream.session.state == w.stream.inbox[0]
  {
    ReachableIsGood(w);
    hide A.Inv, S.Inv;
  }

  // ----- what is current does get through

  /** While the stream is connected and nothing has failed, every tick goes on to look at the current frame. */
  lemma TickLooksWhenConnected(w: World)
    requires Reachable(w) && Enabled(w, Timeout) && w.streamAlive && w.viewAlive && !w.overlay.failed
    requires w.stream.session.state == Connected && w.stream.session.run != 0
    requires w.stream.session.run !in w.stream.session.stopped
    ensures var t := Next(w, Timeout);
            && t.tick == Looking(w.clock, w.stream.session.run)
            && t.overlay.runId == w.stream.session.run && t.overlay.generation == t.session.state.generation
            && (w.overlay.runId != w.stream.session.run ==>
                  && t.session.state.enabled && t.session.state.streamRunId == w.stream.session.run
                  && t.session.state.generation == w.session.state.generation + 1)
  {
    ReachableIsGood(w);
    SwitchFrame(w);
    hide A.Inv, S.Inv, A.Next, SwitchSession;
  }

  /** A tick that looks at a valid frame of the current run leaves with the revision of that frame. */
  lemma TickCatchesUp(w: World)
    requires Reachable(w) && Enabled(w, Proceed) && w.tick.Looking?
    requires w.stream.exchange.valid && w.stream.exchange.streamRunId == w.stream.session.run
    ensures var t, frame := Next(w, Proceed), w.stream.exchange;
            && t.overlay.lastRevision == frame.revision
            && (frame.revision != w.overlay.lastRevision ==>
                  t.tick == Submitting(w.tick.now,
                                       Frame(Identity(w.stream.session.run, w.overlay.generation, frame.revision),
                                             frame.decodeTime, frame.image)))
            && (frame.revision == w.overlay.lastRevision ==> t.tick.Finishing?)
  {
    ReachableIsGood(w);
    hide A.Inv, S.Inv, A.Next;
  }

  /** A frame that is submitted becomes pending if the activation is still on, in place of an older one. */
  lemma SubmittedFrameIsPending(w: World)
    requires Reachable(w) && Enabled(w, Proceed) && w.tick.Submitting?
    ensures var t, frame := Next(w, Proceed), w.tick.frame;
            && t.tick.Finishing? && t.overlay == w.overlay
            && t.session.state.pending
               == if w.session.state.enabled && !frame.image.isNull && frame.image.isRgb888
                  then Some(frame) else w.session.state.pending
  {
    ReachableIsGood(w);
    hide A.Inv, S.Inv;
  }

  /** A current result of a non-empty image is on display when its slot returns. */
  lemma CurrentResultIsDisplayed(w: World, r: AnalyticsResult)
    requires Reachable(w) && Enabled(w, ResultSlot) && w.session.state.latest == Some(r)
    requires w.streamAlive && w.viewAlive && w.stream.session.state == Connected
    requires r.identity.streamRunId == w.stream.session.run && w.stream.session.run !in w.stream.session.stopped
    requires w.clock - r.decodeTime <= 750_000_000 && r.imageWidth > 0 && r.imageHeight > 0
    ensures Next(w, ResultSlot).overlay.shown == Some(r)
    ensures Next(w, ResultSlot).session.state.latest == None
  {
    ReachableIsGood(w);
    assert A.MailboxesCurrent(w.session.state);
    hide A.Inv, S.Inv, A.NextContinue;
  }

  // ----- detections do appear

  lemma RunSnoc(w: World, steps: seq<Step>, t: World, step: Step)
    requires Run(w, steps, t) && Enabled(t, step)
    ensures Run(w, steps + [step], Next(t, step))
    decreases |steps|
  {
    hide Next, Enabled;
    if steps == [] {
      assert [step][1..] == [];
      assert Run(Next(w, step), [], Next(w, step));
      assert steps + [step] == [step];
    } else {
      RunSnoc(Next(w, steps[0]), steps[1..], t, step);
      assert (steps + [step])[1..] == steps[1..] + [step];
    }
  }

  lemma Then(w: World, step: Step) returns (t: World)
    requires Reachable(w) && Enabled(w, step)
    ensures Reachable(t) && t == Next(w, step)
  {
    t := Next(w, step);
    MaxIsConstant(w, step);
    hide Run, Enabled, Next;
    var steps :| Run(Start(w.stream.max), steps, w);
    RunSnoc(Start(w.stream.max), steps, w, step);
  }

  lemma MaxIsConstant(w: World, step: Step)
    requires Enabled(w, step)
    ensures Next(w, step).stream.max == w.stream.max
  {
    hide A.Next, SwitchSession, AfterPlan, AfterResult, IsNews;
  }

  const PICTURE := Image(false, true, 16, 16)
  const PICTURE_FRAME := Frame(Identity(1, 1, 1), 0, PICTURE)
  const FOUND := ResultFor(PICTURE_FRAME, [Detection(BoundingBox(1.0, 1.0, 2.0, 2.0), 0, 0.5)])

  ghost predicate StreamIsUp(w: World) {
    && w.streamAlive && w.viewAlive && w.clock == 0
    && w.stream.session.state == Connected && StreamRunId(w.stream.session) == 1
    && w.stream.exchange == Snapshot(PICTURE, 1, 1, 0, true)
  }

  /** The first frame was submitted and nothing is displayed yet; the GUI thread is outside the timer's tick. */
  ghost predicate Watching(w: World) {
    && Reachable(w) && StreamIsUp(w) && w.tick.Resting?
    && w.overlay == OverlayState(1, 1, 1, false, None, true, None)
  }

  /** A first run has been started and is in execution; nothing else has happened. */
  lemma RunBegins() returns (w: World)
    ensures Reachable(w) && w == Start(30).(stream := w.stream) && w.stream.max == 30
    ensures w.stream.session.run == 1 && w.stream.session.stopped == {0} && w.stream.session.state == Disconnected
    ensures w.stream.inbox == [] && w.stream.exchange == NO_FRAME
    ensures w.stream.runner == S.Running(Job("camera", 1), false, W.Begin, [])
  {
    hide Reachable, A.Next;
    w := Start(30);
    StartIsReachable();
    w := Then(w, Streaming(S.StartRun("camera")));
    w := Then(w, Streaming(S.BeginRun));
  }

  lemma StreamConnects() returns (w: World)
    ensures Reachable(w) && w == Start(30).(stream := w.stream)
    ensures w.stream.session.run == 1 && w.stream.session.stopped == {0} && w.stream.session.state == Disconnected
    ensures w.stream.inbox == [Connecting, Connected] && w.stream.exchange == NO_FRAME
    ensures w.stream.runner.Running? && w.stream.runner.job.run == 1 && w.stream.runner.phase.Linked?
  {
    hide Reachable, A.Next;
    w := RunBegins();
    w := Then(w, Streaming(S.EmitState(Connecting)));
    w := Then(w, Streaming(S.EmitState(Connected)));
  }

  lemma StreamComesUp() returns (w: World)
    ensures Reachable(w) && StreamIsUp(w)
    ensures w.session == A.START && w.overlay == NO_OVERLAY && w.tick.Resting?
  {
    hide Reachable, A.Next;
    w := StreamConnects();
    w := Then(w, Streaming(S.Deliver));
    w := Then(w, Streaming(S.Deliver));
    w := Then(w, Streaming(S.PublishFrame(PICTURE, 0)));
  }

  lemma StartIsReachable()
    ensures Reachable(Start(30))
  {
    assert Run(Start(30), [], Start(30));
  }

  /** A tick has switched the session on. */
  lemma SessionIsSwitchedOn(v: World) returns (w: World)
    requires Reachable(v) && StreamIsUp(v)
    requires v.session == A.START && v.overlay == NO_OVERLAY && v.tick.Resting?
    ensures Reachable(w) && StreamIsUp(w) && w.tick == Looking(0, 1)
    ensures w.session.worker.LoopHead? && !w.session.stop && w.session.gui == []
    ensures w.session.state == State(true, 1, 1, None, None, false, [])
    ensures w.overlay == OverlayState(1, 1, 0, false, None, true, None)
  {
    hide Reachable;
    w := Then(v, Timeout);
    w := Then(w, Continue);
    w := Then(w, Continue);
  }

  lemma FrameIsSubmitted(v: World) returns (w: World)
    requires Reachable(v) && StreamIsUp(v)
    requires v.session == A.START && v.overlay == NO_OVERLAY && v.tick.Resting?
    ensures Watching(w) && w.session.worker.LoopHead? && !w.session.stop && w.session.gui == []
    ensures w.session.state == State(true, 1, 1, Some(PICTURE_FRAME), None, false, [])
  {
    hide Reachable;
    w := SessionIsSwitchedOn(v);
    w := Then(w, Proceed);
    w := Then(w, Proceed);
    w := Then(w, Proceed);
  }

  lemma Works(v: World, ok: bool) returns (w: World)
    requires Watching(v) && A.Enabled(v.session, A.Work(ok, FOUND.detections))
    ensures Watching(w) && w.session == A.Next(v.session, A.Work(ok, FOUND.detections))
  {
    hide Reachable, A.Next, A.Enabled;
    w := Then(v, Worker(ok, FOUND.detections));
  }

  lemma Continues(v: World) returns (w: World)
    requires Watching(v) && Enabled(v, Continue)
    ensures Watching(w) && w.session == A.Next(v.session, A.Continue)
  {
    hide Reachable, A.Next, A.Enabled;
    w := Then(v, Continue);
  }

  lemma Dispatches(v: World) returns (w: World)
    requires Watching(v) && v.session.gui == [] && v.session.state.posted != []
    ensures Watching(w) && w.session == A.Next(v.session, A.Dispatch)
  {
    hide Reachable, A.Next;
    w := Then(v, Dispatch);
  }

  /** The worker holds the frame. */
  ghost predicate FrameIsHeld(w: World, worker: A.Worker) {
    && Watching(w) && w.session.gui == [] && !w.session.stop && w.session.worker == worker
    && w.session.state == State(true, 1, 1, None, None, false, [])
  }

  lemma FrameIsTaken() returns (w: World)
    ensures FrameIsHeld(w, A.Loaded(PICTURE_FRAME))
  {
    hide Reachable, Watching;
    w := StreamComesUp();
    w := FrameIsSubmitted(w);
    w := Works(w, true);
    w := Works(w, true);
    w := Works(w, true);
    w := Works(w, true);
  }

  lemma FrameIsExamined() returns (w: World)
    ensures FrameIsHeld(w, A.Detecting(PICTURE_FRAME))
  {
    hide Watching;
    w := FrameIsTaken();
    w := Works(w, true);
    w := Works(w, true);
  }

  lemma ResultIsPublished() returns (w: World)
    ensures Watching(w) && w.session.gui == []
    ensures w.session.state == State(true, 1, 1, None, Some(FOUND), true, [Notify])
  {
    hide Watching;
    w := FrameIsExamined();
    w := Works(w, true);
    w := Works(w, true);
    w := Works(w, true);
  }

  lemma ResultIsAnnounced() returns (w: World)
    ensures Watching(w) && w.session.gui == [A.ResultSlots]
    ensures w.session.state == State(true, 1, 1, None, Some(FOUND), false, [])
  {
    hide Watching;
    w := ResultIsPublished();
    w := Dispatches(w);
    w := Continues(w);
    w := Continues(w);
  }

  lemma ResultIsDisplayed() returns (w: World)
    ensures Reachable(w) && StreamIsUp(w) && w.tick.Resting? && w.session.gui == []
    ensures w.overlay == OverlayState(1, 1, 1, false, Some(0), true, Some(FOUND))
  {
    hide Reachable;
    w := ResultIsAnnounced();
    w := Then(w, ResultSlot);
  }

  /** The safety statements about the display are not empty: a run leads to a tick that ends with a detection shown. */
  lemma DetectionsCanAppear() returns (w: World)
    ensures Reachable(w) && w.tick.Finishing? && w.tick.attended
    ensures w.overlay.shown == Some(FOUND) && |FOUND.detections| == 1
  {
    hide Reachable;
    w := ResultIsDisplayed();
    w := Then(w, Timeout);
    w := Then(w, Proceed);
  }

  lemma FailureIsPosted() returns (w: World)
    ensures Watching(w) && w.session.gui == []
    ensures w.session.state == State(false, 1, 1, None, None, false, [Fail(PICTURE_FRAME.identity)])
  {
    hide Watching;
    w := FrameIsExamined();
    w := Works(w, false);
    w := Works(w, true);
  }

  /** The posted failure is being handled. */
  ghost predicate FailureIsHandled(w: World, step: A.Activity) {
    && Watching(w) && w.session.gui == [step]
    && w.session.state == State(false, 1, 1, None, None, false, [])
  }

  lemma HandlingContinues(v: World, step: A.Activity, next: A.Activity) returns (w: World)
    requires FailureIsHandled(v, step)
    requires A.NextContinue(v.session).gui == [next] && !step.NotifyStarted?
    requires !step.ResultSlots? && !step.ErrorSlots?
    ensures FailureIsHandled(w, next)
  {
    hide Watching, A.NextContinue;
    w := Continues(v);
  }

  lemma FailureIsTakenUp() returns (w: World)
    ensures FailureIsHandled(w, A.FailureSlots(PICTURE_FRAME.identity))
  {
    var id := PICTURE_FRAME.identity;
    hide Watching;
    w := FailureIsPosted();
    w := Dispatches(w);
    assert FailureIsHandled(w, A.FailStarted(id));
    w := HandlingContinues(w, A.FailStarted(id), A.AnnounceFailure(id));
    w := HandlingContinues(w, A.AnnounceFailure(id), A.FailureSlots(id));
  }

  lemma FailureIsAnnounced() returns (w: World)
    ensures FailureIsHandled(w, A.ErrorSlots)
  {
    var id := PICTURE_FRAME.identity;
    hide Watching;
    w := FailureIsTakenUp();
    w := HandlingContinues(w, A.FailureSlots(id), A.AnnounceError(id));
    w := HandlingContinues(w, A.AnnounceError(id), A.ErrorSlots);
  }

  /** Nor are those about failures: a run leads to one that is reported. */
  lemma FailuresCanBeReported() returns (w: World)
    ensures Reachable(w) && w.overlay.failed
  {
    hide Reachable;
    w := FailureIsAnnounced();
    w := Then(w, ErrorSlot);
  }
}
