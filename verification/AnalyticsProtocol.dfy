/**
 The activation protocol: one GUI thread, any number of submitters and one worker.

 A step is one critical section, or one thread-local move between two of them. Everything a run may do is a
 sequence of steps; the lemmas at the end hold for all of them.
 */
module AnalyticsProtocol {
  import opened Common
  import opened Sequences
  import opened Suppression
  import opened Analytics

  // ----- threads

  /** Where the worker stands in its loop, with the frame or result it holds. */
  datatype Worker =
    | LoopHead
    | Waiting
    | Taken(frame: Frame)
    | Loading(frame: Frame)
    | Loaded(frame: Frame)
    | Rechecking(frame: Frame)
    | Detecting(frame: Frame)
    | Detected(frame: Frame, result: AnalyticsResult)
    | Publishing(frame: Frame, result: AnalyticsResult)
    | Failing(frame: Frame)
    | Exited
  {
    predicate Holds() {
      !LoopHead? && !Waiting? && !Exited?
    }
  }

  /**
   What the GUI thread is in the middle of. `Announce...` is the moment between releasing the mutex and emitting
   the signal; `...Slots` is the time the connected slots run, during which the session may be called again.
   */
  datatype Activity =
    | NotifyStarted
    | AnnounceResult
    | ResultSlots
    | FailStarted(identity: Identity)
    | AnnounceFailure(identity: Identity)
    | FailureSlots(identity: Identity)
    | AnnounceError(identity: Identity)
    | ErrorSlots
    | AnnounceEnabled
    | EnabledSlots
  {
    predicate RunsSlots() {
      ResultSlots? || FailureSlots? || ErrorSlots? || EnabledSlots?
    }

    /** Part of a call of enable or disable; everything else belongs to a queued closure. */
    predicate InCall() {
      AnnounceEnabled? || EnabledSlots?
    }
  }

  // Records of the past, on which no step depends.

  /** A frame's ticket is its position in `accepted`. */
  datatype Ledger = Ledger(
    accepted: seq<Frame>,
    pendingTicket: nat,
    heldTicket: nat,
    latestTicket: nat,
    delivered: seq<AnalyticsResult>,
    deliveredTickets: seq<nat>)

  datatype Signals = Signals(
    announced: bool,         // the latest result has been announced
    observed: bool,          // what isEnabled told a listener of the last enabledChanged
    failures: seq<Identity>, // failures posted by the worker
    errors: seq<Identity>)   // failures for which errorOccurred was emitted

  datatype Effort = Effort(detects: nat, publications: nat, moves: nat)

  datatype System = System(
    state: State,
    worker: Worker,
    detector: bool,
    stop: bool,
    gui: seq<Activity>,
    ledger: Ledger,
    signals: Signals,
    effort: Effort)

  const START := System(
    INITIAL, LoopHead, false, false, [],
    Ledger([], 0, 0, 0, [], []), Signals(false, false, [], []), Effort(0, 0, 0))

  // ----- steps

  datatype Step =
    | RequestStop
    | Submit(submitted: Frame)
    | Work(ok: bool, detections: seq<Detection>)
    | Enable(run: nat)
    | Disable
    | TakeLatest
    | Dispatch
    | Continue

  /** The GUI thread is in its event loop or inside a slot. */
  predicate GuiMayCall(s: System) {
    s.gui == [] || Last(s.gui).RunsSlots()
  }

  predicate Enabled(s: System, step: Step) {
    match step
    case RequestStop => true
    case Submit(_) => true
    case Work(_, _) => !s.worker.Exited? && (s.worker.Waiting? ==> s.stop || s.state.pending.Some?)
    case Enable(_) => GuiMayCall(s) && s.state.generation < MAX_U64
    case Disable => GuiMayCall(s)
    case TakeLatest => GuiMayCall(s)
    case Dispatch => s.gui == [] && s.state.posted != []
    case Continue => s.gui != []
  }

  function Next(s: System, step: Step): System
    requires Enabled(s, step)
  {
    match step
    case RequestStop => s.(stop := true)
    case Submit(f) => NextSubmit(s, f)
    case Work(ok, detections) => NextWork(s, ok, detections)
    case Enable(run) =>
      s.(state := AfterEnable(s.state, run), gui := if s.state.enabled then s.gui else s.gui + [AnnounceEnabled])
    case Disable =>
      s.(state := AfterDisable(s.state), gui := if s.state.enabled then s.gui + [AnnounceEnabled] else s.gui)
    case TakeLatest => NextTake(s)
    case Dispatch =>
      var e := s.state.posted[0];
      s.(state := s.state.(posted := s.state.posted[1..]),
         gui := [match e case Notify => NotifyStarted case Fail(id) => FailStarted(id)])
    case Continue => NextContinue(s)
  }

  function NextSubmit(s: System, f: Frame): System {
    if !Submittable(s.state, f) then s
    else s.(state := AfterSubmit(s.state, f),
            ledger := s.ledger.(accepted := s.ledger.accepted + [f], pendingTicket := |s.ledger.accepted|))
  }

  /** takeLatestResult hands out a result only if it is accepted. */
  function NextTake(s: System): System {
    var l := s.state.latest;
    s.(state := AfterTakeLatest(s.state),
       ledger := if l.Some? && Accepts(s.state, l.value.identity)
                 then s.ledger.(delivered := s.ledger.delivered + [l.value],
                                deliveredTickets := s.ledger.deliveredTickets + [s.ledger.latestTicket])
                 else s.ledger)
  }

  /** The worker takes the pending frame; this is the one access to it outside the state mutex. */
  function NextTakeFrame(s: System): System
    requires s.state.pending.Some?
  {
    s.(state := AfterTakeFrame(s.state), worker := Taken(s.state.pending.value),
       ledger := s.ledger.(heldTicket := s.ledger.pendingTicket))
  }

  function NextPublish(s: System): System
    requires s.worker.Publishing?
  {
    var r := s.worker.result;
    if !Accepts(s.state, r.identity) then s.(worker := LoopHead)
    else s.(state := AfterPublish(s.state, r), worker := LoopHead,
            ledger := s.ledger.(latestTicket := s.ledger.heldTicket),
            signals := s.signals.(announced := false),
            effort := s.effort.(publications := s.effort.publications + 1))
  }

  function NextFail(s: System): System
    requires s.worker.Failing?
  {
    var id := s.worker.frame.identity;
    if !Accepts(s.state, id) then s.(worker := LoopHead)
    else s.(state := AfterFailure(s.state, id), worker := LoopHead,
            signals := s.signals.(failures := s.signals.failures + [id]),
            effort := s.effort.(publications := s.effort.publications + 1))
  }

  /** Moves that only read the shared state. */
  function NextLocal(s: System, ok: bool, detections: seq<Detection>): (t: System)
    requires !s.worker.Publishing? && !s.worker.Failing? && !s.worker.Exited?
    requires s.worker.Waiting? ==> s.stop
    ensures t.state == s.state && t.gui == s.gui && t.ledger == s.ledger && t.signals == s.signals
    ensures t.stop == s.stop
    ensures t.worker.Holds() ==> s.worker.Holds() && t.worker.frame == s.worker.frame
    ensures t.worker.Detected? || t.worker.Publishing? ==>
              || t.worker.result == ResultFor(s.worker.frame, detections)
              || (s.worker.Detected? && t.worker.result == s.worker.result)
  {
    match s.worker
    case LoopHead => s.(worker := if s.stop then Exited else Waiting)
    case Waiting => s.(worker := Exited)
    case Taken(f) => s.(worker := if Accepts(s.state, f.identity) then Loading(f) else LoopHead)
    case Loading(f) =>
      if s.detector || ok then s.(worker := Loaded(f), detector := true)
      else s.(worker := Failing(f), detector := false)
    case Loaded(f) => s.(worker := if s.stop then Exited else Rechecking(f))
    case Rechecking(f) =>
      if Accepts(s.state, f.identity)
      then s.(worker := Detecting(f), effort := s.effort.(detects := s.effort.detects + 1))
      else s.(worker := LoopHead)
    case Detecting(f) =>
      if ok then s.(worker := Detected(f, ResultFor(f, detections)))
      else s.(worker := Failing(f), detector := false)
    case Detected(f, r) => s.(worker := if s.stop then Exited else Publishing(f, r))
  }

  /** The worker reports a failure that is still of interest. */
  predicate Fails(s: System) {
    s.worker.Failing? && Accepts(s.state, s.worker.frame.identity)
  }

  /** One move of the worker; `ok` tells whether a call that may throw returned normally. */
  function NextWork(s: System, ok: bool, detections: seq<Detection>): (t: System)
    requires Enabled(s, Work(ok, detections))
    ensures t.gui == s.gui && t.stop == s.stop
    ensures t.state == if s.worker.Waiting? && !s.stop then AfterTakeFrame(s.state)
                       else if s.worker.Publishing? then AfterPublish(s.state, s.worker.result)
                       else if s.worker.Failing? then AfterFailure(s.state, s.worker.frame.identity)
                       else s.state
    ensures t.signals == if s.worker.Publishing? && Accepts(s.state, s.worker.result.identity)
                         then s.signals.(announced := false)
                         else if Fails(s)
                         then s.signals.(failures := s.signals.failures + [s.worker.frame.identity])
                         else s.signals
  {
    var t := s.(effort := s.effort.(moves := s.effort.moves + 1));
    if s.worker.Waiting? && !s.stop then NextTakeFrame(t)
    else if s.worker.Publishing? then NextPublish(t)
    else if s.worker.Failing? then NextFail(t)
    else NextLocal(t, ok, detections)
  }

  function Replace(gui: seq<Activity>, a: Activity): seq<Activity>
    requires gui != []
  {
    Front(gui) + [a]
  }

  /** The GUI thread proceeds with the innermost thing it is doing. */
  function NextContinue(s: System): (t: System)
    requires s.gui != []
    ensures t.state == if Last(s.gui).NotifyStarted? then AfterAcknowledge(s.state) else s.state
    ensures t.worker == s.worker && t.ledger == s.ledger && t.effort == s.effort && t.stop == s.stop
    ensures t.signals.failures == s.signals.failures
    ensures t.signals.errors == if Last(s.gui).AnnounceError? then s.signals.errors + [Last(s.gui).identity]
                                else s.signals.errors
    ensures |s.gui| > 1 ==> t.gui != [] && t.gui[0] == s.gui[0]
  {
    match Last(s.gui)
    case NotifyStarted =>
      var t := s.(state := AfterAcknowledge(s.state));
      if s.state.enabled && s.state.latest.Some?
      then t.(gui := Replace(s.gui, AnnounceResult), signals := s.signals.(announced := true))
      else t.(gui := Front(s.gui))
    case AnnounceResult => s.(gui := Replace(s.gui, ResultSlots))
    case ResultSlots => s.(gui := Front(s.gui))
    case FailStarted(id) =>
      if FailureStands(s.state, id) then s.(gui := Replace(s.gui, AnnounceFailure(id)))
      else s.(gui := Front(s.gui))
    case AnnounceFailure(id) =>
      s.(gui := Replace(s.gui, FailureSlots(id)), signals := s.signals.(observed := s.state.enabled))
    case FailureSlots(id) =>
      if FailureStands(s.state, id) then s.(gui := Replace(s.gui, AnnounceError(id)))
      else s.(gui := Front(s.gui))
    case AnnounceError(id) =>
      s.(gui := Replace(s.gui, ErrorSlots), signals := s.signals.(errors := s.signals.errors + [id]))
    case ErrorSlots => s.(gui := Front(s.gui))
    case AnnounceEnabled =>
      s.(gui := Replace(s.gui, EnabledSlots), signals := s.signals.(observed := s.state.enabled))
    case EnabledSlots => s.(gui := Front(s.gui))
  }

  /** `t` is reached from `s` by the given steps, each enabled in its turn. */
  ghost predicate Run(s: System, steps: seq<Step>, t: System)
    decreases |steps|
  {
    if steps == [] then s == t
    else Enabled(s, steps[0]) && Run(Next(s, steps[0]), steps[1..], t)
  }

  // ----- invariants

  ghost predicate MailboxesCurrent(s: State) {
    && (s.pending.Some? ==> Accepts(s, s.pending.value.identity))
    && (s.latest.Some? ==> Accepts(s, s.latest.value.identity))
  }

  ghost function QueuedNotifies(q: seq<Event>): nat {
    if q == [] then 0
    else if q[0].Notify? then 1 + QueuedNotifies(q[1..])
    else QueuedNotifies(q[1..])
  }

  /** Notifications queued, plus the one whose closure has started but not reached the mutex. */
  ghost function Notifies(s: System): nat {
    QueuedNotifies(s.state.posted) + if s.gui != [] && s.gui[0].NotifyStarted? then 1 else 0
  }

  ghost predicate NotifiesCounted(s: System) {
    Notifies(s) == if s.state.notificationPending then 1 else 0
  }

  ghost predicate AnnouncementOutstanding(s: System) {
    s.state.latest.Some? ==> s.signals.announced || s.state.notificationPending
  }

  /** Only the bottom activity may belong to a closure, and only the top one may be outside its slots. */
  ghost predicate StackShape(gui: seq<Activity>) {
    && (forall i :: 0 <= i < |gui| - 1 ==> gui[i].RunsSlots())
    && (forall i :: 0 < i < |gui| ==> gui[i].InCall())
  }

  ghost predicate Increasing(ids: seq<Identity>) {
    forall i, j :: 0 <= i < j < |ids| ==> ids[i].generation < ids[j].generation
  }

  /** `ids` rises strictly, and an entry of the current activation can only be there while it is off. */
  ghost predicate PastFailures(ids: seq<Identity>, s: State) {
    && Increasing(ids)
    && forall i :: 0 <= i < |ids| ==>
         && ids[i].generation <= s.generation
         && (ids[i].generation == s.generation ==> FailureStands(s, ids[i]))
  }

  ghost function QueuedFailures(q: seq<Event>): seq<Identity> {
    if q == [] then []
    else if q[0].Fail? then [q[0].identity] + QueuedFailures(q[1..])
    else QueuedFailures(q[1..])
  }

  /** The failure whose closure is running and whose error has not been emitted yet. */
  ghost function RunningFailure(gui: seq<Activity>): seq<Identity> {
    if gui == [] then []
    else
      match gui[0]
      case FailStarted(id) => [id]
      case AnnounceFailure(id) => [id]
      case FailureSlots(id) => [id]
      case AnnounceError(id) => [id]
      case _ => []
  }

  /** Emitted errors, then the failure being handled, then the queued ones. */
  ghost function FailurePipeline(s: System): seq<Identity> {
    s.signals.errors + RunningFailure(s.gui) + QueuedFailures(s.state.posted)
  }

  ghost predicate FailuresOrdered(s: System) {
    PastFailures(s.signals.failures, s.state) && PastFailures(FailurePipeline(s), s.state)
  }

  /** Whatever is announced was posted. */
  ghost predicate FailuresPosted(s: System) {
    forall id :: id in FailurePipeline(s) ==> id in s.signals.failures
  }

  /** A failure that is about to be announced still stands. */
  ghost predicate AnnouncedFailureStands(s: System) {
    s.gui != [] ==>
      match Last(s.gui)
      case AnnounceFailure(id) => FailureStands(s.state, id)
      case AnnounceError(id) => FailureStands(s.state, id)
      case _ => true
  }

  /** The announcement of the failure of the current activation is still to come. */
  ghost predicate FailureOutstanding(s: System) {
    || (exists id :: id in QueuedFailures(s.state.posted) && id.generation == s.state.generation)
    || (s.gui != [] && match Last(s.gui)
                       case FailStarted(id) => id.generation == s.state.generation
                       case AnnounceFailure(_) => true
                       case _ => false)
  }

  ghost predicate ObservedCoherent(s: System) {
    s.signals.observed != s.state.enabled ==>
      FailureOutstanding(s) || (s.gui != [] && Last(s.gui).AnnounceEnabled?)
  }

  ghost predicate Ticket(l: Ledger, ticket: nat, f: Frame) {
    ticket < |l.accepted| && l.accepted[ticket] == f
  }

  /** `r` was computed from the frame accepted under `ticket`. */
  ghost predicate ComputedFrom(l: Ledger, ticket: nat, r: AnalyticsResult) {
    ticket < |l.accepted| && r == ResultFor(l.accepted[ticket], r.detections)
  }

  ghost predicate DeliveriesMatch(l: Ledger) {
    && |l.deliveredTickets| == |l.delivered|
    && (forall i :: 0 <= i < |l.delivered| ==> ComputedFrom(l, l.deliveredTickets[i], l.delivered[i]))
  }

  ghost predicate TicketsMatch(s: System) {
    && (s.state.pending.Some? ==> Ticket(s.ledger, s.ledger.pendingTicket, s.state.pending.value))
    && (s.worker.Holds() ==> Ticket(s.ledger, s.ledger.heldTicket, s.worker.frame))
    && (s.worker.Detected? || s.worker.Publishing? ==> ComputedFrom(s.ledger, s.ledger.heldTicket, s.worker.result))
    && (s.state.latest.Some? ==> ComputedFrom(s.ledger, s.ledger.latestTicket, s.state.latest.value))
  }

  ghost predicate Rising(tickets: seq<nat>) {
    forall i, j :: 0 <= i < j < |tickets| ==> tickets[i] < tickets[j]
  }

  ghost function Slot(present: bool, ticket: nat): seq<nat> {
    if present then [ticket] else []
  }

  /** Tickets of delivered results, then of the latest result, the frame in hand and the pending frame. */
  ghost function Pipeline(s: System): seq<nat> {
    s.ledger.deliveredTickets
    + Slot(s.state.latest.Some?, s.ledger.latestTicket)
    + Slot(s.worker.Holds(), s.ledger.heldTicket)
    + Slot(s.state.pending.Some?, s.ledger.pendingTicket)
  }

  /** Work flows in the order of acceptance, and nothing is in two places. */
  ghost predicate TicketsOrdered(s: System) {
    Rising(Pipeline(s) + [|s.ledger.accepted|])
  }

  ghost predicate Inv(s: System) {
    && MailboxesCurrent(s.state)
    && NotifiesCounted(s)
    && AnnouncementOutstanding(s)
    && StackShape(s.gui)
    && FailuresOrdered(s)
    && FailuresPosted(s)
    && AnnouncedFailureStands(s)
    && ObservedCoherent(s)
    && TicketsMatch(s)
    && DeliveriesMatch(s.ledger)
    && TicketsOrdered(s)
  }

  lemma StartIsGood()
    ensures Inv(START)
  {
  }

  // ----- every step keeps every invariant

  lemma MailboxesStayCurrent(s: System, step: Step)
    requires Enabled(s, step) && MailboxesCurrent(s.state)
    ensures MailboxesCurrent(Next(s, step).state)
  {
    hide NextLocal, NextContinue;
  }

  lemma StackKeepsShape(s: System, step: Step)
    requires Enabled(s, step) && StackShape(s.gui)
    ensures StackShape(Next(s, step).gui)
  {
    hide NextWork, NextContinue;
    if step.Continue? {
      StackKeepsShapeInContinue(s);
    }
  }

  lemma StackKeepsShapeInContinue(s: System)
    requires s.gui != [] && StackShape(s.gui)
    ensures StackShape(NextContinue(s).gui)
  {
    hide FailureStands, AfterAcknowledge, StackShape, Replace;
    StackWithoutTop(s.gui);
    if |s.gui| > 1 {
      StackInCall(s.gui);
    }
    match Last(s.gui)
    case NotifyStarted => StackWithTop(s.gui, AnnounceResult);
    case AnnounceResult => StackWithTop(s.gui, ResultSlots);
    case FailStarted(id) => StackWithTop(s.gui, AnnounceFailure(id));
    case AnnounceFailure(id) => StackWithTop(s.gui, FailureSlots(id));
    case FailureSlots(id) => StackWithTop(s.gui, AnnounceError(id));
    case AnnounceError(_) => StackWithTop(s.gui, ErrorSlots);
    case AnnounceEnabled => StackWithTop(s.gui, EnabledSlots);
    case _ =>
  }

  lemma StackWithoutTop(gui: seq<Activity>)
    requires gui != [] && StackShape(gui)
    ensures StackShape(Front(gui))
  {
  }

  lemma StackInCall(gui: seq<Activity>)
    requires |gui| > 1 && StackShape(gui)
    ensures Last(gui).InCall()
  {
  }

  lemma StackWithTop(gui: seq<Activity>, a: Activity)
    requires gui != [] && StackShape(gui) && (|gui| > 1 ==> a.InCall())
    ensures StackShape(Replace(gui, a))
  {
  }

  lemma {:induction false} QueuedNotifiesAppend(q: seq<Event>, e: Event)
    ensures QueuedNotifies(q + [e]) == QueuedNotifies(q) + if e.Notify? then 1 else 0
  {
    if q == [] {
      assert q + [e] == [e];
    } else {
      QueuedNotifiesAppend(q[1..], e);
      assert (q + [e])[1..] == q[1..] + [e];
    }
  }

  lemma NotifiesStayCountedInWork(s: System, ok: bool, d: seq<Detection>)
    requires Enabled(s, Work(ok, d)) && NotifiesCounted(s)
    ensures NotifiesCounted(NextWork(s, ok, d))
  {
    hide NextWork, Accepts, Fails;
    if s.worker.Publishing? {
      QueuedNotifiesAppend(s.state.posted, Notify);
    }
    if s.worker.Failing? {
      QueuedNotifiesAppend(s.state.posted, Fail(s.worker.frame.identity));
    }
  }

  lemma NotifiesStayCountedInContinue(s: System)
    requires s.gui != [] && StackShape(s.gui) && NotifiesCounted(s)
    ensures NotifiesCounted(NextContinue(s))
  {
    hide FailureStands, QueuedNotifies;
  }

  lemma NotifiesStayCounted(s: System, step: Step)
    requires Enabled(s, step) && StackShape(s.gui) && NotifiesCounted(s)
    ensures NotifiesCounted(Next(s, step))
  {
    match step
    case Work(ok, d) => NotifiesStayCountedInWork(s, ok, d);
    case Continue => NotifiesStayCountedInContinue(s);
    case _ => hide NextWork, NextContinue;
  }

  lemma AnnouncementStaysOutstanding(s: System, step: Step)
    requires Enabled(s, step) && MailboxesCurrent(s.state) && AnnouncementOutstanding(s)
    ensures AnnouncementOutstanding(Next(s, step))
  {
    hide NextLocal;
  }

  lemma {:induction false} QueuedFailuresAppend(q: seq<Event>, e: Event)
    ensures QueuedFailures(q + [e]) == QueuedFailures(q) + (if e.Fail? then [e.identity] else [])
  {
    if q == [] {
      assert q + [e] == [e];
    } else {
      QueuedFailuresAppend(q[1..], e);
      assert (q + [e])[1..] == q[1..] + [e];
    }
  }

  lemma PastFailuresAppend(ids: seq<Identity>, s: State, id: Identity)
    requires PastFailures(ids, s) && Accepts(s, id)
    ensures PastFailures(ids + [id], AfterFailure(s, id))
  {
  }

  lemma PastFailuresRemove(a: seq<Identity>, x: Identity, b: seq<Identity>, s: State)
    requires PastFailures(a + [x] + b, s)
    ensures PastFailures(a + b, s)
  {
    var long, short := a + [x] + b, a + b;
    forall i | 0 <= i < |short| ensures short[i] == long[if i < |a| then i else i + 1] {
    }
  }

  /** Moving on in time never brings an old failure back to life. */
  lemma PastFailuresPersist(ids: seq<Identity>, s: State, t: State)
    requires PastFailures(ids, s)
    requires t.generation > s.generation
             || (t.generation == s.generation && t.streamRunId == s.streamRunId && (t.enabled ==> s.enabled))
    ensures PastFailures(ids, t)
  {
  }

  lemma PipelineOfWork(s: System, ok: bool, d: seq<Detection>)
    requires Enabled(s, Work(ok, d))
    ensures FailurePipeline(NextWork(s, ok, d))
            == FailurePipeline(s) + (if Fails(s) then [s.worker.frame.identity] else [])
  {
    QueuedFailuresOfWork(s, ok, d);
    hide NextWork, QueuedFailures, RunningFailure;
  }

  lemma QueuedFailuresOfWork(s: System, ok: bool, d: seq<Detection>)
    requires Enabled(s, Work(ok, d))
    ensures QueuedFailures(NextWork(s, ok, d).state.posted)
            == QueuedFailures(s.state.posted) + (if Fails(s) then [s.worker.frame.identity] else [])
  {
    hide NextWork, Accepts;
    QueuedFailuresAppend(s.state.posted, Notify);
    if s.worker.Failing? {
      QueuedFailuresAppend(s.state.posted, Fail(s.worker.frame.identity));
    }
  }

  lemma FailuresStayOrderedInWork(s: System, ok: bool, d: seq<Detection>)
    requires Enabled(s, Work(ok, d)) && FailuresOrdered(s)
    ensures FailuresOrdered(NextWork(s, ok, d))
  {
    hide NextWork, FailurePipeline, PastFailures;
    var t := NextWork(s, ok, d);
    PipelineOfWork(s, ok, d);
    if Fails(s) {
      PastFailuresAppend(s.signals.failures, s.state, s.worker.frame.identity);
      PastFailuresAppend(FailurePipeline(s), s.state, s.worker.frame.identity);
    } else {
      assert FailurePipeline(t) == FailurePipeline(s);
      PastFailuresPersist(s.signals.failures, s.state, t.state);
      PastFailuresPersist(FailurePipeline(s), s.state, t.state);
    }
  }

  lemma EmptyMiddle(a: seq<Identity>, b: seq<Identity>)
    ensures a + [] + b == a + b
  {
  }

  /** A pipeline entry leaves only when its closure finds that the failure no longer stands. */
  lemma PipelineOfContinue(s: System)
    requires s.gui != [] && StackShape(s.gui)
    ensures var dropped := (Last(s.gui).FailStarted? || Last(s.gui).FailureSlots?)
                           && !FailureStands(s.state, Last(s.gui).identity);
            FailurePipeline(NextContinue(s))
            == if dropped then s.signals.errors + QueuedFailures(s.state.posted) else FailurePipeline(s)
    ensures Last(s.gui).FailStarted? || Last(s.gui).FailureSlots? ==>
              FailurePipeline(s) == s.signals.errors + [Last(s.gui).identity] + QueuedFailures(s.state.posted)
  {
    hide NextContinue, FailureStands, QueuedFailures, RunningFailure;
    var errors, queued := s.signals.errors, QueuedFailures(s.state.posted);
    if |s.gui| > 1 {
      StackInCall(s.gui);
      SameBottom(s.gui, NextContinue(s).gui);
    } else {
      RunningFailureOfContinue(s);
      EmptyMiddle(errors, queued);
      if s.gui[0].AnnounceError? {
        EmptyMiddle(errors + [s.gui[0].identity], queued);
      }
    }
  }

  lemma SameBottom(a: seq<Activity>, b: seq<Activity>)
    requires a != [] && b != [] && a[0] == b[0]
    ensures RunningFailure(a) == RunningFailure(b)
  {
  }

  lemma RunningFailureOfContinue(s: System)
    requires |s.gui| == 1
    ensures var a := s.gui[0];
            var dropped := (a.FailStarted? || a.FailureSlots?) && !FailureStands(s.state, a.identity);
            RunningFailure(NextContinue(s).gui)
            == if dropped || a.AnnounceError? then [] else RunningFailure(s.gui)
    ensures s.gui[0].FailStarted? || s.gui[0].FailureSlots? || s.gui[0].AnnounceError? ==>
              RunningFailure(s.gui) == [s.gui[0].identity]
  {
    hide FailureStands, AfterAcknowledge;
  }

  lemma FailuresStayOrderedInContinue(s: System)
    requires s.gui != [] && StackShape(s.gui) && FailuresOrdered(s)
    ensures FailuresOrdered(NextContinue(s))
  {
    hide FailurePipeline, PastFailures;
    var t := NextContinue(s);
    PipelineOfContinue(s);
    PastFailuresPersist(s.signals.failures, s.state, t.state);
    PastFailuresPersist(FailurePipeline(s), s.state, t.state);
    if Last(s.gui).FailStarted? || Last(s.gui).FailureSlots? {
      PastFailuresRemove(s.signals.errors, Last(s.gui).identity, QueuedFailures(s.state.posted), t.state);
    }
  }

  lemma PipelineOfCalls(s: System, step: Step)
    requires Enabled(s, step) && !step.Work? && !step.Continue?
    ensures FailurePipeline(Next(s, step)) == FailurePipeline(s)
    ensures Next(s, step).signals == s.signals
  {
    hide NextWork, NextContinue;
  }

  lemma FailuresStayOrdered(s: System, step: Step)
    requires Enabled(s, step) && StackShape(s.gui) && FailuresOrdered(s)
    ensures FailuresOrdered(Next(s, step))
  {
    match step
    case Work(ok, d) => FailuresStayOrderedInWork(s, ok, d);
    case Continue => FailuresStayOrderedInContinue(s);
    case _ =>
      hide PastFailures, FailurePipeline, NextWork, NextContinue;
      var t := Next(s, step);
      PipelineOfCalls(s, step);
      PastFailuresPersist(s.signals.failures, s.state, t.state);
      PastFailuresPersist(FailurePipeline(s), s.state, t.state);
  }

  lemma FailuresStayPosted(s: System, step: Step)
    requires Enabled(s, step) && StackShape(s.gui) && FailuresPosted(s)
    ensures FailuresPosted(Next(s, step))
  {
    hide FailurePipeline;
    match step
    case Work(ok, d) =>
      hide NextWork;
      PipelineOfWork(s, ok, d);
    case Continue =>
      hide NextContinue;
      PipelineOfContinue(s);
    case _ =>
      hide NextWork, NextContinue;
      PipelineOfCalls(s, step);
  }

  lemma AnnouncedFailureKeepsStanding(s: System, step: Step)
    requires Enabled(s, step) && StackShape(s.gui) && AnnouncedFailureStands(s)
    ensures AnnouncedFailureStands(Next(s, step))
  {
    hide NextWork, NextContinue;
    if step.Continue? {
      AnnouncedFailureStandsInContinue(s);
    }
  }

  lemma AnnouncedFailureStandsInContinue(s: System)
    requires s.gui != [] && StackShape(s.gui) && AnnouncedFailureStands(s)
    ensures AnnouncedFailureStands(NextContinue(s))
  {
    if |s.gui| > 1 {
      assert s.gui[|s.gui| - 2].RunsSlots();
    }
  }

  /** While the failure of the current activation is queued, the session is off. */
  lemma QueuedFailureMeansOff(s: System)
    requires FailuresOrdered(s)
    ensures forall id :: id in QueuedFailures(s.state.posted) && id.generation == s.state.generation
                         ==> FailureStands(s.state, id)
    ensures forall id :: id in RunningFailure(s.gui) && id.generation == s.state.generation
                         ==> FailureStands(s.state, id)
  {
    forall id | (id in QueuedFailures(s.state.posted) || id in RunningFailure(s.gui))
                && id.generation == s.state.generation
      ensures FailureStands(s.state, id)
    {
      assert id in FailurePipeline(s);
    }
  }

  lemma ObservedStaysCoherentInWork(s: System, ok: bool, d: seq<Detection>)
    requires Enabled(s, Work(ok, d)) && ObservedCoherent(s)
    ensures ObservedCoherent(NextWork(s, ok, d))
  {
    QueuedFailuresOfWork(s, ok, d);
    hide NextWork, QueuedFailures;
  }

  lemma ObservedStaysCoherentInContinue(s: System)
    requires s.gui != [] && StackShape(s.gui) && FailuresOrdered(s) && ObservedCoherent(s)
    ensures ObservedCoherent(NextContinue(s))
  {
    QueuedFailureMeansOff(s);
    hide FailuresOrdered;
  }

  lemma ObservedStaysCoherent(s: System, step: Step)
    requires Enabled(s, step) && StackShape(s.gui) && FailuresOrdered(s) && ObservedCoherent(s)
    ensures ObservedCoherent(Next(s, step))
  {
    match step
    case Work(ok, d) => ObservedStaysCoherentInWork(s, ok, d);
    case Continue => ObservedStaysCoherentInContinue(s);
    case _ =>
      QueuedFailureMeansOff(s);
      hide FailuresOrdered, NextWork, NextContinue;
  }

  lemma TicketsStayMatchedInWork(s: System, ok: bool, d: seq<Detection>)
    requires Enabled(s, Work(ok, d)) && TicketsMatch(s)
    ensures TicketsMatch(NextWork(s, ok, d))
  {
    hide NextLocal, Accepts;
  }

  lemma TicketsStayMatched(s: System, step: Step)
    requires Enabled(s, step) && TicketsMatch(s)
    ensures TicketsMatch(Next(s, step))
  {
    hide NextWork, NextContinue;
    if step.Work? {
      TicketsStayMatchedInWork(s, step.ok, step.detections);
    }
  }

  lemma DeliveriesStayMatched(s: System, step: Step)
    requires Enabled(s, step) && TicketsMatch(s) && DeliveriesMatch(s.ledger)
    ensures DeliveriesMatch(Next(s, step).ledger)
  {
    hide NextLocal, NextContinue;
  }

  lemma RisingWithout(a: seq<nat>, b: seq<nat>, c: seq<nat>)
    requires Rising(a + b + c)
    ensures Rising(a + c)
  {
    var long, short := a + b + c, a + c;
    forall i | 0 <= i < |short| ensures short[i] == long[if i < |a| then i else i + |b|] {
    }
  }

  /** Emptying any of the three places keeps the order. */
  lemma RisingWithoutSlots(d: seq<nat>, l: seq<nat>, h: seq<nat>, p: seq<nat>, e: seq<nat>,
                           l': seq<nat>, h': seq<nat>, p': seq<nat>)
    requires Rising(d + l + h + p + e)
    requires (l' == l || l' == []) && (h' == h || h' == []) && (p' == p || p' == [])
    ensures Rising(d + l' + h' + p' + e)
  {
    if p' != p {
      RisingWithout(d + l + h, p, e);
      assert d + l + h + p' + e == d + l + h + e;
    }
    if h' != h {
      assert d + l + h + p' + e == d + l + h + (p' + e);
      RisingWithout(d + l, h, p' + e);
      assert d + l + h' + p' + e == d + l + (p' + e);
    }
    if l' != l {
      assert d + l + h' + p' + e == d + l + (h' + p' + e);
      RisingWithout(d, l, h' + p' + e);
      assert d + l' + h' + p' + e == d + (h' + p' + e);
    }
  }

  /** A step that only empties places keeps the order. */
  lemma EmptyingKeepsOrder(s: System, t: System)
    requires TicketsOrdered(s)
    requires t.ledger == s.ledger
    requires t.state.latest.Some? ==> s.state.latest.Some?
    requires t.worker.Holds() ==> s.worker.Holds()
    requires t.state.pending.Some? ==> s.state.pending.Some?
    ensures TicketsOrdered(t)
  {
    var l := s.ledger;
    RisingWithoutSlots(
      l.deliveredTickets, Slot(s.state.latest.Some?, l.latestTicket), Slot(s.worker.Holds(), l.heldTicket),
      Slot(s.state.pending.Some?, l.pendingTicket), [|l.accepted|],
      Slot(t.state.latest.Some?, l.latestTicket), Slot(t.worker.Holds(), l.heldTicket),
      Slot(t.state.pending.Some?, l.pendingTicket));
  }

  lemma SamePipelineKeepsOrder(s: System, t: System)
    requires TicketsOrdered(s) && Pipeline(t) == Pipeline(s) && |t.ledger.accepted| == |s.ledger.accepted|
    ensures TicketsOrdered(t)
  {
  }

  lemma TicketsStayOrderedInPublish(s: System)
    requires s.worker.Publishing? && Accepts(s.state, s.worker.result.identity) && TicketsOrdered(s)
    ensures TicketsOrdered(NextPublish(s))
  {
    hide TicketsOrdered;
    var t := s.(state := s.state.(latest := None));
    EmptyingKeepsOrder(s, t);
    SamePipelineKeepsOrder(t, NextPublish(s));
  }

  lemma TicketsStayOrderedInWork(s: System, ok: bool, d: seq<Detection>)
    requires Enabled(s, Work(ok, d)) && TicketsOrdered(s)
    ensures TicketsOrdered(NextWork(s, ok, d))
  {
    hide NextLocal, TicketsOrdered, Accepts;
    var t := NextWork(s, ok, d);
    if s.worker.Waiting? && !s.stop {
      SamePipelineKeepsOrder(s, t);
    } else if s.worker.Publishing? && Accepts(s.state, s.worker.result.identity) {
      hide NextPublish;
      var moved := s.(effort := s.effort.(moves := s.effort.moves + 1));
      SamePipelineKeepsOrder(s, moved);
      TicketsStayOrderedInPublish(moved);
    } else {
      EmptyingKeepsOrder(s, t);
    }
  }

  lemma TicketsStayOrderedInSubmit(s: System, f: Frame)
    requires TicketsOrdered(s)
    ensures TicketsOrdered(NextSubmit(s, f))
  {
    hide Submittable;
    if Submittable(s.state, f) {
      var t := s.(state := s.state.(pending := None));
      EmptyingKeepsOrder(s, t);
      SubmitJoinsPipeline(s, f);
      hide Pipeline, NextSubmit;
      RisingAppend(Pipeline(t), |s.ledger.accepted|);
    }
  }

  lemma SubmitJoinsPipeline(s: System, f: Frame)
    requires Submittable(s.state, f)
    ensures var n := |s.ledger.accepted|;
            && Pipeline(NextSubmit(s, f)) == Pipeline(s.(state := s.state.(pending := None))) + [n]
            && |NextSubmit(s, f).ledger.accepted| == n + 1
  {
    hide Submittable;
  }

  lemma RisingAppend(tickets: seq<nat>, n: nat)
    requires Rising(tickets + [n])
    ensures Rising(tickets + [n] + [n + 1])
  {
    var short, long := tickets + [n], tickets + [n] + [n + 1];
    forall i | 0 <= i < |tickets| ensures long[i] < n {
      assert short[i] < short[|tickets|];
    }
  }

  lemma TicketsStayOrdered(s: System, step: Step)
    requires Enabled(s, step) && MailboxesCurrent(s.state) && TicketsOrdered(s)
    ensures TicketsOrdered(Next(s, step))
  {
    hide NextWork, NextSubmit, NextContinue, TicketsOrdered;
    var t := Next(s, step);
    match step
    case Work(ok, d) => TicketsStayOrderedInWork(s, ok, d);
    case Submit(f) => TicketsStayOrderedInSubmit(s, f);
    case TakeLatest => SamePipelineKeepsOrder(s, t);
    case _ => EmptyingKeepsOrder(s, t);
  }

  lemma StepKeepsInv(s: System, step: Step)
    requires Enabled(s, step) && Inv(s)
    ensures Inv(Next(s, step))
  {
    hide Enabled, Next, MailboxesCurrent, NotifiesCounted, AnnouncementOutstanding, StackShape, FailuresOrdered,
         FailuresPosted, AnnouncedFailureStands, ObservedCoherent, TicketsMatch, DeliveriesMatch, TicketsOrdered;
    MailboxesStayCurrent(s, step);
    NotifiesStayCounted(s, step);
    AnnouncementStaysOutstanding(s, step);
    StackKeepsShape(s, step);
    FailuresStayOrdered(s, step);
    FailuresStayPosted(s, step);
    AnnouncedFailureKeepsStanding(s, step);
    ObservedStaysCoherent(s, step);
    TicketsStayMatched(s, step);
    DeliveriesStayMatched(s, step);
    TicketsStayOrdered(s, step);
  }

  lemma {:induction false} RunKeepsInv(s: System, steps: seq<Step>, t: System)
    requires Inv(s) && Run(s, steps, t)
    ensures Inv(t)
    decreases |steps|
  {
    hide Inv, Next, Enabled;
    if steps != [] {
      StepKeepsInv(s, steps[0]);
      RunKeepsInv(Next(s, steps[0]), steps[1..], t);
    }
  }

  ghost predicate Reachable(t: System) {
    exists steps :: Run(START, steps, t)
  }

  lemma ReachableIsGood(t: System)
    requires Reachable(t)
    ensures Inv(t)
  {
    hide Inv, Run;
    StartIsGood();
    var steps :| Run(START, steps, t);
    RunKeepsInv(START, steps, t);
  }

  // ----- what this means for a client

  /**
   At any time at most one notification is under way, and it is under way exactly when the mailbox says so. A
   result is never forgotten: once nothing is under way, the latest result has been announced.
   */
  lemma NotificationsCoalesce(t: System)
    requires Reachable(t)
    ensures Notifies(t) == if t.state.notificationPending then 1 else 0
    ensures t.state.latest.Some? && Notifies(t) == 0 ==> t.signals.announced
  {
    ReachableIsGood(t);
  }

  /** What the mailboxes hold is current: the identity check in takeLatestResult never rejects anything. */
  lemma NothingStaleIsHeld(t: System)
    requires Reachable(t)
    ensures t.state.latest.Some? ==> NextTake(t).ledger.delivered == t.ledger.delivered + [t.state.latest.value]
    ensures t.state.latest.Some? || t.state.pending.Some? ==> t.state.enabled
  {
    ReachableIsGood(t);
  }

  /**
   Outside an emission, a listener that read isEnabled at the last enabledChanged knows the truth, unless the
   closure that will announce the failure of the current activation is still queued.
   */
  lemma ListenersKnowEnabled(t: System)
    requires Reachable(t) && GuiMayCall(t)
    ensures var awaited := exists id :: Fail(id) in t.state.posted && id.generation == t.state.generation;
            && (!awaited ==> t.signals.observed == t.state.enabled)
            && (awaited ==> !t.state.enabled)
  {
    ReachableIsGood(t);
    QueuedFailureMeansOff(t);
    QueuedFailuresWerePosted(t.state.posted);
  }

  lemma {:induction false} QueuedFailuresWerePosted(q: seq<Event>)
    ensures forall id :: id in QueuedFailures(q) <==> Fail(id) in q
  {
    if q != [] {
      QueuedFailuresWerePosted(q[1..]);
    }
  }

  /** An activation fails at most once, reports at most one error, and only errors that the worker posted. */
  lemma OneErrorPerActivation(t: System)
    requires Reachable(t)
    ensures Increasing(t.signals.failures) && Increasing(t.signals.errors)
    ensures forall id :: id in t.signals.errors ==> id in t.signals.failures
    ensures forall id :: id in t.signals.errors ==> id.generation <= t.state.generation
  {
    ReachableIsGood(t);
    var e, p := t.signals.errors, FailurePipeline(t);
    forall i | 0 <= i < |e|
      ensures e[i] == p[i] && e[i] in t.signals.failures && e[i].generation <= t.state.generation
    {
      assert p[i] in p;
    }
  }

  /** errorOccurred is emitted only while the activation it belongs to is the current one, switched off. */
  lemma ErrorsAreCurrent(t: System)
    requires Reachable(t) && t.gui != [] && Last(t.gui).AnnounceError?
    ensures FailureStands(t.state, Last(t.gui).identity)
    ensures NextContinue(t).signals.errors == t.signals.errors + [Last(t.gui).identity]
  {
    ReachableIsGood(t);
  }

  /** `sub` lists, in order and without repetition, entries of `all` found at `positions`. */
  ghost predicate DeliveredFrom(sub: seq<AnalyticsResult>, all: seq<Frame>, positions: seq<nat>) {
    && |positions| == |sub| && Rising(positions)
    && forall i :: 0 <= i < |sub| ==>
         && positions[i] < |all|
         && sub[i].identity == all[positions[i]].identity && sub[i].decodeTime == all[positions[i]].decodeTime
         && sub[i].imageWidth == all[positions[i]].image.width && sub[i].imageHeight == all[positions[i]].image.height
  }

  /** The results handed out are results of accepted frames, in the order of acceptance, each at most once. */
  lemma DeliveriesFollowAcceptance(t: System)
    requires Reachable(t)
    ensures DeliveredFrom(t.ledger.delivered, t.ledger.accepted, t.ledger.deliveredTickets)
  {
    ReachableIsGood(t);
    var d, p := t.ledger.deliveredTickets, Pipeline(t) + [|t.ledger.accepted|];
    assert forall i :: 0 <= i < |d| ==> d[i] == p[i];
  }

  // ----- shutdown

  /** Worker moves still possible after shutdown was requested. */
  function MovesLeft(w: Worker): nat {
    match w
    case Exited => 0
    case LoopHead => 1
    case Waiting => 1
    case Loaded(_) => 1
    case Detected(_, _) => 1
    case Publishing(_, _) => 2
    case Failing(_) => 2
    case Loading(_) => 3
    case Detecting(_) => 3
    case Taken(_) => 4
    case Rechecking(_) => 4
  }

  function DetectsLeft(w: Worker): nat {
    if w.Rechecking? then 1 else 0
  }

  function PublicationsLeft(w: Worker): nat {
    if w.LoopHead? || w.Waiting? || w.Loaded? || w.Detected? || w.Exited? then 0 else 1
  }

  lemma ShutdownStep(s: System, step: Step)
    requires Enabled(s, step) && s.stop
    ensures var t := Next(s, step);
            && t.stop
            && t.effort.moves + MovesLeft(t.worker) <= s.effort.moves + MovesLeft(s.worker)
            && t.effort.detects + DetectsLeft(t.worker) <= s.effort.detects + DetectsLeft(s.worker)
            && t.effort.publications + PublicationsLeft(t.worker)
               <= s.effort.publications + PublicationsLeft(s.worker)
  {
    hide NextWork, NextContinue;
    if step.Work? {
      ShutdownMove(s, step.ok, step.detections);
    }
  }

  lemma ShutdownMove(s: System, ok: bool, d: seq<Detection>)
    requires Enabled(s, Work(ok, d)) && s.stop
    ensures var t := NextWork(s, ok, d);
            && t.effort.moves == s.effort.moves + 1 && MovesLeft(t.worker) < MovesLeft(s.worker)
            && t.effort.detects + DetectsLeft(t.worker) <= s.effort.detects + DetectsLeft(s.worker)
            && t.effort.publications + PublicationsLeft(t.worker)
               <= s.effort.publications + PublicationsLeft(s.worker)
  {
    hide Accepts;
  }

  /**
   After a request to stop, whatever else happens, the worker makes at most four more moves, starts at most one
   more detection and publishes at most one more result or failure; and until it has exited it can move.
   */
  lemma {:induction false} ShutdownIsPrompt(s: System, steps: seq<Step>, t: System)
    requires s.stop && Run(s, steps, t)
    ensures t.effort.moves + MovesLeft(t.worker) <= s.effort.moves + MovesLeft(s.worker) <= s.effort.moves + 4
    ensures t.effort.detects + DetectsLeft(t.worker) <= s.effort.detects + DetectsLeft(s.worker)
    ensures t.effort.publications + PublicationsLeft(t.worker)
            <= s.effort.publications + PublicationsLeft(s.worker)
    ensures t.effort.detects <= s.effort.detects + 1 && t.effort.publications <= s.effort.publications + 1
    ensures !t.worker.Exited? ==> Enabled(t, Work(true, []))
    ensures t.stop
    decreases |steps|
  {
    if steps != [] {
      hide Next;
      ShutdownStep(s, steps[0]);
      ShutdownIsPrompt(Next(s, steps[0]), steps[1..], t);
    }
  }
}
