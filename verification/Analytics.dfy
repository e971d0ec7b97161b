/**
 The state shared by the GUI thread, the frame submitters and the analytics worker, and its critical sections.

 Every method of the class is one critical section of the state mutex. Each is proved against a function on the
 abstract state; the protocol over those functions is in AnalyticsProtocol.
 */
module Analytics {
  import opened Common
  import opened Sequences
  import opened Suppression
  import opened Mailboxes

  datatype Identity = Identity(streamRunId: nat, generation: nat, revision: nat)

  datatype Frame = Frame(identity: Identity, decodeTime: int, image: Image)

  datatype AnalyticsResult = AnalyticsResult(
    identity: Identity, decodeTime: int, imageWidth: int, imageHeight: int, detections: seq<Detection>)

  /** The closures queued for the GUI thread. */
  datatype Event = Notify | Fail(identity: Identity)

  datatype State = State(
    enabled: bool,
    streamRunId: nat,
    generation: nat,
    pending: Option<Frame>,
    latest: Option<AnalyticsResult>,
    notificationPending: bool,
    posted: seq<Event>)

  const INITIAL := State(false, 0, 0, None, None, false, [])

  predicate Accepts(s: State, id: Identity) {
    s.enabled && id.streamRunId == s.streamRunId && id.generation == s.generation
  }

  predicate Submittable(s: State, f: Frame) {
    !f.image.isNull && f.image.isRgb888 && Accepts(s, f.identity)
  }

  /** The failure `id` still describes the current activation, which is off. */
  predicate FailureStands(s: State, id: Identity) {
    s.streamRunId == id.streamRunId && s.generation == id.generation && !s.enabled
  }

  /** What the worker computes from a frame. */
  function ResultFor(f: Frame, detections: seq<Detection>): AnalyticsResult {
    AnalyticsResult(f.identity, f.decodeTime, f.image.width, f.image.height, detections)
  }

  // ----- effect of each critical section

  function AfterEnable(s: State, run: nat): State {
    s.(enabled := true, streamRunId := run, generation := s.generation + 1, pending := None, latest := None)
  }

  function AfterDisable(s: State): State {
    s.(enabled := false, pending := None, latest := None)
  }

  function AfterSubmit(s: State, f: Frame): State {
    if Submittable(s, f) then s.(pending := Some(f)) else s
  }

  function AfterTakeFrame(s: State): State {
    s.(pending := None)
  }

  function AfterTakeLatest(s: State): State {
    s.(latest := None)
  }

  function AfterPublish(s: State, r: AnalyticsResult): State {
    if !Accepts(s, r.identity) then s
    else s.(latest := Some(r), notificationPending := true,
            posted := if s.notificationPending then s.posted else s.posted + [Notify])
  }

  function AfterFailure(s: State, id: Identity): State {
    if !Accepts(s, id) then s
    else s.(enabled := false, pending := None, latest := None, posted := s.posted + [Fail(id)])
  }

  function AfterAcknowledge(s: State): State {
    s.(notificationPending := false)
  }

  class AnalyticsSession {
    var enabled: bool
    var streamRunId: nat
    var generation: nat
    const frames: FrameMailbox<Frame>
    const results: ResultMailbox<AnalyticsResult>
    var posted: seq<Event>

    ghost function View(): State
      reads this, frames, results
    {
      State(enabled, streamRunId, generation, frames.pending, results.latest, results.notificationPending, posted)
    }

    constructor ()
      ensures View() == INITIAL
      ensures fresh(frames) && fresh(results)
    {
      enabled, streamRunId, generation, posted := false, 0, 0, [];
      frames := new FrameMailbox();
      results := new ResultMailbox();
    }

    method AcceptsIdentity(id: Identity) returns (r: bool)
      ensures r == Accepts(View(), id)
      ensures r <==> enabled && id.streamRunId == streamRunId && id.generation == generation
    {
      r := enabled && id.streamRunId == streamRunId && id.generation == generation;
    }

    /** Starts an activation; `changed` asks the caller to emit enabledChanged after the mutex is released. */
    method Enable(run: nat) returns (r: Outcome<nat>, changed: bool)
      modifies this, frames, results
      ensures old(generation) == MAX_U64 ==> r == InvalidArgument && !changed && View() == old(View())
      ensures old(generation) != MAX_U64 ==>
                View() == AfterEnable(old(View()), run) && r == Ok(generation) && changed == !old(enabled)
      ensures r.Ok? ==>
                && enabled && streamRunId == run && generation == old(generation) + 1
                && frames.pending == None && results.latest == None
                && results.notificationPending == old(results.notificationPending) && posted == old(posted)
    {
      changed := false;
      if generation == MAX_U64 {
        return InvalidArgument, false;
      }
      generation := generation + 1;
      streamRunId := run;
      changed := !enabled;
      enabled := true;
      frames.Clear();
      results.Clear();
      r := Ok(generation);
    }

    method Disable() returns (changed: bool)
      modifies this, frames, results
      ensures View() == AfterDisable(old(View())) && changed == old(enabled)
      ensures !enabled && frames.pending == None && results.latest == None
      ensures streamRunId == old(streamRunId) && generation == old(generation)
      ensures results.notificationPending == old(results.notificationPending) && posted == old(posted)
    {
      changed := enabled;
      enabled := false;
      frames.Clear();
      results.Clear();
    }

    method SubmitFrame(frame: Frame) returns (accepted: bool)
      modifies frames
      ensures View() == AfterSubmit(old(View()), frame)
      ensures accepted <==> && !frame.image.isNull && frame.image.isRgb888 && enabled
                            && frame.identity.streamRunId == streamRunId && frame.identity.generation == generation
      ensures frames.pending == if accepted then Some(frame) else old(frames.pending)
    {
      if frame.image.isNull || !frame.image.isRgb888 {
        return false;
      }
      var ok := AcceptsIdentity(frame.identity);
      if !ok {
        return false;
      }
      frames.Submit(frame);
      accepted := true;
    }

    method TakeLatestResult() returns (result: Option<AnalyticsResult>)
      modifies results
      ensures View() == AfterTakeLatest(old(View()))
      ensures var l := old(results.latest);
              result == if l.Some? && enabled && l.value.identity.streamRunId == streamRunId
                           && l.value.identity.generation == generation
                        then l else None
      ensures results.latest == None && results.notificationPending == old(results.notificationPending)
    {
      result := results.TakeLatest();
      if result.Some? {
        var ok := AcceptsIdentity(result.value.identity);
        if !ok {
          result := None;
        }
      }
    }

    /** The worker's part of the frame mailbox: the only access that does not hold the state mutex. */
    method WaitForFrame(stopRequested: bool) returns (frame: Option<Frame>)
      requires stopRequested || frames.pending.Some?
      modifies frames
      ensures stopRequested ==> frame == None && View() == old(View())
      ensures !stopRequested ==> frame == old(frames.pending) && View() == AfterTakeFrame(old(View()))
    {
      frame := frames.WaitAndTake(stopRequested);
    }

    method PublishResult(result: AnalyticsResult)
      modifies this, results
      ensures View() == AfterPublish(old(View()), result)
      ensures enabled == old(enabled) && streamRunId == old(streamRunId) && generation == old(generation)
      ensures var accepted := && enabled && result.identity.streamRunId == streamRunId
                              && result.identity.generation == generation;
              if accepted
              then && results.latest == Some(result) && results.notificationPending
                   && posted == old(posted) + if old(results.notificationPending) then [] else [Notify]
              else && results.latest == old(results.latest) && posted == old(posted)
                   && results.notificationPending == old(results.notificationPending)
    {
      var ok := AcceptsIdentity(result.identity);
      if !ok {
        return;
      }
      var mustNotify := results.Publish(result);
      if !mustNotify {
        return;
      }
      posted := posted + [Notify];
    }

    method ReportFailure(id: Identity)
      modifies this, frames, results
      ensures View() == AfterFailure(old(View()), id)
      ensures streamRunId == old(streamRunId) && generation == old(generation)
      ensures results.notificationPending == old(results.notificationPending)
      ensures if old(enabled) && id.streamRunId == streamRunId && id.generation == generation
              then && !enabled && frames.pending == None && results.latest == None
                   && posted == old(posted) + [Fail(id)]
              else && enabled == old(enabled) && posted == old(posted)
                   && frames.pending == old(frames.pending) && results.latest == old(results.latest)
    {
      var ok := AcceptsIdentity(id);
      if !ok {
        return;
      }
      enabled := false;
      frames.Clear();
      results.Clear();
      posted := posted + [Fail(id)];
    }

    /** First half of the queued notification; the signal follows after the mutex is released. */
    method AcknowledgeNotification() returns (shouldNotify: bool)
      modifies results
      ensures View() == AfterAcknowledge(old(View()))
      ensures !results.notificationPending && results.latest == old(results.latest)
      ensures shouldNotify == (enabled && results.latest.Some?)
    {
      var hasResult := results.AcknowledgeNotification();
      shouldNotify := enabled && hasResult;
    }

    /** The check the queued failure makes before each of its two signals. */
    method CheckFailure(id: Identity) returns (stands: bool)
      ensures stands == FailureStands(View(), id)
      ensures stands <==> !enabled && id.streamRunId == streamRunId && id.generation == generation
    {
      stands := !(streamRunId != id.streamRunId || generation != id.generation || enabled);
    }
  }
}
