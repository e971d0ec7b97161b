/**
 The GUI thread and the streaming thread of one session: requested runs, the run being executed, the frames and
 the connection states that travel back.
 */
module StreamProtocol {
  import opened Common
  import opened Sequences
  import opened Stream
  import opened StreamWorker

  /** A run in execution: what it has emitted and, by that, how far it has come. */
  datatype Runner = Idle | Running(job: Job, stoppedAtEntry: bool, phase: Phase, word: seq<ConnectionState>)

  datatype System = System(
    session: Session,
    exchange: Snapshot,
    runner: Runner,
    inbox: seq<ConnectionState>,     // state signals queued to the GUI thread
    max: nat,                        // retry budget
    // records of the past
    uris: seq<string>,               // the address of every run requested
    words: seq<seq<ConnectionState>>,// what every finished run emitted
    delivered: seq<ConnectionState>, // state signals the GUI thread has handled
    frameJob: Job)                   // the run whose stream call emitted the frame in the exchange

  function Start(max: nat): System {
    System(NEW_SESSION, NO_FRAME, Idle, [], max, [], [], [], Job("", 0))
  }

  datatype Step =
    | StartRun(uri: string)
    | StopRun
    | Deliver
    | BeginRun
    | EmitState(state: ConnectionState)
    | PublishFrame(image: Image, decodeTime: int)
    | FinishRun

  predicate OnGuiThread(step: Step) {
    step.StartRun? || step.StopRun? || step.Deliver?
  }

  predicate Enabled(s: System, step: Step) {
    match step
    case StartRun(_) => s.session.run < MAX_U64
    case StopRun => true
    case Deliver => s.inbox != []
    case BeginRun => s.runner.Idle? && s.session.jobs != []
    case EmitState(e) =>
      && s.runner.Running?
      && Advance(s.max, s.runner.phase, e).Some?
      && (s.runner.phase.Begin? ==> (e == Disconnected <==> s.runner.stoppedAtEntry))
      && (e == Disconnected ==> s.runner.job.run in s.session.stopped)
    case PublishFrame(_, _) => s.runner.Running? && s.runner.phase.Linked?
    case FinishRun => s.runner.Running? && (s.runner.phase.Done? || s.runner.phase.GaveUp?)
  }

  function Next(s: System, step: Step): System
    requires Enabled(s, step)
  {
    match step
    case StartRun(uri) => s.(session := AfterStart(s.session, uri), uris := s.uris + [uri])
    case StopRun => s.(session := AfterStop(s.session))
    case Deliver =>
      s.(session := AfterState(s.session, s.inbox[0]), inbox := s.inbox[1..], delivered := s.delivered + [s.inbox[0]])
    case BeginRun =>
      var job := s.session.jobs[0];
      s.(session := s.session.(jobs := s.session.jobs[1..]),
         runner := Running(job, job.run in s.session.stopped, Begin, []))
    case EmitState(e) =>
      s.(runner := s.runner.(phase := Advance(s.max, s.runner.phase, e).value, word := s.runner.word + [e]),
         inbox := s.inbox + [e])
    case PublishFrame(image, time) =>
      s.(exchange := AfterPublishFrame(s.exchange, image, time, s.runner.job.run), frameJob := s.runner.job)
    case FinishRun => s.(runner := Idle, words := s.words + [s.runner.word])
  }

  ghost predicate Run(s: System, steps: seq<Step>, t: System)
    decreases |steps|
  {
    if steps == [] then s == t
    else Enabled(s, steps[0]) && Run(Next(s, steps[0]), steps[1..], t)
  }

  ghost predicate Reachable(t: System) {
    exists steps :: Run(Start(t.max), steps, t)
  }

  // ----- invariants

  /** Starting a run stops its predecessor, so only the newest token can be untriggered. */
  ghost predicate OldTokensStopped(s: Session) {
    && (forall r: nat :: r < s.run ==> r in s.stopped)
    && (forall r :: r in s.stopped ==> r <= s.run)
  }

  /** The job was requested, with the address it carries. */
  ghost predicate Requested(s: System, job: Job) {
    1 <= job.run <= |s.uris| && job.uri == s.uris[job.run - 1]
  }

  ghost predicate JobsRequested(s: System) {
    && |s.uris| == s.session.run
    && (forall i :: 0 <= i < |s.session.jobs| ==> Requested(s, s.session.jobs[i]))
    && (s.runner.Running? ==> Requested(s, s.runner.job))
    && (s.exchange.valid ==> Requested(s, s.frameJob) && s.exchange.streamRunId == s.frameJob.run)
    && (!s.exchange.valid ==> s.exchange == NO_FRAME && s.frameJob.run == 0)
  }

  /** The frame in the exchange, the run in execution and the queued runs follow the order of request. */
  ghost predicate RunsOrdered(s: System) {
    && (forall i, j :: 0 <= i < j < |s.session.jobs| ==> s.session.jobs[i].run < s.session.jobs[j].run)
    && (forall i :: 0 <= i < |s.session.jobs| ==> s.frameJob.run < s.session.jobs[i].run)
    && (s.runner.Running? ==>
          && s.frameJob.run <= s.runner.job.run
          && forall i :: 0 <= i < |s.session.jobs| ==> s.runner.job.run < s.session.jobs[i].run)
  }

  function Concat(words: seq<seq<ConnectionState>>): seq<ConnectionState> {
    if words == [] then [] else Concat(Front(words)) + Last(words)
  }

  ghost function Emissions(s: System): seq<ConnectionState> {
    if s.runner.Running? then Concat(s.words) + s.runner.word else Concat(s.words)
  }

  ghost predicate WordsLegal(s: System) {
    && (forall i :: 0 <= i < |s.words| ==> Complete(s.max, s.words[i]))
    && (s.runner.Running? ==> Scan(s.max, s.runner.word) == Some(s.runner.phase))
  }

  /** `w` without entries that repeat the state before them, the first state being Disconnected. */
  function Destutter(w: seq<ConnectionState>): seq<ConnectionState> {
    if w == [] then []
    else
      var d := Destutter(Front(w));
      if Last(w) == StateAfter(d) then d else d + [Last(w)]
  }

  function StateAfter(w: seq<ConnectionState>): ConnectionState {
    if w == [] then Disconnected else Last(w)
  }

  ghost predicate SignalsFaithful(s: System) {
    && s.delivered + s.inbox == Emissions(s)
    && s.session.emitted == Destutter(s.delivered)
    && s.session.state == StateAfter(s.delivered)
  }

  /** A run whose stop came before its execution has nothing to say but that it is over. */
  ghost predicate SupersededSilent(s: System) {
    s.runner.Running? && s.runner.stoppedAtEntry ==>
      || (s.runner.phase == Begin && s.runner.word == [])
      || (s.runner.phase == Done && s.runner.word == [Disconnected])
  }

  ghost predicate Inv(s: System) {
    && OldTokensStopped(s.session) && JobsRequested(s) && RunsOrdered(s) && WordsLegal(s) && SignalsFaithful(s)
    && SupersededSilent(s)
  }

  lemma StartIsGood(max: nat)
    ensures Inv(Start(max))
  {
  }

  lemma OldTokensStayStopped(s: System, step: Step)
    requires Enabled(s, step) && OldTokensStopped(s.session)
    ensures OldTokensStopped(Next(s, step).session)
  {
  }

  lemma JobsStayRequested(s: System, step: Step)
    requires Enabled(s, step) && JobsRequested(s)
    ensures JobsRequested(Next(s, step))
  {
  }

  lemma RunsStayOrdered(s: System, step: Step)
    requires Enabled(s, step) && JobsRequested(s) && RunsOrdered(s)
    ensures RunsOrdered(Next(s, step))
  {
    hide Advance;
  }

  lemma WordsStayLegal(s: System, step: Step)
    requires Enabled(s, step) && WordsLegal(s)
    ensures WordsLegal(Next(s, step))
  {
    hide Scan;
    if step.EmitState? {
      ScanSnoc(s.max, s.runner.word, step.state);
    } else if step.BeginRun? {
      ScanNothing(s.max);
    }
  }

  lemma ScanNothing(max: int)
    ensures Scan(max, []) == Some(Begin)
  {
  }

  lemma {:induction false} DestutterEnds(w: seq<ConnectionState>)
    ensures StateAfter(Destutter(w)) == StateAfter(w)
    ensures forall i :: 0 < i < |Destutter(w)| ==> Destutter(w)[i - 1] != Destutter(w)[i]
  {
    if w != [] {
      DestutterEnds(Front(w));
    }
  }

  lemma DestutterSnoc(w: seq<ConnectionState>, e: ConnectionState)
    ensures Destutter(w + [e]) == if e == StateAfter(w) then Destutter(w) else Destutter(w) + [e]
  {
    assert Front(w + [e]) == w;
    DestutterEnds(w);
  }

  lemma ConcatSnoc(words: seq<seq<ConnectionState>>, w: seq<ConnectionState>)
    ensures Concat(words + [w]) == Concat(words) + w
  {
    assert Front(words + [w]) == words;
  }

  lemma EmissionsOfStep(s: System, step: Step)
    requires Enabled(s, step)
    ensures Emissions(Next(s, step)) == if step.EmitState? then Emissions(s) + [step.state] else Emissions(s)
  {
    hide Concat, Advance;
    match step
    case EmitState(e) => assert Emissions(Next(s, step)) == Concat(s.words) + s.runner.word + [e];
    case BeginRun => assert Concat(s.words) + [] == Concat(s.words);
    case FinishRun => ConcatSnoc(s.words, s.runner.word);
    case _ =>
  }

  lemma SignalsStayFaithful(s: System, step: Step)
    requires Enabled(s, step) && SignalsFaithful(s)
    ensures SignalsFaithful(Next(s, step))
  {
    EmissionsOfStep(s, step);
    hide Destutter, Emissions, Advance;
    match step
    case Deliver =>
      DestutterSnoc(s.delivered, s.inbox[0]);
      DeliverKeepsAll(s.delivered, s.inbox);
    case EmitState(e) =>
      EmitKeepsAll(s.delivered, s.inbox, e);
    case _ =>
  }

  lemma DeliverKeepsAll(delivered: seq<ConnectionState>, inbox: seq<ConnectionState>)
    requires inbox != []
    ensures (delivered + [inbox[0]]) + inbox[1..] == delivered + inbox
  {
  }

  lemma EmitKeepsAll(delivered: seq<ConnectionState>, inbox: seq<ConnectionState>, e: ConnectionState)
    ensures delivered + (inbox + [e]) == (delivered + inbox) + [e]
  {
  }

  lemma SupersededStaysSilent(s: System, step: Step)
    requires Enabled(s, step) && SupersededSilent(s)
    ensures SupersededSilent(Next(s, step))
  {
    if step.EmitState? {
      assert [] + [step.state] == [step.state];
    }
  }

  lemma StepKeepsInv(s: System, step: Step)
    requires Enabled(s, step) && Inv(s)
    ensures Inv(Next(s, step))
  {
    hide Enabled, Next, OldTokensStopped, JobsRequested, RunsOrdered, WordsLegal, SignalsFaithful, SupersededSilent;
    OldTokensStayStopped(s, step);
    JobsStayRequested(s, step);
    RunsStayOrdered(s, step);
    WordsStayLegal(s, step);
    SignalsStayFaithful(s, step);
    SupersededStaysSilent(s, step);
  }

  lemma {:induction false} RunKeepsInv(s: System, steps: seq<Step>, t: System)
    requires Inv(s) && Run(s, steps, t)
    ensures Inv(t)
    decreases |steps|
  {
    hide Inv, Next, Enabled;
    if steps != [] {
      StepKeepsInv(s, steps[0]);
      RunKeepsInv(Next(s, steps[0]), steps[1..], t);
    }
  }

  lemma ReachableIsGood(t: System)
    requires Reachable(t)
    ensures Inv(t)
  {
    hide Inv, Run;
    StartIsGood(t.max);
    var steps :| Run(Start(t.max), steps, t);
    RunKeepsInv(Start(t.max), steps, t);
  }

  // ----- what this means for the GUI

  /** Every run before the current one has been told to stop, and runs are executed in the order of request. */
  lemma RunsAreIsolated(t: System)
    requires Reachable(t)
    ensures forall r: nat :: r < t.session.run ==> r in t.session.stopped
    ensures forall i, j :: 0 <= i < j < |t.session.jobs| ==> t.session.jobs[i].run < t.session.jobs[j].run
    ensures t.runner.Running? ==> forall i :: 0 <= i < |t.session.jobs| ==> t.runner.job.run < t.session.jobs[i].run
  {
    ReachableIsGood(t);
  }

  /**
   A frame the GUI obtains was emitted by the stream call of the current run, which nobody has stopped, for the
   address that was requested last.
   */
  lemma CurrentFrameIsOfCurrentRun(t: System)
    requires Reachable(t) && CurrentFrame(t.session, t.exchange).valid
    ensures t.session.run !in t.session.stopped
    ensures t.uris != [] && t.frameJob == Job(Last(t.uris), t.session.run)
    ensures StreamRunId(t.session) == t.exchange.streamRunId == t.session.run
  {
    ReachableIsGood(t);
  }

  /** Frames of older runs never replace frames of newer ones, and revisions only grow. */
  lemma FramesMoveForward(s: System, step: Step)
    requires Reachable(s) && Enabled(s, step)
    ensures s.exchange.streamRunId <= Next(s, step).exchange.streamRunId
    ensures s.exchange.revision <= Next(s, step).exchange.revision
  {
    ReachableIsGood(s);
  }

  /** The session signals exactly the changes in what the runs emitted. */
  lemma SessionSignalsChanges(t: System)
    requires Reachable(t)
    ensures t.session.emitted == Destutter(t.delivered) && t.delivered + t.inbox == Emissions(t)
    ensures forall i :: 0 <= i < |t.words| ==> Emitted(t.max, t.words[i])
  {
    ReachableIsGood(t);
    forall i | 0 <= i < |t.words| ensures Emitted(t.max, t.words[i]) {
      LanguageExact(t.max, t.words[i]);
    }
  }

  lemma {:induction false} ConcatRests(max: int, words: seq<seq<ConnectionState>>)
    requires forall i :: 0 <= i < |words| ==> Complete(max, words[i])
    ensures StateAfter(Concat(words)) in {Disconnected, Error}
  {
    if words != [] {
      CompleteEnds(max, Last(words));
      assert Last(Concat(words)) == Last(Last(words));
    }
  }

  /** When no run is in execution and all signals are handled, the session rests in Disconnected or Error. */
  lemma SessionRests(t: System)
    requires Reachable(t) && t.runner.Idle? && t.inbox == []
    ensures t.session.state in {Disconnected, Error}
  {
    ReachableIsGood(t);
    hide Complete;
    ConcatRests(t.max, t.words);
    assert t.delivered + t.inbox == t.delivered;
  }

  /** A frame of the current, unstopped run is what the GUI obtains once it is published. */
  lemma PublishedFrameIsCurrent(s: System, image: Image, time: int)
    requires Reachable(s) && Enabled(s, PublishFrame(image, time))
    requires s.runner.job.run == s.session.run && s.session.run !in s.session.stopped
    ensures var t := Next(s, PublishFrame(image, time));
            CurrentFrame(t.session, t.exchange)
            == Snapshot(image, s.exchange.revision + 1, s.session.run, time, true)
  {
    ReachableIsGood(s);
  }

  /** A connected run may publish until it emits its next state. */
  lemma ConnectedRunPublishes(s: System, image: Image, time: int)
    requires s.runner.Running? && s.runner.phase == Linked
    ensures Enabled(s, PublishFrame(image, time))
    ensures Next(s, PublishFrame(image, time)).runner == s.runner
  {
  }

  // ----- the transitions listeners see

  /** The transitions of the documented diagram, and two more. */
  predicate Edge(a: ConnectionState, b: ConnectionState) {
    match a
    case Disconnected => b == Connecting
    case Connecting => b == Connected || b == Reconnecting || b == Disconnected  // Disconnected: not documented
    case Connected => b == Reconnecting || b == Disconnected
    case Reconnecting => b == Connected || b == Error || b == Disconnected
    case Error => b == Disconnected || b == Connecting                            // Connecting: not documented
  }

  /** `w` follows the diagram from Disconnected on. */
  predicate FollowsDiagram(w: seq<ConnectionState>) {
    w == [] || (FollowsDiagram(Front(w)) && Edge(StateAfter(Front(w)), Last(w)))
  }

  lemma FollowsOneMore(w: seq<ConnectionState>, e: ConnectionState)
    requires FollowsDiagram(Destutter(w)) && (e == StateAfter(w) || Edge(StateAfter(w), e))
    ensures FollowsDiagram(Destutter(w + [e]))
  {
    hide Edge, Destutter;
    DestutterSnoc(w, e);
    DestutterEnds(w);
    assert Front(Destutter(w) + [e]) == Destutter(w);
  }

  lemma {:induction false} PrefixFollows(a: seq<ConnectionState>, b: seq<ConnectionState>)
    requires a <= b && FollowsDiagram(b)
    ensures FollowsDiagram(a)
    decreases |b|
  {
    if |a| == |b| {
      assert a == b;
    } else {
      PrefixFollows(a, Front(b));
    }
  }

  /** `e` can be the state a listener knows when a run has come to phase `p`. */
  predicate Fits(p: Phase, e: ConnectionState) {
    match p
    case Begin => e == Disconnected || e == Error
    case Trying(_) => e == Connecting || e == Reconnecting
    case Linked => e == Connected
    case Owed => e == Reconnecting
    case GaveUp => e == Error
    case Done => e == Disconnected
  }

  lemma AdvanceFits(max: int, p: Phase, known: ConnectionState, e: ConnectionState)
    requires Fits(p, known) && Advance(max, p, e).Some?
    ensures Fits(Advance(max, p, e).value, e) && (e == known || Edge(known, e))
  {
  }

  lemma {:induction false} WordFollowsDiagram(max: int, x: seq<ConnectionState>, w: seq<ConnectionState>)
    requires FollowsDiagram(Destutter(x)) && Fits(Begin, StateAfter(x)) && Scan(max, w).Some?
    ensures FollowsDiagram(Destutter(x + w)) && Fits(Scan(max, w).value, StateAfter(x + w))
    decreases |w|
  {
    hide FollowsDiagram, Destutter, Fits, Edge, Advance, Scan;
    if w == [] {
      assert x + w == x;
      ScanNothing(max);
    } else {
      var v, e := Front(w), Last(w);
      assert w == v + [e];
      ScanSnoc(max, v, e);
      WordFollowsDiagram(max, x, v);
      assert x + w == (x + v) + [e];
      AdvanceFits(max, Scan(max, v).value, StateAfter(x + v), e);
      FollowsOneMore(x + v, e);
    }
  }

  lemma {:induction false} RunsFollowDiagram(max: int, words: seq<seq<ConnectionState>>)
    requires forall i :: 0 <= i < |words| ==> Complete(max, words[i])
    ensures FollowsDiagram(Destutter(Concat(words))) && StateAfter(Concat(words)) in {Disconnected, Error}
  {
    hide Scan;
    ConcatRests(max, words);
    if words != [] {
      RunsFollowDiagram(max, Front(words));
      WordFollowsDiagram(max, Concat(Front(words)), Last(words));
    }
  }

  lemma {:induction false} DestutterPrefix(a: seq<ConnectionState>, b: seq<ConnectionState>)
    ensures Destutter(a) <= Destutter(a + b)
    decreases |b|
  {
    if b == [] {
      assert a + b == a;
    } else {
      DestutterPrefix(a, Front(b));
      assert a + b == (a + Front(b)) + [Last(b)];
      hide Destutter;
      DestutterSnoc(a + Front(b), Last(b));
    }
  }

  /** Whatever is started and stopped, listeners of the session see only transitions of the diagram. */
  lemma SessionFollowsDiagram(t: System)
    requires Reachable(t)
    ensures FollowsDiagram(t.session.emitted)
  {
    ReachableIsGood(t);
    hide Scan, Destutter, Edge;
    RunsFollowDiagram(t.max, t.words);
    if t.runner.Running? {
      WordFollowsDiagram(t.max, Concat(t.words), t.runner.word);
    }
    assert FollowsDiagram(Destutter(Emissions(t)));
    DestutterPrefix(t.delivered, t.inbox);
    PrefixFollows(t.session.emitted, Destutter(Emissions(t)));
  }

  /** A run whose stop came before its execution reports Disconnected, nothing else, and publishes no frame. */
  lemma SupersededRunStaysSilent(t: System)
    requires Reachable(t) && t.runner.Running? && t.runner.stoppedAtEntry
    ensures t.runner.word == if t.runner.phase == Begin then [] else [Disconnected]
    ensures t.runner.phase == Begin || t.runner.phase == Done
    ensures forall image, time :: !Enabled(t, PublishFrame(image, time))
    ensures Enabled(t, FinishRun) <==> t.runner.word == [Disconnected]
  {
    ReachableIsGood(t);
  }

  lemma RunSnoc(s: System, steps: seq<Step>, t: System, step: Step)
    requires Run(s, steps, t) && Enabled(t, step)
    ensures Run(s, steps + [step], Next(t, step))
    decreases |steps|
  {
    hide Next, Enabled;
    if steps == [] {
      assert [step][1..] == [];
      assert Run(Next(s, step), [], Next(s, step));
      assert steps + [step] == [step];
    } else {
      RunSnoc(Next(s, steps[0]), steps[1..], t, step);
      assert (steps + [step])[1..] == steps[1..] + [step];
    }
  }

  lemma ReachableStep(s: System, step: Step)
    requires Reachable(s) && Enabled(s, step)
    ensures Reachable(Next(s, step))
  {
    hide Run, Enabled;
    var steps :| Run(Start(s.max), steps, s);
    RunSnoc(Start(s.max), steps, s, step);
    assert Next(s, step).max == s.max;
  }

  /** Isolation is needed: an older run can publish after a new start; the GUI then sees no frame at all. */
  lemma OlderRunMayPublishLate(image: Image, time: int)
    ensures exists s :: Reachable(s) && s.exchange.valid && s.exchange.streamRunId < s.session.run
                        && s.session.run !in s.session.stopped
                        && !CurrentFrame(s.session, s.exchange).valid
  {
    hide Reachable;
    var s := Connects(30);
    s := Then(s, EmitState(Connected));
    s := Then(s, StartRun("b"));
    s := Then(s, PublishFrame(image, time));
  }

  // ----- the two transitions that are not documented

  lemma Then(s: System, step: Step) returns (t: System)
    requires Reachable(s) && Enabled(s, step)
    ensures Reachable(t) && t == Next(s, step)
  {
    t := Next(s, step);
    ReachableStep(s, step);
  }

  /** A stop that comes before the first connection. */
  lemma ConnectingCanEnd()
    ensures exists t :: Reachable(t) && t.session.emitted == [Connecting, Disconnected]
  {
    hide Reachable;
    var s := Connects(30);
    s := Then(s, StopRun);
    s := Then(s, EmitState(Disconnected));
    s := Then(s, Deliver);
    assert s.session.emitted == [Connecting];
    s := Then(s, Deliver);
    assert s.session.emitted == [Connecting, Disconnected];
  }

  /** A new run after one that has given up. */
  lemma ErrorCanBeFollowedByConnecting()
    ensures exists t :: Reachable(t) && t.session.emitted == [Connecting, Reconnecting, Error, Connecting]
  {
    hide Reachable;
    var s := GivesUp();
    s := Then(s, StartRun("b"));
    s := Then(s, BeginRun);
    s := Then(s, EmitState(Connecting));
    s := Then(s, Deliver);
    assert s.session.emitted == [Connecting, Reconnecting, Error, Connecting];
  }

  /** A first run has emitted its first state, which is not handled yet. */
  lemma Connects(max: nat) returns (s: System)
    ensures Reachable(s) && s.max == max && s.inbox == [Connecting]
    ensures s.session == Session(1, {0}, Disconnected, [], [])
    ensures s.runner == Running(Job("a", 1), false, Trying(0), [Connecting])
  {
    s := Start(max);
    assert Run(s, [], s);
    hide Reachable;
    s := Then(s, StartRun("a"));
    s := Then(s, BeginRun);
    s := Then(s, EmitState(Connecting));
  }

  /** Without retries the first failure ends the run. */
  lemma RunFails() returns (s: System)
    ensures Reachable(s) && s.max == 0 && s.inbox == [Connecting, Reconnecting, Error] && s.runner.Idle?
    ensures s.session == Session(1, {0}, Disconnected, [], [])
  {
    hide Reachable;
    s := Connects(0);
    s := Then(s, EmitState(Reconnecting));
    s := Then(s, EmitState(Error));
    s := Then(s, FinishRun);
  }

  lemma GivesUp() returns (s: System)
    ensures Reachable(s) && s.max == 0 && s.inbox == [] && s.runner.Idle?
    ensures s.session == Session(1, {0}, Error, [Connecting, Reconnecting, Error], [])
  {
    hide Reachable;
    s := RunFails();
    s := Then(s, Deliver);
    assert s.session.emitted == [Connecting];
    s := Then(s, Deliver);
    assert s.session.emitted == [Connecting, Reconnecting];
    s := Then(s, Deliver);
    assert s.session.emitted == [Connecting, Reconnecting, Error];
  }
}
