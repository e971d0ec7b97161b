/**
 Runs of the streaming service: what its recorder does over any number of attempts, and what listeners are told.
 */
module StreamAttempts {
  import opened Sequences
  import opened Recorder
  import opened RecordedFiles
  import opened StreamingService
  import Stream
  import StreamWorker

  // ----- what listeners know of the recording state

  /** What a listener of recordingStateChanged takes the state to be. */
  function Observed(s: Service): RecordingState {
    if s.emitted == [] then Stopped else Last(s.emitted)
  }

  predicate Mirrored(s: Service) {
    Observed(s) == s.recorder.state
  }

  /** The documented transitions of the recorder; Stopping is passed through within one operation. */
  predicate Edge(a: RecordingState, b: RecordingState) {
    match a
    case Stopped => b == Starting
    case Starting => b == Recording || b == Stopped || b == Error
    case Recording => b == Stopped || b == Error
    case _ => false
  }

  /** Each signal repeats the state before it or is reached by a documented transition, from Stopped on. */
  predicate FollowsDiagram(signals: seq<RecordingState>) {
    if signals == [] then true
    else
      var before := if Front(signals) == [] then Stopped else Last(Front(signals));
      FollowsDiagram(Front(signals)) && (Last(signals) == before || Edge(before, Last(signals)))
  }

  /** Listeners know the state, and have been led to it along the diagram. */
  predicate Told(s: Service) {
    Mirrored(s) && FollowsDiagram(s.emitted)
  }

  /** The recorder between two attempts. */
  ghost predicate Rested(s: Service) {
    Inv(s.recorder) && Told(s) && (s.recorder.state == Stopped || s.recorder.state == Error)
  }

  /** One operation of the recorder takes at most one transition. */
  lemma OneTransition(r: Recorder, e: Event)
    requires Shape(r)
    ensures After(r, e).state == r.state || Edge(r.state, After(r, e).state)
  {
    hide After;
    TransitionsFollowDiagram(r, e);
  }

  lemma AnnouncedIsTold(s: Service, r: Recorder)
    requires Told(s) && (r.state == s.recorder.state || Edge(s.recorder.state, r.state))
    ensures Told(Announced(s.(recorder := r)))
  {
    hide Edge;
    assert Front(s.emitted + [r.state]) == s.emitted;
  }

  lemma StartKeepsTold(s: Service, start: Option<Configuration>, input: InputStream)
    requires Told(s) && Shape(s.recorder)
    ensures Told(AfterStartCommand(s, start, input)) && Shape(AfterStartCommand(s, start, input).recorder)
  {
    if start.Some? {
      OneTransition(s.recorder, Request(start.value, input));
      AnnouncedIsTold(s, AfterRequest(s.recorder, start.value, input));
      hide FollowsDiagram, Edge;
    }
  }

  lemma CommandsKeepTold(s: Service, input: InputStream, ok: bool)
    requires Told(s) && Shape(s.recorder)
    ensures Told(AfterCommands(s, input, ok))
  {
    hide AfterStop, AfterStartCommand, FollowsDiagram, Edge, Shape;
    var t := AfterStartCommand(s.(pending := NOTHING), s.pending.start, input);
    StartKeepsTold(s.(pending := NOTHING), s.pending.start, input);
    OneTransition(t.recorder, Stop(ok));
    AnnouncedIsTold(t, AfterStop(t.recorder, ok));
  }

  lemma ReadKeepsTold(s: Service, read: Read, input: InputStream)
    requires Told(s) && Shape(s.recorder)
    ensures Told(AfterRead(s, read, input))
  {
    hide AfterPacket, FollowsDiagram, Edge, Shape;
    if IsVideo(read, input) {
      OneTransition(s.recorder, Video(read.packet, read.opening, read.writing));
      AnnouncedIsTold(s, AfterPacket(s.recorder, read.packet, read.opening, read.writing));
    }
  }

  // ----- the recorder through an attempt

  lemma CommandsKeepInv(s: Service, input: InputStream, ok: bool)
    requires Inv(s.recorder)
    ensures Inv(AfterCommands(s, input, ok).recorder)
  {
    hide Inv, AfterStop, AfterRequest;
    if s.pending.start.Some? {
      RequestKeepsInv(s.recorder, s.pending.start.value, input);
    }
    StopKeepsInv(AfterStartCommand(s.(pending := NOTHING), s.pending.start, input).recorder, ok);
  }

  lemma ReadKeepsInv(s: Service, read: Read, input: InputStream)
    requires Inv(s.recorder)
    ensures Inv(AfterRead(s, read, input).recorder)
  {
    hide Inv, AfterPacket;
    if IsVideo(read, input) {
      PacketKeepsInv(s.recorder, read.packet, read.opening, read.writing);
    }
  }

  /** The recorder refers to `input` or to nothing. */
  predicate RefersTo(r: Recorder, input: InputStream) {
    r.input == None || r.input == Some(input)
  }

  lemma CommandsKeepInput(s: Service, input: InputStream, ok: bool)
    requires RefersTo(s.recorder, input)
    ensures RefersTo(AfterCommands(s, input, ok).recorder, input)
  {
  }

  /**
   At every head of the packet loop listeners know the recorder's state, its resources are those of its state, and
   it refers to no input but the one that is open.
   */
  lemma {:induction false} EveryLoopHead(s: Service, c: Course, input: InputStream, n: nat)
    requires Rested(s)
    ensures var t := AtLoopHead(s, c, input, n);
            Told(t) && Inv(t.recorder) && RefersTo(t.recorder, input)
  {
    hide AfterCommands, AfterRead, Inv, Told;
    if n == 0 {
      StartsAtRest(s);
    } else {
      EveryLoopHead(s, c, input, n - 1);
      var t := AtLoopHead(s, c, input, n - 1);
      EveryPass(t, RoundAt(c, n - 1), input);
    }
  }

  lemma StartsAtRest(s: Service)
    requires Rested(s)
    ensures var t := s.(connections := s.connections + 1);
            Told(t) && Inv(t.recorder) && t.recorder.input == None
  {
  }

  ghost predicate Tracked(s: Service, input: InputStream) {
    Told(s) && Inv(s.recorder) && RefersTo(s.recorder, input)
  }

  lemma InvHasShape(r: Recorder)
    requires Inv(r)
    ensures Shape(r)
  {
  }

  lemma EveryPass(s: Service, round: Round, input: InputStream)
    requires Tracked(s, input)
    ensures Tracked(BeforeRead(s, round, input), input)
    ensures Tracked(AfterRead(BeforeRead(s, round, input), round.read, input), input)
  {
    hide AfterCommands, Inv, AfterPacket, AfterEnqueueAll, FollowsDiagram;
    var t := WithCommands(s, round.commands);
    var u := BeforeRead(s, round, input);
    InvHasShape(s.recorder);
    CommandsKeepTold(t, input, round.trailerWritten);
    CommandsKeepInv(t, input, round.trailerWritten);
    CommandsKeepInput(t, input, round.trailerWritten);
    InvHasShape(u.recorder);
    ReadKeepsTold(u, round.read, input);
    ReadKeepsInv(u, round.read, input);
    if IsVideo(round.read, input) {
      PacketKeepsInput(u.recorder, round.read.packet, round.read.opening, round.read.writing);
    }
  }

  lemma LoopStaysTracked(s: Service, c: Course, input: InputStream)
    requires Rested(s)
    ensures Tracked(AfterLoop(s, c, input), input)
  {
    hide AtLoopHead, BeforeRead, Inv, Told, RefersTo, AfterRead;
    var n := Passes(c, 0);
    EveryLoopHead(s, c, input, n);
    EveryPass(AtLoopHead(s, c, input, n), RoundAt(c, n), input);
  }

  lemma ShutdownRests(s: Service, ok: bool)
    requires Inv(s.recorder) && Told(s)
    ensures Rested(AfterShutdown(s, ok))
  {
    StopKeepsInv(s.recorder, ok);
    hide FilesSound, FilesOrdered, HandlesSound, OutputSound, StillWaiting, FollowsDiagram, Edge;
    OneTransition(s.recorder, Stop(ok));
    AnnouncedIsTold(s, AfterStop(s.recorder, ok));
  }

  /** Between attempts the recorder rests, and listeners know in which state. */
  lemma AttemptEndsAtRest(s: Service, c: Course, input: InputStream)
    requires Rested(s)
    ensures Rested(AfterAttempt(s, c, input))
  {
    hide AfterLoop, AfterShutdown, Inv;
    LoopStaysTracked(s, c, input);
    var t := if Connects(c) then AfterLoop(s, c, input) else s;
    ShutdownRests(t, c.trailerWritten);
  }

  // ----- recordings and attempts

  /** The video packets of the first `n` passes. */
  function VideoPackets(c: Course, input: InputStream, n: nat): seq<Packet> {
    if n == 0 then []
    else
      var read := RoundAt(c, n - 1).read;
      if read.PacketRead? && read.streamIndex == input.index then VideoPackets(c, input, n - 1) + [read.packet]
      else VideoPackets(c, input, n - 1)
  }

  /** The video packets an attempt reads. */
  function PacketsRead(c: Course, input: InputStream): seq<Packet> {
    if Connects(c) then VideoPackets(c, input, Passes(c, 0)) else []
  }

  /** From `r0` to `r` nothing recorded was touched, and everything new was requested after `r0`. */
  ghost predicate Since(r0: Recorder, r: Recorder) {
    && r0.files <= r.files && |r0.seen| <= Limit(r)
    && forall i :: |r0.files| <= i < |r.files| ==> |r0.seen| <= r.files[i].requested
  }

  lemma SinceStop(r0: Recorder, r: Recorder, ok: bool)
    requires Since(r0, r) && Inv(r)
    ensures Since(r0, AfterStop(r, ok)) && AfterStop(r, ok).seen == r.seen
  {
    hide FilesSound, FilesOrdered, HandlesSound, OutputSound, StillWaiting;
  }

  lemma SinceCommands(r0: Recorder, s: Service, input: InputStream, ok: bool)
    requires Since(r0, s.recorder) && Inv(s.recorder)
    ensures Since(r0, AfterCommands(s, input, ok).recorder)
    ensures AfterCommands(s, input, ok).recorder.seen == s.recorder.seen
  {
    hide AfterStop, FilesSound, FilesOrdered, HandlesSound, OutputSound, StillWaiting;
    var t := AfterStartCommand(s.(pending := NOTHING), s.pending.start, input);
    if s.pending.start.Some? {
      RequestKeepsInv(s.recorder, s.pending.start.value, input);
    }
    SinceStop(r0, t.recorder, ok);
  }

  lemma SinceWrite(r0: Recorder, r: Recorder, p: Packet, w: Writing)
    requires Since(r0, r) && r.output.Some? && r.state == Recording && Limit(r) <= |r.seen|
    ensures Since(r0, AfterWrite(r, p, w)) && AfterWrite(r, p, w).seen == r.seen
  {
  }

  lemma SinceOpening(r0: Recorder, r: Recorder, path: string, o: Opening)
    requires Since(r0, r) && r.state == Starting && r.output == None && Limit(r) <= |r.seen|
    ensures var t := AfterOpening(r, path, o);
            && t.seen == r.seen
            && if OpeningResult(o).Success? then t.output.Some? && Since(r0, t.(pending := None, state := Recording))
               else Since(r0, AfterError(t)) && AfterError(t).seen == r.seen
  {
  }

  lemma SincePacket(r0: Recorder, r: Recorder, p: Packet, o: Opening, w: Writing)
    requires Since(r0, r) && Inv(r)
    ensures Since(r0, AfterPacket(r, p, o, w)) && AfterPacket(r, p, o, w).seen == r.seen + [p]
  {
    hide AfterWrite, AfterOpening, AfterError, FilesSound, FilesOrdered, HandlesSound, OutputSound, StillWaiting;
    var s := r.(seen := r.seen + [p]);
    if r.state == Starting && p.isKeyFrame {
      var t := AfterOpening(s, PendingPath(r), o);
      SinceOpening(r0, s, PendingPath(r), o);
      if OpeningResult(o).Success? {
        OpeningSucceeds(s, PendingPath(r), o);
        SinceWrite(r0, t.(pending := None, state := Recording), p, w);
      }
    } else if r.state == Recording {
      SinceWrite(r0, s, p, w);
    }
  }

  lemma SincePass(r0: Recorder, s: Service, round: Round, input: InputStream)
    requires Since(r0, s.recorder) && Tracked(s, input)
    ensures var t := BeforeRead(s, round, input);
            var u := AfterRead(t, round.read, input);
            && Since(r0, t.recorder) && t.recorder.seen == s.recorder.seen
            && Since(r0, u.recorder)
            && u.recorder.seen == if IsVideo(round.read, input) then s.recorder.seen + [round.read.packet]
                                  else s.recorder.seen
  {
    hide AfterCommands, Inv, Since, AfterPacket, AfterEnqueueAll;
    EveryPass(s, round, input);
    var t := BeforeRead(s, round, input);
    SinceCommands(r0, WithCommands(s, round.commands), input, round.trailerWritten);
    if IsVideo(round.read, input) {
      SincePacket(r0, t.recorder, round.read.packet, round.read.opening, round.read.writing);
    }
  }

  lemma {:induction false} SinceLoopHead(s: Service, c: Course, input: InputStream, n: nat)
    requires Rested(s)
    ensures var t := AtLoopHead(s, c, input, n);
            Since(s.recorder, t.recorder) && t.recorder.seen == s.recorder.seen + VideoPackets(c, input, n)
  {
    hide BeforeRead, AfterRead;
    if n > 0 {
      hide Inv, Since, Told;
      SinceLoopHead(s, c, input, n - 1);
      EveryLoopHead(s, c, input, n - 1);
      SincePass(s.recorder, AtLoopHead(s, c, input, n - 1), RoundAt(c, n - 1), input);
    }
  }

  lemma SinceAttempt(s: Service, c: Course, input: InputStream)
    requires Rested(s)
    ensures var t := AfterAttempt(s, c, input);
            Since(s.recorder, t.recorder) && t.recorder.seen == s.recorder.seen + PacketsRead(c, input)
  {
    hide BeforeRead, AfterRead, AtLoopHead, AfterStop;
    assert Since(s.recorder, s.recorder);
    hide Inv, Since, Told;
    if !StopRequested(c, AT_ENTRY) {
      var t := if Connects(c) then AfterLoop(s, c, input) else s;
      if Connects(c) {
        var n := Passes(c, 0);
        SinceLoopHead(s, c, input, n);
        EveryLoopHead(s, c, input, n);
        SincePass(s.recorder, AtLoopHead(s, c, input, n), RoundAt(c, n), input);
        LoopStaysTracked(s, c, input);
      }
      SinceStop(s.recorder, t.recorder, c.trailerWritten);
    }
  }

  /** `f` with its positions counted from packet `base` on. */
  function Rebased(f: File, base: nat): File
    requires base <= f.requested && f.ended.Some? && base <= f.ended.value
  {
    f.(requested := f.requested - base, ended := Some(f.ended.value - base))
  }

  lemma BlockRebased(f: File, before: seq<Packet>, read: seq<Packet>, end: nat, log: seq<Entry>)
    requires |before| <= f.requested && f.ended.Some? && |before| <= f.ended.value && |before| <= end
    requires Block(f, before + read, end, log)
    ensures Block(Rebased(f, |before|), read, end - |before|, log)
  {
    var base, all := |before|, before + read;
    var k: nat :| FirstKeyFrame(all, f.requested, k) && k <= end <= |all|
                  && log == [Header(true)] + Writes(all[k..end]);
    KeyFrameRebased(f.requested, before, read, k);
    assert all[k..end] == read[k - base..end - base];
  }

  lemma KeyFrameRebased(from: nat, before: seq<Packet>, read: seq<Packet>, k: nat)
    requires |before| <= from && FirstKeyFrame(before + read, from, k)
    ensures FirstKeyFrame(read, from - |before|, k - |before|)
  {
    forall i | from - |before| <= i < k - |before| ensures !read[i].isKeyFrame {
      assert (before + read)[i + |before|] == read[i];
    }
  }

  lemma CompleteRebased(f: File, before: seq<Packet>, read: seq<Packet>)
    requires |before| <= f.requested && f.ended.Some? && f.requested <= f.ended.value
    requires Complete(f, before + read)
    ensures Complete(Rebased(f, |before|), read)
  {
    BlockRebased(f, before, read, f.ended.value, Front(f.log));
  }

  lemma TruncatedRebased(f: File, before: seq<Packet>, read: seq<Packet>)
    requires |before| <= f.requested && f.ended.Some? && f.requested < f.ended.value
    requires Truncated(f, before + read)
    ensures Truncated(Rebased(f, |before|), read)
  {
    hide Block;
    var all, last := before + read, f.ended.value - 1;
    assert all[last] == read[last - |before|];
    if FirstKeyFrame(all, f.requested, last) {
      KeyFrameRebased(f.requested, before, read, last);
    }
    if Block(f, all, last, f.log) {
      BlockRebased(f, before, read, last, f.log);
    }
    if f.log != [] && Block(f, all, last, Front(f.log)) {
      BlockRebased(f, before, read, last, Front(f.log));
    }
  }

  lemma TruncatedIsLater(f: File, seen: seq<Packet>)
    requires Truncated(f, seen)
    ensures f.requested < f.ended.value
  {
  }

  /** `f` lies within the packets read after `base` and is sound there. */
  ghost predicate SoundWithin(f: File, base: nat, read: seq<Packet>, mayBeTruncated: bool) {
    && base <= f.requested && f.ended.Some? && base <= f.ended.value
    && (Complete(Rebased(f, base), read) || (mayBeTruncated && Truncated(Rebased(f, base), read)))
  }

  /**
   An attempt leaves earlier recordings as they are, and each recording it adds holds packets of this attempt only:
   a block of them that starts at the first keyframe read after its request.
   */
  lemma RecordingsBelongToOneAttempt(s: Service, c: Course, input: InputStream)
    requires Rested(s)
    ensures var t := AfterAttempt(s, c, input).recorder;
            && s.recorder.files <= t.files
            && (forall i :: |s.recorder.files| <= i < |t.files| ==>
                  SoundWithin(t.files[i], |s.recorder.seen|, PacketsRead(c, input),
                              i == |t.files| - 1 && t.state == Error))
  {
    SinceAttempt(s, c, input);
    AttemptEndsAtRest(s, c, input);
    hide AfterAttempt, PacketsRead, Complete, Truncated, Shape, OutputSound, StillWaiting, HandlesSound;
    var t := AfterAttempt(s, c, input).recorder;
    var before, read := s.recorder.seen, PacketsRead(c, input);
    forall i | |s.recorder.files| <= i < |t.files|
      ensures SoundWithin(t.files[i], |before|, read, i == |t.files| - 1 && t.state == Error)
    {
      var f := t.files[i];
      if Complete(f, before + read) {
        CompleteRebased(f, before, read);
      } else {
        TruncatedIsLater(f, before + read);
        TruncatedRebased(f, before, read);
      }
    }
  }

  // ----- whole lives of the service

  datatype Happening = Enqueued(command: Command) | Attempted(course: Course, input: InputStream)

  function AfterHappening(s: Service, h: Happening): Service {
    match h
    case Enqueued(command) => s.(pending := AfterEnqueue(s.pending, command))
    case Attempted(c, input) => AfterAttempt(s, c, input)
  }

  function AfterHistory(s: Service, hs: seq<Happening>): Service {
    if hs == [] then s else AfterHappening(AfterHistory(s, Front(hs)), Last(hs))
  }

  lemma {:induction false} HistoryKeepsRest(s: Service, hs: seq<Happening>)
    requires Rested(s)
    ensures Rested(AfterHistory(s, hs))
  {
    if hs != [] {
      HistoryKeepsRest(s, Front(hs));
      var t := AfterHistory(s, Front(hs));
      hide Inv, AfterAttempt;
      if Last(hs).Attempted? {
        AttemptEndsAtRest(t, Last(hs).course, Last(hs).input);
      }
    }
  }

  /**
   Whatever happened before, at every head of the packet loop and after every attempt the state last announced is
   the recorder's, and resources are held as the state says; after an attempt nothing is held.
   */
  lemma StateIsAnnounced(hs: seq<Happening>, c: Course, input: InputStream, n: nat)
    ensures var s := AfterHistory(NEW_SERVICE, hs);
            && Mirrored(AtLoopHead(s, c, input, n)) && Shape(AtLoopHead(s, c, input, n).recorder)
            && Mirrored(AfterAttempt(s, c, input)) && Shape(AfterAttempt(s, c, input).recorder)
            && AfterAttempt(s, c, input).recorder.input == None && AfterAttempt(s, c, input).recorder.output == None
  {
    HistoryKeepsRest(NEW_SERVICE, hs);
    var s := AfterHistory(NEW_SERVICE, hs);
    EveryLoopHead(s, c, input, n);
    AttemptEndsAtRest(s, c, input);
    hide AtLoopHead, AfterAttempt, Mirrored, FilesSound, FilesOrdered, HandlesSound, OutputSound, StillWaiting;
  }

  /** Whatever happened, the states announced follow the documented diagram of the recorder. */
  lemma SignalsFollowDiagram(hs: seq<Happening>, c: Course, input: InputStream, n: nat)
    ensures var s := AfterHistory(NEW_SERVICE, hs);
            FollowsDiagram(s.emitted) && FollowsDiagram(AtLoopHead(s, c, input, n).emitted)
  {
    HistoryKeepsRest(NEW_SERVICE, hs);
    EveryLoopHead(AfterHistory(NEW_SERVICE, hs), c, input, n);
    hide AfterHistory, AtLoopHead, FollowsDiagram, Inv;
  }

  // ----- how far the packet loop gets

  /** Round `j` reads a packet, and no stop is requested when it begins. */
  predicate Undisturbed(c: Course, j: nat) {
    j < |c.rounds| && c.rounds[j].read.PacketRead? && !(c.stop.Some? && c.stop.value <= j + 2)
  }

  lemma {:induction false} PassesFrom(c: Course, i: nat)
    requires i <= |c.rounds|
    ensures !Undisturbed(c, i + Passes(c, i))
    ensures forall j: nat :: i <= j < i + Passes(c, i) ==> Undisturbed(c, j)
    decreases |c.rounds| - i
  {
    assert Proceeds(c, i) <==> Undisturbed(c, i);
    if Proceeds(c, i) {
      PassesFrom(c, i + 1);
      assert i + Passes(c, i) == i + 1 + Passes(c, i + 1);
    }
  }

  /** The loop makes exactly the passes before the first failed read or the first head at which a stop is requested. */
  lemma PassesEndAtStopOrFailure(c: Course)
    ensures !Undisturbed(c, Passes(c, 0))
    ensures forall j: nat :: j < Passes(c, 0) ==> Undisturbed(c, j)
  {
    PassesFrom(c, 0);
  }

  /** The course without the rounds from the k-th on. */
  function CutOff(c: Course, k: nat): Course
    requires k <= |c.rounds|
  {
    c.(rounds := c.rounds[..k])
  }

  lemma {:induction false} CutOffLoopHead(s: Service, c: Course, input: InputStream, k: nat, n: nat)
    requires n <= k <= |c.rounds|
    ensures AtLoopHead(s, CutOff(c, k), input, n) == AtLoopHead(s, c, input, n)
  {
    hide BeforeRead, AfterRead;
    if n > 0 {
      CutOffLoopHead(s, c, input, k, n - 1);
      assert RoundAt(CutOff(c, k), n - 1) == RoundAt(c, n - 1);
    }
  }

  lemma {:induction false} CutOffPasses(c: Course, k: nat, i: nat)
    requires i <= k <= |c.rounds| && c.stop.Some? && c.stop.value <= k + 2
    ensures Passes(CutOff(c, k), i) == Passes(c, i) <= k - i
    decreases k - i
  {
    assert i < k ==> CutOff(c, k).rounds[i] == c.rounds[i];
    if i < k && Proceeds(c, i) {
      CutOffPasses(c, k, i + 1);
    }
  }

  /**
   No pass begins once a stop is requested: with a stop before the k-th head of the loop nothing that could have been
   read or commanded from there on has any effect, and at most k packets reach the recorder.
   */
  lemma NothingIsReadAfterStop(s: Service, c: Course, input: InputStream, k: nat)
    requires Rested(s) && k <= |c.rounds| && c.stop.Some? && c.stop.value <= k + 2
    ensures AfterAttempt(s, c, input) == AfterAttempt(s, CutOff(c, k), input)
    ensures |AfterAttempt(s, c, input).recorder.seen| <= |s.recorder.seen| + k
  {
    SinceAttempt(s, c, input);
    hide BeforeRead, AfterShutdown, AtLoopHead, Rested, Since;
    var n := Passes(c, 0);
    CutOffPasses(c, k, 0);
    CutOffLoopHead(s, c, input, k, n);
    VideoPacketsBound(c, input, n);
    assert n < k ==> RoundAt(CutOff(c, k), n) == RoundAt(c, n);
  }

  lemma {:induction false} VideoPacketsBound(c: Course, input: InputStream, n: nat)
    ensures |VideoPackets(c, input, n)| <= n
  {
    if n > 0 {
      VideoPacketsBound(c, input, n - 1);
    }
  }

  // ----- errors outlive attempts

  lemma {:induction false} LoopHeadKeepsError(s: Service, c: Course, input: InputStream, n: nat)
    requires s.recorder.state == Error
    ensures var r := AtLoopHead(s, c, input, n).recorder; r == s.recorder.(seen := r.seen)
  {
    if n > 0 {
      LoopHeadKeepsError(s, c, input, n - 1);
    }
  }

  /** No new attempt brings a recorder back that has given up, and no file is added or changed. */
  lemma {:induction false} ErrorOutlivesAttempts(s: Service, hs: seq<Happening>)
    requires s.recorder.state == Error
    ensures var r := AfterHistory(s, hs).recorder; r == s.recorder.(seen := r.seen)
  {
    if hs != [] {
      ErrorOutlivesAttempts(s, Front(hs));
      var t := AfterHistory(s, Front(hs));
      if Last(hs).Attempted? {
        hide AtLoopHead;
        LoopHeadKeepsError(t, Last(hs).course, Last(hs).input, Passes(Last(hs).course, 0));
      }
    }
  }

  // ----- every file belongs to one attempt

  function ServiceAfter(hs: seq<Happening>, k: nat): Service
    requires k <= |hs|
  {
    AfterHistory(NEW_SERVICE, hs[..k])
  }

  /** The k-th happening is an attempt, and the i-th file was made in it. */
  predicate MadeIn(hs: seq<Happening>, i: nat, k: nat) {
    && k < |hs| && hs[k].Attempted?
    && |ServiceAfter(hs, k).recorder.files| <= i < |ServiceAfter(hs, k + 1).recorder.files|
  }

  /** The i-th file is sound within the packets that the k-th happening read. */
  ghost predicate SoundIn(hs: seq<Happening>, i: nat, k: nat)
    requires MadeIn(hs, i, k)
  {
    var r := AfterHistory(NEW_SERVICE, hs).recorder;
    && i < |r.files|
    && SoundWithin(r.files[i], |ServiceAfter(hs, k).recorder.seen|, PacketsRead(hs[k].course, hs[k].input),
                   i == |r.files| - 1 && r.state == Error)
  }

  lemma HistorySnoc(hs: seq<Happening>, h: Happening)
    ensures AfterHistory(NEW_SERVICE, hs + [h]) == AfterHappening(AfterHistory(NEW_SERVICE, hs), h)
  {
    assert Front(hs + [h]) == hs;
  }

  lemma HappeningKeepsFiles(hs: seq<Happening>, h: Happening)
    ensures AfterHistory(NEW_SERVICE, hs).recorder.files <= AfterHistory(NEW_SERVICE, hs + [h]).recorder.files
  {
    HistorySnoc(hs, h);
    HistoryKeepsRest(NEW_SERVICE, hs);
    hide AfterHistory, AfterAttempt, Rested;
    if h.Attempted? {
      RecordingsBelongToOneAttempt(AfterHistory(NEW_SERVICE, hs), h.course, h.input);
    }
  }

  lemma {:induction false} FilesOnlyGrow(hs: seq<Happening>, j: nat, k: nat)
    requires j <= k <= |hs|
    ensures |ServiceAfter(hs, j).recorder.files| <= |ServiceAfter(hs, k).recorder.files|
  {
    hide AfterHistory;
    if j < k {
      FilesOnlyGrow(hs, j, k - 1);
      assert hs[..k] == hs[..k - 1] + [hs[k - 1]];
      HappeningKeepsFiles(hs[..k - 1], hs[k - 1]);
    }
  }

  /** No file is made in two happenings. */
  lemma MadeOnce(hs: seq<Happening>, i: nat, j: nat, k: nat)
    requires MadeIn(hs, i, j) && MadeIn(hs, i, k)
    ensures j == k
  {
    hide AfterHistory;
    if j < k {
      FilesOnlyGrow(hs, j + 1, k);
    } else if k < j {
      FilesOnlyGrow(hs, k + 1, j);
    }
  }

  lemma MadeInLonger(hs: seq<Happening>, h: Happening, i: nat, k: nat)
    requires MadeIn(hs, i, k)
    ensures MadeIn(hs + [h], i, k) && ServiceAfter(hs + [h], k) == ServiceAfter(hs, k)
  {
    hide AfterHistory;
    assert (hs + [h])[..k] == hs[..k] && (hs + [h])[..k + 1] == hs[..k + 1];
  }

  /** A file that was sound stays so: it can be truncated only if the recorder has given up for good. */
  lemma SoundInLonger(hs: seq<Happening>, h: Happening, i: nat, k: nat)
    requires MadeIn(hs, i, k) && SoundIn(hs, i, k)
    ensures MadeIn(hs + [h], i, k) && SoundIn(hs + [h], i, k)
  {
    MadeInLonger(hs, h, i, k);
    HappeningKeepsFiles(hs, h);
    HistorySnoc(hs, h);
    hide AfterHistory, AfterAttempt, PacketsRead, Complete, Truncated, ServiceAfter;
    var r, t := AfterHistory(NEW_SERVICE, hs).recorder, AfterHistory(NEW_SERVICE, hs + [h]).recorder;
    if r.state == Error {
      OneMoreKeepsError(AfterHistory(NEW_SERVICE, hs), h);
    }
    assert t.files[i] == r.files[i];
  }

  lemma OneMoreKeepsError(s: Service, h: Happening)
    requires s.recorder.state == Error
    ensures AfterHappening(s, h).recorder.state == Error && AfterHappening(s, h).recorder.files == s.recorder.files
  {
    ErrorOutlivesAttempts(s, [h]);
    assert Front([h]) == [];
    hide AfterAttempt;
  }

  lemma NewFileIsMade(hs: seq<Happening>, h: Happening, i: nat)
    requires |AfterHistory(NEW_SERVICE, hs).recorder.files| <= i
    requires i < |AfterHistory(NEW_SERVICE, hs + [h]).recorder.files|
    ensures MadeIn(hs + [h], i, |hs|) && ServiceAfter(hs + [h], |hs|) == AfterHistory(NEW_SERVICE, hs)
  {
    HistorySnoc(hs, h);
    assert (hs + [h])[..|hs|] == hs && (hs + [h])[..|hs| + 1] == hs + [h];
    hide AfterHistory, AfterAttempt;
  }

  lemma NewFileIsSound(hs: seq<Happening>, h: Happening, i: nat)
    requires |AfterHistory(NEW_SERVICE, hs).recorder.files| <= i
    requires i < |AfterHistory(NEW_SERVICE, hs + [h]).recorder.files|
    ensures MadeIn(hs + [h], i, |hs|) && SoundIn(hs + [h], i, |hs|)
  {
    NewFileIsMade(hs, h, i);
    HistorySnoc(hs, h);
    HistoryKeepsRest(NEW_SERVICE, hs);
    var k := |hs|;
    assert (hs + [h])[k].Attempted? && (hs + [h])[k] == h;
    hide AfterHistory, AfterAttempt, PacketsRead, SoundWithin, Rested, MadeIn, ServiceAfter;
    RecordingsBelongToOneAttempt(AfterHistory(NEW_SERVICE, hs), h.course, h.input);
  }

  /**
   Over any history of commands and attempts every file was made in exactly one attempt, and holds a block of the
   video packets of that attempt.
   */
  lemma {:induction false} EveryFileBelongsToOneAttempt(hs: seq<Happening>, i: nat) returns (k: nat)
    requires i < |AfterHistory(NEW_SERVICE, hs).recorder.files|
    ensures MadeIn(hs, i, k) && SoundIn(hs, i, k)
    ensures forall j :: MadeIn(hs, i, j) ==> j == k
    decreases |hs|
  {
    hide SoundIn, MadeIn, AfterAttempt;
    var before, h := Front(hs), Last(hs);
    assert hs == before + [h];
    if i < |AfterHistory(NEW_SERVICE, before).recorder.files| {
      k := EveryFileBelongsToOneAttempt(before, i);
      SoundInLonger(before, h, i, k);
    } else {
      k := |before|;
      NewFileIsSound(before, h, i);
    }
    forall j | MadeIn(hs, i, j) ensures j == k {
      MadeOnce(hs, i, j, k);
    }
  }

  // ----- why attempts end

  lemma {:induction false} LoopHeadConnections(s: Service, c: Course, input: InputStream, n: nat)
    ensures AtLoopHead(s, c, input, n).connections == s.connections + 1
  {
    hide AfterPacket, AfterRequest, AfterStop;
    if n > 0 {
      LoopHeadConnections(s, c, input, n - 1);
    }
  }

  /** The worker's attempt that corresponds to a course. */
  function WorkersAttempt(s: Service, c: Course, input: InputStream, stop: StreamWorker.StopPoint):
    StreamWorker.Attempt
  {
    StreamWorker.Attempt(AfterAttempt(s, c, input).connections > s.connections, ExitReason(c), stop)
  }

  /**
   An attempt announces at most one connection; it is cancelled exactly when a stop was requested, and otherwise ends
   for the reason the retry loop relies on.
   */
  lemma ExitReasonsAreGenuine(s: Service, c: Course, input: InputStream)
    ensures AfterAttempt(s, c, input).connections
              == s.connections + if SetUp(c.setup) && !(c.stop.Some? && c.stop.value <= 1) then 1 else 0
    ensures ExitReason(c) == StreamWorker.Cancelled <==> c.stop.Some? && c.stop.value <= |c.rounds| + 3
    ensures !StopRequested(c, AtExit(c)) ==> StreamWorker.Genuine(WorkersAttempt(s, c, input, StreamWorker.Never))
  {
    hide AfterCommands, AtLoopHead, AfterStop;
    LoopHeadConnections(s, c, input, Passes(c, 0));
    CommandsConnectNothing(WithCommands(AtLoopHead(s, c, input, Passes(c, 0)), RoundAt(c, Passes(c, 0)).commands),
                           input, RoundAt(c, Passes(c, 0)).trailerWritten);
  }

  lemma CommandsConnectNothing(s: Service, input: InputStream, ok: bool)
    ensures AfterCommands(s, input, ok).connections == s.connections
  {
  }

  // ----- the retry loop over the real service

  /** One pass of the retry loop: commands given before the attempt, its course, and where a stop is noticed. */
  datatype Pass = Pass(commands: seq<Command>, course: Course, input: InputStream, stop: StreamWorker.StopPoint)

  /** The stop is noticed where the course says it was requested. */
  predicate Consistent(p: Pass) {
    match p.stop
    case BeforeAttempt => true
    case DuringAttempt => StopRequested(p.course, AtExit(p.course))
    case _ => !StopRequested(p.course, AtExit(p.course))
  }

  /** Without a stop before it, each pass calls the service. */
  function AfterPasses(s: Service, ps: seq<Pass>): Service {
    if ps == [] then s
    else
      var t := WithCommands(AfterPasses(s, Front(ps)), Last(ps).commands);
      if Last(ps).stop.BeforeAttempt? then t else AfterAttempt(t, Last(ps).course, Last(ps).input)
  }

  /** The attempts as the worker experiences them. */
  function AttemptsOf(s: Service, ps: seq<Pass>): seq<StreamWorker.Attempt> {
    if ps == [] then []
    else
      var p := Last(ps);
      var t := WithCommands(AfterPasses(s, Front(ps)), p.commands);
      var a := if p.stop.BeforeAttempt? then StreamWorker.Attempt(false, StreamWorker.Cancelled, p.stop)
               else WorkersAttempt(t, p.course, p.input, p.stop);
      AttemptsOf(s, Front(ps)) + [a]
  }

  lemma {:induction false} RealAttemptsAreGenuine(s: Service, ps: seq<Pass>)
    requires forall i :: 0 <= i < |ps| ==> Consistent(ps[i])
    ensures |AttemptsOf(s, ps)| == |ps| && StreamWorker.AllGenuine(AttemptsOf(s, ps))
  {
    if ps != [] {
      hide AfterAttempt;
      RealAttemptsAreGenuine(s, Front(ps));
      var p := Last(ps);
      ExitReasonsAreGenuine(WithCommands(AfterPasses(s, Front(ps)), p.commands), p.course, p.input);
    }
  }

  /** A run of the worker over the service, from whatever state, emits a word of the language. */
  lemma RealRunsSpeakTheLanguage(max: int, s: Service, ps: seq<Pass>, late: bool)
    requires forall i :: 0 <= i < |ps| ==> Consistent(ps[i])
    requires StreamWorker.Executed(max, AttemptsOf(s, ps))
    ensures StreamWorker.Complete(max, StreamWorker.Word(max, AttemptsOf(s, ps), late))
    ensures Last(StreamWorker.Word(max, AttemptsOf(s, ps), late)) in {Stream.Disconnected, Stream.Error}
  {
    RealAttemptsAreGenuine(s, ps);
    StreamWorker.LanguageSound(max, AttemptsOf(s, ps), late);
    StreamWorker.CompleteEnds(max, StreamWorker.Word(max, AttemptsOf(s, ps), late));
  }
}
