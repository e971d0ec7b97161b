/**
 One stream attempt of the FFmpeg streaming service: setting up the input, the packet loop with its pending
 recording commands, and the cleanup, with every FFmpeg handle accounted for.

 What the network, the user and FFmpeg do to an attempt is its course.
 */
module StreamingService {
  import opened Sequences
  import opened Recorder
  import StreamWorker

  // ----- pending recording commands

  datatype Command = StartRecording(configuration: Configuration) | StopRecording

  datatype Pending = Pending(start: Option<Configuration>, stop: bool)

  const NOTHING := Pending(None, false)

  /** The first start wins; a stop sticks. */
  function AfterEnqueue(p: Pending, c: Command): Pending {
    match c
    case StartRecording(configuration) => if p.start.None? then p.(start := Some(configuration)) else p
    case StopRecording => p.(stop := true)
  }

  function AfterEnqueueAll(p: Pending, cs: seq<Command>): Pending {
    if cs == [] then p else AfterEnqueue(AfterEnqueueAll(p, Front(cs)), Last(cs))
  }

  // ----- the course of an attempt

  /** What FFmpeg answers while the attempt is set up; `streams` tells which input streams are video. */
  datatype Setup = Setup(
    contextAllocated: bool,
    inputOpened: bool,
    infoFound: bool,
    streams: seq<bool>,
    decoderFound: bool,
    codecAllocated: bool,
    parametersCopied: bool,
    decoderOpened: bool,
    packetAllocated: bool,
    frameAllocated: bool)

  datatype Read = ReadFails | PacketRead(streamIndex: int, packet: Packet, opening: Opening, writing: Writing)

  /** One pass of the packet loop, with the commands enqueued since the pass before. */
  datatype Round = Round(commands: seq<Command>, trailerWritten: bool, read: Read)

  /** Rounds beyond the listed ones fail to read. `stop` is the instant from which a stop is requested. */
  datatype Course = Course(setup: Setup, rounds: seq<Round>, trailerWritten: bool, stop: Option<nat>)

  const AT_ENTRY: nat := 0
  const AFTER_SETUP: nat := 1

  function AtHead(i: nat): nat {
    2 + i
  }

  function AtExit(c: Course): nat {
    AtHead(|c.rounds|) + 1
  }

  predicate StopRequested(c: Course, instant: nat) {
    c.stop.Some? && c.stop.value <= instant
  }

  function RoundAt(c: Course, i: nat): Round {
    if i < |c.rounds| then c.rounds[i] else Round([], true, ReadFails)
  }

  predicate SetUp(s: Setup) {
    && s.contextAllocated && s.inputOpened && s.infoFound && true in s.streams && s.decoderFound
    && s.codecAllocated && s.parametersCopied && s.decoderOpened && s.packetAllocated && s.frameAllocated
  }

  predicate Connects(c: Course) {
    SetUp(c.setup) && !StopRequested(c, AFTER_SETUP)
  }

  function ExitReason(c: Course): StreamWorker.ExitReason {
    if StopRequested(c, AtExit(c)) then StreamWorker.Cancelled
    else if SetUp(c.setup) then StreamWorker.NetworkFailure
    else StreamWorker.InitializationFailure
  }

  // ----- what an attempt does to the recorder

  datatype Service = Service(
    recorder: Recorder,
    pending: Pending,
    emitted: seq<RecordingState>,   // recordingStateChanged
    connections: nat)               // connected

  const NEW_SERVICE := Service(NEW_RECORDER, NOTHING, [], 0)

  function Announced(s: Service): Service {
    s.(emitted := s.emitted + [s.recorder.state])
  }

  function AfterStartCommand(s: Service, start: Option<Configuration>, input: InputStream): Service {
    match start
    case None => s
    case Some(c) =>
      var t := s.(recorder := AfterRequest(s.recorder, c, input));
      if RequestResult(s.recorder, c).Success? then Announced(t) else t
  }

  function AfterCommands(s: Service, input: InputStream, trailerWritten: bool): Service {
    var t := AfterStartCommand(s.(pending := NOTHING), s.pending.start, input);
    if s.pending.stop then Announced(t.(recorder := AfterStop(t.recorder, trailerWritten))) else t
  }

  predicate IsVideo(read: Read, input: InputStream) {
    read.PacketRead? && read.streamIndex == input.index
  }

  /** Packets of other streams are ignored. */
  function AfterRead(s: Service, read: Read, input: InputStream): Service {
    if !IsVideo(read, input) then s
    else
      var t := s.(recorder := AfterPacket(s.recorder, read.packet, read.opening, read.writing));
      if t.recorder.state != s.recorder.state then Announced(t) else t
  }

  function AfterShutdown(s: Service, trailerWritten: bool): Service {
    Announced(s.(recorder := AfterStop(s.recorder, trailerWritten)))
  }

  function WithCommands(s: Service, cs: seq<Command>): Service {
    s.(pending := AfterEnqueueAll(s.pending, cs))
  }

  function BeforeRead(s: Service, round: Round, input: InputStream): Service {
    AfterCommands(WithCommands(s, round.commands), input, round.trailerWritten)
  }

  /** The service at the head of the packet loop after `n` full passes. */
  function AtLoopHead(s: Service, c: Course, input: InputStream, n: nat): Service {
    if n == 0 then s.(connections := s.connections + 1)
    else
      var round := RoundAt(c, n - 1);
      AfterRead(BeforeRead(AtLoopHead(s, c, input, n - 1), round, input), round.read, input)
  }

  predicate Proceeds(c: Course, i: nat) {
    i < |c.rounds| && !StopRequested(c, AtHead(i)) && !c.rounds[i].read.ReadFails?
  }

  /** How many full passes the loop makes from pass `i` on. */
  function Passes(c: Course, i: nat): nat
    decreases |c.rounds| - i
  {
    if Proceeds(c, i) then 1 + Passes(c, i + 1) else 0
  }

  function AfterLoop(s: Service, c: Course, input: InputStream): Service {
    var n := Passes(c, 0);
    var t := AtLoopHead(s, c, input, n);
    if StopRequested(c, AtHead(n)) then t else BeforeRead(t, RoundAt(c, n), input)
  }

  function AfterAttempt(s: Service, c: Course, input: InputStream): Service {
    if StopRequested(c, AT_ENTRY) then s
    else AfterShutdown(if Connects(c) then AfterLoop(s, c, input) else s, c.trailerWritten)
  }

  /** The first video stream, or -1. */
  function FirstVideo(streams: seq<bool>): (index: int)
    ensures -1 <= index < |streams|
    ensures index >= 0 ==> streams[index]
    ensures forall i :: 0 <= i < |streams| && (index < 0 || i < index) ==> !streams[i]
  {
    if streams == [] then -1
    else if FirstVideo(Front(streams)) >= 0 then FirstVideo(Front(streams))
    else if Last(streams) then |streams| - 1
    else -1
  }

  // ----- the service itself

  /** FFmpeg's allocations: a handle is live from its allocation until it is freed. */
  class Library {
    var live: set<nat>
    var next: nat

    ghost predicate Valid()
      reads this
    {
      forall h :: h in live ==> h < next
    }

    constructor ()
      ensures Valid() && live == {}
    {
      live, next := {}, 0;
    }

    method Allocate(succeeds: bool) returns (h: Option<nat>)
      requires Valid()
      modifies this
      ensures Valid()
      ensures if succeeds then h == Some(old(next)) && live == old(live) + {old(next)} && next == old(next) + 1
              else h == None && live == old(live) && next == old(next)
    {
      if !succeeds {
        return None;
      }
      h := Some(next);
      live := live + {next};
      next := next + 1;
    }

    /** Freeing a handle twice is an error; freeing none is allowed. */
    method Free(h: Option<nat>)
      requires h.Some? ==> h.value in live
      modifies this`live
      ensures live == if h.Some? then old(live) - {h.value} else old(live)
    {
      if h.Some? {
        live := live - {h.value};
      }
    }

    /** Opening an input frees the context it was given when it fails. */
    method OpenInput(h: nat, succeeds: bool) returns (context: Option<nat>)
      requires h in live
      modifies this`live
      ensures context == if succeeds then Some(h) else None
      ensures live == if succeeds then old(live) else old(live) - {h}
    {
      if succeeds {
        return Some(h);
      }
      Free(Some(h));
      context := None;
    }
  }

  lemma PacketKeepsInput(r: Recorder, p: Packet, o: Opening, w: Writing)
    ensures var t := AfterPacket(r, p, o, w); t.input == r.input || t.input == None
  {
  }

  lemma StopLetsGo(r: Recorder, trailerWritten: bool)
    requires Shape(r)
    ensures AfterStop(r, trailerWritten).input == None
    ensures r.state == Stopped ==> AfterStop(r, trailerWritten) == r
  {
  }

  class StreamingService {
    const library: Library
    const recorder: RecordingService
    var formatContext: Option<nat>
    var codecContext: Option<nat>
    var packet: Option<nat>
    var frame: Option<nat>
    var videoStreamIndex: int
    var pending: Pending
    var emitted: seq<RecordingState>
    var connections: nat

    ghost function View(): Service
      reads this`pending, this`emitted, this`connections, recorder
    {
      Service(recorder.View(), pending, emitted, connections)
    }

    ghost function Held(h: Option<nat>): set<nat> {
      if h.Some? then {h.value} else {}
    }

    /** All live handles are the service's, each held once. */
    ghost predicate Accounted()
      reads this`formatContext, this`codecContext, this`packet, this`frame, library
    {
      && library.live == Held(formatContext) + Held(codecContext) + Held(packet) + Held(frame)
      && Held(formatContext) !! Held(codecContext) !! Held(packet) !! Held(frame)
    }

    /** The recorder refers to no input but the one that is open. */
    ghost predicate Valid()
      reads this`formatContext, this`codecContext, this`packet, this`frame, library, recorder
    {
      && library.Valid() && recorder.Valid() && Accounted()
      && (recorder.inputStream.Some? ==> formatContext == Some(recorder.inputStream.value.context))
    }

    ghost predicate Idle()
      reads this`formatContext, this`codecContext, this`packet, this`frame, library, recorder
    {
      && Valid() && library.live == {} && recorder.inputStream.None?
      && formatContext == None && codecContext == None && packet == None && frame == None
    }

    constructor ()
      ensures Idle() && View() == NEW_SERVICE
      ensures fresh(library) && fresh(recorder)
    {
      library := new Library();
      recorder := new RecordingService();
      formatContext, codecContext, packet, frame, videoStreamIndex := None, None, None, None, -1;
      pending, emitted, connections := NOTHING, [], 0;
    }

    method EnqueueStartRecording(configuration: Configuration)
      requires Valid()
      modifies this`pending
      ensures Valid() && pending == AfterEnqueue(old(pending), StartRecording(configuration))
      ensures pending.start == if old(pending.start).Some? then old(pending.start) else Some(configuration)
      ensures pending.stop == old(pending.stop)
    {
      if pending.start.None? {
        pending := pending.(start := Some(configuration));
      }
    }

    method EnqueueStopRecording()
      requires Valid()
      modifies this`pending
      ensures Valid() && pending == AfterEnqueue(old(pending), StopRecording)
      ensures pending.stop && pending.start == old(pending.start)
    {
      pending := pending.(stop := true);
    }

    /** The calls other threads make between two passes of the packet loop. */
    method ReceiveCommands(commands: seq<Command>)
      requires Valid()
      modifies this`pending
      ensures Valid() && View() == WithCommands(old(View()), commands)
    {
      for i := 0 to |commands|
        invariant Valid() && pending == AfterEnqueueAll(old(pending), commands[..i])
      {
        assert Front(commands[..i + 1]) == commands[..i] && Last(commands[..i + 1]) == commands[i];
        match commands[i]
        case StartRecording(configuration) => EnqueueStartRecording(configuration);
        case StopRecording => EnqueueStopRecording();
      }
      assert commands[..|commands|] == commands;
    }

    method OpenInput(setup: Setup) returns (ok: bool)
      requires Idle()
      modifies this`formatContext, library
      ensures Valid() && ok == (setup.contextAllocated && setup.inputOpened)
      ensures if ok then formatContext == Some(old(library.next)) else Idle()
    {
      formatContext := library.Allocate(setup.contextAllocated);
      if formatContext.None? {
        return false;
      }
      formatContext := library.OpenInput(formatContext.value, setup.inputOpened);
      if !setup.inputOpened {
        library.Free(formatContext);
        formatContext := None;
        return false;
      }
      ok := true;
    }

    method ReadStreamInfo(setup: Setup) returns (ok: bool)
      requires Valid() && recorder.inputStream.None?
      modifies this`formatContext, library
      ensures Valid() && ok == setup.infoFound
      ensures formatContext == if ok then old(formatContext) else None
    {
      if !setup.infoFound {
        CleanupInput();
        return false;
      }
      ok := true;
    }

    method FindVideoStream(streams: seq<bool>) returns (found: bool)
      requires Valid()
      modifies this`videoStreamIndex
      ensures Valid() && videoStreamIndex == FirstVideo(streams) && found == (true in streams)
    {
      videoStreamIndex := -1;
      for i := 0 to |streams|
        invariant videoStreamIndex == -1 && forall j :: 0 <= j < i ==> !streams[j]
      {
        if streams[i] {
          videoStreamIndex := i;
          return true;
        }
      }
      found := false;
    }

    method CreateCodecContext(setup: Setup) returns (ok: bool)
      requires Valid() && codecContext == None
      modifies this`codecContext, this`videoStreamIndex, library
      ensures Valid() && ok == (setup.decoderFound && setup.codecAllocated && setup.parametersCopied)
      ensures codecContext.Some? == ok
      ensures ok ==> videoStreamIndex == old(videoStreamIndex)
    {
      if !setup.decoderFound {
        return false;
      }
      codecContext := library.Allocate(setup.codecAllocated);
      if codecContext.None? {
        return false;
      }
      if !setup.parametersCopied {
        CleanupDecoder();
        return false;
      }
      ok := true;
    }

    method OpenDecoder(setup: Setup) returns (ok: bool)
      requires Valid() && codecContext.Some?
      modifies this`codecContext, this`videoStreamIndex, library
      ensures Valid() && ok == setup.decoderOpened
      ensures codecContext == if ok then old(codecContext) else None
      ensures ok ==> videoStreamIndex == old(videoStreamIndex)
    {
      if !setup.decoderOpened {
        CleanupDecoder();
        return false;
      }
      ok := true;
    }

    method InitializeDecoder(setup: Setup) returns (ok: bool)
      requires Valid() && codecContext == None && recorder.inputStream.None?
      modifies this`formatContext, this`codecContext, this`videoStreamIndex, library
      ensures Valid()
      ensures ok == (true in setup.streams && setup.decoderFound && setup.codecAllocated
                     && setup.parametersCopied && setup.decoderOpened)
      ensures formatContext == if ok then old(formatContext) else None
      ensures codecContext.Some? == ok && (ok ==> videoStreamIndex == FirstVideo(setup.streams))
    {
      ok := FindVideoStream(setup.streams);
      if !ok {
        CleanupInput();
        return;
      }
      ok := CreateCodecContext(setup);
      if !ok {
        CleanupInput();
        return;
      }
      ok := OpenDecoder(setup);
      if !ok {
        CleanupInput();
      }
    }

    method InitializePacket(setup: Setup) returns (ok: bool)
      requires Valid() && packet == None
      modifies this`packet, library
      ensures Valid() && ok == setup.packetAllocated && packet.Some? == ok
    {
      packet := library.Allocate(setup.packetAllocated);
      ok := packet.Some?;
    }

    method InitializeFrame(setup: Setup) returns (ok: bool)
      requires Valid() && frame == None
      modifies this`frame, library
      ensures Valid() && ok == setup.frameAllocated && frame.Some? == ok
    {
      frame := library.Allocate(setup.frameAllocated);
      ok := frame.Some?;
    }

    method InitializeEverything(setup: Setup) returns (ok: bool)
      requires Idle()
      modifies this`formatContext, this`codecContext, this`packet, this`frame, this`videoStreamIndex, library
      ensures Valid() && ok == SetUp(setup)
      ensures ok <==> && setup.contextAllocated && setup.inputOpened && setup.infoFound && true in setup.streams
                      && setup.decoderFound && setup.codecAllocated && setup.parametersCopied && setup.decoderOpened
                      && setup.packetAllocated && setup.frameAllocated
      ensures ok ==> formatContext == Some(old(library.next)) && videoStreamIndex == FirstVideo(setup.streams)
      ensures ok ==> codecContext.Some? && packet.Some? && frame.Some?
    {
      ok := OpenInput(setup);
      if !ok {
        return;
      }
      ok := ReadStreamInfo(setup);
      if !ok {
        return;
      }
      ok := InitializeDecoder(setup);
      if !ok {
        return;
      }
      ok := InitializePacket(setup);
      if !ok {
        return;
      }
      ok := InitializeFrame(setup);
    }

    method ProcessPendingCommands(trailerWritten: bool)
      requires Valid() && formatContext.Some?
      modifies this`pending, this`emitted, recorder
      ensures Valid()
      ensures View() == AfterCommands(old(View()), InputStream(formatContext.value, videoStreamIndex), trailerWritten)
      ensures pending == Pending(None, false)
      ensures var before := old(recorder.View());
              var input := InputStream(formatContext.value, videoStreamIndex);
              var start, stop := old(pending.start), old(pending.stop);
              var granted := start.Some? && before.state == Stopped && start.value.outputPath != "";
              var started := if granted then AfterRequest(before, start.value, input) else before;
              && recorder.View() == (if stop then AfterStop(started, trailerWritten) else started)
              && emitted == old(emitted) + (if granted then [Starting] else [])
                                         + (if stop then [recorder.state] else [])
    {
      hide Shape, AfterStop, AfterRequest, Accounted;
      var startRecording := pending.start;
      var stopRecording := pending.stop;
      pending := NOTHING;
      if startRecording.Some? {
        var input := InputStream(formatContext.value, videoStreamIndex);
        RequestMeaning(recorder.View(), startRecording.value, input);
        var result := recorder.RequestRecording(startRecording.value, input);
        if result == Success {
          emitted := emitted + [recorder.state];
        }
      }
      if stopRecording {
        StopLetsGo(recorder.View(), trailerWritten);
        recorder.StopRecording(trailerWritten);
        emitted := emitted + [recorder.state];
      }
    }

    method ReadNextPacket(read: Read) returns (ok: bool)
      requires Valid() && formatContext.Some? && packet.Some?
      modifies this`emitted, recorder
      ensures Valid() && ok == !read.ReadFails?
      ensures View() == AfterRead(old(View()), read, InputStream(formatContext.value, videoStreamIndex))
      ensures read.ReadFails? || read.streamIndex != videoStreamIndex ==> View() == old(View())
      ensures read.PacketRead? && read.streamIndex == videoStreamIndex ==>
                && recorder.View() == AfterPacket(old(recorder.View()), read.packet, read.opening, read.writing)
                && recorder.seen == old(recorder.seen) + [read.packet]
                && emitted == old(emitted) + (if recorder.state == old(recorder.state) then [] else [recorder.state])
    {
      if read.ReadFails? {
        return false;
      }
      if read.streamIndex == videoStreamIndex {
        var previousState := recorder.state;
        PacketKeepsInput(recorder.View(), read.packet, read.opening, read.writing);
        PacketMeaning(recorder.View(), read.packet, read.opening, read.writing);
        hide AfterPacket, Shape, Accounted;
        recorder.HandleVideoPacket(read.packet, read.opening, read.writing);
        if previousState != recorder.state {
          emitted := emitted + [recorder.state];
        }
      }
      ok := true;
    }

    method CleanupFrame()
      requires Valid()
      modifies this`frame, library
      ensures Valid() && frame == None
    {
      if frame.None? {
        return;
      }
      library.Free(frame);
      frame := None;
    }

    method CleanupPacket()
      requires Valid()
      modifies this`packet, library
      ensures Valid() && packet == None
    {
      if packet.None? {
        return;
      }
      library.Free(packet);
      packet := None;
    }

    method CleanupDecoder()
      requires Valid()
      modifies this`codecContext, this`videoStreamIndex, library
      ensures Valid() && codecContext == None && videoStreamIndex == -1
    {
      if codecContext.Some? {
        library.Free(codecContext);
        codecContext := None;
      }
      videoStreamIndex := -1;
    }

    /** The recorder must have let go of the input. */
    method CleanupInput()
      requires Valid() && recorder.inputStream.None?
      modifies this`formatContext, library
      ensures Valid() && formatContext == None
    {
      if formatContext.Some? {
        library.Free(formatContext);
        formatContext := None;
      }
    }

    method Cleanup(trailerWritten: bool)
      requires Valid()
      modifies this, library, recorder
      ensures Idle() && View() == AfterShutdown(old(View()), trailerWritten)
      ensures recorder.View() == AfterStop(old(recorder.View()), trailerWritten)
      ensures emitted == old(emitted) + [recorder.state]
      ensures pending == old(pending) && connections == old(connections)
    {
      hide Accounted;
      StopLetsGo(recorder.View(), trailerWritten);
      hide Shape, AfterStop;
      if recorder.state != Stopped {
        recorder.StopRecording(trailerWritten);
      }
      emitted := emitted + [recorder.state];
      CleanupHandles();
    }

    /** The second half of the cleanup. */
    method CleanupHandles()
      requires Valid() && recorder.inputStream.None?
      modifies this`formatContext, this`codecContext, this`packet, this`frame, this`videoStreamIndex, library
      ensures Idle()
    {
      hide Accounted;
      CleanupFrame();
      CleanupPacket();
      CleanupDecoder();
      CleanupInput();
      NothingHeld();
    }

    lemma NothingHeld()
      requires Accounted() && formatContext == None && codecContext == None && packet == None && frame == None
      ensures library.live == {}
    {
    }

    method EmitConnected()
      requires Valid()
      modifies this`connections
      ensures Valid() && View() == old(View()).(connections := old(View()).connections + 1)
      ensures connections == old(connections) + 1
    {
      connections := connections + 1;
    }

    /** From the announcement of the connection to the end of the packet loop. */
    method ReadPackets(c: Course)
      requires Valid() && formatContext.Some? && packet.Some?
      modifies this`pending, this`emitted, this`connections, recorder
      ensures Valid()
      ensures View() == AfterLoop(old(View()), c, InputStream(formatContext.value, videoStreamIndex))
      ensures connections == old(connections) + 1
    {
      hide Accounted, View, AfterCommands, AfterPacket, AfterStop, WithCommands, RecordingService.Valid;
      EmitConnected();
      var passes := 0;
      ghost var input := InputStream(formatContext.value, videoStreamIndex);
      while !StopRequested(c, AtHead(passes))
        invariant Valid() && 0 <= passes <= |c.rounds|
        invariant Passes(c, 0) == passes + Passes(c, passes)
        invariant View() == AtLoopHead(old(View()), c, input, passes) && connections == old(connections) + 1
        decreases |c.rounds| - passes
      {
        var round := RoundAt(c, passes);
        ReceiveCommands(round.commands);
        ProcessPendingCommands(round.trailerWritten);
        var more := ReadNextPacket(round.read);
        if !more {
          break;
        }
        passes := passes + 1;
      }
    }

    method Stream(c: Course) returns (reason: StreamWorker.ExitReason)
      requires Idle()
      modifies this, library, recorder
      ensures Idle() && library.live == {}
      ensures View() == AfterAttempt(old(View()), c, InputStream(old(library.next), FirstVideo(c.setup.streams)))
      ensures reason == ExitReason(c)
      ensures c.stop == Some(0) ==> View() == old(View())
      ensures connections == old(connections)
                             + if SetUp(c.setup) && !(c.stop.Some? && c.stop.value <= 1) then 1 else 0
      ensures var stopped := c.stop.Some? && c.stop.value <= |c.rounds| + 3;
              reason == if stopped then StreamWorker.Cancelled
                        else if connections > old(connections) then StreamWorker.NetworkFailure
                        else StreamWorker.InitializationFailure
    {
      hide Accounted, View, AfterLoop, AfterShutdown, SetUp, FirstVideo, RecordingService.Valid;
      if StopRequested(c, AT_ENTRY) {
        return StreamWorker.Cancelled;
      }
      var ok := InitializeEverything(c.setup);
      if !ok {
        Cleanup(c.trailerWritten);
        return if StopRequested(c, AtExit(c)) then StreamWorker.Cancelled else StreamWorker.InitializationFailure;
      }
      if StopRequested(c, AFTER_SETUP) {
        Cleanup(c.trailerWritten);
        return StreamWorker.Cancelled;
      }
      ReadPackets(c);
      Cleanup(c.trailerWritten);
      reason := if StopRequested(c, AtExit(c)) then StreamWorker.Cancelled else StreamWorker.NetworkFailure;
    }
  }
}
