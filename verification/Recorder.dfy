/**
 The packet-remuxing recorder: a request waits for the first keyframe, packets are then written until a stop, a
 failure or the end of the stream.

 What FFmpeg answers is a parameter of each operation.
 */
module Recorder {
  import opened Sequences

  datatype RecordingState = Stopped | Starting | Recording | Stopping | Error

  datatype RecordingResult =
    | Success
    | AlreadyRecording
    | InvalidConfiguration
    | OutputContextAllocationFailed
    | OutputStreamCreationFailed
    | CodecParametersCopyFailed
    | FileOpenFailed
    | HeaderWriteFailed

  datatype Configuration = Configuration(outputPath: string, cameraName: string)

  datatype Packet = Packet(isKeyFrame: bool, payload: int)

  /** The stream `index` of the input context with handle `context`. */
  datatype InputStream = InputStream(context: nat, index: int)

  /** The answers while an output is set up; `noFile` is a property of the format FFmpeg chose for the path. */
  datatype Opening = Opening(
    created: bool,
    noFile: bool,
    streamCreated: bool,
    parametersCopied: bool,
    fileOpened: bool,
    headerWritten: bool)

  /** The answers while a packet is written. */
  datatype Writing = Writing(referenced: bool, written: bool)

  /** What the muxer was told to put into an output, and whether it managed to. */
  datatype Entry = Header(ok: bool) | Written(packet: Packet, ok: bool) | Trailer(ok: bool)

  datatype Io = Unopened | Opened | Closed

  /**
   An output context with its history: how many video packets had been read when the recording was requested and
   when the context was freed.
   */
  datatype File = File(path: string, requested: nat, noFile: bool, io: Io, log: seq<Entry>, ended: Option<nat>)

  datatype Recorder = Recorder(
    state: RecordingState,
    pending: Option<Configuration>,
    input: Option<InputStream>,
    output: Option<File>,
    outputStream: bool,
    requested: nat,
    // records of the past
    seen: seq<Packet>,   // video packets handed over so far
    files: seq<File>)    // outputs whose context has been freed

  const NEW_RECORDER := Recorder(Stopped, None, None, None, false, 0, [], [])

  // ----- what each operation does

  function Freed(f: File, now: nat): File {
    f.(io := if f.io == Opened && !f.noFile then Closed else f.io, ended := Some(now))
  }

  function AfterOutputCleanup(r: Recorder): Recorder {
    match r.output
    case None => r
    case Some(f) => r.(files := r.files + [Freed(f, |r.seen|)], output := None, outputStream := false)
  }

  function AfterCleanup(r: Recorder): Recorder {
    AfterOutputCleanup(r).(pending := None, input := None, requested := 0, state := Stopped)
  }

  function AfterError(r: Recorder): Recorder {
    AfterCleanup(r).(state := Error)
  }

  function RequestResult(r: Recorder, c: Configuration): RecordingResult {
    if r.state != Stopped then AlreadyRecording
    else if c.outputPath == "" then InvalidConfiguration
    else Success
  }

  function AfterRequest(r: Recorder, c: Configuration, input: InputStream): Recorder {
    if !RequestResult(r, c).Success? then r
    else r.(pending := Some(c), input := Some(input), requested := |r.seen|, state := Starting)
  }

  function Logged(r: Recorder, e: Entry): Recorder {
    match r.output
    case None => r
    case Some(f) => r.(output := Some(f.(log := f.log + [e])))
  }

  function AfterStop(r: Recorder, trailerWritten: bool): Recorder {
    if r.state == Starting then AfterCleanup(r)
    else if r.state != Recording then r
    else AfterCleanup(Logged(r, Trailer(trailerWritten)))
  }

  function OpeningResult(o: Opening): RecordingResult {
    if !o.created then OutputContextAllocationFailed
    else if !o.streamCreated then OutputStreamCreationFailed
    else if !o.parametersCopied then CodecParametersCopyFailed
    else if !o.fileOpened then FileOpenFailed
    else if !o.headerWritten then HeaderWriteFailed
    else Success
  }

  /** The output after the calls up to the first that failed; a failure frees it again. */
  function AfterOpening(r: Recorder, path: string, o: Opening): Recorder {
    var f := File(path, r.requested, o.noFile, Unopened, [], None);
    var inUse := f.(io := Opened, log := [Header(o.headerWritten)]);
    match OpeningResult(o)
    case OutputContextAllocationFailed => r
    case OutputStreamCreationFailed => AfterCleanup(r.(output := Some(f)))
    case CodecParametersCopyFailed => AfterCleanup(r.(output := Some(f), outputStream := true))
    case FileOpenFailed => AfterCleanup(r.(output := Some(f), outputStream := true))
    case HeaderWriteFailed => AfterCleanup(r.(output := Some(inUse), outputStream := true))
    case _ => r.(output := Some(inUse), outputStream := true)
  }

  function AfterWrite(r: Recorder, p: Packet, w: Writing): Recorder {
    if !w.referenced then AfterError(r)
    else if !w.written then AfterError(Logged(r, Written(p, false)))
    else Logged(r, Written(p, true))
  }

  function PendingPath(r: Recorder): string {
    match r.pending
    case None => ""
    case Some(c) => c.outputPath
  }

  function AfterPacket(r: Recorder, p: Packet, o: Opening, w: Writing): Recorder {
    var s := r.(seen := r.seen + [p]);
    match r.state
    case Starting =>
      if !p.isKeyFrame then s
      else
        var t := AfterOpening(s, PendingPath(r), o);
        if !OpeningResult(o).Success? then AfterError(t)
        else AfterWrite(t.(pending := None, state := Recording), p, w)
    case Recording => AfterWrite(s, p, w)
    case _ => s
  }

  // ----- resources follow the state

  /** Starting holds a request and no output, Recording an output with its header, the other states nothing. */
  predicate Shape(r: Recorder) {
    && r.state != Stopping
    && (r.pending.Some? <==> r.state == Starting)
    && (r.pending.Some? ==> r.pending.value.outputPath != "")
    && (r.input.Some? <==> r.state == Starting || r.state == Recording)
    && (r.output.Some? <==> r.state == Recording)
    && (r.input.None? ==> r.requested == 0)
    && r.outputStream == r.output.Some?
    && (r.output.Some? ==> r.output.value.io == Opened && [Header(true)] <= r.output.value.log)
  }

  lemma PendingAwaitsKeyFrame(r: Recorder)
    requires Shape(r) && r.state == Starting
    ensures r.pending.Some? && r.output.None? && r.input.Some?
  {
  }

  lemma OpeningKeepsShape(r: Recorder, path: string, o: Opening)
    requires r.output.None? && !r.outputStream && r.input.Some?
    ensures var t := AfterOpening(r, path, o);
            if OpeningResult(o).Success?
            then t == r.(output := t.output, outputStream := true) && t.output.Some?
                 && t.output.value.io == Opened && t.output.value.log == [Header(true)]
            else t.output.None? && !t.outputStream
  {
  }

  lemma WriteKeepsShape(r: Recorder, p: Packet, w: Writing)
    requires Shape(r) && r.state == Recording
    ensures Shape(AfterWrite(r, p, w))
  {
    var f := r.output.value;
    assert [Header(true)] <= f.log + [Written(p, true)];
  }

  lemma PacketKeepsShape(r: Recorder, p: Packet, o: Opening, w: Writing)
    requires Shape(r)
    ensures Shape(AfterPacket(r, p, o, w))
  {
    hide AfterOpening, AfterWrite;
    var s := r.(seen := r.seen + [p]);
    if r.state == Starting && p.isKeyFrame {
      var t := AfterOpening(s, PendingPath(r), o);
      OpeningKeepsShape(s, PendingPath(r), o);
      if OpeningResult(o).Success? {
        WriteKeepsShape(t.(pending := None, state := Recording), p, w);
      }
    } else if r.state == Recording {
      WriteKeepsShape(s, p, w);
    }
  }

  // ----- what the operations mean, field by field

  predicate HoldsNothing(r: Recorder) {
    r.pending == None && r.input == None && r.output == None && !r.outputStream
  }

  /** A request is granted to an idle recorder that is given a path, and otherwise has no effect. */
  lemma RequestMeaning(r: Recorder, c: Configuration, input: InputStream)
    ensures RequestResult(r, c) == if r.state != Stopped then AlreadyRecording
                                   else if c.outputPath == "" then InvalidConfiguration else Success
    ensures var t := AfterRequest(r, c, input);
            if r.state == Stopped && c.outputPath != ""
            then && t.state == Starting && t.pending == Some(c) && t.input == Some(input) && t.requested == |r.seen|
                 && t.output == r.output && t.seen == r.seen && t.files == r.files
            else t == r
  {
  }

  /** Stopping a recording attempts the trailer and ends the file; stopping a request just drops it. */
  lemma StopMeaning(r: Recorder, trailerWritten: bool)
    requires Shape(r)
    ensures var t := AfterStop(r, trailerWritten);
            && t.seen == r.seen
            && match r.state
               case Starting => t.state == Stopped && HoldsNothing(t) && t.files == r.files
               case Recording =>
                 && t.state == Stopped && HoldsNothing(t)
                 && |t.files| == |r.files| + 1 && r.files <= t.files
                 && Last(t.files).path == r.output.value.path
                 && Last(t.files).log == r.output.value.log + [Trailer(trailerWritten)]
                 && Last(t.files).ended == Some(|r.seen|)
               case _ => t == r
  {
  }

  predicate OpensFully(o: Opening) {
    o.created && o.streamCreated && o.parametersCopied && o.fileOpened && o.headerWritten
  }

  /**
   A waiting recorder starts with a keyframe or gives up on it; a recording one writes the packet or gives up; in
   every other case the packet is only counted.
   */
  lemma PacketMeaning(r: Recorder, p: Packet, o: Opening, w: Writing)
    requires Shape(r)
    ensures var t := AfterPacket(r, p, o, w);
            && t.seen == r.seen + [p]
            && (r.state == Starting && p.isKeyFrame ==>
                  if OpensFully(o) && w.referenced && w.written
                  then && t.state == Recording && t.pending == None && t.input == r.input && t.files == r.files
                       && t.output == Some(File(r.pending.value.outputPath, r.requested, o.noFile, Opened,
                                                [Header(true), Written(p, true)], None))
                  else t.state == Error && HoldsNothing(t))
            && (r.state == Recording ==>
                  if w.referenced && w.written
                  then && t.state == Recording && t.input == r.input && t.files == r.files
                       && t.output == Some(r.output.value.(log := r.output.value.log + [Written(p, true)]))
                  else t.state == Error && HoldsNothing(t) && |t.files| == |r.files| + 1)
            && (r.state != Recording && !(r.state == Starting && p.isKeyFrame) ==> t == r.(seen := r.seen + [p]))
  {
    if r.state == Starting && p.isKeyFrame {
      StartMeaning(r.(seen := r.seen + [p]), p, o, w);
      assert [Header(true)] + [Written(p, true)] == [Header(true), Written(p, true)];
    }
  }

  /** Setting up an output reports the first call that failed. */
  lemma OpeningMeaning(o: Opening)
    ensures OpeningResult(o) == Success <==> OpensFully(o)
    ensures !o.created <==> OpeningResult(o) == OutputContextAllocationFailed
    ensures o.created && !o.streamCreated <==> OpeningResult(o) == OutputStreamCreationFailed
    ensures o.created && o.streamCreated && !o.parametersCopied <==> OpeningResult(o) == CodecParametersCopyFailed
    ensures o.created && o.streamCreated && o.parametersCopied && !o.fileOpened <==> OpeningResult(o) == FileOpenFailed
  {
  }

  lemma StartMeaning(s: Recorder, p: Packet, o: Opening, w: Writing)
    requires s.output == None && s.pending.Some? && !s.outputStream
    ensures var t := AfterOpening(s, PendingPath(s), o);
            if OpensFully(o)
            then && OpeningResult(o) == Success
                 && t == s.(output := Some(File(s.pending.value.outputPath, s.requested, o.noFile, Opened,
                                                [Header(true)], None)),
                            outputStream := true)
            else && OpeningResult(o) != Success
                 && AfterError(t).state == Error && HoldsNothing(AfterError(t)) && AfterError(t).seen == s.seen
  {
  }

  class RecordingService {
    var state: RecordingState
    var pendingConfiguration: Option<Configuration>
    var inputStream: Option<InputStream>
    var outputContext: Option<File>
    var outputStream: bool
    // records of the past
    var requested: nat
    var seen: seq<Packet>
    var files: seq<File>

    ghost function View(): Recorder
      reads this
    {
      Recorder(state, pendingConfiguration, inputStream, outputContext, outputStream, requested, seen, files)
    }

    ghost predicate Valid()
      reads this
    {
      Shape(View())
    }

    constructor ()
      ensures Valid() && View() == NEW_RECORDER
    {
      state, pendingConfiguration, inputStream, outputContext, outputStream := Stopped, None, None, None, false;
      requested, seen, files := 0, [], [];
    }

    method RequestRecording(configuration: Configuration, input: InputStream) returns (result: RecordingResult)
      requires Valid()
      modifies this
      ensures Valid() && View() == AfterRequest(old(View()), configuration, input)
      ensures result == RequestResult(old(View()), configuration)
    {
      if state != Stopped {
        return AlreadyRecording;
      }
      if configuration.outputPath == "" {
        return InvalidConfiguration;
      }
      pendingConfiguration := Some(configuration);
      inputStream := Some(input);
      requested := |seen|;
      state := Starting;
      return Success;
    }

    method StopRecording(trailerWritten: bool)
      requires Valid()
      modifies this
      ensures Valid() && View() == AfterStop(old(View()), trailerWritten)
    {
      if state == Starting {
        Cleanup();
        return;
      }
      if state != Recording {
        return;
      }
      state := Stopping;
      if outputContext.Some? {
        Log(Trailer(trailerWritten));
      }
      Cleanup();
      state := Stopped;
    }

    method HandleVideoPacket(packet: Packet, opening: Opening, writing: Writing)
      requires Valid()
      modifies this
      ensures Valid() && View() == AfterPacket(old(View()), packet, opening, writing)
    {
      ghost var before := View();
      PacketKeepsShape(before, packet, opening, writing);
      hide Shape, AfterOpening, AfterError, Logged, OpeningResult;
      seen := seen + [packet];
      match state
      case Starting =>
        if !packet.isKeyFrame {
          return;
        }
        PendingAwaitsKeyFrame(before);
        var result := InitializeRecording(pendingConfiguration.value, opening);
        if result != Success {
          Cleanup();
          state := Error;
          return;
        }
        pendingConfiguration := None;
        state := Recording;
        var written := WritePacket(packet, writing);
        if !written {
          Cleanup();
          state := Error;
        }
      case Recording =>
        var written := WritePacket(packet, writing);
        if !written {
          Cleanup();
          state := Error;
        }
      case _ =>
    }

    method WritePacket(packet: Packet, writing: Writing) returns (success: bool)
      modifies this
      ensures success == (old(state == Recording && outputContext.Some? && outputStream)
                          && writing.referenced && writing.written)
      ensures View() == if old(state == Recording && outputContext.Some? && outputStream) && writing.referenced
                        then Logged(old(View()), Written(packet, writing.written)) else old(View())
    {
      if state != Recording || outputContext.None? || !outputStream {
        return false;
      }
      if !writing.referenced {
        return false;
      }
      Log(Written(packet, writing.written));
      success := writing.written;
    }

    method InitializeRecording(configuration: Configuration, opening: Opening) returns (result: RecordingResult)
      requires outputContext.None?
      modifies this
      ensures result == OpeningResult(opening)
      ensures View() == AfterOpening(old(View()), configuration.outputPath, opening)
    {
      if !opening.created {
        return OutputContextAllocationFailed;
      }
      outputContext := Some(File(configuration.outputPath, requested, opening.noFile, Unopened, [], None));
      outputStream := opening.streamCreated;
      if !outputStream {
        Cleanup();
        return OutputStreamCreationFailed;
      }
      if !opening.parametersCopied {
        Cleanup();
        return CodecParametersCopyFailed;
      }
      if !opening.fileOpened {
        Cleanup();
        return FileOpenFailed;
      }
      outputContext := Some(outputContext.value.(io := Opened));
      Log(Header(opening.headerWritten));
      assert outputContext.value.log == [Header(opening.headerWritten)];
      if !opening.headerWritten {
        Cleanup();
        return HeaderWriteFailed;
      }
      return Success;
    }

    method Log(entry: Entry)
      requires outputContext.Some?
      modifies this`outputContext
      ensures View() == Logged(old(View()), entry)
    {
      outputContext := Some(outputContext.value.(log := outputContext.value.log + [entry]));
    }

    method CleanupOutputContext()
      modifies this
      ensures View() == AfterOutputCleanup(old(View()))
    {
      if outputContext.None? {
        return;
      }
      var output := outputContext.value;
      if output.io == Opened && !output.noFile {
        output := output.(io := Closed);
      }
      files := files + [output.(ended := Some(|seen|))];
      outputContext := None;
      outputStream := false;
    }

    method Cleanup()
      modifies this
      ensures View() == AfterCleanup(old(View()))
    {
      CleanupOutputContext();
      pendingConfiguration := None;
      inputStream := None;
      requested := 0;
      state := Stopped;
    }
  }
}
