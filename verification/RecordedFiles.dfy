/** What the recorder's files contain after any run, and what the recorder holds. */
module RecordedFiles {
  import opened Sequences
  import opened Recorder

  // ----- whole runs of the recorder

  datatype Event =
    | Request(configuration: Configuration, input: InputStream)
    | Stop(trailerWritten: bool)
    | Video(packet: Packet, opening: Opening, writing: Writing)

  function After(r: Recorder, e: Event): Recorder {
    match e
    case Request(c, input) => AfterRequest(r, c, input)
    case Stop(ok) => AfterStop(r, ok)
    case Video(p, o, w) => AfterPacket(r, p, o, w)
  }

  function AfterAll(r: Recorder, es: seq<Event>): Recorder {
    if es == [] then r else After(AfterAll(r, Front(es)), Last(es))
  }

  function Packets(es: seq<Event>): seq<Packet> {
    if es == [] then []
    else if Last(es).Video? then Packets(Front(es)) + [Last(es).packet]
    else Packets(Front(es))
  }

  // ----- what the files contain

  predicate FirstKeyFrame(seen: seq<Packet>, from: nat, k: nat) {
    from <= k < |seen| && seen[k].isKeyFrame && forall i :: from <= i < k ==> !seen[i].isKeyFrame
  }

  function Writes(ps: seq<Packet>): seq<Entry> {
    seq(|ps|, i requires 0 <= i < |ps| => Written(ps[i], true))
  }

  /** One header, then every packet from the first keyframe after the request up to position `end`. */
  ghost predicate Block(f: File, seen: seq<Packet>, end: nat, log: seq<Entry>) {
    exists k: nat :: FirstKeyFrame(seen, f.requested, k) && k <= end <= |seen|
                && log == [Header(true)] + Writes(seen[k..end])
  }

  /** The file of a recording that was stopped; nothing read before the stop is missing. */
  ghost predicate Complete(f: File, seen: seq<Packet>) {
    && f.ended.Some? && f.log != [] && Last(f.log).Trailer?
    && Block(f, seen, f.ended.value, Front(f.log))
  }

  /** The packet read last could not be written, or the output could not be set up for it; no trailer follows. */
  ghost predicate Truncated(f: File, seen: seq<Packet>) {
    && f.ended.Some? && 0 < f.ended.value <= |seen|
    && var last := f.ended.value - 1;
       || ((f.log == [] || f.log == [Header(false)]) && FirstKeyFrame(seen, f.requested, last))
       || Block(f, seen, last, f.log)
       || (f.log != [] && Last(f.log) == Written(seen[last], false) && Block(f, seen, last, Front(f.log)))
  }

  /** All files are complete, except that the last may be truncated once the recorder has given up. */
  ghost predicate FilesSound(files: seq<File>, seen: seq<Packet>, gaveUp: bool) {
    forall i :: 0 <= i < |files| ==>
      Complete(files[i], seen) || (i == |files| - 1 && gaveUp && Truncated(files[i], seen))
  }

  /** The file being written holds every packet from its first keyframe on. */
  ghost predicate OutputSound(r: Recorder) {
    r.output.Some? ==> r.output.value.ended.None? && Block(r.output.value, r.seen, |r.seen|, r.output.value.log)
  }

  /** No packet between the request and now could have started the recording. */
  ghost predicate StillWaiting(r: Recorder) {
    r.state == Starting ==> forall i :: r.requested <= i < |r.seen| ==> !r.seen[i].isKeyFrame
  }

  /** The spans of the recordings follow each other without overlap, up to position `limit`. */
  ghost predicate FilesOrdered(files: seq<File>, limit: nat) {
    && (forall i :: 0 <= i < |files| ==>
          files[i].ended.Some? && files[i].requested <= files[i].ended.value <= limit)
    && (forall i, j :: 0 <= i < j < |files| ==>
          files[i].ended.Some? && files[i].ended.value <= files[j].requested)
  }

  /** Where the span of the present recording, or else of the next one, begins at the earliest. */
  function Limit(r: Recorder): nat {
    if r.state == Starting then r.requested
    else if r.output.Some? then r.output.value.requested
    else |r.seen|
  }

  /** Cleanup closes the file of an output, unless its format needs no file. */
  predicate HandleSound(f: File) {
    f.io == if f.log == [] then Unopened else if f.noFile then Opened else Closed
  }

  ghost predicate HandlesSound(files: seq<File>) {
    forall i :: 0 <= i < |files| ==> HandleSound(files[i])
  }

  ghost predicate Inv(r: Recorder) {
    && Shape(r) && OutputSound(r) && StillWaiting(r) && Limit(r) <= |r.seen|
    && FilesSound(r.files, r.seen, r.state == Error) && FilesOrdered(r.files, Limit(r)) && HandlesSound(r.files)
  }

  lemma WritesSnoc(ps: seq<Packet>, p: Packet)
    ensures Writes(ps + [p]) == Writes(ps) + [Written(p, true)]
  {
  }

  lemma FirstKeyFrameStays(seen: seq<Packet>, p: Packet, from: nat, k: nat)
    requires FirstKeyFrame(seen, from, k)
    ensures FirstKeyFrame(seen + [p], from, k)
  {
    forall i | from <= i < k ensures !(seen + [p])[i].isKeyFrame {
      assert (seen + [p])[i] == seen[i];
    }
  }

  lemma BlockStays(f: File, seen: seq<Packet>, p: Packet, end: nat, log: seq<Entry>)
    requires Block(f, seen, end, log)
    ensures Block(f, seen + [p], end, log)
  {
    var k: nat :| FirstKeyFrame(seen, f.requested, k) && k <= end <= |seen|
                  && log == [Header(true)] + Writes(seen[k..end]);
    FirstKeyFrameStays(seen, p, f.requested, k);
    assert (seen + [p])[k..end] == seen[k..end];
  }

  lemma BlockGrows(f: File, seen: seq<Packet>, log: seq<Entry>)
    requires seen != [] && Block(f, seen, |seen| - 1, log)
    ensures Block(f, seen, |seen|, log + [Written(Last(seen), true)])
  {
    var last := |seen| - 1;
    var k: nat :| FirstKeyFrame(seen, f.requested, k) && k <= last && log == [Header(true)] + Writes(seen[k..last]);
    assert seen[k..|seen|] == seen[k..last] + [seen[last]];
    WritesSnoc(seen[k..last], seen[last]);
    assert log + [Written(seen[last], true)] == [Header(true)] + Writes(seen[k..|seen|]);
  }

  /** The packet that ends the waiting starts the block. */
  lemma BlockStarts(f: File, seen: seq<Packet>, p: Packet)
    requires f.requested <= |seen| && p.isKeyFrame
    requires forall i :: f.requested <= i < |seen| ==> !seen[i].isKeyFrame
    ensures FirstKeyFrame(seen + [p], f.requested, |seen|)
    ensures Block(f, seen + [p], |seen|, [Header(true)])
  {
    var all := seen + [p];
    assert FirstKeyFrame(all, f.requested, |seen|);
    assert [Header(true)] == [Header(true)] + Writes(all[|seen|..|seen|]);
  }

  lemma CompleteStays(f: File, seen: seq<Packet>, p: Packet)
    requires Complete(f, seen)
    ensures Complete(f, seen + [p])
  {
    BlockStays(f, seen, p, f.ended.value, Front(f.log));
  }

  lemma TruncatedStays(f: File, seen: seq<Packet>, p: Packet)
    requires Truncated(f, seen)
    ensures Truncated(f, seen + [p])
  {
    hide Block;
    var last := f.ended.value - 1;
    if FirstKeyFrame(seen, f.requested, last) {
      FirstKeyFrameStays(seen, p, f.requested, last);
    }
    if Block(f, seen, last, f.log) {
      BlockStays(f, seen, p, last, f.log);
    }
    if f.log != [] && Block(f, seen, last, Front(f.log)) {
      BlockStays(f, seen, p, last, Front(f.log));
    }
  }

  lemma FilesStay(files: seq<File>, seen: seq<Packet>, p: Packet, gaveUp: bool)
    requires FilesSound(files, seen, gaveUp)
    ensures FilesSound(files, seen + [p], gaveUp)
  {
    hide Complete, Truncated;
    forall i | 0 <= i < |files|
      ensures Complete(files[i], seen + [p]) || (i == |files| - 1 && gaveUp && Truncated(files[i], seen + [p]))
    {
      if Complete(files[i], seen) {
        CompleteStays(files[i], seen, p);
      } else {
        TruncatedStays(files[i], seen, p);
      }
    }
  }

  /** One more file, freed now. */
  lemma FileAppended(files: seq<File>, seen: seq<Packet>, limit: nat, f: File, gaveUp: bool)
    requires FilesSound(files, seen, false) && FilesOrdered(files, limit) && HandlesSound(files)
    requires f.ended == Some(|seen|) && limit <= f.requested <= |seen| && HandleSound(f)
    requires Complete(f, seen) || (gaveUp && Truncated(f, seen))
    ensures FilesSound(files + [f], seen, gaveUp) && FilesOrdered(files + [f], |seen|) && HandlesSound(files + [f])
  {
    hide Complete, Truncated, HandleSound;
  }

  lemma RequestKeepsInv(r: Recorder, c: Configuration, input: InputStream)
    requires Inv(r)
    ensures Inv(AfterRequest(r, c, input))
  {
    hide FilesSound, HandlesSound, Block;
  }

  lemma StopKeepsInv(r: Recorder, ok: bool)
    requires Inv(r)
    ensures Inv(AfterStop(r, ok))
  {
    hide Block;
    if r.state == Recording {
      var f := r.output.value;
      var g := Freed(f.(log := f.log + [Trailer(ok)]), |r.seen|);
      assert Front(g.log) == f.log && Last(g.log) == Trailer(ok);
      BlockOnlyNeedsRequest(f, g, r.seen, |r.seen|, f.log);
      hide FilesSound, FilesOrdered, HandlesSound;
      FileAppended(r.files, r.seen, f.requested, g, false);
    }
  }

  lemma BlockOnlyNeedsRequest(f: File, g: File, seen: seq<Packet>, end: nat, log: seq<Entry>)
    requires Block(f, seen, end, log) && f.requested == g.requested
    ensures Block(g, seen, end, log)
  {
  }

  /** `p` has been read but not yet written. */
  ghost predicate AboutToWrite(s: Recorder, p: Packet) {
    && Shape(s) && s.state == Recording && s.seen != [] && Last(s.seen) == p
    && var f := s.output.value;
       && f.ended.None? && Block(f, s.seen, |s.seen| - 1, f.log) && f.requested <= |s.seen|
       && FilesSound(s.files, s.seen, false) && FilesOrdered(s.files, f.requested) && HandlesSound(s.files)
  }

  lemma WriteKeepsInv(s: Recorder, p: Packet, w: Writing)
    requires AboutToWrite(s, p)
    ensures Inv(AfterWrite(s, p, w))
  {
    hide Inv, Block, AboutToWrite, AfterError, Logged;
    if w.referenced && w.written {
      WrittenKeepsInv(s, p);
    } else {
      FailedWriteKeepsInv(s, p, w);
    }
  }

  lemma WrittenKeepsInv(s: Recorder, p: Packet)
    requires AboutToWrite(s, p)
    ensures Inv(Logged(s, Written(p, true)))
  {
    hide FilesSound, FilesOrdered, HandlesSound, Block;
    var f := s.output.value;
    WriteKeepsShape(s, p, Writing(true, true));
    BlockGrows(f, s.seen, f.log);
    BlockOnlyNeedsRequest(f, f.(log := f.log + [Written(p, true)]), s.seen, |s.seen|, f.log + [Written(p, true)]);
  }

  lemma FailedWriteKeepsInv(s: Recorder, p: Packet, w: Writing)
    requires AboutToWrite(s, p) && !(w.referenced && w.written)
    ensures Inv(AfterWrite(s, p, w))
  {
    hide FilesSound, FilesOrdered, HandlesSound, Block;
    var f := s.output.value;
    var log := if w.referenced then f.log + [Written(p, false)] else f.log;
    var g := Freed(f.(log := log), |s.seen|);
    assert w.referenced ==> Front(g.log) == f.log;
    BlockOnlyNeedsRequest(f, g, s.seen, |s.seen| - 1, f.log);
    assert Truncated(g, s.seen);
    hide Truncated;
    FileAppended(s.files, s.seen, f.requested, g, true);
  }

  lemma FailedOpeningKeepsInv(s: Recorder, path: string, o: Opening)
    requires s.output.None? && !s.outputStream && s.seen != [] && !OpeningResult(o).Success?
    requires FirstKeyFrame(s.seen, s.requested, |s.seen| - 1)
    requires FilesSound(s.files, s.seen, false) && FilesOrdered(s.files, s.requested) && HandlesSound(s.files)
    ensures Inv(AfterError(AfterOpening(s, path, o)))
  {
    hide Block, FilesOrdered, HandlesSound;
    if !o.created {
      LimitRises(s.files, s.requested, |s.seen|);
    } else {
      hide FilesSound, FirstKeyFrame;
      var f := File(path, s.requested, o.noFile, Unopened, [], None);
      var g := if o.streamCreated && o.parametersCopied && o.fileOpened
               then Freed(f.(io := Opened, log := [Header(false)]), |s.seen|) else Freed(f, |s.seen|);
      assert s.requested <= |s.seen| by { KeyFrameIsLater(s.seen, s.requested, |s.seen| - 1); }
      FileAppended(s.files, s.seen, s.requested, g, true);
    }
  }

  lemma KeyFrameIsLater(seen: seq<Packet>, from: nat, k: nat)
    requires FirstKeyFrame(seen, from, k)
    ensures from <= k < |seen|
  {
  }

  lemma LimitRises(files: seq<File>, limit: nat, higher: nat)
    requires FilesOrdered(files, limit) && limit <= higher
    ensures FilesOrdered(files, higher)
  {
  }

  lemma PacketKeepsInv(r: Recorder, p: Packet, o: Opening, w: Writing)
    requires Inv(r)
    ensures Inv(AfterPacket(r, p, o, w))
  {
    hide FilesSound, HandlesSound, FilesOrdered, AfterWrite, AfterOpening, AfterError;
    var s := r.(seen := r.seen + [p]);
    FilesStay(r.files, r.seen, p, r.state == Error);
    match r.state
    case Starting =>
      if p.isKeyFrame {
        var path := PendingPath(r);
        BlockStarts(File(path, r.requested, o.noFile, Opened, [Header(true)], None), r.seen, p);
        if OpeningResult(o).Success? {
          OpeningSucceeds(s, path, o);
          WriteKeepsInv(AfterOpening(s, path, o).(pending := None, state := Recording), p, w);
        } else {
          FailedOpeningKeepsInv(s, path, o);
        }
      }
    case Recording =>
      var f := r.output.value;
      BlockStays(f, r.seen, p, |r.seen|, f.log);
      WriteKeepsInv(s, p, w);
    case Stopped | Error => LimitRises(r.files, |r.seen|, |s.seen|);
    case Stopping =>
  }

  lemma OpeningSucceeds(r: Recorder, path: string, o: Opening)
    requires OpeningResult(o).Success?
    ensures var f := File(path, r.requested, o.noFile, Opened, [Header(true)], None);
            AfterOpening(r, path, o) == r.(output := Some(f), outputStream := true)
  {
  }

  // ----- what holds after every run

  lemma {:induction false} RunKeepsInv(r: Recorder, es: seq<Event>)
    requires Inv(r)
    ensures Inv(AfterAll(r, es))
  {
    hide Inv, AfterRequest, AfterStop, AfterPacket;
    if es != [] {
      RunKeepsInv(r, Front(es));
      var s := AfterAll(r, Front(es));
      match Last(es)
      case Request(c, input) => RequestKeepsInv(s, c, input);
      case Stop(ok) => StopKeepsInv(s, ok);
      case Video(p, o, w) => PacketKeepsInv(s, p, o, w);
    }
  }

  lemma SeenBy(r: Recorder, e: Event)
    ensures After(r, e).seen == if e.Video? then r.seen + [e.packet] else r.seen
  {
  }

  lemma {:induction false} RunSeesPackets(r: Recorder, es: seq<Event>)
    ensures AfterAll(r, es).seen == r.seen + Packets(es)
  {
    hide After;
    if es != [] {
      RunSeesPackets(r, Front(es));
      SeenBy(AfterAll(r, Front(es)), Last(es));
    }
  }

  /**
   After any sequence of requests, stops and packets, every file that was ended by a stop holds one header, exactly
   the packets from the first keyframe after its request to the stop, and one trailer. Only the last file may have
   been cut short, and only if the recorder has given up; it has no trailer. No packet is in two files.
   */
  lemma FilesHoldWhatWasSeen(es: seq<Event>)
    ensures var r := AfterAll(NEW_RECORDER, es);
            && r.seen == Packets(es)
            && FilesSound(r.files, Packets(es), r.state == Error) && FilesOrdered(r.files, Limit(r))
            && (r.output.Some? ==> Block(r.output.value, Packets(es), |Packets(es)|, r.output.value.log))
  {
    RunKeepsInv(NEW_RECORDER, es);
    RunSeesPackets(NEW_RECORDER, es);
  }

  lemma ResourcesFollowState(es: seq<Event>)
    ensures Shape(AfterAll(NEW_RECORDER, es))
  {
    RunKeepsInv(NEW_RECORDER, es);
  }

  /** The transitions of the recorder, and exactly when each is taken. */
  lemma TransitionsFollowDiagram(r: Recorder, e: Event)
    requires Shape(r)
    ensures var t := After(r, e).state;
            match r.state
            case Stopped =>
              t == if e.Request? && e.configuration.outputPath != "" then Starting else Stopped
            case Starting =>
              && (t == Stopped <==> e.Stop?)
              && (t == Starting <==> e.Request? || (e.Video? && !e.packet.isKeyFrame))
              && (t == Recording <==> e.Video? && e.packet.isKeyFrame && OpeningResult(e.opening).Success?
                                      && e.writing == Writing(true, true))
              && t != Stopping
            case Recording =>
              && (t == Stopped <==> e.Stop?)
              && (t == Error <==> e.Video? && e.writing != Writing(true, true))
              && (t == Recording || t == Stopped || t == Error)
            case _ => t == Error
  {
    hide Freed;
  }

  /** Once an error occurred, nothing but the count of packets changes any more. */
  lemma {:induction false} ErrorIsAbsorbing(r: Recorder, es: seq<Event>)
    requires r.state == Error
    ensures AfterAll(r, es) == r.(seen := r.seen + Packets(es))
  {
    if es != [] {
      ErrorIsAbsorbing(r, Front(es));
    }
  }

  /** A stop leaves a recorder that holds nothing and has ended every file. */
  lemma StopReleasesEverything(es: seq<Event>, trailerWritten: bool)
    ensures var r := AfterStop(AfterAll(NEW_RECORDER, es), trailerWritten);
            && (r.state == Stopped || r.state == Error)
            && r.pending == None && r.input == None && r.output == None && !r.outputStream
            && forall f :: f in r.files ==> f.ended.Some?
  {
    RunKeepsInv(NEW_RECORDER, es);
    var s := AfterAll(NEW_RECORDER, es);
    hide AfterAll;
    StopKeepsInv(s, trailerWritten);
  }

  /**
   The file behind an output is closed when the output is freed. That fails exactly for formats that need no file:
   for them one is opened all the same, and cleanup leaves it open.
   */
  lemma FilesAreClosedUnlessNotNeeded(es: seq<Event>, f: File)
    requires f in AfterAll(NEW_RECORDER, es).files
    ensures f.io != Opened <==> (f.log != [] ==> !f.noFile)
  {
    RunKeepsInv(NEW_RECORDER, es);
    hide FilesSound, FilesOrdered, OutputSound, StillWaiting;
  }

  lemma FileCanStayOpen()
    ensures exists es, f :: f in AfterAll(NEW_RECORDER, es).files && f.ended.Some? && f.io == Opened
  {
    var key := Video(Packet(true, 0), Opening(true, true, true, true, true, true), Writing(true, true));
    var request := Request(Configuration("live.m3u8", ""), InputStream(0, 0));
    var es := [request, key, Stop(true)];
    var waiting := After(NEW_RECORDER, request);
    var recording := After(waiting, key);
    assert AfterAll(NEW_RECORDER, [request]) == waiting by {
      assert Front([request]) == [];
    }
    assert AfterAll(NEW_RECORDER, [request, key]) == recording by {
      assert Front([request, key]) == [request];
    }
    assert Front(es) == [request, key];
    assert recording.state == Recording && recording.output.Some?;
    assert Last(After(recording, Stop(true)).files) in AfterAll(NEW_RECORDER, es).files;
  }
}
