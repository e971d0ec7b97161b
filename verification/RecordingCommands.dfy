/** Recording commands taken as a batch, against the same commands in the order they were given. */
module RecordingCommands {
  import opened Sequences
  import opened Recorder
  import opened StreamingService

  /** The commands executed one by one, as they were enqueued. */
  function InOrder(r: Recorder, cs: seq<Command>, input: InputStream, trailerWritten: bool): Recorder {
    if cs == [] then r
    else
      var t := InOrder(r, Front(cs), input, trailerWritten);
      match Last(cs)
      case StartRecording(c) => AfterRequest(t, c, input)
      case StopRecording => AfterStop(t, trailerWritten)
  }

  /** What becomes of the recorder when the commands are taken as one batch. */
  function Batched(s: Service, cs: seq<Command>, input: InputStream, trailerWritten: bool): Recorder {
    AfterCommands(WithCommands(s.(pending := NOTHING), cs), input, trailerWritten).recorder
  }

  predicate Stops(cs: seq<Command>) {
    StopRecording in cs
  }

  function AfterLastStop(cs: seq<Command>): seq<Command> {
    if cs == [] || Last(cs).StopRecording? then [] else AfterLastStop(Front(cs)) + [Last(cs)]
  }

  /** The first start among `cs` that names a file. */
  function FirstUsable(cs: seq<Command>): Option<Configuration> {
    if cs == [] then None
    else if FirstUsable(Front(cs)).Some? then FirstUsable(Front(cs))
    else if Last(cs).StartRecording? && Last(cs).configuration.outputPath != "" then Some(Last(cs).configuration)
    else None
  }

  /** The batch loses no start: none follows a stop, and an idle recorder is not first asked for an unusable one. */
  predicate Orderly(state: RecordingState, cs: seq<Command>) {
    || state == Error
    || (if Stops(cs) then FirstUsable(AfterLastStop(cs)) == None
        else state != Stopped || FirstUsable(cs) == None || cs[0].configuration.outputPath != "")
  }

  function AfterFirst(r: Recorder, start: Option<Configuration>, input: InputStream): Recorder {
    match start
    case None => r
    case Some(c) => AfterRequest(r, c, input)
  }

  function FirstStart(cs: seq<Command>): Option<Configuration> {
    if cs == [] then None
    else if FirstStart(Front(cs)).Some? then FirstStart(Front(cs))
    else if Last(cs).StartRecording? then Some(Last(cs).configuration)
    else None
  }

  lemma {:induction false} PendingOf(cs: seq<Command>)
    ensures AfterEnqueueAll(NOTHING, cs) == Pending(FirstStart(cs), Stops(cs))
  {
    if cs != [] {
      PendingOf(Front(cs));
      assert cs == Front(cs) + [Last(cs)];
    }
  }

  lemma {:induction false} FirstUsableIsUsable(cs: seq<Command>)
    ensures FirstUsable(cs).Some? ==> FirstUsable(cs).value.outputPath != ""
  {
    if cs != [] {
      FirstUsableIsUsable(Front(cs));
    }
  }

  /** Without a stop the first command is the first start. */
  lemma {:induction false} FirstCommand(cs: seq<Command>)
    requires cs != [] && !Stops(cs)
    ensures cs[0].StartRecording? && FirstStart(cs) == Some(cs[0].configuration)
    ensures cs[0].configuration.outputPath != "" ==> FirstUsable(cs) == Some(cs[0].configuration)
  {
    assert cs == Front(cs) + [Last(cs)];
    assert cs[0] in cs && Last(cs) in cs;
    if |cs| > 1 {
      FirstCommand(Front(cs));
    } else {
      assert Front(cs) == [];
    }
  }

  /** Stopping undoes a request that has not led to an output. */
  lemma StopAfterFirst(r: Recorder, start: Option<Configuration>, input: InputStream, ok: bool)
    requires Shape(r)
    ensures AfterStop(AfterFirst(r, start, input), ok) == AfterStop(r, ok)
    ensures Shape(AfterStop(r, ok)) && (r.state != Error ==> AfterStop(r, ok).state == Stopped)
  {
  }

  /** One more start, after commands that amount to a first usable start on top of `r`. */
  lemma StartAfterFirst(r: Recorder, cs: seq<Command>, c: Command, input: InputStream)
    requires r.state != Error && c.StartRecording?
    ensures AfterRequest(AfterFirst(r, FirstUsable(cs), input), c.configuration, input)
            == AfterFirst(r, FirstUsable(cs + [c]), input)
  {
    assert Front(cs + [c]) == cs;
    FirstUsableIsUsable(cs);
  }

  lemma StartJoins(cs: seq<Command>, c: Command)
    requires c.StartRecording?
    ensures Stops(cs + [c]) == Stops(cs) && AfterLastStop(cs + [c]) == AfterLastStop(cs) + [c]
  {
    assert Front(cs + [c]) == cs;
  }

  lemma StopResets(cs: seq<Command>)
    ensures Stops(cs + [StopRecording]) && AfterLastStop(cs + [StopRecording]) == []
  {
  }

  lemma {:induction false} InOrderIs(r: Recorder, cs: seq<Command>, input: InputStream, ok: bool)
    requires Shape(r) && r.state != Error
    ensures InOrder(r, cs, input, ok) ==
              if Stops(cs) then AfterFirst(AfterStop(r, ok), FirstUsable(AfterLastStop(cs)), input)
              else AfterFirst(r, FirstUsable(cs), input)
  {
    if cs != [] {
      hide Shape, AfterStop, AfterRequest, FirstUsable, AfterLastStop, Stops, AfterFirst;
      var before, c := Front(cs), Last(cs);
      assert cs == before + [c];
      InOrderIs(r, before, input, ok);
      var stopped, tail := AfterStop(r, ok), AfterLastStop(before);
      StopAfterFirst(r, FirstUsable(before), input, ok);
      if c.StartRecording? {
        StartJoins(before, c);
        StartAfterFirst(r, before, c, input);
        StartAfterFirst(stopped, tail, c, input);
      } else {
        StopResets(before);
        StopAfterFirst(stopped, FirstUsable(tail), input, ok);
        StopTwice(r, ok);
        NoCommands(stopped, input);
      }
    } else {
      NoCommands(r, input);
    }
  }

  lemma NoCommands(r: Recorder, input: InputStream)
    ensures AfterFirst(r, FirstUsable([]), input) == r && !Stops([])
  {
  }

  lemma StopTwice(r: Recorder, ok: bool)
    requires Shape(r)
    ensures AfterStop(AfterStop(r, ok), ok) == AfterStop(r, ok)
  {
  }

  /**
   The loop takes the commands of one pass as a batch: at most one start, then at most one stop, whatever the order
   they came in. The recorder ends up as if they had been executed one by one exactly when the batch is orderly.
   */
  lemma BatchIsFaithfulIffOrderly(s: Service, cs: seq<Command>, input: InputStream, ok: bool)
    requires Shape(s.recorder)
    ensures Batched(s, cs, input, ok) == InOrder(s.recorder, cs, input, ok) <==> Orderly(s.recorder.state, cs)
  {
    var r := s.recorder;
    PendingOf(cs);
    if r.state == Error {
      ErrorIgnoresCommands(r, cs, input, ok);
    } else {
      InOrderIs(r, cs, input, ok);
      StopAfterFirst(r, FirstStart(cs), input, ok);
      FirstUsableIsUsable(cs);
      FirstUsableIsUsable(AfterLastStop(cs));
      if !Stops(cs) && cs != [] {
        FirstCommand(cs);
      }
    }
  }

  lemma {:induction false} ErrorIgnoresCommands(r: Recorder, cs: seq<Command>, input: InputStream, ok: bool)
    requires r.state == Error
    ensures InOrder(r, cs, input, ok) == r
  {
    if cs != [] {
      ErrorIgnoresCommands(r, Front(cs), input, ok);
    }
  }

  /** A recording stopped and restarted within one pass stays stopped. */
  lemma RestartWithinOnePassIsLost(s: Service, c: Configuration, input: InputStream, ok: bool)
    requires Shape(s.recorder) && s.recorder.state == Recording && c.outputPath != ""
    ensures Batched(s, [StopRecording, StartRecording(c)], input, ok).state == Stopped
    ensures InOrder(s.recorder, [StopRecording, StartRecording(c)], input, ok).state == Starting
  {
    var cs := [StopRecording, StartRecording(c)];
    assert Front(cs) == [StopRecording] && Front([StopRecording]) == [];
    assert InOrder(s.recorder, [StopRecording], input, ok) == AfterStop(s.recorder, ok);
    PendingOf(cs);
  }

  /** A batch with a stop leaves the recorder stopped or in error, holding nothing. */
  lemma StopEndsTheBatch(s: Service, input: InputStream, ok: bool)
    requires Shape(s.recorder) && s.pending.stop
    ensures var r := AfterCommands(s, input, ok).recorder;
            && (r.state == Stopped || r.state == Error)
            && r.pending == None && r.input == None && r.output == None
  {
    StopAfterFirst(s.recorder, s.pending.start, input, ok);
  }
}
