/** Connection states, the latest-frame exchange and the GUI side of a streaming session. */
module Stream {
  import opened Common
  import opened Sequences

  datatype ConnectionState = Disconnected | Connecting | Connected | Reconnecting | Error

  datatype Snapshot = Snapshot(image: Image, revision: nat, streamRunId: nat, decodeTime: int, valid: bool)

  const NO_FRAME := Snapshot(NULL_IMAGE, 0, 0, 0, false)

  function AfterPublishFrame(s: Snapshot, image: Image, decodeTime: int, run: nat): Snapshot {
    Snapshot(image, s.revision + 1, run, decodeTime, true)
  }

  /** The latest-frame register between the streaming thread and the GUI thread. */
  class FrameExchange {
    var snapshot: Snapshot

    constructor ()
      ensures snapshot == NO_FRAME
    {
      snapshot := NO_FRAME;
    }

    method Publish(image: Image, decodeTime: int, run: nat)
      modifies this
      ensures snapshot == AfterPublishFrame(old(snapshot), image, decodeTime, run)
      ensures snapshot.image == image && snapshot.revision == old(snapshot.revision) + 1 && snapshot.valid
      ensures snapshot.decodeTime == decodeTime && snapshot.streamRunId == run
    {
      snapshot := snapshot.(image := image);
      snapshot := snapshot.(revision := snapshot.revision + 1);
      snapshot := snapshot.(decodeTime := decodeTime);
      snapshot := snapshot.(streamRunId := run);
      snapshot := snapshot.(valid := true);
    }
  }

  // ----- the session, with stop tokens numbered by the run they belong to

  datatype Job = Job(uri: string, run: nat)

  datatype Session = Session(
    run: nat,               // runs requested so far
    stopped: set<nat>,      // runs whose stop token has been triggered
    state: ConnectionState,
    emitted: seq<ConnectionState>,
    jobs: seq<Job>)         // starts queued to the streaming thread

  const NEW_SESSION := Session(0, {}, Disconnected, [], [])

  function AfterStart(s: Session, uri: string): Session {
    s.(stopped := s.stopped + {s.run}, run := s.run + 1, jobs := s.jobs + [Job(uri, s.run + 1)])
  }

  function AfterStop(s: Session): Session {
    s.(stopped := s.stopped + {s.run})
  }

  function AfterState(s: Session, e: ConnectionState): Session {
    if s.state == e then s else s.(state := e, emitted := s.emitted + [e])
  }

  /** Zero stands for "no active requested run". */
  function StreamRunId(s: Session): nat {
    if s.run in s.stopped then 0 else s.run
  }

  function CurrentFrame(s: Session, latest: Snapshot): Snapshot {
    var run := StreamRunId(s);
    if run == 0 || latest.streamRunId != run then NO_FRAME else latest
  }

  class StopSource {
    var requested: bool

    constructor ()
      ensures !requested
    {
      requested := false;
    }

    method RequestStop()
      modifies this
      ensures requested
    {
      requested := true;
    }
  }

  datatype QueuedStart = QueuedStart(uri: string, token: StopSource, run: nat)

  class StreamingSession {
    var stopSource: StopSource
    var streamRunId: nat
    var state: ConnectionState
    var emitted: seq<ConnectionState>
    var queued: seq<QueuedStart>
    const exchange: FrameExchange
    /** The stop source of every run, the initial one first. */
    ghost var sources: seq<StopSource>

    ghost predicate Valid()
      reads this
    {
      && |sources| == streamRunId + 1 && stopSource == Last(sources)
      && (forall i, j :: 0 <= i < j < |sources| ==> sources[i] != sources[j])
      && (forall i :: 0 <= i < |queued| ==> queued[i].run < |sources| && queued[i].token == sources[queued[i].run])
    }

    ghost function View(): Session
      reads this, sources
    {
      Session(streamRunId, (set i | 0 <= i < |sources| && sources[i].requested), state, emitted,
              seq(|queued|, i requires 0 <= i < |queued| reads this => Job(queued[i].uri, queued[i].run)))
    }

    constructor ()
      ensures Valid() && View() == NEW_SESSION && exchange.snapshot == NO_FRAME
      ensures fresh(exchange) && fresh(sources)
    {
      stopSource := new StopSource();
      streamRunId, state, emitted, queued := 0, Disconnected, [], [];
      exchange := new FrameExchange();
      new;
      sources := [stopSource];
    }

    /** Stops the previous run and queues the next one; refuses when the run counter is exhausted. */
    method Start(uri: string) returns (started: bool)
      requires Valid()
      modifies this, stopSource
      ensures Valid()
      ensures started == (old(streamRunId) != MAX_U64)
      ensures View() == if started then AfterStart(old(View()), uri) else old(View())
      ensures state == old(state) && emitted == old(emitted)
      ensures started ==>
                && old(stopSource).requested && fresh(stopSource) && !stopSource.requested
                && streamRunId == old(streamRunId) + 1
                && queued == old(queued) + [QueuedStart(uri, stopSource, streamRunId)]
    {
      if streamRunId == MAX_U64 {
        return false;
      }
      ghost var before := View();
      stopSource.RequestStop();
      stopSource := new StopSource();
      streamRunId := streamRunId + 1;
      sources := sources + [stopSource];
      queued := queued + [QueuedStart(uri, stopSource, streamRunId)];
      started := true;
      assert View().jobs == before.jobs + [Job(uri, streamRunId)];
      assert View().stopped == before.stopped + {before.run};
    }

    method Stop()
      requires Valid()
      modifies stopSource
      ensures Valid() && View() == AfterStop(old(View())) && stopSource.requested
    {
      ghost var before := View();
      stopSource.RequestStop();
      assert View().stopped == before.stopped + {before.run};
    }

    method GetStreamRunId() returns (run: nat)
      requires Valid()
      ensures run == StreamRunId(View())
      ensures run == if stopSource.requested then 0 else streamRunId
    {
      run := if stopSource.requested then 0 else streamRunId;
    }

    method GetCurrentFrame() returns (frame: Snapshot)
      requires Valid()
      ensures frame == CurrentFrame(View(), exchange.snapshot)
      ensures frame == if !stopSource.requested && streamRunId != 0 && exchange.snapshot.streamRunId == streamRunId
                       then exchange.snapshot else NO_FRAME
    {
      var runId := GetStreamRunId();
      var snapshot := exchange.snapshot;
      if runId == 0 || snapshot.streamRunId != runId {
        return NO_FRAME;
      }
      frame := snapshot;
    }

    method OnStateChanged(newState: ConnectionState)
      requires Valid()
      modifies this
      ensures Valid() && View() == AfterState(old(View()), newState)
      ensures state == newState
      ensures emitted == old(emitted) + if old(state) == newState then [] else [newState]
    {
      if state == newState {
        return;
      }
      state := newState;
      emitted := emitted + [newState];
      assert View().stopped == old(View().stopped);
    }
  }
}
