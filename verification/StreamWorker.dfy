/**
 The retry loop of one streaming run: how many attempts it makes and which connection states it emits.

 What the network and the user do to a run is a script: for each attempt, whether it connects, why it ends and
 whether a stop request is noticed.
 */
module StreamWorker {
  import opened Sequences
  import opened Stream

  datatype ExitReason =
    | Cancelled
    | NetworkFailure
    | InitializationFailure
    | AuthenticationFailure
    | InvalidUrl
    | Timeout
    | StreamEnded
    | UnknownError

  /** Where in an attempt the loop first sees the stop request, if at all. */
  datatype StopPoint = Never | BeforeAttempt | DuringAttempt | DuringDelay

  datatype Attempt = Attempt(connects: bool, reason: ExitReason, stop: StopPoint)

  type Script = nat -> Attempt

  predicate Retryable(r: ExitReason) {
    r == InitializationFailure || r == NetworkFailure
  }

  /** The reasons the streaming service really returns when no stop was requested. */
  predicate Genuine(a: Attempt) {
    a.stop == Never || a.stop == DuringDelay ==>
      a.reason == if a.connects then NetworkFailure else InitializationFailure
  }

  // ----- the retry counter and the states emitted, as functions of the attempts so far

  /** A connection resets the counter. */
  function CounterIn(k: nat, a: Attempt): nat {
    if a.connects then 0 else k
  }

  /** The retry counter at the loop head after the attempts `s`, all of which were retried. */
  function Counter(s: seq<Attempt>): nat {
    if s == [] then 0 else CounterIn(Counter(Front(s)), Last(s)) + 1
  }

  predicate Continues(max: int, k: nat, a: Attempt) {
    a.stop == Never && Retryable(a.reason) && CounterIn(k, a) < max
  }

  predicate AllContinue(max: int, s: seq<Attempt>) {
    s == [] || (AllContinue(max, Front(s)) && Continues(max, Counter(Front(s)), Last(s)))
  }

  /** `s` is exactly the sequence of attempts of one run. */
  predicate Executed(max: int, s: seq<Attempt>) {
    s != [] && AllContinue(max, Front(s)) && !Continues(max, Counter(Front(s)), Last(s))
  }

  function Connections(s: seq<Attempt>): nat {
    if s == [] then 0 else Connections(Front(s)) + if Last(s).connects then 1 else 0
  }

  function IfConnected(a: Attempt): seq<ConnectionState> {
    if a.connects then [Connected] else []
  }

  function Retried(s: seq<Attempt>): seq<ConnectionState> {
    if s == [] then [] else Retried(Front(s)) + IfConnected(Last(s)) + [Reconnecting]
  }

  /** What the run emits once its last attempt is over; `late` tells whether a stop is seen on the way out. */
  function Leaving(max: int, k: nat, a: Attempt, late: bool): seq<ConnectionState> {
    var out := if late then [Disconnected] else [];
    if a.stop == DuringAttempt then [Disconnected]
    else if Retryable(a.reason) && k >= max then [Reconnecting, Error] + out
    else if Retryable(a.reason) then [Reconnecting, Disconnected]
    else if a.reason == StreamEnded then [Disconnected] + out
    else if a.reason == UnknownError then [Error] + out
    else out
  }

  /** What the last attempt emits. */
  function Ending(max: int, k: nat, a: Attempt, late: bool): seq<ConnectionState> {
    if a.stop == BeforeAttempt then [Disconnected] else IfConnected(a) + Leaving(max, CounterIn(k, a), a, late)
  }

  /** Everything a run emits after its first state. */
  function Emissions(max: int, s: seq<Attempt>, late: bool): seq<ConnectionState>
    requires s != []
  {
    Retried(Front(s)) + Ending(max, Counter(Front(s)), Last(s), late)
  }

  function Word(max: int, s: seq<Attempt>, late: bool): seq<ConnectionState>
    requires s != []
  {
    [Connecting] + Emissions(max, s, late)
  }

  // ----- the loop

  class ReconnectPolicy {
    var retryCount: nat
    const maxRetries: int

    constructor (maxRetries: int := 30)
      ensures retryCount == 0 && this.maxRetries == maxRetries
    {
      retryCount := 0;
      this.maxRetries := maxRetries;
    }

    predicate ShouldRetry()
      reads this
    {
      retryCount < maxRetries
    }

    method RecordRetry()
      modifies this
      ensures retryCount == old(retryCount) + 1
    {
      retryCount := retryCount + 1;
    }

    method Reset()
      modifies this
      ensures retryCount == 0
    {
      retryCount := 0;
    }
  }

  ghost function Attempts(script: Script, n: nat): (s: seq<Attempt>)
    ensures |s| == n && forall i :: 0 <= i < n ==> s[i] == script(i)
  {
    seq(n, i requires i >= 0 => script(i))
  }

  /** At most `c` attempts connect. */
  ghost predicate ConnectsAtMost(script: Script, c: nat) {
    forall n :: Connections(Attempts(script, n)) <= c
  }

  lemma AttemptsSnoc(script: Script, n: nat)
    ensures Attempts(script, n + 1) == Attempts(script, n) + [script(n)]
    ensures Front(Attempts(script, n + 1)) == Attempts(script, n)
  {
  }

  class StreamingWorker {
    const policy: ReconnectPolicy
    var streamRunId: nat
    var emitted: seq<ConnectionState>

    constructor (policy: ReconnectPolicy)
      ensures this.policy == policy && emitted == []
    {
      this.policy := policy;
      streamRunId := 0;
      emitted := [];
    }

    method Emit(state: ConnectionState)
      modifies this`emitted
      ensures emitted == old(emitted) + [state]
    {
      emitted := emitted + [state];
    }

    /** The slot of the service's connected signal. */
    method OnConnected()
      modifies this`emitted, policy
      ensures policy.retryCount == 0 && emitted == old(emitted) + [Connected]
    {
      policy.Reset();
      Emit(Connected);
    }

    /** Returns whether the run may be retried. */
    method HandleExitReason(reason: ExitReason) returns (retry: bool)
      modifies this`emitted
      ensures retry == Retryable(reason)
      ensures retry <==> reason == InitializationFailure || reason == NetworkFailure
      ensures emitted == old(emitted) + if retry then [Reconnecting]
                                        else if reason == StreamEnded then [Disconnected]
                                        else if reason == UnknownError then [Error]
                                        else []
    {
      match reason
      case InitializationFailure => Emit(Reconnecting); return true;
      case NetworkFailure => Emit(Reconnecting); return true;
      case StreamEnded => Emit(Disconnected); return false;
      case UnknownError => Emit(Error); return false;
      case _ => return false;
    }

    /** The part of the loop body after the attempt. */
    method HandleExit(a: Attempt, late: bool) returns (again: bool, stopRequested: bool)
      requires a.stop != BeforeAttempt
      modifies this`emitted, policy
      ensures again == (a.stop == Never && Retryable(a.reason) && old(policy.retryCount) < policy.maxRetries)
      ensures again ==> !stopRequested && policy.retryCount == old(policy.retryCount) + 1
                        && emitted == old(emitted) + [Reconnecting]
      ensures !again ==> emitted + (if stopRequested then [Disconnected] else [])
                         == old(emitted) + Leaving(policy.maxRetries, old(policy.retryCount), a, late)
    {
      if a.stop == DuringAttempt {
        return false, true;
      }
      var retry := HandleExitReason(a.reason);
      if !retry {
        return false, late;
      }
      if !policy.ShouldRetry() {
        Emit(Error);
        return false, late;
      }
      if a.stop == DuringDelay {
        return false, true;
      }
      policy.RecordRetry();
      return true, false;
    }

    /** One pass of the loop body; `again` tells whether the loop goes on. */
    method TryOnce(a: Attempt, late: bool) returns (again: bool, stopRequested: bool)
      modifies this`emitted, policy
      ensures again == Continues(policy.maxRetries, old(policy.retryCount), a)
      ensures again ==>
                && !stopRequested
                && policy.retryCount == CounterIn(old(policy.retryCount), a) + 1
                && emitted == old(emitted) + IfConnected(a) + [Reconnecting]
      ensures !again ==>
                emitted + (if stopRequested then [Disconnected] else [])
                == old(emitted) + Ending(policy.maxRetries, old(policy.retryCount), a, late)
    {
      if a.stop == BeforeAttempt {
        return false, true;
      }
      if a.connects {
        OnConnected();
      }
      assert emitted == old(emitted) + IfConnected(a) && policy.retryCount == CounterIn(old(policy.retryCount), a);
      hide IfConnected, CounterIn, Leaving;
      again, stopRequested := HandleExit(a, late);
    }

    /** The loop over the attempts, for every script under which the run ends; it makes exactly the attempts it must. */
    method Loop(script: Script, late: bool, ghost length: nat)
      returns (attempts: nat, stopRequested: bool)
      requires Executed(policy.maxRetries, Attempts(script, length)) && policy.retryCount == 0
      modifies this`emitted, policy
      ensures attempts == length
      ensures emitted + (if stopRequested then [Disconnected] else [])
              == old(emitted) + Emissions(policy.maxRetries, Attempts(script, attempts), late)
    {
      ghost var max, done, start := policy.maxRetries, [], emitted;
      var again := true;
      attempts, stopRequested := 0, false;
      StartLooping(max, script, length, start);
      hide Looping, Finished, Continues, Ending, Executed, Emissions;
      while again
        invariant done == Attempts(script, attempts)
        invariant again ==> Looping(max, done, policy.retryCount, start, emitted)
        invariant !again ==> attempts > 0 && Finished(max, done, late, stopRequested, start, emitted)
        invariant again ==> attempts < length
        decreases again, length - attempts
      {
        ghost var k, sent := policy.retryCount, emitted;
        var a := script(attempts);
        AttemptsSnoc(script, attempts);
        attempts := attempts + 1;
        again, stopRequested := TryOnce(a, late);
        if again {
          ContinueStep(max, done, k, a, start, sent);
          NotYetExecuted(max, script, attempts, length, policy.retryCount, start, emitted);
        } else {
          EndStep(max, done, k, a, late, stopRequested, start, sent, emitted);
        }
        done := done + [a];
      }
      FinishedOnce(max, script, attempts, length, late, stopRequested, start, emitted);
    }

    /** One run of the retry loop, from the first state emitted to the last. */
    method Start(run: nat, stoppedAtEntry: bool, script: Script, late: bool, ghost length: nat)
      returns (attempts: nat)
      requires !stoppedAtEntry ==> Executed(policy.maxRetries, Attempts(script, length))
      modifies this, policy
      ensures stoppedAtEntry ==>
                attempts == 0 && streamRunId == old(streamRunId) && emitted == old(emitted) + [Disconnected]
      ensures !stoppedAtEntry ==>
                && attempts == length > 0 && streamRunId == run
                && emitted == old(emitted) + Word(policy.maxRetries, Attempts(script, attempts), late)
    {
      if stoppedAtEntry {
        Emit(Disconnected);
        return 0;
      }
      streamRunId := run;
      policy.Reset();
      Emit(Connecting);
      var stopRequested;
      attempts, stopRequested := Loop(script, late, length);
      ghost var emissions := Emissions(policy.maxRetries, Attempts(script, attempts), late);
      if stopRequested {
        Emit(Disconnected);
      }
      assert emitted == old(emitted) + [Connecting] + emissions == old(emitted) + ([Connecting] + emissions);
    }
  }

  /** After the retried attempts `done` the counter is `k` and `sent` has grown from `start`. */
  ghost predicate Looping(max: int, done: seq<Attempt>, k: nat,
                          start: seq<ConnectionState>, sent: seq<ConnectionState>)
  {
    AllContinue(max, done) && k == Counter(done) && sent == start + Retried(done)
  }

  /** The run is over but for the final check of the stop token. */
  ghost predicate Finished(max: int, done: seq<Attempt>, late: bool, stopRequested: bool,
                           start: seq<ConnectionState>, sent: seq<ConnectionState>)
  {
    && Executed(max, done)
    && sent + (if stopRequested then [Disconnected] else []) == start + Emissions(max, done, late)
  }

  lemma {:induction false} PrefixContinues(max: int, script: Script, n: nat, m: nat)
    requires n <= m && AllContinue(max, Attempts(script, m))
    ensures AllContinue(max, Attempts(script, n))
  {
    if n < m {
      AttemptsSnoc(script, m - 1);
      PrefixContinues(max, script, n, m - 1);
    }
  }

  lemma NotExecuted(max: int, script: Script, n: nat, m: nat)
    requires n <= m && AllContinue(max, Attempts(script, m))
    ensures !Executed(max, Attempts(script, n))
  {
    PrefixContinues(max, script, n, m);
  }

  /** A run that goes on has not come to its end. */
  lemma NotYetExecuted(max: int, script: Script, n: nat, length: nat, k: nat,
                       start: seq<ConnectionState>, sent: seq<ConnectionState>)
    requires Looping(max, Attempts(script, n), k, start, sent) && Executed(max, Attempts(script, length))
    ensures n < length
  {
    if length <= n {
      NotExecuted(max, script, length, n);
    }
  }

  lemma StartLooping(max: int, script: Script, length: nat, start: seq<ConnectionState>)
    requires Executed(max, Attempts(script, length))
    ensures Attempts(script, 0) == [] && Looping(max, [], 0, start, start) && 0 < length
  {
    assert start + [] == start;
  }

  lemma FinishedOnce(max: int, script: Script, n: nat, length: nat, late: bool, stopRequested: bool,
                     start: seq<ConnectionState>, sent: seq<ConnectionState>)
    requires n > 0 && Finished(max, Attempts(script, n), late, stopRequested, start, sent)
    requires Executed(max, Attempts(script, length))
    ensures n == length
    ensures sent + (if stopRequested then [Disconnected] else []) == start + Emissions(max, Attempts(script, n), late)
  {
    hide Executed, Emissions;
    ExecutedOnce(max, script, n, length);
  }

  lemma NoEarlierEnd(max: int, script: Script, n: nat, m: nat)
    requires n < m && Executed(max, Attempts(script, m))
    ensures !Executed(max, Attempts(script, n))
  {
    hide Continues, AllContinue, Counter;
    AttemptsSnoc(script, m - 1);
    NotExecuted(max, script, n, m - 1);
  }

  /** A run has one end. */
  lemma ExecutedOnce(max: int, script: Script, n: nat, m: nat)
    requires Executed(max, Attempts(script, n)) && Executed(max, Attempts(script, m))
    ensures n == m
  {
    hide Executed;
    if n < m {
      NoEarlierEnd(max, script, n, m);
    } else if m < n {
      NoEarlierEnd(max, script, m, n);
    }
  }

  lemma OneMore(max: int, s: seq<Attempt>, a: Attempt)
    ensures AllContinue(max, s + [a]) <==> AllContinue(max, s) && Continues(max, Counter(s), a)
    ensures Counter(s + [a]) == CounterIn(Counter(s), a) + 1
    ensures Retried(s + [a]) == Retried(s) + (IfConnected(a) + [Reconnecting])
    ensures Connections(s + [a]) == Connections(s) + if a.connects then 1 else 0
  {
    hide Continues;
    assert Front(s + [a]) == s;
    assert Retried(s + [a]) == Retried(s) + IfConnected(a) + [Reconnecting];
  }

  lemma ContinueStep(max: int, s: seq<Attempt>, k: nat, a: Attempt,
                     start: seq<ConnectionState>, sent: seq<ConnectionState>)
    requires Looping(max, s, k, start, sent) && Continues(max, k, a)
    ensures Looping(max, s + [a], CounterIn(k, a) + 1, start, sent + IfConnected(a) + [Reconnecting])
    ensures Connections(s + [a]) == Connections(s) + if a.connects then 1 else 0
    ensures CounterIn(k, a) < max
  {
    hide AllContinue, Counter, Retried, Connections, IfConnected, CounterIn;
    OneMore(max, s, a);
    assert (start + Retried(s)) + IfConnected(a) + [Reconnecting]
        == start + (Retried(s) + (IfConnected(a) + [Reconnecting]));
  }

  lemma EndStep(max: int, s: seq<Attempt>, k: nat, a: Attempt, late: bool, stopRequested: bool,
                start: seq<ConnectionState>, before: seq<ConnectionState>, sent: seq<ConnectionState>)
    requires Looping(max, s, k, start, before) && !Continues(max, k, a)
    requires sent + (if stopRequested then [Disconnected] else []) == before + Ending(max, k, a, late)
    ensures Finished(max, s + [a], late, stopRequested, start, sent)
  {
    hide Continues, Ending;
    assert Front(s + [a]) == s;
  }

  // ----- retry bound

  function Budget(max: int): nat {
    if max < 0 then 0 else max
  }

  lemma NextProduct(b: nat, c: nat)
    ensures b * (c + 1) == b * c + b
  {
  }

  /** Between two connections there are at most `max` retries, and the counter never exceeds them. */
  lemma {:induction false} RetriedBound(max: int, s: seq<Attempt>)
    requires AllContinue(max, s)
    ensures Counter(s) <= Budget(max)
    ensures |s| <= Budget(max) * Connections(s) + Counter(s)
  {
    if s != [] {
      RetriedBound(max, Front(s));
      NextProduct(Budget(max), Connections(Front(s)));
    }
  }

  /** A run in which c attempts connect makes at most (max + 1) + max * c attempts. */
  lemma AttemptBound(max: int, s: seq<Attempt>)
    requires Executed(max, s)
    ensures |s| <= (Budget(max) + 1) + Budget(max) * Connections(s)
    ensures Counter(Front(s)) <= Budget(max)
  {
    hide Continues, AllContinue, Counter, Budget;
    RetriedBound(max, Front(s));
    NextProduct(Budget(max), Connections(Front(s)));
  }

  // ----- when a run ends

  ghost predicate Ends(max: int, script: Script) {
    exists n :: Executed(max, Attempts(script, n))
  }

  ghost predicate Endless(max: int, script: Script) {
    forall n :: AllContinue(max, Attempts(script, n))
  }

  lemma {:induction false} EndlessUnlessExecuted(max: int, script: Script, n: nat)
    requires !Ends(max, script)
    ensures AllContinue(max, Attempts(script, n))
  {
    if n > 0 {
      AttemptsSnoc(script, n - 1);
      EndlessUnlessExecuted(max, script, n - 1);
      assert !Executed(max, Attempts(script, n));
    }
  }

  /** While it goes on, a run with at most `c` connections has connections or else retries left, and uses them up. */
  lemma {:induction false} EndsFrom(max: int, script: Script, c: nat, n: nat)
    requires ConnectsAtMost(script, c) && AllContinue(max, Attempts(script, n))
    ensures Ends(max, script)
    decreases c - Connections(Attempts(script, n)), max - Counter(Attempts(script, n))
  {
    var s, a := Attempts(script, n), script(n);
    AttemptsSnoc(script, n);
    hide AllContinue, Counter, Connections, Continues, Retried;
    OneMore(max, s, a);
    var _ := Connections(Attempts(script, n + 1));
    if Continues(max, Counter(s), a) {
      ContinuesBelowMax(max, Counter(s), a);
      EndsFrom(max, script, c, n + 1);
    } else {
      assert Executed(max, Attempts(script, n + 1));
    }
  }

  lemma ContinuesBelowMax(max: int, k: nat, a: Attempt)
    requires Continues(max, k, a)
    ensures CounterIn(k, a) < max && (!a.connects ==> CounterIn(k, a) == k)
  {
  }

  /**
   A run ends unless every one of its attempts is retried, and it can go on without end only by connecting again and
   again: no number bounds the connections of an endless run.
   */
  lemma RunsEndUnlessTheyKeepConnecting(max: int, script: Script)
    ensures Ends(max, script) <==> !Endless(max, script)
    ensures Endless(max, script) ==> forall c: nat :: !ConnectsAtMost(script, c)
  {
    if !Ends(max, script) {
      forall n ensures AllContinue(max, Attempts(script, n)) {
        EndlessUnlessExecuted(max, script, n);
      }
    }
    if Endless(max, script) {
      forall n ensures !Executed(max, Attempts(script, n)) {
        NotExecuted(max, script, n, n);
      }
      forall c: nat ensures !ConnectsAtMost(script, c) {
        if ConnectsAtMost(script, c) {
          EndsFrom(max, script, c, 0);
        }
      }
    }
  }

  const FAILS := Attempt(false, InitializationFailure, Never)
  const DROPS := Attempt(true, NetworkFailure, Never)

  /** `s` followed by `n` attempts that do not connect. */
  function ThenFailures(s: seq<Attempt>, n: nat): seq<Attempt> {
    if n == 0 then s else ThenFailures(s, n - 1) + [FAILS]
  }

  lemma {:induction false} FailuresContinue(max: nat, s: seq<Attempt>, n: nat)
    requires AllContinue(max, s) && Counter(s) + n <= max
    ensures AllContinue(max, ThenFailures(s, n)) && Counter(ThenFailures(s, n)) == Counter(s) + n
    ensures Connections(ThenFailures(s, n)) == Connections(s)
  {
    if n > 0 {
      hide AllContinue, Counter, Connections;
      FailuresContinue(max, s, n - 1);
      OneMore(max, ThenFailures(s, n - 1), FAILS);
    }
  }

  /** The longest run with `c` connections, one attempt before its end. */
  function Longest(max: nat, c: nat): seq<Attempt>
    requires max > 0
  {
    if c == 0 then ThenFailures([], max) else ThenFailures(Longest(max, c - 1) + [DROPS], max - 1)
  }

  lemma ReconnectAndFail(max: nat, s: seq<Attempt>)
    requires max > 0 && AllContinue(max, s)
    ensures var t := ThenFailures(s + [DROPS], max - 1);
            AllContinue(max, t) && Counter(t) == max && Connections(t) == Connections(s) + 1
  {
    hide AllContinue, Counter, Connections, ThenFailures, Retried;
    OneMore(max, s, DROPS);
    FailuresContinue(max, s + [DROPS], max - 1);
  }

  lemma {:induction false} LongestContinues(max: nat, c: nat)
    requires max > 0
    ensures AllContinue(max, Longest(max, c)) && Counter(Longest(max, c)) == max
    ensures Connections(Longest(max, c)) == c
  {
    assert Counter([]) == 0 && AllContinue(max, []) && Connections([]) == 0;
    hide AllContinue, Counter, Connections, ThenFailures;
    if c == 0 {
      FailuresContinue(max, [], max);
    } else {
      LongestContinues(max, c - 1);
      ReconnectAndFail(max, Longest(max, c - 1));
    }
  }

  lemma {:induction false} ThenFailuresLength(s: seq<Attempt>, n: nat)
    ensures |ThenFailures(s, n)| == |s| + n
  {
    if n > 0 {
      ThenFailuresLength(s, n - 1);
    }
  }

  lemma {:induction false} LongestLength(max: nat, c: nat)
    requires max > 0
    ensures |Longest(max, c)| == max + max * c
  {
    if c == 0 {
      ThenFailuresLength([], max);
    } else {
      LongestLength(max, c - 1);
      NextProduct(max, c - 1);
      ThenFailuresLength(Longest(max, c - 1) + [DROPS], max - 1);
    }
  }

  /** The bound is reached for every positive budget and every number of connections. */
  lemma AttemptBoundIsTight(max: nat, c: nat)
    requires max > 0
    ensures exists s :: Executed(max, s) && Connections(s) == c && |s| == (max + 1) + max * c
  {
    LongestContinues(max, c);
    LongestLength(max, c);
    var s := Longest(max, c) + [FAILS];
    assert Front(s) == Longest(max, c);
    assert Executed(max, s) && Connections(s) == c;
  }

  // ----- the language of emitted states

  /** Progress of a run as its emitted states reveal it. */
  datatype Phase = Begin | Trying(counter: nat) | Linked | Owed | GaveUp | Done

  function AfterReconnecting(max: int, k: nat): Phase {
    if k < max then Trying(k + 1) else Owed
  }

  function Advance(max: int, p: Phase, e: ConnectionState): Option<Phase> {
    match p
    case Begin => if e == Connecting then Some(Trying(0)) else if e == Disconnected then Some(Done) else None
    case Trying(k) =>
      if e == Connected then Some(Linked)
      else if e == Reconnecting then Some(AfterReconnecting(max, k))
      else if e == Disconnected then Some(Done)
      else None
    case Linked =>
      if e == Reconnecting then Some(AfterReconnecting(max, 0)) else if e == Disconnected then Some(Done) else None
    case Owed => if e == Error then Some(GaveUp) else None
    case GaveUp => if e == Disconnected then Some(Done) else None
    case Done => None
  }

  function Scan(max: int, w: seq<ConnectionState>): Option<Phase> {
    if w == [] then Some(Begin)
    else
      match Scan(max, Front(w))
      case None => None
      case Some(p) => Advance(max, p, Last(w))
  }

  predicate Complete(max: int, w: seq<ConnectionState>) {
    var p := Scan(max, w);
    p == Some(Done) || p == Some(GaveUp)
  }

  predicate AllGenuine(s: seq<Attempt>) {
    forall i :: 0 <= i < |s| ==> Genuine(s[i])
  }

  lemma ScanSnoc(max: int, w: seq<ConnectionState>, e: ConnectionState)
    ensures Scan(max, w + [e]) == match Scan(max, w)
                                  case None => None
                                  case Some(p) => Advance(max, p, e)
  {
    assert Front(w + [e]) == w;
  }

  /** Scanning the states of one more attempt up to its reconnection. */
  lemma ScanAttempt(max: int, w: seq<ConnectionState>, k: nat, a: Attempt)
    requires Scan(max, w) == Some(Trying(k))
    ensures Scan(max, w + IfConnected(a)) == Some(if a.connects then Linked else Trying(k))
    ensures Scan(max, w + IfConnected(a) + [Reconnecting]) == Some(AfterReconnecting(max, CounterIn(k, a)))
  {
    ScanSnoc(max, w, Connected);
    assert w + [] == w;
    ScanSnoc(max, w + IfConnected(a), Reconnecting);
  }

  lemma {:induction false} ScanRetried(max: int, s: seq<Attempt>)
    requires AllContinue(max, s)
    ensures Scan(max, [Connecting] + Retried(s)) == Some(Trying(Counter(s)))
  {
    if s == [] {
      assert [Connecting] + Retried(s) == [] + [Connecting];
      ScanSnoc(max, [], Connecting);
    } else {
      ScanRetried(max, Front(s));
      var w := [Connecting] + Retried(Front(s));
      ScanAttempt(max, w, Counter(Front(s)), Last(s));
      assert [Connecting] + Retried(s) == w + IfConnected(Last(s)) + [Reconnecting];
    }
  }

  lemma ScanEnding(max: int, w: seq<ConnectionState>, k: nat, a: Attempt, late: bool)
    requires Scan(max, w) == Some(Trying(k)) && Genuine(a) && !Continues(max, k, a)
    ensures Complete(max, w + Ending(max, k, a, late))
  {
    hide Scan;
    ScanAttempt(max, w, k, a);
    var c := w + IfConnected(a);
    var r := c + [Reconnecting];
    if a.stop == BeforeAttempt {
      ScanSnoc(max, w, Disconnected);
    } else if a.stop == DuringAttempt {
      ScanSnoc(max, c, Disconnected);
      assert c + [Disconnected] == w + Ending(max, k, a, late);
    } else if CounterIn(k, a) >= max {
      ScanSnoc(max, r, Error);
      ScanSnoc(max, r + [Error], Disconnected);
      assert late ==> r + [Error] + [Disconnected] == w + Ending(max, k, a, late);
      assert !late ==> r + [Error] == w + Ending(max, k, a, late);
    } else {
      ScanSnoc(max, r, Disconnected);
      assert r + [Disconnected] == w + Ending(max, k, a, late);
    }
  }

  /** Every run of the real service emits a word of the language. */
  lemma LanguageSound(max: int, s: seq<Attempt>, late: bool)
    requires Executed(max, s) && AllGenuine(s)
    ensures Complete(max, Word(max, s, late))
  {
    ScanRetried(max, Front(s));
    var w, end := [Connecting] + Retried(Front(s)), Ending(max, Counter(Front(s)), Last(s), late);
    ScanEnding(max, w, Counter(Front(s)), Last(s), late);
    assert Word(max, s, late) == w + end;
  }

  /** Some real run emits `w` up to phase `p`. */
  ghost predicate Explains(max: int, p: Phase, w: seq<ConnectionState>) {
    match p
    case Begin => w == []
    case Trying(k) => exists s :: Retries(max, s, k, w)
    case Linked => exists s, k, v :: Retries(max, s, k, v) && w == v + [Connected]
    case Owed => exists s, a, k, v :: Exhausts(max, s, a, k, v) && w == v + IfConnected(a) + [Reconnecting]
    case GaveUp => Emitted(max, w) && Emitted(max, w + [Disconnected])
    case Done => Emitted(max, w)
  }

  ghost predicate Retries(max: int, s: seq<Attempt>, k: nat, w: seq<ConnectionState>) {
    AllGenuine(s) && AllContinue(max, s) && k == Counter(s) && w == [Connecting] + Retried(s)
  }

  /** `a` is the attempt that uses up the retry budget. */
  ghost predicate Exhausts(max: int, s: seq<Attempt>, a: Attempt, k: nat, w: seq<ConnectionState>) {
    Retries(max, s, k, w) && Genuine(a) && a.stop == Never && CounterIn(k, a) >= max
  }

  /** `w` is the whole emission of some real run. */
  ghost predicate Emitted(max: int, w: seq<ConnectionState>) {
    || w == [Disconnected]
    || exists s, late :: Executed(max, s) && AllGenuine(s) && Word(max, s, late) == w
  }

  lemma EmittedBy(max: int, s: seq<Attempt>, k: nat, a: Attempt, late: bool, v: seq<ConnectionState>)
    requires Retries(max, s, k, v) && Genuine(a) && !Continues(max, k, a)
    ensures Emitted(max, v + Ending(max, k, a, late))
  {
    hide Ending, Genuine, Continues;
    var whole := s + [a];
    assert Front(whole) == s && Last(whole) == a;
    assert Word(max, whole, late) == v + Ending(max, k, a, late);
    assert Executed(max, whole) && AllGenuine(whole);
  }

  lemma RetriesOneMore(max: int, s: seq<Attempt>, k: nat, a: Attempt, v: seq<ConnectionState>)
    requires Retries(max, s, k, v) && Genuine(a) && a.stop == Never
    ensures Explains(max, AfterReconnecting(max, CounterIn(k, a)), v + IfConnected(a) + [Reconnecting])
  {
    var w := v + IfConnected(a) + [Reconnecting];
    if CounterIn(k, a) < max {
      var longer := s + [a];
      assert Front(longer) == s;
      assert Retries(max, longer, CounterIn(k, a) + 1, w);
    } else {
      assert Exhausts(max, s, a, k, v);
    }
  }

  const CUT := Attempt(false, Cancelled, BeforeAttempt)
  const CUT_LINKED := Attempt(true, Cancelled, DuringAttempt)

  lemma ExplainsFromTrying(max: int, k: nat, v: seq<ConnectionState>, e: ConnectionState)
    requires Explains(max, Trying(k), v) && Advance(max, Trying(k), e).Some?
    ensures Explains(max, Advance(max, Trying(k), e).value, v + [e])
  {
    hide Retries;
    var s :| Retries(max, s, k, v);
    if e == Connected {
      assert Retries(max, s, k, v) && v + [e] == v + [Connected];
    } else if e == Reconnecting {
      RetriesOneMore(max, s, k, FAILS, v);
      assert v + IfConnected(FAILS) + [Reconnecting] == v + [e];
    } else {
      EmittedBy(max, s, k, CUT, false, v);
    }
  }

  lemma ExplainsFromLinked(max: int, w: seq<ConnectionState>, e: ConnectionState)
    requires Explains(max, Linked, w) && Advance(max, Linked, e).Some?
    ensures Explains(max, Advance(max, Linked, e).value, w + [e])
  {
    hide Retries;
    var s, k, v :| Retries(max, s, k, v) && w == v + [Connected];
    if e == Reconnecting {
      RetriesOneMore(max, s, k, DROPS, v);
    } else {
      EmittedBy(max, s, k, CUT_LINKED, false, v);
      assert v + Ending(max, k, CUT_LINKED, false) == w + [e];
    }
  }

  lemma ExplainsFromOwed(max: int, w: seq<ConnectionState>)
    requires Explains(max, Owed, w)
    ensures Emitted(max, w + [Error]) && Emitted(max, w + [Error] + [Disconnected])
  {
    hide Retries, Emitted, IfConnected;
    var s, a, k, v :| Exhausts(max, s, a, k, v) && w == v + IfConnected(a) + [Reconnecting];
    assert Emitted(max, w + [Error]) by {
      EmittedBy(max, s, k, a, false, v);
      assert v + Ending(max, k, a, false) == w + [Error];
    }
    assert Emitted(max, w + [Error] + [Disconnected]) by {
      EmittedBy(max, s, k, a, true, v);
      assert v + Ending(max, k, a, true) == w + [Error] + [Disconnected];
    }
  }

  lemma ExplainsNothing(max: int)
    ensures Explains(max, Begin, [])
  {
  }

  lemma ExplainsFirst(max: int, e: ConnectionState)
    requires Advance(max, Begin, e).Some?
    ensures Explains(max, Advance(max, Begin, e).value, [e])
  {
    if e == Connecting {
      assert [e] == [Connecting] + Retried([]);
      assert Retries(max, [], 0, [e]);
    }
  }

  lemma ExplainsGivingUp(max: int, w: seq<ConnectionState>)
    requires Explains(max, Owed, w)
    ensures Explains(max, GaveUp, w + [Error])
  {
    hide Emitted;
    ExplainsFromOwed(max, w);
  }

  lemma ExplainsLast(max: int, w: seq<ConnectionState>, e: ConnectionState)
    requires Explains(max, GaveUp, w) && Advance(max, GaveUp, e).Some?
    ensures Explains(max, Done, w + [e])
  {
    hide Emitted;
  }

  lemma {:induction false} ScanExplains(max: int, w: seq<ConnectionState>)
    requires Scan(max, w).Some?
    ensures Explains(max, Scan(max, w).value, w)
    decreases |w|
  {
    hide Explains, Emitted;
    if w != [] {
      var v, e := Front(w), Last(w);
      assert w == v + [e];
      ScanExplains(max, v);
      match Scan(max, v).value
      case Begin => ExplainsFirst(max, e);
      case Trying(k) => ExplainsFromTrying(max, k, v, e);
      case Linked => ExplainsFromLinked(max, v, e);
      case Owed => ExplainsGivingUp(max, v);
      case GaveUp => ExplainsLast(max, v, e);
      case Done =>
    } else {
      ExplainsNothing(max);
    }
  }

  lemma StopAtEntryIsComplete(max: int)
    ensures Complete(max, [Disconnected])
  {
  }

  /** The runs of the real service emit exactly the words of the language. */
  lemma LanguageExact(max: int, w: seq<ConnectionState>)
    ensures Complete(max, w) <==> Emitted(max, w)
  {
    hide Scan, Word, AllContinue, AllGenuine;
    if Complete(max, w) {
      ScanExplains(max, w);
    }
    StopAtEntryIsComplete(max);
    if s, late :| Executed(max, s) && AllGenuine(s) && Word(max, s, late) == w {
      LanguageSound(max, s, late);
    }
  }

  lemma {:induction false} CompleteEnds(max: int, w: seq<ConnectionState>)
    requires Complete(max, w)
    ensures w != [] && (Last(w) == Disconnected || Last(w) == Error)
  {
  }

  /** The attempt ends for a reason the loop does not handle, and no stop is seen on the way out. */
  predicate EndsSilently(a: Attempt, late: bool) {
    && (a.stop == Never || a.stop == DuringDelay)
    && !late
    && (a.reason == Cancelled || a.reason == AuthenticationFailure || a.reason == InvalidUrl || a.reason == Timeout)
  }

  /**
   For an arbitrary service a run leaves the session at rest exactly when its last attempt does not end silently.
   (The real service never ends an attempt silently: see Genuine.)
   */
  lemma RunRestsUnlessSilent(max: int, s: seq<Attempt>, late: bool)
    requires Executed(max, s)
    ensures Last(Word(max, s, late)) in {Disconnected, Error} <==> !EndsSilently(Last(s), late)
  {
    hide AllContinue, Counter;
    var w, end := Word(max, s, late), Ending(max, Counter(Front(s)), Last(s), late);
    var start := [Connecting] + Retried(Front(s));
    assert w == start + end;
    EndingSilent(max, Counter(Front(s)), Last(s), late);
    hide Ending, Word, Executed, EndsSilently;
    if end != [] {
      assert Last(w) == Last(end);
    } else {
      assert w == start;
      assert Front(s) != [] ==> Last(start) == Last(Retried(Front(s))) == Reconnecting;
    }
  }

  lemma EndingSilent(max: int, k: nat, a: Attempt, late: bool)
    requires !Continues(max, k, a)
    ensures var end := Ending(max, k, a, late);
            if EndsSilently(a, late) then end == [] || Last(end) == Connected
            else end != [] && Last(end) in {Disconnected, Error}
  {
    hide CounterIn;
  }
}
