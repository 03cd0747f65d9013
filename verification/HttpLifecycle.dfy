/**
  The life of one HTTP request in src/Client.c: the stages HttpKick drives it
  through, the retry on a dead pooled socket, the retries of a timed-out
  connect, and the one completion. Every asynchronous outcome is a step.
*/
module HttpLifecycle {
  import opened Options

  const CONNECT_ATTEMPTS: nat := 4

  type SocketId = nat

  datatype Source = Unknown | Fresh | Reused

  datatype Stage = Acquire | Connecting | Handshake | Send | Receive | ReadResponse | Dispatch | Completing(success: bool) | Freed

  /** What became of a socket the request was given. */
  datatype Fate = Held | Pooled | Closed | Abandoned   // Abandoned: closed for a retry

  datatype Request = Request(
    stage: Stage,
    source: Source,
    socket: Option<SocketId>,
    timeouts: nat,                     // ConnectTimeouts
    length: nat,                       // response bytes received on this attempt
    routine: bool,                     // the completion routine has not been cleared
    // history
    calls: nat,                        // completions invoked
    connects: nat,
    retries: nat,
    fates: map<SocketId, Fate>,
    bytes: map<SocketId, nat>)         // response bytes received from each socket

  function Initial(): Request {
    Request(Acquire, Unknown, None, 0, 0, true, 0, 0, 0, map[], map[])
  }

  /** HttpOnSocket with a socket in hand. */
  function WithSocket(r: Request, k: SocketId, source: Source, handshake: bool): Request {
    r.(stage := if handshake then Handshake else Send, source := source, socket := Some(k),
       fates := r.fates[k := Held], bytes := r.bytes[k := 0])
  }

  function Fail(r: Request): Request {
    r.(stage := Completing(false))
  }

  /** HttpFailOrRetryReusedConnection. */
  function FailOrRetry(r: Request): Request {
    if r.source == Reused && r.length == 0 then
      r.(stage := Acquire, source := Fresh, socket := None, retries := r.retries + 1,
         fates := if r.socket.Some? then r.fates[r.socket.value := Abandoned] else r.fates)
    else Fail(r)
  }

  /** What can happen to a request next. */
  datatype Event =
    | GivenPooled(k: SocketId, handshake: bool)
    | StartConnect
    | Connected(k: SocketId, handshake: bool)
    | TimedOut
    | Failed                           // a failure that is not retried
    | Lost                             // a failure that is, on a reused socket with nothing received
    | Shook | Sent
    | Got(n: nat)
    | NeedsMore | Whole
    | Decoded
    | Finish

  predicate Enabled(r: Request, e: Event) {
    match e
    case GivenPooled(k, _) => r.stage == Acquire && r.source != Fresh && k !in r.fates
    case StartConnect => r.stage == Acquire
    case Connected(k, _) => r.stage == Connecting && k !in r.fates
    case TimedOut => r.stage == Connecting
    case Failed => !r.stage.Freed? && !r.stage.Completing?
    case Lost => r.stage == Handshake || r.stage == Send || r.stage == Receive
    case Shook => r.stage == Handshake
    case Sent => r.stage == Send
    case Got(_) => r.stage == Receive && r.socket.Some?
    case NeedsMore => r.stage == ReadResponse
    case Whole => r.stage == ReadResponse && r.socket.Some?
    case Decoded => r.stage == Dispatch
    case Finish => r.stage.Completing?
  }

  function Apply(r: Request, e: Event): Request
    requires Enabled(r, e)
  {
    match e
    case GivenPooled(k, handshake) => WithSocket(r, k, Reused, handshake)
    case StartConnect => r.(stage := Connecting, connects := r.connects + 1)
    case Connected(k, handshake) => WithSocket(r, k, Fresh, handshake)
    case TimedOut =>
      if r.timeouts + 1 < CONNECT_ATTEMPTS then r.(timeouts := r.timeouts + 1, source := Fresh, stage := Acquire) else Fail(r)
    case Failed => Fail(r)
    case Lost => FailOrRetry(r)
    case Shook => r.(stage := Send)
    case Sent => r.(stage := Receive)
    case Got(n) =>
      r.(stage := ReadResponse, length := r.length + n,
         bytes := r.bytes[r.socket.value := (if r.socket.value in r.bytes then r.bytes[r.socket.value] else 0) + n])
    case NeedsMore => r.(stage := Receive)
    case Whole => r.(stage := Dispatch, socket := None, fates := r.fates[r.socket.value := Pooled])
    case Decoded => r.(stage := Completing(true), calls := r.calls + 1, routine := false)
    case Finish =>
      if r.stage.success then r.(stage := Freed)
      else
        r.(stage := Freed, calls := r.calls + (if r.routine then 1 else 0), socket := None,
           fates := if r.socket.Some? then r.fates[r.socket.value := Closed] else r.fates)
  }

  // ---- the invariant ----

  ghost predicate CompletionOk(r: Request) {
    match r.stage
    case Freed => r.calls == 1 && r.socket == None
    case Completing(success) => if success then r.calls == 1 && !r.routine && r.socket == None else r.calls == 0 && r.routine
    case Dispatch => r.calls == 0 && r.routine && r.socket == None
    case _ => r.calls == 0 && r.routine
  }

  ghost predicate ConnectsOk(r: Request) {
    && r.timeouts < CONNECT_ATTEMPTS
    && r.connects <= r.timeouts + 1
    && (r.stage == Acquire ==> r.connects == r.timeouts && r.socket == None && r.length == 0)
    && (r.stage == Connecting ==> r.connects == r.timeouts + 1 && r.socket == None && r.length == 0)
    && (r.source != Fresh ==> r.timeouts == 0 && r.retries == 0)
    && (r.source == Reused ==> r.connects == 0 && r.stage != Acquire && r.stage != Connecting)
    && r.retries <= 1
  }

  ghost predicate SocketsOk(r: Request) {
    && r.fates.Keys == r.bytes.Keys
    && (forall k | k in r.fates :: r.fates[k] == Held <==> r.socket == Some(k))
    && (r.socket.Some? ==> r.socket.value in r.fates && r.bytes[r.socket.value] == r.length)
    && (forall k | k in r.fates && r.fates[k] == Abandoned :: r.bytes[k] == 0)
    && (r.stage == Handshake || r.stage == Send || r.stage == Receive || r.stage == ReadResponse ==> r.socket.Some?)
  }

  ghost predicate Inv(r: Request) {
    CompletionOk(r) && ConnectsOk(r) && SocketsOk(r)
  }

  lemma StepKeepsInv(r: Request, e: Event)
    requires Inv(r) && Enabled(r, e)
    ensures Inv(Apply(r, e))
  {
  }

  // ---- whole requests ----

  ghost predicate Legal(r: Request, es: seq<Event>)
    decreases |es|
  {
    es == [] || (Enabled(r, es[0]) && Legal(Apply(r, es[0]), es[1..]))
  }

  function Run(r: Request, es: seq<Event>): Request
    requires Legal(r, es)
    decreases |es|
  {
    if es == [] then r else Run(Apply(r, es[0]), es[1..])
  }

  lemma {:induction false} RunKeepsInv(r: Request, es: seq<Event>)
    requires Inv(r) && Legal(r, es)
    ensures Inv(Run(r, es))
    decreases |es|
  {
    if es != [] {
      StepKeepsInv(r, es[0]);
      RunKeepsInv(Apply(r, es[0]), es[1..]);
    }
  }

  /**
    However its events fall, a request calls its completion at most once,
    and exactly once by the time it is freed; it starts at most
    CONNECT_ATTEMPTS connects; it retries at most once, and the socket it
    abandoned then had delivered nothing; and once it is freed every socket
    it was given has been pooled or closed.
  */
  lemma RequestRuns(es: seq<Event>)
    requires Legal(Initial(), es)
    ensures var r := Run(Initial(), es);
            && r.calls <= 1 && (r.stage.Freed? ==> r.calls == 1)
            && r.connects <= CONNECT_ATTEMPTS
            && r.retries <= 1 && (forall k | k in r.fates && r.fates[k] == Abandoned :: k in r.bytes && r.bytes[k] == 0)
            && (r.stage.Freed? ==> forall k | k in r.fates :: r.fates[k] != Held)
  {
    RunKeepsInv(Initial(), es);
  }

  /** A socket's fate, once it is not held, never changes: it is pooled or closed at most once. */
  lemma FateIsFinal(r: Request, e: Event, k: SocketId)
    requires Inv(r) && Enabled(r, e) && k in r.fates && r.fates[k] != Held
    ensures k in Apply(r, e).fates && Apply(r, e).fates[k] == r.fates[k]
  {
  }

  // ---- every request ends ----

  /** A receive brings something, and no more than the response may hold. */
  predicate Bounded(r: Request, e: Event, limit: nat) {
    e.Got? ==> 0 < e.n && r.length + e.n <= limit
  }

  function StageRank(r: Request, limit: nat): nat
    requires r.length <= limit
  {
    match r.stage
    case Acquire => 2 * limit + 9
    case Connecting => 2 * limit + 8
    case Handshake => 2 * limit + 7
    case Send => 2 * limit + 6
    case Receive => 2 * (limit - r.length) + 4
    case ReadResponse => 2 * (limit - r.length) + 5
    case Dispatch => 2
    case Completing(_) => 1
    case Freed => 0
  }

  /** How many more times the request can start over. */
  function Attempts(r: Request): nat
    requires r.timeouts < CONNECT_ATTEMPTS
  {
    CONNECT_ATTEMPTS - 1 - r.timeouts + (if r.source == Fresh then 0 else 1)
  }

  function Rank(r: Request, limit: nat): nat
    requires r.timeouts < CONNECT_ATTEMPTS && r.length <= limit
  {
    Attempts(r) * (2 * limit + 10) + StageRank(r, limit)
  }

  lemma RankFalls(r: Request, e: Event, limit: nat)
    requires Inv(r) && Enabled(r, e) && Bounded(r, e, limit) && r.length <= limit
    ensures Apply(r, e).length <= limit && Inv(Apply(r, e)) && Rank(Apply(r, e), limit) < Rank(r, limit)
  {
    StepKeepsInv(r, e);
    var r' := Apply(r, e);
    AttemptsFall(r, e);
    if Attempts(r') < Attempts(r) {
      assert Attempts(r') * (2 * limit + 10) + (2 * limit + 10) <= Attempts(r) * (2 * limit + 10);
    }
  }

  lemma AttemptsFall(r: Request, e: Event)
    requires Inv(r) && Enabled(r, e)
    ensures Apply(r, e).timeouts < CONNECT_ATTEMPTS && Attempts(Apply(r, e)) <= Attempts(r)
    ensures Apply(r, e).stage == Acquire ==> Attempts(Apply(r, e)) < Attempts(r)
  {
  }

  ghost predicate AllBounded(r: Request, es: seq<Event>, limit: nat)
    requires Legal(r, es)
    decreases |es|
  {
    es == [] || (Bounded(r, es[0], limit) && AllBounded(Apply(r, es[0]), es[1..], limit))
  }

  /** A request whose receives are bounded runs for a bounded number of steps. */
  lemma {:induction false} RunsAreBounded(r: Request, es: seq<Event>, limit: nat)
    requires Inv(r) && Legal(r, es) && AllBounded(r, es, limit) && r.length <= limit
    ensures |es| <= Rank(r, limit)
    decreases |es|
  {
    if es != [] {
      RankFalls(r, es[0], limit);
      RunsAreBounded(Apply(r, es[0]), es[1..], limit);
    }
  }

  lemma {:induction false} FreshSocket(ids: set<SocketId>) returns (k: SocketId)
    ensures forall x | x in ids :: x < k
  {
    if ids == {} {
      k := 0;
    } else {
      var x :| x in ids;
      var j := FreshSocket(ids - {x});
      k := if x < j then j else x + 1;
      assert forall y | y in ids :: y == x || y in ids - {x};
    }
  }

  /** An event that is no failure of any kind. */
  predicate Forward(e: Event) {
    !e.Failed? && !e.Lost? && !e.TimedOut?
  }

  /** The step forward of each live stage; `k` is a socket not yet seen. */
  function Onward(r: Request, k: SocketId): Event {
    match r.stage
    case Acquire => StartConnect
    case Connecting => Connected(k, false)
    case Handshake => Shook
    case Send => Sent
    case Receive => Got(1)
    case ReadResponse => Whole
    case Dispatch => Decoded
    case Completing(_) => Finish
    case Freed => Finish
  }

  /** No stage waits on a failure: each live one has a step forward, unless the response already holds all it may. */
  lemma StepForward(r: Request, limit: nat) returns (k: SocketId)
    requires Inv(r) && !r.stage.Freed? && (r.stage == Receive ==> r.length < limit)
    ensures Enabled(r, Onward(r, k)) && Forward(Onward(r, k)) && Bounded(r, Onward(r, k), limit)
  {
    k := FreshSocket(r.fates.Keys);
  }

  /** From wherever it stands a request can succeed, with no failure on the way. */
  lemma {:induction false} CanSucceed(r: Request, limit: nat) returns (es: seq<Event>)
    requires Inv(r) && r.length < limit && r.stage != Freed && r.stage != Completing(false)
    ensures Legal(r, es) && AllBounded(r, es, limit) && (forall i | 0 <= i < |es| :: Forward(es[i]))
    ensures Run(r, es).stage == Freed && Run(r, es).calls == 1 && !Run(r, es).routine
    decreases StageRank(r.(length := 0), 0)
  {
    if r.stage == Receive {
      es := AfterReceive(r, limit);
    } else {
      var k := StepForward(r, limit);
      var e := Onward(r, k);
      StepKeepsInv(r, e);
      var rest: seq<Event> := [];
      if !r.stage.Completing? { rest := CanSucceed(Apply(r, e), limit); }
      es := [e] + rest;
      assert es[1..] == rest;
    }
  }

  lemma AfterReceive(r: Request, limit: nat) returns (es: seq<Event>)
    requires Inv(r) && r.stage == Receive && r.length < limit
    ensures Legal(r, es) && AllBounded(r, es, limit) && (forall i | 0 <= i < |es| :: Forward(es[i]))
    ensures Run(r, es).stage == Freed && Run(r, es).calls == 1 && !Run(r, es).routine
  {
    es := [Got(1), Whole, Decoded, Finish];
  }

  /** Until it is freed something can always happen to it. */
  lemma GoesOn(r: Request, limit: nat) returns (e: Event)
    requires Inv(r) && !r.stage.Freed? && r.length <= limit
    ensures Enabled(r, e) && Bounded(r, e, limit)
  {
    if r.stage == Receive && r.length == limit {
      e := Lost;
    } else {
      var k := StepForward(r, limit);
      e := Onward(r, k);
    }
  }

  /**
    Every run whose receives are bounded and that cannot be carried further
    ends freed, after no more steps than its rank, with its completion called
    exactly once and every socket it was given pooled or closed.
  */
  lemma MaximalRunEnds(es: seq<Event>, limit: nat)
    requires Legal(Initial(), es) && AllBounded(Initial(), es, limit)
    requires forall e: Event | Enabled(Run(Initial(), es), e) :: !Bounded(Run(Initial(), es), e, limit)
    ensures var r := Run(Initial(), es);
            && r.stage == Freed && r.calls == 1 && |es| <= Rank(Initial(), limit)
            && r.socket == None && forall k | k in r.fates :: r.fates[k] != Held
  {
    var r := Run(Initial(), es);
    RunKeepsInv(Initial(), es);
    RunsAreBounded(Initial(), es, limit);
    RunWithin(Initial(), es, limit);
    if r.stage != Freed { var e := GoesOn(r, limit); }
  }

  lemma {:induction false} RunWithin(r: Request, es: seq<Event>, limit: nat)
    requires Inv(r) && Legal(r, es) && AllBounded(r, es, limit) && r.length <= limit
    ensures Run(r, es).length <= limit
    decreases |es|
  {
    if es != [] {
      RankFalls(r, es[0], limit);
      RunWithin(Apply(r, es[0]), es[1..], limit);
    }
  }

  // ---- told by its events ----

  function Init(es: seq<Event>): seq<Event>
    requires es != []
  {
    es[..|es| - 1]
  }

  function Last(es: seq<Event>): Event
    requires es != []
  {
    es[|es| - 1]
  }

  /** The socket the request was given last. */
  function LastGiven(es: seq<Event>): Option<SocketId> {
    if es == [] then None
    else if Last(es).GivenPooled? || Last(es).Connected? then Some(Last(es).k)
    else LastGiven(Init(es))
  }

  /** It came from the pool. */
  predicate FromPool(es: seq<Event>) {
    es != [] && (Last(es).GivenPooled? || (!Last(es).Connected? && FromPool(Init(es))))
  }

  /** The bytes that have come since. */
  function GotSince(es: seq<Event>): nat {
    if es == [] || Last(es).GivenPooled? || Last(es).Connected? then 0
    else GotSince(Init(es)) + if Last(es).Got? then Last(es).n else 0
  }

  /** It is to be shaken hands with first, and has not been. */
  predicate Unshaken(es: seq<Event>) {
    es != [] &&
    if Last(es).GivenPooled? || Last(es).Connected? then Last(es).handshake else !Last(es).Shook? && Unshaken(Init(es))
  }

  /** The connects that have timed out. */
  function Timeouts(es: seq<Event>): nat {
    if es == [] then 0 else Timeouts(Init(es)) + if Last(es).TimedOut? then 1 else 0
  }

  lemma {:induction false} RunSnoc(r: Request, es: seq<Event>)
    requires Legal(r, es) && es != []
    ensures Legal(r, Init(es)) && Enabled(Run(r, Init(es)), Last(es)) && Run(r, es) == Apply(Run(r, Init(es)), Last(es))
    decreases |es|
  {
    if |es| > 1 {
      RunSnoc(Apply(r, es[0]), es[1..]);
      assert Init(es)[1..] == Init(es[1..]) && Init(es)[0] == es[0];
    }
  }

  predicate OnSocket(stage: Stage) {
    stage == Handshake || stage == Send || stage == Receive || stage == ReadResponse
  }

  /** What a request remembers is what its events say. */
  ghost predicate Recalls(r: Request, es: seq<Event>) {
    && r.timeouts <= Timeouts(es) && (!r.stage.Completing? && r.stage != Freed ==> r.timeouts == Timeouts(es))
    && (OnSocket(r.stage) ==> (r.source == Reused <==> FromPool(es)) && r.length == GotSince(es) && (r.stage == Handshake <==> Unshaken(es)))
    && (r.socket.Some? ==> r.socket == LastGiven(es))
  }

  ghost predicate PoolRecalls(r: Request, es: seq<Event>) {
    && (forall k | k in r.fates && r.fates[k] == Pooled :: Whole in es && LastGiven(es) == Some(k))
    && (Whole in es ==> (r.stage == Dispatch || r.stage.Completing? || r.stage == Freed) && LastGiven(es).Some? &&
                        LastGiven(es).value in r.fates && r.fates[LastGiven(es).value] == Pooled)
    && (r.stage == Dispatch ==> Whole in es)
  }

  lemma StepRecalls(r: Request, es: seq<Event>)
    requires es != [] && Inv(r) && Recalls(r, Init(es)) && Enabled(r, Last(es))
    ensures Recalls(Apply(r, Last(es)), es)
  {
  }

  lemma StepPoolRecalls(r: Request, es: seq<Event>)
    requires es != [] && Inv(r) && Recalls(r, Init(es)) && PoolRecalls(r, Init(es)) && Enabled(r, Last(es))
    ensures PoolRecalls(Apply(r, Last(es)), es)
  {
    assert es == Init(es) + [Last(es)];
    assert Whole in es <==> Whole in Init(es) || Last(es) == Whole;
  }

  lemma {:induction false} RunRecalls(es: seq<Event>)
    requires Legal(Initial(), es)
    ensures Inv(Run(Initial(), es)) && Recalls(Run(Initial(), es), es) && PoolRecalls(Run(Initial(), es), es)
  {
    RunKeepsInv(Initial(), es);
    if es != [] {
      RunSnoc(Initial(), es);
      RunRecalls(Init(es));
      StepRecalls(Run(Initial(), Init(es)), es);
      StepPoolRecalls(Run(Initial(), Init(es)), es);
    }
  }

  /**
    A connection lost before a byte of the response, on a socket from the
    pool, is not the caller's concern: the socket is given up and the request
    starts over. Any other loss fails it.
  */
  lemma LostPooledIsRetried(es: seq<Event>)
    requires Legal(Initial(), es) && es != [] && Last(es) == Lost
    ensures var r, k := Run(Initial(), es), LastGiven(es);
            if FromPool(es) && GotSince(es) == 0
            then r.stage == Acquire && r.calls == 0 && k.Some? && k.value in r.fates && r.fates[k.value] == Abandoned && k.value in r.bytes && r.bytes[k.value] == 0
            else r.stage == Completing(false)
  {
    RunRecalls(es);
    RunSnoc(Initial(), es);
    RunRecalls(Init(es));
  }

  /** Nothing is sent over a socket whose handshake is still to be made, and none is made twice. */
  lemma ShakesBeforeSending(es: seq<Event>)
    requires Legal(Initial(), es) && es != []
    ensures Last(es) == Sent ==> !Unshaken(es)
    ensures Last(es) == Shook ==> Unshaken(Init(es))
  {
    RunSnoc(Initial(), es);
    RunRecalls(Init(es));
  }

  /** A connect that times out is tried again, up to CONNECT_ATTEMPTS in all. */
  lemma TimedOutIsRetried(es: seq<Event>)
    requires Legal(Initial(), es) && es != [] && Last(es) == TimedOut
    ensures Run(Initial(), es).stage == if Timeouts(es) < CONNECT_ATTEMPTS then Acquire else Completing(false)
  {
    RunSnoc(Initial(), es);
    RunRecalls(Init(es));
  }

  lemma {:induction false} FreshStaysFresh(r: Request, es: seq<Event>)
    requires Inv(r) && Legal(r, es) && r.source == Fresh
    ensures forall i | 0 <= i < |es| :: !es[i].GivenPooled?
    decreases |es|
  {
    if es != [] {
      StepKeepsInv(r, es[0]);
      FreshStaysFresh(Apply(r, es[0]), es[1..]);
      assert forall i | 1 <= i < |es| :: es[i] == es[1..][i - 1];
    }
  }

  /** Starting over, it takes no second socket from the pool, whatever follows; and it can still succeed. */
  lemma RetryConnects(es: seq<Event>, more: seq<Event>, limit: nat) returns (on: seq<Event>)
    requires Legal(Initial(), es) && es != [] && (Last(es) == Lost || Last(es) == TimedOut) && Run(Initial(), es).stage == Acquire
    requires Legal(Run(Initial(), es), more) && limit > 0
    ensures forall i | 0 <= i < |more| :: !more[i].GivenPooled?
    ensures Legal(Run(Initial(), es), on) && (forall i | 0 <= i < |on| :: Forward(on[i]))
    ensures var r := Run(Run(Initial(), es), on); r.stage == Freed && r.calls == 1 && !r.routine
  {
    var r := Run(Initial(), es);
    RunRecalls(es);
    RunSnoc(Initial(), es);
    RunRecalls(Init(es));
    FreshStaysFresh(r, more);
    on := CanSucceed(r, limit);
  }

  /** Once a request is freed, the socket its whole response came over, and no other, has gone back to the pool. */
  lemma OnlyWholePools(es: seq<Event>, k: SocketId)
    requires Legal(Initial(), es) && Run(Initial(), es).stage == Freed && k in Run(Initial(), es).fates
    ensures Run(Initial(), es).fates[k] == Pooled <==> Whole in es && LastGiven(es) == Some(k)
  {
    RunRecalls(es);
  }
}
