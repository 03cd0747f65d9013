/**
  The pre-warm pump of src/Socket.c: one fill opens Count connections into the
  socket pool, one at a time, driven by completions that may run inline or on
  any thread, against a teardown that latches and then polls.

  A run is any sequence of atomic steps. Every section held under
  SocketPool.Lock is one step; everything between two sections may be
  interleaved with any other thread. An inline completion is the schedule in
  which the completing thread runs while the issuer is still at `Take`, the
  issue made and nothing of it done since.
*/
module SocketPrewarm {

  type ThreadId = nat

  /** Where one thread is. A thread not in the map is outside the pump. */
  datatype Pc =
    | Publish   // entering SocketPrewarmPump: about to set Pending
    | Gate      // top of the outer loop: test and set Running
    | Take      // inner loop: read and clear Pending
    | Raise     // inner loop: latch check and in-flight raise
    | Issue     // about to call BlorgAcquireReusableWskSocketAsync
    | SyncFail  // that call failed before issuing anything
    | Tail      // clear Running, read Pending again
    | Handoff   // a completed connect: pool or close its socket
    | Account   // SocketPrewarmStepAccount

  /** Where the one step a fill owes is. History, not program state. */
  datatype Token =
    | NoStep
    | Owed(holder: ThreadId)       // a thread is about to publish it
    | Published                // it is the Pending flag
    | Taken(holder: ThreadId)      // the loop consumed Pending
    | Raised(holder: ThreadId)     // counted in flight, not yet issued
    | OnWire                   // the connect is with the transport
    | Finishing(holder: ThreadId)  // its completion is running

  datatype State = State(
    remaining: nat,
    inFlight: int,
    shuttingDown: bool,
    running: bool,
    pending: bool,
    workItem: bool,
    threads: map<ThreadId, Pc>,
    wire: nat,                 // connects issued whose completion has not begun
    // history
    fill: nat,                 // Count of the latest admitted fill
    issued: nat,               // connects issued for it
    failed: bool,              // one of its issues failed synchronously
    drained: bool,             // teardown has seen nothing in flight
    token: Token,
    runner: ThreadId)          // who set Running, when it is set

  datatype Action =
    | Fill(t: ThreadId, count: nat)      // BlorgPrewarmSocketPool
    | Step(t: ThreadId)                  // the next locked section of a thread in the pump
    | IssueFails(t: ThreadId)            // the issue returns anything but STATUS_PENDING
    | Complete(t: ThreadId)              // the transport completes a connect, on any thread
    | Bounce(t: ThreadId)                // a completion hands itself to the work item
    | Latch                              // BlorgDrainWskSocketPrewarm: latch and zero
    | PollSeesZero                       // its poll reads InFlight as zero and it frees the work item

  function Init(): State {
    State(0, 0, false, false, false, false, map[], 0, 0, 0, false, false, NoStep, 0)
  }

  predicate Enabled(s: State, act: Action) {
    match act
    case Fill(t, count) => t !in s.threads && count != 0
    case Step(t) => t in s.threads
    case IssueFails(t) => t in s.threads && s.threads[t] == Issue
    case Complete(t) => t !in s.threads && s.wire > 0
    case Bounce(t) => t in s.threads && (s.threads[t] == Handoff || s.threads[t] == Account)
    case Latch => true
    case PollSeesZero => s.shuttingDown && s.inFlight == 0
  }

  function Apply(s: State, act: Action): State
    requires Enabled(s, act)
  {
    match act
    case Fill(t, count) =>
      if s.shuttingDown || s.remaining != 0 || s.inFlight != 0 then s.(workItem := true)
      else s.(workItem := true, threads := s.threads[t := Publish], remaining := count,
              fill := count, issued := 0, failed := false, token := Owed(t))
    case IssueFails(t) => s.(threads := s.threads[t := SyncFail])
    case Complete(t) => s.(threads := s.threads[t := Handoff], wire := s.wire - 1, token := Finishing(t))
    case Bounce(t) => s
    case Latch => s.(shuttingDown := true, remaining := 0)
    case PollSeesZero => s.(workItem := false, drained := true)
    case Step(t) => ThreadStep(s, t)
  }

  /** One locked section (or the issue itself) of a thread inside the pump or a completion. */
  function ThreadStep(s: State, t: ThreadId): State
    requires t in s.threads
  {
    if InLoop(s.threads[t]) then LoopStep(s, t) else OuterStep(s, t)
  }

  /** The issue loop, run only by the holder of Running. */
  function LoopStep(s: State, t: ThreadId): (r: State)
    requires t in s.threads && InLoop(s.threads[t])
    ensures r.fill == s.fill && r.issued == s.issued + (if s.threads[t] == Issue then 1 else 0)
  {
    match s.threads[t]
    case Take =>
      if s.pending then s.(threads := s.threads[t := Raise], pending := false, token := Taken(t))
      else s.(threads := s.threads[t := Tail])
    case Raise =>
      if s.shuttingDown then s.(threads := s.threads[t := Tail], token := NoStep)
      else s.(threads := s.threads[t := Issue], inFlight := s.inFlight + 1, token := Raised(t))
    case Issue =>
      s.(threads := s.threads[t := Take], wire := s.wire + 1, issued := s.issued + 1, token := OnWire)
    case SyncFail =>
      s.(threads := s.threads[t := Tail], inFlight := s.inFlight - 1, remaining := 0, failed := true, token := NoStep)
    case Tail =>
      if s.pending then s.(threads := s.threads[t := Gate], running := false)
      else s.(threads := s.threads - {t}, running := false)
  }

  /** Entering the pump, and a completion's two halves. */
  function OuterStep(s: State, t: ThreadId): (r: State)
    requires t in s.threads && !InLoop(s.threads[t])
    ensures r.fill == s.fill && r.issued == s.issued
  {
    match s.threads[t]
    case Publish => s.(threads := s.threads[t := Gate], pending := true, token := Published)
    case Gate =>
      if s.running then s.(threads := s.threads - {t})
      else s.(threads := s.threads[t := Take], running := true, runner := t)
    case Handoff => s.(threads := s.threads[t := Account])
    case Account =>
      if !s.shuttingDown && 1 < s.remaining then
        s.(threads := s.threads[t := Publish], inFlight := s.inFlight - 1, remaining := s.remaining - 1, token := Owed(t))
      else
        s.(threads := s.threads - {t}, inFlight := s.inFlight - 1, token := NoStep,
           remaining := if s.shuttingDown then s.remaining else 0)
  }

  predicate InLoop(pc: Pc) {
    pc == Take || pc == Raise || pc == Issue || pc == SyncFail || pc == Tail
  }

  predicate Issuing(pc: Pc) { pc == Issue || pc == SyncFail }

  predicate Completing(pc: Pc) { pc == Handoff || pc == Account }

  /** The step that thread `t` at `pc` carries, if it carries one. */
  predicate Carries(token: Token, t: ThreadId, pc: Pc) {
    match pc
    case Publish => token == Owed(t)
    case Raise => token == Taken(t)
    case Issue => token == Raised(t)
    case SyncFail => token == Raised(t)
    case Handoff => token == Finishing(t)
    case Account => token == Finishing(t)
    case _ => true
  }

  /** Each thread carries what its position says, and each carried step has its thread. */
  ghost predicate TokenInv(s: State) {
    && (forall t | t in s.threads :: Carries(s.token, t, s.threads[t]))
    && (s.token.Owed? ==> s.token.holder in s.threads && s.threads[s.token.holder] == Publish)
    && (s.token.Taken? ==> s.token.holder in s.threads && s.threads[s.token.holder] == Raise)
    && (s.token.Raised? ==> s.token.holder in s.threads && Issuing(s.threads[s.token.holder]))
    && (s.token.Finishing? ==> s.token.holder in s.threads && Completing(s.threads[s.token.holder]))
    && (s.pending <==> s.token.Published?)
    && s.wire == (if s.token.OnWire? then 1 else 0)
    && s.inFlight == (if s.token.Raised? || s.token.OnWire? || s.token.Finishing? then 1 else 0)
  }

  /** Only the holder of Running is in the loop, and a published step has a thread that will take it. */
  ghost predicate LoopInv(s: State) {
    && (forall t | t in s.threads && InLoop(s.threads[t]) :: s.running && t == s.runner)
    && (s.running ==> s.runner in s.threads && InLoop(s.threads[s.runner]))
    && (s.pending ==> s.running || exists t :: AtGate(s, t))
  }

  predicate AtGate(s: State, t: ThreadId) {
    t in s.threads && s.threads[t] == Gate
  }

  predicate BeforeWire(token: Token) {
    token.Owed? || token.Published? || token.Taken? || token.Raised?
  }

  ghost predicate BudgetInv(s: State) {
    && (s.shuttingDown ==> s.remaining == 0)
    && (!s.shuttingDown ==> (s.remaining == 0 <==> s.token == NoStep))
    && (!s.shuttingDown && !s.failed ==>
          s.issued + s.remaining == s.fill + (if s.token.OnWire? || s.token.Finishing? then 1 else 0))
    && (s.failed ==> s.remaining == 0)
    && s.issued + (if BeforeWire(s.token) then 1 else 0) <= s.fill
    && (s.drained ==> s.shuttingDown && s.inFlight == 0)
    && (!s.drained && s.token != NoStep ==> s.workItem)
  }

  ghost predicate Inv(s: State) {
    TokenInv(s) && LoopInv(s) && BudgetInv(s)
  }

  lemma InitInv()
    ensures Inv(Init())
  {
  }

  lemma LoopStepKeepsTokenInv(s: State, t: ThreadId)
    requires Inv(s) && t in s.threads && InLoop(s.threads[t])
    ensures TokenInv(LoopStep(s, t))
  {
  }

  lemma OuterStepKeepsTokenInv(s: State, t: ThreadId)
    requires Inv(s) && t in s.threads && !InLoop(s.threads[t])
    ensures TokenInv(OuterStep(s, t))
  {
    var s' := OuterStep(s, t);
    assert Carries(s.token, t, s.threads[t]);
    forall u | u in s'.threads ensures Carries(s'.token, u, s'.threads[u]) {
      if u != t { assert Carries(s.token, u, s.threads[u]); }
    }
  }

  lemma StepKeepsTokenInv(s: State, act: Action)
    requires Inv(s) && Enabled(s, act)
    ensures TokenInv(Apply(s, act))
  {
    match act
    case Step(t) =>
      if InLoop(s.threads[t]) {
        LoopStepKeepsTokenInv(s, t);
      } else {
        OuterStepKeepsTokenInv(s, t);
      }
    case _ =>
  }

  lemma LoopStepKeepsBudgetInv(s: State, t: ThreadId)
    requires Inv(s) && t in s.threads && InLoop(s.threads[t])
    ensures BudgetInv(LoopStep(s, t))
  {
    assert Carries(s.token, t, s.threads[t]);
  }

  lemma StepKeepsBudgetInv(s: State, act: Action)
    requires Inv(s) && Enabled(s, act)
    ensures BudgetInv(Apply(s, act))
  {
    match act
    case Step(t) =>
      if InLoop(s.threads[t]) {
        LoopStepKeepsBudgetInv(s, t);
      } else {
        assert Carries(s.token, t, s.threads[t]);
      }
    case _ =>
  }

  /** A thread waiting at the gate stays there unless it is the one that steps. */
  lemma GateStillOwed(s: State, act: Action)
    requires LoopInv(s) && Enabled(s, act)
    requires act.Step? ==> Completing(s.threads[act.t])
    ensures s.pending && !s.running ==> exists g :: AtGate(Apply(s, act), g)
  {
    if s.pending && !s.running {
      var g :| AtGate(s, g);
      assert AtGate(Apply(s, act), g);
    }
  }

  lemma LoopStepKeepsLoopInv(s: State, t: ThreadId)
    requires Inv(s) && t in s.threads && InLoop(s.threads[t])
    ensures LoopInv(LoopStep(s, t))
  {
    if s.threads[t] == Tail && s.pending {
      assert AtGate(LoopStep(s, t), t);
    }
  }

  lemma OuterStepKeepsLoopInv(s: State, t: ThreadId)
    requires Inv(s) && t in s.threads && !InLoop(s.threads[t])
    ensures LoopInv(OuterStep(s, t))
  {
    if s.threads[t] == Publish {
      assert AtGate(OuterStep(s, t), t);
    } else if s.threads[t] != Gate {
      GateStillOwed(s, Step(t));
    }
  }

  lemma StepKeepsLoopInv(s: State, act: Action)
    requires Inv(s) && Enabled(s, act)
    ensures LoopInv(Apply(s, act))
  {
    match act
    case Step(t) =>
      if InLoop(s.threads[t]) {
        LoopStepKeepsLoopInv(s, t);
      } else {
        OuterStepKeepsLoopInv(s, t);
      }
    case _ => GateStillOwed(s, act);
  }

  lemma StepKeepsInv(s: State, act: Action)
    requires Inv(s) && Enabled(s, act)
    ensures Inv(Apply(s, act))
  {
    StepKeepsTokenInv(s, act);
    StepKeepsLoopInv(s, act);
    StepKeepsBudgetInv(s, act);
  }

  // ---- runs ----

  predicate Legal(s: State, run: seq<Action>)
    decreases |run|
  {
    run == [] || (Enabled(s, run[0]) && Legal(Apply(s, run[0]), run[1..]))
  }

  function After(s: State, run: seq<Action>): State
    requires Legal(s, run)
    decreases |run|
  {
    if run == [] then s else After(Apply(s, run[0]), run[1..])
  }

  lemma {:induction false} RunKeepsInv(s: State, run: seq<Action>)
    requires Inv(s) && Legal(s, run)
    ensures Inv(After(s, run))
    decreases |run|
  {
    if run != [] {
      StepKeepsInv(s, run[0]);
      RunKeepsInv(Apply(s, run[0]), run[1..]);
    }
  }

  /** The states some run from a freshly initialised client leads to. */
  ghost predicate Reachable(s: State) {
    exists run :: Legal(Init(), run) && After(Init(), run) == s
  }

  lemma ReachableInv(s: State)
    requires Reachable(s)
    ensures Inv(s)
  {
    var run :| Legal(Init(), run) && After(Init(), run) == s;
    InitInv();
    RunKeepsInv(Init(), run);
  }

  /** Whether taking `act` in `s` starts a connect. */
  predicate Issues(s: State, act: Action) {
    act.Step? && act.t in s.threads && s.threads[act.t] == Issue
  }

  /** Connects started along a run. */
  function Connects(s: State, run: seq<Action>): nat
    requires Legal(s, run)
    decreases |run|
  {
    if run == [] then 0
    else (if Issues(s, run[0]) then 1 else 0) + Connects(Apply(s, run[0]), run[1..])
  }

  // ---- what every run keeps ----

  /** At most one connect is ever raised, on the wire or completing, and InFlight is exactly that. */
  lemma AtMostOneConnect(s: State)
    requires Reachable(s)
    ensures 0 <= s.inFlight <= 1 && s.wire <= s.inFlight
    ensures forall t | t in s.threads && (Issuing(s.threads[t]) || Completing(s.threads[t])) ::
              s.inFlight == 1 && s.wire == 0
    ensures forall t, u | t in s.threads && u in s.threads && InLoop(s.threads[t]) && InLoop(s.threads[u]) :: t == u
  {
    ReachableInv(s);
    forall t | t in s.threads && (Issuing(s.threads[t]) || Completing(s.threads[t]))
      ensures s.inFlight == 1 && s.wire == 0
    {
      assert Carries(s.token, t, s.threads[t]);
    }
  }

  /** A fill is admitted exactly when nothing is latched, owed or in flight. */
  predicate Admits(s: State) {
    !s.shuttingDown && s.remaining == 0 && s.inFlight == 0
  }

  lemma StepCountsConnect(s: State, act: Action)
    requires Enabled(s, act) && !act.Fill?
    ensures Apply(s, act).issued == s.issued + (if Issues(s, act) then 1 else 0)
    ensures Apply(s, act).fill == s.fill
  {
  }

  /** Until the next fill, `issued` counts the connects the run starts. */
  lemma {:induction false} IssuedCountsConnects(s: State, run: seq<Action>)
    requires Legal(s, run)
    requires forall i | 0 <= i < |run| :: !run[i].Fill?
    ensures After(s, run).issued == s.issued + Connects(s, run)
    ensures After(s, run).fill == s.fill
    decreases |run|
  {
    if run != [] {
      StepCountsConnect(s, run[0]);
      IssuedCountsConnects(Apply(s, run[0]), run[1..]);
    }
  }

  lemma AdmittedFillCounts(s: State, run: seq<Action>)
    requires Inv(s) && s.issued == 0 && Legal(s, run)
    requires forall i | 0 <= i < |run| :: !run[i].Fill?
    ensures Connects(s, run) <= s.fill
    ensures var s' := After(s, run);
            s'.threads == map[] && s'.wire == 0 && !s'.shuttingDown && !s'.failed ==> Connects(s, run) == s.fill
  {
    RunKeepsInv(s, run);
    IssuedCountsConnects(s, run);
  }

  /** Nothing excuses a fill from making all its connects. */
  ghost predicate NoExcuse(s: State) {
    !s.failed && !s.shuttingDown && forall t | t in s.threads :: s.threads[t] != SyncFail
  }

  lemma {:induction false} StaysNoExcuse(s: State, run: seq<Action>)
    requires Legal(s, run) && NoExcuse(s) && forall i | 0 <= i < |run| :: !run[i].Fill? && !run[i].IssueFails? && !run[i].Latch?
    ensures NoExcuse(After(s, run))
    decreases |run|
  {
    if run != [] {
      StepNoExcuse(s, run[0]);
      StaysNoExcuse(Apply(s, run[0]), run[1..]);
    }
  }

  lemma StepNoExcuse(s: State, act: Action)
    requires Enabled(s, act) && NoExcuse(s) && !act.Fill? && !act.IssueFails? && !act.Latch?
    ensures NoExcuse(Apply(s, act))
  {
  }

  /** An admitted fill starts with none. */
  lemma AdmittedNoExcuse(s: State, t: ThreadId, count: nat)
    requires Inv(s) && Admits(s) && Enabled(s, Fill(t, count))
    ensures NoExcuse(Apply(s, Fill(t, count)))
  {
    forall u | u in s.threads ensures s.threads[u] != SyncFail { assert Carries(s.token, u, s.threads[u]); }
  }

  /**
    No step is lost: whenever a fill has been admitted and every thread has left
    the pump with nothing on the wire, exactly Count connects were started,
    unless an issue failed synchronously or teardown latched; never more.
  */
  lemma FillMakesExactlyCount(s: State, t: ThreadId, count: nat, run: seq<Action>)
    requires Inv(s) && Admits(s) && Enabled(s, Fill(t, count))
    requires Legal(Apply(s, Fill(t, count)), run)
    requires forall i | 0 <= i < |run| :: !run[i].Fill?
    ensures var s0 := Apply(s, Fill(t, count));
            var s' := After(s0, run);
            && Connects(s0, run) <= count
            && (s'.threads == map[] && s'.wire == 0 && (forall i | 0 <= i < |run| :: !run[i].IssueFails? && !run[i].Latch?) ==> Connects(s0, run) == count)
  {
    AdmittedNoExcuse(s, t, count);
    if forall i | 0 <= i < |run| :: !run[i].IssueFails? && !run[i].Latch? { StaysNoExcuse(Apply(s, Fill(t, count)), run); }
    StepKeepsInv(s, Fill(t, count));
    AdmittedFillCounts(Apply(s, Fill(t, count)), run);
  }

  /** Once the drain has seen zero in flight, no later step starts, completes or bounces a connect. */
  lemma {:induction false} NothingAfterDrain(s: State, run: seq<Action>)
    requires Inv(s) && s.drained && Legal(s, run)
    ensures After(s, run).drained && After(s, run).inFlight == 0 && After(s, run).wire == 0
    ensures Connects(s, run) == 0
    ensures forall i | 0 <= i < |run| :: !run[i].Complete? && !run[i].Bounce?
    decreases |run|
  {
    if run != [] {
      var act := run[0];
      if act.Step? || act.Bounce? {
        assert Carries(s.token, act.t, s.threads[act.t]);
      }
      StepKeepsInv(s, act);
      NothingAfterDrain(Apply(s, act), run[1..]);
      assert forall i | 1 <= i < |run| :: run[i] == run[1..][i - 1];
    }
  }

  /** A completion that bounces always finds the work item allocated and not yet freed. */
  lemma BounceFindsWorkItem(s: State, t: ThreadId)
    requires Reachable(s) && Enabled(s, Bounce(t))
    ensures s.workItem && !s.drained
  {
    ReachableInv(s);
    assert Carries(s.token, t, s.threads[t]);
  }
}
