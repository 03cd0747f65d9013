/**
  The disk cache's gate and its fill queue, src/DiskCache.c: Busy counts the
  work in flight, plus one until cleanup; cleanup clears Live, drops that one
  and waits for Busy to reach zero. A fill keeps its count from when it is
  built until it is written or given up, on the way through a queue that one
  worker drains.

  Busy is the size of the set of its holders. Every interlocked operation,
  every read of Live and every section under FillLock is one step.
*/
module DiskCacheGate {
  import opened Options

  type AgentId = nat
  type FillId = nat

  datatype Holder = Base | Entrant(a: AgentId) | FillOf(f: FillId) | WorkerOf(w: AgentId)

  datatype Pc =
    | Checking                         // DiskCacheEnter: about to read Live
    | Counting                         // it was live: about to raise Busy
    | Rechecking                       // about to read Live again
    | Backing                          // it was not: about to drop Busy
    | Reading                          // in, with a read's I/O in flight
    | Building                         // in, with a fill to queue or drop
    | Starting                         // DiskCacheQueueFill: owes the queue a worker
    | Abandoning(list: seq<FillId>)    // no work item: giving up what was queued
    | Draining                         // DiskCacheFillWorker, at the top of its loop
    | Issuing(f: FillId, live: bool)   // about to write a fill it took; live: it has found the cache on
    | Leaving                          // the queue was empty: about to drop Busy

  /** Where a fill is. */
  datatype Place = Queued | Writing | With(a: AgentId)

  datatype Phase = Open | Cleared | Left | Closed

  datatype State = State(
    live: bool, holders: set<Holder>, idle: bool,
    fills: seq<FillId>, workerQueued: bool,
    agents: map<AgentId, Pc>, phase: Phase,
    // history
    owner: Option<AgentId>,            // who FillWorkerQueued stands for
    places: map<FillId, Place>)        // every fill not yet settled

  predicate At(s: State, a: AgentId, pc: Pc) {
    a in s.agents && s.agents[a] == pc
  }

  /** Drops one count, setting Idle if it was the last. */
  function Drop(s: State, h: Holder): State {
    s.(holders := s.holders - {h}, idle := s.idle || s.holders - {h} == {})
  }

  function Gone(s: State, a: AgentId): State {
    s.(agents := s.agents - {a})
  }

  function Move(s: State, a: AgentId, pc: Pc): State {
    s.(agents := s.agents[a := pc])
  }

  // ---- DiskCacheEnter and DiskCacheLeave ----

  ghost predicate Arrive(s: State, a: AgentId, s': State) {
    a !in s.agents && s' == Move(s, a, Checking)
  }

  ghost predicate Check(s: State, a: AgentId, s': State) {
    At(s, a, Checking) && s' == if s.live then Move(s, a, Counting) else Gone(s, a)
  }

  ghost predicate Count(s: State, a: AgentId, s': State) {
    At(s, a, Counting) && s' == s.(agents := s.agents[a := Rechecking], holders := s.holders + {Entrant(a)})
  }

  ghost predicate Recheck(s: State, a: AgentId, pc: Pc, s': State) {
    At(s, a, Rechecking) && (pc == Reading || pc == Building) && s' == Move(s, a, if s.live then pc else Backing)
  }

  /** The count goes: of one that found the gate shut, a read that is done, or a fill that came to nothing. */
  ghost predicate Leave(s: State, a: AgentId, s': State) {
    a in s.agents && (s.agents[a] == Backing || s.agents[a] == Reading || s.agents[a] == Building) &&
    s' == Drop(Gone(s, a), Entrant(a))
  }

  // ---- the fill queue ----

  /** DiskCacheQueueFill's first section: the fill is queued, its builder's count now its own. */
  ghost predicate Enqueue(s: State, a: AgentId, f: FillId, s': State) {
    At(s, a, Building) && f !in s.places &&
    s' == s.(fills := s.fills + [f], places := s.places[f := Queued], workerQueued := true,
             holders := s.holders - {Entrant(a)} + {FillOf(f)},
             owner := if s.workerQueued then s.owner else Some(a),
             agents := if s.workerQueued then s.agents - {a} else s.agents[a := Starting])
  }

  /** A work item could be had: a worker is counted and queued. */
  ghost predicate StartWorker(s: State, a: AgentId, w: AgentId, s': State) {
    At(s, a, Starting) && w !in s.agents &&
    s' == s.(holders := s.holders + {WorkerOf(w)}, agents := (s.agents - {a})[w := Draining], owner := Some(w))
  }

  function TakenBy(places: map<FillId, Place>, list: seq<FillId>, a: AgentId): map<FillId, Place> {
    map f | f in places :: if f in list then With(a) else places[f]
  }

  /** None could: everything queued is taken, to be given up. */
  ghost predicate StartFails(s: State, a: AgentId, s': State) {
    At(s, a, Starting) &&
    s' == s.(fills := [], workerQueued := false, owner := None, agents := s.agents[a := Abandoning(s.fills)],
             places := TakenBy(s.places, s.fills, a))
  }

  ghost predicate GiveUp(s: State, a: AgentId, f: FillId, rest: seq<FillId>, s': State) {
    At(s, a, Abandoning([f] + rest)) &&
    s' == Drop(s.(agents := s.agents[a := Abandoning(rest)], places := s.places - {f}), FillOf(f))
  }

  ghost predicate GaveUp(s: State, a: AgentId, s': State) {
    At(s, a, Abandoning([])) && s' == Gone(s, a)
  }

  /** The worker takes the next fill, or finds none and stands down. */
  ghost predicate TakeNext(s: State, w: AgentId, s': State) {
    At(s, w, Draining) &&
    s' == if s.fills == [] then s.(workerQueued := false, owner := None, agents := s.agents[w := Leaving])
          else s.(fills := s.fills[1..], agents := s.agents[w := Issuing(s.fills[0], false)], places := s.places[s.fills[0] := With(w)])
  }

  /** The fill in the worker's hands is settled unwritten. */
  function Unwritten(s: State, w: AgentId, f: FillId): State {
    Drop(s.(agents := s.agents[w := Draining], places := s.places - {f}), FillOf(f))
  }

  /** The worker reads Live, and gives the fill up once the cache is off. */
  ghost predicate ReadLive(s: State, w: AgentId, f: FillId, s': State) {
    At(s, w, Issuing(f, false)) && s' == if s.live then Move(s, w, Issuing(f, true)) else Unwritten(s, w, f)
  }

  /** The write is issued; Live may have been cleared since it was read. */
  ghost predicate Issue(s: State, w: AgentId, f: FillId, s': State) {
    At(s, w, Issuing(f, true)) && s' == s.(agents := s.agents[w := Draining], places := s.places[f := Writing])
  }

  /** Or it could not be. */
  ghost predicate IssueFails(s: State, w: AgentId, f: FillId, s': State) {
    At(s, w, Issuing(f, true)) && s' == Unwritten(s, w, f)
  }

  /** DiskCacheFillDone. */
  ghost predicate WriteDone(s: State, f: FillId, s': State) {
    f in s.places && s.places[f] == Writing && s' == Drop(s.(places := s.places - {f}), FillOf(f))
  }

  ghost predicate WorkerLeaves(s: State, w: AgentId, s': State) {
    At(s, w, Leaving) && s' == Drop(Gone(s, w), WorkerOf(w))
  }

  // ---- losing the file, and cleanup ----

  ghost predicate Lose(s: State, s': State) {
    s' == s.(live := false)
  }

  ghost predicate Clear(s: State, s': State) {
    s.phase == Open && s' == s.(live := false, phase := Cleared)
  }

  ghost predicate DropBase(s: State, s': State) {
    s.phase == Cleared && s' == Drop(s.(phase := Left), Base)
  }

  ghost predicate SeeIdle(s: State, s': State) {
    s.phase == Left && s.idle && s' == s.(phase := Closed)
  }

  ghost predicate EntryStep(s: State, a: AgentId, s': State) {
    Arrive(s, a, s') || Check(s, a, s') || Count(s, a, s') || (exists pc :: Recheck(s, a, pc, s')) || Leave(s, a, s')
  }

  ghost predicate QueueStep(s: State, a: AgentId, s': State) {
    || (exists f :: Enqueue(s, a, f, s'))
    || (exists w :: StartWorker(s, a, w, s'))
    || StartFails(s, a, s')
    || (exists f, rest :: GiveUp(s, a, f, rest, s'))
    || GaveUp(s, a, s')
  }

  ghost predicate WorkerStep(s: State, a: AgentId, s': State) {
    || TakeNext(s, a, s')
    || (exists f :: ReadLive(s, a, f, s'))
    || (exists f :: Issue(s, a, f, s'))
    || (exists f :: IssueFails(s, a, f, s'))
    || WorkerLeaves(s, a, s')
  }

  ghost predicate OutsideStep(s: State, s': State) {
    (exists f :: WriteDone(s, f, s')) || Lose(s, s') || Clear(s, s') || DropBase(s, s') || SeeIdle(s, s')
  }

  ghost predicate Next(s: State, a: AgentId, s': State) {
    EntryStep(s, a, s') || QueueStep(s, a, s') || WorkerStep(s, a, s') || OutsideStep(s, s')
  }

  // ---- the invariant ----

  /** Positions that stand for FillWorkerQueued. */
  predicate Serves(pc: Pc) {
    pc == Starting || pc == Draining || pc.Issuing?
  }

  ghost predicate AgentOk(s: State, a: AgentId)
    requires a in s.agents
  {
    && (Serves(s.agents[a]) ==> s.owner == Some(a))
    && match s.agents[a]
       case Rechecking => Entrant(a) in s.holders
       case Backing => Entrant(a) in s.holders
       case Reading => Entrant(a) in s.holders
       case Building => Entrant(a) in s.holders
       case Starting => s.fills != []
       case Abandoning(list) => ListOk(s, list, With(a))
       case Draining => WorkerOf(a) in s.holders
       case Issuing(f, _) => WorkerOf(a) in s.holders && f in s.places && s.places[f] == With(a)
       case Leaving => WorkerOf(a) in s.holders
       case _ => true
  }

  ghost predicate ListOk(s: State, list: seq<FillId>, p: Place) {
    && (forall i | 0 <= i < |list| :: list[i] in s.places && s.places[list[i]] == p)
    && (forall i, j | 0 <= i < j < |list| :: list[i] != list[j])
  }

  predicate Carries(pc: Pc, f: FillId) {
    (pc.Abandoning? && f in pc.list) || (pc.Issuing? && pc.f == f)
  }

  /** A fill not yet settled holds its count, and is queued, being written, or in the hands of an agent. */
  ghost predicate FillOk(s: State, f: FillId)
    requires f in s.places
  {
    && FillOf(f) in s.holders
    && match s.places[f]
       case Queued => f in s.fills
       case Writing => true
       case With(a) => a in s.agents && Carries(s.agents[a], f)
  }

  predicate HolderOk(s: State, h: Holder) {
    match h
    case Base => s.phase == Open || s.phase == Cleared
    case Entrant(a) => a in s.agents && (s.agents[a] == Rechecking || s.agents[a] == Backing || s.agents[a] == Reading || s.agents[a] == Building)
    case FillOf(f) => f in s.places
    case WorkerOf(w) => w in s.agents && (s.agents[w] == Draining || s.agents[w].Issuing? || s.agents[w] == Leaving)
  }

  /** Past Idle the only counts are those of entrants that will find the gate shut. */
  predicate Passing(s: State, h: Holder) {
    h.Entrant? && h.a in s.agents && (s.agents[h.a] == Rechecking || s.agents[h.a] == Backing)
  }

  ghost predicate GateOk(s: State) {
    && (s.live ==> s.phase == Open)
    && (s.phase == Open || s.phase == Cleared ==> Base in s.holders)
    && (s.holders == {} ==> s.idle)
    && (s.idle ==> forall h | h in s.holders :: Passing(s, h))
    && (s.phase == Closed ==> s.idle)
  }

  ghost predicate QueueOk(s: State) {
    && ListOk(s, s.fills, Queued)
    && (s.workerQueued <==> s.owner.Some?)
    && (s.owner.Some? ==> s.owner.value in s.agents && Serves(s.agents[s.owner.value]))
    && (s.fills != [] ==> s.workerQueued)
  }

  ghost predicate Inv(s: State) {
    && GateOk(s) && QueueOk(s)
    && (forall a | a in s.agents :: AgentOk(s, a))
    && (forall f | f in s.places :: FillOk(s, f))
    && (forall h | h in s.holders :: HolderOk(s, h))
  }

  // ---- every step keeps it ----

  lemma ArriveInv(s: State, a: AgentId, s': State)
    requires Inv(s) && (Arrive(s, a, s') || Check(s, a, s'))
    ensures Inv(s')
  {
    forall b | b in s'.agents ensures AgentOk(s', b) { assert b != a ==> AgentOk(s, b); }
    forall f | f in s'.places ensures FillOk(s', f) { assert FillOk(s, f); }
    forall h | h in s'.holders ensures HolderOk(s', h) { assert HolderOk(s, h); }
  }

  lemma CountInv(s: State, a: AgentId, s': State)
    requires Inv(s) && Count(s, a, s')
    ensures Inv(s')
  {
    forall b | b in s'.agents ensures AgentOk(s', b) { assert AgentOk(s, b); }
    forall f | f in s'.places ensures FillOk(s', f) { assert FillOk(s, f); }
    forall h | h in s'.holders ensures HolderOk(s', h) { assert h != Entrant(a) ==> HolderOk(s, h); }
    assert Entrant(a) in s'.holders;
  }

  lemma RecheckInv(s: State, a: AgentId, pc: Pc, s': State)
    requires Inv(s) && Recheck(s, a, pc, s')
    ensures Inv(s')
  {
    forall b | b in s'.agents ensures AgentOk(s', b) { assert AgentOk(s, b); }
    forall f | f in s'.places ensures FillOk(s', f) { assert FillOk(s, f); }
    forall h | h in s'.holders ensures HolderOk(s', h) { assert HolderOk(s, h); }
    assert Base in s.holders ==> !Passing(s, Base);
  }

  lemma LeaveInv(s: State, a: AgentId, s': State)
    requires Inv(s) && Leave(s, a, s')
    ensures Inv(s')
  {
    forall b | b in s'.agents ensures AgentOk(s', b) { assert AgentOk(s, b); }
    forall f | f in s'.places ensures FillOk(s', f) { assert FillOk(s, f); }
    forall h | h in s'.holders ensures HolderOk(s', h) { assert HolderOk(s, h); }
  }

  lemma EnqueueInv(s: State, a: AgentId, f: FillId, s': State)
    requires Inv(s) && Enqueue(s, a, f, s')
    ensures Inv(s')
  {
    assert AgentOk(s, a) && HolderOk(s, Entrant(a)) && !Passing(s, Entrant(a));
    forall b | b in s'.agents ensures AgentOk(s', b) { assert AgentOk(s, b); }
    forall g | g in s'.places ensures FillOk(s', g) { assert g != f ==> FillOk(s, g); }
    forall h | h in s'.holders ensures HolderOk(s', h) { assert h != FillOf(f) ==> HolderOk(s, h); }
    assert FillOf(f) in s'.holders;
  }

  lemma StartWorkerInv(s: State, a: AgentId, w: AgentId, s': State)
    requires Inv(s) && StartWorker(s, a, w, s')
    ensures Inv(s')
  {
    assert AgentOk(s, a) && FillOk(s, s.fills[0]) && !Passing(s, FillOf(s.fills[0]));
    forall b | b in s'.agents ensures AgentOk(s', b) { assert b != w ==> AgentOk(s, b); }
    forall g | g in s'.places ensures FillOk(s', g) { assert FillOk(s, g); }
    forall h | h in s'.holders ensures HolderOk(s', h) { assert h != WorkerOf(w) ==> HolderOk(s, h); }
    assert WorkerOf(w) in s'.holders;
  }

  lemma StartFailsInv(s: State, a: AgentId, s': State)
    requires Inv(s) && StartFails(s, a, s')
    ensures Inv(s')
  {
    forall b | b in s'.agents ensures AgentOk(s', b) { assert AgentOk(s, b); }
    forall g | g in s'.places ensures FillOk(s', g) { assert FillOk(s, g); }
    forall h | h in s'.holders ensures HolderOk(s', h) { assert HolderOk(s, h); }
  }

  lemma GiveUpAgent(s: State, a: AgentId, f: FillId, rest: seq<FillId>, s': State, b: AgentId)
    requires GiveUp(s, a, f, rest, s') && b in s.agents && AgentOk(s, a) && AgentOk(s, b)
    ensures f in s.places && s.places[f] == With(a) && f !in rest && AgentOk(s', b)
  {
    var list := [f] + rest;
    assert list[0] == f && forall i | 0 <= i < |rest| :: rest[i] == list[i + 1];
  }

  lemma GiveUpInv(s: State, a: AgentId, f: FillId, rest: seq<FillId>, s': State)
    requires Inv(s) && GiveUp(s, a, f, rest, s')
    ensures Inv(s')
  {
    GiveUpAgent(s, a, f, rest, s', a);
    assert FillOk(s, f);
    forall b | b in s'.agents ensures AgentOk(s', b) { GiveUpAgent(s, a, f, rest, s', b); }
    forall g | g in s'.places ensures FillOk(s', g) { assert FillOk(s, g); }
    forall h | h in s'.holders ensures HolderOk(s', h) { assert HolderOk(s, h); }
  }

  lemma GaveUpInv(s: State, a: AgentId, s': State)
    requires Inv(s) && GaveUp(s, a, s')
    ensures Inv(s')
  {
    forall b | b in s'.agents ensures AgentOk(s', b) { assert AgentOk(s, b); }
    forall g | g in s'.places ensures FillOk(s', g) { assert FillOk(s, g); }
    forall h | h in s'.holders ensures HolderOk(s', h) { assert HolderOk(s, h); }
  }

  lemma TakeNextInv(s: State, w: AgentId, s': State)
    requires Inv(s) && TakeNext(s, w, s')
    ensures Inv(s')
  {
    assert AgentOk(s, w);
    assert forall i | 0 <= i < |s.fills| - 1 :: s.fills[1..][i] == s.fills[i + 1];
    forall b | b in s'.agents ensures AgentOk(s', b) { assert AgentOk(s, b); }
    forall g | g in s'.places ensures FillOk(s', g) { assert FillOk(s, g); }
    forall h | h in s'.holders ensures HolderOk(s', h) { assert HolderOk(s, h); }
  }

  lemma IssueInv(s: State, w: AgentId, f: FillId, s': State)
    requires Inv(s) && (ReadLive(s, w, f, s') || Issue(s, w, f, s') || IssueFails(s, w, f, s'))
    ensures Inv(s')
  {
    assert AgentOk(s, w) && FillOk(s, f);
    forall b | b in s'.agents ensures AgentOk(s', b) { assert AgentOk(s, b); }
    forall g | g in s'.places ensures FillOk(s', g) { assert FillOk(s, g); }
    forall h | h in s'.holders ensures HolderOk(s', h) { assert HolderOk(s, h); }
  }

  lemma WriteDoneInv(s: State, f: FillId, s': State)
    requires Inv(s) && WriteDone(s, f, s')
    ensures Inv(s')
  {
    assert FillOk(s, f);
    forall b | b in s'.agents ensures AgentOk(s', b) { assert AgentOk(s, b); }
    forall g | g in s'.places ensures FillOk(s', g) { assert FillOk(s, g); }
    forall h | h in s'.holders ensures HolderOk(s', h) { assert HolderOk(s, h); }
  }

  lemma WorkerLeavesInv(s: State, w: AgentId, s': State)
    requires Inv(s) && WorkerLeaves(s, w, s')
    ensures Inv(s')
  {
    forall b | b in s'.agents ensures AgentOk(s', b) { assert AgentOk(s, b); }
    forall g | g in s'.places ensures FillOk(s', g) { assert FillOk(s, g); }
    forall h | h in s'.holders ensures HolderOk(s', h) { assert HolderOk(s, h); }
  }

  lemma CleanupInv(s: State, s': State)
    requires Inv(s) && (Lose(s, s') || Clear(s, s') || DropBase(s, s') || SeeIdle(s, s'))
    ensures Inv(s')
  {
    forall b | b in s'.agents ensures AgentOk(s', b) { assert AgentOk(s, b); }
    forall g | g in s'.places ensures FillOk(s', g) { assert FillOk(s, g); }
    forall h | h in s'.holders ensures HolderOk(s', h) { assert HolderOk(s, h); }
  }

  // ---- whole runs ----

  lemma EntryStepInv(s: State, a: AgentId, s': State)
    requires Inv(s) && EntryStep(s, a, s')
    ensures Inv(s')
  {
    if Arrive(s, a, s') || Check(s, a, s') {
      ArriveInv(s, a, s');
    } else if Count(s, a, s') {
      CountInv(s, a, s');
    } else if pc :| Recheck(s, a, pc, s') {
      RecheckInv(s, a, pc, s');
    } else {
      LeaveInv(s, a, s');
    }
  }

  lemma QueueStepInv(s: State, a: AgentId, s': State)
    requires Inv(s) && QueueStep(s, a, s')
    ensures Inv(s')
  {
    if f :| Enqueue(s, a, f, s') {
      EnqueueInv(s, a, f, s');
    } else if w :| StartWorker(s, a, w, s') {
      StartWorkerInv(s, a, w, s');
    } else if StartFails(s, a, s') {
      StartFailsInv(s, a, s');
    } else if f, rest :| GiveUp(s, a, f, rest, s') {
      GiveUpInv(s, a, f, rest, s');
    } else {
      GaveUpInv(s, a, s');
    }
  }

  lemma WorkerStepInv(s: State, a: AgentId, s': State)
    requires Inv(s) && WorkerStep(s, a, s')
    ensures Inv(s')
  {
    if TakeNext(s, a, s') {
      TakeNextInv(s, a, s');
    } else if f :| ReadLive(s, a, f, s') {
      IssueInv(s, a, f, s');
    } else if f :| Issue(s, a, f, s') {
      IssueInv(s, a, f, s');
    } else if f :| IssueFails(s, a, f, s') {
      IssueInv(s, a, f, s');
    } else {
      WorkerLeavesInv(s, a, s');
    }
  }

  lemma StepKeepsInv(s: State, a: AgentId, s': State)
    requires Inv(s) && Next(s, a, s')
    ensures Inv(s')
  {
    if EntryStep(s, a, s') {
      EntryStepInv(s, a, s');
    } else if QueueStep(s, a, s') {
      QueueStepInv(s, a, s');
    } else if WorkerStep(s, a, s') {
      WorkerStepInv(s, a, s');
    } else if f :| WriteDone(s, f, s') {
      WriteDoneInv(s, f, s');
    } else {
      CleanupInv(s, s');
    }
  }

  ghost predicate Init(s: State) {
    && s.live && s.holders == {Base} && !s.idle && s.fills == [] && !s.workerQueued && s.agents == map[]
    && s.phase == Open && s.owner == None && s.places == map[]
  }

  ghost predicate Steps(s: State, s': State) {
    exists a :: Next(s, a, s')
  }

  ghost predicate StepAt(r: seq<State>, i: nat) {
    i + 1 < |r| && Steps(r[i], r[i + 1])
  }

  ghost predicate Run(r: seq<State>) {
    |r| > 0 && Init(r[0]) && forall i | 0 <= i < |r| - 1 :: StepAt(r, i)
  }

  lemma InitInv(s: State)
    requires Init(s)
    ensures Inv(s)
  {
  }

  lemma StepsKeepInv(s: State, s': State)
    requires Inv(s) && Steps(s, s')
    ensures Inv(s')
  {
    var a :| Next(s, a, s');
    StepKeepsInv(s, a, s');
  }

  lemma {:induction false} RunKeepsInv(r: seq<State>, n: nat)
    requires Run(r) && n < |r|
    ensures Inv(r[n])
  {
    if n == 0 {
      InitInv(r[0]);
    } else {
      RunKeepsInv(r, n - 1);
      assert StepAt(r, n - 1);
      StepsKeepInv(r[n - 1], r[n]);
    }
  }

  // ---- main results ----

  /**
    In every run no fill is stranded: each one not settled holds its count
    and is queued, being written or in an agent's hands; and a queue that is
    not empty has an agent that owes it a worker or is draining it.
  */
  lemma NoFillStranded(r: seq<State>, n: nat, f: FillId)
    requires Run(r) && n < |r| && f in r[n].places
    ensures FillOk(r[n], f)
    ensures r[n].fills != [] ==> exists a :: a in r[n].agents && Serves(r[n].agents[a])
  {
    RunKeepsInv(r, n);
    assert FillOk(r[n], f);
    assert r[n].owner.Some? ==> r[n].owner.value in r[n].agents;
  }

  /** Positions of those the gate turns away, and of one that has given up all it took. */
  predicate MayLinger(pc: Pc) {
    pc == Checking || pc == Counting || pc == Rechecking || pc == Backing || pc == Abandoning([])
  }

  /** The cache is quiet: nothing is in flight on its file, and nobody is in a position to start anything. */
  ghost predicate Quiet(s: State) {
    && !s.live && s.places == map[] && s.fills == []
    && forall a | a in s.agents :: MayLinger(s.agents[a])
  }

  lemma FillsKeepBusy(s: State)
    requires Inv(s)
    ensures s.idle ==> s.places == map[] && s.fills == []
  {
    forall f | f in s.places ensures !s.idle {
      assert FillOk(s, f) && !Passing(s, FillOf(f));
    }
    assert s.fills != [] ==> s.fills[0] in s.places;
  }

  lemma AgentKeepsBusy(s: State, a: AgentId)
    requires Inv(s) && a in s.agents
    ensures s.idle ==> MayLinger(s.agents[a])
  {
    FillsKeepBusy(s);
    assert AgentOk(s, a) && !Passing(s, WorkerOf(a));
    assert Entrant(a) in s.holders && s.idle ==> Passing(s, Entrant(a));
    assert s.agents[a].Abandoning? && s.agents[a].list != [] ==> s.agents[a].list[0] in s.places;
  }

  lemma IdleIsQuiet(s: State)
    requires Inv(s) && s.idle
    ensures Quiet(s)
  {
    FillsKeepBusy(s);
    assert !Passing(s, Base);
    forall a | a in s.agents ensures MayLinger(s.agents[a]) {
      AgentKeepsBusy(s, a);
    }
  }

  lemma {:induction false} IdleForever(r: seq<State>, n: nat, m: nat)
    requires Run(r) && n <= m < |r| && r[n].idle
    ensures r[m].idle
    decreases m
  {
    if n < m {
      IdleForever(r, n, m - 1);
      assert StepAt(r, m - 1);
      IdleStays(r[m - 1], r[m]);
    }
  }

  lemma QueueIdleStays(s: State, a: AgentId, s': State)
    requires s.idle && (QueueStep(s, a, s') || WorkerStep(s, a, s'))
    ensures s'.idle
  {
  }

  lemma IdleStays(s: State, s': State)
    requires Steps(s, s') && s.idle
    ensures s'.idle
  {
    var a :| Next(s, a, s');
    if QueueStep(s, a, s') || WorkerStep(s, a, s') {
      QueueIdleStays(s, a, s');
    }
  }

  /** In every run, once Busy has reached zero no I/O on the file is in flight or can start again; cleanup closes it only then. */
  lemma NothingAfterIdle(r: seq<State>, n: nat, m: nat)
    requires Run(r) && n <= m < |r| && (r[n].idle || r[n].phase == Closed)
    ensures Quiet(r[m])
  {
    RunKeepsInv(r, n);
    RunKeepsInv(r, m);
    IdleForever(r, n, m);
    IdleIsQuiet(r[m]);
  }

  /** And cleanup does not wait for nothing: with nobody inside and no write in flight, Busy has reached zero. */
  lemma CleanupEnds(r: seq<State>, n: nat)
    requires Run(r) && n < |r| && r[n].phase == Left && r[n].agents == map[]
    requires forall f | f in r[n].places :: r[n].places[f] != Writing
    ensures r[n].idle
  {
    RunKeepsInv(r, n);
    NobodyLeft(r[n]);
  }

  lemma UnwrittenHasAgent(s: State, f: FillId)
    requires Inv(s) && f in s.places
    ensures s.places[f] != Writing ==> s.agents != map[]
  {
    assert FillOk(s, f);
  }

  lemma HolderHasAgent(s: State, h: Holder)
    requires Inv(s) && h in s.holders
    ensures (h == Base && s.phase != Left) || (h.FillOf? && h.f in s.places) || s.agents != map[]
  {
    assert HolderOk(s, h);
  }

  lemma NobodyLeft(s: State)
    requires Inv(s) && s.phase == Left && s.agents == map[] && forall f | f in s.places :: s.places[f] != Writing
    ensures s.idle
  {
    forall f | f in s.places ensures false {
      UnwrittenHasAgent(s, f);
    }
    forall h | h in s.holders ensures false {
      HolderHasAgent(s, h);
    }
  }

  /** One that found the gate open before it counted itself and after is in, and counted; whatever others did meanwhile. */
  lemma OpenGateAdmits(s0: State, s1: State, s2: State, s3: State, s4: State, s5: State, a: AgentId, pc: Pc)
    requires a in s1.agents && s0.live && Check(s0, a, s1)
    requires At(s2, a, s1.agents[a]) && Count(s2, a, s3)
    requires Inv(s4) && At(s4, a, s3.agents[a]) && s4.live && Recheck(s4, a, pc, s5)
    ensures At(s5, a, pc) && (pc == Reading || pc == Building) && Entrant(a) in s5.holders && !s5.idle
  {
    assert AgentOk(s4, a);
    assert !Passing(s4, Base);
  }

  /** One that finds it shut at first leaves uncounted; one that finds it shut after is out again with its count gone. */
  lemma ShutGateTurnsAway(s0: State, s1: State, s2: State, s3: State, a: AgentId, pc: Pc)
    requires !s0.live
    ensures Check(s0, a, s1) ==> a !in s1.agents && s1.holders == s0.holders
    ensures Recheck(s0, a, pc, s1) && At(s2, a, s1.agents[a]) && Leave(s2, a, s3) ==> a !in s3.agents && Entrant(a) !in s3.holders
    ensures Recheck(s0, a, pc, s1) ==> s1.places == s0.places && s1.agents[a] == Backing
  {
  }

  /** While the cache is on, the first fill queued goes from the worker's hands to the disk, its count with it, and both are gone once it is written. */
  lemma QueuedIsWritten(s0: State, s1: State, s2: State, s3: State, s4: State, s5: State, s6: State, s7: State, w: AgentId, f: FillId)
    requires TakeNext(s0, w, s1) && s0.fills != [] && f == s0.fills[0]
    requires At(s2, w, s1.agents[w]) && s2.live && ReadLive(s2, w, f, s3)
    requires Inv(s4) && At(s4, w, s3.agents[w]) && Issue(s4, w, f, s5)
    requires f in s6.places && s6.places[f] == Writing && WriteDone(s6, f, s7)
    ensures f in s5.places && s5.places[f] == Writing && FillOf(f) in s5.holders && At(s5, w, Draining)
    ensures f !in s7.places && FillOf(f) !in s7.holders
  {
    assert AgentOk(s4, w);
    assert FillOk(s4, f);
  }

  /** Once it is off, a fill the worker comes to is given up unwritten, and its count goes. */
  lemma QueuedIsGivenUp(s0: State, s1: State, s2: State, s3: State, w: AgentId, f: FillId)
    requires TakeNext(s0, w, s1) && s0.fills != [] && f == s0.fills[0]
    requires At(s2, w, s1.agents[w]) && !s2.live && ReadLive(s2, w, f, s3)
    ensures f !in s3.places && FillOf(f) !in s3.holders && At(s3, w, Draining)
  {
  }

  /** What one step does to the fill queue: nothing, one more at its end, its first gone, or all of it given up. */
  ghost predicate QueueMoves(q: seq<FillId>, q': seq<FillId>) {
    q' == q || q' == [] || (q != [] && q' == q[1..]) || (q' != [] && q' == q + [q'[|q'| - 1]])
  }

  lemma EntryQueueMoves(s: State, a: AgentId, s': State)
    requires EntryStep(s, a, s') || OutsideStep(s, s')
    ensures s'.fills == s.fills
  {
  }

  lemma WorkerQueueMoves(s: State, a: AgentId, s': State)
    requires WorkerStep(s, a, s')
    ensures QueueMoves(s.fills, s'.fills)
  {
  }

  lemma StepQueueMoves(s: State, a: AgentId, s': State)
    requires Next(s, a, s')
    ensures QueueMoves(s.fills, s'.fills)
  {
    if EntryStep(s, a, s') || OutsideStep(s, s') {
      EntryQueueMoves(s, a, s');
    } else if WorkerStep(s, a, s') {
      WorkerQueueMoves(s, a, s');
    }
  }

  /** In every run the queue is first in, first out. */
  lemma FillsInOrder(r: seq<State>, n: nat)
    requires Run(r) && n + 1 < |r|
    ensures QueueMoves(r[n].fills, r[n + 1].fills)
  {
    assert StepAt(r, n);
    var a :| Next(r[n], a, r[n + 1]);
    StepQueueMoves(r[n], a, r[n + 1]);
  }
}
