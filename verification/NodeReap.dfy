/**
  Node lifetime in src/Structs.c: pins, references, the reap claim, the
  deferred reap worker and the ancestor walk, with the opens and closes of
  src/Create.c and src/Close.c that drive them.

  Every interlocked operation, every section under NodeReap.Lock and every
  section under a bucket lock held exclusive is one step. A bucket lock held
  shared is held across several steps, which other agents may interleave with.
  PinCount and RefCount are the sizes of the sets of their holders.
*/
module NodeReap {
  import opened Options

  type NodeId = nat
  type AgentId = nat

  const ROOT: NodeId := 0

  datatype Holder = Handle(h: nat) | Opening(a: AgentId)

  /** OnReapList, with who is to act on it: the claim bit is set exactly when this is not Unclaimed. */
  datatype Claim = Unclaimed | Listed | OwnedBy(a: AgentId)

  datatype Node = Node(
    parent: NodeId,
    isDir: bool,
    refs: set<Holder>,
    pins: set<AgentId>,
    claim: Claim,
    linked: bool,        // published in the node table
    shown: bool,         // some open of it has succeeded
    dying: bool)         // retired: its owner will free it and nothing else

  datatype Stage = ReadRefs | ReadPins | TakeClaim | Push | Kick

  /** Where an ancestor walk returns to. */
  datatype Cont = ToCreate | ToBatch(rest: seq<NodeId>)

  datatype Pc =
    // warm open: holds a pin
    | Pinned(n: NodeId)
    | WarmOpening(n: NodeId)
    // idle test and deferral, under the node's bucket lock shared
    | Test(n: NodeId, stage: Stage, cold: bool)
    // cold open: holds the VCB resource exclusive
    | Cold
    | ColdOpening(n: NodeId, isNew: bool)
    | ColdPublish(n: NodeId)
    | ColdRetest(n: NodeId)
    | ColdAt(d: NodeId)
    | ColdFresh(n: NodeId)
    | ColdDiscard(n: NodeId)
    // ancestor walk, under the VCB resource exclusive
    | Walk(d: NodeId, k: Cont)
    | WalkFree(n: NodeId, k: Cont)
    // reap worker
    | WorkStart
    | WorkWait(batch: seq<NodeId>)
    | WorkBatch(batch: seq<NodeId>)
    | WorkTail
    | WorkKick

  datatype State = State(
    nodes: map<NodeId, Node>,          // every live node below the root
    freed: set<NodeId>,
    agents: map<AgentId, Pc>,
    vcb: Option<AgentId>,              // holder of the VCB resource
    reapList: seq<NodeId>,
    queued: bool,
    shuttingDown: bool,
    bucketOf: NodeId -> nat,
    open: map<nat, NodeId>)            // history: the node each open handle was given

  // ---- helpers ----

  predicate HoldsBucket(s: State, a: AgentId, b: nat) {
    a in s.agents && s.agents[a].Test? && s.bucketOf(s.agents[a].n) == b
  }

  /** Nobody holds the bucket lock of `n` shared, so it can be taken exclusive. */
  ghost predicate BucketFree(s: State, n: NodeId) {
    forall a :: !HoldsBucket(s, a, s.bucketOf(n))
  }

  predicate ChildOf(s: State, c: NodeId, d: NodeId) {
    c in s.nodes && s.nodes[c].parent == d
  }

  ghost predicate HasChild(s: State, d: NodeId) {
    exists c :: ChildOf(s, c, d)
  }

  function Return(k: Cont): Pc {
    if k.ToCreate? then Cold else WorkBatch(k.rest)
  }

  predicate At(s: State, a: AgentId, pc: Pc) {
    a in s.agents && s.agents[a] == pc
  }

  /** Agent `a` moves to `pc` and nothing else changes. */
  function Move(s: State, a: AgentId, pc: Pc): State {
    s.(agents := s.agents[a := pc])
  }

  /** Agent `a` moves to `pc` having written node `n`. */
  function Write(s: State, a: AgentId, pc: Pc, n: NodeId, v: Node): State {
    s.(agents := s.agents[a := pc], nodes := s.nodes[n := v])
  }

  /** Leaving the idle test: back to the cold open, or out of the driver. */
  function Settle(s: State, a: AgentId, cold: bool): State {
    if cold then s.(agents := s.agents[a := Cold]) else s.(agents := s.agents - {a})
  }

  // ---- opens and closes ----

  /** BlorgNodeTableLookupPin finds and pins a published node. */
  ghost predicate LookupPin(s: State, a: AgentId, n: NodeId, s': State) {
    a !in s.agents && n in s.nodes && s.nodes[n].linked &&
    s' == Write(s, a, Pinned(n), n, s.nodes[n].(pins := s.nodes[n].pins + {a}))
  }

  /** The open helpers raise RefCount: on a pinned node, or on any node under the VCB resource. */
  ghost predicate OpenBegins(s: State, a: AgentId, from: Pc, to: Pc, n: NodeId, s': State) {
    && n in s.nodes && At(s, a, from)
    && ((from == Pinned(n) && to == WarmOpening(n)) ||
        (from == Cold && to == ColdOpening(n, false)) ||
        (from == ColdFresh(n) && to == ColdOpening(n, true)))
    && s' == Write(s, a, to, n, s.nodes[n].(refs := s.nodes[n].refs + {Opening(a)}))
  }

  /** The open succeeds: its reference becomes that of a handle not in use. */
  ghost predicate OpenSucceeds(s: State, a: AgentId, from: Pc, to: Pc, n: NodeId, h: nat, s': State) {
    && n in s.nodes && At(s, a, from)
    && ((from == WarmOpening(n) && to == Pinned(n)) || (from.ColdOpening? && from.n == n && to == ColdPublish(n)))
    && h !in s.open
    && s' == Write(s, a, to, n, s.nodes[n].(refs := s.nodes[n].refs - {Opening(a)} + {Handle(h)}, shown := true)).(open := s.open[h := n])
  }

  /** The open is refused after the raise, and drops its reference without an idle test. */
  ghost predicate OpenFails(s: State, a: AgentId, from: Pc, to: Pc, n: NodeId, s': State) {
    && n in s.nodes && At(s, a, from)
    && ((from == WarmOpening(n) && to == Pinned(n)) ||
        (from == ColdOpening(n, false) && to == ColdRetest(n)) ||
        (from == ColdOpening(n, true) && to == ColdDiscard(n)))
    && s' == Write(s, a, to, n, s.nodes[n].(refs := s.nodes[n].refs - {Opening(a)}))
  }

  /** BlorgNodeUnpin takes the bucket lock shared and drops the pin. */
  ghost predicate Unpin(s: State, a: AgentId, n: NodeId, s': State) {
    At(s, a, Pinned(n)) && n in s.nodes &&
    s' == Write(s, a, Test(n, ReadRefs, false), n, s.nodes[n].(pins := s.nodes[n].pins - {a}))
  }

  /** The last of an open handle: BlorgNodeDereference takes the bucket lock shared and drops its reference. */
  ghost predicate Close(s: State, a: AgentId, n: NodeId, h: nat, s': State) {
    a !in s.agents && h in s.open && s.open[h] == n && n in s.nodes &&
    s' == Write(s, a, Test(n, ReadRefs, false), n, s.nodes[n].(refs := s.nodes[n].refs - {Handle(h)})).(open := s.open - {h})
  }

  // ---- idle test and deferral ----

  ghost predicate ReadRefsStep(s: State, a: AgentId, n: NodeId, cold: bool, s': State) {
    At(s, a, Test(n, ReadRefs, cold)) && n in s.nodes &&
    s' == if s.nodes[n].refs != {} then Settle(s, a, cold) else Move(s, a, Test(n, ReadPins, cold))
  }

  ghost predicate ReadPinsStep(s: State, a: AgentId, n: NodeId, cold: bool, s': State) {
    At(s, a, Test(n, ReadPins, cold)) && n in s.nodes &&
    s' == if s.nodes[n].pins != {} then Settle(s, a, cold) else Move(s, a, Test(n, TakeClaim, cold))
  }

  ghost predicate TakeClaimStep(s: State, a: AgentId, n: NodeId, cold: bool, s': State) {
    At(s, a, Test(n, TakeClaim, cold)) && n in s.nodes &&
    s' == if s.nodes[n].claim != Unclaimed then Settle(s, a, cold)
          else Write(s, a, Test(n, Push, cold), n, s.nodes[n].(claim := OwnedBy(a)))
  }

  ghost predicate PushStep(s: State, a: AgentId, n: NodeId, cold: bool, s': State) {
    At(s, a, Test(n, Push, cold)) && n in s.nodes &&
    s' == s.(reapList := [n] + s.reapList, agents := s.agents[a := Test(n, Kick, cold)],
             nodes := s.nodes[n := s.nodes[n].(claim := Listed)])
  }

  /** NodeReapKick; `w` is the worker it queues, if it queues one. */
  ghost predicate KickStep(s: State, a: AgentId, w: AgentId, s': State) {
    a in s.agents && w !in s.agents &&
    (s.agents[a].WorkKick? || (s.agents[a].Test? && s.agents[a].stage == Kick)) &&
    (var t := Settle(s, a, s.agents[a].Test? && s.agents[a].cold);
     s' == if s.queued || s.shuttingDown then t else t.(agents := t.agents[w := WorkStart], queued := true))
  }

  // ---- cold opens, under the VCB resource ----

  ghost predicate EnterCold(s: State, a: AgentId, s': State) {
    a !in s.agents && s.vcb == None && s' == s.(agents := s.agents[a := Cold], vcb := Some(a))
  }

  ghost predicate LeaveCold(s: State, a: AgentId, s': State) {
    At(s, a, Cold) && s' == s.(agents := s.agents - {a}, vcb := None)
  }

  /** An open of a resident node refused before it raises RefCount. */
  ghost predicate ColdRefused(s: State, a: AgentId, n: NodeId, s': State) {
    At(s, a, Cold) && n in s.nodes && s' == Move(s, a, ColdRetest(n))
  }

  /** BlorgNodeTablePublish, under the bucket lock exclusive. */
  ghost predicate Publish(s: State, a: AgentId, n: NodeId, s': State) {
    At(s, a, ColdPublish(n)) && n in s.nodes && BucketFree(s, n) &&
    s' == Write(s, a, Cold, n, s.nodes[n].(linked := true))
  }

  /** BlorgNodeDeferReapIfIdle takes the bucket lock shared. */
  ghost predicate Retest(s: State, a: AgentId, n: NodeId, s': State) {
    At(s, a, ColdRetest(n)) && n in s.nodes && s' == Move(s, a, Test(n, ReadRefs, true))
  }

  ghost predicate InsertBegins(s: State, a: AgentId, s': State) {
    At(s, a, Cold) && s' == Move(s, a, ColdAt(ROOT))
  }

  ghost predicate Descend(s: State, a: AgentId, d: NodeId, c: NodeId, s': State) {
    At(s, a, ColdAt(d)) && ChildOf(s, c, d) && s.nodes[c].isDir && s' == Move(s, a, ColdAt(c))
  }

  /** BlorgInsertByPath links a new node under the directory it has reached. Nodes are numbered above their parents. */
  ghost predicate CreateNode(s: State, a: AgentId, d: NodeId, m: NodeId, isDir: bool, last: bool, s': State) {
    At(s, a, ColdAt(d)) && m > d && m !in s.nodes && m !in s.freed && (!last ==> isDir) &&
    s' == Write(s, a, if last then ColdFresh(m) else ColdAt(m), m, Node(d, isDir, {}, {}, Unclaimed, false, false, false))
  }

  ghost predicate InsertFails(s: State, a: AgentId, d: NodeId, s': State) {
    At(s, a, ColdAt(d)) && s' == Move(s, a, Walk(d, ToCreate))
  }

  ghost predicate FreshRefused(s: State, a: AgentId, n: NodeId, s': State) {
    At(s, a, ColdFresh(n)) && n in s.nodes && s' == Move(s, a, ColdDiscard(n))
  }

  /** The steps of a cold open that only move it. */
  ghost predicate ColdMove(s: State, a: AgentId, n: NodeId, s': State) {
    ColdRefused(s, a, n, s') || Retest(s, a, n, s') || InsertBegins(s, a, s') || InsertFails(s, a, n, s') || FreshRefused(s, a, n, s')
  }

  // ---- freeing ----

  /** BlorgFreeFileContext of a node, and on to its parent. */
  ghost predicate Free(s: State, a: AgentId, n: NodeId, k: Cont, s': State) {
    ((At(s, a, ColdDiscard(n)) && k == ToCreate) || At(s, a, WalkFree(n, k))) && n in s.nodes &&
    s' == s.(nodes := s.nodes - {n}, freed := s.freed + {n}, agents := s.agents[a := Walk(s.nodes[n].parent, k)])
  }

  /** BlorgReapEmptyAncestorDcbs goes no further than `d`. */
  ghost predicate WalkEnds(s: State, d: NodeId) {
    d !in s.nodes || !s.nodes[d].isDir || HasChild(s, d) ||
    s.nodes[d].refs != {} || s.nodes[d].pins != {} || s.nodes[d].claim != Unclaimed
  }

  ghost predicate WalkStops(s: State, a: AgentId, d: NodeId, k: Cont, s': State) {
    At(s, a, Walk(d, k)) && WalkEnds(s, d) && s' == Move(s, a, Return(k))
  }

  /** NodeTableTryRetire succeeds, under the bucket lock exclusive. */
  ghost predicate WalkRetires(s: State, a: AgentId, d: NodeId, k: Cont, s': State) {
    At(s, a, Walk(d, k)) && !WalkEnds(s, d) && BucketFree(s, d) &&
    s' == Write(s, a, WalkFree(d, k), d, s.nodes[d].(claim := OwnedBy(a), linked := false, dying := true))
  }

  // ---- the reap worker ----

  function TakeAll(nodes: map<NodeId, Node>, list: seq<NodeId>, a: AgentId): map<NodeId, Node> {
    map n | n in nodes :: if n in list then nodes[n].(claim := OwnedBy(a)) else nodes[n]
  }

  ghost predicate Pop(s: State, a: AgentId, s': State) {
    At(s, a, WorkStart) &&
    s' == if s.reapList == [] then Move(s, a, WorkTail)
          else s.(reapList := [], agents := s.agents[a := WorkWait(s.reapList)], nodes := TakeAll(s.nodes, s.reapList, a))
  }

  ghost predicate TakeVcb(s: State, a: AgentId, batch: seq<NodeId>, s': State) {
    At(s, a, WorkWait(batch)) && s.vcb == None && s' == s.(vcb := Some(a), agents := s.agents[a := WorkBatch(batch)])
  }

  ghost predicate IdleNode(s: State, n: NodeId)
    requires n in s.nodes
  {
    s.nodes[n].refs == {} && s.nodes[n].pins == {} && (s.nodes[n].isDir ==> !HasChild(s, n))
  }

  /** One popped node, under its bucket lock exclusive: an idle one is unlinked and freed. */
  ghost predicate ProcessIdle(s: State, a: AgentId, n: NodeId, rest: seq<NodeId>, s': State) {
    At(s, a, WorkBatch([n] + rest)) && n in s.nodes && BucketFree(s, n) && IdleNode(s, n) &&
    s' == Write(s, a, WalkFree(n, ToBatch(rest)), n, s.nodes[n].(linked := false, dying := true))
  }

  /** Any other has its claim dropped and leaves the queue. */
  ghost predicate ProcessBusy(s: State, a: AgentId, n: NodeId, rest: seq<NodeId>, s': State) {
    At(s, a, WorkBatch([n] + rest)) && n in s.nodes && BucketFree(s, n) && !IdleNode(s, n) &&
    s' == Write(s, a, WorkBatch(rest), n, s.nodes[n].(claim := Unclaimed))
  }

  ghost predicate DropVcb(s: State, a: AgentId, s': State) {
    At(s, a, WorkBatch([])) && s' == s.(vcb := None, agents := s.agents[a := WorkTail])
  }

  ghost predicate TailStep(s: State, a: AgentId, s': State) {
    At(s, a, WorkTail) &&
    s' == s.(queued := false, agents := if s.reapList != [] then s.agents[a := WorkKick] else s.agents - {a})
  }

  /** BlorgNodeTableTeardown's latch. */
  ghost predicate Latch(s: State, s': State) {
    s' == s.(shuttingDown := true)
  }

  /** One step of one agent. */
  ghost predicate Next(s: State, a: AgentId, s': State) {
    || OpenCloseStep(s, a, s')
    || DeferStep(s, a, s')
    || CreateStep(s, a, s')
    || ReapStep(s, a, s')
    || Latch(s, s')
  }

  ghost predicate OpenCloseStep(s: State, a: AgentId, s': State) {
    || (exists n :: LookupPin(s, a, n, s'))
    || (exists from, to, n :: OpenBegins(s, a, from, to, n, s'))
    || (exists from, to, n, h :: OpenSucceeds(s, a, from, to, n, h, s'))
    || (exists from, to, n :: OpenFails(s, a, from, to, n, s'))
    || (exists n :: Unpin(s, a, n, s'))
    || (exists n, h :: Close(s, a, n, h, s'))
  }

  ghost predicate DeferStep(s: State, a: AgentId, s': State) {
    || (exists n, cold :: ReadRefsStep(s, a, n, cold, s'))
    || (exists n, cold :: ReadPinsStep(s, a, n, cold, s'))
    || (exists n, cold :: TakeClaimStep(s, a, n, cold, s'))
    || (exists n, cold :: PushStep(s, a, n, cold, s'))
    || (exists w :: KickStep(s, a, w, s'))
  }

  ghost predicate CreateStep(s: State, a: AgentId, s': State) {
    || EnterCold(s, a, s')
    || LeaveCold(s, a, s')
    || (exists n :: ColdMove(s, a, n, s'))
    || (exists n :: Publish(s, a, n, s'))
    || (exists d, c :: Descend(s, a, d, c, s'))
    || (exists d, m, isDir, last :: CreateNode(s, a, d, m, isDir, last, s'))
  }

  ghost predicate ReapStep(s: State, a: AgentId, s': State) {
    || (exists n, k :: Free(s, a, n, k, s'))
    || (exists d, k :: WalkStops(s, a, d, k, s'))
    || (exists d, k :: WalkRetires(s, a, d, k, s'))
    || Pop(s, a, s')
    || (exists batch :: TakeVcb(s, a, batch, s'))
    || (exists n, rest :: ProcessIdle(s, a, n, rest, s'))
    || (exists n, rest :: ProcessBusy(s, a, n, rest, s'))
    || DropVcb(s, a, s')
    || TailStep(s, a, s')
  }

  // ---- the invariant ----

  /** Positions that hold the VCB resource exclusive. */
  predicate HoldsVcb(pc: Pc) {
    !pc.Pinned? && !pc.WarmOpening? && !(pc.Test? && !pc.cold) && !pc.WorkStart? && !pc.WorkWait? && !pc.WorkTail? && !pc.WorkKick?
  }

  predicate Directory(s: State, d: NodeId) {
    d == ROOT || (d in s.nodes && s.nodes[d].isDir)
  }

  /** A node only its creator has ever seen. */
  ghost predicate Unseen(s: State, n: NodeId, refs: set<Holder>) {
    n in s.nodes && s.nodes[n].refs == refs && s.nodes[n].pins == {} && s.nodes[n].claim == Unclaimed &&
    !s.nodes[n].linked && !s.nodes[n].shown && !s.nodes[n].dying && !HasChild(s, n)
  }

  /** The claims an agent's position owns: nodes it will free or release. */
  function Claims(pc: Pc): seq<NodeId> {
    match pc
    case Test(n, stage, _) => if stage == Push then [n] else []
    case Walk(_, k) => if k.ToBatch? then k.rest else []
    case WalkFree(n, k) => if k.ToBatch? then [n] + k.rest else [n]
    case WorkWait(batch) => batch
    case WorkBatch(batch) => batch
    case _ => []
  }

  /** What an agent's position entitles it to. */
  ghost predicate AgentOk(s: State, a: AgentId)
    requires a in s.agents
  {
    && (HoldsVcb(s.agents[a]) <==> s.vcb == Some(a))
    && match s.agents[a]
       case Pinned(n) => n in s.nodes && a in s.nodes[n].pins
       case WarmOpening(n) => n in s.nodes && a in s.nodes[n].pins && Opening(a) in s.nodes[n].refs
       case Test(n, _, cold) => n in s.nodes && !s.nodes[n].dying && (!cold ==> s.nodes[n].shown)
       case ColdOpening(n, isNew) =>
         n in s.nodes && Opening(a) in s.nodes[n].refs && (isNew ==> Unseen(s, n, {Opening(a)}))
       case ColdPublish(n) => n in s.nodes && !s.nodes[n].dying && s.nodes[n].shown
       case ColdRetest(n) => n in s.nodes && !s.nodes[n].dying
       case ColdAt(d) => Directory(s, d)
       case ColdFresh(n) => Unseen(s, n, {})
       case ColdDiscard(n) => Unseen(s, n, {})
       case Walk(d, _) => Directory(s, d)
       case WalkFree(n, _) => n in s.nodes && s.nodes[n].dying && !HasChild(s, n)
       case _ => true
  }

  predicate Owns(s: State, a: AgentId, n: NodeId) {
    n in s.nodes && s.nodes[n].claim == OwnedBy(a)
  }

  ghost predicate ClaimsOk(s: State, a: AgentId)
    requires a in s.agents
  {
    var q := Claims(s.agents[a]);
    && (forall i | 0 <= i < |q| :: Owns(s, a, q[i]))
    && (forall i, j | 0 <= i < j < |q| :: q[i] != q[j])
  }

  predicate OpeningOf(pc: Pc, n: NodeId) {
    (pc.WarmOpening? || pc.ColdOpening?) && pc.n == n
  }

  predicate PinOf(pc: Pc, n: NodeId) {
    (pc.Pinned? || pc.WarmOpening?) && pc.n == n
  }

  ghost predicate NodeOk(s: State, n: NodeId)
    requires n in s.nodes
  {
    var v := s.nodes[n];
    && Directory(s, v.parent)
    && (forall a | a in v.pins :: a in s.agents && PinOf(s.agents[a], n))
    && (forall a | Opening(a) in v.refs :: a in s.agents && OpeningOf(s.agents[a], n))
    && (v.linked || v.pins != {} ==> v.shown)
    && (v.claim == Listed ==> n in s.reapList)
    && (v.claim.OwnedBy? ==> v.claim.a in s.agents && n in Claims(s.agents[v.claim.a]))
    && (v.dying ==> (v.refs == {} && v.pins == {} && !v.linked && v.claim.OwnedBy? &&
                     v.claim.a in s.agents && s.agents[v.claim.a].WalkFree? && s.agents[v.claim.a].n == n))
  }

  ghost predicate ListOk(s: State) {
    && (forall i | 0 <= i < |s.reapList| :: s.reapList[i] in s.nodes && s.nodes[s.reapList[i]].claim == Listed)
    && (forall i, j | 0 <= i < j < |s.reapList| :: s.reapList[i] != s.reapList[j])
  }

  /** The handles that hold a reference to a node are exactly those open on it, each by an open that succeeded. */
  ghost predicate HandlesOk(s: State) {
    && (forall h | h in s.open :: s.open[h] in s.nodes && Handle(h) in s.nodes[s.open[h]].refs && s.nodes[s.open[h]].shown)
    && (forall n, h | n in s.nodes && Handle(h) in s.nodes[n].refs :: h in s.open && s.open[h] == n)
  }

  /** What a warm lookup is to find: every node some open of which has succeeded is published, or about to be. */
  ghost predicate Findable(s: State) {
    forall n | n in s.nodes && s.nodes[n].shown && !s.nodes[n].dying :: s.nodes[n].linked || exists a :: At(s, a, ColdPublish(n))
  }

  ghost predicate Kept(s: State) {
    HandlesOk(s) && Findable(s)
  }

  ghost predicate Safe(s: State) {
    && ROOT !in s.nodes
    && s.nodes.Keys !! s.freed
    && (s.vcb.Some? ==> s.vcb.value in s.agents)
    && (forall a | a in s.agents :: AgentOk(s, a))
    && (forall a | a in s.agents :: ClaimsOk(s, a))
    && (forall n | n in s.nodes :: NodeOk(s, n))
    && ListOk(s)
  }

  // ---- no idle node is stranded ----

  /** The node an agent still comes back to, to test, walk, open or discard it; ROOT if none. */
  function Owed(pc: Pc): NodeId {
    match pc
    case Test(m, stage, _) => if stage == Push || stage == Kick then ROOT else m
    case ColdRetest(m) => m
    case ColdAt(d) => d
    case ColdFresh(m) => m
    case ColdDiscard(m) => m
    case Walk(d, _) => d
    case _ => ROOT
  }

  predicate OwedBy(s: State, a: AgentId, n: NodeId) {
    a in s.agents && Owed(s.agents[a]) == n
  }

  /** A reason `n` is not forgotten. */
  ghost predicate Held(s: State, n: NodeId)
    requires n in s.nodes
  {
    s.nodes[n].refs != {} || s.nodes[n].pins != {} || HasChild(s, n) || s.nodes[n].claim != Unclaimed ||
    exists a :: OwedBy(s, a, n)
  }

  predicate KickOwedBy(s: State, a: AgentId) {
    a in s.agents && (s.agents[a].WorkKick? || (s.agents[a].Test? && s.agents[a].stage == Kick))
  }

  predicate WorkerAt(s: State, a: AgentId) {
    a in s.agents && Working(s.agents[a])
  }

  predicate Working(pc: Pc) {
    pc.WorkStart? || pc.WorkWait? || pc.WorkBatch? || pc.WorkTail? || ((pc.Walk? || pc.WalkFree?) && pc.k.ToBatch?)
  }

  ghost predicate NoneStranded(s: State) {
    forall n | n in s.nodes :: Held(s, n)
  }

  /** A non-empty reap list has a queued worker, an owed kick, or the latch; a queued worker exists. */
  ghost predicate ListServed(s: State) {
    && (s.reapList != [] ==> s.queued || s.shuttingDown || exists a :: KickOwedBy(s, a))
    && (s.queued ==> exists a :: WorkerAt(s, a))
  }

  ghost predicate Progress(s: State) {
    ROOT !in s.nodes && NoneStranded(s) && ListServed(s)
  }

  ghost predicate Inv(s: State) {
    Safe(s) && Progress(s) && Kept(s)
  }

  /** Parents are older than their children, so the tree has no cycle. */
  ghost predicate Ordered(s: State) {
    forall n | n in s.nodes :: s.nodes[n].parent < n
  }

  // ---- every step keeps it ----

  /** Positions no node's own record points back to. */
  predicate Plain(pc: Pc) {
    !pc.Pinned? && !pc.WarmOpening? && !pc.ColdOpening? && !pc.WalkFree?
  }

  lemma SameTree(s: State, s': State)
    requires s.nodes.Keys == s'.nodes.Keys
    requires forall n | n in s.nodes :: s'.nodes[n].parent == s.nodes[n].parent
    ensures forall d :: HasChild(s', d) == HasChild(s, d)
  {
    forall d ensures HasChild(s', d) == HasChild(s, d) {
      if HasChild(s, d) {
        var c :| ChildOf(s, c, d);
        assert ChildOf(s', c, d);
      }
      if HasChild(s', d) {
        var c :| ChildOf(s', c, d);
        assert ChildOf(s, c, d);
      }
    }
  }

  lemma MoveKeepsSafe(s: State, a: AgentId, pc: Pc)
    requires Safe(s) && a in s.agents && Plain(s.agents[a])
    requires Claims(pc) == Claims(s.agents[a]) && HoldsVcb(pc) == HoldsVcb(s.agents[a])
    requires AgentOk(Move(s, a, pc), a)
    ensures Safe(Move(s, a, pc))
  {
    var s' := Move(s, a, pc);
    SameTree(s, s');
    forall b | b in s'.agents ensures AgentOk(s', b) && ClaimsOk(s', b) {
      if b != a { assert AgentOk(s, b) && ClaimsOk(s, b); } else { assert ClaimsOk(s, a); }
    }
    forall n | n in s'.nodes ensures NodeOk(s', n) {
      assert NodeOk(s, n);
    }
  }

  lemma SettleKeepsSafe(s: State, a: AgentId)
    requires Safe(s) && a in s.agents && Plain(s.agents[a]) && Claims(s.agents[a]) == [] && !HoldsVcb(s.agents[a])
    ensures Safe(s.(agents := s.agents - {a}))
  {
    var s' := s.(agents := s.agents - {a});
    SameTree(s, s');
    forall b | b in s'.agents ensures AgentOk(s', b) && ClaimsOk(s', b) {
      assert AgentOk(s, b) && ClaimsOk(s, b);
    }
    forall n | n in s'.nodes ensures NodeOk(s', n) {
      assert NodeOk(s, n);
    }
  }

  /** Only refs or pins of `n` change, by the entry or exit of agent `a` or of a handle. */
  ghost predicate CountsChange(v: Node, v': Node, a: AgentId) {
    && v' == v.(refs := v'.refs, pins := v'.pins, shown := v'.shown)
    && (v.shown ==> v'.shown)
    && (forall b | b != a :: b in v'.pins <==> b in v.pins)
    && (forall b | b != a :: Opening(b) in v'.refs <==> Opening(b) in v.refs)
  }

  ghost predicate CountMove(s: State, a: AgentId, pc: Pc, n: NodeId, v: Node) {
    && n in s.nodes && CountsChange(s.nodes[n], v, a) && !s.nodes[n].dying
    && (a in s.agents ==> Claims(s.agents[a]) == [] && HoldsVcb(pc) == HoldsVcb(s.agents[a]))
    && (a in s.agents ==> Plain(s.agents[a]) || (s.agents[a].n == n && !s.agents[a].WalkFree?))
    && (a !in s.agents ==> !HoldsVcb(pc))
    && Claims(pc) == []
    && (s.nodes[n].shown || s.vcb == Some(a))
    && AgentOk(Write(s, a, pc, n, v), a) && NodeOk(Write(s, a, pc, n, v), n)
  }

  lemma CountKeepsAgents(s: State, a: AgentId, pc: Pc, n: NodeId, v: Node, b: AgentId)
    requires CountMove(s, a, pc, n, v) && b in s.agents && b != a && AgentOk(s, b) && ClaimsOk(s, b)
    ensures AgentOk(Write(s, a, pc, n, v), b) && ClaimsOk(Write(s, a, pc, n, v), b)
  {
    SameTree(s, Write(s, a, pc, n, v));
  }

  lemma CountKeepsSafe(s: State, a: AgentId, pc: Pc, n: NodeId, v: Node)
    requires Safe(s) && CountMove(s, a, pc, n, v)
    ensures Safe(Write(s, a, pc, n, v))
  {
    var s' := Write(s, a, pc, n, v);
    forall b | b in s'.agents ensures AgentOk(s', b) && ClaimsOk(s', b) {
      if b != a {
        CountKeepsAgents(s, a, pc, n, v, b);
      }
    }
    forall m | m in s'.nodes ensures NodeOk(s', m) {
      if m != n {
        CountKeepsNode(s, a, pc, n, v, m);
      }
    }
  }

  lemma CountKeepsNode(s: State, a: AgentId, pc: Pc, n: NodeId, v: Node, m: NodeId)
    requires CountMove(s, a, pc, n, v) && m in s.nodes && m != n && NodeOk(s, m)
    ensures NodeOk(Write(s, a, pc, n, v), m)
  {
  }

  lemma LookupPinSafe(s: State, a: AgentId, n: NodeId, s': State)
    requires Safe(s) && LookupPin(s, a, n, s')
    ensures Safe(s')
  {
    assert NodeOk(s, n);
    CountKeepsSafe(s, a, Pinned(n), n, s'.nodes[n]);
  }

  lemma OpenBeginsHere(s: State, a: AgentId, from: Pc, to: Pc, n: NodeId, s': State)
    requires OpenBegins(s, a, from, to, n, s') && AgentOk(s, a) && NodeOk(s, n) && !s.nodes[n].dying
    ensures CountMove(s, a, to, n, s'.nodes[n])
  {
    SameTree(s, s');
  }

  lemma OpenBeginsSafe(s: State, a: AgentId, from: Pc, to: Pc, n: NodeId, s': State)
    requires Safe(s) && OpenBegins(s, a, from, to, n, s')
    ensures Safe(s')
  {
    assert NodeOk(s, n) && AgentOk(s, a);
    if from == Cold { NoneDying(s, a, n); }
    OpenBeginsHere(s, a, from, to, n, s');
    CountKeepsSafe(s, a, to, n, s'.nodes[n]);
  }

  lemma OpenSucceedsHere(s: State, a: AgentId, from: Pc, to: Pc, n: NodeId, h: nat, s': State)
    requires OpenSucceeds(s, a, from, to, n, h, s') && AgentOk(s, a) && NodeOk(s, n)
    ensures CountMove(s, a, to, n, s'.nodes[n])
  {
  }

  lemma OpenSucceedsSafe(s: State, a: AgentId, from: Pc, to: Pc, n: NodeId, h: nat, s': State)
    requires Safe(s) && OpenSucceeds(s, a, from, to, n, h, s')
    ensures Safe(s')
  {
    assert NodeOk(s, n) && AgentOk(s, a);
    OpenSucceedsHere(s, a, from, to, n, h, s');
    CountKeepsSafe(s, a, to, n, s'.nodes[n]);
    FlagsKeepSafe(Write(s, a, to, n, s'.nodes[n]), s.queued, s.shuttingDown, s'.open);
  }

  lemma OpenFailsHere(s: State, a: AgentId, from: Pc, to: Pc, n: NodeId, s': State)
    requires OpenFails(s, a, from, to, n, s') && AgentOk(s, a) && NodeOk(s, n)
    ensures AgentOk(s', a) && NodeOk(s', n) && HoldsVcb(to) == HoldsVcb(from)
  {
    SameTree(s, s');
  }

  lemma OpenFailsSafe(s: State, a: AgentId, from: Pc, to: Pc, n: NodeId, s': State)
    requires Safe(s) && OpenFails(s, a, from, to, n, s')
    ensures Safe(s')
  {
    assert NodeOk(s, n) && AgentOk(s, a);
    OpenFailsHere(s, a, from, to, n, s');
    CountKeepsSafe(s, a, to, n, s'.nodes[n]);
  }

  lemma UnpinHere(s: State, a: AgentId, n: NodeId, s': State)
    requires Unpin(s, a, n, s') && AgentOk(s, a) && NodeOk(s, n)
    ensures CountMove(s, a, Test(n, ReadRefs, false), n, s'.nodes[n])
  {
  }

  lemma UnpinSafe(s: State, a: AgentId, n: NodeId, s': State)
    requires Safe(s) && Unpin(s, a, n, s')
    ensures Safe(s')
  {
    assert NodeOk(s, n) && AgentOk(s, a);
    UnpinHere(s, a, n, s');
    CountKeepsSafe(s, a, Test(n, ReadRefs, false), n, s'.nodes[n]);
  }

  lemma CloseHere(s: State, a: AgentId, n: NodeId, h: nat, s': State)
    requires Close(s, a, n, h, s') && NodeOk(s, n) && s.nodes[n].shown && Handle(h) in s.nodes[n].refs && s.vcb != Some(a)
    ensures CountMove(s, a, Test(n, ReadRefs, false), n, s'.nodes[n])
  {
  }

  lemma CloseSafe(s: State, a: AgentId, n: NodeId, h: nat, s': State)
    requires Safe(s) && HandlesOk(s) && Close(s, a, n, h, s')
    ensures Safe(s')
  {
    assert NodeOk(s, n);
    CloseHere(s, a, n, h, s');
    CountKeepsSafe(s, a, Test(n, ReadRefs, false), n, s'.nodes[n]);
    FlagsKeepSafe(Write(s, a, Test(n, ReadRefs, false), n, s'.nodes[n]), s.queued, s.shuttingDown, s'.open);
  }

  lemma ReadHere(s: State, a: AgentId, n: NodeId, cold: bool, s': State)
    requires (ReadRefsStep(s, a, n, cold, s') || ReadPinsStep(s, a, n, cold, s')) && AgentOk(s, a) && a in s'.agents
    ensures AgentOk(s', a) && s' == Move(s, a, s'.agents[a]) && HoldsVcb(s'.agents[a]) == HoldsVcb(s.agents[a])
  {
  }

  lemma ReadSafe(s: State, a: AgentId, n: NodeId, cold: bool, s': State)
    requires Safe(s) && (ReadRefsStep(s, a, n, cold, s') || ReadPinsStep(s, a, n, cold, s'))
    ensures Safe(s')
  {
    assert AgentOk(s, a);
    if a in s'.agents {
      ReadHere(s, a, n, cold, s');
      MoveKeepsSafe(s, a, s'.agents[a]);
    } else {
      SettleKeepsSafe(s, a);
    }
  }

  /** The claim of `n` changes hands; `a` is the agent that steps. */
  ghost predicate ClaimMove(s: State, a: AgentId, n: NodeId, s': State) {
    && a in s.agents && a in s'.agents && n in s.nodes && n in s'.nodes
    && s' == s.(agents := s.agents[a := s'.agents[a]], nodes := s.nodes[n := s'.nodes[n]], reapList := s'.reapList)
    && s'.nodes[n] == s.nodes[n].(claim := s'.nodes[n].claim, linked := s'.nodes[n].linked, dying := s'.nodes[n].dying)
    && (s'.nodes[n].linked ==> s.nodes[n].linked)
    && (s.nodes[n].claim == Unclaimed || s.nodes[n].claim == OwnedBy(a))
    && Plain(s.agents[a]) && HoldsVcb(s'.agents[a]) == HoldsVcb(s.agents[a])
    && (s.nodes[n].shown || s.vcb == Some(a))
    && (s'.nodes[n].dying ==> BucketFree(s, n) && s.vcb == Some(a))
  }

  lemma ClaimMoveKeepsAgents(s: State, a: AgentId, n: NodeId, s': State, b: AgentId)
    requires ClaimMove(s, a, n, s') && b in s.agents && b != a && AgentOk(s, b) && ClaimsOk(s, b) && NodeOk(s, n)
    ensures AgentOk(s', b) && ClaimsOk(s', b)
  {
    SameTree(s, s');
    assert !HoldsBucket(s, b, s.bucketOf(n)) || !s'.nodes[n].dying;
  }

  lemma ClaimMoveKeepsSafe(s: State, a: AgentId, n: NodeId, s': State)
    requires Safe(s) && ClaimMove(s, a, n, s')
    requires AgentOk(s', a) && ClaimsOk(s', a) && NodeOk(s', n) && ListOk(s')
    requires a in s.agents && a in s'.agents
    requires forall m | m != n :: m in s'.reapList <==> m in s.reapList
    requires forall m | m != n :: m in Claims(s'.agents[a]) <==> m in Claims(s.agents[a])
    ensures Safe(s')
  {
    forall b | b in s'.agents ensures AgentOk(s', b) && ClaimsOk(s', b) {
      if b != a { ClaimMoveKeepsAgents(s, a, n, s', b); }
    }
    forall m | m in s'.nodes ensures NodeOk(s', m) {
      if m != n { assert NodeOk(s, m); }
    }
  }

  lemma TakeClaimHere(s: State, a: AgentId, n: NodeId, cold: bool, s': State)
    requires TakeClaimStep(s, a, n, cold, s') && AgentOk(s, a) && NodeOk(s, n) && s.nodes[n].claim == Unclaimed
    ensures ClaimMove(s, a, n, s') && AgentOk(s', a) && ClaimsOk(s', a) && NodeOk(s', n)
  {
  }

  lemma TakeClaimSafe(s: State, a: AgentId, n: NodeId, cold: bool, s': State)
    requires Safe(s) && TakeClaimStep(s, a, n, cold, s')
    ensures Safe(s')
  {
    assert AgentOk(s, a) && NodeOk(s, n);
    if s.nodes[n].claim != Unclaimed {
      if cold { MoveKeepsSafe(s, a, Cold); } else { SettleKeepsSafe(s, a); }
    } else {
      TakeClaimHere(s, a, n, cold, s');
      ClaimMoveKeepsSafe(s, a, n, s');
    }
  }

  lemma PushSafe(s: State, a: AgentId, n: NodeId, cold: bool, s': State)
    requires Safe(s) && PushStep(s, a, n, cold, s')
    ensures Safe(s')
  {
    assert AgentOk(s, a) && ClaimsOk(s, a) && NodeOk(s, n);
    assert Owns(s, a, Claims(s.agents[a])[0]);
    ClaimMoveKeepsSafe(s, a, n, s');
  }

  lemma FlagsKeepSafe(s: State, queued: bool, shuttingDown: bool, open: map<nat, NodeId>)
    requires Safe(s)
    ensures Safe(s.(queued := queued, shuttingDown := shuttingDown, open := open))
  {
    var s' := s.(queued := queued, shuttingDown := shuttingDown, open := open);
    SameTree(s, s');
    forall b | b in s'.agents ensures AgentOk(s', b) && ClaimsOk(s', b) { assert AgentOk(s, b) && ClaimsOk(s, b); }
    forall m | m in s'.nodes ensures NodeOk(s', m) { assert NodeOk(s, m); }
  }

  ghost predicate VcbMove(s: State, a: AgentId, pc: Pc, vcb: Option<AgentId>) {
    && (a in s.agents ==> Plain(s.agents[a]) && Claims(s.agents[a]) == Claims(pc))
    && (a !in s.agents ==> Claims(pc) == [])
    && (pc.Cold? || pc.WorkStart? || pc.WorkBatch? || pc.WorkTail?)
    && vcb == (if HoldsVcb(pc) then Some(a) else if s.vcb == Some(a) then None else s.vcb)
    && (HoldsVcb(pc) ==> s.vcb == None)
  }

  lemma VcbMoveKeepsAgent(s: State, a: AgentId, pc: Pc, vcb: Option<AgentId>, s': State, b: AgentId)
    requires VcbMove(s, a, pc, vcb) && s' == s.(agents := s.agents[a := pc], vcb := vcb)
    requires b in s'.agents && (b in s.agents ==> AgentOk(s, b) && ClaimsOk(s, b))
    ensures AgentOk(s', b) && ClaimsOk(s', b)
  {
    SameTree(s, s');
  }

  /** An agent arrives, or one takes or drops the VCB resource, at a position with no node of its own. */
  lemma VcbMoveKeepsSafe(s: State, a: AgentId, pc: Pc, vcb: Option<AgentId>)
    requires Safe(s) && VcbMove(s, a, pc, vcb)
    ensures Safe(s.(agents := s.agents[a := pc], vcb := vcb))
  {
    var s' := s.(agents := s.agents[a := pc], vcb := vcb);
    forall b | b in s'.agents ensures AgentOk(s', b) && ClaimsOk(s', b) { VcbMoveKeepsAgent(s, a, pc, vcb, s', b); }
    forall m | m in s'.nodes ensures NodeOk(s', m) { assert NodeOk(s, m); }
  }

  lemma KickSettles(s: State, a: AgentId)
    requires Safe(s) && KickOwedBy(s, a)
    ensures Safe(Settle(s, a, s.agents[a].Test? && s.agents[a].cold))
  {
    assert AgentOk(s, a);
    if s.agents[a].Test? && s.agents[a].cold { MoveKeepsSafe(s, a, Cold); } else { SettleKeepsSafe(s, a); }
  }

  lemma KickSafe(s: State, a: AgentId, w: AgentId, s': State)
    requires Safe(s) && KickStep(s, a, w, s')
    ensures Safe(s')
  {
    KickSettles(s, a);
    var t := Settle(s, a, s.agents[a].Test? && s.agents[a].cold);
    if s' != t {
      assert VcbMove(t, w, WorkStart, t.vcb) by { assert t.vcb != Some(w) || w in t.agents; }
      VcbMoveKeepsSafe(t, w, WorkStart, t.vcb);
      FlagsKeepSafe(t.(agents := t.agents[w := WorkStart]), true, t.shuttingDown, t.open);
    }
  }

  lemma EnterColdSafe(s: State, a: AgentId, s': State)
    requires Safe(s) && EnterCold(s, a, s')
    ensures Safe(s')
  {
    VcbMoveKeepsSafe(s, a, Cold, Some(a));
  }

  lemma LeaveColdSafe(s: State, a: AgentId, s': State)
    requires Safe(s) && LeaveCold(s, a, s')
    ensures Safe(s')
  {
    assert AgentOk(s, a);
    VcbMoveKeepsSafe(s, a, WorkTail, None);
    SettleKeepsSafe(s.(agents := s.agents[a := WorkTail], vcb := None), a);
    assert s.agents[a := WorkTail] - {a} == s.agents - {a};
  }

  /** While `a` holds the VCB resource without freeing anything, no node is dying. */
  lemma NoneDying(s: State, a: AgentId, n: NodeId)
    requires Safe(s) && s.vcb == Some(a) && !s.agents[a].WalkFree? && n in s.nodes
    ensures !s.nodes[n].dying
  {
    assert NodeOk(s, n);
    assert forall b | b in s.agents :: AgentOk(s, b);
  }

  lemma FilesHaveNoChildren(s: State, n: NodeId)
    requires Safe(s) && n in s.nodes && !s.nodes[n].isDir
    ensures !HasChild(s, n)
  {
    forall c ensures !ChildOf(s, c, n) {
      assert c in s.nodes ==> NodeOk(s, c);
    }
  }

  lemma ColdMoveHere(s: State, a: AgentId, n: NodeId, s': State)
    requires ColdMove(s, a, n, s') && AgentOk(s, a) && (n in s.nodes ==> !s.nodes[n].dying)
    ensures a in s'.agents && s' == Move(s, a, s'.agents[a]) && AgentOk(s', a)
    ensures Claims(s'.agents[a]) == Claims(s.agents[a]) && HoldsVcb(s'.agents[a])
  {
    if FreshRefused(s, a, n, s') {
      SameTree(s, s');
      assert Unseen(s', n, {});
    } else {
      assert s'.vcb == s.vcb && s'.nodes == s.nodes;
    }
  }

  lemma ColdMoveFrom(s: State, a: AgentId, n: NodeId, s': State)
    requires ColdMove(s, a, n, s') && AgentOk(s, a)
    ensures s.vcb == Some(a) && HoldsVcb(s.agents[a]) && Plain(s.agents[a])
  {
  }

  lemma ColdMoveSafe(s: State, a: AgentId, n: NodeId, s': State)
    requires Safe(s) && ColdMove(s, a, n, s')
    ensures Safe(s')
  {
    assert AgentOk(s, a);
    ColdMoveFrom(s, a, n, s');
    if n in s.nodes { NoneDying(s, a, n); }
    ColdMoveHere(s, a, n, s');
    MoveKeepsSafe(s, a, s'.agents[a]);
  }

  lemma DescendSafe(s: State, a: AgentId, d: NodeId, c: NodeId, s': State)
    requires Safe(s) && Descend(s, a, d, c, s')
    ensures Safe(s')
  {
    assert AgentOk(s, a);
    MoveKeepsSafe(s, a, ColdAt(c));
  }

  lemma WalkStopsSafe(s: State, a: AgentId, d: NodeId, k: Cont, s': State)
    requires Safe(s) && WalkStops(s, a, d, k, s')
    ensures Safe(s')
  {
    assert AgentOk(s, a);
    MoveKeepsSafe(s, a, Return(k));
  }

  lemma PublishKeepsAgent(s: State, a: AgentId, n: NodeId, s': State, b: AgentId)
    requires Publish(s, a, n, s') && AgentOk(s, a) && b in s.agents && AgentOk(s, b) && ClaimsOk(s, b)
    ensures AgentOk(s', b) && ClaimsOk(s', b)
  {
    SameTree(s, s');
  }

  lemma PublishSafe(s: State, a: AgentId, n: NodeId, s': State)
    requires Safe(s) && Publish(s, a, n, s')
    ensures Safe(s')
  {
    assert AgentOk(s, a) && NodeOk(s, n);
    forall b | b in s'.agents ensures AgentOk(s', b) && ClaimsOk(s', b) { PublishKeepsAgent(s, a, n, s', b); }
    forall m | m in s'.nodes ensures NodeOk(s', m) { assert NodeOk(s, m); }
  }

  lemma WalkRetiresHere(s: State, a: AgentId, d: NodeId, k: Cont, s': State)
    requires WalkRetires(s, a, d, k, s') && AgentOk(s, a) && ClaimsOk(s, a) && NodeOk(s, d)
    ensures AgentOk(s', a) && ClaimsOk(s', a) && NodeOk(s', d)
  {
    SameTree(s, s');
    var q := Claims(s.agents[a]);
    assert q == if k.ToBatch? then k.rest else [];
    assert Claims(s'.agents[a]) == [d] + q;
    assert forall j | 0 <= j < |q| :: Owns(s, a, q[j]) && q[j] != d;
  }

  lemma WalkRetiresSafe(s: State, a: AgentId, d: NodeId, k: Cont, s': State)
    requires Safe(s) && WalkRetires(s, a, d, k, s')
    ensures Safe(s')
  {
    assert AgentOk(s, a) && ClaimsOk(s, a) && NodeOk(s, d);
    WalkRetiresHere(s, a, d, k, s');
    ClaimMoveKeepsSafe(s, a, d, s');
  }

  /** What owning the claims of a batch says about its head and its rest. */
  lemma BatchSplit(s: State, a: AgentId, n: NodeId, rest: seq<NodeId>)
    requires a in s.agents && Claims(s.agents[a]) == [n] + rest && ClaimsOk(s, a)
    ensures Owns(s, a, n)
    ensures forall i | 0 <= i < |rest| :: Owns(s, a, rest[i]) && rest[i] != n
    ensures forall i, j | 0 <= i < j < |rest| :: rest[i] != rest[j]
    ensures forall m | m != n :: m in rest <==> m in Claims(s.agents[a])
  {
    var q := Claims(s.agents[a]);
    assert q[0] == n;
    assert forall i | 0 <= i < |rest| :: rest[i] == q[i + 1];
  }

  lemma ProcessIdleHere(s: State, a: AgentId, n: NodeId, rest: seq<NodeId>, s': State)
    requires ProcessIdle(s, a, n, rest, s') && AgentOk(s, a) && ClaimsOk(s, a) && NodeOk(s, n) && !HasChild(s, n)
    ensures AgentOk(s', a) && ClaimsOk(s', a) && NodeOk(s', n) && Claims(s'.agents[a]) == Claims(s.agents[a])
  {
    BatchSplit(s, a, n, rest);
    SameTree(s, s');
    assert Claims(s'.agents[a]) == Claims(s.agents[a]);
  }

  lemma ProcessIdleSafe(s: State, a: AgentId, n: NodeId, rest: seq<NodeId>, s': State)
    requires Safe(s) && ProcessIdle(s, a, n, rest, s')
    ensures Safe(s')
  {
    assert AgentOk(s, a) && ClaimsOk(s, a) && NodeOk(s, n);
    if !s.nodes[n].isDir { FilesHaveNoChildren(s, n); }
    BatchSplit(s, a, n, rest);
    ProcessIdleHere(s, a, n, rest, s');
    ClaimMoveKeepsSafe(s, a, n, s');
  }

  lemma ProcessBusyHere(s: State, a: AgentId, n: NodeId, rest: seq<NodeId>, s': State)
    requires ProcessBusy(s, a, n, rest, s') && AgentOk(s, a) && NodeOk(s, n) && !s.nodes[n].dying && s.nodes[n].claim == OwnedBy(a)
    ensures ClaimMove(s, a, n, s') && AgentOk(s', a) && NodeOk(s', n)
  {
    SameTree(s, s');
  }

  lemma ProcessBusySafe(s: State, a: AgentId, n: NodeId, rest: seq<NodeId>, s': State)
    requires Safe(s) && ProcessBusy(s, a, n, rest, s')
    ensures Safe(s')
  {
    assert AgentOk(s, a) && ClaimsOk(s, a) && NodeOk(s, n);
    BatchSplit(s, a, n, rest);
    NoneDying(s, a, n);
    ProcessBusyHere(s, a, n, rest, s');
    ClaimMoveKeepsSafe(s, a, n, s');
  }

  lemma TakeVcbSafe(s: State, a: AgentId, batch: seq<NodeId>, s': State)
    requires Safe(s) && TakeVcb(s, a, batch, s')
    ensures Safe(s')
  {
    VcbMoveKeepsSafe(s, a, WorkBatch(batch), Some(a));
  }

  lemma DropVcbSafe(s: State, a: AgentId, s': State)
    requires Safe(s) && DropVcb(s, a, s')
    ensures Safe(s')
  {
    assert AgentOk(s, a);
    VcbMoveKeepsSafe(s, a, WorkTail, None);
  }

  lemma TailSafe(s: State, a: AgentId, s': State)
    requires Safe(s) && TailStep(s, a, s')
    ensures Safe(s')
  {
    assert AgentOk(s, a);
    if s.reapList != [] {
      MoveKeepsSafe(s, a, WorkKick);
      FlagsKeepSafe(Move(s, a, WorkKick), false, s.shuttingDown, s.open);
    } else {
      SettleKeepsSafe(s, a);
      FlagsKeepSafe(s.(agents := s.agents - {a}), false, s.shuttingDown, s.open);
    }
  }

  lemma PopKeepsAgent(s: State, a: AgentId, s': State, b: AgentId)
    requires Pop(s, a, s') && s.reapList != [] && b in s.agents && AgentOk(s, b) && ClaimsOk(s, b) && ListOk(s)
    ensures AgentOk(s', b) && ClaimsOk(s', b)
  {
    SameTree(s, s');
    var q := Claims(s.agents[b]);
    forall i | b != a && 0 <= i < |q| ensures Owns(s', b, q[i]) { assert Owns(s, b, q[i]); }
  }

  lemma PopKeepsNode(s: State, a: AgentId, s': State, m: NodeId)
    requires Pop(s, a, s') && s.reapList != [] && m in s.nodes && NodeOk(s, m) && ListOk(s)
    ensures NodeOk(s', m)
  {
  }

  lemma PopSafe(s: State, a: AgentId, s': State)
    requires Safe(s) && Pop(s, a, s')
    ensures Safe(s')
  {
    assert AgentOk(s, a);
    if s.reapList == [] {
      MoveKeepsSafe(s, a, WorkTail);
    } else {
      forall b | b in s'.agents ensures AgentOk(s', b) && ClaimsOk(s', b) { PopKeepsAgent(s, a, s', b); }
      forall m | m in s'.nodes ensures NodeOk(s', m) { PopKeepsNode(s, a, s', m); }
    }
  }

  lemma NewHasNoChild(s: State, m: NodeId)
    requires Safe(s) && m !in s.nodes && m != ROOT
    ensures !HasChild(s, m)
  {
    forall c ensures !ChildOf(s, c, m) { assert c in s.nodes ==> NodeOk(s, c); }
  }

  lemma CreateKeepsAgent(s: State, a: AgentId, d: NodeId, m: NodeId, isDir: bool, last: bool, s': State, b: AgentId)
    requires CreateNode(s, a, d, m, isDir, last, s') && AgentOk(s, a) && b in s.agents && AgentOk(s, b) && ClaimsOk(s, b) && !HasChild(s, m)
    ensures AgentOk(s', b) && ClaimsOk(s', b)
  {
    forall e | HasChild(s', e) ensures HasChild(s, e) || e == d {
      var c :| ChildOf(s', c, e);
      assert ChildOf(s, c, e) || e == d;
    }
  }

  lemma CreateNodeSafe(s: State, a: AgentId, d: NodeId, m: NodeId, isDir: bool, last: bool, s': State)
    requires Safe(s) && CreateNode(s, a, d, m, isDir, last, s')
    ensures Safe(s')
  {
    assert AgentOk(s, a);
    NewHasNoChild(s, m);
    forall b | b in s'.agents ensures AgentOk(s', b) && ClaimsOk(s', b) {
      assert AgentOk(s, b) && ClaimsOk(s, b);
      CreateKeepsAgent(s, a, d, m, isDir, last, s', b);
    }
    forall n | n in s'.nodes ensures NodeOk(s', n) { if n != m { assert NodeOk(s, n); } }
  }

  lemma FreeKeepsAgent(s: State, a: AgentId, n: NodeId, k: Cont, s': State, b: AgentId)
    requires Free(s, a, n, k, s') && AgentOk(s, a) && NodeOk(s, n) && b in s.agents && b != a && AgentOk(s, b) && ClaimsOk(s, b)
    ensures AgentOk(s', b) && ClaimsOk(s', b)
  {
    forall d | HasChild(s', d) ensures HasChild(s, d) {
      var c :| ChildOf(s', c, d);
      assert ChildOf(s, c, d);
    }
    var q := Claims(s.agents[b]);
    forall i | 0 <= i < |q| ensures Owns(s', b, q[i]) { assert Owns(s, b, q[i]); }
  }

  lemma FreeKeepsOwner(s: State, a: AgentId, n: NodeId, k: Cont, s': State)
    requires Free(s, a, n, k, s') && AgentOk(s, a) && ClaimsOk(s, a) && NodeOk(s, n)
    ensures AgentOk(s', a) && ClaimsOk(s', a)
    ensures forall m | m != n :: m in Claims(s'.agents[a]) <==> m in Claims(s.agents[a])
  {
    assert !ChildOf(s, n, n);
    if k.ToBatch? {
      BatchSplit(s, a, n, k.rest);
    }
  }

  lemma FreeKeepsNode(s: State, a: AgentId, n: NodeId, k: Cont, s': State, m: NodeId)
    requires Free(s, a, n, k, s') && AgentOk(s, a) && ClaimsOk(s, a) && NodeOk(s, n) && m in s'.nodes && NodeOk(s, m)
    ensures NodeOk(s', m)
  {
    assert !ChildOf(s, m, n);
    FreeKeepsOwner(s, a, n, k, s');
  }

  lemma FreeKeepsList(s: State, a: AgentId, n: NodeId, k: Cont, s': State)
    requires Free(s, a, n, k, s') && AgentOk(s, a) && ClaimsOk(s, a) && NodeOk(s, n) && ListOk(s)
    ensures ListOk(s')
  {
  }

  lemma FreeSafe(s: State, a: AgentId, n: NodeId, k: Cont, s': State)
    requires Safe(s) && Free(s, a, n, k, s')
    ensures Safe(s')
  {
    assert AgentOk(s, a) && ClaimsOk(s, a) && NodeOk(s, n);
    forall b | b in s'.agents ensures AgentOk(s', b) && ClaimsOk(s', b) {
      assert AgentOk(s, b) && ClaimsOk(s, b);
      if b == a { FreeKeepsOwner(s, a, n, k, s'); } else { FreeKeepsAgent(s, a, n, k, s', b); }
    }
    forall m | m in s'.nodes ensures NodeOk(s', m) {
      assert NodeOk(s, m);
      FreeKeepsNode(s, a, n, k, s', m);
    }
    FreeKeepsList(s, a, n, k, s');
  }

  // ---- progress ----

  ghost predicate OthersStay(s: State, s': State, a: AgentId) {
    forall b | b in s.agents && b != a :: b in s'.agents && s'.agents[b] == s.agents[b]
  }

  lemma OwedElsewhere(s: State, s': State, a: AgentId, n: NodeId)
    requires OthersStay(s, s', a) && (a in s.agents ==> Owed(s.agents[a]) != n) && exists b :: OwedBy(s, b, n)
    ensures exists b :: OwedBy(s', b, n)
  {
    var b :| OwedBy(s, b, n);
    assert OwedBy(s', b, n);
  }

  /** Node `m` keeps its reasons to be held when nothing about it and nothing owed to it changes. */
  lemma StillHeld(s: State, s': State, a: AgentId, m: NodeId)
    requires OthersStay(s, s', a) && (a in s.agents ==> Owed(s.agents[a]) != m)
    requires m in s.nodes && m in s'.nodes && Held(s, m)
    requires s'.nodes[m].refs == s.nodes[m].refs && s'.nodes[m].pins == s.nodes[m].pins
    requires s.nodes[m].claim != Unclaimed ==> s'.nodes[m].claim != Unclaimed
    requires HasChild(s, m) ==> HasChild(s', m)
    ensures Held(s', m)
  {
    if exists b :: OwedBy(s, b, m) { OwedElsewhere(s, s', a, m); }
  }

  lemma StillServed(s: State, s': State, a: AgentId)
    requires ListServed(s) && OthersStay(s, s', a)
    requires s'.reapList == s.reapList && s'.queued == s.queued && s'.shuttingDown == s.shuttingDown
    requires KickOwedBy(s, a) ==> KickOwedBy(s', a)
    requires WorkerAt(s, a) ==> WorkerAt(s', a)
    ensures ListServed(s')
  {
    if s.reapList != [] && !s.queued && !s.shuttingDown {
      var b :| KickOwedBy(s, b);
      assert KickOwedBy(s', b);
    }
    if s.queued {
      var b :| WorkerAt(s, b);
      assert WorkerAt(s', b);
    }
  }

  /** A step that writes at most node `n` and moves agent `a`, which owed nothing but `n`. */
  lemma WriteKeepsProgress(s: State, a: AgentId, pc: Pc, n: NodeId, v: Node)
    requires Progress(s) && n in s.nodes && v.parent == s.nodes[n].parent
    requires a in s.agents ==> Owed(s.agents[a]) == n || Owed(s.agents[a]) == ROOT
    requires a in s.agents ==> !KickOwedBy(s, a) && (Working(s.agents[a]) ==> Working(pc))
    requires Held(Write(s, a, pc, n, v), n)
    ensures Progress(Write(s, a, pc, n, v))
  {
    var s' := Write(s, a, pc, n, v);
    SameTree(s, s');
    forall m | m in s'.nodes ensures Held(s', m) {
      if m != n { StillHeld(s, s', a, m); }
    }
    StillServed(s, s', a);
  }

  lemma HistoryKeepsProgress(s: State, open: map<nat, NodeId>)
    requires Progress(s)
    ensures Progress(s.(open := open))
  {
    var s' := s.(open := open);
    SameTree(s, s');
    forall m | m in s'.nodes ensures Held(s', m) {
      assert Held(s, m);
      if a :| OwedBy(s, a, m) { assert OwedBy(s', a, m); }
    }
    if a :| KickOwedBy(s, a) { assert KickOwedBy(s', a); }
    if a :| WorkerAt(s, a) { assert WorkerAt(s', a); }
  }

  /** A step that writes no node: `a`, if it stays, owed nothing but `n`. */
  lemma MoveKeepsProgress(s: State, s': State, a: AgentId, n: NodeId)
    requires Progress(s) && OthersStay(s, s', a) && s'.nodes == s.nodes
    requires a in s.agents ==> Owed(s.agents[a]) == n || Owed(s.agents[a]) == ROOT
    requires n in s.nodes ==> Held(s', n)
    ensures NoneStranded(s')
  {
    SameTree(s, s');
    forall m | m in s'.nodes ensures Held(s', m) {
      if m != n { StillHeld(s, s', a, m); }
    }
  }

  lemma OpenFailsProgress(s: State, a: AgentId, from: Pc, to: Pc, n: NodeId, s': State)
    requires Progress(s) && OpenFails(s, a, from, to, n, s') && AgentOk(s, a)
    ensures Progress(s')
  {
    assert to == Pinned(n) || OwedBy(s', a, n);
    WriteKeepsProgress(s, a, to, n, s'.nodes[n]);
  }

  lemma OpensProgress(s: State, a: AgentId, from: Pc, to: Pc, n: NodeId, h: nat, s': State)
    requires Progress(s) && (OpenBegins(s, a, from, to, n, s') || OpenSucceeds(s, a, from, to, n, h, s'))
    ensures Progress(s')
  {
    assert Opening(a) in s'.nodes[n].refs || Handle(h) in s'.nodes[n].refs;
    WriteKeepsProgress(s, a, to, n, s'.nodes[n]);
    HistoryKeepsProgress(Write(s, a, to, n, s'.nodes[n]), s'.open);
  }

  /** A pin or a reference is dropped, and the idle test is owed. */
  lemma DropProgress(s: State, a: AgentId, n: NodeId, h: nat, s': State)
    requires Progress(s) && (Unpin(s, a, n, s') || Close(s, a, n, h, s'))
    ensures Progress(s')
  {
    var t := Write(s, a, s'.agents[a], n, s'.nodes[n]);
    assert OwedBy(t, a, n);
    WriteKeepsProgress(s, a, s'.agents[a], n, s'.nodes[n]);
    HistoryKeepsProgress(t, s'.open);
  }

  lemma OpenCloseProgress(s: State, a: AgentId, s': State)
    requires Progress(s) && OpenCloseStep(s, a, s')
    requires a in s.agents ==> AgentOk(s, a) && ClaimsOk(s, a)
    ensures Progress(s')
  {
    if n :| LookupPin(s, a, n, s') {
      assert a in s'.nodes[n].pins;
      WriteKeepsProgress(s, a, Pinned(n), n, s'.nodes[n]);
    } else if from, to, n :| OpenBegins(s, a, from, to, n, s') {
      OpensProgress(s, a, from, to, n, 0, s');
    } else if from, to, n, h :| OpenSucceeds(s, a, from, to, n, h, s') {
      OpensProgress(s, a, from, to, n, h, s');
    } else if from, to, n :| OpenFails(s, a, from, to, n, s') {
      OpenFailsProgress(s, a, from, to, n, s');
    } else if n :| Unpin(s, a, n, s') {
      DropProgress(s, a, n, 0, s');
    } else {
      var n, h :| Close(s, a, n, h, s');
      DropProgress(s, a, n, h, s');
    }
  }

  /** A step that writes no node and leaves the reap list and its flags alone. */
  lemma StayKeepsProgress(s: State, s': State, a: AgentId, n: NodeId)
    requires Progress(s) && a in s.agents && !KickOwedBy(s, a)
    requires s' == s.(agents := s'.agents, vcb := s'.vcb)
    requires s'.agents == s.agents - {a} || (a in s'.agents && s'.agents == s.agents[a := s'.agents[a]])
    requires Owed(s.agents[a]) == n || Owed(s.agents[a]) == ROOT
    requires Working(s.agents[a]) ==> WorkerAt(s', a)
    requires n in s.nodes ==> Held(s', n)
    ensures Progress(s')
  {
    MoveKeepsProgress(s, s', a, n);
    StillServed(s, s', a);
  }

  lemma PushProgress(s: State, a: AgentId, n: NodeId, cold: bool, s': State)
    requires Progress(s) && PushStep(s, a, n, cold, s')
    ensures Progress(s')
  {
    SameTree(s, s');
    forall m | m in s'.nodes ensures Held(s', m) {
      if m != n { StillHeld(s, s', a, m); }
    }
    assert KickOwedBy(s', a);
    if s.queued {
      var b :| WorkerAt(s, b);
      assert WorkerAt(s', b);
    }
  }

  lemma KickProgress(s: State, a: AgentId, w: AgentId, s': State)
    requires Progress(s) && KickStep(s, a, w, s')
    ensures Progress(s')
  {
    MoveKeepsProgress(s, s', a, ROOT);
    if s.queued {
      var b :| WorkerAt(s, b);
      assert WorkerAt(s', b);
    } else if !s.shuttingDown {
      assert WorkerAt(s', w);
    }
  }

  lemma ReadProgress(s: State, a: AgentId, n: NodeId, cold: bool, s': State)
    requires Progress(s) && (ReadRefsStep(s, a, n, cold, s') || ReadPinsStep(s, a, n, cold, s'))
    ensures Progress(s')
  {
    assert s.nodes[n].refs != {} || s.nodes[n].pins != {} || OwedBy(s', a, n);
    StayKeepsProgress(s, s', a, n);
  }

  lemma TakeClaimProgress(s: State, a: AgentId, n: NodeId, cold: bool, s': State)
    requires Progress(s) && TakeClaimStep(s, a, n, cold, s')
    ensures Progress(s')
  {
    if s.nodes[n].claim != Unclaimed {
      StayKeepsProgress(s, s', a, n);
    } else {
      WriteKeepsProgress(s, a, Test(n, Push, cold), n, s'.nodes[n]);
    }
  }

  lemma DeferProgress(s: State, a: AgentId, s': State)
    requires Progress(s) && DeferStep(s, a, s')
    ensures Progress(s')
  {
    if n, cold :| ReadRefsStep(s, a, n, cold, s') {
      ReadProgress(s, a, n, cold, s');
    } else if n, cold :| ReadPinsStep(s, a, n, cold, s') {
      ReadProgress(s, a, n, cold, s');
    } else if n, cold :| TakeClaimStep(s, a, n, cold, s') {
      TakeClaimProgress(s, a, n, cold, s');
    } else if n, cold :| PushStep(s, a, n, cold, s') {
      PushProgress(s, a, n, cold, s');
    } else {
      var w :| KickStep(s, a, w, s');
      KickProgress(s, a, w, s');
    }
  }

  lemma CreateNodeProgress(s: State, a: AgentId, d: NodeId, m: NodeId, isDir: bool, last: bool, s': State)
    requires Progress(s) && CreateNode(s, a, d, m, isDir, last, s')
    ensures Progress(s')
  {
    assert OwedBy(s', a, m) && ChildOf(s', m, d);
    forall c, e | ChildOf(s, c, e) ensures ChildOf(s', c, e) {}
    forall n | n in s'.nodes ensures Held(s', n) {
      if n != m && n != d { StillHeld(s, s', a, n); }
    }
    StillServed(s, s', a);
  }

  lemma EnterColdProgress(s: State, a: AgentId, s': State)
    requires Progress(s) && EnterCold(s, a, s')
    ensures Progress(s')
  {
    MoveKeepsProgress(s, s', a, ROOT);
    StillServed(s, s', a);
  }

  lemma PublishProgress(s: State, a: AgentId, n: NodeId, s': State)
    requires Progress(s) && Publish(s, a, n, s')
    ensures Progress(s')
  {
    SameTree(s, s');
    StillHeld(s, s', a, n);
    WriteKeepsProgress(s, a, Cold, n, s'.nodes[n]);
  }

  lemma DescendProgress(s: State, a: AgentId, d: NodeId, c: NodeId, s': State)
    requires Progress(s) && Descend(s, a, d, c, s')
    ensures Progress(s')
  {
    assert ChildOf(s', c, d);
    StayKeepsProgress(s, s', a, d);
  }

  lemma ColdMoveProgress(s: State, a: AgentId, n: NodeId, s': State)
    requires Progress(s) && ColdMove(s, a, n, s')
    ensures Progress(s')
  {
    var m := Owed(s.agents[a]);
    if m != ROOT { assert OwedBy(s', a, m); }
    StayKeepsProgress(s, s', a, m);
  }

  lemma CreateProgress(s: State, a: AgentId, s': State)
    requires Progress(s) && CreateStep(s, a, s')
    ensures Progress(s')
  {
    if EnterCold(s, a, s') {
      EnterColdProgress(s, a, s');
    } else if n :| Publish(s, a, n, s') {
      PublishProgress(s, a, n, s');
    } else if d, c :| Descend(s, a, d, c, s') {
      DescendProgress(s, a, d, c, s');
    } else if d, m, isDir, last :| CreateNode(s, a, d, m, isDir, last, s') {
      CreateNodeProgress(s, a, d, m, isDir, last, s');
    } else if LeaveCold(s, a, s') {
      StayKeepsProgress(s, s', a, ROOT);
    } else {
      var n :| ColdMove(s, a, n, s');
      ColdMoveProgress(s, a, n, s');
    }
  }

  lemma FreeProgress(s: State, a: AgentId, n: NodeId, k: Cont, s': State)
    requires Progress(s) && Free(s, a, n, k, s')
    ensures Progress(s')
  {
    var d := s.nodes[n].parent;
    assert OwedBy(s', a, d);
    forall m | m in s'.nodes ensures Held(s', m) {
      if m != d {
        if HasChild(s, m) {
          var c :| ChildOf(s, c, m);
          assert ChildOf(s', c, m);
        }
        StillHeld(s, s', a, m);
      }
    }
    StillServed(s, s', a);
  }

  lemma WalkStopsProgress(s: State, a: AgentId, d: NodeId, k: Cont, s': State)
    requires Progress(s) && WalkStops(s, a, d, k, s')
    requires a in s.agents ==> AgentOk(s, a) && ClaimsOk(s, a)
    ensures Progress(s')
  {
    SameTree(s, s');
    StayKeepsProgress(s, s', a, d);
  }

  lemma PopProgress(s: State, a: AgentId, s': State)
    requires Progress(s) && Pop(s, a, s')
    ensures Progress(s')
  {
    if s.reapList == [] {
      StayKeepsProgress(s, s', a, ROOT);
    } else {
      SameTree(s, s');
      forall m | m in s'.nodes ensures Held(s', m) { StillHeld(s, s', a, m); }
      assert WorkerAt(s', a);
    }
  }

  lemma BatchProgress(s: State, a: AgentId, n: NodeId, rest: seq<NodeId>, s': State)
    requires Progress(s) && (ProcessIdle(s, a, n, rest, s') || ProcessBusy(s, a, n, rest, s'))
    requires a in s.agents ==> AgentOk(s, a) && ClaimsOk(s, a)
    ensures Progress(s')
  {
    BatchSplit(s, a, n, rest);
    SameTree(s, s');
    WriteKeepsProgress(s, a, s'.agents[a], n, s'.nodes[n]);
  }

  lemma TailProgress(s: State, a: AgentId, s': State)
    requires Progress(s) && TailStep(s, a, s')
    ensures Progress(s')
  {
    MoveKeepsProgress(s, s', a, ROOT);
    if s.reapList != [] { assert KickOwedBy(s', a); }
  }

  lemma ReapProgress(s: State, a: AgentId, s': State)
    requires Progress(s) && ReapStep(s, a, s')
    requires a in s.agents ==> AgentOk(s, a) && ClaimsOk(s, a)
    ensures Progress(s')
  {
    if n, k :| Free(s, a, n, k, s') {
      FreeProgress(s, a, n, k, s');
    } else if d, k :| WalkStops(s, a, d, k, s') {
      WalkStopsProgress(s, a, d, k, s');
    } else if d, k :| WalkRetires(s, a, d, k, s') {
      WriteKeepsProgress(s, a, WalkFree(d, k), d, s'.nodes[d]);
    } else if Pop(s, a, s') {
      PopProgress(s, a, s');
    } else if n, rest :| ProcessIdle(s, a, n, rest, s') {
      BatchProgress(s, a, n, rest, s');
    } else if n, rest :| ProcessBusy(s, a, n, rest, s') {
      BatchProgress(s, a, n, rest, s');
    } else if TailStep(s, a, s') {
      TailProgress(s, a, s');
    } else {
      StayKeepsProgress(s, s', a, ROOT);
    }
  }

  lemma LatchProgress(s: State, s': State)
    requires Safe(s) && Progress(s) && Latch(s, s')
    ensures Safe(s') && Progress(s')
  {
    FlagsKeepSafe(s, s.queued, true, s.open);
    SameTree(s, s');
    forall m | m in s'.nodes ensures Held(s', m) {
      assert Held(s, m);
      if a :| OwedBy(s, a, m) { assert OwedBy(s', a, m); }
    }
    if s.queued {
      var b :| WorkerAt(s, b);
      assert WorkerAt(s', b);
    }
  }

  // ---- whole runs ----

  lemma OpenCloseSafe(s: State, a: AgentId, s': State)
    requires Safe(s) && HandlesOk(s) && OpenCloseStep(s, a, s')
    ensures Safe(s')
  {
    if n :| LookupPin(s, a, n, s') {
      LookupPinSafe(s, a, n, s');
    } else if from, to, n :| OpenBegins(s, a, from, to, n, s') {
      OpenBeginsSafe(s, a, from, to, n, s');
    } else if from, to, n, h :| OpenSucceeds(s, a, from, to, n, h, s') {
      OpenSucceedsSafe(s, a, from, to, n, h, s');
    } else if from, to, n :| OpenFails(s, a, from, to, n, s') {
      OpenFailsSafe(s, a, from, to, n, s');
    } else if n :| Unpin(s, a, n, s') {
      UnpinSafe(s, a, n, s');
    } else {
      var n, h :| Close(s, a, n, h, s');
      CloseSafe(s, a, n, h, s');
    }
  }

  lemma DeferSafe(s: State, a: AgentId, s': State)
    requires Safe(s) && DeferStep(s, a, s')
    ensures Safe(s')
  {
    if n, cold :| ReadRefsStep(s, a, n, cold, s') {
      ReadSafe(s, a, n, cold, s');
    } else if n, cold :| ReadPinsStep(s, a, n, cold, s') {
      ReadSafe(s, a, n, cold, s');
    } else if n, cold :| TakeClaimStep(s, a, n, cold, s') {
      TakeClaimSafe(s, a, n, cold, s');
    } else if n, cold :| PushStep(s, a, n, cold, s') {
      PushSafe(s, a, n, cold, s');
    } else {
      var w :| KickStep(s, a, w, s');
      KickSafe(s, a, w, s');
    }
  }

  lemma CreateSafe(s: State, a: AgentId, s': State)
    requires Safe(s) && CreateStep(s, a, s')
    ensures Safe(s')
  {
    if EnterCold(s, a, s') {
      EnterColdSafe(s, a, s');
    } else if LeaveCold(s, a, s') {
      LeaveColdSafe(s, a, s');
    } else if n :| Publish(s, a, n, s') {
      PublishSafe(s, a, n, s');
    } else if d, c :| Descend(s, a, d, c, s') {
      DescendSafe(s, a, d, c, s');
    } else if d, m, isDir, last :| CreateNode(s, a, d, m, isDir, last, s') {
      CreateNodeSafe(s, a, d, m, isDir, last, s');
    } else {
      var n :| ColdMove(s, a, n, s');
      ColdMoveSafe(s, a, n, s');
    }
  }

  lemma ReapSafe(s: State, a: AgentId, s': State)
    requires Safe(s) && ReapStep(s, a, s')
    ensures Safe(s')
  {
    if n, k :| Free(s, a, n, k, s') {
      FreeSafe(s, a, n, k, s');
    } else if d, k :| WalkStops(s, a, d, k, s') {
      WalkStopsSafe(s, a, d, k, s');
    } else if d, k :| WalkRetires(s, a, d, k, s') {
      WalkRetiresSafe(s, a, d, k, s');
    } else if Pop(s, a, s') {
      PopSafe(s, a, s');
    } else if n, rest :| ProcessIdle(s, a, n, rest, s') {
      ProcessIdleSafe(s, a, n, rest, s');
    } else if n, rest :| ProcessBusy(s, a, n, rest, s') {
      ProcessBusySafe(s, a, n, rest, s');
    } else if TailStep(s, a, s') {
      TailSafe(s, a, s');
    } else if DropVcb(s, a, s') {
      DropVcbSafe(s, a, s');
    } else {
      var batch :| TakeVcb(s, a, batch, s');
      TakeVcbSafe(s, a, batch, s');
    }
  }

  // ---- handles, and what a lookup finds ----

  predicate Publishing(s: State, a: AgentId) {
    a in s.agents && s.agents[a].ColdPublish?
  }

  lemma StillPublishing(s: State, s': State, a: AgentId, n: NodeId)
    requires OthersStay(s, s', a) && !At(s, a, ColdPublish(n)) && exists b :: At(s, b, ColdPublish(n))
    ensures exists b :: At(s', b, ColdPublish(n))
  {
    var b :| At(s, b, ColdPublish(n));
    assert At(s', b, ColdPublish(n));
  }

  /** A step that writes no node and is not the publication owed to one. */
  lemma MoveKept(s: State, s': State, a: AgentId)
    requires Kept(s) && s'.nodes == s.nodes && s'.open == s.open && OthersStay(s, s', a) && !Publishing(s, a)
    ensures Kept(s')
  {
    forall n | n in s'.nodes && s'.nodes[n].shown && !s'.nodes[n].dying ensures s'.nodes[n].linked || exists b :: At(s', b, ColdPublish(n)) {
      if !s.nodes[n].linked { StillPublishing(s, s', a, n); }
    }
  }

  /** The node a step writes is as easily found as before. */
  predicate StaysFindable(s: State, a: AgentId, n: NodeId, s': State)
    requires n in s.nodes && n in s'.nodes
  {
    var v, v' := s.nodes[n], s'.nodes[n];
    v'.shown && !v'.dying ==> v'.linked || At(s', a, ColdPublish(n)) || (v.shown && !v.dying && !v.linked && !At(s, a, ColdPublish(n)))
  }

  /** A step that writes node `n` alone, and owes publication to no other. */
  lemma WriteFindable(s: State, s': State, a: AgentId, n: NodeId)
    requires Findable(s) && OthersStay(s, s', a) && (Publishing(s, a) ==> s.agents[a].n == n)
    requires n in s.nodes && n in s'.nodes && s'.nodes == s.nodes[n := s'.nodes[n]] && StaysFindable(s, a, n, s')
    ensures Findable(s')
  {
    forall m | m in s'.nodes && s'.nodes[m].shown && !s'.nodes[m].dying ensures s'.nodes[m].linked || exists b :: At(s', b, ColdPublish(m)) {
      if !s'.nodes[m].linked && !At(s', a, ColdPublish(m)) { StillPublishing(s, s', a, m); }
    }
  }

  lemma WriteKept(s: State, s': State, a: AgentId, n: NodeId)
    requires Kept(s) && OthersStay(s, s', a) && (Publishing(s, a) ==> s.agents[a].n == n) && s'.open == s.open
    requires n in s.nodes && n in s'.nodes && s'.nodes == s.nodes[n := s'.nodes[n]] && StaysFindable(s, a, n, s')
    requires (s.nodes[n].shown ==> s'.nodes[n].shown) && forall h :: Handle(h) in s'.nodes[n].refs <==> Handle(h) in s.nodes[n].refs
    ensures Kept(s')
  {
    WriteFindable(s, s', a, n);
  }

  lemma OpenSucceedsKept(s: State, a: AgentId, from: Pc, to: Pc, n: NodeId, h: nat, s': State)
    requires Kept(s) && OpenSucceeds(s, a, from, to, n, h, s') && AgentOk(s, a) && NodeOk(s, n)
    ensures Kept(s')
  {
    WriteFindable(s, s', a, n);
    assert Handle(h) in s'.nodes[n].refs;
  }

  lemma CloseKept(s: State, a: AgentId, n: NodeId, h: nat, s': State)
    requires Kept(s) && Close(s, a, n, h, s')
    ensures Kept(s')
  {
    WriteFindable(s, s', a, n);
  }

  lemma PinKept(s: State, a: AgentId, n: NodeId, s': State)
    requires Kept(s) && (LookupPin(s, a, n, s') || Unpin(s, a, n, s'))
    ensures Kept(s')
  {
    WriteKept(s, s', a, n);
  }

  lemma RaiseKept(s: State, a: AgentId, from: Pc, to: Pc, n: NodeId, s': State)
    requires Kept(s) && (OpenBegins(s, a, from, to, n, s') || OpenFails(s, a, from, to, n, s'))
    ensures Kept(s')
  {
    WriteKept(s, s', a, n);
  }

  lemma ReadKept(s: State, a: AgentId, n: NodeId, cold: bool, s': State)
    requires Kept(s) && (ReadRefsStep(s, a, n, cold, s') || ReadPinsStep(s, a, n, cold, s'))
    ensures Kept(s')
  {
    MoveKept(s, s', a);
  }

  lemma ClaimKept(s: State, a: AgentId, n: NodeId, cold: bool, s': State)
    requires Kept(s) && (TakeClaimStep(s, a, n, cold, s') || PushStep(s, a, n, cold, s'))
    ensures Kept(s')
  {
    WriteKept(s, s', a, n);
  }

  lemma KickKept(s: State, a: AgentId, w: AgentId, s': State)
    requires Kept(s) && KickStep(s, a, w, s')
    ensures Kept(s')
  {
    MoveKept(s, s', a);
  }

  lemma ColdMoveKept(s: State, a: AgentId, n: NodeId, s': State)
    requires Kept(s) && ColdMove(s, a, n, s')
    ensures Kept(s')
  {
    MoveKept(s, s', a);
  }

  lemma PublishKept(s: State, a: AgentId, n: NodeId, s': State)
    requires Kept(s) && Publish(s, a, n, s')
    ensures Kept(s')
  {
    WriteKept(s, s', a, n);
  }

  lemma RetireKept(s: State, a: AgentId, n: NodeId, k: Cont, s': State)
    requires Kept(s) && WalkRetires(s, a, n, k, s')
    ensures Kept(s')
  {
    WriteKept(s, s', a, n);
  }

  lemma ProcessKept(s: State, a: AgentId, n: NodeId, rest: seq<NodeId>, s': State)
    requires Kept(s) && (ProcessIdle(s, a, n, rest, s') || ProcessBusy(s, a, n, rest, s'))
    ensures Kept(s')
  {
    WriteKept(s, s', a, n);
  }

  lemma OpenCloseKept(s: State, a: AgentId, s': State)
    requires Safe(s) && Kept(s) && OpenCloseStep(s, a, s')
    ensures Kept(s')
  {
    if n :| LookupPin(s, a, n, s') {
      PinKept(s, a, n, s');
    } else if from, to, n :| OpenBegins(s, a, from, to, n, s') {
      RaiseKept(s, a, from, to, n, s');
    } else if from, to, n, h :| OpenSucceeds(s, a, from, to, n, h, s') {
      assert AgentOk(s, a) && NodeOk(s, n);
      OpenSucceedsKept(s, a, from, to, n, h, s');
    } else if from, to, n :| OpenFails(s, a, from, to, n, s') {
      RaiseKept(s, a, from, to, n, s');
    } else if n :| Unpin(s, a, n, s') {
      PinKept(s, a, n, s');
    } else {
      var n, h :| Close(s, a, n, h, s');
      CloseKept(s, a, n, h, s');
    }
  }

  lemma DeferKept(s: State, a: AgentId, s': State)
    requires Kept(s) && DeferStep(s, a, s')
    ensures Kept(s')
  {
    if n, cold :| PushStep(s, a, n, cold, s') {
      ClaimKept(s, a, n, cold, s');
    } else if n, cold :| TakeClaimStep(s, a, n, cold, s') {
      ClaimKept(s, a, n, cold, s');
    } else if w :| KickStep(s, a, w, s') {
      KickKept(s, a, w, s');
    } else {
      var n, cold :| ReadRefsStep(s, a, n, cold, s') || ReadPinsStep(s, a, n, cold, s');
      ReadKept(s, a, n, cold, s');
    }
  }

  lemma CreateNodeKept(s: State, a: AgentId, d: NodeId, m: NodeId, isDir: bool, last: bool, s': State)
    requires Kept(s) && CreateNode(s, a, d, m, isDir, last, s')
    ensures Kept(s')
  {
    forall n | n in s'.nodes && s'.nodes[n].shown && !s'.nodes[n].dying ensures s'.nodes[n].linked || exists b :: At(s', b, ColdPublish(n)) {
      if !s.nodes[n].linked { StillPublishing(s, s', a, n); }
    }
  }

  lemma CreateKept(s: State, a: AgentId, s': State)
    requires Kept(s) && CreateStep(s, a, s')
    ensures Kept(s')
  {
    if d, m, isDir, last :| CreateNode(s, a, d, m, isDir, last, s') {
      CreateNodeKept(s, a, d, m, isDir, last, s');
    } else if n :| Publish(s, a, n, s') {
      PublishKept(s, a, n, s');
    } else if n :| ColdMove(s, a, n, s') {
      ColdMoveKept(s, a, n, s');
    } else {
      MoveKept(s, s', a);
    }
  }

  lemma FreeKept(s: State, a: AgentId, n: NodeId, k: Cont, s': State)
    requires Kept(s) && Idle(s, n) && Free(s, a, n, k, s')
    ensures Kept(s')
  {
    forall m | m in s'.nodes && s'.nodes[m].shown && !s'.nodes[m].dying ensures s'.nodes[m].linked || exists b :: At(s', b, ColdPublish(m)) {
      if !s.nodes[m].linked { StillPublishing(s, s', a, m); }
    }
  }

  lemma PopKept(s: State, a: AgentId, s': State)
    requires Kept(s) && Pop(s, a, s')
    ensures Kept(s')
  {
    forall m | m in s'.nodes && s'.nodes[m].shown && !s'.nodes[m].dying ensures s'.nodes[m].linked || exists b :: At(s', b, ColdPublish(m)) {
      if !s.nodes[m].linked { StillPublishing(s, s', a, m); }
    }
  }

  ghost predicate ReapMove(s: State, a: AgentId, s': State) {
    || (exists d, k :: WalkStops(s, a, d, k, s'))
    || (exists batch :: TakeVcb(s, a, batch, s'))
    || DropVcb(s, a, s')
    || TailStep(s, a, s')
  }

  lemma ReapMoveKept(s: State, a: AgentId, s': State)
    requires Kept(s) && ReapMove(s, a, s')
    ensures Kept(s')
  {
    MoveKept(s, s', a);
  }

  lemma ReapKept(s: State, a: AgentId, s': State)
    requires Safe(s) && Kept(s) && ReapStep(s, a, s')
    ensures Kept(s')
  {
    if n, k :| Free(s, a, n, k, s') {
      FreeIsIdle(s, a, n, k, s');
      FreeKept(s, a, n, k, s');
    } else if d, k :| WalkRetires(s, a, d, k, s') {
      RetireKept(s, a, d, k, s');
    } else if n, rest :| ProcessIdle(s, a, n, rest, s') {
      ProcessKept(s, a, n, rest, s');
    } else if n, rest :| ProcessBusy(s, a, n, rest, s') {
      ProcessKept(s, a, n, rest, s');
    } else if Pop(s, a, s') {
      PopKept(s, a, s');
    } else {
      ReapMoveKept(s, a, s');
    }
  }

  lemma LatchKept(s: State, s': State)
    requires Kept(s) && Latch(s, s')
    ensures Kept(s')
  {
    forall m | m in s'.nodes && s'.nodes[m].shown && !s'.nodes[m].dying ensures s'.nodes[m].linked || exists b :: At(s', b, ColdPublish(m)) {
      if b :| At(s, b, ColdPublish(m)) { assert At(s', b, ColdPublish(m)); }
    }
  }

  lemma StepKeepsInv(s: State, a: AgentId, s': State)
    requires Inv(s) && Next(s, a, s')
    ensures Inv(s')
  {
    assert a in s.agents ==> AgentOk(s, a) && ClaimsOk(s, a);
    if OpenCloseStep(s, a, s') {
      OpenCloseSafe(s, a, s');
      OpenCloseProgress(s, a, s');
      OpenCloseKept(s, a, s');
    } else if DeferStep(s, a, s') {
      DeferSafe(s, a, s');
      DeferProgress(s, a, s');
      DeferKept(s, a, s');
    } else if CreateStep(s, a, s') {
      CreateSafe(s, a, s');
      CreateProgress(s, a, s');
      CreateKept(s, a, s');
    } else if ReapStep(s, a, s') {
      ReapSafe(s, a, s');
      ReapProgress(s, a, s');
      ReapKept(s, a, s');
    } else {
      LatchProgress(s, s');
      LatchKept(s, s');
    }
  }

  /** What a node looks like at the moment it is freed. */
  ghost predicate Idle(s: State, n: NodeId) {
    n in s.nodes && s.nodes[n].refs == {} && s.nodes[n].pins == {} && !s.nodes[n].linked && !HasChild(s, n)
  }

  /** What one step does to the tree: nothing, one new leaf, or one idle node gone. */
  datatype TreeChange = Same | Added(m: NodeId) | Removed(n: NodeId)

  ghost predicate Changes(s: State, s': State, t: TreeChange) {
    match t
    case Same =>
      s'.freed == s.freed && s'.nodes.Keys == s.nodes.Keys && (forall n | n in s.nodes :: s'.nodes[n].parent == s.nodes[n].parent)
    case Added(m) =>
      s'.freed == s.freed && m in s'.nodes && s'.nodes[m].parent < m && s.nodes == s'.nodes - {m} && m !in s.freed
    case Removed(n) =>
      s'.freed == s.freed + {n} && s'.nodes == s.nodes - {n} && Idle(s, n)
  }

  lemma OneNodeWritten(s: State, s': State, n: NodeId)
    requires n in s.nodes && n in s'.nodes && s'.freed == s.freed
    requires s'.nodes == s.nodes[n := s'.nodes[n]] && s'.nodes[n].parent == s.nodes[n].parent
    ensures Changes(s, s', Same)
  {
  }

  lemma OpenCloseChanges(s: State, a: AgentId, s': State)
    requires OpenCloseStep(s, a, s')
    ensures Changes(s, s', Same)
  {
    if n :| LookupPin(s, a, n, s') {
      OneNodeWritten(s, s', n);
    } else if from, to, n :| OpenBegins(s, a, from, to, n, s') {
      OneNodeWritten(s, s', n);
    } else if from, to, n, h :| OpenSucceeds(s, a, from, to, n, h, s') {
      OneNodeWritten(s, s', n);
    } else if from, to, n :| OpenFails(s, a, from, to, n, s') {
      OneNodeWritten(s, s', n);
    } else if n :| Unpin(s, a, n, s') {
      OneNodeWritten(s, s', n);
    } else {
      var n, h :| Close(s, a, n, h, s');
      OneNodeWritten(s, s', n);
    }
  }

  lemma DeferChanges(s: State, a: AgentId, s': State)
    requires DeferStep(s, a, s')
    ensures Changes(s, s', Same)
  {
    if n, cold :| PushStep(s, a, n, cold, s') {
      OneNodeWritten(s, s', n);
    } else if n, cold :| TakeClaimStep(s, a, n, cold, s') {
      if s.nodes[n].claim == Unclaimed { OneNodeWritten(s, s', n); }
    } else if w :| KickStep(s, a, w, s') {
      assert s'.nodes == s.nodes && s'.freed == s.freed;
    } else {
      var n, cold :| ReadRefsStep(s, a, n, cold, s') || ReadPinsStep(s, a, n, cold, s');
      ReadChangesNothing(s, a, n, cold, s');
    }
  }

  lemma ReadChangesNothing(s: State, a: AgentId, n: NodeId, cold: bool, s': State)
    requires ReadRefsStep(s, a, n, cold, s') || ReadPinsStep(s, a, n, cold, s')
    ensures s'.nodes == s.nodes && s'.freed == s.freed
  {
  }

  lemma CreateChanges(s: State, a: AgentId, s': State) returns (t: TreeChange)
    requires CreateStep(s, a, s')
    ensures Changes(s, s', t)
  {
    t := Same;
    if d, m, isDir, last :| CreateNode(s, a, d, m, isDir, last, s') {
      t := Added(m);
      assert s'.nodes - {m} == s.nodes;
    } else if n :| Publish(s, a, n, s') {
      OneNodeWritten(s, s', n);
    } else {
      assert s'.nodes == s.nodes && s'.freed == s.freed;
    }
  }

  lemma FreeIsIdle(s: State, a: AgentId, n: NodeId, k: Cont, s': State)
    requires Safe(s) && Free(s, a, n, k, s')
    ensures Idle(s, n)
  {
    assert AgentOk(s, a) && NodeOk(s, n);
  }

  lemma ReapChanges(s: State, a: AgentId, s': State)
    requires ReapStep(s, a, s') && !exists n, k :: Free(s, a, n, k, s')
    ensures Changes(s, s', Same)
  {
    if d, k :| WalkRetires(s, a, d, k, s') {
      OneNodeWritten(s, s', d);
    } else if n, rest :| ProcessIdle(s, a, n, rest, s') {
      OneNodeWritten(s, s', n);
    } else if n, rest :| ProcessBusy(s, a, n, rest, s') {
      OneNodeWritten(s, s', n);
    } else if Pop(s, a, s') {
      assert s'.nodes.Keys == s.nodes.Keys;
    } else {
      assert s'.nodes == s.nodes && s'.freed == s.freed;
    }
  }

  lemma StepChanges(s: State, a: AgentId, s': State) returns (t: TreeChange)
    requires Safe(s) && Next(s, a, s')
    ensures Changes(s, s', t)
  {
    if OpenCloseStep(s, a, s') {
      OpenCloseChanges(s, a, s');
      t := Same;
    } else if DeferStep(s, a, s') {
      DeferChanges(s, a, s');
      t := Same;
    } else if CreateStep(s, a, s') {
      t := CreateChanges(s, a, s');
    } else if n, k :| Free(s, a, n, k, s') {
      FreeIsIdle(s, a, n, k, s');
      t := Removed(n);
    } else if ReapStep(s, a, s') {
      ReapChanges(s, a, s');
      t := Same;
    } else {
      t := Same;
    }
  }

  // ---- main results ----

  ghost predicate Init(s: State) {
    s.nodes == map[] && s.freed == {} && s.agents == map[] && s.vcb == None && s.reapList == [] && !s.queued && !s.shuttingDown &&
    s.open == map[]
  }

  ghost predicate Steps(s: State, s': State) {
    exists a :: Next(s, a, s')
  }

  ghost predicate StepAt(r: seq<State>, i: nat) {
    i + 1 < |r| && Steps(r[i], r[i + 1])
  }

  /** A run: any interleaving of the agents' steps, from an empty volume. */
  ghost predicate Run(r: seq<State>) {
    |r| > 0 && Init(r[0]) && forall i | 0 <= i < |r| - 1 :: StepAt(r, i)
  }

  lemma InitInv(s: State)
    requires Init(s)
    ensures Inv(s) && Ordered(s)
  {
  }

  lemma ChangesKeepOrdered(s: State, s': State, t: TreeChange)
    requires Ordered(s) && Changes(s, s', t)
    ensures Ordered(s')
  {
    forall n | n in s'.nodes ensures s'.nodes[n].parent < n {
      assert n in s.nodes ==> s.nodes[n].parent < n;
    }
  }

  lemma StepsKeepOrdered(s: State, s': State)
    requires Safe(s) && Ordered(s) && Steps(s, s')
    ensures Ordered(s')
  {
    var a :| Next(s, a, s');
    var t := StepChanges(s, a, s');
    ChangesKeepOrdered(s, s', t);
  }

  lemma StepsKeepInv(s: State, s': State)
    requires Inv(s) && Steps(s, s')
    ensures Inv(s')
  {
    var a :| Next(s, a, s');
    StepKeepsInv(s, a, s');
  }

  lemma {:induction false} RunKeepsInv(r: seq<State>, i: nat)
    requires Run(r) && i < |r|
    ensures Inv(r[i]) && Ordered(r[i])
    decreases i
  {
    if i == 0 {
      InitInv(r[0]);
    } else {
      RunKeepsInv(r, i - 1);
      assert StepAt(r, i - 1);
      StepsKeepInv(r[i - 1], r[i]);
      StepsKeepOrdered(r[i - 1], r[i]);
    }
  }

  /** The nodes an agent at `pc` holds pointers to and goes on to read, write or free. */
  function Touches(pc: Pc): seq<NodeId> {
    match pc
    case Pinned(n) => [n]
    case WarmOpening(n) => [n]
    case Test(n, stage, _) => if stage == Kick then [] else [n]
    case ColdOpening(n, _) => [n]
    case ColdPublish(n) => [n]
    case ColdRetest(n) => [n]
    case ColdAt(d) => [d]
    case ColdFresh(n) => [n]
    case ColdDiscard(n) => [n]
    case Walk(d, k) => [d] + (if k.ToBatch? then k.rest else [])
    case WalkFree(n, k) => [n] + (if k.ToBatch? then k.rest else [])
    case WorkWait(batch) => batch
    case WorkBatch(batch) => batch
    case _ => []
  }

  predicate Live(s: State, n: NodeId) {
    n == ROOT || (n in s.nodes && n !in s.freed)
  }

  lemma AgentTouchesLive(s: State, a: AgentId, i: nat)
    requires Safe(s) && a in s.agents && i < |Touches(s.agents[a])|
    ensures Live(s, Touches(s.agents[a])[i])
  {
    assert AgentOk(s, a) && ClaimsOk(s, a);
    var q := Claims(s.agents[a]);
    var n := Touches(s.agents[a])[i];
    assert (forall j | 0 <= j < |q| :: q[j] in s.nodes) by { assert forall j | 0 <= j < |q| :: Owns(s, a, q[j]); }
    assert n in q || n in s.nodes || n == ROOT;
  }

  /** In every run, whatever an agent, the reap list or a node's parent link points to is live. */
  lemma NoUseAfterFree(r: seq<State>, i: nat)
    requires Run(r) && i < |r|
    ensures forall a, j | a in r[i].agents && 0 <= j < |Touches(r[i].agents[a])| :: Live(r[i], Touches(r[i].agents[a])[j])
    ensures forall j | 0 <= j < |r[i].reapList| :: Live(r[i], r[i].reapList[j])
    ensures forall n | n in r[i].nodes :: Live(r[i], r[i].nodes[n].parent)
  {
    RunKeepsInv(r, i);
    var s := r[i];
    forall a, j | a in s.agents && 0 <= j < |Touches(s.agents[a])| ensures Live(s, Touches(s.agents[a])[j]) {
      AgentTouchesLive(s, a, j);
    }
    forall n | n in s.nodes ensures Live(s, s.nodes[n].parent) { assert NodeOk(s, n); }
  }

  lemma RunChanges(r: seq<State>, i: nat) returns (t: TreeChange)
    requires Run(r) && i + 1 < |r|
    ensures Changes(r[i], r[i + 1], t)
  {
    RunKeepsInv(r, i);
    assert StepAt(r, i);
    var a :| Next(r[i], a, r[i + 1]);
    t := StepChanges(r[i], a, r[i + 1]);
  }

  /** In every run, the step that frees a node finds it idle. */
  lemma FreedOnlyIdle(r: seq<State>, i: nat, n: NodeId)
    requires Run(r) && i + 1 < |r|
    requires (n in r[i + 1].freed && n !in r[i].freed) || (n in r[i].nodes && n !in r[i + 1].nodes)
    ensures Idle(r[i], n) && n in r[i + 1].freed && n !in r[i + 1].nodes
  {
    var t := RunChanges(r, i);
  }

  lemma FreedNotLive(r: seq<State>, i: nat, n: NodeId)
    requires Run(r) && i < |r| && n in r[i].freed
    ensures n !in r[i].nodes
  {
    RunKeepsInv(r, i);
  }

  lemma FreedStaysFreed(r: seq<State>, i: nat, n: NodeId)
    requires Run(r) && i + 1 < |r| && n in r[i].freed
    ensures n in r[i + 1].freed
  {
    var t := RunChanges(r, i);
  }

  /** In every run, a freed node is never live, and so never freed, again. */
  lemma {:induction false} FreedOnce(r: seq<State>, i: nat, j: nat, n: NodeId)
    requires Run(r) && i <= j < |r| && n in r[i].freed
    ensures n in r[j].freed && n !in r[j].nodes
    decreases j
  {
    if i < j {
      FreedOnce(r, i, j - 1, n);
      FreedStaysFreed(r, j - 1, n);
    }
    FreedNotLive(r, j, n);
  }

  /** In every run, the node of every open handle is live, and a warm lookup can find it unless it is about to be published. */
  lemma OpenNodeIsLive(r: seq<State>, i: nat, h: nat)
    requires Run(r) && i < |r| && h in r[i].open
    ensures r[i].open[h] in r[i].nodes && r[i].open[h] !in r[i].freed
    ensures r[i].nodes[r[i].open[h]].linked || exists a :: At(r[i], a, ColdPublish(r[i].open[h]))
  {
    RunKeepsInv(r, i);
    assert NodeOk(r[i], r[i].open[h]);
  }

  ghost predicate Opens(s: State, h: nat, n: NodeId, s': State) {
    exists a, from, to :: OpenSucceeds(s, a, from, to, n, h, s')
  }

  ghost predicate Closes(s: State, h: nat, n: NodeId, s': State) {
    exists a :: Close(s, a, n, h, s')
  }

  /** A handle goes only by its own close, comes only by a successful open of its node, and otherwise stays where it is. */
  lemma HandleComesAndGoes(r: seq<State>, i: nat, h: nat)
    requires Run(r) && i + 1 < |r|
    ensures h in r[i].open && h !in r[i + 1].open ==> Closes(r[i], h, r[i].open[h], r[i + 1])
    ensures h !in r[i].open && h in r[i + 1].open ==> Opens(r[i], h, r[i + 1].open[h], r[i + 1])
    ensures h in r[i].open && h in r[i + 1].open ==> r[i + 1].open[h] == r[i].open[h]
  {
    assert StepAt(r, i);
    var a :| Next(r[i], a, r[i + 1]);
    OpenChanges(r[i], a, r[i + 1], h);
  }

  lemma DeferLeavesOpen(s: State, a: AgentId, s': State)
    requires DeferStep(s, a, s')
    ensures s'.open == s.open
  {
  }

  lemma CreateLeavesOpen(s: State, a: AgentId, s': State)
    requires CreateStep(s, a, s')
    ensures s'.open == s.open
  {
  }

  lemma ReapLeavesOpen(s: State, a: AgentId, s': State)
    requires ReapStep(s, a, s')
    ensures s'.open == s.open
  {
  }

  lemma OpenChanges(s: State, a: AgentId, s': State, h: nat)
    requires Next(s, a, s')
    ensures h in s.open && h !in s'.open ==> Closes(s, h, s.open[h], s')
    ensures h !in s.open && h in s'.open ==> Opens(s, h, s'.open[h], s')
    ensures h in s.open && h in s'.open ==> s'.open[h] == s.open[h]
  {
    if DeferStep(s, a, s') {
      DeferLeavesOpen(s, a, s');
    } else if ReapStep(s, a, s') {
      ReapLeavesOpen(s, a, s');
    } else if CreateStep(s, a, s') {
      CreateLeavesOpen(s, a, s');
    } else if from, to, n, g :| OpenSucceeds(s, a, from, to, n, g, s') {
      assert h != g ==> (h in s'.open <==> h in s.open);
    } else if n, g :| Close(s, a, n, g, s') {
      assert h != g ==> (h in s'.open <==> h in s.open);
    } else {
      assert s'.open == s.open;
    }
  }

  // ---- the idle test, look by look, whatever others do between ----

  /** It goes on exactly if it sees no reference, then no pin. */
  lemma LooksInTurn(s: State, a: AgentId, n: NodeId, cold: bool, s': State)
    ensures ReadRefsStep(s, a, n, cold, s') ==> (At(s', a, Test(n, ReadPins, cold)) <==> s.nodes[n].refs == {})
    ensures ReadPinsStep(s, a, n, cold, s') ==> (At(s', a, Test(n, TakeClaim, cold)) <==> s.nodes[n].pins == {})
  {
  }

  /** Then it takes the claim exactly if nobody has it, and puts that node on the reap list, in front of what is there. */
  lemma ThenDefers(s: State, a: AgentId, n: NodeId, cold: bool, s': State)
    ensures TakeClaimStep(s, a, n, cold, s') ==> (At(s', a, Test(n, Push, cold)) <==> s.nodes[n].claim == Unclaimed)
    ensures PushStep(s, a, n, cold, s') ==> s'.reapList == [n] + s.reapList && s'.nodes[n].claim == Listed
  {
  }

  /** An open refused, before its reference or after, leaves the node owed a test. */
  lemma RefusedOpenTests(s: State, a: AgentId, n: NodeId, from: Pc, to: Pc, s': State)
    requires ColdRefused(s, a, n, s') || OpenFails(s, a, from, to, n, s')
    ensures OwedBy(s', a, n) || At(s', a, Pinned(n))
  {
  }

  /** In every run no node is stranded, and the reap list never waits on nobody. */
  lemma NoIdleNodeStranded(r: seq<State>, i: nat)
    requires Run(r) && i < |r|
    ensures forall n | n in r[i].nodes :: Held(r[i], n)
    ensures r[i].reapList != [] ==>
              (exists a :: WorkerAt(r[i], a)) || r[i].shuttingDown || (exists a :: KickOwedBy(r[i], a))
  {
    RunKeepsInv(r, i);
  }

  predicate Under(s: State, n: NodeId, m: NodeId)
    decreases m
  {
    m in s.nodes && (m == n || (s.nodes[m].parent < m && Under(s, n, s.nodes[m].parent)))
  }

  lemma {:induction false} UnderChild(s: State, n: NodeId, c: NodeId, m: NodeId)
    requires Ordered(s) && n in s.nodes && ChildOf(s, c, n) && Under(s, c, m)
    ensures Under(s, n, m)
    decreases m
  {
    if m != c { UnderChild(s, n, c, s.nodes[m].parent); }
  }

  /** Nobody is in the driver. */
  predicate Quiet(s: State) {
    s.agents == map[] && !s.shuttingDown
  }

  predicate OpenOn(s: State, h: nat, n: NodeId) {
    h in s.open && s.open[h] == n
  }

  ghost predicate Opened(s: State, n: NodeId) {
    n in s.nodes && exists h :: OpenOn(s, h, n)
  }

  lemma QuietNode(s: State, n: NodeId)
    requires Inv(s) && Quiet(s) && n in s.nodes
    ensures s.reapList == [] && s.nodes[n].claim == Unclaimed && (Opened(s, n) || HasChild(s, n))
  {
    assert NodeOk(s, n) && Held(s, n);
    if s.nodes[n].refs != {} {
      var x :| x in s.nodes[n].refs;
      match x
      case Handle(h) => assert OpenOn(s, h, n);
      case Opening(a) => assert false;
    }
  }

  ghost function Above(s: State, n: NodeId): (r: set<NodeId>) {
    set x | x in s.nodes && x > n
  }

  /** Once the driver is quiet, a node is resident only because something at or below it is open. */
  lemma {:induction false} QuietKeepsOnlyOpen(s: State, n: NodeId) returns (m: NodeId)
    requires Inv(s) && Ordered(s) && Quiet(s) && n in s.nodes
    ensures Under(s, n, m) && Opened(s, m)
    decreases |Above(s, n)|
  {
    QuietNode(s, n);
    if Opened(s, n) {
      m := n;
    } else {
      var c :| ChildOf(s, c, n);
      SmallerSet(Above(s, c), Above(s, n), c);
      m := QuietKeepsOnlyOpen(s, c);
      UnderChild(s, n, c, m);
    }
  }

  lemma SmallerSet(small: set<NodeId>, big: set<NodeId>, x: NodeId)
    requires small <= big && x in big && x !in small
    ensures |small| < |big|
  {
    assert |small + {x}| <= |big| by { SubsetSize(small + {x}, big); }
  }

  lemma {:induction false} SubsetSize(small: set<NodeId>, big: set<NodeId>)
    requires small <= big
    ensures |small| <= |big|
  {
    if small != {} {
      var x :| x in small;
      SubsetSize(small - {x}, big - {x});
    }
  }
}
