/**
  The path cache and the listing cache of src/PathCache.c with their ticket
  protocol, driven by the change feed of src/ChangeFeed.c.

  Every section under one bucket lock is one step, and so is every read or
  write of Sequence, Generation and the feed's flag. What is cached carries
  history the driver does not keep: when its ticket was taken, and how much
  of the server's history its read had seen.
*/
module PathCache {
  import opened Options
  import opened PathNames

  const BUCKETS: nat := 256
  const MAX_PER_BUCKET: nat := 16
  const TTL: nat := 40_000_000
  const FEED_TTL: nat := 3_000_000_000
  const STALE_GRACE: nat := 260_000_000
  const PRECISE_STRUCTURAL_MAX: nat := 64

  type AgentId = nat

  /** A moment: the step it fell on, and the newest server generation any answer had named by then. */
  datatype Mark = Mark(step: nat, known: nat)

  datatype Ticket = Ticket(sequence: nat, issueTime: nat, mark: Mark)

  /** `t` was taken after the moment `m`. */
  predicate After(m: Mark, t: Ticket) {
    m.step < t.mark.step && m.known <= t.mark.known
  }

  predicate NoLater(m: Mark, n: Mark) {
    m.step <= n.step && m.known <= n.known
  }

  /** What a read of the server brought: how many of its changes the answer had seen, and when it was read. */
  datatype Data = Data(seen: nat, readAt: nat)

  /** A cached path result or directory listing. */
  datatype Item = Item(listing: bool, key: Key, found: bool, gen: nat, ticket: Ticket, data: Data)

  datatype Slot = Slot(listing: bool, bucket: nat)

  /** The bucket a key hashes to: the top eight bits of a 32-bit hash. */
  function SlotOf(hash: Key -> nat, listing: bool, key: Key): Slot {
    Slot(listing, hash(key) % 0x1_0000_0000 / 0x100_0000)
  }

  // ---- invalidations ----

  datatype Op = Invalidate(path: Key) | InvalidatePrefix(dir: Key) | InvalidateAll

  /** One locked section of an invalidation, or its generation bump. */
  datatype Section = Drop(listing: bool, key: Key) | Sweep(listing: bool, bucket: nat, dir: Option<Key>) | Bump

  function DropParent(p: Key): seq<Section> {
    match Parent(p)
    case None => []
    case Some(d) => [Drop(true, d)]
  }

  /** Every bucket of one cache, one lock at a time. */
  function SweepAll(listing: bool, dir: Option<Key>): (q: seq<Section>)
    ensures |q| == BUCKETS
  {
    seq(BUCKETS, i requires 0 <= i < BUCKETS => Sweep(listing, i, dir))
  }

  function Sections(op: Op): seq<Section> {
    match op
    case Invalidate(p) => [Drop(false, p), Drop(true, p)] + DropParent(p)
    case InvalidatePrefix(d) =>
      SweepAll(false, Some(d)) + SweepAll(true, Some(d)) + DropParent(d)
    case InvalidateAll => [Bump] + SweepAll(true, None)
  }

  /** What an invalidation promises to take out of the caches. */
  predicate Covers(op: Op, it: Item) {
    match op
    case Invalidate(p) => it.key == p || (it.listing && Parent(p) == Some(it.key))
    case InvalidatePrefix(d) => IsUnder(d, it.key) || (it.listing && Parent(d) == Some(it.key))
    case InvalidateAll => true
  }

  /** What one of its sections takes out. */
  predicate Sweeps(hash: Key -> nat, sec: Section, it: Item) {
    match sec
    case Drop(listing, key) => it.listing == listing && it.key == key
    case Sweep(listing, bucket, dir) =>
      SlotOf(hash, it.listing, it.key) == Slot(listing, bucket) && (dir == None || IsUnder(dir.value, it.key))
    case Bump => false
  }

  // ---- bucket lists ----

  /** Removes the first entry for `key`. */
  function DropFirst(q: seq<Item>, key: Key): seq<Item> {
    if q == [] then []
    else if q[0].key == key then q[1..]
    else [q[0]] + DropFirst(q[1..], key)
  }

  function Keep(q: seq<Item>, keep: Item -> bool): seq<Item> {
    if q == [] then []
    else if keep(q[0]) then [q[0]] + Keep(q[1..], keep)
    else Keep(q[1..], keep)
  }

  function FindFirst(q: seq<Item>, key: Key): Option<Item> {
    if q == [] then None
    else if q[0].key == key then Some(q[0])
    else FindFirst(q[1..], key)
  }

  /** PathCacheInsert's walk: dead entries are reaped until the key is met and refreshed in place. */
  function Refresh(q: seq<Item>, it: Item, live: Item -> bool): seq<Item> {
    if q == [] then []
    else if q[0].key == it.key then [it] + q[1..]
    else if live(q[0]) then [q[0]] + Refresh(q[1..], it, live)
    else Refresh(q[1..], it, live)
  }

  /** The bucket after PathCacheInsert: refreshed, or appended with the oldest evicted at the cap. */
  function Inserted(q: seq<Item>, it: Item, live: Item -> bool): seq<Item> {
    var r := Refresh(q, it, live);
    if FindFirst(q, it.key).Some? then r
    else if |r| >= MAX_PER_BUCKET then r[1..] + [it]
    else r + [it]
  }

  /**
    The bucket after PublishListing: dead entries are reaped, and unless the
    live one for the key was issued later it is replaced, `evicted` of the
    oldest making room; `fits` says whether the byte budget took the new one.
  */
  function Published(q: seq<Item>, it: Item, live: Item -> bool, evicted: nat, fits: bool): seq<Item> {
    var r := Keep(q, live);
    var prior := FindFirst(r, it.key);
    if prior.Some? && prior.value.ticket.issueTime > it.ticket.issueTime then r
    else
      var rest := DropFirst(r, it.key);
      rest[if evicted <= |rest| then evicted else |rest|..] + (if fits then [it] else [])
  }

  // ---- lifetimes ----

  /** PathCacheAge. */
  function Age(issued: nat, now: nat): nat {
    if now > issued then now - issued else 0
  }

  /** PathCacheEntryLive and ListingCacheEntryLive. */
  predicate Live(it: Item, now: nat, gen: nat, lifetime: nat) {
    && it.gen == gen
    && Age(it.ticket.issueTime, now) <
         (if it.listing then lifetime + STALE_GRACE else if it.found then lifetime else TTL)
  }

  function Lifetime(live: bool): nat {
    if live then FEED_TTL else TTL
  }

  // ---- the change feed ----

  datatype Change = Change(modified: bool, path: Key)

  function OpFor(c: Change): Op {
    if c.modified then Invalidate(c.path) else InvalidatePrefix(c.path)
  }

  function Structural(batch: seq<Change>): nat {
    if batch == [] then 0 else (if batch[0].modified then 0 else 1) + Structural(batch[1..])
  }

  /** The invalidations ChangeFeedApply makes of a batch. */
  function ApplyOps(batch: seq<Change>): seq<Op> {
    if Structural(batch) > PRECISE_STRUCTURAL_MAX then [InvalidateAll]
    else seq(|batch|, i requires 0 <= i < |batch| => OpFor(batch[i]))
  }

  /** An answer being acted on: the generation it names and the invalidations it takes, `ran` of them begun. */
  datatype Feed = Idle | Working(target: nat, ops: seq<Op>, ran: seq<AgentId>, reset: bool)

  // ---- state ----

  /** What a reader sets out to cache. */
  datatype Want = Want(listing: bool, key: Key, found: bool)

  datatype Pc =
    | Dating(sequence: nat, mark: Mark)
    | Ticketed(t: Ticket)
    | HasRead(t: Ticket, data: Data, stored: bool)      // stored: not marked no-store
    | Sampling(t: Ticket, data: Data, stored: bool, want: Want, now: nat, life: Option<nat>)
    | Preparing(it: Item, stored: bool, now: nat, lifetime: nat)
    | Judging(listing: bool, key: Key, now: nat, long: bool, flush: nat)
    | Looking(listing: bool, key: Key, now: nat, long: bool, flush: nat, gen: nat, applied: nat)
    | Hit(it: Item, now: nat, long: bool, flush: nat, gen: nat, applied: nat)
    | Invalidating(op: Op, begun: Mark, done: nat, floor: nat)

  datatype State = State(
    hash: Key -> nat,
    step: nat,
    time: nat,
    sequence: nat,
    generation: nat,
    live: bool,                        // the feed's flag
    lists: map<Slot, seq<Item>>,
    agents: map<AgentId, Pc>,
    feed: Feed,
    followed: bool,                    // the epoch followed is the server's
    since: nat,
    // the server
    log: seq<Change>,                  // every change, oldest first
    answered: nat,                     // the newest generation an answer has named
    // history
    lastAdvance: Mark,
    flushes: map<nat, Mark>,           // the flush that began each generation
    flush: nat,                        // the generation of the flush that brought the feed live
    applied: nat)                      // the generation of the last answer acted on

  function List(s: State, slot: Slot): seq<Item> {
    if slot in s.lists then s.lists[slot] else []
  }

  predicate Holds(s: State, slot: Slot, it: Item) {
    it in List(s, slot)
  }

  predicate At(s: State, a: AgentId, pc: Pc) {
    a in s.agents && s.agents[a] == pc
  }

  function Move(s: State, a: AgentId, pc: Pc): State {
    s.(step := s.step + 1, agents := s.agents[a := pc])
  }

  /** Agent `a` moves to `pc` having replaced one bucket's list. */
  function Relist(s: State, a: AgentId, pc: Pc, slot: Slot, q: seq<Item>): State {
    s.(step := s.step + 1, agents := s.agents[a := pc], lists := s.lists[slot := q])
  }

  // ---- steps of readers ----

  /** BlorgPathCacheTakeTicket reads the sequence, then the clock. */
  ghost predicate ReadSequence(s: State, a: AgentId, s': State) {
    a !in s.agents && s' == Move(s, a, Dating(s.sequence, Mark(s.step + 1, s.answered)))
  }

  ghost predicate TakeTicket(s: State, a: AgentId, pc: Pc, s': State) {
    pc.Dating? && At(s, a, pc) && s' == Move(s, a, Ticketed(Ticket(pc.sequence, s.time, pc.mark)))
  }

  /** A read of the server; an answer it will let be stored has seen every change any feed answer named. */
  ghost predicate ReadServer(s: State, a: AgentId, t: Ticket, seen: nat, stored: bool, s': State) {
    At(s, a, Ticketed(t)) && seen <= |s.log| && (stored ==> s.answered <= seen) && s' == Move(s, a, HasRead(t, Data(seen, s.time), stored))
  }

  /** An insert or publish samples the clock, then the lifetime, then the generation, before it locks. */
  ghost predicate SampleClock(s: State, a: AgentId, pc: Pc, want: Want, s': State) {
    pc.HasRead? && At(s, a, pc) && want.key != [] && (want.listing ==> want.found) &&
    s' == Move(s, a, Sampling(pc.t, pc.data, pc.stored, want, s.time, None))
  }

  ghost predicate SampleLifetime(s: State, a: AgentId, pc: Pc, s': State) {
    pc.Sampling? && pc.life == None && At(s, a, pc) && s' == Move(s, a, pc.(life := Some(Lifetime(s.live))))
  }

  ghost predicate Prepare(s: State, a: AgentId, pc: Pc, s': State) {
    pc.Sampling? && pc.life.Some? && At(s, a, pc) &&
    s' == Move(s, a, Preparing(Item(pc.want.listing, pc.want.key, pc.want.found, s.generation, pc.t, pc.data), pc.stored, pc.now, pc.life.value))
  }

  predicate Refused(s: State, it: Item, stored: bool) {
    (it.found && !stored) || it.ticket.sequence != s.sequence
  }

  /** The locked section of PathCacheInsert or PublishListing; the reader may go on to insert more under its ticket. */
  ghost predicate Insert(s: State, a: AgentId, it: Item, stored: bool, now: nat, lifetime: nat, evicted: nat, fits: bool, s': State) {
    At(s, a, Preparing(it, stored, now, lifetime)) &&
    (var slot := SlotOf(s.hash, it.listing, it.key);
     var live := (x: Item) => Live(x, now, it.gen, lifetime);
     var q := List(s, slot);
     var q' := if Refused(s, it, stored) then q
               else if it.listing then Published(q, it, live, evicted, fits)
               else Inserted(q, it, live);
     s' == Relist(s, a, HasRead(it.ticket, it.data, stored), slot, q'))
  }

  /** PathCacheFind or LookupListing reads the feed's flag, then the generation, then the bucket. */
  ghost predicate Judge(s: State, a: AgentId, listing: bool, key: Key, now: nat, s': State) {
    a !in s.agents && now <= s.time && s' == Move(s, a, Judging(listing, key, now, s.live, s.flush))
  }

  ghost predicate ReadGeneration(s: State, a: AgentId, pc: Pc, s': State) {
    pc.Judging? && At(s, a, pc) &&
    s' == Move(s, a, Looking(pc.listing, pc.key, pc.now, pc.long, pc.flush, s.generation, s.applied))
  }

  ghost predicate Lookup(s: State, a: AgentId, pc: Pc, s': State) {
    pc.Looking? && At(s, a, pc) &&
    (var r := FindFirst(List(s, SlotOf(s.hash, pc.listing, pc.key)), pc.key);
     s' == if r.Some? && Live(r.value, pc.now, pc.gen, Lifetime(pc.long))
           then Move(s, a, Hit(r.value, pc.now, pc.long, pc.flush, pc.gen, pc.applied))
           else s.(step := s.step + 1, agents := s.agents - {a}))
  }

  /** What a hit returned is read on under the ticket of its own fetch. */
  ghost predicate UseHit(s: State, a: AgentId, pc: Pc, s': State) {
    pc.Hit? && At(s, a, pc) && s' == Move(s, a, HasRead(pc.it.ticket, pc.it.data, pc.it.found))
  }

  /** Entries leave a bucket for other reasons: a seeded directory's sweep, dead listings reaped for room. */
  ghost predicate Discard(s: State, slot: Slot, keep: Item -> bool, s': State) {
    s' == s.(step := s.step + 1, lists := s.lists[slot := Keep(List(s, slot), keep)])
  }

  // ---- steps of invalidators ----

  /** PathCacheAdvanceSequence: the first step of every invalidation. */
  ghost predicate Begin(s: State, a: AgentId, op: Op, s': State) {
    a !in s.agents &&
    (var m := Mark(s.step + 1, s.answered);
     s' == s.(step := s.step + 1, sequence := s.sequence + 1, lastAdvance := m,
              agents := s.agents[a := Invalidating(op, m, 0, 0)]))
  }

  ghost predicate SweepSection(s: State, a: AgentId, pc: Pc, s': State) {
    pc.Invalidating? && At(s, a, pc) && pc.done < |Sections(pc.op)| &&
    (var sec := Sections(pc.op)[pc.done];
     var to := pc.(done := pc.done + 1);
     match sec
     case Drop(listing, key) =>
       var slot := SlotOf(s.hash, listing, key);
       s' == Relist(s, a, to, slot, DropFirst(List(s, slot), key))
     case Sweep(listing, bucket, dir) =>
       var slot := Slot(listing, bucket);
       s' == Relist(s, a, to, slot, Keep(List(s, slot), (x: Item) => dir.Some? && !IsUnder(dir.value, x.key)))
     case Bump =>
       s' == s.(step := s.step + 1, generation := s.generation + 1,
                flushes := s.flushes[s.generation + 1 := pc.begun],
                agents := s.agents[a := to.(floor := s.generation + 1)]))
  }

  predicate Finished(s: State, a: AgentId) {
    a in s.agents && s.agents[a].Invalidating? && s.agents[a].done == |Sections(s.agents[a].op)|
  }

  // ---- the server and the feed's thread ----

  ghost predicate ServerChanges(s: State, c: Change, s': State) {
    c.path != [] && s' == s.(step := s.step + 1, log := s.log + [c])
  }

  ghost predicate Tick(s: State, d: nat, s': State) {
    s' == s.(step := s.step + 1, time := s.time + d)
  }

  /** A batch names every change after `since` up to the generation it carries. */
  ghost predicate Names(batch: seq<Change>, log: seq<Change>, since: nat, target: nat) {
    target <= |log| && forall i | since <= i < target :: log[i] in batch
  }

  /** A poll is answered: by a reset, or by a batch of the epoch being followed. */
  ghost predicate Answer(s: State, target: nat, reset: bool, batch: seq<Change>, s': State) {
    s.feed == Idle && s.answered <= target <= |s.log| &&
    (if reset then true else s.followed && Names(batch, s.log, s.since, target)) &&
    s' == s.(step := s.step + 1, answered := target,
             feed := Working(target, if reset then [InvalidateAll] else ApplyOps(batch), [], reset))
  }

  /** The feed's thread begins its next invalidation once the last has finished. */
  ghost predicate FeedBegins(s: State, a: AgentId, s': State) {
    s.feed.Working? && |s.feed.ran| < |s.feed.ops| &&
    (s.feed.ran == [] || Finished(s, s.feed.ran[|s.feed.ran| - 1])) &&
    a !in s.agents &&
    (var m := Mark(s.step + 1, s.answered);
     s' == s.(step := s.step + 1, sequence := s.sequence + 1, lastAdvance := m,
              agents := s.agents[a := Invalidating(s.feed.ops[|s.feed.ran|], m, 0, 0)],
              feed := s.feed.(ran := s.feed.ran + [a])))
  }

  /** The answer has been acted on: a reset goes live, and either way its generation is the one asked from next. */
  ghost predicate FeedFinishes(s: State, s': State) {
    s.feed.Working? && |s.feed.ran| == |s.feed.ops| &&
    (s.feed.ran == [] || Finished(s, s.feed.ran[|s.feed.ran| - 1])) &&
    s' == s.(step := s.step + 1, feed := Idle, applied := s.feed.target, since := s.feed.target, followed := true,
             live := s.live || s.feed.reset,
             flush := if s.feed.reset && s.feed.ran != [] && Finished(s, s.feed.ran[0]) then s.agents[s.feed.ran[0]].floor else s.flush)
  }

  /** A failed poll, or a stop. */
  ghost predicate FeedFails(s: State, s': State) {
    s.feed == Idle && s' == s.(step := s.step + 1, live := false, followed := false, since := 0)
  }

  ghost predicate ReaderStep(s: State, a: AgentId, s': State) {
    || ReadSequence(s, a, s')
    || (exists pc :: TakeTicket(s, a, pc, s'))
    || (exists t, seen, stored :: ReadServer(s, a, t, seen, stored, s'))
    || (exists pc, want :: SampleClock(s, a, pc, want, s'))
    || (exists pc :: SampleLifetime(s, a, pc, s'))
    || (exists pc :: Prepare(s, a, pc, s'))
    || (exists it, stored, now, lifetime, evicted, fits :: Insert(s, a, it, stored, now, lifetime, evicted, fits, s'))
    || (exists listing, key, now :: Judge(s, a, listing, key, now, s'))
    || (exists pc :: ReadGeneration(s, a, pc, s'))
    || (exists pc :: Lookup(s, a, pc, s'))
    || (exists pc :: UseHit(s, a, pc, s'))
  }

  ghost predicate Next(s: State, a: AgentId, s': State) {
    || ReaderStep(s, a, s')
    || (exists slot, keep :: Discard(s, slot, keep, s'))
    || (exists op :: Begin(s, a, op, s'))
    || (exists pc :: SweepSection(s, a, pc, s'))
    || (exists c :: ServerChanges(s, c, s'))
    || (exists d :: Tick(s, d, s'))
    || (exists target, reset, batch :: Answer(s, target, reset, batch, s'))
    || FeedBegins(s, a, s')
    || FeedFinishes(s, s')
    || FeedFails(s, s')
  }

  // ---- the invariant ----

  /** A sequence read at the moment `m`: while it is still current, nothing has begun since. */
  predicate SequenceOk(s: State, sequence: nat, m: Mark) {
    && sequence <= s.sequence && m.step <= s.step && m.known <= s.answered
    && (sequence == s.sequence ==> s.lastAdvance.step < m.step && s.lastAdvance.known <= m.known)
  }

  predicate TicketOk(s: State, t: Ticket) {
    SequenceOk(s, t.sequence, t.mark) && t.issueTime <= s.time
  }

  /** Data is no older than its ticket; and if it may be stored, it saw every change named by then. */
  predicate DataOk(t: Ticket, d: Data, stored: bool) {
    t.issueTime <= d.readAt && (stored ==> t.mark.known <= d.seen)
  }

  /**
    What a change on the server touches: a modification, the path and the
    listing it appears in; a path that came, went or was renamed, that and
    everything beneath it.
  */
  predicate Touches(c: Change, it: Item) {
    || (if c.modified then it.key == c.path else AtOrAbove(c.path, it.key))
    || (it.listing && Parent(c.path) == Some(it.key))
  }

  /** The read behind `it` saw each of the server's first `n` changes that touch it. */
  ghost predicate Reflects(log: seq<Change>, it: Item, n: nat) {
    it.found ==> forall i | 0 <= i < n && i < |log| && Touches(log[i], it) :: i < it.data.seen
  }

  ghost predicate SinceFlushes(s: State, it: Item) {
    forall g | g in s.flushes && g <= it.gen :: After(s.flushes[g], it.ticket)
  }

  ghost predicate ItemOk(s: State, slot: Slot, it: Item) {
    && SlotOf(s.hash, it.listing, it.key) == slot
    && TicketOk(s, it.ticket)
    && it.gen <= s.generation
    && DataOk(it.ticket, it.data, it.found)
    && SinceFlushes(s, it)
    && (it.gen == s.generation ==> Reflects(s.log, it, s.applied))
  }

  ghost predicate Unique(q: seq<Item>) {
    forall i, j | 0 <= i < j < |q| :: q[i].key != q[j].key
  }

  ghost predicate CacheOk(s: State) {
    && (forall slot, it | Holds(s, slot, it) :: ItemOk(s, slot, it))
    && (forall slot | slot in s.lists :: Unique(s.lists[slot]))
  }

  /** Some section among the first `done` of `op` takes out `it`. */
  ghost predicate Swept(hash: Key -> nat, op: Op, done: nat, it: Item) {
    exists j :: 0 <= j < done && j < |Sections(op)| && Sweeps(hash, Sections(op)[j], it)
  }

  ghost predicate InvalidationOk(s: State, op: Op, begun: Mark, done: nat, floor: nat) {
    && NoLater(begun, s.lastAdvance)
    && done <= |Sections(op)|
    && (op.InvalidateAll? && done > 0 ==> floor in s.flushes && s.flushes[floor] == begun)
    && (forall slot, it | Holds(s, slot, it) && Swept(s.hash, op, done, it) :: After(begun, it.ticket))
  }

  ghost predicate AgentOk(s: State, pc: Pc) {
    match pc
    case Dating(sequence, mark) => SequenceOk(s, sequence, mark)
    case Ticketed(t) => TicketOk(s, t)
    case HasRead(t, data, stored) => TicketOk(s, t) && DataOk(t, data, stored)
    case Sampling(t, data, stored, _, _, _) => TicketOk(s, t) && DataOk(t, data, stored)
    case Preparing(it, stored, _, _) => TicketOk(s, it.ticket) && it.gen <= s.generation && DataOk(it.ticket, it.data, stored)
    case Judging(_, _, _, long, flush) => long ==> flush in s.flushes && flush <= s.generation
    case Looking(_, _, _, long, flush, gen, applied) =>
      && (long ==> flush in s.flushes && flush <= gen)
      && gen <= s.generation && applied <= s.applied
      && (forall slot, it | Holds(s, slot, it) && it.gen == gen :: Reflects(s.log, it, applied))
    case Hit(it, _, long, flush, gen, applied) =>
      && TicketOk(s, it.ticket) && DataOk(it.ticket, it.data, it.found)
      && it.gen == gen && applied <= s.applied
      && (long ==> flush in s.flushes && After(s.flushes[flush], it.ticket))
      && Reflects(s.log, it, applied)
    case Invalidating(op, begun, done, floor) => InvalidationOk(s, op, begun, done, floor)
  }

  ghost predicate RanOk(s: State, target: nat, op: Op, a: AgentId) {
    && a in s.agents && s.agents[a].Invalidating? && s.agents[a].op == op && target <= s.agents[a].begun.known
  }

  /** Every change up to the answer's generation that has not been applied is covered by one of its invalidations. */
  ghost predicate OpsOk(s: State, target: nat, ops: seq<Op>, reset: bool) {
    && (reset ==> ops == [InvalidateAll])
    && (ops == [] ==> target <= s.since)
    && (!reset ==> s.followed && (forall i | s.since <= i < target && i < |s.log| :: CoveredBy(ops, s.log[i])))
  }

  /** Whatever the change touches, one of the invalidations takes out. */
  ghost predicate CoveredBy(ops: seq<Op>, c: Change) {
    forall it | Touches(c, it) :: exists op :: op in ops && Covers(op, it)
  }

  ghost predicate FeedOk(s: State) {
    match s.feed
    case Idle => true
    case Working(target, ops, ran, reset) =>
      && s.applied <= target <= s.answered && OpsOk(s, target, ops, reset)
      && |ran| <= |ops|
      && (forall j | 0 <= j < |ran| :: RanOk(s, target, ops[j], ran[j]))
      && (forall j | 0 <= j < |ran| - 1 :: Finished(s, ran[j]))
  }

  ghost predicate CountersOk(s: State) {
    && s.lastAdvance.step <= s.step
    && s.applied <= s.lastAdvance.known <= s.answered <= |s.log|
    && (s.followed ==> s.since == s.applied)
    && (s.live ==> s.flush in s.flushes)
    && (forall g | g in s.flushes :: g <= s.generation && NoLater(s.flushes[g], s.lastAdvance))
  }

  ghost predicate AgentsOk(s: State) {
    forall a | a in s.agents :: AgentOk(s, s.agents[a])
  }

  ghost predicate Inv(s: State) {
    CountersOk(s) && CacheOk(s) && AgentsOk(s) && FeedOk(s)
  }

  // ---- bucket lists ----

  lemma {:induction false} KeepGives(q: seq<Item>, keep: Item -> bool)
    requires Unique(q)
    ensures Unique(Keep(q, keep))
    ensures forall it :: it in Keep(q, keep) <==> it in q && keep(it)
  {
    if q != [] {
      assert forall i | 0 <= i < |q| - 1 :: q[1..][i] == q[i + 1];
      KeepGives(q[1..], keep);
      forall it | it in Keep(q[1..], keep) ensures it.key != q[0].key {
        assert it in q[1..];
      }
    }
  }

  lemma UniqueTail(q: seq<Item>)
    requires Unique(q) && q != []
    ensures Unique(q[1..]) && forall it | it in q[1..] :: it.key != q[0].key
  {
    assert forall i | 0 <= i < |q| - 1 :: q[1..][i] == q[i + 1];
  }

  lemma UniqueCons(it: Item, q: seq<Item>)
    requires Unique(q) && forall x | x in q :: x.key != it.key
    ensures Unique([it] + q)
  {
    assert forall i | 0 <= i < |q| :: q[i] in q;
  }

  lemma {:induction false} DropFirstGives(q: seq<Item>, key: Key)
    requires Unique(q)
    ensures Unique(DropFirst(q, key))
    ensures forall it :: it in DropFirst(q, key) <==> it in q && it.key != key
  {
    if q != [] {
      UniqueTail(q);
      assert q == [q[0]] + q[1..];
      if q[0].key != key {
        DropFirstGives(q[1..], key);
        UniqueCons(q[0], DropFirst(q[1..], key));
      }
    }
  }

  lemma {:induction false} FindFirstGives(q: seq<Item>, key: Key)
    ensures FindFirst(q, key).Some? ==> FindFirst(q, key).value in q && FindFirst(q, key).value.key == key
    ensures FindFirst(q, key).None? ==> forall it | it in q :: it.key != key
  {
    if q != [] { FindFirstGives(q[1..], key); }
  }

  lemma {:induction false} RefreshGives(q: seq<Item>, it: Item, live: Item -> bool)
    requires Unique(q)
    ensures Unique(Refresh(q, it, live)) && (FindFirst(q, it.key).Some? ==> it in Refresh(q, it, live))
    ensures forall x | x in Refresh(q, it, live) :: (x == it && FindFirst(q, it.key).Some?) || (x in q && x.key != it.key)
  {
    if q != [] {
      assert forall i | 0 <= i < |q| - 1 :: q[1..][i] == q[i + 1];
      RefreshGives(q[1..], it, live);
      FindFirstGives(q[1..], it.key);
      forall x | x in q[1..] ensures x.key != q[0].key {}
      var r := Refresh(q[1..], it, live);
      forall x | x in r && q[0].key != it.key ensures x.key != q[0].key {}
    }
  }

  lemma InsertedGives(q: seq<Item>, it: Item, live: Item -> bool)
    requires Unique(q)
    ensures Unique(Inserted(q, it, live)) && it in Inserted(q, it, live)
    ensures forall x | x in Inserted(q, it, live) :: x == it || (x in q && x.key != it.key)
  {
    RefreshGives(q, it, live);
    var r := Refresh(q, it, live);
    assert FindFirst(q, it.key).None? ==> forall i | 0 <= i < |r| :: r[i] in r && r[i].key != it.key;
  }

  /** A live listing of the same directory came from a fetch issued later. */
  predicate Superseded(q: seq<Item>, it: Item, live: Item -> bool) {
    var prior := FindFirst(Keep(q, live), it.key);
    prior.Some? && prior.value.ticket.issueTime > it.ticket.issueTime
  }

  lemma PublishedGives(q: seq<Item>, it: Item, live: Item -> bool, evicted: nat, fits: bool)
    requires Unique(q)
    ensures Unique(Published(q, it, live, evicted, fits))
    ensures forall x | x in Published(q, it, live, evicted, fits) :: x == it || x in q
    ensures fits && !Superseded(q, it, live) ==> it in Published(q, it, live, evicted, fits)
    ensures Superseded(q, it, live) ==> forall x | x in Published(q, it, live, evicted, fits) :: x in q && live(x)
  {
    KeepGives(q, live);
    var r := Keep(q, live);
    DropFirstGives(r, it.key);
    var rest := DropFirst(r, it.key);
    assert forall i | 0 <= i < |rest| :: rest[i] in rest && rest[i].key != it.key;
  }

  /** Where the key is not there yet, the walk only reaps. */
  lemma {:induction false} RefreshReaps(q: seq<Item>, it: Item, live: Item -> bool)
    requires FindFirst(q, it.key).None?
    ensures Refresh(q, it, live) == Keep(q, live)
  {
    if q != [] { RefreshReaps(q[1..], it, live); }
  }

  lemma {:induction false} RefreshKeeps(q: seq<Item>, it: Item, live: Item -> bool)
    ensures |Refresh(q, it, live)| <= |q|
    ensures forall x | x in q && x.key != it.key && live(x) :: x in Refresh(q, it, live)
  {
    if q != [] {
      RefreshKeeps(q[1..], it, live);
      forall x | x in q && x.key != it.key && live(x) ensures x in Refresh(q, it, live) {
        if x != q[0] { assert x in q[1..]; }
      }
    }
  }

  /**
    An insert costs no live entry its place, but for the oldest where the
    bucket is full of them; and no bucket ever outgrows its cap.
  */
  lemma InsertedKeeps(q: seq<Item>, it: Item, live: Item -> bool)
    requires Unique(q)
    ensures |q| <= MAX_PER_BUCKET ==> |Inserted(q, it, live)| <= MAX_PER_BUCKET
    ensures FindFirst(q, it.key).None? ==> forall x | x in Inserted(q, it, live) :: x == it || live(x)
    ensures forall x | x in q && x.key != it.key && live(x) ::
              x in Inserted(q, it, live) || (FindFirst(q, it.key).None? && |Keep(q, live)| >= MAX_PER_BUCKET && x == Keep(q, live)[0])
  {
    RefreshKeeps(q, it, live);
    var r := Refresh(q, it, live);
    KeepGives(q, live);
    if FindFirst(q, it.key).None? { RefreshReaps(q, it, live); }
    forall x | x in r && r != [] && x != r[0] ensures x in r[1..] {
      var i :| 0 <= i < |r| && r[i] == x;
      assert r[1..][i - 1] == x;
    }
  }

  /** `x` is among the `evicted` oldest of the bucket's other live listings. */
  ghost predicate AmongOldest(q: seq<Item>, it: Item, live: Item -> bool, evicted: nat, x: Item) {
    var rest := DropFirst(Keep(q, live), it.key);
    exists i :: 0 <= i < evicted && i < |rest| && rest[i] == x
  }

  /** A publish costs no live listing its place but the oldest evicted for it. */
  lemma PublishedKeeps(q: seq<Item>, it: Item, live: Item -> bool, evicted: nat, fits: bool, x: Item)
    requires Unique(q) && x in q && x.key != it.key && live(x)
    ensures x in Published(q, it, live, evicted, fits) || AmongOldest(q, it, live, evicted, x)
  {
    KeepGives(q, live);
    var rest := DropFirst(Keep(q, live), it.key);
    DropFirstGives(Keep(q, live), it.key);
    var i :| 0 <= i < |rest| && rest[i] == x;
    if i >= evicted && !Superseded(q, it, live) {
      assert rest[evicted..][i - evicted] == x;
      assert Published(q, it, live, evicted, fits)[i - evicted] == x;
    }
  }

  /** What is in a bucket under its key is what a walk for that key finds. */
  lemma {:induction false} HeldIsFound(q: seq<Item>, it: Item)
    requires Unique(q) && it in q
    ensures FindFirst(q, it.key) == Some(it)
  {
    UniqueTail(q);
    if q[0] != it { HeldIsFound(q[1..], it); }
  }

  // ---- what every step respects ----

  /** Whatever enters a cache is newer than the last invalidation to begin. */
  ghost predicate Newer(s: State, it: Item) {
    After(s.lastAdvance, it.ticket) && (it.found ==> s.lastAdvance.known <= it.data.seen)
  }

  ghost predicate Grows(s: State, s': State) {
    && s'.hash == s.hash && s.step <= s'.step && s.time <= s'.time && s.generation <= s'.generation && s.applied <= s'.applied
    && s.answered <= s'.answered && s.log <= s'.log
    && s.sequence <= s'.sequence && NoLater(s.lastAdvance, s'.lastAdvance)
    && (s.sequence == s'.sequence ==> s'.lastAdvance == s.lastAdvance)
    && (forall g | g in s.flushes :: g in s'.flushes && s'.flushes[g] == s.flushes[g])
    && (forall slot, it | Holds(s', slot, it) :: Holds(s, slot, it) || Newer(s', it))
  }

  lemma ReflectsGrows(log: seq<Change>, log': seq<Change>, it: Item, n: nat)
    requires log <= log' && n <= |log| && Reflects(log, it, n)
    ensures Reflects(log', it, n)
  {
  }

  lemma NewerReflects(s: State, it: Item, n: nat)
    requires CountersOk(s) && Newer(s, it) && n <= s.applied
    ensures Reflects(s.log, it, n)
  {
  }

  lemma TicketGrows(s: State, s': State, t: Ticket)
    requires Grows(s, s') && TicketOk(s, t)
    ensures TicketOk(s', t)
  {
  }

  lemma InvalidationGrows(s: State, s': State, op: Op, begun: Mark, done: nat, floor: nat)
    requires Grows(s, s') && InvalidationOk(s, op, begun, done, floor)
    ensures InvalidationOk(s', op, begun, done, floor)
  {
    forall slot, it | Holds(s', slot, it) && Swept(s'.hash, op, done, it) ensures After(begun, it.ticket) {
      assert Holds(s, slot, it) || Newer(s', it);
    }
  }

  lemma LookingGrows(s: State, s': State, gen: nat, applied: nat)
    requires Grows(s, s') && CountersOk(s) && CountersOk(s') && applied <= s.applied
    requires forall slot, it | Holds(s, slot, it) && it.gen == gen :: Reflects(s.log, it, applied)
    ensures forall slot, it | Holds(s', slot, it) && it.gen == gen :: Reflects(s'.log, it, applied)
  {
    forall slot, it | Holds(s', slot, it) && it.gen == gen ensures Reflects(s'.log, it, applied) {
      if Holds(s, slot, it) {
        ReflectsGrows(s.log, s'.log, it, applied);
      } else {
        NewerReflects(s', it, applied);
      }
    }
  }

  /** An agent that does not move keeps what it is entitled to. */
  lemma AgentGrows(s: State, s': State, pc: Pc)
    requires Grows(s, s') && CountersOk(s) && CountersOk(s') && AgentOk(s, pc)
    ensures AgentOk(s', pc)
  {
    match pc
    case Dating(_, _) =>
    case Ticketed(t) => TicketGrows(s, s', t);
    case HasRead(t, _, _) => TicketGrows(s, s', t);
    case Sampling(t, _, _, _, _, _) => TicketGrows(s, s', t);
    case Preparing(it, _, _, _) => TicketGrows(s, s', it.ticket);
    case Judging(_, _, _, _, _) =>
    case Looking(_, _, _, _, _, gen, applied) => LookingGrows(s, s', gen, applied);
    case Hit(it, _, _, _, _, applied) =>
      TicketGrows(s, s', it.ticket);
      ReflectsGrows(s.log, s'.log, it, applied);
    case Invalidating(op, begun, done, floor) => InvalidationGrows(s, s', op, begun, done, floor);
  }

  lemma ItemGrows(s: State, s': State, slot: Slot, it: Item)
    requires Grows(s, s') && CountersOk(s) && CountersOk(s') && ItemOk(s, slot, it)
    requires forall g | g in s'.flushes && g !in s.flushes :: g > s.generation
    requires it.gen == s'.generation ==> Reflects(s'.log, it, s'.applied)
    ensures ItemOk(s', slot, it)
  {
    TicketGrows(s, s', it.ticket);
  }

  lemma NewItemOk(s: State, slot: Slot, it: Item)
    requires CountersOk(s) && Newer(s, it) && SlotOf(s.hash, it.listing, it.key) == slot
    requires TicketOk(s, it.ticket) && it.gen <= s.generation && DataOk(it.ticket, it.data, it.found)
    ensures ItemOk(s, slot, it)
  {
    NewerReflects(s, it, s.applied);
  }

  /** Agents other than `a` stay, and an invalidation keeps its identity and its being finished. */
  ghost predicate AgentsStay(s: State, s': State, a: AgentId) {
    && (forall b | b in s.agents && b != a :: b in s'.agents && s'.agents[b] == s.agents[b])
    && (forall b | b in s'.agents && b != a :: b in s.agents)
    && (a in s.agents && s.agents[a].Invalidating? ==>
          (a in s'.agents && s'.agents[a].Invalidating? && s'.agents[a].op == s.agents[a].op &&
           s'.agents[a].begun == s.agents[a].begun && (Finished(s, a) ==> Finished(s', a))))
  }

  lemma FeedStays(s: State, s': State, a: AgentId)
    requires FeedOk(s) && CountersOk(s) && AgentsStay(s, s', a) && s.log <= s'.log
    requires s'.feed == s.feed && s'.followed == s.followed && s'.since == s.since && s'.applied == s.applied && s.answered <= s'.answered
    ensures FeedOk(s')
  {
    if s.feed.Working? {
      var ran := s.feed.ran;
      forall j | 0 <= j < |ran| ensures RanOk(s', s.feed.target, s.feed.ops[j], ran[j]) {
        assert RanOk(s, s.feed.target, s.feed.ops[j], ran[j]);
      }
      forall j | 0 <= j < |ran| - 1 ensures Finished(s', ran[j]) { assert Finished(s, ran[j]); }
    }
  }

  // ---- every step keeps the invariant ----

  lemma AgentsGrow(s: State, s': State, a: AgentId)
    requires Inv(s) && Grows(s, s') && CountersOk(s') && AgentsStay(s, s', a)
    requires a in s'.agents ==> AgentOk(s', s'.agents[a]) || At(s, a, s'.agents[a])
    ensures AgentsOk(s')
  {
    forall b | b in s'.agents ensures AgentOk(s', s'.agents[b]) {
      if At(s, b, s'.agents[b]) { AgentGrows(s, s', s'.agents[b]); }
    }
  }

  /** A step that leaves both caches, and the counts behind what they promise, as they were. */
  lemma CacheStays(s: State, s': State)
    requires Inv(s) && Grows(s, s') && CountersOk(s') && s'.lists == s.lists
    requires s'.generation == s.generation && s'.applied == s.applied && s'.flushes == s.flushes
    ensures CacheOk(s')
  {
    forall slot, it | Holds(s', slot, it) ensures ItemOk(s', slot, it) {
      assert Holds(s, slot, it);
      if it.gen == s.generation { ReflectsGrows(s.log, s'.log, it, s.applied); }
      ItemGrows(s, s', slot, it);
    }
  }

  /** Agent `a`, not an invalidation, moves and nothing shared changes. */
  lemma MoveInv(s: State, s': State, a: AgentId)
    requires Inv(s) && s' == s.(step := s.step + 1, agents := s'.agents) && AgentsStay(s, s', a)
    requires a in s'.agents ==> AgentOk(s', s'.agents[a]) || At(s, a, s'.agents[a])
    ensures Inv(s')
  {
    assert forall slot, it | Holds(s', slot, it) :: Holds(s, slot, it);
    AgentsGrow(s, s', a);
    CacheStays(s, s');
    FeedStays(s, s', a);
  }

  lemma ReaderArrives(s: State, a: AgentId, s': State)
    requires Inv(s) && (ReadSequence(s, a, s') || exists listing, key, now :: Judge(s, a, listing, key, now, s'))
    ensures Inv(s')
  {
    MoveInv(s, s', a);
  }

  lemma ReadServerInv(s: State, a: AgentId, t: Ticket, seen: nat, stored: bool, s': State)
    requires Inv(s) && ReadServer(s, a, t, seen, stored, s')
    ensures Inv(s')
  {
    assert AgentOk(s, s.agents[a]);
    MoveInv(s, s', a);
  }

  lemma TakeTicketInv(s: State, a: AgentId, pc: Pc, s': State)
    requires Inv(s) && TakeTicket(s, a, pc, s')
    ensures Inv(s')
  {
    assert AgentOk(s, s.agents[a]);
    MoveInv(s, s', a);
  }

  lemma SampleInv(s: State, a: AgentId, pc: Pc, want: Want, s': State)
    requires Inv(s) && (SampleClock(s, a, pc, want, s') || SampleLifetime(s, a, pc, s'))
    ensures Inv(s')
  {
    assert AgentOk(s, s.agents[a]);
    MoveInv(s, s', a);
  }

  lemma PrepareInv(s: State, a: AgentId, pc: Pc, s': State)
    requires Inv(s) && Prepare(s, a, pc, s')
    ensures Inv(s')
  {
    assert AgentOk(s, s.agents[a]);
    MoveInv(s, s', a);
  }

  lemma UseHitInv(s: State, a: AgentId, pc: Pc, s': State)
    requires Inv(s) && UseHit(s, a, pc, s')
    ensures Inv(s')
  {
    assert AgentOk(s, s.agents[a]);
    MoveInv(s, s', a);
  }

  lemma ReadGenerationInv(s: State, a: AgentId, pc: Pc, s': State)
    requires Inv(s) && ReadGeneration(s, a, pc, s')
    ensures Inv(s')
  {
    assert AgentOk(s, s.agents[a]);
    forall slot, it | Holds(s', slot, it) && it.gen == s.generation ensures Reflects(s'.log, it, s.applied) {
      assert Holds(s, slot, it);
      assert ItemOk(s, slot, it);
    }
    MoveInv(s, s', a);
  }

  lemma LookupInv(s: State, a: AgentId, pc: Pc, s': State)
    requires Inv(s) && Lookup(s, a, pc, s')
    ensures Inv(s')
  {
    assert AgentOk(s, s.agents[a]);
    var slot := SlotOf(s.hash, pc.listing, pc.key);
    FindFirstGives(List(s, slot), pc.key);
    if a in s'.agents {
      var it := s'.agents[a].it;
      assert Holds(s, slot, it);
      assert ItemOk(s, slot, it);
      assert SinceFlushes(s, it);
    }
    MoveInv(s, s', a);
  }

  /** A bucket's new list keeps old entries and takes in only what is newer than every invalidation. */
  lemma RelistInv(s: State, s': State, a: AgentId, slot: Slot, q: seq<Item>)
    requires Inv(s) && s' == s.(step := s.step + 1, agents := s'.agents, lists := s.lists[slot := q])
    requires Unique(q) && AgentsStay(s, s', a)
    requires forall it | it in q :: it in List(s, slot) || (Newer(s, it) && ItemOk(s', slot, it))
    requires a in s'.agents ==> AgentOk(s', s'.agents[a]) || At(s, a, s'.agents[a])
    ensures Inv(s')
  {
    forall b, it | Holds(s', b, it) ensures Holds(s, b, it) || Newer(s', it) {
      if b == slot { assert it in q; }
    }
    AgentsGrow(s, s', a);
    forall b, it | Holds(s', b, it) ensures ItemOk(s', b, it) {
      if Holds(s, b, it) {
        ItemGrows(s, s', b, it);
      } else {
        assert b == slot;
      }
    }
    FeedStays(s, s', a);
  }

  lemma ListUnique(s: State, slot: Slot)
    requires CacheOk(s)
    ensures Unique(List(s, slot))
  {
  }

  lemma InsertInv(s: State, a: AgentId, it: Item, stored: bool, now: nat, lifetime: nat, evicted: nat, fits: bool, s': State)
    requires Inv(s) && Insert(s, a, it, stored, now, lifetime, evicted, fits, s')
    ensures Inv(s')
  {
    assert AgentOk(s, s.agents[a]);
    var slot := SlotOf(s.hash, it.listing, it.key);
    var live := (x: Item) => Live(x, now, it.gen, lifetime);
    var q := List(s, slot);
    ListUnique(s, slot);
    InsertedGives(q, it, live);
    PublishedGives(q, it, live, evicted, fits);
    if !Refused(s, it, stored) {
      NewItemOk(s', slot, it);
    }
    RelistInv(s, s', a, slot, s'.lists[slot]);
  }

  lemma DiscardInv(s: State, a: AgentId, slot: Slot, keep: Item -> bool, s': State)
    requires Inv(s) && Discard(s, slot, keep, s')
    ensures Inv(s')
  {
    ListUnique(s, slot);
    KeepGives(List(s, slot), keep);
    RelistInv(s, s', a, slot, Keep(List(s, slot), keep));
  }

  lemma BeginGrows(s: State, s': State, a: AgentId, op: Op)
    requires Inv(s) && a !in s.agents
    requires s' == s.(step := s.step + 1, sequence := s.sequence + 1, lastAdvance := Mark(s.step + 1, s.answered),
                      agents := s.agents[a := Invalidating(op, Mark(s.step + 1, s.answered), 0, 0)], feed := s'.feed)
    ensures Grows(s, s') && CountersOk(s') && CacheOk(s') && AgentsOk(s') && AgentsStay(s, s', a)
  {
    assert forall slot, it | Holds(s', slot, it) :: Holds(s, slot, it);
    CacheStays(s, s');
    AgentsGrow(s, s', a);
  }

  lemma BeginInv(s: State, a: AgentId, op: Op, s': State)
    requires Inv(s) && Begin(s, a, op, s')
    ensures Inv(s')
  {
    BeginGrows(s, s', a, op);
    FeedStays(s, s', a);
  }

  lemma FeedBeginsOk(s: State, a: AgentId, s': State)
    requires FeedOk(s) && FeedBegins(s, a, s')
    ensures FeedOk(s')
  {
    var q, ran := s.feed.ran, s'.feed.ran;
    forall j | 0 <= j < |ran| ensures RanOk(s', s.feed.target, s.feed.ops[j], ran[j]) {
      assert j < |q| ==> RanOk(s, s.feed.target, s.feed.ops[j], q[j]);
    }
    forall j | 0 <= j < |q| ensures Finished(s', q[j]) {
      assert Finished(s, q[j]);
    }
  }

  lemma FeedBeginsInv(s: State, a: AgentId, s': State)
    requires Inv(s) && FeedBegins(s, a, s')
    ensures Inv(s')
  {
    FeedBeginsOk(s, a, s');
    BeginGrows(s, s', a, s.feed.ops[|s.feed.ran|]);
  }

  /** The section just run adds to what the invalidation has swept. */
  lemma SweptMore(hash: Key -> nat, op: Op, done: nat, it: Item)
    requires done < |Sections(op)| && Swept(hash, op, done + 1, it)
    ensures Swept(hash, op, done, it) || Sweeps(hash, Sections(op)[done], it)
  {
  }

  /** A section that takes out of its bucket everything it covers. */
  lemma SectionInv(s: State, a: AgentId, pc: Pc, slot: Slot, q: seq<Item>, s': State)
    requires Inv(s) && pc.Invalidating? && At(s, a, pc) && pc.done < |Sections(pc.op)| && !Sections(pc.op)[pc.done].Bump?
    requires s' == Relist(s, a, pc.(done := pc.done + 1), slot, q) && Unique(q)
    requires forall it | it in q :: it in List(s, slot)
    requires forall it | it in q :: !Sweeps(s.hash, Sections(pc.op)[pc.done], it)
    requires forall it | Sweeps(s.hash, Sections(pc.op)[pc.done], it) :: SlotOf(s.hash, it.listing, it.key) == slot
    ensures Inv(s')
  {
    assert AgentOk(s, pc);
    forall b, it | Holds(s', b, it) && Swept(s.hash, pc.op, pc.done + 1, it) ensures After(pc.begun, it.ticket) {
      assert Holds(s, b, it);
      assert ItemOk(s, b, it);
      SweptMore(s.hash, pc.op, pc.done, it);
    }
    BumpFirst(pc.op, pc.done);
    RelistInv(s, s', a, slot, q);
  }

  lemma BumpFirst(op: Op, j: nat)
    requires j < |Sections(op)|
    ensures Sections(op)[j].Bump? <==> op.InvalidateAll? && j == 0
  {
  }

  lemma DropSectionInv(s: State, a: AgentId, pc: Pc, s': State)
    requires Inv(s) && SweepSection(s, a, pc, s') && Sections(pc.op)[pc.done].Drop?
    ensures Inv(s')
  {
    var sec := Sections(pc.op)[pc.done];
    var slot := SlotOf(s.hash, sec.listing, sec.key);
    ListUnique(s, slot);
    DropFirstGives(List(s, slot), sec.key);
    SectionInv(s, a, pc, slot, DropFirst(List(s, slot), sec.key), s');
  }

  lemma SweepSectionInv(s: State, a: AgentId, pc: Pc, s': State)
    requires Inv(s) && SweepSection(s, a, pc, s') && Sections(pc.op)[pc.done].Sweep?
    ensures Inv(s')
  {
    var sec := Sections(pc.op)[pc.done];
    var slot := Slot(sec.listing, sec.bucket);
    ListUnique(s, slot);
    var keep := (x: Item) => sec.dir.Some? && !IsUnder(sec.dir.value, x.key);
    KeepGives(List(s, slot), keep);
    SectionInv(s, a, pc, slot, s'.lists[slot], s');
  }

  lemma BumpSweepsNothing(hash: Key -> nat)
    ensures forall it :: !Swept(hash, InvalidateAll, 1, it)
  {
    assert Sections(InvalidateAll)[0] == Bump;
  }

  lemma BumpInv(s: State, a: AgentId, pc: Pc, s': State)
    requires Inv(s) && SweepSection(s, a, pc, s') && Sections(pc.op)[pc.done].Bump?
    ensures Inv(s')
  {
    assert AgentOk(s, pc);
    BumpFirst(pc.op, pc.done);
    assert forall slot, it | Holds(s', slot, it) :: Holds(s, slot, it);
    forall slot, it | Holds(s', slot, it) ensures ItemOk(s', slot, it) {
      assert ItemOk(s, slot, it);
      ItemGrows(s, s', slot, it);
    }
    BumpSweepsNothing(s.hash);
    AgentsGrow(s, s', a);
    FeedStays(s, s', a);
  }

  lemma CoversSwept(hash: Key -> nat, op: Op, it: Item)
    requires Covers(op, it) && (op.InvalidateAll? ==> it.listing)
    ensures Swept(hash, op, |Sections(op)|, it)
  {
    var b := SlotOf(hash, it.listing, it.key).bucket;
    var q := Sections(op);
    match op
    case Invalidate(p) =>
      assert it.key == p ==> Sweeps(hash, q[if it.listing then 1 else 0], it);
      assert it.key != p ==> Sweeps(hash, q[2], it);
    case InvalidatePrefix(d) =>
      if IsUnder(d, it.key) {
        assert Sweeps(hash, q[if it.listing then BUCKETS + b else b], it);
      } else {
        assert Sweeps(hash, q[2 * BUCKETS], it);
      }
    case InvalidateAll =>
      assert Sweeps(hash, q[1 + b], it);
  }

  /** Whatever a finished invalidation covers and a lookup could still return was ticketed after it began. */
  lemma FinishedCovers(s: State, a: AgentId, slot: Slot, it: Item)
    requires Inv(s) && Finished(s, a) && Holds(s, slot, it) && Covers(s.agents[a].op, it)
    requires s.agents[a].op.InvalidateAll? && !it.listing ==> it.gen == s.generation
    ensures After(s.agents[a].begun, it.ticket)
  {
    var pc := s.agents[a];
    assert AgentOk(s, pc) && ItemOk(s, slot, it);
    if pc.op.InvalidateAll? && !it.listing {
      assert SinceFlushes(s, it);
    } else {
      CoversSwept(s.hash, pc.op, it);
    }
  }

  lemma WorkFinished(s: State)
    requires Inv(s) && s.feed.Working? && |s.feed.ran| == |s.feed.ops|
    requires s.feed.ran == [] || Finished(s, s.feed.ran[|s.feed.ran| - 1])
    ensures forall j | 0 <= j < |s.feed.ran| :: Finished(s, s.feed.ran[j]) && RanOk(s, s.feed.target, s.feed.ops[j], s.feed.ran[j])
    ensures s.feed.ran != [] ==> s.feed.target <= s.lastAdvance.known
    ensures s.feed.ran == [] ==> s.feed.target == s.applied && !s.feed.reset
    ensures s.feed.reset ==> s.feed.ran != [] && s.agents[s.feed.ran[0]].floor in s.flushes
  {
    if s.feed.ran != [] {
      assert RanOk(s, s.feed.target, s.feed.ops[0], s.feed.ran[0]);
      assert AgentOk(s, s.agents[s.feed.ran[0]]);
    }
  }

  /** Once a batch has been acted on, every entry of this generation reflects it. */
  lemma BatchReflected(s: State, slot: Slot, it: Item)
    requires Inv(s) && s.feed.Working? && |s.feed.ran| == |s.feed.ops|
    requires s.feed.ran == [] || Finished(s, s.feed.ran[|s.feed.ran| - 1])
    requires Holds(s, slot, it) && it.gen == s.generation
    ensures Reflects(s.log, it, s.feed.target)
  {
    WorkFinished(s);
    assert ItemOk(s, slot, it);
    var ops, ran := s.feed.ops, s.feed.ran;
    forall i | it.found && 0 <= i < s.feed.target && i < |s.log| && Touches(s.log[i], it) ensures i < it.data.seen {
      if i >= s.applied {
        assert s.feed.reset || CoveredBy(ops, s.log[i]);
        assert s.feed.reset ==> ops[0] == InvalidateAll;
        var op :| op in ops && Covers(op, it);
        var j :| 0 <= j < |ops| && ops[j] == op;
        assert RanOk(s, s.feed.target, ops[j], ran[j]);
        FinishedCovers(s, ran[j], slot, it);
      }
    }
  }

  lemma FeedFinishesInv(s: State, a: AgentId, s': State)
    requires Inv(s) && FeedFinishes(s, s')
    ensures Inv(s')
  {
    WorkFinished(s);
    assert forall slot, it | Holds(s', slot, it) :: Holds(s, slot, it);
    forall slot, it | Holds(s', slot, it) ensures ItemOk(s', slot, it) {
      if it.gen == s.generation { BatchReflected(s, slot, it); }
      ItemGrows(s, s', slot, it);
    }
    AgentsGrow(s, s', a);
  }

  /** Whatever a batch names is taken out by one of the invalidations made of it, in all it touches. */
  lemma ApplyOpsCovers(batch: seq<Change>, c: Change)
    requires c in batch
    ensures CoveredBy(ApplyOps(batch), c)
  {
    var ops := ApplyOps(batch);
    forall it | Touches(c, it) ensures exists op :: op in ops && Covers(op, it) {
      if Structural(batch) <= PRECISE_STRUCTURAL_MAX {
        var i :| 0 <= i < |batch| && batch[i] == c;
        assert ops[i] == OpFor(c);
        if !c.modified && AtOrAbove(c.path, it.key) { AboveIsUnder(c.path, it.key); }
        assert OpFor(c) in ops && Covers(OpFor(c), it);
      } else {
        assert ops[0] == InvalidateAll;
        assert InvalidateAll in ops && Covers(InvalidateAll, it);
      }
    }
  }

  /** The structural changes of a batch. */
  function StructuralOf(batch: seq<Change>): set<nat> {
    set i: nat | i < |batch| && !batch[i].modified
  }

  lemma {:induction false} StructuralCounts(batch: seq<Change>)
    ensures Structural(batch) == |StructuralOf(batch)|
  {
    if batch != [] {
      var rest, up := StructuralOf(batch[1..]), Up(StructuralOf(batch[1..]));
      StructuralCounts(batch[1..]);
      UpSize(rest);
      assert StructuralOf(batch) == up + if batch[0].modified then {} else {0} by {
        forall i: nat ensures i in StructuralOf(batch) <==> i in up + if batch[0].modified then {} else {0} {
          if 0 < i < |batch| { assert batch[i] == batch[1..][i - 1]; }
          if i in StructuralOf(batch) && i > 0 { assert i - 1 in rest; }
        }
      }
    }
  }

  function Up(q: set<nat>): set<nat> {
    set i | i in q :: i + 1
  }

  lemma {:induction false} UpSize(q: set<nat>)
    ensures |Up(q)| == |q|
  {
    if q != {} {
      var x :| x in q;
      UpSize(q - {x});
      assert Up(q) <= Up(q - {x}) + {x + 1} by {
        forall y | y in Up(q) ensures y in Up(q - {x}) + {x + 1} {
          assert y - 1 in q && (y - 1 != x ==> y - 1 in q - {x});
        }
      }
      assert x + 1 in Up(q);
      assert Up(q) == Up(q - {x}) + {x + 1};
    }
  }

  /** And up to the structural limit nothing else is: whatever they take out, some change of the batch touches. */
  lemma ApplyOpsSpares(batch: seq<Change>, op: Op, it: Item)
    requires |StructuralOf(batch)| <= PRECISE_STRUCTURAL_MAX && op in ApplyOps(batch) && Covers(op, it)
    requires Absolute(it.key) && forall c | c in batch :: Absolute(c.path)
    ensures exists c :: c in batch && Touches(c, it)
  {
    StructuralCounts(batch);
    var i :| 0 <= i < |batch| && ApplyOps(batch)[i] == op;
    assert op == OpFor(batch[i]) && batch[i] in batch;
    UnderIsAncestry(batch[i].path, it.key);
    assert Touches(batch[i], it);
  }

  /** A step of the server, the clock or the feed's thread that touches neither cache nor agent. */
  lemma OutsideInv(s: State, a: AgentId, s': State)
    requires Inv(s) && s' == s.(step := s.step + 1, time := s'.time, log := s'.log, answered := s'.answered,
                                feed := s'.feed, live := s'.live, followed := s'.followed, since := s'.since)
    requires s.log <= s'.log && s.time <= s'.time && s.answered <= s'.answered && (s'.live ==> s.live) && CountersOk(s') && FeedOk(s')
    ensures Inv(s')
  {
    assert forall slot, it | Holds(s', slot, it) :: Holds(s, slot, it);
    CacheStays(s, s');
    AgentsGrow(s, s', a);
  }

  lemma FeedFailsInv(s: State, a: AgentId, s': State)
    requires Inv(s) && FeedFails(s, s')
    ensures Inv(s')
  {
    OutsideInv(s, a, s');
  }

  lemma TickInv(s: State, a: AgentId, d: nat, s': State)
    requires Inv(s) && Tick(s, d, s')
    ensures Inv(s')
  {
    FeedStays(s, s', a);
    OutsideInv(s, a, s');
  }

  lemma ServerChangesInv(s: State, a: AgentId, c: Change, s': State)
    requires Inv(s) && ServerChanges(s, c, s')
    ensures Inv(s')
  {
    FeedStays(s, s', a);
    OutsideInv(s, a, s');
  }

  lemma AnswerInv(s: State, a: AgentId, target: nat, reset: bool, batch: seq<Change>, s': State)
    requires Inv(s) && Answer(s, target, reset, batch, s')
    ensures Inv(s')
  {
    forall i | !reset && s.since <= i < target && i < |s.log| ensures CoveredBy(s'.feed.ops, s.log[i]) {
      ApplyOpsCovers(batch, s.log[i]);
    }
    if !reset && s.since < target { assert s.log[s.since] in batch; }
    OutsideInv(s, a, s');
  }

  lemma ReaderInv(s: State, a: AgentId, s': State)
    requires Inv(s) && ReaderStep(s, a, s')
    ensures Inv(s')
  {
    if ReadSequence(s, a, s') {
      ReaderArrives(s, a, s');
    } else if pc :| TakeTicket(s, a, pc, s') {
      TakeTicketInv(s, a, pc, s');
    } else if t, seen, stored :| ReadServer(s, a, t, seen, stored, s') {
      ReadServerInv(s, a, t, seen, stored, s');
    } else if pc, want :| SampleClock(s, a, pc, want, s') {
      SampleInv(s, a, pc, want, s');
    } else if pc :| SampleLifetime(s, a, pc, s') {
      SampleInv(s, a, pc, pc.want, s');
    } else if pc :| Prepare(s, a, pc, s') {
      PrepareInv(s, a, pc, s');
    } else if it, stored, now, lifetime, evicted, fits :| Insert(s, a, it, stored, now, lifetime, evicted, fits, s') {
      InsertInv(s, a, it, stored, now, lifetime, evicted, fits, s');
    } else if pc :| ReadGeneration(s, a, pc, s') {
      ReadGenerationInv(s, a, pc, s');
    } else if pc :| Lookup(s, a, pc, s') {
      LookupInv(s, a, pc, s');
    } else if pc :| UseHit(s, a, pc, s') {
      UseHitInv(s, a, pc, s');
    } else {
      ReaderArrives(s, a, s');
    }
  }

  lemma SectionStepInv(s: State, a: AgentId, pc: Pc, s': State)
    requires Inv(s) && SweepSection(s, a, pc, s')
    ensures Inv(s')
  {
    match Sections(pc.op)[pc.done]
    case Drop(_, _) => DropSectionInv(s, a, pc, s');
    case Sweep(_, _, _) => SweepSectionInv(s, a, pc, s');
    case Bump => BumpInv(s, a, pc, s');
  }

  lemma StepKeepsInv(s: State, a: AgentId, s': State)
    requires Inv(s) && Next(s, a, s')
    ensures Inv(s')
  {
    if ReaderStep(s, a, s') {
      ReaderInv(s, a, s');
    } else if slot, keep :| Discard(s, slot, keep, s') {
      DiscardInv(s, a, slot, keep, s');
    } else if op :| Begin(s, a, op, s') {
      BeginInv(s, a, op, s');
    } else if pc :| SweepSection(s, a, pc, s') {
      SectionStepInv(s, a, pc, s');
    } else if target, reset, batch :| Answer(s, target, reset, batch, s') {
      AnswerInv(s, a, target, reset, batch, s');
    } else if FeedBegins(s, a, s') {
      FeedBeginsInv(s, a, s');
    } else if FeedFinishes(s, s') {
      FeedFinishesInv(s, a, s');
    } else if FeedFails(s, s') {
      FeedFailsInv(s, a, s');
    } else if d :| Tick(s, d, s') {
      TickInv(s, a, d, s');
    } else {
      var c :| ServerChanges(s, c, s');
      ServerChangesInv(s, a, c, s');
    }
  }

  // ---- runs ----

  ghost predicate Init(s: State) {
    && s.sequence == 0 && s.generation == 0 && !s.live && s.lists == map[] && s.agents == map[] && s.feed == Idle
    && !s.followed && s.since == 0 && s.answered == 0 && s.lastAdvance == Mark(0, 0) && s.flushes == map[] && s.applied == 0
  }

  ghost predicate Steps(s: State, s': State) {
    exists a :: Next(s, a, s')
  }

  ghost predicate StepAt(r: seq<State>, i: nat) {
    i + 1 < |r| && Steps(r[i], r[i + 1])
  }

  /** A run: any interleaving of readers, invalidations, the feed's thread and the server, from an empty cache. */
  ghost predicate Run(r: seq<State>) {
    |r| > 0 && Init(r[0]) && forall i | 0 <= i < |r| - 1 :: StepAt(r, i)
  }

  lemma InitInv(s: State)
    requires Init(s)
    ensures Inv(s)
  {
  }

  lemma {:induction false} RunKeepsInv(r: seq<State>, i: nat)
    requires Run(r) && i < |r|
    ensures Inv(r[i])
  {
    if i == 0 {
      InitInv(r[0]);
    } else {
      RunKeepsInv(r, i - 1);
      assert StepAt(r, i - 1);
      var a :| Next(r[i - 1], a, r[i]);
      StepKeepsInv(r[i - 1], a, r[i]);
    }
  }

  // ---- main results ----

  /**
    In every run, once an invalidation has finished, nothing it covers that
    either cache holds comes from a ticket taken before it began; of what a
    full flush covers, path entries may linger that no lookup will accept.
  */
  lemma InvalidationHolds(r: seq<State>, i: nat, a: AgentId, slot: Slot, it: Item)
    requires Run(r) && i < |r| && Finished(r[i], a) && Holds(r[i], slot, it) && Covers(r[i].agents[a].op, it)
    ensures r[i].agents[a].begun.step < it.ticket.mark.step ||
            (r[i].agents[a].op.InvalidateAll? && !it.listing && it.gen < r[i].generation)
  {
    RunKeepsInv(r, i);
    assert ItemOk(r[i], slot, it);
    if !r[i].agents[a].op.InvalidateAll? || it.listing || it.gen == r[i].generation {
      FinishedCovers(r[i], a, slot, it);
    }
  }

  /** The short lifetime of what was looked up. */
  function ShortLifetime(it: Item): nat {
    if it.listing then TTL + STALE_GRACE else TTL
  }

  lemma AcceptedAt(s: State, a: AgentId, pc: Pc, s': State)
    requires Lookup(s, a, pc, s') && a in s'.agents
    ensures s'.agents[a].Hit? && s'.agents[a].it.key == pc.key
    ensures Live(s'.agents[a].it, pc.now, pc.gen, Lifetime(pc.long))
    ensures Age(s'.agents[a].it.ticket.issueTime, pc.now) >= ShortLifetime(s'.agents[a].it) ==> pc.long && (s'.agents[a].it.listing || s'.agents[a].it.found)
  {
    FindFirstGives(List(s, SlotOf(s.hash, pc.listing, pc.key)), pc.key);
  }

  /**
    In every run, what a lookup accepts past the short lifetime was ticketed
    after the flush that brought live the feed whose flag it read.
  */
  lemma LongLivedIsAfterFlush(r: seq<State>, i: nat, a: AgentId, pc: Pc)
    requires Run(r) && i + 1 < |r| && Lookup(r[i], a, pc, r[i + 1]) && a in r[i + 1].agents
    requires r[i + 1].agents[a].Hit?
    requires Age(r[i + 1].agents[a].it.ticket.issueTime, pc.now) >= ShortLifetime(r[i + 1].agents[a].it)
    ensures pc.flush in r[i].flushes && After(r[i].flushes[pc.flush], r[i + 1].agents[a].it.ticket)
  {
    RunKeepsInv(r, i + 1);
    AcceptedAt(r[i], a, pc, r[i + 1]);
    assert AgentOk(r[i + 1], r[i + 1].agents[a]);
  }

  /**
    In every run, an existing result a lookup accepts reflects every change
    of every batch the feed had acted on when the lookup read the generation;
    and, if no flush has intervened, of every batch acted on by now.
  */
  lemma AcceptedReflectsFeed(r: seq<State>, i: nat, a: AgentId, pc: Pc)
    requires Run(r) && i + 1 < |r| && Lookup(r[i], a, pc, r[i + 1]) && a in r[i + 1].agents
    requires r[i + 1].agents[a].Hit? && r[i + 1].agents[a].it.found
    ensures Reflects(r[i].log, r[i + 1].agents[a].it, pc.applied)
    ensures pc.gen == r[i].generation ==> Reflects(r[i].log, r[i + 1].agents[a].it, r[i].applied)
  {
    RunKeepsInv(r, i);
    RunKeepsInv(r, i + 1);
    assert AgentOk(r[i + 1], r[i + 1].agents[a]);
    AcceptedAt(r[i], a, pc, r[i + 1]);
    var slot := SlotOf(r[i].hash, pc.listing, pc.key);
    FindFirstGives(List(r[i], slot), pc.key);
    assert Holds(r[i], slot, r[i + 1].agents[a].it);
    assert ItemOk(r[i], slot, r[i + 1].agents[a].it);
  }

  /** In every run, a ticket whose sequence is still current was taken after every invalidation that has begun. */
  lemma CurrentTicketIsNewest(r: seq<State>, i: nat, a: AgentId, b: AgentId)
    requires Run(r) && i < |r| && a in r[i].agents && b in r[i].agents
    requires r[i].agents[a].Invalidating? && r[i].agents[b].HasRead? && r[i].agents[b].t.sequence == r[i].sequence
    ensures After(r[i].agents[a].begun, r[i].agents[b].t)
  {
    RunKeepsInv(r, i);
    assert AgentOk(r[i], r[i].agents[a]) && AgentOk(r[i], r[i].agents[b]);
  }

  /**
    In every run, data a lookup accepts was read from the server less than
    the lifetime ago, however often it has been inserted again from a cached
    listing since.
  */
  lemma AcceptedIsYoung(r: seq<State>, i: nat, a: AgentId, pc: Pc)
    requires Run(r) && i + 1 < |r| && Lookup(r[i], a, pc, r[i + 1]) && a in r[i + 1].agents && r[i + 1].agents[a].Hit?
    ensures var it := r[i + 1].agents[a].it;
            Age(it.data.readAt, pc.now) < if it.listing then Lifetime(pc.long) + STALE_GRACE else if it.found then Lifetime(pc.long) else TTL
  {
    RunKeepsInv(r, i + 1);
    AcceptedAt(r[i], a, pc, r[i + 1]);
    assert AgentOk(r[i + 1], r[i + 1].agents[a]);
  }

  /** An invalidation takes nothing out that it does not cover. */
  lemma SectionWithin(hash: Key -> nat, op: Op, j: nat, it: Item)
    requires j < |Sections(op)| && Sweeps(hash, Sections(op)[j], it)
    ensures Covers(op, it)
  {
  }

  lemma InvalidationSpares(r: seq<State>, i: nat, a: AgentId, pc: Pc, slot: Slot, it: Item)
    requires Run(r) && i + 1 < |r| && SweepSection(r[i], a, pc, r[i + 1]) && Holds(r[i], slot, it) && !Covers(pc.op, it)
    ensures Holds(r[i + 1], slot, it)
  {
    RunKeepsInv(r, i);
    var s := r[i];
    assert ItemOk(s, slot, it);
    if Sweeps(s.hash, Sections(pc.op)[pc.done], it) { SectionWithin(s.hash, pc.op, pc.done, it); }
    match Sections(pc.op)[pc.done]
    case Drop(listing, key) =>
      ListUnique(s, SlotOf(s.hash, listing, key));
      DropFirstGives(List(s, SlotOf(s.hash, listing, key)), key);
    case Sweep(listing, bucket, dir) =>
      ListUnique(s, Slot(listing, bucket));
      KeepGives(List(s, Slot(listing, bucket)), (x: Item) => dir.Some? && !IsUnder(dir.value, x.key));
    case Bump =>
  }

  /** How long a result may be returned: listings past their lifetime while another is fetched, and what is not there never long. */
  function Allowed(it: Item, long: bool): nat {
    if it.listing then (if long then FEED_TTL else TTL) + STALE_GRACE
    else if it.found && long then FEED_TTL
    else TTL
  }

  ghost predicate Tickets(s: State, a: AgentId, t: Ticket, s': State) {
    At(s', a, Ticketed(t)) && exists pc :: TakeTicket(s, a, pc, s')
  }

  ghost predicate Prepares(s: State, a: AgentId, it: Item, s': State) {
    a in s'.agents && s'.agents[a].Preparing? && s'.agents[a].it == it && exists pc :: Prepare(s, a, pc, s')
  }

  /** The insert of `it`: its ticket is current, it may be stored, and a listing fits and is not older than one there. */
  ghost predicate Stores(s: State, a: AgentId, it: Item, s': State) {
    && it.ticket.sequence == s.sequence
    && (it.listing ==> forall x | x in List(s, SlotOf(s.hash, true, it.key)) && x.key == it.key :: x.ticket.issueTime <= it.ticket.issueTime)
    && exists stored, now, lifetime, evicted, fits ::
         Insert(s, a, it, stored, now, lifetime, evicted, fits, s') && (stored || !it.found) && (it.listing ==> fits)
  }

  lemma StoredIsThere(s: State, a: AgentId, it: Item, s': State)
    requires Inv(s) && Stores(s, a, it, s')
    ensures Holds(s', SlotOf(s.hash, it.listing, it.key), it)
  {
    var stored, now, lifetime, evicted, fits :|
      Insert(s, a, it, stored, now, lifetime, evicted, fits, s') && (stored || !it.found) && (it.listing ==> fits);
    var slot := SlotOf(s.hash, it.listing, it.key);
    var q := List(s, slot);
    var live := (x: Item) => Live(x, now, it.gen, lifetime);
    ListUnique(s, slot);
    KeepGives(q, live);
    FindFirstGives(Keep(q, live), it.key);
    InsertedGives(q, it, live);
    PublishedGives(q, it, live, evicted, fits);
  }

  /**
    In every run, what is cached under a ticket still current is what a
    lookup of that path finds, for as long as it may live, if the bucket
    still holds what it held then and no flush has come between.
  */
  lemma CachedThenFound(r: seq<State>, a: AgentId, h: nat, k: nat, i: nat, it: Item, b: AgentId, m: nat, j: nat, from: Pc, pc: Pc)
    requires Run(r) && h + 1 < |r| && k + 1 < |r| && i + 1 < |r| && m + 1 < |r| && j + 1 < |r|
    requires Tickets(r[h], a, it.ticket, r[h + 1]) && Prepares(r[k], a, it, r[k + 1]) && Stores(r[i], a, it, r[i + 1])
    requires ReadGeneration(r[m], b, from, r[m + 1]) && At(r[m + 1], b, pc) && r[m].generation == r[k].generation
    requires Lookup(r[j], b, pc, r[j + 1]) && pc.listing == it.listing && pc.key == it.key
    requires r[j].hash == r[i].hash && List(r[j], SlotOf(r[i].hash, it.listing, it.key)) == List(r[i + 1], SlotOf(r[i].hash, it.listing, it.key))
    requires pc.now < r[h].time + Allowed(it, pc.long)
    ensures b in r[j + 1].agents && r[j + 1].agents[b] == Hit(it, pc.now, pc.long, pc.flush, pc.gen, pc.applied)
  {
    RunKeepsInv(r, i);
    StoredIsThere(r[i], a, it, r[i + 1]);
    RunKeepsInv(r, j);
    var slot := SlotOf(r[i].hash, it.listing, it.key);
    ListUnique(r[j], slot);
    HeldIsFound(List(r[j], slot), it);
  }

  ghost predicate FailsAt(r: seq<State>, k: nat) {
    k + 1 < |r| && FeedFails(r[k], r[k + 1])
  }

  ghost predicate SameFlag(s: State, s': State) {
    s'.live == s.live
  }

  lemma ReaderKeepsLive(s: State, a: AgentId, s': State)
    requires ReaderStep(s, a, s')
    ensures SameFlag(s, s')
  {
    if pc :| Lookup(s, a, pc, s') {
      assert SameFlag(s, s');
    } else if it, stored, now, lifetime, evicted, fits :| Insert(s, a, it, stored, now, lifetime, evicted, fits, s') {
      assert SameFlag(s, s');
    }
  }

  lemma SectionKeepsLive(s: State, a: AgentId, pc: Pc, s': State)
    requires SweepSection(s, a, pc, s')
    ensures SameFlag(s, s')
  {
  }

  lemma OnlyFailureEndsLive(s: State, s': State)
    requires Steps(s, s') && s.live && !FeedFails(s, s')
    ensures s'.live
  {
    var a :| Next(s, a, s');
    if ReaderStep(s, a, s') {
      ReaderKeepsLive(s, a, s');
    } else if pc :| SweepSection(s, a, pc, s') {
      SectionKeepsLive(s, a, pc, s');
    }
  }

  /** In every run, acting on a reset brings the feed live, and live it stays until a poll fails. */
  lemma {:induction false} LiveUntilFailure(r: seq<State>, i: nat, j: nat)
    requires Run(r) && i < j < |r| && FeedFinishes(r[i], r[i + 1]) && r[i].feed.reset
    requires forall k | i < k < j :: !FailsAt(r, k)
    ensures r[j].live
    decreases j
  {
    if j > i + 1 {
      LiveUntilFailure(r, i, j - 1);
      assert StepAt(r, j - 1) && !FailsAt(r, j - 1);
      OnlyFailureEndsLive(r[j - 1], r[j]);
    }
  }
}
