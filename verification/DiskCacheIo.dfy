/**
  Disk cache I/O, src/DiskCache.c: reads and fills move bytes without the
  index lock, protected only by pins. Sections under the lock are the
  transitions src/DiskCacheIndex.c gives them; each byte moved to or from
  the cache file, and each completion, is a step of its own.
*/
module DiskCacheIo {
  import opened DiskCachePlan
  import opened DiskCacheIndex
  import opened DiskCacheRead

  type Id = nat

  /** A block on its way to the cache file; `done` are the bytes of it that have reached it. */
  datatype Fill = Fill(slot: nat, key: Key, writing: bool, done: set<nat>)

  datatype PartState = Waiting | Running | Ended(received: nat)

  /**
    DISK_CACHE_READ. `got` are the bytes of the buffer that have been
    delivered; the parts from `next` on have not been started.
  */
  datatype Read = Read(
    key: Key, w: seq<nat>, offset: nat, valid: nat,
    planned: bool, parts: seq<Part>, st: seq<PartState>, next: nat, issuing: bool,
    outstanding: nat, bytes: nat, refetch: bool, failed: bool,
    buffer: seq<Byte>, got: set<nat>)

  datatype Outcome = Outcome(success: bool, read: Read)

  datatype State = State(
    content: Key -> seq<Byte>,         // the bytes of a file version, by its block 0
    q: seq<Slot>,
    disk: seq<Byte>,                   // the cache file
    fills: map<Id, Fill>,
    active: map<Id, Read>,             // reads not yet completed
    outcomes: map<Id, Outcome>)        // completions called

  /** The bytes of the file version `key` names. */
  function Content(s: State, key: Key): seq<Byte> {
    s.content(key.(block := 0))
  }

  /** The block `i` of a read, as a key. */
  function KeyAt(r: Read, i: nat): Key {
    r.key.(block := r.key.block + i)
  }

  // ---- fills ----

  /** BlorgDiskCacheIndexReserve gives an unpinned slot to `key`. */
  ghost predicate Reserve(s: State, f: Id, x: nat, key: Key, s': State) {
    && f !in s.fills && x < |s.q| && s.q[x].pins == 0 && key.block * BLOCK < |Content(s, key)|
    && HandedTo(s.q, s'.q, x, key)
    && s' == s.(q := s'.q, fills := s.fills[f := Fill(x, key, false, {})])
  }

  /** The fill worker issues the write. */
  ghost predicate StartWrite(s: State, f: Id, s': State) {
    f in s.fills && !s.fills[f].writing && s' == s.(fills := s.fills[f := s.fills[f].(writing := true)])
  }

  /** One byte of the write reaches the cache file. */
  ghost predicate WriteByte(s: State, f: Id, i: nat, s': State) {
    && f in s.fills && s.fills[f].writing && i < BLOCK
    && (var e := s.fills[f];
        && e.slot * BLOCK + i < |s.disk| && e.key.block * BLOCK <= |Content(s, e.key)|
        && s' == s.(disk := s.disk[e.slot * BLOCK + i := BlockBytes(Content(s, e.key), e.key.block)[i]],
                    fills := s.fills[f := e.(done := e.done + {i})]))
  }

  /** DiskCacheFillSettle: a write of the whole block makes the slot servable; anything else frees it. */
  ghost predicate EndFill(s: State, f: Id, written: bool, s': State) {
    && f in s.fills && s.fills[f].slot < |s.q|
    && (written ==> s.fills[f].writing && forall i | 0 <= i < BLOCK :: i in s.fills[f].done)
    && (var x := s.fills[f].slot;
        if written then s'.q == s.q[x := s.q[x].(state := Held, pins := 0)] else FreedNow(s.q, s'.q, x))
    && s' == s.(q := s'.q, fills := s.fills - {f})
  }

  /** Marks move; no slot changes hands. */
  ghost predicate Touch(s: State, s': State) {
    OthersKeep(s.q, s'.q, |s.q|) && s' == s.(q := s'.q)
  }

  // ---- reads ----

  /** BlorgDiskCacheIndexPinHeld. */
  ghost predicate BeginRead(s: State, id: Id, key: Key, offset: nat, valid: nat, w: seq<nat>, buffer: seq<Byte>, s': State) {
    && id !in s.active && id !in s.outcomes
    && valid > 0 && offset % PAGE == 0 && offset + valid <= |Content(s, key)| && key.block == FirstBlock(offset)
    && |w| == BlockCount(offset, valid) && |buffer| >= Span(valid)
    && (forall i | 0 <= i < |w| && w[i] != NO_SLOT ::
          w[i] < |s.q| && s.q[w[i]].state == Held && s.q[w[i]].key == key.(block := key.block + i))
    && PinsRaised(s.q, s'.q, w)
    && s' == s.(q := s'.q, active := s.active[id := Read(key, w, offset, valid, false, [], [], 0, true, 1, 0, false, false, buffer, {})])
  }

  /** One BlorgDiskCacheIndexUnpin of BlorgDiskCacheIndexPlanRead: a stretch of held blocks is given up. */
  ghost predicate GivePins(s: State, id: Id, w: seq<nat>, s': State) {
    && id in s.active && !s.active[id].planned
    && Subplan(s.active[id].w, w) && GaveBack(s.q, s'.q, s.active[id].w, w)
    && s' == s.(q := s'.q, active := s.active[id := s.active[id].(w := w)])
  }

  /** The blocks it still holds settle the parts the loop will start. */
  ghost predicate PlanParts(s: State, id: Id, parts: seq<Part>, s': State) {
    && id in s.active && !s.active[id].planned
    && (var r := s.active[id];
        && PartsOk(r.offset, r.valid, r.w, parts) && r.valid <= EndOf(parts) <= Span(r.valid)
        && s' == s.(active := s.active[id := r.(planned := true, parts := parts, st := seq(|parts|, _ => Waiting))]))
  }

  /** Nothing held, or the first part would not start: the pins go back and the caller fetches. */
  ghost predicate Decline(s: State, id: Id, s': State) {
    && id in s.active && s.active[id].issuing && s.active[id].next == 0
    && PinsDropped(s.q, s'.q, s.active[id].w, false)
    && s' == s.(q := s'.q, active := s.active - {id})
  }

  /** DiskCacheReadPart starts the next part. */
  ghost predicate StartPart(s: State, id: Id, s': State) {
    && id in s.active && s.active[id].planned && s.active[id].issuing && s.active[id].next < |s.active[id].parts|
    && s.active[id].next < |s.active[id].st|
    && (var r := s.active[id];
        s' == s.(active := s.active[id := r.(next := r.next + 1, st := r.st[r.next := Running], outstanding := r.outstanding + 1)]))
  }

  /** One byte of a running part arrives: from the cache file, or from a body of the read's own version. */
  ghost predicate Deliver(s: State, id: Id, j: nat, x: nat, s': State) {
    && id in s.active && j < |s.active[id].parts| && j < |s.active[id].st| && s.active[id].st[j] == Running
    && InPart(s.active[id].parts[j], x) && x < |s.active[id].buffer|
    && (var r := s.active[id]; var p := r.parts[j];
        var held := p.slot != NO_SLOT;
        && (held ==> DiskAddress(r.offset, p, x) < |s.disk|)
        && (!held ==> r.offset + x < |Content(s, r.key)|)
        && s' == s.(active := s.active[id := r.(buffer := r.buffer[x := if held then s.disk[DiskAddress(r.offset, p, x)] else Content(s, r.key)[r.offset + x]],
                                              got := r.got + {x})]))
  }

  /**
    A part's completion: `received` bytes delivered, from the part's start;
    or a failure, or a body of another version, which delivers none.
  */
  function EndPartOf(r: Read, j: nat, received: nat, refetch: bool, failed: bool): Read
    requires j < |r.st| && r.outstanding > 0
  {
    r.(st := r.st[j := Ended(received)], bytes := r.bytes + received, refetch := r.refetch || refetch, failed := r.failed || failed,
       outstanding := r.outstanding - 1)
  }

  ghost predicate EndPart(s: State, id: Id, j: nat, received: nat, refetch: bool, failed: bool, s': State) {
    && id in s.active && j < |s.active[id].parts| && j < |s.active[id].st| && s.active[id].st[j] == Running && s.active[id].outstanding > 0
    && received <= s.active[id].parts[j].length && (refetch || failed ==> received == 0)
    && (forall x | s.active[id].parts[j].from <= x < s.active[id].parts[j].from + received :: x in s.active[id].got)
    && Settle(s, id, EndPartOf(s.active[id], j, received, refetch, failed), s')
  }

  /** The loop is over, because every part is started or one could not be; its own hold goes. */
  ghost predicate EndIssue(s: State, id: Id, unstarted: bool, s': State) {
    && id in s.active && s.active[id].planned && s.active[id].issuing && s.active[id].outstanding > 0
    && (if unstarted then 0 < s.active[id].next < |s.active[id].parts| else s.active[id].next == |s.active[id].parts|)
    && Settle(s, id, s.active[id].(issuing := false, refetch := s.active[id].refetch || unstarted, outstanding := s.active[id].outstanding - 1), s')
  }

  function Succeeds(r: Read): bool {
    !r.failed && !r.refetch && r.next <= |r.parts| && r.bytes == EndOf(r.parts[..r.next])
  }

  /** DiskCacheReadSettle: the last hold to go unpins the blocks and calls the completion. */
  ghost predicate Settle(s: State, id: Id, r: Read, s': State) {
    if r.outstanding > 0 then s' == s.(active := s.active[id := r])
    else
      && PinsDropped(s.q, s'.q, r.w, Succeeds(r))
      && s' == s.(q := s'.q, active := s.active - {id}, outcomes := s.outcomes[id := Outcome(Succeeds(r), r)])
  }

  ghost predicate FillStep(s: State, s': State) {
    || (exists f, x, key :: Reserve(s, f, x, key, s'))
    || (exists f :: StartWrite(s, f, s'))
    || (exists f, i :: WriteByte(s, f, i, s'))
    || (exists f, written :: EndFill(s, f, written, s'))
    || Touch(s, s')
  }

  ghost predicate ReadStep(s: State, s': State) {
    || (exists id, key, offset, valid, w, buffer :: BeginRead(s, id, key, offset, valid, w, buffer, s'))
    || (exists id, w :: GivePins(s, id, w, s'))
    || (exists id, parts :: PlanParts(s, id, parts, s'))
    || (exists id :: Decline(s, id, s'))
    || (exists id :: StartPart(s, id, s'))
    || (exists id, j, x :: Deliver(s, id, j, x, s'))
    || (exists id, j, received, refetch, failed :: EndPart(s, id, j, received, refetch, failed, s'))
    || (exists id, unstarted :: EndIssue(s, id, unstarted, s'))
  }

  ghost predicate Next(s: State, s': State) {
    FillStep(s, s') || ReadStep(s, s')
  }

  // ---- the invariant ----

  function DiskByte(disk: seq<Byte>, x: nat, i: nat): Byte
    requires x * BLOCK + i < |disk|
  {
    disk[x * BLOCK + i]
  }

  /** Byte `i` of slot `x` in the cache file is that byte of the block `key` names. */
  predicate ByteOk(s: State, x: nat, key: Key, i: nat) {
    && x * BLOCK + i < |s.disk| && i < BLOCK && key.block * BLOCK <= |Content(s, key)|
    && DiskByte(s.disk, x, i) == BlockBytes(Content(s, key), key.block)[i]
  }

  /** A servable slot's bytes in the cache file are its key's block. */
  ghost predicate HeldOk(s: State) {
    forall x, i | 0 <= x < |s.q| && s.q[x].state == Held && 0 <= i < BLOCK :: ByteOk(s, x, s.q[x].key, i)
  }

  ghost predicate FillOk(s: State, e: Fill) {
    && e.slot < |s.q| && s.q[e.slot].state == Filling && s.q[e.slot].key == e.key
    && (forall i | i in e.done :: ByteOk(s, e.slot, e.key, i))
  }

  ghost predicate FillsOk(s: State) {
    && (forall f | f in s.fills :: FillOk(s, s.fills[f]))
    && (forall f, g | f in s.fills && g in s.fills && f != g :: s.fills[f].slot != s.fills[g].slot)
  }

  function Pinners(active: map<Id, Read>, x: nat): set<Id> {
    set id | id in active && x in active[id].w
  }

  /** A slot's pins are its readers, and its fill. */
  ghost predicate PinsOk(s: State) {
    forall x | 0 <= x < |s.q| :: s.q[x].pins == |Pinners(s.active, x)| + (if s.q[x].state == Filling then 1 else 0)
  }

  /** Each slot a read has pinned serves the block it was pinned for. */
  ghost predicate SlotsOk(s: State, r: Read) {
    forall i | 0 <= i < |r.w| && r.w[i] != NO_SLOT ::
      r.w[i] < |s.q| && s.q[r.w[i]].state == Held && s.q[r.w[i]].key == KeyAt(r, i)
  }

  ghost predicate RangeOk(s: State, r: Read) {
    && r.valid > 0 && r.offset + r.valid <= |Content(s, r.key)| && r.key.block == FirstBlock(r.offset)
    && |r.w| == BlockCount(r.offset, r.valid) && |r.buffer| >= Span(r.valid)
  }

  function Received(st: seq<PartState>): nat {
    if st == [] then 0
    else Received(st[..|st| - 1]) + (if st[|st| - 1].Ended? then st[|st| - 1].received else 0)
  }

  function RunningParts(st: seq<PartState>): nat {
    if st == [] then 0
    else RunningParts(st[..|st| - 1]) + (if st[|st| - 1].Running? then 1 else 0)
  }

  ghost predicate PartDone(r: Read, j: nat, received: nat)
    requires j < |r.parts|
  {
    received <= r.parts[j].length && forall x | r.parts[j].from <= x < r.parts[j].from + received :: x in r.got
  }

  ghost predicate PartsDone(r: Read) {
    && |r.st| == |r.parts| && r.next <= |r.parts|
    && (r.planned ==> PartsOk(r.offset, r.valid, r.w, r.parts) && r.valid <= EndOf(r.parts) <= Span(r.valid))
    && (!r.planned ==> r.parts == [])
    && (forall j | 0 <= j < |r.st| :: r.st[j].Waiting? <==> j >= r.next)
    && (forall j | 0 <= j < |r.st| && r.st[j].Ended? :: PartDone(r, j, r.st[j].received))
  }

  ghost predicate GotOk(s: State, r: Read) {
    forall x | x in r.got ::
      x < |r.buffer| && (x < r.valid && r.offset + x < |Content(s, r.key)| ==> r.buffer[x] == Content(s, r.key)[r.offset + x])
  }

  ghost predicate CountsOk(r: Read) {
    && r.bytes == Received(r.st)
    && r.outstanding == RunningParts(r.st) + (if r.issuing then 1 else 0)
    && (!r.issuing && !r.refetch ==> r.next == |r.parts|)
    && (!r.issuing ==> r.planned)
    && (r.refetch || r.failed ==> (exists j: nat :: Barren(r, j)) || (!r.issuing && r.next < |r.parts|))
  }

  /** A part that ended with nothing. */
  predicate Barren(r: Read, j: nat) {
    j < |r.st| && r.st[j] == Ended(0)
  }

  /** Every part was started, and every one delivered all it was for. */
  ghost predicate InFull(r: Read) {
    |r.st| == |r.parts| && forall j | 0 <= j < |r.parts| :: r.st[j] == Ended(r.parts[j].length)
  }

  ghost predicate ReadOk(s: State, r: Read) {
    RangeOk(s, r) && SlotsOk(s, r) && PartsDone(r) && GotOk(s, r) && CountsOk(r)
  }

  ghost predicate ReadsOk(s: State) {
    forall id | id in s.active :: ReadOk(s, s.active[id]) && s.active[id].outstanding > 0
  }

  ghost predicate OutcomeOk(s: State, o: Outcome) {
    && (o.success <==> InFull(o.read))
    && (o.success ==>
      o.read.offset + o.read.valid <= |Content(s, o.read.key)| && o.read.valid <= |o.read.buffer| &&
      o.read.buffer[..o.read.valid] == Content(s, o.read.key)[o.read.offset..o.read.offset + o.read.valid])
  }

  ghost predicate OutcomesOk(s: State) {
    s.active.Keys !! s.outcomes.Keys && forall id | id in s.outcomes :: OutcomeOk(s, s.outcomes[id])
  }

  ghost predicate Inv(s: State) {
    && |s.q| < NO_SLOT && |s.disk| == |s.q| * BLOCK
    && HeldOk(s) && FillsOk(s) && PinsOk(s) && ReadsOk(s) && OutcomesOk(s)
  }

  // ---- sums over parts ----

  lemma {:induction false} SumsUpdate(st: seq<PartState>, j: nat, v: PartState)
    requires j < |st|
    ensures Received(st[j := v]) == Received(st) - (if st[j].Ended? then st[j].received else 0) + (if v.Ended? then v.received else 0)
    ensures RunningParts(st[j := v]) == RunningParts(st) - (if st[j].Running? then 1 else 0) + (if v.Running? then 1 else 0)
  {
    var st' := st[j := v];
    var rest := st[..|st| - 1];
    if j == |st| - 1 {
      assert st'[..|st'| - 1] == rest;
    } else {
      SumsUpdate(rest, j, v);
      assert st'[..|st'| - 1] == rest[j := v];
    }
  }

  lemma {:induction false} WaitingSums(n: nat)
    ensures Received(seq(n, _ => Waiting)) == 0 && RunningParts(seq(n, _ => Waiting)) == 0
  {
    if n > 0 {
      var st := seq(n, _ => Waiting);
      assert st[..n - 1] == seq(n - 1, _ => Waiting);
      WaitingSums(n - 1);
    }
  }

  /** Parts received in full are the only way to receive as much as was asked for. */
  lemma {:induction false} AllReceived(parts: seq<Part>, st: seq<PartState>, n: nat)
    requires n <= |parts| == |st| && Consecutive(parts)
    requires forall j | 0 <= j < n && st[j].Ended? :: st[j].received <= parts[j].length
    ensures Received(st[..n]) <= EndOf(parts[..n])
    ensures Received(st[..n]) == EndOf(parts[..n]) <==> forall j | 0 <= j < n :: parts[j].length == 0 || st[j] == Ended(parts[j].length)
  {
    if n > 0 {
      AllReceived(parts, st, n - 1);
      assert st[..n][..n - 1] == st[..n - 1];
      assert parts[n - 1].from == EndOf(parts[..n - 1]);
    }
  }

  // ---- a successful read has the file's bytes ----

  lemma SuccessGotAll(r: Read, x: nat)
    requires PartsDone(r) && CountsOk(r) && !r.issuing && Succeeds(r) && x < r.valid
    ensures x in r.got
  {
    assert r.parts[..|r.parts|] == r.parts && r.st[..|r.st|] == r.st;
    forall j | 0 <= j < |r.st| && r.st[j].Ended? ensures r.st[j].received <= r.parts[j].length {
      assert PartDone(r, j, r.st[j].received);
    }
    AllReceived(r.parts, r.st, |r.parts|);
    var j := EveryByteInAPart(r.parts, x);
    assert r.st[j] == Ended(r.parts[j].length);
    assert PartDone(r, j, r.st[j].received);
  }

  /** Success is exactly every part delivered in full. */
  lemma SuccessIsInFull(s: State, r: Read)
    requires ReadOk(s, r) && !r.issuing
    ensures Succeeds(r) <==> InFull(r)
  {
    assert r.parts[..|r.parts|] == r.parts && r.st[..|r.st|] == r.st;
    forall j | 0 <= j < |r.parts| ensures r.parts[j].length > 0 { assert PartOk(r.offset, r.valid, r.w, r.parts[j]); }
    forall j | 0 <= j < |r.st| && r.st[j].Ended? ensures r.st[j].received <= r.parts[j].length {
      assert PartDone(r, j, r.st[j].received);
    }
    AllReceived(r.parts, r.st, |r.parts|);
  }

  lemma SuccessIsFile(s: State, r: Read)
    requires ReadOk(s, r) && !r.issuing
    ensures OutcomeOk(s, Outcome(Succeeds(r), r))
  {
    SuccessIsInFull(s, r);
    if Succeeds(r) {
      forall x | 0 <= x < r.valid ensures r.buffer[x] == Content(s, r.key)[r.offset + x] {
        SuccessGotAll(r, x);
      }
    }
  }

  // ---- frames ----

  /** No slot changes hands. */
  ghost predicate SameHands(q: seq<Slot>, q': seq<Slot>) {
    |q'| == |q| && forall x | 0 <= x < |q| :: q'[x].key == q[x].key && q'[x].state == q[x].state
  }

  lemma ReadStays(s: State, s': State, r: Read)
    requires ReadOk(s, r) && s'.content == s.content && |s'.q| == |s.q|
    requires forall x | 0 <= x < |s.q| && x in r.w :: s'.q[x].key == s.q[x].key && s'.q[x].state == s.q[x].state
    ensures ReadOk(s', r)
  {
    forall i | 0 <= i < |r.w| && r.w[i] != NO_SLOT
      ensures r.w[i] < |s'.q| && s'.q[r.w[i]].state == Held && s'.q[r.w[i]].key == KeyAt(r, i)
    {
      assert r.w[i] in r.w;
    }
  }

  lemma HandsStay(s: State, s': State)
    requires HeldOk(s) && FillsOk(s) && s'.content == s.content && s'.disk == s.disk && s'.fills == s.fills && SameHands(s.q, s'.q)
    ensures HeldOk(s') && FillsOk(s')
  {
    forall x, i | 0 <= x < |s'.q| && s'.q[x].state == Held && 0 <= i < BLOCK ensures ByteOk(s', x, s'.q[x].key, i) {
      assert ByteOk(s, x, s.q[x].key, i);
    }
    forall f | f in s'.fills ensures FillOk(s', s'.fills[f]) {
      FillStays(s, s', s.fills[f]);
    }
  }

  lemma FillStays(s: State, s': State, e: Fill)
    requires FillOk(s, e) && s'.content == s.content && s'.disk == s.disk && |s'.q| == |s.q|
    requires s'.q[e.slot].state == Filling && s'.q[e.slot].key == e.key
    ensures FillOk(s', e)
  {
    forall i | i in e.done ensures ByteOk(s', e.slot, e.key, i) {
      assert ByteOk(s, e.slot, e.key, i);
    }
  }

  lemma OutcomesStay(s: State, s': State)
    requires OutcomesOk(s) && s'.content == s.content && s'.outcomes == s.outcomes && s'.active.Keys <= s.active.Keys
    ensures OutcomesOk(s')
  {
    forall id | id in s'.outcomes ensures OutcomeOk(s', s'.outcomes[id]) {
      assert OutcomeOk(s, s.outcomes[id]);
    }
  }

  /** A slot that is being filled is pinned by no read. */
  lemma FillingUnread(s: State, x: nat)
    requires ReadsOk(s) && x < |s.q| < NO_SLOT && s.q[x].state != Held
    ensures Pinners(s.active, x) == {}
  {
    forall id | id in s.active ensures x !in s.active[id].w {
      var r := s.active[id];
      assert ReadOk(s, r);
      assert forall i | 0 <= i < |r.w| :: r.w[i] != x;
    }
  }

  // ---- fills keep the invariant ----

  lemma UnpinnedUnread(s: State, x: nat, id: Id)
    requires PinsOk(s) && x < |s.q| && s.q[x].pins == 0 && id in s.active
    ensures x !in s.active[id].w && s.q[x].state != Filling
  {
    assert |Pinners(s.active, x)| == 0;
    assert id !in Pinners(s.active, x);
  }

  lemma ReserveReads(s: State, f: Id, x: nat, key: Key, s': State)
    requires Inv(s) && Reserve(s, f, x, key, s')
    ensures ReadsOk(s') && PinsOk(s')
  {
    forall id | id in s'.active ensures ReadOk(s', s'.active[id]) {
      UnpinnedUnread(s, x, id);
      ReadStays(s, s', s.active[id]);
    }
  }

  lemma ReserveInv(s: State, f: Id, x: nat, key: Key, s': State)
    requires Inv(s) && Reserve(s, f, x, key, s')
    ensures Inv(s')
  {
    ReserveReads(s, f, x, key, s');
    forall y, i | 0 <= y < |s'.q| && s'.q[y].state == Held && 0 <= i < BLOCK ensures ByteOk(s', y, s'.q[y].key, i) {
      assert ByteOk(s, y, s.q[y].key, i);
    }
    forall g | g in s.fills ensures s.fills[g].slot != x && FillOk(s', s.fills[g]) {
      assert FillOk(s, s.fills[g]);
      assert s.q[s.fills[g].slot].pins > 0;
      FillStays(s, s', s.fills[g]);
    }
    OutcomesStay(s, s');
  }

  lemma StartWriteInv(s: State, f: Id, s': State)
    requires Inv(s) && StartWrite(s, f, s')
    ensures Inv(s')
  {
    forall x, i | 0 <= x < |s'.q| && s'.q[x].state == Held && 0 <= i < BLOCK ensures ByteOk(s', x, s'.q[x].key, i) {
      assert ByteOk(s, x, s.q[x].key, i);
    }
    forall g | g in s'.fills ensures FillOk(s', s'.fills[g]) {
      assert FillOk(s, s.fills[g]);
      FillStays(s, s', s.fills[g]);
    }
    forall id | id in s'.active ensures ReadOk(s', s'.active[id]) { ReadStays(s, s', s.active[id]); }
    OutcomesStay(s, s');
  }

  lemma WriteElsewhere(s: State, s': State, x: nat, i: nat, y: nat, key: Key, j: nat)
    requires x != y && i < BLOCK && s'.content == s.content && x * BLOCK + i < |s.disk|
    requires |s'.disk| == |s.disk| && s'.disk == s.disk[x * BLOCK + i := s'.disk[x * BLOCK + i]] && ByteOk(s, y, key, j)
    ensures ByteOk(s', y, key, j)
  {
  }

  lemma WriteFills(s: State, f: Id, i: nat, s': State)
    requires Inv(s) && WriteByte(s, f, i, s')
    ensures FillsOk(s')
  {
    var e := s.fills[f];
    forall g | g in s'.fills ensures FillOk(s', s'.fills[g]) {
      var d := s.fills[g];
      assert FillOk(s, d);
      forall j | j in s'.fills[g].done ensures ByteOk(s', d.slot, d.key, j) {
        if g != f {
          assert ByteOk(s, d.slot, d.key, j);
          WriteElsewhere(s, s', e.slot, i, d.slot, d.key, j);
        } else if j != i {
          assert ByteOk(s, d.slot, d.key, j);
        }
      }
    }
  }

  lemma WriteByteInv(s: State, f: Id, i: nat, s': State)
    requires Inv(s) && WriteByte(s, f, i, s')
    ensures Inv(s')
  {
    var e := s.fills[f];
    assert FillOk(s, e);
    forall x, j | 0 <= x < |s'.q| && s'.q[x].state == Held && 0 <= j < BLOCK ensures ByteOk(s', x, s'.q[x].key, j) {
      assert ByteOk(s, x, s.q[x].key, j);
      WriteElsewhere(s, s', e.slot, i, x, s.q[x].key, j);
    }
    WriteFills(s, f, i, s');
    forall id | id in s'.active ensures ReadOk(s', s'.active[id]) { ReadStays(s, s', s.active[id]); }
    OutcomesStay(s, s');
  }

  lemma EndFillReads(s: State, f: Id, written: bool, s': State)
    requires Inv(s) && EndFill(s, f, written, s')
    ensures ReadsOk(s') && PinsOk(s')
  {
    var x := s.fills[f].slot;
    assert FillOk(s, s.fills[f]);
    FillingUnread(s, x);
    forall id | id in s'.active ensures ReadOk(s', s'.active[id]) {
      assert x !in s.active[id].w by { assert id !in Pinners(s.active, x); }
      ReadStays(s, s', s.active[id]);
    }
  }

  lemma EndFillInv(s: State, f: Id, written: bool, s': State)
    requires Inv(s) && EndFill(s, f, written, s')
    ensures Inv(s')
  {
    var e := s.fills[f];
    assert FillOk(s, e);
    EndFillReads(s, f, written, s');
    forall x, i | 0 <= x < |s'.q| && s'.q[x].state == Held && 0 <= i < BLOCK ensures ByteOk(s', x, s'.q[x].key, i) {
      if x == e.slot { assert i in e.done; } else { assert ByteOk(s, x, s.q[x].key, i); }
    }
    forall g | g in s'.fills ensures FillOk(s', s'.fills[g]) {
      FillStays(s, s', s.fills[g]);
    }
    OutcomesStay(s, s');
  }

  lemma TouchInv(s: State, s': State)
    requires Inv(s) && Touch(s, s')
    ensures Inv(s')
  {
    HandsStay(s, s');
    forall id | id in s'.active ensures ReadOk(s', s'.active[id]) { ReadStays(s, s', s.active[id]); }
    OutcomesStay(s, s');
  }

  // ---- reads keep the invariant ----

  /** Reads other than `id` are as they were. */
  ghost predicate OthersSame(a: map<Id, Read>, a': map<Id, Read>, id: Id) {
    forall b | b != id :: (b in a' <==> b in a) && (b in a ==> a'[b] == a[b])
  }

  lemma SizeWithout(p: set<Id>, id: Id)
    ensures |p| == |p - {id}| + (if id in p then 1 else 0)
  {
    if id in p { assert p == (p - {id}) + {id}; } else { assert p == p - {id}; }
  }

  /** Pin counts follow when one read's pins change. */
  lemma PinnersChange(a: map<Id, Read>, a': map<Id, Read>, id: Id, x: nat)
    requires OthersSame(a, a', id)
    ensures |Pinners(a', x)| == |Pinners(a, x)| - (if id in a && x in a[id].w then 1 else 0) + (if id in a' && x in a'[id].w then 1 else 0)
  {
    var p, p' := Pinners(a, x), Pinners(a', x);
    SizeWithout(p, id);
    SizeWithout(p', id);
    assert p' - {id} == p - {id};
  }

  /** The slots after one read's pins change from those of `a` to those of `a'`. */
  ghost predicate PinsFollow(q: seq<Slot>, q': seq<Slot>, a: map<Id, Read>, a': map<Id, Read>, id: Id) {
    && SameHands(q, q')
    && forall x | 0 <= x < |q| ::
         q'[x].pins == q[x].pins - (if id in a && x in a[id].w then 1 else 0) + (if id in a' && x in a'[id].w then 1 else 0)
  }

  lemma PinsOkFollow(s: State, s': State, id: Id)
    requires PinsOk(s) && PinsFollow(s.q, s'.q, s.active, s'.active, id) && OthersSame(s.active, s'.active, id)
    ensures PinsOk(s')
  {
    forall x | 0 <= x < |s'.q| ensures s'.q[x].pins == |Pinners(s'.active, x)| + (if s'.q[x].state == Filling then 1 else 0) {
      PinnersChange(s.active, s'.active, id, x);
    }
  }

  /** A step that pins or unpins for read `id` and touches no other. */
  lemma PinStepInv(s: State, s': State, id: Id)
    requires Inv(s) && s' == s.(q := s'.q, active := s'.active, outcomes := s'.outcomes)
    requires PinsFollow(s.q, s'.q, s.active, s'.active, id) && OthersSame(s.active, s'.active, id)
    requires id in s'.active ==> ReadOk(s', s'.active[id]) && s'.active[id].outstanding > 0
    requires OutcomesOk(s')
    ensures Inv(s')
  {
    HandsStay(s, s');
    PinsOkFollow(s, s', id);
    forall b | b in s'.active && b != id ensures ReadOk(s', s'.active[b]) && s'.active[b].outstanding > 0 {
      ReadStays(s, s', s.active[b]);
    }
  }

  lemma OutcomesOnlyActive(s: State, s': State)
    requires OutcomesOk(s) && s'.content == s.content && s'.outcomes == s.outcomes && s'.active.Keys !! s.outcomes.Keys
    ensures OutcomesOk(s')
  {
    forall id | id in s'.outcomes ensures OutcomeOk(s', s'.outcomes[id]) { assert OutcomeOk(s, s.outcomes[id]); }
  }

  lemma BeginReadInv(s: State, id: Id, key: Key, offset: nat, valid: nat, w: seq<nat>, buffer: seq<Byte>, s': State)
    requires Inv(s) && BeginRead(s, id, key, offset, valid, w, buffer, s')
    ensures Inv(s')
  {
    var r := s'.active[id];
    forall i | 0 <= i < |r.w| && r.w[i] != NO_SLOT
      ensures r.w[i] < |s'.q| && s'.q[r.w[i]].state == Held && s'.q[r.w[i]].key == KeyAt(r, i)
    {
      assert w[i] in w;
    }
    OutcomesOnlyActive(s, s');
    PinStepInv(s, s', id);
  }

  lemma PlanPins(s: State, id: Id, w: seq<nat>, s': State, x: nat)
    requires Inv(s) && id in s.active && Subplan(s.active[id].w, w) && GaveBack(s.q, s'.q, s.active[id].w, w) && x < |s.q|
    ensures s'.q[x].pins == s.q[x].pins - (if x in s.active[id].w then 1 else 0) + (if x in w then 1 else 0)
  {
    if x in w { SubplanMembers(s.active[id].w, w, x); }
    if x in s.active[id].w {
      assert id in Pinners(s.active, x);
      assert s.q[x].pins > 0;
    }
  }

  lemma GivePinsFollow(s: State, id: Id, w: seq<nat>, s': State)
    requires Inv(s) && GivePins(s, id, w, s')
    ensures PinsFollow(s.q, s'.q, s.active, s'.active, id)
  {
    forall x | 0 <= x < |s.q| ensures s'.q[x].pins == s.q[x].pins - (if x in s.active[id].w then 1 else 0) + (if x in w then 1 else 0) {
      PlanPins(s, id, w, s', x);
    }
  }

  lemma FewerPins(s: State, r: Read, w: seq<nat>)
    requires ReadOk(s, r) && !r.planned && Subplan(r.w, w)
    ensures ReadOk(s, r.(w := w))
  {
  }

  lemma GivePinsInv(s: State, id: Id, w: seq<nat>, s': State)
    requires Inv(s) && GivePins(s, id, w, s')
    ensures Inv(s')
  {
    assert ReadOk(s, s.active[id]);
    FewerPins(s, s.active[id], w);
    ReadStays(s, s', s'.active[id]);
    GivePinsFollow(s, id, w, s');
    OutcomesOnlyActive(s, s');
    PinStepInv(s, s', id);
  }

  /** A read's last pins go back. */
  lemma DropFollows(s: State, id: Id, w: seq<nat>, served: bool, q': seq<Slot>, a': map<Id, Read>)
    requires Inv(s) && id in s.active && s.active[id].w == w && PinsDropped(s.q, q', w, served) && a' == s.active - {id}
    ensures PinsFollow(s.q, q', s.active, a', id)
  {
    forall x | 0 <= x < |s.q| && x in w ensures s.q[x].pins > 0 {
      assert id in Pinners(s.active, x);
    }
  }

  lemma DeclineInv(s: State, id: Id, s': State)
    requires Inv(s) && Decline(s, id, s')
    ensures Inv(s')
  {
    DropFollows(s, id, s.active[id].w, false, s'.q, s'.active);
    OutcomesStay(s, s');
    PinStepInv(s, s', id);
  }

  /** A step of one read that leaves its pins alone. */
  lemma LocalInv(s: State, id: Id, r: Read, s': State)
    requires Inv(s) && id in s.active && s' == s.(active := s.active[id := r])
    requires r.w == s.active[id].w && ReadOk(s, r) && r.outstanding > 0
    ensures Inv(s')
  {
    ReadStays(s, s', r);
    OutcomesOnlyActive(s, s');
    PinStepInv(s, s', id);
  }

  lemma PlannedRead(s: State, r: Read, parts: seq<Part>)
    requires ReadOk(s, r) && !r.planned
    requires PartsOk(r.offset, r.valid, r.w, parts) && r.valid <= EndOf(parts) <= Span(r.valid)
    ensures ReadOk(s, r.(planned := true, parts := parts, st := seq(|parts|, _ => Waiting)))
  {
    WaitingSums(|parts|);
  }

  lemma PlanPartsInv(s: State, id: Id, parts: seq<Part>, s': State)
    requires Inv(s) && PlanParts(s, id, parts, s')
    ensures Inv(s')
  {
    var r := s.active[id];
    assert ReadOk(s, r);
    PlannedRead(s, r, parts);
    LocalInv(s, id, r.(planned := true, parts := parts, st := seq(|parts|, _ => Waiting)), s');
  }

  /** DiskCacheReadSettle, for a read whose record is consistent but for the hold being dropped. */
  lemma SettleInv(s: State, id: Id, r: Read, s': State)
    requires Inv(s) && id in s.active && Settle(s, id, r, s') && r.w == s.active[id].w && ReadOk(s, r)
    ensures Inv(s')
  {
    if r.outstanding > 0 {
      LocalInv(s, id, r, s');
    } else {
      DropFollows(s, id, r.w, Succeeds(r), s'.q, s'.active);
      SuccessIsFile(s, r);
      forall b | b in s'.outcomes ensures OutcomeOk(s', s'.outcomes[b]) {
        if b != id { assert OutcomeOk(s, s.outcomes[b]); } else { assert OutcomeOk(s, Outcome(Succeeds(r), r)); }
      }
      PinStepInv(s, s', id);
    }
  }

  lemma StartedRead(s: State, r: Read)
    requires ReadOk(s, r) && r.issuing && r.next < |r.parts|
    ensures ReadOk(s, r.(next := r.next + 1, st := r.st[r.next := Running], outstanding := r.outstanding + 1))
  {
    var r' := r.(next := r.next + 1, st := r.st[r.next := Running], outstanding := r.outstanding + 1);
    if k: nat :| Barren(r, k) { assert Barren(r', k); }
    SumsUpdate(r.st, r.next, Running);
    forall j | 0 <= j < |r'.st| && r'.st[j].Ended? ensures PartDone(r', j, r'.st[j].received) {
      assert PartDone(r, j, r.st[j].received);
    }
  }

  lemma StartPartInv(s: State, id: Id, s': State)
    requires Inv(s) && StartPart(s, id, s')
    ensures Inv(s')
  {
    var r := s.active[id];
    assert ReadOk(s, r);
    StartedRead(s, r);
    LocalInv(s, id, r.(next := r.next + 1, st := r.st[r.next := Running], outstanding := r.outstanding + 1), s');
  }

  lemma EndedRead(s: State, r: Read, j: nat, received: nat, refetch: bool, failed: bool)
    requires ReadOk(s, r) && j < |r.st| && r.st[j] == Running && r.outstanding > 0 && PartDone(r, j, received) && (refetch || failed ==> received == 0)
    ensures ReadOk(s, EndPartOf(r, j, received, refetch, failed))
  {
    var r' := EndPartOf(r, j, received, refetch, failed);
    if k: nat :| Barren(r, k) { assert Barren(r', k); }
    assert received == 0 ==> Barren(r', j);
    SumsUpdate(r.st, j, Ended(received));
    forall k | 0 <= k < |r'.st| && r'.st[k].Ended? ensures PartDone(r', k, r'.st[k].received) {
      if k != j { assert PartDone(r, k, r.st[k].received); } else { assert PartDone(r, j, received); }
    }
  }

  lemma EndPartInv(s: State, id: Id, j: nat, received: nat, refetch: bool, failed: bool, s': State)
    requires Inv(s) && EndPart(s, id, j, received, refetch, failed, s')
    ensures Inv(s')
  {
    assert ReadOk(s, s.active[id]);
    EndedRead(s, s.active[id], j, received, refetch, failed);
    SettleInv(s, id, EndPartOf(s.active[id], j, received, refetch, failed), s');
  }

  lemma IssuedRead(s: State, r: Read, unstarted: bool)
    requires ReadOk(s, r) && r.issuing && r.planned && r.outstanding > 0 && (if unstarted then r.next < |r.parts| else r.next == |r.parts|)
    ensures ReadOk(s, r.(issuing := false, refetch := r.refetch || unstarted, outstanding := r.outstanding - 1))
  {
    var r' := r.(issuing := false, refetch := r.refetch || unstarted, outstanding := r.outstanding - 1);
    if k: nat :| Barren(r, k) { assert Barren(r', k); }
    forall k | 0 <= k < |r'.st| && r'.st[k].Ended? ensures PartDone(r', k, r'.st[k].received) {
      assert PartDone(r, k, r.st[k].received);
    }
  }

  lemma EndIssueInv(s: State, id: Id, unstarted: bool, s': State)
    requires Inv(s) && EndIssue(s, id, unstarted, s')
    ensures Inv(s')
  {
    var r := s.active[id];
    assert ReadOk(s, r);
    IssuedRead(s, r, unstarted);
    SettleInv(s, id, r.(issuing := false, refetch := r.refetch || unstarted, outstanding := r.outstanding - 1), s');
  }

  /** The byte a running part delivers is the file's. */
  lemma DeliveredByte(s: State, r: Read, p: Part, x: nat)
    requires Inv(s) && RangeOk(s, r) && SlotsOk(s, r) && PartOk(r.offset, r.valid, r.w, p) && InPart(p, x)
    requires x < r.valid && p.slot != NO_SLOT
    ensures DiskAddress(r.offset, p, x) < |s.disk| && s.disk[DiskAddress(r.offset, p, x)] == Content(s, r.key)[r.offset + x]
  {
    assert SourceOk(r.offset, r.w, p, x);
    var i, k := BlockAt(r.offset, x), (r.offset + x) % BLOCK;
    var slot := r.w[i];
    assert s.q[slot].key == KeyAt(r, i);
    assert ByteOk(s, slot, s.q[slot].key, k);
    BlockByte(Content(s, r.key), r.offset + x);
    assert DiskByte(s.disk, slot, k) == s.disk[DiskAddress(r.offset, p, x)];
    assert KeyAt(r, i).block == (r.offset + x) / BLOCK;
  }

  lemma DeliveredRead(s: State, r: Read, x: nat, v: Byte)
    requires ReadOk(s, r) && x < |r.buffer| && (x < r.valid ==> v == Content(s, r.key)[r.offset + x])
    ensures ReadOk(s, r.(buffer := r.buffer[x := v], got := r.got + {x}))
  {
    var r' := r.(buffer := r.buffer[x := v], got := r.got + {x});
    if k: nat :| Barren(r, k) { assert Barren(r', k); }
    forall k | 0 <= k < |r'.st| && r'.st[k].Ended? ensures PartDone(r', k, r'.st[k].received) {
      assert PartDone(r, k, r.st[k].received);
    }
  }

  lemma DeliverInv(s: State, id: Id, j: nat, x: nat, s': State)
    requires Inv(s) && Deliver(s, id, j, x, s')
    ensures Inv(s')
  {
    var r := s.active[id];
    assert ReadOk(s, r);
    assert PartOk(r.offset, r.valid, r.w, r.parts[j]);
    if x < r.valid && r.parts[j].slot != NO_SLOT { DeliveredByte(s, r, r.parts[j], x); }
    DeliveredRead(s, r, x, s'.active[id].buffer[x]);
    LocalInv(s, id, s'.active[id], s');
  }

  // ---- whole runs ----

  lemma FillStepInv(s: State, s': State)
    requires Inv(s) && FillStep(s, s')
    ensures Inv(s')
  {
    if f, x, key :| Reserve(s, f, x, key, s') {
      ReserveInv(s, f, x, key, s');
    } else if f :| StartWrite(s, f, s') {
      StartWriteInv(s, f, s');
    } else if f, i :| WriteByte(s, f, i, s') {
      WriteByteInv(s, f, i, s');
    } else if f, written :| EndFill(s, f, written, s') {
      EndFillInv(s, f, written, s');
    } else {
      TouchInv(s, s');
    }
  }

  lemma ReadStepInv(s: State, s': State)
    requires Inv(s) && ReadStep(s, s')
    ensures Inv(s')
  {
    if id, key, offset, valid, w, buffer :| BeginRead(s, id, key, offset, valid, w, buffer, s') {
      BeginReadInv(s, id, key, offset, valid, w, buffer, s');
    } else if id, w :| GivePins(s, id, w, s') {
      GivePinsInv(s, id, w, s');
    } else if id, parts :| PlanParts(s, id, parts, s') {
      PlanPartsInv(s, id, parts, s');
    } else if id :| Decline(s, id, s') {
      DeclineInv(s, id, s');
    } else if id :| StartPart(s, id, s') {
      StartPartInv(s, id, s');
    } else if id, j, x :| Deliver(s, id, j, x, s') {
      DeliverInv(s, id, j, x, s');
    } else if id, j, received, refetch, failed :| EndPart(s, id, j, received, refetch, failed, s') {
      EndPartInv(s, id, j, received, refetch, failed, s');
    } else {
      var id, unstarted :| EndIssue(s, id, unstarted, s');
      EndIssueInv(s, id, unstarted, s');
    }
  }

  ghost predicate Init(s: State) {
    && |s.q| < NO_SLOT && |s.disk| == |s.q| * BLOCK && s.fills == map[] && s.active == map[] && s.outcomes == map[]
    && forall x | 0 <= x < |s.q| :: s.q[x].state == Free && s.q[x].pins == 0
  }

  ghost predicate StepAt(r: seq<State>, i: nat) {
    i + 1 < |r| && Next(r[i], r[i + 1])
  }

  /** A run: any interleaving of reads and fills, byte by byte, from an empty cache. */
  ghost predicate Run(r: seq<State>) {
    |r| > 0 && Init(r[0]) && forall i | 0 <= i < |r| - 1 :: StepAt(r, i)
  }

  lemma InitInv(s: State)
    requires Init(s)
    ensures Inv(s)
  {
    forall x | 0 <= x < |s.q| ensures Pinners(s.active, x) == {} {}
  }

  lemma StepKeepsInv(s: State, s': State)
    requires Inv(s) && Next(s, s')
    ensures Inv(s')
  {
    if FillStep(s, s') { FillStepInv(s, s'); } else { ReadStepInv(s, s'); }
  }

  lemma {:induction false} RunKeepsInv(r: seq<State>, i: nat)
    requires Run(r) && i < |r|
    ensures Inv(r[i])
  {
    if i == 0 {
      InitInv(r[0]);
    } else {
      RunKeepsInv(r, i - 1);
      assert StepAt(r, i - 1);
      StepKeepsInv(r[i - 1], r[i]);
    }
  }

  // ---- main results ----

  /** In every run, a servable slot's bytes in the cache file are its key's block. */
  lemma HeldSlotHoldsBlock(r: seq<State>, n: nat, x: nat)
    requires Run(r) && n < |r| && x < |r[n].q| && r[n].q[x].state == Held
    ensures |r[n].disk| == |r[n].q| * BLOCK && r[n].q[x].key.block * BLOCK <= |Content(r[n], r[n].q[x].key)|
    ensures r[n].disk[x * BLOCK..(x + 1) * BLOCK] == BlockBytes(Content(r[n], r[n].q[x].key), r[n].q[x].key.block)
  {
    RunKeepsInv(r, n);
    var s := r[n];
    var key := s.q[x].key;
    assert ByteOk(s, x, key, 0);
    forall i | 0 <= i < BLOCK ensures s.disk[x * BLOCK..(x + 1) * BLOCK][i] == BlockBytes(Content(s, key), key.block)[i] {
      assert ByteOk(s, x, key, i);
      assert DiskByte(s.disk, x, i) == s.disk[x * BLOCK + i];
    }
  }

  lemma EndFillKeepsPinned(s: State, f: Id, written: bool, s': State, id: Id, x: nat)
    requires Inv(s) && EndFill(s, f, written, s') && id in s.active && x < |s.q| && x in s.active[id].w
    ensures |s'.q| == |s.q| && s'.q[x].key == s.q[x].key && s'.q[x].state == s.q[x].state
  {
    assert FillOk(s, s.fills[f]);
    FillingUnread(s, s.fills[f].slot);
    assert id !in Pinners(s.active, s.fills[f].slot);
  }

  lemma FillKeepsPinned(s: State, s': State, id: Id, x: nat)
    requires Inv(s) && FillStep(s, s') && id in s.active && x < |s.q| && x in s.active[id].w
    ensures |s'.q| == |s.q| && s'.q[x].key == s.q[x].key && s'.q[x].state == s.q[x].state
  {
    if f, y, key :| Reserve(s, f, y, key, s') {
      UnpinnedUnread(s, y, id);
    } else if f, written :| EndFill(s, f, written, s') {
      EndFillKeepsPinned(s, f, written, s', id, x);
    }
  }

  lemma ReadKeepsHands(s: State, s': State)
    requires ReadStep(s, s')
    ensures SameHands(s.q, s'.q)
  {
  }

  /** In every run, while a read has a slot pinned no step changes the slot's key or makes it unservable. */
  lemma PinnedSlotKeepsKey(r: seq<State>, n: nat, id: Id, x: nat)
    requires Run(r) && n + 1 < |r| && id in r[n].active && x < |r[n].q| && x in r[n].active[id].w
    ensures |r[n + 1].q| == |r[n].q| && r[n + 1].q[x].key == r[n].q[x].key && r[n + 1].q[x].state == r[n].q[x].state == Held
  {
    RunKeepsInv(r, n);
    var s := r[n];
    assert ReadOk(s, s.active[id]);
    assert StepAt(r, n);
    if FillStep(s, r[n + 1]) { FillKeepsPinned(s, r[n + 1], id, x); } else { ReadKeepsHands(s, r[n + 1]); }
  }

  /** In every run, no fill writes the slot of any byte a read's running part is still to read. */
  lemma WritesAvoidReads(r: seq<State>, n: nat, f: Id, i: nat, id: Id, j: nat, x: nat)
    requires Run(r) && n < |r| && f in r[n].fills && i < BLOCK && id in r[n].active
    requires j < |r[n].active[id].parts| && r[n].active[id].parts[j].slot != NO_SLOT && InPart(r[n].active[id].parts[j], x)
    ensures r[n].fills[f].slot !in r[n].active[id].w
    ensures r[n].fills[f].slot * BLOCK + i != DiskAddress(r[n].active[id].offset, r[n].active[id].parts[j], x)
  {
    RunKeepsInv(r, n);
    var s := r[n];
    var rd := s.active[id];
    assert ReadOk(s, rd) && FillOk(s, s.fills[f]);
    FillingUnread(s, s.fills[f].slot);
    assert id !in Pinners(s.active, s.fills[f].slot);
    assert PartOk(rd.offset, rd.valid, rd.w, rd.parts[j]);
    ReadsOwnSlots(rd.offset, rd.valid, rd.w, rd.parts[j], x, s.fills[f].slot, i);
  }

  /** A part reads the cache file in slots of its read's alone. */
  lemma ReadsOwnSlots(offset: nat, valid: nat, w: seq<nat>, p: Part, x: nat, slot: nat, i: nat)
    requires PartOk(offset, valid, w, p) && p.slot != NO_SLOT && InPart(p, x) && slot !in w && i < BLOCK
    ensures slot * BLOCK + i != DiskAddress(offset, p, x)
  {
    assert SourceOk(offset, w, p, x);
    assert w[BlockAt(offset, x)] in w;
  }

  /** In every run, a read completed with success left the file's bytes in the first `valid` bytes of its buffer. */
  lemma SuccessfulReadIsFile(r: seq<State>, n: nat, id: Id)
    requires Run(r) && n < |r| && id in r[n].outcomes && r[n].outcomes[id].success
    ensures var rd := r[n].outcomes[id].read;
            && rd.offset + rd.valid <= |Content(r[n], rd.key)| && rd.valid <= |rd.buffer|
            && rd.buffer[..rd.valid] == Content(r[n], rd.key)[rd.offset..rd.offset + rd.valid]
  {
    RunKeepsInv(r, n);
    assert OutcomeOk(r[n], r[n].outcomes[id]);
  }

  /** In every run, a read completes with success exactly when all its parts were started and each delivered in full. */
  lemma SuccessExactly(r: seq<State>, n: nat, id: Id)
    requires Run(r) && n < |r| && id in r[n].outcomes
    ensures r[n].outcomes[id].success <==> InFull(r[n].outcomes[id].read)
  {
    RunKeepsInv(r, n);
    assert OutcomeOk(r[n], r[n].outcomes[id]);
  }

  lemma FillKeepsOutcomes(s: State, s': State)
    requires FillStep(s, s')
    ensures s'.outcomes == s.outcomes
  {
  }

  lemma ReadKeepsOutcome(s: State, s': State, id: Id)
    requires ReadStep(s, s') && id in s.outcomes && id !in s.active
    ensures id in s'.outcomes && s'.outcomes[id] == s.outcomes[id]
  {
    if b, j, received, refetch, failed :| EndPart(s, b, j, received, refetch, failed, s') {
      assert b != id;
    } else if b, unstarted :| EndIssue(s, b, unstarted, s') {
      assert b != id;
    } else {
      assert s'.outcomes == s.outcomes;
    }
  }

  lemma CompletedInactive(r: seq<State>, n: nat, id: Id)
    requires Run(r) && n < |r| && id in r[n].outcomes
    ensures id !in r[n].active
  {
    RunKeepsInv(r, n);
  }

  /** In every run a completed read is never active, and so never completed, again. */
  lemma {:induction false} CompletedOnce(r: seq<State>, n: nat, m: nat, id: Id)
    requires Run(r) && n <= m < |r| && id in r[n].outcomes
    ensures id in r[m].outcomes && r[m].outcomes[id] == r[n].outcomes[id] && id !in r[m].active
    decreases m
  {
    if n < m {
      CompletedOnce(r, n, m - 1, id);
      assert StepAt(r, m - 1);
      if FillStep(r[m - 1], r[m]) { FillKeepsOutcomes(r[m - 1], r[m]); } else { ReadKeepsOutcome(r[m - 1], r[m], id); }
    }
    CompletedInactive(r, m, id);
  }

  /** In every run a read still active is held by its issuing loop or by a running part, and only the last of these to go completes it. */
  lemma ActiveReadIsHeld(r: seq<State>, n: nat, id: Id)
    requires Run(r) && n < |r| && id in r[n].active
    ensures r[n].active[id].outstanding > 0
    ensures r[n].active[id].outstanding == RunningParts(r[n].active[id].st) + (if r[n].active[id].issuing then 1 else 0)
  {
    RunKeepsInv(r, n);
    assert ReadOk(r[n], r[n].active[id]);
  }

  /** In every run, a fill written whole leaves its slot servable, with its block's bytes in the cache file. */
  lemma FilledIsServable(r: seq<State>, n: nat, f: Id, s': State)
    requires Run(r) && n < |r| && EndFill(r[n], f, true, s')
    ensures var e := r[n].fills[f];
            && e.slot < |s'.q| && s'.q[e.slot].state == Held && s'.q[e.slot].key == e.key && s'.q[e.slot].pins == 0
            && |s'.disk| == |s'.q| * BLOCK && e.key.block * BLOCK <= |Content(s', e.key)|
            && s'.disk[e.slot * BLOCK..(e.slot + 1) * BLOCK] == BlockBytes(Content(s', e.key), e.key.block)
  {
    RunKeepsInv(r, n);
    assert FillOk(r[n], r[n].fills[f]);
    var t := r[..n + 1] + [s'];
    forall i | 0 <= i < |t| - 1 ensures StepAt(t, i) {
      if i < n { assert StepAt(r, i); } else { assert FillStep(r[n], s'); }
    }
    HeldSlotHoldsBlock(t, n + 1, r[n].fills[f].slot);
  }

  /** Read `id` completes in the step. */
  predicate Completes(s: State, id: Id, s': State) {
    id in s.active && id !in s.outcomes && id in s'.outcomes
  }

  /** In every run, a read that completes gives back the one pin it has on each of its slots, and marks them exactly if it was served. */
  lemma CompletionMarks(r: seq<State>, n: nat, id: Id, x: nat)
    requires Run(r) && n + 1 < |r| && Completes(r[n], id, r[n + 1]) && x < |r[n].q| && x in r[n].active[id].w
    ensures |r[n + 1].q| == |r[n].q| && r[n + 1].q[x].pins == r[n].q[x].pins - 1
    ensures r[n + 1].q[x].referenced == (r[n].q[x].referenced || InFull(r[n + 1].outcomes[id].read))
  {
    RunKeepsInv(r, n);
    SuccessExactly(r, n + 1, id);
    assert StepAt(r, n);
    if FillStep(r[n], r[n + 1]) { FillKeepsOutcomes(r[n], r[n + 1]); }
    CompletingStep(r[n], r[n + 1], id);
    DropMarks(r[n], r[n + 1], id, x, r[n + 1].outcomes[id].success);
  }

  lemma CompletingStep(s: State, s': State, id: Id)
    requires ReadStep(s, s') && Completes(s, id, s')
    ensures PinsDropped(s.q, s'.q, s.active[id].w, s'.outcomes[id].success)
  {
    if b, j, received, refetch, failed :| EndPart(s, b, j, received, refetch, failed, s') {
      assert b == id;
    } else if b, unstarted :| EndIssue(s, b, unstarted, s') {
      assert b == id;
    }
  }

  lemma DropMarks(s: State, s': State, id: Id, x: nat, served: bool)
    requires PinsOk(s) && id in s.active && x < |s.q| && x in s.active[id].w && PinsDropped(s.q, s'.q, s.active[id].w, served)
    ensures |s'.q| == |s.q| && s'.q[x].pins == s.q[x].pins - 1 && s'.q[x].referenced == (s.q[x].referenced || served)
  {
    assert id in Pinners(s.active, x);
    assert s.q[x].pins > 0;
  }
}
