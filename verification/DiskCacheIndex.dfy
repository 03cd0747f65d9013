/**
  The disk cache's index, src/DiskCacheIndex.c: a slot array with hashed
  chains, a clock that gives up slots, and a ghost table that admits a block
  on its second miss. Each method is one section under the index lock.
*/
module DiskCacheIndex {
  import opened DiskCachePlan

  const NO_SLOT: nat := 0xFFFF_FFFF
  const CLOCK_REACH: nat := 256
  const GHOST_WAYS: nat := 4
  const MAX_SLOTS: nat := 262_144      // 16384 MB of 64 KB blocks

  datatype Key = Key(file: nat, size: nat, modified: nat, block: nat)

  datatype SlotState = Free | Filling | Held

  datatype Slot = Slot(key: Key, next: nat, pins: nat, state: SlotState, referenced: bool)

  datatype Admit = AlreadyHeld | FirstMiss | NoVictim | Reserved(slot: nat)

  // ---- chains on values ----

  function LinkAfter(c: seq<nat>, i: nat): nat {
    if i + 1 < |c| then c[i + 1] else NO_SLOT
  }

  /** The slots of `c` are linked in order from `head`, none twice, the last ending the chain. */
  ghost predicate ChainOk(q: seq<Slot>, head: nat, c: seq<nat>) {
    && head == (if c == [] then NO_SLOT else c[0])
    && (forall i | 0 <= i < |c| :: c[i] < |q|)
    && (forall i {:trigger q[c[i]]} | 0 <= i < |c| :: q[c[i]].next == LinkAfter(c, i))
    && (forall i, j | 0 <= i < j < |c| :: c[i] != c[j])
  }

  ghost predicate Linked(q: seq<Slot>, heads: seq<nat>, ch: seq<seq<nat>>) {
    |q| < NO_SLOT && |ch| == |heads| && forall h | 0 <= h < |heads| :: ChainOk(q, heads[h], ch[h])
  }

  /** A slot on chain `h` is in use and its key hashes there. */
  ghost predicate Homed(q: seq<Slot>, ch: seq<seq<nat>>, chainOf: Key -> nat) {
    forall h, i | 0 <= h < |ch| && 0 <= i < |ch[h]| ::
      ch[h][i] < |q| && q[ch[h][i]].state != Free && chainOf(q[ch[h][i]].key) == h
  }

  ghost predicate InUse(q: seq<Slot>, s: nat) {
    s < |q| && q[s].state != Free
  }

  /** Chains and slots agree with the finite map `held` from key to slot. */
  ghost predicate Indexed(q: seq<Slot>, ch: seq<seq<nat>>, held: map<Key, nat>, chainOf: Key -> nat) {
    && Homed(q, ch, chainOf)
    && (forall s: nat | InUse(q, s) :: chainOf(q[s].key) < |ch| && s in ch[chainOf(q[s].key)])
    && (forall s: nat | InUse(q, s) :: q[s].key in held && held[q[s].key] == s)
    && (forall k | k in held :: InUse(q, held[k]) && q[held[k]].key == k)
  }

  predicate SlotOk(e: Slot) {
    && (e.state == Free ==> e.pins == 0 && e.next == NO_SLOT)
    && (e.state == Filling ==> e.pins == 1)
  }

  ghost predicate IndexOk(q: seq<Slot>, heads: seq<nat>, ch: seq<seq<nat>>, held: map<Key, nat>, chainOf: Key -> nat) {
    Linked(q, heads, ch) && Indexed(q, ch, held, chainOf) && forall s | 0 <= s < |q| :: SlotOk(q[s])
  }

  function Without(c: seq<nat>, k: nat): seq<nat>
    requires k < |c|
  {
    c[..k] + c[k + 1..]
  }

  /** The slots after slot `c[k]` of one chain is unlinked. */
  function Unlinked(q: seq<Slot>, c: seq<nat>, k: nat): seq<Slot>
    requires k < |c| && (forall i | 0 <= i < |c| :: c[i] < |q|)
  {
    var q1 := if k == 0 then q else q[c[k - 1] := q[c[k - 1]].(next := q[c[k]].next)];
    q1[c[k] := q1[c[k]].(next := NO_SLOT)]
  }

  /** The next link of each slot after one is unlinked. */
  lemma UnlinkedNext(q: seq<Slot>, c: seq<nat>, k: nat, s: nat)
    requires k < |c| && (forall i | 0 <= i < |c| :: c[i] < |q|) && s < |q| && (k > 0 ==> c[k - 1] != c[k])
    ensures Unlinked(q, c, k)[s].next ==
              if s == c[k] then NO_SLOT else if k > 0 && s == c[k - 1] then q[c[k]].next else q[s].next
  {
  }

  lemma WithoutAt(c: seq<nat>, k: nat, i: nat)
    requires k < |c| && i < |c| - 1
    ensures Without(c, k)[i] == c[if i < k then i else i + 1]
  {
  }

  lemma WithoutLink(c: seq<nat>, k: nat, i: nat)
    requires k < |c| && i < |c| - 1
    ensures LinkAfter(Without(c, k), i) == if i + 1 == k then LinkAfter(c, k) else LinkAfter(c, if i < k then i else i + 1)
  {
    if i + 1 < |c| - 1 { WithoutAt(c, k, i + 1); }
  }

  lemma UnlinkChain(q: seq<Slot>, head: nat, c: seq<nat>, k: nat)
    requires k < |c| && ChainOk(q, head, c)
    ensures ChainOk(Unlinked(q, c, k), if k == 0 then q[c[0]].next else head, Without(c, k))
  {
    var q', c' := Unlinked(q, c, k), Without(c, k);
    forall i | 0 <= i < |c'| ensures c'[i] < |q'| && q'[c'[i]].next == LinkAfter(c', i) {
      var j := if i < k then i else i + 1;
      WithoutAt(c, k, i);
      WithoutLink(c, k, i);
      UnlinkedNext(q, c, k, c[j]);
      assert q[c[j]].next == LinkAfter(c, j) && q[c[k]].next == LinkAfter(c, k);
    }
    forall i, j | 0 <= i < j < |c'| ensures c'[i] != c'[j] {
      WithoutAt(c, k, i);
      WithoutAt(c, k, j);
    }
    if c' != [] { WithoutAt(c, k, 0); }
  }

  lemma OtherChain(q: seq<Slot>, q': seq<Slot>, head: nat, c: seq<nat>)
    requires ChainOk(q, head, c) && |q'| == |q| && forall i | 0 <= i < |c| :: q'[c[i]].next == q[c[i]].next
    ensures ChainOk(q', head, c)
  {
  }

  lemma UnlinkKeepsLinked(q: seq<Slot>, heads: seq<nat>, ch: seq<seq<nat>>, chainOf: Key -> nat, h: nat, k: nat)
    requires Linked(q, heads, ch) && Homed(q, ch, chainOf) && h < |ch| && k < |ch[h]|
    requires forall i | 0 <= i < |ch[h]| :: ch[h][i] < |q|
    ensures Linked(Unlinked(q, ch[h], k), if k == 0 then heads[h := q[ch[h][0]].next] else heads, ch[h := Without(ch[h], k)])
  {
    var q' := Unlinked(q, ch[h], k);
    var heads' := if k == 0 then heads[h := q[ch[h][0]].next] else heads;
    var ch' := ch[h := Without(ch[h], k)];
    forall g | 0 <= g < |heads| ensures ChainOk(q', heads'[g], ch'[g]) {
      assert ChainOk(q, heads[g], ch[g]);
      if g == h {
        UnlinkChain(q, heads[h], ch[h], k);
      } else {
        OtherChain(q, q', heads[g], ch[g]);
      }
    }
  }

  lemma PushChain(q: seq<Slot>, head: nat, c: seq<nat>, s: nat, e: Slot)
    requires ChainOk(q, head, c) && s < |q| && e.next == head && s !in c
    ensures ChainOk(q[s := e], s, [s] + c)
  {
    var q', c' := q[s := e], [s] + c;
    assert forall i | 0 <= i < |c| :: c[i] in c;
    forall i | 0 <= i < |c'| ensures c'[i] < |q| && q'[c'[i]].next == LinkAfter(c', i) {
      if i > 0 { assert c'[i] == c[i - 1]; }
    }
    forall i, j | 0 <= i < j < |c'| ensures c'[i] != c'[j] {
      assert c'[j] == c[j - 1];
      if i > 0 { assert c'[i] == c[i - 1]; }
    }
  }

  /** Slot `s`, on no chain, becomes the head of chain `h`. */
  lemma PushKeepsLinked(q: seq<Slot>, heads: seq<nat>, ch: seq<seq<nat>>, h: nat, s: nat, e: Slot)
    requires Linked(q, heads, ch) && h < |ch| && s < |q| && e.next == heads[h]
    requires forall g, i | 0 <= g < |ch| && 0 <= i < |ch[g]| :: ch[g][i] != s
    ensures Linked(q[s := e], heads[h := s], ch[h := [s] + ch[h]])
  {
    var q', heads', ch' := q[s := e], heads[h := s], ch[h := [s] + ch[h]];
    forall g | 0 <= g < |heads| ensures ChainOk(q', heads'[g], ch'[g]) {
      assert ChainOk(q, heads[g], ch[g]);
      if g == h {
        PushChain(q, heads[h], ch[h], s, e);
      } else {
        OtherChain(q, q', heads[g], ch[g]);
      }
    }
  }

  // ---- what a key's chain yields ----

  /** The slots of an index that has given up nothing but its hold on slot `s`. */
  ghost predicate ShedsOnly(q: seq<Slot>, q': seq<Slot>, s: nat) {
    && |q'| == |q|
    && (forall r | 0 <= r < |q| :: q'[r] == q[r].(next := q'[r].next))
    && (forall r | 0 <= r < |q| && q[r].state == Free :: q'[r].next == q[r].next)
    && s < |q| && q'[s].next == NO_SLOT
  }

  lemma UnlinkedSheds(q: seq<Slot>, c: seq<nat>, k: nat)
    requires k < |c| && (forall i | 0 <= i < |c| :: c[i] < |q|) && (forall i | 0 <= i < |c| :: InUse(q, c[i]))
    ensures ShedsOnly(q, Unlinked(q, c, k), c[k])
  {
  }

  /** After slot `s` leaves its chain and is given to `key`, at the head of that key's chain. */
  lemma GivenTo(q: seq<Slot>, ch: seq<seq<nat>>, held: map<Key, nat>, chainOf: Key -> nat, q': seq<Slot>, ch': seq<seq<nat>>, s: nat, key: Key)
    requires Indexed(q, ch, held, chainOf) && s < |q| && |q'| == |q| && |ch'| == |ch| && key !in held && chainOf(key) < |ch|
    requires q'[s].state != Free && q'[s].key == key
    requires forall r | 0 <= r < |q| && r != s :: q'[r].key == q[r].key && q'[r].state == q[r].state
    requires forall h, r | 0 <= h < |ch| && r != s :: r in ch'[h] <==> r in ch[h]
    requires forall h | 0 <= h < |ch| :: s in ch'[h] <==> h == chainOf(key)
    ensures Indexed(q', ch', if InUse(q, s) then (held - {q[s].key})[key := s] else held[key := s], chainOf)
  {
    forall h, i | 0 <= h < |ch'| && 0 <= i < |ch'[h]|
      ensures ch'[h][i] < |q'| && q'[ch'[h][i]].state != Free && chainOf(q'[ch'[h][i]].key) == h
    {
      var r := ch'[h][i];
      assert r in ch'[h];
      if r != s {
        assert r in ch[h];
        var j :| 0 <= j < |ch[h]| && ch[h][j] == r;
      }
    }
    forall r: nat | InUse(q', r) ensures chainOf(q'[r].key) < |ch'| && r in ch'[chainOf(q'[r].key)] {
      if r != s { assert InUse(q, r); }
    }
    forall r: nat | InUse(q', r) && r != s ensures q'[r].key in held && held[q'[r].key] == r {
      assert InUse(q, r);
    }
  }

  /** After slot `s` leaves its chain and is freed. */
  lemma GivenUp(q: seq<Slot>, ch: seq<seq<nat>>, held: map<Key, nat>, chainOf: Key -> nat, q': seq<Slot>, ch': seq<seq<nat>>, s: nat)
    requires Indexed(q, ch, held, chainOf) && InUse(q, s) && |q'| == |q| && |ch'| == |ch|
    requires q'[s].state == Free
    requires forall r | 0 <= r < |q| && r != s :: q'[r].key == q[r].key && q'[r].state == q[r].state
    requires forall h, r | 0 <= h < |ch| && r != s :: r in ch'[h] <==> r in ch[h]
    requires forall h | 0 <= h < |ch| :: s !in ch'[h]
    ensures Indexed(q', ch', held - {q[s].key}, chainOf)
  {
    forall h, i | 0 <= h < |ch'| && 0 <= i < |ch'[h]|
      ensures ch'[h][i] < |q'| && q'[ch'[h][i]].state != Free && chainOf(q'[ch'[h][i]].key) == h
    {
      var r := ch'[h][i];
      assert r in ch'[h] && r != s;
      var j :| 0 <= j < |ch[h]| && ch[h][j] == r;
    }
    forall r: nat | InUse(q', r) ensures chainOf(q'[r].key) < |ch'| && r in ch'[chainOf(q'[r].key)] {
      assert InUse(q, r);
    }
    forall r: nat | InUse(q', r) ensures q'[r].key in held && held[q'[r].key] == r {
      assert InUse(q, r);
    }
  }

  lemma WithoutMembers(c: seq<nat>, k: nat)
    requires k < |c| && forall i, j | 0 <= i < j < |c| :: c[i] != c[j]
    ensures forall r :: r in Without(c, k) <==> r in c && r != c[k]
  {
    forall r ensures r in Without(c, k) <==> r in c && r != c[k] {
      if r in c && r != c[k] {
        var i :| 0 <= i < |c| && c[i] == r;
        assert r == Without(c, k)[if i < k then i else i - 1];
      }
      if r in Without(c, k) {
        var i :| 0 <= i < |Without(c, k)| && Without(c, k)[i] == r;
        assert r == c[if i < k then i else i + 1];
      }
    }
  }

  // ---- the clock's view of the slots ----

  /** The slot `k` places ahead of the hand. */
  function Ahead(hand: nat, k: nat, n: nat): nat
    requires hand < n && k <= n
  {
    if hand + k < n then hand + k else hand + k - n
  }

  predicate Takeable(e: Slot) {
    e.pins == 0 && (e.state == Free || !e.referenced)
  }

  function Reach(n: nat): (r: nat)
    ensures r <= n
  {
    if n < CLOCK_REACH then n else CLOCK_REACH
  }

  /** `v` is the first takeable slot in reach, or failing that the first unpinned one. */
  ghost predicate IsVictim(q: seq<Slot>, hand: nat, v: nat)
    requires hand < |q|
  {
    var n := |q|;
    exists k :: 0 <= k < Reach(n) && v == Ahead(hand, k, n) && q[v].pins == 0 &&
      (if Takeable(q[v]) then forall j | 0 <= j < k :: !Takeable(q[Ahead(hand, j, n)])
       else (forall j | 0 <= j < Reach(n) :: !Takeable(q[Ahead(hand, j, n)])) &&
            (forall j | 0 <= j < k :: q[Ahead(hand, j, n)].pins != 0))
  }

  ghost predicate NoneInReach(q: seq<Slot>, hand: nat)
    requires hand < |q|
  {
    forall j | 0 <= j < Reach(|q|) :: q[Ahead(hand, j, |q|)].pins != 0
  }

  /** How far ahead of the hand slot `s` is. */
  function OffsetOf(hand: nat, s: nat, n: nat): nat
    requires hand < n && s < n
  {
    if s >= hand then s - hand else s + n - hand
  }

  /** A slot the hand has gone past: if it could have been taken but for its mark, the mark is gone. */
  function Passed(e: Slot): Slot {
    if e.pins == 0 && e.state != Free then e.(referenced := false) else e
  }

  /** The hand has gone `d` slots forward, clearing exactly the marks of the unpinned slots it passed. */
  ghost predicate ClockSwept(q: seq<Slot>, hand: nat, q': seq<Slot>, hand': nat, d: nat) {
    && hand < |q| && d <= Reach(|q|) && |q'| == |q| && hand' == Ahead(hand, d, |q|)
    && (forall s | 0 <= s < |q| :: q'[s] == if OffsetOf(hand, s, |q|) < d then Passed(q[s]) else q[s])
  }

  /** The hand stops just past a slot it may take, and otherwise goes as far as it can reach. */
  ghost predicate StopsAt(q: seq<Slot>, hand: nat, v: nat, d: nat) {
    && hand < |q|
    && if v == NO_SLOT then NoneInReach(q, hand) && d == Reach(|q|)
       else v < |q| && IsVictim(q, hand, v) && d == if Takeable(q[v]) then OffsetOf(hand, v, |q|) + 1 else Reach(|q|)
  }

  /** Nothing in the first `d` slots may be taken, and `fallback`, `f` ahead, is the first of them unpinned. */
  ghost predicate Sought(q: seq<Slot>, hand: nat, d: nat, fallback: nat, f: nat) {
    && hand < |q| && d <= |q| && (forall j | 0 <= j < d :: !Takeable(q[Ahead(hand, j, |q|)]))
    && if fallback == NO_SLOT then forall j | 0 <= j < d :: q[Ahead(hand, j, |q|)].pins != 0
       else f < d && fallback == Ahead(hand, f, |q|) && q[fallback].pins == 0 && forall j | 0 <= j < f :: q[Ahead(hand, j, |q|)].pins != 0
  }

  /** One slot further: the hand finds it as it was, and passing it clears its mark and no other's. */
  lemma HandPasses(q: seq<Slot>, hand: nat, q': seq<Slot>, hand': nat, d: nat)
    requires ClockSwept(q, hand, q', hand', d) && d < Reach(|q|)
    ensures hand' < |q| && q'[hand'] == q[hand'] && hand' == Ahead(hand, d, |q|) && OffsetOf(hand, hand', |q|) == d
    ensures ClockSwept(q, hand, q'[hand' := Passed(q[hand'])], if hand' + 1 == |q| then 0 else hand' + 1, d + 1)
  {
  }

  /**
    One second chance and no more: what a sweep passed and did not take is
    unmarked, so if it is neither served nor pinned before some later sweep
    that has it in reach, that sweep takes it or a slot before it.
  */
  lemma SecondChance(q: seq<Slot>, hand: nat, q': seq<Slot>, hand': nat, d: nat, s: nat, later: seq<Slot>, from: nat, v: nat, e: nat)
    requires ClockSwept(q, hand, q', hand', d) && s < |q| && OffsetOf(hand, s, |q|) < d && q[s].pins == 0
    requires |later| == |q| && later[s] == q'[s] && StopsAt(later, from, v, e) && OffsetOf(from, s, |q|) < Reach(|q|)
    ensures v != NO_SLOT && Takeable(later[v]) && OffsetOf(from, v, |q|) <= OffsetOf(from, s, |q|)
  {
    var n := |q|;
    assert Takeable(later[s]) && s == Ahead(from, OffsetOf(from, s, n), n);
  }

  /**
    The victim is never pinned, and one in use and marked only where every
    other slot in reach is pinned or so too; there is none only where every
    slot in reach is pinned.
  */
  lemma VictimIsRight(q: seq<Slot>, hand: nat, v: nat, d: nat, j: nat, x: nat)
    requires StopsAt(q, hand, v, d) && j < |q| && j < CLOCK_REACH && x == if hand + j < |q| then hand + j else hand + j - |q|
    ensures v != NO_SLOT ==> q[v].pins == 0
    ensures v != NO_SLOT && q[v].state != Free && q[v].referenced ==> q[x].pins != 0 || (q[x].state != Free && q[x].referenced)
    ensures v == NO_SLOT ==> q[x].pins != 0
  {
    assert x == Ahead(hand, j, |q|);
  }

  lemma SweptMarks(q: seq<Slot>, hand: nat, q': seq<Slot>, hand': nat, d: nat)
    requires ClockSwept(q, hand, q', hand', d)
    ensures MarksCleared(q, q')
  {
  }

  /** The clock has at most cleared marks. */
  ghost predicate MarksCleared(q: seq<Slot>, q': seq<Slot>) {
    |q'| == |q| && forall s | 0 <= s < |q| :: q'[s] == q[s].(referenced := q'[s].referenced) && (q'[s].referenced ==> q[s].referenced)
  }

  ghost predicate SameButMarks(q: seq<Slot>, q': seq<Slot>) {
    |q'| == |q| && forall s | 0 <= s < |q| :: q'[s] == q[s].(pins := q'[s].pins, referenced := q'[s].referenced)
  }

  /** Which key a slot carries and whether it is in use are all the map and the chains depend on. */
  lemma SameKeysIndexed(q: seq<Slot>, q': seq<Slot>, heads: seq<nat>, ch: seq<seq<nat>>, held: map<Key, nat>, chainOf: Key -> nat)
    requires Linked(q, heads, ch) && Indexed(q, ch, held, chainOf) && |q'| == |q|
    requires forall r | 0 <= r < |q| :: q'[r].key == q[r].key && q'[r].next == q[r].next && (q'[r].state == Free <==> q[r].state == Free)
    ensures Linked(q', heads, ch) && Indexed(q', ch, held, chainOf)
  {
    forall h | 0 <= h < |heads| ensures ChainOk(q', heads[h], ch[h]) { OtherChain(q, q', heads[h], ch[h]); }
    forall s: nat | InUse(q', s) ensures q'[s].key in held && held[q'[s].key] == s && chainOf(q'[s].key) < |ch| && s in ch[chainOf(q'[s].key)] {
      assert InUse(q, s);
    }
    forall k | k in held ensures InUse(q', held[k]) { assert InUse(q, held[k]); }
  }

  lemma PinsKeepIndex(q: seq<Slot>, q': seq<Slot>, heads: seq<nat>, ch: seq<seq<nat>>, held: map<Key, nat>, chainOf: Key -> nat)
    requires IndexOk(q, heads, ch, held, chainOf) && SameButMarks(q, q')
    requires forall s | 0 <= s < |q| && q[s].state != Held :: q'[s].pins == q[s].pins
    ensures IndexOk(q', heads, ch, held, chainOf)
  {
    SameKeysIndexed(q, q', heads, ch, held, chainOf);
    forall s | 0 <= s < |q'| ensures SlotOk(q'[s]) { assert SlotOk(q[s]); }
  }

  /** A key is held exactly by the one slot on its chain that carries it. */
  lemma FoundOnChain(q: seq<Slot>, heads: seq<nat>, ch: seq<seq<nat>>, held: map<Key, nat>, chainOf: Key -> nat, key: Key)
    requires IndexOk(q, heads, ch, held, chainOf) && chainOf(key) < |ch|
    ensures ChainOk(q, heads[chainOf(key)], ch[chainOf(key)])
    ensures forall i | 0 <= i < |ch[chainOf(key)]| && q[ch[chainOf(key)][i]].key == key :: key in held && held[key] == ch[chainOf(key)][i]
    ensures key in held ==> exists i :: 0 <= i < |ch[chainOf(key)]| && ch[chainOf(key)][i] == held[key] && q[held[key]].key == key
  {
    var c := ch[chainOf(key)];
    assert ChainOk(q, heads[chainOf(key)], c);
    forall i | 0 <= i < |c| && q[c[i]].key == key ensures key in held && held[key] == c[i] {
      assert InUse(q, c[i]);
    }
    if key in held {
      assert InUse(q, held[key]);
      assert held[key] in c;
    }
  }

  lemma HeldKeepsIndex(q: seq<Slot>, q': seq<Slot>, heads: seq<nat>, ch: seq<seq<nat>>, held: map<Key, nat>, chainOf: Key -> nat, s: nat)
    requires IndexOk(q, heads, ch, held, chainOf) && InUse(q, s) && q' == q[s := q[s].(state := Held, pins := 0)]
    ensures IndexOk(q', heads, ch, held, chainOf)
  {
    SameKeysIndexed(q, q', heads, ch, held, chainOf);
    forall r | 0 <= r < |q'| ensures SlotOk(q'[r]) { assert SlotOk(q[r]); }
  }

  // ---- pins ----

  /** The slot that can serve `key` now. */
  ghost function Servable(q: seq<Slot>, held: map<Key, nat>, key: Key): nat {
    if key in held && held[key] < |q| && q[held[key]].state == Held then held[key] else NO_SLOT
  }

  /** The slots for consecutive blocks from `key` on, as a read pins them. */
  ghost predicate ServesFrom(q: seq<Slot>, held: map<Key, nat>, key: Key, w: seq<nat>) {
    forall i | 0 <= i < |w| :: w[i] == Servable(q, held, key.(block := key.block + i))
  }

  /** Each slot named is one that holds its block now, and no block that some slot holds goes without. */
  ghost predicate Serves(q: seq<Slot>, key: Key, w: seq<nat>) {
    forall i, x | 0 <= i < |w| && 0 <= x < |q| :: w[i] == x <==> q[x].state == Held && q[x].key == key.(block := key.block + i)
  }

  lemma ServesExactly(q: seq<Slot>, ch: seq<seq<nat>>, held: map<Key, nat>, chainOf: Key -> nat, key: Key, w: seq<nat>)
    requires Indexed(q, ch, held, chainOf) && ServesFrom(q, held, key, w) && |q| < NO_SLOT
    ensures Serves(q, key, w)
  {
    forall i, x | 0 <= i < |w| && 0 <= x < |q| ensures w[i] == x <==> q[x].state == Held && q[x].key == key.(block := key.block + i) {
      var k := key.(block := key.block + i);
      assert w[i] == Servable(q, held, k);
      assert q[x].state == Held ==> InUse(q, x);
    }
  }

  /** The blocks a read has no slot for. */
  function Missing(w: seq<nat>): (m: seq<bool>)
    ensures |m| == |w| && forall i | 0 <= i < |w| :: m[i] <==> w[i] == NO_SLOT
  {
    seq(|w|, i requires 0 <= i < |w| => w[i] == NO_SLOT)
  }

  /** The read holds a pin on each slot it names, and names none twice. */
  ghost predicate Pinning(q: seq<Slot>, w: seq<nat>) {
    && (forall i | 0 <= i < |w| && w[i] != NO_SLOT :: w[i] < |q| && q[w[i]].state == Held && q[w[i]].pins > 0)
    && (forall i, j | 0 <= i < j < |w| && w[i] != NO_SLOT :: w[i] != w[j])
  }

  function Raised(e: Slot): Slot {
    e.(pins := e.pins + 1)
  }

  function Dropped(e: Slot, served: bool): Slot {
    e.(pins := if e.pins > 0 then e.pins - 1 else 0, referenced := e.referenced || served)
  }

  ghost predicate PinsRaised(q: seq<Slot>, q': seq<Slot>, w: seq<nat>) {
    |q'| == |q| && forall s | 0 <= s < |q| :: q'[s] == if s in w then Raised(q[s]) else q[s]
  }

  ghost predicate PinsDropped(q: seq<Slot>, q': seq<Slot>, w: seq<nat>, served: bool) {
    |q'| == |q| && forall s | 0 <= s < |q| :: q'[s] == if s in w then Dropped(q[s], served) else q[s]
  }

  /** Each slot pinned so far carries its own block of `key`. */
  ghost predicate NoneTwice(q: seq<Slot>, key: Key, w: seq<nat>) {
    forall i | 0 <= i < |w| && w[i] != NO_SLOT :: w[i] < |q| && q[w[i]].key.block == key.block + i
  }

  lemma {:induction false} CountAppend(m: seq<bool>, m': seq<bool>, n: nat)
    requires n <= |m| <= |m'| && forall i | 0 <= i < n :: m'[i] == m[i]
    ensures CountTo(m', n) == CountTo(m, n)
  {
    if n > 0 { CountAppend(m, m', n - 1); }
  }

  /** `slot` is the one that can serve `key`, and has been pinned if there is one. */
  ghost predicate PinnedOne(q: seq<Slot>, q': seq<Slot>, held: map<Key, nat>, key: Key, slot: nat) {
    && slot == Servable(q, held, key) && |q| < NO_SLOT
    && (slot == NO_SLOT ==> q' == q)
    && (slot != NO_SLOT ==> slot < |q| && q[slot].key == key && q' == q[slot := Raised(q[slot])])
  }

  lemma PinKeepsIndex(q: seq<Slot>, heads: seq<nat>, ch: seq<seq<nat>>, held: map<Key, nat>, chainOf: Key -> nat, key: Key, s: nat, e: Slot, q': seq<Slot>)
    requires IndexOk(q, heads, ch, held, chainOf) && key in held && held[key] == s && s < |q| && q[s].state == Held
    requires e == Raised(q[s]) && q' == q[s := e]
    ensures IndexOk(q', heads, ch, held, chainOf) && PinnedOne(q, q', held, key, s)
  {
    PinsKeepIndex(q, q', heads, ch, held, chainOf);
    assert InUse(q, held[key]);
  }

  lemma NoPin(q: seq<Slot>, held: map<Key, nat>, key: Key)
    requires |q| < NO_SLOT && (key in held ==> held[key] < |q| && q[held[key]].state != Held)
    ensures PinnedOne(q, q, held, key, NO_SLOT)
  {
  }

  /** One more block of a read pinned. */
  lemma PinStep(q: seq<Slot>, q1: seq<Slot>, q2: seq<Slot>, held: map<Key, nat>, key: Key, w: seq<nat>, k: Key, slot: nat)
    requires ServesFrom(q, held, key, w) && PinsRaised(q, q1, w) && NoneTwice(q, key, w)
    requires k == key.(block := key.block + |w|) && PinnedOne(q1, q2, held, k, slot)
    ensures ServesFrom(q, held, key, w + [slot]) && PinsRaised(q, q2, w + [slot]) && NoneTwice(q, key, w + [slot])
    ensures Count(Missing(w + [slot])) == Count(Missing(w)) + (if slot == NO_SLOT then 1 else 0)
  {
    CountAppend(Missing(w), Missing(w + [slot]), |w|);
    if slot != NO_SLOT {
      assert slot !in w by {
        assert forall i | 0 <= i < |w| :: w[i] != slot;
      }
    }
  }

  lemma PinnedNow(q: seq<Slot>, q': seq<Slot>, held: map<Key, nat>, key: Key, w: seq<nat>)
    requires ServesFrom(q, held, key, w) && PinsRaised(q, q', w) && NoneTwice(q, key, w)
    ensures Pinning(q', w)
  {
    forall i | 0 <= i < |w| && w[i] != NO_SLOT ensures q'[w[i]].state == Held && q'[w[i]].pins > 0 {
      assert w[i] in w;
    }
  }

  /** One pin dropped, if there is one. */
  ghost predicate DroppedOne(q: seq<Slot>, q': seq<Slot>, slot: nat, served: bool) {
    if slot == NO_SLOT then q' == q else slot < |q| && q' == q[slot := Dropped(q[slot], served)]
  }

  lemma DropStep(q: seq<Slot>, q1: seq<Slot>, q2: seq<Slot>, w: seq<nat>, n: nat, slot: nat, served: bool)
    requires n < |w| && slot == w[n] && Pinning(q, w) && PinsDropped(q, q1, w[..n], served) && DroppedOne(q1, q2, slot, served) && |q| < NO_SLOT
    ensures PinsDropped(q, q2, w[..n + 1], served)
  {
    assert w[..n + 1] == w[..n] + [slot];
    if slot != NO_SLOT {
      assert slot !in w[..n] by {
        assert forall i | 0 <= i < n :: w[..n][i] == w[i] != slot;
      }
    }
  }

  lemma DropsKeepIndex(q: seq<Slot>, heads: seq<nat>, ch: seq<seq<nat>>, held: map<Key, nat>, chainOf: Key -> nat, w: seq<nat>, served: bool, q': seq<Slot>)
    requires IndexOk(q, heads, ch, held, chainOf) && Pinning(q, w) && PinsDropped(q, q', w, served)
    ensures IndexOk(q', heads, ch, held, chainOf)
  {
    forall s | 0 <= s < |q| && q[s].state != Held ensures s !in w {
      assert forall i | 0 <= i < |w| :: w[i] == NO_SLOT || q[w[i]].state == Held;
    }
    PinsKeepIndex(q, q', heads, ch, held, chainOf);
  }

  /** Slots not yet dropped are as they were. */
  lemma StillPinned(q: seq<Slot>, q1: seq<Slot>, w: seq<nat>, n: nat, served: bool)
    requires n < |w| && Pinning(q, w) && PinsDropped(q, q1, w[..n], served) && w[n] != NO_SLOT
    ensures w[n] < |q1| && q1[w[n]].state == Held && q1[w[n]].pins > 0
  {
    assert w[n] !in w[..n] by {
      assert forall i | 0 <= i < n :: w[..n][i] == w[i] != w[n];
    }
  }

  // ---- planning a read ----

  /** `w` with the slots of blocks `[a, b)` given up. */
  function Cleared(w: seq<nat>, a: nat, b: nat): (r: seq<nat>)
    requires a <= b <= |w|
    ensures |r| == |w| && forall i | 0 <= i < |w| :: r[i] == if a <= i < b then NO_SLOT else w[i]
  {
    w[..a] + seq(b - a, _ => NO_SLOT) + w[b..]
  }

  /** The pins the read has given back are those on the slots it no longer names. */
  ghost predicate GaveBack(q: seq<Slot>, q': seq<Slot>, w: seq<nat>, w': seq<nat>) {
    |q'| == |q| && forall s | 0 <= s < |q| :: q'[s] == if s in w && s !in w' then Dropped(q[s], false) else q[s]
  }

  ghost predicate Subplan(w: seq<nat>, w': seq<nat>) {
    |w'| == |w| && forall i | 0 <= i < |w| && w'[i] != NO_SLOT :: w'[i] == w[i]
  }

  /** How far planning has come, from slots `q` and pins `w` to `q'` and `w'`. */
  ghost predicate Planned(q: seq<Slot>, w: seq<nat>, q': seq<Slot>, w': seq<nat>) {
    && Subplan(w, w') && GaveBack(q, q', w, w') && Pinning(q', w') && Plan(Missing(w), Missing(w'))
  }

  lemma ClearedPins(q: seq<Slot>, q': seq<Slot>, w: seq<nat>, a: nat, b: nat)
    requires Pinning(q, w) && a <= b <= |w| && PinsDropped(q, q', w[a..b], false)
    ensures Pinning(q', Cleared(w, a, b))
  {
    var w' := Cleared(w, a, b);
    forall i | 0 <= i < |w'| && w'[i] != NO_SLOT ensures w'[i] !in w[a..b] {
      assert forall j | a <= j < b :: w[j] != w[i];
      assert forall j | 0 <= j < b - a :: w[a..b][j] == w[a + j];
    }
  }

  lemma ClearedMembers(w: seq<nat>, a: nat, b: nat, s: nat)
    requires a <= b <= |w| && s != NO_SLOT && forall i, j | 0 <= i < j < |w| && w[i] != NO_SLOT :: w[i] != w[j]
    ensures s in Cleared(w, a, b) <==> s in w && s !in w[a..b]
  {
    var w' := Cleared(w, a, b);
    assert forall j | 0 <= j < b - a :: w[a..b][j] == w[a + j];
    assert forall j | a <= j < b :: w[a..b][j - a] == w[j];
    if s in w && s !in w[a..b] {
      var i :| 0 <= i < |w| && w[i] == s;
      assert w'[i] == s;
    }
    if s in w' {
      var i :| 0 <= i < |w'| && w'[i] == s;
      assert w[i] == s;
    }
  }

  lemma ClearedBack(q: seq<Slot>, q1: seq<Slot>, q2: seq<Slot>, w: seq<nat>, w1: seq<nat>, a: nat, b: nat)
    requires Subplan(w, w1) && GaveBack(q, q1, w, w1) && Pinning(q1, w1) && a <= b <= |w1| && PinsDropped(q1, q2, w1[a..b], false) && |q| < NO_SLOT
    ensures GaveBack(q, q2, w, Cleared(w1, a, b))
  {
    forall s | 0 <= s < |q| ensures q2[s] == if s in w && s !in Cleared(w1, a, b) then Dropped(q[s], false) else q[s] {
      ClearedMembers(w1, a, b, s);
      if s in w1 { SubplanMembers(w, w1, s); }
      assert s in w1[a..b] ==> s in w1;
    }
  }

  lemma SubplanMembers(w: seq<nat>, w': seq<nat>, s: nat)
    requires Subplan(w, w') && s != NO_SLOT && s in w'
    ensures s in w
  {
    var i :| 0 <= i < |w'| && w'[i] == s;
    assert w[i] == s;
  }

  /** Giving up the shortest gap keeps the plan and takes one fetch less. */
  lemma PlanStep(q: seq<Slot>, w: seq<nat>, q1: seq<Slot>, w1: seq<nat>, q2: seq<Slot>, w2: seq<nat>, a: nat, b: nat)
    requires Planned(q, w, q1, w1) && b < |w1| && Shortest(Missing(w1), b) && a == GapStart(Missing(w1), b) && |q| < NO_SLOT
    requires PinsDropped(q1, q2, w1[a..b], false) && w2 == Cleared(w1, a, b)
    ensures Planned(q, w, q2, w2) && Runs(Missing(w2)) + 1 == Runs(Missing(w1))
    ensures Count(Missing(w2)) == Count(Missing(w1)) + b - a
  {
    assert Missing(w2) == Set(Missing(w1), a, b, true);
    FillKeepsPlan(Missing(w), Missing(w1), b);
    ClearedPins(q1, q2, w1, a, b);
    ClearedBack(q, q1, q2, w, w1, a, b);
  }

  lemma PlanBegins(q: seq<Slot>, w: seq<nat>)
    requires Pinning(q, w)
    ensures Planned(q, w, q, w)
  {
    PlanStarts(Missing(w));
  }

  // ---- the ghost table ----

  /** One ghost set, newest first. */
  function Ways(g: seq<nat>, at: nat): seq<nat>
    requires at + GHOST_WAYS <= |g|
  {
    g[at..at + GHOST_WAYS]
  }

  predicate Remembers(g: seq<nat>, at: nat, tag: nat) {
    at + GHOST_WAYS <= |g| && tag in Ways(g, at)
  }

  /** A first miss: `tag` becomes the newest of its set and the oldest falls out. */
  function Recorded(g: seq<nat>, at: nat, tag: nat): (r: seq<nat>)
    requires at + GHOST_WAYS <= |g|
    ensures |r| == |g| && Ways(r, at) == [tag] + Ways(g, at)[..GHOST_WAYS - 1]
    ensures r[..at] == g[..at] && r[at + GHOST_WAYS..] == g[at + GHOST_WAYS..]
  {
    g[..at] + [tag] + g[at..at + GHOST_WAYS - 1] + g[at + GHOST_WAYS..]
  }

  function RecordAll(g: seq<nat>, at: nat, tags: seq<nat>): seq<nat>
    requires at + GHOST_WAYS <= |g|
    decreases |tags|
  {
    if tags == [] then g else RecordAll(Recorded(g, at, tags[0]), at, tags[1..])
  }

  lemma {:induction false} RecordedStays(g: seq<nat>, at: nat, tag: nat, w: nat, tags: seq<nat>)
    requires at + GHOST_WAYS <= |g| && w + |tags| < GHOST_WAYS && g[at + w] == tag
    ensures Remembers(RecordAll(g, at, tags), at, tag)
    decreases |tags|
  {
    if tags == [] {
      assert g[at..at + GHOST_WAYS][w] == tag;
    } else {
      var g' := Recorded(g, at, tags[0]);
      assert g'[at + w + 1] == g[at + w];
      RecordedStays(g', at, tag, w + 1, tags[1..]);
    }
  }

  /** A miss is remembered until as many others as the set has ways have followed it. */
  lemma MissRemembered(g: seq<nat>, at: nat, tag: nat, tags: seq<nat>)
    requires at + GHOST_WAYS <= |g| && |tags| < GHOST_WAYS
    ensures Remembers(RecordAll(Recorded(g, at, tag), at, tags), at, tag)
  {
    assert Recorded(g, at, tag)[at] == tag;
    RecordedStays(Recorded(g, at, tag), at, tag, 0, tags);
  }

  /** And by then it is forgotten, unless it was among them. */
  lemma MissForgotten(g: seq<nat>, at: nat, tag: nat, tags: seq<nat>)
    requires at + GHOST_WAYS <= |g| && |tags| == GHOST_WAYS && tag !in tags
    ensures !Remembers(RecordAll(g, at, tags), at, tag)
  {
    var g1 := Recorded(g, at, tags[0]);
    var g2 := Recorded(g1, at, tags[1]);
    var g3 := Recorded(g2, at, tags[2]);
    var g4 := Recorded(g3, at, tags[3]);
    var t1, t2, t3 := tags[1..], tags[2..], tags[3..];
    assert t1[0] == tags[1] && t1[1..] == t2 && t2[0] == tags[2] && t2[1..] == t3 && t3[0] == tags[3] && t3[1..] == [];
    assert RecordAll(g, at, tags) == RecordAll(g1, at, t1) == RecordAll(g2, at, t2) == RecordAll(g3, at, t3) == RecordAll(g4, at, []);
    var w := Ways(g, at);
    assert Ways(g1, at) == [tags[0]] + w[..3];
    assert Ways(g2, at) == [tags[1], tags[0]] + w[..2];
    assert Ways(g3, at) == [tags[2], tags[1], tags[0]] + w[..1];
    assert Ways(g4, at) == [tags[3], tags[2], tags[1], tags[0]];
  }

  /** One way of the set, which held `tag`, has been cleared. */
  ghost predicate WayCleared(g: seq<nat>, g': seq<nat>, at: nat, tag: nat) {
    at + GHOST_WAYS <= |g| && exists w: nat :: w < GHOST_WAYS && Ways(g, at)[w] == tag && g' == g[at + w := 0]
  }

  // ---- the index as one object ----

  /** Slot `s` has been given to `key`, whatever it held before given up; no other slot has changed hands. */
  ghost predicate HandedTo(q: seq<Slot>, q': seq<Slot>, s: nat, key: Key) {
    && s < |q| && OthersKeep(q, q', s)
    && q'[s].key == key && q'[s].state == Filling && q'[s].pins == 1 && !q'[s].referenced
  }

  ghost predicate OthersKeep(q: seq<Slot>, q': seq<Slot>, s: nat) {
    |q'| == |q| && forall r | 0 <= r < |q| && r != s :: q'[r].key == q[r].key && q'[r].state == q[r].state && q'[r].pins == q[r].pins
  }

  /** Slot `s` holds nothing now, and no other slot has changed hands. */
  ghost predicate FreedNow(q: seq<Slot>, q': seq<Slot>, s: nat) {
    s < |q| && OthersKeep(q, q', s) && q'[s].state == Free && q'[s].pins == 0
  }

  /** The map after slot `s` is taken from whatever key held it. */
  ghost function Released(q: seq<Slot>, held: map<Key, nat>, s: nat): map<Key, nat>
    requires s < |q|
  {
    if q[s].state != Free then held - {q[s].key} else held
  }

  lemma FreeOnNoChain(q: seq<Slot>, ch: seq<seq<nat>>, chainOf: Key -> nat, s: nat)
    requires Homed(q, ch, chainOf) && s < |q| && q[s].state == Free
    ensures forall g, r | 0 <= g < |ch| :: r in ch[g] <==> r in ch[g] && r != s
  {
    forall g | 0 <= g < |ch| ensures s !in ch[g] {
      assert forall i | 0 <= i < |ch[g]| :: ch[g][i] != s;
    }
  }

  /** Slot `s` is on no chain, and every other slot on the chains it was on. */
  ghost predicate Detached(q: seq<Slot>, ch: seq<seq<nat>>, s: nat, q1: seq<Slot>, heads1: seq<nat>, ch1: seq<seq<nat>>) {
    && |q1| == |q| && |ch1| == |ch| && s < |q| && Linked(q1, heads1, ch1)
    && (forall r | 0 <= r < |q| :: q1[r] == q[r].(next := q1[r].next) && (q[r].state == Free ==> q1[r].next == q[r].next))
    && (forall g, r | 0 <= g < |ch| :: r in ch1[g] <==> r in ch[g] && r != s)
    && q1[s].next == NO_SLOT
  }

  lemma OnOneChain(q: seq<Slot>, ch: seq<seq<nat>>, chainOf: Key -> nat, s: nat, g: nat)
    requires Homed(q, ch, chainOf) && s < |q| && g < |ch| && g != chainOf(q[s].key)
    ensures s !in ch[g]
  {
    assert forall i | 0 <= i < |ch[g]| :: ch[g][i] != s;
  }

  lemma WithoutDetaches(q: seq<Slot>, ch: seq<seq<nat>>, chainOf: Key -> nat, s: nat, h: nat, k: nat)
    requires Homed(q, ch, chainOf) && s < |q| && h == chainOf(q[s].key) && h < |ch| && k < |ch[h]| && ch[h][k] == s
    requires forall i, j | 0 <= i < j < |ch[h]| :: ch[h][i] != ch[h][j]
    ensures forall g, r | 0 <= g < |ch| :: r in ch[h := Without(ch[h], k)][g] <==> r in ch[g] && r != s
  {
    WithoutMembers(ch[h], k);
    forall g, r | 0 <= g < |ch| ensures r in ch[h := Without(ch[h], k)][g] <==> r in ch[g] && r != s {
      if g != h { OnOneChain(q, ch, chainOf, s, g); }
    }
  }

  lemma ChainFacts(q: seq<Slot>, heads: seq<nat>, ch: seq<seq<nat>>, chainOf: Key -> nat, h: nat)
    requires Linked(q, heads, ch) && Homed(q, ch, chainOf) && h < |ch|
    ensures forall i | 0 <= i < |ch[h]| :: InUse(q, ch[h][i])
    ensures forall i, j | 0 <= i < j < |ch[h]| :: ch[h][i] != ch[h][j]
  {
    assert ChainOk(q, heads[h], ch[h]);
  }

  lemma UnlinkDetaches(q: seq<Slot>, heads: seq<nat>, ch: seq<seq<nat>>, chainOf: Key -> nat, s: nat, h: nat, k: nat,
                       q1: seq<Slot>, heads1: seq<nat>, ch1: seq<seq<nat>>)
    requires Linked(q, heads, ch) && Homed(q, ch, chainOf) && s < |q| && h == chainOf(q[s].key) && h < |ch| && k < |ch[h]| && ch[h][k] == s
    requires forall i | 0 <= i < |ch[h]| :: ch[h][i] < |q|
    requires q1 == Unlinked(q, ch[h], k) && heads1 == (if k == 0 then heads[h := q[s].next] else heads) && ch1 == ch[h := Without(ch[h], k)]
    ensures Detached(q, ch, s, q1, heads1, ch1)
  {
    ChainFacts(q, heads, ch, chainOf, h);
    UnlinkKeepsLinked(q, heads, ch, chainOf, h, k);
    UnlinkedSheds(q, ch[h], k);
    WithoutDetaches(q, ch, chainOf, s, h, k);
  }

  lemma AttachIndexed(q: seq<Slot>, ch: seq<seq<nat>>, held: map<Key, nat>, chainOf: Key -> nat,
                      q1: seq<Slot>, heads1: seq<nat>, ch1: seq<seq<nat>>, s: nat, key: Key, e: Slot)
    requires Indexed(q, ch, held, chainOf) && Detached(q, ch, s, q1, heads1, ch1) && key !in held && chainOf(key) < |ch|
    requires e.key == key && e.state == Filling
    ensures Indexed(q1[s := e], ch1[chainOf(key) := [s] + ch1[chainOf(key)]], Released(q, held, s)[key := s], chainOf)
  {
    var h := chainOf(key);
    var ch2 := ch1[h := [s] + ch1[h]];
    forall g, r | 0 <= g < |ch| && r != s ensures r in ch2[g] <==> r in ch[g] {
      assert r in ch1[g] <==> r in ch[g];
    }
    forall g | 0 <= g < |ch| ensures s in ch2[g] <==> g == h {
      assert s !in ch1[g];
    }
    GivenTo(q, ch, held, chainOf, q1[s := e], ch2, s, key);
  }

  /** A detached slot given to `key` at the head of that key's chain. */
  lemma Attach(q: seq<Slot>, heads: seq<nat>, ch: seq<seq<nat>>, held: map<Key, nat>, chainOf: Key -> nat,
               q1: seq<Slot>, heads1: seq<nat>, ch1: seq<seq<nat>>, s: nat, key: Key, e: Slot)
    requires IndexOk(q, heads, ch, held, chainOf) && Detached(q, ch, s, q1, heads1, ch1) && key !in held && chainOf(key) < |ch|
    requires e == Slot(key, heads1[chainOf(key)], 1, Filling, false)
    ensures IndexOk(q1[s := e], heads1[chainOf(key) := s], ch1[chainOf(key) := [s] + ch1[chainOf(key)]], Released(q, held, s)[key := s], chainOf)
    ensures HandedTo(q, q1[s := e], s, key)
  {
    AttachIndexed(q, ch, held, chainOf, q1, heads1, ch1, s, key, e);
    forall g, i | 0 <= g < |ch1| && 0 <= i < |ch1[g]| ensures ch1[g][i] != s {
      assert ch1[g][i] in ch1[g];
    }
    PushKeepsLinked(q1, heads1, ch1, chainOf(key), s, e);
    var q2 := q1[s := e];
    forall r | 0 <= r < |q2| ensures SlotOk(q2[r]) { assert SlotOk(q[r]); }
  }

  lemma SameNextLinked(q: seq<Slot>, q': seq<Slot>, heads: seq<nat>, ch: seq<seq<nat>>)
    requires Linked(q, heads, ch) && |q'| == |q| && forall r | 0 <= r < |q| :: q'[r].next == q[r].next
    ensures Linked(q', heads, ch)
  {
    forall h | 0 <= h < |heads| ensures ChainOk(q', heads[h], ch[h]) { OtherChain(q, q', heads[h], ch[h]); }
  }

  /** A detached slot freed. */
  lemma Freed(q: seq<Slot>, heads: seq<nat>, ch: seq<seq<nat>>, held: map<Key, nat>, chainOf: Key -> nat,
              q1: seq<Slot>, heads1: seq<nat>, ch1: seq<seq<nat>>, s: nat, e: Slot, q2: seq<Slot>)
    requires IndexOk(q, heads, ch, held, chainOf) && Detached(q, ch, s, q1, heads1, ch1) && InUse(q, s)
    requires e == q1[s].(state := Free, pins := 0) && q2 == q1[s := e]
    ensures IndexOk(q2, heads1, ch1, Released(q, held, s), chainOf) && FreedNow(q, q2, s)
  {
    assert forall h | 0 <= h < |ch| :: s !in ch1[h];
    GivenUp(q, ch, held, chainOf, q2, ch1, s);
    SameNextLinked(q1, q2, heads1, ch1);
    forall r | 0 <= r < |q2| ensures SlotOk(q2[r]) { assert SlotOk(q[r]); }
  }

  /** The clock's victim has been given to `key`. */
  ghost predicate GivenVictim(q: seq<Slot>, hand: nat, q': seq<Slot>, s: nat, key: Key) {
    hand < |q| && s < |q| && IsVictim(q, hand, s) && HandedTo(q, q', s, key)
  }

  lemma HandedThrough(q: seq<Slot>, q1: seq<Slot>, q2: seq<Slot>, held: map<Key, nat>, s: nat, key: Key)
    requires MarksCleared(q, q1) && HandedTo(q1, q2, s, key) && s < |q|
    ensures HandedTo(q, q2, s, key) && Released(q, held, s) == Released(q1, held, s)
  {
  }

  /** Writes one element of an array. */
  method Put<T>(a: array<T>, i: nat, v: T)
    requires i < a.Length
    modifies a
    ensures a[..] == old(a[..])[i := v]
  {
    a[i] := v;
  }

  lemma PinningPart(q: seq<Slot>, w: seq<nat>, a: nat, b: nat)
    requires Pinning(q, w) && a <= b <= |w|
    ensures Pinning(q, w[a..b])
  {
    assert forall i | 0 <= i < b - a :: w[a..b][i] == w[a + i];
  }

  lemma {:induction false} CountBound(m: seq<bool>, n: nat)
    requires n <= |m|
    ensures CountTo(m, n) <= n
  {
    if n > 0 { CountBound(m, n - 1); }
  }

  lemma BackKeepsIndex(q: seq<Slot>, heads: seq<nat>, ch: seq<seq<nat>>, held: map<Key, nat>, chainOf: Key -> nat, w: seq<nat>, w': seq<nat>, q': seq<Slot>)
    requires IndexOk(q, heads, ch, held, chainOf) && Pinning(q, w) && GaveBack(q, q', w, w')
    ensures IndexOk(q', heads, ch, held, chainOf)
  {
    forall s | 0 <= s < |q| && q[s].state != Held ensures s !in w {
      assert forall i | 0 <= i < |w| :: w[i] == NO_SLOT || q[w[i]].state == Held;
    }
    PinsKeepIndex(q, q', heads, ch, held, chainOf);
  }

  lemma PlanEnds(q: seq<Slot>, w: seq<nat>, q': seq<Slot>, w': seq<nat>, maxRuns: nat)
    requires Planned(q, w, q', w') && Runs(Missing(w')) <= maxRuns && (w' == w || Runs(Missing(w')) >= maxRuns)
    ensures forall m | Within(Missing(w), m) && Runs(m) <= maxRuns :: Count(Missing(w')) <= Count(m)
  {
    forall m | Within(Missing(w), m) && Runs(m) <= maxRuns ensures Count(Missing(w')) <= Count(m) {
      if w' == w { CountWithin(Missing(w), m, |w|); }
    }
  }

  method ClearSlots(out: array<nat>, a: nat, b: nat)
    requires a <= b <= out.Length
    modifies out
    ensures out[..] == Cleared(old(out[..]), a, b)
  {
    for i := a to b
      invariant forall j | 0 <= j < out.Length :: out[j] == if a <= j < i then NO_SLOT else old(out[j])
    {
      out[i] := NO_SLOT;
    }
  }

  ghost predicate Scanned(m: seq<bool>, runs: nat, gapStart: nat, gapLength: nat, e: nat) {
    && runs == Runs(m)
    && (runs >= 2 ==> e < |m| && Shortest(m, e) && gapStart == GapStart(m, e) && gapStart + gapLength == e)
  }

  /** One pass over a read: how many fetches it takes, and the first of the shortest gaps between them. */
  method Scan(out: array<nat>) returns (runs: nat, gapStart: nat, gapLength: nat, ghost e: nat)
    requires out.Length < NO_SLOT
    ensures Scanned(Missing(out[..]), runs, gapStart, gapLength, e)
  {
    ghost var m := Missing(out[..]);
    runs, gapStart, gapLength, e := 0, 0, NO_SLOT, 0;
    for i := 0 to out.Length
      invariant runs == RunsTo(m, i)
      invariant forall d | 0 <= d < i && InnerGap(m, d) :: e < i && gapLength <= GapLength(m, d)
      invariant gapLength != NO_SLOT ==> e < i && InnerGap(m, e) && gapStart == GapStart(m, e) && gapStart + gapLength == e
    {
      if out[i] == NO_SLOT && (i == 0 || out[i - 1] != NO_SLOT) {
        assert StartsRun(m, i);
        if runs != 0 {
          var start := i;
          while 0 < start && out[start - 1] != NO_SLOT
            invariant start <= i && GapStart(m, start) == GapStart(m, i)
          {
            start := start - 1;
          }
          assert start == GapStart(m, i);
          if GapStart(m, i) == 0 { NoRunsBefore(m, i); }
          if i - start < gapLength {
            gapStart, gapLength, e := start, i - start, i;
          }
        } else {
          NoGapBefore(m, i);
        }
        runs := runs + 1;
      }
    }
    if runs >= 2 { HasInnerGap(m, |m|); }
  }

  lemma {:induction false} NoGapBefore(m: seq<bool>, n: nat)
    requires n <= |m| && RunsTo(m, n) == 0
    ensures GapStart(m, n) == 0
  {
    if n > 0 {
      NoGapBefore(m, n - 1);
      if m[n - 1] { FetchHasRun(m, n); }
    }
  }

  method Append(out: array<nat>, i: nat, v: nat, ghost w: seq<nat>)
    requires i < out.Length && out[..i] == w
    modifies out
    ensures out[..i + 1] == w + [v]
  {
    out[i] := v;
  }

  class Index {
    const chainOf: Key -> nat
    const slots: array<Slot>
    const heads: array<nat>
    const ghosts: array<nat>
    const setOf: Key -> nat            // where a key's ghost set starts
    const tagOf: Key -> nat
    var hand: nat
    ghost var chains: seq<seq<nat>>
    ghost var held: map<Key, nat>

    ghost predicate Valid()
      reads this, slots, heads
    {
      && hand < slots.Length && heads != ghosts
      && (forall key :: chainOf(key) < heads.Length)
      && (forall key :: setOf(key) + GHOST_WAYS <= ghosts.Length)
      && IndexOk(slots[..], heads[..], chains, held, chainOf)
    }

    /** An empty index: nothing held, nothing remembered. */
    constructor (mix: Key -> nat, slotCount: nat, n: nat)
      requires 0 < slotCount <= MAX_SLOTS && 0 < n
      ensures Valid() && slots.Length == slotCount && heads.Length == n && held == map[]
      ensures forall key :: chainOf(key) == mix(key) / 0x1_0000_0000 % n
      ensures forall key :: !Remembers(ghosts[..], setOf(key), tagOf(key))
    {
      var sets := if n > 1 then n / 2 else 1;
      chainOf := (key: Key) => mix(key) / 0x1_0000_0000 % n;
      setOf := (key: Key) => mix(key) % 0x1_0000_0000 % sets * GHOST_WAYS;
      tagOf := (key: Key) => if mix(key) % 2 == 0 then mix(key) + 1 else mix(key);
      slots := new Slot[slotCount](_ => Slot(Key(0, 0, 0, 0), NO_SLOT, 0, Free, false));
      heads := new nat[n](_ => NO_SLOT);
      ghosts := new nat[sets * GHOST_WAYS](_ => 0);
      hand := 0;
      chains := seq(n, _ => []);
      held := map[];
    }

    /** DiskCacheIndexFind. */
    method Find(key: Key) returns (slot: nat)
      requires Valid()
      ensures slot == if key in held then held[key] else NO_SLOT
      ensures key in held ==> slot < slots.Length
    {
      ghost var q := slots[..];
      ghost var c := chains[chainOf(key)];
      FoundOnChain(q, heads[..], chains, held, chainOf, key);
      slot := heads[chainOf(key)];
      ghost var i := 0;
      while slot != NO_SLOT
        invariant 0 <= i <= |c|
        invariant slot == if i < |c| then c[i] else NO_SLOT
        invariant forall j | 0 <= j < i :: q[c[j]].key != key
        decreases |c| - i
      {
        assert q[c[i]] == slots[slot];
        if slots[slot].key == key {
          return;
        }
        slot := slots[slot].next;
        i := i + 1;
      }
    }

    /** DiskCacheIndexVictim. */
    method Victim() returns (v: nat, ghost d: nat)
      requires Valid()
      modifies this`hand, slots
      ensures Valid() && ClockSwept(old(slots[..]), old(hand), slots[..], hand, d) && StopsAt(old(slots[..]), old(hand), v, d)
    {
      ghost var q, h := slots[..], hand;
      v, d := Sweep();
      SweptMarks(q, h, slots[..], hand, d);
      PinsKeepIndex(q, slots[..], heads[..], chains, held, chainOf);
    }

    /** The hand's sweep, which needs of the index only that the hand is on a slot. */
    method Sweep() returns (v: nat, ghost d: nat)
      requires hand < slots.Length < NO_SLOT
      modifies this`hand, slots
      ensures hand < slots.Length
      ensures ClockSwept(old(slots[..]), old(hand), slots[..], hand, d) && StopsAt(old(slots[..]), old(hand), v, d)
    {
      ghost var q, h := slots[..], hand;
      var n := slots.Length;
      var fallback := NO_SLOT;
      ghost var f := 0;
      var looked := 0;
      while looked < Reach(n)
        invariant ClockSwept(q, h, slots[..], hand, looked) && Sought(q, h, looked, fallback, f)
      {
        var slot := hand;
        ghost var w := slots[..];
        HandPasses(q, h, w, hand, looked);
        hand := if slot + 1 == n then 0 else slot + 1;
        if slots[slot].pins == 0 {
          if slots[slot].state != Free && slots[slot].referenced {
            slots[slot] := slots[slot].(referenced := false);
            if fallback == NO_SLOT { fallback, f := slot, looked; }
          } else {
            v, d := slot, looked + 1;
            return;
          }
        }
        assert slots[..] == w[slot := Passed(q[slot])];
        looked := looked + 1;
      }
      v, d := fallback, looked;
    }

    /** DiskCacheIndexUnlink: slot `slot` leaves its key's chain. */
    method Unlink(slot: nat) returns (ghost k: nat)
      requires Valid() && slot < slots.Length && slots[slot].state != Free
      modifies this`chains, slots, heads
      ensures var h := chainOf(old(slots[slot]).key); var c := old(chains)[h]; var q := old(slots[..]);
              && k < |c| && c[k] == slot && (forall i | 0 <= i < |c| :: c[i] < |q|)
              && slots[..] == Unlinked(q, c, k) && chains == old(chains)[h := Without(c, k)]
              && heads[..] == if k == 0 then old(heads[..])[h := q[slot].next] else old(heads[..])
    {
      ghost var q := slots[..];
      var h := chainOf(slots[slot].key);
      ghost var c := chains[h];
      assert ChainOk(q, heads[..][h], c) && InUse(q, slot);
      var prev, cur := NO_SLOT, heads[h];
      k := 0;
      while cur != slot
        invariant k < |c| && cur == c[k] && prev == if k == 0 then NO_SLOT else c[k - 1]
        invariant slot in c[k..]
        decreases |c| - k
      {
        assert q[c[k]].next == LinkAfter(c, k);
        prev, cur, k := cur, slots[cur].next, k + 1;
      }
      if prev == NO_SLOT {
        heads[h] := slots[slot].next;
      } else {
        slots[prev] := slots[prev].(next := slots[slot].next);
      }
      slots[slot] := slots[slot].(next := NO_SLOT);
      chains := chains[h := Without(c, k)];
    }

    /** Takes `s` off its chain, if it is on one. */
    method Detach(s: nat)
      requires Valid() && s < slots.Length
      modifies this`chains, slots, heads
      ensures Detached(old(slots[..]), old(chains), s, slots[..], heads[..], chains)
    {
      ghost var q, hd, ch := slots[..], heads[..], chains;
      if slots[s].state != Free {
        ghost var k := Unlink(s);
        UnlinkDetaches(q, hd, ch, chainOf, s, chainOf(q[s].key), k, slots[..], heads[..], chains);
      } else {
        assert SlotOk(q[s]);
        FreeOnNoChain(q, ch, chainOf, s);
      }
    }

    /** The end of BlorgDiskCacheIndexReserve: slot `s`, unpinned, is given to `key`. */
    method Give(s: nat, key: Key)
      requires Valid() && s < slots.Length && slots[s].pins == 0 && key !in held
      modifies this`chains, this`held, slots, heads
      ensures Valid() && HandedTo(old(slots[..]), slots[..], s, key)
      ensures held == Released(old(slots[..]), old(held), s)[key := s]
    {
      ghost var q, hd, ch := slots[..], heads[..], chains;
      Detach(s);
      ghost var q1, hd1, ch1 := slots[..], heads[..], chains;
      var h := chainOf(key);
      Attach(q, hd, ch, held, chainOf, q1, hd1, ch1, s, key, Slot(key, hd1[h], 1, Filling, false));
      Put(slots, s, Slot(key, heads[h], 1, Filling, false));
      Put(heads, h, s);
      chains := chains[h := [s] + chains[h]];
      held := Released(q, held, s)[key := s];
    }

    /** A slot in use is freed. */
    method Abandon(s: nat)
      requires Valid() && s < slots.Length && slots[s].state != Free
      modifies this`chains, this`held, slots, heads
      ensures Valid() && held == Released(old(slots[..]), old(held), s) && FreedNow(old(slots[..]), slots[..], s)
    {
      ghost var q, hd, ch, before, after := slots[..], heads[..], chains, held, Released(slots[..], held, s);
      Detach(s);
      ghost var q1, hd1, ch1 := slots[..], heads[..], chains;
      var e := slots[s].(state := Free, pins := 0);
      Put(slots, s, e);
      Freed(q, hd, ch, before, chainOf, q1, hd1, ch1, s, e, slots[..]);
      held := after;
    }

    /** BlorgDiskCacheIndexCommit: a filled slot becomes servable, or is freed. */
    method Commit(s: nat, written: bool)
      requires Valid() && s < slots.Length && slots[s].state == Filling
      modifies this`chains, this`held, slots, heads
      ensures Valid()
      ensures written ==> held == old(held) && slots[..] == old(slots[..])[s := old(slots[..])[s].(state := Held, pins := 0)]
      ensures !written ==> held == Released(old(slots[..]), old(held), s) && FreedNow(old(slots[..]), slots[..], s)
    {
      ghost var q := slots[..];
      if written {
        assert SlotOk(q[s]);
        Put(slots, s, slots[s].(state := Held, pins := slots[s].pins - 1));
        HeldKeepsIndex(q, slots[..], heads[..], chains, held, chainOf, s);
      } else {
        Abandon(s);
      }
    }

    /** The way of its ghost set that holds a key's tag, or GHOST_WAYS. */
    method Recall(key: Key) returns (way: nat)
      requires setOf(key) + GHOST_WAYS <= ghosts.Length
      ensures way <= GHOST_WAYS
      ensures way < GHOST_WAYS <==> Remembers(ghosts[..], setOf(key), tagOf(key))
      ensures way < GHOST_WAYS ==> ghosts[setOf(key) + way] == tagOf(key)
    {
      way := 0;
      ghost var ways := ghosts[..][setOf(key)..setOf(key) + GHOST_WAYS];
      while way < GHOST_WAYS && ghosts[setOf(key) + way] != tagOf(key)
        invariant way <= GHOST_WAYS && forall w | 0 <= w < way :: ways[w] != tagOf(key)
      {
        assert ways[way] == ghosts[setOf(key) + way];
        way := way + 1;
      }
      assert way < GHOST_WAYS ==> ways[way] == tagOf(key);
    }

    /** Records a first miss. */
    method Record(key: Key)
      requires setOf(key) + GHOST_WAYS <= ghosts.Length
      modifies ghosts
      ensures ghosts[..] == Recorded(old(ghosts[..]), setOf(key), tagOf(key))
    {
      var at := setOf(key);
      ghosts[at + 3] := ghosts[at + 2];
      ghosts[at + 2] := ghosts[at + 1];
      ghosts[at + 1] := ghosts[at];
      ghosts[at] := tagOf(key);
    }

    /** BlorgDiskCacheIndexReserve. */
    method Reserve(key: Key) returns (r: Admit)
      requires Valid()
      modifies this`hand, this`chains, this`held, slots, heads, ghosts
      ensures Valid()
      ensures r == AlreadyHeld <==> key in old(held)
      ensures r == FirstMiss <==> key !in old(held) && !Remembers(old(ghosts[..]), setOf(key), tagOf(key))
      ensures r == NoVictim ==> NoneInReach(old(slots[..]), old(hand))
      ensures !r.Reserved? ==> held == old(held) && MarksCleared(old(slots[..]), slots[..])
      ensures r.Reserved? ==> GivenVictim(old(slots[..]), old(hand), slots[..], r.slot, key) && held == Released(old(slots[..]), old(held), r.slot)[key := r.slot]
      ensures r == FirstMiss ==> ghosts[..] == Recorded(old(ghosts[..]), setOf(key), tagOf(key))
      ensures r == AlreadyHeld || r == NoVictim ==> ghosts[..] == old(ghosts[..])
      ensures r.Reserved? ==> WayCleared(old(ghosts[..]), ghosts[..], setOf(key), tagOf(key))
    {
      var slot := Find(key);
      if slot != NO_SLOT {
        r := AlreadyHeld;
      } else {
        r := Miss(key);
      }
    }

    /** A key not held: remembered, or given a slot if it was remembered already. */
    method Miss(key: Key) returns (r: Admit)
      requires Valid() && key !in held
      modifies this`hand, this`chains, this`held, slots, heads, ghosts
      ensures Valid() && r != AlreadyHeld
      ensures r == FirstMiss <==> !Remembers(old(ghosts[..]), setOf(key), tagOf(key))
      ensures r == NoVictim ==> NoneInReach(old(slots[..]), old(hand))
      ensures !r.Reserved? ==> held == old(held) && MarksCleared(old(slots[..]), slots[..])
      ensures r.Reserved? ==> GivenVictim(old(slots[..]), old(hand), slots[..], r.slot, key) && held == Released(old(slots[..]), old(held), r.slot)[key := r.slot]
      ensures r == FirstMiss ==> ghosts[..] == Recorded(old(ghosts[..]), setOf(key), tagOf(key))
      ensures r == NoVictim ==> ghosts[..] == old(ghosts[..])
      ensures r.Reserved? ==> WayCleared(old(ghosts[..]), ghosts[..], setOf(key), tagOf(key))
    {
      var way := Recall(key);
      if way == GHOST_WAYS {
        Record(key);
        r := FirstMiss;
      } else {
        r := Take(key);
        if r.Reserved? {
          Forget(key, way);
        }
      }
    }

    method Forget(key: Key, way: nat)
      requires setOf(key) + GHOST_WAYS <= ghosts.Length && way < GHOST_WAYS && ghosts[setOf(key) + way] == tagOf(key)
      modifies ghosts
      ensures WayCleared(old(ghosts[..]), ghosts[..], setOf(key), tagOf(key))
    {
      ghost var g := ghosts[..];
      assert Ways(g, setOf(key))[way] == tagOf(key);
      ghosts[setOf(key) + way] := 0;
      assert ghosts[..] == g[setOf(key) + way := 0];
    }

    /** A key not held is given the clock's victim, if there is one. */
    method Take(key: Key) returns (r: Admit)
      requires Valid() && key !in held
      modifies this`hand, this`chains, this`held, slots, heads
      ensures Valid() && (r == NoVictim || r.Reserved?)
      ensures r == NoVictim ==> NoneInReach(old(slots[..]), old(hand)) && held == old(held) && MarksCleared(old(slots[..]), slots[..])
      ensures r.Reserved? ==> GivenVictim(old(slots[..]), old(hand), slots[..], r.slot, key) && held == Released(old(slots[..]), old(held), r.slot)[key := r.slot]
    {
      ghost var q := slots[..];
      var v, d := Victim();
      SweptMarks(q, old(hand), slots[..], hand, d);
      if v == NO_SLOT {
        r := NoVictim;
      } else {
        ghost var q1 := slots[..];
        Give(v, key);
        HandedThrough(q, q1, slots[..], old(held), v, key);
        r := Reserved(v);
      }
    }

    /** Pins the slot that can serve `key`, if there is one. */
    method PinOne(key: Key) returns (slot: nat)
      requires Valid()
      modifies slots
      ensures Valid() && PinnedOne(old(slots[..]), slots[..], held, key, slot)
    {
      slot := Find(key);
      ghost var q := slots[..];
      if slot != NO_SLOT && slots[slot].state == Held {
        var e := slots[slot].(pins := slots[slot].pins + 1);
        Put(slots, slot, e);
        PinKeepsIndex(q, heads[..], chains, held, chainOf, key, slot, e, slots[..]);
      } else {
        slot := NO_SLOT;
        NoPin(q, held, key);
      }
    }

    /** BlorgDiskCacheIndexPinHeld: pins what can serve blocks `key.block..last`, noting each slot in `out`. */
    method PinHeld(key: Key, last: nat, out: array<nat>) returns (pinned: nat)
      requires Valid() && key.block <= last + 1 && last + 1 - key.block <= out.Length && out != heads && out != ghosts
      modifies slots, out
      ensures Valid()
      ensures var w := out[..last + 1 - key.block]; var q := old(slots[..]);
              && Serves(q, key, w) && PinsRaised(q, slots[..], w) && Pinning(slots[..], w)
              && pinned + Count(Missing(w)) == |w|
    {
      ghost var q, w := slots[..], [];
      ghost var ch := chains;
      var i := 0;
      pinned := 0;
      while key.block + i <= last
        invariant i <= last + 1 - key.block && |w| == i && out[..i] == w
        invariant ServesFrom(q, held, key, w) && PinsRaised(q, slots[..], w) && NoneTwice(q, key, w)
        invariant Valid() && pinned + Count(Missing(w)) == i
        decreases last + 1 - key.block - i
      {
        ghost var q1 := slots[..];
        var k := key.(block := key.block + i);
        var slot := PinOne(k);
        PinStep(q, q1, slots[..], held, key, w, k, slot);
        Append(out, i, slot, w);
        if slot != NO_SLOT { pinned := pinned + 1; }
        w := w + [slot];
        i := i + 1;
      }
      PinnedNow(q, slots[..], held, key, w);
      ServesExactly(q, ch, held, chainOf, key, w);
    }

    /** Drops one pin on each slot `out[from..to]` names. */
    method DropPins(out: array<nat>, from: nat, to: nat, served: bool)
      requires from <= to <= out.Length && slots.Length < NO_SLOT && Pinning(slots[..], out[..][from..to])
      modifies slots
      ensures PinsDropped(old(slots[..]), slots[..], out[..][from..to], served)
    {
      ghost var q, w := slots[..], out[..][from..to];
      for i := from to to
        invariant PinsDropped(q, slots[..], w[..i - from], served)
      {
        ghost var q1, n := slots[..], i - from;
        var slot := out[i];
        if slot != NO_SLOT {
          StillPinned(q, q1, w, n, served);
          Put(slots, slot, slots[slot].(pins := slots[slot].pins - 1, referenced := slots[slot].referenced || served));
        }
        DropStep(q, q1, slots[..], w, n, slot, served);
      }
      assert w[..to - from] == w;
    }

    /** BlorgDiskCacheIndexUnpin of `out[from..to]`. */
    method Unpin(out: array<nat>, from: nat, to: nat, served: bool)
      requires Valid() && from <= to <= out.Length && Pinning(slots[..], out[..][from..to])
      modifies slots
      ensures Valid() && PinsDropped(old(slots[..]), slots[..], out[..][from..to], served)
    {
      ghost var q := slots[..];
      DropPins(out, from, to, served);
      DropsKeepIndex(q, heads[..], chains, held, chainOf, out[..][from..to], served, slots[..]);
    }

    /** Gives up the slots of blocks `[a, b)`. */
    method GiveBack(out: array<nat>, a: nat, b: nat)
      requires a <= b <= out.Length && slots.Length < NO_SLOT && Pinning(slots[..], out[..])
      modifies slots, out
      ensures PinsDropped(old(slots[..]), slots[..], old(out[..])[a..b], false) && out[..] == Cleared(old(out[..]), a, b)
    {
      PinningPart(slots[..], out[..], a, b);
      DropPins(out, a, b, false);
      ClearSlots(out, a, b);
    }

    /** Gives up the shortest gap of a plan, as a scan found it. */
    method FillGap(out: array<nat>, runs: nat, a: nat, length: nat, ghost e: nat, ghost q: seq<Slot>, ghost w: seq<nat>)
      requires slots.Length < NO_SLOT && Planned(q, w, slots[..], out[..])
      requires runs >= 2 && Scanned(Missing(out[..]), runs, a, length, e)
      modifies slots, out
      ensures Planned(q, w, slots[..], out[..])
      ensures Runs(Missing(out[..])) + 1 == runs && Count(Missing(out[..])) == Count(Missing(old(out[..]))) + length
    {
      ghost var q1, w1 := slots[..], out[..];
      var b := a + length;
      assert b == e;
      GiveBack(out, a, b);
      PlanStep(q, w, q1, w1, slots[..], out[..], a, b);
    }

    /** BlorgDiskCacheIndexPlanRead's loop. */
    method PlanLoop(out: array<nat>, heldCount: nat, maxRuns: nat) returns (left: int)
      requires slots.Length < NO_SLOT && out.Length < NO_SLOT && Pinning(slots[..], out[..])
      requires maxRuns > 0 || Runs(Missing(out[..])) == 0
      modifies slots, out
      ensures Planned(old(slots[..]), old(out[..]), slots[..], out[..])
      ensures left + Count(Missing(out[..])) == heldCount + Count(Missing(old(out[..])))
      ensures Runs(Missing(out[..])) <= maxRuns && (out[..] == old(out[..]) || Runs(Missing(out[..])) >= maxRuns)
    {
      ghost var q, w := slots[..], out[..];
      left := heldCount;
      PlanBegins(q, w);
      var runs: nat, a: nat, length: nat, e: nat := Scan(out);
      while runs > maxRuns
        invariant Planned(q, w, slots[..], out[..]) && Scanned(Missing(out[..]), runs, a, length, e)
        invariant left + Count(Missing(out[..])) == heldCount + Count(Missing(w))
        invariant (out[..] == w || runs >= maxRuns) && (maxRuns > 0 || runs == 0)
        decreases runs
      {
        FillGap(out, runs, a, length, e, q, w);
        left := left - length;
        runs, a, length, e := Scan(out);
      }
    }

    /**
      BlorgDiskCacheIndexPlanRead: gives up held blocks until at most
      `maxRuns` fetches cover the rest, and no choice gives up fewer.
    */
    method PlanRead(out: array<nat>, heldCount: nat, maxRuns: nat) returns (left: int)
      requires Valid() && out.Length < NO_SLOT && out != heads && out != ghosts && Pinning(slots[..], out[..])
      requires heldCount + Count(Missing(out[..])) == out.Length
      requires maxRuns > 0 || Runs(Missing(out[..])) == 0
      modifies slots, out
      ensures Valid() && Pinning(slots[..], out[..])
      ensures Subplan(old(out[..]), out[..]) && GaveBack(old(slots[..]), slots[..], old(out[..]), out[..])
      ensures left + Count(Missing(out[..])) == out.Length
      ensures Runs(Missing(out[..])) <= maxRuns && Within(Missing(old(out[..])), Missing(out[..]))
      ensures forall m | Within(Missing(old(out[..])), m) && Runs(m) <= maxRuns :: Count(Missing(out[..])) <= Count(m)
    {
      ghost var q, w := slots[..], out[..];
      left := PlanLoop(out, heldCount, maxRuns);
      PlanEnds(q, w, slots[..], out[..], maxRuns);
      BackKeepsIndex(q, heads[..], chains, held, chainOf, w, out[..], slots[..]);
    }
  }

  ghost predicate PowerOfTwo(n: nat)
    decreases n
  {
    n == 1 || (n > 1 && n % 2 == 0 && PowerOfTwo(n / 2))
  }

  /** BlorgDiskCacheIndexInitialize: one chain per slot, rounded up to a power of two. */
  method Initialize(mix: Key -> nat, slotCount: nat) returns (index: Index?)
    ensures index == null <==> slotCount == 0 || slotCount > MAX_SLOTS
    ensures index != null ==> (index.Valid() && index.slots.Length == slotCount && index.held == map[] &&
                               PowerOfTwo(index.heads.Length) && slotCount <= index.heads.Length < 2 * slotCount)
  {
    index := null;
    if 0 < slotCount <= MAX_SLOTS {
      var n := 1;
      while n < slotCount
        invariant PowerOfTwo(n) && 0 < n < 2 * slotCount
        decreases slotCount - n
      {
        n := n * 2;
      }
      index := new Index(mix, slotCount, n);
    }
  }
}
