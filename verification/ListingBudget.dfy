/**
  The byte budget of the listing cache, src/PathCache.c: one interlocked
  counter, charged by publishes and uncharged by evictions that run under
  different bucket locks. A publish adds its bytes and tests the sum in one
  operation, and takes them back if they do not fit.
*/
module ListingBudget {

  const MAX_BYTES: nat := 33_554_432

  /** What the holder of a bucket's lock has charged or unlinked and not yet settled. */
  datatype Pending =
    | Nothing
    | Leaving(bytes: nat)              // unlinked, its bytes still charged
    | Granted(bytes: nat)              // charged and within the budget, not yet linked
    | Over(bytes: nat)                 // charged past the budget, to be taken back

  /** One bucket: the sizes of its listings, oldest first. */
  datatype Bucket = Bucket(list: seq<nat>, pending: Pending)

  datatype State = State(total: int, buckets: seq<Bucket>)

  function Sum(q: seq<nat>): nat {
    if q == [] then 0 else Sum(q[..|q| - 1]) + q[|q| - 1]
  }

  /** The bytes a bucket has in the counter. */
  function Charged(b: Bucket): nat {
    Sum(b.list) + (if b.pending.Nothing? then 0 else b.pending.bytes)
  }

  /** The bytes it holds, or is about to. */
  function Kept(b: Bucket): nat {
    Sum(b.list) + (if b.pending.Granted? then b.pending.bytes else 0)
  }

  function ChargedAll(q: seq<Bucket>): nat {
    if q == [] then 0 else ChargedAll(q[..|q| - 1]) + Charged(q[|q| - 1])
  }

  function KeptAll(q: seq<Bucket>): nat {
    if q == [] then 0 else KeptAll(q[..|q| - 1]) + Kept(q[|q| - 1])
  }

  // ---- steps, each under bucket `i`'s lock or one interlocked operation ----

  function Set(s: State, i: nat, b: Bucket, total: int): State
    requires i < |s.buckets|
  {
    State(total, s.buckets[i := b])
  }

  /** ListingCacheRemoveEntry, by a publish, an invalidation or a reap: the entry is unlinked. */
  ghost predicate Unlink(s: State, i: nat, k: nat, s': State) {
    i < |s.buckets| && s.buckets[i].pending == Nothing && k < |s.buckets[i].list| &&
    (var b := s.buckets[i];
     s' == Set(s, i, Bucket(b.list[..k] + b.list[k + 1..], Leaving(b.list[k])), s.total))
  }

  /** And its bytes leave the counter. */
  ghost predicate Uncharge(s: State, i: nat, s': State) {
    i < |s.buckets| && s.buckets[i].pending.Leaving? &&
    s' == Set(s, i, s.buckets[i].(pending := Nothing), s.total - s.buckets[i].pending.bytes)
  }

  /** ListingCacheCharge adds and tests in one operation. */
  ghost predicate Charge(s: State, i: nat, bytes: nat, s': State) {
    i < |s.buckets| && s.buckets[i].pending == Nothing &&
    s' == Set(s, i, s.buckets[i].(pending := if s.total + bytes <= MAX_BYTES then Granted(bytes) else Over(bytes)), s.total + bytes)
  }

  ghost predicate Link(s: State, i: nat, s': State) {
    i < |s.buckets| && s.buckets[i].pending.Granted? &&
    s' == Set(s, i, Bucket(s.buckets[i].list + [s.buckets[i].pending.bytes], Nothing), s.total)
  }

  ghost predicate TakeBack(s: State, i: nat, s': State) {
    i < |s.buckets| && s.buckets[i].pending.Over? &&
    s' == Set(s, i, s.buckets[i].(pending := Nothing), s.total - s.buckets[i].pending.bytes)
  }

  ghost predicate Next(s: State, s': State) {
    || (exists i: nat, k: nat :: Unlink(s, i, k, s'))
    || (exists i: nat :: Uncharge(s, i, s'))
    || (exists i: nat, bytes: nat :: Charge(s, i, bytes, s'))
    || (exists i: nat :: Link(s, i, s'))
    || (exists i: nat :: TakeBack(s, i, s'))
  }

  // ---- the counter counts, and what is kept fits ----

  ghost predicate Inv(s: State) {
    s.total == ChargedAll(s.buckets) && KeptAll(s.buckets) <= MAX_BYTES
  }

  lemma {:induction false} SumsUpdate(q: seq<Bucket>, i: nat, b: Bucket)
    requires i < |q|
    ensures ChargedAll(q[i := b]) == ChargedAll(q) - Charged(q[i]) + Charged(b)
    ensures KeptAll(q[i := b]) == KeptAll(q) - Kept(q[i]) + Kept(b)
    ensures KeptAll(q) <= ChargedAll(q)
  {
    var rest := q[..|q| - 1];
    if i == |q| - 1 {
      assert q[i := b][..|q| - 1] == rest;
      KeptWithin(rest);
    } else {
      SumsUpdate(rest, i, b);
      assert q[i := b][..|q| - 1] == rest[i := b];
    }
  }

  lemma {:induction false} KeptWithin(q: seq<Bucket>)
    ensures KeptAll(q) <= ChargedAll(q)
  {
    if q != [] { KeptWithin(q[..|q| - 1]); }
  }

  lemma {:induction false} SumWithout(q: seq<nat>, k: nat)
    requires k < |q|
    ensures Sum(q[..k] + q[k + 1..]) == Sum(q) - q[k]
  {
    var rest := q[..|q| - 1];
    var w := q[..k] + q[k + 1..];
    if k == |q| - 1 {
      assert w == rest;
    } else {
      SumWithout(rest, k);
      assert w[..|w| - 1] == rest[..k] + rest[k + 1..];
    }
  }

  lemma SumAppend(q: seq<nat>, n: nat)
    ensures Sum(q + [n]) == Sum(q) + n
  {
    assert (q + [n])[..|q|] == q;
  }

  lemma StepKeepsInv(s: State, s': State)
    requires Inv(s) && Next(s, s')
    ensures Inv(s') && |s'.buckets| == |s.buckets|
  {
    if i: nat, k: nat :| Unlink(s, i, k, s') {
      SumWithout(s.buckets[i].list, k);
      SumsUpdate(s.buckets, i, s'.buckets[i]);
    } else if i: nat :| Uncharge(s, i, s') {
      SumsUpdate(s.buckets, i, s'.buckets[i]);
    } else if i: nat, bytes: nat :| Charge(s, i, bytes, s') {
      SumsUpdate(s.buckets, i, s'.buckets[i]);
    } else if i: nat :| Link(s, i, s') {
      SumAppend(s.buckets[i].list, s.buckets[i].pending.bytes);
      SumsUpdate(s.buckets, i, s'.buckets[i]);
    } else {
      var i: nat :| TakeBack(s, i, s');
      SumsUpdate(s.buckets, i, s'.buckets[i]);
    }
  }

  ghost predicate Init(s: State) {
    s.total == 0 && forall i | 0 <= i < |s.buckets| :: s.buckets[i] == Bucket([], Nothing)
  }

  ghost predicate StepAt(r: seq<State>, i: nat) {
    i + 1 < |r| && Next(r[i], r[i + 1])
  }

  ghost predicate Run(r: seq<State>) {
    |r| > 0 && Init(r[0]) && forall i | 0 <= i < |r| - 1 :: StepAt(r, i)
  }

  lemma {:induction false} EmptySums(q: seq<Bucket>)
    requires forall i | 0 <= i < |q| :: q[i] == Bucket([], Nothing)
    ensures ChargedAll(q) == KeptAll(q) == 0
  {
    if q != [] { EmptySums(q[..|q| - 1]); }
  }

  lemma {:induction false} RunKeepsInv(r: seq<State>, n: nat)
    requires Run(r) && n < |r|
    ensures Inv(r[n])
  {
    if n == 0 {
      EmptySums(r[0].buckets);
    } else {
      RunKeepsInv(r, n - 1);
      assert StepAt(r, n - 1);
      StepKeepsInv(r[n - 1], r[n]);
    }
  }

  /** The listings linked in every bucket together. */
  function Cached(q: seq<Bucket>): nat {
    if q == [] then 0 else Cached(q[..|q| - 1]) + Sum(q[|q| - 1].list)
  }

  lemma {:induction false} CachedWithin(q: seq<Bucket>)
    ensures Cached(q) <= KeptAll(q)
    ensures (forall i | 0 <= i < |q| :: q[i].pending == Nothing) ==> ChargedAll(q) == Cached(q)
  {
    if q != [] { CachedWithin(q[..|q| - 1]); }
  }

  /**
    In every interleaving of publishes, evictions and refusals across the
    buckets, the listings cached never exceed the budget, the counter is
    exactly what the buckets hold and their sections have yet to settle, and
    with nothing pending it is what is cached.
  */
  lemma BudgetHolds(r: seq<State>, n: nat)
    requires Run(r) && n < |r|
    ensures Cached(r[n].buckets) <= MAX_BYTES && r[n].total == ChargedAll(r[n].buckets)
    ensures (forall i | 0 <= i < |r[n].buckets| :: r[n].buckets[i].pending == Nothing) ==> r[n].total == Cached(r[n].buckets)
  {
    RunKeepsInv(r, n);
    CachedWithin(r[n].buckets);
  }

  /** In every run a listing is granted its bytes exactly when they fit beside all that is charged, and is then cached; else nothing is. */
  lemma GrantedExactlyIfFits(r: seq<State>, n: nat, i: nat, bytes: nat)
    requires Run(r) && n + 1 < |r| && Charge(r[n], i, bytes, r[n + 1])
    ensures r[n + 1].buckets[i].pending == if ChargedAll(r[n].buckets) + bytes <= MAX_BYTES then Granted(bytes) else Over(bytes)
    ensures r[n + 1].buckets[i].list == r[n].buckets[i].list
  {
    RunKeepsInv(r, n);
  }

  /** What a pending charge comes to: the next step of its bucket links the listing granted, or gives back one that was not. */
  lemma ChargeSettles(s: State, s': State, i: nat)
    requires Next(s, s') && i < |s.buckets| && s.buckets[i] != s'.buckets[i] && |s'.buckets| == |s.buckets|
    requires s.buckets[i].pending.Granted? || s.buckets[i].pending.Over?
    ensures s'.buckets[i].pending == Nothing
    ensures s'.buckets[i].list == s.buckets[i].list + if s.buckets[i].pending.Granted? then [s.buckets[i].pending.bytes] else []
    ensures s'.total == s.total - if s.buckets[i].pending.Over? then s.buckets[i].pending.bytes else 0
  {
  }
}
