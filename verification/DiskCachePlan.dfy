/**
  Which blocks of a partly held read to fetch: the theory behind
  BlorgDiskCacheIndexPlanRead (src/DiskCacheIndex.c:246-294). A read is a
  sequence of blocks, true where the block is to be fetched; each maximal
  run of those is one fetch.
*/
module DiskCachePlan {

  predicate StartsRun(m: seq<bool>, i: nat) {
    i < |m| && m[i] && (i == 0 || !m[i - 1])
  }

  /** How many fetches the first `n` blocks take. */
  function RunsTo(m: seq<bool>, n: nat): nat
    requires n <= |m|
  {
    if n == 0 then 0 else RunsTo(m, n - 1) + (if StartsRun(m, n - 1) then 1 else 0)
  }

  function Runs(m: seq<bool>): nat {
    RunsTo(m, |m|)
  }

  /** How many of the first `n` blocks are fetched. */
  function CountTo(m: seq<bool>, n: nat): nat
    requires n <= |m|
  {
    if n == 0 then 0 else CountTo(m, n - 1) + (if m[n - 1] then 1 else 0)
  }

  function Count(m: seq<bool>): nat {
    CountTo(m, |m|)
  }

  function Fetched(m: seq<bool>, n: nat): set<nat>
    requires n <= |m|
  {
    set i: nat | i < n && m[i]
  }

  lemma {:induction false} CountIsSize(m: seq<bool>, n: nat)
    requires n <= |m|
    ensures CountTo(m, n) == |Fetched(m, n)|
  {
    if n > 0 {
      CountIsSize(m, n - 1);
      assert Fetched(m, n) == Fetched(m, n - 1) + if m[n - 1] then {n - 1} else {};
    }
  }

  /** `m'` fetches at least what `m` does. */
  ghost predicate Within(m: seq<bool>, m': seq<bool>) {
    |m'| == |m| && forall i | 0 <= i < |m| && m[i] :: m'[i]
  }

  /** Where the stretch of held blocks that ends before `n` begins. */
  function GapStart(m: seq<bool>, n: nat): (a: nat)
    requires n <= |m|
    ensures a <= n && (forall i | a <= i < n :: !m[i]) && (a > 0 ==> m[a - 1])
  {
    if n == 0 || m[n - 1] then n else GapStart(m, n - 1)
  }

  /** A gap between two fetches ends before block `e`. */
  predicate InnerGap(m: seq<bool>, e: nat) {
    StartsRun(m, e) && GapStart(m, e) > 0
  }

  function GapLength(m: seq<bool>, e: nat): nat
    requires e <= |m|
  {
    e - GapStart(m, e)
  }

  /** The blocks in `[a, b)` set to `v`. */
  function Set(m: seq<bool>, a: nat, b: nat, v: bool): (m': seq<bool>)
    requires a <= b <= |m|
    ensures |m'| == |m|
    ensures forall i | 0 <= i < |m| :: m'[i] == if a <= i < b then v else m[i]
  {
    m[..a] + seq(b - a, i => v) + m[b..]
  }

  // ---- filling and opening a gap ----

  lemma {:induction false} RunsSame(m: seq<bool>, m': seq<bool>, n: nat)
    requires n <= |m| == |m'| && forall i | 0 <= i < n :: m'[i] == m[i]
    ensures RunsTo(m', n) == RunsTo(m, n)
  {
    if n > 0 { RunsSame(m, m', n - 1); }
  }

  /** Filling the gap before `e` joins two fetches into one. */
  lemma {:induction false} FillJoins(m: seq<bool>, e: nat, n: nat)
    requires e < n <= |m| && InnerGap(m, e)
    ensures RunsTo(Set(m, GapStart(m, e), e, true), n) + 1 == RunsTo(m, n)
  {
    var a := GapStart(m, e);
    var m' := Set(m, a, e, true);
    if n > e + 1 {
      FillJoins(m, e, n - 1);
    } else {
      FillWithin(m, a, e, e);
    }
  }

  lemma {:induction false} FillWithin(m: seq<bool>, a: nat, e: nat, n: nat)
    requires 0 < a <= n <= e <= |m| && m[a - 1] && forall i | a <= i < e :: !m[i]
    ensures RunsTo(Set(m, a, e, true), n) == RunsTo(m, n)
  {
    if n == a {
      RunsSame(m, Set(m, a, e, true), n);
    } else {
      FillWithin(m, a, e, n - 1);
    }
  }

  /** Opening a stretch of fetched blocks costs at most one more fetch. */
  lemma {:induction false} OpenAddsOne(m: seq<bool>, a: nat, b: nat, n: nat)
    requires a < b <= |m| && n <= |m| && forall i | a <= i < b :: m[i]
    ensures RunsTo(Set(m, a, b, false), n) <= RunsTo(m, n) + (if n > b then 1 else 0)
  {
    if n > 0 {
      OpenAddsOne(m, a, b, n - 1);
      if n == b + 1 && 0 < a { assert m[b - 1]; }
    }
  }

  lemma {:induction false} CountSet(m: seq<bool>, a: nat, b: nat, v: bool, n: nat)
    requires a <= b <= |m| && n <= |m| && forall i | a <= i < b :: m[i] != v
    ensures CountTo(Set(m, a, b, v), n) ==
              if v then CountTo(m, n) + Overlap(a, b, n) else CountTo(m, n) - Overlap(a, b, n)
  {
    if n > 0 { CountSet(m, a, b, v, n - 1); }
  }

  /** How much of `[a, b)` lies before `n`. */
  function Overlap(a: nat, b: nat, n: nat): nat
    requires a <= b
  {
    if n <= a then 0 else if n <= b then n - a else b - a
  }

  lemma {:induction false} CountWithin(m: seq<bool>, m': seq<bool>, n: nat)
    requires Within(m, m') && n <= |m|
    ensures CountTo(m, n) <= CountTo(m', n)
  {
    if n > 0 { CountWithin(m, m', n - 1); }
  }

  // ---- fewer fetches must close a gap whole ----

  /** `m'` leaves a block of the gap before `n` held. */
  ghost predicate Pierced(m: seq<bool>, m': seq<bool>, n: nat)
    requires n <= |m| == |m'|
  {
    exists f :: GapStart(m, n) <= f < n && !m'[f]
  }

  lemma {:induction false} RunsAtLeast(m0: seq<bool>, m: seq<bool>, m': seq<bool>, n: nat)
    requires |m| == |m0| && Within(m0, m') && n <= |m|
    requires forall i | 0 <= i < |m| && StartsRun(m, i) :: m0[i]
    requires forall e | 0 <= e < n && InnerGap(m, e) :: Pierced(m, m', e)
    ensures RunsTo(m, n) <= RunsTo(m', n)
    ensures n > 0 && !m[n - 1] && GapStart(m, n) > 0 && Pierced(m, m', n) && m'[n - 1] ==> RunsTo(m, n) < RunsTo(m', n)
  {
    if n > 0 {
      RunsAtLeast(m0, m, m', n - 1);
      if StartsRun(m, n - 1) {
        if GapStart(m, n - 1) > 0 {
          assert InnerGap(m, n - 1);
        } else {
          NoRunsBefore(m, n - 1);
          FetchHasRun(m', n);
        }
      } else if n > 1 && !m[n - 1] && Pierced(m, m', n) && m'[n - 1] {
        var f :| GapStart(m, n) <= f < n && !m'[f];
        assert GapStart(m, n) == GapStart(m, n - 1);
      }
    }
  }

  lemma {:induction false} NoRunsBefore(m: seq<bool>, n: nat)
    requires n <= |m| && GapStart(m, n) == 0
    ensures RunsTo(m, n) == 0
  {
    if n > 0 { NoRunsBefore(m, n - 1); }
  }

  lemma {:induction false} FetchHasRun(m: seq<bool>, n: nat)
    requires 0 < n <= |m| && m[n - 1]
    ensures RunsTo(m, n) > 0
  {
    if n > 1 && m[n - 2] { FetchHasRun(m, n - 1); }
  }

  // ---- the greedy choice is optimal ----

  /** No cover of what is missing in as few fetches as `m` takes fetches less than `m`. */
  ghost predicate Best(m0: seq<bool>, m: seq<bool>) {
    forall m' | Within(m0, m') && Runs(m') <= Runs(m) :: Count(m) <= Count(m')
  }

  /** What the planner keeps of its plan. */
  ghost predicate Plan(m0: seq<bool>, m: seq<bool>) {
    && Within(m0, m) && Best(m0, m)
    && (forall i | 0 <= i < |m| && StartsRun(m, i) :: m0[i])
  }

  ghost predicate Shortest(m: seq<bool>, e: nat) {
    InnerGap(m, e) && forall d | 0 <= d < |m| && InnerGap(m, d) :: GapLength(m, e) <= GapLength(m, d)
  }

  lemma PlanStarts(m0: seq<bool>)
    ensures Plan(m0, m0)
  {
    forall m' | Within(m0, m') ensures Count(m0) <= Count(m') {
      CountWithin(m0, m', |m0|);
    }
  }

  lemma FewerClosesGap(m0: seq<bool>, m: seq<bool>, m': seq<bool>) returns (d: nat)
    requires Plan(m0, m) && Within(m0, m') && Runs(m') < Runs(m)
    ensures d < |m| && InnerGap(m, d) && !Pierced(m, m', d)
  {
    if forall e | 0 <= e < |m| && InnerGap(m, e) :: Pierced(m, m', e) {
      RunsAtLeast(m0, m, m', |m|);
      assert false;
    }
    var e :| 0 <= e < |m| && InnerGap(m, e) && !Pierced(m, m', e);
    d := e;
  }

  /** Opening the gap a rival closed leaves a cover that the plan so far is no worse than. */
  lemma RivalIsDearer(m0: seq<bool>, m: seq<bool>, e: nat, m': seq<bool>)
    requires Plan(m0, m) && e < |m| && Shortest(m, e) && Within(m0, m') && Runs(m') < Runs(m)
    ensures Count(m) + GapLength(m, e) <= Count(m')
  {
    var d := FewerClosesGap(m0, m, m');
    var a := GapStart(m, d);
    forall i | a <= i < d ensures m'[i] {
      assert !Pierced(m, m', d);
    }
    var open := Set(m', a, d, false);
    assert a < d;
    OpenAddsOne(m', a, d, |m'|);
    CountSet(m', a, d, false, |m'|);
    assert Within(m0, open);
    assert Count(m) <= Count(open);
  }

  /** Filling the shortest gap keeps the plan and takes one fetch less. */
  lemma FillKeepsPlan(m0: seq<bool>, m: seq<bool>, e: nat)
    requires Plan(m0, m) && e < |m| && Shortest(m, e)
    ensures var m' := Set(m, GapStart(m, e), e, true);
            Plan(m0, m') && Runs(m') + 1 == Runs(m) && Count(m') == Count(m) + GapLength(m, e)
  {
    var a := GapStart(m, e);
    var m' := Set(m, a, e, true);
    FillJoins(m, e, |m|);
    CountSet(m, a, e, true, |m|);
    forall r | Within(m0, r) && Runs(r) <= Runs(m') ensures Count(m') <= Count(r) {
      RivalIsDearer(m0, m, e, r);
    }
    forall i | 0 <= i < |m'| && StartsRun(m', i) ensures m0[i] {
      assert StartsRun(m, i);
    }
  }

  /** With more than one fetch there is a gap to fill. */
  lemma {:induction false} HasInnerGap(m: seq<bool>, n: nat)
    requires n <= |m| && RunsTo(m, n) >= 2
    ensures exists e :: 0 <= e < n && InnerGap(m, e)
  {
    if StartsRun(m, n - 1) && GapStart(m, n - 1) > 0 {
      assert InnerGap(m, n - 1);
    } else {
      if StartsRun(m, n - 1) { NoRunsBefore(m, n - 1); }
      HasInnerGap(m, n - 1);
    }
  }
}
