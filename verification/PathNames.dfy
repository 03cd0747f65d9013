/**
  Path arithmetic of src/PathCache.c: the parent of a path and the test for
  lying at or beneath a directory, on upcased names.
*/
module PathNames {
  import opened Options

  /** A path as the caches compare it: with its letters folded to one case. */
  type Key = seq<char>

  const SEP: char := '\\'

  /** The characters of `p` up to and including its last separator. */
  function ThroughLastSep(p: Key): (n: nat)
    ensures n <= |p|
    ensures n > 0 ==> p[n - 1] == SEP
    ensures forall i | n <= i < |p| :: p[i] != SEP
  {
    if |p| == 0 then 0
    else if p[|p| - 1] == SEP then |p|
    else ThroughLastSep(p[..|p| - 1])
  }

  /** PathCacheParent. */
  function Parent(p: Key): (r: Option<Key>) {
    var chars := ThroughLastSep(p);
    if chars == 0 || chars == |p| then None
    else Some(p[..if chars == 1 then 1 else chars - 1])
  }

  /** PathCacheIsUnder. */
  predicate IsUnder(dir: Key, p: Key) {
    && |dir| <= |p|
    && dir == p[..|dir|]
    && (|p| == |dir| || (|dir| > 0 && dir[|dir| - 1] == SEP) || p[|dir|] == SEP)
  }

  // ---- lying beneath is being reached by parents ----

  /** An absolute path with no empty component and no trailing separator, except the root itself. */
  predicate Absolute(p: Key) {
    && |p| > 0 && p[0] == SEP
    && (|p| > 1 ==> p[|p| - 1] != SEP)
    && (forall i | 0 < i < |p| :: !(p[i - 1] == SEP && p[i] == SEP))
  }

  /** `dir` is `p` or is reached from it by taking parents. */
  predicate AtOrAbove(dir: Key, p: Key)
    decreases |p|
  {
    dir == p || (Parent(p).Some? && |Parent(p).value| < |p| && AtOrAbove(dir, Parent(p).value))
  }

  lemma ParentOfAbsolute(p: Key)
    requires Absolute(p)
    ensures Parent(p).None? <==> |p| == 1
    ensures Parent(p).Some? ==> Absolute(Parent(p).value) && |Parent(p).value| < |p| && IsUnder(Parent(p).value, p)
  {
    var chars := ThroughLastSep(p);
    assert chars > 0;
  }

  lemma UnderParent(dir: Key, p: Key)
    requires Absolute(dir) && Absolute(p) && dir != p && IsUnder(dir, p)
    ensures Parent(p).Some? && IsUnder(dir, Parent(p).value)
  {
    ParentOfAbsolute(p);
    var q := Parent(p).value;
    assert |dir| > 1 ==> p[|dir|] == SEP;
    assert |dir| <= |q|;
    assert q[..|dir|] == dir;
  }

  lemma UnderTrans(a: Key, b: Key, c: Key)
    requires IsUnder(a, b) && IsUnder(b, c)
    ensures IsUnder(a, c)
  {
    assert a == c[..|a|];
  }

  /** Of any path, well formed or not, the test holds of every directory above it. */
  lemma {:induction false} AboveIsUnder(dir: Key, p: Key)
    requires AtOrAbove(dir, p)
    ensures IsUnder(dir, p)
    decreases |p|
  {
    if dir != p {
      AboveIsUnder(dir, Parent(p).value);
      UnderTrans(dir, Parent(p).value, p);
    }
  }

  /** The boundary-checked prefix test is exactly the chain of parents. */
  lemma {:induction false} UnderIsAncestry(dir: Key, p: Key)
    requires Absolute(dir) && Absolute(p)
    ensures IsUnder(dir, p) <==> AtOrAbove(dir, p)
    decreases |p|
  {
    ParentOfAbsolute(p);
    if Parent(p).Some? {
      var q := Parent(p).value;
      UnderIsAncestry(dir, q);
      if dir != p && IsUnder(dir, p) { UnderParent(dir, p); }
      if IsUnder(dir, q) { UnderTrans(dir, q, p); }
    }
  }

  // ---- folding case first changes nothing ----

  function Fold(up: char -> char, p: seq<char>): (r: Key)
    ensures |r| == |p|
  {
    seq(|p|, i requires 0 <= i < |p| => up(p[i]))
  }

  /** Upcasing neither makes nor unmakes a separator. */
  ghost predicate KeepsSeparators(up: char -> char) {
    forall c :: up(c) == SEP <==> c == SEP
  }

  /** The test as it runs on unfolded names: a folded prefix, then raw boundary characters. */
  predicate IsUnderRaw(up: char -> char, dir: seq<char>, p: seq<char>) {
    && |dir| <= |p|
    && Fold(up, dir) == Fold(up, p[..|dir|])
    && (|p| == |dir| || (|dir| > 0 && dir[|dir| - 1] == SEP) || p[|dir|] == SEP)
  }

  lemma UnderRespectsCase(up: char -> char, dir: seq<char>, p: seq<char>)
    requires KeepsSeparators(up)
    ensures IsUnderRaw(up, dir, p) <==> IsUnder(Fold(up, dir), Fold(up, p))
  {
    if |dir| <= |p| {
      assert Fold(up, p[..|dir|]) == Fold(up, p)[..|dir|];
    }
  }

  lemma {:induction false} LastSepRespectsCase(up: char -> char, p: seq<char>)
    requires KeepsSeparators(up)
    ensures ThroughLastSep(Fold(up, p)) == ThroughLastSep(p)
  {
    if |p| > 0 {
      LastSepRespectsCase(up, p[..|p| - 1]);
      assert Fold(up, p[..|p| - 1]) == Fold(up, p)[..|p| - 1];
    }
  }

  lemma ParentRespectsCase(up: char -> char, p: seq<char>)
    requires KeepsSeparators(up)
    ensures Parent(Fold(up, p)) == match Parent(p) case None => None case Some(d) => Some(Fold(up, d))
  {
    LastSepRespectsCase(up, p);
    var n := ThroughLastSep(p);
    var m := if n == 1 then 1 else n - 1;
    if 0 < n { assert Fold(up, p)[..m] == Fold(up, p[..m]); }
  }
}
