/**
  The name index of a directory listing, src/Client.c, and the seeding of
  the path cache from a listing, src/PathCache.c, which must both answer as
  a scan of the listing would: the first name equal but for case, files
  before subdirectories.
*/
module NameIndex {

  type Name = seq<char>

  const SEED_MAX: nat := 1024
  const MAX_PATH_CHARS: nat := 2048
  const MAX_NAME_LEN: nat := 260
  const GOLDEN: nat := 0x9E37_79B1
  const TWO32: nat := 0x1_0000_0000

  lemma {:induction false} ScaledBelow(mixed: nat, chains: nat)
    requires mixed < TWO32
    ensures mixed * chains <= TWO32 * chains - chains
  {
    if chains > 0 {
      ScaledBelow(mixed, chains - 1);
      assert mixed * chains == mixed * (chains - 1) + mixed;
    }
  }

  lemma Scaled(mixed: nat, chains: nat)
    requires mixed < TWO32 && chains > 0
    ensures mixed * chains / TWO32 < chains
  {
    ScaledBelow(mixed, chains);
    var product := mixed * chains;
    assert product < TWO32 * chains;
  }

  /** Chain numbers scale a mixed 32-bit hash to the number of chains. */
  function Chain(hash: nat, chains: nat): (c: nat)
    requires chains > 0
    ensures c < chains
  {
    Scaled(hash * GOLDEN % TWO32, chains);
    hash * GOLDEN % TWO32 * chains / TWO32
  }

  /** The first entry from `from` on whose name folds to `key`; |names| if there is none. */
  function FirstMatch(names: seq<Name>, fold: Name -> Name, key: Name, from: nat): (e: nat)
    requires from <= |names|
    ensures from <= e <= |names| && (e < |names| ==> fold(names[e]) == key)
    ensures forall i | from <= i < e :: fold(names[i]) != key
    decreases |names| - from
  {
    if from == |names| || fold(names[from]) == key then from else FirstMatch(names, fold, key, from + 1)
  }

  class Listing {
    const names: seq<Name>             // files, then subdirectories
    const fold: Name -> Name
    const chainOf: Name -> nat         // of a folded name
    const heads: array<nat>            // entries counted from one, zero ending a chain
    const links: array<nat>

    function ChainOf(e: nat): nat
      requires e < |names|
    {
      chainOf(fold(names[e]))
    }

    /** The first entry from `from` on in chain `c`, counted from one; zero if there is none. */
    ghost function NextIn(c: nat, from: nat): (r: nat)
      requires from <= |names|
      decreases |names| - from
    {
      if from == |names| then 0
      else if ChainOf(from) == c then from + 1
      else NextIn(c, from + 1)
    }

    lemma {:induction false} NextInGives(c: nat, from: nat)
      requires from <= |names|
      ensures NextIn(c, from) == 0 ==> forall i | from <= i < |names| :: ChainOf(i) != c
      ensures NextIn(c, from) != 0 ==> from < NextIn(c, from) <= |names| && ChainOf(NextIn(c, from) - 1) == c
      ensures NextIn(c, from) != 0 ==> forall i | from <= i < NextIn(c, from) - 1 :: ChainOf(i) != c
      decreases |names| - from
    {
      if from < |names| { NextInGives(c, from + 1); }
    }

    /** Entries from `e` on are chained in listing order. */
    ghost predicate IndexedFrom(e: nat)
      reads heads, links
    {
      && links.Length == |names| && heads != links && e <= |names| && (forall key :: chainOf(key) < heads.Length)
      && (forall c | 0 <= c < heads.Length :: heads[c] == NextIn(c, e))
      && (forall i {:trigger links[i]} | e <= i < |names| :: links[i] == NextIn(ChainOf(i), i + 1))
    }

    constructor (names: seq<Name>, fold: Name -> Name, hash: Name -> nat)
      ensures IndexedFrom(|names|) && this.names == names && this.fold == fold && fresh(heads) && fresh(links)
    {
      this.names, this.fold := names, fold;
      var chains: nat := 1;
      while chains < |names|
        invariant chains > 0
      {
        chains := chains * 2;
      }
      var n := chains;
      chainOf := (key: Name) => Chain(hash(key), n);
      heads := new nat[chains](_ => 0);
      links := new nat[|names|](_ => 0);
      new;
      assert forall key :: chainOf(key) == Chain(hash(key), n);
    }

    /** BlorgIndexDirectoryInfo. */
    method Index()
      requires IndexedFrom(|names|)
      modifies heads, links
      ensures IndexedFrom(0)
    {
      var entry: nat := |names|;
      while entry > 0
        invariant IndexedFrom(entry)
      {
        var c := ChainOf(entry - 1);
        links[entry - 1] := heads[c];
        heads[c] := entry;
        entry := entry - 1;
      }
    }

    /** BlorgFindDirectoryEntry: the first match in listing order, or none. */
    method Find(name: Name) returns (found: bool, entry: nat)
      requires IndexedFrom(0)
      ensures found <==> FirstMatch(names, fold, fold(name), 0) < |names|
      ensures found ==> entry == FirstMatch(names, fold, fold(name), 0)
    {
      var c := chainOf(fold(name));
      var next: nat := heads[c];
      ghost var from: nat := 0;
      while next != 0
        invariant from <= |names| && next == NextIn(c, from)
        invariant forall i | 0 <= i < from :: fold(names[i]) != fold(name)
        decreases |names| - from
      {
        NextInGives(c, from);
        forall i | from <= i < next - 1 ensures fold(names[i]) != fold(name) { assert ChainOf(i) != c; }
        if fold(names[next - 1]) == fold(name) {
          return true, next - 1;
        }
        from := next;
        next := links[next - 1];
      }
      NextInGives(c, from);
      forall i | from <= i < |names| ensures fold(names[i]) != fold(name) { assert ChainOf(i) != c; }
      return false, 0;
    }
  }

  /** A chain is strictly increasing in listing order. */
  lemma ChainsIncrease(l: Listing, i: nat)
    requires l.IndexedFrom(0) && i < |l.names|
    ensures l.links[i] == 0 || (i + 1 < l.links[i] <= |l.names| && l.ChainOf(l.links[i] - 1) == l.ChainOf(i))
  {
    l.NextInGives(l.ChainOf(i), i + 1);
  }

  // ---- seeding the path cache ----

  /** A name the seed can stand a path on: a component, and the path within the cache's limit. */
  predicate Seedable(name: Name, dirChars: nat) {
    0 < |name| < MAX_NAME_LEN && '\\' !in name && dirChars + |name| <= MAX_PATH_CHARS
  }

  /** Folding changes neither a name's length nor its separators. */
  ghost predicate Folding(fold: Name -> Name) {
    forall n :: |fold(n)| == |n| && ('\\' in fold(n) <==> '\\' in n)
  }

  /** What the cache holds for the directory's children: by folded name, the entry it was seeded from. */
  type Cache = map<Name, nat>

  /** Each cached entry is the first match for its name among entries `lo` and up to `hi`. */
  ghost predicate SeededFrom(cache: Cache, names: seq<Name>, fold: Name -> Name, lo: nat, hi: nat) {
    forall k | k in cache :: lo <= cache[k] < hi <= |names| && fold(names[cache[k]]) == k && forall i | lo <= i < cache[k] :: fold(names[i]) != k
  }

  /** Entry `i` is cached under its name, unless it could not be or was evicted when some entry of `[lo, i)` was seeded. */
  ghost predicate Kept(cache: Cache, names: seq<Name>, fold: Name -> Name, dirChars: nat, evicted: nat -> set<Name>, lo: nat, i: nat)
    requires i < |names|
  {
    Seedable(names[i], dirChars) ==> fold(names[i]) in cache || exists j :: lo <= j < i && fold(names[i]) in evicted(j)
  }

  ghost predicate AllKept(cache: Cache, names: seq<Name>, fold: Name -> Name, dirChars: nat, evicted: nat -> set<Name>, lo: nat, hi: nat) {
    hi <= |names| && forall i | lo <= i < hi :: Kept(cache, names, fold, dirChars, evicted, lo, i)
  }

  /** Entries `lo` and up to `hi` have been seeded. */
  ghost predicate Seeded(cache: Cache, names: seq<Name>, fold: Name -> Name, dirChars: nat, evicted: nat -> set<Name>, lo: nat, hi: nat) {
    && SeededFrom(cache, names, fold, lo, hi) && (forall k | k in cache :: Seedable(k, dirChars))
    && AllKept(cache, names, fold, dirChars, evicted, lo, hi)
  }

  /** PathCacheSeedEntry, with whatever else leaves the cache meanwhile. */
  method SeedEntry(cache: Cache, names: seq<Name>, fold: Name -> Name, e: nat, ghost hi: nat, dirChars: nat, evicted: nat -> set<Name>) returns (cache': Cache)
    requires e < hi <= |names| && Folding(fold) && Seeded(cache, names, fold, dirChars, evicted, e + 1, hi)
    ensures Seeded(cache', names, fold, dirChars, evicted, e, hi)
  {
    cache' := cache - evicted(e);
    if Seedable(names[e], dirChars) {
      cache' := cache'[fold(names[e]) := e];
    }
    assert forall k | k in cache' && cache'[k] != e :: Seedable(k, dirChars) && k != fold(names[e]);
    forall i | e <= i < hi ensures Kept(cache', names, fold, dirChars, evicted, e, i) {
      if i > e { assert Kept(cache, names, fold, dirChars, evicted, e + 1, i); }
    }
  }

  /**
    BlorgPathCacheSeedListing: the first SEED_MAX entries in listing order,
    subdirectories last first and then files last first. Whatever it leaves
    cached for a child is the entry the listing's own lookup would find; and
    each of those entries whose name can be cached is, unless evicted since.
  */
  method SeedListing(names: seq<Name>, fileCount: nat, fold: Name -> Name, dirChars: nat, evicted: nat -> set<Name>) returns (cache: Cache)
    requires fileCount <= |names| && Folding(fold)
    ensures forall k | k in cache :: cache[k] == FirstMatch(names, fold, k, 0) < |names|
    ensures AllKept(cache, names, fold, dirChars, evicted, 0, if |names| < SEED_MAX then |names| else SEED_MAX)
  {
    var files := if fileCount < SEED_MAX then fileCount else SEED_MAX;
    var subDirCount := |names| - fileCount;
    var subDirs := if subDirCount < SEED_MAX - files then subDirCount else SEED_MAX - files;
    ghost var hi := if subDirs > 0 then fileCount + subDirs else files;
    cache := map[];
    var i: nat := subDirs;
    while i > 0
      invariant i <= subDirs && if subDirs > 0 then Seeded(cache, names, fold, dirChars, evicted, fileCount + i, hi) else cache == map[]
    {
      i := i - 1;
      cache := SeedEntry(cache, names, fold, fileCount + i, hi, dirChars, evicted);
    }
    i := files;
    while i > 0
      invariant i <= files && Seeded(cache, names, fold, dirChars, evicted, i, hi)
    {
      i := i - 1;
      cache := SeedEntry(cache, names, fold, i, hi, dirChars, evicted);
    }
  }
}
