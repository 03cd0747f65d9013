/**
  How far apart two backlogged files can drift under the scheduler of
  src/Read.c: the exact condition on a file's tags under which the gap
  between its head and a rival's stays within one maximal fetch, and a run of
  the scheduler in which it does not.
*/
module FairOrder {
  import opened ReadFair

  /** The held reads of one file, in order. */
  function Of(q: seq<Irp>, file: nat): seq<Irp> {
    if q == [] then []
    else One(q[0], file) + Of(q[1..], file)
  }

  function One(x: Irp, file: nat): seq<Irp> {
    if x.file == file then [x] else []
  }

  predicate Backlogged(l: Link, file: nat) {
    Of(l.held, file) != []
  }

  function Head(l: Link, file: nat): nat
    requires Backlogged(l, file)
  {
    Of(l.held, file)[0].start
  }

  function Gap(a: nat, b: nat): nat {
    if a < b then b - a else a - b
  }

  /** The gap between the heads of two files; zero unless both are backlogged. */
  function GapOf(l: Link, f: nat, g: nat): nat {
    if Backlogged(l, f) && Backlogged(l, g) then Gap(Head(l, f), Head(l, g)) else 0
  }

  /** The tag the file's next arrival would be given. */
  function NextStart(l: Link, file: nat): nat {
    if FinishOf(l, file) > l.vt then FinishOf(l, file) else l.vt
  }

  /** Tags as the scheduler deals them: a file's reads follow one another, up to its finish tag. */
  ghost predicate Tidy(l: Link) {
    InOrder(l.held) && forall i | 0 <= i < |l.held| :: l.held[i].start + l.held[i].length <= FinishOf(l, l.held[i].file)
  }

  predicate HopOk(q: seq<Irp>, i: nat, most: nat) {
    i + 1 < |q| && q[i + 1].start <= q[i].start + most
  }

  /** No hop from one of the file's held tags to the next, its next arrival's included, is longer than `most`. */
  ghost predicate HopsOk(l: Link, file: nat, most: nat) {
    var q := Of(l.held, file);
    && q != [] && NextStart(l, file) <= q[|q| - 1].start + most
    && forall i | 0 <= i < |q| - 1 :: HopOk(q, i, most)
  }

  // ---- one file's reads ----

  lemma {:induction false} OfAppend(q: seq<Irp>, x: Irp, file: nat)
    ensures Of(q + [x], file) == Of(q, file) + One(x, file)
  {
    if q == [] {
      assert [x][1..] == [];
    } else {
      var a, rest, b := One(q[0], file), Of(q[1..], file), One(x, file);
      assert (q + [x])[0] == q[0] && (q + [x])[1..] == q[1..] + [x];
      OfAppend(q[1..], x, file);
      assert a + (rest + b) == (a + rest) + b;
    }
  }

  lemma {:induction false} OfMember(q: seq<Irp>, file: nat, i: nat) returns (j: nat)
    requires i < |Of(q, file)|
    ensures j < |q| && q[j] == Of(q, file)[i] && q[j].file == file
  {
    if q[0].file == file && i == 0 {
      j := 0;
    } else {
      var k := OfMember(q[1..], file, if q[0].file == file then i - 1 else i);
      j := k + 1;
    }
  }

  lemma ConsInOrder(x: Irp, q: seq<Irp>)
    requires InOrder(q) && forall i | 0 <= i < |q| :: x.start + x.length <= q[i].start
    ensures InOrder([x] + q)
  {
    var m := [x] + q;
    forall i, j | 0 <= i < j < |m| && m[i].file == m[j].file ensures m[i].start + m[i].length <= m[j].start {
      assert m[j] == q[j - 1];
      if i > 0 { assert m[i] == q[i - 1]; }
    }
  }

  lemma InOrderTail(q: seq<Irp>)
    requires InOrder(q) && q != []
    ensures InOrder(q[1..])
    ensures forall j | 0 <= j < |q| - 1 && q[1..][j].file == q[0].file :: q[0].start + q[0].length <= q[1..][j].start
  {
    assert forall i | 0 <= i < |q| - 1 :: q[1..][i] == q[i + 1];
  }

  lemma {:induction false} OfInOrder(q: seq<Irp>, file: nat)
    requires InOrder(q)
    ensures InOrder(Of(q, file)) && forall i | 0 <= i < |Of(q, file)| :: Of(q, file)[i].file == file
  {
    if q != [] {
      InOrderTail(q);
      OfInOrder(q[1..], file);
      if q[0].file == file {
        var o := Of(q[1..], file);
        forall i | 0 <= i < |o| ensures q[0].start + q[0].length <= o[i].start {
          var j := OfMember(q[1..], file, i);
        }
        ConsInOrder(q[0], o);
      }
    }
  }

  /** A file's tags rise. */
  lemma TagsRise(l: Link, f: nat, i: nat, j: nat)
    requires InOrder(l.held) && i <= j < |Of(l.held, f)|
    ensures Of(l.held, f)[i].start <= Of(l.held, f)[j].start
  {
    OfInOrder(l.held, f);
  }

  /** Taking out the first held read of its file takes out that file's head and nothing else. */
  lemma {:induction false} OfWithout(q: seq<Irp>, k: nat, file: nat)
    requires k < |q| && forall j | 0 <= j < k :: q[j].file != q[k].file
    ensures q[k].file == file ==> Of(q, file) == [q[k]] + Of(Without(q, k), file)
    ensures q[k].file != file ==> Of(q, file) == Of(Without(q, k), file)
  {
    if k == 0 {
      assert Without(q, 0) == q[1..];
    } else {
      OfWithout(q[1..], k - 1, file);
      var w := Without(q, k);
      assert w[0] == q[0] && w[1..] == Without(q[1..], k - 1);
    }
  }

  // ---- what arrivals and releases keep ----

  lemma ArriveTidy(l: Link, l': Link, irp: Irp)
    requires Tidy(l) && Arrives(l, l', irp)
    ensures Tidy(l')
  {
  }

  lemma ArriveHops(l: Link, l': Link, irp: Irp, f: nat, most: nat)
    requires Arrives(l, l', irp) && Backlogged(l, f) && irp.length <= most
    ensures Backlogged(l', f) && Head(l', f) == Head(l, f)
    ensures HopsOk(l, f, most) ==> HopsOk(l', f, most)
  {
    OfAppend(l.held, irp, f);
    var q, q' := Of(l.held, f), Of(l'.held, f);
    if HopsOk(l, f, most) {
      forall i | 0 <= i < |q'| - 1 ensures HopOk(q', i, most) { assert i < |q| - 1 ==> HopOk(q, i, most); }
    }
  }

  lemma ReleaseTidy(l: Link, l': Link, k: nat)
    requires Tidy(l) && Releases(l, l', k)
    ensures Tidy(l')
  {
    assert forall i | 0 <= i < |l'.held| :: l'.held[i] == l.held[if i < k then i else i + 1];
  }

  /** The read that goes out is its file's head, and no head is lower. */
  lemma ReleasedIsHead(l: Link, l': Link, k: nat, f: nat)
    requires InOrder(l.held) && Releases(l, l', k)
    ensures l.held[k].file == f ==> Of(l.held, f) == [l.held[k]] + Of(l'.held, f)
    ensures l.held[k].file != f ==> Of(l'.held, f) == Of(l.held, f)
    ensures Backlogged(l, f) ==> l.held[k].start <= Head(l, f)
  {
    forall j | 0 <= j < k ensures l.held[j].file != l.held[k].file {
      assert l.held[k].start < l.held[j].start;
    }
    OfWithout(l.held, k, f);
    if Backlogged(l, f) { var j := OfMember(l.held, f, 0); }
  }

  lemma ReleaseHops(l: Link, l': Link, k: nat, f: nat, most: nat)
    requires InOrder(l.held) && Releases(l, l', k) && HopsOk(l, f, most) && Backlogged(l', f)
    ensures HopsOk(l', f, most) && Head(l, f) <= Head(l', f) <= Head(l, f) + most
  {
    ReleasedIsHead(l, l', k, f);
    var q, q' := Of(l.held, f), Of(l'.held, f);
    TagsRise(l, f, 0, |q| - 1);
    if l.held[k].file == f {
      TagsRise(l, f, 0, 1);
      assert HopOk(q, 0, most);
      forall i | 0 <= i < |q'| - 1 ensures HopOk(q', i, most) { assert HopOk(q, i + 1, most); }
    }
  }

  /** One event of a stretch: a read is held, or the lowest goes out. */
  ghost predicate Event(l: Link, l': Link) {
    (exists irp :: Arrives(l, l', irp)) || (exists k: nat :: Releases(l, l', k))
  }

  /** Both files are backlogged, and no held read is longer than `most`. */
  ghost predicate Both(l: Link, f: nat, g: nat, most: nat) {
    Backlogged(l, f) && Backlogged(l, g) && forall j | 0 <= j < |l.held| :: l.held[j].length <= most
  }

  /** The file's head moves no further than `most`. */
  predicate Paced(l: Link, l': Link, g: nat, most: nat) {
    Backlogged(l, g) && Backlogged(l', g) && Head(l', g) <= Head(l, g) + most
  }

  lemma ArrivedLength(l: Link, l': Link, irp: Irp, f: nat, g: nat, most: nat)
    requires Arrives(l, l', irp) && Both(l', f, g, most)
    ensures irp.length <= most
  {
    assert l'.held[|l.held|] == irp;
  }

  lemma EventKeeps(l: Link, l': Link, f: nat, g: nat, most: nat)
    requires Tidy(l) && Event(l, l') && HopsOk(l, f, most) && Both(l, f, g, most) && Both(l', f, g, most)
    ensures Tidy(l') && HopsOk(l', f, most) && Paced(l, l', f, most)
  {
    if irp :| Arrives(l, l', irp) {
      ArrivedLength(l, l', irp, f, g, most);
      ArriveTidy(l, l', irp);
      ArriveHops(l, l', irp, f, most);
    } else {
      var k: nat :| Releases(l, l', k);
      ReleaseTidy(l, l', k);
      ReleaseHops(l, l', k, f, most);
    }
  }

  lemma EventGap(l: Link, l': Link, f: nat, g: nat, most: nat)
    requires Tidy(l) && Event(l, l') && HopsOk(l, f, most) && Both(l, f, g, most) && Both(l', f, g, most) && Paced(l, l', g, most)
    ensures GapOf(l', f, g) <= GapOf(l, f, g) || GapOf(l', f, g) <= most
  {
    if irp :| Arrives(l, l', irp) {
      ArrivedLength(l, l', irp, f, g, most);
      ArriveHops(l, l', irp, f, most);
      ArriveHops(l, l', irp, g, most);
    } else {
      var k: nat :| Releases(l, l', k);
      ReleaseHops(l, l', k, f, most);
      ReleasedIsHead(l, l', k, f);
      ReleasedIsHead(l, l', k, g);
      if l.held[k].file == g { TagsRise(l, g, 0, 1); }
    }
  }

  // ---- stretches ----

  /** Event `i` of a stretch, with both files backlogged around it and the rival's head moving no further than `most`. */
  ghost predicate StepOk(r: seq<Link>, i: nat, f: nat, g: nat, most: nat) {
    && i + 1 < |r| && Event(r[i], r[i + 1]) && Both(r[i], f, g, most) && Both(r[i + 1], f, g, most)
    && Paced(r[i], r[i + 1], g, most)
  }

  /** A stretch of held arrivals and lowest-tag releases over which both files stay backlogged. */
  ghost predicate Stretch(r: seq<Link>, f: nat, g: nat, most: nat) {
    |r| > 0 && Both(r[0], f, g, most) && forall i | 0 <= i < |r| - 1 :: StepOk(r, i, f, g, most)
  }

  /** Over the whole stretch the gap grew past both its starting value and one maximal fetch. */
  predicate Overtakes(r: seq<Link>, f: nat, g: nat, most: nat) {
    |r| > 0 && GapOf(r[|r| - 1], f, g) > GapOf(r[0], f, g) && GapOf(r[|r| - 1], f, g) > most
  }

  lemma {:induction false} GapStays(r: seq<Link>, f: nat, g: nat, most: nat, n: nat)
    requires Stretch(r, f, g, most) && Tidy(r[0]) && HopsOk(r[0], f, most) && n < |r|
    ensures Tidy(r[n]) && HopsOk(r[n], f, most)
    ensures GapOf(r[n], f, g) <= GapOf(r[0], f, g) || GapOf(r[n], f, g) <= most
  {
    if n > 0 {
      GapStays(r, f, g, most, n - 1);
      assert StepOk(r, n - 1, f, g, most);
      StepGap(r[n - 1], r[n], f, g, most);
    }
  }

  lemma StepGap(l: Link, l': Link, f: nat, g: nat, most: nat)
    requires Tidy(l) && Event(l, l') && HopsOk(l, f, most) && Both(l, f, g, most) && Both(l', f, g, most) && Paced(l, l', g, most)
    ensures Tidy(l') && HopsOk(l', f, most) && (GapOf(l', f, g) <= GapOf(l, f, g) || GapOf(l', f, g) <= most)
  {
    EventKeeps(l, l', f, g, most);
    EventGap(l, l', f, g, most);
  }

  /** The same of two files that both keep their hops: neither needs the other's pace promised. */
  lemma {:induction false} GapBounded(r: seq<Link>, f: nat, g: nat, most: nat, n: nat)
    requires n < |r| && Tidy(r[0]) && HopsOk(r[0], f, most) && HopsOk(r[0], g, most)
    requires forall i | 0 <= i < |r| :: Both(r[i], f, g, most)
    requires forall i | 0 <= i < |r| - 1 :: EventAt(r, i)
    ensures Tidy(r[n]) && HopsOk(r[n], f, most) && HopsOk(r[n], g, most)
    ensures GapOf(r[n], f, g) <= GapOf(r[0], f, g) || GapOf(r[n], f, g) <= most
  {
    if n > 0 {
      GapBounded(r, f, g, most, n - 1);
      assert EventAt(r, n - 1) && Both(r[n - 1], f, g, most) && Both(r[n], f, g, most);
      EventKeeps(r[n - 1], r[n], f, g, most);
      EventKeeps(r[n - 1], r[n], g, f, most);
      EventGap(r[n - 1], r[n], f, g, most);
    }
  }

  ghost predicate EventAt(r: seq<Link>, i: nat) {
    i + 1 < |r| && Event(r[i], r[i + 1])
  }

  /** File `f` stands in `m` as it does in `l`: the same held reads, finish tag and virtual time. */
  ghost predicate Stands(l: Link, m: Link, f: nat) {
    Of(m.held, f) == Of(l.held, f) && m.vt == l.vt && FinishOf(m, f) == FinishOf(l, f)
  }

  /** Whatever else is held, over no stretch does the gap to a paced rival outgrow its start and one maximal fetch. */
  ghost predicate NeverOvertaken(l: Link, f: nat, most: nat) {
    forall r: seq<Link>, g: nat | Stretch(r, f, g, most) && Stands(l, r[0], f) && Tidy(r[0]) :: !Overtakes(r, f, g, most)
  }

  // ---- a hop too long can be exploited ----

  /** A read of rival `g` with the tag and the length of `x`. */
  function Shadow(x: Irp, g: nat): Irp {
    Irp(x.id, g, x.length, x.start)
  }

  /** The file's first `n` reads each followed by a rival's at the same tag, then the rest of the file's. */
  function Shadowed(q: seq<Irp>, n: nat, g: nat): seq<Irp>
    requires n <= |q|
  {
    if n == 0 then q else [q[0], Shadow(q[0], g)] + Shadowed(q[1..], n - 1, g)
  }

  /** Reads of one file, one after another. */
  ghost predicate OneFile(q: seq<Irp>, f: nat) {
    InOrder(q) && forall i | 0 <= i < |q| :: q[i].file == f
  }

  lemma OneFileTail(q: seq<Irp>, f: nat)
    requires OneFile(q, f) && q != []
    ensures OneFile(q[1..], f) && forall i | 0 <= i < |q| :: q[0].start <= q[i].start
  {
    assert forall i | 0 <= i < |q| - 1 :: q[1..][i] == q[i + 1];
  }

  lemma {:induction false} OfOneFile(q: seq<Irp>, f: nat, g: nat)
    requires OneFile(q, f) && f != g
    ensures Of(q, f) == q && Of(q, g) == []
  {
    if q != [] {
      OneFileTail(q, f);
      OfOneFile(q[1..], f, g);
    }
  }

  lemma {:induction false} ShadowedOf(q: seq<Irp>, n: nat, f: nat, g: nat)
    requires OneFile(q, f) && f != g && n <= |q|
    ensures Of(Shadowed(q, n, g), f) == q
    ensures n > 0 ==> |Of(Shadowed(q, n, g), g)| > 0 && Of(Shadowed(q, n, g), g)[0] == Shadow(q[0], g)
  {
    if n == 0 {
      OfOneFile(q, f, g);
    } else {
      OneFileTail(q, f);
      ShadowedOf(q[1..], n - 1, f, g);
      var m, rest := Shadowed(q, n, g), Shadowed(q[1..], n - 1, g);
      assert m[0] == q[0] && m[1..] == [Shadow(q[0], g)] + rest && m[1..][1..] == rest;
    }
  }

  /** A read of either file that starts no sooner than `from` and ends by `end`. */
  predicate Plausible(x: Irp, f: nat, g: nat, from: nat, end: nat, most: nat) {
    from <= x.start && x.start + x.length <= end && x.length <= most && (x.file == f || x.file == g)
  }

  ghost predicate AllPlausible(q: seq<Irp>, f: nat, g: nat, from: nat, end: nat, most: nat) {
    forall i | 0 <= i < |q| :: Plausible(q[i], f, g, from, end, most)
  }

  lemma {:induction false} ShadowedTidy(q: seq<Irp>, n: nat, f: nat, g: nat, from: nat, end: nat, most: nat)
    requires OneFile(q, f) && f != g && n <= |q| && AllPlausible(q, f, g, from, end, most)
    ensures InOrder(Shadowed(q, n, g)) && AllPlausible(Shadowed(q, n, g), f, g, from, end, most)
  {
    if n > 0 {
      OneFileTail(q, f);
      var t, x, s := q[1..], q[0], Shadow(q[0], g);
      assert forall i | 0 <= i < |t| :: t[i] == q[i + 1];
      forall i | 0 <= i < |t| ensures Plausible(t[i], f, g, x.start + x.length, end, most) {
        assert Plausible(q[i + 1], f, g, from, end, most);
      }
      ShadowedTidy(t, n - 1, f, g, x.start + x.length, end, most);
      assert Plausible(x, f, g, from, end, most);
      TwoFirst(x, s, Shadowed(t, n - 1, g), f, g, from, end, most);
    }
  }

  lemma TwoFirst(x: Irp, s: Irp, rest: seq<Irp>, f: nat, g: nat, from: nat, end: nat, most: nat)
    requires f != g && x.file == f && s.file == g && s.length == x.length && s.start == x.start && Plausible(x, f, g, from, end, most)
    requires InOrder(rest) && AllPlausible(rest, f, g, x.start + x.length, end, most)
    ensures InOrder([x, s] + rest) && AllPlausible([x, s] + rest, f, g, from, end, most)
  {
    var m := [x, s] + rest;
    forall i | 0 <= i < |m| ensures Plausible(m[i], f, g, from, end, most) {
      if i >= 2 { assert m[i] == rest[i - 2] && Plausible(rest[i - 2], f, g, x.start + x.length, end, most); }
    }
    forall i, j | 0 <= i < j < |m| && m[i].file == m[j].file ensures m[i].start + m[i].length <= m[j].start {
      if i >= 2 { assert m[i] == rest[i - 2] && m[j] == rest[j - 2]; }
      if i < 2 && j >= 2 { assert m[j] == rest[j - 2] && Plausible(rest[j - 2], f, g, x.start + x.length, end, most); }
    }
  }

  ghost predicate NoEarlier(q: seq<Irp>, from: nat) {
    forall i | 0 <= i < |q| :: from <= q[i].start
  }

  lemma FirstGoes(l: Link, rest: seq<Irp>, x: Irp)
    requires l.held == [x] + rest && NoEarlier(rest, x.start)
    ensures Releases(l, Link(rest, if x.start > l.vt then x.start else l.vt, l.finish), 0)
  {
    assert Without(l.held, 0) == rest;
  }

  ghost predicate NoLonger(q: seq<Irp>, most: nat) {
    forall i | 0 <= i < |q| :: q[i].length <= most
  }

  /** A file's reads start no sooner than its head and end no later than its last. */
  lemma OneFilePlausible(q: seq<Irp>, f: nat, g: nat, most: nat)
    requires OneFile(q, f) && q != [] && NoLonger(q, most)
    ensures AllPlausible(q, f, g, q[0].start, q[|q| - 1].start + q[|q| - 1].length, most)
  {
    OneFileTail(q, f);
  }

  lemma ShadowedBoth(q: seq<Irp>, n: nat, f: nat, g: nat, vt: nat, finish: map<nat, nat>, most: nat)
    requires OneFile(q, f) && f != g && 1 <= n <= |q| && NoLonger(q, most)
    ensures var l := Link(Shadowed(q, n, g), vt, finish); Both(l, f, g, most) && Head(l, f) == Head(l, g) == q[0].start
  {
    ShadowedOf(q, n, f, g);
    OneFilePlausible(q, f, g, most);
    ShadowedTidy(q, n, f, g, q[0].start, q[|q| - 1].start + q[|q| - 1].length, most);
    var m := Shadowed(q, n, g);
    forall j | 0 <= j < |m| ensures m[j].length <= most {
      assert Plausible(m[j], f, g, q[0].start, q[|q| - 1].start + q[|q| - 1].length, most);
    }
  }

  /** What is left once the file's head has gone, its shadow still there. */
  lemma ShadowLeft(q: seq<Irp>, n: nat, f: nat, g: nat, vt: nat, finish: map<nat, nat>, most: nat)
    requires OneFile(q, f) && f != g && 1 <= n <= |q| && |q| > 1 && NoLonger(q, most)
    ensures var l := Link([Shadow(q[0], g)] + Shadowed(q[1..], n - 1, g), vt, finish);
            Both(l, f, g, most) && Head(l, f) == q[1].start && Head(l, g) == q[0].start
    ensures NoEarlier(Shadowed(q[1..], n - 1, g), q[0].start)
  {
    var t := q[1..];
    OneFileTail(q, f);
    assert forall i | 0 <= i < |t| :: t[i] == q[i + 1];
    ShadowedOf(t, n - 1, f, g);
    OneFilePlausible(t, f, g, most);
    var end := t[|t| - 1].start + t[|t| - 1].length;
    ShadowedTidy(t, n - 1, f, g, t[0].start, end, most);
    var rest := Shadowed(t, n - 1, g);
    forall i | 0 <= i < |rest| ensures q[0].start <= rest[i].start && rest[i].length <= most {
      assert Plausible(rest[i], f, g, t[0].start, end, most);
    }
    var h := [Shadow(q[0], g)] + rest;
    assert h[1..] == rest;
    forall j | 0 <= j < |h| ensures h[j].length <= most { assert j > 0 ==> h[j] == rest[j - 1]; }
  }

  /** The file's head goes first, and its shadow is left at the same tag. */
  lemma HeadGoes(q: seq<Irp>, n: nat, f: nat, g: nat, vt: nat, finish: map<nat, nat>, most: nat) returns (l: Link, l': Link)
    requires OneFile(q, f) && f != g && 1 <= n <= |q| && |q| > 1 && NoLonger(q, most)
    ensures l == Link(Shadowed(q, n, g), vt, finish)
    ensures l' == Link([Shadow(q[0], g)] + Shadowed(q[1..], n - 1, g), if q[0].start > vt then q[0].start else vt, finish)
    ensures Event(l, l') && Both(l, f, g, most) && Both(l', f, g, most)
    ensures Head(l, f) == Head(l, g) == Head(l', g) == q[0].start && Head(l', f) == q[1].start
  {
    var s, tail := Shadow(q[0], g), Shadowed(q[1..], n - 1, g);
    l := Link(Shadowed(q, n, g), vt, finish);
    l' := Link([s] + tail, if q[0].start > vt then q[0].start else vt, finish);
    ShadowedBoth(q, n, f, g, vt, finish, most);
    ShadowLeft(q, n, f, g, l'.vt, finish, most);
    assert l.held == [q[0]] + l'.held;
    forall i | 0 <= i < |l'.held| ensures q[0].start <= l'.held[i].start { assert i > 0 ==> l'.held[i] == tail[i - 1]; }
    FirstGoes(l, l'.held, q[0]);
  }

  /** Then the shadow goes, and the rest stands as before. */
  lemma ShadowGoes(q: seq<Irp>, n: nat, f: nat, g: nat, vt: nat, finish: map<nat, nat>, most: nat)
    requires OneFile(q, f) && f != g && 2 <= n <= |q| && NoLonger(q, most) && q[0].start <= vt && HopOk(q, 0, most)
    ensures var l, l' := Link([Shadow(q[0], g)] + Shadowed(q[1..], n - 1, g), vt, finish), Link(Shadowed(q[1..], n - 1, g), vt, finish);
            Event(l, l') && Paced(l, l', g, most)
  {
    var t := q[1..];
    var l, l' := Link([Shadow(q[0], g)] + Shadowed(t, n - 1, g), vt, finish), Link(Shadowed(t, n - 1, g), vt, finish);
    OneFileTail(q, f);
    assert forall i | 0 <= i < |t| :: t[i] == q[i + 1];
    ShadowLeft(q, n, f, g, vt, finish, most);
    ShadowedBoth(t, n - 1, f, g, vt, finish, most);
    FirstGoes(l, l'.held, Shadow(q[0], g));
  }

  lemma Prepend(l: Link, r: seq<Link>, f: nat, g: nat, most: nat)
    requires Stretch(r, f, g, most) && Event(l, r[0]) && Both(l, f, g, most) && Paced(l, r[0], g, most)
    ensures Stretch([l] + r, f, g, most) && ([l] + r)[|r|] == r[|r| - 1]
  {
    var s := [l] + r;
    forall i | 0 <= i < |s| - 1 ensures StepOk(s, i, f, g, most) {
      if i > 0 {
        assert StepOk(r, i - 1, f, g, most);
        assert s[i] == r[i - 1] && s[i + 1] == r[i];
      } else {
        assert s[1] == r[0];
      }
    }
  }

  /** A file whose hop `i` is the first too long, shadowed by a rival up to there, leaves it behind by that hop. */
  lemma {:induction false} ShadowRun(q: seq<Irp>, i: nat, f: nat, g: nat, vt: nat, finish: map<nat, nat>, most: nat) returns (r: seq<Link>)
    requires OneFile(q, f) && f != g && i + 1 < |q| && NoLonger(q, most)
    requires (forall j | 0 <= j < i :: HopOk(q, j, most)) && !HopOk(q, i, most)
    ensures Stretch(r, f, g, most) && r[0] == Link(Shadowed(q, i + 1, g), vt, finish)
    ensures GapOf(r[0], f, g) == 0 && GapOf(r[|r| - 1], f, g) > most
    decreases i
  {
    var l, l1 := HeadGoes(q, i + 1, f, g, vt, finish, most);
    if i == 0 {
      Prepend(l, [l1], f, g, most);
      r := [l] + [l1];
    } else {
      TailHops(q, i, f, most);
      var r2 := ShadowRun(q[1..], i - 1, f, g, l1.vt, finish, most);
      ShadowGoes(q, i + 1, f, g, l1.vt, finish, most);
      r := TwoMore(l, l1, r2, f, g, most);
    }
  }

  lemma TailHops(q: seq<Irp>, i: nat, f: nat, most: nat)
    requires OneFile(q, f) && 0 < i && i + 1 < |q| && NoLonger(q, most) && (forall j | 0 <= j < i :: HopOk(q, j, most)) && !HopOk(q, i, most)
    ensures HopOk(q, 0, most) && OneFile(q[1..], f) && NoLonger(q[1..], most)
    ensures (forall j | 0 <= j < i - 1 :: HopOk(q[1..], j, most)) && !HopOk(q[1..], i - 1, most)
  {
    var t := q[1..];
    OneFileTail(q, f);
    assert forall j | 0 <= j < |t| :: t[j] == q[j + 1];
    forall j | 0 <= j < i - 1 ensures HopOk(t, j, most) { assert HopOk(q, j + 1, most); }
  }

  lemma TwoMore(l: Link, l1: Link, r2: seq<Link>, f: nat, g: nat, most: nat) returns (r: seq<Link>)
    requires Stretch(r2, f, g, most) && Event(l, l1) && Event(l1, r2[0]) && Both(l, f, g, most) && Both(l1, f, g, most)
    requires Paced(l, l1, g, most) && Paced(l1, r2[0], g, most)
    ensures Stretch(r, f, g, most) && r[0] == l && r[|r| - 1] == r2[|r2| - 1]
  {
    Prepend(l1, r2, f, g, most);
    var r1 := [l1] + r2;
    Prepend(l, r1, f, g, most);
    r := [l] + r1;
  }

  lemma {:induction false} ShadowedAppend(q: seq<Irp>, x: Irp, g: nat)
    ensures Shadowed(q + [x], |q|, g) == Shadowed(q, |q|, g) + [x]
  {
    if q != [] {
      assert (q + [x])[0] == q[0] && (q + [x])[1..] == q[1..] + [x];
      ShadowedAppend(q[1..], x, g);
    }
  }

  /** The link of the file's own reads as they stand, shadowed up to `n` by a rival. */
  lemma ShadowStands(l: Link, f: nat, g: nat, n: nat) returns (m: Link)
    requires Tidy(l) && Backlogged(l, f) && f != g && n <= |Of(l.held, f)|
    ensures Stands(l, m, f) && Tidy(m) && OneFile(Of(l.held, f), f)
    ensures m.held == Shadowed(Of(l.held, f), n, g) && m.vt == l.vt
  {
    var q := Of(l.held, f);
    OfInOrder(l.held, f);
    var end := FinishOf(l, f);
    forall i | 0 <= i < |q| ensures Plausible(q[i], f, g, 0, end, end) {
      var j := OfMember(l.held, f, i);
    }
    ShadowedOf(q, n, f, g);
    ShadowedTidy(q, n, f, g, 0, end, end);
    m := Link(Shadowed(q, n, g), l.vt, l.finish[g := end]);
    forall k | 0 <= k < |m.held| ensures m.held[k].start + m.held[k].length <= FinishOf(m, m.held[k].file) {
      assert Plausible(m.held[k], f, g, 0, end, end);
    }
  }

  /**
    The exact condition. For a file as it stands, whatever else is held and
    whatever arrives and goes out lowest tag first: the gap to every rival
    that moves at most `most` at a time stays within its start and `most`,
    if and only if none of the file's own hops is longer than `most`.
  */
  lemma GapBoundExact(l: Link, f: nat, most: nat)
    requires Tidy(l) && Backlogged(l, f) && NoLonger(Of(l.held, f), most)
    ensures HopsOk(l, f, most) <==> NeverOvertaken(l, f, most)
  {
    if HopsOk(l, f, most) {
      forall r: seq<Link>, g: nat | Stretch(r, f, g, most) && Stands(l, r[0], f) && Tidy(r[0]) ensures !Overtakes(r, f, g, most) {
        GapStays(r, f, g, most, |r| - 1);
      }
    } else {
      var r, g := LongHopOvertakes(l, f, most);
      assert Overtakes(r, f, g, most);
    }
  }

  lemma {:induction false} FirstLongHop(q: seq<Irp>, most: nat, k: nat) returns (i: nat)
    requires k + 1 < |q| && !HopOk(q, k, most)
    ensures i + 1 < |q| && !HopOk(q, i, most) && forall j | 0 <= j < i :: HopOk(q, j, most)
  {
    if j :| 0 <= j < k && !HopOk(q, j, most) {
      i := FirstLongHop(q, most, j);
    } else {
      i := k;
    }
  }

  lemma LongHopOvertakes(l: Link, f: nat, most: nat) returns (r: seq<Link>, g: nat)
    requires Tidy(l) && Backlogged(l, f) && NoLonger(Of(l.held, f), most) && !HopsOk(l, f, most)
    ensures Stretch(r, f, g, most) && Stands(l, r[0], f) && Tidy(r[0]) && Overtakes(r, f, g, most)
  {
    g := f + 1;
    var q := Of(l.held, f);
    if k :| 0 <= k < |q| - 1 && !HopOk(q, k, most) {
      var i := FirstLongHop(q, most, k);
      var m := ShadowStands(l, f, g, i + 1);
      r := ShadowRun(q, i, f, g, m.vt, m.finish, most);
      assert r[0] == m;
    } else {
      r := NextHopOvertakes(l, f, g, most);
    }
  }

  /** A long hop still to come is made by an arrival. */
  lemma NextHopOvertakes(l: Link, f: nat, g: nat, most: nat) returns (r: seq<Link>)
    requires Tidy(l) && Backlogged(l, f) && NoLonger(Of(l.held, f), most) && f != g
    requires var q := Of(l.held, f); (forall j | 0 <= j < |q| - 1 :: HopOk(q, j, most)) && NextStart(l, f) > q[|q| - 1].start + most
    ensures Stretch(r, f, g, most) && Stands(l, r[0], f) && Tidy(r[0]) && Overtakes(r, f, g, most)
  {
    var q := Of(l.held, f);
    var m := ShadowStands(l, f, g, |q|);
    var x := Irp(0, f, most, NextStart(l, f));
    NextInOrder(l, f, x);
    NextHops(q, x, most);
    var r2 := ShadowRun(q + [x], |q| - 1, f, g, m.vt, m.finish[f := x.start + most], most);
    NextArrival(m, r2[0], q, x, f, g, most);
    Prepend(m, r2, f, g, most);
    r := [m] + r2;
  }

  lemma NextHops(q: seq<Irp>, x: Irp, most: nat)
    requires q != [] && (forall j | 0 <= j < |q| - 1 :: HopOk(q, j, most)) && x.start > q[|q| - 1].start + most && NoLonger(q, most) && x.length == most
    ensures (forall j | 0 <= j < |q| - 1 :: HopOk(q + [x], j, most)) && !HopOk(q + [x], |q| - 1, most) && NoLonger(q + [x], most)
  {
    forall j | 0 <= j < |q| - 1 ensures HopOk(q + [x], j, most) { assert HopOk(q, j, most); }
  }

  lemma NextArrival(m: Link, m': Link, q: seq<Irp>, x: Irp, f: nat, g: nat, most: nat)
    requires OneFile(q, f) && OneFile(q + [x], f) && q != [] && f != g && NoLonger(q, most) && NoLonger(q + [x], most)
    requires x.file == f && x.length == most && x.start == NextStart(m, f) && m.held == Shadowed(q, |q|, g)
    requires m' == Link(Shadowed(q + [x], |q|, g), m.vt, m.finish[f := x.start + most])
    ensures Event(m, m') && Both(m, f, g, most) && Paced(m, m', g, most) && GapOf(m, f, g) == 0
  {
    ShadowedAppend(q, x, g);
    assert Arrives(m, m', x);
    ShadowedBoth(q, |q|, f, g, m.vt, m.finish, most);
    ShadowedBoth(q + [x], |q|, f, g, m'.vt, m'.finish, most);
  }

  lemma NextInOrder(l: Link, f: nat, x: Irp)
    requires Tidy(l) && x.file == f && x.start >= FinishOf(l, f)
    ensures OneFile(Of(l.held, f) + [x], f)
  {
    var q := Of(l.held, f);
    OfInOrder(l.held, f);
    forall i | 0 <= i < |q| ensures q[i].start + q[i].length <= x.start {
      var j := OfMember(l.held, f, i);
    }
  }

  // ---- where it fails in the scheduler itself ----

  /** Files 1 and 2 each have one fetch in flight and one read held at the same tag, past a budget of ten bytes. */
  method TwoBacklogged() returns (f: Fair)
    ensures fresh(f) && f.Valid() && f.budget == 10 && f.virtualTime == 0 && f.waiting == []
    ensures f.admitted == [Irp(0, 1, 10, 0), Irp(1, 2, 10, 0)] && f.held == [Irp(2, 1, 10, 10), Irp(3, 2, 10, 10)]
    ensures f.Finish(1) == 20 && f.Finish(2) == 20 && f.Finish(3) == 0 && f.partly == []
  {
    f := TwoInFlight();
    PairCounts(f.admitted[0], f.admitted[1]);
    var irp, admitted := f.AdmitOrHold(2, 1, 10, true);
    irp, admitted := f.AdmitOrHold(3, 2, 10, true);
  }

  method TwoInFlight() returns (f: Fair)
    ensures fresh(f) && f.Valid() && f.budget == 10 && f.virtualTime == 0 && f.waiting == f.held == [] && f.partly == []
    ensures f.admitted == [Irp(0, 1, 10, 0), Irp(1, 2, 10, 0)] && f.Finish(1) == 10 && f.Finish(2) == 10 && f.Finish(3) == 0
  {
    f := new Fair(10);
    var ok := f.AdmitNow(0, 1, 10, true);
    assert f.admitted == [Irp(0, 1, 10, 0)];
    SumsOne(f.admitted[0], 2);
    ok := f.AdmitNow(1, 2, 10, true);
    assert f.admitted == [Irp(0, 1, 10, 0), Irp(1, 2, 10, 0)];
  }

  lemma PairCounts(a: Irp, b: Irp)
    ensures Bytes([a, b]) == a.length + b.length
    ensures forall file :: CountOf([a, b], file) == (if a.file == file then 1 else 0) + (if b.file == file then 1 else 0)
  {
    assert [a] + [b] == [a, b];
    forall file ensures CountOf([a, b], file) == (if a.file == file then 1 else 0) + (if b.file == file then 1 else 0) {
      SumsOne(a, file);
      SumsAdd([a], b, file);
    }
    SumsOne(a, 0);
    SumsAdd([a], b, 0);
  }

  /** Demand of a third file, which no budget holds, carries virtual time past both files' finish tags. */
  method DemandPasses(jump: nat) returns (f: Fair)
    requires jump > 20
    ensures fresh(f) && f.Valid() && f.budget == 10 && f.virtualTime == jump && f.waiting == [] && f.partly == []
    ensures f.admitted == [Irp(0, 1, 10, 0), Irp(1, 2, 10, 0), Irp(4, 3, jump, 0), Irp(5, 3, jump, jump)]
    ensures f.held == [Irp(2, 1, 10, 10), Irp(3, 2, 10, 10)] && f.Finish(1) == 20 && f.Finish(2) == 20
  {
    f := TwoBacklogged();
    var ok := f.AdmitNow(4, 3, jump, false);
    ok := f.AdmitNow(5, 3, jump, false);
  }

  /**
    The settlement of a file's only fetch, release by release, past the
    budget: the file's held head `a` goes out, exempt, and then nothing may.
  */
  method SettleOnly(f: Fair, ghost a: Irp, ghost b: Irp, ghost c: Irp)
    requires f.Valid() && f.waiting == [] && f.held == [a, b, c] && a.file == c.file != b.file && a.start < c.start
    requires f.admitted != [] && CountOf(Without(f.admitted, 0), a.file) == 0 && CountOf(Without(f.admitted, 0), b.file) > 0
    requires f.budget + f.admitted[0].length <= f.inFlightBytes && a.start <= f.virtualTime
    modifies f
    ensures f.Valid() && f.held == [b, c] && f.virtualTime == old(f.virtualTime) && f.finishTag == old(f.finishTag)
  {
    ghost var rest := Without(f.admitted, 0);
    f.Uncharge(0);
    var irp, ok, k := ReleaseExempt(f, a, b, c);
    NoneMore(f, rest, a, b, c);
    var released := f.AdmitHeld();
  }

  /** Past the budget, of three held reads only those of a file with nothing in flight may go, the lowest first. */
  lemma OnlyFirst(f: Fair, a: Irp, b: Irp, c: Irp)
    requires f.held == [a, b, c] && a.file == c.file && a.start < c.start && f.InFlight(a.file) == 0 && f.InFlight(b.file) > 0
    ensures forall k: nat :: f.Lowest(false, k) ==> k == 0
    ensures f.held[0] == a
  {
    assert f.Eligible(false, f.held[0]) && !f.Eligible(false, f.held[1]);
  }

  method ReleaseExempt(f: Fair, ghost a: Irp, ghost b: Irp, ghost c: Irp) returns (irp: Irp, ok: bool, ghost k: nat)
    requires f.Counted() && f.inFlightFetches < MAX_FETCHES && f.waiting == [] && f.held == [a, b, c] && a.start < c.start
    requires f.budget <= f.inFlightBytes && a.file == c.file && f.InFlight(a.file) == 0 && f.InFlight(b.file) > 0 && a.start <= f.virtualTime
    modifies f
    ensures f.Counted() && f.waiting == [] && f.held == [b, c] && f.admitted == old(f.admitted) + [a] && f.virtualTime == old(f.virtualTime)
    ensures f.finishTag == old(f.finishTag) && f.charged == old(f.charged) && f.partly == old(f.partly)
  {
    ghost var q := f.held;
    OnlyFirst(f, a, b, c);
    irp, ok, k := f.ReleaseOne();
    assert q[0] == a && ok && k == 0;
    assert Without(q, 0) == [b, c];
  }

  /** With one fetch of each held read's file in flight, and the link past its budget, nothing more may go. */
  lemma NoneMore(f: Fair, rest: seq<Irp>, a: Irp, b: Irp, c: Irp)
    requires f.Counted() && f.waiting == [] && f.held == [b, c] && f.admitted == rest + [a] && a.file == c.file
    requires CountOf(rest, b.file) > 0 && f.budget <= Bytes(rest)
    ensures f.NoneEligible()
  {
    SumsAdd(rest, a, a.file);
    SumsAdd(rest, a, b.file);
    assert f.InFlight(a.file) > 0 && f.InFlight(b.file) > 0;
  }

  function IsOf(x: Irp, file: nat): nat {
    if x.file == file then 1 else 0
  }

  lemma TripleCounts(a: Irp, b: Irp, c: Irp)
    ensures Bytes([a, b, c]) == a.length + b.length + c.length
    ensures forall file :: CountOf([a, b, c], file) == IsOf(a, file) + IsOf(b, file) + IsOf(c, file)
  {
    PairCounts(a, b);
    assert [a, b] + [c] == [a, b, c];
    forall file ensures CountOf([a, b, c], file) == IsOf(a, file) + IsOf(b, file) + IsOf(c, file) { SumsAdd([a, b], c, file); }
    SumsAdd([a, b], c, 0);
  }

  /** Past the budget with a fetch in flight, file 1 must hold. */
  lemma BothCounts(f: Fair, jump: nat)
    requires f.Valid() && f.budget == 10 && jump > 20
    requires f.admitted == [Irp(0, 1, 10, 0), Irp(1, 2, 10, 0), Irp(4, 3, jump, 0), Irp(5, 3, jump, jump)]
    ensures f.MustHold(1, true)
  {
    CountWithin(f.admitted, 0);
    BytesAtLeast(f.admitted, 2);
  }

  lemma OfTwo(a: Irp, b: Irp, file: nat)
    ensures Of([a, b], file) == One(a, file) + One(b, file)
  {
    assert [] + [a] == [a] && [a] + [b] == [a, b];
    OfAppend([], a, file);
    OfAppend([a], b, file);
  }

  /** Two reads of different files, both backlogged. */
  lemma PairBoth(a: Irp, b: Irp, vt: nat, finish: map<nat, nat>, most: nat)
    requires a.file != b.file && a.length <= most && b.length <= most
    ensures var l := Link([a, b], vt, finish);
            && Of(l.held, a.file) == [a] && Of(l.held, b.file) == [b]
            && Both(l, a.file, b.file, most) && Both(l, b.file, a.file, most)
  {
    OfTwo(a, b, a.file);
    OfTwo(a, b, b.file);
  }

  lemma WidenedGap(before: Link, arrived: Link, after: Link, a: Irp, b: Irp, c: Irp, most: nat)
    requires before.held == [a, b] && a.file == c.file != b.file && a.start == b.start && a.length <= most && b.length <= most && c.length <= most
    requires c.start > a.start + most && Arrives(before, arrived, c) && c.start == before.vt
    requires after == Link([b, c], before.vt, arrived.finish)
    ensures !HopsOk(before, a.file, most) && Event(before, arrived) && Event(arrived, after)
    ensures Both(before, a.file, b.file, most) && Both(arrived, a.file, b.file, most) && Both(after, a.file, b.file, most)
    ensures GapOf(before, a.file, b.file) == 0 && GapOf(after, a.file, b.file) == c.start - b.start
  {
    PairBoth(a, b, before.vt, before.finish, most);
    PairBoth(b, c, after.vt, after.finish, most);
    ArriveHops(before, arrived, c, a.file, most);
    ArriveHops(before, arrived, c, b.file, most);
    FirstGoes(arrived, [b, c], a);
    assert arrived.held == [a] + [b, c];
    assert Releases(arrived, after, 0);
  }

  /**
    From there the next arrival of file 1 is tagged at the new virtual time,
    and the settlement of its fetch leaves file 2 that far behind: the gap,
    which was nothing, is as wide as the demand was long.
  */
  method GapAfterDemand(jump: nat) returns (f: Fair, ghost before: Link, ghost arrived: Link)
    requires jump > 20
    ensures f.Valid() && Tidy(before) && !HopsOk(before, 1, 10)
    ensures Event(before, arrived) && Event(arrived, f.AsLink())
    ensures Both(before, 1, 2, 10) && Both(arrived, 1, 2, 10) && Both(f.AsLink(), 1, 2, 10)
    ensures GapOf(before, 1, 2) == 0 && GapOf(f.AsLink(), 1, 2) == jump - 10 > 10
  {
    f := DemandPasses(jump);
    before := f.AsLink();
    BothCounts(f, jump);
    var irp, ok := f.AdmitOrHold(6, 1, 10, true);
    arrived := f.AsLink();
    ghost var rest := [Irp(1, 2, 10, 0), Irp(4, 3, jump, 0), Irp(5, 3, jump, jump)];
    assert Without(f.admitted, 0) == rest;
    TripleCounts(rest[0], rest[1], rest[2]);
    SettleOnly(f, Irp(2, 1, 10, 10), Irp(3, 2, 10, 10), Irp(6, 1, 10, jump));
    WidenedGap(before, arrived, f.AsLink(), Irp(2, 1, 10, 10), Irp(3, 2, 10, 10), Irp(6, 1, 10, jump), 10);
  }
}
