/**
  The fair-share fetch scheduler of src/Read.c: start-time fair queueing over
  one link, with a byte budget, a cap on fetches, and the rule that a file
  with nothing in flight is never held. Each method is one section under
  ReadFair.Lock.
*/
module ReadFair {

  const MAX_FETCHES: nat := 32

  /** A read: the file it is for, the bytes it is charged, and the start tag it was given. */
  datatype Irp = Irp(id: nat, file: nat, length: nat, start: nat)

  function Bytes(q: seq<Irp>): nat {
    if q == [] then 0 else q[0].length + Bytes(q[1..])
  }

  function CountOf(q: seq<Irp>, file: nat): nat {
    if q == [] then 0 else (if q[0].file == file then 1 else 0) + CountOf(q[1..], file)
  }

  function Without(q: seq<Irp>, k: nat): (r: seq<Irp>)
    requires k < |q|
    ensures |r| == |q| - 1
  {
    q[..k] + q[k + 1..]
  }

  lemma {:induction false} SumsAppend(a: seq<Irp>, b: seq<Irp>, file: nat)
    ensures Bytes(a + b) == Bytes(a) + Bytes(b) && CountOf(a + b, file) == CountOf(a, file) + CountOf(b, file)
  {
    if a == [] {
      assert a + b == b;
    } else {
      assert (a + b)[0] == a[0] && (a + b)[1..] == a[1..] + b;
      SumsAppend(a[1..], b, file);
    }
  }

  lemma SumsOne(i: Irp, file: nat)
    ensures Bytes([i]) == i.length && CountOf([i], file) == if i.file == file then 1 else 0
  {
    assert [i][1..] == [];
  }

  lemma SumsWithout(q: seq<Irp>, k: nat, file: nat)
    requires k < |q|
    ensures Bytes(Without(q, k)) == Bytes(q) - q[k].length
    ensures CountOf(Without(q, k), file) == CountOf(q, file) - (if q[k].file == file then 1 else 0)
  {
    assert q == q[..k] + ([q[k]] + q[k + 1..]);
    SumsAppend(q[..k], [q[k]] + q[k + 1..], file);
    SumsAppend([q[k]], q[k + 1..], file);
    SumsOne(q[k], file);
    SumsAppend(q[..k], q[k + 1..], file);
  }

  lemma SumsAdd(q: seq<Irp>, i: Irp, file: nat)
    ensures Bytes(q + [i]) == Bytes(q) + i.length
    ensures CountOf(q + [i], file) == CountOf(q, file) + if i.file == file then 1 else 0
  {
    SumsAppend(q, [i], file);
    SumsOne(i, file);
  }

  lemma {:induction false} CountWithin(q: seq<Irp>, k: nat)
    requires k < |q|
    ensures CountOf(q, q[k].file) > 0
  {
    if k > 0 { CountWithin(q[1..], k - 1); }
  }

  lemma {:induction false} CountNone(q: seq<Irp>, file: nat)
    requires CountOf(q, file) > 0
    ensures exists k :: 0 <= k < |q| && q[k].file == file
  {
    if q[0].file != file {
      CountNone(q[1..], file);
      var k :| 0 <= k < |q[1..]| && q[1..][k].file == file;
      assert q[k + 1].file == file;
    }
  }

  lemma WithoutMultiset(q: seq<Irp>, k: nat)
    requires k < |q|
    ensures multiset(Without(q, k)) == multiset(q) - multiset{q[k]}
  {
    assert q == q[..k] + [q[k]] + q[k + 1..];
  }

  // ---- the scheduler ----

  /** Whether the link is past its budget; a budget of zero never is. */
  predicate OverBudget(budget: nat, bytes: nat) {
    budget != 0 && bytes >= budget
  }

  /**
    The fetches a partly held read has reserved: undecided until the cache
    read returns, then those it made and those it did not, each given back in
    a section of its own.
  */
  datatype Partly = Undecided(n: nat) | Decided(n: nat, made: nat, returned: bool, completed: bool)

  /** The fetches made past a read's first. */
  function Past(started: bool, fetches: nat): nat {
    if started && fetches > 1 then fetches - 1 else 0
  }

  /** How many fetches one such read still has reserved. */
  function Owes(p: Partly): nat {
    match p
    case Undecided(n) => n
    case Decided(n, made, returned, completed) => (if returned || made > n then 0 else n - made) + (if completed then 0 else made)
  }

  predicate Finished(p: Partly) {
    p.Decided? && p.returned && p.completed
  }

  function OwedAll(q: seq<Partly>): nat {
    if q == [] then 0 else OwedAll(q[..|q| - 1]) + Owes(q[|q| - 1])
  }

  lemma OwedAppend(q: seq<Partly>, p: Partly)
    ensures OwedAll(q + [p]) == OwedAll(q) + Owes(p)
  {
    assert (q + [p])[..|q|] == q;
  }

  lemma {:induction false} OwedUpdate(q: seq<Partly>, k: nat, p: Partly)
    requires k < |q|
    ensures OwedAll(q[k := p]) == OwedAll(q) - Owes(q[k]) + Owes(p) && OwedAll(q) >= Owes(q[k])
  {
    var rest := q[..|q| - 1];
    if k == |q| - 1 {
      assert q[k := p][..|q| - 1] == rest;
    } else {
      OwedUpdate(rest, k, p);
      assert q[k := p][..|q| - 1] == rest[k := p];
    }
  }

  /** What fair queueing sees of the link. */
  datatype Link = Link(held: seq<Irp>, vt: nat, finish: map<nat, nat>)

  function FinishOf(l: Link, file: nat): nat {
    if file in l.finish then l.finish[file] else 0
  }

  /** A read is tagged and held. */
  ghost predicate Arrives(l: Link, l': Link, irp: Irp) {
    && irp.start == (if FinishOf(l, irp.file) > l.vt then FinishOf(l, irp.file) else l.vt)
    && l' == Link(l.held + [irp], l.vt, l.finish[irp.file := irp.start + irp.length])
  }

  /** The held read with the lowest start tag, the earliest of those, goes out. */
  ghost predicate Releases(l: Link, l': Link, k: nat) {
    && k < |l.held|
    && (forall j | 0 <= j < |l.held| :: l.held[k].start <= l.held[j].start)
    && (forall j | 0 <= j < k :: l.held[k].start < l.held[j].start)
    && l' == Link(Without(l.held, k), if l.held[k].start > l.vt then l.held[k].start else l.vt, l.finish)
  }

  /** Of two reads of one file, the later starts no sooner than the earlier ends. */
  ghost predicate InOrder(q: seq<Irp>) {
    forall i, j | 0 <= i < j < |q| && q[i].file == q[j].file :: q[i].start + q[i].length <= q[j].start
  }

  class Fair {
    const budget: nat
    var inFlightBytes: nat
    var virtualTime: nat
    var inFlightFetches: nat
    var held: seq<Irp>                 // read-ahead, in arrival order
    var waiting: seq<Irp>              // demand, in arrival order
    var fileFetches: map<nat, nat>     // ReadFetchesInFlight
    var finishTag: map<nat, nat>       // ReadFinishTag
    var admitted: seq<Irp>             // reads that carry FETCH_ADMITTED
    ghost var partly: seq<Partly>      // every read that has reserved fetches
    ghost var charged: seq<Irp>        // every read charged to its file, in order

    function InFlight(file: nat): nat
      reads this`fileFetches
    {
      if file in fileFetches then fileFetches[file] else 0
    }

    function Finish(file: nat): nat
      reads this`finishTag
    {
      if file in finishTag then finishTag[file] else 0
    }

    /** The counters are what they count, and the cap is kept. */
    ghost predicate Counted()
      reads this
    {
      && inFlightBytes == Bytes(admitted)
      && inFlightFetches == |admitted| + OwedAll(partly) <= MAX_FETCHES
      && (forall f :: InFlight(f) == CountOf(admitted, f))
    }

    /** Nothing waits without the cap reached, and nothing is held without that or its own file in flight. */
    ghost predicate Justified()
      reads this
    {
      && (waiting != [] ==> inFlightFetches == MAX_FETCHES)
      && (forall k | 0 <= k < |held| :: MayStay(held[k]))
    }

    ghost predicate MayStay(irp: Irp)
      reads this`inFlightFetches, this`inFlightBytes, this`fileFetches
    {
      inFlightFetches == MAX_FETCHES || (InFlight(irp.file) > 0 && inFlightBytes >= budget)
    }

    ghost predicate Valid()
      reads this
    {
      Counted() && Justified() && Tagged()
    }

    /** Each file's charges follow one another in virtual time, up to its finish tag. */
    ghost predicate Tagged()
      reads this`charged, this`finishTag
    {
      InOrder(charged) && forall i | 0 <= i < |charged| :: charged[i].start + charged[i].length <= Finish(charged[i].file)
    }

    ghost function AsLink(): Link
      reads this
    {
      Link(held, virtualTime, finishTag)
    }

    ghost function Everything(): multiset<Irp>
      reads this
    {
      multiset(admitted) + multiset(held) + multiset(waiting)
    }

    constructor (budget: nat)
      ensures Valid() && this.budget == budget && admitted == held == waiting == [] && partly == [] && virtualTime == 0 && finishTag == map[] && charged == []
    {
      this.budget := budget;
      inFlightBytes, virtualTime, inFlightFetches := 0, 0, 0;
      held, waiting, admitted := [], [], [];
      fileFetches, finishTag := map[], map[];
      partly, charged := [], [];
    }

    /** ReadFairMustHold. */
    predicate MustHold(file: nat, mayHold: bool)
      reads this
    {
      (mayHold && OverBudget(budget, inFlightBytes) && InFlight(file) != 0) || inFlightFetches >= MAX_FETCHES
    }

    /** The start tag a read of `file` is given now. */
    function StartTag(file: nat): (t: nat)
      reads this
      ensures t >= virtualTime && t >= Finish(file)
    {
      if Finish(file) > virtualTime then Finish(file) else virtualTime
    }

    /** A read goes out on the link. */
    method Charge(irp: Irp)
      requires Counted() && inFlightFetches < MAX_FETCHES
      modifies this`virtualTime, this`inFlightBytes, this`inFlightFetches, this`fileFetches, this`admitted
      ensures Counted() && admitted == old(admitted) + [irp] && inFlightFetches == old(inFlightFetches) + 1
      ensures inFlightBytes == old(inFlightBytes) + irp.length
      ensures forall f :: InFlight(f) == old(InFlight(f)) + if f == irp.file then 1 else 0
      ensures virtualTime == if irp.start > old(virtualTime) then irp.start else old(virtualTime)
      ensures forall i: Irp :: old(MayStay(i)) ==> MayStay(i)
    {
      if irp.start > virtualTime { virtualTime := irp.start; }
      inFlightBytes := inFlightBytes + irp.length;
      inFlightFetches := inFlightFetches + 1;
      fileFetches := fileFetches[irp.file := InFlight(irp.file) + 1];
      forall f ensures InFlight(f) == CountOf(admitted + [irp], f) { SumsAdd(admitted, irp, f); }
      SumsAdd(admitted, irp, 0);
      admitted := admitted + [irp];
    }

    /** A read of `file` is given its start tag, and the file is charged for it. */
    method Tag(id: nat, file: nat, length: nat) returns (irp: Irp)
      requires Tagged()
      modifies this`finishTag, this`charged
      ensures Tagged() && irp == Irp(id, file, length, old(StartTag(file)))
      ensures finishTag == old(finishTag)[file := irp.start + length] && charged == old(charged) + [irp]
    {
      irp := Irp(id, file, length, StartTag(file));
      finishTag := finishTag[file := irp.start + length];
      charged := charged + [irp];
    }

    /** ReadFairAdmit's first look: admitted, or sent off for a work item with nothing changed. */
    method AdmitNow(id: nat, file: nat, length: nat, mayHold: bool) returns (ok: bool)
      requires Valid()
      modifies this`virtualTime, this`inFlightBytes, this`inFlightFetches, this`fileFetches, this`admitted, this`finishTag, this`charged
      ensures Valid() && ok == !old(MustHold(file, mayHold))
      ensures var irp := Irp(id, file, length, old(StartTag(file)));
              ok ==> (admitted == old(admitted) + [irp] && charged == old(charged) + [irp] && virtualTime == irp.start &&
                      finishTag == old(finishTag)[file := irp.start + length])
      ensures !ok ==> unchanged(this)
    {
      ok := !MustHold(file, mayHold);
      if ok {
        var irp := Tag(id, file, length);
        Charge(irp);
        assert forall k | 0 <= k < |held| :: old(MayStay(held[k]));
      }
    }

    /** ReadFairAdmit's second look, with a work item in hand. */
    method AdmitOrHold(id: nat, file: nat, length: nat, mayHold: bool) returns (irp: Irp, ok: bool)
      requires Valid()
      modifies this`virtualTime, this`inFlightBytes, this`inFlightFetches, this`fileFetches, this`admitted, this`finishTag, this`charged, this`held, this`waiting
      ensures Valid() && ok == !old(MustHold(file, mayHold)) && irp == Irp(id, file, length, old(StartTag(file)))
      ensures finishTag == old(finishTag)[file := irp.start + length] && charged == old(charged) + [irp]
      ensures ok ==> admitted == old(admitted) + [irp] && held == old(held) && waiting == old(waiting) && virtualTime == irp.start
      ensures !ok ==> admitted == old(admitted) && virtualTime == old(virtualTime)
      ensures !ok ==> inFlightFetches == old(inFlightFetches) && inFlightBytes == old(inFlightBytes) && fileFetches == old(fileFetches)
      ensures !ok ==> held == old(held) + (if mayHold then [irp] else []) && waiting == old(waiting) + (if mayHold then [] else [irp])
      ensures !ok && mayHold ==> Arrives(old(AsLink()), AsLink(), irp)
    {
      ok := !MustHold(file, mayHold);
      irp := Tag(id, file, length);
      if ok {
        Charge(irp);
        assert forall k | 0 <= k < |held| :: old(MayStay(held[k]));
      } else if mayHold {
        assert MayStay(irp);
        assert forall k | 0 <= k < |held| :: old(MayStay(held[k])) && MayStay(held[k]);
        held := held + [irp];
      } else {
        waiting := waiting + [irp];
      }
    }

    /** A held read may go: the link has room, or its file has nothing in flight. */
    predicate Eligible(room: bool, irp: Irp)
      reads this
    {
      room || InFlight(irp.file) == 0
    }

    ghost predicate NoneEligible()
      reads this
    {
      waiting == [] && forall j | 0 <= j < |held| :: !Eligible(inFlightBytes < budget, held[j])
    }

    /** `k` is the earliest eligible held read with the lowest start tag. */
    ghost predicate Lowest(room: bool, k: nat)
      reads this
    {
      && k < |held| && Eligible(room, held[k])
      && (forall j | 0 <= j < |held| && Eligible(room, held[j]) :: held[k].start <= held[j].start)
      && (forall j | 0 <= j < k && Eligible(room, held[j]) :: held[k].start < held[j].start)
    }

    /** The scan of ReadFairAdmitHeld over the held reads; |held| when none may go. */
    method PickHeld(room: bool) returns (k: nat)
      ensures k <= |held|
      ensures k < |held| ==> Lowest(room, k)
      ensures k == |held| ==> forall j | 0 <= j < |held| :: !Eligible(room, held[j])
    {
      k := |held|;
      for i := 0 to |held|
        invariant k < i || k == |held|
        invariant k == |held| ==> forall j | 0 <= j < i :: !Eligible(room, held[j])
        invariant k < |held| ==> Eligible(room, held[k])
        invariant k < |held| ==> forall j | 0 <= j < i && Eligible(room, held[j]) :: held[k].start <= held[j].start
        invariant k < |held| ==> forall j | 0 <= j < k && Eligible(room, held[j]) :: held[k].start < held[j].start
      {
        if (k == |held| || held[i].start < held[k].start) && Eligible(room, held[i]) {
          k := i;
        }
      }
    }

    /** One release: the first waiting demand, or else the lowest eligible held read. */
    method ReleaseOne() returns (irp: Irp, ok: bool, ghost k: nat)
      requires Counted() && inFlightFetches < MAX_FETCHES
      modifies this`virtualTime, this`inFlightBytes, this`inFlightFetches, this`fileFetches, this`admitted, this`held, this`waiting
      ensures Counted() && virtualTime >= old(virtualTime)
      ensures ok ==> admitted == old(admitted) + [irp] && inFlightFetches == old(inFlightFetches) + 1
      ensures ok ==> virtualTime == if irp.start > old(virtualTime) then irp.start else old(virtualTime)
      ensures ok && old(waiting) != [] ==> irp == old(waiting)[0] && waiting == old(waiting)[1..] && held == old(held)
      ensures ok && old(waiting) == [] && old(inFlightBytes) < budget ==> Releases(old(AsLink()), AsLink(), k)
      ensures ok && old(waiting) == [] ==> waiting == [] && old(Lowest(inFlightBytes < budget, k)) && irp == old(held)[k] && held == Without(old(held), k)
      ensures !ok ==> admitted == old(admitted) && held == old(held) && waiting == old(waiting) == [] && virtualTime == old(virtualTime)
      ensures !ok ==> inFlightFetches == old(inFlightFetches) && inFlightBytes == old(inFlightBytes) && fileFetches == old(fileFetches)
      ensures !ok ==> forall j | 0 <= j < |held| :: InFlight(held[j].file) > 0 && inFlightBytes >= budget
      ensures old(NoneEligible()) ==> !ok && NoneEligible()
      ensures Everything() == old(Everything())
      ensures ok ==> |held| + |waiting| == old(|held| + |waiting|) - 1
    {
      irp, ok, k := Irp(0, 0, 0, 0), true, 0;
      if waiting != [] {
        irp := ReleaseWaiting();
      } else {
        var i := PickHeld(inFlightBytes < budget);
        if i == |held| {
          ok := false;
          forall j | 0 <= j < |held| ensures InFlight(held[j].file) > 0 && inFlightBytes >= budget {
            assert !Eligible(inFlightBytes < budget, held[j]);
          }
        } else {
          irp := ReleaseHeld(i);
          k := i;
        }
      }
    }

    method ReleaseWaiting() returns (irp: Irp)
      requires Counted() && inFlightFetches < MAX_FETCHES && waiting != []
      modifies this`virtualTime, this`inFlightBytes, this`inFlightFetches, this`fileFetches, this`admitted, this`held, this`waiting
      ensures Counted() && Everything() == old(Everything())
      ensures admitted == old(admitted) + [irp] && inFlightFetches == old(inFlightFetches) + 1
      ensures virtualTime == if irp.start > old(virtualTime) then irp.start else old(virtualTime)
      ensures irp == old(waiting)[0] && waiting == old(waiting)[1..] && held == old(held)
    {
      irp := waiting[0];
      assert waiting == [irp] + waiting[1..];
      waiting := waiting[1..];
      Charge(irp);
    }

    method ReleaseHeld(k: nat) returns (irp: Irp)
      requires Counted() && inFlightFetches < MAX_FETCHES && k < |held|
      modifies this`virtualTime, this`inFlightBytes, this`inFlightFetches, this`fileFetches, this`admitted, this`held, this`waiting
      ensures Counted() && Everything() == old(Everything())
      ensures admitted == old(admitted) + [irp] && inFlightFetches == old(inFlightFetches) + 1
      ensures virtualTime == if irp.start > old(virtualTime) then irp.start else old(virtualTime)
      ensures irp == old(held)[k] && held == Without(old(held), k) && waiting == old(waiting)
    {
      irp := held[k];
      WithoutMultiset(held, k);
      held := Without(held, k);
      Charge(irp);
    }

    /** ReadFairAdmitHeld. */
    method AdmitHeld() returns (released: seq<Irp>)
      requires Counted() && Tagged()
      modifies this`virtualTime, this`inFlightBytes, this`inFlightFetches, this`fileFetches, this`admitted, this`held, this`waiting
      ensures Valid() && virtualTime >= old(virtualTime)
      ensures admitted == old(admitted) + released && Everything() == old(Everything())
      ensures |held| + |waiting| + |released| == old(|held| + |waiting|)
      ensures old(NoneEligible()) ==> released == [] && held == old(held) && virtualTime == old(virtualTime)
    {
      released := [];
      var ok := true;
      while ok && inFlightFetches < MAX_FETCHES
        invariant Counted() && virtualTime >= old(virtualTime)
        invariant admitted == old(admitted) + released && Everything() == old(Everything())
        invariant |held| + |waiting| + |released| == old(|held| + |waiting|)
        invariant old(NoneEligible()) ==> released == [] && NoneEligible() && held == old(held) && virtualTime == old(virtualTime)
        invariant !ok ==> waiting == [] && forall j | 0 <= j < |held| :: InFlight(held[j].file) > 0 && inFlightBytes >= budget
        decreases ok, |held| + |waiting|
      {
        var irp, more, _ := ReleaseOne();
        ok := more;
        if ok { released := released + [irp]; }
      }
    }

    /** Even without fetch `k` the link has no room, and every held read's file another fetch in flight. */
    ghost predicate Blocked(k: nat)
      reads this
      requires k < |admitted|
    {
      && waiting == [] && budget + admitted[k].length <= inFlightBytes
      && forall j | 0 <= j < |held| :: CountOf(Without(admitted, k), held[j].file) > 0
    }

    /** ReadFairSettle of the admitted read `admitted[k]`. */
    method Settle(k: nat) returns (released: seq<Irp>)
      requires Valid() && k < |admitted|
      modifies this`virtualTime, this`inFlightBytes, this`inFlightFetches, this`fileFetches, this`admitted, this`held, this`waiting
      ensures Valid() && virtualTime >= old(virtualTime)
      ensures admitted == Without(old(admitted), k) + released
      ensures Everything() == old(Everything()) - multiset{old(admitted)[k]}
      ensures |held| + |waiting| + |released| == old(|held| + |waiting|)
      ensures old(Blocked(k)) ==> released == [] && held == old(held)
    {
      ghost var rest, blocked, all := Without(admitted, k), Blocked(k), Everything() - multiset{admitted[k]};
      Uncharge(k);
      assert admitted == rest && Everything() == all && (blocked ==> NoneEligible());
      released := AdmitHeld();
    }

    /** A fetch leaves the link. */
    method Uncharge(k: nat)
      requires Counted() && k < |admitted|
      modifies this`inFlightBytes, this`inFlightFetches, this`fileFetches, this`admitted
      ensures Counted() && admitted == Without(old(admitted), k) && inFlightBytes == old(inFlightBytes) - old(admitted)[k].length
      ensures Everything() == old(Everything()) - multiset{old(admitted)[k]}
      ensures old(Blocked(k)) ==> NoneEligible()
    {
      var irp := admitted[k];
      forall f ensures CountOf(Without(admitted, k), f) == CountOf(admitted, f) - (if irp.file == f then 1 else 0) {
        SumsWithout(admitted, k, f);
      }
      SumsWithout(admitted, k, 0);
      CountWithin(admitted, k);
      WithoutMultiset(admitted, k);
      BytesAtLeast(admitted, k);
      inFlightBytes := inFlightBytes - irp.length;
      inFlightFetches := inFlightFetches - 1;
      fileFetches := fileFetches[irp.file := InFlight(irp.file) - 1];
      admitted := Without(admitted, k);
    }

    /** ReadFairReserve, for a read numbered `k` among those that have reserved. */
    method Reserve(fetches: nat) returns (n: nat, ghost k: nat)
      requires Valid()
      modifies this`inFlightFetches, this`partly
      ensures Valid() && k == |old(partly)| && partly == old(partly) + [Undecided(n)]
      ensures n == if fetches <= MAX_FETCHES - old(inFlightFetches) then fetches else MAX_FETCHES - old(inFlightFetches)
    {
      var room := if inFlightFetches < MAX_FETCHES then MAX_FETCHES - inFlightFetches else 0;
      n := if fetches < room then fetches else room;
      k := |partly|;
      Book(n);
    }

    /** `n` more fetches are reserved, within the cap. */
    method Book(n: nat)
      requires Valid() && inFlightFetches + n <= MAX_FETCHES
      modifies this`inFlightFetches, this`partly
      ensures Valid() && partly == old(partly) + [Undecided(n)]
    {
      OwedAppend(partly, Undecided(n));
      assert forall f :: InFlight(f) == CountOf(admitted, f);
      inFlightFetches := inFlightFetches + n;
      partly := partly + [Undecided(n)];
      forall i | 0 <= i < |held| ensures MayStay(held[i]) { assert old(MayStay(held[i])); }
    }

    /**
      BlorgDiskCacheRead says how many fetches it made of those allowed: the
      reservations of all but the first, `made`, stay until completion, and
      the rest are to go back. One that did not start made none.
    */
    ghost method Decide(k: nat, started: bool, fetches: nat)
      requires Valid() && k < |partly| && partly[k].Undecided? && (started ==> fetches <= 1 + partly[k].n)
      modifies this`partly
      ensures Valid() && partly == old(partly)[k := Decided(old(partly)[k].n, Past(started, fetches), false, !started)]
    {
      var p := Decided(partly[k].n, Past(started, fetches), false, !started);
      OwedUpdate(partly, k, p);
      partly := partly[k := p];
    }

    /** ReadFairGiveBack of `n` of the fetches that read `k` reserved, which then stands as `p`. */
    method GiveBack(n: nat, ghost k: nat, ghost p: Partly) returns (released: seq<Irp>)
      requires Valid() && k < |partly| && Owes(p) + n == Owes(partly[k])
      modifies this`virtualTime, this`inFlightBytes, this`inFlightFetches, this`fileFetches, this`admitted, this`held, this`waiting, this`partly
      ensures Valid() && partly == old(partly)[k := p] && virtualTime >= old(virtualTime)
      ensures admitted == old(admitted) + released && Everything() == old(Everything())
      ensures |held| + |waiting| + |released| == old(|held| + |waiting|) && OwedAll(partly) + n == old(OwedAll(partly))
    {
      released := [];
      OwedUpdate(partly, k, p);
      partly := partly[k := p];
      if n != 0 {
        inFlightFetches := inFlightFetches - n;
        released := AdmitHeld();
      }
    }

    /** ReadFromDiskCache, once the cache read has returned: all it reserved goes back, but for the fetches it made past the first. */
    method ReturnRest(reserved: nat, started: bool, fetches: nat, ghost k: nat) returns (released: seq<Irp>)
      requires Valid() && k < |partly| && partly[k].Decided? && !partly[k].returned && (started ==> fetches <= 1 + reserved)
      requires partly[k].n == reserved && partly[k].made == Past(started, fetches)
      modifies this`virtualTime, this`inFlightBytes, this`inFlightFetches, this`fileFetches, this`admitted, this`held, this`waiting, this`partly
      ensures Valid() && partly == old(partly)[k := old(partly)[k].(returned := true)]
      ensures admitted == old(admitted) + released && Everything() == old(Everything())
      ensures old(OwedAll(partly)) - OwedAll(partly) == if started && fetches > 1 then reserved - (fetches - 1) else reserved
    {
      var back := if !started then reserved else if fetches > 1 then reserved - (fetches - 1) else reserved;
      released := GiveBack(back, k, partly[k].(returned := true));
    }

    /** ReadDiskComplete: what it made past the first goes back. It may run before ReadFromDiskCache has returned the rest. */
    method CompletePartly(fetches: nat, ghost k: nat) returns (released: seq<Irp>)
      requires Valid() && k < |partly| && partly[k].Decided? && !partly[k].completed && partly[k].made == Past(true, fetches)
      modifies this`virtualTime, this`inFlightBytes, this`inFlightFetches, this`fileFetches, this`admitted, this`held, this`waiting, this`partly
      ensures Valid() && partly == old(partly)[k := old(partly)[k].(completed := true)]
      ensures admitted == old(admitted) + released && Everything() == old(Everything())
      ensures old(OwedAll(partly)) - OwedAll(partly) == if fetches > 1 then fetches - 1 else 0
    {
      released := GiveBack(if fetches > 1 then fetches - 1 else 0, k, partly[k].(completed := true));
    }
  }

  /** Once each read that reserved has been through both halves, in whichever order, nothing is reserved. */
  lemma {:induction false} BothHalvesReturnAll(q: seq<Partly>)
    requires forall i | 0 <= i < |q| :: Finished(q[i])
    ensures OwedAll(q) == 0
  {
    if q != [] { BothHalvesReturnAll(q[..|q| - 1]); }
  }

  lemma {:induction false} BytesAtLeast(q: seq<Irp>, k: nat)
    requires k < |q|
    ensures Bytes(q) >= q[k].length
  {
    if k > 0 { BytesAtLeast(q[1..], k - 1); }
  }

  /** A read held while the cap has room shares its file with a fetch in flight. */
  lemma HeldHasFetch(f: Fair, k: nat)
    requires f.Valid() && k < |f.held| && f.inFlightFetches < MAX_FETCHES
    ensures exists a :: 0 <= a < |f.admitted| && f.admitted[a].file == f.held[k].file
  {
    assert f.MayStay(f.held[k]);
    CountNone(f.admitted, f.held[k].file);
  }

  /** With every fetch settled and every reservation given back, nothing is left waiting or held. */
  lemma QuietLinkIsDrained(f: Fair)
    requires f.Valid() && f.admitted == [] && OwedAll(f.partly) == 0
    ensures f.waiting == [] && f.held == [] && f.inFlightBytes == 0 && f.inFlightFetches == 0
  {
    if f.held != [] { HeldHasFetch(f, 0); }
  }

  /**
    Once arrivals stop, settling whatever is in flight drains both queues,
    in one settlement for each read there was.
  */
  method SettleAll(f: Fair) returns (settled: nat)
    requires f.Valid() && OwedAll(f.partly) == 0
    modifies f
    ensures f.Valid() && f.admitted == f.held == f.waiting == []
    ensures settled == old(|f.admitted| + |f.held| + |f.waiting|)
  {
    settled := 0;
    while f.admitted != []
      invariant f.Valid() && OwedAll(f.partly) == 0
      invariant settled + |f.admitted| + |f.held| + |f.waiting| == old(|f.admitted| + |f.held| + |f.waiting|)
      decreases |f.admitted| + |f.held| + |f.waiting|
    {
      var _ := f.Settle(0);
      settled := settled + 1;
    }
    QuietLinkIsDrained(f);
  }

  // ---- a budget of zero ----

  /** With a budget, whatever is held would be held again if it arrived now. */
  lemma HeldMustHold(f: Fair, k: nat)
    requires f.Valid() && f.budget != 0 && k < |f.held|
    ensures f.MustHold(f.held[k].file, true)
  {
    assert f.MayStay(f.held[k]);
  }

  /** A link at its cap: one fetch of file 1, the rest of file 2. */
  method FullLink() returns (f: Fair)
    ensures fresh(f) && f.Valid() && f.budget == 0 && OwedAll(f.partly) == 0 && f.held == f.waiting == []
    ensures |f.admitted| == MAX_FETCHES && f.admitted[0].file == 1
  {
    f := new Fair(0);
    var ok := f.AdmitNow(0, 1, 4096, false);
    for i := 1 to MAX_FETCHES
      invariant f.Valid() && f.budget == 0 && OwedAll(f.partly) == 0 && f.held == f.waiting == [] && |f.admitted| == i && f.admitted[0].file == 1
    {
      ok := f.AdmitNow(i, 2, 4096, false);
    }
  }

  /** Without one, a read-ahead held for the cap outlives it: its own file has a fetch in flight, and the link never has room. */
  method ZeroBudgetStillHolds() returns (f: Fair)
    ensures f.Valid() && f.budget == 0 && |f.held| == 1 && !f.MustHold(f.held[0].file, true)
  {
    f := FullLink();
    var irp, ok := f.AdmitOrHold(MAX_FETCHES, 1, 4096, true);
    assert Without(f.admitted, 1)[0].file == 1;
    CountWithin(Without(f.admitted, 1), 0);
    BytesAtLeast(f.admitted, 1);
    var released := f.Settle(1);
  }

  // ---- the share each file is charged ----

  /** The bytes charged to `file` with start tags in `[v1, v2)`. */
  function ChargedIn(q: seq<Irp>, file: nat, v1: nat, v2: nat): nat {
    if q == [] then 0
    else
      var last := q[|q| - 1];
      ChargedIn(q[..|q| - 1], file, v1, v2) + (if last.file == file && v1 <= last.start < v2 then last.length else 0)
  }

  lemma {:induction false} ChargedBefore(q: seq<Irp>, file: nat, v1: nat, v2: nat, end: nat)
    requires InOrder(q) && v1 <= end && (forall i | 0 <= i < |q| && q[i].file == file :: q[i].start + q[i].length <= end)
    ensures ChargedIn(q, file, v1, v2) <= end - v1
  {
    if q != [] {
      var rest, last := q[..|q| - 1], q[|q| - 1];
      if last.file == file && v1 <= last.start {
        forall i | 0 <= i < |rest| && rest[i].file == file ensures rest[i].start + rest[i].length <= last.start {
          assert rest[i] == q[i];
        }
        ChargedBefore(rest, file, v1, v2, last.start);
      } else {
        ChargedBefore(rest, file, v1, v2, end);
      }
    }
  }

  /** Over any interval of virtual time a file is charged at most its width and one fetch. */
  lemma {:induction false} ShareBounded(q: seq<Irp>, file: nat, v1: nat, v2: nat, most: nat)
    requires InOrder(q) && v1 <= v2 && (forall i | 0 <= i < |q| && q[i].file == file :: q[i].length <= most)
    ensures ChargedIn(q, file, v1, v2) <= v2 - v1 + most
  {
    if q != [] {
      var rest, last := q[..|q| - 1], q[|q| - 1];
      if last.file == file && v1 <= last.start < v2 {
        forall i | 0 <= i < |rest| && rest[i].file == file ensures rest[i].start + rest[i].length <= last.start {
          assert rest[i] == q[i];
        }
        ChargedBefore(rest, file, v1, v2, last.start);
      } else {
        ShareBounded(rest, file, v1, v2, most);
      }
    }
  }

  lemma FairShare(f: Fair, file: nat, v1: nat, v2: nat, most: nat)
    requires f.Valid() && v1 <= v2 && (forall i | 0 <= i < |f.charged| && f.charged[i].file == file :: f.charged[i].length <= most)
    ensures ChargedIn(f.charged, file, v1, v2) <= v2 - v1 + most
  {
    ShareBounded(f.charged, file, v1, v2, most);
  }
}
