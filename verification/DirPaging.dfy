/**
  Directory enumeration, src/DirCtrl.c: each query fills one buffer from
  where the last one stopped. The output buffer is modelled by its offsets:
  a cell holds the record that begins there, if one does.
*/
module DirPaging {
  import opened Options

  type Name = seq<char>

  /** A directory record: its NextEntryOffset, and the entry it describes. */
  datatype Record = Record(next: nat, index: nat, name: Name)

  datatype Status = Success | NoMoreFiles | Overflow

  /** Records are multiples of eight bytes. */
  function Aligned(n: nat): (r: nat)
    ensures n <= r < n + 8 && r % 8 == 0
  {
    (n + 7) / 8 * 8
  }

  /** One query: the snapshot listed, the pattern, and the record layout's name offset. */
  datatype Query = Query(names: seq<Name>, matches: Name -> bool, base: nat, entryMax: nat)

  /** The bytes entry `i` takes: its fixed part and two bytes a character. */
  function SizeOf(q: Query, i: nat): (r: nat)
    requires i < |q.names|
    ensures r % 8 == 0 && q.base + 2 * |q.names[i]| <= r < q.base + 2 * |q.names[i]| + 8
  {
    Aligned(q.base + 2 * |q.names[i]|)
  }

  /** The matching entries in `[from, to)`, in listing order. */
  function Matching(q: Query, from: nat, to: nat): seq<nat>
    requires from <= to <= |q.names|
  {
    if from == to then []
    else Matching(q, from, to - 1) + (if q.matches(q.names[to - 1]) then [to - 1] else [])
  }

  /** `s` lists exactly the entries of `[from, to)` whose names match, each once and in listing order. */
  ghost predicate Lists(q: Query, s: seq<nat>, from: nat, to: nat) {
    && (forall i: nat :: i in s <==> from <= i < to && i < |q.names| && q.matches(q.names[i]))
    && (forall j, k | 0 <= j < k < |s| :: s[j] < s[k])
  }

  lemma {:induction false} MatchingLists(q: Query, a: nat, b: nat)
    requires a <= b <= |q.names|
    ensures Lists(q, Matching(q, a, b), a, b)
    decreases b
  {
    if a < b {
      MatchingLists(q, a, b - 1);
      ListsMore(q, Matching(q, a, b - 1), a, b - 1);
    }
  }

  lemma ListsMore(q: Query, s: seq<nat>, a: nat, b: nat)
    requires Lists(q, s, a, b) && a <= b < |q.names|
    ensures Lists(q, if q.matches(q.names[b]) then s + [b] else s, a, b + 1)
    ensures Lists(q, s + (if q.matches(q.names[b]) then [b] else []), a, b + 1)
  {
    assert s + [] == s;
    if q.matches(q.names[b]) {
      forall j | 0 <= j < |s| ensures s[j] < b { assert s[j] in s; }
    }
  }

  lemma {:induction false} MatchingConcat(q: Query, a: nat, b: nat, c: nat)
    requires a <= b <= c <= |q.names|
    ensures Matching(q, a, c) == Matching(q, a, b) + Matching(q, b, c)
  {
    if b < c { MatchingConcat(q, a, b, c - 1); }
  }

  // ---- a filled page ----

  /** Record `k` ends where the next begins, or where the page's bytes end. */
  ghost predicate Adjacent(q: Query, written: seq<nat>, offsets: seq<nat>, used: nat, k: nat) {
    && k < |written| == |offsets| && written[k] < |q.names|
    && offsets[k] + SizeOf(q, written[k]) == (if k + 1 < |offsets| then offsets[k + 1] else used)
  }

  /** Where each record of a page begins, one after another, and how many bytes they take. */
  ghost predicate LaidOut(q: Query, written: seq<nat>, offsets: seq<nat>, used: nat) {
    && |offsets| == |written|
    && (forall k | 0 <= k < |written| :: Adjacent(q, written, offsets, used, k))
    && (if written == [] then used == 0 else offsets[0] == 0)
  }

  /** The records are in the page; each but the last leads to the one after it. */
  ghost predicate Placed(q: Query, cells: seq<Option<Record>>, written: seq<nat>, offsets: seq<nat>) {
    && |offsets| == |written|
    && (forall k | 0 <= k < |written| :: RecordAt(q, cells, written, offsets, k))
  }

  ghost predicate RecordAt(q: Query, cells: seq<Option<Record>>, written: seq<nat>, offsets: seq<nat>, k: nat)
    requires k < |offsets| == |written|
  {
    && offsets[k] < |cells| && written[k] < |q.names| && cells[offsets[k]].Some?
    && cells[offsets[k]].value.index == written[k] && cells[offsets[k]].value.name == q.names[written[k]]
    && (k + 1 < |written| ==> cells[offsets[k]].value.next == SizeOf(q, written[k]))
  }

  /** One record met on a walk. */
  datatype Visit = Visit(at: nat, index: nat, name: Name)

  /** Following NextEntryOffset from `at` until it is zero. */
  function Walk(cells: seq<Option<Record>>, at: nat): seq<Visit>
    decreases |cells| - at
  {
    if at >= |cells| || cells[at].None? then []
    else [Visit(at, cells[at].value.index, cells[at].value.name)] +
         (if cells[at].value.next == 0 then [] else Walk(cells, at + cells[at].value.next))
  }

  /** The walk `v` meets exactly the entries `written`, in order and by name, each within the first `used` bytes. */
  ghost predicate Visits(q: Query, v: seq<Visit>, written: seq<nat>, used: nat) {
    |v| == |written| && forall k | 0 <= k < |v| :: VisitOk(q, v[k], written[k], used)
  }

  predicate VisitOk(q: Query, v: Visit, i: nat, used: nat) {
    i < |q.names| && v.index == i && v.name == q.names[i] && v.at + SizeOf(q, i) <= used
  }

  /** The last record leads nowhere. */
  ghost predicate Ended(cells: seq<Option<Record>>, offsets: seq<nat>) {
    offsets != [] ==>
      offsets[|offsets| - 1] < |cells| && cells[offsets[|offsets| - 1]].Some? && cells[offsets[|offsets| - 1]].value.next == 0
  }

  /** A walk visits exactly the records written, in order. */
  lemma {:induction false} WalkVisitsAll(q: Query, cells: seq<Option<Record>>, written: seq<nat>, offsets: seq<nat>, used: nat, k: nat)
    requires LaidOut(q, written, offsets, used) && Placed(q, cells, written, offsets) && k < |written|
    requires Ended(cells, offsets) && q.base > 0
    ensures Visits(q, Walk(cells, offsets[k]), written[k..], used)
    decreases |written| - k
  {
    assert RecordAt(q, cells, written, offsets, k) && Adjacent(q, written, offsets, used, k);
    var at, v := offsets[k], Walk(cells, offsets[k]);
    assert written[k..] == [written[k]] + written[k + 1..];
    if k + 1 < |written| {
      WalkVisitsAll(q, cells, written, offsets, used, k + 1);
      OffsetsBelow(q, written, offsets, used, k + 1);
      var rest := Walk(cells, offsets[k + 1]);
      assert at + cells[at].value.next == offsets[k + 1];
      assert v == [Visit(at, written[k], q.names[written[k]])] + rest;
      forall i | 0 <= i < |v| ensures VisitOk(q, v[i], written[k..][i], used) {
        assert i > 0 ==> v[i] == rest[i - 1] && written[k..][i] == written[k + 1..][i - 1];
      }
    } else {
      assert v == [Visit(at, written[k], q.names[written[k]])];
    }
  }

  /** One more record at the end of a page. */
  lemma OneMore(q: Query, cells: seq<Option<Record>>, cells': seq<Option<Record>>, written: seq<nat>, offsets: seq<nat>, used: nat, i: nat)
    requires LaidOut(q, written, offsets, used) && Placed(q, cells, written, offsets) && Continues(q, cells, written, offsets)
    requires i < |q.names| && used + SizeOf(q, i) <= |cells| == |cells'| && used < |cells|
    requires forall o | 0 <= o < used :: cells'[o] == cells[o]
    requires cells'[used].Some? && cells'[used].value.index == i && cells'[used].value.name == q.names[i]
    requires q.base > 0
    ensures LaidOut(q, written + [i], offsets + [used], used + SizeOf(q, i)) && Placed(q, cells', written + [i], offsets + [used])
  {
    var w, o, end := written + [i], offsets + [used], used + SizeOf(q, i);
    forall k | 0 <= k < |w| ensures Adjacent(q, w, o, end, k) {
      if k < |written| { assert Adjacent(q, written, offsets, used, k); }
    }
    forall k | 0 <= k < |w| ensures RecordAt(q, cells', w, o, k) {
      if k < |written| {
        assert RecordAt(q, cells, written, offsets, k) && Adjacent(q, written, offsets, used, k);
        OffsetsBelow(q, written, offsets, used, k);
      }
    }
  }

  /** The last record, while more may follow, leads to where the next would begin. */
  ghost predicate Continues(q: Query, cells: seq<Option<Record>>, written: seq<nat>, offsets: seq<nat>) {
    written != [] ==>
      && |offsets| == |written| && written[|written| - 1] < |q.names|
      && offsets[|offsets| - 1] < |cells| && cells[offsets[|offsets| - 1]].Some?
      && cells[offsets[|offsets| - 1]].value.next == SizeOf(q, written[|written| - 1])
  }

  lemma {:induction false} OffsetsBelow(q: Query, written: seq<nat>, offsets: seq<nat>, used: nat, k: nat)
    requires LaidOut(q, written, offsets, used) && k < |written| && q.base > 0
    ensures offsets[k] < used
    decreases |written| - k
  {
    assert Adjacent(q, written, offsets, used, k);
    if k + 1 < |written| { OffsetsBelow(q, written, offsets, used, k + 1); }
  }

  /** A record and the rest of its bytes are copied to the page. */
  method PutRecord(out: array<Option<Record>>, at: nat, size: nat, r: Record)
    requires 0 < size && at + size <= out.Length
    modifies out
    ensures out[at] == Some(r) && forall o | 0 <= o < at :: out[o] == old(out[o])
  {
    for o := at to at + size
      invariant forall p | 0 <= p < at :: out[p] == old(out[p])
    {
      out[o] := None;
    }
    out[at] := Some(r);
  }

  /** Entry `i` goes in the page after what it holds. */
  method Place(q: Query, out: array<Option<Record>>, used: nat, i: nat, next: nat, ghost written: seq<nat>, ghost offsets: seq<nat>)
    requires LaidOut(q, written, offsets, used) && Placed(q, out[..], written, offsets) && Continues(q, out[..], written, offsets)
    requires q.base > 0 && i < |q.names| && used + SizeOf(q, i) <= out.Length
    modifies out
    ensures LaidOut(q, written + [i], offsets + [used], used + SizeOf(q, i)) && Placed(q, out[..], written + [i], offsets + [used])
    ensures next == SizeOf(q, i) ==> Continues(q, out[..], written + [i], offsets + [used])
  {
    ghost var cells := out[..];
    PutRecord(out, used, SizeOf(q, i), Record(next, i, q.names[i]));
    OneMore(q, cells, out[..], written, offsets, used, i);
  }

  /** What one query returns: the matching entries from where it started to where it stopped, as a page a caller can walk. */
  ghost predicate PageOk(q: Query, cells: seq<Option<Record>>, start: nat, written: seq<nat>, used: nat, final: nat, status: Status) {
    && start <= final <= |q.names| && used <= |cells|
    && written == Matching(q, start, final) && Lists(q, written, start, final)
    && (status == Success <==> written != [])
    && (status == Success ==> used > 0 && Visits(q, Walk(cells, 0), written, used))
    && (status != Success ==> used == 0)
    && (status == NoMoreFiles ==> final == |q.names|)
    && (status == Overflow ==> final < |q.names| && q.matches(q.names[final]) && !Fits(q, final, |cells|))
  }

  /** Entry `i` fits in what is left, and in the scratch it is built in. */
  predicate Fits(q: Query, i: nat, remaining: nat)
    requires i < |q.names|
  {
    SizeOf(q, i) <= remaining && SizeOf(q, i) <= q.entryMax
  }

  /** DirCtrlEnumerateDirectoryEntries. */
  method Enumerate(q: Query, start: nat, single: bool, out: array<Option<Record>>)
    returns (status: Status, used: nat, final: nat, ghost written: seq<nat>)
    requires start <= |q.names| && q.base > 0
    modifies out
    ensures PageOk(q, out[..], start, written, used, final, status)
    ensures single ==> |written| <= 1
    ensures status == Success && final < |q.names| && !single ==> q.matches(q.names[final]) && !Fits(q, final, out.Length - used)
  {
    var index: nat, total: nat, last: nat := start, |q.names|, 0;
    used, written := 0, [];
    ghost var offsets: seq<nat> := [];
    var full := false;
    while index < total && !full && !(single && used > 0)
      invariant start <= index <= total && used <= out.Length && written == Matching(q, start, index)
      invariant LaidOut(q, written, offsets, used) && Placed(q, out[..], written, offsets)
      invariant (used > 0 <==> written != []) && (used > 0 ==> last == offsets[|offsets| - 1]) && (single ==> |written| <= 1)
      invariant index < total && !(single && used > 0) ==> Continues(q, out[..], written, offsets)
      invariant full ==> index < total && q.matches(q.names[index]) && !Fits(q, index, out.Length - used)
      decreases total - index, if full then 0 else 1
    {
      if q.matches(q.names[index]) {
        var size := SizeOf(q, index);
        if size > out.Length - used || size > q.entryMax {
          full := true;
        } else {
          Place(q, out, used, index, if single || index == total - 1 then 0 else size, written, offsets);
          written, offsets := written + [index], offsets + [used];
          last, used, index := used, used + size, index + 1;
        }
      } else {
        index := index + 1;
      }
    }
    final := index;
    MatchingLists(q, start, final);
    if used > 0 {
      EndPage(q, out, written, offsets, used, last);
      status := Success;
    } else {
      status := if full then Overflow else NoMoreFiles;
    }
  }

  /** NextEntryOffset of the record written last is zeroed. */
  method EndPage(q: Query, out: array<Option<Record>>, ghost written: seq<nat>, ghost offsets: seq<nat>, ghost used: nat, last: nat)
    requires LaidOut(q, written, offsets, used) && Placed(q, out[..], written, offsets) && q.base > 0
    requires written != [] && last == offsets[|offsets| - 1]
    modifies out
    ensures Visits(q, Walk(out[..], 0), written, used)
  {
    ghost var cells := out[..];
    assert RecordAt(q, cells, written, offsets, |written| - 1);
    out[last] := Some(out[last].value.(next := 0));
    forall k | 0 <= k < |written| ensures RecordAt(q, out[..], written, offsets, k) {
      assert RecordAt(q, cells, written, offsets, k);
      if k + 1 < |written| { OffsetsRise(q, written, offsets, used, k); }
    }
    WalkVisitsAll(q, out[..], written, offsets, used, 0);
    assert written[0..] == written;
  }

  lemma {:induction false} OffsetsRise(q: Query, written: seq<nat>, offsets: seq<nat>, used: nat, k: nat)
    requires LaidOut(q, written, offsets, used) && k + 1 < |written| && q.base > 0
    ensures offsets[k] < offsets[|offsets| - 1]
    decreases |written| - k
  {
    assert Adjacent(q, written, offsets, used, k);
    if k + 2 < |written| { OffsetsRise(q, written, offsets, used, k + 1); }
  }

  // ---- one pass in any number of queries ----

  datatype Page = Page(cells: seq<Option<Record>>, written: seq<nat>, used: nat, status: Status)

  function Entries(pages: seq<Page>): seq<nat> {
    if pages == [] then [] else Entries(pages[..|pages| - 1]) + pages[|pages| - 1].written
  }

  /** Every buffer, and the scratch, holds any one entry. */
  ghost predicate AllFit(q: Query, lengths: seq<nat>) {
    forall n, i | 0 <= n < |lengths| && 0 <= i < |q.names| :: Fits(q, i, lengths[n])
  }

  /**
    Any sequence of buffer lengths, single or not: the pages put together
    are the matching entries in listing order up to where the handle has
    come, none skipped and none repeated; all of them once a query reports
    no more files, which buffers that hold any one entry bring about within
    one query more than there are matching entries.
  */
  method PageThrough(q: Query, lengths: seq<nat>, single: nat -> bool) returns (ghost pages: seq<Page>, current: nat, done: bool)
    requires q.base > 0
    ensures current <= |q.names| && Lists(q, Entries(pages), 0, current)
    ensures done ==> current == |q.names|
    ensures forall i | 0 <= i < |pages| && pages[i].status == Success :: pages[i].written != [] && Visits(q, Walk(pages[i].cells, 0), pages[i].written, pages[i].used)
    ensures !done ==> |pages| == |lengths|
    ensures AllFit(q, lengths) && |lengths| > |Matching(q, 0, |q.names|)| ==> done
  {
    pages, current, done := [], 0, false;
    var n := 0;
    while n < |lengths| && !done
      invariant n <= |lengths| && current <= |q.names| && Entries(pages) == Matching(q, 0, current) && |pages| == n
      invariant done ==> current == |q.names|
      invariant AllFit(q, lengths) ==> done || n <= |Entries(pages)|
      invariant forall i | 0 <= i < |pages| && pages[i].status == Success :: pages[i].written != [] && Visits(q, Walk(pages[i].cells, 0), pages[i].written, pages[i].used)
    {
      var out := new Option<Record>[lengths[n]](_ => None);
      var status, used, final, written := Enumerate(q, current, single(n), out);
      MatchingConcat(q, 0, current, final);
      ghost var page := Page(out[..], written, used, status);
      assert (pages + [page])[..|pages|] == pages;
      pages := pages + [page];
      current, done, n := final, status == NoMoreFiles, n + 1;
    }
    MatchingConcat(q, 0, current, |q.names|);
    MatchingLists(q, 0, current);
  }
}
