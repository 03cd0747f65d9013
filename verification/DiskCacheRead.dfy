/**
  How a read is cut into parts and a body into blocks, in src/DiskCache.c:
  BlorgDiskCacheRead's loop over runs of held and missing blocks, and
  DiskCacheFill's copies of whole blocks.
*/
module DiskCacheRead {
  import opened DiskCachePlan
  import opened DiskCacheIndex

  const BLOCK: nat := 65536
  const PAGE: nat := 4096

  /** `valid` rounded up to whole pages: what is read from the cache file. */
  function Span(valid: nat): (r: nat)
    ensures valid <= r < valid + PAGE && r % PAGE == 0
  {
    (valid + PAGE - 1) / PAGE * PAGE
  }

  function FirstBlock(offset: nat): nat {
    offset / BLOCK
  }

  /** The block, counted from the read's first, that byte `x` of the read falls in. */
  function BlockAt(offset: nat, x: nat): nat {
    (offset + x) / BLOCK - FirstBlock(offset)
  }

  function BlockCount(offset: nat, valid: nat): nat
    requires valid > 0
  {
    BlockAt(offset, Span(valid) - 1) + 1
  }

  /** Bytes `[from, from + length)` of the read: fetched, or read from the cache file from `slot` on. */
  datatype Part = Part(from: nat, length: nat, slot: nat)

  predicate InPart(p: Part, x: nat) {
    p.from <= x < p.from + p.length
  }

  /** Where in the cache file byte `x` of a held part is read from. */
  function DiskAddress(offset: nat, p: Part, x: nat): nat
    requires InPart(p, x)
  {
    p.slot * BLOCK + (offset + p.from) % BLOCK + (x - p.from)
  }

  /** A fetched part asks only for bytes that exist; a held part's bytes lie where their blocks' slots do. */
  ghost predicate PartOk(offset: nat, valid: nat, w: seq<nat>, p: Part) {
    && p.length > 0 && p.from < valid && p.from + p.length <= Span(valid)
    && (p.slot == NO_SLOT ==> p.from + p.length <= valid)
    && (forall x | InPart(p, x) :: SourceOk(offset, w, p, x))
  }

  predicate SourceOk(offset: nat, w: seq<nat>, p: Part, x: nat) {
    var i := BlockAt(offset, x);
    i < |w| && InPart(p, x) &&
    if p.slot == NO_SLOT then w[i] == NO_SLOT
    else w[i] != NO_SLOT && DiskAddress(offset, p, x) == w[i] * BLOCK + (offset + x) % BLOCK
  }

  /** Where the first `n` parts end. */
  function EndOf(parts: seq<Part>): nat {
    if parts == [] then 0 else parts[|parts| - 1].from + parts[|parts| - 1].length
  }

  /** Each part begins where the one before it ends. */
  ghost predicate Consecutive(parts: seq<Part>) {
    forall j | 0 <= j < |parts| :: parts[j].from == EndOf(parts[..j])
  }

  function Fetches(parts: seq<Part>): nat {
    if parts == [] then 0 else Fetches(parts[..|parts| - 1]) + (if parts[|parts| - 1].slot == NO_SLOT then 1 else 0)
  }

  ghost predicate PartsOk(offset: nat, valid: nat, w: seq<nat>, parts: seq<Part>) {
    Consecutive(parts) && forall j | 0 <= j < |parts| :: PartOk(offset, valid, w, parts[j])
  }

  // ---- runs of blocks ----

  /** Blocks `[i, i + n)` are one run: all missing, or in consecutive slots. */
  predicate OneRun(w: seq<nat>, i: nat, n: nat) {
    i + n <= |w| && n > 0 &&
    if w[i] == NO_SLOT then forall j | i <= j < i + n :: w[j] == NO_SLOT
    else forall j | i <= j < i + n :: w[j] == w[i] + (j - i) && w[j] != NO_SLOT
  }

  /** The run from block `i` goes no further than `n` blocks. */
  predicate RunEnds(w: seq<nat>, i: nat, n: nat) {
    i + n == |w| || (i + n < |w| && if w[i] == NO_SLOT then w[i + n] != NO_SLOT else w[i + n] != w[i] + n)
  }

  method RunFrom(w: seq<nat>, i: nat) returns (run: nat)
    requires i < |w| && forall j | 0 <= j < |w| && w[j] != NO_SLOT :: w[j] + |w| < NO_SLOT
    ensures OneRun(w, i, run) && RunEnds(w, i, run)
  {
    run := 1;
    while i + run < |w| && (if w[i] == NO_SLOT then w[i + run] == NO_SLOT else w[i + run] == w[i] + run)
      invariant i + run <= |w| && OneRun(w, i, run)
    {
      run := run + 1;
    }
  }

  /** The part a run gives, from byte `issued` on. */
  function PartOf(offset: nat, valid: nat, w: seq<nat>, issued: nat, run: nat): Part
    requires BlockAt(offset, issued) < |w| && issued < valid && run > 0
  {
    var slot := w[BlockAt(offset, issued)];
    var runEnd := (FirstBlock(offset) + BlockAt(offset, issued) + run) * BLOCK;
    var stop := if slot == NO_SLOT then valid else Span(valid);
    Part(issued, if runEnd - (offset + issued) < stop - issued then runEnd - (offset + issued) else stop - issued, slot)
  }

  lemma RunPart(offset: nat, valid: nat, w: seq<nat>, issued: nat, run: nat)
    requires valid > 0 && |w| == BlockCount(offset, valid) && issued < valid && OneRun(w, BlockAt(offset, issued), run)
    ensures BlockAt(offset, issued) < |w|
    ensures PartOk(offset, valid, w, PartOf(offset, valid, w, issued, run))
  {
    var i := BlockAt(offset, issued);
    var p := PartOf(offset, valid, w, issued, run);
    forall x | InPart(p, x) ensures SourceOk(offset, w, p, x) {
      var j := BlockAt(offset, x);
      assert i <= j < i + run;
      assert offset + issued == (FirstBlock(offset) + i) * BLOCK + (offset + issued) % BLOCK;
      assert offset + x == (FirstBlock(offset) + j) * BLOCK + (offset + x) % BLOCK;
    }
  }

  // ---- the whole read ----

  lemma {:induction false} RunMissing(m: seq<bool>, i: nat, n: nat)
    requires i + n <= |m| && n > 0 && (forall j | i <= j < i + n :: m[j] == m[i]) && (i == 0 || !m[i] || !m[i - 1])
    ensures RunsTo(m, i + n) == RunsTo(m, i) + (if m[i] then 1 else 0)
  {
    if n > 1 { RunMissing(m, i, n - 1); }
  }

  lemma ConsecutiveAppend(parts: seq<Part>, p: Part)
    requires Consecutive(parts) && p.from == EndOf(parts)
    ensures Consecutive(parts + [p]) && EndOf(parts + [p]) == p.from + p.length
    ensures Fetches(parts + [p]) == Fetches(parts) + (if p.slot == NO_SLOT then 1 else 0)
  {
    var ps := parts + [p];
    forall j | 0 <= j < |ps| ensures ps[j].from == EndOf(ps[..j]) {
      assert ps[..j] == parts[..j];
      if j == |parts| { assert parts[..j] == parts; }
    }
    assert ps[..|ps| - 1] == parts;
  }

  /** What one pass of the loop knows: everything before `issued` is covered, by one fetch for each missing run. */
  ghost predicate SplitSoFar(offset: nat, valid: nat, w: seq<nat>, parts: seq<Part>, issued: nat) {
    && PartsOk(offset, valid, w, parts) && EndOf(parts) == issued
    && (issued >= Span(valid) ==> Fetches(parts) == Runs(Missing(w)))
    && (issued < Span(valid) ==> (issued == 0 || (offset + issued) % BLOCK == 0) && BlockAt(offset, issued) < |w| &&
                                 Fetches(parts) == RunsTo(Missing(w), BlockAt(offset, issued)) &&
                                 (BlockAt(offset, issued) == 0 || w[BlockAt(offset, issued)] != NO_SLOT || w[BlockAt(offset, issued) - 1] != NO_SLOT))
  }

  lemma BlockInRead(offset: nat, valid: nat, x: nat)
    requires valid > 0 && x < Span(valid)
    ensures BlockAt(offset, x) < BlockCount(offset, valid)
  {
  }

  /** Bytes already issued reach a page boundary, so what is left to read is never past the valid bytes alone. */
  lemma IssuedBelowValid(offset: nat, valid: nat, issued: nat)
    requires offset % PAGE == 0 && issued < Span(valid) && (issued == 0 || (offset + issued) % BLOCK == 0) && valid > 0
    ensures issued < valid
  {
  }

  /** A part that does not end the read ends where a run of blocks does. */
  lemma PartEndsAtBlock(offset: nat, valid: nat, w: seq<nat>, issued: nat, run: nat)
    requires valid > 0 && |w| == BlockCount(offset, valid) && BlockAt(offset, issued) < |w| && issued < valid && run > 0
    ensures var p := PartOf(offset, valid, w, issued, run); var next := issued + p.length;
            next < Span(valid) && !(p.slot == NO_SLOT && next == valid) ==>
              (offset + next) % BLOCK == 0 && BlockAt(offset, next) == BlockAt(offset, issued) + run < |w|
  {
    var i, next := BlockAt(offset, issued), issued + PartOf(offset, valid, w, issued, run).length;
    if next < Span(valid) && !(w[i] == NO_SLOT && next == valid) {
      assert offset + next == (FirstBlock(offset) + i + run) * BLOCK;
      BlockInRead(offset, valid, next);
    }
  }

  /** A part that does end the read takes in the last of its blocks. */
  lemma LastPartEndsBlocks(offset: nat, valid: nat, w: seq<nat>, issued: nat, run: nat)
    requires valid > 0 && |w| == BlockCount(offset, valid) && offset % PAGE == 0 && issued < valid && run > 0 && BlockAt(offset, issued) + run <= |w|
    ensures var p := PartOf(offset, valid, w, issued, run); var next := issued + p.length;
            next >= Span(valid) || (p.slot == NO_SLOT && next == valid) ==> BlockAt(offset, issued) + run == |w|
  {
    var i, p := BlockAt(offset, issued), PartOf(offset, valid, w, issued, run);
    var runEnd := (FirstBlock(offset) + i + run) * BLOCK;
    if issued + p.length >= Span(valid) || (p.slot == NO_SLOT && issued + p.length == valid) {
      assert runEnd >= offset + valid;
      assert offset + Span(valid) - 1 < (FirstBlock(offset) + i + run) * BLOCK by { SpanInBlock(offset, valid, FirstBlock(offset) + i + run); }
      assert (offset + Span(valid) - 1) / BLOCK < FirstBlock(offset) + i + run;
    }
  }

  /** Rounding up to whole pages goes past no block's end. */
  lemma SpanInBlock(offset: nat, valid: nat, blocks: nat)
    requires offset % PAGE == 0 && offset + valid <= blocks * BLOCK
    ensures offset + Span(valid) <= blocks * BLOCK
  {
    var a, b := offset / PAGE, Span(valid) / PAGE;
    assert offset == a * PAGE && Span(valid) == b * PAGE && blocks * BLOCK == (16 * blocks) * PAGE;
    assert (a + b) * PAGE < (16 * blocks + 1) * PAGE;
  }

  lemma SplitParts(offset: nat, valid: nat, w: seq<nat>, parts: seq<Part>, issued: nat, run: nat, p: Part)
    requires valid > 0 && |w| == BlockCount(offset, valid) && PartsOk(offset, valid, w, parts) && EndOf(parts) == issued
    requires issued < valid && OneRun(w, BlockAt(offset, issued), run)
    requires p == PartOf(offset, valid, w, issued, run)
    ensures PartsOk(offset, valid, w, parts + [p]) && EndOf(parts + [p]) == issued + p.length
    ensures Fetches(parts + [p]) == Fetches(parts) + if w[BlockAt(offset, issued)] == NO_SLOT then 1 else 0
    ensures p.length > 0 && issued + p.length <= Span(valid)
  {
    RunPart(offset, valid, w, issued, run);
    ConsecutiveAppend(parts, p);
  }

  lemma SplitStep(offset: nat, valid: nat, w: seq<nat>, parts: seq<Part>, issued: nat, run: nat, p: Part)
    requires valid > 0 && |w| == BlockCount(offset, valid) && offset % PAGE == 0 && SplitSoFar(offset, valid, w, parts, issued)
    requires issued < valid && OneRun(w, BlockAt(offset, issued), run) && RunEnds(w, BlockAt(offset, issued), run)
    requires p == PartOf(offset, valid, w, issued, run)
    ensures PartsOk(offset, valid, w, parts + [p]) && EndOf(parts + [p]) == issued + p.length
    ensures p.slot == NO_SLOT && issued + p.length == valid ==> Fetches(parts + [p]) == Runs(Missing(w))
    ensures p.length > 0 && issued + p.length <= Span(valid)
    ensures (p.slot == NO_SLOT && issued + p.length == valid) || SplitSoFar(offset, valid, w, parts + [p], issued + p.length)
  {
    SplitParts(offset, valid, w, parts, issued, run, p);
    RunMissing(Missing(w), BlockAt(offset, issued), run);
    LastPartEndsBlocks(offset, valid, w, issued, run);
    PartEndsAtBlock(offset, valid, w, issued, run);
  }

  /**
    BlorgDiskCacheRead's loop: the parts follow one another without gap or
    overlap to the end of the valid bytes, and take one fetch for each run of
    missing blocks.
  */
  method SplitRead(offset: nat, valid: nat, w: seq<nat>) returns (parts: seq<Part>)
    requires offset % PAGE == 0 && valid > 0 && |w| == BlockCount(offset, valid)
    requires forall j | 0 <= j < |w| && w[j] != NO_SLOT :: w[j] + |w| < NO_SLOT
    ensures PartsOk(offset, valid, w, parts) && valid <= EndOf(parts) <= Span(valid)
    ensures Fetches(parts) == Runs(Missing(w))
  {
    parts := [];
    var issued := 0;
    while issued < Span(valid)
      invariant issued <= Span(valid) && SplitSoFar(offset, valid, w, parts, issued)
    {
      IssuedBelowValid(offset, valid, issued);
      var run := RunFrom(w, BlockAt(offset, issued));
      var p := PartOf(offset, valid, w, issued, run);
      SplitStep(offset, valid, w, parts, issued, run, p);
      parts := parts + [p];
      if p.slot == NO_SLOT && issued + p.length == valid {
        break;
      }
      issued := issued + p.length;
    }
  }

  lemma {:induction false} EveryByteInAPart(parts: seq<Part>, x: nat) returns (j: nat)
    requires Consecutive(parts) && x < EndOf(parts)
    ensures j < |parts| && InPart(parts[j], x)
  {
    var last := parts[|parts| - 1];
    if last.from <= x {
      j := |parts| - 1;
    } else {
      var rest := parts[..|parts| - 1];
      assert forall k | 0 <= k < |rest| :: rest[..k] == parts[..k];
      j := EveryByteInAPart(rest, x);
    }
  }

  // ---- blocks of a file ----

  type Byte = bv8

  function Zeros(n: nat): (z: seq<Byte>)
    ensures |z| == n && forall i | 0 <= i < n :: z[i] == 0
  {
    seq(n, _ => 0)
  }

  function StopOf(block: nat, size: nat): nat {
    if (block + 1) * BLOCK < size then (block + 1) * BLOCK else size
  }

  /** One block of a file, the last padded with zeros. */
  function BlockBytes(content: seq<Byte>, block: nat): (r: seq<Byte>)
    requires block * BLOCK <= |content|
    ensures |r| == BLOCK
  {
    var bytes := content[block * BLOCK..StopOf(block, |content|)];
    bytes + Zeros(BLOCK - |bytes|)
  }

  /** Byte `p` of a file is byte `p % BLOCK` of its block. */
  lemma BlockByte(content: seq<Byte>, p: nat)
    requires p < |content|
    ensures p / BLOCK * BLOCK <= |content| && BlockBytes(content, p / BLOCK)[p % BLOCK] == content[p]
  {
  }

  /** A block is offered to the cache when the body holds all of it that the file has. */
  predicate Offered(offset: nat, length: nat, size: nat, block: nat) {
    offset <= block * BLOCK < size && StopOf(block, size) <= offset + length
  }

  /** What DiskCacheFill copies for one block. */
  function FillBuffer(source: seq<Byte>, offset: nat, size: nat, block: nat): seq<Byte>
    requires Offered(offset, |source|, size, block)
  {
    var bytes := source[block * BLOCK - offset..StopOf(block, size) - offset];
    bytes + Zeros(BLOCK - |bytes|)
  }

  /** Every copy made from a body of the right version is the block it is stored as. */
  lemma FillIsBlock(content: seq<Byte>, source: seq<Byte>, offset: nat, block: nat)
    requires offset + |source| <= |content| && source == content[offset..offset + |source|] && Offered(offset, |source|, |content|, block)
    ensures block * BLOCK <= |content| && FillBuffer(source, offset, |content|, block) == BlockBytes(content, block)
  {
    var a, b := block * BLOCK, StopOf(block, |content|);
    forall k | 0 <= k < b - a ensures source[a - offset..b - offset][k] == content[a..b][k] {
      assert source[a - offset + k] == content[a + k];
    }
    assert source[a - offset..b - offset] == content[a..b];
  }

  /** DiskCacheBlocksLeft. */
  function BlocksLeft(block: nat, end: nat, size: nat): int {
    end / BLOCK - block + (if end == size && end % BLOCK != 0 then 1 else 0)
  }

  datatype Copy = Copy(block: nat, buffer: seq<Byte>)

  /** The first block that starts within a body at `offset`. */
  function FirstWhole(offset: nat): nat {
    (offset + BLOCK - 1) / BLOCK
  }

  /** The copies of consecutive blocks of a file, from block `first` on. */
  ghost predicate CopiesOk(copies: seq<Copy>, first: nat, content: seq<Byte>) {
    forall k | 0 <= k < |copies| ::
      copies[k].block == first + k && copies[k].block * BLOCK <= |content| && copies[k].buffer == BlockBytes(content, copies[k].block)
  }

  /**
    DiskCacheFill's loop, when neither the backlog nor an allocation stops
    it: each block the body covers, once and in order, with its bytes.
  */
  method OfferBlocks(source: seq<Byte>, offset: nat, size: nat, ghost content: seq<Byte>) returns (copies: seq<Copy>)
    requires |content| == size && (offset + |source| <= size ==> source == content[offset..offset + |source|])
    ensures CopiesOk(copies, FirstWhole(offset), content)
    ensures |source| == 0 || offset + |source| > size ==> copies == []
    ensures |source| > 0 && offset + |source| <= size ==>
              forall b: nat :: Offered(offset, |source|, size, b) <==> FirstWhole(offset) <= b < FirstWhole(offset) + |copies|
  {
    copies := [];
    if |source| == 0 || offset > size || |source| > size - offset {
      return;
    }
    var block := FirstWhole(offset);
    while block * BLOCK < StopOf(block, size) && StopOf(block, size) <= offset + |source|
      invariant block == FirstWhole(offset) + |copies| && CopiesOk(copies, FirstWhole(offset), content)
      invariant forall b: nat | FirstWhole(offset) <= b < block :: Offered(offset, |source|, size, b)
      decreases size + 1 - block
    {
      FillIsBlock(content, source, offset, block);
      copies := copies + [Copy(block, FillBuffer(source, offset, size, block))];
      block := block + 1;
    }
    forall b: nat | Offered(offset, |source|, size, b) ensures FirstWhole(offset) <= b < block {
      NotOfferedAfter(offset, |source|, size, block, b);
    }
  }

  lemma NotOfferedAfter(offset: nat, length: nat, size: nat, block: nat, b: nat)
    requires !(block * BLOCK < StopOf(block, size) && StopOf(block, size) <= offset + length) && Offered(offset, length, size, b)
    ensures FirstWhole(offset) <= b < block
  {
  }

  /** What DiskCacheBlocksLeft counts from a block the body covers is how many such blocks are left. */
  lemma {:induction false} BlocksLeftCounts(offset: nat, length: nat, size: nat, block: nat, n: nat)
    requires offset + length <= size && n > 0 && offset <= block * BLOCK
    requires forall b: nat | block <= b :: Offered(offset, length, size, b) <==> b < block + n
    ensures BlocksLeft(block, offset + length, size) == n
  {
    assert Offered(offset, length, size, block + n - 1);
    assert !Offered(offset, length, size, block + n);
  }
}
