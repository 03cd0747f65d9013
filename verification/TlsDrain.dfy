/**
  The TLS receive path of src/Client.c: ciphertext arrives in any pieces into
  a socket's accumulator, and the drain loop takes whole records out of it.
  Decryption is an oracle that is told the sequence number; the record limit
  is a parameter, at most what sections 5.1 and 5.2 of RFC 8446 allow.
*/
module TlsDrain {
  import opened Options

  type Byte = b: int | 0 <= b < 256

  const HEADER: nat := 5
  const TAG_LEN: nat := 16
  const CHANGE_CIPHER: Byte := 0x14
  const ALERT: Byte := 0x15
  const DATA: Byte := 0x17
  const HANDSHAKE: Byte := 0x16

  // ---- framing a whole stream ----

  function DeclaredLength(s: seq<Byte>): nat
    requires |s| >= HEADER
  {
    (s[3] as int) * 256 + (s[4] as int)
  }

  /** A header the drain loop refuses outright. */
  predicate BadHeader(s: seq<Byte>, max: nat)
    requires |s| >= HEADER
  {
    s[0] == ALERT || DeclaredLength(s) > max || (s[0] != DATA && s[0] != CHANGE_CIPHER)
  }

  /** `r` is one record: an acceptable header and exactly the bytes it declares. */
  predicate IsRecord(r: seq<Byte>, max: nat) {
    |r| >= HEADER && !BadHeader(r, max) && |r| == HEADER + DeclaredLength(r)
  }

  /** The whole stream cut into records: those complete, then what is left of it. */
  datatype Framing = Framing(records: seq<seq<Byte>>, rest: seq<Byte>)

  /** A complete record stands at the front of `s`. */
  predicate Complete(s: seq<Byte>, max: nat) {
    |s| >= HEADER && !BadHeader(s, max) && |s| >= HEADER + DeclaredLength(s)
  }

  function FirstLength(s: seq<Byte>): nat
    requires |s| >= HEADER
  {
    HEADER + DeclaredLength(s)
  }

  function Frame(s: seq<Byte>, max: nat): (f: Framing) {
    if !Complete(s, max) then Framing([], s)
    else
      var f := Frame(s[FirstLength(s)..], max);
      Framing([s[..FirstLength(s)]] + f.records, f.rest)
  }

  function Flatten(q: seq<seq<Byte>>): seq<Byte> {
    if q == [] then [] else q[0] + Flatten(q[1..])
  }

  lemma {:induction false} FlattenAppend(q: seq<seq<Byte>>, r: seq<Byte>)
    ensures Flatten(q + [r]) == Flatten(q) + r
  {
    if q == [] {
      assert [] + [r] == [r] && [r][1..] == [];
    } else {
      assert (q + [r])[0] == q[0] && (q + [r])[1..] == q[1..] + [r];
      FlattenAppend(q[1..], r);
      assert q[0] + (Flatten(q[1..]) + r) == (q[0] + Flatten(q[1..])) + r;
    }
  }

  /** `q` and `rest` are a way to cut `s` into whole records with none left over. */
  ghost predicate Cuts(s: seq<Byte>, q: seq<seq<Byte>>, rest: seq<Byte>, max: nat) {
    s == Flatten(q) + rest && !Complete(rest, max) && forall i | 0 <= i < |q| :: IsRecord(q[i], max)
  }

  lemma CutsCons(r: seq<Byte>, t: seq<Byte>, q: seq<seq<Byte>>, rest: seq<Byte>, max: nat)
    requires IsRecord(r, max) && Cuts(t, q, rest, max)
    ensures Cuts(r + t, [r] + q, rest, max)
  {
    assert ([r] + q)[1..] == q;
    Assoc(r, Flatten(q), rest);
  }

  /** Framing loses nothing: the records and the rest are the stream, every record whole, and no record left at the front of the rest. */
  lemma {:induction false} FrameIsStream(s: seq<Byte>, max: nat)
    ensures Cuts(s, Frame(s, max).records, Frame(s, max).rest, max)
    decreases |s|
  {
    if Complete(s, max) {
      var n := FirstLength(s);
      var r, t := s[..n], s[n..];
      FrameIsStream(t, max);
      FirstIsRecord(s, r, max);
      CutsCons(r, t, Frame(t, max).records, Frame(t, max).rest, max);
      assert s == r + t;
    } else {
      assert s == Flatten([]) + s;
    }
  }

  lemma FrontRecord(s: seq<Byte>, q: seq<seq<Byte>>, rest: seq<Byte>, max: nat)
    requires Cuts(s, q, rest, max) && q != []
    ensures Complete(s, max) && FirstLength(s) == |q[0]| && s[..FirstLength(s)] == q[0]
    ensures Cuts(s[FirstLength(s)..], q[1..], rest, max)
  {
    var r, t := q[0], Flatten(q[1..]) + rest;
    assert s == r + t;
    assert s[..|r|] == r && s[|r|..] == t;
    assert DeclaredLength(s) == DeclaredLength(r);
  }

  /** There is one way to cut a stream, and framing it whole finds it. */
  lemma {:induction false} CutsAreFrame(s: seq<Byte>, q: seq<seq<Byte>>, rest: seq<Byte>, max: nat)
    requires Cuts(s, q, rest, max)
    ensures Frame(s, max) == Framing(q, rest)
    decreases |q|
  {
    if q == [] {
      assert s == rest;
    } else {
      FrontRecord(s, q, rest, max);
      CutsAreFrame(s[FirstLength(s)..], q[1..], rest, max);
      assert q == [q[0]] + q[1..];
    }
  }

  lemma {:induction false} FlattenConcat(a: seq<seq<Byte>>, b: seq<seq<Byte>>)
    ensures Flatten(a + b) == Flatten(a) + Flatten(b)
  {
    if b == [] {
      assert a + b == a;
    } else {
      var init, r := b[..|b| - 1], b[|b| - 1];
      FlattenConcat(a, init);
      FlattenAppend(a + init, r);
      FlattenAppend(init, r);
      assert a + b == (a + init) + [r] && b == init + [r];
      assert Flatten(a) + (Flatten(init) + r) == (Flatten(a) + Flatten(init)) + r;
    }
  }

  lemma CutsPrepend(q: seq<seq<Byte>>, pending: seq<Byte>, q': seq<seq<Byte>>, rest: seq<Byte>, max: nat)
    requires Cuts(pending, q', rest, max) && forall i | 0 <= i < |q| :: IsRecord(q[i], max)
    ensures Cuts(Flatten(q) + pending, q + q', rest, max)
  {
    FlattenConcat(q, q');
    Assoc(Flatten(q), Flatten(q'), rest);
    forall i | 0 <= i < |q + q'| ensures IsRecord((q + q')[i], max) {
      assert (q + q')[i] == if i < |q| then q[i] else q'[i - |q|];
    }
  }

  lemma Assoc(a: seq<Byte>, b: seq<Byte>, c: seq<Byte>)
    ensures a + (b + c) == (a + b) + c
  {
  }

  lemma FrameCuts(s: seq<Byte>, max: nat) returns (q: seq<seq<Byte>>, rest: seq<Byte>)
    ensures Frame(s, max) == Framing(q, rest) && Cuts(s, q, rest, max)
  {
    FrameIsStream(s, max);
    q, rest := Frame(s, max).records, Frame(s, max).rest;
  }

  /** Records taken off the front are exactly the first of those framing the whole stream would give. */
  lemma TakenArePrefix(q: seq<seq<Byte>>, pending: seq<Byte>, max: nat)
    requires forall i | 0 <= i < |q| :: IsRecord(q[i], max)
    ensures q <= Frame(Flatten(q) + pending, max).records
  {
    var q', rest := FrameCuts(pending, max);
    CutsPrepend(q, pending, q', rest, max);
    CutsAreFrame(Flatten(q) + pending, q + q', rest, max);
  }

  lemma FirstIsRecord(s: seq<Byte>, r: seq<Byte>, max: nat)
    requires Complete(s, max) && r == s[..FirstLength(s)]
    ensures IsRecord(r, max)
  {
    assert DeclaredLength(r) == DeclaredLength(s);
  }

  /** The front of `s` is a header refused outright, or a whole record that does not open under number `n`. */
  predicate RefusedAt(s: seq<Byte>, max: nat, open: (nat, seq<Byte>) -> Option<Inner>, n: nat) {
    |s| >= HEADER && (BadHeader(s, max) || (Complete(s, max) && !Accepted(open, n, s[..FirstLength(s)])))
  }

  /** The front of `s` is an unfinished record, of a header so far acceptable. */
  predicate Unfinished(s: seq<Byte>, max: nat) {
    !Complete(s, max) && (|s| >= HEADER ==> !BadHeader(s, max))
  }

  // ---- what the records carry ----

  /** A decrypted record: its inner content type and its content. */
  datatype Inner = Inner(kind: Byte, content: seq<Byte>)

  /** How many of the records are encrypted, and so use up a sequence number. */
  function Encrypted(q: seq<seq<Byte>>): nat {
    if q == [] then 0
    else Encrypted(q[..|q| - 1]) + (if |q[|q| - 1]| > 0 && q[|q| - 1][0] == DATA then 1 else 0)
  }

  /** The content of the records, each opened under its place among the encrypted ones. */
  function Plaintext(q: seq<seq<Byte>>, open: (nat, seq<Byte>) -> Option<Inner>): seq<Byte> {
    if q == [] then []
    else
      var init, r := q[..|q| - 1], q[|q| - 1];
      Plaintext(init, open) +
      (if |r| > 0 && r[0] == DATA && open(Encrypted(init), r).Some? && open(Encrypted(init), r).value.kind == DATA
       then open(Encrypted(init), r).value.content else [])
  }

  /** Every encrypted record opened, as application data or as a handshake message. */
  ghost predicate AllOpened(q: seq<seq<Byte>>, open: (nat, seq<Byte>) -> Option<Inner>) {
    forall i | 0 <= i < |q| && |q[i]| > 0 && q[i][0] == DATA ::
      |q[i]| > HEADER + TAG_LEN && Opens(open, Encrypted(q[..i]), q[i])
  }

  /** Record `r` is taken: unencrypted, or it opens under number `n`. */
  predicate Accepted(open: (nat, seq<Byte>) -> Option<Inner>, n: nat, r: seq<Byte>) {
    |r| > 0 && (r[0] == DATA ==> |r| > HEADER + TAG_LEN && Opens(open, n, r))
  }

  predicate Opens(open: (nat, seq<Byte>) -> Option<Inner>, n: nat, r: seq<Byte>) {
    open(n, r).Some? && (open(n, r).value.kind == DATA || open(n, r).value.kind == HANDSHAKE)
  }

  lemma AppendRecord(q: seq<seq<Byte>>, r: seq<Byte>, open: (nat, seq<Byte>) -> Option<Inner>)
    requires AllOpened(q, open) && |r| > 0 && (r[0] == DATA ==> |r| > HEADER + TAG_LEN && Opens(open, Encrypted(q), r))
    ensures AllOpened(q + [r], open)
    ensures Encrypted(q + [r]) == Encrypted(q) + (if r[0] == DATA then 1 else 0)
    ensures Plaintext(q + [r], open) ==
              Plaintext(q, open) + (if r[0] == DATA && open(Encrypted(q), r).value.kind == DATA then open(Encrypted(q), r).value.content else [])
  {
    var q' := q + [r];
    assert q'[..|q|] == q;
    forall i | 0 <= i < |q'| && |q'[i]| > 0 && q'[i][0] == DATA ensures |q'[i]| > HEADER + TAG_LEN && Opens(open, Encrypted(q'[..i]), q'[i]) {
      assert i < |q| ==> q'[..i] == q[..i];
    }
  }

  // ---- the socket's accumulator ----

  datatype Outcome = NeedMore | Enough | Failed

  class Receiver {
    const buf: array<Byte>             // TlsRecvBuffer
    const max: nat                     // TLS_RECORD_CIPHERTEXT_MAX
    const open: (nat, seq<Byte>) -> Option<Inner>
    var offset: nat                    // TlsRecvOffset
    var length: nat                    // TlsRecvLength
    var readSeq: nat                   // Tls.ReadSeq
    var plaintext: seq<Byte>           // delivered to the response
    ghost var received: seq<Byte>      // every byte the connection has received
    ghost var consumed: seq<seq<Byte>> // every record taken

    ghost predicate Valid()
      reads this, buf
    {
      && offset <= length <= buf.Length
      && received == Flatten(consumed) + buf[offset..length]
      && Taken(consumed, readSeq, plaintext, max, open)
    }

    constructor (capacity: nat, max: nat, open: (nat, seq<Byte>) -> Option<Inner>)
      ensures Valid() && fresh(buf) && buf.Length == capacity && this.max == max && this.open == open
      ensures offset == length == 0 && received == [] && consumed == []
    {
      buf := new Byte[capacity](_ => 0);
      this.max, this.open := max, open;
      offset, length, readSeq, plaintext := 0, 0, 0, [];
      received, consumed := [], [];
    }

    /** HttpOnTlsReceive: `chunk` has arrived in the free tail. */
    method Receive(chunk: seq<Byte>)
      requires Valid() && 0 < |chunk| <= buf.Length - length
      modifies buf, this`length, this`received
      ensures Valid() && received == old(received) + chunk && consumed == old(consumed)
      ensures length == old(length) + |chunk|
    {
      ghost var pending := buf[offset..length];
      Copy(chunk);
      ghost var whole := pending + chunk;
      assert buf[offset..length + |chunk|] == whole;
      assert Flatten(consumed) + whole == received + chunk;
      length := length + |chunk|;
      received := received + chunk;
    }

    method Copy(chunk: seq<Byte>)
      requires offset <= length && |chunk| <= buf.Length - length
      modifies buf
      ensures buf[offset..length] == old(buf[offset..length]) && buf[length..length + |chunk|] == chunk
    {
      for i := 0 to |chunk|
        invariant buf[..length] == old(buf[..length]) && buf[length..length + i] == chunk[..i]
      {
        buf[length + i] := chunk[i];
      }
      assert buf[offset..length] == buf[..length][offset..] && old(buf[offset..length]) == old(buf[..length])[offset..];
    }

    /** The first `n` bytes leave the accumulator as record `r`. */
    method Advance(n: nat, r: seq<Byte>)
      requires offset + n <= length <= buf.Length && r == buf[offset..offset + n] && received == Flatten(consumed) + buf[offset..length]
      modifies this`offset, this`consumed
      ensures offset == old(offset) + n && consumed == old(consumed) + [r] && received == Flatten(consumed) + buf[offset..length]
    {
      ghost var rest := buf[offset + n..length];
      assert buf[offset..length] == r + rest;
      FlattenAppend(consumed, r);
      assert Flatten(consumed) + (r + rest) == (Flatten(consumed) + r) + rest;
      consumed := consumed + [r];
      offset := offset + n;
    }

    /** Decrypts record `r` under the next sequence number and delivers its content. */
    method Open(r: seq<Byte>) returns (ok: bool)
      requires Taken(consumed, readSeq, plaintext, max, open) && IsRecord(r, max)
      modifies this`readSeq, this`plaintext
      ensures ok ==> Taken(consumed + [r], readSeq, plaintext, max, open)
      ensures ok == Accepted(open, old(readSeq), r)
      ensures !ok ==> plaintext == old(plaintext)
    {
      ok := true;
      if r[0] == DATA {
        if |r| < HEADER + TAG_LEN + 1 {
          return false;
        }
        var inner := open(readSeq, r);
        if inner.None? {
          return false;
        }
        readSeq := readSeq + 1;
        if inner.value.kind == DATA {
          plaintext := plaintext + inner.value.content;
        } else if inner.value.kind != HANDSHAKE {
          return false;
        }
      }
      AppendRecord(consumed, r, open);
    }

    /** Takes the record at the front, if it opens. */
    method TakeOne(n: nat, r: seq<Byte>) returns (ok: bool)
      requires Valid() && offset + n <= length && r == buf[offset..offset + n] && IsRecord(r, max)
      modifies this`offset, this`readSeq, this`plaintext, this`consumed
      ensures ok ==> Valid() && offset == old(offset) + n && consumed == old(consumed) + [r]
      ensures !ok ==> offset == old(offset) && consumed == old(consumed) && !Accepted(open, Encrypted(consumed), r)
    {
      ok := Open(r);
      if ok { Advance(n, r); }
    }

    /**
      The drain loop of HttpIssueTlsReceive. It takes every whole record
      until the response has enough (`more` says no) or one is refused.
    */
    method Drain(more: seq<Byte> -> bool) returns (outcome: Outcome)
      requires Valid()
      modifies this`offset, this`readSeq, this`plaintext, this`consumed
      ensures offset <= length <= buf.Length && received == Flatten(consumed) + buf[offset..length] && old(consumed) <= consumed
      ensures forall i | 0 <= i < |consumed| :: IsRecord(consumed[i], max)
      ensures outcome != Failed ==> Valid()
      ensures outcome == Enough ==> !more(plaintext)
      ensures outcome == NeedMore ==> Unfinished(buf[offset..length], max)
      ensures outcome == Failed ==> RefusedAt(buf[offset..length], max, open, Encrypted(consumed))
    {
      while true
        invariant Valid() && old(consumed) <= consumed
        decreases length - offset
      {
        var pending := buf[offset..length];
        if |pending| < HEADER { return NeedMore; }
        if BadHeader(pending, max) { return Failed; }
        var n := FirstLength(pending);
        if |pending| < n { return NeedMore; }
        var r := buf[offset..offset + n];
        assert pending[..n] == r;
        FirstIsRecord(pending, r, max);
        var ok := TakeOne(n, r);
        if !ok { return Failed; }
        if r[0] == DATA && !more(plaintext) { return Enough; }
      }
    }

    /** Resets a drained accumulator, or moves a partial record to the front once the tail is too short for a whole one. */
    method Compact()
      requires Valid()
      modifies buf, this`offset, this`length
      ensures Valid() && buf[offset..length] == old(buf[offset..length])
      ensures offset == 0 || HEADER + max <= buf.Length - length
      ensures old(offset) == old(length) ==> length == 0
    {
      if offset == length {
        length, offset := 0, 0;
      } else if offset != 0 && buf.Length - length < HEADER + max {
        ghost var pending := buf[offset..length];
        var n := length - offset;
        for i := 0 to n
          invariant offset == old(offset) && length == old(length)
          invariant buf[..i] == pending[..i] && buf[offset + i..length] == pending[i..]
        {
          assert buf[offset + i] == pending[i];
          buf[i] := buf[offset + i];
        }
        length := n;
        offset := 0;
        assert buf[..n] == pending;
      }
    }
  }

  /** The records taken have been opened under consecutive numbers, and their content delivered. */
  ghost predicate Taken(q: seq<seq<Byte>>, readSeq: nat, plaintext: seq<Byte>, max: nat, open: (nat, seq<Byte>) -> Option<Inner>) {
    && (forall i | 0 <= i < |q| :: IsRecord(q[i], max))
    && readSeq == Encrypted(q) && AllOpened(q, open) && plaintext == Plaintext(q, open)
  }

  // ---- main results ----

  /** Whenever the drain loop asks for more, it has taken exactly the records that framing the whole stream gives. */
  lemma DrainedIsFramed(r: Receiver)
    requires r.Valid() && !Complete(r.buf[r.offset..r.length], r.max)
    ensures Frame(r.received, r.max) == Framing(r.consumed, r.buf[r.offset..r.length])
    ensures r.readSeq == Encrypted(Frame(r.received, r.max).records) && r.plaintext == Plaintext(Frame(r.received, r.max).records, r.open)
  {
    CutsAreFrame(r.received, r.consumed, r.buf[r.offset..r.length], r.max);
  }

  /** And at any time, whatever it has taken is the first of them. */
  lemma TakenIsFramedPrefix(r: Receiver)
    requires r.Valid()
    ensures r.consumed <= Frame(r.received, r.max).records
  {
    TakenArePrefix(r.consumed, r.buf[r.offset..r.length], r.max);
  }

  /** After a drain that needs more and its compaction, the receive it posts is never empty if the accumulator holds a largest record. */
  lemma ReceiveNeverEmpty(r: Receiver)
    requires r.Valid() && HEADER + r.max <= r.buf.Length
    requires Unfinished(r.buf[r.offset..r.length], r.max)
    requires r.offset == 0 || HEADER + r.max <= r.buf.Length - r.length
    ensures r.length < r.buf.Length
  {
  }

  /** The start of a data record that declares `n` bytes. */
  function Partial(n: nat, have: nat): (s: seq<Byte>)
    requires n < 65536
    ensures |s| == have
  {
    var header := [DATA, 3, 3, n / 256, n % 256];
    if have <= HEADER then header[..have] else header + seq(have - HEADER, _ => 0)
  }

  /** A smaller accumulator can fill up with part of one record, and then posts an empty receive. */
  method ReceiveCanBeEmpty(capacity: nat, max: nat, open: (nat, seq<Byte>) -> Option<Inner>) returns (r: Receiver)
    requires capacity < HEADER + max && max < 65536
    ensures r.Valid() && r.buf.Length == capacity && r.max == max && r.offset == 0 && r.length == r.buf.Length
    ensures Unfinished(r.buf[r.offset..r.length], r.max)
  {
    r := new Receiver(capacity, max, open);
    var s := Partial(max, capacity);
    PartialUnfinished(max, capacity);
    if capacity > 0 { r.Receive(s); }
    ghost var pending := r.buf[r.offset..r.length];
    assert pending == Flatten([]) + pending == [] + s == s;
  }

  lemma PartialUnfinished(max: nat, have: nat)
    requires have < HEADER + max && max < 65536
    ensures Unfinished(Partial(max, have), max)
  {
    var s := Partial(max, have);
    if have >= HEADER {
      assert s[0] == DATA && s[3] as int == max / 256 && s[4] as int == max % 256;
    }
  }

  /** The receiver waits for bytes: everything whole has been taken, and there is room for more. */
  ghost predicate Waiting(r: Receiver)
    reads r, r.buf
  {
    r.Valid() && Unfinished(r.buf[r.offset..r.length], r.max) && HEADER + r.max <= r.buf.Length && r.length < r.buf.Length
  }

  /** The record now in front is refused, after the whole ones taken. */
  ghost predicate Refused(r: Receiver)
    reads r, r.buf
  {
    && r.offset <= r.length <= r.buf.Length && r.received == Flatten(r.consumed) + r.buf[r.offset..r.length]
    && (forall i | 0 <= i < |r.consumed| :: IsRecord(r.consumed[i], r.max))
    && RefusedAt(r.buf[r.offset..r.length], r.max, r.open, Encrypted(r.consumed))
  }

  /** One receive: its bytes are drained, and unless a record is refused the next receive is posted. */
  method Feed(r: Receiver, chunk: seq<Byte>) returns (outcome: Outcome)
    requires Waiting(r) && 0 < |chunk| <= r.buf.Length - r.length
    modifies r, r.buf
    ensures r.received == old(r.received) + chunk && outcome != Enough && old(r.consumed) <= r.consumed
    ensures outcome == NeedMore ==> Waiting(r)
    ensures outcome == Failed ==> Refused(r)
  {
    r.Receive(chunk);
    outcome := r.Drain((_: seq<Byte>) => true);
    if outcome == NeedMore {
      r.Compact();
      ReceiveNeverEmpty(r);
    }
  }

  /**
    A connection's ciphertext arriving in any pieces that fit the receives
    posted for them: as long as no record is refused, what has been taken is
    what framing all of it gives.
  */
  method Connection(r: Receiver, chunks: seq<seq<Byte>>) returns (used: nat, outcome: Outcome)
    requires Waiting(r) && r.received == [] && (forall i | 0 <= i < |chunks| :: 0 < |chunks[i]|)
    modifies r, r.buf
    ensures used <= |chunks| && r.received == Flatten(chunks[..used])
    ensures outcome == NeedMore ==> Waiting(r) && (used == |chunks| || |chunks[used]| > r.buf.Length - r.length)
    ensures outcome == NeedMore ==> Frame(r.received, r.max).records == r.consumed && r.plaintext == Plaintext(r.consumed, r.open)
    ensures outcome != NeedMore ==> Refused(r)
  {
    used, outcome := 0, NeedMore;
    while outcome == NeedMore && used < |chunks| && |chunks[used]| <= r.buf.Length - r.length
      invariant used <= |chunks| && r.received == Flatten(chunks[..used]) && (outcome == NeedMore ==> Waiting(r))
      invariant outcome != NeedMore ==> Refused(r)
      decreases |chunks| - used
    {
      assert chunks[..used + 1] == chunks[..used] + [chunks[used]];
      FlattenAppend(chunks[..used], chunks[used]);
      outcome := Feed(r, chunks[used]);
      used := used + 1;
    }
    if outcome == NeedMore { DrainedIsFramed(r); }
  }
}
