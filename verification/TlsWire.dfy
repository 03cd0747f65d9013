/**
  The other end of the receive path of TlsDrain: a sender that writes records
  as sections 5.1 and 5.2 of RFC 8446 lay them out, and the proof that the
  drain delivers what it sent.
*/
module TlsWire {
  import opened Options
  import opened TlsDrain

  /** A record on the wire: its type, the legacy version, the length high byte first, and that many bytes. */
  function Record(kind: Byte, body: seq<Byte>): (r: seq<Byte>)
    requires |body| < 65536
    ensures |r| == HEADER + |body|
  {
    [kind, 3, 3, |body| / 256, |body| % 256] + body
  }

  lemma RecordIsRecord(kind: Byte, body: seq<Byte>, max: nat)
    requires (kind == DATA || kind == CHANGE_CIPHER) && |body| <= max < 65536
    ensures IsRecord(Record(kind, body), max)
  {
    var r := Record(kind, body);
    assert r[0] == kind && r[3] == |body| / 256 && r[4] == |body| % 256;
  }

  /** A record's type and body, as a sender has them. */
  datatype Message = Message(kind: Byte, body: seq<Byte>)

  predicate Sendable(m: Message, max: nat) {
    (m.kind == DATA || m.kind == CHANGE_CIPHER) && |m.body| <= max < 65536
  }

  ghost predicate AllSendable(q: seq<Message>, max: nat) {
    forall i | 0 <= i < |q| :: Sendable(q[i], max)
  }

  ghost function Records(q: seq<Message>, max: nat): (w: seq<seq<Byte>>)
    requires AllSendable(q, max)
    ensures |w| == |q| && forall i | 0 <= i < |q| :: |q[i].body| < 65536 && w[i] == Record(q[i].kind, q[i].body)
  {
    if q == [] then [] else [Record(q[0].kind, q[0].body)] + Records(q[1..], max)
  }

  /** A record not all of which has come. */
  ghost predicate PartOf(tail: seq<Byte>, m: Message, max: nat) {
    Sendable(m, max) && tail < Record(m.kind, m.body)
  }

  lemma PartIsUnfinished(tail: seq<Byte>, m: Message, max: nat)
    requires PartOf(tail, m, max)
    ensures Unfinished(tail, max)
  {
    var r := Record(m.kind, m.body);
    RecordIsRecord(m.kind, m.body, max);
    if |tail| >= HEADER {
      assert tail[0] == r[0] && tail[3] == r[3] && tail[4] == r[4];
      assert DeclaredLength(tail) == DeclaredLength(r);
    }
  }

  /** Whatever was sent, record after record and the last perhaps not all there, framing gives back. */
  lemma FramesWhatWasSent(q: seq<Message>, tail: seq<Byte>, m: Message, max: nat)
    requires AllSendable(q, max) && (tail == [] || PartOf(tail, m, max))
    ensures Frame(Flatten(Records(q, max)) + tail, max) == Framing(Records(q, max), tail)
  {
    var w := Records(q, max);
    forall i | 0 <= i < |w| ensures IsRecord(w[i], max) { RecordIsRecord(q[i].kind, q[i].body, max); }
    if tail != [] { PartIsUnfinished(tail, m, max); }
    CutsAreFrame(Flatten(w) + tail, w, tail, max);
  }

  // ---- what was sealed is delivered ----

  /** What the server sends after its handshake: data, later handshake messages, and change-cipher records that mean nothing. */
  datatype Out = Data(content: seq<Byte>) | Note(content: seq<Byte>) | Blank(body: seq<Byte>)

  /** Sealing under a number, the content's type inside, makes what opens under that number to the same. */
  ghost predicate Seals(seal: (nat, Inner) -> seq<Byte>, open: (nat, seq<Byte>) -> Option<Inner>, max: nat) {
    forall n: nat, x: Inner | |x.content| + TAG_LEN < max < 65536 :: Sealed(seal, open, max, n, x)
  }

  predicate Sealed(seal: (nat, Inner) -> seq<Byte>, open: (nat, seq<Byte>) -> Option<Inner>, max: nat, n: nat, x: Inner) {
    var b := seal(n, x);
    TAG_LEN < |b| <= max < 65536 && open(n, Record(DATA, b)) == Some(x)
  }

  /** Such sealing there is: the content, its type, and a tag that checks nothing. */
  lemma PlainSeals(max: nat) returns (seal: (nat, Inner) -> seq<Byte>, open: (nat, seq<Byte>) -> Option<Inner>)
    ensures Seals(seal, open, max)
  {
    seal := (n: nat, x: Inner) => x.content + [x.kind] + Tag();
    open := (n: nat, r: seq<Byte>) => PlainOpen(r);
    forall n: nat, x: Inner | |x.content| + TAG_LEN < max < 65536 ensures Sealed(seal, open, max, n, x) {
      var b := x.content + [x.kind] + Tag();
      var r := Record(DATA, b);
      assert r[HEADER..] == b;
      assert r[HEADER..|r| - TAG_LEN - 1] == x.content && r[|r| - TAG_LEN - 1] == x.kind;
    }
  }

  function Tag(): (t: seq<Byte>)
    ensures |t| == TAG_LEN
  {
    seq(TAG_LEN, _ => 0)
  }

  function PlainOpen(r: seq<Byte>): Option<Inner> {
    if |r| > HEADER + TAG_LEN then Some(Inner(r[|r| - TAG_LEN - 1], r[HEADER..|r| - TAG_LEN - 1])) else None
  }

  predicate Fits(x: Out, max: nat) {
    max < 65536 && if x.Blank? then |x.body| <= max else |x.content| + TAG_LEN < max
  }

  function InnerOf(x: Out): Inner
    requires !x.Blank?
  {
    Inner(if x.Data? then DATA else HANDSHAKE, x.content)
  }

  /** The record of `x`, under number `n` if it is encrypted. */
  function MessageOf(x: Out, n: nat, seal: (nat, Inner) -> seq<Byte>): Message {
    if x.Blank? then Message(CHANGE_CIPHER, x.body) else Message(DATA, seal(n, InnerOf(x)))
  }

  /** The records of `q`, the first encrypted one under number `n` and each under the next. */
  function Wire(q: seq<Out>, n: nat, seal: (nat, Inner) -> seq<Byte>): seq<Message> {
    if q == [] then [] else [MessageOf(q[0], n, seal)] + Wire(q[1..], if q[0].Blank? then n else n + 1, seal)
  }

  /** The application data sent. */
  function Content(q: seq<Out>): seq<Byte> {
    if q == [] then [] else Bytes(q[0]) + Content(q[1..])
  }

  /** All of it can be sent, and opened. */
  ghost predicate CanSend(q: seq<Out>, seal: (nat, Inner) -> seq<Byte>, open: (nat, seq<Byte>) -> Option<Inner>, max: nat) {
    Seals(seal, open, max) && forall i | 0 <= i < |q| :: Fits(q[i], max)
  }

  lemma MessageSendable(x: Out, n: nat, seal: (nat, Inner) -> seq<Byte>, open: (nat, seq<Byte>) -> Option<Inner>, max: nat)
    requires Seals(seal, open, max) && Fits(x, max)
    ensures Sendable(MessageOf(x, n, seal), max)
    ensures var m := MessageOf(x, n, seal); m.kind == DATA ==> TAG_LEN < |m.body| && !x.Blank? && open(n, Record(DATA, m.body)) == Some(InnerOf(x))
  {
    if !x.Blank? { assert Sealed(seal, open, max, n, InnerOf(x)); }
  }

  lemma {:induction false} WireSendable(q: seq<Out>, n: nat, seal: (nat, Inner) -> seq<Byte>, open: (nat, seq<Byte>) -> Option<Inner>, max: nat)
    requires CanSend(q, seal, open, max)
    ensures |Wire(q, n, seal)| == |q| && AllSendable(Wire(q, n, seal), max)
  {
    if q != [] {
      MessageSendable(q[0], n, seal, open, max);
      WireSendable(q[1..], if q[0].Blank? then n else n + 1, seal, open, max);
    }
  }

  function Bytes(x: Out): seq<Byte> {
    if x.Data? then x.content else []
  }

  /** Received after records `p`, the record of `x` opens under the number it was sealed with. */
  lemma OneOpens(p: seq<seq<Byte>>, x: Out, seal: (nat, Inner) -> seq<Byte>, open: (nat, seq<Byte>) -> Option<Inner>, max: nat) returns (r: seq<Byte>)
    requires Seals(seal, open, max) && Fits(x, max) && AllOpened(p, open)
    ensures var m := MessageOf(x, Encrypted(p), seal); |m.body| < 65536 && r == Record(m.kind, m.body) && Accepted(open, Encrypted(p), r)
    ensures AllOpened(p + [r], open) && Plaintext(p + [r], open) == Plaintext(p, open) + Bytes(x)
    ensures Encrypted(p + [r]) == if x.Blank? then Encrypted(p) else Encrypted(p) + 1
  {
    var m := MessageOf(x, Encrypted(p), seal);
    MessageSendable(x, Encrypted(p), seal, open, max);
    r := Record(m.kind, m.body);
    assert r[0] == m.kind;
    AppendRecord(p, r, open);
  }

  lemma RecordsCons(m: Message, q: seq<Message>, max: nat)
    requires AllSendable([m] + q, max)
    ensures AllSendable(q, max) && |m.body| < 65536 && Records([m] + q, max) == [Record(m.kind, m.body)] + Records(q, max)
  {
    assert ([m] + q)[0] == m && ([m] + q)[1..] == q;
    assert forall i | 0 <= i < |q| :: q[i] == ([m] + q)[i + 1];
  }

  /** Received so far, `p` opened and delivered `out`, and the next number is `n`. */
  ghost predicate Delivers(p: seq<seq<Byte>>, n: nat, out: seq<Byte>, open: (nat, seq<Byte>) -> Option<Inner>) {
    AllOpened(p, open) && Encrypted(p) == n && Plaintext(p, open) == out
  }

  lemma OneDelivers(p: seq<seq<Byte>>, n: nat, out: seq<Byte>, x: Out, seal: (nat, Inner) -> seq<Byte>, open: (nat, seq<Byte>) -> Option<Inner>, max: nat) returns (r: seq<Byte>)
    requires Seals(seal, open, max) && Fits(x, max) && Delivers(p, n, out, open)
    ensures var m := MessageOf(x, n, seal); |m.body| < 65536 && r == Record(m.kind, m.body)
    ensures Delivers(p + [r], if x.Blank? then n else n + 1, out + Bytes(x), open)
  {
    r := OneOpens(p, x, seal, open, max);
  }

  lemma Regroup(p: seq<seq<Byte>>, r: seq<Byte>, rest: seq<seq<Byte>>)
    ensures p + ([r] + rest) == (p + [r]) + rest
  {
  }

  lemma NoneDelivers(p: seq<seq<Byte>>, n: nat, out: seq<Byte>, open: (nat, seq<Byte>) -> Option<Inner>)
    requires Delivers(p, n, out, open)
    ensures Delivers(p + [], n, out + [], open)
  {
    assert p + [] == p && out + [] == out;
  }

  lemma {:induction false} WireDelivers(p: seq<seq<Byte>>, n: nat, out: seq<Byte>, q: seq<Out>, w: seq<seq<Byte>>, seal: (nat, Inner) -> seq<Byte>, open: (nat, seq<Byte>) -> Option<Inner>, max: nat) returns (n': nat)
    requires CanSend(q, seal, open, max) && AllSendable(Wire(q, n, seal), max) && w == Records(Wire(q, n, seal), max) && Delivers(p, n, out, open)
    ensures Delivers(p + w, n', out + Content(q), open)
    decreases |q|
  {
    if q == [] {
      NoneDelivers(p, n, out, open);
      n' := n;
    } else {
      var next := if q[0].Blank? then n else n + 1;
      var r := OneDelivers(p, n, out, q[0], seal, open, max);
      RecordsCons(MessageOf(q[0], n, seal), Wire(q[1..], next, seal), max);
      var rest := Records(Wire(q[1..], next, seal), max);
      n' := WireDelivers(p + [r], next, out + Bytes(q[0]), q[1..], rest, seal, open, max);
      Regroup(p, r, rest);
      Assoc(out, Bytes(q[0]), Content(q[1..]));
    }
  }

  /** The drain's reading of what was sent: its records, all of them opened, and its application data. */
  lemma SentIsReceived(q: seq<Out>, seal: (nat, Inner) -> seq<Byte>, open: (nat, seq<Byte>) -> Option<Inner>, max: nat)
    requires CanSend(q, seal, open, max)
    ensures AllSendable(Wire(q, 0, seal), max)
    ensures var w := Records(Wire(q, 0, seal), max);
            Frame(Flatten(w), max) == Framing(w, []) && AllOpened(w, open) && Plaintext(w, open) == Content(q)
  {
    WireSendable(q, 0, seal, open, max);
    var w := Records(Wire(q, 0, seal), max);
    FramesWhatWasSent(Wire(q, 0, seal), [], Message(DATA, []), max);
    assert Flatten(w) + [] == Flatten(w);
    var n := WireDelivers([], 0, [], q, w, seal, open, max);
    assert [] + w == w && [] + Content(q) == Content(q);
  }

  // ---- through the accumulator ----

  /** The bytes of `q` on the wire. */
  ghost predicate IsStream(w: seq<seq<Byte>>, q: seq<Out>, seal: (nat, Inner) -> seq<Byte>, open: (nat, seq<Byte>) -> Option<Inner>, max: nat) {
    CanSend(q, seal, open, max) && AllSendable(Wire(q, 0, seal), max) && w == Records(Wire(q, 0, seal), max)
  }

  /** Where the whole records taken off a stream leave it. */
  lemma StreamFrom(w: seq<seq<Byte>>, taken: seq<seq<Byte>>, left: seq<Byte>, max: nat) returns (k: nat)
    requires Frame(Flatten(w), max) == Framing(w, []) && Flatten(taken) + left == Flatten(w)
    requires forall i | 0 <= i < |taken| :: IsRecord(taken[i], max)
    ensures k <= |w| && taken == w[..k] && left == Flatten(w[k..])
  {
    TakenArePrefix(taken, left, max);
    k := |taken|;
    assert taken <= w && taken == w[..k];
    FlattenConcat(w[..k], w[k..]);
    assert w[..k] + w[k..] == w;
    SameTail(Flatten(taken), left, Flatten(w[k..]));
  }

  lemma SameTail(a: seq<Byte>, b: seq<Byte>, c: seq<Byte>)
    requires a + b == a + c
    ensures b == c
  {
    assert b == (a + b)[|a|..] && c == (a + c)[|a|..];
  }

  /** What stands in front of an accepted record's bytes, all or some of them, is not refused. */
  lemma FrontAccepted(s: seq<Byte>, tail: seq<Byte>, r: seq<Byte>, more: seq<Byte>, n: nat, open: (nat, seq<Byte>) -> Option<Inner>, max: nat)
    requires s + tail == r + more && IsRecord(r, max) && Accepted(open, n, r)
    ensures !RefusedAt(s, max, open, n)
  {
    if |s| >= HEADER {
      assert forall i | 0 <= i < HEADER :: s[i] == (s + tail)[i] == (r + more)[i] == r[i];
      assert DeclaredLength(s) == DeclaredLength(r);
      if Complete(s, max) {
        assert s[..|r|] == (s + tail)[..|r|] == (r + more)[..|r|] == r;
      }
    }
  }

  lemma NeverRefused(w: seq<seq<Byte>>, taken: seq<seq<Byte>>, s: seq<Byte>, tail: seq<Byte>, open: (nat, seq<Byte>) -> Option<Inner>, max: nat)
    requires Frame(Flatten(w), max) == Framing(w, []) && AllOpened(w, open) && (forall i | 0 <= i < |w| :: IsRecord(w[i], max))
    requires Flatten(taken) + (s + tail) == Flatten(w) && forall i | 0 <= i < |taken| :: IsRecord(taken[i], max)
    ensures !RefusedAt(s, max, open, Encrypted(taken))
  {
    var k := StreamFrom(w, taken, s + tail, max);
    if k < |w| {
      assert w[k..][0] == w[k];
      FrontAccepted(s, tail, w[k], Flatten(w[k..][1..]), Encrypted(taken), open, max);
    }
  }

  /**
    From sender to reader: the ciphertext of any records, split into any
    pieces that fit the receives posted for them, is never refused, and once
    it is all in, the application data delivered is the data sent.
  */
  method Deliver(r: Receiver, chunks: seq<seq<Byte>>, ghost q: seq<Out>, ghost w: seq<seq<Byte>>, ghost seal: (nat, Inner) -> seq<Byte>)
      returns (used: nat, outcome: Outcome)
    requires Waiting(r) && r.received == [] && (forall i | 0 <= i < |chunks| :: 0 < |chunks[i]|)
    requires IsStream(w, q, seal, r.open, r.max) && Flatten(chunks) == Flatten(w)
    modifies r, r.buf
    ensures outcome == NeedMore && used <= |chunks| && (used == |chunks| || |chunks[used]| > r.buf.Length - r.length)
    ensures used == |chunks| ==> r.plaintext == Content(q)
  {
    ghost var open, max := r.open, r.max;
    used, outcome := Connection(r, chunks);
    ghost var tail := Remaining(chunks, used);
    if outcome != NeedMore {
      StreamNotRefused(r.received, tail, r.consumed, r.buf[r.offset..r.length], q, w, seal, open, max);
      assert false;
    }
    if used == |chunks| { AllDelivered(r.received, r.consumed, q, w, seal, open, max); }
  }

  lemma Remaining(chunks: seq<seq<Byte>>, used: nat) returns (tail: seq<Byte>)
    requires used <= |chunks|
    ensures Flatten(chunks[..used]) + tail == Flatten(chunks) && (used == |chunks| ==> tail == [] && Flatten(chunks[..used]) == Flatten(chunks))
  {
    tail := Flatten(chunks[used..]);
    FlattenConcat(chunks[..used], chunks[used..]);
    assert chunks[..used] + chunks[used..] == chunks;
    if used == |chunks| { assert chunks[..used] == chunks; }
  }

  lemma AllDelivered(received: seq<Byte>, taken: seq<seq<Byte>>, q: seq<Out>, w: seq<seq<Byte>>,
                     seal: (nat, Inner) -> seq<Byte>, open: (nat, seq<Byte>) -> Option<Inner>, max: nat)
    requires IsStream(w, q, seal, open, max) && received == Flatten(w) && Frame(received, max).records == taken
    ensures Plaintext(taken, open) == Content(q)
  {
    SentIsReceived(q, seal, open, max);
  }

  lemma StreamNotRefused(received: seq<Byte>, tail: seq<Byte>, taken: seq<seq<Byte>>, s: seq<Byte>, q: seq<Out>, w: seq<seq<Byte>>,
                         seal: (nat, Inner) -> seq<Byte>, open: (nat, seq<Byte>) -> Option<Inner>, max: nat)
    requires IsStream(w, q, seal, open, max) && received + tail == Flatten(w) && received == Flatten(taken) + s
    requires forall i | 0 <= i < |taken| :: IsRecord(taken[i], max)
    ensures !RefusedAt(s, max, open, Encrypted(taken))
  {
    SentIsReceived(q, seal, open, max);
    WireRecords(w, q, seal, open, max);
    Assoc(Flatten(taken), s, tail);
    NeverRefused(w, taken, s, tail, open, max);
  }

  lemma WireRecords(w: seq<seq<Byte>>, q: seq<Out>, seal: (nat, Inner) -> seq<Byte>, open: (nat, seq<Byte>) -> Option<Inner>, max: nat)
    requires IsStream(w, q, seal, open, max)
    ensures forall i | 0 <= i < |w| :: IsRecord(w[i], max)
  {
    var m := Wire(q, 0, seal);
    forall i | 0 <= i < |w| ensures IsRecord(w[i], max) { RecordIsRecord(m[i].kind, m[i].body, max); }
  }
}
