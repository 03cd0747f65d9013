/**
  The response machine of src/Client.c: bytes arrive in any pieces, plaintext
  or decrypted from TLS records, into the request's buffer or straight into
  the caller's pages, until the declared body is complete (section 6.3 of
  RFC 9112). Header parsing is a function of the bytes so far whose answer,
  once it has one, more bytes do not change.
*/
module HttpResponse {

  type Byte = bv8

  const PAGE: nat := 4096
  const MAX_ULONG: nat := 0xFFFF_FFFF
  const MAX_HEADER_BYTES: nat := 65536
  const MAX_CONTENT_LENGTH: nat := 67_108_864

  datatype Parse = Incomplete | Malformed | Parsed(headers: nat, content: nat, status: nat)

  /** A parsed answer is about a proper prefix, and more bytes do not change it. */
  ghost predicate Stable(parse: seq<Byte> -> Parse) {
    && (forall s :: parse(s).Parsed? ==> 0 < parse(s).headers <= |s|)
    && (forall s, t :: s <= t && parse(s).Parsed? ==> parse(t) == parse(s))
  }

  datatype Status = More | Done | Failed

  /** Copies `bytes` into `a` at `at`. */
  method Blit(a: array<Byte>, at: nat, bytes: seq<Byte>)
    requires at + |bytes| <= a.Length
    modifies a
    ensures a[..at] == old(a[..at]) && a[at..at + |bytes|] == bytes && a[at + |bytes|..] == old(a[at + |bytes|..])
  {
    for i := 0 to |bytes|
      invariant a[..at] == old(a[..at]) && a[at..at + i] == bytes[..i] && a[at + |bytes|..] == old(a[at + |bytes|..])
    {
      a[at + i] := bytes[i];
    }
  }

  /** Writes `chunk` and then `pad` after the first `at` bytes. */
  method Append(a: array<Byte>, at: nat, chunk: seq<Byte>, pad: seq<Byte>)
    requires at + |chunk| + |pad| <= a.Length
    modifies a
    ensures a[..at + |chunk|] == old(a[..at]) + chunk && a[at + |chunk| + |pad|..] == old(a[at + |chunk| + |pad|..])
  {
    ghost var before := a[..at];
    var bytes := chunk + pad;
    Blit(a, at, bytes);
    forall i | 0 <= i < |chunk| ensures a[at + i] == chunk[i] {
      assert a[at..at + |bytes|][i] == bytes[i];
    }
    forall i | 0 <= i < at ensures a[i] == before[i] {
      assert a[..at][i] == before[i];
    }
  }

  method AppendFrom(a: array<Byte>, from: nat, at: nat, chunk: seq<Byte>, pad: seq<Byte>)
    requires from <= at && at + |chunk| + |pad| <= a.Length
    modifies a
    ensures a[from..at + |chunk|] == old(a[from..at]) + chunk && a[..at + |chunk|] == old(a[..at]) + chunk
  {
    ghost var before := a[..at];
    assert before[from..] == a[from..at];
    Append(a, at, chunk, pad);
    Extended(before, chunk, from);
    assert a[from..at + |chunk|] == a[..at + |chunk|][from..];
  }

  /** The same, none of it at or past `end`. */
  method AppendWithin(a: array<Byte>, at: nat, chunk: seq<Byte>, pad: seq<Byte>, ghost end: nat)
    requires at + |chunk| + |pad| <= end <= a.Length
    modifies a
    ensures a[..at + |chunk|] == old(a[..at]) + chunk && a[end..] == old(a[end..])
  {
    ghost var n := at + |chunk| + |pad|;
    ghost var tail := a[n..];
    assert tail[end - n..] == a[end..];
    Append(a, at, chunk, pad);
    assert tail[end - n..] == a[end..];
  }

  class Response {
    const target: array?<Byte>         // the caller's pages, in zero-copy mode
    const fileRead: bool
    const expectedStatus: nat
    const expected: nat                // ExpectedContentLength of a file read
    const parse: seq<Byte> -> Parse
    var buffer: array<Byte>
    var length: nat
    var bodyOffset: nat                // zero until the headers are parsed
    var bodyEnd: nat
    ghost var received: seq<Byte>      // every response byte so far
    ghost var headers: nat

    /** In the header phase, everything received is in the buffer. */
    ghost predicate InHeaders()
      reads this, buffer
    {
      bodyOffset == 0 && length <= buffer.Length && buffer[..length] == received
    }

    /** In the body phase, what followed the headers is where the body goes. */
    ghost predicate InBody()
      reads this, buffer, target
    {
      && 0 < bodyOffset <= length && bodyOffset <= bodyEnd
      && 0 < headers <= |received| && length - bodyOffset == |received| - headers && bodyOffset < headers + 8
      && parse(received) == Parsed(headers, bodyEnd - bodyOffset, expectedStatus)
      && (fileRead ==> bodyEnd - bodyOffset == expected)
      && (if target == null
          then bodyEnd < buffer.Length && length <= buffer.Length && buffer[bodyOffset..length] == received[headers..]
          else fileRead && expected <= target.Length && length <= bodyEnd && target[..length - bodyOffset] == received[headers..])
    }

    ghost predicate Valid()
      reads this, buffer, target
    {
      && target != buffer && Stable(parse) && (target != null ==> fileRead && expected <= target.Length)
      && (InHeaders() || InBody())
    }

    constructor (capacity: nat, target: array?<Byte>, fileRead: bool, expectedStatus: nat, expected: nat, parse: seq<Byte> -> Parse)
      requires Stable(parse) && (target != null ==> fileRead && expected <= target.Length)
      ensures Valid() && InHeaders() && received == [] && fresh(buffer)
      ensures this.target == target && this.fileRead == fileRead && this.expected == expected && this.parse == parse
    {
      this.target, this.fileRead, this.expectedStatus, this.expected, this.parse := target, fileRead, expectedStatus, expected, parse;
      buffer := new Byte[capacity](_ => 0);
      length, bodyOffset, bodyEnd := 0, 0, 0;
      received, headers := [], 0;
    }

    /** HttpGrowBufferIfNeeded; `memory` says whether the pool obliges. */
    method Grow(required: nat, memory: bool) returns (ok: bool)
      requires length <= buffer.Length
      modifies this`buffer
      ensures length <= buffer.Length && buffer[..length] == old(buffer[..length]) && (buffer == old(buffer) || fresh(buffer))
      ensures ok <==> required <= buffer.Length
      ensures ok <==> required <= old(buffer.Length) || (memory && required <= MAX_ULONG)
      ensures buffer.Length == if ok && required > old(buffer.Length) then required else old(buffer.Length)
    {
      if required <= buffer.Length { return true; }
      if required > MAX_ULONG || !memory { return false; }
      var wider := new Byte[required](_ => 0);
      Blit(wider, 0, buffer[..length]);
      assert wider[..length] == wider[0..0 + length];
      buffer := wider;
      return true;
    }

    /** The room a receive has: what is left of the buffer, a page more where none is, or the rest of the body. */
    ghost function Posted(): int
      reads this, buffer
    {
      if bodyOffset != 0 then bodyEnd - length
      else if length == buffer.Length then PAGE
      else buffer.Length - length
    }

    /** HttpIssueReceive: how much room the receive is posted for. */
    method PostReceive(memory: bool) returns (room: nat, ok: bool)
      requires Valid() && (InBody() ==> length < bodyEnd)
      modifies this`buffer
      ensures Valid() && (InHeaders() <==> old(InHeaders())) && (buffer == old(buffer) || fresh(buffer))
      ensures ok ==> room > 0 && room == old(Posted())
      ensures !ok ==> old(InHeaders()) && old(length == buffer.Length) && (!memory || old(buffer.Length) + PAGE > MAX_ULONG)
      ensures ok && InHeaders() ==> room == buffer.Length - length
      ensures ok && InBody() ==> room == bodyEnd - length
    {
      ok := true;
      if bodyOffset == 0 {
        if length == buffer.Length {
          ok := Grow(buffer.Length + PAGE, memory);
          assert buffer[..length] == received;
        }
        room := buffer.Length - length;
      } else {
        room := bodyEnd - length;
      }
    }

    /** More response bytes, already in place, are counted; parsed headers stay parsed. */
    method Count(chunk: seq<Byte>)
      requires Stable(parse)
      modifies this`length, this`received
      ensures received == old(received) + chunk && length == old(length) + |chunk|
      ensures parse(old(received)).Parsed? ==> parse(received) == parse(old(received))
    {
      assert received <= received + chunk;
      length := length + |chunk|;
      received := received + chunk;
    }

    /** Bytes, and whatever follows them, are written after what the buffer holds. */
    method IntoBuffer(chunk: seq<Byte>, pad: seq<Byte>)
      requires Valid() && length + |chunk| + |pad| <= buffer.Length && (InBody() ==> target == null)
      modifies buffer, this`length, this`received
      ensures Valid() && received == old(received) + chunk && (InHeaders() <==> old(InHeaders()))
    {
      AppendFrom(buffer, bodyOffset, length, chunk, pad);
      Count(chunk);
      if bodyOffset != 0 { Extended(old(received), chunk, headers); }
    }

    /** The same in the caller's pages, none of it past the declared end. */
    method IntoTarget(chunk: seq<Byte>, pad: seq<Byte>)
      requires Valid() && InBody() && target != null && length + |chunk| + |pad| <= bodyEnd
      modifies target, this`length, this`received
      ensures Valid() && InBody() && received == old(received) + chunk
      ensures target[bodyEnd - bodyOffset..] == old(target[bodyEnd - bodyOffset..])
    {
      AppendWithin(target, length - bodyOffset, chunk, pad, bodyEnd - bodyOffset);
      Count(chunk);
      Extended(old(received), chunk, headers);
    }

    /** HttpOnReceive: a plaintext receive brings `chunk`, no more than it was posted for. */
    method Arrive(chunk: seq<Byte>)
      requires Valid() && (InHeaders() ==> |chunk| <= buffer.Length - length) && (InBody() ==> length + |chunk| <= bodyEnd)
      modifies this`length, this`received, buffer, target
      ensures Valid() && received == old(received) + chunk && (InHeaders() <==> old(InHeaders()))
    {
      if bodyOffset == 0 || target == null {
        IntoBuffer(chunk, []);
      } else {
        IntoTarget(chunk, []);
      }
    }

    /** A TLS record's content, decrypted with the type byte and padding that follow it. */
    method ArriveTls(chunk: seq<Byte>, pad: seq<Byte>, memory: bool) returns (ok: bool)
      requires Valid()
      modifies this`length, this`received, this`buffer, buffer, target
      ensures Valid() && (buffer == old(buffer) || fresh(buffer)) && (InHeaders() <==> old(InHeaders()))
      ensures received == if ok then old(received) + chunk else old(received)
      ensures target != null && InBody() ==> target[bodyEnd - bodyOffset..] == old(target[bodyEnd - bodyOffset..])
      ensures target != null && old(InBody()) ==> (ok <==> old(length) + |chunk| <= bodyEnd)
      ensures target == null || old(InHeaders()) ==>
                (ok <==> old(length) + |chunk| + |pad| <= old(buffer.Length) || (memory && old(length) + |chunk| + |pad| <= MAX_ULONG))
    {
      if bodyOffset != 0 && target != null {
        var room := bodyEnd - length;
        if |chunk| + |pad| <= room {
          IntoTarget(chunk, pad);
        } else if |chunk| > room {
          return false;
        } else {
          IntoTarget(chunk, []);
        }
        return true;
      }
      ok := GrowInPlace(length + |chunk| + |pad|, memory);
      if ok { IntoBuffer(chunk, pad); }
    }

    /** Growing the buffer moves nothing in it. */
    method GrowInPlace(required: nat, memory: bool) returns (ok: bool)
      requires Valid() && length <= buffer.Length
      modifies this`buffer
      ensures Valid() && (buffer == old(buffer) || fresh(buffer)) && (InHeaders() <==> old(InHeaders())) && (InBody() <==> old(InBody()))
      ensures ok ==> required <= buffer.Length
      ensures ok <==> required <= old(buffer.Length) || (memory && required <= MAX_ULONG)
    {
      ghost var bytes := buffer[..length];
      ok := Grow(required, memory);
      assert bodyOffset <= length ==> buffer[bodyOffset..length] == buffer[..length][bodyOffset..] == bytes[bodyOffset..];
    }

    /** The delivered body. */
    ghost function Body(): seq<Byte>
      reads this, buffer, target
      requires Valid() && InBody() && length == bodyEnd
    {
      if target == null then buffer[bodyOffset..bodyEnd] else target[..bodyEnd - bodyOffset]
    }

    /** Slides the body to an eight-byte boundary, for the decoder of metadata. */
    method Align(memory: bool) returns (ok: bool)
      requires 0 < bodyOffset <= length <= buffer.Length && length <= bodyEnd && target != buffer
      modifies this`buffer, this`length, this`bodyOffset, this`bodyEnd, buffer
      ensures ok ==> (bodyOffset % 8 == 0 && old(bodyOffset) <= bodyOffset <= length <= buffer.Length && (buffer == old(buffer) || fresh(buffer)) &&
                      bodyEnd - bodyOffset == old(bodyEnd - bodyOffset) && length - bodyOffset == old(length - bodyOffset) &&
                      buffer[bodyOffset..length] == old(buffer[bodyOffset..length]))
      ensures target != buffer && (ok ==> bodyOffset < old(bodyOffset) + 8)
      ensures memory && old(bodyEnd) + 8 <= MAX_ULONG ==> ok
    {
      var aligned := (bodyOffset + 7) / 8 * 8;
      if aligned == bodyOffset { return true; }
      var alignedEnd := aligned + (bodyEnd - bodyOffset);
      var bytes := buffer[bodyOffset..length];
      ghost var all := buffer[..length];
      ok := Grow(alignedEnd + 1, memory);
      if !ok { return; }
      Blit(buffer, aligned, bytes);
      length := length + (aligned - bodyOffset);
      bodyOffset := aligned;
      bodyEnd := alignedEnd;
    }

    /** In buffer mode the body is aligned, for metadata, and the buffer grown past its end. */
    method Settle(memory: bool) returns (ok: bool)
      requires 0 < bodyOffset <= length <= buffer.Length && length <= bodyEnd && target != buffer
      modifies this`buffer, this`length, this`bodyOffset, this`bodyEnd, buffer
      ensures ok ==> (old(bodyOffset) <= bodyOffset < old(bodyOffset) + 8 && bodyOffset <= length <= bodyEnd < buffer.Length && (buffer == old(buffer) || fresh(buffer)) &&
                      bodyEnd - bodyOffset == old(bodyEnd - bodyOffset) && length - bodyOffset == old(length - bodyOffset) &&
                      buffer[bodyOffset..length] == old(buffer[bodyOffset..length]))
      ensures ok && !fileRead ==> bodyOffset % 8 == 0
      ensures target != buffer && (memory && old(bodyEnd) + 8 <= MAX_ULONG ==> ok)
    {
      if !fileRead {
        ok := Align(memory);
        if !ok { return; }
      }
      ghost var all := buffer[..length];
      ok := Grow(bodyEnd + 1, memory);
      assert buffer[bodyOffset..length] == buffer[..length][bodyOffset..] == all[bodyOffset..];
    }

    /** The headers are `h` bytes of what is here and declare `n` bytes of body: the first of it moves to where the body goes. */
    method EnterBody(h: nat, n: nat, memory: bool) returns (ok: bool)
      requires Valid() && InHeaders() && parse(received) == Parsed(h, n, expectedStatus) && length <= h + n && (fileRead ==> n == expected)
      modifies this, buffer, target
      ensures ok ==> Valid() && InBody() && length <= bodyEnd && received == old(received) && headers == h && bodyEnd - bodyOffset == n
      ensures ok ==> buffer == old(buffer) || fresh(buffer)
      ensures memory && h + n + 8 <= MAX_ULONG ==> ok
    {
      headers, bodyOffset, bodyEnd := h, h, h + n;
      assert buffer[h..length] == buffer[..length][h..] == received[h..];
      if target != null {
        var bytes := buffer[h..length];
        Blit(target, 0, bytes);
        assert target[..|bytes|] == target[0..0 + |bytes|];
        ok := true;
      } else {
        ok := Settle(memory);
      }
    }

    /** The response breaks a limit or a promise: headers that never end, a wrong status or length, or bytes past the declared end. */
    ghost predicate MustRefuse()
      reads this
    {
      var p := parse(received);
      || (bodyOffset == 0 && p.Incomplete? && |received| >= MAX_HEADER_BYTES)
      || p.Malformed?
      || (p.Parsed? && |received| > p.headers + p.content)
      || (bodyOffset == 0 && p.Parsed? && (p.content > MAX_CONTENT_LENGTH || p.status != expectedStatus || (fileRead && p.content != expected)))
    }

    /** Those, and a response whose buffer could not be addressed. */
    ghost predicate MayRefuse()
      reads this
    {
      MustRefuse() || (parse(received).Parsed? && parse(received).headers + parse(received).content + 8 > MAX_ULONG)
    }

    /** HttpReadResponse. */
    method ReadResponse(memory: bool) returns (status: Status)
      requires Valid()
      modifies this, buffer, target
      ensures status != Failed ==> Valid() && received == old(received) && (buffer == old(buffer) || fresh(buffer))
      ensures status == More ==> InHeaders() || (InBody() && length < bodyEnd)
      ensures status == Done ==> InBody() && length == bodyEnd
      ensures status == More && InHeaders() ==> parse(received) == Incomplete && length < MAX_HEADER_BYTES
      ensures status == Failed ==> old(MayRefuse()) || !memory
      ensures old(MustRefuse()) ==> status == Failed
    {
      if bodyOffset == 0 {
        var p := parse(buffer[..length]);
        match p
        case Incomplete =>
          return if length >= MAX_HEADER_BYTES then Failed else More;
        case Malformed =>
          return Failed;
        case Parsed(h, n, code) =>
          if n > MAX_CONTENT_LENGTH || code != expectedStatus || (fileRead && n != expected) || length > h + n {
            return Failed;
          }
          var ok := EnterBody(h, n, memory);
          if !ok { return Failed; }
      }
      if length > bodyEnd { return Failed; }
      return if length < bodyEnd then More else Done;
    }
  }

  lemma Extended(s: seq<Byte>, chunk: seq<Byte>, from: nat)
    requires from <= |s|
    ensures (s + chunk)[from..] == s[from..] + chunk
  {
  }

  /** A completed response's body is exactly the declared bytes after the headers, and nothing followed them. */
  lemma BodyIsDeclared(r: Response)
    requires r.Valid() && r.InBody() && r.length == r.bodyEnd
    ensures var p := r.parse(r.received);
            p.Parsed? && |r.received| == p.headers + p.content && r.Body() == r.received[p.headers..p.headers + p.content]
  {
  }

  /** Two ways to split one response that both complete deliver the same body. */
  lemma SplitsAgree(a: Response, b: Response, stream: seq<Byte>)
    requires a.Valid() && a.InBody() && a.length == a.bodyEnd && b.Valid() && b.InBody() && b.length == b.bodyEnd
    requires a.parse == b.parse && a.received <= stream && b.received <= stream
    ensures a.Body() == b.Body() && a.received == b.received
  {
    BodyIsDeclared(a);
    BodyIsDeclared(b);
    assert a.parse(stream) == a.parse(a.received) == b.parse(b.received);
  }

  /** A piece of the response as it arrives: plaintext, or a TLS record's content and what is decrypted after it. */
  datatype Piece = Piece(chunk: seq<Byte>, pad: seq<Byte>)

  function Chunks(q: seq<Piece>): seq<Byte> {
    if q == [] then [] else Chunks(q[..|q| - 1]) + q[|q| - 1].chunk
  }

  /** As far as it has come, a response with nothing wrong with it: headers within their limit, then no more than the body they declare. */
  ghost predicate Sound(r: Response, s: seq<Byte>) {
    match r.parse(s)
    case Incomplete => |s| < MAX_HEADER_BYTES
    case Malformed => false
    case Parsed(h, n, status) =>
      status == r.expectedStatus && n <= MAX_CONTENT_LENGTH && (r.fileRead ==> n == r.expected) && |s| <= h + n && h + n + 8 <= MAX_ULONG
  }

  /** One receive and what HttpReadResponse makes of it. */
  method Step(r: Response, piece: Piece, tls: bool, memory: bool) returns (status: Status)
    requires r.Valid() && (r.InHeaders() || r.length < r.bodyEnd)
    modifies r, r.buffer, r.target
    ensures status != Failed ==> r.Valid() && r.received == old(r.received) + piece.chunk && (r.buffer == old(r.buffer) || fresh(r.buffer))
    ensures status == More ==> if r.InHeaders() then r.parse(r.received) == Incomplete else r.length < r.bodyEnd
    ensures status == Done ==> r.InBody() && r.length == r.bodyEnd
    ensures (memory && Sound(r, old(r.received) + piece.chunk) && |old(r.received)| + |piece.chunk| + |piece.pad| + PAGE + 8 <= MAX_ULONG &&
             (tls || 0 < |piece.chunk| <= old(r.Posted()))) ==> status != Failed
  {
    var ok := Take(r, piece, tls, memory);
    if !ok { return Failed; }
    status := r.ReadResponse(memory);
  }

  /** The receive itself, decrypted or not. */
  method Take(r: Response, piece: Piece, tls: bool, memory: bool) returns (ok: bool)
    requires r.Valid() && (r.InHeaders() || r.length < r.bodyEnd)
    modifies r`length, r`received, r`buffer, r.buffer, r.target
    ensures ok ==> r.Valid() && r.received == old(r.received) + piece.chunk && (r.buffer == old(r.buffer) || fresh(r.buffer))
    ensures ok ==> (r.InHeaders() <==> old(r.InHeaders()))
    ensures (memory && Sound(r, old(r.received) + piece.chunk) && |old(r.received)| + |piece.chunk| + |piece.pad| + PAGE + 8 <= MAX_ULONG &&
             (tls || 0 < |piece.chunk| <= old(r.Posted()))) ==> ok
  {
    assert r.received <= r.received + piece.chunk;
    if tls {
      ok := r.ArriveTls(piece.chunk, piece.pad, memory);
    } else {
      var room;
      room, ok := r.PostReceive(memory);
      if !ok || piece.chunk == [] || |piece.chunk| > room { return false; }
      r.Arrive(piece.chunk);
    }
  }

  /**
    A whole response, in any pieces, over plaintext or TLS, into the buffer
    or the caller's pages: if it completes, the body is the declared bytes
    after the headers of the pieces put together.
  */
  method ReceiveAll(r: Response, pieces: seq<Piece>, tls: bool, memory: bool) returns (used: nat, status: Status)
    requires r.Valid() && r.InHeaders() && r.received == []
    modifies r, r.buffer, r.target
    ensures used <= |pieces| && (status != Failed ==> r.Valid() && r.received == Chunks(pieces[..used]))
    ensures status == Done ==> r.InBody() && r.length == r.bodyEnd
    ensures status == Done ==> r.parse(Chunks(pieces[..used])).Parsed?
    ensures status == Done ==> r.Body() == Chunks(pieces[..used])[r.parse(Chunks(pieces[..used])).headers..]
    ensures status == Done ==> |r.Body()| == r.parse(Chunks(pieces[..used])).content
  {
    used, status := 0, More;
    while status == More && used < |pieces|
      invariant used <= |pieces| && (r.buffer == old(r.buffer) || fresh(r.buffer))
      invariant status != Failed ==> r.Valid() && r.received == Chunks(pieces[..used])
      invariant status == More ==> r.InHeaders() || r.length < r.bodyEnd
      invariant status == Done ==> r.InBody() && r.length == r.bodyEnd
      decreases |pieces| - used
    {
      assert pieces[..used + 1][..used] == pieces[..used];
      status := Step(r, pieces[used], tls, memory);
      used := used + 1;
      if status == Failed { return; }
    }
    if status == Done { BodyIsDeclared(r); }
  }

  /** Headers within their limit and then the body they declare, whole and no more; and so is every part of it as far as it goes. */
  ghost predicate WholeResponse(r: Response, stream: seq<Byte>) {
    && Stable(r.parse) && r.parse(stream).Parsed? && |stream| == r.parse(stream).headers + r.parse(stream).content
    && forall n | 0 <= n <= |stream| :: Sound(r, stream[..n])
  }

  /**
    And it does complete: of a response with nothing wrong with it, however
    it is cut into receives or records, and with memory to hold it, the body
    is delivered once the last byte is in and no sooner.
  */
  method ReceiveWhole(r: Response, stream: seq<Byte>, tls: bool, cut: nat -> nat, pad: nat -> seq<Byte>) returns (status: Status)
    requires r.Valid() && r.InHeaders() && r.received == [] && WholeResponse(r, stream)
    requires forall i :: |stream| + |pad(i)| + PAGE + 8 <= MAX_ULONG
    modifies r, r.buffer, r.target
    ensures status == Done && r.Valid() && r.InBody() && r.length == r.bodyEnd && r.received == stream
    ensures r.Body() == stream[r.parse(stream).headers..]
  {
    var got := 0;
    status := More;
    while status == More
      invariant got <= |stream| && r.Valid() && r.received == stream[..got] && (r.buffer == old(r.buffer) || fresh(r.buffer)) && status != Failed
      invariant status == More ==> got < |stream| && (r.InHeaders() || r.length < r.bodyEnd)
      invariant status == Done ==> r.InBody() && r.length == r.bodyEnd
      decreases |stream| - got, if status == More then 1 else 0
    {
      var most := |stream| - got;
      if !tls {
        var room := if r.bodyOffset != 0 then r.bodyEnd - r.length else if r.length == r.buffer.Length then PAGE else r.buffer.Length - r.length;
        if room < most { most := room; }
      }
      var n := 1 + cut(got) % most;
      status := OnePart(r, stream, got, n, tls, pad(got));
      got := got + n;
    }
    AllIn(r, stream, got);
    BodyIsDeclared(r);
  }

  /** The next `n` bytes of the stream come. */
  method OnePart(r: Response, stream: seq<Byte>, got: nat, n: nat, tls: bool, pad: seq<Byte>) returns (status: Status)
    requires r.Valid() && (r.InHeaders() || r.length < r.bodyEnd) && WholeResponse(r, stream) && |stream| + |pad| + PAGE + 8 <= MAX_ULONG
    requires 0 < n && got + n <= |stream| && r.received == stream[..got] && (tls || n <= r.Posted())
    modifies r, r.buffer, r.target
    ensures status != Failed && r.Valid() && r.received == stream[..got + n] && (r.buffer == old(r.buffer) || fresh(r.buffer))
    ensures status == More ==> got + n < |stream| && (r.InHeaders() || r.length < r.bodyEnd)
    ensures status == Done ==> r.InBody() && r.length == r.bodyEnd
  {
    var piece := Piece(stream[got..got + n], if tls then pad else []);
    assert stream[..got] + piece.chunk == stream[..got + n];
    status := Step(r, piece, tls, true);
    if status == More { StillToCome(r, stream, got + n); }
  }

  /** A response asked more of is not all in. */
  lemma StillToCome(r: Response, stream: seq<Byte>, got: nat)
    requires r.Valid() && WholeResponse(r, stream) && got <= |stream| && r.received == stream[..got] && (r.InHeaders() || r.length < r.bodyEnd)
    requires r.InHeaders() ==> r.parse(r.received) == Incomplete
    ensures got < |stream|
  {
    assert stream[..|stream|] == stream;
  }

  lemma AllIn(r: Response, stream: seq<Byte>, got: nat)
    requires r.Valid() && WholeResponse(r, stream) && got <= |stream| && r.received == stream[..got] && r.InBody() && r.length == r.bodyEnd
    ensures got == |stream| && r.received == stream
  {
    BodyIsDeclared(r);
    assert r.received <= stream;
  }
}
