/** Length-prefixed frames over a byte stream: two bytes of length, big-endian, then the payload. */
module Framing {
  import opened Wire

  type Bytes = seq<Byte>

  const MAX_FRAME := 65535

  function BigEndian(hi: int, lo: int): int {
    hi * 256 + lo
  }

  function Header(n: nat): (h: Bytes)
    requires n <= MAX_FRAME
    ensures |h| == 2 && BigEndian(h[0], h[1]) == n
  {
    [n / 256, n % 256]
  }

  function Encode(payload: Bytes): Bytes
    requires |payload| <= MAX_FRAME
  {
    Header(|payload|) + payload
  }

  predicate Framable(payload: Bytes) {
    0 < |payload| <= MAX_FRAME
  }

  /** Every payload fits the two-byte length. */
  predicate AllFit(ps: seq<Bytes>) {
    |ps| > 0 ==> |ps[0]| <= MAX_FRAME && AllFit(ps[1..])
  }

  /** Every payload fits and none is empty. */
  predicate AllFramable(ps: seq<Bytes>): (r: bool)
    ensures r ==> AllFit(ps)
  {
    |ps| > 0 ==> Framable(ps[0]) && AllFramable(ps[1..])
  }

  function EncodeAll(ps: seq<Bytes>): Bytes
    requires AllFit(ps)
  {
    if |ps| == 0 then [] else Encode(ps[0]) + EncodeAll(ps[1..])
  }

  /** The outcome of reading one frame: the frame and what follows it, or why there is none. */
  datatype ReadOne = Whole(payload: Bytes, rest: Bytes) | Short | Empty

  function Read(bs: Bytes): ReadOne {
    if |bs| < 2 then Short
    else
      var n := BigEndian(bs[0], bs[1]);
      if n == 0 then Empty
      else if |bs| < 2 + n then Short
      else Whole(bs[2..2 + n], bs[2 + n..])
  }

  /** All frames the read loop delivers before it stops, and the bytes left when it stops. */
  datatype Parsed = Parsed(frames: seq<Bytes>, rest: Bytes)

  function Parse(bs: Bytes): Parsed
    decreases |bs|
  {
    match Read(bs)
    case Whole(payload, rest) => var tail := Parse(rest); Parsed([payload] + tail.frames, tail.rest)
    case _ => Parsed([], bs)
  }

  /** On the wire: the length, high byte first, and then the payload as it is. */
  lemma FrameLayout(payload: Bytes)
    requires |payload| <= MAX_FRAME
    ensures var frame := Encode(payload);
      && |frame| == 2 + |payload| && frame[0] == |payload| / 256 && frame[1] == |payload| % 256
      && frame[2..] == payload
  {
  }

  // ---------- the stream theorems ----------

  lemma ReadEncoded(payload: Bytes, tail: Bytes)
    requires Framable(payload)
    ensures Read(Encode(payload) + tail) == Whole(payload, tail)
  {
    var bs := Encode(payload) + tail;
    assert bs[..2] == Header(|payload|);
    assert bs[2..2 + |payload|] == payload;
    assert bs[2 + |payload|..] == tail;
  }

  lemma ParseEncoded(payload: Bytes, tail: Bytes)
    requires Framable(payload)
    ensures Parse(Encode(payload) + tail) == Parsed([payload] + Parse(tail).frames, Parse(tail).rest)
  {
    ReadEncoded(payload, tail);
  }

  /** Reading resynchronises after every frame: encoded frames followed by anything parse to those
      frames followed by whatever the rest parses to. */
  lemma {:induction false} ParseAppend(ps: seq<Bytes>, tail: Bytes)
    requires AllFramable(ps)
    ensures Parse(EncodeAll(ps) + tail) == Parsed(ps + Parse(tail).frames, Parse(tail).rest)
  {
    if |ps| == 0 {
      assert EncodeAll(ps) + tail == tail;
      assert ps + Parse(tail).frames == Parse(tail).frames;
    } else {
      var more := EncodeAll(ps[1..]) + tail;
      EncodeAllFirst(ps, tail);
      ParseEncoded(ps[0], more);
      ParseAppend(ps[1..], tail);
      FirstAndRest(ps, Parse(tail).frames);
    }
  }

  lemma EncodeAllFirst(ps: seq<Bytes>, tail: Bytes)
    requires AllFit(ps) && |ps| > 0
    ensures EncodeAll(ps) + tail == Encode(ps[0]) + (EncodeAll(ps[1..]) + tail)
  {
    Associative(Encode(ps[0]), EncodeAll(ps[1..]), tail);
  }

  lemma Associative(a: Bytes, b: Bytes, c: Bytes)
    ensures (a + b) + c == a + (b + c)
  {
  }

  lemma FirstAndRest(ps: seq<Bytes>, qs: seq<Bytes>)
    requires |ps| > 0
    ensures [ps[0]] + (ps[1..] + qs) == ps + qs
  {
  }

  /** Reading back is exact for a list of writable payloads if and only if none of them is empty. */
  lemma RoundTripIff(ps: seq<Bytes>)
    requires AllFit(ps)
    ensures Parse(EncodeAll(ps)).frames == ps <==> AllFramable(ps)
    ensures AllFramable(ps) ==> Parse(EncodeAll(ps)).rest == []
  {
    if AllFramable(ps) {
      ParseAppend(ps, []);
      assert EncodeAll(ps) + [] == EncodeAll(ps);
    } else {
      FramesAreFramable(EncodeAll(ps));
    }
  }

  lemma {:induction false} FramesAreFramable(bs: Bytes)
    ensures AllFramable(Parse(bs).frames)
    decreases |bs|
  {
    if Read(bs).Whole? { FramesAreFramable(Read(bs).rest); }
  }

  /** A frame that was read, written out again, is the bytes it was read from. */
  lemma ReadBack(bs: Bytes)
    requires Read(bs).Whole?
    ensures Framable(Read(bs).payload) && Encode(Read(bs).payload) + Read(bs).rest == bs
  {
    var n := BigEndian(bs[0], bs[1]);
    assert Header(n) == [bs[0], bs[1]];
    assert bs == [bs[0], bs[1]] + bs[2..2 + n] + bs[2 + n..];
  }

  /** The other direction of the bijection: whatever the bytes, the frames delivered and the bytes left
      over, written out again, are the bytes that came in. */
  lemma {:induction false} Reassemble(bs: Bytes)
    ensures AllFramable(Parse(bs).frames) && EncodeAll(Parse(bs).frames) + Parse(bs).rest == bs
    decreases |bs|
  {
    if Read(bs).Whole? {
      ReadBack(bs);
      Reassemble(Read(bs).rest);
      assert Parse(bs).frames[1..] == Parse(Read(bs).rest).frames;
      EncodeAllFirst(Parse(bs).frames, Parse(bs).rest);
    } else {
      assert EncodeAll([]) + bs == bs;
    }
  }

  /** Part of one encoded frame is no frame. */
  lemma PartIsShort(payload: Bytes, n: nat)
    requires Framable(payload) && n < |Encode(payload)|
    ensures Read(Encode(payload)[..n]).Short?
  {
    var bs := Encode(payload)[..n];
    if n >= 2 { assert bs[..2] == Header(|payload|); }
  }

  /** The bytes of whole frames and part of the next one deliver exactly the whole frames. */
  lemma CutInside(ps: seq<Bytes>, next: Bytes, n: nat)
    requires AllFramable(ps) && Framable(next) && n < |Encode(next)|
    ensures Parse(EncodeAll(ps) + Encode(next)[..n]) == Parsed(ps, Encode(next)[..n])
  {
    PartIsShort(next, n);
    ParseAppend(ps, Encode(next)[..n]);
    assert ps + [] == ps;
  }

  lemma {:induction false} EncodeAllAppend(ps: seq<Bytes>, qs: seq<Bytes>)
    requires AllFit(ps) && AllFit(qs)
    ensures AllFit(ps + qs) && EncodeAll(ps + qs) == EncodeAll(ps) + EncodeAll(qs)
  {
    if |ps| == 0 {
      assert ps + qs == qs;
    } else {
      EncodeAllAppend(ps[1..], qs);
      assert (ps + qs)[1..] == ps[1..] + qs;
    }
  }

  /** Any prefix of a stream of frames delivers exactly the frames that are complete in it. */
  lemma {:induction false} PrefixDeliversWholeFrames(ps: seq<Bytes>, n: nat) returns (k: nat)
    requires AllFramable(ps) && n <= |EncodeAll(ps)|
    ensures k <= |ps| && Parse(EncodeAll(ps)[..n]).frames == ps[..k]
    ensures AllFit(ps[..k]) && |EncodeAll(ps[..k])| <= n
    ensures k < |ps| ==> AllFit(ps[..k + 1]) && n < |EncodeAll(ps[..k + 1])|
  {
    if |ps| == 0 {
      k := 0;
    } else {
      if n < |Encode(ps[0])| {
        k := 0;
        PrefixOfFirst(ps, n);
      } else {
        var m := n - |Encode(ps[0])|;
        var j := PrefixDeliversWholeFrames(ps[1..], m);
        k := j + 1;
        assert EncodeAll(ps)[..n] == Encode(ps[0]) + EncodeAll(ps[1..])[..m];
        ParseEncoded(ps[0], EncodeAll(ps[1..])[..m]);
        PrefixStep(ps, j);
        if k < |ps| { PrefixStep(ps, k); }
      }
    }
  }

  lemma PrefixOfFirst(ps: seq<Bytes>, n: nat)
    requires AllFramable(ps) && |ps| > 0 && n < |Encode(ps[0])| && n <= |EncodeAll(ps)|
    ensures Parse(EncodeAll(ps)[..n]).frames == []
    ensures AllFit(ps[..1]) && n < |EncodeAll(ps[..1])|
  {
    assert EncodeAll(ps)[..n] == Encode(ps[0])[..n];
    PartIsShort(ps[0], n);
    PrefixStep(ps, 0);
  }

  lemma {:induction false} AllFitTake(ps: seq<Bytes>, j: nat)
    requires AllFit(ps) && j <= |ps|
    ensures AllFit(ps[..j])
  {
    if j > 0 {
      AllFitTake(ps[1..], j - 1);
      assert ps[..j][1..] == ps[1..][..j - 1];
    }
  }

  lemma PrefixStep(ps: seq<Bytes>, j: nat)
    requires AllFit(ps) && j + 1 <= |ps|
    ensures AllFit(ps[..j + 1]) && AllFit(ps[1..][..j]) && ps[..j + 1] == [ps[0]] + ps[1..][..j]
    ensures EncodeAll(ps[..j + 1]) == Encode(ps[0]) + EncodeAll(ps[1..][..j])
  {
    AllFitTake(ps, j + 1);
    AllFitTake(ps[1..], j);
    TakeFirst(ps, j);
    EncodeFirst(ps[..j + 1], ps[1..][..j]);
  }

  lemma TakeFirst(ps: seq<Bytes>, j: nat)
    requires j + 1 <= |ps|
    ensures ps[..j + 1] == [ps[0]] + ps[1..][..j]
    ensures ps[..j + 1][1..] == ps[1..][..j] && ps[..j + 1][0] == ps[0]
  {
  }

  lemma EncodeFirst(ps: seq<Bytes>, rest: seq<Bytes>)
    requires |ps| > 0 && AllFit(ps) && ps[1..] == rest
    ensures EncodeAll(ps) == Encode(ps[0]) + EncodeAll(rest)
  {
  }

  // ---------- the methods ----------

  /** A writer that takes `room` more bytes and then fails. */
  class Sink {
    var out: Bytes
    var room: nat

    constructor (room: nat)
      ensures out == [] && this.room == room
    {
      out, this.room := [], room;
    }

    method Write(buf: array<Byte>) returns (ok: bool)
      modifies this
      ensures ok == (buf.Length <= old(room))
      ensures var n := if buf.Length <= old(room) then buf.Length else old(room);
        out == old(out) + buf[..n] && room == old(room) - n
    {
      var n := if buf.Length <= room then buf.Length else room;
      ok := n == buf.Length;
      out, room := out + buf[..n], room - n;
    }
  }

  /** Writes the header and then the payload. When the network fails in between, what has gone out is a
      prefix of the encoded frame. */
  method WriteFrame(w: Sink, payload: array<Byte>) returns (ok: bool)
    modifies w
    ensures payload.Length > MAX_FRAME ==> !ok && w.out == old(w.out)
    ensures payload.Length <= MAX_FRAME ==>
      var frame := Encode(payload[..]);
      && ok == (|frame| <= old(w.room))
      && w.out == old(w.out) + frame[..if |frame| <= old(w.room) then |frame| else old(w.room)]
  {
    if payload.Length > MAX_FRAME { return false; }
    var hdr := new Byte[2];
    hdr[0] := payload.Length / 256;
    hdr[1] := payload.Length % 256;
    ghost var frame := Encode(payload[..]);
    assert hdr[..] == Header(payload.Length);
    assert frame == hdr[..] + payload[..];
    ok := w.Write(hdr);
    if !ok {
      assert hdr[..old(w.room)] == frame[..old(w.room)];
      return;
    }
    assert hdr[..2] == hdr[..];
    ok := w.Write(payload);
    assert forall n | 0 <= n <= payload.Length :: hdr[..] + payload[..n] == frame[..2 + n];
  }

  /** A stream whose reads return at most what has arrived together: one segment, or part of it. */
  class Source {
    var segments: seq<Bytes>

    constructor (segments: seq<Bytes>)
      ensures this.segments == segments
    {
      this.segments := segments;
    }

    function Contents(): Bytes
      reads this
    {
      Join(segments)
    }

    /** Fills buf from position `from` with at least one byte, or returns 0 at the end of the stream. */
    method Read(buf: array<Byte>, from: nat) returns (n: nat)
      requires from < buf.Length
      modifies this, buf
      ensures n <= buf.Length - from && n <= |old(Contents())|
      ensures n == 0 ==> old(Contents()) == [] && Contents() == []
      ensures buf[..from] == old(buf[..from]) && buf[from..from + n] == old(Contents())[..n]
      ensures Contents() == old(Contents())[n..]
    {
      while |segments| > 0 && |segments[0]| == 0
        invariant Contents() == old(Contents()) && buf[..] == old(buf[..])
        decreases |segments|
      {
        segments := segments[1..];
      }
      if |segments| == 0 { return 0; }
      var head := segments[0];
      n := if |head| <= buf.Length - from then |head| else buf.Length - from;
      forall i | 0 <= i < n { buf[from + i] := head[i]; }
      ghost var all := Contents();
      assert all[..n] == head[..n];
      assert buf[from..from + n] == head[..n];
      segments := [head[n..]] + segments[1..];
      assert head[n..] + Join(segments[1..]) == all[n..];
    }
  }

  function Join(segments: seq<Bytes>): Bytes {
    if |segments| == 0 then [] else segments[0] + Join(segments[1..])
  }

  /** Reads until the buffer is full, however the bytes are split into segments. */
  method ReadFull(r: Source, buf: array<Byte>) returns (ok: bool)
    modifies r, buf
    ensures ok == (buf.Length <= |old(r.Contents())|)
    ensures ok ==> buf[..] == old(r.Contents())[..buf.Length] && r.Contents() == old(r.Contents())[buf.Length..]
    ensures !ok ==> r.Contents() == []
  {
    var from := 0;
    while from < buf.Length
      invariant 0 <= from <= buf.Length && from <= |old(r.Contents())|
      invariant buf[..from] == old(r.Contents())[..from]
      invariant r.Contents() == old(r.Contents())[from..]
      decreases |r.Contents()|, buf.Length - from
    {
      var n := r.Read(buf, from);
      if n == 0 { return false; }
      assert buf[..from + n] == buf[..from] + buf[from..from + n];
      from := from + n;
    }
    ok := true;
    assert buf[..from] == buf[..];
  }

  method ReadFrame(r: Source) returns (payload: Option<Bytes>)
    modifies r
    ensures var one := Read(old(r.Contents()));
      if one.Whole? then payload == Some(one.payload) && r.Contents() == one.rest else payload == None
  {
    ghost var bs := r.Contents();
    var hdr := new Byte[2];
    var ok := ReadFull(r, hdr);
    if !ok { return None; }
    assert hdr[..][0] == bs[0] && hdr[..][1] == bs[1];
    var size := BigEndian(hdr[0], hdr[1]);
    if size == 0 { return None; }
    var buf := new Byte[size];
    ok := ReadFull(r, buf);
    if !ok { return None; }
    payload := Some(buf[..]);
    assert bs[2..][..size] == bs[2..2 + size] && bs[2..][size..] == bs[2 + size..];
  }

  lemma HandledMore(handled: seq<Bytes>, payload: Bytes, more: seq<Bytes>)
    ensures (handled + [payload]) + more == handled + ([payload] + more)
  {
  }

  /** The server's read loop: it hands over frames until a read fails. It ends, and it has handed over
      exactly the frames of the stream. */
  method ServeConnection(r: Source) returns (handled: seq<Bytes>)
    modifies r
    ensures handled == Parse(old(r.Contents())).frames
  {
    handled := [];
    while true
      invariant handled + Parse(r.Contents()).frames == Parse(old(r.Contents())).frames
      decreases |r.Contents()|
    {
      ghost var before, bs := handled, r.Contents();
      var payload := ReadFrame(r);
      if payload.None? {
        assert handled + [] == handled;
        return;
      }
      handled := handled + [payload.value];
      HandledMore(before, payload.value, Parse(r.Contents()).frames);
    }
  }
}
