/** Length-prefixed frames over a stream socket that may split the bytes anywhere. */
module Framing {
  import opened Models
  import JsonGate

  type Byte = b: int | 0 <= b < 256

  const MAX_LENGTH := 0x1_0000_0000

  // ---------- struct.pack(">I", n) ----------

  function Pack(n: nat): (h: seq<Byte>)
    requires n < MAX_LENGTH
    ensures |h| == 4
  {
    [n / 256 / 256 / 256, n / 256 / 256 % 256, n / 256 % 256, n % 256]
  }

  function Unpack(h: seq<Byte>): (n: nat)
    requires |h| == 4
    ensures n < MAX_LENGTH
  {
    var a: int, b: int, c: int, d: int := h[0], h[1], h[2], h[3];
    ((a * 256 + b) * 256 + c) * 256 + d
  }

  lemma PackUnpack(n: nat)
    requires n < MAX_LENGTH
    ensures Unpack(Pack(n)) == n
  {
    var m, k := n / 256, n / 256 / 256;
    assert n == m * 256 + n % 256 && m == k * 256 + m % 256 && k == k / 256 * 256 + k % 256;
  }

  lemma UnpackPack(h: seq<Byte>)
    requires |h| == 4
    ensures Pack(Unpack(h)) == h
  {
    var n := Unpack(h);
    var k: int, m: int := h[0] as int * 256 + h[1], (h[0] as int * 256 + h[1]) * 256 + h[2];
    assert n == m * 256 + h[3] && m == k * 256 + h[2];
    assert n / 256 == m && n % 256 == h[3];
    assert m / 256 == k && m % 256 == h[2];
    assert k / 256 == h[0] && k % 256 == h[1];
  }

  /** The first byte that differs decides, as in network byte order. */
  predicate DecidesAt(h: seq<Byte>, k: seq<Byte>, i: nat)
    requires |h| == |k| == 4
  {
    i < 4 && h[..i] == k[..i] && h[i] < k[i]
  }

  /**
   The header orders sizes as its bytes stand. With `PackUnpack` and `UnpackPack` no other
   reading of four bytes as the numbers below 2^32 is possible.
   */
  lemma SizeOrderIsByteOrder(h: seq<Byte>, k: seq<Byte>)
    requires |h| == |k| == 4
    ensures Unpack(h) < Unpack(k) <==> exists i: nat :: DecidesAt(h, k, i)
  {
    var i := FirstDifference(h, k);
    if i < 4 {
      DecidedSize(h, k, i);
      assert h[i] < k[i] ==> DecidesAt(h, k, i);
    }
    forall m: nat | DecidesAt(h, k, m) ensures Unpack(h) < Unpack(k) { DecidedSize(h, k, m); }
  }

  function FirstDifference(h: seq<Byte>, k: seq<Byte>): (i: nat)
    requires |h| == |k| == 4
    ensures i <= 4 && h[..i] == k[..i] && (i < 4 ==> h[i] != k[i])
  {
    if h[0] != k[0] then 0 else if h[1] != k[1] then 1 else if h[2] != k[2] then 2 else if h[3] != k[3] then 3 else 4
  }

  lemma DecidedSize(h: seq<Byte>, k: seq<Byte>, i: nat)
    requires |h| == |k| == 4 && i < 4 && h[..i] == k[..i] && h[i] != k[i]
    ensures Unpack(h) < Unpack(k) <==> h[i] < k[i]
  {
    forall m | 0 <= m < i ensures h[m] == k[m] { assert h[..i][m] == k[..i][m]; }
  }

  // ---------- frames ----------

  datatype FrameError = ClosedEarly | BadSize | TooLarge | NotJson | NotAnObject

  predicate Framable(payload: seq<Byte>, max: nat) {
    0 < |payload| <= max && |payload| < MAX_LENGTH
  }

  function Frame(payload: seq<Byte>): seq<Byte>
    requires |payload| < MAX_LENGTH
  {
    Pack(|payload|) + payload
  }

  /** `_encode_frame` on the payload's bytes; a length beyond 32 bits makes `struct.pack` raise. */
  function EncodeFrame(payload: seq<Byte>, max: nat): Result<seq<Byte>, FrameError> {
    if payload == [] || |payload| > max || |payload| >= MAX_LENGTH then Failure(TooLarge)
    else Success(Frame(payload))
  }

  /** What one read makes of the bytes still to come: the outcome and the bytes left over. */
  function ParseFrame(stream: seq<Byte>, max: nat): (Result<seq<Byte>, FrameError>, seq<Byte>) {
    if |stream| < 4 then (Failure(ClosedEarly), [])
    else
      var size := Unpack(stream[..4]);
      if size == 0 || size > max then (Failure(BadSize), stream[4..])
      else if |stream| < 4 + size then (Failure(ClosedEarly), [])
      else (Success(stream[4..4 + size]), stream[4 + size..])
  }

  /** What is sent is one frame of the payload within the limits; anything else is refused. */
  lemma EncodesExactly(payload: seq<Byte>, max: nat, wire: seq<Byte>)
    ensures EncodeFrame(payload, max) == Success(wire) <==> ParseFrame(wire, max) == (Success(payload), [])
    ensures EncodeFrame(payload, max).Failure? ==> EncodeFrame(payload, max).error == TooLarge
  {
    if Framable(payload, max) { FrameParses(payload, max, []); assert Frame(payload) + [] == Frame(payload); }
    if ParseFrame(wire, max) == (Success(payload), []) { ParsedIsFrame(wire, max); assert wire == Frame(payload) + []; }
  }

  /** A frame followed by anything parses to its payload and leaves the rest. */
  lemma FrameParses(payload: seq<Byte>, max: nat, rest: seq<Byte>)
    requires Framable(payload, max)
    ensures EncodeFrame(payload, max) == Success(Frame(payload))
    ensures ParseFrame(Frame(payload) + rest, max) == (Success(payload), rest)
  {
    var stream := Frame(payload) + rest;
    PackUnpack(|payload|);
    assert stream[..4] == Pack(|payload|);
    assert stream[4..4 + |payload|] == payload;
    assert stream[4 + |payload|..] == rest;
  }

  /** Whatever parses is a frame: the reader accepts encodings and nothing else. */
  lemma ParsedIsFrame(stream: seq<Byte>, max: nat)
    requires ParseFrame(stream, max).0.Success?
    ensures Framable(ParseFrame(stream, max).0.value, max)
    ensures stream == Frame(ParseFrame(stream, max).0.value) + ParseFrame(stream, max).1
  {
    var payload := ParseFrame(stream, max).0.value;
    UnpackPack(stream[..4]);
    assert stream == stream[..4] + payload + ParseFrame(stream, max).1;
  }

  predicate AllFramable(payloads: seq<seq<Byte>>, max: nat) {
    forall i | 0 <= i < |payloads| :: Framable(payloads[i], max)
  }

  /** All payloads framed, one after the other. */
  function EncodeAll(payloads: seq<seq<Byte>>, max: nat): seq<Byte>
    requires AllFramable(payloads, max)
  {
    if payloads == [] then []
    else Frame(payloads[0]) + EncodeAll(payloads[1..], max)
  }

  /** `decode` is `json.loads`, None when it raises. */
  function ObjectIn(decode: seq<Byte> -> Option<JsonGate.Json>, payload: seq<Byte>): Result<JsonGate.Json, FrameError> {
    match decode(payload)
    case None => Failure(NotJson)
    case Some(v) => if v.Object? then Success(v) else Failure(NotAnObject)
  }

  /** The bytes begin with a frame around this payload. */
  predicate Carried(stream: seq<Byte>, max: nat, payload: seq<Byte>) {
    Framable(payload, max) && |stream| >= 4 + |payload| && stream[..4 + |payload|] == Frame(payload)
  }

  /** The bytes begin with a frame around JSON text for the object `v`. */
  ghost predicate CarriesObject(stream: seq<Byte>, max: nat, decode: seq<Byte> -> Option<JsonGate.Json>, v: JsonGate.Json) {
    v.Object? && exists payload :: Carried(stream, max, payload) && decode(payload) == Some(v)
  }

  lemma CarriedIsParsed(stream: seq<Byte>, max: nat, payload: seq<Byte>)
    ensures Carried(stream, max, payload) <==> ParseFrame(stream, max).0 == Success(payload)
  {
    if Carried(stream, max, payload) {
      FrameParses(payload, max, stream[4 + |payload|..]);
      assert stream == Frame(payload) + stream[4 + |payload|..];
    } else if ParseFrame(stream, max).0 == Success(payload) {
      ParsedIsFrame(stream, max);
    }
  }

  /** An object is read if and only if the bytes begin with a frame around it. */
  lemma ReadsExactlyObjects(stream: seq<Byte>, max: nat, decode: seq<Byte> -> Option<JsonGate.Json>, v: JsonGate.Json)
    ensures CarriesObject(stream, max, decode, v)
            <==> ParseFrame(stream, max).0.Success? && ObjectIn(decode, ParseFrame(stream, max).0.value) == Success(v)
  {
    if CarriesObject(stream, max, decode, v) {
      var payload :| Carried(stream, max, payload) && decode(payload) == Some(v);
      CarriedIsParsed(stream, max, payload);
    } else if ParseFrame(stream, max).0.Success? {
      CarriedIsParsed(stream, max, ParseFrame(stream, max).0.value);
    }
  }

  /** Four bytes that head no frame within the limit. */
  ghost predicate HeadsNothing(stream: seq<Byte>, max: nat) {
    |stream| >= 4 && forall payload :: Framable(payload, max) ==> Frame(payload)[..4] != stream[..4]
  }

  /** The bytes stop short of a frame that they begin. */
  ghost predicate StopsInside(stream: seq<Byte>, max: nat) {
    exists payload :: Framable(payload, max) && |stream| < |Frame(payload)| && Frame(payload)[..|stream|] == stream
  }

  /**
   Every read that fails: a header that no frame within the limit has is refused with exactly
   its four bytes gone; otherwise the peer closed inside the header or inside a frame.
   */
  lemma ReadFailsExactly(stream: seq<Byte>, max: nat)
    ensures ParseFrame(stream, max).0 == Failure(BadSize) <==> HeadsNothing(stream, max)
    ensures ParseFrame(stream, max).0 == Failure(ClosedEarly) <==> |stream| < 4 || StopsInside(stream, max)
    ensures ParseFrame(stream, max).0.Failure? ==>
              ParseFrame(stream, max).1 == if HeadsNothing(stream, max) then stream[4..] else []
  {
    if |stream| >= 4 {
      var size := Unpack(stream[..4]);
      UnpackPack(stream[..4]);
      if 0 < size <= max { HeadBegins(stream, max, size); }
      forall payload | Framable(payload, max)
        ensures Frame(payload)[..4] == stream[..4] ==> |payload| == size
      {
        PackUnpack(|payload|);
        assert Frame(payload)[..4] == Pack(|payload|);
      }
      forall payload | Framable(payload, max) && |stream| < |Frame(payload)| && Frame(payload)[..|stream|] == stream
        ensures |payload| == size
      {
        assert Frame(payload)[..4] == stream[..4];
      }
    }
  }

  /** A header that gives an allowed size heads a frame that goes on with whatever followed it. */
  lemma HeadBegins(stream: seq<Byte>, max: nat, size: nat)
    requires |stream| >= 4 && 0 < size <= max && size < MAX_LENGTH && stream[..4] == Pack(size)
    ensures !HeadsNothing(stream, max)
    ensures |stream| < 4 + size ==> StopsInside(stream, max)
  {
    var here := if |stream| < 4 + size then stream[4..] else stream[4..4 + size];
    var payload := here + seq(size - |here|, i => 0 as Byte);
    assert Framable(payload, max) && Frame(payload)[..4] == stream[..4];
    if |stream| < 4 + size { assert Frame(payload)[..|stream|] == stream; }
  }

  /** What is wrong with the payload of a frame that holds no object. */
  lemma ObjectErrorsExactly(stream: seq<Byte>, max: nat, decode: seq<Byte> -> Option<JsonGate.Json>, payload: seq<Byte>)
    requires Carried(stream, max, payload)
    ensures ParseFrame(stream, max).0 == Success(payload)
    ensures ObjectIn(decode, payload) == Failure(NotJson) <==> decode(payload) == None
    ensures ObjectIn(decode, payload) == Failure(NotAnObject) <==> decode(payload).Some? && !decode(payload).value.Object?
    ensures ObjectIn(decode, payload).Failure? ==> ObjectIn(decode, payload).error in {NotJson, NotAnObject}
  {
    CarriedIsParsed(stream, max, payload);
  }

  lemma ParsedShrinks(stream: seq<Byte>, max: nat)
    requires ParseFrame(stream, max).0.Success?
    ensures |ParseFrame(stream, max).1| < |stream|
  {
  }

  /** The payloads read until the first failure. */
  function ParseAll(stream: seq<Byte>, max: nat): seq<seq<Byte>>
    decreases |stream|
  {
    var (r, rest) := ParseFrame(stream, max);
    if r.Failure? then [] else ParsedShrinks(stream, max); [r.value] + ParseAll(rest, max)
  }

  lemma Regroup(a: seq<Byte>, b: seq<Byte>, c: seq<Byte>)
    ensures (a + b) + c == a + (b + c)
  {
  }

  lemma FrameThenRest(payload: seq<Byte>, max: nat, rest: seq<Byte>)
    requires Framable(payload, max)
    ensures ParseAll(Frame(payload) + rest, max) == [payload] + ParseAll(rest, max)
  {
    FrameParses(payload, max, rest);
  }

  /** `wire` is the framed payloads followed by `rest`. */
  predicate OnWire(payloads: seq<seq<Byte>>, max: nat, rest: seq<Byte>, wire: seq<Byte>)
    requires AllFramable(payloads, max)
  {
    wire == EncodeAll(payloads, max) + rest
  }

  /** The first frame stands before the others. */
  lemma FirstOnWire(payloads: seq<seq<Byte>>, max: nat, rest: seq<Byte>, wire: seq<Byte>) returns (later: seq<Byte>)
    requires AllFramable(payloads, max) && payloads != [] && OnWire(payloads, max, rest, wire)
    ensures AllFramable(payloads[1..], max) && OnWire(payloads[1..], max, rest, later)
    ensures wire == Frame(payloads[0]) + later
  {
    later := EncodeAll(payloads[1..], max) + rest;
    Regroup(Frame(payloads[0]), EncodeAll(payloads[1..], max), rest);
  }

  lemma {:induction false} WireParses(payloads: seq<seq<Byte>>, max: nat, rest: seq<Byte>, wire: seq<Byte>)
    requires AllFramable(payloads, max) && OnWire(payloads, max, rest, wire)
    ensures ParseAll(wire, max) == payloads + ParseAll(rest, max)
  {
    if payloads == [] {
      assert wire == rest;
      assert payloads + ParseAll(rest, max) == ParseAll(rest, max);
    } else {
      var later := FirstOnWire(payloads, max, rest, wire);
      WireParses(payloads[1..], max, rest, later);
      FrameThenRest(payloads[0], max, later);
      HeadThenRest(payloads, ParseAll(rest, max));
    }
  }

  lemma HeadThenRest<T>(xs: seq<T>, ys: seq<T>)
    requires xs != []
    ensures [xs[0]] + (xs[1..] + ys) == xs + ys
  {
  }

  /** Framed payloads are read back in full and in order before anything that follows them. */
  lemma AllFramesParse(payloads: seq<seq<Byte>>, max: nat, rest: seq<Byte>)
    requires AllFramable(payloads, max)
    ensures ParseAll(EncodeAll(payloads, max) + rest, max) == payloads + ParseAll(rest, max)
  {
    WireParses(payloads, max, rest, EncodeAll(payloads, max) + rest);
  }

  // ---------- the socket ----------

  /** The bytes a peer will send before it closes, and how `recv` will happen to split them. */
  class Peer {
    var stream: seq<Byte>
    var splits: seq<nat>

    constructor (stream: seq<Byte>, splits: seq<nat>)
      ensures this.stream == stream && this.splits == splits
    {
      this.stream, this.splits := stream, splits;
    }

    /** At least one and at most `size` of the next bytes; none only when the peer has closed. */
    method Recv(size: nat) returns (chunk: seq<Byte>)
      modifies this
      ensures |chunk| <= size && |chunk| <= |old(stream)|
      ensures stream == old(stream)[|chunk|..] && chunk == old(stream)[..|chunk|]
      ensures chunk == [] <==> size == 0 || old(stream) == []
    {
      var bound := if size < |stream| then size else |stream|;
      var take := bound;
      if splits != [] {
        take := if splits[0] >= bound then bound else if splits[0] == 0 && bound > 0 then 1 else splits[0];
        splits := splits[1..];
      }
      chunk := stream[..take];
      stream := stream[take..];
    }

    /** Exactly `size` bytes, or a failure when the peer closes first; however the bytes are split. */
    method RecvExact(size: nat) returns (r: Result<seq<Byte>, FrameError>)
      modifies this
      ensures if |old(stream)| < size then r == Failure(ClosedEarly) && stream == []
              else r == Success(old(stream)[..size]) && stream == old(stream)[size..]
    {
      var chunks: seq<Byte> := [];
      var remaining := size;
      while remaining > 0
        invariant 0 <= remaining && |chunks| + remaining == size && |chunks| <= |old(stream)|
        invariant chunks == old(stream)[..|chunks|] && stream == old(stream)[|chunks|..]
        decreases remaining
      {
        var chunk := Recv(remaining);
        if chunk == [] { return Failure(ClosedEarly); }
        assert old(stream)[..|chunks|] + chunk == old(stream)[..|chunks| + |chunk|];
        chunks := chunks + chunk;
        remaining := remaining - |chunk|;
      }
      assert chunks == old(stream)[..size];
      return Success(chunks);
    }

    /** A size of zero or above the limit is refused with exactly the header consumed. */
    method ReadFrame(max: nat) returns (r: Result<seq<Byte>, FrameError>)
      modifies this
      ensures (r, stream) == ParseFrame(old(stream), max)
    {
      var header := RecvExact(4);
      if header.Failure? { return header; }
      var size := Unpack(header.value);
      if size == 0 || size > max { return Failure(BadSize); }
      ghost var body := stream;
      r := RecvExact(size);
      if r.Success? {
        assert body[..size] == old(stream)[4..4 + size];
        assert body[size..] == old(stream)[4 + size..];
      }
    }

    /** `_read_frame_sync`: one frame, decoded, and refused unless it is a JSON object. */
    method ReadObject(max: nat, decode: seq<Byte> -> Option<JsonGate.Json>) returns (r: Result<JsonGate.Json, FrameError>)
      modifies this
      ensures stream == ParseFrame(old(stream), max).1
      ensures match ParseFrame(old(stream), max).0
              case Failure(e) => r == Failure(e)
              case Success(payload) => r == ObjectIn(decode, payload)
      ensures forall v :: r == Success(v) <==> CarriesObject(old(stream), max, decode, v)
    {
      forall v ensures CarriesObject(stream, max, decode, v)
                       <==> ParseFrame(stream, max).0.Success? && ObjectIn(decode, ParseFrame(stream, max).0.value) == Success(v) {
        ReadsExactlyObjects(stream, max, decode, v);
      }
      var frame := ReadFrame(max);
      if frame.Failure? { return Failure(frame.error); }
      var value := decode(frame.value);
      if value.None? { return Failure(NotJson); }
      if !value.value.Object? { return Failure(NotAnObject); }
      return Success(value.value);
    }

    /** Reading frame after frame until one fails gives what parsing the bytes gives. */
    method ReadAll(max: nat) returns (r: seq<seq<Byte>>)
      modifies this
      ensures r == ParseAll(old(stream), max)
    {
      r := [];
      while true
        invariant r + ParseAll(stream, max) == ParseAll(old(stream), max)
        decreases |stream|
      {
        ghost var before := stream;
        var frame := ReadFrame(max);
        if frame.Failure? { break; }
        ParsedShrinks(before, max);
        assert r + ([frame.value] + ParseAll(stream, max)) == r + [frame.value] + ParseAll(stream, max);
        r := r + [frame.value];
      }
    }
  }

  /** With nothing after the last frame the reader returns exactly the payloads, however `recv` splits them. */
  method RoundTrip(payloads: seq<seq<Byte>>, max: nat, splits: seq<nat>) returns (r: seq<seq<Byte>>)
    requires AllFramable(payloads, max)
    ensures r == payloads
  {
    var wire := EncodeAll(payloads, max);
    var peer := new Peer(wire, splits);
    assert wire == wire + [];
    AllFramesParse(payloads, max, []);
    r := peer.ReadAll(max);
    assert payloads + ParseAll([], max) == payloads;
  }
}
