/**
 The length-prefixed record framing of the interceptor: a 4-byte big-endian body
 length, a suite byte, a type byte and the payload. Besides the codec this module
 states what reassembly from arbitrary fragments recovers.
 */
module Framing {
  import opened Bytes

  const MAX_WIRE_RX_BUFFER := 16 * 1024 * 1024
  const MAX_WRITE_BACKLOG := 16 * 1024 * 1024
  const MAX_PLAIN_RX_BUFFER := 16 * 1024 * 1024
  const HDR_LEN := 4
  const MAX_FRAME_BODY := MAX_WIRE_RX_BUFFER - HDR_LEN
  const MAX_RECORD_PLAINTEXT := 64 * 1024
  const PULL_LEN := 8192

  const TYPE_CLIENT_HELLO: byte := 1
  const TYPE_SERVER_HELLO: byte := 2
  const TYPE_DATA: byte := 3
  const TYPE_FALLBACK_HELLO: byte := 4
  const TYPE_FALLBACK_FINISHED: byte := 5
  const FALLBACK_WIRE_ID: byte := 0xFE

  datatype Parsed = Parsed(suiteId: byte, tag: byte, payload: bytes)

  datatype Pop = NoFrame | Popped(frame: Parsed, rest: bytes) | Malformed

  predicate Fits(payload: bytes) {
    2 + |payload| <= MAX_FRAME_BODY
  }

  /** The bytes of one frame; none when the payload is over the length limit. */
  function Encode(f: Parsed): (w: bytes)
    ensures Fits(f.payload) ==> |w| == HDR_LEN + 2 + |f.payload|
  {
    if Fits(f.payload) then Be32(2 + |f.payload|) + [f.suiteId, f.tag] + f.payload else []
  }

  /** `frame`: refuses a payload that does not fit. */
  function Frame(suiteId: byte, tag: byte, payload: bytes): (r: Option<bytes>)
    ensures r.Some? <==> |payload| <= MAX_FRAME_BODY - 2
    ensures r.Some? ==>
              && |r.value| == HDR_LEN + 2 + |payload| && FromBe32(r.value[..HDR_LEN]) == 2 + |payload|
              && r.value[HDR_LEN] == suiteId && r.value[HDR_LEN + 1] == tag && r.value[HDR_LEN + 2..] == payload
  {
    if Fits(payload) then
      Be32RoundTrip(2 + |payload|);
      Some(Encode(Parsed(suiteId, tag, payload)))
    else None
  }

  /** `try_pop_frame`: what the front of the receive buffer holds. */
  function PopFrame(w: bytes): (r: Pop)
    ensures r.Popped? ==> |r.rest| + HDR_LEN + 2 + |r.frame.payload| == |w|
  {
    if |w| < HDR_LEN then NoFrame
    else
      var bodyLen := FromBe32(w[..HDR_LEN]);
      if bodyLen < 2 || bodyLen > MAX_FRAME_BODY then Malformed
      else if |w| < HDR_LEN + bodyLen then NoFrame
      else Popped(Parsed(w[HDR_LEN], w[HDR_LEN + 1], w[HDR_LEN + 2..HDR_LEN + bodyLen]),
                  w[HDR_LEN + bodyLen..])
  }

  /** Popping a frame followed by anything gives back exactly that frame and the rest. */
  lemma PopEncode(f: Parsed, rest: bytes)
    requires Fits(f.payload)
    ensures PopFrame(Encode(f) + rest) == Popped(f, rest)
  {
    var w := Encode(f) + rest;
    Be32RoundTrip(2 + |f.payload|);
    assert w[..HDR_LEN] == Be32(2 + |f.payload|);
    assert w[HDR_LEN + 2..HDR_LEN + 2 + |f.payload|] == f.payload;
    assert w[HDR_LEN + 2 + |f.payload|..] == rest;
  }

  /** Whatever is popped was at the front of the buffer, in its only encoding. */
  lemma EncodePop(w: bytes)
    requires PopFrame(w).Popped?
    ensures Fits(PopFrame(w).frame.payload)
    ensures w == Encode(PopFrame(w).frame) + PopFrame(w).rest
  {
    var r := PopFrame(w);
    FromBe32RoundTrip(w[..HDR_LEN]);
    assert w == w[..HDR_LEN] + [w[HDR_LEN], w[HDR_LEN + 1]] + r.frame.payload + r.rest;
  }

  /** More bytes never change a frame that is already complete, nor a bad header. */
  lemma PopStable(w: bytes, more: bytes)
    ensures PopFrame(w).Popped? ==> PopFrame(w + more) == Popped(PopFrame(w).frame, PopFrame(w).rest + more)
    ensures PopFrame(w).Malformed? ==> PopFrame(w + more).Malformed?
  {
    if |w| >= HDR_LEN {
      assert (w + more)[..HDR_LEN] == w[..HDR_LEN];
    }
    if PopFrame(w).Popped? {
      var n := |w| - |PopFrame(w).rest|;
      assert (w + more)[HDR_LEN + 2..n] == w[HDR_LEN + 2..n];
      assert (w + more)[n..] == w[n..] + more;
    }
  }

  /** Two streams that start with a frame each and agree, agree on the frame. */
  lemma FirstFrameUnique(f: Parsed, a: bytes, g: Parsed, b: bytes)
    requires Fits(f.payload) && Fits(g.payload)
    requires Encode(f) + a == Encode(g) + b
    ensures f == g && a == b
  {
    PopEncode(f, a);
    PopEncode(g, b);
  }

  // ------------------------------- reassembly -------------------------------

  /** Everything that can be said about a byte stream: its frames, what is left and the verdict. */
  datatype Parse = Parse(frames: seq<Parsed>, leftover: bytes, malformed: bool)

  function ParseAll(w: bytes): (r: Parse)
    decreases |w|
  {
    match PopFrame(w)
    case NoFrame => Parse([], w, false)
    case Malformed => Parse([], w, true)
    case Popped(f, rest) =>
      var tail := ParseAll(rest);
      tail.(frames := [f] + tail.frames)
  }

  /** Parsing resumes: the verdict on a longer stream follows from the verdict on a prefix. */
  lemma {:induction false} ParseAppend(a: bytes, b: bytes)
    ensures ParseAll(a).malformed ==>
              ParseAll(a + b) == Parse(ParseAll(a).frames, ParseAll(a).leftover + b, true)
    ensures !ParseAll(a).malformed ==>
              var tail := ParseAll(ParseAll(a).leftover + b);
              ParseAll(a + b) == tail.(frames := ParseAll(a).frames + tail.frames)
    decreases |a|
  {
    PopStable(a, b);
    match PopFrame(a)
    case NoFrame =>
      assert [] + ParseAll(a + b).frames == ParseAll(a + b).frames;
    case Malformed =>
    case Popped(f, rest) =>
      ParseAppend(rest, b);
      if !ParseAll(rest).malformed {
        var tail := ParseAll(ParseAll(rest).leftover + b);
        assert [f] + (ParseAll(rest).frames + tail.frames) == ([f] + ParseAll(rest).frames) + tail.frames;
      }
  }

  /** One use of the receive buffer: bytes arrive, or the front frame is taken off. */
  datatype BufferOp = Append(fragment: bytes) | TakeFrame

  datatype Reassembly = Reassembly(buffer: bytes, popped: seq<Parsed>, arrived: bytes)

  function Apply(s: Reassembly, op: BufferOp): (t: Reassembly) {
    match op
    case Append(fragment) => s.(buffer := s.buffer + fragment, arrived := s.arrived + fragment)
    case TakeFrame =>
      match PopFrame(s.buffer)
      case Popped(f, rest) => s.(buffer := rest, popped := s.popped + [f])
      case _ => s
  }

  function ApplyAll(s: Reassembly, ops: seq<BufferOp>): (t: Reassembly)
    decreases |ops|
  {
    if ops == [] then s else ApplyAll(Apply(s, ops[0]), ops[1..])
  }

  /** The frames already taken, then those still in the buffer, are those of the whole stream. */
  ghost predicate Faithful(s: Reassembly) {
    var whole, held := ParseAll(s.arrived), ParseAll(s.buffer);
    whole == held.(frames := s.popped + held.frames)
  }

  lemma ApplyKeepsFaithful(s: Reassembly, op: BufferOp)
    requires Faithful(s)
    ensures Faithful(Apply(s, op))
  {
    hide PopFrame;
    match op
    case Append(fragment) =>
      ParseAppend(s.arrived, fragment);
      ParseAppend(s.buffer, fragment);
      var held, tail := ParseAll(s.buffer), ParseAll(ParseAll(s.buffer).leftover + fragment);
      assert s.popped + (held.frames + tail.frames) == s.popped + held.frames + tail.frames;
    case TakeFrame =>
      match PopFrame(s.buffer) {
        case Popped(f, rest) =>
          assert s.popped + ([f] + ParseAll(rest).frames) == s.popped + [f] + ParseAll(rest).frames;
        case _ =>
      }
  }

  /**
   However the stream is cut into fragments and whenever frames are taken, the
   frames, the leftover and the verdict are those of parsing the stream at once.
   */
  lemma {:induction false} ReassemblyIndependentOfChunking(s: Reassembly, ops: seq<BufferOp>)
    requires Faithful(s)
    ensures Faithful(ApplyAll(s, ops))
    decreases |ops|
  {
    if ops != [] {
      ApplyKeepsFaithful(s, ops[0]);
      ReassemblyIndependentOfChunking(Apply(s, ops[0]), ops[1..]);
    }
  }

  /** From an empty buffer, draining after the last fragment yields the one-shot parse. */
  lemma ReassemblyFromEmpty(ops: seq<BufferOp>)
    ensures var end := ApplyAll(Reassembly([], [], []), ops);
            var whole, held := ParseAll(end.arrived), ParseAll(end.buffer);
            && whole.frames == end.popped + held.frames
            && whole.leftover == held.leftover
            && whole.malformed == held.malformed
            && (PopFrame(end.buffer).NoFrame? ==> end.popped == whole.frames && end.buffer == whole.leftover)
  {
    ReassemblyIndependentOfChunking(Reassembly([], [], []), ops);
  }

  // ----------------------------- streams of frames -----------------------------

  /** Frames sent one after the other. */
  function Stream(fs: seq<Parsed>): (w: bytes) {
    if fs == [] then [] else Stream(fs[..|fs| - 1]) + Encode(fs[|fs| - 1])
  }

  predicate AllFit(fs: seq<Parsed>) {
    forall i :: 0 <= i < |fs| ==> Fits(fs[i].payload)
  }

  lemma StreamSnoc(fs: seq<Parsed>, f: Parsed)
    ensures Stream(fs + [f]) == Stream(fs) + Encode(f)
  {
    assert (fs + [f])[..|fs|] == fs;
  }

  lemma {:induction false} StreamCons(fs: seq<Parsed>)
    requires fs != []
    ensures Stream(fs) == Encode(fs[0]) + Stream(fs[1..])
  {
    hide Encode;
    if |fs| > 1 {
      var init, last := fs[..|fs| - 1], fs[|fs| - 1];
      StreamCons(init);
      assert init[1..] == fs[1..][..|fs| - 2];
    } else {
      assert fs[1..] == [] && fs[..0] == [];
    }
  }

  /** If the frames read and some more bytes make up a stream of frames, the frames read come first. */
  lemma {:induction false} FramesUnique(read: seq<Parsed>, more: bytes, written: seq<Parsed>)
    requires AllFit(read) && AllFit(written)
    requires Stream(read) + more == Stream(written)
    ensures read <= written
    ensures more == Stream(written[|read|..])
  {
    hide Encode;
    if read == [] {
      assert written[0..] == written;
    } else {
      StreamCons(read);
      assert written != [];
      StreamCons(written);
      assert Encode(read[0]) + (Stream(read[1..]) + more) == Encode(written[0]) + Stream(written[1..]);
      FirstFrameUnique(read[0], Stream(read[1..]) + more, written[0], Stream(written[1..]));
      FramesUnique(read[1..], more, written[1..]);
      assert written[1..][|read[1..]|..] == written[|read|..];
      assert read == [read[0]] + read[1..] && written == [written[0]] + written[1..];
    }
  }

  /** A front part of a stream that holds no complete frame is shorter than the next frame. */
  lemma PartialFrame(w: bytes, more: bytes, fs: seq<Parsed>)
    requires AllFit(fs) && w + more == Stream(fs)
    ensures fs == [] ==> w == [] && more == []
    ensures fs != [] && |Encode(fs[0])| <= |w| ==> PopFrame(w).Popped? && PopFrame(w).frame == fs[0]
    ensures fs != [] && |w| < |Encode(fs[0])| ==> PopFrame(w).NoFrame?
  {
    if fs != [] {
      StreamCons(fs);
      PopEncode(fs[0], Stream(fs[1..]));
      PopStable(w, more);
      hide Encode;
      if |w| >= HDR_LEN {
        assert (w + more)[..HDR_LEN] == w[..HDR_LEN];
      }
    }
  }

  /** The data frames that carry the given ciphertexts. */
  function DataFrames(suiteId: byte, cts: seq<bytes>): (fs: seq<Parsed>)
    ensures |fs| == |cts|
  {
    seq(|cts|, i requires 0 <= i < |cts| => Parsed(suiteId, TYPE_DATA, cts[i]))
  }
}
