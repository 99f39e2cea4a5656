/**
 * Length-prefixed framing on both ends of the socket: the daemon's chunk list
 * and the recorder's flat buffer, each proved against one parse of the stream.
 */
module Framing {
  import opened Prelude

  type Byte = b: nat | b < 256
  type Bytes = seq<Byte>

  const MAX_FRAME_BYTES: nat := 1_048_576

  /** What the receiver makes of a complete payload, given those before it. */
  datatype Verdict = Malformed | Closing | Accepted

  type Judge = (seq<Bytes>, Bytes) -> Verdict

  datatype Fault = Open | Oversize | BadFrame | Closed

  /** Payloads delivered so far, the incomplete tail, and how the stream stands. */
  datatype Stream = Stream(frames: seq<Bytes>, pending: Bytes, fault: Fault)

  const FRESH := Stream([], [], Open)

  /** The recorder's rule: a zero length poisons the stream, all else is delivered. */
  const RECORDER_JUDGE: Judge := (frames, payload) => if payload == [] then Malformed else Accepted

  function HeaderValue(b: Bytes): nat
    requires |b| >= 4
  {
    (b[0] as int * 0x100_0000) + (b[1] as int * 0x1_0000) + (b[2] as int * 0x100) + b[3] as int
  }

  lemma SplitByte(n: nat)
    ensures n == n / 256 * 256 + n % 256 && n / 256 <= n
  {
  }

  /** Four bytes, the most significant first. */
  function Header(n: nat): (h: Bytes)
    requires n <= MAX_FRAME_BYTES
    ensures |h| == 4 && HeaderValue(h) == n
  {
    var high := n / 256 / 256;
    SplitByte(n);
    SplitByte(n / 256);
    SplitByte(high);
    [high / 256, high % 256, n / 256 % 256, n % 256]
  }

  function Encode(payload: Bytes): Option<Bytes> {
    if |payload| <= MAX_FRAME_BYTES then Some(Header(|payload|) + payload) else None
  }

  /** Reference parse of a whole byte string, continuing after `frames`. */
  function Drain(judge: Judge, frames: seq<Bytes>, buf: Bytes): Stream
    decreases |buf|
  {
    if |buf| < 4 then Stream(frames, buf, Open)
    else
      var length := HeaderValue(buf);
      if length > MAX_FRAME_BYTES then Stream(frames, [], Oversize)
      else if |buf| < 4 + length then Stream(frames, buf, Open)
      else
        var payload := buf[4..4 + length];
        match judge(frames, payload)
        case Malformed => Stream(frames, [], BadFrame)
        case Closing => Stream(frames + [payload], [], Closed)
        case Accepted => Drain(judge, frames + [payload], buf[4 + length..])
  }

  /** The length comes first, in four bytes, the most significant first; 1 MiB is the most it may say. */
  lemma FirstFrameIsTold(judge: Judge, frames: seq<Bytes>, a: Byte, b: Byte, c: Byte, d: Byte, rest: Bytes)
    ensures var length := ((a * 256 + b) * 256 + c) * 256 + d;
            var stream := Drain(judge, frames, [a, b, c, d] + rest);
            && (length > 1_048_576 ==> stream == Stream(frames, [], Oversize))
            && (|rest| < length <= 1_048_576 ==> stream == Stream(frames, [a, b, c, d] + rest, Open))
            && (length <= 1_048_576 && length <= |rest| ==>
                  match judge(frames, rest[..length])
                  case Malformed => stream == Stream(frames, [], BadFrame)
                  case Closing => stream == Stream(frames + [rest[..length]], [], Closed)
                  case Accepted => stream == Drain(judge, frames + [rest[..length]], rest[length..]))
  {
    var length, buf := ((a * 256 + b) * 256 + c) * 256 + d, [a, b, c, d] + rest;
    assert HeaderValue(buf) == length;
    if length <= |rest| {
      assert buf[4..4 + length] == rest[..length] && buf[4 + length..] == rest[length..];
    }
  }

  /** One read from the socket. */
  function Feed(judge: Judge, st: Stream, chunk: Bytes): Stream {
    if st.fault.Open? then Drain(judge, st.frames, st.pending + chunk) else st
  }

  function FeedAll(judge: Judge, st: Stream, chunks: seq<Bytes>): Stream
    decreases |chunks|
  {
    if chunks == [] then st else FeedAll(judge, Feed(judge, st, chunks[0]), chunks[1..])
  }

  /** Parsing part of a buffer and then the rest is parsing it at once. */
  lemma {:induction false} DrainThenFeed(judge: Judge, frames: seq<Bytes>, buf: Bytes, more: Bytes)
    ensures Feed(judge, Drain(judge, frames, buf), more) == Drain(judge, frames, buf + more)
    decreases |buf|
  {
    if |buf| >= 4 && HeaderValue(buf) <= MAX_FRAME_BYTES && |buf| >= 4 + HeaderValue(buf) {
      var length := HeaderValue(buf);
      assert HeaderValue(buf + more) == length;
      var payload := buf[4..4 + length];
      assert (buf + more)[4..4 + length] == payload;
      assert (buf + more)[4 + length..] == buf[4 + length..] + more;
      if judge(frames, payload).Accepted? {
        DrainThenFeed(judge, frames + [payload], buf[4 + length..], more);
      }
    }
  }

  /** The delivered payloads and the fault do not depend on how bytes were split. */
  lemma {:induction false} ChunksDoNotMatter(judge: Judge, st: Stream, chunks: seq<Bytes>)
    requires Feed(judge, st, []) == st
    ensures FeedAll(judge, st, chunks) == Feed(judge, st, Flatten(chunks))
    decreases |chunks|
  {
    if chunks != [] {
      var head, tail := chunks[0], chunks[1..];
      var next := Feed(judge, st, head);
      if st.fault.Open? {
        DrainThenFeed(judge, st.frames, st.pending + head, []);
        DrainThenFeed(judge, st.frames, st.pending + head, Flatten(tail));
        assert st.pending + head + [] == st.pending + head;
        assert st.pending + (head + Flatten(tail)) == st.pending + head + Flatten(tail);
      }
      ChunksDoNotMatter(judge, next, tail);
    }
  }

  /** Two ways of cutting up one byte stream end in the same state. */
  lemma SameStreamSameOutcome(judge: Judge, one: seq<Bytes>, other: seq<Bytes>)
    requires Flatten(one) == Flatten(other)
    ensures FeedAll(judge, FRESH, one) == FeedAll(judge, FRESH, other)
  {
    ChunksDoNotMatter(judge, FRESH, one);
    ChunksDoNotMatter(judge, FRESH, other);
  }

  /** A payload beyond the limit has no frame. */
  function EncodeAll(payloads: seq<Bytes>): Bytes {
    if payloads == [] then []
    else (if Encode(payloads[0]).Some? then Encode(payloads[0]).value else []) + EncodeAll(payloads[1..])
  }

  predicate AllEncodable(payloads: seq<Bytes>) { forall i | 0 <= i < |payloads| :: Encode(payloads[i]).Some? }

  /** The recorder takes one encoded frame off the front of the stream. */
  lemma DrainOne(frames: seq<Bytes>, p: Bytes, tail: Bytes)
    requires Encode(p).Some?
    ensures Drain(RECORDER_JUDGE, frames, Encode(p).value + tail)
         == if p == [] then Stream(frames, [], BadFrame) else Drain(RECORDER_JUDGE, frames + [p], tail)
  {
    var buf := Encode(p).value + tail;
    assert HeaderValue(buf) == HeaderValue(Header(|p|));
    assert buf[4..4 + |p|] == p && buf[4 + |p|..] == tail;
  }

  lemma FirstThenRest(frames: seq<Bytes>, payloads: seq<Bytes>)
    ensures payloads == [] ==> frames + payloads == frames
    ensures payloads != [] ==> frames + [payloads[0]] + payloads[1..] == frames + payloads
  {
  }

  lemma {:induction false} DrainDecodes(frames: seq<Bytes>, payloads: seq<Bytes>)
    requires AllEncodable(payloads) && forall i | 0 <= i < |payloads| :: payloads[i] != []
    ensures Drain(RECORDER_JUDGE, frames, EncodeAll(payloads)) == Stream(frames + payloads, [], Open)
    decreases |payloads|
  {
    FirstThenRest(frames, payloads);
    if payloads != [] {
      var p, rest := payloads[0], payloads[1..];
      DrainOne(frames, p, EncodeAll(rest));
      DrainDecodes(frames + [p], rest);
    }
  }

  lemma {:induction false} DrainPoisoned(frames: seq<Bytes>, payloads: seq<Bytes>, i: nat)
    requires AllEncodable(payloads) && i < |payloads| && payloads[i] == []
    ensures Drain(RECORDER_JUDGE, frames, EncodeAll(payloads)).fault == BadFrame
    decreases |payloads|
  {
    var p, rest := payloads[0], payloads[1..];
    DrainOne(frames, p, EncodeAll(rest));
    if p != [] { DrainPoisoned(frames + [p], rest, i - 1); }
  }

  lemma WholeStreamDecodes(payloads: seq<Bytes>)
    requires AllEncodable(payloads)
    ensures Drain(RECORDER_JUDGE, [], EncodeAll(payloads)) == Stream(payloads, [], Open) <==> [] !in payloads
  {
    if [] in payloads {
      var i :| 0 <= i < |payloads| && payloads[i] == [];
      DrainPoisoned([], payloads, i);
    } else {
      DrainDecodes([], payloads);
      assert [] + payloads == payloads;
    }
  }

  /**
   * What `Encode` accepts decodes back unchanged under every chunking exactly
   * when no payload is empty: `Encode` frames the empty payload, but the
   * decoder at the other end takes its zero length for poison.
   */
  lemma RoundTripsIffNoneEmpty(payloads: seq<Bytes>, chunks: seq<Bytes>)
    requires AllEncodable(payloads) && Flatten(chunks) == EncodeAll(payloads)
    ensures FeedAll(RECORDER_JUDGE, FRESH, chunks) == Stream(payloads, [], Open)
       <==> [] !in payloads
  {
    ChunksDoNotMatter(RECORDER_JUDGE, FRESH, chunks);
    assert [] + EncodeAll(payloads) == EncodeAll(payloads);
    WholeStreamDecodes(payloads);
  }

  /** What stays buffered is always short of one header plus one largest payload. */
  lemma {:induction false} PendingIsShort(judge: Judge, frames: seq<Bytes>, buf: Bytes)
    ensures |Drain(judge, frames, buf).pending| < 4 + MAX_FRAME_BYTES
    decreases |buf|
  {
    if |buf| >= 4 && HeaderValue(buf) <= MAX_FRAME_BYTES && |buf| >= 4 + HeaderValue(buf) {
      var payload := buf[4..4 + HeaderValue(buf)];
      PendingIsShort(judge, frames + [payload], buf[4 + HeaderValue(buf)..]);
    }
  }

  /** The stream that buffers the most: a largest frame missing its last byte. */
  function AlmostLargestFrame(): Bytes {
    Header(MAX_FRAME_BYTES) + seq(MAX_FRAME_BYTES - 1, _ => 0)
  }

  /**
   * The per-connection byte budget can only ever fire when it is below one byte
   * short of a largest frame; the default of header plus payload never does.
   */
  lemma BudgetNeverFiresIff(judge: Judge, budget: nat)
    ensures (forall chunks :: FeedAll(judge, FRESH, chunks).fault.Open?
                        ==> |FeedAll(judge, FRESH, chunks).pending| <= budget)
       <==> budget >= MAX_FRAME_BYTES + 3
  {
    if budget >= MAX_FRAME_BYTES + 3 {
      forall chunks ensures |FeedAll(judge, FRESH, chunks).pending| <= budget {
        ChunksDoNotMatter(judge, FRESH, chunks);
        PendingIsShort(judge, [], [] + Flatten(chunks));
      }
    } else {
      var buf := AlmostLargestFrame();
      assert HeaderValue(buf) == HeaderValue(Header(MAX_FRAME_BYTES));
      var chunks := [buf];
      assert FRESH.pending + buf == buf;
      assert FeedAll(judge, FRESH, chunks) == FeedAll(judge, Feed(judge, FRESH, buf), chunks[1..]);
      assert FeedAll(judge, FRESH, chunks).pending == buf;
    }
  }

  /** One accepted socket of the daemon: bytes wait in a list of chunks. */
  class Connection {
    const judge: Judge
    const budget: nat
    var chunks: seq<Bytes>
    var buffered: nat
    var alive: bool
    /** Payloads handed to the router, in order. */
    var frames: seq<Bytes>
    var fault: Fault

    ghost predicate Valid()
      reads this
    {
      buffered == |Flatten(chunks)| && (alive <==> fault.Open?)
    }

    ghost function State(): Stream
      reads this
    {
      Stream(frames, if alive then Flatten(chunks) else [], fault)
    }

    constructor (judge: Judge, budget: nat := MAX_FRAME_BYTES + 4)
      ensures Valid() && State() == FRESH && this.judge == judge && this.budget == budget
    {
      this.judge, this.budget := judge, budget;
      chunks, buffered, alive, frames, fault := [], 0, true, [], Open;
    }

    method Reject(reason: Fault)
      requires !reason.Open?
      modifies this`alive, this`fault
      ensures !alive && fault == reason
    {
      alive, fault := false, reason;
    }

    method TakeIn(chunk: Bytes)
      requires Valid()
      modifies this`chunks, this`buffered
      ensures Valid() && chunks != [] && Flatten(chunks) == old(Flatten(chunks)) + chunk
    {
      FlattenAppends(chunks, chunk);
      if buffered == 0 || |chunks| == 0 {
        FlattenOne(chunk);
        assert [] + chunk == chunk;
        chunks := [chunk];
      } else {
        chunks := chunks + [chunk];
      }
      buffered := buffered + |chunk|;
    }

    /** The next four bytes, without joining the chunks when the first holds them. */
    method PeekLength() returns (length: nat)
      requires Valid() && buffered >= 4 && chunks != []
      ensures length == HeaderValue(Flatten(chunks))
    {
      assert chunks == [chunks[0]] + chunks[1..];
      length := HeaderValue(if |chunks[0]| >= 4 then chunks[0] else Flatten(chunks)[..4]);
    }

    method TakeFrame(length: nat) returns (body: Bytes)
      requires Valid() && buffered >= 4 + length && chunks != []
      modifies this`chunks, this`buffered
      ensures Valid() && chunks != [] && body == old(Flatten(chunks))[4..4 + length]
      ensures Flatten(chunks) == old(Flatten(chunks))[4 + length..]
    {
      var flat := if |chunks| == 1 then chunks[0] else Flatten(chunks);
      FlattenOne(chunks[0]);
      assert flat == Flatten(chunks) by { assert |chunks| == 1 ==> chunks == [chunks[0]]; }
      body := flat[4..4 + length];
      FlattenOne(flat[4 + length..]);
      buffered := buffered - (4 + length);
      chunks := [flat[4 + length..]];
    }

    /** Frames out of the chunk list until it is short of one or the stream stands. */
    method Extract(ghost goal: Stream)
      requires Valid() && alive && chunks != [] && goal == Drain(judge, frames, Flatten(chunks))
      modifies this
      ensures Valid() && State() == goal
    {
      while alive && buffered >= 4
        invariant Valid() && chunks != []
        invariant if alive then goal == Drain(judge, frames, Flatten(chunks)) else State() == goal
        decreases alive, buffered
      {
        var length := PeekLength();
        if length > MAX_FRAME_BYTES {
          Reject(Oversize);
          return;
        }
        if buffered < 4 + length {
          break;
        }
        var body := TakeFrame(length);
        match judge(frames, body) {
          case Malformed =>
            Reject(BadFrame);
            return;
          case Closing =>
            frames, alive, fault := frames + [body], false, Closed;
          case Accepted =>
            frames := frames + [body];
        }
      }
    }

    method OnData(chunk: Bytes)
      requires Valid()
      modifies this
      ensures Valid()
      ensures var next := Feed(judge, old(State()), chunk);
              State() == if next.fault.Open? && |next.pending| > budget
                         then Stream(next.frames, [], BadFrame) else next
      ensures budget >= MAX_FRAME_BYTES + 3 ==> State() == Feed(judge, old(State()), chunk)
    {
      ghost var goal := Feed(judge, State(), chunk);
      if alive { PendingIsShort(judge, frames, Flatten(chunks) + chunk); }
      TakeIn(chunk);
      if alive { Extract(goal); }
      if alive && buffered > budget {
        Reject(BadFrame);
      }
    }
  }

  /** The recorder's receive side: one flat buffer consumed from the front. */
  class FrameBuffer {
    var buffer: Bytes
    /** Payloads handed to the sink, in order. */
    var frames: seq<Bytes>
    var fault: Fault

    ghost function State(): Stream
      reads this
    {
      Stream(frames, buffer, fault)
    }

    constructor ()
      ensures State() == FRESH
    {
      buffer, frames, fault := [], [], Open;
    }

    method ExtractFrames(chunk: Bytes)
      requires fault.Open?  // the caller closes the connection on the first fault
      modifies this
      ensures State() == Feed(RECORDER_JUDGE, old(State()), chunk)
    {
      buffer := buffer + chunk;
      ghost var goal := Drain(RECORDER_JUDGE, frames, buffer);
      while |buffer| >= 4
        invariant fault.Open? && goal == Drain(RECORDER_JUDGE, frames, buffer)
        decreases |buffer|
      {
        var length := HeaderValue(buffer[..4]);
        if length == 0 {
          buffer, fault := [], BadFrame;
          return;
        }
        if length > MAX_FRAME_BYTES {
          buffer, fault := [], Oversize;
          return;
        }
        var total := 4 + length;
        if |buffer| < total {
          break;
        }
        frames := frames + [buffer[4..][..length]];
        assert buffer[4..][..length] == buffer[4..4 + length];
        buffer := buffer[total..];
      }
    }
  }
}
