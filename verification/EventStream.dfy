/** The event reader behind `sdi watch`: reassembling server-sent events from arbitrary chunks. */
module EventStream {
  import opened Wrappers
  import opened Text

  newtype byte = b: int | 0 <= b < 256

  const LF: byte := 10

  /** One item of the response stream: a chunk of bytes, or a transport error. */
  datatype Chunk = Data(bytes: seq<byte>) | Broken

  datatype Event = Event(kind: string, body: string)

  /** How a frame becomes an event: lossy decoding, JSON parsing and the `--kind` filter. */
  datatype Reader = Reader(lossy: seq<byte> -> string, parse: string -> Option<Event>, prefix: Option<string>)

  predicate BoundaryAt(buf: seq<byte>, i: int) {
    0 <= i && i + 2 <= |buf| && buf[i] == LF && buf[i + 1] == LF
  }

  /** `find_event_boundary`: the first position of LF LF. */
  function FindBoundary(buf: seq<byte>): (r: Option<nat>)
    ensures r.Some? ==> BoundaryAt(buf, r.value) && forall j :: 0 <= j < r.value ==> !BoundaryAt(buf, j)
    ensures r.None? ==> forall j :: !BoundaryAt(buf, j)
  {
    if |buf| < 2 then None
    else if BoundaryAt(buf, 0) then Some(0)
    else
      var r := FindBoundary(buf[1..]);
      assert forall j :: BoundaryAt(buf[1..], j) ==> BoundaryAt(buf, j + 1);
      assert forall j :: 1 <= j && BoundaryAt(buf, j) ==> BoundaryAt(buf[1..], j - 1);
      if r.None? then None else Some(r.value + 1)
  }

  // ── the intended meaning: frames of a byte stream ──────────────────────

  /** Frames of a whole stream, each ended by its first LF LF. */
  function Frames(buf: seq<byte>): seq<seq<byte>>
    decreases |buf|
  {
    match FindBoundary(buf)
    case None => []
    case Some(i) => [buf[..i]] + Frames(buf[i + 2..])
  }

  /** Bytes after the last complete frame. */
  function Leftover(buf: seq<byte>): seq<byte>
    decreases |buf|
  {
    match FindBoundary(buf)
    case None => buf
    case Some(i) => Leftover(buf[i + 2..])
  }

  /** `frames` and `rest` cut `buf` at LF LF, no frame holds or straddles an earlier LF LF, `rest` holds none. */
  ghost predicate IsFraming(buf: seq<byte>, frames: seq<seq<byte>>, rest: seq<byte>)
    decreases frames
  {
    if frames == [] then
      buf == rest && forall j :: !BoundaryAt(rest, j)
    else
      var n := |frames[0]|;
      && BoundaryAt(buf, n) && buf[..n] == frames[0]
      && (forall j :: 0 <= j < n ==> !BoundaryAt(buf, j))
      && IsFraming(buf[n + 2..], frames[1..], rest)
  }

  /** `Frames` and `Leftover` are the one and only framing of a stream. */
  lemma {:induction false} FramingUnique(buf: seq<byte>, frames: seq<seq<byte>>, rest: seq<byte>)
    ensures IsFraming(buf, frames, rest) <==> frames == Frames(buf) && rest == Leftover(buf)
    decreases |buf|
  {
    match FindBoundary(buf) {
      case None =>
      case Some(i) =>
        if frames != [] {
          FramingUnique(buf[i + 2..], frames[1..], rest);
          assert frames == [frames[0]] + frames[1..];
          var n := |frames[0]|;
          if BoundaryAt(buf, n) && forall j :: 0 <= j < n ==> !BoundaryAt(buf, j) {
            assert n == i;
          }
        }
    }
  }

  lemma FirstBoundaryKept(a: seq<byte>, b: seq<byte>)
    requires FindBoundary(a).Some?
    ensures FindBoundary(a + b) == FindBoundary(a)
  {
    var i := FindBoundary(a).value;
    forall j | 0 <= j < i ensures !BoundaryAt(a + b, j) {
      assert !BoundaryAt(a, j);
    }
    assert BoundaryAt(a + b, i);
  }

  /** Reading `a` first and then `b` behind its leftover finds exactly the frames of `a + b`. */
  lemma {:induction false} FramesAppend(a: seq<byte>, b: seq<byte>)
    ensures Frames(a + b) == Frames(a) + Frames(Leftover(a) + b)
    ensures Leftover(a + b) == Leftover(Leftover(a) + b)
    decreases |a|
  {
    if FindBoundary(a).Some? {
      var i := FindBoundary(a).value;
      var tail := a[i + 2..];
      FirstBoundaryKept(a, b);
      assert (a + b)[..i] == a[..i];
      assert (a + b)[i + 2..] == tail + b;
      FramesAppend(tail, b);
      var rest := Frames(Leftover(tail) + b);
      assert Frames(a + b) == [a[..i]] + (Frames(tail) + rest);
      assert [a[..i]] + (Frames(tail) + rest) == ([a[..i]] + Frames(tail)) + rest;
    }
  }

  // ── decoding a frame ───────────────────────────────────────────────────

  /** The last `data: ` line of a frame. */
  function DataLine(lines: seq<string>): Option<string> {
    if lines == [] then None
    else match DataLine(lines[1..])
      case Some(d) => Some(d)
      case None => StripPrefix(lines[0], "data: ")
  }

  function Decode(r: Reader, frame: seq<byte>): Option<Event> {
    match DataLine(Lines(r.lossy(frame)))
    case None => None
    case Some(data) =>
      match r.parse(data)
      case None => None
      case Some(ev) => if r.prefix.Some? && !(r.prefix.value <= ev.kind) then None else Some(ev)
  }

  function Emitted(r: Reader, frames: seq<seq<byte>>): seq<Event> {
    if frames == [] then []
    else
      (match Decode(r, frames[0]) case None => [] case Some(ev) => [ev]) + Emitted(r, frames[1..])
  }

  lemma {:induction false} EmittedAppend(r: Reader, a: seq<seq<byte>>, b: seq<seq<byte>>)
    ensures Emitted(r, a + b) == Emitted(r, a) + Emitted(r, b)
  {
    if a == [] {
      assert a + b == b;
    } else {
      assert (a + b)[1..] == a[1..] + b;
      EmittedAppend(r, a[1..], b);
    }
  }

  // ── chunked delivery ───────────────────────────────────────────────────

  /** Bytes received before the stream ends or breaks. */
  function Delivered(chunks: seq<Chunk>): seq<byte> {
    if chunks == [] || chunks[0].Broken? then []
    else chunks[0].bytes + Delivered(chunks[1..])
  }

  predicate Unbroken(chunks: seq<Chunk>) {
    forall i :: 0 <= i < |chunks| ==> chunks[i].Data?
  }

  lemma {:induction false} DeliveredSplit(chunks: seq<Chunk>, i: nat)
    requires i <= |chunks| && Unbroken(chunks[..i])
    ensures Delivered(chunks) == Delivered(chunks[..i]) + Delivered(chunks[i..])
  {
    if i == 0 {
      assert chunks[0..] == chunks;
    } else {
      assert chunks[..i][0] == chunks[0];
      assert chunks[..i][1..] == chunks[1..][..i - 1];
      assert chunks[1..][i - 1..] == chunks[i..];
      DeliveredSplit(chunks[1..], i - 1);
    }
  }

  /** The output promised for a stream: the first `count` matching events, or all of them when `count` is 0. */
  function Expected(r: Reader, bytes: seq<byte>, count: nat): seq<Event> {
    var all := Emitted(r, Frames(bytes));
    if count == 0 || |all| <= count then all else all[..count]
  }

  /** The inner loop of `watch`: take complete frames off the front of the buffer. */
  method Drain(r: Reader, grown: seq<byte>, before: seq<Event>, count: nat)
    returns (buf: seq<byte>, printed: seq<Event>, full: bool)
    requires count > 0 ==> |before| < count
    ensures full <==> count > 0 && |before + Emitted(r, Frames(grown))| >= count
    ensures full ==> |printed| == count && printed <= before + Emitted(r, Frames(grown))
    ensures !full ==> buf == Leftover(grown) && printed == before + Emitted(r, Frames(grown))
  {
    buf, printed, full := grown, before, false;
    var pos := FindBoundary(buf);
    while pos.Some?
      invariant pos == FindBoundary(buf)
      invariant Leftover(grown) == Leftover(buf)
      invariant before + Emitted(r, Frames(grown)) == printed + Emitted(r, Frames(buf))
      invariant count > 0 ==> |printed| < count
      decreases |buf|
    {
      var raw := buf[..pos.value];
      ghost var rest := Emitted(r, Frames(buf[pos.value + 2..]));
      buf := buf[pos.value + 2..];
      pos := FindBoundary(buf);
      var ev := Decode(r, raw);
      if ev.Some? {
        assert printed + ([ev.value] + rest) == printed + [ev.value] + rest;
        printed := printed + [ev.value];
        if count > 0 && |printed| >= count {
          full := true;
          return;
        }
      } else {
        assert [] + rest == rest;
      }
    }
  }

  /** `watch`: grow the buffer chunk by chunk, drain complete frames, stop at the count limit. */
  method Watch(r: Reader, chunks: seq<Chunk>, count: nat) returns (printed: seq<Event>, ok: bool)
    ensures printed == Expected(r, Delivered(chunks), count)
    ensures ok <==> Unbroken(chunks) || (count > 0 && |printed| == count)
  {
    var buf: seq<byte> := [];
    ghost var seen: seq<byte> := [];
    printed := [];
    var i := 0;
    while i < |chunks|
      invariant 0 <= i <= |chunks|
      invariant Unbroken(chunks[..i])
      invariant seen == Delivered(chunks[..i])
      invariant buf == Leftover(seen)
      invariant printed == Emitted(r, Frames(seen))
      invariant count > 0 ==> |printed| < count
    {
      if chunks[i].Broken? {
        BrokenStops(chunks, i);
        return printed, false;
      }
      ChunkDelivers(chunks, i);
      MoreBytes(r, seen, chunks[i].bytes);
      seen := seen + chunks[i].bytes;
      var full;
      buf, printed, full := Drain(r, buf + chunks[i].bytes, printed, count);
      i := i + 1;
      if full {
        PrefixExpected(r, chunks, i, printed, count);
        return printed, true;
      }
    }
    assert chunks[..i] == chunks;
    return printed, true;
  }

  lemma BrokenStops(chunks: seq<Chunk>, i: nat)
    requires i < |chunks| && Unbroken(chunks[..i]) && chunks[i].Broken?
    ensures Delivered(chunks) == Delivered(chunks[..i])
  {
    DeliveredSplit(chunks, i);
    assert chunks[i..][0].Broken?;
    assert Delivered(chunks[..i]) + [] == Delivered(chunks[..i]);
  }

  lemma ChunkDelivers(chunks: seq<Chunk>, i: nat)
    requires i < |chunks| && Unbroken(chunks[..i]) && chunks[i].Data?
    ensures Unbroken(chunks[..i + 1])
    ensures Delivered(chunks[..i + 1]) == Delivered(chunks[..i]) + chunks[i].bytes
  {
    var head := chunks[..i + 1];
    assert head[..i] == chunks[..i];
    assert head[i..] == [chunks[i]];
    DeliveredSplit(head, i);
    assert Delivered([chunks[i]]) == chunks[i].bytes + [];
  }

  lemma MoreBytes(r: Reader, seen: seq<byte>, more: seq<byte>)
    ensures Leftover(seen + more) == Leftover(Leftover(seen) + more)
    ensures Emitted(r, Frames(seen + more)) == Emitted(r, Frames(seen)) + Emitted(r, Frames(Leftover(seen) + more))
  {
    FramesAppend(seen, more);
    EmittedAppend(r, Frames(seen), Frames(Leftover(seen) + more));
  }

  lemma PrefixExpected(r: Reader, chunks: seq<Chunk>, i: nat, printed: seq<Event>, count: nat)
    requires i <= |chunks| && Unbroken(chunks[..i])
    requires count > 0 && |printed| == count
    requires printed <= Emitted(r, Frames(Delivered(chunks[..i])))
    ensures printed == Expected(r, Delivered(chunks), count)
  {
    DeliveredSplit(chunks, i);
    var a, b := Delivered(chunks[..i]), Delivered(chunks[i..]);
    MoreBytes(r, a, b);
    assert Emitted(r, Frames(a + b))[..count] == printed;
  }

  // ── chunking independence ──────────────────────────────────────────────

  /** What the drain loop leaves after each chunk: frames taken so far and the buffer. */
  function Reassemble(chunks: seq<seq<byte>>): (seq<seq<byte>>, seq<byte>)
  {
    if chunks == [] then ([], [])
    else
      var (frames, buf) := Reassemble(chunks[..|chunks| - 1]);
      var grown := buf + chunks[|chunks| - 1];
      (frames + Frames(grown), Leftover(grown))
  }

  function Flatten(chunks: seq<seq<byte>>): seq<byte> {
    if chunks == [] then [] else Flatten(chunks[..|chunks| - 1]) + chunks[|chunks| - 1]
  }

  /** However a stream is cut into chunks, the frames and the leftover are those of the whole stream. */
  lemma {:induction false} ChunkingIndependence(chunks: seq<seq<byte>>)
    ensures Reassemble(chunks) == (Frames(Flatten(chunks)), Leftover(Flatten(chunks)))
    ensures IsFraming(Flatten(chunks), Reassemble(chunks).0, Reassemble(chunks).1)
  {
    if chunks != [] {
      var head, last := chunks[..|chunks| - 1], chunks[|chunks| - 1];
      ChunkingIndependence(head);
      FramesAppend(Flatten(head), last);
    }
    FramingUnique(Flatten(chunks), Reassemble(chunks).0, Reassemble(chunks).1);
  }

  /** A smaller count limit prints a prefix of what a larger one, or no limit, prints. */
  lemma CountLimitIsPrefix(r: Reader, bytes: seq<byte>, count: nat, more: nat)
    requires more == 0 || 0 < count <= more
    ensures Expected(r, bytes, count) <= Expected(r, bytes, more)
    ensures |Expected(r, bytes, count)| == |Emitted(r, Frames(bytes))| || |Expected(r, bytes, count)| == count
  {
  }
}
