// The shared-memory byte FIFO of the GLINK SPSS edge: a ring whose writer owns
// the head word and whose reader owns the tail word.
//
// Ring is the memory both sides see.  Pipe is the driver's view of it, with one
// method per native pipe operation.  The transition system at the end lets the
// reader run between any two bytes the writer stores.

module GlinkFifo {
  import opened CTypes

  const FIFO_FULL_RESERVE := 8
  const TX_BLOCKED_CMD_RESERVE := 8

  // ---------- The ring as a value ----------

  datatype Ring = Ring(buf: seq<byte>, head: nat, tail: nat) {
    // All that a reader relies on;
    ghost predicate InRange() {
      && 24 <= |buf| <= 0x4000_0000
      && |buf| % 8 == 0
      && head < |buf| && tail < |buf|
    }

    // a writer also keeps its own head aligned.
    ghost predicate WellFormed() {
      InRange() && head % 8 == 0
    }
  }

  // The position k bytes after base, where the ring closes on itself.
  function Pos(length: nat, base: nat, k: nat): (p: nat)
    requires base < length && k <= length
    ensures p < length
  {
    if base + k >= length then base + k - length else base + k
  }

  ghost function Slice(buf: seq<byte>, at: nat, n: nat): (s: seq<byte>)
    requires at < |buf| && n <= |buf|
    ensures |s| == n
  {
    seq(n, k requires 0 <= k < n => buf[Pos(|buf|, at, k)])
  }

  // How far head is ahead of tail.
  function Used(length: nat, head: nat, tail: nat): nat
    requires head < length && tail < length
  {
    if head < tail then length - tail + head else head - tail
  }

  // The bytes published by the writer and not yet released by the reader.
  ghost function Unread(r: Ring): seq<byte>
    requires r.InRange()
  {
    Slice(r.buf, r.tail, Used(|r.buf|, r.head, r.tail))
  }

  function TxAvail(length: nat, head: nat, tail: nat): nat
    requires head < length && tail < length
  {
    var avail := if tail <= head then length - head + tail else tail - head;
    if avail < FIFO_FULL_RESERVE + TX_BLOCKED_CMD_RESERVE then 0
    else avail - (FIFO_FULL_RESERVE + TX_BLOCKED_CMD_RESERVE)
  }

  // Slot i lies among the n slots that follow head.
  predicate Covers(length: nat, head: nat, n: nat, i: nat)
    requires head < length && i < length
  {
    Used(length, i, head) < n
  }

  // buf with data laid over the slots that follow head.
  ghost function Overlay(buf: seq<byte>, head: nat, data: seq<byte>): (r: seq<byte>)
    requires head < |buf| && |data| <= |buf|
    ensures |r| == |buf|
  {
    seq(|buf|, i requires 0 <= i < |buf| =>
      if Covers(|buf|, head, |data|, i) then data[Used(|buf|, i, head)] else buf[i])
  }

  lemma AlignedStep(length: nat, head: nat, n: nat)
    requires head < length && head % 8 == 0 && length % 8 == 0 && n % 8 == 0 && n <= length
    ensures Pos(length, head, n) % 8 == 0
  {
    assert (head + n) % 8 == 0;
  }

  // The ring after a message has been stored and the aligned head published.
  ghost function Written(r: Ring, msg: seq<byte>): (w: Ring)
    requires r.WellFormed() && Align8(|msg|) <= |r.buf|
    ensures w.WellFormed()
  {
    AlignedStep(|r.buf|, r.head, Align8(|msg|));
    Ring(Overlay(r.buf, r.head, msg), Pos(|r.buf|, r.head, Align8(|msg|)), r.tail)
  }

  // ---------- Index arithmetic ----------

  lemma PosPos(length: nat, base: nat, j: nat, k: nat)
    requires base < length && j + k <= length
    ensures Pos(length, Pos(length, base, j), k) == Pos(length, base, j + k)
  {
  }

  // tx_avail is the free space short of sixteen bytes, whatever the wrap.
  lemma TxAvailIsComplement(length: nat, head: nat, tail: nat)
    requires head < length && tail < length
    ensures TxAvail(length, head, tail) == Max(0, length - Used(length, head, tail) - 16)
  {
  }

  // ---------- What a write does to the unread bytes ----------

  // A message that fits behind the unread bytes is appended to them unchanged,
  // followed by fewer than eight bytes of padding, across any wrap.
  lemma WriteAppends(r: Ring, msg: seq<byte>)
    requires r.WellFormed()
    requires Used(|r.buf|, r.head, r.tail) + Align8(|msg|) < |r.buf|
    ensures var before, after := Unread(r), Unread(Written(r, msg));
            && |after| == |before| + Align8(|msg|)
            && after[..|before| + |msg|] == before + msg
            && |after| - |before| - |msg| < 8
  {
  }

  // Without the room, the unread bytes come out short by one full ring: the
  // append holds exactly when occupancy plus the aligned length stays below it.
  lemma WriteAppendsExactlyWhenItFits(r: Ring, msg: seq<byte>)
    requires r.WellFormed() && Align8(|msg|) <= |r.buf|
    ensures |Unread(Written(r, msg))| == |Unread(r)| + Align8(|msg|)
            <==> Used(|r.buf|, r.head, r.tail) + Align8(|msg|) < |r.buf|
  {
  }

  // The tx_avail check, with its reserve, leaves room for the alignment too.
  lemma AvailLeavesRoom(r: Ring, size: nat)
    requires r.WellFormed() && size <= TxAvail(|r.buf|, r.head, r.tail)
    ensures size == 0 || Used(|r.buf|, r.head, r.tail) + Align8(size) <= |r.buf| - 9
  {
  }

  // t has msg, padded to a multiple of eight bytes, behind what r has unread, and
  // nine bytes still free.
  ghost predicate Appended(r: Ring, msg: seq<byte>, t: Ring)
    requires r.WellFormed() && t.WellFormed()
  {
    var before, after := Unread(r), Unread(t);
    && |after| == |before| + Align8(|msg|)
    && after[..|before| + |msg|] == before + msg
    && (msg != [] ==> |after| <= |t.buf| - 9)
  }

  lemma CheckedWriteAppends(r: Ring, msg: seq<byte>)
    requires r.WellFormed() && |msg| <= TxAvail(|r.buf|, r.head, r.tail)
    ensures Align8(|msg|) <= |r.buf| && Appended(r, msg, Written(r, msg))
  {
  }

  // Releasing count bytes drops exactly that prefix.
  lemma AdvanceDrops(r: Ring, count: nat)
    requires r.InRange() && count <= Used(|r.buf|, r.head, r.tail)
    ensures Unread(r.(tail := Pos(|r.buf|, r.tail, count))) == Unread(r)[count..]
  {
  }

  lemma PeekIsSlice(r: Ring, offset: nat, count: nat)
    requires r.InRange() && offset + count <= Used(|r.buf|, r.head, r.tail)
    ensures Slice(r.buf, Pos(|r.buf|, r.tail, offset), count) == Unread(r)[offset..offset + count]
  {
  }

  // Two writes end to end are one write of the concatenation.
  lemma OverlayConcat(buf: seq<byte>, head: nat, hdr: seq<byte>, data: seq<byte>)
    requires head < |buf| && |hdr| + |data| <= |buf|
    ensures Overlay(Overlay(buf, head, hdr), Pos(|buf|, head, |hdr|), data) == Overlay(buf, head, hdr + data)
  {
  }

  // The two unaligned steps and the alignment land where one aligned step does.
  lemma AlignedHead(length: nat, head: nat, hlen: nat, dlen: nat)
    requires head < length && head % 8 == 0 && length % 8 == 0 && hlen + dlen <= length
    ensures Align8(hlen + dlen) <= length
    ensures var h := Align8(Pos(length, Pos(length, head, hlen), dlen));
            (if h >= length then h - length else h) == Pos(length, head, Align8(hlen + dlen))
  {
    PosPos(length, head, hlen, dlen);
    Align8Fits(hlen + dlen, length);
    var total, a, b := hlen + dlen, head / 8, length / 8;
    if head + total < length {
      Align8Shift(total, a);
    } else {
      Align8Shift(total, a - b);
    }
  }

  // tx_write() steps over the header, over the data, and then aligns.
  lemma TwoWrites(r: Ring, hdr: seq<byte>, data: seq<byte>, mid: nat, end: nat, h: nat)
    requires r.WellFormed() && |hdr| + |data| <= |r.buf|
    requires mid == Pos(|r.buf|, r.head, |hdr|) && end == Pos(|r.buf|, mid, |data|)
    requires h == if Align8(end) >= |r.buf| then Align8(end) - |r.buf| else Align8(end)
    ensures Align8(|hdr + data|) <= |r.buf|
    ensures Ring(Overlay(Overlay(r.buf, r.head, hdr), mid, data), h, r.tail) == Written(r, hdr + data)
  {
    AlignedHead(|r.buf|, r.head, |hdr|, |data|);
    OverlayConcat(r.buf, r.head, hdr, data);
  }

  lemma Align8Fits(x: nat, length: nat)
    requires x <= length && length % 8 == 0
    ensures Align8(x) <= length
  {
  }

  lemma Align8Shift(x: nat, k: int)
    requires 0 <= x + 8 * k
    ensures Align8(x + 8 * k) == Align8(x) + 8 * k
  {
  }

  // ---------- The driver's operations ----------

  // One pipe with both of its ends: the writer's operations own head, the
  // reader's own tail.
  class Pipe {
    const length: nat
    const fifo: array<byte>
    var head: u32
    var tail: u32

    ghost predicate Valid()
      reads this, fifo
    {
      fifo.Length == length && Ring(fifo[..], head, tail).InRange()
    }

    // The writer's own word, on top of that.
    ghost predicate Writing()
      reads this, fifo
    {
      Valid() && head % 8 == 0
    }

    ghost function View(): Ring
      reads this, fifo
    {
      Ring(fifo[..], head, tail)
    }

    // The words already in the memory are the peer's: one of them is overwritten.
    constructor Register(fifo: array<byte>, writer: bool, head: u32, tail: u32)
      requires 24 <= fifo.Length <= 0x4000_0000 && fifo.Length % 8 == 0
      requires if writer then tail < fifo.Length else head < fifo.Length
      ensures Valid() && (writer ==> Writing()) && this.fifo == fifo && length == fifo.Length
      ensures View() == if writer then Ring(fifo[..], 0, tail) else Ring(fifo[..], head, 0)
      ensures (if writer then tail else head) == 0 ==> Unread(View()) == []
    {
      this.length, this.fifo := fifo.Length, fifo;
      this.head := if writer then 0 else head;
      this.tail := if writer then tail else 0;
    }

    method RxAvail() returns (n: nat)
      requires Valid()
      ensures n == |Unread(View())|
    {
      if head < tail {
        n := length - tail + head;
      } else {
        n := head - tail;
      }
    }

    method RxPeak(data: array<byte>, offset: nat, count: nat)
      requires Valid() && data != fifo
      requires offset <= length && count <= length && count <= data.Length
      modifies data
      ensures data[..count] == Slice(fifo[..], Pos(length, tail, offset), count)
      ensures data[count..] == old(data[count..])
      ensures offset + count <= |Unread(View())| ==> data[..count] == Unread(View())[offset..offset + count]
    {
      var t: u32 := tail + offset;
      if t >= length {
        t := t - length;
      }
      CopyOut(data, t, count);
      if offset + count <= |Unread(View())| {
        PeekIsSlice(View(), offset, count);
      }
    }

    // The one or two copies out of the fifo.
    method CopyOut(data: array<byte>, at: u32, count: nat)
      requires Valid() && data != fifo && at < length && count <= length && count <= data.Length
      modifies data
      ensures data[..count] == Slice(fifo[..], at, count) && data[count..] == old(data[count..])
    {
      var len := Min(count, length - at);
      forall k | 0 <= k < len {
        data[k] := fifo[at + k];
      }
      if len != count {
        forall k | 0 <= k < count - len {
          data[len + k] := fifo[k];
        }
      }
      assert data[..count] == Slice(fifo[..], at, count);
    }

    method RxAdvance(count: nat)
      requires Valid() && count <= length
      modifies this`tail
      ensures Valid() && tail == Pos(length, old(tail), count)
      ensures count <= old(|Unread(View())|) ==> Unread(View()) == old(Unread(View()))[count..]
    {
      ghost var before := View();
      var t: u32 := tail + count;
      if t >= length {
        t := t - length;
      }
      tail := t;
      if count <= |Unread(before)| {
        AdvanceDrops(before, count);
      }
    }

    method TxAvailable() returns (avail: nat)
      requires Valid()
      ensures avail == TxAvail(length, head, tail)
      ensures avail == Max(0, length - |Unread(View())| - 16)
    {
      if tail <= head {
        avail := length - head + tail;
      } else {
        avail := tail - head;
      }
      if avail < FIFO_FULL_RESERVE + TX_BLOCKED_CMD_RESERVE {
        avail := 0;
      } else {
        avail := avail - (FIFO_FULL_RESERVE + TX_BLOCKED_CMD_RESERVE);
      }
    }

    method TxWriteOne(at: u32, data: seq<byte>) returns (next: u32)
      requires Valid() && at < length && |data| <= length
      modifies fifo
      ensures Valid()
      ensures fifo[..] == Overlay(old(fifo[..]), at, data)
      ensures next == Pos(length, at, |data|)
    {
      var count := |data|;
      var len := Min(count, length - at);
      forall k | 0 <= k < len {
        fifo[at + k] := data[k];
      }
      if len != count {
        forall k | 0 <= k < count - len {
          fifo[k] := data[len + k];
        }
      }
      next := at + count;
      if next >= length {
        next := next - length;
      }
      assert fifo[..] == Overlay(old(fifo[..]), at, data);
    }

    // The caller is expected to have seen |hdr| + |data| fit into tx_avail; that
    // is what turns the write into an append.
    method TxWrite(hdr: seq<byte>, data: seq<byte>)
      requires Writing() && |hdr| + |data| <= length
      modifies fifo, this`head
      ensures Writing() && View() == Written(old(View()), hdr + data)
      ensures |hdr| + |data| <= TxAvail(length, old(head), tail) ==> Appended(old(View()), hdr + data, View())
    {
      ghost var before := View();
      var h := TxWriteOne(head, hdr);
      ghost var mid := h;
      h := TxWriteOne(h, data);
      ghost var end := h;
      h := Align8(h);
      if h >= length {
        h := h - length;
      }
      head := h;

      TwoWrites(before, hdr, data, mid, end, h);
      if |hdr| + |data| <= TxAvail(length, before.head, tail) {
        CheckedWriteAppends(before, hdr + data);
      }
    }
  }

  // ---------- Writer and reader interleaved ----------

  // Between its tx_avail check and its head update the writer stores the message
  // byte by byte, in any order; the reader may run at every point between.
  datatype Writer = Idle | Storing(msg: seq<byte>, done: set<nat>)
  datatype System = System(ring: Ring, writer: Writer)
  datatype Event = Check(msg: seq<byte>) | Store(k: nat) | Publish | Advance(count: nat)

  ghost predicate Enabled(s: System, e: Event)
    requires s.ring.WellFormed()
  {
    var n := |s.ring.buf|;
    match e
    case Check(msg) => s.writer.Idle? && |msg| <= TxAvail(n, s.ring.head, s.ring.tail)
    case Store(k) => s.writer.Storing? && k < |s.writer.msg| <= n
    case Publish => s.writer.Storing? && Align8(|s.writer.msg|) <= n && forall k: nat :: k < |s.writer.msg| ==> k in s.writer.done
    case Advance(count) => count <= Used(n, s.ring.head, s.ring.tail)
  }

  ghost function Next(s: System, e: Event): (s': System)
    requires s.ring.WellFormed() && Enabled(s, e)
    ensures s'.ring.WellFormed()
  {
    var r, n := s.ring, |s.ring.buf|;
    match e
    case Check(msg) => s.(writer := Storing(msg, {}))
    case Store(k) =>
      System(r.(buf := r.buf[Pos(n, r.head, k) := s.writer.msg[k]]),
             s.writer.(done := s.writer.done + {k}))
    case Publish =>
      AlignedStep(n, r.head, Align8(|s.writer.msg|));
      System(r.(head := Pos(n, r.head, Align8(|s.writer.msg|))), Idle)
    case Advance(count) => s.(ring := r.(tail := Pos(n, r.tail, count)))
  }

  ghost predicate Run(s: System, es: seq<Event>, t: System)
    requires s.ring.WellFormed()
    decreases |es|
  {
    if es == [] then s == t
    else Enabled(s, es[0]) && Run(Next(s, es[0]), es[1..], t)
  }

  ghost predicate Invariant(s: System) {
    && s.ring.WellFormed()
    && var r, n := s.ring, |s.ring.buf|;
    && (s.writer.Storing? ==>
          && (s.writer.msg == [] || Used(n, r.head, r.tail) + |s.writer.msg| <= n - 16)
          && (forall k: nat :: k in s.writer.done && k < |s.writer.msg| ==> r.buf[Pos(n, r.head, k)] == s.writer.msg[k]))
  }

  ghost function Occupancy(s: System): nat
    requires s.ring.InRange()
  {
    Used(|s.ring.buf|, s.ring.head, s.ring.tail)
  }

  // Registration clears the driver's own word of each pipe and leaves the peer's.
  // As the writer it starts sound wherever the peer's tail stands: what counts as
  // unread is what lies behind that tail, and nine bytes are free if and only if the
  // tail is at the start or at least nine bytes in.
  lemma WriterStartsExactly(buf: seq<byte>, tail: nat)
    requires 24 <= |buf| <= 0x4000_0000 && |buf| % 8 == 0 && tail < |buf|
    ensures var s := System(Ring(buf, 0, tail), Idle);
            && Invariant(s) && Unread(s.ring) == (if tail == 0 then [] else buf[tail..])
            && (Occupancy(s) <= |buf| - 9 <==> tail == 0 || tail >= 9)
  {
  }

  // As the reader it does if and only if the peer's head is aligned, and the bytes
  // before that head are unread.
  lemma ReaderStartsExactly(buf: seq<byte>, head: nat)
    requires 24 <= |buf| <= 0x4000_0000 && |buf| % 8 == 0 && head < |buf|
    ensures Invariant(System(Ring(buf, head, 0), Idle)) <==> head % 8 == 0
    ensures Unread(Ring(buf, head, 0)) == buf[..head]
  {
  }

  // Nothing the writer stores lands on a byte the reader has yet to release.
  lemma StoreKeepsUnread(s: System, k: nat)
    requires Invariant(s) && Enabled(s, Store(k))
    ensures Invariant(Next(s, Store(k))) && Unread(Next(s, Store(k)).ring) == Unread(s.ring)
  {
  }

  // With every byte stored, publishing the head is one whole write.
  lemma PublishAppends(s: System)
    requires Invariant(s) && Enabled(s, Publish)
    ensures var t, msg := Next(s, Publish), s.writer.msg;
            && Invariant(t)
            && |Unread(t.ring)| == |Unread(s.ring)| + Align8(|msg|)
            && Unread(t.ring)[..|Unread(s.ring)| + |msg|] == Unread(s.ring) + msg
  {
  }

  // ---------- Refinement of a plain queue ----------

  // The messages a run publishes, read off its events alone.
  function Published(pending: seq<byte>, es: seq<Event>): seq<seq<byte>>
    decreases |es|
  {
    if es == [] then []
    else match es[0]
      case Check(msg) => Published(msg, es[1..])
      case Publish => [pending] + Published([], es[1..])
      case _ => Published(pending, es[1..])
  }

  function Released(es: seq<Event>): nat {
    if es == [] then 0
    else (if es[0].Advance? then es[0].count else 0) + Released(es[1..])
  }

  // stream is the messages in order, each padded to a multiple of eight bytes.
  ghost predicate Framed(stream: seq<byte>, msgs: seq<seq<byte>>) {
    if msgs == [] then stream == []
    else && Align8(|msgs[0]|) <= |stream|
         && stream[..|msgs[0]|] == msgs[0]
         && Framed(stream[Align8(|msgs[0]|)..], msgs[1..])
  }

  ghost function Pending(w: Writer): seq<byte> {
    if w.Storing? then w.msg else []
  }

  lemma FrameSplit(before: seq<byte>, msg: seq<byte>, after: seq<byte>, rest: seq<byte>, msgs: seq<seq<byte>>)
    requires Framed(rest, msgs)
    requires |after| == |before| + Align8(|msg|) && after[..|before| + |msg|] == before + msg
    ensures var stream := after[|before|..] + rest;
            && stream[Align8(|msg|)..] == rest
            && stream[..|msg|] == msg
            && after + rest == before + stream
            && Framed(stream, [msg] + msgs)
  {
    var frame := after[|before|..];
    assert after == before + frame by {
      assert after[..|before|] == after[..|before| + |msg|][..|before|];
    }
    assert frame[..|msg|] == after[..|before| + |msg|][|before|..];
    var stream := frame + rest;
    assert stream[..|msg|] == frame[..|msg|];
    assert stream[Align8(|msg|)..] == rest;
    assert ([msg] + msgs)[1..] == msgs;
  }

  lemma DropMore(before: seq<byte>, after: seq<byte>, stream: seq<byte>, count: nat, more: nat)
    requires count <= |before| && after == before[count..] && more <= |after + stream|
    ensures (after + stream)[more..] == (before + stream)[count + more..]
  {
  }

  lemma StepKeepsInvariant(s: System, e: Event)
    requires Invariant(s) && Enabled(s, e)
    ensures Invariant(Next(s, e))
  {
  }

  // The queue after es, from what it is after all but the first of them.
  lemma StepRefines(s: System, es: seq<Event>, rest: seq<byte>, left: seq<byte>) returns (stream: seq<byte>)
    requires es != [] && Invariant(s) && Enabled(s, es[0])
    requires var m := Next(s, es[0]);
             && Framed(rest, Published(Pending(m.writer), es[1..]))
             && Released(es[1..]) <= |Unread(m.ring)| + |rest|
             && left == (Unread(m.ring) + rest)[Released(es[1..])..]
    ensures Framed(stream, Published(Pending(s.writer), es))
    ensures Released(es) <= |Unread(s.ring)| + |stream|
    ensures left == (Unread(s.ring) + stream)[Released(es)..]
  {
    var m := Next(s, es[0]);
    stream := rest;
    match es[0]
    case Check(msg) =>
    case Store(k) => StoreKeepsUnread(s, k);
    case Publish => stream := PublishRefines(s, Published([], es[1..]), rest);
    case Advance(count) =>
      AdvanceDrops(s.ring, count);
      DropMore(Unread(s.ring), Unread(m.ring), rest, count, Released(es[1..]));
  }

  lemma PublishRefines(s: System, later: seq<seq<byte>>, rest: seq<byte>) returns (stream: seq<byte>)
    requires Invariant(s) && Enabled(s, Publish) && Framed(rest, later)
    ensures Framed(stream, [s.writer.msg] + later)
    ensures Unread(Next(s, Publish).ring) + rest == Unread(s.ring) + stream
  {
    var t := Next(s, Publish).ring;
    PublishAppends(s);
    FrameSplit(Unread(s.ring), s.writer.msg, Unread(t), rest, later);
    stream := Unread(t)[|Unread(s.ring)|..] + rest;
  }

  // Every run of one writer and one reader is a run of a plain queue: what is
  // unread at the end is what was unread at the start, followed by the published
  // messages in order, less the bytes the reader released.  Nothing is asked of the
  // occupancy at the start.
  lemma {:induction false} RunRefinesQueue(s: System, es: seq<Event>, t: System) returns (stream: seq<byte>)
    requires Invariant(s) && Run(s, es, t)
    ensures Invariant(t)
    ensures Framed(stream, Published(Pending(s.writer), es))
    ensures Released(es) <= |Unread(s.ring)| + |stream|
    ensures Unread(t.ring) == (Unread(s.ring) + stream)[Released(es)..]
    decreases |es|
  {
    if es == [] {
      stream := [];
      assert Unread(s.ring) + [] == Unread(s.ring);
    } else {
      StepKeepsInvariant(s, es[0]);
      var rest := RunRefinesQueue(Next(s, es[0]), es[1..], t);
      stream := StepRefines(s, es, rest, Unread(t.ring));
    }
  }

  lemma StepBoundsOccupancy(s: System, e: Event)
    requires Invariant(s) && Enabled(s, e)
    ensures Occupancy(Next(s, e)) <= Max(|s.ring.buf| - 9, Occupancy(s)) && |Next(s, e).ring.buf| == |s.ring.buf|
  {
  }

  // The reserve keeps the ring from ever filling up: nine bytes stay free, but for a
  // start that had less, and then what it had.
  lemma {:induction false} OccupancyIsBounded(s: System, es: seq<Event>, t: System)
    requires Invariant(s) && Run(s, es, t)
    ensures Invariant(t) && |t.ring.buf| == |s.ring.buf|
    ensures Occupancy(t) <= Max(|s.ring.buf| - 9, Occupancy(s))
    decreases |es|
  {
    if es != [] {
      StepKeepsInvariant(s, es[0]);
      StepBoundsOccupancy(s, es[0]);
      OccupancyIsBounded(Next(s, es[0]), es[1..], t);
    }
  }

  // ---------- Whole operations as runs ----------

  ghost function First(k: nat): (f: set<nat>)
    ensures forall i: nat :: i in f <==> i < k
  {
    if k == 0 then {} else First(k - 1) + {k - 1}
  }

  // The writer with its first k bytes stored.
  ghost function Stored(r: Ring, msg: seq<byte>, k: nat): System
    requires r.WellFormed() && k <= |msg| <= |r.buf|
  {
    System(Ring(Overlay(r.buf, r.head, msg[..k]), r.head, r.tail), Storing(msg, First(k)))
  }

  lemma StoreOneMore(r: Ring, msg: seq<byte>, k: nat)
    requires r.WellFormed() && k < |msg| <= |r.buf|
    ensures Enabled(Stored(r, msg, k), Store(k)) && Next(Stored(r, msg, k), Store(k)) == Stored(r, msg, k + 1)
  {
    var s, t := Stored(r, msg, k), Stored(r, msg, k + 1);
    var buf := s.ring.buf[Pos(|r.buf|, r.head, k) := msg[k]];
    assert forall i :: 0 <= i < |r.buf| ==> buf[i] == t.ring.buf[i];
    assert s.writer.done + {k} == t.writer.done;
  }

  lemma {:induction false} StoreTheRest(r: Ring, msg: seq<byte>, k: nat) returns (es: seq<Event>)
    requires r.WellFormed() && k <= |msg| <= |r.buf| && Align8(|msg|) <= |r.buf|
    ensures Run(Stored(r, msg, k), es, System(Written(r, msg), Idle)) && Published(msg, es) == [msg]
    decreases |msg| - k
  {
    if k == |msg| {
      assert msg[..k] == msg;
      es := [Publish];
      assert es[1..] == [];
    } else {
      StoreOneMore(r, msg, k);
      var rest := StoreTheRest(r, msg, k + 1);
      es := [Store(k)] + rest;
      assert es[1..] == rest;
    }
  }

  // Every write that passes its room check is a run of the machine: it can go through
  // byte by byte, publishes its message and leaves what tx_write() leaves.
  lemma WriteIsARun(s: System, msg: seq<byte>) returns (es: seq<Event>)
    requires s.ring.WellFormed() && s.writer.Idle? && |msg| <= TxAvail(|s.ring.buf|, s.ring.head, s.ring.tail)
    ensures Align8(|msg|) <= |s.ring.buf|
    ensures Run(s, es, System(Written(s.ring, msg), Idle)) && Published([], es) == [msg]
  {
    CheckedWriteAppends(s.ring, msg);
    var rest := StoreTheRest(s.ring, msg, 0);
    es := [Check(msg)] + rest;
    assert es[1..] == rest;
    var t := Next(s, Check(msg));
    assert Overlay(s.ring.buf, s.ring.head, msg[..0]) == s.ring.buf;
    assert t == Stored(s.ring, msg, 0);
  }

  // And so is releasing any part of what is unread.
  lemma ReleaseIsARun(s: System, count: nat)
    requires s.ring.WellFormed() && count <= |Unread(s.ring)|
    ensures Run(s, [Advance(count)], s.(ring := s.ring.(tail := Pos(|s.ring.buf|, s.ring.tail, count))))
  {
    assert [Advance(count)][1..] == [];
  }

  // What the reader sees at any moment of any run from a sound registration: a peek
  // within rx_avail returns the next bytes of what was there, followed by the
  // framed message stream.
  lemma PeekReturnsStream(start: Ring, es: seq<Event>, t: System, offset: nat, count: nat)
    returns (stream: seq<byte>)
    requires Invariant(System(start, Idle)) && Run(System(start, Idle), es, t)
    requires t.ring.WellFormed()
    requires offset + count <= Used(|t.ring.buf|, t.ring.head, t.ring.tail)
    ensures Framed(stream, Published([], es))
    ensures var all := Unread(start) + stream;
            && Released(es) + offset + count <= |all|
            && Slice(t.ring.buf, Pos(|t.ring.buf|, t.ring.tail, offset), count)
               == all[Released(es) + offset..Released(es) + offset + count]
  {
    stream := RunRefinesQueue(System(start, Idle), es, t);
    PeekIsSlice(t.ring, offset, count);
    SliceOfRest(Unread(start) + stream, Released(es), offset, count);
  }

  lemma SliceOfRest(all: seq<byte>, skipped: nat, offset: nat, count: nat)
    requires skipped + offset + count <= |all|
    ensures all[skipped..][offset..offset + count] == all[skipped + offset..skipped + offset + count]
  {
  }
}
