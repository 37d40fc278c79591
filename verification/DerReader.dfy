// The reader of Gatekeeper replies: an 8-byte little-endian length, then a DER
// SEQUENCE out of which one OCTET STRING of a known size is taken.  It is proved
// against a printer of such frames (ITU-T X.690 section 8.1.3, one-byte tags,
// the short length form and the long one of 1 to 8 octets, minimal or not).

module DerReader {
  import opened CTypes

  const SEQUENCE := 0x30
  const OCTET_STRING := 0x04
  const CONTEXT_CONSTRUCTED := 5  // the top three bits of a tag byte, 0xa0 / 32
  const U64_MODULUS := 0x1_0000_0000_0000_0000

  // ---------- Bytes at a place ----------

  // s stands in f at offset.
  ghost predicate At(f: seq<byte>, offset: nat, s: seq<byte>) {
    offset + |s| <= |f| && forall k :: 0 <= k < |s| ==> f[offset + k] == s[k]
  }

  lemma AtParts(f: seq<byte>, offset: nat, a: seq<byte>, b: seq<byte>)
    ensures At(f, offset, a + b) <==> At(f, offset, a) && At(f, offset + |a|, b)
  {
    var s := a + b;
    var mid := offset + |a|;
    if At(f, offset, s) {
      forall k | 0 <= k < |a| ensures f[offset + k] == a[k] {
        assert s[k] == a[k];
      }
      forall k | 0 <= k < |b| ensures f[mid + k] == b[k] {
        assert s[|a| + k] == b[k] && mid + k == offset + (|a| + k);
      }
    }
    if At(f, offset, a) && At(f, mid, b) {
      forall k | 0 <= k < |s| ensures f[offset + k] == s[k] {
        if k >= |a| {
          assert f[mid + (k - |a|)] == b[k - |a|];
        }
      }
    }
  }

  lemma AtSame(f: seq<byte>, offset: nat, a: seq<byte>, b: seq<byte>)
    requires At(f, offset, a) && At(f, offset, b) && |a| == |b|
    ensures a == b
  {
  }

  lemma AtThreeParts(f: seq<byte>, offset: nat, a: seq<byte>, b: seq<byte>, c: seq<byte>)
    requires At(f, offset, a + (b + c))
    ensures At(f, offset, a) && At(f, offset + |a|, b) && At(f, offset + |a| + |b|, c)
  {
    AtParts(f, offset, a, b + c);
    AtParts(f, offset + |a|, b, c);
  }

  // ---------- Numbers as bytes ----------

  function Pow256(k: nat): (r: nat)
    ensures r > 0
  {
    if k == 0 then 1 else 256 * Pow256(k - 1)
  }

  lemma Pow256Eight()
    ensures Pow256(8) == U64_MODULUS
  {
    assert Pow256(4) == U32_MODULUS;
    assert Pow256(8) == 256 * (256 * (256 * (256 * Pow256(4))));
  }

  lemma Pow256Grows(k: nat, m: nat)
    requires k <= m
    ensures Pow256(k) <= Pow256(m)
    decreases m
  {
    if k < m {
      Pow256Grows(k, m - 1);
    }
  }

  // The number in the k bytes at i, most significant first.
  function BigEndian(f: seq<byte>, i: nat, k: nat): nat
    requires i + k <= |f|
  {
    if k == 0 then 0 else BigEndian(f, i, k - 1) * 256 + f[i + (k - 1)] as int
  }

  function Digits(n: nat, k: nat): (s: seq<byte>)
    ensures |s| == k
  {
    if k == 0 then [] else Digits(n / 256, k - 1) + [n % 256]
  }

  lemma {:induction false} BigEndianOfDigits(f: seq<byte>, i: nat, n: nat, k: nat)
    requires n < Pow256(k) && At(f, i, Digits(n, k))
    ensures BigEndian(f, i, k) == n
  {
    if k > 0 {
      AtParts(f, i, Digits(n / 256, k - 1), [n % 256]);
      BigEndianOfDigits(f, i, n / 256, k - 1);
      assert f[i + (k - 1) + 0] == [n % 256][0];
    }
  }

  lemma ShiftedIn(n: nat, b: byte)
    ensures (n * 256 + b as int) / 256 == n && (n * 256 + b as int) % 256 == b
  {
  }

  lemma {:induction false} DigitsOfBigEndian(f: seq<byte>, i: nat, k: nat)
    requires i + k <= |f|
    ensures BigEndian(f, i, k) < Pow256(k) && At(f, i, Digits(BigEndian(f, i, k), k))
  {
    if k > 0 {
      var front, last := BigEndian(f, i, k - 1), f[i + (k - 1)];
      DigitsOfBigEndian(f, i, k - 1);
      ShiftedIn(front, last);
      assert Digits(front * 256 + last as int, k) == Digits(front, k - 1) + [last];
      AtParts(f, i, Digits(front, k - 1), [last]);
    }
  }

  // Least significant first.
  function LittleEndian(f: seq<byte>, i: nat, k: nat): nat
    requires i + k <= |f|
    decreases |f| - i
  {
    if k == 0 then 0 else f[i] as int + 256 * LittleEndian(f, i + 1, k - 1)
  }

  function LeDigits(n: nat, k: nat): (s: seq<byte>)
    ensures |s| == k
  {
    if k == 0 then [] else [n % 256] + LeDigits(n / 256, k - 1)
  }

  lemma {:induction false} LittleEndianOfDigits(f: seq<byte>, i: nat, n: nat, k: nat)
    requires n < Pow256(k) && At(f, i, LeDigits(n, k))
    ensures LittleEndian(f, i, k) == n
    decreases k
  {
    if k > 0 {
      AtParts(f, i, [n % 256], LeDigits(n / 256, k - 1));
      LittleEndianOfDigits(f, i + 1, n / 256, k - 1);
      assert f[i + 0] == [n % 256][0];
    }
  }

  lemma {:induction false} LeDigitsOfLittleEndian(f: seq<byte>, i: nat, k: nat)
    requires i + k <= |f|
    ensures LittleEndian(f, i, k) < Pow256(k) && At(f, i, LeDigits(LittleEndian(f, i, k), k))
    decreases k
  {
    if k > 0 {
      var n, later := LittleEndian(f, i, k), LittleEndian(f, i + 1, k - 1);
      LeDigitsOfLittleEndian(f, i + 1, k - 1);
      ShiftedIn(later, f[i]);
      assert n == later * 256 + f[i] as int;
      AtParts(f, i, [n % 256], LeDigits(later, k - 1));
    }
  }

  // ---------- The printer ----------

  datatype Form = Short | Long(octets: nat)

  datatype Tlv = Tlv(tag: byte, form: Form, content: seq<byte>) {
    // The length fits the chosen form.
    predicate Fits() {
      match form
      case Short => |content| < 128
      case Long(k) => 1 <= k <= 8 && |content| < Pow256(k)
    }

    function Header(): seq<byte>
      requires Fits()
    {
      match form
      case Short => [tag, |content|]
      case Long(k) => [tag, 128 + k] + Digits(|content|, k)
    }

    function Encode(): seq<byte>
      requires Fits()
    {
      Header() + content
    }
  }

  predicate AllFit(ts: seq<Tlv>) {
    forall i :: 0 <= i < |ts| ==> ts[i].Fits()
  }

  function EncodeAll(ts: seq<Tlv>): seq<byte>
    requires AllFit(ts)
  {
    if ts == [] then [] else ts[0].Encode() + EncodeAll(ts[1..])
  }

  // A context-constructed element whose content is exactly the octet string u.
  predicate Wraps(t: Tlv, u: Tlv, size: nat) {
    && 0xa0 <= t.tag < 0xc0
    && u.Fits() && u.tag == 0x04 && |u.content| == size
    && t.content == u.Encode()
  }

  ghost predicate Wanted(t: Tlv, size: nat) {
    exists u :: Wraps(t, u, size)
  }

  ghost predicate NoneWanted(ts: seq<Tlv>, size: nat) {
    forall i :: 0 <= i < |ts| ==> !Wanted(ts[i], size)
  }

  // A reply: the declared length covers the sequence and whatever follows it
  // inside the reply; the buffer may be longer still.
  predicate Printable(sequence: Tlv, slack: seq<byte>) {
    sequence.tag == 0x30 && sequence.Fits() && |sequence.Encode()| + |slack| < U64_MODULUS
  }

  function Framed(encoded: seq<byte>, slack: seq<byte>, rest: seq<byte>): seq<byte> {
    LeDigits(|encoded| + |slack|, 8) + (encoded + (slack + rest))
  }

  function Reply(sequence: Tlv, slack: seq<byte>, rest: seq<byte>): seq<byte>
    requires Printable(sequence, slack)
  {
    Framed(sequence.Encode(), slack, rest)
  }

  // ---------- Reading one length ----------

  datatype Lengths = Lengths(header: nat, value: nat)

  // The element that starts at `at`, with `size` bytes left for it.
  function ReadLength(f: seq<byte>, at: nat, size: nat): (r: Option<Lengths>)
    requires at + size <= |f|
    ensures r.Some? ==> 2 <= r.value.header && r.value.header + r.value.value <= size
  {
    if size < 2 then None
    else if f[at + 1] < 128 then
      if f[at + 1] as int <= size - 2 then Some(Lengths(2, f[at + 1])) else None
    else
      var k := f[at + 1] as int - 128;
      if k == 0 || k > 8 || k > size - 2 then None
      else
        var value := BigEndian(f, at + 2, k);
        if value <= size - 2 - k then Some(Lengths(2 + k, value)) else None
  }

  // size_t value << 8, on a 64-bit machine.
  function ShiftedByte(value: u64): (r: u64)
    ensures r % 256 == 0
  {
    (value as int * 256) % U64_MODULUS
  }

  // Shifting one more of at most eight octets in loses nothing.
  lemma ShiftKeepsAll(f: seq<byte>, i: nat, k: nat)
    requires i + k <= |f| && k < 8
    ensures BigEndian(f, i, k) * 256 + 255 < U64_MODULUS
  {
    DigitsOfBigEndian(f, i, k);
    Pow256Grows(k + 1, 8);
    Pow256Eight();
  }

  // der_length()
  method DerLength(buffer: array<byte>, start: nat, size: nat) returns (r: Option<Lengths>)
    requires start + size <= buffer.Length
    ensures r == ReadLength(buffer[..], start, size)
  {
    ghost var f := buffer[..];
    if size < 2 {
      return None;
    }
    var first := buffer[start + 1];
    if first < 128 {
      return if first as int <= size - 2 then Some(Lengths(2, first)) else None;
    }
    var octets := first as int - 128;
    if octets == 0 || octets > 8 || octets > size - 2 {
      return None;
    }
    var value: u64 := 0;
    var i := 0;
    while i < octets
      invariant 0 <= i <= octets
      invariant value == BigEndian(f, start + 2, i)
    {
      ShiftKeepsAll(f, start + 2, i);
      value := ShiftedByte(value) as int + buffer[start + 2 + i] as int;
      i := i + 1;
    }
    r := if value <= size - 2 - octets then Some(Lengths(2 + octets, value)) else None;
  }

  // Reading undoes writing, whatever follows.
  lemma ReadsEncoding(f: seq<byte>, at: nat, size: nat, t: Tlv)
    requires t.Fits() && At(f, at, t.Encode()) && |t.Encode()| <= size && at + size <= |f|
    ensures ReadLength(f, at, size) == Some(Lengths(|t.Header()|, |t.content|))
    ensures f[at] == t.tag && At(f, at + |t.Header()|, t.content)
  {
    AtParts(f, at, t.Header(), t.content);
    assert f[at + 0] == t.Header()[0] && f[at + 1] == t.Header()[1];
    if t.form.Long? {
      var k := t.form.octets;
      AtParts(f, at, [t.tag, 128 + k], Digits(|t.content|, k));
      BigEndianOfDigits(f, at + 2, |t.content|, k);
    }
  }

  // And what can be read was written so: the reader accepts encodings only.
  lemma ReadIsEncoding(f: seq<byte>, at: nat, size: nat) returns (t: Tlv)
    requires at + size <= |f| && ReadLength(f, at, size).Some?
    ensures t.Fits() && At(f, at, t.Encode()) && t.tag == f[at]
    ensures ReadLength(f, at, size) == Some(Lengths(|t.Header()|, |t.content|))
    ensures |t.Encode()| == |t.Header()| + |t.content| <= size
  {
    var Lengths(h, n) := ReadLength(f, at, size).value;
    var content := f[at + h..at + h + n];
    if f[at + 1] < 128 {
      t := Tlv(f[at], Short, content);
    } else {
      var k := f[at + 1] as int - 128;
      t := Tlv(f[at], Long(k), content);
      DigitsOfBigEndian(f, at + 2, k);
      AtParts(f, at, [t.tag, 128 + k], Digits(n, k));
    }
    AtParts(f, at, t.Header(), content);
  }

  // ---------- One element ----------

  // Where the wanted octets start in the element at `at`, whose content is the
  // `value` bytes after its header.
  function Payload(f: seq<byte>, at: nat, header: nat, value: nat, size: nat): Option<nat>
    requires 0 < header && at + header + value <= |f|
  {
    if f[at] as int / 32 != CONTEXT_CONSTRUCTED || value < 2 || f[at + header] != OCTET_STRING then None
    else
      var inner := ReadLength(f, at + header, value);
      if inner.Some? && inner.value.header + inner.value.value == value && inner.value.value == size
      then Some(at + header + inner.value.header)
      else None
  }

  lemma PayloadFinds(f: seq<byte>, at: nat, t: Tlv, u: Tlv, size: nat)
    requires t.Fits() && At(f, at, t.Encode()) && Wraps(t, u, size)
    ensures 0 < |t.Header()| && at + |t.Header()| + |t.content| <= |f|
    ensures var o := at + |t.Header()| + |u.Header()|;
            Payload(f, at, |t.Header()|, |t.content|, size) == Some(o) && At(f, o, u.content)
  {
    ElementAt(f, at, t);
    InnerReads(f, at + |t.Header()|, t, u, size);
  }

  lemma ElementAt(f: seq<byte>, at: nat, t: Tlv)
    requires t.Fits() && At(f, at, t.Encode())
    ensures 0 < |t.Header()| && at + |t.Header()| + |t.content| <= |f|
    ensures f[at] == t.tag && At(f, at + |t.Header()|, t.content)
  {
    ReadsEncoding(f, at, |t.Encode()|, t);
  }

  lemma InnerReads(f: seq<byte>, at: nat, t: Tlv, u: Tlv, size: nat)
    requires Wraps(t, u, size) && At(f, at, t.content)
    ensures 2 <= |u.Header()| && |u.Header()| + size == |t.content|
    ensures f[at] == OCTET_STRING && ReadLength(f, at, |t.content|) == Some(Lengths(|u.Header()|, size))
    ensures At(f, at + |u.Header()|, u.content)
  {
    ReadsEncoding(f, at, |t.content|, u);
  }

  // It is found exactly if the element is wanted.
  lemma PayloadExactly(f: seq<byte>, at: nat, t: Tlv, size: nat)
    requires t.Fits() && At(f, at, t.Encode())
    ensures 0 < |t.Header()| && at + |t.Header()| + |t.content| <= |f|
    ensures Payload(f, at, |t.Header()|, |t.content|, size).Some? <==> Wanted(t, size)
  {
    ElementAt(f, at, t);
    if Wanted(t, size) {
      var u :| Wraps(t, u, size);
      PayloadFinds(f, at, t, u, size);
    } else if Payload(f, at, |t.Header()|, |t.content|, size).Some? {
      var u := WrappedAt(f, at, |t.Header()|, t, size);
    }
  }

  lemma WrappedAt(f: seq<byte>, at: nat, h: nat, t: Tlv, size: nat) returns (u: Tlv)
    requires 0 < h && at < |f| && f[at] == t.tag && At(f, at + h, t.content)
    requires Payload(f, at, h, |t.content|, size).Some?
    ensures Wraps(t, u, size)
  {
    u := ReadIsEncoding(f, at + h, |t.content|);
    AtSame(f, at + h, t.content, u.Encode());
    assert u.tag == f[at + h];
  }

  // ---------- The scan ----------

  // Scanning f from offset to end; the result is an offset into f.
  function Scan(f: seq<byte>, offset: nat, end: nat, size: nat): Option<nat>
    requires offset <= end <= |f|
    decreases end - offset
  {
    if offset == end then None
    else
      var lengths := ReadLength(f, offset, end - offset);
      if lengths.None? then None
      else
        var Lengths(header, value) := lengths.value;
        var payload := Payload(f, offset, header, value, size);
        if payload.Some? then payload else Scan(f, offset + header + value, end, size)
  }

  lemma ScanReads(f: seq<byte>, offset: nat, end: nat, header: nat, value: nat, size: nat)
    requires offset < end <= |f| && ReadLength(f, offset, end - offset) == Some(Lengths(header, value))
    ensures var payload := Payload(f, offset, header, value, size);
            Scan(f, offset, end, size) ==
            if payload.Some? then payload else Scan(f, offset + header + value, end, size)
  {
  }

  function Extracted(f: seq<byte>, size: nat): Option<nat> {
    if |f| < 10 then None
    else
      var declared := LittleEndian(f, 0, 8);
      if declared > |f| - 8 || f[8] != SEQUENCE then None
      else
        var sequence := ReadLength(f, 8, declared);
        if sequence.None? then None
        else
          var Lengths(header, value) := sequence.value;
          Scan(f, 8 + header, 8 + header + value, size)
  }

  // The body of its loop, on one element.
  method FindPayload(frame: array<byte>, at: nat, header: nat, size: nat, expected: nat) returns (r: Option<nat>)
    requires 0 < header && at + header + size <= frame.Length
    ensures r == Payload(frame[..], at, header, size, expected)
  {
    if frame[at] as int / 32 == CONTEXT_CONSTRUCTED && size >= 2 && frame[at + header] == OCTET_STRING {
      var inner := DerLength(frame, at + header, size);
      if inner.Some? && inner.value.header + inner.value.value == size && inner.value.value == expected {
        return Some(at + header + inner.value.header);
      }
    }
    r := None;
  }

  // gatekeeper_extract_octet(): the offset of the octets in the frame, or None
  // for -1.  Every access is inside the frame and the loop ends on any bytes.
  method ExtractOctet(frame: array<byte>, expected: nat) returns (r: Option<nat>)
    ensures r == Extracted(frame[..], expected)
  {
    if frame.Length < 10 {
      return None;
    }
    ghost var f := frame[..];
    var declared := LittleEndian(frame[..], 0, 8);
    if declared > frame.Length - 8 || frame[8] != SEQUENCE {
      return None;
    }
    var sequence := DerLength(frame, 8, declared);
    if sequence.None? {
      return None;
    }
    var offset := 8 + sequence.value.header;
    var end := 8 + sequence.value.header + sequence.value.value;
    ghost var result := Scan(f, offset, end, expected);
    assert result == Extracted(f, expected);
    while offset < end
      invariant offset <= end <= |f|
      invariant Scan(f, offset, end, expected) == result
    {
      var outer := DerLength(frame, offset, end - offset);
      if outer.None? {
        return None;
      }
      var header, size := outer.value.header, outer.value.value;
      ScanReads(f, offset, end, header, size, expected);
      var payload := FindPayload(frame, offset, header, size, expected);
      if payload.Some? {
        return payload;
      }
      offset := offset + header + size;
    }
    r := None;
  }

  // ---------- What the scan finds ----------

  // An element in front of the scan is taken if it is wanted, else passed over.
  lemma ScanStep(f: seq<byte>, offset: nat, next: nat, end: nat, t: Tlv, size: nat)
    requires t.Fits() && At(f, offset, t.Encode()) && next == offset + |t.Encode()| && next <= end <= |f|
    ensures !Wanted(t, size) ==> Scan(f, offset, end, size) == Scan(f, next, end, size)
    ensures forall u :: Wraps(t, u, size) ==>
              Scan(f, offset, end, size) == Some(offset + |t.Header()| + |u.Header()|)
              && At(f, offset + |t.Header()| + |u.Header()|, u.content)
  {
    ReadsEncoding(f, offset, end - offset, t);
    PayloadExactly(f, offset, t, size);
    forall u | Wraps(t, u, size)
      ensures Scan(f, offset, end, size) == Some(offset + |t.Header()| + |u.Header()|)
      ensures At(f, offset + |t.Header()| + |u.Header()|, u.content)
    {
      PayloadFinds(f, offset, t, u, size);
    }
  }

  lemma {:induction false} ScanSkips(f: seq<byte>, offset: nat, next: nat, end: nat, ts: seq<Tlv>, size: nat)
    requires AllFit(ts) && NoneWanted(ts, size)
    requires At(f, offset, EncodeAll(ts)) && next == offset + |EncodeAll(ts)| && next <= end <= |f|
    ensures Scan(f, offset, end, size) == Scan(f, next, end, size)
    decreases |ts|
  {
    if ts == [] {
      assert offset == next;
    } else {
      var first, later := ts[0].Encode(), EncodeAll(ts[1..]);
      AtParts(f, offset, first, later);
      var second := offset + |first|;
      ScanStep(f, offset, second, end, ts[0], size);
      ScanSkips(f, second, next, end, ts[1..], size);
    }
  }

  // Elements none of which is wanted, then one that is, then any bytes at all.
  ghost predicate Selects(s: seq<byte>, size: nat, before: seq<Tlv>, t: Tlv, u: Tlv, junk: seq<byte>) {
    && AllFit(before) && NoneWanted(before, size)
    && t.Fits() && Wraps(t, u, size)
    && s == EncodeAll(before) + (t.Encode() + junk)
  }

  lemma SelectedAt(
      f: seq<byte>, offset: nat, s: seq<byte>, size: nat, before: seq<Tlv>, t: Tlv, u: Tlv, junk: seq<byte>)
    returns (mid: nat, next: nat)
    requires At(f, offset, s) && Selects(s, size, before, t, u, junk)
    ensures At(f, offset, EncodeAll(before)) && mid == offset + |EncodeAll(before)|
    ensures At(f, mid, t.Encode()) && next == mid + |t.Encode()| <= offset + |s|
  {
    var first, second := EncodeAll(before), t.Encode();
    AtThreeParts(f, offset, first, second, junk);
    mid := offset + |first|;
    next := mid + |second|;
    assert |s| == |first| + (|second| + |junk|);
  }

  lemma ScanFinds(
      f: seq<byte>, offset: nat, end: nat, s: seq<byte>, size: nat,
      before: seq<Tlv>, t: Tlv, u: Tlv, junk: seq<byte>)
    requires At(f, offset, s) && end == offset + |s| && Selects(s, size, before, t, u, junk)
    ensures var r := Scan(f, offset, end, size);
            r.Some? && At(f, r.value, u.content)
  {
    var mid, next := SelectedAt(f, offset, s, size, before, t, u, junk);
    ScanSkips(f, offset, mid, end, before, size);
    ScanStep(f, mid, next, end, t, size);
  }

  lemma SelectsMore(e: Tlv, s: seq<byte>, size: nat, before: seq<Tlv>, t: Tlv, u: Tlv, junk: seq<byte>)
    requires e.Fits() && !Wanted(e, size) && Selects(s, size, before, t, u, junk)
    ensures Selects(e.Encode() + s, size, [e] + before, t, u, junk)
  {
    var more := [e] + before;
    assert more[1..] == before;
    var a, b, c := e.Encode(), EncodeAll(before), t.Encode() + junk;
    assert a + (b + c) == (a + b) + c;
  }

  lemma HeadElement(f: seq<byte>, offset: nat, end: nat) returns (e: Tlv, next: nat)
    requires offset < end <= |f| && ReadLength(f, offset, end - offset).Some?
    ensures e.Fits() && At(f, offset, e.Encode()) && next == offset + |e.Encode()| && offset < next <= end
    ensures f[offset..end] == e.Encode() + f[next..end]
  {
    e := ReadIsEncoding(f, offset, end - offset);
    next := offset + |e.Encode()|;
    FrontIs(f, offset, end, e.Encode());
  }

  lemma FrontIs(f: seq<byte>, offset: nat, end: nat, s: seq<byte>)
    requires At(f, offset, s) && offset + |s| <= end <= |f|
    ensures f[offset..end] == s + f[offset + |s|..end]
  {
    var tail := f[offset + |s|..end];
    AtParts(f, offset, s, tail);
    AtSame(f, offset, f[offset..end], s + tail);
  }

  lemma {:induction false} ScanFound(f: seq<byte>, offset: nat, end: nat, size: nat)
    returns (before: seq<Tlv>, t: Tlv, u: Tlv, junk: seq<byte>)
    requires offset <= end <= |f| && Scan(f, offset, end, size).Some?
    ensures Selects(f[offset..end], size, before, t, u, junk)
    decreases end - offset
  {
    var e, next := HeadElement(f, offset, end);
    ScanStep(f, offset, next, end, e, size);
    if Wanted(e, size) {
      t, before, junk := e, [], f[next..end];
      u :| Wraps(e, u, size);
      assert EncodeAll([]) + (e.Encode() + junk) == e.Encode() + junk;
    } else {
      before, t, u, junk := ScanFound(f, next, end, size);
      SelectsMore(e, f[next..end], size, before, t, u, junk);
      before := [e] + before;
    }
  }

  lemma SelectionAt(f: seq<byte>, start: nat, end: nat, s: seq<byte>, size: nat)
    returns (before: seq<Tlv>, t: Tlv, u: Tlv, junk: seq<byte>)
    requires At(f, start, s) && end == start + |s| && Scan(f, start, end, size).Some?
    ensures Selects(s, size, before, t, u, junk)
  {
    before, t, u, junk := ScanFound(f, start, end, size);
    assert f[start..end] == s;
  }

  // ---------- Whole frames ----------

  lemma ExtractedIsScan(f: seq<byte>, t: Tlv, declared: nat, size: nat) returns (start: nat, end: nat)
    requires 8 + declared <= |f| && declared == LittleEndian(f, 0, 8)
    requires t.Fits() && t.tag == SEQUENCE && At(f, 8, t.Encode()) && |t.Encode()| <= declared
    ensures At(f, start, t.content) && end == start + |t.content|
    ensures Extracted(f, size) == Scan(f, start, end, size)
  {
    ReadsEncoding(f, 8, declared, t);
    start := 8 + |t.Header()|;
    end := start + |t.content|;
  }

  // A printed reply is scanned over exactly its sequence's content.
  lemma ExtractedOfReply(f: seq<byte>, sequence: Tlv, slack: seq<byte>, rest: seq<byte>, size: nat)
    returns (start: nat, end: nat)
    requires Printable(sequence, slack) && f == Reply(sequence, slack, rest)
    ensures At(f, start, sequence.content) && end == start + |sequence.content|
    ensures Extracted(f, size) == Scan(f, start, end, size)
  {
    var declared := |sequence.Encode()| + |slack|;
    ReplyParts(f, declared, sequence.Encode(), slack, rest);
    start, end := ExtractedIsScan(f, sequence, declared, size);
  }

  lemma ReplyParts(f: seq<byte>, declared: nat, encoded: seq<byte>, slack: seq<byte>, rest: seq<byte>)
    requires f == Framed(encoded, slack, rest)
    requires declared == |encoded| + |slack| < U64_MODULUS
    ensures 8 + declared <= |f| && LittleEndian(f, 0, 8) == declared && At(f, 8, encoded)
  {
    AtThreeParts(f, 0, LeDigits(declared, 8), encoded, slack + rest);
    Pow256Eight();
    LittleEndianOfDigits(f, 0, declared, 8);
  }

  lemma ExtractsSelected(
      sequence: Tlv, slack: seq<byte>, rest: seq<byte>,
      before: seq<Tlv>, t: Tlv, u: Tlv, junk: seq<byte>, size: nat)
    requires Printable(sequence, slack) && Selects(sequence.content, size, before, t, u, junk)
    ensures var f := Reply(sequence, slack, rest);
            var r := Extracted(f, size);
            r.Some? && At(f, r.value, u.content)
  {
    var f := Reply(sequence, slack, rest);
    var start, end := ExtractedOfReply(f, sequence, slack, rest, size);
    ScanFinds(f, start, end, sequence.content, size, before, t, u, junk);
  }

  lemma {:induction false} EncodeAllAppend(a: seq<Tlv>, b: seq<Tlv>)
    requires AllFit(a) && AllFit(b) && AllFit(a + b)
    ensures EncodeAll(a + b) == EncodeAll(a) + EncodeAll(b)
  {
    if a == [] {
      assert a + b == b;
    } else {
      assert (a + b)[1..] == a[1..] + b;
      EncodeAllAppend(a[1..], b);
      var first, ea, eb := a[0].Encode(), EncodeAll(a[1..]), EncodeAll(b);
      assert EncodeAll(a + b) == first + (ea + eb);
      assert first + (ea + eb) == (first + ea) + eb;
    }
  }

  lemma ListSelects(before: seq<Tlv>, t: Tlv, u: Tlv, later: seq<Tlv>, size: nat)
    requires AllFit(before) && NoneWanted(before, size) && t.Fits() && Wraps(t, u, size) && AllFit(later)
    ensures AllFit(before + [t] + later)
    ensures Selects(EncodeAll(before + [t] + later), size, before, t, u, EncodeAll(later))
  {
    var tail := [t] + later;
    assert before + [t] + later == before + tail;
    EncodeAllAppend(before, tail);
    assert tail[1..] == later;
  }

  // Reading undoes writing: from any printed reply the octets of the first
  // wanted element are taken, whatever follows it.
  lemma ReadsFirstWanted(
      sequence: Tlv, before: seq<Tlv>, t: Tlv, u: Tlv, later: seq<Tlv>, slack: seq<byte>, rest: seq<byte>, size: nat)
    requires AllFit(before) && NoneWanted(before, size) && t.Fits() && Wraps(t, u, size) && AllFit(later)
    requires sequence.content == EncodeAll(before + [t] + later) && Printable(sequence, slack)
    ensures var f := Reply(sequence, slack, rest);
            var r := Extracted(f, size);
            r.Some? && At(f, r.value, u.content)
  {
    ListSelects(before, t, u, later, size);
    ExtractsSelected(sequence, slack, rest, before, t, u, EncodeAll(later), size);
  }

  // And nothing is taken when no element is wanted.
  lemma ReadsNoneWanted(sequence: Tlv, ts: seq<Tlv>, slack: seq<byte>, rest: seq<byte>, size: nat)
    requires AllFit(ts) && NoneWanted(ts, size)
    requires sequence.content == EncodeAll(ts) && Printable(sequence, slack)
    ensures Extracted(Reply(sequence, slack, rest), size).None?
  {
    var f := Reply(sequence, slack, rest);
    var start, end := ExtractedOfReply(f, sequence, slack, rest, size);
    ScanSkips(f, start, end, end, ts, size);
  }

  // A frame from which something is extracted prints as a reply.
  lemma ExtractedIsReply(f: seq<byte>, size: nat) returns (sequence: Tlv, slack: seq<byte>, rest: seq<byte>)
    requires |f| < U64_MODULUS && Extracted(f, size).Some?
    ensures Printable(sequence, slack) && f == Reply(sequence, slack, rest)
  {
    sequence, slack, rest := SequenceIsReply(f, LittleEndian(f, 0, 8));
  }

  lemma SequenceIsReply(f: seq<byte>, declared: nat) returns (sequence: Tlv, slack: seq<byte>, rest: seq<byte>)
    requires 9 <= |f| < U64_MODULUS && 8 + declared <= |f| && declared == LittleEndian(f, 0, 8)
    requires f[8] == SEQUENCE && ReadLength(f, 8, declared).Some?
    ensures Printable(sequence, slack) && f == Reply(sequence, slack, rest)
  {
    sequence := ReadIsEncoding(f, 8, declared);
    slack, rest := PartsMakeReply(f, declared, sequence.Encode());
  }

  lemma PartsMakeReply(f: seq<byte>, declared: nat, encoded: seq<byte>) returns (slack: seq<byte>, rest: seq<byte>)
    requires |encoded| <= declared && 8 + declared <= |f| && declared == LittleEndian(f, 0, 8) && At(f, 8, encoded)
    ensures f == Framed(encoded, slack, rest) && declared == |encoded| + |slack|
  {
    LeDigitsOfLittleEndian(f, 0, 8);
    slack, rest := CutAfter(f, LeDigits(declared, 8), encoded, 8 + declared);
  }

  lemma CutAfter(f: seq<byte>, a: seq<byte>, b: seq<byte>, cut: nat) returns (c: seq<byte>, d: seq<byte>)
    requires At(f, 0, a) && At(f, |a|, b) && |a| + |b| <= cut <= |f|
    ensures f == a + (b + (c + d)) && |a| + |b| + |c| == cut
  {
    var from := |a| + |b|;
    c, d := f[from..cut], f[cut..];
    SliceAt(f, from, cut);
    SliceAt(f, cut, |f|);
    JoinParts(f, a, b, c, d);
  }

  lemma SliceAt(f: seq<byte>, i: nat, j: nat)
    requires i <= j <= |f|
    ensures At(f, i, f[i..j])
  {
  }

  lemma JoinParts(f: seq<byte>, a: seq<byte>, b: seq<byte>, c: seq<byte>, d: seq<byte>)
    requires At(f, 0, a) && At(f, |a|, b) && At(f, |a| + |b|, c) && At(f, |a| + |b| + |c|, d)
    requires |f| == |a| + |b| + |c| + |d|
    ensures f == a + (b + (c + d))
  {
    AtParts(f, |a| + |b|, c, d);
    AtParts(f, |a|, b, c + d);
    AtParts(f, 0, a, b + (c + d));
    AtSame(f, 0, f, a + (b + (c + d)));
  }

  // A frame whose sequence starts with unwanted elements and then a wanted one.
  ghost predicate Holds(
      f: seq<byte>, size: nat, sequence: Tlv, slack: seq<byte>, rest: seq<byte>,
      before: seq<Tlv>, t: Tlv, u: Tlv, junk: seq<byte>)
  {
    && Printable(sequence, slack) && f == Reply(sequence, slack, rest)
    && Selects(sequence.content, size, before, t, u, junk)
  }

  lemma ExtractedHolds(f: seq<byte>, size: nat)
    returns (sequence: Tlv, slack: seq<byte>, rest: seq<byte>, before: seq<Tlv>, t: Tlv, u: Tlv, junk: seq<byte>)
    requires |f| < U64_MODULUS && Extracted(f, size).Some?
    ensures Holds(f, size, sequence, slack, rest, before, t, u, junk)
  {
    sequence, slack, rest := ExtractedIsReply(f, size);
    var start, end := ExtractedOfReply(f, sequence, slack, rest, size);
    before, t, u, junk := SelectionAt(f, start, end, sequence.content, size);
  }

  // On arbitrary bytes: octets are extracted exactly from such frames, and they
  // are the wanted element's.  What comes after that element need not even parse.
  lemma ExtractedExactly(f: seq<byte>, size: nat)
    requires |f| < U64_MODULUS
    ensures Extracted(f, size).Some? <==>
            exists sequence, slack, rest, before, t, u, junk ::
              Holds(f, size, sequence, slack, rest, before, t, u, junk)
    ensures forall sequence, slack, rest, before, t, u, junk ::
              Holds(f, size, sequence, slack, rest, before, t, u, junk) ==>
              Extracted(f, size).Some? && At(f, Extracted(f, size).value, u.content)
  {
    if Extracted(f, size).Some? {
      var sequence, slack, rest, before, t, u, junk := ExtractedHolds(f, size);
    }
    forall sequence, slack, rest, before, t, u, junk |
      Holds(f, size, sequence, slack, rest, before, t, u, junk)
      ensures Extracted(f, size).Some? && At(f, Extracted(f, size).value, u.content)
    {
      ExtractsSelected(sequence, slack, rest, before, t, u, junk, size);
    }
  }
}
