// The I2C bootloader of the STM32 behind the pogo connector, as an automaton
// that owns the flash.  It follows the Read Memory (0x11), Write Memory (0x31)
// and extended Erase (0x44) exchanges of ST's application note AN4221: each frame
// carries a complement or an XOR checksum and is answered by one byte, and any
// frame that is malformed, out of order, out of range, or that would program a
// cell which is not erased is answered with NACK.

module Stm32Bootloader {
  import opened CTypes

  const ACK: byte := 0x79
  const NACK: byte := 0x1f
  const FLASH_BASE: u32 := 0x0800_0000
  const PAGE_SIZE := 2048

  // ---------- Frames ----------

  function XorByte(a: byte, b: byte): byte {
    ((a as bv8) ^ (b as bv8)) as int
  }

  function Checksum(s: seq<byte>): byte {
    if s == [] then 0 else XorByte(Checksum(s[..|s| - 1]), s[|s| - 1])
  }

  function Complement(b: byte): byte {
    255 - b
  }

  function Be16(x: u16): seq<byte> {
    [x / 256, x % 256]
  }

  function FromBe16(s: seq<byte>): u16
    requires |s| == 2
  {
    (s[0] as int) * 256 + s[1] as int
  }

  function Be32(x: u32): seq<byte> {
    Be16(x / 0x1_0000) + Be16(x % 0x1_0000)
  }

  function FromBe32(s: seq<byte>): u32
    requires |s| == 4
  {
    FromBe16(s[..2]) * 0x1_0000 + FromBe16(s[2..])
  }

  // A body followed by its XOR checksum.
  predicate Summed(frame: seq<byte>) {
    frame != [] && frame[|frame| - 1] == Checksum(frame[..|frame| - 1])
  }

  lemma SummedFrame(body: seq<byte>)
    ensures Summed(body + [Checksum(body)])
  {
  }

  predicate Complemented(frame: seq<byte>) {
    |frame| == 2 && frame[1] == Complement(frame[0])
  }

  // ---------- The device ----------

  datatype Cell = Erased | Holds(b: byte)

  datatype Phase =
    | Command
    | ReadAddress
    | ReadCount(at: nat)
    | WriteAddress
    | WriteData(at: nat)
    | EraseCount
    | ErasePages(n: nat)

  datatype Device = Device(
    flash: seq<Cell>,
    boot: bool, reset: bool,       // the two pins the host drives
    inBootloader: bool,            // which program the last reset started
    phase: Phase, reply: seq<byte>,
    nacks: nat)

  function ReadCell(c: Cell): byte {
    if c.Holds? then c.b else 0xff
  }

  function Bytes(flash: seq<Cell>, at: nat, n: nat): (s: seq<byte>)
    requires at + n <= |flash|
    ensures |s| == n
    ensures forall i :: 0 <= i < n ==> s[i] == ReadCell(flash[at + i])
  {
    if n == 0 then [] else Bytes(flash, at, n - 1) + [ReadCell(flash[at + n - 1])]
  }

  // How many bytes a count byte announces.
  function Announced(count: byte): nat {
    count as int + 1
  }

  // Releasing reset samples the boot pin.
  function SetPins(d: Device, boot: bool, reset: bool): Device {
    if d.reset && !reset then
      d.(boot := boot, reset := reset, inBootloader := boot, phase := Command, reply := [])
    else d.(boot := boot, reset := reset)
  }

  predicate Ready(d: Device) {
    d.inBootloader && !d.reset && d.phase == Command && d.reply == []
  }

  function Refuse(d: Device): Device {
    d.(phase := Command, reply := [NACK], nacks := d.nacks + 1)
  }

  function Accept(d: Device, next: Phase): Device {
    d.(phase := next, reply := [ACK])
  }

  // The flash offset an address frame names, if the address lies in flash.
  function Offset(d: Device, frame: seq<byte>): Option<nat> {
    if |frame| == 5 && Summed(frame) && FLASH_BASE <= FromBe32(frame[..4]) < FLASH_BASE + |d.flash|
    then Some(FromBe32(frame[..4]) - FLASH_BASE) else None
  }

  predicate Programmable(flash: seq<Cell>, at: nat, n: nat) {
    at + n <= |flash| && forall i :: at <= i < at + n ==> flash[i] == Erased
  }

  predicate WellFormedData(d: Device, at: nat, frame: seq<byte>) {
    |frame| >= 2 && |frame| == Announced(frame[0]) + 2 && Summed(frame) && Programmable(d.flash, at, Announced(frame[0]))
  }

  predicate WellFormedPages(d: Device, n: nat, frame: seq<byte>) {
    |frame| == 2 * n + 1 && Summed(frame)
    && forall p :: 0 <= p < n ==> (FromBe16(frame[2 * p..2 * p + 2]) + 1) * PAGE_SIZE <= |d.flash|
  }

  // Every answer but a programming one is determined by the frame.
  function Answer(d: Device, frame: seq<byte>): Device
    requires !d.phase.WriteData? || !WellFormedData(d, d.phase.at, frame)
  {
    match d.phase
    case Command =>
      if frame == [0xff] then d.(reply := [])
      else if Complemented(frame) && frame[0] == 0x11 then Accept(d, ReadAddress)
      else if Complemented(frame) && frame[0] == 0x31 then Accept(d, WriteAddress)
      else if Complemented(frame) && frame[0] == 0x44 then Accept(d, EraseCount)
      else Refuse(d)
    case ReadAddress => if Offset(d, frame).Some? then Accept(d, ReadCount(Offset(d, frame).value)) else Refuse(d)
    case ReadCount(at) =>
      if Complemented(frame) && at + Announced(frame[0]) <= |d.flash| then
        d.(phase := Command, reply := [ACK] + Bytes(d.flash, at, Announced(frame[0])))
      else Refuse(d)
    case WriteAddress => if Offset(d, frame).Some? then Accept(d, WriteData(Offset(d, frame).value)) else Refuse(d)
    case WriteData(at) => Refuse(d)
    case EraseCount =>
      if |frame| == 3 && Summed(frame) then Accept(d, ErasePages(FromBe16(frame[..2]) + 1)) else Refuse(d)
    case ErasePages(n) =>
      if WellFormedPages(d, n, frame) then Accept(d.(flash := ErasedPages(d.flash, n, frame)), Command)
      else Refuse(d)
  }

  predicate Named(n: nat, frame: seq<byte>, page: nat)
    requires 2 * n <= |frame|
  {
    exists p :: 0 <= p < n && FromBe16(frame[2 * p..2 * p + 2]) == page
  }

  function ErasedPages(flash: seq<Cell>, n: nat, frame: seq<byte>): (r: seq<Cell>)
    requires 2 * n <= |frame|
    ensures |r| == |flash|
  {
    seq(|flash|, i requires 0 <= i < |flash| => if Named(n, frame, i / PAGE_SIZE) then Erased else flash[i])
  }

  // Programming may go wrong: the cells then hold other bytes than were sent.
  ghost predicate Programs(d: Device, at: nat, frame: seq<byte>, e: Device, clean: bool)
    requires WellFormedData(d, at, frame)
  {
    && e == Accept(d.(flash := e.flash), Command)
    && |e.flash| == |d.flash|
    && var n := Announced(frame[0]);
    && (forall i :: 0 <= i < |d.flash| && !(at <= i < at + n) ==> e.flash[i] == d.flash[i])
    && (forall i :: at <= i < at + n ==> e.flash[i].Holds? && (clean ==> e.flash[i].b == frame[i - at + 1]))
  }

  // The device takes a frame; `clean` says that nothing went wrong doing so.
  ghost predicate Takes(d: Device, frame: seq<byte>, e: Device, clean: bool) {
    if !d.inBootloader || d.reset then e == d
    else if d.phase.WriteData? && WellFormedData(d, d.phase.at, frame) then Programs(d, d.phase.at, frame, e, clean)
    else e == Answer(d, frame)
  }
}
