// The host side of the pogo controller's firmware update: framing, the erase,
// program and verify passes, and the pin sequences around them.

module PogoUpdate {
  import opened CTypes
  import opened Stm32Bootloader

  const APP_PAGES := 31
  const APP_SIZE := APP_PAGES * PAGE_SIZE
  const FW_SIZE := 52132
  const FW_VERSION_OFFSET := 0x200
  const EXPECTED_VERSION: seq<byte> := [0x00, 0x37, 0x00, 0x37]
  const BLOCK := 256

  datatype Ret = Ok | EIO | EPROTO | EINVAL | EBADMSG | ENODEV

  // What a single transfer or acknowledgement can return.
  predicate IsTransferRet(ret: Ret) {
    ret == Ok || ret == EIO || ret == EPROTO
  }

  // samsung_pogo_checksum()
  method ComputeChecksum(data: seq<byte>) returns (checksum: byte)
    ensures checksum == Checksum(data)
  {
    checksum := 0;
    var i := 0;
    while i < |data|
      invariant i <= |data|
      invariant checksum == Checksum(data[..i])
    {
      assert data[..i + 1][..i] == data[..i];
      checksum := XorByte(checksum, data[i]);
      i := i + 1;
    }
    assert data[..i] == data;
  }

  function Repeat(b: byte, n: nat): (s: seq<byte>)
    ensures |s| == n
  {
    if n == 0 then [] else Repeat(b, n - 1) + [b]
  }

  function Programmed(flash: seq<Cell>, at: nat, data: seq<byte>): (r: seq<Cell>)
    requires at + |data| <= |flash|
    ensures |r| == |flash|
    ensures forall i :: 0 <= i < |flash| ==> r[i] == if at <= i < at + |data| then Holds(data[i - at]) else flash[i]
  {
    flash[..at] + seq(|data|, i requires 0 <= i < |data| => Holds(data[i])) + flash[at + |data|..]
  }

  // The cells at..at+n hold something, and hold data if nothing went wrong; all
  // others are as they were.
  ghost predicate Wrote(before: seq<Cell>, at: nat, data: seq<byte>, after: seq<Cell>, clean: bool) {
    && |after| == |before| && at + |data| <= |after|
    && (forall i :: 0 <= i < |after| && !(at <= i < at + |data|) ==> after[i] == before[i])
    && (forall i :: at <= i < at + |data| ==> after[i].Holds? && (clean ==> after[i].b == data[i - at]))
  }

  ghost predicate SameOutside(before: seq<Cell>, lo: nat, hi: nat, after: seq<Cell>) {
    && |after| == |before|
    && forall i :: 0 <= i < |after| && !(lo <= i < hi) ==> after[i] == before[i]
  }

  // The one image the driver accepts, by size and version.
  predicate IsMeasured(image: seq<byte>) {
    |image| == FW_SIZE && image[FW_VERSION_OFFSET..FW_VERSION_OFFSET + 4] == EXPECTED_VERSION
  }

  // Byte by byte.
  lemma MeasuredMeans(image: seq<byte>)
    ensures IsMeasured(image) <==>
              && |image| == 52132
              && image[0x200] == 0x00 && image[0x201] == 0x37 && image[0x202] == 0x00 && image[0x203] == 0x37
  {
    if |image| == 52132 {
      var version := image[0x200..0x204];
      assert version == [image[0x200], image[0x201], image[0x202], image[0x203]];
    }
  }

  class Pogo {
    var dev: Device            // the other end of the bus
    var faults: nat            // transfers that failed and programming that went wrong
    var flashVersion: seq<byte>

    // ---- transfers ----

    // A failed write may or may not have reached the device.
    method BootWrite(frame: seq<byte>) returns (ret: Ret)
      modifies this`dev, this`faults
      ensures ret == Ok || ret == EIO
      ensures ret == Ok ==> faults >= old(faults) && Takes(old(dev), frame, dev, faults == old(faults))
      ensures ret != Ok ==> faults > old(faults) && (dev == old(dev) || Takes(old(dev), frame, dev, false))
    {
      var clean: bool := *;
      var delivered: bool := *;
      var failed: bool := *;
      if delivered || !failed {
        Deliver(frame, clean);
      }
      if !clean || failed {
        faults := faults + 1;
      }
      ret := if failed then EIO else Ok;
    }

    // The device side of a transfer, with some outcome the automaton allows.
    method Deliver(frame: seq<byte>, clean: bool)
      modifies this`dev
      ensures Takes(old(dev), frame, dev, clean)
    {
      if !dev.inBootloader || dev.reset {
        return;
      }
      if dev.phase.WriteData? && WellFormedData(dev, dev.phase.at, frame) {
        var at, n, flash := dev.phase.at, Announced(frame[0]), dev.flash;
        var junk: byte := *;
        dev := Accept(dev.(flash := Programmed(flash, at, if clean then frame[1..n + 1] else Repeat(junk, n))), Command);
      } else {
        dev := Answer(dev, frame);
      }
    }

    method BootRead(n: nat) returns (ret: Ret, data: seq<byte>)
      modifies this`dev, this`faults
      ensures ret == Ok || ret == EIO
      ensures faults >= old(faults)
      ensures ret == Ok && n <= |old(dev.reply)| ==>
                data == old(dev.reply)[..n] && dev == old(dev).(reply := old(dev.reply)[n..]) && faults == old(faults)
      ensures ret != Ok ==> faults > old(faults)
      ensures dev == old(dev).(reply := dev.reply)
    {
      var failed: bool := *;
      data := [];
      if failed {
        faults := faults + 1;
        var lost: bool := *;
        if lost {
          dev := dev.(reply := []);
        }
        return EIO, data;
      }
      if n <= |dev.reply| {
        data := dev.reply[..n];
        dev := dev.(reply := dev.reply[n..]);
      } else {
        data := seq(n, i => 0xff);
        dev := dev.(reply := []);
      }
      ret := Ok;
    }

    // samsung_pogo_boot_ack()
    method BootAck() returns (ret: Ret)
      modifies this`dev, this`faults
      ensures IsTransferRet(ret)
      ensures faults >= old(faults) && dev == old(dev).(reply := dev.reply)
      ensures |old(dev.reply)| >= 1 ==>
                && (ret == Ok ==> old(dev.reply)[0] == ACK && dev.reply == old(dev.reply)[1..] && faults == old(faults))
                && (ret != Ok ==> faults > old(faults) || old(dev.reply)[0] != ACK)
    {
      var ack;
      ret, ack := BootRead(1);
      if ret != Ok {
        return;
      }
      ret := if |ack| > 0 && ack[0] == ACK then Ok else EPROTO;
    }

    // One frame the device is bound to accept, and its acknowledgement.
    method Exchange(frame: seq<byte>) returns (ret: Ret)
      requires dev.inBootloader && !dev.reset && !dev.phase.WriteData?
      requires Answer(dev, frame).nacks == dev.nacks
      requires |Answer(dev, frame).reply| >= 1 && Answer(dev, frame).reply[0] == ACK
      modifies this`dev, this`faults
      ensures IsTransferRet(ret) && dev.nacks == old(dev.nacks) && faults >= old(faults)
      ensures ret == Ok ==> dev == Answer(old(dev), frame).(reply := Answer(old(dev), frame).reply[1..])
      ensures ret != Ok ==> faults > old(faults) && (dev.flash == old(dev.flash) || dev.flash == Answer(old(dev), frame).flash)
    {
      ret := BootWrite(frame);
      if ret == Ok {
        ret := BootAck();
      }
    }

    // The same for a frame of data to program.
    method ExchangeData(frame: seq<byte>) returns (ret: Ret)
      requires dev.inBootloader && !dev.reset && dev.phase.WriteData? && WellFormedData(dev, dev.phase.at, frame)
      modifies this`dev, this`faults
      ensures IsTransferRet(ret) && dev.nacks == old(dev.nacks) && faults >= old(faults)
      ensures var data, at := frame[1..|frame| - 1], old(dev.phase.at);
              && SameOutside(old(dev.flash), at, at + |data|, dev.flash)
              && (ret == Ok ==>
                    && Wrote(old(dev.flash), at, data, dev.flash, faults == old(faults))
                    && dev == old(dev).(flash := dev.flash, phase := Command, reply := []))
      ensures ret != Ok ==> faults > old(faults)
    {
      ghost var d := dev;
      ret := BootWrite(frame);
      assert ret == Ok ==> Programs(d, d.phase.at, frame, dev, faults == old(faults));
      if ret == Ok {
        ghost var mid := dev;
        ret := BootAck();
        assert dev.flash == mid.flash;
      }
    }

    // ---- pins ----

    method EnterBootloader()
      modifies this`dev
      ensures Ready(dev) && !dev.boot
      ensures dev.flash == old(dev.flash) && dev.nacks == old(dev.nacks)
    {
      dev := SetPins(dev, dev.boot, true);
      dev := SetPins(dev, true, true);
      dev := SetPins(dev, true, false);
      dev := SetPins(dev, false, false);
    }

    method StartApplication()
      modifies this`dev
      ensures !dev.boot && !dev.reset && !dev.inBootloader
      ensures dev.flash == old(dev.flash) && dev.nacks == old(dev.nacks)
    {
      dev := SetPins(dev, false, dev.reset);
      dev := SetPins(dev, false, true);
      dev := SetPins(dev, false, false);
    }

    method BootConnect() returns (ret: Ret)
      modifies this`dev, this`faults
      ensures dev.flash == old(dev.flash) && dev.nacks == old(dev.nacks) && faults >= old(faults)
      ensures if ret == Ok then Ready(dev) else faults > old(faults)
    {
      EnterBootloader();
      ret := BootWrite([0xff]);
      if ret != Ok {
        return;
      }
      EnterBootloader();
    }

    // ---- memory commands ----

    // A memory command and its address, as the read and write commands share them.
    method SendAddress(command: byte, address: u32) returns (ret: Ret)
      requires Ready(dev) && FLASH_BASE <= address < FLASH_BASE + |dev.flash|
      requires command == 0x11 || command == 0x31
      modifies this`dev, this`faults
      ensures IsTransferRet(ret) && dev.flash == old(dev.flash) && dev.nacks == old(dev.nacks) && faults >= old(faults)
      ensures if ret == Ok then
                dev == old(dev).(phase := if command == 0x11 then ReadCount(address - FLASH_BASE) else WriteData(address - FLASH_BASE))
              else faults > old(faults)
    {
      var checksum := ComputeChecksum(Be32(address));
      var start := Be32(address) + [checksum];
      ret := Exchange([command, Complement(command)]);
      if ret == Ok {
        assert dev == old(dev).(phase := if command == 0x11 then ReadAddress else WriteAddress);
        AddressAccepted(dev, address);
        ret := Exchange(start);
      }
    }

    method BootReadMemory(address: u32, len: nat) returns (ret: Ret, data: seq<byte>)
      requires Ready(dev) && FLASH_BASE <= address && address - FLASH_BASE + len <= |dev.flash|
      modifies this`dev, this`faults
      ensures dev.flash == old(dev.flash) && dev.nacks == old(dev.nacks) && faults >= old(faults)
      ensures if len == 0 || len > BLOCK then ret == EINVAL else IsTransferRet(ret)
      ensures ret == Ok ==> Ready(dev) && data == Bytes(dev.flash, address - FLASH_BASE, len)
      ensures ret != Ok && ret != EINVAL ==> faults > old(faults)
    {
      data := [];
      if len == 0 || len > BLOCK {
        return EINVAL, data;
      }
      var count: byte := len - 1;

      ret := SendAddress(0x11, address);
      if ret == Ok {
        ret := Exchange([count, Complement(count)]);
      }
      if ret == Ok {
        assert dev.reply == Bytes(dev.flash, address - FLASH_BASE, len);
        ret, data := BootRead(len);
      }
    }

    // The count byte, the data and their checksum, built up in a packet buffer.
    method DataFrame(data: seq<byte>) returns (frame: seq<byte>)
      requires 0 < |data| <= BLOCK
      ensures |frame| == |data| + 2 && Announced(frame[0]) == |data|
      ensures frame[1..|data| + 1] == data && Summed(frame)
    {
      var len := |data|;
      var packet := new byte[BLOCK + 2];
      packet[0] := len - 1;
      forall i | 0 <= i < len {
        packet[i + 1] := data[i];
      }
      ghost var body := [packet[0]] + data;
      assert packet[..len + 1] == body;
      var checksum := ComputeChecksum(packet[..len + 1]);
      packet[len + 1] := checksum;
      frame := packet[..len + 2];
      assert packet[..len + 1] == body;
      assert frame == body + [Checksum(body)];
      SummedFrame(body);
      assert frame[1..len + 1] == data by {
        assert body[1..] == data;
      }
    }

    method BootWriteMemory(address: u32, data: seq<byte>) returns (ret: Ret)
      requires Ready(dev) && FLASH_BASE <= address && Programmable(dev.flash, address - FLASH_BASE, |data|)
      modifies this`dev, this`faults
      ensures dev.nacks == old(dev.nacks) && faults >= old(faults)
      ensures SameOutside(old(dev.flash), address - FLASH_BASE, address - FLASH_BASE + |data|, dev.flash)
      ensures if |data| == 0 || |data| > BLOCK then ret == EINVAL else IsTransferRet(ret)
      ensures ret == Ok ==> Ready(dev) && Wrote(old(dev.flash), address - FLASH_BASE, data, dev.flash, faults == old(faults))
      ensures ret != Ok && ret != EINVAL ==> faults > old(faults)
    {
      var len := |data|;
      if len == 0 || len > BLOCK {
        return EINVAL;
      }
      var packet := DataFrame(data);
      assert packet[1..len + 1] == data;

      ret := SendAddress(0x31, address);
      if ret == Ok {
        ret := ExchangeData(packet);
      }
    }

    // ---- erase ----

    method PageList() returns (frame: seq<byte>)
      ensures |frame| == 2 * APP_PAGES + 1 && Summed(frame)
      ensures forall p :: 0 <= p < APP_PAGES ==> frame[2 * p] == 0 && frame[2 * p + 1] == p
    {
      var pages := new byte[2 * APP_PAGES + 1];
      var page := 0;
      while page < APP_PAGES
        invariant page <= APP_PAGES
        invariant forall p :: 0 <= p < page ==> pages[2 * p] == 0 && pages[2 * p + 1] == p
      {
        pages[2 * page], pages[2 * page + 1] := page / 256, page % 256;
        page := page + 1;
      }
      ghost var body := pages[..2 * APP_PAGES];
      var checksum := ComputeChecksum(pages[..2 * APP_PAGES]);
      pages[2 * APP_PAGES] := checksum;
      frame := pages[..];
      assert Summed(frame) by {
        assert frame == body + [Checksum(body)];
        SummedFrame(body);
      }
    }

    method BootEraseApplication() returns (ret: Ret)
      requires Ready(dev) && APP_SIZE <= |dev.flash|
      modifies this`dev, this`faults
      ensures dev.nacks == old(dev.nacks) && faults >= old(faults)
      ensures SameOutside(old(dev.flash), 0, APP_SIZE, dev.flash)
      ensures ret == Ok ==> Ready(dev) && forall i :: 0 <= i < APP_SIZE ==> dev.flash[i] == Erased
      ensures ret != Ok ==> faults > old(faults)
    {
      var pages := PageList();
      PageListErasesApplication(dev.flash, pages);
      CountFrame();

      ret := Exchange([0x44, 0xbb]);
      if ret == Ok {
        ret := Exchange([0x00, APP_PAGES - 1, APP_PAGES - 1]);
      }
      if ret == Ok {
        ret := Exchange(pages);
      }
    }

    // ---- the update ----

    method UpdateFirmware(image: seq<byte>) returns (ret: Ret)
      requires APP_SIZE <= |dev.flash| && FW_VERSION_OFFSET + 4 <= |image| <= APP_SIZE
      modifies this
      ensures !dev.boot && !dev.reset && !dev.inBootloader
      ensures dev.nacks == old(dev.nacks)
      ensures SameOutside(old(dev.flash), 0, APP_SIZE, dev.flash)
      ensures ret == Ok ==>
                && Bytes(dev.flash, 0, |image|) == image
                && (forall i :: 0 <= i < |image| ==> dev.flash[i].Holds?)
                && (forall i :: |image| <= i < APP_SIZE ==> dev.flash[i] == Erased)
                && flashVersion == image[FW_VERSION_OFFSET..FW_VERSION_OFFSET + 4]
      ensures ret != Ok ==> faults > old(faults) && flashVersion == old(flashVersion)
    {
      ret := BootConnect();
      if ret == Ok {
        ret := BootEraseApplication();
      }
      if ret == Ok {
        ret := ProgramAll(image);
      }
      if ret == Ok {
        ret := VerifyAll(image);
      }
      if ret == Ok {
        flashVersion := image[FW_VERSION_OFFSET..FW_VERSION_OFFSET + 4];
      }
      StartApplication();
    }

    // firmware_update_store() once "1" was written: only the measured image is
    // accepted, and a controller that already runs it is left alone.
    method StoreFirmwareUpdate(reachable: bool, firmware: Option<seq<byte>>) returns (ret: Ret)
      requires APP_SIZE <= |dev.flash|
      modifies this
      ensures dev.nacks == old(dev.nacks) && SameOutside(old(dev.flash), 0, APP_SIZE, dev.flash)
      ensures ret == Ok && old(flashVersion) != EXPECTED_VERSION ==>
                && reachable && firmware.Some? && IsMeasured(firmware.value)
                && Bytes(dev.flash, 0, FW_SIZE) == firmware.value && flashVersion == EXPECTED_VERSION
      ensures if reachable && old(flashVersion) != EXPECTED_VERSION && firmware.Some? && IsMeasured(firmware.value) then
                && !dev.boot && !dev.reset && !dev.inBootloader
                && (ret != Ok ==> faults > old(faults) && flashVersion == old(flashVersion))
              else dev == old(dev) && flashVersion == old(flashVersion) && faults == old(faults)
      ensures ret == Ok ==> flashVersion == EXPECTED_VERSION
    {
      if !reachable {
        return ENODEV;
      }
      if flashVersion == EXPECTED_VERSION {
        return Ok;
      }
      if firmware.None? {
        return EIO;
      }
      var image := firmware.value;
      if |image| != FW_SIZE || image[FW_VERSION_OFFSET..FW_VERSION_OFFSET + 4] != EXPECTED_VERSION {
        return EINVAL;
      }
      ret := UpdateFirmware(image);
    }

    method ProgramAll(image: seq<byte>) returns (ret: Ret)
      requires Ready(dev) && |image| <= APP_SIZE <= |dev.flash|
      requires forall i :: 0 <= i < APP_SIZE ==> dev.flash[i] == Erased
      modifies this`dev, this`faults
      ensures dev.nacks == old(dev.nacks) && faults >= old(faults)
      ensures SameOutside(old(dev.flash), 0, |image|, dev.flash)
      ensures ret == Ok ==> Ready(dev) && Wrote(old(dev.flash), 0, image, dev.flash, faults == old(faults))
      ensures ret != Ok ==> faults > old(faults)
    {
      ret := Ok;
      var offset := 0;
      while offset < |image|
        invariant ret == Ok && offset < |image| + BLOCK
        invariant Ready(dev) && dev.nacks == old(dev.nacks) && faults >= old(faults)
        invariant Wrote(old(dev.flash), 0, image[..Min(offset, |image|)], dev.flash, faults == old(faults))
      {
        var len := Min(BLOCK, |image| - offset);
        ghost var was, wasFaults := dev.flash, faults;
        ret := BootWriteMemory(FLASH_BASE + offset, image[offset..offset + len]);
        if ret != Ok {
          return;
        }
        WroteOnwards(old(dev.flash), image, offset, len, was, wasFaults == old(faults), dev.flash, faults == old(faults));
        offset := offset + BLOCK;
      }
      assert image[..|image|] == image;
    }

    method VerifyAll(image: seq<byte>) returns (ret: Ret)
      requires Ready(dev) && |image| <= APP_SIZE <= |dev.flash|
      modifies this`dev, this`faults
      ensures dev.flash == old(dev.flash) && dev.nacks == old(dev.nacks) && faults >= old(faults)
      ensures ret == Ok ==> Bytes(dev.flash, 0, |image|) == image
      ensures ret == EBADMSG ==> Bytes(dev.flash, 0, |image|) != image
      ensures ret != Ok && ret != EBADMSG ==> faults > old(faults)
    {
      ret := Ok;
      var offset := 0;
      while offset < |image|
        invariant ret == Ok && offset < |image| + BLOCK
        invariant Ready(dev) && dev.flash == old(dev.flash) && dev.nacks == old(dev.nacks) && faults >= old(faults)
        invariant ReadsAs(dev.flash, image, Min(offset, |image|))
      {
        var len := Min(BLOCK, |image| - offset);
        var verify: seq<byte>;
        ret, verify := BootReadMemory(FLASH_BASE + offset, len);
        if ret != Ok {
          return;
        }
        if verify != image[offset..offset + len] {
          BlockOfImage(dev.flash, image, offset, verify);
          return EBADMSG;
        }
        ReadsOnwards(dev.flash, image, offset, verify);
        offset := offset + BLOCK;
      }
    }
  }

  // The first n bytes of the image read back.
  ghost predicate ReadsAs(flash: seq<Cell>, image: seq<byte>, n: nat) {
    n <= |image| && n <= |flash| && forall i :: 0 <= i < n ==> ReadCell(flash[i]) == image[i]
  }

  lemma ReadsOnwards(flash: seq<Cell>, image: seq<byte>, offset: nat, block: seq<byte>)
    requires ReadsAs(flash, image, offset) && offset + |block| <= |image| && offset + |block| <= |flash|
    requires block == Bytes(flash, offset, |block|) == image[offset..offset + |block|]
    ensures ReadsAs(flash, image, offset + |block|)
  {
    forall i | offset <= i < offset + |block|
      ensures ReadCell(flash[i]) == image[i]
    {
      assert block[i - offset] == image[i];
    }
  }

  // If the flash holds the image, every block read back is the image's.
  lemma BlockOfImage(flash: seq<Cell>, image: seq<byte>, offset: nat, block: seq<byte>)
    requires |image| <= |flash| && offset + |block| <= |image|
    requires forall i :: 0 <= i < |block| ==> block[i] == ReadCell(flash[offset + i])
    ensures Bytes(flash, 0, |image|) == image ==> block == image[offset..offset + |block|]
  {
  }

  // ---------- Frames the device accepts ----------

  lemma AddressAccepted(d: Device, address: u32)
    requires FLASH_BASE <= address < FLASH_BASE + |d.flash|
    ensures Offset(d, Be32(address) + [Checksum(Be32(address))]) == Some(address - FLASH_BASE)
  {
  }

  lemma CountFrame()
    ensures Summed([0x00, APP_PAGES - 1, APP_PAGES - 1])
    ensures FromBe16([0x00, APP_PAGES - 1, APP_PAGES - 1][..2]) + 1 == APP_PAGES
  {
    var body: seq<byte> := [0x00, APP_PAGES - 1];
    assert [0x00, APP_PAGES - 1, APP_PAGES - 1][..2] == body;
    assert body[..1] == [0x00] && body[..1][..0] == [];
    assert XorByte(0, 0) == 0 && XorByte(0, APP_PAGES - 1) == APP_PAGES - 1;
    assert Checksum([]) == 0;
    assert Checksum([0x00]) == 0;
  }

  // The page list names every application page and no other.
  lemma PageListErasesApplication(flash: seq<Cell>, frame: seq<byte>)
    requires |frame| == 2 * APP_PAGES + 1 && APP_SIZE <= |flash|
    requires forall p :: 0 <= p < APP_PAGES ==> frame[2 * p] == 0 && frame[2 * p + 1] == p
    ensures var after := ErasedPages(flash, APP_PAGES, frame);
            && SameOutside(flash, 0, APP_SIZE, after)
            && forall i :: 0 <= i < APP_SIZE ==> after[i] == Erased
    ensures forall p :: 0 <= p < APP_PAGES ==> (FromBe16(frame[2 * p..2 * p + 2]) + 1) * PAGE_SIZE <= |flash|
  {
    forall p | 0 <= p < APP_PAGES
      ensures FromBe16(frame[2 * p..2 * p + 2]) == p
    {
      assert frame[2 * p..2 * p + 2] == [frame[2 * p], frame[2 * p + 1]];
    }
    var after := ErasedPages(flash, APP_PAGES, frame);
    forall i | 0 <= i < |flash|
      ensures after[i] == if i < APP_SIZE then Erased else flash[i]
    {
      if i < APP_SIZE {
        assert FromBe16(frame[2 * (i / PAGE_SIZE)..2 * (i / PAGE_SIZE) + 2]) == i / PAGE_SIZE;
      }
    }
  }

  lemma WroteOnwards(start: seq<Cell>, image: seq<byte>, offset: nat, len: nat,
                     mid: seq<Cell>, midClean: bool, after: seq<Cell>, clean: bool)
    requires offset + len <= |image|
    requires Wrote(start, 0, image[..offset], mid, midClean)
    requires Wrote(mid, offset, image[offset..offset + len], after, clean) && (clean ==> midClean)
    ensures Wrote(start, 0, image[..offset + len], after, clean)
  {
  }
}
