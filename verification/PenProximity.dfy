// Pen proximity of the Wacom W90xx digitiser.  The controller never announces
// that the pen has left: the driver infers it from the in-range bit going away,
// from silence, or from the pen being docked with the digitiser switched off.
//
// Time is in milliseconds; the proximity timer runs when it is due.

module PenProximity {
  import opened CTypes

  const REPORT_SIZE := 16
  const STATUS_HEADER := 0x0d
  const PACKET_REPLY := 0x0e
  const REPLY_GARAGE_CHARGE := 0x06
  const PACKET_NOTI := 0x0d
  const NOTI_COVER_DETECT := 0x0a
  const OUT_OF_RANGE_FRAMES := 3
  const PROXIMITY_TIMEOUT_MS := 250

  // ---------- Frames ----------

  type Frame = seq<byte>

  predicate Bit(b: byte, weight: nat)
    requires 0 < weight
  {
    (b as int / weight) % 2 == 1
  }

  function Be16(f: Frame, i: nat): u16
    requires i + 2 <= |f|
  {
    f[i] as int * 256 + f[i + 1] as int
  }

  function Signed8(b: byte): int {
    if b < 128 then b as int else b as int - 256
  }

  predicate GarageReply(f: Frame)
    requires |f| == REPORT_SIZE
  {
    f[0] % 16 == PACKET_REPLY && f[1] == REPLY_GARAGE_CHARGE
  }

  predicate CoverNotice(f: Frame)
    requires |f| == REPORT_SIZE
  {
    !GarageReply(f) && f[0] % 16 == PACKET_NOTI && f[1] == NOTI_COVER_DETECT
  }

  // A frame that says something about the pen.
  predicate PenFrame(f: Frame) {
    && |f| == REPORT_SIZE
    && !GarageReply(f) && !CoverNotice(f)
    && f[0] != STATUS_HEADER && Bit(f[0], 1)
  }

  predicate InRangeFrame(f: Frame) {
    PenFrame(f) && Bit(f[0], 128)
  }

  predicate OutOfRangeFrame(f: Frame) {
    PenFrame(f) && !Bit(f[0], 128)
  }

  // What the input device last reported; positions are those handed to the
  // touchscreen helper, before it applies the axis properties.
  datatype Report = Report(
    tool: bool, touch: bool, stylus: bool, pressure: nat,
    x: nat, y: nat, tiltX: int, tiltY: int, distance: nat)
  {
    function Left(): Report {
      this.(tool := false, touch := false, stylus := false, pressure := 0)
    }
  }

  function Decoded(f: Frame): Report
    requires |f| == REPORT_SIZE
  {
    Report(true, Bit(f[0], 16), Bit(f[0], 32), Be16(f, 5) % 0x8000,
           Be16(f, 1), Be16(f, 3), Signed8(f[7]), Signed8(f[8]), f[9])
  }

  // ---------- State ----------

  datatype State = State(
    inRange: bool, outOfRange: nat, proximity: bool, report: Report,
    timer: Option<nat>, now: nat,
    docked: bool, disableWhenDocked: bool, penIrqDisabled: bool, coverClosed: bool)
  {
    predicate Fresh() {
      && !inRange && outOfRange == 0 && !proximity && !report.tool && report == report.Left()
      && timer.None? && now == 0 && !disableWhenDocked && !penIrqDisabled && !coverClosed
    }
  }

  datatype Event =
    | Irq(frame: Frame)            // any other length is a failed or short read
    | Timeout
    | Dock(level: bool)            // an edge of the dock detect line
    | Store(value: Option<bool>)   // disable_digitizer_when_docked; None does not parse
    | Tick(ms: nat)

  predicate Enabled(s: State, e: Event) {
    match e
    case Timeout => s.timer.Some? && s.timer.value <= s.now
    case Tick(ms) => s.timer.Some? ==> s.now + ms <= s.timer.value
    case _ => true
  }

  function Gone(s: State): State {
    s.(inRange := false, outOfRange := 0, proximity := false,
       report := if s.inRange then s.report.Left() else s.report)
  }

  function Digitizer(s: State): State {
    var disable := s.disableWhenDocked && s.docked;
    if disable == s.penIrqDisabled then s
    else if disable then Gone(s.(penIrqDisabled := true, timer := None))
    else s.(penIrqDisabled := false)
  }

  function Received(s: State, f: Frame): State {
    if |f| != REPORT_SIZE || GarageReply(f) then s
    else if CoverNotice(f) then s.(coverClosed := Bit(f[3], 128))
    else if s.penIrqDisabled || !PenFrame(f) then s
    else if OutOfRangeFrame(f) then
      if !s.inRange then s
      else if s.outOfRange + 1 < OUT_OF_RANGE_FRAMES then s.(outOfRange := s.outOfRange + 1)
      else Gone(s.(timer := None))
    else
      s.(timer := Some(s.now + PROXIMITY_TIMEOUT_MS), inRange := true, outOfRange := 0,
         proximity := true, report := Decoded(f))
  }

  function Step(s: State, e: Event): State {
    match e
    case Irq(frame) => Received(s, frame)
    case Timeout => Gone(s.(timer := None))
    case Dock(level) => if level == s.docked then s else Digitizer(s.(docked := level))
    case Store(value) => if value.None? then s else Digitizer(s.(disableWhenDocked := value.value))
    case Tick(ms) => s.(now := s.now + ms)
  }

  // ---------- The invariant ----------

  // The three places that say whether the pen is there agree, and the deadline
  // stands exactly while it is.
  ghost predicate PenAgrees(s: State) {
    && s.report.tool == s.proximity == s.inRange
    && (!s.inRange ==> s.report == s.report.Left() && s.outOfRange == 0)
    && s.outOfRange < OUT_OF_RANGE_FRAMES
    && (s.timer.Some? <==> s.inRange)
    && (s.timer.Some? ==> s.now <= s.timer.value <= s.now + PROXIMITY_TIMEOUT_MS)
    && (s.penIrqDisabled ==> !s.inRange)
  }

  // And the digitiser is off exactly when it should be.
  ghost predicate Agrees(s: State) {
    PenAgrees(s) && (s.penIrqDisabled <==> s.docked && s.disableWhenDocked)
  }

  // ---------- The driver object ----------

  class Wacom {
    var inRange: bool
    var outOfRange: nat
    var proximity: bool
    var report: Report
    var proxTimer: Option<nat>
    var now: nat
    var docked: bool
    var disableWhenDocked: bool
    var penIrqDisabled: bool
    var coverClosed: bool

    function View(): State
      reads this
    {
      State(inRange, outOfRange, proximity, report, proxTimer, now,
            docked, disableWhenDocked, penIrqDisabled, coverClosed)
    }

    // Holds before and after every handler.
    ghost predicate Valid()
      reads this
    {
      Agrees(View())
    }

    constructor Probe(pdct: bool)
      ensures Valid() && View().Fresh() && docked == pdct
    {
      inRange, outOfRange, proximity := false, 0, false;
      report := Report(false, false, false, 0, 0, 0, 0, 0, 0);
      proxTimer, now := None, 0;
      docked, disableWhenDocked, penIrqDisabled, coverClosed := pdct, false, false, false;
    }

    // Whoever calls it, the pen is gone afterwards and the release reported: a
    // pen that was not there had been released before.
    method LeaveRange() returns (leaving: bool)
      requires report.tool == inRange && (!inRange ==> report == report.Left())
      modifies this`inRange, this`outOfRange, this`proximity, this`report
      ensures !inRange && !proximity && outOfRange == 0
      ensures !report.tool && !report.touch && !report.stylus && report.pressure == 0
      ensures report == old(report).(tool := false, touch := false, stylus := false, pressure := 0)
      ensures leaving == old(report.tool)
      ensures View() == Gone(old(View()))
    {
      leaving := inRange;
      inRange := false;
      outOfRange := 0;
      proximity := false;
      if leaving {
        report := report.(touch := false, stylus := false, tool := false, pressure := 0);
      }
    }

    // The settings may have changed; afterwards the digitiser follows them again,
    // and a pen that is still there has not been touched.
    method UpdateDigitizer()
      requires PenAgrees(View())
      modifies this
      ensures Valid() && docked == old(docked) && disableWhenDocked == old(disableWhenDocked)
      ensures inRange ==> old(inRange) && report == old(report) && proxTimer == old(proxTimer) && outOfRange == old(outOfRange)
      ensures !inRange && old(inRange) <==> old(inRange && docked && disableWhenDocked)
      ensures View() == Digitizer(old(View()))
    {
      var disable := disableWhenDocked && docked;
      if disable == penIrqDisabled {
        return;
      }
      if disable {
        penIrqDisabled := true;
        proxTimer := None;
        var _ := LeaveRange();
      } else {
        penIrqDisabled := false;
      }
    }

    method ProxTimeout()
      requires Valid() && Enabled(View(), Timeout)
      modifies this
      ensures Valid() && View() == Step(old(View()), Timeout)
      ensures !inRange && !report.tool && proxTimer.None?
    {
      proxTimer := None;
      var _ := LeaveRange();
    }

    method HandleCoverNoti(data: Frame) returns (claimed: bool)
      requires |data| == REPORT_SIZE && !GarageReply(data)
      modifies this`coverClosed
      ensures claimed == CoverNotice(data)
      ensures View() == if claimed then Received(old(View()), data) else old(View())
    {
      if data[0] % 16 != PACKET_NOTI || data[1] != NOTI_COVER_DETECT {
        return false;
      }
      var closed := Bit(data[3], 128);
      if closed == coverClosed {
        return true;
      }
      coverClosed := closed;
      claimed := true;
    }

    // An out-of-range frame: the third in a row takes the pen out of range.
    method CountMiss(data: Frame)
      requires Valid() && !penIrqDisabled && OutOfRangeFrame(data)
      modifies this
      ensures Valid() && View() == Step(old(View()), Irq(data))
      ensures inRange <==> old(inRange) && old(outOfRange) < 2
    {
      StepAgrees(View(), Irq(data));
      var missed := 0;
      if inRange {
        outOfRange := outOfRange + 1;
        missed := outOfRange;
      }
      if missed >= OUT_OF_RANGE_FRAMES {
        proxTimer := None;
        var _ := LeaveRange();
      }
    }

    method HandleIrq(data: Frame)
      requires Valid()
      modifies this
      ensures Valid() && View() == Step(old(View()), Irq(data))
    {
      StepAgrees(View(), Irq(data));
      if |data| != REPORT_SIZE {
        return;
      }
      if data[0] % 16 == PACKET_REPLY && data[1] == REPLY_GARAGE_CHARGE {
        return;
      }
      var claimed := HandleCoverNoti(data);
      if claimed {
        return;
      }
      if penIrqDisabled {
        return;
      }
      if data[0] == STATUS_HEADER || !Bit(data[0], 1) {
        return;
      }
      if !Bit(data[0], 128) {
        CountMiss(data);
        return;
      }
      EnterRange(data);
    }

    // An accepted in-range frame
    method EnterRange(data: Frame)
      requires Valid() && !penIrqDisabled && InRangeFrame(data)
      modifies this`proxTimer, this`inRange, this`outOfRange, this`proximity, this`report
      ensures Valid() && View() == Step(old(View()), Irq(data))
      ensures inRange && outOfRange == 0 && report == Decoded(data) && proxTimer == Some(now + 250)
    {
      StepAgrees(View(), Irq(data));
      proxTimer := Some(now + PROXIMITY_TIMEOUT_MS);
      inRange := true;
      outOfRange := 0;
      proximity := true;
      report := Report(true, Bit(data[0], 16), Bit(data[0], 32), Be16(data, 5) % 0x8000,
                       Be16(data, 1), Be16(data, 3), Signed8(data[7]), Signed8(data[8]), data[9]);
    }

    method PdctIrq(level: bool)
      requires Valid()
      modifies this
      ensures Valid() && View() == Step(old(View()), Dock(level)) && docked == level
    {
      if level == docked {
        return;
      }
      docked := level;
      UpdateDigitizer();
    }

    method DisableWhenDockedStore(value: Option<bool>)
      requires Valid()
      modifies this
      ensures Valid() && View() == Step(old(View()), Store(value))
    {
      if value.None? {
        return;
      }
      disableWhenDocked := value.value;
      UpdateDigitizer();
    }
  }

  // ---------- Frames that say nothing ----------

  // The pen's part of the state.
  function Pen(s: State): (bool, nat, bool, Report, Option<nat>) {
    (s.inRange, s.outOfRange, s.proximity, s.report, s.timer)
  }

  // Failed reads, headers, torn reads, garage replies and cover notices leave
  // the pen as it was, and so does every frame while the digitiser is off; an
  // out-of-range frame matters only to a pen in range, and an in-range frame
  // restarts the 250 ms.
  lemma OnlyPenFramesMatter(s: State, f: Frame)
    ensures !PenFrame(f) || s.penIrqDisabled ==> Pen(Received(s, f)) == Pen(s)
    ensures OutOfRangeFrame(f) && !s.penIrqDisabled ==> (Pen(Received(s, f)) != Pen(s) <==> s.inRange)
    ensures InRangeFrame(f) && !s.penIrqDisabled ==> Received(s, f).timer == Some(s.now + PROXIMITY_TIMEOUT_MS)
  {
  }

  // ---------- Frames as the controller writes them ----------

  // What the controller knows: where the pen is, how it is held, and bits of the frame
  // that mean nothing here: status bits 1 to 3 and 6 with bit 0 as `id` and `spare`, the
  // top bit of the pressure, and the last six bytes.
  datatype Pose = Pose(tip: bool, barrel: bool, x: u16, y: u16, pressure: nat, tiltX: int, tiltY: int, distance: byte)
  datatype Noise = Noise(id: nat, spare: bool, top: bool, rest: Frame)

  predicate Measurable(p: Pose, z: Noise) {
    && p.pressure < 0x8000 && -128 <= p.tiltX < 128 && -128 <= p.tiltY < 128
    && z.id < 16 && |z.rest| == 6
  }

  function Status(near: bool, p: Pose, z: Noise): byte
    requires Measurable(p, z)
  {
    (if near then 128 else 0) + (if z.spare then 64 else 0) + (if p.barrel then 32 else 0) + (if p.tip then 16 else 0) + z.id
  }

  // Big-endian numbers, tilts in two's complement.
  function Printed(near: bool, p: Pose, z: Noise): (f: Frame)
    requires Measurable(p, z)
    ensures |f| == REPORT_SIZE
  {
    [Status(near, p, z), p.x / 256, p.x % 256, p.y / 256, p.y % 256,
     p.pressure / 256 + (if z.top then 128 else 0), p.pressure % 256,
     p.tiltX % 256, p.tiltY % 256, p.distance] + z.rest
  }

  lemma StatusBits(near: bool, p: Pose, z: Noise)
    requires Measurable(p, z)
    ensures var b := Status(near, p, z);
            && (Bit(b, 128) <==> near) && (Bit(b, 32) <==> p.barrel) && (Bit(b, 16) <==> p.tip)
            && (Bit(b, 1) <==> z.id % 2 == 1) && b % 16 == z.id
  {
    var b := Status(near, p, z) as int;
    var upper := (if near then 4 else 0) + (if z.spare then 2 else 0) + if p.barrel then 1 else 0;
    assert b / 32 == upper;
    assert b / 16 == 2 * upper + if p.tip then 1 else 0;
    assert b / 128 == if near then 1 else 0;
  }

  // The decoder undoes the printing.
  lemma DecodesPrinted(near: bool, p: Pose, z: Noise)
    requires Measurable(p, z)
    ensures Decoded(Printed(near, p, z))
            == Report(true, p.tip, p.barrel, p.pressure, p.x, p.y, p.tiltX, p.tiltY, p.distance)
  {
    StatusBits(near, p, z);
    var high := p.pressure / 256 + if z.top then 128 else 0;
    assert (high * 256 + p.pressure % 256) % 0x8000 == p.pressure;
  }

  // Which printed frames count.  A pen frame has an odd id; but one with id 13 whose x
  // starts with byte 10 is taken for a cover notice, and one whose whole status is 13 for
  // the header.
  lemma ClassOfPrinted(near: bool, p: Pose, z: Noise)
    requires Measurable(p, z)
    ensures var f := Printed(near, p, z);
            var notice, header := z.id == 13 && p.x / 256 == 10, Status(near, p, z) == 13;
            && (CoverNotice(f) <==> notice)
            && (InRangeFrame(f) <==> near && z.id % 2 == 1 && !notice)
            && (OutOfRangeFrame(f) <==> !near && z.id % 2 == 1 && !notice && !header)
            && (GarageReply(f) <==> z.id == 14 && p.x / 256 == 6)
  {
    StatusBits(near, p, z);
  }

  // So every pen frame the controller prints near the pen is reported as it was measured,
  // but for those under id 13 whose x lies between 2560 and 2815, which move nothing.
  lemma ReportsPrinted(s: State, p: Pose, z: Noise)
    requires Measurable(p, z) && z.id % 2 == 1 && !s.penIrqDisabled
    ensures var t := Step(s, Irq(Printed(true, p, z)));
            if z.id == 13 && 2560 <= p.x < 2816 then Pen(t) == Pen(s)
            else t.inRange && t.report
                 == Report(true, p.tip, p.barrel, p.pressure, p.x, p.y, p.tiltX, p.tiltY, p.distance)
  {
    ClassOfPrinted(true, p, z);
    DecodesPrinted(true, p, z);
  }

  // Every frame is a printed one.
  lemma FrameIsPrinted(f: Frame) returns (near: bool, p: Pose, z: Noise)
    requires |f| == REPORT_SIZE
    ensures Measurable(p, z) && f == Printed(near, p, z)
  {
    near := Bit(f[0], 128);
    p := Pose(Bit(f[0], 16), Bit(f[0], 32), Be16(f, 1), Be16(f, 3), Be16(f, 5) % 0x8000,
              Signed8(f[7]), Signed8(f[8]), f[9]);
    z := Noise(f[0] % 16, Bit(f[0], 64), Bit(f[5], 128), f[10..]);
    StatusIsBits(f[0]);
    Be16Parts(f[1], f[2]);
    Be16Parts(f[3], f[4]);
    Be16Parts(f[5], f[6]);
    Signed8Back(f[7]);
    Signed8Back(f[8]);
    var g := Printed(near, p, z);
    assert forall i :: 0 <= i < 10 ==> f[i] == g[i];
    assert f == f[..10] + f[10..];
  }

  lemma Be16Parts(high: byte, low: byte)
    ensures var n := high as int * 256 + low as int;
            && n / 256 == high && n % 256 == low
            && n % 0x8000 / 256 == high % 128 && n % 0x8000 % 256 == low
    ensures high as int == high % 128 + if Bit(high, 128) then 128 else 0
  {
  }

  lemma Signed8Back(b: byte)
    ensures -128 <= Signed8(b) < 128 && Signed8(b) % 256 == b
  {
  }

  lemma StatusIsBits(b: byte)
    ensures b == (if Bit(b, 128) then 128 else 0) + (if Bit(b, 64) then 64 else 0) + (if Bit(b, 32) then 32 else 0)
                 + (if Bit(b, 16) then 16 else 0) + b % 16
    ensures b == (if Bit(b, 128) then 128 else 0) + b % 128
  {
  }

  // A cover notice says whether the cover is closed in the top bit of its fourth byte,
  // and nothing else changes.
  lemma CoverFollowsNotice(s: State, high: nat, closed: bool, low: nat, second: byte, rest: Frame)
    requires high < 16 && low < 128 && |rest| == 12
    ensures var notice := [16 * high + 13, 10, second, (if closed then 128 else 0) + low] + rest;
            Step(s, Irq(notice)) == s.(coverClosed := closed)
  {
  }

  // ---------- Runs ----------

  function After(s: State, es: seq<Event>): State {
    if es == [] then s else Step(After(s, es[..|es| - 1]), es[|es| - 1])
  }

  ghost predicate Legal(s: State, es: seq<Event>) {
    forall k :: 0 <= k < |es| ==> Enabled(After(s, es[..k]), es[k])
  }

  // ---------- What the history alone says ----------

  function Clock(es: seq<Event>): nat {
    if es == [] then 0
    else Clock(es[..|es| - 1]) + (match es[|es| - 1] case Tick(ms) => ms case _ => 0)
  }

  function DockLevel(initial: bool, es: seq<Event>): bool {
    if es == [] then initial
    else match es[|es| - 1] case Dock(level) => level case _ => DockLevel(initial, es[..|es| - 1])
  }

  function OptionValue(es: seq<Event>): bool {
    if es == [] then false
    else match es[|es| - 1] case Store(Some(on)) => on case _ => OptionValue(es[..|es| - 1])
  }

  // The pen is docked, and the user wants the digitiser off while it is.
  predicate SwitchedOff(initial: bool, es: seq<Event>) {
    DockLevel(initial, es) && OptionValue(es)
  }

  // Event k is an in-range frame that reaches the pen code.
  predicate Arrives(initial: bool, es: seq<Event>, k: nat)
    requires k < |es|
  {
    es[k].Irq? && InRangeFrame(es[k].frame) && !SwitchedOff(initial, es[..k])
  }

  predicate Misses(initial: bool, es: seq<Event>, k: nat)
    requires k < |es|
  {
    es[k].Irq? && OutOfRangeFrame(es[k].frame) && !SwitchedOff(initial, es[..k])
  }

  function MissesAfter(initial: bool, es: seq<Event>, i: nat): nat
    requires i < |es|
  {
    if |es| == i + 1 then 0
    else MissesAfter(initial, es[..|es| - 1], i) + if Misses(initial, es, |es| - 1) then 1 else 0
  }

  // Frame i is the latest in-range frame, and nothing since has ended the stay:
  // no silence long enough, no docking with the digitiser off, and fewer than
  // three out-of-range frames.
  ghost predicate Holds(initial: bool, es: seq<Event>, i: nat) {
    && i < |es|
    && Arrives(initial, es, i)
    && (forall j :: i < j < |es| ==> !Arrives(initial, es, j) && !es[j].Timeout?)
    && (forall j :: i < j <= |es| ==> !SwitchedOff(initial, es[..j]))
    && MissesAfter(initial, es, i) < OUT_OF_RANGE_FRAMES
  }

  // ---------- Safety and the history ----------

  lemma StepAgrees(s: State, e: Event)
    requires Agrees(s) && Enabled(s, e)
    ensures Agrees(Step(s, e))
  {
  }

  lemma {:induction false} AgreesInEveryRun(s: State, es: seq<Event>)
    requires s.Fresh() && Legal(s, es)
    ensures Agrees(After(s, es))
  {
    if es != [] {
      LegalPrefix(s, es);
      AgreesInEveryRun(s, es[..|es| - 1]);
      StepAgrees(After(s, es[..|es| - 1]), es[|es| - 1]);
    }
  }

  lemma LegalPrefix(s: State, es: seq<Event>)
    requires es != [] && Legal(s, es)
    ensures Legal(s, es[..|es| - 1])
    ensures Enabled(After(s, es[..|es| - 1]), es[|es| - 1])
  {
    var p := es[..|es| - 1];
    forall k | 0 <= k < |p| ensures Enabled(After(s, p[..k]), p[k]) {
      assert p[..k] == es[..k];
    }
  }

  // One event, seen from the settings.
  lemma StepSettings(s: State, e: Event)
    requires Agrees(s) && Enabled(s, e)
    ensures var t := Step(s, e);
            && t.now == s.now + (match e case Tick(ms) => ms case _ => 0)
            && t.docked == (match e case Dock(level) => level case _ => s.docked)
            && t.disableWhenDocked == (match e case Store(Some(on)) => on case _ => s.disableWhenDocked)
  {
  }

  // One event, seen from the pen.
  lemma StepPen(s: State, e: Event)
    requires Agrees(s) && Enabled(s, e)
    ensures var t := Step(s, e);
            var arrives := e.Irq? && InRangeFrame(e.frame) && !s.penIrqDisabled;
            var misses := e.Irq? && OutOfRangeFrame(e.frame) && !s.penIrqDisabled;
            && (t.inRange <==>
                (arrives || (s.inRange && !e.Timeout? && !t.penIrqDisabled
                             && !(misses && s.outOfRange + 1 == OUT_OF_RANGE_FRAMES))))
            && (arrives ==> t.outOfRange == 0 && t.timer == Some(s.now + PROXIMITY_TIMEOUT_MS)
                            && t.report == Decoded(e.frame) && !t.penIrqDisabled)
            && (t.inRange && !arrives ==> t.timer == s.timer && t.report == s.report
                                          && t.outOfRange == s.outOfRange + if misses then 1 else 0)
            && (e.Timeout? ==> s.timer == Some(s.now))
  {
  }

  lemma {:induction false} SettingsFollowHistory(s: State, es: seq<Event>)
    requires s.Fresh() && Legal(s, es)
    ensures var t := After(s, es);
            && t.now == Clock(es) && t.docked == DockLevel(s.docked, es)
            && t.disableWhenDocked == OptionValue(es) && t.penIrqDisabled == SwitchedOff(s.docked, es)
  {
    if es != [] {
      var p := es[..|es| - 1];
      LegalPrefix(s, es);
      SettingsFollowHistory(s, p);
      AgreesInEveryRun(s, p);
      StepSettings(After(s, p), es[|p|]);
      AgreesInEveryRun(s, es);
    }
  }

  // What the history says of its last event, between the states around it.
  ghost predicate Follows(initial: bool, es: seq<Event>, u: State, t: State)
    requires es != []
  {
    var p, e := es[..|es| - 1], es[|es| - 1];
    var arrives, misses := Arrives(initial, es, |p|), Misses(initial, es, |p|);
    && u.now == Clock(p) && t.now == Clock(es) && t.penIrqDisabled == SwitchedOff(initial, es)
    && (t.inRange <==>
        (arrives || (u.inRange && !e.Timeout? && !t.penIrqDisabled
                     && !(misses && u.outOfRange + 1 == OUT_OF_RANGE_FRAMES))))
    && (arrives ==> t.outOfRange == 0 && t.timer == Some(u.now + PROXIMITY_TIMEOUT_MS)
                    && t.report == Decoded(e.frame) && !t.penIrqDisabled)
    && (t.inRange && !arrives ==> t.timer == u.timer && t.report == u.report
                                  && t.outOfRange == u.outOfRange + if misses then 1 else 0)
    && (e.Timeout? ==> u.timer == Some(u.now) && t.now == u.now)
  }

  lemma StepFollows(initial: bool, es: seq<Event>, u: State, t: State)
    requires es != [] && Agrees(u) && Enabled(u, es[|es| - 1]) && t == Step(u, es[|es| - 1])
    requires u.now == Clock(es[..|es| - 1]) && u.penIrqDisabled == SwitchedOff(initial, es[..|es| - 1])
    requires t.now == Clock(es) && t.penIrqDisabled == SwitchedOff(initial, es)
    ensures Follows(initial, es, u, t)
  {
    StepPen(u, es[|es| - 1]);
  }

  lemma RunStep(s: State, es: seq<Event>)
    requires es != [] && s.Fresh() && Legal(s, es)
    ensures var p := es[..|es| - 1];
            && Legal(s, p) && Agrees(After(s, p)) && Agrees(After(s, es))
            && Follows(s.docked, es, After(s, p), After(s, es))
  {
    var p := es[..|es| - 1];
    LegalPrefix(s, es);
    SettingsFollowHistory(s, p);
    SettingsFollowHistory(s, es);
    AgreesInEveryRun(s, p);
    AgreesInEveryRun(s, es);
    StepFollows(s.docked, es, After(s, p), After(s, es));
  }

  // Whether frame i still holds after one more event.
  lemma HoldsStep(initial: bool, es: seq<Event>, i: nat)
    requires i + 1 < |es|
    ensures var p := es[..|es| - 1];
            Holds(initial, es, i) <==>
            Holds(initial, p, i) && !es[|p|].Timeout? && !Arrives(initial, es, |p|)
              && !SwitchedOff(initial, es) && MissesAfter(initial, es, i) < OUT_OF_RANGE_FRAMES
  {
    var p := es[..|es| - 1];
    assert forall j :: 0 <= j <= |p| ==> es[..j] == p[..j];
    assert es[..|es|] == es && p[..|p|] == p;
    assert forall j :: 0 <= j < |p| ==> Arrives(initial, es, j) == Arrives(initial, p, j);
    if Holds(initial, es, i) {
      forall j | i < j <= |p| ensures !SwitchedOff(initial, p[..j]) {
        assert !SwitchedOff(initial, es[..j]);
      }
      forall j | i < j < |p| ensures !Arrives(initial, p, j) && !p[j].Timeout? {
        assert !Arrives(initial, es, j);
      }
      assert !SwitchedOff(initial, es[..|es|]);
    } else if Holds(initial, p, i) && !es[|p|].Timeout? && !Arrives(initial, es, |p|) && !SwitchedOff(initial, es) {
      forall j | i < j < |es| ensures !Arrives(initial, es, j) && !es[j].Timeout? {
        if j < |p| {
          assert !Arrives(initial, p, j);
        }
      }
      forall j | i < j <= |es| ensures !SwitchedOff(initial, es[..j]) {
        if j <= |p| {
          assert !SwitchedOff(initial, p[..j]);
        }
      }
    }
  }

  lemma HoldsAtLast(initial: bool, es: seq<Event>)
    requires es != []
    ensures Holds(initial, es, |es| - 1) <==> Arrives(initial, es, |es| - 1) && !SwitchedOff(initial, es)
  {
    assert es[..|es|] == es;
  }

  // Only one frame can be the latest.
  lemma HoldsUnique(initial: bool, es: seq<Event>, i: nat, j: nat)
    requires Holds(initial, es, i) && Holds(initial, es, j)
    ensures i == j
  {
  }

  // What a held frame fixes: how many misses there have been, the deadline 250 ms
  // after the frame, and everything the input device reports.
  ghost predicate Matches(s: State, initial: bool, es: seq<Event>, i: nat)
    requires i < |es| && Arrives(initial, es, i)
  {
    && s.inRange
    && s.outOfRange == MissesAfter(initial, es, i)
    && s.timer == Some(Clock(es[..i]) + PROXIMITY_TIMEOUT_MS)
    && s.report == Decoded(es[i].frame)
  }

  lemma MatchesStep(initial: bool, es: seq<Event>, i: nat, u: State, t: State)
    requires i + 1 < |es| && Follows(initial, es, u, t) && Holds(initial, es, i)
    requires Arrives(initial, es[..|es| - 1], i) && Matches(u, initial, es[..|es| - 1], i)
    requires Agrees(u)
    ensures Matches(t, initial, es, i)
  {
    assert es[..|es| - 1][..i] == es[..i];
    assert es[..|es|] == es;
  }

  // While the driver keeps the pen and no new frame arrives, the frame holds on.
  lemma HoldsOn(initial: bool, es: seq<Event>, i: nat, u: State, t: State)
    requires i + 1 < |es| && Follows(initial, es, u, t) && Agrees(t)
    requires Holds(initial, es[..|es| - 1], i) && Matches(u, initial, es[..|es| - 1], i)
    requires t.inRange && !Arrives(initial, es, |es| - 1)
    ensures Holds(initial, es, i)
  {
    assert Arrives(initial, es, i) by {
      assert es[..|es| - 1][..i] == es[..i];
    }
    HoldsStep(initial, es, i);
  }

  lemma MatchesAtLast(initial: bool, es: seq<Event>, u: State, t: State)
    requires es != [] && Follows(initial, es, u, t) && Holds(initial, es, |es| - 1)
    ensures Matches(t, initial, es, |es| - 1)
  {
    HoldsAtLast(initial, es);
  }

  lemma {:induction false} HistoryToState(s: State, es: seq<Event>, i: nat)
    requires s.Fresh() && Legal(s, es) && Holds(s.docked, es, i)
    ensures Matches(After(s, es), s.docked, es, i)
    decreases |es|
  {
    var p := es[..|es| - 1];
    RunStep(s, es);
    if i < |p| {
      HoldsStep(s.docked, es, i);
      HistoryToState(s, p, i);
      MatchesStep(s.docked, es, i, After(s, p), After(s, es));
    } else {
      MatchesAtLast(s.docked, es, After(s, p), After(s, es));
    }
  }

  // A pen in range has just arrived, and then holds, or had been there before.
  lemma ArrivedOrKept(s: State, es: seq<Event>)
    requires s.Fresh() && Legal(s, es) && After(s, es).inRange
    ensures es != [] && Legal(s, es[..|es| - 1])
    ensures if Arrives(s.docked, es, |es| - 1) then Holds(s.docked, es, |es| - 1) else After(s, es[..|es| - 1]).inRange
  {
    RunStep(s, es);
    HoldsAtLast(s.docked, es);
  }

  // And the frame that held before still holds.
  lemma StillHolds(s: State, es: seq<Event>, i: nat)
    requires s.Fresh() && es != [] && Legal(s, es) && After(s, es).inRange
    requires Holds(s.docked, es[..|es| - 1], i) && !Arrives(s.docked, es, |es| - 1)
    ensures Holds(s.docked, es, i)
  {
    var p := es[..|es| - 1];
    RunStep(s, es);
    HistoryToState(s, p, i);
    HoldsOn(s.docked, es, i, After(s, p), After(s, es));
  }

  lemma {:induction false} StateToHistory(s: State, es: seq<Event>) returns (i: nat)
    requires s.Fresh() && Legal(s, es) && After(s, es).inRange
    ensures Holds(s.docked, es, i)
    decreases |es|
  {
    ArrivedOrKept(s, es);
    if Arrives(s.docked, es, |es| - 1) {
      i := |es| - 1;
    } else {
      i := StateToHistory(s, es[..|es| - 1]);
      StillHolds(s, es, i);
    }
  }

  // Over every run from probe, the pen is reported in range exactly while some
  // in-range frame is the latest and nothing has ended its stay; and then the
  // report is that frame's and the deadline is 250 ms after it.
  lemma InRangeExactly(s: State, es: seq<Event>)
    requires s.Fresh() && Legal(s, es)
    ensures After(s, es).report.tool <==> exists i :: Holds(s.docked, es, i)
    ensures forall i :: Holds(s.docked, es, i) ==> Matches(After(s, es), s.docked, es, i)
  {
    AgreesInEveryRun(s, es);
    if After(s, es).inRange {
      var i := StateToHistory(s, es);
    }
    forall i | Holds(s.docked, es, i) ensures Matches(After(s, es), s.docked, es, i) {
      HistoryToState(s, es, i);
    }
  }

  // A pen that was held and is no longer left for one of three reasons: the
  // deadline of its latest frame passed, the digitiser was switched off, or a
  // third out-of-range frame came with no in-range frame between.
  lemma LeavesOnlyForCause(s: State, es: seq<Event>, i: nat)
    requires es != [] && s.Fresh() && Legal(s, es)
    requires Holds(s.docked, es[..|es| - 1], i) && !After(s, es).inRange
    ensures var e := es[|es| - 1];
            || (e.Timeout? && Clock(es) == Clock(es[..i]) + PROXIMITY_TIMEOUT_MS)
            || SwitchedOff(s.docked, es)
            || (Misses(s.docked, es, |es| - 1) && MissesAfter(s.docked, es, i) == OUT_OF_RANGE_FRAMES)
  {
    var p := es[..|es| - 1];
    RunStep(s, es);
    HistoryToState(s, p, i);
    assert es[..i] == p[..i];
  }

  // And silence always gets there: from any state of a pen in range the clock can run
  // up to the deadline, within 250 ms, and the timeout then takes the pen away.
  lemma SilenceTakesThePen(s: State)
    requires Agrees(s) && s.inRange
    ensures s.timer.Some? && s.now <= s.timer.value <= s.now + 250
    ensures var wait := Tick(s.timer.value - s.now);
            var t := Step(s, wait);
            Enabled(s, wait) && Enabled(t, Timeout) && !Step(t, Timeout).inRange && Step(t, Timeout).timer.None?
  {
  }

  // Silence is bounded: in range at any moment means an in-range frame within the
  // last 250 ms.
  lemma SilenceIsBounded(s: State, es: seq<Event>)
    requires s.Fresh() && Legal(s, es) && After(s, es).inRange
    ensures exists i :: 0 <= i < |es| && Arrives(s.docked, es, i) && Clock(es) <= Clock(es[..i]) + PROXIMITY_TIMEOUT_MS
  {
    var i := StateToHistory(s, es);
    HistoryToState(s, es, i);
    AgreesInEveryRun(s, es);
    SettingsFollowHistory(s, es);
  }
}
