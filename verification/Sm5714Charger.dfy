// The SM5714 switching charger's arbitration of the battery path: the Q4 switch,
// the OTG boost, the MUIC data switch and the flags that say who owns them.
//
// Every I2C transfer may fail.  Each entry point is a method of Charger, proved
// against a function of the old state, its sensor readings and the number of
// register updates that went through before the first failure.
//
// A global lock covers the PD contract, the handover and the OTG switch; a charger
// lock covers a configure pass.  The poll worker holds neither while it decides, and
// set_otg has dropped the first when it resumes charging, so their passes are steps
// of their own between which anything else may run.

module Sm5714Charger {
  import opened CTypes
  import opened ChargeThermal

  // ---------- Registers ----------

  datatype Reg = CNTL1 | CNTL2 | VBUSCNTL | CHGCNTL2 | BSTCNTL1 | MUIC_CNTL | MANUAL_SW

  datatype Regs = Regs(
    cntl1: bv8, cntl2: bv8, vbuscntl: bv8, chgcntl2: bv8, bstcntl1: bv8,
    muicCntl: bv8, manualSw: bv8)

  const ENQ4FET: bv8 := 0x08
  const MODE_MASK: bv8 := 0x0f
  const MODE_CHARGING: bv8 := 0x05
  const MODE_USB_OTG: bv8 := 0x07
  const BST_OTG_MASK: bv8 := 0xcf
  const BST_5V1: bv8 := 0x06
  const BC12OFF: bv8 := 0x02
  const MANUAL_MASK: bv8 := 0xbf   // the manual bit and the path field
  const MANUAL_USB: bv8 := 0x89

  function Get(r: Regs, reg: Reg): bv8 {
    match reg
    case CNTL1 => r.cntl1
    case CNTL2 => r.cntl2
    case VBUSCNTL => r.vbuscntl
    case CHGCNTL2 => r.chgcntl2
    case BSTCNTL1 => r.bstcntl1
    case MUIC_CNTL => r.muicCntl
    case MANUAL_SW => r.manualSw
  }

  function Set(r: Regs, reg: Reg, v: bv8): Regs {
    match reg
    case CNTL1 => r.(cntl1 := v)
    case CNTL2 => r.(cntl2 := v)
    case VBUSCNTL => r.(vbuscntl := v)
    case CHGCNTL2 => r.(chgcntl2 := v)
    case BSTCNTL1 => r.(bstcntl1 := v)
    case MUIC_CNTL => r.(muicCntl := v)
    case MANUAL_SW => r.(manualSw := v)
  }

  // One masked register update.
  datatype Update = Update(reg: Reg, mask: bv8, val: bv8)

  function Masked(prev: bv8, u: Update): bv8 {
    (prev & !u.mask) | (u.val & u.mask)
  }

  function Upd(r: Regs, u: Update): Regs {
    Set(r, u.reg, Masked(Get(r, u.reg), u))
  }

  // The first k updates of a sequence.
  function Apply(r: Regs, ops: seq<Update>, k: nat): Regs
    requires k <= |ops|
  {
    if k == 0 then r else Upd(Apply(r, ops, k - 1), ops[k - 1])
  }

  predicate Q4Closed(r: Regs) {
    r.cntl1 & ENQ4FET != 0
  }

  predicate OtgMode(r: Regs) {
    r.cntl2 & MODE_MASK == MODE_USB_OTG
  }

  predicate RoutedToUsb(r: Regs) {
    r.muicCntl & BC12OFF != 0 && r.manualSw & MANUAL_MASK == MANUAL_USB
  }

  // While the boost drives the connector Q4 is open, BC1.2 detection is off and
  // the data lines are switched to the SoC.
  predicate SafeRegs(r: Regs) {
    OtgMode(r) ==> !Q4Closed(r) && RoutedToUsb(r)
  }

  // ---------- State and readings ----------

  datatype UsbType = UNKNOWN | SDP | CDP | DCP | PD
  datatype Status = DISCHARGING | CHARGING | FULL | NOT_CHARGING

  // Where the poll worker stands, with the readings it still goes by.  A pass that
  // is due was decided on and has yet to get the charger lock.
  datatype PollAt =
    | Resting
    | HeatDue
    | Checking(online: Option<bool>, status: Option<Status>, again: bool)
    | RecoverDue
    | CableDue(online: Option<bool>)

  // `resuming` counts the set_otg calls that have yet to resume charging.
  datatype State = State(
    regs: Regs, thermal: Thermal, direct: bool, otg: bool,
    typecMv: nat, typecMa: nat, lastOnline: bool,
    poll: PollAt, resuming: nat)

  datatype Ret = Ok | EBUSY | ERANGE | EIO

  // What one pass of configure_charging reads; None is a failed transfer.
  datatype Sense = Sense(vbus: Option<bool>, muicType: Option<bv8>, temp: Option<int>)

  function Online(s: State, vbus: Option<bool>): Option<bool> {
    if s.otg then Some(false) else vbus
  }

  // sm5714_get_usb_type()
  function UsbTypeOf(s: State, sense: Sense): Option<UsbType> {
    var online := Online(s, sense.vbus);
    if online.None? then None
    else if !online.value then Some(UNKNOWN)
    else if s.typecMv > 5000 then Some(PD)
    else if sense.muicType.None? then None
    else if sense.muicType.value & 0x08 != 0 then Some(CDP)
    else if sense.muicType.value & 0x03 != 0 then Some(SDP)
    else if sense.muicType.value & 0xf4 != 0 then Some(DCP)
    else Some(UNKNOWN)
  }

  // The detected source as the MUIC reports it, one bit each.
  datatype Detected = Detected(
    dcdOut: bool, sdp: bool, dcp: bool, cdp: bool, u200: bool, afc: bool, qc20: bool, loTa: bool)

  function TypeByte(d: Detected): bv8 {
    (if d.dcdOut then 1 else 0) + (if d.sdp then 2 else 0) + (if d.dcp then 4 else 0) + (if d.cdp then 8 else 0)
    + (if d.u200 then 16 else 0) + (if d.afc then 32 else 0) + (if d.qc20 then 64 else 0) + (if d.loTa then 128 else 0)
  }

  // What is made of it: a negotiated voltage decides without it, a CDP goes before an
  // SDP and that before a dedicated charger, and nothing detected stays unknown.
  lemma UsbTypeOfDetected(s: State, d: Detected, temp: Option<int>)
    requires !s.otg
    ensures var usb := UsbTypeOf(s, Sense(Some(true), Some(TypeByte(d)), temp));
            && usb.Some?
            && (usb.value == PD <==> s.typecMv > 5000)
            && (s.typecMv <= 5000 ==>
                  && (usb.value == CDP <==> d.cdp)
                  && (usb.value == SDP <==> !d.cdp && (d.sdp || d.dcdOut))
                  && (usb.value == DCP <==> !d.cdp && !d.sdp && !d.dcdOut && (d.dcp || d.u200 || d.afc || d.qc20 || d.loTa))
                  && (usb.value == UNKNOWN <==> d == Detected(false, false, false, false, false, false, false, false)))
  {
    TypeBits(d);
  }

  lemma TypeBits(d: Detected)
    ensures var v := TypeByte(d);
            && (v & 0x08 != 0 <==> d.cdp)
            && (v & 0x03 != 0 <==> d.sdp || d.dcdOut)
            && (v & 0xf4 != 0 <==> d.dcp || d.u200 || d.afc || d.qc20 || d.loTa)
  {
  }

  // No supply is an unknown source, and so is the own boost; a failed read is none.
  lemma UsbTypeUnread(s: State, sense: Sense)
    ensures s.otg || sense.vbus == Some(false) ==> UsbTypeOf(s, sense) == Some(UNKNOWN)
    ensures UsbTypeOf(s, sense).None? <==>
              !s.otg && (sense.vbus.None? || (sense.vbus.value && s.typecMv <= 5000 && sense.muicType.None?))
  {
  }

  // ---------- Charging limits ----------

  function InputMa(typecMv: nat, typecMa: nat, usb: UsbType): nat {
    if typecMv >= 5000 && typecMa >= 500 then Min(typecMa, if typecMv > 5000 then 1660 else 3000)
    else match usb
      case DCP => 1800
      case CDP => 1500
      case _ => 500
  }

  function FastMa(typecMv: nat, typecMa: nat, usb: UsbType, thermal: Thermal): nat {
    var fast :=
      if typecMv >= 5000 && typecMa >= 500 then 2800
      else match usb
        case DCP => 2100
        case CDP => 1500
        case _ => 500;
    if thermal == Reduced then Min(fast, 2100) else fast
  }

  function InputCode(ma: nat): (code: nat)
    requires 100 <= ma
    ensures code <= 0x7f
  {
    Clamp((ma - 100) / 25, 0, 0x7f)
  }

  function FastCode(ma: nat): (code: nat)
    ensures code <= 0xe0
  {
    if ma * 1000 <= 109375 then 0x07 else Clamp(7 + (ma * 1000 - 109375) / 15625, 0x07, 0xe0)
  }

  // The limits written to the chip never exceed the ones decided on, never
  // exceed a Type-C advertisement, and fall to 500 mA for a source nobody has
  // identified.
  lemma LimitsAreConservative(typecMv: nat, typecMa: nat, usb: UsbType, thermal: Thermal)
    ensures var input, fast := InputMa(typecMv, typecMa, usb), FastMa(typecMv, typecMa, usb, thermal);
            && 500 <= input <= 3000 && 500 <= fast <= 2800
            && InputCode(input) * 25 + 100 <= input
            && 109375 + (FastCode(fast) - 7) * 15625 <= fast * 1000
            && (typecMv >= 5000 && typecMa >= 500 ==> input <= typecMa)
            && (typecMv > 5000 && typecMa >= 500 ==> input <= 1660)
            && (thermal == Reduced ==> fast <= 2100)
            && (!(typecMv >= 5000 && typecMa >= 500) && usb != DCP && usb != CDP ==> input == fast == 500)
  {
  }

  // And which limits are decided on for which source.
  lemma LimitsOfSource(typecMv: nat, typecMa: nat, usb: UsbType, thermal: Thermal)
    ensures var input, fast := InputMa(typecMv, typecMa, usb), FastMa(typecMv, typecMa, usb, thermal);
            if typecMv >= 5000 && typecMa >= 500 then
              && (input == typecMa || (input < typecMa && input == if typecMv > 5000 then 1660 else 3000))
              && fast == if thermal == Reduced then 2100 else 2800
            else
              && (usb == DCP ==> input == 1800 && fast == 2100)
              && (usb == CDP ==> input == 1500 && fast == 1500)
              && (usb != DCP && usb != CDP ==> input == 500 && fast == 500)
  {
  }

  // The codes lose less than one step, 25 mA and 15.625 mA.
  lemma CodesAreClose(typecMv: nat, typecMa: nat, usb: UsbType, thermal: Thermal)
    ensures var input, fast := InputMa(typecMv, typecMa, usb), FastMa(typecMv, typecMa, usb, thermal);
            && InputCode(input) * 25 + 100 <= input < InputCode(input) * 25 + 125
            && 109375 + (FastCode(fast) - 7) * 15625 <= fast * 1000 < 109375 + (FastCode(fast) - 6) * 15625
  {
  }

  // ---------- Update sequences ----------

  const OPEN_Q4 := Update(CNTL1, ENQ4FET, 0)
  const CLOSE_Q4 := Update(CNTL1, ENQ4FET, ENQ4FET)

  function ConfigureOps(s: State, usb: UsbType, thermal: Thermal): seq<Update> {
    if thermal == Stop then [OPEN_Q4]
    else LimitOps(InputMa(s.typecMv, s.typecMa, usb), FastMa(s.typecMv, s.typecMa, usb, thermal))
  }

  // The input limit is lowered before Q4 closes and raised after.
  function LimitOps(inputMa: nat, fastMa: nat): seq<Update>
    requires 100 <= inputMa
  {
    [Update(VBUSCNTL, 0xff, InputCode(500) as bv8), Update(CHGCNTL2, 0xff, FastCode(fastMa) as bv8),
     CLOSE_Q4, Update(VBUSCNTL, 0xff, InputCode(inputMa) as bv8)]
  }

  function BoostVal(otgMa: bv8): bv8 {
    BST_5V1 | ((otgMa & 3) << 6)
  }

  const MUIC_USB_OPS := [Update(MUIC_CNTL, BC12OFF, BC12OFF), Update(MANUAL_SW, MANUAL_MASK, MANUAL_USB)]

  function BoostOps(otgMa: bv8): seq<Update> {
    [OPEN_Q4, Update(BSTCNTL1, BST_OTG_MASK, BoostVal(otgMa)), Update(CNTL2, MODE_MASK, MODE_USB_OTG)]
  }

  function OtgOnOps(otgMa: bv8): seq<Update> {
    MUIC_USB_OPS + BoostOps(otgMa)
  }

  const MUIC_AUTO_OPS := [Update(MANUAL_SW, MANUAL_MASK, 0), Update(MUIC_CNTL, BC12OFF, 0)]

  const CHARGING_MODE_OPS := [Update(CNTL2, MODE_MASK, MODE_CHARGING)]

  const OTG_OFF_OPS := CHARGING_MODE_OPS + MUIC_AUTO_OPS

  // ---------- Entry points as functions ----------

  function ThermalAfter(s: State, temp: Option<int>): Thermal {
    if temp.Some? then NextThermal(s.thermal, temp.value) else s.thermal
  }

  // sm5714_configure_charging(), of whose register updates k succeed before one
  // fails; k at or past their number is no failure.
  function Configured(s: State, sense: Sense, k: nat): (State, Ret) {
    var usb := UsbTypeOf(s, sense);
    if s.otg then (s, EBUSY)
    else if usb.None? then (s, EIO)
    else
      var thermal := ThermalAfter(s, sense.temp);
      var ops := ConfigureOps(s, usb.value, thermal);
      (s.(thermal := thermal, regs := Apply(s.regs, ops, Min(k, |ops|))),
       if k < |ops| then EIO else Ok)
  }

  function PdContractSet(s: State, mv: nat, ma: nat, vbus: Option<bool>, sense: Sense, k: nat): (State, Ret) {
    if (mv != 0 && (mv < 5000 || mv > 9000)) || ma > 3000 then (s, ERANGE)
    else
      var s1 := s.(typecMv := mv, typecMa := ma);
      if mv != 0 && ma != 0 && Online(s1, vbus) == Some(true) && !s1.direct then Configured(s1, sense, k)
      else (s1, Ok)
  }

  // `q4Opened` says whether the Q4 update of a takeover went through.
  function PathTaken(s: State, temp: Option<int>, q4Opened: bool): (State, Ret) {
    if temp.None? then (s, EIO)
    else if temp.value < 100 || temp.value >= 420 then (s, ERANGE)
    else if q4Opened then (s.(direct := true, regs := Upd(s.regs, OPEN_Q4)), Ok)
    else (s.(direct := false), EIO)
  }

  function PathReturned(s: State, vbus: Option<bool>, sense: Sense, k: nat): (State, Ret) {
    var s1 := s.(direct := false);
    if Online(s1, vbus) == Some(true) then Configured(s1, sense, k) else (s1, Ok)
  }

  // sm5714_battery_set_direct_charge()
  function DirectChargeSet(s: State, active: bool, temp: Option<int>, q4Opened: bool,
                           vbus: Option<bool>, sense: Sense, k: nat): (State, Ret) {
    if active then PathTaken(s, temp, q4Opened) else PathReturned(s, vbus, sense, k)
  }

  // How the transfers of one set_otg call fared: k updates of its sequence; when
  // the MUIC switch itself failed, whether BC1.2 could be put back; and how many
  // of the two updates undoing the MUIC path succeeded.
  datatype OtgIo = OtgIo(k: nat, restored: bool, undone: nat)

  // sm5714_battery_set_otg() as far as the global lock reaches
  function OtgSwitched(s: State, active: bool, otgMa: bv8, vbus: Option<bool>, io: OtgIo,
                       vbusAfter: Option<bool>): (State, Ret) {
    if active == s.otg then (s, Ok)
    else if active then
      if s.direct then (s, EBUSY)
      else if vbus.None? then (s, EIO)
      else if vbus.value then (s, EBUSY)
      else
        var regs := Apply(s.regs, OtgOnOps(otgMa), Min(io.k, 5));
        if io.k >= 5 then (s.(regs := regs, otg := true), Ok)
        else
          var back := if io.k == 1 && io.restored then regs.(muicCntl := s.regs.muicCntl) else regs;
          (s.(regs := Apply(back, MUIC_AUTO_OPS, Min(io.undone, 2))), EIO)
    else
      var regs := Apply(s.regs, OTG_OFF_OPS, Min(io.k, 3));
      if io.k == 0 then (s, EIO)
      else if io.k < 3 then (s.(regs := regs, otg := false), EIO)
      else
        (s.(regs := regs, otg := false, resuming := s.resuming + if vbusAfter == Some(true) then 1 else 0), Ok)
  }

  // sm5714_get_status() with sm5714_status_from_regs()
  function StatusOf(s: State, st: Option<(bool, bool, bool)>): Option<Status> {
    if s.otg then Some(DISCHARGING)
    else if st.None? then None
    else if !st.value.0 then Some(DISCHARGING)
    else if s.direct then Some(CHARGING)
    else if st.value.1 then Some(FULL)
    else if st.value.2 then Some(CHARGING)
    else Some(NOT_CHARGING)
  }

  predicate HeatMoved(s: State, vbus: Option<bool>, temp: Option<int>) {
    Online(s, vbus) == Some(true) && ThermalAfter(s, temp) != s.thermal
  }

  // The two that configure charging without the global lock.
  datatype Passer = PollWorker | OtgReturn

  predicate PassDue(s: State, who: Passer) {
    match who
    case PollWorker => s.poll.HeatDue? || s.poll.RecoverDue?
    case OtgReturn => s.resuming > 0
  }

  // Its pass.  A step whose turn it is not is none, here and below.
  function Passed(s: State, who: Passer, sense: Sense, k: nat): State {
    if PassDue(s, who) then Configured(Begun(s, who), sense, k).0 else s
  }

  function Begun(s: State, who: Passer): State
    requires PassDue(s, who)
  {
    match who
    case PollWorker => s.(poll := if s.poll.HeatDue? then Checking(Some(true), None, true) else CableDue(Some(true)))
    case OtgReturn => s.(resuming := s.resuming - 1)
  }

  // sm5714_poll_work() starts by looking at the battery, and has a pass due if the
  // thermal state moved;
  function Looked(s: State, st: Option<(bool, bool, bool)>, vbus: Option<bool>, temp: Option<int>): State {
    if !s.poll.Resting? then s
    else if HeatMoved(s, vbus, temp) then s.(thermal := ThermalAfter(s, temp), poll := HeatDue)
    else s.(poll := Checking(Online(s, vbus), StatusOf(s, st), false))
  }

  // it goes on to look for a path that is open and idle, and not handed over;
  function Checked(s: State, statusAfter: Option<(bool, bool, bool)>, cntl1Read: bool): State {
    if !s.poll.Checking? then s
    else
      var status := if s.poll.again then StatusOf(s, statusAfter) else s.poll.status;
      if s.poll.online == Some(true) && !s.direct && status == Some(NOT_CHARGING) && s.thermal != Stop
         && cntl1Read && !Q4Closed(s.regs)
      then s.(poll := RecoverDue)
      else s.(poll := CableDue(s.poll.online))
  }

  // and opens the path if it saw the cable go.
  function CableNoted(s: State, q4Opened: bool): State {
    if !s.poll.CableDue? then s
    else
      var s1, online := s.(poll := Resting), s.poll.online;
      if online.Some? && online.value != s.lastOnline then
        s1.(lastOnline := online.value,
            regs := if !online.value && q4Opened then Upd(s.regs, OPEN_Q4) else s.regs)
      else s1
  }

  // The readings of one poll, in order, and the fate of its transfers.
  datatype PollIn = PollIn(
    status: Option<(bool, bool, bool)>,       // VBUS_POK, TOPOFF, CHG_ON
    vbus: Option<bool>, temp: Option<int>,
    changed: Sense, changedK: nat, statusAfter: Option<(bool, bool, bool)>,
    cntl1Read: bool, recover: Sense, recoverK: nat, q4Opened: bool)

  // A poll into which nothing else falls.
  function Polled(s: State, p: PollIn): State {
    var seen := Passed(Looked(s, p.status, p.vbus, p.temp), PollWorker, p.changed, p.changedK);
    CableNoted(Passed(Checked(seen, p.statusAfter, p.cntl1Read), PollWorker, p.recover, p.recoverK), p.q4Opened)
  }

  function Found(regs: Regs, vbus: Option<bool>): State {
    State(regs, Normal, false, false, 0, 0, vbus == Some(true), Resting, 0)
  }

  function Probed(regs: Regs, vbus: Option<bool>, st: Option<(bool, bool, bool)>, sense: Sense, k: nat): State {
    var s := Found(regs, vbus);
    if s.lastOnline && StatusOf(s, st) == Some(NOT_CHARGING) then Configured(s, sense, k).0 else s
  }

  // ---------- The OTG invariant ----------

  ghost predicate OtgAgrees(otg: bool, r: Regs) {
    (otg <==> OtgMode(r)) && SafeRegs(r)
  }

  ghost predicate OtgInvariant(s: State) {
    OtgAgrees(s.otg, s.regs)
  }

  lemma SetSame(r: Regs, reg: Reg)
    ensures Set(r, reg, Get(r, reg)) == r
  {
  }

  lemma WholeByte(r: Regs, reg: Reg, v: bv8)
    ensures Upd(r, Update(reg, 0xff, v)) == Set(r, reg, v)
  {
    assert (Get(r, reg) & !(0xff as bv8)) | (v & 0xff) == v;
  }

  lemma ApplyLast(r: Regs, ops: seq<Update>, k: nat, before: Regs, u: Update)
    requires 0 < k <= |ops| && Apply(r, ops, k - 1) == before && ops[k - 1] == u
    ensures Apply(r, ops, k) == Upd(before, u)
  {
  }

  lemma SameLast(r: Regs, a: seq<Update>, i: nat, q: Regs, b: seq<Update>, j: nat)
    requires 0 < i <= |a| && 0 < j <= |b| && a[i - 1] == b[j - 1]
    requires Apply(r, a, i - 1) == Apply(q, b, j - 1)
    ensures Apply(r, a, i) == Apply(q, b, j)
  {
    var before := Apply(r, a, i - 1);
    ApplyLast(r, a, i, before, a[i - 1]);
    ApplyLast(q, b, j, before, b[j - 1]);
  }

  lemma {:induction false} ApplyPrefix(r: Regs, a: seq<Update>, b: seq<Update>, k: nat)
    requires k <= |a|
    ensures Apply(r, a + b, k) == Apply(r, a, k)
  {
    if k > 0 {
      ApplyPrefix(r, a, b, k - 1);
      SameLast(r, a + b, k, r, a, k);
    }
  }

  lemma {:induction false} ApplySuffix(r: Regs, a: seq<Update>, b: seq<Update>, j: nat)
    requires j <= |b|
    ensures Apply(r, a + b, |a| + j) == Apply(Apply(r, a, |a|), b, j)
  {
    if j == 0 {
      ApplyPrefix(r, a, b, |a|);
    } else {
      ApplySuffix(r, a, b, j - 1);
      var ops, u := a + b, b[j - 1];
      assert ops[|a| + j - 1] == u;
      SameLast(r, ops, |a| + j, Apply(r, a, |a|), b, j);
    }
  }

  lemma ApplyConcat(r: Regs, a: seq<Update>, b: seq<Update>, k: nat)
    requires k <= |a| + |b|
    ensures Apply(r, a + b, k) == if k <= |a| then Apply(r, a, k) else Apply(Apply(r, a, |a|), b, k - |a|)
  {
    if k <= |a| {
      ApplyPrefix(r, a, b, k);
    } else {
      ApplySuffix(r, a, b, k - |a|);
    }
  }

  // The updates leave the boost mode and the data switch alone.
  predicate SparesOtg(ops: seq<Update>) {
    forall i :: 0 <= i < |ops| ==> ops[i].reg != CNTL2 && ops[i].reg != MUIC_CNTL && ops[i].reg != MANUAL_SW
  }

  lemma {:induction false} ApplySparesOtg(r: Regs, ops: seq<Update>, k: nat)
    requires k <= |ops| && SparesOtg(ops)
    ensures var t := Apply(r, ops, k); t.cntl2 == r.cntl2 && t.muicCntl == r.muicCntl && t.manualSw == r.manualSw
  {
    if k > 0 {
      ApplySparesOtg(r, ops, k - 1);
      UpdSparesOtg(Apply(r, ops, k - 1), ops[k - 1]);
    }
  }

  lemma UpdSparesOtg(r: Regs, u: Update)
    requires u.reg != CNTL2 && u.reg != MUIC_CNTL && u.reg != MANUAL_SW
    ensures var t := Upd(r, u); t.cntl2 == r.cntl2 && t.muicCntl == r.muicCntl && t.manualSw == r.manualSw
  {
    SetSparesOtg(r, u.reg, Masked(Get(r, u.reg), u));
  }

  lemma SetSparesOtg(r: Regs, reg: Reg, v: bv8)
    requires reg != CNTL2 && reg != MUIC_CNTL && reg != MANUAL_SW
    ensures var t := Set(r, reg, v); t.cntl2 == r.cntl2 && t.muicCntl == r.muicCntl && t.manualSw == r.manualSw
  {
  }

  lemma ConfiguredKeepsOtg(s: State, sense: Sense, k: nat)
    requires OtgInvariant(s)
    ensures OtgInvariant(Configured(s, sense, k).0)
  {
    if !s.otg && UsbTypeOf(s, sense).Some? {
      var ops := ConfigureOps(s, UsbTypeOf(s, sense).value, ThermalAfter(s, sense.temp));
      ApplySparesOtg(s.regs, ops, Min(k, |ops|));
    }
  }

  lemma StopApplied(r: Regs)
    ensures Apply(r, [OPEN_Q4], 0) == r && Apply(r, [OPEN_Q4], 1) == Upd(r, OPEN_Q4)
  {
  }

  lemma MuicUsbRoutes(r: Regs)
    ensures var t := Apply(r, MUIC_USB_OPS, 2);
            RoutedToUsb(t) && t == r.(muicCntl := t.muicCntl, manualSw := t.manualSw)
    ensures Apply(r, MUIC_USB_OPS, 1) == r.(muicCntl := Apply(r, MUIC_USB_OPS, 1).muicCntl)
  {
    assert Apply(r, MUIC_USB_OPS, 2) == Upd(Apply(r, MUIC_USB_OPS, 1), MUIC_USB_OPS[1]);
  }

  lemma MuicAutoSpares(r: Regs, k: nat)
    requires k <= 2
    ensures var t := Apply(r, MUIC_AUTO_OPS, k); t == r.(muicCntl := t.muicCntl, manualSw := t.manualSw)
  {
    assert Apply(r, MUIC_AUTO_OPS, 1) == Upd(r, MUIC_AUTO_OPS[0]);
    assert k == 2 ==> Apply(r, MUIC_AUTO_OPS, 2) == Upd(Apply(r, MUIC_AUTO_OPS, 1), MUIC_AUTO_OPS[1]);
  }

  // Of the three boost updates the first opens Q4 and only the last changes the
  // mode.
  lemma BoostSequence(r: Regs, otgMa: bv8, k: nat)
    requires k <= 3
    ensures var t := Apply(r, BoostOps(otgMa), k);
            && t.muicCntl == r.muicCntl && t.manualSw == r.manualSw
            && (k > 0 ==> !Q4Closed(t)) && (k < 3 ==> t.cntl2 == r.cntl2) && (k == 3 ==> OtgMode(t))
            && (k == 0 ==> t == r)
  {
    var ops := BoostOps(otgMa);
    var t1 := Upd(r, ops[0]);
    assert Apply(r, ops, 1) == t1;
    var t2 := Upd(t1, ops[1]);
    assert Apply(r, ops, 2) == t2;
    var t3 := Upd(t2, ops[2]);
    assert Apply(r, ops, 3) == t3;
  }

  lemma ChargingModeLeavesOtg(r: Regs)
    ensures var t := Apply(r, CHARGING_MODE_OPS, 1); !OtgMode(t) && t == r.(cntl2 := t.cntl2)
  {
    assert Apply(r, CHARGING_MODE_OPS, 1) == Upd(r, CHARGING_MODE_OPS[0]);
    assert Masked(r.cntl2, CHARGING_MODE_OPS[0]) & MODE_MASK == MODE_CHARGING;
  }

  // Until its last update the sequence leaves the mode alone; complete, it has
  // routed the data lines and opened Q4.
  lemma OtgOnSequence(r: Regs, otgMa: bv8, k: nat)
    requires k <= 5
    ensures var t := Apply(r, OtgOnOps(otgMa), k);
            && (k < 5 ==> t.cntl2 == r.cntl2)
            && (k == 5 ==> OtgMode(t) && RoutedToUsb(t) && !Q4Closed(t))
            && (k == 1 ==> t == r.(muicCntl := t.muicCntl))
  {
    ApplyConcat(r, MUIC_USB_OPS, BoostOps(otgMa), k);
    MuicUsbRoutes(r);
    if k > 2 {
      BoostSequence(Apply(r, MUIC_USB_OPS, 2), otgMa, k - 2);
    }
  }

  lemma OtgOffSequence(r: Regs, k: nat)
    requires 1 <= k <= 3
    ensures var t := Apply(r, OTG_OFF_OPS, k);
            !OtgMode(t) && t == r.(cntl2 := t.cntl2, muicCntl := t.muicCntl, manualSw := t.manualSw)
  {
    ApplyConcat(r, CHARGING_MODE_OPS, MUIC_AUTO_OPS, k);
    ChargingModeLeavesOtg(r);
    MuicAutoSpares(Apply(r, CHARGING_MODE_OPS, 1), k - 1);
  }

  lemma OtgSwitchedKeepsOtg(s: State, active: bool, otgMa: bv8, vbus: Option<bool>, io: OtgIo, vbusAfter: Option<bool>)
    requires OtgInvariant(s)
    ensures OtgInvariant(OtgSwitched(s, active, otgMa, vbus, io, vbusAfter).0)
  {
    if active == s.otg {
    } else if active {
      OtgOnSequence(s.regs, otgMa, Min(io.k, 5));
      if io.k < 5 {
        var regs := Apply(s.regs, OtgOnOps(otgMa), io.k);
        var back := if io.k == 1 && io.restored then regs.(muicCntl := s.regs.muicCntl) else regs;
        MuicAutoSpares(back, Min(io.undone, 2));
      }
    } else if io.k > 0 {
      OtgOffSequence(s.regs, Min(io.k, 3));
    }
  }

  lemma OtgOffOutcome(s: State, io: OtgIo)
    requires s.otg && io.k <= 3
    ensures OtgSwitched(s, false, 0, None, io, None)
            == (if io.k == 0 then s else s.(regs := Apply(s.regs, OTG_OFF_OPS, io.k), otg := false),
                if io.k == 3 then Ok else EIO)
  {
  }

  // The outcome of a request, said of the registers and flags alone.  Sourcing begins if
  // and only if it is asked for with the path not handed over, no supply on the
  // connector and all five updates going through; it ends if and only if that is asked
  // for and the mode could be left.  A refused request changes nothing.
  lemma OtgOutcome(s: State, active: bool, otgMa: bv8, vbus: Option<bool>, io: OtgIo, vbusAfter: Option<bool>)
    requires OtgInvariant(s)
    ensures var (t, ret) := OtgSwitched(s, active, otgMa, vbus, io, vbusAfter);
            && t == s.(regs := t.regs, otg := t.otg, resuming := t.resuming)
            && (t.otg <==> OtgMode(t.regs))
            && (!s.otg ==> (t.otg <==> active && !s.direct && vbus == Some(false) && io.k >= 5))
            && (s.otg ==> (t.otg <==> active || io.k == 0))
            && (active == s.otg ==> t == s && ret == Ok)
            && (!s.otg && active && (s.direct || vbus == Some(true)) ==> t == s && ret == EBUSY)
            && (!s.otg && active && !s.direct && vbus.None? ==> t == s && ret == EIO)
            && (!s.otg && active && !s.direct && vbus == Some(false) ==> ret == if io.k >= 5 then Ok else EIO)
            && (s.otg && !active ==> ret == if io.k >= 3 then Ok else EIO)
            && t.resuming == s.resuming + if s.otg && !active && io.k >= 3 && vbusAfter == Some(true) then 1 else 0
  {
    OtgSwitchedKeepsOtg(s, active, otgMa, vbus, io, vbusAfter);
  }

  // Bit by bit: Q4 is bit 3 of its register, and closing or opening it moves no other.
  lemma Q4IsOneBit(r: Regs)
    ensures Q4Closed(r) <==> r.cntl1 & 0x08 == 0x08
    ensures Upd(r, CLOSE_Q4) == r.(cntl1 := r.cntl1 | 0x08) && Upd(r, OPEN_Q4) == r.(cntl1 := r.cntl1 & 0xf7)
  {
  }

  // A complete switch to the USB path sets BC12OFF and the manual USB path; a complete
  // way back clears both and leaves the charging mode on; every other bit stays.
  lemma RoutedBits(r: Regs)
    ensures var t := Apply(r, MUIC_USB_OPS, 2);
            && t.muicCntl == r.muicCntl | 0x02
            && t.manualSw & 0xbf == 0x89 && t.manualSw & 0x40 == r.manualSw & 0x40
  {
    MuicUsbRoutes(r);
    assert Apply(r, MUIC_USB_OPS, 1) == Upd(r, MUIC_USB_OPS[0]);
    assert Apply(r, MUIC_USB_OPS, 2) == Upd(Apply(r, MUIC_USB_OPS, 1), MUIC_USB_OPS[1]);
    ManualByte(r.manualSw, MANUAL_USB);
  }

  lemma ManualByte(prev: bv8, val: bv8)
    requires val & 0x40 == 0
    ensures var v := (prev & !MANUAL_MASK) | (val & MANUAL_MASK);
            v & 0xbf == val && v & 0x40 == prev & 0x40
  {
  }

  lemma ReturnedBits(r: Regs)
    ensures var t := Apply(r, OTG_OFF_OPS, 3);
            && t.cntl2 & 0x0f == 0x05 && t.cntl2 & 0xf0 == r.cntl2 & 0xf0
            && t.muicCntl == r.muicCntl & 0xfd && t.manualSw == r.manualSw & 0x40
            && t == r.(cntl2 := t.cntl2, muicCntl := t.muicCntl, manualSw := t.manualSw)
  {
    ApplyConcat(r, CHARGING_MODE_OPS, MUIC_AUTO_OPS, 3);
    ChargingModeLeavesOtg(r);
    var m := Apply(r, CHARGING_MODE_OPS, 1);
    assert m == Upd(r, CHARGING_MODE_OPS[0]);
    ChargingByte(r.cntl2);
    AutoBits(m);
  }

  lemma ChargingByte(prev: bv8)
    ensures var v := (prev & !MODE_MASK) | (MODE_CHARGING & MODE_MASK);
            v & 0x0f == 0x05 && v & 0xf0 == prev & 0xf0
  {
  }

  lemma AutoBits(r: Regs)
    ensures Apply(r, MUIC_AUTO_OPS, 2) == r.(muicCntl := r.muicCntl & 0xfd, manualSw := r.manualSw & 0x40)
  {
    var t1 := Upd(r, MUIC_AUTO_OPS[0]);
    assert Apply(r, MUIC_AUTO_OPS, 1) == t1;
    assert Apply(r, MUIC_AUTO_OPS, 2) == Upd(t1, MUIC_AUTO_OPS[1]);
    AutoBytes(r.muicCntl, r.manualSw);
  }

  lemma AutoBytes(cntl: bv8, sw: bv8)
    ensures Masked(cntl, MUIC_AUTO_OPS[1]) == cntl & 0xfd && Masked(sw, MUIC_AUTO_OPS[0]) == sw & 0x40
  {
  }

  // The boost comes up in USB OTG mode at 5.1 V with the requested current limit,
  // whatever was there.
  lemma BoostSetting(r: Regs, otgMa: bv8)
    ensures var t := Apply(r, OtgOnOps(otgMa), 5);
            && t.bstcntl1 & 0x0f == 0x06 && t.bstcntl1 >> 6 == otgMa & 0x03
            && t.bstcntl1 & 0x30 == r.bstcntl1 & 0x30
            && t.cntl2 & 0x0f == 0x07 && t.cntl2 & 0xf0 == r.cntl2 & 0xf0
  {
    var m, ops := Apply(r, MUIC_USB_OPS, 2), BoostOps(otgMa);
    ApplyConcat(r, MUIC_USB_OPS, ops, 5);
    MuicUsbRoutes(r);
    var t1 := Upd(m, ops[0]);
    assert Apply(m, ops, 1) == t1;
    var t2 := Upd(t1, ops[1]);
    assert Apply(m, ops, 2) == t2;
    assert Apply(m, ops, 3) == Upd(t2, ops[2]);
    BoostByte(m.bstcntl1, otgMa);
    ModeByte(m.cntl2);
  }

  lemma BoostByte(prev: bv8, otgMa: bv8)
    ensures var v := (prev & !BST_OTG_MASK) | (BoostVal(otgMa) & BST_OTG_MASK);
            v & 0x0f == 0x06 && v >> 6 == otgMa & 0x03 && v & 0x30 == prev & 0x30
  {
  }

  lemma ModeByte(prev: bv8)
    ensures var v := (prev & !MODE_MASK) | (MODE_USB_OTG & MODE_MASK);
            v & 0x0f == 0x07 && v & 0xf0 == prev & 0xf0
  {
  }

  lemma PassedKeepsOtg(s: State, who: Passer, sense: Sense, k: nat)
    requires OtgInvariant(s)
    ensures OtgInvariant(Passed(s, who, sense, k))
  {
    if PassDue(s, who) {
      ConfiguredKeepsOtg(Begun(s, who), sense, k);
    }
  }

  lemma OpenQ4Opens(r: Regs)
    ensures !Q4Closed(Upd(r, OPEN_Q4)) && Upd(r, OPEN_Q4) == r.(cntl1 := Upd(r, OPEN_Q4).cntl1)
  {
  }

  // A takeover that succeeds leaves Q4 open and the path handed over; one that
  // fails on the write takes the flag back; giving the path back always does.
  lemma DirectChargeOutcome(s: State, active: bool, temp: Option<int>, q4Opened: bool,
                            vbus: Option<bool>, sense: Sense, k: nat)
    ensures var (t, ret) := DirectChargeSet(s, active, temp, q4Opened, vbus, sense, k);
            && (!active ==> !t.direct)
            && (active && ret == Ok ==> t.direct && !Q4Closed(t.regs))
            && (active && ret != Ok ==> t.direct == (s.direct && (temp.None? || temp.value < 100 || temp.value >= 420)))
  {
    OpenQ4Opens(s.regs);
  }

  // ---------- The driver object ----------

  class Charger {
    var regs: Regs
    var thermal: Thermal
    var direct: bool
    var otg: bool
    var typecMv: nat
    var typecMa: nat
    var lastOnline: bool
    // where the poll worker and the returning set_otg calls stand
    var poll: PollAt
    var resuming: nat

    function St(): State
      reads this
    {
      State(regs, thermal, direct, otg, typecMv, typecMa, lastOnline, poll, resuming)
    }

    // The flag and the boost mode agree, in this state and in every register
    // state passed through on the way.
    ghost predicate Valid()
      reads this
    {
      OtgAgrees(otg, regs)
    }

    // The end of sm5714_probe(): an idle supply is put to use at once.
    constructor Probe(found: Regs, vbus: Option<bool>, st: Option<(bool, bool, bool)>, sense: Sense)
      requires !OtgMode(found)
      ensures Valid() && !direct && !otg && lastOnline == (vbus == Some(true)) && poll.Resting? && resuming == 0
      ensures exists k: nat :: St() == Probed(found, vbus, st, sense, k)
    {
      regs, thermal, direct, otg := found, Normal, false, false;
      typecMv, typecMa, lastOnline := 0, 0, vbus == Some(true);
      poll, resuming := Resting, 0;
      new;
      ghost var n := 0;
      if lastOnline && StatusOf(St(), st) == Some(NOT_CHARGING) {
        var _, k := ConfigureCharging(sense);
        n := k;
        ConfiguredQ4(Found(found, vbus), sense, k);
      }
      assert St() == Probed(found, vbus, st, sense, n);
    }

    // The register write primitive.  Its precondition makes every caller prove
    // that no single write leaves the boost on with Q4 closed or the data lines
    // unrouted, even if the next write fails.
    method Write(reg: Reg, v: bv8) returns (ok: bool)
      requires SafeRegs(regs) && SafeRegs(Set(regs, reg, v))
      modifies this`regs
      ensures SafeRegs(regs)
      ensures regs == if ok then Set(old(regs), reg, v) else old(regs)
    {
      if * {
        regs := Set(regs, reg, v);
        ok := true;
      } else {
        ok := false;
      }
    }

    method Read(reg: Reg) returns (ok: bool, v: bv8)
      ensures ok ==> v == Get(regs, reg)
    {
      v := Get(regs, reg);
      ok := *;
    }

    // sm5714_chg_update_bits(): no write when nothing changes.
    method UpdateBits(u: Update) returns (ok: bool)
      requires SafeRegs(regs) && SafeRegs(Upd(regs, u))
      modifies this`regs
      ensures SafeRegs(regs)
      ensures regs == if ok then Upd(old(regs), u) else old(regs)
    {
      var v;
      ok, v := Read(u.reg);
      if !ok {
        return;
      }
      var updated := Masked(v, u);
      if updated == v {
        SetSame(regs, u.reg);
        return;
      }
      ok := Write(u.reg, updated);
    }

    // The MUIC updates read, then write unconditionally.
    method MuicUpdate(u: Update) returns (ok: bool)
      requires SafeRegs(regs) && SafeRegs(Upd(regs, u))
      modifies this`regs
      ensures SafeRegs(regs)
      ensures regs == if ok then Upd(old(regs), u) else old(regs)
    {
      var v;
      ok, v := Read(u.reg);
      if ok {
        ok := Write(u.reg, Masked(v, u));
      }
    }

    method WriteChg(reg: Reg, v: bv8) returns (ok: bool)
      requires SafeRegs(regs) && SafeRegs(Set(regs, reg, v))
      modifies this`regs
      ensures SafeRegs(regs)
      ensures regs == if ok then Upd(old(regs), Update(reg, 0xff, v)) else old(regs)
    {
      WholeByte(regs, reg, v);
      ok := Write(reg, v);
    }

    method ProgramLimits(inputMa: nat, fastMa: nat) returns (ok: bool, ghost k: nat)
      requires !OtgMode(regs) && 100 <= inputMa
      modifies this`regs
      ensures k <= 4 && (ok <==> k == 4) && regs == Apply(old(regs), LimitOps(inputMa, fastMa), k)
    {
      ghost var was, ops := regs, LimitOps(inputMa, fastMa);
      k := 0;
      ok := WriteChg(VBUSCNTL, InputCode(500) as bv8);
      if ok {
        k := 1;
        assert regs == Apply(was, ops, 1);
        ok := WriteChg(CHGCNTL2, FastCode(fastMa) as bv8);
      }
      if ok {
        k := 2;
        assert regs == Apply(was, ops, 2);
        ok := UpdateBits(CLOSE_Q4);
      }
      if ok {
        k := 3;
        assert regs == Apply(was, ops, 3);
        ok := WriteChg(VBUSCNTL, InputCode(inputMa) as bv8);
      }
      if ok {
        k := 4;
        assert regs == Apply(was, ops, 4);
      }
    }

    // The register half of sm5714_configure_charging().
    method ProgramState(usb: UsbType) returns (ok: bool, ghost k: nat)
      requires Valid() && !otg
      modifies this`regs
      ensures var ops := ConfigureOps(old(St()), usb, thermal);
              k <= |ops| && (ok <==> k == |ops|) && regs == Apply(old(regs), ops, k)
    {
      k := 0;
      if thermal == Stop {
        StopApplied(regs);
        ok := UpdateBits(OPEN_Q4);
        k := if ok then 1 else 0;
      } else {
        ok, k := ProgramLimits(InputMa(typecMv, typecMa, usb), FastMa(typecMv, typecMa, usb, thermal));
      }
    }

    method ConfigureCharging(sense: Sense) returns (ret: Ret, ghost k: nat)
      requires Valid()
      modifies this`regs, this`thermal
      ensures Valid() && (St(), ret) == Configured(old(St()), sense, k)
    {
      ghost var s := St();
      k := 0;
      if otg {
        return EBUSY, k;
      }
      var usb := UsbTypeOf(St(), sense);
      if usb.None? {
        return EIO, k;
      }
      if sense.temp.Some? {
        thermal := NextThermal(thermal, sense.temp.value);
      }
      var ok;
      ok, k := ProgramState(usb.value);
      ret := if ok then Ok else EIO;
      ConfiguredKeepsOtg(s, sense, k);
    }

    method SetPdContract(mv: nat, ma: nat, vbus: Option<bool>, sense: Sense) returns (ret: Ret, ghost k: nat)
      requires Valid()
      modifies this`regs, this`thermal, this`typecMv, this`typecMa
      ensures Valid() && (St(), ret) == PdContractSet(old(St()), mv, ma, vbus, sense, k)
    {
      k := 0;
      if (mv != 0 && (mv < 5000 || mv > 9000)) || ma > 3000 {
        return ERANGE, k;
      }
      typecMv, typecMa := mv, ma;
      ret := Ok;
      if mv != 0 && ma != 0 && Online(St(), vbus) == Some(true) && !direct {
        ret, k := ConfigureCharging(sense);
      }
    }

    method OpenPath() returns (ok: bool)
      requires Valid()
      modifies this`regs
      ensures Valid() && regs == if ok then Upd(old(regs), OPEN_Q4) else old(regs)
      ensures ok ==> !Q4Closed(regs)
    {
      OpenQ4Opens(regs);
      ok := UpdateBits(OPEN_Q4);
    }

    method TakePath(temp: Option<int>) returns (ret: Ret, ghost q4Opened: bool)
      requires Valid()
      modifies this`regs, this`direct
      ensures Valid() && (St(), ret) == PathTaken(old(St()), temp, q4Opened)
    {
      q4Opened := false;
      if temp.None? {
        return EIO, q4Opened;
      }
      if temp.value < 100 || temp.value >= 420 {
        return ERANGE, q4Opened;
      }
      direct := true;
      var ok := OpenPath();
      q4Opened := ok;
      if !ok {
        direct := false;
      }
      ret := if ok then Ok else EIO;
    }

    method ReturnPath(vbus: Option<bool>, sense: Sense) returns (ret: Ret, ghost k: nat)
      requires Valid()
      modifies this`regs, this`thermal, this`direct
      ensures Valid() && (St(), ret) == PathReturned(old(St()), vbus, sense, k)
    {
      ret, k := Ok, 0;
      direct := false;
      if Online(St(), vbus) == Some(true) {
        ret, k := ConfigureCharging(sense);
      }
    }

    method SetDirectCharge(active: bool, temp: Option<int>, vbus: Option<bool>, sense: Sense)
      returns (ret: Ret, ghost q4Opened: bool, ghost k: nat)
      requires Valid()
      modifies this`regs, this`thermal, this`direct
      ensures Valid() && (St(), ret) == DirectChargeSet(old(St()), active, temp, q4Opened, vbus, sense, k)
    {
      q4Opened, k := false, 0;
      if active {
        ret, q4Opened := TakePath(temp);
      } else {
        ret, k := ReturnPath(vbus, sense);
      }
    }

    // sm5714_muic_set_otg_path(true), with its own repair when the switch fails
    method RouteToUsb() returns (ok: bool, ghost k: nat, ghost restored: bool)
      requires !OtgMode(regs)
      modifies this`regs
      ensures k <= 2 && (ok <==> k == 2)
      ensures regs == if k == 1 && restored then Apply(old(regs), MUIC_USB_OPS, 1).(muicCntl := old(regs.muicCntl))
                      else Apply(old(regs), MUIC_USB_OPS, k)
    {
      k, restored := 0, false;
      ghost var was := regs;
      var cntl, sw;
      ok, cntl := Read(MUIC_CNTL);
      if !ok {
        return;
      }
      ok := Write(MUIC_CNTL, Masked(cntl, MUIC_USB_OPS[0]));
      if !ok {
        return;
      }
      k := 1;
      assert regs == Apply(was, MUIC_USB_OPS, 1);
      ok, sw := Read(MANUAL_SW);
      if ok {
        ok := Write(MANUAL_SW, Masked(sw, MUIC_USB_OPS[1]));
        if ok {
          k := 2;
          assert regs == Apply(was, MUIC_USB_OPS, 2);
          return;
        }
      }
      var put := Write(MUIC_CNTL, cntl);
      restored := put;
    }

    // sm5714_muic_set_otg_path(false)
    method RouteAuto() returns (ok: bool, ghost k: nat)
      requires !OtgMode(regs)
      modifies this`regs
      ensures k <= 2 && (ok <==> k == 2) && regs == Apply(old(regs), MUIC_AUTO_OPS, k) && !OtgMode(regs)
    {
      ghost var was := regs;
      MuicAutoSpares(was, 1);
      MuicAutoSpares(was, 2);
      k := 0;
      ok := MuicUpdate(MUIC_AUTO_OPS[0]);
      if ok {
        k := 1;
        assert regs == Apply(was, MUIC_AUTO_OPS, 1);
        ok := MuicUpdate(MUIC_AUTO_OPS[1]);
      }
      if ok {
        k := 2;
        assert regs == Apply(was, MUIC_AUTO_OPS, 2);
      }
    }

    // Q4, boost setting and boost mode, once the data lines are routed
    method EnterBoost(otgMa: bv8) returns (ok: bool, ghost k: nat)
      requires !OtgMode(regs) && RoutedToUsb(regs)
      modifies this`regs
      ensures k <= 3 && (ok <==> k == 3) && regs == Apply(old(regs), BoostOps(otgMa), k)
    {
      ghost var was := regs;
      k := 0;
      BoostSequence(was, otgMa, 1);
      BoostSequence(was, otgMa, 2);
      BoostSequence(was, otgMa, 3);
      ok := UpdateBits(OPEN_Q4);
      if ok {
        k := 1;
        assert regs == Apply(was, BoostOps(otgMa), 1);
        ok := UpdateBits(BoostOps(otgMa)[1]);
      }
      if ok {
        k := 2;
        assert regs == Apply(was, BoostOps(otgMa), 2);
        ok := UpdateBits(BoostOps(otgMa)[2]);
      }
      if ok {
        k := 3;
        assert regs == Apply(was, BoostOps(otgMa), 3);
      }
    }

    // sm5714_battery_set_otg() as far as the global lock reaches; `resuming` goes up
    // if it is to resume charging after that.
    method SwitchOtg(active: bool, otgMa: bv8, vbus: Option<bool>, vbusAfter: Option<bool>)
      returns (ret: Ret, ghost io: OtgIo)
      requires Valid()
      modifies this`regs, this`otg, this`resuming
      ensures Valid()
      ensures (St(), ret) == OtgSwitched(old(St()), active, otgMa, vbus, io, vbusAfter)
      ensures !old(otg) && otg ==> active && !direct && vbus == Some(false) && ret == Ok
      ensures !old(otg) && active && (direct || vbus == Some(true)) ==> St() == old(St()) && ret == EBUSY
      ensures resuming == old(resuming) + if old(otg) && !active && ret == Ok && vbusAfter == Some(true) then 1 else 0
    {
      io := OtgIo(0, false, 0);
      if active == otg {
        return Ok, io;
      }
      if active {
        if direct {
          return EBUSY, io;
        }
        if vbus.None? {
          return EIO, io;
        }
        if vbus.value {
          return EBUSY, io;
        }
        ret, io := TurnOtgOn(otgMa);
      } else {
        ret, io := TurnOtgOff();
        if ret == Ok && vbusAfter == Some(true) {
          resuming := resuming + 1;
        }
      }
    }

    // sm5714_battery_set_otg(), with nothing falling into the gap between its locks
    method SetOtg(active: bool, otgMa: bv8, vbus: Option<bool>, vbusAfter: Option<bool>, sense: Sense)
      returns (ret: Ret, ghost io: OtgIo, ghost k: nat)
      requires Valid() && resuming == 0
      modifies this`regs, this`thermal, this`otg, this`poll, this`resuming
      ensures Valid() && resuming == 0
      ensures var (switched, first) := OtgSwitched(old(St()), active, otgMa, vbus, io, vbusAfter);
              St() == Passed(switched, OtgReturn, sense, k) && (switched.resuming == 0 ==> ret == first)
    {
      k := 0;
      ret, io := SwitchOtg(active, otgMa, vbus, vbusAfter);
      if resuming > 0 {
        ret, k := Pass(OtgReturn, sense);
      }
    }

    // A configure pass outside the global lock.
    method Pass(who: Passer, sense: Sense) returns (ret: Ret, ghost k: nat)
      requires Valid() && PassDue(St(), who)
      modifies this`regs, this`thermal, this`poll, this`resuming
      ensures Valid() && St() == Passed(old(St()), who, sense, k)
    {
      match who {
        case PollWorker =>
          poll := if poll.HeatDue? then Checking(Some(true), None, true) else CableDue(Some(true));
        case OtgReturn =>
          resuming := resuming - 1;
      }
      ret, k := ConfigureCharging(sense);
    }

    // The OTG sequence up to its first failure, MUIC repair included.
    method StartBoost(otgMa: bv8) returns (ok: bool, ghost k: nat, ghost restored: bool)
      requires !OtgMode(regs)
      modifies this`regs
      ensures k <= 5 && (ok <==> k == 5) && (!ok ==> !OtgMode(regs))
      ensures var done := Apply(old(regs), OtgOnOps(otgMa), k);
              regs == if k == 1 && restored then done.(muicCntl := old(regs.muicCntl)) else done
    {
      ghost var was := regs;
      ok, k, restored := RouteToUsb();
      ApplyConcat(was, MUIC_USB_OPS, BoostOps(otgMa), k);
      OtgOnSequence(was, otgMa, k);
      if ok {
        ghost var n;
        MuicUsbRoutes(was);
        ok, n := EnterBoost(otgMa);
        k := 2 + n;
        ApplyConcat(was, MUIC_USB_OPS, BoostOps(otgMa), k);
        OtgOnSequence(was, otgMa, k);
      }
    }

    method TurnOtgOn(otgMa: bv8) returns (ret: Ret, ghost io: OtgIo)
      requires Valid() && !otg && !direct
      modifies this`regs, this`otg
      ensures Valid()
      ensures (St(), ret) == OtgSwitched(old(St()), true, otgMa, Some(false), io, None)
    {
      ghost var s := St();
      ghost var k, restored, undone := 0, false, 0;
      var ok;
      ok, k, restored := StartBoost(otgMa);
      if ok {
        otg := true;
        ret := Ok;
      } else {
        var _, n := RouteAuto();
        undone := n;
        ret := EIO;
      }
      io := OtgIo(k, restored, undone);
      OtgSwitchedKeepsOtg(s, true, otgMa, Some(false), io, None);
    }

    method LeaveBoost() returns (ok: bool)
      requires SafeRegs(regs)
      modifies this`regs
      ensures SafeRegs(regs) && (ok ==> !OtgMode(regs))
      ensures regs == if ok then Apply(old(regs), CHARGING_MODE_OPS, 1) else old(regs)
    {
      ChargingModeLeavesOtg(regs);
      assert Apply(regs, CHARGING_MODE_OPS, 1) == Upd(regs, CHARGING_MODE_OPS[0]);
      ok := UpdateBits(CHARGING_MODE_OPS[0]);
    }

    method TurnOtgOff() returns (ret: Ret, ghost io: OtgIo)
      requires Valid() && otg
      modifies this`regs, this`otg
      ensures Valid() && (ret == Ok <==> io.k >= 3) && (ret != Ok ==> ret == EIO)
      ensures (St(), ret) == OtgSwitched(old(St()), false, 0, None, io, None)
    {
      ghost var s := St();
      io := OtgIo(0, false, 0);
      OtgOffOutcome(s, io);
      var ok := LeaveBoost();
      if !ok {
        return EIO, io;
      }
      otg := false;
      ghost var n;
      ok, n := RouteAuto();
      io := OtgIo(1 + n, false, 0);
      ApplyConcat(s.regs, CHARGING_MODE_OPS, MUIC_AUTO_OPS, 1 + n);
      OtgOffOutcome(s, io);
      ret := if ok then Ok else EIO;
    }

    // The stages of sm5714_poll_work(), between which the others may run.
    method Look(st: Option<(bool, bool, bool)>, vbus: Option<bool>, temp: Option<int>)
      requires Valid() && poll.Resting?
      modifies this`thermal, this`poll
      ensures Valid() && St() == Looked(old(St()), st, vbus, temp)
      ensures poll.HeatDue? <==> thermal != old(thermal)
    {
      var status := StatusOf(St(), st);
      var online := Online(St(), vbus);
      var before := thermal;
      if online == Some(true) && temp.Some? {
        thermal := NextThermal(thermal, temp.value);
      }
      poll := if online == Some(true) && thermal != before then HeatDue else Checking(online, status, false);
    }

    method Check(statusAfter: Option<(bool, bool, bool)>) returns (ghost read: bool)
      requires Valid() && poll.Checking?
      modifies this`poll
      ensures Valid() && St() == Checked(old(St()), statusAfter, read)
      ensures poll.RecoverDue? ==> !direct && !Q4Closed(regs) && thermal != Stop
    {
      read := false;
      var online := poll.online;
      var status := if poll.again then StatusOf(St(), statusAfter) else poll.status;
      if online == Some(true) && !direct && status == Some(NOT_CHARGING) && thermal != Stop {
        var ok, cntl1 := Read(CNTL1);
        read := ok;
        if ok && cntl1 & ENQ4FET == 0 {
          poll := RecoverDue;
          return;
        }
      }
      poll := CableDue(online);
    }

    method NoteCable() returns (ghost q4Opened: bool)
      requires Valid() && poll.CableDue?
      modifies this`regs, this`lastOnline, this`poll
      ensures Valid() && St() == CableNoted(old(St()), q4Opened)
    {
      q4Opened := false;
      var online := poll.online;
      if online.Some? && online.value != lastOnline {
        lastOnline := online.value;
        if !online.value {
          q4Opened := OpenPath();
        }
      }
      poll := Resting;
    }

    method ReactToHeat(st: Option<(bool, bool, bool)>, vbus: Option<bool>, temp: Option<int>, changed: Sense)
      returns (ghost k: nat)
      requires Valid() && poll.Resting?
      modifies this`regs, this`thermal, this`poll, this`resuming
      ensures Valid() && poll.Checking? && St() == Passed(Looked(old(St()), st, vbus, temp), PollWorker, changed, k)
    {
      k := 0;
      Look(st, vbus, temp);
      if poll.HeatDue? {
        var _, n := Pass(PollWorker, changed);
        k := n;
      }
    }

    method RecoverPath(statusAfter: Option<(bool, bool, bool)>, recover: Sense) returns (ghost read: bool, ghost k: nat)
      requires Valid() && poll.Checking?
      modifies this`regs, this`thermal, this`poll, this`resuming
      ensures Valid() && poll.CableDue?
      ensures St() == Passed(Checked(old(St()), statusAfter, read), PollWorker, recover, k)
    {
      k := 0;
      read := Check(statusAfter);
      if poll.RecoverDue? {
        var _, n := Pass(PollWorker, recover);
        k := n;
      }
    }

    // A whole poll.  The ghost result is p with the actual fate of its transfers.
    method PollWork(p: PollIn) returns (ghost io: PollIn)
      requires Valid() && poll.Resting?
      modifies this`regs, this`thermal, this`lastOnline, this`poll, this`resuming
      ensures io == p.(changedK := io.changedK, cntl1Read := io.cntl1Read,
                       recoverK := io.recoverK, q4Opened := io.q4Opened)
      ensures Valid() && poll.Resting? && St() == Polled(old(St()), io)
    {
      ghost var k := ReactToHeat(p.status, p.vbus, p.temp, p.changed);
      ghost var read, r := RecoverPath(p.statusAfter, p.recover);
      ghost var q := NoteCable();
      io := p.(changedK := k, cntl1Read := read, recoverK := r, q4Opened := q);
    }
  }

  // ---------- Runs ----------

  datatype Event =
    | PdContract(mv: nat, ma: nat, vbus: Option<bool>, sense: Sense, k: nat)
    | DirectCharge(active: bool, temp: Option<int>, q4Opened: bool, vbus: Option<bool>, sense: Sense, k: nat)
    | Otg(active: bool, otgMa: bv8, vbus: Option<bool>, otgIo: OtgIo, vbusAfter: Option<bool>)
    | Look(st: Option<(bool, bool, bool)>, vbus: Option<bool>, reading: Option<int>)
    | Check(st: Option<(bool, bool, bool)>, cntl1Read: bool)
    | Cable(q4Opened: bool)
    | Pass(who: Passer, sense: Sense, k: nat)

  function Step(s: State, e: Event): State {
    match e
    case PdContract(mv, ma, vbus, sense, k) => PdContractSet(s, mv, ma, vbus, sense, k).0
    case DirectCharge(active, temp, q4Opened, vbus, sense, k) =>
      DirectChargeSet(s, active, temp, q4Opened, vbus, sense, k).0
    case Otg(active, otgMa, vbus, io, vbusAfter) => OtgSwitched(s, active, otgMa, vbus, io, vbusAfter).0
    case Look(st, vbus, reading) => Looked(s, st, vbus, reading)
    case Check(st, cntl1Read) => Checked(s, st, cntl1Read)
    case Cable(q4Opened) => CableNoted(s, q4Opened)
    case Pass(who, sense, k) => Passed(s, who, sense, k)
  }

  function After(s: State, es: seq<Event>): State {
    if es == [] then s else Step(After(s, es[..|es| - 1]), es[|es| - 1])
  }

  lemma StepKeepsOtg(s: State, e: Event)
    requires OtgInvariant(s)
    ensures OtgInvariant(Step(s, e))
  {
    match e
    case PdContract(mv, ma, vbus, sense, k) =>
      ConfiguredKeepsOtg(s.(typecMv := mv, typecMa := ma), sense, k);
    case DirectCharge(active, temp, q4Opened, vbus, sense, k) =>
      ConfiguredKeepsOtg(s.(direct := false), sense, k);
      OpenQ4Opens(s.regs);
    case Otg(active, otgMa, vbus, io, vbusAfter) =>
      OtgSwitchedKeepsOtg(s, active, otgMa, vbus, io, vbusAfter);
    case Pass(who, sense, k) =>
      PassedKeepsOtg(s, who, sense, k);
    case _ =>
      DecisionsKeepOtg(s, e);
  }

  lemma DecisionsKeepOtg(s: State, e: Event)
    requires OtgInvariant(s) && (e.Look? || e.Check? || e.Cable?)
    ensures OtgInvariant(Step(s, e))
  {
    OpeningKeepsOtg(s.otg, s.regs);
    DecisionsOnlyOpen(s, e);
  }

  lemma OpeningKeepsOtg(otg: bool, r: Regs)
    requires OtgAgrees(otg, r)
    ensures OtgAgrees(otg, Upd(r, OPEN_Q4))
  {
    OpenQ4Opens(r);
  }

  // Over all steps, sourcing begins only with a request that read no supply while the
  // path was not handed over, and with its last update; and it ends only with a request
  // to end it.
  lemma SourcingChangesExactly(s: State, e: Event)
    requires OtgInvariant(s)
    ensures !s.otg && Step(s, e).otg <==>
              !s.otg && e.Otg? && e.active && !s.direct && e.vbus == Some(false) && e.otgIo.k >= 5
    ensures s.otg && !Step(s, e).otg <==> s.otg && e.Otg? && !e.active && e.otgIo.k >= 1
  {
    if e.Otg? {
      OtgOutcome(s, e.active, e.otgMa, e.vbus, e.otgIo, e.vbusAfter);
    }
  }

  // In every state reachable from outside OTG mode, whatever transfers fail, the
  // flag says exactly whether the boost drives the connector, and while it does
  // Q4 is open, BC1.2 is off and the data lines are on the USB path.
  lemma {:induction false} OtgHoldsInEveryRun(s: State, es: seq<Event>)
    requires !s.otg && !OtgMode(s.regs)
    ensures var t := After(s, es);
            && (t.otg <==> OtgMode(t.regs))
            && (t.otg ==> !Q4Closed(t.regs) && RoutedToUsb(t.regs))
  {
    if es != [] {
      OtgHoldsInEveryRun(s, es[..|es| - 1]);
      StepKeepsOtg(After(s, es[..|es| - 1]), es[|es| - 1]);
    }
  }

  // ---------- Which steps close Q4 ----------

  // What one configure pass does to Q4 and to the input limit.
  lemma ConfiguredQ4(s: State, sense: Sense, k: nat)
    ensures var t := Configured(s, sense, k).0;
            var reached := !s.otg && UsbTypeOf(s, sense).Some?;
            && t == s.(regs := t.regs, thermal := if reached then ThermalAfter(s, sense.temp) else s.thermal)
            && (Q4Closed(t.regs) <==>
                  if reached && t.thermal == Stop then Q4Closed(s.regs) && k == 0
                  else Q4Closed(s.regs) || (reached && k >= 3))
            && (reached && t.thermal != Stop && 1 <= k <= 3 ==> t.regs.vbuscntl == InputCode(500) as bv8)
  {
    if !s.otg && UsbTypeOf(s, sense).Some? {
      var thermal := ThermalAfter(s, sense.temp);
      if thermal == Stop {
        OpenQ4Opens(s.regs);
        assert Apply(s.regs, [OPEN_Q4], 1) == Upd(s.regs, OPEN_Q4);
      } else {
        LimitSequence(s.regs, InputMa(s.typecMv, s.typecMa, UsbTypeOf(s, sense).value),
                      FastMa(s.typecMv, s.typecMa, UsbTypeOf(s, sense).value, thermal), Min(k, 4));
      }
    }
  }

  // Its result: refused while sourcing, an error if the source or a transfer failed, and
  // done after the one update of a thermal stop or the four of the limits.
  lemma ConfiguredResult(s: State, sense: Sense, k: nat)
    ensures var ret := Configured(s, sense, k).1;
            && (ret == EBUSY <==> s.otg)
            && (ret == Ok <==> !s.otg && UsbTypeOf(s, sense).Some? && k >= if ThermalAfter(s, sense.temp) == Stop then 1 else 4)
            && ret != ERANGE
  {
  }

  lemma LimitSequence(r: Regs, inputMa: nat, fastMa: nat, k: nat)
    requires 100 <= inputMa && k <= 4
    ensures var t := Apply(r, LimitOps(inputMa, fastMa), k);
            && (Q4Closed(t) <==> Q4Closed(r) || k >= 3)
            && (1 <= k <= 3 ==> t.vbuscntl == InputCode(500) as bv8)
            && (k == 4 ==> t.vbuscntl == InputCode(inputMa) as bv8 && t.chgcntl2 == FastCode(fastMa) as bv8)
  {
    var ops := LimitOps(inputMa, fastMa);
    WholeByte(r, VBUSCNTL, ops[0].val);
    var t1 := Upd(r, ops[0]);
    assert Apply(r, ops, 1) == t1;
    WholeByte(t1, CHGCNTL2, ops[1].val);
    var t2 := Upd(t1, ops[1]);
    assert Apply(r, ops, 2) == t2;
    var t3 := Upd(t2, ops[2]);
    assert Apply(r, ops, 3) == t3;
    WholeByte(t3, VBUSCNTL, ops[3].val);
    assert Apply(r, ops, 4) == Upd(t3, ops[3]);
  }

  // A configure pass that gets as far as closing Q4.
  predicate Closes(s: State, sense: Sense, k: nat) {
    !s.otg && UsbTypeOf(s, sense).Some? && ThermalAfter(s, sense.temp) != Stop && k >= 3
  }

  // The steps that make such a pass: a new contract and a path given back, each
  // with a supply and the path in the SM5714's hands, and the two outside the
  // global lock, which do not ask whose it is.
  predicate ClosesQ4(s: State, e: Event) {
    match e
    case PdContract(mv, ma, vbus, sense, k) =>
      && 5000 <= mv <= 9000 && 0 < ma <= 3000
      && !s.direct && Online(s, vbus) == Some(true) && Closes(s.(typecMv := mv, typecMa := ma), sense, k)
    case DirectCharge(active, _, _, vbus, sense, k) =>
      !active && Online(s, vbus) == Some(true) && Closes(s, sense, k)
    case Pass(who, sense, k) => PassDue(s, who) && Closes(s, sense, k)
    case _ => false
  }

  lemma OtgNeverCloses(s: State, e: Event)
    requires e.Otg? && !Q4Closed(s.regs)
    ensures !Q4Closed(Step(s, e).regs)
  {
    if s.otg && !e.active && e.otgIo.k > 0 {
      OtgOffSequence(s.regs, Min(e.otgIo.k, 3));
    } else if !s.otg && e.active {
      var n := Min(e.otgIo.k, 5);
      OtgOnNeverCloses(s.regs, e.otgMa, n);
      var regs := Apply(s.regs, OtgOnOps(e.otgMa), n);
      var back := if e.otgIo.k == 1 && e.otgIo.restored then regs.(muicCntl := s.regs.muicCntl) else regs;
      MuicAutoSpares(back, Min(e.otgIo.undone, 2));
    }
  }

  lemma OtgOnNeverCloses(r: Regs, otgMa: bv8, k: nat)
    requires k <= 5 && !Q4Closed(r)
    ensures !Q4Closed(Apply(r, OtgOnOps(otgMa), k))
  {
    ApplyConcat(r, MUIC_USB_OPS, BoostOps(otgMa), k);
    MuicUsbRoutes(r);
    if k > 2 {
      BoostSequence(Apply(r, MUIC_USB_OPS, 2), otgMa, k - 2);
    }
  }

  lemma PassedQ4(s: State, who: Passer, sense: Sense, k: nat)
    requires PassDue(s, who)
    ensures var t := Passed(s, who, sense, k);
            && t == Begun(s, who).(regs := t.regs, thermal := t.thermal)
            && (!Q4Closed(s.regs) ==>
                  && (Q4Closed(t.regs) <==> Closes(s, sense, k))
                  && (Closes(s, sense, k) ==> t.thermal == ThermalAfter(s, sense.temp)))
  {
    var b := Begun(s, who);
    ConfiguredQ4(b, sense, k);
    assert UsbTypeOf(b, sense) == UsbTypeOf(s, sense);
  }

  lemma ContractClosesExactly(s: State, e: Event)
    requires e.PdContract? && !Q4Closed(s.regs)
    ensures Q4Closed(Step(s, e).regs) <==> ClosesQ4(s, e)
    ensures Q4Closed(Step(s, e).regs) ==> Step(s, e).thermal != Stop
  {
    ConfiguredQ4(s.(typecMv := e.mv, typecMa := e.ma), e.sense, e.k);
  }

  lemma HandoverClosesExactly(s: State, e: Event)
    requires e.DirectCharge? && !Q4Closed(s.regs)
    ensures Q4Closed(Step(s, e).regs) <==> ClosesQ4(s, e)
    ensures Q4Closed(Step(s, e).regs) ==> Step(s, e).thermal != Stop
  {
    if e.active {
      OpenQ4Opens(s.regs);
    } else {
      ConfiguredQ4(s.(direct := false), e.sense, e.k);
    }
  }

  lemma DecisionsNeverClose(s: State, e: Event)
    requires (e.Look? || e.Check? || e.Cable?) && !Q4Closed(s.regs)
    ensures !Q4Closed(Step(s, e).regs)
  {
    DecisionsOnlyOpen(s, e);
    OpenQ4Opens(s.regs);
  }

  lemma DecisionsOnlyOpen(s: State, e: Event)
    requires e.Look? || e.Check? || e.Cable?
    ensures Step(s, e).otg == s.otg && (Step(s, e).regs == s.regs || Step(s, e).regs == Upd(s.regs, OPEN_Q4))
  {
  }

  // From any state with Q4 open, a step closes it if and only if it is one of those;
  // and none does and leaves the thermal state at Stop.
  lemma Q4ClosesExactly(s: State, e: Event)
    requires !Q4Closed(s.regs)
    ensures Q4Closed(Step(s, e).regs) <==> ClosesQ4(s, e)
    ensures Q4Closed(Step(s, e).regs) ==> Step(s, e).thermal != Stop
  {
    match e
    case PdContract(_, _, _, _, _) => ContractClosesExactly(s, e);
    case DirectCharge(_, _, _, _, _, _) => HandoverClosesExactly(s, e);
    case Otg(_, _, _, _, _) => OtgNeverCloses(s, e);
    case Pass(who, sense, k) =>
      if PassDue(s, who) {
        PassedQ4(s, who, sense, k);
      }
    case _ => DecisionsNeverClose(s, e);
  }

  // ---------- Q4 behind the direct charger ----------

  ghost predicate PathHeld(s: State) {
    s.direct ==> !Q4Closed(s.regs)
  }

  // The way past the arbitration: a pass outside the global lock, by the poll worker
  // or by a set_otg on its way out, that gets the charger lock while the path is
  // handed over.
  predicate ClosesBehindPump(s: State, e: Event) {
    s.direct && e.Pass? && ClosesQ4(s, e)
  }

  lemma OnlyTheHandoverMovesThePath(s: State, e: Event)
    requires !e.DirectCharge?
    ensures Step(s, e).direct == s.direct
  {
  }

  lemma HandoverKeepsPath(s: State, e: Event)
    requires e.DirectCharge? && PathHeld(s)
    ensures PathHeld(Step(s, e))
  {
    if e.active {
      OpenQ4Opens(s.regs);
    } else {
      ConfiguredQ4(s.(direct := false), e.sense, e.k);
    }
  }

  // A step takes the path away from the direct charger exactly then; every other
  // pass, poll, PD update, handover or OTG request leaves Q4 open behind it.
  lemma PathLostExactly(s: State, e: Event)
    requires PathHeld(s)
    ensures PathHeld(Step(s, e)) <==> !ClosesBehindPump(s, e)
  {
    if e.DirectCharge? {
      HandoverKeepsPath(s, e);
    } else {
      OnlyTheHandoverMovesThePath(s, e);
      if s.direct {
        Q4ClosesExactly(s, e);
      }
    }
  }

  // Over any run without such a pass Q4 stays open behind the direct charger.
  lemma {:induction false} PathHeldInEveryRun(s: State, es: seq<Event>)
    requires PathHeld(s)
    requires forall i :: 0 <= i < |es| ==> !ClosesBehindPump(After(s, es[..i]), es[i])
    ensures PathHeld(After(s, es))
  {
    if es != [] {
      var n := |es| - 1;
      forall i | 0 <= i < n
        ensures !ClosesBehindPump(After(s, es[..n][..i]), es[..n][i])
      {
        assert es[..n][..i] == es[..i];
      }
      PathHeldInEveryRun(s, es[..n]);
      PathLostExactly(After(s, es[..n]), es[n]);
    }
  }

  // And it stays open at every point of a run if and only if the run has no such pass.
  lemma PathHeldThroughoutExactly(s: State, es: seq<Event>)
    requires PathHeld(s)
    ensures (forall i :: 0 <= i <= |es| ==> PathHeld(After(s, es[..i])))
            <==> (forall i :: 0 <= i < |es| ==> !ClosesBehindPump(After(s, es[..i]), es[i]))
  {
    if forall i :: 0 <= i <= |es| ==> PathHeld(After(s, es[..i])) {
      forall i | 0 <= i < |es|
        ensures !ClosesBehindPump(After(s, es[..i]), es[i])
      {
        assert es[..i + 1][..i] == es[..i];
        assert PathHeld(After(s, es[..i])) && PathHeld(After(s, es[..i + 1]));
        PathLostExactly(After(s, es[..i]), es[i]);
      }
    }
    if forall i :: 0 <= i < |es| ==> !ClosesBehindPump(After(s, es[..i]), es[i]) {
      forall i | 0 <= i <= |es|
        ensures PathHeld(After(s, es[..i]))
      {
        forall j | 0 <= j < i
          ensures !ClosesBehindPump(After(s, es[..i][..j]), es[..i][j])
        {
          assert es[..i][..j] == es[..j];
        }
        PathHeldInEveryRun(s, es[..i]);
      }
    }
  }

  // ---------- How such a pass comes to be due ----------

  predicate Exposed(s: State) {
    s.direct && (PassDue(s, PollWorker) || PassDue(s, OtgReturn))
  }

  // The poll sees the thermal state move while the path is handed over; sourcing ends
  // with a supply attached while it is; or it is handed over with a pass on its way.
  predicate Exposes(s: State, e: Event) {
    match e
    case Look(_, vbus, reading) => s.direct && s.poll.Resting? && HeatMoved(s, vbus, reading)
    case Otg(active, _, _, io, vbusAfter) => s.direct && s.otg && !active && io.k >= 3 && vbusAfter == Some(true)
    case DirectCharge(active, temp, q4Opened, _, _, _) =>
      && active && temp.Some? && 100 <= temp.value < 420 && q4Opened
      && (PassDue(s, PollWorker) || PassDue(s, OtgReturn))
    case _ => false
  }

  // Those three, each visible when it happens, are all there is: they are exactly the
  // steps after which a pass is due on a path that has been handed over.
  lemma ExposedExactly(s: State, e: Event)
    requires !Exposed(s)
    ensures Exposed(Step(s, e)) <==> Exposes(s, e)
  {
    match e
    case PdContract(mv, ma, vbus, sense, k) =>
      ConfiguredQ4(s.(typecMv := mv, typecMa := ma), sense, k);
    case DirectCharge(active, temp, q4Opened, vbus, sense, k) =>
      ConfiguredQ4(s.(direct := false), sense, k);
    case Pass(who, sense, k) =>
      OnlyTheHandoverMovesThePath(s, e);
    case _ =>
  }

  lemma {:induction false} UnexposedPathIsHeld(s: State, es: seq<Event>)
    requires PathHeld(s) && !Exposed(s)
    requires forall i :: 0 <= i < |es| ==> !Exposes(After(s, es[..i]), es[i])
    ensures PathHeld(After(s, es)) && !Exposed(After(s, es))
  {
    if es != [] {
      var n := |es| - 1;
      forall i | 0 <= i < n
        ensures !Exposes(After(s, es[..n][..i]), es[..n][i])
      {
        assert es[..n][..i] == es[..i];
      }
      UnexposedPathIsHeld(s, es[..n]);
      ExposedExactly(After(s, es[..n]), es[n]);
      PathLostExactly(After(s, es[..n]), es[n]);
    }
  }

  // All three happen.  A battery that reaches 46.0 C during direct charging, with
  // every transfer succeeding, has Q4 closed by the very next poll.
  lemma WarmPackClosesQ4(s: State, st: Option<(bool, bool, bool)>, temp: int, sense: Sense)
    requires PathHeld(s) && s.direct && !s.otg && s.poll.Resting? && s.thermal == Normal && 460 <= temp < 500
    requires UsbTypeOf(s, sense).Some? && sense.temp == Some(temp)
    ensures var seen := Step(s, Look(st, Some(true), Some(temp)));
            PathHeld(seen) && !PathHeld(Step(seen, Pass(PollWorker, sense, 4)))
  {
    var seen := Step(s, Look(st, Some(true), Some(temp)));
    assert seen == s.(thermal := Reduced, poll := HeatDue);
    PathLostExactly(seen, Pass(PollWorker, sense, 4));
  }

  // The likelier case needs no hot battery: the handover looks at the temperature
  // but not at the thermal state, so one taken below 42.0 C while the state still
  // says Reduced is lost to the first poll that sees it return to Normal.
  lemma TakeoverWhileReducedIsLost(
      s: State, temp: int, st: Option<(bool, bool, bool)>, reading: int, sense: Sense, k: nat)
    requires PathHeld(s) && !s.otg && s.poll.Resting? && s.thermal == Reduced && 100 <= temp < 420 && reading <= 420
    requires UsbTypeOf(s, sense).Some? && (sense.temp.Some? ==> sense.temp.value < 500) && k >= 3
    ensures var taken := Step(s, DirectCharge(true, Some(temp), true, None, sense, 0));
            var seen := Step(taken, Look(st, Some(true), Some(reading)));
            taken.direct && PathHeld(taken) && PathHeld(seen) && !PathHeld(Step(seen, Pass(PollWorker, sense, k)))
  {
    var take := DirectCharge(true, Some(temp), true, None, sense, 0);
    var taken := Step(s, take);
    PathLostExactly(s, take);
    var seen := Step(taken, Look(st, Some(true), Some(reading)));
    assert seen == taken.(thermal := Normal, poll := HeatDue);
    PathLostExactly(seen, Pass(PollWorker, sense, k));
  }

  // The path handed over while the tablet sources power is lost when it stops doing
  // so with a supply attached.
  lemma OtgReturnClosesQ4(s: State, otgMa: bv8, temp: int, sense: Sense)
    requires !s.otg && !s.direct && s.resuming == 0 && s.thermal != Stop && 100 <= temp < 420
    requires UsbTypeOf(s, sense).Some? && (sense.temp.Some? ==> sense.temp.value < 460)
    ensures var sourcing := Step(s, Otg(true, otgMa, Some(false), OtgIo(5, false, 0), None));
            var taken := Step(sourcing, DirectCharge(true, Some(temp), true, None, sense, 0));
            var stopped := Step(taken, Otg(false, otgMa, None, OtgIo(3, false, 0), Some(true)));
            && sourcing.otg && taken.direct && PathHeld(taken) && PathHeld(stopped)
            && !PathHeld(Step(stopped, Pass(OtgReturn, sense, 4)))
  {
    var sourcing := Step(s, Otg(true, otgMa, Some(false), OtgIo(5, false, 0), None));
    var take := DirectCharge(true, Some(temp), true, None, sense, 0);
    var taken := Step(sourcing, take);
    PathLostExactly(sourcing, take);
    var stop := Otg(false, otgMa, None, OtgIo(3, false, 0), Some(true));
    PathLostExactly(taken, stop);
    PathLostExactly(Step(taken, stop), Pass(OtgReturn, sense, 4));
  }

  // And one handed over in the gap between a decision and its pass, whether the poll
  // worker's or that of a set_otg on its way out, is lost to the pass.
  lemma TakeoverInTheGapIsLost(s: State, who: Passer, temp: int, sense: Sense)
    requires PassDue(s, who) && !s.otg && 100 <= temp < 420
    requires Closes(s, sense, 4)
    ensures var taken := Step(s, DirectCharge(true, Some(temp), true, None, sense, 0));
            taken.direct && PathHeld(taken) && !PathHeld(Step(taken, Pass(who, sense, 4)))
  {
    var taken := Step(s, DirectCharge(true, Some(temp), true, None, sense, 0));
    OpenQ4Opens(s.regs);
    PathLostExactly(taken, Pass(who, sense, 4));
  }

  // ---------- An undisturbed poll ----------

  // With nothing falling between its stages a poll is they, one after the other.
  lemma PollIsItsStages(s: State, p: PollIn)
    ensures Polled(s, p) == After(s, [Look(p.status, p.vbus, p.temp), Pass(PollWorker, p.changed, p.changedK),
                                      Check(p.statusAfter, p.cntl1Read), Pass(PollWorker, p.recover, p.recoverK),
                                      Cable(p.q4Opened)])
  {
    var es := [Look(p.status, p.vbus, p.temp), Pass(PollWorker, p.changed, p.changedK),
               Check(p.statusAfter, p.cntl1Read), Pass(PollWorker, p.recover, p.recoverK), Cable(p.q4Opened)];
    var t1 := Step(s, es[0]);
    assert After(s, es[..1]) == t1 by {
      assert es[..1][..0] == [];
    }
    var t2 := Step(t1, es[1]);
    assert After(s, es[..2]) == t2 by {
      assert es[..2][..1] == es[..1];
    }
    var t3 := Step(t2, es[2]);
    assert After(s, es[..3]) == t3 by {
      assert es[..3][..2] == es[..2];
    }
    var t4 := Step(t3, es[3]);
    assert After(s, es[..4]) == t4 by {
      assert es[..4][..3] == es[..3];
    }
  }

  // A poll that saw the cable go opens Q4, if that transfer goes through, and otherwise
  // its last stage leaves the registers alone; what it saw is remembered.
  lemma LostCableOpensQ4(s: State, online: Option<bool>, q4Opened: bool)
    requires s.poll == CableDue(online)
    ensures var t := CableNoted(s, q4Opened);
            && t == s.(regs := t.regs, lastOnline := t.lastOnline, poll := Resting)
            && t.lastOnline == (if online.Some? then online.value else s.lastOnline)
            && (online == Some(false) && s.lastOnline && q4Opened ==> !Q4Closed(t.regs))
            && (online != Some(false) || !s.lastOnline || !q4Opened ==> t.regs == s.regs)
  {
    OpenQ4Opens(s.regs);
  }

  // The thermal state after the first pass of a poll.
  function ThermalSeen(s: State, p: PollIn): Thermal {
    var u := s.(thermal := ThermalAfter(s, p.temp));
    if u.thermal != s.thermal && UsbTypeOf(u, p.changed).Some? then ThermalAfter(u, p.changed.temp) else u.thermal
  }

  lemma HeatStage(s: State, p: PollIn)
    requires s.poll.Resting? && !Q4Closed(s.regs) && !s.otg && p.vbus == Some(true)
    ensures var t := Passed(Looked(s, p.status, p.vbus, p.temp), PollWorker, p.changed, p.changedK);
            var u := s.(thermal := ThermalAfter(s, p.temp));
            var moved := u.thermal != s.thermal;
            && t == s.(regs := t.regs, thermal := ThermalSeen(s, p), poll := t.poll)
            && t.poll == Checking(Some(true), if moved then None else StatusOf(s, p.status), moved)
            && (Q4Closed(t.regs) <==> moved && Closes(u, p.changed, p.changedK))
  {
    var looked := Looked(s, p.status, p.vbus, p.temp);
    if looked.poll.HeatDue? {
      assert looked == s.(thermal := ThermalAfter(s, p.temp), poll := HeatDue);
      PassedQ4(looked, PollWorker, p.changed, p.changedK);
      ConfiguredQ4(Begun(looked, PollWorker), p.changed, p.changedK);
      UsbTypeIgnoresPoll(s.(thermal := ThermalAfter(s, p.temp)), looked, p.changed);
      UsbTypeIgnoresPoll(looked, Begun(looked, PollWorker), p.changed);
    }
  }

  lemma UsbTypeIgnoresPoll(s: State, t: State, sense: Sense)
    requires t == s.(poll := t.poll)
    ensures UsbTypeOf(t, sense) == UsbTypeOf(s, sense)
  {
  }

  // The rest of it, from a path seen open.
  lemma RecoverStage(s: State, st: Option<(bool, bool, bool)>, read: bool, sense: Sense, k: nat, q4Opened: bool)
    requires s.poll.Checking? && !Q4Closed(s.regs)
    ensures var t := CableNoted(Passed(Checked(s, st, read), PollWorker, sense, k), q4Opened);
            var status := if s.poll.again then StatusOf(s, st) else s.poll.status;
            Q4Closed(t.regs) <==>
              && s.poll.online == Some(true) && !s.direct && status == Some(NOT_CHARGING)
              && s.thermal != Stop && read && Closes(s, sense, k)
  {
    var checked := Checked(s, st, read);
    if checked.poll.RecoverDue? {
      PassedQ4(checked, PollWorker, sense, k);
    }
    var last := Passed(checked, PollWorker, sense, k);
    LostCableOpensQ4(last, last.poll.online, q4Opened);
  }

  // Once the first pass has closed it, it stays closed.
  lemma ClosedStaysClosed(s: State, st: Option<(bool, bool, bool)>, read: bool, sense: Sense, k: nat, q4Opened: bool)
    requires s.poll.Checking? && s.poll.online == Some(true) && Q4Closed(s.regs)
    ensures Q4Closed(CableNoted(Passed(Checked(s, st, read), PollWorker, sense, k), q4Opened).regs)
  {
    var last := Checked(s, st, read);
    assert last == s.(poll := CableDue(Some(true)));
    LostCableOpensQ4(last, Some(true), q4Opened);
  }

  // Probe puts a path found open to use if and only if a supply is attached and idle.
  lemma ProbeRecoversExactly(regs: Regs, vbus: Option<bool>, st: Option<(bool, bool, bool)>, sense: Sense, k: nat)
    requires !Q4Closed(regs)
    ensures var t := Probed(regs, vbus, st, sense, k);
            && (Q4Closed(t.regs) <==>
                  vbus == Some(true) && st == Some((true, false, false)) && Closes(Found(regs, vbus), sense, k))
            && !t.direct && !t.otg && t.typecMv == t.typecMa == 0 && t.lastOnline == (vbus == Some(true))
            && t.poll == Resting && t.resuming == 0
  {
    StatusMeans(Found(regs, vbus), st);
    ConfiguredQ4(Found(regs, vbus), sense, k);
  }

  // A path that is open and not handed over is closed by a poll with a supply attached
  // if and only if the thermal state moved and the pass that follows closes it, or the
  // charger reports a good supply with neither charging nor top-off, below the thermal
  // stop, and the recovery closes it.
  lemma OpenPathRecoversExactly(s: State, p: PollIn)
    requires !s.direct && !s.otg && s.poll.Resting? && !Q4Closed(s.regs) && p.vbus == Some(true)
    ensures var u := s.(thermal := ThermalAfter(s, p.temp));
            var moved := u.thermal != s.thermal;
            Q4Closed(Polled(s, p).regs) <==>
              || (moved && Closes(u, p.changed, p.changedK))
              || (&& (if moved then p.statusAfter else p.status) == Some((true, false, false))
                  && ThermalSeen(s, p) != Stop && p.cntl1Read
                  && Closes(s.(thermal := ThermalSeen(s, p)), p.recover, p.recoverK))
  {
    var seen := Passed(Looked(s, p.status, p.vbus, p.temp), PollWorker, p.changed, p.changedK);
    HeatStage(s, p);
    if Q4Closed(seen.regs) {
      ClosedStaysClosed(seen, p.statusAfter, p.cntl1Read, p.recover, p.recoverK, p.q4Opened);
    } else {
      RecoverStage(seen, p.statusAfter, p.cntl1Read, p.recover, p.recoverK, p.q4Opened);
      var same := s.(thermal := ThermalSeen(s, p));
      assert Closes(seen, p.recover, p.recoverK) <==> Closes(same, p.recover, p.recoverK) by {
        assert UsbTypeOf(seen, p.recover) == UsbTypeOf(same, p.recover);
      }
      StatusMeans(s, p.status);
      StatusMeans(seen, p.statusAfter);
    }
  }

  // The status bits say good supply, top-off and charging, in this order: top-off goes
  // before charging, and the direct charger counts as charging whatever the SM5714 does.
  lemma StatusMeans(s: State, st: Option<(bool, bool, bool)>)
    ensures s.otg ==> StatusOf(s, st) == Some(DISCHARGING)
    ensures !s.otg ==> (StatusOf(s, st) == None <==> st.None?)
    ensures !s.otg && st.Some? ==>
              var (good, topOff, charging) := st.value;
              && (StatusOf(s, st) == Some(DISCHARGING) <==> !good)
              && (StatusOf(s, st) == Some(FULL) <==> good && !s.direct && topOff)
              && (StatusOf(s, st) == Some(CHARGING) <==> good && (s.direct || (!topOff && charging)))
              && (StatusOf(s, st) == Some(NOT_CHARGING) <==> good && !s.direct && !topOff && !charging)
  {
  }

  // And never by a poll that sees no supply, or while the tablet sources.
  lemma UnsuppliedPathStaysOpen(s: State, p: PollIn)
    requires s.poll.Resting? && !Q4Closed(s.regs) && (s.otg || p.vbus != Some(true))
    ensures !Q4Closed(Polled(s, p).regs)
  {
    var looked := Looked(s, p.status, p.vbus, p.temp);
    assert looked == s.(poll := looked.poll) && looked.poll.Checking? && looked.poll.online != Some(true);
    RecoverStage(looked, p.statusAfter, p.cntl1Read, p.recover, p.recoverK, p.q4Opened);
  }

  // It closes Q4 behind the direct charger if and only if the thermal state moved and
  // the pass that follows gets that far.
  lemma PollClosesExactly(s: State, p: PollIn)
    requires PathHeld(s) && s.direct && s.poll.Resting?
    ensures Polled(s, p).direct && Polled(s, p).poll.Resting?
    ensures Q4Closed(Polled(s, p).regs) <==>
              HeatMoved(s, p.vbus, p.temp) && Closes(s.(thermal := ThermalAfter(s, p.temp)), p.changed, p.changedK)
  {
    var seen := Looked(s, p.status, p.vbus, p.temp);
    if seen.poll.HeatDue? {
      PassedQ4(seen, PollWorker, p.changed, p.changedK);
    }
  }
}
