// The SM5440 charge pump's side of the handover: it takes the battery path from
// the SM5714, asks TCPM for a programmable supply, runs the regulation loop and
// gives the path back on every failure, on suspend and on removal.
//
// Times to the next pass are in milliseconds.  A negative reading is a failed
// one, as in the driver.

module Sm5440Pump {
  import opened CTypes
  import opened PpsLoop
  import C = Sm5714Charger
  import T = ChargeThermal

  const POLL_MS := 1000
  const RETRY_MS := 30000
  const SETTLE_TRIES := 30

  datatype Ret = Ok | ENODATA | EREFUSED | EIO | ETIMEDOUT | ENOLINK

  // The property last accepted by TCPM for each field; online 1 is the fixed
  // contract, 2 the programmable one.
  datatype Tcpm = Tcpm(online: int, ma: int, mv: int)

  // What TCPM and the SM5714's own poll may do there while this driver waits, one
  // stage of a poll or of an OTG switch at a time.
  datatype Interlude =
    | Look(st: Option<(bool, bool, bool)>, vbus: Option<bool>, temp: Option<int>)
    | Check(st: Option<(bool, bool, bool)>)
    | Cable
    | Pass(who: C.Passer, sense: C.Sense)
    | Contract(mv: nat, ma: nat, vbus: Option<bool>, sense: C.Sense)
    | OtgSwitch(active: bool, otgMa: bv8, vbus: Option<bool>, vbusAfter: Option<bool>)

  // What giving the path back may read on the SM5714 side, and what happens there
  // between turning the pump off and that.
  datatype Return = Return(between: seq<Interlude>, vbus: Option<bool>, sense: C.Sense)

  // `between` lists what happens on the SM5714 side before the chip is set up,
  // before the request, before each settle reading and before the pump is turned on.
  datatype StartIn = StartIn(
    batteryUv: int, knob: u32, takeTemp: Option<int>, vbusMv: nat -> int, vbusPok: int, back: Return,
    between: Gap -> seq<Interlude>)

  datatype Gap = BeforeInit | BeforeRequest | BeforeReading(i: nat) | BeforePowerOn | BeforeFinish

  datatype Health = Health(capacity: int, packTemp: int, chgOnRead: Option<bool>, vbusPok: Option<bool>,
                           vbus: int, ibus: int, vbat: int, dieTemp: int)

  datatype WorkIn = WorkIn(
    online: int, capacity: int, temp: int, voltageUv: int, start: StartIn,
    wantUv: int, measuredMa: int, targetKnob: u32, currentKnob: u32, health: Health, back: Return)

  // Where in a pass a suspend gives the path back, and with what readings.
  datatype CutAt = BeforeRefresh | BeforeReadings | BeforeWatchdog
  datatype Cut = Cut(at: CutAt, back: Return)

  // What the worker does while the device suspends.
  datatype Overlap = NoPass | PassAfter(w: WorkIn) | PassAround(w: WorkIn, at: CutAt)

  predicate Eligible(w: WorkIn) {
    && w.online > 0 && 5 <= w.capacity < 90
    && 100 <= w.temp < 420
    && 3500000 <= w.voltageUv < 4350000
  }

  // The running pump is left alone only when every reading came back and none is
  // out of its range.
  predicate Healthy(h: Health) {
    && 0 <= h.capacity < 90 && 0 <= h.packTemp < 450
    && h.chgOnRead == Some(true) && h.vbusPok == Some(true)
    && 0 <= h.vbus <= 10800 && 0 <= h.ibus && 0 <= h.vbat <= 4450 && 0 <= h.dieTemp < 1100
  }

  // Spelled out reading by reading: direct charging starts only from a supply, a battery
  // between 5 % and 89 %, 10.0 C and 41.9 C, and 3.5 V and 4.35 V;
  lemma StartsOnlyFrom(w: WorkIn)
    ensures !Eligible(w) <==>
              || w.online <= 0 || w.capacity < 5 || w.capacity >= 90
              || w.temp < 100 || w.temp >= 420 || w.voltageUv < 3_500_000 || w.voltageUv >= 4_350_000
  {
  }

  // and it stops on the first pass that misses a reading, sees the pump off or the bus
  // bad, or any of them at 90 %, 45.0 C, above 10.8 V, above 4.45 V or at 110.0 C.
  lemma StopsExactlyOn(h: Health)
    ensures !Healthy(h) <==>
              || h.capacity < 0 || h.packTemp < 0
              || h.vbus < 0 || h.ibus < 0 || h.vbat < 0 || h.dieTemp < 0
              || h.capacity >= 90 || h.packTemp >= 450
              || h.chgOnRead.None? || !h.chgOnRead.value || h.vbusPok.None? || !h.vbusPok.value
              || h.vbus > 10800 || h.vbat > 4450 || h.dieTemp >= 1100
  {
  }

  // The i-th of the bus readings is the first to reach the target less 500 mV.
  ghost predicate SettlesAt(vbusMv: nat -> int, targetMv: int, i: nat) {
    && i < SETTLE_TRIES && vbusMv(i) >= 0 && vbusMv(i) >= targetMv - 500
    && forall j: nat :: j < i ==> 0 <= vbusMv(j) < targetMv - 500
  }

  lemma NeverSettles(vbusMv: nat -> int, targetMv: int, i: nat)
    requires vbusMv(i) < 0 && forall j: nat :: j < i ==> vbusMv(j) < targetMv - 500
    ensures forall k: nat :: !SettlesAt(vbusMv, targetMv, k)
  {
    forall k: nat
      ensures !SettlesAt(vbusMv, targetMv, k)
    {
    }
  }

  // ---------- Both drivers over whole runs ----------

  // How far this driver has come with the path it was handed.
  datatype Phase = Idle | Taken | Initialised | Requested | Powered | Running

  // The handover as seen from outside: this driver's progress, whether its pump is
  // on, and the SM5714.
  datatype Pair = Pair(phase: Phase, chgOn: bool, charger: C.State)

  datatype Event =
    | Charger(e: C.Event)   // TCPM's calls and the SM5714's own poll
    | Take(temp: Option<int>, q4Opened: bool)
    | Init(ok: bool, reset: bool)
    | Request
    | PowerOn
    | Finish
    | PowerOff(ok: bool)
    | Drop                  // the pump turns itself off
    | GiveBack(vbus: Option<bool>, sense: C.Sense, k: nat)

  // A return may come twice: a suspend and the pass it falls into can both make one.
  predicate Allowed(p: Pair, e: Event) {
    match e
    case Charger(e) => !e.DirectCharge?
    case Take(_, _) => p.phase.Idle?
    case Init(_, _) => p.phase.Taken?
    case Request => p.phase.Initialised?
    case PowerOn => p.phase.Requested?
    case Finish => p.phase.Powered?
    case PowerOff(_) => true
    case Drop => true
    case GiveBack(_, _, _) => true
  }

  function Step(p: Pair, e: Event): Pair {
    match e
    case Charger(e) => p.(charger := C.Step(p.charger, e))
    case Take(temp, q4Opened) =>
      var (taken, ret) := C.PathTaken(p.charger, temp, q4Opened);
      p.(phase := if ret == C.Ok then Taken else Idle, charger := taken)
    case Init(ok, reset) =>
      p.(phase := if ok then Initialised else Taken, chgOn := p.chgOn && !ok && !reset)
    case Request => p.(phase := Requested)
    case PowerOn => p.(phase := Powered, chgOn := true)
    case Finish => p.(phase := Running)
    case PowerOff(ok) => p.(chgOn := p.chgOn && !ok)
    case Drop => p.(chgOn := false)
    case GiveBack(vbus, sense, k) => p.(phase := Idle, charger := C.PathReturned(p.charger, vbus, sense, k).0)
  }

  predicate Run(p: Pair, es: seq<Event>, q: Pair)
    decreases |es|
  {
    if es == [] then p == q
    else Allowed(p, es[0]) && Run(Step(p, es[0]), es[1..], q)
  }

  lemma {:induction false} RunConcat(p: Pair, es: seq<Event>, q: Pair, fs: seq<Event>, r: Pair)
    requires Run(p, es, q) && Run(q, fs, r)
    ensures Run(p, es + fs, r)
    decreases |es|
  {
    if es == [] {
      assert es + fs == fs;
    } else {
      RunConcat(Step(p, es[0]), es[1..], q, fs, r);
      assert (es + fs)[1..] == es[1..] + fs;
    }
  }

  lemma RunSnoc(p: Pair, es: seq<Event>, q: Pair, e: Event)
    requires Run(p, es, q) && Allowed(q, e)
    ensures Run(p, es + [e], Step(q, e))
  {
    assert Run(q, [e], Step(q, e)) by {
      assert [e][1..] == [];
    }
    RunConcat(p, es, q, [e], Step(q, e));
  }

  // ---------- Who owns the path ----------

  ghost predicate OwnersAgree(p: Pair) {
    p.charger.direct <==> !p.phase.Idle?
  }

  lemma GiveBackClears(s: C.State, vbus: Option<bool>, sense: C.Sense, k: nat)
    ensures !C.PathReturned(s, vbus, sense, k).0.direct
  {
    C.ConfiguredQ4(s.(direct := false), sense, k);
  }

  lemma ChargerStepKeepsOwner(s: C.State, e: C.Event)
    requires !e.DirectCharge?
    ensures C.Step(s, e).direct == s.direct
  {
  }

  lemma StepKeepsOwners(p: Pair, e: Event)
    requires OwnersAgree(p) && Allowed(p, e)
    ensures OwnersAgree(Step(p, e))
  {
    match e {
      case Charger(c) => ChargerStepKeepsOwner(p.charger, c);
      case GiveBack(vbus, sense, k) => GiveBackClears(p.charger, vbus, sense, k);
      case _ =>
    }
  }

  // Over any interleaving of the two drivers, with starts and returns that fail
  // anywhere, each one's idea of who owns the path is the other's.
  lemma {:induction false} OwnersAgreeInEveryRun(p: Pair, es: seq<Event>, q: Pair)
    requires OwnersAgree(p) && Run(p, es, q)
    ensures OwnersAgree(q)
    decreases |es|
  {
    if es != [] {
      StepKeepsOwners(p, es[0]);
      OwnersAgreeInEveryRun(Step(p, es[0]), es[1..], q);
    }
  }

  // ---------- Q4 while this driver holds the path ----------

  ghost predicate PathOpen(p: Pair) {
    !p.phase.Idle? ==> !C.Q4Closed(p.charger.regs)
  }

  // The pump is on only in the hands of a driver that has been through the whole
  // start, and never into a closed Q4.
  ghost predicate PumpGuarded(p: Pair) {
    PathOpen(p) && (p.chgOn ==> p.phase.Powered? || p.phase.Running?)
  }

  // The SM5714 closes Q4 under this driver's feet;
  predicate Undercuts(p: Pair, e: Event) {
    e.Charger? && C.ClosesBehindPump(p.charger, e.e)
  }

  // or the path is given back with the pump still on.
  predicate LeavesPumpOn(p: Pair, e: Event) {
    e.GiveBack? && p.chgOn
  }

  // From the handover to the return, the request included, Q4 is open, and a step
  // closes it if and only if the SM5714 undercuts the handover.
  lemma PathLostExactly(p: Pair, e: Event)
    requires OwnersAgree(p) && PathOpen(p) && Allowed(p, e)
    ensures PathOpen(Step(p, e)) <==> !Undercuts(p, e)
  {
    match e {
      case Charger(c) =>
        ChargerStepKeepsOwner(p.charger, c);
        C.PathLostExactly(p.charger, c);
      case Take(temp, q4Opened) =>
        C.OpenQ4Opens(p.charger.regs);
      case _ =>
    }
  }

  lemma GuardLostExactly(p: Pair, e: Event)
    requires OwnersAgree(p) && PumpGuarded(p) && Allowed(p, e)
    ensures PumpGuarded(Step(p, e)) <==> !Undercuts(p, e) && !LeavesPumpOn(p, e)
  {
    PathLostExactly(p, e);
  }

  predicate Undisturbed(p: Pair, es: seq<Event>)
    decreases |es|
  {
    es == [] || (!Undercuts(p, es[0]) && Undisturbed(Step(p, es[0]), es[1..]))
  }

  predicate PumpTurnsOff(p: Pair, es: seq<Event>)
    decreases |es|
  {
    es == [] || (!LeavesPumpOn(p, es[0]) && PumpTurnsOff(Step(p, es[0]), es[1..]))
  }

  lemma {:induction false} PathOpenInEveryRun(p: Pair, es: seq<Event>, q: Pair)
    requires OwnersAgree(p) && PathOpen(p) && Run(p, es, q) && Undisturbed(p, es)
    ensures OwnersAgree(q) && PathOpen(q)
    decreases |es|
  {
    if es != [] {
      StepKeepsOwners(p, es[0]);
      PathLostExactly(p, es[0]);
      PathOpenInEveryRun(Step(p, es[0]), es[1..], q);
    }
  }

  // Over every run without those two events the pump is on only while this driver
  // holds the path, and Q4 is open then.
  lemma {:induction false} PumpGuardedInEveryRun(p: Pair, es: seq<Event>, q: Pair)
    requires OwnersAgree(p) && PumpGuarded(p) && Run(p, es, q) && Undisturbed(p, es) && PumpTurnsOff(p, es)
    ensures PumpGuarded(q)
    ensures q.chgOn ==> q.charger.direct && !C.Q4Closed(q.charger.regs)
    decreases |es|
  {
    if es != [] {
      StepKeepsOwners(p, es[0]);
      GuardLostExactly(p, es[0]);
      PumpGuardedInEveryRun(Step(p, es[0]), es[1..], q);
    }
  }

  // ---------- The pump running into a closed Q4 ----------

  predicate Hazard(p: Pair) {
    p.chgOn && C.Q4Closed(p.charger.regs)
  }

  // The return itself closes Q4.
  predicate ReturnCloses(p: Pair, e: Event) {
    e.GiveBack? && C.ClosesQ4(p.charger, C.DirectCharge(false, None, false, e.vbus, e.sense, e.k))
  }

  predicate RunsIntoQ4(p: Pair, e: Event) {
    match e
    case PowerOn => C.Q4Closed(p.charger.regs)
    case Charger(c) => p.chgOn && C.ClosesQ4(p.charger, c)
    case GiveBack(_, _, _) => p.chgOn && ReturnCloses(p, e)
    case _ => false
  }

  // From every state of the two drivers outside the hazard, a step leads into it if
  // and only if it turns the pump on with Q4 closed, or closes Q4 with the pump on.
  lemma PumpIntoClosedQ4Exactly(p: Pair, e: Event)
    requires !Hazard(p)
    ensures Hazard(Step(p, e)) <==> RunsIntoQ4(p, e)
  {
    match e {
      case Charger(c) =>
        if p.chgOn {
          C.Q4ClosesExactly(p.charger, c);
        }
      case Take(temp, q4Opened) =>
        C.OpenQ4Opens(p.charger.regs);
      case GiveBack(vbus, sense, k) =>
        if p.chgOn {
          C.Q4ClosesExactly(p.charger, C.DirectCharge(false, None, false, vbus, sense, k));
        }
      case _ =>
    }
  }

  // While the path is open behind its holder there are three such steps: the SM5714
  // undercuts the handover, the return closes Q4, or, after a return that did not turn
  // the pump off, anything on the SM5714 side closes it later.
  lemma HazardComesInThreeWays(p: Pair, e: Event)
    requires OwnersAgree(p) && PathOpen(p) && Allowed(p, e)
    ensures RunsIntoQ4(p, e) <==>
              && p.chgOn
              && (|| Undercuts(p, e)
                  || ReturnCloses(p, e)
                  || (p.phase.Idle? && e.Charger? && C.ClosesQ4(p.charger, e.e)))
  {
  }

  predicate NoHazard(p: Pair, es: seq<Event>)
    decreases |es|
  {
    !Hazard(p) && (es == [] || NoHazard(Step(p, es[0]), es[1..]))
  }

  predicate NoneRunsIn(p: Pair, es: seq<Event>)
    decreases |es|
  {
    es == [] || (!RunsIntoQ4(p, es[0]) && NoneRunsIn(Step(p, es[0]), es[1..]))
  }

  // A run stays clear of the hazard throughout if and only if it has no such step.
  lemma {:induction false} NeverIntoClosedQ4Exactly(p: Pair, es: seq<Event>)
    requires !Hazard(p)
    ensures NoHazard(p, es) <==> NoneRunsIn(p, es)
    decreases |es|
  {
    if es != [] {
      PumpIntoClosedQ4Exactly(p, es[0]);
      if !Hazard(Step(p, es[0])) {
        NeverIntoClosedQ4Exactly(Step(p, es[0]), es[1..]);
      }
    }
  }

  // The hazard happens: from any running state, a failed write that should have turned
  // the pump off, and a supply that is recognised, leave the pump on into a closed Q4
  // with neither driver thinking it runs.
  lemma FailedPowerOffHazard(p: Pair, sense: C.Sense)
    requires OwnersAgree(p) && PumpGuarded(p) && p.phase.Running? && p.chgOn && !p.charger.otg
    requires C.Closes(p.charger, sense, 4)
    ensures var back := GiveBack(Some(true), sense, 4);
            var mid := Step(p, PowerOff(false));
            var t := Step(mid, back);
            && Allowed(p, PowerOff(false)) && Allowed(mid, back)
            && Hazard(t) && t.phase.Idle? && !t.charger.direct
  {
    var mid := Step(p, PowerOff(false));
    PumpIntoClosedQ4Exactly(mid, GiveBack(Some(true), sense, 4));
    GiveBackClears(mid.charger, Some(true), sense, 4);
  }

  // It also comes late: the return leaves Q4 open because the supply cannot be read,
  // and the contract TCPM falls back to afterwards closes it.
  lemma LateContractHazard(p: Pair, sense: C.Sense, mv: nat, ma: nat)
    requires OwnersAgree(p) && PumpGuarded(p) && p.phase.Running? && p.chgOn && !p.charger.otg
    requires 5000 <= mv <= 9000 && 0 < ma <= 3000
    requires C.Closes(p.charger.(typecMv := mv, typecMa := ma), sense, 4)
    ensures var off, back := PowerOff(false), GiveBack(None, sense, 0);
            var contract := Charger(C.PdContract(mv, ma, Some(true), sense, 4));
            var mid := Step(p, off);
            var idle := Step(mid, back);
            && Allowed(p, off) && Allowed(mid, back) && Allowed(idle, contract)
            && !ReturnCloses(mid, back) && !Undercuts(idle, contract)
            && idle.phase.Idle? && !Hazard(idle) && Hazard(Step(idle, contract))
  {
    var mid := Step(p, PowerOff(false));
    var idle := Step(mid, GiveBack(None, sense, 0));
    assert idle == mid.(phase := Idle, charger := mid.charger.(direct := false));
    PumpIntoClosedQ4Exactly(idle, Charger(C.PdContract(mv, ma, Some(true), sense, 4)));
  }

  // ---------- The driver object ----------

  class Pump {
    const charger: C.Charger
    var targetMv: int
    var targetMa: int
    var ppsTicks: nat
    var active: bool
    ghost var phase: Phase
    ghost var faults: nat    // transfers that have failed
    // the chip and TCPM
    var chgOn: bool
    var watchdog: bool
    var adcOn: bool
    var tcpm: Tcpm

    ghost function View(): Pair
      reads this, charger
    {
      Pair(phase, chgOn, charger.St())
    }

    // Between entry points the two drivers agree on who owns the battery path.
    ghost predicate Valid()
      reads this, charger
    {
      && charger.Valid()
      && active == charger.direct
      && phase == (if active then Running else Idle)
      && ppsTicks < 2
      && (active ==> RequestInBounds(targetMv, targetMa))
    }

    // On the way between them.
    ghost predicate Holding()
      reads this, charger
    {
      charger.Valid() && charger.direct && !phase.Idle?
    }

    ghost predicate RequestInBounds(mv: int, ma: int) {
      0 < mv <= MAX_PPS_MV && mv * ma >= FLOOR_POWER_UW
    }

    constructor Probe(charger: C.Charger, tcpm: Tcpm)
      requires charger.Valid() && !charger.direct
      ensures Valid() && this.charger == charger && !active && !chgOn
    {
      this.charger, this.tcpm := charger, tcpm;
      targetMv, targetMa, ppsTicks, active, phase, faults := 0, 0, 0, false, Idle, 0;
      chgOn, watchdog, adcOn := false, false, false;
    }

    // ---- the other driver in between ----

    // An interlude whose turn it is not, because the poll worker or a set_otg stands
    // elsewhere, is none.
    method Let(i: Interlude, ghost start: Pair, ghost before: seq<Event>) returns (ghost es: seq<Event>)
      requires charger.Valid() && Run(start, before, View())
      modifies charger
      ensures charger.Valid() && charger.direct == old(charger.direct) && Run(start, es, View())
    {
      ghost var p := View();
      ghost var e := Play(i);
      RunSnoc(start, before, p, Charger(e));
      es := before + [Charger(e)];
    }

    method Play(i: Interlude) returns (ghost e: C.Event)
      requires charger.Valid()
      modifies charger
      ensures charger.Valid() && !e.DirectCharge? && charger.St() == C.Step(old(charger.St()), e)
      ensures charger.direct == old(charger.direct)
    {
      ghost var s := charger.St();
      match i {
        case Contract(mv, ma, vbus, sense) =>
          var _, k := charger.SetPdContract(mv, ma, vbus, sense);
          e := C.PdContract(mv, ma, vbus, sense, k);
        case OtgSwitch(on, otgMa, vbus, vbusAfter) =>
          var _, io := charger.SwitchOtg(on, otgMa, vbus, vbusAfter);
          e := C.Otg(on, otgMa, vbus, io, vbusAfter);
        case Pass(who, sense) =>
          ghost var k := 0;
          if C.PassDue(charger.St(), who) {
            var _, n := charger.Pass(who, sense);
            k := n;
          }
          e := C.Pass(who, sense, k);
        case _ =>
          e := PlayStage(i);
      }
      ChargerStepKeepsOwner(s, e);
    }

    // The stages of a poll between its passes.
    method PlayStage(i: Interlude) returns (ghost e: C.Event)
      requires charger.Valid() && (i.Look? || i.Check? || i.Cable?)
      modifies charger
      ensures charger.Valid() && !e.DirectCharge? && charger.St() == C.Step(old(charger.St()), e)
    {
      match i {
        case Look(st, vbus, temp) =>
          if charger.poll.Resting? {
            charger.Look(st, vbus, temp);
          }
          e := C.Look(st, vbus, temp);
        case Check(st) =>
          ghost var read := false;
          if charger.poll.Checking? {
            read := charger.Check(st);
          }
          e := C.Check(st, read);
        case Cable =>
          ghost var q4Opened := false;
          if charger.poll.CableDue? {
            q4Opened := charger.NoteCable();
          }
          e := C.Cable(q4Opened);
      }
    }

    method LetAll(list: seq<Interlude>, ghost start: Pair, ghost before: seq<Event>) returns (ghost es: seq<Event>)
      requires charger.Valid() && Run(start, before, View())
      modifies charger
      ensures charger.Valid() && charger.direct == old(charger.direct) && Run(start, es, View())
    {
      es := before;
      for i := 0 to |list|
        invariant charger.Valid() && charger.direct == old(charger.direct) && Run(start, es, View())
      {
        es := Let(list[i], start, es);
      }
    }

    // ---- transfers that may fail ----

    // Unless the SM5714 has undercut the handover since, Q4 is open when the pump is
    // turned on, and when more than the fixed 9 V is asked for below.
    method SetChgOn(on: bool, ghost undisturbed: bool) returns (ok: bool)
      requires on ==> charger.direct && (undisturbed ==> !C.Q4Closed(charger.regs))
      modifies this`chgOn, this`faults
      ensures chgOn == if ok then on else old(chgOn)
      ensures faults == old(faults) + if ok then 0 else 1
    {
      ok := *;
      if ok {
        chgOn := on;
      } else {
        faults := faults + 1;
      }
    }

    method SetWatchdog(on: bool) returns (ok: bool)
      modifies this`watchdog, this`faults
      ensures watchdog == if ok then on else old(watchdog)
      ensures faults == old(faults) + if ok then 0 else 1
    {
      ok := *;
      if ok {
        watchdog := on;
      } else {
        faults := faults + 1;
      }
    }

    method SetAdc(on: bool) returns (ok: bool)
      modifies this`adcOn, this`faults
      ensures adcOn == if ok then on else old(adcOn)
      ensures faults == old(faults) + if ok then 0 else 1
    {
      ok := *;
      if ok {
        adcOn := on;
      } else {
        faults := faults + 1;
      }
    }

    method SetOnline(online: int) returns (ok: bool)
      modifies this`tcpm, this`faults
      ensures tcpm == if ok then old(tcpm).(online := online) else old(tcpm)
      ensures faults == old(faults) + if ok then 0 else 1
    {
      ok := *;
      if ok {
        tcpm := tcpm.(online := online);
      } else {
        faults := faults + 1;
      }
    }

    method SetCurrent(ma: int) returns (ok: bool)
      modifies this`tcpm, this`faults
      ensures tcpm == if ok then old(tcpm).(ma := ma) else old(tcpm)
      ensures faults == old(faults) + if ok then 0 else 1
    {
      ok := *;
      if ok {
        tcpm := tcpm.(ma := ma);
      } else {
        faults := faults + 1;
      }
    }

    method SetVoltage(mv: int) returns (ok: bool)
      modifies this`tcpm, this`faults
      ensures tcpm == if ok then old(tcpm).(mv := mv) else old(tcpm)
      ensures faults == old(faults) + if ok then 0 else 1
    {
      ok := *;
      if ok {
        tcpm := tcpm.(mv := mv);
      } else {
        faults := faults + 1;
      }
    }

    // sm5440_hw_init(): a reset that clears the operating mode, then the register
    // sequence, which leaves the ADC running and the watchdog off.  If it fails,
    // the reset may have gone through or not.
    method HwInit() returns (ok: bool, ghost reset: bool)
      modifies this`chgOn, this`watchdog, this`adcOn, this`faults
      ensures chgOn == (old(chgOn) && !ok && !reset)
      ensures ok ==> !watchdog && adcOn
      ensures faults == old(faults) + if ok then 0 else 1
    {
      ok := *;
      var done: bool := *;
      reset := done;
      if ok {
        chgOn, watchdog, adcOn := false, false, true;
      } else {
        chgOn, watchdog, adcOn, faults := chgOn && !done, *, *, faults + 1;
      }
    }

    // ---- requests to TCPM ----

    method RequestPps(mv: int, ma: int, ghost undisturbed: bool) returns (ok: bool)
      requires charger.direct && (undisturbed ==> !C.Q4Closed(charger.regs))
      modifies this`tcpm, this`faults
      ensures ok ==> tcpm == Tcpm(2, ma, mv)
      ensures faults >= old(faults) && (!ok ==> faults > old(faults))
    {
      ok := SetOnline(2);
      if !ok {
        return;
      }
      ok := SetCurrent(ma);
      if ok {
        ok := SetVoltage(mv);
        if ok {
          return;
        }
      }
      var _ := SetOnline(1);
    }

    method RefreshPps() returns (ok: bool)
      modifies this`tcpm, this`faults
      ensures ok ==> tcpm == old(tcpm).(ma := targetMa, mv := targetMv)
      ensures faults >= old(faults) && (!ok ==> faults > old(faults))
    {
      ok := SetCurrent(targetMa);
      if ok {
        ok := SetVoltage(targetMv);
      }
    }

    // ---- handover ----

    // sm5440_restore_switching().  Every result is ignored: the flags always
    // come back, the pump only goes off if its own transfer went through.
    method RestoreSwitching(back: Return, ghost start: Pair, ghost before: seq<Event>)
      returns (pumpOff: bool, fixedAsked: bool, ghost es: seq<Event>)
      requires charger.Valid() && Run(start, before, View())
      modifies this, charger
      ensures Valid() && !active && !charger.direct && ppsTicks == 0 && Run(start, es, View())
      ensures targetMv == old(targetMv) && targetMa == old(targetMa)
      ensures chgOn == (old(chgOn) && !pumpOff)
      ensures tcpm == if fixedAsked then old(tcpm).(online := 1) else old(tcpm)
      ensures faults >= old(faults)
    {
      pumpOff, es := StopPump(start, before);
      fixedAsked := SetOnline(1);
      es := HandBack(back, start, es);
      ppsTicks := 0;
      active := false;
    }

    // The transfers to the pump itself
    method StopPump(ghost start: Pair, ghost before: seq<Event>) returns (pumpOff: bool, ghost es: seq<Event>)
      requires charger.Valid() && Run(start, before, View())
      modifies this`chgOn, this`adcOn, this`watchdog, this`faults
      ensures chgOn == (old(chgOn) && !pumpOff) && Run(start, es, View())
      ensures faults >= old(faults)
    {
      ghost var p := View();
      pumpOff := SetChgOn(false, false);
      RunSnoc(start, before, p, PowerOff(pumpOff));
      es := before + [PowerOff(pumpOff)];
      var _ := SetAdc(false);
      var _ := SetWatchdog(false);
    }

    // sm5714_battery_set_direct_charge(false), after whatever else happens there
    method HandBack(back: Return, ghost start: Pair, ghost before: seq<Event>) returns (ghost es: seq<Event>)
      requires charger.Valid() && Run(start, before, View())
      modifies this`phase, charger
      ensures charger.Valid() && !charger.direct && phase.Idle? && Run(start, es, View())
    {
      es := LetAll(back.between, start, before);
      ghost var p := View();
      var _, k := charger.ReturnPath(back.vbus, back.sense);
      phase := Idle;
      GiveBackClears(p.charger, back.vbus, back.sense, k);
      RunSnoc(start, es, p, GiveBack(back.vbus, back.sense, k));
      es := es + [GiveBack(back.vbus, back.sense, k)];
    }

    // sm5714_battery_set_direct_charge(true)
    method TakeOver(temp: Option<int>) returns (ok: bool, ghost es: seq<Event>)
      requires Valid() && !active
      modifies this`phase, this`faults, charger
      ensures charger.Valid() && charger.direct == ok && phase == (if ok then Taken else Idle)
      ensures Run(old(View()), es, View())
      ensures ok ==> temp.Some? && 100 <= temp.value < 420 && !C.Q4Closed(charger.regs)
      ensures temp.Some? && 100 <= temp.value < 420 ==> faults == old(faults) + if ok then 0 else 1
    {
      ghost var start := View();
      var taken;
      ghost var q4Opened;
      taken, q4Opened := charger.TakePath(temp);
      ok := taken == C.Ok;
      if ok {
        phase := Taken;
      } else {
        faults := faults + 1;
      }
      C.OpenQ4Opens(start.charger.regs);
      RunSnoc(start, [], start, Take(temp, q4Opened));
      es := [] + [Take(temp, q4Opened)];
    }

    // Nothing read during a start speaks against it.
    ghost predicate StartsWell(input: StartIn) {
      && input.batteryUv >= 0
      && input.takeTemp.Some? && 100 <= input.takeTemp.value < 420
      && (exists i :: SettlesAt(input.vbusMv, TargetMv(input.batteryUv), i))
      && input.vbusPok == 1
    }

    // sm5440_start(): it fails only for a reading that speaks against it or a transfer
    // that failed.
    method Start(input: StartIn) returns (ret: Ret, ghost es: seq<Event>)
      requires Valid() && !active
      modifies this, charger
      ensures Valid() && (active <==> ret == Ok) && Run(old(View()), es, View())
      ensures ret == Ok ==>
                && input.batteryUv >= 0
                && targetMv == TargetMv(input.batteryUv) && Asked(targetMv, input.knob, targetMa) && ppsTicks == 0
                && tcpm == Tcpm(2, targetMa, targetMv)
                && chgOn && watchdog
                && (Undisturbed(old(View()), es) ==> !C.Q4Closed(charger.regs))
                && (exists i :: SettlesAt(input.vbusMv, targetMv, i))
                && input.takeTemp.Some? && 100 <= input.takeTemp.value < 420 && input.vbusPok == 1
      ensures ret != Ok ==> !charger.direct && (StartsWell(input) ==> faults > old(faults))
    {
      ghost var start := View();
      es := [];
      if input.batteryUv < 0 {
        return ENODATA, es;
      }
      var mv := TargetMv(input.batteryUv);
      var ma := RequestMa(mv, input.knob);
      RequestCarriesFloorPower(mv, input.knob);
      RequestIsAsked(mv, input.knob, ma);

      var ok;
      ok, es := TakeOver(input.takeTemp);
      if !ok {
        return EREFUSED, es;
      }
      ret, es := PowerUp(input, mv, ma, start, es);
      if ret == Ok {
        active, targetMv, targetMa, ppsTicks := true, mv, ma, 0;
      } else {
        var _, _, fs := RestoreSwitching(input.back, start, es);
        es := fs;
      }
    }

    // The part of sm5440_start() whose failures all lead to the restore label.
    // The SM5714 may run before every one of its steps.
    method PowerUp(input: StartIn, mv: int, ma: int, ghost start: Pair, ghost before: seq<Event>)
      returns (ret: Ret, ghost es: seq<Event>)
      requires Holding() && phase.Taken? && Run(start, before, View()) && OwnersAgree(start) && PathOpen(start)
      modifies this`faults, this`chgOn, this`watchdog, this`adcOn, this`tcpm, this`phase, charger
      ensures Holding() && Run(start, es, View())
      ensures ret == Ok ==>
                && phase.Running? && tcpm == Tcpm(2, ma, mv) && chgOn && watchdog
                && (exists i :: SettlesAt(input.vbusMv, mv, i))
                && input.vbusPok == 1
                && (Undisturbed(start, es) ==> !C.Q4Closed(charger.regs))
      ensures ret == ETIMEDOUT ==> forall i: nat :: i < SETTLE_TRIES ==> 0 <= input.vbusMv(i) < mv - 500
      ensures faults >= old(faults) && (ret != Ok && input.vbusPok == 1 && (exists i :: SettlesAt(input.vbusMv, mv, i)) ==> faults > old(faults))
    {
      var ok;
      ok, es := SetUp(input, start, before);
      if !ok {
        return EIO, es;
      }
      ok, es := AskPps(input, mv, ma, start, es);
      if !ok {
        return EIO, es;
      }
      ret, es := AwaitBus(input, mv, start, es);
      if ret == Ok {
        ret, es := TurnOn(input, start, es);
      }
      if ret == Ok && Undisturbed(start, es) {
        PathOpenInEveryRun(start, es, View());
      }
    }

    method SetUp(input: StartIn, ghost start: Pair, ghost before: seq<Event>) returns (ok: bool, ghost es: seq<Event>)
      requires Holding() && phase.Taken? && Run(start, before, View())
      modifies this`faults, this`chgOn, this`watchdog, this`adcOn, this`phase, charger
      ensures Holding() && Run(start, es, View()) && (ok ==> phase.Initialised?)
      ensures faults >= old(faults) && (!ok ==> faults > old(faults))
    {
      es := LetAll(input.between(BeforeInit), start, before);
      ghost var p := View();
      ghost var reset;
      ok, reset := HwInit();
      if ok {
        phase := Initialised;
      }
      RunSnoc(start, es, p, Init(ok, reset));
      es := es + [Init(ok, reset)];
    }

    method AskPps(input: StartIn, mv: int, ma: int, ghost start: Pair, ghost before: seq<Event>)
      returns (ok: bool, ghost es: seq<Event>)
      requires Holding() && phase.Initialised? && Run(start, before, View()) && OwnersAgree(start) && PathOpen(start)
      modifies this`faults, this`tcpm, this`phase, charger
      ensures Holding() && Run(start, es, View())
      ensures ok ==> phase.Requested? && tcpm == Tcpm(2, ma, mv)
      ensures faults >= old(faults) && (!ok ==> faults > old(faults))
    {
      es := LetAll(input.between(BeforeRequest), start, before);
      ghost var p := View();
      if Undisturbed(start, es) {
        PathOpenInEveryRun(start, es, p);
      }
      ok := RequestPps(mv, ma, Undisturbed(start, es));
      if ok {
        phase := Requested;
        RunSnoc(start, es, p, Request);
        es := es + [Request];
      }
    }

    // The wait for the bus to reach the requested voltage.
    method AwaitBus(input: StartIn, mv: int, ghost start: Pair, ghost before: seq<Event>)
      returns (ret: Ret, ghost es: seq<Event>)
      requires Holding() && phase.Requested? && Run(start, before, View())
      modifies charger
      ensures Holding() && Run(start, es, View())
      ensures ret == Ok || ret == EIO || ret == ETIMEDOUT
      ensures ret == Ok <==> exists i :: SettlesAt(input.vbusMv, mv, i)
      ensures ret == ETIMEDOUT ==> forall i: nat :: i < 30 ==> 0 <= input.vbusMv(i) < mv - 500
    {
      es := before;
      var i := 0;
      while i < SETTLE_TRIES
        invariant i <= SETTLE_TRIES
        invariant forall j: nat :: j < i ==> 0 <= input.vbusMv(j) < mv - 500
        invariant Holding() && Run(start, es, View())
      {
        es := LetAll(input.between(BeforeReading(i)), start, es);
        var vbus := input.vbusMv(i);
        if vbus < 0 {
          NeverSettles(input.vbusMv, mv, i);
          return EIO, es;
        }
        if vbus >= mv - 500 {
          break;
        }
        i := i + 1;
      }
      if i == SETTLE_TRIES {
        return ETIMEDOUT, es;
      }
      assert SettlesAt(input.vbusMv, mv, i);
      ret := Ok;
    }

    method SwitchOn(input: StartIn, ghost start: Pair, ghost before: seq<Event>) returns (ok: bool, ghost es: seq<Event>)
      requires Holding() && phase.Requested? && Run(start, before, View()) && OwnersAgree(start) && PathOpen(start)
      modifies this`faults, this`chgOn, this`phase, charger
      ensures Holding() && Run(start, es, View()) && (ok ==> phase.Powered? && chgOn)
      ensures faults >= old(faults) && (!ok ==> faults > old(faults))
    {
      es := LetAll(input.between(BeforePowerOn), start, before);
      ghost var p := View();
      if Undisturbed(start, es) {
        PathOpenInEveryRun(start, es, p);
      }
      ok := SetChgOn(true, Undisturbed(start, es));
      if ok {
        phase := Powered;
        RunSnoc(start, es, p, PowerOn);
        es := es + [PowerOn];
      }
    }

    method TurnOn(input: StartIn, ghost start: Pair, ghost before: seq<Event>) returns (ret: Ret, ghost es: seq<Event>)
      requires Holding() && phase.Requested? && Run(start, before, View()) && OwnersAgree(start) && PathOpen(start)
      modifies this`faults, this`chgOn, this`watchdog, this`phase, charger
      ensures Holding() && Run(start, es, View())
      ensures ret == Ok || ret == EIO || ret == ENOLINK
      ensures ret == Ok ==> phase.Running? && chgOn && watchdog && input.vbusPok == 1
      ensures faults >= old(faults) && (ret != Ok && input.vbusPok == 1 ==> faults > old(faults))
    {
      var ok;
      ok, es := SwitchOn(input, start, before);
      if ok {
        ok := SetWatchdog(true);
      }
      if !ok {
        return EIO, es;
      }
      es := LetAll(input.between(BeforeFinish), start, es);
      if input.vbusPok < 0 {
        return EIO, es;
      }
      if input.vbusPok != 1 {
        return ENOLINK, es;
      }
      ghost var p := View();
      phase := Running;
      RunSnoc(start, es, p, Finish);
      es := es + [Finish];
      ret := Ok;
    }

    method AimAgain(w: WorkIn)
      requires w.wantUv > 0
      modifies this`targetMv, this`targetMa
      ensures targetMv == Reaim(old(targetMv), w.wantUv, w.measuredMa, w.targetKnob)
      ensures RequestInBounds(targetMv, targetMa) && Asked(targetMv, w.currentKnob, targetMa)
    {
      var floorMv := TargetMv(w.wantUv);
      var ceilMv := CeilingMv(w.wantUv);
      var measured := w.measuredMa;
      if measured >= 0 {
        var target := TargetIbus(w.targetKnob);
        if measured < target - IBUS_TOLERANCE_MA {
          targetMv := targetMv + VSTEP_MV;
        } else if measured > target + IBUS_TOLERANCE_MA {
          targetMv := targetMv - VSTEP_MV;
        }
      }
      targetMv := Clamp(targetMv, floorMv, ceilMv);
      targetMa := RequestMa(targetMv, w.currentKnob);
      RequestCarriesFloorPower(targetMv, w.currentKnob);
      RequestIsAsked(targetMv, w.currentKnob, targetMa);
    }

    // Every second pass re-aims and refreshes the request.
    method RefreshIfDue(w: WorkIn) returns (ok: bool)
      requires Valid()
      modifies this`ppsTicks, this`targetMv, this`targetMa, this`tcpm, this`faults
      ensures Valid() && ppsTicks == (old(ppsTicks) + 1) % 2
      ensures ppsTicks == 1 ==> ok && tcpm == old(tcpm)
      ensures ppsTicks == 0 && ok ==> tcpm == old(tcpm).(ma := targetMa, mv := targetMv)
      ensures if ppsTicks == 0 && w.wantUv > 0 then
                && targetMv == Reaim(old(targetMv), w.wantUv, w.measuredMa, w.targetKnob)
                && Asked(targetMv, w.currentKnob, targetMa)
              else targetMv == old(targetMv) && targetMa == old(targetMa)
      ensures faults >= old(faults) && (!ok ==> faults > old(faults))
    {
      ok := true;
      ppsTicks := ppsTicks + 1;
      if ppsTicks >= 2 {
        ppsTicks := 0;
        if w.wantUv > 0 {
          AimAgain(w);
        }
        ok := RefreshPps();
      }
    }

    // The suspend's return, if this is where it falls.
    method CutIn(cut: Option<Cut>, at: CutAt, ghost start: Pair, ghost before: seq<Event>) returns (ghost es: seq<Event>)
      requires Valid() && Run(start, before, View())
      modifies this, charger
      ensures Valid() && Run(start, es, View()) && targetMv == old(targetMv) && targetMa == old(targetMa)
      ensures if cut.Some? && cut.value.at == at then !active && !charger.direct
              else && View() == old(View()) && active == old(active) && es == before && ppsTicks == old(ppsTicks)
                   && tcpm == old(tcpm) && watchdog == old(watchdog) && faults == old(faults)
      ensures faults >= old(faults)
    {
      es := before;
      if cut.Some? && cut.value.at == at {
        var _, _, fs := RestoreSwitching(cut.value.back, start, before);
        es := fs;
      }
    }

    // One pass of sm5440_work() while the pump runs: every pass checks the
    // readings and services the watchdog.
    method RunPass(w: WorkIn, cut: Option<Cut>) returns (delay: nat, ghost es: seq<Event>)
      requires Valid() && active
      modifies this, charger
      ensures Valid() && Run(old(View()), es, View())
      ensures cut.Some? ==> !active && !charger.direct
      ensures cut.None? ==> (active <==> delay == POLL_MS)
      ensures cut.None? && !active ==> delay == RETRY_MS && !charger.direct && ppsTicks == 0
      ensures cut.None? && !active && Healthy(w.health) ==> faults > old(faults)
      ensures active ==>
                && Healthy(w.health) && watchdog
                && charger.St() == old(charger.St()) && chgOn == old(chgOn)
                && ppsTicks == (old(ppsTicks) + 1) % 2
                && (ppsTicks == 0 ==> tcpm == old(tcpm).(ma := targetMa, mv := targetMv))
                && (ppsTicks == 1 ==> tcpm == old(tcpm))
      ensures ppsTicks == 0 && w.wantUv > 0 && active ==>
                && targetMv == Reaim(old(targetMv), w.wantUv, w.measuredMa, w.targetKnob)
                && Asked(targetMv, w.currentKnob, targetMa)
      ensures active && (ppsTicks == 1 || w.wantUv <= 0) ==> targetMv == old(targetMv) && targetMa == old(targetMa)
    {
      ghost var start := View();
      es := CutIn(cut, BeforeRefresh, start, []);
      var ok := RefreshIfDue(w);
      es := CutIn(cut, BeforeReadings, start, es);
      delay, es := CheckPass(w, cut, ok, start, es);
    }

    // The rest of it, once the request is refreshed.
    method CheckPass(w: WorkIn, cut: Option<Cut>, refreshed: bool, ghost start: Pair, ghost before: seq<Event>)
      returns (delay: nat, ghost es: seq<Event>)
      requires Valid() && Run(start, before, View())
      modifies this, charger
      ensures Valid() && Run(start, es, View())
      ensures active <==> old(active) && delay == POLL_MS && (cut.Some? ==> cut.value.at != BeforeWatchdog)
      ensures delay == POLL_MS || (delay == RETRY_MS && !active && ppsTicks == 0)
      ensures !active ==> !charger.direct
      ensures faults >= old(faults) && (delay != POLL_MS && refreshed && Healthy(w.health) ==> faults > old(faults))
      ensures active ==>
                && refreshed && Healthy(w.health) && watchdog && View() == old(View())
                && ppsTicks == old(ppsTicks) && tcpm == old(tcpm)
                && targetMv == old(targetMv) && targetMa == old(targetMa)
    {
      es := before;
      var ok := refreshed && Healthy(w.health);
      es := CutIn(cut, BeforeWatchdog, start, es);
      if ok {
        ok := SetWatchdog(true);
      }
      if ok {
        delay := POLL_MS;
      } else {
        var _, _, fs := RestoreSwitching(w.back, start, es);
        delay, es := RETRY_MS, fs;
      }
    }

    // sm5440_work()
    method Work(w: WorkIn) returns (delay: nat, ghost es: seq<Event>)
      requires Valid()
      modifies this, charger
      ensures Valid() && Run(old(View()), es, View())
      ensures !old(active) && !Eligible(w) ==> !active && View() == old(View()) && faults == old(faults)
      ensures delay == if active then 1_000 else 30_000
      ensures old(active) && active ==> Healthy(w.health)
      ensures !active && (if old(active) then Healthy(w.health) else Eligible(w) && StartsWell(w.start)) ==> faults > old(faults)
    {
      if !active {
        if !Eligible(w) {
          return RETRY_MS, [];
        }
        var ret;
        ret, es := Start(w.start);
        delay := if ret == Ok then POLL_MS else RETRY_MS;
        return;
      }
      delay, es := RunPass(w, None);
    }

    // sm5440_suspend().  It shares no lock with the work, which is only cancelled after
    // the path has been given back: a pass may be under way or still follow.  The two
    // drivers agree in every case, but a pass that finds the pump idle may start it.
    method Suspend(back: Return, overlap: Overlap) returns (ghost es: seq<Event>)
      requires Valid()
      modifies this, charger
      ensures Valid() && Run(old(View()), es, View())
      ensures overlap.NoPass? || (overlap.PassAround? && old(active)) ==> !active && !charger.direct
      ensures active ==> !overlap.NoPass? && Eligible(overlap.w)
    {
      ghost var start := View();
      es := [];
      if active && overlap.PassAround? {
        var _, fs := RunPass(overlap.w, Some(Cut(overlap.at, back)));
        return fs;
      }
      if active {
        var _, _, fs := RestoreSwitching(back, start, []);
        es := fs;
      }
      if !overlap.NoPass? {
        ghost var mid := View();
        var _, fs := Work(overlap.w);
        RunConcat(start, es, mid, fs, View());
        es := es + fs;
      }
    }

    // sm5440_cancel_work(), on removal: no pass can follow.
    method CancelWork(back: Return) returns (ghost es: seq<Event>)
      requires Valid()
      modifies this, charger
      ensures Valid() && !active && !charger.direct && Run(old(View()), es, View())
    {
      es := [];
      if active {
        var _, _, fs := RestoreSwitching(back, View(), []);
        es := fs;
      }
    }
  }
}
