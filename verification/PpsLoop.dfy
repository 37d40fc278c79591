// The programmable-supply arithmetic of the SM5440 direct charger: what voltage
// and current it requests for a battery, and the regulation loop that steps the
// voltage until the pump's input current arrives.  Millivolts and milliamperes,
// except where a name says uv.

module PpsLoop {
  import opened CTypes

  const VSTEP_MV := 40
  const IBUS_TOLERANCE_MA := 150
  const INITIAL_HEADROOM_MV := 1100
  const MAX_HEADROOM_MV := 2000
  const MIN_PPS_MV := 8200
  const MAX_PPS_MV := 10500
  const FLOOR_POWER_UW := 15000000

  // target_ibus_ma and pps_op_curr_ma are unsigned module parameters; the clamp
  // reads them as int.
  function TargetIbus(knob: u32): int {
    Clamp(ToInt32(knob), 800, 4000)
  }

  function OpCurrent(knob: u32): int {
    Clamp(ToInt32(knob), 1000, 5000)
  }

  // sm5440_target_mv(): twice the battery plus headroom, in steps of 20 mV.
  function TargetMv(packUv: nat): int {
    Clamp(DivRoundUp(packUv / 1000 * 2 + INITIAL_HEADROOM_MV, 20) * 20, MIN_PPS_MV, MAX_PPS_MV)
  }

  function CeilingMv(packUv: nat): int {
    Min(packUv / 1000 * 2 + MAX_HEADROOM_MV, MAX_PPS_MV)
  }

  // sm5440_request_ma(): the knob, but never less than the 15 W floor needs, in
  // steps of 50 mA.
  function RequestMa(targetMv: int, knob: u32): int
    requires 0 < targetMv
  {
    Max(OpCurrent(knob), DivRoundUp(DivRoundUp(FLOOR_POWER_UW, targetMv), 50) * 50)
  }

  // One refresh: step towards the wanted current, then keep within the limits
  // the battery sets.  A negative reading is a failed conversion and steps nothing.
  function Reaim(targetMv: int, packUv: nat, measuredMa: int, knob: u32): int {
    var stepped :=
      if measuredMa < 0 then targetMv
      else if measuredMa < TargetIbus(knob) - IBUS_TOLERANCE_MA then targetMv + VSTEP_MV
      else if measuredMa > TargetIbus(knob) + IBUS_TOLERANCE_MA then targetMv - VSTEP_MV
      else targetMv;
    Clamp(stepped, TargetMv(packUv), CeilingMv(packUv))
  }

  // ---------- What the knobs and the battery ask for ----------

  // A knob in its range is taken as it is and a larger one as the end of the range;
  // one that does not fit an int reads as negative and counts as the least.
  predicate Taken(knob: u32, low: nat, high: nat, ma: int) {
    ma == if knob >= 0x8000_0000 || knob < low then low else if knob > high then high else knob
  }

  lemma KnobsAreTaken(knob: u32)
    ensures Taken(knob, 1000, 5000, OpCurrent(knob)) && Taken(knob, 800, 4000, TargetIbus(knob))
  {
  }

  // The least multiple of 50 mA that carries 15 W at mv.
  predicate LeastCarrying(mv: int, ma: int) {
    ma % 50 == 0 && mv * ma >= 15_000_000 && mv * (ma - 50) < 15_000_000
  }

  // What is asked for at mv: the knob, if its whole steps of 50 mA carry 15 W, and the
  // least current that does otherwise.
  ghost predicate Asked(mv: int, knob: u32, ma: int) {
    forall want :: Taken(knob, 1000, 5000, want) ==>
      if mv * (want / 50 * 50) >= 15_000_000 then ma == want else LeastCarrying(mv, ma)
  }

  // ma is asked for exactly if it is what sm5440_request_ma() yields.
  lemma RequestIsAsked(mv: int, knob: u32, ma: int)
    requires 0 < mv
    ensures Asked(mv, knob, ma) <==> ma == RequestMa(mv, knob)
  {
    var want := OpCurrent(knob);
    KnobsAreTaken(knob);
    var least := DivRoundUp(FLOOR_POWER_UW, mv);
    var floor := DivRoundUp(least, 50) * 50;
    FloorCarriesLeast(mv);
    if mv * (want / 50 * 50) >= 15_000_000 {
      CarryingIsOrdered(mv, floor, want / 50 * 50);
    } else {
      NotCarryingIsOrdered(mv, floor, want / 50 * 50);
      assert floor >= want / 50 * 50 + 50 > want;
      if LeastCarrying(mv, ma) {
        CarryingIsOrdered(mv, floor, ma);
        CarryingIsOrdered(mv, ma, floor);
      }
    }
  }

  lemma FloorCarriesLeast(mv: int)
    requires 0 < mv
    ensures LeastCarrying(mv, DivRoundUp(DivRoundUp(FLOOR_POWER_UW, mv), 50) * 50)
  {
    var least := DivRoundUp(FLOOR_POWER_UW, mv);
    var floor := DivRoundUp(least, 50) * 50;
    RoundUpBounds(FLOOR_POWER_UW, mv);
    RoundUpBounds(least, 50);
    MulMonotone(least, floor, mv);
    MulMonotone(floor - 50, least - 1, mv);
    assert floor * mv == mv * floor && (floor - 50) * mv == mv * (floor - 50);
    assert (least - 1) * mv == least * mv - mv;
  }

  lemma CarryingIsOrdered(mv: int, least: int, ma: int)
    requires 0 < mv && LeastCarrying(mv, least) && ma % 50 == 0 && mv * ma >= 15_000_000
    ensures least <= ma
  {
    LessByProduct(mv, least - 50, ma);
  }

  lemma NotCarryingIsOrdered(mv: int, least: int, ma: int)
    requires 0 < mv && LeastCarrying(mv, least) && ma % 50 == 0 && mv * ma < 15_000_000
    ensures ma + 50 <= least
  {
    LessByProduct(mv, ma, least);
  }

  lemma LessByProduct(m: int, a: int, b: int)
    requires 0 < m && m * a < m * b
    ensures a < b
  {
  }

  // The voltage aimed at is the least multiple of 20 mV that is twice the battery and
  // 1100 mV more, kept within 8.2 V and 10.5 V; the ceiling is 2000 mV more, at most
  // 10.5 V.  Batteries count in whole millivolts.
  lemma TargetsOfBattery(batteryMv: nat, rest: nat)
    requires rest < 1000
    ensures var mv, wanted := TargetMv(batteryMv * 1000 + rest), 2 * batteryMv + 1100;
            && (mv == 10500 || mv % 20 == 0) && 8200 <= mv <= 10500
            && (mv < 10500 ==> wanted <= mv)
            && (mv > 8200 ==> mv - 20 < wanted)
    ensures var ceiling := CeilingMv(batteryMv * 1000 + rest);
            ceiling == if 2 * batteryMv + 2000 <= 10500 then 2 * batteryMv + 2000 else 10500
  {
    assert (batteryMv * 1000 + rest) / 1000 == batteryMv;
    RoundUpBounds(2 * batteryMv + 1100, 20);
  }

  // One refresh moves the target by 40 mV towards the wanted current, or not at all
  // within 150 mA of it or without a reading, unless a limit is in the way.
  lemma ReaimMoves(mv: int, packUv: nat, measuredMa: int, knob: u32)
    requires TargetMv(packUv) <= mv <= CeilingMv(packUv)
    ensures var next, wanted := Reaim(mv, packUv, measuredMa, knob), TargetIbus(knob);
            && (0 <= measuredMa < wanted - 150 ==> next == Min(mv + 40, CeilingMv(packUv)))
            && (measuredMa > wanted + 150 ==> next == Max(mv - 40, TargetMv(packUv)))
            && (measuredMa < 0 || wanted - 150 <= measuredMa <= wanted + 150 ==> next == mv)
  {
  }

  // ---------- Bounds of a request ----------

  // The limits are in order exactly from a battery voltage of 3100 mV up.
  lemma LimitsOrderedExactly(packUv: nat)
    ensures TargetMv(packUv) <= CeilingMv(packUv) <==> packUv / 1000 >= 3100
  {
  }

  lemma RoundUpBounds(n: nat, d: nat)
    requires 0 < d
    ensures n <= DivRoundUp(n, d) * d < n + d
  {
  }

  // The smallest multiple of d that is at least n.
  lemma RoundUpLeast(n: nat, d: nat, k: int)
    requires 0 < d && k * d >= n
    ensures DivRoundUp(n, d) <= k
  {
    RoundUpBounds(n, d);
    if k < DivRoundUp(n, d) {
      MulMonotone(k, DivRoundUp(n, d) - 1, d);
    }
  }

  lemma MulMonotone(a: int, b: int, d: nat)
    requires a <= b
    ensures a * d <= b * d
  {
  }

  // Whatever the loop was aiming at before and whatever it measures, the request
  // stays between twice the battery plus its headrooms and never passes 10.5 V.
  lemma ReaimBounds(targetMv: int, packUv: nat, measuredMa: int, knob: u32)
    requires packUv / 1000 >= 3100
    ensures var mv := Reaim(targetMv, packUv, measuredMa, knob);
            && TargetMv(packUv) <= mv <= CeilingMv(packUv) <= MAX_PPS_MV
            && MIN_PPS_MV <= mv
            && (mv >= packUv / 1000 * 2 + INITIAL_HEADROOM_MV || mv == MAX_PPS_MV)
            && mv <= packUv / 1000 * 2 + MAX_HEADROOM_MV
  {
  }

  // The requested current carries at least 15 W, and beyond what the knob asks
  // it is the least multiple of 50 mA that does.
  lemma RequestCarriesFloorPower(targetMv: int, knob: u32)
    requires 0 < targetMv
    ensures targetMv * RequestMa(targetMv, knob) >= FLOOR_POWER_UW
    ensures 1000 <= OpCurrent(knob) <= RequestMa(targetMv, knob)
    ensures forall k: nat :: targetMv * (k * 50) >= FLOOR_POWER_UW && k * 50 >= OpCurrent(knob)
              ==> RequestMa(targetMv, knob) <= k * 50
  {
    var least := DivRoundUp(FLOOR_POWER_UW, targetMv);
    RoundUpBounds(FLOOR_POWER_UW, targetMv);
    RoundUpBounds(least, 50);
    MulMonotone(least, RequestMa(targetMv, knob), targetMv);
    forall k: nat | targetMv * (k * 50) >= FLOOR_POWER_UW && k * 50 >= OpCurrent(knob)
      ensures RequestMa(targetMv, knob) <= k * 50
    {
      assert (k * 50) * targetMv == targetMv * (k * 50);
      RoundUpLeast(FLOOR_POWER_UW, targetMv, k * 50);
      RoundUpLeast(least, 50, k);
    }
  }

  // ---------- Convergence ----------

  // The steady input current as a function of the requested voltage: it does not
  // fall when the voltage rises, and one step moves it by no more than the width
  // of the tolerance band.
  ghost predicate Admissible(plant: int -> int) {
    && (forall v :: plant(v) >= 0)
    && (forall u, v :: u <= v ==> plant(u) <= plant(v))
    && (forall v :: plant(v + VSTEP_MV) <= plant(v) + 2 * IBUS_TOLERANCE_MA)
  }

  ghost function Iterate(targetMv: int, packUv: nat, plant: int -> int, knob: u32, n: nat): int
    decreases n
  {
    if n == 0 then targetMv
    else Iterate(Reaim(targetMv, packUv, plant(targetMv), knob), packUv, plant, knob, n - 1)
  }

  ghost predicate TooLow(mv: int, plant: int -> int, knob: u32) {
    plant(mv) < TargetIbus(knob) - IBUS_TOLERANCE_MA
  }

  ghost predicate TooHigh(mv: int, plant: int -> int, knob: u32) {
    plant(mv) > TargetIbus(knob) + IBUS_TOLERANCE_MA
  }

  // Within the limits, and either in the tolerance band or pinned to the rail
  // that keeps the band out of reach.
  ghost predicate Settled(mv: int, packUv: nat, plant: int -> int, knob: u32) {
    && TargetMv(packUv) <= mv <= CeilingMv(packUv)
    && (TooLow(mv, plant, knob) ==> mv == CeilingMv(packUv))
    && (TooHigh(mv, plant, knob) ==> mv == TargetMv(packUv))
  }

  // Settled targets are exactly the ones a refresh leaves alone.
  lemma SettledExactlyFixed(mv: int, packUv: nat, plant: int -> int, knob: u32)
    requires packUv / 1000 >= 3100 && Admissible(plant)
    ensures Settled(mv, packUv, plant, knob) <==> Reaim(mv, packUv, plant(mv), knob) == mv
  {
  }

  lemma {:induction false} SettledStays(mv: int, packUv: nat, plant: int -> int, knob: u32, n: nat)
    requires packUv / 1000 >= 3100 && Admissible(plant) && Settled(mv, packUv, plant, knob)
    ensures Iterate(mv, packUv, plant, knob, n) == mv
  {
    if n > 0 {
      SettledExactlyFixed(mv, packUv, plant, knob);
      SettledStays(mv, packUv, plant, knob, n - 1);
    }
  }

  // Climbing never overshoots the band.
  lemma {:induction false} Climbs(mv: int, packUv: nat, plant: int -> int, knob: u32, n: nat)
    requires packUv / 1000 >= 3100 && Admissible(plant)
    requires TargetMv(packUv) <= mv <= CeilingMv(packUv) && TooLow(mv, plant, knob)
    requires CeilingMv(packUv) - mv <= n * VSTEP_MV
    ensures Settled(Iterate(mv, packUv, plant, knob, n), packUv, plant, knob)
    decreases n
  {
    if mv == CeilingMv(packUv) {
      SettledStays(mv, packUv, plant, knob, n);
      return;
    }
    assert plant(mv) >= 0;
    LimitsOrderedExactly(packUv);
    var next := Reaim(mv, packUv, plant(mv), knob);
    assert next == Min(mv + VSTEP_MV, CeilingMv(packUv));
    assert plant(next) <= plant(mv + VSTEP_MV) <= plant(mv) + 2 * IBUS_TOLERANCE_MA;
    if TooLow(next, plant, knob) {
      Climbs(next, packUv, plant, knob, n - 1);
    } else {
      SettledStays(next, packUv, plant, knob, n - 1);
    }
  }

  lemma {:induction false} Descends(mv: int, packUv: nat, plant: int -> int, knob: u32, n: nat)
    requires packUv / 1000 >= 3100 && Admissible(plant)
    requires TargetMv(packUv) <= mv <= CeilingMv(packUv) && TooHigh(mv, plant, knob)
    requires mv - TargetMv(packUv) <= n * VSTEP_MV
    ensures Settled(Iterate(mv, packUv, plant, knob, n), packUv, plant, knob)
    decreases n
  {
    if mv == TargetMv(packUv) {
      SettledStays(mv, packUv, plant, knob, n);
      return;
    }
    LimitsOrderedExactly(packUv);
    var next := Reaim(mv, packUv, plant(mv), knob);
    assert next == Max(mv - VSTEP_MV, TargetMv(packUv));
    assert plant(mv - VSTEP_MV + VSTEP_MV) <= plant(mv - VSTEP_MV) + 2 * IBUS_TOLERANCE_MA;
    assert plant(next) >= plant(mv - VSTEP_MV) >= plant(mv) - 2 * IBUS_TOLERANCE_MA;
    if TooHigh(next, plant, knob) {
      Descends(next, packUv, plant, knob, n - 1);
    } else {
      SettledStays(next, packUv, plant, knob, n - 1);
    }
  }

  // From any target, with the battery voltage fixed, the loop is settled after one
  // refresh for every 40 mV between the limits and two more, and never moves
  // again: there is no limit cycle.
  lemma LoopConverges(mv: int, packUv: nat, plant: int -> int, knob: u32, n: nat)
    requires packUv / 1000 >= 3100 && Admissible(plant)
    requires n >= (CeilingMv(packUv) - TargetMv(packUv)) / VSTEP_MV + 2
    ensures Settled(Iterate(mv, packUv, plant, knob, n), packUv, plant, knob)
    ensures Iterate(mv, packUv, plant, knob, n + 1) == Iterate(mv, packUv, plant, knob, n)
  {
    var first := Reaim(mv, packUv, plant(mv), knob);
    ReaimBounds(mv, packUv, plant(mv), knob);
    if TooLow(first, plant, knob) {
      Climbs(first, packUv, plant, knob, n - 1);
    } else if TooHigh(first, plant, knob) {
      Descends(first, packUv, plant, knob, n - 1);
    } else {
      SettledStays(first, packUv, plant, knob, n - 1);
    }
    var last := Iterate(mv, packUv, plant, knob, n);
    IterateMore(mv, packUv, plant, knob, n);
    SettledExactlyFixed(last, packUv, plant, knob);
  }

  lemma {:induction false} IterateMore(mv: int, packUv: nat, plant: int -> int, knob: u32, n: nat)
    ensures Iterate(mv, packUv, plant, knob, n + 1) ==
            var last := Iterate(mv, packUv, plant, knob, n); Reaim(last, packUv, plant(last), knob)
    decreases n
  {
    if n > 0 {
      IterateMore(Reaim(mv, packUv, plant(mv), knob), packUv, plant, knob, n - 1);
    }
  }

  // With crossed limits convergence is lost: for every battery at or below 3080 mV
  // there is an admissible plant that swings the target between the two limits
  // for ever.
  lemma {:induction false} CrossedLimitsCycle(packUv: nat, knob: u32, n: nat)
    requires packUv / 1000 <= 3080
    ensures Admissible(v => 4151)
    ensures Iterate(CeilingMv(packUv), packUv, v => 4151, knob, 2 * n) == CeilingMv(packUv)
    ensures Iterate(CeilingMv(packUv), packUv, v => 4151, knob, 2 * n + 1) == TargetMv(packUv) != CeilingMv(packUv)
    decreases n
  {
    var plant: int -> int := v => 4151;
    var low, high := CeilingMv(packUv), TargetMv(packUv);
    RoundUpBounds(packUv / 1000 * 2 + INITIAL_HEADROOM_MV, 20);
    assert high == MIN_PPS_MV && low + VSTEP_MV <= high;
    assert Reaim(low, packUv, plant(low), knob) == high;
    assert Reaim(high, packUv, plant(high), knob) == low;
    if n > 0 {
      CrossedLimitsCycle(packUv, knob, n - 1);
      assert Iterate(low, packUv, plant, knob, 2 * n) == Iterate(high, packUv, plant, knob, 2 * n - 1);
    }
  }

  // From 3081 mV up to the ordered range the crossed limits are closer than one
  // step, and any target comes to rest within two refreshes, if only on one of
  // the limits.
  lemma NarrowlyCrossedLimitsRest(mv: int, packUv: nat, plant: int -> int, knob: u32)
    requires 3081 <= packUv / 1000 < 3100 && Admissible(plant)
    ensures var rest := Iterate(mv, packUv, plant, knob, 2);
            && Reaim(rest, packUv, plant(rest), knob) == rest
            && (rest == CeilingMv(packUv) || rest == TargetMv(packUv))
  {
  }

  // After some number of refreshes the target is left alone.
  ghost predicate ComesToRest(mv: int, packUv: nat, plant: int -> int, knob: u32) {
    exists n: nat :: RestsAfter(mv, packUv, plant, knob, n)
  }

  ghost predicate RestsAfter(mv: int, packUv: nat, plant: int -> int, knob: u32, n: nat) {
    Iterate(mv, packUv, plant, knob, n + 1) == Iterate(mv, packUv, plant, knob, n)
  }

  lemma NeverRests(packUv: nat, knob: u32)
    requires packUv / 1000 <= 3080
    ensures Admissible(v => 4151) && !ComesToRest(CeilingMv(packUv), packUv, v => 4151, knob)
  {
    CrossedLimitsCycle(packUv, knob, 0);
    var plant: int -> int := v => 4151;
    forall n: nat
      ensures !RestsAfter(CeilingMv(packUv), packUv, plant, knob, n)
    {
      CrossedLimitsCycle(packUv, knob, n / 2);
      CrossedLimitsCycle(packUv, knob, n / 2 + 1);
    }
  }

  // The exact condition: from every target and for every admissible plant the loop
  // comes to rest if and only if the battery is above 3080 mV.
  lemma RestsExactly(packUv: nat, knob: u32)
    ensures (forall mv, plant: int -> int :: Admissible(plant) ==> ComesToRest(mv, packUv, plant, knob))
            <==> packUv / 1000 > 3080
  {
    if packUv / 1000 <= 3080 {
      NeverRests(packUv, knob);
    } else {
      forall mv, plant: int -> int | Admissible(plant)
        ensures ComesToRest(mv, packUv, plant, knob)
      {
        var n: nat := 2;
        if packUv / 1000 < 3100 {
          NarrowlyCrossedLimitsRest(mv, packUv, plant, knob);
          IterateMore(mv, packUv, plant, knob, n);
        } else {
          LimitsOrderedExactly(packUv);
          n := (CeilingMv(packUv) - TargetMv(packUv)) / VSTEP_MV + 2;
          LoopConverges(mv, packUv, plant, knob, n);
        }
        assert RestsAfter(mv, packUv, plant, knob, n);
      }
    }
  }
}
