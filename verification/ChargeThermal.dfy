// The thermal automaton of the SM5714 switching charger: temperatures in tenths
// of a degree, a reduced-current band and a hard stop, each with hysteresis.

module ChargeThermal {
  import opened CTypes

  datatype Thermal = Normal | Reduced | Stop

  // sm5714_charge_thermal_state()
  function NextThermal(state: Thermal, temp: int): Thermal {
    if state == Stop && temp >= 460 then Stop
    else if state == Stop && temp > 420 then Reduced
    else if state == Reduced && temp > 420 then (if temp >= 500 then Stop else Reduced)
    else if temp >= 500 then Stop
    else if temp >= 460 then Reduced
    else Normal
  }

  function After(readings: seq<int>): Thermal {
    if readings == [] then Normal
    else NextThermal(After(readings[..|readings| - 1]), readings[|readings| - 1])
  }

  // ---------- What the state says about the whole history ----------

  // Some reading reached 50.0 C and none after it fell below 46.0 C.
  ghost predicate Overheated(readings: seq<int>) {
    exists i :: 0 <= i < |readings| && readings[i] >= 500 && forall j :: i < j < |readings| ==> readings[j] >= 460
  }

  // Every reading that reached 46.0 C was followed by one at or below 42.0 C.
  ghost predicate CooledDown(readings: seq<int>) {
    forall i :: 0 <= i < |readings| && readings[i] >= 460 ==> exists j :: i < j < |readings| && readings[j] <= 420
  }

  lemma OverheatedSnoc(prefix: seq<int>, temp: int)
    ensures Overheated(prefix + [temp]) <==> temp >= 500 || (temp >= 460 && Overheated(prefix))
  {
    var ts, n := prefix + [temp], |prefix|;
    assert ts[n] == temp;
    if temp >= 460 && Overheated(prefix) {
      var i :| 0 <= i < n && prefix[i] >= 500 && forall j :: i < j < n ==> prefix[j] >= 460;
      assert ts[i] >= 500;
    }
    if Overheated(ts) && temp < 500 {
      var i :| 0 <= i < |ts| && ts[i] >= 500 && forall j :: i < j < |ts| ==> ts[j] >= 460;
      assert i < n && prefix[i] >= 500;
      assert forall j :: i < j < n ==> prefix[j] == ts[j];
    }
  }

  lemma CooledDownSnoc(prefix: seq<int>, temp: int)
    ensures CooledDown(prefix + [temp]) <==> temp <= 420 || (temp < 460 && CooledDown(prefix))
  {
    var ts, n := prefix + [temp], |prefix|;
    assert ts[n] == temp;
    if temp <= 420 {
      forall i | 0 <= i < |ts| && ts[i] >= 460
        ensures exists j :: i < j < |ts| && ts[j] <= 420
      {
        assert i < n;
      }
    } else {
      if temp < 460 && CooledDown(prefix) {
        forall i | 0 <= i < |ts| && ts[i] >= 460
          ensures exists j :: i < j < |ts| && ts[j] <= 420
        {
          assert prefix[i] >= 460;
          var j :| i < j < n && prefix[j] <= 420;
          assert ts[j] <= 420;
        }
      }
      if CooledDown(ts) {
        assert temp < 460;
        forall i | 0 <= i < n && prefix[i] >= 460
          ensures exists j :: i < j < n && prefix[j] <= 420
        {
          assert ts[i] >= 460;
          var j :| i < j < |ts| && ts[j] <= 420;
          assert j < n && prefix[j] <= 420;
        }
      }
    }
  }

  // One step, seen from the two outer states.
  lemma NextFromState(state: Thermal, temp: int)
    ensures NextThermal(state, temp) == Stop <==> temp >= 500 || (temp >= 460 && state == Stop)
    ensures NextThermal(state, temp) == Normal <==> temp <= 420 || (temp < 460 && state == Normal)
  {
  }

  // The automaton's state is a property of the readings alone: charging is
  // stopped exactly while a reading of 50.0 C has not been answered by one below
  // 46.0 C, and runs at full current exactly while every reading of 46.0 C has
  // been answered by one at or below 42.0 C.
  lemma {:induction false} StateFromHistory(readings: seq<int>)
    ensures After(readings) == Stop <==> Overheated(readings)
    ensures After(readings) == Normal <==> CooledDown(readings)
  {
    if readings != [] {
      var n := |readings| - 1;
      var prefix, temp := readings[..n], readings[n];
      StateFromHistory(prefix);
      NextFromState(After(prefix), temp);
      OverheatedSnoc(prefix, temp);
      CooledDownSnoc(prefix, temp);
      assert prefix + [temp] == readings;
    }
  }

  // ---------- No chatter ----------

  function Level(state: Thermal): nat {
    match state case Normal => 0 case Reduced => 1 case Stop => 2
  }

  // The total downward movement of the readings.
  function Cooling(readings: seq<int>): nat {
    var n := |readings|;
    if n < 2 then 0
    else Cooling(readings[..n - 1]) + Max(0, readings[n - 2] - readings[n - 1])
  }

  // The number of levels recovered over the trace.
  function Recovered(readings: seq<int>): nat {
    var n := |readings|;
    if n == 0 then 0
    else Recovered(readings[..n - 1]) + Max(0, Level(After(readings[..n - 1])) - Level(After(readings)))
  }

  // Cooling already paid towards the next recovery.
  function Credit(state: Thermal, temp: int): nat {
    match state
    case Normal => 0
    case Reduced => Max(0, 460 - temp)
    case Stop => Max(0, 500 - temp)
  }

  lemma {:induction false} CoolingCoversCredit(readings: seq<int>)
    requires readings != []
    ensures Cooling(readings) >= 40 * Recovered(readings) + Credit(After(readings), readings[|readings| - 1])
  {
    var n := |readings| - 1;
    if n > 0 {
      CoolingCoversCredit(readings[..n]);
      assert readings[..n][n - 1] == readings[n - 1];
    } else {
      assert readings[..0] == [];
    }
  }

  // Each level won back has cost at least 4.0 C of falling readings, over any
  // trace: the state cannot chatter faster than the battery cools.
  lemma NoChatter(readings: seq<int>)
    ensures Cooling(readings) >= 40 * Recovered(readings)
  {
    if readings != [] {
      CoolingCoversCredit(readings);
    }
  }
}
