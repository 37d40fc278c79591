// The learned full-scale of the battery gauge: at each full indication the raw
// state of charge becomes the new hundred percent, and sysfs may restore a saved
// scale while the battery is not full.  Raw values are tenths of a percent.

module LearnedCapacity {
  import opened CTypes

  const MIN_SCALE := 700
  const MAX_SCALE := 1000
  const INITIAL_SCALE := 990

  // (raw * 10) >> 8 of the gauge's unsigned Q8.8 percentage
  function RawSoc(raw: u16): (soc: nat)
    ensures soc <= 2559 && 256 * soc <= 10 * raw < 256 * (soc + 1)
  {
    raw * 10 / 256
  }

  function Learned(soc: nat): int {
    Clamp(soc * 100 / 102, MIN_SCALE, MAX_SCALE)
  }

  // A full indication below 70.0 % raw is not believed.
  predicate CountsAsFull(soc: nat, full: bool) {
    full && soc >= 700
  }

  // The scale a full sample teaches: the one on which it reads 102 %, rounded down and
  // kept within 70.0 % and 100.0 %.
  predicate Teaches(soc: nat, maximum: int) {
    if soc < 714 then maximum == 700
    else if soc < 1020 then 102 * maximum <= 100 * soc < 102 * (maximum + 1)
    else maximum == 1000
  }

  lemma LearnedIsTaught(soc: nat, maximum: int)
    ensures Teaches(soc, maximum) <==> maximum == Learned(soc)
  {
  }

  lemma MoreTeachesMore(soc: nat, more: nat)
    requires soc <= more
    ensures Learned(soc) <= Learned(more)
  {
  }

  datatype Scale = Scale(maximum: int, wasFull: bool)
  datatype Event = Sample(soc: nat, full: bool) | Store(value: int)

  ghost predicate InRange(s: Scale) {
    MIN_SCALE <= s.maximum <= MAX_SCALE
  }

  function Next(s: Scale, e: Event): Scale {
    match e
    case Sample(soc, full) =>
      if CountsAsFull(soc, full) then
        Scale(if !s.wasFull || Learned(soc) > s.maximum then Learned(soc) else s.maximum, true)
      else Scale(s.maximum, false)
    case Store(value) =>
      if MIN_SCALE <= value <= MAX_SCALE && !s.wasFull then s.(maximum := value) else s
  }

  class Gauge {
    var maximum: int
    var wasFull: bool

    function State(): Scale
      reads this
    {
      Scale(maximum, wasFull)
    }

    constructor Probe()
      ensures State() == Scale(990, false)
    {
      maximum, wasFull := INITIAL_SCALE, false;
    }

    // sm5714_capacity_scaled()
    method Scaled(soc: nat, full: bool) returns (percent: int)
      requires InRange(State())
      modifies this
      ensures State() == Next(old(State()), Sample(soc, full)) && InRange(State())
      ensures 0 <= percent <= 100
      ensures percent == 100 <==> soc >= maximum
      ensures percent < 100 ==> percent * maximum <= soc * 100 < (percent + 1) * maximum
      ensures wasFull <==> full && soc >= 700
      ensures wasFull && !old(wasFull) ==> Teaches(soc, maximum) && percent == 100
      ensures wasFull && old(wasFull) ==> maximum >= old(maximum) && forall m :: Teaches(soc, m) ==> m <= maximum
      ensures wasFull && maximum > old(maximum) ==> Teaches(soc, maximum)
      ensures !wasFull ==> maximum == old(maximum)
    {
      LearnedIsTaught(soc, Learned(soc));
      var learned := Clamp(soc * 100 / 102, MIN_SCALE, MAX_SCALE);
      var isFull := full && soc >= 700;
      if isFull && (!wasFull || learned > maximum) {
        maximum := learned;
      }
      wasFull := isFull;
      if isFull {
        LearnedBelowSoc(soc);
      }
      Quotient(soc * 100, maximum);
      percent := Clamp(soc * 100 / maximum, 0, 100);
    }

    // capacity_max_store()
    method StoreMaximum(value: int) returns (ok: bool)
      modifies this
      ensures ok <==> 700 <= value <= 1000
      ensures wasFull == old(wasFull) && maximum == if ok && !wasFull then value else old(maximum)
      ensures State() == Next(old(State()), Store(value))
    {
      if value < MIN_SCALE || value > MAX_SCALE {
        return false;
      }
      if !wasFull {
        maximum := value;
      }
      ok := true;
    }
  }

  lemma Quotient(n: nat, d: int)
    requires 0 < d
    ensures n / d * d <= n < (n / d + 1) * d
    ensures n / d >= 100 <==> n >= 100 * d
  {
  }

  // What a full sample teaches never exceeds the sample itself.
  lemma LearnedBelowSoc(soc: nat)
    requires soc >= 700
    ensures MIN_SCALE <= Learned(soc) <= soc && Learned(soc) <= MAX_SCALE
  {
  }

  function After(s: Scale, es: seq<Event>): Scale {
    if es == [] then s else Next(After(s, es[..|es| - 1]), es[|es| - 1])
  }

  lemma {:induction false} ScaleStaysInRange(s: Scale, es: seq<Event>)
    requires InRange(s)
    ensures InRange(After(s, es))
  {
    if es != [] {
      ScaleStaysInRange(s, es[..|es| - 1]);
      var e := es[|es| - 1];
      if e.Sample? && CountsAsFull(e.soc, e.full) {
        LearnedBelowSoc(e.soc);
      }
    }
  }

  // From a sample at index start on, every sample is full and at 70.0 % or more.
  ghost predicate EpisodeFrom(es: seq<Event>, start: nat) {
    && start < |es| && es[start].Sample?
    && (forall i :: start <= i < |es| && es[i].Sample? ==> es[i].full && es[i].soc >= 700)
  }

  // In a full episode the scale is exactly what the greatest of the episode's samples
  // teaches; sysfs stores in between, whatever they say, leave no trace in it.
  lemma {:induction false} ScaleIsEpisodeMaximum(s: Scale, es: seq<Event>) returns (start: nat, best: nat)
    requires !s.wasFull && After(s, es).wasFull
    ensures EpisodeFrom(es, start) && !After(s, es[..start]).wasFull
    ensures start <= best < |es| && es[best].Sample? && Teaches(es[best].soc, After(s, es).maximum)
    ensures forall i :: start <= i < |es| && es[i].Sample? ==> es[i].soc <= es[best].soc
  {
    var n := |es| - 1;
    var before, e := es[..n], es[n];
    if !After(s, before).wasFull {
      start, best := n, n;
      LearnedIsTaught(e.soc, Learned(e.soc));
    } else {
      start, best := ScaleIsEpisodeMaximum(s, before);
      assert before[..start] == es[..start];
      assert forall i :: 0 <= i < n ==> before[i] == es[i];
      LearnedIsTaught(es[best].soc, After(s, before).maximum);
      if e.Sample? {
        LearnedIsTaught(e.soc, Learned(e.soc));
        if e.soc > es[best].soc {
          MoreTeachesMore(es[best].soc, e.soc);
          best := n;
        } else {
          MoreTeachesMore(e.soc, es[best].soc);
        }
      }
    }
  }
}
