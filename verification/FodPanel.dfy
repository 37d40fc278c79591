// The fingerprint (FOD) mode of the ANA38407 panel: a short high-brightness mode
// with an optional circle, layered over the panel's prepare/enable lifetime and
// the desktop's brightness, and ended by a watchdog if nobody ends it.
//
// Every DSI write may fail.  Time is in milliseconds; delayed work runs when it
// is due.

module FodPanel {
  import opened CTypes

  const MAX_BRIGHTNESS := 0x07ff
  const FOD_BRIGHTNESS := 1623
  const FOD_WATCHDOG_MS := 15000

  // ---------- The panel ----------

  // What the DDIC holds: the 0x51 level, whether 0x53 selects high brightness,
  // and whether the circle is lit.
  datatype Glass = Glass(level: nat, hbm: bool, circle: bool)

  // 0x51 carries the level as two bytes.
  function Level(hi: nat, lo: nat): nat {
    hi * 256 + lo
  }

  const FOD_ON_WRITES := 6    // unlock, 0x53, 0x51, two parameter writes, lock
  const FOD_OFF_WRITES := 4   // unlock, 0x53, 0x51, lock

  // A FOD sequence of which `done` writes went through; the first failure skips
  // the rest.
  function FodSequence(g: Glass, on: bool, user: nat, done: nat): Glass {
    var g1 := if done > 1 then g.(hbm := on) else g;
    if done > 2 then
      g1.(level := if on then Level(FOD_BRIGHTNESS / 256, FOD_BRIGHTNESS % 256) else Level(user / 256, user % 256))
    else g1
  }

  // The circle write happens only after its unlock; the lock is always sent.
  datatype CircleIo = CircleIo(unlocked: bool, written: bool, relocked: bool) {
    predicate Ok() {
      unlocked && written && relocked
    }
  }

  function CircleSequence(g: Glass, on: bool, io: CircleIo): Glass {
    if io.unlocked && io.written then g.(circle := on) else g
  }

  // ---------- State ----------

  datatype State = State(
    glass: Glass,
    user: u16, prepared: bool, enabled: bool, fodMode: bool, fodCircle: bool,
    watchdog: Option<nat>,      // when the delayed work is due
    expired: bool,              // the work has started and waits for the lock
    now: nat, lastStore: nat,   // the clock, and the last store to a FOD control
    cancelling: bool)           // disable or unprepare is about to cancel the watchdog
  {
    predicate Fresh() {
      !prepared && !enabled && !fodMode && !fodCircle && watchdog.None? && !expired && !cancelling && user == MAX_BRIGHTNESS
    }
  }

  // Outcomes of the writes of one cleanup.
  datatype CleanupIo = CleanupIo(circle: CircleIo, fodDone: nat)

  function Cleaned(s: State, io: CleanupIo): State {
    var s1 := if s.fodCircle then s.(glass := CircleSequence(s.glass, false, io.circle), fodCircle := false) else s;
    if s1.fodMode then s1.(glass := FodSequence(s1.glass, false, s1.user, io.fodDone), fodMode := false) else s1
  }

  function WatchdogUpdated(s: State): State {
    s.(watchdog := if s.fodMode || s.fodCircle then Some(s.now + FOD_WATCHDOG_MS) else None)
  }

  datatype Event =
    | Prepare(powered: bool, initialised: bool)
    | Enable(lit: bool)
    | Disable(io: CleanupIo)
    | Unprepare(io: CleanupIo)
    | CancelWatchdog
    | BlUpdate(raw: int, written: bool)
    | FodModeStore(value: Option<bool>, done: nat, restoreDone: nat, io: CleanupIo)
    | FodCircleStore(value: Option<bool>, circle: CircleIo, restore: CircleIo)
    | Expire
    | WatchdogWork(io: CleanupIo)
    | Tick(ms: nat)

  // The display core serialises its four calls, and a disabling call returns
  // only once the watchdog is cancelled and its work over; sysfs stores, brightness
  // updates and the watchdog itself may run in between.  Work that has started may
  // have to wait for the lock behind any of them, and may be queued again meanwhile,
  // but the clock does not move while it waits.
  predicate Enabled(s: State, e: Event) {
    match e
    case Prepare(_, _) => !s.cancelling
    case Enable(_) => !s.cancelling
    case Disable(_) => !s.cancelling
    case Unprepare(_) => !s.cancelling
    case CancelWatchdog => s.cancelling && !s.expired
    case Expire => s.watchdog.Some? && s.watchdog.value <= s.now && !s.expired
    case WatchdogWork(_) => s.expired
    case Tick(ms) => !s.expired && (s.watchdog.Some? ==> s.now + ms <= s.watchdog.value)
    case _ => true
  }

  function BrightnessOf(raw: int): u16 {
    Min(raw % 0x1_0000, MAX_BRIGHTNESS)
  }

  // An ordinary value passes unchanged; one past the panel's greatest is cut to it, and
  // only the low sixteen bits count.
  lemma BrightnessPasses(raw: int)
    ensures 0 <= raw <= 2047 ==> BrightnessOf(raw) == raw
    ensures 2047 < raw < 65536 ==> BrightnessOf(raw) == 2047
    ensures BrightnessOf(raw + 65536) == BrightnessOf(raw)
  {
  }

  function ModeStored(s: State, on: bool, done: nat, restoreDone: nat, io: CleanupIo): State {
    if !s.prepared || !s.enabled then s
    else if s.fodMode == on then WatchdogUpdated(s)
    else if on then
      var glass := FodSequence(s.glass, true, s.user, done);
      if done >= FOD_ON_WRITES then WatchdogUpdated(s.(glass := glass, fodMode := true))
      else s.(glass := FodSequence(glass, false, s.user, restoreDone))
    else WatchdogUpdated(Cleaned(s, io))
  }

  // The circle follows the panel; a failed lighting is undone there.
  function CircleSet(s: State, on: bool, circle: CircleIo, restore: CircleIo): State {
    var glass := CircleSequence(s.glass, on, circle);
    if circle.Ok() then s.(glass := glass, fodCircle := on)
    else if on then s.(glass := CircleSequence(glass, false, restore))
    else s.(glass := glass)
  }

  function CircleStored(s: State, on: bool, circle: CircleIo, restore: CircleIo): State {
    if !s.prepared || !s.enabled || (on && !s.fodMode) then s
    else if s.fodCircle == on then WatchdogUpdated(s)
    else WatchdogUpdated(CircleSet(s, on, circle, restore))
  }

  function Step(s: State, e: Event): State {
    match e
    case Prepare(powered, initialised) =>
      if s.prepared || !powered || !initialised then s
      else s.(glass := Glass(Level(s.user / 256, s.user % 256), false, false), prepared := true)
    case Enable(lit) => if s.prepared && lit then s.(enabled := true) else s
    case Disable(io) =>
      (if s.enabled then Cleaned(s, io).(enabled := false) else s).(cancelling := true)
    case Unprepare(io) =>
      (if s.prepared then Cleaned(s, io).(enabled := false, prepared := false) else s).(cancelling := true)
    case CancelWatchdog => s.(watchdog := None, cancelling := false)
    case BlUpdate(raw, written) =>
      var s1 := s.(user := BrightnessOf(raw));
      if s.prepared && !s.fodMode && written then s1.(glass := s.glass.(level := s1.user)) else s1
    case FodModeStore(value, done, restoreDone, io) =>
      if value.None? then s
      else ModeStored(s.(lastStore := s.now), value.value, done, restoreDone, io)
    case FodCircleStore(value, circle, restore) =>
      if value.None? then s
      else CircleStored(s.(lastStore := s.now), value.value, circle, restore)
    case Expire => s.(watchdog := None, expired := true)
    case WatchdogWork(io) =>
      var s1 := s.(expired := false);
      if s.prepared && s.enabled then Cleaned(s1, io) else s1.(fodCircle := false, fodMode := false)
    case Tick(ms) => s.(now := s.now + ms)
  }

  // ---------- The invariant ----------

  // The circle needs the mode, the mode a lit panel, a lit panel a prepared one;
  // and while the mode is on it shows its own brightness, and the watchdog is due
  // within 15 s of the last store.
  ghost predicate Ordered(s: State) {
    && (s.fodCircle ==> s.fodMode)
    && (s.fodMode ==> s.enabled)
    && (s.enabled ==> s.prepared)
    && (s.cancelling ==> !s.enabled)
    && s.user <= MAX_BRIGHTNESS
    && s.lastStore <= s.now
    && (s.watchdog.Some? ==> s.now <= s.watchdog.value <= s.lastStore + FOD_WATCHDOG_MS)
    && (s.expired ==> s.now <= s.lastStore + FOD_WATCHDOG_MS)
    && (s.fodMode ==> (s.watchdog.Some? || s.expired) && s.glass.hbm && s.glass.level == FOD_BRIGHTNESS)
  }

  lemma StepKeepsOrder(s: State, e: Event)
    requires Ordered(s) && Enabled(s, e)
    ensures Ordered(Step(s, e))
  {
    match e
    case FodModeStore(Some(on), done, restoreDone, io) =>
      ModeStoreKeepsOrder(s.(lastStore := s.now), on, done, restoreDone, io);
    case FodCircleStore(Some(on), circle, restore) =>
      CircleStoreKeepsOrder(s.(lastStore := s.now), on, circle, restore);
    case _ =>
  }

  lemma ModeStoreKeepsOrder(s: State, on: bool, done: nat, restoreDone: nat, io: CleanupIo)
    requires Ordered(s) && s.lastStore == s.now
    ensures Ordered(ModeStored(s, on, done, restoreDone, io))
  {
  }

  lemma CircleStoreKeepsOrder(s: State, on: bool, circle: CircleIo, restore: CircleIo)
    requires Ordered(s) && s.lastStore == s.now
    ensures Ordered(CircleStored(s, on, circle, restore))
  {
  }

  // ---------- The driver object ----------

  class Panel {
    var glass: Glass
    var userBrightness: u16
    var prepared: bool
    var enabled: bool
    var fodMode: bool
    var fodCircle: bool
    var fodWatchdog: Option<nat>
    var expired: bool
    var now: nat
    var lastStore: nat
    var cancelling: bool

    function View(): State
      reads this
    {
      State(glass, userBrightness, prepared, enabled, fodMode, fodCircle, fodWatchdog, expired, now, lastStore, cancelling)
    }

    // Holds before and after every entry point.
    ghost predicate Valid()
      reads this
    {
      Ordered(View())
    }

    constructor Probe()
      ensures Valid() && View().Fresh()
    {
      glass, userBrightness := Glass(0, false, false), MAX_BRIGHTNESS;
      prepared, enabled, fodMode, fodCircle := false, false, false, false;
      fodWatchdog, expired, now, lastStore, cancelling := None, false, 0, 0, false;
    }

    // ---- write sequences ----

    method WriteFod(on: bool, done: nat) returns (ok: bool)
      modifies this`glass
      ensures ok ==> glass == Glass(if on then 1623 else userBrightness, on, old(glass.circle))
      ensures glass.circle == old(glass.circle)
      ensures glass.level != old(glass.level) ==> glass.hbm == on
      ensures glass.hbm != old(glass.hbm) ==> glass.hbm == on
      ensures glass == FodSequence(old(glass), on, userBrightness, done)
      ensures ok <==> done >= if on then 6 else 4
    {
      var hi, lo := userBrightness / 256, userBrightness % 256;
      if on {
        hi, lo := FOD_BRIGHTNESS / 256, FOD_BRIGHTNESS % 256;
      }
      if done > 1 {
        glass := glass.(hbm := on);
      }
      if done > 2 {
        glass := glass.(level := Level(hi, lo));
      }
      ok := done >= if on then FOD_ON_WRITES else FOD_OFF_WRITES;
    }

    method WriteFodCircle(on: bool, io: CircleIo) returns (ok: bool)
      modifies this`glass
      ensures glass.level == old(glass.level) && glass.hbm == old(glass.hbm)
      ensures ok ==> glass.circle == on
      ensures !io.unlocked ==> !ok && glass == old(glass)
      ensures glass == CircleSequence(old(glass), on, io) && ok == io.Ok()
    {
      ok := io.unlocked;
      if ok {
        ok := io.written;
        if ok {
          glass := glass.(circle := on);
        }
      }
      ok := ok && io.relocked;
    }

    method FodCleanup(io: CleanupIo)
      modifies this`glass, this`fodMode, this`fodCircle
      ensures !fodMode && !fodCircle
      ensures old(fodMode) && io.fodDone > 2 ==> glass.level == userBrightness && !glass.hbm
      ensures old(fodMode) && io.fodDone <= 1 ==> glass.level == old(glass.level) && glass.hbm == old(glass.hbm)
      ensures old(fodCircle) && io.circle.Ok() ==> !glass.circle
      ensures !old(fodCircle) ==> glass.circle == old(glass.circle)
      ensures !old(fodMode) ==> glass.level == old(glass.level) && glass.hbm == old(glass.hbm)
      ensures View() == Cleaned(old(View()), io)
    {
      if fodCircle {
        var _ := WriteFodCircle(false, io.circle);
        fodCircle := false;
      }
      if fodMode {
        var _ := WriteFod(false, io.fodDone);
        fodMode := false;
      }
    }

    // The watchdog is due 15 s from now, or off with both controls.
    predicate Rearmed()
      reads this
    {
      && (fodWatchdog.Some? <==> fodMode || fodCircle)
      && (fodWatchdog.Some? ==> fodWatchdog.value == now + 15_000)
    }

    method UpdateWatchdog()
      modifies this`fodWatchdog
      ensures Rearmed()
      ensures View() == WatchdogUpdated(old(View()))
    {
      if fodMode || fodCircle {
        fodWatchdog := Some(now + FOD_WATCHDOG_MS);
      } else {
        fodWatchdog := None;
      }
    }

    // ---- entry points ----

    method DoPrepare(powered: bool, initialised: bool) returns (ok: bool)
      requires Valid() && Enabled(View(), Prepare(powered, initialised))
      modifies this`glass, this`prepared
      ensures Valid() && View() == Step(old(View()), Prepare(powered, initialised))
      ensures ok <==> prepared
      ensures prepared <==> old(prepared) || (powered && initialised)
      ensures glass == if prepared && !old(prepared) then Glass(userBrightness, false, false) else old(glass)
    {
      StepKeepsOrder(View(), Prepare(powered, initialised));
      if prepared {
        return true;
      }
      if !powered {
        return false;
      }
      // Of the long initialisation only what this model keeps is shown.
      if !initialised {
        return false;
      }
      glass := Glass(Level(userBrightness / 256, userBrightness % 256), false, false);
      prepared := true;
      ok := true;
    }

    method DoEnable(lit: bool) returns (ok: bool)
      requires Valid() && Enabled(View(), Enable(lit))
      modifies this`enabled
      ensures Valid() && View() == Step(old(View()), Enable(lit))
      ensures enabled <==> old(enabled) || (lit && prepared)
    {
      StepKeepsOrder(View(), Enable(lit));
      if !prepared {
        return false;
      }
      if enabled {
        return true;
      }
      if lit {
        enabled := true;
      }
      ok := lit;
    }

    // The locked part of ana38407_disable(); the cancellation follows it.
    method DoDisable(io: CleanupIo)
      requires Valid() && Enabled(View(), Disable(io))
      modifies this
      ensures Valid() && View() == Step(old(View()), Disable(io))
      ensures !enabled && !fodMode && !fodCircle && cancelling
    {
      StepKeepsOrder(View(), Disable(io));
      if enabled {
        FodCleanup(io);
        enabled := false;
      }
      cancelling := true;
    }

    method DoUnprepare(io: CleanupIo)
      requires Valid() && Enabled(View(), Unprepare(io))
      modifies this
      ensures Valid() && View() == Step(old(View()), Unprepare(io))
      ensures !prepared && !enabled && !fodMode && !fodCircle && cancelling
    {
      StepKeepsOrder(View(), Unprepare(io));
      if prepared {
        FodCleanup(io);
        enabled := false;
        prepared := false;
      }
      cancelling := true;
    }

    method DoCancelWatchdog()
      requires Valid() && Enabled(View(), Event.CancelWatchdog)
      modifies this`fodWatchdog, this`cancelling
      ensures Valid() && View() == Step(old(View()), Event.CancelWatchdog)
      ensures fodWatchdog.None? && !fodMode && !cancelling
    {
      StepKeepsOrder(View(), Event.CancelWatchdog);
      fodWatchdog := None;
      cancelling := false;
    }

    method DoBlUpdate(raw: int, written: bool) returns (ok: bool)
      requires Valid()
      modifies this`glass, this`userBrightness
      ensures Valid() && View() == Step(old(View()), BlUpdate(raw, written))
      ensures userBrightness <= MAX_BRIGHTNESS && (fodMode ==> glass == old(glass))
      ensures 0 <= raw <= 2047 ==> userBrightness == raw
      ensures ok && prepared && !fodMode ==> glass.level == userBrightness
    {
      StepKeepsOrder(View(), BlUpdate(raw, written));
      var brightness := BrightnessOf(raw);
      ok := true;
      userBrightness := brightness;
      if prepared && !fodMode {
        if written {
          glass := glass.(level := brightness);
        }
        ok := written;
      }
    }

    method DoFodModeStore(value: Option<bool>, done: nat, restoreDone: nat, io: CleanupIo)
      requires Valid()
      modifies this
      ensures Valid() && View() == Step(old(View()), FodModeStore(value, done, restoreDone, io))
      ensures value.None? || !prepared || !enabled ==> glass == old(glass) && fodMode == old(fodMode)
      ensures value == Some(false) ==> !fodMode && !fodCircle
      ensures value == Some(true) && prepared && enabled ==> (fodMode <==> old(fodMode) || done >= FOD_ON_WRITES)
    {
      StepKeepsOrder(View(), FodModeStore(value, done, restoreDone, io));
      if value.None? {
        return;
      }
      lastStore := now;
      StoreMode(value.value, done, restoreDone, io);
    }

    // Its part under the lock
    method StoreMode(on: bool, done: nat, restoreDone: nat, io: CleanupIo)
      modifies this`glass, this`fodMode, this`fodCircle, this`fodWatchdog
      ensures prepared && enabled && fodMode == on ==> Rearmed()
      ensures View() == ModeStored(old(View()), on, done, restoreDone, io)
    {
      if !prepared || !enabled {
        return;
      }
      if fodMode == on {
        UpdateWatchdog();
        return;
      }
      if on {
        var ok := WriteFod(true, done);
        if !ok {
          var _ := WriteFod(false, restoreDone);
          return;
        }
        fodMode := true;
      } else {
        FodCleanup(io);
      }
      UpdateWatchdog();
    }

    method DoFodCircleStore(value: Option<bool>, circle: CircleIo, restore: CircleIo)
      requires Valid()
      modifies this
      ensures Valid() && View() == Step(old(View()), FodCircleStore(value, circle, restore))
      ensures fodCircle && !old(fodCircle) ==> value == Some(true) && fodMode && circle.Ok()
    {
      StepKeepsOrder(View(), FodCircleStore(value, circle, restore));
      if value.None? {
        return;
      }
      lastStore := now;
      StoreCircle(value.value, circle, restore);
    }

    method StoreCircle(on: bool, circle: CircleIo, restore: CircleIo)
      modifies this`glass, this`fodCircle, this`fodWatchdog
      ensures prepared && enabled && (on ==> fodMode) ==> Rearmed()
      ensures !prepared || !enabled || (on && !fodMode) ==> View() == old(View())
      ensures View() == CircleStored(old(View()), on, circle, restore)
    {
      if !prepared || !enabled {
        return;
      }
      if on && !fodMode {
        return;
      }
      if fodCircle == on {
        UpdateWatchdog();
        return;
      }
      SetCircle(on, circle, restore);
      UpdateWatchdog();
    }

    method SetCircle(on: bool, circle: CircleIo, restore: CircleIo)
      modifies this`glass, this`fodCircle
      ensures fodCircle == (if circle.Ok() then on else old(fodCircle))
      ensures !on ==> (glass.circle <==> old(glass.circle) && !(circle.unlocked && circle.written))
      ensures on && !circle.Ok() && restore.unlocked && restore.written ==> !glass.circle
      ensures View() == CircleSet(old(View()), on, circle, restore)
    {
      var ok := WriteFodCircle(on, circle);
      if ok {
        fodCircle := on;
      } else if on {
        var _ := WriteFodCircle(false, restore);
      }
    }

    method Elapse(ms: nat)
      requires Valid() && Enabled(View(), Tick(ms))
      modifies this`now
      ensures Valid() && View() == Step(old(View()), Tick(ms))
      ensures fodMode ==> now <= lastStore + FOD_WATCHDOG_MS
    {
      StepKeepsOrder(View(), Tick(ms));
      now := now + ms;
    }

    method WatchdogExpires()
      requires Valid() && Enabled(View(), Expire)
      modifies this`fodWatchdog, this`expired
      ensures Valid() && View() == Step(old(View()), Expire)
      ensures expired && fodWatchdog.None?
    {
      StepKeepsOrder(View(), Expire);
      fodWatchdog, expired := None, true;
    }

    // The locked part of ana38407_fod_watchdog_work()
    method DoWatchdogWork(io: CleanupIo)
      requires Valid() && Enabled(View(), WatchdogWork(io))
      modifies this
      ensures Valid() && View() == Step(old(View()), WatchdogWork(io))
      ensures !fodMode && !fodCircle && !expired && fodWatchdog == old(fodWatchdog)
    {
      StepKeepsOrder(View(), WatchdogWork(io));
      expired := false;
      if prepared && enabled {
        FodCleanup(io);
      } else {
        fodCircle := false;
        fodMode := false;
      }
    }
  }

  // ---------- Safety over whole runs ----------

  predicate Run(s: State, es: seq<Event>, t: State)
    decreases |es|
  {
    if es == [] then s == t
    else Enabled(s, es[0]) && Run(Step(s, es[0]), es[1..], t)
  }

  // Whatever writes fail: in every reachable state the circle is only on inside
  // the mode, the mode only on a prepared and enabled panel, with its own brightness
  // showing, and never for longer than 15 s after the last store to either control.
  lemma {:induction false} FodIsOrderedAndBounded(s: State, es: seq<Event>, t: State)
    requires Ordered(s) && Run(s, es, t)
    ensures (t.fodCircle ==> t.fodMode) && (t.fodMode ==> t.enabled) && (t.enabled ==> t.prepared)
    ensures t.fodMode ==> t.now <= t.lastStore + FOD_WATCHDOG_MS
    ensures t.fodMode ==> t.glass.hbm && t.glass.level == FOD_BRIGHTNESS
    ensures Ordered(t)
    decreases |es|
  {
    if es != [] {
      StepKeepsOrder(s, es[0]);
      FodIsOrderedAndBounded(Step(s, es[0]), es[1..], t);
    }
  }

  // And the watchdog always gets there: from any state with the mode on and nobody else
  // about, the clock can run up to its deadline, the work start, and the mode end.
  lemma WatchdogEndsTheMode(s: State, io: CleanupIo)
    requires Ordered(s) && s.fodMode && !s.expired
    ensures s.watchdog.Some? && s.now <= s.watchdog.value <= s.lastStore + 15_000
    ensures var wait := Tick(s.watchdog.value - s.now);
            var due := Step(s, wait);
            var started := Step(due, Expire);
            && Enabled(s, wait) && Enabled(due, Expire) && Enabled(started, WatchdogWork(io))
            && !Step(started, WatchdogWork(io)).fodMode
  {
  }

  // The 15 s are an upper bound only: a store that gets the lock before work that has
  // started re-arms the watchdog, but the work ends the mode all the same, whether the
  // store entered it or found it on.
  lemma StartedWorkEndsTheMode(s: State, restoreDone: nat, io: CleanupIo, done: CleanupIo)
    requires Ordered(s) && s.expired && s.enabled
    ensures var stored := Step(s, FodModeStore(Some(true), FOD_ON_WRITES, restoreDone, io));
            var t := Step(stored, WatchdogWork(done));
            && stored.fodMode && stored.watchdog == Some(s.now + FOD_WATCHDOG_MS)
            && Enabled(stored, WatchdogWork(done))
            && !t.fodMode && t.now == t.lastStore && t.watchdog == stored.watchdog
  {
  }

  // ---------- The user's brightness ----------

  // Outside the mode a prepared panel shows what the desktop last asked for, in
  // normal brightness, without a circle; inside it the circle matches its flag.
  ghost predicate Synced(s: State) {
    && (s.prepared && !s.fodMode ==> s.glass == Glass(s.user, false, false))
    && (s.fodMode ==> s.glass.circle ==> s.fodCircle)
  }

  // The writes of a cleanup that leave the panel as the desktop wants it.
  predicate CleansUp(s: State, io: CleanupIo) {
    && (io.fodDone > 2 || (io.fodDone == 2 && s.user == FOD_BRIGHTNESS))
    && (s.glass.circle ==> io.circle.unlocked && io.circle.written)
  }

  // An entry that failed after `done` writes has been undone.
  predicate Undone(s: State, done: nat, restoreDone: nat) {
    done <= 1 || restoreDone > 2 || (restoreDone == 2 && (done == 2 || s.user == FOD_BRIGHTNESS))
  }

  // What an event needs of its writes.
  predicate StaysSynced(s: State, e: Event) {
    match e
    case Disable(io) => s.fodMode ==> CleansUp(s, io)
    case WatchdogWork(io) => s.fodMode ==> CleansUp(s, io)
    case FodModeStore(Some(false), _, _, io) => s.fodMode ==> CleansUp(s, io)
    case FodModeStore(Some(true), done, restoreDone, _) =>
      s.enabled && !s.fodMode && done < FOD_ON_WRITES ==> Undone(s, done, restoreDone)
    case FodCircleStore(Some(true), circle, restore) =>
      (s.fodMode && !s.fodCircle && !circle.Ok() && circle.unlocked && circle.written ==>
         restore.unlocked && restore.written)
    case BlUpdate(raw, written) => s.prepared && !s.fodMode ==> written || BrightnessOf(raw) == s.user
    case _ => true
  }

  // An event loses the user's brightness if and only if it lacks those.
  lemma SyncLostExactly(s: State, e: Event)
    requires Ordered(s) && Enabled(s, e) && Synced(s)
    ensures Synced(Step(s, e)) <==> StaysSynced(s, e)
  {
    match e
    case FodModeStore(Some(on), done, restoreDone, io) => ModeStoreSyncs(s, on, done, restoreDone, io);
    case _ =>
  }

  lemma ModeStoreSyncs(s: State, on: bool, done: nat, restoreDone: nat, io: CleanupIo)
    requires Ordered(s) && Synced(s)
    ensures var e := FodModeStore(Some(on), done, restoreDone, io);
            Synced(Step(s, e)) <==> StaysSynced(s, e)
  {
    if on && s.enabled && !s.fodMode && done < FOD_ON_WRITES {
      FailedEntryExactly(s, done, restoreDone, io);
    }
  }

  // A failed entry is not on, and leaves the panel as it was if and only if it had
  // written nothing yet, its undoing got past the level, or it got past the bit and
  // the level was the user's anyway.
  lemma FailedEntryExactly(s: State, done: nat, restoreDone: nat, io: CleanupIo)
    requires Ordered(s) && Synced(s) && s.enabled && !s.fodMode && done < FOD_ON_WRITES
    ensures var t := Step(s, FodModeStore(Some(true), done, restoreDone, io));
            !t.fodMode && (Synced(t) <==> Undone(s, done, restoreDone))
  {
    assert Level(s.user / 256, s.user % 256) == s.user;
  }

  predicate AllStaySynced(s: State, es: seq<Event>)
    decreases |es|
  {
    es == [] || (StaysSynced(s, es[0]) && AllStaySynced(Step(s, es[0]), es[1..]))
  }

  // Over every run of such events the 0x51 level equals the latest user brightness
  // whenever the panel is prepared and not in the mode, values set while the mode was
  // on included.
  lemma {:induction false} BrightnessIsRestored(s: State, es: seq<Event>, t: State)
    requires Ordered(s) && Synced(s) && Run(s, es, t) && AllStaySynced(s, es)
    ensures Synced(t)
    decreases |es|
  {
    if es != [] {
      StepKeepsOrder(s, es[0]);
      SyncLostExactly(s, es[0]);
      BrightnessIsRestored(Step(s, es[0]), es[1..], t);
    }
  }

  // Seen from outside: the writes that bring normal mode back, and those that set the
  // brightness, go through; the ones that enter the mode or light the circle may fail.
  predicate Restores(e: Event) {
    match e
    case Disable(io) => io.circle.unlocked && io.circle.written && io.fodDone > 2
    case Unprepare(io) => true
    case BlUpdate(_, written) => written
    case FodModeStore(_, _, restoreDone, io) =>
      restoreDone > 2 && io.circle.unlocked && io.circle.written && io.fodDone > 2
    case FodCircleStore(value, circle, restore) => restore.unlocked && restore.written
    case WatchdogWork(io) => io.circle.unlocked && io.circle.written && io.fodDone > 2
    case _ => true
  }

  predicate AllRestore(es: seq<Event>) {
    forall i :: 0 <= i < |es| ==> Restores(es[i])
  }

  lemma {:induction false} RestoringRunStaysSynced(s: State, es: seq<Event>)
    requires AllRestore(es)
    ensures AllStaySynced(s, es)
    decreases |es|
  {
    if es != [] {
      assert Restores(es[0]);
      RestoringRunStaysSynced(Step(s, es[0]), es[1..]);
    }
  }

  // From probe on, with every restoring write going through.
  lemma BrightnessFromProbe(s: State, es: seq<Event>, t: State)
    requires s.Fresh() && s.lastStore <= s.now && Run(s, es, t) && AllRestore(es)
    ensures t.prepared && !t.fodMode ==> t.glass == Glass(t.user, false, false)
  {
    RestoringRunStaysSynced(s, es);
    BrightnessIsRestored(s, es, t);
  }

  // The events that end the mode of a lit panel.
  predicate Exits(e: Event, io: CleanupIo) {
    e == FodModeStore(Some(false), 0, 0, io) || e == Disable(io) || e == WatchdogWork(io)
  }

  // The driver takes a failed exit for done, so the next brightness update only
  // repairs the level: high brightness stays if and only if the exit failed before
  // or at its second write.
  lemma HighBrightnessStaysExactly(s: State, e: Event, io: CleanupIo, raw: int)
    requires Ordered(s) && s.fodMode && Enabled(s, e) && Exits(e, io)
    ensures var t := Step(Step(s, e), BlUpdate(raw, true));
            && !t.fodMode && t.prepared && t.glass.level == t.user
            && (t.glass.hbm <==> io.fodDone <= 1)
  {
  }

  // An exit ends the mode whatever its writes do, and restores the panel if and only
  // if the level write and, for a lit circle, the circle write went through.
  lemma ExitRestoresExactly(s: State, e: Event, io: CleanupIo)
    requires Ordered(s) && Synced(s) && s.fodMode && Enabled(s, e) && Exits(e, io)
    ensures !Step(s, e).fodMode && (Synced(Step(s, e)) <==> CleansUp(s, io))
  {
    SyncLostExactly(s, e);
  }
}
