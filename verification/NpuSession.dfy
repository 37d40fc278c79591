// Admission to the NPU service.  Any number of client processes of two kinds
// share a counter file under one flock, a users lock taken shared for a session
// and exclusive around a restart, and a service that may die or be started from
// outside at any moment.
//
// Every step a process takes between two points where another process or the
// service may act is one event here.

module NpuSession {
  import opened CTypes

  const CLIENT_LIMIT := 40

  // gts9u-ai.py restarts the service at the limit, gts9u-npu-app.py refuses.
  datatype Variant = Restarting | Refusing

  // How a process holds the users lock.
  datatype Mode = Free | Sharing | Excluding

  // Where a process stands.  `count` is the value it read from the file, or zero
  // once it has started the service itself.
  datatype Pc =
    | Idle
    | Locked                                    // holds the counter lock
    | Counted(count: nat)                       // has read the file
    | WantsExclusive(active: bool, count: nat)  // waiting for the users lock
    | WantsShared(count: nat)
    | Exclusive(active: bool)
    | Stopped
    | Started
    | Converting                                // exclusive lock given up, shared not yet granted
    | Shared(count: nat)
    | Polling(count: nat)                       // waiting for power-ready
    | Writing(count: nat)
    | Truncated(count: nat)                     // file emptied
    | Pending(count: nat)                       // new count in the file's buffer, not yet flushed
    | Recorded
    | Failed(users: Mode, pending: Option<nat>) // an exception on its way out, counter lock still held
    | Closing(users: Mode, pending: Option<nat>)  // counter unlocked, its file about to be closed
    | Session

  datatype Client = Client(variant: Variant, pc: Pc)
  datatype FileText = Empty | Digits(n: nat) | NotDigits

  datatype State = State(
    clients: seq<Client>,
    counterLock: Option<nat>,
    exclusive: Option<nat>,
    shared: set<nat>,
    file: FileText,
    service: bool,
    ready: bool,    // the marker the service's power keeper leaves while it serves
    granted: nat)   // counts recorded since the service last started

  datatype Action =
    | Begin(variant: Variant)
    | ReadCount
    | CheckActive
    | TakeExclusive
    | StopService
    | StartService
    | DropExclusive
    | TakeShared
    | StartIfNeeded
    | SeeReady
    | Truncate
    | Buffer
    | Record
    | Unlock
    | LateWrite     // closing the counter file flushes a count that was never flushed
    | Leave
    | Release
    | Fail          // an exception inside the try block, which closes the users file
    | Interrupt     // SIGTERM or Ctrl-C there, which does not
    | Crash         // the process dies; the kernel drops its locks

  // A service that is killed may leave its marker behind, and the power keeper of
  // a running one takes it away and puts it back around a suspend.
  datatype Event = By(c: nat, action: Action) | ServiceDies(markerLeft: bool) | ServiceStarts | MarkerSet(on: bool)

  function FileCount(f: FileText): nat {
    if f.Digits? then f.n else 0
  }

  predicate InCritical(pc: Pc) {
    !pc.Idle? && !pc.Session? && !pc.Closing?
  }

  function Holding(pc: Pc): Mode {
    match pc
    case Exclusive(_) => Excluding
    case Stopped => Excluding
    case Started => Excluding
    case Shared(_) => Sharing
    case Polling(_) => Sharing
    case Writing(_) => Sharing
    case Truncated(_) => Sharing
    case Pending(_) => Sharing
    case Recorded => Sharing
    case Session => Sharing
    case Failed(users, _) => users
    case Closing(users, _) => users
    case _ => Free
  }

  predicate HoldsExclusive(pc: Pc) {
    Holding(pc) == Excluding
  }

  predicate HoldsShared(pc: Pc) {
    Holding(pc) == Sharing
  }

  // It has emptied the file and has yet to flush its count.
  predicate Rewrites(pc: Pc) {
    pc.Truncated? || pc.Pending?
  }

  // Whether a process standing at pc may take the action now.
  predicate CanDo(s: State, pc: Pc, a: Action) {
    match a
    case Begin(_) => pc.Idle? && s.counterLock.None?
    case ReadCount => pc.Locked?
    case CheckActive => pc.Counted?
    case TakeExclusive => pc.WantsExclusive? && s.exclusive.None? && s.shared == {}
    case StopService => pc.Exclusive? && pc.active
    case StartService => (pc.Exclusive? && !pc.active) || pc.Stopped?
    case DropExclusive => pc.Started?
    case TakeShared => (pc.WantsShared? || pc.Converting?) && s.exclusive.None?
    case StartIfNeeded => pc.Shared?
    case SeeReady => pc.Polling? && s.ready
    case Truncate => pc.Writing?
    case Buffer => pc.Truncated?
    case Record => pc.Pending?
    case Unlock => pc.Recorded? || pc.Failed?
    case LateWrite => pc.Closing? && pc.pending.Some?
    case Leave => pc.Closing? && pc.pending.None?
    case Release => pc.Session?
    case Fail => InCritical(pc) && !pc.Recorded? && !pc.Failed?
    case Interrupt => InCritical(pc) && !pc.Failed?
    case Crash => true
  }

  predicate Enabled(s: State, e: Event) {
    match e
    case By(c, a) => c < |s.clients| && CanDo(s, s.clients[c].pc, a)
    case MarkerSet(on) => on ==> s.service
    case _ => true
  }

  function Move(s: State, c: nat, pc: Pc): State
    requires c < |s.clients|
  {
    s.(clients := s.clients[c := s.clients[c].(pc := pc)])
  }

  // Starting a running service does nothing; otherwise a new epoch begins, and
  // the service reports itself started only once the marker is there.
  function Start(s: State): State {
    if s.service then s else s.(service := true, ready := true, granted := 0)
  }

  // Closing the users file drops whatever lock the process had on it.
  function CloseUsers(s: State, c: nat): State {
    s.(exclusive := if s.exclusive == Some(c) then None else s.exclusive, shared := s.shared - {c})
  }

  // Where the process goes once its session is usable: the refusing client waits
  // for power-ready first.
  function AfterStart(v: Variant, count: nat): Pc {
    if v.Refusing? then Polling(count) else Writing(count)
  }

  // The branch taken on the answer of `systemctl is-active` and the count.
  function Decide(v: Variant, active: bool, count: nat): Pc {
    match v
    case Restarting =>
      if !active || count >= CLIENT_LIMIT then WantsExclusive(active, count) else WantsShared(count)
    case Refusing =>
      if active && count >= CLIENT_LIMIT then Failed(Free, None)
      else if !active then WantsExclusive(false, count)
      else WantsShared(count)
  }

  // A count that was buffered stays in the file's buffer until it is closed.
  function PendingOf(pc: Pc): Option<nat> {
    if pc.Pending? then Some(pc.count) else None
  }

  function Act(s: State, c: nat, a: Action): State
    requires c < |s.clients| && CanDo(s, s.clients[c].pc, a)
  {
    var v, pc := s.clients[c].variant, s.clients[c].pc;
    match a
    case Begin(v) => s.(clients := s.clients[c := Client(v, Locked)], counterLock := Some(c))
    case ReadCount => Move(s, c, Counted(FileCount(s.file)))
    case CheckActive => Move(s, c, Decide(v, s.service, pc.count))
    case TakeExclusive => Move(s, c, Exclusive(pc.active)).(exclusive := Some(c))
    case StopService => Move(s, c, Stopped).(service := false, ready := false)
    case StartService => Move(Start(s), c, Started)
    case DropExclusive => Move(s, c, Converting).(exclusive := None)
    case TakeShared =>
      Move(s, c, if pc.WantsShared? then Shared(pc.count) else AfterStart(v, 0)).(shared := s.shared + {c})
    case StartIfNeeded => Move(Start(s), c, AfterStart(v, pc.count))
    case SeeReady => Move(s, c, Writing(pc.count))
    case Truncate => Move(s, c, Truncated(pc.count)).(file := Empty)
    case Buffer => Move(s, c, Pending(pc.count))
    case Record => Move(s, c, Recorded).(file := Digits(pc.count + 1), granted := s.granted + 1)
    case Unlock => Move(s, c, if pc.Recorded? then Session else Closing(pc.users, pc.pending)).(counterLock := None)
    case LateWrite => Move(s, c, Closing(pc.users, None)).(file := Digits(pc.pending.value + 1))
    case Leave => Move(CloseUsers(s, c), c, Idle)
    case Release => Move(CloseUsers(s, c), c, Idle)
    case Fail => Move(CloseUsers(s, c), c, Failed(Free, PendingOf(pc)))
    case Interrupt => Move(s, c, Failed(Holding(pc), PendingOf(pc)))
    case Crash =>
      Move(CloseUsers(s, c), c, Idle)
        .(counterLock := if s.counterLock == Some(c) then None else s.counterLock)
  }

  function Next(s: State, e: Event): State
    requires Enabled(s, e)
  {
    match e
    case By(c, a) => Act(s, c, a)
    case ServiceDies(markerLeft) => s.(service := false, ready := s.ready && markerLeft)
    case ServiceStarts => Start(s)
    case MarkerSet(on) => s.(ready := on)
  }

  predicate Run(s: State, es: seq<Event>, t: State)
    decreases |es|
  {
    if es == [] then s == t
    else Enabled(s, es[0]) && Run(Next(s, es[0]), es[1..], t)
  }

  predicate Init(s: State) {
    && (forall c :: 0 <= c < |s.clients| ==> s.clients[c].pc == Idle)
    && s.counterLock == None && s.exclusive == None && s.shared == {}
    && !s.service && !s.ready && s.granted == 0
  }

  // ---------- The locks ----------

  ghost predicate LocksMatchPc(s: State, c: nat)
    requires c < |s.clients|
  {
    && (InCritical(s.clients[c].pc) <==> s.counterLock == Some(c))
    && (HoldsExclusive(s.clients[c].pc) <==> s.exclusive == Some(c))
    && (HoldsShared(s.clients[c].pc) <==> c in s.shared)
    && (s.clients[c].pc.Converting? ==> s.exclusive.None?)
  }

  ghost predicate LocksConsistent(s: State) {
    && (forall c: nat :: c < |s.clients| ==> LocksMatchPc(s, c))
    && (forall c :: c in s.shared ==> c < |s.clients|)
    && (s.exclusive.Some? ==> s.exclusive.value < |s.clients| && s.shared == {})
    && (s.counterLock.Some? ==> s.counterLock.value < |s.clients|)
  }

  // Steps that take or change a lock,
  predicate Takes(a: Action) {
    a.Begin? || a.TakeExclusive? || a.DropExclusive? || a.TakeShared?
  }

  // and those that give one up.
  predicate GivesUp(a: Action) {
    a.Unlock? || a.Leave? || a.Release? || a.Fail? || a.Crash?
  }

  lemma TakingKeepsOwnLocks(s: State, c: nat, a: Action)
    requires LocksConsistent(s) && c < |s.clients| && CanDo(s, s.clients[c].pc, a) && Takes(a)
    ensures |Act(s, c, a).clients| == |s.clients| && LocksMatchPc(Act(s, c, a), c)
  {
    assert LocksMatchPc(s, c);
  }

  lemma GivingUpKeepsOwnLocks(s: State, c: nat, a: Action)
    requires LocksConsistent(s) && c < |s.clients| && CanDo(s, s.clients[c].pc, a) && GivesUp(a)
    ensures |Act(s, c, a).clients| == |s.clients| && LocksMatchPc(Act(s, c, a), c)
  {
    assert LocksMatchPc(s, c);
  }

  predicate Prepares(a: Action) {
    a.ReadCount? || a.CheckActive? || a.StopService? || a.StartService?
  }

  lemma PreparingKeepsOwnLocks(s: State, c: nat, a: Action)
    requires LocksConsistent(s) && c < |s.clients| && CanDo(s, s.clients[c].pc, a) && Prepares(a)
    ensures |Act(s, c, a).clients| == |s.clients| && LocksMatchPc(Act(s, c, a), c)
  {
    assert LocksMatchPc(s, c);
  }

  lemma GoingOnKeepsOwnLocks(s: State, c: nat, a: Action)
    requires LocksConsistent(s) && c < |s.clients| && CanDo(s, s.clients[c].pc, a)
    requires !Takes(a) && !GivesUp(a) && !Prepares(a) && !a.Interrupt?
    ensures |Act(s, c, a).clients| == |s.clients| && LocksMatchPc(Act(s, c, a), c)
  {
    assert LocksMatchPc(s, c);
  }

  lemma InterruptKeepsOwnLocks(s: State, c: nat)
    requires LocksConsistent(s) && c < |s.clients| && CanDo(s, s.clients[c].pc, Interrupt)
    ensures var t := Act(s, c, Interrupt); |t.clients| == |s.clients| && LocksMatchPc(t, c)
  {
    assert LocksMatchPc(s, c);
  }

  lemma ActKeepsOwnLocks(s: State, c: nat, a: Action)
    requires LocksConsistent(s) && c < |s.clients| && CanDo(s, s.clients[c].pc, a)
    ensures |Act(s, c, a).clients| == |s.clients| && LocksMatchPc(Act(s, c, a), c)
  {
    if Takes(a) {
      TakingKeepsOwnLocks(s, c, a);
    } else if GivesUp(a) {
      GivingUpKeepsOwnLocks(s, c, a);
    } else if Prepares(a) {
      PreparingKeepsOwnLocks(s, c, a);
    } else if a.Interrupt? {
      InterruptKeepsOwnLocks(s, c);
    } else {
      GoingOnKeepsOwnLocks(s, c, a);
    }
  }

  lemma ActKeepsOthersLocks(s: State, c: nat, a: Action, d: nat)
    requires LocksConsistent(s) && c < |s.clients| && CanDo(s, s.clients[c].pc, a)
    requires d < |s.clients| && d != c
    ensures LocksMatchPc(Act(s, c, a), d)
  {
    assert LocksMatchPc(s, c) && LocksMatchPc(s, d);
  }

  lemma ActKeepsLocks(s: State, c: nat, a: Action)
    requires LocksConsistent(s) && c < |s.clients| && CanDo(s, s.clients[c].pc, a)
    ensures LocksConsistent(Act(s, c, a))
  {
    var t := Act(s, c, a);
    ActKeepsOwnLocks(s, c, a);
    forall d: nat | d < |t.clients|
      ensures LocksMatchPc(t, d)
    {
      if d != c {
        ActKeepsOthersLocks(s, c, a, d);
      }
    }
    assert LocksMatchPc(s, c);
  }

  lemma StepKeepsLocks(s: State, e: Event)
    requires LocksConsistent(s) && Enabled(s, e)
    ensures LocksConsistent(Next(s, e))
  {
    if e.By? {
      ActKeepsLocks(s, e.c, e.action);
    } else {
      var t := Next(s, e);
      forall d: nat | d < |t.clients|
        ensures LocksMatchPc(t, d)
      {
        assert LocksMatchPc(s, d);
      }
    }
  }

  lemma InitIsConsistent(s: State)
    requires Init(s)
    ensures Safe(s)
  {
  }

  // Only the holder of the counter lock ever competes for the users lock, so the
  // counter lock is always taken first and the two steps of turning exclusive
  // into shared cannot be split by another process.  The one that may hold the users
  // lock without it is a process interrupted there that is about to close its files.
  lemma UsersLockNeedsCounter(s: State, c: nat)
    requires LocksConsistent(s) && c < |s.clients|
    requires var pc := s.clients[c].pc; pc.WantsExclusive? || pc.WantsShared? || pc.Converting?
    ensures s.counterLock == Some(c)
    ensures forall d: nat :: d < |s.clients| && d != c ==>
              var pc := s.clients[d].pc;
              && !pc.WantsExclusive? && !pc.WantsShared? && !pc.Converting?
              && (HoldsExclusive(pc) ==> pc.Closing?)
    ensures s.clients[c].pc.Converting? ==> CanDo(s, s.clients[c].pc, TakeShared)
  {
    assert LocksMatchPc(s, c);
    forall d: nat | d < |s.clients| && d != c
      ensures var pc := s.clients[d].pc;
              && !pc.WantsExclusive? && !pc.WantsShared? && !pc.Converting?
              && (HoldsExclusive(pc) ==> pc.Closing?)
    {
      assert LocksMatchPc(s, d);
    }
  }

  // A process stops the service, or starts it under the exclusive lock, only
  // while no other process holds the users lock in either mode: no other session
  // is open, and none can open before the restart is over.
  lemma RestartIsExclusive(s: State, c: nat, d: nat)
    requires LocksConsistent(s) && c < |s.clients| && d < |s.clients| && c != d
    requires CanDo(s, s.clients[c].pc, StopService) || CanDo(s, s.clients[c].pc, StartService)
    ensures !HoldsShared(s.clients[d].pc) && !HoldsExclusive(s.clients[d].pc) && !InCritical(s.clients[d].pc)
    ensures !CanDo(s, s.clients[d].pc, TakeShared) && !CanDo(s, s.clients[d].pc, TakeExclusive)
  {
    assert LocksMatchPc(s, c);
    assert LocksMatchPc(s, d);
  }

  // ---------- The count ----------

  // n is no less than the grants of the epoch, if there is one: a count left by a
  // service that has died is not relied on, since the next client starts another.
  predicate Covers(s: State, n: nat) {
    s.service ==> s.granted <= n
  }

  // What the holder of the counter lock has established.
  ghost predicate HolderFits(s: State, pc: Pc) {
    var unspent := !s.service || s.granted == 0;
    match pc
    case Counted(n) => Covers(s, n) && Covers(s, FileCount(s.file))
    case WantsExclusive(active, _) => Covers(s, FileCount(s.file)) && (active || unspent)
    case Exclusive(active) => Covers(s, FileCount(s.file)) && (active || unspent)
    case Stopped => Covers(s, FileCount(s.file)) && unspent
    case Started => s.granted == 0
    case Converting => s.granted == 0
    case WantsShared(n) => Covers(s, n) && n < CLIENT_LIMIT && Covers(s, FileCount(s.file))
    case Shared(n) => Covers(s, n) && n < CLIENT_LIMIT && Covers(s, FileCount(s.file))
    case Polling(n) => s.granted <= n < CLIENT_LIMIT && Covers(s, FileCount(s.file))
    case Writing(n) => s.granted <= n < CLIENT_LIMIT && Covers(s, FileCount(s.file))
    case Truncated(n) => s.granted <= n < CLIENT_LIMIT
    case Pending(n) => s.granted <= n < CLIENT_LIMIT
    case _ => Covers(s, FileCount(s.file))
  }

  ghost predicate CountFits(s: State)
    requires LocksConsistent(s)
  {
    && s.granted <= CLIENT_LIMIT
    && (s.counterLock.None? ==> Covers(s, FileCount(s.file)))
    && (s.counterLock.Some? ==> HolderFits(s, s.clients[s.counterLock.value].pc))
  }

  ghost predicate Safe(s: State) {
    LocksConsistent(s) && CountFits(s)
  }

  // The process emptied the file and its count is not in it when it gives up the
  // counter lock: writing it raised or was interrupted, or the process died.
  predicate LosesRecord(s: State, e: Event) {
    && e.By? && e.c < |s.clients| && Rewrites(s.clients[e.c].pc)
    && (e.action.Fail? || e.action.Interrupt? || e.action.Crash?)
  }

  // What is then in the file falls short of what a running service has granted.
  predicate LosesCount(s: State, e: Event) {
    LosesRecord(s, e) && s.service && s.granted > FileCount(s.file)
  }

  predicate BeingRewritten(s: State) {
    s.counterLock.Some? && s.counterLock.value < |s.clients| && Rewrites(s.clients[s.counterLock.value].pc)
  }

  // A count flushed only on closing, without the lock, falls short of it, and nobody is
  // about to write over it.
  predicate Overwrites(s: State, e: Event) {
    && e.By? && e.c < |s.clients| && e.action.LateWrite? && CanDo(s, s.clients[e.c].pc, LateWrite)
    && s.service && s.granted > s.clients[e.c].pc.pending.value + 1 && !BeingRewritten(s)
  }

  predicate Undercounts(s: State, e: Event) {
    LosesCount(s, e) || Overwrites(s, e)
  }

  lemma LateWriteFits(s: State, c: nat)
    requires Safe(s) && c < |s.clients| && CanDo(s, s.clients[c].pc, LateWrite)
    requires LocksConsistent(Act(s, c, LateWrite))
    ensures CountFits(Act(s, c, LateWrite)) <==> !Overwrites(s, By(c, LateWrite))
  {
    assert LocksMatchPc(s, c);
    if s.counterLock.Some? {
      assert HolderFits(s, s.clients[s.counterLock.value].pc);
    }
  }

  lemma OutsiderFits(s: State, c: nat, a: Action)
    requires Safe(s) && c < |s.clients| && CanDo(s, s.clients[c].pc, a) && !InCritical(s.clients[c].pc)
    requires LocksConsistent(Act(s, c, a)) && !a.LateWrite?
    ensures CountFits(Act(s, c, a))
  {
    assert LocksMatchPc(s, c);
  }

  lemma EndingFits(s: State, c: nat, a: Action)
    requires Safe(s) && c < |s.clients| && CanDo(s, s.clients[c].pc, a) && s.counterLock == Some(c)
    requires LocksConsistent(Act(s, c, a)) && !LosesRecord(s, By(c, a)) && (a.Fail? || a.Interrupt? || a.Crash?)
    ensures CountFits(Act(s, c, a))
  {
    assert HolderFits(s, s.clients[c].pc);
  }

  // On the way to the users lock,
  lemma ApproachFits(s: State, c: nat, a: Action)
    requires Safe(s) && c < |s.clients| && CanDo(s, s.clients[c].pc, a) && s.counterLock == Some(c)
    requires LocksConsistent(Act(s, c, a))
    requires a.ReadCount? || a.CheckActive? || a.TakeExclusive? || a.StopService? || a.StartService? || a.DropExclusive?
    ensures CountFits(Act(s, c, a))
  {
    assert HolderFits(s, s.clients[c].pc);
  }

  // and with it.
  lemma RecordingFits(s: State, c: nat, a: Action)
    requires Safe(s) && c < |s.clients| && CanDo(s, s.clients[c].pc, a) && s.counterLock == Some(c)
    requires LocksConsistent(Act(s, c, a))
    requires a.TakeShared? || a.StartIfNeeded? || a.SeeReady? || a.Truncate? || a.Buffer? || a.Record? || a.Unlock?
    ensures CountFits(Act(s, c, a))
  {
    assert HolderFits(s, s.clients[c].pc);
  }

  lemma HolderActFits(s: State, c: nat, a: Action)
    requires Safe(s) && c < |s.clients| && CanDo(s, s.clients[c].pc, a) && InCritical(s.clients[c].pc)
    requires LocksConsistent(Act(s, c, a))
    requires !LosesRecord(s, By(c, a))
    ensures CountFits(Act(s, c, a))
  {
    assert LocksMatchPc(s, c);
    match a {
      case Fail => EndingFits(s, c, a);
      case Interrupt => EndingFits(s, c, a);
      case Crash => EndingFits(s, c, a);
      case TakeShared => RecordingFits(s, c, a);
      case StartIfNeeded => RecordingFits(s, c, a);
      case SeeReady => RecordingFits(s, c, a);
      case Truncate => RecordingFits(s, c, a);
      case Buffer => RecordingFits(s, c, a);
      case Record => RecordingFits(s, c, a);
      case Unlock => RecordingFits(s, c, a);
      case _ => ApproachFits(s, c, a);
    }
  }

  lemma LostRecordFits(s: State, c: nat, a: Action)
    requires Safe(s) && c < |s.clients| && CanDo(s, s.clients[c].pc, a)
    requires LocksConsistent(Act(s, c, a))
    requires LosesRecord(s, By(c, a))
    ensures CountFits(Act(s, c, a)) <==> !LosesCount(s, By(c, a))
  {
    assert LocksMatchPc(s, c);
  }

  // The inductive step, with its exact boundary.
  lemma StepSafeExactly(s: State, e: Event)
    requires Safe(s) && Enabled(s, e)
    ensures Safe(Next(s, e)) <==> !Undercounts(s, e)
  {
    StepKeepsLocks(s, e);
    if e.By? {
      if LosesRecord(s, e) {
        LostRecordFits(s, e.c, e.action);
      } else if e.action.LateWrite? {
        LateWriteFits(s, e.c);
      } else if InCritical(s.clients[e.c].pc) {
        HolderActFits(s, e.c, e.action);
      } else {
        OutsiderFits(s, e.c, e.action);
      }
    }
  }

  predicate KeepsCount(s: State, es: seq<Event>)
    decreases |es|
  {
    es == [] || (Enabled(s, es[0]) && !Undercounts(s, es[0]) && KeepsCount(Next(s, es[0]), es[1..]))
  }

  predicate NoStart(s: State, es: seq<Event>)
    decreases |es|
  {
    es == [] || (Enabled(s, es[0]) && (Next(s, es[0]).service ==> s.service) && NoStart(Next(s, es[0]), es[1..]))
  }

  function Records(es: seq<Event>): nat {
    if es == [] then 0
    else (if es[0].By? && es[0].action.Record? then 1 else 0) + Records(es[1..])
  }

  lemma {:induction false} RunIsSafe(s: State, es: seq<Event>, t: State)
    requires Safe(s) && Run(s, es, t) && KeepsCount(s, es)
    ensures Safe(t)
    decreases |es|
  {
    if es != [] {
      StepSafeExactly(s, es[0]);
      RunIsSafe(Next(s, es[0]), es[1..], t);
    }
  }

  lemma {:induction false} WindowCounts(s: State, es: seq<Event>, t: State)
    requires Run(s, es, t) && NoStart(s, es)
    ensures t.granted == s.granted + Records(es)
    decreases |es|
  {
    if es != [] {
      WindowCounts(Next(s, es[0]), es[1..], t);
    }
  }

  ghost predicate SafeThroughout(s: State, es: seq<Event>)
    decreases |es|
  {
    Safe(s) && (es == [] || (Enabled(s, es[0]) && SafeThroughout(Next(s, es[0]), es[1..])))
  }

  // A run keeps the count throughout if and only if it has no undercounting step.
  lemma {:induction false} SafeThroughoutExactly(s: State, es: seq<Event>, t: State)
    requires Safe(s) && Run(s, es, t)
    ensures SafeThroughout(s, es) <==> KeepsCount(s, es)
    decreases |es|
  {
    if es != [] {
      StepSafeExactly(s, es[0]);
      if !Undercounts(s, es[0]) {
        SafeThroughoutExactly(Next(s, es[0]), es[1..], t);
      }
    }
  }

  // ---------- One epoch ----------

  // A process that goes on with a count has found it below the limit.
  predicate CountedIn(pc: Pc) {
    match pc
    case WantsShared(n) => n < CLIENT_LIMIT
    case Shared(n) => n < CLIENT_LIMIT
    case Polling(n) => n < CLIENT_LIMIT
    case Writing(n) => n < CLIENT_LIMIT
    case Truncated(n) => n < CLIENT_LIMIT
    case Pending(n) => n < CLIENT_LIMIT
    case _ => true
  }

  ghost predicate Structured(s: State) {
    LocksConsistent(s) && forall c: nat :: c < |s.clients| ==> CountedIn(s.clients[c].pc)
  }

  lemma ActCountsIn(s: State, c: nat, a: Action)
    requires c < |s.clients| && CanDo(s, s.clients[c].pc, a) && CountedIn(s.clients[c].pc)
    ensures var t := Act(s, c, a);
            |t.clients| == |s.clients| && t.clients == s.clients[c := t.clients[c]] && CountedIn(t.clients[c].pc)
  {
  }

  // Unlike the count, this survives every step.
  lemma StepKeepsStructure(s: State, e: Event)
    requires Structured(s) && Enabled(s, e)
    ensures Structured(Next(s, e))
  {
    StepKeepsLocks(s, e);
    if e.By? {
      ActCountsIn(s, e.c, e.action);
    }
  }

  lemma {:induction false} RunKeepsStructure(s: State, es: seq<Event>, t: State)
    requires Structured(s) && Run(s, es, t)
    ensures Structured(t)
    decreases |es|
  {
    if es != [] {
      StepKeepsStructure(s, es[0]);
      RunKeepsStructure(Next(s, es[0]), es[1..], t);
    }
  }

  predicate Starts(s: State, e: Event) {
    Enabled(s, e) && !s.service && Next(s, e).service
  }

  // Whatever went wrong before, a start puts the count right: its epoch begins with no
  // grants, wherever the processes stand.
  lemma StartRestores(s: State, e: Event)
    requires Structured(s) && Starts(s, e)
    ensures Safe(Next(s, e)) && Next(s, e).granted == 0
  {
    var t := Next(s, e);
    StepKeepsStructure(s, e);
    if t.counterLock.Some? {
      var h := t.counterLock.value;
      assert LocksMatchPc(s, h) && LocksMatchPc(t, h);
      assert CountedIn(t.clients[h].pc);
    }
  }

  // Between two consecutive starts of the service at most CLIENT_LIMIT processes
  // are admitted, over all of them, of both kinds, however the service dies or is
  // started from outside and wherever processes fail, are interrupted or die, lost and
  // late records included unless one leaves less in the file than a running service
  // has granted.  Only that epoch counts: nothing is asked of the run before its start.
  lemma AdmissionBound(init: State, before: seq<Event>, s: State, e: Event, window: seq<Event>, t: State)
    requires Init(init) && Run(init, before, s) && Starts(s, e)
    requires Run(Next(s, e), window, t) && KeepsCount(Next(s, e), window) && NoStart(Next(s, e), window)
    ensures Records(window) <= CLIENT_LIMIT
  {
    InitIsConsistent(init);
    RunKeepsStructure(init, before, s);
    StartRestores(s, e);
    RunIsSafe(Next(s, e), window, t);
    WindowCounts(Next(s, e), window, t);
  }

  // Where a process can stand before the service was ever started.
  predicate BeforeStart(pc: Pc) {
    match pc
    case Idle => true
    case Locked => true
    case Counted(_) => true
    case WantsExclusive(active, _) => !active
    case Exclusive(active) => !active
    case Failed(_, pending) => pending.None?
    case Closing(_, pending) => pending.None?
    case _ => false
  }

  // And before the first start nobody is admitted at all.
  lemma {:induction false} NothingBeforeFirstStart(s: State, window: seq<Event>, t: State)
    requires !s.service && forall c: nat :: c < |s.clients| ==> BeforeStart(s.clients[c].pc)
    requires Run(s, window, t) && NoStart(s, window)
    ensures Records(window) == 0
    decreases |window|
  {
    if window != [] {
      var m := Next(s, window[0]);
      if window[0].By? {
        StaysBeforeStart(s, window[0].c, window[0].action);
      }
      NothingBeforeFirstStart(m, window[1..], t);
    }
  }

  lemma StaysBeforeStart(s: State, c: nat, a: Action)
    requires !s.service && c < |s.clients| && CanDo(s, s.clients[c].pc, a) && BeforeStart(s.clients[c].pc)
    requires !Act(s, c, a).service
    ensures var t := Act(s, c, a);
            && |t.clients| == |s.clients| && t.clients == s.clients[c := t.clients[c]]
            && BeforeStart(t.clients[c].pc) && !a.Record?
  {
  }

  // ---------- Where the bound fails ----------

  // A run in which the service is not started and no count is lost.
  predicate Calm(s: State, es: seq<Event>, t: State)
    decreases |es|
  {
    if es == [] then s == t
    else
      && Enabled(s, es[0]) && !Undercounts(s, es[0])
      && (Next(s, es[0]).service ==> s.service)
      && Calm(Next(s, es[0]), es[1..], t)
  }

  lemma {:induction false} CalmIsRun(s: State, es: seq<Event>, t: State)
    requires Calm(s, es, t)
    ensures Run(s, es, t) && KeepsCount(s, es) && NoStart(s, es)
    decreases |es|
  {
    if es != [] {
      CalmIsRun(Next(s, es[0]), es[1..], t);
    }
  }

  lemma {:induction false} CalmConcat(s: State, es: seq<Event>, t: State, fs: seq<Event>, u: State)
    requires Calm(s, es, t) && Calm(t, fs, u)
    ensures Calm(s, es + fs, u)
    decreases |es|
  {
    if es == [] {
      assert es + fs == fs;
    } else {
      CalmConcat(Next(s, es[0]), es[1..], t, fs, u);
      assert (es + fs)[1..] == es[1..] + fs;
    }
  }

  lemma CalmCons(s: State, e: Event, m: State, es: seq<Event>, t: State)
    requires Enabled(s, e) && !Undercounts(s, e) && m == Next(s, e) && (m.service ==> s.service)
    requires Calm(m, es, t)
    ensures Calm(s, [e] + es, t)
  {
    assert ([e] + es)[1..] == es;
  }

  // Where a process is, and what the file and the epoch's grants then are.
  datatype Spot = Spot(pc: Pc, file: FileText, granted: nat)

  // s with process c there.
  function Stage(s: State, c: nat, v: Variant, x: Spot): State
    requires c < |s.clients|
  {
    s.(clients := s.clients[c := Client(v, x.pc)],
       counterLock := if InCritical(x.pc) then Some(c) else None,
       shared := if HoldsShared(x.pc) then s.shared + {c} else s.shared,
       file := x.file, granted := x.granted)
  }

  // The service runs, nobody is on the way in, and c is outside.
  ghost predicate Open(s: State, c: nat) {
    && LocksConsistent(s) && s.counterLock.None? && s.exclusive.None? && s.service
    && c < |s.clients| && s.clients[c].pc.Idle?
  }

  lemma OpenFacts(s: State, c: nat)
    requires Open(s, c)
    ensures c !in s.shared && s.shared + {c} - {c} == s.shared
  {
    assert LocksMatchPc(s, c);
  }

  // The step a takes a process alone on the way in from x to y.
  predicate Leads(s: State, v: Variant, x: Spot, a: Action, y: Spot) {
    match a
    case ReadCount => x.pc.Locked? && y == x.(pc := Counted(FileCount(x.file)))
    case CheckActive => x.pc.Counted? && x.pc.count < CLIENT_LIMIT && y == x.(pc := WantsShared(x.pc.count))
    case TakeShared => x.pc.WantsShared? && y == x.(pc := Shared(x.pc.count))
    case StartIfNeeded => x.pc.Shared? && y == x.(pc := AfterStart(v, x.pc.count))
    case SeeReady => x.pc.Polling? && s.ready && y == x.(pc := Writing(x.pc.count))
    case Truncate => x.pc.Writing? && y == Spot(Truncated(x.pc.count), Empty, x.granted)
    case Buffer => x.pc.Truncated? && y == x.(pc := Pending(x.pc.count))
    case Record => x.pc.Pending? && y == Spot(Recorded, Digits(x.pc.count + 1), x.granted + 1)
    case Interrupt => x.pc.Pending? && x.granted == 0 && y == x.(pc := Failed(Sharing, Some(x.pc.count)))
    case Unlock =>
      || (x.pc.Recorded? && y == x.(pc := Session))
      || (x.pc.Failed? && x.pc.users.Sharing? && y == x.(pc := Closing(Sharing, x.pc.pending)))
    case Release => x.pc.Session? && y == x.(pc := Idle)
    case _ => false
  }

  // Up to the users lock,
  lemma LeadsIn(s: State, c: nat, v: Variant, x: Spot, a: Action, y: Spot)
    requires Open(s, c) && Leads(s, v, x, a, y)
    requires a.ReadCount? || a.CheckActive? || a.TakeShared? || a.StartIfNeeded? || a.SeeReady?
    ensures var from := Stage(s, c, v, x);
            CanDo(from, x.pc, a) && Act(from, c, a) == Stage(s, c, v, y) && !Undercounts(from, By(c, a))
  {
    assert s.clients[c := Client(v, x.pc)][c := Client(v, y.pc)] == s.clients[c := Client(v, y.pc)];
  }

  // with it,
  lemma LeadsOn(s: State, c: nat, v: Variant, x: Spot, a: Action, y: Spot)
    requires Open(s, c) && Leads(s, v, x, a, y)
    requires a.Truncate? || a.Buffer? || a.Record?
    ensures var from := Stage(s, c, v, x);
            CanDo(from, x.pc, a) && Act(from, c, a) == Stage(s, c, v, y) && !Undercounts(from, By(c, a))
  {
    assert s.clients[c := Client(v, x.pc)][c := Client(v, y.pc)] == s.clients[c := Client(v, y.pc)];
  }

  // and on the way out.
  lemma LeadsOut(s: State, c: nat, v: Variant, x: Spot, a: Action, y: Spot)
    requires Open(s, c) && Leads(s, v, x, a, y)
    requires a.Interrupt? || a.Unlock? || a.Release?
    ensures var from := Stage(s, c, v, x);
            CanDo(from, x.pc, a) && Act(from, c, a) == Stage(s, c, v, y) && !Undercounts(from, By(c, a))
  {
    OpenFacts(s, c);
    assert s.clients[c := Client(v, x.pc)][c := Client(v, y.pc)] == s.clients[c := Client(v, y.pc)];
  }

  // One more step in front of a calm run.
  lemma StageCons(s: State, c: nat, v: Variant, x: Spot, a: Action, y: Spot, es: seq<Event>, t: State)
    requires Open(s, c) && Leads(s, v, x, a, y) && Calm(Stage(s, c, v, y), es, t)
    ensures Calm(Stage(s, c, v, x), [By(c, a)] + es, t)
  {
    if a.ReadCount? || a.CheckActive? || a.TakeShared? || a.StartIfNeeded? || a.SeeReady? {
      LeadsIn(s, c, v, x, a, y);
    } else if a.Truncate? || a.Buffer? || a.Record? {
      LeadsOn(s, c, v, x, a, y);
    } else {
      LeadsOut(s, c, v, x, a, y);
    }
    CalmCons(Stage(s, c, v, x), By(c, a), Stage(s, c, v, y), es, t);
  }

  // A run of such steps.
  predicate Path(s: State, v: Variant, spots: seq<Spot>, actions: seq<Action>) {
    && |spots| == |actions| + 1
    && forall i :: 0 <= i < |actions| ==> Leads(s, v, spots[i], actions[i], spots[i + 1])
  }

  function Does(c: nat, actions: seq<Action>): seq<Event> {
    if actions == [] then [] else [By(c, actions[0])] + Does(c, actions[1..])
  }

  lemma {:induction false} PathIsCalm(s: State, c: nat, v: Variant, spots: seq<Spot>, actions: seq<Action>, t: State)
    requires Open(s, c) && Path(s, v, spots, actions) && t == Stage(s, c, v, spots[|actions|])
    ensures Calm(Stage(s, c, v, spots[0]), Does(c, actions), t)
    decreases |actions|
  {
    if actions != [] {
      PathIsCalm(s, c, v, spots[1..], actions[1..], t);
      StageCons(s, c, v, spots[0], actions[0], spots[1], Does(c, actions[1..]), t);
    }
  }

  // The way in, up to the emptied file, past a count below the limit.
  lemma WayIn(s: State, c: nat, v: Variant) returns (es: seq<Event>)
    requires Open(s, c) && FileCount(s.file) < CLIENT_LIMIT && (v.Refusing? ==> s.ready)
    ensures Calm(s, es, Stage(s, c, v, Spot(Truncated(FileCount(s.file)), Empty, s.granted)))
  {
    var n, f, g := FileCount(s.file), s.file, s.granted;
    var locked, last := Spot(Locked, f, g), Stage(s, c, v, Spot(Truncated(n), Empty, g));
    var actions := [ReadCount, CheckActive, TakeShared, StartIfNeeded]
      + (if v.Refusing? then [SeeReady] else []) + [Truncate];
    var spots := [locked, Spot(Counted(n), f, g), Spot(WantsShared(n), f, g), Spot(Shared(n), f, g),
                  Spot(AfterStart(v, n), f, g)]
      + (if v.Refusing? then [Spot(Writing(n), f, g)] else []) + [Spot(Truncated(n), Empty, g)];
    PathIsCalm(s, c, v, spots, actions, last);
    CalmCons(s, By(c, Begin(v)), Stage(s, c, v, locked), Does(c, actions), last);
    es := [By(c, Begin(v))] + Does(c, actions);
  }

  function Admitted(s: State, c: nat, v: Variant): State
    requires c < |s.clients|
  {
    Stage(s, c, v, Spot(Idle, Digits(FileCount(s.file) + 1), s.granted + 1))
  }

  lemma WayOut(s: State, c: nat, v: Variant) returns (es: seq<Event>)
    requires Open(s, c)
    ensures Calm(Stage(s, c, v, Spot(Truncated(FileCount(s.file)), Empty, s.granted)), es, Admitted(s, c, v))
  {
    var n, g := FileCount(s.file), s.granted;
    var file := Digits(n + 1);
    var actions := [Buffer, Record, Unlock, Release];
    var spots := [Spot(Truncated(n), Empty, g), Spot(Pending(n), Empty, g), Spot(Recorded, file, g + 1),
                  Spot(Session, file, g + 1), Spot(Idle, file, g + 1)];
    PathIsCalm(s, c, v, spots, actions, Admitted(s, c, v));
    es := Does(c, actions);
  }

  // A whole session of c, whoever else is inside.
  lemma OneSession(s: State, c: nat, v: Variant) returns (es: seq<Event>)
    requires Open(s, c) && FileCount(s.file) < CLIENT_LIMIT && (v.Refusing? ==> s.ready)
    ensures Calm(s, es, Admitted(s, c, v)) && Open(Admitted(s, c, v), c)
  {
    var start := WayIn(s, c, v);
    var rest := WayOut(s, c, v);
    var t := Admitted(s, c, v);
    CalmConcat(s, start, Stage(s, c, v, Spot(Truncated(FileCount(s.file)), Empty, s.granted)), rest, t);
    es := start + rest;
    CalmIsRun(s, es, t);
    RunKeepsLocks(s, es, t);
  }

  lemma {:induction false} RunKeepsLocks(s: State, es: seq<Event>, t: State)
    requires LocksConsistent(s) && Run(s, es, t)
    ensures LocksConsistent(t)
    decreases |es|
  {
    if es != [] {
      StepKeepsLocks(s, es[0]);
      RunKeepsLocks(Next(s, es[0]), es[1..], t);
    }
  }

  // As many sessions one after the other as the file leaves room for.
  lemma {:induction false} Sessions(s: State, c: nat, v: Variant, k: nat) returns (es: seq<Event>, t: State)
    requires Open(s, c) && FileCount(s.file) + k <= CLIENT_LIMIT && (v.Refusing? ==> s.ready)
    ensures Calm(s, es, t) && Open(t, c)
    ensures t.granted == s.granted + k && FileCount(t.file) == FileCount(s.file) + k && t.ready == s.ready
    ensures |t.clients| == |s.clients| && forall d: nat :: d < |s.clients| && d != c ==> t.clients[d] == s.clients[d]
    decreases k
  {
    if k == 0 {
      es, t := [], s;
    } else {
      var m := Admitted(s, c, v);
      var first := OneSession(s, c, v);
      es, t := Sessions(m, c, v, k - 1);
      CalmConcat(s, first, m, es, t);
      es := first + es;
    }
  }

  // A process can die at any moment, and then holds nothing.
  lemma Dies(s: State, d: nat)
    requires LocksConsistent(s) && d < |s.clients| && !Rewrites(s.clients[d].pc)
    ensures var t := Act(s, d, Crash);
            && Calm(s, [By(d, Crash)], t) && LocksConsistent(t)
            && t.counterLock != Some(d) && t.exclusive != Some(d)
            && t == s.(clients := s.clients[d := s.clients[d].(pc := Idle)],
                       counterLock := t.counterLock, exclusive := t.exclusive, shared := t.shared)
  {
    var t := Act(s, d, Crash);
    StepKeepsLocks(s, By(d, Crash));
    CalmCons(s, By(d, Crash), t, [], t);
  }

  lemma DiesToo(s: State, es: seq<Event>, m: State, d: nat)
    requires Calm(s, es, m) && LocksConsistent(m) && d < |m.clients| && !Rewrites(m.clients[d].pc)
    ensures Calm(s, es + [By(d, Crash)], Act(m, d, Crash))
  {
    Dies(m, d);
    CalmConcat(s, es, m, [By(d, Crash)], Act(m, d, Crash));
  }

  // Whoever stands in the way of c's next session may be gone by then.
  lemma WayIsCleared(s: State, c: nat) returns (es: seq<Event>, t: State)
    requires LocksConsistent(s) && s.service && c < |s.clients| && !Rewrites(s.clients[c].pc) && !BeingRewritten(s)
    ensures Calm(s, es, t) && Open(t, c) && t.file == s.file && t.granted == s.granted
  {
    Dies(s, c);
    es, t := [By(c, Crash)], Act(s, c, Crash);
    if t.counterLock.Some? {
      var d := t.counterLock.value;
      assert LocksMatchPc(t, d);
      Dies(t, d);
      DiesToo(s, es, t, d);
      es, t := es + [By(d, Crash)], Act(t, d, Crash);
    }
    if t.exclusive.Some? {
      var d := t.exclusive.value;
      assert LocksMatchPc(t, d);
      Dies(t, d);
      DiesToo(s, es, t, d);
      es, t := es + [By(d, Crash)], Act(t, d, Crash);
    }
  }

  // And the marker is back.
  lemma MarkerIsBack(s: State, es: seq<Event>, m: State, c: nat) returns (fs: seq<Event>, t: State)
    requires Calm(s, es, m) && Open(m, c)
    ensures Calm(s, fs, t) && Open(t, c) && t.file == m.file && t.granted == m.granted && t.ready
  {
    fs, t := es + [MarkerSet(true)], Next(m, MarkerSet(true));
    StepKeepsLocks(m, MarkerSet(true));
    CalmCons(m, MarkerSet(true), t, [], t);
    CalmConcat(s, es, m, [MarkerSet(true)], t);
  }

  lemma UndercountLeaves(s: State, e: Event)
    requires Safe(s) && Enabled(s, e) && Undercounts(s, e)
    ensures var t := Next(s, e);
            && LocksConsistent(t) && t.service && FileCount(t.file) < t.granted <= CLIENT_LIMIT
            && e.c < |t.clients| && !Rewrites(t.clients[e.c].pc) && !BeingRewritten(t)
  {
    assert LocksMatchPc(s, e.c);
    StepKeepsLocks(s, e);
  }

  // Whichever process of either kind leaves too small a count, by failing, by being
  // interrupted, by dying or by writing late, and whoever else is inside, further
  // sessions of either kind take the epoch past the limit, without a start or another
  // such step.
  lemma LostCountOverruns(s: State, e: Event, v: Variant) returns (es: seq<Event>, t: State)
    requires Safe(s) && Enabled(s, e) && Undercounts(s, e)
    ensures Overruns(Next(s, e), es, t)
  {
    var c, n := e.c, Next(s, e);
    UndercountLeaves(s, e);
    var fs, m := WayIsCleared(n, c);
    fs, m := MarkerIsBack(n, fs, m, c);
    var gs;
    gs, t := Sessions(m, c, v, CLIENT_LIMIT - FileCount(m.file));
    CalmConcat(n, fs, m, gs, t);
    es := fs + gs;
  }

  predicate Overruns(s: State, es: seq<Event>, t: State) {
    Calm(s, es, t) && t.granted > CLIENT_LIMIT
  }

  // The exact boundary of the admission bound: after a step, some run without a start
  // or another undercounting step admits more than CLIENT_LIMIT processes in the epoch
  // if and only if the step was one.
  lemma BoundLostExactly(s: State, e: Event)
    requires Safe(s) && Enabled(s, e)
    ensures (exists es, t :: Overruns(Next(s, e), es, t)) <==> Undercounts(s, e)
  {
    if Undercounts(s, e) {
      var es, t := LostCountOverruns(s, e, Restarting);
      assert Overruns(Next(s, e), es, t);
    } else {
      StepSafeExactly(s, e);
      forall es, t | Calm(Next(s, e), es, t)
        ensures !Overruns(Next(s, e), es, t)
      {
        CalmIsRun(Next(s, e), es, t);
        RunIsSafe(Next(s, e), es, t);
      }
    }
  }

  // Such steps are reachable.  Once one is, in an epoch that began empty, so are more
  // than CLIENT_LIMIT admissions in it.
  lemma EpochOverruns(s: State, es: seq<Event>, m: State, e: Event, v: Variant) returns (fs: seq<Event>, t: State)
    requires Safe(s) && s.granted == 0 && Calm(s, es, m) && Enabled(m, e) && Undercounts(m, e)
    ensures Run(s, fs, t) && NoStart(s, fs) && Records(fs) > CLIENT_LIMIT
  {
    CalmIsRun(s, es, m);
    RunIsSafe(s, es, m);
    var rest;
    rest, t := LostCountOverruns(m, e, v);
    CalmIsRun(Next(m, e), rest, t);
    var tail := [e] + rest;
    assert tail[1..] == rest;
    RunConcat(s, es, m, tail, t);
    fs := es + tail;
    WindowCounts(s, fs, t);
  }

  // n processes outside and the service down.
  function Outside(v: Variant, n: nat): State {
    State(seq(n, _ => Client(v, Idle)), None, None, {}, Empty, false, false, 0)
  }

  lemma EpochBegins(v: Variant, n: nat, c: nat)
    requires c < n
    ensures Init(Outside(v, n))
    ensures var s := Next(Outside(v, n), ServiceStarts);
            Safe(s) && Open(s, c) && s.ready && s.granted == 0 && s.file == Empty
  {
    InitIsConsistent(Outside(v, n));
    StepSafeExactly(Outside(v, n), ServiceStarts);
  }

  lemma SecondTruncates(s: State, v: Variant) returns (es: seq<Event>, t: State)
    requires Open(s, 0) && s.ready && s.granted == 0 && s.file == Empty
    ensures Calm(s, es, t) && t.service && t.granted == 1 && t.file == Empty
    ensures |t.clients| > 0 && t.clients[0].pc == Truncated(1)
  {
    var first := OneSession(s, 0, v);
    var m := Admitted(s, 0, v);
    var second := WayIn(m, 0, v);
    t := Stage(m, 0, v, Spot(Truncated(1), Empty, 1));
    CalmConcat(s, first, m, second, t);
    es := first + second;
  }

  // A second client of either kind that fails, is interrupted or dies with the file
  // emptied is enough.
  lemma LostRecordBreaksBound(v: Variant, lost: Action) returns (init: State, es: seq<Event>, t: State)
    requires lost == Fail || lost == Interrupt || lost == Crash
    ensures Init(init) && Run(Next(init, ServiceStarts), es, t) && NoStart(Next(init, ServiceStarts), es)
    ensures Records(es) > CLIENT_LIMIT
  {
    init := Outside(v, 1);
    EpochBegins(v, 1, 0);
    var s := Next(init, ServiceStarts);
    var way, m := SecondTruncates(s, v);
    es, t := EpochOverruns(s, way, m, By(0, lost), v);
  }

  // So is a first client interrupted before its flush, which harms nobody then, if its
  // count is written on closing only after two other sessions.
  lemma LateWriteBreaksBound(v: Variant) returns (init: State, es: seq<Event>, t: State)
    ensures Init(init) && Run(Next(init, ServiceStarts), es, t) && NoStart(Next(init, ServiceStarts), es)
    ensures Records(es) > CLIENT_LIMIT
  {
    init := Outside(v, 2);
    EpochBegins(v, 2, 0);
    var s := Next(init, ServiceStarts);
    var first, u := InterruptedLate(s, 0, v);
    var second, m := Sessions(u, 1, v, 2);
    CalmConcat(s, first, u, second, m);
    assert m.clients[0] == u.clients[0];
    es, t := EpochOverruns(s, first + second, m, By(0, LateWrite), v);
  }

  // A client of an empty epoch up to the point where it has unlocked the counter with
  // its count still in the buffer.
  lemma InterruptedLate(s: State, c: nat, v: Variant) returns (es: seq<Event>, t: State)
    requires Open(s, c) && s.file == Empty && s.granted == 0 && s.ready
    ensures Calm(s, es, t) && LocksConsistent(t) && t.counterLock.None? && t.exclusive.None?
    ensures t == s.(clients := s.clients[c := Client(v, Closing(Sharing, Some(0)))], shared := t.shared)
  {
    var x, late := Spot(Truncated(0), Empty, 0), Spot(Closing(Sharing, Some(0)), Empty, 0);
    t := Stage(s, c, v, late);
    var way := WayIn(s, c, v);
    var actions := [Buffer, Interrupt, Unlock];
    PathIsCalm(s, c, v, [x, Spot(Pending(0), Empty, 0), Spot(Failed(Sharing, Some(0)), Empty, 0), late], actions, t);
    CalmConcat(s, way, Stage(s, c, v, x), Does(c, actions), t);
    es := way + Does(c, actions);
    CalmIsRun(s, es, t);
    RunKeepsLocks(s, es, t);
  }

  lemma {:induction false} RunConcat(s: State, es: seq<Event>, t: State, fs: seq<Event>, u: State)
    requires Run(s, es, t) && NoStart(s, es) && Run(t, fs, u) && NoStart(t, fs)
    ensures Run(s, es + fs, u) && NoStart(s, es + fs)
    decreases |es|
  {
    if es == [] {
      assert es + fs == fs;
    } else {
      RunConcat(Next(s, es[0]), es[1..], t, fs, u);
      assert (es + fs)[1..] == es[1..] + fs;
    }
  }

  // ---------- What a visit amounts to ----------

  // What a process has read, found and done since it last began: the count in the file
  // when it read it, whether the service was running when it asked, and whether it has
  // stopped or started the service under the exclusive lock.
  datatype Visit = Visit(read: nat, found: Option<bool>, stopped: bool, started: bool)

  const NEW_VISIT := Visit(0, None, false, false)

  function VisitStep(s: State, e: Event, c: nat, h: Visit): Visit {
    if !e.By? || e.c != c then h
    else match e.action
      case Begin(_) => NEW_VISIT
      case ReadCount => h.(read := FileCount(s.file))
      case CheckActive => h.(found := Some(s.service))
      case StopService => h.(stopped := true)
      case StartService => h.(started := true)
      case _ => h
  }

  function VisitOf(s: State, es: seq<Event>, c: nat, h: Visit): Visit
    decreases |es|
  {
    if es == [] || !Enabled(s, es[0]) then h
    else VisitOf(Next(s, es[0]), es[1..], c, VisitStep(s, es[0], c, h))
  }

  // It found a running service that has used up its count.
  predicate FoundFull(h: Visit) {
    h.found == Some(true) && h.read >= CLIENT_LIMIT
  }

  // Where a visit can stand; n is the count it goes on with.
  predicate GoesOn(h: Visit, n: nat) {
    && h.found.Some? && (h.started <==> !(h.found.value && h.read < CLIENT_LIMIT))
    && n == (if h.started then 0 else h.read)
  }

  predicate VisitStands(v: Variant, pc: Pc, h: Visit) {
    && (h.stopped ==> v.Restarting? && FoundFull(h))
    && (h.started ==> h.found.Some? && (h.stopped <==> h.found.value))
    && match pc
       case Idle => true
       case Locked => h == NEW_VISIT
       case Counted(n) => h == NEW_VISIT.(read := n)
       case WantsExclusive(active, _) => h.found == Some(active) && !h.stopped && !h.started && (active ==> v.Restarting? && FoundFull(h))
       case Exclusive(active) => h.found == Some(active) && !h.stopped && !h.started && (active ==> v.Restarting? && FoundFull(h))
       case Stopped => h.stopped && !h.started
       case Started => h.started
       case Converting => h.started
       case WantsShared(n) => !h.started && GoesOn(h, n)
       case Shared(n) => !h.started && GoesOn(h, n)
       case Polling(n) => GoesOn(h, n)
       case Writing(n) => GoesOn(h, n)
       case Truncated(n) => GoesOn(h, n)
       case Pending(n) => GoesOn(h, n)
       case Recorded => GoesOn(h, if h.started then 0 else h.read)
       case Session => GoesOn(h, if h.started then 0 else h.read)
       case Failed(_, pending) => pending.Some? ==> GoesOn(h, pending.value)
       case Closing(_, pending) => pending.Some? ==> GoesOn(h, pending.value)
  }

  lemma VisitBegins(s: State, c: nat, a: Action, h: Visit)
    requires c < |s.clients| && CanDo(s, s.clients[c].pc, a) && VisitStands(s.clients[c].variant, s.clients[c].pc, h)
    requires Takes(a) || Prepares(a)
    ensures var t := Act(s, c, a);
            && |t.clients| == |s.clients| && t.clients == s.clients[c := t.clients[c]]
            && VisitStands(t.clients[c].variant, t.clients[c].pc, VisitStep(s, By(c, a), c, h))
  {
  }

  lemma VisitEnds(s: State, c: nat, a: Action, h: Visit)
    requires c < |s.clients| && CanDo(s, s.clients[c].pc, a) && VisitStands(s.clients[c].variant, s.clients[c].pc, h)
    requires (GivesUp(a) || a.LateWrite?) && !a.Fail?
    ensures var t := Act(s, c, a);
            && |t.clients| == |s.clients| && t.clients == s.clients[c := t.clients[c]]
            && VisitStands(t.clients[c].variant, t.clients[c].pc, VisitStep(s, By(c, a), c, h))
  {
  }

  lemma VisitBreaksOff(s: State, c: nat, a: Action, h: Visit)
    requires c < |s.clients| && CanDo(s, s.clients[c].pc, a) && VisitStands(s.clients[c].variant, s.clients[c].pc, h)
    requires a.Fail? || a.Interrupt?
    ensures var t := Act(s, c, a);
            && |t.clients| == |s.clients| && t.clients == s.clients[c := t.clients[c]]
            && VisitStands(t.clients[c].variant, t.clients[c].pc, VisitStep(s, By(c, a), c, h))
  {
  }

  lemma VisitRecords(s: State, c: nat, a: Action, h: Visit)
    requires c < |s.clients| && CanDo(s, s.clients[c].pc, a) && VisitStands(s.clients[c].variant, s.clients[c].pc, h)
    requires !Takes(a) && !Prepares(a) && !GivesUp(a) && !a.Interrupt? && !a.LateWrite?
    ensures var t := Act(s, c, a);
            && |t.clients| == |s.clients| && t.clients == s.clients[c := t.clients[c]]
            && VisitStands(t.clients[c].variant, t.clients[c].pc, VisitStep(s, By(c, a), c, h))
  {
  }

  lemma VisitStandsOn(s: State, c: nat, a: Action, h: Visit)
    requires c < |s.clients| && CanDo(s, s.clients[c].pc, a) && VisitStands(s.clients[c].variant, s.clients[c].pc, h)
    ensures var t := Act(s, c, a);
            && |t.clients| == |s.clients| && t.clients == s.clients[c := t.clients[c]]
            && VisitStands(t.clients[c].variant, t.clients[c].pc, VisitStep(s, By(c, a), c, h))
  {
    if Takes(a) || Prepares(a) {
      VisitBegins(s, c, a, h);
    } else if a.Fail? || a.Interrupt? {
      VisitBreaksOff(s, c, a, h);
    } else if GivesUp(a) || a.LateWrite? {
      VisitEnds(s, c, a, h);
    } else {
      VisitRecords(s, c, a, h);
    }
  }

  lemma {:induction false} VisitStandsInEveryRun(s: State, es: seq<Event>, t: State, c: nat, h: Visit)
    requires c < |s.clients| && VisitStands(s.clients[c].variant, s.clients[c].pc, h) && Run(s, es, t)
    ensures c < |t.clients| && VisitStands(t.clients[c].variant, t.clients[c].pc, VisitOf(s, es, c, h))
    decreases |es|
  {
    if es != [] {
      var e := es[0];
      if e.By? {
        if e.c == c {
          VisitStandsOn(s, c, e.action, h);
        } else {
          OthersStay(s, e.c, e.action);
        }
      }
      VisitStandsInEveryRun(Next(s, e), es[1..], t, c, VisitStep(s, e, c, h));
    }
  }

  lemma OthersStay(s: State, c: nat, a: Action)
    requires c < |s.clients| && CanDo(s, s.clients[c].pc, a)
    ensures var t := Act(s, c, a); |t.clients| == |s.clients| && t.clients == s.clients[c := t.clients[c]]
  {
  }

  // Its count is in the file, or is on its way there.
  predicate Admitting(pc: Pc) {
    pc.Writing? || pc.Truncated? || pc.Pending? || pc.Recorded? || pc.Session?
  }

  // Over every run from an initial state: a process stops the service only if it is a
  // restarting one that found it running and read a count at the limit, and such a one
  // has stopped it before it is admitted.  A process starts it under the exclusive lock
  // exactly if it found it stopped or has stopped it.  The count it writes is one more
  // than the one it read, or one if it started the service.
  lemma RestartsExactly(init: State, es: seq<Event>, t: State, c: nat)
    requires Init(init) && Run(init, es, t) && c < |init.clients|
    ensures c < |t.clients|
    ensures var h, v, pc := VisitOf(init, es, c, NEW_VISIT), t.clients[c].variant, t.clients[c].pc;
            && (CanDo(t, pc, StopService) ==> v.Restarting? && FoundFull(h) && !h.stopped)
            && (h.stopped ==> v.Restarting? && FoundFull(h))
            && (CanDo(t, pc, StartService) ==> h.found == Some(false) || h.stopped)
            && (Admitting(pc) ==>
                  && (h.stopped <==> FoundFull(h))
                  && (h.started <==> h.found == Some(false) || h.stopped))
            && (pc.Truncated? || pc.Pending? ==> pc.count == if h.started then 0 else h.read)
  {
    VisitStandsInEveryRun(init, es, t, c, NEW_VISIT);
  }

  // A refusing process that finds a running service at the limit is not admitted, ends
  // failed with nothing to write, and whatever it does next leaves the service, its
  // marker and the file alone.
  lemma RefusesAtTheLimit(init: State, es: seq<Event>, t: State, c: nat)
    requires Init(init) && Run(init, es, t) && c < |init.clients|
    ensures c < |t.clients|
    ensures var h, pc := VisitOf(init, es, c, NEW_VISIT), t.clients[c].pc;
            t.clients[c].variant.Refusing? && FoundFull(h) ==>
              && (pc.Idle? || ((pc.Failed? || pc.Closing?) && pc.pending.None?))
              && forall a :: CanDo(t, pc, a) ==>
                   var u := Act(t, c, a); u.service == t.service && u.ready == t.ready && u.file == t.file
  {
    VisitStandsInEveryRun(init, es, t, c, NEW_VISIT);
  }

  // No other finding makes a check fail: the process goes on for the exclusive lock if
  // it is to start or restart the service, else for the shared one.
  lemma CheckFailsExactly(s: State, c: nat)
    requires c < |s.clients| && s.clients[c].pc.Counted?
    ensures var n, pc := s.clients[c].pc.count, Act(s, c, CheckActive).clients[c].pc;
            && (pc.Failed? <==> s.clients[c].variant.Refusing? && s.service && n >= CLIENT_LIMIT)
            && (pc.WantsShared? <==> s.service && n < CLIENT_LIMIT)
            && (pc.WantsExclusive? <==> !s.service || (s.clients[c].variant.Restarting? && n >= CLIENT_LIMIT))
  {
  }

  // The marker appears only with a start or from the keeper of a running service, a
  // service that starts reports itself with it, an orderly stop takes it away, and a
  // service that dies may leave it behind.
  lemma MarkerFollowsService(s: State, e: Event)
    requires Enabled(s, e)
    ensures !s.ready && Next(s, e).ready ==> Next(s, e).service && (Starts(s, e) || e == MarkerSet(true))
    ensures Starts(s, e) ==> Next(s, e).ready
    ensures e.By? && e.action.StopService? ==> !Next(s, e).service && !Next(s, e).ready
    ensures e.ServiceDies? ==> !Next(s, e).service && (Next(s, e).ready <==> s.ready && e.markerLeft)
  {
  }

  // ---------- Progress ----------

  // The step by which a process carries on towards leaving.  Polling for a marker
  // that does not appear ends in the exception its deadline or the dead service
  // raises.
  function Continue(s: State, pc: Pc): Action
    requires !pc.Idle?
  {
    match pc
    case Locked => ReadCount
    case Counted(_) => CheckActive
    case WantsExclusive(_, _) => TakeExclusive
    case WantsShared(_) => TakeShared
    case Exclusive(active) => if active then StopService else StartService
    case Stopped => StartService
    case Started => DropExclusive
    case Converting => TakeShared
    case Shared(_) => StartIfNeeded
    case Polling(_) => if s.ready then SeeReady else Fail
    case Writing(_) => Truncate
    case Truncated(_) => Buffer
    case Pending(_) => Record
    case Recorded => Unlock
    case Failed(_, _) => Unlock
    case Closing(_, pending) => if pending.Some? then LateWrite else Leave
    case Session => Release
  }

  function Rank(pc: Pc): nat {
    match pc
    case Idle => 0
    case Locked => 14
    case Counted(_) => 13
    case WantsExclusive(_, _) => 12
    case Exclusive(_) => 11
    case Stopped => 10
    case Started => 9
    case Converting => 8
    case WantsShared(_) => 8
    case Shared(_) => 7
    case Polling(_) => 6
    case Writing(_) => 5
    case Truncated(_) => 4
    case Pending(_) => 3
    case Failed(_, _) => 3
    case Recorded => 2
    case Closing(_, pending) => if pending.Some? then 2 else 1
    case Session => 1
  }

  function TotalRank(cs: seq<Client>): nat {
    if cs == [] then 0 else Rank(cs[0].pc) + TotalRank(cs[1..])
  }

  lemma {:induction false} TotalRankUpdate(cs: seq<Client>, c: nat, x: Client)
    requires c < |cs|
    ensures TotalRank(cs[c := x]) == TotalRank(cs) - Rank(cs[c].pc) + Rank(x.pc)
  {
    if c == 0 {
      assert cs[c := x][1..] == cs[1..];
    } else {
      TotalRankUpdate(cs[1..], c - 1, x);
      assert cs[c := x][1..] == cs[1..][c - 1 := x];
    }
  }

  // No reachable state is deadlocked: while any process is inside, some process
  // can take its next step.
  lemma NoDeadlock(s: State, d: nat) returns (c: nat)
    requires LocksConsistent(s) && d < |s.clients| && !s.clients[d].pc.Idle?
    ensures c < |s.clients| && !s.clients[c].pc.Idle?
    ensures CanDo(s, s.clients[c].pc, Continue(s, s.clients[c].pc))
  {
    assert LocksMatchPc(s, d);
    if s.counterLock.None? {
      return d;
    }
    c := s.counterLock.value;
    assert LocksMatchPc(s, c);
    var pc := s.clients[c].pc;
    if (pc.WantsExclusive? || pc.WantsShared?) && s.exclusive.Some? {
      UsersLockNeedsCounter(s, c);
      c := s.exclusive.value;
      assert LocksMatchPc(s, c);
    } else if pc.WantsExclusive? && s.shared != {} {
      c :| c in s.shared;
      assert LocksMatchPc(s, c);
    }
  }

  // Only steps of the processes inside, none dying or interrupted, none failing but
  // for want of the marker.
  predicate Courteous(s: State, es: seq<Event>)
    decreases |es|
  {
    es == [] ||
    (&& Enabled(s, es[0]) && es[0].By?
     && var a := es[0].action;
     && !a.Begin? && !a.Crash? && !a.Interrupt?
     && (a.Fail? ==> s.clients[es[0].c].pc.Polling? && !s.ready)
     && Courteous(Next(s, es[0]), es[1..]))
  }

  predicate NoFailure(es: seq<Event>) {
    forall i :: 0 <= i < |es| ==> es[i].By? && !es[i].action.Fail?
  }

  // The marker is there, or the service is down and nobody is past starting it.
  predicate MarkerAhead(s: State) {
    s.ready
    || (!s.service && forall c :: 0 <= c < |s.clients| ==>
          var pc := s.clients[c].pc; !pc.Started? && !pc.Converting? && !pc.Polling?)
  }

  lemma ContinueKeepsMarker(s: State, c: nat)
    requires LocksConsistent(s) && c < |s.clients| && !s.clients[c].pc.Idle? && MarkerAhead(s)
    requires CanDo(s, s.clients[c].pc, Continue(s, s.clients[c].pc))
    ensures !Continue(s, s.clients[c].pc).Fail? && MarkerAhead(Act(s, c, Continue(s, s.clients[c].pc)))
  {
    var t := Act(s, c, Continue(s, s.clients[c].pc));
    assert LocksMatchPc(s, c);
    forall d | 0 <= d < |t.clients| && !t.ready
      ensures var pc := t.clients[d].pc; !pc.Started? && !pc.Converting? && !pc.Polling?
    {
      assert LocksMatchPc(s, d);
    }
  }

  lemma ContinueMovesOne(s: State, c: nat)
    requires c < |s.clients| && !s.clients[c].pc.Idle?
    requires CanDo(s, s.clients[c].pc, Continue(s, s.clients[c].pc))
    ensures var t := Act(s, c, Continue(s, s.clients[c].pc));
            && |t.clients| == |s.clients|
            && t.clients == s.clients[c := t.clients[c]]
            && Rank(t.clients[c].pc) < Rank(s.clients[c].pc)
  {
  }

  lemma ContinueDescends(s: State, c: nat)
    requires LocksConsistent(s) && c < |s.clients| && !s.clients[c].pc.Idle?
    requires CanDo(s, s.clients[c].pc, Continue(s, s.clients[c].pc))
    ensures var t := Act(s, c, Continue(s, s.clients[c].pc));
            LocksConsistent(t) && |t.clients| == |s.clients| && TotalRank(t.clients) < TotalRank(s.clients)
  {
    ActKeepsLocks(s, c, Continue(s, s.clients[c].pc));
    ContinueMovesOne(s, c);
    TotalRankUpdate(s.clients, c, Act(s, c, Continue(s, s.clients[c].pc)).clients[c]);
  }

  // Stronger than the absence of deadlock: from every reachable state the
  // processes inside can all finish, with no newcomer and no help from the service
  // or its keeper.  The one failure that may be needed is a refusing client's that
  // polls for a marker which is not there, and none is if the marker is there or
  // the service is still to be started.
  lemma {:induction false} EveryoneCanLeave(s: State) returns (es: seq<Event>, t: State)
    requires LocksConsistent(s)
    ensures Run(s, es, t) && Courteous(s, es)
    ensures |t.clients| == |s.clients| && forall c :: 0 <= c < |t.clients| ==> t.clients[c].pc.Idle?
    ensures MarkerAhead(s) ==> NoFailure(es)
    decreases TotalRank(s.clients)
  {
    if forall c :: 0 <= c < |s.clients| ==> s.clients[c].pc.Idle? {
      return [], s;
    }
    var d: nat :| d < |s.clients| && !s.clients[d].pc.Idle?;
    var c := NoDeadlock(s, d);
    var e := By(c, Continue(s, s.clients[c].pc));
    var m := Next(s, e);
    ContinueDescends(s, c);
    if MarkerAhead(s) {
      ContinueKeepsMarker(s, c);
    }
    var fs;
    fs, t := EveryoneCanLeave(m);
    es := [e] + fs;
    assert es[1..] == fs;
  }
}
