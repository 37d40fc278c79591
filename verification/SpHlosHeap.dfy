// The DMA-BUF heap shared with the secure processor: page runs taken from the
// contiguous memory area, handed to SPSS for the life of a buffer, and either
// returned or, when they cannot be taken back from SPSS, quarantined.
//
// The outcome of every allocation, ownership call and export is an input.  A
// failed ownership call changes nothing.

module SpHlosHeap {
  import opened CTypes

  const PAGE_SIZE := 4096
  const HEAP_MAX_SIZE := 0x100_0000

  // ---------- Pages as values ----------

  datatype Run = Run(base: nat, count: nat)

  predicate InRun(r: Run, p: nat) {
    r.base <= p < r.base + r.count
  }

  function Pages(r: Run): set<nat> {
    set p: nat | p < r.base + r.count && InRun(r, p)
  }

  // How far an allocation or a release has come with the run it holds.
  datatype Phase =
    | Taken       // out of the pool
    | Cleared
    | Lent        // SPSS reaches it too, not exported yet
    | Returning   // no buffer any more, SPSS still reaches it
    | Reclaimed   // only Linux reaches it again

  datatype State = State(
    free: set<nat>,           // the contiguous memory area's pool
    shared: set<nat>,         // pages SPSS can reach
    zeroed: set<nat>,         // pages whose contents are known to be zero
    live: set<Run>,           // exported buffers
    flight: map<Run, Phase>,  // runs held by calls under way
    quarantined: set<nat>,    // given up: never returned to the pool
    elsewhere: set<nat>)      // taken from the pool by other users

  function PagesOf(runs: set<Run>): set<nat> {
    set r, p | r in runs && p in Pages(r) :: p
  }

  function LentRuns(flight: map<Run, Phase>): set<Run> {
    set r | r in flight && (flight[r].Lent? || flight[r].Returning?)
  }

  function PreparedRuns(flight: map<Run, Phase>): set<Run> {
    set r | r in flight && (flight[r].Cleared? || flight[r].Lent?)
  }

  // Every page is in exactly one place and no two runs overlap.
  ghost predicate Placed(s: State, all: set<nat>) {
    var live, flight := PagesOf(s.live), PagesOf(s.flight.Keys);
    && s.free + live + flight + s.quarantined + s.elsewhere == all
    && s.free !! live !! flight !! s.quarantined !! s.elsewhere
    && s.live !! s.flight.Keys
    && (forall q, r :: q in s.live + s.flight.Keys && r in s.live + s.flight.Keys && q != r ==> Pages(q) !! Pages(r))
    && (forall r :: r in s.live + s.flight.Keys ==> r.count > 0)
  }

  // And SPSS reaches exactly the pages that are exported, lent or quarantined, and
  // a run is still clear when it is exported.
  ghost predicate Partition(s: State, all: set<nat>) {
    && Placed(s, all)
    && s.shared == PagesOf(s.live) + PagesOf(LentRuns(s.flight)) + s.quarantined
    && (forall r :: r in PreparedRuns(s.flight) ==> Pages(r) <= s.zeroed)
  }

  datatype Error = EINVAL | ENOMEM | EASSIGN | EEXPORT
  datatype Result = Exported(run: Run) | Failed(error: Error)

  // What the calls made by sp_hlos_allocate return.
  datatype AllocIo = AllocIo(
    bufferOk: bool, cma: Option<nat>, highMem: bool, arrayOk: bool, shareOk: bool, exportOk: bool, reclaimOk: bool)

  // PAGE_ALIGN(len) >> PAGE_SHIFT in 64-bit arithmetic
  function PageCount(len: u64): nat {
    (len + PAGE_SIZE - 1) % 0x1_0000_0000_0000_0000 / PAGE_SIZE
  }

  predicate Acceptable(len: u64, heapFlags: nat) {
    0 < len <= HEAP_MAX_SIZE && heapFlags == 0
  }

  // The area hands out only runs of its own free pages.
  predicate CmaGives(s: State, len: u64, io: AllocIo) {
    io.cma.Some? ==> Pages(Run(io.cma.value, PageCount(len))) <= s.free
  }

  // ---------- One call at a time ----------

  // What sp_hlos_allocate() comes to, whatever happened on the way.
  function Allocated(s: State, len: u64, heapFlags: nat, io: AllocIo): (State, Result) {
    if !Acceptable(len, heapFlags) then (s, Failed(EINVAL))
    else if !io.bufferOk || io.cma.None? then (s, Failed(ENOMEM))
    else
      var run := Run(io.cma.value, PageCount(len));
      var cleared := s.(zeroed := s.zeroed + Pages(run));
      if !io.arrayOk then (cleared, Failed(ENOMEM))
      else if !io.shareOk then (cleared, Failed(EASSIGN))
      else
        var taken := cleared.(free := s.free - Pages(run), shared := s.shared + Pages(run));
        if io.exportOk then (taken.(live := s.live + {run}), Exported(run))
        else if io.reclaimOk then (cleared, Failed(EEXPORT))
        else (taken.(quarantined := s.quarantined + Pages(run)), Failed(EEXPORT))
  }

  // And what sp_hlos_release() comes to.
  function Released(s: State, run: Run, reclaimOk: bool): State {
    if reclaimOk then
      s.(live := s.live - {run}, shared := s.shared - Pages(run), free := s.free + Pages(run))
    else
      s.(live := s.live - {run}, quarantined := s.quarantined + Pages(run))
  }

  // ---------- Calls under way ----------

  // What the calls do one after the other; any number of them may be under way.
  datatype Event =
    | Take(run: Run)                       // cma_alloc()
    | Clear(run: Run)
    | Share(run: Run, ok: bool)
    | Export(run: Run, ok: bool)
    | Retire(run: Run)                     // the last reference to a buffer is gone
    | Reclaim(run: Run, ok: bool)          // if not, the run is withdrawn
    | GiveBack(run: Run)                   // cma_release()
    | Write(page: nat)                     // by whoever holds the page
    | OthersTake(pages: set<nat>)          // other users of the contiguous area
    | OthersReturn(pages: set<nat>)

  predicate InPhase(s: State, run: Run, phase: Phase) {
    run in s.flight && s.flight[run] == phase
  }

  predicate Enabled(s: State, e: Event) {
    match e
    case Take(run) => run.count > 0 && Pages(run) <= s.free
    case Clear(run) => InPhase(s, run, Taken)
    case Share(run, _) => InPhase(s, run, Cleared)
    case Export(run, _) => InPhase(s, run, Lent)
    case Retire(run) => run in s.live
    case Reclaim(run, _) => InPhase(s, run, Returning)
    case GiveBack(run) => InPhase(s, run, Cleared) || InPhase(s, run, Reclaimed)
    case Write(page) => page !in s.free && page !in PagesOf(PreparedRuns(s.flight))
    case OthersTake(pages) => pages <= s.free
    case OthersReturn(pages) => pages <= s.elsewhere
  }

  function Step(s: State, e: Event): State {
    match e
    case Take(run) => s.(free := s.free - Pages(run), flight := s.flight[run := Taken])
    case Clear(run) => s.(zeroed := s.zeroed + Pages(run), flight := s.flight[run := Cleared])
    case Share(run, ok) =>
      if ok then s.(shared := s.shared + Pages(run), flight := s.flight[run := Lent]) else s
    case Export(run, ok) =>
      if ok then s.(live := s.live + {run}, flight := s.flight - {run})
      else s.(flight := s.flight[run := Returning])
    case Retire(run) => s.(live := s.live - {run}, flight := s.flight[run := Returning])
    case Reclaim(run, ok) =>
      if ok then s.(shared := s.shared - Pages(run), flight := s.flight[run := Reclaimed])
      else s.(quarantined := s.quarantined + Pages(run), flight := s.flight - {run})
    case GiveBack(run) => s.(free := s.free + Pages(run), flight := s.flight - {run})
    case Write(page) => s.(zeroed := s.zeroed - {page})
    case OthersTake(pages) => s.(free := s.free - pages, elsewhere := s.elsewhere + pages)
    case OthersReturn(pages) => s.(free := s.free + pages, elsewhere := s.elsewhere - pages, zeroed := s.zeroed - pages)
  }

  function After(s: State, es: seq<Event>): State {
    if es == [] then s else Step(After(s, es[..|es| - 1]), es[|es| - 1])
  }

  predicate Legal(s: State, es: seq<Event>) {
    es == [] || (Legal(s, es[..|es| - 1]) && Enabled(After(s, es[..|es| - 1]), es[|es| - 1]))
  }

  lemma LegalSnoc(s: State, es: seq<Event>, e: Event)
    requires Legal(s, es) && Enabled(After(s, es), e)
    ensures Legal(s, es + [e]) && After(s, es + [e]) == Step(After(s, es), e)
  {
    assert (es + [e])[..|es|] == es;
  }

  // ---------- Sets of runs ----------

  lemma PagesOfAdd(runs: set<Run>, run: Run)
    ensures PagesOf(runs + {run}) == PagesOf(runs) + Pages(run)
  {
  }

  lemma PagesOfRemove(runs: set<Run>, run: Run)
    requires run in runs
    requires forall q, r :: q in runs && r in runs && q != r ==> Pages(q) !! Pages(r)
    ensures PagesOf(runs - {run}) == PagesOf(runs) - Pages(run)
  {
    forall p | p in PagesOf(runs) && p !in Pages(run)
      ensures p in PagesOf(runs - {run})
    {
      var r :| r in runs && p in Pages(r);
      assert r in runs - {run};
    }
  }

  lemma RunBase(runs: set<Run>, run: Run)
    requires 0 < run.count
    ensures run.base in Pages(run)
    ensures run in runs ==> run.base in PagesOf(runs)
  {
  }

  // ---------- The buffer and heap objects ----------

  datatype Vm = HLOS | SPSS

  class Buffer {
    const cmaPages: nat
    const pagecount: nat
    const len: nat
    const pages: array<nat>
    var vmapCount: int
    var vaddr: Option<nat>

    ghost predicate Valid()
      reads this, pages
    {
      && pages.Length == pagecount && len == pagecount * PAGE_SIZE
      && (forall i :: 0 <= i < pagecount ==> pages[i] == cmaPages + i)
      && vmapCount >= 0
      && (vmapCount > 0 <==> vaddr.Some?)
    }

    function Extent(): Run {
      Run(cmaPages, pagecount)
    }

    constructor (cmaPages: nat, pagecount: nat, pages: array<nat>)
      requires pages.Length == pagecount && forall i :: 0 <= i < pagecount ==> pages[i] == cmaPages + i
      ensures Valid() && Extent() == Run(cmaPages, pagecount) && vmapCount == 0 && this.pages == pages
    {
      this.cmaPages, this.pagecount, this.len, this.pages := cmaPages, pagecount, pagecount * PAGE_SIZE, pages;
      vmapCount, vaddr := 0, None;
    }

    // sp_hlos_vmap(); `mapped` is what vmap() returned if it is called.
    method Vmap(mapped: Option<nat>) returns (address: Option<nat>)
      requires Valid()
      modifies this
      ensures Valid()
      ensures address.Some? <==> old(vmapCount) > 0 || mapped.Some?
      ensures address == if old(vmapCount) > 0 then old(vaddr) else mapped
      ensures if address.Some? then vmapCount == old(vmapCount) + 1 && vaddr == address
              else vmapCount == old(vmapCount) && vaddr == old(vaddr)
    {
      if vmapCount > 0 {
        vmapCount := vmapCount + 1;
        return vaddr;
      }
      if mapped.None? {
        return None;
      }
      vaddr := mapped;
      vmapCount := 1;
      address := mapped;
    }

    // sp_hlos_vunmap(); the DMA-BUF core pairs it with a successful vmap.
    method Vunmap()
      requires Valid() && vmapCount > 0
      modifies this
      ensures Valid() && vmapCount == old(vmapCount) - 1
      ensures vaddr == if vmapCount == 0 then None else old(vaddr)
    {
      vmapCount := vmapCount - 1;
      if vmapCount == 0 {
        vaddr := None;
      }
    }
  }

  class Heap {
    ghost const all: set<nat>
    var free: set<nat>
    var owners: map<nat, set<Vm>>   // which virtual machines reach a page
    var zeroed: set<nat>
    ghost var live: set<Run>
    ghost var flight: map<Run, Phase>
    ghost var quarantined: set<nat>
    ghost var elsewhere: set<nat>

    ghost function View(): State
      reads this
    {
      State(free, (set p | p in owners && SPSS in owners[p]), zeroed, live, flight, quarantined, elsewhere)
    }

    // Holds before, between and after the calls a method makes.
    ghost predicate Valid()
      reads this
    {
      && Partition(View(), all)
      && owners.Keys == all
      && forall p :: p in all ==> owners[p] == {HLOS} || owners[p] == {HLOS, SPSS}
    }

    constructor (pages: set<nat>)
      ensures Valid() && all == pages && View() == State(pages, {}, {}, {}, map[], {}, {})
    {
      all, free := pages, pages;
      owners := map p | p in pages :: {HLOS};
      zeroed, live, flight, quarantined, elsewhere := {}, {}, map[], {}, {};
    }

    // cma_alloc(), with the run the area chose
    method CmaAlloc(run: Run)
      requires Valid() && Enabled(View(), Take(run))
      modifies this`free, this`flight
      ensures Valid() && View() == Step(old(View()), Take(run))
    {
      StepKeepsPartition(View(), all, Take(run));
      free := free - Pages(run);
      flight := flight[run := Taken];
    }

    // cma_release().  Only pages that Linux alone reaches may go back.
    method CmaRelease(run: Run)
      requires Valid() && Enabled(View(), GiveBack(run))
      requires forall p :: p in Pages(run) ==> p in owners && owners[p] == {HLOS}
      modifies this`free, this`flight
      ensures Valid() && View() == Step(old(View()), GiveBack(run))
    {
      StepKeepsPartition(View(), all, GiveBack(run));
      free := free + Pages(run);
      flight := flight - {run};
    }

    // qcom_scm_assign_mem() through the source's in-out owner set.  The driver
    // must present the owners the pages really have.
    method AssignMem(run: Run, src: set<Vm>, dst: set<Vm>, succeeds: bool) returns (ok: bool, now: set<Vm>)
      requires Pages(run) <= owners.Keys && forall p :: p in Pages(run) ==> owners[p] == src
      modifies this`owners
      ensures ok == succeeds && now == (if ok then dst else src)
      ensures owners == if ok then old(owners) + map p | p in Pages(run) :: dst else old(owners)
      ensures var s := old(View());
              View() == if !ok then s
                        else if SPSS in dst then s.(shared := s.shared + Pages(run))
                        else s.(shared := s.shared - Pages(run))
    {
      ghost var s := View();
      ok := succeeds;
      if ok {
        owners := owners + map p | p in Pages(run) :: dst;
        assert View().shared == if SPSS in dst then s.shared + Pages(run) else s.shared - Pages(run);
      }
      now := if ok then dst else src;
    }

    method ClearPages(run: Run, highMem: bool)
      requires Valid() && Enabled(View(), Clear(run))
      modifies this`zeroed, this`flight
      ensures Valid() && View() == Step(old(View()), Clear(run))
    {
      StepKeepsPartition(View(), all, Clear(run));
      if highMem {
        var page := 0;
        while page < run.count
          invariant page <= run.count && flight == old(flight)
          invariant zeroed == old(zeroed) + Pages(Run(run.base, page))
        {
          zeroed := zeroed + {run.base + page};
          assert Pages(Run(run.base, page + 1)) == Pages(Run(run.base, page)) + {run.base + page};
          page := page + 1;
        }
      } else {
        zeroed := zeroed + Pages(run);
      }
      flight := flight[run := Cleared];
    }

    method PageArray(run: Run) returns (pages: array<nat>)
      ensures fresh(pages) && pages.Length == run.count
      ensures forall i :: 0 <= i < run.count ==> pages[i] == run.base + i
    {
      pages := new nat[run.count];
      var page := 0;
      while page < run.count
        invariant page <= run.count
        invariant forall i :: 0 <= i < page ==> pages[i] == run.base + i
      {
        pages[page] := run.base + page;
        page := page + 1;
      }
    }

    // Lending a cleared run to SPSS.
    method Lend(run: Run, vms: set<Vm>, shareOk: bool) returns (ok: bool, now: set<Vm>)
      requires Valid() && Enabled(View(), Share(run, shareOk)) && vms == {HLOS}
      modifies this`owners, this`flight
      ensures Valid() && View() == Step(old(View()), Share(run, shareOk))
      ensures ok == shareOk && now == if ok then {HLOS, SPSS} else {HLOS}
    {
      ghost var s := View();
      StepKeepsPartition(s, all, Share(run, shareOk));
      FlightPages(s, all, run);
      ok, now := AssignMem(run, vms, {HLOS, SPSS}, shareOk);
      if ok {
        flight := flight[run := Lent];
      }
    }

    // Taking a run back from SPSS: if that fails it is withdrawn for good.
    method TakeBack(run: Run, vms: set<Vm>, reclaimOk: bool) returns (ok: bool)
      requires Valid() && Enabled(View(), Reclaim(run, reclaimOk)) && vms == {HLOS, SPSS}
      modifies this`owners, this`flight, this`quarantined
      ensures Valid() && View() == Step(old(View()), Reclaim(run, reclaimOk)) && ok == reclaimOk
      ensures ok ==> forall p :: p in Pages(run) ==> p in owners && owners[p] == {HLOS}
    {
      ghost var s := View();
      StepKeepsPartition(s, all, Reclaim(run, reclaimOk));
      FlightPages(s, all, run);
      var now;
      ok, now := AssignMem(run, vms, {HLOS}, reclaimOk);
      if ok {
        flight := flight[run := Reclaimed];
      } else {
        quarantined := quarantined + Pages(run);
        flight := flight - {run};
      }
    }

    // The labels of sp_hlos_allocate() that return the run.
    method FreeCma(run: Run, ghost start: State, ghost before: seq<Event>) returns (ghost es: seq<Event>)
      requires Valid() && Enabled(View(), GiveBack(run)) && Legal(start, before) && View() == After(start, before)
      modifies this`free, this`flight
      ensures Valid() && View() == Step(old(View()), GiveBack(run))
      ensures Legal(start, es) && View() == After(start, es)
    {
      FlightPages(View(), all, run);
      LegalSnoc(start, before, GiveBack(run));
      CmaRelease(run);
      es := before + [GiveBack(run)];
    }

    // The end of a buffer, and of a failed export.
    method ReturnShared(run: Run, vms: set<Vm>, reclaimOk: bool, ghost start: State, ghost before: seq<Event>)
      returns (ghost es: seq<Event>)
      requires Valid() && Enabled(View(), Reclaim(run, reclaimOk)) && vms == {HLOS, SPSS}
      requires Legal(start, before) && View() == After(start, before)
      modifies this`free, this`owners, this`flight, this`quarantined
      ensures Valid() && Legal(start, es) && View() == After(start, es)
      ensures var t := Step(old(View()), Reclaim(run, reclaimOk));
              View() == if reclaimOk then Step(t, GiveBack(run)) else t
    {
      LegalSnoc(start, before, Reclaim(run, reclaimOk));
      var ok := TakeBack(run, vms, reclaimOk);
      es := before + [Reclaim(run, reclaimOk)];
      if ok {
        es := FreeCma(run, start, es);
      }
    }

    // sp_hlos_allocate() up to the clearing
    method TakeCleared(run: Run, highMem: bool) returns (ghost es: seq<Event>)
      requires Valid() && Enabled(View(), Take(run))
      modifies this`free, this`flight, this`zeroed
      ensures Valid() && View() == Flying(old(View()), run, Cleared)
      ensures Legal(old(View()), es) && View() == After(old(View()), es)
    {
      ghost var s := View();
      FlyingSteps(s, all, run);
      LegalSnoc(s, [], Take(run));
      CmaAlloc(run);
      es := [] + [Take(run)];
      LegalSnoc(s, es, Clear(run));
      ClearPages(run, highMem);
      es := es + [Clear(run)];
    }

    // sp_hlos_allocate()
    method Allocate(len: u64, heapFlags: nat, io: AllocIo) returns (result: Result, buffer: Buffer?, ghost es: seq<Event>)
      requires Valid() && CmaGives(View(), len, io)
      modifies this
      ensures Valid() && (View(), result) == Allocated(old(View()), len, heapFlags, io)
      ensures Legal(old(View()), es) && View() == After(old(View()), es)
      ensures result.Exported? <==> buffer != null
      ensures buffer != null ==>
                && fresh(buffer) && buffer.Valid() && buffer.Extent() == result.run && buffer.vmapCount == 0
                && Pages(result.run) <= zeroed
    {
      ghost var s := View();
      buffer, es := null, [];
      if len == 0 || len > HEAP_MAX_SIZE || heapFlags != 0 {
        return Failed(EINVAL), null, es;
      }
      if !io.bufferOk || io.cma.None? {
        return Failed(ENOMEM), null, es;
      }
      var run := Run(io.cma.value, PageCount(len));
      PageCountCovers(len);
      es := TakeCleared(run, io.highMem);
      FlyingSteps(s, all, run);
      if !io.arrayOk {
        es := FreeCma(run, s, es);
        return Failed(ENOMEM), null, es;
      }
      var pages := PageArray(run);
      result, buffer, es := ShareAndExport(run, pages, io, s, es);
    }

    // dma_buf_export()
    method ExportRun(run: Run, pages: array<nat>, exportOk: bool, ghost start: State, ghost before: seq<Event>)
      returns (buffer: Buffer?, ghost es: seq<Event>)
      requires Valid() && Enabled(View(), Export(run, exportOk)) && Legal(start, before) && View() == After(start, before)
      requires pages.Length == run.count && forall i :: 0 <= i < run.count ==> pages[i] == run.base + i
      modifies this`flight, this`live
      ensures Valid() && View() == Step(old(View()), Export(run, exportOk))
      ensures Legal(start, es) && View() == After(start, es)
      ensures exportOk <==> buffer != null
      ensures buffer != null ==>
                fresh(buffer) && buffer.Valid() && buffer.Extent() == run && buffer.vmapCount == 0 && buffer.pages == pages
    {
      LegalSnoc(start, before, Export(run, exportOk));
      StepKeepsPartition(View(), all, Export(run, exportOk));
      es := before + [Export(run, exportOk)];
      if exportOk {
        flight := flight - {run};
        live := live + {run};
        buffer := new Buffer(run.base, run.count, pages);
      } else {
        flight := flight[run := Returning];
        buffer := null;
      }
    }

    // sp_hlos_allocate() from the ownership call on.
    method ShareAndExport(run: Run, pages: array<nat>, io: AllocIo, ghost s: State, ghost before: seq<Event>)
      returns (result: Result, buffer: Buffer?, ghost es: seq<Event>)
      requires Partition(s, all) && Enabled(s, Take(run)) && Valid() && View() == Flying(s, run, Cleared)
      requires Legal(s, before) && View() == After(s, before)
      requires pages.Length == run.count && forall i :: 0 <= i < run.count ==> pages[i] == run.base + i
      modifies this`free, this`owners, this`flight, this`live, this`quarantined
      ensures Valid() && Legal(s, es) && View() == After(s, es)
      ensures (View(), result) ==
              if !io.shareOk then (Restored(s, run), Failed(EASSIGN))
              else if io.exportOk then (Handed(s, run).(live := s.live + {run}), Exported(run))
              else if io.reclaimOk then (Restored(s, run), Failed(EEXPORT))
              else (Handed(s, run).(quarantined := s.quarantined + Pages(run)), Failed(EEXPORT))
      ensures result.Exported? <==> buffer != null
      ensures buffer != null ==>
                fresh(buffer) && buffer.Valid() && buffer.Extent() == run && buffer.vmapCount == 0 && buffer.pages == pages
    {
      FlyingSteps(s, all, run);
      buffer := null;
      var vms: set<Vm> := {HLOS};
      var ok;
      LegalSnoc(s, before, Share(run, io.shareOk));
      ok, vms := Lend(run, vms, io.shareOk);
      es := before + [Share(run, io.shareOk)];
      if !ok {
        es := FreeCma(run, s, es);
        return Failed(EASSIGN), null, es;
      }
      buffer, es := ExportRun(run, pages, io.exportOk, s, es);
      if buffer == null {
        es := ReturnShared(run, vms, io.reclaimOk, s, es);
        return Failed(EEXPORT), null, es;
      }
      result := Exported(run);
    }

    method Release(buffer: Buffer, reclaimOk: bool) returns (ghost es: seq<Event>)
      requires Valid() && buffer.Valid() && buffer.Extent() in live
      modifies this, buffer
      ensures Valid() && View() == Released(old(View()), buffer.Extent(), reclaimOk)
      ensures Legal(old(View()), es) && View() == After(old(View()), es)
      ensures buffer.vaddr == None
    {
      ghost var s := View();
      var run := buffer.Extent();
      LegalSnoc(s, [], Retire(run));
      StepKeepsPartition(s, all, Retire(run));
      RetiredSteps(s, all, run);
      live := live - {run};
      flight := flight[run := Returning];
      if buffer.vmapCount > 0 {
        buffer.vaddr := None;
      }
      es := ReturnShared(run, {HLOS, SPSS}, reclaimOk, s, [] + [Retire(run)]);
    }
  }

  // ---------- Conservation ----------

  // A run under way holds pages of its own, which SPSS reaches exactly while the
  // run is lent or coming back.
  lemma FlightPages(s: State, all: set<nat>, run: Run)
    requires Partition(s, all) && run in s.flight
    ensures Pages(run) <= all && Pages(run) !! s.free
    ensures if s.flight[run].Lent? || s.flight[run].Returning? then Pages(run) <= s.shared else Pages(run) !! s.shared
  {
    assert Pages(run) <= PagesOf(s.flight.Keys);
    if s.flight[run].Lent? || s.flight[run].Returning? {
      assert run in LentRuns(s.flight);
    } else {
      forall r | r in LentRuns(s.flight)
        ensures Pages(r) !! Pages(run)
      {
        assert r in s.live + s.flight.Keys && run in s.live + s.flight.Keys;
      }
    }
  }

  // A run of free pages is nobody's yet.
  lemma NewRun(s: State, all: set<nat>, run: Run)
    requires Partition(s, all) && run.count > 0 && Pages(run) <= s.free
    ensures run !in s.live && run !in s.flight && Pages(run) !! s.shared
    ensures forall r :: r in s.live + s.flight.Keys ==> Pages(r) !! Pages(run)
  {
    RunBase(s.live, run);
    RunBase(s.flight.Keys, run);
    assert PagesOf(LentRuns(s.flight)) <= PagesOf(s.flight.Keys);
    forall r | r in s.live + s.flight.Keys
      ensures Pages(r) !! Pages(run)
    {
      assert r in s.live ==> Pages(r) <= PagesOf(s.live);
      assert r in s.flight ==> Pages(r) <= PagesOf(s.flight.Keys);
    }
  }

  // s with a new run at some point of its allocation.
  function Flying(s: State, run: Run, phase: Phase): State {
    s.(free := s.free - Pages(run), zeroed := s.zeroed + Pages(run), flight := s.flight[run := phase],
       shared := if phase.Lent? || phase.Returning? then s.shared + Pages(run) else s.shared)
  }

  // s with the run given back, and with it handed over to SPSS.
  function Restored(s: State, run: Run): State {
    s.(zeroed := s.zeroed + Pages(run))
  }

  function Handed(s: State, run: Run): State {
    s.(free := s.free - Pages(run), zeroed := s.zeroed + Pages(run), shared := s.shared + Pages(run))
  }

  lemma FlyingSteps(s: State, all: set<nat>, run: Run)
    requires Partition(s, all) && Enabled(s, Take(run))
    ensures run !in s.live && run !in s.flight
    ensures Step(Step(s, Take(run)), Clear(run)) == Flying(s, run, Cleared)
    ensures Step(Flying(s, run, Cleared), GiveBack(run)) == Restored(s, run)
    ensures Step(Flying(s, run, Cleared), Share(run, true)) == Flying(s, run, Lent)
    ensures Step(Flying(s, run, Lent), Export(run, true)) == Handed(s, run).(live := s.live + {run})
    ensures Step(Flying(s, run, Lent), Export(run, false)) == Flying(s, run, Returning)
    ensures Step(Step(Flying(s, run, Returning), Reclaim(run, true)), GiveBack(run)) == Restored(s, run)
    ensures Step(Flying(s, run, Returning), Reclaim(run, false)) ==
            Handed(s, run).(quarantined := s.quarantined + Pages(run))
  {
    NewRun(s, all, run);
    FlightRestored(s.flight, run, Taken, Cleared);
    FlightRestored(s.flight, run, Cleared, Lent);
    FlightRestored(s.flight, run, Lent, Returning);
    FlightRestored(s.flight, run, Returning, Reclaimed);
    assert s.shared + Pages(run) - Pages(run) == s.shared;
    assert s.free - Pages(run) + Pages(run) == s.free;
  }

  lemma RetiredSteps(s: State, all: set<nat>, run: Run)
    requires Partition(s, all) && run in s.live
    ensures var t := Step(s, Retire(run));
            && Step(Step(t, Reclaim(run, true)), GiveBack(run)) == Released(s, run, true)
            && Step(t, Reclaim(run, false)) == Released(s, run, false)
  {
    FlightRestored(s.flight, run, Returning, Reclaimed);
  }

  lemma FlightRestored(flight: map<Run, Phase>, run: Run, phase: Phase, next: Phase)
    requires run !in flight
    ensures flight[run := phase][run := next] == flight[run := next]
    ensures flight[run := phase] - {run} == flight && flight[run := next] - {run} == flight
  {
  }

  // A request that passes the check is for at least one page and at most 4096,
  // and covers its length with less than a page to spare.
  lemma PageCountCovers(len: u64)
    requires 0 < len <= 0x100_0000
    ensures 1 <= PageCount(len) <= 4096 && len <= PageCount(len) * 4096 < len + 4096
  {
  }

  lemma TakeKeepsPartition(s: State, all: set<nat>, run: Run)
    requires Partition(s, all) && Enabled(s, Take(run))
    ensures Partition(Step(s, Take(run)), all)
  {
    NewRun(s, all, run);
    var t := Step(s, Take(run));
    assert t.flight.Keys == s.flight.Keys + {run};
    PagesOfAdd(s.flight.Keys, run);
    assert LentRuns(t.flight) == LentRuns(s.flight) && PreparedRuns(t.flight) == PreparedRuns(s.flight);
  }

  lemma ClearKeepsPartition(s: State, all: set<nat>, run: Run)
    requires Partition(s, all) && Enabled(s, Clear(run))
    ensures Partition(Step(s, Clear(run)), all)
  {
    var t := Step(s, Clear(run));
    assert t.flight.Keys == s.flight.Keys;
    assert LentRuns(t.flight) == LentRuns(s.flight) && PreparedRuns(t.flight) == PreparedRuns(s.flight) + {run};
  }

  lemma ShareKeepsPartition(s: State, all: set<nat>, run: Run, ok: bool)
    requires Partition(s, all) && Enabled(s, Share(run, ok))
    ensures Partition(Step(s, Share(run, ok)), all)
  {
    var t := Step(s, Share(run, ok));
    if ok {
      assert t.flight.Keys == s.flight.Keys;
      assert LentRuns(t.flight) == LentRuns(s.flight) + {run} && PreparedRuns(t.flight) == PreparedRuns(s.flight);
      PagesOfAdd(LentRuns(s.flight), run);
    }
  }

  lemma ExportKeepsPartition(s: State, all: set<nat>, run: Run, ok: bool)
    requires Partition(s, all) && Enabled(s, Export(run, ok))
    ensures Partition(Step(s, Export(run, ok)), all)
  {
    var t := Step(s, Export(run, ok));
    if ok {
      assert t.flight.Keys == s.flight.Keys - {run};
      assert LentRuns(t.flight) == LentRuns(s.flight) - {run} && PreparedRuns(t.flight) == PreparedRuns(s.flight) - {run};
      PagesOfAdd(s.live, run);
      PagesOfRemove(s.flight.Keys, run);
      PagesOfRemove(LentRuns(s.flight), run);
    } else {
      assert t.flight.Keys == s.flight.Keys;
      assert LentRuns(t.flight) == LentRuns(s.flight) && PreparedRuns(t.flight) <= PreparedRuns(s.flight);
    }
  }

  lemma RetireKeepsPartition(s: State, all: set<nat>, run: Run)
    requires Partition(s, all) && Enabled(s, Retire(run))
    ensures Partition(Step(s, Retire(run)), all)
  {
    var t := Step(s, Retire(run));
    assert t.flight.Keys == s.flight.Keys + {run};
    assert LentRuns(t.flight) == LentRuns(s.flight) + {run} && PreparedRuns(t.flight) == PreparedRuns(s.flight);
    PagesOfRemove(s.live, run);
    PagesOfAdd(s.flight.Keys, run);
    PagesOfAdd(LentRuns(s.flight), run);
    assert Pages(run) <= PagesOf(s.live);
  }

  lemma ReclaimKeepsPartition(s: State, all: set<nat>, run: Run, ok: bool)
    requires Partition(s, all) && Enabled(s, Reclaim(run, ok))
    ensures Partition(Step(s, Reclaim(run, ok)), all)
  {
    var t := Step(s, Reclaim(run, ok));
    FlightPages(s, all, run);
    assert LentRuns(t.flight) == LentRuns(s.flight) - {run};
    PagesOfRemove(LentRuns(s.flight), run);
    assert PreparedRuns(t.flight) == PreparedRuns(s.flight);
    if ok {
      assert t.flight.Keys == s.flight.Keys;
    } else {
      assert t.flight.Keys == s.flight.Keys - {run};
      PagesOfRemove(s.flight.Keys, run);
    }
  }

  lemma GiveBackKeepsPartition(s: State, all: set<nat>, run: Run)
    requires Partition(s, all) && Enabled(s, GiveBack(run))
    ensures Partition(Step(s, GiveBack(run)), all)
  {
    var t := Step(s, GiveBack(run));
    FlightPages(s, all, run);
    assert t.flight.Keys == s.flight.Keys - {run};
    assert LentRuns(t.flight) == LentRuns(s.flight) && PreparedRuns(t.flight) <= PreparedRuns(s.flight);
    PagesOfRemove(s.flight.Keys, run);
  }

  lemma StepKeepsPartition(s: State, all: set<nat>, e: Event)
    requires Partition(s, all) && Enabled(s, e)
    ensures Partition(Step(s, e), all)
  {
    match e
    case Take(run) => TakeKeepsPartition(s, all, run);
    case Clear(run) => ClearKeepsPartition(s, all, run);
    case Share(run, ok) => ShareKeepsPartition(s, all, run, ok);
    case Export(run, ok) => ExportKeepsPartition(s, all, run, ok);
    case Retire(run) => RetireKeepsPartition(s, all, run);
    case Reclaim(run, ok) => ReclaimKeepsPartition(s, all, run, ok);
    case GiveBack(run) => GiveBackKeepsPartition(s, all, run);
    case Write(page) => WriteKeepsPartition(s, all, page);
    case OthersTake(pages) =>
    case OthersReturn(pages) => ReturnKeepsPartition(s, all, pages);
  }

  lemma WriteKeepsPartition(s: State, all: set<nat>, page: nat)
    requires Partition(s, all) && Enabled(s, Write(page))
    ensures Partition(Step(s, Write(page)), all)
  {
    forall r | r in PreparedRuns(s.flight)
      ensures page !in Pages(r)
    {
      assert Pages(r) <= PagesOf(PreparedRuns(s.flight));
    }
  }

  lemma ReturnKeepsPartition(s: State, all: set<nat>, pages: set<nat>)
    requires Partition(s, all) && Enabled(s, OthersReturn(pages))
    ensures Partition(Step(s, OthersReturn(pages)), all)
  {
    forall r | r in PreparedRuns(s.flight)
      ensures Pages(r) !! pages
    {
      assert Pages(r) <= PagesOf(s.flight.Keys);
    }
  }

  // Over every run, with any number of allocations and releases under way and any
  // of their calls failing, no page is lost or counted twice, and at no point is
  // one that SPSS can reach in the pool; quarantine only grows.
  lemma {:induction false} PagesAreConserved(s: State, all: set<nat>, es: seq<Event>)
    requires Partition(s, all) && Legal(s, es)
    ensures var t := After(s, es);
            Partition(t, all) && t.free !! t.shared && s.quarantined <= t.quarantined
  {
    if es != [] {
      var p := es[..|es| - 1];
      PagesAreConserved(s, all, p);
      StepKeepsPartition(After(s, p), all, es[|p|]);
    }
    assert PagesOf(LentRuns(After(s, es).flight)) <= PagesOf(After(s, es).flight.Keys);
  }

  // Whatever other calls are under way, a run is exported with every page cleared,
  // lent to SPSS, out of the pool and overlapping nothing else in use.
  lemma ExportsCleared(s: State, all: set<nat>, run: Run)
    requires Partition(s, all) && Enabled(s, Export(run, true))
    ensures Pages(run) <= s.zeroed && Pages(run) <= s.shared && Pages(run) !! s.free
    ensures run !in s.live && forall r :: r in s.live + s.flight.Keys && r != run ==> Pages(r) !! Pages(run)
  {
    FlightPages(s, all, run);
    assert run in PreparedRuns(s.flight);
  }

  // ---------- What a call comes to ----------

  lemma AllocatedKeepsPartition(s: State, all: set<nat>, len: u64, heapFlags: nat, io: AllocIo)
    requires Partition(s, all) && CmaGives(s, len, io)
    ensures Partition(Allocated(s, len, heapFlags, io).0, all)
  {
    if Acceptable(len, heapFlags) && io.bufferOk && io.cma.Some? {
      var run := Run(io.cma.value, PageCount(len));
      PageCountCovers(len);
      NewRun(s, all, run);
      PagesOfAdd(s.live, run);
    }
  }

  lemma ReleasedKeepsPartition(s: State, all: set<nat>, run: Run, reclaimOk: bool)
    requires Partition(s, all) && run in s.live
    ensures Partition(Released(s, run, reclaimOk), all)
  {
    PagesOfRemove(s.live, run);
    assert Pages(run) <= PagesOf(s.live);
  }

  // An allocation is exported if and only if its length is between one byte and 16 MiB,
  // it asks for no heap flags and every call went through; and each error has its cause.
  lemma AllocationSucceedsExactly(s: State, len: u64, heapFlags: nat, io: AllocIo)
    ensures var r := Allocated(s, len, heapFlags, io).1;
            var asked := 1 <= len <= 16 * 1024 * 1024 && heapFlags == 0;
            var cleared := asked && io.bufferOk && io.cma.Some? && io.arrayOk;
            && (r.Exported? <==> cleared && io.shareOk && io.exportOk)
            && (r.Exported? ==> r.run.base == io.cma.value && r.run.count == (len + 4095) / 4096)
            && (r == Failed(EINVAL) <==> !asked)
            && (r == Failed(ENOMEM) <==> asked && !cleared)
            && (r == Failed(EASSIGN) <==> cleared && !io.shareOk)
            && (r == Failed(EEXPORT) <==> cleared && io.shareOk && !io.exportOk)
  {
  }

  // A failed allocation leaves the pool, the buffers and the sharing as they
  // were; only when the export failed and the pages could not be taken back are
  // they withdrawn from the pool, all of them, into quarantine.
  lemma FailedAllocateExactly(s: State, all: set<nat>, len: u64, heapFlags: nat, io: AllocIo)
    requires Partition(s, all) && CmaGives(s, len, io)
    requires Allocated(s, len, heapFlags, io).1.Failed?
    ensures var t := Allocated(s, len, heapFlags, io).0;
            var lost := Acceptable(len, heapFlags) && io.bufferOk && io.cma.Some? && io.arrayOk && io.shareOk && !io.reclaimOk;
            t == if lost then
                   var pages := Pages(Run(io.cma.value, PageCount(len)));
                   s.(free := s.free - pages, shared := s.shared + pages,
                      quarantined := s.quarantined + pages, zeroed := t.zeroed)
                 else s.(zeroed := t.zeroed)
  {
  }

  // Giving a buffer back undoes getting it, but for the contents of its pages.
  lemma ReleaseUndoesAllocate(s: State, all: set<nat>, len: u64, io: AllocIo)
    requires Partition(s, all) && CmaGives(s, len, io)
    requires Allocated(s, len, 0, io).1.Exported?
    ensures var (t, r) := Allocated(s, len, 0, io);
            Released(t, r.run, true) == s.(zeroed := t.zeroed)
  {
    var (t, r) := Allocated(s, len, 0, io);
    PageCountCovers(len);
    NewRun(s, all, r.run);
    assert t.live - {r.run} == s.live;
    assert t.shared - Pages(r.run) == s.shared;
  }

  // A buffer is exported with every page cleared, over pages nobody else holds.
  lemma ExportedBuffersAreZeroed(s: State, all: set<nat>, len: u64, heapFlags: nat, io: AllocIo)
    requires Partition(s, all) && CmaGives(s, len, io)
    requires Allocated(s, len, heapFlags, io).1.Exported?
    ensures var (t, r) := Allocated(s, len, heapFlags, io);
            && Pages(r.run) <= t.zeroed && Pages(r.run) <= s.free
            && r.run in t.live && r.run !in s.live
            && len <= r.run.count * PAGE_SIZE < len + PAGE_SIZE
            && forall q :: q in s.live ==> Pages(q) !! Pages(r.run)
  {
    PageCountCovers(len);
    var (t, r) := Allocated(s, len, heapFlags, io);
    NewRun(s, all, r.run);
  }
}
