/**
  Histories of the virtual memory system: any sequence of process starts, allocations, forks,
  stores, exits and reaps, by any processes in any order. The reference memory, in which a fork
  copies all of the parent's pages at once and a store reaches one page of one process, goes
  through the same history and shows the same contents at every point. Whatever the kernel
  refuses or loses is accounted for, frame by frame.
 */
module VmHistory {
  import opened Core
  import opened Frames
  import opened PageTables
  import opened Segments
  import opened Cow
  import opened VirtualMemory

  datatype Op =
    | Boot(a: nat)
    | Alloc(a: nat, addr: nat, len: nat, flags: bv32)
    | AllocPhys(a: nat, addr: nat, len: nat, flags: bv32, paddr: nat)
    | ForkTo(p: nat, c: nat)
    | Write(a: nat, v: nat, off: nat, b: Byte)
    | Exit(a: nat)
    | Reap(a: nat)

  /** What an operation reports: not applicable, done, pages mapped, refused, or a page lost. */
  datatype Outcome = Skipped | Done | Pages(base: nat, n: nat) | Failed | PageLost

  /** The operation on the reference memory, given what the kernel reported. */
  ghost function Reference(e: Eager, op: Op, o: Outcome): Eager {
    match (op, o)
    case (Boot(a), Done) => e[a := map[]]
    case (Alloc(a, _, _, flags), Pages(base, n)) =>
      if a in e then AddPages(e, a, base, n, Cell(ZERO_PAGE, AllocFlags(flags))) else e
    case (ForkTo(p, c), Done) => if p in e then e[c := e[p]] else e
    case (Write(a, v, off, b), Done) => if a in e && off < 4096 then Stores(e, a, v, off, b, Stored) else e
    case (Write(a, v, off, b), PageLost) => if a in e then SetCell(e, a, v, None) else e
    case (Exit(a), Done) => e[a := map[]]
    case (Reap(a), Done) => e - {a}
    case _ => e
  }

  /** The reference memory after a history. */
  ghost function ReferenceRun(e: Eager, ops: seq<Op>, os: seq<Outcome>): Eager
    requires |ops| == |os|
  {
    if ops == [] then e else Reference(ReferenceRun(e, ops[..|ops| - 1], os[..|ops| - 1]), ops[|ops| - 1], os[|ops| - 1])
  }

  // ---------------------------------------------------------------------
  // What the kernel must report.

  /** What the kernel knows at one point of a history. */
  datatype Snapshot = Snapshot(
    maps: Flat, segs: map<nat, seq<Word>>, user: set<nat>, room: Room, exited: set<nat>, down: bool)

  /**
    No allocation has run out of memory so far, the process is there to do it, and the request does not
    wrap round 4 gigabytes or leave user space.
   */
  ghost predicate Applicable(k: Snapshot, op: Op) {
    !k.down && match op
    case Boot(a) => a !in k.maps
    case Alloc(a, addr, len, flags) => a in k.maps && a !in k.exited && InSpace(addr, len, flags)
    case AllocPhys(a, addr, len, flags, _) => a in k.maps && a !in k.exited && InSpace(addr, len, flags)
    case ForkTo(p, c) => p in k.maps && p !in k.exited && c !in k.maps
    case Write(a, v, off, _) =>
      && a in k.maps && a !in k.exited && off < 4096 && v < USER_PAGES
      && (v in k.maps[a] ==> !IsPhys(k.maps[a][v].flags))
    case Exit(a) => a in k.maps && a !in k.exited
    case Reap(a) => a in k.exited
  }

  predicate InSpace(addr: nat, len: nat, flags: bv32) {
    && addr < 0x1_0000_0000 && len < 0x1_0000_0000
    && Hint(addr / 4096, Fixed(flags)) + PagesFor(len) < SPACE
  }

  /**
    An allocation of `n` pages at `each` frames a page: refused iff there is no such segment, else put at the
    address asked for, or where it fits first, as far as frames go.
   */
  ghost predicate AllocExplained(k: Snapshot, a: nat, page: nat, n: nat, fixed: bool, ty: SegType, each: nat, o: Outcome, k': Snapshot) {
    && a in k.segs && a in k.maps
    && (o == Failed <==> !Available(k.segs[a], page, n, fixed))
    && (o == Failed ==> k'.room == k.room && k'.maps == k.maps && k'.segs == k.segs)
    && (o != Failed ==>
          && o.Pages? && Afforded(k.maps[a].Keys, o.base, n, o.n, each, k.room, k'.room)
          && (if fixed then o.base == page else FirstFit(k.segs[a], Hint(page, false), n, o.base))
          && a in k'.segs && k'.segs == k.segs[a := k'.segs[a]] && SplitAt(k.segs[a], o.base, n, ty, k'.segs[a]))
  }

  /** An allocation ran out of memory, and the kernel is in the cleanup that it does not survive. */
  predicate RanOut(op: Op, o: Outcome) {
    (op.Alloc? || op.AllocPhys?) && o.Pages? && o.n < PagesFor(op.len)
  }

  /** Which outcome an operation has, and what it leaves of the free frames, `e` being what the processes see. */
  ghost predicate Explained(e: Eager, k: Snapshot, op: Op, o: Outcome, k': Snapshot) {
    if !Applicable(k, op) then o == Skipped && k' == k
    else (k'.down <==> RanOut(op, o)) && k'.exited == ExitedAfter(k.exited, op) && match op
      case Boot(a) =>
        && o == (if CanTake(k.room, 4) then Done else Failed)
        && k'.room == (if CanTake(k.room, 4) then TakeBlock(k.room, 4) else k.room)
        && k'.maps == (if o == Done then k.maps[a := map[]] else k.maps)
        && k'.segs == if o == Done then k.segs[a := INITIAL] else k.segs
      case Alloc(a, addr, len, flags) =>
        && AllocExplained(k, a, addr / 4096, PagesFor(len), Fixed(flags), ALLOC, 1, o, k')
        && (o.Pages? ==> Grew(k.maps, k.user, a, o.base, o.n, AllocFlags(flags), k'.maps))
      case AllocPhys(a, addr, len, flags, paddr) =>
        && AllocExplained(k, a, addr / 4096, PagesFor(len), Fixed(flags), PHYS, 0, o, k')
        && (o.Pages? ==> k'.maps == k.maps[a := k.maps[a] + DevicePages(o.base, o.n, paddr / 4096, PhysFlags(flags))])
      case ForkTo(p, c) =>
        && o == (if CanFork(k.maps[p].Keys, k.room) then Done else Failed)
        && k'.room == ForkRoom(k.maps[p].Keys, k.room)
        && p in k.segs && k'.segs == (if o == Done then k.segs[c := k.segs[p]] else k.segs)
        && if o == Done then k'.maps == k.maps[p := ParentAll(k.maps[p])][c := ChildAll(k.maps[p])]
           else MarkedInPart(k.maps, p, k'.maps)
      case Write(a, v, off, _) =>
        && a in e
        && o == (if !(v in e[a] && Writable(e[a][v].flags)) then Failed
                 else if StoreNeed(k.maps, map[], a, v) > Left(k.room) then PageLost
                 else Done)
        && k'.room == Spend(k.room, StoreNeed(k.maps, map[], a, v)) && k'.segs == k.segs
        && (o == PageLost ==> k'.maps == SetPte(k.maps, a, v, None))
        && (o == Failed ==> k'.maps == k.maps)
        && (o == Done ==> if IsCow(k.maps, a, v) then Resolved(k.maps, map[], k.user, a, v, k'.maps) else k'.maps == k.maps)
      case Exit(a) => o == Done && k'.room == k.room && k'.maps == k.maps[a := map[]] && k'.segs == k.segs[a := INITIAL]
      case Reap(a) => o == Done && k'.room == k.room && k'.maps == k.maps - {a} && k'.segs == k.segs - {a}
  }

  ghost function ExitedAfter(exited: set<nat>, op: Op): set<nat> {
    match op
    case Exit(a) => exited + {a}
    case Reap(a) => exited - {a}
    case _ => exited
  }

  // ---------------------------------------------------------------------

  /** The processes in `exited` have no page mapped. */
  ghost predicate AllEmpty(exited: set<nat>, dom: map<nat, set<nat>>) {
    forall a :: a in exited ==> a in dom && dom[a] == {}
  }

  /** Processes that have exited stay empty while another one changes. */
  lemma StillEmpty(exited: set<nat>, dom: map<nat, set<nat>>, a: nat, s: set<nat>)
    requires AllEmpty(exited, dom)
    ensures a !in exited || s == {} ==> AllEmpty(exited, dom[a := s])
    ensures AllEmpty(exited - {a}, dom - {a})
    ensures s == {} ==> AllEmpty(exited + {a}, dom[a := s])
  {
  }

  lemma NotAmong(exited: set<nat>, m: Flat, c: nat)
    requires AllEmpty(exited, Domains(m)) && c !in m
    ensures c !in exited
  {
  }

  lemma EmptyMap(m: Flat, exited: set<nat>, a: nat)
    requires AllEmpty(exited, Domains(m)) && a in exited
    ensures a in m && m[a] == map[]
  {
    assert Domains(m)[a] == {};
  }

  class Machine {
    const vm: Vm
    /** Processes that have exited and not been reaped. */
    var exited: set<nat>
    /** An allocation has run out of memory. */
    var down: bool

    ghost predicate Gone()
      reads this, vm`maps
    {
      AllEmpty(exited, Domains(vm.maps))
    }

    ghost predicate Inv()
      reads this, vm, vm.frames
    {
      vm.Inv() && vm.lost == map[] && Gone()
    }

    ghost function Now(): Snapshot
      reads this, vm, vm.frames
    {
      Snapshot(vm.maps, vm.segs, vm.user, vm.frames.Stock(), exited, down)
    }

    constructor (vm: Vm)
      requires vm.Inv() && vm.lost == map[]
      ensures Inv() && this.vm == vm && exited == {} && !down
    {
      this.vm, exited, down := vm, {}, false;
    }

    lemma Spaces()
      requires Inv()
      ensures vm.dirs.Keys == vm.maps.Keys == vm.segs.Keys && vm.Walk()
      ensures vm.Seen().Keys == vm.maps.Keys && InRange(vm.maps)
    {
      TablesKeys(vm.dirs, vm.maps, vm.user, vm.frames.live, vm.root);
    }

    /** One operation of the history. */
    method Step(op: Op) returns (o: Outcome)
      requires Inv()
      modifies this, vm, vm.frames
      ensures Inv()
      ensures vm.Seen() == Reference(old(vm.Seen()), op, o)
      ensures Explained(old(vm.Seen()), old(Now()), op, o, Now())
    {
      hide Vm.Inv, Vm.Seen, Machine.Gone, Reference, Explained;
      match op
      case Boot(a) => o := StepBoot(a);
      case Alloc(a, addr, len, flags) => o := StepAlloc(a, addr, len, flags);
      case AllocPhys(a, addr, len, flags, paddr) => o := StepAllocPhys(a, addr, len, flags, paddr);
      case ForkTo(p, c) => o := StepFork(p, c);
      case Write(a, v, off, b) => o := StepWrite(a, v, off, b);
      case Exit(a) => o := StepExit(a);
      case Reap(a) => o := StepReap(a);
    }

    method StepBoot(a: nat) returns (o: Outcome)
      requires Inv()
      modifies this, vm, vm.frames
      ensures Inv() && vm.Seen() == Reference(old(vm.Seen()), Boot(a), o)
      ensures Explained(old(vm.Seen()), old(Now()), Boot(a), o, Now())
    {
      hide Vm.Inv, Vm.Seen, Vm.Walk, Domains, AllEmpty, CanTake, TakeBlock;
      Spaces();
      if down || a in vm.dirs {
        return Skipped;
      }
      ghost var dom := Domains(vm.maps);
      var ok := vm.Boot(a);
      StillEmpty(exited, dom, a, {});
      o := if ok then Done else Failed;
    }

    method StepAlloc(a: nat, addr: nat, len: nat, flags: bv32) returns (o: Outcome)
      requires Inv()
      modifies this, vm, vm.frames
      ensures Inv() && vm.Seen() == Reference(old(vm.Seen()), Alloc(a, addr, len, flags), o)
      ensures Explained(old(vm.Seen()), old(Now()), Alloc(a, addr, len, flags), o, Now())
    {
      hide Vm.Inv, Vm.Seen, Vm.Walk, Domains, AllEmpty, AddPages, AllocFlags, Available, Updated, View, Afforded, Fixed, Frames.Run,
        Explained, Reference, OutcomeFor, FirstFit, SplitAt, Grew;
      Spaces();
      NothingDone(vm.Seen(), Now(), Alloc(a, addr, len, flags));
      if down || a !in vm.dirs || a in exited || !InSpace(addr, len, flags) {
        return Skipped;
      }
      ghost var dom := Domains(vm.maps);
      var g := vm.VirtualAlloc(a, addr, len, flags);
      StillEmpty(exited, dom, a, old(vm.maps)[a].Keys + Frames.Run(if g.Refused? then 0 else g.base, Count(g, PagesFor(len))));
      o := OutcomeFor(g, PagesFor(len));
      down := g.Short?;
      AllocReference(old(vm.Seen()), a, addr, len, flags, g);
      AllocOutcome(old(vm.Seen()), old(Now()), Alloc(a, addr, len, flags), ALLOC, 1, g, Now());
    }

    method StepAllocPhys(a: nat, addr: nat, len: nat, flags: bv32, paddr: nat) returns (o: Outcome)
      requires Inv()
      modifies this, vm, vm.frames
      ensures Inv() && vm.Seen() == Reference(old(vm.Seen()), AllocPhys(a, addr, len, flags, paddr), o)
      ensures Explained(old(vm.Seen()), old(Now()), AllocPhys(a, addr, len, flags, paddr), o, Now())
    {
      hide Vm.Inv, Vm.Seen, Vm.Walk, Domains, AllEmpty, Available, Updated, View, Afforded, Fixed, Frames.Run, PhysFlags,
        Explained, OutcomeFor, FirstFit, SplitAt, DevicePages;
      Spaces();
      NothingDone(vm.Seen(), Now(), AllocPhys(a, addr, len, flags, paddr));
      if down || a !in vm.dirs || a in exited || !InSpace(addr, len, flags) {
        return Skipped;
      }
      ghost var dom := Domains(vm.maps);
      var g := vm.VirtualAllocPhys(a, addr, len, flags, paddr);
      StillEmpty(exited, dom, a, old(vm.maps)[a].Keys + Frames.Run(if g.Refused? then 0 else g.base, Count(g, PagesFor(len))));
      o := OutcomeFor(g, PagesFor(len));
      down := g.Short?;
      AllocOutcome(old(vm.Seen()), old(Now()), AllocPhys(a, addr, len, flags, paddr), PHYS, 0, g, Now());
    }

    method StepFork(p: nat, c: nat) returns (o: Outcome)
      requires Inv()
      modifies this, vm, vm.frames
      ensures Inv() && vm.Seen() == Reference(old(vm.Seen()), ForkTo(p, c), o)
      ensures Explained(old(vm.Seen()), old(Now()), ForkTo(p, c), o, Now())
    {
      hide Vm.Inv, Vm.Seen, Vm.Walk, Domains, AllEmpty, View, CanFork, ForkRoom;
      Spaces();
      if down || p !in vm.dirs || p in exited || c in vm.dirs {
        return Skipped;
      }
      ghost var dom := Domains(vm.maps);
      var sc := vm.Fork(p, c);
      StillEmpty(exited, dom, c, old(vm.maps)[p].Keys);
      assert c !in exited by { assert AllEmpty(exited, dom); NotAmong(exited, old(vm.maps), c); }
      o := if sc == 0 then Done else Failed;
    }

    method StepWrite(a: nat, v: nat, off: nat, b: Byte) returns (o: Outcome)
      requires Inv()
      modifies this, vm, vm.frames
      ensures Inv() && vm.Seen() == Reference(old(vm.Seen()), Write(a, v, off, b), o)
      ensures Explained(old(vm.Seen()), old(Now()), Write(a, v, off, b), o, Now())
    {
      hide Vm.Inv, Vm.Seen, Vm.Walk, Domains, AllEmpty, Stores, Writable, IsPhys, StoreNeed, Spend;
      Spaces();
      if down || a !in vm.dirs || a in exited || off >= 4096 || v >= USER_PAGES {
        return Skipped;
      }
      var entry := vm.ExtractPage(a, v);
      if entry.Some? && IsPhys(entry.value.flags) {
        return Skipped;
      }
      ghost var dom := Domains(vm.maps);
      var r := WriteKept(a, v, off, b);
      StillEmpty(exited, dom, a, old(vm.maps)[a].Keys - {v});
      StoreReference(old(vm.Seen()), a, v, off, b, r);
      o := OutcomeOf(r);
    }

    method WriteKept(a: nat, v: nat, off: nat, b: Byte) returns (r: Store)
      requires vm.Inv() && vm.lost == map[] && a in vm.maps && off < 4096 && v < USER_PAGES && (v in vm.maps[a] ==> !IsPhys(vm.maps[a][v].flags))
      modifies vm, vm.frames
      ensures vm.Inv() && a in old(vm.Seen())
      ensures Domains(vm.maps) == if r == Lost then Domains(old(vm.maps))[a := old(vm.maps)[a].Keys - {v}] else Domains(old(vm.maps))
      ensures r == Fault <==> !(v in old(vm.Seen())[a] && Writable(old(vm.Seen())[a][v].flags))
      ensures r == Lost <==> StoreNeed(old(vm.maps), map[], a, v) > Left(old(vm.frames.Stock()))
      ensures vm.frames.Stock() == Spend(old(vm.frames.Stock()), StoreNeed(old(vm.maps), map[], a, v))
      ensures vm.lost == map[] && vm.segs == old(vm.segs)
      ensures r == Lost ==> vm.maps == SetPte(old(vm.maps), a, v, None)
      ensures r == Fault ==> vm.maps == old(vm.maps)
      ensures r == Stored ==> if IsCow(old(vm.maps), a, v) then Resolved(old(vm.maps), map[], old(vm.user), a, v, vm.maps)
                              else vm.maps == old(vm.maps)
      ensures vm.Seen() == Stores(old(vm.Seen()), a, v, off, b, r)
    {
      hide Vm.FramesOk, View, Sorted, NotFree, Writable, IsPhys, Stores, Vm.Seen, StoreNeed, Spend;
      ghost var dom := Domains(vm.maps);
      r := vm.UserWrite(a, v, off, b);
      assert vm.maps.Keys == Domains(vm.maps).Keys == dom.Keys;
    }

    method StepExit(a: nat) returns (o: Outcome)
      requires Inv()
      modifies this, vm, vm.frames
      ensures Inv() && vm.Seen() == Reference(old(vm.Seen()), Exit(a), o)
      ensures Explained(old(vm.Seen()), old(Now()), Exit(a), o, Now())
    {
      hide Vm.Inv, Vm.Seen, Vm.Walk, Domains, AllEmpty;
      Spaces();
      if down || a !in vm.dirs || a in exited {
        return Skipped;
      }
      ghost var dom := Domains(vm.maps);
      vm.Exit(a);
      StillEmpty(exited, dom, a, {});
      exited := exited + {a};
      o := Done;
    }

    method StepReap(a: nat) returns (o: Outcome)
      requires Inv()
      modifies this, vm, vm.frames
      ensures Inv() && vm.Seen() == Reference(old(vm.Seen()), Reap(a), o)
      ensures Explained(old(vm.Seen()), old(Now()), Reap(a), o, Now())
    {
      hide Vm.Inv, Vm.Seen, Vm.Walk, Domains, AllEmpty;
      if down || a !in exited {
        return Skipped;
      }
      ghost var dom := Domains(vm.maps);
      EmptyMap(vm.maps, exited, a);
      vm.Reap(a);
      StillEmpty(exited, dom, a, {});
      exited := exited - {a};
      o := Done;
    }

    /**
      Lazy sharing is indistinguishable from eager copying: whatever the history, what each
      process sees is what it would see if every fork had copied every page; and each operation
      has exactly the outcome that the segments and the free frames allow.
     */
    method Run(ops: seq<Op>) returns (os: seq<Outcome>, ghost ks: seq<Snapshot>)
      requires Inv()
      modifies this, vm, vm.frames
      ensures Inv() && |os| == |ops| && |ks| == |ops| + 1 && ks[0] == old(Now()) && ks[|ops|] == Now()
      ensures vm.Seen() == ReferenceRun(old(vm.Seen()), ops, os)
      ensures forall f :: f in vm.user ==> f < |vm.frames.pf| && vm.frames.pf[f].refCnt == |Refs(vm.maps, f)|
      ensures forall i :: 0 <= i <= |ops| ==> InRange(ks[i].maps)
      ensures forall i :: 0 <= i < |ops| ==>
                Explained(ReferenceRun(old(vm.Seen()), ops[..i], os[..i]), ks[i], ops[i], os[i], ks[i + 1])
    {
      hide Machine.Inv, Vm.Seen, ReferenceRun, Reference, Explained, Machine.Now, InRange, AllExplained;
      NowInRange();
      os, ks := [], [Now()];
      NoneExplained(vm.Seen(), ops, Now());
      while |os| < |ops|
        invariant |os| <= |ops| && Inv() && |ks| == |os| + 1 && ks[0] == old(Now()) && ks[|os|] == Now()
        invariant vm.Seen() == ReferenceRun(old(vm.Seen()), ops[..|os|], os)
        invariant AllExplained(old(vm.Seen()), ops, os, ks)
      {
        var o := Step(ops[|os|]);
        NowInRange();
        Longer(old(vm.Seen()), ops, os, ks, o, Now());
        os := os + [o];
        ks := ks + [Now()];
      }
      assert ops[..|os|] == ops;
      CountsExact();
      AllExplainedIs(old(vm.Seen()), ops, os, ks);
    }

    /** The reference count of a frame is the number of its mappings. */
    lemma CountsExact()
      requires Inv()
      ensures forall f :: f in vm.user ==> f < |vm.frames.pf| && vm.frames.pf[f].refCnt == |Refs(vm.maps, f)|
    {
    }

    lemma NowInRange()
      requires Inv()
      ensures InRange(Now().maps)
    {
    }
  }

  /** Each of the operations done so far has the outcome that it must have. */
  ghost predicate AllExplained(e: Eager, ops: seq<Op>, os: seq<Outcome>, ks: seq<Snapshot>) {
    && |os| <= |ops| && |ks| == |os| + 1 && (forall i :: 0 <= i <= |os| ==> InRange(ks[i].maps))
    && forall i :: 0 <= i < |os| ==> Explained(ReferenceRun(e, ops[..i], os[..i]), ks[i], ops[i], os[i], ks[i + 1])
  }

  lemma NoneExplained(e: Eager, ops: seq<Op>, k: Snapshot)
    requires InRange(k.maps)
    ensures AllExplained(e, ops, [], [k]) && ReferenceRun(e, ops[..0], []) == e
  {
  }

  lemma Longer(e: Eager, ops: seq<Op>, os: seq<Outcome>, ks: seq<Snapshot>, o: Outcome, k: Snapshot)
    requires AllExplained(e, ops, os, ks) && |os| < |ops| && InRange(k.maps)
    requires Explained(ReferenceRun(e, ops[..|os|], os), ks[|os|], ops[|os|], o, k)
    ensures AllExplained(e, ops, os + [o], ks + [k])
    ensures ReferenceRun(e, ops[..|os| + 1], os + [o]) == Reference(ReferenceRun(e, ops[..|os|], os), ops[|os|], o)
  {
    hide Explained, InRange, Reference;
    var i, os', ks' := |os|, os + [o], ks + [k];
    assert ops[..i + 1][..i] == ops[..i] && os'[..i] == os;
    forall j | 0 <= j < |os'| ensures Explained(ReferenceRun(e, ops[..j], os'[..j]), ks'[j], ops[j], os'[j], ks'[j + 1]) {
      assert j < i ==> os'[..j] == os[..j];
    }
  }

  lemma AllExplainedIs(e: Eager, ops: seq<Op>, os: seq<Outcome>, ks: seq<Snapshot>)
    requires AllExplained(e, ops, os, ks) && |os| == |ops|
    ensures |ks| == |ops| + 1 && forall i :: 0 <= i <= |ops| ==> InRange(ks[i].maps)
    ensures forall i :: 0 <= i < |ops| ==> Explained(ReferenceRun(e, ops[..i], os[..i]), ks[i], ops[i], os[i], ks[i + 1])
  {
    hide Explained, InRange, ReferenceRun;
  }

  function OutcomeFor(g: Granted, n: nat): Outcome {
    match g case Refused => Failed case Mapped(base) => Pages(base, n) case Short(base, k) => Pages(base, k)
  }

  lemma AllocReference(e: Eager, a: nat, addr: nat, len: nat, flags: bv32, g: Granted)
    requires a in e
    ensures Reference(e, Alloc(a, addr, len, flags), OutcomeFor(g, PagesFor(len))) ==
            if g.Refused? then e else AddPages(e, a, g.base, Count(g, PagesFor(len)), Cell(ZERO_PAGE, AllocFlags(flags)))
  {
    hide AddPages, AllocFlags;
  }

  lemma NothingDone(e: Eager, k: Snapshot, op: Op)
    ensures Reference(e, op, Skipped) == e
    ensures !Applicable(k, op) ==> Explained(e, k, op, Skipped, k)
  {
    hide Applicable;
  }

  /** An allocation at `each` frames a page has the outcome that it must have. */
  lemma AllocOutcome(e: Eager, k: Snapshot, op: Op, ty: SegType, each: nat, g: Granted, k': Snapshot)
    requires (op.Alloc? && each == 1 && ty == ALLOC) || (op.AllocPhys? && each == 0 && ty == PHYS)
    requires Applicable(k, op) && op.a in k.segs && k'.down == g.Short? && k'.exited == k.exited
    requires g.Refused? <==> !Available(k.segs[op.a], op.addr / 4096, PagesFor(op.len), Fixed(op.flags))
    requires g.Refused? ==> k'.room == k.room && k'.maps == k.maps && k'.segs == k.segs
    requires !g.Refused? ==>
               var n := PagesFor(op.len);
               && Afforded(k.maps[op.a].Keys, g.base, n, Count(g, n), each, k.room, k'.room)
               && (if Fixed(op.flags) then g.base == op.addr / 4096
                   else FirstFit(k.segs[op.a], Hint(op.addr / 4096, false), n, g.base))
               && op.a in k'.segs && k'.segs == k.segs[op.a := k'.segs[op.a]] && SplitAt(k.segs[op.a], g.base, n, ty, k'.segs[op.a])
    requires !g.Refused? && op.Alloc? ==> Grew(k.maps, k.user, op.a, g.base, Count(g, PagesFor(op.len)), AllocFlags(op.flags), k'.maps)
    requires !g.Refused? && op.AllocPhys? ==>
               k'.maps == k.maps[op.a := k.maps[op.a] + DevicePages(g.base, Count(g, PagesFor(op.len)), op.paddr / 4096, PhysFlags(op.flags))]
    requires g.Short? ==> g.pages < PagesFor(op.len)
    ensures Explained(e, k, op, OutcomeFor(g, PagesFor(op.len)), k')
  {
    hide Available, Afforded, Fixed, PagesFor, FirstFit, SplitAt, Grew, DevicePages, Hint, AllocFlags, PhysFlags;
  }

  function OutcomeOf(r: Store): Outcome {
    match r case Stored => Done case Fault => Failed case Lost => PageLost
  }

  lemma StoreReference(e: Eager, a: nat, v: nat, off: nat, b: Byte, r: Store)
    requires a in e && off < 4096
    ensures Reference(e, Write(a, v, off, b), OutcomeOf(r)) == Stores(e, a, v, off, b, r)
  {
    hide Writable;
  }

  // ---------------------------------------------------------------------
  // With enough memory nothing is refused or lost for want of it.

  /** The blocks an operation may take at most: a directory and a table for each megabyte, a page and a table for each page. */
  function Bound(op: Op): nat {
    match op
    case Boot(_) => 1
    case Alloc(_, _, len, _) => 2 * PagesFor(len)
    case AllocPhys(_, _, len, _, _) => PagesFor(len)
    case ForkTo(_, _) => 1 + USER_PDES
    case Write(_, _, _, _) => 2
    case _ => 0
  }

  function Total(ops: seq<Op>): nat {
    if ops == [] then 0 else Total(ops[..|ops| - 1]) + Bound(ops[|ops| - 1])
  }

  /** The operation did less than was asked because memory ran out. */
  predicate RanShort(op: Op, o: Outcome) {
    || o == PageLost
    || ((op.Boot? || op.ForkTo?) && o == Failed)
    || RanOut(op, o)
  }

  lemma {:induction false} RangeBound(s: set<nat>, lo: nat, k: nat, each: nat)
    requires each <= 1
    ensures RangeNeed(s, lo, k, each) <= each * k + k
    decreases k
  {
    hide Frames.Run, TableNeed;
    if k > 0 {
      RangeBound(s, lo, k - 1, each);
      TableNeedSmall(s + Frames.Run(lo, k - 1), lo + k - 1);
    }
  }

  lemma TableNeedSmall(s: set<nat>, v: nat)
    ensures TableNeed(s, v) <= 1
  {
  }

  lemma TablesBound(s: set<nat>)
    requires forall v :: v in s ==> v < USER_PAGES
    ensures TableCount(s) <= USER_PDES
  {
    forall d | d in Megabytes(s) ensures d in Frames.Run(0, USER_PDES) {
      var w :| w in s && Dir(w) == d;
    }
    Subset(Megabytes(s), Frames.Run(0, USER_PDES));
    RunSize(0, USER_PDES);
  }

  lemma {:induction false} RunSize(lo: nat, k: nat)
    ensures |Frames.Run(lo, k)| == k
    decreases k
  {
    if k > 0 {
      RunSize(lo, k - 1);
    }
  }

  lemma StepBound(e: Eager, k: Snapshot, op: Op, o: Outcome, k': Snapshot)
    requires Explained(e, k, op, o, k') && InRange(k.maps)
    ensures k'.room.k64 + Bound(op) >= k.room.k64
    ensures Bound(op) <= k.room.k64 ==> !RanShort(op, o)
  {
    hide Spend, TableCount, RangeNeed, StoreNeed, Available, Writable, IsPhys, Hint, Fixed, PagesFor;
    if Applicable(k, op) {
      match op
      case Boot(_) =>
      case Alloc(a, _, len, _) => AllocBound(k, a, o, k', PagesFor(len), 1);
      case AllocPhys(a, _, len, _, _) => AllocBound(k, a, o, k', PagesFor(len), 0);
      case ForkTo(p, _) => TablesBound(k.maps[p].Keys);
      case Write(a, v, _, _) => StoreBound(k.maps, a, v);
      case _ =>
    }
  }

  lemma AllocBound(k: Snapshot, a: nat, o: Outcome, k': Snapshot, n: nat, each: nat)
    requires a in k.maps && each <= 1
    requires if o == Failed then k'.room == k.room else o.Pages? && Afforded(k.maps[a].Keys, o.base, n, o.n, each, k.room, k'.room)
    ensures k'.room.k64 + (each * n + n) >= k.room.k64
    ensures each * n + n <= k.room.k64 && o.Pages? ==> o.n == n
  {
    hide Spend, RangeNeed;
    if o != Failed {
      RangeBound(k.maps[a].Keys, o.base, n, each);
      AffordedMost(k.maps[a].Keys, o.base, n, o.n, each, k.room, k'.room);
    }
  }

  lemma StoreBound(m: Flat, a: nat, v: nat)
    ensures StoreNeed(m, map[], a, v) <= 2
  {
  }

  /** A history that starts with as many free slabs as its operations may take blocks never runs short. */
  lemma {:induction false} NeverShort(e: Eager, ops: seq<Op>, os: seq<Outcome>, ks: seq<Snapshot>, i: nat)
    requires |os| == |ops| && |ks| == |ops| + 1 && i <= |ops|
    requires forall j :: 0 <= j < |ops| ==> InRange(ks[j].maps)
    requires forall j :: 0 <= j < |ops| ==> Explained(ReferenceRun(e, ops[..j], os[..j]), ks[j], ops[j], os[j], ks[j + 1])
    requires Total(ops) <= ks[0].room.k64
    ensures ks[i].room.k64 + Total(ops[..i]) >= ks[0].room.k64
    ensures forall j :: 0 <= j < i ==> !RanShort(ops[j], os[j])
  {
    hide Explained, ReferenceRun, InRange, RanShort, Bound;
    if i > 0 {
      NeverShort(e, ops, os, ks, i - 1);
      assert ops[..i][..i - 1] == ops[..i - 1];
      TotalGrows(ops, i);
      StepBound(ReferenceRun(e, ops[..i - 1], os[..i - 1]), ks[i - 1], ops[i - 1], os[i - 1], ks[i]);
    }
  }

  lemma {:induction false} TotalGrows(ops: seq<Op>, i: nat)
    requires i <= |ops|
    ensures Total(ops[..i]) <= Total(ops)
  {
    if i == |ops| {
      assert ops[..i] == ops;
    } else {
      TotalGrows(ops[..|ops| - 1], i);
      assert ops[..|ops| - 1][..i] == ops[..i];
    }
  }

  // ---------------------------------------------------------------------
  // Device pages: only a process's own calls change them, and fork passes them on.

  ghost function DevicesOf(s: Space): Space {
    map v | v in s && IsPhys(s[v].flags) :: s[v]
  }

  ghost function DeviceMaps(m: Flat): Flat {
    map a | a in m :: DevicesOf(m[a])
  }

  /** The operation on the device pages, given what the kernel reported. */
  ghost function DeviceReference(d: Flat, op: Op, o: Outcome): Flat {
    match (op, o)
    case (Boot(a), Done) => d[a := map[]]
    case (AllocPhys(a, _, _, flags, paddr), Pages(base, n)) =>
      if a in d then d[a := d[a] + DevicePages(base, n, paddr / 4096, PhysFlags(flags))] else d
    case (ForkTo(p, c), Done) => if p in d then d[c := ChildAll(d[p])] else d
    case (Exit(a), Done) => d[a := map[]]
    case (Reap(a), Done) => d - {a}
    case _ => d
  }

  ghost function DeviceRun(d: Flat, ops: seq<Op>, os: seq<Outcome>): Flat
    requires |ops| == |os|
  {
    if ops == [] then d else DeviceReference(DeviceRun(d, ops[..|ops| - 1], os[..|ops| - 1]), ops[|ops| - 1], os[|ops| - 1])
  }

  /** A private page is no device page, whatever is done to its mark. */
  lemma PrivateKind(flags: bv32)
    requires IsAlloc(flags)
    ensures !IsPhys(flags) && !IsPhys(SetCow(flags)) && !IsPhys(ClearCow(flags))
  {
    hide IsAlloc, IsPhys, HwWritable, SetCow, ClearCow, Visible, Writable;
    CowBits(flags);
    KindBits(flags);
    KindBits(SetCow(flags));
    KindBits(ClearCow(flags));
  }

  lemma ParentKind(q: Pte)
    ensures IsPhys(ParentPte(q).flags) <==> IsPhys(q.flags)
    ensures IsPhys(q.flags) ==> ParentPte(q) == q
    ensures IsPhys(ChildPte(q).flags) <==> IsPhys(q.flags)
  {
    hide IsAlloc, IsPhys, HwWritable, SetCow, Writable;
    KindBits(q.flags);
    if IsAlloc(q.flags) { PrivateKind(q.flags); }
  }

  lemma DevicesMarked(s: Space, v: nat)
    ensures DevicesOf(ParentSpace(s, v)) == DevicesOf(s) && DevicesOf(ParentAll(s)) == DevicesOf(s)
    ensures DevicesOf(ChildAll(s)) == ChildAll(DevicesOf(s))
  {
    hide IsPhys, ParentPte, ChildPte;
    forall w | w in s
      ensures IsPhys(ParentPte(s[w]).flags) <==> IsPhys(s[w].flags)
      ensures IsPhys(s[w].flags) ==> ParentPte(s[w]) == s[w]
      ensures IsPhys(ChildPte(s[w]).flags) <==> IsPhys(s[w].flags)
    {
      ParentKind(s[w]);
    }
  }

  lemma DevicesFork(k: Snapshot, p: nat, c: nat, o: Outcome, k': Snapshot)
    requires p in k.maps && o in {Done, Failed}
    requires if o == Done then k'.maps == k.maps[p := ParentAll(k.maps[p])][c := ChildAll(k.maps[p])]
             else MarkedInPart(k.maps, p, k'.maps)
    ensures DeviceMaps(k'.maps) == DeviceReference(DeviceMaps(k.maps), ForkTo(p, c), o)
  {
    hide DevicesOf, ParentAll, ChildAll, ParentSpace;
    if o == Done {
      DevicesMarked(k.maps[p], 0);
    } else {
      var u :| k'.maps == k.maps[p := ParentSpace(k.maps[p], u)];
      DevicesMarked(k.maps[p], u);
    }
  }

  lemma DevicesPut(s: Space, v: nat, q: Option<Pte>)
    requires v in s ==> !IsPhys(s[v].flags)
    requires q.Some? ==> !IsPhys(q.value.flags)
    ensures DevicesOf(if q.Some? then s[v := q.value] else s - {v}) == DevicesOf(s)
  {
    hide IsPhys;
  }

  lemma DevicesWrite(k: Snapshot, a: nat, v: nat, o: Outcome, k': Snapshot)
    requires o in {Done, Failed, PageLost}
    requires o == PageLost ==> IsCow(k.maps, a, v) && k'.maps == SetPte(k.maps, a, v, None)
    requires o == Failed ==> k'.maps == k.maps
    requires o == Done ==> if IsCow(k.maps, a, v) then Resolved(k.maps, map[], k.user, a, v, k'.maps) else k'.maps == k.maps
    ensures DeviceMaps(k'.maps) == DeviceMaps(k.maps)
  {
    hide IsAlloc, IsPhys, HwWritable, Writable, ClearCow, DevicesOf;
    if IsCow(k.maps, a, v) && o != Failed {
      PrivateKind(k.maps[a][v].flags);
      DevicesPut(k.maps[a], v, if o == Done then Some(k'.maps[a][v]) else None);
    }
  }

  lemma DevicesGrew(m: Flat, user: set<nat>, a: nat, lo: nat, n: nat, flags: bv32, m': Flat)
    requires Grew(m, user, a, lo, n, flags, m') && !IsPhys(flags)
    ensures DeviceMaps(m') == DeviceMaps(m)
  {
    hide IsPhys;
    assert DevicesOf(m'[a]) == DevicesOf(m[a]);
  }

  lemma DevicesAdded(s: Space, lo: nat, n: nat, ppage: nat, flags: bv32)
    requires IsPhys(flags)
    ensures DevicesOf(s + DevicePages(lo, n, ppage, flags)) == DevicesOf(s) + DevicePages(lo, n, ppage, flags)
  {
    hide IsPhys;
  }

  lemma DevicesElse(m: Flat, a: nat)
    ensures DeviceMaps(m[a := map[]]) == DeviceMaps(m)[a := map[]] && DeviceMaps(m - {a}) == DeviceMaps(m) - {a}
  {
    hide IsPhys;
    assert DevicesOf(map[]) == map[];
  }

  lemma DevicesAlloc(k: Snapshot, a: nat, base: nat, n: nat, flags: bv32, k': Snapshot)
    requires Grew(k.maps, k.user, a, base, n, AllocFlags(flags), k'.maps)
    ensures DeviceMaps(k'.maps) == DeviceMaps(k.maps)
  {
    hide IsAlloc, IsPhys, Grew, AllocFlags, DeviceMaps;
    CallerFlags(flags);
    PrivateKind(AllocFlags(flags));
    DevicesGrew(k.maps, k.user, a, base, n, AllocFlags(flags), k'.maps);
  }

  lemma DevicesPhys(m: Flat, a: nat, base: nat, n: nat, ppage: nat, flags: bv32)
    requires a in m
    ensures var d := DeviceMaps(m);
            DeviceMaps(m[a := m[a] + DevicePages(base, n, ppage, PhysFlags(flags))]) ==
            d[a := d[a] + DevicePages(base, n, ppage, PhysFlags(flags))]
  {
    hide IsPhys, DevicesOf, DevicePages, PhysFlags;
    CallerFlags(flags);
    DevicesAdded(m[a], base, n, ppage, PhysFlags(flags));
  }

  lemma DevicesStep(e: Eager, k: Snapshot, op: Op, o: Outcome, k': Snapshot)
    requires Explained(e, k, op, o, k')
    ensures DeviceMaps(k'.maps) == DeviceReference(DeviceMaps(k.maps), op, o)
  {
    hide IsAlloc, IsPhys, DeviceMaps, Grew, DevicePages, AllocFlags, PhysFlags, Available, Afforded, FirstFit, SplitAt, Hint, Fixed,
      MarkedInPart, Spend, Resolved, Writable, HwWritable, CanFork, ForkRoom, CanTake, TakeBlock, PagesFor, ParentAll, ChildAll;
    if Applicable(k, op) {
      match op
      case Alloc(a, addr, len, flags) => if o.Pages? { DevicesAlloc(k, a, o.base, o.n, flags, k'); }
      case AllocPhys(a, addr, len, flags, paddr) =>
        KeysKept(k.maps);
        if o.Pages? { DevicesPhys(k.maps, a, o.base, o.n, paddr / 4096, flags); }
      case ForkTo(p, c) => DevicesFork(k, p, c, o, k');
      case Write(a, v, off, b) => DevicesWrite(k, a, v, o, k');
      case Boot(a) => DevicesElse(k.maps, a);
      case Exit(a) => DevicesElse(k.maps, a);
      case Reap(a) => DevicesElse(k.maps, a);
    }
  }

  lemma KeysKept(m: Flat)
    ensures DeviceMaps(m).Keys == m.Keys
  {
  }

  /** Over every history the device pages of every process are what its own calls and its forebears' made them. */
  lemma {:induction false} DevicesRun(e: Eager, ops: seq<Op>, os: seq<Outcome>, ks: seq<Snapshot>, i: nat)
    requires |os| == |ops| && |ks| == |ops| + 1 && i <= |ops|
    requires forall j :: 0 <= j < |ops| ==> Explained(ReferenceRun(e, ops[..j], os[..j]), ks[j], ops[j], os[j], ks[j + 1])
    ensures DeviceMaps(ks[i].maps) == DeviceRun(DeviceMaps(ks[0].maps), ops[..i], os[..i])
  {
    hide Explained, ReferenceRun, DeviceMaps, DeviceReference;
    if i > 0 {
      DevicesRun(e, ops, os, ks, i - 1);
      assert ops[..i][..i - 1] == ops[..i - 1] && os[..i][..i - 1] == os[..i - 1];
      DevicesStep(ReferenceRun(e, ops[..i - 1], os[..i - 1]), ks[i - 1], ops[i - 1], os[i - 1], ks[i]);
    }
  }

  // ---------------------------------------------------------------------
  // A run that loses a page.

  /** Thirty-two pages, thirteen of them taken at boot: three loose pages and one slab are left. */
  method SmallMemory() returns (frames: PageframeTable)
    ensures fresh(frames) && frames.Valid() && frames.Stock() == Room(3, 0, 1)
  {
    hide PageframeTable.Valid, FreeIn, BootRoom;
    frames := new PageframeTable(32);
    frames.InitPageframeFlags(0, 13 * 4096, PGF_INUSE);
    SmallRoom(frames.pf);
    frames.CoalesceFreePageframes(32 * 4096);
  }

  lemma SmallRoom(pf: seq<Pageframe>)
    requires |pf| == 32 && forall i :: 0 <= i < 32 ==> (pf[i].flags != 0 <==> i < 13)
    ensures BootRoom(pf, 2) == Room(3, 0, 1)
  {
    hide FreeIn, BootRoom;
    FreeInSplit(pf, 0, 13, 16);
    FreeInNone(pf, 0, 13);
    FreeInAll(pf, 13, 16);
    FreeInAll(pf, 16, 32);
    NoSlabs(pf);
    NextSlab(pf, 0);
    NextSlab(pf, 1);
  }

  const PAGE_FLAGS: bv32 := PROT_WRITE | MAP_FIXED

  method OneProcess() returns (vm: Vm)
    ensures fresh(vm) && fresh(vm.frames) && vm.Inv() && vm.lost == map[] && vm.Seen() == map[0 := map[]] && Domains(vm.maps) == map[0 := {}]
    ensures 0 in vm.maps && vm.maps[0] == map[] && vm.segs == map[0 := INITIAL] && vm.frames.Stock() == Room(3, 3, 0)
  {
    hide Vm.FramesOk, Vm.SegsOk, Agreement;
    var frames := SmallMemory();
    vm := new Vm(frames, seq(4096, _ => PdeInvalid));
    var ok := vm.Boot(0);
    assert Domains(vm.maps)[0] == {};
  }

  lemma RequestFits()
    ensures Available(INITIAL, 8, 1, true) && Fixed(PAGE_FLAGS) && PagesFor(4096) == 1 && Hint(8, true) + 1 < SPACE
  {
    assert Holds(INITIAL, 0, 8, 1);
    FlagBits();
  }

  lemma FlagBits()
    ensures Fixed(PAGE_FLAGS) && Writable(AllocFlags(PAGE_FLAGS))
  {
  }

  lemma {:induction false} SpendLoose(r: Room, n: nat)
    requires n <= r.k4
    ensures Spend(r, n) == r.(k4 := r.k4 - n)
    decreases n
  {
    if n > 0 {
      SpendLoose(TakeBlock(r, 1), n - 1);
    }
  }

  lemma OneNeed(s: set<nat>, v: nat, r: Room)
    requires s == {}
    ensures RangeNeed(s, v, 1, 1) == 2
  {
    hide Frames.Run, Dir, RangeNeed;
    NextPage(s, v, 0, 1, r);
    NoNeed(s, v, 1, r);
    assert s + Frames.Run(v, 0) == s;
    assert !Covers(s, v);
  }

  lemma FirstNeed(s: set<nat>, v: nat, r: Room)
    requires s == {} && r == Room(3, 3, 0)
    ensures RangeNeed(s, v, 1, 1) == 2 <= Left(r) && Spend(r, RangeNeed(s, v, 1, 1)) == Room(1, 3, 0)
  {
    hide Spend, RangeNeed;
    OneNeed(s, v, r);
    SpendLoose(r, 2);
  }

  /** Process 0 maps one page, which takes two of the three loose frames. */
  method OnePage() returns (vm: Vm)
    ensures fresh(vm) && fresh(vm.frames) && vm.Inv() && vm.lost == map[]
    ensures 0 in vm.maps && vm.maps.Keys == {0} && vm.maps[0].Keys == {8}
    ensures vm.Seen() == map[0 := map[8 := Cell(ZERO_PAGE, AllocFlags(PAGE_FLAGS))]] && vm.frames.Stock() == Room(1, 3, 0)
  {
    hide Vm.Inv, Vm.Seen, AllocFlags, Domains, AddPages, Frames.Run, Available, Fixed, PagesFor, Hint, Spend, RangeNeed, Left;
    vm := OneProcess();
    RequestFits();
    ghost var s := vm.maps[0].Keys;
    FirstNeed(s, 8, vm.frames.Stock());
    MapFirst(vm, 8 * 4096, PAGE_FLAGS);
    OneAdded(vm.maps, Cell(ZERO_PAGE, AllocFlags(PAGE_FLAGS)), s);
  }

  /** A fixed request for one page, for which there is a segment and frames. */
  method MapFirst(vm: Vm, addr: nat, flags: bv32)
    requires vm.Inv() && 0 in vm.maps && 0 in vm.segs && 0 in vm.Seen() && addr < 0x1_0000_0000
    requires Fixed(flags) && PagesFor(4096) == 1 && Hint(addr / 4096, true) + 1 < SPACE && Available(vm.segs[0], addr / 4096, 1, true)
    requires RangeNeed(vm.maps[0].Keys, addr / 4096, 1, 1) <= Left(vm.frames.Stock())
    modifies vm, vm.frames
    ensures vm.lost == old(vm.lost)
    ensures vm.Inv() && vm.frames.Stock() == Spend(old(vm.frames.Stock()), RangeNeed(old(vm.maps)[0].Keys, addr / 4096, 1, 1))
    ensures Domains(vm.maps) == Domains(old(vm.maps))[0 := old(vm.maps)[0].Keys + Frames.Run(addr / 4096, 1)]
    ensures vm.Seen() == AddPages(old(vm.Seen()), 0, addr / 4096, 1, Cell(ZERO_PAGE, AllocFlags(flags)))
  {
    hide Vm.Inv, Vm.Seen, AllocFlags, Available, Updated, Frames.Run, Spend, Fixed, RangeNeed, PagesFor, Hint, Afforded, Domains, AddPages, Left;
    var g := vm.VirtualAlloc(0, addr, 4096, flags);
    AffordedMost(old(vm.maps)[0].Keys, addr / 4096, 1, Count(g, 1), 1, old(vm.frames.Stock()), vm.frames.Stock());
  }

  lemma OneAdded(m: Flat, c: Cell, s: set<nat>)
    requires s == {} && Domains(m) == map[0 := {}][0 := s + Frames.Run(8, 1)]
    ensures m.Keys == {0} && m[0].Keys == {8}
    ensures AddPages(map[0 := map[]], 0, 8, 1, c) == map[0 := map[8 := c]]
  {
    assert Domains(m)[0] == s + Frames.Run(8, 1) == {8};
    assert m.Keys == Domains(m).Keys;
    var e: Eager := map[0 := map[]];
    assert AddPages(e, 0, 8, 0, c) == e;
    assert AddPages(e, 0, 8, 1, c) == SetCell(e, 0, 8, Some(c));
  }

  lemma ForkFits(s: set<nat>, r: Room)
    requires s == {8} && r == Room(1, 3, 0)
    ensures CanFork(s, r) && ForkRoom(s, r) == Room(0, 2, 0)
  {
    hide TableCount, Spend;
    OneTable(s);
    SpendLoose(TakeBlock(r, 4), 1);
  }

  lemma OneTable(s: set<nat>)
    requires s == {8}
    ensures TableCount(s) == 1
  {
    hide Dir;
    assert Megabytes(s) == {Dir(8)};
  }

  /** It forks process 1, whose page directory is cut from a 16k block and whose table takes the last frame. */
  method ForkedPair() returns (vm: Vm)
    ensures fresh(vm) && fresh(vm.frames) && vm.Inv() && vm.lost == map[] && PairOf(vm.maps)
    ensures vm.frames.Stock() == Room(0, 2, 0)
    ensures var s := map[8 := Cell(ZERO_PAGE, AllocFlags(PAGE_FLAGS))]; vm.Seen() == map[0 := s, 1 := s]
  {
    hide Vm.FramesOk, Vm.SegsOk, Agreement, Vm.Seen, AllocFlags, CanFork, ForkRoom, PairOf, ParentAll, ChildAll;
    vm := OnePage();
    ForkFits(vm.maps[0].Keys, vm.frames.Stock());
    PrivatePage(vm);
    PairMade(vm.maps);
    var sc := vm.Fork(0, 1);
  }

  /** Processes 0 and 1 share a private page that neither can write. */
  ghost predicate PairOf(m: Flat) {
    && 0 in m && 1 in m && 8 in m[0] && 8 in m[1] && m[0][8] == m[1][8]
    && IsAlloc(m[0][8].flags) && !HwWritable(m[0][8].flags)
  }

  lemma PrivatePage(vm: Vm)
    requires 0 in vm.maps && 8 in vm.maps[0] && 0 in vm.Seen() && 8 in vm.Seen()[0]
    ensures IsAlloc(vm.maps[0][8].flags)
  {
    hide View, IsAlloc;
    CellSeen(vm.maps, 0, 8, vm.frames.ram);
  }

  lemma PairMade(m: Flat)
    requires 0 in m && 8 in m[0] && IsAlloc(m[0][8].flags) && 1 !in m
    ensures PairOf(m[0 := ParentAll(m[0])][1 := ChildAll(m[0])])
  {
    hide IsAlloc, HwWritable, ParentPte, ChildPte;
    ForkedPte(m[0][8]);
  }

  /** With no frame left, the first store after a fork costs process 0 its page; process 1 keeps it. */
  method LostPageRun() returns (vm: Vm, r: Store)
    ensures vm.Inv() && r == Lost
    ensures 0 in vm.Seen() && vm.Seen()[0] == map[]
    ensures 1 in vm.Seen() && 8 in vm.Seen()[1]
  {
    hide Vm.FramesOk, Vm.Seen, AllocFlags, PairOf, Sorted, NotFree, Writable, IsPhys, StoreNeed, Spend;
    vm := ForkedPair();
    FlagBits();
    CopyNeeded(vm);
    ghost var dom := Domains(vm.maps);
    r := vm.UserWrite(0, 8, 0, 1);
    assert vm.maps.Keys == Domains(vm.maps).Keys == dom.Keys;
  }

  lemma CopyNeeded(vm: Vm)
    requires vm.FramesOk() && vm.lost == map[] && PairOf(vm.maps)
    requires 0 in vm.Seen() && 8 in vm.Seen()[0] && Writable(vm.Seen()[0][8].flags)
    ensures 0 in vm.maps && 8 in vm.maps[0] && !IsPhys(vm.maps[0][8].flags) && StoreNeed(vm.maps, map[], 0, 8) > 0
  {
    hide PageframeTable.Valid, Shared, InRange, View, IsPhys, Visible, Writable, TableNeed, Vm.Walk, IsAlloc, HwWritable;
    KindBits(vm.maps[0][8].flags);
    vm.WritableCell(0, 8);
    TwoRefs(vm.maps);
  }

  lemma TwoRefs(m: Flat)
    requires PairOf(m)
    ensures IsShared(m, map[], m[0][8].pfn)
  {
    hide IsAlloc, HwWritable;
    var f := m[0][8].pfn;
    assert {(0, 8), (1, 8)} <= Refs(m, f);
    PairSize(Refs(m, f), (0, 8), (1, 8));
  }

  lemma PairSize(s: set<(nat, nat)>, x: (nat, nat), y: (nat, nat))
    requires x in s && y in s && x != y
    ensures |s| >= 2
  {
    assert |s - {x} - {y}| == |s| - 2;
  }

  /** Of two that share a page, the one that stores second has the frame for itself and needs no other. */
  lemma LastSharer(m: Flat, user: set<nat>, a: nat, v: nat, m': Flat, b: nat, w: nat)
    requires Resolved(m, map[], user, a, v, m') && m[a][v].pfn in user && (a, v) != (b, w)
    requires IsShared(m, map[], m[a][v].pfn) && Refs(m, m[a][v].pfn) == {(a, v), (b, w)}
    ensures !IsShared(m', map[], m[a][v].pfn)
  {
    hide Refs, ClearCow;
    RefsSet(m, a, v, Some(Pte(m'[a][v].pfn, ClearCow(m[a][v].flags))), m[a][v].pfn);
    assert Refs(m', m[a][v].pfn) == {(b, w)};
  }
}
