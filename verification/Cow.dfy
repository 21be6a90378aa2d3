/**
  Copy-on-write sharing over all address spaces at once, on plain values: what the page
  mappings of every process, the frame reference counts and the memory contents must satisfy,
  and what each elementary change of a mapping does to the memory the processes see.
 */
module Cow {
  import opened Core
  import opened Frames
  import opened PageTables

  /** Mappings by address space and virtual page. */
  type Space = map<nat, Pte>
  type Flat = map<nat, Space>

  predicate IsAlloc(flags: bv32) { flags & MEM_MASK == MEM_ALLOC }

  predicate IsPhys(flags: bv32) { flags & MEM_MASK == MEM_PHYS }

  predicate Writable(flags: bv32) { flags & PROT_WRITE != 0 }

  /** The copy-on-write mark set, and cleared for a page that becomes writable. */
  function SetCow(flags: bv32): bv32 { flags | MAP_COW }

  function ClearCow(flags: bv32): bv32 { (flags | PROT_WRITE) & !MAP_COW }

  /** The flags a process would see if pages were never shared. */
  function Visible(flags: bv32): bv32 { flags & !MAP_COW }

  lemma CowBits(flags: bv32)
    ensures IsAlloc(SetCow(flags)) <==> IsAlloc(flags)
    ensures !HwWritable(SetCow(flags))
    ensures Visible(SetCow(flags)) == Visible(flags)
    ensures IsAlloc(ClearCow(flags)) <==> IsAlloc(flags)
    ensures HwWritable(ClearCow(flags))
    ensures Writable(flags) ==> Visible(ClearCow(flags)) == Visible(flags)
  {
    hide IsAlloc, HwWritable, SetCow, ClearCow, Visible, Writable;
    CowKinds(flags);
    CowMarkHidden(flags);
    CowClearHidden(flags);
  }

  lemma CowKinds(flags: bv32)
    ensures IsAlloc(SetCow(flags)) <==> IsAlloc(flags)
    ensures IsAlloc(ClearCow(flags)) <==> IsAlloc(flags)
    ensures !HwWritable(SetCow(flags)) && HwWritable(ClearCow(flags))
  {
  }

  lemma CowMarkHidden(flags: bv32)
    ensures Visible(SetCow(flags)) == Visible(flags)
  {
  }

  lemma CowClearHidden(flags: bv32)
    ensures Writable(flags) ==> Visible(ClearCow(flags)) == Visible(flags)
  {
  }

  lemma KindBits(flags: bv32)
    ensures IsAlloc(flags) ==> flags & MEM_PHYS != MEM_PHYS && !IsPhys(flags)
    ensures IsPhys(flags) ==> flags & MEM_PHYS == MEM_PHYS
    ensures IsPhys(MEM_PHYS | PROT_READ | PROT_WRITE)
    ensures !Writable(flags) ==> !HwWritable(flags)
  {
  }

  // ---------------------------------------------------------------------
  // What a process sees.

  /** A page of private memory: its bytes and its flags without the copy-on-write mark. */
  datatype Cell = Cell(page: Page, flags: bv32)

  /** The reference memory: every process has its own copy of every page. */
  type Eager = map<nat, map<nat, Cell>>

  ghost function CellOf(p: Pte, ram: seq<Page>): Cell {
    Cell(if p.pfn < |ram| then ram[p.pfn] else ZERO_PAGE, Visible(p.flags))
  }

  ghost function SpaceView(s: Space, ram: seq<Page>): map<nat, Cell> {
    map v | v in s && IsAlloc(s[v].flags) :: CellOf(s[v], ram)
  }

  ghost function View(m: Flat, ram: seq<Page>): Eager {
    map a | a in m :: SpaceView(m[a], ram)
  }

  // ---------------------------------------------------------------------
  // What sharing must satisfy.

  /** The MEM_ALLOC mappings of a frame, over all address spaces. */
  ghost function Refs(m: Flat, f: nat): set<(nat, nat)> {
    set a, v | a in m && v in m[a] && IsAlloc(m[a][v].flags) && m[a][v].pfn == f :: (a, v)
  }

  ghost predicate KindOk(p: Pte, user: set<nat>, pf: seq<Pageframe>) {
    IsPhys(p.flags) || (IsAlloc(p.flags) && p.pfn in user && p.pfn < |pf|)
  }

  ghost predicate Kinds(m: Flat, user: set<nat>, pf: seq<Pageframe>) {
    forall a, v :: a in m && v in m[a] ==> KindOk(m[a][v], user, pf)
  }

  /** References that are counted although the mapping is gone, by frame. */
  type Leaks = map<nat, nat>

  function LostAt(lost: Leaks, f: nat): nat {
    if f in lost then lost[f] else 0
  }

  /** The reference count of a frame is the number of its mappings, and of those that went without giving theirs up. */
  ghost predicate Counted(m: Flat, user: set<nat>, pf: seq<Pageframe>, lost: Leaks) {
    && lost.Keys <= user
    && forall f :: f in user ==> f < |pf| && pf[f].refCnt == |Refs(m, f)| + LostAt(lost, f)
  }

  /** A frame some process can write in hardware is mapped there and nowhere else. */
  ghost predicate Exclusive(m: Flat) {
    forall a, v :: a in m && v in m[a] && IsAlloc(m[a][v].flags) && HwWritable(m[a][v].flags) ==>
      Refs(m, m[a][v].pfn) == {(a, v)}
  }

  ghost predicate Shared(m: Flat, user: set<nat>, pf: seq<Pageframe>, lost: Leaks) {
    Kinds(m, user, pf) && Counted(m, user, pf, lost) && Exclusive(m)
  }

  /** A frame mapped twice or more is writable in hardware in none of its mappings. */
  lemma SharedIsReadOnly(m: Flat, user: set<nat>, pf: seq<Pageframe>, lost: Leaks, a: nat, v: nat)
    requires Shared(m, user, pf, lost) && a in m && v in m[a] && IsAlloc(m[a][v].flags)
    requires |Refs(m, m[a][v].pfn)| >= 2
    ensures !HwWritable(m[a][v].flags)
  {
  }

  // ---------------------------------------------------------------------
  // Elementary changes.

  ghost function SetPte(m: Flat, a: nat, v: nat, p: Option<Pte>): Flat
    requires a in m
  {
    m[a := if p.Some? then m[a][v := p.value] else m[a] - {v}]
  }

  ghost function SetCell(e: Eager, a: nat, v: nat, c: Option<Cell>): Eager
    requires a in e
  {
    e[a := if c.Some? then e[a][v := c.value] else e[a] - {v}]
  }

  ghost predicate Maps(p: Option<Pte>, f: nat) {
    p.Some? && IsAlloc(p.value.flags) && p.value.pfn == f
  }

  ghost function At(m: Flat, a: nat, v: nat): Option<Pte> {
    if a in m && v in m[a] then Some(m[a][v]) else None
  }

  lemma RefsSet(m: Flat, a: nat, v: nat, p: Option<Pte>, f: nat)
    requires a in m
    ensures Refs(SetPte(m, a, v, p), f) == Refs(m, f) - {(a, v)} + if Maps(p, f) then {(a, v)} else {}
    ensures (a, v) in Refs(m, f) <==> Maps(At(m, a, v), f)
  {
  }

  lemma RefsSize(m: Flat, a: nat, v: nat, p: Option<Pte>, f: nat)
    requires a in m
    ensures |Refs(SetPte(m, a, v, p), f)| ==
            |Refs(m, f)| - (if Maps(At(m, a, v), f) then 1 else 0) + if Maps(p, f) then 1 else 0
  {
    RefsSet(m, a, v, p, f);
  }

  ghost function CellAt(p: Option<Pte>, ram: seq<Page>): Option<Cell> {
    if p.Some? && IsAlloc(p.value.flags) then Some(CellOf(p.value, ram)) else None
  }

  lemma SpaceViewSet(s: Space, v: nat, p: Option<Pte>, ram: seq<Page>)
    ensures SpaceView(if p.Some? then s[v := p.value] else s - {v}, ram) ==
            var c := CellAt(p, ram);
            if c.Some? then SpaceView(s, ram)[v := c.value] else SpaceView(s, ram) - {v}
  {
    hide CellOf;
  }

  lemma ViewSet(m: Flat, a: nat, v: nat, p: Option<Pte>, ram: seq<Page>)
    requires a in m
    ensures View(SetPte(m, a, v, p), ram) == SetCell(View(m, ram), a, v, CellAt(p, ram))
  {
    hide SpaceView, CellAt;
    SpaceViewSet(m[a], v, p, ram);
  }

  /** Memory that no MEM_ALLOC mapping names does not show. */
  lemma ViewRam(m: Flat, user: set<nat>, pf: seq<Pageframe>, ram: seq<Page>, ram': seq<Page>)
    requires Kinds(m, user, pf)
    requires |ram| == |ram'| && forall f :: f in user && f < |ram| ==> ram'[f] == ram[f]
    ensures View(m, ram') == View(m, ram)
  {
    forall a | a in m ensures SpaceView(m[a], ram') == SpaceView(m[a], ram) {
      forall v | v in m[a] && IsAlloc(m[a][v].flags) ensures CellOf(m[a][v], ram') == CellOf(m[a][v], ram) {
        assert KindOk(m[a][v], user, pf);
      }
    }
  }

  // ---------------------------------------------------------------------
  // The changes the kernel makes, each keeping `Shared`.

  /** Reference counts only change at `f`. */
  ghost predicate CountsAt(pf: seq<Pageframe>, pf': seq<Pageframe>, f: nat, n: int) {
    && |pf'| == |pf| && f < |pf|
    && pf'[f].refCnt == n
    && forall g :: 0 <= g < |pf| && g != f ==> pf'[g].refCnt == pf[g].refCnt
  }

  lemma KindsSet(m: Flat, user: set<nat>, pf: seq<Pageframe>, a: nat, v: nat, p: Option<Pte>)
    requires Kinds(m, user, pf) && a in m
    requires p.Some? ==> KindOk(p.value, user, pf)
    ensures Kinds(SetPte(m, a, v, p), user, pf)
  {
    hide KindOk;
  }

  /** Unmapping a page: its frame gives up a reference, or one more is lost. */
  lemma Unmapped(m: Flat, user: set<nat>, pf: seq<Pageframe>, lost: Leaks, pf': seq<Pageframe>, lost': Leaks, a: nat, v: nat)
    requires Shared(m, user, pf, lost) && a in m && v in m[a]
    requires |pf'| == |pf| && lost'.Keys <= user
    requires forall f :: f in user ==>
               pf'[f].refCnt - LostAt(lost', f) == pf[f].refCnt - LostAt(lost, f) - if Maps(At(m, a, v), f) then 1 else 0
    ensures Shared(SetPte(m, a, v, None), user, pf', lost')
  {
    var m': Flat := SetPte(m, a, v, None);
    assert Kinds(m', user, pf');
    forall f | f in user ensures pf'[f].refCnt == |Refs(m', f)| + LostAt(lost', f) {
      RefsSize(m, a, v, None, f);
    }
    ExclusiveRemoved(m, a, v);
  }

  lemma ExclusiveRemoved(m: Flat, a: nat, v: nat)
    requires Exclusive(m) && a in m
    ensures Exclusive(SetPte(m, a, v, None))
  {
    var m': Flat := SetPte(m, a, v, None);
    forall b, w | b in m' && w in m'[b] && IsAlloc(m'[b][w].flags) && HwWritable(m'[b][w].flags)
      ensures Refs(m', m'[b][w].pfn) == {(b, w)}
    {
      RefsSet(m, a, v, None, m'[b][w].pfn);
    }
  }

  /** Replacing a mapping keeps writers exclusive if the new one is, and shares no other writer's frame. */
  lemma ExclusiveSet(m: Flat, a: nat, v: nat, p: Pte)
    requires Exclusive(m) && a in m
    requires IsAlloc(p.flags) && HwWritable(p.flags) ==> Refs(m, p.pfn) - {(a, v)} == {}
    requires IsAlloc(p.flags) ==>
               forall b, w :: (b, w) in Refs(m, p.pfn) && (b, w) != (a, v) ==> !HwWritable(m[b][w].flags)
    ensures Exclusive(SetPte(m, a, v, Some(p)))
  {
    var m': Flat := SetPte(m, a, v, Some(p));
    forall b, w | b in m' && w in m'[b] && IsAlloc(m'[b][w].flags) && HwWritable(m'[b][w].flags)
      ensures Refs(m', m'[b][w].pfn) == {(b, w)}
    {
      RefsSet(m, a, v, Some(p), m'[b][w].pfn);
      if (b, w) != (a, v) {
        assert (b, w) in Refs(m, m[b][w].pfn);
      }
    }
  }

  /** Mapping a newly allocated frame. */
  lemma MappedFresh(m: Flat, user: set<nat>, pf: seq<Pageframe>, lost: Leaks, pf': seq<Pageframe>, a: nat, v: nat, p: Pte)
    requires Shared(m, user, pf, lost) && a in m && v !in m[a]
    requires IsAlloc(p.flags) && p.pfn !in user && p.pfn < |pf'|
    requires |pf'| == |pf| && forall f :: f in user ==> pf'[f].refCnt == pf[f].refCnt
    requires pf'[p.pfn].refCnt == 1
    ensures Shared(SetPte(m, a, v, Some(p)), user + {p.pfn}, pf', lost)
  {
    var m': Flat := SetPte(m, a, v, Some(p));
    Unmentioned(m, user, pf, p.pfn);
    KindsGrow(m, user, pf, pf', p.pfn);
    KindsSet(m, user + {p.pfn}, pf', a, v, Some(p));
    forall f | f in user + {p.pfn} ensures pf'[f].refCnt == |Refs(m', f)| + LostAt(lost, f) {
      RefsSize(m, a, v, Some(p), f);
    }
    ExclusiveSet(m, a, v, p);
  }

  lemma Unmentioned(m: Flat, user: set<nat>, pf: seq<Pageframe>, f: nat)
    requires Kinds(m, user, pf) && f !in user
    ensures Refs(m, f) == {}
  {
    forall a, v | a in m && v in m[a] ensures !(IsAlloc(m[a][v].flags) && m[a][v].pfn == f) {
      assert KindOk(m[a][v], user, pf);
    }
  }

  lemma KindsGrow(m: Flat, user: set<nat>, pf: seq<Pageframe>, pf': seq<Pageframe>, f: nat)
    requires Kinds(m, user, pf) && |pf'| == |pf|
    ensures Kinds(m, user + {f}, pf')
  {
    forall a, v | a in m && v in m[a] ensures KindOk(m[a][v], user + {f}, pf') {
      assert KindOk(m[a][v], user, pf);
    }
  }

  /** Mapping a device page. */
  lemma MappedPhys(m: Flat, user: set<nat>, pf: seq<Pageframe>, lost: Leaks, a: nat, v: nat, p: Pte)
    requires Shared(m, user, pf, lost) && a in m && v !in m[a] && IsPhys(p.flags)
    ensures Shared(SetPte(m, a, v, Some(p)), user, pf, lost)
  {
    var m': Flat := SetPte(m, a, v, Some(p));
    KindsSet(m, user, pf, a, v, Some(p));
    forall f | f in user ensures pf[f].refCnt == |Refs(m', f)| + LostAt(lost, f) {
      RefsSize(m, a, v, Some(p), f);
    }
    ExclusiveSet(m, a, v, p);
  }

  /** Marking a page copy-on-write. */
  lemma Marked(m: Flat, user: set<nat>, pf: seq<Pageframe>, lost: Leaks, a: nat, v: nat)
    requires Shared(m, user, pf, lost) && a in m && v in m[a] && IsAlloc(m[a][v].flags)
    ensures
      var p := m[a][v].(flags := SetCow(m[a][v].flags));
      Shared(SetPte(m, a, v, Some(p)), user, pf, lost) && !HwWritable(p.flags) && IsAlloc(p.flags)
  {
    hide IsAlloc, IsPhys, HwWritable, SetCow, ClearCow, Visible, Writable;
    CowBits(m[a][v].flags);
    KindBits(m[a][v].flags);
    var p := m[a][v].(flags := SetCow(m[a][v].flags));
    var m': Flat := SetPte(m, a, v, Some(p));
    assert KindOk(m[a][v], user, pf);
    KindsSet(m, user, pf, a, v, Some(p));
    forall f | f in user ensures pf[f].refCnt == |Refs(m', f)| + LostAt(lost, f) {
      RefsSize(m, a, v, Some(p), f);
    }
    assert (a, v) in Refs(m, p.pfn);
    forall b, w | (b, w) in Refs(m, p.pfn) && (b, w) != (a, v) ensures !HwWritable(m[b][w].flags) {
      SecondReads(m, p.pfn, (b, w), (a, v));
    }
    ExclusiveSet(m, a, v, p);
  }

  /** Of two mappings of a frame neither can write. */
  lemma SecondReads(m: Flat, f: nat, x: (nat, nat), y: (nat, nat))
    requires Exclusive(m) && x in Refs(m, f) && y in Refs(m, f) && x != y
    ensures !HwWritable(m[x.0][x.1].flags)
  {
    assert m[x.0][x.1].pfn == f;
  }

  /** If one mapping of a frame is read-only in hardware, they all are. */
  lemma NoWriters(m: Flat, user: set<nat>, pf: seq<Pageframe>, lost: Leaks, a: nat, v: nat)
    requires Shared(m, user, pf, lost) && a in m && v in m[a]
    requires IsAlloc(m[a][v].flags) && !HwWritable(m[a][v].flags)
    ensures m[a][v].pfn in user && m[a][v].pfn < |pf|
    ensures pf[m[a][v].pfn].refCnt == |Refs(m, m[a][v].pfn)| + LostAt(lost, m[a][v].pfn) >= 1
    ensures forall b, w :: (b, w) in Refs(m, m[a][v].pfn) ==> !HwWritable(m[b][w].flags)
  {
    assert KindOk(m[a][v], user, pf);
    assert (a, v) in Refs(m, m[a][v].pfn);
    forall b, w | (b, w) in Refs(m, m[a][v].pfn) ensures !HwWritable(m[b][w].flags) {
      if (b, w) != (a, v) {
        SecondReads(m, m[a][v].pfn, (b, w), (a, v));
      }
    }
  }

  /** Sharing a frame that no mapping can write with one more page. */
  lemma SharedTo(m: Flat, user: set<nat>, pf: seq<Pageframe>, lost: Leaks, pf': seq<Pageframe>, c: nat, v: nat, p: Pte)
    requires Shared(m, user, pf, lost) && c in m && v !in m[c]
    requires IsAlloc(p.flags) && !HwWritable(p.flags) && p.pfn in user
    requires forall b, w :: (b, w) in Refs(m, p.pfn) ==> !HwWritable(m[b][w].flags)
    requires CountsAt(pf, pf', p.pfn, if p.pfn < |pf| then pf[p.pfn].refCnt + 1 else 0)
    ensures Shared(SetPte(m, c, v, Some(p)), user, pf', lost)
  {
    var m': Flat := SetPte(m, c, v, Some(p));
    assert Kinds(m, user, pf');
    KindsSet(m, user, pf', c, v, Some(p));
    forall f | f in user ensures pf'[f].refCnt == |Refs(m', f)| + LostAt(lost, f) {
      RefsSize(m, c, v, Some(p), f);
    }
    ExclusiveSet(m, c, v, p);
  }

  /** A frame with a reference count of one is mapped once, so its page may become writable in place. */
  lemma Reclaimed(m: Flat, user: set<nat>, pf: seq<Pageframe>, lost: Leaks, a: nat, v: nat, p: Pte)
    requires Shared(m, user, pf, lost) && a in m && v in m[a] && IsAlloc(m[a][v].flags)
    requires m[a][v].pfn < |pf| && pf[m[a][v].pfn].refCnt == 1
    requires p.pfn == m[a][v].pfn && IsAlloc(p.flags)
    ensures Refs(m, p.pfn) == {(a, v)}
    ensures Shared(SetPte(m, a, v, Some(p)), user, pf, lost)
  {
    var m': Flat := SetPte(m, a, v, Some(p));
    assert KindOk(m[a][v], user, pf);
    KindsSet(m, user, pf, a, v, Some(p));
    forall f | f in user ensures pf[f].refCnt == |Refs(m', f)| + LostAt(lost, f) {
      RefsSize(m, a, v, Some(p), f);
    }
    assert (a, v) in Refs(m, p.pfn);
    Singleton(Refs(m, p.pfn), (a, v));
    ExclusiveSet(m, a, v, p);
  }

  lemma Singleton<T>(s: set<T>, x: T)
    requires x in s && |s| <= 1
    ensures s == {x}
  {
    assert |s - {x}| == 0;
  }

  /** A store through a writable page shows in that page of that process and nowhere else. */
  lemma Written(m: Flat, user: set<nat>, pf: seq<Pageframe>, lost: Leaks, ram: seq<Page>, a: nat, v: nat, page: Page)
    requires Shared(m, user, pf, lost) && a in m && v in m[a]
    requires IsAlloc(m[a][v].flags) && HwWritable(m[a][v].flags) && m[a][v].pfn < |ram|
    ensures View(m, ram[m[a][v].pfn := page]) ==
            SetCell(View(m, ram), a, v, Some(Cell(page, Visible(m[a][v].flags))))
  {
    var f := m[a][v].pfn;
    var ram' := ram[f := page];
    assert Refs(m, f) == {(a, v)};
    forall b | b in m ensures SpaceView(m[b], ram') == SetCell(View(m, ram), a, v, Some(Cell(page, Visible(m[a][v].flags))))[b] {
      WrittenSpace(m, ram, a, v, page, b);
    }
  }

  lemma WrittenSpace(m: Flat, ram: seq<Page>, a: nat, v: nat, page: Page, b: nat)
    requires a in m && v in m[a] && IsAlloc(m[a][v].flags) && m[a][v].pfn < |ram| && b in m
    requires Refs(m, m[a][v].pfn) == {(a, v)}
    ensures SpaceView(m[b], ram[m[a][v].pfn := page]) ==
            if b == a then SpaceView(m[b], ram)[v := Cell(page, Visible(m[a][v].flags))] else SpaceView(m[b], ram)
  {
    var f := m[a][v].pfn;
    forall w | w in m[b] && IsAlloc(m[b][w].flags) ensures m[b][w].pfn == f <==> (b, w) == (a, v) {
      assert m[b][w].pfn == f ==> (b, w) in Refs(m, f);
    }
  }
}
