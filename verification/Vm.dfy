/**
  Virtual memory of all processes: page tables, segment tables and page frames together, with
  the operations of `vm.c`, `as.c` and `pagefault.c` over them. Each process has a page
  directory; the ghost `maps` is the flat map that it implements.

  `Seen` is the memory the processes see. Each operation is shown to change it as a system
  in which fork copies every page at once would.
 */
module VirtualMemory {
  import opened Core
  import opened Frames
  import opened PageTables
  import opened Segments
  import opened Cow

  ghost predicate NotFree(t: seq<Word>, v: nat) {
    TypeAt(t, v) in {Some(ALLOC), Some(PHYS)}
  }

  /** The mapped pages of every address space. */
  ghost function Domains(m: Flat): map<nat, set<nat>> {
    map a | a in m :: m[a].Keys
  }

  lemma DomainsSet(m: Flat, a: nat, v: nat, p: Option<Pte>)
    requires a in m
    ensures Domains(SetPte(m, a, v, p)) == Domains(m)[a := if p.Some? then m[a].Keys + {v} else m[a].Keys - {v}]
  {
    var s: Space := m[a];
    assert p.Some? ==> s[v := p.value].Keys == s.Keys + {v};
  }

  /** Mapped pages lie in segments that are not FREE. */
  ghost predicate Agreement(dom: map<nat, set<nat>>, segs: map<nat, seq<Word>>) {
    forall a, v :: a in dom && v in dom[a] ==> a in segs && NotFree(segs[a], v)
  }

  ghost predicate InRange(m: Flat) {
    forall a, v :: a in m && v in m[a] ==> 0 < v < USER_PAGES
  }

  lemma InRangeSet(m: Flat, a: nat, v: nat, p: Option<Pte>)
    requires InRange(m) && a in m && 0 < v < USER_PAGES
    ensures InRange(SetPte(m, a, v, p))
  {
  }

  lemma InRangeAt(m: Flat, a: nat, v: nat)
    requires InRange(m) && a in m && v in m[a]
    ensures 0 < v < USER_PAGES
  {
  }

  // ---------------------------------------------------------------------
  // Page tables and directories.

  /** The frames a page directory lies in: its own block and its tables. */
  ghost function SystemFrames(d: PageDir): set<nat> {
    d.tables.Keys + {d.at}
  }

  /** These frames are live and hold no user page. */
  ghost predicate FramesApart(d: PageDir, user: set<nat>, live: map<nat, nat>) {
    && d.at in live && live[d.at] == 4
    && (forall pt :: pt in d.tables ==> pt in live && live[pt] == 1)
    && SystemFrames(d) !! user
  }

  /** Every address space has a directory that implements its flat map, in frames of its own. */
  ghost predicate TablesOk(dirs: map<nat, PageDir>, maps: Flat, user: set<nat>, live: map<nat, nat>, root: Directory) {
    && dirs.Keys == maps.Keys
    && (forall a :: a in dirs ==> PmapOk(dirs[a].l1, dirs[a].tables, maps[a], root))
    && (forall a :: a in dirs ==> FramesApart(dirs[a], user, live))
    && (forall a, b :: a in dirs && b in dirs && a != b ==> SystemFrames(dirs[a]) !! SystemFrames(dirs[b]))
  }

  ghost predicate Unclaimed(dirs: map<nat, PageDir>, f: nat) {
    forall a :: a in dirs ==> f !in SystemFrames(dirs[a])
  }

  /** No block that was live has changed, and every new one is one page. */
  ghost predicate Grown(live: map<nat, nat>, live': map<nat, nat>) {
    && live.Keys <= live'.Keys
    && forall f :: f in live' ==> live'[f] == if f in live then live[f] else 1
  }

  /** One address space changes its tables, taking new frames for them if any. */
  lemma TablesSet(dirs: map<nat, PageDir>, maps: Flat, user: set<nat>, live: map<nat, nat>, root: Directory,
                  a: nat, d: PageDir, s: Space, live': map<nat, nat>)
    requires TablesOk(dirs, maps, user, live, root) && a in dirs && user <= live.Keys && Grown(live, live')
    requires PmapOk(d.l1, d.tables, s, root) && d.at == dirs[a].at
    requires d.tables.Keys <= dirs[a].tables.Keys + (live'.Keys - live.Keys)
    ensures TablesOk(dirs[a := d], maps[a := s], user, live', root)
    ensures forall f :: f in live && Unclaimed(dirs, f) ==> Unclaimed(dirs[a := d], f)
  {
    hide PmapOk, FramesApart;
    forall b | b in dirs ensures FramesApart(dirs[b], user, live') && SystemFrames(dirs[b]) <= live.Keys {
      ApartGrown(dirs[b], user, live, live');
    }
    ApartSet(dirs[a], user, live, live', d);
    forall b | b in dirs && b != a ensures SystemFrames(d) !! SystemFrames(dirs[b]) {
    }
  }

  lemma ApartGrown(d: PageDir, user: set<nat>, live: map<nat, nat>, live': map<nat, nat>)
    requires FramesApart(d, user, live) && Grown(live, live')
    ensures FramesApart(d, user, live') && SystemFrames(d) <= live.Keys
  {
  }

  lemma ApartSet(d: PageDir, user: set<nat>, live: map<nat, nat>, live': map<nat, nat>, d': PageDir)
    requires FramesApart(d, user, live) && Grown(live, live') && user <= live.Keys && d'.at == d.at
    requires d'.tables.Keys <= d.tables.Keys + (live'.Keys - live.Keys)
    ensures FramesApart(d', user, live') && SystemFrames(d') <= SystemFrames(d) + (live'.Keys - live.Keys)
  {
  }

  lemma TablesUser(dirs: map<nat, PageDir>, maps: Flat, user: set<nat>, live: map<nat, nat>, root: Directory, f: nat)
    requires TablesOk(dirs, maps, user, live, root) && Unclaimed(dirs, f)
    ensures TablesOk(dirs, maps, user + {f}, live, root)
  {
    hide PmapOk;
  }

  lemma TablesGrown(dirs: map<nat, PageDir>, maps: Flat, user: set<nat>, live: map<nat, nat>, root: Directory, live': map<nat, nat>)
    requires TablesOk(dirs, maps, user, live, root) && live.Keys <= live'.Keys
    requires forall f :: f in live ==> live'[f] == live[f]
    ensures TablesOk(dirs, maps, user, live', root)
    ensures forall f :: f !in live ==> Unclaimed(dirs, f)
  {
    hide PmapOk;
  }

  lemma TablesAdded(dirs: map<nat, PageDir>, maps: Flat, user: set<nat>, live: map<nat, nat>, root: Directory,
                    c: nat, d: PageDir)
    requires TablesOk(dirs, maps, user, live, root) && c !in dirs && d.tables == map[]
    requires d.at in live && live[d.at] == 4 && d.at !in user && Unclaimed(dirs, d.at)
    requires PmapOk(d.l1, d.tables, map[], root)
    ensures TablesOk(dirs[c := d], maps[c := map[]], user, live, root)
  {
    hide PmapOk, FramesApart;
    NewApart(d, user, live);
  }

  lemma NewApart(d: PageDir, user: set<nat>, live: map<nat, nat>)
    requires d.tables == map[] && d.at in live && live[d.at] == 4 && d.at !in user
    ensures FramesApart(d, user, live) && SystemFrames(d) == {d.at}
  {
  }

  lemma TablesGone(dirs: map<nat, PageDir>, maps: Flat, user: set<nat>, live: map<nat, nat>, root: Directory, c: nat)
    requires TablesOk(dirs, maps, user, live, root)
    ensures TablesOk(dirs - {c}, maps - {c}, user, live, root)
  {
    hide PmapOk;
  }

  lemma TablesAt(dirs: map<nat, PageDir>, maps: Flat, user: set<nat>, live: map<nat, nat>, root: Directory, a: nat)
    requires TablesOk(dirs, maps, user, live, root) && a in maps
    ensures a in dirs && PmapOk(dirs[a].l1, dirs[a].tables, maps[a], root) && dirs[a].tables.Keys <= live.Keys
  {
    hide PmapOk;
  }

  lemma MappedInHalf(d: PageDir, s: Space, root: Directory, v: nat)
    requires PmapOk(d.l1, d.tables, s, root) && v in s
    ensures 0 < v < USER_PAGES
  {
    Entries(d.l1, d.tables, s);
  }

  // ---------------------------------------------------------------------
  // What operations need.

  /** The frames needed for a table over page `v` when the pages `s` are mapped. */
  ghost function TableNeed(s: set<nat>, v: nat): nat {
    if Covers(s, v) then 0 else 1
  }

  /** `k` pages from `lo` on, each taking `each` frames of its own, and the tables over them. */
  ghost function RangeNeed(s: set<nat>, lo: nat, k: nat, each: nat): nat
    decreases k
  {
    if k == 0 then 0 else RangeNeed(s, lo, k - 1, each) + each + TableNeed(s + Run(lo, k - 1), lo + k - 1)
  }

  /** In closed form: the pages, and one frame for each megabyte that had no table. */
  lemma {:induction false} RangeNeedIs(s: set<nat>, lo: nat, k: nat, each: nat)
    ensures RangeNeed(s, lo, k, each) == each * k + TableCount(s + Run(lo, k)) - TableCount(s)
    decreases k
  {
    hide Run, Covers, TableCount;
    if k == 0 {
      assert s + Run(lo, 0) == s;
    } else {
      RangeNeedIs(s, lo, k - 1, each);
      TableCountAdd(s + Run(lo, k - 1), lo + k - 1);
      assert s + Run(lo, k) == s + Run(lo, k - 1) + {lo + k - 1};
      assert each * k == each * (k - 1) + each;
    }
  }

  lemma {:induction false} RangeNeedGrows(s: set<nat>, lo: nat, j: nat, k: nat, each: nat)
    requires j <= k
    ensures RangeNeed(s, lo, j, each) <= RangeNeed(s, lo, k, each)
    decreases k
  {
    hide Run, TableNeed;
    if j < k {
      RangeNeedGrows(s, lo, j, k - 1, each);
    }
  }

  lemma {:induction false} SpendAll(r: Room, a: nat, b: nat)
    requires Left(r) <= a && Left(r) <= b
    ensures Spend(r, a) == Spend(r, b)
    decreases a
  {
    if Left(r) > 0 {
      SpendAll(TakeBlock(r, 1), a - 1, b - 1);
    }
  }

  /** A private page that is writable but for its copy-on-write mark. */
  ghost predicate IsCow(m: Flat, a: nat, v: nat) {
    a in m && v in m[a] && IsAlloc(m[a][v].flags) && Writable(m[a][v].flags) && !HwWritable(m[a][v].flags)
  }

  /**
    The frames a store to page `v` of `a` needs. None, unless the page is copy-on-write: then one
    for the copy if its frame is shared, and one for the table if no other page of the megabyte
    is mapped, because the entry is removed, and its table with it, before it is entered again.
   */
  ghost function StoreNeed(m: Flat, lost: Leaks, a: nat, v: nat): nat {
    if IsCow(m, a, v) then (if IsShared(m, lost, m[a][v].pfn) then 1 else 0) + TableNeed(m[a].Keys - {v}, v)
    else 0
  }

  /** A frame that is mapped twice, or was when a reference to it was lost. */
  ghost predicate IsShared(m: Flat, lost: Leaks, f: nat) {
    |Refs(m, f)| + LostAt(lost, f) > 1
  }

  /** What fork leaves of a page of the parent: one that can be written is marked copy-on-write. */
  function ParentPte(q: Pte): Pte {
    if IsAlloc(q.flags) && Writable(q.flags) then q.(flags := SetCow(q.flags)) else q
  }

  /** What the child gets: the same, or a device page that it may read and write. */
  function ChildPte(q: Pte): Pte {
    if IsPhys(q.flags) then Pte(q.pfn, MEM_PHYS | PROT_READ | PROT_WRITE) else ParentPte(q)
  }

  /** Parent and child have the same frame; a private one neither can write, and looks to both as it did to the parent. */
  lemma ForkedPte(q: Pte)
    requires IsAlloc(q.flags) || IsPhys(q.flags)
    ensures ParentPte(q).pfn == ChildPte(q).pfn == q.pfn
    ensures IsPhys(q.flags) ==> ParentPte(q) == q && ChildPte(q).flags == MEM_PHYS | PROT_READ | PROT_WRITE
    ensures IsAlloc(q.flags) ==> ChildPte(q) == ParentPte(q) && !HwWritable(ParentPte(q).flags)
                                 && IsAlloc(ParentPte(q).flags) && Visible(ParentPte(q).flags) == Visible(q.flags)
  {
    hide IsAlloc, IsPhys, HwWritable, SetCow, Visible, Writable;
    KindBits(q.flags);
    CowBits(q.flags);
  }

  /** The spaces of parent and child when the pages below `v` have been dealt with. */
  ghost function ParentSpace(s: Space, v: nat): Space {
    map w | w in s :: if w < v then ParentPte(s[w]) else s[w]
  }

  ghost function ChildSpace(s: Space, v: nat): Space {
    map w | w in s && w < v :: ChildPte(s[w])
  }

  lemma SpacesNext(s: Space, v: nat)
    ensures v in s ==> ParentSpace(s, v)[v := ParentPte(s[v])] == ParentSpace(s, v + 1)
    ensures v in s ==> ChildSpace(s, v)[v := ChildPte(s[v])] == ChildSpace(s, v + 1)
    ensures v !in s ==> ParentSpace(s, v) == ParentSpace(s, v + 1) && ChildSpace(s, v) == ChildSpace(s, v + 1)
    ensures v in s ==> ParentSpace(s, v)[v] == s[v]
    ensures ParentSpace(s, v).Keys == s.Keys && ChildSpace(s, v).Keys == Low(s.Keys, v)
  {
    hide ParentPte, ChildPte;
  }

  lemma SpacesStart(s: Space)
    ensures ParentSpace(s, 0) == s && ChildSpace(s, 0) == map[]
  {
    hide ParentPte, ChildPte;
  }

  /** All pages of the parent. */
  ghost function ParentAll(s: Space): Space {
    map w | w in s :: ParentPte(s[w])
  }

  ghost function ChildAll(s: Space): Space {
    map w | w in s :: ChildPte(s[w])
  }

  lemma SpacesEnd(s: Space, v: nat)
    requires forall w :: w in s ==> w < v
    ensures ParentSpace(s, v) == ParentAll(s) && ChildSpace(s, v) == ChildAll(s)
    ensures ParentAll(s).Keys == ChildAll(s).Keys == s.Keys
  {
    hide ParentPte, ChildPte;
  }

  /** A fork that failed may have marked some pages of the parent, from the lowest up. */
  ghost predicate MarkedInPart(m: Flat, p: nat, m': Flat) {
    p in m && exists u :: m' == m[p := ParentSpace(m[p], u)]
  }

  /** The page of `a` that was shared or marked is its own: the same frame if nobody else has it, else another one. */
  ghost predicate Resolved(m: Flat, lost: Leaks, user: set<nat>, a: nat, v: nat, m': Flat) {
    && a in m && v in m[a] && a in m' && v in m'[a]
    && m' == SetPte(m, a, v, Some(Pte(m'[a][v].pfn, ClearCow(m[a][v].flags))))
    && if IsShared(m, lost, m[a][v].pfn) then m'[a][v].pfn !in user else m'[a][v].pfn == m[a][v].pfn
  }

  /** `k` pages of `a` from `lo` on have been mapped with `flags` to frames not in `user`, and nothing else has changed. */
  ghost predicate Grew(m: Flat, user: set<nat>, a: nat, lo: nat, k: nat, flags: bv32, m': Flat) {
    && m'.Keys == m.Keys && a in m && (forall b :: b in m && b != a ==> m'[b] == m[b])
    && m'[a].Keys == m[a].Keys + Run(lo, k) && Run(lo, k) !! m[a].Keys
    && (forall w :: w in m[a] ==> m'[a][w] == m[a][w])
    && (forall w :: lo <= w < lo + k && w in m'[a] ==> m'[a][w].flags == flags && m'[a][w].pfn !in user)
  }

  /** One page of a fork, or the attempt at it. */
  ghost function ForkedAt(m: Flat, p: nat, c: nat, v: nat, q: Pte, ok: bool): Flat
    requires p in m && c in m
  {
    var m' := SetPte(m, p, v, Some(ParentPte(q)));
    if ok then SetPte(m', c, v, Some(ChildPte(q))) else m'
  }

  lemma EntrySet(m: Flat, a: nat, v: nat, p: Pte)
    requires a in m
    ensures
      var m' := SetPte(m, a, v, Some(p));
      && m'.Keys == m.Keys && v in m'[a] && m'[a][v] == p
      && forall b :: b in m && b != a ==> m'[b] == m[b]
  {
  }

  lemma SetSame(m: Flat, a: nat, v: nat)
    requires a in m && v in m[a]
    ensures SetPte(m, a, v, Some(m[a][v])) == m
  {
    assert m[a][v := m[a][v]] == m[a];
  }

  class Vm {
    const frames: PageframeTable
    const root: Directory
    /** The page directory of every address space; a call of a `pmap` function loads the one it works on. */
    var dirs: map<nat, PageDir>
    /** The words of every segment table; a call of `segment_create` loads the table it works on. */
    var segs: map<nat, seq<Word>>

    /** The flat maps that the directories implement. */
    ghost var maps: Flat
    /** Frames handed out for user pages. */
    ghost var user: set<nat>
    /** References to them that `sys_virtualfree` has not given up. */
    ghost var lost: Leaks

    ghost predicate SegsOk()
      reads `maps, `segs
    {
      maps.Keys == segs.Keys && forall a :: a in segs ==> Sorted(segs[a])
    }

    /** The page tables, in frames apart from those of the users. */
    ghost predicate Walk()
      reads `dirs, `maps, `user, frames`live
    {
      && |root| == 4096
      && user <= frames.live.Keys && (forall f :: f in user ==> frames.live[f] == 1)
      && TablesOk(dirs, maps, user, frames.live, root)
    }

    ghost predicate FramesOk()
      reads `dirs, `maps, `user, `lost, frames
    {
      && frames.Valid()
      && user <= frames.live.Keys
      && Walk()
      && Shared(maps, user, frames.pf, lost)
      && InRange(maps)
    }

    ghost predicate Inv()
      reads this, frames
    {
      FramesOk() && SegsOk() && Agreement(Domains(maps), segs)
    }

    ghost function Seen(): Eager
      reads `maps, frames
    {
      View(maps, frames.ram)
    }

    constructor (frames: PageframeTable, rootPagedir: Directory)
      requires frames.Valid() && |rootPagedir| == 4096
      ensures Inv() && maps == map[] && segs == map[] && lost == map[] && this.frames == frames
    {
      this.frames, root := frames, rootPagedir;
      dirs, segs, maps, user, lost := map[], map[], map[], {}, map[];
    }

    // -------------------------------------------------------------------
    // The page tables of one address space.

    /** `pmap_enter` of a page that is not mapped. */
    method EnterPage(a: nat, v: nat, p: Pte) returns (err: Option<Errno>)
      requires frames.Valid() && Walk() && a in maps && 0 < v < USER_PAGES && v !in maps[a]
      modifies `dirs, `maps, frames
      ensures frames.Valid() && Walk()
      ensures Allocated(old(frames.live), old(frames.pf), old(frames.ram), frames.live, frames.pf, frames.ram)
      ensures err == if TableNeed(old(maps)[a].Keys, v) <= Left(old(frames.Stock())) then None else Some(ENOMEM)
      ensures frames.Stock() == Spend(old(frames.Stock()), TableNeed(old(maps)[a].Keys, v))
      ensures maps == if err == None then SetPte(old(maps), a, v, Some(p)) else old(maps)
      ensures forall f :: f in old(frames.live) && Unclaimed(old(dirs), f) ==> Unclaimed(dirs, f)
    {
      hide PageframeTable.Valid, PmapOk, TablesOk, Unclaimed, Covers;
      TablesAt(dirs, maps, user, frames.live, root, a);
      var t := new Pmap.Load(dirs[a], maps[a], root);
      err := t.Enter(v, p.pfn, p.flags, frames);
      TablesSet(dirs, maps, user, old(frames.live), root, a, t.State(), t.view, frames.live);
      dirs := dirs[a := t.State()];
      ghost var s: Space := t.view;
      maps := maps[a := s];
      assert err.Some? ==> maps == old(maps);
    }

    /** `pmap_remove` of a mapped page. */
    method RemovePage(a: nat, v: nat)
      requires Walk() && a in maps && v in maps[a]
      modifies `dirs, `maps
      ensures Walk() && maps == SetPte(old(maps), a, v, None)
      ensures forall f :: f in frames.live && Unclaimed(old(dirs), f) ==> Unclaimed(dirs, f)
    {
      hide PmapOk, TablesOk, Unclaimed;
      TablesAt(dirs, maps, user, frames.live, root, a);
      MappedInHalf(dirs[a], maps[a], root, v);
      var t := new Pmap.Load(dirs[a], maps[a], root);
      var err := t.Remove(v);
      TablesSet(dirs, maps, user, frames.live, root, a, t.State(), t.view, frames.live);
      dirs := dirs[a := t.State()];
      ghost var s: Space := t.view;
      maps := maps[a := s];
    }

    /** `pmap_protect` of a mapped page. */
    method ProtectPage(a: nat, v: nat, flags: bv32)
      requires Walk() && a in maps && v in maps[a]
      modifies `dirs, `maps
      ensures Walk() && maps == SetPte(old(maps), a, v, Some(old(maps)[a][v].(flags := flags)))
    {
      hide PmapOk, TablesOk, Unclaimed;
      TablesAt(dirs, maps, user, frames.live, root, a);
      MappedInHalf(dirs[a], maps[a], root, v);
      var t := new Pmap.Load(dirs[a], maps[a], root);
      var err := t.Protect(v, flags);
      TablesSet(dirs, maps, user, frames.live, root, a, t.State(), t.view, frames.live);
      dirs := dirs[a := t.State()];
      ghost var s: Space := t.view;
      maps := maps[a := s];
    }

    /** `pmap_extract`, or `pmap_is_page_present` and `pmap_extract`: the entry of a user page. */
    method ExtractPage(a: nat, v: nat) returns (r: Option<Pte>)
      requires Walk() && a in maps && v < USER_PAGES
      ensures r == if v in maps[a] then Some(maps[a][v]) else None
    {
      hide PmapOk, TablesOk;
      TablesAt(dirs, maps, user, frames.live, root, a);
      var t := new Pmap.Load(dirs[a], maps[a], root);
      var present := t.IsPagePresent(v);
      if !present {
        return None;
      }
      r := t.Extract(v);
    }

    /** `pmap_is_pagetable_present`. */
    method TableAt(a: nat, v: nat) returns (r: bool)
      requires Walk() && a in maps && v < USER_PAGES
      ensures r <==> Covers(maps[a].Keys, v)
    {
      hide PmapOk, TablesOk;
      TablesAt(dirs, maps, user, frames.live, root, a);
      var t := new Pmap.Load(dirs[a], maps[a], root);
      r := t.IsPagetablePresent(v);
    }

    /** No store to a user frame reaches a page table or a page directory. */
    lemma StoresMissTables(a: nat, f: nat, p: nat)
      requires frames.Valid() && Walk() && a in dirs && f in user
      requires p == dirs[a].at || p in dirs[a].tables
      ensures f !in Run(p, frames.live[p])
    {
      hide PmapOk, Partition;
      frames.LiveBlock(p);
      frames.LiveBlock(f);
      if f in Run(p, frames.live[p]) {
        BlocksDisjoint(frames.owner, Block(p, frames.live[p], true), Block(f, 1, true), f);
      }
    }

    // -------------------------------------------------------------------
    // Mapping pages.

    /**
      Allocate and map one page, as in the loop of `sys_virtualalloc`. It fails exactly when
      there are not enough frames for the page and, if it needs one, its table; and then no
      process sees a change.
     */
    method MapFresh(a: nat, v: nat, flags: bv32) returns (ok: bool)
      requires FramesOk() && a in maps && 0 < v < USER_PAGES && v !in maps[a] && IsAlloc(flags)
      modifies `dirs, `maps, `user, frames
      ensures FramesOk() && old(user) <= user
      ensures ok <==> 1 + TableNeed(old(maps)[a].Keys, v) <= Left(old(frames.Stock()))
      ensures frames.Stock() == Spend(old(frames.Stock()), 1 + TableNeed(old(maps)[a].Keys, v))
      ensures ok ==>
                && Seen() == SetCell(old(Seen()), a, v, Some(Cell(ZERO_PAGE, Visible(flags))))
                && exists f :: f !in old(user) && maps == SetPte(old(maps), a, v, Some(Pte(f, flags)))
      ensures !ok ==> Seen() == old(Seen()) && maps == old(maps)
    {
      hide PageframeTable.Valid, Shared, InRange, View, IsAlloc, Visible, SetCell, SetPte, Kept, Walk, Spend;
      ghost var m: Flat, pf0, ram0, room := maps, frames.pf, frames.ram, frames.Stock();
      SpendMore(room, 1, TableNeed(maps[a].Keys, v));
      var f := NewFrame();
      if f.None? {
        Unaffected(m, user, pf0, lost, frames.pf, ram0, frames.ram);
        SpendAll(room, 1, 1 + TableNeed(maps[a].Keys, v));
        return false;
      }
      ok := MapFilled(a, v, f.value, flags, pf0, ram0);
    }

    /** A zeroed frame that holds no user page and no page table. */
    method NewFrame() returns (f: Option<nat>)
      requires frames.Valid() && Walk()
      modifies frames
      ensures frames.Valid() && Walk() && Same(old(frames.live.Keys), old(frames.pf), old(frames.ram), frames.pf, frames.ram)
      ensures old(frames.live.Keys) <= frames.live.Keys
      ensures f.Some? <==> Left(old(frames.Stock())) > 0
      ensures frames.Stock() == Spend(old(frames.Stock()), 1)
      ensures f.Some? ==>
                && f.value !in old(frames.live) && f.value in frames.live && frames.live[f.value] == 1
                && f.value < |frames.pf| && f.value < |frames.ram| && Unclaimed(dirs, f.value)
                && frames.pf[f.value].refCnt == 0 && frames.ram[f.value] == ZERO_PAGE
    {
      hide PageframeTable.Valid, TablesOk, Unclaimed, Spend;
      f := frames.AllocPage();
      TablesGrown(dirs, maps, user, old(frames.live), root, frames.live);
    }

    /** Map a frame that holds no user page yet. */
    method MapFilled(a: nat, v: nat, f: nat, flags: bv32, ghost pf0: seq<Pageframe>, ghost ram0: seq<Page>) returns (ok: bool)
      requires frames.Valid() && Walk() && f in frames.live && frames.live[f] == 1 && f !in user && Unclaimed(dirs, f)
      requires Shared(maps, user, pf0, lost) && InRange(maps) && user <= frames.live.Keys
      requires a in maps && v !in maps[a] && 0 < v < USER_PAGES && IsAlloc(flags)
      requires Same(user, pf0, ram0, frames.pf, frames.ram) && f < |frames.pf|
      requires f < |frames.ram| && frames.pf[f].refCnt == 0
      modifies `dirs, `maps, `user, frames
      ensures FramesOk() && old(user) <= user
      ensures ok <==> TableNeed(old(maps)[a].Keys, v) <= Left(old(frames.Stock()))
      ensures frames.Stock() == Spend(old(frames.Stock()), TableNeed(old(maps)[a].Keys, v))
      ensures ok ==>
                && View(maps, frames.ram) == SetCell(View(old(maps), ram0), a, v, Some(Cell(old(frames.ram)[f], Visible(flags))))
                && maps == SetPte(old(maps), a, v, Some(Pte(f, flags)))
      ensures !ok ==> View(maps, frames.ram) == View(old(maps), ram0) && maps == old(maps)
    {
      hide PageframeTable.Valid, Shared, InRange, View, IsAlloc, Visible, SetCell, SetPte, TablesOk, Unclaimed, Spend;
      ghost var m: Flat := maps;
      var err := EnterPage(a, v, Pte(f, flags));
      if err.Some? {
        Unaffected(m, user, pf0, lost, frames.pf, ram0, frames.ram);
        return false;
      }
      frames.SetRefCnt(f, frames.pf[f].refCnt + 1);
      FreshMapped(m, user, pf0, lost, frames.pf, ram0, frames.ram, a, v, Pte(f, flags));
      TablesUser(dirs, maps, user, frames.live, root, f);
      user := user + {f};
      return true;
    }

    /** Map one device page, as in the loop of `sys_virtualallocphys`. */
    method MapDevice(a: nat, v: nat, pfn: nat, flags: bv32) returns (ok: bool)
      requires FramesOk() && a in maps && 0 < v < USER_PAGES && v !in maps[a] && IsPhys(flags)
      modifies `dirs, `maps, frames
      ensures FramesOk() && Seen() == old(Seen())
      ensures ok <==> TableNeed(old(maps)[a].Keys, v) <= Left(old(frames.Stock()))
      ensures frames.Stock() == Spend(old(frames.Stock()), TableNeed(old(maps)[a].Keys, v))
      ensures maps == if ok then SetPte(old(maps), a, v, Some(Pte(pfn, flags))) else old(maps)
    {
      hide PageframeTable.Valid, Shared, InRange, View, Walk, Spend;
      ghost var m: Flat, pf0, ram0 := maps, frames.pf, frames.ram;
      var err := EnterPage(a, v, Pte(pfn, flags));
      Unaffected(m, user, pf0, lost, frames.pf, ram0, frames.ram);
      if err.Some? {
        return false;
      }
      MappedPhys(m, user, frames.pf, lost, a, v, Pte(pfn, flags));
      InRangeSet(m, a, v, Some(Pte(pfn, flags)));
      ViewSet(m, a, v, Some(Pte(pfn, flags)), frames.ram);
      HiddenCell(m, a, v, frames.ram);
      return true;
    }

    /** Mark a writable private page copy-on-write. */
    method MarkCow(a: nat, v: nat, flags: bv32)
      requires FramesOk() && a in maps && v in maps[a] && IsAlloc(maps[a][v].flags) && flags == SetCow(maps[a][v].flags)
      modifies `dirs, `maps
      ensures FramesOk() && Seen() == old(Seen())
      ensures maps == SetPte(old(maps), a, v, Some(old(maps)[a][v].(flags := flags)))
    {
      hide PageframeTable.Valid, Shared, InRange, View, IsAlloc, SetCow, Walk;
      MarkedSame(maps, user, frames.pf, lost, frames.ram, a, v);
      InRangeAt(maps, a, v);
      InRangeSet(maps, a, v, Some(maps[a][v].(flags := flags)));
      ProtectPage(a, v, flags);
    }

    /** Map a page of the parent in the child and count the reference. */
    method ShareWith(c: nat, v: nat, pte: Pte, ghost p: nat) returns (ok: bool)
      requires FramesOk() && p in maps && c in maps && p != c && v in maps[p] && v !in maps[c] && pte == maps[p][v]
      requires IsAlloc(pte.flags) && !HwWritable(pte.flags)
      modifies `dirs, `maps, frames
      ensures FramesOk()
      ensures ok <==> TableNeed(old(maps)[c].Keys, v) <= Left(old(frames.Stock()))
      ensures frames.Stock() == Spend(old(frames.Stock()), TableNeed(old(maps)[c].Keys, v))
      ensures maps == if ok then SetPte(old(maps), c, v, Some(pte)) else old(maps)
      ensures Seen() == if ok then SetCell(old(Seen()), c, v, Some(old(Seen())[p][v])) else old(Seen())
    {
      hide PageframeTable.Valid, Shared, InRange, View, IsAlloc, HwWritable, Visible, Walk, Spend, TableNeed, SetCell, Refs;
      ghost var m: Flat, pf0, ram0 := maps, frames.pf, frames.ram;
      InRangeAt(m, p, v);
      InRangeSet(m, c, v, Some(pte));
      var err := EnterPage(c, v, pte);
      Unaffected(m, user, pf0, lost, frames.pf, ram0, frames.ram);
      if err.Some? {
        return false;
      }
      NoWriters(m, user, frames.pf, lost, p, v);
      ghost var pf1 := frames.pf;
      frames.SetRefCnt(pte.pfn, frames.pf[pte.pfn].refCnt + 1);
      SharedTo(m, user, pf1, lost, frames.pf, c, v, pte);
      ViewSet(m, c, v, Some(pte), frames.ram);
      CellSeen(m, p, v, frames.ram);
      return true;
    }

    /**
      One page of the loop of `fork_address_space`: a writable private page is marked
      copy-on-write on both sides; a read-only one is shared; a device page is mapped again.
      The parent sees no change, and the child sees the parent's page. It fails exactly when
      the child needs a table and no frame is left.
     */
    method ForkPage(p: nat, c: nat, v: nat, pte: Pte) returns (ok: bool)
      requires FramesOk() && p in maps && c in maps && p != c && v in maps[p] && v !in maps[c] && pte == maps[p][v]
      modifies `dirs, `maps, frames
      ensures FramesOk()
      ensures ok <==> TableNeed(old(maps)[c].Keys, v) <= Left(old(frames.Stock()))
      ensures frames.Stock() == Spend(old(frames.Stock()), TableNeed(old(maps)[c].Keys, v))
      ensures maps == ForkedAt(old(maps), p, c, v, pte, ok)
      ensures Seen() == if ok then SetCell(old(Seen()), c, v, if v in old(Seen())[p] then Some(old(Seen())[p][v]) else None)
                        else old(Seen())
    {
      hide PageframeTable.Valid, Shared, InRange, View, IsAlloc, IsPhys, HwWritable, SetCow, ClearCow, Visible, Writable, Walk, Spend, SetPte, SetCell, TableNeed;
      KindBits(pte.flags);
      CowBits(pte.flags);
      KindAt(maps, user, frames.pf, lost, p, v);
      CellSeen(maps, p, v, frames.ram);
      InRangeAt(maps, p, v);
      SetSame(maps, p, v);
      if pte.flags & MEM_PHYS != MEM_PHYS && Writable(pte.flags) {
        ok := ForkWritable(p, c, v, pte);
      } else if pte.flags & MEM_PHYS != MEM_PHYS {
        ok := ShareWith(c, v, pte, p);
      } else {
        HiddenCell(maps, c, v, frames.ram);
        ok := MapDevice(c, v, pte.pfn, MEM_PHYS | PROT_READ | PROT_WRITE);
      }
    }

    /** A writable private page: marked copy-on-write in the parent, then shared. */
    method ForkWritable(p: nat, c: nat, v: nat, pte: Pte) returns (ok: bool)
      requires FramesOk() && p in maps && c in maps && p != c && v in maps[p] && v !in maps[c] && pte == maps[p][v]
      requires IsAlloc(pte.flags) && Writable(pte.flags)
      modifies `dirs, `maps, frames
      ensures FramesOk()
      ensures ok <==> TableNeed(old(maps)[c].Keys, v) <= Left(old(frames.Stock()))
      ensures frames.Stock() == Spend(old(frames.Stock()), TableNeed(old(maps)[c].Keys, v))
      ensures maps == ForkedAt(old(maps), p, c, v, pte, ok)
      ensures p in old(Seen()) && v in old(Seen())[p]
      ensures Seen() == if ok then SetCell(old(Seen()), c, v, Some(old(Seen())[p][v])) else old(Seen())
    {
      hide PageframeTable.Valid, Shared, InRange, View, IsAlloc, IsPhys, HwWritable, SetCow, ClearCow, Visible, Writable, Walk, Spend, SetPte, SetCell, TableNeed;
      CowBits(pte.flags);
      KindBits(pte.flags);
      CellSeen(maps, p, v, frames.ram);
      var shared := pte.(flags := SetCow(pte.flags));
      EntrySet(maps, p, v, shared);
      MarkCow(p, v, shared.flags);
      ok := ShareWith(c, v, shared, p);
    }

    // -------------------------------------------------------------------
    // Page faults.

    ghost predicate CopyOnWrite(a: nat, v: nat)
      reads `maps
    {
      IsCow(maps, a, v)
    }

    ghost function FaultNeed(a: nat, v: nat): nat
      reads `maps, `lost
    {
      StoreNeed(maps, lost, a, v)
    }

    /**
      `page_fault` on a user page. A write to a copy-on-write page gets a copy of its frame,
      or its frame alone when nobody else has it; the process and all others see what they saw.
      Every other fault is refused. The write fault fails exactly when there are fewer frames
      than it needs, and then the page is lost to the process, and to no other.
     */
    method PageFault(a: nat, v: nat, write: bool) returns (sc: int)
      requires FramesOk() && a in maps && v < USER_PAGES
      modifies `dirs, `maps, `user, frames
      ensures FramesOk() && maps.Keys == old(maps).Keys
      ensures old(CopyOnWrite(a, v)) ==> old(maps)[a][v].pfn < |old(frames.pf)|
      ensures old(CopyOnWrite(a, v)) && write ==>
                && (sc == 0 <==> old(FaultNeed(a, v)) <= Left(old(frames.Stock())))
                && frames.Stock() == Spend(old(frames.Stock()), old(FaultNeed(a, v)))
      ensures sc == 0 ==>
                && old(CopyOnWrite(a, v)) && write
                && Seen() == old(Seen()) && Resolved(old(maps), lost, old(user), a, v, maps)
                && IsAlloc(maps[a][v].flags) && HwWritable(maps[a][v].flags)
      ensures !(old(CopyOnWrite(a, v)) && write) ==>
                maps == old(maps) && Seen() == old(Seen()) && frames.Stock() == old(frames.Stock())
      ensures sc != 0 && old(CopyOnWrite(a, v)) && write ==>
                && maps == SetPte(old(maps), a, v, None)
                && Seen() == SetCell(old(Seen()), a, v, None)
    {
      hide PageframeTable.Valid, Shared, InRange, View, IsAlloc, IsPhys, HwWritable, SetCow, ClearCow, Visible, Writable, Walk, Spend, TableNeed;
      var entry := ExtractPage(a, v);
      if entry.None? {
        return -1;
      }
      var pte := entry.value;
      KindBits(pte.flags);
      CowBits(pte.flags);
      KindAt(maps, user, frames.pf, lost, a, v);
      if IsPhys(pte.flags) {
        return -1;
      } else if !IsAlloc(pte.flags) {
        return -1;
      } else if !write {
        return -1;
      } else if HwWritable(pte.flags) {
        return -1;
      } else if !Writable(pte.flags) {
        return -1;
      }
      sc := ResolveWrite(a, v, pte);
    }

    /** The write fault proper: a frame that is mapped elsewhere too is copied, and another is reclaimed. */
    method ResolveWrite(a: nat, v: nat, pte: Pte) returns (sc: int)
      requires FramesOk() && a in maps && v < USER_PAGES && v in maps[a] && pte == maps[a][v] && CopyOnWrite(a, v)
      modifies `dirs, `maps, `user, frames
      ensures FramesOk() && maps.Keys == old(maps).Keys
      ensures sc == 0 <==> old(FaultNeed(a, v)) <= Left(old(frames.Stock()))
      ensures frames.Stock() == Spend(old(frames.Stock()), old(FaultNeed(a, v)))
      ensures sc == 0 ==>
                && Seen() == old(Seen()) && Resolved(old(maps), lost, old(user), a, v, maps)
                && IsAlloc(maps[a][v].flags) && HwWritable(maps[a][v].flags)
      ensures sc != 0 ==> maps == SetPte(old(maps), a, v, None) && Seen() == SetCell(old(Seen()), a, v, None)
    {
      hide PageframeTable.Valid, Shared, InRange, View, IsAlloc, IsPhys, HwWritable, SetCow, ClearCow, Visible, Writable, Walk, Spend, TableNeed;
      KindBits(pte.flags);
      CowBits(pte.flags);
      KindAt(maps, user, frames.pf, lost, a, v);
      NoWriters(maps, user, frames.pf, lost, a, v);
      if frames.pf[pte.pfn].refCnt > 1 {
        sc := CopyPage(a, v, pte);
      } else {
        assert frames.pf[pte.pfn].refCnt == 1;
        sc := ReclaimPage(a, v, pte);
      }
    }

    /** Unmap a private page and give up its reference. */
    method DropPage(a: nat, v: nat, f: nat)
      requires FramesOk() && a in maps && v in maps[a] && IsAlloc(maps[a][v].flags) && f == maps[a][v].pfn
      modifies `dirs, `maps, frames
      ensures FramesOk() && frames.Stock() == old(frames.Stock())
      ensures maps == SetPte(old(maps), a, v, None) && Seen() == SetCell(old(Seen()), a, v, None)
      ensures frames.live == old(frames.live) && frames.ram == old(frames.ram)
      ensures f < |frames.pf| == |old(frames.pf)| && frames.pf[f].refCnt == old(frames.pf)[f].refCnt - 1
      ensures forall f :: f in user && f != old(maps)[a][v].pfn ==> frames.pf[f].refCnt == old(frames.pf)[f].refCnt
    {
      hide PageframeTable.Valid, Shared, InRange, View, IsAlloc, Walk;
      ghost var m: Flat, pf0 := maps, frames.pf;
      AllocAt(m, user, pf0, lost, a, v);
      InRangeAt(m, a, v);
      InRangeSet(m, a, v, None);
      frames.LiveInUse();
      frames.SetRefCnt(f, frames.pf[f].refCnt - 1);
      RemovePage(a, v);
      GivenUp(m, user, pf0, lost, frames.pf, a, v);
      ViewSet(m, a, v, None, frames.ram);
    }

    /** Map a newly allocated copy of frame `src`. */
    method MapCopy(a: nat, v: nat, src: nat, flags: bv32) returns (ok: bool)
      requires FramesOk() && a in maps && 0 < v < USER_PAGES && v !in maps[a] && IsAlloc(flags) && src in user
      modifies `dirs, `maps, `user, frames
      ensures FramesOk()
      ensures src < |old(frames.ram)|
      ensures ok <==> 1 + TableNeed(old(maps)[a].Keys, v) <= Left(old(frames.Stock()))
      ensures frames.Stock() == Spend(old(frames.Stock()), 1 + TableNeed(old(maps)[a].Keys, v))
      ensures ok ==>
                && Seen() == SetCell(old(Seen()), a, v, Some(Cell(old(frames.ram)[src], Visible(flags))))
                && exists f :: f !in old(user) && maps == SetPte(old(maps), a, v, Some(Pte(f, flags)))
      ensures !ok ==> Seen() == old(Seen()) && maps == old(maps)
    {
      hide PageframeTable.Valid, Shared, InRange, View, IsAlloc, Visible, SetCell, SetPte, Kept, Walk, Spend;
      ghost var m: Flat, pf0, ram0, room := maps, frames.pf, frames.ram, frames.Stock();
      SpendMore(room, 1, TableNeed(maps[a].Keys, v));
      var f := NewFrame();
      if f.None? {
        Unaffected(m, user, pf0, lost, frames.pf, ram0, frames.ram);
        SpendAll(room, 1, 1 + TableNeed(maps[a].Keys, v));
        return false;
      }
      frames.WritePage(f.value, frames.ram[src]);
      ok := MapFilled(a, v, f.value, flags, pf0, ram0);
    }

    /** Give up a reference and map a copy of the frame. */
    method CopyPage(a: nat, v: nat, pte: Pte) returns (sc: int)
      requires FramesOk() && CopyOnWrite(a, v) && pte == maps[a][v]
      modifies `dirs, `maps, `user, frames
      ensures FramesOk()
      ensures sc == 0 <==> 1 + TableNeed(old(maps)[a].Keys - {v}, v) <= Left(old(frames.Stock()))
      ensures frames.Stock() == Spend(old(frames.Stock()), 1 + TableNeed(old(maps)[a].Keys - {v}, v))
      ensures sc == 0 ==>
                && Seen() == old(Seen())
                && exists f :: f !in old(user) && maps == SetPte(old(maps), a, v, Some(Pte(f, ClearCow(pte.flags))))
      ensures sc != 0 ==> maps == SetPte(old(maps), a, v, None) && Seen() == SetCell(old(Seen()), a, v, None)
    {
      hide PageframeTable.Valid, Shared, InRange, View, IsAlloc, HwWritable, SetCow, ClearCow, Visible, Writable, Walk, Spend, TableNeed;
      CowBits(pte.flags);
      AllocAt(maps, user, frames.pf, lost, a, v);
      CellSeen(maps, a, v, frames.ram);
      InRangeAt(maps, a, v);
      CellRestored(Seen(), a, v);
      forall f: nat ensures SetPte(SetPte(maps, a, v, None), a, v, Some(Pte(f, ClearCow(pte.flags)))) ==
                            SetPte(maps, a, v, Some(Pte(f, ClearCow(pte.flags)))) {
        SetTwice(maps, a, v, Pte(f, ClearCow(pte.flags)));
      }
      DropPage(a, v, pte.pfn);
      assert maps[a].Keys == old(maps)[a].Keys - {v};
      var ok := MapCopy(a, v, pte.pfn, ClearCow(pte.flags));
      if !ok {
        return -1;
      }
      return 0;
    }

    /** Map the same frame again without the copy-on-write mark. */
    method ReclaimPage(a: nat, v: nat, pte: Pte) returns (sc: int)
      requires FramesOk() && CopyOnWrite(a, v) && pte == maps[a][v]
      requires pte.pfn < |frames.pf| && frames.pf[pte.pfn].refCnt == 1
      modifies `dirs, `maps, frames
      ensures FramesOk()
      ensures sc == 0 <==> TableNeed(old(maps)[a].Keys - {v}, v) <= Left(old(frames.Stock()))
      ensures frames.Stock() == Spend(old(frames.Stock()), TableNeed(old(maps)[a].Keys - {v}, v))
      ensures sc == 0 ==>
                && Seen() == old(Seen())
                && maps == SetPte(old(maps), a, v, Some(pte.(flags := ClearCow(pte.flags))))
      ensures sc != 0 ==> maps == SetPte(old(maps), a, v, None) && Seen() == SetCell(old(Seen()), a, v, None)
    {
      hide PageframeTable.Valid, Shared, InRange, View, IsAlloc, HwWritable, SetCow, ClearCow, Visible, Writable, Walk, Spend, TableNeed;
      ghost var m: Flat, pf0, ram0 := maps, frames.pf, frames.ram;
      CowBits(pte.flags);
      AllocAt(m, user, frames.pf, lost, a, v);
      InRangeAt(m, a, v);
      InRangeSet(m, a, v, Some(pte.(flags := ClearCow(pte.flags))));
      SetTwice(m, a, v, pte.(flags := ClearCow(pte.flags)));
      RemovePage(a, v);
      assert maps[a].Keys == m[a].Keys - {v};
      var err := EnterPage(a, v, pte.(flags := ClearCow(pte.flags)));
      Unaffected(m, user, pf0, lost, frames.pf, ram0, frames.ram);
      if err.Some? {
        Forfeit(a, v, pte.pfn, m);
        return -1;
      }
      Reclaimed(m, user, frames.pf, lost, a, v, pte.(flags := ClearCow(pte.flags)));
      SameCell(m, a, v, pte.(flags := ClearCow(pte.flags)), frames.ram);
      return 0;
    }

    /** The page has been removed and cannot be entered again: its reference is given up. */
    method Forfeit(a: nat, v: nat, f: nat, ghost m: Flat)
      requires frames.Valid() && Walk() && Shared(m, user, frames.pf, lost) && InRange(m) && user <= frames.live.Keys
      requires a in m && v in m[a] && IsAlloc(m[a][v].flags) && f == m[a][v].pfn && maps == SetPte(m, a, v, None)
      modifies frames
      ensures FramesOk() && frames.Stock() == old(frames.Stock())
      ensures Seen() == SetCell(View(m, old(frames.ram)), a, v, None)
    {
      hide PageframeTable.Valid, Shared, InRange, View, IsAlloc, Walk;
      ghost var pf0 := frames.pf;
      AllocAt(m, user, pf0, lost, a, v);
      InRangeAt(m, a, v);
      InRangeSet(m, a, v, None);
      frames.LiveInUse();
      frames.SetRefCnt(f, frames.pf[f].refCnt - 1);
      GivenUp(m, user, pf0, lost, frames.pf, a, v);
      ViewSet(m, a, v, None, frames.ram);
    }

    // -------------------------------------------------------------------
    // Fork.

    /**
      Forking `c` from `p`, whose pages were those of `m0`, has got to page `v`: the pages below it are
      marked and shared, and the child sees what the parent sees there.
     */
    ghost predicate Forking(p: nat, c: nat, v: nat, seen: Eager, m0: Flat)
      reads `dirs, `maps, `user, `lost, frames
    {
      && FramesOk() && p in m0 && c !in m0 && p in seen && seen[p].Keys <= m0[p].Keys
      && maps == m0[p := ParentSpace(m0[p], v)][c := ChildSpace(m0[p], v)]
      && Seen() == seen[c := Below(seen[p], v)]
    }

    /** It has failed at page `v`, which the parent has marked already. */
    ghost predicate Stuck(p: nat, c: nat, v: nat, seen: Eager, m0: Flat)
      reads `dirs, `maps, `user, `lost, frames
    {
      && FramesOk() && p in m0 && c !in m0 && p in seen && seen[p].Keys <= m0[p].Keys
      && maps == m0[p := ParentSpace(m0[p], v + 1)][c := ChildSpace(m0[p], v)]
      && Seen() == seen[c := Below(seen[p], v)]
    }

    /** The inner loop of `fork_address_space`, over the pages of one page table. */
    method ForkTable(p: nat, c: nat, vpt: nat, ghost seen: Eager, ghost m0: Flat, ghost room: Room) returns (ok: bool)
      requires p in m0 && Forking(p, c, vpt, seen, m0) && Paid(m0[p].Keys, vpt, room, frames.Stock()) && vpt + 256 <= USER_PAGES
      modifies `dirs, `maps, frames
      ensures ok ==> Forking(p, c, vpt + 256, seen, m0) && Paid(m0[p].Keys, vpt + 256, room, frames.Stock())
      ensures !ok ==> exists v :: vpt <= v < vpt + 256 && Stuck(p, c, v, seen, m0) && Broke(m0[p].Keys, v + 1, room, frames.Stock())
    {
      hide Forking, Stuck, Paid, Broke;
      var v := vpt;
      while v < vpt + 256
        invariant vpt <= v <= vpt + 256
        invariant Forking(p, c, v, seen, m0) && Paid(m0[p].Keys, v, room, frames.Stock())
      {
        ok := ForkStep(p, c, v, seen, m0, room);
        if !ok {
          return;
        }
        v := v + 1;
      }
      return true;
    }

    method ForkStep(p: nat, c: nat, v: nat, ghost seen: Eager, ghost m0: Flat, ghost room: Room) returns (ok: bool)
      requires p in m0 && Forking(p, c, v, seen, m0) && Paid(m0[p].Keys, v, room, frames.Stock()) && v < USER_PAGES
      modifies `dirs, `maps, frames
      ensures if ok then Forking(p, c, v + 1, seen, m0) && Paid(m0[p].Keys, v + 1, room, frames.Stock())
              else Stuck(p, c, v, seen, m0) && Broke(m0[p].Keys, v + 1, room, frames.Stock())
    {
      hide Forking, Stuck, FramesOk, View, Spend, TableNeed, TableCount, Low, Below, Walk, SetCell, ForkedAt;
      ForkingAt(p, c, v, seen, m0);
      LowStep(m0[p].Keys, v);
      var entry := ExtractPage(p, v);
      if entry.Some? {
        NextTable(m0[p].Keys, v, room);
        ok := ForkPage(p, c, v, entry.value);
        ForkingOn(p, c, v, seen, m0, ok);
      } else {
        ok := true;
        ForkingPast(p, c, v, seen, m0);
      }
    }

    lemma ForkingAt(p: nat, c: nat, v: nat, seen: Eager, m0: Flat)
      requires Forking(p, c, v, seen, m0)
      ensures FramesOk() && Walk() && p in m0 && c !in m0 && p in seen && p in maps && c in maps && p != c
      ensures maps[c].Keys == Low(m0[p].Keys, v) && maps[p].Keys == m0[p].Keys && (v in m0[p] ==> maps[p][v] == m0[p][v])
      ensures maps == m0[p := ParentSpace(m0[p], v)][c := ChildSpace(m0[p], v)]
      ensures Seen() == seen[c := Below(seen[p], v)] && seen[p].Keys <= m0[p].Keys
    {
      hide View, FramesOk, Walk, ParentSpace, ChildSpace;
      OkWalks();
      SpacesNext(m0[p], v);
    }

    lemma ForkingOn(p: nat, c: nat, v: nat, seen: Eager, m0: Flat, ok: bool)
      requires FramesOk() && p in m0 && c !in m0 && p in seen && v in m0[p] && seen[p].Keys <= m0[p].Keys
      requires maps == ForkedAt(m0[p := ParentSpace(m0[p], v)][c := ChildSpace(m0[p], v)], p, c, v, m0[p][v], ok)
      requires
        var e: Eager := seen[c := Below(seen[p], v)];
        Seen() == if ok then SetCell(e, c, v, if v in e[p] then Some(e[p][v]) else None) else e
      ensures if ok then Forking(p, c, v + 1, seen, m0) else Stuck(p, c, v, seen, m0)
    {
      hide FramesOk, View, ParentSpace, ChildSpace, ParentPte, ChildPte;
      BelowStep(seen, p, c, v);
      SpacesNext(m0[p], v);
    }

    lemma ForkingPast(p: nat, c: nat, v: nat, seen: Eager, m0: Flat)
      requires Forking(p, c, v, seen, m0) && v !in m0[p]
      ensures Forking(p, c, v + 1, seen, m0)
    {
      hide FramesOk, View, ParentSpace, ChildSpace;
      BelowStep(seen, p, c, v);
      SpacesNext(m0[p], v);
    }

    lemma ForkingGap(p: nat, c: nat, vpt: nat, seen: Eager, m0: Flat)
      requires Forking(p, c, vpt, seen, m0) && vpt % 256 == 0 && !Covers(m0[p].Keys, vpt)
      ensures Forking(p, c, vpt + 256, seen, m0) && Low(m0[p].Keys, vpt + 256) == Low(m0[p].Keys, vpt)
    {
      hide FramesOk, View, Dir, ParentPte, ChildPte;
      Gap(seen[p], m0[p].Keys, vpt);
      SpaceGap(m0[p], vpt);
    }

    lemma OkWalks()
      requires FramesOk()
      ensures Walk()
    {
    }

    /** The outer loop of `fork_address_space`, over the page tables of the parent. */
    method ForkPages(p: nat, c: nat, ghost seen: Eager, ghost m0: Flat, ghost room: Room) returns (ok: bool)
      requires p in m0 && Forking(p, c, 0, seen, m0) && frames.Stock() == room
      modifies `dirs, `maps, frames
      ensures ok <==> TableCount(Low(m0[p].Keys, VM_USER_CEILING)) <= Left(room)
      ensures frames.Stock() == Spend(room, TableCount(Low(m0[p].Keys, VM_USER_CEILING)))
      ensures ok ==> Forking(p, c, VM_USER_CEILING, seen, m0)
      ensures !ok ==> exists v :: Stuck(p, c, v, seen, m0)
    {
      hide Forking, Stuck, Paid, Broke, Spend;
      var vpt := 0;
      PaidNothing(m0[p].Keys, room);
      while vpt < VM_USER_CEILING
        invariant vpt % 256 == 0 && 0 <= vpt <= VM_USER_CEILING
        invariant Forking(p, c, vpt, seen, m0) && Paid(m0[p].Keys, vpt, room, frames.Stock())
      {
        var present := TablePresent(p, c, vpt, seen, m0, room);
        if present {
          ok := ForkTable(p, c, vpt, seen, m0, room);
          if !ok {
            ghost var v :| vpt <= v < vpt + 256 && Stuck(p, c, v, seen, m0) && Broke(m0[p].Keys, v + 1, room, frames.Stock());
            BrokeAll(m0[p].Keys, v + 1, VM_USER_CEILING, room, frames.Stock());
            return;
          }
        }
        vpt := vpt + 256;
      }
      PaidAll(m0[p].Keys, vpt, room, frames.Stock());
      return true;
    }

    /** `pmap_is_pagetable_present`: without a table the next 256 pages have nothing to copy. */
    method TablePresent(p: nat, c: nat, vpt: nat, ghost seen: Eager, ghost m0: Flat, ghost room: Room) returns (r: bool)
      requires p in m0 && Forking(p, c, vpt, seen, m0) && vpt % 256 == 0 && vpt < USER_PAGES
      requires Paid(m0[p].Keys, vpt, room, frames.Stock())
      ensures !r ==> Forking(p, c, vpt + 256, seen, m0) && Paid(m0[p].Keys, vpt + 256, room, frames.Stock())
    {
      hide Forking, Low, Below, Spend, TableCount, Covers, FramesOk, View, Walk;
      ForkingAt(p, c, vpt, seen, m0);
      r := TableAt(p, vpt);
      if !r {
        ForkingGap(p, c, vpt, seen, m0);
      }
    }

    /** Removing the pages of `a` has got to page `v`. */
    ghost predicate Cleaning(a: nat, v: nat, seen: Eager, m0: Flat, room: Room)
      reads `dirs, `maps, `user, `lost, frames
    {
      && FramesOk() && a in m0 && a in seen && frames.Stock() == room
      && maps == m0[a := Above(m0[a], v)]
      && Seen() == seen[a := seen[a] - Low(m0[a].Keys, v)]
    }

    /** The loops of `cleanup_address_space`: unmap every page and give up its reference. */
    method CleanupPages(a: nat, ghost seen: Eager, ghost m0: Flat, ghost room: Room)
      requires Cleaning(a, 0, seen, m0, room)
      modifies `dirs, `maps, frames
      ensures exists v :: v >= VM_USER_CEILING && Cleaning(a, v, seen, m0, room)
    {
      hide Cleaning;
      var vpt := 0;
      while vpt <= VM_USER_CEILING
        invariant vpt % 256 == 0 && 0 <= vpt <= VM_USER_CEILING + 256
        invariant Cleaning(a, vpt, seen, m0, room)
      {
        var v := vpt;
        while v < vpt + 256
          invariant vpt <= v <= vpt + 256
          invariant Cleaning(a, v, seen, m0, room)
        {
          CleanStep(a, v, seen, m0, room);
          v := v + 1;
        }
        vpt := vpt + 256;
      }
    }

    method CleanStep(a: nat, v: nat, ghost seen: Eager, ghost m0: Flat, ghost room: Room)
      requires Cleaning(a, v, seen, m0, room) && v < USER_PAGES
      modifies `dirs, `maps, frames
      ensures Cleaning(a, v + 1, seen, m0, room)
    {
      hide PageframeTable.Valid, Shared, InRange, View, IsAlloc, IsPhys, Walk;
      AboveStep(m0[a], v);
      var entry := ExtractPage(a, v);
      if entry.Some? {
        var pte := entry.value;
        KindBits(pte.flags);
        KindAt(maps, user, frames.pf, lost, a, v);
        RemoveStep(seen, m0[a].Keys, a, v);
        if pte.flags & MEM_PHYS == MEM_PHYS {
          DropDevice(a, v);
        } else {
          DropPage(a, v, pte.pfn);
        }
      } else {
        LowStep(m0[a].Keys, v);
      }
    }

    /** Unmap a device page, which has no reference to give up. */
    method DropDevice(a: nat, v: nat)
      requires FramesOk() && a in maps && v in maps[a] && !IsAlloc(maps[a][v].flags)
      modifies `dirs, `maps
      ensures FramesOk()
      ensures maps == SetPte(old(maps), a, v, None) && Seen() == SetCell(old(Seen()), a, v, None)
    {
      hide PageframeTable.Valid, Shared, InRange, View, Walk, IsAlloc;
      frames.LiveInUse();
      InRangeAt(maps, a, v);
      InRangeSet(maps, a, v, None);
      Dropped(maps, user, frames.pf, lost, lost, a, v);
      ViewSet(maps, a, v, None, frames.ram);
      RemovePage(a, v);
    }

    /** Unmap a page without giving up a reference; if it was private, one is lost. */
    method DropEntry(a: nat, v: nat)
      requires FramesOk() && a in maps && v in maps[a]
      modifies `dirs, `maps, `lost
      ensures FramesOk() && lost == if IsAlloc(old(maps)[a][v].flags) then LoseOne(old(lost), old(maps)[a][v].pfn) else old(lost)
      ensures maps == SetPte(old(maps), a, v, None) && Seen() == SetCell(old(Seen()), a, v, None)
    {
      hide PageframeTable.Valid, Shared, InRange, View, Walk, IsAlloc;
      frames.LiveInUse();
      InRangeAt(maps, a, v);
      InRangeSet(maps, a, v, None);
      ghost var lost0 := lost;
      if IsAlloc(maps[a][v].flags) {
        AllocAt(maps, user, frames.pf, lost, a, v);
        lost := LoseOne(lost, maps[a][v].pfn);
      }
      Dropped(maps, user, frames.pf, lost0, lost, a, v);
      ViewSet(maps, a, v, None, frames.ram);
      RemovePage(a, v);
    }

    /**
      `fork_address_space`. It succeeds exactly when there is a block for the page directory and
      then a frame for each of the parent's page tables. On success the child sees exactly the
      parent's memory and nobody else sees a change; on failure nobody sees any change.
     */
    method Fork(p: nat, c: nat) returns (sc: int)
      requires Inv() && p in maps && c !in maps
      modifies `dirs, `maps, `segs, frames
      ensures Inv() && sc in {0, -1}
      ensures sc == 0 <==> CanFork(old(maps)[p].Keys, old(frames.Stock()))
      ensures frames.Stock() == ForkRoom(old(maps)[p].Keys, old(frames.Stock()))
      ensures sc == 0 ==> maps == old(maps)[p := ParentAll(old(maps)[p])][c := ChildAll(old(maps)[p])]
      ensures sc != 0 ==> MarkedInPart(old(maps), p, maps)
      ensures Domains(maps) == if sc == 0 then Domains(old(maps))[c := old(maps)[p].Keys] else Domains(old(maps))
      ensures Seen() == if sc == 0 then old(Seen())[c := old(Seen())[p]] else old(Seen())
      ensures segs == if sc == 0 then old(segs)[c := old(segs)[p]] else old(segs)
    {
      hide Sorted, View, Agreement, Forking, Stuck, FramesOk, Domains, Spend, TableCount, NewDir, TakeBlock, CanTake, Low, Below,
        ParentAll, ChildAll, MarkedInPart, Refs, Shared, InRange;
      ghost var seen, m0, segs0 := Seen(), maps, segs;
      SeenDomains(maps, frames.ram, p);
      DomainAt(maps, p);
      Complete(seen, Domains(m0), segs0, p);
      NoneMarked(m0, p);
      var dir := NewDirectory();
      if dir.None? {
        return -1;
      }
      ghost var room := frames.Stock();
      StartFork(p, c, dir.value, seen, m0);
      var ok := ForkPages(p, c, seen, m0, room);
      if ok {
        ForkDone(p, c, seen, m0, segs0);
        return 0;
      }
      AbandonFork(p, c, seen, m0);
      segs := segs - {c};
      assert segs == segs0;
      return -1;
    }

    /** A new address space with the parent's segments and no pages. */
    method StartFork(p: nat, c: nat, d: PageDir, ghost seen: Eager, ghost m0: Flat)
      requires FramesOk() && p in maps && c !in maps && p in segs && Sorted(segs[p]) && NewDir(d)
      requires seen == Seen() && m0 == maps
      modifies `dirs, `maps, `segs
      ensures Forking(p, c, 0, seen, m0) && segs == old(segs)[c := old(segs)[p]]
    {
      hide FramesOk, View, NewDir, Sorted;
      SeenDomains(maps, frames.ram, p);
      LowZero(m0[p].Keys, seen[p]);
      SpacesStart(m0[p]);
      assert m0 == m0[p := m0[p]];
      CopySegments(p, c);
      AddSpace(c, d);
    }

    /** The copy of the segment table at the start of `fork_address_space`. */
    method CopySegments(p: nat, c: nat)
      requires p in segs && Sorted(segs[p])
      modifies `segs
      ensures segs == old(segs)[c := old(segs)[p]]
    {
      hide Sorted;
      var from := new SegmentTable.Load(segs[p]);
      var to := new SegmentTable();
      to.CopyFrom(from);
      segs := segs[c := to.table[..to.cnt + 1]];
    }

    /** A directory just made, in a block of its own. */
    ghost predicate NewDir(d: PageDir)
      reads `dirs, `user, frames`live
    {
      && d.at in frames.live && frames.live[d.at] == 4 && d.at !in user && Unclaimed(dirs, d.at)
      && d.tables == map[] && PmapOk(d.l1, d.tables, map[], root)
    }

    method AddSpace(c: nat, d: PageDir)
      requires FramesOk() && c !in maps && NewDir(d)
      modifies `dirs, `maps
      ensures FramesOk() && maps == old(maps)[c := map[]]
      ensures Seen() == old(Seen())[c := map[]] && Domains(maps) == Domains(old(maps))[c := {}]
    {
      hide PageframeTable.Valid, Shared, InRange, View, TablesOk, Unclaimed, PmapOk;
      EmptySpace(maps, user, frames.pf, lost, frames.ram, c);
      assert c !in dirs by { TablesKeys(dirs, maps, user, frames.live, root); }
      TablesAdded(dirs, maps, user, frames.live, root, c, d);
      dirs := dirs[c := d];
      maps := maps[c := map[]];
    }

    lemma ForkDone(p: nat, c: nat, seen: Eager, m0: Flat, segs0: map<nat, seq<Word>>)
      requires Forking(p, c, VM_USER_CEILING, seen, m0)
      requires m0.Keys == segs0.Keys && Agreement(Domains(m0), segs0) && forall a :: a in segs0 ==> Sorted(segs0[a])
      requires segs == segs0[c := segs0[p]]
      ensures Inv() && Seen() == seen[c := seen[p]] && Domains(maps) == Domains(m0)[c := m0[p].Keys]
      ensures maps == m0[p := ParentAll(m0[p])][c := ChildAll(m0[p])]
    {
      hide Sorted, FramesOk, View, Agreement, ParentSpace, ChildSpace, ParentAll, ChildAll;
      Complete(seen, Domains(m0), segs0, p);
      AgreementFork(Domains(m0), segs0, p, c);
      assert forall w :: w in m0[p] ==> w in Low(m0[p].Keys, VM_USER_CEILING);
      SpacesEnd(m0[p], VM_USER_CEILING);
      assert Domains(maps) == Domains(m0)[c := m0[p].Keys];
      assert maps.Keys == Domains(maps).Keys;
    }

    /** The failure path of `fork_address_space`. */
    method AbandonFork(p: nat, c: nat, ghost seen: Eager, ghost m0: Flat)
      requires exists v :: Stuck(p, c, v, seen, m0)
      requires c in segs && p in m0 && Low(m0[p].Keys, VM_USER_CEILING) == m0[p].Keys && c !in seen
      modifies `dirs, `maps, `segs, frames
      ensures FramesOk() && frames.Stock() == old(frames.Stock())
      ensures MarkedInPart(m0, p, maps) && Domains(maps) == Domains(m0) && maps.Keys == m0.Keys && Seen() == seen
      ensures segs == old(segs)[c := INITIAL]
    {
      hide Sorted, FramesOk, View, Agreement, Stuck;
      ghost var v :| Stuck(p, c, v, seen, m0);
      StuckBelow(p, c, v, seen, m0);
      Cleanup(c);
      Forget(c);
      Cleaned(seen, c, v, p);
      InPart(m0, p, c, v);
    }

    lemma StuckBelow(p: nat, c: nat, v: nat, seen: Eager, m0: Flat)
      requires Stuck(p, c, v, seen, m0) && Low(m0[p].Keys, VM_USER_CEILING) == m0[p].Keys
      ensures FramesOk() && c in maps && p != c && (forall w :: w in maps[c] ==> w < VM_USER_CEILING)
      ensures maps == m0[p := ParentSpace(m0[p], v + 1)][c := ChildSpace(m0[p], v)]
      ensures Seen() == seen[c := Below(seen[p], v)] && p in m0 && c !in m0 && p in seen
    {
      hide FramesOk, View;
      SpacesNext(m0[p], v);
      forall w | w in maps[c] ensures w < VM_USER_CEILING {
        assert w in Low(m0[p].Keys, VM_USER_CEILING);
      }
    }

    method Forget(c: nat)
      requires FramesOk() && c in maps && maps[c] == map[]
      modifies `dirs, `maps
      ensures FramesOk() && maps == old(maps) - {c}
      ensures Seen() == old(Seen()) - {c} && Domains(maps) == Domains(old(maps)) - {c}
    {
      hide PageframeTable.Valid, Shared, InRange, View, TablesOk;
      NoSpace(maps, user, frames.pf, lost, frames.ram, c);
      TablesGone(dirs, maps, user, frames.live, root, c);
      dirs := dirs - {c};
      maps := maps - {c};
    }

    /** `cleanup_address_space`: the process sees no private memory any more, and nobody else a change. */
    method Cleanup(a: nat)
      requires FramesOk() && a in maps && forall v :: v in maps[a] ==> v < VM_USER_CEILING
      modifies `dirs, `maps, `segs, frames
      ensures FramesOk() && a in maps && maps[a] == map[] && frames.Stock() == old(frames.Stock())
      ensures maps == old(maps)[a := map[]] && Seen() == old(Seen())[a := map[]]
      ensures Domains(maps) == Domains(old(maps))[a := {}]
      ensures segs == old(segs)[a := INITIAL]
    {
      hide FramesOk, View;
      ghost var seen, m0: Flat, room := Seen(), maps, frames.Stock();
      SeenDomains(maps, frames.ram, a);
      LowZero(m0[a].Keys, seen[a]);
      AboveZero(m0[a]);
      assert seen == seen[a := seen[a]] && m0 == m0[a := m0[a]];
      CleanupPages(a, seen, m0, room);
      ghost var v :| v >= VM_USER_CEILING && Cleaning(a, v, seen, m0, room);
      assert Above(m0[a], v) == map[] && seen[a] - Low(m0[a].Keys, v) == map[];
      ghost var none: Space := map[];
      assert maps == m0[a := none] && none.Keys == {};
      assert Domains(m0[a := none]) == Domains(m0)[a := {}];
      ResetSegments(a);
    }

    /** The reset of the segment table at the end of `cleanup_address_space`. */
    method ResetSegments(a: nat)
      modifies `segs
      ensures segs == old(segs)[a := INITIAL]
    {
      var t := new SegmentTable();
      t.Reset();
      segs := segs[a := t.table[..t.cnt + 1]];
    }

    /** `pmap_create`: a block for the page directory, which maps no user page. */
    method NewDirectory() returns (d: Option<PageDir>)
      requires FramesOk()
      modifies frames
      ensures FramesOk() && Seen() == old(Seen())
      ensures d.Some? <==> CanTake(old(frames.Stock()), 4)
      ensures frames.Stock() == if d.Some? then TakeBlock(old(frames.Stock()), 4) else old(frames.Stock())
      ensures d.Some? ==> NewDir(d.value)
    {
      hide PageframeTable.Valid, Shared, InRange, View, TablesOk, Unclaimed, PmapOk;
      ghost var pf0, ram0 := frames.pf, frames.ram;
      var f := frames.AllocPageDir();
      Unaffected(maps, user, pf0, lost, frames.pf, ram0, frames.ram);
      TablesGrown(dirs, maps, user, old(frames.live), root, frames.live);
      if f.None? {
        return None;
      }
      var t := new Pmap(f.value, root);
      return Some(t.State());
    }

    // -------------------------------------------------------------------
    // Allocation.

    /** `k` pages from `lo` on have been mapped to zeroed frames not in `user0`. */
    ghost predicate Growing(a: nat, lo: nat, k: nat, seen: Eager, m0: Flat, user0: set<nat>, flags: bv32)
      reads `dirs, `maps, `user, `lost, frames
    {
      && FramesOk() && a in seen && user0 <= user && Grew(m0, user0, a, lo, k, flags, maps)
      && Seen() == AddPages(seen, a, lo, k, Cell(ZERO_PAGE, Visible(flags)))
    }

    /** The page loop of `sys_virtualalloc`; it stops exactly where memory runs out. */
    method MapRange(a: nat, lo: nat, n: nat, flags: bv32, ghost seen: Eager, ghost m0: Flat, ghost user0: set<nat>) returns (k: nat)
      requires a in m0 && Growing(a, lo, 0, seen, m0, user0, flags)
      requires 0 < lo && lo + n <= USER_PAGES && IsAlloc(flags)
      requires forall v :: lo <= v < lo + n ==> v !in m0[a]
      modifies `dirs, `maps, `user, frames
      ensures Growing(a, lo, k, seen, m0, user0, flags)
      ensures Afforded(m0[a].Keys, lo, n, k, 1, old(frames.Stock()), frames.Stock())
    {
      hide Growing, IsAlloc, Visible, Spend, RangeNeed;
      k := 0;
      ghost var room, s := frames.Stock(), m0[a].Keys;
      NoNeed(s, lo, 1, room);
      while k < n
        invariant 0 <= k <= n && Growing(a, lo, k, seen, m0, user0, flags)
        invariant RangeNeed(s, lo, k, 1) <= Left(room) && frames.Stock() == Spend(room, RangeNeed(s, lo, k, 1))
      {
        var ok := MapStep(a, lo, k, flags, seen, m0, user0, room);
        if !ok {
          RangeNeedGrows(s, lo, k + 1, n, 1);
          SpendAll(room, RangeNeed(s, lo, k + 1, 1), RangeNeed(s, lo, n, 1));
          return;
        }
        k := k + 1;
      }
    }

    method MapStep(a: nat, lo: nat, k: nat, flags: bv32, ghost seen: Eager, ghost m0: Flat, ghost user0: set<nat>, ghost room: Room)
      returns (ok: bool)
      requires a in m0 && Growing(a, lo, k, seen, m0, user0, flags)
      requires 0 < lo && lo + k < USER_PAGES && IsAlloc(flags) && lo + k !in m0[a]
      requires RangeNeed(m0[a].Keys, lo, k, 1) <= Left(room) && frames.Stock() == Spend(room, RangeNeed(m0[a].Keys, lo, k, 1))
      modifies `dirs, `maps, `user, frames
      ensures Growing(a, lo, if ok then k + 1 else k, seen, m0, user0, flags)
      ensures ok <==> RangeNeed(m0[a].Keys, lo, k + 1, 1) <= Left(room)
      ensures frames.Stock() == Spend(room, RangeNeed(m0[a].Keys, lo, k + 1, 1))
    {
      hide View, FramesOk, IsAlloc, Visible, SetCell, SetPte, Spend, RangeNeed, TableNeed, Run, Grew;
      ghost var m: Flat, u := maps, user;
      GrewKeys(m0, user0, a, lo, k, flags, maps);
      NextPage(m0[a].Keys, lo, k, 1, room);
      ok := MapFresh(a, lo + k, flags);
      if ok {
        ghost var f :| f !in u && maps == SetPte(m, a, lo + k, Some(Pte(f, flags)));
        GrewMore(m0, user0, a, lo, k, flags, m, f);
      }
    }

    /** The page loop of `sys_virtualallocphys`. */
    method MapDeviceRange(a: nat, lo: nat, n: nat, ppage: nat, flags: bv32) returns (k: nat)
      requires FramesOk() && a in maps && 0 < lo && lo + n <= USER_PAGES && IsPhys(flags)
      requires forall v :: lo <= v < lo + n ==> v !in maps[a]
      modifies `dirs, `maps, frames
      ensures FramesOk() && Seen() == old(Seen())
      ensures Afforded(old(maps)[a].Keys, lo, n, k, 0, old(frames.Stock()), frames.Stock())
      ensures maps == old(maps)[a := old(maps)[a] + DevicePages(lo, k, ppage, flags)]
    {
      hide View, FramesOk, IsPhys, DevicePages, SetPte, Domains, Spend, RangeNeed, TableNeed, Run;
      k := 0;
      ghost var room, s := frames.Stock(), maps[a].Keys;
      NoNeed(s, lo, 0, room);
      NoDevices(maps, a, lo, ppage, flags);
      while k < n
        invariant 0 <= k <= n && FramesOk() && Seen() == old(Seen())
        invariant maps == old(maps)[a := old(maps)[a] + DevicePages(lo, k, ppage, flags)]
        invariant RangeNeed(s, lo, k, 0) <= Left(room) && frames.Stock() == Spend(room, RangeNeed(s, lo, k, 0))
      {
        DevicePut(old(maps), a, lo, k, ppage, flags);
        NextPage(s, lo, k, 0, room);
        var ok := MapDevice(a, lo + k, Add32(ppage, k), flags);
        if !ok {
          RangeNeedGrows(s, lo, k + 1, n, 0);
          SpendAll(room, RangeNeed(s, lo, k + 1, 0), RangeNeed(s, lo, n, 0));
          break;
        }
        k := k + 1;
      }
    }

    /** A call of `segment_create` on the segment table of `a`. */
    method CreateSegment(a: nat, page: nat, n: nat, ty: SegType, fixed: bool) returns (r: nat)
      requires SegsOk() && a in segs && page < SPACE && n < SPACE && ty in {ALLOC, PHYS}
      modifies `segs
      ensures a in segs && segs == old(segs)[a := segs[a]]
      ensures r == 0 ==> segs == old(segs)
      ensures r != 0 ==> n > 0
      ensures Hint(page, fixed) + n < SPACE ==>
                && (r != 0 <==> Available(old(segs)[a], page, n, fixed))
                && (r != 0 ==> Updated(old(segs)[a], segs[a], r, n, ty))
                && (r != 0 ==> forall v :: r <= v < r + n ==> TypeAt(old(segs)[a], v) == Some(FREE))
                && (r != 0 ==> r + n <= VM_USER_CEILING && SplitAt(old(segs)[a], r, n, ty, segs[a]))
                && (r != 0 ==> if fixed then r == page else FirstFit(old(segs)[a], Hint(page, fixed), n, r))
      ensures Hint(page, fixed) + n >= SPACE ==>
                && (r != 0 <==> Overflows(old(segs)[a], page, n, fixed))
                && (r != 0 ==> r == Hint(page, fixed) && !Sorted(segs[a]))
    {
      hide Sorted, Updated, Available, TypeAt, Overflows, FirstFit, SplitAt;
      var t := new SegmentTable.Load(segs[a]);
      r := t.Create(page, n, ty, fixed);
      segs := segs[a := t.table[..t.cnt + 1]];
    }

    /**
      `sys_virtualalloc`. Unless the end of the request passes 4 gigabytes, the segment table
      stays in order and agrees with the mapped pages, every page entered was unmapped before,
      and the process sees zeroed pages over the whole segment, or over exactly as much of it as
      there are frames for; nobody else sees a change. When the end does pass 4 gigabytes, a success
      maps no page and leaves the segment table out of order.
     */
    method VirtualAlloc(a: nat, addr: nat, len: nat, flags: bv32) returns (r: Granted)
      requires Inv() && a in maps && addr < 0x1_0000_0000 && len < 0x1_0000_0000
      modifies `dirs, `maps, `segs, `user, frames
      ensures Hint(addr / 4096, Fixed(flags)) + PagesFor(len) < SPACE ==>
                && Inv() && (r.Refused? <==> !Available(old(segs)[a], addr / 4096, PagesFor(len), Fixed(flags)))
                && (r.Refused? ==> segs == old(segs) && Seen() == old(Seen()) && maps == old(maps))
                && (r.Refused? ==> frames.Stock() == old(frames.Stock()))
                && (!r.Refused? ==> a in segs && segs == old(segs)[a := segs[a]])
                && (!r.Refused? ==> Updated(old(segs)[a], segs[a], r.base, PagesFor(len), ALLOC))
                && (!r.Refused? ==>
                      var k := Count(r, PagesFor(len));
                      && Afforded(old(maps)[a].Keys, r.base, PagesFor(len), k, 1, old(frames.Stock()), frames.Stock())
                      && Domains(maps) == Domains(old(maps))[a := old(maps)[a].Keys + Run(r.base, k)]
                      && Grew(old(maps), old(user), a, r.base, k, AllocFlags(flags), maps)
                      && Seen() == AddPages(old(Seen()), a, r.base, k, Cell(ZERO_PAGE, AllocFlags(flags))))
                && (r.Short? ==> r.pages < PagesFor(len))
                && (!r.Refused? ==> SplitAt(old(segs)[a], r.base, PagesFor(len), ALLOC, segs[a]))
                && (!r.Refused? ==> if Fixed(flags) then r.base == addr / 4096
                                    else FirstFit(old(segs)[a], Hint(addr / 4096, false), PagesFor(len), r.base))
      ensures Hint(addr / 4096, Fixed(flags)) + PagesFor(len) >= SPACE ==>
                && FramesOk() && Seen() == old(Seen()) && maps == old(maps) && frames.Stock() == old(frames.Stock())
                && (r.Refused? <==> !Overflows(old(segs)[a], addr / 4096, PagesFor(len), Fixed(flags)))
                && (r.Refused? ==> segs == old(segs))
                && (!r.Refused? ==> r == Mapped(Hint(addr / 4096, Fixed(flags))) && a in segs && !Sorted(segs[a]))
    {
      hide View, Updated, Available, Overflows, FirstFit, SplitAt, Agreement, FramesOk, Sorted, AllocFlags, Fixed, TypeAt, Afforded, Run, Grew;
      ghost var seen, segs0 := Seen(), segs;
      var page, n, fl := addr / 4096, PagesFor(len), AllocFlags(flags);
      CallerFlags(flags);
      SeenDomains(maps, frames.ram, a);
      var base := CreateSegment(a, page, n, ALLOC, Fixed(flags));
      if base == 0 {
        return Refused;
      }
      if base + n >= SPACE {
        return Mapped(base);
      }
      r := FillSegment(a, base, n, fl, seen, maps, segs0);
    }

    /** Map a zeroed page on every page of a segment just created. */
    method FillSegment(a: nat, base: nat, n: nat, fl: bv32, ghost seen: Eager, ghost m0: Flat,
                       ghost segs0: map<nat, seq<Word>>) returns (r: Granted)
      requires FramesOk() && a in maps && maps == m0 && Seen() == seen
      requires IsAlloc(fl) && Visible(fl) == fl && n > 0
      requires maps.Keys == segs0.Keys && Agreement(Domains(m0), segs0) && forall b :: b in segs0 ==> Sorted(segs0[b])
      requires segs.Keys == segs0.Keys && forall b :: b in segs && b != a ==> segs[b] == segs0[b]
      requires Updated(segs0[a], segs[a], base, n, ALLOC)
      requires forall v :: base <= v < base + n ==> TypeAt(segs0[a], v) == Some(FREE)
      modifies `dirs, `maps, `user, frames
      ensures Inv() && (r.Mapped? || r.Short?) && r.base == base && (r.Short? ==> r.pages < n)
      ensures Afforded(m0[a].Keys, base, n, Count(r, n), 1, old(frames.Stock()), frames.Stock())
      ensures Domains(maps) == Domains(m0)[a := m0[a].Keys + Run(base, Count(r, n))]
      ensures Grew(m0, old(user), a, base, Count(r, n), fl, maps)
      ensures Seen() == AddPages(seen, a, base, Count(r, n), Cell(ZERO_PAGE, fl))
    {
      hide View, Agreement, Sorted, Visible, IsAlloc, TypeAt, FramesOk, Growing, Updated, Afforded, Run, Domains, Grew;
      ghost var dom := Domains(m0);
      DomainAt(m0, a);
      FreeUnmapped(dom, segs0, a, base, n);
      StartGrowing(a, base, fl);
      var k := MapRange(a, base, n, fl, seen, m0, old(user));
      assert k <= n by { AffordedMost(dom[a], base, n, k, 1, old(frames.Stock()), frames.Stock()); }
      Filled(a, base, n, k, fl, seen, m0, old(user), segs0);
      r := if k < n then Short(base, k) else Mapped(base);
    }

    lemma StartGrowing(a: nat, lo: nat, flags: bv32)
      requires FramesOk() && a in maps
      ensures Growing(a, lo, 0, Seen(), maps, user, flags)
    {
      hide View, FramesOk;
      SeenDomains(maps, frames.ram, a);
      assert maps[a].Keys + Run(lo, 0) == maps[a].Keys;
    }

    lemma Filled(a: nat, base: nat, n: nat, k: nat, fl: bv32, seen: Eager, m0: Flat, user0: set<nat>, segs0: map<nat, seq<Word>>)
      requires Growing(a, base, k, seen, m0, user0, fl) && k <= n && Visible(fl) == fl
      requires m0.Keys == segs0.Keys && Agreement(Domains(m0), segs0) && forall b :: b in segs0 ==> Sorted(segs0[b])
      requires segs.Keys == segs0.Keys && forall b :: b in segs && b != a ==> segs[b] == segs0[b]
      requires Updated(segs0[a], segs[a], base, n, ALLOC)
      ensures Inv() && Seen() == AddPages(seen, a, base, k, Cell(ZERO_PAGE, fl)) && Grew(m0, user0, a, base, k, fl, maps)
      ensures Domains(maps) == Domains(m0)[a := m0[a].Keys + Run(base, k)]
    {
      hide View, FramesOk, Sorted, Agreement, TypeAt, Run, Visible, Grew, Domains;
      GrewKeys(m0, user0, a, base, k, fl, maps);
      DomainAt(m0, a);
      AgreementGrown(Domains(m0), segs0, segs, a, base, n, k, ALLOC);
    }

    /** `sys_virtualallocphys`: consecutive device pages, as far as there are frames for their tables; no private memory changes. */
    method VirtualAllocPhys(a: nat, addr: nat, len: nat, flags: bv32, paddr: nat) returns (r: Granted)
      requires Inv() && a in maps && addr < 0x1_0000_0000 && len < 0x1_0000_0000
      modifies `dirs, `maps, `segs, frames
      ensures Seen() == old(Seen())
      ensures Hint(addr / 4096, Fixed(flags)) + PagesFor(len) < SPACE ==>
                && Inv() && (r.Refused? <==> !Available(old(segs)[a], addr / 4096, PagesFor(len), Fixed(flags)))
                && (r.Refused? ==> segs == old(segs) && maps == old(maps))
                && (r.Refused? ==> frames.Stock() == old(frames.Stock()))
                && (!r.Refused? ==> a in segs && segs == old(segs)[a := segs[a]])
                && (!r.Refused? ==> Updated(old(segs)[a], segs[a], r.base, PagesFor(len), PHYS))
                && (!r.Refused? ==>
                      var k := Count(r, PagesFor(len));
                      && Afforded(old(maps)[a].Keys, r.base, PagesFor(len), k, 0, old(frames.Stock()), frames.Stock())
                      && Domains(maps) == Domains(old(maps))[a := old(maps)[a].Keys + Run(r.base, k)]
                      && maps == old(maps)[a := old(maps)[a] + DevicePages(r.base, k, paddr / 4096, PhysFlags(flags))])
                && (r.Short? ==> r.pages < PagesFor(len))
                && (!r.Refused? ==> SplitAt(old(segs)[a], r.base, PagesFor(len), PHYS, segs[a]))
                && (!r.Refused? ==> if Fixed(flags) then r.base == addr / 4096
                                    else FirstFit(old(segs)[a], Hint(addr / 4096, false), PagesFor(len), r.base))
      ensures Hint(addr / 4096, Fixed(flags)) + PagesFor(len) >= SPACE ==>
                && FramesOk() && Seen() == old(Seen()) && maps == old(maps) && frames.Stock() == old(frames.Stock())
                && (r.Refused? <==> !Overflows(old(segs)[a], addr / 4096, PagesFor(len), Fixed(flags)))
                && (r.Refused? ==> segs == old(segs))
                && (!r.Refused? ==> r == Mapped(Hint(addr / 4096, Fixed(flags))) && a in segs && !Sorted(segs[a]))
    {
      hide View, Updated, Available, Agreement, FramesOk, Sorted, Overflows, FirstFit, SplitAt, PhysFlags, IsPhys, Fixed, TypeAt, Afforded, Run, DevicePages;
      ghost var dom, segs0 := Domains(maps), segs;
      var page, n, fl := addr / 4096, PagesFor(len), PhysFlags(flags);
      CallerFlags(flags);
      var base := CreateSegment(a, page, n, PHYS, Fixed(flags));
      if base == 0 {
        return Refused;
      }
      if base + n >= SPACE {
        return Mapped(base);
      }
      r := FillDevice(a, base, n, paddr / 4096, fl, dom, segs0);
    }

    method FillDevice(a: nat, base: nat, n: nat, ppage: nat, fl: bv32, ghost dom: map<nat, set<nat>>,
                      ghost segs0: map<nat, seq<Word>>) returns (r: Granted)
      requires FramesOk() && a in maps && Domains(maps) == dom && IsPhys(fl) && n > 0
      requires maps.Keys == segs0.Keys && Agreement(dom, segs0) && forall b :: b in segs0 ==> Sorted(segs0[b])
      requires segs.Keys == segs0.Keys && forall b :: b in segs && b != a ==> segs[b] == segs0[b]
      requires Updated(segs0[a], segs[a], base, n, PHYS)
      requires forall v :: base <= v < base + n ==> TypeAt(segs0[a], v) == Some(FREE)
      modifies `dirs, `maps, frames
      ensures Inv() && Seen() == old(Seen()) && (r.Mapped? || r.Short?) && r.base == base && (r.Short? ==> r.pages < n)
      ensures Afforded(old(maps)[a].Keys, base, n, Count(r, n), 0, old(frames.Stock()), frames.Stock())
      ensures Domains(maps) == Domains(old(maps))[a := old(maps)[a].Keys + Run(base, Count(r, n))]
      ensures maps == old(maps)[a := old(maps)[a] + DevicePages(base, Count(r, n), ppage, fl)]
    {
      hide View, Updated, Agreement, FramesOk, Sorted, IsPhys, TypeAt, Afforded, Run, DevicePages, Domains;
      DomainAt(maps, a);
      FreeUnmapped(dom, segs0, a, base, n);
      var k := MapDeviceRange(a, base, n, ppage, fl);
      assert k <= n by { AffordedMost(dom[a], base, n, k, 0, old(frames.Stock()), frames.Stock()); }
      DeviceKeys(old(maps), a, base, k, ppage, fl);
      AgreementGrown(dom, segs0, segs, a, base, n, k, PHYS);
      UpdatedSorted(segs0[a], segs[a], base, n, PHYS);
      r := if k < n then Short(base, k) else Mapped(base);
    }

    /** The page loop of `sys_virtualfree`: the pages go, their references are not given up. */
    method VirtualFreePages(a: nat, lo: nat, n: nat)
      requires FramesOk() && a in maps && lo + n <= USER_PAGES
      modifies `dirs, `maps, `lost
      ensures FramesOk() && maps == old(maps)[a := old(maps)[a] - Run(lo, n)]
      ensures a in old(Seen()) && Seen() == old(Seen())[a := old(Seen())[a] - Run(lo, n)]
      ensures forall f :: f in user ==>
                LostAt(lost, f) + |Refs(maps, f)| == LostAt(old(lost), f) + |Refs(old(maps), f)|
    {
      hide View, FramesOk, Refs;
      SeenDomains(maps, frames.ram, a);
      ghost var seen, m0 := Seen(), maps;
      AllCounted();
      assert m0[a] - Run(lo, 0) == m0[a] && seen[a] - Run(lo, 0) == seen[a];
      assert m0 == m0[a := m0[a]] && seen == seen[a := seen[a]];
      var k := 0;
      while k < n
        invariant 0 <= k <= n && FramesOk() && a in maps
        invariant maps == m0[a := m0[a] - Run(lo, k)]
        invariant Seen() == seen[a := seen[a] - Run(lo, k)]
      {
        FreeStep(a, lo, k, seen, m0);
        k := k + 1;
      }
      AllCounted();
    }

    lemma AllCounted()
      requires FramesOk()
      ensures forall f :: f in user ==> f < |frames.pf| && frames.pf[f].refCnt == |Refs(maps, f)| + LostAt(lost, f)
    {
      hide Kinds, Exclusive, Refs, View, InRange;
    }

    /**
      `sys_virtualfree`: the pages go, and so does the order of the segment table, which stays a
      partition exactly if the address is null; unless `segment_free` strays from the table.
     */
    method VirtualFree(a: nat, lo: nat, n: nat) returns (strays: bool)
      requires FramesOk() && a in maps && lo + n <= USER_PAGES && a in segs && Sorted(segs[a])
      modifies `dirs, `maps, `segs, `lost
      ensures FramesOk() && (strays <==> !StaysInside(old(segs)[a], lo, n))
      ensures !strays ==> segs == old(segs)[a := GivenBack(old(segs)[a], lo, n)] && (Sorted(segs[a]) <==> lo == 0)
      ensures maps == old(maps)[a := old(maps)[a] - Run(lo, n)]
      ensures a in old(Seen()) && Seen() == old(Seen())[a := old(Seen())[a] - Run(lo, n)]
      ensures forall f :: f in user ==>
                LostAt(lost, f) + |Refs(maps, f)| == LostAt(old(lost), f) + |Refs(old(maps), f)|
    {
      hide View, FramesOk, Sorted, StaysInside, GivenBack, Refs;
      VirtualFreePages(a, lo, n);
      strays := FreeSegment(a, lo, n);
    }

    method FreeSegment(a: nat, lo: nat, n: nat) returns (strays: bool)
      requires a in segs && Sorted(segs[a]) && lo + n <= USER_PAGES
      modifies `segs
      ensures strays <==> !StaysInside(old(segs)[a], lo, n)
      ensures strays ==> segs == old(segs)
      ensures !strays ==> segs == old(segs)[a := GivenBack(old(segs)[a], lo, n)] && (Sorted(segs[a]) <==> lo == 0)
    {
      hide Sorted, StaysInside, GivenBack;
      var t := new SegmentTable.Load(segs[a]);
      strays := t.Free(lo, n);
      if !strays {
        segs := segs[a := t.table[..t.cnt + 1]];
      }
    }

    /**
      What both allocations do when memory runs out with `k` of `n` pages mapped. They look the pages up
      to remove them, and `pmap_extract` writes the flags of a page that it finds through a null pointer:
      the kernel halts there. With no page to find, the segment is given back.
     */
    method CleanUp(a: nat, base: nat, n: nat, k: nat) returns (halts: bool, strays: bool)
      requires FramesOk() && a in maps && a in segs && Sorted(segs[a]) && k < n && base + n <= USER_PAGES
      modifies `segs
      ensures FramesOk() && (halts <==> exists v :: base <= v < base + k && v in maps[a])
      ensures strays <==> !halts && !StaysInside(old(segs)[a], base, n)
      ensures halts || strays ==> segs == old(segs)
      ensures !halts && !strays ==> segs == old(segs)[a := GivenBack(old(segs)[a], base, n)] && (Sorted(segs[a]) <==> base == 0)
    {
      hide FramesOk, Sorted, StaysInside, GivenBack, Walk;
      halts, strays := false, false;
      OkWalks();
      var i := 0;
      while i < k
        invariant i <= k && segs == old(segs) && forall v :: base <= v < base + i ==> v !in maps[a]
      {
        var entry := ExtractPage(a, base + i);
        if entry.Some? {
          halts := true;
          return;
        }
        i := i + 1;
      }
      strays := FreeSegment(a, base, n);
    }

    method FreeStep(a: nat, lo: nat, k: nat, ghost seen: Eager, ghost m0: Flat)
      requires FramesOk() && a in maps && a in m0 && a in seen && seen[a].Keys <= m0[a].Keys && lo + k < USER_PAGES
      requires maps == m0[a := m0[a] - Run(lo, k)] && Seen() == seen[a := seen[a] - Run(lo, k)]
      modifies `dirs, `maps, `lost
      ensures FramesOk() && a in maps
      ensures maps == m0[a := m0[a] - Run(lo, k + 1)] && Seen() == seen[a := seen[a] - Run(lo, k + 1)]
    {
      hide View, FramesOk, Walk, Run;
      OneLess(m0[a], lo, k);
      OneLess(seen[a], lo, k);
      OkWalks();
      var entry := ExtractPage(a, lo + k);
      if entry.Some? {
        DropEntry(a, lo + k);
      }
    }

    // -------------------------------------------------------------------
    // User programs and process life.

    /**
      A user-mode store of one byte: straight to memory if hardware allows it, else after a
      page fault. It is refused exactly when the process sees no writable page there; it loses
      the page exactly when it needs more frames than there are; and otherwise it changes that
      byte for that process alone.
     */
    method UserWrite(a: nat, v: nat, off: nat, b: Byte) returns (r: Store)
      requires FramesOk() && a in maps && off < 4096 && v < USER_PAGES
      requires v in maps[a] ==> !IsPhys(maps[a][v].flags)
      modifies `dirs, `maps, `user, frames
      ensures FramesOk() && a in old(Seen())
      ensures r == Fault <==> !(v in old(Seen())[a] && Writable(old(Seen())[a][v].flags))
      ensures r == Lost <==> old(FaultNeed(a, v)) > Left(old(frames.Stock()))
      ensures frames.Stock() == Spend(old(frames.Stock()), old(FaultNeed(a, v)))
      ensures Seen() == Stores(old(Seen()), a, v, off, b, r)
      ensures Domains(maps) == if r == Lost then Domains(old(maps))[a := old(maps)[a].Keys - {v}] else Domains(old(maps))
      ensures r == Lost ==> maps == SetPte(old(maps), a, v, None)
      ensures r == Fault ==> maps == old(maps)
      ensures r == Stored ==> if old(CopyOnWrite(a, v)) then Resolved(old(maps), lost, old(user), a, v, maps) else maps == old(maps)
    {
      hide PageframeTable.Valid, Shared, InRange, View, IsAlloc, IsPhys, HwWritable, Visible, Writable, Walk, Spend, TableNeed;
      SeenDomains(maps, frames.ram, a);
      WritableCell(a, v);
      SpendNone(frames.Stock());
      var entry := ExtractPage(a, v);
      var writable := entry.Some? && Writable(entry.value.flags);
      if entry.None? || !HwWritable(entry.value.flags) {
        var sc := PageFault(a, v, true);
        if sc != 0 {
          DomainsSet(old(maps), a, v, None);
          return if writable then Lost else Fault;
        }
        ResolvedSame(old(maps), lost, old(user), a, v, maps);
        DomainsSame(old(maps), maps, a);
      }
      CellSeen(maps, a, v, frames.ram);
      Poke(a, v, off, b);
      return Stored;
    }

    /** A store that hardware lets through. */
    method Poke(a: nat, v: nat, off: nat, b: Byte)
      requires FramesOk() && a in maps && v in maps[a] && off < 4096 && v < USER_PAGES
      requires IsAlloc(maps[a][v].flags) && HwWritable(maps[a][v].flags)
      modifies frames
      ensures FramesOk() && a in old(Seen()) && v in old(Seen())[a] && frames.Stock() == old(frames.Stock())
      ensures Seen() == Stores(old(Seen()), a, v, off, b, Stored)
    {
      hide Partition, Shared, InRange, View, IsAlloc, HwWritable, Visible, Walk;
      AllocAt(maps, user, frames.pf, lost, a, v);
      CellSeen(maps, a, v, frames.ram);
      var entry := ExtractPage(a, v);
      var f := entry.value.pfn;
      frames.LiveInUse();
      var page := frames.ram[f][off := b];
      Written(maps, user, frames.pf, lost, frames.ram, a, v, page);
      frames.WritePage(f, page);
    }

    /** Whether a page can be written shows in the process's view of it. */
    lemma WritableCell(a: nat, v: nat)
      requires FramesOk() && a in maps
      requires v in maps[a] ==> !IsPhys(maps[a][v].flags)
      ensures a in Seen()
      ensures v in Seen()[a] <==> v in maps[a]
      ensures v in maps[a] ==> IsAlloc(maps[a][v].flags) && Writable(Seen()[a][v].flags) == Writable(maps[a][v].flags)
      ensures v in maps[a] && HwWritable(maps[a][v].flags) ==> Writable(maps[a][v].flags)
    {
      hide PageframeTable.Valid, Shared, InRange, View, IsAlloc, IsPhys, HwWritable, Visible, Writable, Walk;
      SeenDomains(maps, frames.ram, a);
      if v in maps[a] {
        KindAt(maps, user, frames.pf, lost, a, v);
        CellSeen(maps, a, v, frames.ram);
        VisibleWritable(maps[a][v].flags);
        KindBits(maps[a][v].flags);
      } else {
        SeenOnlyMapped(maps, frames.ram, a, v);
      }
    }

    /** A process created at boot: empty page directory, all of user space FREE. */
    method Boot(a: nat) returns (ok: bool)
      requires Inv() && a !in maps
      modifies `dirs, `maps, `segs, frames
      ensures Inv() && Seen() == if ok then old(Seen())[a := map[]] else old(Seen())
      ensures maps == if ok then old(maps)[a := map[]] else old(maps)
      ensures ok <==> CanTake(old(frames.Stock()), 4)
      ensures frames.Stock() == if ok then TakeBlock(old(frames.Stock()), 4) else old(frames.Stock())
      ensures Domains(maps) == if ok then Domains(old(maps))[a := {}] else Domains(old(maps))
      ensures segs == if ok then old(segs)[a := INITIAL] else old(segs)
    {
      hide View, Agreement, FramesOk, Sorted, NewDir;
      InitialSorted();
      var d := NewDirectory();
      ok := d.Some?;
      if ok {
        AgreementEmptied(Domains(maps), segs, a);
        ResetSegments(a);
        AddSpace(a, d.value);
      }
    }

    /** The memory part of `sys_exit`. */
    method Exit(a: nat)
      requires Inv() && a in maps
      modifies `dirs, `maps, `segs, frames
      ensures Inv() && maps == old(maps)[a := map[]] && Seen() == old(Seen())[a := map[]]
      ensures frames.Stock() == old(frames.Stock())
      ensures Domains(maps) == Domains(old(maps))[a := {}] && segs == old(segs)[a := INITIAL]
    {
      hide View, Agreement, FramesOk, Sorted;
      InitialSorted();
      SeenDomains(maps, frames.ram, a);
      Complete(Seen(), Domains(maps), segs, a);
      AgreementEmptied(Domains(maps), segs, a);
      ghost var dom := Domains(maps);
      assert forall v :: v in maps[a] ==> v in Low(dom[a], VM_USER_CEILING);
      Cleanup(a);
      assert maps.Keys == Domains(maps).Keys == dom.Keys;
    }

    /** `free_address_space` of an address space that has been cleaned up. */
    method Reap(a: nat)
      requires Inv() && a in maps && maps[a] == map[]
      modifies `dirs, `maps, `segs
      ensures Inv() && Seen() == old(Seen()) - {a} && maps == old(maps) - {a}
      ensures Domains(maps) == Domains(old(maps)) - {a} && segs == old(segs) - {a}
    {
      hide View, Sorted, FramesOk;
      Forget(a);
      segs := segs - {a};
    }
  }

  /** The pages below `v` have their tables, out of `room`. */
  ghost predicate Paid(s: set<nat>, v: nat, room: Room, stock: Room) {
    TableCount(Low(s, v)) <= Left(room) && stock == Spend(room, TableCount(Low(s, v)))
  }

  /** There is not a table for all the pages below `v`. */
  ghost predicate Broke(s: set<nat>, v: nat, room: Room, stock: Room) {
    TableCount(Low(s, v)) > Left(room) && stock == Spend(room, TableCount(Low(s, v)))
  }

  lemma NextTable(s: set<nat>, v: nat, room: Room)
    requires v in s
    ensures TableCount(Low(s, v + 1)) == TableCount(Low(s, v)) + TableNeed(Low(s, v), v)
    ensures Spend(room, TableCount(Low(s, v + 1))) == Spend(Spend(room, TableCount(Low(s, v))), TableNeed(Low(s, v), v))
  {
    hide TableCount, Spend;
    LowStep(s, v);
    TableCountAdd(Low(s, v), v);
    SpendMore(room, TableCount(Low(s, v)), TableNeed(Low(s, v), v));
  }

  lemma PaidNothing(s: set<nat>, room: Room)
    ensures Paid(s, 0, room, room)
  {
    assert Low(s, 0) == {};
    assert Megabytes({}) == {};
  }

  lemma CountGrows(s: set<nat>, t: set<nat>)
    requires s <= t
    ensures TableCount(s) <= TableCount(t)
  {
    hide Dir;
    forall d | d in Megabytes(s) ensures d in Megabytes(t) {
      var w :| w in s && Dir(w) == d;
      assert w in t;
    }
    Subset(Megabytes(s), Megabytes(t));
  }

  lemma {:induction false} Subset(s: set<nat>, t: set<nat>)
    requires s <= t
    ensures |s| <= |t|
  {
    if s != {} {
      var x :| x in s;
      Subset(s - {x}, t - {x});
    }
  }

  lemma BrokeAll(s: set<nat>, v: nat, top: nat, room: Room, stock: Room)
    requires Broke(s, v, room, stock) && v <= top
    ensures TableCount(Low(s, top)) > Left(room) && stock == Spend(room, TableCount(Low(s, top)))
  {
    hide TableCount, Spend;
    CountGrows(Low(s, v), Low(s, top));
    SpendAll(room, TableCount(Low(s, v)), TableCount(Low(s, top)));
  }

  lemma PaidAll(s: set<nat>, v: nat, room: Room, stock: Room)
    requires Paid(s, v, room, stock)
    ensures TableCount(Low(s, v)) <= Left(room) && stock == Spend(room, TableCount(Low(s, v)))
  {
  }

  /** A fork of a process with pages `s` can be paid for: a block for the directory, then a frame for each table. */
  ghost predicate CanFork(s: set<nat>, room: Room) {
    CanTake(room, 4) && TableCount(s) <= Left(TakeBlock(room, 4))
  }

  ghost function ForkRoom(s: set<nat>, room: Room): Room {
    if CanTake(room, 4) then Spend(TakeBlock(room, 4), TableCount(s)) else room
  }

  lemma DomainAt(m: Flat, a: nat)
    requires a in m
    ensures a in Domains(m) && Domains(m)[a] == m[a].Keys && Domains(m).Keys == m.Keys
  {
  }

  lemma Cleaned(seen: Eager, c: nat, v: nat, p: nat)
    requires c !in seen && p in seen
    ensures seen[c := Below(seen[p], v)][c := map[]] - {c} == seen
  {
  }

  lemma NoneMarked(m: Flat, p: nat)
    requires p in m
    ensures MarkedInPart(m, p, m)
  {
    SpacesStart(m[p]);
    assert m == m[p := ParentSpace(m[p], 0)];
  }

  lemma InPart(m: Flat, p: nat, c: nat, v: nat)
    requires p in m && c !in m
    ensures var m' := m[p := ParentSpace(m[p], v + 1)][c := ChildSpace(m[p], v)][c := map[]] - {c};
            MarkedInPart(m, p, m') && Domains(m') == Domains(m) && m'.Keys == m.Keys
  {
    hide ParentPte, ChildPte;
    var m': Flat := m[p := ParentSpace(m[p], v + 1)];
    SpacesNext(m[p], v + 1);
    assert m[p := ParentSpace(m[p], v + 1)][c := ChildSpace(m[p], v)][c := map[]] - {c} == m';
    assert Domains(m') == Domains(m);
  }

  lemma SpaceGap(s: Space, vpt: nat)
    requires vpt % 256 == 0 && forall w :: w in s ==> Dir(w) != Dir(vpt)
    ensures ParentSpace(s, vpt + 256) == ParentSpace(s, vpt) && ChildSpace(s, vpt + 256) == ChildSpace(s, vpt)
  {
    hide ParentPte, ChildPte;
    forall w | w in s ensures w < vpt + 256 <==> w < vpt {
      SameDir(vpt, w);
    }
  }

  ghost function Above(s: Space, v: nat): Space {
    map w | w in s && w >= v :: s[w]
  }

  lemma AboveZero(s: Space)
    ensures Above(s, 0) == s
  {
  }

  lemma AboveStep(s: Space, v: nat)
    ensures Above(s, v + 1) == Above(s, v) - {v} && (v !in s ==> Above(s, v + 1) == Above(s, v))
    ensures v in Above(s, v) <==> v in s
  {
  }

  lemma TablesKeys(dirs: map<nat, PageDir>, maps: Flat, user: set<nat>, live: map<nat, nat>, root: Directory)
    requires TablesOk(dirs, maps, user, live, root)
    ensures dirs.Keys == maps.Keys
  {
    hide PmapOk;
  }

  lemma AgreementEmptied(dom: map<nat, set<nat>>, segs: map<nat, seq<Word>>, a: nat)
    requires Agreement(dom, segs)
    ensures Agreement(dom[a := {}], segs[a := INITIAL])
  {
    hide NotFree;
  }

  lemma VisibleWritable(flags: bv32)
    ensures Writable(Visible(flags)) == Writable(flags)
  {
  }

  lemma SeenOnlyMapped(m: Flat, ram: seq<Page>, a: nat, v: nat)
    requires a in m && v !in m[a]
    ensures v !in View(m, ram)[a]
  {
  }

  lemma DomainsSame(m: Flat, m': Flat, a: nat)
    requires m'.Keys == m.Keys && a in m && m'[a].Keys == m[a].Keys
    requires forall b :: b in m && b != a ==> m'[b] == m[b]
    ensures Domains(m') == Domains(m)
  {
  }

  lemma ResolvedSame(m: Flat, lost: Leaks, user: set<nat>, a: nat, v: nat, m': Flat)
    requires Resolved(m, lost, user, a, v, m')
    ensures m'.Keys == m.Keys && m'[a].Keys == m[a].Keys && forall b :: b in m && b != a ==> m'[b] == m[b]
  {
    assert m[a].Keys + {v} == m[a].Keys;
  }

  /** Outcome of a store: done, refused, or the page lost for want of memory. */
  datatype Store = Stored | Fault | Lost

  /** A store in the reference memory. */
  ghost function Stores(e: Eager, a: nat, v: nat, off: nat, b: Byte, r: Store): Eager
    requires a in e && off < 4096
  {
    if r == Lost then SetCell(e, a, v, None)
    else if r == Stored && v in e[a] then SetCell(e, a, v, Some(e[a][v].(page := e[a][v].page[off := b])))
    else e
  }

  /** `k` device pages from `lo` on. */
  ghost function DevicePages(lo: nat, k: nat, ppage: nat, flags: bv32): Space {
    map v | v in Run(lo, k) :: Pte(Add32(ppage, v - lo), flags)
  }

  lemma NoDevices(m: Flat, a: nat, lo: nat, ppage: nat, flags: bv32)
    requires a in m
    ensures m[a := m[a] + DevicePages(lo, 0, ppage, flags)] == m
  {
    assert m[a] + DevicePages(lo, 0, ppage, flags) == m[a];
  }

  lemma DevicePut(m: Flat, a: nat, lo: nat, k: nat, ppage: nat, flags: bv32)
    requires a in m && lo + k !in m[a]
    ensures var m': Flat := m[a := m[a] + DevicePages(lo, k, ppage, flags)];
            && lo + k !in m'[a] && m'[a].Keys == m[a].Keys + Run(lo, k) && Domains(m') == Domains(m)[a := m[a].Keys + Run(lo, k)]
            && SetPte(m', a, lo + k, Some(Pte(Add32(ppage, k), flags))) == m[a := m[a] + DevicePages(lo, k + 1, ppage, flags)]
  {
    var s := m[a] + DevicePages(lo, k, ppage, flags);
    assert s[lo + k := Pte(Add32(ppage, k), flags)] == m[a] + DevicePages(lo, k + 1, ppage, flags);
    DeviceKeys(m, a, lo, k, ppage, flags);
  }

  lemma DeviceKeys(m: Flat, a: nat, lo: nat, k: nat, ppage: nat, flags: bv32)
    requires a in m
    ensures var m': Flat := m[a := m[a] + DevicePages(lo, k, ppage, flags)];
            m'[a].Keys == m[a].Keys + Run(lo, k) && Domains(m') == Domains(m)[a := m[a].Keys + Run(lo, k)] && m'.Keys == m.Keys
  {
    assert DevicePages(lo, k, ppage, flags).Keys == Run(lo, k);
    assert (m[a] + DevicePages(lo, k, ppage, flags)).Keys == m[a].Keys + Run(lo, k);
  }

  /** Outcome of a request for memory: refused, mapped at a page, or mapped in part when memory ran out. */
  datatype Granted = Refused | Mapped(base: nat) | Short(base: nat, pages: nat)

  /** The pages of `n` asked for that were mapped. */
  ghost function Count(r: Granted, n: nat): nat {
    match r
    case Refused => 0
    case Mapped(_) => n
    case Short(_, pages) => pages
  }

  /** `k` of `n` pages were mapped because `room` had frames for no more, and all that could be had was taken. */
  ghost predicate Afforded(s: set<nat>, lo: nat, n: nat, k: nat, each: nat, room: Room, stock: Room) {
    && k <= n && RangeNeed(s, lo, k, each) <= Left(room)
    && (k < n ==> RangeNeed(s, lo, k + 1, each) > Left(room))
    && stock == Spend(room, RangeNeed(s, lo, n, each))
  }

  lemma AffordedMost(s: set<nat>, lo: nat, n: nat, k: nat, each: nat, room: Room, stock: Room)
    requires Afforded(s, lo, n, k, each, room, stock)
    ensures k <= n && (k == n <==> RangeNeed(s, lo, n, each) <= Left(room))
    ensures stock == Spend(room, RangeNeed(s, lo, n, each))
  {
    hide RangeNeed, Spend;
    if k < n {
      RangeNeedGrows(s, lo, k + 1, n, each);
    }
  }

  lemma NoNeed(s: set<nat>, lo: nat, each: nat, room: Room)
    ensures RangeNeed(s, lo, 0, each) == 0 && Spend(room, 0) == room
  {
  }

  lemma SpendNone(room: Room)
    ensures Spend(room, 0) == room
  {
  }

  lemma NextPage(s: set<nat>, lo: nat, k: nat, each: nat, room: Room)
    ensures RangeNeed(s, lo, k + 1, each) == RangeNeed(s, lo, k, each) + (each + TableNeed(s + Run(lo, k), lo + k))
    ensures Spend(room, RangeNeed(s, lo, k + 1, each)) ==
            Spend(Spend(room, RangeNeed(s, lo, k, each)), each + TableNeed(s + Run(lo, k), lo + k))
  {
    hide Spend, TableNeed, Run;
    SpendMore(room, RangeNeed(s, lo, k, each), each + TableNeed(s + Run(lo, k), lo + k));
  }

  const VM_SYSTEM_MASK: bv32 := 0xFC00_0000
  const MAP_FIXED: bv32 := 8

  function AllocFlags(flags: bv32): bv32 { (flags & !VM_SYSTEM_MASK) | MEM_ALLOC }

  function PhysFlags(flags: bv32): bv32 { (flags & !VM_SYSTEM_MASK) | MEM_PHYS }

  predicate Fixed(flags: bv32) { flags & MAP_FIXED != 0 }

  /** The bits of the mask are the kernel's, and all others the caller's. */
  lemma MaskedFlags(flags: bv32)
    ensures AllocFlags(flags) & VM_SYSTEM_MASK == MEM_ALLOC && AllocFlags(flags) & !VM_SYSTEM_MASK == flags & !VM_SYSTEM_MASK
    ensures PhysFlags(flags) & VM_SYSTEM_MASK == MEM_PHYS && PhysFlags(flags) & !VM_SYSTEM_MASK == flags & !VM_SYSTEM_MASK
  {
    hide AllocFlags, PhysFlags;
    KernelBits(flags);
    CallerBits(flags);
  }

  lemma KernelBits(flags: bv32)
    ensures AllocFlags(flags) & VM_SYSTEM_MASK == MEM_ALLOC
    ensures PhysFlags(flags) & VM_SYSTEM_MASK == MEM_PHYS
  {
  }

  lemma CallerBits(flags: bv32)
    ensures AllocFlags(flags) & !VM_SYSTEM_MASK == flags & !VM_SYSTEM_MASK
    ensures PhysFlags(flags) & !VM_SYSTEM_MASK == flags & !VM_SYSTEM_MASK
  {
  }

  /** A caller cannot set the memory kind or the copy-on-write mark. */
  lemma CallerFlags(flags: bv32)
    ensures IsAlloc(AllocFlags(flags)) && IsPhys(PhysFlags(flags))
    ensures Visible(AllocFlags(flags)) == AllocFlags(flags)
  {
  }

  /** `ALIGN_UP(len, PAGE_SIZE)` in 32 bits, in pages. */
  function PagesFor(len: nat): (n: nat)
    ensures len + 4095 < 0x1_0000_0000 ==> len <= 4096 * n < len + 4096
    ensures len + 4095 >= 0x1_0000_0000 ==> n == 0
  {
    if len + 4095 >= 0x1_0000_0000 then 0 else (len + 4095) / 4096
  }

  /** Growing the mapped pages into a segment that was just created. */
  lemma AgreementGrown(dom: map<nat, set<nat>>, segs: map<nat, seq<Word>>, segs': map<nat, seq<Word>>,
                       a: nat, r: nat, n: nat, k: nat, ty: SegType)
    requires Agreement(dom, segs) && a in dom && a in segs && k <= n && ty in {ALLOC, PHYS}
    requires segs'.Keys == segs.Keys && forall b :: b in segs && b != a ==> segs'[b] == segs[b]
    requires Updated(segs[a], segs'[a], r, n, ty)
    ensures Agreement(dom[a := dom[a] + Run(r, k)], segs')
  {
    hide Sorted, TypeAt;
    forall b, v | b in dom && v in dom[a := dom[a] + Run(r, k)][b] ensures b in segs' && NotFree(segs'[b], v) {
      if b == a {
        assert TypeAt(segs'[a], v) == if r <= v < r + n then Some(ty) else TypeAt(segs[a], v);
      }
    }
  }

  lemma UpdatedSorted(t: seq<Word>, t': seq<Word>, r: nat, n: nat, ty: SegType)
    requires Updated(t, t', r, n, ty)
    ensures Sorted(t')
  {
  }

  lemma FreeIsFree(t: seq<Word>, v: nat)
    requires TypeAt(t, v) == Some(FREE)
    ensures !NotFree(t, v)
  {
    hide TypeAt;
  }

  /** No page of a FREE stretch is mapped, and the stretch lies inside user space. */
  lemma FreeUnmapped(dom: map<nat, set<nat>>, segs: map<nat, seq<Word>>, a: nat, r: nat, n: nat)
    requires Agreement(dom, segs) && a in dom && a in segs && Sorted(segs[a])
    requires n > 0 && forall v :: r <= v < r + n ==> TypeAt(segs[a], v) == Some(FREE)
    ensures forall v :: r <= v < r + n ==> v !in dom[a]
    ensures VM_USER_BASE <= r && r + n <= VM_USER_CEILING
  {
    hide Sorted, TypeAt;
    forall v | r <= v < r + n ensures v !in dom[a] {
      FreeIsFree(segs[a], v);
    }
    assert TypeAt(segs[a], r) == Some(FREE);
    assert TypeAt(segs[a], r + n - 1) == Some(FREE);
    Covered(segs[a], r);
    Covered(segs[a], r + n - 1);
  }

  lemma GrewKeys(m: Flat, user: set<nat>, a: nat, lo: nat, k: nat, flags: bv32, m': Flat)
    requires Grew(m, user, a, lo, k, flags, m')
    ensures a in m && a in m' && m'.Keys == m.Keys && m'[a].Keys == m[a].Keys + Run(lo, k)
    ensures Domains(m') == Domains(m)[a := m[a].Keys + Run(lo, k)]
    ensures lo + k in m'[a] ==> lo + k in m[a]
  {
  }

  lemma GrewMore(m: Flat, user: set<nat>, a: nat, lo: nat, k: nat, flags: bv32, m': Flat, f: nat)
    requires Grew(m, user, a, lo, k, flags, m') && lo + k !in m[a] && f !in user
    ensures Grew(m, user, a, lo, k + 1, flags, SetPte(m', a, lo + k, Some(Pte(f, flags))))
  {
    assert m[a].Keys + Run(lo, k) + {lo + k} == m[a].Keys + Run(lo, k + 1);
  }

  /** The reference memory with `k` pages `c` added from `lo` on. */
  ghost function AddPages(e: Eager, a: nat, lo: nat, k: nat, c: Cell): (r: Eager)
    requires a in e
    ensures r.Keys == e.Keys
    decreases k
  {
    if k == 0 then e else SetCell(AddPages(e, a, lo, k - 1, c), a, lo + k - 1, Some(c))
  }

  /** When the last user page has been copied, the child sees all that the parent sees. */
  lemma Complete(seen: Eager, dom: map<nat, set<nat>>, segs: map<nat, seq<Word>>, p: nat)
    requires p in seen && p in dom && seen[p].Keys <= dom[p]
    requires p in segs && Sorted(segs[p]) && Agreement(dom, segs)
    ensures Low(dom[p], VM_USER_CEILING) == dom[p]
    ensures Below(seen[p], VM_USER_CEILING) == seen[p]
  {
    forall v | v in dom[p] ensures v < VM_USER_CEILING {
      assert NotFree(segs[p], v);
      Covered(segs[p], v);
    }
  }

  lemma SeenDomains(m: Flat, ram: seq<Page>, a: nat)
    requires a in m
    ensures View(m, ram).Keys == m.Keys == Domains(m).Keys && View(m, ram)[a].Keys <= Domains(m)[a]
  {
  }

  lemma AgreementFork(dom: map<nat, set<nat>>, segs: map<nat, seq<Word>>, p: nat, c: nat)
    requires Agreement(dom, segs) && p in dom && p in segs && c !in dom
    ensures Agreement(dom[c := dom[p]], segs[c := segs[p]])
  {
    hide NotFree;
  }

  lemma EmptySpace(m: Flat, user: set<nat>, pf: seq<Pageframe>, lost: Leaks, ram: seq<Page>, c: nat)
    requires Shared(m, user, pf, lost) && InRange(m) && c !in m
    ensures Shared(m[c := map[]], user, pf, lost) && InRange(m[c := map[]])
    ensures View(m[c := map[]], ram) == View(m, ram)[c := map[]]
    ensures Domains(m[c := map[]]) == Domains(m)[c := {}]
  {
    hide Shared, View;
    var m': Flat := m[c := map[]];
    assert m'[c].Keys == {};
    EmptyShared(m, user, pf, lost, c);
    EmptyView(m, ram, c);
  }

  lemma EmptyShared(m: Flat, user: set<nat>, pf: seq<Pageframe>, lost: Leaks, c: nat)
    requires Shared(m, user, pf, lost) && c !in m
    ensures Shared(m[c := map[]], user, pf, lost)
  {
    var m': Flat := m[c := map[]];
    forall f ensures Refs(m', f) == Refs(m, f) {
    }
  }

  lemma EmptyView(m: Flat, ram: seq<Page>, c: nat)
    requires c !in m
    ensures View(m[c := map[]], ram) == View(m, ram)[c := map[]]
  {
  }

  lemma NoSpace(m: Flat, user: set<nat>, pf: seq<Pageframe>, lost: Leaks, ram: seq<Page>, c: nat)
    requires Shared(m, user, pf, lost) && InRange(m) && c in m && m[c] == map[]
    ensures Shared(m - {c}, user, pf, lost) && InRange(m - {c})
    ensures View(m - {c}, ram) == View(m, ram) - {c}
    ensures Domains(m - {c}) == Domains(m) - {c}
  {
    hide IsAlloc, IsPhys, HwWritable, Visible;
    var m': Flat := m - {c};
    forall f ensures Refs(m', f) == Refs(m, f) {
    }
  }

  /** A megabyte in which no page is mapped. */
  lemma Gap(s: map<nat, Cell>, dom: set<nat>, vpt: nat)
    requires s.Keys <= dom && vpt % 256 == 0
    requires forall w :: w in dom ==> Dir(w) != Dir(vpt)
    ensures Low(dom, vpt + 256) == Low(dom, vpt) && Below(s, vpt + 256) == Below(s, vpt)
  {
    forall w | w in dom ensures w < vpt + 256 <==> w < vpt {
      SameDir(vpt, w);
    }
  }

  lemma SameDir(vpt: nat, w: nat)
    requires vpt % 256 == 0
    ensures Dir(w) == Dir(vpt) <==> vpt <= w < vpt + 256
  {
  }

  lemma RemoveStep(seen: Eager, dom: set<nat>, a: nat, v: nat)
    requires a in seen && v in dom
    ensures
      var e: Eager := seen[a := seen[a] - Low(dom, v)];
      SetCell(e, a, v, None) == seen[a := seen[a] - Low(dom, v + 1)]
  {
    LowStep(dom, v);
    assert seen[a] - Low(dom, v) - {v} == seen[a] - Low(dom, v + 1);
  }

  ghost function Below(s: map<nat, Cell>, v: nat): map<nat, Cell> {
    map w | w in s && w < v :: s[w]
  }

  ghost function Low(s: set<nat>, v: nat): set<nat> {
    set w | w in s && w < v
  }

  lemma LowZero(s: set<nat>, t: map<nat, Cell>)
    ensures Low(s, 0) == {} && Below(t, 0) == map[]
    ensures s - Low(s, 0) == s && t - Low(s, 0) == t
  {
  }

  lemma LowStep(s: set<nat>, v: nat)
    ensures Low(s, v + 1) == if v in s then Low(s, v) + {v} else Low(s, v)
    ensures v !in Low(s, v)
  {
  }

  lemma BelowStep(seen: Eager, p: nat, c: nat, v: nat)
    requires p in seen && p != c
    ensures
      var e: Eager := seen[c := Below(seen[p], v)];
      && e[p] == seen[p]
      && SetCell(e, c, v, if v in e[p] then Some(e[p][v]) else None) == seen[c := Below(seen[p], v + 1)]
      && (v !in seen[p] ==> e == seen[c := Below(seen[p], v + 1)])
  {
    var s := seen[p];
    assert v in s ==> Below(s, v)[v := s[v]] == Below(s, v + 1);
    assert v !in s ==> Below(s, v) - {v} == Below(s, v + 1) && Below(s, v) == Below(s, v + 1);
  }

  /** Blocks may have been handed out; those in use stay as they were. */
  ghost predicate Allocated(live: map<nat, nat>, pf: seq<Pageframe>, ram: seq<Page>,
                            live': map<nat, nat>, pf': seq<Pageframe>, ram': seq<Page>)
  {
    Kept(live, pf, ram, live', pf', ram', live'.Keys - live.Keys)
  }

  /** Reference counts and contents of the frames in `user` are the same. */
  ghost predicate Same(user: set<nat>, pf: seq<Pageframe>, ram: seq<Page>, pf': seq<Pageframe>, ram': seq<Page>) {
    && |pf'| == |pf| && |ram'| == |ram|
    && forall f :: f in user ==> f < |pf| && f < |ram| && pf'[f].refCnt == pf[f].refCnt && ram'[f] == ram[f]
  }

  /** Mapping a frame that held no user page shows as one new cell. */
  lemma FreshMapped(m: Flat, user: set<nat>, pf: seq<Pageframe>, lost: Leaks, pf': seq<Pageframe>, ram: seq<Page>, ram': seq<Page>,
                    a: nat, v: nat, p: Pte)
    requires Shared(m, user, pf, lost) && InRange(m) && a in m && v !in m[a] && 0 < v < USER_PAGES
    requires IsAlloc(p.flags) && p.pfn !in user && p.pfn < |pf'| && p.pfn < |ram'|
    requires |pf'| == |pf| && |ram'| == |ram|
    requires forall f :: f in user ==> f < |pf| && f < |ram| && pf'[f].refCnt == pf[f].refCnt && ram'[f] == ram[f]
    requires pf'[p.pfn].refCnt == 1
    ensures Shared(SetPte(m, a, v, Some(p)), user + {p.pfn}, pf', lost) && InRange(SetPte(m, a, v, Some(p)))
    ensures View(SetPte(m, a, v, Some(p)), ram') ==
            SetCell(View(m, ram), a, v, Some(Cell(ram'[p.pfn], Visible(p.flags))))
  {
    hide Shared, InRange, View, IsAlloc, Visible;
    MappedFresh(m, user, pf, lost, pf', a, v, p);
    InRangeSet(m, a, v, Some(p));
    ViewSet(m, a, v, Some(p), ram');
    Unaffected(m, user, pf, lost, pf', ram, ram');
  }

  lemma AllocAt(m: Flat, user: set<nat>, pf: seq<Pageframe>, lost: Leaks, a: nat, v: nat)
    requires Shared(m, user, pf, lost) && a in m && v in m[a] && IsAlloc(m[a][v].flags)
    ensures m[a][v].pfn in user && m[a][v].pfn < |pf|
  {
    assert KindOk(m[a][v], user, pf);
  }

  lemma SetTwice(m: Flat, a: nat, v: nat, p: Pte)
    requires a in m
    ensures SetPte(SetPte(m, a, v, None), a, v, Some(p)) == SetPte(m, a, v, Some(p))
  {
    var m': Flat := SetPte(m, a, v, None);
    assert m'[a][v := p] == m[a][v := p];
  }

  lemma CellRestored(e: Eager, a: nat, v: nat)
    requires a in e && v in e[a]
    ensures SetCell(SetCell(e, a, v, None), a, v, Some(e[a][v])) == e
  {
    var e': Eager := SetCell(e, a, v, None);
    assert e'[a][v := e[a][v]] == e[a];
  }

  lemma KindAt(m: Flat, user: set<nat>, pf: seq<Pageframe>, lost: Leaks, a: nat, v: nat)
    requires Shared(m, user, pf, lost) && a in m && v in m[a]
    ensures KindOk(m[a][v], user, pf)
  {
  }

  lemma CellSeen(m: Flat, a: nat, v: nat, ram: seq<Page>)
    requires a in m && v in m[a]
    ensures View(m, ram).Keys == m.Keys
    ensures v in View(m, ram)[a] <==> IsAlloc(m[a][v].flags)
    ensures IsAlloc(m[a][v].flags) ==> View(m, ram)[a][v] == CellOf(m[a][v], ram)
  {
  }

  /** A mapping with the same page and flags but for the copy-on-write mark looks the same. */
  lemma SameCell(m: Flat, a: nat, v: nat, p: Pte, ram: seq<Page>)
    requires a in m && v in m[a] && IsAlloc(m[a][v].flags) && IsAlloc(p.flags)
    requires CellOf(p, ram) == CellOf(m[a][v], ram)
    ensures View(SetPte(m, a, v, Some(p)), ram) == View(m, ram)
  {
    hide IsAlloc, View, CellOf;
    CellSeen(m, a, v, ram);
    ViewSet(m, a, v, Some(p), ram);
    assert View(m, ram)[a][v := CellOf(m[a][v], ram)] == View(m, ram)[a];
  }

  lemma MarkedSame(m: Flat, user: set<nat>, pf: seq<Pageframe>, lost: Leaks, ram: seq<Page>, a: nat, v: nat)
    requires Shared(m, user, pf, lost) && a in m && v in m[a] && IsAlloc(m[a][v].flags)
    ensures
      var p := m[a][v].(flags := SetCow(m[a][v].flags));
      && Shared(SetPte(m, a, v, Some(p)), user, pf, lost)
      && View(SetPte(m, a, v, Some(p)), ram) == View(m, ram)
  {
    hide IsAlloc, HwWritable, SetCow, ClearCow, Visible, Writable, View, Shared;
    CowBits(m[a][v].flags);
    Marked(m, user, pf, lost, a, v);
    SameCell(m, a, v, m[a][v].(flags := SetCow(m[a][v].flags)), ram);
  }

  /** A page that is not private memory has no cell. */
  lemma HiddenCell(m: Flat, a: nat, v: nat, ram: seq<Page>)
    requires a in m && v !in m[a]
    ensures SetCell(View(m, ram), a, v, None) == View(m, ram)
  {
    assert View(m, ram)[a] - {v} == View(m, ram)[a];
  }

  ghost function LoseOne(lost: Leaks, f: nat): Leaks {
    lost[f := LostAt(lost, f) + 1]
  }

  lemma OneLess<V>(s: map<nat, V>, lo: nat, k: nat)
    ensures s - Run(lo, k + 1) == s - Run(lo, k) - {lo + k}
    ensures lo + k !in s - Run(lo, k) ==> s - Run(lo, k + 1) == s - Run(lo, k)
  {
  }

  /** A private page goes, and its frame gives up a reference. */
  lemma GivenUp(m: Flat, user: set<nat>, pf: seq<Pageframe>, lost: Leaks, pf': seq<Pageframe>, a: nat, v: nat)
    requires Shared(m, user, pf, lost) && a in m && v in m[a] && IsAlloc(m[a][v].flags) && m[a][v].pfn < |pf|
    requires CountsAt(pf, pf', m[a][v].pfn, pf[m[a][v].pfn].refCnt - 1)
    ensures Shared(SetPte(m, a, v, None), user, pf', lost)
  {
    hide Kinds, Exclusive, IsAlloc, Refs;
    Unmapped(m, user, pf, lost, pf', lost, a, v);
  }

  lemma Dropped(m: Flat, user: set<nat>, pf: seq<Pageframe>, lost: Leaks, lost': Leaks, a: nat, v: nat)
    requires Shared(m, user, pf, lost) && a in m && v in m[a]
    requires lost' == if IsAlloc(m[a][v].flags) then LoseOne(lost, m[a][v].pfn) else lost
    ensures Shared(SetPte(m, a, v, None), user, pf, lost')
  {
    hide Kinds, Exclusive, IsAlloc, Refs;
    assert IsAlloc(m[a][v].flags) ==> m[a][v].pfn in user by { if IsAlloc(m[a][v].flags) { AllocAt(m, user, pf, lost, a, v); } }
    Unmapped(m, user, pf, lost, pf, lost', a, v);
  }

  /** Changes to frames that hold no user page neither show nor disturb the sharing. */
  lemma Unaffected(m: Flat, user: set<nat>, pf: seq<Pageframe>, lost: Leaks, pf': seq<Pageframe>, ram: seq<Page>, ram': seq<Page>)
    requires Shared(m, user, pf, lost) && |pf'| == |pf| && |ram'| == |ram|
    requires forall f :: f in user ==> f < |pf| && f < |ram| && pf'[f].refCnt == pf[f].refCnt && ram'[f] == ram[f]
    ensures Shared(m, user, pf', lost) && View(m, ram') == View(m, ram)
  {
    ViewRam(m, user, pf, ram, ram');
    forall a, v | a in m && v in m[a] ensures KindOk(m[a][v], user, pf') {
      assert KindOk(m[a][v], user, pf);
    }
  }
}
