/**
  The two-level page table of the Raspberry Pi 4: a page directory of 4096 entries over
  page tables of 256 entries, each table living in a 4k frame together with the flags of
  its pages. Addresses are given by page number: virtual page `v` is entry `v % 256` of
  the table that directory entry `v / 256` points to.

  Ghost field `view` is the flat map from virtual pages to mappings that the two levels
  are shown to implement.
 */
module PageTables {
  import opened Core
  import opened Frames

  const PROT_READ: bv32 := 1
  const PROT_WRITE: bv32 := 2
  const MEM_MASK: bv32 := 0xF000_0000
  const MEM_ALLOC: bv32 := 0x2000_0000
  const MEM_PHYS: bv32 := 0x3000_0000
  const MAP_COW: bv32 := 0x0400_0000

  const L2_TYPE_S: bv32 := 0x02
  const L2_AP_RWKU: bv32 := 0x30
  const L2_AP_RKU: bv32 := 0x230
  const L2_AP_MASK: bv32 := 0x230
  const L2_AP_USER: bv32 := 0x20
  const L2_ADDR_MASK: bv32 := 0xFFFF_F000
  const L2_TYPE_MASK: bv32 := 0x03

  /** What a page is mapped to: a physical page and the software flags. */
  datatype Pte = Pte(pfn: nat, flags: bv32)

  /** A directory entry: invalid, the frame of a page table, or a kernel entry copied at creation. */
  datatype Pde = PdeInvalid | Coarse(pt: nat) | Kernel(word: bv32)

  /** A hardware table entry: invalid, or a small page with its type and access bits. */
  datatype Hw = HwInvalid | Small(pfn: nat, bits: bv32)

  /** The frame of a page table: hardware entries, page flags, and the frame's reference count. */
  datatype Table = Table(pte: seq<Hw>, vflags: seq<bv32>, refCnt: int)

  function Dir(v: nat): (d: nat)
    ensures v < 0x80000 ==> d < 2048
  {
    v / 256
  }

  function Idx(v: nat): (i: nat)
    ensures i < 256
  {
    v % 256
  }

  /** `pmap_calc_pa_bits`. */
  function CalcPaBits(flags: bv32): bv32 {
    if flags & PROT_WRITE != 0 && flags & MAP_COW == 0 then L2_TYPE_S | L2_AP_RWKU else L2_TYPE_S | L2_AP_RKU
  }

  /** The access bits of an entry let user mode write (both lower access bits set, the upper clear). */
  predicate UserWritable(bits: bv32) { bits & L2_AP_MASK == L2_AP_RWKU }

  /** They let user mode read: the upper of the two lower access bits is set. */
  predicate UserReadable(bits: bv32) { bits & L2_AP_USER != 0 }

  predicate HwWritable(flags: bv32) { flags & PROT_WRITE != 0 && flags & MAP_COW == 0 }

  /** A page is always readable in user mode, and writable exactly when its flags say writable and not copy-on-write. */
  lemma CalcPaBitsWritable(flags: bv32)
    ensures UserReadable(CalcPaBits(flags))
    ensures UserWritable(CalcPaBits(flags)) <==> HwWritable(flags)
    ensures CalcPaBits(flags) & L2_TYPE_MASK == L2_TYPE_S
  {
  }

  /** Packing an aligned address with the entry bits into one word loses neither. */
  lemma PackedEntry(pa: bv32, flags: bv32)
    requires pa & L2_ADDR_MASK == pa
    ensures (pa | CalcPaBits(flags)) & L2_ADDR_MASK == pa
    ensures (pa | CalcPaBits(flags)) & L2_TYPE_MASK == L2_TYPE_S
    ensures UserReadable(pa | CalcPaBits(flags)) && (UserWritable(pa | CalcPaBits(flags)) <==> HwWritable(flags))
  {
  }

  lemma SplitUnique(v: nat, w: nat)
    requires Dir(v) == Dir(w) && Idx(v) == Idx(w)
    ensures v == w
  {
  }

  // ---------------------------------------------------------------------
  // Counting the valid entries of a table.

  function CountValid(pte: seq<Hw>): nat {
    if pte == [] then 0 else CountValid(pte[1..]) + if pte[0].Small? then 1 else 0
  }

  lemma {:induction false} CountUpdate(pte: seq<Hw>, i: nat, e: Hw)
    requires i < |pte|
    ensures CountValid(pte[i := e]) ==
            CountValid(pte) - (if pte[i].Small? then 1 else 0) + (if e.Small? then 1 else 0)
  {
    if i == 0 {
      assert pte[i := e][1..] == pte[1..];
    } else {
      CountUpdate(pte[1..], i - 1, e);
      assert pte[i := e][1..] == pte[1..][i - 1 := e];
    }
  }

  lemma {:induction false} CountPositive(pte: seq<Hw>)
    ensures CountValid(pte) > 0 <==> exists i :: 0 <= i < |pte| && pte[i].Small?
  {
    if pte != [] {
      CountPositive(pte[1..]);
      if i :| 0 <= i < |pte| && pte[i].Small? {
        assert i > 0 ==> pte[1..][i - 1].Small?;
      }
      if i :| 0 <= i < |pte[1..]| && pte[1..][i].Small? {
        assert pte[i + 1].Small?;
      }
    }
  }

  lemma {:induction false} CountEmpty(n: nat)
    ensures CountValid(seq(n, _ => HwInvalid)) == 0
  {
    if n > 0 {
      CountEmpty(n - 1);
      assert seq(n, _ => HwInvalid)[1..] == seq(n - 1, _ => HwInvalid);
    }
  }

  // ---------------------------------------------------------------------
  // The two levels as a flat map.

  type Directory = seq<Pde>
  type Tables = map<nat, Table>

  const USER_PDES: nat := 2048
  const USER_PAGES: nat := 0x80000

  ghost predicate TableOk(t: Table) {
    && |t.pte| == 256 && |t.vflags| == 256
    && t.refCnt == CountValid(t.pte)
    && forall i :: 0 <= i < 256 && t.pte[i].Small? ==> t.pte[i].bits == CalcPaBits(t.vflags[i])
  }

  /** Every user entry is invalid or points to a well-formed table of its own. */
  ghost predicate DirOk(l1: Directory, tables: Tables) {
    && |l1| == 4096
    && (forall d :: 0 <= d < USER_PDES ==> l1[d].PdeInvalid? || (l1[d].Coarse? && l1[d].pt in tables))
    && (forall d, e :: 0 <= d < e < USER_PDES && l1[d].Coarse? && l1[e].Coarse? ==> l1[d].pt != l1[e].pt)
    && (forall pt :: pt in tables ==> TableOk(tables[pt]))
  }

  /** A table is kept only while its frame's reference count is positive. */
  ghost predicate AllUsed(l1: Directory, tables: Tables)
    requires DirOk(l1, tables)
  {
    forall d :: 0 <= d < USER_PDES && l1[d].Coarse? ==> tables[l1[d].pt].refCnt > 0
  }

  ghost function Lookup(l1: Directory, tables: Tables, v: nat): Option<Pte>
    requires DirOk(l1, tables)
  {
    if v < USER_PAGES && l1[Dir(v)].Coarse? && tables[l1[Dir(v)].pt].pte[Idx(v)].Small? then
      Some(Pte(tables[l1[Dir(v)].pt].pte[Idx(v)].pfn, tables[l1[Dir(v)].pt].vflags[Idx(v)]))
    else None
  }

  ghost predicate Implements(l1: Directory, tables: Tables, view: map<nat, Pte>)
    requires DirOk(l1, tables)
  {
    && (forall v :: v in view <==> Lookup(l1, tables, v).Some?)
    && (forall v :: v in view ==> Lookup(l1, tables, v) == Some(view[v]))
  }

  const EMPTY_TABLE: Table := Table(seq(256, _ => HwInvalid), seq(256, _ => 0), 0)

  /** Hanging an empty table on an invalid directory entry maps nothing. */
  lemma TableAdded(l1: Directory, tables: Tables, d: nat, pt: nat)
    requires DirOk(l1, tables) && d < USER_PDES && l1[d].PdeInvalid? && pt !in tables
    ensures DirOk(l1[d := Coarse(pt)], tables[pt := EMPTY_TABLE])
    ensures forall v :: Lookup(l1[d := Coarse(pt)], tables[pt := EMPTY_TABLE], v) == Lookup(l1, tables, v)
  {
    hide Dir, Idx;
    CountEmpty(256);
  }

  /** Writing one entry of a table changes one page of the flat map. */
  lemma EntryPut(l1: Directory, tables: Tables, v: nat, e: Hw, fl: bv32, t: Table)
    requires DirOk(l1, tables) && v < USER_PAGES && l1[Dir(v)].Coarse?
    requires e.Small? ==> e.bits == CalcPaBits(fl)
    requires
      var o := tables[l1[Dir(v)].pt];
      t == Table(o.pte[Idx(v) := e], o.vflags[Idx(v) := fl],
                 o.refCnt - (if o.pte[Idx(v)].Small? then 1 else 0) + (if e.Small? then 1 else 0))
    ensures DirOk(l1, tables[l1[Dir(v)].pt := t])
    ensures forall w :: Lookup(l1, tables[l1[Dir(v)].pt := t], w) ==
                        if w != v then Lookup(l1, tables, w) else if e.Small? then Some(Pte(e.pfn, fl)) else None
  {
    var o := tables[l1[Dir(v)].pt];
    CountUpdate(o.pte, Idx(v), e);
    assert TableOk(t);
    forall w: nat
      ensures Lookup(l1, tables[l1[Dir(v)].pt := t], w) ==
              if w != v then Lookup(l1, tables, w) else if e.Small? then Some(Pte(e.pfn, fl)) else None
    {
      if Dir(w) == Dir(v) && Idx(w) == Idx(v) {
        SplitUnique(v, w);
      }
    }
  }

  /** Invalidating a directory entry unmaps all pages of its table. */
  lemma TableDropped(l1: Directory, tables: Tables, d: nat)
    requires DirOk(l1, tables) && d < USER_PDES && l1[d].Coarse?
    ensures DirOk(l1[d := PdeInvalid], tables - {l1[d].pt})
    ensures forall v :: Lookup(l1[d := PdeInvalid], tables - {l1[d].pt}, v) ==
                        if Dir(v) == d then None else Lookup(l1, tables, v)
  {
    hide Dir, Idx;
  }

  /** A used table maps some page; a page that is mapped is in a used table. */
  lemma TableUsed(l1: Directory, tables: Tables, d: nat)
    requires DirOk(l1, tables) && AllUsed(l1, tables) && d < USER_PDES
    ensures l1[d].Coarse? <==> exists v :: Dir(v) == d && Lookup(l1, tables, v).Some?
  {
    if l1[d].Coarse? {
      CountPositive(tables[l1[d].pt].pte);
      var i :| 0 <= i < 256 && tables[l1[d].pt].pte[i].Small?;
      assert Dir(d * 256 + i) == d && Idx(d * 256 + i) == i;
      assert Lookup(l1, tables, d * 256 + i).Some?;
    }
  }

  /** A page directory and its page tables, as they lie in memory: `at` is the directory's own frame. */
  datatype PageDir = PageDir(at: nat, l1: Directory, tables: Tables)

  /** The two levels are in order and implement the flat map, under the kernel half of the root directory. */
  ghost predicate PmapOk(l1: Directory, tables: Tables, view: map<nat, Pte>, root: Directory) {
    && DirOk(l1, tables)
    && AllUsed(l1, tables)
    && Implements(l1, tables, view)
    && 0 !in view
    && |root| == 4096 && l1[USER_PDES..] == root[USER_PDES..]
  }

  /** The megabytes a set of pages is spread over, each of which takes one page table. */
  ghost function Megabytes(s: set<nat>): set<nat> {
    set w | w in s :: Dir(w)
  }

  ghost function TableCount(s: set<nat>): nat {
    |Megabytes(s)|
  }

  ghost predicate Covers(s: set<nat>, v: nat) {
    exists w :: w in s && Dir(w) == Dir(v)
  }

  lemma TableCountAdd(s: set<nat>, v: nat)
    ensures TableCount(s + {v}) == TableCount(s) + if Covers(s, v) then 0 else 1
  {
    hide Dir;
    if Covers(s, v) {
      var w :| w in s && Dir(w) == Dir(v);
      assert Dir(w) in Megabytes(s);
      assert Megabytes(s + {v}) == Megabytes(s);
    } else {
      forall w | w in s ensures Dir(w) != Dir(v) {
      }
      assert Dir(v) !in Megabytes(s);
      assert v in s + {v};
      assert Megabytes(s + {v}) == Megabytes(s) + {Dir(v)};
    }
  }

  class Pmap {
    var l1: Directory
    var tables: Tables
    const at: nat
    ghost var view: map<nat, Pte>
    ghost const root: Directory

    ghost predicate Valid()
      reads this
    {
      PmapOk(l1, tables, view, root)
    }

    /** The page directory of an address space, as it was left. */
    constructor Load(d: PageDir, ghost view: map<nat, Pte>, ghost root: Directory)
      requires PmapOk(d.l1, d.tables, view, root)
      ensures Valid() && l1 == d.l1 && tables == d.tables && at == d.at && this.view == view && this.root == root
    {
      l1, tables, at := d.l1, d.tables, d.at;
      this.view, this.root := view, root;
    }

    function State(): PageDir
      reads this
    {
      PageDir(at, l1, tables)
    }

    /** `pmap_create`: an empty user half under the kernel half of the root directory. */
    constructor (at: nat, rootPagedir: Directory)
      requires |rootPagedir| == 4096
      ensures Valid() && view == map[] && tables == map[] && root == rootPagedir && this.at == at
    {
      this.at := at;
      l1 := seq(4096, i requires 0 <= i < 4096 => if i < USER_PDES then PdeInvalid else rootPagedir[i]);
      tables := map[];
      view := map[];
      root := rootPagedir;
    }

    /** `pmap_extract`: look a page up in the flat map. */
    method Extract(v: nat) returns (r: Option<Pte>)
      requires Valid() && v < USER_PAGES
      ensures r == if v in view then Some(view[v]) else None
    {
      hide DirOk, AllUsed;
      Opened(v);
      if l1[Dir(v)].PdeInvalid? {
        return None;
      }
      var t := tables[l1[Dir(v)].pt];
      if t.pte[Idx(v)].HwInvalid? {
        return None;
      }
      return Some(Pte(t.pte[Idx(v)].pfn, t.vflags[Idx(v)]));
    }

    /** What walking the two levels for page `v` relies on. */
    lemma Opened(v: nat)
      requires Valid() && v < USER_PAGES
      ensures |l1| == 4096 && (l1[Dir(v)].PdeInvalid? || l1[Dir(v)].Coarse?)
      ensures l1[Dir(v)].Coarse? ==>
                && l1[Dir(v)].pt in tables
                && |tables[l1[Dir(v)].pt].pte| == 256 && |tables[l1[Dir(v)].pt].vflags| == 256
                && tables[l1[Dir(v)].pt].refCnt > 0
      ensures v in view <==> l1[Dir(v)].Coarse? && tables[l1[Dir(v)].pt].pte[Idx(v)].Small?
      ensures v in view ==>
                view[v] == Pte(tables[l1[Dir(v)].pt].pte[Idx(v)].pfn, tables[l1[Dir(v)].pt].vflags[Idx(v)])
    {
      assert Lookup(l1, tables, v).Some? <==> v in view;
    }

    /** `pmap_is_pagetable_present`: some page of the megabyte is mapped. */
    method IsPagetablePresent(v: nat) returns (r: bool)
      requires Valid() && v < USER_PAGES
      ensures r <==> Covers(view.Keys, v)
    {
      TableUsed(l1, tables, Dir(v));
      assert forall w :: Lookup(l1, tables, w).Some? <==> w in view;
      return !l1[Dir(v)].PdeInvalid?;
    }

    /** `pmap_is_page_present`. */
    method IsPagePresent(v: nat) returns (r: bool)
      requires Valid() && v < USER_PAGES
      ensures r <==> v in view
    {
      hide DirOk, AllUsed, Implements;
      Opened(v);
      if l1[Dir(v)].PdeInvalid? {
        return false;
      }
      return !tables[l1[Dir(v)].pt].pte[Idx(v)].HwInvalid?;
    }

    /** Hardware lets user mode read a mapped page, and write it exactly when its flags do. */
    lemma WritableInHardware(v: nat)
      requires Valid() && v in view
      ensures v < USER_PAGES && l1[Dir(v)].Coarse? && tables[l1[Dir(v)].pt].pte[Idx(v)].Small?
      ensures UserReadable(tables[l1[Dir(v)].pt].pte[Idx(v)].bits)
      ensures UserWritable(tables[l1[Dir(v)].pt].pte[Idx(v)].bits) <==> HwWritable(view[v].flags)
    {
      assert Lookup(l1, tables, v) == Some(view[v]);
      CalcPaBitsWritable(view[v].flags);
    }

    /** The frames needed for page `v` to have a table: none if some page in its megabyte is mapped. */
    ghost function TableNeed(v: nat): nat
      reads this
    {
      if Covers(view.Keys, v) then 0 else 1
    }

    /** The first half of `pmap_enter`: make sure there is a table for the page. */
    method OpenTable(v: nat, frames: PageframeTable) returns (ok: bool)
      requires Valid() && frames.Valid() && v < USER_PAGES && v != 0
      requires tables.Keys <= frames.live.Keys
      modifies this`l1, this`tables, frames
      ensures frames.Valid() && tables.Keys <= frames.live.Keys
      ensures ok <==> old(TableNeed(v)) <= Left(old(frames.Stock()))
      ensures frames.Stock() == Spend(old(frames.Stock()), old(TableNeed(v)))
      ensures !ok ==> l1 == old(l1) && tables == old(tables)
      ensures AllocatedFor(old(tables), tables, old(frames.live), old(frames.pf), old(frames.ram),
                           frames.live, frames.pf, frames.ram)
      ensures ok ==> TableOpen(v)
    {
      hide Implements, Partition;
      frames.LiveInUse();
      Opened(v);
      MegabyteUsed(v);
      if l1[Dir(v)].PdeInvalid? {
        var f := frames.AllocPage();
        if f.None? {
          return false;
        }
        TableAdded(l1, tables, Dir(v), f.value);
        SameView(l1, tables, l1[Dir(v) := Coarse(f.value)], tables[f.value := EMPTY_TABLE], view);
        l1 := l1[Dir(v) := Coarse(f.value)];
        tables := tables[f.value := EMPTY_TABLE];
      }
      return true;
    }

    lemma MegabyteUsed(v: nat)
      requires Valid() && v < USER_PAGES
      ensures Covers(view.Keys, v) <==> l1[Dir(v)].Coarse?
    {
      TableUsed(l1, tables, Dir(v));
      assert forall w :: Lookup(l1, tables, w).Some? <==> w in view;
    }

    /**
      `pmap_enter`: map a page that is not mapped. Fails without change for page 0, and when a
      page table is needed and no frame is left. On a page that is already mapped it drops the
      whole table and with it every mapping of that megabyte.
     */
    method Enter(v: nat, pfn: nat, flags: bv32, frames: PageframeTable) returns (err: Option<Errno>)
      requires Valid() && frames.Valid() && v < USER_PAGES
      requires tables.Keys <= frames.live.Keys
      modifies this, frames
      ensures Valid() && frames.Valid() && tables.Keys <= frames.live.Keys
      ensures AllocatedFor(old(tables), tables, old(frames.live), old(frames.pf), old(frames.ram),
                           frames.live, frames.pf, frames.ram)
      ensures frames.Stock() == if v == 0 then old(frames.Stock()) else Spend(old(frames.Stock()), old(TableNeed(v)))
      ensures err == if v == 0 then Some(EFAULT)
                    else if old(TableNeed(v)) > Left(old(frames.Stock())) then Some(ENOMEM)
                    else if v in old(view) then Some(EINVAL)
                    else None
      ensures view == if err == None then old(view)[v := Pte(pfn, flags)]
                      else if err == Some(EINVAL) then map w | w in old(view) && Dir(w) != Dir(v) :: old(view)[w]
                      else old(view)
    {
      hide DirOk, AllUsed, Implements, Partition;
      frames.LiveInUse();
      if v == 0 {
        return Some(EFAULT);
      }
      var ok := OpenTable(v, frames);
      if !ok {
        return Some(ENOMEM);
      }
      err := WriteEntry(v, Small(pfn, CalcPaBits(flags)), flags);
    }

    /** The second half of `pmap_enter`. */
    method WriteEntry(v: nat, e: Hw, flags: bv32) returns (err: Option<Errno>)
      requires TableOpen(v) && e.Small? && e.bits == CalcPaBits(flags) && v != 0
      modifies this
      ensures Valid() && tables.Keys == old(tables).Keys - if err == None then {} else {old(l1)[Dir(v)].pt}
      ensures err == if v in old(view) then Some(EINVAL) else None
      ensures view == if err == None then old(view)[v := Pte(e.pfn, flags)]
                      else map w | w in old(view) && Dir(w) != Dir(v) :: old(view)[w]
    {
      hide Implements;
      ghost var l10, t0 := l1, tables;
      Entries(l1, tables, view);
      var pt := l1[Dir(v)].pt;
      var t := tables[pt];
      if t.pte[Idx(v)].Small? {
        LoseTable(v);
        return Some(EINVAL);
      }
      tables := tables[pt := Table(t.pte[Idx(v) := e], t.vflags[Idx(v) := flags], t.refCnt + 1)];
      view := view[v := Pte(e.pfn, flags)];
      EntryPut(l10, t0, v, e, flags, tables[pt]);
      PutView(l10, t0, tables, v, Some(Pte(e.pfn, flags)), old(view));
      return None;
    }

    /** A second entry for a page costs the whole megabyte its table. */
    method LoseTable(v: nat)
      requires TableOpen(v)
      modifies this
      ensures Valid() && tables == old(tables) - {old(l1)[Dir(v)].pt}
      ensures view == map w | w in old(view) && Dir(w) != Dir(v) :: old(view)[w]
    {
      hide Implements;
      ghost var l10, t0 := l1, tables;
      Entries(l1, tables, view);
      tables := tables - {l1[Dir(v)].pt};
      l1 := l1[Dir(v) := PdeInvalid];
      view := map w | w in view && Dir(w) != Dir(v) :: view[w];
      TableDropped(l10, t0, Dir(v));
      DropView(l10, t0, l1, tables, Dir(v), old(view));
    }

    /** `pmap_remove`: unmap a mapped page; the last page of a table takes the table with it. */
    method Remove(v: nat) returns (err: Option<Errno>)
      requires Valid() && v < USER_PAGES
      modifies this
      ensures Valid() && tables.Keys <= old(tables).Keys
      ensures err == if v == 0 then Some(EFAULT) else if v in old(view) then None else Some(EINVAL)
      ensures view == if err == None then old(view) - {v} else old(view)
      ensures err == None ==>
                && old(l1)[Dir(v)].Coarse?
                && tables.Keys == old(tables).Keys - if Covers(view.Keys, v) then {} else {old(l1)[Dir(v)].pt}
      ensures err != None ==> tables == old(tables)
    {
      hide Implements;
      if v == 0 {
        return Some(EFAULT);
      }
      Opened(v);
      if l1[Dir(v)].PdeInvalid? {
        return Some(EINVAL);
      }
      var pt := l1[Dir(v)].pt;
      if tables[pt].pte[Idx(v)].HwInvalid? {
        return Some(EINVAL);
      }
      ClearEntry(v);
      if tables[pt].refCnt == 0 {
        DropEmpty(v);
      }
      MegabyteUsed(v);
      return None;
    }

    method ClearEntry(v: nat)
      requires Valid() && v in view && v < USER_PAGES
      modifies this`tables, this`view
      ensures TableOpen(v)
      ensures tables.Keys == old(tables).Keys && view == old(view) - {v}
    {
      hide Implements;
      Opened(v);
      ghost var t0 := tables;
      var pt := l1[Dir(v)].pt;
      var t := tables[pt];
      tables := tables[pt := Table(t.pte[Idx(v) := HwInvalid], t.vflags[Idx(v) := 0], t.refCnt - 1)];
      view := view - {v};
      EntryPut(l1, t0, v, HwInvalid, 0, tables[pt]);
      PutView(l1, t0, tables, v, None, old(view));
    }

    method DropEmpty(v: nat)
      requires TableOpen(v) && tables[l1[Dir(v)].pt].refCnt == 0
      modifies this`l1, this`tables
      ensures Valid() && tables == old(tables) - {old(l1)[Dir(v)].pt} && l1[Dir(v)].PdeInvalid?
    {
      hide Implements;
      ghost var l10, t0 := l1, tables;
      var pt := l1[Dir(v)].pt;
      Vacant(l1, tables, view, Dir(v));
      tables := tables - {pt};
      l1 := l1[Dir(v) := PdeInvalid];
      TableDropped(l10, t0, Dir(v));
      DropView(l10, t0, l1, tables, Dir(v), view);
    }

    /** `pmap_protect`: change the flags of a mapped page; page 0 is ignored, an unmapped page is a panic. */
    method Protect(v: nat, flags: bv32) returns (err: Option<Errno>)
      requires Valid() && v < USER_PAGES && (v == 0 || v in view)
      modifies this
      ensures Valid() && tables.Keys == old(tables).Keys
      ensures err == None
      ensures view == if v == 0 then old(view) else old(view)[v := old(view)[v].(flags := flags)]
    {
      hide Implements;
      if v == 0 {
        return None;
      }
      Opened(v);
      ghost var t0 := tables;
      var pt := l1[Dir(v)].pt;
      var t := tables[pt];
      var e := Small(t.pte[Idx(v)].pfn, CalcPaBits(flags));
      tables := tables[pt := Table(t.pte[Idx(v) := e], t.vflags[Idx(v) := flags], t.refCnt)];
      view := view[v := view[v].(flags := flags)];
      EntryPut(l1, t0, v, e, flags, tables[pt]);
      PutView(l1, t0, tables, v, Some(Pte(e.pfn, flags)), old(view));
      return None;
    }

    /** Valid but for the table of page `v`, which exists and may still be empty. */
    ghost predicate TableOpen(v: nat)
      reads this
    {
      && v < USER_PAGES
      && DirOk(l1, tables) && Implements(l1, tables, view)
      && 0 !in view
      && |root| == 4096 && l1[USER_PDES..] == root[USER_PDES..]
      && l1[Dir(v)].Coarse?
      && forall d :: 0 <= d < USER_PDES && d != Dir(v) && l1[d].Coarse? ==> tables[l1[d].pt].refCnt > 0
    }
  }

  lemma Entries(l1: Directory, tables: Tables, view: map<nat, Pte>)
    requires DirOk(l1, tables) && Implements(l1, tables, view)
    ensures forall v: nat :: v < USER_PAGES ==>
                          (v in view <==> l1[Dir(v)].Coarse? && tables[l1[Dir(v)].pt].pte[Idx(v)].Small?)
    ensures forall v :: v in view ==> v < USER_PAGES
  {
    assert forall v :: v in view <==> Lookup(l1, tables, v).Some?;
  }

  lemma PutView(l1: Directory, tables: Tables, tables': Tables, v: nat, p: Option<Pte>, view: map<nat, Pte>)
    requires DirOk(l1, tables) && DirOk(l1, tables') && Implements(l1, tables, view)
    requires forall w :: Lookup(l1, tables', w) == if w != v then Lookup(l1, tables, w) else p
    ensures Implements(l1, tables', if p.Some? then view[v := p.value] else view - {v})
  {
  }

  lemma DropView(l1: Directory, tables: Tables, l1': Directory, tables': Tables, d: nat, view: map<nat, Pte>)
    requires DirOk(l1, tables) && DirOk(l1', tables') && Implements(l1, tables, view)
    requires forall v :: Lookup(l1', tables', v) == if Dir(v) == d then None else Lookup(l1, tables, v)
    ensures Implements(l1', tables', map w | w in view && Dir(w) != d :: view[w])
  {
  }

  /** No page is mapped by a table whose count is 0. */
  lemma Vacant(l1: Directory, tables: Tables, view: map<nat, Pte>, d: nat)
    requires DirOk(l1, tables) && Implements(l1, tables, view) && d < USER_PDES && l1[d].Coarse? && tables[l1[d].pt].refCnt == 0
    ensures view == map w | w in view && Dir(w) != d :: view[w]
  {
    CountPositive(tables[l1[d].pt].pte);
    forall w | w in view ensures Dir(w) != d {
      assert Lookup(l1, tables, w).Some?;
    }
  }

  lemma SameView(l1: Directory, tables: Tables, l1': Directory, tables': Tables, view: map<nat, Pte>)
    requires DirOk(l1, tables) && DirOk(l1', tables') && Implements(l1, tables, view)
    requires forall v :: Lookup(l1', tables', v) == Lookup(l1, tables, v)
    ensures Implements(l1', tables', view)
  {
  }

  /** Frames were handed out at most for new page tables; every block in use stays as it was. */
  ghost predicate AllocatedFor(tables: Tables, tables': Tables,
                               live: map<nat, nat>, pf: seq<Pageframe>, ram: seq<Page>,
                               live': map<nat, nat>, pf': seq<Pageframe>, ram': seq<Page>)
  {
    && Kept(live, pf, ram, live', pf', ram', live'.Keys - live.Keys)
    && (forall f :: f in live' && f !in live ==> live'[f] == 1)
    && tables'.Keys <= tables.Keys + (live'.Keys - live.Keys)
  }
}
