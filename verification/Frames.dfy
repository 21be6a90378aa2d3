/**
  Physical memory: the page-frame table, the three free lists and the slab
  splitter of `alloc_pageframe`, started from the boot-time free lists.

  The lists are intrusive doubly linked lists in the source; here each is the
  sequence of frame numbers it holds. Ghost field `owner` names, for every page
  the allocator manages, the one block that page belongs to: that a page has a
  single owner is what makes the blocks a partition.
 */
module Frames {
  import opened Core
  import opened Lists

  const PGF_INUSE: bv32 := 1

  type Page = p: seq<Byte> | |p| == 4096 witness seq(4096, _ => 0)

  function Zeros(): Page { seq(4096, _ => 0) }

  const ZERO_PAGE: Page := Zeros()

  /** `struct Pageframe`; its physical address is its index times 4096. */
  datatype Pageframe = Pageframe(size: nat, flags: bv32, refCnt: int)

  /** A run of `pages` frames from `start`, free or handed out. */
  datatype Block = Block(start: nat, pages: nat, inUse: bool)

  type Owner = map<nat, Block>

  /** Blocks of 4, 16 and 64 kilobytes start at multiples of their size. */
  ghost predicate Aligned(start: nat, pages: nat) {
    (pages == 4 ==> start % 4 == 0) && (pages == 16 ==> start % 16 == 0)
  }

  ghost predicate Owns(owner: Owner, b: Block) {
    && b.pages in {1, 4, 16}
    && Aligned(b.start, b.pages)
    && forall p :: b.start <= p < b.start + b.pages ==> p in owner && owner[p] == b
  }

  ghost predicate BlockOk(b: Block, owner: Owner, pf: seq<Pageframe>) {
    && Owns(owner, b)
    && b.start < |pf|
    && pf[b.start].size == b.pages * 4096
    && pf[b.start].flags == if b.inUse then PGF_INUSE else 0
  }

  /** The lists the allocator keeps, and the blocks it has handed out. */
  datatype Blocks = Blocks(k4: seq<nat>, k16: seq<nat>, k64: seq<nat>, live: map<nat, nat>) {
    ghost function Free(n: nat): seq<nat> {
      if n == 1 then k4 else if n == 4 then k16 else k64
    }

    /** The block is on the list for its size, or is handed out. */
    ghost predicate Has(b: Block) {
      && b.pages in {1, 4, 16}
      && if b.inUse then b.start in live && live[b.start] == b.pages else b.start in Free(b.pages)
    }
  }

  ghost predicate ListOk(list: seq<nat>, n: nat, owner: Owner, pf: seq<Pageframe>) {
    && NoDup(list)
    && forall i :: i in list ==> BlockOk(Block(i, n, false), owner, pf)
  }

  ghost predicate LiveOk(live: map<nat, nat>, owner: Owner, pf: seq<Pageframe>) {
    forall i :: i in live ==> BlockOk(Block(i, live[i], true), owner, pf)
  }

  ghost predicate Homed(p: nat, owner: Owner, bs: Blocks) {
    p in owner ==>
      && owner[p].start <= p < owner[p].start + owner[p].pages
      && bs.Has(owner[p])
  }

  /** The free and the live blocks partition the managed pages. */
  ghost predicate Partition(bs: Blocks, owner: Owner, pf: seq<Pageframe>) {
    && (forall p :: p in owner ==> p < |pf|)
    && ListOk(bs.k4, 1, owner, pf)
    && ListOk(bs.k16, 4, owner, pf)
    && ListOk(bs.k64, 16, owner, pf)
    && LiveOk(bs.live, owner, pf)
    && forall p :: p in owner ==> Homed(p, owner, bs)
  }

  /** Pages that boot left free, out of the whole 64k slabs that fit in memory. */
  ghost function BootFree(pf: seq<Pageframe>, slabs: nat): set<nat>
    requires slabs * 16 <= |pf|
  {
    set p | 0 <= p < slabs * 16 && pf[p].flags == 0
  }

  lemma EmptyPartition(pf: seq<Pageframe>)
    ensures Partition(Blocks([], [], [], map[]), map[], pf)
  {
  }

  /** Two blocks that own their pages are equal or share no page. */
  lemma BlocksDisjoint(owner: Owner, b: Block, c: Block, p: nat)
    requires Owns(owner, b) && Owns(owner, c)
    requires b.start <= p < b.start + b.pages && c.start <= p < c.start + c.pages
    ensures b == c
  {
    assert owner[p] == b;
  }

  /** Only managed pages are on the lists or handed out. */
  lemma ListedOwned(bs: Blocks, owner: Owner, pf: seq<Pageframe>)
    requires Partition(bs, owner, pf)
    ensures forall i :: i in bs.k4 || i in bs.k16 || i in bs.k64 || i in bs.live ==> i in owner
    ensures forall i :: i in bs.k4 ==> owner[i] == Block(i, 1, false)
    ensures forall i :: i in bs.k16 ==> owner[i] == Block(i, 4, false)
    ensures forall i :: i in bs.k64 ==> owner[i] == Block(i, 16, false)
    ensures forall i :: i in bs.live ==> owner[i] == Block(i, bs.live[i], true)
    ensures NoDup(bs.k4) && NoDup(bs.k16) && NoDup(bs.k64)
  {
  }

  /** The pages from `start` on. */
  ghost function Run(start: nat, pages: nat): (r: set<nat>)
    ensures forall p :: p in r <==> start <= p < start + pages
  {
    if pages == 0 then {} else Run(start, pages - 1) + {start + pages - 1}
  }

  /** The region is a union of blocks. */
  ghost predicate BlockUnion(c: set<nat>, owner: Owner) {
    forall p :: p in owner ==> (p in c <==> owner[p].start in c)
  }

  lemma StartOwned(bs: Blocks, owner: Owner, pf: seq<Pageframe>, p: nat)
    requires Partition(bs, owner, pf) && p in owner
    ensures owner[p].start in owner && owner[owner[p].start] == owner[p]
  {
    assert Homed(p, owner, bs);
    assert BlockOk(owner[p], owner, pf);
  }

  lemma UnmanagedUnion(bs: Blocks, owner: Owner, pf: seq<Pageframe>, c: set<nat>)
    requires Partition(bs, owner, pf)
    requires forall p :: p in c ==> p !in owner
    ensures BlockUnion(c, owner)
  {
    forall p | p in owner ensures p in c <==> owner[p].start in c {
      StartOwned(bs, owner, pf, p);
    }
  }

  lemma BlockIsUnion(bs: Blocks, owner: Owner, pf: seq<Pageframe>, b: Block)
    requires Partition(bs, owner, pf) && bs.Has(b)
    ensures BlockOk(b, owner, pf)
    ensures BlockUnion(Run(b.start, b.pages), owner)
  {
    forall p | p in owner ensures p in Run(b.start, b.pages) <==> owner[p].start in Run(b.start, b.pages) {
      StartOwned(bs, owner, pf, p);
      assert Homed(p, owner, bs);
    }
  }

  // ---------------------------------------------------------------------
  // Changing the blocks inside a set `c` of pages that is a union of blocks.

  ghost predicate Outside(c: set<nat>, owner: Owner, pf: seq<Pageframe>, owner': Owner, pf': seq<Pageframe>) {
    && |pf'| == |pf|
    && (forall p :: p in owner && p !in c ==> p in owner' && owner'[p] == owner[p])
    && (forall p :: p in owner' && p !in c ==> p in owner)
    && (forall p :: 0 <= p < |pf| && p !in c ==> pf'[p] == pf[p])
    && BlockUnion(c, owner)
  }

  lemma BlockKept(b: Block, c: set<nat>, owner: Owner, pf: seq<Pageframe>, owner': Owner, pf': seq<Pageframe>)
    requires Outside(c, owner, pf, owner', pf')
    requires BlockOk(b, owner, pf) && b.start !in c
    ensures BlockOk(b, owner', pf')
  {
    forall p | b.start <= p < b.start + b.pages ensures p in owner' && owner'[p] == b {
      assert owner[p] == b;
    }
  }

  ghost predicate ListStep(list: seq<nat>, list': seq<nat>, n: nat, c: set<nat>, owner': Owner, pf': seq<Pageframe>) {
    && NoDup(list')
    && (forall i :: i in list && i !in c ==> i in list')
    && (forall i :: i in list' ==> (i in list && i !in c) || BlockOk(Block(i, n, false), owner', pf'))
  }

  lemma ListKept(list: seq<nat>, list': seq<nat>, n: nat, c: set<nat>,
                 owner: Owner, pf: seq<Pageframe>, owner': Owner, pf': seq<Pageframe>)
    requires Outside(c, owner, pf, owner', pf')
    requires ListOk(list, n, owner, pf)
    requires ListStep(list, list', n, c, owner', pf')
    ensures ListOk(list', n, owner', pf')
  {
    forall i | i in list' ensures BlockOk(Block(i, n, false), owner', pf') {
      if i in list && i !in c {
        BlockKept(Block(i, n, false), c, owner, pf, owner', pf');
      }
    }
  }

  ghost predicate LiveStep(live: map<nat, nat>, live': map<nat, nat>, c: set<nat>, owner': Owner, pf': seq<Pageframe>) {
    && (forall i :: i in live ==> i in live' && live'[i] == live[i] && i !in c)
    && (forall i :: i in live' ==> i in live || BlockOk(Block(i, live'[i], true), owner', pf'))
  }

  lemma LiveKept(live: map<nat, nat>, live': map<nat, nat>, c: set<nat>,
                 owner: Owner, pf: seq<Pageframe>, owner': Owner, pf': seq<Pageframe>)
    requires Outside(c, owner, pf, owner', pf')
    requires LiveOk(live, owner, pf)
    requires LiveStep(live, live', c, owner', pf')
    ensures LiveOk(live', owner', pf')
  {
    forall i | i in live' ensures BlockOk(Block(i, live'[i], true), owner', pf') {
      if i in live {
        BlockKept(Block(i, live[i], true), c, owner, pf, owner', pf');
      }
    }
  }

  ghost predicate Step(bs: Blocks, bs': Blocks, c: set<nat>, owner': Owner, pf': seq<Pageframe>) {
    && ListStep(bs.k4, bs'.k4, 1, c, owner', pf')
    && ListStep(bs.k16, bs'.k16, 4, c, owner', pf')
    && ListStep(bs.k64, bs'.k64, 16, c, owner', pf')
    && LiveStep(bs.live, bs'.live, c, owner', pf')
    && (forall p :: p in c ==> p < |pf'| && p in owner' && Homed(p, owner', bs'))
  }

  lemma HomesKept(bs: Blocks, bs': Blocks, c: set<nat>, owner: Owner, pf: seq<Pageframe>, owner': Owner, pf': seq<Pageframe>)
    requires Partition(bs, owner, pf)
    requires Outside(c, owner, pf, owner', pf')
    requires Step(bs, bs', c, owner', pf')
    ensures forall p :: p in owner' ==> p < |pf'| && Homed(p, owner', bs')
  {
    forall p | p in owner' ensures p < |pf'| && Homed(p, owner', bs') {
      if p !in c {
        assert Homed(p, owner, bs);
      }
    }
  }

  /** Rearranging the blocks inside `c` keeps the whole a partition. */
  lemma PartitionKept(bs: Blocks, bs': Blocks, c: set<nat>, owner: Owner, pf: seq<Pageframe>, owner': Owner, pf': seq<Pageframe>)
    requires Partition(bs, owner, pf)
    requires Outside(c, owner, pf, owner', pf')
    requires Step(bs, bs', c, owner', pf')
    ensures Partition(bs', owner', pf')
  {
    ListKept(bs.k4, bs'.k4, 1, c, owner, pf, owner', pf');
    ListKept(bs.k16, bs'.k16, 4, c, owner, pf, owner', pf');
    ListKept(bs.k64, bs'.k64, 16, c, owner, pf, owner', pf');
    LiveKept(bs.live, bs'.live, c, owner, pf, owner', pf');
    HomesKept(bs, bs', c, owner, pf, owner', pf');
  }

  // The shapes a list can change in: untouched, grown at the tail, one taken, several pushed.

  lemma SameList(list: seq<nat>, n: nat, c: set<nat>, owner': Owner, pf': seq<Pageframe>)
    requires NoDup(list) && forall i :: i in list ==> i !in c
    ensures ListStep(list, list, n, c, owner', pf')
  {
  }

  lemma TailList(list: seq<nat>, h: nat, n: nat, c: set<nat>, owner': Owner, pf': seq<Pageframe>)
    requires NoDup(list) && forall i :: i in list ==> i !in c
    requires h in c && BlockOk(Block(h, n, false), owner', pf')
    ensures ListStep(list, list + [h], n, c, owner', pf')
  {
    hide BlockOk;
  }

  lemma TakenList(list: seq<nat>, n: nat, c: set<nat>, owner': Owner, pf': seq<Pageframe>)
    requires |list| > 0 && NoDup(list) && list[0] in c
    requires forall i :: i in list[1..] ==> i !in c
    ensures ListStep(list, list[1..], n, c, owner', pf')
  {
    hide BlockOk;
  }

  lemma PushedList(list: seq<nat>, pieces: seq<nat>, n: nat, c: set<nat>, owner': Owner, pf': seq<Pageframe>)
    requires NoDup(list) && forall i :: i in list ==> i !in c
    requires NoDup(pieces) && forall i :: i in pieces ==> i in c && BlockOk(Block(i, n, false), owner', pf')
    ensures ListStep(list, pieces + list, n, c, owner', pf')
  {
    hide BlockOk;
    var l := pieces + list;
    forall i, j | 0 <= i < j < |l| ensures l[i] != l[j] {
      if i < |pieces| <= j {
        assert l[i] in pieces && l[j] in list;
      }
    }
  }

  /** A free block of unmanaged pages goes to the tail of its list. */
  lemma FreeBlockAdded(bs: Blocks, bs': Blocks, b: Block, owner: Owner, pf: seq<Pageframe>, owner': Owner, pf': seq<Pageframe>)
    requires Partition(bs, owner, pf)
    requires b.pages in {1, 16} && Aligned(b.start, b.pages) && !b.inUse
    requires b.start + b.pages <= |pf| && pf[b.start].flags == 0
    requires forall p :: b.start <= p < b.start + b.pages ==> p !in owner
    requires owner' == owner + map p | p in Run(b.start, b.pages) :: b
    requires pf' == pf[b.start := pf[b.start].(size := b.pages * 4096)]
    requires bs' == if b.pages == 1 then bs.(k4 := bs.k4 + [b.start]) else bs.(k64 := bs.k64 + [b.start])
    ensures Partition(bs', owner', pf')
  {
    hide Partition, ListStep, LiveStep;
    var c := Run(b.start, b.pages);
    ListedOwned(bs, owner, pf);
    UnmanagedUnion(bs, owner, pf, c);
    assert BlockOk(b, owner', pf');
    SameList(bs.k4, 1, c, owner', pf');
    SameList(bs.k16, 4, c, owner', pf');
    SameList(bs.k64, 16, c, owner', pf');
    if b.pages == 1 {
      TailList(bs.k4, b.start, 1, c, owner', pf');
    } else {
      TailList(bs.k64, b.start, 16, c, owner', pf');
    }
    SameLive(bs.live, c, owner', pf');
    PartitionKept(bs, bs', c, owner, pf, owner', pf');
  }

  lemma SameLive(live: map<nat, nat>, c: set<nat>, owner': Owner, pf': seq<Pageframe>)
    requires forall i :: i in live ==> i !in c
    ensures LiveStep(live, live, c, owner', pf')
  {
  }

  /** The block page `p` belongs to once block `h` of `m` pages is cut into `n`-page blocks and the first handed out. */
  ghost function Cut(h: nat, n: nat, p: nat): (b: Block)
    requires n in {1, 4, 16} && h <= p
    ensures p < h + 16 ==> (b.inUse <==> p < h + n)
  {
    if n == 1 then Block(p, 1, p == h)
    else if n == 4 then Block(p - (p - h) % 4, 4, p < h + 4)
    else Block(h, 16, true)
  }

  /** Starts of the pieces that stay free, lowest first. */
  ghost function Pieces(h: nat, n: nat, m: nat): seq<nat>
    requires n in {1, 4, 16}
  {
    if m == n then [] else if n == 1 then seq(15, k => h + 1 + k) else seq(3, k => h + 4 + 4 * k)
  }

  /** What `alloc_pageframe` does to the frame table when it cuts block `h`. */
  ghost predicate CutFrames(h: nat, n: nat, m: nat, pf: seq<Pageframe>, pf': seq<Pageframe>)
    requires n in {1, 4, 16}
  {
    && |pf'| == |pf| && h < |pf|
    && pf'[h] == Pageframe(n * 4096, PGF_INUSE, 0)
    && forall i :: 0 <= i < |pf| && i != h ==>
      pf'[i] == if i in Pieces(h, n, m) then pf[i].(size := n * 4096, flags := 0) else pf[i]
  }

  ghost function Popped(bs: Blocks, m: nat): Blocks
    requires |bs.Free(m)| > 0
  {
    if m == 1 then bs.(k4 := bs.k4[1..])
    else if m == 4 then bs.(k16 := bs.k16[1..])
    else bs.(k64 := bs.k64[1..])
  }

  ghost function Taken(bs: Blocks, h: nat, n: nat, m: nat): Blocks
    requires n in {1, 4, 16} && |bs.Free(m)| > 0
  {
    var rest := Popped(bs, m);
    var pushed := if n == 1 then rest.(k4 := Pieces(h, n, m) + rest.k4)
                  else if n == 4 then rest.(k16 := Pieces(h, n, m) + rest.k16)
                  else rest;
    pushed.(live := bs.live[h := n])
  }

  ghost predicate CutAt(h: nat, n: nat, m: nat, owner: Owner, pf: seq<Pageframe>, owner': Owner, pf': seq<Pageframe>) {
    && n in {1, 4, 16} && (m == n || m == 16)
    && BlockOk(Block(h, m, false), owner, pf)
    && owner' == owner + (map p | p in Run(h, m) :: Cut(h, n, p))
    && CutFrames(h, n, m, pf, pf')
    && (forall p :: p in owner ==> p < |pf|)
  }

  lemma PieceStarts(h: nat, n: nat, m: nat, i: nat)
    requires n in {1, 4, 16} && (m == n || m == 16)
    ensures i in Pieces(h, n, m) <==>
            m == 16 && ((n == 1 && h < i < h + 16) || (n == 4 && i in {h + 4, h + 8, h + 12}))
  {
    if m == 16 && n == 1 && h < i < h + 16 {
      assert Pieces(h, n, m)[i - h - 1] == i;
    } else if m == 16 && n == 4 && i in {h + 4, h + 8, h + 12} {
      assert Pieces(h, n, m)[(i - h) / 4 - 1] == i;
    }
  }

  lemma PageOwns(h: nat, owner': Owner, i: nat)
    requires h < i < h + 16 && i in owner' && owner'[i] == Cut(h, 1, i)
    ensures Owns(owner', Block(i, 1, false))
  {
    assert owner'[i] == Block(i, 1, false);
  }

  lemma QuarterOwns(h: nat, owner': Owner, i: nat)
    requires h % 16 == 0 && i in {h + 4, h + 8, h + 12}
    requires forall p :: i <= p < i + 4 ==> p in owner' && owner'[p] == Cut(h, 4, p)
    ensures Owns(owner', Block(i, 4, false))
  {
    hide Cut, Aligned;
    QuarterAligned(h, i);
    forall p | i <= p < i + 4 ensures owner'[p] == Block(i, 4, false) {
      QuarterStart(h, i, p);
    }
  }

  lemma QuarterAligned(h: nat, i: nat)
    requires h % 16 == 0 && i in {h, h + 4, h + 8, h + 12}
    ensures Aligned(i, 4)
  {
    Quarters(h / 16, (i - h) / 4);
  }

  lemma Quarters(q: nat, k: nat)
    ensures (16 * q + 4 * k) % 4 == 0
  {
    assert 16 * q + 4 * k == 4 * (4 * q + k);
  }

  lemma QuarterStart(h: nat, i: nat, p: nat)
    requires i in {h + 4, h + 8, h + 12} && i <= p < i + 4
    ensures Cut(h, 4, p) == Block(i, 4, false)
  {
  }

  lemma PieceOk(h: nat, n: nat, m: nat, owner: Owner, pf: seq<Pageframe>, owner': Owner, pf': seq<Pageframe>, i: nat)
    requires CutAt(h, n, m, owner, pf, owner', pf')
    requires i in Pieces(h, n, m)
    ensures i in Run(h, m) && i != h
    ensures BlockOk(Block(i, n, false), owner', pf')
  {
    PieceStarts(h, n, m, i);
    assert h + 15 in owner;
    forall p | h <= p < h + 16 ensures p in owner' && owner'[p] == Cut(h, n, p) {
      assert p in Run(h, m);
    }
    if n == 1 {
      PageOwns(h, owner', i);
    } else {
      QuarterOwns(h, owner', i);
    }
  }

  lemma FirstOk(h: nat, n: nat, m: nat, owner: Owner, pf: seq<Pageframe>, owner': Owner, pf': seq<Pageframe>)
    requires CutAt(h, n, m, owner, pf, owner', pf')
    ensures BlockOk(Block(h, n, true), owner', pf')
  {
    hide Cut, Aligned;
    AlignedFirst(h, n, m);
    forall p | h <= p < h + n ensures p in owner' && owner'[p] == Block(h, n, true) {
      assert p in Run(h, m);
      FirstCut(h, n, p);
    }
  }

  lemma AlignedFirst(h: nat, n: nat, m: nat)
    requires n in {1, 4, 16} && (m == n || m == 16) && Aligned(h, m)
    ensures Aligned(h, n)
  {
    if n == 4 && m == 16 {
      QuarterAligned(h, h);
    }
  }

  lemma FirstCut(h: nat, n: nat, p: nat)
    requires n in {1, 4, 16} && h <= p < h + n
    ensures Cut(h, n, p) == Block(h, n, true)
  {
  }

  lemma PiecesNoDup(h: nat, n: nat, m: nat)
    requires n in {1, 4, 16}
    ensures NoDup(Pieces(h, n, m))
  {
  }

  lemma CutOutside(bs: Blocks, h: nat, n: nat, m: nat, owner: Owner, pf: seq<Pageframe>, owner': Owner, pf': seq<Pageframe>)
    requires Partition(bs, owner, pf) && bs.Has(Block(h, m, false))
    requires CutAt(h, n, m, owner, pf, owner', pf')
    ensures Outside(Run(h, m), owner, pf, owner', pf')
  {
    hide Partition;
    BlockIsUnion(bs, owner, pf, Block(h, m, false));
    forall i | i in Pieces(h, n, m) ensures i in Run(h, m) {
      PieceOk(h, n, m, owner, pf, owner', pf', i);
    }
  }

  lemma CutHomes(bs: Blocks, h: nat, n: nat, m: nat, owner: Owner, pf: seq<Pageframe>, owner': Owner, pf': seq<Pageframe>, p: nat)
    requires CutAt(h, n, m, owner, pf, owner', pf')
    requires |bs.Free(m)| > 0 && h == bs.Free(m)[0]
    requires p in Run(h, m)
    ensures p in owner' && p < |pf'| && Homed(p, owner', Taken(bs, h, n, m))
  {
    var b := Cut(h, n, p);
    assert owner'[p] == b && p in owner;
    if !b.inUse {
      if n == 1 {
        assert Pieces(h, n, m)[p - h - 1] == b.start;
      } else {
        assert Pieces(h, n, m)[(p - h) / 4 - 1] == b.start;
      }
    }
  }

  lemma HeadBlock(bs: Blocks, h: nat, m: nat, owner: Owner, pf: seq<Pageframe>)
    requires Partition(bs, owner, pf) && m in {1, 4, 16} && h in bs.Free(m)
    ensures BlockOk(Block(h, m, false), owner, pf)
    ensures forall p :: p in owner ==> p < |pf|
  {
  }

  /** No block but `h` itself starts inside the block being cut. */
  lemma OthersAvoid(bs: Blocks, h: nat, m: nat, owner: Owner, pf: seq<Pageframe>)
    requires Partition(bs, owner, pf) && m in {1, 4, 16}
    requires |bs.Free(m)| > 0 && h == bs.Free(m)[0]
    ensures BlockOk(Block(h, m, false), owner, pf)
    ensures NoDup(bs.k4) && NoDup(bs.k16) && NoDup(bs.k64)
    ensures forall i :: i in bs.Free(m)[1..] ==> i !in Run(h, m)
    ensures forall k, i :: k in {1, 4, 16} && k != m && i in bs.Free(k) ==> i !in Run(h, m)
    ensures forall i :: i in bs.live ==> i !in Run(h, m)
    ensures forall p :: p in owner ==> p < |pf|
    ensures h + m <= |pf|
  {
    hide Partition;
    HeadBlock(bs, h, m, owner, pf);
    assert h + m - 1 in owner;
    ListedOwned(bs, owner, pf);
    forall i | i in bs.Free(m)[1..] ensures i !in Run(h, m) {
      assert i in bs.Free(m) && i != h;
    }
  }

  lemma CutLists(bs: Blocks, h: nat, n: nat, m: nat, owner: Owner, pf: seq<Pageframe>, owner': Owner, pf': seq<Pageframe>)
    requires Partition(bs, owner, pf)
    requires |bs.Free(m)| > 0 && h == bs.Free(m)[0]
    requires CutAt(h, n, m, owner, pf, owner', pf')
    ensures ListStep(bs.k4, Taken(bs, h, n, m).k4, 1, Run(h, m), owner', pf')
    ensures ListStep(bs.k16, Taken(bs, h, n, m).k16, 4, Run(h, m), owner', pf')
    ensures ListStep(bs.k64, Taken(bs, h, n, m).k64, 16, Run(h, m), owner', pf')
  {
    hide Partition, ListStep, BlockOk, Owns, CutFrames;
    var c := Run(h, m);
    OthersAvoid(bs, h, m, owner, pf);
    TakenList(bs.Free(m), m, c, owner', pf');
    forall k | k in {1, 4, 16} && k != m ensures ListStep(bs.Free(k), bs.Free(k), k, c, owner', pf') {
      SameList(bs.Free(k), k, c, owner', pf');
    }
    if m != n {
      PiecesNoDup(h, n, m);
      forall i | i in Pieces(h, n, m) ensures i in c && BlockOk(Block(i, n, false), owner', pf') {
        PieceOk(h, n, m, owner, pf, owner', pf', i);
      }
      PushedList(bs.Free(n), Pieces(h, n, m), n, c, owner', pf');
    }
    assert forall s: seq<nat> :: [] + s == s;
    assert bs.Free(1) == bs.k4 && bs.Free(4) == bs.k16 && bs.Free(16) == bs.k64;
  }

  lemma CutLive(bs: Blocks, h: nat, n: nat, m: nat, owner: Owner, pf: seq<Pageframe>, owner': Owner, pf': seq<Pageframe>)
    requires Partition(bs, owner, pf)
    requires |bs.Free(m)| > 0 && h == bs.Free(m)[0]
    requires CutAt(h, n, m, owner, pf, owner', pf')
    ensures LiveStep(bs.live, Taken(bs, h, n, m).live, Run(h, m), owner', pf')
  {
    hide Partition, BlockOk, CutFrames;
    OthersAvoid(bs, h, m, owner, pf);
    FirstOk(h, n, m, owner, pf, owner', pf');
  }

  /** Taking a block off its list, cutting it and handing out the first piece keeps the partition. */
  lemma BlockTaken(bs: Blocks, h: nat, n: nat, m: nat, owner: Owner, pf: seq<Pageframe>, owner': Owner, pf': seq<Pageframe>)
    requires Partition(bs, owner, pf)
    requires n in {1, 4, 16} && (m == n || m == 16)
    requires |bs.Free(m)| > 0 && h == bs.Free(m)[0]
    requires owner' == owner + map p | p in Run(h, m) :: Cut(h, n, p)
    requires CutFrames(h, n, m, pf, pf')
    ensures Partition(Taken(bs, h, n, m), owner', pf')
  {
    hide Partition, ListStep, LiveStep, Outside, CutFrames, BlockOk, Homed, Taken;
    OthersAvoid(bs, h, m, owner, pf);
    CutOutside(bs, h, n, m, owner, pf, owner', pf');
    CutLists(bs, h, n, m, owner, pf, owner', pf');
    CutLive(bs, h, n, m, owner, pf, owner', pf');
    forall p | p in Run(h, m) ensures p in owner' && p < |pf'| && Homed(p, owner', Taken(bs, h, n, m)) {
      CutHomes(bs, h, n, m, owner, pf, owner', pf', p);
    }
    PartitionKept(bs, Taken(bs, h, n, m), Run(h, m), owner, pf, owner', pf');
  }

  /** Exactly the pages of `n`-page block `h` change from free to in use; pages in use keep their block. */
  ghost predicate HandedOut(owner: Owner, owner': Owner, h: nat, n: nat) {
    && owner'.Keys == owner.Keys
    && (forall p :: h <= p < h + n ==> p in owner && !owner[p].inUse)
    && (forall p :: p in owner ==> (owner'[p].inUse <==> owner[p].inUse || h <= p < h + n))
    && (forall p :: p in owner && owner[p].inUse ==> owner'[p] == owner[p])
  }

  lemma CutHandsOut(h: nat, n: nat, m: nat, owner: Owner, pf: seq<Pageframe>, owner': Owner, pf': seq<Pageframe>)
    requires CutAt(h, n, m, owner, pf, owner', pf')
    ensures HandedOut(owner, owner', h, n)
  {
    hide Pieces, CutFrames;
    forall p | h <= p < h + m ensures p in owner && owner[p] == Block(h, m, false) {
    }
  }

  // ---------------------------------------------------------------------
  // How much is left.

  /** The lengths of the three free lists. */
  datatype Room = Room(k4: nat, k16: nat, k64: nat)

  ghost function RoomOf(bs: Blocks): Room {
    Room(|bs.k4|, |bs.k16|, |bs.k64|)
  }

  /** The pages that can be had one at a time: 16k blocks are never cut further. */
  function Left(r: Room): nat {
    r.k4 + 16 * r.k64
  }

  /** A block of `n` pages can be had: from its own list or out of a slab. */
  predicate CanTake(r: Room, n: nat) {
    (n == 1 && r.k4 > 0) || (n == 4 && r.k16 > 0) || r.k64 > 0
  }

  function TakeBlock(r: Room, n: nat): Room
    requires CanTake(r, n)
  {
    if n == 1 then if r.k4 > 0 then r.(k4 := r.k4 - 1) else Room(15, r.k16, r.k64 - 1)
    else if n == 4 then if r.k16 > 0 then r.(k16 := r.k16 - 1) else Room(r.k4, 3, r.k64 - 1)
    else r.(k64 := r.k64 - 1)
  }

  /** The free pages from `lo` up to `hi`. */
  ghost function FreeIn(pf: seq<Pageframe>, lo: nat, hi: nat): (n: nat)
    requires lo <= hi <= |pf|
    ensures n <= hi - lo
    decreases hi
  {
    if lo == hi then 0 else FreeIn(pf, lo, hi - 1) + if pf[hi - 1].flags == 0 then 1 else 0
  }

  lemma {:induction false} FreeInSame(pf: seq<Pageframe>, pf': seq<Pageframe>, lo: nat, hi: nat)
    requires lo <= hi <= |pf| == |pf'| && forall i :: lo <= i < hi ==> pf'[i].flags == pf[i].flags
    ensures FreeIn(pf', lo, hi) == FreeIn(pf, lo, hi)
    decreases hi
  {
    if lo < hi {
      FreeInSame(pf, pf', lo, hi - 1);
    }
  }

  /** A stretch has as many free pages as pages iff all are free. */
  lemma {:induction false} FreeInAll(pf: seq<Pageframe>, lo: nat, hi: nat)
    requires lo <= hi <= |pf|
    ensures FreeIn(pf, lo, hi) == hi - lo <==> forall i :: lo <= i < hi ==> pf[i].flags == 0
    decreases hi
  {
    if lo < hi {
      FreeInAll(pf, lo, hi - 1);
    }
  }

  lemma {:induction false} FreeInSplit(pf: seq<Pageframe>, lo: nat, mid: nat, hi: nat)
    requires lo <= mid <= hi <= |pf|
    ensures FreeIn(pf, lo, hi) == FreeIn(pf, lo, mid) + FreeIn(pf, mid, hi)
    decreases hi
  {
    if mid < hi {
      FreeInSplit(pf, lo, mid, hi - 1);
    }
  }

  lemma {:induction false} FreeInNone(pf: seq<Pageframe>, lo: nat, hi: nat)
    requires lo <= hi <= |pf| && forall i :: lo <= i < hi ==> pf[i].flags != 0
    ensures FreeIn(pf, lo, hi) == 0
    decreases hi
  {
    if lo < hi {
      FreeInNone(pf, lo, hi - 1);
    }
  }

  /** What boot leaves on the lists: a 64k block for each slab that is wholly free, and the loose pages of the others. */
  ghost function BootRoom(pf: seq<Pageframe>, slabs: nat): Room
    requires slabs * 16 <= |pf|
  {
    if slabs == 0 then Room(0, 0, 0)
    else
      var r, free := BootRoom(pf, slabs - 1), FreeIn(pf, slabs * 16 - 16, slabs * 16);
      if free == 16 then r.(k64 := r.k64 + 1) else r.(k4 := r.k4 + free)
  }

  /** After a demand for `need` single pages, of which as many were had as there were. */
  ghost function Spend(r: Room, need: nat): (r': Room)
    ensures Left(r') == if need <= Left(r) then Left(r) - need else 0
    ensures r'.k16 == r.k16 && r'.k64 <= r.k64 <= r'.k64 + need
    decreases need
  {
    if need == 0 || Left(r) == 0 then r else Spend(TakeBlock(r, 1), need - 1)
  }

  /** Demands add up. */
  lemma {:induction false} SpendMore(r: Room, a: nat, b: nat)
    ensures Spend(Spend(r, a), b) == Spend(r, a + b)
    decreases a
  {
    if a > 0 && Left(r) > 0 {
      SpendMore(TakeBlock(r, 1), a - 1, b);
    }
  }

  lemma NoSlabs(pf: seq<Pageframe>)
    ensures BootRoom(pf, 0) == Room(0, 0, 0)
  {
  }

  lemma NextSlab(pf: seq<Pageframe>, slab: nat)
    requires slab * 16 + 16 <= |pf|
    ensures var r, free := BootRoom(pf, slab), FreeIn(pf, slab * 16, slab * 16 + 16);
            BootRoom(pf, slab + 1) == if free == 16 then r.(k64 := r.k64 + 1) else r.(k4 := r.k4 + free)
  {
    hide FreeIn;
    assert (slab + 1) * 16 - 16 == slab * 16;
  }

  lemma TakenRoom(bs: Blocks, h: nat, n: nat, m: nat)
    requires n in {1, 4, 16} && |bs.Free(m)| > 0
    requires m == if n == 1 && bs.k4 != [] then 1 else if n == 4 && bs.k16 != [] then 4 else 16
    ensures CanTake(RoomOf(bs), n) && RoomOf(Taken(bs, h, n, m)) == TakeBlock(RoomOf(bs), n)
  {
  }

  class PageframeTable {
    var pf: seq<Pageframe>
    var ram: seq<Page>
    var free4k: seq<nat>
    var free16k: seq<nat>
    var free64k: seq<nat>

    ghost var live: map<nat, nat>
    ghost var owner: Owner

    ghost function Lists(): Blocks
      reads this
    {
      Blocks(free4k, free16k, free64k, live)
    }

    ghost predicate Valid()
      reads this
    {
      |ram| == |pf| && Partition(Lists(), owner, pf)
    }

    ghost function Stock(): Room
      reads `free4k, `free16k, `free64k
    {
      Room(|free4k|, |free16k|, |free64k|)
    }

    /** Nothing has been put under management yet. */
    ghost predicate Unstarted()
      reads this
    {
      && |ram| == |pf|
      && free4k == [] && free16k == [] && free64k == []
      && owner == map[] && live == map[]
    }

    /** `init_memory_map`. */
    constructor (maxPageframe: nat)
      ensures Unstarted()
      ensures |pf| == maxPageframe
      ensures forall i :: 0 <= i < |pf| ==> pf[i] == Pageframe(4096, 0, 0)
    {
      pf := seq(maxPageframe, _ => Pageframe(4096, 0, 0));
      ram := seq(maxPageframe, _ => ZERO_PAGE);
      free4k, free16k, free64k := [], [], [];
      live, owner := map[], map[];
    }

    /** `init_pageframe_flags`: flag every page from the rounded-down base to the rounded-up ceiling. */
    method InitPageframeFlags(base: nat, ceiling: nat, flags: bv32)
      requires Unstarted()
      requires ceiling <= |pf| * 4096
      modifies this`pf
      ensures Unstarted() && |pf| == |old(pf)|
      ensures forall i :: 0 <= i < |pf| ==>
                            pf[i] == if base / 4096 <= i < (ceiling + 4095) / 4096
                                     then old(pf)[i].(flags := flags) else old(pf)[i]
    {
      var page := base / 4096;
      while page < (ceiling + 4095) / 4096
        invariant base / 4096 <= page
        invariant page <= base / 4096 || page <= (ceiling + 4095) / 4096
        invariant |pf| == |old(pf)|
        invariant forall i :: 0 <= i < |pf| ==>
                                pf[i] == if base / 4096 <= i < page then old(pf)[i].(flags := flags) else old(pf)[i]
      {
        pf := pf[page := pf[page].(flags := flags)];
        page := page + 1;
      }
    }

    /** `coalesce_free_pageframes`: build the free lists from the boot-time flags. */
    method CoalesceFreePageframes(memSize: nat)
      requires Unstarted()
      requires memSize <= |pf| * 4096
      modifies this`pf, this`free4k, this`free64k, this`owner
      ensures Valid() && live == map[]
      ensures |pf| == |old(pf)| && memSize / 0x10000 * 16 <= |pf|
      ensures owner.Keys == BootFree(old(pf), memSize / 0x10000)
      ensures Stock() == BootRoom(old(pf), memSize / 0x10000)
    {
      hide Partition, BootRoom, FreeIn;
      EmptyPartition(pf);
      NoSlabs(pf);
      var slab := 0;
      while (slab + 1) * 0x10000 <= memSize
        invariant slab * 0x10000 <= memSize
        invariant |pf| == |old(pf)| && live == map[] && Valid()
        invariant forall i :: 0 <= i < |pf| ==> pf[i].flags == old(pf)[i].flags
        invariant forall p :: p in owner <==> 0 <= p < slab * 16 && old(pf)[p].flags == 0
        invariant slab * 16 <= |pf| && Stock() == BootRoom(old(pf), slab)
      {
        var free := CountFree(slab * 16);
        FreeInAll(pf, slab * 16, slab * 16 + 16);
        FreeInSame(old(pf), pf, slab * 16, slab * 16 + 16);
        NextSlab(old(pf), slab);
        if free * 4096 == 0x10000 {
          AddSlab(slab * 16);
        } else {
          AddPages(slab * 16);
        }
        slab := slab + 1;
      }
    }

    /** The count of free pages in a slab. */
    method CountFree(h: nat) returns (free: nat)
      requires h + 16 <= |pf|
      ensures free == FreeIn(pf, h, h + 16)
    {
      free := 0;
      var p := h;
      while p < h + 16
        invariant h <= p <= h + 16 && free == FreeIn(pf, h, p)
      {
        if pf[p].flags == 0 {
          free := free + 1;
        }
        p := p + 1;
      }
    }

    /** A wholly free 64k slab goes to the tail of the 64k list. */
    method AddSlab(h: nat)
      requires Valid() && h % 16 == 0 && h + 16 <= |pf|
      requires forall p :: h <= p < h + 16 ==> p !in owner && pf[p].flags == 0
      modifies this`pf, this`free64k, this`owner
      ensures Valid() && |pf| == |old(pf)|
      ensures forall i :: 0 <= i < |pf| ==> pf[i].flags == old(pf)[i].flags
      ensures forall p :: p in owner <==> p in old(owner) || h <= p < h + 16
      ensures free64k == old(free64k) + [h]
    {
      hide Partition;
      ghost var b := Block(h, 16, false);
      pf := pf[h := pf[h].(size := 0x10000)];
      free64k := free64k + [h];
      owner := owner + map p | p in Run(h, 16) :: b;
      FreeBlockAdded(old(Lists()), Lists(), b, old(owner), old(pf), owner, pf);
    }

    /** In a slab that is not wholly free, each free page goes to the tail of the 4k list. */
    method AddPages(h: nat)
      requires Valid() && h + 16 <= |pf|
      requires forall p :: p in owner ==> p < h
      modifies this`pf, this`free4k, this`owner
      ensures Valid() && |pf| == |old(pf)|
      ensures forall i :: 0 <= i < |pf| ==> pf[i].flags == old(pf)[i].flags
      ensures forall p :: p in owner <==> p in old(owner) || (h <= p < h + 16 && old(pf)[p].flags == 0)
      ensures |free4k| == |old(free4k)| + FreeIn(old(pf), h, h + 16)
    {
      hide Partition;
      var p := h;
      while p < h + 16
        invariant h <= p <= h + 16
        invariant |pf| == |old(pf)| && Valid()
        invariant forall i :: 0 <= i < |pf| ==> pf[i].flags == old(pf)[i].flags
        invariant forall q :: q in owner <==> q in old(owner) || (h <= q < p && old(pf)[q].flags == 0)
        invariant |free4k| == |old(free4k)| + FreeIn(old(pf), h, p)
      {
        if pf[p].flags == 0 {
          AddPage(p);
        }
        p := p + 1;
      }
    }

    method AddPage(p: nat)
      requires Valid() && p < |pf| && p !in owner && pf[p].flags == 0
      modifies this`pf, this`free4k, this`owner
      ensures Valid() && |pf| == |old(pf)|
      ensures forall i :: 0 <= i < |pf| ==> pf[i].flags == old(pf)[i].flags
      ensures owner == old(owner)[p := Block(p, 1, false)] && free4k == old(free4k) + [p]
    {
      hide Partition;
      ghost var b := Block(p, 1, false);
      pf := pf[p := pf[p].(size := 4096)];
      free4k := free4k + [p];
      owner := owner + map q | q in Run(p, 1) :: b;
      FreeBlockAdded(old(Lists()), Lists(), b, old(owner), old(pf), owner, pf);
    }

    /** List and block sizes that satisfy a request: the request's own list first, then a 64k slab. */
    ghost function SourceSize(n: nat): nat
      reads this
    {
      if n == 1 && free4k != [] then 1 else if n == 4 && free16k != [] then 4 else 16
    }

    /** Cut slab `h` into four 16k blocks; the upper three go to the head of the 16k list. */
    method Split16k(h: nat)
      requires h + 16 <= |pf|
      modifies this`pf, this`free16k
      ensures free16k == Pieces(h, 4, 16) + old(free16k)
      ensures |pf| == |old(pf)|
      ensures forall i :: 0 <= i < |pf| ==>
                            pf[i] == if i in {h, h + 4, h + 8, h + 12} then old(pf)[i].(size := 16384, flags := 0)
                                     else old(pf)[i]
    {
      var t := 3;
      while t > 0
        invariant 0 <= t <= 3
        invariant free16k == seq(3 - t, k => h + 4 * (t + 1 + k)) + old(free16k)
        invariant |pf| == |old(pf)|
        invariant forall i :: 0 <= i < |pf| ==>
                                pf[i] == if h + t * 4 < i && i in {h + 4, h + 8, h + 12}
                                         then old(pf)[i].(size := 16384, flags := 0) else old(pf)[i]
      {
        pf := pf[h + t * 4 := pf[h + t * 4].(size := 16384, flags := 0)];
        free16k := [h + t * 4] + free16k;
        t := t - 1;
      }
      pf := pf[h := pf[h].(size := 16384, flags := 0)];
    }

    /** Cut slab `h` into sixteen pages; the upper fifteen go to the head of the 4k list. */
    method Split4k(h: nat)
      requires h + 16 <= |pf|
      modifies this`pf, this`free4k
      ensures free4k == Pieces(h, 1, 16) + old(free4k)
      ensures |pf| == |old(pf)|
      ensures forall i :: 0 <= i < |pf| ==>
                            pf[i] == if h <= i < h + 16 then old(pf)[i].(size := 4096, flags := 0) else old(pf)[i]
    {
      var t := 15;
      while t > 0
        invariant 0 <= t <= 15
        invariant free4k == seq(15 - t, k => h + t + 1 + k) + old(free4k)
        invariant |pf| == |old(pf)|
        invariant forall i :: 0 <= i < |pf| ==>
                                pf[i] == if h + t < i < h + 16 then old(pf)[i].(size := 4096, flags := 0) else old(pf)[i]
      {
        pf := pf[h + t := pf[h + t].(size := 4096, flags := 0)];
        free4k := [h + t] + free4k;
        t := t - 1;
      }
      pf := pf[h := pf[h].(size := 4096, flags := 0)];
    }

    /** Take the head of the request's own list or else of the 64k list. */
    method TakeHead(size: nat) returns (head: Option<nat>)
      requires size in {4096, 16384, 65536}
      modifies this`free4k, this`free16k, this`free64k
      ensures head.None? <==> old(Lists().Free(SourceSize(size / 4096))) == []
      ensures head.None? ==> Lists() == old(Lists())
      ensures head.Some? ==>
                && head.value == old(Lists().Free(SourceSize(size / 4096)))[0]
                && Lists() == Popped(old(Lists()), old(SourceSize(size / 4096)))
    {
      head := None;
      if size == 4096 {
        if free4k != [] {
          head := Some(free4k[0]);
          free4k := free4k[1..];
        }
      } else if size == 16384 {
        if free16k != [] {
          head := Some(free16k[0]);
          free16k := free16k[1..];
        }
      }
      if head == None || size == 65536 {
        if free64k != [] {
          head := Some(free64k[0]);
          free64k := free64k[1..];
        }
      }
    }

    /** The `memset` of a block's memory. */
    method ZeroFill(h: nat, n: nat)
      requires h + n <= |ram|
      modifies this`ram
      ensures |ram| == |old(ram)|
      ensures forall p :: 0 <= p < |ram| ==> ram[p] == if h <= p < h + n then ZERO_PAGE else old(ram)[p]
    {
      var p := h;
      while p < h + n
        invariant h <= p <= h + n
        invariant |ram| == |old(ram)|
        invariant forall q :: 0 <= q < |ram| ==> ram[q] == if h <= q < p then ZERO_PAGE else old(ram)[q]
      {
        ram := ram[p := ZERO_PAGE];
        p := p + 1;
      }
    }

    /**
      `alloc_pageframe`: hand out a 4k, 16k or 64k block, cutting a 64k slab when the
      list for the size is empty. Fails exactly when both are empty; otherwise the
      pages handed out were free, are now in use, are zeroed, and no other page changes hands.
     */
    method AllocPageframe(size: nat) returns (r: Option<nat>)
      requires Valid()
      requires size in {4096, 16384, 65536}
      modifies this
      ensures Valid() && |pf| == |old(pf)| && |ram| == |old(ram)|
      ensures r.None? <==> old(Lists().Free(SourceSize(size / 4096))) == []
      ensures r.Some? <==> CanTake(old(Stock()), size / 4096)
      ensures Stock() == if r.Some? then TakeBlock(old(Stock()), size / 4096) else old(Stock())
      ensures r.None? ==> Lists() == old(Lists()) && owner == old(owner) && pf == old(pf) && ram == old(ram)
      ensures r.Some? ==>
                && HandedOut(old(owner), owner, r.value, size / 4096)
                && r.value !in old(live) && live == old(live)[r.value := size / 4096]
                && r.value < |pf| && pf[r.value].refCnt == 0
                && (forall p :: 0 <= p < |pf| && p != r.value ==> pf[p].refCnt == old(pf)[p].refCnt)
                && (forall p :: 0 <= p < |ram| ==>
                                  ram[p] == if r.value <= p < r.value + size / 4096 then ZERO_PAGE else old(ram)[p])
    {
      hide Partition, HandedOut;
      r := TakeHead(size);
      if r == None {
        return;
      }
      HandOut(old(Lists()), r.value, size, old(SourceSize(size / 4096)));
      TakenRoom(old(Lists()), r.value, size / 4096, old(SourceSize(size / 4096)));
      ZeroFill(r.value, size / 4096);
    }

    /** Cut block `h`, just taken off its list, and hand out its first piece. */
    method HandOut(ghost bs: Blocks, h: nat, size: nat, ghost m: nat)
      requires size in {4096, 16384, 65536} && (m == 16 || m == size / 4096)
      requires Partition(bs, owner, pf) && |bs.Free(m)| > 0 && h == bs.Free(m)[0] && Lists() == Popped(bs, m)
      modifies this`pf, this`free4k, this`free16k, this`live, this`owner
      ensures Partition(Lists(), owner, pf) && |pf| == |old(pf)| && h + size / 4096 <= |pf|
      ensures HandedOut(old(owner), owner, h, size / 4096) && Lists() == Taken(bs, h, size / 4096, m)
      ensures h !in old(live) && live == old(live)[h := size / 4096]
      ensures pf[h].refCnt == 0 && forall p :: 0 <= p < |pf| && p != h ==> pf[p].refCnt == old(pf)[p].refCnt
    {
      hide Partition, Cut, Pieces, HandedOut, CutFrames;
      ghost var n := size / 4096;
      OthersAvoid(bs, h, m, owner, pf);
      assert pf[h].flags & PGF_INUSE == 0;
      CutFrame(h, size, m);
      live := live[h := n];
      owner := owner + map p | p in Run(h, m) :: Cut(h, n, p);
      assert Lists() == Taken(bs, h, n, m);
      BlockTaken(bs, h, n, m, old(owner), old(pf), owner, pf);
      CutHandsOut(h, n, m, old(owner), old(pf), owner, pf);
    }

    /** Cut the block if it is a larger slab, and mark its first piece as in use. */
    method CutFrame(h: nat, size: nat, ghost m: nat)
      requires size in {4096, 16384, 65536}
      requires h + m <= |pf| && (m == 16 || m == size / 4096)
      requires pf[h].size == m * 4096 && pf[h].flags == 0
      modifies this`pf, this`free4k, this`free16k
      ensures |pf| == |old(pf)| && CutFrames(h, size / 4096, m, old(pf), pf)
      ensures pf[h].refCnt == 0 && forall p :: 0 <= p < |pf| && p != h ==> pf[p].refCnt == old(pf)[p].refCnt
      ensures free4k == if size == 4096 then Pieces(h, 1, m) + old(free4k) else old(free4k)
      ensures free16k == if size == 16384 then Pieces(h, 4, m) + old(free16k) else old(free16k)
    {
      if pf[h].size == 65536 && size == 16384 {
        Split16k(h);
      } else if pf[h].size == 65536 && size == 4096 {
        Split4k(h);
      }
      pf := pf[h := pf[h].(flags := PGF_INUSE, refCnt := 0)];
      forall i | 0 <= i < |pf| && i != h
        ensures pf[i] == if i in Pieces(h, size / 4096, m) then old(pf)[i].(size := size, flags := 0) else old(pf)[i]
      {
        PieceStarts(h, size / 4096, m, i);
      }
    }

    /** `alloc_pageframe(PAGE_SIZE)`, as its callers see it: a zeroed page nobody else holds. */
    method AllocPage() returns (r: Option<nat>)
      requires Valid()
      modifies this
      ensures Valid() && |pf| == |old(pf)|
      ensures r.Some? <==> Left(old(Stock())) > 0
      ensures Stock() == Spend(old(Stock()), 1)
      ensures r.None? ==> Kept(old(live), old(pf), old(ram), live, pf, ram, {})
      ensures r.Some? ==>
                && Kept(old(live), old(pf), old(ram), live, pf, ram, {r.value})
                && live[r.value] == 1 && pf[r.value].refCnt == 0 && ram[r.value] == ZERO_PAGE
    {
      hide Partition;
      LiveInUse();
      r := AllocPageframe(4096);
      LiveInUse();
    }

    /** `alloc_pageframe(PAGEDIR_SZ)`. */
    method AllocPageDir() returns (r: Option<nat>)
      requires Valid()
      modifies this
      ensures Valid() && |pf| == |old(pf)|
      ensures r.Some? <==> CanTake(old(Stock()), 4)
      ensures Stock() == if r.Some? then TakeBlock(old(Stock()), 4) else old(Stock())
      ensures r.None? ==> Kept(old(live), old(pf), old(ram), live, pf, ram, {})
      ensures r.Some? ==> Kept(old(live), old(pf), old(ram), live, pf, ram, {r.value}) && live[r.value] == 4
    {
      hide Partition;
      LiveInUse();
      r := AllocPageframe(16384);
      LiveInUse();
    }

    /** Store to a frame's `reference_cnt`. */
    method SetRefCnt(f: nat, n: int)
      requires Valid() && f < |pf|
      modifies this`pf
      ensures Valid() && pf == old(pf)[f := old(pf)[f].(refCnt := n)]
    {
      hide Partition;
      SameBlocks(Lists(), owner, pf, pf[f := pf[f].(refCnt := n)]);
      pf := pf[f := pf[f].(refCnt := n)];
    }

    /** Store a page of memory. */
    method WritePage(f: nat, page: Page)
      requires Valid() && f < |ram|
      modifies this`ram
      ensures Valid() && ram == old(ram)[f := page]
    {
      ram := ram[f := page];
    }

    lemma LiveBlock(f: nat)
      requires Valid() && f in live
      ensures Owns(owner, Block(f, live[f], true))
    {
    }

    lemma LiveInUse()
      requires Valid()
      ensures forall f :: f in live ==> f in owner && owner[f].inUse && f < |pf|
    {
      ListedOwned(Lists(), owner, pf);
    }
  }

  /** The partition does not depend on reference counts. */
  lemma SameBlocks(bs: Blocks, owner: Owner, pf: seq<Pageframe>, pf': seq<Pageframe>)
    requires Partition(bs, owner, pf) && |pf'| == |pf|
    requires forall i :: 0 <= i < |pf| ==> pf'[i].size == pf[i].size && pf'[i].flags == pf[i].flags
    ensures Partition(bs, owner, pf')
  {
    hide Owns;
  }

  /** Beyond the blocks in `added` being handed out, nothing about a live block changed. */
  ghost predicate Kept(live: map<nat, nat>, pf: seq<Pageframe>, ram: seq<Page>,
                       live': map<nat, nat>, pf': seq<Pageframe>, ram': seq<Page>, added: set<nat>)
  {
    && live'.Keys == live.Keys + added && live.Keys !! added
    && |pf| == |pf'| == |ram| == |ram'|
    && (forall f :: f in live' ==> f < |pf|)
    && (forall f :: f in live ==> live'[f] == live[f] && pf'[f].refCnt == pf[f].refCnt && ram'[f] == ram[f])
  }
}
