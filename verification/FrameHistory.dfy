/** Any sequence of page frame allocations: no page is handed out twice, and none is lost. */
module FrameHistory {
  import opened Core
  import opened Frames

  datatype Grant = Grant(size: nat, at: Option<nat>)

  ghost function Area(g: Grant): set<nat> {
    if g.at.Some? then Run(g.at.value, g.size / 4096) else {}
  }

  ghost function Taken(gs: seq<Grant>): set<nat> {
    if gs == [] then {} else Taken(gs[..|gs| - 1]) + Area(gs[|gs| - 1])
  }

  ghost predicate Apart(gs: seq<Grant>) {
    gs == [] || (Apart(gs[..|gs| - 1]) && Area(gs[|gs| - 1]) !! Taken(gs[..|gs| - 1]))
  }

  /** The pages in use are those that were when `owner0` held, and those taken since. */
  ghost predicate Standing(taken: set<nat>, owner0: Owner, owner: Owner) {
    && owner.Keys == owner0.Keys && taken <= owner0.Keys
    && (forall p :: p in owner0 ==> (owner[p].inUse <==> owner0[p].inUse || p in taken))
    && (forall p :: p in taken ==> !owner0[p].inUse)
  }

  lemma StandingNext(taken: set<nat>, owner0: Owner, owner: Owner, owner': Owner, h: nat, n: nat)
    requires Standing(taken, owner0, owner) && HandedOut(owner, owner', h, n)
    ensures Run(h, n) !! taken && Standing(taken + Run(h, n), owner0, owner')
  {
    hide Run;
    forall p | p in Run(h, n) ensures p in owner && !owner[p].inUse {
    }
  }

  lemma TakenNext(gs: seq<Grant>, g: Grant)
    ensures Taken(gs + [g]) == Taken(gs) + Area(g)
    ensures Apart(gs + [g]) <==> Apart(gs) && Area(g) !! Taken(gs)
  {
    assert (gs + [g])[..|gs|] == gs;
  }

  /** What is left of the stock `r` once `sizes` have been asked for in turn, each served if it can be. */
  function StockAfter(r: Room, sizes: seq<nat>): Room {
    if sizes == [] then r
    else
      var before := StockAfter(r, sizes[..|sizes| - 1]);
      var n := sizes[|sizes| - 1] / 4096;
      if CanTake(before, n) then TakeBlock(before, n) else before
  }

  lemma StockNext(r: Room, sizes: seq<nat>, k: nat)
    requires k < |sizes|
    ensures StockAfter(r, sizes[..k + 1]) ==
            var before := StockAfter(r, sizes[..k]);
            if CanTake(before, sizes[k] / 4096) then TakeBlock(before, sizes[k] / 4096) else before
  {
    assert sizes[..k + 1][..k] == sizes[..k];
  }

  /** Whether each request was met, told from the stock that the requests before it left. */
  ghost predicate GrantedWhenever(gs: seq<Grant>, r: Room, sizes: seq<nat>) {
    && |gs| <= |sizes|
    && forall i :: 0 <= i < |gs| ==> (gs[i].at.Some? <==> CanTake(StockAfter(r, sizes[..i]), sizes[i] / 4096))
  }

  /**
    A request is met exactly when the stock the earlier ones left has a block for it; the blocks
    granted share no page, were free at the start and are all that was taken into use; the pages
    managed stay the same.
   */
  method AllocateAll(frames: PageframeTable, sizes: seq<nat>) returns (gs: seq<Grant>)
    requires frames.Valid() && forall i :: 0 <= i < |sizes| ==> sizes[i] in {4096, 16384, 65536}
    modifies frames
    ensures frames.Valid() && |gs| == |sizes| && forall i :: 0 <= i < |sizes| ==> gs[i].size == sizes[i]
    ensures GrantedWhenever(gs, old(frames.Stock()), sizes)
    ensures frames.Stock() == StockAfter(old(frames.Stock()), sizes)
    ensures Apart(gs) && Standing(Taken(gs), old(frames.owner), frames.owner)
  {
    hide PageframeTable.Valid, PageframeTable.Stock, HandedOut, Apart, Standing, Taken, CanTake, TakeBlock, StockAfter;
    gs := [];
    ghost var r0 := frames.Stock();
    assert StockAfter(r0, sizes[..0]) == r0 by { StockNone(r0, sizes[..0]); }
    assert Apart([]) && Standing(Taken([]), frames.owner, frames.owner) by { StandingNone(frames.owner); }
    while |gs| < |sizes|
      invariant |gs| <= |sizes| && frames.Valid() && forall i :: 0 <= i < |gs| ==> gs[i].size == sizes[i]
      invariant GrantedWhenever(gs, r0, sizes) && frames.Stock() == StockAfter(r0, sizes[..|gs|])
      invariant Apart(gs) && Standing(Taken(gs), old(frames.owner), frames.owner)
    {
      StockNext(r0, sizes, |gs|);
      ghost var owner := frames.owner;
      var size := sizes[|gs|];
      var r := frames.AllocPageframe(size);
      TakenNext(gs, Grant(size, r));
      if r.Some? {
        StandingNext(Taken(gs), old(frames.owner), owner, frames.owner, r.value, size / 4096);
      } else {
        assert Taken(gs) + {} == Taken(gs);
      }
      gs := gs + [Grant(size, r)];
    }
    assert sizes[..|gs|] == sizes;
  }

  lemma StockNone(r: Room, sizes: seq<nat>)
    requires sizes == []
    ensures StockAfter(r, sizes) == r
  {
  }

  lemma StandingNone(owner: Owner)
    ensures Apart([]) && Standing(Taken([]), owner, owner)
  {
  }

  /** No two grants share a page. */
  lemma {:induction false} GrantsDisjoint(gs: seq<Grant>, i: nat, j: nat)
    requires Apart(gs) && i < j < |gs|
    ensures Area(gs[i]) !! Area(gs[j])
  {
    var short := gs[..|gs| - 1];
    if j == |short| {
      AreaTaken(short, i);
    } else {
      GrantsDisjoint(short, i, j);
    }
  }

  lemma {:induction false} AreaTaken(gs: seq<Grant>, i: nat)
    requires i < |gs|
    ensures Area(gs[i]) <= Taken(gs)
  {
    if i < |gs| - 1 {
      AreaTaken(gs[..|gs| - 1], i);
    }
  }

  ghost function Pages(owner: Owner, inUse: bool): set<nat> {
    set p | p in owner && owner[p].inUse == inUse
  }

  /** The page count is conserved: what is still free and what was granted add up to what was free. */
  lemma PagesConserved(taken: set<nat>, owner0: Owner, owner: Owner)
    requires Standing(taken, owner0, owner)
    ensures |Pages(owner, false)| + |taken| == |Pages(owner0, false)|
  {
    assert Pages(owner, false) + taken == Pages(owner0, false);
    assert Pages(owner, false) !! taken;
  }
}
