/**
  The segment table of an address space: a sorted array of words, each holding the
  page aligned start of a segment and its type, closed by a CEILING word. A segment
  runs up to the start of the next one.

  The table is read as a function from addresses to types, and `segment_create` is
  shown to be a pointwise update of that function. Addresses and sizes are page aligned
  everywhere and are given in pages.
 */
module Segments {
  import opened Core

  const VM_USER_BASE: nat := 0x8
  const VM_USER_CEILING: nat := 0x7_F000
  const NSEGMENT: nat := 32

  datatype SegType = FREE | ALLOC | PHYS | CEILING

  /** A table word: the bits under SEG_ADDR_MASK and those under SEG_TYPE_MASK. */
  datatype Word = Word(addr: nat, ty: SegType)

  ghost predicate Increasing(t: seq<Word>) {
    forall i, j :: 0 <= i < j < |t| ==> t[i].addr < t[j].addr
  }

  ghost predicate Ordered(t: seq<Word>) {
    forall i, j :: 0 <= i < j < |t| ==> t[i].addr <= t[j].addr
  }

  /** The words in use, CEILING included, start a strictly increasing partition of user space. */
  ghost predicate Sorted(t: seq<Word>) {
    && 2 <= |t| < NSEGMENT
    && t[0].addr == VM_USER_BASE
    && t[|t| - 1] == Word(VM_USER_CEILING, CEILING)
    && Increasing(t)
    && (forall i :: 0 <= i < |t| - 1 ==> t[i].ty != CEILING)
  }

  ghost predicate SegAt(t: seq<Word>, i: int, a: nat) {
    0 <= i < |t| - 1 && t[i].addr <= a < t[i + 1].addr
  }

  /** The type of the segment that holds an address; none outside user space. */
  ghost function TypeAt(t: seq<Word>, a: nat): Option<SegType> {
    if i :| SegAt(t, i, a) then Some(t[i].ty) else None
  }

  lemma TypeIs(t: seq<Word>, i: int, a: nat)
    requires Sorted(t) && SegAt(t, i, a)
    ensures TypeAt(t, a) == Some(t[i].ty)
  {
  }

  /** From the base to the ceiling of user space, in order. */
  ghost predicate Spans(t: seq<Word>) {
    2 <= |t| && t[0].addr == VM_USER_BASE && t[|t| - 1].addr == VM_USER_CEILING && Ordered(t)
  }

  lemma SortedSpans(t: seq<Word>)
    requires Sorted(t)
    ensures Spans(t)
  {
  }

  lemma Holder(t: seq<Word>, a: nat) returns (i: int)
    requires Spans(t) && VM_USER_BASE <= a < VM_USER_CEILING
    ensures SegAt(t, i, a)
  {
    i := 0;
    while t[i + 1].addr <= a
      invariant 0 <= i < |t| - 1 && t[i].addr <= a
      decreases |t| - i
    {
      i := i + 1;
    }
  }

  lemma OneHolder(t: seq<Word>, i: int, j: int, a: nat)
    requires Ordered(t) && SegAt(t, i, a) && SegAt(t, j, a)
    ensures j <= i
  {
  }

  /** Every user address lies in exactly one segment, whose type is its type; no other address lies in one. */
  lemma Covered(t: seq<Word>, a: nat)
    requires Sorted(t)
    ensures TypeAt(t, a).Some? <==> VM_USER_BASE <= a < VM_USER_CEILING
    ensures VM_USER_BASE <= a < VM_USER_CEILING <==> exists i :: SegAt(t, i, a)
    ensures forall i, j :: SegAt(t, i, a) && SegAt(t, j, a) ==> i == j
    ensures forall i :: SegAt(t, i, a) ==> TypeAt(t, a) == Some(t[i].ty)
  {
    SortedSpans(t);
    forall i, j | SegAt(t, i, a) && SegAt(t, j, a) ensures i == j {
      OneHolder(t, i, j, a);
      OneHolder(t, j, i, a);
    }
    if VM_USER_BASE <= a < VM_USER_CEILING {
      var i := Holder(t, a);
    } else {
      NoHolder(t, a);
    }
  }

  lemma NoHolder(t: seq<Word>, a: nat)
    requires Spans(t) && !(VM_USER_BASE <= a < VM_USER_CEILING)
    ensures forall i :: !SegAt(t, i, a)
  {
    forall i ensures !SegAt(t, i, a) {
      assert 0 < i < |t| - 1 ==> t[0].addr <= t[i].addr && t[i + 1].addr <= t[|t| - 1].addr;
    }
  }

  /** The table with `[addr, end)` of segment `i` given type `ty` and the rest of that segment left free. */
  ghost function Split(t: seq<Word>, i: nat, addr: nat, end: nat, ty: SegType): seq<Word>
    requires i + 1 < |t|
  {
    t[..i]
    + (if t[i].addr < addr then [Word(t[i].addr, FREE)] else [])
    + [Word(addr, ty)]
    + (if end < t[i + 1].addr then [Word(end, FREE)] else [])
    + t[i + 1..]
  }

  ghost predicate Fits(t: seq<Word>, i: int, addr: nat, end: nat) {
    && 0 <= i < |t| - 1
    && t[i].ty == FREE
    && t[i].addr <= addr < end <= t[i + 1].addr
  }

  /** The words of a split table, by position. */
  lemma SplitWords(t: seq<Word>, i: nat, addr: nat, end: nat, ty: SegType) returns (s: seq<Word>, at: nat, k: nat)
    requires i + 1 < |t| && t[i].addr <= addr && end <= t[i + 1].addr
    ensures s == Split(t, i, addr, end, ty)
    ensures at == if t[i].addr < addr then i + 1 else i
    ensures k == at - i + if end < t[i + 1].addr then 1 else 0
    ensures |s| == |t| + k && at < |s|
    ensures forall j :: 0 <= j < i ==> s[j] == t[j]
    ensures s[i].addr == t[i].addr && (i < at ==> s[i].ty == FREE)
    ensures s[at] == Word(addr, ty)
    ensures end < t[i + 1].addr ==> at + 1 < |s| && s[at + 1] == Word(end, FREE)
    ensures s[i + 1 + k..] == t[i + 1..]
  {
    s := Split(t, i, addr, end, ty);
    at := if t[i].addr < addr then i + 1 else i;
    k := |s| - |t|;
  }

  /** Where a word of the split table comes from: below `i`, one of the words of the cut, or above it. */
  lemma SplitAddr(t: seq<Word>, i: nat, addr: nat, end: nat, ty: SegType, p: nat)
    returns (s: seq<Word>, at: nat, k: nat)
    requires Increasing(t) && Fits(t, i, addr, end) && p < |Split(t, i, addr, end, ty)|
    ensures s == Split(t, i, addr, end, ty) && at == (if t[i].addr < addr then i + 1 else i) && at <= i + k
    ensures k == at - i + (if end < t[i + 1].addr then 1 else 0) && |s| == |t| + k
    ensures p < i ==> s[p].addr == t[p].addr < t[i].addr
    ensures i <= p ==> t[i].addr <= s[p].addr
    ensures p <= i + k ==> s[p].addr < t[i + 1].addr
    ensures p == i ==> s[p].addr == t[i].addr
    ensures i <= p < at ==> s[p].addr < addr
    ensures p == at ==> s[p].addr == addr
    ensures at < p <= i + k ==> p == at + 1 && s[p].addr == end < t[i + 1].addr
    ensures i + k < p ==> s[p].addr == t[p - k].addr >= t[i + 1].addr
  {
    hide Split;
    s, at, k := SplitWords(t, i, addr, end, ty);
    if p > i + k {
      assert s[p] == s[i + 1 + k..][p - i - 1 - k] == t[p - k];
      var j := p - k;
      assert j > i + 1 ==> t[i + 1].addr < t[j].addr;
    }
  }

  lemma SplitOrder(t: seq<Word>, i: nat, addr: nat, end: nat, ty: SegType, p: nat, q: nat)
    requires Increasing(t) && Fits(t, i, addr, end)
    requires p < q < |Split(t, i, addr, end, ty)|
    ensures Split(t, i, addr, end, ty)[p].addr < Split(t, i, addr, end, ty)[q].addr
  {
    hide Split;
    var s, at, k := SplitAddr(t, i, addr, end, ty, p);
    var s', at', k' := SplitAddr(t, i, addr, end, ty, q);
    if q < i {
      assert t[p].addr < t[q].addr;
    } else if p > i + k {
      assert t[p - k].addr < t[q - k].addr;
    }
  }

  lemma SplitEnds(t: seq<Word>, i: nat, addr: nat, end: nat, ty: SegType, j: nat)
    requires Sorted(t) && Fits(t, i, addr, end) && ty in {ALLOC, PHYS}
    ensures |t| <= |Split(t, i, addr, end, ty)| <= |t| + 2
    ensures Split(t, i, addr, end, ty)[0].addr == t[0].addr
    ensures Split(t, i, addr, end, ty)[|Split(t, i, addr, end, ty)| - 1] == t[|t| - 1]
    ensures j < |Split(t, i, addr, end, ty)| - 1 ==> Split(t, i, addr, end, ty)[j].ty != CEILING
  {
    hide Split, Increasing;
    var s, at, k := SplitWords(t, i, addr, end, ty);
    assert s[|t| - 1 + k] == s[i + 1 + k..][|t| - 2 - i] == t[|t| - 1];
    if i + k < j < |s| - 1 {
      var m := j - k;
      assert s[j] == s[i + 1 + k..][m - i - 1] == t[m];
      assert m < |t| - 1;
    }
  }

  lemma SplitSorted(t: seq<Word>, i: nat, addr: nat, end: nat, ty: SegType)
    requires Sorted(t) && |t| < NSEGMENT - 2 && Fits(t, i, addr, end) && ty in {ALLOC, PHYS}
    ensures Sorted(Split(t, i, addr, end, ty))
  {
    hide Split;
    var s := Split(t, i, addr, end, ty);
    SplitEnds(t, i, addr, end, ty, 0);
    forall p, q | 0 <= p < q < |s| ensures s[p].addr < s[q].addr {
      SplitOrder(t, i, addr, end, ty, p, q);
    }
    forall j | 0 <= j < |s| - 1 ensures s[j].ty != CEILING {
      SplitEnds(t, i, addr, end, ty, j);
    }
  }

  lemma SplitHolder(t: seq<Word>, i: nat, addr: nat, end: nat, ty: SegType, a: nat, j: nat) returns (j': nat)
    requires Fits(t, i, addr, end) && SegAt(t, j, a) && !(addr <= a < end)
    ensures SegAt(Split(t, i, addr, end, ty), j', a)
    ensures Split(t, i, addr, end, ty)[j'].ty == t[j].ty
  {
    hide Split;
    var s, at, k := SplitWords(t, i, addr, end, ty);
    assert j > i ==> s[j + k] == s[i + 1 + k..][j - i - 1] == t[j];
    assert j >= i ==> s[j + 1 + k] == s[i + 1 + k..][j - i] == t[j + 1];
    j' := if j < i then j else if j > i then j + k else if a < addr then i else at + 1;
  }

  /** Splitting changes the type of `[addr, end)` and of nothing else. */
  lemma SplitType(t: seq<Word>, i: nat, addr: nat, end: nat, ty: SegType, a: nat)
    requires Sorted(t) && |t| < NSEGMENT - 2 && Fits(t, i, addr, end) && ty in {ALLOC, PHYS}
    ensures TypeAt(Split(t, i, addr, end, ty), a) == if addr <= a < end then Some(ty) else TypeAt(t, a)
    ensures addr <= a < end ==> TypeAt(t, a) == Some(FREE)
  {
    var s, at, k := SplitWords(t, i, addr, end, ty);
    SplitSorted(t, i, addr, end, ty);
    hide Split, Sorted, TypeAt;
    Covered(t, a);
    Covered(s, a);
    assert s[i + 1 + k] == s[i + 1 + k..][0] == t[i + 1];
    if addr <= a < end {
      assert SegAt(s, at, a);
      TypeIs(t, i, a);
      TypeIs(s, at, a);
    } else if VM_USER_BASE <= a < VM_USER_CEILING {
      SortedSpans(t);
      var j := Holder(t, a);
      TypeIs(t, j, a);
      var j' := SplitHolder(t, i, addr, end, ty, a, j);
      TypeIs(s, j', a);
    }
  }

  /** Pages of a 32-bit address space; sums of addresses wrap here. */
  const SPACE: nat := 0x10_0000

  /** Addition of 32-bit addresses. */
  function Add32(a: nat, b: nat): nat {
    if a + b >= SPACE then a + b - SPACE else a + b
  }

  /** Where the search for room starts. */
  function Hint(addr: nat, fixed: bool): nat {
    if !fixed && addr == 0 then 0x800 else addr
  }

  /** Segment `i` takes the request at the hint, or at its own start. */
  ghost predicate TakesAtHint(t: seq<Word>, i: int, hint: nat, size: nat) {
    0 <= i < |t| - 1 && t[i].ty == FREE && t[i].addr <= hint && hint + size < t[i + 1].addr
  }

  ghost predicate TakesAtStart(t: seq<Word>, i: int, hint: nat, size: nat) {
    0 <= i < |t| - 1 && t[i].ty == FREE && t[i].addr >= hint && size <= t[i + 1].addr - t[i].addr
  }

  ghost predicate Takes(t: seq<Word>, i: int, hint: nat, size: nat) {
    TakesAtHint(t, i, hint, size) || TakesAtStart(t, i, hint, size)
  }

  /** Where in segment `i` the request goes. */
  ghost function TakenAt(t: seq<Word>, i: int, hint: nat, size: nat): nat
    requires Takes(t, i, hint, size)
  {
    if TakesAtHint(t, i, hint, size) then hint else t[i].addr
  }

  ghost predicate FirstTaker(t: seq<Word>, i: int, hint: nat, size: nat) {
    Takes(t, i, hint, size) && forall j :: 0 <= j < i ==> !Takes(t, j, hint, size)
  }

  /** First fit: `r` is where the first segment that takes the request has it. */
  ghost predicate FirstFit(t: seq<Word>, hint: nat, size: nat, r: nat) {
    exists i :: FirstTaker(t, i, hint, size) && r == TakenAt(t, i, hint, size)
  }

  /**
    First fit is lowest fit: there is no room below it from the hint up, unless it is at the hint and
    ends just where the segment around the hint does, where the search asks for more.
   */
  lemma LowestFit(t: seq<Word>, hint: nat, size: nat, r: nat, j: int, a: nat)
    requires Sorted(t) && size > 0 && FirstFit(t, hint, size, r) && Holds(t, j, a, size) && a >= hint
    ensures r >= hint && (r <= a <==> !(a == hint && t[j].addr < hint && hint + size == t[j + 1].addr))
  {
    var i :| FirstTaker(t, i, hint, size) && r == TakenAt(t, i, hint, size);
    assert i < j ==> t[i].addr < t[j].addr && t[i + 1].addr <= t[j].addr;
    assert j < i ==> t[j].addr < t[i].addr && t[j + 1].addr <= t[i].addr && !Takes(t, j, hint, size);
  }

  /** In a fresh address space a request without an address is put at 0x00800000. */
  lemma DefaultPlace(size: nat, r: nat)
    requires 0 < size < VM_USER_CEILING - 0x800 && FirstFit(INITIAL, Hint(0, false), size, r)
    ensures r == 0x800
  {
  }

  /** The segment that holds `r` is split there. */
  ghost predicate SplitAt(t: seq<Word>, r: nat, size: nat, ty: SegType, t': seq<Word>) {
    exists i :: SegAt(t, i, r) && t' == Split(t, i, r, r + size, ty)
  }

  ghost predicate Holds(t: seq<Word>, i: int, addr: nat, size: nat) {
    Fits(t, i, addr, addr + size)
  }

  /** The test of the first-fit search that a sum past 4 gigabytes slips through. */
  ghost predicate Slips(t: seq<Word>, i: int, hint: nat, size: nat) {
    0 <= i < |t| - 1 && t[i].ty == FREE && t[i].addr <= hint && Add32(hint, size) < t[i + 1].addr
  }

  /** What a request asks for is available: at the address itself, or in some free segment at or above the hint. */
  ghost predicate Available(t: seq<Word>, addr: nat, size: nat, fixed: bool) {
    && |t| - 1 < NSEGMENT - 3 && size > 0
    && if fixed then exists i :: Holds(t, i, addr, size)
       else exists i :: Takes(t, i, Hint(addr, fixed), size)
  }

  /** A request whose end wraps round 4 gigabytes and that the range checks let through. */
  ghost predicate Overflows(t: seq<Word>, addr: nat, size: nat, fixed: bool) {
    && |t| - 1 < NSEGMENT - 3
    && Hint(addr, fixed) + size >= SPACE
    && if fixed then exists i :: SegAt(t, i, addr) && t[i].ty == FREE
       else exists i :: Slips(t, i, Hint(addr, fixed), size)
  }

  /** In a fresh address space, a fixed request for 0xFFFF9 pages at page 0x10 ends at page 9. */
  lemma OverflowExample()
    ensures
      var t := [Word(VM_USER_BASE, FREE), Word(VM_USER_CEILING, CEILING)];
      Sorted(t) && Overflows(t, 0x10, 0xF_FFF9, true) &&
      !Sorted(Split(t, 0, 0x10, Add32(0x10, 0xF_FFF9), ALLOC))
  {
    var t := [Word(VM_USER_BASE, FREE), Word(VM_USER_CEILING, CEILING)];
    assert SegAt(t, 0, 0x10);
    WrapUnsorted(t, 0, 0x10, 0x9, ALLOC);
  }

  /** `t'` is `t` with exactly `[r, r + size)` turned from FREE into `ty`. */
  ghost predicate Updated(t: seq<Word>, t': seq<Word>, r: nat, size: nat, ty: SegType) {
    && Sorted(t')
    && forall a: nat :: TypeAt(t', a) == if r <= a < r + size then Some(ty) else TypeAt(t, a)
  }

  lemma SplitUpdates(t: seq<Word>, i: nat, addr: nat, size: nat, ty: SegType)
    requires Sorted(t) && |t| < NSEGMENT - 2 && Fits(t, i, addr, addr + size) && ty in {ALLOC, PHYS}
    ensures Updated(t, Split(t, i, addr, addr + size, ty), addr, size, ty)
    ensures forall a :: addr <= a < addr + size ==> TypeAt(t, a) == Some(FREE)
  {
    hide Split, Sorted, TypeAt;
    var s := Split(t, i, addr, addr + size, ty);
    SplitSorted(t, i, addr, addr + size, ty);
    forall a: nat ensures TypeAt(s, a) == if addr <= a < addr + size then Some(ty) else TypeAt(t, a) {
      SplitType(t, i, addr, addr + size, ty, a);
    }
    forall a | addr <= a < addr + size ensures TypeAt(t, a) == Some(FREE) {
      SplitType(t, i, addr, addr + size, ty, a);
    }
  }

  /** A fresh address space: one FREE segment over all of user space. */
  const INITIAL: seq<Word> := [Word(VM_USER_BASE, FREE), Word(VM_USER_CEILING, CEILING)]

  lemma InitialSorted()
    ensures Sorted(INITIAL)
  {
  }

  lemma SortedEnds(t: seq<Word>)
    requires Sorted(t)
    ensures 2 <= |t| < NSEGMENT && t[|t| - 1] == Word(VM_USER_CEILING, CEILING)
    ensures forall i :: 0 <= i < |t| ==> VM_USER_BASE <= t[i].addr <= VM_USER_CEILING
    ensures forall i, j, a :: SegAt(t, i, a) && SegAt(t, j, a) ==> i == j
  {
  }

  /** A segment whose end wrapped below its start is followed by a smaller word. */
  lemma WrapUnsorted(t: seq<Word>, i: nat, addr: nat, end: nat, ty: SegType)
    requires i + 1 < |t| && t[i].addr <= addr && end < t[i + 1].addr && end < addr
    ensures !Sorted(Split(t, i, addr, end, ty))
  {
    hide Split;
    var s, at, k := SplitWords(t, i, addr, end, ty);
    assert s[at].addr > s[at + 1].addr;
  }

  /** The four shapes of a split. */
  lemma SplitShape(t: seq<Word>, i: nat, addr: nat, end: nat, ty: SegType)
    requires i + 1 < |t| && t[i].addr <= addr && end <= t[i + 1].addr
    ensures t[i].addr == addr && end == t[i + 1].addr ==>
              Split(t, i, addr, end, ty) == t[..i] + [Word(addr, ty)] + t[i + 1..]
    ensures t[i].addr < addr && end < t[i + 1].addr ==>
              Split(t, i, addr, end, ty) == t[..i] + [Word(t[i].addr, FREE), Word(addr, ty), Word(end, FREE)] + t[i + 1..]
    ensures t[i].addr == addr && end < t[i + 1].addr ==>
              Split(t, i, addr, end, ty) == t[..i] + [Word(addr, ty), Word(end, FREE)] + t[i + 1..]
    ensures t[i].addr < addr && end == t[i + 1].addr ==>
              Split(t, i, addr, end, ty) == t[..i] + [Word(t[i].addr, FREE), Word(addr, ty)] + t[i + 1..]
  {
  }

  lemma InsertedIs(t: seq<Word>, i: nat, n: nat, t': seq<Word>)
    requires i < |t| && |t'| == |t| + n && (forall j :: 0 <= j <= i ==> t'[j] == t[j])
    requires forall j :: i + n < j < |t'| ==> t'[j] == t[j - n]
    ensures t' == t[..i + 1] + t'[i + 1..i + 1 + n] + t[i + 1..]
  {
  }

  lemma Overwritten(t: seq<Word>, i: nat, gap: seq<Word>, mid: seq<Word>)
    requires i < |t| && |mid| == |gap| + 1
    ensures var u := t[..i + 1] + gap + t[i + 1..]; u[..i] + mid + u[i + |mid|..] == t[..i] + mid + t[i + 1..]
  {
    var u := t[..i + 1] + gap + t[i + 1..];
    assert u[i + |mid|..] == t[i + 1..] && u[..i] == t[..i];
  }

  class SegmentTable {
    const table: array<Word>
    var cnt: nat

    ghost predicate Shape()
      reads this
    {
      table.Length == NSEGMENT && cnt < NSEGMENT
    }

    ghost function Words(): seq<Word>
      requires Shape()
      reads this, table
    {
      table[..cnt + 1]
    }

    ghost predicate Valid()
      reads this, table
    {
      Shape() && Sorted(Words())
    }

    constructor ()
      ensures Valid() && fresh(table)
      ensures Words() == INITIAL
    {
      table := new Word[NSEGMENT](_ => Word(0, FREE));
      cnt := 1;
      new;
      table[0] := Word(VM_USER_BASE, FREE);
      table[1] := Word(VM_USER_CEILING, CEILING);
    }

    /** The table of an address space, as it was left. */
    constructor Load(words: seq<Word>)
      requires Sorted(words)
      ensures Valid() && fresh(table) && Words() == words
    {
      table := new Word[NSEGMENT](i => if 0 <= i < |words| then words[i] else Word(0, FREE));
      cnt := |words| - 1;
      new;
      assert Words() == words;
    }

    /** The reset at the end of `cleanup_address_space`. */
    method Reset()
      requires Shape()
      modifies this, table
      ensures Valid()
      ensures Words() == INITIAL
    {
      cnt := 1;
      table[0] := Word(VM_USER_BASE, FREE);
      table[1] := Word(VM_USER_CEILING, CEILING);
    }

    /** The copy loop of `fork_address_space`. */
    method CopyFrom(other: SegmentTable)
      requires Shape() && other.Valid() && table != other.table && this != other
      modifies this, table
      ensures Valid() && Words() == old(other.Words())
    {
      cnt := other.cnt;
      var t := 0;
      while t <= cnt
        modifies table
        invariant 0 <= t <= cnt + 1
        invariant table[..t] == other.table[..t]
      {
        table[t] := other.table[t];
        t := t + 1;
      }
    }

    /** `segment_find`: binary search for the segment that holds an address. */
    method Find(addr: nat) returns (r: int)
      requires Shape()
      ensures -1 <= r < cnt && (r >= 0 ==> SegAt(Words(), r, addr))
      ensures (Sorted(Words()) || Ordered(Words())) && r < 0 ==> forall i :: !SegAt(Words(), i, addr)
    {
      if Sorted(Words()) { SortedSpans(Words()); }
      var low, high := 0, cnt - 1;
      while low <= high
        invariant 0 <= low <= cnt && -1 <= high < cnt
        invariant Ordered(Words()) ==> forall i :: SegAt(Words(), i, addr) ==> low <= i <= high
        decreases high - low + 1
      {
        var mid := low + (high - low) / 2;
        if addr >= table[mid + 1].addr {
          low := mid + 1;
        } else if addr < table[mid].addr {
          high := mid - 1;
        } else {
          return mid;
        }
      }
      return -1;
    }

    /** `segment_alloc`: first fit from the hint; the first test adds in 32 bits. */
    method Alloc(size: nat, hint: nat) returns (r: int, at: nat)
      requires Valid() && hint < SPACE && size < SPACE
      ensures hint + size < SPACE ==>
                if r < 0 then forall i :: !Takes(Words(), i, hint, size)
                else Takes(Words(), r, hint, size) && (forall i :: 0 <= i < r ==> !Takes(Words(), i, hint, size))
                     && at == if TakesAtHint(Words(), r, hint, size) then hint else Words()[r].addr
      ensures hint + size >= SPACE ==>
                if r < 0 then forall i :: !Slips(Words(), i, hint, size)
                else Slips(Words(), r, hint, size) && at == hint
    {
      var i := 0;
      while i < cnt
        invariant 0 <= i <= cnt
        invariant hint + size < SPACE ==> forall j :: 0 <= j < i ==> !Takes(Words(), j, hint, size)
        invariant hint + size >= SPACE ==> forall j :: 0 <= j < i ==> !Slips(Words(), j, hint, size)
      {
        if table[i].ty == FREE {
          if table[i].addr <= hint && Add32(hint, size) < table[i + 1].addr {
            return i, hint;
          }
          if table[i].addr >= hint && size <= table[i + 1].addr - table[i].addr {
            return i, table[i].addr;
          }
        }
        i := i + 1;
      }
      return -1, 0;
    }

    /** The shift loop of `segment_insert`. */
    method Shift(index: nat, n: nat)
      requires Shape() && index < cnt && cnt + n < NSEGMENT && n > 0
      modifies table
      ensures forall i :: 0 <= i < index + n ==> table[i] == old(table[i])
      ensures forall i :: index + n <= i < cnt + n ==> table[i] == old(table[i - n])
    {
      var t := cnt - 1 + n;
      while t >= index + n
        invariant index + n - 1 <= t <= cnt - 1 + n
        invariant forall i :: 0 <= i <= t ==> table[i] == old(table[i])
        invariant forall i :: t < i < cnt + n ==> table[i] == old(table[i - n])
      {
        table[t] := table[t - n];
        t := t - 1;
      }
    }

    /** `segment_insert`: open a gap of `n` words at `index`. */
    method Insert(index: nat, n: nat) returns (ghost gap: seq<Word>)
      requires Shape() && index < cnt && cnt + n < NSEGMENT && n > 0
      requires table[cnt] == Word(VM_USER_CEILING, CEILING)
      modifies this, table
      ensures Shape() && cnt == old(cnt) + n && |gap| == n
      ensures Words() == old(Words())[..index + 1] + gap + old(Words())[index + 1..]
    {
      ghost var t := Words();
      Shift(index, n);
      cnt := cnt + n;
      table[cnt] := Word(VM_USER_CEILING, CEILING);
      ghost var u := Words();
      forall j | index + n < j < |u| ensures u[j] == t[j - n] {
        assert u[j] == table[j];
      }
      gap := u[index + 1..index + 1 + n];
      InsertedIs(t, index, n, u);
    }

    /** Put words `mid` in the place of word `i`, shifting the words above it. */
    method Replace(i: nat, mid: seq<Word>)
      requires Shape() && i < cnt && mid != [] && cnt + |mid| <= NSEGMENT
      requires table[cnt] == Word(VM_USER_CEILING, CEILING)
      modifies this, table
      ensures Shape() && Words() == old(Words())[..i] + mid + old(Words())[i + 1..]
    {
      ghost var t, gap := Words(), [];
      if |mid| > 1 {
        gap := Insert(i, |mid| - 1);
      }
      assert Words() == t[..i + 1] + gap + t[i + 1..];
      Write(i, mid);
      Overwritten(t, i, gap, mid);
    }

    method Write(i: nat, mid: seq<Word>)
      requires Shape() && i + |mid| <= cnt + 1
      modifies table
      ensures Words() == old(Words())[..i] + mid + old(Words())[i + |mid|..]
    {
      var k := 0;
      while k < |mid|
        invariant 0 <= k <= |mid|
        invariant forall j :: 0 <= j < table.Length ==> table[j] == if i <= j < i + k then mid[j - i] else old(table[j])
      {
        table[i + k] := mid[k];
        k := k + 1;
      }
    }

    /** The four ways `segment_create` writes a segment into the FREE segment `i`. */
    method Place(i: nat, addr: nat, end: nat, ty: SegType)
      requires Shape() && i < cnt < NSEGMENT - 3
      requires table[i].ty == FREE && table[cnt] == Word(VM_USER_CEILING, CEILING)
      requires table[i].addr <= addr && end <= table[i + 1].addr
      modifies this, table
      ensures Shape() && Words() == Split(old(Words()), i, addr, end, ty)
    {
      hide Split;
      SplitShape(Words(), i, addr, end, ty);
      var base, next := table[i].addr, table[i + 1].addr;
      if base == addr && next == end {
        Replace(i, [Word(addr, ty)]);
      } else if base < addr && next > end {
        Replace(i, [Word(base, FREE), Word(addr, ty), Word(end, FREE)]);
      } else if base == addr && next > end {
        Replace(i, [Word(addr, ty), Word(end, FREE)]);
      } else {
        Replace(i, [Word(base, FREE), Word(addr, ty)]);
      }
    }

    /**
      `segment_create`. Unless address plus size passes 4 gigabytes, the table stays a sorted
      partition; the call succeeds exactly when the request is available; and success turns
      exactly the segment asked for from FREE into the requested type. When the sum does pass
      4 gigabytes a success always leaves the table out of order.
     */
    method Create(addr0: nat, size: nat, ty: SegType, fixed: bool) returns (r: nat)
      requires Valid()
      requires addr0 < SPACE && size < SPACE && ty in {ALLOC, PHYS}
      modifies this, table
      ensures Shape()
      ensures r == 0 ==> Words() == old(Words())
      ensures r != 0 ==> size > 0
      ensures Hint(addr0, fixed) + size < SPACE ==>
                && (r != 0 <==> Available(old(Words()), addr0, size, fixed))
                && (r != 0 ==> Updated(old(Words()), Words(), r, size, ty))
                && (r != 0 ==> forall a :: r <= a < r + size ==> TypeAt(old(Words()), a) == Some(FREE))
                && (r != 0 ==> r + size <= VM_USER_CEILING && SplitAt(old(Words()), r, size, ty, Words()))
                && (r != 0 ==> if fixed then r == addr0 else FirstFit(old(Words()), Hint(addr0, fixed), size, r))
      ensures Hint(addr0, fixed) + size >= SPACE ==>
                && (r != 0 <==> Overflows(old(Words()), addr0, size, fixed))
                && (r != 0 ==> r == Hint(addr0, fixed) && !Sorted(Words()))
    {
      hide Sorted, Split, Updated, FirstFit, TypeAt;
      ghost var t := Words();
      SortedEnds(t);
      if cnt >= NSEGMENT - 3 || size == 0 {
        return 0;
      }
      var i, addr := Choose(addr0, size, fixed);
      if i < 0 {
        return 0;
      }
      Place(i, addr, Add32(addr, size), ty);
      r := addr;
      if Hint(addr0, fixed) + size < SPACE {
        assert SegAt(t, i, addr);
        SplitUpdates(t, i, addr, size, ty);
      } else {
        WrapUnsorted(t, i, addr, Add32(addr, size), ty);
      }
    }

    /** The free segment for a request, and the place in it. */
    method Choose(addr0: nat, size: nat, fixed: bool) returns (i: int, addr: nat)
      requires Valid() && addr0 < SPACE && 0 < size < SPACE && cnt < NSEGMENT - 3
      ensures i < cnt && (i >= 0 ==> table[i].ty == FREE && table[i].addr <= addr && Add32(addr, size) <= table[i + 1].addr)
      ensures Hint(addr0, fixed) + size < SPACE ==>
                && (i >= 0 <==> Available(Words(), addr0, size, fixed))
                && (i >= 0 ==> Holds(Words(), i, addr, size))
                && (i >= 0 ==> if fixed then addr == addr0 else FirstFit(Words(), Hint(addr0, fixed), size, addr))
      ensures Hint(addr0, fixed) + size >= SPACE ==>
                && (i >= 0 <==> Overflows(Words(), addr0, size, fixed))
                && (i >= 0 ==> addr == Hint(addr0, fixed) && Add32(addr, size) < table[i + 1].addr)
    {
      hide Sorted;
      ghost var t := Words();
      SortedEnds(t);
      if fixed {
        addr := addr0;
        i := Find(addr0);
        if i < 0 || table[i].ty != FREE || Add32(addr0, size) > table[i + 1].addr {
          assert forall j :: Holds(t, j, addr0, size) ==> SegAt(t, j, addr0);
          return -1, addr0;
        }
        assert addr0 + size < SPACE ==> Holds(t, i, addr0, size);
      } else {
        i, addr := Alloc(size, Hint(addr0, fixed));
        assert i >= 0 && Hint(addr0, fixed) + size < SPACE ==> FirstTaker(t, i, Hint(addr0, fixed), size) && Takes(t, i, Hint(addr0, fixed), size);
      }
    }

    // -------------------------------------------------------------------
    // Giving a segment back, which never works.

    ghost predicate Closed()
      reads this, table
    {
      Shape() && table[cnt] == Word(VM_USER_CEILING, CEILING)
    }

    /**
      `segment_splice`: inside a segment it doubles the word of that segment and does not split it at
      the address; it is `full` if the table has no room for the word.
     */
    method Splice(addr: nat) returns (r: int, full: bool)
      requires Closed() && Ordered(Words())
      modifies this, table
      ensures r == IndexFor(old(Words()), addr) && -1 <= r <= NSEGMENT && (full <==> |Spliced(old(Words()), addr)| > NSEGMENT)
      ensures !full ==> Closed() && Words() == Spliced(old(Words()), addr)
    {
      hide Ordered, IndexFor, Spliced, Doubled;
      full := false;
      if addr == VM_USER_CEILING {
        SplicedNowhere(Words(), addr);
        return NSEGMENT, full;
      }
      r := Find(addr);
      if r < 0 {
        SplicedNowhere(Words(), addr);
        return -1, full;
      }
      SplicedIs(Words(), r, addr);
      if addr == table[r].addr {
        return;
      }
      if cnt + 1 == NSEGMENT {
        full := true;
        return;
      }
      Double(r);
    }

    method Double(i: nat)
      requires Closed() && i < cnt && cnt + 1 < NSEGMENT
      modifies this, table
      ensures Closed() && Words() == Doubled(old(Words()), i)
    {
      hide Doubled;
      ghost var t := Words();
      ghost var gap := Insert(i, 1);
      assert table[i] == Words()[i] == t[i];
      table[i + 1] := table[i];
      DoubledIs(t, i, gap);
    }

    /**
      `segment_coalesce`: of two FREE words in a row the first goes, and the CEILING word is counted;
      it is `full` if there is no room for one more.
     */
    method Coalesce() returns (full: bool)
      requires Shape()
      modifies this, table
      ensures full <==> |Merged(old(Words()))| >= NSEGMENT
      ensures !full ==> Closed() && Words() == Merged(old(Words())) + [Word(VM_USER_CEILING, CEILING)]
    {
      hide Merged, MergeNext;
      ghost var t := Words();
      var k, n := 0, 0;
      MergedNone();
      while k <= cnt
        invariant cnt == old(cnt) && 0 <= n <= k <= cnt + 1 && table[..n] == Merged(t[..k])
        invariant forall j :: k <= j <= cnt ==> table[j] == t[j]
        decreases cnt + 1 - k
      {
        MergedNext(t, k);
        n := MergeWord(k, n);
        k := k + 1;
      }
      assert t[..cnt + 1] == t;
      full := n == NSEGMENT;
      if full {
        return;
      }
      cnt := n;
      table[n] := Word(VM_USER_CEILING, CEILING);
      assert Words() == table[..n] + [table[n]];
    }

    method MergeWord(k: nat, n: nat) returns (n': nat)
      requires n <= k < table.Length
      modifies table
      ensures n' <= k + 1 && forall j :: k < j < table.Length ==> table[j] == old(table[j])
      ensures table[..n'] == MergeNext(old(table[..n]), old(table[k]))
    {
      ghost var m := table[..n];
      if n > 0 && table[n - 1].ty == FREE && table[k].ty == FREE {
        table[n - 1] := table[k];
        n' := n;
        assert table[..n'] == m[..n - 1] + [old(table[k])];
      } else {
        table[n] := table[k];
        n' := n + 1;
        assert table[..n'] == m + [old(table[k])];
      }
    }

    /**
      `segment_free`. The words it writes all lie in the table exactly if `StaysInside`; the table is
      then `GivenBack`, which is out of order whatever is freed. It stays a partition exactly if the
      address is null, when nothing is done.
     */
    method Free(base: nat, size: nat) returns (strays: bool)
      requires Valid() && base < SPACE && size < SPACE
      modifies this, table
      ensures strays <==> !StaysInside(old(Words()), base, size)
      ensures !strays ==> Shape() && Words() == GivenBack(old(Words()), base, size)
      ensures !strays ==> (Sorted(Words()) <==> base == 0)
    {
      hide Sorted, Merged, Spans, IndexFor, Spliced, FreedWords, GivenBack, StaysInside;
      strays := false;
      Freeing(Words(), base, size);
      if base == 0 {
        return;
      }
      ghost var t := Words();
      var lo, hi, full := SpliceBoth(base, Add32(base, size));
      if full || (lo < 0 <= hi) {
        return true;
      }
      FreeWords(lo, hi);
      ghost var u := Words();
      strays := Coalesce();
      NeverSorted(u);
    }

    /** Both ends of the range. */
    method SpliceBoth(base: nat, end: nat) returns (lo: int, hi: int, full: bool)
      requires Valid()
      modifies this, table
      ensures -1 <= lo <= NSEGMENT && -1 <= hi <= NSEGMENT
      ensures var t := old(Words()); var u := Spliced(t, base);
              && lo == IndexFor(t, base) && (full <==> |Spliced(u, end)| > NSEGMENT)
              && (!full ==> hi == IndexFor(u, end) && Closed() && Words() == Spliced(u, end))
    {
      hide Sorted, Ordered, IndexFor, Spliced;
      ghost var t := Words();
      SortedEnds(t);
      SortedSpans(t);
      SplicedSpans(t, base);
      SplicedSpans(Spliced(t, base), end);
      lo, full := Splice(base);
      if !full {
        hi, full := Splice(end);
      }
    }

    method FreeWords(lo: int, hi: int)
      requires Shape() && -1 <= lo && hi <= NSEGMENT && (0 <= lo || hi < 0)
      modifies table
      ensures Words() == FreedWords(old(Words()), lo, hi)
    {
      var t := lo;
      while t < hi
        invariant lo <= t && (t <= hi || t == lo)
        invariant forall i :: 0 <= i < NSEGMENT ==> table[i] == if lo <= i < t then old(table[i]).(ty := FREE) else old(table[i])
      {
        table[t] := table[t].(ty := FREE);
        t := t + 1;
      }
    }
  }

  // ---------------------------------------------------------------------
  // What `segment_free` leaves.

  /** The index that `segment_splice` comes back with for an address. */
  ghost function IndexFor(t: seq<Word>, a: nat): int {
    if a == VM_USER_CEILING then NSEGMENT else if i :| SegAt(t, i, a) then i else -1
  }

  lemma IndexIs(t: seq<Word>, i: int, a: nat)
    requires Ordered(t) && SegAt(t, i, a) && a != VM_USER_CEILING
    ensures IndexFor(t, a) == i
  {
    forall j | SegAt(t, j, a) ensures j == i {
      OneHolder(t, i, j, a);
      OneHolder(t, j, i, a);
    }
  }

  lemma Indexed(t: seq<Word>, a: nat)
    requires Spans(t)
    ensures IndexFor(t, a) >= 0 <==> VM_USER_BASE <= a <= VM_USER_CEILING
  {
    if VM_USER_BASE <= a < VM_USER_CEILING {
      var i := Holder(t, a);
    } else if a != VM_USER_CEILING {
      NoHolder(t, a);
    }
  }

  /** The table after `segment_splice`. */
  ghost function Spliced(t: seq<Word>, a: nat): seq<Word> {
    var i := IndexFor(t, a);
    if 0 <= i < |t| && t[i].addr != a then Doubled(t, i) else t
  }

  lemma SplicedIs(t: seq<Word>, i: int, a: nat)
    requires Ordered(t) && SegAt(t, i, a) && a != VM_USER_CEILING
    ensures IndexFor(t, a) == i && Spliced(t, a) == (if t[i].addr != a then Doubled(t, i) else t)
    ensures |Spliced(t, a)| == |t| + if t[i].addr != a then 1 else 0
  {
    hide IndexFor;
    IndexIs(t, i, a);
  }

  lemma SplicedNowhere(t: seq<Word>, a: nat)
    requires |t| <= NSEGMENT && (a == VM_USER_CEILING || forall i :: !SegAt(t, i, a))
    ensures Spliced(t, a) == t && IndexFor(t, a) == if a == VM_USER_CEILING then NSEGMENT else -1
  {
  }

  lemma SplicedSpans(t: seq<Word>, a: nat)
    requires Spans(t)
    ensures var u := Spliced(t, a); Spans(u) && |t| <= |u| <= |t| + 1
  {
    hide Ordered, Doubled;
    var i := IndexFor(t, a);
    if 0 <= i < |t| && t[i].addr != a {
      DoubledOrder(t, i);
    }
  }

  lemma DoubledOrder(t: seq<Word>, i: nat)
    requires Ordered(t) && i < |t|
    ensures var u := Doubled(t, i); Ordered(u) && |u| == |t| + 1 && u[0] == t[0] && u[|u| - 1] == t[|t| - 1]
  {
    var u := Doubled(t, i);
    forall j, k | 0 <= j < k < |u| ensures u[j].addr <= u[k].addr {
      assert u[j] == t[if j <= i then j else j - 1];
      assert u[k] == t[if k <= i then k else k - 1];
    }
  }

  ghost function FreedWords(t: seq<Word>, lo: int, hi: int): (u: seq<Word>)
    ensures |u| == |t|
  {
    seq(|t|, i requires 0 <= i < |t| => if lo <= i < hi then t[i].(ty := FREE) else t[i])
  }

  /** What `Free` goes by: whether it stays inside, and what it leaves. */
  lemma Freeing(t: seq<Word>, base: nat, size: nat)
    requires Sorted(t)
    ensures base == 0 ==> StaysInside(t, base, size) && GivenBack(t, base, size) == t
    ensures var end := Add32(base, size); var v := Spliced(t, base); var w := Spliced(v, end);
            var u := FreedWords(w, IndexFor(t, base), IndexFor(v, end));
            && w != [] && u[|u| - 1].addr == VM_USER_CEILING
            && (base != 0 ==> GivenBack(t, base, size) == Merged(u) + [Word(VM_USER_CEILING, CEILING)])
            && (base != 0 ==> (StaysInside(t, base, size) <==>
                                 !(IndexFor(t, base) < 0 <= IndexFor(v, end)) && |w| <= NSEGMENT && |Merged(u)| < NSEGMENT))
  {
    hide Sorted, Ordered, Merged, IndexFor, Spliced;
    var v := Spliced(t, base);
    SortedSpans(t);
    SplicedSpans(t, base);
    SplicedSpans(v, Add32(base, size));
    Indexed(t, base);
    Indexed(v, Add32(base, size));
  }

  /** The table that `segment_free` leaves. */
  ghost function GivenBack(t: seq<Word>, base: nat, size: nat): seq<Word> {
    var end := Add32(base, size);
    var u := Spliced(t, base);
    if base == 0 then t
    else Merged(FreedWords(Spliced(u, end), IndexFor(t, base), IndexFor(u, end))) + [Word(VM_USER_CEILING, CEILING)]
  }

  /** The start is in user space or the end is not, and there is room for the words that are added. */
  ghost predicate StaysInside(t: seq<Word>, base: nat, size: nat) {
    var end := Add32(base, size);
    base == 0 || (
         && (VM_USER_BASE <= base <= VM_USER_CEILING || !(VM_USER_BASE <= end <= VM_USER_CEILING))
         && |Spliced(Spliced(t, base), end)| <= NSEGMENT && |GivenBack(t, base, size)| <= NSEGMENT)
  }

  /** The table with word `i` in it twice. */
  ghost function Doubled(t: seq<Word>, i: nat): seq<Word>
    requires i < |t|
  {
    t[..i + 1] + t[i..]
  }

  lemma DoubledIs(t: seq<Word>, i: nat, gap: seq<Word>)
    requires i < |t| && |gap| == 1
    ensures (t[..i + 1] + gap + t[i + 1..])[i + 1 := t[i]] == Doubled(t, i)
  {
    assert t[i..] == [t[i]] + t[i + 1..];
  }

  /** A FREE word that follows a FREE word takes its place. */
  function MergeNext(m: seq<Word>, w: Word): seq<Word> {
    if m != [] && m[|m| - 1].ty == FREE && w.ty == FREE then m[..|m| - 1] + [w] else m + [w]
  }

  function Merged(t: seq<Word>): seq<Word> {
    if t == [] then [] else MergeNext(Merged(t[..|t| - 1]), t[|t| - 1])
  }

  lemma MergedNone()
    ensures Merged([]) == []
  {
  }

  lemma MergedNext(t: seq<Word>, k: nat)
    requires k < |t|
    ensures Merged(t[..k + 1]) == MergeNext(Merged(t[..k]), t[k])
  {
    assert t[..k + 1][..k] == t[..k];
  }

  lemma MergedLast(t: seq<Word>)
    requires t != []
    ensures Merged(t) != [] && Merged(t)[|Merged(t)| - 1] == t[|t| - 1]
  {
  }

  /** Two words with the address of the ceiling. */
  lemma NeverSorted(t: seq<Word>)
    requires t != [] && t[|t| - 1].addr == VM_USER_CEILING
    ensures !Sorted(Merged(t) + [Word(VM_USER_CEILING, CEILING)])
  {
    hide Merged;
    MergedLast(t);
    var m := Merged(t);
    var u := m + [Word(VM_USER_CEILING, CEILING)];
    assert u[|m| - 1].addr == u[|m|].addr;
  }
}
