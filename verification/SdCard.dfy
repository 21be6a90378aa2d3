/**
  The SD card driver: a card of 512-byte blocks, read and written at any offset and length on
  behalf of clients, whose requests and buffers are multi-part messages. All of it goes through one
  buffer, which keeps its bytes from one chunk and one request to the next.
 */
module SdCards {
  import opened Core
  import opened MessageParts

  ghost predicate Blocks(blocks: seq<seq<Byte>>) {
    forall i :: 0 <= i < |blocks| ==> |blocks[i]| == 512
  }

  lemma {:induction false} BlockBase(blocks: seq<seq<Byte>>, i: nat)
    requires Blocks(blocks) && i <= |blocks|
    ensures Base(blocks, i) == 512 * i
  {
    if i == 0 {
      BaseEnds(blocks);
    } else {
      BlockBase(blocks, i - 1);
      FlatAround(blocks, i - 1);
    }
  }

  lemma CardSize(blocks: seq<seq<Byte>>)
    requires Blocks(blocks)
    ensures |Flat(blocks)| == 512 * |blocks|
  {
    BlockBase(blocks, |blocks|);
    BaseEnds(blocks);
  }

  /** One block of the card, read and replaced. */
  lemma BlockAt(blocks: seq<seq<Byte>>, b: nat, buf: seq<Byte>)
    requires Blocks(blocks) && b < |blocks| && |buf| == 512
    ensures |Flat(blocks)| == 512 * |blocks| && 512 * b + 512 <= 512 * |blocks|
    ensures Flat(blocks)[512 * b..512 * b + 512] == blocks[b]
    ensures Blocks(blocks[b := buf]) && Flat(blocks[b := buf]) == Splice(Flat(blocks), 512 * b, buf)
  {
    hide Flat;
    CardSize(blocks);
    BlockBase(blocks, b);
    FlatAt(blocks, b);
    SplicedPart(blocks, b, 0, buf);
    assert Splice(blocks[b], 0, buf) == buf;
  }

  /** The bytes of a request after its header. */
  ghost function Payload(msg: seq<seq<Byte>>, header: nat): seq<Byte> {
    if header <= |Flat(msg)| then Flat(msg)[header..] else []
  }

  /** What readmsg copies of it. */
  ghost function Got(msg: seq<seq<Byte>>, header: nat, n: nat): seq<Byte> {
    Payload(msg, header)[..Min(n, |Payload(msg, header)|)]
  }

  lemma GotIs(msg: seq<seq<Byte>>, n: nat, header: nat, got: seq<Byte>)
    requires msg == [] || header >= |Flat(msg)| ==> got == []
    requires msg != [] && header < |Flat(msg)| ==> got == Flat(msg)[header..header + Min(n, |Flat(msg)| - header)]
    ensures got == Got(msg, header, n)
  {
    if msg != [] && header < |Flat(msg)| {
      hide Flat;
      assert Flat(msg)[header..][..|got|] == Flat(msg)[header..header + |got|];
    }
  }

  /** What is left of the payload after `x` bytes. */
  lemma PayloadFrom(msg: seq<seq<Byte>>, header: nat, x: nat)
    ensures Rest(Payload(msg, header), x, Payload(msg, header + x))
  {
    hide Flat;
  }

  ghost predicate Rest(data: seq<Byte>, x: nat, rest: seq<Byte>) {
    |rest| == (if x <= |data| then |data| - x else 0) && forall t :: 0 <= t < |rest| ==> rest[t] == data[x + t]
  }

  // ---------------------------------------------------------------------
  // Writing.

  /** Byte `i` of a stretch of `size` at `offset` lies in a block that the stretch covers whole. */
  ghost predicate InWholeBlock(offset: nat, size: nat, i: nat) {
    var o := offset + i;
    offset <= o - o % 512 && o - o % 512 + 512 <= offset + size
  }

  /** What the buffer holds for byte `j` of the card when the chunk with `j` in it is begun. */
  ghost function Under(disk: seq<Byte>, at: nat, offset: nat, buf: seq<Byte>, j: nat): Byte
    requires offset <= at <= j < |disk| && |buf| == 512
  {
    if j - at < 512 - offset % 512 then buf[j - at] else disk[j - 512]
  }

  /**
    The card after `done` of `size` bytes have been written at `offset`, which is byte `at` of the card,
    out of a request with `data` in it, the buffer having held `buf`. Nothing outside the stretch has
    changed, and the data is there. Where the request was too short, a block that is written in part
    keeps its bytes, and one that is written whole has those of the buffer: what it held at first, and
    after that the block before.
   */
  ghost predicate Stored(disk: seq<Byte>, disk': seq<Byte>, at: nat, offset: nat, size: nat, done: nat, data: seq<Byte>,
                         buf: seq<Byte>) {
    && |disk'| == |disk| && (done > 0 ==> at + done <= |disk|) && offset <= at && |buf| == 512
    && (forall j :: 0 <= j < |disk| && !(at <= j < at + done) ==> disk'[j] == disk[j])
    && (forall i :: 0 <= i < done && i < |data| ==> disk'[at + i] == data[i])
    && (forall j :: at + |data| <= j < at + done && !InWholeBlock(offset, size, j - at) ==> disk'[j] == disk[j])
    && (forall j :: at + |data| <= j < at + done && InWholeBlock(offset, size, j - at) ==>
          disk'[j] == Under(disk', at, offset, buf, j))
  }

  lemma StoredNone(disk: seq<Byte>, at: nat, offset: nat, size: nat, data: seq<Byte>, buf: seq<Byte>)
    requires offset <= at && |buf| == 512
    ensures Stored(disk, disk, at, offset, size, 0, data, buf)
  {
  }

  lemma BlockOf(o: nat, t: nat)
    requires o % 512 + t < 512
    ensures (o + t) % 512 == o % 512 + t
  {
    var q := o / 512;
    assert o + t == 512 * q + (o % 512 + t);
  }

  /** A chunk is a whole block exactly if its bytes lie in one. */
  lemma ChunkWhole(offset: nat, size: nat, x: nat, n: nat, i: nat)
    requires x < size && n == Min(512 - (offset + x) % 512, size - x) && x <= i < x + n && (x > 0 ==> (offset + x) % 512 == 0)
    ensures InWholeBlock(offset, size, i) <==> n == 512
    ensures i < 512 - offset % 512 <==> x == 0
  {
    BlockOf(offset + x, i - x);
    if x > 0 && x < 512 - offset % 512 {
      BlockOf(offset, x);
    }
  }

  /** A buffer written over `got`, and the block at `base` replaced by it. */
  lemma ChunkBytes(disk: seq<Byte>, base: nat, under: seq<Byte>, cs: nat, got: seq<Byte>, buf: seq<Byte>)
    requires |under| == 512 && cs + |got| <= 512 && base + 512 <= |disk| && buf == Splice(under, cs, got)
    ensures |buf| == 512 && |Splice(disk, base, buf)| == |disk| && Splice(disk, base, buf)[base..base + 512] == buf
    ensures forall j :: 0 <= j < |disk| && !(base <= j < base + 512) ==> Splice(disk, base, buf)[j] == disk[j]
    ensures forall j :: base <= j < base + 512 ==>
              Splice(disk, base, buf)[j] == if cs <= j - base < cs + |got| then got[j - base - cs] else under[j - base]
  {
    forall j | base <= j < base + 512 ensures Splice(disk, base, buf)[j] == buf[j - base] {
    }
  }

  /** The state between chunks: what the buffer holds, and that the next chunk begins a block. */
  ghost predicate Between(disk: seq<Byte>, at: nat, offset: nat, x: nat, now: seq<Byte>, buf: seq<Byte>) {
    && (x == 0 ==> now == buf)
    && (x > 0 ==> (offset + x) % 512 == 0 && at + x >= 512 && at + x <= |disk| && now == disk[at + x - 512..at + x])
  }

  lemma Sizes(disk: seq<Byte>, disk1: seq<Byte>, now: seq<Byte>, at: nat, offset: nat, size: nat, x: nat, data: seq<Byte>, buf: seq<Byte>)
    requires Stored(disk, disk1, at, offset, size, x, data, buf) && Between(disk1, at, offset, x, now, buf)
    ensures |disk1| == |disk| && |now| == |buf| == 512
  {
  }

  /** One chunk. */
  lemma StoredMore(disk: seq<Byte>, disk1: seq<Byte>, now: seq<Byte>, at: nat, offset: nat, size: nat, x: nat, n: nat,
                   data: seq<Byte>, rest: seq<Byte>, buf: seq<Byte>, buf2: seq<Byte>)
    requires Stored(disk, disk1, at, offset, size, x, data, buf) && Between(disk1, at, offset, x, now, buf)
    requires x < size && n == Min(512 - (offset + x) % 512, size - x) && Rest(data, x, rest)
    requires var cs := (offset + x) % 512; at + x - cs + 512 <= |disk| && at + x >= cs
    requires var cs := (offset + x) % 512; var base := at + x - cs;
             buf2 == Splice(if n == 512 then now else disk1[base..base + 512], cs, rest[..Min(n, |rest|)])
    ensures var base := at + x - (offset + x) % 512;
            && |buf2| == 512 && Stored(disk, Splice(disk1, base, buf2), at, offset, size, x + n, data, buf)
            && (x + n < size ==> Between(Splice(disk1, base, buf2), at, offset, x + n, buf2, buf))
  {
    hide Stored, Between, Rest, Splice;
    var cs := (offset + x) % 512;
    var base := at + x - cs;
    Sizes(disk, disk1, now, at, offset, size, x, data, buf);
    var under := if n == 512 then now else disk1[base..base + 512];
    var got := rest[..Min(n, |rest|)];
    ChunkBytes(disk1, base, under, cs, got, buf2);
    var disk2 := Splice(disk1, base, buf2);
    ChunkStored(disk, disk1, disk2, now, at, offset, size, x, n, data, rest, buf, under);
    if x + n < size {
      NextChunk(disk2, at, offset, x, n, buf2, buf);
    }
  }

  lemma NextChunk(disk: seq<Byte>, at: nat, offset: nat, x: nat, n: nat, now: seq<Byte>, buf: seq<Byte>)
    requires n == 512 - (offset + x) % 512
    requires var base := at + x - (offset + x) % 512; 0 <= base && base + 512 <= |disk| && disk[base..base + 512] == now
    ensures Between(disk, at, offset, x + n, now, buf)
  {
    var o := offset + x;
    var q := o / 512;
    assert o + n == 512 * (q + 1);
  }

  lemma ChunkStored(disk: seq<Byte>, disk1: seq<Byte>, disk2: seq<Byte>, now: seq<Byte>, at: nat, offset: nat, size: nat,
                    x: nat, n: nat, data: seq<Byte>, rest: seq<Byte>, buf: seq<Byte>, under: seq<Byte>)
    requires Stored(disk, disk1, at, offset, size, x, data, buf) && Between(disk1, at, offset, x, now, buf)
    requires x < size && n == Min(512 - (offset + x) % 512, size - x) && Rest(data, x, rest) && |disk2| == |disk|
    requires var cs := (offset + x) % 512; at + x - cs + 512 <= |disk| && at + x >= cs && |under| == 512
    requires var base := at + x - (offset + x) % 512; under == if n == 512 then now else disk1[base..base + 512]
    requires var cs := (offset + x) % 512; var base, got := at + x - cs, Min(n, |rest|);
             && (forall j :: 0 <= j < |disk| && !(base <= j < base + 512) ==> disk2[j] == disk1[j])
             && (forall j :: base <= j < base + 512 ==>
                   disk2[j] == if cs <= j - base < cs + got then rest[j - base - cs] else under[j - base])
    ensures Stored(disk, disk2, at, offset, size, x + n, data, buf)
  {
    hide InWholeBlock;
    var cs := (offset + x) % 512;
    var base := at + x - cs;
    forall j | 0 <= j < |disk| && !(at + x <= j < at + x + n) ensures disk2[j] == disk1[j] {
      if base <= j < base + 512 {
        assert n != 512 && under[j - base] == disk1[j];
      }
    }
    forall i | 0 <= i < x + n && i < |data| ensures disk2[at + i] == data[i] {
      if i >= x {
        assert rest[i - x] == data[x + (i - x)];
      } else {
        assert disk2[at + i] == disk1[at + i];
      }
    }
    forall j | at + |data| <= j < at + x + n
      ensures !InWholeBlock(offset, size, j - at) ==> disk2[j] == disk[j]
      ensures InWholeBlock(offset, size, j - at) ==> disk2[j] == Under(disk2, at, offset, buf, j) {
      if j >= at + x {
        ChunkWhole(offset, size, x, n, j - at);
        assert disk2[j] == under[j - base];
        if n == 512 && x > 0 {
          assert now[j - base] == disk1[base - 512 + (j - base)];
          assert disk2[j - 512] == disk1[j - 512];
        }
      } else {
        EarlierByte(disk, disk1, disk2, at, offset, size, x, data, buf, j);
      }
    }
  }

  /** What was so before the chunk still is. */
  lemma EarlierByte(disk: seq<Byte>, disk1: seq<Byte>, disk2: seq<Byte>, at: nat, offset: nat, size: nat, x: nat, data: seq<Byte>,
                    buf: seq<Byte>, j: nat)
    requires Stored(disk, disk1, at, offset, size, x, data, buf) && |disk2| == |disk1| && at + |data| <= j < at + x
    requires forall k :: 0 <= k < at + x ==> disk2[k] == disk1[k]
    ensures !InWholeBlock(offset, size, j - at) ==> disk2[j] == disk[j]
    ensures InWholeBlock(offset, size, j - at) ==> disk2[j] == Under(disk2, at, offset, buf, j)
  {
    hide InWholeBlock;
    assert disk2[j] == disk1[j] && (j >= 512 ==> disk2[j - 512] == disk1[j - 512]);
  }

  /** How much of `x` bytes from `at` on lies on a card of `size` bytes. */
  function OnCard(size: nat, at: nat, x: nat): nat {
    if at + x <= size then x else if at <= size then size - at else 0
  }

  /** The bytes of the stretch that the request did not hold are as they were. */
  ghost predicate KeepsRest(disk: seq<Byte>, disk': seq<Byte>, at: nat, done: nat, data: seq<Byte>) {
    |disk'| == |disk| && forall j :: at + |data| <= j < at + done && j < |disk| ==> disk'[j] == disk[j]
  }

  /** Byte `j` of a whole block that the request does not reach is what the buffer is going to hold for it anyway. */
  ghost predicate SameUnder(disk: seq<Byte>, at: nat, offset: nat, data: seq<Byte>, buf: seq<Byte>, j: nat)
    requires offset <= at <= j < |disk| && |buf| == 512
  {
    if j - at < 512 - offset % 512 then disk[j] == buf[j - at]
    else if at <= j - 512 < at + |data| then disk[j] == data[j - 512 - at]
    else disk[j] == disk[j - 512]
  }

  ghost predicate MayKeep(disk: seq<Byte>, at: nat, offset: nat, size: nat, done: nat, data: seq<Byte>, buf: seq<Byte>)
    requires offset <= at && |buf| == 512
  {
    forall j :: at + |data| <= j < at + done && j < |disk| && InWholeBlock(offset, size, j - at) ==>
      SameUnder(disk, at, offset, data, buf, j)
  }

  /** A short write keeps the bytes that it does not hold exactly if the blocks written whole happen to have them. */
  lemma KeptExactly(disk: seq<Byte>, disk': seq<Byte>, at: nat, offset: nat, size: nat, done: nat, data: seq<Byte>, buf: seq<Byte>)
    requires Stored(disk, disk', at, offset, size, done, data, buf)
    ensures KeepsRest(disk, disk', at, done, data) <==> MayKeep(disk, at, offset, size, done, data, buf)
  {
    hide InWholeBlock, SameUnder;
    if KeepsRest(disk, disk', at, done, data) {
      forall j | at + |data| <= j < at + done && j < |disk| && InWholeBlock(offset, size, j - at)
        ensures SameUnder(disk, at, offset, data, buf, j) {
        UnderIs(disk, disk', at, offset, size, done, data, buf, j);
      }
    }
    if MayKeep(disk, at, offset, size, done, data, buf) {
      forall j | at + |data| <= j < at + done && j < |disk| ensures disk'[j] == disk[j] {
        KeptByte(disk, disk', at, offset, size, done, data, buf, j);
      }
    }
  }

  /** If the bytes before `j` were kept, so is `j` exactly under the condition. */
  lemma UnderIs(disk: seq<Byte>, disk': seq<Byte>, at: nat, offset: nat, size: nat, done: nat, data: seq<Byte>, buf: seq<Byte>, j: nat)
    requires Stored(disk, disk', at, offset, size, done, data, buf)
    requires at + |data| <= j < at + done && InWholeBlock(offset, size, j - at)
    requires j >= 512 && at + |data| <= j - 512 ==> disk'[j - 512] == disk[j - 512]
    ensures disk'[j] == disk[j] <==> SameUnder(disk, at, offset, data, buf, j)
  {
    hide InWholeBlock;
    assert disk'[j] == Under(disk', at, offset, buf, j);
    if at <= j - 512 < at + |data| {
      assert disk'[at + (j - 512 - at)] == data[j - 512 - at];
    }
  }

  lemma {:induction false} KeptByte(disk: seq<Byte>, disk': seq<Byte>, at: nat, offset: nat, size: nat, done: nat,
                                    data: seq<Byte>, buf: seq<Byte>, j: nat)
    requires Stored(disk, disk', at, offset, size, done, data, buf)
    requires MayKeep(disk, at, offset, size, done, data, buf) && at + |data| <= j < at + done
    ensures disk'[j] == disk[j]
    decreases j
  {
    hide InWholeBlock, SameUnder;
    if InWholeBlock(offset, size, j - at) {
      if j >= 512 && at + |data| <= j - 512 {
        KeptByte(disk, disk', at, offset, size, done, data, buf, j - 512);
      }
      UnderIs(disk, disk', at, offset, size, done, data, buf, j);
    }
  }

  // ---------------------------------------------------------------------
  // Reading.

  /** What is left in the buffer when the card comes to its end. */
  ghost function Leftover(disk: seq<Byte>, at: nat, buf: seq<Byte>): seq<Byte>
    requires |disk| >= 512 || at >= |disk|
  {
    if at < |disk| then disk[|disk| - 512..] else buf
  }

  /** Byte `i` of a read: of the card, or past its end of what was left in the buffer. */
  ghost function ReadByte(disk: seq<Byte>, at: nat, offset: nat, buf: seq<Byte>, i: nat): Byte
    requires |buf| == 512 && (|disk| >= 512 || at >= |disk|)
  {
    if at + i < |disk| then disk[at + i] else Leftover(disk, at, buf)[(offset + i) % 512]
  }

  ghost predicate ReadFrom(data: seq<Byte>, disk: seq<Byte>, at: nat, offset: nat, buf: seq<Byte>, from: nat)
    requires |buf| == 512 && (|disk| >= 512 || at >= |disk|)
  {
    forall t :: 0 <= t < |data| ==> data[t] == ReadByte(disk, at, offset, buf, from + t)
  }

  /** One chunk of a read, out of the block at `base` or out of what the buffer held. */
  lemma ChunkRead(disk: seq<Byte>, at: nat, offset: nat, buf: seq<Byte>, x: nat, n: nat, now: seq<Byte>, now': seq<Byte>)
    requires |buf| == |now| == 512 && |disk| % 512 == 0 && offset <= at && at % 512 == offset % 512
    requires |disk| >= 512 || at >= |disk|
    requires 0 < n <= 512 - (offset + x) % 512 && (at + x >= |disk| ==> now == Leftover(disk, at, buf))
    requires var base := at + x - (offset + x) % 512;
             base >= 0 && now' == if at + x < |disk| && base + 512 <= |disk| then disk[base..base + 512] else now
    ensures var cs := (offset + x) % 512;
            |now'| == 512 && ReadFrom(now'[cs..cs + n], disk, at, offset, buf, x)
            && (at + x + n >= |disk| ==> now' == Leftover(disk, at, buf))
  {
    var cs := (offset + x) % 512;
    var base := at + x - cs;
    assert base % 512 == 0 by { SameRest(at, offset, x); }
    if at + x < |disk| {
      WholeBlocks(base, |disk|);
    }
    var chunk := now'[cs..cs + n];
    forall t | 0 <= t < n ensures chunk[t] == ReadByte(disk, at, offset, buf, x + t) {
      BlockOf(offset + x, t);
      assert chunk[t] == now'[cs + t];
      assert offset + (x + t) == offset + x + t && at + (x + t) == base + (cs + t);
    }
  }

  lemma SameRest(at: nat, offset: nat, x: nat)
    requires at % 512 == offset % 512
    ensures (at + x) % 512 == (offset + x) % 512 && (at + x - (offset + x) % 512) % 512 == 0
  {
    var q, r := at / 512, offset / 512;
    assert at + x == offset + x + 512 * (q - r);
  }

  lemma WholeBlocks(base: nat, size: nat)
    requires base % 512 == 0 && size % 512 == 0 && base < size
    ensures base + 512 <= size
  {
  }

  // ---------------------------------------------------------------------

  class SdCard {
    var blocks: seq<seq<Byte>>
    var buf: seq<Byte>

    ghost predicate Valid()
      reads this
    {
      Blocks(blocks) && |buf| == 512
    }

    constructor (blocks: seq<seq<Byte>>, buf: seq<Byte>)
      requires Blocks(blocks) && |buf| == 512
      ensures Valid() && this.blocks == blocks && this.buf == buf
    {
      this.blocks, this.buf := blocks, buf;
    }

    /** `sd_read`: a block that is not on the card cannot be read, and the buffer keeps what it has. */
    method ReadBlock(b: nat)
      requires Valid()
      modifies `buf
      ensures Valid() && buf == if b < |blocks| then blocks[b] else old(buf)
    {
      if b < |blocks| {
        buf := blocks[b];
      }
    }

    /** `sd_write`: a block that is not on the card cannot be written. */
    method WriteBlock(b: nat)
      requires Valid()
      modifies `blocks
      ensures Valid() && blocks == if b < |old(blocks)| then old(blocks)[b := buf] else old(blocks)
    {
      if b < |blocks| {
        blocks := blocks[b := buf];
      }
    }

    /**
      Copy `size` bytes from `offset` of the unit that starts at block `start` to the reply buffers, as
      far as they go. Past the end of the card the bytes are those left in the buffer.
     */
    method Read(start: nat, offset: nat, size: nat, msg: Message) returns (xfered: nat)
      requires Valid()
      modifies msg`reply, `buf
      ensures Valid() && xfered == size && |Flat(msg.reply)| == |Flat(old(msg.reply))| && |Flat(blocks)| == 512 * |blocks|
      ensures forall i :: 0 <= i < |Flat(msg.reply)| ==>
                Flat(msg.reply)[i] == if i < size then ReadByte(Flat(blocks), 512 * start + offset, offset, old(buf), i)
                                      else Flat(old(msg.reply))[i]
    {
      hide Flat, ReadByte, Leftover, Blocks;
      xfered := 0;
      CardSize(blocks);
      ghost var at, disk, was := 512 * start + offset, Flat(blocks), Flat(msg.reply);
      LeftoverFirst(disk, at, buf);
      while xfered < size
        invariant Valid() && xfered <= size && |Flat(msg.reply)| == |was|
        invariant at + xfered >= |disk| ==> buf == Leftover(disk, at, old(buf))
        invariant ReadUpto(disk, at, offset, old(buf), was, Flat(msg.reply), xfered)
      {
        var chunk := BlockRead(start, offset, xfered, size - xfered, disk, old(buf));
        ghost var now := Flat(msg.reply);
        BaseEnds(msg.reply);
        var r, _ := msg.Write(chunk, xfered, {});
        ReadMore(disk, at, offset, old(buf), was, now, Flat(msg.reply), xfered, chunk);
        xfered := xfered + |chunk|;
      }
    }

    /** The wanted bytes of the block that byte `x` of the stretch is in. */
    method BlockRead(start: nat, offset: nat, x: nat, remaining: nat, ghost disk: seq<Byte>, ghost first: seq<Byte>)
      returns (chunk: seq<Byte>)
      requires Valid() && remaining > 0 && disk == Flat(blocks) && |disk| == 512 * |blocks| && |first| == 512
      requires 512 * start + offset + x >= |disk| ==> buf == Leftover(disk, 512 * start + offset, first)
      modifies `buf
      ensures Valid() && 0 < |chunk| <= remaining && ReadFrom(chunk, disk, 512 * start + offset, offset, first, x)
      ensures 512 * start + offset + x + |chunk| >= |disk| ==> buf == Leftover(disk, 512 * start + offset, first)
    {
      hide Flat, ReadByte, Leftover, Blocks, ReadFrom;
      var blockNo, chunkStart := start + (offset + x) / 512, (offset + x) % 512;
      ghost var now, at := buf, 512 * start + offset;
      if blockNo < |blocks| { BlockAt(blocks, blockNo, buf); }
      ReadBlock(blockNo);
      var n := Min(512 - chunkStart, remaining);
      assert at + x - chunkStart == 512 * blockNo;
      ChunkRead(disk, at, offset, first, x, n, now, buf);
      chunk := buf[chunkStart..chunkStart + n];
    }

    /**
      Put `size` bytes of a request, after its header of `header` bytes, at `offset` of the unit that
      starts at block `start`. A request may hold fewer bytes than it announces, and a card may end
      before the stretch does.
     */
    method Write(start: nat, offset: nat, size: nat, msg: Message, header: nat) returns (xfered: nat)
      requires Valid()
      modifies this
      ensures Valid() && |blocks| == |old(blocks)| && xfered == size
      ensures var at, done := 512 * start + offset, OnCard(512 * |old(blocks)|, 512 * start + offset, size);
              var data := Payload(msg.send, header);
              && Stored(Flat(old(blocks)), Flat(blocks), at, offset, size, done, data, old(buf))
              && (KeepsRest(Flat(old(blocks)), Flat(blocks), at, done, data) <==>
                    MayKeep(Flat(old(blocks)), at, offset, size, done, data, old(buf)))
    {
      hide Flat, Splice, Blocks, Stored, Payload, Min, Between, Got, KeepsRest, MayKeep, Rest;
      xfered := 0;
      ghost var at, data := 512 * start + offset, Payload(msg.send, header);
      ghost var disk0 := Flat(blocks);
      CardSize(blocks);
      StoredNone(disk0, at, offset, size, data, buf);
      BetweenFirst(disk0, at, offset, buf);
      while xfered < size
        invariant xfered <= size && Valid() && |blocks| == |old(blocks)|
        invariant Stored(disk0, Flat(blocks), at, offset, size, OnCard(|disk0|, at, xfered), data, old(buf))
        invariant xfered < size && at + xfered < |disk0| ==> Between(Flat(blocks), at, offset, xfered, buf, old(buf))
      {
        var n := Min(512 - (offset + xfered) % 512, size - xfered);
        MinIs(512 - (offset + xfered) % 512, size - xfered);
        PayloadFrom(msg.send, header, xfered);
        ghost var now, was := buf, blocks;
        WriteChunk(start, offset + xfered, n, msg, header + xfered);
        ChunkDone(disk0, was, blocks, now, buf, start, offset, size, xfered, n, data, Payload(msg.send, header + xfered), old(buf));
        xfered := xfered + n;
      }
      KeptExactly(disk0, Flat(blocks), at, offset, size, OnCard(|disk0|, at, size), data, old(buf));
    }

    /** One chunk, of at most a block: the block is read first unless all of it is to be written. */
    method WriteChunk(start: nat, offset: nat, n: nat, msg: Message, header: nat)
      requires Valid() && 0 < n <= 512 - offset % 512
      modifies this
      ensures Valid() && Chunked(old(blocks), old(buf), blocks, buf, start + offset / 512, offset % 512, n, Payload(msg.send, header))
    {
      hide Flat, Splice, Payload;
      var blockNo, chunkStart := start + offset / 512, offset % 512;
      if n != 512 {
        ReadBlock(blockNo);
      }
      var r := msg.Read(n, header);
      var got := if r.Ok? then r.value else [];
      GotIs(msg.send, n, header, got);
      SpliceSize(buf, chunkStart, got);
      buf := Splice(buf, chunkStart, got);
      WriteBlock(blockNo);
    }
  }

  /** A chunk of `n` bytes at `cs` of block `b`, out of a request with `rest` left. */
  ghost predicate Chunked(blocks: seq<seq<Byte>>, buf: seq<Byte>, blocks': seq<seq<Byte>>, buf': seq<Byte>, b: nat, cs: nat, n: nat,
                          rest: seq<Byte>) {
    var under := if n != 512 && b < |blocks| then blocks[b] else buf;
    && cs + n <= |under|
    && buf' == Splice(under, cs, rest[..Min(n, |rest|)])
    && blocks' == if b < |blocks| then blocks[b := buf'] else blocks
  }

  lemma MinIs(a: nat, b: nat)
    ensures Min(a, b) == if a < b then a else b
  {
  }

  lemma BetweenFirst(disk: seq<Byte>, at: nat, offset: nat, buf: seq<Byte>)
    ensures Between(disk, at, offset, 0, buf, buf)
  {
  }

  lemma LeftoverFirst(disk: seq<Byte>, at: nat, buf: seq<Byte>)
    ensures at >= |disk| ==> Leftover(disk, at, buf) == buf
  {
  }

  /** One chunk of a write, on the card or past its end. */
  lemma ChunkDone(disk: seq<Byte>, was: seq<seq<Byte>>, blocks: seq<seq<Byte>>, now: seq<Byte>, now': seq<Byte>, start: nat, offset: nat,
                  size: nat, x: nat, n: nat, data: seq<Byte>, rest: seq<Byte>, buf: seq<Byte>)
    requires Blocks(was) && |disk| == 512 * |was| && |now| == 512
    requires var at := 512 * start + offset;
             && Stored(disk, Flat(was), at, offset, size, OnCard(|disk|, at, x), data, buf)
             && (at + x < |disk| ==> Between(Flat(was), at, offset, x, now, buf))
    requires x < size && n == Min(512 - (offset + x) % 512, size - x) && Rest(data, x, rest)
    requires Chunked(was, now, blocks, now', start + (offset + x) / 512, (offset + x) % 512, n, rest)
    ensures var at := 512 * start + offset;
            && Stored(disk, Flat(blocks), at, offset, size, OnCard(|disk|, at, x + n), data, buf)
            && (x + n < size && at + x + n < |disk| ==> Between(Flat(blocks), at, offset, x + n, now', buf))
  {
    hide Flat, Splice, Blocks, Stored, Between, Rest;
    var at, b, cs := 512 * start + offset, start + (offset + x) / 512, (offset + x) % 512;
    assert at + x == 512 * b + cs;
    if b < |was| {
      BlockAt(was, b, now);
      StoredMore(disk, Flat(was), now, at, offset, size, x, n, data, rest, buf, now');
      BlockAt(was, b, now');
    } else {
      assert at + x >= |disk|;
    }
  }

  /** The first `x` bytes of the reply buffers have been filled. */
  ghost predicate ReadUpto(disk: seq<Byte>, at: nat, offset: nat, buf: seq<Byte>, was: seq<Byte>, now: seq<Byte>, x: nat)
    requires |buf| == 512 && (|disk| >= 512 || at >= |disk|)
  {
    |now| == |was| && forall i :: 0 <= i < |now| ==> now[i] == if i < x then ReadByte(disk, at, offset, buf, i) else was[i]
  }

  lemma ReadMore(disk: seq<Byte>, at: nat, offset: nat, buf: seq<Byte>, was: seq<Byte>, now: seq<Byte>, now': seq<Byte>, x: nat,
                 chunk: seq<Byte>)
    requires |buf| == 512 && (|disk| >= 512 || at >= |disk|) && ReadUpto(disk, at, offset, buf, was, now, x)
    requires ReadFrom(chunk, disk, at, offset, buf, x)
    requires x >= |now| ==> now' == now
    requires x < |now| ==> now' == Splice(now, x, chunk[..Min(|chunk|, |now| - x)])
    ensures ReadUpto(disk, at, offset, buf, was, now', x + |chunk|)
  {
    hide ReadByte;
    forall i | 0 <= i < |now'| ensures now'[i] == if i < x + |chunk| then ReadByte(disk, at, offset, buf, i) else was[i] {
      if x <= i < x + |chunk| && x < |now| {
        assert now'[i] == chunk[i - x];
        assert ReadByte(disk, at, offset, buf, x + (i - x)) == chunk[i - x];
      }
    }
  }

  /** What is written is what is read back, and nothing else has changed. */
  lemma ReadAfterWrite(disk: seq<Byte>, at: nat, data: seq<Byte>)
    requires at + |data| <= |disk|
    ensures var disk' := Splice(disk, at, data);
            && |disk'| == |disk| && disk'[at..at + |data|] == data
            && forall i :: 0 <= i < |disk| && !(at <= i < at + |data|) ==> disk'[i] == disk[i]
  {
  }

  /** A request that holds what it announces is stored whole, and nothing else changes. */
  lemma StoredWhole(disk: seq<Byte>, disk': seq<Byte>, at: nat, offset: nat, size: nat, data: seq<Byte>, buf: seq<Byte>)
    requires Stored(disk, disk', at, offset, size, size, data, buf) && size <= |data| && at + size <= |disk|
    ensures disk' == Splice(disk, at, data[..size]) && disk'[at..at + size] == data[..size]
  {
    hide InWholeBlock;
    ReadAfterWrite(disk, at, data[..size]);
    forall j | 0 <= j < |disk| ensures disk'[j] == Splice(disk, at, data[..size])[j] {
      if at <= j < at + size {
        assert disk'[at + (j - at)] == data[j - at];
      }
    }
  }

  /** A client's write followed by a read of the same stretch, through the driver. */
  method WriteThenRead(card: SdCard, start: nat, offset: nat, size: nat, header: nat, put: Message, get: Message)
    requires card.Valid() && 512 * start + offset + size <= 512 * |card.blocks|
    requires header + size <= |Flat(put.send)| && size <= |Flat(get.reply)|
    modifies card, get`reply
    ensures |Flat(get.reply)| == |Flat(old(get.reply))| && Flat(get.reply)[..size] == Flat(put.send)[header..header + size]
  {
    hide Flat, Splice, Blocks, Stored, Payload, KeepsRest, MayKeep, Leftover;
    ghost var disk, at, data, buf := Flat(card.blocks), 512 * start + offset, Payload(put.send, header), card.buf;
    CardSize(card.blocks);
    PayloadIs(put.send, header, size);
    var n := card.Write(start, offset, size, put, header);
    StoredWhole(disk, Flat(card.blocks), at, offset, size, data, buf);
    CardSize(card.blocks);
    var m := card.Read(start, offset, size, get);
    ghost var got, disk' := Flat(get.reply), Flat(card.blocks);
    forall i | 0 <= i < size ensures got[i] == data[..size][i] {
      assert disk'[at..at + size][i] == disk'[at + i];
    }
    assert got[..size] == data[..size];
  }

  lemma PayloadIs(msg: seq<seq<Byte>>, header: nat, size: nat)
    requires header + size <= |Flat(msg)|
    ensures size <= |Payload(msg, header)| && Payload(msg, header)[..size] == Flat(msg)[header..header + size]
  {
    hide Flat;
  }

  /** A write of one block by a request that is too short for it: the rest of the block is what the buffer held. */
  method StaleBlock(card: SdCard, start: nat, msg: Message, header: nat)
    requires card.Valid() && start < |card.blocks| && |Payload(msg.send, header)| <= 512
    modifies card
    ensures var data := Payload(msg.send, header);
            card.Valid() && card.blocks == old(card.blocks)[start := data + old(card.buf)[|data|..]]
  {
    hide Flat, Splice, Blocks, Stored, Payload, KeepsRest, MayKeep;
    ghost var blocks, data, buf := card.blocks, Payload(msg.send, header), card.buf;
    BlockAt(blocks, start, data + buf[|data|..]);
    var n := card.Write(start, 0, 512, msg, header);
    StaleBytes(Flat(blocks), Flat(card.blocks), 512 * start, data, buf);
    SameBlocks(card.blocks, blocks[start := data + buf[|data|..]]);
  }

  lemma StaleBytes(disk: seq<Byte>, disk': seq<Byte>, at: nat, data: seq<Byte>, buf: seq<Byte>)
    requires at + 512 <= |disk| && |data| <= 512 && Stored(disk, disk', at, 0, 512, 512, data, buf)
    ensures disk' == Splice(disk, at, data + buf[|data|..])
  {
    forall j | 0 <= j < |disk| ensures disk'[j] == Splice(disk, at, data + buf[|data|..])[j] {
      if at <= j < at + |data| {
        assert disk'[at + (j - at)] == data[j - at];
      } else if at <= j < at + 512 {
        assert InWholeBlock(0, 512, j - at);
      }
    }
  }

  lemma SameBlocks(a: seq<seq<Byte>>, b: seq<seq<Byte>>)
    requires Blocks(a) && Blocks(b) && |a| == |b| && Flat(a) == Flat(b)
    ensures a == b
  {
    hide Flat, Blocks;
    forall i | 0 <= i < |a| ensures a[i] == b[i] {
      BlockIs(a, i);
      BlockIs(b, i);
    }
  }

  lemma BlockIs(a: seq<seq<Byte>>, i: nat)
    requires Blocks(a) && i < |a|
    ensures |a[i]| == 512 && 512 * i + 512 <= |Flat(a)| && Flat(a)[512 * i..512 * i + 512] == a[i]
  {
    BlockAt(a, i, a[i]);
  }
}
