/**
  Multi-part messages: a message is a list of buffers of any sizes, read and written as if it were
  one string of bytes.
 */
module MessageParts {
  import opened Core

  function Flat(parts: seq<seq<Byte>>): seq<Byte> {
    if parts == [] then [] else parts[0] + Flat(parts[1..])
  }

  /** The bytes before part `i`. */
  function Base(parts: seq<seq<Byte>>, i: nat): nat
    requires i <= |parts|
  {
    |Flat(parts[..i])|
  }

  /** `s` with `d` written over it from `at` on. */
  function Splice(s: seq<Byte>, at: nat, d: seq<Byte>): seq<Byte>
    requires at + |d| <= |s|
  {
    s[..at] + d + s[at + |d|..]
  }

  function Min(a: nat, b: nat): nat {
    if a < b then a else b
  }

  lemma {:induction false} FlatSplit(a: seq<seq<Byte>>, b: seq<seq<Byte>>)
    ensures Flat(a + b) == Flat(a) + Flat(b)
  {
    if a == [] {
      assert a + b == b;
    } else {
      assert (a + b)[1..] == a[1..] + b;
      FlatSplit(a[1..], b);
    }
  }

  lemma FlatAround(parts: seq<seq<Byte>>, i: nat)
    requires i < |parts|
    ensures Flat(parts) == Flat(parts[..i]) + parts[i] + Flat(parts[i + 1..])
    ensures Base(parts, i + 1) == Base(parts, i) + |parts[i]|
  {
    assert parts == parts[..i] + parts[i..];
    FlatSplit(parts[..i], parts[i..]);
    assert parts[i..][1..] == parts[i + 1..];
    assert parts[..i + 1] == parts[..i] + [parts[i]];
    FlatSplit(parts[..i], [parts[i]]);
  }

  /** Where part `i` lies. */
  lemma FlatAt(parts: seq<seq<Byte>>, i: nat)
    requires i < |parts|
    ensures Base(parts, i + 1) == Base(parts, i) + |parts[i]| <= |Flat(parts)|
    ensures Flat(parts)[Base(parts, i)..Base(parts, i + 1)] == parts[i]
    ensures Flat(parts) == Flat(parts[..i]) + parts[i] + Flat(parts[i + 1..])
  {
    hide Flat;
    FlatAround(parts, i);
  }

  lemma BaseEnds(parts: seq<seq<Byte>>)
    ensures Base(parts, 0) == 0 && Base(parts, |parts|) == |Flat(parts)|
  {
    assert parts[..|parts|] == parts;
  }

  /** Writing inside one part writes inside the whole. */
  lemma SplicedPart(parts: seq<seq<Byte>>, i: nat, at: nat, d: seq<Byte>)
    requires i < |parts| && at + |d| <= |parts[i]|
    ensures Base(parts, i) + at + |d| <= |Flat(parts)|
    ensures Flat(parts[i := Splice(parts[i], at, d)]) == Splice(Flat(parts), Base(parts, i) + at, d)
    ensures forall k :: 0 <= k <= |parts| ==> Base(parts[i := Splice(parts[i], at, d)], k) == Base(parts, k)
  {
    hide Flat;
    var parts' := parts[i := Splice(parts[i], at, d)];
    FlatAround(parts, i);
    FlatAround(parts', i);
    assert parts'[..i] == parts[..i] && parts'[i + 1..] == parts[i + 1..];
    SpliceInside(Flat(parts[..i]), parts[i], Flat(parts[i + 1..]), at, d);
    BasesSame(parts, parts');
  }

  lemma SpliceInside(pre: seq<Byte>, s: seq<Byte>, post: seq<Byte>, at: nat, d: seq<Byte>)
    requires at + |d| <= |s|
    ensures Splice(pre + s + post, |pre| + at, d) == pre + Splice(s, at, d) + post
  {
  }

  lemma BasesSame(a: seq<seq<Byte>>, b: seq<seq<Byte>>)
    requires |a| == |b| && forall k :: 0 <= k < |a| ==> |a[k]| == |b[k]|
    ensures forall k :: 0 <= k <= |a| ==> Base(a, k) == Base(b, k)
  {
    forall k | 0 <= k <= |a| ensures Base(a, k) == Base(b, k) {
      SameLength(a[..k], b[..k]);
    }
  }

  lemma {:induction false} SameLength(a: seq<seq<Byte>>, b: seq<seq<Byte>>)
    requires |a| == |b| && forall k :: 0 <= k < |a| ==> |a[k]| == |b[k]|
    ensures |Flat(a)| == |Flat(b)|
  {
    if a != [] {
      SameLength(a[1..], b[1..]);
    }
  }

  /** Two writes that follow each other are one. */
  lemma SpliceTwice(s: seq<Byte>, at: nat, d: seq<Byte>, e: seq<Byte>)
    requires at + |d| + |e| <= |s|
    ensures |Splice(s, at, d)| == |s| && Splice(Splice(s, at, d), at + |d|, e) == Splice(s, at, d + e)
  {
  }

  /** Two stretches that follow each other are one. */
  lemma SliceTwice(s: seq<Byte>, at: nat, n: nat, m: nat)
    requires at + n + m <= |s|
    ensures s[at..at + n] + s[at + n..at + n + m] == s[at..at + n + m]
  {
  }

  /** The first part from `first` on that cannot be written to, or the end. */
  function FirstBad(count: nat, first: nat, bad: set<nat>): (b: nat)
    requires first <= count
    ensures first <= b <= count && (b < count ==> b in bad) && forall k :: first <= k < b ==> k !in bad
    decreases count - first
  {
    if first == count || first in bad then first else FirstBad(count, first + 1, bad)
  }

  /** The bytes from `offset` up to part `b`. */
  ghost function Reach(parts: seq<seq<Byte>>, offset: nat, b: nat): nat
    requires b <= |parts|
  {
    if Base(parts, b) <= offset then 0 else Base(parts, b) - offset
  }

  lemma {:induction false} BaseGrows(parts: seq<seq<Byte>>, i: nat, j: nat)
    requires i <= j <= |parts|
    ensures Base(parts, i) <= Base(parts, j) <= |Flat(parts)|
    decreases j - i
  {
    hide Flat;
    BaseEnds(parts);
    if i < j {
      FlatAt(parts, i);
      BaseGrows(parts, i + 1, j);
    } else if j < |parts| {
      FlatAt(parts, j);
    }
  }

  /** Part `i` and the bytes left in it from `offset` on, if the offset is in the message at all. */
  method SeekIov(parts: seq<seq<Byte>>, offset: int) returns (i: nat, remaining: nat, found: bool)
    ensures found <==> 0 <= offset < |Flat(parts)|
    ensures found ==> i < |parts| && 0 < remaining <= |parts[i]| && Base(parts, i) + |parts[i]| - remaining == offset
  {
    hide Flat;
    BaseEnds(parts);
    var base := 0;
    i, remaining, found := 0, 0, false;
    while i < |parts|
      invariant i <= |parts| && base == Base(parts, i) && (offset >= 0 ==> base <= offset)
    {
      FlatAt(parts, i);
      if base <= offset < base + |parts[i]| {
        return i, base + |parts[i]| - offset, true;
      }
      base := base + |parts[i]|;
      i := i + 1;
    }
  }

  /** The buffers a client sent, and those it gave for the reply. */
  class Message {
    var send: seq<seq<Byte>>
    var reply: seq<seq<Byte>>

    constructor (send: seq<seq<Byte>>, reply: seq<seq<Byte>>)
      ensures this.send == send && this.reply == reply
    {
      this.send, this.reply := send, reply;
    }

    /** A stretch of the sent bytes, as long as the buffer of `size` and the message allow. */
    method Read(size: nat, offset: int) returns (r: Result<seq<Byte>>)
      ensures r.Err? <==> send != [] && !(0 <= offset < |Flat(send)|)
      ensures r.Err? ==> r.error == EINVAL
      ensures r.Ok? && send == [] ==> r.value == []
      ensures r.Ok? && send != [] ==> r.value == Flat(send)[offset..offset + Min(size, |Flat(send)| - offset)]
    {
      hide Flat;
      if send == [] {
        return Ok([]);
      }
      var i, left, found := SeekIov(send, offset);
      if !found {
        return Err(EINVAL);
      }
      var data := [];
      BaseEnds(send);
      while i < |send| && |data| < size
        invariant i <= |send| && |data| <= size
        invariant i < |send| && |data| < size ==> 0 <= left <= |send[i]|
        invariant i < |send| && |data| < size ==> offset + |data| == Base(send, i) + |send[i]| - left
        invariant i == |send| ==> offset + |data| == |Flat(send)| || |data| == size
        invariant offset + |data| <= |Flat(send)| && data == Flat(send)[offset..offset + |data|]
      {
        FlatAt(send, i);
        var n := Min(size - |data|, left);
        var at := |send[i]| - left;
        ReadStep(send, i, at, n, offset, data);
        data := data + send[i][at..at + n];
        i := i + 1;
        left := if i < |send| then |send[i]| else 0;
      }
      return Ok(data);
    }

    /** The bytes from the start of the message. */
    method Get(size: nat) returns (data: seq<Byte>)
      ensures data == Flat(send)[..Min(size, |Flat(send)|)]
    {
      hide Flat;
      data := [];
      BaseEnds(send);
      var i := 0;
      while i < |send| && |data| < size
        invariant i <= |send| && |data| <= size
        invariant |data| < size ==> |data| == Base(send, i)
        invariant |data| <= |Flat(send)| && data == Flat(send)[..|data|]
      {
        FlatAt(send, i);
        var n := Min(|send[i]|, size - |data|);
        PartSlice(send, i, 0, n);
        SliceTwice(Flat(send), 0, |data|, n);
        assert send[i][0..n] == send[i][..n];
        data := data + send[i][..n];
        i := i + 1;
      }
    }

    /** Write to the reply buffers from `offset` on; a part in `bad` cannot be written to and ends the write. */
    method Write(data: seq<Byte>, offset: int, bad: set<nat>) returns (r: Result<nat>, ghost first: nat)
      modifies `reply
      ensures r.Err? <==> old(reply) != [] && !(0 <= offset < |Flat(old(reply))|)
      ensures r.Err? ==> r.error == EINVAL && reply == old(reply)
      ensures r.Ok? && old(reply) == [] ==> r.value == 0 && reply == []
      ensures r.Ok? && old(reply) != [] ==>
                first < |old(reply)| && Base(old(reply), first) <= offset < Base(old(reply), first + 1)
      ensures r.Ok? && old(reply) != [] ==>
                r.value == Min(|data|, Reach(old(reply), offset, FirstBad(|old(reply)|, first, bad)))
      ensures r.Ok? && old(reply) != [] ==> offset + r.value <= |Flat(old(reply))|
      ensures r.Ok? && old(reply) != [] ==> Flat(reply) == Splice(Flat(old(reply)), offset, data[..r.value])
      ensures r.Ok? && old(reply) != [] && bad == {} ==> r.value == Min(|data|, |Flat(old(reply))| - offset)
      ensures |reply| == |old(reply)| && forall k :: 0 <= k < |reply| ==> |reply[k]| == |old(reply)[k]|
    {
      hide Flat, Splice;
      if reply == [] {
        return Ok(0), 0;
      }
      var i, left, found := SeekIov(reply, offset);
      if !found {
        return Err(EINVAL), 0;
      }
      FlatAt(reply, i);
      var n := WriteFrom(data, offset, i, left, bad);
      return Ok(n), i;
    }

    /** The bytes of a reply, written from the start. */
    method Reply(data: seq<Byte>, bad: set<nat>) returns (n: nat)
      modifies `reply
      ensures n == Min(|data|, Base(old(reply), FirstBad(|old(reply)|, 0, bad))) <= |Flat(old(reply))|
      ensures Flat(reply) == Splice(Flat(old(reply)), 0, data[..n])
      ensures bad == {} ==> n == Min(|data|, |Flat(old(reply))|)
    {
      hide Flat, Splice;
      BaseEnds(reply);
      if reply == [] {
        assert Base(reply, 0) == 0;
        Untouched(Flat(reply), 0, data);
        return 0;
      }
      n := WriteFrom(data, 0, 0, |reply[0]|, bad);
    }

    method WriteFrom(data: seq<Byte>, offset: nat, first: nat, room: nat, bad: set<nat>) returns (n: nat)
      requires first < |reply| && room <= |reply[first]| && Base(reply, first) + |reply[first]| - room == offset
      modifies `reply
      ensures n == Min(|data|, Reach(old(reply), offset, FirstBad(|old(reply)|, first, bad)))
      ensures offset + n <= |Flat(old(reply))|
      ensures Flat(reply) == Splice(Flat(old(reply)), offset, data[..n])
      ensures bad == {} ==> n == Min(|data|, |Flat(old(reply))| - offset)
      ensures |reply| == |old(reply)| && forall k :: 0 <= k < |reply| ==> |reply[k]| == |old(reply)[k]|
    {
      hide Flat, Splice;
      var i, left, stop := first, room, false;
      ghost var end := FirstBad(|reply|, first, bad);
      n := 0;
      FlatAt(reply, first);
      BaseEnds(reply);
      BaseGrows(reply, first, end);
      Untouched(Flat(reply), offset, data);
      while i < |reply| && n < |data| && !stop
        invariant first <= i <= |reply| == |old(reply)| && n <= |data|
        invariant (forall k :: 0 <= k < |reply| ==> |reply[k]| == |old(reply)[k]|)
        invariant offset + n <= |Flat(old(reply))|
        invariant i < |reply| && n < |data| ==> 0 <= left <= |reply[i]|
        invariant i < |reply| && n < |data| ==> offset + n == Base(old(reply), i) + |reply[i]| - left
        invariant i == |reply| ==> offset + n == |Flat(old(reply))| || n == |data|
        invariant i <= end && n <= Reach(old(reply), offset, end) && (stop ==> i == end < |reply| && n < |data|)
        invariant i == first ==> n == 0
        invariant first < i < |reply| && n < |data| ==> left == |reply[i]|
        invariant Flat(reply) == Splice(Flat(old(reply)), offset, data[..n])
        decreases |reply| - i, !stop
      {
        if i in bad {
          stop := true;
        } else {
          var m := Min(left, |data| - n);
          WriteStep(old(reply), reply, i, |reply[i]| - left, offset, data, n, m);
          BaseGrows(old(reply), i + 1, end);
          SpliceSize(reply[i], |reply[i]| - left, data[n..n + m]);
          reply := reply[i := Splice(reply[i], |reply[i]| - left, data[n..n + m])];
          n := n + m;
          i := i + 1;
          left := if i < |reply| then |reply[i]| else 0;
        }
      }
    }
  }

  lemma SpliceSize(s: seq<Byte>, at: nat, d: seq<Byte>)
    requires at + |d| <= |s|
    ensures |Splice(s, at, d)| == |s|
  {
  }

  lemma PartSlice(parts: seq<seq<Byte>>, i: nat, at: nat, n: nat)
    requires i < |parts| && at + n <= |parts[i]|
    ensures Base(parts, i) + at + n <= |Flat(parts)|
    ensures parts[i][at..at + n] == Flat(parts)[Base(parts, i) + at..Base(parts, i) + at + n]
  {
    FlatAt(parts, i);
    var s := Flat(parts)[Base(parts, i)..Base(parts, i + 1)];
    assert s[at..at + n] == Flat(parts)[Base(parts, i) + at..Base(parts, i) + at + n];
  }

  lemma ReadStep(parts: seq<seq<Byte>>, i: nat, at: nat, n: nat, offset: nat, data: seq<Byte>)
    requires i < |parts| && at + n <= |parts[i]| && offset + |data| == Base(parts, i) + at
    requires offset + |data| <= |Flat(parts)| && data == Flat(parts)[offset..offset + |data|]
    ensures offset + |data| + n <= |Flat(parts)|
    ensures data + parts[i][at..at + n] == Flat(parts)[offset..offset + |data| + n]
  {
    hide Flat;
    PartSlice(parts, i, at, n);
    SliceTwice(Flat(parts), offset, |data|, n);
  }

  lemma Untouched(s: seq<Byte>, at: nat, data: seq<Byte>)
    requires at <= |s|
    ensures s == Splice(s, at, data[..0])
  {
  }

  lemma WriteStep(was: seq<seq<Byte>>, now: seq<seq<Byte>>, i: nat, at: nat, offset: nat, data: seq<Byte>, n: nat, m: nat)
    requires i < |now| == |was| && (forall k :: 0 <= k < |now| ==> |now[k]| == |was[k]|)
    requires n + m <= |data| && at + m <= |now[i]| && offset + n == Base(was, i) + at && offset + n <= |Flat(was)|
    requires Flat(now) == Splice(Flat(was), offset, data[..n])
    ensures offset + n + m <= |Flat(was)|
    ensures Flat(now[i := Splice(now[i], at, data[n..n + m])]) == Splice(Flat(was), offset, data[..n + m])
    ensures Base(was, i + 1) == Base(was, i) + |now[i]| <= |Flat(was)|
  {
    hide Flat, Splice;
    BasesSame(was, now);
    FlatAt(was, i);
    SplicedPart(now, i, at, data[n..n + m]);
    SpliceTwice(Flat(was), offset, data[..n], data[n..n + m]);
    assert data[..n] + data[n..n + m] == data[..n + m];
  }
}
