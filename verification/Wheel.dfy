/**
  The hashed timing wheel: a hundred lists of timers, a timer being on the list its expiry hashes
  to. Against it stands the plain thing it implements: the set of armed timers with their expiry, and
  the order in which they were armed.
 */
module TimingWheels {
  import opened Lists

  type TimerId = nat

  function Slot(time: nat): (b: nat)
    ensures b < 100
  {
    time % 100
  }

  /** The value an `int` of 32 bits keeps. */
  function Cut(x: int): (r: int)
    ensures -0x8000_0000 <= r < 0x8000_0000 && (x - r) % 0x1_0000_0000 == 0
  {
    (x + 0x8000_0000) % 0x1_0000_0000 - 0x8000_0000
  }

  /** The plain view: who is armed, and for when. */
  type Timers = map<TimerId, nat>

  /** A timer is armed iff it is, once, on the list of its expiry, which is never behind the soft clock. */
  ghost predicate WheelOk(bucket: seq<seq<TimerId>>, timers: Timers, soft: nat) {
    && |bucket| == 100
    && (forall b :: 0 <= b < 100 ==> NoDup(bucket[b]))
    && (forall b, t :: 0 <= b < 100 ==> (t in bucket[b] <==> t in timers && Slot(timers[t]) == b))
    && (forall t :: t in timers ==> soft <= timers[t])
  }

  lemma Inserted(bucket: seq<seq<TimerId>>, timers: Timers, soft: nat, t: TimerId, e: nat)
    requires WheelOk(bucket, timers, soft) && t !in timers && soft <= e
    ensures WheelOk(bucket[Slot(e) := bucket[Slot(e)] + [t]], timers[t := e], soft)
  {
    hide NoDup, Slot;
    TailOk(bucket[Slot(e)], t);
  }

  lemma Deleted(bucket: seq<seq<TimerId>>, timers: Timers, soft: nat, t: TimerId)
    requires WheelOk(bucket, timers, soft) && t in timers
    ensures var b := Slot(timers[t]); WheelOk(bucket[b := Without(bucket[b], t)], timers - {t}, soft)
  {
    hide NoDup, Slot, Without;
    WithoutOk(bucket[Slot(timers[t])], t);
  }

  /** The timers for later than `soft`. */
  ghost function Later(timers: Timers, soft: nat): Timers {
    map t | t in timers && timers[t] > soft :: timers[t]
  }

  lemma Advanced(bucket: seq<seq<TimerId>>, timers: Timers, soft: nat)
    requires WheelOk(bucket, timers, soft) && forall t :: t in timers ==> timers[t] != soft
    ensures WheelOk(bucket, timers, soft + 1)
  {
  }

  /** The timers of one list, and those that expire at `now`. */
  ghost function InSlot(timers: Timers, b: nat): set<TimerId> {
    set t | t in timers && Slot(timers[t]) == b
  }

  ghost function Due(timers: Timers, now: nat): set<TimerId> {
    set t | t in timers && timers[t] == now
  }

  /** Each list has its timers in the order in which they were armed. */
  ghost predicate LineOk(line: seq<TimerId>, bucket: seq<seq<TimerId>>, timers: Timers) {
    && NoDup(line) && Members(line) == timers.Keys && |bucket| == 100
    && forall b :: 0 <= b < 100 ==> bucket[b] == Sift(line, InSlot(timers, b))
  }

  lemma LineMore(line: seq<TimerId>, bucket: seq<seq<TimerId>>, timers: Timers, t: TimerId, e: nat)
    requires LineOk(line, bucket, timers) && t !in timers
    ensures LineOk(line + [t], bucket[Slot(e) := bucket[Slot(e)] + [t]], timers[t := e])
  {
    hide NoDup, Slot, Sift;
    assert t !in Members(line);
    TailOk(line, t);
    var bucket', timers' := bucket[Slot(e) := bucket[Slot(e)] + [t]], timers[t := e];
    assert Members(line + [t]) == timers'.Keys;
    forall b | 0 <= b < 100 ensures bucket'[b] == Sift(line + [t], InSlot(timers', b)) {
      SiftNext(line, t, InSlot(timers', b));
      assert forall n :: n in line ==> n in Members(line);
      SiftSame(line, InSlot(timers, b), InSlot(timers', b));
    }
  }

  lemma LineLess(line: seq<TimerId>, bucket: seq<seq<TimerId>>, timers: Timers, t: TimerId)
    requires LineOk(line, bucket, timers) && t in timers
    ensures var b := Slot(timers[t]);
            LineOk(Without(line, t), bucket[b := Without(bucket[b], t)], timers - {t})
    ensures Without(line, t) == Sift(line, timers.Keys - {t})
  {
    hide NoDup, Slot, Sift, Without;
    var c, timers' := Slot(timers[t]), timers - {t};
    var bucket' := bucket[c := Without(bucket[c], t)];
    WithoutOk(line, t);
    WithoutSift(line, t, timers'.Keys);
    assert Members(Without(line, t)) == timers'.Keys by { InMembers(line, t); }
    forall b | 0 <= b < 100 ensures bucket'[b] == Sift(Without(line, t), InSlot(timers', b)) {
      SiftTwice(line, timers'.Keys, InSlot(timers', b));
      assert timers'.Keys * InSlot(timers', b) == InSlot(timers', b);
      if b == c {
        SiftIn(line, InSlot(timers, b));
        WithoutSift(bucket[b], t, InSlot(timers', b)) by { assert Members(bucket[b]) - {t} <= InSlot(timers', b); }
        SiftTwice(line, InSlot(timers, b), InSlot(timers', b));
        assert InSlot(timers, b) * InSlot(timers', b) == InSlot(timers', b);
      } else {
        assert InSlot(timers', b) == InSlot(timers, b);
      }
    }
  }

  lemma InMembers(s: seq<TimerId>, t: TimerId)
    requires NoDup(s)
    ensures Members(Without(s, t)) == Members(s) - {t}
  {
    hide NoDup, Without;
    WithoutOk(s, t);
  }

  /** The timers of a list that are due are, in order, all that are. */
  lemma DueInOrder(line: seq<TimerId>, bucket: seq<seq<TimerId>>, timers: Timers, now: nat)
    requires LineOk(line, bucket, timers)
    ensures Sift(bucket[Slot(now)], Due(timers, now)) == Sift(line, Due(timers, now))
  {
    hide NoDup, Slot, Sift;
    SiftTwice(line, InSlot(timers, Slot(now)), Due(timers, now));
    assert InSlot(timers, Slot(now)) * Due(timers, now) == Due(timers, now);
  }

  class TimingWheel {
    var bucket: seq<seq<TimerId>>
    var armed: set<TimerId>
    var expiry: map<TimerId, nat>
    var hard: nat
    var soft: nat
    /** The armed timers in the order in which they were armed. */
    ghost var line: seq<TimerId>

    ghost function Armed(): Timers
      reads `armed, `expiry
    {
      map t | t in armed && t in expiry :: expiry[t]
    }

    ghost predicate Valid()
      reads this
    {
      armed <= expiry.Keys && soft <= hard && WheelOk(bucket, Armed(), soft) && LineOk(line, bucket, Armed())
    }

    lemma ArmedKeys()
      requires Valid()
      ensures Armed().Keys == armed && soft <= hard && forall t :: t in Armed() ==> soft <= Armed()[t]
    {
    }

    constructor ()
      ensures Valid() && Armed() == map[] && hard == 0 && soft == 0 && line == []
    {
      bucket := seq(100, _ => []);
      armed, expiry, hard, soft, line := {}, map[], 0, 0, [];
    }

    /** Arm a timer that is not armed, `delay` ticks from now. */
    method Arm(t: TimerId, delay: nat)
      requires Valid() && t !in armed
      modifies `bucket, `armed, `expiry, `line
      ensures Valid() && Armed() == old(Armed())[t := hard + delay] && line == old(line) + [t]
    {
      hide WheelOk, Slot, LineOk;
      LineMore(line, bucket, Armed(), t, hard + delay);
      line := line + [t];
      Inserted(bucket, Armed(), soft, t, hard + delay);
      Size(bucket, Armed(), soft);
      expiry := expiry[t := hard + delay];
      armed := armed + {t};
      bucket := bucket[Slot(hard + delay) := bucket[Slot(hard + delay)] + [t]];
      assert Armed() == old(Armed())[t := hard + delay];
    }

    /** Take an armed timer off the wheel. */
    method Cancel(t: TimerId)
      requires Valid() && t in armed
      modifies `bucket, `armed, `line
      ensures Valid() && Armed() == old(Armed()) - {t} && armed == old(armed) - {t} && line == Sift(old(line), armed)
    {
      hide WheelOk, Slot, Without, LineOk, Sift;
      LineLess(line, bucket, Armed(), t);
      line := Without(line, t);
      Deleted(bucket, Armed(), soft, t);
      Size(bucket, Armed(), soft);
      bucket := bucket[Slot(expiry[t]) := Without(bucket[Slot(expiry[t])], t)];
      armed := armed - {t};
      assert Armed() == old(Armed()) - {t};
      assert Armed().Keys == armed;
    }

    /** Replace a timeout: nothing stays armed for a timeout that is not positive. */
    method SetTimeout(t: TimerId, milliseconds: int) returns (remaining: int)
      requires Valid()
      modifies `bucket, `armed, `expiry, `line
      ensures Valid()
      ensures line == Sift(old(line), old(armed) - {t}) + if milliseconds > 0 then [t] else []
      ensures Armed() == if milliseconds > 0 then old(Armed())[t := hard + milliseconds / 10 + 1] else old(Armed()) - {t}
      ensures remaining == if t in old(Armed()) then Cut(hard - old(Armed())[t] / 100) else 0
    {
      hide WheelOk, Slot, LineOk, Sift;
      remaining := 0;
      ghost var was := Armed();
      if t !in armed { LineAll(line, bucket, Armed(), armed - {t}); }
      if t in armed {
        remaining := Cut(hard - expiry[t] / 100);
        Cancel(t);
      }
      assert Armed() == was - {t};
      if milliseconds > 0 {
        Arm(t, milliseconds / 10 + 1);
        assert Armed() == was[t := hard + milliseconds / 10 + 1];
      }
    }

    /** The timer interrupt. */
    method TopHalf()
      requires Valid()
      modifies `hard
      ensures Valid() && hard == old(hard) + 1
    {
      hard := hard + 1;
    }

    /** One turn of the bottom half: fire the timers that expire at the soft clock, and no others. */
    method Tick() returns (fired: seq<TimerId>)
      requires Valid() && soft < hard
      modifies `bucket, `armed, `soft, `line
      ensures Valid() && soft == old(soft) + 1
      ensures fired == Sift(old(line), Due(old(Armed()), old(soft))) && line == Sift(old(line), armed)
      ensures Armed() == Later(old(Armed()), old(soft))
      ensures NoDup(fired) && forall t :: t in fired <==> t in old(Armed()) && old(Armed())[t] == old(soft)
    {
      hide WheelOk, NoDup, Slot, Without, LineOk, Sift;
      Size(bucket, Armed(), soft);
      var list := bucket[Slot(soft)];
      fired := WalkBucket(list);
      Advanced(bucket, Armed(), soft);
      soft := soft + 1;
    }

    method WalkBucket(list: seq<TimerId>) returns (fired: seq<TimerId>)
      requires Valid() && |bucket| == 100 && list == bucket[Slot(soft)]
      modifies `bucket, `armed, `line
      ensures Valid() && Armed() == Later(old(Armed()), soft)
      ensures fired == Sift(old(line), Due(old(Armed()), soft)) && line == Sift(old(line), armed)
      ensures NoDup(fired) && forall t :: t in fired <==> t in old(Armed()) && old(Armed())[t] == soft
    {
      hide WheelOk, NoDup, Slot, Without, LineOk, Sift;
      Listed(bucket, Armed(), soft);
      fired := [];
      ghost var was, line0 := Armed(), line;
      NoDupEmpty();
      DueInOrder(line, bucket, was, soft);
      LineAll(line, bucket, was, armed);
      assert Sift(list[..0], Due(was, soft)) == [] by { SiftNone(list[..0], Due(was, soft)); }
      for i := 0 to |list|
        invariant Valid() && NoDup(fired)
        invariant fired == Sift(list[..i], Due(was, soft)) && line == Sift(line0, armed)
        invariant forall t :: t in fired <==> t in list[..i] && was[t] <= soft
        invariant armed == old(armed) - (set t | t in fired)
      {
        var t := list[i];
        assert list[..i + 1] == list[..i] + [t];
        assert t !in list[..i] by { Alone(list, i); }
        assert t in was;
        SiftNext(list[..i], t, Due(was, soft));
        if expiry[t] <= soft {
          ghost var kept := armed;
          Cancel(t);
          SiftTwice(line0, kept, armed);
          assert kept * armed == armed;
          TailOk(fired, t);
          fired := fired + [t];
        }
      }
      assert list[..|list|] == list;
      assert Armed() == Later(was, soft);
    }

    /** The bottom half catches up with the hard clock; `ticks[i]` interrupts come in during its i-th turn. */
    method BottomHalf(ticks: seq<nat>) returns (fired: seq<Firing>)
      requires Valid()
      modifies `bucket, `armed, `soft, `hard, `line
      ensures Valid() && hard >= old(hard) && soft >= old(soft)
      ensures soft == hard || soft == old(soft) + |ticks|
      ensures soft <= old(soft) + |ticks| && hard == old(hard) + Total(ticks[..soft - old(soft)])
      ensures Armed() == From(old(Armed()), soft)
      ensures forall f :: f in fired <==> f.t in old(Armed()) && old(Armed())[f.t] == f.at && f.at < soft
      ensures forall i, j :: 0 <= i < j < |fired| ==> fired[i].at <= fired[j].at && fired[i] != fired[j]
      ensures fired == Firings(old(line), old(Armed()), old(soft), soft)
    {
      hide WheelOk, NoDup, Slot, LineOk, Sift, Due;
      fired := [];
      ghost var was, line0 := Armed(), line;
      Started(bucket, was, soft);
      LineAll(line, bucket, was, armed);
      var i := 0;
      while i < |ticks| && soft < hard
        invariant Valid() && 0 <= i <= |ticks| && hard == old(hard) + Total(ticks[..i]) && soft == old(soft) + i
        invariant Armed() == From(was, soft)
        invariant InOrder(fired, was, soft)
        invariant line == Sift(line0, armed) && fired == Firings(line0, was, old(soft), soft)
      {
        var now := soft;
        ArmedKeys();
        DueKept(line0, was, now);
        ghost var kept := armed;
        var some := Tick();
        ArmedKeys();
        SiftTwice(line0, kept, armed);
        assert kept * armed == armed;
        hard := hard + ticks[i];
        assert ticks[..i + 1][..i] == ticks[..i];
        InOrderNext(fired, was, now, some);
        fired := fired + At(now, some);
        i := i + 1;
        assert Armed() == From(was, soft);
      }
    }
  }

  function Total(ns: seq<nat>): nat {
    if ns == [] then 0 else Total(ns[..|ns| - 1]) + ns[|ns| - 1]
  }

  datatype Firing = Firing(at: nat, t: TimerId)

  function At(now: nat, ts: seq<TimerId>): seq<Firing> {
    seq(|ts|, i requires 0 <= i < |ts| => Firing(now, ts[i]))
  }

  /** The timers for `soft` or later. */
  ghost function From(timers: Timers, soft: nat): Timers {
    map t | t in timers && timers[t] >= soft :: timers[t]
  }

  /** What fires from `lo` up to `hi`: tick by tick, and at each in the order of arming. */
  ghost function Firings(line: seq<TimerId>, timers: Timers, lo: nat, hi: nat): seq<Firing>
    decreases hi
  {
    if hi <= lo then [] else Firings(line, timers, lo, hi - 1) + At(hi - 1, Sift(line, Due(timers, hi - 1)))
  }

  /** Those due now are the same among all timers and among those that are left. */
  lemma DueKept(line: seq<TimerId>, timers: Timers, now: nat)
    ensures Sift(Sift(line, From(timers, now).Keys), Due(From(timers, now), now)) == Sift(line, Due(timers, now))
  {
    hide Sift;
    var left := From(timers, now);
    SiftTwice(line, left.Keys, Due(left, now));
    assert left.Keys * Due(left, now) == Due(timers, now);
  }

  /** What has fired, in order, each once, when the soft clock has come to `soft`. */
  ghost predicate InOrder(fired: seq<Firing>, timers: Timers, soft: nat) {
    && (forall f :: f in fired <==> f.t in timers && timers[f.t] == f.at && f.at < soft)
    && forall i, j :: 0 <= i < j < |fired| ==> fired[i].at <= fired[j].at && fired[i] != fired[j]
  }

  lemma InOrderNext(fired: seq<Firing>, timers: Timers, soft: nat, more: seq<TimerId>)
    requires InOrder(fired, timers, soft) && NoDup(more)
    requires forall t :: t in more <==> t in From(timers, soft) && timers[t] == soft
    ensures InOrder(fired + At(soft, more), timers, soft + 1)
  {
    var all := fired + At(soft, more);
    forall f ensures f in all <==> f.t in timers && timers[f.t] == f.at && f.at < soft + 1 {
      if f.t in more && f.at == soft {
        var i :| 0 <= i < |more| && more[i] == f.t;
        assert all[|fired| + i] == f;
      }
    }
    forall i, j | 0 <= i < j < |all| ensures all[i].at <= all[j].at && all[i] != all[j] {
      if i < |fired| { assert all[i] in fired; }
    }
  }

  lemma Started(bucket: seq<seq<TimerId>>, timers: Timers, soft: nat)
    requires WheelOk(bucket, timers, soft)
    ensures From(timers, soft) == timers && InOrder([], timers, soft)
  {
  }

  lemma LineAll(line: seq<TimerId>, bucket: seq<seq<TimerId>>, timers: Timers, keep: set<TimerId>)
    requires LineOk(line, bucket, timers) && timers.Keys <= keep
    ensures Sift(line, keep) == line
  {
    SiftAll(line, keep);
  }

  lemma SiftNone(s: seq<TimerId>, keep: set<TimerId>)
    requires s == []
    ensures Sift(s, keep) == []
  {
  }

  lemma Size(bucket: seq<seq<TimerId>>, timers: Timers, soft: nat)
    requires WheelOk(bucket, timers, soft)
    ensures |bucket| == 100
  {
  }

  lemma Listed(bucket: seq<seq<TimerId>>, timers: Timers, soft: nat)
    requires WheelOk(bucket, timers, soft)
    ensures |bucket| == 100 && NoDup(bucket[Slot(soft)])
    ensures forall t :: t in bucket[Slot(soft)] ==> t in timers
    ensures forall t :: t in timers ==> soft <= timers[t]
    ensures forall t :: t in timers && timers[t] == soft ==> t in bucket[Slot(soft)]
  {
  }

}
