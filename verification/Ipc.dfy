/**
  Message ports and event queues on the scheduler: servers that wait in kevent for their ports and
  then take messages, and clients that send to them at any time in between. Every sleep is a sleep on
  a rendez: that of a kqueue's events, of a busy kqueue, or of the sleeper's own reply port.
 */
module Ipc {
  import opened Core
  import opened Lists
  import opened Placement
  import opened Scheduling
  import opened Messages
  import opened KEvents

  /** Where a process is in a call of its own: in kevent before or after it has got the kqueue, or in ksendmsg. */
  datatype Site = Wants(kq: KqId) | Has(kq: KqId) | AwaitsReply

  // ---------------------------------------------------------------------
  // Who sleeps where.

  datatype Scene = Scene(
    z: map<RendezId, seq<Pid>>,
    pc: map<Pid, Pc>,
    at: map<Pid, Site>,
    busy: set<KqId>,
    pend: map<KqId, seq<NoteId>>,
    reply: map<Pid, seq<MsgId>>,
    waiting: set<Pid>)

  /** A process in such a call is in the kernel, and the rendez there are. */
  ghost predicate SitesOk(z: map<RendezId, seq<Pid>>, pc: map<Pid, Pc>, at: map<Pid, Site>, pend: map<KqId, seq<NoteId>>,
                          clients: set<Pid>, waiting: set<Pid>) {
    && (forall p :: p in at ==> p in pc && pc[p] in {InKernel, InSleep})
    && (forall p :: p in at && !at[p].AwaitsReply? ==> at[p].kq in pend)
    && (forall p :: p in waiting <==> p in at && at[p] == AwaitsReply)
    && waiting <= clients
    && (forall k :: k in pend ==> EventOf(k) in z && BusyOf(k) in z)
    && (forall p :: p in clients ==> ReplyOf(p) in z)
  }

  /** A rendez of no kqueue and of no reply port. */
  predicate Elsewhere(r: RendezId) { r.Cond? || r.Own? }

  ghost predicate SleepsRight(at: map<Pid, Site>, r: RendezId, p: Pid) {
    match r
    case EventOf(k) => p in at && at[p] == Has(k)
    case BusyOf(k) => p in at && at[p] == Wants(k)
    case ReplyOf(q) => p in at && at[p] == AwaitsReply && q == p
    case _ => true
  }

  /** Sleepers on these rendez are in the call that sleeps there, and on a reply port its owner. */
  ghost predicate SleepersOk(z: map<RendezId, seq<Pid>>, at: map<Pid, Site>) {
    forall r, p :: r in z && p in z[r] ==> SleepsRight(at, r, p)
  }

  /** A kqueue is held by at most one process, and then it is busy. */
  ghost predicate HoldersOk(at: map<Pid, Site>, busy: set<KqId>) {
    && (forall p :: p in at && at[p].Has? ==> at[p].kq in busy)
    && (forall p, p' :: p in at && p' in at && at[p].Has? && at[p'] == at[p] ==> p == p')
  }

  /** Nobody sleeps for an event that is pending or for a reply that has come. */
  ghost predicate NothingMissed(z: map<RendezId, seq<Pid>>, pend: map<KqId, seq<NoteId>>, reply: map<Pid, seq<MsgId>>) {
    && (forall k :: k in pend && EventOf(k) in z && z[EventOf(k)] != [] ==> pend[k] == [])
    && (forall p :: p in reply && ReplyOf(p) in z && z[ReplyOf(p)] != [] ==> reply[p] == [])
  }

  ghost predicate Coming(z: map<RendezId, seq<Pid>>, at: map<Pid, Site>, k: KqId, p: Pid) {
    p in at && at[p] == Wants(k) && BusyOf(k) in z && p !in z[BusyOf(k)]
  }

  ghost predicate Served(z: map<RendezId, seq<Pid>>, at: map<Pid, Site>, k: KqId) {
    BusyOf(k) in z && z[BusyOf(k)] != [] ==> exists p :: Coming(z, at, k, p)
  }

  /** If somebody sleeps for a kqueue that is not busy, somebody else who wants it has been woken. */
  ghost predicate AllServed(z: map<RendezId, seq<Pid>>, at: map<Pid, Site>, busy: set<KqId>) {
    forall k :: k !in busy ==> Served(z, at, k)
  }

  ghost predicate SceneOk(x: Scene) {
    && SitesOk(x.z, x.pc, x.at, x.pend, x.reply.Keys, x.waiting) && SleepersOk(x.z, x.at) && HoldersOk(x.at, x.busy)
    && NothingMissed(x.z, x.pend, x.reply) && AllServed(x.z, x.at, x.busy)
  }

  ghost predicate Holds(at: map<Pid, Site>, p: Pid, k: KqId) {
    p in at && at[p] == Has(k)
  }

  /** A call on a kqueue ended in an error: the kqueue is busy, and nobody holds it. */
  ghost predicate Abandoned(at: map<Pid, Site>, busy: set<KqId>, k: KqId) {
    k in busy && forall p :: !Holds(at, p, k)
  }

  /** The kqueues that are busy and held by nobody are those on which a call has failed. */
  ghost predicate OnlyFailed(at: map<Pid, Site>, busy: set<KqId>, failed: set<KqId>) {
    forall k :: Abandoned(at, busy, k) <==> k in failed
  }

  /** A process that holds no kqueue moves to where it holds none. */
  lemma FailedSame(at: map<Pid, Site>, busy: set<KqId>, failed: set<KqId>, c: Pid, v: Site)
    requires OnlyFailed(at, busy, failed) && (c in at ==> !at[c].Has?) && !v.Has?
    ensures OnlyFailed(at[c := v], busy, failed) && OnlyFailed(at - {c}, busy, failed)
  {
    var at' := at[c := v];
    forall k ensures Abandoned(at', busy, k) <==> Abandoned(at, busy, k) {
      assert forall p :: Holds(at', p, k) <==> Holds(at, p, k);
    }
    forall k ensures Abandoned(at - {c}, busy, k) <==> Abandoned(at, busy, k) {
      assert forall p :: Holds(at - {c}, p, k) <==> Holds(at, p, k);
    }
  }

  lemma FailedTaken(at: map<Pid, Site>, busy: set<KqId>, failed: set<KqId>, c: Pid, kq: KqId)
    requires OnlyFailed(at, busy, failed) && HoldersOk(at, busy) && (c in at ==> !at[c].Has?) && kq !in busy
    ensures OnlyFailed(at[c := Has(kq)], busy + {kq}, failed)
  {
    var at' := at[c := Has(kq)];
    forall k ensures Abandoned(at', busy + {kq}, k) <==> Abandoned(at, busy, k) {
      assert Holds(at', c, kq);
      assert k != kq ==> forall p :: Holds(at', p, k) <==> Holds(at, p, k);
    }
  }

  lemma FailedReleased(at: map<Pid, Site>, busy: set<KqId>, failed: set<KqId>, c: Pid, kq: KqId)
    requires OnlyFailed(at, busy, failed) && HoldersOk(at, busy) && c in at && at[c] == Has(kq)
    ensures OnlyFailed(at - {c}, busy - {kq}, failed) && kq !in failed
  {
    assert Holds(at, c, kq) && !Abandoned(at, busy, kq);
    forall k ensures Abandoned(at - {c}, busy - {kq}, k) <==> Abandoned(at, busy, k) {
      assert k != kq ==> forall p :: Holds(at - {c}, p, k) <==> Holds(at, p, k);
    }
  }

  lemma FailedMore(at: map<Pid, Site>, busy: set<KqId>, failed: set<KqId>, c: Pid, kq: KqId)
    requires OnlyFailed(at, busy, failed) && HoldersOk(at, busy) && c in at && at[c] == Has(kq)
    ensures OnlyFailed(at - {c}, busy, failed + {kq}) && kq !in failed
  {
    assert Holds(at, c, kq) && !Abandoned(at, busy, kq);
    forall k ensures Abandoned(at - {c}, busy, k) <==> Abandoned(at, busy, k) || k == kq {
      assert k != kq ==> forall p :: Holds(at - {c}, p, k) <==> Holds(at, p, k);
      assert k == kq ==> forall p :: !Holds(at - {c}, p, k);
    }
  }

  /** Every list of these rendez is a part of what it was. */
  ghost predicate Fewer(z: map<RendezId, seq<Pid>>, z': map<RendezId, seq<Pid>>) {
    z'.Keys == z.Keys && forall r, p :: r in z && !Elsewhere(r) && p in z'[r] ==> p in z[r]
  }

  lemma FewerEmpty(z: map<RendezId, seq<Pid>>, z': map<RendezId, seq<Pid>>, r: RendezId)
    requires Fewer(z, z') && r in z && !Elsewhere(r) && z[r] == []
    ensures z'[r] == []
  {
    SomeIn(z'[r]);
  }

  lemma SomeIn(l: seq<Pid>)
    ensures l != [] ==> l[0] in l
    ensures |l| > 1 ==> l[1] in l
  {
  }

  /** Process `c` sleeps nowhere. */
  ghost predicate Wakeful(z: map<RendezId, seq<Pid>>, c: Pid) {
    forall r :: r in z ==> c !in z[r]
  }

  lemma SleepersFewer(z: map<RendezId, seq<Pid>>, z': map<RendezId, seq<Pid>>, at: map<Pid, Site>)
    requires SleepersOk(z, at) && Fewer(z, z')
    ensures SleepersOk(z', at)
  {
    forall r, p | r in z' && p in z'[r] ensures SleepsRight(at, r, p) {
      assert !Elsewhere(r) ==> SleepsRight(at, r, p);
    }
  }

  lemma SleepersElsewhere(z: map<RendezId, seq<Pid>>, at: map<Pid, Site>, c: Pid, at': map<Pid, Site>)
    requires SleepersOk(z, at) && Wakeful(z, c) && forall p :: p in at && p != c ==> p in at' && at'[p] == at[p]
    ensures SleepersOk(z, at')
  {
    forall r, p | r in z && p in z[r] ensures SleepsRight(at', r, p) {
      assert SleepsRight(at, r, p);
    }
  }

  lemma ServedFewer(z: map<RendezId, seq<Pid>>, z': map<RendezId, seq<Pid>>, at: map<Pid, Site>, busy: set<KqId>)
    requires AllServed(z, at, busy) && Fewer(z, z')
    ensures AllServed(z', at, busy)
  {
    forall k | k !in busy ensures Served(z', at, k) {
      assert Served(z, at, k);
      if BusyOf(k) in z' && z'[BusyOf(k)] != [] {
        assert z'[BusyOf(k)][0] in z'[BusyOf(k)];
        var p :| Coming(z, at, k, p);
        assert Coming(z', at, k, p);
      }
    }
  }

  /** Those who want a kqueue still do, or it is busy; `k0` is looked after otherwise. */
  lemma ServedElsewhere(z: map<RendezId, seq<Pid>>, at: map<Pid, Site>, busy: set<KqId>, at': map<Pid, Site>, busy': set<KqId>, k0: KqId)
    requires AllServed(z, at, busy) && busy <= busy' + {k0} && (k0 in busy && k0 !in busy' ==> Served(z, at', k0))
    requires forall p :: p in at && at[p].Wants? && at[p].kq !in busy' ==> p in at' && at'[p] == at[p]
    ensures AllServed(z, at', busy')
  {
    forall k | k !in busy' ensures Served(z, at', k) {
      if k !in busy {
        assert Served(z, at, k);
        if BusyOf(k) in z && z[BusyOf(k)] != [] {
          var p :| Coming(z, at, k, p);
          assert Coming(z, at', k, p);
        }
      }
    }
  }

  lemma MissedFewer(z: map<RendezId, seq<Pid>>, z': map<RendezId, seq<Pid>>, pend: map<KqId, seq<NoteId>>, reply: map<Pid, seq<MsgId>>)
    requires NothingMissed(z, pend, reply) && Fewer(z, z')
    ensures NothingMissed(z', pend, reply)
  {
    forall k | k in pend && EventOf(k) in z' && z'[EventOf(k)] != [] ensures pend[k] == [] {
      if z[EventOf(k)] == [] { FewerEmpty(z, z', EventOf(k)); }
    }
    forall p | p in reply && ReplyOf(p) in z' && z'[ReplyOf(p)] != [] ensures reply[p] == [] {
      if z[ReplyOf(p)] == [] { FewerEmpty(z, z', ReplyOf(p)); }
    }
  }

  /** Some sleepers have been woken. */
  lemma SceneWoken(x: Scene, z': map<RendezId, seq<Pid>>)
    requires SceneOk(x) && Fewer(x.z, z')
    ensures SceneOk(x.(z := z'))
  {
    hide SleepersOk, HoldersOk, NothingMissed, AllServed;
    SleepersFewer(x.z, z', x.at);
    ServedFewer(x.z, z', x.at, x.busy);
    MissedFewer(x.z, z', x.pend, x.reply);
  }
  /** Events became pending, on kqueues whose sleepers have been woken. */
  lemma ScenePending(x: Scene, pend': map<KqId, seq<NoteId>>)
    requires SceneOk(x) && pend'.Keys == x.pend.Keys
    requires forall k :: k in pend' && pend'[k] != [] && pend'[k] != x.pend[k] ==> EventOf(k) in x.z && x.z[EventOf(k)] == []
    ensures SceneOk(x.(pend := pend'))
  {
    hide SleepersOk, HoldersOk, AllServed;
  }

  /** The running process, which sleeps nowhere. */
  ghost predicate Up(x: Scene, c: Pid) {
    c in x.pc && x.pc[c] == InKernel && Wakeful(x.z, c)
  }

  lemma SitesMoved(x: Scene, c: Pid, v: Site)
    requires SceneOk(x) && Up(x, c) && (v.AwaitsReply? ==> c in x.reply) && (!v.AwaitsReply? ==> v.kq in x.pend)
    ensures SitesOk(x.z, x.pc, x.at[c := v], x.pend, x.reply.Keys, if v.AwaitsReply? then x.waiting + {c} else x.waiting - {c})
  {
    hide SleepersOk, HoldersOk, NothingMissed, AllServed;
  }

  lemma SitesLeft(x: Scene, c: Pid)
    requires SceneOk(x)
    ensures SitesOk(x.z, x.pc, x.at - {c}, x.pend, x.reply.Keys, x.waiting - {c})
  {
    hide SleepersOk, HoldersOk, NothingMissed, AllServed;
  }

  lemma HoldersLeft(at: map<Pid, Site>, busy: set<KqId>, c: Pid)
    requires HoldersOk(at, busy)
    ensures HoldersOk(at - {c}, busy)
    ensures c in at && at[c].Has? ==> HoldersOk(at - {c}, busy - {at[c].kq})
  {
  }

  /** A process begins a call to kevent. */
  lemma SceneWants(x: Scene, c: Pid, kq: KqId)
    requires SceneOk(x) && Up(x, c) && c !in x.at && kq in x.pend
    ensures SceneOk(x.(at := x.at[c := Wants(kq)]))
  {
    SitesMoved(x, c, Wants(kq));
    assert c !in x.waiting && x.waiting - {c} == x.waiting by { hide SleepersOk, HoldersOk, NothingMissed, AllServed; }
    hide SitesOk, SleepersOk, NothingMissed, AllServed;
    SleepersElsewhere(x.z, x.at, c, x.at[c := Wants(kq)]);
    ServedElsewhere(x.z, x.at, x.busy, x.at[c := Wants(kq)], x.busy, kq);
  }

  /** It gets the kqueue. */
  lemma SceneTakes(x: Scene, c: Pid, kq: KqId)
    requires SceneOk(x) && Up(x, c) && c in x.at && x.at[c] == Wants(kq) && kq !in x.busy
    ensures SceneOk(x.(at := x.at[c := Has(kq)], busy := x.busy + {kq}))
  {
    assert kq in x.pend && c !in x.waiting && x.waiting - {c} == x.waiting by { hide SleepersOk, HoldersOk, NothingMissed, AllServed; }
    SitesMoved(x, c, Has(kq));
    hide SitesOk, SleepersOk, NothingMissed, AllServed;
    SleepersElsewhere(x.z, x.at, c, x.at[c := Has(kq)]);
    ServedElsewhere(x.z, x.at, x.busy, x.at[c := Has(kq)], x.busy + {kq}, kq);
  }

  /** The process may go to sleep on this rendez: its call sleeps there, for a reason that holds. */
  ghost predicate MaySleep(x: Scene, c: Pid, r: RendezId) {
    c in x.at && match r
                 case BusyOf(k) => x.at[c] == Wants(k) && k in x.busy
                 case EventOf(k) => x.at[c] == Has(k) && k in x.pend && x.pend[k] == []
                 case ReplyOf(p) => x.at[c] == AwaitsReply && p == c && c in x.reply && x.reply[c] == []
                 case _ => false
  }

  lemma SceneSleeps(x: Scene, c: Pid, r: RendezId)
    requires SceneOk(x) && Up(x, c) && r in x.z && MaySleep(x, c, r)
    ensures SceneOk(x.(z := x.z[r := x.z[r] + [c]], pc := x.pc[c := InSleep]))
  {
    var y := x.(z := x.z[r := x.z[r] + [c]], pc := x.pc[c := InSleep]);
    assert SitesOk(y.z, y.pc, y.at, y.pend, y.reply.Keys, y.waiting) by { hide SleepersOk, HoldersOk, NothingMissed, AllServed; }
    assert SleepersOk(y.z, y.at) by { SleeperAdded(x.z, x.at, r, c) by { hide SitesOk, HoldersOk, NothingMissed, AllServed; } }
    assert NothingMissed(y.z, y.pend, y.reply) by { hide SitesOk, SleepersOk, HoldersOk, AllServed; }
    assert AllServed(y.z, y.at, y.busy) by { ServedAsleep(x, c, r); }
  }

  /** It gets the kqueue, or sleeps for it. */
  lemma TryScene(x: Scene, c: Pid, kq: KqId)
    requires SceneOk(x) && Up(x, c) && c in x.at && x.at[c] == Wants(kq) && BusyOf(kq) in x.z
    ensures kq !in x.busy ==> SceneOk(x.(at := x.at[c := Has(kq)], busy := x.busy + {kq}))
    ensures kq in x.busy ==>
              SceneOk(x.(z := x.z[BusyOf(kq) := x.z[BusyOf(kq)] + [c]], pc := x.pc[c := InSleep], busy := x.busy + {kq}))
  {
    hide SceneOk, Up;
    if kq !in x.busy {
      SceneTakes(x, c, kq);
    } else {
      SceneSleeps(x, c, BusyOf(kq));
      assert x.busy + {kq} == x.busy;
    }
  }

  lemma SleeperAdded(z: map<RendezId, seq<Pid>>, at: map<Pid, Site>, r: RendezId, c: Pid)
    requires SleepersOk(z, at) && r in z && SleepsRight(at, r, c)
    ensures SleepersOk(z[r := z[r] + [c]], at)
  {
    forall r', p | r' in z && p in z[r := z[r] + [c]][r'] ensures SleepsRight(at, r', p) {
      assert p in z[r'] || (r' == r && p == c);
    }
  }

  lemma ServedAsleep(x: Scene, c: Pid, r: RendezId)
    requires SceneOk(x) && r in x.z && MaySleep(x, c, r)
    ensures AllServed(x.z[r := x.z[r] + [c]], x.at, x.busy)
  {
    hide SitesOk, SleepersOk, HoldersOk, NothingMissed;
    var z' := x.z[r := x.z[r] + [c]];
    forall k | k !in x.busy ensures Served(z', x.at, k) {
      assert Served(x.z, x.at, k) && r != BusyOf(k);
      if BusyOf(k) in z' && z'[BusyOf(k)] != [] {
        var p :| Coming(x.z, x.at, k, p);
        assert Coming(z', x.at, k, p);
      }
    }
  }

  /** The call to kevent ends: the kqueue is free, and its first waiter has been woken. */
  lemma SceneReleases(x: Scene, c: Pid, kq: KqId, z': map<RendezId, seq<Pid>>)
    requires SceneOk(x) && Up(x, c) && c in x.at && x.at[c] == Has(kq) && BusyOf(kq) in x.z && NoDup(x.z[BusyOf(kq)])
    requires z' == if x.z[BusyOf(kq)] == [] then x.z else x.z[BusyOf(kq) := x.z[BusyOf(kq)][1..]]
    ensures SceneOk(x.(at := x.at - {c}, busy := x.busy - {kq}, z := z'))
  {
    hide SitesOk, HoldersOk, NothingMissed, AllServed, NoDup, SleepersOk;
    var r := BusyOf(kq);
    SceneWoken(x, z');
    if z'[r] != [] {
      var w := x.z[r][0];
      assert w in x.z[r];
      HeadOk(x.z[r]);
      assert SleepsRight(x.at, r, w) by { SleeperKnown(x.z, x.at, r, w); }
      assert Coming(z', x.at - {c}, kq, w);
    }
    SceneLeaves(x.(z := z'), c, kq);
  }

  lemma SleeperKnown(z: map<RendezId, seq<Pid>>, at: map<Pid, Site>, r: RendezId, p: Pid)
    requires SleepersOk(z, at) && r in z && p in z[r]
    ensures SleepsRight(at, r, p)
  {
  }

  lemma SceneLeaves(x: Scene, c: Pid, kq: KqId)
    requires SceneOk(x) && Up(x, c) && c in x.at && x.at[c] == Has(kq) && Served(x.z, x.at - {c}, kq)
    ensures SceneOk(x.(at := x.at - {c}, busy := x.busy - {kq}))
  {
    SitesLeft(x, c);
    assert c !in x.waiting && x.waiting - {c} == x.waiting by { hide SleepersOk, HoldersOk, NothingMissed, AllServed; }
    hide SitesOk, SleepersOk, HoldersOk, NothingMissed, AllServed, Served;
    SleepersElsewhere(x.z, x.at, c, x.at - {c});
    HoldersLeft(x.at, x.busy, c);
    ServedElsewhere(x.z, x.at, x.busy, x.at - {c}, x.busy - {kq}, kq);
  }

  /** The call to kevent ends in an error. */
  lemma SceneAbandons(x: Scene, c: Pid, kq: KqId)
    requires SceneOk(x) && Up(x, c) && c in x.at && x.at[c] == Has(kq)
    ensures SceneOk(x.(at := x.at - {c})) && Abandoned(x.at - {c}, x.busy, kq)
  {
    SitesLeft(x, c);
    assert c !in x.waiting && x.waiting - {c} == x.waiting by { hide SleepersOk, HoldersOk, NothingMissed, AllServed; }
    hide SitesOk, SleepersOk, NothingMissed, AllServed, Served;
    SleepersElsewhere(x.z, x.at, c, x.at - {c});
    ServedElsewhere(x.z, x.at, x.busy, x.at - {c}, x.busy, kq);
  }

  /** A process has sent a message, and waits for the reply. */
  lemma SceneSends(x: Scene, c: Pid)
    requires SceneOk(x) && Up(x, c) && c !in x.at && c in x.reply
    ensures SceneOk(x.(at := x.at[c := AwaitsReply], waiting := x.waiting + {c}))
  {
    SitesMoved(x, c, AwaitsReply);
    hide SitesOk, SleepersOk, NothingMissed, AllServed, Served;
    SleepersElsewhere(x.z, x.at, c, x.at[c := AwaitsReply]);
    ServedElsewhere(x.z, x.at, x.busy, x.at[c := AwaitsReply], x.busy, 0);
  }

  /** A reply comes, and the sender is not asleep any more. */
  lemma SceneReplied(x: Scene, p: Pid, m: MsgId)
    requires SceneOk(x) && p in x.reply && ReplyOf(p) in x.z && x.z[ReplyOf(p)] == []
    ensures SceneOk(x.(reply := x.reply[p := x.reply[p] + [m]]))
  {
    hide SitesOk, SleepersOk, HoldersOk, AllServed;
    assert x.reply[p := x.reply[p] + [m]].Keys == x.reply.Keys;
  }

  /** The sender takes its reply and returns. */
  lemma SceneReturns(x: Scene, c: Pid)
    requires SceneOk(x) && Up(x, c) && c in x.at && x.at[c] == AwaitsReply && c in x.reply
    ensures SceneOk(x.(at := x.at - {c}, waiting := x.waiting - {c}, reply := x.reply[c := []]))
  {
    SitesLeft(x, c);
    hide SitesOk, SleepersOk, HoldersOk, AllServed, Served;
    assert x.reply[c := []].Keys == x.reply.Keys;
    SleepersElsewhere(x.z, x.at, c, x.at - {c});
    HoldersLeft(x.at, x.busy, c);
    ServedElsewhere(x.z, x.at, x.busy, x.at - {c}, x.busy, 0);
  }

  /** What a process may do that is in no call of this module, and what one in such a call may still do. */
  predicate Apart(a: Action, inside: bool) {
    && (a.Sleep? ==> Elsewhere(a.r) && !inside)
    && (a in {Leave, Look, Quit} ==> !inside)
  }

  /** Any other step of a process that is in no such call, or that only continues in one. */
  lemma SceneElse(x: Scene, a: Action, c: Pid, z': map<RendezId, seq<Pid>>, pc': map<Pid, Pc>)
    requires SceneOk(x) && Confined(a, x.z, x.pc, c, z', pc') && Apart(a, c in x.at)
    ensures SceneOk(x.(z := z', pc := pc')) && Fewer(x.z, z')
  {
    assert Fewer(x.z, z') by { hide SitesOk, SleepersOk, HoldersOk, NothingMissed, AllServed; }
    assert SitesOk(x.z, pc', x.at, x.pend, x.reply.Keys, x.waiting) by { hide SleepersOk, HoldersOk, NothingMissed, AllServed; }
    hide SitesOk, SleepersOk, HoldersOk, NothingMissed, AllServed, Confined;
    SceneWoken(x.(pc := pc'), z');
  }

  // ---------------------------------------------------------------------
  // What knotes know of the ports.

  /**
    A message on a port that an enabled knote watches is known to the knote, unless the server has
    been told of the port and has not found it empty since: then the knote is in `draining`.
   */
  ghost predicate Heard(notes: Notes, port: map<PortId, seq<MsgId>>, draining: set<NoteId>) {
    && draining <= notes.Keys
    && forall n :: n in notes && notes[n].enabled && Peek(notes[n], Full(port)) ==> notes[n].pending || n in draining
  }

  /** No sleeping server has been told of a port that it has not found empty since. */
  ghost predicate Rested(notes: Notes, z: map<RendezId, seq<Pid>>, draining: set<NoteId>) {
    forall n :: n in draining && n in notes && EventOf(notes[n].kq) in z ==> z[EventOf(notes[n].kq)] == []
  }

  function Full(port: map<PortId, seq<MsgId>>): set<nat> {
    set q | q in port && port[q] != []
  }

  /** Somebody sleeps for events of a kqueue whose enabled knote `n` watches port `q`. */
  ghost predicate SleepsOver(notes: Notes, port: map<PortId, seq<MsgId>>, z: map<RendezId, seq<Pid>>, n: NoteId, q: PortId) {
    && n in notes && notes[n].enabled && notes[n].obj == Some(Port(q)) && q in port
    && EventOf(notes[n].kq) in z && z[EventOf(notes[n].kq)] != []
  }

  lemma HeardEvent(notes: Notes, notes': Notes, port: map<PortId, seq<MsgId>>, draining: set<NoteId>, o: Obj)
    requires Heard(notes, port, draining) && Raised(notes, notes', o, notes.Keys)
    ensures Heard(notes', port, draining)
  {
  }

  lemma HeardSend(notes: Notes, notes': Notes, port: map<PortId, seq<MsgId>>, draining: set<NoteId>, q: PortId, m: MsgId)
    requires Heard(notes, port, draining) && Raised(notes, notes', Port(q), notes.Keys) && q in port
    ensures Heard(notes', port[q := port[q] + [m]], draining)
  {
  }

  lemma HeardChange(notes: Notes, notes': Notes, port: map<PortId, seq<MsgId>>, draining: set<NoteId>, kq: KqId, c: Change)
    requires Heard(notes, port, draining) && Changed(notes, notes', kq, c, Full(port))
    ensures Heard(notes', port, draining * notes'.Keys)
  {
  }

  lemma HeardCollect(notes: Notes, notes': Notes, port: map<PortId, seq<MsgId>>, draining: set<NoteId>, events: seq<NoteId>)
    requires Heard(notes, port, draining) && Collected(notes, notes', events)
    ensures Heard(notes', port, (draining + Members(events)) * notes'.Keys)
  {
  }

  lemma HeardTaken(notes: Notes, port: map<PortId, seq<MsgId>>, port': map<PortId, seq<MsgId>>, draining: set<NoteId>)
    requires Heard(notes, port, draining) && Full(port') <= Full(port)
    ensures Heard(notes, port', draining)
  {
  }

  /** A port was found empty: it is drained, for every knote that watches it. */
  function Drained(notes: Notes, draining: set<NoteId>, q: PortId): set<NoteId> {
    set n | n in draining && n in notes && notes[n].obj != Some(Port(q))
  }

  lemma HeardDrained(notes: Notes, port: map<PortId, seq<MsgId>>, draining: set<NoteId>, q: PortId)
    requires Heard(notes, port, draining) && q in port && port[q] == []
    ensures Heard(notes, port, Drained(notes, draining, q))
  {
  }

  lemma RestedEvent(notes: Notes, notes': Notes, z: map<RendezId, seq<Pid>>, z': map<RendezId, seq<Pid>>, draining: set<NoteId>, o: Obj)
    requires Rested(notes, z, draining) && Raised(notes, notes', o, notes.Keys) && Fewer(z, z')
    ensures Rested(notes', z', draining)
  {
    RestedWoken(notes, z, z', draining);
  }

  lemma RestedWoken(notes: Notes, z: map<RendezId, seq<Pid>>, z': map<RendezId, seq<Pid>>, draining: set<NoteId>)
    requires Rested(notes, z, draining) && Fewer(z, z')
    ensures Rested(notes, z', draining)
  {
    forall n | n in draining && n in notes && EventOf(notes[n].kq) in z' ensures z'[EventOf(notes[n].kq)] == [] {
      FewerEmpty(z, z', EventOf(notes[n].kq));
    }
  }

  lemma RestedAsleep(notes: Notes, z: map<RendezId, seq<Pid>>, draining: set<NoteId>, r: RendezId, c: Pid)
    requires Rested(notes, z, draining) && r in z && !r.EventOf?
    ensures Rested(notes, z[r := z[r] + [c]], draining)
  {
  }

  lemma RestedPopped(notes: Notes, z: map<RendezId, seq<Pid>>, draining: set<NoteId>, r: RendezId)
    requires Rested(notes, z, draining) && r in z && !r.EventOf?
    ensures z[r] != [] ==> Rested(notes, z[r := z[r][1..]], draining)
  {
  }

  lemma RestedLess(notes: Notes, z: map<RendezId, seq<Pid>>, draining: set<NoteId>, less: set<NoteId>)
    requires Rested(notes, z, draining) && less <= draining
    ensures Rested(notes, z, less)
  {
  }

  lemma HeardKnown(notes: Notes, port: map<PortId, seq<MsgId>>, draining: set<NoteId>)
    requires Heard(notes, port, draining)
    ensures draining <= notes.Keys
  {
  }

  lemma RestedChange(notes: Notes, notes': Notes, port: map<PortId, seq<MsgId>>, z: map<RendezId, seq<Pid>>,
                     draining: set<NoteId>, kq: KqId, c: Change)
    requires Rested(notes, z, draining) && draining <= notes.Keys && Changed(notes, notes', kq, c, Full(port))
    requires EventOf(kq) in z && z[EventOf(kq)] == []
    ensures Rested(notes', z, draining * notes'.Keys)
  {
  }

  lemma RestedCollect(notes: Notes, notes': Notes, pend: map<KqId, seq<NoteId>>, z: map<RendezId, seq<Pid>>,
                      draining: set<NoteId>, events: seq<NoteId>, kq: KqId)
    requires Rested(notes, z, draining) && draining <= notes.Keys && Collected(notes, notes', events)
    requires PendingOk(notes, pend) && kq in pend && events <= pend[kq] && EventOf(kq) in z && z[EventOf(kq)] == []
    ensures Rested(notes', z, (draining + Members(events)) * notes'.Keys)
  {
    hide NoDup;
    assert forall n :: n in events ==> n in pend[kq];
  }

  /** A server asleep for events of a kqueue is asleep over empty ports, but for those it was told of and did not empty. */
  lemma AsleepOverEmpty(x: Scene, notes: Notes, port: map<PortId, seq<MsgId>>, draining: set<NoteId>, n: NoteId, q: PortId)
    requires SceneOk(x) && PendingOk(notes, x.pend) && Heard(notes, port, draining)
    requires SleepsOver(notes, port, x.z, n, q)
    ensures port[q] == [] || n in draining
  {
    PendingKnown(notes, x.pend, n);
    assert x.pend[notes[n].kq] == [];
  }

  /** At most one process sleeps for the events of a kqueue. */
  lemma OneSleeper(x: Scene, k: KqId)
    requires SceneOk(x) && EventOf(k) in x.z && NoDup(x.z[EventOf(k)])
    ensures |x.z[EventOf(k)]| <= 1
  {
    SomeIn(x.z[EventOf(k)]);
  }

  lemma OneOwner(x: Scene, p: Pid)
    requires SceneOk(x) && ReplyOf(p) in x.z && NoDup(x.z[ReplyOf(p)])
    ensures x.z[ReplyOf(p)] == [] || (x.z[ReplyOf(p)] == [p] && (p in x.reply ==> x.reply[p] == []))
  {
    var l := x.z[ReplyOf(p)];
    SomeIn(l);
    assert |l| == 1 ==> l == [l[0]];
  }

  /** The holder of a kqueue is up: nobody sleeps for its events. */
  lemma HolderUp(x: Scene, c: Pid, k: KqId)
    requires SceneOk(x) && Up(x, c) && c in x.at && x.at[c] == Has(k)
    ensures EventOf(k) in x.z && x.z[EventOf(k)] == [] && k in x.pend && BusyOf(k) in x.z
  {
    SomeIn(x.z[EventOf(k)]);
  }

  // ---------------------------------------------------------------------
  // Waking a list of rendez.

  lemma {:induction false} FewerAfter(z: map<RendezId, seq<Pid>>, wakes: seq<RendezId>)
    ensures Fewer(z, AfterWakes(z, wakes))
    decreases |wakes|
  {
    hide AfterWakes;
    WokenNone(z);
    if wakes != [] {
      FewerAfter(z, wakes[..|wakes| - 1]);
      WokenNext(z, wakes);
    }
  }

  /** A rendez with at most one sleeper is empty after being woken, and the sleeper has joined the lock's queue. */
  lemma {:induction false} WokenUp(z: map<RendezId, seq<Pid>>, wakes: seq<RendezId>, r: RendezId)
    requires r in z && |z[r]| <= 1 && r in wakes
    ensures AfterWakes(z, wakes)[r] == [] && forall p :: p in z[r] ==> p in Woken(z, wakes)
    decreases |wakes|
  {
    hide AfterWakes, Woken;
    var front, last := wakes[..|wakes| - 1], wakes[|wakes| - 1];
    WokenNext(z, wakes);
    FewerAfter(z, front);
    if r in front {
      WokenUp(z, front, r);
    } else {
      assert last == r by { assert wakes == front + [last]; }
      NotWoken(z, front, r);
    }
  }

  lemma {:induction false} NotWoken(z: map<RendezId, seq<Pid>>, wakes: seq<RendezId>, r: RendezId)
    requires r in z && r !in wakes
    ensures AfterWakes(z, wakes)[r] == z[r]
    decreases |wakes|
  {
    hide AfterWakes;
    WokenNone(z);
    if wakes != [] {
      NotWoken(z, wakes[..|wakes| - 1], r);
      WokenNext(z, wakes);
    }
  }

  lemma BootScene(x: Scene)
    requires x.at == map[] && x.busy == {} && x.waiting == {} && forall r :: r in x.z ==> x.z[r] == []
    requires forall k :: k in x.pend ==> EventOf(k) in x.z && BusyOf(k) in x.z
    requires forall p :: p in x.reply ==> ReplyOf(p) in x.z
    ensures SceneOk(x)
  {
  }

  lemma RendezThere(x: Scene)
    requires SceneOk(x)
    ensures forall k :: k in x.pend ==> EventOf(k) in x.z && BusyOf(k) in x.z
    ensures forall p :: p in x.reply ==> ReplyOf(p) in x.z
  {
  }

  function Union(ss: seq<set<KqId>>): set<KqId> {
    if ss == [] then {} else Union(ss[..|ss| - 1]) + ss[|ss| - 1]
  }

  lemma UnionMore(ss: seq<set<KqId>>, s: set<KqId>)
    ensures Union(ss + [s]) == Union(ss) + s
  {
    assert (ss + [s])[..|ss|] == ss;
  }

  lemma Held(at: map<Pid, Site>, busy: set<KqId>, failed: set<KqId>)
    requires OnlyFailed(at, busy, failed) && HoldersOk(at, busy)
    ensures forall k :: k in busy && k !in failed <==> exists p :: Holds(at, p, k)
  {
    forall k ensures k in busy && k !in failed <==> exists p :: Holds(at, p, k) {
      assert Abandoned(at, busy, k) <==> k in failed;
    }
  }

  lemma HoldersIs(x: Scene)
    requires SceneOk(x)
    ensures HoldersOk(x.at, x.busy)
  {
  }

  lemma NotWaiting(x: Scene, c: Pid)
    requires SceneOk(x) && c !in x.at
    ensures c !in x.waiting
  {
  }

  lemma IsWaiting(x: Scene, c: Pid)
    requires SceneOk(x) && c in x.at && x.at[c] == AwaitsReply
    ensures c in x.waiting && c in x.reply
  {
  }

  lemma WantsKnown(x: Scene, c: Pid)
    requires SceneOk(x) && c in x.at && x.at[c].Wants?
    ensures x.at[c].kq in x.pend
  {
  }

  /** The reply has come and its owner, the only one there, is woken. */
  lemma ReplyWoken(x: Scene, p: Pid, m: MsgId)
    requires SceneOk(x) && p in x.reply && ReplyOf(p) in x.z && (x.z[ReplyOf(p)] == [] || x.z[ReplyOf(p)] == [p])
    ensures SceneOk(x.(z := x.z[ReplyOf(p) := []], reply := x.reply[p := x.reply[p] + [m]]))
  {
    hide SitesOk, SleepersOk, HoldersOk, NothingMissed, AllServed;
    SceneWoken(x, x.z[ReplyOf(p) := []]);
    SceneReplied(x.(z := x.z[ReplyOf(p) := []]), p, m);
  }

  lemma ReplyWakes(x: Scene, p: Pid, m: MsgId, notes: Notes, draining: set<NoteId>)
    requires SceneOk(x) && p in x.reply && forall r :: r in x.z ==> NoDup(x.z[r])
    ensures ReplyOf(p) in x.z && x.z[ReplyOf(p)] in {[], [p]}
    ensures SceneOk(x.(z := x.z[ReplyOf(p) := []], reply := x.reply[p := x.reply[p] + [m]]))
    ensures Rested(notes, x.z, draining) ==> Rested(notes, x.z[ReplyOf(p) := []], draining)
  {
    hide SceneOk, Rested, NoDup;
    RendezThere(x);
    OneOwner(x, p);
    ReplyWoken(x, p, m);
    if Rested(notes, x.z, draining) { RestedWoken(notes, x.z, x.z[ReplyOf(p) := []], draining); }
  }

  /** Where the bell rang, nobody sleeps. */
  lemma Rang(x: Scene, pend': map<KqId, seq<NoteId>>, wakes: seq<RendezId>)
    requires SceneOk(x) && Rung(x.pend, pend', wakes) && Grown(x.pend, pend') && forall r :: r in x.z ==> NoDup(x.z[r])
    ensures forall k :: k in pend' && pend'[k] != x.pend[k] ==> EventOf(k) in AfterWakes(x.z, wakes) && AfterWakes(x.z, wakes)[EventOf(k)] == []
    ensures pend'.Keys == x.pend.Keys
  {
    hide NoDup, SceneOk, AfterWakes, Woken;
    RendezThere(x);
    forall k | k in pend' && pend'[k] != x.pend[k] ensures AfterWakes(x.z, wakes)[EventOf(k)] == [] {
      OneSleeper(x, k);
      WokenUp(x.z, wakes, EventOf(k));
    }
  }

  /** A listening knote is pending, and nobody sleeps for it: if the bell did not ring, it was pending before. */
  lemma Reached(x: Scene, notes: Notes, notes': Notes, pend': map<KqId, seq<NoteId>>, wakes: seq<RendezId>, o: Obj, n: NoteId, bkl: seq<Pid>)
    requires SceneOk(x) && Rung(x.pend, pend', wakes) && Grown(x.pend, pend') && forall r :: r in x.z ==> NoDup(x.z[r])
    requires Raised(notes, notes', o, notes.Keys) && PendingOk(notes', pend')
    requires n in notes' && notes'[n].enabled && notes'[n].obj == Some(o)
    ensures notes'[n].pending && AllUp(x.z, EventOf(notes'[n].kq), AfterWakes(x.z, wakes), bkl + Woken(x.z, wakes))
  {
    hide NoDup, SceneOk, AfterWakes, Woken, PendingOk;
    var k := notes'[n].kq;
    PendingKnown(notes', pend', n);
    RendezThere(x);
    OneSleeper(x, k);
    if pend'[k] != x.pend[k] {
      WokenUp(x.z, wakes, EventOf(k));
    } else {
      NoneAsleep(x, k);
      NotWoken(x.z, wakes, EventOf(k));
    }
  }

  lemma NoneAsleep(x: Scene, k: KqId)
    requires SceneOk(x) && k in x.pend && x.pend[k] != [] && EventOf(k) in x.z
    ensures x.z[EventOf(k)] == []
  {
  }

  lemma EachServed(x: Scene)
    requires SceneOk(x)
    ensures forall k :: k !in x.busy ==> Served(x.z, x.at, k)
  {
  }

  lemma RestedIs(notes: Notes, z: map<RendezId, seq<Pid>>, draining: set<NoteId>, n: NoteId)
    requires Rested(notes, z, draining) && n in notes && EventOf(notes[n].kq) in z && z[EventOf(notes[n].kq)] != []
    ensures n !in draining
  {
  }

  /** The sleepers of a rendez have all joined the queue for the lock. */
  ghost predicate AllUp(z: map<RendezId, seq<Pid>>, r: RendezId, z': map<RendezId, seq<Pid>>, bkl': seq<Pid>) {
    r in z && r in z' && z'[r] == [] && forall p :: p in z[r] ==> p in bkl'
  }

  lemma RunsNowhere(x: Places, owner: Option<Pid>, pc: map<Pid, Pc>, c: Pid)
    requires Placed(x, {}) && Control(x, owner, pc, c)
    ensures forall r :: r in x.rendez ==> c !in x.rendez[r] && NoDup(x.rendez[r])
  {
    assert !SpotOf(x, {}, c).Rendez?;
  }

  // ---------------------------------------------------------------------

  datatype Move =
    | SendTo(q: PortId, m: MsgId) | AwaitIt | TakeReply
    | BeginKevent(kq: KqId) | TryQueue | ChangeOne(c: Change, obj: Option<Obj>) | WaitEvent | EndKevent(nevents: nat)
    | GetFrom(q: PortId) | ReplyTo(q: PortId, msgid: int, st: int) | Notify(o: Obj)
    | Plain(a: Action)

  class IpcSystem {
    const s: Scheduler
    const mail: MailRoom
    const ev: EventQueues
    var at: map<Pid, Site>
    var draining: set<NoteId>
    ghost var failed: set<KqId>

    ghost function View(): Scene
      reads `at, s`rendez, s`pc, ev`busy, ev`pend, mail`reply, mail`waiting
    {
      Scene(s.rendez, s.pc, at, ev.busy, ev.pend, mail.reply, mail.waiting.Keys)
    }

    ghost predicate Linked()
      reads `draining, mail`port, ev`notes, ev`att
    {
      Heard(ev.notes, mail.port, draining) && forall q :: q in mail.port ==> Port(q) in ev.att
    }

    ghost predicate AtRest()
      reads `draining, ev`notes, s`rendez
    {
      Rested(ev.notes, s.rendez, draining)
    }

    ghost predicate Inv()
      reads this, s, mail, ev
    {
      && s.Inv() && ev.s == s && mail.Valid() && ev.Valid() && Linked() && SceneOk(View())
      && OnlyFailed(at, ev.busy, failed)
    }

    constructor (mail: MailRoom, ev: EventQueues)
      requires ev.s.Inv() && mail.Valid() && ev.Valid() && ev.notes == map[] && ev.busy == {} && mail.waiting == map[]
      requires forall q :: q in mail.port ==> Port(q) in ev.att
      requires forall k :: k in ev.pend ==> EventOf(k) in ev.s.rendez && BusyOf(k) in ev.s.rendez
      requires forall p :: p in mail.reply ==> ReplyOf(p) in ev.s.rendez
      requires forall r :: r in ev.s.rendez ==> ev.s.rendez[r] == []
      ensures Inv() && AtRest() && s == ev.s && this.mail == mail && this.ev == ev && at == map[] && draining == {}
      ensures failed == {}
    {
      hide Scheduler.Inv, MailRoom.Valid, PendingOk, IndexOk, SceneOk;
      s, this.mail, this.ev, at, draining, failed := ev.s, mail, ev, map[], {}, {};
      new;
      BootScene(View());
    }

    /** The process on the processor, in the kernel, sleeps nowhere. */
    lemma CurrentUp()
      requires s.Inv() && s.pc[s.current] == InKernel
      ensures s.locked && Up(View(), s.current) && forall r :: r in s.rendez ==> NoDup(s.rendez[r])
    {
      hide NoDup;
      s.InKernelHolds();
      RunsNowhere(s.Where(), s.owner, s.pc, s.current);
    }

    /** An event on an object: those asleep for events of a kqueue that listens to it join the queue for the lock. */
    method Announce(o: Obj)
      requires s.Inv() && ev.s == s && s.pc[s.current] == InKernel && ev.Valid() && o in ev.att && SceneOk(View())
      modifies ev`notes, ev`pend, s`rendez, s`blocked, s`state, s`log
      ensures s.Inv() && ev.Valid() && SceneOk(View()) && Raised(old(ev.notes), ev.notes, o, old(ev.notes).Keys)
      ensures Fewer(old(s.rendez), s.rendez) && old(s.blocked) <= s.blocked
      ensures forall n :: n in ev.notes && ev.notes[n].enabled && ev.notes[n].obj == Some(o) ==>
                ev.notes[n].pending && AllUp(old(s.rendez), EventOf(ev.notes[n].kq), s.rendez, s.blocked)
    {
      hide OnlyFailed, Scheduler.Inv, MailRoom.Valid, PendingOk, IndexOk, Heard, SceneOk, Rested, AllUp, Raised, Rung, Grown, Fewer, AfterWakes, Woken, NoDup;
      CurrentUp();
      ghost var x := View();
      RendezThere(x);
      ghost var wakes := ev.Knote(o);
      FewerAfter(x.z, wakes);
      SceneWoken(x, s.rendez);
      Rang(x, ev.pend, wakes);
      ScenePending(x.(z := s.rendez), ev.pend);
      forall n | n in ev.notes && ev.notes[n].enabled && ev.notes[n].obj == Some(o)
        ensures ev.notes[n].pending && AllUp(x.z, EventOf(ev.notes[n].kq), s.rendez, s.blocked) {
        Reached(x, old(ev.notes), ev.notes, ev.pend, wakes, o, n, old(s.blocked));
      }
    }

    /** A client sends a message and will wait for the reply. */
    method Send(q: PortId, m: MsgId)
      requires Inv() && s.pc[s.current] == InKernel && s.current !in at
      requires s.current in mail.reply && q in mail.port && m !in mail.loc
      modifies `at, mail, ev`notes, ev`pend, s`rendez, s`blocked, s`state, s`log
      ensures Inv() && at == old(at)[s.current := AwaitsReply] && mail.waiting == old(mail.waiting)[s.current := m]
      ensures mail.port == old(mail.port)[q := old(mail.port)[q] + [m]]
      ensures Raised(old(ev.notes), ev.notes, Port(q), old(ev.notes).Keys)
      ensures forall n :: n in ev.notes && ev.notes[n].enabled && ev.notes[n].obj == Some(Port(q)) ==>
                ev.notes[n].pending && AllUp(old(s.rendez), EventOf(ev.notes[n].kq), s.rendez, s.blocked)
      ensures old(AtRest()) ==> AtRest()
    {
      hide OnlyFailed, Scheduler.Inv, MailRoom.Valid, PendingOk, IndexOk, Heard, SceneOk, Rested, AllUp, Raised, Fewer;
      CurrentUp();
      ghost var x, notes := View(), ev.notes;
      NotWaiting(x, s.current);
      SceneSends(x, s.current);
      mail.PutMsg(s.current, q, m);
      FailedSame(at, ev.busy, failed, s.current, AwaitsReply);
      at := at[s.current := AwaitsReply];
      assert mail.waiting.Keys == x.waiting + {s.current};
      Announce(Port(q));
      HeardSend(notes, ev.notes, old(mail.port), draining, q, m);
      if old(AtRest()) { RestedEvent(notes, ev.notes, old(s.rendez), s.rendez, draining, Port(q)); }
    }

    /** An event on an object that is no port. */
    method Notice(o: Obj)
      requires Inv() && s.pc[s.current] == InKernel && o in ev.att
      modifies ev`notes, ev`pend, s`rendez, s`blocked, s`state, s`log
      ensures Inv() && Raised(old(ev.notes), ev.notes, o, old(ev.notes).Keys)
      ensures forall n :: n in ev.notes && ev.notes[n].enabled && ev.notes[n].obj == Some(o) ==>
                ev.notes[n].pending && AllUp(old(s.rendez), EventOf(ev.notes[n].kq), s.rendez, s.blocked)
      ensures old(AtRest()) ==> AtRest()
    {
      hide OnlyFailed, Scheduler.Inv, MailRoom.Valid, PendingOk, IndexOk, Heard, SceneOk, Rested, AllUp, Raised, Fewer;
      ghost var notes := ev.notes;
      Announce(o);
      HeardEvent(notes, ev.notes, mail.port, draining, o);
      if old(AtRest()) { RestedEvent(notes, ev.notes, old(s.rendez), s.rendez, draining, o); }
    }

    /** The client finds no reply and sleeps on its reply port. */
    method Await()
      requires Inv() && s.pc[s.current] == InKernel && s.current != s.idle
      requires s.current in at && at[s.current] == AwaitsReply && s.current in mail.reply && mail.reply[s.current] == []
      modifies s`queue, s`bitmap, s`locked, s`owner, s`blocked, s`state, s`current, s`pc, s`log, s`rendez, s`on
      ensures Inv() && (old(AtRest()) ==> AtRest()) && ReplyOf(old(s.current)) in old(s.rendez)
      ensures var r := ReplyOf(old(s.current)); s.rendez == old(s.rendez)[r := old(s.rendez)[r] + [old(s.current)]]
    {
      hide OnlyFailed, Scheduler.Inv, MailRoom.Valid, PendingOk, IndexOk, Heard, SceneOk, Rested, MostUrgent, Chosen, Turned, Parted, Passed, NoDup, Up;
      CurrentUp();
      ghost var x := View();
      RendezThere(x);
      SceneSleeps(x, s.current, ReplyOf(s.current));
      if AtRest() { RestedAsleep(ev.notes, s.rendez, draining, ReplyOf(s.current), s.current); }
      s.TaskSleep(ReplyOf(s.current));
    }

    /** The client returns with the status its message was given. */
    method Finish() returns (st: int)
      requires Inv() && s.pc[s.current] == InKernel
      requires s.current in at && at[s.current] == AwaitsReply && s.current in mail.reply && mail.reply[s.current] != []
      modifies `at, mail
      ensures Inv() && at == old(at) - {s.current} && (old(AtRest()) ==> AtRest())
      ensures s.current in old(mail.waiting) && mail.waiting == old(mail.waiting) - {s.current}
      ensures mail.reply == old(mail.reply)[s.current := []]
      ensures old(mail.waiting)[s.current] in mail.given && st == mail.given[old(mail.waiting)[s.current]]
    {
      hide OnlyFailed, Scheduler.Inv, MailRoom.Valid, PendingOk, IndexOk, Heard, SceneOk, Rested, NoDup;
      CurrentUp();
      ghost var x := View();
      IsWaiting(x, s.current);
      SceneReturns(x, s.current);
      st := mail.FinishSend(s.current);
      FailedSame(at, ev.busy, failed, s.current, AwaitsReply);
      at := at - {s.current};
      assert mail.waiting.Keys == x.waiting - {s.current};
    }

    /** A server replies to a message: its sender, if asleep, joins the queue for the lock. */
    method Reply(q: PortId, msgid: int, st: int) returns (r: Result<MsgId>)
      requires Inv() && s.pc[s.current] == InKernel && q in mail.port
      modifies mail, s`rendez, s`blocked, s`state, s`log
      ensures Inv() && mail.port == old(mail.port) && mail.waiting == old(mail.waiting) && (old(AtRest()) ==> AtRest())
      ensures q in mail.size && q in old(mail.free) && (r.Ok? <==> 0 <= msgid < mail.size[q] && msgid !in old(mail.free)[q])
      ensures r.Ok? ==> mail.given == old(mail.given)[r.value := st] && r.value in mail.sender
      ensures r.Ok? ==> SlotAnswered(old(mail.slot), old(mail.free), old(mail.reply), old(mail.loc), mail.slot, mail.free, mail.reply,
                                     mail.loc, mail.sender, q, msgid, r.value)
      ensures r.Ok? ==> AllUp(old(s.rendez), ReplyOf(mail.sender[r.value]), s.rendez, s.blocked)
      ensures r.Ok? ==> s.rendez == old(s.rendez)[ReplyOf(mail.sender[r.value]) := []]
      ensures r.Err? ==> s.rendez == old(s.rendez) && s.blocked == old(s.blocked) && mail.reply == old(mail.reply)
    {
      hide OnlyFailed, Scheduler.Inv, MailRoom.Valid, PendingOk, IndexOk, Heard, SceneOk, Rested, NoDup;
      CurrentUp();
      ghost var x := View();
      r := mail.ReplyMsg(q, msgid, st);
      if r.Ok? {
        var p := mail.sender[r.value];
        ReplyWakes(x, p, r.value, ev.notes, draining);
        WakeOwner(p);
      }
    }

    method WakeOwner(p: Pid)
      requires s.Inv() && s.locked && ReplyOf(p) in s.rendez && s.rendez[ReplyOf(p)] in {[], [p]}
      modifies s`rendez, s`blocked, s`state, s`log
      ensures s.Inv() && s.rendez == old(s.rendez)[ReplyOf(p) := []]
      ensures AllUp(old(s.rendez), ReplyOf(p), s.rendez, s.blocked)
    {
      hide Scheduler.Inv;
      assert [p][1..] == [];
      s.TaskWakeup(ReplyOf(p));
      assert old(s.rendez)[ReplyOf(p)] == [] ==> s.rendez == old(s.rendez)[ReplyOf(p) := []];
    }

    /** A process calls kevent. */
    method Begin(kq: KqId)
      requires Inv() && s.pc[s.current] == InKernel && s.current !in at && kq in ev.pend
      modifies `at
      ensures Inv() && at == old(at)[s.current := Wants(kq)]
    {
      hide OnlyFailed, Scheduler.Inv, MailRoom.Valid, PendingOk, IndexOk, Heard, SceneOk, Rested, NoDup;
      CurrentUp();
      SceneWants(View(), s.current, kq);
      FailedSame(at, ev.busy, failed, s.current, Wants(kq));
      at := at[s.current := Wants(kq)];
    }

    /** It takes the kqueue if it is not busy, and sleeps otherwise, to look again. */
    method Try(kq: KqId) returns (mine: bool)
      requires Inv() && s.pc[s.current] == InKernel && s.current != s.idle && s.current in at && at[s.current] == Wants(kq)
      modifies `at, ev`busy, s`queue, s`bitmap, s`locked, s`owner, s`blocked, s`state, s`current, s`pc, s`log, s`rendez, s`on
      ensures Inv() && (old(AtRest()) ==> AtRest())
      ensures (mine <==> kq !in old(ev.busy)) && ev.busy == old(ev.busy) + {kq}
      ensures at == if mine then old(at)[old(s.current) := Has(kq)] else old(at)
      ensures mine ==> s.rendez == old(s.rendez) && s.pc == old(s.pc) && s.current == old(s.current)
      ensures !mine ==> BusyOf(kq) in old(s.rendez)
      ensures !mine ==> s.rendez == old(s.rendez)[BusyOf(kq) := old(s.rendez)[BusyOf(kq)] + [old(s.current)]]
    {
      hide OnlyFailed, Scheduler.Inv, MailRoom.Valid, PendingOk, IndexOk, Heard, SceneOk, Rested;
      Trying(kq);
      mine := ev.Acquire(kq);
      if mine {
        at := at[s.current := Has(kq)];
      }
    }

    lemma Trying(kq: KqId)
      requires Inv() && s.pc[s.current] == InKernel && s.current in at && at[s.current] == Wants(kq)
      ensures var x, c, r := View(), s.current, BusyOf(kq);
              && r in x.z && (AtRest() ==> Rested(ev.notes, x.z[r := x.z[r] + [c]], draining))
              && if kq in x.busy
                 then ev.busy + {kq} == ev.busy && SceneOk(x.(z := x.z[r := x.z[r] + [c]], pc := x.pc[c := InSleep], busy := x.busy + {kq}))
                 else SceneOk(x.(at := x.at[c := Has(kq)], busy := x.busy + {kq})) && OnlyFailed(at[c := Has(kq)], ev.busy + {kq}, failed)
    {
      hide OnlyFailed, Scheduler.Inv, MailRoom.Valid, PendingOk, IndexOk, Heard, SceneOk, Rested, NoDup, Up;
      CurrentUp();
      var x, c := View(), s.current;
      WantsKnown(x, c);
      RendezThere(x);
      TryScene(x, c, kq);
      HoldersIs(x);
      if kq !in ev.busy { FailedTaken(at, ev.busy, failed, c, kq); }
      if AtRest() { RestedAsleep(ev.notes, s.rendez, draining, BusyOf(kq), c); }
    }

    /** One entry of its change list; at the first error it leaves, and the kqueue stays busy. */
    method Change(kq: KqId, c: Change, obj: Option<Obj>) returns (err: Option<Errno>)
      requires Inv() && s.pc[s.current] == InKernel && s.current in at && at[s.current] == Has(kq)
      requires obj.Some? ==> obj.value in ev.att
      modifies `at, `draining, `failed, ev`notes, ev`pend, ev`att, ev`hash, ev`spare
      ensures Inv() && (old(AtRest()) ==> AtRest())
      ensures ev.pend.Keys == old(ev.pend.Keys)
      ensures err.Some? <==> Refused(old(ev.notes), old(ev.spare), ev.syscount, kq, c, obj)
      ensures err.None? ==> Applied(old(ev.notes), old(ev.pend), old(ev.spare), kq, c, obj, Full(mail.port), ev.notes, ev.pend, ev.spare)
      ensures err.Some? ==> ev.notes == old(ev.notes) && ev.pend == old(ev.pend) && ev.spare == old(ev.spare)
      ensures err.None? ==> at == old(at) && failed == old(failed)
      ensures err.Some? ==> at == old(at) - {s.current} && failed == old(failed) + {kq} && kq in ev.busy && kq !in old(failed)
    {
      hide OnlyFailed, Scheduler.Inv, MailRoom.Valid, PendingOk, IndexOk, Heard, SceneOk, Rested, NoDup, Abandoned, Applied;
      CurrentUp();
      HolderUp(View(), s.current, kq);
      err := ChangeNote(kq, c, obj);
      if err.Some? {
        CurrentUp();
        SceneAbandons(View(), s.current, kq);
        HoldersIs(View());
        FailedMore(at, ev.busy, failed, s.current, kq);
        failed := failed + {kq};
        at := at - {s.current};
      }
    }

    method ChangeNote(kq: KqId, c: Change, obj: Option<Obj>) returns (err: Option<Errno>)
      requires Inv() && kq in ev.pend && EventOf(kq) in s.rendez && s.rendez[EventOf(kq)] == []
      requires obj.Some? ==> obj.value in ev.att
      modifies `draining, ev`notes, ev`pend, ev`att, ev`hash, ev`spare
      ensures Inv() && (old(AtRest()) ==> AtRest()) && ev.pend.Keys == old(ev.pend.Keys)
      ensures err.Some? <==> Refused(old(ev.notes), old(ev.spare), ev.syscount, kq, c, obj)
      ensures err.None? ==> Applied(old(ev.notes), old(ev.pend), old(ev.spare), kq, c, obj, Full(mail.port), ev.notes, ev.pend, ev.spare)
      ensures err.Some? ==> ev.notes == old(ev.notes) && ev.pend == old(ev.pend) && ev.spare == old(ev.spare)
    {
      hide OnlyFailed, Scheduler.Inv, MailRoom.Valid, PendingOk, IndexOk, Heard, SceneOk, Rested, NoDup, Changed, Refused, Applied;
      ghost var x, notes := View(), ev.notes;
      HeardKnown(notes, mail.port, draining);
      err := ev.Apply(kq, c, obj, Full(mail.port));
      HeardChange(notes, ev.notes, mail.port, draining, kq, c);
      if old(AtRest()) { RestedChange(notes, ev.notes, mail.port, s.rendez, draining, kq, c); }
      draining := draining * ev.notes.Keys;
      ScenePending(x, ev.pend);
    }

    /** It finds nothing pending and sleeps for an event. */
    method Wait(kq: KqId)
      requires Inv() && s.pc[s.current] == InKernel && s.current != s.idle && s.current in at && at[s.current] == Has(kq)
      requires kq in ev.pend && ev.pend[kq] == []
      modifies s`queue, s`bitmap, s`locked, s`owner, s`blocked, s`state, s`current, s`pc, s`log, s`rendez, s`on
      ensures Inv() && s.rendez == old(s.rendez)[EventOf(kq) := [old(s.current)]]
      ensures old(AtRest()) && (forall n :: n in draining && n in ev.notes ==> ev.notes[n].kq != kq) ==> AtRest()
    {
      hide OnlyFailed, Scheduler.Inv, MailRoom.Valid, PendingOk, IndexOk, Heard, SceneOk, MostUrgent, Chosen, Turned, Parted, Passed, NoDup, Up;
      CurrentUp();
      ghost var x := View();
      HolderUp(x, s.current, kq);
      SceneSleeps(x, s.current, EventOf(kq));
      assert [] + [s.current] == [s.current];
      s.TaskSleep(EventOf(kq));
    }

    /** It takes up to `nevents` events, none after a timeout, and leaves: the first process that waits for the kqueue is woken. */
    method End(kq: KqId, nevents: nat) returns (events: seq<NoteId>)
      requires Inv() && s.pc[s.current] == InKernel && s.current in at && at[s.current] == Has(kq)
      modifies `at, `draining, ev`notes, ev`pend, ev`att, ev`hash, ev`spare, ev`busy, s`rendez, s`blocked, s`state, s`log
      ensures Inv() && (old(AtRest()) ==> AtRest()) && at == old(at) - {s.current}
      ensures ev.busy == old(ev.busy) - {kq} && kq in old(ev.pend) && kq in ev.pend && old(ev.pend)[kq] == events + ev.pend[kq]
      ensures |events| <= nevents && (|events| < nevents ==> ev.pend[kq] == [])
    {
      hide OnlyFailed, Scheduler.Inv, MailRoom.Valid, PendingOk, IndexOk, Heard, SceneOk, Rested, NoDup, Collected;
      CurrentUp();
      HolderUp(View(), s.current, kq);
      events := TakeEvents(kq, nevents);
      CurrentUp();
      ghost var x := View();
      if AtRest() { RestedPopped(ev.notes, s.rendez, draining, BusyOf(kq)); }
      SceneReleases(x, s.current, kq, if x.z[BusyOf(kq)] == [] then x.z else x.z[BusyOf(kq) := x.z[BusyOf(kq)][1..]]);
      HoldersIs(x);
      FailedReleased(at, ev.busy, failed, s.current, kq);
      ev.Release(kq);
      at := at - {s.current};
    }

    method TakeEvents(kq: KqId, nevents: nat) returns (events: seq<NoteId>)
      requires Inv() && kq in ev.pend && EventOf(kq) in s.rendez && s.rendez[EventOf(kq)] == []
      modifies `draining, ev`notes, ev`pend, ev`att, ev`hash, ev`spare
      ensures Inv() && (old(AtRest()) ==> AtRest())
      ensures kq in ev.pend && old(ev.pend)[kq] == events + ev.pend[kq]
      ensures |events| <= nevents && (|events| < nevents ==> ev.pend[kq] == [])
    {
      hide OnlyFailed, Scheduler.Inv, MailRoom.Valid, PendingOk, IndexOk, Heard, SceneOk, Rested, Collected;
      ghost var x, notes, pend := View(), ev.notes, ev.pend;
      HeardKnown(notes, mail.port, draining);
      events := ev.Collect(kq, nevents);
      HeardCollect(notes, ev.notes, mail.port, draining, events);
      if old(AtRest()) { RestedCollect(notes, ev.notes, pend, s.rendez, draining, events, kq); }
      draining := (draining + Members(events)) * ev.notes.Keys;
      ScenePending(x, ev.pend);
    }

    /** A server takes a message; finding none, it has drained the port. */
    method Get(q: PortId) returns (r: Result<Option<nat>>)
      requires Inv() && q in mail.port
      modifies mail, `draining
      ensures Inv() && mail.port.Keys == old(mail.port.Keys) && (old(AtRest()) ==> AtRest())
      ensures draining == if r == Ok(None) then Drained(ev.notes, old(draining), q) else old(draining)
      ensures q in old(mail.free) && (r == Err(EAGAIN) <==> old(mail.free)[q] == {}) && (r.Err? ==> r.error == EAGAIN)
      ensures r == Ok(None) <==> old(mail.free)[q] != {} && old(mail.port)[q] == []
      ensures r.Err? || r == Ok(None) ==> mail.port == old(mail.port) && mail.loc == old(mail.loc)
      ensures r.Ok? && r.value.Some? ==>
                MessageTaken(old(mail.port), old(mail.free), old(mail.loc), mail.port, mail.slot, mail.loc, q, r.value.value)
    {
      hide OnlyFailed, Scheduler.Inv, MailRoom.Valid, PendingOk, IndexOk, Heard, SceneOk, Rested, Delivered, BacklogsOk, SendersOk;
      ghost var port := mail.port;
      r := mail.GetMsg(q);
      if r == Ok(None) {
        HeardDrained(ev.notes, port, draining, q);
        if AtRest() { RestedLess(ev.notes, s.rendez, draining, Drained(ev.notes, draining, q)); }
        draining := Drained(ev.notes, draining, q);
      } else {
        assert Full(mail.port) <= Full(port);
        HeardTaken(ev.notes, port, mail.port, draining);
      }
    }

    /** Whatever else goes on. */
    method Else(a: Action)
      requires Inv() && s.current in s.pc && Apart(a, s.current in at) && !TooLate(a, s.pc[s.current], s.locked, s.blocked)
      modifies s
      ensures Inv() && (old(AtRest()) ==> AtRest()) && Acted(a, s.idle, old(s.Sighted()), s.rendez, s.pc)
    {
      hide OnlyFailed, Scheduler.Inv, MailRoom.Valid, PendingOk, IndexOk, Heard, SceneOk, Rested, NoDup, Confined, Calm, Wreck, Acted;
      ghost var x, c := View(), s.current;
      var kept := s.Step(a);
      SceneElse(x, a, c, s.rendez, s.pc);
      if old(AtRest()) { RestedWoken(ev.notes, x.z, s.rendez, draining); }
    }

    // -------------------------------------------------------------------
    // Whole runs.

    /** The process on the processor is where it can take the step. */
    ghost predicate Able(m: Move)
      reads this, s`current, s`pc, mail`port, mail`reply, mail`sender, ev`pend, ev`att
    {
      var c := s.current;
      c in s.pc && if m.Plain? then Apart(m.a, c in at)
                   else s.pc[c] == InKernel && if c in at then c != s.idle && AbleInside(m) else AbleOutside(m)
    }

    ghost predicate AbleOutside(m: Move)
      reads s`current, mail`port, mail`reply, mail`sender, ev`pend, ev`att
    {
      match m
      case SendTo(q, msg) => s.current in mail.reply && q in mail.port && msg !in mail.sender
      case BeginKevent(kq) => kq in ev.pend
      case GetFrom(q) => q in mail.port
      case ReplyTo(q, _, _) => q in mail.port
      case Notify(o) => o in ev.att
      case _ => false
    }

    ghost predicate AbleInside(m: Move)
      requires s.current in at
      reads `at, s`current, mail`reply, ev`pend, ev`att
    {
      var c := s.current;
      match m
      case AwaitIt => at[c] == AwaitsReply && c in mail.reply && mail.reply[c] == []
      case TakeReply => at[c] == AwaitsReply && c in mail.reply && mail.reply[c] != []
      case TryQueue => at[c].Wants?
      case ChangeOne(_, obj) => at[c].Has? && (obj.Some? ==> obj.value in ev.att)
      case WaitEvent => at[c].Has? && at[c].kq in ev.pend && ev.pend[at[c].kq] == []
      case EndKevent(n) => at[c].Has? && at[c].kq in ev.pend && (n == 0 || ev.pend[at[c].kq] != [])
      case _ => false
    }

    /** What a step that is taken does, as far as the calls of this module go. */
    twostate predicate Took(m: Move)
      reads this, s, mail, ev
    {
      var c := old(s.current);
      match m
      case SendTo(q, msg) =>
        && q in old(mail.port) && mail.port == old(mail.port)[q := old(mail.port)[q] + [msg]]
        && at == old(at)[c := AwaitsReply] && mail.waiting == old(mail.waiting)[c := msg]
        && Raised(old(ev.notes), ev.notes, Port(q), old(ev.notes).Keys)
      case AwaitIt => at == old(at) && ReplyOf(c) in s.rendez && c in s.rendez[ReplyOf(c)]
      case TakeReply => at == old(at) - {c} && mail.waiting == old(mail.waiting) - {c} && mail.reply == old(mail.reply)[c := []]
      case BeginKevent(kq) => at == old(at)[c := Wants(kq)]
      case TryQueue =>
        && c in old(at) && old(at)[c].Wants?
        && var kq := old(at)[c].kq;
           if kq in old(ev.busy) then at == old(at) && BusyOf(kq) in s.rendez && c in s.rendez[BusyOf(kq)]
           else at == old(at)[c := Has(kq)] && ev.busy == old(ev.busy) + {kq}
      case ChangeOne(ch, obj) =>
        && c in old(at) && old(at)[c].Has?
        && var kq := old(at)[c].kq;
           if Refused(old(ev.notes), old(ev.spare), ev.syscount, kq, ch, obj) then at == old(at) - {c} && ev.notes == old(ev.notes)
           else at == old(at)
                && Applied(old(ev.notes), old(ev.pend), old(ev.spare), kq, ch, obj, Full(mail.port), ev.notes, ev.pend, ev.spare)
      case WaitEvent => at == old(at) && c in at && at[c].Has? && s.rendez == old(s.rendez)[EventOf(at[c].kq) := [c]]
      case EndKevent(n) =>
        && c in old(at) && old(at)[c].Has? && at == old(at) - {c}
        && var kq := old(at)[c].kq;
           && ev.busy == old(ev.busy) - {kq} && kq in old(ev.pend) && kq in ev.pend
           && exists k :: 0 <= k <= n && k <= |old(ev.pend)[kq]| && (k < n ==> k == |old(ev.pend)[kq]|)
                          && ev.pend[kq] == old(ev.pend)[kq][k..]
      case GetFrom(q) =>
        && q in old(mail.free) && q in old(mail.port)
        && if old(mail.free)[q] == {} || old(mail.port)[q] == [] then mail.port == old(mail.port)
           else mail.port == old(mail.port)[q := old(mail.port)[q][1..]]
      case ReplyTo(q, msgid, st) =>
        && q in mail.size && q in old(mail.free)
        && if 0 <= msgid < mail.size[q] && msgid !in old(mail.free)[q] then
             && q in old(mail.slot) && msgid < |old(mail.slot)[q]| && old(mail.slot)[q][msgid].Some?
             && var msg := old(mail.slot)[q][msgid].value;
                && msg in mail.sender && mail.sender[msg] in old(mail.reply)
                && var p := mail.sender[msg];
                   mail.reply == old(mail.reply)[p := old(mail.reply)[p] + [msg]] && s.rendez == old(s.rendez)[ReplyOf(p) := []]
           else mail.reply == old(mail.reply) && s.rendez == old(s.rendez)
      case Notify(o) => Raised(old(ev.notes), ev.notes, o, old(ev.notes).Keys)
      case Plain(a) => Acted(a, s.idle, old(s.Sighted()), s.rendez, s.pc)
    }

    /** One step of the process on the processor, taken exactly if it can be; the server drains before it waits, or not. */
    method Step(m: Move) returns (ghost bad: set<KqId>)
      requires Inv() && s.current in s.pc && !(m.Plain? && TooLate(m.a, s.pc[s.current], s.locked, s.blocked))
      modifies this, s, mail, ev
      ensures Inv() && s.current in s.pc && failed == old(failed) + bad
      ensures bad == old(Errs(m))
      ensures old(AtRest()) && !(m.WaitEvent? && !old(DoneDraining())) ==> AtRest()
      ensures if old(Able(m)) then Took(m) else unchanged(this, s, mail, ev)
    {
      hide OnlyFailed, Scheduler.Inv, MailRoom.Valid, PendingOk, IndexOk, Linked, SceneOk, Rested, AllUp;
      var c := s.current;
      bad := Errs(m);
      if m.Plain? {
        if Apart(m.a, c in at) { Else(m.a); }
      } else if s.pc[c] == InKernel && c !in at {
        OutsideMove(m);
      } else if s.pc[c] == InKernel && c in at && c != s.idle {
        InsideMove(m);
      }
      s.InKernelHolds();
    }

    /** The kqueue, if there is one, on which this step of the process on the processor is an error. */
    ghost function Errs(m: Move): set<KqId>
      reads `at, s`current, s`pc, ev`notes, ev`spare, ev`att
    {
      var c := s.current;
      if m.ChangeOne? && c in s.pc && s.pc[c] == InKernel && c in at && at[c].Has? && c != s.idle
         && (m.obj.Some? ==> m.obj.value in ev.att) && Refused(ev.notes, ev.spare, ev.syscount, at[c].kq, m.c, m.obj)
      then {at[c].kq} else {}
    }

    /** Nothing is left to drain for the kqueue that the process holds. */
    predicate DoneDraining()
      reads `draining, `at, s`current, ev`notes
    {
      s.current in at && at[s.current].Has? && forall n :: n in draining && n in ev.notes ==> ev.notes[n].kq != at[s.current].kq
    }

    method OutsideMove(m: Move)
      requires Inv() && s.current in s.pc && s.pc[s.current] == InKernel && s.current !in at
      modifies this, s, mail, ev
      ensures Inv() && failed == old(failed) && (old(AtRest()) ==> AtRest())
      ensures if old(AbleOutside(m)) then Took(m) else unchanged(this, s, mail, ev)
    {
      hide OnlyFailed, Scheduler.Inv, MailRoom.Valid, PendingOk, IndexOk, Heard, SceneOk, Rested, AllUp, Raised;
      match m
      case SendTo(q, msg) =>
        if s.current in mail.reply && q in mail.port && msg !in mail.sender {
          mail.NewMessage(msg);
          Send(q, msg);
        }
      case BeginKevent(kq) => if kq in ev.pend { Begin(kq); }
      case Notify(o) => if o in ev.att { Notice(o); }
      case _ => ServerMove(m);
    }

    /** A server takes a message or replies to one. */
    method ServerMove(m: Move)
      requires Inv() && s.current in s.pc && s.pc[s.current] == InKernel && !(m.SendTo? || m.BeginKevent? || m.Notify?)
      modifies this, s, mail, ev
      ensures Inv() && failed == old(failed) && (old(AtRest()) ==> AtRest())
      ensures if old(AbleOutside(m)) then Took(m) else unchanged(this, s, mail, ev)
    {
      hide OnlyFailed, Scheduler.Inv, MailRoom.Valid, PendingOk, IndexOk, Heard, SceneOk, Rested, AllUp;
      match m
      case GetFrom(q) => if q in mail.port { var r := Get(q); }
      case ReplyTo(q, msgid, st) => if q in mail.port { var r := Reply(q, msgid, st); }
      case _ =>
    }

    method InsideMove(m: Move)
      requires Inv() && s.current in s.pc && s.pc[s.current] == InKernel && s.current in at && s.current != s.idle
      modifies this, s, mail, ev
      ensures Inv() && failed == old(failed) + old(Errs(m))
      ensures old(AtRest()) && !(m.WaitEvent? && !old(DoneDraining())) ==> AtRest()
      ensures if old(AbleInside(m)) then Took(m) else unchanged(this, s, mail, ev)
    {
      hide OnlyFailed, Scheduler.Inv, MailRoom.Valid, PendingOk, IndexOk, Heard, SceneOk, Rested;
      var site := at[s.current];
      match site
      case AwaitsReply =>
        Replied();
        if m.AwaitIt? && mail.reply[s.current] == [] {
          Await();
        } else if m.TakeReply? && mail.reply[s.current] != [] {
          var st := Finish();
        }
      case Wants(kq) =>
        if m.TryQueue? { var mine := Try(kq); }
      case Has(kq) => HolderMove(kq, m);
    }

    /** A step of the process that holds a kqueue. */
    method HolderMove(kq: KqId, m: Move)
      requires Inv() && s.current in s.pc && s.pc[s.current] == InKernel && s.current != s.idle
      requires s.current in at && at[s.current] == Has(kq)
      modifies this, s, mail, ev
      ensures Inv() && failed == old(failed) + old(Errs(m))
      ensures old(AtRest()) && !(m.WaitEvent? && !old(DoneDraining())) ==> AtRest()
      ensures if old(AbleInside(m)) then Took(m) else unchanged(this, s, mail, ev)
    {
      hide OnlyFailed, Scheduler.Inv, MailRoom.Valid, PendingOk, IndexOk, Heard, SceneOk, Rested, Applied;
      HeldKnown(kq);
      if m.ChangeOne? && (m.obj.Some? ==> m.obj.value in ev.att) {
        var err := Change(kq, m.c, m.obj);
      } else if m.WaitEvent? && ev.pend[kq] == [] {
        Wait(kq);
      } else if m.EndKevent? && (m.nevents == 0 || ev.pend[kq] != []) {
        var events := End(kq, m.nevents);
        assert ev.pend[kq] == old(ev.pend)[kq][|events|..];
      }
    }

    lemma Replied()
      requires Inv() && s.current in at && at[s.current] == AwaitsReply
      ensures s.current in mail.reply
    {
      IsWaiting(View(), s.current);
    }

    lemma HeldKnown(kq: KqId)
      requires Inv() && s.current in at && at[s.current] == Has(kq)
      ensures kq in ev.pend
    {
    }

    /**
      However processes interleave, up to a step that is too late for the lock. Nobody sleeps for events
      of a kqueue while a port that it listens to has a message, unless the server was told of that port
      and has not found it empty since. Nobody sleeps for a reply that has come. If somebody sleeps for a
      kqueue that is not busy, another who wants it is on the way. A kqueue that is busy is held by a
      process, exactly but for those on which a call has ended in an error, and these stay so.
     */
    method Run(moves: seq<Move>) returns (n: nat, ghost bads: seq<set<KqId>>)
      requires Inv()
      modifies this, s, mail, ev
      ensures Inv() && n <= |moves|
      ensures n < |moves| ==> moves[n].Plain? && s.current in s.pc && TooLate(moves[n].a, s.pc[s.current], s.locked, s.blocked)
      ensures NobodyMisses() && |bads| == n && failed == old(failed) + Union(bads)
      ensures forall k :: k in ev.busy && k !in failed <==> exists p :: Holds(at, p, k)
    {
      hide OnlyFailed, Scheduler.Inv, MailRoom.Valid, PendingOk, IndexOk, Heard, SceneOk, Rested, Abandoned, IpcSystem.NobodyMisses;
      n, bads := 0, [];
      s.InKernelHolds();
      while n < |moves| && !(moves[n].Plain? && TooLate(moves[n].a, s.pc[s.current], s.locked, s.blocked))
        invariant Inv() && s.current in s.pc && n <= |moves| && |bads| == n && failed == old(failed) + Union(bads)
      {
        ghost var bad := Step(moves[n]);
        UnionMore(bads, bad);
        n, bads := n + 1, bads + [bad];
      }
      Summary();
      HoldersIs(View());
      Held(at, ev.busy, failed);
    }

    /** If servers empty the ports they are told of before they wait again, nobody sleeps over a message. */
    method RunDrained(moves: seq<Move>)
      requires Inv() && AtRest()
      modifies this, s, mail, ev
      ensures Inv() && AtRest() && NobodyMisses()
      ensures forall n, q :: SleepsOver(ev.notes, mail.port, s.rendez, n, q) ==> mail.port[q] == []
    {
      hide OnlyFailed, Scheduler.Inv, MailRoom.Valid, PendingOk, IndexOk, Heard, SceneOk, Rested, Abandoned, IpcSystem.NobodyMisses;
      s.InKernelHolds();
      for i := 0 to |moves|
        invariant Inv() && AtRest() && s.current in s.pc
      {
        if !(moves[i].Plain? && TooLate(moves[i].a, s.pc[s.current], s.locked, s.blocked))
           && !(moves[i].WaitEvent? && !DoneDraining()) {
          ghost var bad := Step(moves[i]);
        }
      }
      Summary();
      forall n, q | SleepsOver(ev.notes, mail.port, s.rendez, n, q) ensures mail.port[q] == [] {
        AsleepOverEmpty(View(), ev.notes, mail.port, draining, n, q);
        RestedIs(ev.notes, s.rendez, draining, n);
      }
    }

    ghost predicate NobodyMisses()
      reads this, s`rendez, mail`reply, mail`port, ev`notes, ev`busy
    {
      && (forall k :: EventOf(k) in s.rendez ==> |s.rendez[EventOf(k)]| <= 1)
      && (forall n, q :: SleepsOver(ev.notes, mail.port, s.rendez, n, q) ==> mail.port[q] == [] || n in draining)
      && (forall p :: p in mail.reply && ReplyOf(p) in s.rendez ==>
            s.rendez[ReplyOf(p)] == [] || (s.rendez[ReplyOf(p)] == [p] && mail.reply[p] == []))
      && (forall k :: k !in ev.busy ==> Served(s.rendez, at, k))
    }

    lemma Summary()
      requires Inv()
      ensures NobodyMisses()
    {
      hide MailRoom.Valid, PendingOk, IndexOk, Heard, SceneOk, NoDup;
      var x := View();
      Lists();
      forall k | EventOf(k) in s.rendez ensures |s.rendez[EventOf(k)]| <= 1 {
        OneSleeper(x, k);
      }
      forall n, q | SleepsOver(ev.notes, mail.port, s.rendez, n, q) ensures mail.port[q] == [] || n in draining {
        AsleepOverEmpty(x, ev.notes, mail.port, draining, n, q);
      }
      forall p | p in mail.reply && ReplyOf(p) in s.rendez
        ensures s.rendez[ReplyOf(p)] == [] || (s.rendez[ReplyOf(p)] == [p] && mail.reply[p] == []) {
        OneOwner(x, p);
      }
      EachServed(x);
    }

    lemma Lists()
      requires s.Inv()
      ensures forall r :: r in s.rendez ==> NoDup(s.rendez[r])
    {
      RunsNowhere(s.Where(), s.owner, s.pc, s.current);
    }
  }
}
