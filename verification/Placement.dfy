/**
  Where processes are: the run queues, the list of processes waiting for the Big Kernel Lock
  and the lists of the rendez. On plain values: what it means that every process is in exactly
  one place, and the elementary moves between places. Processes in `float` are between two
  places, on no list.
 */
module Placement {
  import opened Core
  import opened Lists

  /** The condition variables: those of a kqueue, of a reply port, of a process itself, and all others. */
  datatype RendezId = EventOf(kq: nat) | BusyOf(kq: nat) | ReplyOf(p: Pid) | Own(p: Pid) | Cond(n: nat)

  datatype ProcState = INIT | RUNNING | READY | RENDEZ_BLOCKED | BKL_BLOCKED | ZOMBIE

  predicate Runnable(s: ProcState) { s in {INIT, RUNNING, READY} }

  /** The lists and the process fields that say where a process is; `on` is the rendez it sleeps on. */
  datatype Places = Places(
    queue: seq<seq<Pid>>,
    bkl: seq<Pid>,
    rendez: map<RendezId, seq<Pid>>,
    state: map<Pid, ProcState>,
    prio: map<Pid, nat>,
    on: map<Pid, RendezId>,
    idle: Pid)

  /** The one list a process belongs on. */
  datatype Spot = Nowhere | Queue(q: nat) | Bkl | Rendez(r: RendezId)

  ghost function SpotOf(x: Places, float: set<Pid>, p: Pid): Spot {
    if p !in x.state || p in float then Nowhere
    else match x.state[p]
         case RENDEZ_BLOCKED => if p in x.on then Rendez(x.on[p]) else Nowhere
         case BKL_BLOCKED => Bkl
         case ZOMBIE => Nowhere
         case _ => if p == x.idle || p !in x.prio then Nowhere else Queue(x.prio[p])
  }

  ghost predicate QueuesOk(x: Places, float: set<Pid>) {
    && |x.queue| == 32
    && (forall q :: 0 <= q < 32 ==> NoDup(x.queue[q]))
    && (forall q, p :: 0 <= q < 32 ==> (p in x.queue[q] <==> SpotOf(x, float, p) == Queue(q)))
  }

  ghost predicate BklOk(x: Places, float: set<Pid>) {
    && NoDup(x.bkl)
    && forall p :: p in x.bkl <==> SpotOf(x, float, p) == Bkl
  }

  ghost predicate RendezOk(x: Places, float: set<Pid>) {
    && (forall r :: r in x.rendez ==> NoDup(x.rendez[r]))
    && (forall r, p :: r in x.rendez ==> (p in x.rendez[r] <==> SpotOf(x, float, p) == Rendez(r)))
    && (forall p :: SpotOf(x, float, p).Rendez? ==> SpotOf(x, float, p).r in x.rendez)
  }

  ghost predicate FieldsOk(x: Places, float: set<Pid>) {
    && x.prio.Keys == x.state.Keys && (forall p :: p in x.prio ==> x.prio[p] < 32)
    && x.idle in x.state && x.idle !in float && Runnable(x.state[x.idle])
    && float <= x.state.Keys
    && (forall p :: p in x.state && p !in float && x.state[p] == RENDEZ_BLOCKED ==> p in x.on)
  }

  /** Each process that is not between places is on exactly the one list its state names. */
  ghost predicate Placed(x: Places, float: set<Pid>) {
    FieldsOk(x, float) && QueuesOk(x, float) && BklOk(x, float) && RendezOk(x, float)
  }

  /** Every process but `p` belongs where it did. */
  ghost predicate OthersStay(x: Places, float: set<Pid>, x': Places, float': set<Pid>, p: Pid) {
    forall z :: z != p ==> SpotOf(x', float', z) == SpotOf(x, float, z)
  }

  lemma QueuesKept(x: Places, float: set<Pid>, x': Places, float': set<Pid>, p: Pid)
    requires QueuesOk(x, float) && x'.queue == x.queue && OthersStay(x, float, x', float', p)
    requires (!SpotOf(x, float, p).Queue? && !SpotOf(x', float', p).Queue?) || SpotOf(x, float, p) == SpotOf(x', float', p)
    ensures QueuesOk(x', float')
  {
    hide SpotOf, NoDup;
  }

  lemma BklKept(x: Places, float: set<Pid>, x': Places, float': set<Pid>, p: Pid)
    requires BklOk(x, float) && x'.bkl == x.bkl && OthersStay(x, float, x', float', p)
    requires SpotOf(x, float, p) != Bkl && SpotOf(x', float', p) != Bkl
    ensures BklOk(x', float')
  {
    hide SpotOf, NoDup;
  }

  lemma RendezKept(x: Places, float: set<Pid>, x': Places, float': set<Pid>, p: Pid)
    requires RendezOk(x, float) && x'.rendez == x.rendez && OthersStay(x, float, x', float', p)
    requires !SpotOf(x, float, p).Rendez? && !SpotOf(x', float', p).Rendez?
    ensures RendezOk(x', float')
  {
    hide SpotOf, NoDup;
  }

  // ---------------------------------------------------------------------
  // Elementary moves.

  ghost function Dequeue(x: Places, p: Pid): Places
    requires |x.queue| == 32 && p in x.prio && x.prio[p] < 32
  {
    x.(queue := x.queue[x.prio[p] := Without(x.queue[x.prio[p]], p)])
  }

  /** Changing one queue by one process. */
  lemma QueueChanged(x: Places, float: set<Pid>, x': Places, float': set<Pid>, p: Pid, k: nat)
    requires QueuesOk(x, float) && OthersStay(x, float, x', float', p) && k < 32
    requires |x'.queue| == 32 && forall q :: 0 <= q < 32 && q != k ==> x'.queue[q] == x.queue[q]
    requires NoDup(x'.queue[k])
    requires forall z :: z != p ==> (z in x'.queue[k] <==> z in x.queue[k])
    requires p in x'.queue[k] <==> SpotOf(x', float', p) == Queue(k)
    requires forall q :: q != k ==> SpotOf(x, float, p) != Queue(q) && SpotOf(x', float', p) != Queue(q)
    ensures QueuesOk(x', float')
  {
    hide SpotOf, NoDup;
    forall q, z | 0 <= q < 32 ensures z in x'.queue[q] <==> SpotOf(x', float', z) == Queue(q) {
      assert z in x.queue[q] <==> SpotOf(x, float, z) == Queue(q);
    }
  }

  lemma Dequeued(x: Places, float: set<Pid>, p: Pid)
    requires Placed(x, float) && p in x.state && p !in float && p != x.idle && Runnable(x.state[p])
    ensures Placed(Dequeue(x, p), float + {p})
  {
    hide NoDup, Without;
    var x', f' := Dequeue(x, p), float + {p};
    WithoutOk(x.queue[x.prio[p]], p);
    QueueChanged(x, float, x', f', p, x.prio[p]);
    BklKept(x, float, x', f', p);
    RendezKept(x, float, x', f', p);
  }

  ghost function Enqueue(x: Places, p: Pid): Places
    requires |x.queue| == 32 && p in x.prio && x.prio[p] < 32
  {
    x.(queue := x.queue[x.prio[p] := x.queue[x.prio[p]] + [p]])
  }

  lemma Enqueued(x: Places, float: set<Pid>, p: Pid)
    requires Placed(x, float) && p in float && Runnable(x.state[p])
    ensures Placed(Enqueue(x, p), float - {p})
  {
    hide NoDup;
    var x', f' := Enqueue(x, p), float - {p};
    assert SpotOf(x, float, p) == Nowhere;
    TailOk(x.queue[x.prio[p]], p);
    QueueChanged(x, float, x', f', p, x.prio[p]);
    BklKept(x, float, x', f', p);
    RendezKept(x, float, x', f', p);
  }

  lemma BklTaken(x: Places, float: set<Pid>)
    requires Placed(x, float) && x.bkl != []
    ensures x.bkl[0] in x.state && x.bkl[0] !in float && x.state[x.bkl[0]] == BKL_BLOCKED && x.bkl[0] != x.idle
    ensures Placed(x.(bkl := x.bkl[1..]), float + {x.bkl[0]})
  {
    hide NoDup;
    var p := x.bkl[0];
    var x', f' := x.(bkl := x.bkl[1..]), float + {p};
    assert SpotOf(x, float, p) == Bkl;
    HeadOk(x.bkl);
    assert BklOk(x', f') by {
      forall z ensures z in x'.bkl <==> SpotOf(x', f', z) == Bkl {
        assert z in x.bkl <==> SpotOf(x, float, z) == Bkl;
      }
    }
    QueuesKept(x, float, x', f', p);
    RendezKept(x, float, x', f', p);
  }

  lemma BklAdded(x: Places, float: set<Pid>, p: Pid)
    requires Placed(x, float) && p in float && x.state[p] == BKL_BLOCKED
    ensures Placed(x.(bkl := x.bkl + [p]), float - {p})
  {
    hide NoDup;
    var x', f' := x.(bkl := x.bkl + [p]), float - {p};
    assert SpotOf(x, float, p) == Nowhere && SpotOf(x', f', p) == Bkl;
    TailOk(x.bkl, p);
    assert BklOk(x', f') by {
      forall z ensures z in x'.bkl <==> SpotOf(x', f', z) == Bkl {
        assert z in x.bkl <==> SpotOf(x, float, z) == Bkl;
      }
    }
    QueuesKept(x, float, x', f', p);
    RendezKept(x, float, x', f', p);
  }

  lemma RendezChanged(x: Places, float: set<Pid>, x': Places, float': set<Pid>, p: Pid, k: RendezId)
    requires RendezOk(x, float) && OthersStay(x, float, x', float', p) && k in x.rendez
    requires x'.rendez.Keys == x.rendez.Keys && forall r :: r in x.rendez && r != k ==> x'.rendez[r] == x.rendez[r]
    requires NoDup(x'.rendez[k])
    requires forall z :: z != p ==> (z in x'.rendez[k] <==> z in x.rendez[k])
    requires p in x'.rendez[k] <==> SpotOf(x', float', p) == Rendez(k)
    requires SpotOf(x, float, p) in {Nowhere, Rendez(k)} && SpotOf(x', float', p) in {Nowhere, Rendez(k)}
    ensures RendezOk(x', float')
  {
    hide SpotOf, NoDup;
    forall r, z | r in x'.rendez ensures z in x'.rendez[r] <==> SpotOf(x', float', z) == Rendez(r) {
      assert z in x.rendez[r] <==> SpotOf(x, float, z) == Rendez(r);
    }
    forall z | SpotOf(x', float', z).Rendez? ensures SpotOf(x', float', z).r in x'.rendez {
      assert z != p ==> SpotOf(x, float, z).Rendez?;
    }
  }

  lemma RendezTaken(x: Places, float: set<Pid>, r: RendezId, p: Pid)
    requires Placed(x, float) && r in x.rendez && p in x.rendez[r]
    ensures p in x.state && p !in float && x.state[p] == RENDEZ_BLOCKED && p != x.idle && p in x.on && x.on[p] == r
    ensures Placed(x.(rendez := x.rendez[r := Without(x.rendez[r], p)]), float + {p})
  {
    hide NoDup, Without;
    var x', f' := x.(rendez := x.rendez[r := Without(x.rendez[r], p)]), float + {p};
    assert SpotOf(x, float, p) == Rendez(r);
    WithoutOk(x.rendez[r], p);
    RendezChanged(x, float, x', f', p, r);
    QueuesKept(x, float, x', f', p);
    BklKept(x, float, x', f', p);
  }

  lemma RendezAdded(x: Places, float: set<Pid>, r: RendezId, p: Pid)
    requires Placed(x, float) && r in x.rendez && p in float && x.state[p] == RENDEZ_BLOCKED && p in x.on && x.on[p] == r
    ensures Placed(x.(rendez := x.rendez[r := x.rendez[r] + [p]]), float - {p})
  {
    hide NoDup;
    var x', f' := x.(rendez := x.rendez[r := x.rendez[r] + [p]]), float - {p};
    assert SpotOf(x, float, p) == Nowhere && SpotOf(x', f', p) == Rendez(r);
    TailOk(x.rendez[r], p);
    RendezChanged(x, float, x', f', p, r);
    QueuesKept(x, float, x', f', p);
    BklKept(x, float, x', f', p);
  }

  /** The fields of a process between places may be set freely. */
  lemma FieldsSet(x: Places, float: set<Pid>, p: Pid, s: ProcState, on: map<Pid, RendezId>)
    requires Placed(x, float) && p in float && p in x.state
    requires on.Keys >= x.on.Keys && forall z :: z in x.on && z != p ==> on[z] == x.on[z]
    ensures Placed(x.(state := x.state[p := s], on := on), float)
  {
    hide NoDup;
    var x' := x.(state := x.state[p := s], on := on);
    AllStay(x, x', float);
  }

  lemma AllStay(x: Places, x': Places, float: set<Pid>)
    requires Placed(x, float) && FieldsOk(x', float)
    requires x'.queue == x.queue && x'.bkl == x.bkl && x'.rendez == x.rendez
    requires forall z :: SpotOf(x', float, z) == SpotOf(x, float, z)
    ensures Placed(x', float)
  {
    hide NoDup, SpotOf, FieldsOk;
  }

  /** A process that is able to run stays where it is when its state changes among the runnable ones. */
  lemma StillRunnable(x: Places, float: set<Pid>, p: Pid, s: ProcState)
    requires Placed(x, float) && p in x.state && p !in float && Runnable(x.state[p]) && Runnable(s)
    ensures Placed(x.(state := x.state[p := s]), float)
  {
    AllStay(x, x.(state := x.state[p := s]), float);
  }

  /** Turning a queue round moves nobody to another list. */
  lemma Rotated(x: Places, float: set<Pid>, q: nat)
    requires Placed(x, float) && q < 32 && x.queue[q] != []
    ensures Placed(x.(queue := x.queue[q := x.queue[q][1..] + [x.queue[q][0]]]), float)
  {
    hide NoDup, SpotOf;
    var x' := x.(queue := x.queue[q := x.queue[q][1..] + [x.queue[q][0]]]);
    HeadOk(x.queue[q]);
    TailOk(x.queue[q][1..], x.queue[q][0]);
    SpotSame(x, x', float);
    QueueChanged(x, float, x', float, x.queue[q][0], q);
    BklKept(x, float, x', float, x.queue[q][0]);
    RendezKept(x, float, x', float, x.queue[q][0]);
  }

  lemma SpotSame(x: Places, x': Places, float: set<Pid>)
    requires x' == x.(queue := x'.queue)
    ensures forall z :: SpotOf(x', float, z) == SpotOf(x, float, z)
  {
  }

  // ---------------------------------------------------------------------
  // Moves the kernel makes, from one settled state to the next.

  ghost function ToBkl(x: Places, p: Pid): Places
    requires Placed(x, {}) && p in x.state
  {
    Dequeue(x, p).(state := x.state[p := BKL_BLOCKED], bkl := x.bkl + [p])
  }

  lemma MovedToBkl(x: Places, p: Pid)
    requires Placed(x, {}) && p in x.state && p != x.idle && Runnable(x.state[p])
    ensures Placed(ToBkl(x, p), {})
  {
    hide Placed;
    Known(x, p);
    Dequeued(x, {}, p);
    var x1 := Dequeue(x, p);
    assert {} + {p} == {p};
    FieldsSet(x1, {p}, p, BKL_BLOCKED, x.on);
    BklAdded(x1.(state := x.state[p := BKL_BLOCKED]), {p}, p);
    assert {p} - {p} == {};
  }

  /** What every settled state says of the shape of the lists. */
  lemma Known(x: Places, p: Pid)
    requires Placed(x, {}) && p in x.state
    ensures |x.queue| == 32 && p in x.prio && x.prio[p] < 32
  {
  }

  ghost function ToRendez(x: Places, p: Pid, r: RendezId): Places
    requires Placed(x, {}) && p in x.state && r in x.rendez
  {
    Dequeue(x, p).(state := x.state[p := RENDEZ_BLOCKED], on := x.on[p := r], rendez := x.rendez[r := x.rendez[r] + [p]])
  }

  lemma MovedToRendez(x: Places, p: Pid, r: RendezId)
    requires Placed(x, {}) && p in x.state && p != x.idle && Runnable(x.state[p]) && r in x.rendez
    ensures Placed(ToRendez(x, p, r), {})
  {
    hide Placed;
    Known(x, p);
    Dequeued(x, {}, p);
    var x1 := Dequeue(x, p);
    assert {} + {p} == {p};
    FieldsSet(x1, {p}, p, RENDEZ_BLOCKED, x.on[p := r]);
    RendezAdded(x1.(state := x.state[p := RENDEZ_BLOCKED], on := x.on[p := r]), {p}, r, p);
    assert {p} - {p} == {};
  }

  ghost function ToZombie(x: Places, p: Pid): Places
    requires Placed(x, {}) && p in x.state
  {
    Dequeue(x, p).(state := x.state[p := ZOMBIE])
  }

  lemma MovedToZombie(x: Places, p: Pid)
    requires Placed(x, {}) && p in x.state && p != x.idle && Runnable(x.state[p])
    ensures Placed(ToZombie(x, p), {})
  {
    hide Placed;
    Known(x, p);
    Dequeued(x, {}, p);
    var x1 := Dequeue(x, p);
    assert {} + {p} == {p};
    FieldsSet(x1, {p}, p, ZOMBIE, x.on);
    ZombieSettled(ToZombie(x, p), p);
  }

  lemma ZombieSettled(x: Places, p: Pid)
    requires Placed(x, {p}) && x.state[p] == ZOMBIE
    ensures Placed(x, {})
  {
    hide NoDup;
    assert OthersStay(x, {p}, x, {}, p);
    QueuesKept(x, {p}, x, {}, p);
    BklKept(x, {p}, x, {}, p);
    RendezKept(x, {p}, x, {}, p);
  }

  /** The first process waiting for the lock becomes ready. */
  ghost function HandOff(x: Places): Places
    requires Placed(x, {}) && x.bkl != [] && x.bkl[0] in x.state
  {
    Enqueue(x.(bkl := x.bkl[1..], state := x.state[x.bkl[0] := READY]), x.bkl[0])
  }

  lemma HandedOff(x: Places)
    requires Placed(x, {}) && x.bkl != []
    ensures x.bkl[0] in x.state && x.state[x.bkl[0]] == BKL_BLOCKED && x.bkl[0] != x.idle
    ensures Placed(HandOff(x), {})
  {
    hide Placed;
    BklTaken(x, {});
    var p := x.bkl[0];
    Known(x, p);
    assert {} + {p} == {p};
    var x1 := x.(bkl := x.bkl[1..]);
    FieldsSet(x1, {p}, p, READY, x.on);
    Enqueued(x1.(state := x.state[p := READY]), {p}, p);
    assert {p} - {p} == {};
  }

  /** A sleeper is moved from its rendez to the end of the lock's queue. */
  ghost function Wakened(x: Places, r: RendezId, p: Pid): Places
    requires r in x.rendez
  {
    x.(rendez := x.rendez[r := Without(x.rendez[r], p)], state := x.state[p := BKL_BLOCKED], bkl := x.bkl + [p])
  }

  lemma MovedByWakeup(x: Places, r: RendezId, p: Pid)
    requires Placed(x, {}) && r in x.rendez && p in x.rendez[r]
    ensures p in x.state && x.state[p] == RENDEZ_BLOCKED && p != x.idle && p !in x.bkl && p in x.on && x.on[p] == r
    ensures Placed(Wakened(x, r, p), {})
  {
    hide Without;
    RendezTaken(x, {}, r, p);
    assert SpotOf(x, {}, p) == Rendez(r);
    assert {} + {p} == {p};
    assert {p} - {p} == {};
    Requeued(x.(rendez := x.rendez[r := Without(x.rendez[r], p)]), p);
  }

  lemma Requeued(x: Places, p: Pid)
    requires Placed(x, {p}) && p in x.state
    ensures Placed(x.(state := x.state[p := BKL_BLOCKED], bkl := x.bkl + [p]), {})
  {
    hide Placed;
    FieldsSet(x, {p}, p, BKL_BLOCKED, x.on);
    BklAdded(x.(state := x.state[p := BKL_BLOCKED]), {p}, p);
    assert {p} - {p} == {};
  }

  /**
    A sleeper woken while the lock is being passed on, after its first waiter has been unlinked, after
    that is marked ready, or after it is queued: the end is the same as if the sleeper was woken first.
   */
  lemma WokenInHandOff(x: Places, r: RendezId, p: Pid)
    requires Placed(x, {}) && x.bkl != [] && r in x.rendez && p in x.rendez[r]
    ensures x.bkl[0] in x.state && x.bkl[0] in x.prio && Placed(Wakened(x, r, p), {}) && p in x.state
    ensures var w, x1 := x.bkl[0], x.(bkl := x.bkl[1..]);
            var x2, y1 := x1.(state := x.state[w := READY]), Wakened(x1, r, p);
            && |x.queue| == 32 && x.prio[w] < 32
            && Enqueue(y1.(state := y1.state[w := READY]), w) == HandOff(Wakened(x, r, p))
            && Enqueue(Wakened(x2, r, p), w) == HandOff(Wakened(x, r, p))
            && Wakened(HandOff(x), r, p) == HandOff(Wakened(x, r, p))
  {
    hide Placed, Without;
    MovedByWakeup(x, r, p);
    BklTaken(x, {});
    Known(x, x.bkl[0]);
    assert (x.bkl + [p])[1..] == x.bkl[1..] + [p];
    assert x.state[x.bkl[0] := READY][p := BKL_BLOCKED] == x.state[p := BKL_BLOCKED][x.bkl[0] := READY];
  }

  ghost function Spawned(x: Places, p: Pid, prio: nat): Places
    requires |x.queue| == 32 && prio < 32
  {
    x.(state := x.state[p := READY], prio := x.prio[p := prio], queue := x.queue[prio := x.queue[prio] + [p]])
  }

  lemma MovedBySpawn(x: Places, p: Pid, prio: nat)
    requires Placed(x, {}) && p !in x.state && prio < 32
    ensures Placed(Spawned(x, p, prio), {})
  {
    hide NoDup;
    var x' := Spawned(x, p, prio);
    assert SpotOf(x, {}, p) == Nowhere;
    TailOk(x.queue[prio], p);
    QueueChanged(x, {}, x', {}, p, prio);
    BklKept(x, {}, x', {}, p);
    RendezKept(x, {}, x', {}, p);
  }

  ghost function Freed(x: Places, p: Pid): Places {
    x.(state := x.state - {p}, prio := x.prio - {p})
  }

  lemma MovedByFree(x: Places, p: Pid)
    requires Placed(x, {}) && p in x.state && x.state[p] == ZOMBIE
    ensures Placed(Freed(x, p), {})
  {
    hide NoDup;
    AllStay(x, Freed(x, p), {});
  }

  // ---------------------------------------------------------------------

  /** Every process is on exactly one list, once, and on the one its state names; idle and zombies are on none. */
  lemma ExactlyOnePlace(x: Places, p: Pid)
    requires Placed(x, {}) && p in x.state
    ensures forall q :: 0 <= q < 32 ==>
              multiset(x.queue[q])[p] == if Runnable(x.state[p]) && p != x.idle && x.prio[p] == q then 1 else 0
    ensures multiset(x.bkl)[p] == if x.state[p] == BKL_BLOCKED then 1 else 0
    ensures forall r :: r in x.rendez ==>
              multiset(x.rendez[r])[p] == if x.state[p] == RENDEZ_BLOCKED && x.on[p] == r then 1 else 0
    ensures x.state[p] == RENDEZ_BLOCKED ==> x.on[p] in x.rendez
  {
    hide NoDup;
    forall q | 0 <= q < 32 ensures multiset(x.queue[q])[p] == if SpotOf(x, {}, p) == Queue(q) then 1 else 0 {
      Once(x.queue[q], p);
    }
    Once(x.bkl, p);
    forall r | r in x.rendez ensures multiset(x.rendez[r])[p] == if SpotOf(x, {}, p) == Rendez(r) then 1 else 0 {
      Once(x.rendez[r], p);
    }
  }
}
