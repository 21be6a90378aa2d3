/**
  Run queues, the Big Kernel Lock and rendez condition variables on one processor.

  Each method is what one process, or an interrupt, does between two points where another
  process can run. A process that is switched away inside the kernel resumes later, when it is
  chosen again, at `Resume`; `pc` stands for its saved context.
 */
module Scheduling {
  import opened Core
  import opened Lists
  import opened Placement
  import opened BigKernelLock

  datatype Policy = RR | FIFO | IDLE

  /**
    Outside the kernel, running in it, stopped inside KernelLock or a sleep, or gone. A process that
    is Testing has seen in KernelLock that the lock is free and has not written it yet; one that is
    Leaving has seen in KernelUnlock that nobody waits and still holds the lock.
   */
  datatype Pc = User | Testing | InKernel | Leaving | InLock | InSleep | Exited

  predicate Outside(c: Pc) { c in {User, Testing} }

  predicate Inside(c: Pc) { c in {InKernel, Leaving} }

  // ---------------------------------------------------------------------
  // The lock against the places of the processes.

  ghost predicate PcOk(s: ProcState, pc: Pc, owns: bool) {
    match s
    case RENDEZ_BLOCKED => pc == InSleep && !owns
    case BKL_BLOCKED => pc in {InLock, InSleep} && !owns
    case ZOMBIE => pc == Exited && !owns
    case _ => pc != Exited && (Outside(pc) <==> !owns)
  }

  /** The holder can run; a free lock has no waiters; a process that can run is inside the kernel iff it holds the lock. */
  ghost predicate Settled(x: Places, owner: Option<Pid>, pc: map<Pid, Pc>) {
    && pc.Keys == x.state.Keys
    && (forall p :: p in x.state ==> PcOk(x.state[p], pc[p], owner == Some(p)))
    && (owner.Some? ==> owner.value in x.state)
    && (owner.None? ==> x.bkl == [])
  }

  /** And the one process in the kernel is the one on the processor, which is idle only if nobody else can run. */
  ghost predicate Control(x: Places, owner: Option<Pid>, pc: map<Pid, Pc>, current: Pid) {
    && Settled(x, owner, pc)
    && current in x.state && Runnable(x.state[current])
    && (forall p :: p in pc && Inside(pc[p]) ==> p == current)
    && (current == x.idle ==> forall q :: 0 <= q < |x.queue| ==> x.queue[q] == [])
    && (owner == Some(x.idle) ==> current == x.idle)
  }

  ghost predicate NobodyInside(pc: map<Pid, Pc>) {
    forall p :: p in pc ==> !Inside(pc[p])
  }

  lemma Queued(x: Places, p: Pid)
    requires Placed(x, {}) && p in x.state && Runnable(x.state[p]) && p != x.idle
    ensures p in x.prio && x.prio[p] < |x.queue| == 32 && p in x.queue[x.prio[p]]
  {
    assert SpotOf(x, {}, p) == Queue(x.prio[p]);
  }

  lemma HeadRuns(x: Places, q: nat)
    requires Placed(x, {}) && q < 32 && x.queue[q] != []
    ensures x.queue[q][0] in x.state && Runnable(x.state[x.queue[q][0]]) && x.queue[q][0] != x.idle
    ensures x.queue[q][0] in x.prio && x.prio[x.queue[q][0]] == q
  {
    assert x.queue[q][0] in x.queue[q];
    assert SpotOf(x, {}, x.queue[q][0]) == Queue(q);
  }

  /** While idle is on the processor nobody else holds the lock. */
  lemma IdleNeverWaits(x: Places, owner: Option<Pid>, pc: map<Pid, Pc>)
    requires Placed(x, {}) && Control(x, owner, pc, x.idle)
    ensures owner in {None, Some(x.idle)}
  {
    if owner.Some? && owner.value != x.idle {
      Queued(x, owner.value);
    }
  }

  /** Passing the lock to the first waiter. */
  lemma SettledByHandOff(x: Places, pc: map<Pid, Pc>, p: Pid)
    requires Placed(x, {}) && Settled(x, Some(p), pc) && x.bkl != []
    requires x.bkl[0] in x.state && x.state[x.bkl[0]] == BKL_BLOCKED
    ensures x.bkl[0] != p && Settled(HandOff(x), Some(x.bkl[0]), pc[p := User])
  {
  }

  /** A process outside the lock stops running. */
  lemma SettledByLeaving(x: Places, owner: Option<Pid>, pc: map<Pid, Pc>, p: Pid, x': Places, s: ProcState, c: Pc)
    requires Settled(x, owner, pc) && p in x.state && Runnable(x.state[p]) && Outside(pc[p])
    requires x'.state == x.state[p := s] && PcOk(s, c, false) && (owner.None? ==> x'.bkl == x.bkl)
    ensures Settled(x', owner, pc[p := c])
  {
  }

  /** A sleeper joins the queue for a lock that is held. */
  lemma ControlByWakeup(x: Places, owner: Option<Pid>, pc: map<Pid, Pc>, current: Pid, r: RendezId, p: Pid)
    requires Placed(x, {}) && Control(x, owner, pc, current) && owner.Some?
    requires r in x.rendez && p in x.state && x.state[p] == RENDEZ_BLOCKED
    ensures Control(Wakened(x, r, p), owner, pc, current)
    ensures owner.value != p
  {
  }

  // ---------------------------------------------------------------------
  // Run queues.

  ghost predicate BitmapOk(queue: seq<seq<Pid>>, bitmap: set<nat>) {
    && |queue| == 32
    && (forall q :: q in bitmap ==> q < 32)
    && forall q :: 0 <= q < 32 ==> (q in bitmap <==> queue[q] != [])
  }

  ghost predicate PolicyOk(x: Places, policy: map<Pid, Policy>) {
    && policy.Keys == x.state.Keys
    && (forall p :: p in policy && policy[p] == RR ==> p in x.prio && 16 <= x.prio[p] < 32)
    && forall p :: p in policy ==> (policy[p] == IDLE <==> p == x.idle)
  }

  /** A queue of real-time priority is turned by one place. */
  function Turn(queue: seq<seq<Pid>>, q: nat): seq<seq<Pid>>
    requires q < |queue|
  {
    if queue[q] == [] then queue else queue[q := queue[q][1..] + [queue[q][0]]]
  }

  /** Nobody that can run is more urgent than `p`, and idle runs only if nobody else can. */
  ghost predicate MostUrgent(x: Places, p: Pid) {
    && p in x.state && Runnable(x.state[p])
    && forall z :: z in x.state && Runnable(x.state[z]) && z != x.idle ==>
         p != x.idle && p in x.prio && z in x.prio && x.prio[z] <= x.prio[p]
  }

  /** The first process of the highest of the first `n` queues that is not empty, or idle. */
  ghost function Top(queue: seq<seq<Pid>>, idle: Pid, n: nat): Pid
    requires n <= |queue|
  {
    if n == 0 then idle else if queue[n - 1] != [] then queue[n - 1][0] else Top(queue, idle, n - 1)
  }

  /** Whom Reschedule picks. */
  ghost function Chosen(queue: seq<seq<Pid>>, idle: Pid): Pid { Top(queue, idle, |queue|) }

  lemma {:induction false} TopIs(queue: seq<seq<Pid>>, idle: Pid, q: nat, n: nat)
    requires q < n <= |queue| && queue[q] != [] && forall k :: q < k < n ==> queue[k] == []
    ensures Top(queue, idle, n) == queue[q][0]
  {
    if q < n - 1 {
      TopIs(queue, idle, q, n - 1);
    }
  }

  lemma {:induction false} TopIdle(queue: seq<seq<Pid>>, idle: Pid, n: nat)
    requires n <= |queue| && forall k :: 0 <= k < n ==> queue[k] == []
    ensures Top(queue, idle, n) == idle
  {
    if n > 0 {
      TopIdle(queue, idle, n - 1);
    }
  }

  lemma {:induction false} TopAbove(queue: seq<seq<Pid>>, idle: Pid, k: nat, n: nat) returns (q: nat)
    requires k < n <= |queue| && queue[k] != []
    ensures k <= q < n && queue[q] != [] && Top(queue, idle, n) == queue[q][0]
  {
    q := n - 1;
    if queue[n - 1] == [] {
      q := TopAbove(queue, idle, k, n - 1);
    }
  }

  /** The queues with `p` added to the one of its priority, or taken off it. */
  function Joined(queue: seq<seq<Pid>>, prio: map<Pid, nat>, p: Pid): seq<seq<Pid>> {
    if p in prio && prio[p] < |queue| then queue[prio[p] := queue[prio[p]] + [p]] else queue
  }

  function Parted(queue: seq<seq<Pid>>, prio: map<Pid, nat>, p: Pid): seq<seq<Pid>> {
    if p in prio && prio[p] < |queue| then queue[prio[p] := Without(queue[prio[p]], p)] else queue
  }

  /** The queues after the lock has been passed on: its first waiter is ready. */
  function Passed(queue: seq<seq<Pid>>, prio: map<Pid, nat>, waiters: seq<Pid>): seq<seq<Pid>> {
    if waiters == [] then queue else Joined(queue, prio, waiters[0])
  }

  /** The queues after `c` has called Reschedule. */
  function Turned(queue: seq<seq<Pid>>, prio: map<Pid, nat>, policy: map<Pid, Policy>, c: Pid): seq<seq<Pid>> {
    if c in policy && policy[c] == RR && c in prio && prio[c] < |queue| then Turn(queue, prio[c]) else queue
  }

  /**
    Process `c`, having made `w` ready, is still the one Reschedule picks. Nobody more urgent can run,
    `w` included; and `c` is first in its queue or, under the round-robin policy, where the queue is
    turned by one, alone in it or second.
   */
  ghost predicate KeepsProcessor(queue: seq<seq<Pid>>, prio: map<Pid, nat>, policy: map<Pid, Policy>, idle: Pid,
                                 w: Pid, c: Pid) {
    && c != idle && c in prio && w in prio && c in policy && prio[w] <= prio[c] < |queue| && queue[prio[c]] != []
    && (forall q :: prio[c] < q < |queue| ==> queue[q] == [])
    && (policy[c] != RR ==> queue[prio[c]][0] == c)
    && (policy[c] == RR ==>
          || (prio[w] < prio[c] && |queue[prio[c]]| == 1)
          || (|queue[prio[c]]| > 1 && queue[prio[c]][1] == c))
  }

  /** The processor and the lock after process `c` has passed a lock that nobody held through its hands to `waiters`. */
  ghost predicate PassedBy(waiters: seq<Pid>, queue: seq<seq<Pid>>, c: Pid, x: Places, policy: map<Pid, Policy>,
                           owner: Option<Pid>, current: Pid) {
    if waiters == [] then
      owner == None && current == c && x.queue == queue
    else
      && owner == Some(waiters[0]) && x.bkl == waiters[1..]
      && x.queue == Turned(Joined(queue, x.prio, waiters[0]), x.prio, policy, c) && current == Chosen(x.queue, x.idle)
      && (current == c <==> KeepsProcessor(queue, x.prio, policy, x.idle, waiters[0], c))
      && (current == waiters[0] <==> RunsNext(queue, x.prio, policy, waiters[0], c))
  }

  /**
    The waiter `w` that `c` has made ready is the one Reschedule picks. Nobody more urgent can run, and
    nobody as urgent, but for `c` itself when its turn is over.
   */
  ghost predicate RunsNext(queue: seq<seq<Pid>>, prio: map<Pid, nat>, policy: map<Pid, Policy>, w: Pid, c: Pid) {
    && w in prio && c in prio && c in policy && prio[w] < |queue|
    && (forall q :: prio[w] < q < |queue| ==> queue[q] == [])
    && (queue[prio[w]] == [] || (policy[c] == RR && prio[c] == prio[w] && queue[prio[w]] == [c]))
  }

  lemma TurnKeeps(queue: seq<seq<Pid>>, prio: map<Pid, nat>, policy: map<Pid, Policy>, c: Pid, q: nat, p: Pid)
    requires q < |queue|
    ensures |Turned(queue, prio, policy, c)| == |queue|
    ensures p in Turned(queue, prio, policy, c)[q] <==> p in queue[q]
    ensures Turned(queue, prio, policy, c)[q] == [] <==> queue[q] == []
  {
    assert queue[q] != [] ==> queue[q] == [queue[q][0]] + queue[q][1..];
  }

  /** A process is in no queue but that of its priority, and idle in none. */
  lemma OwnQueue(x: Places, p: Pid, q: nat)
    requires Placed(x, {}) && p in x.state && q < 32 && p in x.queue[q]
    ensures p != x.idle && Runnable(x.state[p]) && x.prio[p] == q
  {
    assert SpotOf(x, {}, p) == Queue(q);
  }

  lemma Overtaken(x: Places, policy: map<Pid, Policy>, w: Pid, c: Pid, k: nat)
    requires Placed(x, {}) && w in x.state && c in x.state && c != w
    requires k < 32 && Joined(x.queue, x.prio, w)[k] != [] && (c == x.idle || x.prio[c] < k)
    ensures Chosen(Turned(Joined(x.queue, x.prio, w), x.prio, policy, c), x.idle) != c
  {
    hide Placed, Turned, Joined;
    PlacedFields(x);
    var y := Joined(x.queue, x.prio, w);
    var z := Turned(y, x.prio, policy, c);
    assert |y| == 32 by { JoinedAt(x.queue, x.prio, w, 0); }
    TurnKeeps(y, x.prio, policy, c, k, c);
    var q := TopAbove(z, x.idle, k, 32);
    TurnKeeps(y, x.prio, policy, c, q, z[q][0]);
    assert z[q][0] in z[q];
    JoinedAt(x.queue, x.prio, w, q);
    if z[q][0] == c { OwnQueue(x, c, q); }
  }

  lemma JoinedAt(queue: seq<seq<Pid>>, prio: map<Pid, nat>, w: Pid, q: nat)
    requires q < |queue|
    ensures |Joined(queue, prio, w)| == |queue|
    ensures Joined(queue, prio, w)[q] == if w in prio && prio[w] == q then queue[q] + [w] else queue[q]
  {
  }

  lemma TurnedHead(queue: seq<seq<Pid>>, prio: map<Pid, nat>, policy: map<Pid, Policy>, c: Pid)
    requires c in prio && prio[c] < |queue| && queue[prio[c]] != [] && c in policy
    ensures Turned(queue, prio, policy, c)[prio[c]][0]
         == queue[prio[c]][if policy[c] == RR && |queue[prio[c]]| > 1 then 1 else 0]
  {
  }

  /** Having made `w` ready, the running process keeps the processor exactly under the condition above. */
  lemma KeptExactly(x: Places, policy: map<Pid, Policy>, w: Pid, c: Pid)
    requires Placed(x, {}) && w in x.state && !Runnable(x.state[w])
    requires c in x.state && Runnable(x.state[c]) && c in policy
    ensures Chosen(Turned(Joined(x.queue, x.prio, w), x.prio, policy, c), x.idle) == c
       <==> KeepsProcessor(x.queue, x.prio, policy, x.idle, w, c)
  {
    hide Placed, Turned, Joined;
    PlacedFields(x);
    var k := x.prio[c];
    if c == x.idle || k < x.prio[w] {
      JoinedAt(x.queue, x.prio, w, x.prio[w]);
      Overtaken(x, policy, w, c, x.prio[w]);
    } else if q :| k < q < 32 && x.queue[q] != [] {
      JoinedAt(x.queue, x.prio, w, q);
      Overtaken(x, policy, w, c, q);
    } else {
      Unchallenged(x, policy, w, c);
    }
  }

  /** The waiter is the next to run exactly under the second condition above. */
  lemma NextExactly(x: Places, policy: map<Pid, Policy>, w: Pid, c: Pid)
    requires Placed(x, {}) && PolicyOk(x, policy) && w in x.state && !Runnable(x.state[w]) && w != x.idle
    requires c in x.state && Runnable(x.state[c])
    ensures Chosen(Turned(Joined(x.queue, x.prio, w), x.prio, policy, c), x.idle) == w
       <==> RunsNext(x.queue, x.prio, policy, w, c)
  {
    hide Placed, Turned, Joined, PolicyOk;
    PlacedFields(x);
    PolicyKnown(x, policy, c);
    var k := x.prio[w];
    var y := Joined(x.queue, x.prio, w);
    var z := Turned(y, x.prio, policy, c);
    JoinedAt(x.queue, x.prio, w, k);
    if q :| k < q < 32 && x.queue[q] != [] {
      JoinedAt(x.queue, x.prio, w, q);
      TurnKeeps(y, x.prio, policy, c, q, w);
      var t := TopAbove(z, x.idle, q, 32);
      TurnKeeps(y, x.prio, policy, c, t, w);
      JoinedAt(x.queue, x.prio, w, t);
      assert z[t][0] in z[t];
      NotQueued(x, w, t);
    } else {
      TurnKeeps(y, x.prio, policy, c, k, w);
      forall q | k < q < 32 ensures z[q] == [] {
        JoinedAt(x.queue, x.prio, w, q);
        TurnKeeps(y, x.prio, policy, c, q, w);
      }
      TopIs(z, x.idle, k, 32);
      NextHead(x, policy, w, c);
    }
  }

  lemma NotQueued(x: Places, w: Pid, q: nat)
    requires Placed(x, {}) && w in x.state && !Runnable(x.state[w]) && q < 32
    ensures w !in x.queue[q]
  {
    assert SpotOf(x, {}, w) != Queue(q);
  }

  /** Who is first in the waiter's queue. */
  lemma NextHead(x: Places, policy: map<Pid, Policy>, w: Pid, c: Pid)
    requires Placed(x, {}) && PolicyOk(x, policy) && w in x.state && !Runnable(x.state[w])
    requires c in x.state && Runnable(x.state[c]) && c in policy && c in x.prio && w in x.prio && x.prio[w] < |x.queue| == 32
    ensures var q := Turned(Joined(x.queue, x.prio, w), x.prio, policy, c)[x.prio[w]];
            var l := x.queue[x.prio[w]];
            q != [] && (q[0] == w <==> l == [] || (policy[c] == RR && x.prio[c] == x.prio[w] && l == [c]))
  {
    var k := x.prio[w];
    NotQueued(x, w, k);
    var l := x.queue[k];
    assert (l + [w])[0] == w <==> l == [];
    if policy[c] == RR && x.prio[c] == k {
      RoundRobinQueued(x, policy, c);
      Queued(x, c);
      assert |l| == 1 ==> l == [l[0]] == [c];
    }
  }

  lemma RoundRobinQueued(x: Places, policy: map<Pid, Policy>, c: Pid)
    requires PolicyOk(x, policy) && c in policy && policy[c] == RR
    ensures c != x.idle
  {
  }

  /** For a process that is running because it was picked: it yields to an equal, unless its policy is FIFO, but perhaps not to the waiter. */
  lemma KeptByPicked(x: Places, policy: map<Pid, Policy>, w: Pid, c: Pid)
    requires Placed(x, {}) && PolicyOk(x, policy) && w in x.state && c in x.state && c != x.idle
    requires Chosen(x.queue, x.idle) == c
    ensures KeepsProcessor(x.queue, x.prio, policy, x.idle, w, c) <==>
              if policy[c] == RR then x.prio[w] < x.prio[c] && x.queue[x.prio[c]] == [c] else x.prio[w] <= x.prio[c]
    ensures RunsNext(x.queue, x.prio, policy, w, c) <==>
              x.prio[c] < x.prio[w] || (policy[c] == RR && x.prio[c] == x.prio[w] && x.queue[x.prio[c]] == [c])
  {
    var q := TopHighest(x.queue, x.idle, c, 32);
    HeadRuns(x, q);
  }

  lemma {:induction false} TopHighest(queue: seq<seq<Pid>>, idle: Pid, c: Pid, n: nat) returns (q: nat)
    requires n <= |queue| && Top(queue, idle, n) == c != idle
    ensures q < n && queue[q] != [] && queue[q][0] == c && forall k :: q < k < n ==> queue[k] == []
  {
    q := n - 1;
    if queue[n - 1] == [] {
      q := TopHighest(queue, idle, c, n - 1);
    }
  }

  lemma Unchallenged(x: Places, policy: map<Pid, Policy>, w: Pid, c: Pid)
    requires Placed(x, {}) && w in x.state && !Runnable(x.state[w])
    requires c in x.state && Runnable(x.state[c]) && c in policy && c != x.idle
    requires x.prio[w] <= x.prio[c] && forall q :: x.prio[c] < q < 32 ==> x.queue[q] == []
    ensures Chosen(Turned(Joined(x.queue, x.prio, w), x.prio, policy, c), x.idle) == c
       <==> KeepsProcessor(x.queue, x.prio, policy, x.idle, w, c)
  {
    hide Placed, Turned, Joined;
    PlacedFields(x);
    Queued(x, c);
    var k := x.prio[c];
    var y := Joined(x.queue, x.prio, w);
    var z := Turned(y, x.prio, policy, c);
    JoinedAt(x.queue, x.prio, w, k);
    TurnKeeps(y, x.prio, policy, c, k, c);
    forall q | k < q < 32 ensures z[q] == [] {
      JoinedAt(x.queue, x.prio, w, q);
      TurnKeeps(y, x.prio, policy, c, q, c);
    }
    TopIs(z, x.idle, k, 32);
    TurnedHead(y, x.prio, policy, c);
    if |x.queue[k]| == 1 { assert x.queue[k] == [c]; }
  }

  /** The run queues of priority 16 and 31; the others are empty. */
  ghost predicate Lines(queue: seq<seq<Pid>>, low: seq<Pid>, high: seq<Pid>) {
    && |queue| == 32 && queue[16] == low && queue[31] == high
    && forall q :: 0 <= q < 32 && q != 16 && q != 31 ==> queue[q] == []
  }

  lemma HighestHead(x: Places, q: nat)
    requires Placed(x, {}) && q < 32 && x.queue[q] != [] && (forall k :: q < k < 32 ==> x.queue[k] == [])
    ensures MostUrgent(x, x.queue[q][0]) && x.queue[q][0] != x.idle
  {
    var p := x.queue[q][0];
    HeadRuns(x, q);
    forall z | z in x.state && Runnable(x.state[z]) && z != x.idle ensures x.prio[z] <= x.prio[p] {
      Queued(x, z);
    }
  }

  lemma NothingQueued(x: Places)
    requires Placed(x, {}) && forall k :: 0 <= k < 32 ==> x.queue[k] == []
    ensures MostUrgent(x, x.idle)
  {
    forall z | z in x.state && Runnable(x.state[z]) && z != x.idle ensures x.queue[x.prio[z]] != [] {
      Queued(x, z);
    }
  }

  lemma UrgentIdle(x: Places)
    requires Placed(x, {}) && MostUrgent(x, x.idle)
    ensures forall q :: 0 <= q < 32 ==> x.queue[q] == []
  {
    forall q | 0 <= q < 32 ensures x.queue[q] == [] {
      if x.queue[q] != [] {
        HeadRuns(x, q);
      }
    }
  }

  lemma RunningChosen(x: Places, p: Pid)
    requires Placed(x, {}) && MostUrgent(x, p)
    ensures Placed(x.(state := x.state[p := RUNNING]), {})
    ensures MostUrgent(x.(state := x.state[p := RUNNING]), p)
  {
    hide Placed;
    PlacedFields(x);
    StillRunnable(x, {}, p, RUNNING);
  }

  lemma PlacedFields(x: Places)
    requires Placed(x, {})
    ensures FieldsOk(x, {}) && |x.queue| == 32
  {
  }

  lemma ControlChosen(x: Places, owner: Option<Pid>, pc: map<Pid, Pc>, current: Pid)
    requires Placed(x, {}) && Settled(x, owner, pc) && NobodyInside(pc) && owner != Some(x.idle)
    requires MostUrgent(x, current)
    ensures Control(x, owner, pc, current)
  {
    hide Placed, Settled;
    if current == x.idle { UrgentIdle(x); }
    PlacedFields(x);
  }

  lemma SettledChosen(x: Places, owner: Option<Pid>, pc: map<Pid, Pc>, p: Pid)
    requires Settled(x, owner, pc) && p in x.state && Runnable(x.state[p])
    ensures Settled(x.(state := x.state[p := RUNNING]), owner, pc)
  {
  }

  // ---------------------------------------------------------------------

  /** What the process on the processor, or a device, may do next; the lock's methods are taken whole or by halves. */
  datatype Action =
    | Enter | Leave | Continue
    | Test | Take | Look | Drop
    | Sleep(r: RendezId) | WakeOne(r: RendezId) | WakeAll(r: RendezId)
    | Interrupt(wakes: seq<RendezId>)
    | Spawn(p: Pid) | Quit | Wait(p: Pid)

  class Scheduler {
    var queue: seq<seq<Pid>>
    var bitmap: set<nat>
    var locked: bool
    var owner: Option<Pid>
    var blocked: seq<Pid>
    var rendez: map<RendezId, seq<Pid>>
    var state: map<Pid, ProcState>
    var prio: map<Pid, nat>
    var policy: map<Pid, Policy>
    var current: Pid
    const idle: Pid
    ghost var on: map<Pid, RendezId>
    var pc: map<Pid, Pc>
    ghost var log: seq<Event>

    ghost function Sighted(): Sight
      reads `rendez, `pc, `current, `state, `locked, `blocked
    {
      Sight(rendez, pc, current, state, locked, blocked)
    }

    ghost function Where(): Places
      reads `queue, `blocked, `rendez, `state, `prio, `on
    {
      Places(queue, blocked, rendez, state, prio, on, idle)
    }

    ghost function Lock(): Bkl
      reads `owner, `blocked
    {
      if owner.Some? then Held(owner.value, blocked) else Free
    }

    /** The lock has been through exactly the events of the log. */
    ghost predicate Logged()
      reads `owner, `blocked, `log
    {
      Legal(Free, log) && Replay(Free, log) == Lock()
    }

    ghost predicate Queues()
      reads `queue, `bitmap, `blocked, `rendez, `state, `prio, `on, `policy
    {
      Placed(Where(), {}) && BitmapOk(queue, bitmap) && PolicyOk(Where(), policy)
    }

    ghost predicate Inv()
      reads this
    {
      && Queues() && Control(Where(), owner, pc, current)
      && (locked <==> owner.Some?) && Logged()
    }

    /** Processes root, timer and idle, with root on the processor, before any of them has entered the kernel. */
    constructor (root: Pid, timer: Pid, idle: Pid, rendez: set<RendezId>)
      requires root != timer && timer != idle && root != idle
      ensures Inv() && !locked && current == root && this.idle == idle
      ensures state == map[root := RUNNING, timer := INIT, idle := INIT]
      ensures blocked == [] && forall r :: r in rendez ==> r in this.rendez && this.rendez[r] == []
      ensures log == [] && this.rendez.Keys == rendez && pc == map[root := User, timer := User, idle := User]
      ensures prio == map[root := 16, timer := 31, idle := 0] && policy == map[root := RR, timer := RR, idle := IDLE]
      ensures Lines(queue, [root], [timer])
    {
      hide Placed, Control, PolicyOk;
      queue := seq(32, q => if q == 16 then [root] else if q == 31 then [timer] else []);
      bitmap := {16, 31};
      locked, owner, blocked := false, None, [];
      this.rendez := map r | r in rendez :: [];
      state := map[root := RUNNING, timer := INIT, idle := INIT];
      prio := map[root := 16, timer := 31, idle := 0];
      policy := map[root := RR, timer := RR, idle := IDLE];
      current, this.idle := root, idle;
      on, pc, log := map[], map[root := User, timer := User, idle := User], [];
      new;
      BootPlaced(Where(), root, timer);
      BootState(Where(), root, timer, policy, pc);
    }

    /** Add a process to the run queue of its priority. */
    method SchedReady(p: Pid)
      requires BitmapOk(queue, bitmap) && p in prio && prio[p] < 32 && p in policy && policy[p] in {RR, FIFO}
      modifies `queue, `bitmap
      ensures BitmapOk(queue, bitmap)
      ensures queue == old(queue)[prio[p] := old(queue)[prio[p]] + [p]]
    {
      queue := queue[prio[p] := queue[prio[p]] + [p]];
      bitmap := bitmap + {prio[p]};
    }

    /** Take a process off the run queue of its priority. */
    method SchedUnready(p: Pid)
      requires BitmapOk(queue, bitmap) && p in prio && prio[p] < 32 && p in policy && policy[p] in {RR, FIFO}
      modifies `queue, `bitmap
      ensures BitmapOk(queue, bitmap)
      ensures queue == old(queue)[prio[p] := Without(old(queue)[prio[p]], p)]
    {
      queue := queue[prio[p] := Without(queue[prio[p]], p)];
      if queue[prio[p]] == [] {
        bitmap := bitmap - {prio[p]};
      }
    }

    /** The first process of the highest queue that is not empty, or idle. */
    method ChooseNext() returns (next: Pid)
      requires Placed(Where(), {}) && BitmapOk(queue, bitmap)
      ensures MostUrgent(Where(), next) && next == Chosen(queue, idle)
    {
      hide Placed, MostUrgent, Top;
      if bitmap != {} {
        var q := 31;
        while q > 0 && q !in bitmap
          invariant 0 <= q < 32 && forall k :: q < k < 32 ==> k !in bitmap
        {
          q := q - 1;
        }
        assert q in bitmap by {
          var b :| b in bitmap;
        }
        HighestHead(Where(), q);
        TopIs(queue, idle, q, 32);
        next := queue[q][0];
      } else {
        NothingQueued(Where());
        TopIdle(queue, idle, 32);
        next := idle;
      }
    }

    /** The running process gives up the processor to the most urgent one that can run. */
    method Reschedule()
      requires Queues() && Settled(Where(), owner, pc) && NobodyInside(pc)
      requires owner != Some(idle) && current in state
      modifies `queue, `state, `current
      ensures Queues() && Control(Where(), owner, pc, current) && MostUrgent(Where(), current)
      ensures state == old(state)[current := RUNNING] && current == Chosen(queue, idle)
      ensures queue == Turned(old(queue), prio, policy, old(current))
    {
      hide Chosen, Placed, Settled, MostUrgent, Control, PcOk, BitmapOk, PolicyOk, NobodyInside;
      PolicyKnown(Where(), policy, current);
      if policy[current] == RR {
        RotateQueue();
      }
      var next := ChooseNext();
      UrgentRuns(Where(), next);
      RunningChosen(Where(), next);
      SettledChosen(Where(), owner, pc, next);
      PolicySame(Where(), policy, Where().(state := state[next := RUNNING]));
      state := state[next := RUNNING];
      current := next;
      ControlChosen(Where(), owner, pc, current);
    }

    method RotateQueue()
      requires Queues() && Settled(Where(), owner, pc) && current in state && policy[current] == RR
      modifies `queue
      ensures Queues() && Settled(Where(), owner, pc)
      ensures queue == Turn(old(queue), prio[current])
    {
      hide Placed;
      var q := prio[current];
      if queue[q] != [] {
        Rotated(Where(), {}, q);
        queue := queue[q := queue[q][1..] + [queue[q][0]]];
      }
    }

    // -------------------------------------------------------------------
    // The Big Kernel Lock.

    /** Entry to the kernel: take the lock if it is free, or queue behind those that wait for it. */
    method KernelLock()
      requires Inv() && Outside(pc[current])
      modifies `queue, `bitmap, `locked, `owner, `blocked, `state, `current, `pc, `log
      ensures Inv() && locked && log == old(log) + [Event.Lock(old(current))]
      ensures old(locked) ==> blocked == old(blocked) + [old(current)]
      ensures old(locked) ==> owner == old(owner) && MostUrgent(Where(), current)
      ensures old(locked) ==> old(current) in state && state[old(current)] == BKL_BLOCKED
      ensures !old(locked) ==> owner == Some(current) && current == old(current) && pc == old(pc)[current := InKernel]
      ensures !old(locked) ==> Where() == old(Where())
      ensures old(locked) ==> pc == old(pc)[old(current) := InLock] && current == Chosen(queue, idle)
      ensures old(locked) ==> queue == Turned(Parted(old(queue), prio, old(current)), prio, policy, old(current))
    {
      hide Scheduler.Queues, Control, Legal, Replay, PcOk, MostUrgent;
      MayAsk();
      Extended(Free, log, Event.Lock(current));
      log := log + [Event.Lock(current)];
      if !locked {
        ControlByEntry(Where(), pc, current);
        locked, owner := true, Some(current);
        pc := pc[current := InKernel];
      } else {
        BlockOnLock();
      }
    }

    lemma MayAsk()
      requires Queues() && Control(Where(), owner, pc, current) && Outside(pc[current])
      ensures owner.Some? ==> current != owner.value && current !in blocked
      ensures owner.None? ==> blocked == []
      ensures current in state
    {
      LockEnabled(Where(), owner, pc, current);
    }

    method BlockOnLock()
      requires Queues() && Control(Where(), owner, pc, current) && owner.Some? && Outside(pc[current])
      modifies `queue, `bitmap, `blocked, `state, `current, `pc
      ensures Queues() && Control(Where(), owner, pc, current) && MostUrgent(Where(), current)
      ensures blocked == old(blocked) + [old(current)] && pc == old(pc)[old(current) := InLock]
      ensures old(current) in state && state[old(current)] == BKL_BLOCKED && current == Chosen(queue, idle)
      ensures queue == Turned(Parted(old(queue), prio, old(current)), prio, policy, old(current))
    {
      hide Placed, Control, Settled, PolicyOk, BitmapOk, Without, MostUrgent, PcOk, ToBkl, Chosen, Turned, Parted;
      LeaveByLock(Where(), owner, pc, current);
      ghost var c := current;
      QueueForLock();
      pc := pc[current := InLock];
      Reschedule();
      Blocked(Where(), owner, pc, current, c);
    }

    /** The running process moves from its run queue to the lock's. */
    method QueueForLock()
      requires Queues() && current in state && current != idle
      modifies `queue, `bitmap, `blocked, `state
      ensures Where() == ToBkl(old(Where()), current) && BitmapOk(queue, bitmap) && PolicyOk(Where(), policy)
      ensures blocked == old(blocked) + [current] && state == old(state)[current := BKL_BLOCKED]
      ensures queue == Parted(old(queue), prio, current)
    {
      hide Placed, PolicyOk, BitmapOk, Without;
      PolicyKnown(Where(), policy, current);
      PolicySame(Where(), policy, ToBkl(Where(), current));
      blocked := blocked + [current];
      state := state[current := BKL_BLOCKED];
      SchedUnready(current);
    }

    /** The holder gives up the lock, to the first process waiting for it if there is one. */
    method PassLock()
      requires Queues() && Control(Where(), owner, pc, current) && owner == Some(current) && locked && Logged()
      modifies `queue, `bitmap, `locked, `owner, `blocked, `state, `pc, `log
      ensures Queues() && Settled(Where(), owner, pc) && NobodyInside(pc) && Logged()
      ensures owner != Some(idle) && owner != Some(current) && (locked <==> owner.Some?)
      ensures log == old(log) + [Release] && pc == old(pc)[current := User]
      ensures old(blocked) == [] ==> owner == None && Where() == old(Where()) && bitmap == old(bitmap)
      ensures old(blocked) != [] ==> owner == Some(old(blocked)[0]) && blocked == old(blocked)[1..]
      ensures old(blocked) != [] ==> state == old(state)[old(blocked)[0] := READY]
      ensures current in state && Runnable(state[current]) && queue == Passed(old(queue), prio, old(blocked))
    {
      hide Placed, Control, Settled, Legal, Replay, PcOk, MostUrgent, HandOff, PolicyOk, BitmapOk, Joined;
      Extended(Free, log, Release);
      log := log + [Release];
      if blocked != [] {
        PassedOn(Where(), pc, current);
        owner := Some(blocked[0]);
        ReadyFirstWaiter();
      } else {
        PutDown(Where(), pc, current);
        locked, owner := false, None;
      }
      pc := pc[current := User];
    }

    method ReadyFirstWaiter()
      requires Queues() && blocked != [] && blocked[0] in state && blocked[0] != idle
      modifies `queue, `bitmap, `blocked, `state
      ensures Where() == HandOff(old(Where())) && BitmapOk(queue, bitmap) && PolicyOk(Where(), policy)
      ensures blocked == old(blocked)[1..] && state == old(state)[old(blocked)[0] := READY]
      ensures queue == Joined(old(queue), prio, old(blocked)[0])
    {
      hide Placed, PolicyOk, BitmapOk;
      var p := blocked[0];
      PolicyKnown(Where(), policy, p);
      PolicySame(Where(), policy, HandOff(Where()));
      blocked := blocked[1..];
      state := state[p := READY];
      SchedReady(p);
    }

    /**
      Exit from the kernel. The first waiter becomes the holder; whether it runs before anybody is back
      in user mode depends on the priorities.
     */
    method KernelUnlock()
      requires Inv() && pc[current] == InKernel
      modifies `queue, `bitmap, `locked, `owner, `blocked, `state, `current, `pc, `log
      ensures Inv() && log == old(log) + [Release]
      ensures old(current) in pc && pc == old(pc)[old(current) := User]
      ensures old(blocked) == [] ==> !locked && current == old(current) && Where() == old(Where())
      ensures old(blocked) != [] ==> owner == Some(old(blocked)[0]) && blocked == old(blocked)[1..]
      ensures old(blocked) != [] ==> MostUrgent(Where(), current) && current == Chosen(queue, idle)
      ensures old(blocked) != [] ==> queue == Turned(Passed(old(queue), prio, old(blocked)), prio, policy, old(current))
      ensures old(blocked) != [] ==> (current == old(current) <==>
                KeepsProcessor(old(queue), prio, policy, idle, old(blocked)[0], old(current)))
      ensures old(blocked) != [] ==> (current == old(blocked)[0] <==>
                RunsNext(old(queue), prio, policy, old(blocked)[0], old(current)))
      ensures old(blocked) != [] && current != old(blocked)[0] ==> current in pc && Outside(pc[current])
    {
      hide Placed, Control, Settled, Legal, Replay, PcOk, MostUrgent, PolicyOk, BitmapOk, Turned, Chosen, Joined, KeepsProcessor,
        RunsNext;
      HolderInside(Where(), owner, pc, current);
      if locked {
        if blocked != [] {
          MayKeep();
          PassLock();
          Reschedule();
          HolderInside(Where(), owner, pc, current);
        } else {
          PutDown(Where(), pc, current);
          PassLock();
        }
      } else {
        assert false;
      }
    }

    lemma MayKeep()
      requires Queues() && Control(Where(), owner, pc, current) && owner == Some(current) && blocked != []
      ensures Chosen(Turned(Joined(queue, prio, blocked[0]), prio, policy, current), idle) == current
         <==> KeepsProcessor(queue, prio, policy, idle, blocked[0], current)
      ensures Chosen(Turned(Joined(queue, prio, blocked[0]), prio, policy, current), idle) == blocked[0]
         <==> RunsNext(queue, prio, policy, blocked[0], current)
    {
      hide Turned, Chosen, Joined, KeepsProcessor, RunsNext, BitmapOk, Placed, Control, PolicyOk, HandOff, Settled, NobodyInside;
      PassedOn(Where(), pc, current);
      PolicyKnown(Where(), policy, current);
      BklTaken(Where(), {});
      KeptExactly(Where(), policy, blocked[0], current);
      NextExactly(Where(), policy, blocked[0], current);
    }

    // -------------------------------------------------------------------
    // Rendez condition variables.

    /** Give up the lock and sleep until a wakeup. */
    method TaskSleep(r: RendezId)
      requires Inv() && pc[current] == InKernel && current != idle && r in rendez
      modifies `queue, `bitmap, `locked, `owner, `blocked, `state, `current, `pc, `log, `rendez, `on
      ensures Inv() && log == old(log) + [Release] && MostUrgent(Where(), current) && current == Chosen(queue, idle)
      ensures queue == Turned(Parted(Passed(old(queue), prio, old(blocked)), prio, old(current)), prio, policy, old(current))
      ensures rendez == old(rendez)[r := old(rendez)[r] + [old(current)]] && on == old(on)[old(current) := r]
      ensures pc == old(pc)[old(current) := InSleep]
      ensures blocked == if old(blocked) == [] then [] else old(blocked)[1..]
      ensures owner == if old(blocked) == [] then None else Some(old(blocked)[0])
    {
      hide Placed, Control, Settled, Legal, Replay, PcOk, MostUrgent, PolicyOk, BitmapOk, ToRendez, Without,
        Chosen, Turned, Parted, Joined;
      HolderInside(Where(), owner, pc, current);
      PassLock();
      StopOn(r);
    }

    method StopOn(r: RendezId)
      requires Queues() && Settled(Where(), owner, pc) && NobodyInside(pc) && owner != Some(idle)
      requires current in state && current != idle && Runnable(state[current]) && pc[current] == User && r in rendez
      modifies `queue, `bitmap, `rendez, `state, `on, `pc, `current
      ensures Queues() && Control(Where(), owner, pc, current) && MostUrgent(Where(), current)
      ensures current == Chosen(queue, idle)
      ensures queue == Turned(Parted(old(queue), prio, old(current)), prio, policy, old(current))
      ensures rendez == old(rendez)[r := old(rendez)[r] + [old(current)]] && on == old(on)[old(current) := r]
      ensures pc == old(pc)[old(current) := InSleep]
    {
      hide Placed, Control, Settled, PcOk, MostUrgent, PolicyOk, BitmapOk, ToRendez, Without, Chosen, Turned, Parted;
      LeaveToSleep(Where(), owner, pc, current, r);
      SleepOn(r);
      pc := pc[current := InSleep];
      Reschedule();
    }

    method SleepOn(r: RendezId)
      requires Queues() && current in state && current != idle && r in rendez
      modifies `queue, `bitmap, `rendez, `state, `on
      ensures Where() == ToRendez(old(Where()), current, r) && BitmapOk(queue, bitmap) && PolicyOk(Where(), policy)
      ensures rendez == old(rendez)[r := old(rendez)[r] + [current]] && on == old(on)[current := r]
      ensures current in state && queue == Parted(old(queue), prio, current)
    {
      hide Placed, PolicyOk, BitmapOk, Without;
      PolicyKnown(Where(), policy, current);
      PolicySame(Where(), policy, ToRendez(Where(), current, r));
      rendez := rendez[r := rendez[r] + [current]];
      state := state[current := RENDEZ_BLOCKED];
      on := on[current := r];
      SchedUnready(current);
    }

    /** A process that stopped inside KernelLock or a sleep runs again: it holds the lock. */
    method Resume()
      requires Inv() && pc[current] in {InLock, InSleep}
      modifies `pc
      ensures Inv() && locked && owner == Some(current) && pc == old(pc)[current := InKernel]
    {
      hide Placed, Legal, Replay, PolicyOk, BitmapOk;
      pc := pc[current := InKernel];
    }

    /** Move the longest sleeper, if there is one, to the queue for the lock, which somebody holds. */
    method TaskWakeup(r: RendezId)
      requires Inv() && locked && r in rendez
      modifies `rendez, `blocked, `state, `log
      ensures Inv()
      ensures old(rendez)[r] == [] ==> Where() == old(Where()) && log == old(log)
      ensures old(rendez)[r] != [] ==> blocked == old(blocked) + [old(rendez)[r][0]]
      ensures old(rendez)[r] != [] ==> rendez == old(rendez)[r := old(rendez)[r][1..]]
      ensures old(rendez)[r] != [] ==> state == old(state)[old(rendez)[r][0] := BKL_BLOCKED]
      ensures old(rendez)[r] != [] ==> log == old(log) + [Wake(old(rendez)[r][0])]
    {
      hide Placed, Control, Legal, Replay, PcOk, PolicyOk, BitmapOk, Without;
      if rendez[r] != [] {
        MoveSleeper(r, rendez[r][0]);
        WithoutHead(old(rendez)[r]);
      }
    }

    method MoveSleeper(r: RendezId, p: Pid)
      requires Inv() && locked && r in rendez && p in rendez[r]
      modifies `rendez, `blocked, `state, `log
      ensures Inv()
      ensures blocked == old(blocked) + [p] && rendez == old(rendez)[r := Without(old(rendez)[r], p)]
      ensures state == old(state)[p := BKL_BLOCKED] && log == old(log) + [Wake(p)]
      ensures old(state[p]) == RENDEZ_BLOCKED
    {
      hide Placed, Control, Legal, Replay, PcOk, PolicyOk, BitmapOk, Without, Wakened;
      MovedByWakeup(Where(), r, p);
      ControlByWakeup(Where(), owner, pc, current, r, p);
      Extended(Free, log, Wake(p));
      log := log + [Wake(p)];
      ToLockQueue(r, p);
    }

    method ToLockQueue(r: RendezId, p: Pid)
      requires r in rendez && p in state && PolicyOk(Where(), policy)
      modifies `rendez, `blocked, `state
      ensures Where() == Wakened(old(Where()), r, p) && PolicyOk(Where(), policy)
      ensures blocked == old(blocked) + [p] && rendez == old(rendez)[r := Without(old(rendez)[r], p)]
      ensures state == old(state)[p := BKL_BLOCKED]
    {
      hide PolicyOk, Without;
      PolicySame(Where(), policy, Wakened(Where(), r, p));
      rendez := rendez[r := Without(rendez[r], p)];
      blocked := blocked + [p];
      state := state[p := BKL_BLOCKED];
    }

    /** Wake every sleeper of a rendez, in the order they went to sleep. */
    method TaskWakeupAll(r: RendezId)
      requires Inv() && Inside(pc[current]) && r in rendez
      modifies `rendez, `blocked, `state, `log
      ensures Inv() && rendez == old(rendez)[r := []] && blocked == old(blocked) + old(rendez)[r] && old(log) <= log
    {
      hide Scheduler.Inv, Upto;
      InKernelHolds();
      ghost var n := 0;
      UptoNone(rendez, blocked, r);
      while rendez[r] != []
        invariant Inv() && locked && old(log) <= log && r in rendez
        invariant Upto(old(rendez), old(blocked), r, rendez, blocked, n)
        decreases |rendez[r]|
      {
        UptoNext(old(rendez), old(blocked), r, rendez, blocked, n);
        TaskWakeup(r);
        n := n + 1;
      }
      UptoAll(old(rendez), old(blocked), r, rendez, blocked, n);
    }

    lemma InKernelHolds()
      requires Inv()
      ensures current in pc && (Inside(pc[current]) ==> locked && owner == Some(current))
    {
      HolderInside(Where(), owner, pc, current);
    }

    /** The timeout of a timed sleep: if the process is still asleep, queue it for the lock. */
    method TimedSleepCallback(p: Pid, r: RendezId)
      requires Inv() && locked && r in rendez && p in state
      requires state[p] == RENDEZ_BLOCKED ==> on[p] == r
      modifies `rendez, `blocked, `state, `log
      ensures Inv()
      ensures old(state[p]) != RENDEZ_BLOCKED ==> Where() == old(Where()) && log == old(log)
      ensures old(state[p]) == RENDEZ_BLOCKED ==>
                && blocked == old(blocked) + [p] && rendez == old(rendez)[r := Without(old(rendez)[r], p)]
                && state == old(state)[p := BKL_BLOCKED] && log == old(log) + [Wake(p)]
    {
      hide Placed, Control, Legal, Replay, PcOk, PolicyOk, BitmapOk, Without;
      if state[p] == RENDEZ_BLOCKED {
        Sleeping(Where(), p);
        MoveSleeper(r, p);
      }
    }

    // -------------------------------------------------------------------

    /**
      An interrupt, whose handlers wake the given rendez one after the other. It takes the lock only if
      that is free, and then passes it on like any process leaving the kernel.
     */
    method InterruptHandler(wakes: seq<RendezId>)
      requires Inv() && forall i :: 0 <= i < |wakes| ==> wakes[i] in rendez
      modifies `queue, `bitmap, `locked, `owner, `blocked, `state, `current, `pc, `log, `rendez
      ensures Inv() && rendez == AfterWakes(old(rendez), wakes) && old(log) <= log && pc == old(pc)
      ensures old(locked) ==> owner == old(owner) && blocked == old(blocked) + Woken(old(rendez), wakes)
      ensures old(locked) ==> current == old(current) && queue == old(queue)
      ensures !old(locked) ==> PassedBy(Woken(old(rendez), wakes), old(queue), old(current), Where(), policy, owner, current)
      ensures !old(locked) && Woken(old(rendez), wakes) != [] ==> MostUrgent(Where(), current)
    {
      hide Scheduler.Inv, Without, MostUrgent, Woken, AfterWakes, KeepsProcessor, Chosen, Joined, Turned;
      Freely();
      if !locked {
        TakeInterrupt(wakes);
      } else {
        TopHalf(wakes);
      }
    }

    method TakeInterrupt(wakes: seq<RendezId>)
      requires Inv() && !locked && forall i :: 0 <= i < |wakes| ==> wakes[i] in rendez
      modifies `queue, `bitmap, `locked, `owner, `blocked, `state, `current, `pc, `log, `rendez
      ensures Inv() && rendez == AfterWakes(old(rendez), wakes) && old(log) <= log && pc == old(pc)
      ensures PassedBy(Woken(old(rendez), wakes), old(queue), old(current), Where(), policy, owner, current)
      ensures Woken(old(rendez), wakes) != [] ==> MostUrgent(Where(), current)
    {
      hide Scheduler.Inv, Without, MostUrgent, Woken, AfterWakes, KeepsProcessor, RunsNext, Chosen, Joined, Turned;
      Freely();
      var c, at := current, pc[current];
      KernelLock();
      TopHalf(wakes);
      assert blocked == Woken(old(rendez), wakes) && queue == old(queue);
      KernelUnlock();
      BackTo(c, at);
      Freely();
    }

    lemma Freely()
      requires Inv()
      ensures current in pc && current in state && (!locked ==> Outside(pc[current]) && blocked == []) && (locked <==> owner.Some?)
    {
      Fine(Where(), owner, pc, current);
    }

    /** The end of an interrupt: the interrupted process is again where it was. */
    method BackTo(c: Pid, at: Pc)
      requires Inv() && c in pc && pc[c] == User && Outside(at)
      modifies `pc
      ensures Inv() && pc == old(pc)[c := at]
    {
      hide Placed, Legal, Replay, PolicyOk, BitmapOk, Control;
      StaysOutside(Where(), owner, pc, current, c, at);
      pc := pc[c := at];
    }

    method TopHalf(wakes: seq<RendezId>)
      requires Inv() && locked && forall i :: 0 <= i < |wakes| ==> wakes[i] in rendez
      modifies `rendez, `blocked, `state, `log
      ensures Inv() && rendez == AfterWakes(old(rendez), wakes)
      ensures blocked == old(blocked) + Woken(old(rendez), wakes) && old(log) <= log
    {
      hide Scheduler.Inv, AfterWakes, Woken;
      WokenNone(rendez);
      for i := 0 to |wakes|
        invariant Inv() && locked && rendez.Keys == old(rendez.Keys)
        invariant rendez == AfterWakes(old(rendez), wakes[..i])
        invariant blocked == old(blocked) + Woken(old(rendez), wakes[..i]) && old(log) <= log
      {
        assert wakes[..i + 1][..i] == wakes[..i];
        WokenNext(old(rendez), wakes[..i + 1]);
        TaskWakeup(wakes[i]);
      }
      assert wakes[..|wakes|] == wakes;
    }

    // -------------------------------------------------------------------
    // System calls reach the lock with interrupts enabled, so that one can come between a look at the
    // lock and what is done about it. The two halves of KernelLock and of KernelUnlock:

    /** The first half of KernelLock: look at the lock, and wait for it if it is held. */
    method TestLock()
      requires Inv() && pc[current] == User
      modifies `queue, `bitmap, `locked, `owner, `blocked, `state, `current, `pc, `log
      ensures Inv() && owner == old(owner) && locked == old(locked)
      ensures !old(locked) ==> pc == old(pc)[current := Testing] && current == old(current) && Where() == old(Where())
      ensures !old(locked) ==> log == old(log)
      ensures old(locked) ==> pc == old(pc)[old(current) := InLock] && blocked == old(blocked) + [old(current)]
      ensures old(locked) ==> log == old(log) + [Event.Lock(old(current))] && MostUrgent(Where(), current)
      ensures old(locked) ==> current == Chosen(queue, idle)
      ensures old(locked) ==> queue == Turned(Parted(old(queue), prio, old(current)), prio, policy, old(current))
    {
      hide Scheduler.Queues, Control, Legal, Replay, PcOk, MostUrgent, Chosen, Turned, Parted;
      Freely();
      if !locked {
        StaysOutside(Where(), owner, pc, current, current, Testing);
        pc := pc[current := Testing];
      } else {
        KernelLock();
      }
    }

    /** The second half: write the lock that was free at the look. It is right exactly if the lock is still free. */
    method TakeLock()
      requires Inv() && pc[current] == Testing
      modifies `locked, `owner, `pc, `log
      ensures locked && owner == Some(current) && pc == old(pc)[current := InKernel]
      ensures Inv() <==> !old(locked)
      ensures log == if old(locked) then old(log) else old(log) + [Event.Lock(current)]
      ensures old(locked) ==> old(owner).Some? && TwoInside(state, pc, current, old(owner).value)
    {
      hide Placed, Settled, Legal, Replay, PcOk, PolicyOk, BitmapOk, Control;
      Freely();
      if locked {
        TakenTwice(Where(), owner.value, pc, current);
      } else {
        ControlByEntry(Where(), pc, current);
        Extended(Free, log, Event.Lock(current));
        log := log + [Event.Lock(current)];
      }
      locked, owner := true, Some(current);
      pc := pc[current := InKernel];
    }

    /** The first half of KernelUnlock: look for a waiter, and pass the lock on if there is one. */
    method LookForWaiter()
      requires Inv() && pc[current] == InKernel
      modifies `queue, `bitmap, `locked, `owner, `blocked, `state, `current, `pc, `log
      ensures Inv()
      ensures old(blocked) == [] ==> pc == old(pc)[current := Leaving] && current == old(current) && log == old(log)
      ensures old(blocked) == [] ==> Where() == old(Where()) && locked && owner == old(owner)
      ensures old(blocked) != [] ==> owner == Some(old(blocked)[0]) && blocked == old(blocked)[1..]
      ensures old(blocked) != [] ==> pc == old(pc)[old(current) := User] && log == old(log) + [Release]
      ensures old(blocked) != [] ==> current == Chosen(queue, idle)
      ensures old(blocked) != [] ==> queue == Turned(Passed(old(queue), prio, old(blocked)), prio, policy, old(current))
    {
      hide Scheduler.Queues, Control, Legal, Replay, PcOk, MostUrgent, KeepsProcessor, Chosen, Turned, Passed;
      InKernelHolds();
      if blocked == [] {
        StaysInside(Where(), owner, pc, current);
        pc := pc[current := Leaving];
      } else {
        KernelUnlock();
      }
    }

    /** The second half: free the lock nobody waited for at the look. It is right exactly if nobody waits now. */
    method FreeLock()
      requires Inv() && pc[current] == Leaving
      modifies `locked, `owner, `pc, `log
      ensures !locked && owner == None && pc == old(pc)[current := User]
      ensures Inv() <==> blocked == []
      ensures log == if blocked == [] then old(log) + [Release] else old(log)
    {
      hide Placed, Settled, Legal, Replay, PcOk, PolicyOk, BitmapOk, Control;
      InKernelHolds();
      if blocked == [] {
        PutDown(Where(), pc, current);
        Extended(Free, log, Release);
        log := log + [Release];
      } else {
        Stranded(Where(), pc[current := User], current);
      }
      locked, owner := false, None;
      pc := pc[current := User];
    }

    /** A system call leaves the kernel and an interrupt comes between the two halves. */
    method InterruptedUnlock(wakes: seq<RendezId>)
      requires Inv() && pc[current] == InKernel && forall i :: 0 <= i < |wakes| ==> wakes[i] in rendez
      modifies `queue, `bitmap, `locked, `owner, `blocked, `state, `current, `pc, `log, `rendez
      ensures Inv() <==> old(blocked) != [] || Woken(old(rendez), wakes) == []
      ensures !Inv() ==> !locked && blocked == Woken(old(rendez), wakes) != []
      ensures rendez == AfterWakes(old(rendez), wakes) && pc == old(pc)[old(current) := User]
      ensures old(blocked) == [] ==> !locked && blocked == Woken(old(rendez), wakes) && current == old(current)
      ensures old(blocked) != [] ==> owner == Some(old(blocked)[0]) && blocked == old(blocked)[1..] + Woken(old(rendez), wakes)
    {
      hide Scheduler.Inv, MostUrgent, AfterWakes, Woken, KeepsProcessor, Chosen, Turned, Joined;
      InKernelHolds();
      if blocked == [] {
        LookForWaiter();
        InKernelHolds();
        InterruptHandler(wakes);
        FreeLock();
      } else {
        TopHalf(wakes);
        KernelUnlock();
      }
    }

    /**
      A system call enters the kernel through a free lock and an interrupt comes between the two halves.
      If the caller keeps the processor it goes wrong exactly if somebody is woken. Otherwise the caller
      is left about to write a lock that is held, and TakeLock says what becomes of that.
     */
    method InterruptedLock(wakes: seq<RendezId>)
      requires Inv() && pc[current] == User && !locked && forall i :: 0 <= i < |wakes| ==> wakes[i] in rendez
      modifies `queue, `bitmap, `locked, `owner, `blocked, `state, `current, `pc, `log, `rendez
      ensures current == old(current) <==>
                Woken(old(rendez), wakes) == []
                || KeepsProcessor(old(queue), prio, policy, idle, Woken(old(rendez), wakes)[0], old(current))
      ensures current == old(current) ==> (Inv() <==> Woken(old(rendez), wakes) == []) && pc == old(pc)[current := InKernel]
      ensures rendez == AfterWakes(old(rendez), wakes)
      ensures !Inv() ==> TwoInside(state, pc, current, Woken(old(rendez), wakes)[0])
      ensures current != old(current) ==> Inv() && pc == old(pc)[old(current) := Testing]
      ensures current != old(current) ==> locked && owner == Some(Woken(old(rendez), wakes)[0])
    {
      hide Scheduler.Inv, MostUrgent, AfterWakes, Woken, KeepsProcessor, Chosen, Turned, Joined, TwoInside;
      var c := current;
      Freely();
      TestLock();
      InterruptHandler(wakes);
      Freely();
      if current == c {
        TakeLock();
      }
    }

    // -------------------------------------------------------------------
    // Processes come and go.

    /** The last step of a fork: the child, which starts outside the kernel, becomes ready with its parent's priority. */
    method Fork(p: Pid)
      requires Inv() && pc[current] == InKernel && current != idle && p !in state
      modifies `queue, `bitmap, `state, `prio, `policy, `pc
      ensures Inv() && state == old(state)[p := READY] && pc == old(pc)[p := User]
      ensures current in prio && prio == old(prio)[p := prio[current]]
      ensures current in policy && policy == old(policy)[p := policy[current]]
      ensures queue == Joined(old(queue), prio, p)
    {
      hide Placed, Control, Legal, Replay, PcOk, PolicyOk, BitmapOk, Spawned;
      HolderInside(Where(), owner, pc, current);
      PolicyKnown(Where(), policy, current);
      SpawnedOk(Where(), owner, pc, current, policy, p);
      ReadyChild(p);
      pc := pc[p := User];
    }

    method ReadyChild(p: Pid)
      requires BitmapOk(queue, bitmap) && current in prio && prio[current] < 32
      requires current in policy && policy[current] in {RR, FIFO}
      modifies `queue, `bitmap, `state, `prio, `policy
      requires |queue| == 32
      ensures BitmapOk(queue, bitmap) && Where() == Spawned(old(Where()), p, old(prio[current]))
      ensures queue == old(queue)[old(prio[current]) := old(queue)[old(prio[current])] + [p]]
      ensures state == old(state)[p := READY] && prio == old(prio)[p := old(prio[current])]
      ensures policy == old(policy)[p := old(policy[current])]
    {
      hide BitmapOk;
      state := state[p := READY];
      prio := prio[p := prio[current]];
      policy := policy[p := policy[current]];
      SchedReady(p);
    }

    /** The last step of an exit: give up the lock for good. */
    method Exit()
      requires Inv() && pc[current] == InKernel && current != idle
      modifies `queue, `bitmap, `locked, `owner, `blocked, `state, `current, `pc, `log
      ensures Inv() && log == old(log) + [Release] && MostUrgent(Where(), current)
      ensures pc == old(pc)[old(current) := Exited] && old(current) in state && state[old(current)] == ZOMBIE
      ensures current == Chosen(queue, idle)
      ensures queue == Turned(Parted(Passed(old(queue), prio, old(blocked)), prio, old(current)), prio, policy, old(current))
      ensures blocked == if old(blocked) == [] then [] else old(blocked)[1..]
      ensures owner == if old(blocked) == [] then None else Some(old(blocked)[0])
    {
      hide Placed, Control, Settled, Legal, Replay, PcOk, MostUrgent, PolicyOk, BitmapOk, ToZombie, Without,
        Chosen, Turned, Parted, Joined;
      HolderInside(Where(), owner, pc, current);
      PassLock();
      StopForGood();
    }

    method StopForGood()
      requires Queues() && Settled(Where(), owner, pc) && NobodyInside(pc) && owner != Some(idle)
      requires current in state && current != idle && Runnable(state[current]) && pc[current] == User
      modifies `queue, `bitmap, `state, `pc, `current
      ensures Queues() && Control(Where(), owner, pc, current) && MostUrgent(Where(), current)
      ensures current == Chosen(queue, idle)
      ensures queue == Turned(Parted(old(queue), prio, old(current)), prio, policy, old(current))
      ensures pc == old(pc)[old(current) := Exited] && old(current) in state && state[old(current)] == ZOMBIE
    {
      hide Placed, Control, Settled, PcOk, MostUrgent, PolicyOk, BitmapOk, ToZombie, Without, Chosen, Turned, Parted;
      ghost var c := current;
      LeaveForGood(Where(), owner, pc, current);
      BecomeZombie();
      pc := pc[current := Exited];
      Reschedule();
      Gone(Where(), owner, pc, current, c);
    }

    method BecomeZombie()
      requires Queues() && current in state && current != idle
      modifies `queue, `bitmap, `state
      ensures Where() == ToZombie(old(Where()), current) && BitmapOk(queue, bitmap) && PolicyOk(Where(), policy)
      ensures state == old(state)[current := ZOMBIE] && queue == Parted(old(queue), prio, current)
    {
      hide Placed, PolicyOk, BitmapOk, Without;
      PolicyKnown(Where(), policy, current);
      PolicySame(Where(), policy, ToZombie(Where(), current));
      state := state[current := ZOMBIE];
      SchedUnready(current);
    }

    /** A zombie is reaped. */
    method Reap(p: Pid)
      requires Inv() && p in state && state[p] == ZOMBIE
      modifies `state, `prio, `policy, `pc
      ensures Inv() && state == old(state) - {p} && pc == old(pc) - {p}
      ensures prio == old(prio) - {p} && policy == old(policy) - {p}
    {
      hide Placed, Control, Scheduler.Logged, PcOk, PolicyOk, BitmapOk, Freed;
      FreedOk(Where(), owner, pc, current, policy, p);
      pc := pc - {p};
      ForgetProcess(p);
    }

    method ForgetProcess(p: Pid)
      modifies `state, `prio, `policy
      ensures Where() == Freed(old(Where()), p) && state == old(state) - {p} && policy == old(policy) - {p} && prio == old(prio) - {p}
    {
      state, prio, policy := state - {p}, prio - {p}, policy - {p};
    }

    // -------------------------------------------------------------------
    // Whole runs.

    /** One step, if the process on the processor is where it can take it. It keeps the invariant but for two cases. */
    method Step(a: Action) returns (kept: bool)
      requires Inv()
      modifies this
      ensures kept <==> Inv()
      ensures old(current) in old(pc) && (!kept <==> TooLate(a, old(pc)[old(current)], old(locked), old(blocked)))
      ensures old(log) <= log && rendez.Keys == old(rendez.Keys)
      ensures Calm(old(pc), old(current), old(locked), old(blocked)) && !(a.Interrupt? && Halfway(old(pc)[old(current)])) ==>
                Calm(pc, current, locked, blocked)
      ensures !kept ==> Wreck(state, pc, current, locked, blocked)
      ensures Confined(a, old(rendez), old(pc), old(current), rendez, pc)
      ensures Acted(a, idle, old(Sighted()), rendez, pc)
    {
      hide Scheduler.Inv, MostUrgent, AfterWakes, Woken, Without, KeepsProcessor, Chosen, Joined, Turned, PassedBy, Passed, Parted,
        Confined;
      InKernelHolds();
      NoMove(a, rendez, pc, current);
      kept := true;
      if pc[current] == InKernel {
        InsideStep(a);
      } else if a == Take && pc[current] == Testing {
        OwnMove(a, rendez, pc, current, InKernel);
        kept := !locked;
        TakeLock();
      } else if a == Drop && pc[current] == Leaving {
        OwnMove(a, rendez, pc, current, User);
        kept := blocked == [];
        FreeLock();
      } else {
        OutsideStep(a);
      }
    }

    /** What a process outside the kernel, or on its way in, may do. */
    method OutsideStep(a: Action)
      requires Inv() && current in pc && pc[current] != InKernel
      requires !(a == Take && pc[current] == Testing) && !(a == Drop && pc[current] == Leaving)
      modifies `queue, `bitmap, `locked, `owner, `blocked, `state, `current, `pc, `log, `rendez
      ensures Inv() && old(log) <= log && rendez.Keys == old(rendez.Keys)
      ensures Calm(old(pc), old(current), old(locked), old(blocked)) && !(a.Interrupt? && Halfway(old(pc)[old(current)])) ==>
                Calm(pc, current, locked, blocked)
      ensures Confined(a, old(rendez), old(pc), old(current), rendez, pc)
      ensures Acted(a, idle, old(Sighted()), rendez, pc)
    {
      hide Scheduler.Inv, MostUrgent, AfterWakes, Woken, PassedBy, Confined, Without, KeepsProcessor, Chosen, Joined, Turned, Passed;
      NoMove(a, rendez, pc, current);
      match a
      case Enter =>
        if pc[current] == User {
          OwnMove(a, rendez, pc, current, if locked then InLock else InKernel);
          KernelLock();
        }
      case Test =>
        if pc[current] == User {
          OwnMove(a, rendez, pc, current, if locked then InLock else Testing);
          TestLock();
        }
      case Continue =>
        if pc[current] in {InLock, InSleep} {
          OwnMove(a, rendez, pc, current, InKernel);
          Resume();
        }
      case Interrupt(wakes) =>
        if forall i :: 0 <= i < |wakes| ==> wakes[i] in rendez {
          WakeMoves(a, rendez, pc, current, wakes);
          InterruptHandler(wakes);
        }
      case _ =>
    }

    /** What a process that is in the kernel may do. */
    method InsideStep(a: Action)
      requires Inv() && pc[current] == InKernel
      modifies this
      ensures Inv() && old(log) <= log && rendez.Keys == old(rendez.Keys)
      ensures Calm(old(pc), old(current), old(locked), old(blocked)) ==> Calm(pc, current, locked, blocked)
      ensures Confined(a, old(rendez), old(pc), old(current), rendez, pc)
      ensures Acted(a, idle, old(Sighted()), rendez, pc)
    {
      hide Scheduler.Inv, MostUrgent, AfterWakes, Woken, Without, KeepsProcessor, Chosen, Joined, Turned, PassedBy, Passed, Parted,
        Confined;
      InKernelHolds();
      NoMove(a, rendez, pc, current);
      match a
      case Leave =>
        OwnMove(a, rendez, pc, current, User);
        KernelUnlock();
      case Look =>
        OwnMove(a, rendez, pc, current, if blocked == [] then Leaving else User);
        LookForWaiter();
      case Interrupt(wakes) =>
        if forall i :: 0 <= i < |wakes| ==> wakes[i] in rendez {
          WakeMoves(a, rendez, pc, current, wakes);
          InterruptHandler(wakes);
        }
      case Spawn(p) => LifeStep(a);
      case Quit => LifeStep(a);
      case Wait(p) => LifeStep(a);
      case _ => RendezStep(a);
    }

    method RendezStep(a: Action)
      requires Inv() && pc[current] == InKernel && a !in {Leave, Look, Quit} && !(a.Interrupt? || a.Spawn? || a.Wait?)
      modifies `queue, `bitmap, `locked, `owner, `blocked, `state, `current, `pc, `log, `rendez, `on
      ensures Inv() && old(log) <= log && rendez.Keys == old(rendez.Keys)
      ensures Calm(old(pc), old(current), old(locked), old(blocked)) ==> Calm(pc, current, locked, blocked)
      ensures Confined(a, old(rendez), old(pc), old(current), rendez, pc)
      ensures Acted(a, idle, old(Sighted()), rendez, pc)
    {
      hide Scheduler.Inv, MostUrgent, Without, Chosen, Joined, Turned, Passed, Parted, Confined;
      InKernelHolds();
      NoMove(a, rendez, pc, current);
      match a
      case Sleep(r) =>
        if current != idle && r in rendez {
          SleepMoves(rendez, pc, current, r);
          TaskSleep(r);
        }
      case WakeOne(r) =>
        if r in rendez {
          if rendez[r] != [] { ListMoves(a, rendez, pc, current, r, 1); }
          TaskWakeup(r);
        }
      case WakeAll(r) =>
        if r in rendez {
          ListMoves(a, rendez, pc, current, r, |rendez[r]|);
          assert rendez[r][|rendez[r]|..] == [];
          TaskWakeupAll(r);
        }
      case _ =>
    }

    method LifeStep(a: Action)
      requires Inv() && pc[current] == InKernel && (a.Spawn? || a == Quit || a.Wait?)
      modifies `queue, `bitmap, `locked, `owner, `blocked, `state, `current, `pc, `log, `prio, `policy
      ensures Inv() && old(log) <= log
      ensures Calm(old(pc), old(current), old(locked), old(blocked)) ==> Calm(pc, current, locked, blocked)
      ensures Confined(a, rendez, old(pc), old(current), rendez, pc)
      ensures Acted(a, idle, old(Sighted()), rendez, pc)
    {
      hide Scheduler.Inv, MostUrgent, KeepsProcessor, Chosen, Joined, Turned, Confined;
      InKernelHolds();
      NoMove(a, rendez, pc, current);
      match a
      case Spawn(p) =>
        if current != idle && p !in state {
          Unborn(p);
          BirthMove(a, rendez, pc, current, p);
          Fork(p);
        }
      case Quit =>
        if current != idle {
          OwnMove(a, rendez, pc, current, Exited);
          Exit();
        }
      case Wait(p) =>
        if p in state && state[p] == ZOMBIE {
          ZombieGone(p);
          BurialMove(a, rendez, pc, current, p);
          Reap(p);
        }
      case _ =>
    }

    /**
      Every run, interrupts anywhere: each process stays in exactly one place, and whoever waits for the
      lock waits for a process that can run, until the `n`-th step, if there is one, writes a lock that
      is held or frees a lock that is waited for.
     */
    method Run(actions: seq<Action>) returns (n: nat, ghost xs: seq<Sight>)
      requires Inv()
      modifies this
      ensures n <= |actions| && old(log) <= log && (Inv() <==> n == |actions|)
      ensures |xs| == (if n < |actions| then n + 2 else n + 1) && xs[0] == old(Sighted()) && xs[|xs| - 1] == Sighted()
      ensures Followed(actions, idle, xs)
      ensures n == |actions| && blocked != [] ==>
                locked && owner.Some? && owner.value in state && Runnable(state[owner.value])
      ensures n < |actions| ==> actions[n] in {Take, Drop} && Wreck(state, pc, current, locked, blocked)
    {
      hide Scheduler.Inv, TooLate, Wreck, Calm, Acted, Confined;
      n, xs := 0, [Sighted()];
      var kept := true;
      while n < |actions| && kept
        invariant n <= |actions| && old(log) <= log && (kept <==> Inv())
        invariant |xs| == (if kept then n + 1 else n + 2) && xs[0] == old(Sighted()) && xs[|xs| - 1] == Sighted()
        invariant Followed(actions, idle, xs)
        invariant !kept ==> n < |actions| && actions[n] in {Take, Drop} && Wreck(state, pc, current, locked, blocked)
        decreases |actions| - n, kept
      {
        kept := Step(actions[n]);
        xs := xs + [Sighted()];
        LateSteps(actions[n]);
        n := if kept then n + 1 else n;
      }
      if kept { NobodyStranded(); }
    }

    /** Every run in which no interrupt comes between the halves: nothing goes wrong. */
    method RunMasked(actions: seq<Action>)
      requires Inv() && Calm(pc, current, locked, blocked)
      modifies this
      ensures Inv() && Calm(pc, current, locked, blocked) && old(log) <= log
      ensures blocked != [] ==> locked && owner.Some? && owner.value in state && Runnable(state[owner.value])
    {
      hide Scheduler.Inv, Wreck;
      for i := 0 to |actions|
        invariant Inv() && Calm(pc, current, locked, blocked) && old(log) <= log
      {
        InKernelHolds();
        if !(actions[i].Interrupt? && Halfway(pc[current])) {
          var kept := Step(actions[i]);
        }
      }
      NobodyStranded();
    }

    lemma Unborn(p: Pid)
      requires Inv() && p !in state
      ensures p !in pc
    {
    }

    lemma ZombieGone(p: Pid)
      requires Inv()
      ensures p in state && state[p] == ZOMBIE ==> p in pc && pc[p] == Exited && p != current
    {
    }

    lemma NobodyStranded()
      requires Inv()
      ensures blocked != [] ==> locked && owner.Some? && owner.value in state && Runnable(state[owner.value])
    {
    }

    /** Over any stretch of a run: a process queued at place k gets the lock at the (k+1)-th release and not before. */
    lemma HandOffIsFifo(before: seq<Event>, after: seq<Event>, k: nat)
      requires Inv() && log == before + after
      requires Replay(Free, before).Held? && k < |Replay(Free, before).waiters|
      ensures var p := Replay(Free, before).waiters[k];
              && (Releases(after) <= k ==> owner != Some(p) && k - Releases(after) < |blocked| && blocked[k - Releases(after)] == p)
              && (Releases(after) == k + 1 && after[|after| - 1].Release? ==> owner == Some(p))
    {
      hide Scheduler.Queues, Control, Legal;
      var b := Replay(Free, before);
      Split(Free, before, after);
      DistinctKept(Free, before);
      if Releases(after) <= k {
        Waits(b, after, k);
      } else if Releases(after) == k + 1 && after[|after| - 1].Release? {
        var short := after[..|after| - 1];
        assert after == short + [Release];
        Granted(b, short, k);
      }
    }
  }

  lemma LockEnabled(x: Places, owner: Option<Pid>, pc: map<Pid, Pc>, p: Pid)
    requires Placed(x, {}) && Control(x, owner, pc, p) && Outside(pc[p])
    ensures owner.Some? ==> p != owner.value && p !in x.bkl
    ensures owner.None? ==> x.bkl == []
  {
    assert SpotOf(x, {}, p) != Bkl;
  }

  lemma ControlByEntry(x: Places, pc: map<Pid, Pc>, p: Pid)
    requires Control(x, None, pc, p) && Outside(pc[p])
    ensures Control(x, Some(p), pc[p := InKernel], p)
  {
  }

  /** What the effect of an action depends on. */
  datatype Sight = Sight(z: map<RendezId, seq<Pid>>, pc: map<Pid, Pc>, c: Pid, state: map<Pid, ProcState>, locked: bool, waiters: seq<Pid>)

  /** The process `c` on the processor, or a device, is where it can take the action. */
  ghost predicate Able(a: Action, idle: Pid, x: Sight) {
    var z, pc, c, state := x.z, x.pc, x.c, x.state;
    c in pc && match a
               case Enter => pc[c] == User
               case Test => pc[c] == User
               case Take => pc[c] == Testing
               case Drop => pc[c] == Leaving
               case Continue => pc[c] in {InLock, InSleep}
               case Leave => pc[c] == InKernel
               case Look => pc[c] == InKernel
               case Sleep(r) => pc[c] == InKernel && c != idle && r in z
               case WakeOne(r) => pc[c] == InKernel && r in z
               case WakeAll(r) => pc[c] == InKernel && r in z
               case Interrupt(wakes) => forall i :: 0 <= i < |wakes| ==> wakes[i] in z
               case Spawn(p) => pc[c] == InKernel && c != idle && p !in state
               case Quit => pc[c] == InKernel && c != idle
               case Wait(p) => pc[c] == InKernel && p in state && state[p] == ZOMBIE
  }

  /** An action that can be taken is: where it leaves its process, and the sleepers. */
  ghost predicate Acted(a: Action, idle: Pid, x: Sight, z': map<RendezId, seq<Pid>>, pc': map<Pid, Pc>) {
    var z, pc, c, locked, waiters := x.z, x.pc, x.c, x.locked, x.waiters;
    if !Able(a, idle, x) then z' == z && pc' == pc
    else match a
      case Enter => z' == z && pc' == pc[c := if locked then InLock else InKernel]
      case Test => z' == z && pc' == pc[c := if locked then InLock else Testing]
      case Take => z' == z && pc' == pc[c := InKernel]
      case Drop => z' == z && pc' == pc[c := User]
      case Continue => z' == z && pc' == pc[c := InKernel]
      case Leave => z' == z && pc' == pc[c := User]
      case Look => z' == z && pc' == pc[c := if waiters == [] then Leaving else User]
      case Sleep(r) => z' == z[r := z[r] + [c]] && pc' == pc[c := InSleep]
      case WakeOne(r) => z' == (if z[r] == [] then z else z[r := z[r][1..]]) && pc' == pc
      case WakeAll(r) => z' == z[r := []] && pc' == pc
      case Interrupt(wakes) => z' == AfterWakes(z, wakes) && pc' == pc
      case Spawn(p) => z' == z && pc' == pc[p := User]
      case Quit => z' == z && pc' == pc[c := Exited]
      case Wait(p) => z' == z && pc' == pc - {p}
  }

  /** Each of the actions, as far as there are sights, was acted on. */
  ghost predicate Followed(actions: seq<Action>, idle: Pid, xs: seq<Sight>) {
    1 <= |xs| <= |actions| + 1 && forall i :: 0 <= i < |xs| - 1 ==> Acted(actions[i], idle, xs[i], xs[i + 1].z, xs[i + 1].pc)
  }

  /** What an action may change: its own process, the places of sleepers it wakes, processes that begin or are reaped. */
  ghost predicate Confined(a: Action, z: map<RendezId, seq<Pid>>, pc: map<Pid, Pc>, c: Pid,
                           z': map<RendezId, seq<Pid>>, pc': map<Pid, Pc>) {
    && z'.Keys == z.Keys && c in pc && c in pc'
    && (forall r, p :: r in z && p in z'[r] ==> p in z[r] || (p == c && a == Sleep(r)))
    && (forall p :: p in pc && p != c ==> (p in pc' && pc'[p] == pc[p]) || pc[p] == Exited)
    && (forall p :: p in pc' && p !in pc ==> pc'[p] == User)
    && (pc'[c] == pc[c] || pc'[c] == InKernel || pc[c] in {User, Leaving} || a in {Leave, Look, Quit} || a.Sleep?)
  }

  lemma NoMove(a: Action, z: map<RendezId, seq<Pid>>, pc: map<Pid, Pc>, c: Pid)
    requires c in pc
    ensures Confined(a, z, pc, c, z, pc)
  {
  }

  lemma OwnMove(a: Action, z: map<RendezId, seq<Pid>>, pc: map<Pid, Pc>, c: Pid, v: Pc)
    requires c in pc && (v == InKernel || pc[c] in {User, Leaving} || a in {Leave, Look, Quit})
    ensures Confined(a, z, pc, c, z, pc[c := v])
  {
  }

  lemma BirthMove(a: Action, z: map<RendezId, seq<Pid>>, pc: map<Pid, Pc>, c: Pid, p: Pid)
    requires c in pc && p !in pc
    ensures Confined(a, z, pc, c, z, pc[p := User])
  {
  }

  lemma BurialMove(a: Action, z: map<RendezId, seq<Pid>>, pc: map<Pid, Pc>, c: Pid, p: Pid)
    requires c in pc && p in pc && p != c && pc[p] == Exited
    ensures Confined(a, z, pc, c, z, pc - {p})
  {
  }

  lemma SleepMoves(z: map<RendezId, seq<Pid>>, pc: map<Pid, Pc>, c: Pid, r: RendezId)
    requires c in pc && r in z
    ensures Confined(Sleep(r), z, pc, c, z[r := z[r] + [c]], pc[c := InSleep])
  {
  }

  lemma ListMoves(a: Action, z: map<RendezId, seq<Pid>>, pc: map<Pid, Pc>, c: Pid, r: RendezId, n: nat)
    requires c in pc && r in z && n <= |z[r]|
    ensures Confined(a, z, pc, c, z[r := z[r][n..]], pc)
  {
  }

  lemma {:induction false} WakeMoves(a: Action, z: map<RendezId, seq<Pid>>, pc: map<Pid, Pc>, c: Pid, wakes: seq<RendezId>)
    requires c in pc
    ensures Confined(a, z, pc, c, AfterWakes(z, wakes), pc)
    decreases |wakes|
  {
    hide AfterWakes;
    WokenNone(z);
    if wakes != [] {
      WakeMoves(a, z, pc, c, wakes[..|wakes| - 1]);
      WokenNext(z, wakes);
    }
  }

  predicate Halfway(c: Pc) { c in {Testing, Leaving} }

  /** What the process halfway through KernelLock or KernelUnlock saw at its look is still so. */
  ghost predicate Calm(pc: map<Pid, Pc>, current: Pid, locked: bool, waiters: seq<Pid>) {
    forall p :: p in pc && Halfway(pc[p]) ==>
      p == current && (pc[p] == Testing ==> !locked) && (pc[p] == Leaving ==> waiters == [])
  }

  /** A second half that comes too late: the lock has been taken since the look, or somebody has begun to wait. */
  predicate TooLate(a: Action, c: Pc, locked: bool, waiters: seq<Pid>) {
    (a == Take && c == Testing && locked) || (a == Drop && c == Leaving && waiters != [])
  }

  lemma LateSteps(a: Action)
    ensures forall c, locked, waiters :: TooLate(a, c, locked, waiters) ==> a in {Take, Drop}
  {
  }

  /** Two processes are in the kernel, or processes wait for a lock that nobody holds. */
  ghost predicate Wreck(state: map<Pid, ProcState>, pc: map<Pid, Pc>, current: Pid, locked: bool, waiters: seq<Pid>) {
    (exists p :: TwoInside(state, pc, current, p)) || (!locked && waiters != [])
  }

  lemma StaysOutside(x: Places, owner: Option<Pid>, pc: map<Pid, Pc>, p: Pid, c: Pid, at: Pc)
    requires Control(x, owner, pc, p) && c in pc && Outside(pc[c]) && Outside(at)
    ensures Control(x, owner, pc[c := at], p)
  {
  }

  lemma StaysInside(x: Places, owner: Option<Pid>, pc: map<Pid, Pc>, p: Pid)
    requires Control(x, owner, pc, p) && p in pc && Inside(pc[p])
    ensures Control(x, owner, pc[p := Leaving], p)
  {
  }

  lemma LeaveByLock(x: Places, owner: Option<Pid>, pc: map<Pid, Pc>, p: Pid)
    requires Placed(x, {}) && Control(x, owner, pc, p) && owner.Some? && Outside(pc[p])
    ensures p in x.state && p != x.idle && Placed(ToBkl(x, p), {}) && Settled(ToBkl(x, p), owner, pc[p := InLock])
    ensures NobodyInside(pc[p := InLock]) && owner != Some(x.idle) && owner != Some(p)
  {
    hide Placed;
    if p == x.idle { IdleNeverWaits(x, owner, pc); }
    MovedToBkl(x, p);
    SettledByLeaving(x, owner, pc, p, ToBkl(x, p), BKL_BLOCKED, InLock) by { PlacedFields(x); }
  }

  lemma Blocked(x: Places, owner: Option<Pid>, pc: map<Pid, Pc>, current: Pid, p: Pid)
    requires Control(x, owner, pc, current) && p in pc && pc[p] == InLock
    ensures p in x.state && (owner != Some(p) ==> x.state[p] == BKL_BLOCKED)
  {
  }

  lemma PassedOn(x: Places, pc: map<Pid, Pc>, p: Pid)
    requires Placed(x, {}) && Control(x, Some(p), pc, p) && x.bkl != []
    ensures x.bkl[0] in x.state && x.bkl[0] != x.idle && x.bkl[0] != p && p in x.state && Runnable(x.state[p])
    ensures Placed(HandOff(x), {}) && Settled(HandOff(x), Some(x.bkl[0]), pc[p := User])
    ensures NobodyInside(pc[p := User])
  {
    HandedOff(x);
    SettledByHandOff(x, pc, p);
  }

  lemma PutDown(x: Places, pc: map<Pid, Pc>, p: Pid)
    requires Control(x, Some(p), pc, p) && x.bkl == []
    ensures Settled(x, None, pc[p := User]) && NobodyInside(pc[p := User])
    ensures Control(x, None, pc[p := User], p) && p in x.state && Runnable(x.state[p])
  {
  }

  lemma HolderInside(x: Places, owner: Option<Pid>, pc: map<Pid, Pc>, p: Pid)
    requires Control(x, owner, pc, p)
    ensures p in pc && p in x.state && (!Outside(pc[p]) <==> owner == Some(p))
  {
  }

  lemma LeaveToSleep(x: Places, owner: Option<Pid>, pc: map<Pid, Pc>, p: Pid, r: RendezId)
    requires Placed(x, {}) && Settled(x, owner, pc) && NobodyInside(pc) && r in x.rendez
    requires p in x.state && p != x.idle && Runnable(x.state[p]) && pc[p] == User
    ensures Placed(ToRendez(x, p, r), {}) && Settled(ToRendez(x, p, r), owner, pc[p := InSleep])
    ensures NobodyInside(pc[p := InSleep])
  {
    MovedToRendez(x, p, r);
    SettledByLeaving(x, owner, pc, p, ToRendez(x, p, r), RENDEZ_BLOCKED, InSleep);
  }

  lemma LeaveForGood(x: Places, owner: Option<Pid>, pc: map<Pid, Pc>, p: Pid)
    requires Placed(x, {}) && Settled(x, owner, pc) && NobodyInside(pc)
    requires p in x.state && p != x.idle && Runnable(x.state[p]) && pc[p] == User
    ensures Placed(ToZombie(x, p), {}) && Settled(ToZombie(x, p), owner, pc[p := Exited])
    ensures NobodyInside(pc[p := Exited])
  {
    MovedToZombie(x, p);
    SettledByLeaving(x, owner, pc, p, ToZombie(x, p), ZOMBIE, Exited);
  }

  lemma Gone(x: Places, owner: Option<Pid>, pc: map<Pid, Pc>, current: Pid, p: Pid)
    requires Control(x, owner, pc, current) && p in pc && pc[p] == Exited
    ensures p in x.state && x.state[p] == ZOMBIE
  {
  }

  lemma Sleeping(x: Places, p: Pid)
    requires Placed(x, {}) && p in x.state && x.state[p] == RENDEZ_BLOCKED
    ensures p in x.on && x.on[p] in x.rendez && p in x.rendez[x.on[p]]
  {
    assert SpotOf(x, {}, p) == Rendez(x.on[p]);
  }

  lemma Fine(x: Places, owner: Option<Pid>, pc: map<Pid, Pc>, p: Pid)
    requires Control(x, owner, pc, p)
    ensures p in pc && (owner.None? ==> Outside(pc[p]) && x.bkl == [])
  {
  }

  /** The first `n` sleepers of `r` have moved to the lock's queue. */
  ghost predicate Upto(z: map<RendezId, seq<Pid>>, bkl: seq<Pid>, r: RendezId, z': map<RendezId, seq<Pid>>, bkl': seq<Pid>, n: nat) {
    r in z && n <= |z[r]| && z' == z[r := z[r][n..]] && bkl' == bkl + z[r][..n]
  }

  lemma UptoNone(z: map<RendezId, seq<Pid>>, bkl: seq<Pid>, r: RendezId)
    requires r in z
    ensures Upto(z, bkl, r, z, bkl, 0)
  {
    assert z[r][0..] == z[r] && z[r][..0] == [];
    assert z == z[r := z[r]];
  }

  lemma UptoNext(z: map<RendezId, seq<Pid>>, bkl: seq<Pid>, r: RendezId, z': map<RendezId, seq<Pid>>, bkl': seq<Pid>, n: nat)
    requires Upto(z, bkl, r, z', bkl', n)
    ensures r in z' && (z'[r] != [] ==> Upto(z, bkl, r, z'[r := z'[r][1..]], bkl' + [z'[r][0]], n + 1))
  {
    if z'[r] != [] {
      assert z[r][n..][1..] == z[r][n + 1..] && z[r][..n + 1] == z[r][..n] + [z[r][n]];
      assert bkl + z[r][..n] + [z[r][n]] == bkl + z[r][..n + 1];
    }
  }

  lemma UptoAll(z: map<RendezId, seq<Pid>>, bkl: seq<Pid>, r: RendezId, z': map<RendezId, seq<Pid>>, bkl': seq<Pid>, n: nat)
    requires Upto(z, bkl, r, z', bkl', n) && r in z' && z'[r] == []
    ensures z' == z[r := []] && bkl' == bkl + z[r]
  {
    assert z[r][..|z[r]|] == z[r];
  }

  /** Two processes that can run are both inside the kernel. */
  ghost predicate TwoInside(state: map<Pid, ProcState>, pc: map<Pid, Pc>, current: Pid, p: Pid) {
    p != current && p in state && Runnable(state[p]) && p in pc && current in pc && !Outside(pc[p]) && !Outside(pc[current])
  }

  lemma Stranded(x: Places, pc: map<Pid, Pc>, p: Pid)
    requires x.bkl != []
    ensures !Control(x, None, pc, p)
  {
  }

  lemma TakenTwice(x: Places, holder: Pid, pc: map<Pid, Pc>, p: Pid)
    requires Control(x, Some(holder), pc, p) && Outside(pc[p])
    ensures !Control(x, Some(p), pc[p := InKernel], p) && TwoInside(x.state, pc[p := InKernel], p, holder)
  {
    assert PcOk(x.state[holder], pc[holder], true);
  }

  /** The rendez after the longest sleeper of each of `wakes` in turn has been woken. */
  function AfterWakes(z: map<RendezId, seq<Pid>>, wakes: seq<RendezId>): (left: map<RendezId, seq<Pid>>)
    ensures left.Keys == z.Keys
  {
    if wakes == [] then z
    else
      var y, r := AfterWakes(z, wakes[..|wakes| - 1]), wakes[|wakes| - 1];
      if r !in y || y[r] == [] then y else y[r := y[r][1..]]
  }

  /** The sleepers so woken, in order. */
  function Woken(z: map<RendezId, seq<Pid>>, wakes: seq<RendezId>): seq<Pid> {
    if wakes == [] then []
    else
      var y, r := AfterWakes(z, wakes[..|wakes| - 1]), wakes[|wakes| - 1];
      Woken(z, wakes[..|wakes| - 1]) + if r !in y || y[r] == [] then [] else [y[r][0]]
  }

  lemma WokenNone(z: map<RendezId, seq<Pid>>)
    ensures Woken(z, []) == [] && AfterWakes(z, []) == z
  {
  }

  lemma WokenNext(z: map<RendezId, seq<Pid>>, wakes: seq<RendezId>)
    requires wakes != []
    ensures var y, r := AfterWakes(z, wakes[..|wakes| - 1]), wakes[|wakes| - 1];
            && AfterWakes(z, wakes) == (if r !in y || y[r] == [] then y else y[r := y[r][1..]])
            && Woken(z, wakes) == Woken(z, wakes[..|wakes| - 1]) + if r !in y || y[r] == [] then [] else [y[r][0]]
  {
  }

  lemma WokenOne(z: map<RendezId, seq<Pid>>, r: RendezId)
    requires r in z && z[r] != []
    ensures Woken(z, [r]) == [z[r][0]] && AfterWakes(z, [r]) == z[r := z[r][1..]]
  {
    WokenNone(z);
    WokenNext(z, [r]);
    assert [r][..0] == [];
  }

  lemma SpawnedOk(x: Places, owner: Option<Pid>, pc: map<Pid, Pc>, c: Pid, policy: map<Pid, Policy>, p: Pid)
    requires Placed(x, {}) && Control(x, owner, pc, c) && PolicyOk(x, policy) && c != x.idle && p !in x.state
    requires c in policy && c in x.prio && x.prio[c] < 32 && |x.queue| == 32
    ensures Placed(Spawned(x, p, x.prio[c]), {}) && Control(Spawned(x, p, x.prio[c]), owner, pc[p := User], c)
    ensures PolicyOk(Spawned(x, p, x.prio[c]), policy[p := policy[c]])
  {
    hide Placed, Control, PolicyOk;
    MovedBySpawn(x, p, x.prio[c]);
    SpawnControl(x, owner, pc, c, p);
    SpawnPolicy(x, policy, c, p) by { PlacedFields(x); }
  }

  lemma SpawnControl(x: Places, owner: Option<Pid>, pc: map<Pid, Pc>, c: Pid, p: Pid)
    requires Control(x, owner, pc, c) && c != x.idle && p !in x.state && c in x.prio && x.prio[c] < 32 && |x.queue| == 32
    ensures Control(Spawned(x, p, x.prio[c]), owner, pc[p := User], c)
  {
  }

  lemma SpawnPolicy(x: Places, policy: map<Pid, Policy>, c: Pid, p: Pid)
    requires PolicyOk(x, policy) && c != x.idle && x.idle in x.state && p !in x.state
    requires c in policy && c in x.prio && x.prio[c] < 32 && |x.queue| == 32
    ensures PolicyOk(Spawned(x, p, x.prio[c]), policy[p := policy[c]])
  {
  }

  lemma FreedOk(x: Places, owner: Option<Pid>, pc: map<Pid, Pc>, c: Pid, policy: map<Pid, Policy>, p: Pid)
    requires Placed(x, {}) && Control(x, owner, pc, c) && PolicyOk(x, policy) && p in x.state && x.state[p] == ZOMBIE
    ensures Placed(Freed(x, p), {}) && Control(Freed(x, p), owner, pc - {p}, c)
    ensures PolicyOk(Freed(x, p), policy - {p})
  {
    MovedByFree(x, p);
  }

  lemma BootPlaced(x: Places, root: Pid, timer: Pid)
    requires root != timer && timer != x.idle && root != x.idle
    requires |x.queue| == 32 && x.queue[16] == [root] && x.queue[31] == [timer]
    requires forall q :: 0 <= q < 32 && q != 16 && q != 31 ==> x.queue[q] == []
    requires x.bkl == [] && x.state == map[root := RUNNING, timer := INIT, x.idle := INIT]
    requires x.prio == map[root := 16, timer := 31, x.idle := 0] && forall r :: r in x.rendez ==> x.rendez[r] == []
    ensures Placed(x, {})
  {
    assert QueuesOk(x, {}) by {
      forall q, p | 0 <= q < 32 ensures p in x.queue[q] <==> SpotOf(x, {}, p) == Queue(q) {
        assert SpotOf(x, {}, p) == if p == root then Queue(16) else if p == timer then Queue(31) else Nowhere;
      }
    }
    assert forall p :: SpotOf(x, {}, p) in {Queue(16), Queue(31), Nowhere};
  }

  lemma BootState(x: Places, root: Pid, timer: Pid, policy: map<Pid, Policy>, pc: map<Pid, Pc>)
    requires root != timer && timer != x.idle && root != x.idle && x.bkl == []
    requires x.state == map[root := RUNNING, timer := INIT, x.idle := INIT]
    requires x.prio == map[root := 16, timer := 31, x.idle := 0]
    requires pc == map[root := User, timer := User, x.idle := User]
    requires policy == map[root := RR, timer := RR, x.idle := IDLE]
    ensures Control(x, None, pc, root) && PolicyOk(x, policy)
  {
    hide Control, PolicyOk;
    BootControl(x, root, timer, policy, pc);
  }

  lemma BootControl(x: Places, root: Pid, timer: Pid, policy: map<Pid, Policy>, pc: map<Pid, Pc>)
    requires root != timer && timer != x.idle && root != x.idle && x.bkl == []
    requires x.state.Keys == x.prio.Keys == policy.Keys == pc.Keys == {root, timer, x.idle}
    requires x.state[root] == RUNNING && x.state[timer] == INIT && x.state[x.idle] == INIT
    requires x.prio[root] == 16 && x.prio[timer] == 31
    requires forall p :: p in pc ==> pc[p] == User
    requires policy[root] == RR && policy[timer] == RR && policy[x.idle] == IDLE
    ensures Control(x, None, pc, root) && PolicyOk(x, policy)
  {
  }

  lemma PolicyKnown(x: Places, policy: map<Pid, Policy>, p: Pid)
    requires Placed(x, {}) && PolicyOk(x, policy) && p in x.state
    ensures p in policy && p in x.prio && x.prio[p] < |x.queue| == 32
    ensures p != x.idle ==> policy[p] in {RR, FIFO}
  {
  }

  lemma PolicySame(x: Places, policy: map<Pid, Policy>, x': Places)
    requires PolicyOk(x, policy) && x'.state.Keys == x.state.Keys && x'.prio == x.prio && x'.idle == x.idle
    ensures PolicyOk(x', policy)
  {
  }

  lemma UrgentRuns(x: Places, p: Pid)
    requires MostUrgent(x, p)
    ensures p in x.state && Runnable(x.state[p])
  {
  }
}
