/**
  Runs of the scheduler from boot, which show what it does not promise. Root is process 0, the timer
  process is 1 and idle is 2. The only interrupt is that of the timer, which wakes the timer process
  and nobody else, and the timer process never leaves the kernel.
 */
module SchedulingRuns {
  import opened Core
  import opened Lists
  import opened Placement
  import opened Scheduling

  /** What root sleeps on, and what the timer process sleeps on. */
  const DOOR := Cond(0)
  const CLOCK := Cond(1)

  lemma LinesChosen(queue: seq<seq<Pid>>, low: seq<Pid>, high: seq<Pid>, idle: Pid)
    requires Lines(queue, low, high) && (low != [] || high != [])
    ensures Chosen(queue, idle) == if high != [] then high[0] else low[0]
  {
    TopIs(queue, idle, if high != [] then 31 else 16, 32);
  }

  lemma LinesJoined(queue: seq<seq<Pid>>, low: seq<Pid>, high: seq<Pid>, prio: map<Pid, nat>, p: Pid)
    requires Lines(queue, low, high) && p in prio && prio[p] in {16, 31}
    ensures Lines(Joined(queue, prio, p), if prio[p] == 16 then low + [p] else low, if prio[p] == 31 then high + [p] else high)
  {
  }

  lemma LinesParted(queue: seq<seq<Pid>>, low: seq<Pid>, high: seq<Pid>, prio: map<Pid, nat>, p: Pid)
    requires Lines(queue, low, high) && p in prio && prio[p] in {16, 31}
    ensures Lines(Parted(queue, prio, p),
                  if prio[p] == 16 then Without(low, p) else low, if prio[p] == 31 then Without(high, p) else high)
  {
    hide Without;
  }

  /** A queue turned by one place. */
  function Spin(l: seq<Pid>): seq<Pid> {
    if l == [] then l else l[1..] + [l[0]]
  }

  lemma Spins(a: Pid, b: Pid, c: Pid)
    ensures Spin([]) == [] && Spin([a]) == [a] && Spin([a, b]) == [b, a] && Spin([a, b] + [c]) == [b, c, a]
  {
  }

  lemma LinesTurned(queue: seq<seq<Pid>>, low: seq<Pid>, high: seq<Pid>, prio: map<Pid, nat>, policy: map<Pid, Policy>, c: Pid)
    requires Lines(queue, low, high) && c in prio && prio[c] in {16, 31} && c in policy && policy[c] == RR
    ensures Lines(Turned(queue, prio, policy, c), if prio[c] == 16 then Spin(low) else low, if prio[c] == 31 then Spin(high) else high)
  {
  }

  /** The first process of its queue stops, and that queue is turned. */
  lemma LinesStopped(queue: seq<seq<Pid>>, low: seq<Pid>, high: seq<Pid>, prio: map<Pid, nat>, policy: map<Pid, Policy>,
                     c: Pid, idle: Pid, low': seq<Pid>, high': seq<Pid>)
    requires Lines(queue, low, high) && c in prio && c in policy && policy[c] == RR
    requires if prio[c] == 16 then low != [] && low[0] == c && low' == Spin(low[1..]) && high' == high
             else prio[c] == 31 && high != [] && high[0] == c && high' == Spin(high[1..]) && low' == low
    requires low' != [] || high' != []
    ensures var q := Turned(Parted(queue, prio, c), prio, policy, c);
            Lines(q, low', high') && Chosen(q, idle) == if high' != [] then high'[0] else low'[0]
  {
    hide Lines, Without, Chosen, Turned, Parted, Spin;
    LinesParted(queue, low, high, prio, c);
    WithoutHead(if prio[c] == 16 then low else high);
    var q := Parted(queue, prio, c);
    LinesTurned(q, if prio[c] == 16 then low[1..] else low, if prio[c] == 31 then high[1..] else high, prio, policy, c);
    LinesChosen(Turned(q, prio, policy, c), low', high', idle);
  }

  /** The running process makes `w` ready, and its queue is turned. */
  lemma LinesPassed(queue: seq<seq<Pid>>, low: seq<Pid>, high: seq<Pid>, prio: map<Pid, nat>, policy: map<Pid, Policy>,
                    w: Pid, c: Pid, idle: Pid, low': seq<Pid>, high': seq<Pid>)
    requires Lines(queue, low, high) && c in prio && prio[c] == 16 && c in policy && policy[c] == RR
    requires w in prio && prio[w] in {16, 31}
    requires low' == Spin(if prio[w] == 16 then low + [w] else low) && high' == if prio[w] == 31 then high + [w] else high
    requires low' != [] || high' != []
    ensures var q := Turned(Joined(queue, prio, w), prio, policy, c);
            Lines(q, low', high') && Chosen(q, idle) == if high' != [] then high'[0] else low'[0]
  {
    hide Lines, Chosen, Turned, Joined, Spin;
    LinesJoined(queue, low, high, prio, w);
    var q := Joined(queue, prio, w);
    LinesTurned(q, if prio[w] == 16 then low + [w] else low, high', prio, policy, c);
    LinesChosen(Turned(q, prio, policy, c), low', high', idle);
  }

  lemma AloneOn(z: map<RendezId, seq<Pid>>, r: RendezId, p: Pid)
    requires r in z && z[r] == []
    ensures z[r := z[r] + [p]] == z[r := [p]]
  {
    assert z[r] + [p] == [p];
  }

  ghost predicate AllRoundRobin(policy: map<Pid, Policy>, ps: set<Pid>) {
    forall p :: p in ps ==> p in policy && policy[p] == RR
  }

  /** The kernel boots and root enters it. */
  method RootEnters(rendez: set<RendezId>) returns (s: Scheduler)
    ensures fresh(s) && s.Inv() && s.idle == 2 && s.current == 0 && s.blocked == []
    ensures s.pc == map[0 := InKernel, 1 := User, 2 := User] && s.state.Keys == {0, 1, 2}
    ensures s.prio == map[0 := 16, 1 := 31, 2 := 0] && AllRoundRobin(s.policy, {0, 1})
    ensures s.rendez.Keys == rendez && (forall r :: r in rendez ==> s.rendez[r] == []) && Lines(s.queue, [0], [1])
  {
    hide Scheduler.Inv, Lines;
    s := new Scheduler(0, 1, 2, rendez);
    s.KernelLock();
  }

  /** Root forks process 3. */
  method RootForks(rendez: set<RendezId>) returns (s: Scheduler)
    ensures fresh(s) && s.Inv() && s.idle == 2 && s.current == 0 && s.blocked == []
    ensures s.pc == map[0 := InKernel, 1 := User, 2 := User, 3 := User] && s.state.Keys == {0, 1, 2, 3}
    ensures s.prio == map[0 := 16, 1 := 31, 2 := 0, 3 := 16] && AllRoundRobin(s.policy, {0, 1, 3})
    ensures s.rendez.Keys == rendez && (forall r :: r in rendez ==> s.rendez[r] == []) && Lines(s.queue, [0, 3], [1])
  {
    hide Scheduler.Inv, Lines, Joined;
    s := RootEnters(rendez);
    LinesJoined(s.queue, [0], [1], s.prio[3 := 16], 3);
    assert [0] + [3] == [0, 3];
    s.Fork(3);
  }

  /** The processes of the runs below. */
  ghost predicate Family(s: Scheduler)
    reads s
  {
    && s.Inv() && s.idle == 2 && s.prio == map[0 := 16, 1 := 31, 2 := 0, 3 := 16, 4 := 16]
    && AllRoundRobin(s.policy, {0, 1, 3, 4})
  }

  /** And process 4. */
  method RootForksTwice() returns (s: Scheduler)
    ensures fresh(s) && Family(s) && s.current == 0 && s.blocked == []
    ensures s.pc == map[0 := InKernel, 1 := User, 2 := User, 3 := User, 4 := User]
    ensures s.rendez == map[DOOR := [], CLOCK := []] && Lines(s.queue, [0, 3, 4], [1])
  {
    hide Scheduler.Inv, Lines, Joined;
    s := RootForks({DOOR, CLOCK});
    assert s.rendez == map[DOOR := [], CLOCK := []];
    LinesJoined(s.queue, [0, 3], [1], s.prio[4 := 16], 4);
    assert [0, 3] + [4] == [0, 3, 4];
    s.Fork(4);
  }

  /** Root sleeps, which turns the queue it has left, and the timer process runs. */
  method TimerRuns() returns (s: Scheduler)
    ensures fresh(s) && Family(s) && !s.locked && s.blocked == [] && s.current == 1
    ensures s.pc == map[0 := InSleep, 1 := User, 2 := User, 3 := User, 4 := User]
    ensures s.rendez == map[DOOR := [0], CLOCK := []] && Lines(s.queue, [4, 3], [1])
  {
    hide Spin, Scheduler.Inv, MostUrgent, Lines, Chosen, Turned, Parted;
    s := RootForksTwice();
    Spins(3, 4, 0);
    assert [0, 3, 4][1..] == [3, 4];
    LinesStopped(s.queue, [0, 3, 4], [1], s.prio, s.policy, 0, 2, [4, 3], [1]);
    AloneOn(s.rendez, DOOR, 0);
    s.TaskSleep(DOOR);
    assert s.rendez == map[DOOR := [0], CLOCK := []];
    s.Freely();
  }

  /** The timer process enters the kernel for good and sleeps, and process 4 runs. */
  method ChildRuns() returns (s: Scheduler)
    ensures fresh(s) && Family(s) && !s.locked && s.blocked == [] && s.current == 4
    ensures s.pc == map[0 := InSleep, 1 := InSleep, 2 := User, 3 := User, 4 := User]
    ensures s.rendez == map[DOOR := [0], CLOCK := [1]] && Lines(s.queue, [4, 3], [])
  {
    hide Spin, Scheduler.Inv, MostUrgent, Lines, Chosen, Turned, Parted;
    s := TimerRuns();
    s.KernelLock();
    Spins(0, 0, 0);
    assert [1][1..] == [];
    LinesStopped(s.queue, [4, 3], [1], s.prio, s.policy, 1, 2, [4, 3], []);
    AloneOn(s.rendez, CLOCK, 1);
    s.TaskSleep(CLOCK);
    assert s.rendez == map[DOOR := [0], CLOCK := [1]];
    s.Freely();
  }

  /**
    Process 4 leaves the kernel, and the timer interrupt comes between its look for waiters and its
    freeing the lock: the timer process waits for a lock that nobody holds.
   */
  method StrandedRun() returns (s: Scheduler)
    ensures !s.Inv() && !s.locked && s.blocked == [1]
  {
    hide Spin, Scheduler.Inv, AfterWakes, Woken, MostUrgent, Lines, KeepsProcessor;
    s := ChildRuns();
    s.KernelLock();
    WokenOne(s.rendez, CLOCK);
    s.InterruptedUnlock([CLOCK]);
  }

  /**
    Process 4 wakes root and leaves the kernel. Root has the lock, but process 3 runs, in user mode,
    with root still where it was.
   */
  method EarlyReturnRun() returns (s: Scheduler)
    ensures s.Inv() && s.owner == Some(0) && s.current == 3
    ensures s.pc == map[0 := InSleep, 1 := InSleep, 2 := User, 3 := User, 4 := User]
  {
    hide Spin, Scheduler.Inv, MostUrgent, Lines, KeepsProcessor, RunsNext, Chosen, Turned, Joined;
    s := ChildRuns();
    s.KernelLock();
    s.TaskWakeup(DOOR);
    Spins(4, 3, 0);
    LinesPassed(s.queue, [4, 3], [], s.prio, s.policy, 0, 4, 2, [3, 0, 4], []);
    s.KernelUnlock();
  }

  /** Process 4 finds the lock free; the timer interrupt wakes the timer process, which takes the processor. */
  method TimerTakesOver() returns (s: Scheduler)
    ensures fresh(s) && Family(s) && s.owner == Some(1) && s.blocked == [] && s.current == 1
    ensures s.pc == map[0 := InSleep, 1 := InKernel, 2 := User, 3 := User, 4 := Testing]
    ensures s.rendez == map[DOOR := [0], CLOCK := []] && Lines(s.queue, [3, 4], [1])
  {
    hide Spin, Scheduler.Inv, AfterWakes, Woken, MostUrgent, Lines, KeepsProcessor, RunsNext, Chosen, Turned, Joined;
    s := ChildRuns();
    s.TestLock();
    WokenOne(s.rendez, CLOCK);
    Spins(4, 3, 0);
    assert [] + [1] == [1];
    LinesPassed(s.queue, [4, 3], [], s.prio, s.policy, 1, 4, 2, [3, 4], [1]);
    s.InterruptHandler([CLOCK]);
    assert s.rendez == map[DOOR := [0], CLOCK := []];
    s.Resume();
  }

  /** The timer process sleeps again, the lock is free, and process 3 runs. */
  method OtherChildRuns() returns (s: Scheduler)
    ensures fresh(s) && Family(s) && !s.locked && s.blocked == [] && s.current == 3
    ensures s.pc == map[0 := InSleep, 1 := InSleep, 2 := User, 3 := User, 4 := Testing]
    ensures DOOR in s.rendez && s.rendez[DOOR] == [0] && Lines(s.queue, [3, 4], [])
  {
    hide Spin, Scheduler.Inv, MostUrgent, Lines, Chosen, Turned, Parted;
    s := TimerTakesOver();
    Spins(0, 0, 0);
    assert [1][1..] == [];
    LinesStopped(s.queue, [3, 4], [1], s.prio, s.policy, 1, 2, [3, 4], []);
    s.TaskSleep(CLOCK);
    s.Freely();
  }

  /** Process 3 wakes root and leaves the kernel, which gives the lock to root and the processor to process 4. */
  method OtherChildLeaves() returns (s: Scheduler)
    ensures fresh(s) && s.Inv() && s.current == 4 && s.owner == Some(0)
    ensures s.pc == map[0 := InSleep, 1 := InSleep, 2 := User, 3 := User, 4 := Testing]
  {
    hide Spin, Scheduler.Inv, MostUrgent, Lines, KeepsProcessor, RunsNext, Chosen, Turned, Joined;
    s := OtherChildRuns();
    s.KernelLock();
    s.TaskWakeup(DOOR);
    Spins(3, 4, 0);
    LinesPassed(s.queue, [3, 4], [], s.prio, s.policy, 0, 3, 2, [4, 0, 3], []);
    s.KernelUnlock();
  }

  /** Process 4 writes the lock that it found free long ago, and is in the kernel together with root. */
  method DoubleEntryRun() returns (s: Scheduler)
    ensures !s.Inv() && s.current == 4 && TwoInside(s.state, s.pc, 4, 0)
  {
    hide Scheduler.Inv, TwoInside;
    s := OtherChildLeaves();
    s.Freely();
    s.TakeLock();
  }

  /** Root forks process 3 only and sleeps; the timer process sleeps too, and process 3 runs. */
  method OnlyChildRuns() returns (s: Scheduler)
    ensures fresh(s) && s.Inv() && s.idle == 2 && !s.locked && s.blocked == [] && s.current == 3
    ensures s.prio == map[0 := 16, 1 := 31, 2 := 0, 3 := 16] && AllRoundRobin(s.policy, {0, 1, 3})
    ensures s.pc == map[0 := InSleep, 1 := InSleep, 2 := User, 3 := User]
    ensures s.rendez == map[DOOR := [0], CLOCK := [1]] && Lines(s.queue, [3], [])
  {
    hide Spin, Scheduler.Inv, MostUrgent, Lines, Chosen, Turned, Parted;
    s := RootSleepsOverOne();
    s.KernelLock();
    Spins(0, 0, 0);
    assert [1][1..] == [];
    LinesStopped(s.queue, [3], [1], s.prio, s.policy, 1, 2, [3], []);
    AloneOn(s.rendez, CLOCK, 1);
    s.TaskSleep(CLOCK);
    assert s.rendez == map[DOOR := [0], CLOCK := [1]];
    s.Freely();
  }

  method RootSleepsOverOne() returns (s: Scheduler)
    ensures fresh(s) && s.Inv() && s.idle == 2 && !s.locked && s.blocked == [] && s.current == 1
    ensures s.prio == map[0 := 16, 1 := 31, 2 := 0, 3 := 16] && AllRoundRobin(s.policy, {0, 1, 3})
    ensures s.pc == map[0 := InSleep, 1 := User, 2 := User, 3 := User]
    ensures s.rendez == map[DOOR := [0], CLOCK := []] && Lines(s.queue, [3], [1])
  {
    hide Spin, Scheduler.Inv, MostUrgent, Lines, Chosen, Turned, Parted;
    s := RootForks({DOOR, CLOCK});
    Spins(3, 0, 0);
    assert [0, 3][1..] == [3];
    LinesStopped(s.queue, [0, 3], [1], s.prio, s.policy, 0, 2, [3], [1]);
    AloneOn(s.rendez, DOOR, 0);
    s.TaskSleep(DOOR);
    assert s.rendez == map[DOOR := [0], CLOCK := []];
    s.Freely();
  }

  /** Process 3 finds the lock free; the timer interrupt gives lock and processor to the timer process. */
  method ClockStrikes() returns (s: Scheduler)
    ensures fresh(s) && s.Inv() && s.idle == 2 && s.owner == Some(1) && s.blocked == [] && s.current == 1
    ensures s.prio == map[0 := 16, 1 := 31, 2 := 0, 3 := 16] && AllRoundRobin(s.policy, {0, 1, 3})
    ensures s.pc == map[0 := InSleep, 1 := InKernel, 2 := User, 3 := Testing]
    ensures s.rendez == map[DOOR := [0], CLOCK := []] && Lines(s.queue, [3], [1])
  {
    hide Spin, Scheduler.Inv, AfterWakes, Woken, MostUrgent, Lines, KeepsProcessor, RunsNext, Chosen, Turned, Joined;
    s := OnlyChildRuns();
    s.TestLock();
    WokenOne(s.rendez, CLOCK);
    Spins(3, 0, 0);
    assert [] + [1] == [1];
    LinesPassed(s.queue, [3], [], s.prio, s.policy, 1, 3, 2, [3], [1]);
    s.InterruptHandler([CLOCK]);
    assert s.rendez == map[DOOR := [0], CLOCK := []];
    s.Resume();
  }

  /** Root's time is up: the timer process wakes it and sleeps, which gives root the lock and process 3 the processor. */
  method TimeIsUp() returns (s: Scheduler)
    ensures fresh(s) && s.Inv() && s.current == 3 && s.owner == Some(0)
    ensures s.pc == map[0 := InSleep, 1 := InSleep, 2 := User, 3 := Testing]
  {
    hide Spin, Scheduler.Inv, MostUrgent, Lines, Chosen, Turned, Parted, Joined;
    s := ClockStrikes();
    s.InKernelHolds();
    s.TaskWakeup(DOOR);
    LinesJoined(s.queue, [3], [1], s.prio, 0);
    Spins(3, 0, 0);
    assert [3] + [0] == [3, 0] && [1][1..] == [];
    LinesStopped(Joined(s.queue, s.prio, 0), [3, 0], [1], s.prio, s.policy, 1, 2, [3, 0], []);
    s.TaskSleep(CLOCK);
  }

  /** Process 3 writes the lock that it found free, and is in the kernel together with root. */
  method SwitchedEntryRun() returns (s: Scheduler)
    ensures !s.Inv() && s.current == 3 && TwoInside(s.state, s.pc, 3, 0)
  {
    hide Scheduler.Inv, TwoInside;
    s := TimeIsUp();
    s.Freely();
    s.TakeLock();
  }
}
