/**
  The Big Kernel Lock as its users see it: free, or held by one process with the others queued
  behind it. Every way the kernel touches the lock is one of three events; the scheduler's lists
  and flags are proved elsewhere to follow this machine, so what is shown here of every sequence
  of events holds of every run of the kernel.
 */
module BigKernelLock {
  import opened Core

  datatype Bkl = Free | Held(owner: Pid, waiters: seq<Pid>)

  /** Lock: a process enters the kernel. Wake: a sleeper is queued for the lock. Release: the holder leaves or sleeps. */
  datatype Event = Lock(p: Pid) | Wake(p: Pid) | Release

  ghost predicate Enabled(b: Bkl, e: Event) {
    match e
    case Lock(p) => b.Held? ==> p != b.owner && p !in b.waiters
    case Wake(p) => b.Held? && p != b.owner && p !in b.waiters
    case Release => b.Held?
  }

  function Next(b: Bkl, e: Event): Bkl {
    match e
    case Release => if b.Free? || b.waiters == [] then Free else Held(b.waiters[0], b.waiters[1..])
    case _ => if b.Free? then Held(e.p, []) else Held(b.owner, b.waiters + [e.p])
  }

  ghost function Replay(b: Bkl, log: seq<Event>): Bkl {
    if log == [] then b else Next(Replay(b, log[..|log| - 1]), log[|log| - 1])
  }

  ghost predicate Legal(b: Bkl, log: seq<Event>) {
    log == [] || (Legal(b, log[..|log| - 1]) && Enabled(Replay(b, log[..|log| - 1]), log[|log| - 1]))
  }

  ghost function Releases(log: seq<Event>): nat {
    if log == [] then 0 else Releases(log[..|log| - 1]) + if log[|log| - 1].Release? then 1 else 0
  }

  lemma Extended(b: Bkl, log: seq<Event>, e: Event)
    requires Legal(b, log) && Enabled(Replay(b, log), e)
    ensures Legal(b, log + [e]) && Replay(b, log + [e]) == Next(Replay(b, log), e)
  {
    assert (log + [e])[..|log|] == log;
  }

  /** Nobody is queued twice, and the holder is not queued. */
  ghost predicate Distinct(b: Bkl) {
    b.Held? ==> b.owner !in b.waiters && forall i, j :: 0 <= i < j < |b.waiters| ==> b.waiters[i] != b.waiters[j]
  }

  lemma {:induction false} DistinctKept(b: Bkl, log: seq<Event>)
    requires Distinct(b) && Legal(b, log)
    ensures Distinct(Replay(b, log))
  {
    if log != [] {
      DistinctKept(b, log[..|log| - 1]);
    }
  }

  /** Until the (k+1)-th release the process queued at place k has only moved up by one place a release. */
  lemma {:induction false} Waits(b: Bkl, log: seq<Event>, k: nat)
    requires b.Held? && k < |b.waiters| && Distinct(b) && Legal(b, log) && Releases(log) <= k
    ensures var b' := Replay(b, log);
            && b'.Held? && b'.owner != b.waiters[k]
            && k - Releases(log) < |b'.waiters| && b'.waiters[k - Releases(log)] == b.waiters[k]
  {
    if log != [] {
      Waits(b, log[..|log| - 1], k);
      DistinctKept(b, log[..|log| - 1]);
    }
  }

  /** And at the (k+1)-th release it is the one that gets the lock. */
  lemma Granted(b: Bkl, log: seq<Event>, k: nat)
    requires b.Held? && k < |b.waiters| && Distinct(b) && Legal(b, log + [Release])
    requires Releases(log) == k
    ensures var b' := Replay(b, log + [Release]); b'.Held? && b'.owner == b.waiters[k]
  {
    assert (log + [Release])[..|log|] == log;
    Waits(b, log, k);
  }

  /** No barging: a process that asks for a lock with waiters is put behind all of them. */
  lemma NoBarging(b: Bkl, log: seq<Event>, p: Pid)
    requires b.Held? && Distinct(b) && Enabled(b, Lock(p)) && Legal(Next(b, Lock(p)), log)
    requires Replay(Next(b, Lock(p)), log).Held? && Replay(Next(b, Lock(p)), log).owner == p
    ensures Releases(log) > |b.waiters|
  {
    if Releases(log) <= |b.waiters| {
      Waits(Next(b, Lock(p)), log, |b.waiters|);
    }
  }

  /** The lock only changes hands by a release. */
  lemma {:induction false} OwnerKept(b: Bkl, log: seq<Event>)
    requires b.Held? && Legal(b, log) && Releases(log) == 0
    ensures Replay(b, log).Held? && Replay(b, log).owner == b.owner
  {
    if log != [] {
      OwnerKept(b, log[..|log| - 1]);
    }
  }

  lemma {:induction false} Split(b: Bkl, before: seq<Event>, after: seq<Event>)
    requires Legal(b, before + after)
    ensures Legal(b, before) && Legal(Replay(b, before), after)
    ensures Replay(b, before + after) == Replay(Replay(b, before), after)
  {
    if after == [] {
      assert before + after == before;
    } else {
      var short := after[..|after| - 1];
      assert (before + after)[..|before + after| - 1] == before + short;
      Split(b, before, short);
    }
  }
}
