/**
  The process table as a tree: fork adds a leaf, exit makes a zombie and gives its living children
  to the root process, waitpid reaps a zombie child.
 */
module ProcessTree {
  import opened Core
  import opened Lists

  /** The links of the table. `forked` are the processes made by fork; the others were made at boot. */
  datatype Tree = Tree(
    inUse: set<Pid>,
    zombie: set<Pid>,
    parent: map<Pid, Pid>,
    children: map<Pid, seq<Pid>>,
    forked: set<Pid>,
    rank: map<Pid, nat>,
    root: Pid)

  ghost predicate ListsOk(t: Tree) {
    && (forall p :: p in t.inUse ==> p in t.children && NoDup(t.children[p]))
    && (forall p, c :: p in t.inUse ==> (c in t.children[p] <==> c in t.forked && c in t.parent && t.parent[c] == p))
  }

  /** The parent of a forked process is in use and has not exited. */
  ghost predicate ParentsOk(t: Tree) {
    && (forall c :: c in t.inUse ==> (c in t.parent <==> c in t.forked))
    && (forall c :: c in t.forked ==> c in t.inUse && t.parent[c] in t.inUse && t.parent[c] !in t.zombie)
    && t.root in t.inUse && t.root !in t.forked && t.zombie <= t.forked
  }

  /** Parent links lead to processes of ever smaller rank, so there is no cycle. */
  ghost predicate RanksOk(t: Tree) {
    forall p :: p in t.inUse ==> p in t.rank && (if p in t.forked then p in t.parent && t.parent[p] in t.rank && t.rank[t.parent[p]] < t.rank[p] else t.rank[p] == 0)
  }

  ghost predicate TreeOk(t: Tree) {
    ParentsOk(t) && ListsOk(t) && RanksOk(t)
  }

  /** The n-th ancestor, while there is one. */
  ghost function Ancestor(t: Tree, p: Pid, n: nat): Option<Pid> {
    if n == 0 then Some(p)
    else
      var a := Ancestor(t, p, n - 1);
      if a.Some? && a.value in t.forked && a.value in t.parent then Some(t.parent[a.value]) else None
  }

  /** No process is its own ancestor. */
  lemma {:induction false} Acyclic(t: Tree, p: Pid, n: nat)
    requires TreeOk(t) && p in t.inUse && n > 0
    ensures Ancestor(t, p, n) != Some(p)
  {
    RankFalls(t, p, n);
  }

  lemma {:induction false} RankFalls(t: Tree, p: Pid, n: nat)
    requires TreeOk(t) && p in t.inUse
    ensures var a := Ancestor(t, p, n); a.Some? ==> a.value in t.inUse && t.rank[a.value] + n <= t.rank[p]
  {
    if n > 0 {
      RankFalls(t, p, n - 1);
    }
  }

  /** Every zombie is listed, once, by a living parent. */
  lemma ZombieReapable(t: Tree, z: Pid)
    requires TreeOk(t) && z in t.zombie
    ensures z in t.parent && t.parent[z] in t.inUse && t.parent[z] !in t.zombie && t.parent[z] in t.children
    ensures multiset(t.children[t.parent[z]])[z] == 1
    ensures forall p :: p in t.inUse && p != t.parent[z] ==> z !in t.children[p]
  {
    Once(t.children[t.parent[z]], z);
  }

  // ---------------------------------------------------------------------

  ghost function Born(t: Tree, p: Pid, c: Pid): Tree
    requires p in t.children && p in t.rank
  {
    t.(inUse := t.inUse + {c}, parent := t.parent[c := p], children := t.children[c := []][p := t.children[p] + [c]],
       forked := t.forked + {c}, rank := t.rank[c := t.rank[p] + 1])
  }

  lemma BornOk(t: Tree, p: Pid, c: Pid)
    requires TreeOk(t) && p in t.inUse && p !in t.zombie && c !in t.inUse
    ensures TreeOk(Born(t, p, c))
  {
    hide NoDup;
    TailOk(t.children[p], c);
    NoDupEmpty();
  }

  /** The first child of `p` is dead and freed. */
  ghost function Buried(t: Tree, p: Pid, c: Pid): Tree
    requires p in t.children
  {
    t.(inUse := t.inUse - {c}, zombie := t.zombie - {c}, forked := t.forked - {c}, children := t.children[p := Without(t.children[p], c)])
  }

  lemma BuriedOk(t: Tree, p: Pid, c: Pid)
    requires TreeOk(t) && p in t.inUse && c in t.zombie && t.parent[c] == p
    ensures TreeOk(Buried(t, p, c))
  {
    hide NoDup, Without;
    WithoutOk(t.children[p], c);
  }

  /** A living child of `p` goes to the root process. */
  ghost function Adopted(t: Tree, p: Pid, c: Pid): Tree
    requires p in t.children && t.root in t.children
  {
    t.(parent := t.parent[c := t.root],
       children := t.children[p := Without(t.children[p], c)][t.root := t.children[t.root] + [c]])
  }

  lemma AdoptedOk(t: Tree, p: Pid, c: Pid)
    requires TreeOk(t) && p in t.inUse && p != t.root && c in t.forked && t.parent[c] == p
    ensures TreeOk(Adopted(t, p, c))
  {
    hide NoDup, Without;
    WithoutOk(t.children[p], c);
    TailOk(t.children[t.root], c);
    assert RanksOk(Adopted(t, p, c)) by { hide ListsOk; }
    assert ParentsOk(Adopted(t, p, c)) by { hide ListsOk, RanksOk; }
    assert ListsOk(Adopted(t, p, c)) by { hide RanksOk; }
  }

  lemma DiedOk(t: Tree, p: Pid)
    requires TreeOk(t) && p in t.forked && t.children[p] == []
    ensures TreeOk(t.(zombie := t.zombie + {p}))
  {
    hide NoDup;
  }

  // ---------------------------------------------------------------------

  /** The group test of a sys_waitpid(pid) that does not name one child: the caller's group, any, or a given one. */
  predicate InGroup(p: Pid, pid: int, c: Pid, pgrp: map<Pid, int>) {
    if pid == 0 then c in pgrp && p in pgrp && pgrp[c] == pgrp[p]
    else pid == -1 || (c in pgrp && pgrp[c] == -pid)
  }

  /**
    The children of `p` that sys_waitpid(pid) is about: all of them for -1, those of the group of `p`
    for 0, those of group `n` for another -n, and the one named otherwise.
   */
  ghost predicate Wanted(p: Pid, pid: int, c: Pid, parent: map<Pid, Pid>, pgrp: map<Pid, int>) {
    && c in parent && parent[c] == p
    && (pid > 0 ==> c == pid)
    && (pid == 0 ==> c in pgrp && p in pgrp && pgrp[c] == pgrp[p])
    && (pid < -1 ==> c in pgrp && pgrp[c] == -pid)
  }

  /** No child can ever answer: a number out of range, or no such child; root may always wait for any child. */
  ghost predicate Hopeless(t: Tree, pgrp: map<Pid, int>, max: nat, p: Pid, pid: int) {
    || pid >= max || -pid >= max
    || (!(pid == -1 && p == t.root) && forall c :: c in t.forked ==> !Wanted(p, pid, c, t.parent, pgrp))
  }

  ghost predicate FirstAt(t: Tree, pgrp: map<Pid, int>, p: Pid, pid: int, c: Pid, i: nat) {
    && p in t.children && i < |t.children[p]| && t.children[p][i] == c
    && forall k :: 0 <= k < i ==> t.children[p][k] !in t.zombie || !Wanted(p, pid, t.children[p][k], t.parent, pgrp)
  }

  /** `c` comes before any other dead child that would have done. */
  ghost predicate FirstWanted(t: Tree, pgrp: map<Pid, int>, p: Pid, pid: int, c: Pid) {
    exists i :: FirstAt(t, pgrp, p, pid, c, i)
  }

  lemma NamedFirst(t: Tree, pgrp: map<Pid, int>, p: Pid, pid: nat)
    requires TreeOk(t) && pid > 0 && pid in t.forked && pid in t.parent && t.parent[pid] == p
    ensures FirstWanted(t, pgrp, p, pid, pid)
  {
    InList(t, p, pid);
    var i :| 0 <= i < |t.children[p]| && t.children[p][i] == pid;
    assert FirstAt(t, pgrp, p, pid, pid, i);
  }

  datatype Waited = Reaped(c: Pid, status: int) | Failed(err: Errno) | MustSleep

  /** A process asleep in sys_waitpid is not waiting for a child that is dead already. */
  ghost predicate SleepersOk(t: Tree, pgrp: map<Pid, int>, sleeping: map<Pid, int>) {
    && (forall p :: p in sleeping ==> p in t.inUse && p !in t.zombie)
    && (forall p, z :: p in sleeping && z in t.zombie ==> !Wanted(p, sleeping[p], z, t.parent, pgrp))
  }

  // ---------------------------------------------------------------------
  // What the calls do to the table.

  datatype Table = Table(t: Tree, pgrp: map<Pid, int>, status: map<Pid, int>, sleeping: map<Pid, int>)

  ghost predicate ForkSpec(k: Table, max: nat, p: Pid, room: bool, r: Result<Pid>, k': Table) {
    && (r.Ok? <==> room && exists c :: 0 <= c < max && c !in k.t.inUse)
    && (r.Err? ==> r.error == ENOMEM && k' == k)
    && (r.Ok? ==> r.value !in k.t.inUse && (forall c :: 0 <= c < r.value ==> c in k.t.inUse)
                  && p in k.t.children && p in k.t.rank
                  && k' == k.(t := Born(k.t, p, r.value), pgrp := k.pgrp[r.value := 0]))
  }

  /** Those of a list that have not exited, in order. */
  ghost function Living(l: seq<Pid>, zombie: set<Pid>): seq<Pid> {
    if l == [] then []
    else Living(l[..|l| - 1], zombie) + if l[|l| - 1] in zombie then [] else [l[|l| - 1]]
  }

  /** The lists after the children of `p` that live have joined those of root. */
  ghost function Bequeathed(children: map<Pid, seq<Pid>>, p: Pid, root: Pid, zombie: set<Pid>): map<Pid, seq<Pid>>
    requires p in children && root in children
  {
    children[p := []][root := children[root] + Living(children[p], zombie)]
  }

  ghost predicate ExitSpec(k: Table, p: Pid, st: int, woken: Pid, freed: set<Pid>, k': Table) {
    && p in k.t.parent && p in k.t.children && k.t.root in k.t.children && woken == k.t.parent[p]
    && freed == (set c | c in k.t.zombie && c in k.t.parent && k.t.parent[c] == p)
    && k' == k.(t := k'.t, status := k.status[p := st], sleeping := k.sleeping - {woken})
    && k'.t == k.t.(inUse := k.t.inUse - freed, zombie := k.t.zombie - freed + {p}, forked := k.t.forked - freed,
                    parent := k'.t.parent, children := Bequeathed(k.t.children, p, k.t.root, k.t.zombie))
    && forall c :: c in k'.t.forked ==>
         && c in k.t.parent && c in k'.t.parent
         && k'.t.parent[c] == if k.t.parent[c] == p then k.t.root else k.t.parent[c]
  }

  /** A dead child that would do. */
  ghost predicate Ready(k: Table, p: Pid, pid: int) {
    exists c :: c in k.t.zombie && Wanted(p, pid, c, k.t.parent, k.pgrp)
  }

  ghost predicate WaitSpec(k: Table, max: nat, p: Pid, pid: int, noHang: bool, fault: bool, w: Waited, k': Table) {
    && (w == Failed(EINVAL) <==> Hopeless(k.t, k.pgrp, max, p, pid))
    && (w == Failed(EAGAIN) <==> !Hopeless(k.t, k.pgrp, max, p, pid) && !Ready(k, p, pid) && noHang)
    && (w == MustSleep <==> !Hopeless(k.t, k.pgrp, max, p, pid) && !Ready(k, p, pid) && !noHang)
    && (w == Failed(EFAULT) <==> !Hopeless(k.t, k.pgrp, max, p, pid) && Ready(k, p, pid) && fault)
    && (w.Failed? ==> w.err in {EINVAL, EAGAIN, EFAULT} && k' == k)
    && (w.MustSleep? ==> k' == k.(sleeping := k.sleeping[p := pid]))
    && (w.Reaped? ==>
          && w.c in k.t.zombie && Wanted(p, pid, w.c, k.t.parent, k.pgrp) && FirstWanted(k.t, k.pgrp, p, pid, w.c)
          && w.c in k.status && w.status == k.status[w.c] && p in k.t.children
          && k' == k.(t := Buried(k.t, p, w.c)))
  }

  datatype TreeStep =
    | DoFork(p: Pid, room: bool) | DoExit(p: Pid, st: int)
    | DoWait(p: Pid, pid: int, noHang: bool, fault: bool) | DoWake(p: Pid)

  /** What came of a step. */
  datatype Event = Skipped | Forks(r: Result<Pid>) | Exits(woken: Pid, freed: set<Pid>) | Waits(w: Waited) | Wakes

  /** The process is there to take the step; the root process does not exit. */
  ghost predicate Able(k: Table, a: TreeStep) {
    match a
    case DoFork(p, _) => p in k.t.inUse && p !in k.t.zombie && p !in k.sleeping
    case DoExit(p, _) => p in k.t.forked && p !in k.t.zombie && p !in k.sleeping
    case DoWait(p, _, _, _) => p in k.t.inUse && p !in k.t.zombie && p !in k.sleeping
    case DoWake(p) => p in k.sleeping
  }

  ghost predicate Explained(k: Table, max: nat, a: TreeStep, e: Event, k': Table) {
    if !Able(k, a) then e == Skipped && k' == k
    else match a
      case DoFork(p, room) => e.Forks? && ForkSpec(k, max, p, room, e.r, k')
      case DoExit(p, st) => e.Exits? && ExitSpec(k, p, st, e.woken, e.freed, k')
      case DoWait(p, pid, noHang, fault) => e.Waits? && WaitSpec(k, max, p, pid, noHang, fault, e.w, k')
      case DoWake(p) => e == Wakes && k' == k.(sleeping := k.sleeping - {p})
  }

  /** The status of the last exit of each process, starting from `base`, told from the steps and what came of them. */
  ghost function LastExits(base: map<Pid, int>, steps: seq<TreeStep>, es: seq<Event>): map<Pid, int>
    requires |steps| == |es|
  {
    if steps == [] then base
    else
      var n := |steps| - 1;
      var before := LastExits(base, steps[..n], es[..n]);
      if steps[n].DoExit? && es[n].Exits? then before[steps[n].p := steps[n].st] else before
  }

  /** A process that is reaped answers with the status of its last exit. */
  ghost predicate Told(base: map<Pid, int>, steps: seq<TreeStep>, es: seq<Event>, i: nat)
    requires i < |es| <= |steps|
  {
    es[i].Waits? && es[i].w.Reaped? ==>
      var st := LastExits(base, steps[..i], es[..i]);
      es[i].w.c in st && es[i].w.status == st[es[i].w.c]
  }

  class ProcessTable {
    var inUse: set<Pid>
    var zombie: set<Pid>
    var parent: map<Pid, Pid>
    var children: map<Pid, seq<Pid>>
    var pgrp: map<Pid, int>
    var status: map<Pid, int>
    var sleeping: map<Pid, int>
    const root: Pid
    const max: nat
    ghost var forked: set<Pid>
    ghost var rank: map<Pid, nat>

    ghost function Links(): Tree
      reads `inUse, `zombie, `parent, `children, `forked, `rank
    {
      Tree(inUse, zombie, parent, children, forked, rank, root)
    }

    ghost function Now(): Table
      reads `inUse, `zombie, `parent, `children, `forked, `rank, `pgrp, `status, `sleeping
    {
      Table(Links(), pgrp, status, sleeping)
    }

    ghost predicate Linked()
      reads `inUse, `zombie, `parent, `children, `forked, `rank, `pgrp, `status
    {
      && TreeOk(Links())
      && (forall p :: p in inUse ==> p < max && p in pgrp) && zombie <= status.Keys
    }

    ghost predicate Valid()
      reads this
    {
      Linked() && SleepersOk(Links(), pgrp, sleeping)
    }

    constructor (root: Pid, others: set<Pid>, max: nat)
      requires root < max && forall p :: p in others ==> p < max
      ensures Valid() && inUse == {root} + others && this.root == root
      ensures this.max == max && forked == {} && sleeping == map[]
    {
      inUse, zombie, parent, status, sleeping := {root} + others, {}, map[], map[], map[];
      children := map p | p in {root} + others :: [];
      pgrp := map p | p in {root} + others :: 0;
      this.root, this.max, forked := root, max, {};
      rank := map p | p in {root} + others :: 0;
    }

    /** The lowest process number that is not in use. */
    method AllocProcess() returns (r: Option<Pid>)
      ensures r.Some? ==> r.value < max && r.value !in inUse && forall p :: 0 <= p < r.value ==> p in inUse
      ensures r.None? ==> forall p :: 0 <= p < max ==> p in inUse
    {
      var p := 0;
      while p < max && p in inUse
        invariant 0 <= p <= max && forall k :: 0 <= k < p ==> k in inUse
      {
        p := p + 1;
      }
      return if p == max then None else Some(p);
    }

    /** A child of `p`, if there is room in the table and `room` for its context and address space. */
    method Fork(p: Pid, room: bool) returns (r: Result<Pid>)
      requires Valid() && p in inUse && p !in zombie && p !in sleeping
      modifies this
      ensures Valid()
      ensures ForkSpec(old(Now()), max, p, room, r, Now())
    {
      hide TreeOk, Born;
      Listed(Links(), p);
      var c := AllocProcess();
      if c.None? || !room {
        return Err(ENOMEM);
      }
      BornOk(Links(), p, c.value);
      SleepersBorn(Links(), pgrp, sleeping, p, c.value);
      AddChild(p, c.value);
      pgrp := pgrp[c.value := 0];
      return Ok(c.value);
    }

    method AddChild(p: Pid, c: Pid)
      requires p in children && p in rank
      modifies `inUse, `parent, `children, `forked, `rank
      ensures Links() == Born(old(Links()), p, c) && inUse == old(inUse) + {c}
    {
      inUse := inUse + {c};
      parent := parent[c := p];
      rank := rank[c := rank[p] + 1];
      children := children[c := []][p := children[p] + [c]];
      forked := forked + {c};
    }

    /** Process `p` exits. Its zombies are freed, its living children go to root, and its parent is the one to wake. */
    method Exit(p: Pid, st: int) returns (woken: Pid, freed: set<Pid>)
      requires Valid() && p in forked && p !in zombie && p !in sleeping
      modifies this
      ensures Valid() && ExitSpec(old(Now()), p, st, woken, freed, Now())
      ensures woken in inUse && woken !in zombie
    {
      hide TreeOk, Buried, Adopted, Without, SleepersOk, Bequeathed;
      ChildKnown(Links(), p);
      ghost var was := Links();
      freed := GiveAwayChildren(p);
      DiedOk(Links(), p);
      zombie := zombie + {p};
      status := status[p := st];
      woken := parent[p];
      ParentLives(Links(), p);
      SleepersExit(was, Links(), pgrp, sleeping, p, freed);
      sleeping := sleeping - {woken};
    }

    method GiveAwayChildren(p: Pid) returns (freed: set<Pid>)
      requires Linked() && p in forked && p !in zombie && p in inUse && p in children && p in parent && p != root
      modifies `inUse, `zombie, `parent, `children, `forked
      ensures Linked() && p in forked && p in children && children[p] == [] && p in parent && parent[p] == old(parent)[p]
      ensures freed == (set c | c in old(zombie) && c in old(parent) && old(parent)[c] == p) && inUse == old(inUse) - freed
      ensures zombie == old(zombie) - freed && forked == old(forked) - freed && p !in zombie
      ensures root in old(children) && children == Bequeathed(old(children), p, root, old(zombie))
      ensures forall c :: c in forked ==> c in old(parent) && c in parent && parent[c] == if old(parent)[c] == p then root else old(parent)[c]
    {
      hide TreeOk, Buried, Adopted, Without, Handed, Bequeathed;
      freed := {};
      ghost var was := Links();
      AllKnown(was, p);
      Listed(was, p);
      ghost var n := 0;
      HandedNone(was.children, p, root, zombie);
      while children[p] != []
        invariant Linked() && p in children && p in parent && parent[p] == was.parent[p]
        invariant p in forked && p in inUse && p !in zombie
        invariant GivenAway(was, Links(), p, freed)
        invariant Handed(was.children, p, root, was.zombie, n, children)
        decreases |children[p]|
      {
        FirstChild(Links(), p);
        var c := children[p][0];
        assert c in zombie <==> c in was.zombie;
        HandedNext(was.children, p, root, was.zombie, n, children);
        n := n + 1;
        GivenNext(was, Links(), p, freed, c);
        if c in zombie {
          BuriedOk(Links(), p, c);
          Bury(p, c);
          freed := freed + {c};
        } else {
          AdoptedOk(Links(), p, c);
          Adopt(p, c);
        }
      }
      GivenAll(was, Links(), p, freed);
      HandedAll(was.children, p, root, was.zombie, n, children);
    }

    /** One look of waitpid at the children of `p`; `fault` says that a status is asked for and cannot be copied out. */
    method Waitpid(p: Pid, pid: int, noHang: bool, fault: bool) returns (w: Waited)
      requires Valid() && p in inUse && p !in zombie && p !in sleeping
      modifies `inUse, `zombie, `forked, `children, `sleeping
      ensures Valid() && WaitSpec(old(Now()), max, p, pid, noHang, fault, w, Now())
    {
      hide TreeOk, Buried, Without;
      Listed(Links(), p);
      if -pid >= max || pid >= max {
        return Failed(EINVAL);
      }
      var found, some := Look(p, pid);
      if !some && !(pid == -1 && p == root) {
        return Failed(EINVAL);
      }
      if found.None? {
        if noHang {
          return Failed(EAGAIN);
        }
        sleeping := sleeping[p := pid];
        return MustSleep;
      }
      if fault {
        return Failed(EFAULT);
      }
      var c := found.value;
      BuriedOk(Links(), p, c);
      SleepersBuried(Links(), pgrp, sleeping, p, c);
      w := Reaped(c, status[c]);
      Reap(p, c);
    }

    method Look(p: Pid, pid: int) returns (found: Option<Pid>, some: bool)
      requires Linked() && p in inUse && p in children
      ensures some <==> exists c :: c in forked && Wanted(p, pid, c, parent, pgrp)
      ensures found.Some? ==> found.value in zombie && Wanted(p, pid, found.value, parent, pgrp)
      ensures found.Some? ==> FirstWanted(Links(), pgrp, p, pid, found.value)
      ensures found.None? ==> forall c :: c in zombie ==> !Wanted(p, pid, c, parent, pgrp)
    {
      hide TreeOk, Wanted;
      WantedChild(p, pid);
      if pid > 0 {
        some := pid in inUse && pid in parent && parent[pid] == p;
        found := if some && pid in zombie then Some(pid) else None;
        WantedOne(p, pid);
        if found.Some? { NamedFirst(Links(), pgrp, p, pid); }
        return;
      }
      found, some := None, false;
      var list := children[p];
      for i := 0 to |list|
        invariant found.None?
        invariant some <==> exists k :: 0 <= k < i && Wanted(p, pid, list[k], parent, pgrp)
        invariant forall k :: 0 <= k < i && list[k] in zombie ==> !Wanted(p, pid, list[k], parent, pgrp)
      {
        assert list[i] in list;
        if InGroup(p, pid, list[i], pgrp) {
          some := true;
          if list[i] in zombie {
            found := Some(list[i]);
            assert FirstAt(Links(), pgrp, p, pid, list[i], i);
            return;
          }
        }
      }
      forall c | c in forked && Wanted(p, pid, c, parent, pgrp)
        ensures some && c !in zombie {
        assert c in list;
      }
      if some {
        ghost var k :| 0 <= k < |list| && Wanted(p, pid, list[k], parent, pgrp);
        assert list[k] in list;
      }
    }

    lemma WantedChild(p: Pid, pid: int)
      requires Linked() && p in inUse && p in children
      ensures forall c :: c in forked && Wanted(p, pid, c, parent, pgrp) ==> c in children[p]
      ensures forall c :: c in children[p] ==> c in forked && (pid <= 0 ==> (Wanted(p, pid, c, parent, pgrp) <==> InGroup(p, pid, c, pgrp)))
      ensures zombie <= forked <= inUse
    {
    }

    lemma WantedOne(p: Pid, pid: int)
      requires Linked() && p in inUse && pid > 0
      ensures forall c :: Wanted(p, pid, c, parent, pgrp) <==> c == pid && c in parent && parent[c] == p
      ensures pid in inUse && pid in parent ==> pid in forked
    {
    }

    method Reap(p: Pid, c: Pid)
      requires p in children
      modifies `inUse, `zombie, `forked, `children
      ensures Links() == Buried(old(Links()), p, c)
      ensures inUse == old(inUse) - {c} && zombie == old(zombie) - {c}
    {
      hide Without;
      children := children[p := Without(children[p], c)];
      inUse, zombie, forked := inUse - {c}, zombie - {c}, forked - {c};
    }

    /** One step, taken exactly if there is a process to take it. */
    method Do(a: TreeStep) returns (e: Event)
      requires Valid()
      modifies this
      ensures Valid() && Explained(old(Now()), max, a, e, Now())
    {
      hide TreeOk, ForkSpec, ExitSpec, WaitSpec, SleepersOk;
      e := Skipped;
      match a
      case DoFork(p, room) =>
        if p in inUse && p !in zombie && p !in sleeping {
          var r := Fork(p, room);
          e := Forks(r);
        }
      case DoExit(p, st) =>
        WasForked(Links(), p);
        if p in inUse && p !in zombie && p in parent && p !in sleeping {
          var woken, freed := Exit(p, st);
          e := Exits(woken, freed);
        }
      case DoWait(p, pid, noHang, fault) =>
        if p in inUse && p !in zombie && p !in sleeping {
          var w := Waitpid(p, pid, noHang, fault);
          e := Waits(w);
        }
      case DoWake(p) =>
        if p in sleeping {
          FewerSleepers(Links(), pgrp, sleeping, p);
          sleeping := sleeping - {p};
          e := Wakes;
        }
    }

    /**
      Every run: each step that can be taken is, with what must come of it; each zombie can be reaped by a
      living parent; a process that is reaped answers with the status of its last exit; and nobody sleeps
      who waits for a child that is dead.
     */
    method Run(steps: seq<TreeStep>) returns (es: seq<Event>, ghost ks: seq<Table>)
      requires Valid()
      modifies this
      ensures Valid() && |es| == |steps| && |ks| == |steps| + 1 && ks[0] == old(Now()) && ks[|steps|] == Now()
      ensures forall i :: 0 <= i < |steps| ==> Explained(ks[i], max, steps[i], es[i], ks[i + 1])
      ensures forall i :: 0 <= i < |steps| ==> Told(old(status), steps, es, i)
      ensures forall z :: z in zombie ==> z in parent && parent[z] in inUse && parent[z] !in zombie && parent[z] in children && z in children[parent[z]]
      ensures forall p, z :: p in sleeping && z in zombie ==> !Wanted(p, sleeping[p], z, parent, pgrp)
    {
      hide TreeOk, Explained, LastExits, Told;
      es, ks := [], [Now()];
      ghost var base := status;
      assert LastExits(base, steps[..0], es) == base by { NoExits(base, steps[..0], es); }
      while |es| < |steps|
        invariant Valid() && |es| <= |steps| && |ks| == |es| + 1 && ks[0] == old(Now()) && ks[|es|] == Now()
        invariant status == LastExits(base, steps[..|es|], es)
        invariant forall i :: 0 <= i < |es| ==> Explained(ks[i], max, steps[i], es[i], ks[i + 1])
        invariant forall i :: 0 <= i < |es| ==> Told(base, steps, es, i)
      {
        ghost var k := Now();
        var e := Do(steps[|es|]);
        OneMore(base, steps, es, k, max, e, Now());
        es, ks := es + [e], ks + [Now()];
      }
      forall z | z in zombie ensures z in parent && parent[z] in inUse && parent[z] !in zombie && parent[z] in children && z in children[parent[z]] {
        ZombieReapable(Links(), z);
      }
    }

    method Bury(p: Pid, c: Pid)
      requires p in children && children[p] != [] && children[p][0] == c
      modifies `inUse, `zombie, `forked, `children
      ensures Links() == Buried(old(Links()), p, c) && children == old(children)[p := old(children)[p][1..]]
      ensures inUse == old(inUse) - {c} && zombie == old(zombie) - {c} && forked == old(forked) - {c}
    {
      hide Without;
      WithoutHead(children[p]);
      children := children[p := children[p][1..]];
      inUse, zombie, forked := inUse - {c}, zombie - {c}, forked - {c};
    }

    method Adopt(p: Pid, c: Pid)
      requires p in children && children[p] != [] && children[p][0] == c && root in children && p != root
      modifies `parent, `children
      ensures Links() == Adopted(old(Links()), p, c) && p in children && children[p] == old(children)[p][1..]
      ensures parent == old(parent)[c := root]
      ensures var next := old(children)[p := old(children)[p][1..]]; children == next[root := next[root] + [c]]
    {
      hide Without;
      WithoutHead(children[p]);
      children := children[p := children[p][1..]];
      children := children[root := children[root] + [c]];
      parent := parent[c := root];
    }
  }

  /** On the way: zombies in `freed` are gone, and each other child of `p` is still its child or root's. */
  ghost predicate GivenAway(was: Tree, t: Tree, p: Pid, freed: set<Pid>) {
    && t.root == was.root && t.rank == was.rank
    && (forall c :: c in freed ==> c in was.zombie && c in was.parent && was.parent[c] == p)
    && t.inUse == was.inUse - freed && t.zombie == was.zombie - freed && t.forked == was.forked - freed
    && (forall c :: c in t.forked ==> c in was.parent && c in t.parent)
    && (forall c :: c in t.forked ==> t.parent[c] == was.parent[c] || (was.parent[c] == p && t.parent[c] == t.root && c !in t.zombie))
  }

  /** The first `n` children of `p` are dealt with. */
  ghost predicate Handed(was: map<Pid, seq<Pid>>, p: Pid, root: Pid, zombie: set<Pid>, n: nat, now: map<Pid, seq<Pid>>) {
    && p in was && root in was && p != root && n <= |was[p]|
    && now == was[p := was[p][n..]][root := was[root] + Living(was[p][..n], zombie)]
  }

  lemma HandedNone(was: map<Pid, seq<Pid>>, p: Pid, root: Pid, zombie: set<Pid>)
    requires p in was && root in was && p != root
    ensures Handed(was, p, root, zombie, 0, was)
  {
    assert was[p][0..] == was[p] && was[root] + Living(was[p][..0], zombie) == was[root];
  }

  lemma HandedNext(was: map<Pid, seq<Pid>>, p: Pid, root: Pid, zombie: set<Pid>, n: nat, now: map<Pid, seq<Pid>>)
    requires Handed(was, p, root, zombie, n, now) && now[p] != []
    ensures var c, next := now[p][0], now[p := now[p][1..]];
            Handed(was, p, root, zombie, n + 1, if c in zombie then next else next[root := next[root] + [c]])
  {
    var l := was[p];
    assert l[n..][1..] == l[n + 1..] && l[n..][0] == l[n];
    assert l[..n + 1][..n] == l[..n];
    assert was[root] + (Living(l[..n], zombie) + [l[n]]) == was[root] + Living(l[..n], zombie) + [l[n]];
    assert Living(l[..n], zombie) + [] == Living(l[..n], zombie);
  }

  lemma HandedAll(was: map<Pid, seq<Pid>>, p: Pid, root: Pid, zombie: set<Pid>, n: nat, now: map<Pid, seq<Pid>>)
    requires Handed(was, p, root, zombie, n, now) && now[p] == []
    ensures now == Bequeathed(was, p, root, zombie)
  {
    assert was[p][..n] == was[p];
  }

  lemma NoExits(base: map<Pid, int>, steps: seq<TreeStep>, es: seq<Event>)
    requires steps == [] && es == []
    ensures LastExits(base, steps, es) == base
  {
  }

  /** One more step: the statuses kept are those of the last exits, and so is the one that is told. */
  lemma OneMore(base: map<Pid, int>, steps: seq<TreeStep>, es: seq<Event>, k: Table, max: nat, e: Event, k': Table)
    requires |es| < |steps| && Explained(k, max, steps[|es|], e, k') && k.status == LastExits(base, steps[..|es|], es)
    ensures k'.status == LastExits(base, steps[..|es| + 1], es + [e]) && Told(base, steps, es + [e], |es|)
    ensures forall i :: 0 <= i < |es| ==> (Told(base, steps, es + [e], i) <==> Told(base, steps, es, i))
  {
    hide Hopeless, Wanted, FirstWanted, Ready;
    var n, more := |es|, es + [e];
    assert steps[..n + 1][..n] == steps[..n] && more[..n] == es;
    assert LastExits(base, steps[..n + 1], more) ==
           if steps[n].DoExit? && e.Exits? then k.status[steps[n].p := steps[n].st] else k.status;
    forall i | 0 <= i < n ensures Told(base, steps, more, i) <==> Told(base, steps, es, i) {
      assert more[..i] == es[..i];
    }
  }

  lemma FewerSleepers(t: Tree, pgrp: map<Pid, int>, sleeping: map<Pid, int>, p: Pid)
    requires SleepersOk(t, pgrp, sleeping)
    ensures SleepersOk(t, pgrp, sleeping - {p})
  {
  }

  lemma Listed(t: Tree, p: Pid)
    requires TreeOk(t) && p in t.inUse
    ensures p in t.children && p in t.rank && t.root in t.children
  {
  }

  lemma ChildKnown(t: Tree, p: Pid)
    requires TreeOk(t) && p in t.forked
    ensures p in t.inUse && p in t.parent && p != t.root && p in t.children
  {
  }

  lemma SleepersBorn(t: Tree, pgrp: map<Pid, int>, sleeping: map<Pid, int>, p: Pid, c: Pid)
    requires TreeOk(t) && SleepersOk(t, pgrp, sleeping) && p in t.children && p in t.rank && c !in t.inUse
    ensures SleepersOk(Born(t, p, c), pgrp[c := 0], sleeping)
  {
  }

  lemma SleepersBuried(t: Tree, pgrp: map<Pid, int>, sleeping: map<Pid, int>, p: Pid, c: Pid)
    requires SleepersOk(t, pgrp, sleeping) && p in t.children && c in t.zombie
    ensures SleepersOk(Buried(t, p, c), pgrp, sleeping)
  {
    hide Without;
  }

  lemma SleepersExit(was: Tree, t: Tree, pgrp: map<Pid, int>, sleeping: map<Pid, int>, p: Pid, freed: set<Pid>)
    requires TreeOk(was) && SleepersOk(was, pgrp, sleeping) && p in was.forked && p !in sleeping && p in t.parent
    requires freed == set c | c in was.zombie && c in was.parent && was.parent[c] == p
    requires t.inUse == was.inUse - freed && t.zombie == was.zombie - freed + {p} && t.forked == was.forked - freed
    requires forall c :: c in t.forked ==> c in was.parent && c in t.parent && t.parent[c] == if was.parent[c] == p then t.root else was.parent[c]
    ensures SleepersOk(t, pgrp, sleeping - {t.parent[p]})
  {
    hide ListsOk, RanksOk;
  }

  lemma WasForked(t: Tree, p: Pid)
    requires TreeOk(t)
    ensures p in t.inUse && p in t.parent <==> p in t.forked
  {
  }

  lemma AllKnown(t: Tree, p: Pid)
    requires TreeOk(t)
    ensures GivenAway(t, t, p, {})
  {
  }

  lemma ParentLives(t: Tree, p: Pid)
    requires TreeOk(t) && p in t.forked
    ensures p in t.parent && t.parent[p] in t.inUse && t.parent[p] !in t.zombie
  {
  }

  lemma FirstChild(t: Tree, p: Pid)
    requires TreeOk(t) && p in t.inUse && t.children[p] != []
    ensures t.children[p][0] in t.forked && t.children[p][0] in t.parent && t.parent[t.children[p][0]] == p
    ensures t.root in t.children && t.children[p][0] in t.inUse && t.children[p][0] != p && t.children[p][0] != t.root
  {
    assert t.children[p][0] in t.children[p];
  }

  lemma GivenNext(was: Tree, t: Tree, p: Pid, freed: set<Pid>, c: Pid)
    requires TreeOk(t) && GivenAway(was, t, p, freed) && c in t.forked && c in t.parent && t.parent[c] == p && p != t.root
    requires p in t.children && t.root in t.children
    ensures c in t.zombie ==> GivenAway(was, Buried(t, p, c), p, freed + {c})
    ensures c !in t.zombie ==> GivenAway(was, Adopted(t, p, c), p, freed)
  {
    hide TreeOk, Without;
  }

  lemma GivenAll(was: Tree, t: Tree, p: Pid, freed: set<Pid>)
    requires TreeOk(was) && TreeOk(t) && GivenAway(was, t, p, freed) && p in t.inUse && t.children[p] == []
    ensures freed == set c | c in was.zombie && c in was.parent && was.parent[c] == p
    ensures forall c :: c in t.forked ==> c in was.parent && c in t.parent && t.parent[c] == if was.parent[c] == p then t.root else was.parent[c]
  {
    hide ListsOk, RanksOk;
    forall c | c in was.zombie && c in was.parent && was.parent[c] == p ensures c in freed {
      if c !in freed { InList(t, p, c); }
    }
    forall c | c in t.forked && was.parent[c] == p ensures t.parent[c] == t.root {
      if t.parent[c] == p { InList(t, p, c); }
    }
  }

  lemma InList(t: Tree, p: Pid, c: Pid)
    requires TreeOk(t) && c in t.forked && c in t.parent && t.parent[c] == p
    ensures p in t.children && c in t.children[p]
  {
  }

}
