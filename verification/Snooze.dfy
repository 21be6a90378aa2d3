/**
  sys_sleep and sys_nanosleep: a process arms its sleep timer and sleeps on its own rendez until the
  timer is no longer armed. That rendez is also woken by children that exit, and the sleep timer also
  serves timed sleeps; whatever happens in between, the process gets past the loop exactly when its
  time is up, and it is not asleep any more then.
 */
module Snoozes {
  import opened Core
  import opened Lists
  import opened Placement
  import opened Scheduling
  import opened TimingWheels
  import TimedSleeps

  /** What a process has its sleep timer for: sys_sleep, begun at `since`, or a timed sleep on `r`. */
  datatype Call = Snooze(since: nat, delay: nat) | Timed(r: RendezId)

  /** The rendez that the process sleeps on in the call. */
  function Bed(p: Pid, c: Call): RendezId {
    if c.Snooze? then Own(p) else c.r
  }

  type Beds = map<RendezId, seq<Pid>>

  /** Timers of processes in `due` have gone off and their callback is still to come. */
  ghost predicate CallOk(z: Beds, pc: map<Pid, Pc>, timers: Timers, soft: nat, due: set<Pid>, p: Pid, c: Call) {
    && p in pc && pc[p] in {InSleep, InKernel} && Bed(p, c) in z
    && (forall r :: r in z && p in z[r] ==> r == Bed(p, c))
    && (c.Snooze? && p in timers ==> timers[p] == c.since + c.delay)
    && (c.Snooze? && p !in timers ==> c.since + c.delay < soft)
    && (c.Snooze? && p in z[Own(p)] ==> p in timers || p in due)
  }

  /** Nobody but process `p` sleeps on the rendez of `p`. */
  ghost predicate OwnBeds(z: Beds) {
    forall p, q :: Own(p) in z && q in z[Own(p)] ==> q == p
  }

  ghost predicate CallsOk(z: Beds, pc: map<Pid, Pc>, timers: Timers, soft: nat, due: set<Pid>, calls: map<Pid, Call>) {
    && (forall p :: p in calls ==> CallOk(z, pc, timers, soft, due, p, calls[p]))
    && timers.Keys <= calls.Keys && due <= calls.Keys && due !! timers.Keys
    && OwnBeds(z)
  }

  lemma CallBegins(z: Beds, pc: map<Pid, Pc>, timers: Timers, soft: nat, calls: map<Pid, Call>, p: Pid, since: nat, delay: nat)
    requires CallsOk(z, pc, timers, soft, {}, calls) && p !in calls && p in pc && pc[p] == InKernel && Own(p) in z
    requires forall r :: r in z ==> p !in z[r]
    ensures CallsOk(z, pc, timers[p := since + delay], soft, {}, calls[p := Snooze(since, delay)])
  {
  }

  lemma CallEnds(z: Beds, pc: map<Pid, Pc>, timers: Timers, soft: nat, calls: map<Pid, Call>, p: Pid)
    requires CallsOk(z, pc, timers, soft, {}, calls)
    ensures CallsOk(z, pc, timers - {p}, soft, {}, calls - {p})
  {
  }

  lemma LiesDown(z: Beds, pc: map<Pid, Pc>, timers: Timers, soft: nat, calls: map<Pid, Call>, p: Pid)
    requires CallsOk(z, pc, timers, soft, {}, calls) && p in calls && calls[p].Snooze? && p in timers
    ensures CallsOk(z[Own(p) := z[Own(p)] + [p]], pc[p := InSleep], timers, soft, {}, calls)
  {
  }

  lemma LiesDownTimed(z: Beds, pc: map<Pid, Pc>, timers: Timers, soft: nat, calls: map<Pid, Call>, p: Pid, r: RendezId, e: nat)
    requires CallsOk(z, pc, timers, soft, {}, calls) && p !in calls && p in pc && r in z && (r.Own? ==> r.p == p)
    requires forall x :: x in z ==> p !in z[x]
    ensures CallsOk(z[r := z[r] + [p]], pc[p := InSleep], timers[p := e], soft, {}, calls[p := Timed(r)])
  {
  }

  /** The soft clock moves on and the timers that are due go off. */
  lemma CallsDue(z: Beds, pc: map<Pid, Pc>, timers: Timers, soft: nat, calls: map<Pid, Call>, fired: seq<Pid>)
    requires CallsOk(z, pc, timers, soft, {}, calls)
    requires forall p :: p in timers ==> soft <= timers[p]
    requires forall p :: p in fired <==> p in timers && timers[p] == soft
    ensures CallsOk(z, pc, Later(timers, soft), soft + 1, Members(fired), calls)
  {
    forall p | p in calls ensures CallOk(z, pc, Later(timers, soft), soft + 1, Members(fired), p, calls[p]) {
      assert CallOk(z, pc, timers, soft, {}, p, calls[p]);
      assert p in fired <==> p in timers && timers[p] == soft;
    }
  }

  /** The callback of a timer finds nobody left, or takes its process off its bed. */
  lemma CalledBack(z: Beds, z': Beds, pc: map<Pid, Pc>, timers: Timers, soft: nat, due: set<Pid>, calls: map<Pid, Call>, p: Pid)
    requires CallsOk(z, pc, timers, soft, due, calls) && p in due && z'.Keys == z.Keys
    requires forall r, q :: r in z && q in z'[r] ==> q in z[r] && q != p
    ensures CallsOk(z', pc, timers, soft, due - {p}, calls)
  {
  }

  /** What a process may do outside such a call, and what one may that is in it. */
  predicate Apart(a: Action, c: Pid, inside: bool) {
    && (a.Sleep? ==> !inside && (a.r.Own? ==> a.r.p == c))
    && (a in {Leave, Look, Quit} ==> !inside)
  }

  lemma CallsElse(z: Beds, pc: map<Pid, Pc>, timers: Timers, soft: nat, calls: map<Pid, Call>, a: Action, c: Pid,
                  z': Beds, pc': map<Pid, Pc>)
    requires CallsOk(z, pc, timers, soft, {}, calls) && Confined(a, z, pc, c, z', pc') && Apart(a, c, c in calls)
    ensures CallsOk(z', pc', timers, soft, {}, calls)
  {
    forall p | p in calls ensures CallOk(z', pc', timers, soft, {}, p, calls[p]) {
      assert CallOk(z, pc, timers, soft, {}, p, calls[p]);
    }
  }

  datatype Move =
    | Begin(delay: nat) | Loop
    | BeginTimed(r: RendezId, delay: nat) | EndTimed
    | Plain(a: Action)
    | ClockTick | WheelTurn

  /** A sleep that is over, when it began, how long it was to last, and the hard clock at its end. */
  datatype Rest = Rest(p: Pid, since: nat, delay: nat, until: nat)

  ghost predicate Slept(x: Rest) {
    x.until > x.since + x.delay
  }

  /** A sleep that was under way still is, or `done` has it. */
  ghost predicate Accounted(before: map<Pid, Call>, after: map<Pid, Call>, done: seq<Rest>) {
    forall p :: p in before && before[p].Snooze? && (p !in after || after[p] != before[p]) ==>
      exists x :: x in done && x.p == p && Snooze(x.since, x.delay) == before[p]
  }

  lemma AccountedNone(calls: map<Pid, Call>)
    ensures Accounted(calls, calls, [])
  {
  }

  lemma AccountedNext(a: map<Pid, Call>, b: map<Pid, Call>, c: map<Pid, Call>, done: seq<Rest>, more: seq<Rest>)
    requires Accounted(a, b, done) && Accounted(b, c, more)
    ensures Accounted(a, c, done + more)
  {
    forall p | p in a && a[p].Snooze? && (p !in c || c[p] != a[p])
      ensures exists x :: x in done + more && x.p == p && Snooze(x.since, x.delay) == a[p]
    {
      var all := done + more;
      if p in b && b[p] == a[p] {
        var x :| x in more && x.p == p && Snooze(x.since, x.delay) == b[p];
        assert x in all;
      } else {
        var x :| x in done && x.p == p && Snooze(x.since, x.delay) == a[p];
        assert x in all;
      }
    }
  }

  /** What a step of process `c` does to the calls under way and to the clocks; `n` sleeps ended. */
  ghost predicate Took(calls: map<Pid, Call>, hard: nat, soft: nat, c: Pid, m: Move, n: nat, calls': map<Pid, Call>, hard': nat, soft': nat) {
    && hard' == hard + (if m.ClockTick? then 1 else 0) && soft' == soft + (if m.WheelTurn? then 1 else 0)
    && match m
       case Begin(delay) => calls' == calls[c := Snooze(hard, delay)] && n == 0
       case Loop =>
         && c in calls && calls[c].Snooze?
         && if calls[c].since + calls[c].delay < soft then calls' == calls - {c} && n == 1 else calls' == calls && n == 0
       case BeginTimed(r, _) => calls' == calls[c := Timed(r)] && n == 0
       case EndTimed => calls' == calls - {c} && n == 0
       case _ => calls' == calls && n == 0
  }

  class SleepKernel {
    const s: Scheduler
    const w: TimingWheel
    const timer: Pid
    const timerRendez: RendezId
    var calls: map<Pid, Call>

    ghost predicate Calls(due: set<Pid>)
      reads `calls, s`rendez, s`pc, w`armed, w`expiry, w`soft
    {
      CallsOk(s.rendez, s.pc, w.Armed(), w.soft, due, calls)
    }

    ghost predicate Inv()
      reads this, s, w
    {
      s.Inv() && w.Valid() && Calls({}) && timerRendez in s.rendez
    }

    constructor (s: Scheduler, w: TimingWheel, timer: Pid, timerRendez: RendezId)
      requires s.Inv() && w.Valid() && w.Armed() == map[] && timerRendez in s.rendez && OwnBeds(s.rendez)
      ensures Inv() && this.s == s && this.w == w && calls == map[] && this.timer == timer && this.timerRendez == timerRendez
    {
      this.s, this.w, this.timer, this.timerRendez := s, w, timer, timerRendez;
      calls := map[];
    }

    /** The process on the processor sleeps nowhere, and its timer is armed only in a call. */
    lemma UpAndAbout()
      requires Inv()
      ensures s.current in s.pc && (forall r :: r in s.rendez ==> s.current !in s.rendez[r])
      ensures s.current !in calls ==> s.current !in w.armed
    {
      w.ArmedKeys();
      s.InKernelHolds();
      TimedSleeps.ListedSleepers(s.Where());
      forall r | r in s.rendez ensures s.current !in s.rendez[r] {
        if s.current in s.rendez[r] { TimedSleeps.SleepersSleep(s.Where(), s.owner, s.pc, s.current, s.current); }
      }
    }

    /** sys_sleep up to its loop: the timer is set. */
    method BeginSleep(delay: nat)
      requires Inv() && s.pc[s.current] == InKernel && s.current !in calls && Own(s.current) in s.rendez
      modifies `calls, w
      ensures Inv() && calls == old(calls)[s.current := Snooze(w.hard, delay)]
      ensures w.Armed() == old(w.Armed())[s.current := w.hard + delay] && w.hard == old(w.hard) && w.soft == old(w.soft)
    {
      hide Scheduler.Inv, TimingWheel.Valid, CallsOk;
      UpAndAbout();
      CallBegins(s.rendez, s.pc, w.Armed(), w.soft, calls, s.current, w.hard, delay);
      w.Arm(s.current, delay);
      calls := calls[s.current := Snooze(w.hard, delay)];
    }

    /** Once round the loop: the process returns exactly when the time it asked for is up, and sleeps on otherwise. */
    method SleepLoop() returns (over: bool)
      requires Inv() && s.current in calls && calls[s.current].Snooze? && s.pc[s.current] == InKernel && s.current != s.idle
      modifies `calls, s`queue, s`bitmap, s`locked, s`owner, s`blocked, s`state, s`current, s`pc, s`log, s`rendez, s`on
      ensures Inv() && w.soft <= w.hard
      ensures var c := old(s.current); var call := old(calls)[c];
              && (over <==> call.since + call.delay < w.soft)
              && (over ==> calls == old(calls) - {c} && s.Where() == old(s.Where()) && s.pc == old(s.pc) && s.current == c)
              && (!over ==> calls == old(calls) && Own(c) in s.rendez && s.rendez[Own(c)] == [c] && s.pc[c] == InSleep)
    {
      hide Scheduler.Inv, TimingWheel.Valid, CallsOk, MostUrgent, Chosen, Turned, Parted, Passed;
      var c := s.current;
      UpAndAbout();
      w.ArmedKeys();
      Timely(s.rendez, s.pc, w.Armed(), w.soft, calls, c);
      over := c !in w.armed;
      if over {
        CallEnds(s.rendez, s.pc, w.Armed(), w.soft, calls, c);
        assert w.Armed() - {c} == w.Armed();
        calls := calls - {c};
      } else {
        LiesDown(s.rendez, s.pc, w.Armed(), w.soft, calls, c);
        s.TaskSleep(Own(c));
      }
    }

    /** A timed sleep, as far as it matters here: the same timer is set, and the process sleeps on `r`. */
    method BeginTimedSleep(r: RendezId, delay: nat)
      requires Inv() && s.pc[s.current] == InKernel && s.current !in calls && s.current != s.idle
      requires r in s.rendez && (r.Own? ==> r.p == s.current)
      modifies `calls, w, s`queue, s`bitmap, s`locked, s`owner, s`blocked, s`state, s`current, s`pc, s`log, s`rendez, s`on
      ensures Inv() && calls == old(calls)[old(s.current) := Timed(r)] && w.hard == old(w.hard) && w.soft == old(w.soft)
    {
      hide Scheduler.Inv, TimingWheel.Valid, CallsOk, MostUrgent, Chosen, Turned, Parted, Passed;
      var c := s.current;
      UpAndAbout();
      LiesDownTimed(s.rendez, s.pc, w.Armed(), w.soft, calls, c, r, w.hard + delay);
      w.Arm(c, delay);
      calls := calls[c := Timed(r)];
      s.TaskSleep(r);
    }

    method EndTimedSleep()
      requires Inv() && s.current in calls && calls[s.current].Timed?
      modifies `calls, w`bucket, w`armed, w`line
      ensures Inv() && calls == old(calls) - {s.current}
    {
      hide Scheduler.Inv, TimingWheel.Valid, CallsOk;
      var c := s.current;
      w.ArmedKeys();
      CallEnds(s.rendez, s.pc, w.Armed(), w.soft, calls, c);
      if c in w.armed {
        w.Cancel(c);
      } else {
        assert w.Armed() - {c} == w.Armed();
      }
      calls := calls - {c};
    }

    /** Nobody whose time is up is still asleep. */
    lemma NobodyOversleeps()
      requires Inv()
      ensures forall p :: p in calls && calls[p].Snooze? && calls[p].since + calls[p].delay < w.soft ==>
                            forall r :: r in s.rendez ==> p !in s.rendez[r]
    {
      w.ArmedKeys();
    }

    /** The timer interrupt: the hard clock moves on and the timer process is woken. */
    method TimerInterrupt()
      requires Inv()
      modifies s, w`hard
      ensures Inv() && w.hard == old(w.hard) + 1
      ensures Acted(Interrupt([timerRendez]), s.idle, old(s.Sighted()), s.rendez, s.pc)
    {
      hide Scheduler.Inv, WheelOk, CallsOk, Acted;
      s.InKernelHolds();
      w.TopHalf();
      Else(Interrupt([timerRendez]));
    }

    /** Whatever else a process or a device does. */
    method Else(a: Action)
      requires Inv() && s.current in s.pc && Apart(a, s.current, s.current in calls)
      requires !TooLate(a, s.pc[s.current], s.locked, s.blocked)
      modifies s
      ensures Inv() && Acted(a, s.idle, old(s.Sighted()), s.rendez, s.pc)
    {
      hide Scheduler.Inv, TimingWheel.Valid, CallsOk, Confined, Calm, Wreck, Acted;
      ghost var z, pc, c := s.rendez, s.pc, s.current;
      var kept := s.Step(a);
      CallsElse(z, pc, w.Armed(), w.soft, calls, a, c, s.rendez, s.pc);
    }

    /** One turn of the timer process's loop: the sleepers whose time is up are woken, and only their timers go off. */
    method Tick() returns (fired: seq<Pid>)
      requires Inv() && s.current == timer && s.pc[timer] == InKernel && w.soft < w.hard
      modifies s`rendez, s`blocked, s`state, s`log, w`bucket, w`armed, w`line, w`soft
      ensures Inv() && w.soft == old(w.soft) + 1 && fired == Sift(old(w.line), Due(old(w.Armed()), old(w.soft)))
      ensures forall p :: p in fired <==> p in old(w.Armed()) && old(w.Armed())[p] == old(w.soft)
      ensures forall p, r :: p in fired && r in s.rendez ==> p !in s.rendez[r]
    {
      hide Scheduler.Inv, TimingWheel.Valid, CallsOk, NoDup;
      s.InKernelHolds();
      w.ArmedKeys();
      ghost var timers := w.Armed();
      fired := w.Tick();
      CallsDue(s.rendez, s.pc, timers, old(w.soft), calls, fired);
      Callbacks(fired);
    }

    method Callbacks(fired: seq<Pid>)
      requires s.Inv() && w.Valid() && s.locked && NoDup(fired) && Calls(Members(fired)) && timerRendez in s.rendez
      modifies s`rendez, s`blocked, s`state, s`log
      ensures Inv() && forall p, r :: p in fired && r in s.rendez ==> p !in s.rendez[r]
    {
      hide Scheduler.Inv, TimingWheel.Valid, CallsOk, NoDup;
      assert fired[0..] == fired;
      for i := 0 to |fired|
        invariant s.Inv() && w.Valid() && s.locked && Calls(Members(fired[i..])) && timerRendez in s.rendez
        invariant forall p, r :: p in fired[..i] && r in s.rendez ==> p !in s.rendez[r]
      {
        var p := fired[i];
        assert p !in fired[i + 1..] by { Alone(fired, i); }
        assert fired[i..] == [p] + fired[i + 1..];
        assert Members(fired[i..]) - {p} == Members(fired[i + 1..]);
        assert fired[..i + 1] == fired[..i] + [p];
        Callback(p, Members(fired[i..]));
      }
      assert fired[..|fired|] == fired;
      assert Members(fired[|fired|..]) == {};
    }

    /** The callback of one timer: SleepCallback, or that of a timed sleep. */
    method Callback(p: Pid, ghost due: set<Pid>)
      requires s.Inv() && w.Valid() && s.locked && Calls(due) && p in due
      modifies s`rendez, s`blocked, s`state, s`log
      ensures s.Inv() && Calls(due - {p}) && s.rendez.Keys == old(s.rendez.Keys)
      ensures forall r, q :: r in s.rendez && q in s.rendez[r] ==> q in old(s.rendez)[r] && q != p
    {
      hide Scheduler.Queues, Control, Scheduler.Logged, TimingWheel.Valid, CallsOk, Without, NoDup;
      ghost var z := s.rendez;
      Bedded(z, s.pc, w.Armed(), w.soft, due, calls, p);
      Placing(p);
      if calls[p].Snooze? {
        OneSleeper(z, p);
        s.TaskWakeup(Own(p));
      } else {
        var r := calls[p].r;
        WithoutOk(z[r], p);
        s.TimedSleepCallback(p, r);
      }
      CalledBack(z, s.rendez, s.pc, w.Armed(), w.soft, due, calls, p);
    }

    // -------------------------------------------------------------------
    // Whole runs.

    /** The process on the processor is where it can take the step. */
    ghost predicate Able(m: Move)
      reads this, s, w
    {
      var c := s.current;
      c in s.pc && match m
                   case Begin(_) => s.pc[c] == InKernel && c !in calls && Own(c) in s.rendez
                   case Loop => c in calls && calls[c].Snooze? && s.pc[c] == InKernel && c != s.idle
                   case BeginTimed(r, _) => s.pc[c] == InKernel && c !in calls && c != s.idle && r in s.rendez && (r.Own? ==> r.p == c)
                   case EndTimed => c in calls && calls[c].Timed? && s.pc[c] == InKernel
                   case Plain(a) => Apart(a, c, c in calls)
                   case ClockTick => true
                   case WheelTurn => c == timer && s.pc[c] == InKernel && w.soft < w.hard
    }

    /** One step, taken exactly if it can be; `done` lists the sleep that ended. */
    method Step(m: Move) returns (done: seq<Rest>)
      requires Inv() && s.current in s.pc && !(m.Plain? && TooLate(m.a, s.pc[s.current], s.locked, s.blocked))
      modifies this, s, w
      ensures Inv() && s.current in s.pc
      ensures Accounted(old(calls), calls, done) && forall x :: x in done ==> Slept(x)
      ensures forall x :: x in done ==> x.p in old(calls) && old(calls)[x.p] == Snooze(x.since, x.delay) && x.p !in calls
      ensures if old(Able(m)) then Took(old(calls), old(w.hard), old(w.soft), old(s.current), m, |done|, calls, w.hard, w.soft)
              else calls == old(calls) && done == [] && s.rendez == old(s.rendez) && s.pc == old(s.pc)
      ensures m.Plain? && old(Able(m)) ==> Acted(m.a, s.idle, old(s.Sighted()), s.rendez, s.pc)
    {
      hide Scheduler.Inv, TimingWheel.Valid, CallsOk, Acted;
      done := [];
      var c := s.current;
      match m {
        case Begin(delay) =>
          if s.pc[c] == InKernel && c !in calls && Own(c) in s.rendez { BeginSleep(delay); }
        case Loop =>
          if c in calls && calls[c].Snooze? && s.pc[c] == InKernel && c != s.idle {
            var call := calls[c];
            var over := SleepLoop();
            if over { done := [Rest(c, call.since, call.delay, w.hard)]; }
          }
        case BeginTimed(r, delay) =>
          if s.pc[c] == InKernel && c !in calls && c != s.idle && r in s.rendez && (r.Own? ==> r.p == c) {
            BeginTimedSleep(r, delay);
          }
        case EndTimed => if c in calls && calls[c].Timed? && s.pc[c] == InKernel { EndTimedSleep(); }
        case Plain(a) => if Apart(a, c, c in calls) { Else(a); }
        case ClockTick => TimerInterrupt();
        case WheelTurn => if c == timer && s.pc[c] == InKernel && w.soft < w.hard { var fired := Tick(); }
      }
      s.InKernelHolds();
    }

    /**
      Every run, up to a step that is too late for the lock: a sleep ends only when more ticks have gone
      by than were asked for, whatever woke the process meanwhile, and when the soft clock has passed the
      time nobody who asked for it is asleep.
     */
    method Run(moves: seq<Move>) returns (n: nat, done: seq<Rest>)
      requires Inv()
      modifies this, s, w
      ensures Inv() && n <= |moves|
      ensures n < |moves| ==> moves[n].Plain? && s.current in s.pc && TooLate(moves[n].a, s.pc[s.current], s.locked, s.blocked)
      ensures Accounted(old(calls), calls, done) && forall x :: x in done ==> Slept(x)
      ensures forall p :: p in calls && calls[p].Snooze? && calls[p].since + calls[p].delay < w.soft ==>
                            forall r :: r in s.rendez ==> p !in s.rendez[r]
    {
      hide Scheduler.Inv, TimingWheel.Valid, CallsOk, Slept, Accounted;
      n, done := 0, [];
      AccountedNone(calls);
      s.InKernelHolds();
      while n < |moves| && !(moves[n].Plain? && TooLate(moves[n].a, s.pc[s.current], s.locked, s.blocked))
        invariant Inv() && s.current in s.pc && n <= |moves|
        invariant Accounted(old(calls), calls, done) && forall x :: x in done ==> Slept(x)
      {
        ghost var before := calls;
        var some := Step(moves[n]);
        AccountedNext(old(calls), before, calls, done, some);
        n, done := n + 1, done + some;
      }
      NobodyOversleeps();
    }

    /** A process is marked as sleeping exactly if it is on a list, and no list has it twice. */
    lemma Placing(p: Pid)
      requires s.Inv() && p in s.pc
      ensures p in s.state && forall r :: r in s.rendez ==> NoDup(s.rendez[r])
      ensures s.state[p] == RENDEZ_BLOCKED ==> p in s.on && s.on[p] in s.rendez && p in s.rendez[s.on[p]]
      ensures s.state[p] != RENDEZ_BLOCKED ==> forall r :: r in s.rendez ==> p !in s.rendez[r]
    {
      hide NoDup;
      TimedSleeps.ListedSleepers(s.Where());
      if p in s.state && s.state[p] == RENDEZ_BLOCKED { Sleeping(s.Where(), p); }
      forall r | r in s.rendez ensures p in s.rendez[r] ==> s.state[p] == RENDEZ_BLOCKED {
        if p in s.rendez[r] { TimedSleeps.SleepersSleep(s.Where(), s.owner, s.pc, s.current, p); }
      }
    }
  }

  /** The timer of a sleeper is armed exactly until its time is up. */
  lemma Timely(z: Beds, pc: map<Pid, Pc>, timers: Timers, soft: nat, calls: map<Pid, Call>, p: Pid)
    requires CallsOk(z, pc, timers, soft, {}, calls) && p in calls && calls[p].Snooze?
    requires forall t :: t in timers ==> soft <= timers[t]
    ensures p in timers <==> soft <= calls[p].since + calls[p].delay
    ensures Own(p) in z && (p !in z[Own(p)] ==> z[Own(p)] == [])
  {
    if z[Own(p)] != [] { assert z[Own(p)][0] in z[Own(p)]; }
  }

  lemma Bedded(z: Beds, pc: map<Pid, Pc>, timers: Timers, soft: nat, due: set<Pid>, calls: map<Pid, Call>, p: Pid)
    requires CallsOk(z, pc, timers, soft, due, calls) && p in due
    ensures p in calls && p in pc && Bed(p, calls[p]) in z && OwnBeds(z)
    ensures forall r :: r in z && p in z[r] ==> r == Bed(p, calls[p])
  {
  }

  lemma OneSleeper(z: Beds, p: Pid)
    requires OwnBeds(z) && Own(p) in z && NoDup(z[Own(p)])
    ensures z[Own(p)] == [] || z[Own(p)] == [p]
  {
    var l := z[Own(p)];
    forall i | 0 <= i < |l| ensures l[i] == p {
      assert l[i] in l;
    }
    if l != [] { assert l[0] == l[|l| - 1]; }
  }
}
