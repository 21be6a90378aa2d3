/**
  Sleeping on a rendez with a timeout: the scheduler and the timing wheel together, with the timer
  process that runs the wheel and the timer interrupt that wakes it. The sleep timer of a process
  bears the number of the process. A wakeup, the expiry and the sleeper's return can come in any
  order; the ghost record of each sleep says what has happened to it.
 */
module TimedSleeps {
  import opened Core
  import opened Lists
  import opened Placement
  import opened Scheduling
  import opened SchedulingRuns
  import opened TimingWheels

  /** A sleep under way: where, until when, how often it was moved to the lock's queue, and if by a wakeup. */
  datatype Nap = Nap(r: RendezId, expiry: nat, moves: nat, woken: bool)

  ghost predicate Asleep(rendez: map<RendezId, seq<Pid>>, on: map<Pid, RendezId>, p: Pid) {
    p in on && on[p] in rendez && p in rendez[on[p]]
  }

  /** Timers of processes in `due` have gone off and their callback is still to come. */
  ghost predicate NapOk(rendez: map<RendezId, seq<Pid>>, on: map<Pid, RendezId>, timers: Timers, soft: nat,
                        arg: map<Pid, RendezId>, due: set<Pid>, p: Pid, nap: Nap) {
    && p in arg && arg[p] == nap.r && nap.r in rendez
    && (p in due ==> p !in timers)
    && (p in timers ==> timers[p] == nap.expiry)
    && (p !in timers ==> nap.expiry < soft)
    && if Asleep(rendez, on, p)
       then on[p] == nap.r && nap.moves == 0 && !nap.woken && (p in timers || p in due)
       else nap.moves == 1 && (p in timers ==> nap.woken)
  }

  ghost predicate NapsOk(rendez: map<RendezId, seq<Pid>>, on: map<Pid, RendezId>, pc: map<Pid, Pc>, timers: Timers,
                         soft: nat, arg: map<Pid, RendezId>, due: set<Pid>, naps: map<Pid, Nap>) {
    && (forall p :: p in naps ==> p in pc && pc[p] == InSleep && NapOk(rendez, on, timers, soft, arg, due, p, naps[p]))
    && timers.Keys <= naps.Keys && due <= naps.Keys
  }

  /** The record of a sleeper that is moved to the lock's queue. */
  ghost function Moved(naps: map<Pid, Nap>, p: Pid, woken: bool): map<Pid, Nap> {
    if p in naps then naps[p := naps[p].(moves := naps[p].moves + 1, woken := woken)] else naps
  }

  /** The records of sleepers that are woken. */
  ghost function Roused(naps: map<Pid, Nap>, ps: seq<Pid>): (m: map<Pid, Nap>)
    ensures m.Keys == naps.Keys
  {
    if ps == [] then naps else Moved(Roused(naps, ps[..|ps| - 1]), ps[|ps| - 1], true)
  }

  /** The sleepers that an action of the running process, or of a device, wakes. */
  ghost function WokenBy(z: map<RendezId, seq<Pid>>, a: Action, inside: bool): seq<Pid> {
    match a
    case WakeOne(r) => if inside && r in z then z[r][..if z[r] == [] then 0 else 1] else []
    case WakeAll(r) => if inside && r in z then z[r] else []
    case Interrupt(wakes) => if forall i :: 0 <= i < |wakes| ==> wakes[i] in z then Woken(z, wakes) else []
    case _ => []
  }

  /** Those of `ps` that are still asleep, in order. */
  ghost function Still(rendez: map<RendezId, seq<Pid>>, on: map<Pid, RendezId>, ps: seq<Pid>): seq<Pid> {
    if ps == [] then []
    else
      var before, p := Still(rendez, on, ps[..|ps| - 1]), ps[|ps| - 1];
      if Asleep(rendez, on, p) then before + [p] else before
  }

  datatype Move =
    | Nod(r: RendezId, delay: nat) | Return
    | Plain(a: Action)
    | ClockTick | WheelTurn

  /** A timed sleep that is over: whose, what happened to it, how far the soft clock was, and what the sleeper is told. */
  datatype Report = Report(p: Pid, ghost nap: Nap, ghost soft: nat, err: Option<Errno>)

  /** A sleeper was moved to the lock's queue once; it is told of a timeout exactly if its timer has gone off meanwhile. */
  ghost predicate Truthful(x: Report) {
    && x.nap.moves == 1 && x.err in {None, Some(ETIMEDOUT)}
    && (x.err == Some(ETIMEDOUT) <==> x.nap.expiry < x.soft)
    && (x.err == None ==> x.nap.woken)
  }

  class TimedKernel {
    const s: Scheduler
    const w: TimingWheel
    const timer: Pid
    const timerRendez: RendezId
    var arg: map<Pid, RendezId>
    var timed: set<Pid>
    ghost var naps: map<Pid, Nap>

    ghost predicate Naps(due: set<Pid>)
      reads this, s`rendez, s`on, s`pc, w`armed, w`expiry, w`soft
    {
      && NapsOk(s.rendez, s.on, s.pc, w.Armed(), w.soft, arg, due, naps)
      && naps.Keys == timed && timerRendez in s.rendez
    }

    ghost predicate Inv()
      reads this, s, w
    {
      s.Inv() && w.Valid() && Naps({})
    }

    constructor (s: Scheduler, w: TimingWheel, timer: Pid, timerRendez: RendezId)
      requires s.Inv() && w.Valid() && w.Armed() == map[] && timerRendez in s.rendez
      ensures Inv() && this.s == s && this.w == w && naps == map[] && timed == {}
      ensures this.timer == timer && this.timerRendez == timerRendez
    {
      this.s, this.w, this.timer, this.timerRendez := s, w, timer, timerRendez;
      arg, naps, timed := map[], map[], {};
    }

    /** The first half: arm the timer, give up the lock and sleep. */
    method TaskTimedSleep(r: RendezId, delay: nat)
      requires Inv() && s.pc[s.current] == InKernel && s.current != s.idle && r in s.rendez
      modifies this, w, s`queue, s`bitmap, s`locked, s`owner, s`blocked, s`state, s`current, s`pc, s`log, s`rendez, s`on
      ensures Inv() && naps == old(naps)[old(s.current) := Nap(r, w.hard + delay, 0, false)] && old(s.current) !in old(naps)
      ensures s.rendez == old(s.rendez)[r := old(s.rendez)[r] + [old(s.current)]] && s.on == old(s.on)[old(s.current) := r]
      ensures s.pc == old(s.pc)[old(s.current) := InSleep] && s.current == Chosen(s.queue, s.idle)
      ensures s.queue == Turned(Parted(Passed(old(s.queue), s.prio, old(s.blocked)), s.prio, old(s.current)),
                                s.prio, s.policy, old(s.current))
      ensures s.blocked == if old(s.blocked) == [] then [] else old(s.blocked)[1..]
      ensures s.owner == if old(s.blocked) == [] then None else Some(old(s.blocked)[0])
      ensures w.Armed() == old(w.Armed())[old(s.current) := w.hard + delay] && w.hard == old(w.hard) && w.soft == old(w.soft)
    {
      hide Scheduler.Inv, TimingWheel.Valid, NapsOk, MostUrgent, Chosen, Turned, Parted, Passed;
      var c := s.current;
      s.InKernelHolds();
      Awake(c);
      FallAsleep(s.rendez, s.on, s.pc, w.Armed(), w.soft, arg, naps, c, r, w.hard + delay);
      w.Arm(c, delay);
      arg := arg[c := r];
      timed := timed + {c};
      naps := naps[c := Nap(r, w.hard + delay, 0, false)];
      s.TaskSleep(r);
    }

    /** A process running in the kernel is in no timed sleep, and its timer is not armed. */
    lemma Awake(c: Pid)
      requires s.Inv() && w.Valid() && Naps({}) && c in s.pc && s.pc[c] == InKernel
      ensures c !in naps && c !in w.armed && w.soft <= w.hard
      ensures !Asleep(s.rendez, s.on, c)
    {
      assert c !in w.Armed();
      if Asleep(s.rendez, s.on, c) { SleepersSleep(s.Where(), s.owner, s.pc, s.current, c); }
    }

    /** The second half, when the process runs again: -ETIMEDOUT exactly if its timer has gone off, even after a wakeup. */
    method Return() returns (err: Option<Errno>)
      requires Inv() && s.current in timed
      modifies this`timed, this`naps, s`pc, w`bucket, w`armed, w`line
      ensures Inv() && s.current in old(naps) && naps == old(naps) - {s.current} && s.owner == Some(s.current)
      ensures Truthful(Report(s.current, old(naps)[s.current], w.soft, err))
      ensures s.pc == old(s.pc)[s.current := InKernel] && s.current !in w.armed
    {
      hide Scheduler.Inv, TimingWheel.Valid, NapsOk;
      Running();
      w.ArmedKeys();
      WakeUp(s.rendez, s.on, s.pc, w.Armed(), w.soft, arg, naps, s.current);
      s.Resume();
      if s.current in w.armed {
        w.Cancel(s.current);
        err := None;
      } else {
        err := Some(ETIMEDOUT);
      }
      naps := naps - {s.current};
      timed := timed - {s.current};
      w.ArmedKeys();
      assert w.Armed() == old(w.Armed()) - {s.current};
    }

    /** A sleeper whose time is up is not asleep any more. */
    lemma NobodyOversleeps()
      requires Inv()
      ensures forall p :: p in naps && naps[p].expiry < w.soft ==> naps[p].moves == 1 && !Asleep(s.rendez, s.on, p)
    {
      w.ArmedKeys();
    }

    lemma ListsKnown()
      requires s.Inv()
      ensures ListsOk(s.rendez, s.on)
    {
      hide NoDup;
      ListedSleepers(s.Where());
    }

    /** An interrupt, whose handlers wake the given rendez. */
    method Interrupt(wakes: seq<RendezId>)
      requires Inv() && forall i :: 0 <= i < |wakes| ==> wakes[i] in s.rendez
      modifies this`naps, s`queue, s`bitmap, s`locked, s`owner, s`blocked, s`state, s`current, s`pc, s`log, s`rendez
      ensures Inv() && naps == Roused(old(naps), Woken(old(s.rendez), wakes))
      ensures s.rendez == AfterWakes(old(s.rendez), wakes) && s.pc == old(s.pc)
      ensures old(s.locked) ==> s.owner == old(s.owner) && s.blocked == old(s.blocked) + Woken(old(s.rendez), wakes)
      ensures old(s.locked) ==> s.current == old(s.current) && s.queue == old(s.queue)
      ensures !old(s.locked) ==>
                PassedBy(Woken(old(s.rendez), wakes), old(s.queue), old(s.current), s.Where(), s.policy, s.owner, s.current)
    {
      hide Scheduler.Inv, TimingWheel.Valid, NapsOk, Woken, AfterWakes, Roused, ListsOk, MostUrgent, PassedBy;
      ListsKnown();
      AllWoke(s.rendez, s.on, s.pc, w.Armed(), w.soft, arg, naps, wakes);
      s.InterruptHandler(wakes);
      naps := Roused(naps, Woken(old(s.rendez), wakes));
    }

    /** The timer interrupt: the hard clock moves on and the timer process is woken. */
    method TimerInterrupt()
      requires Inv()
      modifies this`naps, w`hard, s`queue, s`bitmap, s`locked, s`owner, s`blocked, s`state, s`current, s`pc, s`log, s`rendez
      ensures Inv() && w.hard == old(w.hard) + 1 && s.pc == old(s.pc) && timerRendez in old(s.rendez)
      ensures var ps := old(s.rendez)[timerRendez];
              && naps == Roused(old(naps), ps[..if ps == [] then 0 else 1])
              && s.rendez == old(s.rendez)[timerRendez := ps[if ps == [] then 0 else 1..]]
              && (old(s.locked) ==> s.owner == old(s.owner) && s.current == old(s.current) && s.queue == old(s.queue)
                                    && s.blocked == old(s.blocked) + ps[..if ps == [] then 0 else 1])
    {
      hide Scheduler.Inv, NapsOk, Roused, PassedBy, WheelOk, Woken, AfterWakes;
      WokenFirst(s.rendez, timerRendez);
      w.TopHalf();
      Interrupt([timerRendez]);
    }

    /** One turn of the timer process's loop: sleepers whose time is up are queued for the lock, in order. */
    method Tick() returns (fired: seq<Pid>)
      requires Inv() && s.current == timer && s.pc[timer] == InKernel && w.soft < w.hard
      modifies this`naps, s`rendez, s`blocked, s`state, s`log, w`bucket, w`armed, w`line, w`soft
      ensures Inv() && w.soft == old(w.soft) + 1 && naps.Keys == old(naps.Keys)
      ensures fired == Sift(old(w.line), Due(old(w.Armed()), old(w.soft)))
      ensures forall p :: p in fired <==> p in old(w.Armed()) && old(w.Armed())[p] == old(w.soft)
      ensures forall p :: p in fired ==> p in naps && naps[p].moves == 1 && naps[p].expiry == old(w.soft)
      ensures forall p :: p in fired && !Asleep(old(s.rendez), s.on, p) ==> naps[p] == old(naps)[p]
      ensures forall p :: p in naps && p !in fired ==> naps[p] == old(naps)[p]
      ensures s.blocked == old(s.blocked) + Still(old(s.rendez), s.on, fired) && s.rendez.Keys == old(s.rendez.Keys)
    {
      hide Scheduler.Inv, TimingWheel.Valid, NapsOk, NoDup, Still, Asleep;
      ghost var timers := w.Armed();
      s.InKernelHolds();
      w.ArmedKeys();
      fired := w.Tick();
      TimesUp(s.rendez, s.on, s.pc, timers, old(w.soft), arg, naps, fired);
      Callbacks(fired);
    }

    method Callbacks(fired: seq<Pid>)
      requires s.Inv() && w.Valid() && s.locked && NoDup(fired) && Naps(Members(fired))
      modifies this`naps, s`rendez, s`blocked, s`state, s`log
      ensures Inv() && naps.Keys == old(naps.Keys)
      ensures forall p :: p in fired ==> p in naps && Called(old(s.rendez), s.on, p, old(naps)[p], naps[p])
      ensures forall p :: p in naps && p !in fired ==> naps[p] == old(naps)[p]
      ensures s.blocked == old(s.blocked) + Still(old(s.rendez), s.on, fired) && s.rendez.Keys == old(s.rendez.Keys)
    {
      hide Scheduler.Inv, TimingWheel.Valid, NapsOk, NoDup, CalledUpto;
      assert fired[0..] == fired;
      DueKnown(s.rendez, s.on, s.pc, w.Armed(), w.soft, arg, Members(fired), naps);
      CalledNone(s.rendez, s.on, naps, s.blocked);
      for i := 0 to |fired|
        invariant s.Inv() && w.Valid() && s.locked && Naps(Members(fired[i..])) && Members(fired) <= naps.Keys
        invariant CalledUpto(old(s.rendez), s.on, old(naps), old(s.blocked), fired[..i], s.rendez, naps, s.blocked)
      {
        var p := fired[i];
        assert p !in fired[..i] && p !in fired[i + 1..] by { Alone(fired, i); }
        assert fired[i..] == [p] + fired[i + 1..];
        assert Members(fired[i..]) - {p} == Members(fired[i + 1..]);
        assert fired[..i + 1] == fired[..i] + [p];
        ghost var z, n, b := s.rendez, naps, s.blocked;
        Callback(p, Members(fired[i..]));
        CalledNext(old(s.rendez), s.on, old(naps), old(s.blocked), fired[..i], z, n, b, p, s.rendez, naps, s.blocked);
      }
      assert fired[..|fired|] == fired;
      assert Members(fired[|fired|..]) == {};
      CalledAll(old(s.rendez), s.on, old(naps), old(s.blocked), fired, s.rendez, naps, s.blocked);
    }

    /** The timeout of one sleeper: it joins the lock's queue if it is still asleep. */
    method Callback(p: Pid, ghost due: set<Pid>)
      requires s.Inv() && w.Valid() && s.locked && Naps(due) && p in due
      modifies this`naps, s`rendez, s`blocked, s`state, s`log
      ensures s.Inv() && w.Valid() && Naps(due - {p}) && p in naps && naps == old(naps)[p := naps[p]]
      ensures p in old(naps) && Called(old(s.rendez), s.on, p, old(naps)[p], naps[p])
      ensures s.blocked == old(s.blocked) + if Asleep(old(s.rendez), s.on, p) then [p] else []
      ensures s.rendez.Keys == old(s.rendez.Keys)
      ensures forall z :: z != p ==> (Asleep(s.rendez, s.on, z) <==> Asleep(old(s.rendez), s.on, z))
    {
      hide Scheduler.Queues, Control, Scheduler.Logged, TimingWheel.Valid, NapsOk, Moved, Without;
      DueKnown(s.rendez, s.on, s.pc, w.Armed(), w.soft, arg, due, naps);
      SleeperKnown(p);
      if Asleep(s.rendez, s.on, p) {
        Expired(s.rendez, s.on, s.pc, w.Armed(), w.soft, arg, due, naps, p);
        OthersAsleep(s.rendez, s.on, arg[p], p);
        naps := Moved(naps, p, false);
      } else {
        CameLate(s.rendez, s.on, s.pc, w.Armed(), w.soft, arg, due, naps, p);
      }
      s.TimedSleepCallback(p, arg[p]);
    }

    lemma SleeperKnown(p: Pid)
      requires s.Inv() && p in s.pc
      ensures p in s.state && (s.state[p] == RENDEZ_BLOCKED <==> Asleep(s.rendez, s.on, p))
      ensures Asleep(s.rendez, s.on, p) ==> NoDup(s.rendez[s.on[p]])
    {
      if Asleep(s.rendez, s.on, p) {
        SleepersSleep(s.Where(), s.owner, s.pc, s.current, p);
      }
      if p in s.state && s.state[p] == RENDEZ_BLOCKED { Sleeping(s.Where(), p); }
    }

    /** Whatever else a process or a device does: the sleepers it wakes are moved, and no other timed sleep is touched. */
    method Plainly(a: Action)
      requires Inv() && s.current in s.pc && !TooLate(a, s.pc[s.current], s.locked, s.blocked)
      modifies this`naps, s
      ensures Inv() && s.rendez.Keys == old(s.rendez.Keys)
      ensures naps == Roused(old(naps), WokenBy(old(s.rendez), a, old(s.pc)[old(s.current)] == InKernel))
      ensures if a == Continue && old(s.current) in timed then s.rendez == old(s.rendez) && s.pc == old(s.pc)
              else Acted(a, s.idle, old(s.Sighted()), s.rendez, s.pc)
    {
      hide Scheduler.Inv, TimingWheel.Valid, NapsOk, Roused, Woken, AfterWakes, MostUrgent, PassedBy;
      RousedNone(naps);
      if s.pc[s.current] == InKernel {
        PlainlyInside(a);
      } else {
        PlainlyOutside(a);
      }
    }

    method PlainlyOutside(a: Action)
      requires Inv() && s.current in s.pc && s.pc[s.current] != InKernel && !TooLate(a, s.pc[s.current], s.locked, s.blocked)
      modifies this`naps, s
      ensures Inv() && s.rendez.Keys == old(s.rendez.Keys)
      ensures naps == Roused(old(naps), WokenBy(old(s.rendez), a, false))
      ensures if a == Continue && old(s.current) in timed then s.rendez == old(s.rendez) && s.pc == old(s.pc)
              else Acted(a, s.idle, old(s.Sighted()), s.rendez, s.pc)
    {
      hide Scheduler.Inv, TimingWheel.Valid, NapsOk, Roused, Woken, AfterWakes, MostUrgent, PassedBy;
      RousedNone(naps);
      s.InKernelHolds();
      match a
      case Continue => if s.pc[s.current] in {InLock, InSleep} && s.current !in timed { PlainReturn(); }
      case Interrupt(wakes) =>
        if forall i :: 0 <= i < |wakes| ==> wakes[i] in s.rendez { Interrupt(wakes); }
      case _ => PlainlyHalf(a);
    }

    /** The whole of an entry, or half of an entry or an exit. */
    method PlainlyHalf(a: Action)
      requires Inv() && s.current in s.pc && s.pc[s.current] != InKernel && !TooLate(a, s.pc[s.current], s.locked, s.blocked)
      requires a != Continue && !a.Interrupt?
      modifies s
      ensures Inv() && s.rendez == old(s.rendez)
      ensures Acted(a, s.idle, old(s.Sighted()), s.rendez, s.pc)
    {
      hide Scheduler.Inv, TimingWheel.Valid, NapsOk, MostUrgent, Chosen, Turned, Parted;
      Outsider(s.rendez, s.on, s.pc, w.Armed(), w.soft, arg, naps, s.current);
      match a
      case Enter => if s.pc[s.current] == User { PlainEntry(); }
      case Test => if s.pc[s.current] == User { s.TestLock(); }
      case Take => if s.pc[s.current] == Testing { s.TakeLock(); }
      case Drop => if s.pc[s.current] == Leaving { s.FreeLock(); }
      case _ =>
    }

    method PlainlyInside(a: Action)
      requires Inv() && s.current in s.pc && s.pc[s.current] == InKernel
      modifies this`naps, s
      ensures Inv() && s.rendez.Keys == old(s.rendez.Keys)
      ensures naps == Roused(old(naps), WokenBy(old(s.rendez), a, true))
      ensures Acted(a, s.idle, old(s.Sighted()), s.rendez, s.pc)
    {
      hide Scheduler.Inv, TimingWheel.Valid, NapsOk, Roused, Woken, AfterWakes, MostUrgent, PassedBy, Without, Chosen, Turned, Joined,
        Passed, KeepsProcessor;
      RousedNone(naps);
      s.InKernelHolds();
      match a
      case WakeOne(r) => if r in s.rendez { Wakeup(r); }
      case WakeAll(r) => if r in s.rendez { WakeupAll(r); }
      case Interrupt(wakes) =>
        if forall i :: 0 <= i < |wakes| ==> wakes[i] in s.rendez { Interrupt(wakes); }
      case _ => PlainlyQuiet(a);
    }

    /** What a process in the kernel may do that wakes nobody. */
    method PlainlyQuiet(a: Action)
      requires Inv() && s.current in s.pc && s.pc[s.current] == InKernel && !(a.WakeOne? || a.WakeAll? || a.Interrupt?)
      modifies s
      ensures Inv() && s.rendez.Keys == old(s.rendez.Keys)
      ensures Acted(a, s.idle, old(s.Sighted()), s.rendez, s.pc)
    {
      hide Scheduler.Inv, TimingWheel.Valid, NapsOk, MostUrgent, Chosen, Turned, Passed, Parted, KeepsProcessor;
      s.InKernelHolds();
      Outsider(s.rendez, s.on, s.pc, w.Armed(), w.soft, arg, naps, s.current);
      match a
      case Leave => s.KernelUnlock();
      case Look => s.LookForWaiter();
      case Sleep(r) => if s.current != s.idle && r in s.rendez { PlainSleep(r); }
      case Spawn(p) => if s.current != s.idle && p !in s.state { PlainFork(p); }
      case Quit => if s.current != s.idle { s.Exit(); }
      case Wait(p) => if p in s.state && s.state[p] == ZOMBIE { PlainReap(p); }
      case _ =>
    }

    method Wakeup(r: RendezId)
      requires Inv() && s.locked && r in s.rendez
      modifies this`naps, s`rendez, s`blocked, s`state, s`log
      ensures Inv() && naps == Roused(old(naps), old(s.rendez)[r][..if old(s.rendez)[r] == [] then 0 else 1])
      ensures s.rendez == old(s.rendez)[r := old(s.rendez)[r][if old(s.rendez)[r] == [] then 0 else 1..]]
      ensures s.blocked == old(s.blocked) + old(s.rendez)[r][..if old(s.rendez)[r] == [] then 0 else 1]
    {
      hide Scheduler.Inv, TimingWheel.Valid, NapsOk, Roused, Woken, AfterWakes, ListsOk;
      ListsKnown();
      AllWoke(s.rendez, s.on, s.pc, w.Armed(), w.soft, arg, naps, [r]);
      WokenFirst(s.rendez, r);
      s.TaskWakeup(r);
      assert s.rendez == AfterWakes(old(s.rendez), [r]);
      naps := Roused(naps, Woken(old(s.rendez), [r]));
    }

    method WakeupAll(r: RendezId)
      requires Inv() && s.pc[s.current] == InKernel && r in s.rendez
      modifies this`naps, s`rendez, s`blocked, s`state, s`log
      ensures Inv() && naps == Roused(old(naps), old(s.rendez)[r]) && s.rendez == old(s.rendez)[r := []]
    {
      hide Scheduler.Inv, TimingWheel.Valid, NapsOk, Roused, Woken, AfterWakes, ListsOk;
      ListsKnown();
      ghost var wakes := seq(|s.rendez[r]|, _ => r);
      AllWoke(s.rendez, s.on, s.pc, w.Armed(), w.soft, arg, naps, wakes);
      WokenAll(s.rendez, r, |s.rendez[r]|);
      assert s.rendez[r][|s.rendez[r]|..] == [] && s.rendez[r][..|s.rendez[r]|] == s.rendez[r];
      s.TaskWakeupAll(r);
      naps := Roused(naps, Woken(old(s.rendez), wakes));
    }

    method PlainEntry()
      requires Inv() && s.current in s.pc && s.pc[s.current] == User
      modifies s`queue, s`bitmap, s`locked, s`owner, s`blocked, s`state, s`current, s`pc, s`log
      ensures Inv() && s.locked && s.pc == old(s.pc)[old(s.current) := if old(s.locked) then InLock else InKernel]
      ensures s.rendez == old(s.rendez)
      ensures !old(s.locked) ==> s.Where() == old(s.Where()) && s.current == old(s.current)
      ensures !old(s.locked) ==> s.pc == old(s.pc)[s.current := InKernel]
    {
      hide Scheduler.Inv, TimingWheel.Valid, NapsOk, MostUrgent;
      Outsider(s.rendez, s.on, s.pc, w.Armed(), w.soft, arg, naps, s.current);
      s.KernelLock();
    }

    method PlainReturn()
      requires Inv() && s.current in s.pc && s.pc[s.current] in {InLock, InSleep} && s.current !in timed
      modifies s`pc
      ensures Inv() && s.pc == old(s.pc)[s.current := InKernel]
    {
      hide Scheduler.Inv, TimingWheel.Valid, NapsOk;
      Outsider(s.rendez, s.on, s.pc, w.Armed(), w.soft, arg, naps, s.current);
      s.Resume();
    }

    method PlainSleep(r: RendezId)
      requires Inv() && s.pc[s.current] == InKernel && s.current != s.idle && r in s.rendez
      modifies s`queue, s`bitmap, s`locked, s`owner, s`blocked, s`state, s`current, s`pc, s`log, s`rendez, s`on
      ensures Inv() && s.rendez == old(s.rendez)[r := old(s.rendez)[r] + [old(s.current)]]
      ensures s.current == Chosen(s.queue, s.idle) && s.on == old(s.on)[old(s.current) := r]
      ensures s.pc == old(s.pc)[old(s.current) := InSleep]
      ensures s.blocked == if old(s.blocked) == [] then [] else old(s.blocked)[1..]
      ensures s.owner == if old(s.blocked) == [] then None else Some(old(s.blocked)[0])
      ensures s.queue == Turned(Parted(Passed(old(s.queue), s.prio, old(s.blocked)), s.prio, old(s.current)),
                                s.prio, s.policy, old(s.current))
    {
      hide Scheduler.Inv, TimingWheel.Valid, NapsOk, MostUrgent, Chosen, Turned, Parted, Passed;
      Running();
      SleepsToo(s.rendez, s.on, s.pc, w.Armed(), w.soft, arg, naps, s.current, r);
      s.TaskSleep(r);
    }

    method PlainFork(p: Pid)
      requires Inv() && s.pc[s.current] == InKernel && s.current != s.idle && p !in s.state
      modifies s
      ensures Inv() && s.rendez == old(s.rendez) && s.pc == old(s.pc)[p := User]
    {
      hide Scheduler.Queues, Scheduler.Logged, TimingWheel.Valid, NapsOk;
      NewOutsider(s.rendez, s.on, s.pc, w.Armed(), w.soft, arg, naps, p);
      s.Fork(p);
    }

    method PlainReap(p: Pid)
      requires Inv() && p in s.state && s.state[p] == ZOMBIE
      modifies s
      ensures Inv() && s.rendez == old(s.rendez) && s.pc == old(s.pc) - {p}
    {
      hide Scheduler.Queues, Scheduler.Logged, TimingWheel.Valid, NapsOk;
      GoneOutsider(s.rendez, s.on, s.pc, w.Armed(), w.soft, arg, naps, p);
      s.Reap(p);
    }

    lemma Running()
      requires s.Inv()
      ensures s.current in s.pc && !Asleep(s.rendez, s.on, s.current)
    {
      if Asleep(s.rendez, s.on, s.current) { SleepersSleep(s.Where(), s.owner, s.pc, s.current, s.current); }
    }

    // -------------------------------------------------------------------
    // Whole runs.

    /** The process on the processor is where it can take the step. */
    ghost predicate Able(m: Move)
      reads this, s, w
    {
      match m
      case Nod(r, _) => s.current in s.pc && s.pc[s.current] == InKernel && s.current != s.idle && r in s.rendez
      case Return => s.current in timed
      case Plain(a) => !(a == Continue && s.current in timed)
      case ClockTick => true
      case WheelTurn => s.current == timer && timer in s.pc && s.pc[timer] == InKernel && w.soft < w.hard
    }

    /** One step, if it can be taken; `began` counts the timed sleeps begun and `done` lists the one that ended. */
    method Step(m: Move) returns (began: nat, done: seq<Report>)
      requires Inv() && !(m.Plain? && s.current in s.pc && TooLate(m.a, s.pc[s.current], s.locked, s.blocked))
      modifies this, s, w
      ensures Inv() && |naps| + |done| == |old(naps)| + began
      ensures forall x :: x in done ==> Truthful(x) && x.soft == w.soft && x.p in old(naps) && old(naps)[x.p] == x.nap
      ensures began == (if m.Nod? && old(Able(m)) then 1 else 0) && |done| == if m.Return? && old(Able(m)) then 1 else 0
      ensures w.hard == old(w.hard) + (if m.ClockTick? then 1 else 0)
      ensures w.soft == old(w.soft) + if m.WheelTurn? && old(Able(m)) then 1 else 0
      ensures m.Plain? && old(Able(m)) ==> Acted(m.a, s.idle, old(s.Sighted()), s.rendez, s.pc)
      ensures !old(Able(m)) ==> s.rendez == old(s.rendez) && s.pc == old(s.pc) && naps == old(naps)
    {
      hide Scheduler.Inv, TimingWheel.Valid, NapsOk, Roused, Truthful, Acted;
      began, done := 0, [];
      RousedNone(naps);
      s.InKernelHolds();
      match m
      case Nod(r, delay) => began := StepNod(r, delay);
      case Return => done := StepReturn();
      case Plain(a) => Plainly(a);
        SameCount(old(naps), naps);
      case ClockTick => TimerInterrupt();
        SameCount(old(naps), naps);
      case WheelTurn => StepWheel();
    }

    method StepNod(r: RendezId, delay: nat) returns (began: nat)
      requires Inv()
      modifies this, s, w
      ensures Inv() && |naps| == |old(naps)| + began && began == (if old(Able(Nod(r, delay))) then 1 else 0)
      ensures w.hard == old(w.hard) && w.soft == old(w.soft)
      ensures began == 0 ==> s.rendez == old(s.rendez) && s.pc == old(s.pc) && naps == old(naps)
    {
      hide Scheduler.Inv, TimingWheel.Valid, NapsOk, Chosen, Turned, Parted, Passed;
      s.InKernelHolds();
      began := 0;
      if s.pc[s.current] == InKernel && s.current != s.idle && r in s.rendez {
        TaskTimedSleep(r, delay);
        began := 1;
      }
    }

    method StepReturn() returns (done: seq<Report>)
      requires Inv()
      modifies this, s, w
      ensures Inv() && |naps| + |done| == |old(naps)| && |done| == (if old(s.current) in old(timed) then 1 else 0)
      ensures w.hard == old(w.hard) && w.soft == old(w.soft)
      ensures done == [] ==> s.rendez == old(s.rendez) && s.pc == old(s.pc) && naps == old(naps)
      ensures forall x :: x in done ==> Truthful(x) && x.soft == w.soft && x.p in old(naps) && old(naps)[x.p] == x.nap
    {
      hide Scheduler.Inv, TimingWheel.Valid, NapsOk, Truthful;
      done := [];
      if s.current in timed {
        var c := s.current;
        ghost var nap := naps[c];
        var err := Return();
        done := [Report(c, nap, w.soft, err)];
        OneLess(old(naps), c);
      }
    }

    method StepWheel()
      requires Inv() && s.current in s.pc
      modifies this, s, w
      ensures Inv() && |naps| == |old(naps)| && w.hard == old(w.hard)
      ensures w.soft == old(w.soft) + if old(Able(WheelTurn)) then 1 else 0
      ensures !old(Able(WheelTurn)) ==> s.rendez == old(s.rendez) && s.pc == old(s.pc) && naps == old(naps)
    {
      hide Scheduler.Inv, TimingWheel.Valid, NapsOk, Still, Asleep;
      if s.current == timer && s.pc[timer] == InKernel && w.soft < w.hard {
        var fired := Tick();
        SameCount(old(naps), naps);
      }
    }

    /**
      Every run of timed sleeps, wakeups, interrupts, ticks and returns, in any order, up to a step that
      is too late for the lock: each sleep that is begun is under way or has ended with a truthful report.
     */
    method Run(moves: seq<Move>) returns (n: nat, began: nat, done: seq<Report>)
      requires Inv()
      modifies this, s, w
      ensures Inv() && n <= |moves| && |naps| + |done| == |old(naps)| + began
      ensures n < |moves| ==> moves[n].Plain? && s.current in s.pc && TooLate(moves[n].a, s.pc[s.current], s.locked, s.blocked)
      ensures forall x :: x in done ==> Truthful(x)
      ensures forall p :: p in naps && naps[p].expiry < w.soft ==> naps[p].moves == 1 && !Asleep(s.rendez, s.on, p)
    {
      hide Scheduler.Inv, TimingWheel.Valid, NapsOk, Truthful;
      n, began, done := 0, 0, [];
      s.InKernelHolds();
      while n < |moves| && !(moves[n].Plain? && TooLate(moves[n].a, s.pc[s.current], s.locked, s.blocked))
        invariant Inv() && s.current in s.pc && n <= |moves| && |naps| + |done| == |old(naps)| + began
        invariant forall x :: x in done ==> Truthful(x)
      {
        var b, some := Step(moves[n]);
        s.InKernelHolds();
        n, began, done := n + 1, began + b, done + some;
      }
      NobodyOversleeps();
    }
  }

  lemma OneLess(naps: map<Pid, Nap>, c: Pid)
    requires c in naps
    ensures |naps - {c}| == |naps| - 1
  {
    assert (naps - {c}).Keys == naps.Keys - {c};
    assert |naps - {c}| == |(naps - {c}).Keys| && |naps| == |naps.Keys|;
  }

  lemma SameCount(a: map<Pid, Nap>, b: map<Pid, Nap>)
    requires a.Keys == b.Keys
    ensures |a| == |b|
  {
    assert |a| == |a.Keys| && |b| == |b.Keys|;
  }

  /** Each list holds, once, processes that are on it. */
  ghost predicate ListsOk(z: map<RendezId, seq<Pid>>, on: map<Pid, RendezId>) {
    forall r :: r in z ==> NoDup(z[r]) && forall p :: p in z[r] ==> p in on && on[p] == r
  }

  lemma ListedSleepers(x: Places)
    requires Placed(x, {})
    ensures ListsOk(x.rendez, x.on)
  {
    hide NoDup;
    forall r, p | r in x.rendez && p in x.rendez[r] ensures p in x.on && x.on[p] == r {
      assert SpotOf(x, {}, p) == Rendez(r);
    }
  }

  lemma ListsShorter(z: map<RendezId, seq<Pid>>, on: map<Pid, RendezId>, r: RendezId)
    requires ListsOk(z, on) && r in z && z[r] != []
    ensures ListsOk(z[r := z[r][1..]], on) && NoDup(z[r]) && z[r][0] in on && on[z[r][0]] == r
  {
    hide NoDup;
    HeadOk(z[r]);
    assert z[r][0] in z[r];
  }

  lemma RousedNone(naps: map<Pid, Nap>)
    ensures Roused(naps, []) == naps
  {
  }

  lemma RousedNext(naps: map<Pid, Nap>, ps: seq<Pid>, p: Pid)
    ensures Roused(naps, ps + [p]) == Moved(Roused(naps, ps), p, true)
  {
    assert (ps + [p])[..|ps|] == ps;
  }

  /** Wakeups of the given rendez, one after the other. */
  lemma {:induction false} AllWoke(rendez: map<RendezId, seq<Pid>>, on: map<Pid, RendezId>, pc: map<Pid, Pc>,
                                   timers: Timers, soft: nat, arg: map<Pid, RendezId>, naps: map<Pid, Nap>, wakes: seq<RendezId>)
    requires NapsOk(rendez, on, pc, timers, soft, arg, {}, naps) && ListsOk(rendez, on)
    ensures NapsOk(AfterWakes(rendez, wakes), on, pc, timers, soft, arg, {}, Roused(naps, Woken(rendez, wakes)))
    ensures ListsOk(AfterWakes(rendez, wakes), on)
    decreases |wakes|
  {
    hide NapsOk, ListsOk, Roused, Woken, AfterWakes, Moved;
    if wakes == [] {
      WokenNone(rendez);
      RousedNone(naps);
    } else {
      var front, r := wakes[..|wakes| - 1], wakes[|wakes| - 1];
      AllWoke(rendez, on, pc, timers, soft, arg, naps, front);
      WokenNext(rendez, wakes);
      var y := AfterWakes(rendez, front);
      if r in y && y[r] != [] {
        ListsShorter(y, on, r);
        Woke(y, on, pc, timers, soft, arg, Roused(naps, Woken(rendez, front)), r);
        RousedNext(naps, Woken(rendez, front), y[r][0]);
      } else {
        assert Woken(rendez, front) + [] == Woken(rendez, front);
      }
    }
  }

  lemma WokenFirst(z: map<RendezId, seq<Pid>>, r: RendezId)
    requires r in z
    ensures Woken(z, [r]) == z[r][..if z[r] == [] then 0 else 1]
    ensures AfterWakes(z, [r]) == z[r := z[r][if z[r] == [] then 0 else 1..]]
  {
    WokenNone(z);
    WokenNext(z, [r]);
    assert [r][..0] == [];
    assert z[r] == [] ==> z == z[r := []];
  }

  /** Waking everybody is waking one by one. */
  lemma {:induction false} WokenAll(z: map<RendezId, seq<Pid>>, r: RendezId, n: nat)
    requires r in z && n <= |z[r]|
    ensures Woken(z, seq(n, _ => r)) == z[r][..n] && AfterWakes(z, seq(n, _ => r)) == z[r := z[r][n..]]
  {
    hide Woken, AfterWakes;
    if n == 0 {
      WokenNone(z);
      assert z == z[r := z[r]];
    } else {
      var wakes := seq(n, _ => r);
      assert wakes[..n - 1] == seq(n - 1, _ => r);
      WokenAll(z, r, n - 1);
      WokenNext(z, wakes);
      assert z[r][..n] == z[r][..n - 1] + [z[r][n - 1]];
      assert z[r][n - 1..][1..] == z[r][n..];
    }
  }

  lemma StillNone(rendez: map<RendezId, seq<Pid>>, on: map<Pid, RendezId>)
    ensures Still(rendez, on, []) == []
  {
  }

  lemma StillNext(rendez: map<RendezId, seq<Pid>>, on: map<Pid, RendezId>, ps: seq<Pid>, p: Pid)
    ensures Still(rendez, on, ps + [p]) == Still(rendez, on, ps) + if Asleep(rendez, on, p) then [p] else []
  {
    assert (ps + [p])[..|ps|] == ps;
  }

  /** A timeout's effect on the record: a sleeper still asleep is moved by it, any other is not touched. */
  ghost predicate Called(rendez: map<RendezId, seq<Pid>>, on: map<Pid, RendezId>, p: Pid, before: Nap, after: Nap) {
    && after.moves == 1 && after.expiry == before.expiry
    && after == if Asleep(rendez, on, p) then before.(moves := 1, woken := false) else before
  }

  /** The timeouts of the processes in `done` have been dealt with, in that order. */
  ghost predicate CalledUpto(z0: map<RendezId, seq<Pid>>, on: map<Pid, RendezId>, naps0: map<Pid, Nap>, bkl0: seq<Pid>,
                             done: seq<Pid>, z: map<RendezId, seq<Pid>>, naps: map<Pid, Nap>, bkl: seq<Pid>) {
    && naps.Keys == naps0.Keys && z.Keys == z0.Keys && bkl == bkl0 + Still(z0, on, done)
    && (forall p :: p in naps && p in done ==> Called(z0, on, p, naps0[p], naps[p]))
    && (forall p :: p in naps && p !in done ==> naps[p] == naps0[p])
    && (forall p :: p !in done ==> (Asleep(z, on, p) <==> Asleep(z0, on, p)))
  }

  lemma CalledNone(z: map<RendezId, seq<Pid>>, on: map<Pid, RendezId>, naps: map<Pid, Nap>, bkl: seq<Pid>)
    ensures CalledUpto(z, on, naps, bkl, [], z, naps, bkl)
  {
    StillNone(z, on);
  }

  lemma CalledNext(z0: map<RendezId, seq<Pid>>, on: map<Pid, RendezId>, naps0: map<Pid, Nap>, bkl0: seq<Pid>,
                   done: seq<Pid>, z: map<RendezId, seq<Pid>>, naps: map<Pid, Nap>, bkl: seq<Pid>,
                   p: Pid, z': map<RendezId, seq<Pid>>, naps': map<Pid, Nap>, bkl': seq<Pid>)
    requires CalledUpto(z0, on, naps0, bkl0, done, z, naps, bkl) && p !in done && p in naps && p in naps'
    requires Called(z, on, p, naps[p], naps'[p]) && naps' == naps[p := naps'[p]] && z'.Keys == z.Keys
    requires bkl' == bkl + if Asleep(z, on, p) then [p] else []
    requires forall q :: q != p ==> (Asleep(z', on, q) <==> Asleep(z, on, q))
    ensures CalledUpto(z0, on, naps0, bkl0, done + [p], z', naps', bkl')
  {
    hide Asleep, Still;
    StillNext(z0, on, done, p);
    forall q | q in naps' && q in done + [p] ensures Called(z0, on, q, naps0[q], naps'[q]) {
      if q != p { assert q in done; }
    }
  }

  lemma CalledAll(z0: map<RendezId, seq<Pid>>, on: map<Pid, RendezId>, naps0: map<Pid, Nap>, bkl0: seq<Pid>,
                  done: seq<Pid>, z: map<RendezId, seq<Pid>>, naps: map<Pid, Nap>, bkl: seq<Pid>)
    requires CalledUpto(z0, on, naps0, bkl0, done, z, naps, bkl) && Members(done) <= naps.Keys
    ensures naps.Keys == naps0.Keys && z.Keys == z0.Keys && bkl == bkl0 + Still(z0, on, done)
    ensures forall p :: p in done ==> p in naps && Called(z0, on, p, naps0[p], naps[p])
    ensures forall p :: p in naps && p !in done ==> naps[p] == naps0[p]
  {
    hide Called, Still, Asleep;
    forall p | p in done ensures p in naps { assert p in Members(done); }
  }

  lemma OthersAsleep(rendez: map<RendezId, seq<Pid>>, on: map<Pid, RendezId>, r: RendezId, p: Pid)
    requires r in rendez && NoDup(rendez[r])
    ensures forall z :: z != p ==>
              (Asleep(rendez[r := Without(rendez[r], p)], on, z) <==> Asleep(rendez, on, z))
  {
    hide NoDup, Without;
    WithoutOk(rendez[r], p);
  }

  lemma SleepersSleep(x: Places, owner: Option<Pid>, pc: map<Pid, Pc>, current: Pid, p: Pid)
    requires Placed(x, {}) && Control(x, owner, pc, current)
    requires p in x.on && x.on[p] in x.rendez && p in x.rendez[x.on[p]]
    ensures p in x.state && x.state[p] == RENDEZ_BLOCKED && pc[p] == InSleep && p != current
  {
    assert SpotOf(x, {}, p) == Rendez(x.on[p]);
  }

  lemma WakeUp(rendez: map<RendezId, seq<Pid>>, on: map<Pid, RendezId>, pc: map<Pid, Pc>, timers: Timers, soft: nat,
               arg: map<Pid, RendezId>, naps: map<Pid, Nap>, c: Pid)
    requires NapsOk(rendez, on, pc, timers, soft, arg, {}, naps) && c in naps && !Asleep(rendez, on, c)
    ensures c in pc && pc[c] == InSleep && naps[c].moves == 1
    ensures c in timers ==> naps[c].woken && timers[c] == naps[c].expiry
    ensures c !in timers ==> naps[c].expiry < soft
    ensures NapsOk(rendez, on, pc[c := InKernel], timers - {c}, soft, arg, {}, naps - {c})
  {
  }

  /** The first sleeper of a rendez is woken. */
  lemma Woke(rendez: map<RendezId, seq<Pid>>, on: map<Pid, RendezId>, pc: map<Pid, Pc>, timers: Timers, soft: nat,
             arg: map<Pid, RendezId>, naps: map<Pid, Nap>, r: RendezId)
    requires NapsOk(rendez, on, pc, timers, soft, arg, {}, naps)
    requires r in rendez && rendez[r] != [] && NoDup(rendez[r]) && rendez[r][0] in on && on[rendez[r][0]] == r
    ensures NapsOk(rendez[r := rendez[r][1..]], on, pc, timers, soft, arg, {}, Moved(naps, rendez[r][0], true))
  {
    hide NoDup;
    HeadOk(rendez[r]);
  }

  lemma TimesUp(rendez: map<RendezId, seq<Pid>>, on: map<Pid, RendezId>, pc: map<Pid, Pc>, timers: Timers, soft: nat,
                arg: map<Pid, RendezId>, naps: map<Pid, Nap>, fired: seq<Pid>)
    requires NapsOk(rendez, on, pc, timers, soft, arg, {}, naps)
    requires (forall t :: t in timers ==> soft <= timers[t]) && forall p :: p in fired <==> p in timers && timers[p] == soft
    ensures NapsOk(rendez, on, pc, Later(timers, soft), soft + 1, arg, Members(fired), naps)
    ensures forall p :: p in fired ==> p in naps && naps[p].expiry == soft
  {
  }

  lemma DueKnown(rendez: map<RendezId, seq<Pid>>, on: map<Pid, RendezId>, pc: map<Pid, Pc>, timers: Timers, soft: nat,
                 arg: map<Pid, RendezId>, due: set<Pid>, naps: map<Pid, Nap>)
    requires NapsOk(rendez, on, pc, timers, soft, arg, due, naps)
    ensures forall p :: p in due ==> p in naps && p in pc && p in arg && arg[p] in rendez
    ensures forall p :: p in due && Asleep(rendez, on, p) ==> on[p] == arg[p]
  {
  }

  lemma Expired(rendez: map<RendezId, seq<Pid>>, on: map<Pid, RendezId>, pc: map<Pid, Pc>, timers: Timers, soft: nat,
                arg: map<Pid, RendezId>, due: set<Pid>, naps: map<Pid, Nap>, p: Pid)
    requires NapsOk(rendez, on, pc, timers, soft, arg, due, naps)
    requires p in due && Asleep(rendez, on, p) && NoDup(rendez[on[p]])
    ensures p in naps && p in arg && arg[p] in rendez && Moved(naps, p, false) == naps[p := Moved(naps, p, false)[p]]
    ensures Moved(naps, p, false)[p] == naps[p].(moves := 1, woken := false)
    ensures NapsOk(rendez[arg[p] := Without(rendez[arg[p]], p)], on, pc, timers, soft, arg, due - {p}, Moved(naps, p, false))
  {
    hide NoDup, Without;
    WithoutOk(rendez[on[p]], p);
  }

  lemma CameLate(rendez: map<RendezId, seq<Pid>>, on: map<Pid, RendezId>, pc: map<Pid, Pc>, timers: Timers, soft: nat,
                 arg: map<Pid, RendezId>, due: set<Pid>, naps: map<Pid, Nap>, p: Pid)
    requires NapsOk(rendez, on, pc, timers, soft, arg, due, naps) && p in due && !Asleep(rendez, on, p)
    ensures p in naps && naps[p].moves == 1
    ensures NapsOk(rendez, on, pc, timers, soft, arg, due - {p}, naps)
  {
  }

  lemma Outsider(rendez: map<RendezId, seq<Pid>>, on: map<Pid, RendezId>, pc: map<Pid, Pc>, timers: Timers, soft: nat,
                 arg: map<Pid, RendezId>, naps: map<Pid, Nap>, c: Pid)
    requires NapsOk(rendez, on, pc, timers, soft, arg, {}, naps) && c in pc
    ensures pc[c] != InSleep || c !in naps ==>
              && c !in naps
              && NapsOk(rendez, on, pc[c := User], timers, soft, arg, {}, naps)
              && NapsOk(rendez, on, pc[c := InKernel], timers, soft, arg, {}, naps)
              && NapsOk(rendez, on, pc[c := InLock], timers, soft, arg, {}, naps)
              && NapsOk(rendez, on, pc[c := Testing], timers, soft, arg, {}, naps)
              && NapsOk(rendez, on, pc[c := Leaving], timers, soft, arg, {}, naps)
              && NapsOk(rendez, on, pc[c := Exited], timers, soft, arg, {}, naps)
  {
  }

  lemma NewOutsider(rendez: map<RendezId, seq<Pid>>, on: map<Pid, RendezId>, pc: map<Pid, Pc>, timers: Timers, soft: nat,
                    arg: map<Pid, RendezId>, naps: map<Pid, Nap>, c: Pid)
    requires NapsOk(rendez, on, pc, timers, soft, arg, {}, naps) && c !in pc
    ensures NapsOk(rendez, on, pc[c := User], timers, soft, arg, {}, naps)
  {
  }

  lemma GoneOutsider(rendez: map<RendezId, seq<Pid>>, on: map<Pid, RendezId>, pc: map<Pid, Pc>, timers: Timers, soft: nat,
                     arg: map<Pid, RendezId>, naps: map<Pid, Nap>, c: Pid)
    requires NapsOk(rendez, on, pc, timers, soft, arg, {}, naps) && c in pc && pc[c] == Exited
    ensures NapsOk(rendez, on, pc - {c}, timers, soft, arg, {}, naps)
  {
  }

  lemma SleepsToo(rendez: map<RendezId, seq<Pid>>, on: map<Pid, RendezId>, pc: map<Pid, Pc>, timers: Timers, soft: nat,
                  arg: map<Pid, RendezId>, naps: map<Pid, Nap>, c: Pid, r: RendezId)
    requires NapsOk(rendez, on, pc, timers, soft, arg, {}, naps)
    requires c in pc && pc[c] == InKernel && r in rendez && !Asleep(rendez, on, c)
    ensures NapsOk(rendez[r := rendez[r] + [c]], on[c := r], pc[c := InSleep], timers, soft, arg, {}, naps)
  {
  }

  lemma FallAsleep(rendez: map<RendezId, seq<Pid>>, on: map<Pid, RendezId>, pc: map<Pid, Pc>, timers: Timers, soft: nat,
                   arg: map<Pid, RendezId>, naps: map<Pid, Nap>, c: Pid, r: RendezId, expiry: nat)
    requires NapsOk(rendez, on, pc, timers, soft, arg, {}, naps)
    requires c in pc && c !in naps && r in rendez && !Asleep(rendez, on, c)
    ensures NapsOk(rendez[r := rendez[r] + [c]], on[c := r], pc[c := InSleep], timers[c := expiry], soft,
                   arg[c := r], {}, naps[c := Nap(r, expiry, 0, false)])
  {
  }

  // ---------------------------------------------------------------------
  // A run.

  lemma {:induction false} StillEmpty(rendez: map<RendezId, seq<Pid>>, on: map<Pid, RendezId>, ps: seq<Pid>)
    requires forall p :: p in ps ==> !Asleep(rendez, on, p)
    ensures Still(rendez, on, ps) == []
    decreases |ps|
  {
    if ps != [] {
      StillEmpty(rendez, on, ps[..|ps| - 1]);
    }
  }

  lemma RousedOne(naps: map<Pid, Nap>, p: Pid)
    requires p in naps
    ensures Roused(naps, [p]) == naps[p := naps[p].(moves := naps[p].moves + 1, woken := true)]
  {
    RousedNone(naps);
    assert [] + [p] == [p];
    RousedNext(naps, [], p);
  }

  /** What process 3 sleeps on. */
  const POST := Cond(2)

  /** What stays the same in the runs below. */
  ghost predicate Stage(k: TimedKernel)
    reads k, k.s, k.w
  {
    && k.Inv() && k.timer == 1 && k.timerRendez == CLOCK && k.s.idle == 2
    && k.s.prio == map[0 := 16, 1 := 31, 2 := 0, 3 := 16] && AllRoundRobin(k.s.policy, {0, 1, 3})
  }

  /** Root is in the kernel and has forked process 3. */
  method Booted() returns (k: TimedKernel)
    ensures fresh(k) && fresh(k.s) && fresh(k.w) && Stage(k) && k.s.current == 0 && k.s.blocked == []
    ensures k.naps == map[] && k.w.Armed() == map[] && k.w.hard == k.w.soft == 0
    ensures k.s.rendez == map[DOOR := [], CLOCK := [], POST := []]
    ensures k.s.pc == map[0 := InKernel, 1 := User, 2 := User, 3 := User] && Lines(k.s.queue, [0, 3], [1])
  {
    hide Scheduler.Inv, TimingWheel.Valid, NapsOk, Lines;
    var s := RootForks({DOOR, CLOCK, POST});
    assert s.rendez == map[DOOR := [], CLOCK := [], POST := []];
    var w := new TimingWheel();
    k := new TimedKernel(s, w, 1, CLOCK);
  }

  lemma FreeNow(k: TimedKernel)
    requires k.Inv()
    ensures k.s.locked <==> k.s.owner.Some?
  {
    k.s.Freely();
  }

  /** Root sleeps until the next tick, and the timer process runs. */
  method RootNaps() returns (k: TimedKernel)
    ensures fresh(k) && fresh(k.s) && fresh(k.w) && Stage(k) && k.s.current == 1 && !k.s.locked && k.s.blocked == []
    ensures k.naps == map[0 := Nap(DOOR, 0, 0, false)] && k.w.Armed() == map[0 := 0] && k.w.hard == k.w.soft == 0
    ensures k.s.rendez == map[DOOR := [0], CLOCK := [], POST := []] && 0 in k.s.on && k.s.on[0] == DOOR
    ensures k.s.pc == map[0 := InSleep, 1 := User, 2 := User, 3 := User] && Lines(k.s.queue, [3], [1])
  {
    hide Spin, TimedKernel.Inv, MostUrgent, Lines, Chosen, Turned, Parted;
    k := Booted();
    Spins(3, 0, 0);
    assert [0, 3][1..] == [3];
    LinesStopped(k.s.queue, [0, 3], [1], k.s.prio, k.s.policy, 0, 2, [3], [1]);
    AloneOn(k.s.rendez, DOOR, 0);
    k.TaskTimedSleep(DOOR, 0);
    assert k.s.rendez == map[DOOR := [0], CLOCK := [], POST := []];
    FreeNow(k);
  }

  /**
    The clock ticks when the timer process is in the kernel on its way to sleep. It sleeps, behind the
    clock, and root, whose time is up, sleeps on until another tick.
   */
  method ExtraJiffyRun() returns (k: TimedKernel)
    ensures k.Inv() && k.s.rendez == map[DOOR := [0], CLOCK := [k.timer], POST := []] && k.timerRendez == CLOCK
    ensures k.w.soft < k.w.hard && 0 in k.naps && k.naps[0].moves == 0 && k.naps[0].expiry < k.w.hard
  {
    hide TimedKernel.Inv, Lines, Chosen, Turned, Parted, Roused;
    k := RootNaps();
    k.PlainEntry();
    RousedNone(k.naps);
    k.TimerInterrupt();
    AloneOn(k.s.rendez, CLOCK, 1);
    k.PlainSleep(CLOCK);
    assert k.s.rendez == map[DOOR := [0], CLOCK := [1], POST := []];
  }

  /** The timer process enters the kernel and sleeps, and process 3 runs. */
  method ChildAwake() returns (k: TimedKernel)
    ensures fresh(k) && fresh(k.s) && fresh(k.w) && Stage(k) && k.s.current == 3 && !k.s.locked && k.s.blocked == []
    ensures k.naps == map[0 := Nap(DOOR, 0, 0, false)] && k.w.Armed() == map[0 := 0] && k.w.hard == k.w.soft == 0
    ensures k.s.rendez == map[DOOR := [0], CLOCK := [1], POST := []] && 0 in k.s.on && k.s.on[0] == DOOR
    ensures k.s.pc == map[0 := InSleep, 1 := InSleep, 2 := User, 3 := User] && Lines(k.s.queue, [3], [])
  {
    hide Spin, TimedKernel.Inv, MostUrgent, Lines, Chosen, Turned, Parted;
    k := RootNaps();
    k.PlainEntry();
    Spins(0, 0, 0);
    assert [1][1..] == [];
    LinesStopped(k.s.queue, [3], [1], k.s.prio, k.s.policy, 1, 2, [3], []);
    AloneOn(k.s.rendez, CLOCK, 1);
    k.PlainSleep(CLOCK);
    assert k.s.rendez == map[DOOR := [0], CLOCK := [1], POST := []];
    FreeNow(k);
  }

  method ChildInside() returns (k: TimedKernel)
    ensures fresh(k) && fresh(k.s) && fresh(k.w) && Stage(k) && k.s.current == 3 && k.s.locked && k.s.blocked == []
    ensures k.naps == map[0 := Nap(DOOR, 0, 0, false)] && k.w.Armed() == map[0 := 0] && k.w.hard == k.w.soft == 0
    ensures k.s.rendez == map[DOOR := [0], CLOCK := [1], POST := []] && 0 in k.s.on && k.s.on[0] == DOOR
    ensures k.s.pc == map[0 := InSleep, 1 := InSleep, 2 := User, 3 := InKernel] && Lines(k.s.queue, [3], [])
  {
    hide TimedKernel.Inv, Lines;
    k := ChildAwake();
    k.PlainEntry();
  }

  /** Process 3 enters the kernel, and the clock ticks. */
  method ClockTicked() returns (k: TimedKernel)
    ensures fresh(k) && fresh(k.s) && fresh(k.w) && Stage(k) && k.s.current == 3 && k.s.blocked == [1]
    ensures k.naps == map[0 := Nap(DOOR, 0, 0, false)] && k.w.Armed() == map[0 := 0] && k.w.hard == 1 && k.w.soft == 0
    ensures k.s.rendez == map[DOOR := [0], CLOCK := [], POST := []] && 0 in k.s.on && k.s.on[0] == DOOR
    ensures k.s.pc == map[0 := InSleep, 1 := InSleep, 2 := User, 3 := InKernel] && Lines(k.s.queue, [3], [])
  {
    hide TimedKernel.Inv, Lines, Roused, Moved;
    k := ChildInside();
    RousedStranger(k.naps, 1);
    assert [1][..1] == [1] && [1][1..] == [];
    k.TimerInterrupt();
    assert k.s.rendez == map[DOOR := [0], CLOCK := [], POST := []];
  }

  lemma RousedStranger(naps: map<Pid, Nap>, p: Pid)
    requires p !in naps
    ensures Roused(naps, [p]) == naps
  {
    RousedNone(naps);
    assert [] + [p] == [p];
    RousedNext(naps, [], p);
  }

  /** Process 3 wakes root. */
  method RootWoken() returns (k: TimedKernel)
    ensures fresh(k) && fresh(k.s) && fresh(k.w) && Stage(k) && k.s.current == 3 && k.s.blocked == [1, 0]
    ensures k.naps == map[0 := Nap(DOOR, 0, 1, true)] && k.w.Armed() == map[0 := 0] && k.w.hard == 1 && k.w.soft == 0
    ensures k.s.rendez == map[DOOR := [], CLOCK := [], POST := []] && 0 in k.s.on && k.s.on[0] == DOOR
    ensures k.s.pc == map[0 := InSleep, 1 := InSleep, 2 := User, 3 := InKernel] && Lines(k.s.queue, [3], [])
  {
    hide TimedKernel.Inv, Lines, Roused;
    k := ClockTicked();
    InsideLocked(k);
    RousedOne(k.naps, 0);
    assert [0][..1] == [0] && [0][1..] == [] && [1] + [0] == [1, 0];
    k.Wakeup(DOOR);
    assert k.s.rendez == map[DOOR := [], CLOCK := [], POST := []];
  }

  lemma InsideLocked(k: TimedKernel)
    requires k.Inv() && k.s.current in k.s.pc && k.s.pc[k.s.current] == InKernel
    ensures k.s.locked
  {
    k.s.InKernelHolds();
  }

  /** It sleeps, and the timer process, first to get the lock, runs. */
  method TimerAwake() returns (k: TimedKernel)
    ensures fresh(k) && fresh(k.s) && fresh(k.w) && Stage(k) && k.s.current == 1 && k.s.blocked == [0]
    ensures k.naps == map[0 := Nap(DOOR, 0, 1, true)] && k.w.Armed() == map[0 := 0] && k.w.hard == 1 && k.w.soft == 0
    ensures k.s.rendez == map[DOOR := [], CLOCK := [], POST := [3]] && 0 in k.s.on && k.s.on[0] == DOOR
    ensures k.s.pc == map[0 := InSleep, 1 := InSleep, 2 := User, 3 := InSleep] && Lines(k.s.queue, [], [1])
  {
    hide Spin, TimedKernel.Inv, MostUrgent, Lines, Chosen, Turned, Parted, Joined;
    k := RootWoken();
    LinesJoined(k.s.queue, [3], [], k.s.prio, 1);
    Spins(0, 0, 0);
    assert [] + [1] == [1] && [3][1..] == [];
    LinesStopped(Joined(k.s.queue, k.s.prio, 1), [3], [1], k.s.prio, k.s.policy, 3, 2, [], [1]);
    AloneOn(k.s.rendez, POST, 3);
    k.PlainSleep(POST);
    assert k.s.rendez == map[DOOR := [], CLOCK := [], POST := [3]];
  }

  /** Root's timer goes off. */
  method RootDue() returns (k: TimedKernel)
    ensures fresh(k) && fresh(k.s) && fresh(k.w) && Stage(k) && k.s.current == 1 && k.s.blocked == [0] && k.w.soft == 1
    ensures k.naps == map[0 := Nap(DOOR, 0, 1, true)] && CLOCK in k.s.rendez
    ensures k.s.pc == map[0 := InSleep, 1 := InKernel, 2 := User, 3 := InSleep] && Lines(k.s.queue, [], [1])
  {
    hide TimedKernel.Inv, Lines, Still;
    k := TimerAwake();
    NotTimed(k, 1);
    k.PlainReturn();
    ghost var z := k.s.rendez;
    var fired := k.Tick();
    StillEmpty(z, k.s.on, fired);
  }

  lemma NotTimed(k: TimedKernel, p: Pid)
    requires k.Inv() && p !in k.naps
    ensures p !in k.timed
  {
  }

  /** The timer process sleeps, and root runs: it was woken before its timer went off, and is told that it timed out. */
  method WokenYetTimedOutRun() returns (err: Option<Errno>, ghost nap: Nap)
    ensures err == Some(ETIMEDOUT) && nap.woken && nap.moves == 1
  {
    hide Spin, Scheduler.Inv, TimingWheel.Valid, NapsOk, MostUrgent, Lines, Chosen, Turned, Parted, Joined;
    var k := RootDue();
    LinesJoined(k.s.queue, [], [1], k.s.prio, 0);
    Spins(0, 0, 0);
    assert [] + [0] == [0] && [1][1..] == [];
    LinesStopped(Joined(k.s.queue, k.s.prio, 0), [0], [1], k.s.prio, k.s.policy, 1, 2, [0], []);
    k.PlainSleep(CLOCK);
    nap := k.naps[0];
    err := k.Return();
  }
}
