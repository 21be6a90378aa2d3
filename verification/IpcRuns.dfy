/** A run of the event queues from boot, which shows what an error in a call to kevent leaves behind. */
module IpcRuns {
  import opened Core
  import opened Placement
  import opened Scheduling
  import opened SchedulingRuns
  import opened Messages
  import opened KEvents
  import opened Ipc

  /** Root, in the kernel, with one kqueue. */
  method OneQueue() returns (sys: IpcSystem)
    ensures fresh(sys) && fresh(sys.s) && fresh(sys.ev) && sys.Inv() && sys.ev.s == sys.s && sys.ev.syscount == 1
    ensures sys.s.current == 0 && sys.s.pc == map[0 := InKernel, 1 := User, 2 := User] && sys.s.idle == 2
    ensures sys.at == map[] && sys.failed == {} && 0 in sys.ev.pend && sys.ev.busy == {}
    ensures sys.s.rendez == map[EventOf(0) := [], BusyOf(0) := []]
  {
    hide Scheduler.Inv, MailRoom.Valid, PendingOk, IndexOk, Heard, SceneOk, Lines;
    var s := RootEnters({EventOf(0), BusyOf(0)});
    assert s.rendez == map[EventOf(0) := [], BusyOf(0) := []];
    var mail := new MailRoom(map[], {});
    var ev := new EventQueues(s, {0}, {}, [], 1);
    sys := new IpcSystem(mail, ev);
  }

  /** Root asks for a filter that there is not, and is told so; the kqueue is busy and nobody holds it. */
  method FailedCall() returns (sys: IpcSystem)
    ensures fresh(sys) && fresh(sys.s) && fresh(sys.ev) && sys.Inv()
    ensures sys.s.current == 0 && sys.s.pc == map[0 := InKernel, 1 := User, 2 := User] && sys.s.idle == 2
    ensures sys.at == map[] && sys.failed == {0} && 0 in sys.ev.pend && 0 in sys.ev.busy
    ensures sys.s.rendez == map[EventOf(0) := [], BusyOf(0) := []]
  {
    hide IpcSystem.Inv;
    sys := OneQueue();
    sys.Begin(0);
    var mine := sys.Try(0);
    var err := sys.Change(0, Change(0, 1, false, false, false, false, false), None);
  }

  /** Root calls kevent again and sleeps for a kqueue that nobody will ever let go. */
  method StuckRun() returns (sys: IpcSystem)
    ensures sys.Inv() && sys.failed == {0} && BusyOf(0) in sys.s.rendez && sys.s.rendez[BusyOf(0)] == [0]
  {
    hide IpcSystem.Inv;
    sys := FailedCall();
    sys.Begin(0);
    var mine := sys.Try(0);
  }
}
