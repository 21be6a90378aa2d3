/**
  Message ports: a client puts a message on a server's port and waits on its own reply port; the
  server takes the message into a slot of the port's backlog, and by replying to the slot's number
  moves it to the reply port of the client that sent it.
 */
module Messages {
  import opened Core
  import opened Lists

  type MsgId = nat
  type PortId = nat

  const MAX_MSG_BACKLOG := 32

  /** The one place a message is. */
  datatype Loc = Pending(q: PortId) | Slot(q: PortId, i: nat) | Replied(p: Pid)

  type Locs = map<MsgId, Loc>

  /** The lists of ports, the backlog tables, and the lists of reply ports. */
  datatype Mail = Mail(
    port: map<PortId, seq<MsgId>>,
    slot: map<PortId, seq<Option<MsgId>>>,
    reply: map<Pid, seq<MsgId>>)

  ghost predicate PortsOk(x: Mail, loc: Locs) {
    && (forall q :: q in x.port ==> NoDup(x.port[q]))
    && (forall q, m :: q in x.port ==> (m in x.port[q] <==> m in loc && loc[m] == Pending(q)))
    && (forall m :: m in loc && loc[m].Pending? ==> loc[m].q in x.port)
  }

  ghost predicate SlotsOk(x: Mail, loc: Locs) {
    && (forall q :: q in x.slot ==> |x.slot[q]| == 32)
    && (forall q, i, m :: q in x.slot && 0 <= i < 32 ==> (x.slot[q][i] == Some(m) <==> m in loc && loc[m] == Slot(q, i)))
    && (forall m :: m in loc && loc[m].Slot? ==> loc[m].q in x.slot && loc[m].i < 32)
  }

  ghost predicate RepliesOk(x: Mail, loc: Locs) {
    && (forall p :: p in x.reply ==> NoDup(x.reply[p]))
    && (forall p, m :: p in x.reply ==> (m in x.reply[p] <==> m in loc && loc[m] == Replied(p)))
    && (forall m :: m in loc && loc[m].Replied? ==> loc[m].p in x.reply)
  }

  /** Every message is in exactly the place its location says. */
  ghost predicate Delivered(x: Mail, loc: Locs) {
    PortsOk(x, loc) && SlotsOk(x, loc) && RepliesOk(x, loc) && x.slot.Keys == x.port.Keys
  }

  /** Every message is on one port, in one slot or on one reply port, and there once. */
  lemma ExactlyOnce(x: Mail, loc: Locs, m: MsgId)
    requires Delivered(x, loc) && m in loc
    ensures forall q :: q in x.port ==> multiset(x.port[q])[m] == if loc[m] == Pending(q) then 1 else 0
    ensures forall q, i :: q in x.slot && 0 <= i < 32 ==> (x.slot[q][i] == Some(m) <==> loc[m] == Slot(q, i))
    ensures forall p :: p in x.reply ==> multiset(x.reply[p])[m] == if loc[m] == Replied(p) then 1 else 0
    ensures match loc[m]
            case Pending(q) => q in x.port
            case Slot(q, i) => q in x.slot && i < 32
            case Replied(p) => p in x.reply
  {
    hide NoDup;
    forall q | q in x.port ensures multiset(x.port[q])[m] == if loc[m] == Pending(q) then 1 else 0 {
      Once(x.port[q], m);
    }
    forall p | p in x.reply ensures multiset(x.reply[p])[m] == if loc[m] == Replied(p) then 1 else 0 {
      Once(x.reply[p], m);
    }
  }

  // ---------------------------------------------------------------------
  // Moves.

  ghost function Put(x: Mail, m: MsgId, q: PortId): Mail
    requires q in x.port
  {
    x.(port := x.port[q := x.port[q] + [m]])
  }

  lemma Sent(x: Mail, loc: Locs, m: MsgId, q: PortId)
    requires Delivered(x, loc) && m !in loc && q in x.port
    ensures Delivered(Put(x, m, q), loc[m := Pending(q)])
  {
    hide NoDup;
    TailOk(x.port[q], m);
    assert PortsOk(Put(x, m, q), loc[m := Pending(q)]);
    assert SlotsOk(Put(x, m, q), loc[m := Pending(q)]) by { hide PortsOk, RepliesOk; }
    assert RepliesOk(Put(x, m, q), loc[m := Pending(q)]) by { hide PortsOk, SlotsOk; }
  }

  ghost function Take(x: Mail, q: PortId, t: nat): Mail
    requires q in x.port && x.port[q] != [] && q in x.slot && t < |x.slot[q]|
  {
    x.(port := x.port[q := x.port[q][1..]], slot := x.slot[q := x.slot[q][t := Some(x.port[q][0])]])
  }

  lemma Taken(x: Mail, loc: Locs, q: PortId, t: nat)
    requires Delivered(x, loc) && q in x.port && x.port[q] != [] && t < 32 && x.slot[q][t] == None
    ensures x.port[q][0] in loc && loc[x.port[q][0]] == Pending(q)
    ensures Delivered(Take(x, q, t), loc[x.port[q][0] := Slot(q, t)])
  {
    hide NoDup, PortsOk, SlotsOk, RepliesOk, Take;
    MailKeys(x, loc);
    TakenFromPort(x, loc, q, t);
    TakenToSlot(x, loc, q, t);
    RepliesKept(x, loc, Take(x, q, t), loc[x.port[q][0] := Slot(q, t)], x.port[q][0]) by { TakeIs(x, q, t); }
    TakeIs(x, q, t);
  }

  lemma TakenFromPort(x: Mail, loc: Locs, q: PortId, t: nat)
    requires PortsOk(x, loc) && q in x.port && x.port[q] != [] && q in x.slot && t < |x.slot[q]|
    ensures x.port[q][0] in loc && loc[x.port[q][0]] == Pending(q)
    ensures PortsOk(Take(x, q, t), loc[x.port[q][0] := Slot(q, t)])
  {
    hide NoDup;
    HeadOk(x.port[q]);
    assert x.port[q][0] in x.port[q];
  }

  lemma TakenToSlot(x: Mail, loc: Locs, q: PortId, t: nat)
    requires SlotsOk(x, loc) && q in x.port && x.port[q] != [] && q in x.slot && t < 32 && x.slot[q][t] == None
    requires x.port[q][0] in loc && loc[x.port[q][0]] == Pending(q)
    ensures SlotsOk(Take(x, q, t), loc[x.port[q][0] := Slot(q, t)])
  {
  }

  /** A message that is on no reply port before and after leaves them as they are. */
  lemma RepliesKept(x: Mail, loc: Locs, x': Mail, loc': Locs, m: MsgId)
    requires RepliesOk(x, loc) && x'.reply == x.reply
    requires m in loc && m in loc' && !loc[m].Replied? && loc' == loc[m := loc'[m]] && !loc'[m].Replied?
    ensures RepliesOk(x', loc')
  {
    hide NoDup;
  }

  lemma TakeIs(x: Mail, q: PortId, t: nat)
    requires q in x.port && x.port[q] != [] && q in x.slot && t < |x.slot[q]|
    ensures Take(x, q, t) == Mail(x.port[q := x.port[q][1..]], x.slot[q := x.slot[q][t := Some(x.port[q][0])]], x.reply)
  {
  }

  ghost function Answer(x: Mail, q: PortId, t: nat, p: Pid): Mail
    requires q in x.slot && t < |x.slot[q]| && x.slot[q][t].Some? && p in x.reply
  {
    x.(slot := x.slot[q := x.slot[q][t := None]], reply := x.reply[p := x.reply[p] + [x.slot[q][t].value]])
  }

  lemma Answered(x: Mail, loc: Locs, q: PortId, t: nat, p: Pid)
    requires Delivered(x, loc) && q in x.slot && t < 32 && x.slot[q][t].Some? && p in x.reply
    ensures Delivered(Answer(x, q, t, p), loc[x.slot[q][t].value := Replied(p)])
  {
    hide NoDup;
    var m := x.slot[q][t].value;
    TailOk(x.reply[p], m);
    assert PortsOk(Answer(x, q, t, p), loc[m := Replied(p)]) by { hide RepliesOk; }
    assert SlotsOk(Answer(x, q, t, p), loc[m := Replied(p)]) by { hide PortsOk, RepliesOk; }
    assert RepliesOk(Answer(x, q, t, p), loc[m := Replied(p)]) by { hide PortsOk; }
  }

  ghost function Finish(x: Mail, p: Pid): Mail
    requires p in x.reply && x.reply[p] != []
  {
    x.(reply := x.reply[p := x.reply[p][1..]])
  }

  lemma Finished(x: Mail, loc: Locs, p: Pid)
    requires Delivered(x, loc) && p in x.reply && x.reply[p] != []
    ensures x.reply[p][0] in loc && loc[x.reply[p][0]] == Replied(p)
    ensures Delivered(Finish(x, p), loc - {x.reply[p][0]})
  {
    hide NoDup;
    HeadOk(x.reply[p]);
    assert x.reply[p][0] in x.reply[p];
  }

  lemma MailKeys(x: Mail, loc: Locs)
    requires Delivered(x, loc)
    ensures x.slot.Keys == x.port.Keys && forall q :: q in x.slot ==> |x.slot[q]| == 32
  {
  }

  lemma InSlot(x: Mail, loc: Locs, q: PortId, t: nat)
    requires Delivered(x, loc) && q in x.slot && t < 32 && x.slot[q][t].Some?
    ensures x.slot[q][t].value in loc && loc[x.slot[q][t].value] == Slot(q, t)
  {
  }

  // ---------------------------------------------------------------------

  /** The free bits of a backlog of `size` against its table. */
  ghost predicate BacklogOk(size: nat, free: set<nat>, slot: seq<Option<MsgId>>) {
    && size <= MAX_MSG_BACKLOG && |slot| == MAX_MSG_BACKLOG
    && (forall i :: i in free ==> i < size)
    && (forall i :: 0 <= i < |slot| ==> (slot[i].Some? <==> i < size && i !in free))
  }

  /** The bits a backlog of `n` starts with. */
  function FirstBits(n: nat): (bits: set<nat>)
    ensures forall i :: i in bits <==> 0 <= i < n
  {
    if n == 0 then {} else FirstBits(n - 1) + {n - 1}
  }

  ghost predicate BacklogsOk(size: map<PortId, nat>, free: map<PortId, set<nat>>, slot: map<PortId, seq<Option<MsgId>>>) {
    && free.Keys == slot.Keys && size.Keys == slot.Keys
    && forall q :: q in slot ==> BacklogOk(size[q], free[q], slot[q])
  }

  /** Filling a free slot, or emptying a full one, together with its bit. */
  lemma SlotSet(size: map<PortId, nat>, free: map<PortId, set<nat>>, slot: map<PortId, seq<Option<MsgId>>>,
                q: PortId, t: nat, v: Option<MsgId>, bits: set<nat>)
    requires BacklogsOk(size, free, slot) && q in slot && t < size[q] && t < |slot[q]|
    requires bits == if v.Some? then free[q] - {t} else free[q] + {t}
    ensures BacklogsOk(size, free[q := bits], slot[q := slot[q][t := v]])
  {
    assert BacklogOk(size[q], bits, slot[q][t := v]);
  }

  lemma BacklogKnown(size: map<PortId, nat>, free: map<PortId, set<nat>>, slot: map<PortId, seq<Option<MsgId>>>, q: PortId)
    requires BacklogsOk(size, free, slot) && q in slot
    ensures q in size && q in free && size[q] <= 32 && |slot[q]| == 32
    ensures forall i :: i in free[q] ==> i < size[q] && slot[q][i] == None
    ensures forall i :: 0 <= i < size[q] && i !in free[q] ==> slot[q][i].Some?
  {
  }

  /** Who sent what: a client has at most one message under way, and nobody else's is on its reply port. */
  ghost predicate SendersOk(loc: Locs, sender: map<MsgId, Pid>, waiting: map<Pid, MsgId>, clients: set<Pid>) {
    && (forall m :: m in loc ==> m in sender && sender[m] in waiting && waiting[sender[m]] == m)
    && (forall p :: p in waiting ==> p in clients && waiting[p] in loc && waiting[p] in sender && sender[waiting[p]] == p)
    && (forall m :: m in loc && loc[m].Replied? ==> loc[m].p == sender[m])
  }

  lemma SenderAdded(loc: Locs, sender: map<MsgId, Pid>, waiting: map<Pid, MsgId>, clients: set<Pid>, p: Pid, m: MsgId, q: PortId)
    requires SendersOk(loc, sender, waiting, clients) && m !in loc && p !in waiting && p in clients
    ensures SendersOk(loc[m := Pending(q)], sender[m := p], waiting[p := m], clients)
  {
  }

  lemma SenderKept(loc: Locs, sender: map<MsgId, Pid>, waiting: map<Pid, MsgId>, clients: set<Pid>, m: MsgId, l: Loc)
    requires SendersOk(loc, sender, waiting, clients) && m in loc && (l.Replied? ==> l.p == sender[m])
    ensures SendersOk(loc[m := l], sender, waiting, clients)
  {
  }

  lemma SenderDone(loc: Locs, sender: map<MsgId, Pid>, waiting: map<Pid, MsgId>, clients: set<Pid>, p: Pid)
    requires SendersOk(loc, sender, waiting, clients) && p in waiting
    ensures SendersOk(loc - {waiting[p]}, sender, waiting - {p}, clients)
  {
  }

  /** A message on a reply port carries the status the server gave it. */
  ghost predicate StatusesOk(loc: Locs, status: map<MsgId, int>, given: map<MsgId, int>) {
    && loc.Keys <= status.Keys
    && forall m :: m in loc && loc[m].Replied? ==> m in given && status[m] == given[m]
  }

  /** The reply port of a client holds its own message or nothing. */
  lemma OwnReply(x: Mail, loc: Locs, sender: map<MsgId, Pid>, waiting: map<Pid, MsgId>, p: Pid)
    requires Delivered(x, loc) && SendersOk(loc, sender, waiting, x.reply.Keys) && p in x.reply
    ensures x.reply[p] == [] || (p in waiting && x.reply[p] == [waiting[p]])
  {
    hide NoDup;
    forall i | 0 <= i < |x.reply[p]| ensures p in waiting && x.reply[p][i] == waiting[p] {
      assert x.reply[p][i] in x.reply[p];
      assert loc[x.reply[p][i]] == Replied(p);
    }
    AllSame(x.reply[p]);
    assert x.reply[p] != [] ==> x.reply[p] == [x.reply[p][0]];
  }

  class MailRoom {
    var port: map<PortId, seq<MsgId>>
    var slot: map<PortId, seq<Option<MsgId>>>
    var free: map<PortId, set<nat>>
    var size: map<PortId, nat>
    var reply: map<Pid, seq<MsgId>>
    var sender: map<MsgId, Pid>
    var status: map<MsgId, int>
    ghost var loc: Locs
    var waiting: map<Pid, MsgId>
    ghost var given: map<MsgId, int>

    ghost function Boxes(): Mail
      reads `port, `slot, `reply
    {
      Mail(port, slot, reply)
    }

    ghost predicate Valid()
      reads this
    {
      && Delivered(Boxes(), loc) && BacklogsOk(size, free, slot)
      && SendersOk(loc, sender, waiting, reply.Keys) && StatusesOk(loc, status, given)
    }

    constructor (sizes: map<PortId, nat>, clients: set<Pid>)
      requires forall q :: q in sizes ==> sizes[q] <= 32
      ensures Valid() && port.Keys == sizes.Keys && size == sizes && reply.Keys == clients && waiting == map[]
      ensures forall q :: q in port ==> port[q] == []
    {
      port := map q | q in sizes :: [];
      slot := map q | q in sizes :: seq(32, _ => None);
      free := map q | q in sizes :: FirstBits(sizes[q]);
      size := sizes;
      reply := map p | p in clients :: [];
      sender, status, loc, waiting, given := map[], map[], map[], map[], map[];
    }

    lemma NewMessage(m: MsgId)
      requires Valid() && m !in sender
      ensures m !in loc
    {
    }

    /** The first half of ksendmsg: put a new message on a port. */
    method PutMsg(p: Pid, q: PortId, m: MsgId)
      requires Valid() && p in reply && p !in waiting && q in port && m !in loc
      modifies `port, `sender, `status, `loc, `waiting
      ensures Valid() && port == old(port)[q := old(port)[q] + [m]]
      ensures waiting == old(waiting)[p := m] && loc == old(loc)[m := Pending(q)] && sender == old(sender)[m := p]
    {
      hide Delivered, BacklogsOk, SendersOk;
      Sent(Boxes(), loc, m, q);
      SenderAdded(loc, sender, waiting, reply.Keys, p, m, q);
      sender, status := sender[m := p], status[m := 0];
      port := port[q := port[q] + [m]];
      loc, waiting := loc[m := Pending(q)], waiting[p := m];
    }

    /** The lowest free slot of a backlog, or none. */
    method AllocMsgid(q: PortId) returns (t: int)
      requires q in free && q in size && forall i :: i in free[q] ==> i < size[q]
      modifies `free
      ensures t == -1 <==> old(free)[q] == {}
      ensures t != -1 ==> t in old(free)[q] && (forall i :: i in old(free)[q] ==> t <= i)
      ensures t != -1 ==> free == old(free)[q := old(free)[q] - {t}]
      ensures t == -1 ==> free == old(free)
    {
      t := -1;
      if free[q] != {} {
        var i := 0;
        while i < size[q] && i !in free[q]
          invariant 0 <= i <= size[q] && forall k :: k in free[q] ==> i <= k
        {
          i := i + 1;
        }
        var k :| k in free[q];
        free := free[q := free[q] - {i}];
        t := i;
      }
    }

    /** Take the oldest message of a port into the lowest free slot. */
    method GetMsg(q: PortId) returns (r: Result<Option<nat>>)
      requires Valid() && q in port
      modifies `port, `slot, `free, `loc
      ensures Valid() && port.Keys == old(port.Keys)
      ensures q in old(free) && (r == Err(EAGAIN) <==> old(free)[q] == {})
      ensures r == Ok(None) <==> old(free)[q] != {} && old(port)[q] == []
      ensures r.Err? ==> r.error == EAGAIN
      ensures r.Err? || r == Ok(None) ==> port == old(port) && slot == old(slot) && free == old(free) && loc == old(loc)
      ensures r.Ok? && r.value.Some? ==> MessageTaken(old(port), old(free), old(loc), port, slot, loc, q, r.value.value)
    {
      hide Delivered, BacklogsOk, SendersOk;
      MailKeys(Boxes(), loc);
      BacklogKnown(size, free, slot, q);
      var t := AllocMsgid(q);
      if t < 0 {
        r := Err(EAGAIN);
      } else if port[q] == [] {
        free := free[q := free[q] + {t}];
        assert free[q] == old(free)[q];
        assert free == old(free);
        r := Ok(None);
      } else {
        FillSlot(q, t, old(free));
        r := Ok(Some(t));
      }
    }

    method FillSlot(q: PortId, t: nat, ghost bits: map<PortId, set<nat>>)
      requires Delivered(Boxes(), loc) && BacklogsOk(size, bits, slot) && q in port && port[q] != []
      requires SendersOk(loc, sender, waiting, reply.Keys) && StatusesOk(loc, status, given)
      requires q in bits && t in bits[q] && (forall i :: i in bits[q] ==> t <= i) && free == bits[q := bits[q] - {t}]
      modifies `port, `slot, `loc
      ensures Valid() && port.Keys == old(port.Keys)
      ensures MessageTaken(old(port), bits, old(loc), port, slot, loc, q, t)
    {
      hide Delivered, BacklogsOk, SendersOk, StatusesOk, Take;
      MailKeys(Boxes(), loc);
      BacklogKnown(size, bits, slot, q);
      Taken(Boxes(), loc, q, t);
      var m := port[q][0];
      SlotSet(size, bits, slot, q, t, Some(m), bits[q] - {t});
      SenderKept(loc, sender, waiting, reply.Keys, m, Slot(q, t));
      StatusKept(loc, status, given, m, Slot(q, t));
      TakeIs(Boxes(), q, t);
      port := port[q := port[q][1..]];
      slot := slot[q := slot[q][t := Some(m)]];
      loc := loc[m := Slot(q, t)];
    }

    /** Reply to the message in a slot: it goes to its sender's reply port, with the status given. */
    method ReplyMsg(q: PortId, msgid: int, st: int) returns (r: Result<MsgId>)
      requires Valid() && q in port
      modifies `slot, `free, `reply, `status, `loc, `given
      ensures Valid()
      ensures q in size && q in old(free) && (r.Ok? <==> 0 <= msgid < size[q] && msgid !in old(free)[q])
      ensures r.Err? ==> r.error == EINVAL && Boxes() == old(Boxes()) && free == old(free)
      ensures r.Err? ==> status == old(status) && loc == old(loc) && given == old(given)
      ensures r.Ok? ==> SlotAnswered(old(slot), old(free), old(reply), old(loc), slot, free, reply, loc, sender, q, msgid, r.value)
      ensures r.Ok? ==> given == old(given)[r.value := st]
    {
      hide Delivered, BacklogsOk, SendersOk, StatusesOk;
      MailKeys(Boxes(), loc);
      BacklogKnown(size, free, slot, q);
      if msgid < 0 || msgid >= size[q] || msgid in free[q] {
        r := Err(EINVAL);
      } else {
        var m := EmptySlot(q, msgid, st);
        r := Ok(m);
      }
    }

    method EmptySlot(q: PortId, t: nat, st: int) returns (m: MsgId)
      requires Valid() && q in slot && q in size && q in free && t < size[q]
      requires t !in free[q] && t < 32 && |slot[q]| == 32 && slot[q][t].Some?
      modifies `slot, `free, `reply, `status, `loc, `given
      ensures Valid() && given == old(given)[m := st]
      ensures SlotAnswered(old(slot), old(free), old(reply), old(loc), slot, free, reply, loc, sender, q, t, m)
    {
      hide Delivered, BacklogsOk, SendersOk, StatusesOk, Answer;
      m := slot[q][t].value;
      InSlot(Boxes(), loc, q, t);
      SenderIs(loc, sender, waiting, reply.Keys, m);
      var p := sender[m];
      Answered(Boxes(), loc, q, t, p);
      AnswerIs(Boxes(), q, t, p);
      SlotSet(size, free, slot, q, t, None, free[q] + {t});
      SenderKept(loc, sender, waiting, reply.Keys, m, Replied(p));
      StatusGiven(loc, status, given, m, p, st);
      status, given := status[m := st], given[m := st];
      reply := reply[p := reply[p] + [m]];
      free := free[q := free[q] + {t}];
      slot := slot[q := slot[q][t := None]];
      loc := loc[m := Replied(p)];
      assert reply.Keys == old(reply.Keys);
    }

    /** The second half of ksendmsg, when the reply port is no longer empty: the status given to this very message. */
    method FinishSend(p: Pid) returns (st: int)
      requires Valid() && p in waiting && p in reply && reply[p] != []
      modifies `reply, `loc, `waiting
      ensures Valid() && waiting == old(waiting) - {p} && reply == old(reply)[p := []]
      ensures loc == old(loc) - {old(waiting)[p]}
      ensures old(waiting)[p] in given && st == given[old(waiting)[p]]
    {
      hide Delivered, BacklogsOk, SendersOk;
      OwnReply(Boxes(), loc, sender, waiting, p);
      Finished(Boxes(), loc, p);
      SenderDone(loc, sender, waiting, reply.Keys, p);
      var m := reply[p][0];
      reply := reply[p := reply[p][1..]];
      st := status[m];
      loc, waiting := loc - {m}, waiting - {p};
      assert reply.Keys == old(reply.Keys);
    }
  }

  /** The oldest message of port `q` has moved to its lowest free slot `t`. */
  ghost predicate MessageTaken(port: map<PortId, seq<MsgId>>, free: map<PortId, set<nat>>, loc: Locs,
                               port': map<PortId, seq<MsgId>>, slot': map<PortId, seq<Option<MsgId>>>, loc': Locs, q: PortId, t: nat) {
    && q in port && port[q] != [] && port' == port[q := port[q][1..]]
    && q in free && t in free[q] && (forall i :: i in free[q] ==> t <= i)
    && q in slot' && t < |slot'[q]| && slot'[q][t] == Some(port[q][0])
    && loc' == loc[port[q][0] := Slot(q, t)]
  }

  /** Message `m` has moved from slot `t`, which is free again, to the reply port of its sender. */
  ghost predicate SlotAnswered(slot: map<PortId, seq<Option<MsgId>>>, free: map<PortId, set<nat>>, reply: map<Pid, seq<MsgId>>, loc: Locs,
                               slot': map<PortId, seq<Option<MsgId>>>, free': map<PortId, set<nat>>, reply': map<Pid, seq<MsgId>>, loc': Locs,
                               sender: map<MsgId, Pid>, q: PortId, t: nat, m: MsgId) {
    && q in slot && t < |slot[q]| && slot[q][t] == Some(m) && slot' == slot[q := slot[q][t := None]]
    && q in free && free' == free[q := free[q] + {t}]
    && m in sender && sender[m] in reply && reply' == reply[sender[m] := reply[sender[m]] + [m]]
    && loc' == loc[m := Replied(sender[m])]
  }

  lemma AnswerIs(x: Mail, q: PortId, t: nat, p: Pid)
    requires q in x.slot && t < |x.slot[q]| && x.slot[q][t].Some? && p in x.reply
    ensures Answer(x, q, t, p) == Mail(x.port, x.slot[q := x.slot[q][t := None]], x.reply[p := x.reply[p] + [x.slot[q][t].value]])
  {
  }

  lemma StatusKept(loc: Locs, status: map<MsgId, int>, given: map<MsgId, int>, m: MsgId, l: Loc)
    requires StatusesOk(loc, status, given) && m in loc && !l.Replied?
    ensures StatusesOk(loc[m := l], status, given)
  {
  }

  lemma StatusGiven(loc: Locs, status: map<MsgId, int>, given: map<MsgId, int>, m: MsgId, p: Pid, st: int)
    requires StatusesOk(loc, status, given)
    ensures StatusesOk(loc[m := Replied(p)], status[m := st], given[m := st])
  {
  }

  lemma SenderIs(loc: Locs, sender: map<MsgId, Pid>, waiting: map<Pid, MsgId>, clients: set<Pid>, m: MsgId)
    requires SendersOk(loc, sender, waiting, clients) && m in loc
    ensures m in sender && sender[m] in clients
  {
  }
}
