/**
  Kernel event queues: knotes watch an object (a message port, a vnode, an interrupt handler) for
  a kqueue, are found by hashing, and wait on the kqueue's pending list to be collected. An event
  wakes the process that sleeps on the kqueue's event rendez.
 */
module KEvents {
  import opened Core
  import opened Lists
  import opened Placement
  import opened Scheduling

  type KqId = nat
  type NoteId = nat

  datatype Obj = Port(q: nat) | Other(id: nat)

  datatype KNote = KNote(kq: KqId, ident: nat, filter: nat, oneshot: bool, obj: Option<Obj>,
                         enabled: bool, pending: bool, onList: bool)

  type Notes = map<NoteId, KNote>

  /** The filter fills the low eight bits. */
  function Hash(ident: nat, filter: nat): (h: nat)
    ensures h < 64
  {
    (ident * 256 + filter) % 64
  }

  predicate Matches(k: KNote, kq: KqId, ident: nat, filter: nat) {
    k.kq == kq && k.ident == ident && k.filter == filter
  }

  /** A knote is on its kqueue's pending list, once, iff it is enabled and pending. */
  ghost predicate PendingOk(notes: Notes, pend: map<KqId, seq<NoteId>>) {
    && (forall k :: k in pend ==> NoDup(pend[k]))
    && (forall k, n :: k in pend ==> (n in pend[k] <==> n in notes && notes[n].kq == k && notes[n].onList))
    && (forall n :: n in notes ==> notes[n].kq in pend && (notes[n].onList <==> notes[n].enabled && notes[n].pending))
  }

  ghost predicate AttachedOk(notes: Notes, att: map<Obj, seq<NoteId>>) {
    && (forall o :: o in att ==> NoDup(att[o]))
    && (forall o, n :: o in att ==> (n in att[o] <==> n in notes && notes[n].obj == Some(o)))
    && (forall n :: n in notes && notes[n].obj.Some? ==> notes[n].obj.value in att)
  }

  ghost predicate HashOk(notes: Notes, hash: seq<seq<NoteId>>) {
    && |hash| == 64
    && (forall h :: 0 <= h < 64 ==> NoDup(hash[h]))
    && (forall h, n :: 0 <= h < 64 ==> (n in hash[h] <==> n in notes && Hash(notes[n].ident, notes[n].filter) == h))
  }

  ghost predicate FreeOk(notes: Notes, spare: seq<NoteId>) {
    NoDup(spare) && forall n :: n in spare ==> n !in notes
  }

  ghost predicate Unique(notes: Notes) {
    forall n, z :: n in notes && z in notes && Matches(notes[n], notes[z].kq, notes[z].ident, notes[z].filter) ==> n == z
  }

  /** Only the flags of the event differ. */
  ghost predicate SameKeys(a: KNote, b: KNote) {
    a.kq == b.kq && a.ident == b.ident && a.filter == b.filter && a.obj == b.obj
  }

  /** Everything but the pending lists. */
  ghost predicate IndexOk(notes: Notes, att: map<Obj, seq<NoteId>>, hash: seq<seq<NoteId>>, spare: seq<NoteId>) {
    AttachedOk(notes, att) && HashOk(notes, hash) && FreeOk(notes, spare) && Unique(notes)
  }

  lemma IndexKept(notes: Notes, att: map<Obj, seq<NoteId>>, hash: seq<seq<NoteId>>, spare: seq<NoteId>, notes': Notes)
    requires IndexOk(notes, att, hash, spare) && notes'.Keys == notes.Keys
    requires forall n :: n in notes ==> SameKeys(notes[n], notes'[n])
    ensures IndexOk(notes', att, hash, spare)
  {
    hide NoDup, Hash;
  }

  lemma NoteListed(notes: Notes, pend: map<KqId, seq<NoteId>>, n: NoteId, note: KNote)
    requires PendingOk(notes, pend) && n in notes && !notes[n].onList && note.kq == notes[n].kq
    requires note.onList && note.enabled && note.pending
    ensures var k := note.kq; PendingOk(notes[n := note], pend[k := pend[k] + [n]])
  {
    hide NoDup;
    TailOk(pend[note.kq], n);
  }

  lemma NoteUnlisted(notes: Notes, pend: map<KqId, seq<NoteId>>, n: NoteId, note: KNote)
    requires PendingOk(notes, pend) && n in notes && note.kq == notes[n].kq
    requires !note.onList && !(note.enabled && note.pending)
    ensures var k := note.kq; PendingOk(notes[n := note], pend[k := Without(pend[k], n)])
  {
    hide NoDup, Without;
    WithoutOk(pend[note.kq], n);
  }

  lemma NoteSame(notes: Notes, pend: map<KqId, seq<NoteId>>, n: NoteId, note: KNote)
    requires PendingOk(notes, pend) && n in notes && note.kq == notes[n].kq && note.onList == notes[n].onList
    requires note.onList <==> note.enabled && note.pending
    ensures PendingOk(notes[n := note], pend)
  {
    hide NoDup;
  }

  /** A new knote, on no pending list. */
  lemma NoteAdded(notes: Notes, pend: map<KqId, seq<NoteId>>, att: map<Obj, seq<NoteId>>, hash: seq<seq<NoteId>>,
                  spare: seq<NoteId>, note: KNote)
    requires PendingOk(notes, pend) && IndexOk(notes, att, hash, spare) && spare != []
    requires note.kq in pend && !note.enabled && !note.onList && note.obj.Some? && note.obj.value in att
    requires forall n :: n in notes ==> !Matches(notes[n], note.kq, note.ident, note.filter)
    ensures spare[0] !in notes && PendingOk(notes[spare[0] := note], pend)
    ensures var o, h := note.obj.value, Hash(note.ident, note.filter);
            IndexOk(notes[spare[0] := note], att[o := att[o] + [spare[0]]], hash[h := hash[h] + [spare[0]]], spare[1..])
  {
    hide NoDup, Hash;
    var n, o, h := spare[0], note.obj.value, Hash(note.ident, note.filter);
    HeadOk(spare);
    assert n in spare;
    TailOk(att[o], n);
    TailOk(hash[h], n);
    assert AttachedOk(notes[n := note], att[o := att[o] + [n]]) by { hide HashOk, FreeOk, Unique, PendingOk; }
    assert HashOk(notes[n := note], hash[h := hash[h] + [n]]) by { hide AttachedOk, FreeOk, Unique, PendingOk; }
    assert PendingOk(notes[n := note], pend) by { hide AttachedOk, HashOk, Unique; }
    assert Unique(notes[n := note]) by { hide AttachedOk, HashOk, PendingOk; }
  }

  lemma NoteRemoved(notes: Notes, pend: map<KqId, seq<NoteId>>, att: map<Obj, seq<NoteId>>, hash: seq<seq<NoteId>>,
                    spare: seq<NoteId>, n: NoteId)
    requires PendingOk(notes, pend) && IndexOk(notes, att, hash, spare)
    requires n in notes && !notes[n].onList && notes[n].obj.Some?
    ensures PendingOk(notes - {n}, pend)
    ensures var o, h := notes[n].obj.value, Hash(notes[n].ident, notes[n].filter);
            o in att && IndexOk(notes - {n}, att[o := Without(att[o], n)], hash[h := Without(hash[h], n)], [n] + spare)
  {
    hide NoDup, Hash, Without;
    var o, h := notes[n].obj.value, Hash(notes[n].ident, notes[n].filter);
    WithoutOk(att[o], n);
    WithoutOk(hash[h], n);
    assert AttachedOk(notes - {n}, att[o := Without(att[o], n)]) by { hide HashOk, FreeOk, Unique, PendingOk; }
    assert HashOk(notes - {n}, hash[h := Without(hash[h], n)]) by { hide AttachedOk, FreeOk, Unique, PendingOk; }
    assert PendingOk(notes - {n}, pend) by { hide AttachedOk, HashOk, Unique; }
    SpareAdded(notes, spare, n);
  }

  lemma SpareAdded(notes: Notes, spare: seq<NoteId>, n: NoteId)
    requires FreeOk(notes, spare) && n in notes
    ensures FreeOk(notes - {n}, [n] + spare)
  {
  }

  /** What an event on object `o` does to a knote. */
  ghost function Raise(k: KNote, o: Obj): KNote {
    if k.obj == Some(o) then k.(pending := true, onList := k.enabled) else k
  }

  /** After the event has reached the knotes in `done`. */
  ghost predicate Raised(notes: Notes, notes': Notes, o: Obj, done: set<NoteId>) {
    && notes'.Keys == notes.Keys
    && forall n :: n in notes ==> notes'[n] == if n in done then Raise(notes[n], o) else notes[n]
  }

  lemma NoneRaised(notes: Notes, pend: map<KqId, seq<NoteId>>, o: Obj)
    ensures Raised(notes, notes, o, {}) && Grown(pend, pend) && Rung(pend, pend, []) && Members([]) == {}
  {
  }

  lemma RaisedMore(notes: Notes, notes': Notes, o: Obj, done: set<NoteId>, n: NoteId)
    requires Raised(notes, notes', o, done) && n in notes
    ensures Raised(notes, notes'[n := Raise(notes'[n], o)], o, done + {n})
    ensures Raise(notes'[n], o).obj == notes'[n].obj
  {
  }

  lemma AllRaised(notes: Notes, notes': Notes, o: Obj, ns: seq<NoteId>)
    requires Raised(notes, notes', o, Members(ns)) && forall n :: n in notes && notes[n].obj == Some(o) ==> n in ns
    ensures Raised(notes, notes', o, notes.Keys)
  {
  }

  ghost predicate Grown(pend: map<KqId, seq<NoteId>>, pend': map<KqId, seq<NoteId>>) {
    pend'.Keys == pend.Keys && forall k :: k in pend ==> pend[k] <= pend'[k]
  }

  /** Only the pending list of kqueue `k` has changed. */
  ghost predicate OnlyOf(pend: map<KqId, seq<NoteId>>, pend': map<KqId, seq<NoteId>>, k: KqId) {
    pend'.Keys == pend.Keys && forall k' :: k' in pend && k' != k ==> pend'[k'] == pend[k']
  }

  /** The rendez woken: the event rendez of exactly the kqueues whose pending list has grown. */
  ghost predicate Rung(pend: map<KqId, seq<NoteId>>, pend': map<KqId, seq<NoteId>>, wakes: seq<RendezId>) {
    && (forall k :: k in pend && k in pend' ==> (pend'[k] != pend[k] <==> EventOf(k) in wakes))
    && (forall r :: r in wakes ==> r.EventOf? && r.kq in pend)
  }

  lemma RungMore(pend: map<KqId, seq<NoteId>>, pend': map<KqId, seq<NoteId>>, wakes: seq<RendezId>, k: KqId, n: NoteId)
    requires Grown(pend, pend') && Rung(pend, pend', wakes) && k in pend'
    ensures Grown(pend, pend'[k := pend'[k] + [n]]) && Rung(pend, pend'[k := pend'[k] + [n]], wakes + [EventOf(k)])
  {
    assert pend'[k] + [n] != pend[k] by { assert |pend[k]| <= |pend'[k]|; }
  }

  /** Whether there is a message on the port a knote watches. */
  predicate Peek(k: KNote, full: set<nat>) {
    k.obj.Some? && k.obj.value.Port? && k.obj.value.q in full
  }

  /** A knote that is told to listen, or to stop: it listens as told, and an event that it knows of or finds is not lost. */
  function Switched(k: KNote, enable: bool, disable: bool, full: set<nat>): KNote {
    var enabled := !disable && (enable || k.enabled);
    var pending := k.pending || (enable && !k.enabled && Peek(k, full));
    k.(enabled := enabled, pending := pending, onList := enabled && pending)
  }

  /** Only the place of knote `n`, which was `k` and is `k'`, changes: it joins the end of its list, stays, or is on none. */
  ghost predicate Relisted(pend: map<KqId, seq<NoteId>>, n: NoteId, k: KNote, k': KNote, pend': map<KqId, seq<NoteId>>) {
    && k.kq in pend
    && pend' == pend[k.kq := if k'.onList && !k.onList then pend[k.kq] + [n]
                             else if k'.onList then pend[k.kq] else Without(pend[k.kq], n)]
  }

  datatype Change = Change(ident: nat, filter: nat, add: bool, delete: bool, enable: bool, disable: bool, oneshot: bool)

  class EventQueues {
    var notes: Notes
    var pend: map<KqId, seq<NoteId>>
    var att: map<Obj, seq<NoteId>>
    var hash: seq<seq<NoteId>>
    var spare: seq<NoteId>
    var busy: set<KqId>
    const s: Scheduler
    const syscount: nat

    ghost predicate Index()
      reads `notes, `att, `hash, `spare
    {
      IndexOk(notes, att, hash, spare) && forall n :: n in notes ==> notes[n].obj.Some?
    }

    ghost predicate Valid()
      reads `notes, `pend, `att, `hash, `spare
    {
      PendingOk(notes, pend) && Index()
    }

    constructor (s: Scheduler, kqs: set<KqId>, objs: set<Obj>, spare: seq<NoteId>, syscount: nat)
      requires NoDup(spare)
      ensures Valid() && notes == map[] && busy == {} && pend.Keys == kqs && att.Keys == objs
      ensures (forall k :: k in kqs ==> pend[k] == []) && this.spare == spare && this.s == s && this.syscount == syscount
    {
      this.s, notes, this.spare, busy, this.syscount := s, map[], spare, {}, syscount;
      pend := map k | k in kqs :: [];
      att := map o | o in objs :: [];
      hash := seq(64, _ => []);
    }

    /** Look a knote up by its hash chain: what a search of all knotes would find. */
    method GetKnote(kq: KqId, ident: nat, filter: nat) returns (r: Option<NoteId>)
      requires Valid()
      ensures r.Some? ==> r.value in notes && Matches(notes[r.value], kq, ident, filter)
      ensures forall n :: n in notes && Matches(notes[n], kq, ident, filter) ==> r == Some(n)
    {
      hide NoDup, Hash, PendingOk;
      var chain := hash[Hash(ident, filter)];
      for i := 0 to |chain|
        invariant forall k :: 0 <= k < i ==> chain[k] in notes && !Matches(notes[chain[k]], kq, ident, filter)
      {
        assert chain[i] in chain;
        if Matches(notes[chain[i]], kq, ident, filter) {
          return Some(chain[i]);
        }
      }
      return None;
    }

    /** Every kqueue has its event rendez, and the lock is held. */
    ghost predicate Ready()
      reads `pend, s
    {
      s.Inv() && s.locked && forall k :: k in pend ==> EventOf(k) in s.rendez
    }

    /**
      An event on an object: every knote that watches it becomes pending, and each one that is enabled
      and newly pending wakes the first sleeper of its kqueue's event rendez.
     */
    method Knote(o: Obj) returns (ghost wakes: seq<RendezId>)
      requires Valid() && o in att && Ready()
      modifies `notes, `pend, s`rendez, s`blocked, s`state, s`log
      ensures Valid() && Ready() && Raised(old(notes), notes, o, old(notes).Keys)
      ensures Grown(old(pend), pend) && Rung(old(pend), pend, wakes)
      ensures s.rendez == AfterWakes(old(s.rendez), wakes) && s.blocked == old(s.blocked) + Woken(old(s.rendez), wakes)
    {
      hide NoDup, PendingOk, IndexOk, Scheduler.Inv, AfterWakes, Woken, Raised, Rung, Grown, Popped, Raise;
      Watchers(notes, att, hash, spare, o);
      wakes := [];
      WokenNone(s.rendez);
      NoneRaised(notes, pend, o);
      for i := 0 to |att[o]|
        invariant PendingOk(notes, pend) && Index() && Ready() && notes.Keys == old(notes.Keys)
        invariant forall n :: n in att[o] ==> n in notes && notes[n].obj == Some(o)
        invariant Raised(old(notes), notes, o, Members(att[o][..i]))
        invariant Grown(old(pend), pend) && Rung(old(pend), pend, wakes)
        invariant s.rendez == AfterWakes(old(s.rendez), wakes) && s.blocked == old(s.blocked) + Woken(old(s.rendez), wakes)
      {
        var n := att[o][i];
        assert att[o][..i + 1] == att[o][..i] + [n];
        RaisedMore(old(notes), notes, o, Members(att[o][..i]), n);
        assert Members(att[o][..i + 1]) == Members(att[o][..i]) + {n};
        ghost var k, p := notes[n], pend;
        PendingKnown(notes, pend, n);
        RaiseOne(n, o);
        if k.enabled && !k.onList {
          RungMore(old(pend), p, wakes, k.kq, n);
          WokenMore(old(s.rendez), old(s.blocked), wakes, EventOf(k.kq), s.rendez, s.blocked);
          wakes := wakes + [EventOf(k.kq)];
        }
      }
      assert att[o][..|att[o]|] == att[o];
      AllRaised(old(notes), notes, o, att[o]);
    }

    method RaiseOne(n: NoteId, o: Obj)
      requires PendingOk(notes, pend) && Index() && Ready() && n in notes && notes[n].obj == Some(o)
      modifies `notes, `pend, s`rendez, s`blocked, s`state, s`log
      ensures PendingOk(notes, pend) && Index() && Ready()
      ensures notes == old(notes)[n := Raise(old(notes)[n], o)] && old(notes)[n].kq in old(pend)
      ensures var k := old(notes)[n];
              if k.enabled && !k.onList then
                && pend == old(pend)[k.kq := old(pend)[k.kq] + [n]]
                && EventOf(k.kq) in old(s.rendez) && Popped(old(s.rendez), old(s.blocked), EventOf(k.kq), s.rendez, s.blocked)
              else pend == old(pend) && s.rendez == old(s.rendez) && s.blocked == old(s.blocked)
    {
      hide NoDup, PendingOk, IndexOk, Scheduler.Inv;
      PendingKnown(notes, pend, n);
      IndexKept(notes, att, hash, spare, notes[n := Raise(notes[n], o)]);
      var k := notes[n];
      if k.enabled && !k.onList {
        NoteListed(notes, pend, n, k.(pending := true, onList := true));
        pend := pend[k.kq := pend[k.kq] + [n]];
        notes := notes[n := k.(pending := true, onList := true)];
        s.TaskWakeup(EventOf(k.kq));
      } else {
        NoteSame(notes, pend, n, k.(pending := true));
        notes := notes[n := k.(pending := true)];
      }
    }

    /** A knote for a new key, or none if there is no spare one or nothing to watch. */
    method AllocKnote(kq: KqId, c: Change, obj: Option<Obj>) returns (r: Option<NoteId>)
      requires Valid() && kq in pend && (obj.Some? ==> obj.value in att)
      requires forall n :: n in notes ==> !Matches(notes[n], kq, c.ident, c.filter)
      modifies `notes, `att, `hash, `spare
      ensures Valid()
      ensures r.Some? <==> old(spare) != [] && obj.Some?
      ensures r.Some? ==> r.value !in old(notes)
      ensures r.Some? ==> notes == old(notes)[r.value := KNote(kq, c.ident, c.filter, c.oneshot, obj, false, false, false)]
      ensures r.Some? ==> r.value == old(spare)[0] && spare == old(spare)[1..]
      ensures r.None? ==> notes == old(notes) && spare == old(spare) && att == old(att)
      ensures r.Some? ==> att == old(att)[obj.value := old(att)[obj.value] + [r.value]]
      ensures att.Keys == old(att.Keys)
    {
      hide NoDup, PendingOk, IndexOk, Hash, Matches;
      if spare == [] || obj.None? {
        return None;
      }
      var n, h := spare[0], Hash(c.ident, c.filter);
      var note := KNote(kq, c.ident, c.filter, c.oneshot, obj, false, false, false);
      HashSize(notes, att, hash, spare);
      NoteAdded(notes, pend, att, hash, spare, note);
      spare := spare[1..];
      hash := hash[h := hash[h] + [n]];
      att := att[obj.value := att[obj.value] + [n]];
      notes := notes[n := note];
      return Some(n);
    }

    method FreeKnote(n: NoteId)
      requires Valid() && n in notes
      modifies `notes, `pend, `att, `hash, `spare
      ensures Valid() && notes == old(notes) - {n} && spare == [n] + old(spare) && att.Keys == old(att.Keys)
      ensures var o := old(notes)[n].obj; o.Some? && o.value in old(att) && att == old(att)[o.value := Without(old(att)[o.value], n)]
      ensures pend == old(pend)[old(notes)[n].kq := Without(old(pend)[old(notes)[n].kq], n)]
    {
      hide NoDup, PendingOk, IndexOk, Hash, Without;
      Unlist(n);
      var o, h := notes[n].obj.value, Hash(notes[n].ident, notes[n].filter);
      HashSize(notes, att, hash, spare);
      NoteRemoved(notes, pend, att, hash, spare, n);
      att := att[o := Without(att[o], n)];
      hash := hash[h := Without(hash[h], n)];
      spare := [n] + spare;
      notes := notes - {n};
    }

    /** Nothing is pending for the knote any more. */
    method Unlist(n: NoteId)
      requires Valid() && n in notes
      modifies `notes, `pend
      ensures Valid() && notes == old(notes)[n := old(notes)[n].(pending := false, onList := false)]
      ensures old(notes)[n].kq in old(pend)
      ensures pend == old(pend)[old(notes)[n].kq := Without(old(pend)[old(notes)[n].kq], n)]
    {
      hide NoDup, PendingOk, IndexOk, Without;
      var k := notes[n];
      var k' := k.(pending := false, onList := false);
      PendingKnown(notes, pend, n);
      NoteUnlisted(notes, pend, n, k');
      IndexKept(notes, att, hash, spare, notes[n := k']);
      WithoutNil(n);
      if k.onList {
        pend := pend[k.kq := Without(pend[k.kq], n)];
      } else {
        NotListed(notes, pend, n);
        assert pend == pend[k.kq := Without(pend[k.kq], n)];
      }
      notes := notes[n := k'];
    }

    /** Listen again: an event that is pending, or a message that is already on one of the `full` ports, is not forgotten. */
    method EnableKnote(n: NoteId, full: set<nat>)
      requires Valid() && n in notes
      modifies `notes, `pend
      ensures Valid() && n in notes && notes == old(notes)[n := notes[n]] && Grown(old(pend), pend)
      ensures OnlyOf(old(pend), pend, old(notes)[n].kq)
      ensures SameKeys(notes[n], old(notes)[n]) && notes[n].oneshot == old(notes)[n].oneshot && notes[n].enabled
      ensures old(notes)[n].enabled ==> notes[n] == old(notes)[n]
      ensures !old(notes)[n].enabled ==> (notes[n].pending <==> old(notes)[n].pending || Peek(notes[n], full))
      ensures Relisted(old(pend), n, old(notes)[n], notes[n], pend)
    {
      hide NoDup, PendingOk, IndexOk, Without;
      var k := notes[n];
      PendingKnown(notes, pend, n);
      if !k.onList { NotListed(notes, pend, n); }
      if k.enabled {
        return;
      }
      if k.pending || Peek(k, full) {
        var k' := k.(enabled := true, pending := true, onList := true);
        NoteListed(notes, pend, n, k');
        IndexKept(notes, att, hash, spare, notes[n := k']);
        pend := pend[k.kq := pend[k.kq] + [n]];
        notes := notes[n := k'];
      } else {
        var k' := k.(enabled := true);
        NoteSame(notes, pend, n, k');
        IndexKept(notes, att, hash, spare, notes[n := k']);
        notes := notes[n := k'];
      }
    }

    /** Stop listening, remembering whether an event is pending. */
    method DisableKnote(n: NoteId)
      requires Valid() && n in notes
      modifies `notes, `pend
      ensures Valid() && notes == old(notes)[n := old(notes)[n].(enabled := false, onList := false)]
      ensures old(notes)[n].kq in old(pend)
      ensures pend == old(pend)[old(notes)[n].kq := Without(old(pend)[old(notes)[n].kq], n)]
    {
      hide NoDup, PendingOk, IndexOk, Without;
      var k := notes[n];
      PendingKnown(notes, pend, n);
      WithoutNil(n);
      if !k.onList {
        NotListed(notes, pend, n);
        assert pend == pend[k.kq := Without(pend[k.kq], n)];
      }
      if !k.enabled {
        return;
      }
      var k' := k.(enabled := false, onList := false);
      NoteUnlisted(notes, pend, n, k');
      IndexKept(notes, att, hash, spare, notes[n := k']);
      if k.onList {
        pend := pend[k.kq := Without(pend[k.kq], n)];
      }
      notes := notes[n := k'];
    }

    /** One entry of a change list. */
    method Apply(kq: KqId, c: Change, obj: Option<Obj>, full: set<nat>) returns (err: Option<Errno>)
      requires Valid() && kq in pend && (obj.Some? ==> obj.value in att)
      modifies `notes, `pend, `att, `hash, `spare
      ensures Valid() && att.Keys == old(att.Keys) && OnlyOf(old(pend), pend, kq)
      ensures err == Some(EINVAL) <==> Malformed(c, syscount)
      ensures err == Some(EEXIST) <==> !Malformed(c, syscount) && c.add && Noted(old(notes), kq, c)
      ensures err == Some(ENOENT) <==> !Malformed(c, syscount) && c.delete && !Noted(old(notes), kq, c)
      ensures err == Some(ENOMEM) <==> !Malformed(c, syscount) && c.add && !Noted(old(notes), kq, c) && (old(spare) == [] || obj.None?)
      ensures err.Some? <==> Refused(old(notes), old(spare), syscount, kq, c, obj)
      ensures err.Some? ==> notes == old(notes) && pend == old(pend) && spare == old(spare)
      ensures err.None? ==> Applied(old(notes), old(pend), old(spare), kq, c, obj, full, notes, pend, spare)
      ensures err.None? && c.add ==> Noted(notes, kq, c)
      ensures err.None? && c.delete ==> !Noted(notes, kq, c)
      ensures Changed(old(notes), notes, kq, c, full)
    {
      hide NoDup, PendingOk, IndexOk, Without, Hash, Applied, Changed, Noted, Relisted;
      NothingChanged(notes, pend, spare, kq, c, obj, full);
      if c.filter >= syscount || (c.add && c.delete) || (c.enable && c.disable) {
        return Some(EINVAL);
      }
      var r := GetKnote(kq, c.ident, c.filter);
      Found(notes, kq, c, r);
      if c.add {
        err := Add(kq, c, obj, full, r.Some?);
      } else if c.delete {
        if r.None? {
          return Some(ENOENT);
        }
        PendingKnown(notes, pend, r.value);
        DeleteApplied(notes, pend, spare, kq, c, obj, full, r.value);
        Delete(r.value);
        return None;
      } else {
        if r.Some? {
          PendingKnown(notes, pend, r.value);
          SwitchApplied(notes, pend, spare, kq, c, obj, full, r.value);
          Switch(r.value, c.enable, c.disable, full);
        }
        return None;
      }
    }

    method Add(kq: KqId, c: Change, obj: Option<Obj>, full: set<nat>, known: bool) returns (err: Option<Errno>)
      requires Valid() && kq in pend
      requires (obj.Some? ==> obj.value in att) && !Malformed(c, syscount) && c.add
      requires known <==> Noted(notes, kq, c)
      modifies `notes, `pend, `att, `hash, `spare
      ensures Valid() && att.Keys == old(att.Keys) && OnlyOf(old(pend), pend, kq)
      ensures err == if known then Some(EEXIST) else if old(spare) == [] || obj.None? then Some(ENOMEM) else None
      ensures err.Some? ==> notes == old(notes) && pend == old(pend) && spare == old(spare)
      ensures err.None? ==> Applied(old(notes), old(pend), old(spare), kq, c, obj, full, notes, pend, spare)
      ensures err.None? ==> Noted(notes, kq, c)
      ensures Changed(old(notes), notes, kq, c, full)
    {
      hide NoDup, PendingOk, IndexOk, Hash, Without, Applied;
      if known {
        return Some(EEXIST);
      }
      var n := AllocKnote(kq, c, obj);
      if n.None? {
        return Some(ENOMEM);
      }
      NotListed(notes, pend, n.value);
      AddApplied(old(notes), pend, old(spare), kq, c, obj, full);
      Switch(n.value, !c.disable, c.disable, full);
      return None;
    }

    method Delete(n: NoteId)
      requires Valid() && n in notes
      modifies `notes, `pend, `att, `hash, `spare
      ensures Valid() && notes == old(notes) - {n} && spare == [n] + old(spare) && att.Keys == old(att.Keys)
      ensures old(notes)[n].kq in old(pend)
      ensures pend == old(pend)[old(notes)[n].kq := Without(old(pend)[old(notes)[n].kq], n)]
    {
      hide NoDup, PendingOk, IndexOk, Without, Hash;
      DisableKnote(n);
      NotListed(notes, pend, n);
      ghost var p, kq := pend, notes[n].kq;
      assert p[kq := p[kq]] == p;
      assert notes - {n} == old(notes) - {n};
      FreeKnote(n);
    }

    method Switch(n: NoteId, enable: bool, disable: bool, full: set<nat>)
      requires Valid() && n in notes && !(enable && disable)
      modifies `notes, `pend
      ensures Valid() && notes == old(notes)[n := Switched(old(notes)[n], enable, disable, full)]
      ensures Relisted(old(pend), n, old(notes)[n], notes[n], pend)
    {
      hide NoDup, PendingOk, IndexOk, Without;
      PendingKnown(notes, pend, n);
      if !notes[n].onList { NotListed(notes, pend, n); }
      assert pend == pend[notes[n].kq := pend[notes[n].kq]] && notes == notes[n := notes[n]];
      if enable {
        EnableKnote(n, full);
      }
      if disable {
        DisableKnote(n);
      }
      PendingKnown(notes, pend, n);
    }

    /** Hand out up to `nevents` pending events, oldest first. */
    method Collect(kq: KqId, nevents: nat) returns (events: seq<NoteId>)
      requires Valid() && kq in pend
      modifies `notes, `pend, `att, `hash, `spare
      ensures Valid() && att.Keys == old(att.Keys)
      ensures kq in pend && |events| <= nevents && old(pend)[kq] == events + pend[kq]
      ensures (|events| < nevents ==> pend[kq] == [])
      ensures pend == old(pend)[kq := pend[kq]]
      ensures Collected(old(notes), notes, events) && spare == Returned(old(spare), old(notes), events)
    {
      hide NoDup, PendingOk, IndexOk, Without, Hash, Collected, Returned;
      ReturnedNone(spare, notes);
      ListNoDup(notes, pend, kq);
      CollectedNone(notes);
      events := [];
      while |events| < nevents && pend[kq] != []
        invariant Valid() && kq in pend && att.Keys == old(att.Keys)
        invariant |events| <= nevents && old(pend)[kq] == events + pend[kq] && pend == old(pend)[kq := pend[kq]]
        invariant Collected(old(notes), notes, events) && spare == Returned(old(spare), old(notes), events)
        decreases nevents - |events|
      {
        var n := pend[kq][0];
        HeadListed(notes, pend, kq);
        FirstOnly(old(pend)[kq], events, pend[kq]);
        CollectedNext(old(notes), notes, events, n);
        CollectedAs(old(notes), notes, events, n);
        ReturnedNext(old(spare), old(notes), events, n);
        CollectOne(n);
        events := events + [n];
      }
    }

    /** Take the kqueue for a kevent call, or sleep until it may be free. */
    method Acquire(kq: KqId) returns (mine: bool)
      requires s.Inv() && s.pc[s.current] == InKernel && s.current != s.idle && BusyOf(kq) in s.rendez
      modifies `busy, s`queue, s`bitmap, s`locked, s`owner, s`blocked, s`state, s`current, s`pc, s`log, s`rendez, s`on
      ensures s.Inv() && (mine <==> kq !in old(busy)) && busy == old(busy) + {kq}
      ensures mine ==> s.rendez == old(s.rendez) && s.pc == old(s.pc) && s.current == old(s.current)
      ensures !mine ==> s.rendez == old(s.rendez)[BusyOf(kq) := old(s.rendez)[BusyOf(kq)] + [old(s.current)]]
      ensures !mine ==> s.pc == old(s.pc)[old(s.current) := InSleep]
    {
      hide Scheduler.Inv, MostUrgent, Chosen, Turned, Parted, Passed;
      mine := kq !in busy;
      if mine {
        busy := busy + {kq};
      } else {
        s.TaskSleep(BusyOf(kq));
      }
    }

    /** Let the kqueue go, and wake the first process that waits for it. */
    method Release(kq: KqId)
      requires s.Inv() && s.locked && BusyOf(kq) in s.rendez
      modifies `busy, s`rendez, s`blocked, s`state, s`log
      ensures s.Inv() && busy == old(busy) - {kq}
      ensures Popped(old(s.rendez), old(s.blocked), BusyOf(kq), s.rendez, s.blocked)
    {
      hide Scheduler.Inv;
      busy := busy - {kq};
      s.TaskWakeup(BusyOf(kq));
    }

    method CollectOne(n: NoteId)
      requires Valid() && n in notes && notes[n].kq in pend && pend[notes[n].kq] != [] && pend[notes[n].kq][0] == n
      modifies `notes, `pend, `att, `hash, `spare
      ensures Valid() && att.Keys == old(att.Keys)
      ensures pend == old(pend)[old(notes)[n].kq := old(pend)[old(notes)[n].kq][1..]]
      ensures spare == if old(notes)[n].oneshot then [n] + old(spare) else old(spare)
      ensures notes == if old(notes)[n].oneshot then old(notes) - {n} else old(notes)[n := old(notes)[n].(pending := false, onList := false)]
    {
      hide NoDup, PendingOk, IndexOk, Without, Hash;
      var k := notes[n].kq;
      WithoutHead(pend[k]);
      Unlist(n);
      if notes[n].oneshot {
        NotListed(notes, pend, n);
        FreeKnote(n);
      }
    }
  }

  /** The first sleeper of a rendez, if there is one, has joined the lock's queue. */
  ghost predicate Popped(z: map<RendezId, seq<Pid>>, bkl: seq<Pid>, r: RendezId, z': map<RendezId, seq<Pid>>, bkl': seq<Pid>)
    requires r in z
  {
    if z[r] == [] then z' == z && bkl' == bkl else z' == z[r := z[r][1..]] && bkl' == bkl + [z[r][0]]
  }

  lemma WokenMore(z: map<RendezId, seq<Pid>>, bkl: seq<Pid>, wakes: seq<RendezId>, r: RendezId,
                  z': map<RendezId, seq<Pid>>, bkl': seq<Pid>)
    requires r in AfterWakes(z, wakes) && Popped(AfterWakes(z, wakes), bkl + Woken(z, wakes), r, z', bkl')
    ensures z' == AfterWakes(z, wakes + [r]) && bkl' == bkl + Woken(z, wakes + [r])
  {
    hide AfterWakes, Woken;
    WokenNext(z, wakes + [r]);
    assert (wakes + [r])[..|wakes|] == wakes;
  }

  predicate Malformed(c: Change, syscount: nat) {
    c.filter >= syscount || (c.add && c.delete) || (c.enable && c.disable)
  }

  ghost predicate Noted(notes: Notes, kq: KqId, c: Change) {
    exists n :: n in notes && Matches(notes[n], kq, c.ident, c.filter)
  }

  /** A change that is an error: malformed, a knote there already, none to delete, or no knote or object to be had. */
  ghost predicate Refused(notes: Notes, spare: seq<NoteId>, syscount: nat, kq: KqId, c: Change, obj: Option<Obj>) {
    || Malformed(c, syscount)
    || (c.add && (Noted(notes, kq, c) || spare == [] || obj.None?))
    || (c.delete && !Noted(notes, kq, c))
  }

  /** The knote that a change adds: it listens unless told not to, and knows of a message that is there. */
  function Added(kq: KqId, c: Change, obj: Option<Obj>, full: set<nat>): KNote {
    var hears := !c.disable && obj.Some? && obj.value.Port? && obj.value.q in full;
    KNote(kq, c.ident, c.filter, c.oneshot, obj, !c.disable, hears, hears)
  }

  /** What an accepted change leaves: of the knotes, of the pending lists and of the spare knotes. */
  ghost predicate Applied(notes: Notes, pend: map<KqId, seq<NoteId>>, spare: seq<NoteId>, kq: KqId, c: Change, obj: Option<Obj>,
                          full: set<nat>, notes': Notes, pend': map<KqId, seq<NoteId>>, spare': seq<NoteId>) {
    if c.add then
      && spare != [] && kq in pend && spare' == spare[1..]
      && var k := Added(kq, c, obj, full);
         notes' == notes[spare[0] := k] && pend' == pend[kq := pend[kq] + if k.onList then [spare[0]] else []]
    else
      && (!Noted(notes, kq, c) ==> notes' == notes && pend' == pend && spare' == spare)
      && forall n :: n in notes && Matches(notes[n], kq, c.ident, c.filter) ==>
           if c.delete then
             kq in pend && notes' == notes - {n} && pend' == pend[kq := Without(pend[kq], n)] && spare' == [n] + spare
           else
             var k := Switched(notes[n], c.enable, c.disable, full);
             notes' == notes[n := k] && Relisted(pend, n, notes[n], k, pend') && spare' == spare
  }

  lemma AddApplied(notes: Notes, pend: map<KqId, seq<NoteId>>, spare: seq<NoteId>, kq: KqId, c: Change, obj: Option<Obj>, full: set<nat>)
    requires c.add && spare != [] && spare[0] !in notes && kq in pend && Without(pend[kq], spare[0]) == pend[kq] && obj.Some?
    ensures var n, k := spare[0], KNote(kq, c.ident, c.filter, c.oneshot, obj, false, false, false);
            forall pend' :: Relisted(pend, n, k, Switched(k, !c.disable, c.disable, full), pend') ==>
              && Applied(notes, pend, spare, kq, c, obj, full, notes[n := k][n := Switched(k, !c.disable, c.disable, full)], pend', spare[1..])
              && OnlyOf(pend, pend', kq)
    ensures var n, k := spare[0], KNote(kq, c.ident, c.filter, c.oneshot, obj, false, false, false);
            var notes' := notes[n := k][n := Switched(k, !c.disable, c.disable, full)];
            Noted(notes', kq, c) && Changed(notes, notes', kq, c, full)
  {
    hide Without;
    var n, k := spare[0], KNote(kq, c.ident, c.filter, c.oneshot, obj, false, false, false);
    var k' := Switched(k, !c.disable, c.disable, full);
    assert notes[n := k][n := k'] == notes[n := k'] && k' == Added(kq, c, obj, full);
    assert Matches(notes[n := k'][n], kq, c.ident, c.filter);
    forall pend' | Relisted(pend, n, k, k', pend')
      ensures Applied(notes, pend, spare, kq, c, obj, full, notes[n := k'], pend', spare[1..]) && OnlyOf(pend, pend', kq)
    {
      assert pend[kq] + [] == pend[kq];
      assert pend' == pend[kq := pend[kq] + if k'.onList then [n] else []];
    }
  }

  lemma NothingChanged(notes: Notes, pend: map<KqId, seq<NoteId>>, spare: seq<NoteId>, kq: KqId, c: Change, obj: Option<Obj>,
                       full: set<nat>)
    ensures Changed(notes, notes, kq, c, full)
    ensures !c.add && !Noted(notes, kq, c) ==> Applied(notes, pend, spare, kq, c, obj, full, notes, pend, spare)
  {
  }

  lemma Found(notes: Notes, kq: KqId, c: Change, r: Option<NoteId>)
    requires r.Some? ==> r.value in notes && Matches(notes[r.value], kq, c.ident, c.filter)
    requires forall n :: n in notes && Matches(notes[n], kq, c.ident, c.filter) ==> r == Some(n)
    ensures r.Some? <==> Noted(notes, kq, c)
  {
  }

  lemma DeleteApplied(notes: Notes, pend: map<KqId, seq<NoteId>>, spare: seq<NoteId>, kq: KqId, c: Change, obj: Option<Obj>,
                      full: set<nat>, n: NoteId)
    requires c.delete && !c.add && n in notes && Matches(notes[n], kq, c.ident, c.filter) && kq in pend
    requires forall z :: z in notes && Matches(notes[z], kq, c.ident, c.filter) ==> z == n
    ensures Applied(notes, pend, spare, kq, c, obj, full, notes - {n}, pend[kq := Without(pend[kq], n)], [n] + spare)
    ensures Changed(notes, notes - {n}, kq, c, full) && !Noted(notes - {n}, kq, c)
  {
    hide Without;
    assert Noted(notes, kq, c);
  }

  lemma SwitchApplied(notes: Notes, pend: map<KqId, seq<NoteId>>, spare: seq<NoteId>, kq: KqId, c: Change, obj: Option<Obj>,
                      full: set<nat>, n: NoteId)
    requires !c.delete && !c.add && n in notes && Matches(notes[n], kq, c.ident, c.filter) && kq in pend && !(c.enable && c.disable)
    requires forall z :: z in notes && Matches(notes[z], kq, c.ident, c.filter) ==> z == n
    requires notes[n].onList <==> notes[n].enabled && notes[n].pending
    ensures var k := Switched(notes[n], c.enable, c.disable, full);
            && Changed(notes, notes[n := k], kq, c, full)
            && forall pend' :: Relisted(pend, n, notes[n], k, pend') ==>
                 Applied(notes, pend, spare, kq, c, obj, full, notes[n := k], pend', spare) && OnlyOf(pend, pend', kq)
  {
    hide Without;
    assert Noted(notes, kq, c);
  }

  /** Only the knote named changes, and if it listens afterwards it has seen any message that was there. */
  ghost predicate Changed(notes: Notes, notes': Notes, kq: KqId, c: Change, full: set<nat>) {
    && (forall n :: n in notes && !Matches(notes[n], kq, c.ident, c.filter) ==> n in notes' && notes'[n] == notes[n])
    && (forall n :: n in notes' ==>
          (n in notes && notes'[n] == notes[n]) || (Matches(notes'[n], kq, c.ident, c.filter)
            && (notes'[n].enabled && Peek(notes'[n], full) ==> notes'[n].pending)))
  }

  /** Events `events` have been handed out. */
  ghost predicate Collected(notes: Notes, notes': Notes, events: seq<NoteId>) {
    && (forall n :: n in notes' ==> n in notes && notes'[n] == if n in events then notes[n].(pending := false, onList := false) else notes[n])
    && (forall n :: n in notes ==> (n in notes' <==> n !in events || !notes[n].oneshot))
    && (forall n :: n in events ==> n in notes && notes[n].enabled && notes[n].pending)
  }

  /** The one-shot knotes of the events handed out are spare again, the last one first. */
  ghost function Returned(spare: seq<NoteId>, notes: Notes, events: seq<NoteId>): seq<NoteId> {
    if events == [] then spare
    else
      var before, n := Returned(spare, notes, events[..|events| - 1]), events[|events| - 1];
      if n in notes && notes[n].oneshot then [n] + before else before
  }

  lemma ReturnedNone(spare: seq<NoteId>, notes: Notes)
    ensures Returned(spare, notes, []) == spare
  {
  }

  lemma ReturnedNext(spare: seq<NoteId>, notes: Notes, events: seq<NoteId>, n: NoteId)
    requires n in notes
    ensures Returned(spare, notes, events + [n]) ==
            if notes[n].oneshot then [n] + Returned(spare, notes, events) else Returned(spare, notes, events)
  {
    assert (events + [n])[..|events|] == events;
  }

  lemma CollectedAs(notes: Notes, notes': Notes, events: seq<NoteId>, n: NoteId)
    requires Collected(notes, notes', events) && n in notes' && n !in events
    ensures n in notes && notes'[n] == notes[n]
  {
  }

  lemma CollectedNone(notes: Notes)
    ensures Collected(notes, notes, [])
  {
  }

  lemma CollectedNext(notes: Notes, notes': Notes, events: seq<NoteId>, n: NoteId)
    requires Collected(notes, notes', events) && n in notes' && n !in events && notes'[n].enabled && notes'[n].pending
    ensures Collected(notes, if notes'[n].oneshot then notes' - {n} else notes'[n := notes'[n].(pending := false, onList := false)], events + [n])
  {
  }

  lemma ListNoDup(notes: Notes, pend: map<KqId, seq<NoteId>>, k: KqId)
    requires PendingOk(notes, pend) && k in pend
    ensures NoDup(pend[k])
  {
  }

  lemma HeadListed(notes: Notes, pend: map<KqId, seq<NoteId>>, k: KqId)
    requires PendingOk(notes, pend) && k in pend && pend[k] != []
    ensures pend[k][0] in notes && notes[pend[k][0]].kq == k && notes[pend[k][0]].enabled && notes[pend[k][0]].pending
  {
    assert pend[k][0] in pend[k];
  }

  lemma FirstOnly(all: seq<NoteId>, done: seq<NoteId>, rest: seq<NoteId>)
    requires NoDup(all) && all == done + rest && rest != []
    ensures rest[0] !in done
  {
    forall i | 0 <= i < |done| ensures done[i] != rest[0] {
      assert all[i] == done[i] && all[|done|] == rest[0];
    }
  }

  lemma Watchers(notes: Notes, att: map<Obj, seq<NoteId>>, hash: seq<seq<NoteId>>, spare: seq<NoteId>, o: Obj)
    requires IndexOk(notes, att, hash, spare) && o in att
    ensures NoDup(att[o])
    ensures forall n :: n in att[o] <==> n in notes && notes[n].obj == Some(o)
    ensures forall i :: 0 <= i < |att[o]| ==> att[o][i] in notes && notes[att[o][i]].obj == Some(o) && att[o][i] !in att[o][..i]
  {
    forall i | 0 <= i < |att[o]| ensures att[o][i] in notes && notes[att[o][i]].obj == Some(o) {
      assert att[o][i] in att[o];
    }
  }

  lemma PendingKnown(notes: Notes, pend: map<KqId, seq<NoteId>>, n: NoteId)
    requires PendingOk(notes, pend) && n in notes
    ensures notes[n].kq in pend && (notes[n].onList <==> notes[n].enabled && notes[n].pending)
    ensures notes[n].onList <==> n in pend[notes[n].kq]
  {
  }

  lemma NotListed(notes: Notes, pend: map<KqId, seq<NoteId>>, n: NoteId)
    requires PendingOk(notes, pend) && n in notes && !notes[n].onList
    ensures notes[n].kq in pend && Without(pend[notes[n].kq], n) == pend[notes[n].kq]
  {
    WithoutAbsent(pend[notes[n].kq], n);
  }

  lemma WithoutNil(n: nat)
    ensures Without([], n) == []
  {
  }

  lemma HashSize(notes: Notes, att: map<Obj, seq<NoteId>>, hash: seq<seq<NoteId>>, spare: seq<NoteId>)
    requires IndexOk(notes, att, hash, spare)
    ensures |hash| == 64 && forall n :: n in notes && notes[n].obj.Some? ==> notes[n].obj.value in att
  {
  }
}
