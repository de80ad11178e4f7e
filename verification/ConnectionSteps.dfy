/** The reservers' actions and the operations of an upgrade's parties keep the invariant. */
module ConnectionSteps {
  import opened Prelude
  import opened ConnectionRegistry
  import opened ConnectionProtocol
  import opened ConnectionInvariant

  // ----- operations of one upgrade -----

  function OperatedView(v: View, id: Id, op: Op): View
    requires Ready(v.u, op)
  {
    v.(u := Advance(v.u, op), events := v.events + Emitted(v.u, id, op))
  }

  function Permits(v: View): nat {
    if Holds(v) then 1 else 0
  }

  /** What one operation of one upgrade promises about its view. */
  ghost predicate Good(v: View, id: Id, op: Op)
    requires Ready(v.u, op)
  {
    && Phase(OperatedView(v, id, op))
    && Permits(v) == Permits(OperatedView(v, id, op)) + (if Releases(v.u, op) then 1 else 0)
    && (op.TakePermit? ==> v.u.slot)
    && (Emitted(v.u, id, op) != [] ==> v.entry.Some?)
  }

  lemma OperatePending(v: View, id: Id, op: Op)
    requires Phase(v) && Ready(v.u, op) && v.u.stage == Pending
    ensures Good(v, id, op)
  {
  }

  lemma OperateTerminal(v: View, id: Id, op: Op)
    requires Phase(v) && Ready(v.u, op) && v.u.stage == Terminal
    ensures Good(v, id, op)
  {
    if op.SendFinished? || op.FailSend? || op.DropSend? {
      assert Finishers(Advance(v.u, op)) == 0;
    }
  }

  lemma OperateActivated(v: View, id: Id, op: Op)
    requires Phase(v) && Ready(v.u, op) && v.u.stage == Activated
    ensures Good(v, id, op)
  {
    if op.SendActivate? {
      assert OperatedView(v, id, op).events[1..] == [];
    } else if op.SendReturned? {
      ReturnedActivated(v, id);
    } else {
      QuietActivated(v, id, op);
    }
  }

  lemma QuietActivated(v: View, id: Id, op: Op)
    requires Phase(v) && Ready(v.u, op) && v.u.stage == Activated && !op.SendActivate? && !op.SendReturned?
    ensures Good(v, id, op)
  {
    assert Emitted(v.u, id, op) == [];
    assert OperatedView(v, id, op).events == v.events;
  }

  lemma ReturnedActivated(v: View, id: Id)
    requires Phase(v) && v.u.callback.SawActivated? && v.u.stage == Activated
    ensures Good(v, id, SendReturned)
  {
  }

  lemma OperatePhase(v: View, id: Id, op: Op)
    requires Phase(v) && Ready(v.u, op)
    ensures Good(v, id, op)
  {
    match v.u.stage
    case Pending => OperatePending(v, id, op);
    case Terminal => OperateTerminal(v, id, op);
    case Activated => OperateActivated(v, id, op);
  }

  lemma EmittedEvents(pc: Supervisor, channel: seq<Event>, u: Upgrade, id: Id, op: Op, i: Id)
    requires Ready(u, op)
    ensures EventsFor(Queue(pc, channel + Emitted(u, id, op)), i) ==
            EventsFor(Queue(pc, channel), i) + if i == id then Emitted(u, id, op) else []
  {
    var e := Emitted(u, id, op);
    assert Queue(pc, channel + e) == Queue(pc, channel) + e;
    EventsForConcat(Queue(pc, channel), e, i);
    assert e == [] || (|e| == 1 && e[1..] == []);
  }

  lemma OperateViews(s: State, id: Id, op: Op)
    requires id in s.upgrades && Ready(s.upgrades[id], op)
    requires s.desk.pc.Returned? ==> Emitted(s.upgrades[id], id, op) == []
    ensures var t := Operated(s, id, op);
            && SameElsewhere(s, t, id) && ViewOf(t, id) == OperatedView(ViewOf(s, id), id, op)
            && t.channel == s.channel + Emitted(s.upgrades[id], id, op)
  {
    var t, u := Operated(s, id, op), s.upgrades[id];
    assert t.channel == s.channel + Emitted(u, id, op);
    forall i | i in s.upgrades && i != id ensures ViewOf(t, i) == ViewOf(s, i) {
      EmittedEvents(s.desk.pc, s.channel, u, id, op, i);
    }
    EmittedEvents(s.desk.pc, s.channel, u, id, op, id);
  }

  lemma OperateLinked(s: State, id: Id, op: Op)
    requires Linked(s) && id in s.upgrades && Ready(s.upgrades[id], op)
    requires op.TakePermit? ==> s.upgrades[id].slot
    ensures Linked(Operated(s, id, op))
  {
  }

  lemma OperateStep(s: State, id: Id, op: Op)
    requires Inv(s) && id in s.upgrades && Ready(s.upgrades[id], op)
    ensures Inv(Operated(s, id, op))
  {
    var t, v := Operated(s, id, op), ViewOf(s, id);
    assert Phase(v);
    OperatePhase(v, id, op);
    OperateViews(s, id, op);
    OperateLinked(s, id, op);
    LocalStep(s, t, id);
  }

  // ----- reservers -----

  lemma ReserverCount(reservers: map<nat, Reserver>, r: nat, next: Reserver)
    ensures |reservers[r := next]| == |reservers| + if r in reservers then 0 else 1
    ensures |InFlight(reservers[r := next])| == |InFlight(reservers)| + (if HasId(next) then 1 else 0)
                                                - (if r in reservers && HasId(reservers[r]) then 1 else 0)
  {
    assert reservers[r := next].Keys == reservers.Keys + {r};
    CardStep(InFlight(reservers), InFlight(reservers[r := next]), r);
  }

  lemma LeaverCount(reservers: map<nat, Reserver>, r: nat)
    requires r in reservers
    ensures |reservers - {r}| == |reservers| - 1
    ensures |InFlight(reservers - {r})| == |InFlight(reservers)| - (if HasId(reservers[r]) then 1 else 0)
  {
    assert (reservers - {r}).Keys == reservers.Keys - {r};
    CardStep(InFlight(reservers), InFlight(reservers - {r}), r);
  }

  /** Steps of the reservers change the requests and nothing else. */
  lemma RequestStep(s: State, q: Requests)
    requires Inv(s) && ReserversLinked(q, s.reg.nextId, s.upgrades.Keys) && Sealed(s.reg, q.lock, s.desk)
    requires q.available + |q.at| == s.requests.available + |s.requests.at|
    requires q.burned + |InFlight(q.at)| == s.requests.burned + |InFlight(s.requests.at)|
    ensures Inv(Requested(s, q))
  {
    SameViews(s, Requested(s, q));
  }

  lemma EnterStep(s: State, r: nat)
    requires Inv(s) && r !in s.requests.at && s.requests.available > 0
    ensures Inv(Requested(s, Enter(s.requests, r)))
  {
    ReserverCount(s.requests.at, r, HasPermit);
    RequestStep(s, Enter(s.requests, r));
  }

  lemma LeaveStep(s: State, r: nat, issued: nat)
    requires Inv(s) && r in s.requests.at && !s.requests.at[r].Locked?
    requires issued == if HasId(s.requests.at[r]) then 1 else 0
    ensures Inv(Requested(s, Leave(s.requests, r, issued)))
  {
    LeaverCount(s.requests.at, r);
    RequestStep(s, Leave(s.requests, r, issued));
  }

  lemma MoveStep(s: State, r: nat, next: Reserver, lock: Option<nat>)
    requires Inv(s) && r in s.requests.at && HasId(s.requests.at[r]) == HasId(next)
    requires ReserversLinked(Move(s.requests, r, next, lock), s.reg.nextId, s.upgrades.Keys)
             && Sealed(s.reg, lock, s.desk)
    ensures Inv(Requested(s, Move(s.requests, r, next, lock)))
  {
    ReserverCount(s.requests.at, r, next);
    RequestStep(s, Move(s.requests, r, next, lock));
  }

  lemma SeenLinked(q: Requests, r: nat, nextId: nat, ids: set<Id>)
    requires ReserversLinked(q, nextId, ids) && At(q, r, HasPermit)
    ensures ReserversLinked(Move(q, r, SawAccepting, q.lock), nextId, ids)
  {
  }

  lemma LockLinked(q: Requests, r: nat, nextId: nat, ids: set<Id>)
    requires ReserversLinked(q, nextId, ids) && q.lock == None && r in q.at && q.at[r].Issued?
    ensures ReserversLinked(Move(q, r, Locked(q.at[r].id), Some(r)), nextId, ids)
  {
  }

  lemma LockGranted(s: State, r: nat)
    requires Inv(s) && Enabled(s, LockAndRecheck(r)) && s.reg.accepting
    ensures Inv(Requested(s, Move(s.requests, r, Locked(s.requests.at[r].id), Some(r))))
  {
    LockLinked(s.requests, r, s.reg.nextId, s.upgrades.Keys);
    assert !s.desk.sealed;
    MoveStep(s, r, Locked(s.requests.at[r].id), Some(r));
  }

  lemma IssueLinked(q: Requests, r: nat, nextId: nat, ids: set<Id>)
    requires ReserversLinked(q, nextId, ids) && At(q, r, SawAccepting) && 1 <= nextId && nextId !in ids
    ensures ReserversLinked(Move(q, r, Issued(nextId), q.lock), nextId + 1, ids)
  {
  }

  lemma IssueStep(s: State, r: nat)
    requires Inv(s) && At(s.requests, r, SawAccepting)
    ensures Inv(IssuedId(s, r))
  {
    ReserverCount(s.requests.at, r, Issued(s.reg.nextId));
    IssueLinked(s.requests, r, s.reg.nextId, s.upgrades.Keys);
    SameViews(s, IssuedId(s, r));
  }

  lemma StopAcceptingStep(s: State)
    requires Inv(s)
    ensures Inv(s.(reg := s.reg.(accepting := false)))
  {
    SameViews(s, s.(reg := s.reg.(accepting := false)));
  }

  lemma SendStopStep(s: State, abort: bool)
    requires Inv(s)
    ensures Inv(Send(s, [Stop(abort)]))
  {
    var t, e := Send(s, [Stop(abort)]), [Stop(abort)];
    if !s.desk.pc.Returned? {
      assert Queue(t.desk.pc, t.channel) == Queue(s.desk.pc, s.channel) + e;
      forall i ensures EventsFor(Queue(t.desk.pc, t.channel), i) == EventsFor(Queue(s.desk.pc, s.channel), i) {
        EventsForConcat(Queue(s.desk.pc, s.channel), e, i);
        assert EventsFor(e, i) == [];
      }
    }
    SameViews(s, t);
  }

  // ----- insertion -----

  lemma InsertViews(s: State, r: nat, id: Id)
    requires Linked(s) && id !in s.upgrades
    ensures var t := Inserted(s, r, id);
            && ViewOf(t, id) == View(Upgrade(Pending, true, Idle, Waiting, Waiting),
                                     Some(Ownership(PendingUpgrade, false, false)), [], {}, {}, false, 0, 0, 0)
            && forall i :: i in s.upgrades ==> ViewOf(t, i) == ViewOf(s, i)
  {
    var t := Inserted(s, r, id);
    EventsForAbsent(Queue(s.desk.pc, s.channel), id);
    forall i | i in s.upgrades ensures ViewOf(t, i) == ViewOf(s, i) {
      assert EntryOf(t.reg, i) == EntryOf(s.reg, i);
    }
  }

  lemma InsertLinked(s: State, r: nat)
    requires Linked(s) && r in s.requests.at && s.requests.at[r].Locked?
    ensures Linked(Inserted(s, r, s.requests.at[r].id))
  {
  }

  lemma InsertHolders(s: State, r: nat, id: Id)
    requires Linked(s) && id !in s.upgrades
    ensures |Holders(Inserted(s, r, id))| == |Holders(s)| + 1
  {
    var t := Inserted(s, r, id);
    InsertViews(s, r, id);
    forall i | i != id ensures i in Holders(t) <==> i in Holders(s) {
    }
    CardStep(Holders(s), Holders(t), id);
  }

  lemma InsertedIds(ids: set<Id>, consumed: multiset<Id>, id: Id)
    requires id !in ids && id !in consumed
    ensures |ids + {id}| == |ids| + 1 && ConsumedIds(ids + {id}, consumed) == ConsumedIds(ids, consumed)
  {
  }

  lemma InsertCounts(s: State, r: nat, id: Id)
    requires Counted(s) && At(s.requests, r, Locked(id)) && |Holders(Inserted(s, r, id))| == |Holders(s)| + 1
    requires id !in s.upgrades && id !in s.log.consumed
    ensures Counted(Inserted(s, r, id))
  {
    var ids := s.upgrades.Keys;
    assert Inserted(s, r, id).upgrades.Keys == ids + {id};
    InsertedIds(ids, s.log.consumed, id);
    LeaverCount(s.requests.at, r);
  }

  lemma InsertStep(s: State, r: nat)
    requires Inv(s) && r in s.requests.at && s.requests.at[r].Locked?
    ensures Inv(Inserted(s, r, s.requests.at[r].id))
  {
    var id := s.requests.at[r].id;
    var t := Inserted(s, r, id);
    InsertLinked(s, r);
    InsertHolders(s, r, id);
    InsertCounts(s, r, id);
    InsertViews(s, r, id);
    forall i | i in t.upgrades ensures Phase(ViewOf(t, i)) {
      if i != id {
        assert Phase(ViewOf(s, i));
      }
    }
  }
}
